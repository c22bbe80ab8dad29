/** Attendance records, the license that justifies an absence, and the
    reprogrammed classes of a license (the `asistencia`, `licencia` and
    `reprogramacion` tables and the static models that write them). The three
    tables live in one `Registry`; the database's own guarantees (the unique
    keys, the enum CHECK constraints, the cascading foreign keys) are part of
    the model because the models rely on them. */
module Attendance {
  import opened Common

  /** The states `Asistencia::validar` accepts when a record is created. */
  const AttendanceStates: set<string> := {"presente", "ausente", "tardanza", "justificado"}

  /** `licencia.estado`: an enum column, so the database refuses other values. */
  datatype LicenseState = Pendiente | Aprobada | Rechazada

  /** The enum value a request string names, if any. */
  function LicenseStateNamed(s: string): Option<LicenseState> {
    if s == "pendiente" then Some(Pendiente)
    else if s == "aprobada" then Some(Aprobada)
    else if s == "rechazada" then Some(Rechazada)
    else None
  }

  /** `reprogramacion.estado`: an enum column as well. */
  datatype ReprogrammingState = Programada | Realizada | Cancelada

  function ReprogrammingStateNamed(s: string): Option<ReprogrammingState> {
    if s == "programada" then Some(Programada)
    else if s == "realizada" then Some(Realizada)
    else if s == "cancelada" then Some(Cancelada)
    else None
  }

  /** A row of `asistencia`. Its `estado` is free text once stored, because
      `actualizar` writes it without validating it. */
  datatype Asistencia = Asistencia(inscripcionId: Id, fecha: Date, estado: string, observaciones: Option<string>)

  /** A row of `licencia`; `fechaSolicitud` is the clock reading at creation. */
  datatype Licencia = Licencia(asistenciaId: Id, motivo: string, estado: LicenseState, fechaSolicitud: nat)

  /** A row of `reprogramacion`. */
  datatype Reprogramacion = Reprogramacion(
    licenciaId: Id, fechaOriginal: Date, fechaNueva: Date,
    estado: ReprogrammingState, observaciones: Option<string>)

  /** The request arrays the three models receive (for `actualizar` the id
      fields are ignored, as the source ignores them). */
  datatype AsistenciaData = AsistenciaData(
    inscripcionId: Option<Id>, fecha: Option<Date>, estado: Option<string>, observaciones: Option<string>)
  datatype LicenciaData = LicenciaData(asistenciaId: Option<Id>, motivo: Option<string>, estado: Option<string>)
  datatype ReprogramacionData = ReprogramacionData(
    licenciaId: Option<Id>, fechaOriginal: Option<Date>, fechaNueva: Option<Date>,
    estado: Option<string>, observaciones: Option<string>)

  /** `Asistencia::validar`: enrolment exists, a date, a state from the list. */
  predicate AsistenciaValid(d: AsistenciaData, inscripciones: set<Id>) {
    && d.inscripcionId.Some? && d.inscripcionId.value in inscripciones
    && d.fecha.Some?
    && d.estado.Some? && d.estado.value in AttendanceStates
  }

  /** `Licencia::validar`: attendance exists, a non-blank reason, and a state
      from the enum when one is given. */
  predicate LicenciaValid(d: LicenciaData, asistencias: set<Id>) {
    && d.asistenciaId.Some? && d.asistenciaId.value in asistencias
    && RequiredText(d.motivo)
    && (d.estado.Some? ==> LicenseStateNamed(d.estado.value).Some?)
  }

  /** `Reprogramacion::validar`: license exists, both dates, and a state from
      the enum when one is given. Nothing relates the dates or the license's
      state. */
  predicate ReprogramacionValid(d: ReprogramacionData, licencias: set<Id>) {
    && d.licenciaId.Some? && d.licenciaId.value in licencias
    && d.fechaOriginal.Some? && d.fechaNueva.Some?
    && (d.estado.Some? ==> ReprogrammingStateNamed(d.estado.value).Some?)
  }

  /** Some attendance other than `except` is already recorded for the
      enrolment on that date. */
  predicate DayTaken(a: map<Id, Asistencia>, inscripcionId: Id, fecha: Date, except: Option<Id>) {
    exists i | i in a :: Some(i) != except && a[i].inscripcionId == inscripcionId && a[i].fecha == fecha
  }

  /** The attendance already has a license. */
  predicate Licensed(ls: map<Id, Licencia>, asistenciaId: Id) {
    exists l | l in ls :: ls[l].asistenciaId == asistenciaId
  }

  /** Some reprogramming points at the license. */
  predicate Reprogrammed(rs: map<Id, Reprogramacion>, licenciaId: Id) {
    exists x | x in rs :: rs[x].licenciaId == licenciaId
  }

  /** The unique key (inscripcion_id, fecha) of `asistencia`. */
  ghost predicate UniqueDays(a: map<Id, Asistencia>) {
    forall i, j :: i in a && j in a && a[i].inscripcionId == a[j].inscripcionId && a[i].fecha == a[j].fecha ==> i == j
  }

  /** The unique key asistencia_id of `licencia`. */
  ghost predicate OneLicensePerAttendance(ls: map<Id, Licencia>) {
    forall i, j :: i in ls && j in ls && ls[i].asistenciaId == ls[j].asistenciaId ==> i == j
  }

  /** The three tables together. */
  datatype Tables = Tables(
    asistencias: map<Id, Asistencia>, licencias: map<Id, Licencia>, reprogramaciones: map<Id, Reprogramacion>)

  /** Every foreign key resolves: license -> attendance, reprogramming -> license. */
  ghost predicate References(t: Tables) {
    && (forall l :: l in t.licencias ==> t.licencias[l].asistenciaId in t.asistencias)
    && (forall x :: x in t.reprogramaciones ==> t.reprogramaciones[x].licenciaId in t.licencias)
  }

  /** Deleting the attendances `gone`: the `ON DELETE CASCADE` keys remove
      their licenses and, in turn, those licenses' reprogrammings. */
  function Cascade(t: Tables, gone: set<Id>): (r: Tables)
    ensures r.asistencias.Keys == t.asistencias.Keys - gone
    ensures forall a :: a in r.asistencias ==> r.asistencias[a] == t.asistencias[a]
    ensures forall l :: l in r.licencias <==> l in t.licencias && t.licencias[l].asistenciaId !in gone
    ensures forall l :: l in r.licencias ==> r.licencias[l] == t.licencias[l]
    ensures forall x :: x in r.reprogramaciones <==>
              x in t.reprogramaciones && t.reprogramaciones[x].licenciaId in r.licencias
    ensures forall x :: x in r.reprogramaciones ==> r.reprogramaciones[x] == t.reprogramaciones[x]
    ensures References(t) ==> References(r)
    ensures r.licencias.Keys <= t.licencias.Keys && r.reprogramaciones.Keys <= t.reprogramaciones.Keys
  {
    var ls := map l | l in t.licencias && t.licencias[l].asistenciaId !in gone :: t.licencias[l];
    Tables(
      map a | a in t.asistencias && a !in gone :: t.asistencias[a],
      ls,
      map x | x in t.reprogramaciones && t.reprogramaciones[x].licenciaId in ls :: t.reprogramaciones[x])
  }

  /** `Asistencia::actualizar`: each of fecha/estado/observaciones that is set
      replaces the stored value; nothing is validated. */
  function PatchAsistencia(a: Asistencia, d: AsistenciaData): Asistencia {
    a.(fecha := d.fecha.GetOr(a.fecha),
       estado := d.estado.GetOr(a.estado),
       observaciones := if d.observaciones.Some? then d.observaciones else a.observaciones)
  }

  /** `Reprogramacion::actualizar` after the enum check. */
  function PatchReprogramacion(x: Reprogramacion, d: ReprogramacionData): Reprogramacion
    requires d.estado.Some? ==> ReprogrammingStateNamed(d.estado.value).Some?
  {
    x.(fechaOriginal := d.fechaOriginal.GetOr(x.fechaOriginal),
       fechaNueva := d.fechaNueva.GetOr(x.fechaNueva),
       estado := if d.estado.Some? then ReprogrammingStateNamed(d.estado.value).value else x.estado,
       observaciones := if d.observaciones.Some? then d.observaciones else x.observaciones)
  }

  /** The outcome of `Licencia::aprobar` / `rechazar` on a stored license:
      only a pending license moves, and only to `target`. */
  function Decide(l: Licencia, target: LicenseState): (r: Result<Licencia>)
    ensures r.Ok? <==> l.estado == Pendiente
    ensures r.Ok? ==> r.value == l.(estado := target)
    ensures r.Err? ==> r.error == NotPending
  {
    if l.estado == Pendiente then Ok(l.(estado := target)) else Err(NotPending)
  }

  /** A license can never be decided twice: after a successful approval or
      rejection, both `aprobar` and `rechazar` fail. */
  lemma DecisionIsFinal(l: Licencia, first: LicenseState, second: LicenseState)
    requires first != Pendiente
    requires Decide(l, first).Ok?
    ensures Decide(Decide(l, first).value, second) == Err(NotPending)
  {
  }

  class Registry {
    var asistencias: map<Id, Asistencia>
    var licencias: map<Id, Licencia>
    var reprogramaciones: map<Id, Reprogramacion>
    // the next value of each table's id sequence
    var nextAsistencia: Id
    var nextLicencia: Id
    var nextReprogramacion: Id

    function State(): Tables
      reads this
    {
      Tables(asistencias, licencias, reprogramaciones)
    }

    /** What the database guarantees about the three tables. */
    ghost predicate Valid()
      reads this
    {
      && (forall i :: i in asistencias ==> i < nextAsistencia)
      && (forall i :: i in licencias ==> i < nextLicencia)
      && (forall i :: i in reprogramaciones ==> i < nextReprogramacion)
      && UniqueDays(asistencias)
      && OneLicensePerAttendance(licencias)
      && References(State())
    }

    constructor ()
      ensures Valid()
      ensures asistencias == map[] && licencias == map[] && reprogramaciones == map[]
    {
      asistencias, licencias, reprogramaciones := map[], map[], map[];
      nextAsistencia, nextLicencia, nextReprogramacion := 0, 0, 0;
    }

    /** `Asistencia::crear`. */
    method CrearAsistencia(d: AsistenciaData, inscripciones: set<Id>) returns (r: Result<Id>)
      requires Valid()
      modifies this
      ensures Valid()
      ensures !AsistenciaValid(d, inscripciones) ==> r == Err(Invalid)
      ensures AsistenciaValid(d, inscripciones) && DayTaken(old(asistencias), d.inscripcionId.value, d.fecha.value, None)
              ==> r == Err(AlreadyExists)
      ensures r.Ok? <==>
                AsistenciaValid(d, inscripciones) && !DayTaken(old(asistencias), d.inscripcionId.value, d.fecha.value, None)
      ensures r.Err? ==> unchanged(this)
      ensures r.Ok? ==>
                && r.value !in old(asistencias)
                && asistencias == old(asistencias)[r.value := Asistencia(d.inscripcionId.value, d.fecha.value, d.estado.value, d.observaciones)]
                && licencias == old(licencias) && reprogramaciones == old(reprogramaciones)
    {
      if !AsistenciaValid(d, inscripciones) {
        return Err(Invalid);
      }
      if DayTaken(asistencias, d.inscripcionId.value, d.fecha.value, None) {
        return Err(AlreadyExists);
      }
      var id := nextAsistencia;
      asistencias := asistencias[id := Asistencia(d.inscripcionId.value, d.fecha.value, d.estado.value, d.observaciones)];
      nextAsistencia := nextAsistencia + 1;
      r := Ok(id);
    }

    /** `Asistencia::actualizar`. A new date that collides with another
        attendance of the same enrolment is refused by the unique key. */
    method ActualizarAsistencia(id: Id, d: AsistenciaData) returns (r: Result<Id>)
      requires Valid()
      modifies this
      ensures Valid()
      ensures id !in old(asistencias) ==> r == Err(NotFound)
      ensures r.Ok? <==>
                id in old(asistencias) &&
                var a := PatchAsistencia(old(asistencias)[id], d);
                !DayTaken(old(asistencias), a.inscripcionId, a.fecha, Some(id))
      ensures r.Err? ==> unchanged(this)
      ensures r.Ok? ==>
                && r.value == id
                && asistencias == old(asistencias)[id := PatchAsistencia(old(asistencias)[id], d)]
                && licencias == old(licencias) && reprogramaciones == old(reprogramaciones)
                && nextAsistencia == old(nextAsistencia)
    {
      if id !in asistencias {
        return Err(NotFound);
      }
      var a := PatchAsistencia(asistencias[id], d);
      if DayTaken(asistencias, a.inscripcionId, a.fecha, Some(id)) {
        return Err(ConstraintViolation);
      }
      asistencias := asistencias[id := a];
      r := Ok(id);
    }

    /** `Asistencia::eliminar`: no guard; the cascade removes its license and
        that license's reprogrammings. */
    method EliminarAsistencia(id: Id) returns (r: Result<Id>)
      requires Valid()
      modifies this
      ensures Valid()
      ensures r.Ok? <==> id in old(asistencias)
      ensures r.Err? ==> r.error == NotFound && unchanged(this)
      ensures r.Ok? ==> State() == Cascade(old(State()), {id})
      ensures nextAsistencia == old(nextAsistencia) && nextLicencia == old(nextLicencia)
      ensures nextReprogramacion == old(nextReprogramacion)
    {
      if id !in asistencias {
        return Err(NotFound);
      }
      Purge({id});
      r := Ok(id);
    }

    /** The database side of deleting attendances (also reached from the
        deletion of their enrolment). */
    method Purge(gone: set<Id>)
      requires Valid()
      modifies this
      ensures Valid()
      ensures State() == Cascade(old(State()), gone)
      ensures nextAsistencia == old(nextAsistencia) && nextLicencia == old(nextLicencia)
      ensures nextReprogramacion == old(nextReprogramacion)
    {
      var t := Cascade(State(), gone);
      asistencias, licencias, reprogramaciones := t.asistencias, t.licencias, t.reprogramaciones;
    }

    /** `Licencia::crear`. `now` is the clock reading stored as fecha_solicitud. */
    method CrearLicencia(d: LicenciaData, now: nat) returns (r: Result<Id>)
      requires Valid()
      modifies this
      ensures Valid()
      ensures !LicenciaValid(d, old(asistencias).Keys) ==> r == Err(Invalid)
      ensures LicenciaValid(d, old(asistencias).Keys) ==>
                && (old(asistencias)[d.asistenciaId.value].estado != "ausente" ==> r == Err(NotAbsent))
                && (old(asistencias)[d.asistenciaId.value].estado == "ausente" && Licensed(old(licencias), d.asistenciaId.value)
                    ==> r == Err(AlreadyLicensed))
      ensures r.Ok? <==>
                && LicenciaValid(d, old(asistencias).Keys)
                && old(asistencias)[d.asistenciaId.value].estado == "ausente"
                && !Licensed(old(licencias), d.asistenciaId.value)
      ensures r.Err? ==> unchanged(this)
      ensures r.Ok? ==>
                && r.value !in old(licencias)
                && licencias == old(licencias)[r.value := Licencia(
                     d.asistenciaId.value, d.motivo.value,
                     if d.estado.Some? then LicenseStateNamed(d.estado.value).value else Pendiente, now)]
                && asistencias == old(asistencias) && reprogramaciones == old(reprogramaciones)
    {
      if !LicenciaValid(d, asistencias.Keys) {
        return Err(Invalid);
      }
      var a := asistencias[d.asistenciaId.value];
      if a.estado != "ausente" {
        return Err(NotAbsent);
      }
      if Licensed(licencias, d.asistenciaId.value) {
        return Err(AlreadyLicensed);
      }
      var estado := if d.estado.Some? then LicenseStateNamed(d.estado.value).value else Pendiente;
      var id := nextLicencia;
      licencias := licencias[id := Licencia(d.asistenciaId.value, d.motivo.value, estado, now)];
      nextLicencia := nextLicencia + 1;
      r := Ok(id);
    }

    /** `Licencia::actualizar`: motivo and estado when set, with no transition
        check; only the enum CHECK constraint can refuse the state. */
    method ActualizarLicencia(id: Id, d: LicenciaData) returns (r: Result<Id>)
      requires Valid()
      modifies this
      ensures Valid()
      ensures id !in old(licencias) ==> r == Err(NotFound)
      ensures r.Ok? <==> id in old(licencias) && (d.estado.Some? ==> LicenseStateNamed(d.estado.value).Some?)
      ensures r.Err? ==> unchanged(this)
      ensures r.Ok? ==>
                && r.value == id
                && licencias == old(licencias)[id := old(licencias)[id].(
                     motivo := d.motivo.GetOr(old(licencias)[id].motivo),
                     estado := if d.estado.Some? then LicenseStateNamed(d.estado.value).value else old(licencias)[id].estado)]
                && asistencias == old(asistencias) && reprogramaciones == old(reprogramaciones)
                && nextLicencia == old(nextLicencia)
    {
      if id !in licencias {
        return Err(NotFound);
      }
      if d.estado.Some? && LicenseStateNamed(d.estado.value).None? {
        return Err(ConstraintViolation);
      }
      var l := licencias[id];
      var estado := if d.estado.Some? then LicenseStateNamed(d.estado.value).value else l.estado;
      licencias := licencias[id := l.(motivo := d.motivo.GetOr(l.motivo), estado := estado)];
      r := Ok(id);
    }

    /** `Licencia::eliminar`: refused while a reprogramming points at it. */
    method EliminarLicencia(id: Id) returns (r: Result<Id>)
      requires Valid()
      modifies this
      ensures Valid()
      ensures id !in old(licencias) ==> r == Err(NotFound)
      ensures id in old(licencias) && Reprogrammed(old(reprogramaciones), id) ==> r == Err(HasReprogrammings)
      ensures r.Ok? <==> id in old(licencias) && !Reprogrammed(old(reprogramaciones), id)
      ensures r.Err? ==> unchanged(this)
      ensures r.Ok? ==>
                && licencias == old(licencias) - {id}
                && asistencias == old(asistencias) && reprogramaciones == old(reprogramaciones)
                && nextLicencia == old(nextLicencia)
    {
      if id !in licencias {
        return Err(NotFound);
      }
      if Reprogrammed(reprogramaciones, id) {
        return Err(HasReprogrammings);
      }
      licencias := licencias - {id};
      r := Ok(id);
    }

    /** `Licencia::aprobar` (target Aprobada) and `Licencia::rechazar`
        (target Rechazada). */
    method Decidir(id: Id, target: LicenseState) returns (r: Result<Id>)
      requires Valid()
      requires target != Pendiente
      modifies this
      ensures Valid()
      ensures id !in old(licencias) ==> r == Err(NotFound)
      ensures id in old(licencias) ==> r.Ok? == Decide(old(licencias)[id], target).Ok?
      ensures r.Err? ==> unchanged(this)
      ensures r.Ok? ==>
                && r.value == id
                && licencias == old(licencias)[id := Decide(old(licencias)[id], target).value]
                && asistencias == old(asistencias) && reprogramaciones == old(reprogramaciones)
                && nextLicencia == old(nextLicencia)
    {
      if id !in licencias {
        return Err(NotFound);
      }
      var decided := Decide(licencias[id], target);
      if decided.Err? {
        return Err(decided.error);
      }
      licencias := licencias[id := decided.value];
      r := Ok(id);
    }

    /** `Reprogramacion::crear`: only the validator guards it. */
    method CrearReprogramacion(d: ReprogramacionData) returns (r: Result<Id>)
      requires Valid()
      modifies this
      ensures Valid()
      ensures r.Ok? <==> ReprogramacionValid(d, old(licencias).Keys)
      ensures r.Err? ==> r.error == Invalid && unchanged(this)
      ensures r.Ok? ==>
                && r.value !in old(reprogramaciones)
                && reprogramaciones == old(reprogramaciones)[r.value := Reprogramacion(
                     d.licenciaId.value, d.fechaOriginal.value, d.fechaNueva.value,
                     if d.estado.Some? then ReprogrammingStateNamed(d.estado.value).value else Programada,
                     d.observaciones)]
                && asistencias == old(asistencias) && licencias == old(licencias)
    {
      if !ReprogramacionValid(d, licencias.Keys) {
        return Err(Invalid);
      }
      var estado := if d.estado.Some? then ReprogrammingStateNamed(d.estado.value).value else Programada;
      var id := nextReprogramacion;
      reprogramaciones := reprogramaciones[id := Reprogramacion(
        d.licenciaId.value, d.fechaOriginal.value, d.fechaNueva.value, estado, d.observaciones)];
      nextReprogramacion := nextReprogramacion + 1;
      r := Ok(id);
    }

    /** `Reprogramacion::actualizar`. */
    method ActualizarReprogramacion(id: Id, d: ReprogramacionData) returns (r: Result<Id>)
      requires Valid()
      modifies this
      ensures Valid()
      ensures id !in old(reprogramaciones) ==> r == Err(NotFound)
      ensures r.Ok? <==>
                id in old(reprogramaciones) && (d.estado.Some? ==> ReprogrammingStateNamed(d.estado.value).Some?)
      ensures r.Err? ==> unchanged(this)
      ensures r.Ok? ==>
                && r.value == id
                && reprogramaciones == old(reprogramaciones)[id := PatchReprogramacion(old(reprogramaciones)[id], d)]
                && asistencias == old(asistencias) && licencias == old(licencias)
                && nextReprogramacion == old(nextReprogramacion)
    {
      if id !in reprogramaciones {
        return Err(NotFound);
      }
      if d.estado.Some? && ReprogrammingStateNamed(d.estado.value).None? {
        return Err(ConstraintViolation);
      }
      reprogramaciones := reprogramaciones[id := PatchReprogramacion(reprogramaciones[id], d)];
      r := Ok(id);
    }

    /** `Reprogramacion::eliminar`: whatever its state. */
    method EliminarReprogramacion(id: Id) returns (r: Result<Id>)
      requires Valid()
      modifies this
      ensures Valid()
      ensures r.Ok? <==> id in old(reprogramaciones)
      ensures r.Err? ==> r.error == NotFound && unchanged(this)
      ensures r.Ok? ==>
                && reprogramaciones == old(reprogramaciones) - {id}
                && asistencias == old(asistencias) && licencias == old(licencias)
                && nextReprogramacion == old(nextReprogramacion)
    {
      if id !in reprogramaciones {
        return Err(NotFound);
      }
      reprogramaciones := reprogramaciones - {id};
      r := Ok(id);
    }

    /** `marcarRealizada` (target Realizada) and `cancelar` (target
        Cancelada): an unconditional `UPDATE ... WHERE id`, returning the
        number of rows it matched. */
    method SetEstado(id: Id, target: ReprogrammingState) returns (affected: nat)
      requires Valid()
      modifies this
      ensures Valid()
      ensures affected == if id in old(reprogramaciones) then 1 else 0
      ensures reprogramaciones ==
                if id in old(reprogramaciones)
                then old(reprogramaciones)[id := old(reprogramaciones)[id].(estado := target)]
                else old(reprogramaciones)
      ensures asistencias == old(asistencias) && licencias == old(licencias)
      ensures nextReprogramacion == old(nextReprogramacion)
    {
      if id in reprogramaciones {
        reprogramaciones := reprogramaciones[id := reprogramaciones[id].(estado := target)];
        affected := 1;
      } else {
        affected := 0;
      }
    }
  }

}
