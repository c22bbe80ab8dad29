/** Enrolments (`inscripcion`): a student in a service with a tutor. Creating
    one can also open its sale in the same transaction; deleting one
    cascades to its attendance records (and on to their licenses and
    reprogrammings), its sales (and their payments) and its class reports. */
module Enrolment {
  import opened Common
  import Attendance
  import Sales
  import Ledger
  import ClassReport

  const EnrolmentStates: set<string> := {"activo", "retirado", "finalizado"}

  /** The rows of the tables an enrolment refers to, which are outside this
      model. */
  datatype Directory = Directory(servicios: set<Id>, alumnos: set<Id>, tutores: set<Id>, propietarios: set<Id>)

  /** A row of `inscripcion`. */
  datatype Inscripcion = Inscripcion(
    servicioId: Id, alumnoId: Id, tutorId: Id, fechaInscripcion: Date, estado: string, observaciones: Option<string>)

  /** The fields `Inscripcion::crear` and `actualizar` read, including the
      optional sale. */
  datatype InscripcionData = InscripcionData(
    servicioId: Option<Id>, alumnoId: Option<Id>, tutorId: Option<Id>,
    fechaInscripcion: Option<Date>, estado: Option<string>, observaciones: Option<string>,
    crearVenta: Option<bool>, propietarioId: Option<Id>, tipoVenta: Option<string>,
    montoTotal: Option<Cents>, montoPagado: Option<Cents>, mesCorrespondiente: Option<string>,
    fechaVenta: Option<Date>, fechaVencimiento: Option<Date>)

  /** `Inscripcion::validar`. */
  predicate InscripcionValid(d: InscripcionData, dir: Directory) {
    && d.servicioId.Some? && d.servicioId.value in dir.servicios
    && d.alumnoId.Some? && d.alumnoId.value in dir.alumnos
    && d.tutorId.Some? && d.tutorId.value in dir.tutores
    && (d.estado.Some? ==> d.estado.value in EnrolmentStates)
  }

  /** The enrolment row `crear` inserts: today and `activo` by default. */
  function NewInscripcion(d: InscripcionData, today: Date): (e: Inscripcion)
    requires d.servicioId.Some? && d.alumnoId.Some? && d.tutorId.Some?
    ensures e.fechaInscripcion == d.fechaInscripcion.GetOr(today) && e.estado == d.estado.GetOr("activo")
  {
    Inscripcion(d.servicioId.value, d.alumnoId.value, d.tutorId.value,
                d.fechaInscripcion.GetOr(today), d.estado.GetOr("activo"), d.observaciones)
  }

  /** The request `crear` passes to `Venta::crear` for the new enrolment:
      `contado` and zero amounts by default, the pending balance derived
      from the two amounts, and the current month's label. */
  function SaleRequest(d: InscripcionData, inscripcionId: Id, today: Date, monthLabel: string): (v: Ledger.VentaData)
    ensures Ledger.VentaComplete(v)
    ensures v.tipoVenta == Some(d.tipoVenta.GetOr("contado")) && v.estado.None?
    ensures v.montoTotal == Some(d.montoTotal.GetOr(0)) && v.montoPagado == Some(d.montoPagado.GetOr(0))
    ensures v.saldoPendiente == Some(v.montoTotal.value - v.montoPagado.value)
  {
    Ledger.VentaData(
      Some(inscripcionId), d.propietarioId, Some(d.tipoVenta.GetOr("contado")),
      Some(d.montoTotal.GetOr(0)), Some(d.montoPagado.GetOr(0)),
      Some(d.montoTotal.GetOr(0) - d.montoPagado.GetOr(0)),
      Some(d.mesCorrespondiente.GetOr(monthLabel)), Some(d.fechaVenta.GetOr(today)),
      d.fechaVencimiento, None)
  }

  /** `Inscripcion::actualizar`: each supplied field replaces the stored one. */
  function Patch(e: Inscripcion, d: InscripcionData): Inscripcion {
    Inscripcion(d.servicioId.GetOr(e.servicioId), d.alumnoId.GetOr(e.alumnoId), d.tutorId.GetOr(e.tutorId),
                d.fechaInscripcion.GetOr(e.fechaInscripcion), d.estado.GetOr(e.estado),
                if d.observaciones.Some? then d.observaciones else e.observaciones)
  }

  /** The foreign keys an update supplies resolve; the database checks only
      the columns the `UPDATE` writes. */
  predicate SuppliedKeysResolve(d: InscripcionData, dir: Directory) {
    && (d.servicioId.Some? ==> d.servicioId.value in dir.servicios)
    && (d.alumnoId.Some? ==> d.alumnoId.value in dir.alumnos)
    && (d.tutorId.Some? ==> d.tutorId.value in dir.tutores)
  }

  class Enrolments {
    var inscripciones: map<Id, Inscripcion>
    var nextInscripcion: Id

    ghost predicate Valid()
      reads this
    {
      forall k :: k in inscripciones ==> k < nextInscripcion
    }

    constructor ()
      ensures Valid() && inscripciones == map[]
    {
      inscripciones, nextInscripcion := map[], 0;
    }

    /** Every attendance, sale and class report belongs to an existing
        enrolment. */
    ghost predicate Consistent(registry: Attendance.Registry, ledger: Ledger.Ledger, book: ClassReport.ReportBook)
      reads this, registry, ledger, book
    {
      && (forall a :: a in registry.asistencias ==> registry.asistencias[a].inscripcionId in inscripciones)
      && SalesBelong(ledger)
      && book.BelongsTo(inscripciones.Keys)
    }

    /** Every sale belongs to an existing enrolment. */
    ghost predicate SalesBelong(ledger: Ledger.Ledger)
      reads this, ledger
    {
      forall v :: v in ledger.ventas ==> ledger.ventas[v].inscripcionId in inscripciones
    }

    /** `Inscripcion::crear`: validate, then in one transaction insert the
        enrolment and, when `crear_venta` is true, its sale. If the sale is
        refused both are rolled back (the enrolment and sale sequences keep
        their advance, as sequences are not transactional). */
    method Crear(d: InscripcionData, dir: Directory, ledger: Ledger.Ledger, today: Date, monthLabel: string)
      returns (r: Result<Id>)
      requires Valid() && ledger.Valid()
      modifies this, ledger
      ensures Valid() && ledger.Valid()
      ensures old(SalesBelong(ledger)) ==> SalesBelong(ledger)
      ensures !InscripcionValid(d, dir) ==> r == Err(Invalid)
      ensures r.Ok? <==>
                InscripcionValid(d, dir)
                && (d.crearVenta == Some(true) && d.propietarioId.Some? ==> d.propietarioId.value in dir.propietarios)
      ensures r.Err? ==> inscripciones == old(inscripciones)
      ensures r.Err? ==> ledger.State() == old(ledger.State()).(nextVenta := ledger.nextVenta)
      ensures r.Err? ==> ledger.nextVenta == old(ledger.nextVenta) + (if InscripcionValid(d, dir) then 1 else 0)
      ensures r.Ok? ==> r.value !in old(inscripciones) && inscripciones == old(inscripciones)[r.value := NewInscripcion(d, today)]
      ensures r.Ok? && d.crearVenta != Some(true) ==> ledger.State() == old(ledger.State())
      ensures r.Ok? && d.crearVenta == Some(true) ==>
                ledger.State() == old(ledger.State()).(
                  ventas := old(ledger.ventas)[old(ledger.nextVenta) := Ledger.VentaRow(SaleRequest(d, r.value, today, monthLabel), today)],
                  nextVenta := old(ledger.nextVenta) + 1)
    {
      if !InscripcionValid(d, dir) {
        return Err(Invalid);
      }
      var id := nextInscripcion;
      inscripciones := inscripciones[id := NewInscripcion(d, today)];
      nextInscripcion := nextInscripcion + 1;
      if d.crearVenta == Some(true) {
        var sale := ledger.CrearVenta(SaleRequest(d, id, today, monthLabel), inscripciones.Keys, dir.propietarios, today);
        if sale.Err? {
          inscripciones := inscripciones - {id};
          assert inscripciones == old(inscripciones);
          return Err(sale.error);
        }
      }
      r := Ok(id);
    }

    /** `Inscripcion::actualizar`: nothing is validated; only the foreign
        keys of the new values can refuse the update. */
    method Actualizar(id: Id, d: InscripcionData, dir: Directory) returns (r: Result<Id>)
      requires Valid()
      modifies this
      ensures Valid()
      ensures id !in old(inscripciones) ==> r == Err(NotFound)
      ensures r.Ok? <==> id in old(inscripciones) && SuppliedKeysResolve(d, dir)
      ensures r.Err? ==> inscripciones == old(inscripciones)
      ensures r.Ok? ==> inscripciones == old(inscripciones)[id := Patch(old(inscripciones)[id], d)]
      ensures inscripciones.Keys == old(inscripciones).Keys && nextInscripcion == old(nextInscripcion)
    {
      if id !in inscripciones {
        return Err(NotFound);
      }
      var e := Patch(inscripciones[id], d);
      if !SuppliedKeysResolve(d, dir) {
        return Err(ConstraintViolation);
      }
      inscripciones := inscripciones[id := e];
      r := Ok(id);
    }

    /** `Inscripcion::eliminar`: the row goes, and the foreign keys cascade
        through every table that refers to it. */
    method Eliminar(id: Id, registry: Attendance.Registry, ledger: Ledger.Ledger, book: ClassReport.ReportBook)
      returns (r: Result<Id>)
      requires Valid() && registry.Valid() && ledger.Valid() && book.Valid()
      requires Consistent(registry, ledger, book)
      modifies this, registry, ledger, book
      ensures Valid() && registry.Valid() && ledger.Valid() && book.Valid()
      ensures Consistent(registry, ledger, book)
      ensures r.Ok? <==> id in old(inscripciones)
      ensures r.Err? ==> r.error == NotFound && inscripciones == old(inscripciones)
      ensures r.Err? ==> registry.State() == old(registry.State()) && ledger.State() == old(ledger.State())
      ensures r.Err? ==> book.informes == old(book.informes)
      ensures book.nextInforme == old(book.nextInforme)
      ensures r.Ok? ==>
                && inscripciones == old(inscripciones) - {id}
                && registry.State() == Attendance.Cascade(old(registry.State()),
                     set a | a in old(registry.asistencias) && old(registry.asistencias)[a].inscripcionId == id)
                && ledger.State() == Ledger.DropEnrolment(old(ledger.State()), id)
                && book.informes == map k | k in old(book.informes)
                     && ClassReport.Get(old(book.informes)[k], "inscripcion_id") != ClassReport.Int(id) :: old(book.informes)[k]
    {
      if id !in inscripciones {
        return Err(NotFound);
      }
      var gone := set a | a in registry.asistencias && registry.asistencias[a].inscripcionId == id;
      inscripciones := inscripciones - {id};
      registry.Purge(gone);
      assert forall a :: a in registry.asistencias ==> registry.asistencias[a].inscripcionId in inscripciones;
      ledger.PurgeEnrolment(id);
      assert SalesBelong(ledger);
      book.PurgeEnrolment(id, old(inscripciones).Keys);
      assert inscripciones.Keys == old(inscripciones).Keys - {id};
      r := Ok(id);
    }
  }
}
