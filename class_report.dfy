/** Class reports (`informe_clase`): what a tutor records after each class
    of an enrolment. A row is kept as the column map the model writes,
    because `actualizar` copies a whitelist of request keys into the update
    one key at a time. */
module ClassReport {
  import opened Common

  /** A request or column value. `Decimal` is in hundredths. */
  datatype Value = Null | Text(s: string) | Int(i: int) | Decimal(hundredths: int) | Day(d: Date)

  /** A request array, or a row: column name to value. */
  type Fields = map<string, Value>

  /** The columns `actualizar` may write (its `$campos`), which are also the
      columns `crear` fills. */
  const Campos: seq<string> := [
    "inscripcion_id", "fecha", "temas_vistos", "tareas_asignadas",
    "nivel_comprension", "participacion", "cumplimiento_tareas",
    "calificacion", "resumen", "logros", "dificultades",
    "recomendaciones", "observaciones", "estado"]

  const NivelesComprension: set<string> := {"excelente", "bueno", "regular", "necesita_refuerzo"}
  const Participaciones: set<string> := {"alta", "media", "baja"}
  const Cumplimientos: set<string> := {"completo", "parcial", "no_cumplido"}
  const Estados: set<string> := {"realizada", "cancelada", "reprogramada"}

  /** PHP `isset($datos[k])`: present and not null. */
  predicate IsSet(d: Fields, k: string) {
    k in d && d[k] != Null
  }

  /** PHP `$datos[k] ?? null`. */
  function Get(d: Fields, k: string): Value {
    if k in d then d[k] else Null
  }

  predicate NullableText(v: Value) {
    v == Null || v.Text?
  }

  predicate NullableIn(v: Value, allowed: set<string>) {
    v == Null || (v.Text? && v.s in allowed)
  }

  /** `nullable|numeric|min:0|max:100`. */
  predicate NullableGrade(v: Value) {
    || v == Null
    || (v.Int? && 0 <= v.i <= 100)
    || (v.Decimal? && 0 <= v.hundredths <= 10000)
  }

  /** The enrolment a value names, if it is an existing one. */
  predicate NamesEnrolment(v: Value, inscripciones: set<Id>) {
    v.Int? && v.i >= 0 && v.i as nat in inscripciones
  }

  /** `InformeClase::validar`. */
  predicate InformeValid(d: Fields, inscripciones: set<Id>) {
    && NamesEnrolment(Get(d, "inscripcion_id"), inscripciones)
    && Get(d, "fecha").Day?
    && Get(d, "temas_vistos").Text? && !IsPhpBlank(Get(d, "temas_vistos").s)
    && NullableText(Get(d, "tareas_asignadas"))
    && NullableIn(Get(d, "nivel_comprension"), NivelesComprension)
    && NullableIn(Get(d, "participacion"), Participaciones)
    && NullableIn(Get(d, "cumplimiento_tareas"), Cumplimientos)
    && NullableGrade(Get(d, "calificacion"))
    && NullableText(Get(d, "resumen")) && NullableText(Get(d, "logros"))
    && NullableText(Get(d, "dificultades")) && NullableText(Get(d, "recomendaciones"))
    && NullableText(Get(d, "observaciones"))
    && NullableIn(Get(d, "estado"), Estados)
  }

  /** The row `crear` inserts: every column from the request, null when
      absent, and `estado` defaulting to `realizada`. */
  function NewRow(d: Fields): (row: Fields)
    ensures row.Keys == set k | k in Campos
    ensures row["estado"] == if IsSet(d, "estado") then d["estado"] else Text("realizada")
    ensures forall k :: k in Campos && k != "estado" ==> row[k] == Get(d, k)
  {
    map k | k in Campos :: if k == "estado" && !IsSet(d, "estado") then Text("realizada") else Get(d, k)
  }

  /** The update `actualizar` builds: the whitelisted keys that are set. */
  function Whitelisted(d: Fields): (u: Fields)
    ensures forall k :: k in u <==> k in Campos && IsSet(d, k)
    ensures forall k :: k in u ==> k in d && u[k] == d[k]
  {
    map k | k in Campos && IsSet(d, k) :: d[k]
  }

  /** The unique key (inscripcion_id, fecha) of two rows coincides. */
  predicate SameClass(a: Fields, b: Fields) {
    "inscripcion_id" in a && "fecha" in a && "inscripcion_id" in b && "fecha" in b
    && a["inscripcion_id"] == b["inscripcion_id"] && a["fecha"] == b["fecha"]
  }

  /** A report's enrolment column holds an id. */
  predicate EnrolmentColumn(row: Fields) {
    Get(row, "inscripcion_id").Int? && Get(row, "inscripcion_id").i >= 0
  }

  /** The report table: ids below the sequence, every row has exactly the
      columns, its enrolment column is an id, and (inscripcion_id, fecha) is
      unique. */
  ghost predicate WellFormed(informes: map<Id, Fields>, next: Id) {
    && (forall k :: k in informes ==> k < next)
    && (forall k :: k in informes ==> informes[k].Keys == (set c | c in Campos))
    && (forall k :: k in informes ==> EnrolmentColumn(informes[k]))
    && (forall i, j :: i in informes && j in informes && SameClass(informes[i], informes[j]) ==> i == j)
  }

  /** Storing a row with the table's columns, an enrolment id and a class no
      other row holds keeps the table well formed. */
  lemma StoreKeepsWellFormed(informes: map<Id, Fields>, next: Id, id: Id, row: Fields, next2: Id)
    requires WellFormed(informes, next) && next <= next2 && id < next2
    requires row.Keys == (set c | c in Campos) && EnrolmentColumn(row)
    requires forall k :: k in informes && k != id ==> !SameClass(informes[k], row)
    ensures WellFormed(informes[id := row], next2)
  {
    var t := informes[id := row];
    forall i, j | i in t && j in t && SameClass(t[i], t[j])
      ensures i == j
    {
      if i != id && j != id {
        assert SameClass(informes[i], informes[j]);
      } else if i == id && j != id {
        assert SameClass(informes[j], row);
      }
    }
  }

  class ReportBook {
    var informes: map<Id, Fields>
    var nextInforme: Id

    /** Ids below the sequence, every row has exactly the columns, its
        enrolment column is an id, and (inscripcion_id, fecha) is unique. */
    ghost predicate Valid()
      reads this
    {
      WellFormed(informes, nextInforme)
    }

    /** Every report belongs to one of `inscripciones`. */
    ghost predicate BelongsTo(inscripciones: set<Id>)
      reads this
    {
      forall k :: k in informes ==> NamesEnrolment(Get(informes[k], "inscripcion_id"), inscripciones)
    }

    constructor ()
      ensures Valid() && informes == map[]
    {
      informes, nextInforme := map[], 0;
    }

    /** Another report already uses the row's (inscripcion_id, fecha). */
    predicate Collides(row: Fields, except: Option<Id>)
      reads this
    {
      exists k | k in informes :: Some(k) != except && SameClass(informes[k], row)
    }

    /** `InformeClase::crear`. The unique key is left to the database, which
        refuses a collision after the next id was drawn from the sequence. */
    method Crear(d: Fields, inscripciones: set<Id>) returns (r: Result<Id>)
      requires Valid()
      modifies this
      ensures Valid()
      ensures !InformeValid(d, inscripciones) ==> r == Err(Invalid)
      ensures r.Ok? <==> InformeValid(d, inscripciones) && !old(Collides(NewRow(d), None))
      ensures r.Err? ==> informes == old(informes)
      ensures r.Err? ==> nextInforme == old(nextInforme) + (if InformeValid(d, inscripciones) then 1 else 0)
      ensures r.Ok? ==> r.value !in old(informes) && informes == old(informes)[r.value := NewRow(d)]
      ensures old(BelongsTo(inscripciones)) ==> BelongsTo(inscripciones)
    {
      if !InformeValid(d, inscripciones) {
        return Err(Invalid);
      }
      var row := NewRow(d);
      if Collides(row, None) {
        nextInforme := nextInforme + 1;
        return Err(ConstraintViolation);
      }
      assert Get(row, "inscripcion_id") == Get(d, "inscripcion_id");
      StoreKeepsWellFormed(informes, nextInforme, nextInforme, row, nextInforme + 1);
      var id := nextInforme;
      informes := informes[id := row];
      nextInforme := nextInforme + 1;
      r := Ok(id);
    }

    /** The loop of `actualizar` over `$campos`, collecting the keys that
        are set. */
    static method BuildUpdate(d: Fields) returns (update: Fields)
      ensures update == Whitelisted(d)
    {
      update := map[];
      var i := 0;
      while i < |Campos|
        invariant 0 <= i <= |Campos|
        invariant update == map k | k in Campos[..i] && IsSet(d, k) :: d[k]
      {
        var campo := Campos[i];
        if IsSet(d, campo) {
          update := update[campo := d[campo]];
        }
        assert Campos[..i + 1] == Campos[..i] + [campo];
        i := i + 1;
      }
      assert Campos[..i] == Campos;
    }

    /** `InformeClase::actualizar`: copy each whitelisted key that is set;
        nothing is validated, and only the foreign and unique keys of the
        table can refuse the result. */
    method Actualizar(id: Id, d: Fields, inscripciones: set<Id>) returns (r: Result<Id>)
      requires Valid()
      modifies this
      ensures Valid()
      ensures id !in old(informes) ==> r == Err(NotFound)
      ensures r.Ok? <==>
                && id in old(informes)
                && var row := old(informes)[id] + Whitelisted(d);
                   (Whitelisted(d) != map[] ==> NamesEnrolment(Get(row, "inscripcion_id"), inscripciones) && !old(Collides(row, Some(id))))
      ensures r.Err? ==> informes == old(informes)
      ensures r.Ok? ==> informes == old(informes)[id := old(informes)[id] + Whitelisted(d)]
      ensures nextInforme == old(nextInforme)
      ensures old(BelongsTo(inscripciones)) ==> BelongsTo(inscripciones)
    {
      if id !in informes {
        return Err(NotFound);
      }
      var update := BuildUpdate(d);
      if update != map[] {
        var row := informes[id] + update;
        assert row.Keys == informes[id].Keys;
        if !NamesEnrolment(Get(row, "inscripcion_id"), inscripciones) || Collides(row, Some(id)) {
          return Err(ConstraintViolation);
        }
        StoreKeepsWellFormed(informes, nextInforme, id, row, nextInforme);
        informes := informes[id := row];
      } else {
        assert informes[id] + update == informes[id];
      }
      r := Ok(id);
    }

    /** `InformeClase::eliminar`. */
    method Eliminar(id: Id) returns (r: Result<Id>)
      requires Valid()
      modifies this
      ensures Valid()
      ensures r.Ok? <==> id in old(informes)
      ensures r.Err? ==> r.error == NotFound && informes == old(informes)
      ensures r.Ok? ==> informes == old(informes) - {id}
      ensures nextInforme == old(nextInforme)
    {
      if id !in informes {
        return Err(NotFound);
      }
      informes := informes - {id};
      r := Ok(id);
    }

    /** The cascade of deleting an enrolment: its reports go with it. */
    method PurgeEnrolment(inscripcionId: Id, ghost inscripciones: set<Id>)
      requires Valid()
      modifies this
      ensures Valid()
      ensures old(BelongsTo(inscripciones)) ==> BelongsTo(inscripciones - {inscripcionId})
      ensures informes == map k | k in old(informes) && Get(old(informes)[k], "inscripcion_id") != Int(inscripcionId) :: old(informes)[k]
      ensures nextInforme == old(nextInforme)
    {
      informes := map k | k in informes && Get(informes[k], "inscripcion_id") != Int(inscripcionId) :: informes[k];
    }
  }

  /** An update changes only whitelisted columns that the request sets;
      every other column keeps its value. */
  lemma UpdateTouchesOnlySetFields(row: Fields, d: Fields)
    ensures forall k :: k in row && !(k in Campos && IsSet(d, k)) ==> (row + Whitelisted(d))[k] == row[k]
    ensures forall k :: k in Campos && IsSet(d, k) ==> (row + Whitelisted(d))[k] == d[k]
  {
  }
}
