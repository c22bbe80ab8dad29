/** Weekly schedules (`horario`) and their assignment to tutors
    (`tutor_horario`, a set of (tutor_id, horario_id) pairs with that pair as
    primary key). Schedules are never deleted: `eliminar` marks them
    `inactivo`. */
module Schedule {
  import opened Common
  import opened Ordering

  const HorarioStates: set<string> := {"activo", "inactivo"}

  /** A minute of the day, as `H:i` text denotes it. */
  type Minute = m: nat | m < 1440

  /** Laravel `date_format:H:i`: the text must print back identically, so it
      is exactly two hour digits below 24, a colon and two minute digits
      below 60. */
  function ParseHm(s: string): Option<Minute> {
    if |s| == 5 && IsDigit(s[0]) && IsDigit(s[1]) && s[2] == ':' && IsDigit(s[3]) && IsDigit(s[4]) then
      var h := DigitValue(s[0]) * 10 + DigitValue(s[1]);
      var m := DigitValue(s[3]) * 10 + DigitValue(s[4]);
      if h < 24 && m < 60 then Some(h * 60 + m) else None
    else None
  }

  /** PHP `date('H:i')` of a minute of the day. */
  function FormatHm(t: Minute): (s: string)
    ensures |s| == 5 && s[2] == ':'
  {
    var h := t / 60;
    var m := t % 60;
    [DigitChar(h / 10), DigitChar(h % 10), ':', DigitChar(m / 10), DigitChar(m % 10)]
  }

  /** Printing a minute and reading it back gives the same minute. */
  lemma FormatThenParse(t: Minute)
    ensures ParseHm(FormatHm(t)) == Some(t)
  {
    var s := FormatHm(t);
    var h, m := t / 60, t % 60;
    assert DigitValue(s[0]) == h / 10 && DigitValue(s[1]) == h % 10;
    assert DigitValue(s[3]) == m / 10 && DigitValue(s[4]) == m % 10;
    assert h / 10 * 10 + h % 10 == h;
    assert m / 10 * 10 + m % 10 == m;
  }

  /** Every text `date_format:H:i` accepts is the printing of its minute. */
  lemma ParseThenFormat(s: string)
    requires ParseHm(s).Some?
    ensures FormatHm(ParseHm(s).value) == s
  {
    var h := DigitValue(s[0]) * 10 + DigitValue(s[1]);
    var m := DigitValue(s[3]) * 10 + DigitValue(s[4]);
    var t := h * 60 + m;
    assert t / 60 == h && t % 60 == m;
    assert h / 10 == DigitValue(s[0]) && h % 10 == DigitValue(s[1]);
    assert m / 10 == DigitValue(s[3]) && m % 10 == DigitValue(s[4]);
    var f := FormatHm(t);
    assert f[0] == s[0] && f[1] == s[1] && f[3] == s[3] && f[4] == s[4];
  }

  /** On `H:i` texts, the text order the listing sorts by is the order of
      the times. */
  lemma HmTextOrder(a: string, b: string)
    requires ParseHm(a).Some? && ParseHm(b).Some?
    ensures StrLe(a, b) <==> ParseHm(a).value <= ParseHm(b).value
  {
    var ha, hb := DigitValue(a[0]) * 10 + DigitValue(a[1]), DigitValue(b[0]) * 10 + DigitValue(b[1]);
    var ma, mb := DigitValue(a[3]) * 10 + DigitValue(a[4]), DigitValue(b[3]) * 10 + DigitValue(b[4]);
    assert ParseHm(a).value == ha * 60 + ma && ParseHm(b).value == hb * 60 + mb;
    if a[0] != b[0] {
      assert StrLe(a, b) == (a[0] < b[0]);
    } else if a[1] != b[1] {
      assert StrLe(a, b) == StrLe(a[1..], b[1..]);
      assert StrLe(a, b) == (a[1] < b[1]);
    } else {
      assert ha == hb;
      assert StrLe(a, b) == StrLe(a[1..], b[1..]) == StrLe(a[2..], b[2..]) == StrLe(a[3..], b[3..]);
      assert a[3..][1..] == a[4..] && b[3..][1..] == b[4..];
      if a[3] != b[3] {
        assert StrLe(a, b) == (a[3] < b[3]);
      } else {
        assert StrLe(a, b) == StrLe(a[4..], b[4..]);
        assert a[4..][1..] == [] && b[4..][1..] == [];
        if a[4] != b[4] {
          assert StrLe(a, b) == (a[4] < b[4]);
        } else {
          assert StrLe(a, b) == StrLe(a[4..][1..], b[4..][1..]);
        }
      }
    }
  }

  /** A row of `horario`. The times are kept as the text written to them. */
  datatype Horario = Horario(diaSemana: string, horaInicio: string, horaFin: string, estado: string)

  /** The fields `crear` and `actualizar` read. */
  datatype HorarioData = HorarioData(
    diaSemana: Option<string>, horaInicio: Option<string>, horaFin: Option<string>, estado: Option<string>)

  /** `Horario::validar`: a day name of at most 20 characters, two `H:i`
      times with the end strictly after the start, and an optional state. */
  predicate HorarioValid(d: HorarioData) {
    && RequiredText(d.diaSemana) && |d.diaSemana.value| <= 20
    && d.horaInicio.Some? && ParseHm(d.horaInicio.value).Some?
    && d.horaFin.Some? && ParseHm(d.horaFin.value).Some?
    && ParseHm(d.horaInicio.value).value < ParseHm(d.horaFin.value).value
    && (d.estado.Some? ==> d.estado.value in HorarioStates)
  }

  /** The times of a row are well formed and the end is after the start. */
  predicate WellOrdered(h: Horario) {
    && ParseHm(h.horaInicio).Some? && ParseHm(h.horaFin).Some?
    && ParseHm(h.horaInicio).value < ParseHm(h.horaFin).value
  }

  /** The row `crear` inserts: `activo` unless a state is given. */
  function NewHorario(d: HorarioData): (h: Horario)
    requires HorarioValid(d)
    ensures WellOrdered(h) && h.estado in HorarioStates
    ensures h.estado == d.estado.GetOr("activo")
  {
    Horario(d.diaSemana.value, d.horaInicio.value, d.horaFin.value, d.estado.GetOr("activo"))
  }

  /** `Horario::actualizar`: each field that is set replaces the stored one. */
  function PatchHorario(h: Horario, d: HorarioData): Horario {
    Horario(d.diaSemana.GetOr(h.diaSemana), d.horaInicio.GetOr(h.horaInicio),
            d.horaFin.GetOr(h.horaFin), d.estado.GetOr(h.estado))
  }

  /** `actualizar` does not validate again: moving the end before the start
      of a well-ordered schedule is accepted. */
  lemma UpdateCanUnorderTimes()
    ensures var h := Horario("lunes", "08:00", "09:00", "activo");
            var d := HorarioData(None, None, Some("07:00"), None);
            WellOrdered(h) && !WellOrdered(PatchHorario(h, d))
  {
    var h := Horario("lunes", "08:00", "09:00", "activo");
    var p := PatchHorario(h, HorarioData(None, None, Some("07:00"), None));
    assert ParseHm(h.horaInicio) == Some(480);
    assert ParseHm(h.horaFin) == Some(540);
    assert ParseHm(p.horaFin) == Some(420);
  }

  /** `eliminar`: the row stays, marked `inactivo`. */
  function SoftDelete(horarios: map<Id, Horario>, id: Id): (r: map<Id, Horario>)
    requires id in horarios
    ensures r.Keys == horarios.Keys && r[id].estado == "inactivo"
    ensures r[id] == horarios[id].(estado := "inactivo")
    ensures forall k :: k in r && k != id ==> r[k] == horarios[k]
  {
    horarios[id := horarios[id].(estado := "inactivo")]
  }

  // ----- listing -----

  /** The filters `listar` reads. */
  datatype HorarioFiltros = HorarioFiltros(
    mostrarInactivos: Option<bool>, diaSemana: Option<string>, estado: Option<string>, search: Option<string>)

  /** ASCII lower case (what `ILIKE` folds for the day names). */
  function LowerChar(c: char): char {
    if 'A' <= c <= 'Z' then (c as int + 32) as char else c
  }

  function Lower(s: string): (r: string)
    ensures |r| == |s| && forall i :: 0 <= i < |s| ==> r[i] == LowerChar(s[i])
  {
    if s == [] then [] else [LowerChar(s[0])] + Lower(s[1..])
  }

  /** `dia_semana ILIKE '%search%'`. */
  predicate ILike(s: string, search: string) {
    Contains(Lower(s), Lower(search))
  }

  /** The `WHERE` of `listar`: only `activo` rows unless `mostrar_inactivos`
      is true, then each filter that is set. */
  predicate Matches(f: HorarioFiltros, h: Horario) {
    && (f.mostrarInactivos != Some(true) ==> h.estado == "activo")
    && (f.diaSemana.Some? ==> h.diaSemana == f.diaSemana.value)
    && (f.estado.Some? ==> h.estado == f.estado.value)
    && (f.search.Some? ==> ILike(h.diaSemana, f.search.value))
  }

  /** `ORDER BY dia_semana, hora_inicio`. */
  predicate DayThenStart(a: (Id, Horario), b: (Id, Horario)) {
    if a.1.diaSemana != b.1.diaSemana then StrLe(a.1.diaSemana, b.1.diaSemana)
    else StrLe(a.1.horaInicio, b.1.horaInicio)
  }

  lemma DayThenStartIsTotal()
    ensures TotalPreorder(DayThenStart)
  {
    forall a: (Id, Horario), b: (Id, Horario)
      ensures DayThenStart(a, b) || DayThenStart(b, a)
    {
      StrLeTotal(a.1.diaSemana, b.1.diaSemana);
      StrLeTotal(a.1.horaInicio, b.1.horaInicio);
    }
    forall a: (Id, Horario), b: (Id, Horario), c: (Id, Horario) | DayThenStart(a, b) && DayThenStart(b, c)
      ensures DayThenStart(a, c)
    {
      var da, db, dc := a.1.diaSemana, b.1.diaSemana, c.1.diaSemana;
      if da == db && db == dc {
        StrLeTransitive(a.1.horaInicio, b.1.horaInicio, c.1.horaInicio);
      } else if da == db {
      } else if db == dc {
      } else {
        StrLeTransitive(da, db, dc);
        if da == dc {
          StrLeAntisymmetric(da, db);
        }
      }
    }
  }

  /** The rows among the first `n` ids that `listar` returns. */
  ghost function Selected(horarios: map<Id, Horario>, f: HorarioFiltros, n: nat): set<(Id, Horario)> {
    set k | k in horarios && k < n && Matches(f, horarios[k]) :: (k, horarios[k])
  }

  /** Id `n - 1` adds its row to the selection when it matches, and
      nothing otherwise. */
  lemma SelectedStep(horarios: map<Id, Horario>, f: HorarioFiltros, n: nat)
    requires n > 0
    ensures var k := n - 1;
            multiset(Selected(horarios, f, n))
            == if k in horarios && Matches(f, horarios[k])
               then multiset(Selected(horarios, f, n - 1)) + multiset{(k, horarios[k])}
               else multiset(Selected(horarios, f, n - 1))
  {
    var k := n - 1;
    assert forall p :: p in Selected(horarios, f, n - 1) ==> p.0 < k;
    if k in horarios && Matches(f, horarios[k]) {
      assert Selected(horarios, f, n) == Selected(horarios, f, n - 1) + {(k, horarios[k])};
    } else {
      assert Selected(horarios, f, n) == Selected(horarios, f, n - 1);
    }
  }

  /** `Horario::listar` over the ids below `n`: exactly the matching rows,
      ordered by day and start time. */
  function Listing(horarios: map<Id, Horario>, f: HorarioFiltros, n: nat): (r: seq<(Id, Horario)>)
    ensures SortedBy(r, DayThenStart)
  {
    if n == 0 then []
    else
      var r := Listing(horarios, f, n - 1);
      var k := n - 1;
      if k in horarios && Matches(f, horarios[k]) then
        var row: (Id, Horario) := (k, horarios[k]);
        DayThenStartIsTotal();
        InsertSorted<(Id, Horario)>(r, row, DayThenStart)
      else
        r
  }

  /** The listing holds each selected row exactly once. */
  lemma {:induction false} ListingSelects(horarios: map<Id, Horario>, f: HorarioFiltros, n: nat)
    ensures multiset(Listing(horarios, f, n)) == multiset(Selected(horarios, f, n))
  {
    if n > 0 {
      ListingSelects(horarios, f, n - 1);
      SelectedStep(horarios, f, n);
      DayThenStartIsTotal();
    }
  }

  /** A deleted schedule is still stored but no longer listed, unless
      inactive schedules are asked for. */
  lemma DeletedIsHiddenByDefault(horarios: map<Id, Horario>, id: Id, f: HorarioFiltros, n: nat)
    requires id in horarios && f.mostrarInactivos != Some(true)
    ensures id in SoftDelete(horarios, id)
    ensures forall p :: p in Listing(SoftDelete(horarios, id), f, n) ==> p.0 != id
  {
    var hs := SoftDelete(horarios, id);
    ListingSelects(hs, f, n);
    forall p | p in Listing(hs, f, n)
      ensures p.0 != id
    {
      assert p in multiset(Listing(hs, f, n));
      assert p in Selected(hs, f, n);
    }
  }

  // ----- tutor assignment -----

  /** `asignarATutor` as it is meant to work: the schedule and the tutor
      must exist and the pair must be new; then exactly that pair is added. */
  function Assign(pairs: set<(Id, Id)>, horarios: set<Id>, tutores: set<Id>, horarioId: Id, tutorId: Id): (r: Result<set<(Id, Id)>>)
    ensures r.Ok? <==> horarioId in horarios && tutorId in tutores && (tutorId, horarioId) !in pairs
    ensures r.Ok? ==> r.value == pairs + {(tutorId, horarioId)} && |r.value| == |pairs| + 1
    ensures r.Err? && horarioId in horarios && tutorId in tutores ==> r.error == AlreadyAssigned
  {
    if horarioId !in horarios then Err(NotFound)
    else if tutorId !in tutores then Err(NotFound)
    else if (tutorId, horarioId) in pairs then Err(AlreadyAssigned)
    else Ok(pairs + {(tutorId, horarioId)})
  }

  /** `asignarATutor` as written: it calls `Tutor::obtenerPorIdSimple`,
      which the `Tutor` model does not define, before any check. */
  function AssignAsWritten(pairs: set<(Id, Id)>, horarios: set<Id>, tutores: set<Id>, horarioId: Id, tutorId: Id): (r: Result<set<(Id, Id)>>)
    ensures r.Err?
  {
    Err(UndefinedMethod)
  }

  /** The two differ on every assignment that should succeed. */
  lemma AssignAsWrittenNeverAssigns(pairs: set<(Id, Id)>, horarios: set<Id>, tutores: set<Id>, horarioId: Id, tutorId: Id)
    requires horarioId in horarios && tutorId in tutores && (tutorId, horarioId) !in pairs
    ensures Assign(pairs, horarios, tutores, horarioId, tutorId) == Ok(pairs + {(tutorId, horarioId)})
    ensures AssignAsWritten(pairs, horarios, tutores, horarioId, tutorId) == Err(UndefinedMethod)
  {
  }

  /** `desasignarDeTutor`: the pair is deleted, or the call fails when no
      row was deleted. */
  function Unassign(pairs: set<(Id, Id)>, horarioId: Id, tutorId: Id): (r: Result<set<(Id, Id)>>)
    ensures r.Ok? <==> (tutorId, horarioId) in pairs
    ensures r.Ok? ==> r.value == pairs - {(tutorId, horarioId)} && |r.value| == |pairs| - 1
    ensures r.Err? ==> r.error == AssignmentNotFound
  {
    if (tutorId, horarioId) in pairs then Ok(pairs - {(tutorId, horarioId)}) else Err(AssignmentNotFound)
  }

  /** Assigning and then unassigning the same pair restores the pairs. */
  lemma AssignThenUnassign(pairs: set<(Id, Id)>, horarios: set<Id>, tutores: set<Id>, horarioId: Id, tutorId: Id)
    requires Assign(pairs, horarios, tutores, horarioId, tutorId).Ok?
    ensures Unassign(Assign(pairs, horarios, tutores, horarioId, tutorId).value, horarioId, tutorId) == Ok(pairs)
  {
    assert pairs + {(tutorId, horarioId)} - {(tutorId, horarioId)} == pairs;
  }

  /** Unassigning and then assigning an existing pair restores the pairs. */
  lemma UnassignThenAssign(pairs: set<(Id, Id)>, horarios: set<Id>, tutores: set<Id>, horarioId: Id, tutorId: Id)
    requires Unassign(pairs, horarioId, tutorId).Ok? && horarioId in horarios && tutorId in tutores
    ensures Assign(Unassign(pairs, horarioId, tutorId).value, horarios, tutores, horarioId, tutorId) == Ok(pairs)
  {
    assert pairs - {(tutorId, horarioId)} + {(tutorId, horarioId)} == pairs;
  }

  class Timetable {
    var horarios: map<Id, Horario>
    var nextHorario: Id
    /** The rows of `tutor_horario`, as (tutor_id, horario_id). */
    var asignaciones: set<(Id, Id)>

    /** Ids below the sequence, and every pair names a stored schedule. */
    ghost predicate Valid()
      reads this
    {
      && (forall k :: k in horarios ==> k < nextHorario)
      && (forall p :: p in asignaciones ==> p.1 in horarios)
    }

    constructor ()
      ensures Valid() && horarios == map[] && asignaciones == {}
    {
      horarios, nextHorario, asignaciones := map[], 0, {};
    }

    /** `Horario::crear`. */
    method Crear(d: HorarioData) returns (r: Result<Id>)
      requires Valid()
      modifies this
      ensures Valid() && asignaciones == old(asignaciones)
      ensures r.Ok? <==> HorarioValid(d)
      ensures r.Err? ==> r.error == Invalid && horarios == old(horarios)
      ensures r.Ok? ==> r.value !in old(horarios) && horarios == old(horarios)[r.value := NewHorario(d)]
    {
      if !HorarioValid(d) {
        return Err(Invalid);
      }
      var id := nextHorario;
      horarios := horarios[id := NewHorario(d)];
      nextHorario := nextHorario + 1;
      r := Ok(id);
    }

    /** `Horario::actualizar`. */
    method Actualizar(id: Id, d: HorarioData) returns (r: Result<Id>)
      requires Valid()
      modifies this
      ensures Valid() && asignaciones == old(asignaciones) && nextHorario == old(nextHorario)
      ensures r.Ok? <==> id in old(horarios)
      ensures r.Err? ==> r.error == NotFound && horarios == old(horarios)
      ensures r.Ok? ==> horarios == old(horarios)[id := PatchHorario(old(horarios)[id], d)]
    {
      if id !in horarios {
        return Err(NotFound);
      }
      horarios := horarios[id := PatchHorario(horarios[id], d)];
      r := Ok(id);
    }

    /** `Horario::eliminar`: a soft delete. */
    method Eliminar(id: Id) returns (r: Result<Id>)
      requires Valid()
      modifies this
      ensures Valid() && asignaciones == old(asignaciones) && nextHorario == old(nextHorario)
      ensures r.Ok? <==> id in old(horarios)
      ensures r.Err? ==> r.error == NotFound && horarios == old(horarios)
      ensures r.Ok? ==> horarios == SoftDelete(old(horarios), id)
    {
      if id !in horarios {
        return Err(NotFound);
      }
      horarios := SoftDelete(horarios, id);
      r := Ok(id);
    }

    /** `Horario::cambiarEstado`: the new state is checked, then the
        number of updated rows is returned. */
    method CambiarEstado(id: Id, nuevoEstado: string) returns (r: Result<nat>)
      requires Valid()
      modifies this
      ensures Valid() && asignaciones == old(asignaciones) && nextHorario == old(nextHorario)
      ensures r.Ok? <==> nuevoEstado in HorarioStates
      ensures r.Err? ==> r.error == InvalidState && horarios == old(horarios)
      ensures r.Ok? ==> r.value == (if id in old(horarios) then 1 else 0)
      ensures r.Ok? && id in old(horarios) ==> horarios == old(horarios)[id := old(horarios)[id].(estado := nuevoEstado)]
      ensures r.Ok? && id !in old(horarios) ==> horarios == old(horarios)
    {
      if nuevoEstado !in HorarioStates {
        return Err(InvalidState);
      }
      if id in horarios {
        horarios := horarios[id := horarios[id].(estado := nuevoEstado)];
        r := Ok(1);
      } else {
        r := Ok(0);
      }
    }

    /** `Horario::listar`. */
    function Listar(f: HorarioFiltros): (r: seq<(Id, Horario)>)
      reads this
      requires Valid()
      ensures SortedBy(r, DayThenStart)
      ensures forall p :: p in r <==> p.0 in horarios && p.1 == horarios[p.0] && Matches(f, p.1)
      ensures multiset(r) == multiset(set k | k in horarios && Matches(f, horarios[k]) :: (k, horarios[k]))
    {
      var r := Listing(horarios, f, nextHorario);
      ListingSelects(horarios, f, nextHorario);
      assert Selected(horarios, f, nextHorario) == set k | k in horarios && Matches(f, horarios[k]) :: (k, horarios[k]);
      assert forall p :: p in r <==> p in multiset(r);
      assert forall p :: p in Selected(horarios, f, nextHorario) <==> p.0 in horarios && p.1 == horarios[p.0] && Matches(f, p.1);
      r
    }

    /** `Horario::asignarATutor` with the tutor looked up in `tutores`. */
    method AsignarATutor(horarioId: Id, tutorId: Id, tutores: set<Id>) returns (r: Result<Id>)
      requires Valid()
      modifies this
      ensures Valid() && horarios == old(horarios) && nextHorario == old(nextHorario)
      ensures var a := Assign(old(asignaciones), old(horarios).Keys, tutores, horarioId, tutorId);
              (r.Ok? <==> a.Ok?) && (a.Ok? ==> asignaciones == a.value) && (a.Err? ==> r == Err(a.error) && asignaciones == old(asignaciones))
    {
      var a := Assign(asignaciones, horarios.Keys, tutores, horarioId, tutorId);
      if a.Err? {
        return Err(a.error);
      }
      asignaciones := a.value;
      r := Ok(horarioId);
    }

    /** `Horario::desasignarDeTutor`. */
    method DesasignarDeTutor(horarioId: Id, tutorId: Id) returns (r: Result<Id>)
      requires Valid()
      modifies this
      ensures Valid() && horarios == old(horarios) && nextHorario == old(nextHorario)
      ensures var a := Unassign(old(asignaciones), horarioId, tutorId);
              (r.Ok? <==> a.Ok?) && (a.Ok? ==> asignaciones == a.value) && (a.Err? ==> r == Err(a.error) && asignaciones == old(asignaciones))
    {
      var a := Unassign(asignaciones, horarioId, tutorId);
      if a.Err? {
        return Err(a.error);
      }
      asignaciones := a.value;
      r := Ok(horarioId);
    }
  }
}
