/** The sale/payment ledger as values: the `venta` and `pago` rows, the two
    balance-recompute routines (one in the payment model, one in the payment
    controller), the payment transitions they follow, the filtered and sorted
    sale listing, and the per-state sale report. The `Ledger` class applies
    these to its tables. */
module Sales {
  import opened Common
  import opened Ordering

  /** A row of `venta`. Amounts are cents. */
  datatype Venta = Venta(
    inscripcionId: Id, propietarioId: Option<Id>, tipoVenta: string,
    montoTotal: Cents, montoPagado: Cents, saldoPendiente: Cents,
    mesCorrespondiente: string, fechaVenta: Date, fechaVencimiento: Option<Date>,
    estado: string)

  /** A row of `pago`, with the `estado` column the code reads and writes. */
  datatype Pago = Pago(
    ventaId: Id, monto: Cents, fechaPago: nat, metodoPago: Option<string>,
    observaciones: Option<string>, estado: string, registradoPor: Option<Id>,
    pagofacilTransactionId: Option<string>, companyTransactionId: Option<string>)

  /** Which payments a recompute adds up: `Pago::actualizarSaldoVenta` counts
      `metodo_pago LIKE '%Completado%'`, `PagoController::actualizarSaldosVenta`
      counts `estado = 'pagado'`. */
  datatype SumRule = MetodoCompletado | EstadoPagado

  predicate Counts(rule: SumRule, p: Pago) {
    match rule
    case MetodoCompletado => p.metodoPago.Some? && Contains(p.metodoPago.value, "Completado")
    case EstadoPagado => p.estado == "pagado"
  }

  /** `SUM(monto)` over the payments of the sale with an id below `n` that
      the rule counts. */
  function Collected(pagos: map<Id, Pago>, ventaId: Id, rule: SumRule, n: nat): Cents {
    if n == 0 then 0
    else
      Collected(pagos, ventaId, rule, n - 1)
      + (if n - 1 in pagos && pagos[n - 1].ventaId == ventaId && Counts(rule, pagos[n - 1])
         then pagos[n - 1].monto else 0)
  }

  /** Two payment tables that agree below `n` have the same sums below `n`. */
  lemma {:induction false} CollectedAgree(a: map<Id, Pago>, b: map<Id, Pago>, ventaId: Id, rule: SumRule, n: nat)
    requires forall k :: k < n ==> (k in a <==> k in b)
    requires forall k :: k < n && k in a ==> a[k] == b[k]
    ensures Collected(a, ventaId, rule, n) == Collected(b, ventaId, rule, n)
  {
    if n > 0 {
      CollectedAgree(a, b, ventaId, rule, n - 1);
    }
  }

  /** Ids at or above every key add nothing. */
  lemma {:induction false} CollectedBeyond(pagos: map<Id, Pago>, ventaId: Id, rule: SumRule, n: nat, m: nat)
    requires n <= m
    requires forall k :: k in pagos ==> k < n
    ensures Collected(pagos, ventaId, rule, m) == Collected(pagos, ventaId, rule, n)
  {
    if n < m {
      CollectedBeyond(pagos, ventaId, rule, n, m - 1);
    }
  }

  /** Replacing one payment changes the sum by exactly its own contribution. */
  lemma {:induction false} CollectedUpdate(pagos: map<Id, Pago>, ventaId: Id, rule: SumRule, n: nat, id: Id, p: Pago)
    requires id in pagos && id < n
    ensures Collected(pagos[id := p], ventaId, rule, n)
            == Collected(pagos, ventaId, rule, n)
               - (if pagos[id].ventaId == ventaId && Counts(rule, pagos[id]) then pagos[id].monto else 0)
               + (if p.ventaId == ventaId && Counts(rule, p) then p.monto else 0)
  {
    if id < n - 1 {
      CollectedUpdate(pagos, ventaId, rule, n - 1, id, p);
    } else {
      CollectedAgree(pagos[id := p], pagos, ventaId, rule, n - 1);
    }
  }

  /** The `venta` write of `Pago::actualizarSaldoVenta` for a paid sum. */
  function SettleByMethod(v: Venta, paid: Cents): (r: Venta)
    ensures r.(montoPagado := v.montoPagado, saldoPendiente := v.saldoPendiente, estado := v.estado) == v
    ensures r.montoPagado == paid
    ensures r.saldoPendiente >= 0
    ensures paid <= v.montoTotal ==> r.montoPagado + r.saldoPendiente == v.montoTotal
    ensures paid >= v.montoTotal ==> r.saldoPendiente == 0
    ensures r.estado == "pagado" <==> paid >= v.montoTotal
    ensures r.estado == "pendiente" <==> paid < v.montoTotal
  {
    var saldo := v.montoTotal - paid;
    v.(montoPagado := paid,
       saldoPendiente := if saldo > 0 then saldo else 0,
       estado := if saldo <= 0 then "pagado" else "pendiente")
  }

  /** The `venta` write of `PagoController::actualizarSaldosVenta`. */
  function SettleByState(v: Venta, paid: Cents): (r: Venta)
    ensures r.(montoPagado := v.montoPagado, saldoPendiente := v.saldoPendiente, estado := v.estado) == v
    ensures r.montoPagado == paid
    ensures r.saldoPendiente >= 0
    ensures paid <= v.montoTotal ==> r.montoPagado + r.saldoPendiente == v.montoTotal
    ensures paid >= v.montoTotal ==> r.saldoPendiente == 0
    ensures r.estado == "pagado" <==> paid >= v.montoTotal
    ensures r.estado == "parcial" <==> 0 < paid < v.montoTotal
    ensures r.estado == "pendiente" <==> paid <= 0 && paid < v.montoTotal
  {
    var saldo := v.montoTotal - paid;
    var estado := if saldo <= 0 then "pagado" else if paid > 0 then "parcial" else "pendiente";
    v.(montoPagado := paid, saldoPendiente := if saldo <= 0 then 0 else saldo, estado := estado)
  }

  function Settle(rule: SumRule, v: Venta, paid: Cents): Venta {
    match rule
    case MetodoCompletado => SettleByMethod(v, paid)
    case EstadoPagado => SettleByState(v, paid)
  }

  /** For the same paid sum the two routines write the same amounts; their
      states differ exactly when the sale is partly paid. */
  lemma SettleRulesCompared(v: Venta, paid: Cents)
    ensures SettleByMethod(v, paid).(estado := "") == SettleByState(v, paid).(estado := "")
    ensures SettleByMethod(v, paid).estado != SettleByState(v, paid).estado <==> 0 < paid < v.montoTotal
  {
  }

  /** Both tables with their id sequences. */
  datatype LedgerState = LedgerState(ventas: map<Id, Venta>, pagos: map<Id, Pago>, nextVenta: Id, nextPago: Id)

  /** The sum a recompute of the sale reads. */
  function Paid(s: LedgerState, ventaId: Id, rule: SumRule): Cents {
    Collected(s.pagos, ventaId, rule, s.nextPago)
  }

  /** A recompute of one sale: reads its payments, rewrites that sale alone,
      and does nothing when the sale does not exist. */
  function Recompute(s: LedgerState, ventaId: Id, rule: SumRule): (r: LedgerState)
    ensures r.pagos == s.pagos && r.nextVenta == s.nextVenta && r.nextPago == s.nextPago
    ensures r.ventas.Keys == s.ventas.Keys
    ensures forall k :: k in s.ventas && k != ventaId ==> r.ventas[k] == s.ventas[k]
    ensures ventaId !in s.ventas ==> r == s
    ensures ventaId in s.ventas ==>
              && r.ventas[ventaId].montoPagado == Paid(s, ventaId, rule)
              && r.ventas[ventaId].saldoPendiente >= 0
              && (Paid(s, ventaId, rule) <= r.ventas[ventaId].montoTotal ==>
                    r.ventas[ventaId].montoPagado + r.ventas[ventaId].saldoPendiente == r.ventas[ventaId].montoTotal)
  {
    if ventaId in s.ventas then
      s.(ventas := s.ventas[ventaId := Settle(rule, s.ventas[ventaId], Paid(s, ventaId, rule))])
    else s
  }

  /** Recomputing is idempotent: the result depends only on the payments,
      which a recompute does not touch. */
  lemma RecomputeIdempotent(s: LedgerState, ventaId: Id, rule: SumRule)
    ensures Recompute(Recompute(s, ventaId, rule), ventaId, rule) == Recompute(s, ventaId, rule)
  {
  }

  /** A new payment row stored under the next id. */
  function InsertPago(s: LedgerState, p: Pago): LedgerState {
    s.(pagos := s.pagos[s.nextPago := p], nextPago := s.nextPago + 1)
  }

  /** The callback's write on a confirmed payment. */
  function Confirmed(p: Pago, observaciones: string): (r: Pago)
    ensures Counts(EstadoPagado, r)
    ensures r.ventaId == p.ventaId && r.monto == p.monto
  {
    p.(estado := "pagado", metodoPago := Some("QR"), observaciones := Some(observaciones))
  }

  /** `actualizarEstadoPago(..., 'Completado')`'s write on the payment. */
  function Completed(p: Pago): (r: Pago)
    ensures Counts(MetodoCompletado, r)
    ensures r.ventaId == p.ventaId && r.monto == p.monto && r.estado == p.estado
  {
    var m := "QR PagoFácil - Completado";
    assert OccursAt(m, "Completado", 15);
    p.(metodoPago := Some(m))
  }

  /** One payment replaced, then its sale recomputed under `rule`. */
  function Transition(s: LedgerState, pagoId: Id, p: Pago, rule: SumRule): LedgerState
    requires pagoId in s.pagos
  {
    Recompute(s.(pagos := s.pagos[pagoId := p]), p.ventaId, rule)
  }

  /** The callback with `Estado === 2` on the payment `pagoId`. */
  function Confirm(s: LedgerState, pagoId: Id, observaciones: string): (r: LedgerState)
    requires pagoId in s.pagos
    ensures r.pagos.Keys == s.pagos.Keys && Counts(EstadoPagado, r.pagos[pagoId])
    ensures r.pagos[pagoId].ventaId == s.pagos[pagoId].ventaId && r.pagos[pagoId].monto == s.pagos[pagoId].monto
    ensures forall k :: k in s.pagos && k != pagoId ==> r.pagos[k] == s.pagos[k]
    ensures r.ventas.Keys == s.ventas.Keys && r.nextVenta == s.nextVenta && r.nextPago == s.nextPago
    ensures forall k :: k in s.ventas && k != s.pagos[pagoId].ventaId ==> r.ventas[k] == s.ventas[k]
  {
    Transition(s, pagoId, Confirmed(s.pagos[pagoId], observaciones), EstadoPagado)
  }

  /** `actualizarEstadoPago(..., 'Completado')` on the payment `pagoId`. */
  function Complete(s: LedgerState, pagoId: Id): (r: LedgerState)
    requires pagoId in s.pagos
    ensures r.pagos.Keys == s.pagos.Keys && Counts(MetodoCompletado, r.pagos[pagoId])
    ensures r.pagos[pagoId].ventaId == s.pagos[pagoId].ventaId && r.pagos[pagoId].monto == s.pagos[pagoId].monto
    ensures r.pagos[pagoId].estado == s.pagos[pagoId].estado
    ensures forall k :: k in s.pagos && k != pagoId ==> r.pagos[k] == s.pagos[k]
    ensures r.ventas.Keys == s.ventas.Keys && r.nextVenta == s.nextVenta && r.nextPago == s.nextPago
    ensures forall k :: k in s.ventas && k != s.pagos[pagoId].ventaId ==> r.ventas[k] == s.ventas[k]
  {
    Transition(s, pagoId, Completed(s.pagos[pagoId]), MetodoCompletado)
  }

  /** Delivering the same confirmation twice leaves the state of the first. */
  lemma ConfirmIdempotent(s: LedgerState, pagoId: Id, observaciones: string)
    requires pagoId in s.pagos
    ensures pagoId in Confirm(s, pagoId, observaciones).pagos
    ensures Confirm(Confirm(s, pagoId, observaciones), pagoId, observaciones) == Confirm(s, pagoId, observaciones)
  {
    var t := Confirm(s, pagoId, observaciones);
    var p := Confirmed(s.pagos[pagoId], observaciones);
    assert t.pagos == s.pagos[pagoId := p];
    assert Confirmed(t.pagos[pagoId], observaciones) == p;
    assert t.pagos[pagoId := p] == t.pagos;
    assert t.(pagos := t.pagos) == t;
    RecomputeIdempotent(s.(pagos := s.pagos[pagoId := p]), p.ventaId, EstadoPagado);
  }

  /** Querying a completed payment again leaves the state of the first query. */
  lemma CompleteIdempotent(s: LedgerState, pagoId: Id)
    requires pagoId in s.pagos
    ensures pagoId in Complete(s, pagoId).pagos
    ensures Complete(Complete(s, pagoId), pagoId) == Complete(s, pagoId)
  {
    var t := Complete(s, pagoId);
    var p := Completed(s.pagos[pagoId]);
    assert t.pagos == s.pagos[pagoId := p];
    assert Completed(t.pagos[pagoId]) == p;
    assert t.pagos[pagoId := p] == t.pagos;
    assert t.(pagos := t.pagos) == t;
    RecomputeIdempotent(s.(pagos := s.pagos[pagoId := p]), p.ventaId, MetodoCompletado);
  }

  /** The two confirmation paths are each invisible to the other path's
      recompute: a payment confirmed by the callback (`metodo_pago = 'QR'`)
      is not counted by `Pago::actualizarSaldoVenta`, and one completed by a
      status query keeps its `estado`, so the controller's recompute skips it
      unless it was already `pagado`. */
  lemma ConfirmationPathsDiverge(p: Pago, observaciones: string)
    ensures !Counts(MetodoCompletado, Confirmed(p, observaciones))
    ensures Counts(EstadoPagado, Completed(p)) <==> Counts(EstadoPagado, p)
  {
    assert |"QR"| < |"Completado"|;
  }

  /** A sale fully paid through the callback returns to `pendiente` as soon
      as another payment is recorded with `Pago::crear`, because that
      recompute counts neither the callback's payment nor the new cash one. */
  lemma RecordedPaymentReopensSale()
    ensures
      var venta := Venta(0, None, "contado", 10000, 0, 10000, "March 2025", 0, None, "pendiente");
      var qr := Pago(0, 10000, 0, Some("QR PagoFácil"), None, "pendiente", None, Some("t-1"), Some("grupo16sa-00001"));
      var s0 := LedgerState(map[0 := venta], map[0 := qr], 1, 1);
      var s1 := Confirm(s0, 0, "Pago completado");
      var cash := Pago(0, 500, 1, Some("efectivo"), None, "pagado", None, None, None);
      var s2 := Recompute(InsertPago(s1, cash), 0, MetodoCompletado);
      && s1.ventas[0].estado == "pagado" && s1.ventas[0].saldoPendiente == 0
      && s2.ventas[0].estado == "pendiente" && s2.ventas[0].saldoPendiente == 10000
  {
    var venta := Venta(0, None, "contado", 10000, 0, 10000, "March 2025", 0, None, "pendiente");
    var qr := Pago(0, 10000, 0, Some("QR PagoFácil"), None, "pendiente", None, Some("t-1"), Some("grupo16sa-00001"));
    var s0 := LedgerState(map[0 := venta], map[0 := qr], 1, 1);
    var s1 := Confirm(s0, 0, "Pago completado");
    var confirmed := s0.pagos[0 := Confirmed(qr, "Pago completado")];
    assert Collected(confirmed, 0, EstadoPagado, 0) == 0;
    assert Collected(confirmed, 0, EstadoPagado, 1) == 10000;
    var cash := Pago(0, 500, 1, Some("efectivo"), None, "pagado", None, None, None);
    var s2 := Recompute(InsertPago(s1, cash), 0, MetodoCompletado);
    assert !Counts(MetodoCompletado, cash) by { assert |"efectivo"| < |"Completado"|; }
    assert !Counts(MetodoCompletado, Confirmed(qr, "Pago completado")) by { assert |"QR"| < |"Completado"|; }
    var both := InsertPago(s1, cash).pagos;
    assert Collected(both, 0, MetodoCompletado, 0) == 0;
    assert Collected(both, 0, MetodoCompletado, 1) == 0;
    assert Collected(both, 0, MetodoCompletado, 2) == 0;
  }

  // ---- Venta::listar ----

  /** The filters of `Venta::listar`; an unset filter keeps every sale. */
  datatype VentaFiltros = VentaFiltros(estado: Option<string>, tipoVenta: Option<string>, inscripcionId: Option<Id>)

  predicate Matches(f: VentaFiltros, v: Venta) {
    && (f.estado.Some? ==> v.estado == f.estado.value)
    && (f.tipoVenta.Some? ==> v.tipoVenta == f.tipoVenta.value)
    && (f.inscripcionId.Some? ==> v.inscripcionId == f.inscripcionId.value)
  }

  /** `ORDER BY fecha_venta DESC`. */
  predicate NewerOrSame(a: (Id, Venta), b: (Id, Venta)) {
    a.1.fechaVenta >= b.1.fechaVenta
  }

  lemma NewerOrSameIsTotal()
    ensures TotalPreorder(NewerOrSame)
  {
  }

  /** The sales with an id below `n` that pass the filters. */
  ghost function Selected(ventas: map<Id, Venta>, f: VentaFiltros, n: nat): set<(Id, Venta)> {
    set k | k in ventas && k < n && Matches(f, ventas[k]) :: (k, ventas[k])
  }

  /** Id `n - 1` adds its row to the selection when it matches, and
      nothing otherwise. */
  lemma SelectedStep(ventas: map<Id, Venta>, f: VentaFiltros, n: nat)
    requires n > 0
    ensures var k := n - 1;
            multiset(Selected(ventas, f, n))
            == if k in ventas && Matches(f, ventas[k])
               then multiset(Selected(ventas, f, n - 1)) + multiset{(k, ventas[k])}
               else multiset(Selected(ventas, f, n - 1))
  {
    var k := n - 1;
    assert forall p :: p in Selected(ventas, f, n - 1) ==> p.0 < k;
    if k in ventas && Matches(f, ventas[k]) {
      assert Selected(ventas, f, n) == Selected(ventas, f, n - 1) + {(k, ventas[k])};
    } else {
      assert Selected(ventas, f, n) == Selected(ventas, f, n - 1);
    }
  }

  /** The listing over the ids below `n`: each selected sale exactly once,
      newest first. */
  function Listing(ventas: map<Id, Venta>, f: VentaFiltros, n: nat): (r: seq<(Id, Venta)>)
    ensures SortedBy(r, NewerOrSame)
  {
    if n == 0 then []
    else
      var r := Listing(ventas, f, n - 1);
      var k := n - 1;
      if k in ventas && Matches(f, ventas[k]) then
        var row: (Id, Venta) := (k, ventas[k]);
        NewerOrSameIsTotal();
        InsertSorted<(Id, Venta)>(r, row, NewerOrSame)
      else
        r
  }

  /** The listing holds each selected row exactly once. */
  lemma {:induction false} ListingSelects(ventas: map<Id, Venta>, f: VentaFiltros, n: nat)
    ensures multiset(Listing(ventas, f, n)) == multiset(Selected(ventas, f, n))
  {
    if n > 0 {
      ListingSelects(ventas, f, n - 1);
      SelectedStep(ventas, f, n);
      NewerOrSameIsTotal();
    }
  }

  // ---- Venta::reportePorEstado ----

  /** One row of `GROUP BY estado`. */
  datatype EstadoGroup = EstadoGroup(estado: string, totalVentas: nat, montoTotal: Cents, montoPagado: Cents, saldoPendiente: Cents)

  function AddSale(g: EstadoGroup, v: Venta): EstadoGroup {
    g.(totalVentas := g.totalVentas + 1,
       montoTotal := g.montoTotal + v.montoTotal,
       montoPagado := g.montoPagado + v.montoPagado,
       saldoPendiente := g.saldoPendiente + v.saldoPendiente)
  }

  /** COUNT and the three SUMs over the sales with an id below `n` whose
      state is `e`. */
  function Aggregate(ventas: map<Id, Venta>, e: string, n: nat): EstadoGroup {
    if n == 0 then EstadoGroup(e, 0, 0, 0, 0)
    else if n - 1 in ventas && ventas[n - 1].estado == e then AddSale(Aggregate(ventas, e, n - 1), ventas[n - 1])
    else Aggregate(ventas, e, n - 1)
  }

  /** No sale below `n` has state `e`, so its aggregate is empty. */
  lemma {:induction false} AggregateOfAbsent(ventas: map<Id, Venta>, e: string, n: nat)
    requires forall k :: k in ventas && k < n ==> ventas[k].estado != e
    ensures Aggregate(ventas, e, n) == EstadoGroup(e, 0, 0, 0, 0)
  {
    if n > 0 {
      AggregateOfAbsent(ventas, e, n - 1);
    }
  }

  function Estados(r: seq<EstadoGroup>): set<string> {
    set i | 0 <= i < |r| :: r[i].estado
  }

  predicate DistinctEstados(r: seq<EstadoGroup>) {
    forall i, j :: 0 <= i < j < |r| ==> r[i].estado != r[j].estado
  }

  /** Position of the group of state `e`, or -1. */
  function IndexOf(r: seq<EstadoGroup>, e: string): (i: int)
    ensures -1 <= i < |r|
    ensures i >= 0 ==> r[i].estado == e
    ensures i < 0 ==> forall j :: 0 <= j < |r| ==> r[j].estado != e
  {
    if r == [] then -1
    else if r[|r| - 1].estado == e then |r| - 1
    else IndexOf(r[..|r| - 1], e)
  }

  /** The sale added into its group, or a new group at the end. */
  function AddToGroups(r: seq<EstadoGroup>, v: Venta): seq<EstadoGroup> {
    var i := IndexOf(r, v.estado);
    if i >= 0 then r[i := AddSale(r[i], v)]
    else r + [EstadoGroup(v.estado, 1, v.montoTotal, v.montoPagado, v.saldoPendiente)]
  }

  /** `GROUP BY estado` over the sales with an id below `n`, one group added
      or extended per sale. */
  function Report(ventas: map<Id, Venta>, n: nat): seq<EstadoGroup> {
    if n == 0 then []
    else if n - 1 !in ventas then Report(ventas, n - 1)
    else AddToGroups(Report(ventas, n - 1), ventas[n - 1])
  }

  /** `r` groups the sales below `n` by state: one group per distinct state,
      each with the count and sums of the sales in its state, and every
      sale's state has its group. */
  ghost predicate GroupsByEstado(ventas: map<Id, Venta>, r: seq<EstadoGroup>, n: nat) {
    && DistinctEstados(r)
    && (forall i :: 0 <= i < |r| ==> r[i] == Aggregate(ventas, r[i].estado, n) && r[i].totalVentas > 0)
    && (forall k :: k in ventas && k < n ==> ventas[k].estado in Estados(r))
  }

  /** A sale of a state not yet grouped opens a new group at the end. */
  lemma NewGroupStep(ventas: map<Id, Venta>, r: seq<EstadoGroup>, n: nat)
    requires n > 0 && n - 1 in ventas && IndexOf(r, ventas[n - 1].estado) < 0
    requires GroupsByEstado(ventas, r, n - 1)
    ensures GroupsByEstado(ventas, AddToGroups(r, ventas[n - 1]), n)
  {
    var v := ventas[n - 1];
    var t := AddToGroups(r, v);
    AggregateOfAbsent(ventas, v.estado, n - 1);
    assert t == r + [EstadoGroup(v.estado, 1, v.montoTotal, v.montoPagado, v.saldoPendiente)];
    assert forall j :: 0 <= j < |r| ==> t[j] == r[j];
    assert t[|r|].estado == v.estado;
    assert Estados(t) == Estados(r) + {v.estado};
  }

  /** A sale of an already grouped state is added into its group. */
  lemma SameGroupStep(ventas: map<Id, Venta>, r: seq<EstadoGroup>, n: nat)
    requires n > 0 && n - 1 in ventas && IndexOf(r, ventas[n - 1].estado) >= 0
    requires GroupsByEstado(ventas, r, n - 1)
    ensures GroupsByEstado(ventas, AddToGroups(r, ventas[n - 1]), n)
  {
    var v := ventas[n - 1];
    var i := IndexOf(r, v.estado);
    var t := AddToGroups(r, v);
    assert t == r[i := AddSale(r[i], v)];
    assert forall j :: 0 <= j < |r| ==> t[j].estado == r[j].estado;
    assert Estados(t) == Estados(r);
  }

  /** The report has one group per distinct state of the sales below `n`,
      and each group's count and sums are those of the sales in its state. */
  lemma {:induction false} ReportGroupsByEstado(ventas: map<Id, Venta>, n: nat)
    ensures DistinctEstados(Report(ventas, n))
    ensures forall i :: 0 <= i < |Report(ventas, n)| ==>
              Report(ventas, n)[i] == Aggregate(ventas, Report(ventas, n)[i].estado, n) && Report(ventas, n)[i].totalVentas > 0
    ensures forall k :: k in ventas && k < n ==> ventas[k].estado in Estados(Report(ventas, n))
  {
    if n > 0 {
      ReportGroupsByEstado(ventas, n - 1);
      var r := Report(ventas, n - 1);
      assert GroupsByEstado(ventas, r, n - 1);
      if n - 1 !in ventas {
        assert GroupsByEstado(ventas, r, n);
      } else if IndexOf(r, ventas[n - 1].estado) < 0 {
        NewGroupStep(ventas, r, n);
      } else {
        SameGroupStep(ventas, r, n);
      }
      assert GroupsByEstado(ventas, Report(ventas, n), n);
    }
  }

  /** Number of sales with an id below `n`. */
  function RowsBelow(ventas: map<Id, Venta>, n: nat): nat {
    if n == 0 then 0 else RowsBelow(ventas, n - 1) + (if n - 1 in ventas then 1 else 0)
  }

  function SumCounts(r: seq<EstadoGroup>): nat {
    if r == [] then 0 else SumCounts(r[..|r| - 1]) + r[|r| - 1].totalVentas
  }

  lemma {:induction false} SumCountsUpdate(r: seq<EstadoGroup>, i: nat, g: EstadoGroup)
    requires i < |r|
    ensures SumCounts(r[i := g]) == SumCounts(r) - r[i].totalVentas + g.totalVentas
  {
    if i < |r| - 1 {
      assert r[i := g][..|r| - 1] == r[..|r| - 1][i := g];
      SumCountsUpdate(r[..|r| - 1], i, g);
    } else {
      assert r[i := g][..|r| - 1] == r[..|r| - 1];
    }
  }

  lemma SumCountsAdd(r: seq<EstadoGroup>, v: Venta)
    ensures SumCounts(AddToGroups(r, v)) == SumCounts(r) + 1
  {
    var i := IndexOf(r, v.estado);
    if i >= 0 {
      SumCountsUpdate(r, i, AddSale(r[i], v));
    } else {
      var t := AddToGroups(r, v);
      assert t[..|t| - 1] == r;
    }
  }

  /** The group counts add up to the number of sales. */
  lemma {:induction false} ReportCountsEverySale(ventas: map<Id, Venta>, n: nat)
    ensures SumCounts(Report(ventas, n)) == RowsBelow(ventas, n)
  {
    if n > 0 {
      ReportCountsEverySale(ventas, n - 1);
      if n - 1 in ventas {
        SumCountsAdd(Report(ventas, n - 1), ventas[n - 1]);
      }
    }
  }

  /** `RowsBelow` counts the ids below `n`. */
  lemma {:induction false} RowsBelowIsSize(ventas: map<Id, Venta>, n: nat)
    ensures RowsBelow(ventas, n) == |set k | k in ventas && k < n|
  {
    if n > 0 {
      RowsBelowIsSize(ventas, n - 1);
      var below := set k | k in ventas && k < n - 1;
      if n - 1 in ventas {
        assert (set k | k in ventas && k < n) == below + {n - 1};
      } else {
        assert (set k | k in ventas && k < n) == below;
      }
    }
  }
}
