/** The `venta` and `pago` tables and the operations that write them:
    `Venta::crear`, `Pago::crear`, `Pago::generarQR` with its code generator,
    `Pago::actualizarEstadoPago`, the two balance recomputes, and the payment
    controller's gateway callback and status query. The gateway's answers,
    `rand` and the clock are parameters. */
module Ledger {
  import opened Common
  import opened Ordering
  import opened Sales
  import opened TransactionCodes

  /** The fields `Venta::crear` reads. */
  datatype VentaData = VentaData(
    inscripcionId: Option<Id>, propietarioId: Option<Id>, tipoVenta: Option<string>,
    montoTotal: Option<Cents>, montoPagado: Option<Cents>, saldoPendiente: Option<Cents>,
    mesCorrespondiente: Option<string>, fechaVenta: Option<Date>, fechaVencimiento: Option<Date>,
    estado: Option<string>)

  /** The columns `Venta::crear` takes without a default are all present. */
  predicate VentaComplete(d: VentaData) {
    && d.inscripcionId.Some? && d.tipoVenta.Some? && d.montoTotal.Some?
    && d.saldoPendiente.Some? && d.mesCorrespondiente.Some?
  }

  /** The row `Venta::crear` inserts: `monto_pagado` defaults to 0,
      `fecha_venta` to today, `estado` to `pendiente`, `fecha_vencimiento`
      stays null when absent, and `saldo_pendiente` is stored as given
      rather than derived from the amounts. */
  function VentaRow(d: VentaData, today: Date): (v: Venta)
    requires VentaComplete(d)
    ensures v.montoPagado == d.montoPagado.GetOr(0)
    ensures v.saldoPendiente == d.saldoPendiente.value && v.montoTotal == d.montoTotal.value
    ensures v.estado == d.estado.GetOr("pendiente") && v.fechaVenta == d.fechaVenta.GetOr(today)
    ensures v.fechaVencimiento == d.fechaVencimiento && v.propietarioId == d.propietarioId
  {
    Venta(d.inscripcionId.value, d.propietarioId, d.tipoVenta.value, d.montoTotal.value,
          d.montoPagado.GetOr(0), d.saldoPendiente.value, d.mesCorrespondiente.value,
          d.fechaVenta.GetOr(today), d.fechaVencimiento, d.estado.GetOr("pendiente"))
  }

  /** The fields `Pago::crear` reads. */
  datatype PagoData = PagoData(
    ventaId: Option<Id>, monto: Option<Cents>, fechaPago: Option<nat>, metodoPago: Option<string>,
    observaciones: Option<string>, registradoPor: Option<Id>,
    pagofacilTransactionId: Option<string>, companyTransactionId: Option<string>)

  /** `Pago::validar`: the sale exists, `monto` is at least 0.1, and the
      registering owner exists when given. */
  predicate PagoValid(d: PagoData, ventas: set<Id>, propietarios: set<Id>) {
    && d.ventaId.Some? && d.ventaId.value in ventas
    && d.monto.Some? && d.monto.value >= 10
    && (d.registradoPor.Some? ==> d.registradoPor.value in propietarios)
  }

  /** The row `Pago::crear` inserts: always `estado = 'pagado'`. */
  function PagoRow(d: PagoData, now: nat): (p: Pago)
    requires d.ventaId.Some? && d.monto.Some?
    ensures p.estado == "pagado" && p.ventaId == d.ventaId.value && p.monto == d.monto.value
    ensures p.fechaPago == d.fechaPago.GetOr(now) && p.metodoPago == d.metodoPago
  {
    Pago(d.ventaId.value, d.monto.value, d.fechaPago.GetOr(now), d.metodoPago, d.observaciones,
         "pagado", d.registradoPor, d.pagofacilTransactionId, d.companyTransactionId)
  }

  /** The fields `Pago::generarQR` reads (the customer's e-mail only goes to
      the gateway). */
  datatype QrData = QrData(ventaId: Option<Id>, monto: Option<Cents>, observaciones: Option<string>, registradoPor: Option<Id>)

  /** The gateway's answer to the QR request. */
  datatype QrAnswer = QrGenerated(transactionId: string) | QrRefused(message: string)

  /** The pending payment a successful QR request inserts. */
  function QrRow(d: QrData, code: string, transactionId: string, now: nat): (p: Pago)
    requires d.ventaId.Some? && d.monto.Some?
    ensures p.estado == "pendiente" && p.metodoPago == Some("QR PagoFácil")
    ensures p.pagofacilTransactionId == Some(transactionId) && p.companyTransactionId == Some(code)
    ensures p.ventaId == d.ventaId.value && p.monto == d.monto.value
  {
    Pago(d.ventaId.value, d.monto.value, now, Some("QR PagoFácil"), d.observaciones, "pendiente",
         d.registradoPor, Some(transactionId), Some(code))
  }

  /** The gateway's answer to a status query. */
  datatype QueryAnswer = QueryOk(paymentStatus: Option<int>) | QueryFailed(message: string)

  /** What `consultarEstado` responds: 404, 400, 500, or the status with
      `pago_completado`. */
  datatype QueryOutcome = PagoNotFound | QueryRejected(message: string) | QueryError | Consulted(completed: bool)

  /** A JSON field of the callback body. */
  datatype Json = Absent | JNull | JInt(i: int) | JStr(s: string)

  datatype CallbackRequest = CallbackRequest(pedidoId: Json, fecha: Json, hora: Json, metodoPago: Json, estado: Json)

  /** What the callback responds: 400 for invalid data, otherwise 200 with
      whether the payment was confirmed. */
  datatype CallbackOutcome = Rejected | Acknowledged(confirmed: bool)

  /** Laravel `required|string`. */
  predicate RequiredString(j: Json) {
    j.JStr? && !IsPhpBlank(j.s)
  }

  /** The range of a PHP integer (64 bits). */
  const PhpIntMin: int := -0x8000_0000_0000_0000
  const PhpIntMax: int := 0x7FFF_FFFF_FFFF_FFFF

  /** The characters PHP's integer filter strips from both ends. */
  predicate IsFilterSpace(c: char) {
    c == ' ' || c == '\t' || c == '\r' || c == '\U{000B}' || c == '\n'
  }

  /** The text with those characters stripped from both ends. */
  function TrimFilterSpace(s: string): (t: string)
    ensures |t| <= |s|
    ensures t != [] ==> !IsFilterSpace(t[0]) && !IsFilterSpace(t[|t| - 1])
  {
    if s == [] then s
    else if IsFilterSpace(s[0]) then TrimFilterSpace(s[1..])
    else if IsFilterSpace(s[|s| - 1]) then TrimFilterSpace(s[..|s| - 1])
    else s
  }

  /** A string PHP's integer filter (`FILTER_VALIDATE_INT`) accepts: once
      the surrounding white space is stripped, an optional sign and digits
      without a leading zero, whose value fits a PHP integer. */
  predicate IsIntegerText(s: string) {
    var t := TrimFilterSpace(s);
    var negative := |t| > 0 && t[0] == '-';
    var digits := if |t| > 0 && (t[0] == '-' || t[0] == '+') then t[1..] else t;
    && |digits| > 0 && AllDigits(digits) && (digits[0] == '0' ==> |digits| == 1)
    && (if negative then -(DigitsValue(digits) as int) >= PhpIntMin else DigitsValue(digits) <= PhpIntMax)
  }

  /** Laravel `required|integer`: a JSON integer that fits a PHP integer (a
      wider one decodes as a float), or an integer text. */
  predicate RequiredInteger(j: Json) {
    (j.JInt? && PhpIntMin <= j.i <= PhpIntMax) || (j.JStr? && IsIntegerText(j.s))
  }

  /** The integer filter strips surrounding white space and takes a sign. */
  lemma IntegerFilterAcceptsPadded()
    ensures RequiredInteger(JStr(" 2 ")) && RequiredInteger(JStr("-7")) && RequiredInteger(JInt(2))
  {
    var padded := " 2 ";
    assert TrimFilterSpace(padded) == "2" by {
      assert TrimFilterSpace(padded) == TrimFilterSpace(padded[1..]);
      assert padded[1..] == "2 ";
      assert "2 "[..1] == "2";
    }
    assert DigitsValue("2") == 2 by { assert "2"[..0] == ""; }
    assert TrimFilterSpace("-7") == "-7";
    assert "-7"[1..] == "7";
    assert DigitsValue("7") == 7 by { assert "7"[..0] == ""; }
  }

  /** The integer filter refuses what does not fit 64 bits. */
  lemma IntegerFilterRefusesWide()
    ensures !RequiredInteger(JStr(Repeat('9', 20))) && !RequiredInteger(JInt(PhpIntMax + 1))
  {
    var big := Repeat('9', 20);
    NinesValue(20);
    assert Pow10(20) == 100000000000000000000 by {
      assert Pow10(5) == 100000;
      assert Pow10(10) == 10000000000;
      assert Pow10(15) == 1000000000000000;
    }
    assert TrimFilterSpace(big) == big;
  }

  /** The integer filter refuses leading zeros and trailing garbage. */
  lemma IntegerFilterRefusesMalformed()
    ensures !RequiredInteger(JStr("007")) && !RequiredInteger(JStr("2a"))
  {
    assert TrimFilterSpace("007") == "007";
    assert TrimFilterSpace("2a") == "2a";
    assert !IsDigit("2a"[1]);
  }

  /** `n` nines are worth 10^n - 1. */
  lemma {:induction false} NinesValue(n: nat)
    ensures AllDigits(Repeat('9', n)) && DigitsValue(Repeat('9', n)) == Pow10(n) - 1
  {
    if n > 0 {
      NinesValue(n - 1);
      assert Repeat('9', n)[..n - 1] == Repeat('9', n - 1);
    }
  }

  predicate CallbackValid(req: CallbackRequest) {
    && RequiredString(req.pedidoId) && RequiredString(req.fecha) && RequiredString(req.hora)
    && RequiredInteger(req.metodoPago) && RequiredInteger(req.estado)
  }

  /** PHP string interpolation of a validated scalar. */
  function JsonText(j: Json): string {
    match j
    case JInt(i) => IntText(i)
    case JStr(s) => s
    case _ => ""
  }

  /** The note the callback stores on a confirmed payment. */
  function CallbackNote(req: CallbackRequest): string {
    "Pago completado vía " + JsonText(req.metodoPago) + " el " + JsonText(req.fecha) + " a las " + JsonText(req.hora)
  }

  /** The two transaction-id columns of `pago`. */
  datatype Column = CompanyTransactionId | PagofacilTransactionId

  function ColumnValue(p: Pago, c: Column): Option<string> {
    match c
    case CompanyTransactionId => p.companyTransactionId
    case PagofacilTransactionId => p.pagofacilTransactionId
  }

  /** `->where(column, key)->first()` on `pago`: the lowest id below `n`
      whose column equals `key`, where a null key matches `IS NULL` (the
      query has no ORDER BY; a non-null key has at most one candidate). */
  function FirstWhere(pagos: map<Id, Pago>, n: nat, c: Column, key: Option<string>): (r: Option<Id>)
    ensures r.Some? ==> r.value < n && r.value in pagos && ColumnValue(pagos[r.value], c) == key
    ensures r.Some? ==> forall j :: j < r.value && j in pagos ==> ColumnValue(pagos[j], c) != key
    ensures r.None? ==> forall j :: j < n && j in pagos ==> ColumnValue(pagos[j], c) != key
  {
    if n == 0 then None
    else
      var r := FirstWhere(pagos, n - 1, c, key);
      if r.Some? then r
      else if n - 1 in pagos && ColumnValue(pagos[n - 1], c) == key then Some(n - 1)
      else None
  }

  /** The codes already stored as `company_transaction_id`. */
  function CompanyCodes(pagos: map<Id, Pago>): set<string> {
    set k | k in pagos && pagos[k].companyTransactionId.Some? :: pagos[k].companyTransactionId.value
  }

  /** The effect of deleting the enrolment's sales: the cascade takes their
      payments with them. */
  function DropEnrolment(s: LedgerState, inscripcionId: Id): (r: LedgerState)
    ensures forall k :: k in r.ventas <==> k in s.ventas && s.ventas[k].inscripcionId != inscripcionId
    ensures forall k :: k in r.ventas ==> r.ventas[k] == s.ventas[k]
    ensures forall k :: k in r.pagos <==> k in s.pagos && s.pagos[k].ventaId in r.ventas
    ensures forall k :: k in r.pagos ==> r.pagos[k] == s.pagos[k]
    ensures r.nextVenta == s.nextVenta && r.nextPago == s.nextPago
  {
    var vs := map k | k in s.ventas && s.ventas[k].inscripcionId != inscripcionId :: s.ventas[k];
    s.(ventas := vs, pagos := map k | k in s.pagos && s.pagos[k].ventaId in vs :: s.pagos[k])
  }

  class Ledger {
    var ventas: map<Id, Venta>
    var pagos: map<Id, Pago>
    var nextVenta: Id
    var nextPago: Id

    function State(): LedgerState
      reads this
    {
      LedgerState(ventas, pagos, nextVenta, nextPago)
    }

    /** Ids below the sequences, every payment's sale exists, and the two
        transaction-id columns are unique where not null. */
    ghost predicate Valid()
      reads this
    {
      && (forall k :: k in ventas ==> k < nextVenta)
      && (forall k :: k in pagos ==> k < nextPago)
      && (forall k :: k in pagos ==> pagos[k].ventaId in ventas)
      && (forall i, j ::
            (i in pagos && j in pagos && pagos[i].companyTransactionId.Some?
             && pagos[i].companyTransactionId == pagos[j].companyTransactionId) ==> i == j)
      && (forall i, j ::
            (i in pagos && j in pagos && pagos[i].pagofacilTransactionId.Some?
             && pagos[i].pagofacilTransactionId == pagos[j].pagofacilTransactionId) ==> i == j)
    }

    constructor ()
      ensures Valid() && ventas == map[] && pagos == map[]
    {
      ventas, pagos, nextVenta, nextPago := map[], map[], 0, 0;
    }

    /** The new payment would repeat a stored transaction id. */
    predicate DuplicatesIds(p: Pago)
      reads this
    {
      exists k | k in pagos ::
        || (p.companyTransactionId.Some? && pagos[k].companyTransactionId == p.companyTransactionId)
        || (p.pagofacilTransactionId.Some? && pagos[k].pagofacilTransactionId == p.pagofacilTransactionId)
    }

    /** Stores a new payment under the next id. */
    method Insert(p: Pago) returns (id: Id)
      requires Valid() && p.ventaId in ventas && !DuplicatesIds(p)
      modifies this
      ensures Valid()
      ensures id == old(nextPago) && State() == InsertPago(old(State()), p)
    {
      id := nextPago;
      pagos := pagos[id := p];
      nextPago := nextPago + 1;
    }

    /** `Venta::crear`. A missing column fails in PHP before the insert; a
        foreign key the database refuses has already drawn the next id from
        the sequence, which is not given back. */
    method CrearVenta(d: VentaData, inscripciones: set<Id>, propietarios: set<Id>, today: Date) returns (r: Result<Id>)
      requires Valid()
      modifies this
      ensures Valid()
      ensures !VentaComplete(d) ==> r == Err(MissingField)
      ensures r.Ok? <==>
                VentaComplete(d) && d.inscripcionId.value in inscripciones
                && (d.propietarioId.Some? ==> d.propietarioId.value in propietarios)
      ensures r.Err? ==> State() == old(State()).(nextVenta := nextVenta)
      ensures nextVenta == old(nextVenta) + (if VentaComplete(d) then 1 else 0)
      ensures r.Ok? ==>
                r.value == old(nextVenta)
                && State() == old(State()).(ventas := old(ventas)[r.value := VentaRow(d, today)], nextVenta := r.value + 1)
    {
      if !VentaComplete(d) {
        return Err(MissingField);
      }
      if d.inscripcionId.value !in inscripciones || (d.propietarioId.Some? && d.propietarioId.value !in propietarios) {
        nextVenta := nextVenta + 1;
        return Err(ConstraintViolation);
      }
      var id := nextVenta;
      ventas := ventas[id := VentaRow(d, today)];
      nextVenta := nextVenta + 1;
      r := Ok(id);
    }

    /** The `SUM(monto)` query of a recompute, one payment id at a time. */
    method SumPaid(ventaId: Id, rule: SumRule) returns (total: Cents)
      ensures total == Paid(State(), ventaId, rule)
    {
      total := 0;
      var i := 0;
      while i < nextPago
        invariant 0 <= i <= nextPago
        invariant total == Collected(pagos, ventaId, rule, i)
      {
        if i in pagos && pagos[i].ventaId == ventaId && Counts(rule, pagos[i]) {
          total := total + pagos[i].monto;
        }
        i := i + 1;
      }
    }

    /** `Pago::actualizarSaldoVenta`. */
    method ActualizarSaldoVenta(ventaId: Id)
      requires Valid()
      modifies this
      ensures Valid()
      ensures State() == Recompute(old(State()), ventaId, MetodoCompletado)
    {
      var paid := SumPaid(ventaId, MetodoCompletado);
      if ventaId in ventas {
        ventas := ventas[ventaId := SettleByMethod(ventas[ventaId], paid)];
      }
    }

    /** `PagoController::actualizarSaldosVenta`. */
    method ActualizarSaldosVenta(ventaId: Id)
      requires Valid()
      modifies this
      ensures Valid()
      ensures State() == Recompute(old(State()), ventaId, EstadoPagado)
    {
      var paid := SumPaid(ventaId, EstadoPagado);
      if ventaId in ventas {
        ventas := ventas[ventaId := SettleByState(ventas[ventaId], paid)];
      }
    }

    /** `Pago::crear`: validate, insert a `pagado` row, recompute its sale.
        A transaction id the unique keys refuse has already drawn the next
        id from the sequence. */
    method CrearPago(d: PagoData, propietarios: set<Id>, now: nat) returns (r: Result<Id>)
      requires Valid()
      modifies this
      ensures Valid()
      ensures !PagoValid(d, old(ventas).Keys, propietarios) ==> r == Err(Invalid)
      ensures r.Ok? <==> PagoValid(d, old(ventas).Keys, propietarios) && !old(DuplicatesIds(PagoRow(d, now)))
      ensures r.Err? ==> State() == old(State()).(nextPago := nextPago)
      ensures r.Err? ==> nextPago == old(nextPago) + (if PagoValid(d, old(ventas).Keys, propietarios) then 1 else 0)
      ensures r.Ok? ==>
                r.value == old(nextPago)
                && State() == Recompute(InsertPago(old(State()), PagoRow(d, now)), d.ventaId.value, MetodoCompletado)
    {
      if !PagoValid(d, ventas.Keys, propietarios) {
        return Err(Invalid);
      }
      var p := PagoRow(d, now);
      if DuplicatesIds(p) {
        nextPago := nextPago + 1;
        return Err(ConstraintViolation);
      }
      var id := Insert(p);
      ActualizarSaldoVenta(p.ventaId);
      r := Ok(id);
    }

    /** `Pago::generarCodigoTransaccion`: draw, build the code, retry while a
        payment already carries it. `draws` are the successive values of
        `rand(0, 99999)`; `None` means they ran out before a fresh code. */
    method GenerarCodigo(draws: seq<Draw>) returns (r: Option<string>)
      ensures r == FirstFresh(draws, CompanyCodes(pagos))
    {
      var i := 0;
      while i < |draws|
        invariant 0 <= i <= |draws|
        invariant FirstFresh(draws, CompanyCodes(pagos)) == FirstFresh(draws[i..], CompanyCodes(pagos))
      {
        var code := Code(draws[i]);
        var existe := exists k | k in pagos :: pagos[k].companyTransactionId == Some(code);
        assert existe <==> code in CompanyCodes(pagos);
        assert draws[i..][1..] == draws[i + 1..];
        if !existe {
          return Some(code);
        }
        i := i + 1;
      }
      r := None;
    }

    /** `Pago::generarQR`, all or nothing: the sale must exist, a fresh code
        is drawn, the gateway must accept, and only then is one pending
        payment inserted. An insert the database refuses has drawn the next
        id from the sequence, which the rollback does not give back. */
    method GenerarQR(d: QrData, propietarios: set<Id>, draws: seq<Draw>, gateway: QrAnswer, now: nat) returns (r: Result<Id>)
      requires Valid()
      modifies this
      ensures Valid()
      ensures r.Err? ==> State() == old(State()).(nextPago := nextPago)
      ensures r.Err? ==>
                nextPago == old(nextPago)
                            + (if d.ventaId.Some? && d.ventaId.value in old(ventas) && FirstFresh(draws, CompanyCodes(old(pagos))).Some?
                                  && d.monto.Some? && gateway.QrGenerated?
                               then 1 else 0)
      ensures d.ventaId.None? ==> r == Err(MissingField)
      ensures d.ventaId.Some? && d.ventaId.value !in old(ventas) ==> r == Err(NotFound)
      ensures (d.ventaId.Some? && d.ventaId.value in old(ventas) && FirstFresh(draws, CompanyCodes(old(pagos))).None?)
                ==> r == Err(CodesExhausted)
      ensures (d.ventaId.Some? && d.ventaId.value in old(ventas) && FirstFresh(draws, CompanyCodes(old(pagos))).Some?
               && d.monto.None?)
                ==> r == Err(MissingField)
      ensures (d.ventaId.Some? && d.ventaId.value in old(ventas) && FirstFresh(draws, CompanyCodes(old(pagos))).Some?
               && d.monto.Some? && gateway.QrRefused?)
                ==> r == Err(GatewayFailed(gateway.message))
      ensures r.Ok? ==>
                && d.ventaId.Some? && d.ventaId.value in old(ventas) && d.monto.Some? && gateway.QrGenerated?
                && FirstFresh(draws, CompanyCodes(old(pagos))).Some?
                && r.value == old(nextPago)
                && State() == InsertPago(old(State()),
                     QrRow(d, FirstFresh(draws, CompanyCodes(old(pagos))).value, gateway.transactionId, now))
      ensures r.Ok? <==>
                && d.ventaId.Some? && d.ventaId.value in old(ventas)
                && FirstFresh(draws, CompanyCodes(old(pagos))).Some?
                && d.monto.Some? && gateway.QrGenerated?
                && (d.registradoPor.Some? ==> d.registradoPor.value in propietarios)
                && !old(DuplicatesIds(QrRow(d, FirstFresh(draws, CompanyCodes(pagos)).value, gateway.transactionId, now)))
    {
      if d.ventaId.None? {
        return Err(MissingField);
      }
      if d.ventaId.value !in ventas {
        return Err(NotFound);
      }
      var code := GenerarCodigo(draws);
      if code.None? {
        return Err(CodesExhausted);
      }
      if d.monto.None? {
        return Err(MissingField);
      }
      if gateway.QrRefused? {
        return Err(GatewayFailed(gateway.message));
      }
      if d.registradoPor.Some? && d.registradoPor.value !in propietarios {
        nextPago := nextPago + 1;
        return Err(ConstraintViolation);
      }
      var p := QrRow(d, code.value, gateway.transactionId, now);
      if DuplicatesIds(p) {
        nextPago := nextPago + 1;
        return Err(ConstraintViolation);
      }
      var id := Insert(p);
      r := Ok(id);
    }

    /** `Pago::actualizarEstadoPago`: find the payment by its code (a null
        code matches `IS NULL`); only `'Completado'` changes anything. */
    method ActualizarEstadoPago(companyTransactionId: Option<string>, estado: string) returns (r: Result<Id>)
      requires Valid()
      modifies this
      ensures Valid()
      ensures r.Ok? <==> FirstWhere(old(pagos), old(nextPago), CompanyTransactionId, companyTransactionId).Some?
      ensures r.Err? ==> r.error == NotFound && State() == old(State())
      ensures r.Ok? ==> r.value == FirstWhere(old(pagos), old(nextPago), CompanyTransactionId, companyTransactionId).value
      ensures r.Ok? && estado == "Completado" ==> State() == Complete(old(State()), r.value)
      ensures estado != "Completado" ==> State() == old(State())
    {
      var found := FirstWhere(pagos, nextPago, CompanyTransactionId, companyTransactionId);
      if found.None? {
        return Err(NotFound);
      }
      var id := found.value;
      if estado == "Completado" {
        var p := Completed(pagos[id]);
        pagos := pagos[id := p];
        ActualizarSaldoVenta(p.ventaId);
      }
      r := Ok(id);
    }

    /** `PagoController::consultarEstado`: find the payment by the gateway's
        id, ask the gateway, and complete the payment when it reports
        `paymentStatus === 2`. */
    method ConsultarEstado(pagofacilTransactionId: string, answer: QueryAnswer) returns (o: QueryOutcome)
      requires Valid()
      modifies this
      ensures Valid()
      ensures FirstWhere(old(pagos), old(nextPago), PagofacilTransactionId, Some(pagofacilTransactionId)).None?
              ==> o == PagoNotFound && State() == old(State())
      ensures answer.QueryFailed? && o != PagoNotFound ==> o == QueryRejected(answer.message) && State() == old(State())
      ensures o.Consulted? ==> answer.QueryOk? && o.completed == (answer.paymentStatus == Some(2))
      ensures answer.QueryOk? && answer.paymentStatus != Some(2) ==> State() == old(State())
      ensures o.Consulted? && o.completed ==>
                var pago := FirstWhere(old(pagos), old(nextPago), PagofacilTransactionId, Some(pagofacilTransactionId)).value;
                var target := FirstWhere(old(pagos), old(nextPago), CompanyTransactionId, old(pagos)[pago].companyTransactionId).value;
                State() == Complete(old(State()), target)
      ensures o != QueryError
    {
      var found := FirstWhere(pagos, nextPago, PagofacilTransactionId, Some(pagofacilTransactionId));
      if found.None? {
        return PagoNotFound;
      }
      if answer.QueryFailed? {
        return QueryRejected(answer.message);
      }
      var completed := answer.paymentStatus == Some(2);
      if completed {
        var company := pagos[found.value].companyTransactionId;
        ghost var target := FirstWhere(pagos, nextPago, CompanyTransactionId, company);
        assert target.Some? by {
          assert ColumnValue(pagos[found.value], CompanyTransactionId) == company;
        }
        var updated := ActualizarEstadoPago(company, "Completado");
        if updated.Err? {
          return QueryError;
        }
      }
      o := Consulted(completed);
    }

    /** `PagoController::callback`: validate the notification, find the
        payment by `PedidoID`, and confirm it only when `Estado === 2`. */
    method Callback(req: CallbackRequest) returns (o: CallbackOutcome)
      requires Valid()
      modifies this
      ensures Valid()
      ensures o == Rejected <==> !CallbackValid(req)
      ensures o.Acknowledged? && o.confirmed <==>
                && CallbackValid(req) && req.estado == JInt(2)
                && FirstWhere(old(pagos), old(nextPago), CompanyTransactionId, Some(req.pedidoId.s)).Some?
      ensures o.Acknowledged? && o.confirmed ==>
                State() == Confirm(old(State()),
                  FirstWhere(old(pagos), old(nextPago), CompanyTransactionId, Some(req.pedidoId.s)).value,
                  CallbackNote(req))
      ensures !(o.Acknowledged? && o.confirmed) ==> State() == old(State())
    {
      if !CallbackValid(req) {
        return Rejected;
      }
      var pedidoId := req.pedidoId.s;
      var found := FirstWhere(pagos, nextPago, CompanyTransactionId, Some(pedidoId));
      if found.None? {
        return Acknowledged(false);
      }
      if req.estado != JInt(2) {
        return Acknowledged(false);
      }
      var p := Confirmed(pagos[found.value], CallbackNote(req));
      pagos := pagos[found.value := p];
      ActualizarSaldosVenta(p.ventaId);
      o := Acknowledged(true);
    }

    /** `Venta::listar`: the sales passing every set filter, newest first. */
    function Listar(f: VentaFiltros): (r: seq<(Id, Venta)>)
      reads this
      requires Valid()
      ensures SortedBy(r, NewerOrSame)
      ensures multiset(r) == multiset(set k | k in ventas && Matches(f, ventas[k]) :: (k, ventas[k]))
    {
      ListingSelects(ventas, f, nextVenta);
      assert Selected(ventas, f, nextVenta) == set k | k in ventas && Matches(f, ventas[k]) :: (k, ventas[k]);
      Listing(ventas, f, nextVenta)
    }

    /** `Venta::reportePorEstado`: one group per distinct sale state, with
        the count and sums of the sales in that state; the counts add up to
        the number of sales. */
    function ReportePorEstado(): (r: seq<EstadoGroup>)
      reads this
      requires Valid()
      ensures DistinctEstados(r)
      ensures forall i :: 0 <= i < |r| ==> r[i] == Aggregate(ventas, r[i].estado, nextVenta) && r[i].totalVentas > 0
      ensures forall k :: k in ventas ==> ventas[k].estado in Estados(r)
      ensures SumCounts(r) == |ventas|
    {
      ReportGroupsByEstado(ventas, nextVenta);
      ReportCountsEverySale(ventas, nextVenta);
      RowsBelowIsSize(ventas, nextVenta);
      assert (set k | k in ventas && k < nextVenta) == ventas.Keys;
      Report(ventas, nextVenta)
    }

    /** The cascade of deleting an enrolment: its sales and their payments. */
    method PurgeEnrolment(inscripcionId: Id)
      requires Valid()
      modifies this
      ensures Valid()
      ensures State() == DropEnrolment(old(State()), inscripcionId)
    {
      var t := DropEnrolment(State(), inscripcionId);
      ventas, pagos := t.ventas, t.pagos;
    }
  }

  /** Recording a payment keeps the sale balanced: after `Pago::crear`, the
      sale's paid amount is the sum its recompute counts, and paid plus
      pending is the total unless the sale is overpaid. */
  lemma CrearPagoBalances(s: LedgerState, p: Pago)
    requires p.ventaId in s.ventas
    ensures var t := Recompute(InsertPago(s, p), p.ventaId, MetodoCompletado);
            var v := t.ventas[p.ventaId];
            && v.montoPagado == Paid(InsertPago(s, p), p.ventaId, MetodoCompletado)
            && v.saldoPendiente >= 0
            && (v.montoPagado <= v.montoTotal ==> v.montoPagado + v.saldoPendiente == v.montoTotal)
            && v.estado != "parcial"
  {
  }
}
