# Tutoring-centre back office: records, ledger, schedules and front-end rules

This project models the core of a tutoring-centre management system. The
system has a Laravel back end on Postgres and a Vue front end. The model
covers these parts:

- **Attendance chain** (`attendance.dfy`, module `Attendance`). Attendance
  records (`asistencia`) for an enrolment, the license (`licencia`) that
  justifies an absence, and the reprogrammed classes (`reprogramacion`) of a
  license. There are three keyed tables in one `Registry` class. The
  database's unique keys, enum CHECK constraints and cascading foreign keys
  are part of the model, because the models rely on them.
- **Sale/payment ledger** (`sales.dfy`, `ledger.dfy`, `codes.dfy`; modules
  `Sales`, `Ledger`, `TransactionCodes`):
  - the `venta` and `pago` tables, with amounts in integer cents;
  - the two balance-recompute routines and the payment transitions that
    trigger them;
  - the payment-gateway callback and status query;
  - QR initiation with its `grupo16sa-NNNNN` transaction-code generator;
  - the sale listing and the per-state sale report.
- **Enrolments** (`enrolment.dfy`, module `Enrolment`). Creating an
  enrolment can also create its sale in the same transaction, and deleting
  one cascades through attendances, licenses, reprogrammings, sales,
  payments and class reports.
- **Class reports** (`class_report.dfy`, module `ClassReport`): the
  `informe_clase` rows, their defaults and the update whitelist.
- **Schedules** (`schedule.dfy`, module `Schedule`):
  - `horario` rows with `H:i` times and a soft delete;
  - the filtered and sorted listing;
  - the tutor↔schedule relation `tutor_horario`.
- **Front-end form validation** (`forms.dfy`, module `Forms`): the
  `useFormValidation` composable, including its rules, first-failure-wins
  field validation, whole-form validation and merging of back-end errors.
- **Colour theme** (`theme.dfy`, module `Theme`): the `useTheme`
  composable, including the hour → palette rule and the `currentTheme`
  state.

`common.dfy` (`Common`) and `ordering.dfy` (`Ordering`) hold shared
definitions: ids, cents, `Option`/`Result`, the error kinds, decimal text,
sortedness and code-point string order.

Stateful code is modelled as classes whose fields are the tables
(`map<Id, Row>` plus the id sequence). Each method's `ensures` states the new
state, either directly or as a pure effect function of the old state, for
example `Attendance.Cascade`, `Sales.Recompute`, `Sales.Confirm` or
`Ledger.DropEnrolment`. The properties are proved about those functions.
Read-only listings and reports are functions proved sorted and equal, as a
multiset, to the set of matching rows. Loops in the source (the code retry
loop, the report-update whitelist, the balance sum, the validation loops)
are methods with loop invariants.

Things that lie outside the model become parameters:

- the clock (`today`, `now`, `hour`);
- `rand` (a sequence of draws);
- the payment gateway's answers (`QrAnswer`, `QueryAnswer`);
- the rows of tables outside the core (`Directory`, `propietarios`,
  `tutores`).

Where the intended behaviour described for the system promises more than
the code does, the model follows the code:

- **Licenses.** `Licencia::crear` stores the `estado` given in the request
  and defaults to `pendiente` only when none is given. `actualizar` can set
  any enum state, bypassing `aprobar`/`rechazar`.
- **Reprogramming.** Creating one does not require an approved license or
  any order between the two dates. Marking it done or cancelled has no
  precondition on its state and does not touch the attendance. Deleting a
  done one is allowed.
- **Recording a payment.** `Pago::crear` requires `monto >= 0.1` (10 cents),
  not just a positive amount. The balance recompute it runs counts only
  payments whose `metodo_pago` contains `Completado`, so a recorded cash
  payment never lowers the balance, and it never yields `parcial`
  (`Sales.SettleRulesCompared`, `Sales.RecordedPaymentReopensSale`).
- **Sale creation.** `Venta::crear` stores `saldo_pendiente` as supplied
  rather than deriving it. Only the enrolment path derives it.
- **Gateway callback.** It confirms only when `Estado === 2` (an integer).
  A string `"2"` is acknowledged without a change.
- **Alphanumeric rule.** `rules.alphanumeric` is documented as letters and
  digits without spaces, but its character class includes `\s`. The rule
  set (`Forms.Check`) runs the class as written. The documented rule is
  `Forms.AlphanumericDocumented`, compared with it under Findings.

## Model

| member | source | states |
|---|---|---|
| Attendance.Registry.CrearAsistencia | app/Models/Asistencia.php:20-47 | fails with Invalid unless the enrolment exists, a date is given and the state is one of presente/ausente/tardanza/justificado; fails with AlreadyExists when the enrolment already has a record on that date; otherwise adds exactly that row, with observaciones as given (null by default); other tables untouched; unique (enrolment, date) preserved |
| Attendance.Registry.ActualizarAsistencia | app/Models/Asistencia.php:49-75 | unknown id → NotFound and no change; otherwise only the supplied fecha/estado/observaciones change, estado is not re-validated, and a collision with another record of the same enrolment and date is refused as the unique key does |
| Attendance.Registry.EliminarAsistencia | app/Models/Asistencia.php:77-87 | unknown id → NotFound and no change; otherwise the new tables are `Cascade(old, {id})`: its license and that license's reprogrammings go too |
| Attendance.Cascade | database/migrations/0001_01_01_000014_create_licencia_table.php:22 | the deleted attendances' licenses are removed, and the reprogrammings of removed licenses in turn; every surviving attendance, license and reprogramming row is unchanged; referential integrity is preserved |
| Attendance.Registry.Purge | database/migrations/0001_01_01_000013_create_asistencia_table.php:21 | deleting a set of attendances (an enrolment's, on cascade) gives `Cascade(old, gone)` and keeps the registry valid |
| Attendance.Registry.CrearLicencia | app/Models/Licencia.php:19-56 | Invalid unless the attendance exists, the reason is non-blank and the state is in the enum; NotAbsent unless the attendance is exactly `ausente`; AlreadyLicensed when the attendance already has a license; otherwise inserts one license with the given state, defaulting to pendiente; at most one license per attendance is preserved |
| Attendance.Registry.ActualizarLicencia | app/Models/Licencia.php:58-82 | unknown id → NotFound; a state outside the enum is refused by the column's CHECK; otherwise only motivo/estado change, with no transition check |
| Attendance.Registry.EliminarLicencia | app/Models/Licencia.php:84-103 | unknown id → NotFound; HasReprogrammings while any reprogramming points at it; otherwise removes exactly that license |
| Attendance.Decide | app/Models/Licencia.php:182-219 | approving or rejecting succeeds exactly when the license is pendiente and then sets the target state only; otherwise NotPending |
| Attendance.DecisionIsFinal | app/Models/Licencia.php:186-197 | once approved or rejected, a license cannot be decided again |
| Attendance.Registry.Decidir | app/Models/Licencia.php:182-219 | `aprobar`/`rechazar`: unknown id → NotFound; succeeds iff `Decide` does, and then replaces only that license with the decided one |
| Attendance.Registry.CrearReprogramacion | app/Models/Reprogramacion.php:21-39 | succeeds iff the license exists and both dates are given (and a given state is in the enum), with no check of the license's state or date order; inserts one row, state defaulting to programada |
| Attendance.Registry.ActualizarReprogramacion | app/Models/Reprogramacion.php:41-70 | unknown id → NotFound; a state outside the enum is refused; otherwise only the supplied fields change |
| Attendance.Registry.EliminarReprogramacion | app/Models/Reprogramacion.php:72-82 | fails only for an unknown id; otherwise removes that row whatever its state |
| Attendance.Registry.SetEstado | app/Models/Reprogramacion.php:135-149 | `marcarRealizada`/`cancelar`: sets the state whatever it was (1 row affected), or affects 0 rows for an unknown id; no other row or table changes |
| TransactionCodes.CodeRoundTrip | app/Models/Pago.php:16-27 | a code is `grupo16sa-` followed by exactly 5 digits, and parsing them gives back the draw |
| TransactionCodes.CodeInjective | app/Models/Pago.php:18-24 | different draws give different codes |
| TransactionCodes.FirstFresh | app/Models/Pago.php:16-27 | the retry loop's result is the code of one of the draws, parseable and not already used; it finds none exactly when every draw's code is taken |
| Ledger.Ledger.GenerarCodigo | app/Models/Pago.php:16-27 | the do-while loop returns `FirstFresh` of the draws against the existing company transaction ids |
| Ledger.VentaRow | app/Models/Venta.php:9-25 | the inserted sale has monto_pagado 0, estado pendiente, today's date and a null due date by default, and saldo_pendiente exactly as supplied |
| Ledger.Ledger.CrearVenta | app/Models/Venta.php:9-25 | MissingField unless the undefaulted columns are present, with nothing drawn from the sale sequence; a foreign-key failure leaves both tables unchanged but consumes one sale id; otherwise inserts `VentaRow` under the next id |
| Ledger.PagoRow | app/Models/Pago.php:47-59 | a recorded payment always has estado pagado and carries the given sale, amount and method, dated now by default |
| Ledger.Ledger.CrearPago | app/Models/Pago.php:40-67 | Invalid for a missing sale or an amount below 10 cents, with nothing inserted; a refused insert leaves both tables unchanged and consumes one payment id exactly when the row was well-formed (a duplicate transaction id); otherwise inserts exactly `PagoRow` and the state is that sale's recompute by `metodo_pago LIKE %Completado%` |
| Ledger.CrearPagoBalances | app/Models/Pago.php:62-64 | after recording a payment the sale's paid amount is the counted sum, the balance is non-negative, paid + pending = total unless overpaid, and the state is never parcial |
| Ledger.QrRow | app/Models/Pago.php:134-146 | the QR payment row is pendiente, method `QR PagoFácil`, with both transaction ids |
| Ledger.Ledger.GenerarQR | app/Models/Pago.php:69-165 | all-or-nothing: any error leaves both tables unchanged, and one payment id is consumed exactly when the insert itself was refused (an unknown `registrado_por` or a duplicate id); no sale id → MissingField; unknown sale → NotFound; every draw taken → CodesExhausted; no amount → MissingField; a refused gateway answer → GatewayFailed with the gateway's message; success iff the sale exists, a fresh code was drawn and the gateway generated a QR, and then exactly the `QrRow` is inserted |
| Ledger.Ledger.ActualizarEstadoPago | app/Models/Pago.php:167-191 | unknown company transaction id → NotFound and no change; only `Completado` changes anything, marking the first matching payment completed and recomputing its sale |
| Ledger.Ledger.ActualizarSaldoVenta | app/Models/Pago.php:193-216 | the sale is settled from the sum of its payments whose method contains `Completado` (`Recompute` with that rule) |
| Ledger.Ledger.SumPaid | app/Models/Pago.php:196-199 | the summing loop returns the sum of the sale's payments counted by the rule |
| Sales.SettleByMethod | app/Models/Pago.php:203-215 | monto_pagado = paid; saldo = max(0, total − paid); estado pagado iff paid ≥ total, pendiente otherwise (never parcial); no other column changes |
| Sales.SettleByState | app/Http/Controllers/api/PagoController.php:207-222 | monto_pagado = paid; saldo clamped at 0; pagado iff paid ≥ total, parcial iff 0 < paid < total, pendiente otherwise; paid + pending = total when not overpaid |
| Sales.SettleRulesCompared | app/Http/Controllers/api/PagoController.php:207-222 | the two settle rules agree on every column but estado, and disagree on estado exactly for partial payments |
| Sales.Recompute | app/Http/Controllers/api/PagoController.php:192-235 | a recompute rewrites only that sale, from the full payment set; a missing sale leaves the state unchanged; paid + pending = total when not overpaid |
| Sales.RecomputeIdempotent | app/Models/Pago.php:193-216 | recomputing twice equals recomputing once |
| Ledger.Ledger.ActualizarSaldosVenta | app/Http/Controllers/api/PagoController.php:192-235 | the sale is settled from the sum of its payments with estado pagado (`Recompute` with that rule) |
| Sales.Confirmed | app/Http/Controllers/api/PagoController.php:279-290 | a confirmed payment is counted by the controller's recompute and keeps its sale and amount |
| Sales.Completed | app/Models/Pago.php:179-185 | a completed payment is counted by the model's recompute and keeps its sale, amount and estado |
| Sales.Confirm | app/Http/Controllers/api/PagoController.php:279-292 | the payment is rewritten so that the controller's recompute counts it, keeping its sale and amount; every other payment, every other sale, the key sets and both sequences are unchanged |
| Sales.Complete | app/Models/Pago.php:173-188 | the payment is rewritten so that the model's recompute counts it, keeping its sale, amount and estado; every other payment, every other sale, the key sets and both sequences are unchanged |
| Sales.ConfirmIdempotent | app/Http/Controllers/api/PagoController.php:279-298 | a repeated `Estado == 2` callback for the same payment yields the same state |
| Sales.CompleteIdempotent | app/Models/Pago.php:173-188 | completing a payment twice yields the same state |
| Sales.ConfirmationPathsDiverge | app/Models/Pago.php:196-199 | a payment confirmed by the callback is not counted by the model's recompute, and one completed by a status query is counted by the controller's recompute only if it was already pagado |
| Sales.RecordedPaymentReopensSale | app/Models/Pago.php:62-64 | for example, a sale fully paid through the callback goes back to pendiente with its whole balance once a cash payment is recorded (one fixed sale and payment) |
| Ledger.IntegerFilterAcceptsPadded | app/Http/Controllers/api/PagoController.php:246-247 | the `integer` rule accepts `" 2 "`, `"-7"` and the integer 2 |
| Ledger.IntegerFilterRefusesWide | app/Http/Controllers/api/PagoController.php:246-247 | the `integer` rule refuses twenty nines as text and the integer one above the 64-bit maximum |
| Ledger.IntegerFilterRefusesMalformed | app/Http/Controllers/api/PagoController.php:246-247 | the `integer` rule refuses `"007"` and `"2a"` |
| Ledger.Ledger.Callback | app/Http/Controllers/api/PagoController.php:237-319 | rejected iff one of PedidoID/Fecha/Hora/MetodoPago/Estado is missing or ill-typed, where an integer is a 64-bit value or its decimal text with optional sign and surrounding blanks and no leading zero; confirmed iff valid, `Estado === 2` and the PedidoID matches a payment, and then the state is `Confirm` of the first match; in every other case nothing changes |
| Ledger.Ledger.ConsultarEstado | app/Http/Controllers/api/PagoController.php:123-164 | unknown payment or failed query → no change; the payment counts as completed iff paymentStatus is 2, and only then is it completed through `actualizarEstadoPago` |
| Ledger.FirstWhere | app/Models/Pago.php:169-171 | `where(col, key)->first()` finds the lowest matching id, and none exactly when no row matches (a null key matches a null column) |
| Sales.NewerOrSameIsTotal | app/Models/Venta.php:53 | ordering by fecha_venta descending is a total preorder |
| Sales.Listing | app/Models/Venta.php:27-54 | the listing is sorted newest first |
| Sales.ListingSelects | app/Models/Venta.php:27-54 | as a multiset, the listing is exactly the sales matching every supplied filter, each once |
| Ledger.Ledger.Listar | app/Models/Venta.php:27-54 | `listar` over the table: sorted by fecha_venta descending and a permutation of the matching sales |
| Sales.ReportGroupsByEstado | app/Models/Venta.php:71-83 | one group per distinct estado, each equal to the count and sums over the sales with that estado, and every sale's estado has a group |
| Sales.ReportCountsEverySale | app/Models/Venta.php:73-82 | the group counts add up to the number of sales |
| Ledger.Ledger.ReportePorEstado | app/Models/Venta.php:71-83 | the report over the table: distinct estados, each group its aggregate, non-empty, covering every sale, counts summing to the table size |
| Ledger.DropEnrolment | database/migrations/0001_01_01_000016_create_venta_table.php:27 | deleting an enrolment removes exactly its sales and, by the payment's cascade, exactly their payments; every surviving sale and payment row is unchanged, and so are both sequences |
| Ledger.Ledger.PurgeEnrolment | database/migrations/0001_01_01_000017_create_pago_table.php:14 | the cascade applied to the tables |
| Enrolment.NewInscripcion | app/Models/Inscripcion.php:32-41 | fecha_inscripcion defaults to today and estado to activo |
| Enrolment.SaleRequest | app/Models/Inscripcion.php:44-56 | the enrolment's sale is complete, contado by default, with amounts defaulting to 0 and saldo_pendiente = monto_total − monto_pagado |
| Enrolment.Enrolments.Crear | app/Models/Inscripcion.php:23-64 | Invalid unless service, student and tutor exist and the state is in the enum; success iff that holds and the sale (when asked for) is accepted; then one enrolment and, with crear_venta, exactly one sale `VentaRow(SaleRequest(..))` are inserted; on any failure neither persists, and the rolled-back sale insert still consumes one sale id exactly when the enrolment was valid |
| Enrolment.Enrolments.Actualizar | app/Models/Inscripcion.php:66-106 | unknown id → NotFound; only the supplied fields change; the update is refused exactly when a supplied foreign key does not resolve, so an update with no foreign key always succeeds |
| Enrolment.Enrolments.Eliminar | app/Models/Inscripcion.php:108-118 | unknown id → NotFound and no change; otherwise the enrolment goes, its attendances cascade with their licenses and reprogrammings, its sales with their payments, and exactly its class reports (the other reports stay as they were); on error the class reports are unchanged; every remaining row still belongs to an existing enrolment |
| ClassReport.NewRow | app/Models/InformeClase.php:30-57 | the inserted report has exactly the report's columns, estado realizada by default, and every optional field null when not given |
| ClassReport.Whitelisted | app/Models/InformeClase.php:69-80 | the update holds exactly the whitelisted fields that are set, with their given values |
| ClassReport.ReportBook.BuildUpdate | app/Models/InformeClase.php:76-80 | the loop over `$campos` builds exactly `Whitelisted` |
| ClassReport.UpdateTouchesOnlySetFields | app/Models/InformeClase.php:82-85 | an update changes exactly the whitelisted fields that are set and nothing else |
| ClassReport.ReportBook.Crear | app/Models/InformeClase.php:30-57 | Invalid unless enrolment, date and topics are present, the enums hold and the grade is within 0..100; refused when (enrolment, date) already exists, leaving the table unchanged but consuming one report id; otherwise inserts `NewRow` |
| ClassReport.ReportBook.Actualizar | app/Models/InformeClase.php:59-88 | unknown id → NotFound; otherwise the row becomes row + `Whitelisted`, unless that would break the unique (enrolment, date) or an enrolment reference |
| ClassReport.ReportBook.Eliminar | app/Models/InformeClase.php:90-100 | fails only for an unknown id; otherwise removes exactly that report |
| ClassReport.ReportBook.PurgeEnrolment | database/migrations/0001_01_01_000012_create_informe_clase_table.php:40 | deleting an enrolment removes exactly its reports; the remaining reports belong to the remaining enrolments |
| Schedule.FormatThenParse | app/Models/Horario.php:17-18 | every minute of the day formats as `HH:MM` and parses back |
| Schedule.ParseThenFormat | app/Models/Horario.php:17-18 | every accepted `H:i` text is the format of its minute, so the format is exact |
| Schedule.HmTextOrder | app/Models/Horario.php:154 | ordering valid `H:i` texts as strings is ordering them by time of day |
| Schedule.NewHorario | app/Models/Horario.php:26-53 | a created schedule ends strictly after it starts, and its state is in the enum, activo by default |
| Schedule.Timetable.Crear | app/Models/Horario.php:26-53 | succeeds iff the day is given, both times are `H:i`, the end is after the start and the state is in the enum; otherwise Invalid and nothing is inserted |
| Schedule.UpdateCanUnorderTimes | app/Models/Horario.php:68-78 | an update does not re-check the time order: 08:00-09:00 patched with fin 07:00 is stored |
| Schedule.Timetable.Actualizar | app/Models/Horario.php:58-88 | unknown id → NotFound; otherwise only the supplied fields change |
| Schedule.SoftDelete | app/Models/Horario.php:97-109 | the row stays, with only its estado changed to inactivo; no other row changes |
| Schedule.Timetable.Eliminar | app/Models/Horario.php:93-117 | unknown id → NotFound; otherwise `SoftDelete` |
| Schedule.Timetable.CambiarEstado | app/Models/Horario.php:265-277 | rejects any state but activo/inactivo with no change; otherwise sets it on that row and reports 1 affected row, or 0 for an unknown id |
| Schedule.DayThenStartIsTotal | app/Models/Horario.php:154 | ordering by (dia_semana, hora_inicio) is a total preorder |
| Schedule.Listing | app/Models/Horario.php:130-155 | sorted by day then start |
| Schedule.ListingSelects | app/Models/Horario.php:130-155 | as a multiset, the listing is exactly the schedules passing the filters, each once |
| Schedule.Timetable.Listar | app/Models/Horario.php:130-155 | over the table: sorted, a schedule is listed iff it passes the filters (active only, unless mostrar_inactivos), and as a multiset the listing is exactly those schedules, each once |
| Schedule.DeletedIsHiddenByDefault | app/Models/Horario.php:135-137 | a soft-deleted schedule stays in the table but is not listed unless inactive ones are asked for |
| Schedule.Assign | app/Models/Horario.php:165-189 | succeeds iff schedule and tutor exist and the pair is new, adding exactly that pair; an existing pair → AlreadyAssigned |
| Schedule.Unassign | app/Models/Horario.php:207-214 | succeeds iff the pair exists, removing exactly it; otherwise AssignmentNotFound |
| Schedule.AssignThenUnassign | app/Models/Horario.php:160-223 | assigning then unassigning the same pair restores the relation |
| Schedule.UnassignThenAssign | app/Models/Horario.php:160-223 | unassigning then reassigning an existing pair restores the relation |
| Schedule.Timetable.AsignarATutor | app/Models/Horario.php:165-189 | the table's relation becomes `Assign` of the old one; schedules untouched |
| Schedule.Timetable.DesasignarDeTutor | app/Models/Horario.php:203-223 | the table's relation becomes `Unassign` of the old one; schedules untouched |
| Schedule.AssignAsWritten | app/Models/Horario.php:160-198 | as written, the assignment always fails and changes nothing (the tutor lookup at line 163 calls a method the tutor model does not define) |
| Schedule.AssignAsWrittenNeverAssigns | app/Models/Horario.php:163 | even for an existing schedule and tutor with no pair yet, where the intended assignment succeeds, the code as written fails |
| Forms.Check | resources/js/composables/useFormValidation.js:9-165 | one rule applied to one value: every rule except `required` passes an empty value (`integer`, `numeric`, `min` and `max` still examine 0); `required` passes exactly the values that are neither falsy nor blank text; every built-in message starts with "El campo" and the field's name |
| Forms.RequiredFailsOnEmpty | resources/js/composables/useFormValidation.js:14-19 | `required` fails exactly on falsy values and whitespace-only strings |
| Forms.TypeRulesAccept | resources/js/composables/useFormValidation.js:21-44 | `string` passes empty values and strings; `integer` and `numeric` pass empty values other than 0 and whatever `Number()` reads |
| Forms.CharacterRulesAccept | resources/js/composables/useFormValidation.js:70-88 | `noSpecialChars` passes letters, digits and white space; `onlyLetters` letters and white space; empty values pass both |
| Forms.RangeRulesAccept | resources/js/composables/useFormValidation.js:136-152 | `min`/`max` pass empty values other than 0, values `Number()` cannot read, and numbers on the right side of the bound |
| Forms.CustomRuleAccepts | resources/js/composables/useFormValidation.js:158-164 | `custom` passes empty values and whatever its predicate accepts, and otherwise reports its template with the field's name |
| Forms.RangeRulesPassText | resources/js/composables/useFormValidation.js:29-152 | `"abc"` fails `integer` but passes `min(1)`: the range rules do not check that the value is a number |
| Forms.LengthRules | resources/js/composables/useFormValidation.js:50-64 | minLength/maxLength pass on empty values and otherwise compare the UTF-16 length with the bound |
| Forms.OnlyNumbersAcceptsDigits | resources/js/composables/useFormValidation.js:90-98 | for a string, `onlyNumbers` passes exactly when it is empty or all decimal digits |
| Forms.EmailAcceptsAddress | resources/js/composables/useFormValidation.js:114-121 | `local@domain.tld` with parts free of whitespace and `@` passes |
| Forms.EmailAcceptedHasShape | resources/js/composables/useFormValidation.js:116 | an accepted address has no whitespace, exactly one `@` not in first place, and a dot after it with text on both sides |
| Forms.AlphanumericAsWrittenIsNoSpecialChars | resources/js/composables/useFormValidation.js:70-108 | as written, `alphanumeric` accepts exactly what `noSpecialChars` accepts, spaces included (`"ab 12"`) |
| Forms.AlphanumericRefusesSpaces | resources/js/composables/useFormValidation.js:100-108 | the alphanumeric rule as documented ("sin espacios") refuses any value containing whitespace and accepts `ab12`; whatever it accepts, the rule as written accepts too |
| Forms.FirstError | resources/js/composables/useFormValidation.js:174-180 | no error iff every rule passes; otherwise a non-empty message from the first failing rule, with every earlier rule passing |
| Forms.FirstFailureWins | resources/js/composables/useFormValidation.js:174-180 | once a rule fails, later rules are not consulted |
| Forms.FormValidation.ValidateField | resources/js/composables/useFormValidation.js:168-184 | returns true iff no rule fails; stores the first failure's message under that field, or deletes that field's error; other fields untouched |
| Forms.FormErrorsOnlyNamedFields | resources/js/composables/useFormValidation.js:187-201 | after validating a form, only fields that were validated carry errors |
| Forms.FormErrorsAreFirstFailures | resources/js/composables/useFormValidation.js:187-201 | after validating a form, each field's entry is its first failing rule's message, or absent when all pass |
| Forms.FormValidation.ValidateForm | resources/js/composables/useFormValidation.js:187-201 | errors are reset and then rebuilt field by field; the result is true iff every field validates; validation is no longer in progress |
| Forms.FormValidation.ClearErrors | resources/js/composables/useFormValidation.js:204-206 | all errors go |
| Forms.FormValidation.ClearFieldError | resources/js/composables/useFormValidation.js:209-211 | only that field's error goes |
| Forms.MergeBackendFields | resources/js/composables/useFormValidation.js:214-221 | after merging back-end errors, a field has an error iff it had one or the back end named it |
| Forms.MergeBackendKeeps | resources/js/composables/useFormValidation.js:214-221 | a field the back end does not name keeps its error |
| Forms.MergeBackendStores | resources/js/composables/useFormValidation.js:218-220 | a field the back end names stores the first message of an array, and the value itself otherwise (the last mention wins) |
| Forms.FormValidation.SetBackendErrors | resources/js/composables/useFormValidation.js:214-221 | no back-end errors → no change; otherwise the errors become the merge |
| Theme.GetAutoTheme | resources/js/composables/useTheme.js:72-84 | light iff the hour is 6–17, sunset iff 18–19, dark otherwise, and always a palette name |
| Theme.Apply | resources/js/composables/useTheme.js:57-70 | an unknown name changes nothing; a known one is applied and becomes currentTheme |
| Theme.ThemeState.ApplyTheme | resources/js/composables/useTheme.js:57-70 | the state after `applyTheme` is `Apply` of the old one: an unknown name leaves it as it was, a known palette is applied and becomes currentTheme |
| Theme.SetTheme | resources/js/composables/useTheme.js:86-94 | currentTheme becomes the name given, auto included; auto applies the palette of the hour, a palette name applies itself, an unknown name applies nothing |
| Theme.SetThemeIdempotent | resources/js/composables/useTheme.js:86-94 | setting the same theme twice at the same hour is setting it once |
| Theme.InitialName | resources/js/composables/useTheme.js:3 | the initial theme is the saved one, or auto when none (or an empty one) is saved |
| Theme.ThemeState.SetThemeAt | resources/js/composables/useTheme.js:86-94 | the state after `setTheme` is `SetTheme` of the old one |
| Theme.ThemeState.InitTheme | resources/js/composables/useTheme.js:96-99 | `initTheme` is `setTheme` of the saved theme or auto |
| Theme.AutoTickLeavesAutoMode | resources/js/composables/useTheme.js:111-114 | as written, the first auto-mode tick sets currentTheme to the resolved palette, so the mode is no longer auto |
| Theme.AutoTick | resources/js/composables/useTheme.js:111-114 | the intended tick applies the palette of the hour and keeps currentTheme |
| Theme.AutoModeFollowsTheHour | resources/js/composables/useTheme.js:103-116 | with the intended tick, auto mode stays auto and the palette follows the hour of the latest tick |

## Left out

- Timestamps (`created_at`, `updated_at`) are left out; the clock is a parameter (`today`, `now`, `hour`) wherever a default uses it.
- The join-heavy readers are left out: `obtenerPorId`, the `listar` of attendances, licenses, reprogrammings, enrolments, reports and payments, `obtenerHorariosDeTutor`/`obtenerTutoresDeHorario`, `Venta::reporteMensual`. They assemble display data. One of them may also fail: `Reprogramacion::obtenerPorId` (app/Models/Reprogramacion.php:84-98) joins on `licencia.tutor_id`, a column that the licencia migration (database/migrations/0001_01_01_000014_create_licencia_table.php:12-25) does not declare. Then `crear` and `actualizar`, which return through it, would persist the row and then raise. Later migrations that might add the column are not part of this model, so this is unconfirmed.
- Dates are day numbers. Date-string parsing and Laravel's `date` rule are not modelled. Nor are varchar lengths and the `decimal(10,2)` range, except that a schedule day is at most 20 characters.
- Floating point is replaced by integer cents. `floatval` sums are exact in the model.
- ClassReport.ReportBook.Crear: values are typed, so a grade or an enrolment id given as numeric text (`"85"`, `"5"`) is refused as Invalid, whereas Laravel's `numeric` and `exists` rules accept such text and the row is inserted.
- ClassReport.ReportBook.Actualizar: column types are not checked, so a value of the wrong type for a typed column (a text grade such as `"abc"` for the `decimal(5,2)` column) is stored, whereas the database refuses it and the update changes nothing.
- Forms.Check: `Number()` coercion covers integers in decimal text only. Fractions, exponents, hexadecimal and `Infinity` read as NaN, so `integer`, `numeric`, `min` and `max` on such text are weaker than in the browser.
- Forms.Check: the `date` rule is not modelled (it relies on `new Date` parsing). `$` patterns in `String.replace` are not interpreted in messages.
- Schedule.Listing: the `search` filter's ILIKE lower-cases ASCII only and treats `%`/`_` in the search text literally. Postgres collation is modelled as code-point order.
- The `horario` table's migration is not part of this model. Times are kept as the stored `H:i` text, and the order of valid times is proved to agree with their text order.
- `pago.estado` is written and read by the code, but the pago migration does not declare it. It is modelled as the code uses it.
- Ledger.Ledger.GenerarCodigo: `rand` is a finite sequence of draws. When every draw's code is taken the model reports `CodesExhausted`, whereas the source would keep drawing.
- The payment gateway client, its token caching and its HTTP errors are not modelled. Its answers are the parameters `QrAnswer`/`QueryAnswer`.
- Transactions are atomic: there is no concurrency, and two requests never interleave. An id drawn from a sequence is not returned on rollback, as Postgres sequences behave.
- `where(...)->first()` without `ORDER BY` is modelled as the lowest matching id.
- Enrolment.InscripcionData: the truthiness of PHP's `crear_venta` is reduced to `Some(true)`.
- The `estado` of an enrolment is checked against its list on creation. Its column length is not modelled.
- The thin HTTP controllers (they only map exceptions to status codes) are not modelled. Neither are authentication, account CRUD, routes and seeders.
- useTheme's DOM writes, `localStorage` and the `setInterval` scheduling are not modelled. The tick is a function applied at a given hour. Two consequences of the watcher therefore stay outside the model: when `currentTheme` is already `auto`, `setTheme('auto')` moves it to the palette and back within one tick, so the watcher never fires and no interval starts; and `applyTheme` saves the palette name, not `auto`, to `localStorage`.
- useApi/useAuth (HTTP client and session code) are not modelled.

## Findings

| source | as written | input that shows it | evidently intended | confidence | as-written member | corrected member |
|---|---|---|---|---|---|---|
| app/Models/Horario.php:163 | `asignarATutor` looks the tutor up with `Tutor::obtenerPorIdSimple`, which the tutor model does not define, so every call throws before any check | an existing schedule and an existing tutor not yet paired | check that schedule and tutor exist and the pair is new, then insert the pair | high (not executed) | Schedule.AssignAsWrittenNeverAssigns | Schedule.Assign |
| resources/js/composables/useFormValidation.js:100-108 | `alphanumeric`, documented as "sin espacios", uses a character class that includes `\s`, so it accepts exactly what `noSpecialChars` accepts | `"ab 12"` passes | letters and digits only, refusing whitespace | high (not executed) | Forms.AlphanumericAsWrittenIsNoSpecialChars | Forms.AlphanumericRefusesSpaces |
| resources/js/composables/useTheme.js:111-114 | the auto-mode interval calls `applyTheme`, which sets `currentTheme` to the resolved palette, so the watcher stops the interval and the mode leaves `auto` after one tick | `setTheme('auto')` at 17:00, then a tick at 18:00: currentTheme is `sunset`, and later hours no longer change the palette | each tick applies the palette of the hour and keeps `currentTheme` at `auto` | medium (not executed) | Theme.AutoTickLeavesAutoMode | Theme.AutoModeFollowsTheHour |
