# Verified model of the cash desk and its surroundings

This project models, in Dafny, the money protocol of a multi-branch restaurant system and proves what
it keeps. It follows `apps/servicio-caja` closely and adds the transactional outbox, the web client's
retry machine, the print agent, cursor paging and the season presets.

**The cash desk.** `Tablas` holds the tables (shifts, transacciones, movements, the projection of
accounts, the queue of payments taken while the desk is closed, the outbox). `Cobros`, `Turnos`,
`Proyeccion` and `Ventas` give each database transaction as a function of the tables, and
`ServicioCaja` is the service itself: an object over those tables whose methods are proved to do
exactly what those functions say. `Protocolo` cuts every request into the steps between two awaits,
so that snapshots of servicio-cuentas may be stale, remote closes may fail, queue drains may race and
processes may die anywhere; `Invariante` proves what every step keeps and `Teoremas` what therefore
holds in every reachable state. `TotalesFijos` covers runs in which account totals do not change,
`Reconciliacion` whole ticks of the repair cron, `Comandos` commands that run alone (and that they are
runs of the machine), `ContratosDePago` what the payments promise in terms of the command alone.
`Ventanas` and `Empates` say which accounts the cron reaches, `TeoremasDelCron` when it is right about
them, `TeoremasDeLaCola` how the queue grows and which claimed rows are left behind, and `CierresDeTurno`
what still moves the drawer of a closed shift. `Contraejemplos` and
`ContraejemplosDelCron` are reachable states that show what the code does not keep.

**The outbox.** `Outbox` is a machine with any number of replicas whose claims lock rows before they
commit; replicas die, fail, and are rescued while still alive. `OutboxFeliz` removes the accidents one
by one. `Drenaje` is the table and worker of the replica drill, updated in place.

**The rest.** `ClienteHttp` (attempts and the second round after a 401), `Refresco` (the single-flight
token refresh), `AgenteImpresion` (take, print, acknowledge), `Paginacion` (server slice and client
walk) and `Temporadas` (season ranges).

Money is an integer number of cents with a tolerance of one. The names follow the repository's
Spanish vocabulary.

What the proofs say about the code that its comments do not:

- A combined payment equals its parts paid one by one only when more than the tolerance is still owed
  before the last part. 9.99 + 0.01 on 10.00 is accepted together and refused one by one.
- A FALLIDO row may have been charged: when the PROCESADO write fails, the catch marks the row
  FALLIDO. In the model, where a transaction that throws has not committed and nothing throws after the
  commit, that is the only way; a commit whose acknowledgement is lost would be another.
- A row whose drain died after claiming it stays PROCESANDO and is never retried: drains claim only
  PENDIENTE rows. Nothing else leaves a row in that state.
- The cron is right about an account it picks exactly when what the account paid reaches the net of its
  latest accepted payment. A CuentaAbierta that arrives after the close reopens a row whose total may
  already be net of the discount; the cron subtracts the discount again and can pick an account that
  still owes money.
- Between the pick and the close a payment on a larger total can be accepted, and the cron then closes
  an account that owes again. With fixed totals that cannot happen to an account that was not reopened
  when it was picked.
- A payment can land on a shift that closed after the lookup, and corrections and manual movements can
  reach a closed shift too: the recorded close then differs from the drawer by exactly what they moved.
- A drain that finds its shift closed by the time it looks it up writes the intent a second time.
- An account is out of the cron's reach when 100 others have an old payment after its last one, and since
  payments are never deleted it stays out until it pays again. Only a process that read its window before
  can still close it.
- If reading the CSRF cookie throws, refreshAccessToken keeps a settled promise in its slot and never
  refreshes again.

## Model

| member | source | states |
|---|---|---|
| Cobros.DescuentoAceptadoSiiUniforme | apps/servicio-caja/src/app/app.service.ts:79-102 | comparing only the smallest and largest earlier discount accepts a command exactly when every earlier payment of the account carries its discount |
| Cobros.RechazoSii | apps/servicio-caja/src/app/app.service.ts:659-680 | both payments pass their guards exactly when the snapshot is open, the discount is the account's, more than a cent is owed and the amount exceeds it by at most a cent |
| Cobros.CadaRechazo | apps/servicio-caja/src/app/app.service.ts:79-102 | each refusal under the lock exactly when it should be: snapshot not open; earlier discounts that differ among themselves; a discount other than theirs; at most a cent owed; more than a cent over what is owed |
| Cobros.BucleAcotado | apps/servicio-caja/src/app/app.service.ts:932-978 | the clamped loop over positive parts ends at max(0, before - sum of the parts) |
| Cobros.TramosAgregan | apps/servicio-caja/src/app/app.service.ts:933-995 | the loop keeps all earlier rows and appends one Transaccion per part, in order, with this account, discount and the part's amount |
| Cobros.TramoEnSuSitio | apps/servicio-caja/src/app/app.service.ts:933-995 | part i stands i places after the rows there were in all three tables: its own amount, method, tip and note, the discount shown on the first row of a first payment only, and the balance left by the parts up to it |
| Cobros.PasoUnoAUno | apps/servicio-caja/src/app/app.service.ts:638-752 | after some parts, registrarPago accepts the next exactly when over a cent was still owed and the part fits, and then leaves the tables the combined loop would |
| Cobros.CombinadoFrenteAUnoAUno | apps/servicio-caja/src/app/app.service.ts:885-998 | parts paid one by one all succeed if and only if the combined payment is accepted and over a cent is owed before the last; the tables are then identical (rows, discounts, per-event balances) |
| Cobros.CombinadoAceptaLoQueUnoAUnoRechaza | apps/servicio-caja/src/app/app.service.ts:917-929 | 9.99 + 0.01 on 10.00 is accepted together and refused one by one |
| Saldos.SaldosAlCobrar | apps/servicio-caja/src/app/app.service.ts:885-998 | any accepted command, whatever its snapshot, keeps the money rules: cap per snapshot, faithful events, one discount per account, the discount shown once |
| Saldos.SaldosAlCorregir | apps/servicio-caja/src/app/app.service.ts:1105-1118 | correcting method or notes keeps all those money rules |
| Teoremas.NingunaCuentaSeCobraDeMas | apps/servicio-caja/src/app/app.service.ts:638-680 | in every reachable state an account has paid at most max(0, total - discount) + 0.01 for the snapshot of its latest accepted payment |
| Teoremas.CadaPagoAnunciaSuSaldo | apps/servicio-caja/src/app/app.service.ts:732-752 | in every reachable state the i-th PagoRegistrado names Transaccion i, its amount, and max(0, net - everything paid up to it) |
| Teoremas.UnSoloDescuento | apps/servicio-caja/src/app/app.service.ts:663-669 | in every reachable state all payments of an account carry one discount, the sum of its VENTA movements' discounts is that discount, and so is the maximum the cron would close with |
| TotalesFijos.SaldadaRechazaTodo | apps/servicio-caja/src/app/app.service.ts:659-680 | an account owing at most a cent refuses every further amount, even from a snapshot that still says ABIERTA |
| TotalesFijos.CadaCuentaSeSaldaUnaVez | apps/servicio-caja/src/app/app.service.ts:755-764 | with fixed totals, in every run the accepted commands that left at most a cent are one per settled account and none for any other; from then on the account refuses everything |
| Filas.FilasAlCobrar | apps/servicio-caja/src/app/app.service.ts:255-266 | charging a claimed row keeps every queue row tied to at most one process and at most one Transaccion |
| Filas.FilasAlReclamar | apps/servicio-caja/src/app/app.service.ts:234-239 | the compare-and-set claim keeps that tie whatever other drains hold |
| Filas.FilasAlAnotar | apps/servicio-caja/src/app/app.service.ts:261-278 | writing the outcome of a row keeps that tie, failed writes included |
| Teoremas.CadaFilaSeCobraALoMasUnaVez | apps/servicio-caja/src/app/app.service.ts:228-288 | in every reachable state a queue row has at most one Transaccion, with its account, amount and discount; PROCESADO names it, PENDIENTE has none, FALLIDO has one exactly when its PROCESADO write failed |
| Contraejemplos.FallidoPuedeEstarCobrado | apps/servicio-caja/src/app/app.service.ts:264-278 | a reachable state with a charged FALLIDO row |
| TeoremasDeLaCola.LaColaCreceSii | apps/servicio-caja/src/app/app.service.ts:584-623 | the queue never loses a row and grows in exactly one kind of step: a single payment looks its shift up and finds none open; the new row carries its command |
| TeoremasDeLaCola.DuplicaLaFilaReclamada | apps/servicio-caja/src/app/app.service.ts:255-263 | when that payment was draining a row, the row is claimed and the new one repeats its command |
| TeoremasDeLaCola.DosFilasDeUnaIntencionSii | apps/servicio-caja/src/app/app.service.ts:228-288 | in every run, one intent has two rows exactly when some drain looked its shift up and found none open |
| Contraejemplos.LaColaPuedeDuplicar | apps/servicio-caja/src/app/app.service.ts:257-263 | a run with one request, an opening, a claim made under the open shift and a close before the lookup, after which one command is two waiting rows of one intent |
| TeoremasDeLaCola.HuerfanaSii | apps/servicio-caja/src/app/app.service.ts:234-286 | of all steps, exactly the death of the process working on a row leaves it PROCESANDO with nobody working on it |
| TeoremasDeLaCola.HuerfanaTrasLaCorridaSii | apps/servicio-caja/src/app/app.service.ts:228-288 | a row is such an orphan at the end of a run exactly when the process working on it died in the run |
| TeoremasDeLaCola.LaHuerfanaQuedaAsi | apps/servicio-caja/src/app/app.service.ts:228-239 | an orphan is touched by no later step of any run, and charged by none |
| Comandos.DrenarDuplicaSii | apps/servicio-caja/src/app/app.service.ts:584-623 | draining a row writes a second one exactly when the account is readable, of the row's branch, and that branch has no open shift |
| Comandos.UnaFilaDrenada | apps/servicio-caja/src/app/app.service.ts:234-286 | with a shift open, a drained row ends PROCESADO naming its one new Transaccion, or FALLIDO with the transacciones unchanged, or charged when the PROCESADO write failed; no other row changes |
| Comandos.DrenarAtiendeTodas | apps/servicio-caja/src/app/app.service.ts:228-288 | draining a list: each row ends PROCESADO or FALLIDO, the others are untouched, at least one Transaccion per PROCESADO row, and exactly one when no write fails |
| Comandos.DrenarVaciaLaSede | apps/servicio-caja/src/app/app.service.ts:228-288 | with a shift open, the drain leaves no waiting row of the branch and no trace on other branches |
| ContratosDePago.CadaProcesadaSuCobro | apps/servicio-caja/src/app/app.service.ts:240-266 | every row a drain leaves PROCESADO names a Transaccion with its command's account, amount, method, discount and notes, of the row's branch and taken at that moment |
| Comandos.RegistrarPagoEsUnaCorrida | apps/servicio-caja/src/app/app.service.ts:558-800 | registrarPago run alone is four uninterrupted steps of the machine, with the same tables and the same answer |
| Comandos.PeticionEsUnaCorrida | apps/servicio-caja/src/app/app.service.ts:558-800 | a whole request of registrarPago as a user of some branch, run alone on the machine from its arrival to its answer, leaves the command's tables and no process behind |
| Comandos.CombinadoEsUnaCorrida | apps/servicio-caja/src/app/app.service.ts:809-1050 | and so is registrarPagoCombinado, with the same tables and the same answer |
| Comandos.PeticionCombinadaEsUnaCorrida | apps/servicio-caja/src/app/app.service.ts:809-1050 | the same of registrarPagoCombinado; a command refused before any read never becomes a process |
| Comandos.DrenarFilaEsUnaCorrida | apps/servicio-caja/src/app/app.service.ts:234-286 | draining a row is its claim, those four steps and the write of the outcome |
| Comandos.TickEsUnaCorrida | apps/servicio-caja/src/app/cierre-reconciliacion.service.ts:36-103 | a tick of the cron is its three reads and one step per selected account, after which the process is gone |
| Ventas.ResumenCuadra | apps/servicio-caja/src/app/app.service.ts:1169-1207 | sums over the shift's VENTA movements, in all or per method, equal the sums over its transacciones; the accounts they name are the same |
| Ventas.LosMetodosParten | apps/servicio-caja/src/app/app.service.ts:1178-1182 | the five methods split any sum of a shift without remainder |
| Ventas.ConcuerdanAlCobrar | apps/servicio-caja/src/app/app.service.ts:682-730 | booking a payment keeps sales and transacciones in one-to-one agreement |
| Ventas.ConcuerdanAlCorregir | apps/servicio-caja/src/app/app.service.ts:1109-1118 | correcting a method keeps that agreement |
| Ventas.CorregirMueveMontoYPropina | apps/servicio-caja/src/app/app.service.ts:1109-1118 | a correction moves exactly the sale's amount plus tip in or out of the shift's expected cash, and of no other shift |
| Teoremas.ElResumenCuadraSiempre | apps/servicio-caja/src/app/app.service.ts:1169-1207 | in every reachable state totalVentas = sum over methods = sum of the shift's transacciones, and comprobantes = distinct accounts paid |
| Turnos.OrdenAlAbrir | apps/servicio-caja/src/app/app.service.ts:124-159 | an opening that passes the unique index keeps one open shift per branch and the alternating log |
| Turnos.OrdenAlCerrar | apps/servicio-caja/src/app/app.service.ts:469-539 | a close keeps them too |
| Teoremas.LosTurnosAlternan | apps/servicio-caja/src/app/app.service.ts:111-186 | in every reachable state a branch has at most one open shift and its shift events strictly alternate Abierto / Cerrado with the same turnoId, ending in Abierto exactly while that shift is open |
| Turnos.EfectivoPorPartes | apps/servicio-caja/src/app/app.service.ts:1209-1215 | expected cash split into opening, income, adjustments, expenses and cash sales with tips |
| Turnos.UnMovimientoMas | apps/servicio-caja/src/app/app.service.ts:1169-1215 | what one more movement does to expected cash, sales in all or per method, income, expenses and tips: tips count for sales of every method, the drawer takes cash alone |
| Turnos.EfectivoCuadra | apps/servicio-caja/src/app/app.service.ts:1209-1215 | expected cash = opening float + INGRESO + AJUSTE - absolute EGRESO + amounts and tips of sales whose current method is EFECTIVO |
| Turnos.CierreGuardaLoEsperado | apps/servicio-caja/src/app/app.service.ts:487-520 | a close records that value and diferencia = counted - it |
| Teoremas.ElEfectivoCuadraSiempre | apps/servicio-caja/src/app/app.service.ts:137-145 | the expected-cash equation holds for every shift in every reachable state |
| Contraejemplos.PagoEnTurnoCerrado | apps/servicio-caja/src/app/app.service.ts:584-638 | a reachable state in which a payment landed on a shift after its close |
| CierresDeTurno.PagoEnTurnoCerradoSii | apps/servicio-caja/src/app/app.service.ts:682-690 | every row of an accepted command lands on the shift its process holds, so one lands on a closed shift exactly when that shift is closed at the commit |
| CierresDeTurno.PasoMueve | apps/servicio-caja/src/app/app.service.ts:1209-1215 | by how much each step moves the expected cash of each shift |
| CierresDeTurno.LaCajaCambiaSii | apps/servicio-caja/src/app/app.service.ts:1209-1215 | in every reachable state, a step changes the expected cash of a shift exactly when it is an accepted payment on it with a cash part, a correction of one of its sales into or out of cash, or a manual movement of it that is not of zero |
| CierresDeTurno.ElCierreMasLaDeriva | apps/servicio-caja/src/app/app.service.ts:487-520 | in every run, the expected cash of a closed shift is what its close recorded plus what those steps have moved since |
| CierresDeTurno.ElCierreSigueVigente | apps/servicio-caja/src/app/app.service.ts:487-520 | with none of those steps since, the recorded close is the expected cash now |
| Proyeccion.CobradaSiiPagadoAlcanza | apps/servicio-caja/src/app/cierre-reconciliacion.service.ts:65-72 | the cron's test on the last accepted total holds exactly when registrarPago itself would answer "already paid" |
| TeoremasDelCron.AlElegirDecideElNeto | apps/servicio-caja/src/app/cierre-reconciliacion.service.ts:62-72 | in every reachable state, an account the cron picks, reopened or not, is paid in full unless its row's net is below the net of its latest accepted payment and what it paid lies in the gap; a row not reopened has that very net |
| TeoremasDelCron.ElCronYerraSii | apps/servicio-caja/src/app/cierre-reconciliacion.service.ts:44-72 | in every reachable state, the cron is about to repair an account that still owes money exactly when it is within reach, quiet and open, and what it paid lies between its row's net and the net of its latest accepted payment |
| Proyeccion.MaximoEsElCobrado | apps/servicio-caja/src/app/cierre-reconciliacion.service.ts:54-59 | `_max.descuento` is the discount the account was charged |
| Proyeccion.DistintasTienenPagos | apps/servicio-caja/src/app/cierre-reconciliacion.service.ts:44-51 | the candidate query names exactly the accounts with a payment older than the cutoff |
| Teoremas.ElCronSoloEligeCobradas | apps/servicio-caja/src/app/cierre-reconciliacion.service.ts:62-72 | about the pick, not the close: in every reachable state, whatever happened between the cron's reads, an account it picks is one registrarPago would call fully paid unless a CuentaAbierta reopened it, and it is listed with the discount it was charged |
| TeoremasDelCron.AlCerrarDecideElFiltroDeNuevo | apps/servicio-caja/src/app/cierre-reconciliacion.service.ts:74-82 | when the loop reaches an account, it is still paid in full exactly when the money test passes on what it has paid by now and its latest accepted total; for an open row not reopened, exactly when the filter's own test would pass again |
| TeoremasDelCron.ElUltimoEventoDecide | apps/servicio-caja/src/app/app.service.ts:732-764 | in every reachable state, an account is paid in full for registrarPago exactly when its latest PagoRegistrado announced at most a cent pending |
| TeoremasDelCron.DejaDeEstarCobradaSii | apps/servicio-caja/src/app/app.service.ts:638-752 | an account paid in full stops being so in exactly one kind of step: an accepted payment of it that leaves more than a cent owing |
| TeoremasDelCron.HastaElCierreSigueCobrada | apps/servicio-caja/src/app/cierre-reconciliacion.service.ts:74-102 | whatever the totals do, an account not reopened when it was picked is paid in full at every moment until the close, unless a payment accepted since left more than a cent owing |
| TeoremasDelCron.ElCronSoloCierraCobradas | apps/servicio-caja/src/app/cierre-reconciliacion.service.ts:74-102 | with fixed totals, an account not reopened when it was picked is settled at every moment until the cron closes it, whatever happens in between |
| ContraejemplosDelCron.PagoEntreEleccionYCierre | apps/servicio-caja/src/app/cierre-reconciliacion.service.ts:74-82 | without any reopening, a reachable state in which the cron closes an account that owes 3.00: picked when paid, then charged on a larger total |
| Contraejemplos.ReabiertaPuedeCerrarseConDeuda | apps/servicio-caja/src/app/events.controller.ts:34-38 | a reachable state in which the cron picks a reopened account that still owes money |
| Invariante.InvAlLlegar | apps/servicio-caja/src/app/events.controller.ts:34-54 | both account events, at any time and any number of times, keep the whole invariant; a late CuentaAbierta only marks the account as reopened |
| Proyeccion.LlegadasEnCualquierOrden | apps/servicio-caja/src/app/events.controller.ts:34-54 | events of different accounts commute; of one account the last to arrive decides, and a close that comes before the row exists leaves no trace |
| Reconciliacion.UnTick | apps/servicio-caja/src/app/cierre-reconciliacion.service.ts:36-103 | one tick tries min(20, k) of the k accounts to repair, none twice, and exactly those whose remote close works stop needing repair |
| Reconciliacion.TicksVacianLaVentana | apps/servicio-caja/src/app/cierre-reconciliacion.service.ts:72-102 | with the remote up and no new payments, n ticks leave max(0, k - 20 n) accounts and never close one twice |
| Ventanas.EnLaVentanaSii | apps/servicio-caja/src/app/cierre-reconciliacion.service.ts:44-51 | with equal dates told apart by position in the table: an account is a candidate exactly when it has an old payment and fewer than 100 other accounts have one after its last |
| Empates.EnTodaVentanaYEnNinguna | apps/servicio-caja/src/app/cierre-reconciliacion.service.ts:44-51 | by date alone, whatever the database does with equal dates: an account with an old payment is always in the window exactly when fewer than 100 others have one no earlier than its last, and never exactly when 100 have a later one |
| Empates.PorFechaEnTodaCorrida | apps/servicio-caja/src/app/cierre-reconciliacion.service.ts:44-51 | in every run the payments stand in the table in the order of their dates |
| Empates.CandidatasEsVentana | apps/servicio-caja/src/app/cierre-reconciliacion.service.ts:44-51 | in every reachable state the model's candidates are one of the windows the database may choose |
| Ventanas.PorCerrarSii | apps/servicio-caja/src/app/cierre-reconciliacion.service.ts:44-72 | the accounts the cron can repair, exactly: open row, paid up to a cent, all payments old, displaced by fewer than 100 others |
| Ventanas.LaVentanaAlcanza | apps/servicio-caja/src/app/cierre-reconciliacion.service.ts:44-72 | with at most 100 accounts with old payments, a quiet account is up for repair exactly when its row is open and paid up to a cent |
| Ventanas.TodasCerradasTrasLosTicks | apps/servicio-caja/src/app/cierre-reconciliacion.service.ts:36-103 | with the remote up, no new payments and at most 100 accounts, ceil(k / 20) ticks close the k open accounts paid in full, each once, and touch no other row |
| Ventanas.QuienSaleNoVuelve | apps/servicio-caja/src/app/cierre-reconciliacion.service.ts:44-51 | payments are never deleted, so an account displaced by 100 others stays displaced until it pays again, however the clock moves |
| TeoremasDelCron.DesplazadaParaSiempre | apps/servicio-caja/src/app/cierre-reconciliacion.service.ts:44-82 | with fixed totals, once a settled account is displaced by 100 others no tick started later lists it, and a cron process that has it among its ids, aggregates or list already had it at the displacement, having read its window before |
| ContraejemplosDelCron.LaQueYaFueMiradaSeCierra | apps/servicio-caja/src/app/cierre-reconciliacion.service.ts:44-82 | that exception is real: a reachable state with fixed totals in which a settled, displaced account is put on the list of a process that read its window the instant before |
| ContraejemplosDelCron.LaVentanaDejaFuera | apps/servicio-caja/src/app/cierre-reconciliacion.service.ts:44-72 | a reachable desk, all payments at different dates, with an open account paid in full that no tick lists and no window has once the last payment is old |
| Invariante.InvAlEjecutar | apps/servicio-caja/src/app/app.service.ts:558-800 | every step of the machine keeps the whole invariant |
| Invariante.InvEnTodaCorrida | apps/servicio-caja/src/app/app.service.ts:558-1050 | the invariant holds after every run |
| ServicioCajas.ConjuntoDetectaRepetidos | apps/servicio-caja/src/app/app.service.ts:826-829 | the set of methods is smaller than the list exactly when a method repeats |
| ServicioCajas.ServicioCaja.Verificar | apps/servicio-caja/src/app/app.service.ts:659-680 | the guards in the source's order give the specified refusal |
| ServicioCajas.ServicioCaja.TransaccionPago | apps/servicio-caja/src/app/app.service.ts:638-752 | the whole new state of an accepted payment, or the old state and the refusal |
| ServicioCajas.ServicioCaja.TransaccionCombinada | apps/servicio-caja/src/app/app.service.ts:885-998 | the loop books all parts as specified, or nothing changes |
| ServicioCajas.ServicioCaja.RegistrarPago | apps/servicio-caja/src/app/app.service.ts:558-800 | accepted exactly when the account was read, is of the user's branch, that branch has an open shift and the amount fits; then the new Transaccion carries the command's account, amount, method and notes and the account's branch, its VENTA movement the method, tip and motivo, its event the method, amount and balance, and a settled account whose remote close worked is CERRADA at its net total; queued exactly when no shift is open; a refusal changes nothing |
| ServicioCajas.ServicioCaja.ValidarCombinado | apps/servicio-caja/src/app/app.service.ts:822-841 | the checks before any read, in order; passed exactly by two or more parts, no method twice, positive amounts and tips not negative, all in whole cents |
| ServicioCajas.ServicioCaja.RegistrarPagoCombinado | apps/servicio-caja/src/app/app.service.ts:809-1050 | accepted exactly when its parts and discount are well formed, the account is of the user's branch with an open shift and the sum fits; then exactly one Transaccion, movement and event per part, the i-th with that part's method, amount, tip and label i of n, and what the account has paid grows by the sum of the parts; a refusal changes nothing |
| ContratosDePago.RegistrarPagoCumple | apps/servicio-caja/src/app/app.service.ts:558-800 | the same of registrarPago as the drain of the queue and the machine run it, with the conditions of CuentaNoEncontrada, CuentasNoDisponible and OtraSede |
| ContratosDePago.RegistrarPagoCombinadoCumple | apps/servicio-caja/src/app/app.service.ts:809-1050 | the same of registrarPagoCombinado, with the conditions of SinTurno and DescuentoInvalido |
| ContratosDePago.RechazoPrevioSii | apps/servicio-caja/src/app/app.service.ts:822-841 | each refusal before any read exactly when it should be: fewer than two parts; a repeated method; an amount not positive or a negative tip; fractions of a cent |
| ServicioCajas.ServicioCaja.ProcesarPagosPendientes | apps/servicio-caja/src/app/app.service.ts:228-288 | the loop over the waiting rows is the specified drain, failed outcome writes included; with a shift open, every row it leaves PROCESADO names the Transaccion of its own command |
| ServicioCajas.ServicioCaja.AtenderFila | apps/servicio-caja/src/app/app.service.ts:234-286 | claim, attempt and outcome of one row, the failed first write and its catch included |
| ServicioCajas.ServicioCaja.InsertarTurno | apps/servicio-caja/src/app/app.service.ts:124-166 | the insert succeeds exactly when the branch has no open shift, and appends the open shift, its EFECTIVO opening movement of the float, and the event |
| ServicioCajas.ServicioCaja.AbrirTurno | apps/servicio-caja/src/app/app.service.ts:104-186 | with both lookups possibly stale and the violation thrown on when the second finds nothing; unless a lookup was stale, a shift is open at the end, its own or the race's winner, and no payment of the branch waits |
| ServicioCajas.ServicioCaja.SumDenominaciones | apps/servicio-caja/src/app/app.service.ts:1224-1231 | the counted cash is that of the entries with finite numbers and no negative count |
| ServicioCajas.ContadoDeUna | apps/servicio-caja/src/app/app.service.ts:1224-1231 | an entry adds value times count when both are finite and the count is not negative, and nothing otherwise |
| ServicioCajas.ServicioCaja.CerrarTurno | apps/servicio-caja/src/app/app.service.ts:451-552 | TurnoNoEncontrado exactly when the shift does not exist or is of another branch, TurnoYaCerrado when it is closed, CuentasSinCobrar when servicio-cuentas reports an unpaid account; in every other case, an unreachable servicio-cuentas included, the shift closes with expected cash, counted cash and their difference, and its event; a refusal changes nothing |
| ServicioCajas.ServicioCaja.CrearMovimiento | apps/servicio-caja/src/app/app.service.ts:394-417 | accepted exactly on an open shift of the user's branch; lowers that shift's expected cash by the size of an EGRESO and raises it by that of anything else, leaves every other shift's cash and all sales alone, and keeps the drawer's invariant |
| ServicioCajas.ServicioCaja.ActualizarTransaccion | apps/servicio-caja/src/app/app.service.ts:1095-1127 | a refusal, or only method and notes of that Transaccion changed to those given, the method of every movement that names it, and nothing else |
| ServicioCajas.ServicioCaja.HandleCuentaAbierta | apps/servicio-caja/src/app/events.controller.ts:34-38 | the account is open in the event's branch with the total its row had, or 0; the others stay; a second delivery changes nothing; the money rules survive with the account marked as reopened when its row was not open |
| ServicioCajas.ServicioCaja.HandleCuentaCerrada | apps/servicio-caja/src/app/events.controller.ts:51-61 | a known account is closed with the event's total, an unknown one is not created, the others stay; a second delivery changes nothing; the money rules survive |
| ServicioCajas.ServicioCaja.ReconciliarCierresPendientes | apps/servicio-caja/src/app/cierre-reconciliacion.service.ts:36-103 | one tick of the cron; it reports at most 20 and exactly the number of accounts that needed the repair before and no longer do |
| ServicioCajas.ServicioCaja.PorMetodo | apps/servicio-caja/src/app/app.service.ts:1178-1182 | the accumulated total of every method |
| ServicioCajas.ServicioCaja.BuildResumen | apps/servicio-caja/src/app/app.service.ts:1169-1207 | every figure of the summary, comprobantes being the accounts its sales name plus its sales without one; with sales and transacciones in agreement, totals and comprobantes read off the transacciones |
| Outbox.TomarTomaLasMasViejas | stress-tests/run-outbox-replicas.js:43-52 | a claim takes at most its limit of unlocked PENDING rows, oldest first, and misses none when it is not full |
| Outbox.InvAlEjecutar | libs/resiliencia/src/lib/outbox.processor.ts:151-211 | every step keeps the bound on publications still possible and the meaning of each status |
| Outbox.EntregaEnTodaCorrida | libs/resiliencia/src/lib/outbox.processor.ts:151-236 | with deaths, failures and rescues of live replicas: publications <= 1 + rescues + returns after failure; PROCESSED was published; FAILED had an unknown key and no publication, or five failures; no two claims hold one row |
| Outbox.LasFilasSonLasInsertadas | libs/resiliencia/src/lib/outbox.processor.ts:160-172 | in every run the table holds the inserted events, all and in order, each with its key known or unknown as inserted |
| Outbox.NadaSePierde | stress-tests/run-outbox-replicas.js:43-57 | with deaths and rescues only, no event leaves PENDING, PUBLISHING or PROCESSED and publications <= 1 + rescues |
| Outbox.LaRescatadaVuelveATomarse | stress-tests/run-outbox-replicas.js:54-57 | a rescued row is PENDING again and is taken by the next claim with room for it |
| Outbox.LaMuerteSueltaLosBloqueos | stress-tests/run-outbox-replicas.js:43-52 | a replica that dies frees the rows it had locked and nothing else, and the rows it had claimed stay PUBLISHING |
| OutboxFeliz.LoTerminadoNoSeMueve | libs/resiliencia/src/lib/outbox.processor.ts:181-208 | without rescues, PROCESSED and FAILED are final whatever dies or fails |
| OutboxFeliz.UnFalloMas | libs/resiliencia/src/lib/outbox.processor.ts:160-206 | a failure leaves the row with one attempt more than its replica had read, FAILED exactly when its key is unknown or that makes five and PENDING otherwise; no other row changes |
| OutboxFeliz.FallidaSiiCinco | libs/resiliencia/src/lib/outbox.processor.ts:151-211 | in every run without rescues attempts equal failures, and a row is FAILED exactly when it failed once with an unknown key or five times with a known one, which is the most it ever fails |
| OutboxFeliz.ExactamenteUnaVez | stress-tests/run-outbox-replicas.js:86-137 | any replicas, any interleaving: batches disjoint, nothing published twice; once all have stopped, every seeded event is in a batch, PROCESSED, and published exactly once |
| OutboxFeliz.SiempreSePuedeTerminar | stress-tests/run-outbox-replicas.js:86-107 | wherever such a run stands, it can be carried on until every replica has stopped |
| OutboxFeliz.SeDetieneALaTercera | stress-tests/run-outbox-replicas.js:86-107 | with nothing left to claim a replica stops at its third empty claim and not before |
| OutboxFeliz.AvanzarBaja | stress-tests/run-outbox-replicas.js:86-107 | every step that does anything lowers the draining measure |
| OutboxFeliz.DrenarTermina | stress-tests/run-outbox-replicas.js:86-107 | draining n events takes at most 4n such steps |
| OutboxFeliz.SiempreHayAvance | stress-tests/run-outbox-replicas.js:86-107 | while an event is not PROCESSED, some replica can advance |
| Drenaje.Tienda.ClaimBatch | stress-tests/run-outbox-replicas.js:43-52 | the claim in place: which rows, in which order, and the new table |
| Drenaje.Tienda.MarkProcessed | stress-tests/run-outbox-replicas.js:54-57 | exactly the named rows become PROCESSED |
| Drenaje.Tienda.Rescatar | stress-tests/run-outbox-replicas.js:159-164 | exactly the old PUBLISHING rows return to PENDING, and it says how many |
| Drenaje.Tienda.DrainWorker | stress-tests/run-outbox-replicas.js:86-107 | stops, with every row that was PENDING now PROCESSED and its name once more in claimedBy, and nothing else changed |
| ClienteHttp.UltimoEsElPrimeroQueVale | apps/pwa-cliente/src/api/client.ts:235-261 | the attempt loop goes on exactly over retryable failures and stops early only at an answer |
| ClienteHttp.CotaDeFetches | apps/pwa-cliente/src/api/client.ts:271-320 | at most 6 fetches per call, 2 without key or GET (the second only after a 401), at most one refresh, one 401 in the middle at most, and the outcome is that of the last fetch |
| ClienteHttp.RondasDeUnaLlamada | apps/pwa-cliente/src/api/client.ts:235-306 | exactly which fetches a call makes: one round of up to three (GET or with a key) or of one; a refresh exactly after a final 401 outside the session routes; and one more round exactly when it brought a token |
| ClienteHttp.SeisFetchesSonPosibles | apps/pwa-cliente/src/api/client.ts:235-290 | the bound of 6 is reached |
| ClienteHttp.LoContestadoNoSeRepite | apps/pwa-cliente/src/api/client.ts:241-290 | after an answer below 500 other than 401 nothing is sent again |
| ClienteHttp.Cliente.FetchWithRetry | apps/pwa-cliente/src/api/client.ts:235-261 | the loop sends this very request until the specified fetch and returns its answer |
| ClienteHttp.Cliente.Request | apps/pwa-cliente/src/api/client.ts:309-320 | fetches, refreshes, token, expiry events and outcome of a call, recursion included; the outcome is that of the last answer: 2xx, any other status, no response, or the exception |
| ClienteHttp.Cliente.HandleResponse | apps/pwa-cliente/src/api/client.ts:271-306 | the 401 branch: one refresh and one second round, or the session expires |
| ClienteHttp.Cliente.Post | apps/pwa-cliente/src/api/client.ts:349-370 | at most 6 attempts, all POST to this path with the same key, the caller's when there is one and the new one otherwise; at most one refresh; token and expiry of the session follow the outcome |
| ClienteHttp.Cliente.SinClave | apps/pwa-cliente/src/api/client.ts:372-380 | one attempt, two exactly when the first met a 401 outside the session routes and the refresh worked |
| Refresco.UnSoloRefrescoEnVuelo | apps/pwa-cliente/src/api/client.ts:132-158 | in every run at most one refresh is in flight, and whoever asks meanwhile is handed its promise |
| Refresco.QuienEsperaRecibeElToken | apps/pwa-cliente/src/api/client.ts:132-158 | the answer of the refresh in flight reaches everyone who was handed its promise and nobody else, a token is kept and a failure keeps the old one, and the next to ask starts a new refresh |
| Refresco.AtascadoSiiCookieIlegible | apps/pwa-cliente/src/api/client.ts:132-158 | the slot gets stuck exactly when some refresh started over a cookie that cannot be read |
| Refresco.AtascadoParaSiempre | apps/pwa-cliente/src/api/client.ts:133-157 | once stuck, no refresh ever starts again |
| AgenteImpresion.Agente.Run | apps/agente-impresion/src/main.ts:21-55 | every event of the run is the one the protocol dictates, with the answer the network or the printer gave at that moment, up to the stop |
| AgenteImpresion.Agente.Reconocer | apps/agente-impresion/src/main.ts:38-48 | the inner loop repeats the same ack until it is accepted, refused with 409, or the agent stops |
| AgenteImpresion.CorridaEnProtocolo | apps/agente-impresion/src/main.ts:21-55 | no such run leaves the protocol |
| AgenteImpresion.LoQueSigue | apps/agente-impresion/src/main.ts:21-55 | what follows each event: a job is printed at once, a print is acknowledged with its result, everything else is followed by a pause, and a pause by the same ack when it failed and by the next query otherwise |
| AgenteImpresion.CadaTrabajoSeImprimeUnaVez | apps/agente-impresion/src/main.ts:25-35 | a lease is received exactly where its one print follows |
| AgenteImpresion.AckRepiteElResultado | apps/agente-impresion/src/main.ts:36-48 | every ack repeats the result of the last print, and only its own failed acks lie in between |
| AgenteImpresion.SoloPideCuandoTodoEstaResuelto | apps/agente-impresion/src/main.ts:36-53 | work is asked for only when every earlier job was acknowledged or refused with 409 |
| Paginacion.LimiteNormalizado | apps/servicio-compras/src/app/insumos.service.ts:179-183 | absent or not finite gives 20, out of bounds the nearest bound, else the whole part; it is the limit asked for exactly when that is a whole number within bounds |
| Paginacion.UnaPagina | apps/servicio-compras/src/app/insumos.service.ts:44-52 | the cursor of a row finds exactly the page after it |
| Paginacion.PaginaDeCualquierCursor | apps/servicio-compras/src/app/insumos.service.ts:44-52 | for any cursor: the page starts after the first row it names, or at the start when it is absent, empty or nobody's; it holds the next rows up to the limit and names the last when rows are left |
| Paginacion.IdsUnicosAlFiltrar | apps/servicio-compras/src/app/insumos.service.ts:40-42 | the low-stock filter keeps exactly the rows at or below their minimum, without repetition |
| Paginacion.PaginasEsTecho | apps/servicio-compras/src/app/insumos.service.ts:44-52 | the page count is max(1, ceil(n / limit)) |
| Paginacion.PaginarNoPierdeNiRepite | apps/servicio-compras/src/app/insumos.service.ts:40-52 | for every requested limit, following nextCursor gives the filtered list once, in order, in that many pages |
| Paginacion.RecorrerPaginas | apps/pwa-cliente/src/api/inventario.api.ts:126-142 | the client loop is the specified walk and respects its page budget |
| Paginacion.GetTodosLosProductos | apps/pwa-cliente/src/api/inventario.api.ts:126-142 | against any server: at most 20 requests, each with the cursor of the page before, ending at the first page without cursor or rows; what it returns is those pages in order |
| Paginacion.TodosLosProductosSiiCaben | apps/pwa-cliente/src/api/inventario.api.ts:114-142 | the whole list exactly when it has at most 10 000 rows, else its first 10 000 |
| Temporadas.RangoEsLaUltimaInstancia | apps/pwa-cliente/src/utils/periodos.ts:49-73 | the range starts with the latest instance begun by today and ends at today or at its end, so desde <= hasta <= today; the last fallback is never taken |
| Temporadas.CadaDiaEsDeUnaSolaTemporada | apps/pwa-cliente/src/utils/periodos.ts:42-64 | every day lies in the current instance of exactly one season |

## Left out

- Amounts finer than a cent in single payments, which the service does not refuse; a combined command's are refused as in the code.
- Number arithmetic: the cron's test and the summary's porMetodo add floats; the model adds exactly.
- Postgres isolation: each `$transaction` is one atomic step, a unique index is a guard on the insert, and the advisory lock is that atomicity.
- Rows the database returns without an order are given to the cron as an arbitrary order; the movements of a shift are summed in insertion order.
- A remote close that works while the local update after it fails counts as a failed close.
- Denormalised columns (mesa, mesero, correlativo, comprobante, document, reference, user and cashier names) and the ticket.
- resolveSedeId: the branch is a parameter, and a missing branch in an answer or event already stands for the main one.
- ServicioCajas.ServicioCaja.CerrarTurno: the stored arqueo row and the stored summary are not modelled.
- ServicioCajas.ServicioCaja.AtenderFila: the write inside the catch does not fail; the code would then abandon the rest of the drain, which the machine has as a death.
- ServicioCajas.ServicioCaja.ProcesarPagosPendientes: as AtenderFila.
- registrarArqueo, the listings, the resumen cache, DTO mappers, logs and metrics: no state of the protocol.
- Teoremas.ElCronSoloEligeCobradas: is about the pick and says nothing of reopened accounts; AlElegirDecideElNeto covers those, AlCerrarDecideElFiltroDeNuevo and ElCronSoloCierraCobradas the close.
- Ventanas.EnLaVentanaSii: with equal dates the query may choose and the model takes the later row of the table, so it and what rests on it (PorCerrarSii, QuienSaleNoVuelve, DesplazadaParaSiempre) speak of that choice; EnTodaVentanaYEnNinguna holds for every choice.
- Refresco.AtascadoSiiCookieIlegible: any other synchronous throw before the first await, such as a missing AbortSignal.timeout, fills the slot in the same way.
- Outbox.EntregaEnTodaCorrida: any PUBLISHING row may be rescued, not only those older than a minute; the broker pause, the purge, and consumers' deduplication are not modelled.
- Drenaje.Tienda.DrainWorker: one worker alone; several at once are the subject of OutboxFeliz.
- ClienteHttp: timeouts, backoff delays, body parsing, CSRF and branch parameters, and requestBlob, which repeats the same round without the session-path check.
- Paginacion: the where clause and the ordering of the query are its input; ids are unique and not empty, as uuids are.
- Temporadas: years below 101 and clock changes; the week, month, quarter, year and whole presets.
- Services other than those named (cuentas, pedidos, inventario stock, reservas, facturación).
