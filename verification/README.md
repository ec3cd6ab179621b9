# Property-management ledger: a verified model

The system keeps the books of a rental agency. Journal entries (*asientos*) are made of DEBE lines, which a tenant or
owner owes, and HABER lines, which are owed to an owner or to the agency. Payments fill the DEBE lines, settlements pay
the HABER lines, debts can be forgiven, entries annulled, and rents adjusted by an index; every movement of cash goes
through a financial account. Contracts are turned into entries by two independent generators. Around this there are
receipts, statements of account, a payment import, cash-box sessions, tax-identifier checks and a billing projection.

This project models those parts in Dafny and proves what holds of them on every input and in every run. Where a
claim one would expect is false of the code, the model keeps what the code does and proves exactly when the claim holds.
Counterexamples.dfy has a concrete input on which each of them fails, beside the name of the lemma that says when; three
more stand next to theirs (`Imputation.PedidoNegativoRompe`, `Generator.CuotasDeMas`,
`DetectedExpenses.TresPartesIguales`).

Check everything with `dafny verify dfyconfig.toml`.

## Layout

| file | contents |
|---|---|
| Common.dfy, Dates.dfy | sums, rounding, calendar months with clipped days |
| Entries.dfy | entries, lines, change log, soundness of a line |
| Imputation.dfy | the in-place loops over lines and their closed forms |
| Ledger.dfy | the service: stored state, operations, errors |
| Operations.dfy | what each operation answers and stores, on the fields of an entry; collecting and settling in either order |
| Payments.dfy, Settlements.dfy | conservation, splitting, repetition and order of operations |
| Runs.dfy | invariants and cash over whole runs |
| Receipts.dfy | receipts of many lines |
| Statement.dfy | statements of account, shares, balances, pending settlements |
| Adjustment.dfy | adjustment periods, rents by index, accrual |
| Generator.dfy, GeneratedEntries.dfy | entries of a contract and their properties |
| Parties.dfy | who owes and is due what in the generated entries, when and how much |
| DirectGenerator.dfy | the second generator and its comparison with the first |
| ImportPayments.dfy | consolidated import of legacy payments |
| Cuit.dfy, Regression.dfy, CashBox.dfy, DetectedExpenses.dfy | tax identifiers, projection, cash box, shared invoices |
| Counterexamples.dfy | inputs on which expected claims fail |

## Conventions

- Money is a real number of centavos, so the tolerance of one peso is 100. Amounts are rounded only where the code
  rounds, to the nearest centavo with halves up. The billing projection works in pesos and rounds to whole ones.
- The database is a map from identifiers to entries and balances. An operation reads an entry, works on a copy of its
  lines and saves it at the end; a failure before that stores nothing.
- An entry starts as its creators store it: pending, nothing paid or settled, one side per line, no negative amount.
  That the current amount equals the DEBE total is assumed only where a property says so.
- Requests to settle are any number. Whole-run properties assume they are not negative; what a negative one does is
  stated exactly (`Imputation.LiquidarConserva`).
- The index, the current date and the percentages declared by properties are parameters.

## Where the code differs from its documentation

- `doc/ESTADO_CUENTA_API.md:187` promises settlements in proportion to what was collected. The code settles the whole
  HABER; the two agree exactly when what is collected makes up the HABER total (`Statement.LiquidacionProporcional`).
- The comment at `src/modules/cash-box/cash-box.service.ts:196-200` says that a surplus debits cash. The code credits
  it (`CashBox.AjusteBalanceado`).
- The comment at `src/modules/contracts/contract-reports.service.ts:328` announces last value plus slope times months
  ahead. The code counts the slope again from each projected value (`Regression.ProyeccionLineal`).
- The month count in the description of a rent can be short of the rents generated when the start day is clipped
  (`Generator.CuotasSonMeses`).

## Model

| member | source | states |
|---|---|---|
| Imputation.ImputarEnDebe | src/modules/accounting-entries/accounting-entries.service.ts:1177-1188 | the in-place collection loop leaves on every line its closed-form share: what the earlier open lines leave of the amount, up to its own debt |
| Imputation.ImputarSuma | src/modules/accounting-entries/accounting-entries.service.ts:1175-1194 | the paid totals grow by the amount, or by all that was owed when that is less |
| Imputation.ImputarComposicion | src/modules/accounting-entries/accounting-entries.service.ts:1177-1188 | two fills in a row are one fill of the sum, line by line |
| Imputation.LiquidarEnHaber | src/modules/accounting-entries/accounting-entries.service.ts:1433-1469 | the HABER loop with its early exit settles each line by the closed form of the request, for an absent, zero, positive or negative request, and returns the sum |
| Imputation.CompensarEnDebe | src/modules/accounting-entries/accounting-entries.service.ts:1471-1499 | the agent's debts are discounted in full, no other line changes, and the total is what they owed |
| Imputation.LiquidarConserva | src/modules/accounting-entries/accounting-entries.service.ts:1432-1469 | settlement keeps every line within its amounts if and only if the request is not negative, or no credit is open, or the first open line has that much settled |
| Imputation.PedidoNegativoRompe | src/modules/accounting-entries/dto/liquidar-asiento.dto.ts:22-24 | a negative request, which the input type admits, takes a line below zero |
| Ledger.LedgerService.UpdateBalance | src/modules/financial-accounts/financial-accounts.service.ts:71-100 | adds, subtracts or sets the balance of an existing account; a missing account changes nothing |
| Ledger.LedgerService.RegisterPayment | src/modules/accounting-entries/accounting-entries.service.ts:1108-1243 | the stored state becomes the payment step, or stays as it was with the same error |
| Ledger.LedgerService.CondonarDeuda | src/modules/accounting-entries/accounting-entries.service.ts:1297-1382 | the same for forgiveness, the zero and absent amounts included |
| Ledger.LedgerService.LiquidarPropietario | src/modules/accounting-entries/accounting-entries.service.ts:1389-1571 | the same for settlement, cash included; an account that is missing matters only when something is paid |
| Ledger.LedgerService.AnularAsiento | src/modules/accounting-entries/accounting-entries.service.ts:1248-1292 | the same for annulment |
| Ledger.LedgerService.ActualizarPendientesAjuste | src/modules/accounting-entries/accounting-entries.service.ts:43-85 | every pending entry of the contract with an index for its due month is adjusted, in whatever order they are visited, and nothing else; the identifiers returned are those of the entries that changed, each once |
| Ledger.Buscar | src/modules/accounting-entries/accounting-entries.service.ts:57-61 | finds the first index of the month, or none exactly when the list has none |
| Payments.PagoSeImputaEntero | src/modules/accounting-entries/accounting-entries.service.ts:1128-1194 | the cash taken equals the debt cleared if and only if the DEBE side is still open or nothing is paid |
| Payments.PagoPartido | src/modules/accounting-entries/accounting-entries.service.ts:1143-1243 | paying a then b is paying a + b: lines, estado and cash; the acceptance is the same if and only if a leaves DEBE open, or b is zero, or b is above the HABER total (else two payments pass that one does not) |
| Payments.PagoTotalCobra | src/modules/accounting-entries/accounting-entries.service.ts:1212-1230 | paying all that is open fills every DEBE line, and closes the entry as collected if and only if its current amount is not above its DEBE total |
| Payments.CondonacionExacta | src/modules/accounting-entries/accounting-entries.service.ts:1319-1350 | accepted forgiveness moves no cash and clears exactly its amount, up to what is open |
| Payments.CondonacionTotal | src/modules/accounting-entries/accounting-entries.service.ts:1319-1363 | forgiving everything is accepted on any entry neither annulled nor forgiven, and ends in CONDONADO if and only if the original amount is not above the DEBE total |
| Operations.PagoResponde | src/modules/accounting-entries/accounting-entries.service.ts:1108-1243 | each answer of a payment on the fields of a sound entry, and what an accepted one stores: PAGADO if the current amount is collected and every HABER line settled, COBRADO if some is not, PAGADO_PARCIAL otherwise |
| Operations.PagoTotalEstado | src/modules/accounting-entries/accounting-entries.service.ts:1212-1223 | paying all that is open ends PAGADO if and only if the current amount is not above the DEBE total and every HABER line was settled, COBRADO if and only if only the first holds |
| Operations.CondonacionResponde | src/modules/accounting-entries/accounting-entries.service.ts:1297-1382 | each answer of a forgiveness and what an accepted one stores |
| Operations.AnulacionResponde | src/modules/accounting-entries/accounting-entries.service.ts:1248-1292 | only an entry PAGADO or ANULADO is rejected; an annulment keeps the lines |
| Operations.AjusteResponde | src/modules/accounting-entries/accounting-entries.service.ts:52-81 | an entry of the contract that waits for its index takes original amount times the first value published for its due month; any other one stays as it is |
| Settlements.LiquidacionTotal | src/modules/accounting-entries/accounting-entries.service.ts:1405-1509 | a full settlement closes every line of the agent, touches no other, and nets open HABER less open DEBE |
| Operations.LiquidacionResponde | src/modules/accounting-entries/accounting-entries.service.ts:1389-1571 | each answer of a full settlement on the fields: an agent with lines on either side is accepted, one without any is rejected, each line of it is closed, no other moves, and what was open on balance is taken from the account whichever its sign |
| Operations.CobrarYLiquidar | src/modules/accounting-entries/accounting-entries.service.ts:1108-1571 | an entry as created with one creditor that owes nothing, collected in full and then settled in full, ends PAGADO with every line closed |
| Operations.LiquidarYCobrar | src/modules/accounting-entries/accounting-entries.service.ts:1108-1571 | and so it does when the settlement is in advance |
| Settlements.LiquidacionParcial | src/modules/accounting-entries/accounting-entries.service.ts:1432-1469 | a positive request settles exactly that amount, or all that is open |
| Settlements.LiquidacionRepetida | src/modules/accounting-entries/accounting-entries.service.ts:1453-1527 | settling again is accepted and moves no line and no cash; the estado is recomputed |
| Settlements.LiquidarComposicion | src/modules/accounting-entries/accounting-entries.service.ts:1433-1499 | settling p and then q of one agent is settling p + q, line by line |
| Settlements.LiquidacionPartida | src/modules/accounting-entries/accounting-entries.service.ts:1389-1571 | on the store too, with the same cash if and only if the first covers what the agent owes or leaves nothing open, and the same estado if and only if the entry was not COBRADO or the first leaves credit open |
| Settlements.EgresoConSigno | src/modules/accounting-entries/accounting-entries.service.ts:1503-1527 | a settlement moves the account by its net with the sign if and only if what is compensated does not exceed what is settled |
| Settlements.OrdenDeLiquidacion | src/modules/accounting-entries/accounting-entries.service.ts:1389-1571 | settlements of two agents, for any requests, are accepted in both orders or in neither, with the same lines and cash |
| Settlements.EstadoSegunOrden | src/modules/accounting-entries/accounting-entries.service.ts:1543-1554 | for any two requests, when the estado depends on the order of the settlements, by conditions on the lines before them |
| Settlements.EstadoNoConmuta | src/modules/accounting-entries/accounting-entries.service.ts:1543-1554 | for requests that are not negative the estado is the same in both orders if and only if the entry was not COBRADO, or both settlements close all credit by themselves, or neither does |
| Runs.CorridaSana | src/modules/accounting-entries/accounting-entries.service.ts:1177-1230 | in every run of the five operations each line keeps 0 <= paid <= debe and 0 <= settled <= haber, the estado tells the truth, the log is a legal path ending in the current estado, and amounts, parties and log entries are never taken back |
| Runs.CobradoEsCompleto | src/modules/accounting-entries/accounting-entries.service.ts:1212-1230 | in every run from entries as created, COBRADO or PAGADO with the current amount equal to the DEBE total means every DEBE line paid in full |
| Runs.NuncaCobrado | src/modules/accounting-entries/accounting-entries.service.ts:1212-1230 | an entry adjusted above its DEBE total becomes COBRADO or PAGADO in no run |
| Runs.AnuladoSoloSeLiquida | src/modules/accounting-entries/accounting-entries.service.ts:1389-1403 | an annulled entry changes if and only if a settlement asks for an agent with lines on it and an account that exists if anything is paid |
| Runs.AnuladoEnCorrida | src/modules/accounting-entries/accounting-entries.service.ts:1121-1125 | in every run without settlements on it an annulled entry stays as it was |
| Runs.AnuladoNoEsTerminal | src/modules/accounting-entries/accounting-entries.service.ts:1532-1554 | and leaves ANULADO if and only if that settlement would leave every HABER line within one peso |
| Runs.CorridaEnCaja | src/modules/accounting-entries/accounting-entries.service.ts:1232-1240 | in every run the cash in all accounts moves by exactly what the change logs record |
| Receipts.ProcesarRecibo | src/modules/accounting-entries/accounting-entries.service.ts:1681-1764 | the line loop with error isolation leaves the state of running the lines in order and reports the outcome of each and the two totals |
| Receipts.CajaDelRecibo | src/modules/accounting-entries/accounting-entries.service.ts:1687-1740 | a receipt moves its account by processed collections of entries with DEBE less the nets of processed settlements, and no other account; on a missing account those come to nothing |
| Receipts.ReciboMixto | src/modules/accounting-entries/accounting-entries.service.ts:1687-1755 | a receipt of collections and settlements moves the net it reports plus the deviations of its lines, all read off the store before it: minus the amount for an accepted collection of an entry without DEBE, and for an accepted settlement its amount less what is open of the agent, the first time it comes up; so the report is right if and only if they cancel out. Earlier lines of the other kind on its entry must not bear on a line: a settled agent owes nothing there, an entry without DEBE is open for collection |
| Receipts.LineaFallidaNoGuarda | src/modules/accounting-entries/accounting-entries.service.ts:1731-1739 | a line in ERROR stores nothing |
| Receipts.LineaSinAgente | src/modules/accounting-entries/accounting-entries.service.ts:1703-1710 | a settlement line that names no agent is rejected |
| Receipts.ReciboSano | src/modules/accounting-entries/accounting-entries.service.ts:1681-1764 | receipts keep the ledger sound |
| Receipts.ReciboDeCobros | src/modules/accounting-entries/accounting-entries.service.ts:1690-1702 | a receipt of collections reports the cash it moves if and only if it has no collection of an entry without DEBE that takes a payment, as the entries stand before it |
| Receipts.ReciboDeLiquidaciones | src/modules/accounting-entries/accounting-entries.service.ts:1703-1722 | of a receipt of settlements, which lines are accepted and what each pays is read off the store before it: all that is open of the agent, the first time it comes up; so the report is right if and only if the accepted amounts add up to that |
| Statement.EstadoDeCuenta | src/modules/accounting-entries/accounting-entries.service.ts:397-652 | the nested loops give the four totals and, with running balances, the movements of the agent's lines of the chosen entries, filtered or not |
| Statement.UnAsientoEnElEstado | src/modules/accounting-entries/accounting-entries.service.ts:418-437 | an entry after the cut-off, or outside the range of dates, or annulled or forgiven and not asked for, changes neither totals nor movements; any other adds its lines in order |
| Statement.BalanceEntreFechas | src/modules/accounting-entries/accounting-entries.service.ts:893-918 | balances at two dates differ by exactly the live entries dated after the first and not after the second |
| Statement.CalcularBalance | src/modules/accounting-entries/accounting-entries.service.ts:893-918 | the balance up to a date is what the agent owes less what it may claim |
| Statement.FiltradosEnOrden | src/modules/accounting-entries/accounting-entries.service.ts:613-625 | the pending-only view keeps the order of the movements, each as often as it comes |
| Statement.PendientesOcultos | src/modules/accounting-entries/accounting-entries.service.ts:613-625 | the open items hidden by the pending-only view are exactly returned deposits |
| Statement.CuotaCompleta | src/modules/accounting-entries/accounting-entries.service.ts:527-564 | share plus pending share is the HABER of the line if and only if the entry balances; then no share exceeds its line |
| Statement.CuotasSuman | src/modules/accounting-entries/accounting-entries.service.ts:527-551 | the shares of an entry add up to what was collected |
| Statement.LiquidacionProporcional | src/modules/accounting-entries/accounting-entries.service.ts:1427-1441 | what a settlement pays a line is the proportional share offered if and only if what is collected makes up the HABER total or the entry is a returned deposit |
| Statement.DisponibleTrasLiquidar | src/modules/accounting-entries/accounting-entries.service.ts:543-551 | a settlement lowers what a line has available by what it settles there, and raises it by the share of the debt it compensates |
| Statement.AdelantoNegativo | src/modules/accounting-entries/accounting-entries.service.ts:543-551 | after a full settlement a line shows a negative amount available if and only if what was collected plus what the agent owes falls short of the HABER total |
| Statement.CondonadoSeReparte | src/modules/accounting-entries/accounting-entries.service.ts:533-546 | forgiven money is shared out as if collected: the shares grow by it although no cash comes in |
| Statement.BalancesParticionan | src/modules/accounting-entries/accounting-entries.service.ts:901-918 | the balances of all agents plus what lines without agent carry add up to the ledger's balance |
| Statement.PendientesDeLiquidacion | src/modules/accounting-entries/accounting-entries.service.ts:690-746 | the loops list each line of the agent with a positive available share in PAGADO or PAGADO_PARCIAL entries |
| Statement.ListadosEnOrden | src/modules/accounting-entries/accounting-entries.service.ts:690-746 | in order, each line as often as it comes |
| Statement.ListadosSegunEstado | src/modules/accounting-entries/accounting-entries.service.ts:690-746 | outside returned deposits the list is exactly the statement's positive availabilities of those entries, and no COBRADO entry is ever in it |
| Dates.WholeMonths | src/modules/contracts/contracts-migration.service.ts:490-493 | whole months between two dates: the last number of months that added to the first does not pass the second |
| Dates.CeilMonths | src/modules/contracts/contracts-migration.service.ts:646-649 | months rounded up: the first number of months that added to the first reaches the second |
| Dates.PlusMonths | src/modules/contracts/contracts-migration.service.ts:587-590 | adding months keeps the day, or takes the last one of a month that has no such day |
| Dates.FloorMonths | src/modules/contracts/contracts-migration.service.ts:490-493 | whole months between any two dates, by day: the last number that does not pass the end; backwards, the first that reaches |
| Dates.DiezDias | src/modules/contracts/contracts-migration.service.ts:735-736 | the due date comes ten days later, counted one by one |
| Dates.DiasDelAnio | src/modules/contracts/contracts-migration.service.ts:490-493 | months and leap years of the calendar |
| Adjustment.CalcularPeriodos | src/modules/contracts/contracts-migration.service.ts:453-485 | the period loop ends and gives the periods of the recursive definition |
| Adjustment.PeriodosEncadenados | src/modules/contracts/contracts-migration.service.ts:467-482 | each period but the last ends on its adjustment date, where the next one starts; none is empty |
| Adjustment.MesesDeCadaPeriodo | src/modules/contracts/contracts-migration.service.ts:467-482 | the months of each period are the whole months from its start to its end, by day |
| Adjustment.AjustesCadaSeisMeses | src/modules/contracts/contracts-migration.service.ts:467-482 | the first period of a month or more is adjusted on the first adjustment date, the later ones every six months |
| Adjustment.MesesDelContrato | src/modules/contracts/contracts-migration.service.ts:453-493 | for month-aligned dates the months of the periods add up to those between start and end if and only if no adjustment is dated before the start |
| Adjustment.CalcularDevengado | src/modules/contracts/contracts-migration.service.ts:364-433 | the accrual loop computes rent times months of each period, rounded where the code rounds |
| Adjustment.DevengadoFijo | src/modules/contracts/contracts-migration.service.ts:372-376 | a FIJO contract accrues its base for every whole month, by day |
| Adjustment.SinIndice | src/modules/contracts/contracts-migration.service.ts:398-423 | a missing or zero index leaves the rent as it was |
| Adjustment.RentaSigueAlIndice | src/modules/contracts/contracts-migration.service.ts:385-423 | with all index values published the rent of period k is within 1/2 * sum of I_k/I_j (j = 1..k) centavos of base * I_k / I_0 |
| Adjustment.DevengadoExacto | src/modules/contracts/contracts-migration.service.ts:385-432 | from a whole-centavo base the accrued total is exactly the sum of rent times months |
| Adjustment.IndiceConstanteEsFijo | src/modules/contracts/contracts-migration.service.ts:373-432 | with a constant index the indexed accrual is the FIJO one if and only if no adjustment is dated before the start |
| Generator.GenerarHistorial | src/modules/contracts/contracts-migration.service.ts:601-917 | the full-history generator: month loop, fee loops, number of entries and total of the rents, rounded month by month |
| Generator.AlquileresPorMes | src/modules/contracts/contracts-migration.service.ts:698-810 | exactly one rent per consecutive month from the start month, numbered from 1, all before the end, despite clipped days |
| Generator.CuotasSonMeses | src/modules/contracts/contracts-migration.service.ts:646-649 | the rents number totalMesesContrato if and only if the clipped day does not fall short of the end in the last month |
| Generator.CuotasSinRecorte | src/modules/contracts/contracts-migration.service.ts:646-698 | up to start day 28 they always do |
| Generator.CuotasDeMas | src/modules/contracts/contracts-migration.service.ts:698-810 | from January 31 to March 30 there is one rent too many |
| Generator.GenerarFuturos | src/modules/contracts/contracts-migration.service.ts:498-596 | the projection loop gives one entry per month from next month to the end, and their total |
| Parties.FuturosPorMes | src/modules/contracts/contracts-migration.service.ts:521-590 | the projection has one rent on the first of each month after today and before the end, at the base rent, and no more |
| Generator.GenerarApertura | src/modules/contracts/contracts-migration.service.ts:248-359 | the opening entry carries the amount accrued until today; none for a future start or a zero accrual |
| Generator.ProcesarContrato | src/modules/contracts/contracts-migration.service.ts:157-243 | the rejection of a contract that has entries, both strategies and the deposit: the entries stored, and the number and money reported; a simulation stores nothing |
| GeneratedEntries.InformeExacto | src/modules/contracts/contracts-migration.service.ts:197-243 | the money reported is exactly that of rents and opening balance; the number reported is that of the entries generated if and only if there is a deposit and no opening balance where one is counted, or neither |
| Parties.EntradasCorrectas | src/modules/contracts/contracts-migration.service.ts:246-1029 | in every entry of the service: rents and the opening charge the tenant, credit the landlord what the commission leaves and the agency the commission, to half a centavo; fees charge the landlord or the tenant and credit the agency; deposits are charged to the tenant and due to the landlord at the end; due dates |
| Parties.DirectasCorrectas | migracion/scripts/fase-4-asientos/03-generate-direct-mongodb.ts:125-411 | the same in every entry of the script |
| Parties.HonorarioPactado | src/modules/contracts/contracts-migration.service.ts:646-675 | the contract is worth its base for each month begun, and a fee its percentage of that to half a centavo |
| Parties.HonorariosPorMes | src/modules/contracts/contracts-migration.service.ts:813-911 | fee instalments come one a month from the start, numbered from 1, all alike; one if no number or zero was agreed |
| Parties.HonorarioLiquidado | src/modules/accounting-entries/accounting-entries.service.ts:1410-1527 | settling the landlord on an instalment of its own fee is accepted, clears the debt and takes the amount from the account |
| GeneratedEntries.RentaBalanceada | src/modules/contracts/contracts-migration.service.ts:737-769 | a full-history rent balances if and only if it is whole centavos; projected rents and the opening balance always do |
| GeneratedEntries.HistorialBalanceado | src/modules/contracts/contracts-migration.service.ts:698-1029 | whatever the index does, every entry generated from a whole-centavo base balances |
| GeneratedEntries.EntradasIniciales | src/modules/contracts/contracts-migration.service.ts:246-1029 | every entry generated by either strategy is a sound starting point for the ledger |
| GeneratedEntries.VidaDelContrato | src/modules/contracts/contracts-migration.service.ts:246-1029 | so a ledger of generated entries stays sound, and its entries only move forward, through every run of operations |
| GeneratedEntries.HonorariosSuman | src/modules/contracts/contracts-migration.service.ts:813-911 | the generated fee instalments, or none, add up to the fee within half a centavo each if and only if the fee is no rebate beyond that |
| GeneratedEntries.RentaDelHistorial | src/modules/contracts/contracts-migration.service.ts:698-731 | the rent of a month in period p is within 1/2 * sum of W_p/W_j (j = 1..p) centavos of base * W_p / W_0, W_j being the index at the start of period j times that at its adjustment date |
| GeneratedEntries.FactorDelHistorial | src/modules/contracts/contracts-migration.service.ts:706-729 | after p adjustments the exact factor is I_p * J_p / (I_0 * I_1), J_p at the adjustment date of the period entered |
| GeneratedEntries.HistorialContraDevengado | src/modules/contracts/contracts-migration.service.ts:398-423 | it is the factor of the accrual if and only if the index at that date is the one at the first adjustment |
| GeneratedEntries.VigenciaDentro | src/modules/contracts/contracts-migration.service.ts:700-731 | for month-aligned dates the periods tile the contract and every month is charged in the period it lies in |
| DirectGenerator.GenerarDirecto | migracion/scripts/fase-4-asientos/03-generate-direct-mongodb.ts:107-411 | the second generator: month loop, deposit pair and fee loops |
| DirectGenerator.MismosAlquileres | migracion/scripts/fase-4-asientos/03-generate-direct-mongodb.ts:138-213 | for a FIJO contract the two rent loops agree entry by entry, month number included, even when days are clipped |
| DirectGenerator.MismosAsientos | migracion/scripts/fase-4-asientos/03-generate-direct-mongodb.ts:107-411 | both generators give the same multiset of entries if and only if fee instalments and deposit coincide, by conditions on the contract |
| DirectGenerator.HonorarioInfimo | migracion/scripts/fase-4-asientos/03-generate-direct-mongodb.ts:304-315 | a fee under half a centavo per instalment makes them differ |
| ImportPayments.ImportarPagos | migracion/scripts/fase-5-pagos/05-migrate-payments.ts:103-190 | the loop with its id cache gives the groups, transactions and each of the three counts of a fresh lookup for every payment |
| ImportPayments.Destinos | migracion/scripts/fase-5-pagos/05-migrate-payments.ts:103-144 | an account leads to the entry of its id on the DEBE, else to the first entry linked to it on the side of the link, else nowhere |
| ImportPayments.CuentaCompleta | migracion/scripts/fase-5-pagos/05-migrate-payments.ts:103-190 | the three counts add up to the payments with an account, and those processed are the transactions |
| ImportPayments.GruposDistintos | migracion/scripts/fase-5-pagos/05-migrate-payments.ts:146-171 | no two groups share entry, agent and side |
| ImportPayments.GruposConservan | migracion/scripts/fase-5-pagos/05-migrate-payments.ts:146-171 | for any set of keys the groups carry the same money as the payments |
| ImportPayments.GruposSonTransacciones | migracion/scripts/fase-5-pagos/05-migrate-payments.ts:146-187 | the money of all groups is the money of all transactions |
| ImportPayments.AplicarGrupos | migracion/scripts/fase-5-pagos/05-migrate-payments.ts:197-218 | one increment per group, in order |
| ImportPayments.ConsolidarEsEquivalente | migracion/scripts/fase-5-pagos/05-migrate-payments.ts:193-218 | which leaves the stored lines as applying each payment in order would |
| ImportPayments.IncrementoPorLinea | migracion/scripts/fase-5-pagos/05-migrate-payments.ts:198-213 | on either side an increment reaches every matching line in full: the entry takes the money once if and only if exactly one line matches, and the other side takes nothing |
| ImportPayments.IncrementoDeLinea | migracion/scripts/fase-5-pagos/05-migrate-payments.ts:198-213 | a debit adds to what is paid on the agent's DEBE lines, a credit to what is settled on its HABER lines, of that entry only |
| ImportPayments.EstadoImportado | migracion/scripts/fase-5-pagos/05-migrate-payments.ts:221-246 | the final estado of sound lines, line by line, each of the four |
| ImportPayments.LiquidadoImportado | migracion/scripts/fase-5-pagos/05-migrate-payments.ts:228-246 | an imported LIQUIDADO is fully paid and its named HABER lines settled; the ledger's own rule agrees if and only if no line without agent is a peso or more short |
| Cuit.CalcularDigitoVerificador | src/modules/cuit/cuit.service.ts:259-269 | the weighted sum loop and the digit of its remainder |
| Cuit.SumaPonderada | src/modules/cuit/cuit.service.ts:259-269 | the weighted sum, weight by weight |
| Cuit.ValidarCuit | src/modules/cuit/cuit.service.ts:112-176 | validation in the order of the code, each rejection included; a code is valid if and only if it has eleven digits, a known type and a last digit that brings the weighted sum to a multiple of eleven (9 where ten would) |
| Cuit.FormatoEstable | src/modules/cuit/cuit.service.ts:167-176 | what validation returns for a valid code validates again and formats to itself |
| Cuit.GenerarCuits | src/modules/cuit/cuit.service.ts:182-253 | one code per prefix for seven or eight digits, none otherwise |
| Cuit.CodigoGenerado | src/modules/cuit/cuit.service.ts:182-253 | a generated code reads prefix, document and check digit, each behind its dash, the prefixes in the order of the code |
| Cuit.DigitosDelDocumento | src/modules/cuit/cuit.service.ts:182-200 | eight digits are taken as they are, seven with a zero before, anything else is rejected |
| Cuit.GeneradoEsValido | src/modules/cuit/cuit.service.ts:182-253 | every generated code validates and formats to itself |
| Cuit.CambioDetectado | src/modules/cuit/cuit.service.ts:149-157 | changing any one of the first ten digits changes the remainder |
| Cuit.TransposicionDetectada | src/modules/cuit/cuit.service.ts:149-157 | so does exchanging two neighbouring unequal digits |
| Cuit.ErrorNoDetectado | src/modules/cuit/cuit.service.ts:156-164 | such an error passes the check digit if and only if the two remainders are 1 and 2 |
| Regression.DenominadorPositivo | src/modules/contracts/contract-reports.service.ts:376 | the denominator is positive for two points or more |
| Regression.RegresionLineal | src/modules/contracts/contract-reports.service.ts:352-379 | the accumulation loop gives the slope and intercept of the formulas, the zero line below two points |
| Regression.MinimosCuadrados | src/modules/contracts/contract-reports.service.ts:352-379 | which minimise the squared error over all lines, and no other line does |
| Regression.AjusteExacto | src/modules/contracts/contract-reports.service.ts:352-379 | data on a line is fitted by that line |
| Regression.ProyectarFacturacion | src/modules/contracts/contract-reports.service.ts:303-339 | twelve months of billing and three projected months, each from the last value of the growing series |
| Regression.SerieSuma | src/modules/contracts/contract-reports.service.ts:303-319 | the twelve months add up to the amount of each contract times the months it is active |
| Regression.SerieEnFechas | src/modules/contracts/contract-reports.service.ts:303-319 | the last month of the series is this one and each before it a month earlier; it bills the contracts started and not ended by its date |
| Regression.ProyeccionEntera | src/modules/contracts/contract-reports.service.ts:324-339 | on linear data with whole slope and last value, not below zero, they are last + s, last + 3s and last + 6s, or zero where that is negative |
| Regression.ProyeccionLineal | src/modules/contracts/contract-reports.service.ts:324-339 | on any linear data the months ahead go on the line if and only if the series is flat at a whole amount that is not negative |
| CashBox.CashBoxService.CreateOpening | src/modules/cash-box/cash-box.service.ts:41-106 | opening sets the balance, or is rejected with nothing stored |
| CashBox.CashBoxService.CreatePartialClosure | src/modules/cash-box/cash-box.service.ts:108-154 | a partial closure records expected and discrepancy and leaves the balance |
| CashBox.CashBoxService.CreateFinalClosure | src/modules/cash-box/cash-box.service.ts:156-266 | a final closure records them, books any difference and sets the balance to the count |
| CashBox.CorridaOrdenada | src/modules/cash-box/cash-box.service.ts:72-87 | in every run each opening but the first directly follows a final closure |
| CashBox.AperturaResponde | src/modules/cash-box/cash-box.service.ts:41-106 | each answer of an opening, in the order of the checks |
| CashBox.CierreResponde | src/modules/cash-box/cash-box.service.ts:108-185 | each answer of a closure |
| CashBox.CierreParcialDeSesion | src/modules/cash-box/cash-box.service.ts:108-154 | a partial closure of an open session records as expected what was declared plus cash moved, and the count less that, and leaves the balance there |
| CashBox.PrimerCierre | src/modules/cash-box/cash-box.service.ts:187-263 | the first final closure after an opening records the count against declared amount plus cash moved, books a balanced adjustment exactly when they differ, and leaves the balance at the count |
| CashBox.AjusteBalanceado | src/modules/cash-box/cash-box.service.ts:196-238 | the adjustment balances and carries on the cash line the opposite of the discrepancy |
| CashBox.AjusteEnLineas | src/modules/cash-box/cash-box.service.ts:196-238 | accounts and sides of the adjustment entry |
| CashBox.SaldoExplicado | src/modules/cash-box/cash-box.service.ts:89-106 | in every run the balance is explained by cash moved, recorded discrepancies and the unrecorded jumps at openings |
| DetectedExpenses.Prorratear | src/modules/accounting-entries/accounting-entries.service.ts:801-829 | the share loop: declared percentages brought to 100, or equal parts |
| DetectedExpenses.PorcentajesSuman | src/modules/accounting-entries/accounting-entries.service.ts:812-819 | the percentages add up to 100 |
| DetectedExpenses.PorcentajesEnProporcion | src/modules/accounting-entries/accounting-entries.service.ts:801-829 | the percentages are in proportion to those declared, equal when none is |
| DetectedExpenses.PropuestaSuma | src/modules/accounting-entries/accounting-entries.service.ts:821-829 | the proposed amounts are whole centavos and add up to the invoice within half a centavo (and the epsilon) each |
| DetectedExpenses.CrearAsientoDeGasto | src/modules/accounting-entries/accounting-entries.service.ts:985-1085 | one DEBE per part and one HABER to the provider |
| DetectedExpenses.PartesDelGasto | src/modules/accounting-entries/accounting-entries.service.ts:985-1085 | each part is charged to its own agent and the provider is due their sum |
| DetectedExpenses.GastoBalanceado | src/modules/accounting-entries/accounting-entries.service.ts:997-1066 | the entry balances: the provider is owed exactly what is charged |
| DetectedExpenses.GastoCobrable | src/modules/accounting-entries/accounting-entries.service.ts:1076-1085 | paying all of it closes it as collected if and only if the rounded parts do not fall short of the invoice |
| DetectedExpenses.TresPartesIguales | src/modules/accounting-entries/accounting-entries.service.ts:812-829 | one peso over three properties falls one centavo short |
| Counterexamples.PagoDosVeces | src/modules/accounting-entries/accounting-entries.service.ts:1147-1170 | a rent paid twice: the second payment goes to cash and no line moves, both in one are rejected |
| Counterexamples.AjustadoNuncaCobrado | src/modules/accounting-entries/accounting-entries.service.ts:69-71 | an entry adjusted to twice its lines, collected in no run |
| Counterexamples.TodoCondonadoSinCondonar | src/modules/accounting-entries/accounting-entries.service.ts:1351-1363 | an entry one centavo above its lines, all forgiven and not CONDONADO |
| Counterexamples.EstadoSegunElOrden | src/modules/accounting-entries/accounting-entries.service.ts:1543-1554 | a collected rent of two owners: LIQUIDADO in one order, PAGADO in the other |
| Counterexamples.AnuladoSeLiquida | src/modules/accounting-entries/accounting-entries.service.ts:1402-1403 | an annulled rent settled, paid and LIQUIDADO |
| Counterexamples.Adelanto | src/modules/accounting-entries/accounting-entries.service.ts:543-551 | a settlement before any collection: nothing was available, then a negative amount is |
| Counterexamples.CuotaDeDesbalanceada | src/modules/accounting-entries/accounting-entries.service.ts:527-564 | share and pending share of an unbalanced entry exceed the line |
| Counterexamples.DepositoOculto | src/modules/accounting-entries/accounting-entries.service.ts:613-625 | an open deposit that the pending-only view does not show |
| Counterexamples.CobroSinDebe | src/modules/accounting-entries/accounting-entries.service.ts:1155-1170 | a receipt that reports a collection no cash enters for |
| Counterexamples.PagoPorOtroMonto | src/modules/accounting-entries/accounting-entries.service.ts:1711-1721 | a receipt that reports thirty and pays a hundred |
| Counterexamples.CobroYLiquidacion | src/modules/accounting-entries/accounting-entries.service.ts:1687-1740 | a receipt that collects a debt of the agent it then settles, which is not as the store before it says |
| Counterexamples.LiquidacionEnMitades | src/modules/accounting-entries/accounting-entries.service.ts:1503-1527 | an agent paid nothing at once, and twice fifty in halves |
| Counterexamples.AjusteAntesDelInicio | src/modules/contracts/contracts-migration.service.ts:453-485 | a contract of a year that accrues eighteen months |
| Counterexamples.HistorialSeAdelanta | src/modules/contracts/contracts-migration.service.ts:706-720 | a contract of which two hundred pesos a month are accrued and eight hundred charged |
| Counterexamples.MedioCentavo | src/modules/contracts/contracts-migration.service.ts:737-769 | a base rent with half a centavo, and a generated entry that does not balance |
| Counterexamples.HonorarioDeDecimas | migracion/scripts/fase-4-asientos/03-generate-direct-mongodb.ts:304-315 | a contract for which the two generators differ, whatever the index |
| Counterexamples.RebajaSinAsiento | src/modules/contracts/contracts-migration.service.ts:813-860 | a negative fee that no entry carries |
| Counterexamples.DepositoSinInformar | src/modules/contracts/contracts-migration.service.ts:230-235 | a contract with a deposit, one entry fewer reported than generated |
| Counterexamples.PagoEnDosLineas | migracion/scripts/fase-5-pagos/05-migrate-payments.ts:198-213 | an imported payment counted on two lines |
| Counterexamples.ComisionAbierta | migracion/scripts/fase-5-pagos/05-migrate-payments.ts:228-246 | an entry imported as LIQUIDADO with its commission open |
| Counterexamples.CuitEquivocado | src/modules/cuit/cuit.service.ts:259-269 | two valid codes that differ in one digit |
| Counterexamples.ProyeccionAcelerada | src/modules/contracts/contract-reports.service.ts:324-339 | revenue growing by a hundred a month, projected to grow by one, two and three hundred |
| Counterexamples.AperturaSinExplicar | src/modules/cash-box/cash-box.service.ts:89-106 | an opening that halves the balance with no record of it |

## Left out

- Database queries, sessions, failures while saving, pagination, controllers, input validation, authorisation, logging.
- Rounding errors of binary floating point; `Number.EPSILON` is kept where the code adds it.
- Time zones and times of day: a date is a month and a day.
- Bulk setters of estado (invoiced, pending invoice, liquidated), which write it without looking at the lines.
- Dates, methods, vouchers, users and notes that operations copy into an entry or its log.
- Counters of the statement summary.
- Migration of many contracts in one call and its summary of failures.
- Contracts without a landlord or a tenant: the service fails on them and the script skips them.
- Web lookup of tax identifiers, invoice e-mails, bank reconciliation, contract settings, migrations of agents,
  properties and contracts.
- Choice of the agent of an expense line from current contracts: the agent of each line is a parameter.
- Resolution of the provider's account codes: two fixed codes stand for them.
- Class objects for entries: an entry read from the store is a value and its lines a fresh array, so two documents of
  one entry edited at the same time are not modelled.
- Ledger.LedgerService.RegisterPayment: does not model the payment date and method stored with the entry.
- Ledger.LedgerService.CondonarDeuda: does not model the forgiven amount, date and reason stored beside the log.
- Ledger.LedgerService.LiquidarPropietario: does not model the settlement date, method and voucher stored with the entry.
- Ledger.LedgerService.AnularAsiento: does not model the date and reasons stored with the entry.
- Ledger.LedgerService.ActualizarPendientesAjuste: returns identifiers of the updated entries, in any order.
- Receipts.ReciboMixto: where an earlier line does bear on a later one of the other kind, the deviations are those on the
  stores reached in between (`Receipts.MovidoYReportado`); `Counterexamples.CobroYLiquidacion` is such a receipt.
- Statement.EstadoDeCuenta: takes the entries in date order and models the amounts of a movement, not the percentages
  and flags shown beside them.
- DetectedExpenses.CrearAsientoDeGasto: takes the agent of each line as a parameter and two fixed account codes.
- ImportPayments.AplicarGrupos: models the increments of the lines, not the log records pushed with them.
- Regression.ProyectarFacturacion: takes the list of contracts in the states that count as given.
