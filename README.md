# SimulaGo loan engine, in Dafny

SimulaGo is an Android app for simulating vehicle loans. The user enters a price, a down payment, a term in months and a monthly interest rate. The app works out the amount to finance, the fixed monthly payment (French amortization) and the totals. It shows an amortization table and saves simulations in a Room (SQLite) database. One saved simulation can be marked as the active credit. Payments are registered against it, and the app reconciles the outstanding balance from them.

This project models the core of that app and proves properties about it:

- **Amortization table generator** of the domain layer (`AmortizationUseCase`, file `amortization.dfy`).
  - `Invoke` is the imperative loop, proved equal to the functional `Schedule`.
  - The last month pays off the remaining balance.
  - A balance of one cent or less is shown as zero.
  - Emission stops as soon as the balance reaches zero.
- **Loan arithmetic** (`LoanMath`, `Power`):
  - the amount to finance;
  - the annuity payment `A·r·q/(q − 1)` with `q = (1 + r)^n`;
  - the balance after `k` monthly payments, with its closed form.
  - Proved: the annuity payment retires the loan in exactly `n` months, and some balance is owed before that.
- **Calculator view model** (`Calculator`): the state machine over `CalculatorUiState`, modelled as a class whose methods update `uiState`.
  - `performCalculation` and the view model's own table generator, which has no last-month adjustment.
  - The saving of a finished simulation.
  - Its class invariant: the totals shown agree with the table shown.
  - Proved: the view model's table and the domain generator's table agree column by column for a loan under its own payment.
- **Balance reconciler** (`ManageCredit`): the payment-replay loop inside the `combine` of `ManageCreditViewModel` (`Combine`), the screen state it produces, and `registerPayment`.
- **Home view model** (`Home`):
  - selection mode;
  - the merge of the database state into `HomeUiState`;
  - setting the active credit, and deletion;
  - the table shown for a saved simulation;
  - the version comparison of the update check.
- **Database** (`Persistence`): both tables behind `SimulationDao` and `PaymentDao`, in one class `AppDatabase`.
  - Each table is a map from primary key to row.
  - AUTOINCREMENT is modelled with a sequence counter.
  - The `payments.simulationId` foreign key uses ON DELETE CASCADE.
  - Query order is modelled with a stable sort over the table scan (`Sorting`).
  - The class invariant `Valid` holds keys equal to ids and referential integrity.
  - The "at most one active credit" invariant is proved for `setActiveCredit`, for delete, and for insertion of an inactive row.

Modelling conventions:
- Kotlin `Double` and `Float` are modelled as exact `real`, so the arithmetic identities hold exactly.
- `java.util.Date` is an integer timestamp, and "now" is a parameter.
- `String.toDoubleOrNull()` is a function `string -> Option<real>` supplied to each view model.
- `(1 + r).pow(n)` is an exact integer power. For negative exponents it is the reciprocal.
- Each coroutine launch or flow emission is one synchronous method call.

Where the behaviour described for the app and its code differ, the model follows the code:
- At a zero rate the payment is `amount / n`, and there is no separate straight-line schedule.
- The reconciler sorts the payments by date itself, ascending, whatever order the query returns.
- Only `onVehiclePriceChange` recalculates. Changing the down payment, term or rate only hides the results. A save after such a change therefore stores the new inputs with the old results, which `ComputedByCalculator` does not hold for.
- `onSimulateClicked` with nothing to finance clears the payment and totals. It keeps the previous amount to finance and table, and does not change `showResults`.
- The shown `CalculatorUiState.kt` and `HomeUiState.kt` lack `amortizationTable`, `showSaveSuccessMessage` and `updateAvailableInfo`, which the view models write. The model adds them.
- `getSimulationById`, used by the credit screen, is not declared in the shown `SimulationDao.kt`. It is modelled as a lookup by primary key.

## Model

| member | source | states |
|---|---|---|
| AmortizationUseCase.ShownBalance | app/src/main/java/com/martinez/simulago/domain/usecase/GenerateAmortizationTableUseCase.kt:43 | the shown balance is never negative; it is zero exactly when the unclamped balance is at most one cent, and otherwise equals it |
| AmortizationUseCase.Invoke | app/src/main/java/com/martinez/simulago/domain/usecase/GenerateAmortizationTableUseCase.kt:10-50 | the loop, with its last-month adjustment and early break, returns exactly the schedule `Schedule` defines |
| AmortizationUseCase.ScheduleRows | app/src/main/java/com/martinez/simulago/domain/usecase/GenerateAmortizationTableUseCase.kt:19-47 | no rows when the term is ≤ 0, otherwise 1 to `term` rows, numbered 1, 2, …. Each row's interest is the carried unclamped balance × rate. Before month `term`: principal = payment − interest, and the payment field is the payment. In month `term`: principal = the whole balance, and payment = balance + interest. The shown balance is the one-cent clamp of the carried balance, so it is never negative. Every row but the last leaves a positive balance, so emission stops right after the first row that leaves none |
| AmortizationUseCase.ScheduleFromLength | app/src/main/java/com/martinez/simulago/domain/usecase/GenerateAmortizationTableUseCase.kt:19-47 | from any month, the row count is bounded by the months left. A short table ends at a non-positive balance, and a full one ends at exactly zero |
| AmortizationUseCase.ScheduleFromEnd | app/src/main/java/com/martinez/simulago/domain/usecase/GenerateAmortizationTableUseCase.kt:19-47 | from any month not past the term, emission ends paid off: a table cut short by the break ends at a non-positive carried balance, and one that reaches month `term` ends at exactly zero |
| AmortizationUseCase.SchedulePrincipalTotal | app/src/main/java/com/martinez/simulago/domain/usecase/GenerateAmortizationTableUseCase.kt:23-46 | telescoping: a table that reaches month `term` repays exactly the principal and shows a zero final balance. A table that stopped early has repaid at least the principal |
| Power.IntPow | app/src/main/java/com/martinez/simulago/ui/calculator/CalculatorViewModel.kt:100-103 | the power is never zero. It is the natural power for non-negative exponents, and positive for a positive base. For a base above one it exceeds one exactly for positive exponents |
| Power.PowStrictlyIncreasing | app/src/main/java/com/martinez/simulago/ui/calculator/CalculatorViewModel.kt:103 | powers of a base above one grow strictly with the exponent |
| LoanMath.AmountToFinance | app/src/main/java/com/martinez/simulago/ui/calculator/CalculatorViewModel.kt:86 | the amount is never negative, is at least price − down payment, and is either 0 or exactly price − down payment |
| LoanMath.MonthlyPayment | app/src/main/java/com/martinez/simulago/ui/calculator/CalculatorViewModel.kt:99-107 | at a rate ≤ 0, payment × months = amount. At a positive rate and term, a positive amount gives a payment above the first month's interest. A negative term gives a negative payment |
| LoanMath.BalanceClosedForm | app/src/main/java/com/martinez/simulago/ui/calculator/CalculatorViewModel.kt:141-155 | the balance after `k` months of the replay satisfies r·B(k) − payment = (r·b − payment)·(1+r)^k, so r·B(k) − payment grows geometrically by the factor 1 + r |
| LoanMath.BalanceAtZeroRate | app/src/main/java/com/martinez/simulago/ui/calculator/CalculatorViewModel.kt:141-155 | with no interest, `k` months take off exactly `k` payments |
| LoanMath.AnnuityBalance | app/src/main/java/com/martinez/simulago/ui/calculator/CalculatorViewModel.kt:102-155 | under the annuity payment, the balance after `k ≤ n` months is amount·(q^n − q^k)/(q^n − 1) |
| LoanMath.AnnuityRetiresLoan | app/src/main/java/com/martinez/simulago/ui/calculator/CalculatorViewModel.kt:102-155 | the computed payment, at any rate ≥ 0, leaves a balance of exactly 0 after `n` months |
| LoanMath.AnnuityBalancePositive | app/src/main/java/com/martinez/simulago/ui/calculator/CalculatorViewModel.kt:102-155 | for a positive amount under the computed payment, some balance is still owed before month `n` |
| Calculator.FloatToInt | app/src/main/java/com/martinez/simulago/ui/calculator/CalculatorViewModel.kt:42 | `Float.toInt()` truncates toward zero and saturates at the bounds of `Int` |
| Calculator.GenerateAmortizationTable | app/src/main/java/com/martinez/simulago/ui/calculator/CalculatorViewModel.kt:132-158 | the loop returns exactly the table `Table` defines |
| Calculator.TableFromRows | app/src/main/java/com/martinez/simulago/ui/calculator/CalculatorViewModel.kt:141-155 | the table has one row per remaining month. Row `i` charges interest on the balance after `i` payments and shows the next balance, clamped at 0 |
| Calculator.TablePrefixSums | app/src/main/java/com/martinez/simulago/ui/calculator/CalculatorViewModel.kt:141-155 | over the first `k` rows, the principal column sums to principal − B(k), and the interest column to k·payment − that sum |
| Calculator.TableColumns | app/src/main/java/com/martinez/simulago/ui/calculator/CalculatorViewModel.kt:141-155 | the table has exactly `term` rows (none when `term` ≤ 0), numbered from 1. Each row pays the payment, with principal + interest = payment. The shown balance is the unclamped balance, or 0 when that is negative. The column sums telescope |
| Calculator.ColumnsOfRows | app/src/main/java/com/martinez/simulago/ui/calculator/CalculatorViewModel.kt:141-155 | any table built row by row like the generator has month numbers from 1, the payment in every row, principal + interest = payment, interest charged on the balance after `i` payments, and the next balance clamped at 0. Its principal column sums to principal − the final unclamped balance, and its interest column to rows × payment − principal repaid |
| Calculator.AnnuityTable | app/src/main/java/com/martinez/simulago/ui/calculator/CalculatorViewModel.kt:102-155 | under its own payment, the table has `term` rows. The principal column sums to the amount, and the interest column to term·payment − amount. The last balance is 0, and all earlier ones are positive |
| Calculator.UseCaseAgreesWithViewModelTable | app/src/main/java/com/martinez/simulago/ui/calculator/CalculatorViewModel.kt:141-155 | for a loan under its own payment, the domain generator (GenerateAmortizationTableUseCase.kt:19-47) and the view model's generator emit the same number of rows. The rows agree in month, payment, principal and interest, the final month included |
| Calculator.UseCaseRunsFullTerm | app/src/main/java/com/martinez/simulago/domain/usecase/GenerateAmortizationTableUseCase.kt:47 | for a positive amount under its annuity payment, the early break never fires before month `term` (with amount 0 it fires in month 1) |
| Calculator.UseCaseRowAgrees | app/src/main/java/com/martinez/simulago/ui/calculator/CalculatorViewModel.kt:142-144 | for a positive amount under its annuity payment, row `i` of both generators has the same month, payment, principal and interest, the last month included |
| Calculator.UseCaseRowAgreesBeforeLast | app/src/main/java/com/martinez/simulago/ui/calculator/CalculatorViewModel.kt:135-148 | for any amount, rate and payment (such as a stored payment that is not the annuity of the stored inputs), every row the use case emits before the last month has the same month, payment, principal and interest as the view model's row |
| Calculator.UseCaseOutstanding | app/src/main/java/com/martinez/simulago/domain/usecase/GenerateAmortizationTableUseCase.kt:20-46 | for any payment, the use case's carried balance after `i` rows, before the last month, is the loan balance B(i) under that payment |
| Calculator.CalculatedResults | app/src/main/java/com/martinez/simulago/ui/calculator/CalculatorViewModel.kt:81-130 | inputs are never changed, and results are present all together or not at all. With nothing to finance, payment and totals are cleared and the amount, table, visibility and error are kept. Otherwise the amount is stored and the error is cleared, and results are shown when forced. For a positive term, the payment exceeds the first month's interest, the table has `term` rows, and the totals equal the table's columns (cost = amount + interest, last balance 0) |
| Calculator.SavedRightAfterCalculation | app/src/main/java/com/martinez/simulago/ui/calculator/CalculatorViewModel.kt:160-179 | saving right after a successful simulation stores exactly the calculator's payment and totals for the stored amount, rate and term |
| Calculator.CalculatorViewModel.constructor | app/src/main/java/com/martinez/simulago/ui/calculator/CalculatorUiState.kt:3-20 | starts from the default state, which satisfies the invariant |
| Calculator.CalculatorViewModel.OnVehiclePriceChange | app/src/main/java/com/martinez/simulago/ui/calculator/CalculatorViewModel.kt:32-35 | stores the price, hides the results and recalculates from the new state |
| Calculator.CalculatorViewModel.OnDownPaymentChange | app/src/main/java/com/martinez/simulago/ui/calculator/CalculatorViewModel.kt:37-39 | stores the down payment and hides the results. Nothing else changes, and no recalculation happens |
| Calculator.CalculatorViewModel.OnTermChange | app/src/main/java/com/martinez/simulago/ui/calculator/CalculatorViewModel.kt:41-43 | stores the truncated term and hides the results. Nothing else changes |
| Calculator.CalculatorViewModel.OnRateChange | app/src/main/java/com/martinez/simulago/ui/calculator/CalculatorViewModel.kt:45-47 | stores the rate text and hides the results. Nothing else changes |
| Calculator.CalculatorViewModel.OnSimulateClicked | app/src/main/java/com/martinez/simulago/ui/calculator/CalculatorViewModel.kt:50-63 | a rate that is not a positive number sets the error message and hides the results, and changes nothing else. Otherwise the state is the forced calculation. The invariant is kept |
| Calculator.CalculatorViewModel.RecalculateInRealTime | app/src/main/java/com/martinez/simulago/ui/calculator/CalculatorViewModel.kt:65-79 | an invalid rate clears the payment and totals. Otherwise the state is the unforced calculation |
| Calculator.CalculatorViewModel.PerformCalculation | app/src/main/java/com/martinez/simulago/ui/calculator/CalculatorViewModel.kt:81-130 | the new state is `Calculated` of the old one, and the invariant (shown totals match the shown table) is kept |
| Calculator.CalculatorViewModel.OnSaveSimulationClicked | app/src/main/java/com/martinez/simulago/ui/calculator/CalculatorViewModel.kt:160-194 | without a positive payment, the error is set and the table is untouched. Otherwise one new row is stored under a fresh id with the figures on screen (interest total = the interest column of the shown table), and the success flag is raised |
| Persistence.RowsAt | app/src/main/java/com/martinez/simulago/data/local/SimulationDao.kt:16 | the rows at the given keys, in key order |
| Persistence.TableScan | app/src/main/java/com/martinez/simulago/data/local/SimulationDao.kt:16 | a scan holds exactly the table's rows, one per key |
| Persistence.TableScanOnce | app/src/main/java/com/martinez/simulago/data/local/SimulationDao.kt:16 | when keys are the rows' ids, a scan yields each row once |
| Persistence.SimulationsQuery | app/src/main/java/com/martinez/simulago/data/local/SimulationDao.kt:16-17 | the sorted scan has one entry per stored row and holds exactly the stored rows, each once when rows carry their own id, newest `createdAt` first |
| Persistence.OfSimulation | app/src/main/java/com/martinez/simulago/data/local/PaymentDao.kt:13 | `WHERE simulationId = :id` keeps exactly the matching rows, with their multiplicities |
| Persistence.PaymentsQuery | app/src/main/java/com/martinez/simulago/data/local/PaymentDao.kt:13-14 | the query returns exactly the stored payments of that simulation, each once, latest date first |
| Persistence.FirstActive | app/src/main/java/com/martinez/simulago/data/local/SimulationDao.kt:34 | `LIMIT 1` returns an active row of the scan, and returns none exactly when no row is active |
| Persistence.WithoutPaymentsOf | app/src/main/java/com/martinez/simulago/data/local/PaymentEntry.kt:8-18 | ON DELETE CASCADE keeps exactly the payments of other simulations, unchanged |
| Persistence.AppDatabase.constructor | app/src/main/java/com/martinez/simulago/data/local/AppDatabase.kt:20-26 | both tables start empty and valid |
| Persistence.AppDatabase.InsertSimulation | app/src/main/java/com/martinez/simulago/data/local/SimulationDao.kt:13-14 | REPLACE: id 0 receives a fresh id. The row is stored at its id, replacing a row with the same id and cascading to that row's payments. Other rows are unchanged. Inserting an inactive row keeps "at most one active" |
| Persistence.AppDatabase.GetAllSimulations | app/src/main/java/com/martinez/simulago/data/local/SimulationDao.kt:16-17 | every stored simulation exactly once, newest `createdAt` first |
| Persistence.AppDatabase.DeleteSimulationById | app/src/main/java/com/martinez/simulago/data/local/SimulationDao.kt:19-20 | removes only that row, along with its payments (cascade). Keeps "at most one active" |
| Persistence.AppDatabase.DeactivateAllCredits | app/src/main/java/com/martinez/simulago/data/local/SimulationDao.kt:22-23 | every row is kept, with only its flag cleared |
| Persistence.AppDatabase.ActivateCreditById | app/src/main/java/com/martinez/simulago/data/local/SimulationDao.kt:25-26 | only the flag of row `id` is set, and only if that row exists |
| Persistence.AppDatabase.SetActiveCredit | app/src/main/java/com/martinez/simulago/data/local/SimulationDao.kt:28-32 | afterwards a row is active exactly when its id is `id`. Other columns are unchanged. At most one row is active, and none when `id` is absent |
| Persistence.AppDatabase.GetActiveCredit | app/src/main/java/com/martinez/simulago/data/local/SimulationDao.kt:34-35 | returns an active stored row, or none exactly when no row is active. Under the invariant, it is the unique active row |
| Persistence.AppDatabase.ActiveCreditIs | app/src/main/java/com/martinez/simulago/data/local/SimulationDao.kt:34-35 | when at most one row is active, `getActiveCredit` returns exactly the active row |
| Persistence.AppDatabase.GetSimulationById | app/src/main/java/com/martinez/simulago/ui/manage/ManageCreditViewModel.kt:46 | the row with that primary key, if stored |
| Persistence.AppDatabase.InsertPayment | app/src/main/java/com/martinez/simulago/data/local/PaymentDao.kt:10-11 | ABORT: exactly one row is added under a fresh or given id, and the others are unchanged. It fails, changing nothing, on an unknown simulation (foreign key) or a taken id |
| Persistence.AppDatabase.GetPaymentsForSimulation | app/src/main/java/com/martinez/simulago/data/local/PaymentDao.kt:13-14 | exactly that simulation's payments, each once, ordered by `paymentDate` descending |
| Sorting.SortByKeepsElements | app/src/main/java/com/martinez/simulago/ui/manage/ManageCreditViewModel.kt:60 | `sortedBy` keeps every element, with its multiplicity |
| Sorting.SortBy | app/src/main/java/com/martinez/simulago/ui/manage/ManageCreditViewModel.kt:60 | `sortedBy` returns its input ordered by ascending key, as a permutation (same multiset) of the input |
| Sorting.SortByStable | app/src/main/java/com/martinez/simulago/ui/manage/ManageCreditViewModel.kt:60 | `sortedBy` is stable: elements with equal keys keep their order |
| Sorting.SortByAppendLast | app/src/main/java/com/martinez/simulago/ui/manage/ManageCreditViewModel.kt:60 | an element whose key is at least every other key sorts to the end |
| Sorting.SortedArrangementUnique | app/src/main/java/com/martinez/simulago/ui/manage/ManageCreditViewModel.kt:60 | two sorted arrangements of the same elements with distinct keys are equal |
| Sorting.SortByIgnoresArrivalOrder | app/src/main/java/com/martinez/simulago/ui/manage/ManageCreditViewModel.kt:60 | with distinct keys, the sorted list depends only on which elements were given |
| Sorting.Ascending | app/src/main/java/com/martinez/simulago/data/local/SimulationDao.kt:16 | the keys of a table in strictly ascending order, each once |
| ManageCredit.Combine | app/src/main/java/com/martinez/simulago/ui/manage/ManageCreditViewModel.kt:48-72 | the replay loop over the payments sorted by date returns exactly `CreditState`: an empty, not-loading state for a missing credit, and otherwise the credit, its payments and the clamped replayed balance |
| ManageCredit.ReplayLoop | app/src/main/java/com/martinez/simulago/ui/manage/ManageCreditViewModel.kt:60-64 | the `for` loop over the date-sorted payments returns exactly `Replay` of them: each payment, in order, charges interest on the current balance and takes off the base payment minus that interest, plus its extra |
| ManageCredit.ReplayAppend | app/src/main/java/com/martinez/simulago/ui/manage/ManageCreditViewModel.kt:60-64 | replaying one more payment at the end is one more month |
| ManageCredit.ReplayOnlyExtrasCount | app/src/main/java/com/martinez/simulago/ui/manage/ManageCreditViewModel.kt:61-63 | only `extraToCapital` enters the balance. `amountPaid` and `insuranceAndOthers` never affect it |
| ManageCredit.ReplayWithoutExtras | app/src/main/java/com/martinez/simulago/ui/manage/ManageCreditViewModel.kt:60-63 | with no extras, the balance after `k` payments is the balance after `k` rows of the calculator's table (CalculatorViewModel.kt:142-155) |
| ManageCredit.ReplayAtZeroRate | app/src/main/java/com/martinez/simulago/ui/manage/ManageCreditViewModel.kt:56-63 | at rate 0 (including an unparsable rate), each payment takes off exactly base payment + extra |
| ManageCredit.ExtrasNeverRaiseBalance | app/src/main/java/com/martinez/simulago/ui/manage/ManageCreditViewModel.kt:61-63 | with rate ≥ 0 and extras ≥ 0, the replayed balance never exceeds the plain schedule's balance after as many months |
| ManageCredit.ScheduledPaymentsPayOffCredit | app/src/main/java/com/martinez/simulago/ui/manage/ManageCreditViewModel.kt:56-69 | a credit saved with its annuity payment, paid for `term` months without extras, shows a balance of 0 |
| ManageCredit.BalanceIgnoresQueryOrder | app/src/main/java/com/martinez/simulago/ui/manage/ManageCreditViewModel.kt:60 | two lists of the same payments, with distinct dates, give the same balance whatever order they arrive in |
| ManageCredit.LatestPaymentAddsOneMonth | app/src/main/java/com/martinez/simulago/ui/manage/ManageCreditViewModel.kt:60-64 | a payment dated no earlier than all others is replayed last, as one more month |
| ManageCredit.LatestPaymentNeverRaisesBalance | app/src/main/java/com/martinez/simulago/ui/manage/ManageCreditViewModel.kt:60-64 | such a newest payment never raises the balance when the base payment covers the month's interest and the extra capital is not negative |
| ManageCredit.ManageCreditViewModel.constructor | app/src/main/java/com/martinez/simulago/ui/manage/ManageCreditViewModel.kt:27-33 | binds the simulation id, the database and the parser |
| ManageCredit.ManageCreditViewModel.UiState | app/src/main/java/com/martinez/simulago/ui/manage/ManageCreditViewModel.kt:42-77 | the state is loading exactly when there is no valid id. A credit is present exactly when it is stored. The history is exactly its stored payments, latest first. The balance is never negative. A missing credit gives an empty history and a zero balance |
| ManageCredit.ManageCreditViewModel.ObserveUiState | app/src/main/java/com/martinez/simulago/ui/manage/ManageCreditViewModel.kt:42-48 | reading the credit and its payments, then running the reconciler, yields `UiState()` |
| ManageCredit.ManageCreditViewModel.RegisterPayment | app/src/main/java/com/martinez/simulago/ui/manage/ManageCreditViewModel.kt:79-97 | without a valid id, nothing is stored. Otherwise one payment dated now is stored under a fresh id, and it shows up in the screen's history. If the credit is gone, a foreign-key violation changes nothing |
| Home.ShownTableMatchesStoredTotals | app/src/main/java/com/martinez/simulago/ui/home/HomeViewModel.kt:74-84 | for a simulation the calculator computed, the table shown has `term` rows, repays the amount, and its interest column adds up to the stored interest total |
| Home.HomeViewModel.constructor | app/src/main/java/com/martinez/simulago/ui/home/HomeViewModel.kt:31 | starts from the default `HomeUiState()` |
| Home.HomeViewModel.OnDatabaseChanged | app/src/main/java/com/martinez/simulago/ui/home/HomeViewModel.kt:35-52 | copies in the list and the active credit (which is in the list). The onboarding card shows exactly when simulations exist and none is active. Selection mode and update info are kept |
| Home.HomeViewModel.EnterSelectionMode | app/src/main/java/com/martinez/simulago/ui/home/HomeViewModel.kt:55-57 | sets selection mode and changes nothing else |
| Home.HomeViewModel.ExitSelectionMode | app/src/main/java/com/martinez/simulago/ui/home/HomeViewModel.kt:59-61 | clears selection mode and changes nothing else |
| Home.HomeViewModel.OnSetAsActiveCreditClicked | app/src/main/java/com/martinez/simulago/ui/home/HomeViewModel.kt:62-66 | afterwards the active credit is that stored row, now flagged, and no other. There is none if the row is gone. Every row keeps its other columns, and the payments and id sequences are unchanged |
| Home.HomeViewModel.DeleteSimulation | app/src/main/java/com/martinez/simulago/ui/home/HomeViewModel.kt:68-72 | the simulation leaves the table and the list, exactly its payments are removed (the cascade), every other row and payment stays, and the id sequences are unchanged |
| Home.HomeViewModel.GetAmortizationTableForSimulation | app/src/main/java/com/martinez/simulago/ui/home/HomeViewModel.kt:74-84 | calls the generator with the stored amount, term and payment, and the parsed rate / 100 (0 if unparsable). For a simulation the calculator computed, the table has `term` rows and matches the stored interest total |
| Home.HomeViewModel.OnUpdateInfoReceived | app/src/main/java/com/martinez/simulago/ui/home/HomeViewModel.kt:88-96 | the update info is recorded exactly when the remote version code is strictly greater. Otherwise nothing changes |
| Home.HomeViewModel.OnUpdateDialogShown | app/src/main/java/com/martinez/simulago/ui/home/HomeViewModel.kt:103-105 | clears the update info and changes nothing else |

## Left out

- Floating point: IEEE rounding, `pow` precision, and the `Float`→`Double` widening of the slider values are not modelled. Every value is an exact `real`, so a table that stops one row early through rounding is not captured.
- LoanMath.MonthlyPayment: requires a non-zero term. The source divides by a zero term (`powerTerm - 1.0` is 0, or `/ numberOfMonths`) and gets NaN or Infinity in Double arithmetic.
- Calculator.Calculated: requires a non-zero term whenever something is financed. This is the same division by zero as in MonthlyPayment.
- Calculator.CalculatorViewModel.PerformCalculation: requires a non-zero term whenever something is financed, for the same reason.
- Calculator.CalculatorViewModel.OnSimulateClicked: requires a non-zero term whenever the rate is valid and something is financed, for the same reason.
- Calculator.CalculatorViewModel.RecalculateInRealTime: requires a non-zero term whenever the rate is valid and something is financed, for the same reason.
- Calculator.CalculatorViewModel.OnVehiclePriceChange: requires a non-zero term whenever the rate is valid and something is financed, for the same reason.
- String parsing: `toDoubleOrNull` is a library call and is taken as a parameter.
- Coroutines and reactive plumbing (`viewModelScope.launch`, `MutableStateFlow`, `combine`, `flatMapLatest`, `stateIn`) are not modelled. Each update or emission is one synchronous call, and re-emission on database change is the caller calling again.
- ManageCredit.ManageCreditViewModel.UiState: describes the state after the database has been read. The `isLoading = true` initial value shown before the first emission is the separate constant `LoadingState`.
- The network request of `check_for_updates`, and its catch branch that only logs, are not modelled. Only the version comparison is: the remote descriptor and `BuildConfig.VERSION_CODE` are parameters.
- Calculator.CalculatorViewModel.OnSaveSimulationClicked: does not model the catch branch ("No se pudo guardar la simulación."). A thrown SQLite exception is outside the model.
- `onSaveSuccessMessageShown` is a local function declared inside `onSaveSimulationClicked` and is never called, so there is nothing to model.
- `Log` calls, fragments, adapters, settings, dependency injection, type converters and the schema migration are not modelled: they are UI or wiring.
- Persistence.AppDatabase.GetAllSimulations: rows with equal `createdAt` come out in row-id order, by a stable sort of the scan. SQLite leaves the order of such ties unspecified.
- Persistence.AppDatabase.GetPaymentsForSimulation: rows with equal `paymentDate` come out in row-id order. SQLite leaves the order of such ties unspecified.
- ManageCredit.BalanceIgnoresQueryOrder: holds only for payments with distinct dates. With tied dates, `sortedBy` keeps the query's order, and the replay result can depend on it.
- Persistence.AppDatabase.InsertPayment: reports a constraint violation as a result value. Room throws `SQLiteConstraintException`, which `registerPayment` does not catch.
