/**
 * Value types shared by the loan engine, the view models and the database
 * tables of SimulaGo.
 *
 * Kotlin `Double` and `Float` are modelled by `real` (exact arithmetic),
 * `java.util.Date` by its epoch-millisecond timestamp, and a nullable
 * Kotlin type `T?` by `Option<T>`.
 */
module Model {

  datatype Option<+T> = None | Some(value: T)

  /** Millisecond timestamp standing for a `java.util.Date`. */
  type Timestamp = int

  /** One row of an amortization table (domain/model/AmortizationEntry.kt). */
  datatype AmortizationEntry = AmortizationEntry(
    monthNumber: int,
    monthlyPayment: real,
    principalPaid: real,
    interestPaid: real,
    remainingBalance: real)

  /** Sum of the `principalPaid` column of a table. */
  function SumPrincipal(t: seq<AmortizationEntry>): real
    decreases |t|
  {
    if t == [] then 0.0 else SumPrincipal(t[..|t| - 1]) + t[|t| - 1].principalPaid
  }

  /** Sum of the `interestPaid` column of a table. */
  function SumInterest(t: seq<AmortizationEntry>): real
    decreases |t|
  {
    if t == [] then 0.0 else SumInterest(t[..|t| - 1]) + t[|t| - 1].interestPaid
  }

  /** The column sums split over a leading row. */
  lemma {:induction false} SumsOfCons(x: AmortizationEntry, t: seq<AmortizationEntry>)
    ensures SumPrincipal([x] + t) == x.principalPaid + SumPrincipal(t)
    ensures SumInterest([x] + t) == x.interestPaid + SumInterest(t)
    decreases |t|
  {
    if t != [] {
      var n := |t|;
      assert ([x] + t)[..n] == [x] + t[..n - 1];
      SumsOfCons(x, t[..n - 1]);
    }
  }

  /** The column sums of a prefix grow by the next row. */
  lemma SumsOfPrefix(t: seq<AmortizationEntry>, k: nat)
    requires k < |t|
    ensures SumPrincipal(t[..k + 1]) == SumPrincipal(t[..k]) + t[k].principalPaid
    ensures SumInterest(t[..k + 1]) == SumInterest(t[..k]) + t[k].interestPaid
  {
    assert t[..k + 1][..k] == t[..k];
  }

  /** A row of the `simulations` table (data/local/SavedSimulation.kt). */
  datatype SavedSimulation = SavedSimulation(
    id: int,
    simulationName: string,
    vehiclePrice: real,
    downPayment: real,
    loanTermInMonths: int,
    interestRate: string,
    loanAmountToFinance: real,
    monthlyPayment: real,
    totalInterestPaid: real,
    totalLoanCost: real,
    createdAt: Timestamp,
    isActiveCredit: bool)

  /** A row of the `payments` table (data/local/PaymentEntry.kt). */
  datatype PaymentEntry = PaymentEntry(
    id: int,
    simulationId: int,
    paymentDate: Timestamp,
    amountPaid: real,
    extraToCapital: real,
    insuranceAndOthers: real,
    notes: Option<string>)

  /** The update descriptor served by the update endpoint (data/remote/UpdateInfo.kt). */
  datatype UpdateInfo = UpdateInfo(
    latestVersionCode: int,
    latestVersionName: string,
    updateUrl: string,
    releaseNotes: seq<string>)

  /** State of the calculator screen, with the two fields the view model also writes. */
  datatype CalculatorUiState = CalculatorUiState(
    vehiclePrice: real,
    downPayment: real,
    loanTermInMonths: int,
    interestRate: string,
    loanAmountToFinance: Option<real>,
    monthlyPayment: Option<real>,
    totalInterestPaid: Option<real>,
    totalLoanCost: Option<real>,
    showResults: bool,
    error: Option<string>,
    amortizationTable: seq<AmortizationEntry>,
    showSaveSuccessMessage: bool)

  /** The default-argument instance `CalculatorUiState()`. */
  const InitialCalculatorUiState := CalculatorUiState(
    80000000.0, 30000000.0, 72, "1.8",
    None, None, None, None,
    false, None, [], false)

  /** State of the home screen, with the update descriptor the view model also writes. */
  datatype HomeUiState = HomeUiState(
    allSimulations: seq<SavedSimulation>,
    activeCredit: Option<SavedSimulation>,
    showOnboardingCard: bool,
    isInSelectionMode: bool,
    updateAvailableInfo: Option<UpdateInfo>)

  /** The default-argument instance `HomeUiState()`. */
  const InitialHomeUiState := HomeUiState([], None, true, false, None)

  /** State of the "manage active credit" screen (domain/model/ManageCreditUiState.kt). */
  datatype ManageCreditUiState = ManageCreditUiState(
    activeCredit: Option<SavedSimulation>,
    paymentHistory: seq<PaymentEntry>,
    currentBalance: real,
    isLoading: bool,
    error: Option<string>)
}
