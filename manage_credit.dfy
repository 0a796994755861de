/**
 * The "manage active credit" screen's view model (ManageCreditViewModel):
 * it reconciles a stored credit with the payments registered against it,
 * replaying one month per payment in date order, and registers new payments.
 */
module ManageCredit {
  import opened Model
  import opened Sorting
  import opened LoanMath
  import opened Persistence

  /** Sort key of `sortedBy { it.paymentDate }`. */
  function PaymentDate(p: PaymentEntry): int { p.paymentDate }

  /**
   * One replayed month: interest is charged on `balance`, the base monthly
   * payment minus that interest repays capital, and the payment's extra
   * capital is taken off as well.
   */
  function ReplayStep(balance: real, monthlyRate: real, baseMonthlyPayment: real, extraToCapital: real): real
  {
    balance - ((baseMonthlyPayment - balance * monthlyRate) + extraToCapital)
  }

  /** The balance after replaying `payments` in the given order, starting from `balance`. */
  function Replay(balance: real, monthlyRate: real, baseMonthlyPayment: real, payments: seq<PaymentEntry>): real
    decreases |payments|
  {
    if payments == [] then balance
    else Replay(ReplayStep(balance, monthlyRate, baseMonthlyPayment, payments[0].extraToCapital),
                monthlyRate, baseMonthlyPayment, payments[1..])
  }

  /** The balance of credit `c` after its `payments`, replayed from the oldest. */
  function CreditBalance(c: SavedSimulation, payments: seq<PaymentEntry>, toDoubleOrNull: string -> Option<real>): real
  {
    Replay(c.loanAmountToFinance, MonthlyRate(c.interestRate, toDoubleOrNull), c.monthlyPayment,
           SortBy(payments, PaymentDate))
  }

  /** The `combine` result for a credit lookup and that credit's payments. */
  function CreditState(credit: Option<SavedSimulation>, payments: seq<PaymentEntry>,
                       toDoubleOrNull: string -> Option<real>): ManageCreditUiState
  {
    match credit
    case None => ManageCreditUiState(None, [], 0.0, false, None)
    case Some(c) =>
      ManageCreditUiState(Some(c), payments, NonNegative(CreditBalance(c, payments, toDoubleOrNull)), false, None)
  }

  /** The `combine { credit, payments -> ... }` block: the credit's balance replayed over its payments by date. */
  method Combine(credit: Option<SavedSimulation>, payments: seq<PaymentEntry>, toDoubleOrNull: string -> Option<real>)
    returns (state: ManageCreditUiState)
    ensures state == CreditState(credit, payments, toDoubleOrNull)
  {
    if credit.None? {
      return ManageCreditUiState(None, [], 0.0, false, None);
    }
    var c := credit.value;
    var monthlyRate := MonthlyRate(c.interestRate, toDoubleOrNull);
    var currentBalance := ReplayLoop(c.loanAmountToFinance, monthlyRate, c.monthlyPayment, SortBy(payments, PaymentDate));
    state := ManageCreditUiState(Some(c), payments, if currentBalance < 0.0 then 0.0 else currentBalance, false, None);
  }

  /** The `for (payment in ...)` loop of `combine`: one replayed month per payment, in the given order. */
  method ReplayLoop(balance: real, monthlyRate: real, baseMonthlyPayment: real, sorted: seq<PaymentEntry>)
    returns (currentBalance: real)
    ensures currentBalance == Replay(balance, monthlyRate, baseMonthlyPayment, sorted)
  {
    currentBalance := balance;
    var i := 0;
    while i < |sorted|
      invariant 0 <= i <= |sorted|
      invariant Replay(currentBalance, monthlyRate, baseMonthlyPayment, sorted[i..])
             == Replay(balance, monthlyRate, baseMonthlyPayment, sorted)
    {
      var payment := sorted[i];
      ReplayUnfold(currentBalance, monthlyRate, baseMonthlyPayment, sorted, i);
      var interestForPeriod := currentBalance * monthlyRate;
      var principalFromBasePayment := baseMonthlyPayment - interestForPeriod;
      currentBalance := currentBalance - (principalFromBasePayment + payment.extraToCapital);
      i := i + 1;
    }
    assert sorted[i..] == [];
  }

  /** Replaying from position `i` is one replayed month followed by replaying from `i + 1`. */
  lemma ReplayUnfold(balance: real, rate: real, base: real, s: seq<PaymentEntry>, i: nat)
    requires i < |s|
    ensures Replay(balance, rate, base, s[i..])
         == Replay(ReplayStep(balance, rate, base, s[i].extraToCapital), rate, base, s[i + 1..])
  {
    assert s[i..][0] == s[i] && s[i..][1..] == s[i + 1..];
  }

  /** Replaying one more payment at the end is one more replayed month. */
  lemma {:induction false} ReplayAppend(balance: real, rate: real, base: real, payments: seq<PaymentEntry>, p: PaymentEntry)
    ensures Replay(balance, rate, base, payments + [p])
         == ReplayStep(Replay(balance, rate, base, payments), rate, base, p.extraToCapital)
    decreases |payments|
  {
    if payments == [] {
      assert [] + [p] == [p];
    } else {
      assert (payments + [p])[0] == payments[0] && (payments + [p])[1..] == payments[1..] + [p];
      ReplayAppend(ReplayStep(balance, rate, base, payments[0].extraToCapital), rate, base, payments[1..], p);
    }
  }

  /**
   * Only the extra capital of a payment enters the balance: two payment
   * lists with the same extras, month by month, give the same balance,
   * whatever was actually paid or charged for insurance.
   */
  lemma {:induction false} ReplayOnlyExtrasCount(balance: real, rate: real, base: real, ps: seq<PaymentEntry>, qs: seq<PaymentEntry>)
    requires |ps| == |qs|
    requires forall i :: 0 <= i < |ps| ==> ps[i].extraToCapital == qs[i].extraToCapital
    ensures Replay(balance, rate, base, ps) == Replay(balance, rate, base, qs)
    decreases |ps|
  {
    if ps != [] {
      ReplayOnlyExtrasCount(ReplayStep(balance, rate, base, ps[0].extraToCapital), rate, base, ps[1..], qs[1..]);
    }
  }

  /** Payments without extra capital follow the loan's own schedule. */
  lemma {:induction false} ReplayWithoutExtras(balance: real, rate: real, base: real, ps: seq<PaymentEntry>)
    requires forall i :: 0 <= i < |ps| ==> ps[i].extraToCapital == 0.0
    ensures Replay(balance, rate, base, ps) == BalanceAfter(balance, rate, base, |ps|)
    decreases |ps|
  {
    if ps != [] {
      ReplayWithoutExtras(Step(balance, rate, base), rate, base, ps[1..]);
    }
  }

  /** Sum of the extra capital of `ps`. */
  function SumExtras(ps: seq<PaymentEntry>): real
    decreases |ps|
  {
    if ps == [] then 0.0 else ps[0].extraToCapital + SumExtras(ps[1..])
  }

  /** Without interest the balance drops by one base payment per payment plus all extras. */
  lemma {:induction false} ReplayAtZeroRate(balance: real, base: real, ps: seq<PaymentEntry>)
    ensures Replay(balance, 0.0, base, ps) == balance - |ps| as real * base - SumExtras(ps)
    decreases |ps|
  {
    if ps != [] {
      ReplayAtZeroRate(ReplayStep(balance, 0.0, base, ps[0].extraToCapital), base, ps[1..]);
    }
  }

  /**
   * Extra capital never leaves more owed than the plain schedule: with a
   * non-negative rate and non-negative extras, the replayed balance is at
   * most the scheduled balance after as many months.
   */
  lemma {:induction false} ExtrasNeverRaiseBalance(balance: real, rate: real, base: real, ps: seq<PaymentEntry>)
    requires rate >= 0.0
    requires forall i :: 0 <= i < |ps| ==> ps[i].extraToCapital >= 0.0
    ensures Replay(balance, rate, base, ps) <= BalanceAfter(balance, rate, base, |ps|)
  {
    ExtrasBelowSchedule(balance, balance, rate, base, ps);
  }

  lemma {:induction false} ExtrasBelowSchedule(b: real, scheduled: real, rate: real, base: real, ps: seq<PaymentEntry>)
    requires rate >= 0.0 && b <= scheduled
    requires forall i :: 0 <= i < |ps| ==> ps[i].extraToCapital >= 0.0
    ensures Replay(b, rate, base, ps) <= BalanceAfter(scheduled, rate, base, |ps|)
    decreases |ps|
  {
    if ps != [] {
      var next := ReplayStep(b, rate, base, ps[0].extraToCapital);
      assert next <= Step(scheduled, rate, base) by {
        assert (scheduled - b) * (1.0 + rate) >= 0.0;
      }
      ExtrasBelowSchedule(next, Step(scheduled, rate, base), rate, base, ps[1..]);
    }
  }

  /**
   * A credit saved with the annuity payment of its own amount, rate and
   * term, paid for `term` months without extra capital, shows a zero balance.
   */
  lemma ScheduledPaymentsPayOffCredit(c: SavedSimulation, payments: seq<PaymentEntry>, toDoubleOrNull: string -> Option<real>)
    requires MonthlyRate(c.interestRate, toDoubleOrNull) >= 0.0 && c.loanTermInMonths >= 1
    requires c.monthlyPayment == MonthlyPayment(c.loanAmountToFinance, MonthlyRate(c.interestRate, toDoubleOrNull), c.loanTermInMonths)
    requires |payments| == c.loanTermInMonths
    requires forall p :: p in payments ==> p.extraToCapital == 0.0
    ensures CreditState(Some(c), payments, toDoubleOrNull).currentBalance == 0.0
  {
    var sorted := SortBy(payments, PaymentDate);
    SortByKeepsElements(payments, PaymentDate);
    assert forall i :: 0 <= i < |sorted| ==> sorted[i] in payments;
    var rate := MonthlyRate(c.interestRate, toDoubleOrNull);
    ReplayWithoutExtras(c.loanAmountToFinance, rate, c.monthlyPayment, sorted);
    AnnuityRetiresLoan(c.loanAmountToFinance, rate, c.loanTermInMonths);
  }

  /**
   * The order in which the database hands over the payments does not
   * matter when no two share a date: the reconciler sorts them itself.
   */
  lemma BalanceIgnoresQueryOrder(credit: Option<SavedSimulation>, ps: seq<PaymentEntry>, qs: seq<PaymentEntry>,
                                 toDoubleOrNull: string -> Option<real>)
    requires multiset(ps) == multiset(qs)
    requires DistinctKeys(ps, PaymentDate)
    ensures CreditState(credit, ps, toDoubleOrNull).currentBalance == CreditState(credit, qs, toDoubleOrNull).currentBalance
  {
    SortByIgnoresArrivalOrder(ps, qs, PaymentDate);
  }

  /** A payment dated no earlier than all others is replayed last, as one more month. */
  lemma LatestPaymentAddsOneMonth(c: SavedSimulation, ps: seq<PaymentEntry>, p: PaymentEntry,
                                  toDoubleOrNull: string -> Option<real>)
    requires forall q :: q in ps ==> q.paymentDate <= p.paymentDate
    ensures CreditBalance(c, ps + [p], toDoubleOrNull)
         == ReplayStep(CreditBalance(c, ps, toDoubleOrNull), MonthlyRate(c.interestRate, toDoubleOrNull),
                       c.monthlyPayment, p.extraToCapital)
  {
    SortByAppendLast(ps, p, PaymentDate);
    ReplayAppend(c.loanAmountToFinance, MonthlyRate(c.interestRate, toDoubleOrNull), c.monthlyPayment,
                 SortBy(ps, PaymentDate), p);
  }

  /**
   * A newest payment never raises the credit's balance when the base
   * payment covers the month's interest and the extra capital is not negative.
   */
  lemma LatestPaymentNeverRaisesBalance(c: SavedSimulation, ps: seq<PaymentEntry>, p: PaymentEntry,
                                        toDoubleOrNull: string -> Option<real>)
    requires forall q :: q in ps ==> q.paymentDate <= p.paymentDate
    requires c.monthlyPayment >= CreditBalance(c, ps, toDoubleOrNull) * MonthlyRate(c.interestRate, toDoubleOrNull)
    requires p.extraToCapital >= 0.0
    ensures CreditBalance(c, ps + [p], toDoubleOrNull) <= CreditBalance(c, ps, toDoubleOrNull)
  {
    LatestPaymentAddsOneMonth(c, ps, p, toDoubleOrNull);
  }

  /** `ManageCreditUiState(isLoading = true)`: the state before any credit is known. */
  const LoadingState := ManageCreditUiState(None, [], 0.0, true, None)

  class ManageCreditViewModel {
    /** The `simulationId` navigation argument (0 when absent). */
    const simulationId: int
    /** The database behind both SimulationDao and PaymentDao. */
    const database: AppDatabase
    /** Kotlin's `String.toDoubleOrNull()`, supplied by the platform. */
    const toDoubleOrNull: string -> Option<real>

    constructor (simulationId: int, database: AppDatabase, toDoubleOrNull: string -> Option<real>)
      ensures this.simulationId == simulationId && this.database == database && this.toDoubleOrNull == toDoubleOrNull
    {
      this.simulationId := simulationId;
      this.database := database;
      this.toDoubleOrNull := toDoubleOrNull;
    }

    /**
     * `uiState` once the database has been read: still loading without a
     * valid id; otherwise the stored credit with exactly its own payments,
     * latest first, and a balance that is never negative; an empty state
     * when no credit has that id.
     */
    function UiState(): (r: ManageCreditUiState)
      reads database
      ensures r.isLoading <==> simulationId <= 0
      ensures simulationId > 0 ==> (r.activeCredit.Some? <==> simulationId in database.simulations)
      ensures r.activeCredit.Some? ==>
        && simulationId in database.simulations
        && r.activeCredit.value == database.simulations[simulationId]
        && (forall p :: p in r.paymentHistory <==> IsRowOf(p, database.payments) && p.simulationId == simulationId)
        && (forall i, j :: 0 <= i < j < |r.paymentHistory| ==> r.paymentHistory[i].paymentDate >= r.paymentHistory[j].paymentDate)
        && r.currentBalance >= 0.0
      ensures r.activeCredit.None? ==> r.paymentHistory == [] && r.currentBalance == 0.0 && r.error.None?
    {
      if simulationId <= 0 then LoadingState
      else CreditState(database.GetSimulationById(simulationId), database.GetPaymentsForSimulation(simulationId),
                       toDoubleOrNull)
    }

    /** Reads the credit and its payments and runs the reconciliation. */
    method ObserveUiState() returns (state: ManageCreditUiState)
      ensures state == UiState()
    {
      if simulationId <= 0 {
        return LoadingState;
      }
      var credit := database.GetSimulationById(simulationId);
      var payments := database.GetPaymentsForSimulation(simulationId);
      state := Combine(credit, payments, toDoubleOrNull);
    }

    /**
     * `registerPayment(amount, extraToCapital, insurance, notes)`, dated
     * `now`: nothing happens without a valid id; otherwise a payment with a
     * fresh id is stored, and it appears in the screen's history, unless
     * the credit no longer exists (a foreign-key violation).
     */
    method RegisterPayment(amount: real, extraToCapital: real, insurance: real, notes: Option<string>, now: Timestamp)
      returns (violation: Option<ConstraintViolation>)
      requires database.Valid()
      modifies database
      ensures database.Valid()
      ensures database.simulations == old(database.simulations)
      ensures database.simulationSequence == old(database.simulationSequence)
      ensures simulationId > 0 && violation.None? ==> database.paymentSequence == old(database.paymentSequence) + 1
      ensures simulationId <= 0 || violation.Some? ==> database.paymentSequence == old(database.paymentSequence)
      ensures simulationId <= 0 ==> violation.None? && database.payments == old(database.payments)
      ensures simulationId > 0 ==> (violation.None? <==> simulationId in database.simulations)
      ensures violation.Some? ==> violation == Some(ForeignKeyViolation) && database.payments == old(database.payments)
      ensures simulationId > 0 && violation.None? ==>
        var id := old(database.paymentSequence) + 1;
        var payment := PaymentEntry(id, simulationId, now, amount, extraToCapital, insurance, notes);
        && database.payments == old(database.payments)[id := payment]
        && payment in UiState().paymentHistory
    {
      violation := None;
      var currentId := simulationId;
      if currentId > 0 {
        var payment := PaymentEntry(0, currentId, now, amount, extraToCapital, insurance, notes);
        violation := database.InsertPayment(payment);
        if violation.None? {
          var id := old(database.paymentSequence) + 1;
          assert database.payments[id] == payment.(id := id);
          assert IsRowOf(payment.(id := id), database.payments);
        }
      }
    }
  }
}
