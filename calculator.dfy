/**
 * The calculator screen's view model (CalculatorViewModel): it keeps the
 * screen state, recomputes the amount to finance, the monthly payment, the
 * totals and its own amortization table, and saves a finished simulation.
 */
module Calculator {
  import opened Model
  import opened LoanMath
  import opened Persistence
  import AmortizationUseCase

  const InvalidRateMessage: string := "La tasa de interés debe ser un número positivo."
  const NothingToSaveMessage: string := "No hay una simulación válida para guardar."

  const IntMin: int := -2147483648
  const IntMax: int := 2147483647

  /** Kotlin's `Float.toInt()`: truncation toward zero, saturated to the `Int` range. */
  function FloatToInt(x: real): (r: int)
    ensures IntMin <= r <= IntMax
    ensures IntMin as real < x < IntMax as real && x >= 0.0 ==> r as real <= x < r as real + 1.0
    ensures IntMin as real < x < IntMax as real && x < 0.0 ==> r as real - 1.0 < x <= r as real
    ensures x >= IntMax as real ==> r == IntMax
    ensures x <= IntMin as real ==> r == IntMin
  {
    if x >= IntMax as real then IntMax
    else if x <= IntMin as real then IntMin
    else if x >= 0.0 then x.Floor
    else -((-x).Floor)
  }

  /**
   * The rows the view model's `generateAmortizationTable` emits from
   * `month` to `term` when `balance` is owed at the start of `month`:
   * every month pays `payment`, with no last-month adjustment and no early stop.
   */
  function TableFrom(balance: real, rate: real, term: int, payment: real, month: int): seq<AmortizationEntry>
    decreases if month <= term then term - month + 1 else 0
  {
    if month > term then []
    else
      var interest := balance * rate;
      var principalPart := payment - interest;
      var finalBalance := balance - principalPart;
      [AmortizationEntry(month, payment, principalPart, interest, NonNegative(finalBalance))]
        + TableFrom(finalBalance, rate, term, payment, month + 1)
  }

  /** The view model's table for months 1 .. `term`. */
  function Table(principal: real, rate: real, term: int, payment: real): seq<AmortizationEntry>
  {
    TableFrom(principal, rate, term, payment, 1)
  }

  /** `generateAmortizationTable`: the `for (month in 1..termInMonths)` loop. */
  method GenerateAmortizationTable(principal: real, monthlyRateDecimal: real, termInMonths: int, monthlyPayment: real)
    returns (table: seq<AmortizationEntry>)
    ensures table == Table(principal, monthlyRateDecimal, termInMonths, monthlyPayment)
  {
    table := [];
    var currentBalance := principal;
    var month := 1;
    while month <= termInMonths
      invariant 1 <= month
      invariant table + TableFrom(currentBalance, monthlyRateDecimal, termInMonths, monthlyPayment, month)
             == Table(principal, monthlyRateDecimal, termInMonths, monthlyPayment)
      decreases termInMonths - month
    {
      var interestForMonth := currentBalance * monthlyRateDecimal;
      var principalForMonth := monthlyPayment - interestForMonth;
      var finalBalance := currentBalance - principalForMonth;
      var row := AmortizationEntry(month, monthlyPayment, principalForMonth, interestForMonth, NonNegative(finalBalance));
      assert TableFrom(currentBalance, monthlyRateDecimal, termInMonths, monthlyPayment, month)
          == [row] + TableFrom(finalBalance, monthlyRateDecimal, termInMonths, monthlyPayment, month + 1);
      table := table + [row];
      currentBalance := finalBalance;
      month := month + 1;
    }
  }

  /** Row `i` of the view model's table: month `firstMonth + i`, charged on the balance after `i` payments. */
  ghost predicate TableRowIs(t: seq<AmortizationEntry>, i: nat, principal: real, rate: real, payment: real, firstMonth: int)
    requires i < |t|
  {
    var owed := BalanceAfter(principal, rate, payment, i);
    t[i] == AmortizationEntry(firstMonth + i, payment, payment - owed * rate, owed * rate,
                              NonNegative(BalanceAfter(principal, rate, payment, i + 1)))
  }

  /** Length and rows of the view model's table, from any starting month. */
  lemma {:induction false} TableFromRows(balance: real, rate: real, term: int, payment: real, month: int)
    ensures var t := TableFrom(balance, rate, term, payment, month);
      && |t| == (if month <= term then term - month + 1 else 0)
      && forall i: nat :: i < |t| ==> TableRowIs(t, i, balance, rate, payment, month)
    decreases if month <= term then term - month + 1 else 0
  {
    if month <= term {
      var t := TableFrom(balance, rate, term, payment, month);
      var next := Step(balance, rate, payment);
      var rest := TableFrom(next, rate, term, payment, month + 1);
      assert t == [t[0]] + rest;
      TableFromRows(next, rate, term, payment, month + 1);
      assert TableRowIs(t, 0, balance, rate, payment, month);
      forall i: nat | 1 <= i < |t|
        ensures TableRowIs(t, i, balance, rate, payment, month)
      {
        assert TableRowIs(rest, i - 1, next, rate, payment, month + 1);
        assert t[i] == rest[i - 1];
      }
    }
  }

  /** Telescoping over the first `k` rows: principal repaid and interest charged. */
  lemma {:induction false} TablePrefixSums(t: seq<AmortizationEntry>, principal: real, rate: real, payment: real, k: nat)
    requires k <= |t|
    requires forall i: nat :: i < |t| ==> TableRowIs(t, i, principal, rate, payment, 1)
    ensures SumPrincipal(t[..k]) == principal - BalanceAfter(principal, rate, payment, k)
    ensures SumInterest(t[..k]) == k as real * payment - SumPrincipal(t[..k])
    decreases k
  {
    if k > 0 {
      TablePrefixSums(t, principal, rate, payment, k - 1);
      SumsOfPrefix(t, k - 1);
      BalanceAfterSucc(principal, rate, payment, k - 1);
      assert TableRowIs(t, k - 1, principal, rate, payment, 1);
    }
  }

  /** The rows of the view model's table of a loan, with the sums of their columns. */
  lemma TableColumns(principal: real, rate: real, term: int, payment: real)
    ensures var t := Table(principal, rate, term, payment);
      && |t| == (if term > 0 then term else 0)
      && (forall i :: 0 <= i < |t| ==>
            && t[i].monthNumber == i + 1
            && t[i].monthlyPayment == payment
            && t[i].principalPaid + t[i].interestPaid == payment
            && t[i].interestPaid == BalanceAfter(principal, rate, payment, i) * rate
            && t[i].remainingBalance == NonNegative(BalanceAfter(principal, rate, payment, i + 1)))
      && SumPrincipal(t) == principal - BalanceAfter(principal, rate, payment, |t|)
      && SumInterest(t) == |t| as real * payment - SumPrincipal(t)
  {
    TableFromRows(principal, rate, term, payment, 1);
    ColumnsOfRows(Table(principal, rate, term, payment), principal, rate, payment);
  }

  /** Columns and column sums of any table whose rows are those of the view model's generator. */
  lemma ColumnsOfRows(t: seq<AmortizationEntry>, principal: real, rate: real, payment: real)
    requires forall i: nat :: i < |t| ==> TableRowIs(t, i, principal, rate, payment, 1)
    ensures forall i :: 0 <= i < |t| ==>
              && t[i].monthNumber == i + 1
              && t[i].monthlyPayment == payment
              && t[i].principalPaid + t[i].interestPaid == payment
              && t[i].interestPaid == BalanceAfter(principal, rate, payment, i) * rate
              && t[i].remainingBalance == NonNegative(BalanceAfter(principal, rate, payment, i + 1))
    ensures SumPrincipal(t) == principal - BalanceAfter(principal, rate, payment, |t|)
    ensures SumInterest(t) == |t| as real * payment - SumPrincipal(t)
  {
    forall i | 0 <= i < |t|
      ensures && t[i].monthNumber == i + 1
              && t[i].monthlyPayment == payment
              && t[i].principalPaid + t[i].interestPaid == payment
              && t[i].interestPaid == BalanceAfter(principal, rate, payment, i) * rate
              && t[i].remainingBalance == NonNegative(BalanceAfter(principal, rate, payment, i + 1))
    {
      RowColumns(t, i, principal, rate, payment);
    }
    TableSums(t, principal, rate, payment);
  }

  /** The columns of one row of the view model's table. */
  lemma RowColumns(t: seq<AmortizationEntry>, i: nat, principal: real, rate: real, payment: real)
    requires i < |t| && TableRowIs(t, i, principal, rate, payment, 1)
    ensures && t[i].monthNumber == i + 1
            && t[i].monthlyPayment == payment
            && t[i].principalPaid + t[i].interestPaid == payment
            && t[i].interestPaid == BalanceAfter(principal, rate, payment, i) * rate
            && t[i].remainingBalance == NonNegative(BalanceAfter(principal, rate, payment, i + 1))
  {
  }

  /** The column sums of a table whose rows are those of the view model's generator. */
  lemma TableSums(t: seq<AmortizationEntry>, principal: real, rate: real, payment: real)
    requires forall i: nat :: i < |t| ==> TableRowIs(t, i, principal, rate, payment, 1)
    ensures SumPrincipal(t) == principal - BalanceAfter(principal, rate, payment, |t|)
    ensures SumInterest(t) == |t| as real * payment - SumPrincipal(t)
  {
    TablePrefixSums(t, principal, rate, payment, |t|);
    assert t[..|t|] == t;
  }

  /**
   * The table of a loan under its own monthly payment (rate >= 0, term >= 1):
   * `term` rows paying that payment, the principal column adds up to the
   * amount, the interest column to `term * payment - amount`, and the
   * balance reaches zero in the last month and not before.
   */
  lemma AnnuityTable(amount: real, rate: real, term: nat)
    requires rate >= 0.0 && term >= 1
    ensures var payment := MonthlyPayment(amount, rate, term);
      var t := Table(amount, rate, term, payment);
      && |t| == term
      && (forall i :: 0 <= i < |t| ==>
            t[i].monthNumber == i + 1 && t[i].monthlyPayment == payment
            && t[i].principalPaid + t[i].interestPaid == payment)
      && SumPrincipal(t) == amount
      && SumInterest(t) == term as real * payment - amount
      && t[term - 1].remainingBalance == 0.0
      && (amount > 0.0 ==> forall i :: 0 <= i < term - 1 ==> t[i].remainingBalance > 0.0)
  {
    AnnuityTableTotals(amount, rate, term);
    if amount > 0.0 {
      AnnuityTableOwing(amount, rate, term);
    }
  }

  /** Rows, payment column and column sums of the table under the loan's own payment. */
  lemma AnnuityTableTotals(amount: real, rate: real, term: nat)
    requires rate >= 0.0 && term >= 1
    ensures var payment := MonthlyPayment(amount, rate, term);
      var t := Table(amount, rate, term, payment);
      && |t| == term
      && (forall i :: 0 <= i < |t| ==>
            t[i].monthNumber == i + 1 && t[i].monthlyPayment == payment
            && t[i].principalPaid + t[i].interestPaid == payment)
      && SumPrincipal(t) == amount
      && SumInterest(t) == term as real * payment - amount
      && t[term - 1].remainingBalance == 0.0
  {
    AnnuityRetiresLoan(amount, rate, term);
    RetiringTable(amount, rate, term, MonthlyPayment(amount, rate, term));
  }

  /** The table under any payment that leaves nothing owed after `term` months. */
  lemma RetiringTable(amount: real, rate: real, term: nat, payment: real)
    requires term >= 1 && BalanceAfter(amount, rate, payment, term) == 0.0
    ensures var t := Table(amount, rate, term, payment);
      && |t| == term
      && (forall i :: 0 <= i < |t| ==>
            t[i].monthNumber == i + 1 && t[i].monthlyPayment == payment
            && t[i].principalPaid + t[i].interestPaid == payment)
      && SumPrincipal(t) == amount
      && SumInterest(t) == term as real * payment - amount
      && t[term - 1].remainingBalance == 0.0
  {
    TableColumns(amount, rate, term, payment);
  }

  /** Under the loan's own payment every month before the last leaves some balance owed. */
  lemma AnnuityTableOwing(amount: real, rate: real, term: nat)
    requires amount > 0.0 && rate >= 0.0 && term >= 1
    ensures var t := Table(amount, rate, term, MonthlyPayment(amount, rate, term));
      |t| == term && forall i :: 0 <= i < term - 1 ==> t[i].remainingBalance > 0.0
  {
    var payment := MonthlyPayment(amount, rate, term);
    var t := Table(amount, rate, term, payment);
    TableFromRows(amount, rate, term, payment, 1);
    forall i | 0 <= i < term - 1 ensures t[i].remainingBalance > 0.0 {
      assert TableRowIs(t, i, amount, rate, payment, 1);
      AnnuityBalancePositive(amount, rate, term, i + 1);
    }
  }

  /**
   * For any payment, the use case's unclamped balance after `i` rows,
   * before the last month, is the loan balance B(i) under that payment.
   */
  lemma {:induction false} UseCaseOutstanding(amount: real, rate: real, term: int, payment: real,
                                              u: seq<AmortizationEntry>, i: nat)
    requires AmortizationUseCase.RowsFollowRules(u, amount, rate, term, payment, 1)
    requires i <= |u| && i < term
    ensures AmortizationUseCase.Outstanding(amount, u, i) == BalanceAfter(amount, rate, payment, i)
    decreases i
  {
    if i > 0 {
      UseCaseOutstanding(amount, rate, term, payment, u, i - 1);
      SumsOfPrefix(u, i - 1);
      BalanceAfterSucc(amount, rate, payment, i - 1);
      assert AmortizationUseCase.RowFollowsRules(u, i - 1, amount, rate, term, payment, 1);
    }
  }

  /**
   * The domain use case and the view model build the same table for a
   * loan under its own monthly payment: same number of rows and the same
   * month, payment, principal and interest columns. (They can differ only
   * in the shown balance, which the use case rounds to zero below one cent.)
   */
  lemma UseCaseAgreesWithViewModelTable(amount: real, rate: real, term: nat)
    requires amount > 0.0 && rate >= 0.0 && term >= 1
    ensures var payment := MonthlyPayment(amount, rate, term);
      var u := AmortizationUseCase.Schedule(amount, rate, term, payment);
      var c := Table(amount, rate, term, payment);
      && |u| == |c| == term
      && forall i :: 0 <= i < term ==> SameColumns(u[i], c[i])
  {
    var payment := MonthlyPayment(amount, rate, term);
    var u := AmortizationUseCase.Schedule(amount, rate, term, payment);
    var c := Table(amount, rate, term, payment);
    UseCaseRunsFullTerm(amount, rate, term);
    TableColumns(amount, rate, term, payment);
    forall i | 0 <= i < term ensures SameColumns(u[i], c[i]) {
      UseCaseRowAgrees(amount, rate, term, i);
    }
  }

  /** Two rows agree in their month, payment, principal and interest. */
  predicate SameColumns(x: AmortizationEntry, y: AmortizationEntry)
  {
    && x.monthNumber == y.monthNumber
    && x.monthlyPayment == y.monthlyPayment
    && x.principalPaid == y.principalPaid
    && x.interestPaid == y.interestPaid
  }

  /** Tables that agree in their principal and interest columns have the same column sums. */
  lemma {:induction false} SameColumnsSameSums(u: seq<AmortizationEntry>, c: seq<AmortizationEntry>)
    requires |u| == |c|
    requires forall i :: 0 <= i < |u| ==> SameColumns(u[i], c[i])
    ensures SumPrincipal(u) == SumPrincipal(c) && SumInterest(u) == SumInterest(c)
    decreases |u|
  {
    if u != [] {
      var n := |u| - 1;
      SameColumnsSameSums(u[..n], c[..n]);
      assert SameColumns(u[n], c[n]);
    }
  }

  /** Under the annuity payment the use case never stops early. */
  lemma UseCaseRunsFullTerm(amount: real, rate: real, term: nat)
    requires amount > 0.0 && rate >= 0.0 && term >= 1
    ensures var payment := MonthlyPayment(amount, rate, term);
      var u := AmortizationUseCase.Schedule(amount, rate, term, payment);
      && |u| == term
      && AmortizationUseCase.RowsFollowRules(u, amount, rate, term, payment, 1)
  {
    var payment := MonthlyPayment(amount, rate, term);
    var u := AmortizationUseCase.Schedule(amount, rate, term, payment);
    AmortizationUseCase.ScheduleRows(amount, rate, term, payment);
    AmortizationUseCase.ScheduleFromLength(amount, rate, term, payment, 1);
    if |u| < term {
      UseCaseOutstanding(amount, rate, term, payment, u, |u|);
      AnnuityBalancePositive(amount, rate, term, |u|);
      assert false;
    }
  }

  /** Row `i` of the use case's table agrees with row `i` of the view model's. */
  lemma UseCaseRowAgrees(amount: real, rate: real, term: nat, i: nat)
    requires amount > 0.0 && rate >= 0.0 && term >= 1 && i < term
    ensures var payment := MonthlyPayment(amount, rate, term);
      var u := AmortizationUseCase.Schedule(amount, rate, term, payment);
      var c := Table(amount, rate, term, payment);
      |u| == |c| == term && SameColumns(u[i], c[i])
  {
    var payment := MonthlyPayment(amount, rate, term);
    var owed := BalanceAfter(amount, rate, payment, i);
    var next := BalanceAfter(amount, rate, payment, i + 1);
    UseCaseRow(amount, rate, term, i);
    ViewModelRow(amount, rate, term, payment, i);
    BalanceAfterSucc(amount, rate, payment, i);
    if i + 1 == term {
      AnnuityRetiresLoan(amount, rate, term);
    }
    RowsAgreeFromBalances(AmortizationUseCase.Schedule(amount, rate, term, payment)[i],
                          Table(amount, rate, term, payment)[i], owed, next, rate, term, payment, i + 1);
  }

  /**
   * For any payment, the two generators agree on every month before the
   * last one for which the use case emits a row: the use case only departs
   * from the view model in the last month (its adjustment) and by stopping
   * early.
   */
  lemma UseCaseRowAgreesBeforeLast(amount: real, rate: real, term: nat, payment: real, i: nat)
    requires i + 1 < term && i < |AmortizationUseCase.Schedule(amount, rate, term, payment)|
    ensures var u := AmortizationUseCase.Schedule(amount, rate, term, payment);
      var c := Table(amount, rate, term, payment);
      i < |c| && SameColumns(u[i], c[i])
  {
    var u := AmortizationUseCase.Schedule(amount, rate, term, payment);
    AmortizationUseCase.ScheduleRows(amount, rate, term, payment);
    RuledRow(u, amount, rate, term, payment, i);
    ViewModelRow(amount, rate, term, payment, i);
  }

  /** Row `i` of the use case's table under the annuity payment, in terms of the loan balance. */
  lemma UseCaseRow(amount: real, rate: real, term: nat, i: nat)
    requires amount > 0.0 && rate >= 0.0 && term >= 1 && i < term
    ensures var payment := MonthlyPayment(amount, rate, term);
      var u := AmortizationUseCase.Schedule(amount, rate, term, payment);
      var owed := BalanceAfter(amount, rate, payment, i);
      && |u| == term && u[i].monthNumber == i + 1 && u[i].interestPaid == owed * rate
      && (i + 1 == term ==> u[i].principalPaid == owed && u[i].monthlyPayment == owed + u[i].interestPaid)
      && (i + 1 != term ==> u[i].principalPaid == payment - u[i].interestPaid && u[i].monthlyPayment == payment)
  {
    UseCaseRunsFullTerm(amount, rate, term);
    var payment := MonthlyPayment(amount, rate, term);
    RuledRow(AmortizationUseCase.Schedule(amount, rate, term, payment), amount, rate, term, payment, i);
  }

  /** Row `i` of any table that follows the use case's rules, in terms of the loan balance under its payment. */
  lemma RuledRow(u: seq<AmortizationEntry>, amount: real, rate: real, term: nat, payment: real, i: nat)
    requires i < |u| <= term
    requires AmortizationUseCase.RowsFollowRules(u, amount, rate, term, payment, 1)
    ensures RowCarries(u[i], i, term, payment, rate, BalanceAfter(amount, rate, payment, i))
  {
    UseCaseOutstanding(amount, rate, term, payment, u, i);
    RowOfBalance(u, i, amount, rate, term, payment, BalanceAfter(amount, rate, payment, i));
  }

  /**
   * Row `x` is the use case's row `i` when `owed` is carried into it:
   * interest on `owed`, the whole of `owed` repaid in the last month, and
   * the regular payment in any other month.
   */
  ghost predicate RowCarries(x: AmortizationEntry, i: int, term: int, payment: real, rate: real, owed: real)
  {
    && x.monthNumber == i + 1 && x.interestPaid == owed * rate
    && (i + 1 == term ==> x.principalPaid == owed && x.monthlyPayment == owed + x.interestPaid)
    && (i + 1 != term ==> x.principalPaid == payment - x.interestPaid && x.monthlyPayment == payment)
  }

  /** Row `i` of a table that follows the use case's rules, given the balance `owed` carried into it. */
  lemma RowOfBalance(u: seq<AmortizationEntry>, i: nat, amount: real, rate: real, term: int, payment: real, owed: real)
    requires i < |u|
    requires AmortizationUseCase.RowsFollowRules(u, amount, rate, term, payment, 1)
    requires AmortizationUseCase.Outstanding(amount, u, i) == owed
    ensures RowCarries(u[i], i, term, payment, rate, owed)
  {
    assert AmortizationUseCase.RowFollowsRules(u, i, amount, rate, term, payment, 1);
  }

  /** Row `i` of the view model's table, in terms of the loan balance. */
  lemma ViewModelRow(amount: real, rate: real, term: nat, payment: real, i: nat)
    requires i < term
    ensures var c := Table(amount, rate, term, payment);
      var owed := BalanceAfter(amount, rate, payment, i);
      && |c| == term && c[i].monthNumber == i + 1 && c[i].monthlyPayment == payment
      && c[i].principalPaid == payment - owed * rate && c[i].interestPaid == owed * rate
  {
    var c := Table(amount, rate, term, payment);
    TableFromRows(amount, rate, term, payment, 1);
    assert TableRowIs(c, i, amount, rate, payment, 1);
  }

  /**
   * A use-case row and a view-model row for the same month, both charging
   * interest on the same balance, agree when the use case's last-month
   * adjustment pays exactly the regular payment.
   */
  lemma RowsAgreeFromBalances(x: AmortizationEntry, y: AmortizationEntry, owed: real, next: real,
                              rate: real, term: int, payment: real, month: int)
    requires x.monthNumber == month && x.interestPaid == owed * rate
    requires month == term ==> x.principalPaid == owed && x.monthlyPayment == owed + x.interestPaid
    requires month != term ==> x.principalPaid == payment - x.interestPaid && x.monthlyPayment == payment
    requires y.monthNumber == month && y.monthlyPayment == payment
    requires y.principalPaid == payment - owed * rate && y.interestPaid == owed * rate
    requires next == Step(owed, rate, payment)
    requires month == term ==> next == 0.0
    ensures SameColumns(x, y)
  {
  }

  /** The four results are all present or the payment is absent (so the `!!` on saving never throws). */
  ghost predicate ResultsPresent(s: CalculatorUiState)
  {
    s.monthlyPayment.Some? ==> s.loanAmountToFinance.Some? && s.totalInterestPaid.Some? && s.totalLoanCost.Some?
  }

  /** The shown results agree with the shown table. */
  ghost predicate ResultsMatchTable(s: CalculatorUiState)
  {
    && s.loanAmountToFinance.Some? && s.monthlyPayment.Some? && s.totalInterestPaid.Some? && s.totalLoanCost.Some?
    && |s.amortizationTable| >= 1
    && SumPrincipal(s.amortizationTable) == s.loanAmountToFinance.value
    && s.totalInterestPaid.value == SumInterest(s.amortizationTable)
    && s.totalLoanCost.value == s.loanAmountToFinance.value + s.totalInterestPaid.value
    && s.amortizationTable[|s.amortizationTable| - 1].remainingBalance == 0.0
    && forall i :: 0 <= i < |s.amortizationTable| ==> s.amortizationTable[i].monthlyPayment == s.monthlyPayment.value
  }

  /** Results are present together, and a positive payment comes with a table that matches it. */
  ghost predicate ResultsCoherent(s: CalculatorUiState)
  {
    && ResultsPresent(s)
    && (s.monthlyPayment.Some? && s.monthlyPayment.value > 0.0 ==> ResultsMatchTable(s))
  }

  /** The results cleared when there is nothing to compute. */
  function WithoutResults(s: CalculatorUiState): CalculatorUiState
  {
    s.(monthlyPayment := None, totalInterestPaid := None, totalLoanCost := None)
  }

  /** `monthlyPayment * numberOfMonths`. */
  function TotalLoanCost(payment: real, months: int): real
  {
    payment * months as real
  }

  /** The state after `performCalculation(state, monthlyRatePercent, forceShowResults)`. */
  function Calculated(s: CalculatorUiState, ratePercent: real, forceShowResults: bool): CalculatorUiState
    requires AmountToFinance(s.vehiclePrice, s.downPayment) > 0.0 ==> s.loanTermInMonths != 0
  {
    var amount := AmountToFinance(s.vehiclePrice, s.downPayment);
    if amount <= 0.0 then WithoutResults(s)
    else
      var rateDecimal := ratePercent / 100.0;
      var payment := MonthlyPayment(amount, rateDecimal, s.loanTermInMonths);
      var totalLoanCost := TotalLoanCost(payment, s.loanTermInMonths);
      s.(loanAmountToFinance := Some(amount),
         monthlyPayment := Some(payment),
         totalInterestPaid := Some(totalLoanCost - amount),
         totalLoanCost := Some(totalLoanCost),
         showResults := if forceShowResults then true else s.showResults,
         amortizationTable := Table(amount, rateDecimal, s.loanTermInMonths, payment),
         error := None)
  }

  /**
   * What a calculation shows: nothing new when there is nothing to finance
   * (the previous amount and table stay); otherwise the amount, a payment
   * above the first month's interest whose table repays the amount in
   * `term` months with the totals equal to the table's columns, or a
   * negative payment and no table for a negative term.
   */
  lemma CalculatedResults(s: CalculatorUiState, ratePercent: real, forceShowResults: bool)
    requires ratePercent > 0.0
    requires AmountToFinance(s.vehiclePrice, s.downPayment) > 0.0 ==> s.loanTermInMonths != 0
    ensures var r := Calculated(s, ratePercent, forceShowResults);
      var amount := AmountToFinance(s.vehiclePrice, s.downPayment);
      && r.vehiclePrice == s.vehiclePrice && r.downPayment == s.downPayment
      && r.loanTermInMonths == s.loanTermInMonths && r.interestRate == s.interestRate
      && r.showSaveSuccessMessage == s.showSaveSuccessMessage
      && ResultsPresent(r)
      && (amount <= 0.0 ==>
            && r.monthlyPayment.None? && r.totalInterestPaid.None? && r.totalLoanCost.None?
            && r.loanAmountToFinance == s.loanAmountToFinance && r.amortizationTable == s.amortizationTable
            && r.showResults == s.showResults && r.error == s.error)
      && (amount > 0.0 ==>
            && r.loanAmountToFinance == Some(amount) && r.monthlyPayment.Some?
            && r.showResults == (forceShowResults || s.showResults) && r.error.None?)
      && (amount > 0.0 && s.loanTermInMonths > 0 ==>
            && r.monthlyPayment.value > amount * (ratePercent / 100.0)
            && |r.amortizationTable| == s.loanTermInMonths
            && ResultsMatchTable(r))
      && (amount > 0.0 && s.loanTermInMonths < 0 ==>
            r.monthlyPayment.value < 0.0 && r.amortizationTable == [])
  {
    var amount := AmountToFinance(s.vehiclePrice, s.downPayment);
    var term := s.loanTermInMonths;
    if amount > 0.0 {
      var rate := ratePercent / 100.0;
      if term > 0 {
        var r := Calculated(s, ratePercent, forceShowResults);
        AnnuityResults(r, amount, rate, term);
      } else {
        TableFromRows(amount, rate, term, MonthlyPayment(amount, rate, term), 1);
      }
    }
  }

  /** Results computed from the annuity payment of a positive amount over `term >= 1` months match their table. */
  lemma AnnuityResults(r: CalculatorUiState, amount: real, rate: real, term: nat)
    requires amount > 0.0 && rate > 0.0 && term >= 1
    requires r.loanAmountToFinance == Some(amount)
    requires r.monthlyPayment == Some(MonthlyPayment(amount, rate, term))
    requires r.totalLoanCost == Some(TotalLoanCost(r.monthlyPayment.value, term))
    requires r.totalInterestPaid == Some(r.totalLoanCost.value - amount)
    requires r.amortizationTable == Table(amount, rate, term, r.monthlyPayment.value)
    ensures r.monthlyPayment.value > amount * rate
    ensures |r.amortizationTable| == term
    ensures ResultsMatchTable(r)
  {
    AnnuityTable(amount, rate, term);
  }

  /** The row `onSaveSimulationClicked` builds: defaults id 0, `createdAt` now, not active. */
  function SimulationToSave(s: CalculatorUiState, simulationName: string, now: Timestamp): SavedSimulation
    requires s.loanAmountToFinance.Some? && s.monthlyPayment.Some?
    requires s.totalInterestPaid.Some? && s.totalLoanCost.Some?
  {
    SavedSimulation(0, simulationName, s.vehiclePrice, s.downPayment, s.loanTermInMonths, s.interestRate,
                    s.loanAmountToFinance.value, s.monthlyPayment.value, s.totalInterestPaid.value,
                    s.totalLoanCost.value, now, false)
  }

  /**
   * A stored simulation whose figures are those the calculator computes for
   * its own amount, rate and term (rate positive, term of at least a month).
   */
  ghost predicate ComputedByCalculator(s: SavedSimulation, toDoubleOrNull: string -> Option<real>)
  {
    && toDoubleOrNull(s.interestRate).Some? && toDoubleOrNull(s.interestRate).value > 0.0
    && s.loanTermInMonths >= 1 && s.loanAmountToFinance > 0.0
    && s.loanAmountToFinance == AmountToFinance(s.vehiclePrice, s.downPayment)
    && s.monthlyPayment == MonthlyPayment(s.loanAmountToFinance, MonthlyRate(s.interestRate, toDoubleOrNull), s.loanTermInMonths)
    && s.totalLoanCost == TotalLoanCost(s.monthlyPayment, s.loanTermInMonths)
    && s.totalInterestPaid == s.totalLoanCost - s.loanAmountToFinance
  }

  /**
   * Saving right after a calculation from the current inputs stores figures
   * that are exactly the calculator's for the stored amount, rate and term.
   */
  lemma SavedRightAfterCalculation(s: CalculatorUiState, forceShowResults: bool, simulationName: string, now: Timestamp,
                                   toDoubleOrNull: string -> Option<real>)
    requires toDoubleOrNull(s.interestRate).Some? && toDoubleOrNull(s.interestRate).value > 0.0
    requires AmountToFinance(s.vehiclePrice, s.downPayment) > 0.0 && s.loanTermInMonths >= 1
    ensures var r := Calculated(s, toDoubleOrNull(s.interestRate).value, forceShowResults);
      && ResultsMatchTable(r)
      && ComputedByCalculator(SimulationToSave(r, simulationName, now), toDoubleOrNull)
  {
    CalculatedResults(s, toDoubleOrNull(s.interestRate).value, forceShowResults);
  }

  class CalculatorViewModel {
    var uiState: CalculatorUiState
    const simulationDao: AppDatabase
    /** Kotlin's `String.toDoubleOrNull()`, supplied by the platform. */
    const toDoubleOrNull: string -> Option<real>

    ghost predicate Valid()
      reads this
    {
      ResultsCoherent(uiState)
    }

    constructor (simulationDao: AppDatabase, toDoubleOrNull: string -> Option<real>)
      ensures Valid()
      ensures uiState == InitialCalculatorUiState
      ensures this.simulationDao == simulationDao && this.toDoubleOrNull == toDoubleOrNull
    {
      this.simulationDao := simulationDao;
      this.toDoubleOrNull := toDoubleOrNull;
      uiState := InitialCalculatorUiState;
    }

    /** The rate field parses to a positive number of percent. */
    predicate RateIsValid(s: CalculatorUiState)
    {
      toDoubleOrNull(s.interestRate).Some? && toDoubleOrNull(s.interestRate).value > 0.0
    }

    /**
     * The calculation in state `s` does not divide by a zero term. With a
     * term of 0 months the source divides by zero in Double arithmetic.
     */
    predicate TermUsable(s: CalculatorUiState)
    {
      RateIsValid(s) && AmountToFinance(s.vehiclePrice, s.downPayment) > 0.0 ==> s.loanTermInMonths != 0
    }

    /** The state after `recalculateInRealTime()`. */
    function Recalculated(s: CalculatorUiState): CalculatorUiState
      requires TermUsable(s)
    {
      if !RateIsValid(s) then WithoutResults(s)
      else Calculated(s, toDoubleOrNull(s.interestRate).value, false)
    }

    /** `onVehiclePriceChange`: store the price, hide the results and recompute them. */
    method OnVehiclePriceChange(newPrice: real)
      requires Valid() && TermUsable(uiState.(vehiclePrice := newPrice, showResults := false))
      modifies this
      ensures Valid()
      ensures uiState == Recalculated(old(uiState).(vehiclePrice := newPrice, showResults := false))
      ensures !uiState.showResults
    {
      uiState := uiState.(vehiclePrice := newPrice, showResults := false);
      RecalculateInRealTime();
    }

    /** `onDownPaymentChange`: store the down payment and hide the results (no recomputation). */
    method OnDownPaymentChange(newDownPayment: real)
      requires Valid()
      modifies this
      ensures Valid()
      ensures uiState == old(uiState).(downPayment := newDownPayment, showResults := false)
    {
      uiState := uiState.(downPayment := newDownPayment, showResults := false);
    }

    /** `onTermChange`: store the slider value truncated to whole months and hide the results. */
    method OnTermChange(newTerm: real)
      requires Valid()
      modifies this
      ensures Valid()
      ensures uiState == old(uiState).(loanTermInMonths := FloatToInt(newTerm), showResults := false)
    {
      uiState := uiState.(loanTermInMonths := FloatToInt(newTerm), showResults := false);
    }

    /** `onRateChange`: store the rate text as typed and hide the results. */
    method OnRateChange(newRate: string)
      requires Valid()
      modifies this
      ensures Valid()
      ensures uiState == old(uiState).(interestRate := newRate, showResults := false)
    {
      uiState := uiState.(interestRate := newRate, showResults := false);
    }

    /**
     * `onSimulateClicked`: a rate that is not a positive number is refused
     * with an error and hidden results; otherwise the results are computed
     * and shown.
     */
    method OnSimulateClicked()
      requires Valid() && TermUsable(uiState)
      modifies this
      ensures Valid()
      ensures if !RateIsValid(old(uiState))
              then uiState == old(uiState).(error := Some(InvalidRateMessage), showResults := false)
              else uiState == Calculated(old(uiState), toDoubleOrNull(old(uiState).interestRate).value, true)
    {
      var monthlyRatePercent := toDoubleOrNull(uiState.interestRate);
      if monthlyRatePercent.None? || monthlyRatePercent.value <= 0.0 {
        uiState := uiState.(error := Some(InvalidRateMessage), showResults := false);
        return;
      }
      PerformCalculation(monthlyRatePercent.value, true);
    }

    /** `recalculateInRealTime`: like a simulation, but results are cleared silently and not forced visible. */
    method RecalculateInRealTime()
      requires Valid() && TermUsable(uiState)
      modifies this
      ensures Valid()
      ensures uiState == Recalculated(old(uiState))
    {
      var monthlyRatePercent := toDoubleOrNull(uiState.interestRate);
      if monthlyRatePercent.None? || monthlyRatePercent.value <= 0.0 {
        uiState := WithoutResults(uiState);
        return;
      }
      PerformCalculation(monthlyRatePercent.value, false);
    }

    /** `performCalculation(state, monthlyRatePercent, forceShowResults)` on the current state. */
    method PerformCalculation(monthlyRatePercent: real, forceShowResults: bool)
      requires Valid() && monthlyRatePercent > 0.0
      requires AmountToFinance(uiState.vehiclePrice, uiState.downPayment) > 0.0 ==> uiState.loanTermInMonths != 0
      modifies this
      ensures Valid()
      ensures uiState == Calculated(old(uiState), monthlyRatePercent, forceShowResults)
    {
      CalculatedResults(uiState, monthlyRatePercent, forceShowResults);
      var state := uiState;
      var amountToFinance := AmountToFinance(state.vehiclePrice, state.downPayment);
      if amountToFinance <= 0.0 {
        uiState := WithoutResults(uiState);
        return;
      }
      var monthlyRateDecimal := monthlyRatePercent / 100.0;
      var monthlyPayment := MonthlyPayment(amountToFinance, monthlyRateDecimal, state.loanTermInMonths);
      var table := GenerateAmortizationTable(amountToFinance, monthlyRatePercent / 100.0, state.loanTermInMonths, monthlyPayment);
      var totalLoanCost := TotalLoanCost(monthlyPayment, state.loanTermInMonths);
      var totalInterestPaid := totalLoanCost - amountToFinance;
      uiState := uiState.(loanAmountToFinance := Some(amountToFinance),
                          monthlyPayment := Some(monthlyPayment),
                          totalInterestPaid := Some(totalInterestPaid),
                          totalLoanCost := Some(totalLoanCost),
                          showResults := if forceShowResults then true else uiState.showResults,
                          amortizationTable := table,
                          error := None);
    }

    /**
     * `onSaveSimulationClicked`: without a positive payment an error is shown
     * and nothing is stored; otherwise the simulation is inserted under a
     * fresh id, its totals being those of the table on screen, and the
     * success message is raised.
     */
    method OnSaveSimulationClicked(simulationName: string, now: Timestamp)
      requires Valid() && simulationDao.Valid()
      modifies this, simulationDao
      ensures Valid() && simulationDao.Valid()
      ensures simulationDao.payments == old(simulationDao.payments)
      ensures simulationDao.paymentSequence == old(simulationDao.paymentSequence)
      ensures old(uiState).monthlyPayment.None? || old(uiState).monthlyPayment.value <= 0.0 ==>
        && uiState == old(uiState).(error := Some(NothingToSaveMessage))
        && simulationDao.simulations == old(simulationDao.simulations)
        && simulationDao.simulationSequence == old(simulationDao.simulationSequence)
      ensures old(uiState).monthlyPayment.Some? && old(uiState).monthlyPayment.value > 0.0 ==>
        var id := old(simulationDao.simulationSequence) + 1;
        && uiState == old(uiState).(showSaveSuccessMessage := true)
        && id !in old(simulationDao.simulations)
        && simulationDao.simulationSequence == id
        && simulationDao.simulations
             == old(simulationDao.simulations)[id := SimulationToSave(old(uiState), simulationName, now).(id := id)]
        && simulationDao.simulations[id].totalInterestPaid == SumInterest(old(uiState).amortizationTable)
        && simulationDao.simulations[id].totalLoanCost
             == simulationDao.simulations[id].loanAmountToFinance + simulationDao.simulations[id].totalInterestPaid
    {
      var currentState := uiState;
      if currentState.monthlyPayment.None? || currentState.monthlyPayment.value <= 0.0 {
        uiState := uiState.(error := Some(NothingToSaveMessage));
        return;
      }
      var simulationToSave := SimulationToSave(currentState, simulationName, now);
      simulationDao.InsertSimulation(simulationToSave);
      uiState := uiState.(showSaveSuccessMessage := true);
    }
  }
}
