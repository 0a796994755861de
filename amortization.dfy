/**
 * The amortization table generator of the domain layer
 * (GenerateAmortizationTableUseCase.invoke): one row per month, the last
 * month forced to pay off the whole balance, small residues shown as zero,
 * and emission stopped as soon as the balance is paid off.
 */
module AmortizationUseCase {
  import opened Model

  /** Residues at or below one cent are shown as a zero remaining balance. */
  const ResidueThreshold: real := 0.01

  /** The `remainingBalance` shown for an unclamped balance `b`. */
  function ShownBalance(b: real): (r: real)
    ensures r >= 0.0
    ensures r == 0.0 <==> b <= ResidueThreshold
    ensures r != 0.0 ==> r == b
  {
    if b <= ResidueThreshold then 0.0 else b
  }

  /**
   * The rows the generator emits from `month` onwards when the balance
   * carried into that month is `balance`.
   */
  function ScheduleFrom(balance: real, rate: real, term: int, payment: real, month: int): seq<AmortizationEntry>
    decreases if month <= term then term - month + 1 else 0
  {
    if month > term then []
    else
      var interest := balance * rate;
      var principalPart := if month == term then balance else payment - interest;
      var finalBalance := balance - principalPart;
      var shownPayment := if month == term then balance + interest else payment;
      var row := AmortizationEntry(month, shownPayment, principalPart, interest, ShownBalance(finalBalance));
      if finalBalance <= 0.0 then [row]
      else [row] + ScheduleFrom(finalBalance, rate, term, payment, month + 1)
  }

  /** The whole table for a loan of `principal` (months 1 .. `term`). */
  function Schedule(principal: real, rate: real, term: int, payment: real): seq<AmortizationEntry>
  {
    ScheduleFrom(principal, rate, term, payment, 1)
  }

  /**
   * `invoke(principal, monthlyInterestRateDecimal, termInMonths, monthlyPayment)`:
   * the loop with the last-month adjustment, the one-cent clamp and the early break.
   */
  method Invoke(principal: real, monthlyInterestRateDecimal: real, termInMonths: int, monthlyPayment: real)
    returns (table: seq<AmortizationEntry>)
    ensures table == Schedule(principal, monthlyInterestRateDecimal, termInMonths, monthlyPayment)
  {
    table := [];
    var currentBalance := principal;
    var month := 1;
    ghost var expected := Schedule(principal, monthlyInterestRateDecimal, termInMonths, monthlyPayment);
    ghost var rest := expected;
    while month <= termInMonths
      invariant 1 <= month
      invariant rest == ScheduleFrom(currentBalance, monthlyInterestRateDecimal, termInMonths, monthlyPayment, month)
      invariant table + rest == expected
      decreases termInMonths - month
    {
      var interestForMonth := currentBalance * monthlyInterestRateDecimal;
      var principalForMonth := if month == termInMonths then currentBalance else monthlyPayment - interestForMonth;
      var finalBalance := currentBalance - principalForMonth;
      var finalMonthlyPayment := if month == termInMonths then currentBalance + interestForMonth else monthlyPayment;
      var row := AmortizationEntry(month, finalMonthlyPayment, principalForMonth, interestForMonth,
                                   if finalBalance <= ResidueThreshold then 0.0 else finalBalance);
      ScheduleFromStep(currentBalance, monthlyInterestRateDecimal, termInMonths, monthlyPayment, month, row, finalBalance);
      ghost var next := if finalBalance <= 0.0 then []
                        else ScheduleFrom(finalBalance, monthlyInterestRateDecimal, termInMonths, monthlyPayment, month + 1);
      assert table + rest == (table + [row]) + next;
      table, rest := table + [row], next;
      currentBalance := finalBalance;
      if currentBalance <= 0.0 {
        assert table + rest == table;
        break;
      }
      month := month + 1;
    }
    assert rest == [];
  }

  /** One step of the generator: the month's row, then the rest unless the balance is paid off. */
  lemma ScheduleFromStep(balance: real, rate: real, term: int, payment: real, month: int,
                         row: AmortizationEntry, finalBalance: real)
    requires month <= term
    requires finalBalance == balance - (if month == term then balance else payment - balance * rate)
    requires row == AmortizationEntry(month, if month == term then balance + balance * rate else payment,
                                      balance - finalBalance, balance * rate, ShownBalance(finalBalance))
    ensures ScheduleFrom(balance, rate, term, payment, month)
         == [row] + (if finalBalance <= 0.0 then [] else ScheduleFrom(finalBalance, rate, term, payment, month + 1))
  {
  }

  /** The unclamped balance after the first `k` rows of table `t` of a loan of `principal`. */
  function Outstanding(principal: real, t: seq<AmortizationEntry>, k: nat): real
    requires k <= |t|
  {
    principal - SumPrincipal(t[..k])
  }

  /** Row `i` of table `t`, described in terms of the balance carried into it. */
  ghost predicate RowFollowsRules(t: seq<AmortizationEntry>, i: nat, principal: real, rate: real, term: int, payment: real, firstMonth: int)
    requires i < |t|
  {
    && t[i].monthNumber == firstMonth + i
    && t[i].interestPaid == Outstanding(principal, t, i) * rate
    && (t[i].monthNumber == term ==>
          t[i].principalPaid == Outstanding(principal, t, i)
          && t[i].monthlyPayment == Outstanding(principal, t, i) + t[i].interestPaid)
    && (t[i].monthNumber != term ==>
          t[i].principalPaid == payment - t[i].interestPaid
          && t[i].monthlyPayment == payment)
    && t[i].remainingBalance == ShownBalance(Outstanding(principal, t, i + 1))
    && (i < |t| - 1 ==> Outstanding(principal, t, i + 1) > 0.0)
  }

  /** Every row of `t` follows the generator's rules. */
  ghost predicate RowsFollowRules(t: seq<AmortizationEntry>, principal: real, rate: real, term: int, payment: real, firstMonth: int)
  {
    forall i: nat :: i < |t| ==> RowFollowsRules(t, i, principal, rate, term, payment, firstMonth)
  }

  /** Row-by-row rules of the generator, from any starting month. */
  lemma {:induction false} ScheduleFromRows(balance: real, rate: real, term: int, payment: real, month: int)
    ensures RowsFollowRules(ScheduleFrom(balance, rate, term, payment, month), balance, rate, term, payment, month)
    decreases if month <= term then term - month + 1 else 0
  {
    var t := ScheduleFrom(balance, rate, term, payment, month);
    if month <= term {
      var row := t[0];
      var finalBalance := balance - row.principalPaid;
      assert Outstanding(balance, t, 0) == balance;
      assert Outstanding(balance, t, 1) == finalBalance by {
        assert t[..1] == [row];
        SumsOfCons(row, []);
      }
      assert RowFollowsRules(t, 0, balance, rate, term, payment, month);
      if finalBalance > 0.0 {
        var rest := ScheduleFrom(finalBalance, rate, term, payment, month + 1);
        assert t == [row] + rest;
        ScheduleFromRows(finalBalance, rate, term, payment, month + 1);
        forall i: nat | 1 <= i < |t|
          ensures RowFollowsRules(t, i, balance, rate, term, payment, month)
        {
          assert RowFollowsRules(rest, i - 1, finalBalance, rate, term, payment, month + 1);
          RowRulesShift(balance, row, rest, i, rate, term, payment, month);
        }
      }
    }
  }

  /** A row of the tail keeps following the rules once the first row is put in front. */
  lemma RowRulesShift(balance: real, row: AmortizationEntry, rest: seq<AmortizationEntry>, i: nat,
                      rate: real, term: int, payment: real, month: int)
    requires 1 <= i <= |rest|
    requires RowFollowsRules(rest, i - 1, balance - row.principalPaid, rate, term, payment, month + 1)
    ensures RowFollowsRules([row] + rest, i, balance, rate, term, payment, month)
  {
    var t := [row] + rest;
    assert t[i] == rest[i - 1];
    OutstandingAfterFirstRow(balance, row, rest, i);
    OutstandingAfterFirstRow(balance, row, rest, i + 1);
  }

  /** The balance after `i` rows, seen from the second row on. */
  lemma OutstandingAfterFirstRow(balance: real, row: AmortizationEntry, rest: seq<AmortizationEntry>, i: nat)
    requires 1 <= i <= |rest| + 1
    ensures Outstanding(balance, [row] + rest, i) == Outstanding(balance - row.principalPaid, rest, i - 1)
  {
    assert ([row] + rest)[..i] == [row] + rest[..i - 1];
    SumsOfCons(row, rest[..i - 1]);
  }

  /** How many rows the generator emits, and why it stops. */
  lemma ScheduleFromLength(balance: real, rate: real, term: int, payment: real, month: int)
    ensures var t := ScheduleFrom(balance, rate, term, payment, month);
      && (month > term ==> t == [])
      && (month <= term ==> 1 <= |t| <= term - month + 1)
      && (month <= term && |t| < term - month + 1 ==> Outstanding(balance, t, |t|) <= 0.0)
      && (month <= term && |t| == term - month + 1 ==> Outstanding(balance, t, |t|) == 0.0)
  {
    ScheduleFromCount(balance, rate, term, payment, month);
    if month <= term {
      ScheduleFromEnd(balance, rate, term, payment, month);
    }
  }

  /** At most one row per remaining month, and at least one when a month remains. */
  lemma {:induction false} ScheduleFromCount(balance: real, rate: real, term: int, payment: real, month: int)
    ensures var t := ScheduleFrom(balance, rate, term, payment, month);
      && (month > term ==> t == [])
      && (month <= term ==> 1 <= |t| <= term - month + 1)
    decreases if month <= term then term - month + 1 else 0
  {
    if month <= term {
      var interest := balance * rate;
      var finalBalance := balance - (if month == term then balance else payment - interest);
      if finalBalance > 0.0 {
        ScheduleFromCount(finalBalance, rate, term, payment, month + 1);
      }
    }
  }

  /**
   * How table `t` of a loan of `balance` ends, with `remaining` months left:
   * a table cut short ends at a non-positive balance, a full one at exactly zero.
   */
  ghost predicate EndsPaidOff(balance: real, t: seq<AmortizationEntry>, remaining: int)
  {
    && |t| >= 1
    && (|t| < remaining ==> Outstanding(balance, t, |t|) <= 0.0)
    && (|t| == remaining ==> Outstanding(balance, t, |t|) == 0.0)
  }

  /** The generator's table from any month that is not past the term ends paid off. */
  lemma {:induction false} ScheduleFromEnd(balance: real, rate: real, term: int, payment: real, month: int)
    requires month <= term
    ensures EndsPaidOff(balance, ScheduleFrom(balance, rate, term, payment, month), term - month + 1)
    decreases term - month + 1
  {
    var t := ScheduleFrom(balance, rate, term, payment, month);
    var row := t[0];
    var finalBalance := balance - row.principalPaid;
    if finalBalance <= 0.0 {
      assert t == [row];
      LastRowPaysOff(balance, row, term - month + 1);
    } else {
      var rest := ScheduleFrom(finalBalance, rate, term, payment, month + 1);
      assert t == [row] + rest;
      ScheduleFromEnd(finalBalance, rate, term, payment, month + 1);
      FirstRowKeepsEnd(balance, row, rest, term - month + 1);
    }
  }

  /** A single row that leaves no balance (none at all in the last month) ends the table paid off. */
  lemma LastRowPaysOff(balance: real, row: AmortizationEntry, remaining: int)
    requires remaining >= 1 && balance - row.principalPaid <= 0.0
    requires remaining == 1 ==> balance - row.principalPaid == 0.0
    ensures EndsPaidOff(balance, [row], remaining)
  {
    assert [row][..1] == [row];
    SumsOfCons(row, []);
  }

  /** Putting a row in front of a table that ends paid off, one month earlier. */
  lemma FirstRowKeepsEnd(balance: real, row: AmortizationEntry, rest: seq<AmortizationEntry>, remaining: int)
    requires EndsPaidOff(balance - row.principalPaid, rest, remaining - 1)
    ensures EndsPaidOff(balance, [row] + rest, remaining)
  {
    OutstandingAfterFirstRow(balance, row, rest, |rest| + 1);
  }

  /**
   * Rows, month numbers and the rules of every row of the table: at most
   * `term` rows (none when `term` <= 0), numbered 1, 2, ..., each one's
   * interest charged on the balance before it, the last month paying off
   * that balance, the shown balance never negative, and emission stopping
   * right after the first row that leaves no balance.
   */
  lemma ScheduleRows(principal: real, rate: real, term: int, payment: real)
    ensures var t := Schedule(principal, rate, term, payment);
      && (term <= 0 ==> t == [])
      && (term >= 1 ==> 1 <= |t| <= term)
      && RowsFollowRules(t, principal, rate, term, payment, 1)
      && (forall i :: 0 <= i < |t| ==> t[i].monthNumber == i + 1 && t[i].remainingBalance >= 0.0)
  {
    var t := Schedule(principal, rate, term, payment);
    ScheduleFromRows(principal, rate, term, payment, 1);
    ScheduleFromLength(principal, rate, term, payment, 1);
    forall i | 0 <= i < |t|
      ensures t[i].monthNumber == i + 1 && t[i].remainingBalance >= 0.0
    {
      assert RowFollowsRules(t, i, principal, rate, term, payment, 1);
    }
  }

  /**
   * Telescoping: the principal column adds up to the principal minus the
   * last unclamped balance; a table that reaches month `term` repays the
   * principal exactly, and a shorter one stopped at a balance <= 0.
   */
  lemma SchedulePrincipalTotal(principal: real, rate: real, term: int, payment: real)
    requires term >= 1
    ensures var t := Schedule(principal, rate, term, payment);
      && (|t| == term ==> SumPrincipal(t) == principal && t[|t| - 1].remainingBalance == 0.0)
      && (|t| < term ==> SumPrincipal(t) >= principal)
  {
    var t := Schedule(principal, rate, term, payment);
    ScheduleFromLength(principal, rate, term, payment, 1);
    ScheduleFromRows(principal, rate, term, payment, 1);
    assert t[..|t|] == t;
    if |t| == term {
      assert RowFollowsRules(t, |t| - 1, principal, rate, term, payment, 1);
    }
  }
}
