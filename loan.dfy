/**
 * The loan arithmetic of the calculator screen: the amount to finance, the
 * fixed monthly payment (French amortization, monthly rate compounded
 * monthly) and the balance left after a number of monthly payments.
 */
module LoanMath {
  import opened Model
  import opened Power

  /**
   * The monthly rate of a stored credit, `interestRate.toDoubleOrNull()?.div(100) ?: 0.0`:
   * the percentage as a fraction, and 0 when the text is not a number.
   */
  function MonthlyRate(interestRate: string, toDoubleOrNull: string -> Option<real>): real
  {
    match toDoubleOrNull(interestRate)
    case Some(percent) => percent / 100.0
    case None => 0.0
  }

  /** `max(0.0, vehiclePrice - downPayment)`: the price minus the down payment, never negative. */
  function AmountToFinance(vehiclePrice: real, downPayment: real): (r: real)
    ensures r >= 0.0 && r >= vehiclePrice - downPayment
    ensures r == 0.0 || r == vehiclePrice - downPayment
  {
    if 0.0 < vehiclePrice - downPayment then vehiclePrice - downPayment else 0.0
  }

  /** A shown balance: negative balances appear as zero. */
  function NonNegative(b: real): real
  {
    if b < 0.0 then 0.0 else b
  }

  /**
   * The monthly payment of a loan of `amount` over `months` months: the
   * annuity `amount * (r * q) / (q - 1)` with `q = (1 + r)^months` when the
   * rate `r` is positive, and the straight share `amount / months` otherwise.
   */
  function MonthlyPayment(amount: real, rateDecimal: real, months: int): (a: real)
    requires months != 0
    ensures rateDecimal <= 0.0 ==> a * months as real == amount
    ensures rateDecimal > 0.0 && months > 0 && amount > 0.0 ==> a > amount * rateDecimal
    ensures rateDecimal > 0.0 && months < 0 && amount > 0.0 ==> a < 0.0
  {
    if rateDecimal > 0.0 then
      var q := IntPow(1.0 + rateDecimal, months);
      AnnuitySigns(amount, rateDecimal, q);
      amount * (rateDecimal * q) / (q - 1.0)
    else
      amount / months as real
  }

  /** Where the annuity quotient lies, for a growth factor `q` above or below one. */
  lemma AnnuitySigns(amount: real, r: real, q: real)
    requires r > 0.0 && q > 0.0 && q != 1.0
    ensures amount > 0.0 && q > 1.0 ==> amount * (r * q) / (q - 1.0) > amount * r
    ensures amount > 0.0 && q < 1.0 ==> amount * (r * q) / (q - 1.0) < 0.0
  {
    if amount > 0.0 {
      var c := amount * r;
      assert c > 0.0;
      assert amount * (r * q) == c * q;
      if q > 1.0 {
        assert c * q / (q - 1.0) == c + c / (q - 1.0);
        assert c / (q - 1.0) > 0.0;
      } else {
        assert c * q > 0.0;
        assert c * q / (q - 1.0) < 0.0;
      }
    }
  }

  /** One month: interest `balance * rate` is charged and `payment` is paid. */
  function Step(balance: real, rate: real, payment: real): real
  {
    balance - (payment - balance * rate)
  }

  /** The balance left after `k` monthly payments, starting from `balance`. */
  function BalanceAfter(balance: real, rate: real, payment: real, k: nat): real
    decreases k
  {
    if k == 0 then balance else BalanceAfter(Step(balance, rate, payment), rate, payment, k - 1)
  }

  /** The balance after `k + 1` months is one more month after the balance after `k`. */
  lemma {:induction false} BalanceAfterSucc(balance: real, rate: real, payment: real, k: nat)
    ensures BalanceAfter(balance, rate, payment, k + 1) == Step(BalanceAfter(balance, rate, payment, k), rate, payment)
    decreases k
  {
    if k > 0 {
      BalanceAfterSucc(Step(balance, rate, payment), rate, payment, k - 1);
    }
  }

  /**
   * Closed form of the balance: with `q = 1 + r`, the quantity
   * `r * B(k) - payment` grows geometrically, `(r * b - payment) * q^k`.
   */
  lemma {:induction false} BalanceClosedForm(b: real, r: real, payment: real, k: nat)
    ensures r * BalanceAfter(b, r, payment, k) - payment == (r * b - payment) * Pow(1.0 + r, k)
    decreases k
  {
    if k > 0 {
      BalanceClosedForm(b, r, payment, k - 1);
      BalanceAfterSucc(b, r, payment, k - 1);
      GeometricStep(r, payment, r * b - payment, BalanceAfter(b, r, payment, k - 1), Pow(1.0 + r, k - 1),
                    BalanceAfter(b, r, payment, k), Pow(1.0 + r, k));
    }
  }

  /** One more month multiplies `r * balance - payment` by `1 + r`. */
  lemma GeometricStep(r: real, payment: real, c: real, p: real, q: real, next: real, nextQ: real)
    requires r * p - payment == c * q
    requires next == Step(p, r, payment) && nextQ == (1.0 + r) * q
    ensures r * next - payment == c * nextQ
  {
    calc {
      r * next - payment;
      r * (p * (1.0 + r) - payment) - payment;
      (1.0 + r) * (r * p - payment);
      (1.0 + r) * (c * q);
      c * nextQ;
    }
  }

  /** Without interest every month takes exactly one payment off the balance. */
  lemma {:induction false} BalanceAtZeroRate(b: real, payment: real, k: nat)
    ensures BalanceAfter(b, 0.0, payment, k) == b - k as real * payment
    decreases k
  {
    if k > 0 {
      BalanceAtZeroRate(Step(b, 0.0, payment), payment, k - 1);
    }
  }

  /**
   * Under the annuity payment the balance after `k <= n` months is
   * `amount * (q^n - q^k) / (q^n - 1)`.
   */
  lemma AnnuityBalance(amount: real, r: real, n: nat, k: nat)
    requires r > 0.0 && n >= 1 && k <= n
    ensures var q := Pow(1.0 + r, n);
      BalanceAfter(amount, r, MonthlyPayment(amount, r, n), k) * (q - 1.0) == amount * (q - Pow(1.0 + r, k))
  {
    AnnuityEquation(amount, r, n);
    BalanceUnderAnnuity(amount, r, MonthlyPayment(amount, r, n), n, k);
  }

  /** The balance under any payment that satisfies the annuity equation for `n` months. */
  lemma BalanceUnderAnnuity(amount: real, r: real, a: real, n: nat, k: nat)
    requires r > 0.0
    requires a * (Pow(1.0 + r, n) - 1.0) == amount * r * Pow(1.0 + r, n)
    ensures BalanceAfter(amount, r, a, k) * (Pow(1.0 + r, n) - 1.0) == amount * (Pow(1.0 + r, n) - Pow(1.0 + r, k))
    ensures amount > 0.0 && Pow(1.0 + r, n) > 1.0 && Pow(1.0 + r, k) < Pow(1.0 + r, n) ==> BalanceAfter(amount, r, a, k) > 0.0
  {
    BalanceClosedForm(amount, r, a, k);
    AnnuityAlgebra(amount, r, a, Pow(1.0 + r, n), Pow(1.0 + r, k), BalanceAfter(amount, r, a, k));
  }

  /** The annuity payment `a` of a loan over `n >= 1` months satisfies `a * (q - 1) == amount * r * q`. */
  lemma AnnuityEquation(amount: real, r: real, n: nat)
    requires r > 0.0 && n >= 1
    ensures var q := Pow(1.0 + r, n);
      q > 1.0 && MonthlyPayment(amount, r, n) * (q - 1.0) == amount * r * q
  {
    var q := Pow(1.0 + r, n);
    PowAboveOne(1.0 + r, n);
    assert IntPow(1.0 + r, n) == q;
    assert MonthlyPayment(amount, r, n) == amount * (r * IntPow(1.0 + r, n)) / (IntPow(1.0 + r, n) - 1.0);
    QuotientTimesDivisor(amount * (r * q), q - 1.0);
  }

  /** Dividing and multiplying back by a non-zero divisor. */
  lemma QuotientTimesDivisor(x: real, d: real)
    requires d != 0.0
    ensures x / d * d == x
  {
  }

  /** Eliminating the payment between its definition and the closed form of the balance. */
  lemma AnnuityAlgebra(amount: real, r: real, a: real, q: real, qk: real, bk: real)
    requires r > 0.0
    requires a * (q - 1.0) == amount * r * q
    requires r * bk - a == (r * amount - a) * qk
    ensures bk * (q - 1.0) == amount * (q - qk)
    ensures amount > 0.0 && q > 1.0 && qk < q ==> bk > 0.0
  {
    calc {
      r * (bk * (q - 1.0));
      (r * bk) * (q - 1.0);
      (r * amount * qk - a * (qk - 1.0)) * (q - 1.0);
      r * amount * qk * (q - 1.0) - (a * (q - 1.0)) * (qk - 1.0);
      r * amount * qk * (q - 1.0) - amount * r * q * (qk - 1.0);
      r * (amount * (q - qk));
    }
    CancelFactor(r, bk * (q - 1.0), amount * (q - qk));
    if amount > 0.0 && q > 1.0 && qk < q {
      OwedUnderAnnuityForm(amount, q, qk, bk);
    }
  }

  lemma CancelFactor(r: real, x: real, y: real)
    requires r != 0.0 && r * x == r * y
    ensures x == y
  {
    assert r * (x - y) == 0.0;
  }

  /** The annuity payment, or the straight share at rate 0, pays the loan off in exactly `n` months. */
  lemma AnnuityRetiresLoan(amount: real, r: real, n: nat)
    requires r >= 0.0 && n >= 1
    ensures BalanceAfter(amount, r, MonthlyPayment(amount, r, n), n) == 0.0
  {
    if r > 0.0 {
      AnnuityBalance(amount, r, n, n);
      PowAboveOne(1.0 + r, n);
    } else {
      BalanceAtZeroRate(amount, MonthlyPayment(amount, r, n), n);
    }
  }

  /** Before the last month some balance is still owed. */
  lemma AnnuityBalancePositive(amount: real, r: real, n: nat, k: nat)
    requires amount > 0.0 && r >= 0.0 && k < n
    ensures BalanceAfter(amount, r, MonthlyPayment(amount, r, n), k) > 0.0
  {
    var a := MonthlyPayment(amount, r, n);
    if r > 0.0 {
      AnnuityEquation(amount, r, n);
      PowStrictlyIncreasing(1.0 + r, k, n);
      BalanceUnderAnnuity(amount, r, a, n, k);
    } else {
      BalanceAtZeroRate(amount, a, k);
      assert a * n as real == amount;
      PositiveQuotient(a, n as real, amount);
      assert amount - k as real * a == a * (n - k) as real;
    }
  }

  /** A balance `bk` with `bk * (q - 1) == amount * (q - qk)`, where `1 < q` and `qk < q`, is positive. */
  lemma OwedUnderAnnuityForm(amount: real, q: real, qk: real, bk: real)
    requires amount > 0.0 && q > 1.0 && qk < q
    requires bk * (q - 1.0) == amount * (q - qk)
    ensures bk > 0.0
  {
    var d := q - qk;
    assert amount * d > 0.0;
    PositiveQuotient(bk, q - 1.0, amount * d);
  }

  /** A factor of a positive product with a positive cofactor is positive. */
  lemma PositiveQuotient(x: real, y: real, z: real)
    requires y > 0.0 && z > 0.0 && x * y == z
    ensures x > 0.0
  {
    assert x == z / y;
  }
}
