/**
 * The cooperative-loan calculator: a fixed monthly installment from the
 * annuity formula at a fixed 12% annual rate, expanded into a month-by-month
 * amortization schedule. JavaScript's double arithmetic is modelled by exact
 * `real` arithmetic.
 */
module Cooperative {

  /** The annual interest rate the screen hard-codes (12%). */
  const AnnualRate: real := 0.12

  /** The periodic rate: the annual rate divided over twelve months. */
  const MonthlyRate: real := AnnualRate / 12.0

  /** One plus the monthly rate: the factor a balance grows by in one month. */
  const Growth: real := 1.0 + MonthlyRate

  /** `Math.pow(b, n)` for a natural exponent. */
  function Pow(b: real, n: nat): real {
    if n == 0 then 1.0 else b * Pow(b, n - 1)
  }

  /** The compounding factor exceeds one after at least one month. */
  lemma {:induction false} GrowthPowAboveOne(n: nat)
    requires n >= 1
    ensures Pow(Growth, n) > 1.0
  {
    if n > 1 {
      GrowthPowAboveOne(n - 1);
    }
  }

  /**
   * The fixed monthly payment P·r·(1+r)^n / ((1+r)^n − 1). Its defining
   * equation holds exactly, the denominator never vanishes for n ≥ 1, and for a
   * positive principal the payment exceeds the first month's interest.
   */
  function AnnuityPayment(principal: real, months: int): (a: real)
    requires months >= 1
    ensures a * (Pow(Growth, months) - 1.0) == principal * MonthlyRate * Pow(Growth, months)
    ensures principal > 0.0 ==> a > principal * MonthlyRate
  {
    GrowthPowAboveOne(months);
    var g := Pow(Growth, months);
    assert g - 1.0 > 0.0;
    var a := principal * MonthlyRate * g / (g - 1.0);
    assert principal > 0.0 ==> a - principal * MonthlyRate == principal * MonthlyRate / (g - 1.0);
    a
  }

  /**
   * The running, unclamped balance after `k` months of paying `payment`: each
   * month the principal part (payment minus interest on the balance) is
   * subtracted.
   */
  function Balance(principal: real, payment: real, k: nat): real {
    if k == 0 then principal
    else
      var before := Balance(principal, payment, k - 1);
      before - (payment - before * MonthlyRate)
  }

  /** One row of the amortization schedule. */
  datatype ScheduleEntry = ScheduleEntry(
    month: int,
    payment: real,
    principal: real,
    interest: real,
    remainingBalance: real)

  /** The result the screen stores and renders. */
  datatype LoanCalculation = LoanCalculation(
    monthlyPayment: real,
    totalPayment: real,
    totalInterest: real,
    amortizationSchedule: seq<ScheduleEntry>)

  /** `Math.max(a, b)`. */
  function Max(a: real, b: real): (m: real)
    ensures m >= a && m >= b && (m == a || m == b)
  {
    if a >= b then a else b
  }

  /**
   * The row for month `month` (1-based): interest on the balance before the
   * month, the rest of the payment as principal, and the balance after the
   * month clamped at zero.
   */
  function EntryFor(principal: real, payment: real, month: nat): (e: ScheduleEntry)
    requires month >= 1
    ensures e.month == month && e.payment == payment
    ensures e.principal + e.interest == e.payment
    ensures e.interest == Balance(principal, payment, month - 1) * MonthlyRate
    ensures e.remainingBalance >= 0.0
    ensures e.remainingBalance == Max(0.0, Balance(principal, payment, month))
  {
    var interest := Balance(principal, payment, month - 1) * MonthlyRate;
    ScheduleEntry(month, payment, payment - interest, interest, Max(0.0, Balance(principal, payment, month)))
  }

  /** The schedule of the first `months` months, built by appending row after row. */
  function Schedule(principal: real, payment: real, months: int): (s: seq<ScheduleEntry>)
    ensures |s| == if months <= 0 then 0 else months
    ensures forall i :: 0 <= i < |s| ==> s[i] == EntryFor(principal, payment, i + 1)
  {
    if months <= 0 then []
    else Schedule(principal, payment, months - 1) + [EntryFor(principal, payment, months)]
  }

  /**
   * `calculateLoan`: the monthly payment by the annuity formula, the totals, and
   * the schedule built by walking the loan month by month.
   */
  method CalculateLoan(principal: real, months: int) returns (result: LoanCalculation)
    requires months >= 1
    ensures result.monthlyPayment == AnnuityPayment(principal, months)
    ensures result.totalPayment == result.monthlyPayment * months as real
    ensures result.totalInterest == result.totalPayment - principal
    ensures result.amortizationSchedule == Schedule(principal, result.monthlyPayment, months)
    ensures |result.amortizationSchedule| == months
    ensures forall i :: 0 <= i < months ==>
      var e := result.amortizationSchedule[i];
      e.month == i + 1 && e.payment == result.monthlyPayment &&
      e.principal + e.interest == e.payment && e.remainingBalance >= 0.0
  {
    var monthlyPayment := AnnuityPayment(principal, months);
    var totalPayment := monthlyPayment * months as real;
    var totalInterest := totalPayment - principal;
    var schedule := AmortizationSchedule(principal, monthlyPayment, months);
    result := LoanCalculation(monthlyPayment, totalPayment, totalInterest, schedule);
  }

  /**
   * The schedule loop of `calculateLoan`: each month charges interest on the
   * running balance, subtracts the rest of the payment from it, and appends a
   * row reporting the balance clamped at zero.
   */
  method AmortizationSchedule(principal: real, monthlyPayment: real, months: int)
    returns (schedule: seq<ScheduleEntry>)
    ensures schedule == Schedule(principal, monthlyPayment, months)
  {
    var monthlyRate := AnnualRate / 12.0;
    schedule := [];
    var remainingBalance := principal;
    var month := 1;
    while month <= months
      invariant 1 <= month <= if months <= 0 then 1 else months + 1
      invariant remainingBalance == Balance(principal, monthlyPayment, month - 1)
      invariant schedule == Schedule(principal, monthlyPayment, month - 1)
    {
      var interestPayment := remainingBalance * monthlyRate;
      var principalPayment := monthlyPayment - interestPayment;
      remainingBalance := remainingBalance - principalPayment;
      schedule := schedule + [ScheduleEntry(month, monthlyPayment, principalPayment, interestPayment,
                                            Max(0.0, remainingBalance))];
      month := month + 1;
    }
  }

  /**
   * Closed form of the running balance: the principal compounded for `k`
   * months, minus the compounded payments (an annuity's accumulated value).
   */
  lemma {:induction false} BalanceClosedForm(principal: real, payment: real, k: nat)
    ensures Balance(principal, payment, k) * MonthlyRate
         == principal * MonthlyRate * Pow(Growth, k) - payment * (Pow(Growth, k) - 1.0)
  {
    if k > 0 {
      BalanceClosedForm(principal, payment, k - 1);
      var x := Pow(Growth, k - 1);
      var b := Balance(principal, payment, k - 1);
      assert Balance(principal, payment, k) == b * Growth - payment;
      assert Pow(Growth, k) == Growth * x;
      calc {
        Balance(principal, payment, k) * MonthlyRate;
        (b * Growth - payment) * MonthlyRate;
        Growth * (b * MonthlyRate) - payment * MonthlyRate;
        Growth * (principal * MonthlyRate * x - payment * (x - 1.0)) - payment * MonthlyRate;
        principal * MonthlyRate * (Growth * x) - payment * (Growth * x - 1.0);
      }
    }
  }

  /** With the annuity payment, the running balance after the last month is exactly zero. */
  lemma {:induction false} FullyAmortized(principal: real, months: int)
    requires months >= 1
    ensures Balance(principal, AnnuityPayment(principal, months), months) == 0.0
  {
    var a := AnnuityPayment(principal, months);
    BalanceClosedForm(principal, a, months);
  }

  /**
   * With the annuity payment and a positive principal, the running balance never
   * exceeds the principal and drops strictly every month (also past the term).
   */
  lemma {:induction false} BalanceStrictlyDecreases(principal: real, months: int, k: nat)
    requires principal > 0.0 && months >= 1
    ensures Balance(principal, AnnuityPayment(principal, months), k) <= principal
    ensures Balance(principal, AnnuityPayment(principal, months), k + 1)
          < Balance(principal, AnnuityPayment(principal, months), k)
  {
    var a := AnnuityPayment(principal, months);
    if k > 0 {
      BalanceStrictlyDecreases(principal, months, k - 1);
    }
    var b := Balance(principal, a, k);
    assert b * MonthlyRate <= principal * MonthlyRate;
  }

  /** The running balance is antitone: a later month never has a larger balance. */
  lemma {:induction false} BalanceAntitone(principal: real, months: int, j: nat, k: nat)
    requires principal > 0.0 && months >= 1 && j <= k
    ensures Balance(principal, AnnuityPayment(principal, months), k)
         <= Balance(principal, AnnuityPayment(principal, months), j)
  {
    if j < k {
      BalanceAntitone(principal, months, j, k - 1);
      BalanceStrictlyDecreases(principal, months, k - 1);
    }
  }

  /** The last row of the schedule reports a remaining balance of exactly zero. */
  lemma {:induction false} LastRowClearsLoan(principal: real, months: int, payment: real)
    requires months >= 1 && payment == AnnuityPayment(principal, months)
    ensures Schedule(principal, payment, months)[months - 1].remainingBalance == 0.0
  {
    FullyAmortized(principal, months);
  }

  /**
   * Within the term, the running balance is never negative, so clamping with
   * `Math.max(0, …)` changes nothing in exact arithmetic: every reported
   * remaining balance is the running balance itself.
   */
  lemma {:induction false} ClampIsExactWithinTerm(principal: real, months: int)
    requires principal > 0.0 && months >= 1
    ensures var s := Schedule(principal, AnnuityPayment(principal, months), months);
      forall i :: 0 <= i < months ==>
        s[i].remainingBalance == Balance(principal, AnnuityPayment(principal, months), i + 1)
  {
    var a := AnnuityPayment(principal, months);
    var s := Schedule(principal, a, months);
    FullyAmortized(principal, months);
    forall i | 0 <= i < months
      ensures s[i].remainingBalance == Balance(principal, a, i + 1)
    {
      BalanceAntitone(principal, months, i + 1, months);
    }
  }

  /** The reported remaining balances never increase from one month to a later one. */
  lemma {:induction false} ReportedBalanceNonIncreasing(principal: real, months: int)
    requires principal > 0.0 && months >= 1
    ensures var s := Schedule(principal, AnnuityPayment(principal, months), months);
      forall i, j :: 0 <= i <= j < months ==> s[j].remainingBalance <= s[i].remainingBalance
  {
    var a := AnnuityPayment(principal, months);
    var s := Schedule(principal, a, months);
    forall i, j | 0 <= i <= j < months
      ensures s[j].remainingBalance <= s[i].remainingBalance
    {
      BalanceAntitone(principal, months, i + 1, j + 1);
    }
  }

  /** Sum of the principal parts of a schedule. */
  function SumPrincipal(s: seq<ScheduleEntry>): real {
    if s == [] then 0.0 else SumPrincipal(s[..|s| - 1]) + s[|s| - 1].principal
  }

  /** Sum of the interest parts of a schedule. */
  function SumInterest(s: seq<ScheduleEntry>): real {
    if s == [] then 0.0 else SumInterest(s[..|s| - 1]) + s[|s| - 1].interest
  }

  /** The principal parts telescope: they add up to the drop in the running balance. */
  lemma {:induction false} PrincipalPartsTelescope(principal: real, payment: real, months: nat)
    ensures SumPrincipal(Schedule(principal, payment, months))
         == principal - Balance(principal, payment, months)
  {
    if months > 0 {
      var s := Schedule(principal, payment, months);
      assert s[..|s| - 1] == Schedule(principal, payment, months - 1);
      PrincipalPartsTelescope(principal, payment, months - 1);
    }
  }

  /**
   * When every row splits the same payment, the interest parts add up to the
   * payments minus the principal parts.
   */
  lemma {:induction false} InterestIsPaymentsMinusPrincipal(s: seq<ScheduleEntry>, payment: real, n: nat)
    requires |s| == n
    requires forall i :: 0 <= i < |s| ==> s[i].principal + s[i].interest == payment
    ensures SumInterest(s) == payment * n as real - SumPrincipal(s)
  {
    if n != 0 {
      var init := s[..n - 1];
      assert forall i :: 0 <= i < |init| ==> init[i] == s[i];
      InterestIsPaymentsMinusPrincipal(init, payment, n - 1);
      assert payment * n as real == payment * (n - 1) as real + payment;
    }
  }

  /** A payment that clears the balance in `months` months repays exactly the principal. */
  lemma {:induction false} ScheduleTotalsWhenRepaid(principal: real, payment: real, months: nat)
    requires Balance(principal, payment, months) == 0.0
    ensures SumPrincipal(Schedule(principal, payment, months)) == principal
    ensures SumInterest(Schedule(principal, payment, months)) == payment * months as real - principal
  {
    var s := Schedule(principal, payment, months);
    PrincipalPartsTelescope(principal, payment, months);
    InterestIsPaymentsMinusPrincipal(s, payment, months);
  }

  /**
   * With the annuity payment the principal parts repay exactly the principal,
   * and the interest parts add up to exactly the reported total interest.
   */
  lemma {:induction false} ScheduleMatchesTotals(principal: real, months: int, payment: real)
    requires months >= 1 && payment == AnnuityPayment(principal, months)
    ensures SumPrincipal(Schedule(principal, payment, months)) == principal
    ensures SumInterest(Schedule(principal, payment, months)) == payment * months as real - principal
  {
    FullyAmortized(principal, months);
    ScheduleTotalsWhenRepaid(principal, payment, months);
  }

  /** The compounding factor over a year: 1.01 to the twelfth power, exactly. */
  lemma YearGrowth()
    ensures Pow(Growth, 12) == 1.126825030131969720661201
  {
    assert Growth == 1.01;
    assert Pow(Growth, 3) == 1.030301;
    assert Pow(Growth, 6) == 1.061520150601;
  }

  /**
   * The worked example: a loan of 12,000,000 over 12 months costs an
   * installment of about 1,066,185.46; its first month is charged 120,000
   * interest, so about 946,185.46 of the first installment repays principal.
   */
  lemma {:induction false} ExampleFirstMonth()
    ensures var a := AnnuityPayment(12000000.0, 12);
      var s := Schedule(12000000.0, a, 12);
      1066185.46 < a < 1066185.47 &&
      s[0].interest == 120000.0 && 946185.46 < s[0].principal < 946185.47
  {
    YearGrowth();
  }
}
