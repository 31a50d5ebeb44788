/**
 * Yield accrual and valuation of one asset (the computed properties of
 * `AssetItem` in Models.swift): simple interest over a fixed 365-day year,
 * evaluated lazily against an explicit "now".
 */
module Valuation {
  import opened Common

  const SecondsPerDay: real := 86400.0
  const DaysPerYear: real := 365.0

  /** `now.timeIntervalSince(since) / (60 * 60 * 24)`: fractional days, negative for a future `since`. */
  function ElapsedDays(since: Date, now: Date): real {
    (now - since) / SecondsPerDay
  }

  /**
   * `dynamicInterest`: `amount * rate/100 * days/365`, or 0 when the rate is not
   * positive or no time has elapsed.
   */
  function Interest(amount: real, rate: real, since: Date, now: Date): (r: real)
    ensures rate <= 0.0 ==> r == 0.0
    ensures now <= since ==> r == 0.0
    ensures amount >= 0.0 ==> r >= 0.0
  {
    if rate <= 0.0 then 0.0
    else
      var days := ElapsedDays(since, now);
      if days <= 0.0 then 0.0 else amount * (rate / 100.0) * (days / DaysPerYear)
  }

  /** `dailyIncome`: the projected yield of one day, independent of any date. */
  function DailyIncome(amount: real, rate: real): (r: real)
    ensures rate <= 0.0 ==> r == 0.0
    ensures amount >= 0.0 ==> r >= 0.0
    ensures rate > 0.0 ==> (r == 0.0 <==> amount == 0.0)
  {
    if rate <= 0.0 then 0.0 else amount * (rate / 100.0) / DaysPerYear
  }

  /** `totalGain = producedIncome + dynamicInterest`. */
  function TotalGain(amount: real, producedIncome: real, rate: real, since: Date, now: Date): (r: real)
    ensures rate <= 0.0 || now <= since ==> r == producedIncome
    ensures amount >= 0.0 ==> r >= producedIncome
  {
    producedIncome + Interest(amount, rate, since, now)
  }

  /** `currentValue = amount + totalGain`; no floor is applied. */
  function CurrentValue(amount: real, producedIncome: real, rate: real, since: Date, now: Date): (r: real)
    ensures amount >= 0.0 ==> r >= amount + producedIncome
  {
    amount + TotalGain(amount, producedIncome, rate, since, now)
  }

  lemma MulNonNegMono(a: real, x: real, y: real)
    requires a >= 0.0 && x <= y
    ensures a * x <= a * y
  {
    assert a * y - a * x == a * (y - x);
  }

  /** Once time has passed, accrued interest is the daily income times the elapsed days. */
  lemma InterestIsDailyIncomeTimesDays(amount: real, rate: real, since: Date, now: Date)
    requires now > since
    ensures Interest(amount, rate, since, now) == DailyIncome(amount, rate) * ElapsedDays(since, now)
  {
    var days := ElapsedDays(since, now);
    assert days > 0.0;
    if rate > 0.0 {
      calc {
        amount * (rate / 100.0) * (days / DaysPerYear);
        (amount * (rate / 100.0)) * days / DaysPerYear;
        (amount * (rate / 100.0) / DaysPerYear) * days;
      }
    }
  }

  /** For a non-negative principal, accrued interest never decreases as time passes. */
  lemma InterestMonotoneInTime(amount: real, rate: real, since: Date, now1: Date, now2: Date)
    requires amount >= 0.0
    requires now1 <= now2
    ensures Interest(amount, rate, since, now1) <= Interest(amount, rate, since, now2)
  {
    if rate > 0.0 && now1 > since {
      InterestIsDailyIncomeTimesDays(amount, rate, since, now1);
      InterestIsDailyIncomeTimesDays(amount, rate, since, now2);
      var d := DailyIncome(amount, rate);
      assert ElapsedDays(since, now1) <= ElapsedDays(since, now2);
      MulNonNegMono(d, ElapsedDays(since, now1), ElapsedDays(since, now2));
    }
  }

  /** For a non-negative principal, a higher rate never accrues less. */
  lemma InterestMonotoneInRate(amount: real, rate1: real, rate2: real, since: Date, now: Date)
    requires amount >= 0.0
    requires rate1 <= rate2
    ensures Interest(amount, rate1, since, now) <= Interest(amount, rate2, since, now)
  {
    var days := ElapsedDays(since, now);
    if rate1 > 0.0 && days > 0.0 {
      var k := amount * (days / DaysPerYear);
      assert k >= 0.0;
      assert Interest(amount, rate1, since, now) == k * (rate1 / 100.0);
      assert Interest(amount, rate2, since, now) == k * (rate2 / 100.0);
      MulNonNegMono(k, rate1 / 100.0, rate2 / 100.0);
    }
  }

  /** Without a positive rate or elapsed time, an asset is worth its principal plus its recorded income. */
  lemma CurrentValueWithoutAccrual(amount: real, producedIncome: real, rate: real, since: Date, now: Date)
    requires rate <= 0.0 || now <= since
    ensures CurrentValue(amount, producedIncome, rate, since, now) == amount + producedIncome
  {
  }

  /** Current value is non-decreasing in time for a non-negative principal, whatever the recorded income. */
  lemma CurrentValueMonotoneInTime(amount: real, producedIncome: real, rate: real, since: Date, now1: Date, now2: Date)
    requires amount >= 0.0
    requires now1 <= now2
    ensures CurrentValue(amount, producedIncome, rate, since, now1) <= CurrentValue(amount, producedIncome, rate, since, now2)
  {
    InterestMonotoneInTime(amount, rate, since, now1, now2);
  }

  /** Sanity check on one input: 1000 at 3.65% for 100 days accrues exactly 10. */
  lemma InterestExample()
    ensures Interest(1000.0, 3.65, 0.0, 100.0 * SecondsPerDay) == 10.0
  {
    assert ElapsedDays(0.0, 100.0 * SecondsPerDay) == 100.0;
  }
}
