/**
 * `totalPaidAmount` and `generateLast10DaysData`: the sum of all amounts
 * paid, and the dashboard series of ten consecutive calendar days ending
 * today, oldest first, each holding the amounts paid on that day.
 */
module DailyFees {
  import opened Wrappers
  import opened Seqs
  import opened Entities

  /** `payments.reduce((sum, p) => sum + (p.amountPaid || 0), 0)`. */
  function TotalPaid(payments: seq<Payment>): nat {
    Sum(payments, AmountOf)
  }

  /** The total does not depend on the order of the payments. */
  lemma TotalPaidOrderFree(a: seq<Payment>, b: seq<Payment>)
    requires multiset(a) == multiset(b)
    ensures TotalPaid(a) == TotalPaid(b)
  {
    SumPermutation(a, b, AmountOf);
  }

  /** What payment `p` adds to the bucket of calendar day `day`. */
  function PaidOnDay(day: int): Payment -> nat {
    (p: Payment) => if p.paymentDate.Some? && DayOf(p.paymentDate.value) == day then AmountOf(p) else 0
  }

  /** The amounts paid on calendar day `day`. */
  function DayTotal(payments: seq<Payment>, day: int): nat {
    Sum(payments, PaidOnDay(day))
  }

  /** `n` consecutive day buckets starting at day `first`. */
  function Buckets(payments: seq<Payment>, first: int, n: nat): (r: seq<DailyFee>)
    ensures |r| == n
    ensures forall k :: 0 <= k < n ==> r[k].date == first + k
  {
    seq(n, k requires 0 <= k < n => DailyFee(first + k, DayTotal(payments, first + k)))
  }

  /** The value `generateLast10DaysData(payments)` returns when called at time `today`. */
  function DailySeries(payments: seq<Payment>, today: int): (r: seq<DailyFee>)
    ensures |r| == 10
    ensures forall k :: 0 <= k < 10 ==> r[k].date == DayOf(today) - 9 + k
    ensures r[9].date == DayOf(today)
  {
    Buckets(payments, DayOf(today) - 9, 10)
  }

  /** Payment `p` is dated on one of the `n` days starting at `first`. */
  predicate InWindow(p: Payment, first: int, n: nat) {
    p.paymentDate.Some? && first <= DayOf(p.paymentDate.value) < first + n
  }

  function InsideAmount(first: int, n: nat): Payment -> nat {
    (p: Payment) => if InWindow(p, first, n) then AmountOf(p) else 0
  }

  function OutsideAmount(first: int, n: nat): Payment -> nat {
    (p: Payment) => if InWindow(p, first, n) then 0 else AmountOf(p)
  }

  function FeesOf(d: DailyFee): nat {
    d.fees
  }

  /** A window of `n` days is its first day plus the window of the `n - 1` days after it. */
  lemma InsideSplit(first: int, n: nat)
    requires n > 0
    ensures forall p :: InsideAmount(first, n)(p) == PaidOnDay(first)(p) + InsideAmount(first + 1, n - 1)(p)
  {
    forall p ensures InsideAmount(first, n)(p) == PaidOnDay(first)(p) + InsideAmount(first + 1, n - 1)(p) {
    }
  }

  /** The buckets together hold exactly the amounts dated inside their days. */
  lemma {:induction false} BucketsSum(payments: seq<Payment>, first: int, n: nat)
    decreases n
    ensures Sum(Buckets(payments, first, n), FeesOf) == Sum(payments, InsideAmount(first, n))
  {
    if n == 0 {
      SumZero(payments, InsideAmount(first, n));
    } else {
      var b := Buckets(payments, first, n);
      var rest := Buckets(payments, first + 1, n - 1);
      BucketsSum(payments, first + 1, n - 1);
      assert b[1..] == rest;
      assert Sum(b, FeesOf) == b[0].fees + Sum(rest, FeesOf);
      assert b[0].fees == DayTotal(payments, first);
      InsideSplit(first, n);
      SumAdd(payments, PaidOnDay(first), InsideAmount(first + 1, n - 1), InsideAmount(first, n));
    }
  }

  /**
   * The ten buckets plus what was paid undated or outside the window make up
   * `totalPaidAmount`: the series never holds more than the total, and holds
   * all of it exactly when every payment with a non-zero amount is dated
   * within the last ten days.
   */
  lemma DailySeriesAccountsForTotal(payments: seq<Payment>, today: int)
    ensures Sum(DailySeries(payments, today), FeesOf) + Sum(payments, OutsideAmount(DayOf(today) - 9, 10))
            == TotalPaid(payments)
    ensures Sum(DailySeries(payments, today), FeesOf) <= TotalPaid(payments)
    ensures Sum(DailySeries(payments, today), FeesOf) == TotalPaid(payments) <==>
              forall i :: 0 <= i < |payments| && AmountOf(payments[i]) > 0 ==> InWindow(payments[i], DayOf(today) - 9, 10)
  {
    var first := DayOf(today) - 9;
    BucketsSum(payments, first, 10);
    SumAdd(payments, InsideAmount(first, 10), OutsideAmount(first, 10), AmountOf);
    SumZero(payments, OutsideAmount(first, 10));
  }

  /** An undated payment, or one dated outside the window, leaves the series unchanged. */
  lemma OutsidePaymentChangesNothing(payments: seq<Payment>, p: Payment, today: int)
    requires !InWindow(p, DayOf(today) - 9, 10)
    ensures DailySeries(payments + [p], today) == DailySeries(payments, today)
  {
    forall d | DayOf(today) - 9 <= d < DayOf(today) + 1 ensures DayTotal(payments + [p], d) == DayTotal(payments, d) {
      SumAppend(payments, [p], PaidOnDay(d));
      assert Sum([p], PaidOnDay(d)) == PaidOnDay(d)(p) + Sum([], PaidOnDay(d));
    }
  }

  /** `last10Days.find(d => d.date === day)`, as an index into the list. */
  function FindBucket(days: seq<DailyFee>, day: int): (r: Option<nat>)
    ensures r.Some? ==> r.value < |days| && days[r.value].date == day
                        && forall k :: 0 <= k < r.value ==> days[k].date != day
    ensures r.None? ==> forall k :: 0 <= k < |days| ==> days[k].date != day
  {
    if days == [] then None
    else if days[0].date == day then Some(0)
    else match FindBucket(days[1..], day)
      case None => None
      case Some(k) => Some(k + 1)
  }

  /**
   * `generateLast10DaysData`, run at time `today`: push ten zero buckets for
   * the days today-9 .. today, then add each dated payment's amount to the
   * bucket of its day, if there is one.
   */
  method Last10Days(payments: seq<Payment>, today: int) returns (last10Days: seq<DailyFee>)
    ensures last10Days == DailySeries(payments, today)
  {
    var first := DayOf(today) - 9;
    last10Days := [];
    var i := 9;
    while i >= 0
      invariant -1 <= i <= 9
      invariant |last10Days| == 9 - i
      invariant forall k :: 0 <= k < |last10Days| ==> last10Days[k] == DailyFee(first + k, 0)
    {
      last10Days := last10Days + [DailyFee(DayOf(today) - i, 0)];
      i := i - 1;
    }
    assert payments[..0] == [];
    for n := 0 to |payments|
      invariant |last10Days| == 10
      invariant forall k :: 0 <= k < 10 ==> last10Days[k] == DailyFee(first + k, DayTotal(payments[..n], first + k))
    {
      var p := payments[n];
      assert payments[..n + 1] == payments[..n] + [p];
      forall d | first <= d < first + 10
        ensures DayTotal(payments[..n + 1], d) == DayTotal(payments[..n], d) + PaidOnDay(d)(p)
      {
        SumAppend(payments[..n], [p], PaidOnDay(d));
        assert Sum([p], PaidOnDay(d)) == PaidOnDay(d)(p) + Sum([], PaidOnDay(d));
      }
      if p.paymentDate.None? {
        continue;
      }
      var payDay := DayOf(p.paymentDate.value);
      var bucket := FindBucket(last10Days, payDay);
      if bucket.Some? {
        var k := bucket.value;
        last10Days := last10Days[k := last10Days[k].(fees := last10Days[k].fees + AmountOf(p))];
      }
    }
    assert payments[..|payments|] == payments;
  }

  /** The series does not depend on the order of the payments. */
  lemma DailySeriesOrderFree(a: seq<Payment>, b: seq<Payment>, today: int)
    requires multiset(a) == multiset(b)
    ensures DailySeries(a, today) == DailySeries(b, today)
  {
    forall d | DayOf(today) - 9 <= d < DayOf(today) + 1 ensures DayTotal(a, d) == DayTotal(b, d) {
      SumPermutation(a, b, PaidOnDay(d));
    }
  }

  /** The series only looks at each payment's date and amount. */
  lemma DailySeriesPointwise(a: seq<Payment>, b: seq<Payment>, today: int)
    requires |a| == |b|
    requires forall i :: 0 <= i < |a| ==> a[i].paymentDate == b[i].paymentDate && a[i].amountPaid == b[i].amountPaid
    ensures DailySeries(a, today) == DailySeries(b, today)
  {
    forall d | DayOf(today) - 9 <= d < DayOf(today) + 1 ensures DayTotal(a, d) == DayTotal(b, d) {
      SumPointwise(a, b, PaidOnDay(d));
    }
  }
}
