/**
 * The payment store: fetching all payments and enriching each with its
 * student's name and its course's name and fee, the per-student query, and
 * recording a new payment. After either update the list is kept newest
 * first (the source sorts the stored array in place), the three newest are
 * `latestPayments`, and the total and the ten-day series are recomputed.
 */
module Payments {
  import opened Wrappers
  import opened Seqs
  import opened Entities
  import opened PaymentSort
  import opened DailyFees

  /**
   * `Math.round((amountPaid / fee) * 100)`. A missing amount or a zero fee
   * gives NaN or Infinity in the source; here it gives `None`. Otherwise the
   * result is the whole number nearest to 100 * amount / fee, halves rounded up.
   */
  function RoundedPercent(amount: Option<nat>, fee: nat): (r: Option<nat>)
    ensures r.Some? <==> amount.Some? && fee > 0
    ensures r.Some? ==> 2 * fee * r.value <= 200 * amount.value + fee < 2 * fee * (r.value + 1)
  {
    if amount.None? || fee == 0 then None
    else
      var n := 200 * amount.value + fee;
      var q := n / (2 * fee);
      assert n == 2 * fee * q + n % (2 * fee);
      Some(q)
  }

  lemma MulMonotone(c: nat, x: nat, y: nat)
    requires x <= y
    ensures c * x <= c * y
  {
  }

  /** The rounding characterisation pins the percentage down completely. */
  lemma RoundedPercentUnique(a: nat, fee: nat, k: nat)
    requires fee > 0
    requires 2 * fee * k <= 200 * a + fee < 2 * fee * (k + 1)
    ensures RoundedPercent(Some(a), fee) == Some(k)
  {
    var r := RoundedPercent(Some(a), fee).value;
    if r < k {
      MulMonotone(2 * fee, r + 1, k);
    } else if r > k {
      MulMonotone(2 * fee, k + 1, r);
    }
  }

  /** Paying the whole fee shows 100%, paying nothing 0%, and paying more never shows less. */
  lemma RoundedPercentBounds(a: nat, b: nat, fee: nat)
    requires fee > 0
    ensures RoundedPercent(Some(fee), fee) == Some(100)
    ensures RoundedPercent(Some(0), fee) == Some(0)
    ensures a <= b ==> RoundedPercent(Some(a), fee).value <= RoundedPercent(Some(b), fee).value
    ensures a <= fee ==> RoundedPercent(Some(a), fee).value <= 100
  {
    RoundedPercentUnique(fee, fee, 100);
    RoundedPercentUnique(0, fee, 0);
    var ra := RoundedPercent(Some(a), fee).value;
    var rb := RoundedPercent(Some(b), fee).value;
    if a <= b && ra > rb {
      MulMonotone(2 * fee, rb + 1, ra);
    }
    if a <= fee && ra > 100 {
      MulMonotone(2 * fee, 101, ra);
    }
  }

  /**
   * Worked values. 2300 of 4000 is exactly 57.5, which rounds up to 58 here;
   * the source's floating-point quotient falls just below the half and shows 57.
   */
  lemma RoundedPercentExamples()
    ensures RoundedPercent(Some(500), 1000) == Some(50)
    ensures RoundedPercent(Some(2300), 4000) == Some(58)
    ensures RoundedPercent(Some(1), 3) == Some(33)
    ensures RoundedPercent(Some(2), 3) == Some(67)
    ensures RoundedPercent(Some(1), 8) == Some(13)
    ensures RoundedPercent(Some(7), 0) == None
    ensures RoundedPercent(None, 1000) == None
  {
    RoundedPercentUnique(500, 1000, 50);
    RoundedPercentUnique(1, 3, 33);
    RoundedPercentUnique(2, 3, 67);
    RoundedPercentUnique(1, 8, 13);
    RoundedPercentUnique(2300, 4000, 58);
  }

  /** What the two follow-up requests return for one payment: its student, then that student's course. */
  datatype Lookup = Lookup(student: Student, course: Course)

  /**
   * The enrichment of one payment. With both lookups answered, the names,
   * the course fee and the rounded percentage are filled in; when either
   * request fails the names become "Unknown" and the percentage 0, and the
   * payment's own `totalFee` is kept.
   */
  function Enrich(p: Payment, lookup: Option<Lookup>): (r: Payment)
    ensures r.paymentId == p.paymentId && r.studentId == p.studentId && r.amountPaid == p.amountPaid
    ensures r.paymentMode == p.paymentMode && r.remarks == p.remarks && r.paymentDate == p.paymentDate
    ensures lookup.Some? ==> r.studentName == Some(lookup.value.student.fullName)
                             && r.courseName == Some(lookup.value.course.courseName)
                             && r.totalFee == Some(lookup.value.course.feeAmount)
                             && r.paidPercentage == RoundedPercent(p.amountPaid, lookup.value.course.feeAmount)
    ensures lookup.None? ==> r.studentName == Some(Unknown) && r.courseName == Some(Unknown)
                             && r.totalFee == p.totalFee && r.paidPercentage == Some(0)
  {
    match lookup
    case Some(l) =>
      p.(studentName := Some(l.student.fullName), courseName := Some(l.course.courseName),
         totalFee := Some(l.course.feeAmount), paidPercentage := RoundedPercent(p.amountPaid, l.course.feeAmount))
    case None =>
      p.(studentName := Some(Unknown), courseName := Some(Unknown), paidPercentage := Some(0))
  }

  /**
   * The `Promise.all` over all fetched payments; `lookup` is what the server
   * answers for a student id (`None` when either request fails).
   */
  function EnrichAll(payments: seq<Payment>, lookup: int -> Option<Lookup>): (r: seq<Payment>)
    ensures |r| == |payments|
  {
    seq(|payments|, i requires 0 <= i < |payments| => Enrich(payments[i], lookup(payments[i].studentId)))
  }

  /**
   * Position for position, enrichment keeps each fetched payment's id,
   * student, amount and date, and fills in the names from that student's lookup.
   */
  lemma EnrichAllKeeps(payments: seq<Payment>, lookup: int -> Option<Lookup>)
    ensures forall i :: 0 <= i < |payments| ==>
              var r := EnrichAll(payments, lookup)[i];
              r.paymentId == payments[i].paymentId && r.studentId == payments[i].studentId
              && r.amountPaid == payments[i].amountPaid && r.paymentDate == payments[i].paymentDate
              && (lookup(payments[i].studentId).Some? ==> r.studentName == Some(lookup(payments[i].studentId).value.student.fullName))
              && (lookup(payments[i].studentId).None? ==> r.studentName == Some(Unknown))
  {
    var e := EnrichAll(payments, lookup);
    forall i | 0 <= i < |payments| ensures e[i] == Enrich(payments[i], lookup(payments[i].studentId)) { }
  }

  /** Enrichment changes neither the total paid nor the ten-day series. */
  lemma EnrichKeepsTotals(payments: seq<Payment>, lookup: int -> Option<Lookup>, today: int)
    ensures TotalPaid(EnrichAll(payments, lookup)) == TotalPaid(payments)
    ensures DailySeries(EnrichAll(payments, lookup), today) == DailySeries(payments, today)
  {
    var e := EnrichAll(payments, lookup);
    EnrichAllKeeps(payments, lookup);
    SumPointwise(e, payments, AmountOf);
    DailySeriesPointwise(e, payments, today);
  }

  /**
   * `getPaymentsByStudent`: the student's payments, each enriched with the
   * one student and course looked up; `None` (the source's `null`) when the
   * payments request or either lookup fails.
   */
  function PaymentsForStudent(response: Option<seq<Payment>>, lookup: Option<Lookup>): (r: Option<seq<Payment>>)
    ensures r.Some? <==> response.Some? && lookup.Some?
    ensures r.Some? ==> |r.value| == |response.value|
    ensures r.Some? ==> forall i :: 0 <= i < |r.value| ==>
              r.value[i].paymentId == response.value[i].paymentId
              && r.value[i].studentName == Some(lookup.value.student.fullName)
              && r.value[i].courseName == Some(lookup.value.course.courseName)
              && r.value[i].totalFee == Some(lookup.value.course.feeAmount)
              && r.value[i].paidPercentage == RoundedPercent(response.value[i].amountPaid, lookup.value.course.feeAmount)
  {
    if response.None? || lookup.None? then None
    else
      var ps := response.value;
      Some(seq(|ps|, i requires 0 <= i < |ps| => Enrich(ps[i], lookup)))
  }

  /**
   * Where the lookup succeeds, the per-student query enriches a payment
   * exactly as `fetchPayments` does; where it fails, the query gives `null`
   * while `fetchPayments` falls back to "Unknown".
   */
  lemma PaymentsForStudentAgrees(ps: seq<Payment>, studentId: int, lookup: int -> Option<Lookup>)
    requires forall i :: 0 <= i < |ps| ==> ps[i].studentId == studentId
    ensures lookup(studentId).Some? ==> PaymentsForStudent(Some(ps), lookup(studentId)) == Some(EnrichAll(ps, lookup))
    ensures lookup(studentId).None? ==> PaymentsForStudent(Some(ps), lookup(studentId)) == None
  {
    if lookup(studentId).Some? {
      var r := PaymentsForStudent(Some(ps), lookup(studentId)).value;
      var e := EnrichAll(ps, lookup);
      assert |r| == |e|;
      forall i | 0 <= i < |ps| ensures r[i] == e[i] {
        assert lookup(ps[i].studentId) == lookup(studentId);
      }
      assert r == e;
    }
  }

  /**
   * Everything the store derives from a payment list: the list sorted newest
   * first (in place, on an array), its total, its three newest entries and
   * its ten-day series.
   */
  method Derive(updated: seq<Payment>, today: int)
    returns (sorted: seq<Payment>, total: nat, latest: seq<Payment>, daily: seq<DailyFee>)
    ensures sorted == SortedByDate(updated) && multiset(sorted) == multiset(updated) && SortedDesc(sorted)
    ensures total == TotalPaid(updated) && total == TotalPaid(sorted)
    ensures latest == Latest(sorted)
    ensures daily == DailySeries(updated, today)
  {
    total := TotalPaid(updated);
    var a := new Payment[|updated|](i requires 0 <= i < |updated| => updated[i]);
    assert a[..] == updated;
    SortByDateDesc(a);
    sorted := a[..];
    SortedByDateSpec(updated);
    TotalPaidOrderFree(updated, sorted);
    DailySeriesOrderFree(updated, sorted, today);
    latest := Latest(sorted);
    daily := Last10Days(sorted, today);
  }

  /** `fetchPayments` after the response: enrich every payment and derive the rest from the enriched list. */
  method DeriveFetched(fetched: seq<Payment>, lookup: int -> Option<Lookup>, today: int)
    returns (sorted: seq<Payment>, total: nat, latest: seq<Payment>, daily: seq<DailyFee>)
    ensures sorted == SortedByDate(EnrichAll(fetched, lookup))
    ensures SortedDesc(sorted)
    ensures total == TotalPaid(fetched) && total == TotalPaid(sorted)
    ensures latest == Latest(sorted)
    ensures daily == DailySeries(fetched, today)
  {
    var enrichedPayments := EnrichAll(fetched, lookup);
    EnrichKeepsTotals(fetched, lookup, today);
    sorted, total, latest, daily := Derive(enrichedPayments, today);
  }

  /** `createPayment` after the lookups: append the enriched payment and derive the rest from the new list. */
  method DeriveCreated(before: seq<Payment>, paymentWithMeta: Payment, today: int)
    returns (sorted: seq<Payment>, total: nat, latest: seq<Payment>, daily: seq<DailyFee>)
    ensures sorted == SortedByDate(before + [paymentWithMeta]) && SortedDesc(sorted)
    ensures multiset(sorted) == multiset(before) + multiset{paymentWithMeta}
    ensures total == TotalPaid(before) + AmountOf(paymentWithMeta) && total == TotalPaid(sorted)
    ensures latest == Latest(sorted)
    ensures daily == DailySeries(before + [paymentWithMeta], today)
  {
    var updatedPayments := before + [paymentWithMeta];
    SumAppend(before, [paymentWithMeta], AmountOf);
    SumSingle(paymentWithMeta, AmountOf);
    sorted, total, latest, daily := Derive(updatedPayments, today);
  }

  class PaymentStore {
    var payments: seq<Payment>
    var latestPayments: seq<Payment>
    var totalPaidAmount: nat
    var dailyFeesData: seq<DailyFee>
    var loading: bool
    /** How many student-list refreshes `createPayment` has requested. */
    ghost var studentRefreshes: nat

    /** The stored list is newest first, and the total and the three newest agree with it. */
    ghost predicate Valid()
      reads this
    {
      SortedDesc(payments) && totalPaidAmount == TotalPaid(payments) && latestPayments == Latest(payments)
    }

    constructor ()
      ensures Valid()
      ensures payments == [] && latestPayments == [] && totalPaidAmount == 0 && dailyFeesData == [] && !loading
      ensures studentRefreshes == 0
    {
      payments := [];
      latestPayments := [];
      totalPaidAmount := 0;
      dailyFeesData := [];
      loading := false;
      studentRefreshes := 0;
    }

    /**
     * `fetchPayments` at time `today`. `response` is the list the server
     * returns (`None` when the request fails, which only clears `loading`).
     */
    method FetchPayments(response: Option<seq<Payment>>, lookup: int -> Option<Lookup>, today: int)
      requires Valid()
      modifies this
      ensures Valid() && !loading && studentRefreshes == old(studentRefreshes)
      ensures response.None? ==> payments == old(payments) && latestPayments == old(latestPayments)
                                 && totalPaidAmount == old(totalPaidAmount) && dailyFeesData == old(dailyFeesData)
      ensures response.Some? ==> var enriched := EnrichAll(response.value, lookup);
                                 payments == SortedByDate(enriched)
                                 && totalPaidAmount == TotalPaid(response.value)
                                 && latestPayments == Latest(payments)
                                 && dailyFeesData == DailySeries(response.value, today)
    {
      loading := true;
      if response.Some? {
        payments, totalPaidAmount, latestPayments, dailyFeesData := DeriveFetched(response.value, lookup, today);
      }
      loading := false;
    }

    /**
     * `createPayment` at time `today`. `created` is the record the server
     * returns for the new payment and `lookup` the student and course looked
     * up for its student; if any of the three requests fails nothing changes.
     * Otherwise the enriched payment joins the list, everything derived is
     * recomputed, and a student-list refresh is requested. `loading` is not
     * touched.
     */
    method CreatePayment(created: Option<Payment>, lookup: Option<Lookup>, today: int)
      requires Valid()
      modifies this
      ensures Valid() && loading == old(loading)
      ensures created.None? || lookup.None? ==>
                payments == old(payments) && latestPayments == old(latestPayments) && totalPaidAmount == old(totalPaidAmount)
                && dailyFeesData == old(dailyFeesData) && studentRefreshes == old(studentRefreshes)
      ensures created.Some? && lookup.Some? ==>
                var pm := Enrich(created.value, lookup);
                payments == SortedByDate(old(payments) + [pm])
                && multiset(payments) == multiset(old(payments)) + multiset{pm}
                && totalPaidAmount == old(totalPaidAmount) + AmountOf(created.value)
                && latestPayments == Latest(payments)
                && dailyFeesData == DailySeries(old(payments) + [pm], today)
                && studentRefreshes == old(studentRefreshes) + 1
    {
      if created.None? || lookup.None? {
        return;
      }
      var paymentWithMeta := Enrich(created.value, lookup);
      payments, totalPaidAmount, latestPayments, dailyFeesData := DeriveCreated(payments, paymentWithMeta, today);
      studentRefreshes := studentRefreshes + 1;
    }
  }
}
