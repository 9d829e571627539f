/**
 * The records the fee-management console caches: courses, students and
 * payments, as the remote record service sends them. A field the source
 * declares optional is an `Option`; money is a `nat`; a payment date is a
 * JavaScript timestamp (milliseconds since the epoch).
 */
module Entities {
  import opened Wrappers

  datatype Course = Course(
    courseId: int,
    courseName: string,
    semester: int,
    feeAmount: nat,
    createdAt: Option<string>,
    updatedAt: Option<string>)

  datatype Student = Student(
    studentId: int,
    fullName: string,
    rollNo: string,
    contactNo: string,
    parentName: string,
    courseId: int,
    courseName: Option<string>,
    totalFee: Option<nat>,
    paidFee: Option<nat>,
    pendingFee: Option<nat>,
    admissionDate: Option<string>,
    lastPaymentDate: Option<string>)

  datatype Payment = Payment(
    paymentId: int,
    studentId: int,
    studentName: Option<string>,
    courseName: Option<string>,
    amountPaid: Option<nat>,
    totalFee: Option<nat>,
    paidPercentage: Option<nat>,
    paymentMode: string,
    remarks: Option<string>,
    paymentDate: Option<int>)

  /** One bar of the dashboard chart: a calendar day (days since the epoch, UTC) and the fees paid on it. */
  datatype DailyFee = DailyFee(date: int, fees: nat)

  /** The placeholder label used when a joined record cannot be found. */
  const Unknown: string := "Unknown"

  const MsPerDay: int := 86_400_000

  /** `p.amountPaid || 0`. */
  function AmountOf(p: Payment): nat {
    p.amountPaid.GetOr(0)
  }

  /** `s.paidFee || 0`. */
  function PaidFeeOf(s: Student): nat {
    s.paidFee.GetOr(0)
  }

  /**
   * `safeDate(p.paymentDate).getTime()`: the payment's timestamp, or the
   * epoch when it has no date.
   */
  function SafeTime(p: Payment): int {
    p.paymentDate.GetOr(0)
  }

  /** The calendar day `toISOString().split("T")[0]` names for timestamp `t`. */
  function DayOf(t: int): (d: int)
    ensures d * MsPerDay <= t < (d + 1) * MsPerDay
  {
    t / MsPerDay
  }
}
