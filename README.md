# Fee-management frontend: verified model of the client-side aggregates

This project models the client-side logic of a school fee-management web
frontend in Dafny. It covers the three state stores, the two student search
handlers and the sidebar's active-item test.

- **Course store.** It caches the course list, the course count and the flat
  sum of course fees. It updates the list after add, update and delete calls.
- **Student store.** It caches the student list, joining each student to the
  name of their course. It keeps the student count, the sum of the fees paid,
  and the system total fee. The system total is each cached course's fee times
  the number of students enrolled in it.
- **Payment store.** It enriches every payment with the student name, the
  course name, the course fee and a rounded paid percentage. It keeps the list
  newest first, the three newest payments, the total paid and a ten-day daily
  series for the dashboard.
- **Search handlers.** The students page and the pay-fee page search students
  by a case-insensitive substring of the name or the roll number.
- **Sidebar.** Six navigation items. Decides which one is highlighted for the
  current location.

Each store is a class whose fields its methods overwrite, as the source's `set`
calls do. Every method states the whole new state. The stores never receive a
server response inside the model; it is a parameter:

- a fetched list is `Option<seq<..>>`, where `None` means the request failed;
- an actual created or updated record is `Option<..>`;
- a delete is a success flag;
- the student and course lookups per payment are an `Option<Lookup>`. For
  `fetchPayments` this is a function from student id to that option.

The clock is a parameter `today`. A payment date is the millisecond count that
`new Date(paymentDate).getTime()` yields, and its calendar day is that count
divided by 86 400 000. That is the UTC day `toISOString()` prints.

Imperative code keeps its form:

- `generateLast10DaysData` is a method with its two loops. It is proved equal
  to the series function `DailySeries`.
- The in-place `sort` is an insertion sort on an array. It is proved equal to
  the stable sort function `SortedByDate`, as the JavaScript sort is stable.
- The `courseFeeMap` loops of `fetchStudents` are methods proved equal to the
  grouped total. That total is proved equal to the per-student sum.

Both stores that sort (`fetchPayments`, `createPayment`) store the sorted array
itself, because `sort` reorders the enriched array in place. The model's
`payments` is therefore the sorted list.

## Model

| member | source | states |
|---|---|---|
| Entities.DayOf | src/store/usePaymentStore.ts:206 | a millisecond time lies inside the calendar day it is assigned to |
| Courses.FindCourse | src/store/useStudentStore.ts:55 | the result is the first cached course with the id, and it is absent exactly when no course has that id |
| Courses.CourseNameOf | src/store/useStudentStore.ts:55-58 | the name of the first matching course, or "Unknown" when none matches |
| Courses.FeeOf | src/store/useStudentStore.ts:73-76 | the fee of the first matching course, or 0 when the course is not cached |
| Courses.TotalCourseFeeAppend | src/store/useCoursesStore.ts:82-86 | appending a course raises the flat total by exactly its fee |
| Courses.TotalCourseFeeOrderFree | src/store/useCoursesStore.ts:46-49 | the flat total is the same for any permutation of the list |
| Courses.WithoutCourse | src/store/useCoursesStore.ts:123-127 | removing by id keeps exactly the other courses in order, each with as many copies as before, and the new total plus the removed fees is the old total; a missing id changes nothing |
| Courses.ReplaceCourse | src/store/useCoursesStore.ts:105-109 | same length; exactly the entries with the returned course's id become that course |
| Courses.CourseStore.constructor | src/store/useCoursesStore.ts:33-37 | empty cache, zero count and total, not loading |
| Courses.CourseStore.FetchCourses | src/store/useCoursesStore.ts:40-62 | on success, list, count and flat total come from the response; on failure only `loading` is cleared |
| Courses.CourseStore.AddCourse | src/store/useCoursesStore.ts:77-97 | on success, one course is appended and the total grows by its fee; a failure changes nothing; `loading` is untouched |
| Courses.CourseStore.UpdateCourse | src/store/useCoursesStore.ts:100-117 | on success the list is replaced by id, on failure it reports the rethrow; the count and total are never recomputed |
| Courses.CourseStore.DeleteCourse | src/store/useCoursesStore.ts:120-139 | on success the id's courses are removed and the count and total recomputed; a failure changes nothing |
| Students.WithCourseName | src/store/useStudentStore.ts:112-114 | only `courseName` changes; it becomes the cached course's name or "Unknown" |
| Students.JoinCourseNames | src/store/useStudentStore.ts:54-60 | one record per fetched student in order, differing only in `courseName`; "Unknown" when no course matches |
| Students.KnownIdsSpec | src/store/useStudentStore.ts:72-83 | the map's keys are distinct, include every student's cached course id, and hold only such ids |
| Students.KeySumIsPerStudentFee | src/store/useStudentStore.ts:86-89 | summing fee × count over any distinct key list that covers the students' cached courses gives the per-student sum |
| Students.GroupedFeeIsPerStudentFee | src/store/useStudentStore.ts:68-89 | the total Σ feeAmount × enrolled count equals the sum over students of their course's fee |
| Students.GroupedFeeOrderFree | src/store/useStudentStore.ts:68-89 | the system total does not depend on the order of the students |
| Students.UncachedCourseAddsNothing | src/store/useStudentStore.ts:73-74 | a student whose course is not cached adds nothing to the system total |
| Students.TwoStudentsOneCourse | src/store/useStudentStore.ts:68-89 | a course with fee 1000 and two students in it gives a total of 2000 |
| Students.CountByCourse | src/store/useStudentStore.ts:69-83 | the loop's map holds, for each cached course with a student, its fee and the number of students enrolled; keys in insertion order |
| Students.CountStudent | src/store/useStudentStore.ts:73-82 | one loop step keeps the map holding the fee and enrolled count of every cached course seen so far, keys in first-seen order |
| Students.CourseFeeTotal | src/store/useStudentStore.ts:69-89 | both loops together compute the grouped total, which is also the per-student sum |
| Students.WithoutStudent | src/store/useStudentStore.ts:173-177 | removing by id keeps exactly the other students in order, each with as many copies as before, and the new paid total plus the removed students' paid fees is the old total |
| Students.ReplaceStudent | src/store/useStudentStore.ts:149-152 | same length; exactly the records with the returned record's id become that record |
| Students.StudentStore.constructor | src/store/useStudentStore.ts:36-41 | empty cache, zero count and totals, not loading |
| Students.StudentStore.FetchStudents | src/store/useStudentStore.ts:44-103 | on success: the joined list, its count, the paid total, and the system total (grouped, equal to per-student); on failure only `loading` is cleared |
| Students.StudentStore.AddStudent | src/store/useStudentStore.ts:106-133 | on success one joined record is appended at the end; the totals stay; `loading` ends false |
| Students.StudentStore.UpdateStudent | src/store/useStudentStore.ts:136-165 | on success, the records with the returned record's id are replaced by it (joined); the totals stay; `loading` ends false |
| Students.StudentStore.DeleteStudent | src/store/useStudentStore.ts:168-195 | on success the id's records are removed and the count and paid total recomputed; the system total stays; `loading` ends false |
| PaymentSort.SortedByDateSpec | src/store/usePaymentStore.ts:96-98 | the sorted list is a permutation of its input, newest first, an undated payment counting as time 0 |
| PaymentSort.SortedByDateStable | src/store/usePaymentStore.ts:96-98 | payments with equal times keep their relative order |
| PaymentSort.InsertInPlace | src/store/usePaymentStore.ts:96-98 | one in-place step: the first i+1 cells hold the stable insertion of cell i into the sorted prefix; later cells stay |
| PaymentSort.SortByDateDesc | src/store/usePaymentStore.ts:171-173 | sorting the array in place leaves exactly the stable newest-first ordering of its old contents |
| PaymentSort.LatestAreNewest | src/store/usePaymentStore.ts:100 | the latest list has min(3, n) payments drawn from the input, newest first, and no payment left out is newer than any kept |
| DailyFees.TotalPaidOrderFree | src/store/usePaymentStore.ts:91-94 | the total paid does not depend on list order |
| DailyFees.DailySeries | src/store/usePaymentStore.ts:203-208 | ten buckets for consecutive days, oldest first, the last one today |
| DailyFees.BucketsSum | src/store/usePaymentStore.ts:210-215 | the buckets' fees add up to the amounts of the payments dated inside the window |
| DailyFees.DailySeriesAccountsForTotal | src/store/usePaymentStore.ts:210-215 | the series plus undated and out-of-window amounts is the total paid; the series is at most the total, and equals it exactly when every non-zero payment lies in the window |
| DailyFees.OutsidePaymentChangesNothing | src/store/usePaymentStore.ts:211-214 | an undated or out-of-window payment leaves the series unchanged |
| DailyFees.DailySeriesOrderFree | src/store/usePaymentStore.ts:176 | the series does not depend on list order |
| DailyFees.DailySeriesPointwise | src/store/usePaymentStore.ts:210-215 | the series depends only on each payment's date and amount |
| DailyFees.FindBucket | src/store/usePaymentStore.ts:213 | the index of the first bucket with that date, absent exactly when no bucket has it |
| DailyFees.Last10Days | src/store/usePaymentStore.ts:199-218 | the push loop and the in-place accumulation loop produce exactly the ten-day series |
| Payments.RoundedPercent | src/store/usePaymentStore.ts:70 | defined exactly when the amount is present and the fee non-zero, and then it is 100·amount/fee rounded half up |
| Payments.RoundedPercentUnique | src/store/usePaymentStore.ts:134 | any whole number meeting the rounding bounds is the percentage |
| Payments.RoundedPercentBounds | src/store/usePaymentStore.ts:161 | paying the full fee shows 100, nothing shows 0, paying more never shows less, and at most the fee shows at most 100 |
| Payments.RoundedPercentExamples | src/store/usePaymentStore.ts:70 | 500 of 1000 is 50, 2300 of 4000 is 58 (an exact half, rounded up), 1 of 3 is 33, 2 of 3 is 67, 1 of 8 is 13; no value for fee 0 or no amount |
| Payments.Enrich | src/store/usePaymentStore.ts:72-85 | ids, amount, mode, remarks and date are kept; on success names, fee and percentage come from the lookup; on failure both names are "Unknown", the percentage 0 and `totalFee` stays |
| Payments.EnrichAll | src/store/usePaymentStore.ts:60-88 | one enriched payment per fetched payment, none dropped |
| Payments.EnrichAllKeeps | src/store/usePaymentStore.ts:60-88 | position for position, each payment keeps its id, student, amount and date, and takes its student's name from that student's lookup, or "Unknown" |
| Payments.EnrichKeepsTotals | src/store/usePaymentStore.ts:91-101 | enrichment changes neither the total paid nor the ten-day series |
| Payments.PaymentsForStudent | src/store/usePaymentStore.ts:118-141 | a value exactly when all three requests succeed; then every payment carries that student's and course's names, the fee and the rounded percentage |
| Payments.PaymentsForStudentAgrees | src/store/usePaymentStore.ts:129-135 | with a successful lookup the per-student query enriches as `fetchPayments` does; with a failed one it gives nothing |
| Payments.Derive | src/store/usePaymentStore.ts:166-176 | the stored list is the sorted permutation, and the total, the three newest and the series are derived from it |
| Payments.DeriveFetched | src/store/usePaymentStore.ts:91-101 | after enrichment the list is sorted newest first, and the three newest are taken from it; total and series equal those of the raw response |
| Payments.DeriveCreated | src/store/usePaymentStore.ts:166-176 | after appending the new payment: the sorted list is the old payments plus exactly the new one, the total grows by its amount, and the three newest and the series are derived |
| Payments.PaymentStore.constructor | src/store/usePaymentStore.ts:45-50 | empty lists, zero total, not loading |
| Payments.PaymentStore.FetchPayments | src/store/usePaymentStore.ts:53-115 | on success: list newest first, total, three newest and series; on failure only `loading` is cleared; the store stays sorted and consistent |
| Payments.PaymentStore.CreatePayment | src/store/usePaymentStore.ts:144-195 | on success: old list plus exactly the one enriched payment, sorted, total raised by its amount, latest and series derived, one refresh requested; any failure changes nothing |
| Text.Lower | src/pages/StudentPage.tsx:50 | same length, non-capitals kept, each capital A-Z mapped to its small letter a-z, no capital left |
| Text.LowerIdempotent | src/pages/StudentPage.tsx:53 | lower-casing twice is lower-casing once |
| Text.ContainsIff | src/pages/StudentPage.tsx:53-54 | `includes` holds exactly when the needle occurs at some position |
| Text.ContainsTransitive | src/pages/StudentPage.tsx:53-54 | a substring of a substring is a substring |
| Search.SearchResults | src/pages/StudentPage.tsx:51-55 | the results are a subsequence of the list, all match, and every matching student occurs as often as in the list |
| Search.SearchResultsMembers | src/pages/PayFeeSearchPage.tsx:26-30 | a student is in the results exactly when it is in the list and matches |
| Search.SearchIgnoresCase | src/pages/StudentPage.tsx:50-54 | queries that lower-case alike give the same results |
| Search.SearchIdempotent | src/pages/PayFeeSearchPage.tsx:26-30 | searching the results again with the same term changes nothing |
| Search.EmptyQueryKeepsAll | src/pages/StudentPage.tsx:51-55 | the empty query matches everyone |
| Search.LongerQueryNarrows | src/pages/StudentPage.tsx:51-55 | a query containing another gives a subsequence of its results |
| StudentsPage.StudentPage.constructor | src/pages/StudentPage.tsx:20-21 | empty query, everything shown |
| StudentsPage.StudentPage.SetQuery | src/pages/StudentPage.tsx:101 | only the query changes |
| StudentsPage.StudentPage.StudentsChanged | src/pages/StudentPage.tsx:39-41 | the new list is shown in full |
| StudentsPage.StudentPage.HandleSearch | src/pages/StudentPage.tsx:44-59 | a blank query shows everyone, any other shows the matches of the untrimmed query; the table always lists entries of the store's list in order |
| StudentsPage.StudentPage.HandleShowAll | src/pages/StudentPage.tsx:62-65 | the query is cleared and everyone is shown |
| PayFeePage.SearchedList | src/pages/PayFeeSearchPage.tsx:22-26 | the list searched is the snapshot, or the refreshed store list when the snapshot was empty |
| PayFeePage.PayFeeSearch.constructor | src/pages/PayFeeSearchPage.tsx:12-13 | empty term, nothing shown |
| PayFeePage.PayFeeSearch.SetSearchTerm | src/pages/PayFeeSearchPage.tsx:56 | only the term changes |
| PayFeePage.PayFeeSearch.HandleSearch | src/pages/PayFeeSearchPage.tsx:16-36 | a blank term changes nothing; otherwise a fetch is requested if the snapshot is empty, and the matches in the snapshot are shown, even when there are none |
| PayFeePage.PayFeeSearch.HandleSearchRefreshed | src/pages/PayFeeSearchPage.tsx:16-36 | as above, but the matches are taken from the refreshed list when the snapshot was empty |
| PayFeePage.StaleSnapshotFindsNobody | src/pages/PayFeeSearchPage.tsx:22-30 | the as-written search of an empty snapshot shows nobody, while the refreshed search shows the loaded match |
| PayFeePage.RefreshedSearchFindsFetched | src/pages/PayFeeSearchPage.tsx:22-30 | the refreshed search shows exactly the loaded students that match |
| Sidebar.IsActiveIff | src/components/Sidebar.tsx:43-45 | an item is active exactly when its path is a prefix of the location and the location ends there or continues with "/" |
| Sidebar.SingleSegmentsExclusive | src/components/Sidebar.tsx:43-45 | two single-segment paths active at one location are the same path |
| Sidebar.AtMostOneActive | src/components/Sidebar.tsx:22-45 | with the six fixed items, at most one is active wherever the user is |
| Sidebar.NavItemsShape | src/components/Sidebar.tsx:22-29 | every item's path is a single segment, and no two items share a path |
| Sidebar.DiffersAt | src/components/Sidebar.tsx:43-45 | a location that differs from an item's path at some position inside both does not activate it |
| Sidebar.ShorterThan | src/components/Sidebar.tsx:43-45 | a location shorter than an item's path does not activate it |
| Sidebar.SubPagesActivate | src/components/Sidebar.tsx:43-45 | "/payfee/7" activates Pay Fee and "/students" activates Students |
| Sidebar.LookAlikeActivatesNothing | src/components/Sidebar.tsx:43-45 | "/payfeex" activates no item, although it starts with "/payfee" |
| Sidebar.RootActivatesNothing | src/components/Sidebar.tsx:43-45 | "/" activates no item |
| Sidebar.StudentUpdateActivatesNothing | src/components/Sidebar.tsx:43-45 | "/student/update/3" activates no item, neither Students nor any other |

## Left out

- HTTP calls, toasts, console logging and navigation are not modelled. The
  server's answers are parameters, taken after the source's unwrapping of the
  response body. How that unwrapping treats a body without a `data` field is
  not modelled. It differs between call sites:
  - `fetchCourses`, `addCourse`, `fetchStudents`, `addStudent`,
    `updateStudent` and `createPayment` fall back to the bare body
    (`res.data.data || res.data`);
  - `fetchPayments` (src/store/usePaymentStore.ts:57) and
    `getPaymentsByStudent` (src/store/usePaymentStore.ts:121) fall back to the
    empty list (`res.data.data || []`);
  - `updateCourse` (src/store/useCoursesStore.ts:103) has no fallback.
- Courses.CourseStore.UpdateCourse: `None` stands for a failed request and
  also for a reply without `data`. With a non-empty cache, the source then
  throws on `updated.courseId` inside `set`. The update has succeeded on the
  server, but the store reports a failure, rethrows it, and keeps the stale
  cache. With an empty cache, the same reply completes silently in the source
  and does not throw. The model reports a throw.
- `Promise.all` is modelled as a sequential map, and the async interleavings of
  `loading` are not modelled. The enrichment of `fetchPayments` assumes the
  server gives the same answer for every payment of one student during one
  fetch.
- The re-fetches after a mutation are not modelled. These are `addStudent`,
  `updateStudent` and `deleteStudent` calling `fetchStudents`, and the student
  refresh from `createPayment`. The last one is only counted, in a ghost
  counter.
- Payments.PaymentStore.CreatePayment: the refresh it requests is a ghost
  counter, not a call to the student store, because the source fires it
  without awaiting it and behind a dynamic import.
- Dates are taken as already parsed to milliseconds. Not modelled:
  - parsing date strings;
  - `toISOString` throwing on an invalid date;
  - the local-time `setDate` arithmetic, which can differ from the UTC day
    near midnight and at daylight-saving changes.
  The window is the ten UTC days ending on today's UTC day.
- Payments.RoundedPercent: the arithmetic is exact and rational, whereas the
  source uses floating-point division and `Math.round`. At amounts whose exact
  percentage ends in .5, the model can show one more than the source. Take 2300
  paid against a fee of 4000. The source computes `(2300 / 4000) * 100` as
  57.49999999999999 and shows 57, while the model gives 58
  (`Payments.RoundedPercentExamples`). Such pairs occur at ordinary amounts.
  NaN and Infinity, from a missing amount or a zero fee, are modelled
  as no value rather than forbidden by a precondition.
- `toLowerCase` lowers only the ASCII capitals A-Z. Full Unicode case mapping
  is not modelled.
- Money is a natural number. The source's numbers may be fractional or
  negative. A course's `feeAmount` is required and natural, so the `|| 0`
  guard on it has no effect here.
- `getCourseById` is not modelled: it only passes a server response through.
- `useAdminStore`, the other pages and forms, and the dashboard's system-wide
  total through `calculateTotalWithStudents` are not part of this model. That
  function is not defined in the course store.
- `updateStudent` does not check whether the response is one record or a
  collection. Like the code, the model replaces the records whose id equals the
  returned record's id.
- The student page's mount effect only calls the store's `fetchStudents`,
  which is `Students.StudentStore.FetchStudents`. The page-level "No student
  found" messages are rendering only.
- Payments.PaymentStore.FetchPayments: its contract states that the list is
  `SortedByDate` of the enriched payments. It does not state the permutation
  outright; `PaymentSort.SortedByDateSpec` supplies that.

## Findings

| source | as written | input that shows it | evidently intended | confidence | as-written member | corrected member |
|---|---|---|---|---|---|---|
| src/pages/PayFeeSearchPage.tsx:22-30 | after `await fetchStudents()` the filter runs over `students` from the render that created the handler, which is still the empty list | first search before the store has loaded: the fetch loads a student "Ann Lee", the term is "ann", and the page shows nobody | search the list the fetch just loaded | not executed | PayFeePage.PayFeeSearch.HandleSearch, PayFeePage.StaleSnapshotFindsNobody | PayFeePage.PayFeeSearch.HandleSearchRefreshed, PayFeePage.RefreshedSearchFindsFetched |
