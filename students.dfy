/**
 * The student aggregate cache: the fetched students joined to the cached
 * course names, their count, the sum of the fees they paid, and the system
 * total fee (each cached course's fee times the number of students enrolled
 * in it), with the list edits that follow a successful add, update or delete.
 */
module Students {
  import opened Wrappers
  import opened Seqs
  import opened Entities
  import opened Courses

  /** `{ ...student, courseName: course ? course.courseName : "Unknown" }`. */
  function WithCourseName(s: Student, courses: seq<Course>): (r: Student)
    ensures r.courseName == Some(CourseNameOf(courses, s.courseId))
    ensures r.(courseName := s.courseName) == s
  {
    s.(courseName := Some(CourseNameOf(courses, s.courseId)))
  }

  /**
   * The course-name join of `fetchStudents`: one output record per fetched
   * student, in the same order, differing from it only in `courseName`,
   * which is the name of the first cached course with the student's course
   * id, or "Unknown".
   */
  function JoinCourseNames(data: seq<Student>, courses: seq<Course>): (r: seq<Student>)
    ensures |r| == |data|
    ensures forall i :: 0 <= i < |r| ==> r[i].(courseName := data[i].courseName) == data[i]
    ensures forall i :: 0 <= i < |r| ==> r[i].courseName == Some(CourseNameOf(courses, data[i].courseId))
    ensures forall i :: 0 <= i < |r| && (forall k :: 0 <= k < |courses| ==> courses[k].courseId != data[i].courseId)
              ==> r[i].courseName == Some(Unknown)
  {
    seq(|data|, i requires 0 <= i < |data| => WithCourseName(data[i], courses))
  }

  /** `students.reduce((sum, s) => sum + (s.paidFee || 0), 0)`. */
  function TotalPaidFee(students: seq<Student>): nat {
    Sum(students, PaidFeeOf)
  }

  /** The fee of a student's course, 0 when that course is not cached. */
  function FeeFor(courses: seq<Course>): Student -> nat {
    (s: Student) => FeeOf(courses, s.courseId)
  }

  /** The system total fee, summed student by student. */
  function PerStudentFee(students: seq<Student>, courses: seq<Course>): nat {
    Sum(students, FeeFor(courses))
  }

  function InCourse(id: int): Student -> nat {
    (s: Student) => if s.courseId == id then 1 else 0
  }

  /** The number of students enrolled in course `id`. */
  function Enrolled(students: seq<Student>, id: int): nat {
    Sum(students, InCourse(id))
  }

  ghost predicate Distinct(ids: seq<int>) {
    forall i, j :: 0 <= i < j < |ids| ==> ids[i] != ids[j]
  }

  /**
   * The keys of `courseFeeMap` in the order the map received them: the
   * course ids of the students, first occurrence first, for which a cached
   * course exists.
   */
  function KnownIds(students: seq<Student>, courses: seq<Course>): seq<int> {
    if students == [] then []
    else
      var earlier := KnownIds(students[..|students| - 1], courses);
      var id := students[|students| - 1].courseId;
      if FindCourse(courses, id).Some? && id !in earlier then earlier + [id] else earlier
  }

  /** Σ over `keys` of the course fee times the number of students enrolled. */
  function KeySum(keys: seq<int>, students: seq<Student>, courses: seq<Course>): nat {
    if keys == [] then 0
    else
      var id := keys[|keys| - 1];
      KeySum(keys[..|keys| - 1], students, courses) + FeeOf(courses, id) * Enrolled(students, id)
  }

  /** The system total fee as `fetchStudents` defines it: grouped by course. */
  function GroupedFee(students: seq<Student>, courses: seq<Course>): nat {
    KeySum(KnownIds(students, courses), students, courses)
  }

  lemma EnrolledSnoc(students: seq<Student>, s: Student, id: int)
    ensures Enrolled(students + [s], id) == Enrolled(students, id) + (if s.courseId == id then 1 else 0)
  {
    SumAppend(students, [s], InCourse(id));
  }

  lemma {:induction false} EnrolledNone(students: seq<Student>, id: int)
    requires forall i :: 0 <= i < |students| ==> students[i].courseId != id
    ensures Enrolled(students, id) == 0
  {
    if students != [] {
      EnrolledNone(students[1..], id);
    }
  }

  lemma {:induction false} KnownIdsDistinct(students: seq<Student>, courses: seq<Course>)
    ensures Distinct(KnownIds(students, courses))
  {
    if students != [] {
      KnownIdsDistinct(students[..|students| - 1], courses);
    }
  }

  lemma {:induction false} KnownIdsCover(students: seq<Student>, courses: seq<Course>)
    ensures forall i :: 0 <= i < |students| && FindCourse(courses, students[i].courseId).Some?
              ==> students[i].courseId in KnownIds(students, courses)
  {
    if students != [] {
      var init := students[..|students| - 1];
      KnownIdsCover(init, courses);
      forall i | 0 <= i < |students| - 1 ensures students[i] == init[i] { }
    }
  }

  lemma {:induction false} KnownIdsOnly(students: seq<Student>, courses: seq<Course>)
    ensures forall k :: k in KnownIds(students, courses) ==>
              FindCourse(courses, k).Some? && exists i :: 0 <= i < |students| && students[i].courseId == k
  {
    if students != [] {
      var init := students[..|students| - 1];
      KnownIdsOnly(init, courses);
      forall k | k in KnownIds(init, courses) ensures exists i :: 0 <= i < |students| && students[i].courseId == k {
        var i :| 0 <= i < |init| && init[i].courseId == k;
        assert students[i] == init[i];
      }
    }
  }

  /** The grouping keys are distinct, and they are exactly the cached course ids some student has. */
  lemma KnownIdsSpec(students: seq<Student>, courses: seq<Course>)
    ensures Distinct(KnownIds(students, courses))
    ensures forall i :: 0 <= i < |students| && FindCourse(courses, students[i].courseId).Some?
              ==> students[i].courseId in KnownIds(students, courses)
    ensures forall k :: k in KnownIds(students, courses) ==>
              FindCourse(courses, k).Some? && exists i :: 0 <= i < |students| && students[i].courseId == k
  {
    KnownIdsDistinct(students, courses);
    KnownIdsCover(students, courses);
    KnownIdsOnly(students, courses);
  }

  lemma {:induction false} KeySumNoStudents(keys: seq<int>, courses: seq<Course>)
    ensures KeySum(keys, [], courses) == 0
  {
    if keys != [] {
      KeySumNoStudents(keys[..|keys| - 1], courses);
    }
  }

  /** The enrolled count of a list with one more student in front. */
  lemma EnrolledCons(s: Student, rest: seq<Student>, id: int)
    ensures Enrolled([s] + rest, id) == (if s.courseId == id then 1 else 0) + Enrolled(rest, id)
  {
    assert ([s] + rest)[1..] == rest;
  }

  lemma ScaledCount(fee: nat, one: bool, e: nat)
    ensures fee * ((if one then 1 else 0) + e) == (if one then fee else 0) + fee * e
  {
  }

  /** One more student adds the fee of its course when that course is among the keys. */
  lemma {:induction false} KeySumCons(keys: seq<int>, s: Student, rest: seq<Student>, courses: seq<Course>)
    requires Distinct(keys)
    ensures KeySum(keys, [s] + rest, courses)
            == KeySum(keys, rest, courses) + (if s.courseId in keys then FeeOf(courses, s.courseId) else 0)
  {
    if keys != [] {
      var init, id := keys[..|keys| - 1], keys[|keys| - 1];
      assert keys == init + [id];
      assert Distinct(init);
      KeySumCons(init, s, rest, courses);
      EnrolledCons(s, rest, id);
      ScaledCount(FeeOf(courses, id), s.courseId == id, Enrolled(rest, id));
      assert s.courseId in keys <==> s.courseId in init || s.courseId == id;
      assert id !in init;
    }
  }

  /** Grouping by any distinct key list covering every cached course of the students gives the per-student total. */
  lemma {:induction false} KeySumIsPerStudentFee(keys: seq<int>, students: seq<Student>, courses: seq<Course>)
    requires Distinct(keys)
    requires forall i :: 0 <= i < |students| && FindCourse(courses, students[i].courseId).Some?
               ==> students[i].courseId in keys
    ensures KeySum(keys, students, courses) == PerStudentFee(students, courses)
  {
    if students == [] {
      KeySumNoStudents(keys, courses);
    } else {
      var s, rest := students[0], students[1..];
      assert students == [s] + rest;
      forall i | 0 <= i < |rest| && FindCourse(courses, rest[i].courseId).Some? ensures rest[i].courseId in keys {
        assert rest[i] == students[i + 1];
      }
      KeySumIsPerStudentFee(keys, rest, courses);
      KeySumCons(keys, s, rest, courses);
    }
  }

  /**
   * The grouped system total Σ feeAmount × enrolled count equals the sum,
   * over the students, of the fee of each one's course (0 when uncached).
   */
  lemma GroupedFeeIsPerStudentFee(students: seq<Student>, courses: seq<Course>)
    ensures GroupedFee(students, courses) == PerStudentFee(students, courses)
  {
    KnownIdsSpec(students, courses);
    KeySumIsPerStudentFee(KnownIds(students, courses), students, courses);
  }

  /** The system total does not depend on the order in which the students arrive. */
  lemma GroupedFeeOrderFree(a: seq<Student>, b: seq<Student>, courses: seq<Course>)
    requires multiset(a) == multiset(b)
    ensures GroupedFee(a, courses) == GroupedFee(b, courses)
  {
    GroupedFeeIsPerStudentFee(a, courses);
    GroupedFeeIsPerStudentFee(b, courses);
    SumPermutation(a, b, FeeFor(courses));
  }

  /** A student whose course is not cached adds nothing to the system total. */
  lemma UncachedCourseAddsNothing(students: seq<Student>, s: Student, courses: seq<Course>)
    requires forall k :: 0 <= k < |courses| ==> courses[k].courseId != s.courseId
    ensures GroupedFee(students + [s], courses) == GroupedFee(students, courses)
  {
    GroupedFeeIsPerStudentFee(students + [s], courses);
    GroupedFeeIsPerStudentFee(students, courses);
    SumAppend(students, [s], FeeFor(courses));
  }

  /** One course CS with fee 1000 and two students enrolled in it: the system total is 2000. */
  lemma TwoStudentsOneCourse(cs: Course, s1: Student, s2: Student)
    requires cs.courseId == 1 && cs.feeAmount == 1000
    requires s1.courseId == 1 && s2.courseId == 1
    ensures GroupedFee([s1, s2], [cs]) == 2000
  {
    GroupedFeeIsPerStudentFee([s1, s2], [cs]);
    assert FindCourse([cs], 1) == Some(cs);
    assert FeeFor([cs])(s1) == 1000 && FeeFor([cs])(s2) == 1000;
    assert [s1, s2][1..] == [s2] && [s2][1..] == [];
    assert Sum([s2], FeeFor([cs])) == 1000;
  }

  /**
   * `feeMap` holds, for every key of `order`, the cached fee and the
   * enrolled count among `students`, its keys are cached course ids, and
   * `order` lists them as `KnownIds` does.
   */
  ghost predicate Counted(feeMap: map<int, (nat, nat)>, order: seq<int>, students: seq<Student>, courses: seq<Course>) {
    && order == KnownIds(students, courses)
    && (forall k :: k in feeMap ==> k in order)
    && (forall j :: 0 <= j < |order| ==> order[j] in feeMap)
    && (forall k :: k in feeMap ==> FindCourse(courses, k).Some?)
    && (forall k :: k in feeMap ==> feeMap[k] == (FeeOf(courses, k), Enrolled(students, k)))
  }

  /** One iteration of the counting loop: count student `s` in its cached course, opening the entry if needed. */
  method CountStudent(feeMap: map<int, (nat, nat)>, order: seq<int>, students: seq<Student>, s: Student, courses: seq<Course>)
    returns (feeMap': map<int, (nat, nat)>, order': seq<int>)
    requires Counted(feeMap, order, students, courses)
    ensures Counted(feeMap', order', students + [s], courses)
  {
    feeMap', order' := feeMap, order;
    assert (students + [s])[..|students|] == students;
    forall k ensures Enrolled(students + [s], k) == Enrolled(students, k) + (if s.courseId == k then 1 else 0) {
      EnrolledSnoc(students, s, k);
    }
    var course := FindCourse(courses, s.courseId);
    if course.Some? {
      var c := course.value;
      assert c.feeAmount == FeeOf(courses, s.courseId);
      if c.courseId !in feeMap {
        KnownIdsCover(students, courses);
        EnrolledNone(students, c.courseId);
        feeMap' := feeMap[c.courseId := (c.feeAmount, 1)];
        order' := order + [c.courseId];
      } else {
        var current := feeMap[c.courseId];
        feeMap' := feeMap[c.courseId := (current.0, current.1 + 1)];
      }
    }
  }

  /**
   * The first loop of `fetchStudents`: fills `courseFeeMap` with, for every
   * cached course some student is enrolled in, its fee and enrolled count;
   * `order` lists the keys in the order the map received them.
   */
  method CountByCourse(data: seq<Student>, courses: seq<Course>) returns (feeMap: map<int, (nat, nat)>, order: seq<int>)
    ensures order == KnownIds(data, courses)
    ensures forall k :: k in feeMap ==> k in order
    ensures forall j :: 0 <= j < |order| ==> order[j] in feeMap
    ensures forall k :: k in feeMap ==> feeMap[k] == (FeeOf(courses, k), Enrolled(data, k))
  {
    feeMap, order := map[], [];
    for i := 0 to |data|
      invariant Counted(feeMap, order, data[..i], courses)
    {
      assert data[..i + 1] == data[..i] + [data[i]];
      feeMap, order := CountStudent(feeMap, order, data[..i], data[i], courses);
    }
    assert data[..|data|] == data;
  }

  /**
   * The system total of `fetchStudents`: the counting loop, then the sum of
   * fee × count over the map's entries.
   */
  method CourseFeeTotal(data: seq<Student>, courses: seq<Course>) returns (totalFee: nat)
    ensures totalFee == GroupedFee(data, courses)
    ensures totalFee == PerStudentFee(data, courses)
  {
    var feeMap, order := CountByCourse(data, courses);
    totalFee := 0;
    for j := 0 to |order|
      invariant totalFee == KeySum(order[..j], data, courses)
    {
      assert order[..j + 1][..j] == order[..j];
      var entry := feeMap[order[j]];
      totalFee := totalFee + entry.0 * entry.1;
    }
    assert order[..|order|] == order;
    GroupedFeeIsPerStudentFee(data, courses);
  }

  function HasStudentId(id: int): Student -> bool {
    (s: Student) => s.studentId == id
  }

  function LacksStudentId(id: int): Student -> bool {
    (s: Student) => s.studentId != id
  }

  /**
   * `students.filter(s => s.studentId !== id)`: removes all and only the
   * students with that id, keeps the rest in order, and lowers the paid-fee
   * total by exactly what the removed students had paid.
   */
  function WithoutStudent(students: seq<Student>, id: int): (r: seq<Student>)
    ensures forall s :: s in r <==> s in students && s.studentId != id
    ensures forall s :: multiset(r)[s] == if s.studentId != id then multiset(students)[s] else 0
    ensures IsSubsequence(r, students)
    ensures TotalPaidFee(r) + TotalPaidFee(Filter(students, HasStudentId(id))) == TotalPaidFee(students)
    ensures (forall k :: 0 <= k < |students| ==> students[k].studentId != id) ==> r == students
  {
    FilterIsSubsequence(students, LacksStudentId(id));
    FilterMultiset(students, LacksStudentId(id));
    FilterMembers(students, LacksStudentId(id));
    SumFilterSplit(students, LacksStudentId(id), HasStudentId(id), PaidFeeOf);
    FilterKeepsAllWhen(students, LacksStudentId(id));
    Filter(students, LacksStudentId(id))
  }

  /**
   * `students.map(s => s.studentId === updated.studentId ? updated : s)`:
   * exactly the records with the returned record's id become that record.
   */
  function ReplaceStudent(students: seq<Student>, updated: Student): (r: seq<Student>)
    ensures |r| == |students|
    ensures forall k :: 0 <= k < |r| ==> r[k] == if students[k].studentId == updated.studentId then updated else students[k]
  {
    ReplaceWhere(students, HasStudentId(updated.studentId), updated)
  }

  class StudentStore {
    var students: seq<Student>
    var studentCount: nat
    var totalPaidFee: nat
    var totalFee: nat
    var loading: bool

    /** `studentCount` always equals the length of the cached list. */
    ghost predicate Valid()
      reads this
    {
      studentCount == |students|
    }

    constructor ()
      ensures Valid() && students == [] && totalPaidFee == 0 && totalFee == 0 && !loading
    {
      students := [];
      studentCount := 0;
      totalPaidFee := 0;
      totalFee := 0;
      loading := false;
    }

    /**
     * `fetchStudents`, reading the course cache `courseStore`: on success the
     * joined list replaces the cache and the count, paid total and system
     * total are recomputed; on failure only `loading` is cleared.
     */
    method FetchStudents(response: Option<seq<Student>>, courseStore: CourseStore)
      requires Valid()
      modifies this
      ensures Valid() && !loading
      ensures response.Some? ==>
                && students == JoinCourseNames(response.value, courseStore.courses)
                && totalPaidFee == TotalPaidFee(students)
                && totalFee == GroupedFee(students, courseStore.courses)
                && totalFee == PerStudentFee(students, courseStore.courses)
      ensures response.None? ==>
                students == old(students) && totalPaidFee == old(totalPaidFee) && totalFee == old(totalFee)
    {
      loading := true;
      match response
      case Some(fetched) =>
        var data := JoinCourseNames(fetched, courseStore.courses);
        var paid := TotalPaidFee(data);
        var fee := CourseFeeTotal(data, courseStore.courses);
        students, studentCount, totalPaidFee, totalFee, loading := data, |data|, paid, fee, false;
      case None =>
        loading := false;
    }

    /**
     * `addStudent`: the created record, joined to its course name, is
     * appended; the count follows, the two totals are left as they were.
     */
    method AddStudent(response: Option<Student>, courseStore: CourseStore)
      requires Valid()
      modifies this
      ensures Valid() && !loading
      ensures totalPaidFee == old(totalPaidFee) && totalFee == old(totalFee)
      ensures response.Some? ==> students == old(students) + [WithCourseName(response.value, courseStore.courses)]
      ensures response.None? ==> students == old(students)
    {
      loading := true;
      match response
      case Some(created) =>
        var updated := students + [WithCourseName(created, courseStore.courses)];
        students, studentCount, loading := updated, |updated|, false;
      case None =>
        loading := false;
    }

    /**
     * `updateStudent`: the records whose id equals the RETURNED record's id
     * (not the requested `id`) become the returned record joined to its
     * course name; totals are left as they were.
     */
    method UpdateStudent(id: int, response: Option<Student>, courseStore: CourseStore)
      requires Valid()
      modifies this
      ensures Valid() && !loading
      ensures totalPaidFee == old(totalPaidFee) && totalFee == old(totalFee)
      ensures response.Some? ==>
                students == ReplaceStudent(old(students), WithCourseName(response.value, courseStore.courses))
      ensures response.None? ==> students == old(students)
    {
      loading := true;
      match response
      case Some(returned) =>
        students := ReplaceStudent(students, WithCourseName(returned, courseStore.courses));
        loading := false;
      case None =>
        loading := false;
    }

    /**
     * `deleteStudent`: when the server accepted the deletion, the students
     * with that id are removed and the count and paid total recomputed; the
     * system total is left as it was.
     */
    method DeleteStudent(id: int, ok: bool)
      requires Valid()
      modifies this
      ensures Valid() && !loading
      ensures totalFee == old(totalFee)
      ensures ok ==> students == WithoutStudent(old(students), id) && totalPaidFee == TotalPaidFee(students)
      ensures !ok ==> students == old(students) && totalPaidFee == old(totalPaidFee)
    {
      loading := true;
      if ok {
        var updated := WithoutStudent(students, id);
        students, studentCount, totalPaidFee, loading := updated, |updated|, TotalPaidFee(updated), false;
      } else {
        loading := false;
      }
    }
  }
}
