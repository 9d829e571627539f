/**
 * The course aggregate cache: the fetched course list, its count and the
 * flat sum of the course fees, with the list edits that follow a successful
 * add, update or delete call.
 */
module Courses {
  import opened Wrappers
  import opened Seqs
  import opened Entities

  /** `courses.find(c => c.courseId === id)`: the first course with that id. */
  function FindCourse(courses: seq<Course>, id: int): (r: Option<Course>)
    ensures r.None? <==> forall k :: 0 <= k < |courses| ==> courses[k].courseId != id
    ensures r.Some? ==> exists k :: 0 <= k < |courses| && courses[k] == r.value && r.value.courseId == id
                                    && forall j :: 0 <= j < k ==> courses[j].courseId != id
  {
    if courses == [] then None
    else if courses[0].courseId == id then Some(courses[0])
    else
      var r := FindCourse(courses[1..], id);
      assert r.Some? ==> exists k :: 1 <= k < |courses| && courses[k] == r.value && r.value.courseId == id
                                      && forall j :: 0 <= j < k ==> courses[j].courseId != id by {
        if r.Some? {
          var k :| 0 <= k < |courses[1..]| && courses[1..][k] == r.value && r.value.courseId == id
                   && forall j :: 0 <= j < k ==> courses[1..][j].courseId != id;
          assert courses[k + 1] == r.value;
          assert forall j :: 0 <= j < k + 1 ==> courses[j].courseId != id by {
            forall j | 0 <= j < k + 1 ensures courses[j].courseId != id {
              if j > 0 { assert courses[j] == courses[1..][j - 1]; }
            }
          }
        }
      }
      r
  }

  /** `course ? course.courseName : "Unknown"` for the first cached course with id `id`. */
  function CourseNameOf(courses: seq<Course>, id: int): (name: string)
    ensures (forall k :: 0 <= k < |courses| ==> courses[k].courseId != id) ==> name == Unknown
    ensures FindCourse(courses, id).Some? ==> name == FindCourse(courses, id).value.courseName
  {
    match FindCourse(courses, id)
    case Some(c) => c.courseName
    case None => Unknown
  }

  /** The fee of the first cached course with id `id`; 0 when there is none. */
  function FeeOf(courses: seq<Course>, id: int): (fee: nat)
    ensures (forall k :: 0 <= k < |courses| ==> courses[k].courseId != id) ==> fee == 0
    ensures FindCourse(courses, id).Some? ==> fee == FindCourse(courses, id).value.feeAmount
  {
    match FindCourse(courses, id)
    case Some(c) => c.feeAmount
    case None => 0
  }

  function FeeAmountOf(c: Course): nat {
    c.feeAmount
  }

  /** `courses.reduce((sum, c) => sum + (c.feeAmount || 0), 0)`. */
  function TotalCourseFee(courses: seq<Course>): nat {
    Sum(courses, FeeAmountOf)
  }

  function HasCourseId(id: int): Course -> bool {
    (c: Course) => c.courseId == id
  }

  function LacksCourseId(id: int): Course -> bool {
    (c: Course) => c.courseId != id
  }

  /** Adding a course adds its fee to the flat total. */
  lemma TotalCourseFeeAppend(courses: seq<Course>, c: Course)
    ensures TotalCourseFee(courses + [c]) == TotalCourseFee(courses) + c.feeAmount
  {
    SumAppend(courses, [c], FeeAmountOf);
  }

  /** The flat total does not depend on the order of the list. */
  lemma TotalCourseFeeOrderFree(a: seq<Course>, b: seq<Course>)
    requires multiset(a) == multiset(b)
    ensures TotalCourseFee(a) == TotalCourseFee(b)
  {
    SumPermutation(a, b, FeeAmountOf);
  }

  /**
   * `courses.filter(c => c.courseId !== id)`: removes all and only the
   * courses with that id, keeps the rest in order, and lowers the flat total
   * by exactly the fees of the removed courses.
   */
  function WithoutCourse(courses: seq<Course>, id: int): (r: seq<Course>)
    ensures forall c :: c in r <==> c in courses && c.courseId != id
    ensures forall c :: multiset(r)[c] == if c.courseId != id then multiset(courses)[c] else 0
    ensures IsSubsequence(r, courses)
    ensures TotalCourseFee(r) + TotalCourseFee(Filter(courses, HasCourseId(id))) == TotalCourseFee(courses)
    ensures (forall k :: 0 <= k < |courses| ==> courses[k].courseId != id) ==> r == courses
  {
    FilterIsSubsequence(courses, LacksCourseId(id));
    FilterMultiset(courses, LacksCourseId(id));
    FilterMembers(courses, LacksCourseId(id));
    SumFilterSplit(courses, LacksCourseId(id), HasCourseId(id), FeeAmountOf);
    FilterKeepsAllWhen(courses, LacksCourseId(id));
    Filter(courses, LacksCourseId(id))
  }

  /**
   * `courses.map(c => c.courseId === updated.courseId ? updated : c)`: the
   * entries with the returned course's id become that course; the length and
   * every other entry stay.
   */
  function ReplaceCourse(courses: seq<Course>, updated: Course): (r: seq<Course>)
    ensures |r| == |courses|
    ensures forall k :: 0 <= k < |r| ==> r[k] == if courses[k].courseId == updated.courseId then updated else courses[k]
  {
    ReplaceWhere(courses, HasCourseId(updated.courseId), updated)
  }

  class CourseStore {
    var courses: seq<Course>
    var coursesCount: nat
    var totalFee: nat
    var loading: bool

    /** `coursesCount` always equals the length of the cached list. */
    ghost predicate Valid()
      reads this
    {
      coursesCount == |courses|
    }

    constructor ()
      ensures Valid() && courses == [] && totalFee == 0 && !loading
    {
      courses := [];
      coursesCount := 0;
      totalFee := 0;
      loading := false;
    }

    /**
     * `fetchCourses`: on success the fetched list replaces the cache and the
     * count and flat total are recomputed; on failure only `loading` is
     * cleared. Either way `loading` ends false.
     */
    method FetchCourses(response: Option<seq<Course>>)
      requires Valid()
      modifies this
      ensures Valid() && !loading
      ensures response.Some? ==> courses == response.value && totalFee == TotalCourseFee(response.value)
      ensures response.None? ==> courses == old(courses) && totalFee == old(totalFee)
    {
      loading := true;
      match response
      case Some(fetched) =>
        var total := TotalCourseFee(fetched);
        courses, coursesCount, totalFee, loading := fetched, |fetched|, total, false;
      case None =>
        loading := false;
    }

    /**
     * `addCourse`: the created course is appended and the count and total are
     * recomputed from the new list. A failed call is swallowed and changes
     * nothing; `loading` is never touched.
     */
    method AddCourse(response: Option<Course>)
      requires Valid()
      modifies this
      ensures Valid() && loading == old(loading)
      ensures response.Some? ==> courses == old(courses) + [response.value]
                                 && totalFee == TotalCourseFee(courses) == old(TotalCourseFee(courses)) + response.value.feeAmount
      ensures response.None? ==> courses == old(courses) && totalFee == old(totalFee)
    {
      match response
      case Some(created) =>
        var updated := courses + [created];
        TotalCourseFeeAppend(courses, created);
        courses, coursesCount, totalFee := updated, |updated|, TotalCourseFee(updated);
      case None =>
    }

    /**
     * `updateCourse`: the entries with the returned course's id are replaced;
     * the count and the flat total are NOT recomputed. The only course
     * operation that rethrows: `thrown` reports the failure to the caller,
     * and then nothing changes.
     */
    method UpdateCourse(id: int, response: Option<Course>) returns (thrown: bool)
      requires Valid()
      modifies this
      ensures Valid() && loading == old(loading)
      ensures thrown == response.None?
      ensures totalFee == old(totalFee) && coursesCount == old(coursesCount)
      ensures courses == if response.Some? then ReplaceCourse(old(courses), response.value) else old(courses)
    {
      match response
      case Some(updated) =>
        courses := ReplaceCourse(courses, updated);
        thrown := false;
      case None =>
        thrown := true;
    }

    /**
     * `deleteCourse`: when the server accepted the deletion, the courses with
     * that id are removed and the count and total recomputed; a failure is
     * swallowed and changes nothing.
     */
    method DeleteCourse(id: int, ok: bool)
      requires Valid()
      modifies this
      ensures Valid() && loading == old(loading)
      ensures ok ==> courses == WithoutCourse(old(courses), id) && totalFee == TotalCourseFee(courses)
      ensures !ok ==> courses == old(courses) && totalFee == old(totalFee)
    {
      if ok {
        var updated := WithoutCourse(courses, id);
        courses, coursesCount, totalFee := updated, |updated|, TotalCourseFee(updated);
      }
    }
  }
}
