/**
 * The student search both pages run: a student matches a query when the
 * lower-cased query occurs in the lower-cased full name or roll number.
 */
module Search {
  import opened Seqs
  import opened Text
  import opened Entities

  /** `s.fullName.toLowerCase().includes(q) || s.rollNo.toLowerCase().includes(q)` with `q` lower-cased. */
  predicate Matches(s: Student, query: string) {
    Contains(Lower(s.fullName), Lower(query)) || Contains(Lower(s.rollNo), Lower(query))
  }

  function MatchesQuery(query: string): Student -> bool {
    (s: Student) => Matches(s, query)
  }

  /** `students.filter(...)`: the matching students, in list order. */
  function SearchResults(students: seq<Student>, query: string): (r: seq<Student>)
    ensures IsSubsequence(r, students)
    ensures forall i :: 0 <= i < |r| ==> Matches(r[i], query)
    ensures forall i :: 0 <= i < |students| && Matches(students[i], query) ==> students[i] in r
    ensures forall s :: multiset(r)[s] == if Matches(s, query) then multiset(students)[s] else 0
  {
    FilterIsSubsequence(students, MatchesQuery(query));
    FilterMultiset(students, MatchesQuery(query));
    FilterMembers(students, MatchesQuery(query));
    Filter(students, MatchesQuery(query))
  }

  /** A student is in the results exactly when it is in the list and matches. */
  lemma SearchResultsMembers(students: seq<Student>, query: string, s: Student)
    ensures s in SearchResults(students, query) <==> s in students && Matches(s, query)
  {
    var r := SearchResults(students, query);
    if s in r {
      var i :| 0 <= i < |r| && r[i] == s;
      assert Matches(r[i], query);
    }
    if s in students && Matches(s, query) {
      var i :| 0 <= i < |students| && students[i] == s;
      assert students[i] in r;
    }
  }

  /** The query is case-insensitive: queries with the same lower-case form give the same results. */
  lemma SearchIgnoresCase(students: seq<Student>, q1: string, q2: string)
    requires Lower(q1) == Lower(q2)
    ensures SearchResults(students, q1) == SearchResults(students, q2)
  {
    FilterCongruent(students, MatchesQuery(q1), MatchesQuery(q2));
  }

  /** Searching the results again with the same query changes nothing. */
  lemma SearchIdempotent(students: seq<Student>, query: string)
    ensures SearchResults(SearchResults(students, query), query) == SearchResults(students, query)
  {
    FilterIdempotent(students, MatchesQuery(query));
  }

  /** An empty query matches every student. */
  lemma EmptyQueryKeepsAll(students: seq<Student>)
    ensures SearchResults(students, "") == students
  {
    forall i | 0 <= i < |students| ensures MatchesQuery("")(students[i]) {
      assert StartsWith(Lower(students[i].fullName), Lower(""));
    }
    FilterKeepsAll(students, MatchesQuery(""));
  }

  /**
   * Extending the query can only narrow the results: those of the longer
   * query are a subsequence of those of the shorter one.
   */
  lemma LongerQueryNarrows(students: seq<Student>, short: string, long: string)
    requires Contains(Lower(long), Lower(short))
    ensures IsSubsequence(SearchResults(students, long), SearchResults(students, short))
  {
    forall s: Student | MatchesQuery(long)(s) ensures MatchesQuery(short)(s) {
      if Contains(Lower(s.fullName), Lower(long)) {
        ContainsTransitive(Lower(s.fullName), Lower(long), Lower(short));
      } else {
        ContainsTransitive(Lower(s.rollNo), Lower(long), Lower(short));
      }
    }
    FilterNarrow(students, MatchesQuery(short), MatchesQuery(long));
    FilterIsSubsequence(Filter(students, MatchesQuery(short)), MatchesQuery(long));
  }
}
