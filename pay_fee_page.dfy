/**
 * The pay-fee search page. `handleSearch` ignores a blank term; when the
 * list it rendered with is empty it first asks the store to fetch the
 * students, and then filters. The handler filters the list captured at
 * render time, so the students that fetch loads are not searched until the
 * next render: `HandleSearch` models that, `HandleSearchRefreshed` the
 * search over the list the fetch leaves in the store.
 */
module PayFeePage {
  import opened Seqs
  import opened Text
  import opened Entities
  import opened Search

  /** The list the corrected handler searches: the refreshed store list when the snapshot was empty. */
  function SearchedList(snapshot: seq<Student>, refreshed: seq<Student>): (r: seq<Student>)
    ensures snapshot != [] ==> r == snapshot
    ensures snapshot == [] ==> r == refreshed
  {
    if |snapshot| == 0 then refreshed else snapshot
  }

  class PayFeeSearch {
    var searchTerm: string
    var filtered: seq<Student>
    /** How many times the handler has asked the store to fetch the students. */
    ghost var fetchRequests: nat

    /** `useState("")` and `useState([])`. */
    constructor ()
      ensures searchTerm == "" && filtered == [] && fetchRequests == 0
    {
      searchTerm := "";
      filtered := [];
      fetchRequests := 0;
    }

    /** The input's `onChange`. */
    method SetSearchTerm(term: string)
      modifies this
      ensures searchTerm == term && filtered == old(filtered) && fetchRequests == old(fetchRequests)
    {
      searchTerm := term;
    }

    /**
     * `handleSearch` as written, where `students` is the list of the render
     * that created the handler.
     */
    method HandleSearch(students: seq<Student>)
      modifies this
      ensures searchTerm == old(searchTerm)
      ensures IsBlank(searchTerm) ==> filtered == old(filtered) && fetchRequests == old(fetchRequests)
      ensures !IsBlank(searchTerm) ==>
                fetchRequests == old(fetchRequests) + (if |students| == 0 then 1 else 0)
                && filtered == SearchResults(students, searchTerm)
    {
      if IsBlank(searchTerm) {
        return;
      }
      if |students| == 0 {
        fetchRequests := fetchRequests + 1;
      }
      var results := SearchResults(students, searchTerm);
      filtered := results;
    }

    /**
     * `handleSearch` searching what the fetch loaded: `refreshed` is the
     * store's list once `fetchStudents` has finished.
     */
    method HandleSearchRefreshed(students: seq<Student>, refreshed: seq<Student>)
      modifies this
      ensures searchTerm == old(searchTerm)
      ensures IsBlank(searchTerm) ==> filtered == old(filtered) && fetchRequests == old(fetchRequests)
      ensures !IsBlank(searchTerm) ==>
                fetchRequests == old(fetchRequests) + (if |students| == 0 then 1 else 0)
                && filtered == SearchResults(SearchedList(students, refreshed), searchTerm)
    {
      if IsBlank(searchTerm) {
        return;
      }
      var searched := students;
      if |students| == 0 {
        fetchRequests := fetchRequests + 1;
        searched := refreshed;
      }
      var results := SearchResults(searched, searchTerm);
      filtered := results;
    }
  }

  /**
   * On the first search of a page rendered before the store was loaded, the
   * handler as written finds nobody even though the fetch it waited for
   * loaded a matching student; the refreshed search finds that student.
   */
  lemma StaleSnapshotFindsNobody(ann: Student)
    requires ann.fullName == "Ann Lee" && ann.rollNo == "R-17"
    ensures SearchResults([], "ann") == []
    ensures SearchResults(SearchedList([], [ann]), "ann") == [ann]
  {
    assert Lower("ann") == "ann";
    assert Lower("Ann Lee")[..3] == "ann";
    assert StartsWith(Lower(ann.fullName), Lower("ann"));
    assert Matches(ann, "ann");
    assert [ann][1..] == [];
  }

  /**
   * With the refreshed search, when the page rendered with no students every
   * matching student the fetch loaded is shown, and nothing else.
   */
  lemma RefreshedSearchFindsFetched(refreshed: seq<Student>, term: string, s: Student)
    ensures s in SearchResults(SearchedList([], refreshed), term) <==> s in refreshed && Matches(s, term)
  {
    SearchResultsMembers(refreshed, term, s);
  }
}
