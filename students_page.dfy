/**
 * The students page: a query box over the store's student list. `filtered`
 * is what the table shows; it always lists entries of `students`, in order.
 */
module StudentsPage {
  import opened Seqs
  import opened Text
  import opened Entities
  import opened Search

  class StudentPage {
    /** The store's list as this page last rendered it. */
    var students: seq<Student>
    var query: string
    var filtered: seq<Student>

    ghost predicate Valid()
      reads this
    {
      IsSubsequence(filtered, students)
    }

    /** `useState("")` and `useState(students)`. */
    constructor (students: seq<Student>)
      ensures Valid()
      ensures this.students == students && query == "" && filtered == students
    {
      this.students := students;
      query := "";
      filtered := students;
      SubsequenceReflexive(students);
    }

    /** The input's `onChange`: only the query changes. */
    method SetQuery(q: string)
      requires Valid()
      modifies this
      ensures Valid()
      ensures query == q && students == old(students) && filtered == old(filtered)
    {
      query := q;
    }

    /** The sync effect: whenever the store's list changes, the table shows all of it. */
    method StudentsChanged(newStudents: seq<Student>)
      modifies this
      ensures Valid()
      ensures students == newStudents && filtered == newStudents && query == old(query)
    {
      students := newStudents;
      filtered := newStudents;
      SubsequenceReflexive(newStudents);
    }

    /**
     * `handleSearch`: a query that trims to nothing shows every student;
     * anything else shows the matches of the untrimmed query.
     */
    method HandleSearch()
      requires Valid()
      modifies this
      ensures Valid()
      ensures students == old(students) && query == old(query)
      ensures IsBlank(query) ==> filtered == students
      ensures !IsBlank(query) ==> filtered == SearchResults(students, query)
    {
      if IsBlank(query) {
        filtered := students;
        SubsequenceReflexive(students);
        return;
      }
      var results := SearchResults(students, query);
      filtered := results;
    }

    /** `handleShowAll`: clear the query and show every student. */
    method HandleShowAll()
      modifies this
      ensures Valid()
      ensures query == "" && filtered == students && students == old(students)
    {
      query := "";
      filtered := students;
      SubsequenceReflexive(students);
    }
  }
}
