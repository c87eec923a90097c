/**
 * The rules of the employee-records page
 * (client/src/pages/hris/employee-records.tsx): the department filter
 * followed by the search, and the department list of the filter.
 */
module EmployeeRecordsPage {
  import opened Wrappers
  import opened Seqs
  import opened Schema

  /** The department select: "all" or one department. */
  predicate DepartmentSelected(selected: string, e: Employee) {
    selected == "all" || e.department == selected
  }

  /** The search: an empty query, or the first name, last name, employee number or position contains it. */
  predicate EmployeeMatches(query: string, e: Employee) {
    || query == ""
    || Mentions(e.firstName, query) || Mentions(e.lastName, query)
    || Mentions(e.employeeId, query) || Mentions(e.position, query)
  }

  /** `filteredEmployees`: [] before the fetch, then the department filter, then the search. */
  function FilterEmployees(employees: Option<seq<Employee>>, selected: string, query: string): (r: seq<Employee>)
    ensures forall e :: e in r <==> e in employees.GetOr([]) && DepartmentSelected(selected, e) && EmployeeMatches(query, e)
    ensures IsSubseq(r, employees.GetOr([]))
  {
    var s := employees.GetOr([]);
    FilterTwiceIsSubseq(s, e => DepartmentSelected(selected, e), e => EmployeeMatches(query, e));
    Filter(Filter(s, e => DepartmentSelected(selected, e)), e => EmployeeMatches(query, e))
  }

  /** "All" and an empty search show every fetched employee, in order. */
  lemma AllDepartmentsAndNoQueryKeepEverything(employees: Option<seq<Employee>>)
    ensures FilterEmployees(employees, "all", "") == employees.GetOr([])
  {
    FilterTwiceAll(employees.GetOr([]), e => DepartmentSelected("all", e), e => EmployeeMatches("", e));
  }

  function DepartmentOf(e: Employee): string { e.department }

  /**
   * `departments`: each department of the fetched employees once, in the
   * order the employees list them; [] before the fetch.
   */
  function Departments(employees: Option<seq<Employee>>): (r: seq<string>)
    ensures NoDuplicates(r)
    ensures forall d :: d in r <==> exists e :: e in employees.GetOr([]) && e.department == d
    ensures IsSubseq(r, Map(employees.GetOr([]), DepartmentOf))
    ensures |r| <= |employees.GetOr([])|
  {
    var s := employees.GetOr([]);
    var names := Map(s, DepartmentOf);
    assert forall d :: d in names <==> exists e :: e in s && e.department == d by {
      forall d ensures d in names <==> exists e :: e in s && e.department == d {
        if d in names {
          var i :| 0 <= i < |names| && names[i] == d;
          assert s[i] in s;
        }
        if exists e :: e in s && e.department == d {
          var e :| e in s && e.department == d;
          var i :| 0 <= i < |s| && s[i] == e;
          assert names[i] == d;
        }
      }
    }
    DistinctIsSubseq(names);
    Distinct(names)
  }

  /** Without fetched employees both lists are empty. */
  lemma NoEmployeesShowNothing(selected: string, query: string)
    ensures FilterEmployees(None, selected, query) == [] && Departments(None) == []
    ensures FilterEmployees(Some([]), selected, query) == [] && Departments(Some([])) == []
  {
  }

  /** Picking a listed department never gives an empty list while the search is empty. */
  lemma ListedDepartmentIsInhabited(employees: Option<seq<Employee>>, d: string)
    requires d in Departments(employees)
    ensures FilterEmployees(employees, d, "") != []
  {
    var e :| e in employees.GetOr([]) && e.department == d;
    assert e in FilterEmployees(employees, d, "");
  }
}
