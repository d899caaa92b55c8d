/** The admin routes built from parameters. */
module AppRoutes {

  import opened Wrappers
  import opened Text

  const AdminQuizzes: string := "/admin/quizzes"
  const AdminQuizzesEdit: string := "/admin/quizzes/edit"
  const EditIdPrefix: string := AdminQuizzesEdit + "?id="

  /** `bool.ToString()`. */
  function BoolToString(b: bool): string {
    if b then "True" else "False"
  }

  /** The quiz list, filtered on activity when a filter is given (`?active=true|false`). */
  function AdminQuizzesWithFilter(activeFilter: Option<bool>): (route: string)
    ensures StartsWith(route, AdminQuizzes)
    ensures activeFilter.None? ==> route == AdminQuizzes
    ensures activeFilter == Some(true) ==> route == "/admin/quizzes?active=true"
    ensures activeFilter == Some(false) ==> route == "/admin/quizzes?active=false"
  {
    if activeFilter.Some? then AdminQuizzes + "?active=" + ToLower(BoolToString(activeFilter.value))
    else AdminQuizzes
  }

  /** The edit page of one quiz; the id after "?id=" is the decimal quiz id and reads back. */
  function AdminQuizzesEditWithId(quizId: int): (route: string)
    ensures StartsWith(route, EditIdPrefix)
    ensures ParseInt(route[|EditIdPrefix|..]) == Some(quizId)
    ensures quizId < 0 <==> route[|EditIdPrefix|] == '-'
  {
    var route := EditIdPrefix + IntToDecimal(quizId);
    IntToDecimalRoundTrip(quizId);
    assert route[|EditIdPrefix|..] == IntToDecimal(quizId);
    route
  }

  /** Distinct quizzes get distinct edit routes. */
  lemma EditRoutesDistinct(a: int, b: int)
    requires a != b
    ensures AdminQuizzesEditWithId(a) != AdminQuizzesEditWithId(b)
  {
  }
}
