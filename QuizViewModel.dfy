/** A quiz as displayed: time limit text, difficulty badge and category icon. */
module QuizViews {

  import opened Wrappers
  import opened Text

  datatype QuizViewModel = QuizViewModel(
    quizId: int, quizName: string, description: string, totalQuestions: int,
    timeLimit: int, category: string, difficulty: string, isActive: bool, createdDate: int)
  {
    function TimeLimitDisplay(): string { FormatTimeLimit(timeLimit) }
    function DifficultyBadgeClass(): string { BadgeClassFor(difficulty) }
    function CategoryIcon(): string { IconFor(category) }
  }

  /** `$"{TimeLimit} min"`: the decimal time limit, which reads back, then " min". */
  function FormatTimeLimit(timeLimit: int): (r: string)
    ensures |r| > 4 && r[|r| - 4..] == " min"
    ensures ParseInt(r[..|r| - 4]) == Some(timeLimit)
  {
    var r := IntToDecimal(timeLimit) + " min";
    IntToDecimalRoundTrip(timeLimit);
    assert r[..|r| - 4] == IntToDecimal(timeLimit);
    r
  }

  const BadgeClasses: set<string> := {"badge-success", "badge-warning", "badge-danger", "badge-secondary"}

  function BadgeClassFor(difficulty: string): (r: string)
    ensures r in BadgeClasses
    ensures r == "badge-success" <==> ToLower(difficulty) == "easy"
    ensures r == "badge-warning" <==> ToLower(difficulty) == "medium"
    ensures r == "badge-danger" <==> ToLower(difficulty) == "hard"
  {
    var d := ToLower(difficulty);
    if d == "easy" then "badge-success"
    else if d == "medium" then "badge-warning"
    else if d == "hard" then "badge-danger"
    else "badge-secondary"
  }

  const DefaultIcon: string := "fas fa-puzzle-piece"

  function IconFor(category: string): (r: string)
    ensures r == "fas fa-flask" <==> ToLower(category) == "science"
    ensures r == "fas fa-landmark" <==> ToLower(category) == "history"
    ensures r == "fas fa-book" <==> ToLower(category) == "literature"
    ensures r == "fas fa-laptop-code" <==> ToLower(category) == "technology"
    ensures r == "fas fa-football-ball" <==> ToLower(category) == "sports"
    ensures r == "fas fa-question-circle" <==> ToLower(category) == "general"
    ensures r == DefaultIcon <==>
              ToLower(category) !in {"science", "history", "literature", "technology", "sports", "general"}
  {
    var c := ToLower(category);
    if c == "science" then "fas fa-flask"
    else if c == "history" then "fas fa-landmark"
    else if c == "literature" then "fas fa-book"
    else if c == "technology" then "fas fa-laptop-code"
    else if c == "sports" then "fas fa-football-ball"
    else if c == "general" then "fas fa-question-circle"
    else DefaultIcon
  }

  /** Both lookups see only the lower-cased text: "EASY", "Easy" and "easy" get the same badge. */
  lemma LookupsIgnoreCase(a: string, b: string)
    requires ToLower(a) == ToLower(b)
    ensures BadgeClassFor(a) == BadgeClassFor(b) && IconFor(a) == IconFor(b)
  {
  }

  /** Lower-casing a string of upper-case letters is what the switch arms compare with. */
  lemma CaseVariantsMatch()
    ensures BadgeClassFor("EASY") == "badge-success" && BadgeClassFor("Hard") == "badge-danger"
    ensures IconFor("SCIENCE") == "fas fa-flask" && IconFor("Music") == DefaultIcon
  {
  }
}
