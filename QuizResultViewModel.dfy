/** A completed attempt as displayed: elapsed time as m:ss, a letter grade and its colour. */
module QuizResultViews {

  import opened Text

  datatype QuizResultViewModel = QuizResultViewModel(
    resultId: int, quizId: int, quizName: string, username: string,
    score: int, totalQuestions: int, percentage: real,
    completedAt: int, timeSpent: int, userAnswers: string)
  {
    function TimeSpentDisplay(): string { FormatTime(timeSpent) }
    function Grade(): string { GetGrade(percentage) }
    function GradeColor(): string { GetGradeColor(percentage) }
  }

  /**
   * `{seconds / 60}:{seconds % 60:D2}` with C#'s truncating division. For a non-negative
   * duration the display is "m:ss": a minutes numeral, a colon and exactly two second
   * digits, and reading both back gives the duration.
   */
  function FormatTime(seconds: int): (r: string)
    ensures |r| >= 4
    ensures seconds >= 0 ==>
              && r[|r| - 3] == ':'
              && AllDigits(r[..|r| - 3]) && AllDigits(r[|r| - 2..])
              && r[..|r| - 3] == NatToDecimal(seconds / 60)
              && ParseDecimal(r[..|r| - 3]) == seconds / 60
              && ParseDecimal(r[|r| - 2..]) == seconds % 60
              && 60 * ParseDecimal(r[..|r| - 3]) + ParseDecimal(r[|r| - 2..]) == seconds
  {
    var r := IntToDecimal(TruncDiv(seconds, 60)) + ":" + FormatD2(TruncRem(seconds, 60));
    if seconds < 0 then r
    else
      var minutes := NatToDecimal(seconds / 60);
      var secs := FormatD2(seconds % 60);
      FormatD2TwoDigits(seconds % 60);
      ParseNatToDecimal(seconds / 60);
      assert r == minutes + ":" + secs;
      assert r[..|r| - 3] == minutes;
      assert r[|r| - 2..] == secs;
      r
  }

  /** A negative duration keeps C#'s signs: -61 seconds shows as "-1:-01". */
  lemma FormatTimeNegative()
    ensures FormatTime(-61) == "-1:-01"
    ensures FormatTime(-30) == "0:-30"
  {
    assert NatToDecimal(30) == NatToDecimal(3) + "0";
  }

  function GetGrade(percentage: real): string {
    if percentage >= 90.0 then "A+"
    else if percentage >= 80.0 then "A"
    else if percentage >= 70.0 then "B"
    else if percentage >= 60.0 then "C"
    else if percentage >= 50.0 then "D"
    else "F"
  }

  function GetGradeColor(percentage: real): string {
    if percentage >= 80.0 then "text-success"
    else if percentage >= 60.0 then "text-warning"
    else "text-danger"
  }

  /** The position of a grade on the scale, F lowest. */
  function GradeRank(grade: string): nat {
    if grade == "A+" then 5
    else if grade == "A" then 4
    else if grade == "B" then 3
    else if grade == "C" then 2
    else if grade == "D" then 1
    else 0
  }

  /** Each grade is the half-open band of percentages its threshold and the next one bound. */
  lemma GradeBands(p: real)
    ensures GetGrade(p) == "A+" <==> p >= 90.0
    ensures GetGrade(p) == "A" <==> 80.0 <= p < 90.0
    ensures GetGrade(p) == "B" <==> 70.0 <= p < 80.0
    ensures GetGrade(p) == "C" <==> 60.0 <= p < 70.0
    ensures GetGrade(p) == "D" <==> 50.0 <= p < 60.0
    ensures GetGrade(p) == "F" <==> p < 50.0
  {
  }

  /** A higher percentage never gets a worse grade. */
  lemma GradeMonotone(p: real, q: real)
    requires p <= q
    ensures GradeRank(GetGrade(p)) <= GradeRank(GetGrade(q))
  {
  }

  /** The colour follows the grade: A+ and A green, B and C amber, D and F red. */
  lemma GradeColorAgrees(p: real)
    ensures GetGradeColor(p) == "text-success" <==> GetGrade(p) in {"A+", "A"}
    ensures GetGradeColor(p) == "text-warning" <==> GetGrade(p) in {"B", "C"}
    ensures GetGradeColor(p) == "text-danger" <==> GetGrade(p) in {"D", "F"}
  {
  }
}
