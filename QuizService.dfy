/**
 * The quiz catalogue: listings, lookups, statistics and the admin operations
 * over the Quizzes, Questions and QuizResults tables. The tables are sequences
 * of rows in insertion order; identity columns come from per-table counters.
 */
module QuizCatalog {

  import opened Wrappers
  import opened Collections
  import opened QuizRecords
  import opened QuizViews
  import opened QuestionViews
  import opened QuizResultViews
  import ErrorHandling

  // ---------------------------------------------------------------- mapping

  /** MapToQuizViewModel: every column of the row except IsDeleted. */
  function MapToQuizViewModel(quiz: QuizRow): (v: QuizViewModel)
    ensures v.quizId == quiz.quizId && v.quizName == quiz.quizName && v.description == quiz.description
    ensures v.totalQuestions == quiz.totalQuestions && v.timeLimit == quiz.timeLimit
    ensures v.category == quiz.category && v.difficulty == quiz.difficulty
    ensures v.isActive == quiz.isActive && v.createdDate == quiz.createdDate
  {
    QuizViewModel(quiz.quizId, quiz.quizName, quiz.description, quiz.totalQuestions, quiz.timeLimit,
                  quiz.category, quiz.difficulty, quiz.isActive, quiz.createdDate)
  }

  /** Two rows show the same quiz exactly when they differ at most in IsDeleted. */
  lemma QuizViewLosesOnlyIsDeleted(a: QuizRow, b: QuizRow)
    ensures MapToQuizViewModel(a) == MapToQuizViewModel(b) <==> a.(isDeleted := b.isDeleted) == b
  {
  }

  /** A question as the catalogue hands it out: the filtered option list beside the four slots. */
  datatype QuestionView = QuestionView(
    questionId: int, quizId: int, questionText: string, questionType: string, options: seq<string>,
    correctAnswer: string, explanation: string, questionOrder: int, isActive: bool,
    optionA: string, optionB: string, optionC: string, optionD: string)
  {
    /** The four-slot view of the same question. */
    function Slots(): QuestionViewModel {
      QuestionViewModel(questionId, quizId, questionText, optionA, optionB, optionC, optionD,
                        correctAnswer, explanation, questionOrder, isActive)
    }
  }

  const MultipleChoice: string := "MultipleChoice"

  predicate NonEmpty(s: string) { s != "" }

  /** The options of a question row that are not empty, in slot order A..D. */
  function PresentOptions(slots: seq<string>): (r: seq<string>)
    requires |slots| == 4
    ensures |r| <= 4
    ensures forall i :: 0 <= i < |r| ==> r[i] != ""
    ensures forall o :: o in r <==> o != "" && o in slots
  {
    Where(slots, NonEmpty)
  }

  function MapToQuestionViewModel(question: QuestionRow): (v: QuestionView)
    ensures v.options == Where(v.Slots().Options(), NonEmpty)
    ensures v.Slots().Options() == [question.optionA, question.optionB, question.optionC, question.optionD]
    ensures v.questionId == question.questionId && v.questionOrder == question.questionId
    ensures v.correctAnswer == question.correctOption
  {
    QuestionView(question.questionId, question.quizId, question.questionText, MultipleChoice,
                 PresentOptions([question.optionA, question.optionB, question.optionC, question.optionD]),
                 question.correctOption, "", question.questionId, true,
                 question.optionA, question.optionB, question.optionC, question.optionD)
  }

  /** Two rows show the same question exactly when they differ at most in IsDeleted. */
  lemma QuestionViewLosesOnlyIsDeleted(a: QuestionRow, b: QuestionRow)
    ensures MapToQuestionViewModel(a) == MapToQuestionViewModel(b) <==> a.(isDeleted := b.isDeleted) == b
  {
    if MapToQuestionViewModel(a) == MapToQuestionViewModel(b) {
      assert MapToQuestionViewModel(a).Slots() == MapToQuestionViewModel(b).Slots();
    }
  }

  const UnknownQuiz: string := "Unknown Quiz"

  /** The name of the quiz a result refers to, found by key whether or not it is soft-deleted. */
  function QuizNameOf(quizzes: seq<QuizRow>, quizId: int): (name: Option<string>)
    ensures name.None? <==> forall i :: 0 <= i < |quizzes| ==> quizzes[i].quizId != quizId
    ensures name.Some? ==> exists i :: 0 <= i < |quizzes| && quizzes[i].quizId == quizId
                                      && quizzes[i].quizName == name.value
  {
    match FindQuizIndex(quizzes, quizId)
    case None => None
    case Some(i) => Some(quizzes[i].quizName)
  }

  function MapToQuizResultViewModel(result: QuizResultRow, quizzes: seq<QuizRow>): (v: QuizResultViewModel)
    ensures v.quizName == QuizNameOf(quizzes, result.quizId).GetOr(UnknownQuiz)
  {
    QuizResultViewModel(result.resultId, result.quizId, QuizNameOf(quizzes, result.quizId).GetOr(UnknownQuiz),
                        result.username, result.score, result.totalQuestions, result.percentage,
                        result.completedAt, result.timeSpent, result.userAnswers)
  }

  /** The row SaveQuizResultAsync builds from a result, under the identity the table assigns. */
  function ResultRowFor(result: QuizResultViewModel, resultId: int): QuizResultRow {
    QuizResultRow(resultId, result.quizId, result.username, result.score, result.totalQuestions,
                  result.percentage, result.completedAt, result.timeSpent, result.userAnswers)
  }

  /** Displaying a stored result and saving the display back reproduces the row. */
  lemma ResultRowRoundTrip(row: QuizResultRow, quizzes: seq<QuizRow>)
    ensures ResultRowFor(MapToQuizResultViewModel(row, quizzes), row.resultId) == row
  {
  }

  /** Saving a result and displaying the row gives back the result, with the new id and the quiz's name. */
  lemma ResultDisplayRoundTrip(result: QuizResultViewModel, resultId: int, quizzes: seq<QuizRow>)
    ensures MapToQuizResultViewModel(ResultRowFor(result, resultId), quizzes)
              == result.(resultId := resultId, quizName := QuizNameOf(quizzes, result.quizId).GetOr(UnknownQuiz))
  {
  }

  // --------------------------------------------------------------- listings

  /** FindAsync(quizId): the position of the row with that key, soft-deleted rows included. */
  function FindQuizIndex(quizzes: seq<QuizRow>, quizId: int): (r: Option<nat>)
    ensures r.None? <==> forall i :: 0 <= i < |quizzes| ==> quizzes[i].quizId != quizId
    ensures r.Some? ==> r.value < |quizzes| && quizzes[r.value].quizId == quizId
                        && forall i :: 0 <= i < r.value ==> quizzes[i].quizId != quizId
  {
    if |quizzes| == 0 then None
    else if quizzes[0].quizId == quizId then Some(0)
    else match FindQuizIndex(quizzes[1..], quizId)
      case None => None
      case Some(i) => Some(i + 1)
  }

  /** OrderBy(q => q.QuizName) under a collation, given as the key it sorts by. */
  function ByName(sortKey: string -> string): (QuizRow, QuizRow) -> bool {
    (a: QuizRow, b: QuizRow) => LexLe(sortKey(a.quizName), sortKey(b.quizName))
  }

  predicate IsLive(quiz: QuizRow) { !quiz.isDeleted }

  predicate IsLiveAndActive(quiz: QuizRow) { quiz.isActive && !quiz.isDeleted }

  function MapQuizzes(rows: seq<QuizRow>): (r: seq<QuizViewModel>)
    ensures |r| == |rows|
    ensures forall i :: 0 <= i < |r| ==> r[i] == MapToQuizViewModel(rows[i])
    ensures forall q :: q in rows ==> MapToQuizViewModel(q) in r
  {
    var r := seq(|rows|, i requires 0 <= i < |rows| => MapToQuizViewModel(rows[i]));
    assert forall q :: q in rows ==> MapToQuizViewModel(q) in r by {
      forall q | q in rows ensures MapToQuizViewModel(q) in r {
        var k :| 0 <= k < |rows| && rows[k] == q;
        assert r[k] == MapToQuizViewModel(q);
      }
    }
    r
  }

  /** Showing two arrangements of the same rows gives two arrangements of the same views. */
  lemma MapQuizzesPermutation(a: seq<QuizRow>, b: seq<QuizRow>)
    requires multiset(a) == multiset(b)
    ensures multiset(MapQuizzes(a)) == multiset(MapQuizzes(b))
  {
    MapPreservesPermutation(a, b, MapQuizzes(a), MapQuizzes(b), MapToQuizViewModel);
  }

  /** The rows passing `keep`, sorted by name. */
  function SortedQuizRows(quizzes: seq<QuizRow>, keep: QuizRow -> bool, sortKey: string -> string): (rows: seq<QuizRow>)
    ensures |rows| == |Where(quizzes, keep)|
    ensures multiset(rows) == multiset(Where(quizzes, keep))
    ensures forall i, j :: 0 <= i < j < |rows| ==> LexLe(sortKey(rows[i].quizName), sortKey(rows[j].quizName))
    ensures forall q :: q in rows <==> q in quizzes && keep(q)
  {
    KeyOrderIsTotalPreorder(ByName(sortKey), (q: QuizRow) => sortKey(q.quizName));
    var rows := SortBy(Where(quizzes, keep), ByName(sortKey));
    assert SortedBy(rows, ByName(sortKey));
    rows
  }

  /** Every row of a rearrangement of the kept rows is a kept quiz. */
  lemma ShownAreKept(quizzes: seq<QuizRow>, keep: QuizRow -> bool, rows: seq<QuizRow>)
    requires forall q :: q in rows <==> q in quizzes && keep(q)
    ensures forall i :: 0 <= i < |rows| ==> rows[i] in quizzes && keep(rows[i])
  {
    forall i | 0 <= i < |rows|
      ensures rows[i] in quizzes && keep(rows[i])
    {
      assert rows[i] in rows;
    }
  }

  /** Each shown view is the view of some kept quiz: the row at the same index. */
  lemma ShownComeFromKept(quizzes: seq<QuizRow>, keep: QuizRow -> bool, rows: seq<QuizRow>)
    requires forall i :: 0 <= i < |rows| ==> rows[i] in quizzes && keep(rows[i])
    ensures forall i :: 0 <= i < |MapQuizzes(rows)| ==>
              exists q :: q in quizzes && keep(q) && MapQuizzes(rows)[i] == MapToQuizViewModel(q)
  {
    forall i | 0 <= i < |MapQuizzes(rows)|
      ensures exists q :: q in quizzes && keep(q) && MapQuizzes(rows)[i] == MapToQuizViewModel(q)
    {
      var q := rows[i];
      assert q in quizzes && keep(q) && MapQuizzes(rows)[i] == MapToQuizViewModel(q);
    }
    assert forall i :: 0 <= i < |MapQuizzes(rows)| ==>
              exists q :: q in quizzes && keep(q) && MapQuizzes(rows)[i] == MapToQuizViewModel(q);
  }

  /** The rows passing `keep`, sorted by name and shown. */
  function ListQuizzes(quizzes: seq<QuizRow>, keep: QuizRow -> bool, sortKey: string -> string): (r: seq<QuizViewModel>)
    ensures |r| == |Where(quizzes, keep)|
    ensures multiset(r) == multiset(MapQuizzes(Where(quizzes, keep)))
    ensures forall i, j :: 0 <= i < j < |r| ==> LexLe(sortKey(r[i].quizName), sortKey(r[j].quizName))
    ensures forall q :: q in quizzes && keep(q) ==> MapToQuizViewModel(q) in r
    ensures forall i :: 0 <= i < |r| ==> exists q :: q in quizzes && keep(q) && r[i] == MapToQuizViewModel(q)
  {
    var rows := SortedQuizRows(quizzes, keep, sortKey);
    var r := MapQuizzes(rows);
    ShownAreKept(quizzes, keep, rows);
    ShownComeFromKept(quizzes, keep, rows);
    MapQuizzesPermutation(rows, Where(quizzes, keep));
    r
  }

  /** GetAllQuizzesAsync: every quiz not soft-deleted, by name. */
  function GetAllQuizzes(quizzes: seq<QuizRow>, sortKey: string -> string): (r: seq<QuizViewModel>)
    ensures |r| == |Where(quizzes, IsLive)|
    ensures multiset(r) == multiset(MapQuizzes(Where(quizzes, IsLive)))
    ensures forall i, j :: 0 <= i < j < |r| ==> LexLe(sortKey(r[i].quizName), sortKey(r[j].quizName))
    ensures forall q :: q in quizzes && !q.isDeleted ==> MapToQuizViewModel(q) in r
    ensures forall i :: 0 <= i < |r| ==> exists q :: q in quizzes && !q.isDeleted && r[i] == MapToQuizViewModel(q)
  {
    ListQuizzes(quizzes, IsLive, sortKey)
  }

  /** GetActiveQuizzesAsync: every active quiz not soft-deleted, by name. */
  function GetActiveQuizzes(quizzes: seq<QuizRow>, sortKey: string -> string): (r: seq<QuizViewModel>)
    ensures |r| == |Where(quizzes, IsLiveAndActive)|
    ensures multiset(r) == multiset(MapQuizzes(Where(quizzes, IsLiveAndActive)))
    ensures forall i, j :: 0 <= i < j < |r| ==> LexLe(sortKey(r[i].quizName), sortKey(r[j].quizName))
    ensures forall q :: q in quizzes && q.isActive && !q.isDeleted ==> MapToQuizViewModel(q) in r
    ensures forall i :: 0 <= i < |r| ==>
              exists q :: q in quizzes && q.isActive && !q.isDeleted && r[i] == MapToQuizViewModel(q)
  {
    ListQuizzes(quizzes, IsLiveAndActive, sortKey)
  }

  /** GetQuizByIdAsync: the first row with that key that is not soft-deleted. */
  function GetQuizById(quizzes: seq<QuizRow>, quizId: int): (r: Option<QuizViewModel>)
    ensures r.None? <==> forall q :: q in quizzes ==> q.quizId != quizId || q.isDeleted
    ensures r.Some? ==> exists q :: q in quizzes && q.quizId == quizId && !q.isDeleted && r.value == MapToQuizViewModel(q)
  {
    var live := Where(quizzes, (q: QuizRow) => q.quizId == quizId && !q.isDeleted);
    if |live| == 0 then None
    else
      assert live[0] in live;
      Some(MapToQuizViewModel(live[0]))
  }

  /** The filter GetQuizQuestionsAsync applies: the quiz's questions that are not soft-deleted. */
  function LiveQuestionOf(quizId: int): QuestionRow -> bool {
    (q: QuestionRow) => q.quizId == quizId && !q.isDeleted
  }

  function MapQuestions(rows: seq<QuestionRow>): (r: seq<QuestionView>)
    ensures |r| == |rows|
    ensures forall i :: 0 <= i < |r| ==> r[i] == MapToQuestionViewModel(rows[i])
    ensures forall q :: q in rows ==> MapToQuestionViewModel(q) in r
  {
    var r := seq(|rows|, i requires 0 <= i < |rows| => MapToQuestionViewModel(rows[i]));
    assert forall q :: q in rows ==> MapToQuestionViewModel(q) in r by {
      forall q | q in rows ensures MapToQuestionViewModel(q) in r {
        var k :| 0 <= k < |rows| && rows[k] == q;
        assert r[k] == MapToQuestionViewModel(q);
      }
    }
    r
  }

  /** GetQuizQuestionsAsync: the live questions of a quiz, in table order. */
  function GetQuizQuestions(questions: seq<QuestionRow>, quizId: int): (r: seq<QuestionView>)
    ensures r == MapQuestions(Where(questions, LiveQuestionOf(quizId)))
    ensures |r| == |Where(questions, LiveQuestionOf(quizId))|
    ensures forall i :: 0 <= i < |r| ==> r[i].quizId == quizId
    ensures forall i :: 0 <= i < |r| ==>
              exists q :: q in questions && q.quizId == quizId && !q.isDeleted && r[i] == MapToQuestionViewModel(q)
    ensures forall q :: q in questions && q.quizId == quizId && !q.isDeleted ==> MapToQuestionViewModel(q) in r
  {
    var rows := Where(questions, LiveQuestionOf(quizId));
    assert forall i :: 0 <= i < |rows| ==> rows[i] in rows && rows[i].quizId == quizId;
    MapQuestions(rows)
  }

  /** OrderByDescending(r => r.CompletedAt). */
  function NewestFirst(): (QuizResultRow, QuizResultRow) -> bool {
    (a: QuizResultRow, b: QuizResultRow) => a.completedAt >= b.completedAt
  }

  function MapResults(rows: seq<QuizResultRow>, quizzes: seq<QuizRow>): (r: seq<QuizResultViewModel>)
    ensures |r| == |rows|
    ensures forall i :: 0 <= i < |r| ==> r[i] == MapToQuizResultViewModel(rows[i], quizzes)
    ensures forall row :: row in rows ==> MapToQuizResultViewModel(row, quizzes) in r
  {
    var r := seq(|rows|, i requires 0 <= i < |rows| => MapToQuizResultViewModel(rows[i], quizzes));
    assert forall row :: row in rows ==> MapToQuizResultViewModel(row, quizzes) in r by {
      forall row | row in rows ensures MapToQuizResultViewModel(row, quizzes) in r {
        var k :| 0 <= k < |rows| && rows[k] == row;
        assert r[k] == MapToQuizResultViewModel(row, quizzes);
      }
    }
    r
  }

  /** Showing two arrangements of the same results gives two arrangements of the same views. */
  lemma MapResultsPermutation(a: seq<QuizResultRow>, b: seq<QuizResultRow>, quizzes: seq<QuizRow>)
    requires multiset(a) == multiset(b)
    ensures multiset(MapResults(a, quizzes)) == multiset(MapResults(b, quizzes))
  {
    MapPreservesPermutation(a, b, MapResults(a, quizzes), MapResults(b, quizzes),
                            (row: QuizResultRow) => MapToQuizResultViewModel(row, quizzes));
  }

  /** Results listed newest first and shown, each with its quiz's name. */
  function ListResults(rows: seq<QuizResultRow>, quizzes: seq<QuizRow>): (r: seq<QuizResultViewModel>)
    ensures |r| == |rows|
    ensures multiset(r) == multiset(MapResults(rows, quizzes))
    ensures forall i, j :: 0 <= i < j < |r| ==> r[i].completedAt >= r[j].completedAt
    ensures forall row :: row in rows ==> MapToQuizResultViewModel(row, quizzes) in r
    ensures forall i :: 0 <= i < |r| ==> exists row :: row in rows && r[i] == MapToQuizResultViewModel(row, quizzes)
  {
    var sorted := SortBy(rows, NewestFirst());
    var r := MapResults(sorted, quizzes);
    assert forall i :: 0 <= i < |r| ==> sorted[i] in rows && r[i] == MapToQuizResultViewModel(sorted[i], quizzes);
    MapResultsPermutation(sorted, rows, quizzes);
    r
  }

  /** The filter GetUserQuizResultsAsync applies: the user's own results. */
  function ResultOf(username: string): QuizResultRow -> bool {
    (row: QuizResultRow) => row.username == username
  }

  /** GetUserQuizResultsAsync: that user's results only, newest first. */
  function GetUserQuizResults(results: seq<QuizResultRow>, quizzes: seq<QuizRow>, username: string): (r: seq<QuizResultViewModel>)
    ensures |r| == |Where(results, ResultOf(username))|
    ensures multiset(r) == multiset(MapResults(Where(results, ResultOf(username)), quizzes))
    ensures forall i :: 0 <= i < |r| ==> r[i].username == username
    ensures forall i, j :: 0 <= i < j < |r| ==> r[i].completedAt >= r[j].completedAt
    ensures forall row :: row in results && row.username == username ==> MapToQuizResultViewModel(row, quizzes) in r
    ensures forall i :: 0 <= i < |r| ==>
              exists row :: row in results && row.username == username && r[i] == MapToQuizResultViewModel(row, quizzes)
  {
    ListResults(Where(results, ResultOf(username)), quizzes)
  }

  /** GetAllQuizResultsAsync: every result, newest first. */
  function GetAllQuizResults(results: seq<QuizResultRow>, quizzes: seq<QuizRow>): (r: seq<QuizResultViewModel>)
    ensures |r| == |results|
    ensures multiset(r) == multiset(MapResults(results, quizzes))
    ensures forall i :: 0 <= i < |r| ==> exists row :: row in results && r[i] == MapToQuizResultViewModel(row, quizzes)
    ensures forall i, j :: 0 <= i < j < |r| ==> r[i].completedAt >= r[j].completedAt
    ensures forall row :: row in results ==> MapToQuizResultViewModel(row, quizzes) in r
  {
    ListResults(results, quizzes)
  }

  /** A result whose quiz row is gone is shown under "Unknown Quiz". */
  lemma MissingQuizShownAsUnknown(result: QuizResultRow, quizzes: seq<QuizRow>)
    requires forall q :: q in quizzes ==> q.quizId != result.quizId
    ensures MapToQuizResultViewModel(result, quizzes).quizName == UnknownQuiz
  {
  }

  // ------------------------------------------------------------- statistics

  /** The integer-valued part of GetQuizStatisticsAsync's answer. */
  datatype QuizStatistics = QuizStatistics(totalAttempts: int, bestScore: real)

  /** `Max(r => r.Percentage)` of a non-empty list. */
  function MaxPercentage(rows: seq<QuizResultRow>): (m: real)
    requires |rows| > 0
    ensures forall i :: 0 <= i < |rows| ==> rows[i].percentage <= m
    ensures exists i :: 0 <= i < |rows| && rows[i].percentage == m
  {
    if |rows| == 1 then rows[0].percentage
    else
      var rest := MaxPercentage(rows[1..]);
      assert forall i :: 1 <= i < |rows| ==> rows[i] == rows[1..][i - 1];
      if rows[0].percentage >= rest then rows[0].percentage else rest
  }

  function GetQuizStatistics(results: seq<QuizResultRow>, quizId: int): (s: QuizStatistics)
    ensures (forall row :: row in results ==> row.quizId != quizId) ==> s == QuizStatistics(0, 0.0)
    ensures s.totalAttempts == |Where(results, (row: QuizResultRow) => row.quizId == quizId)|
    ensures forall row :: row in results && row.quizId == quizId ==> row.percentage <= s.bestScore
    ensures s.totalAttempts > 0 ==> exists row :: row in results && row.quizId == quizId && row.percentage == s.bestScore
  {
    var rows := Where(results, (row: QuizResultRow) => row.quizId == quizId);
    if |rows| == 0 then QuizStatistics(0, 0.0)
    else
      var best := MaxPercentage(rows);
      assert forall row :: row in rows ==> row.percentage <= best;
      assert exists i :: 0 <= i < |rows| && rows[i].percentage == best;
      QuizStatistics(|rows|, best)
  }

  // ------------------------------------------------------- question packing

  /** The request's option list laid into the four slots: item i in slot i, "" past its end. */
  function PackOptions(options: seq<string>): (slots: seq<string>)
    ensures |slots| == 4
    ensures forall i :: 0 <= i < 4 ==> slots[i] == if i < |options| then options[i] else ""
  {
    seq(4, i requires 0 <= i < 4 => if i < |options| then options[i] else "")
  }

  function NewQuestionRow(quizId: int, questionId: int, request: QuestionRequest): (row: QuestionRow)
    ensures [row.optionA, row.optionB, row.optionC, row.optionD] == PackOptions(request.options)
    ensures row.quizId == quizId && row.questionId == questionId && !row.isDeleted
    ensures row.questionText == request.questionText && row.correctOption == request.correctAnswer
  {
    var slots := PackOptions(request.options);
    QuestionRow(questionId, quizId, request.questionText, slots[0], slots[1], slots[2], slots[3],
                request.correctAnswer, false)
  }

  /** The rows inserted for a request's questions, under consecutive identities from `firstId`. */
  function NewQuestionRows(quizId: int, firstId: int, requests: seq<QuestionRequest>): (rows: seq<QuestionRow>)
    ensures |rows| == |requests|
    ensures forall i :: 0 <= i < |rows| ==> rows[i] == NewQuestionRow(quizId, firstId + i, requests[i])
  {
    seq(|requests|, i requires 0 <= i < |requests| => NewQuestionRow(quizId, firstId + i, requests[i]))
  }

  function Take<T>(s: seq<T>, n: nat): seq<T> {
    if |s| <= n then s else s[..n]
  }

  /** Packing then reading back keeps the non-empty ones among the first four options, in order. */
  lemma {:induction false} PackThenPresent(options: seq<string>)
    ensures PresentOptions(PackOptions(options)) == Where(Take(options, 4), NonEmpty)
  {
    var kept := Take(options, 4);
    var blanks := seq(4 - |kept|, i requires 0 <= i < 4 - |kept| => "");
    assert PackOptions(options) == kept + blanks;
    WhereAppend(kept, blanks, NonEmpty);
    WhereDropsAll(blanks, NonEmpty);
  }

  /** At most four options, none empty: unpacking the packed question gives the list back. */
  lemma OptionsRoundTrip(options: seq<string>)
    requires |options| <= 4
    requires forall i :: 0 <= i < |options| ==> options[i] != ""
    ensures PresentOptions(PackOptions(options)) == options
  {
    PackThenPresent(options);
    WhereKeepsAll(options, NonEmpty);
  }

  /** Reading a question back from the table after packing its request. */
  lemma StoredQuestionShowsRequest(quizId: int, questionId: int, request: QuestionRequest)
    requires |request.options| <= 4
    requires forall i :: 0 <= i < |request.options| ==> request.options[i] != ""
    ensures MapToQuestionViewModel(NewQuestionRow(quizId, questionId, request)).options == request.options
    ensures MapToQuestionViewModel(NewQuestionRow(quizId, questionId, request)).correctAnswer == request.correctAnswer
  {
    OptionsRoundTrip(request.options);
  }

  // --------------------------------------------------------- state changes

  /** SaveQuizResultAsync's validation: score within 0..TotalQuestions, percentage within 0..100, time not negative. */
  predicate IsValidResult(result: QuizResultViewModel) {
    && 0 <= result.score <= result.totalQuestions
    && 0.0 <= result.percentage <= 100.0
    && result.timeSpent >= 0
  }

  /** The row a quiz request creates: Difficulty takes its default, a missing time limit becomes 0. */
  function NewQuizRow(quizId: int, request: QuizRequest, now: int): (row: QuizRow)
    ensures row.quizId == quizId && row.difficulty == DefaultDifficulty && !row.isDeleted
    ensures row.totalQuestions == |request.questions| && row.createdDate == now
    ensures row.timeLimit == request.timeLimitMinutes.GetOr(0)
  {
    QuizRow(quizId, request.title, request.description, request.category, DefaultDifficulty,
            request.timeLimitMinutes.GetOr(0), |request.questions|, request.isActive, false, now)
  }

  /** UpdateQuizAsync's edits to the found row: key, Difficulty, IsDeleted and CreatedDate stay. */
  function UpdatedQuizRow(quiz: QuizRow, request: QuizRequest): (row: QuizRow)
    ensures row.quizId == quiz.quizId && row.difficulty == quiz.difficulty
    ensures row.isDeleted == quiz.isDeleted && row.createdDate == quiz.createdDate
    ensures row.totalQuestions == |request.questions|
    ensures row == NewQuizRow(quiz.quizId, request, quiz.createdDate).(difficulty := quiz.difficulty, isDeleted := quiz.isDeleted)
  {
    quiz.(quizName := request.title, description := request.description, category := request.category,
          timeLimit := request.timeLimitMinutes.GetOr(0), isActive := request.isActive,
          totalQuestions := |request.questions|)
  }

  /** The soft-delete cascade on one question row. */
  function CascadeDelete(question: QuestionRow, quizId: int): QuestionRow {
    if question.quizId == quizId then question.(isDeleted := true) else question
  }

  function SoftDeleteQuestions(questions: seq<QuestionRow>, quizId: int): (r: seq<QuestionRow>)
    ensures |r| == |questions|
    ensures forall i :: 0 <= i < |r| ==> r[i].isDeleted == (questions[i].isDeleted || questions[i].quizId == quizId)
    ensures forall i :: 0 <= i < |r| ==> r[i].(isDeleted := questions[i].isDeleted) == questions[i]
  {
    seq(|questions|, i requires 0 <= i < |questions| => CascadeDelete(questions[i], quizId))
  }

  function SoftDeleteQuiz(quizzes: seq<QuizRow>, quizId: int): (r: seq<QuizRow>)
    ensures |r| == |quizzes|
    ensures forall i :: 0 <= i < |r| ==> r[i].isDeleted == (quizzes[i].isDeleted || quizzes[i].quizId == quizId)
    ensures forall i :: 0 <= i < |r| ==> r[i].(isDeleted := quizzes[i].isDeleted) == quizzes[i]
  {
    seq(|quizzes|, i requires 0 <= i < |quizzes| =>
          if quizzes[i].quizId == quizId then quizzes[i].(isDeleted := true) else quizzes[i])
  }

  /** After a delete the quiz is gone from every listing and lookup, and so are its questions. */
  lemma DeletedQuizIsHidden(quizzes: seq<QuizRow>, questions: seq<QuestionRow>, quizId: int, sortKey: string -> string)
    ensures GetQuizById(SoftDeleteQuiz(quizzes, quizId), quizId).None?
    ensures forall v :: v in GetAllQuizzes(SoftDeleteQuiz(quizzes, quizId), sortKey) ==> v.quizId != quizId
    ensures forall v :: v in GetActiveQuizzes(SoftDeleteQuiz(quizzes, quizId), sortKey) ==> v.quizId != quizId
    ensures GetQuizQuestions(SoftDeleteQuestions(questions, quizId), quizId) == []
  {
    var after := SoftDeleteQuiz(quizzes, quizId);
    assert forall q :: q in after ==> q.quizId != quizId || q.isDeleted;
    var qs := SoftDeleteQuestions(questions, quizId);
    WhereDropsAll(qs, LiveQuestionOf(quizId));
  }

  /** Deleting one quiz leaves every other quiz's questions as they were. */
  lemma DeleteLeavesOtherQuizzes(questions: seq<QuestionRow>, quizId: int, other: int)
    requires other != quizId
    ensures GetQuizQuestions(SoftDeleteQuestions(questions, quizId), other) == GetQuizQuestions(questions, other)
  {
    WhereCascade(questions, quizId, other);
  }

  lemma {:induction false} WhereCascade(questions: seq<QuestionRow>, quizId: int, other: int)
    requires other != quizId
    ensures Where(SoftDeleteQuestions(questions, quizId), LiveQuestionOf(other)) == Where(questions, LiveQuestionOf(other))
    decreases |questions|
  {
    if |questions| > 0 {
      assert SoftDeleteQuestions(questions, quizId)[1..] == SoftDeleteQuestions(questions[1..], quizId);
      WhereCascade(questions[1..], quizId, other);
    }
  }

  /** Quiz keys strictly increase down the table and stay below the next identity. */
  ghost predicate QuizKeysIncreasing(quizzes: seq<QuizRow>, nextQuizId: int) {
    && (forall i :: 0 <= i < |quizzes| ==> 0 < quizzes[i].quizId < nextQuizId)
    && (forall i, j :: 0 <= i < j < |quizzes| ==> quizzes[i].quizId < quizzes[j].quizId)
  }

  /** The outcome of a service call that may escape with an exception. */
  datatype Outcome<T> = Returned(value: T) | Threw(exception: ErrorHandling.ExceptionType)

  /**
   * SaveQuizResultAsync as written: an invalid result throws ArgumentException,
   * and the catch block hands a null logger to LogError.
   */
  function SaveQuizResultAsWritten(result: QuizResultViewModel): (outcome: Outcome<bool>)
    ensures IsValidResult(result) ==> outcome == Returned(true)
  {
    if IsValidResult(result) then Returned(true)
    else match ErrorHandling.LogError(false, ErrorHandling.ArgumentException)
      case Logged(_) => Returned(false)
      case LoggerThrew(e) => Threw(e)
  }

  /** For an invalid result the caller sees an ArgumentNullException, not `false`. */
  lemma InvalidResultEscapes(result: QuizResultViewModel)
    requires !IsValidResult(result)
    ensures SaveQuizResultAsWritten(result) == Threw(ErrorHandling.ArgumentNullException)
  {
  }

  class QuizService {
    var quizzes: seq<QuizRow>
    var questions: seq<QuestionRow>
    var results: seq<QuizResultRow>
    /** The identity each table assigns to its next inserted row. */
    var nextQuizId: int
    var nextQuestionId: int
    var nextResultId: int

    ghost predicate Valid()
      reads this
    {
      && 0 < nextQuizId && 0 < nextQuestionId && 0 < nextResultId
      && QuizKeysIncreasing(quizzes, nextQuizId)
      && (forall i :: 0 <= i < |questions| ==> questions[i].questionId < nextQuestionId)
      && (forall i :: 0 <= i < |results| ==> results[i].resultId < nextResultId)
    }

    constructor ()
      ensures Valid()
      ensures quizzes == [] && questions == [] && results == []
      ensures nextQuizId == 1 && nextQuestionId == 1 && nextResultId == 1
    {
      quizzes, questions, results := [], [], [];
      nextQuizId, nextQuestionId, nextResultId := 1, 1, 1;
    }

    /** SaveQuizResultAsync with the catch block returning `false` as intended. */
    method SaveQuizResult(result: QuizResultViewModel) returns (saved: bool)
      requires Valid()
      modifies this
      ensures Valid()
      ensures saved <==> IsValidResult(result)
      ensures saved ==> results == old(results) + [ResultRowFor(result, old(nextResultId))]
                        && nextResultId == old(nextResultId) + 1
      ensures !saved ==> results == old(results) && nextResultId == old(nextResultId)
      ensures quizzes == old(quizzes) && questions == old(questions)
      ensures nextQuizId == old(nextQuizId) && nextQuestionId == old(nextQuestionId)
    {
      if result.score < 0 || result.score > result.totalQuestions {
        return false;
      }
      if result.percentage < 0.0 || result.percentage > 100.0 {
        return false;
      }
      if result.timeSpent < 0 {
        return false;
      }
      results := results + [ResultRowFor(result, nextResultId)];
      nextResultId := nextResultId + 1;
      return true;
    }

    /** The foreach that inserts one row per requested question. */
    method AddQuestions(quizId: int, requests: seq<QuestionRequest>)
      requires Valid()
      modifies this
      ensures Valid()
      ensures questions == old(questions) + NewQuestionRows(quizId, old(nextQuestionId), requests)
      ensures nextQuestionId == old(nextQuestionId) + |requests|
      ensures quizzes == old(quizzes) && results == old(results)
      ensures nextQuizId == old(nextQuizId) && nextResultId == old(nextResultId)
    {
      var added := NewQuestionRows(quizId, nextQuestionId, requests);
      var i := 0;
      while i < |requests|
        invariant 0 <= i <= |requests|
        invariant questions == old(questions) + added[..i]
        invariant nextQuestionId == old(nextQuestionId) + i
        invariant quizzes == old(quizzes) && results == old(results)
        invariant nextQuizId == old(nextQuizId) && nextResultId == old(nextResultId)
        invariant Valid()
      {
        questions := questions + [NewQuestionRow(quizId, nextQuestionId, requests[i])];
        nextQuestionId := nextQuestionId + 1;
        i := i + 1;
        assert added[..i] == added[..i - 1] + [added[i - 1]];
      }
      assert added[..i] == added;
    }

    /** CreateQuizAsync: a new quiz row, then its questions. */
    method CreateQuiz(request: QuizRequest, now: int) returns (view: QuizViewModel)
      requires Valid()
      modifies this
      ensures Valid()
      ensures quizzes == old(quizzes) + [NewQuizRow(old(nextQuizId), request, now)]
      ensures questions == old(questions) + NewQuestionRows(old(nextQuizId), old(nextQuestionId), request.questions)
      ensures results == old(results)
      ensures nextQuizId == old(nextQuizId) + 1 && nextQuestionId == old(nextQuestionId) + |request.questions|
      ensures nextResultId == old(nextResultId)
      ensures view == MapToQuizViewModel(NewQuizRow(old(nextQuizId), request, now))
      ensures GetQuizById(quizzes, view.quizId) == Some(view)
    {
      var row := NewQuizRow(nextQuizId, request, now);
      assert forall q :: q in quizzes ==> q.quizId != row.quizId;
      quizzes := quizzes + [row];
      nextQuizId := nextQuizId + 1;
      assert QuizKeysIncreasing(quizzes, nextQuizId);
      AddQuestions(row.quizId, request.questions);
      view := MapToQuizViewModel(row);
      assert forall q :: q in quizzes && q.quizId == row.quizId ==> q == row;
    }

    /** UpdateQuizAsync: replace the quiz's fields and all its question rows. */
    method UpdateQuiz(request: QuizRequest) returns (r: Result<QuizViewModel, ErrorHandling.ExceptionType>)
      requires Valid()
      modifies this
      ensures Valid()
      ensures r.Err? <==> forall i :: 0 <= i < |old(quizzes)| ==> old(quizzes)[i].quizId != request.id
      ensures r.Err? ==> r.error == ErrorHandling.ArgumentException && unchanged(this)
      ensures r.Ok? ==>
                var i := FindQuizIndex(old(quizzes), request.id).value;
                && quizzes == old(quizzes)[i := UpdatedQuizRow(old(quizzes)[i], request)]
                && questions == Where(old(questions), (q: QuestionRow) => q.quizId != request.id)
                                + NewQuestionRows(request.id, old(nextQuestionId), request.questions)
                && r.value == MapToQuizViewModel(quizzes[i])
                && nextQuestionId == old(nextQuestionId) + |request.questions|
                && nextQuizId == old(nextQuizId)
      ensures results == old(results) && nextResultId == old(nextResultId)
    {
      var found := FindQuizIndex(quizzes, request.id);
      if found.None? {
        return Err(ErrorHandling.ArgumentException);
      }
      var i := found.value;
      var updated := UpdatedQuizRow(quizzes[i], request);
      quizzes := quizzes[i := updated];
      questions := Where(questions, (q: QuestionRow) => q.quizId != request.id);
      AddQuestions(updated.quizId, request.questions);
      r := Ok(MapToQuizViewModel(updated));
    }

    /** DeleteQuizAsync: soft-delete an existing live quiz and its questions. */
    method DeleteQuiz(quizId: int) returns (deleted: bool)
      requires Valid()
      modifies this
      ensures Valid()
      ensures deleted <==> exists i :: 0 <= i < |old(quizzes)| && old(quizzes)[i].quizId == quizId && !old(quizzes)[i].isDeleted
      ensures !deleted ==> unchanged(this)
      ensures deleted ==> quizzes == SoftDeleteQuiz(old(quizzes), quizId)
                          && questions == SoftDeleteQuestions(old(questions), quizId)
      ensures results == old(results)
      ensures nextQuizId == old(nextQuizId) && nextQuestionId == old(nextQuestionId) && nextResultId == old(nextResultId)
    {
      var found := FindQuizIndex(quizzes, quizId);
      if found.None? || quizzes[found.value].isDeleted {
        return false;
      }
      var k := found.value;
      var i := 0;
      while i < |questions|
        invariant 0 <= i <= |questions| && |questions| == |old(questions)|
        invariant forall j :: 0 <= j < i ==> questions[j] == CascadeDelete(old(questions)[j], quizId)
        invariant forall j :: i <= j < |questions| ==> questions[j] == old(questions)[j]
        invariant quizzes == old(quizzes) && results == old(results)
        invariant nextQuizId == old(nextQuizId) && nextQuestionId == old(nextQuestionId)
        invariant nextResultId == old(nextResultId)
      {
        if questions[i].quizId == quizId && !questions[i].isDeleted {
          questions := questions[i := questions[i].(isDeleted := true)];
        }
        i := i + 1;
      }
      assert questions == SoftDeleteQuestions(old(questions), quizId);
      quizzes := quizzes[k := quizzes[k].(isDeleted := true)];
      assert quizzes == SoftDeleteQuiz(old(quizzes), quizId);
      deleted := true;
    }
  }
}
