/**
 * The shapes of the quiz tables and of the admin requests that create or
 * replace a quiz. Timestamps are opaque ordered ticks.
 */
module QuizRecords {

  import opened Wrappers

  /** A row of the Quizzes table; Category defaults to "General" and Difficulty to "Medium". */
  datatype QuizRow = QuizRow(
    quizId: int, quizName: string, description: string, category: string, difficulty: string,
    timeLimit: int, totalQuestions: int, isActive: bool, isDeleted: bool, createdDate: int)

  /** A row of the Questions table: four option slots and the letter of the right one. */
  datatype QuestionRow = QuestionRow(
    questionId: int, quizId: int, questionText: string,
    optionA: string, optionB: string, optionC: string, optionD: string,
    correctOption: string, isDeleted: bool)

  /** A row of the QuizResults table; TimeSpent is in seconds. */
  datatype QuizResultRow = QuizResultRow(
    resultId: int, quizId: int, username: string, score: int, totalQuestions: int,
    percentage: real, completedAt: int, timeSpent: int, userAnswers: string)

  datatype QuestionRequest = QuestionRequest(
    id: int, quizId: int, questionText: string, questionType: string, options: seq<string>,
    correctAnswer: string, explanation: string, questionOrder: int, isActive: bool)

  datatype QuizRequest = QuizRequest(
    id: int, title: string, description: string, category: string,
    timeLimitMinutes: Option<int>, isActive: bool, questions: seq<QuestionRequest>)

  const DefaultDifficulty: string := "Medium"
}
