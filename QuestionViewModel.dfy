/** A question as displayed: its four option slots and the correct-answer caption. */
module QuestionViews {

  datatype QuestionViewModel = QuestionViewModel(
    questionId: int, quizId: int, questionText: string,
    optionA: string, optionB: string, optionC: string, optionD: string,
    correctAnswer: string, explanation: string, questionOrder: int, isActive: bool)
  {
    /** The four slots in order A..D, empty ones included; recomputed from the fields on every read. */
    function Options(): (r: seq<string>)
      ensures |r| == 4
      ensures forall i :: 0 <= i < 4 ==> r[i] == OptionSlot(i)
    {
      [optionA, optionB, optionC, optionD]
    }

    /** The field behind slot `i` of Options: A, B, C, D for 0, 1, 2, 3. */
    function OptionSlot(i: nat): string
      requires i < 4
    {
      match i
      case 0 => optionA
      case 1 => optionB
      case 2 => optionC
      case 3 => optionD
    }

    function CorrectAnswerDisplay(): (r: string)
      ensures |r| == |CaptionPrefix| + |correctAnswer|
      ensures r[..|CaptionPrefix|] == CaptionPrefix && r[|CaptionPrefix|..] == correctAnswer
    {
      CaptionPrefix + correctAnswer
    }
  }

  const CaptionPrefix: string := "Correct Answer: "

  /** Setting any one option field changes exactly that slot of Options. */
  lemma OptionsFollowFields(q: QuestionViewModel, text: string)
    ensures q.(optionB := text).Options() == q.Options()[1 := text]
    ensures q.(optionD := text).Options() == q.Options()[3 := text]
    ensures q.(optionA := text).Options()[1..] == q.Options()[1..]
  {
  }
}
