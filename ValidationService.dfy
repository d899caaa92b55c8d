/**
 * The validators for passwords, usernames, quizzes and questions. Each runs
 * its checks in a fixed order and reports the first failing check's message.
 */
module Validation {

  import opened Wrappers
  import opened Text

  datatype ValidationResult = Success | Failure(errorMessage: string)

  const WeakPasswords: seq<string> := ["password", "123456", "qwerty", "abc123", "password123"]

  const PasswordRequired: string := "Password is required"
  const PasswordTooShort: string := "Password must be at least 6 characters long"
  const PasswordTooLong: string := "Password is too long (maximum 100 characters)"
  const PasswordTooCommon: string := "Password is too common. Please choose a stronger password"

  function ValidatePasswordStrength(password: string): (r: ValidationResult)
    ensures r.Success? <==> !IsBlank(password) && 6 <= |password| <= 100 && ToLower(password) !in WeakPasswords
    ensures r == Failure(PasswordRequired) <==> IsBlank(password)
    ensures r == Failure(PasswordTooShort) <==> !IsBlank(password) && |password| < 6
    ensures r == Failure(PasswordTooLong) <==> !IsBlank(password) && |password| > 100
    ensures r == Failure(PasswordTooCommon) <==>
              !IsBlank(password) && 6 <= |password| <= 100 && ToLower(password) in WeakPasswords
  {
    if IsBlank(password) then Failure(PasswordRequired)
    else if |password| < 6 then Failure(PasswordTooShort)
    else if |password| > 100 then Failure(PasswordTooLong)
    else if ToLower(password) in WeakPasswords then Failure(PasswordTooCommon)
    else Success
  }

  /** A character of `[a-zA-Z0-9_-]`. */
  predicate IsUsernameChar(c: char) {
    ('a' <= c <= 'z') || ('A' <= c <= 'Z') || ('0' <= c <= '9') || c == '_' || c == '-'
  }

  predicate AllUsernameChars(s: string) {
    forall i :: 0 <= i < |s| ==> IsUsernameChar(s[i])
  }

  /**
   * `Regex.IsMatch(s, "^[a-zA-Z0-9_-]+$")`. Without RegexOptions.Multiline, .NET's
   * `$` matches at the very end and also just before a final '\n'.
   */
  predicate MatchesUsernamePattern(s: string) {
    || (|s| >= 1 && AllUsernameChars(s))
    || (|s| >= 2 && s[|s| - 1] == '\n' && AllUsernameChars(s[..|s| - 1]))
  }

  /** A username character is never white space, so a name made of them is not blank. */
  lemma UsernameCharsNotBlank(s: string)
    ensures |s| > 0 && AllUsernameChars(s) ==> !IsBlank(s)
  {
    if |s| > 0 && AllUsernameChars(s) {
      assert IsUsernameChar(s[0]);
    }
  }

  const ReservedUsernames: seq<string> :=
    ["admin", "administrator", "root", "user", "guest", "test", "api", "www", "mail", "support"]

  const UsernameRequired: string := "Username is required"
  const UsernameTooShort: string := "Username must be at least 3 characters long"
  const UsernameTooLong: string := "Username is too long (maximum 50 characters)"
  const UsernameBadChars: string := "Username can only contain letters, numbers, underscore, and dash"
  const UsernameReserved: string := "This username is reserved and cannot be used"

  /** The validator as written, with the `$` anchor's trailing-newline allowance. */
  function ValidateUsername(username: string): (r: ValidationResult)
    ensures r.Success? <==>
              && !IsBlank(username) && 3 <= |username| <= 50
              && MatchesUsernamePattern(username) && ToLower(username) !in ReservedUsernames
    ensures r.Success? ==>
              && 3 <= |username| <= 50
              && (AllUsernameChars(username)
                  || (username[|username| - 1] == '\n' && AllUsernameChars(username[..|username| - 1])))
    ensures r == Failure(UsernameRequired) <==> IsBlank(username)
    ensures r == Failure(UsernameTooShort) <==> !IsBlank(username) && |username| < 3
    ensures r == Failure(UsernameTooLong) <==> !IsBlank(username) && |username| > 50
    ensures r == Failure(UsernameBadChars) <==>
              !IsBlank(username) && 3 <= |username| <= 50 && !MatchesUsernamePattern(username)
    ensures r == Failure(UsernameReserved) <==>
              && !IsBlank(username) && 3 <= |username| <= 50
              && MatchesUsernamePattern(username) && ToLower(username) in ReservedUsernames
  {
    if IsBlank(username) then Failure(UsernameRequired)
    else if |username| < 3 then Failure(UsernameTooShort)
    else if |username| > 50 then Failure(UsernameTooLong)
    else if !MatchesUsernamePattern(username) then Failure(UsernameBadChars)
    else if ToLower(username) in ReservedUsernames then Failure(UsernameReserved)
    else Success
  }

  /** The as-written validator accepts a name ending in a line feed. */
  lemma UsernameTrailingNewlineAccepted()
    ensures ValidateUsername("quizfan\n").Success?
    ensures !AllUsernameChars("quizfan\n")
  {
    var name := "quizfan\n";
    assert name[..7] == "quizfan";
    assert IsUsernameChar(name[0]) && IsUsernameChar(name[1]) && IsUsernameChar(name[2]) && IsUsernameChar(name[3]);
    assert IsUsernameChar(name[4]) && IsUsernameChar(name[5]) && IsUsernameChar(name[6]);
    assert AllUsernameChars(name[..7]);
    assert !IsWhiteSpace(name[0]);
    assert !IsUsernameChar(name[7]);
    var lower := ToLower(name);
    assert lower[0] == 'q' && lower[7] == '\n';
    assert lower !in ReservedUsernames;
  }

  /** The validator as its message describes it: the pattern anchored at the very end (`\z`). */
  function ValidateUsernameStrict(username: string): (r: ValidationResult)
    ensures r.Success? ==> 3 <= |username| <= 50 && AllUsernameChars(username)
    ensures r.Success? <==>
              3 <= |username| <= 50 && AllUsernameChars(username) && ToLower(username) !in ReservedUsernames
    ensures r == Failure(UsernameRequired) <==> IsBlank(username)
    ensures r == Failure(UsernameTooShort) <==> !IsBlank(username) && |username| < 3
    ensures r == Failure(UsernameTooLong) <==> !IsBlank(username) && |username| > 50
    ensures r == Failure(UsernameBadChars) <==>
              !IsBlank(username) && 3 <= |username| <= 50 && !AllUsernameChars(username)
    ensures r == Failure(UsernameReserved) <==>
              3 <= |username| <= 50 && AllUsernameChars(username) && ToLower(username) in ReservedUsernames
  {
    UsernameCharsNotBlank(username);
    if IsBlank(username) then Failure(UsernameRequired)
    else if |username| < 3 then Failure(UsernameTooShort)
    else if |username| > 50 then Failure(UsernameTooLong)
    else if !AllUsernameChars(username) then Failure(UsernameBadChars)
    else if ToLower(username) in ReservedUsernames then Failure(UsernameReserved)
    else Success
  }

  /** The two validators differ exactly on names whose only stray character is a final line feed. */
  lemma StrictDiffersOnlyOnTrailingNewline(username: string)
    ensures ValidateUsernameStrict(username).Success? ==> ValidateUsername(username).Success?
    ensures ValidateUsername(username).Success? && !ValidateUsernameStrict(username).Success? ==>
              username[|username| - 1] == '\n'
  {
    UsernameCharsNotBlank(username);
  }

  const QuizNameRequired: string := "Quiz name is required"
  const QuizNameTooLong: string := "Quiz name is too long (maximum 200 characters)"
  const DescriptionRequired: string := "Quiz description is required"
  const DescriptionTooLong: string := "Quiz description is too long (maximum 1000 characters)"
  const TimeLimitOutOfRange: string := "Time limit must be between 1 and 120 minutes"
  const QuestionCountOutOfRange: string := "Total questions must be between 1 and 50"

  function ValidateQuizData(quizName: string, description: string, timeLimit: int, totalQuestions: int): (r: ValidationResult)
    ensures r.Success? <==>
              && !IsBlank(quizName) && |quizName| <= 200
              && !IsBlank(description) && |description| <= 1000
              && 1 <= timeLimit <= 120
              && 1 <= totalQuestions <= 50
    ensures r == Failure(QuizNameRequired) <==> IsBlank(quizName)
    ensures r == Failure(QuizNameTooLong) <==> !IsBlank(quizName) && |quizName| > 200
    ensures r == Failure(DescriptionRequired) <==>
              !IsBlank(quizName) && |quizName| <= 200 && IsBlank(description)
    ensures r == Failure(DescriptionTooLong) <==>
              !IsBlank(quizName) && |quizName| <= 200 && !IsBlank(description) && |description| > 1000
    ensures r == Failure(TimeLimitOutOfRange) <==>
              && !IsBlank(quizName) && |quizName| <= 200
              && !IsBlank(description) && |description| <= 1000
              && !(1 <= timeLimit <= 120)
    ensures r == Failure(QuestionCountOutOfRange) <==>
              && !IsBlank(quizName) && |quizName| <= 200
              && !IsBlank(description) && |description| <= 1000
              && 1 <= timeLimit <= 120
              && !(1 <= totalQuestions <= 50)
  {
    if IsBlank(quizName) then Failure(QuizNameRequired)
    else if |quizName| > 200 then Failure(QuizNameTooLong)
    else if IsBlank(description) then Failure(DescriptionRequired)
    else if |description| > 1000 then Failure(DescriptionTooLong)
    else if timeLimit < 1 || timeLimit > 120 then Failure(TimeLimitOutOfRange)
    else if totalQuestions < 1 || totalQuestions > 50 then Failure(QuestionCountOutOfRange)
    else Success
  }

  /** `(char)('A' + i)` */
  function OptionLetter(i: nat): char
    requires i < 4
  {
    ('A' as int + i) as char
  }

  predicate IsBadOption(option: string) {
    IsBlank(option) || |option| > 500
  }

  function OptionMessage(i: nat, option: string): (message: string)
    requires i < 4
    ensures |message| > 7 && message[..7] == "Option " && message[7] == OptionLetter(i)
    ensures IsBlank(option) <==> message == "Option " + [OptionLetter(i)] + " is required"
    ensures !IsBlank(option) <==> message == "Option " + [OptionLetter(i)] + " is too long (maximum 500 characters)"
  {
    if IsBlank(option) then "Option " + [OptionLetter(i)] + " is required"
    else "Option " + [OptionLetter(i)] + " is too long (maximum 500 characters)"
  }

  /** The loop over the options from index `i`: the message for the first bad one, if any. */
  function FirstOptionProblem(options: seq<string>, i: nat): (r: Option<string>)
    requires |options| == 4 && i <= 4
    ensures r.None? <==> forall k :: i <= k < 4 ==> !IsBadOption(options[k])
    ensures r.Some? ==> exists k :: i <= k < 4 && IsBadOption(options[k])
                                    && (forall j :: i <= j < k ==> !IsBadOption(options[j]))
                                    && r.value == OptionMessage(k, options[k])
    decreases 4 - i
  {
    if i == 4 then None
    else if IsBadOption(options[i]) then Some(OptionMessage(i, options[i]))
    else FirstOptionProblem(options, i + 1)
  }

  const AnswerLetters: seq<string> := ["A", "B", "C", "D"]

  const QuestionTextRequired: string := "Question text is required"
  const QuestionTextTooLong: string := "Question text is too long (maximum 1000 characters)"
  const AnswerRequired: string := "Correct answer is required"
  const AnswerNotALetter: string := "Correct answer must be A, B, C, or D"

  /** What the question validator reports, stated check by check. */
  function QuestionVerdict(questionText: string, optionA: string, optionB: string, optionC: string,
                           optionD: string, correctAnswer: string): (r: ValidationResult)
    ensures r.Success? <==>
              && !IsBlank(questionText) && |questionText| <= 1000
              && !IsBadOption(optionA) && !IsBadOption(optionB) && !IsBadOption(optionC) && !IsBadOption(optionD)
              && !IsBlank(correctAnswer) && ToUpper(correctAnswer) in AnswerLetters
    ensures r == Failure(QuestionTextRequired) <==> IsBlank(questionText)
    ensures r == Failure(QuestionTextTooLong) <==> !IsBlank(questionText) && |questionText| > 1000
    ensures (!IsBlank(questionText) && |questionText| <= 1000
             && exists k :: 0 <= k < 4 && IsBadOption([optionA, optionB, optionC, optionD][k])) ==>
              r.Failure? && |r.errorMessage| > 7 && r.errorMessage[..7] == "Option "
    ensures r == Failure(AnswerRequired) <==>
              && !IsBlank(questionText) && |questionText| <= 1000
              && !IsBadOption(optionA) && !IsBadOption(optionB) && !IsBadOption(optionC) && !IsBadOption(optionD)
              && IsBlank(correctAnswer)
    ensures r == Failure(AnswerNotALetter) <==>
              && !IsBlank(questionText) && |questionText| <= 1000
              && !IsBadOption(optionA) && !IsBadOption(optionB) && !IsBadOption(optionC) && !IsBadOption(optionD)
              && !IsBlank(correctAnswer) && ToUpper(correctAnswer) !in AnswerLetters
  {
    if IsBlank(questionText) then Failure(QuestionTextRequired)
    else if |questionText| > 1000 then Failure(QuestionTextTooLong)
    else match FirstOptionProblem([optionA, optionB, optionC, optionD], 0)
      case Some(message) => Failure(message)
      case None =>
        if IsBlank(correctAnswer) then Failure(AnswerRequired)
        else if ToUpper(correctAnswer) !in AnswerLetters then Failure(AnswerNotALetter)
        else Success
  }

  /** The validator itself, walking the four options with an index as the source does. */
  method ValidateQuestionData(questionText: string, optionA: string, optionB: string, optionC: string,
                              optionD: string, correctAnswer: string) returns (r: ValidationResult)
    ensures r == QuestionVerdict(questionText, optionA, optionB, optionC, optionD, correctAnswer)
    ensures r.Success? <==>
              && !IsBlank(questionText) && |questionText| <= 1000
              && !IsBadOption(optionA) && !IsBadOption(optionB) && !IsBadOption(optionC) && !IsBadOption(optionD)
              && !IsBlank(correctAnswer) && ToUpper(correctAnswer) in AnswerLetters
  {
    if IsBlank(questionText) {
      return Failure(QuestionTextRequired);
    }
    if |questionText| > 1000 {
      return Failure(QuestionTextTooLong);
    }
    var options := [optionA, optionB, optionC, optionD];
    var i := 0;
    while i < |options|
      invariant 0 <= i <= 4
      invariant FirstOptionProblem(options, 0) == FirstOptionProblem(options, i)
    {
      if IsBlank(options[i]) {
        return Failure("Option " + [OptionLetter(i)] + " is required");
      }
      if |options[i]| > 500 {
        return Failure("Option " + [OptionLetter(i)] + " is too long (maximum 500 characters)");
      }
      i := i + 1;
    }
    if IsBlank(correctAnswer) {
      return Failure(AnswerRequired);
    }
    if ToUpper(correctAnswer) !in AnswerLetters {
      return Failure(AnswerNotALetter);
    }
    return Success;
  }

  /** Options are checked A to D; the report names the first bad one by its letter. */
  lemma FirstBadOptionReported(questionText: string, options: seq<string>, correctAnswer: string, k: nat)
    requires |options| == 4 && k < 4
    requires !IsBlank(questionText) && |questionText| <= 1000
    requires IsBadOption(options[k]) && forall j :: 0 <= j < k ==> !IsBadOption(options[j])
    ensures QuestionVerdict(questionText, options[0], options[1], options[2], options[3], correctAnswer)
              == Failure(OptionMessage(k, options[k]))
  {
    assert [options[0], options[1], options[2], options[3]] == options;
    var r := FirstOptionProblem(options, 0);
    var k' :| 0 <= k' < 4 && IsBadOption(options[k']) && (forall j :: 0 <= j < k' ==> !IsBadOption(options[j]))
              && r.value == OptionMessage(k', options[k']);
    assert k' == k;
  }

  /** The correct answer is accepted exactly when it is one letter A-D in either case. */
  lemma CorrectAnswerLetters(correctAnswer: string)
    ensures (!IsBlank(correctAnswer) && ToUpper(correctAnswer) in AnswerLetters) <==>
              |correctAnswer| == 1 && correctAnswer[0] in "ABCDabcd"
  {
    if |correctAnswer| == 1 {
      var c := correctAnswer[0];
      assert ToUpper(correctAnswer) == [UpperChar(c)];
      if c in "ABCDabcd" {
        assert !IsWhiteSpace(c);
      }
    }
  }
}
