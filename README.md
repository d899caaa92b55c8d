# BrainBuzz core, modelled in Dafny

BrainBuzz is a Blazor quiz application. Users register and sign in, take timed
multiple-choice quizzes and review their graded results; administrators create,
edit and soft-delete quizzes. This project models the application's core logic
and proves properties of it.

- **Session store and authentication.** `Sessions`, `Authentication`: the
  shared session dictionary, the browser's localStorage as a second map, the
  login decision ladder, registration pre-checks, the authentication check,
  session creation and logout. The identity framework is a record of lookup
  and check functions.
- **Loading indicator.** `Loading`: a three-field state machine with
  change-detecting setters and a log of the notifications it raises.
- **Quiz catalogue.** `QuizCatalog`, `QuizRecords`, `Collections`: the three
  tables as sequences with identity counters; listings, lookups and
  statistics as functions; saving a result, creating, updating and deleting a
  quiz as methods on the service class.
- **Validators.** `Validation`, `PasswordStrength`, `QuizCategories`: ordered
  check chains that report the first failing message.
- **Display helpers.** `QuizResultViews`, `QuizViews`, `QuestionViews`,
  `UserViews`, `AppRoutes`: time formatting, grades and colours, badge and icon
  tables, the four-option list, initials and admin routes.
- **Exception classification.** `ErrorHandling`: the middleware's status code
  and message, and the error service's message, log level and response record.

`Text` holds the .NET string semantics the source relies on:
- `IsNullOrWhiteSpace` with the exact white-space set;
- ASCII `ToLower`/`ToUpper`;
- decimal formatting and parsing;
- truncating `/` and `%`.

## Model

| member | source | states |
|---|---|---|
| Sessions.SessionService.constructor | BrainBuzz.web/Services/SessionService.cs:7 | the store starts empty |
| Sessions.SessionService.CreateSession | BrainBuzz.web/Services/SessionService.cs:10-16 | the id is bound to the username, overwriting an earlier binding; no other id changes |
| Sessions.SessionService.RemoveSession | BrainBuzz.web/Services/SessionService.cs:18-24 | the id is no longer present; no other id changes; removing an absent id is a no-op |
| Sessions.SessionService.GetUserFromSession | BrainBuzz.web/Services/SessionService.cs:26-32 | a username is returned iff the id is present, and it is the bound one |
| Sessions.SessionService.IsUserLoggedIn | BrainBuzz.web/Services/SessionService.cs:34-41 | true iff the id is present |
| Sessions.SessionService.GetUsername | BrainBuzz.web/Services/SessionService.cs:43-49 | same answer as GetUserFromSession, so non-null iff IsUserLoggedIn |
| Sessions.SessionLifecycle | BrainBuzz.web/Services/SessionService.cs:10-49 | create logs in, overwrite replaces the name, remove logs out, and a second remove is harmless |
| Authentication.FindUser | BrainBuzz.web/Services/AuthenticationService.cs:65-66 | the account by name, else by email; none iff neither lookup finds one |
| Authentication.LoginPathOf | BrainBuzz.web/Services/AuthenticationService.cs:53-127 | the ladder, rung by rung: each return is reached iff the checks before it passed and its own check holds, with the found account carried |
| Authentication.SignInStopEvents | BrainBuzz.web/Services/AuthenticationService.cs:56-121 | no event iff the login leaves the indicator on; otherwise one "off" event, carrying the session message after an accepted password |
| Authentication.SignInNotificationsFromIdle | BrainBuzz.web/Services/AuthenticationService.cs:47-99 | from an idle indicator: the start notifies LoadingMessage then IsLoading; a rejected login's stop notifies IsLoading, LoadingMessage; an accepted login's update notifies LoadingMessage, LoadingPercentage and its stop all three |
| Authentication.NoUserEnumeration | BrainBuzz.web/Services/AuthenticationService.cs:65-76 | an unknown login and a wrong password get the same message; the email is tried only when no user has the name |
| Authentication.BlankCredentialsNeverReachTheStore | BrainBuzz.web/Services/AuthenticationService.cs:53-62 | a blank username or password decides the login whatever the identity store holds |
| Authentication.AuthenticationService.AuthenticateAsync | BrainBuzz.web/Services/AuthenticationService.cs:45-138 | per ladder outcome: the result, session map and storage updates, and the indicator left on after the not-found and pre-check-locked returns; both indicator logs exactly: the start's notifications, then (unless left on) the update's on success and the stop's, with SignInStopEvents as the final LoadingStateChanged |
| Authentication.AuthenticationService.RegisterAsync | BrainBuzz.web/Services/AuthenticationService.cs:144-224 | blank fields, a duplicate name (reported before a duplicate email), a duplicate email; when creation fails, "Registration failed: " followed by the identity errors joined with ", "; success iff all checks pass and creation succeeds; a user is created only on success |
| Authentication.AuthenticationService.CheckAuthenticationAsync | BrainBuzz.web/Services/AuthenticationService.cs:229-283 | authenticated iff the three stored values are non-empty and the session is live; the stored values are echoed |
| Authentication.AuthenticationService.CreateSessionAsync | BrainBuzz.web/Services/AuthenticationService.cs:288-326 | the fresh id is bound in the store and the three storage keys are written |
| Authentication.AuthenticationService.LogoutAsync | BrainBuzz.web/Services/AuthenticationService.cs:331-354 | the stored session is removed only when non-empty; the three keys are deleted |
| Authentication.AuthenticationService.ValidateSessionAsync | BrainBuzz.web/Services/AuthenticationService.cs:359-375 | valid iff the id is non-empty and live |
| Authentication.LoginCheckLogout | BrainBuzz.web/Services/AuthenticationService.cs:92-106 | after a successful login the check is authenticated with the same session id; after logout it is not and the id is gone |
| Loading.Clamp | BrainBuzz.web/Services/LoadingService.cs:75 | the result lies in the bounds and equals the value when it already does |
| Loading.Start | BrainBuzz.web/Services/LoadingService.cs:58-66 | loading on, message and percentage stored unclamped |
| Loading.Update | BrainBuzz.web/Services/LoadingService.cs:68-78 | no change while not loading; otherwise new message and percentage clamped to 0..100 |
| Loading.Stop | BrainBuzz.web/Services/LoadingService.cs:80-88 | back to exactly the initial state |
| Loading.StateChangedEvents | BrainBuzz.web/Services/LoadingService.cs:20-25 | one event exactly when IsLoading flips, none otherwise |
| Loading.RepeatedStartOrStopNotifiesOnce | BrainBuzz.web/Services/LoadingService.cs:15-27 | two starts, or two stops, raise at most one LoadingStateChanged |
| Loading.UpdateNeverNotifies | BrainBuzz.web/Services/LoadingService.cs:68-78 | an update raises no LoadingStateChanged |
| Loading.StartNotifications | BrainBuzz.web/Services/LoadingService.cs:58-66 | at most three names; "IsLoading" among them iff the indicator was off |
| Loading.UpdateNotifications | BrainBuzz.web/Services/LoadingService.cs:68-78 | at most two names, never "IsLoading", none while not loading |
| Loading.StopNotifications | BrainBuzz.web/Services/LoadingService.cs:80-88 | "IsLoading" among them iff the indicator was on; none iff it was already in the initial state |
| Loading.LoadingService.constructor | BrainBuzz.web/Services/LoadingService.cs:10-12 | not loading, "Loading...", 0 |
| Loading.LoadingService.SetIsLoading | BrainBuzz.web/Services/LoadingService.cs:15-27 | stores the value; notifies only on a change |
| Loading.LoadingService.SetLoadingMessage | BrainBuzz.web/Services/LoadingService.cs:29-40 | stores the value; raises a property change only on a change |
| Loading.LoadingService.SetLoadingPercentage | BrainBuzz.web/Services/LoadingService.cs:42-53 | stores the value; raises a property change only on a change |
| Loading.LoadingService.StartLoading | BrainBuzz.web/Services/LoadingService.cs:58-66 | new state is Start of the old one; the LoadingStateChanged log grows by StateChangedEvents and the PropertyChanged log by exactly StartNotifications |
| Loading.LoadingService.UpdateLoading | BrainBuzz.web/Services/LoadingService.cs:68-78 | new state is Update of the old one; no LoadingStateChanged; the PropertyChanged log grows by exactly UpdateNotifications (nothing unless loading, then the message and clamped percentage, each only if changed) |
| Loading.LoadingService.StopLoading | BrainBuzz.web/Services/LoadingService.cs:80-88 | new state is Stop of the old one; its event carries the old message; the PropertyChanged log grows by exactly StopNotifications |
| QuizCatalog.MapToQuizViewModel | BrainBuzz.web/Services/QuizService.cs:216-238 | the view carries the row's key, name, description, question count, time limit, category, difficulty, activity and creation date |
| QuizCatalog.QuizViewLosesOnlyIsDeleted | BrainBuzz.web/Services/QuizService.cs:216-238 | two quiz rows show alike iff they differ at most in IsDeleted |
| QuizCatalog.MapToQuestionViewModel | BrainBuzz.web/Services/QuizService.cs:243-269 | the option list is the non-empty slots of the four-slot list, in order A..D; the order is the key |
| QuizCatalog.QuestionViewLosesOnlyIsDeleted | BrainBuzz.web/Services/QuizService.cs:243-269 | two question rows show alike iff they differ at most in IsDeleted |
| QuizCatalog.MapToQuizResultViewModel | BrainBuzz.web/Services/QuizService.cs:274-289 | the quiz name is the referenced quiz's name, or "Unknown Quiz" |
| QuizCatalog.ResultRowRoundTrip | BrainBuzz.web/Services/QuizService.cs:114-124 | saving a displayed result rebuilds the stored row |
| QuizCatalog.ResultDisplayRoundTrip | BrainBuzz.web/Services/QuizService.cs:274-289 | displaying a saved row gives back the result with its new id and quiz name |
| QuizCatalog.MissingQuizShownAsUnknown | BrainBuzz.web/Services/QuizService.cs:280 | a result whose quiz is gone shows "Unknown Quiz" |
| QuizCatalog.FindQuizIndex | BrainBuzz.web/Services/QuizService.cs:337 | the first row with the key, soft-deleted rows included; none iff no row has it |
| QuizCatalog.GetAllQuizzes | BrainBuzz.web/Services/QuizService.cs:25-39 | a permutation of the non-deleted quizzes' views, each multiplicity kept, sorted by name |
| QuizCatalog.GetActiveQuizzes | BrainBuzz.web/Services/QuizService.cs:44-58 | a permutation of the active non-deleted quizzes' views, each multiplicity kept, sorted by name |
| QuizCatalog.GetQuizById | BrainBuzz.web/Services/QuizService.cs:63-69 | none iff no live row has the key; a found quiz is a live row with that key |
| QuizCatalog.GetQuizQuestions | BrainBuzz.web/Services/QuizService.cs:74-81 | the live questions of the quiz, shown in table order; every shown question is a live row of that quiz |
| QuizCatalog.GetUserQuizResults | BrainBuzz.web/Services/QuizService.cs:86-95 | a permutation of that user's results' views, each from one of the user's rows, newest first |
| QuizCatalog.GetAllQuizResults | BrainBuzz.web/Services/QuizService.cs:141-149 | a permutation of every result's view, each from a row, newest first |
| QuizCatalog.MaxPercentage | BrainBuzz.web/Services/QuizService.cs:177 | an upper bound on every percentage that some row attains |
| QuizCatalog.GetQuizStatistics | BrainBuzz.web/Services/QuizService.cs:154-180 | zeros without results; otherwise the attempt count and the best percentage, attained by some result |
| QuizCatalog.PackOptions | BrainBuzz.web/Services/QuizService.cs:317-320 | four slots: option i in slot i, "" past the list's end |
| QuizCatalog.PackThenPresent | BrainBuzz.web/Services/QuizService.cs:245-249 | unpacking a packed list gives its non-empty options among the first four, in order |
| QuizCatalog.OptionsRoundTrip | BrainBuzz.web/Services/QuizService.cs:317-320 | at most four non-empty options survive packing and unpacking unchanged |
| QuizCatalog.StoredQuestionShowsRequest | BrainBuzz.web/Services/QuizService.cs:313-322 | a stored request question reads back with its options and correct answer |
| QuizCatalog.NewQuizRow | BrainBuzz.web/Services/QuizService.cs:296-305 | default difficulty, not deleted, question count from the request, missing time limit as 0 |
| QuizCatalog.UpdatedQuizRow | BrainBuzz.web/Services/QuizService.cs:341-346 | key, difficulty, IsDeleted and creation date kept; the rest as a new row from the request |
| QuizCatalog.SoftDeleteQuestions | BrainBuzz.web/Services/QuizService.cs:386-393 | a row is deleted afterwards iff it was before or belongs to the quiz; nothing else changes |
| QuizCatalog.SoftDeleteQuiz | BrainBuzz.web/Services/QuizService.cs:396 | the same for quiz rows |
| QuizCatalog.DeletedQuizIsHidden | BrainBuzz.web/Services/QuizService.cs:379-400 | after the cascade the quiz is absent from both listings, GetQuizById and its question list |
| QuizCatalog.DeleteLeavesOtherQuizzes | BrainBuzz.web/Services/QuizService.cs:386-388 | other quizzes' question lists are unchanged by the cascade |
| QuizCatalog.SaveQuizResultAsWritten | BrainBuzz.web/Services/QuizService.cs:100-136 | a valid result is saved; see Findings for an invalid one |
| QuizCatalog.InvalidResultEscapes | BrainBuzz.web/Services/QuizService.cs:131-135 | an invalid result escapes as an ArgumentNullException rather than returning false |
| QuizCatalog.QuizService.constructor | BrainBuzz.web/Services/QuizService.cs:17-20 | empty tables, identities from 1 |
| QuizCatalog.QuizService.SaveQuizResult | BrainBuzz.web/Services/QuizService.cs:100-136 | saved iff score, percentage and time are in range; then exactly one row copying the result is appended; otherwise nothing changes |
| QuizCatalog.QuizService.AddQuestions | BrainBuzz.web/Services/QuizService.cs:311-325 | one row per requested question, in order, under consecutive identities |
| QuizCatalog.QuizService.CreateQuiz | BrainBuzz.web/Services/QuizService.cs:294-330 | appends the quiz row and its questions, advances the quiz and question counters, leaves results and their counter; the returned view is found again by GetQuizById |
| QuizCatalog.QuizService.UpdateQuiz | BrainBuzz.web/Services/QuizService.cs:335-374 | an unknown key is an ArgumentException with nothing changed; otherwise the row is updated, all its old questions are removed (soft-deleted ones included) and the new ones appended; the question counter advances by their number, the other counters and the results stay |
| QuizCatalog.QuizService.DeleteQuiz | BrainBuzz.web/Services/QuizService.cs:379-400 | true iff a live quiz has the key; then the quiz and its questions are soft-deleted; otherwise nothing changes; results are untouched |
| Collections.Where | BrainBuzz.web/Services/QuizService.cs:28 | keeps exactly the elements passing the filter, in order |
| Collections.WhereCounts | BrainBuzz.web/Services/QuizService.cs:28 | each passing element keeps its multiplicity; the others vanish |
| Collections.SortBy | BrainBuzz.web/Services/QuizService.cs:29 | a permutation of the input, sorted |
| Collections.MapPreservesPermutation | BrainBuzz.web/Services/QuizService.cs:32-36 | mapping two arrangements of the same elements gives two arrangements of the same views |
| Collections.KeyOrderIsTotalPreorder | BrainBuzz.web/Services/QuizService.cs:29 | ordering by a collation key is total and transitive |
| Validation.ValidatePasswordStrength | BrainBuzz.web/Services/ValidationService.cs:14-31 | success iff non-blank, length 6..100 and not a weak password in lower case; each message iff the checks before it passed |
| Validation.ValidateUsername | BrainBuzz.web/Services/ValidationService.cs:36-57 | success iff non-blank, length 3..50, matching the pattern (with `$`'s trailing line feed) and not reserved; each of the five messages iff the checks before it passed and its own failed |
| Validation.UsernameTrailingNewlineAccepted | BrainBuzz.web/Services/ValidationService.cs:48 | "quizfan\n" is accepted although its last character is outside the class |
| Validation.ValidateUsernameStrict | BrainBuzz.web/Services/ValidationService.cs:36-57 | success iff length 3..50, every character in `[A-Za-z0-9_-]` and not reserved; each message iff the checks before it passed and its own failed |
| Validation.StrictDiffersOnlyOnTrailingNewline | BrainBuzz.web/Services/ValidationService.cs:48 | the two validators differ only on names ending in a line feed |
| Validation.ValidateQuizData | BrainBuzz.web/Services/ValidationService.cs:88-109 | success iff name, description, time limit and question count are all within bounds; each of the six messages iff the checks before it passed and its own failed |
| Validation.OptionMessage | BrainBuzz.web/Services/ValidationService.cs:124-129 | a bad option's message names its letter A-D; "is required" iff the option is blank, the 500-character "is too long" message otherwise |
| Validation.FirstOptionProblem | BrainBuzz.web/Services/ValidationService.cs:122-130 | none iff all options are good; otherwise the message for the first bad one |
| Validation.ValidateQuestionData | BrainBuzz.web/Services/ValidationService.cs:114-139 | the loop returns the specified verdict: success iff text, all four options and the answer are acceptable; the two question-text and two answer messages each iff the checks before passed and its own failed; an option message when an option is bad |
| Validation.FirstBadOptionReported | BrainBuzz.web/Services/ValidationService.cs:122-130 | the first bad option is named by its letter |
| Validation.CorrectAnswerLetters | BrainBuzz.web/Services/ValidationService.cs:132-136 | the answer is accepted iff it is one letter of A-D in either case |
| PasswordStrength.Judge | BrainBuzz.web/Attributes/PasswordStrengthAttribute.cs:10-41 | valid iff a non-blank string of length 6..100 not on the longer weak list; no message iff a non-string or blank value; the too-short, too-long and too-common messages each iff their own condition |
| PasswordStrength.PasswordStrengthAttribute.IsValid | BrainBuzz.web/Attributes/PasswordStrengthAttribute.cs:10-41 | the verdict is returned; ErrorMessage is set on the three message paths and untouched otherwise |
| PasswordStrength.AttributeStricterThanValidator | BrainBuzz.web/Attributes/PasswordStrengthAttribute.cs:15-40 | every password the attribute accepts, the validator accepts |
| PasswordStrength.AttributeAndValidatorDisagreeOnlyOnLetmein | BrainBuzz.web/Attributes/PasswordStrengthAttribute.cs:33 | the validator accepts and the attribute rejects iff the password is "letmein" in some case, which the attribute rejects as too common |
| PasswordStrength.MessagesAgree | BrainBuzz.web/Attributes/PasswordStrengthAttribute.cs:19-38 | when both reject with a message, the messages are the same |
| QuizResultViews.FormatTime | BrainBuzz.web/Models/ViewModels/QuizResultViewModel.cs:22-27 | for s >= 0 the display is minutes, ':' and two digits, reading back to s |
| QuizResultViews.FormatTimeNegative | BrainBuzz.web/Models/ViewModels/QuizResultViewModel.cs:22-27 | negative durations show truncated parts, e.g. -61 as "-1:-01" |
| QuizResultViews.GradeBands | BrainBuzz.web/Models/ViewModels/QuizResultViewModel.cs:29-40 | the six grade thresholds |
| QuizResultViews.GradeMonotone | BrainBuzz.web/Models/ViewModels/QuizResultViewModel.cs:29-40 | a higher percentage never gets a worse grade |
| QuizResultViews.GradeColorAgrees | BrainBuzz.web/Models/ViewModels/QuizResultViewModel.cs:42-50 | A+/A success, B/C warning, D/F danger |
| QuizViews.FormatTimeLimit | BrainBuzz.web/Models/ViewModels/QuizViewModel.cs:20 | ends in " min" and the number reads back to the limit |
| QuizViews.BadgeClassFor | BrainBuzz.web/Models/ViewModels/QuizViewModel.cs:21-27 | easy/medium/hard in any case map to their badges, anything else to badge-secondary |
| QuizViews.IconFor | BrainBuzz.web/Models/ViewModels/QuizViewModel.cs:28-37 | each of the six categories, in any case, iff its icon; the default icon iff none of the six |
| QuizViews.LookupsIgnoreCase | BrainBuzz.web/Models/ViewModels/QuizViewModel.cs:21-37 | both lookups depend only on the lower-cased input |
| QuizViews.CaseVariantsMatch | BrainBuzz.web/Models/ViewModels/QuizViewModel.cs:21-37 | case variants of a name get the same badge and icon |
| QuestionViews.QuestionViewModel.Options | BrainBuzz.web/Models/ViewModels/QuestionViewModel.cs:21 | four entries, slot i being option A..D, empty ones kept |
| QuestionViews.QuestionViewModel.CorrectAnswerDisplay | BrainBuzz.web/Models/ViewModels/QuestionViewModel.cs:22 | the caption prefix followed by the correct answer |
| QuestionViews.OptionsFollowFields | BrainBuzz.web/Models/ViewModels/QuestionViewModel.cs:21 | changing an option field changes exactly its slot |
| UserViews.ChooseDisplayName | BrainBuzz.web/Models/ViewModels/UserViewModel.cs:16 | the full name when non-empty (even all spaces), else the username |
| UserViews.Words | BrainBuzz.web/Models/ViewModels/UserViewModel.cs:24 | the split's words are non-empty and space-free |
| UserViews.WordsSpellName | BrainBuzz.web/Models/ViewModels/UserViewModel.cs:24 | together the words spell the name with its spaces removed |
| UserViews.WordCount | BrainBuzz.web/Models/ViewModels/UserViewModel.cs:24 | there is one word per position holding a non-space at the start or after a space |
| UserViews.GetInitials | BrainBuzz.web/Models/ViewModels/UserViewModel.cs:20-29 | one or two characters; "U" for an empty name; a one-character name upper-cased whole |
| UserViews.InitialsOfSeveralWords | BrainBuzz.web/Models/ViewModels/UserViewModel.cs:24-26 | with two words: the upper-cased first letters of the first two words |
| UserViews.InitialsOfOneWord | BrainBuzz.web/Models/ViewModels/UserViewModel.cs:28 | with at most one word: its first two raw characters, upper-cased, leading spaces included |
| UserViews.LeadingSpaceInitials | BrainBuzz.web/Models/ViewModels/UserViewModel.cs:28 | " bob" is one word and shows " B" |
| UserViews.AnonymousUserInitials | BrainBuzz.web/Models/ViewModels/UserViewModel.cs:16-22 | no full name and no username shows "U" |
| QuizCategories.CategoriesDistinct | BrainBuzz.web/Constants/QuizCategories.cs:8-30 | twenty pairwise-distinct entries |
| QuizCategories.GetAllCategories | BrainBuzz.web/Constants/QuizCategories.cs:35-38 | a fresh array equal to the list |
| QuizCategories.IsValidCategory | BrainBuzz.web/Constants/QuizCategories.cs:43-46 | valid iff some entry matches ignoring case |
| QuizCategories.ListedCategoriesValid | BrainBuzz.web/Constants/QuizCategories.cs:35-46 | every listed entry is valid, in upper or lower case too |
| AppRoutes.AdminQuizzesWithFilter | BrainBuzz.web/Constants/AppRoutes.cs:36-43 | the base route, or it with ?active=true / ?active=false |
| AppRoutes.AdminQuizzesEditWithId | BrainBuzz.web/Constants/AppRoutes.cs:45-48 | the edit prefix then the decimal id, which reads back; '-' iff negative |
| AppRoutes.EditRoutesDistinct | BrainBuzz.web/Constants/AppRoutes.cs:45-48 | distinct ids give distinct routes |
| ErrorHandling.StatusCode | BrainBuzz.web/Middleware/GlobalErrorHandlingMiddleware.cs:47-55 | 400 for argument exceptions (null included), 401, 408, 409, else 500 |
| ErrorHandling.MiddlewareMessage | BrainBuzz.web/Middleware/GlobalErrorHandlingMiddleware.cs:65-76 | each of the six messages iff the exception falls in its arm; everything else, ValidationException included, gets the unexpected message |
| ErrorHandling.GetUserFriendlyErrorMessage | BrainBuzz.web/Services/ErrorHandlingService.cs:13-25 | each of the seven messages iff the exception falls in its arm |
| ErrorHandling.MessageDeterminesStatus | BrainBuzz.web/Middleware/GlobalErrorHandlingMiddleware.cs:47-75 | the message and the status code come from the same category |
| ErrorHandling.HandleException | BrainBuzz.web/Middleware/GlobalErrorHandlingMiddleware.cs:37-45 | never a success; details present iff in development |
| ErrorHandling.ServiceAgreesWithMiddleware | BrainBuzz.web/Services/ErrorHandlingService.cs:13-25 | the service's messages equal the middleware's except for a ValidationException |
| ErrorHandling.LogLevelFor | BrainBuzz.web/Services/ErrorHandlingService.cs:49-63 | warning iff argument, validation or unauthorized, else error |
| ErrorHandling.LogError | BrainBuzz.web/Services/ErrorHandlingService.cs:47-64 | logs at the chosen level; a null logger throws ArgumentNullException |
| ErrorHandling.CreateErrorResponse | BrainBuzz.web/Services/ErrorHandlingService.cs:69-79 | never a success; message, details and code copied unchanged |
| Text.ParseNatToDecimal | BrainBuzz.web/Constants/AppRoutes.cs:47 | decimal formatting of a natural number reads back |
| Text.IntToDecimalRoundTrip | BrainBuzz.web/Models/ViewModels/QuizViewModel.cs:20 | decimal formatting of an integer, sign included, reads back |
| Text.FormatD2TwoDigits | BrainBuzz.web/Models/ViewModels/QuizResultViewModel.cs:26 | `D2` of 0..99 is two digits that read back |

## Left out

- Locks in the session and loading services: the model is sequential, with no concurrency.
- The session dictionary is static. This is modelled as one `SessionService` object that every authentication service holds by reference, not as a class-level field.
- The identity framework (UserManager, SignInManager) is an oracle record of total functions: name lookup, email lookup, locked-out, password check and create. Password hashing, lockout counting and identity configuration are not modelled.
- Session ids are GUIDs in the application. Here the caller passes the fresh id in.
- The debug code in AuthenticationService is not modelled: JavaScript `eval`, the extra localStorage reads and console output. Logging is omitted everywhere except the null-logger throw described under Findings.
- Exceptions thrown by collaborators are not modelled: the catch blocks of AuthenticateAsync, RegisterAsync, CheckAuthenticationAsync and CreateSessionAsync. `SignOutAsync` in LogoutAsync is not modelled either.
- ValidateEmail is not modelled, because it depends on the `System.Net.Mail.MailAddress` parser.
- GetQuizStatistics leaves out AverageScore, AverageTime and CompletionRate. They use double averages and `Math.Round`.
- Percentages are `real`, so NaN and infinities are not represented.
- Entity Framework is not modelled: persistence, `SaveChangesAsync`, `Include`, foreign-key enforcement and database failures.
- Identity columns are per-table counters.
- CreatedDate is a caller-supplied tick count, not `DateTime.UtcNow`. Date formatting and response timestamps are not modelled.
- GetAllQuizzes, GetActiveQuizzes: the collation is a caller-supplied key compared ordinally. Sortedness and permutation are stated; the order among equal keys is unspecified, as in SQL.
- GetUserQuizResults, GetAllQuizResults: the order among equal CompletedAt values is likewise unspecified.
- GetQuizQuestions returns rows in table order; the database gives no ordering guarantee there.
- Case mapping is ASCII-only and strings are sequences of Unicode scalars. Culture-specific casing and UTF-16 surrogate pairs are not modelled.
- `MapToQuizViewModelAsync` is not modelled. It sets `Id`, `Title`, `Questions` and other properties that the quiz view model does not declare. The synchronous mapping is modelled with the properties the view model has.
- `MapToQuestionViewModel` is modelled on its own `QuestionView` record. It assigns a filtered list to `Options`, which the question view model only computes. `QuestionView.Slots` gives the four-slot view beside it.
- QuizCatalog.QuizService.UpdateQuiz: the error carries the exception kind but not its message "Quiz not found".
- The following are not part of this model:
  - ToastService, QueryStringService, UserService, AuthorizeRoleAttribute;
  - GetValidationErrors and the middleware's JSON serialisation and HTTP write;
  - DataSeeder, Program and the page scripts.
- DataAnnotations attributes on the request classes are enforced by the framework and are not modelled; the requests are plain records.

## Findings

| source | as written | input that shows it | evidently intended | confidence | as-written member | corrected member |
|---|---|---|---|---|---|---|
| BrainBuzz.web/Services/QuizService.cs:133 | the catch block passes a null logger to LogError, whose logging call rejects a null logger | a result with Score = -1 | return false and store nothing | high; not executed | QuizCatalog.SaveQuizResultAsWritten (QuizCatalog.InvalidResultEscapes) | QuizCatalog.QuizService.SaveQuizResult |
| BrainBuzz.web/Services/ValidationService.cs:48 | `^[a-zA-Z0-9_-]+$` without `\z`; .NET's `$` also matches before a final line feed | "quizfan\n" | only letters, digits, underscore and dash | high; not executed | Validation.ValidateUsername (Validation.UsernameTrailingNewlineAccepted) | Validation.ValidateUsernameStrict |
