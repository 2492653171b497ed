# Content-plan quiz: navigator, feedback report and consultation form

A Dafny model of the logic of a client-side questionnaire. The user walks through a fixed
catalog of multiple-choice questions. On the result card, each answered question gets a
diagnosis and a recommendation from the first feedback bracket that holds the chosen
option's value. The user can then send a consultation request through a four-field form
that is validated before anything is sent.

Modules, one per source file (plus two helpers):

- `QuizTypes` (types.ts): `QuizOption`, `QuestionFeedback`, `Question`, `QuizState`,
  `ConsultationForm`, and the answer map `map<int, string>` from question id to option id.
  `Lookup` reads `answers[id]`; a missing key is `undefined`, written `None`.
- `Navigator` (App.tsx): the state updaters of the App component as pure functions
  (`Initial`, `Record`, `Next`, `Back`) and the progress formula. `Step` and `Run` apply
  sequences of user actions. The class `QuizController` holds the state in fields, and its
  handlers are proved to make exactly those updates.
- `Feedback` (components/ResultCard.tsx, pure part): the two first-match searches of
  `getFeedbackForQuestion`, the three score colours, and the report rows. React drops the
  `null` entries of `questions.map(...)`; `Shown` does the same.
- `Consultation` (components/ResultCard.tsx, stateful part): `validateForm` as a method
  that fills an error record field by field, and the class `ConsultationPanel`. That class
  holds the form state: the combining effect for the number, `handleFormChange`, the
  submit gate, and the flags that the submission flips.
- `QuestionLayout` (components/QuestionCard.tsx): the scale-or-list decision, the
  selected mark, and the buttons with the id each click reports.
- `JsString`: JavaScript's `trim` (the ECMAScript WhiteSpace and LineTerminator set) and
  `replace(/\D/g, '')`. `Wrappers`: the `Option` type.

Behaviour of the code that the model keeps as it is:

- Every answer schedules an advance 400 ms later (App.tsx:27-29), and nothing cancels a
  pending one. Answering twice before the timer fires therefore moves on by two questions
  (`Navigator.DoubleSelectAdvancesTwice`). On the second-to-last question the first
  advance brings up the last question, which stays on screen only until the second
  pending advance fires; the quiz then finishes without waiting for an answer to it
  (`Navigator.DoubleSelectOnPenultimateFinishes`).
- `handleNext` on a finished quiz changes nothing only because a finished quiz is on its
  last question. `handleBack` (App.tsx:42-47) has no `isFinished` guard of its own; the
  screen hides the question card and the navigation once the quiz is finished
  (App.tsx:95). `Navigator.OfferedRunFinishesAtLast` proves that on every action sequence
  the screen offers, a finished quiz is on its last question, so a late advance is a
  no-op.
- The submit button is disabled while a request is in flight (components/ResultCard.tsx:346).
  `Consultation.ConsultationPanel.HandleFormSubmit` therefore runs only when no
  submission is pending.
- The catalog, the URL pattern and the submission endpoint are constants in the code. Here
  they are constructor parameters. The catalog must be non-empty, because the first
  render reads the question at index 0 and its id (App.tsx:16, App.tsx:98).

## Model

| member | source | states |
|---|---|---|
| `QuizTypes.Lookup` | App.tsx:100 | `answers[id]` is defined exactly when the question was answered, and then it is the recorded option id |
| `Navigator.Initial` | App.tsx:9-13 | the initial state has index 0, no answers and is not finished |
| `Navigator.Record` | App.tsx:21-24 | the updater of handleSelectOption: afterwards the question's answer is the chosen option, every other question's answer is as before, and the index and the flag are unchanged |
| `Navigator.Next` | App.tsx:33-39 | the updater of handleNext: the answers are unchanged, an in-range index stays in range, the quiz is finished exactly when it was or the index was the last one, and the index moves by at most one |
| `Navigator.Back` | App.tsx:43-46 | the updater of handleBack: the answers and the flag are unchanged, the index goes down by at most one, and it stays put exactly at index 0 |
| `Navigator.Progress` | App.tsx:17 | `(index + 1) / count * 100` lies in (0, 100] when the index is in range, and is 100 at the last question |
| `Navigator.ProgressExample` | App.tsx:17 | index 4 of 10 questions gives 50 |
| `Navigator.AdvanceBeforeLast` | App.tsx:32-40 | advancing before the last index adds exactly 1 to the index and keeps the answers and the flag |
| `Navigator.AdvanceAtLast` | App.tsx:34-36 | advancing at the last index only sets `isFinished`, and a second advance changes nothing |
| `Navigator.RetreatTransitions` | App.tsx:42-47 | retreating at index 0 returns the state unchanged; otherwise it subtracts 1 from the index and changes nothing else, `isFinished` included |
| `Navigator.RecordLastWriteWins` | App.tsx:19-24 | recording sets the current question's answer, keeps every other key and both other fields, and a second record for the same question overwrites the first |
| `Navigator.Step` | App.tsx:19-55 | every handler keeps the index inside the catalog |
| `Navigator.Run` | App.tsx:19-55 | any sequence of handler calls keeps `0 <= index < |catalog|` |
| `Navigator.RunAppend` | App.tsx:19-55 | running two sequences one after the other is running their concatenation |
| `Navigator.ResetAfterAnyRun` | App.tsx:49-55 | reset after any sequence of operations yields exactly the initial state |
| `Navigator.AdvancesFrom` | App.tsx:32-40 | from an unfinished state at index i, k advances reach index i + k while that is in range, and otherwise stop at the last index with the quiz finished; the answers are unchanged |
| `Navigator.AtLastAdvancesStay` | App.tsx:34-36 | once finished at the last index, any number of advances leaves the state unchanged |
| `Navigator.AdvanceCountFromInitial` | App.tsx:9-13 | from the start, n + 1 advances reach index n + 1 if it exists and otherwise finish the quiz |
| `Navigator.OfferedRunFinishesAtLast` | App.tsx:32-47 | along any sequence of actions the screen offers, a finished quiz sits on the last question, so a late auto-advance is a no-op |
| `Navigator.DoubleSelectAdvancesTwice` | App.tsx:19-30 | two answers before the timer fires leave the second answer recorded and advance the index by two, because the pending advance is never cancelled |
| `Navigator.DoubleSelectOnPenultimateFinishes` | App.tsx:19-39 | two answers on the second-to-last question before the timer fires bring up the last question after the first advance, with the finished flag as it was (so unfinished when the quiz was); the second advance then finishes the quiz at the last index with only the second answer recorded, without waiting for an answer to the last question |
| `Navigator.QuizController.constructor` | App.tsx:9-13 | the component starts in the initial state over the given catalog |
| `Navigator.QuizController.CurrentQuestion` | App.tsx:16 | the current question is a catalog question |
| `Navigator.QuizController.ProgressPercent` | App.tsx:17 | the progress of the live state lies in (0, 100] |
| `Navigator.QuizController.SelectedOptionId` | App.tsx:100 | the card's selection is defined exactly when the current question was answered, and then it is the option id recorded for it |
| `Navigator.QuizController.HandleSelectOption` | App.tsx:19-24 | upserts the answer for the current question and changes no other key, the index or the flag |
| `Navigator.QuizController.HandleNext` | App.tsx:32-40 | at the last index it sets `isFinished` and keeps the index; before it, it adds 1 to the index; the answers are unchanged |
| `Navigator.QuizController.HandleBack` | App.tsx:42-47 | it does nothing at 0 and otherwise subtracts 1 from the index; the answers and the flag are unchanged |
| `Navigator.QuizController.ResetQuiz` | App.tsx:49-55 | the state becomes exactly the initial state |
| `JsString.Trim` | components/ResultCard.tsx:108 | the result is the middle of the input with only whitespace cut off at either end, it has no whitespace at either end, and it is empty exactly when the input is all whitespace |
| `JsString.TrimOfTrimmed` | components/ResultCard.tsx:129 | a string with no whitespace at either end trims to itself |
| `JsString.DigitsOnly` | components/ResultCard.tsx:115 | removing the non-digits leaves only ASCII digits and is never longer than the input |
| `JsString.DigitsOnlyAppend` | components/ResultCard.tsx:115 | the digits of a concatenation are the digits of each part, in order: no digit is lost or moved |
| `JsString.DigitsOnlyOfChar` | components/ResultCard.tsx:115 | a single digit is kept and any other single character is dropped |
| `JsString.DigitsOnlyOfDigits` | components/ResultCard.tsx:115 | a string made only of digits keeps all of them |
| `JsString.DigitsOnlyOfWhitespace` | components/ResultCard.tsx:116 | a blank number has no digits, so the blank test adds nothing to the five-digit test |
| `Feedback.FindOption` | components/ResultCard.tsx:71 | returns nothing exactly when no option has the id; otherwise returns the first option with that id |
| `Feedback.FindBracket` | components/ResultCard.tsx:75 | returns nothing exactly when no bracket's range holds the value; otherwise returns the first bracket, in list order, that holds it |
| `Feedback.GetFeedbackForQuestion` | components/ResultCard.tsx:70-77 | null exactly when the answer is undefined or names no option; otherwise the value of the first option with that id, with the first bracket holding it, or no bracket (but still the value) when none holds it |
| `Feedback.ThirdBracketForFour` | components/ResultCard.tsx:75-76 | with brackets {1,2}, {3}, {4,5} and a chosen value of 4, the third bracket is returned |
| `Feedback.ScoreColorFor` | components/ResultCard.tsx:194-196 | emerald exactly when value >= 4, red exactly when value <= 2, amber exactly when value is 3; the three are disjoint and cover every value |
| `Feedback.RenderQuestion` | components/ResultCard.tsx:187-196 | a question gets a row exactly when it was answered with one of its options and some bracket holds that option's value; the row carries the resolver's value and bracket and the score colour |
| `Feedback.RenderRows` | components/ResultCard.tsx:187-190 | the mapped list has one entry per catalog question, and entry i is the callback's result for question i at position i |
| `Feedback.Shown` | components/ResultCard.tsx:187-190 | dropping the null entries never lengthens the list, every shown row is one of the non-null entries, and an all-null list shows nothing |
| `Feedback.ShownRows` | components/ResultCard.tsx:187-190 | dropping the null entries keeps every non-null entry, each at its own position, with positions strictly increasing |
| `Feedback.ReportInCatalogOrder` | components/ResultCard.tsx:187-190 | the report holds exactly the questions whose resolver result has a bracket, each once, in catalog order, each row being the one the callback builds for that question |
| `Consultation.ValidateForm` | components/ResultCard.tsx:103-136 | all four checks run: the name error is set iff the trimmed name has under 3 characters, the phone error iff the local number has under 5 digits (blank included), the website error iff it is blank or fails the URL pattern, and the problems error iff the trimmed text has under 10 characters; the result is true iff no error was recorded |
| `Consultation.NameInvalid` | components/ResultCard.tsx:108 | the name rule: a blank name, or any name under 3 characters, fails |
| `Consultation.PhoneInvalid` | components/ResultCard.tsx:115-116 | the phone rule: a blank number has no digits and fails, and so does any number under 5 characters |
| `Consultation.WebsiteInvalid` | components/ResultCard.tsx:122-123 | the website rule: a blank address fails, and an address passes only if the URL pattern accepts it |
| `Consultation.ProblemsInvalid` | components/ResultCard.tsx:129 | the description rule: a blank description, or any under 10 characters, fails |
| `Consultation.FieldErrors` | components/ResultCard.tsx:104-135 | each field's message is set exactly when that field's rule fails, and the record is empty exactly when all four rules pass |
| `Consultation.MessagesDistinct` | components/ResultCard.tsx:109-130 | the four field messages are pairwise different |
| `Consultation.NameSamples` | components/ResultCard.tsx:108 | "Al" fails the name rule and "Ahmed Ali" passes it |
| `Consultation.PhoneSamples` | components/ResultCard.tsx:115-116 | "123" fails the phone rule and "0100000000" passes it |
| `Consultation.ProblemsSamples` | components/ResultCard.tsx:129 | "short" fails the description rule and a 33-character description passes it |
| `Consultation.WebsiteSample` | components/ResultCard.tsx:123 | an address the URL pattern accepts passes the website rule |
| `Consultation.FourErrorsAtOnce` | components/ResultCard.tsx:104-135 | "Al" / "123" / "notaurl" / "short" yields all four errors at once |
| `Consultation.WellFormedRequestPasses` | components/ResultCard.tsx:104-135 | a well-formed request yields no error |
| `Consultation.CombinedNumber` | components/ResultCard.tsx:61 | the WhatsApp number is the country code followed by the local number, and both parts can be read back from it |
| `Consultation.ContainsText` | components/ResultCard.tsx:145 | `includes` holds exactly when some position of the text starts an occurrence of the part |
| `Consultation.EndpointConfigured` | components/ResultCard.tsx:145 | the endpoint is accepted exactly when it is non-empty and the placeholder occurs nowhere in it |
| `Consultation.PlaceholderEndpointRefused` | components/ResultCard.tsx:145 | an address that embeds the placeholder anywhere is refused |
| `Consultation.ConsultationPanel.constructor` | components/ResultCard.tsx:39-54 | the form starts hidden, unsent and empty, with country code +20 and the number already combined |
| `Consultation.ConsultationPanel.ShowForm` | components/ResultCard.tsx:261 | opening or closing the form sets only that flag |
| `Consultation.ConsultationPanel.SetCountryCode` | components/ResultCard.tsx:58-68 | a new country code re-combines the stored number, clears a set phone error when the local number is longer than five characters (even one still too short in digits), and keeps everything else |
| `Consultation.ConsultationPanel.SetLocalPhone` | components/ResultCard.tsx:58-68 | a new local number re-combines the stored number; a phone error is cleared once the number is longer than five characters |
| `Consultation.ConsultationPanel.NumberChanged` | components/ResultCard.tsx:58-68 | the effect stores country code plus local number and clears the phone error only past five characters |
| `Consultation.ConsultationPanel.HandleFormChange` | components/ResultCard.tsx:95-101 | typing in a field stores the text and clears that field's error only |
| `Consultation.ConsultationPanel.Validate` | components/ResultCard.tsx:103-136 | the errors shown become the ones the four checks find; the result says whether there are none |
| `Consultation.ConsultationPanel.HandleFormSubmit` | components/ResultCard.tsx:138-157 | a payload is dispatched iff every field passes and the endpoint is configured; it is the form, with the WhatsApp number equal to country code plus local number; when nothing is dispatched the submitting flag stays down; it runs only while no submission is pending, as the disabled button (line 346) ensures |
| `Consultation.ConsultationPanel.FinishSubmission` | components/ResultCard.tsx:159-176 | on delivery the form is marked sent and hidden; in every case the submitting flag goes down |
| `QuestionLayout.AllShort` | components/QuestionCard.tsx:13 | true exactly when every option's text has at most 2 characters |
| `QuestionLayout.IsNumericScale` | components/QuestionCard.tsx:13 | true exactly when the question has 5 options whose texts all have at most 2 characters |
| `QuestionLayout.IsSelected` | components/QuestionCard.tsx:31 | an option is marked exactly when the selection is defined and equals its id; an undefined selection marks nothing |
| `QuestionLayout.RenderButtons` | components/QuestionCard.tsx:30-57 | one button per option, in order, each showing the option's text, reporting its id on click, and marked exactly when the selection is that id |
| `QuestionLayout.RenderCard` | components/QuestionCard.tsx:29-80 | the grid layout and the 1-5 legend appear exactly for a numeric scale; in both layouts every option is rendered once, in order, reporting its own id |
| `QuestionLayout.ListUnlessFiveOptions` | components/QuestionCard.tsx:13 | any option count other than 5 gives the list layout |
| `QuestionLayout.NothingMarkedWithoutSelection` | components/QuestionCard.tsx:31 | with no selection no option is marked |
| `QuestionLayout.AtMostOneMarked` | components/QuestionCard.tsx:31 | with distinct option ids at most one option is marked |
| `QuestionLayout.ClickMarksClickedOption` | components/QuestionCard.tsx:37 | clicking an option records exactly its id for the current question, and the card drawn afterwards marks it and, with distinct ids, no other |

## Left out

- The 400 ms delay before the auto-advance (App.tsx:27-29) is time, not state. The advance arrives as a separate `Advance` action, or a `HandleNext` call, at any later point.
- `getResult` and the `QUESTIONS` catalog come from a constants module that is not part of this model. The catalog is a parameter, and the overall result classifier is not modelled.
- The URL regular expression (components/ResultCard.tsx:122) is the parameter `matchesUrl: string -> bool`. Regular-expression matching is not modelled.
- The PDF export (components/ResultCard.tsx:79-93) is left out because it is a call to an outside renderer.
- The `fetch` to the spreadsheet endpoint is reduced to a payload plus a `delivered` outcome. The alerts and the console log are dropped.
- services/geminiService.ts is left out because it is a network call to an outside text-generation service.
- JSX, CSS classes, the country table and the animation keys are rendering only. The disabled submit button is modelled as the precondition `!isSubmitting` of `Consultation.ConsultationPanel.HandleFormSubmit`.
- `Math.round(progress)` and floating-point rounding are not modelled: `Navigator.Progress` is an exact real.
- `JsString.Trim`: JavaScript counts string length in UTF-16 code units, and Dafny counts Unicode scalar values. A character outside the Basic Multilingual Plane counts 2 in the source and 1 here. The same holds for `QuestionLayout.AllShort`, `Consultation.ValidateForm` and the five-character test in `Consultation.ConsultationPanel.SetLocalPhone`.
- `Consultation.ConsultationPanel.HandleFormSubmit` stops at the request being handed over. The wait for the request is modelled by `FinishSubmission`.
- React batches state updates and effects run after rendering. Each handler here takes effect at once, and the number-combining effect runs inside the handlers that change the number.
