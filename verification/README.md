# MindMate self-assessment core, modelled in Dafny

MindMate is a mental-health self-assessment web app. It has three pieces of logic, and this project models all three.

- **Scoring service** (`Backend/api_server.py`). The `/assess` endpoint sums the integer responses. It then dispatches on the questionnaire token, compared after upper-casing. `interpret_gad7` or `interpret_phq9` maps the total to a (severity, interpretation) pair using the published GAD-7 and PHQ-9 cut-offs. Any other token gets `("Unknown", "Invalid questionnaire type.")`, and the sum is still reported.
- **Questionnaire wizard** (`phq9-form.tsx` with 9 questions and `gad7-form.tsx` with 7). The two forms have the same logic, so it is written once as module `Wizard`, parameterised by a `Questionnaire` (token and question count). Module `Questionnaires` holds the two instances and their prompt lists.
  - The state is the current index, one answer string per question (`""` means unanswered), and the `loading`, `showResults` and `result` flags.
  - The transitions are answer, next, previous, submit and the submission outcome.
  - The fetch is abstracted. `Next` emits the request payload, and `Resolve` receives either the reply or a failure.
- **Chat box** (`ChatBox.tsx`). The transcript is an append-only sequence of user and AI messages, plus the input field and a loading flag. `Send` is the synchronous half of `sendMessage`. `Resolve` appends the single AI message for the reply or the failure.

Module `JsText` holds the two JavaScript string operations the front end depends on: `String.prototype.trim` and radix-less `parseInt`.

Four facts about the code shape the model:
- The forms have no `Failed` phase. A failed submission only logs, drops `loading` and returns to the question view (`Wizard.FailedSubmissionRestores`).
- `sendMessage` has no busy guard. The Enter key calls it even while a reply is pending (`Chat.SendWhileLoadingIsAccepted`). Any reply clears `loading`, even if another request is still out. The chat state therefore also counts the requests still outstanding, so that a reply is only taken for a request that was sent.
- Answering stores whatever string the radio group hands over. Nothing rejects an out-of-range value. When only option values are written, the submitted numbers are in 0..3 (`Wizard.PayloadInRange`).
- The service validates neither the length nor the range of the responses. `Scoring.Assess` is total over every token and every integer list.

## Model

| member | source | states |
|---|---|---|
| Scoring.InterpretGad7 | Backend/api_server.py:37-45 | the result is the entry of the four-row GAD-7 table at the number of cut-offs 5, 10, 15 the score reaches, for every integer including negatives |
| Scoring.InterpretPhq9 | Backend/api_server.py:47-57 | the result is the entry of the five-row PHQ-9 table at the number of cut-offs 5, 10, 15, 20 the score reaches, for every integer |
| Scoring.RankOfIncreasing | Backend/api_server.py:37-57 | on increasing cut-offs, a score that is at least the k-th cut-off and below the next one has band k |
| Scoring.RankOnlyIf | Backend/api_server.py:37-57 | conversely, on increasing cut-offs a score of band k is at least the k-th cut-off and below the next one, so with `RankOfIncreasing` the band is k exactly when the score lies there |
| Scoring.RankMonotone | Backend/api_server.py:37-57 | a higher score never falls in a lower band |
| Scoring.Gad7Monotone | Backend/api_server.py:37-45 | GAD-7 severity position is non-decreasing in the score |
| Scoring.Phq9Monotone | Backend/api_server.py:47-57 | PHQ-9 severity position is non-decreasing in the score |
| Scoring.Gad7SeverityDeterminesText | Backend/api_server.py:37-45 | two GAD-7 results with the same severity carry the same interpretation |
| Scoring.Phq9SeverityDeterminesText | Backend/api_server.py:47-57 | two PHQ-9 results with the same severity carry the same interpretation |
| Scoring.TotalScore | Backend/api_server.py:62 | the one-pass left-to-right accumulation equals the sum of all responses, for a list of any length and any integers |
| Scoring.Sum | Backend/api_server.py:62 | if every response is in 0..3, the total is in [0, 3n] |
| Scoring.SumFront | Backend/api_server.py:62 | the total is the first response plus the total of the rest, so accumulating from either end gives the same sum |
| Scoring.SumUniform | Backend/api_server.py:62 | a list whose every response is v totals its length times v |
| Scoring.SumConstant | Backend/api_server.py:62 | n equal responses v total n * v |
| Scoring.UpperChar | Backend/api_server.py:64 | lower-case ASCII letters map to their upper-case letter, and every other character is unchanged |
| Scoring.Upper | Backend/api_server.py:64-66 | upper-casing keeps the length and upper-cases each character in place |
| Scoring.UpperIdempotent | Backend/api_server.py:64-66 | upper-casing twice equals upper-casing once |
| Scoring.UpperFixesUpperCase | Backend/api_server.py:64-66 | a string with no lower-case letter is its own upper-case form |
| Scoring.CanonicalTokens | Backend/api_server.py:64-66 | "GAD-7" and "PHQ-9" are already upper case, so both match themselves |
| Scoring.Dispatch | Backend/api_server.py:64-69 | a token that upper-cases to "GAD-7" gives the GAD-7 table's band for the total, one that upper-cases to "PHQ-9" gives the PHQ-9 table's band for the total, and any other gives the Unknown pair |
| Scoring.Assess | Backend/api_server.py:60-75 | the reply's total is the sum of the responses, and its severity and interpretation form the band of that total in the table the token selects, or "Unknown" / "Invalid questionnaire type." |
| Scoring.AssessCaseInsensitive | Backend/api_server.py:64-66 | tokens that differ only in letter case are scored identically |
| Scoring.LowerCaseGad7Token | Backend/api_server.py:64-65 | "gad-7" gives the same reply as "GAD-7", whose severity and interpretation are the GAD-7 band of the summed responses |
| Scoring.UnknownTokenKeepsScore | Backend/api_server.py:68-75 | every token that does not upper-case to "GAD-7" or "PHQ-9" still returns the summed score of any response list, with "Unknown" and "Invalid questionnaire type." |
| JsText.IsWhitespace | Frontend/components/ChatBox.tsx:19 | no character of the JavaScript white-space and line-terminator set is a decimal digit or a sign |
| JsText.TrimStart | Frontend/components/ChatBox.tsx:19 | the result is the suffix left after a blank prefix, and it does not start with white space |
| JsText.TrimEnd | Frontend/components/ChatBox.tsx:19 | the result is the prefix left before a blank suffix, and it does not end with white space |
| JsText.Trim | Frontend/components/ChatBox.tsx:19 | the result is a slice of the input between a blank prefix and a blank suffix, and it neither starts nor ends with white space |
| JsText.TrimEmptyIffBlank | Frontend/components/ChatBox.tsx:19 | `!input.trim()` holds exactly when the input is empty or white space only |
| JsText.DigitRun | Frontend/components/phq9-form.tsx:73 | the length of the maximal run of leading decimal digits |
| JsText.ParseInt | Frontend/components/phq9-form.tsx:73 | `parseInt` gives NaN (None) exactly when no digit follows the leading white space and optional sign |
| JsText.ParseIntOfDigits | Frontend/components/phq9-form.tsx:73 | a non-empty all-digit string parses to its decimal value |
| JsText.ParseIntOfDigit | Frontend/components/phq9-form.tsx:73 | a single digit parses to its value |
| JsText.DigitRunAll | Frontend/components/phq9-form.tsx:73 | an all-digit string is read in full |
| JsText.DecimalString | Frontend/components/phq9-form.tsx:73 | the decimal rendering of a natural number is a non-empty string of digits |
| JsText.DecimalRoundTrip | Frontend/components/phq9-form.tsx:73 | reading back the decimal rendering of n gives n |
| JsText.ParseIntRoundTrip | Frontend/components/phq9-form.tsx:73 | `parseInt` inverts the decimal rendering of every natural number |
| JsText.ParseIntEmpty | Frontend/components/phq9-form.tsx:73 | the unanswered value "" parses to NaN |
| JsText.Unsigned | Frontend/components/phq9-form.tsx:73 | a leading '+' or '-' is dropped, and nothing else is |
| Wizard.Init | Frontend/components/phq9-form.tsx:35-39 | a fresh form is at question 0, with one unanswered slot per question, nothing loading and no result; the GAD-7 form does the same at gad7-form.tsx:46-50 |
| Wizard.Complete | Frontend/components/phq9-form.tsx:41 | the answers are complete exactly when no slot holds the unanswered value "" |
| Wizard.Progress | Frontend/components/phq9-form.tsx:42 | progress times the question count equals (index + 1) * 100 |
| Wizard.Answer | Frontend/components/phq9-form.tsx:44-48 | the value is written at the current question only, every other slot and every flag is unchanged, and the length is kept (the same handler is gad7-form.tsx:55-59) |
| Wizard.AnswerIdempotent | Frontend/components/phq9-form.tsx:44-48 | answering the same value twice equals answering it once |
| Wizard.AnswerOverwrites | Frontend/components/phq9-form.tsx:44-48 | a second answer to the same question replaces the first |
| Wizard.OptionValueParses | Frontend/components/phq9-form.tsx:27-32 | each option string "0" to "3" parses to its position 0 to 3 |
| Wizard.SlotParses | Frontend/components/phq9-form.tsx:73 | a stored option value parses to its position among the options, and the unanswered "" parses to NaN |
| Wizard.PayloadOf | Frontend/components/phq9-form.tsx:71-74 | the payload carries the form's token and, position by position and of the same length, each slot through `parseInt`; an option value becomes its number 0..3 and an unanswered slot becomes NaN |
| Wizard.ToRequest | Backend/api_server.py:21-23 | the service accepts the payload exactly when no entry is NaN, and then keeps the token and the numbers in order |
| Wizard.Next | Frontend/components/phq9-form.tsx:50-56 | a request is sent iff the form is at the last question and every slot is answered; below the last question the index rises by one; at the last question while incomplete nothing changes; answers are never touched (the same handler is gad7-form.tsx:61-67) |
| Wizard.Previous | Frontend/components/phq9-form.tsx:58-62 | the index drops by one above question 0 and is unchanged at 0, staying in range (the same handler is gad7-form.tsx:69-73) |
| Wizard.PreviousUndoesNext | Frontend/components/phq9-form.tsx:50-62 | below the last question, previous after next returns exactly the state before, so the two handlers are inverse there |
| Wizard.Resolve | Frontend/components/phq9-form.tsx:76-83 | either outcome clears loading and keeps index and answers; a reply is stored and shown; a failure leaves result and showResults as they were |
| Wizard.FailedSubmissionRestores | Frontend/components/phq9-form.tsx:79-83 | submitting then failing returns exactly the state submitted from |
| Wizard.SuccessfulSubmissionShowsResult | Frontend/components/phq9-form.tsx:76-78 | submitting then receiving a reply stores it and sets showResults, with answers and index unchanged |
| Wizard.Apply | Frontend/components/phq9-form.tsx:44-62 | any single handler keeps the index in range and the slot count fixed |
| Wizard.Run | Frontend/components/phq9-form.tsx:44-62 | under any sequence of answer, next and previous, the index stays in [0, count) and the slot count is fixed |
| Wizard.NavigationKeepsAnswers | Frontend/components/phq9-form.tsx:50-62 | any sequence of next and previous leaves every answer unchanged |
| Wizard.AnswerSurvivesNavigation | Frontend/components/phq9-form.tsx:44-62 | an answer is still stored at its question after any navigation, so it is the selected value again on return |
| Wizard.CompletionIgnoresNavigation | Frontend/components/phq9-form.tsx:41 | completion is unchanged by navigation: it depends on the answers, not the index |
| Wizard.RunKeepsOptionSlots | Frontend/components/phq9-form.tsx:44-48 | if only option values are written, every slot stays unanswered or an option value |
| Wizard.FilledIffWritten | Frontend/components/phq9-form.tsx:41-48 | with option values only, a slot ends answered iff it was answered before or the run answers it while at that question |
| Wizard.CompleteIffEveryQuestionAnswered | Frontend/components/phq9-form.tsx:41-48 | from a fresh form, the answers are complete iff every question was answered at some point, in any visiting order |
| Wizard.PayloadInRange | Frontend/components/phq9-form.tsx:71-74 | a complete form of option answers yields a payload of numbers in 0..3 |
| Wizard.SubmittedScoreBounded | Frontend/components/phq9-form.tsx:71-74 | a submitted payload of option answers is accepted, keeps the token, and totals within [0, 3 * count] |
| Wizard.ProgressBounds | Frontend/components/phq9-form.tsx:42 | progress is in (0, 100] |
| Wizard.ProgressFullIffLast | Frontend/components/phq9-form.tsx:42 | progress is exactly 100 iff the index is the last question |
| Wizard.ProgressAtStart | Frontend/components/phq9-form.tsx:42 | a fresh form shows 100 / count |
| Wizard.ProgressMonotone | Frontend/components/phq9-form.tsx:42 | progress does not decrease as the index grows |
| Questionnaires.CountsMatchPrompts | Frontend/components/phq9-form.tsx:15-36 | the slot count of each form (9 and 7) equals the length of its prompt list, which bounds navigation |
| Questionnaires.Phq9Start | Frontend/components/phq9-form.tsx:36 | a fresh PHQ-9 form has nine unanswered slots and shows 100/9 |
| Questionnaires.Gad7Start | Frontend/components/gad7-form.tsx:47 | a fresh GAD-7 form has seven unanswered slots and shows 100/7 |
| Questionnaires.Gad7ProgressFull | Frontend/components/gad7-form.tsx:53 | GAD-7 progress is 100 iff the index is 6 |
| Questionnaires.Phq9ProgressFull | Frontend/components/phq9-form.tsx:42 | PHQ-9 progress is 100 iff the index is 8 |
| Questionnaires.UniformSubmission | Frontend/components/gad7-form.tsx:81-84 | submitting option k in every slot sends the token with count copies of k, totalling count * k |
| Questionnaires.UniformReply | Backend/api_server.py:60-75 | the reply to a form submitted with option k in every slot totals count * k and carries the band the form's token selects for that total |
| Questionnaires.Phq9AllThrees | Backend/api_server.py:54-57 | a PHQ-9 form with nine answers of 3 is scored 27, "Severe Depression" |
| Questionnaires.Phq9AllZeros | Backend/api_server.py:47-49 | a PHQ-9 form with nine answers of 0 is scored 0, "Minimal Depression" |
| Questionnaires.Gad7AllThrees | Backend/api_server.py:44-45 | a GAD-7 form with seven answers of 3 is scored 21, "Severe Anxiety" |
| Questionnaires.SubmissionScoring | Backend/api_server.py:60-75 | a form's submission is scored within [0, 3 * count] with the band its own token selects |
| Questionnaires.Phq9SubmissionScoring | Frontend/components/phq9-form.tsx:71-74 | a PHQ-9 submission totals within [0, 27] and is banded by interpret_phq9 |
| Questionnaires.Gad7SubmissionScoring | Frontend/components/gad7-form.tsx:81-84 | a GAD-7 submission totals within [0, 21] and is banded by interpret_gad7 |
| Chat.Init | Frontend/components/ChatBox.tsx:14-16 | a fresh chat has no messages, empty input, is not loading and has no request outstanding |
| Chat.Edit | Frontend/components/ChatBox.tsx:72 | typing replaces the input and leaves the transcript and loading alone |
| Chat.Send | Frontend/components/ChatBox.tsx:18-23 | blank input is a complete no-op that sends nothing; otherwise exactly one user message with the raw, untrimmed input is appended, the input is cleared, loading is raised, and that same text is the question sent |
| Chat.AiText | Frontend/components/ChatBox.tsx:32-36 | the AI text is the answer when present and non-empty, else "No response from AI."; a failure gives "⚠️ Error contacting server."; it is never empty |
| Chat.Resolve | Frontend/components/ChatBox.tsx:31-39 | for an outstanding request, exactly one AI message is appended after the existing transcript, loading is false again, and that request is no longer outstanding |
| Chat.QuestionIsLastUserMessage | Frontend/components/ChatBox.tsx:20-29 | the question sent equals the text of the user message just appended |
| Chat.ExchangeAppendsTwo | Frontend/components/ChatBox.tsx:18-39 | a resolved send grows the transcript by exactly the user message and one AI message |
| Chat.SendWhileLoadingIsAccepted | Frontend/components/ChatBox.tsx:73 | a non-blank send while loading is still accepted and appends a user message |
| Chat.Step | Frontend/components/ChatBox.tsx:18-39 | any single event keeps the transcript as a prefix and adds at most one message; typing adds none, a send adds one message exactly when it starts a request, and a reply adds one exactly when it ends one |
| Chat.StepKeepsBalance | Frontend/components/ChatBox.tsx:18-39 | each event keeps the AI messages plus the outstanding requests equal to the user messages |
| Chat.RepliesMatchSends | Frontend/components/ChatBox.tsx:18-39 | from any balanced state, any sequence of events keeps AI messages plus outstanding requests equal to user messages |
| Chat.FreshChatReplies | Frontend/components/ChatBox.tsx:14-39 | from a fresh chat box, whatever happens, there is one AI message per accepted send, except for the sends still awaiting their reply |
| Chat.TranscriptAppendOnly | Frontend/components/ChatBox.tsx:21-36 | under any events, earlier messages stay an unmodified prefix, and the transcript grows by one per accepted send and one per reply |

## Left out

- Transport. `fetch`, JSON encoding, the endpoint URL and its environment variable, and `console.error` are not modelled. Each request is reduced to the payload it carries, and its end to `Replied(result)` or `Failed` (`Reply.Answered`/`Unreachable` in the chat).
- Non-2xx scoring replies. The forms parse these without a status check and would store the error body as the result. The model treats every reply as a well-formed result.
- Wizard.ToRequest: a payload with a NaN entry is modelled as a request the service does not accept. The resulting 422 body reaching the form is not modelled. Only complete forms submit, so with option answers this case never arises.
- Handler guards. The wizard handlers are not guarded on `loading` or `showResults`. The code only stops rendering their buttons. The Next button's `disabled` state and the Previous button's `disabled` state are presentation.
- JSX rendering, the option labels ("Not at all" to "Nearly every day"), the results card (`{total_score}/27`), `window.print`, `onClose`, and the `activeForm` selector that opens and discards a form are not modelled. Closing discards the state; reopening starts from `Wizard.Init`.
- Scoring.UpperChar: only the ASCII letters a to z are upper-cased, while Python's `str.upper` also maps non-ASCII letters (é to É). Dispatch is unaffected, because no non-ASCII character upper-cases to one of the ASCII characters of "GAD-7" or "PHQ-9".
- Scoring.Upper: only ASCII letters are upper-cased. Python's full Unicode case mapping, including mappings that change length such as ß to SS, is not modelled.
- JsText.ParseInt: the `0x`/`0X` hexadecimal prefix that radix-less `parseInt` also accepts is not modelled. The result is an exact integer, whereas JavaScript returns a Number: digit runs above 2^53 are rounded to the nearest double ("9007199254740993" reads as 9007199254740992), and "-0" gives -0. Only the option strings "0" to "3" reach it, because a form submits only when every slot is answered (phq9-form.tsx:53, gad7-form.tsx:64).
- JsText.ParseIntOfDigits: the value is exact, where JavaScript rounds digit strings above 2^53 to a double; the promise holds in JavaScript only below 2^53.
- JsText.ParseIntRoundTrip: `parseInt` is proved to invert the decimal rendering of every natural number; JavaScript's does so only below 2^53, because of the same rounding.
- Wizard.Progress: computed as an exact rational. JavaScript's floating-point rounding of (index + 1) / count * 100 is not modelled.
- Chat.AiText: `data.answer` is modelled as an optional string. Non-string JSON values and their truthiness are not modelled.
- The `/rag` endpoint, the retrieval pipeline in `Backend/main.py`, and the ingestion in `Backend/ingest.py` are not part of this model. They are database, embedding, PDF and LLM I/O.
- The static page, navbar and about-us components are not part of this model.
