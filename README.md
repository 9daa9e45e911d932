# Interview practice app: a verified model of its core

The application runs mock job interviews. A candidate picks a job, a difficulty
("avatar": easy, medium or hard) and one of four languages (en, ar, fr, es). The
interview room then asks questions, records the spoken answers and counts down
the interview time. At the end the interview is completed with a report.

This project models the parts of the application that decide things:

- **The next-question handler (`NextQuestion`).** It validates the request
  body, counts the follow-up questions already asked and composes the
  instruction for the text-generation service. It answers 200, 400, 405 or
  500.
- **The interview room (`InterviewRoom`).** It holds the question tables and
  durations, the `MM:SS` clock and the countdown. It resumes an interview from
  its stored turns and runs the answer/next-question turn loop as a `Room`
  class.
- **The interview store (`InterviewService`).** It creates interviews with an
  opening turn, appends and reads back turns and lists interviews. It
  completes an interview behind its guard chain, inserts a report and charges
  the free quota.
- **The profile service (`AuthService`).** It handles default profiles,
  sign-up and sign-in outcomes, the 999/2 quota on switching plans, the free
  quota decrement and the day streak.
- **The plan table (`PlanRules`).**
- **The older in-browser mock of the services (`MockApi`).** It covers
  pending-user e-mail verification, sign-in, subscriptions, interview creation
  and completion, and reports.
- **The pages.** The dashboard (`Dashboard`) has the start gate, labels, the
  in-place date sort and the statistics. The setup page (`InterviewSetup`) has
  the start guard chain and the premium-only realistic mode. The application
  shell (`App`) has navbar hiding, the stored language and text direction.

The hosted database is the class `Backend.Db`. Its `users`, `interviews`,
`interview_turns` and `reports` tables are fields that the service methods
assign. One counter stands for generated ids and for the clock, so ids and
dates increase along each table. The authentication provider's answers are
parameters (`created`, `authenticated`, the session), and so is the
text-generation service (`NextQuestion.Oracle`, a scripted reply list that
records every prompt). Random report scores (`Draws`), random ids and tokens,
and "today" are parameters too. `Strings` and `Common` hold the string
functions the source relies on: JavaScript `trim`, `toLowerCase` on ASCII
letters, `includes`, `startsWith`, `split`, `join` and number printing. They
also hold the small shared types (`Option`, `Result`, `Avatar`, `Lang`,
`Role`).

## Model

| member | source | states |
|---|---|---|
| NextQuestion.LanguageName | supabase/functions/next-question/index.ts:9-20 | ar, fr and es name Arabic, French and Spanish; every other code names English |
| NextQuestion.DifficultyLabel | supabase/functions/next-question/index.ts:44-49 | easy is junior, medium is mid-level, anything else is senior |
| NextQuestion.WindowIsSuffix | supabase/functions/next-question/index.ts:53-54 | the transcript window is the last min(10, n) turns, in their original order |
| NextQuestion.TranscriptLines | supabase/functions/next-question/index.ts:53-56 | split at line breaks, the transcript gives back one line per windowed turn (at most 10); a line starts with "Interviewer: " exactly for an ai turn |
| NextQuestion.LineLabel | supabase/functions/next-question/index.ts:55 | a turn's line carries the interviewer label if and only if its role is "ai" |
| NextQuestion.FollowUpsBounded | supabase/functions/next-question/index.ts:148-161 | only interviewer turns count, so 0 <= followUpsUsed <= the number of ai turns; equality holds exactly when every ai turn is a follow-up |
| NextQuestion.FollowUpsAppend | supabase/functions/next-question/index.ts:148-161 | one more turn raises the count by one exactly when it is an interviewer turn holding a cue |
| NextQuestion.CuedTextIsFollowUp | supabase/functions/next-question/index.ts:148-161 | an interviewer text that contains any lower-case cue, with any text around it, is counted |
| NextQuestion.ElaborateIsFollowUp | supabase/functions/next-question/index.ts:148-152 | "Can you elaborate on that last point?" is counted despite its capital letter, because the question is lower-cased first |
| NextQuestion.FollowUpRuleContents | supabase/functions/next-question/index.ts:61-64 | the free rule quotes "used/limit" and orders a new main question once the budget is spent; every other plan gets the premium sentence |
| NextQuestion.PromptLayout | supabase/functions/next-question/index.ts:66-88 | the prompt is the template with exactly its opening and closing line breaks trimmed; it starts with the persona line and holds the eight sections in template order |
| NextQuestion.PromptOrders | supabase/functions/next-question/index.ts:66-88 | every prompt orders output in the interview's language; a free-plan prompt also carries the budget and the new-question order |
| NextQuestion.Validate | supabase/functions/next-question/index.ts:131-165 | parameters exist exactly when the four required fields are present and non-empty; turns default to [], plan to "free", the limit is 2 and the used count is the classifier's |
| NextQuestion.PromptFor | supabase/functions/next-question/index.ts:125-176 | a prompt is built exactly for a POST whose JSON body carries every required field |
| NextQuestion.FromReply | supabase/functions/next-question/index.ts:117-120 | a reply becomes a question that is non-empty and already trimmed; "No question returned" happens exactly for an all-whitespace reply; a failed call is a server error |
| NextQuestion.MethodNotAllowedIff | supabase/functions/next-question/index.ts:125-127 | the status is 405 if and only if the method is not POST |
| NextQuestion.MissingFieldsIff | supabase/functions/next-question/index.ts:163-165 | the status is 400 if and only if a POST JSON body lacks a required field or has it empty |
| NextQuestion.FieldlessBodyMissingFields | supabase/functions/next-question/index.ts:129-165 | a POST of JSON that is neither an object nor `null` (a number, a string, an array) reads no field and is answered 400, not 500 |
| NextQuestion.NoPromptNoCall | supabase/functions/next-question/index.ts:125-176 | when no prompt is built (405, 400 or an unreadable body), the reply of the service has no bearing on the response |
| NextQuestion.QuestionOnlyFromPrompt | supabase/functions/next-question/index.ts:167-183 | a 200 response means a prompt was built and the service replied; the response is the question made of the trimmed, non-empty reply |
| NextQuestion.Oracle.Complete | supabase/functions/next-question/index.ts:91-121 | the service call logs the prompt and consumes the next scripted reply |
| NextQuestion.Respond | supabase/functions/next-question/index.ts:123-186 | the response is the service's outcome (a question, or a failed or empty reply) exactly when a prompt is built; otherwise 405, an unreadable body or 400 |
| NextQuestion.Handle | supabase/functions/next-question/index.ts:123-187 | the handler answers what the reference response function gives; it calls the service once, with the built prompt, exactly when a prompt is built, and never otherwise |
| PlanRules.Rules | src/lib/planRules.ts:25-55 | free allows 5 questions, 1 follow-up and 6 minutes; premium allows 15, 3 and 15 |
| PlanRules.GetUserPlan | src/lib/planRules.ts:57-59 | premium exactly for the value "premium"; a missing value or any other value is free |
| PlanRules.GetUserPlanIdempotent | src/lib/planRules.ts:57-59 | normalising a normalised plan changes nothing |
| PlanRules.GetCapabilities | src/lib/planRules.ts:61-64 | the premium row exactly for "premium", the free row otherwise, and never more than premium grants |
| PlanRules.PremiumDominates | src/lib/planRules.ts:25-55 | premium grants at least every cap and flag of free, strictly more of each numeric cap, and free does not dominate premium |
| InterviewRoom.QuestionCounts | src/pages/InterviewRoom.tsx:22-120 | every language has 4, 5 and 6 questions for easy, medium and hard |
| InterviewRoom.OpenerIsFirstEasyQuestion | src/lib/interviewService.ts:103-112 | the stored opener equals the first easy question of its language |
| InterviewRoom.AvatarDuration | src/pages/InterviewRoom.tsx:125-132 | 300, 600 and 900 seconds |
| InterviewRoom.FormatTimeRoundTrip | src/pages/InterviewRoom.tsx:402-406 | the display splits at its one colon into digit fields that read back as s, with a two-digit seconds field; it has length 5 exactly when s < 6000 |
| InterviewRoom.CountdownStep | src/pages/InterviewRoom.tsx:233-240 | it ends exactly when prev <= 1, and then shows 0; otherwise prev - 1; the result is never negative and never above prev |
| InterviewRoom.CountdownValue | src/pages/InterviewRoom.tsx:233-240 | n seconds after t >= 0, max(0, t - n) remain |
| InterviewRoom.ActualDuration | src/pages/InterviewRoom.tsx:381-382 | spent plus remaining is the total, and spent lies in [0, total] when the remaining time does |
| InterviewRoom.Resume | src/pages/InterviewRoom.tsx:193-209 | with turns: the turns as messages and the index max(0, ai turns - 1); with none, or when they cannot be read: one message holding the first question, at index 0 |
| InterviewRoom.ResumeInSync | src/pages/InterviewRoom.tsx:193-209 | a resumed room's index is the position of its last interviewer message |
| InterviewRoom.Room.Open | src/pages/InterviewRoom.tsx:181-210 | the room opens on the interview's question list, its full duration and the resumed messages |
| InterviewRoom.Room.Tick | src/pages/InterviewRoom.tsx:233-240 | one countdown step, running only while time remains; the remaining time stays within [0, total] |
| InterviewRoom.Room.Say | src/lib/interviewService.ts:120-135 | a message is shown and counted; with a session it is also stored as a turn of this interview |
| InterviewRoom.Room.RecordAnswer | src/pages/InterviewRoom.tsx:322-335 | the transcript is trimmed and cleared; a candidate message is appended (and stored) only for a non-empty answer |
| InterviewRoom.Room.AskNext | src/pages/InterviewRoom.tsx:337-355 | with a next question, exactly that ai message is appended and the index advances; otherwise nothing is appended and the interview ends |
| InterviewRoom.Room.FinishAnswer | src/pages/InterviewRoom.tsx:317-356 | the whole step: what is added to the chat and what is stored, in order; the index stays below the number of questions, and a room in sync stays in sync |
| InterviewRoom.Room.EndInterview | src/pages/InterviewRoom.tsx:377-400 | runs `completeInterview` with the duration total minus the remaining time the calling render saw, with its whole effect: no write without a session; on a failed guard, the error and unchanged interviews and reports; otherwise the completed row, one report and one decrement |
| InterviewRoom.Room.TimerFires | src/pages/InterviewRoom.tsx:230-244 | one interval firing: a countdown step, ending exactly when 1 second was left; a timeout completes the interview with the full duration minus 1 second, since the handler it calls saw 1 second left; otherwise nothing is written |
| InterviewRoom.AppendedTransitive | src/pages/InterviewRoom.tsx:317-356 | stored turns that mirror the appended messages compose over two steps |
| InterviewService.FirstQuestion | src/lib/interviewService.ts:103-112 | the opener for ar, fr and es, and "Tell me about yourself." for English |
| InterviewService.AddTurn | src/lib/interviewService.ts:120-135 | without a session nothing changes and it fails; otherwise exactly one turn row for the session user is appended |
| InterviewService.CreateInterview | src/lib/interviewService.ts:55-115 | refused for an exhausted free account before any insert; otherwise it inserts one in-progress interview with duration and score 0, then exactly one ai turn holding the language's opener |
| InterviewService.TurnsOf | src/lib/interviewService.ts:140-157 | exactly the turns of the interview |
| InterviewService.TurnsOfOrdered | src/lib/interviewService.ts:140-157 | filtering an ordered table keeps it ordered by creation time |
| InterviewService.GetTurnsByInterview | src/lib/interviewService.ts:140-157 | exactly the interview's turns, oldest first |
| InterviewService.CompletionCheck | src/lib/interviewService.ts:175-185 | not found, then unauthorized, then already completed, each as an if-and-only-if in that order; an aborted interview passes |
| Backend.FindInterview | src/lib/interviewService.ts:288-295 | the position of the first row with the id, or None exactly when no row has it |
| InterviewService.GetInterviewById | src/lib/interviewService.ts:288-295 | the interview with that id, or None exactly when there is none |
| InterviewService.MockReport | src/lib/interviewService.ts:188-198 | every score lies in 65..94 |
| InterviewService.MarkCompleted | src/lib/interviewService.ts:201-210 | only the chosen row changes: completed, with the duration and score; ids and dates stay |
| InterviewService.CompleteInterview | src/lib/interviewService.ts:162-232 | on a failed guard nothing is written; otherwise the row is completed with score = overall score, one report is inserted and the quota is decremented once |
| InterviewService.CompletedStaysCompleted | src/lib/interviewService.ts:175-185 | after completion the same owner's second call fails with already-completed, so the quota is charged once per interview |
| InterviewService.InterviewsOf | src/lib/interviewService.ts:237-259 | exactly the user's interviews |
| InterviewService.InterviewsOfNewestFirst | src/lib/interviewService.ts:237-259 | from a date-ordered table, a user's interviews come newest first |
| InterviewService.GetInterviewsByUser | src/lib/interviewService.ts:237-259 | exactly the user's interviews, newest first |
| AuthService.DefaultName | src/lib/authService.ts:111-114 | the metadata name, else the full name, else the e-mail text before its first "@", else "User" |
| AuthService.DefaultRow | src/lib/authService.ts:108-120 | a created profile is free, with 2 interviews, streak 0 and no practice date |
| AuthService.ToProfile | src/lib/authService.ts:146-155 | the profile carries the row's fields, streak 0 when it is null, and the session's e-mail confirmation |
| AuthService.WithProfile | src/lib/authService.ts:108-143 | the session user gets a row, the default one when missing; other rows are unchanged |
| AuthService.GetCurrentUser | src/lib/authService.ts:95-156 | "Not authenticated" without a session; otherwise the user's profile, the default row being inserted first when there is none |
| AuthService.SignUp | src/lib/authService.ts:19-58 | inserts a fresh free row with 2 interviews; fails when the account was not created or the id already has a row |
| AuthService.SignIn | src/lib/authService.ts:61-76 | invalid without an account; an unconfirmed address fails with EMAIL_NOT_VERIFIED; a confirmed one loads the profile |
| AuthService.Quota | src/lib/authService.ts:169-181 | 999 for premium and 2 for free |
| AuthService.Subscribed | src/lib/authService.ts:169-181 | the user's row (created first if missing) gets the plan and its quota, every other column of it is kept; other rows are unchanged |
| AuthService.UpdateSubscription | src/lib/authService.ts:169-181 | requires a session and then sets the plan and its quota |
| AuthService.DecrementedTimesValue | src/lib/authService.ts:184-195 | after n decrements a free count k >= 0 is max(0, k - n), so it never goes negative; other plans are untouched |
| AuthService.AfterDecrement | src/lib/authService.ts:184-195 | only the session user's count changes, by the decrement rule |
| AuthService.DecrementFreeInterview | src/lib/authService.ts:184-195 | requires a session, then applies one decrement |
| AuthService.NextStreakCases | src/lib/authService.ts:213-238 | the same day keeps the streak (1 when it is null), the next day adds one (to 0 when it is null), and a first practice or a gap restarts at 1 |
| AuthService.ConsecutiveDays | src/lib/authService.ts:213-247 | practising on n consecutive days adds n to the streak |
| AuthService.StreakStaysPositive | src/lib/authService.ts:213-238 | from the first practice on, the streak is at least 1 |
| AuthService.UpdateStreakAfterInterview | src/lib/authService.ts:198-252 | a missing user changes nothing; otherwise the streak advances and today becomes the last practice day (no modelled operation calls it; see Observations) |
| MockApi.PendingUser | src/lib/api.old.ts:46-57 | a signed-up user waits free, with 2 interviews, unverified and holding the token |
| MockApi.Verified | src/lib/api.old.ts:66-80 | verified, without a token, otherwise the same |
| MockApi.MockApp.SignUp | src/lib/api.old.ts:42-64 | the new user is kept as the pending user |
| MockApi.MockApp.VerifyEmail | src/lib/api.old.ts:66-80 | true exactly for a pending user with this token, which becomes the verified, stored and current user while the pending one is cleared; otherwise false and nothing changes |
| MockApi.MockApp.SignIn | src/lib/api.old.ts:91-112 | the stored user when verified with this e-mail; else EMAIL_NOT_VERIFIED exactly for a matching unverified pending user; else not found |
| MockApi.MockApp.SignInWithGoogle | src/lib/api.old.ts:114-127 | a verified free Google user with 2 interviews is current and stored |
| MockApi.MockApp.SignOut | src/lib/api.old.ts:129-132 | no current and no stored user |
| MockApi.MockApp.GetCurrentUser | src/lib/api.old.ts:134-142 | the user in memory, else the stored one, which is then kept in memory |
| MockApi.Subscribed | src/lib/api.old.ts:149-155 | the plan and 999 or 2 interviews; every other field of the user is kept |
| MockApi.MockApp.UpdateSubscription | src/lib/api.old.ts:149-155 | applies to the user in memory and stores it; nothing happens without one |
| MockApi.MockApp.CreateInterview | src/lib/api.old.ts:160-185 | a verified current user gets exactly one in-progress interview with duration and score 0 appended; otherwise an error and no change |
| MockApi.FindInterview | src/lib/api.old.ts:188-190 | the first interview with the id, or None exactly when there is none |
| MockApi.MakeReport | src/lib/api.old.ts:192-215 | every score lies in 65..94 |
| MockApi.Complete | src/lib/api.old.ts:217-220 | only the found row changes: completed, with the duration and score, every other field kept |
| MockApi.AfterCompletion | src/lib/api.old.ts:227-233 | a free user with interviews left loses one, everyone else is unchanged; the count never goes below 0 |
| MockApi.MockApp.CompleteInterview | src/lib/api.old.ts:187-235 | not found: an error and no change; otherwise the first match is completed whatever its status, one report is appended and the user is charged |
| MockApi.FindReport | src/lib/api.old.ts:247-250 | the first report for the interview, or None exactly when there is none |
| MockApi.MockApp.GetReport | src/lib/api.old.ts:247-250 | the first stored report for the interview, or None exactly when there is none |
| MockApi.MockQuestions | src/lib/api.old.ts:254-310 | the mock's tables are the room's English and Arabic tables, 4, 5 and 6 questions per difficulty |
| MockApi.MockDuration | src/lib/api.old.ts:312-319 | 300, 600 and 900 seconds |
| MockApi.SignUpVerifySignIn | src/lib/api.old.ts:42-112 | signing up, verifying with the issued token, then signing in succeeds as the verified user |
| Dashboard.StartDestination | src/pages/Dashboard.tsx:104-119 | "/pricing" exactly for a free user with none left, or no profile; "/setup" otherwise |
| Dashboard.FormatDurationValue | src/pages/Dashboard.tsx:129-132 | the text ends in " min" and shows the whole minutes m with 60m <= s < 60m + 60 |
| Dashboard.DifficultyColor | src/pages/Dashboard.tsx:134-141 | easy and hard have their own colours; every other value gets the medium colour |
| Dashboard.SortByDate | src/pages/Dashboard.tsx:60-65 | the list ends newest first and is a permutation of what it was |
| Dashboard.AverageScore | src/pages/Dashboard.tsx:395-400 | 0 for no interviews; otherwise the mean rounded half up: avg - 1/2 <= sum/n < avg + 1/2 |
| Dashboard.AverageWithin | src/pages/Dashboard.tsx:395-400 | scores within bounds give an average within the same bounds |
| Dashboard.CompletedWithinTotal | src/pages/Dashboard.tsx:387-408 | completed <= total, with equality exactly when every interview is completed |
| Dashboard.StatisticsIgnoreOrder | src/pages/Dashboard.tsx:60-65 | a reordering keeps the total, completed count, score sum and average |
| InterviewSetup.StartGate | src/pages/InterviewSetup.tsx:109-132 | to sign-in without a user, then to missing information for an empty job title or description, then to pricing for an exhausted free account, each as an if-and-only-if in that order |
| InterviewSetup.RoomPath | src/pages/InterviewSetup.tsx:135-152 | "/room/" followed by digits that read back as the id |
| InterviewSetup.StartInterview | src/pages/InterviewSetup.tsx:109-161 | a failed guard navigates accordingly and writes nothing; after all guards, either creation fails and the page stays, or one in-progress row with the form's title, description, difficulty and language and no CV is appended and the page navigates to its room |
| InterviewSetup.SetupPage.ToggleRealisticMode | src/pages/InterviewSetup.tsx:98-107 | nothing without a user; a non-premium user gets the dialog and the switch stays; a premium user sets it; realistic mode is only ever on for premium |
| App.AnyPrefix | src/App.tsx:81-83 | true exactly when the path starts with one of the prefixes |
| App.ExtensionHides | src/App.tsx:71-83 | every path extending a listed prefix hides the bar |
| App.RoomyHides | src/App.tsx:81-83 | "/roomy" and "/authx" hide the bar |
| App.ShortPathShows | src/App.tsx:71-83 | paths shorter than five characters, "/" and "/foo" among them, show the bar |
| App.AdoptStoredLang | src/App.tsx:95-103 | a stored value is adopted exactly when it is one of the four codes; otherwise English |
| App.StoredLangRoundTrip | src/App.tsx:95-110 | each language survives being stored and read back |
| App.Dir | src/App.tsx:110 | right to left exactly for Arabic |

## Observations

These follow from the model. None of them is changed in it.

- The opener that `createInterview` stores depends on the language only.
  `InterviewRoom.OpenerIsFirstEasyQuestion` shows that it is the first easy
  question. For a medium or hard interview the room resumes at index 0 of its
  own table, so the first medium or hard question is never shown.
- `signIn` sets the session before it checks the e-mail confirmation. An
  unconfirmed user is therefore still signed in after EMAIL_NOT_VERIFIED.
- `body.plan ?? "free"` turns only a missing plan into "free". An empty or
  unknown plan string gets the premium follow-up rule.
- The handler writes `followUpsUsed` and `followUpsLimit` into the prompt only.
  It never compares them itself.
- The `realisticMode` switch of the setup page is not passed on by
  `createInterview`.
- The CV file the setup page reads is not sent to `createInterview` either.
- The mock's `updateSubscription` ignores a user who is stored but not loaded
  in memory.
- The mock's `completeInterview` has no already-completed guard. A second call
  appends a second report.
- A timed-out interview is recorded as lasting one second less than its full
  duration, 299 seconds for an easy one (`InterviewRoom.Room.TimerFires`). The
  interval that reaches zero calls the end handler of the render that saw 1
  second left.
- No modelled operation calls `updateStreakAfterInterview`, and
  `completeInterview` stops after the quota decrement. So the day streak never
  advances in the application as it stands.

## Left out

- The HTTP transport, JSON parsing and the text-generation request. A body
  that is not JSON or is `null`, a failed service call and a missing API key all
  surface as a 500. Any other JSON value that is not an object reads as a body
  with every field missing, so it gets 400. Non-string field values are not
  modelled: the body fields are strings or missing.
- SQL and the database client. The tables are in-memory fields. A single
  counter stands for generated ids, `created_at` and `date`, and failed
  writes other than the guards are not modelled.
- The authentication provider's own checks (passwords, OAuth, e-mail
  delivery). Their outcomes are parameters. For the same reason
  `signInWithGoogle`, `signOut` and `resendVerificationEmail` of the live
  service are not part of this model.
- `getReportsByUser` and the row-to-object mappings are not part of this model.
- Randomness: report scores, ids, tokens and the avatar's speaking time are
  parameters.
- Timers and concurrency. The countdown is one step at a time, and the race
  between the timer and the last answer is not modelled. A failed turn write
  in the room is ignored, as the page does.
- Speech, camera and the media recorder. The recognised transcript arrives
  through `Room.Hear`.
- Floating-point values. The progress percentage is left out. The average
  score uses exact integer rounding.
- Dates and timezones. Days and dates are integers, and `toLocaleDateString`
  is left out.
- The writes of the application shell to local storage and to the document
  element.
- NextQuestion.FollowUpsUsed: lower-casing is modelled on ASCII letters only.
  The cues and the tests on them need no more, but a question with other
  capital letters may differ from JavaScript's `toLowerCase`.
- Strings.Trim: JavaScript strings are UTF-16. Characters here are code
  points, and the whitespace set is ECMAScript's.
- Dashboard.SortByDate: the contract does not state stability. The insertion
  sort is stable, like `Array.prototype.sort`.
- Dashboard.DifficultyColor: for inherited property names such as
  "constructor", the lookup in the source would return a non-string. The model
  gives the medium colour.
- Dashboard.FormatDurationValue: a negative duration is printed with its sign.
  The contract states the digits only for durations that are not negative.
- MockApi.MockApp: local storage is a set of fields and JSON round trips are
  identity. The date string is a parameter.
