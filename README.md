# CareerBridge front-end core, modelled in Dafny

CareerBridge is a single-page application that helps international students look for work in France. All of the "intelligence" comes from calls to an external language-model API. What the repository's own code decides is:

- how the model gateway (`services/gemini.ts`) turns provider replies into typed results: grounding sources, text fallbacks, and parse failures;
- how four pages update their state around those calls.

This project models that code.

- `wrappers.dfy`: `Option` and `Result`. They stand for `undefined`/`null` and for a promise that resolves or rejects.
- `types.dfy`: the records of `types.ts` that the core uses.
- `gateway.dfy` (module `Gateway`): each gateway operation once the provider has replied.
  - The provider is an oracle. It gives an optional body text and the optional chain `candidates[0].groundingMetadata.groundingChunks`. Each chunk has an optional `web` with an optional title and an optional URI.
  - `JSON.parse` is a parameter `parse: string -> Option<T>`.
  - The `forEach` that collects sources is the method `ExtractSources`. It is proved against the function `Sources`. Lemmas then show that `Sources` keeps one source per chunk with a URI, in chunk order, and nothing else.
- `profile.dfy` (module `Profile`): the form's validity test, which includes JavaScript's `trim`, and the single-field update `handleChange`.
- `interview.dfy` (module `Interview`): the interview coach.
  - The session is specified as functions on a `Session` value. Each `await` splits a handler into the step that issues the call (`pending`) and the step that applies the answer. A log `calls` records every gateway call.
  - Lemmas prove the invariant, the submit rule and the whole four-answer session.
  - The class `InterviewCoach` implements the handlers on fields. Each method is proved equal to its function.
- `cvtailor.dfy` (module `CVTailor`): the CV and cover-letter panel, as a class.
  - Local storage is a map.
  - The clock is a field. The 3000 ms timer is a deadline that `Tick` fires.
  - Four client methods walk through scenarios: an empty CV, a failed then a successful analysis, a cover letter after an analysis, and a save followed by the indicator's timeout.
- `jobsearch.dfy` (module `JobSearch`): the job search page, as a class, with the query profile and the sources sidebar.

Where the description of the system and the code disagree, the model follows the code:

- There is no navigation gate. `App.tsx:23-39` renders every page unconditionally.
- There is no profile persistence. `App.tsx:14-21` hard-codes the profile.
- `analyzeCV` is never given a job description. `pages/CVTailor.tsx:24` calls it with the CV text alone.
- Responses to superseded requests are not discarded.

## Model

| member | source | states |
|---|---|---|
| `Gateway.GroundingChunks` | services/gemini.ts:45 | Absent candidates, an empty candidate list or a first candidate without grounding metadata give no chunk list. When the first candidate has grounding metadata, the result is exactly its `groundingChunks`, present or not. |
| `Gateway.SourceOf` | services/gemini.ts:48-52 | The source copies the chunk's URI unchanged, and that URI is not empty. Its title is the chunk's title when that is truthy, else "Job Posting / Recruiter Link". |
| `Gateway.Sources` | services/gemini.ts:44-55 | The reference definition of what the loop pushes. There are never more sources than chunks, and every source has a non-empty URI. |
| `Gateway.ExtractSources` | services/gemini.ts:44-55 | The loop returns exactly `Sources` of the chunks, or `[]` when there are no chunks. |
| `Gateway.MatchJobs` | services/gemini.ts:41-57 | The text is the provider text when it is non-empty, else exactly "No current postings found. Please refine your search keywords.". The sources are those of the grounding chunks, or none without metadata. |
| `Gateway.SourcesAppend` | services/gemini.ts:47-54 | The sources of `a + b` are the sources of `a` followed by those of `b`: chunk order is kept. |
| `Gateway.SourcesOfOne` | services/gemini.ts:48-53 | A single chunk contributes exactly its source when it has a URI, and nothing otherwise. |
| `Gateway.SourcesSound` | services/gemini.ts:47-54 | Every source comes from some chunk that has a URI. |
| `Gateway.SourcesComplete` | services/gemini.ts:47-54 | Every chunk that has a URI yields its source. |
| `Gateway.ContextClause` | services/gemini.ts:61 | The analyzeCV prompt's job context is non-empty exactly when the job description is truthy. It is then "Context: Applying for " followed by the description. |
| `Gateway.AnalyzeCV` | services/gemini.ts:86-90 | analyzeCV fails exactly when the body, or "{}" without a body, does not parse. It then fails with "Failed to analyze CV content.". Otherwise it returns the parsed value. |
| `Gateway.AnalyzeEmptyBody` | services/gemini.ts:87 | An empty or missing body is parsed as "{}". With a parser that accepts "{}" it does not fail. |
| `Gateway.CoverLetter` | services/gemini.ts:111 | The letter is the provider text if that is non-empty, else "Unable to generate cover letter.". It is never empty. |
| `Gateway.InterviewQuestion` | services/gemini.ts:126 | The question is the provider text if that is non-empty, else "Please describe your professional experience in France.". It is never empty. |
| `Gateway.InterviewFeedback` | services/gemini.ts:150-154 | There is never an error. A payload that does not parse gives no feedback (`undefined`). An empty body is parsed as "{}". |
| `Profile.HandleChange` | pages/Profile.tsx:14-16 | The new profile has `v` in field `f` and equals the old one in every other form field. The skills are unchanged. |
| `Profile.TrimStart` | pages/Profile.tsx:18 | Only leading white space is removed: the result is a suffix of the input, the dropped prefix is all white space, and the result does not start with white space. It is empty exactly when the input is all white space. |
| `Profile.TrimEnd` | pages/Profile.tsx:18 | Only trailing white space is removed: the result is a prefix of the input, the dropped suffix is all white space, and the result does not end with white space. It is empty exactly when the input is all white space. |
| `Profile.Trim` | pages/Profile.tsx:18 | `trim()` is a contiguous slice of the input. Everything before and after it is white space, and it neither starts nor ends with white space. |
| `Profile.TrimEmptyIffAllWhitespace` | pages/Profile.tsx:18 | `trim()` gives "" exactly when every character is white space. |
| `Profile.IsFormValid` | pages/Profile.tsx:18 | A valid form has a non-empty name, field and visa type. |
| `Profile.FormValidIff` | pages/Profile.tsx:18 | The form is valid iff the name has a non-white-space character and both field and visa type are non-empty. |
| `Profile.WhitespaceNameInvalid` | pages/Profile.tsx:18 | A whitespace-only name, including the empty name, makes the form invalid. |
| `Profile.View` | pages/Profile.tsx:88-100 | Save is enabled exactly when the form is valid. The error notice is shown exactly when Save is disabled. |
| `Profile.EditKeepsValidity` | pages/Profile.tsx:65-80 | Editing the language level or the preferences never changes validity. |
| `Profile.LanguageLevelChoices` | pages/Profile.tsx:65-72 | The language-level choices are exactly A1, A2, B1, B2, C1 and C2, each offered once. |
| `Interview.UserTurns` | pages/InterviewCoach.tsx:41 | The number of answers in a transcript never exceeds its length. |
| `Interview.UserTurnsAppend` | pages/InterviewCoach.tsx:41 | The User-turn count of a concatenation is the sum of the counts. |
| `Interview.Started` | pages/InterviewCoach.tsx:24-27 | Keeps the session invariant when nothing is pending. The invariant is: a pending call means loading and is the last call issued; feedback means not loading and an empty box; a pending feedback call means an empty box. Start sets loading, clears the feedback and requests the opening question. The transcript and the box are untouched. |
| `Interview.Submitted` | pages/InterviewCoach.tsx:32-47 | Keeps the invariant and never touches the feedback. An accepted answer issues exactly one call, the pending one. |
| `Interview.QuestionReceived` | pages/InterviewCoach.tsx:27-29 | Keeps the invariant. Loading ends, nothing is pending, no call is added, and the transcript ends with the question (the fallback question on an empty reply). The same step covers lines 47-50. |
| `Interview.FeedbackReceived` | pages/InterviewCoach.tsx:43-50 | Keeps the invariant. Loading ends, nothing is pending, no call is added, and the box is untouched. |
| `Interview.Aborted` | pages/InterviewCoach.tsx:43-47 | Keeps the invariant. A call that throws leaves `loading` as it was (set) and the transcript unchanged. |
| `Interview.Edited` | pages/InterviewCoach.tsx:122-126 | Keeps the invariant and changes only the box. It takes the text exactly when the form is rendered and the box is enabled; otherwise the session is unchanged. |
| `Interview.InputEnabled` | pages/InterviewCoach.tsx:126 | On a consistent session, an enabled answer box means no call is outstanding. |
| `Interview.SendEnabled` | pages/InterviewCoach.tsx:128 | When Send is enabled, `handleSubmit`'s guard accepts. |
| `Interview.StartAsksOpeningQuestion` | pages/InterviewCoach.tsx:24-30 | Start clears the feedback, sets loading and requests a question with empty history. When the question arrives, the transcript is exactly that one AI turn and loading ends. |
| `Interview.SubmitIgnored` | pages/InterviewCoach.tsx:34 | With an empty input or a call outstanding, submit is a no-op. |
| `Interview.SubmitAppendsAndRequests` | pages/InterviewCoach.tsx:36-47 | An accepted answer appends exactly one User turn, clears the box and sets loading. Below four User turns it requests one question; from four on it requests feedback and no question. Both requests carry the full new transcript. |
| `Interview.GuardMatchesSendButton` | pages/InterviewCoach.tsx:128 | On consistent sessions, the guard of `handleSubmit` (line 34) accepts exactly when Send is enabled. |
| `Interview.FeedbackClosesSession` | pages/InterviewCoach.tsx:126-128 | With feedback present, the box and Send are disabled, typing changes nothing, and submit is a no-op. |
| `Interview.RoundsBeforeFeedback` | pages/InterviewCoach.tsx:36-50 | Below four answers, each round appends one answer and one question and issues one call, none of them a feedback request. The earlier transcript is kept. |
| `Interview.FourthAnswerRequestsFeedback` | pages/InterviewCoach.tsx:41-45 | After the opening question and three rounds, the fourth answer requests feedback with the full 8-turn transcript. That is the session's first and only feedback request. |
| `Interview.FeedbackArrives` | pages/InterviewCoach.tsx:43-50 | Feedback is stored as returned and the closing message is appended. Loading ends. If feedback is present, further answers are refused. If it is `undefined`, a further answer is accepted and requests feedback again. |
| `Interview.InterviewCoach.constructor` | pages/InterviewCoach.tsx:12-15 | The initial state is an empty transcript, an empty box, no loading, no feedback and nothing pending. |
| `Interview.InterviewCoach.StartInterview` | pages/InterviewCoach.tsx:24-27 | Loading is set, feedback is cleared and the opening question is requested. The transcript is untouched until the question arrives. |
| `Interview.InterviewCoach.HandleSubmit` | pages/InterviewCoach.tsx:32-47 | Equals `Submitted`: no-op unless accepted; otherwise appends the User turn, clears the box, sets loading and requests per `RequestFor`. |
| `Interview.InterviewCoach.ReceiveQuestion` | pages/InterviewCoach.tsx:27-50 | The opening question replaces the transcript; a later one is appended. Loading ends. |
| `Interview.InterviewCoach.ReceiveFeedback` | pages/InterviewCoach.tsx:43-50 | Feedback is set to the gateway's result, the fixed closing message is appended, and loading ends. |
| `Interview.InterviewCoach.RequestThrew` | pages/InterviewCoach.tsx:43-47 | A call that throws clears nothing: loading stays set and the transcript is kept. |
| `Interview.InterviewCoach.EditInput` | pages/InterviewCoach.tsx:122-126 | The box takes the typed text only when it is rendered and enabled. |
| `CVTailor.NotDue` | pages/CVTailor.tsx:41 | The timers still running at `now` are exactly those whose deadline is later than `now`. |
| `CVTailor.CVTailor.constructor` | pages/CVTailor.tsx:8-16 | Initial state: empty CV, no analysis, idle, no letter, nothing loading. |
| `CVTailor.CVTailor.AnalyzeEnabled` | pages/CVTailor.tsx:84 | When the analyze button is enabled, no analysis is outstanding and the CV text is not empty, so a click issues analyzeCV. |
| `CVTailor.CVTailor.GenerateLetterEnabled` | pages/CVTailor.tsx:93-157 | When the generate button is rendered and enabled, no letter is outstanding and the handler's guard passes: there is an analysis and a job description. |
| `CVTailor.CVTailor.EditCV` | pages/CVTailor.tsx:78 | Sets the CV text only. |
| `CVTailor.CVTailor.Reset` | pages/CVTailor.tsx:72 | Empties the CV text and changes nothing else; the analysis stays. |
| `CVTailor.CVTailor.EditJobDescription` | pages/CVTailor.tsx:93-151 | With an analysis shown, sets the job description and nothing else. Without one the textarea is not rendered, and nothing changes. |
| `CVTailor.CVTailor.BeginAnalyze` | pages/CVTailor.tsx:18-24 | With an empty CV it does nothing. Otherwise it sets loading, sets the save status to idle, clears the letter and calls analyzeCV with the CV text. |
| `CVTailor.CVTailor.FinishAnalyze` | pages/CVTailor.tsx:23-30 | Success replaces the analysis; failure keeps the prior one. Loading ends either way. |
| `CVTailor.CVTailor.Save` | pages/CVTailor.tsx:33-42 | Without an analysis it does nothing. Otherwise it writes the analysis and `savedAt` under "careerbridge_saved_analysis", shows "saved" and starts a 3000 ms timer. |
| `CVTailor.CVTailor.Tick` | pages/CVTailor.tsx:41 | A due timer sets the status to idle. Once 3000 ms have passed, no timer remains and the status is idle. |
| `CVTailor.CVTailor.BeginGenerateLetter` | pages/CVTailor.tsx:45-49 | Without an analysis or a job description it does nothing. Otherwise it sets letter loading and calls generateCoverLetter with the CV text, the analysis and the description. |
| `CVTailor.CVTailor.FinishGenerateLetter` | pages/CVTailor.tsx:48-55 | Success replaces the letter; failure keeps it. Letter loading ends either way. |
| `CVTailor.EmptyCVIssuesNoCall` | pages/CVTailor.tsx:19 | With an empty CV the analyze button is disabled and no gateway call is issued. |
| `CVTailor.FailedThenSuccessfulAnalysis` | pages/CVTailor.tsx:23-30 | A failed first analysis leaves the analysis null and the letter button unavailable. A later success shows its analysis. |
| `CVTailor.LetterAfterAnalysis` | pages/CVTailor.tsx:45-49 | Before any analysis, the generate button is unavailable and a job description typed then is lost. After a successful analysis, the job description typed enables the button, and the request carries the CV, the analysis and that description. |
| `CVTailor.SavedIndicatorReverts` | pages/CVTailor.tsx:33-42 | After a save the status is "saved", and 3000 ms later it is idle. The snapshot is in storage. |
| `JobSearch.QueryProfile` | pages/JobSearch.tsx:21-25 | The query profile has the selected field and the search term as preferences, and equals the user in every other field, skills included. |
| `JobSearch.PlaceholderLabel` | pages/JobSearch.tsx:125 | The label is never empty. It is "Identifying Sources..." exactly when loading. |
| `JobSearch.Sidebar` | pages/JobSearch.tsx:103-126 | There is no sidebar while loading. Otherwise it shows the source links when there are sources, and else the "No sources to display" placeholder. |
| `JobSearch.IdentifyingLabelNeverShown` | pages/JobSearch.tsx:125 | The "Identifying Sources..." label is never displayed. |
| `JobSearch.JobSearch.constructor` | pages/JobSearch.tsx:13-16 | The selected field starts as the user's field; there is no result and no loading. |
| `JobSearch.JobSearch.FindEnabled` | pages/JobSearch.tsx:63 | When Find is enabled, no search is outstanding. |
| `JobSearch.JobSearch.View` | pages/JobSearch.tsx:68-126 | The sidebar is absent exactly while loading; the skeleton replaces the grid. Otherwise it shows the source links when the result has sources, else the "No sources to display" placeholder. |
| `JobSearch.JobSearch.EditSearchTerm` | pages/JobSearch.tsx:54 | Sets the search term only. |
| `JobSearch.JobSearch.SelectField` | pages/JobSearch.tsx:59 | Sets the selected field only. |
| `JobSearch.JobSearch.BeginFetch` | pages/JobSearch.tsx:18-25 | Sets loading and calls matchJobs with `QueryProfile(user, selectedField, searchTerm)`. The prior result stays. |
| `JobSearch.JobSearch.FinishFetch` | pages/JobSearch.tsx:26-30 | Success replaces the result wholesale; failure keeps it. Loading ends either way. |
| `JobSearch.SearchWithoutSources` | pages/JobSearch.tsx:123-126 | During a search, Find is disabled and the sidebar is hidden. A result with no sources shows the placeholder, not an empty list. |

## Left out

- The provider client, model names and prompt wording (`services/gemini.ts:6`, the prompt templates) are not modelled. Each operation starts from the provider's reply. The only prompt part kept is analyzeCV's job context.
- A provider call that throws is not modelled inside the gateway. It reaches the page as `Failure` (CV tailor, job search) or as `RequestThrew` (interview coach).
- `JSON.parse` is a parameter. The model does not check that the parsed object has the declared fields: in the code a parsed "{}" is returned as a CVAnalysis or feedback without fields. What the page then renders is not modelled.
- `formattingScore` is a JSON number; the model keeps it as an integer.
- `new URL(uri).hostname` on the sources sidebar is not modelled. It is foreign URL parsing.
- Local storage holds structured snapshots, not JSON strings. The `savedAt` time stamp (`new Date().toISOString()`) is a parameter.
- Clipboard writes are not modelled.
- Rendering is modelled only where it decides behaviour: which controls are rendered or enabled (`Profile.View`, `Interview.FormShown`, `Interview.InputEnabled`, `Interview.SendEnabled`, `CVTailor.CVTailor.AnalyzeEnabled`, `CVTailor.CVTailor.GenerateLetterEnabled`, `JobSearch.JobSearch.FindEnabled`) and the sources sidebar (`JobSearch.Sidebar`). Everything else on screen is not modelled: markup, the analysis and feedback cards, the transcript view and the letter view.
- The scroll effect of the interview coach and the mount effect of the job search are not modelled. The mount effect is the caller's first `BeginFetch`.
- Interleaving of asynchronous completions is not modelled. Each page tracks at most one outstanding call of each kind. `handleSubmit` tests `loading` itself (`pages/InterviewCoach.tsx:34`). `handleAnalyze`, `handleGenerateLetter`, `fetchJobs` and `startInterview` do not; only their disabled buttons do.
- CVTailor.CVTailor.BeginAnalyze: requires `!loading` because only one analysis may be outstanding; the handler itself has no such guard.
- CVTailor.CVTailor.BeginGenerateLetter: requires `!letterLoading`, for the same reason.
- JobSearch.JobSearch.BeginFetch: requires `!loading`, for the same reason.
- Interview.InterviewCoach.StartInterview: requires that no call is outstanding, for the same reason.
- Which start button is visible (Start before the first question, Restart beside the feedback) is not modelled.
- The user profile sent with each question request is the coach's fixed `user`. Only the transcript is recorded in the request.
- `JobListing` in `types.ts` is used by no core operation.
- The `Page` enum, `App.tsx`, the navigation bar, `Home`, `Dashboard`, `components/UI.tsx` and `constants.tsx` are presentation, and are not modelled.
