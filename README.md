# Resume keyword optimizer: session store and analyze workflow

This project models the client side of a resume keyword optimizer. The user
picks a resume file and types a job description. The client uploads the file,
gets the extracted text back, and then sends the text and the job description to
an analysis service. It shows the returned keywords, the matched keywords, the
match score and the keywords still missing.

The model has two parts.

- `ResumeSlice` (`resume_slice.dfy`) models the Redux `resume` slice. It holds
  the initial record and the eight actions: `setJobDescription`,
  `resetOptimizer`, and pending/fulfilled/rejected for each of the two requests.
  `Reduce` is the reducer as a pure function over records. The class
  `ResumeDraft` holds the case reducers as methods that assign the draft's
  fields in place. Each method is proved to agree with `Reduce`, and
  `SliceReducer` puts the two together the way the store applies an action to a
  draft. The two request thunks become `Events`. A thunk first dispatches its
  pending action. It then asks an abstract `Server` for a response and
  dispatches fulfilled or rejected. The analyze thunk builds its request from
  the store at the moment it runs. `Run` executes a list of dispatches in order,
  each awaited before the next one starts.
- `ResumeSliceProps` (`resume_slice_props.dfy`) holds properties over sequences
  of actions and dispatches.
- `Optimizer` (`keyword_optimizer.dfy`) models the component's decision logic:
  - the missing-keyword filter;
  - the rule that disables the Analyze button;
  - the rule that shows the results panel;
  - the handlers, as a class whose one field is the selected file.

  `handleAnalyze` returns the list of dispatches it makes. Running that list
  against the slice gives the lemmas about what one click does to the store.
- `Types` (`types.dfy`) is the session record of `src/types/index.ts`.

The model follows the code, not the intended workflow:

- The analyze request is sent after the awaited upload whether or not the upload
  succeeded. Only the job description captured at render time is checked. After
  a failed upload, the request carries the previous resume text.
- The fulfilled analyze case copies only `keywords`, `matchedKeywords` and
  `score`. It never sets `suggestions`, `keySkillsAnalysis` or
  `improvementAreas`, and it fills in no defaults. `initialState` leaves out
  those three fields, although the interface declares them. The model makes them
  Options whose `None` means "absent", and proves that they stay absent in every
  reachable record.
- Nothing keeps `matchedKeywords` inside `keywords`, and nothing bounds `score`
  to 0–100.

## Model

| member | source | states |
|---|---|---|
| `ResumeSlice.ErrorText` | src/store/resumeSlice.ts:69 | a missing or empty error message gives way to the fixed fallback text; any other message is kept |
| `ResumeSlice.Reduce` | src/store/resumeSlice.ts:46-90 | reset gives exactly the initial record; only reset touches `fileUploadProgress` and the three optional result fields; only edits and reset change the job description; a pending action sets loading and clears the error; every settling action clears loading; a rejection leaves a non-empty error; a fulfilment clears the error |
| `ResumeSlice.ResumeDraft.SetJobDescription` | src/store/resumeSlice.ts:50-52 | the job description becomes the payload and no other field changes; agrees with `Reduce` |
| `ResumeSlice.ResumeDraft.UploadPending` | src/store/resumeSlice.ts:58-61 | sets loading, clears the error, and changes nothing else; agrees with `Reduce` |
| `ResumeSlice.ResumeDraft.UploadFulfilled` | src/store/resumeSlice.ts:62-66 | clears loading and the error and stores the returned text as the resume text; keywords, matches, score and job description are unchanged; agrees with `Reduce` |
| `ResumeSlice.ResumeDraft.UploadRejected` | src/store/resumeSlice.ts:67-70 | clears loading; the error is the message if it is present and non-empty, otherwise "Failed to upload resume", so it is never null; the resume text and all other fields are unchanged; agrees with `Reduce` |
| `ResumeSlice.ResumeDraft.AnalyzePending` | src/store/resumeSlice.ts:74-77 | sets loading, clears the error, and changes nothing else; agrees with `Reduce` |
| `ResumeSlice.ResumeDraft.AnalyzeFulfilled` | src/store/resumeSlice.ts:78-84 | replaces keywords, matches and score with the payload's values and clears loading and the error; the resume text, the job description and the optional result fields are unchanged; agrees with `Reduce` |
| `ResumeSlice.ResumeDraft.AnalyzeRejected` | src/store/resumeSlice.ts:85-88 | clears loading; the error is the message or "Failed to analyze resume"; the previous keywords, matches and score are kept; agrees with `Reduce` |
| `ResumeSlice.SliceReducer` | src/store/resumeSlice.ts:46-53 | copying the record into a draft and running the case reducer on it, or returning the initial record for reset, gives exactly `Reduce` |
| `ResumeSlice.AnalyzeRequestOf` | src/store/resumeSlice.ts:38-41 | the analyze body carries exactly the store's resume text and job description; no action other than an edit, a reset or a fulfilled upload changes what it would carry |
| `ResumeSlice.UploadSettled` | src/store/resumeSlice.ts:18-31 | a successful upload response becomes the fulfilled action carrying the response body; a failure becomes the rejected action carrying the failure's message |
| `ResumeSlice.AnalyzeSettled` | src/store/resumeSlice.ts:34-43 | a successful analyze response becomes the fulfilled action carrying the response body; a failure becomes the rejected action carrying the failure's message |
| `ResumeSlice.Events` | src/store/resumeSlice.ts:18-44 | a plain action reaches the reducer alone; a thunk gives its pending action and then exactly the settling action for the server's answer; the upload asks about the dispatched file; the analyze request carries exactly the resume text and job description the store holds when the thunk is dispatched |
| `ResumeSlice.AfterDispatch` | src/store/resumeSlice.ts:18-44 | once a thunk has been awaited the store is idle and the job description is unchanged; an upload leaves keywords, matches and score alone; an analysis leaves the resume text alone |
| `ResumeSlice.Run` | src/components/KeywordOptimizer.tsx:41-43 | dispatches run in order, each awaited before the next; a run made only of thunks leaves the job description alone and, when non-empty, ends idle |
| `ResumeSliceProps.AfterDispatchReplaysEvents` | src/store/resumeSlice.ts:18-44 | awaiting one dispatch gives the same record as replaying the actions it feeds to the reducer |
| `ResumeSliceProps.RunIsReplayOfTrace` | src/store/resumeSlice.ts:18-44 | running dispatches one after another equals replaying the actions they feed to the reducer |
| `ResumeSliceProps.JobDescriptionIsLastSet` | src/store/resumeSlice.ts:50-53 | after any sequence of actions, the job description is the last one set, or empty if a reset came later, or the starting value if neither happened |
| `ResumeSliceProps.LastEditWins` | src/store/resumeSlice.ts:50-52 | after a run of edits, the job description is the last text and every other field is as before |
| `ResumeSliceProps.ResetEndsAtInitial` | src/store/resumeSlice.ts:53 | any action sequence that ends in reset ends at the initial record; reset applied twice equals reset applied once |
| `ResumeSliceProps.UntouchedFieldsStayInitial` | src/store/resumeSlice.ts:6-15 | from a record shaped like the initial one, every action sequence keeps `fileUploadProgress` at 0 and the three optional result fields absent |
| `ResumeSliceProps.UploadErrorClearedByAnalyzePending` | src/store/resumeSlice.ts:67-77 | an upload rejection leaves an error; the analyze pending action that follows clears it and sets loading, and the resume text stays the old one |
| `ResumeSliceProps.RunEndsIdle` | src/store/resumeSlice.ts:58-88 | from an idle store, any dispatch list without a bare pending action leaves the store idle, because every request it starts also settles |
| `Optimizer.MissingKeywords` | src/components/KeywordOptimizer.tsx:146-147 | the missing list is no longer than the keyword list; every entry is a keyword and is not matched |
| `Optimizer.MissingIsOrderedSubsequence` | src/components/KeywordOptimizer.tsx:146-147 | the missing list is an order-preserving subsequence of the keyword list |
| `Optimizer.MissingCounts` | src/components/KeywordOptimizer.tsx:146-147 | each unmatched keyword appears in the missing list exactly as often as in the keyword list, duplicates included; no matched keyword appears |
| `Optimizer.NothingMatchedAllMissing` | src/components/KeywordOptimizer.tsx:146-147 | with no matches, the missing list is the keyword list |
| `Optimizer.AllMatchedNoneMissing` | src/components/KeywordOptimizer.tsx:146-147 | when every keyword is matched, the missing list is empty |
| `Optimizer.InitialStateShowsNothing` | src/store/resumeSlice.ts:6-15 | the initial record has empty texts and lists, score 0, no loading and no error, the optional fields absent; so the Analyze button starts disabled and the results card hidden |
| `Optimizer.AnalyzeDisabled` | src/components/KeywordOptimizer.tsx:73 | the Analyze button is enabled iff a file is selected, the job description is non-empty and nothing is loading |
| `Optimizer.ResultsVisible` | src/components/KeywordOptimizer.tsx:113 | the results card is shown iff nothing is loading and the keyword list or the matched list is non-empty |
| `Optimizer.DisabledWhileRequestInFlight` | src/components/KeywordOptimizer.tsx:73 | after either pending action the Analyze button is disabled and the results panel is hidden |
| `Optimizer.EnabledClickIssuesBothRequests` | src/components/KeywordOptimizer.tsx:73 | when the button is enabled (a file is selected, the job description is non-empty and nothing is loading), a click dispatches the upload and then the analyze request |
| `Optimizer.ResultsVisibleAfter` | src/components/KeywordOptimizer.tsx:113 | the panel is hidden after pending and reset; after analyze fulfilled it is shown iff the payload has keywords or matches; after the other settling actions it is shown iff stale keywords or matches remain; an edit does not change it |
| `Optimizer.AnalyzeDispatches` | src/components/KeywordOptimizer.tsx:37-45 | with no file nothing is dispatched; with a file the upload comes first; analyze is dispatched iff a file is selected and the captured job description is non-empty; nothing but analyze can follow the upload |
| `Optimizer.KeywordOptimizer.constructor` | src/components/KeywordOptimizer.tsx:24 | the component starts with no selected file |
| `Optimizer.KeywordOptimizer.HandleResumeFileSelect` | src/components/KeywordOptimizer.tsx:26-31 | the first picked file becomes the selection; an empty pick leaves the selection as it was |
| `Optimizer.KeywordOptimizer.HandleJobDescriptionChange` | src/components/KeywordOptimizer.tsx:33-35 | every edit dispatches exactly one `setJobDescription` with the new text |
| `Optimizer.KeywordOptimizer.HandleAnalyze` | src/components/KeywordOptimizer.tsx:37-45 | dispatches exactly the list `AnalyzeDispatches` gives for the current selection and captured job description |
| `Optimizer.KeywordOptimizer.HandleReset` | src/components/KeywordOptimizer.tsx:47-50 | dispatches only `resetOptimizer` and clears the selected file |
| `Optimizer.ClickWithoutFile` | src/components/KeywordOptimizer.tsx:38-40 | a click with no file leaves the store unchanged |
| `Optimizer.ClickWithoutJobDescription` | src/components/KeywordOptimizer.tsx:41-44 | with an empty captured job description only the upload runs; keywords, matches and score stay; the resume text and error follow the upload outcome; loading ends false |
| `Optimizer.ClickWithJobDescription` | src/components/KeywordOptimizer.tsx:37-45 | with a non-empty captured job description, analyze runs whatever the upload outcome; it uses the new text after a successful upload and the old text after a failed one; the final error and results depend only on the analyze outcome; loading ends false |
| `Optimizer.PythonEngineerSession` | src/store/resumeSlice.ts:78-84 | worked session from any record holding that job description: the upload returns the resume text and the service answers score 50 with "Python" matched out of "Python" and "engineer"; the final record has score 50, matches ["Python"] and no error, the missing list is ["engineer"], and the panel is shown |
| `Optimizer.MatchedNeedNotBeKeywords` | src/store/resumeSlice.ts:80-81 | a response whose matches are not among its keywords is stored unchanged and shown: nothing enforces matches ⊆ keywords |

## Left out

- The HTTP requests, the `FormData` body, headers and hard-coded URLs (src/store/resumeSlice.ts:21-28, 38-41) are network I/O. The service is an abstract `Server`: one function per endpoint from request to success-or-failure.
- `Server`: as a function of the request, the service gives the same answer to the same request within one run. That is enough for a click, which makes at most one request of each kind.
- RunEndsIdle: assumes every request settles. The requests are made without a time-out (src/store/resumeSlice.ts:24, 38), so a request that never answers would leave `isLoading` true for good. The Analyze button would then stay disabled and the results card, with its Start Over button, hidden. Requests that never settle are not modelled.
- Run: the same assumption. Its "ends idle" clause and the idle conclusions of `AfterDispatch`, `ClickWithJobDescription` and `ClickWithoutJobDescription` hold only because the abstract `Server` always answers.
- Promises, `await` and `createAsyncThunk` become discrete events. `Run` awaits each dispatch fully before starting the next. It does not interleave user edits or resets with a request in flight. The lemmas over arbitrary action sequences (`JobDescriptionIsLastSet`, `ResetEndsAtInitial`, `UntouchedFieldsStayInitial`) do cover any such interleaving at the reducer level.
- Responses are assumed well formed. A payload with no `text`, `keywords` or `matchedKeywords` stores `undefined` in the source; the model has no such value.
- `score` is an unbounded integer. A JavaScript number may be fractional or NaN, and the code never computes or clamps it.
- `files?.[0]`: a null file list is treated as an empty one.
- src/config.ts (a base URL setting) and src/App.tsx (wiring of the store provider) have no logic.
- JSX rendering, CSS, icons and the progress bar are presentation only. `fileUploadProgress` is initialised and never updated.
- Immer's structural sharing and the React hooks (`useState`, `useAppSelector`, `useAppDispatch`) are library machinery. The draft is a plain object whose fields are assigned, and the component's local state is a class field.
