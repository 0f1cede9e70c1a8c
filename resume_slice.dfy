/**
 * The `resume` slice (src/store/resumeSlice.ts): its initial value, its actions,
 * the reducer as a pure function over session records, the case reducers as
 * in-place updates of a draft record, and the two request thunks with the
 * network reduced to an abstract server.
 */
module ResumeSlice {
  import opened Types

  const UploadFailedMessage := "Failed to upload resume"
  const AnalyzeFailedMessage := "Failed to analyze resume"

  /** `initialState`: the three optional result fields are absent. */
  const InitialState := ResumeState(
    resumeText := "",
    jobDescription := "",
    keywords := [],
    matchedKeywords := [],
    score := 0,
    isLoading := false,
    error := None,
    fileUploadProgress := 0,
    suggestions := None,
    keySkillsAnalysis := None,
    improvementAreas := None)

  /** Body of a successful upload response. */
  datatype UploadResponse = UploadResponse(text: string)

  /**
   * Body of a successful analyze response. The service may send the three
   * optional fields; the reducer never reads them.
   */
  datatype AnalyzeResponse = AnalyzeResponse(
    keywords: seq<string>,
    matchedKeywords: seq<string>,
    score: int,
    suggestions: Option<seq<string>>,
    keySkillsAnalysis: Option<string>,
    improvementAreas: Option<string>)

  /**
   * Every action the slice reducer handles. A rejected action carries the
   * serialized error's `message`, which may be missing.
   */
  datatype Action =
    | SetJobDescription(text: string)
    | ResetOptimizer
    | UploadPending
    | UploadFulfilled(upload: UploadResponse)
    | UploadRejected(message: Option<string>)
    | AnalyzePending
    | AnalyzeFulfilled(analysis: AnalyzeResponse)
    | AnalyzeRejected(message: Option<string>)
  {
    /** The actions that end a request. */
    predicate Settles() {
      UploadFulfilled? || UploadRejected? || AnalyzeFulfilled? || AnalyzeRejected?
    }
  }

  /** `message || fallback`: a missing or empty message gives way to the fallback. */
  function ErrorText(message: Option<string>, fallback: string): (r: string)
    ensures message.Some? && message.value != "" ==> r == message.value
    ensures (message.None? || message.value == "") ==> r == fallback
  {
    if message.Some? && message.value != "" then message.value else fallback
  }

  /** The slice reducer: the record after one action. */
  function Reduce(s: ResumeState, a: Action): (r: ResumeState)
    ensures a.ResetOptimizer? ==> r == InitialState
    ensures !a.ResetOptimizer? ==>
      r.fileUploadProgress == s.fileUploadProgress && r.suggestions == s.suggestions &&
      r.keySkillsAnalysis == s.keySkillsAnalysis && r.improvementAreas == s.improvementAreas
    ensures !a.SetJobDescription? && !a.ResetOptimizer? ==> r.jobDescription == s.jobDescription
    ensures a.UploadPending? || a.AnalyzePending? ==> r.isLoading && r.error == None
    ensures a.Settles() ==> !r.isLoading
    ensures a.UploadRejected? || a.AnalyzeRejected? ==> r.error.Some? && r.error.value != ""
    ensures a.UploadFulfilled? || a.AnalyzeFulfilled? ==> r.error == None
  {
    match a
    case SetJobDescription(text) => s.(jobDescription := text)
    case ResetOptimizer => InitialState
    case UploadPending => s.(isLoading := true, error := None)
    case UploadFulfilled(p) => s.(isLoading := false, resumeText := p.text, error := None)
    case UploadRejected(m) => s.(isLoading := false, error := Some(ErrorText(m, UploadFailedMessage)))
    case AnalyzePending => s.(isLoading := true, error := None)
    case AnalyzeFulfilled(p) =>
      s.(isLoading := false, keywords := p.keywords, matchedKeywords := p.matchedKeywords,
         score := p.score, error := None)
    case AnalyzeRejected(m) => s.(isLoading := false, error := Some(ErrorText(m, AnalyzeFailedMessage)))
  }

  /** The record after a whole sequence of actions, in order. */
  function Replay(s: ResumeState, actions: seq<Action>): ResumeState
    decreases |actions|
  {
    if actions == [] then s else Replay(Reduce(s, actions[0]), actions[1..])
  }

  /**
   * The draft a case reducer edits in place. Each method is one case reducer;
   * it assigns the fields the source assigns and leaves the rest alone.
   */
  class ResumeDraft {
    var resumeText: string
    var jobDescription: string
    var keywords: seq<string>
    var matchedKeywords: seq<string>
    var score: int
    var isLoading: bool
    var error: Option<string>
    var fileUploadProgress: int
    var suggestions: Option<seq<string>>
    var keySkillsAnalysis: Option<string>
    var improvementAreas: Option<string>

    /** The record the draft currently holds. */
    function Value(): ResumeState
      reads this
    {
      ResumeState(resumeText, jobDescription, keywords, matchedKeywords, score, isLoading,
                  error, fileUploadProgress, suggestions, keySkillsAnalysis, improvementAreas)
    }

    constructor (s: ResumeState)
      ensures Value() == s
    {
      resumeText, jobDescription := s.resumeText, s.jobDescription;
      keywords, matchedKeywords, score := s.keywords, s.matchedKeywords, s.score;
      isLoading, error, fileUploadProgress := s.isLoading, s.error, s.fileUploadProgress;
      suggestions, keySkillsAnalysis, improvementAreas :=
        s.suggestions, s.keySkillsAnalysis, s.improvementAreas;
    }

    method SetJobDescription(text: string)
      modifies this
      ensures jobDescription == text
      ensures Value() == old(Value()).(jobDescription := jobDescription)
      ensures Value() == Reduce(old(Value()), Action.SetJobDescription(text))
    {
      jobDescription := text;
    }

    method UploadPending()
      modifies this
      ensures isLoading && error == None
      ensures Value() == old(Value()).(isLoading := isLoading, error := error)
      ensures Value() == Reduce(old(Value()), Action.UploadPending)
    {
      isLoading := true;
      error := None;
    }

    method UploadFulfilled(payload: UploadResponse)
      modifies this
      ensures !isLoading && resumeText == payload.text && error == None
      ensures Value() == old(Value()).(isLoading := isLoading, resumeText := resumeText, error := error)
      ensures Value() == Reduce(old(Value()), Action.UploadFulfilled(payload))
    {
      isLoading := false;
      resumeText := payload.text;
      error := None;
    }

    method UploadRejected(message: Option<string>)
      modifies this
      ensures !isLoading && error.Some? && error.value != ""
      ensures message.Some? && message.value != "" ==> error == message
      ensures message.None? || message.value == "" ==> error == Some(UploadFailedMessage)
      ensures Value() == old(Value()).(isLoading := isLoading, error := error)
      ensures Value() == Reduce(old(Value()), Action.UploadRejected(message))
    {
      isLoading := false;
      error := Some(ErrorText(message, UploadFailedMessage));
    }

    method AnalyzePending()
      modifies this
      ensures isLoading && error == None
      ensures Value() == old(Value()).(isLoading := isLoading, error := error)
      ensures Value() == Reduce(old(Value()), Action.AnalyzePending)
    {
      isLoading := true;
      error := None;
    }

    method AnalyzeFulfilled(payload: AnalyzeResponse)
      modifies this
      ensures !isLoading && error == None
      ensures keywords == payload.keywords && matchedKeywords == payload.matchedKeywords
      ensures score == payload.score
      ensures Value() == old(Value()).(isLoading := isLoading, keywords := keywords,
                                       matchedKeywords := matchedKeywords, score := score, error := error)
      ensures Value() == Reduce(old(Value()), Action.AnalyzeFulfilled(payload))
    {
      isLoading := false;
      keywords := payload.keywords;
      matchedKeywords := payload.matchedKeywords;
      score := payload.score;
      error := None;
    }

    method AnalyzeRejected(message: Option<string>)
      modifies this
      ensures !isLoading && error.Some? && error.value != ""
      ensures message.Some? && message.value != "" ==> error == message
      ensures message.None? || message.value == "" ==> error == Some(AnalyzeFailedMessage)
      ensures Value() == old(Value()).(isLoading := isLoading, error := error)
      ensures Value() == Reduce(old(Value()), Action.AnalyzeRejected(message))
    {
      isLoading := false;
      error := Some(ErrorText(message, AnalyzeFailedMessage));
    }
  }

  /**
   * What the store does with one action: copy the record into a draft, run the
   * case reducer on it and hand back the result. `resetOptimizer` edits no
   * draft; it returns the initial record.
   */
  method SliceReducer(s: ResumeState, a: Action) returns (r: ResumeState)
    ensures r == Reduce(s, a)
  {
    if a.ResetOptimizer? {
      return InitialState;
    }
    var draft := new ResumeDraft(s);
    match a {
      case SetJobDescription(text) => draft.SetJobDescription(text);
      case UploadPending => draft.UploadPending();
      case UploadFulfilled(p) => draft.UploadFulfilled(p);
      case UploadRejected(m) => draft.UploadRejected(m);
      case AnalyzePending => draft.AnalyzePending();
      case AnalyzeFulfilled(p) => draft.AnalyzeFulfilled(p);
      case AnalyzeRejected(m) => draft.AnalyzeRejected(m);
    }
    r := draft.Value();
  }

  // ---------------------------------------------------------------------------
  // The request thunks, with the remote service as an abstract input.

  /** A request's outcome: the response body, or a failure with an optional message. */
  datatype Response<T> = Success(data: T) | Failure(message: Option<string>)

  /** The JSON body of the analyze request (`resume_text`, `job_description`). */
  datatype AnalyzeRequest = AnalyzeRequest(resumeText: string, jobDescription: string)

  /** The remote service: what each endpoint answers to a given request. */
  datatype Server = Server(
    upload: File -> Response<UploadResponse>,
    analyze: AnalyzeRequest -> Response<AnalyzeResponse>)

  /** What is handed to `dispatch`: a plain action or one of the two thunks. */
  datatype Dispatched =
    | Plain(action: Action)
    | UploadResumeThunk(file: File)
    | AnalyzeResumeThunk

  /** The analyze thunk's request body, read from the store when the thunk runs. */
  function AnalyzeRequestOf(s: ResumeState): (req: AnalyzeRequest)
    ensures req.resumeText == s.resumeText && req.jobDescription == s.jobDescription
    ensures forall a: Action :: !a.SetJobDescription? && !a.ResetOptimizer? && !a.UploadFulfilled? ==>
      AnalyzeRequest(Reduce(s, a).resumeText, Reduce(s, a).jobDescription) == req
  {
    AnalyzeRequest(s.resumeText, s.jobDescription)
  }

  /** The action a settled upload dispatches: the response body, or the failure's message. */
  function UploadSettled(r: Response<UploadResponse>): (a: Action)
    ensures a.Settles() && (a.UploadFulfilled? || a.UploadRejected?)
    ensures r.Success? <==> a.UploadFulfilled?
    ensures r.Success? ==> a.upload == r.data
    ensures r.Failure? ==> a.message == r.message
  {
    match r
    case Success(p) => UploadFulfilled(p)
    case Failure(m) => UploadRejected(m)
  }

  /** The action a settled analysis dispatches: the response body, or the failure's message. */
  function AnalyzeSettled(r: Response<AnalyzeResponse>): (a: Action)
    ensures a.Settles() && (a.AnalyzeFulfilled? || a.AnalyzeRejected?)
    ensures r.Success? <==> a.AnalyzeFulfilled?
    ensures r.Success? ==> a.analysis == r.data
    ensures r.Failure? ==> a.message == r.message
  {
    match r
    case Success(p) => AnalyzeFulfilled(p)
    case Failure(m) => AnalyzeRejected(m)
  }

  /**
   * The actions one dispatch feeds to the reducer when started from `s`. A
   * thunk first dispatches its pending action, then runs its payload creator
   * (the analyze thunk reads the store at that point), then dispatches the
   * fulfilled or rejected action.
   */
  function Events(s: ResumeState, d: Dispatched, server: Server): (es: seq<Action>)
    ensures d.Plain? ==> es == [d.action]
    ensures !d.Plain? ==> |es| == 2 && es[1].Settles()
    ensures d.UploadResumeThunk? ==>
      es[0] == UploadPending && es[1] == UploadSettled(server.upload(d.file))
    ensures d.AnalyzeResumeThunk? ==>
      es[0] == AnalyzePending && es[1] == AnalyzeSettled(server.analyze(AnalyzeRequest(s.resumeText, s.jobDescription)))
  {
    match d
    case Plain(a) => [a]
    case UploadResumeThunk(f) => [UploadPending, UploadSettled(server.upload(f))]
    case AnalyzeResumeThunk =>
      [AnalyzePending, AnalyzeSettled(server.analyze(AnalyzeRequestOf(Reduce(s, AnalyzePending))))]
  }

  /**
   * The record once one dispatch has been awaited: a plain action is reduced;
   * a thunk's pending action is reduced, then its settling action.
   */
  function AfterDispatch(s: ResumeState, d: Dispatched, server: Server): (r: ResumeState)
    ensures !d.Plain? ==> !r.isLoading && r.jobDescription == s.jobDescription
    ensures d.UploadResumeThunk? ==>
      r.keywords == s.keywords && r.matchedKeywords == s.matchedKeywords && r.score == s.score
    ensures d.AnalyzeResumeThunk? ==> r.resumeText == s.resumeText
  {
    match d
    case Plain(a) => Reduce(s, a)
    case UploadResumeThunk(f) => Reduce(Reduce(s, UploadPending), UploadSettled(server.upload(f)))
    case AnalyzeResumeThunk =>
      var pending := Reduce(s, AnalyzePending);
      Reduce(pending, AnalyzeSettled(server.analyze(AnalyzeRequestOf(pending))))
  }

  /**
   * The record after a sequence of dispatches, each one awaited before the next
   * starts. A run made only of thunks leaves the job description alone and,
   * since every request settles, ends idle.
   */
  function Run(s: ResumeState, ds: seq<Dispatched>, server: Server): (r: ResumeState)
    ensures (forall i :: 0 <= i < |ds| ==> !ds[i].Plain?) ==> r.jobDescription == s.jobDescription
    ensures (forall i :: 0 <= i < |ds| ==> !ds[i].Plain?) && |ds| > 0 ==> !r.isLoading
    decreases |ds|
  {
    if ds == [] then s
    else
      assert forall i :: 0 <= i < |ds| - 1 ==> ds[1..][i] == ds[i + 1];
      Run(AfterDispatch(s, ds[0], server), ds[1..], server)
  }

  /** The actions the reducer sees during `Run`. */
  function Trace(s: ResumeState, ds: seq<Dispatched>, server: Server): seq<Action>
    decreases |ds|
  {
    if ds == [] then []
    else Events(s, ds[0], server) + Trace(AfterDispatch(s, ds[0], server), ds[1..], server)
  }
}
