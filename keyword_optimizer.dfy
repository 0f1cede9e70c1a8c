/**
 * The decision logic of the KeywordOptimizer component
 * (src/components/KeywordOptimizer.tsx): the derived "missing keywords" list,
 * the two rendering predicates, and the event handlers, whose dispatches are
 * returned as a list so that they can be run against the slice.
 */
module Optimizer {
  import opened Types
  import opened ResumeSlice
  import opened ResumeSliceProps

  // ---------------------------------------------------------------------------
  // Missing keywords

  /**
   * The missing keywords: the keyword list, front to back, with every entry
   * that also occurs among the matched keywords dropped.
   */
  function MissingKeywords(keywords: seq<string>, matched: seq<string>): (r: seq<string>)
    ensures |r| <= |keywords|
    ensures forall k :: k in r ==> k in keywords && k !in matched
    decreases |keywords|
  {
    if keywords == [] then []
    else (if keywords[0] in matched then [] else [keywords[0]]) + MissingKeywords(keywords[1..], matched)
  }

  /** `xs` is `ys` with some elements dropped and the rest kept in order. */
  predicate IsSubsequence(xs: seq<string>, ys: seq<string>)
    decreases |ys|
  {
    if ys == [] then xs == []
    else (xs != [] && xs[0] == ys[0] && IsSubsequence(xs[1..], ys[1..])) || IsSubsequence(xs, ys[1..])
  }

  /** The missing keywords appear in the order the keywords list has them. */
  lemma {:induction false} MissingIsOrderedSubsequence(keywords: seq<string>, matched: seq<string>)
    ensures IsSubsequence(MissingKeywords(keywords, matched), keywords)
    decreases |keywords|
  {
    if keywords != [] {
      var rest := MissingKeywords(keywords[1..], matched);
      MissingIsOrderedSubsequence(keywords[1..], matched);
      var r := MissingKeywords(keywords, matched);
      if keywords[0] in matched {
        assert r == rest;
      } else {
        assert r == [keywords[0]] + rest;
        assert r[1..] == rest;
      }
    }
  }

  /**
   * Each keyword not matched is listed as often as it occurs in the keywords
   * list, duplicates included; a matched keyword is never listed.
   */
  lemma {:induction false} MissingCounts(keywords: seq<string>, matched: seq<string>)
    ensures forall x :: multiset(MissingKeywords(keywords, matched))[x] ==
                        if x in matched then 0 else multiset(keywords)[x]
    decreases |keywords|
  {
    if keywords != [] {
      MissingCounts(keywords[1..], matched);
      assert keywords == [keywords[0]] + keywords[1..];
      assert multiset(keywords) == multiset([keywords[0]]) + multiset(keywords[1..]);
    }
  }

  /** With nothing matched, every keyword is missing. */
  lemma {:induction false} NothingMatchedAllMissing(keywords: seq<string>)
    ensures MissingKeywords(keywords, []) == keywords
    decreases |keywords|
  {
    if keywords != [] {
      NothingMatchedAllMissing(keywords[1..]);
      assert keywords == [keywords[0]] + keywords[1..];
    }
  }

  /** With every keyword matched, nothing is missing. */
  lemma AllMatchedNoneMissing(keywords: seq<string>, matched: seq<string>)
    requires forall k :: k in keywords ==> k in matched
    ensures MissingKeywords(keywords, matched) == []
  {
  }

  // ---------------------------------------------------------------------------
  // Rendering predicates

  /**
   * The Analyze button is disabled when no file is selected, when the job
   * description is empty, or while a request is in flight.
   */
  function AnalyzeDisabled(selectedFile: Option<File>, s: ResumeState): (disabled: bool)
    ensures !disabled <==> selectedFile.Some? && s.jobDescription != "" && !s.isLoading
  {
    selectedFile.None? || s.jobDescription == "" || s.isLoading
  }

  /**
   * The results card is rendered when no request is in flight and at least one
   * of the two keyword lists is non-empty.
   */
  function ResultsVisible(s: ResumeState): (visible: bool)
    ensures visible <==> !s.isLoading && (s.keywords != [] || s.matchedKeywords != [])
  {
    !s.isLoading && (|s.keywords| > 0 || |s.matchedKeywords| > 0)
  }

  /**
   * The store's starting record: nothing uploaded, no job description, no
   * results, no error; the button is disabled and the results card hidden.
   */
  lemma InitialStateShowsNothing(selectedFile: Option<File>)
    ensures InitialState.resumeText == "" && InitialState.jobDescription == ""
    ensures InitialState.keywords == [] && InitialState.matchedKeywords == [] && InitialState.score == 0
    ensures !InitialState.isLoading && InitialState.error == None
    ensures UntouchedAsInitially(InitialState)
    ensures AnalyzeDisabled(selectedFile, InitialState) && !ResultsVisible(InitialState)
  {
  }

  /** While a request is in flight the Analyze button is disabled, whatever file is selected. */
  lemma DisabledWhileRequestInFlight(selectedFile: Option<File>, s: ResumeState, a: Action)
    requires a.UploadPending? || a.AnalyzePending?
    ensures AnalyzeDisabled(selectedFile, Reduce(s, a))
    ensures !ResultsVisible(Reduce(s, a))
  {
  }

  /** How each action decides whether the results card is shown afterwards. */
  lemma ResultsVisibleAfter(s: ResumeState, a: Action)
    ensures a.UploadPending? || a.AnalyzePending? || a.ResetOptimizer? ==> !ResultsVisible(Reduce(s, a))
    ensures a.AnalyzeFulfilled? ==>
      (ResultsVisible(Reduce(s, a)) <==> |a.analysis.keywords| > 0 || |a.analysis.matchedKeywords| > 0)
    ensures a.UploadFulfilled? || a.UploadRejected? || a.AnalyzeRejected? ==>
      (ResultsVisible(Reduce(s, a)) <==> |s.keywords| > 0 || |s.matchedKeywords| > 0)
    ensures a.SetJobDescription? ==> (ResultsVisible(Reduce(s, a)) <==> ResultsVisible(s))
  {
  }

  // ---------------------------------------------------------------------------
  // Handlers

  /**
   * What `handleAnalyze` dispatches, in order, given the selected file and the
   * job description captured when the component last rendered. The upload is
   * awaited, but its outcome is not consulted.
   */
  function AnalyzeDispatches(selectedFile: Option<File>, jobDescription: string): (ds: seq<Dispatched>)
    ensures selectedFile.None? ==> ds == []
    ensures selectedFile.Some? ==> |ds| > 0 && ds[0] == UploadResumeThunk(selectedFile.value)
    ensures AnalyzeResumeThunk in ds <==> selectedFile.Some? && jobDescription != ""
    ensures forall i :: 1 <= i < |ds| ==> ds[i] == AnalyzeResumeThunk
    ensures |ds| <= 2
  {
    if selectedFile.None? then []
    else [UploadResumeThunk(selectedFile.value)] + if jobDescription != "" then [AnalyzeResumeThunk] else []
  }

  /** The component and its one piece of local state, the selected file. */
  class KeywordOptimizer {
    var selectedFile: Option<File>

    constructor ()
      ensures selectedFile == None
    {
      selectedFile := None;
    }

    /** `handleResumeFileSelect`: the first picked file, if any, becomes the selection. */
    method HandleResumeFileSelect(files: seq<File>)
      modifies this
      ensures |files| > 0 ==> selectedFile == Some(files[0])
      ensures |files| == 0 ==> selectedFile == old(selectedFile)
    {
      if |files| > 0 {
        selectedFile := Some(files[0]);
      }
    }

    /** `handleJobDescriptionChange`: every edit dispatches `setJobDescription`. */
    method HandleJobDescriptionChange(value: string) returns (ds: seq<Dispatched>)
      ensures ds == [Plain(SetJobDescription(value))]
    {
      ds := [Plain(SetJobDescription(value))];
    }

    /** `handleAnalyze`, with the render-time job description as its input. */
    method HandleAnalyze(jobDescription: string) returns (ds: seq<Dispatched>)
      ensures ds == AnalyzeDispatches(selectedFile, jobDescription)
    {
      ds := [];
      if selectedFile.None? {
        return;
      }
      ds := ds + [UploadResumeThunk(selectedFile.value)];
      if jobDescription != "" {
        ds := ds + [AnalyzeResumeThunk];
      }
    }

    /** `handleReset`: dispatch `resetOptimizer`, then forget the selected file. */
    method HandleReset() returns (ds: seq<Dispatched>)
      modifies this
      ensures ds == [Plain(ResetOptimizer)] && selectedFile == None
    {
      ds := [Plain(ResetOptimizer)];
      selectedFile := None;
    }
  }

  // ---------------------------------------------------------------------------
  // Clicking Analyze, run against the slice

  /** An enabled button issues both requests, upload first. */
  lemma EnabledClickIssuesBothRequests(selectedFile: Option<File>, s: ResumeState)
    requires !AnalyzeDisabled(selectedFile, s)
    ensures AnalyzeDispatches(selectedFile, s.jobDescription) == [UploadResumeThunk(selectedFile.value), AnalyzeResumeThunk]
  {
  }

  lemma RunSingle(s: ResumeState, d: Dispatched, server: Server)
    ensures Run(s, [d], server) == AfterDispatch(s, d, server)
  {
    assert [d][1..] == [];
  }

  lemma RunPair(s: ResumeState, d: Dispatched, e: Dispatched, server: Server)
    ensures Run(s, [d, e], server) == AfterDispatch(AfterDispatch(s, d, server), e, server)
  {
    assert [d, e][1..] == [e];
    RunSingle(AfterDispatch(s, d, server), e, server);
  }

  /** Without a selected file, a click changes nothing. */
  lemma ClickWithoutFile(s: ResumeState, jobDescription: string, server: Server)
    ensures Run(s, AnalyzeDispatches(None, jobDescription), server) == s
  {
  }

  /**
   * With a file but an empty captured job description, only the upload runs:
   * the analysis results stay as they were.
   */
  lemma ClickWithoutJobDescription(s: ResumeState, f: File, server: Server)
    ensures var r := Run(s, AnalyzeDispatches(Some(f), ""), server);
      var up := server.upload(f);
      !r.isLoading && r.jobDescription == s.jobDescription &&
      r.keywords == s.keywords && r.matchedKeywords == s.matchedKeywords && r.score == s.score &&
      (up.Success? ==> r.resumeText == up.data.text && r.error == None) &&
      (up.Failure? ==> r.resumeText == s.resumeText && r.error == Some(ErrorText(up.message, UploadFailedMessage)))
  {
    var d := UploadResumeThunk(f);
    assert AnalyzeDispatches(Some(f), "") == [d];
    RunSingle(s, d, server);
  }

  /**
   * With a file and a non-empty captured job description, the analyze request
   * goes out whatever the upload's outcome. It carries the store's job
   * description and the resume text the store holds after the upload: the new
   * text on success, the previous one on failure. The final record reflects the
   * analyze outcome alone; an upload error does not survive.
   */
  lemma ClickWithJobDescription(s: ResumeState, f: File, jobDescription: string, server: Server)
    requires jobDescription != ""
    ensures var up := server.upload(f);
      var text := if up.Success? then up.data.text else s.resumeText;
      var an := server.analyze(AnalyzeRequest(text, s.jobDescription));
      var r := Run(s, AnalyzeDispatches(Some(f), jobDescription), server);
      !r.isLoading && r.resumeText == text && r.jobDescription == s.jobDescription &&
      (an.Success? ==> r.error == None && r.keywords == an.data.keywords &&
                       r.matchedKeywords == an.data.matchedKeywords && r.score == an.data.score) &&
      (an.Failure? ==> r.error == Some(ErrorText(an.message, AnalyzeFailedMessage)) &&
                       r.keywords == s.keywords && r.matchedKeywords == s.matchedKeywords && r.score == s.score)
  {
    var d, e := UploadResumeThunk(f), AnalyzeResumeThunk;
    assert AnalyzeDispatches(Some(f), jobDescription) == [d, e];
    RunPair(s, d, e, server);
  }

  /**
   * A worked session: the upload returns "John Doe, 5 years Python", the job
   * description is "Seeking Python engineer", and the service scores 50 with
   * "Python" matched out of "Python" and "engineer".
   */
  lemma PythonEngineerSession(s: ResumeState, f: File)
    requires s.jobDescription == "Seeking Python engineer"
    ensures var analysis := AnalyzeResponse(["Python", "engineer"], ["Python"], 50, None, None, None);
      var server := Server(_ => Success(UploadResponse("John Doe, 5 years Python")), _ => Success(analysis));
      var r := Run(s, AnalyzeDispatches(Some(f), s.jobDescription), server);
      r.score == 50 && r.matchedKeywords == ["Python"] && r.error == None &&
      r.resumeText == "John Doe, 5 years Python" &&
      MissingKeywords(r.keywords, r.matchedKeywords) == ["engineer"] && ResultsVisible(r)
  {
    var analysis := AnalyzeResponse(["Python", "engineer"], ["Python"], 50, None, None, None);
    var server := Server(_ => Success(UploadResponse("John Doe, 5 years Python")), _ => Success(analysis));
    ClickWithJobDescription(s, f, s.jobDescription, server);
    var r := Run(s, AnalyzeDispatches(Some(f), s.jobDescription), server);
    assert r.keywords == ["Python", "engineer"];
    assert ["Python", "engineer"][1..] == ["engineer"];
    assert ["engineer"][1..] == [];
  }

  /**
   * Nothing keeps matched keywords inside the keyword list: a response that
   * matches a keyword it did not list is stored as it is and shown.
   */
  lemma MatchedNeedNotBeKeywords()
    ensures var p := AnalyzeResponse(["Go"], ["Rust"], 0, None, None, None);
      var r := Reduce(InitialState, AnalyzeFulfilled(p));
      "Rust" in r.matchedKeywords && "Rust" !in r.keywords && ResultsVisible(r) &&
      MissingKeywords(r.keywords, r.matchedKeywords) == ["Go"]
  {
    assert ["Go"][1..] == [];
  }
}
