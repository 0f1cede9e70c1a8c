/**
 * Properties of the `resume` slice over sequences of actions and dispatches.
 */
module ResumeSliceProps {
  import opened Types
  import opened ResumeSlice

  /** Replaying two sequences one after the other is replaying their concatenation. */
  lemma {:induction false} ReplayConcat(s: ResumeState, xs: seq<Action>, ys: seq<Action>)
    ensures Replay(s, xs + ys) == Replay(Replay(s, xs), ys)
    decreases |xs|
  {
    if xs != [] {
      assert (xs + ys)[0] == xs[0];
      assert (xs + ys)[1..] == xs[1..] + ys;
      ReplayConcat(Reduce(s, xs[0]), xs[1..], ys);
    } else {
      assert xs + ys == ys;
    }
  }

  lemma ReplaySingle(s: ResumeState, a: Action)
    ensures Replay(s, [a]) == Reduce(s, a)
  {
    assert [a][1..] == [];
  }

  lemma ReplayPair(s: ResumeState, a: Action, b: Action)
    ensures Replay(s, [a, b]) == Reduce(Reduce(s, a), b)
  {
    assert [a, b][1..] == [b];
    ReplaySingle(Reduce(s, a), b);
  }

  /** Awaiting one dispatch is replaying the actions it feeds to the reducer. */
  lemma AfterDispatchReplaysEvents(s: ResumeState, d: Dispatched, server: Server)
    ensures AfterDispatch(s, d, server) == Replay(s, Events(s, d, server))
  {
    var es := Events(s, d, server);
    if d.Plain? {
      ReplaySingle(s, d.action);
    } else {
      ReplayPair(s, es[0], es[1]);
    }
  }

  /** Running dispatches is replaying the actions they feed to the reducer. */
  lemma {:induction false} RunIsReplayOfTrace(s: ResumeState, ds: seq<Dispatched>, server: Server)
    ensures Run(s, ds, server) == Replay(s, Trace(s, ds, server))
    decreases |ds|
  {
    if ds != [] {
      var es := Events(s, ds[0], server);
      var next := AfterDispatch(s, ds[0], server);
      AfterDispatchReplaysEvents(s, ds[0], server);
      RunIsReplayOfTrace(next, ds[1..], server);
      ReplayConcat(s, es, Trace(next, ds[1..], server));
    }
  }

  /**
   * Reference definition of the stored job description: the text of the last
   * `setJobDescription`, or the empty text of a later `resetOptimizer`, or the
   * starting value when neither occurs.
   */
  function LastJobDescription(start: string, actions: seq<Action>): string
    decreases |actions|
  {
    if actions == [] then start
    else match actions[|actions| - 1]
      case SetJobDescription(text) => text
      case ResetOptimizer => ""
      case _ => LastJobDescription(start, actions[..|actions| - 1])
  }

  /** Whatever else happens in between, the stored job description is the last one set. */
  lemma {:induction false} JobDescriptionIsLastSet(s: ResumeState, actions: seq<Action>)
    ensures Replay(s, actions).jobDescription == LastJobDescription(s.jobDescription, actions)
    decreases |actions|
  {
    if actions != [] {
      var n := |actions| - 1;
      var front := actions[..n];
      assert actions == front + [actions[n]];
      ReplayConcat(s, front, [actions[n]]);
      JobDescriptionIsLastSet(s, front);
    }
  }

  /** After a run of edits alone, the job description is the last text and nothing else moved. */
  lemma {:induction false} LastEditWins(s: ResumeState, edits: seq<Action>)
    requires |edits| > 0
    requires forall i :: 0 <= i < |edits| ==> edits[i].SetJobDescription?
    ensures Replay(s, edits) == s.(jobDescription := edits[|edits| - 1].text)
    decreases |edits|
  {
    if |edits| > 1 {
      LastEditWins(Reduce(s, edits[0]), edits[1..]);
    }
  }

  /** A sequence that ends in `resetOptimizer` ends at the initial record, whatever came before. */
  lemma {:induction false} ResetEndsAtInitial(s: ResumeState, actions: seq<Action>)
    requires |actions| > 0 && actions[|actions| - 1] == ResetOptimizer
    ensures Replay(s, actions) == InitialState
    ensures Reduce(Reduce(s, ResetOptimizer), ResetOptimizer) == Reduce(s, ResetOptimizer)
  {
    var n := |actions| - 1;
    assert actions == actions[..n] + [ResetOptimizer];
    ReplayConcat(s, actions[..n], [ResetOptimizer]);
  }

  /** The fields no reducer assigns keep the values `initialState` gives them. */
  predicate UntouchedAsInitially(s: ResumeState) {
    s.fileUploadProgress == 0 && s.suggestions.None? &&
    s.keySkillsAnalysis.None? && s.improvementAreas.None?
  }

  /**
   * In every record reachable from the initial one, `fileUploadProgress` is 0 and
   * the three optional result fields are absent, whatever the service returned.
   */
  lemma {:induction false} UntouchedFieldsStayInitial(s: ResumeState, actions: seq<Action>)
    requires UntouchedAsInitially(s)
    ensures UntouchedAsInitially(Replay(s, actions))
    decreases |actions|
  {
    if actions != [] {
      UntouchedFieldsStayInitial(Reduce(s, actions[0]), actions[1..]);
    }
  }

  /** An upload failure is wiped from `error` as soon as the analyze request starts. */
  lemma UploadErrorClearedByAnalyzePending(s: ResumeState, message: Option<string>)
    ensures Reduce(s, UploadRejected(message)).error.Some?
    ensures var r := Replay(s, [UploadRejected(message), AnalyzePending]);
      r.error == None && r.isLoading && r.resumeText == s.resumeText
  {
    ReplayPair(s, UploadRejected(message), AnalyzePending);
  }

  /**
   * A dispatch sequence with no bare pending action leaves the store idle once
   * it has run: every request it starts also settles.
   */
  lemma {:induction false} RunEndsIdle(s: ResumeState, ds: seq<Dispatched>, server: Server)
    requires !s.isLoading
    requires forall i :: 0 <= i < |ds| && ds[i].Plain? ==>
      !ds[i].action.UploadPending? && !ds[i].action.AnalyzePending?
    ensures !Run(s, ds, server).isLoading
    decreases |ds|
  {
    if ds != [] {
      RunEndsIdle(AfterDispatch(s, ds[0], server), ds[1..], server);
    }
  }
}
