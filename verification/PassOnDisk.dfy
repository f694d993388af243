/**
  Scheduling passes and dispatches share one state file. A pass writes it many times but never
  touches an attempt list, so a run of the dispatch machine goes on through any number of passes.
 */
module PassOnDisk {
  import opened Wrappers
  import opened Records
  import opened SchedulingPass
  import opened Dispatch
  import opened DispatchProofs

  ghost predicate SameAttempts(a: State, b: State) {
    forall t, s :: Attempts(a, t, s) == Attempts(b, t, s)
  }

  /** The run goes on with one write of the state file after another. */
  ghost function Writing(run: Run, writes: seq<State>): Run
    decreases |writes|
  {
    if writes == [] then run else Writing(Then(run, OtherWrite(writes[0])), writes[1..])
  }

  lemma TouchesNoAttempt(state: State, id: TaskId)
    ensures SameAttempts(state, Claim(state, id))
    ensures SameAttempts(state, MarkFailed(state, id))
    ensures SameAttempts(state, MarkPrepared(state, id))
  {
  }

  lemma {:induction false} PrepareTouchesNoAttempt(state: State, ids: seq<TaskId>, failing: set<TaskId>)
    ensures forall written | written in Prepare(state, ids, failing).writes :: SameAttempts(state, written)
    decreases |ids|
  {
    if ids == [] {
    } else {
      var claimed := Claim(state, ids[0]);
      TouchesNoAttempt(state, ids[0]);
      TouchesNoAttempt(claimed, ids[0]);
      if ids[0] !in failing {
        PrepareTouchesNoAttempt(MarkPrepared(claimed, ids[0]), ids[1..], failing);
      }
    }
  }

  lemma PassTouchesNoAttempt(tracker: Tracker, state: State, only: Option<TaskId>, capacity: nat, failing: set<TaskId>)
    ensures forall written | written in Pass(tracker, state, only, capacity, failing).writes :: SameAttempts(state, written)
  {
    var retired := Retired(tracker, state);
    var chosen := Chosen(tracker, retired, only, capacity);
    PrepareTouchesNoAttempt(retired, if chosen.Ok? then chosen.value else [], failing);
  }

  lemma {:induction false} WritesGoOn(run: Run, w: World, writes: seq<State>)
    requires Outcome(run) == Some(w) && w.phase.Idle?
    requires forall written | written in writes :: SameAttempts(w.disk, written)
    ensures
      var after := Outcome(Writing(run, writes));
      && after.Some? && after.value.phase.Idle?
      && after.value.disk == (if writes == [] then w.disk else writes[|writes| - 1])
      && after.value.sessions == w.sessions && after.value.expiries == w.expiries && after.value.refs == w.refs
    decreases |writes|
  {
    if writes == [] {
    } else {
      assert SameAttempts(w.disk, writes[0]);
      var next := Apply(w, OtherWrite(writes[0]));
      forall written | written in writes[1..] ensures SameAttempts(next.disk, written) {
        assert SameAttempts(w.disk, written);
      }
      WritesGoOn(Then(run, OtherWrite(writes[0])), next, writes[1..]);
    }
  }

  /**
    A pass, stopped after any number of its writes, extends a run of the dispatch machine: at-most-once
    dispatch and the rules about branches hold across passes, and the pass starts no session.
   */
  lemma PassExtendsRun(
    run: Run, w: World, tracker: Tracker, only: Option<TaskId>, capacity: nat, failing: set<TaskId>, k: nat)
    requires Outcome(run) == Some(w) && w.phase.Idle?
    requires k <= |Pass(tracker, w.disk, only, capacity, failing).writes|
    ensures
      var writes := Pass(tracker, w.disk, only, capacity, failing).writes[..k];
      var after := Outcome(Writing(run, writes));
      && after.Some? && after.value.phase.Idle? && after.value.sessions == w.sessions
      && after.value.disk == (if k == 0 then w.disk else writes[k - 1])
  {
    PassTouchesNoAttempt(tracker, w.disk, only, capacity, failing);
    WritesGoOn(run, w, Pass(tracker, w.disk, only, capacity, failing).writes[..k]);
  }
}
