/**
  One scheduling pass: refresh the tracker, retire what it completed, then claim and prepare tasks
  one by one, writing the state file after every change. A pass that dies or fails leaves on disk
  one of the states it wrote, and the next pass starts from there.
 */
module SchedulingPass {
  import opened Wrappers
  import opened Records
  import opened Sequences

  // ----- What a pass reads off the effective tracker -----

  function Filter(tasks: Tracker, p: Task -> bool): seq<TaskId> {
    if tasks == [] then [] else (if p(tasks[0]) then [tasks[0].id] else []) + Filter(tasks[1..], p)
  }

  function InProgressIds(effective: Tracker): seq<TaskId> {
    Filter(effective, (t: Task) => t.status == InProgress)
  }

  function AvailableIds(effective: Tracker, done: set<TaskId>): seq<TaskId> {
    Filter(effective, (t: Task) => t.status == Pending && forall d | d in t.dependsOn :: d in done)
  }

  predicate IsPrepared(state: State, id: TaskId) { id in state && state[id].prepared }

  /** Claims whose preparation never finished; they are retried before more work is claimed. */
  function UnpreparedIds(effective: Tracker, state: State): seq<TaskId> {
    Filter(effective, (t: Task) => t.status == InProgress && !IsPrepared(state, t.id))
  }

  function Take(ids: seq<TaskId>, n: int): seq<TaskId> {
    if n <= 0 then [] else if n >= |ids| then ids else ids[..n]
  }

  function Active(tracker: Tracker, state: State): nat { |InProgressIds(Effective(tracker, state))| }

  /** The tasks a full pass works on, in order. */
  function WorkList(tracker: Tracker, state: State, capacity: nat): seq<TaskId> {
    var effective := Effective(tracker, state);
    UnpreparedIds(effective, state)
    + Take(AvailableIds(effective, CompletedIds(tracker)), capacity - Active(tracker, state))
  }

  /** Admission of one named task, with the status of the refusal. */
  function Requested(tracker: Tracker, state: State, id: TaskId, capacity: nat): Result<seq<TaskId>> {
    var found := Find(Effective(tracker, state), id);
    if found.None? then Refused(404)
    else if found.value.status != Pending && found.value.status != InProgress then Refused(409)
    else if exists d | d in found.value.dependsOn :: d !in CompletedIds(tracker) then Refused(409)
    else if found.value.status != InProgress && Active(tracker, state) >= capacity then Refused(409)
    else Ok([id])
  }

  // ----- What a pass writes -----

  const OWNER: string := "control-panel"

  function RecordOf(state: State, id: TaskId): TaskRecord {
    if id in state then state[id] else TaskRecord(Pending, false, false, false, None, None, map[])
  }

  function Claim(state: State, id: TaskId): State {
    state[id := RecordOf(state, id).(status := InProgress, expired := false, owner := Some(OWNER))]
  }

  function MarkFailed(state: State, id: TaskId): State {
    state[id := RecordOf(state, id).(prepareError := true)]
  }

  function MarkPrepared(state: State, id: TaskId): State {
    state[id := RecordOf(state, id).(prepareError := false, prepared := true)]
  }

  /** The states written, the last one, the tasks prepared and the task the pass stopped at. */
  datatype Work = Work(writes: seq<State>, state: State, prepared: seq<TaskId>, stopped: Option<TaskId>)

  /** Claim and prepare each task in turn; the branch work of the tasks in `failing` fails. */
  function Prepare(state: State, ids: seq<TaskId>, failing: set<TaskId>): (work: Work)
    ensures work.writes != [] ==> work.state == work.writes[|work.writes| - 1]
    ensures work.writes == [] ==> work.state == state
    decreases |ids|
  {
    if ids == [] then Work([], state, [], None) else
      var claimed := Claim(state, ids[0]);
      if ids[0] in failing then
        var failed := MarkFailed(claimed, ids[0]);
        Work([claimed, failed], failed, [], Some(ids[0]))
      else
        var done := MarkPrepared(claimed, ids[0]);
        var rest := Prepare(done, ids[1..], failing);
        Work([claimed, done] + rest.writes, rest.state, [ids[0]] + rest.prepared, rest.stopped)
  }

  /** The tasks a pass over an already retired state works on, or the refusal of the one named. */
  function Chosen(tracker: Tracker, retired: State, only: Option<TaskId>, capacity: nat): Result<seq<TaskId>> {
    if only.Some? then Requested(tracker, retired, only.value, capacity) else Ok(WorkList(tracker, retired, capacity))
  }

  function Pass(tracker: Tracker, state: State, only: Option<TaskId>, capacity: nat, failing: set<TaskId>): Work {
    var retired := Retired(tracker, state);
    var chosen := Chosen(tracker, retired, only, capacity);
    var work := Prepare(retired, if chosen.Ok? then chosen.value else [], failing);
    work.(writes := [retired] + work.writes)
  }

  // ----- What a pass answers -----

  /** The first of the tasks whose branch work fails. */
  predicate FirstFailing(ids: seq<TaskId>, failing: set<TaskId>, k: nat) {
    k < |ids| && ids[k] in failing && forall j | 0 <= j < k :: ids[j] !in failing
  }

  lemma {:induction false} PreparesAll(state: State, ids: seq<TaskId>, failing: set<TaskId>)
    requires forall id | id in ids :: id !in failing
    ensures Prepare(state, ids, failing).stopped.None? && Prepare(state, ids, failing).prepared == ids
    decreases |ids|
  {
    hide Claim, MarkPrepared;
    if ids == [] {
    } else {
      PreparesAll(MarkPrepared(Claim(state, ids[0]), ids[0]), ids[1..], failing);
      assert [ids[0]] + ids[1..] == ids;
    }
  }

  lemma {:induction false} StopsAt(state: State, ids: seq<TaskId>, failing: set<TaskId>, k: nat)
    requires FirstFailing(ids, failing, k)
    ensures Prepare(state, ids, failing).stopped == Some(ids[k]) && Prepare(state, ids, failing).prepared == ids[..k]
    decreases |ids|
  {
    hide Claim, MarkPrepared, MarkFailed;
    if k == 0 {
    } else {
      assert forall j | 0 <= j < |ids[1..]| :: ids[1..][j] == ids[j + 1];
      StopsAt(MarkPrepared(Claim(state, ids[0]), ids[0]), ids[1..], failing, k - 1);
      assert [ids[0]] + ids[1..][..k - 1] == ids[..k];
    }
  }

  lemma {:induction false} SomeFails(ids: seq<TaskId>, failing: set<TaskId>) returns (k: nat)
    requires exists id :: id in ids && id in failing
    ensures FirstFailing(ids, failing, k)
  {
    if ids[0] in failing {
      k := 0;
    } else {
      assert ids == [ids[0]] + ids[1..];
      var rest := SomeFails(ids[1..], failing);
      k := rest + 1;
      assert forall j | 0 < j < |ids| :: ids[j] == ids[1..][j - 1];
    }
  }

  lemma PrepareStops(state: State, ids: seq<TaskId>, failing: set<TaskId>)
    ensures (forall id | id in ids :: id !in failing) ==>
      Prepare(state, ids, failing).stopped.None? && Prepare(state, ids, failing).prepared == ids
    ensures forall k: nat | FirstFailing(ids, failing, k) ::
      Prepare(state, ids, failing).stopped == Some(ids[k]) && Prepare(state, ids, failing).prepared == ids[..k]
    ensures Prepare(state, ids, failing).stopped.Some? <==> exists id :: id in ids && id in failing
  {
    hide Prepare;
    if exists id :: id in ids && id in failing {
      var k := SomeFails(ids, failing);
      StopsAt(state, ids, failing, k);
    }
    if forall id | id in ids :: id !in failing { PreparesAll(state, ids, failing); }
    forall k: nat | FirstFailing(ids, failing, k)
      ensures Prepare(state, ids, failing).stopped == Some(ids[k]) && Prepare(state, ids, failing).prepared == ids[..k]
    {
      StopsAt(state, ids, failing, k);
    }
  }

  // ----- What a pass does to the records -----

  /** A claim keeps what the record holds besides: the mark, the error, the reason and every attempt. */
  predicate ClaimedRecord(was: TaskRecord, now: TaskRecord) {
    now == TaskRecord(
      InProgress, false, was.prepared, was.prepareError, Some("control-panel"), was.blockedReason, was.stages)
  }

  predicate PreparedRecord(was: TaskRecord, now: TaskRecord) {
    now == TaskRecord(InProgress, false, true, false, Some("control-panel"), was.blockedReason, was.stages)
  }

  predicate FailedRecord(was: TaskRecord, now: TaskRecord) {
    now == TaskRecord(InProgress, false, was.prepared, true, Some("control-panel"), was.blockedReason, was.stages)
  }

  /** A task without a record starts from an empty one. */
  lemma NewRecordIsEmpty(state: State, id: TaskId)
    ensures RecordOf(state, id) == if id in state then state[id] else TaskRecord(Pending, false, false, false, None, None, map[])
  {
  }

  lemma RecordSteps(state: State, id: TaskId)
    ensures id in Claim(state, id) && ClaimedRecord(RecordOf(state, id), Claim(state, id)[id])
    ensures
      var done, failed := MarkPrepared(Claim(state, id), id), MarkFailed(Claim(state, id), id);
      && id in done && PreparedRecord(RecordOf(state, id), done[id])
      && id in failed && FailedRecord(RecordOf(state, id), failed[id])
      && done.Keys == failed.Keys == Claim(state, id).Keys == state.Keys + {id}
      && forall x | x in state && x != id :: Claim(state, id)[x] == done[x] == failed[x] == state[x]
  {
  }

  /** The record of a task after a list was worked on: prepared, failed, or as it was. */
  ghost predicate RecordLeft(state: State, work: Work, id: TaskId) {
    if id in work.prepared then id in work.state && PreparedRecord(RecordOf(state, id), work.state[id])
    else if work.stopped == Some(id) then id in work.state && FailedRecord(RecordOf(state, id), work.state[id])
    else (id in work.state <==> id in state) && (id in state ==> work.state[id] == state[id])
  }

  lemma {:induction false} WorkedOnList(state: State, ids: seq<TaskId>, failing: set<TaskId>, id: TaskId)
    requires id !in ids
    ensures id !in Prepare(state, ids, failing).prepared && Prepare(state, ids, failing).stopped != Some(id)
    decreases |ids|
  {
    hide Claim, MarkPrepared, MarkFailed;
    if ids == [] {
    } else if ids[0] !in failing {
      WorkedOnList(MarkPrepared(Claim(state, ids[0]), ids[0]), ids[1..], failing, id);
    }
  }

  /** Of a list of different tasks each gets exactly what its own branch work came to. */
  lemma {:induction false} PrepareMeans(state: State, ids: seq<TaskId>, failing: set<TaskId>, id: TaskId)
    requires Distinct(ids)
    ensures RecordLeft(state, Prepare(state, ids, failing), id)
    decreases |ids|
  {
    hide Claim, MarkPrepared, MarkFailed, RecordOf, PreparedRecord, FailedRecord;
    if ids == [] {
    } else {
      RecordSteps(state, ids[0]);
      if ids[0] !in failing {
        var done, rest := MarkPrepared(Claim(state, ids[0]), ids[0]), ids[1..];
        assert forall i | 0 <= i < |rest| :: rest[i] == ids[i + 1];
        PrepareMeans(done, rest, failing, id);
        if id == ids[0] {
          WorkedOnList(done, rest, failing, id);
        } else {
          SameRecord(state, done, id);
        }
      }
    }
  }

  /** Only this task's record differs, and it is the given one. */
  ghost predicate OnlyRecord(before: State, after: State, id: TaskId) {
    && id in after && after.Keys == before.Keys + {id}
    && forall x | x in before && x != id :: after[x] == before[x]
  }

  /** A task is worked on in two writes: its claim, as the state stood, and then what its branch work came to. */
  ghost predicate PairWritten(before: State, claimed: State, after: State, id: TaskId, fails: bool) {
    && OnlyRecord(before, claimed, id) && ClaimedRecord(RecordOf(before, id), claimed[id])
    && OnlyRecord(before, after, id)
    && if fails then FailedRecord(RecordOf(before, id), after[id]) else PreparedRecord(RecordOf(before, id), after[id])
  }

  /** The `k`th pair of writes is that task's, starting from what stood before; a failure's is the last. */
  ghost predicate PairAt(state: State, writes: seq<State>, k: nat, id: TaskId, fails: bool) {
    && |writes| >= 2 * k + 2 && (fails ==> |writes| == 2 * k + 2)
    && PairWritten(if k == 0 then state else writes[2 * k - 1], writes[2 * k], writes[2 * k + 1], id, fails)
  }

  /** The states a pass goes through: each task in turn has its pair of writes, and the first failure ends it. */
  lemma {:induction false} WritesComeInPairs(state: State, ids: seq<TaskId>, failing: set<TaskId>, k: nat)
    requires k < |ids| && forall j | 0 <= j < k :: ids[j] !in failing
    ensures PairAt(state, Prepare(state, ids, failing).writes, k, ids[k], ids[k] in failing)
    decreases |ids|
  {
    hide Claim, MarkPrepared, MarkFailed, PairWritten;
    if k == 0 {
      FirstPair(state, ids[0]);
    } else {
      var done, rest := MarkPrepared(Claim(state, ids[0]), ids[0]), ids[1..];
      assert forall j | 0 <= j < |rest| :: rest[j] == ids[j + 1];
      WritesComeInPairs(done, rest, failing, k - 1);
      PrepareFirst(state, ids, failing);
      hide Prepare, PairAt;
      PairLater(state, Claim(state, ids[0]), done, Prepare(done, rest, failing).writes, k, ids[k], ids[k] in failing);
    }
  }

  lemma PrepareFirst(state: State, ids: seq<TaskId>, failing: set<TaskId>)
    requires ids != [] && ids[0] !in failing
    ensures
      var done := MarkPrepared(Claim(state, ids[0]), ids[0]);
      Prepare(state, ids, failing).writes == [Claim(state, ids[0]), done] + Prepare(done, ids[1..], failing).writes
  {
    hide Claim, MarkPrepared, MarkFailed;
  }

  lemma PairLater(state: State, claimed: State, done: State, rest: seq<State>, k: nat, id: TaskId, fails: bool)
    requires k >= 1 && PairAt(done, rest, k - 1, id, fails)
    ensures PairAt(state, [claimed, done] + rest, k, id, fails)
  {
    hide PairWritten;
    var writes := [claimed, done] + rest;
    assert writes[2 * k - 1] == if k == 1 then done else rest[2 * (k - 1) - 1];
    assert writes[2 * k] == rest[2 * (k - 1)] && writes[2 * k + 1] == rest[2 * (k - 1) + 1];
  }

  lemma FirstPair(state: State, id: TaskId)
    ensures
      var claimed := Claim(state, id);
      PairWritten(state, claimed, MarkFailed(claimed, id), id, true) && PairWritten(state, claimed, MarkPrepared(claimed, id), id, false)
  {
    RecordSteps(state, id);
  }

  lemma SameRecord(a: State, b: State, id: TaskId)
    requires (id in a <==> id in b) && (id in a ==> a[id] == b[id])
    ensures RecordOf(a, id) == RecordOf(b, id)
  {
  }

  datatype MergeEvent = MergeEvent(action: string, merged: bool, baseRef: string)

  datatype SyncOutcome =
    | Ignored
    | Prepared(ids: seq<TaskId>)
    | Stopped(task: TaskId, ids: seq<TaskId>)
    | Rejected(status: nat)

  function Report(chosen: Result<seq<TaskId>>, work: Work): SyncOutcome {
    if chosen.Refused? then Rejected(chosen.status)
    else if work.stopped.Some? then Stopped(work.stopped.value, work.prepared)
    else Prepared(work.prepared)
  }

  /** Without an event a pass always runs; with one, only for a merge into main. */
  predicate Triggers(event: Option<MergeEvent>) {
    event.Some? ==> event.value == MergeEvent("closed", true, "main")
  }

  ghost predicate BegunClaimed(work: (TaskId, State), id: TaskId) {
    work.0 == id && id in work.1
    && work.1[id].status == InProgress && !work.1[id].expired && work.1[id].owner == Some("control-panel")
  }

  /** Branch work was begun on the first `n` tasks of the list, in order, each claimed on disk by then. */
  ghost predicate BegunInOrder(before: seq<(TaskId, State)>, after: seq<(TaskId, State)>, ids: seq<TaskId>, n: nat) {
    && n <= |ids| && |after| == |before| + n && before <= after
    && forall k | 0 <= k < n :: BegunClaimed(after[|before| + k], ids[k])
  }

  lemma NothingBegun(begun: seq<(TaskId, State)>, ids: seq<TaskId>)
    ensures BegunInOrder(begun, begun, ids, 0)
  {
  }

  lemma BegunMore(before: seq<(TaskId, State)>, now: seq<(TaskId, State)>, ids: seq<TaskId>, n: nat, claimed: State)
    requires n < |ids| && BegunInOrder(before, now, ids, n)
    ensures BegunClaimed((ids[n], claimed), ids[n]) ==> BegunInOrder(before, now + [(ids[n], claimed)], ids, n + 1)
  {
    var after := now + [(ids[n], claimed)];
    assert forall k | 0 <= k < |now| :: after[k] == now[k];
  }

  lemma Regroup(before: seq<State>, state: State, after: seq<State>)
    ensures (before + [state]) + after == before + ([state] + after)
  {
  }

  /** What a pass has written and prepared, with what it makes of the tasks left, is its work. */
  ghost predicate Underway(work: Work, first: seq<State>, writes: seq<State>, prepared: seq<TaskId>, rest: Work) {
    && work.state == rest.state && work.stopped == rest.stopped
    && first + work.writes == writes + rest.writes && work.prepared == prepared + rest.prepared
  }

  /** So it is before the first task and, all being done, after the last. */
  lemma UnderwayEnds(first: seq<State>, state: State, ids: seq<TaskId>, failing: set<TaskId>)
    ensures Underway(Prepare(state, ids, failing), first, first, [], Prepare(state, ids, failing))
    ensures forall work, writes, prepared | Underway(work, first, writes, prepared, Prepare(state, [], failing)) ::
      work.state == state && work.stopped == None && first + work.writes == writes && work.prepared == prepared
  {
  }

  lemma UnderwayStep(
    work: Work, first: seq<State>, writes: seq<State>, prepared: seq<TaskId>, state: State, ids: seq<TaskId>, failing: set<TaskId>)
    requires ids != [] && Underway(work, first, writes, prepared, Prepare(state, ids, failing))
    ensures
      var claimed := Claim(state, ids[0]);
      var failed, done := MarkFailed(claimed, ids[0]), MarkPrepared(claimed, ids[0]);
      if ids[0] in failing then
        && work.state == failed && work.stopped == Some(ids[0]) && work.prepared == prepared
        && first + work.writes == writes + [claimed] + [failed]
      else Underway(work, first, writes + [claimed] + [done], prepared + [ids[0]], Prepare(done, ids[1..], failing))
  {
    hide Claim, MarkFailed, MarkPrepared;
    var claimed := Claim(state, ids[0]);
    var failed, done := MarkFailed(claimed, ids[0]), MarkPrepared(claimed, ids[0]);
    if ids[0] in failing {
      assert writes + [claimed, failed] == writes + [claimed] + [failed];
    } else {
      var rest := Prepare(done, ids[1..], failing);
      assert writes + ([claimed, done] + rest.writes) == writes + [claimed] + [done] + rest.writes;
      assert prepared + ([ids[0]] + rest.prepared) == prepared + [ids[0]] + rest.prepared;
    }
  }

  class Scheduler {
    const capacity: nat
    var trackerFile: Tracker
    var stateFile: State
    /** Every version of the state file written so far. */
    ghost var writes: seq<State>
    /** Every task whose branch work was begun, with the state file at that moment. */
    ghost var begun: seq<(TaskId, State)>

    constructor (capacity: nat, tracker: Tracker, state: State)
      requires capacity >= 1
      ensures this.capacity == capacity && trackerFile == tracker && stateFile == state && writes == [] && begun == []
    {
      this.capacity := capacity;
      trackerFile, stateFile, writes, begun := tracker, state, [], [];
    }

    method WriteState(state: State)
      modifies this`stateFile, this`writes
      ensures stateFile == state && writes == old(writes) + [state]
    {
      stateFile, writes := state, writes + [state];
    }

    /** The claim is on disk when the branch work begins. */
    method ClaimOnDisk(id: TaskId, state: State) returns (claimed: State)
      modifies this`stateFile, this`writes, this`begun
      ensures claimed == Claim(state, id) && stateFile == claimed && writes == old(writes) + [claimed]
      ensures begun == old(begun) + [(id, claimed)] && BegunClaimed((id, claimed), id)
    {
      RecordSteps(state, id);
      claimed := Claim(state, id);
      WriteState(claimed);
      begun := begun + [(id, stateFile)];
    }

    /** The claiming loop of a pass: each task is claimed on disk before its branch work starts. */
    method PrepareEach(ids: seq<TaskId>, failing: set<TaskId>)
      returns (prepared: seq<TaskId>, stopped: Option<TaskId>)
      modifies this`stateFile, this`writes, this`begun
      // branch work begins, in the order of the list, with the task claimed on disk
      ensures BegunInOrder(old(begun), begun, ids, |prepared| + if stopped.Some? then 1 else 0)
      ensures
        var work := Prepare(old(stateFile), ids, failing);
        && stateFile == work.state && writes == old(writes) + work.writes
        && prepared == work.prepared && stopped == work.stopped
    {
      hide Claim, MarkFailed, MarkPrepared, BegunClaimed, BegunInOrder, Prepare, Underway;
      prepared, stopped := [], None;
      var state := stateFile;
      ghost var work, first := Prepare(state, ids, failing), writes;
      NothingBegun(begun, ids);
      UnderwayEnds(first, state, ids, failing);
      assert ids[0..] == ids;
      for i := 0 to |ids|
        invariant stateFile == state && stopped == None && |prepared| == i
        invariant BegunInOrder(old(begun), begun, ids, i)
        invariant Underway(work, first, writes, prepared, Prepare(state, ids[i..], failing))
      {
        var id := ids[i];
        UnderwayStep(work, first, writes, prepared, state, ids[i..], failing);
        assert ids[i..][1..] == ids[i + 1..];
        BegunMore(old(begun), begun, ids, i, Claim(state, id));
        state := ClaimOnDisk(id, state);
        if id in failing {
          state := MarkFailed(state, id);
          WriteState(state);
          return prepared, Some(id);
        }
        state := MarkPrepared(state, id);
        WriteState(state);
        prepared := prepared + [id];
      }
      assert ids[|ids|..] == [];
      UnderwayEnds(first, state, ids, failing);
    }

    method Select(tracker: Tracker, state: State) returns (ids: seq<TaskId>)
      ensures ids == WorkList(tracker, state, capacity)
    {
      var effective := EffectiveTracker(tracker, state);
      var active := |InProgressIds(effective)|;
      var selected := Take(AvailableIds(effective, CompletedIds(tracker)), capacity - active);
      ids := UnpreparedIds(effective, state) + selected;
    }

    /** The part of a pass after the refresh has been written. */
    method Dispatch(tracker: Tracker, only: Option<TaskId>, failing: set<TaskId>) returns (outcome: SyncOutcome)
      modifies this`stateFile, this`writes, this`begun
      ensures
        var chosen := Chosen(tracker, old(stateFile), only, capacity);
        var work := Prepare(old(stateFile), if chosen.Ok? then chosen.value else [], failing);
        && stateFile == work.state && writes == old(writes) + work.writes
        && outcome == Report(chosen, work)
    {
      var chosen: Result<seq<TaskId>>;
      if only.Some? {
        chosen := Requested(tracker, stateFile, only.value, capacity);
      } else {
        var ids := Select(tracker, stateFile);
        chosen := Ok(ids);
      }
      if chosen.Refused? {
        return Rejected(chosen.status);
      }
      var prepared, stopped := PrepareEach(chosen.value, failing);
      return if stopped.Some? then Stopped(stopped.value, prepared) else Prepared(prepared);
    }

    /**
      `main` is the tracker just pulled, absent when the checkout conflicts; `failing` are the
      tasks whose branch work will fail.
     */
    method Sync(event: Option<MergeEvent>, only: Option<TaskId>, main: Option<Tracker>, failing: set<TaskId>)
      returns (outcome: SyncOutcome)
      modifies this
      ensures !Triggers(event) ==> outcome == Ignored && unchanged(this)
      ensures outcome == Ignored <==>
        event.Some? && !(event.value.action == "closed" && event.value.merged && event.value.baseRef == "main")
      ensures Triggers(event) && main.None? ==> outcome == Rejected(409) && unchanged(this)
      ensures Triggers(event) && main.Some? ==>
        var work := Pass(main.value, old(stateFile), only, capacity, failing);
        && trackerFile == main.value
        && writes == old(writes) + work.writes
        && stateFile == work.state
        && outcome == Report(Chosen(main.value, Retired(main.value, old(stateFile)), only, capacity), work)
      // the answer: refused, everything chosen in order, or the first failure and what was prepared before it
      ensures Triggers(event) && main.Some? ==>
        var chosen := Chosen(main.value, Retired(main.value, old(stateFile)), only, capacity);
        && (chosen.Refused? ==> outcome == Rejected(chosen.status))
        && (chosen.Ok? ==> (outcome.Stopped? <==> exists id :: id in chosen.value && id in failing))
        && (chosen.Ok? && (forall id | id in chosen.value :: id !in failing) ==> outcome == Prepared(chosen.value))
        && (chosen.Ok? ==> forall k: nat | FirstFailing(chosen.value, failing, k) ::
              outcome == Stopped(chosen.value[k], chosen.value[..k]))
    {
      hide Prepare, Chosen, Retired;
      if !Triggers(event) {
        return Ignored;
      }
      if main.None? {
        return Rejected(409);
      }
      var tracker := main.value;
      var local := new LocalState(stateFile);
      var _ := local.RetireCompleted(tracker);
      var state := local.tasks;
      trackerFile := tracker;
      WriteState(state);
      ghost var chosen := Chosen(tracker, state, only, capacity);
      ghost var inner := Prepare(state, if chosen.Ok? then chosen.value else [], failing).writes;
      outcome := Dispatch(tracker, only, failing);
      Regroup(old(writes), state, inner);
      if chosen.Ok? { PrepareStops(state, chosen.value, failing); }
    }
  }
}
