/**
  What passes guarantee over every tracker, state file, capacity and pattern of failures: a pass is
  a fixpoint, capacity and dependencies are respected in every state written, and passes that fail
  or die converge to what one undisturbed pass does, exactly when no task to be claimed already
  carries a preparation mark.
 */
module SchedulingProofs {
  import opened Wrappers
  import opened Records
  import opened SchedulingPass
  import opened Sequences

  // ----- Filters over a tracker with unique ids -----

  lemma {:induction false} FilterMembers(tasks: Tracker, p: Task -> bool)
    ensures forall id :: id in Filter(tasks, p) <==> exists i :: 0 <= i < |tasks| && tasks[i].id == id && p(tasks[i])
  {
    if tasks == [] {
    } else {
      FilterMembers(tasks[1..], p);
      forall id ensures id in Filter(tasks, p) <==> exists i :: 0 <= i < |tasks| && tasks[i].id == id && p(tasks[i]) {
        if i :| 0 <= i < |tasks| && tasks[i].id == id && p(tasks[i]) {
          if i > 0 { assert tasks[1..][i - 1] == tasks[i]; }
        }
        if id in Filter(tasks[1..], p) {
          var i :| 0 <= i < |tasks[1..]| && tasks[1..][i].id == id && p(tasks[1..][i]);
          assert tasks[i + 1].id == id;
        }
      }
    }
  }

  lemma {:induction false} FilterDistinct(tasks: Tracker, p: Task -> bool)
    requires UniqueIds(tasks)
    ensures forall i, j | 0 <= i < j < |Filter(tasks, p)| :: Filter(tasks, p)[i] != Filter(tasks, p)[j]
  {
    if tasks == [] {
    } else {
      FilterDistinct(tasks[1..], p);
      FilterMembers(tasks[1..], p);
      assert forall i | 0 <= i < |tasks[1..]| :: tasks[1..][i] == tasks[i + 1];
      assert tasks[0].id !in Filter(tasks[1..], p);
    }
  }

  lemma {:induction false} FilterCongruence(tasks: Tracker, p: Task -> bool, q: Task -> bool)
    requires forall i | 0 <= i < |tasks| :: p(tasks[i]) == q(tasks[i])
    ensures Filter(tasks, p) == Filter(tasks, q)
  {
    if tasks == [] {
    } else {
      FilterCongruence(tasks[1..], p, q);
    }
  }

  /** `q` differs from `p` at one task only, which `p` drops: `q` either keeps the rest or gains one. */
  ghost predicate DifferAt(tasks: Tracker, p: Task -> bool, q: Task -> bool, id: TaskId) {
    && UniqueIds(tasks)
    && (exists i :: 0 <= i < |tasks| && tasks[i].id == id && p(tasks[i]) && !q(tasks[i]))
    && forall i | 0 <= i < |tasks| && tasks[i].id != id :: p(tasks[i]) == q(tasks[i])
  }

  lemma {:induction false} FilterWithout(tasks: Tracker, p: Task -> bool, q: Task -> bool, id: TaskId)
    requires DifferAt(tasks, p, q, id)
    ensures |Filter(tasks, p)| == |Filter(tasks, q)| + 1
    ensures Filter(tasks, p)[0] == id ==> Filter(tasks, q) == Filter(tasks, p)[1..]
    ensures Filter(tasks, q) == [] ==> Filter(tasks, p) == [id]
  {
    var rest := tasks[1..];
    if tasks[0].id == id {
      forall i | 0 <= i < |rest| ensures p(rest[i]) == q(rest[i]) { assert rest[i] == tasks[i + 1]; }
      FilterCongruence(rest, p, q);
    } else {
      var i :| 0 <= i < |tasks| && tasks[i].id == id && p(tasks[i]) && !q(tasks[i]);
      assert rest[i - 1] == tasks[i];
      FilterWithout(rest, p, q, id);
    }
  }

  lemma {:induction false} FilterOverlay(tracker: Tracker, state: State, p: Task -> bool)
    ensures Filter(Effective(tracker, state), p) == Filter(tracker, (t: Task) => p(EffectiveTask(t, state)))
  {
    if tracker == [] {
    } else {
      assert Effective(tracker, state)[1..] == Effective(tracker[1..], state);
      FilterOverlay(tracker[1..], state, p);
    }
  }

  // ----- The three lists a pass reads, as filters of the tracker itself -----

  ghost predicate Running(t: Task, state: State) { EffectiveTask(t, state).status == InProgress }

  ghost predicate Ready(t: Task, state: State, done: set<TaskId>) {
    EffectiveTask(t, state).status == Pending && forall d | d in t.dependsOn :: d in done
  }

  ghost predicate Unfinished(t: Task, state: State) { Running(t, state) && !IsPrepared(state, t.id) }

  lemma PassLists(tracker: Tracker, state: State)
    ensures InProgressIds(Effective(tracker, state)) == Filter(tracker, (t: Task) => Running(t, state))
    ensures UnpreparedIds(Effective(tracker, state), state) == Filter(tracker, (t: Task) => Unfinished(t, state))
    ensures AvailableIds(Effective(tracker, state), CompletedIds(tracker)) ==
            Filter(tracker, (t: Task) => Ready(t, state, CompletedIds(tracker)))
  {
    var done := CompletedIds(tracker);
    var running := (t: Task) => t.status == InProgress;
    var unfinished := (t: Task) => t.status == InProgress && !IsPrepared(state, t.id);
    var ready := (t: Task) => t.status == Pending && forall d | d in t.dependsOn :: d in done;
    FilterOverlay(tracker, state, running);
    FilterOverlay(tracker, state, unfinished);
    FilterOverlay(tracker, state, ready);
    FilterCongruence(tracker, (t: Task) => running(EffectiveTask(t, state)), (t: Task) => Running(t, state));
    FilterCongruence(tracker, (t: Task) => unfinished(EffectiveTask(t, state)), (t: Task) => Unfinished(t, state));
    FilterCongruence(tracker, (t: Task) => ready(EffectiveTask(t, state)), (t: Task) => Ready(t, state, done));
  }

  // ----- What a pass chooses -----

  function IdOf(): Task -> TaskId { (t: Task) => t.id }

  lemma {:induction false} FilterSelects(tasks: Tracker, p: Task -> bool) returns (places: seq<nat>)
    ensures Selects(tasks, p, IdOf(), Filter(tasks, p), places)
  {
    hide Selects;
    if tasks == [] {
      SelectsNone(p, IdOf());
      places := [];
    } else {
      var rest := FilterSelects(tasks[1..], p);
      places := SelectsMore(tasks[0], tasks[1..], p, IdOf(), Filter(tasks[1..], p), rest);
      assert [tasks[0]] + tasks[1..] == tasks;
    }
  }

  /** The ids of the tasks for which `p` holds, once each and in the tracker's order. */
  ghost predicate Lists(tracker: Tracker, p: Task -> bool, ids: seq<TaskId>) {
    exists places :: Selects(tracker, p, IdOf(), ids, places)
  }

  /** A claim in progress whose preparation did not finish, as the tracker and the records have it. */
  ghost predicate ToRetry(t: Task, state: State) {
    EffectiveTask(t, state).status == InProgress && (t.id in state ==> !state[t.id].prepared)
  }

  /** Pending, with every dependency completed in the tracker. */
  ghost predicate ToClaim(t: Task, tracker: Tracker, state: State) {
    && EffectiveTask(t, state).status == Pending
    && forall d | d in t.dependsOn :: exists done :: done in tracker && done.id == d && done.status == Completed
  }

  ghost function Retrying(state: State): Task -> bool { (t: Task) => ToRetry(t, state) }

  ghost function Claiming(tracker: Tracker, state: State): Task -> bool { (t: Task) => ToClaim(t, tracker, state) }

  ghost function InFlight(state: State): Task -> bool { (t: Task) => EffectiveTask(t, state).status == InProgress }

  lemma RetriedMeans(tracker: Tracker, state: State)
    ensures Lists(tracker, Retrying(state), Unprepared(tracker, state))
  {
    hide Selects, EffectiveTask;
    PassLists(tracker, state);
    FilterCongruence(tracker, (t: Task) => Unfinished(t, state), Retrying(state));
    var places := FilterSelects(tracker, Retrying(state));
  }

  lemma AvailableMeans(tracker: Tracker, state: State)
    ensures Lists(tracker, Claiming(tracker, state), Available(tracker, state))
  {
    hide Selects, EffectiveTask;
    var done := CompletedIds(tracker);
    PassLists(tracker, state);
    CompletedMeans(tracker);
    FilterCongruence(tracker, (t: Task) => Ready(t, state, done), Claiming(tracker, state));
    var places := FilterSelects(tracker, Claiming(tracker, state));
  }

  lemma RunningMeans(tracker: Tracker, state: State)
    ensures Lists(tracker, InFlight(state), InProgressIds(Effective(tracker, state)))
  {
    hide Selects, EffectiveTask;
    PassLists(tracker, state);
    FilterCongruence(tracker, (t: Task) => Running(t, state), InFlight(state));
    var places := FilterSelects(tracker, InFlight(state));
  }

  /**
    A full pass retries unfinished claims first and then takes available tasks from the top of the
    tracker, as many as there are slots that no running task holds.
   */
  lemma WorkListMeans(tracker: Tracker, state: State, capacity: nat)
    returns (retried: seq<TaskId>, available: seq<TaskId>, running: seq<TaskId>, taken: nat)
    ensures Lists(tracker, Retrying(state), retried)
    ensures Lists(tracker, Claiming(tracker, state), available)
    ensures Lists(tracker, InFlight(state), running)
    ensures taken <= |available| && WorkList(tracker, state, capacity) == retried + available[..taken]
    ensures taken == if capacity <= |running| then 0 else if |available| <= capacity - |running| then |available| else capacity - |running|
  {
    hide Lists, Filter, Effective;
    RetriedMeans(tracker, state);
    AvailableMeans(tracker, state);
    RunningMeans(tracker, state);
    retried, available := Unprepared(tracker, state), Available(tracker, state);
    running := InProgressIds(Effective(tracker, state));
    var free := capacity - |running|;
    taken := if free <= 0 then 0 else if free >= |available| then |available| else free;
  }

  /**
    A named task is admitted exactly when it is pending with a slot free or already in progress, and
    its dependencies are completed in main; an unknown one is refused with 404, any other with 409.
   */
  lemma RequestedMeans(tracker: Tracker, state: State, id: TaskId, capacity: nat, i: nat)
    requires i < |tracker| && tracker[i].id == id && forall j | 0 <= j < i :: tracker[j].id != id
    ensures
      var status := EffectiveTask(tracker[i], state).status;
      var met := forall d | d in tracker[i].dependsOn :: exists done :: done in tracker && done.id == d && done.status == Completed;
      Requested(tracker, state, id, capacity) ==
        if met && (status == InProgress || (status == Pending && |InProgressIds(Effective(tracker, state))| < capacity))
        then Ok([id]) else Refused(409)
  {
    CompletedMeans(tracker);
    FirstFound(tracker, state, id, i);
    assert EffectiveTask(tracker[i], state).dependsOn == tracker[i].dependsOn;
  }

  lemma FirstFound(tracker: Tracker, state: State, id: TaskId, i: nat)
    requires i < |tracker| && tracker[i].id == id && forall j | 0 <= j < i :: tracker[j].id != id
    ensures Find(Effective(tracker, state), id) == Some(EffectiveTask(tracker[i], state))
  {
    var effective := Effective(tracker, state);
    assert effective[i].id == id && effective[i] in effective;
    var found := Find(effective, id);
    var k :| 0 <= k < |effective| && effective[k] == found.value && forall j | 0 <= j < k :: effective[j].id != id;
    assert effective[k].id == tracker[k].id;
    assert k == i;
  }

  lemma UnknownIsRefused(tracker: Tracker, state: State, id: TaskId, capacity: nat)
    requires forall t | t in tracker :: t.id != id
    ensures Requested(tracker, state, id, capacity) == Refused(404)
  {
    var effective := Effective(tracker, state);
    forall t | t in effective ensures t.id != id {
      var i :| 0 <= i < |effective| && effective[i] == t;
      assert tracker[i] in tracker;
    }
  }

  // ----- One task claimed -----

  /** `state'` is `state` with `id` claimed, and otherwise the same. */
  ghost predicate ClaimedIn(state: State, state': State, id: TaskId) {
    && id in state' && state'[id].status == InProgress && !state'[id].expired
    && state'.Keys == state.Keys + {id}
    && forall x | x in state && x != id :: state'[x] == state[x]
  }

  lemma OthersUnchanged(tracker: Tracker, state: State, state': State, id: TaskId)
    requires UniqueIds(tracker) && ClaimedIn(state, state', id)
    ensures forall i | 0 <= i < |tracker| && tracker[i].id != id ::
      EffectiveTask(tracker[i], state') == EffectiveTask(tracker[i], state)
      && IsPrepared(state', tracker[i].id) == IsPrepared(state, tracker[i].id)
    ensures forall i | 0 <= i < |tracker| && tracker[i].id == id && tracker[i].status != Completed ::
      Running(tracker[i], state')
  {
  }

  /** The head of the work list is a task of the tracker: an unfinished claim, or else one free to claim. */
  lemma WorkHead(tracker: Tracker, state: State, capacity: nat) returns (i: nat)
    requires WorkList(tracker, state, capacity) != []
    ensures i < |tracker| && tracker[i].id == WorkList(tracker, state, capacity)[0]
    ensures UniqueIds(tracker) ==> tracker[i].status != Completed
    ensures
      var unprepared := UnpreparedIds(Effective(tracker, state), state);
      if unprepared != [] then Unfinished(tracker[i], state) && unprepared[0] == tracker[i].id
      else Ready(tracker[i], state, CompletedIds(tracker)) && Active(tracker, state) < capacity
  {
    PassLists(tracker, state);
    var done := CompletedIds(tracker);
    FilterMembers(tracker, (t: Task) => Unfinished(t, state));
    FilterMembers(tracker, (t: Task) => Ready(t, state, done));
    var id := WorkList(tracker, state, capacity)[0];
    var unprepared := UnpreparedIds(Effective(tracker, state), state);
    if unprepared != [] {
      assert id == unprepared[0] && id in unprepared;
      i :| 0 <= i < |tracker| && tracker[i].id == id && Unfinished(tracker[i], state);
    } else {
      var available := AvailableIds(Effective(tracker, state), done);
      assert id == available[0] && id in available;
      i :| 0 <= i < |tracker| && tracker[i].id == id && Ready(tracker[i], state, done);
    }
  }

  predicate Heads(ids: seq<TaskId>, id: TaskId) { ids != [] && ids[0] == id }

  function Unprepared(tracker: Tracker, state: State): seq<TaskId> {
    UnpreparedIds(Effective(tracker, state), state)
  }

  function Available(tracker: Tracker, state: State): seq<TaskId> {
    AvailableIds(Effective(tracker, state), CompletedIds(tracker))
  }

  /** Retrying a claim changes neither what runs nor what is available. */
  lemma RetryClaim(tracker: Tracker, state: State, state': State, h: nat)
    requires UniqueIds(tracker) && h < |tracker| && ClaimedIn(state, state', tracker[h].id)
    requires Unfinished(tracker[h], state) && tracker[h].status != Completed
    ensures Active(tracker, state') == Active(tracker, state)
    ensures Available(tracker, state') == Available(tracker, state)
    ensures
      if !IsPrepared(state', tracker[h].id) then Unprepared(tracker, state') == Unprepared(tracker, state) else
        Heads(Unprepared(tracker, state), tracker[h].id) ==> Unprepared(tracker, state') == Unprepared(tracker, state)[1..]
  {
    hide EffectiveTask, IsPrepared, CompletedIds, Filter, Effective;
    var id, done := tracker[h].id, CompletedIds(tracker);
    PassLists(tracker, state);
    PassLists(tracker, state');
    OthersUnchanged(tracker, state, state', id);
    FilterCongruence(tracker, (t: Task) => Running(t, state), (t: Task) => Running(t, state'));
    FilterCongruence(tracker, (t: Task) => Ready(t, state, done), (t: Task) => Ready(t, state', done));
    var unfinished, unfinished' := (t: Task) => Unfinished(t, state), (t: Task) => Unfinished(t, state');
    if IsPrepared(state', id) {
      FilterWithout(tracker, unfinished, unfinished', id);
    } else {
      FilterCongruence(tracker, unfinished, unfinished');
    }
  }

  /** A fresh claim moves one task from the available to the running. */
  lemma FreshClaim(tracker: Tracker, state: State, state': State, h: nat)
    requires UniqueIds(tracker) && h < |tracker| && ClaimedIn(state, state', tracker[h].id)
    requires Ready(tracker[h], state, CompletedIds(tracker)) && tracker[h].status != Completed
    requires Unprepared(tracker, state) == []
    requires Heads(Available(tracker, state), tracker[h].id)
    ensures Active(tracker, state') == Active(tracker, state) + 1
    ensures Available(tracker, state') == Available(tracker, state)[1..]
    ensures IsPrepared(state', tracker[h].id) ==> Unprepared(tracker, state') == []
    ensures !IsPrepared(state', tracker[h].id) ==> Unprepared(tracker, state') == [tracker[h].id]
  {
    hide EffectiveTask, IsPrepared, CompletedIds;
    var id, done := tracker[h].id, CompletedIds(tracker);
    PassLists(tracker, state);
    PassLists(tracker, state');
    OthersUnchanged(tracker, state, state', id);
    FilterWithout(tracker, (t: Task) => Running(t, state'), (t: Task) => Running(t, state), id);
    FilterWithout(tracker, (t: Task) => Ready(t, state, done), (t: Task) => Ready(t, state', done), id);
    var unfinished, unfinished' := (t: Task) => Unfinished(t, state), (t: Task) => Unfinished(t, state');
    if IsPrepared(state', id) {
      FilterCongruence(tracker, unfinished, unfinished');
    } else {
      FilterWithout(tracker, unfinished', unfinished, id);
    }
  }

  lemma TakeHead(ids: seq<TaskId>, n: int)
    requires ids != [] && n > 0
    ensures Take(ids, n) == [ids[0]] + Take(ids[1..], n - 1)
  {
  }

  /** Claiming the head of the work list leaves the rest as the next work list, once it is prepared. */
  lemma ClaimHead(tracker: Tracker, state: State, capacity: nat, state': State)
    requires UniqueIds(tracker) && WorkList(tracker, state, capacity) != []
    requires ClaimedIn(state, state', WorkList(tracker, state, capacity)[0])
    ensures
      var work := WorkList(tracker, state, capacity);
      && (IsPrepared(state', work[0]) ==> WorkList(tracker, state', capacity) == work[1..])
      && (!IsPrepared(state', work[0]) && !IsPrepared(state, work[0]) ==> WorkList(tracker, state', capacity) == work)
    ensures Active(tracker, state') <= if Active(tracker, state) > capacity then Active(tracker, state) else capacity
  {
    hide Active, Effective, UnpreparedIds, AvailableIds, IsPrepared, EffectiveTask;
    var h := WorkHead(tracker, state, capacity);
    var unprepared, available := Unprepared(tracker, state), Available(tracker, state);
    var free := capacity - Active(tracker, state);
    assert WorkList(tracker, state, capacity) == unprepared + Take(available, free);
    assert WorkList(tracker, state', capacity) ==
           Unprepared(tracker, state') + Take(Available(tracker, state'), capacity - Active(tracker, state'));
    if unprepared != [] {
      RetryClaim(tracker, state, state', h);
      assert (unprepared + Take(available, free))[1..] == unprepared[1..] + Take(available, free);
    } else {
      FreshClaim(tracker, state, state', h);
      TakeHead(available, free);
    }
  }

  lemma WorkListDistinct(tracker: Tracker, state: State, capacity: nat)
    requires UniqueIds(tracker)
    ensures Distinct(WorkList(tracker, state, capacity))
  {
    hide EffectiveTask, Active, CompletedIds, IsPrepared;
    PassLists(tracker, state);
    var done := CompletedIds(tracker);
    var unfinished, ready := (t: Task) => Unfinished(t, state), (t: Task) => Ready(t, state, done);
    FilterDistinct(tracker, unfinished);
    FilterDistinct(tracker, ready);
    FilterMembers(tracker, unfinished);
    FilterMembers(tracker, ready);
    var unprepared, available := Unprepared(tracker, state), Available(tracker, state);
    var chosen := Take(available, capacity - Active(tracker, state));
    assert Distinct(unprepared) && Distinct(chosen);
    assert forall i, j | 0 <= i < |unprepared| && 0 <= j < |chosen| :: unprepared[i] in unprepared && chosen[j] == available[j] && available[j] in available;
    assert WorkList(tracker, state, capacity) == unprepared + chosen;
  }

  /** The states written while one task is worked on. */
  ghost predicate WrittenFor(state: State, s: State, id: TaskId) {
    var claimed := Claim(state, id);
    s == claimed || s == MarkFailed(claimed, id) || s == MarkPrepared(claimed, id)
  }

  lemma WrittenForms(state: State, s: State, id: TaskId)
    requires WrittenFor(state, s, id)
    ensures ClaimedIn(state, s, id)
    ensures MarkPrepared(Claim(s, id), id) == MarkPrepared(Claim(state, id), id)
    ensures IsPrepared(s, id) == (IsPrepared(state, id) || s == MarkPrepared(Claim(state, id), id))
  {
    var claim := RecordOf(state, id).(status := InProgress, expired := false, owner := Some(OWNER));
    var failed, done := claim.(prepareError := true), claim.(prepareError := false, prepared := true);
    assert Claim(state, id) == state[id := claim];
    Overwritten(state, id, claim, failed);
    Overwritten(state, id, claim, done);
    assert s == state[id := claim] || s == state[id := failed] || s == state[id := done];
    Overwritten(state, id, s[id], claim);
    Overwritten(state, id, s[id], s[id].(status := InProgress, expired := false, owner := Some(OWNER)));
    Overwritten(state, id, s[id], done);
  }

  lemma Overwritten(state: State, id: TaskId, a: TaskRecord, b: TaskRecord)
    ensures state[id := a][id := b] == state[id := b]
  {
  }

  lemma RetiredKept(tracker: Tracker, state: State, s: State, id: TaskId)
    requires Retired(tracker, state) == state && ClaimedIn(state, s, id) && id !in CompletedIds(tracker)
    ensures Retired(tracker, s) == s
  {
    assert forall x | x in s && x != id :: s[x] == Retired(tracker, state)[x];
  }

  function Max(a: nat, b: nat): nat { if a > b then a else b }

  /** A state written by a pass that started from `state` breaks neither limit. */
  ghost predicate Admissible(tracker: Tracker, state: State, s: State, capacity: nat) {
    && Active(tracker, s) <= Max(capacity, Active(tracker, state))
    && forall i | 0 <= i < |tracker| && Running(tracker[i], s) && !Running(tracker[i], state) ::
         forall d | d in tracker[i].dependsOn :: d in CompletedIds(tracker)
  }

  /** A state written for the head of the work list. */
  lemma HeadWritten(tracker: Tracker, state: State, capacity: nat, s: State)
    requires UniqueIds(tracker) && Retired(tracker, state) == state && WorkList(tracker, state, capacity) != []
    requires WrittenFor(state, s, WorkList(tracker, state, capacity)[0])
    ensures Retired(tracker, s) == s
    ensures Admissible(tracker, state, s, capacity)
    ensures
      var ids := WorkList(tracker, state, capacity);
      && (IsPrepared(s, ids[0]) ==> WorkList(tracker, s, capacity) == ids[1..])
      && (!IsPrepared(s, ids[0]) ==> WorkList(tracker, s, capacity) == ids)
  {
    hide WorkList, Active, EffectiveTask, WrittenFor;
    var id := WorkList(tracker, state, capacity)[0];
    var h := WorkHead(tracker, state, capacity);
    WrittenForms(state, s, id);
    RetiredKept(tracker, state, s, id);
    ClaimHead(tracker, state, capacity, s);
    OthersUnchanged(tracker, state, s, id);
  }

  // ----- A completed pass is a fixpoint -----

  lemma {:induction false} NothingLeft(tracker: Tracker, state: State, capacity: nat, failing: set<TaskId>, ids: seq<TaskId>)
    requires UniqueIds(tracker) && Retired(tracker, state) == state && ids == WorkList(tracker, state, capacity)
    ensures Retired(tracker, Prepare(state, ids, failing).state) == Prepare(state, ids, failing).state
    ensures Prepare(state, ids, failing).stopped.None? ==>
      WorkList(tracker, Prepare(state, ids, failing).state, capacity) == []
    decreases |ids|
  {
    if ids == [] {
    } else {
      var claimed := Claim(state, ids[0]);
      if ids[0] in failing {
        HeadWritten(tracker, state, capacity, MarkFailed(claimed, ids[0]));
      } else {
        var done := MarkPrepared(claimed, ids[0]);
        HeadWritten(tracker, state, capacity, done);
        NothingLeft(tracker, done, capacity, failing, ids[1..]);
      }
    }
  }

  /** After a full pass that returned normally, another against the same main prepares and changes nothing. */
  lemma SecondPassIsIdle(tracker: Tracker, state: State, capacity: nat, failing: set<TaskId>, later: set<TaskId>)
    requires UniqueIds(tracker)
    requires Pass(tracker, state, None, capacity, failing).stopped.None?
    ensures
      var settled := Pass(tracker, state, None, capacity, failing).state;
      Pass(tracker, settled, None, capacity, later) == Work([settled], settled, [], None)
  {
    RetiringIsInvisible(tracker, state);
    var retired := Retired(tracker, state);
    NothingLeft(tracker, retired, capacity, failing, WorkList(tracker, retired, capacity));
  }

  // ----- Capacity and dependencies -----

  lemma AdmissibleChains(tracker: Tracker, a: State, b: State, c: State, capacity: nat)
    requires Admissible(tracker, a, b, capacity) && Admissible(tracker, b, c, capacity)
    ensures Admissible(tracker, a, c, capacity)
  {
  }

  lemma {:induction false} WorkIsAdmissible(tracker: Tracker, state: State, capacity: nat, failing: set<TaskId>, s: State)
    requires UniqueIds(tracker) && Retired(tracker, state) == state
    requires s in Prepare(state, WorkList(tracker, state, capacity), failing).writes
    ensures Admissible(tracker, state, s, capacity)
    decreases |WorkList(tracker, state, capacity)|
  {
    var ids := WorkList(tracker, state, capacity);
    var done := MarkPrepared(Claim(state, ids[0]), ids[0]);
    hide WorkList, Retired, Admissible, WrittenFor;
    if WrittenFor(state, s, ids[0]) {
      HeadWritten(tracker, state, capacity, s);
    } else {
      WrittenLater(state, ids, failing, s);
      HeadWritten(tracker, state, capacity, done);
      WorkIsAdmissible(tracker, done, capacity, failing, s);
      AdmissibleChains(tracker, state, done, s, capacity);
    }
  }

  lemma RequestedTask(tracker: Tracker, state: State, id: TaskId, capacity: nat) returns (h: nat)
    requires Requested(tracker, state, id, capacity).Ok?
    ensures h < |tracker| && tracker[h].id == id && tracker[h].status != Completed
    ensures Running(tracker[h], state) || Active(tracker, state) < capacity
    ensures forall d | d in tracker[h].dependsOn :: d in CompletedIds(tracker)
  {
    var effective := Effective(tracker, state);
    var found := Find(effective, id).value;
    h :| 0 <= h < |effective| && effective[h] == found;
  }

  lemma RequestKeepsCapacity(tracker: Tracker, state: State, id: TaskId, capacity: nat, s: State, h: nat)
    requires UniqueIds(tracker) && ClaimedIn(state, s, id)
    requires h < |tracker| && tracker[h].id == id && tracker[h].status != Completed
    requires Running(tracker[h], state) || Active(tracker, state) < capacity
    ensures Active(tracker, s) <= Max(capacity, Active(tracker, state))
  {
    hide EffectiveTask;
    PassLists(tracker, state);
    PassLists(tracker, s);
    OthersUnchanged(tracker, state, s, id);
    var running, running' := (t: Task) => Running(t, state), (t: Task) => Running(t, s);
    if Running(tracker[h], state) {
      FilterCongruence(tracker, running, running');
    } else {
      FilterWithout(tracker, running', running, id);
    }
  }

  lemma RequestIsAdmissible(tracker: Tracker, state: State, id: TaskId, capacity: nat, s: State)
    requires UniqueIds(tracker) && Requested(tracker, state, id, capacity).Ok? && ClaimedIn(state, s, id)
    ensures Admissible(tracker, state, s, capacity)
  {
    hide Requested, EffectiveTask, Active;
    var h := RequestedTask(tracker, state, id, capacity);
    RequestKeepsCapacity(tracker, state, id, capacity, s, h);
    OthersUnchanged(tracker, state, s, id);
    assert forall i | 0 <= i < |tracker| && tracker[i].id == id :: i == h;
  }

  lemma SingleWrites(state: State, id: TaskId, failing: set<TaskId>)
    ensures forall s | s in Prepare(state, [id], failing).writes :: WrittenFor(state, s, id)
  {
    assert [id][1..] == [];
  }

  lemma AdmissibleRetired(tracker: Tracker, state: State, s: State, capacity: nat)
    requires UniqueIds(tracker)
    ensures Admissible(tracker, Retired(tracker, state), s, capacity) == Admissible(tracker, state, s, capacity)
  {
    var retired := Retired(tracker, state);
    RetiringIsInvisible(tracker, state);
    assert forall i | 0 <= i < |tracker| ::
      Effective(tracker, retired)[i] == EffectiveTask(tracker[i], retired) && Effective(tracker, state)[i] == EffectiveTask(tracker[i], state);
  }

  /** Every state a pass or a single admission writes, even one that fails midway, respects both limits. */
  lemma EveryWriteIsAdmissible(tracker: Tracker, state: State, only: Option<TaskId>, capacity: nat, failing: set<TaskId>)
    requires UniqueIds(tracker)
    ensures forall s | s in Pass(tracker, state, only, capacity, failing).writes :: Admissible(tracker, state, s, capacity)
  {
    var retired := Retired(tracker, state);
    forall s | s in Pass(tracker, state, only, capacity, failing).writes
      ensures Admissible(tracker, state, s, capacity)
    {
      hide WorkList, Prepare, Requested, Admissible;
      AdmissibleRetired(tracker, state, s, capacity);
      if s != retired {
        if only.None? {
          WorkIsAdmissible(tracker, retired, capacity, failing, s);
        } else {
          SingleWrites(retired, only.value, failing);
          WrittenForms(retired, s, only.value);
          RequestIsAdmissible(tracker, retired, only.value, capacity, s);
        }
      }
    }
  }

  // ----- Passes that fail or die converge -----

  /** What one undisturbed pass makes of a state. */
  function Goal(tracker: Tracker, state: State, capacity: nat): State {
    Pass(tracker, state, None, capacity, {}).state
  }

  /** A pass failed, or died at any point, and left `state'` on disk. */
  ghost predicate Interrupted(tracker: Tracker, capacity: nat, state: State, state': State) {
    state' == state || exists failing :: state' in Pass(tracker, state, None, capacity, failing).writes
  }

  /** The states found on disk by successive passes, with main unchanged throughout. */
  ghost predicate Chain(tracker: Tracker, capacity: nat, states: seq<State>) {
    states != [] && forall i | 0 <= i < |states| - 1 :: Interrupted(tracker, capacity, states[i], states[i + 1])
  }

  ghost predicate NoneMarked(state: State, ids: seq<TaskId>) { forall id | id in ids :: !IsPrepared(state, id) }

  /** No task a pass would work on already carries the mark of a finished preparation. */
  ghost predicate Unmarked(tracker: Tracker, state: State, capacity: nat) {
    NoneMarked(state, WorkList(tracker, Retired(tracker, state), capacity))
  }

  /** Redoing the head of the work list from any state written for it comes to the same. */
  lemma HeadKeepsGoal(tracker: Tracker, state: State, capacity: nat, ids: seq<TaskId>, s: State)
    requires UniqueIds(tracker) && Retired(tracker, state) == state && ids == WorkList(tracker, state, capacity)
    requires ids != [] && NoneMarked(state, ids) && WrittenFor(state, s, ids[0])
    ensures Retired(tracker, s) == s
    ensures Prepare(s, WorkList(tracker, s, capacity), {}).state == Prepare(state, ids, {}).state
    ensures NoneMarked(s, WorkList(tracker, s, capacity))
    ensures IsPrepared(s, ids[0]) ==> WorkList(tracker, s, capacity) == ids[1..]
  {
    hide WorkList, Retired, WrittenFor, Admissible;
    WorkListDistinct(tracker, state, capacity);
    HeadWritten(tracker, state, capacity, s);
    WrittenForms(state, s, ids[0]);
    assert forall id | id in ids[1..] :: id in ids && id != ids[0];
  }

  /** A state not written for the head was written for the rest, once the head was prepared. */
  lemma WrittenLater(state: State, ids: seq<TaskId>, failing: set<TaskId>, s: State)
    requires ids != [] && s in Prepare(state, ids, failing).writes && !WrittenFor(state, s, ids[0])
    ensures
      var done := MarkPrepared(Claim(state, ids[0]), ids[0]);
      s in Prepare(done, ids[1..], failing).writes && WrittenFor(state, done, ids[0]) && IsPrepared(done, ids[0])
  {
  }

  lemma {:induction false} WritesKeepGoal(
    tracker: Tracker, state: State, capacity: nat, failing: set<TaskId>, ids: seq<TaskId>, s: State)
    requires UniqueIds(tracker) && Retired(tracker, state) == state && ids == WorkList(tracker, state, capacity)
    requires NoneMarked(state, ids)
    requires s in Prepare(state, ids, failing).writes
    ensures Retired(tracker, s) == s
    ensures Prepare(s, WorkList(tracker, s, capacity), {}).state == Prepare(state, ids, {}).state
    ensures NoneMarked(s, WorkList(tracker, s, capacity))
    decreases |ids|
  {
    if WrittenFor(state, s, ids[0]) {
      HeadKeepsGoal(tracker, state, capacity, ids, s);
    } else {
      var done := MarkPrepared(Claim(state, ids[0]), ids[0]);
      WrittenLater(state, ids, failing, s);
      HeadKeepsGoal(tracker, state, capacity, ids, done);
      WritesKeepGoal(tracker, done, capacity, failing, ids[1..], s);
    }
  }

  lemma InterruptionKeepsGoal(tracker: Tracker, capacity: nat, state: State, state': State)
    requires UniqueIds(tracker) && Unmarked(tracker, state, capacity)
    requires Interrupted(tracker, capacity, state, state')
    ensures Goal(tracker, state', capacity) == Goal(tracker, state, capacity)
    ensures Unmarked(tracker, state', capacity)
  {
    var retired := Retired(tracker, state);
    var ids := WorkList(tracker, retired, capacity);
    RetiringIsInvisible(tracker, state);
    if state' != state && state' != retired {
      var failing :| state' in Pass(tracker, state, None, capacity, failing).writes;
      WritesKeepGoal(tracker, retired, capacity, failing, ids, state');
    }
  }

  lemma {:induction false} ChainKeepsGoal(tracker: Tracker, capacity: nat, states: seq<State>)
    requires UniqueIds(tracker) && Chain(tracker, capacity, states) && Unmarked(tracker, states[0], capacity)
    ensures Goal(tracker, states[|states| - 1], capacity) == Goal(tracker, states[0], capacity)
    decreases |states|
  {
    hide Goal, Unmarked, Interrupted;
    if |states| == 1 {
    } else {
      InterruptionKeepsGoal(tracker, capacity, states[0], states[1]);
      ChainTail(tracker, capacity, states);
      ChainKeepsGoal(tracker, capacity, states[1..]);
    }
  }

  lemma {:induction false} PrepareFrame(state: State, ids: seq<TaskId>, failing: set<TaskId>)
    ensures forall id | id !in ids && id in state ::
      id in Prepare(state, ids, failing).state && Prepare(state, ids, failing).state[id] == state[id]
    ensures failing == {} ==> forall id | id in ids ::
      id in Prepare(state, ids, failing).state && !Prepare(state, ids, failing).state[id].prepareError
    decreases |ids|
  {
    if ids == [] || ids[0] in failing {
    } else {
      var done := MarkPrepared(Claim(state, ids[0]), ids[0]);
      PrepareFrame(done, ids[1..], failing);
      assert forall id | id in ids :: id == ids[0] || id in ids[1..];
    }
  }

  /** A marked task whose branch work fails is left claimed with its error, and no later pass takes it up. */
  lemma {:induction false} MarkedTaskIsDropped(tracker: Tracker, state: State, capacity: nat, ids: seq<TaskId>, id: TaskId)
    requires UniqueIds(tracker) && Retired(tracker, state) == state && ids == WorkList(tracker, state, capacity)
    requires id in ids && IsPrepared(state, id)
    ensures
      var work := Prepare(state, ids, {id});
      && work.stopped == Some(id)
      && Retired(tracker, work.state) == work.state
      && id !in WorkList(tracker, work.state, capacity)
      && Stranded(tracker, work.state, id) && work.state[id].prepareError
    decreases |ids|
  {
    WorkListDistinct(tracker, state, capacity);
    if ids[0] == id {
      var h := WorkHead(tracker, state, capacity);
      HeadWritten(tracker, state, capacity, MarkFailed(Claim(state, id), id));
      assert id !in ids[1..];
    } else {
      var done := MarkPrepared(Claim(state, ids[0]), ids[0]);
      HeadWritten(tracker, state, capacity, done);
      MarkedTaskIsDropped(tracker, done, capacity, ids[1..], id);
    }
  }

  /** Claimed, marked as prepared and not completed in main: nothing that a full pass would work on. */
  ghost predicate Stranded(tracker: Tracker, state: State, id: TaskId) {
    && id in state && state[id].status == InProgress && !state[id].expired && state[id].prepared
    && id !in CompletedIds(tracker)
  }

  lemma StrandedIsSkipped(tracker: Tracker, state: State, capacity: nat, id: TaskId)
    requires UniqueIds(tracker) && Stranded(tracker, state, id)
    ensures Stranded(tracker, Retired(tracker, state), id)
    ensures id !in WorkList(tracker, Retired(tracker, state), capacity)
  {
    var retired, done := Retired(tracker, state), CompletedIds(tracker);
    PassLists(tracker, retired);
    FilterMembers(tracker, (t: Task) => Unfinished(t, retired));
    FilterMembers(tracker, (t: Task) => Ready(t, retired, done));
    forall i | 0 <= i < |tracker| && tracker[i].id == id
      ensures !Unfinished(tracker[i], retired) && !Ready(tracker[i], retired, done)
    {
      assert tracker[i].status != Completed;
    }
    assert id !in Unprepared(tracker, retired) && id !in Available(tracker, retired);
  }

  lemma {:induction false} WritesLeaveOthers(state: State, ids: seq<TaskId>, failing: set<TaskId>, id: TaskId, s: State)
    requires id in state && id !in ids && s in Prepare(state, ids, failing).writes
    ensures id in s && s[id] == state[id]
    decreases |ids|
  {
    if WrittenFor(state, s, ids[0]) {
    } else {
      WrittenLater(state, ids, failing, s);
      WritesLeaveOthers(MarkPrepared(Claim(state, ids[0]), ids[0]), ids[1..], failing, id, s);
    }
  }

  lemma StrandedStays(tracker: Tracker, capacity: nat, state: State, state': State, id: TaskId)
    requires UniqueIds(tracker) && Stranded(tracker, state, id) && Interrupted(tracker, capacity, state, state')
    ensures Stranded(tracker, state', id)
  {
    StrandedIsSkipped(tracker, state, capacity, id);
    var retired := Retired(tracker, state);
    if state' != state && state' != retired {
      var failing :| state' in Pass(tracker, state, None, capacity, failing).writes;
      WritesLeaveOthers(retired, WorkList(tracker, retired, capacity), failing, id, state');
    }
  }

  /** However full passes go on from there, a stranded task stays stranded, and none of them works on it. */
  lemma {:induction false} StrandedForGood(tracker: Tracker, capacity: nat, states: seq<State>, id: TaskId)
    requires UniqueIds(tracker) && Chain(tracker, capacity, states) && Stranded(tracker, states[0], id)
    ensures forall i | 0 <= i < |states| ::
      Stranded(tracker, states[i], id) && id !in WorkList(tracker, Retired(tracker, states[i]), capacity)
    decreases |states|
  {
    StrandedIsSkipped(tracker, states[0], capacity, id);
    if |states| == 1 {
    } else {
      StrandedStays(tracker, capacity, states[0], states[1], id);
      ChainTail(tracker, capacity, states);
      StrandedForGood(tracker, capacity, states[1..], id);
      assert forall i | 0 < i < |states| :: states[i] == states[1..][i - 1];
    }
  }

  lemma ChainTail(tracker: Tracker, capacity: nat, states: seq<State>)
    requires Chain(tracker, capacity, states) && |states| > 1
    ensures Chain(tracker, capacity, states[1..])
  {
    forall i | 0 <= i < |states[1..]| - 1 ensures Interrupted(tracker, capacity, states[1..][i], states[1..][i + 1]) {
      assert Interrupted(tracker, capacity, states[i + 1], states[i + 1 + 1]);
    }
  }

  /**
    A marked task whose branch work fails is stranded: claimed, marked and with its error on every
    state that full passes can reach from there, and worked on by none of them. An undisturbed pass
    ends elsewhere.
   */
  lemma MarkedTaskDiverges(tracker: Tracker, state: State, capacity: nat, id: TaskId)
    requires UniqueIds(tracker)
    requires id in WorkList(tracker, Retired(tracker, state), capacity) && IsPrepared(state, id)
    ensures
      var left := Pass(tracker, state, None, capacity, {id}).state;
      && Chain(tracker, capacity, [state, left])
      && (forall states | Chain(tracker, capacity, states) && states[0] == left ::
            forall i | 0 <= i < |states| ::
              Stranded(tracker, states[i], id) && id !in WorkList(tracker, Retired(tracker, states[i]), capacity))
      && Goal(tracker, left, capacity) != Goal(tracker, state, capacity)
  {
    MarkedTaskIsStranded(tracker, state, capacity, id);
    var left := Pass(tracker, state, None, capacity, {id}).state;
    forall states | Chain(tracker, capacity, states) && states[0] == left
      ensures forall i | 0 <= i < |states| ::
        Stranded(tracker, states[i], id) && id !in WorkList(tracker, Retired(tracker, states[i]), capacity)
    {
      StrandedForGood(tracker, capacity, states, id);
    }
  }

  lemma MarkedTaskIsStranded(tracker: Tracker, state: State, capacity: nat, id: TaskId)
    requires UniqueIds(tracker)
    requires id in WorkList(tracker, Retired(tracker, state), capacity) && IsPrepared(state, id)
    ensures
      var left := Pass(tracker, state, None, capacity, {id}).state;
      && Chain(tracker, capacity, [state, left])
      && Stranded(tracker, left, id) && left[id].prepareError
      && id !in WorkList(tracker, Retired(tracker, left), capacity)
      && Goal(tracker, left, capacity) != Goal(tracker, state, capacity)
  {
    var retired := Retired(tracker, state);
    RetiringIsInvisible(tracker, state);
    var ids := WorkList(tracker, retired, capacity);
    var work := Pass(tracker, state, None, capacity, {id});
    var left := work.state;
    MarkedTaskIsDropped(tracker, retired, capacity, ids, id);
    assert left == work.writes[|work.writes| - 1];
    assert Interrupted(tracker, capacity, state, left);
    PrepareFrame(retired, ids, {});
    PrepareFrame(left, WorkList(tracker, left, capacity), {});
  }

  /**
    However passes fail or die, the next one that succeeds ends where a single undisturbed pass
    would have, if and only if no task to be worked on is already marked as prepared.
   */
  lemma RecoveryConverges(tracker: Tracker, state: State, capacity: nat)
    requires UniqueIds(tracker)
    ensures Unmarked(tracker, state, capacity) <==>
      forall states | Chain(tracker, capacity, states) && states[0] == state ::
        Goal(tracker, states[|states| - 1], capacity) == Goal(tracker, state, capacity)
  {
    if Unmarked(tracker, state, capacity) {
      forall states | Chain(tracker, capacity, states) && states[0] == state
        ensures Goal(tracker, states[|states| - 1], capacity) == Goal(tracker, state, capacity)
      {
        ChainKeepsGoal(tracker, capacity, states);
      }
    } else {
      var id :| id in WorkList(tracker, Retired(tracker, state), capacity) && IsPrepared(state, id);
      MarkedTaskIsStranded(tracker, state, capacity, id);
      var states := [state, Pass(tracker, state, None, capacity, {id}).state];
      assert Chain(tracker, capacity, states) && states[0] == state;
      assert Goal(tracker, states[|states| - 1], capacity) != Goal(tracker, state, capacity);
    }
  }

  lemma FilterOne(task: Task, p: Task -> bool)
    ensures Filter([task], p) == if p(task) then [task.id] else []
  {
    assert [task][1..] == [];
  }

  /** A completed record that keeps its mark, for a task that main has pending again. */
  const REOPENED: State :=
    map["P0-001" := TaskRecord(Completed, false, true, false, None, None, map[])]

  const PENDING: Tracker := [Task("P0-001", Pending, None, None, [])]

  lemma ReopenedTaskIsTaken()
    ensures UniqueIds(PENDING) && Retired(PENDING, REOPENED) == REOPENED
    ensures WorkList(PENDING, REOPENED, 1) == ["P0-001"] && IsPrepared(REOPENED, "P0-001")
  {
    var task := PENDING[0];
    assert Effective(PENDING, REOPENED) == [task];
    FilterOne(task, (t: Task) => t.status == InProgress);
    FilterOne(task, (t: Task) => t.status == InProgress && !IsPrepared(REOPENED, t.id));
    FilterOne(task, (t: Task) => t.status == Pending && forall d | d in t.dependsOn :: d in CompletedIds(PENDING));
  }

  /** A mark outlives its task's completion: if main reopens the task, one failed preparation strands it. */
  lemma ReopenedTaskIsStranded()
    ensures !Unmarked(PENDING, REOPENED, 1)
    ensures
      var left := Pass(PENDING, REOPENED, None, 1, {"P0-001"}).state;
      && Chain(PENDING, 1, [REOPENED, left])
      && forall states | Chain(PENDING, 1, states) && states[0] == left ::
           forall i | 0 <= i < |states| ::
             Stranded(PENDING, states[i], "P0-001") && "P0-001" !in WorkList(PENDING, Retired(PENDING, states[i]), 1)
  {
    ReopenedTaskIsTaken();
    assert "P0-001" in WorkList(PENDING, Retired(PENDING, REOPENED), 1);
    MarkedTaskDiverges(PENDING, REOPENED, 1, "P0-001");
  }
}
