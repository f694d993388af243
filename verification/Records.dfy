/**
  The panel's local state file: one record per task, reconciled with main's tracker.
  Timestamps and the pull-request fields are not part of this model.
 */
module Records {
  import opened Wrappers

  type TaskId = string
  type Head = string

  datatype Stage = Refine | Implement | Audit {
    function Name(): (name: string)
      ensures '/' !in name
    {
      match this case Refine => "refine" case Implement => "implement" case Audit => "audit"
    }
  }

  datatype AttemptStatus = Submitting | Submitted | Expired

  /** One submission of a stage against one revision; an audit has no branch. */
  datatype Attempt = Attempt(
    status: AttemptStatus, head: Head, branch: Option<string>, taskUrl: Option<string>, pushFailed: bool)

  datatype Status = Pending | InProgress | Blocked | Completed

  datatype TaskRecord = TaskRecord(
    status: Status, expired: bool, prepared: bool, prepareError: bool,
    owner: Option<string>, blockedReason: Option<string>, stages: map<Stage, seq<Attempt>>)

  type State = map<TaskId, TaskRecord>

  datatype Task = Task(
    id: TaskId, status: Status, owner: Option<string>, blockedReason: Option<string>, dependsOn: seq<TaskId>)

  type Tracker = seq<Task>

  ghost predicate UniqueIds(tracker: Tracker) {
    forall i, j | 0 <= i < j < |tracker| :: tracker[i].id != tracker[j].id
  }

  function Find(tasks: Tracker, id: TaskId): (found: Option<Task>)
    ensures found.Some? ==> found.value in tasks && found.value.id == id
    ensures found.Some? ==>
      exists i :: 0 <= i < |tasks| && tasks[i] == found.value && forall j | 0 <= j < i :: tasks[j].id != id
    ensures found.None? <==> forall t | t in tasks :: t.id != id
  {
    if tasks == [] then None else if tasks[0].id == id then Some(tasks[0]) else Find(tasks[1..], id)
  }

  function StageAttempts(record: TaskRecord, stage: Stage): seq<Attempt> {
    if stage in record.stages then record.stages[stage] else []
  }

  function Attempts(state: State, task: TaskId, stage: Stage): seq<Attempt> {
    if task in state then StageAttempts(state[task], stage) else []
  }

  // ----- The submission standing in the way of a fresh one -----

  /** The index of the newest attempt against a revision: the reverse scan's first match. */
  function NewestAt(attempts: seq<Attempt>, head: Head): (newest: Option<nat>)
    ensures newest.Some? ==> newest.value < |attempts| && attempts[newest.value].head == head
    ensures forall i | 0 <= i < |attempts| && attempts[i].head == head :: newest.Some? && i <= newest.value
  {
    if attempts == [] then None
    else if attempts[|attempts| - 1].head == head then Some(|attempts| - 1)
    else NewestAt(attempts[..|attempts| - 1], head)
  }

  function LiveAttempt(attempts: seq<Attempt>, head: Head): (live: Option<nat>)
    ensures live.Some? ==>
      live.value < |attempts| && attempts[live.value].head == head && attempts[live.value].status != Expired
  {
    var newest := NewestAt(attempts, head);
    if newest.Some? && attempts[newest.value].status != Expired then newest else None
  }

  /** The scan's answer is an attempt exactly when it is unexpired and the last at its revision. */
  lemma LiveIsNewest(attempts: seq<Attempt>, head: Head, i: nat)
    ensures LiveAttempt(attempts, head) == Some(i) <==>
      && i < |attempts| && attempts[i].head == head && attempts[i].status != Expired
      && forall j | i < j < |attempts| :: attempts[j].head != head
  {
  }

  /** At the revision of the last attempt of all it is that one that counts. */
  lemma LastDecides(attempts: seq<Attempt>)
    requires attempts != []
    ensures
      var last := attempts[|attempts| - 1];
      LiveAttempt(attempts, last.head) == if last.status == Expired then None else Some(|attempts| - 1)
  {
  }

  /** Any attempt followed by a later one at the same revision is expired. */
  ghost predicate NewestPerHead(attempts: seq<Attempt>) {
    forall i, j | 0 <= i < j < |attempts| && attempts[i].head == attempts[j].head :: attempts[i].status == Expired
  }

  /** Reading only the newest attempt loses nothing exactly when superseded attempts are all expired. */
  lemma ReverseScanIsExact(attempts: seq<Attempt>)
    ensures NewestPerHead(attempts) <==>
      forall i | 0 <= i < |attempts| && attempts[i].status != Expired :: LiveAttempt(attempts, attempts[i].head) == Some(i)
  {
    if forall i | 0 <= i < |attempts| && attempts[i].status != Expired :: LiveAttempt(attempts, attempts[i].head) == Some(i) {
      forall i, j | 0 <= i < j < |attempts| && attempts[i].head == attempts[j].head
        ensures attempts[i].status == Expired
      {
        assert NewestAt(attempts, attempts[i].head).value >= j;
      }
    }
  }

  /** Under the invariant no live attempt means no unexpired one, and a live attempt is the only one. */
  lemma LiveAttemptDecides(attempts: seq<Attempt>, head: Head)
    requires NewestPerHead(attempts)
    ensures LiveAttempt(attempts, head) == None <==>
      forall i | 0 <= i < |attempts| && attempts[i].head == head :: attempts[i].status == Expired
    ensures forall i, j | 0 <= i < |attempts| && 0 <= j < |attempts| && attempts[i].head == head == attempts[j].head
      && attempts[i].status != Expired && attempts[j].status != Expired :: i == j
  {
    ReverseScanIsExact(attempts);
  }

  // ----- Overlaying local reservations on the tracker -----

  predicate Overrides(state: State, task: Task) {
    && task.id in state
    && !state[task.id].expired
    && state[task.id].status != Completed
    && task.status != Completed
  }

  function EffectiveTask(task: Task, state: State): Task {
    if Overrides(state, task) then
      var local := state[task.id];
      task.(status := local.status, owner := local.owner, blockedReason := local.blockedReason)
    else task
  }

  function Effective(tracker: Tracker, state: State): (r: Tracker)
    ensures |r| == |tracker|
    ensures forall i | 0 <= i < |r| :: r[i] == EffectiveTask(tracker[i], state)
  {
    seq(|tracker|, i requires 0 <= i < |tracker| => EffectiveTask(tracker[i], state))
  }

  /** The overlay, written into a copy of the tracker one task at a time. */
  method EffectiveTracker(tracker: Tracker, state: State) returns (effective: Tracker)
    ensures effective == Effective(tracker, state)
    // an unexpired, unfinished record of an unfinished task replaces its three lifecycle fields, and nothing else changes
    ensures |effective| == |tracker|
    ensures forall i | 0 <= i < |tracker| :: var task := tracker[i];
      if task.id in state && !state[task.id].expired && state[task.id].status != Completed && task.status != Completed
      then
        var local := state[task.id];
        effective[i] == Task(task.id, local.status, local.owner, local.blockedReason, task.dependsOn)
      else effective[i] == task
  {
    effective := tracker;
    for i := 0 to |tracker|
      invariant |effective| == |tracker|
      invariant forall k | 0 <= k < i :: effective[k] == EffectiveTask(tracker[k], state)
      invariant forall k | i <= k < |tracker| :: effective[k] == tracker[k]
    {
      var task := effective[i];
      if task.id in state {
        var local := state[task.id];
        if !local.expired && local.status != Completed && task.status != Completed {
          effective := effective[i := task.(status := local.status, owner := local.owner, blockedReason := local.blockedReason)];
        }
      }
    }
  }

  /** The tracker alone decides completion. */
  lemma CompletionAuthority(task: Task, state: State)
    ensures EffectiveTask(task, state).status == Completed <==> task.status == Completed
    ensures EffectiveTask(task, state).id == task.id && EffectiveTask(task, state).dependsOn == task.dependsOn
  {
  }

  // ----- Retiring the records the tracker caught up with -----

  function CompletedIds(tracker: Tracker): set<TaskId> {
    set i | 0 <= i < |tracker| && tracker[i].status == Completed :: tracker[i].id
  }

  lemma CompletedMeans(tracker: Tracker)
    ensures forall id :: id in CompletedIds(tracker) <==> exists task :: task in tracker && task.id == id && task.status == Completed
  {
    forall id ensures id in CompletedIds(tracker) <==> exists task :: task in tracker && task.id == id && task.status == Completed {
      if task :| task in tracker && task.id == id && task.status == Completed {
        var i :| 0 <= i < |tracker| && tracker[i] == task;
      }
    }
  }

  function RetiredRecord(record: TaskRecord): TaskRecord {
    if record.status == Completed then record else record.(status := Completed, owner := None)
  }

  function Retired(tracker: Tracker, state: State): State {
    map id | id in state :: if id in CompletedIds(tracker) then RetiredRecord(state[id]) else state[id]
  }

  class LocalState {
    var tasks: State

    constructor (tasks: State)
      ensures this.tasks == tasks
    {
      this.tasks := tasks;
    }

    method RetireCompleted(tracker: Tracker) returns (changed: bool)
      modifies this
      ensures tasks == Retired(tracker, old(tasks))
      ensures changed <==> tasks != old(tasks)
      // records of tasks the tracker completed, and no others, become completed and lose their owner
      ensures tasks.Keys == old(tasks).Keys
      ensures forall id | id in tasks :: var was := old(tasks)[id];
        if was.status != Completed && exists task :: task in tracker && task.id == id && task.status == Completed
        then
          tasks[id] == TaskRecord(
            Completed, was.expired, was.prepared, was.prepareError, None, was.blockedReason, was.stages)
        else tasks[id] == was
    {
      ghost var was := tasks;
      var completed := CompletedIds(tracker);
      var retired := set id | id in tasks && id in completed && tasks[id].status != Completed;
      changed := retired != {};
      ghost var all := retired;
      while retired != {}
        invariant retired <= all
        invariant tasks.Keys == was.Keys
        invariant forall id | id in was ::
          tasks[id] == if id in all - retired then was[id].(status := Completed, owner := None) else was[id]
        decreases retired
      {
        var id :| id in retired;
        tasks := tasks[id := tasks[id].(status := Completed, owner := None)];
        retired := retired - {id};
      }
      assert all - retired == all;
      assert tasks == Retired(tracker, was);
      assert changed ==> exists id :: id in all && tasks[id] != was[id];
      CompletedMeans(tracker);
    }
  }

  /** With unique ids, retiring a record changes no task's effective entry, and retiring twice is retiring once. */
  lemma RetiringIsInvisible(tracker: Tracker, state: State)
    requires UniqueIds(tracker)
    ensures Effective(tracker, Retired(tracker, state)) == Effective(tracker, state)
    ensures Retired(tracker, Retired(tracker, state)) == Retired(tracker, state)
  {
    forall i | 0 <= i < |tracker|
      ensures EffectiveTask(tracker[i], Retired(tracker, state)) == EffectiveTask(tracker[i], state)
    {
      if tracker[i].status != Completed {
        assert tracker[i].id !in CompletedIds(tracker);
      }
    }
  }
}
