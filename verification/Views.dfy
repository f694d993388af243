/** The rows the page shows, and their agreement with what the scheduler acts on. */
module Views {
  import opened Wrappers
  import opened Records
  import opened SchedulingPass
  import opened SchedulingProofs

  datatype Row = Row(
    id: TaskId, dependsOn: seq<TaskId>, status: Status, owner: Option<string>, local: bool, prepared: bool, prepareError: bool)

  /** A row's lease is tested the other way round from the overlay, and defaults a missing record. */
  method Rows(tracker: Tracker, state: State) returns (rows: seq<Row>)
    ensures |rows| == |tracker|
    ensures forall i | 0 <= i < |rows| :: Shows(rows[i], EffectiveTask(tracker[i], state))
    ensures forall i | 0 <= i < |rows| :: rows[i].local <==> Overrides(state, tracker[i])
    ensures forall i | 0 <= i < |rows| :: rows[i].prepared <==> IsPrepared(state, tracker[i].id)
    ensures forall i | 0 <= i < |rows| :: rows[i].prepareError <==> Errs(state, tracker[i].id)
  {
    rows := [];
    for i := 0 to |tracker|
      invariant |rows| == i
      invariant forall k | 0 <= k < i :: Shows(rows[k], EffectiveTask(tracker[k], state))
      invariant forall k | 0 <= k < i :: rows[k].local <==> Overrides(state, tracker[k])
      invariant forall k | 0 <= k < i :: rows[k].prepared <==> IsPrepared(state, tracker[k].id)
      invariant forall k | 0 <= k < i :: rows[k].prepareError <==> Errs(state, tracker[k].id)
    {
      var task := tracker[i];
      var record := if task.id in state then Some(state[task.id]) else None;
      var lease := if record.Some? && !record.value.expired && task.status != Completed && record.value.status != Completed
                   then record else None;
      rows := rows + [Row(
        task.id, task.dependsOn,
        if lease.Some? then lease.value.status else task.status,
        if lease.Some? then lease.value.owner else task.owner,
        lease.Some?,
        record.Some? && record.value.prepared,
        record.Some? && record.value.prepareError)];
    }
  }

  predicate Errs(state: State, id: TaskId) { id in state && state[id].prepareError }

  predicate Shows(row: Row, task: Task) {
    row.id == task.id && row.dependsOn == task.dependsOn && row.status == task.status && row.owner == task.owner
  }

  function CompletedRows(rows: seq<Row>): set<TaskId> {
    set i | 0 <= i < |rows| && rows[i].status == Completed :: rows[i].id
  }

  predicate Offered(row: Row, done: set<TaskId>) {
    row.status == Pending && forall d | d in row.dependsOn :: d in done
  }

  /** What the page offers for scheduling, judged by the rows alone. */
  function AvailableRows(rows: seq<Row>): set<TaskId> {
    set i | 0 <= i < |rows| && Offered(rows[i], CompletedRows(rows)) :: rows[i].id
  }

  lemma SameCompleted(tracker: Tracker, state: State, rows: seq<Row>)
    requires |rows| == |tracker|
    requires forall i | 0 <= i < |rows| :: Shows(rows[i], EffectiveTask(tracker[i], state))
    ensures CompletedRows(rows) == CompletedIds(tracker)
  {
    forall id | id in CompletedIds(tracker) ensures id in CompletedRows(rows) {
      var i :| 0 <= i < |tracker| && tracker[i].status == Completed && tracker[i].id == id;
      assert Shows(rows[i], EffectiveTask(tracker[i], state));
    }
    forall id | id in CompletedRows(rows) ensures id in CompletedIds(tracker) {
      var i :| 0 <= i < |rows| && rows[i].status == Completed && rows[i].id == id;
      assert Shows(rows[i], EffectiveTask(tracker[i], state));
    }
  }

  lemma OfferedIsReady(row: Row, task: Task, state: State, done: set<TaskId>)
    requires Shows(row, EffectiveTask(task, state))
    ensures Offered(row, done) <==> Ready(task, state, done)
    ensures row.id == task.id
  {
  }

  /** The page and the scheduler agree on what is completed and on what is available. */
  lemma PageAgreesWithScheduler(tracker: Tracker, state: State, rows: seq<Row>)
    requires |rows| == |tracker|
    requires forall i | 0 <= i < |rows| :: Shows(rows[i], EffectiveTask(tracker[i], state))
    ensures CompletedRows(rows) == CompletedIds(tracker)
    ensures AvailableRows(rows) == set id | id in Available(tracker, state)
  {
    hide Effective, EffectiveTask, Offered, Ready, Shows;
    var done := CompletedIds(tracker);
    SameCompleted(tracker, state, rows);
    PassLists(tracker, state);
    FilterMembers(tracker, (t: Task) => Ready(t, state, done));
    forall i | 0 <= i < |rows| { OfferedIsReady(rows[i], tracker[i], state, done); }
    assert forall id :: id in Available(tracker, state) <==>
      exists i :: 0 <= i < |tracker| && tracker[i].id == id && Ready(tracker[i], state, done);
  }
}
