/**
  The background sync jobs. HTTP threads and the worker meet in two critical sections and share a
  table of jobs and one flag. Each critical section is an atomic action; the history fields of the
  table record when requests were folded into a running job and when passes started.
 */
module SyncJobs {
  import opened Wrappers

  type JobId = string

  datatype JobStatus = Running | Succeeded | Failed

  datatype Job = Job(id: JobId, status: JobStatus)

  /** Where a worker thread is; a full pass has neither an event nor a selected task. */
  datatype Phase = Starting(full: bool) | InPass(full: bool, started: nat)

  datatype Fold = Fold(job: JobId, at: nat)

  datatype Pass = Pass(job: JobId, started: nat, full: bool)

  const RETAINED: nat := 32

  /**
    `jobs` is in insertion order. `clock` ticks at every fold and every start of a pass; `folds`,
    `passes` (those that returned), `succeeded` and `issued` only grow.
   */
  datatype Table = Table(
    jobs: seq<Job>, resync: bool, workers: map<JobId, Phase>,
    clock: nat, folds: seq<Fold>, passes: seq<Pass>, succeeded: set<JobId>, issued: set<JobId>)

  const EMPTY := Table([], false, map[], 0, [], [], {}, {})

  datatype Action =
    | Request(id: JobId, event: bool, only: bool, known: bool)
    | StartPass(id: JobId)
    | PassReturned(id: JobId)
    | PassRaised(id: JobId)

  function Active(jobs: seq<Job>): (active: Option<Job>)
    ensures active.Some? ==> active.value in jobs && active.value.status == Running
    ensures active.None? ==> forall i | 0 <= i < |jobs| :: jobs[i].status != Running
  {
    if jobs == [] then None else if jobs[0].status == Running then Some(jobs[0]) else Active(jobs[1..])
  }

  function SetStatus(jobs: seq<Job>, id: JobId, status: JobStatus): (r: seq<Job>)
    ensures |r| == |jobs|
    ensures forall i | 0 <= i < |jobs| :: r[i] == if jobs[i].id == id then Job(id, status) else jobs[i]
  {
    seq(|jobs|, i requires 0 <= i < |jobs| => if jobs[i].id == id then Job(id, status) else jobs[i])
  }

  function Retain(jobs: seq<Job>): seq<Job> { if |jobs| >= RETAINED then jobs[1..] else jobs }

  /** A worker acts only in its own phase, and a fresh job has a new id. */
  predicate Enabled(t: Table, a: Action) {
    match a
    case Request(id, _, _, _) => id !in t.issued
    case StartPass(id) => id in t.workers && t.workers[id].Starting?
    case PassReturned(id) => id in t.workers && t.workers[id].InPass?
    case PassRaised(id) => id in t.workers && t.workers[id].InPass?
  }

  function AfterRequest(t: Table, id: JobId, event: bool, only: bool, known: bool): Table {
    var active := Active(t.jobs);
    if only && !known then t
    else if active.Some? then
      if only then t
      else t.(resync := true, folds := t.folds + [Fold(active.value.id, t.clock)], clock := t.clock + 1)
    else
      t.(jobs := Retain(t.jobs) + [Job(id, Running)], workers := t.workers[id := Starting(!event && !only)],
         issued := t.issued + {id})
  }

  function Apply(t: Table, a: Action): Table
    requires Enabled(t, a)
  {
    match a
    case Request(id, event, only, known) => AfterRequest(t, id, event, only, known)
    case StartPass(id) =>
      t.(workers := t.workers[id := InPass(t.workers[id].full, t.clock)], clock := t.clock + 1)
    case PassReturned(id) =>
      var returned := t.(passes := t.passes + [Pass(id, t.workers[id].started, t.workers[id].full)]);
      if t.resync then returned.(resync := false, workers := t.workers[id := Starting(true)])
      else returned.(jobs := SetStatus(t.jobs, id, Succeeded), workers := t.workers - {id}, succeeded := t.succeeded + {id})
    case PassRaised(id) =>
      t.(resync := false, jobs := SetStatus(t.jobs, id, Failed), workers := t.workers - {id})
  }

  // ----- The table's invariant -----

  predicate IsRunning(t: Table, id: JobId) { Job(id, Running) in t.jobs }

  ghost predicate TableInv(t: Table) {
    && |t.jobs| <= RETAINED
    && (forall i, j | 0 <= i < j < |t.jobs| :: t.jobs[i].id != t.jobs[j].id)
    && (forall i | 0 <= i < |t.jobs| :: t.jobs[i].id in t.issued)
    && t.succeeded <= t.issued
    && (forall i, j | 0 <= i < |t.jobs| && 0 <= j < |t.jobs| && t.jobs[i].status == t.jobs[j].status == Running :: i == j)
    && (forall id :: id in t.workers <==> IsRunning(t, id))
    && (t.resync ==> Active(t.jobs).Some?)
    && (forall i | 0 <= i < |t.jobs| && t.jobs[i].status == Succeeded :: t.jobs[i].id in t.succeeded)
    && (forall id | id in t.workers :: id !in t.succeeded && id in t.issued)
    && (forall id | id in t.workers && t.workers[id].InPass? :: t.workers[id].started < t.clock)
  }

  predicate ServedBy(p: Pass, f: Fold) { p.job == f.job && p.full && f.at < p.started }

  ghost predicate Served(t: Table, f: Fold) { exists p :: p in t.passes && ServedBy(p, f) }

  /** The running worker will serve the fold: the flag is up, or a later full pass is under way. */
  predicate Pending(t: Table, f: Fold) {
    && f.job in t.workers
    && match t.workers[f.job]
       case Starting(full) => t.resync || full
       case InPass(full, started) => t.resync || (full && f.at < started)
  }

  ghost predicate FoldInv(t: Table) {
    forall i | 0 <= i < |t.folds| ::
      var f := t.folds[i];
      && f.at < t.clock && f.job in t.issued
      && (f.job in t.workers ==> Pending(t, f) || Served(t, f))
      && (f.job in t.succeeded ==> Served(t, f))
  }

  ghost predicate Inv(t: Table) { TableInv(t) && FoldInv(t) }

  lemma ActiveIsTheWorker(t: Table)
    requires TableInv(t)
    ensures Active(t.jobs).Some? ==> t.workers.Keys == {Active(t.jobs).value.id}
    ensures Active(t.jobs).None? ==> t.workers == map[]
  {
    var active := Active(t.jobs);
    forall id | id in t.workers ensures active.Some? && id == active.value.id {
      assert Job(id, Running) in t.jobs;
    }
    if active.Some? {
      assert active.value == Job(active.value.id, Running);
    }
  }

  /** A job admitted while none runs is the only running one, and the table stays bounded. */
  lemma AdmittedJobs(jobs: seq<Job>, jobs': seq<Job>, id: JobId)
    requires |jobs| <= RETAINED && jobs' == Retain(jobs) + [Job(id, Running)]
    requires Active(jobs).None? && forall i | 0 <= i < |jobs| :: jobs[i].id != id
    ensures |jobs'| <= RETAINED && Active(jobs').Some?
    ensures forall i | 0 <= i < |jobs'| - 1 :: jobs'[i] in jobs && jobs'[i].id != id && jobs'[i].status != Running
    ensures forall x :: Job(x, Running) in jobs' <==> x == id
    ensures (forall i, j | 0 <= i < j < |jobs| :: jobs[i].id != jobs[j].id) ==>
      forall i, j | 0 <= i < j < |jobs'| :: jobs'[i].id != jobs'[j].id
  {
    var kept := Retain(jobs);
    assert jobs'[|jobs'| - 1] == Job(id, Running) && forall i | 0 <= i < |kept| :: jobs'[i] == kept[i] && kept[i] in jobs;
  }

  lemma AdmissionKeeps(t: Table, t': Table, id: JobId, full: bool)
    requires Inv(t) && id !in t.issued && Active(t.jobs).None?
    requires t' == t.(jobs := Retain(t.jobs) + [Job(id, Running)], workers := t.workers[id := Starting(full)],
                      issued := t.issued + {id})
    ensures Inv(t')
  {
    AdmittedTable(t, t', id, full);
    hide TableInv, Retain;
    assert t.workers == map[] by { ActiveIsTheWorker(t); }
    assert forall f :: Served(t', f) == Served(t, f);
  }

  lemma AdmittedTable(t: Table, t': Table, id: JobId, full: bool)
    requires TableInv(t) && id !in t.issued && Active(t.jobs).None?
    requires t'.jobs == Retain(t.jobs) + [Job(id, Running)] && t'.workers == t.workers[id := Starting(full)]
    requires t'.issued == t.issued + {id} && t'.resync == t.resync && t'.succeeded == t.succeeded && t'.clock == t.clock
    ensures TableInv(t')
  {
    hide Retain;
    ActiveIsTheWorker(t);
    AdmittedJobs(t.jobs, t'.jobs, id);
    assert forall x :: IsRunning(t', x) <==> x == id;
    assert forall i | 0 <= i < |t'.jobs| - 1 :: t'.jobs[i] in t.jobs;
  }

  lemma FoldKeeps(t: Table, t': Table)
    requires Inv(t) && Active(t.jobs).Some?
    requires t' == t.(resync := true, folds := t.folds + [Fold(Active(t.jobs).value.id, t.clock)], clock := t.clock + 1)
    ensures Inv(t')
  {
    ActiveIsTheWorker(t);
    assert forall x :: IsRunning(t', x) <==> IsRunning(t, x);
    assert TableInv(t');
    assert forall f :: Served(t', f) == Served(t, f);
    forall i | 0 <= i < |t'.folds|
      ensures
        var f := t'.folds[i];
        && f.at < t'.clock && f.job in t'.issued
        && (f.job in t'.workers ==> Pending(t', f) || Served(t', f))
        && (f.job in t'.succeeded ==> Served(t', f))
    {
      assert i < |t.folds| ==> t'.folds[i] == t.folds[i];
    }
  }

  lemma RequestKeeps(t: Table, id: JobId, event: bool, only: bool, known: bool)
    requires Inv(t) && id !in t.issued
    ensures Inv(AfterRequest(t, id, event, only, known))
  {
    var t' := AfterRequest(t, id, event, only, known);
    if !(only && !known) {
      if Active(t.jobs).None? {
        AdmissionKeeps(t, t', id, !event && !only);
      } else if !only {
        FoldKeeps(t, t');
      }
    }
  }

  lemma StatusChange(t: Table, id: JobId, status: JobStatus)
    requires TableInv(t) && id in t.workers && status != Running
    ensures forall x :: Job(x, Running) in SetStatus(t.jobs, id, status) <==> x != id && IsRunning(t, x)
    ensures Active(SetStatus(t.jobs, id, status)).None?
  {
    ActiveIsTheWorker(t);
    var jobs := SetStatus(t.jobs, id, status);
    forall x | x != id && IsRunning(t, x) ensures Job(x, Running) in jobs {
      var i :| 0 <= i < |t.jobs| && t.jobs[i] == Job(x, Running);
      assert jobs[i] == Job(x, Running);
    }
    forall i | 0 <= i < |jobs| ensures jobs[i].status != Running {
      if t.jobs[i].status == Running { assert t.jobs[i] == Job(t.jobs[i].id, Running); }
    }
  }

  lemma StartKeeps(t: Table, id: JobId)
    requires Inv(t) && Enabled(t, StartPass(id))
    ensures Inv(Apply(t, StartPass(id)))
  {
    var t' := Apply(t, StartPass(id));
    assert forall x :: IsRunning(t', x) <==> IsRunning(t, x);
    assert TableInv(t');
    assert forall f :: Served(t', f) == Served(t, f);
  }

  lemma EndedTable(t: Table, id: JobId, status: JobStatus, t': Table)
    requires TableInv(t) && id in t.workers && status != Running
    requires t'.jobs == SetStatus(t.jobs, id, status) && t'.workers == t.workers - {id} && !t'.resync
    requires t'.issued == t.issued && t'.clock == t.clock
    requires t'.succeeded == if status == Succeeded then t.succeeded + {id} else t.succeeded
    ensures TableInv(t') && t'.workers == map[]
  {
    hide SetStatus, Active;
    ActiveIsTheWorker(t);
    StatusChange(t, id, status);
    assert forall x :: IsRunning(t', x) <==> x != id && IsRunning(t, x);
  }

  lemma RaiseKeeps(t: Table, id: JobId)
    requires Inv(t) && Enabled(t, PassRaised(id))
    ensures Inv(Apply(t, PassRaised(id)))
  {
    var t' := Apply(t, PassRaised(id));
    EndedTable(t, id, Failed, t');
    assert forall f :: Served(t', f) == Served(t, f);
  }

  lemma ReturnedTable(t: Table, id: JobId)
    requires TableInv(t) && Enabled(t, PassReturned(id))
    ensures TableInv(Apply(t, PassReturned(id)))
    ensures t.workers.Keys == {id} && id !in t.succeeded && (t.resync || Apply(t, PassReturned(id)).workers == map[])
  {
    hide SetStatus, Active;
    var t' := Apply(t, PassReturned(id));
    ActiveIsTheWorker(t);
    if t.resync {
      assert forall x :: IsRunning(t', x) <==> IsRunning(t, x);
    } else {
      EndedTable(t, id, Succeeded, t');
    }
  }

  lemma ReturnKeeps(t: Table, id: JobId)
    requires Inv(t) && Enabled(t, PassReturned(id))
    ensures Inv(Apply(t, PassReturned(id)))
  {
    hide TableInv, SetStatus, Active;
    var t' := Apply(t, PassReturned(id));
    ReturnedTable(t, id);
    forall f ensures Served(t, f) || (f.job == id && !t.resync && Pending(t, f)) ==> Served(t', f) {
      ServedAfter(t, PassReturned(id), f);
    }
  }

  lemma WorkerKeeps(t: Table, a: Action)
    requires Inv(t) && Enabled(t, a) && !a.Request?
    ensures Inv(Apply(t, a))
  {
    match a
    case StartPass(id) => StartKeeps(t, id);
    case PassReturned(id) => ReturnKeeps(t, id);
    case PassRaised(id) => RaiseKeeps(t, id);
  }

  // ----- Whole runs: every interleaving of requests and workers -----

  datatype Run = Start | Then(before: Run, action: Action)

  function Outcome(run: Run): Option<Table> {
    match run
    case Start => Some(EMPTY)
    case Then(before, action) =>
      var t := Outcome(before);
      if t.Some? && Enabled(t.value, action) then Some(Apply(t.value, action)) else None
  }

  lemma {:induction false} RunKeeps(run: Run)
    requires Outcome(run).Some?
    ensures Inv(Outcome(run).value)
  {
    if run.Start? {
    } else {
      RunKeeps(run.before);
      var t := Outcome(run.before).value;
      match run.action
      case Request(id, event, only, known) => RequestKeeps(t, id, event, only, known);
      case _ => WorkerKeeps(t, run.action);
    }
  }

  /** At most one job runs, the flag implies one does, 32 are kept, and a running job is never evicted. */
  lemma JobTable(run: Run)
    requires Outcome(run).Some?
    ensures
      var t := Outcome(run).value;
      && |t.jobs| <= RETAINED
      && |t.workers| <= 1
      && (t.resync ==> |t.workers| == 1)
      && (forall id | id in t.workers :: IsRunning(t, id))
      && (forall i, j | 0 <= i < |t.jobs| && 0 <= j < |t.jobs| && t.jobs[i].status == t.jobs[j].status == Running :: i == j)
  {
    RunKeeps(run);
    var t := Outcome(run).value;
    ActiveIsTheWorker(t);
    assert |t.workers| == |t.workers.Keys|;
  }

  /** If a job succeeded, every request folded into it was followed by a full pass that started later and returned. */
  lemma NoFoldedRequestIsLost(run: Run, f: Fold)
    requires Outcome(run).Some? && f in Outcome(run).value.folds && f.job in Outcome(run).value.succeeded
    ensures exists p :: p in Outcome(run).value.passes && p.job == f.job && p.full && f.at < p.started
  {
    RunKeeps(run);
    var t := Outcome(run).value;
    assert Served(t, f);
    var p :| p in t.passes && ServedBy(p, f);
  }

  // ----- What becomes of a folded request -----

  /** The run `b` goes on from the run `a`. */
  ghost predicate GoesOn(a: Run, b: Run) {
    b == a || (b.Then? && GoesOn(a, b.before))
  }

  /** What workers did between the two. */
  ghost function Worked(a: Run, b: Run): seq<Action>
    requires GoesOn(a, b)
  {
    if b == a then [] else Worked(a, b.before) + if b.action.Request? then [] else [b.action]
  }

  /** What the running worker has still to do for an unserved fold: let the pass under way return, then a full one. */
  function Needs(t: Table, f: Fold): seq<Action>
    requires f.job in t.workers
  {
    var again := [StartPass(f.job), PassReturned(f.job)];
    match t.workers[f.job]
    case Starting(full) => if full then again else again + again
    case InPass(full, started) => if full && f.at < started then again[1..] else [PassReturned(f.job)] + again
  }

  /** Where a fold stands that needed `needs`, once workers did `worked`. */
  ghost predicate Stands(t: Table, f: Fold, needs: seq<Action>, worked: seq<Action>) {
    && f.job in t.issued && f in t.folds
    && (Served(t, f) <==> needs <= worked)
    && (!(needs <= worked) ==>
          if f.job in t.workers then |worked| < |needs| && worked == needs[..|worked|] && Needs(t, f) == needs[|worked|..]
          else !(worked <= needs))
  }

  lemma OnlyTheWorker(t: Table, a: Action, f: Fold)
    requires TableInv(t) && Enabled(t, a) && !a.Request? && f.job in t.workers
    ensures a.id == f.job
  {
    ActiveIsTheWorker(t);
  }

  /** A fold gets a pass only from its own job, and only where that pass returns. */
  lemma ServedAfter(t: Table, a: Action, f: Fold)
    requires Enabled(t, a)
    ensures Served(Apply(t, a), f) <==>
      (Served(t, f) || (a == PassReturned(f.job) && t.workers[f.job].full && f.at < t.workers[f.job].started))
  {
    var t' := Apply(t, a);
    if Served(t, f) {
      var p :| p in t.passes && ServedBy(p, f);
      assert p in t'.passes;
    }
    if a.PassReturned? {
      var last := Pass(a.id, t.workers[a.id].started, t.workers[a.id].full);
      assert t'.passes == t.passes + [last] && last in t'.passes;
      assert ServedBy(last, f) ==> Served(t', f);
      forall p | p in t'.passes && ServedBy(p, f) && p !in t.passes ensures p == last {}
    }
  }

  lemma RequestStands(t: Table, a: Action, f: Fold, needs: seq<Action>, worked: seq<Action>)
    requires Inv(t) && Enabled(t, a) && a.Request? && Stands(t, f, needs, worked)
    ensures Stands(Apply(t, a), f, needs, worked)
  {
    ServedAfter(t, a, f);
    ActiveIsTheWorker(t);
  }

  /** The one worker does the next thing needed, or raises and is gone with the fold unserved. */
  lemma NextStep(t: Table, a: Action, f: Fold)
    requires Inv(t) && Enabled(t, a) && !a.Request? && f in t.folds && f.job in t.workers && !Served(t, f)
    ensures
      var t', needs := Apply(t, a), Needs(t, f);
      if a == needs[0] then
        if |needs| == 1 then Served(t', f)
        else !Served(t', f) && f.job in t'.workers && Needs(t', f) == needs[1..]
      else !Served(t', f) && f.job !in t'.workers
  {
    OnlyTheWorker(t, a, f);
    ServedAfter(t, a, f);
    var i :| 0 <= i < |t.folds| && t.folds[i] == f;
    assert Pending(t, f);
  }

  /** What one more action does to having done what is needed, or the first of it. */
  lemma OneMore(needs: seq<Action>, worked: seq<Action>, a: Action)
    ensures needs <= worked ==> needs <= worked + [a]
    ensures !(needs <= worked) && !(worked <= needs) ==> !(needs <= worked + [a]) && !(worked + [a] <= needs)
    ensures |worked| < |needs| && worked == needs[..|worked|] ==>
      var more, rest := worked + [a], needs[|worked|..];
      && rest[0] == needs[|worked|]
      && (needs <= more <==> a == rest[0] && |rest| == 1)
      && (more <= needs <==> a == rest[0])
      && (a == rest[0] ==> more == needs[..|more|] && rest[1..] == needs[|more|..])
  {
    var more := worked + [a];
    assert more[..|worked|] == worked;
    if needs <= worked {
      assert more[..|needs|] == worked[..|needs|];
    } else if needs <= more {
      assert |needs| == |more| && worked == needs[..|worked|];
    }
    if more <= needs {
      assert worked == needs[..|worked|];
    }
  }

  lemma WorkStands(t: Table, a: Action, f: Fold, needs: seq<Action>, worked: seq<Action>)
    requires Inv(t) && Enabled(t, a) && !a.Request? && Stands(t, f, needs, worked)
    ensures Stands(Apply(t, a), f, needs, worked + [a])
  {
    hide Served, Pending, Needs, TableInv, FoldInv;
    ServedAfter(t, a, f);
    OneMore(needs, worked, a);
    if !(needs <= worked) && f.job in t.workers {
      NextStep(t, a, f);
    }
  }

  lemma {:induction false} FoldStands(a: Run, b: Run, f: Fold)
    requires Outcome(a).Some? && Outcome(b).Some? && GoesOn(a, b)
    requires f in Outcome(a).value.folds && f.job in Outcome(a).value.workers && !Served(Outcome(a).value, f)
    ensures Stands(Outcome(b).value, f, Needs(Outcome(a).value, f), Worked(a, b))
  {
    RunKeeps(b);
    if b == a {
    } else {
      RunKeeps(b.before);
      FoldStands(a, b.before, f);
      var t, needs := Outcome(b.before).value, Needs(Outcome(a).value, f);
      if b.action.Request? {
        RequestStands(t, b.action, f, needs, Worked(a, b.before));
        assert Worked(a, b) == Worked(a, b.before);
      } else {
        WorkStands(t, b.action, f, needs, Worked(a, b.before));
      }
    }
  }

  /**
    A fold that is not yet served will be, in any continuation, exactly when the worker goes on with
    what it needs: a pass under way and the full one after it both return.
   */
  lemma ServedExactlyWhen(a: Run, b: Run, f: Fold)
    requires Outcome(a).Some? && Outcome(b).Some? && GoesOn(a, b)
    requires f in Outcome(a).value.folds && f.job in Outcome(a).value.workers && !Served(Outcome(a).value, f)
    ensures Served(Outcome(b).value, f) <==> Needs(Outcome(a).value, f) <= Worked(a, b)
  {
    FoldStands(a, b, f);
  }

  lemma {:induction false} PassesArePast(run: Run)
    requires Outcome(run).Some?
    ensures forall p | p in Outcome(run).value.passes :: p.started < Outcome(run).value.clock
  {
    RunKeeps(run);
    if run.Start? {
    } else {
      RunKeeps(run.before);
      PassesArePast(run.before);
    }
  }

  /** A request folded while a pass is under way is served exactly when that pass and the next one both return. */
  lemma FoldedDuringPass(before: Run, id: JobId, event: bool, b: Run)
    requires
      var a := Then(before, Request(id, event, false, true));
      Outcome(a).Some? && Outcome(b).Some? && GoesOn(a, b)
    requires Active(Outcome(before).value.jobs).Some? && Outcome(before).value.workers[WorkerOf(before)].InPass?
    ensures
      var t, job := Outcome(before).value, WorkerOf(before);
      var f, a := Fold(job, t.clock), Then(before, Request(id, event, false, true));
      && f in Outcome(b).value.folds
      && (Served(Outcome(b).value, f) <==> [PassReturned(job), StartPass(job), PassReturned(job)] <= Worked(a, b))
  {
    var t, a := Outcome(before).value, Then(before, Request(id, event, false, true));
    var job := WorkerOf(before);
    var f := Fold(job, t.clock);
    RunKeeps(before);
    PassesArePast(before);
    var t' := Outcome(a).value;
    assert t'.folds == t.folds + [f] && t'.passes == t.passes && t'.workers == t.workers;
    assert !Served(t', f);
    FoldStands(a, b, f);
    assert Needs(t', f) == [PassReturned(job), StartPass(job), PassReturned(job)];
  }

  /** The job that runs at the end of a run. */
  ghost function WorkerOf(run: Run): (id: JobId)
    requires Outcome(run).Some? && Active(Outcome(run).value.jobs).Some?
    ensures id in Outcome(run).value.workers
  {
    RunKeeps(run);
    ActiveIsTheWorker(Outcome(run).value);
    Active(Outcome(run).value.jobs).value.id
  }

  lemma {:induction false} GoneStaysGone(a: Run, b: Run, f: Fold)
    requires Outcome(a).Some? && Outcome(b).Some? && GoesOn(a, b)
    requires f in Outcome(a).value.folds && f.job !in Outcome(a).value.workers
    ensures f.job !in Outcome(b).value.workers && f.job in Outcome(b).value.issued && f in Outcome(b).value.folds
    ensures Served(Outcome(b).value, f) == Served(Outcome(a).value, f)
  {
    RunKeeps(a);
    if b == a {
    } else {
      GoneStaysGone(a, b.before, f);
      ServedAfter(Outcome(b.before).value, b.action, f);
    }
  }

  /**
    When a job fails, the folds it has not served are dropped: the flag is down, and they stay unserved
    in every continuation.
   */
  lemma FailureDropsFolds(a: Run, b: Run, f: Fold)
    requires Outcome(Then(a, PassRaised(f.job))).Some? && Outcome(b).Some? && GoesOn(Then(a, PassRaised(f.job)), b)
    requires f in Outcome(a).value.folds
    ensures !Outcome(Then(a, PassRaised(f.job))).value.resync
    ensures Served(Outcome(b).value, f) <==> Served(Outcome(a).value, f)
    ensures f.job !in Outcome(b).value.workers && f.job !in Outcome(b).value.succeeded
  {
    RunKeeps(a);
    GoneStaysGone(Then(a, PassRaised(f.job)), b, f);
    ServedAfter(Outcome(a).value, PassRaised(f.job), f);
    NeverSucceeds(Then(a, PassRaised(f.job)), b, f.job);
  }

  /** An instance: one pass, one request folded into it, and the pass raises. The request gets no pass, ever. */
  lemma DroppedFold(id: JobId, spare: JobId, b: Run)
    requires id != spare
    requires
      var run := Then(Then(Then(Then(Start, Request(id, false, false, true)), StartPass(id)),
                           Request(spare, true, false, true)), PassRaised(id));
      Outcome(b).Some? && GoesOn(run, b)
    ensures !Served(Outcome(b).value, Fold(id, 1)) && Fold(id, 1) in Outcome(b).value.folds
  {
    var r3 := FoldedRun(id, spare);
    var f := Fold(id, 1);
    assert Outcome(r3).value.folds[0] == f;
    GoneStaysGone(Then(r3, PassRaised(id)), b, f);
    FailureDropsFolds(r3, b, f);
  }

  lemma FoldedRun(id: JobId, spare: JobId) returns (run: Run)
    requires id != spare
    ensures run == Then(Then(Then(Start, Request(id, false, false, true)), StartPass(id)), Request(spare, true, false, true))
    ensures
      var t := Outcome(run);
      && t.Some? && t.value.folds == [Fold(id, 1)] && t.value.passes == []
      && t.value.workers == map[id := InPass(true, 0)]
  {
    var r1 := Then(Start, Request(id, false, false, true));
    var t1 := EMPTY.(jobs := [Job(id, Running)], workers := map[id := Starting(true)], issued := {id});
    assert Outcome(Start) == Some(EMPTY) && Retain(EMPTY.jobs) + [Job(id, Running)] == [Job(id, Running)];
    assert EMPTY.workers[id := Starting(true)] == t1.workers && EMPTY.issued + {id} == {id};
    assert Outcome(r1) == Some(t1);
    var r2, t2 := Then(r1, StartPass(id)), t1.(workers := map[id := InPass(true, 0)], clock := 1);
    assert t1.workers[id := InPass(true, 0)] == t2.workers;
    assert Outcome(r2) == Some(t2);
    run := Then(r2, Request(spare, true, false, true));
    var t3 := t2.(resync := true, folds := [Fold(id, 1)], clock := 2);
    assert t2.folds + [Fold(id, 1)] == t3.folds;
    assert Outcome(run) == Some(t3);
  }

  lemma {:induction false} NeverSucceeds(a: Run, b: Run, id: JobId)
    requires Outcome(a).Some? && Outcome(b).Some? && GoesOn(a, b)
    requires id in Outcome(a).value.issued && id !in Outcome(a).value.workers && id !in Outcome(a).value.succeeded
    ensures id in Outcome(b).value.issued && id !in Outcome(b).value.workers && id !in Outcome(b).value.succeeded
  {
    if b == a {
    } else {
      NeverSucceeds(a, b.before, id);
    }
  }

  // ----- How long a job may go on -----

  /** The run goes on with `n` more passes of the job, each with a request folded into it. */
  ghost function Rounds(run: Run, id: JobId, spare: JobId, n: nat): Run {
    if n == 0 then run
    else
      var r := Rounds(run, id, spare, n - 1);
      Then(Then(Then(r, Request(spare, true, false, true)), PassReturned(id)), StartPass(id))
  }

  /** As long as a request comes in during every pass the job goes on: no number of passes is the last. */
  lemma {:induction false} JobMayGoOn(run: Run, id: JobId, spare: JobId, n: nat)
    requires Outcome(run).Some? && id in Outcome(run).value.workers && Outcome(run).value.workers[id].InPass?
    requires spare !in Outcome(run).value.issued
    ensures
      var after := Outcome(Rounds(run, id, spare, n));
      && after.Some? && id in after.value.workers && after.value.workers[id].InPass?
      && spare !in after.value.issued
      && |after.value.passes| == |Outcome(run).value.passes| + n
  {
    if n == 0 {
    } else {
      JobMayGoOn(run, id, spare, n - 1);
      var r := Rounds(run, id, spare, n - 1);
      RunKeeps(r);
      OneMoreRound(r, id, spare);
    }
  }

  lemma OneMoreRound(r: Run, id: JobId, spare: JobId)
    requires Outcome(r).Some? && Inv(Outcome(r).value) && spare !in Outcome(r).value.issued
    requires id in Outcome(r).value.workers && Outcome(r).value.workers[id].InPass?
    ensures
      var t := Outcome(r).value;
      var after := Outcome(Then(Then(Then(r, Request(spare, true, false, true)), PassReturned(id)), StartPass(id)));
      && after.Some? && id in after.value.workers && after.value.workers[id].InPass?
      && after.value.issued == t.issued && |after.value.passes| == |t.passes| + 1
  {
    var t := Outcome(r).value;
    ActiveIsTheWorker(t);
    var r1 := Then(r, Request(spare, true, false, true));
    var t1 := AfterRequest(t, spare, true, false, true);
    assert Outcome(r1) == Some(t1) && t1.resync;
    var r2, t2 := Then(r1, PassReturned(id)), Apply(t1, PassReturned(id));
    assert Outcome(r2) == Some(t2) && t2.workers[id] == Starting(true);
  }

  // ----- The object the HTTP threads and the worker share -----

  /** What a pass did and how many further requests came in while it ran. */
  datatype PassEvent = PassEvent(returned: bool, requests: nat)

  class JobBoard {
    var jobs: seq<Job>
    var resync: bool
    ghost var table: Table

    ghost predicate Valid()
      reads this
    {
      Inv(table) && jobs == table.jobs && resync == table.resync
    }

    constructor ()
      ensures Valid() && table == EMPTY
    {
      jobs, resync, table := [], false, EMPTY;
    }

    /** The request's critical section; `id` is the new job's id should one be needed. */
    method StartSync(id: JobId, event: bool, only: bool, known: bool) returns (reply: Result<Job>)
      requires Valid() && id !in table.issued
      modifies this
      ensures Valid() && table == AfterRequest(old(table), id, event, only, known)
      ensures only && !known ==> reply == Refused(404)
      ensures !(only && !known) && Active(old(jobs)).Some? ==>
        reply == if only then Refused(409) else Ok(Active(old(jobs)).value)
      ensures !(only && !known) && Active(old(jobs)).None? ==>
        reply == Ok(Job(id, Running)) && id in table.workers
      // a new job comes last and the newest 31 before it stay; otherwise the table is as it was
      ensures
        if !(only && !known) && Active(old(jobs)).None? then
          var kept := if |old(jobs)| < 32 then |old(jobs)| else 31;
          && jobs == old(jobs)[|old(jobs)| - kept..] + [Job(id, Running)]
          && resync == old(resync) && table.workers[id] == Starting(!event && !only)
        else jobs == old(jobs) && resync == (old(resync) || (Active(old(jobs)).Some? && !only))
    {
      RequestKeeps(table, id, event, only, known);
      hide Inv, SetStatus;
      table := AfterRequest(table, id, event, only, known);
      if only && !known {
        return Refused(404);
      }
      var active := Active(jobs);
      if active.Some? {
        if only {
          return Refused(409);
        }
        resync := true;
        return Ok(active.value);
      }
      if |jobs| >= RETAINED {
        jobs := jobs[1..];
      }
      jobs := jobs + [Job(id, Running)];
      return Ok(Job(id, Running));
    }

    ghost method BeginPass(id: JobId)
      requires Valid() && id in table.workers && table.workers[id].Starting?
      modifies this`table
      ensures Valid() && table == Apply(old(table), StartPass(id))
    {
      WorkerKeeps(table, StartPass(id));
      table := Apply(table, StartPass(id));
    }

    /** The worker's critical section after a pass returned: go round again, or report success. */
    method EndPass(id: JobId) returns (again: bool)
      requires Valid() && id in table.workers && table.workers[id].InPass?
      modifies this
      ensures Valid() && table == Apply(old(table), PassReturned(id))
      ensures again == old(resync)
      ensures again ==> id in table.workers && table.workers[id] == Starting(true) && !resync && jobs == old(jobs)
      ensures !again ==> Job(id, Succeeded) in jobs
    {
      WorkerKeeps(table, PassReturned(id));
      assert IsRunning(table, id);
      table := Apply(table, PassReturned(id));
      again := resync;
      if resync {
        resync := false;
      } else {
        UpdateStatus(id, Succeeded);
      }
    }

    method UpdateStatus(id: JobId, status: JobStatus)
      requires Job(id, Running) in jobs
      modifies this`jobs
      ensures jobs == SetStatus(old(jobs), id, status)
      ensures Job(id, status) in jobs
    {
      var i :| 0 <= i < |jobs| && jobs[i] == Job(id, Running);
      jobs := SetStatus(jobs, id, status);
      assert jobs[i] == Job(id, status);
    }

    /** The worker's critical section after a pass raised. */
    method FailPass(id: JobId)
      requires Valid() && id in table.workers && table.workers[id].InPass?
      modifies this
      ensures Valid() && table == Apply(old(table), PassRaised(id))
      ensures Job(id, Failed) in jobs
    {
      WorkerKeeps(table, PassRaised(id));
      assert IsRunning(table, id);
      table := Apply(table, PassRaised(id));
      resync := false;
      UpdateStatus(id, Failed);
    }

    /** Requests that come in while a job runs; only full ones are folded. */
    method Arrivals(id: JobId, requests: nat, spare: JobId)
      requires Valid() && id in table.workers && spare !in table.issued
      modifies this
      ensures Valid() && table.workers == old(table.workers) && table.issued == old(table.issued)
      ensures resync == (old(resync) || requests > 0)
      ensures |table.folds| == |old(table.folds)| + requests
      ensures table.succeeded == old(table.succeeded)
    {
      for i := 0 to requests
        invariant Valid() && table.workers == old(table.workers) && table.issued == old(table.issued)
        invariant resync == (old(resync) || i > 0)
        invariant |table.folds| == |old(table.folds)| + i
        invariant table.succeeded == old(table.succeeded)
      {
        ActiveIsTheWorker(table);
        var _ := StartSync(spare, false, false, true);
      }
    }

    /**
      The worker's loop. `events` says how each pass ends and how many requests arrive meanwhile;
      once it is used up passes return and nothing arrives, so the loop ends.
     */
    method RunSync(id: JobId, event: bool, only: bool, events: seq<PassEvent>, spare: JobId)
      requires Valid() && id in table.workers && table.workers[id] == Starting(!event && !only) && spare !in table.issued
      modifies this
      ensures Valid()
      ensures Job(id, Succeeded) in jobs || Job(id, Failed) in jobs
      ensures id !in table.workers
      ensures Job(id, Succeeded) in jobs ==>
        forall f | f in table.folds && f.job == id ::
          exists p :: p in table.passes && p.job == id && p.full && f.at < p.started
    {
      hide Inv, Served;
      var rest := events;
      var again, forEvent, forOne := true, event, only;
      while again
        invariant Valid() && spare !in table.issued
        invariant again ==> id in table.workers && table.workers[id] == Starting(!forEvent && !forOne)
        invariant !again ==> id !in table.workers && Job(id, Succeeded) in jobs
        decreases again, |rest|, resync
      {
        BeginPass(id);
        if rest != [] {
          Arrivals(id, rest[0].requests, spare);
          if !rest[0].returned {
            FailPass(id);
            Unserved(table, id);
            return;
          }
          rest := rest[1..];
        }
        again := EndPass(id);
        if again {
          // a request came in: finish as a full pass
          forEvent, forOne := false, false;
        }
      }
      Unserved(table, id);
    }
  }

  lemma Unserved(t: Table, id: JobId)
    requires Inv(t)
    ensures Job(id, Succeeded) in t.jobs ==>
      forall f | f in t.folds && f.job == id :: exists p :: p in t.passes && p.job == id && p.full && f.at < p.started
  {
    if Job(id, Succeeded) in t.jobs {
      forall f | f in t.folds && f.job == id
        ensures exists p :: p in t.passes && p.job == id && p.full && f.at < p.started
      {
        assert Served(t, f);
        var p :| p in t.passes && ServedBy(p, f);
      }
    }
  }
}
