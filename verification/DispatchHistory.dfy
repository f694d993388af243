/** Attempt lists between two points of a run, and how long a push may go on. */
module DispatchHistory {
  import opened Wrappers
  import opened Records
  import opened BranchNames
  import opened Dispatch
  import opened DispatchProofs

  /** A list went on: only the branch of its last attempt may have changed, and that to no lower number. */
  ghost predicate ListKept(task: TaskId, stage: Stage, a: seq<Attempt>, b: seq<Attempt>) {
    && |a| <= |b|
    && (forall i | 0 <= i < |a| - 1 :: b[i].branch == a[i].branch)
    && (a != [] ==> Rises(NumberOf(task, stage, a[|a| - 1]), NumberOf(task, stage, b[|a| - 1])))
  }

  predicate Rises(n: Option<nat>, m: Option<nat>) { n.Some? ==> m.Some? && n.value <= m.value }

  /** The lists of the stages that have branches went on. */
  ghost predicate ListsKept(a: State, b: State) {
    forall task, stage | stage != Audit :: ListKept(task, stage, Attempts(a, task, stage), Attempts(b, task, stage))
  }

  lemma KeptOneList(state: State, key: Key, attempts: seq<Attempt>)
    requires key.task in state
    requires key.stage != Audit ==> ListKept(key.task, key.stage, List(state, key), attempts)
    ensures ListsKept(state, Update(state, key.task, key.stage, attempts))
  {
    UpdateAttempts(state, key.task, key.stage, attempts);
  }

  lemma SameBranches(task: TaskId, stage: Stage, a: seq<Attempt>, b: seq<Attempt>)
    requires |a| <= |b| && forall i | 0 <= i < |a| :: b[i].branch == a[i].branch
    ensures ListKept(task, stage, a, b)
  {
  }

  // ----- One step -----

  /** The last attempt, being dispatched under `n`, replaced by one under that number or the next. */
  lemma LastGoesOn(state: State, key: Key, n: nat, a: Attempt)
    requires key.task in state && List(state, key) != []
    requires List(state, key)[|List(state, key)| - 1] == NewAttempt(key, n)
    requires a.branch == BranchOf(key, n) || a.branch == BranchOf(key, n + 1)
    ensures ListsKept(state, Update(state, key.task, key.stage, WithLast(List(state, key), a)))
  {
    var attempts := List(state, key);
    NewNumber(key, n);
    NewNumber(key, n + 1);
    assert NumberOf(key.task, key.stage, a) == if key.stage == Audit then None else
      if a.branch == BranchOf(key, n) then Some(n) else Some(n + 1);
    KeptOneList(state, key, WithLast(attempts, a));
  }

  lemma WriteGoesOn(w: World)
    requires Inv(w) && Enabled(w, Write)
    ensures ListsKept(w.disk, w.memory)
  {
    hide DiskOk, ListsKept, ListKept, NumberedBelow;
    var key, n, attempts := w.phase.key, w.phase.number, List(w.disk, w.phase.key);
    if w.phase.Appended? {
      SameBranches(key.task, key.stage, attempts, attempts + [NewAttempt(key, n)]);
      KeptOneList(w.disk, key, attempts + [NewAttempt(key, n)]);
    } else if w.phase.Renumbered? {
      LastGoesOn(w.disk, key, n, NewAttempt(key, n + 1));
    } else if w.phase.Declined? {
      KeptOneList(w.disk, key, attempts[..|attempts| - 1]);
    } else {
      LastGoesOn(w.disk, key, n, Ended(attempts[|attempts| - 1], w.phase));
    }
  }

  lemma ExpireStageGoesOn(w: World, key: Key, i: nat)
    requires key.task in w.disk && i < |List(w.disk, key)|
    ensures ListsKept(w.disk, Expire(w, key, i).disk)
  {
    var attempts := List(w.disk, key);
    SameBranches(key.task, key.stage, attempts, attempts[i := attempts[i].(status := Expired)]);
    KeptOneList(w.disk, key, attempts[i := attempts[i].(status := Expired)]);
  }

  lemma ExpireTaskGoesOn(state: State, task: TaskId)
    requires task in state
    ensures ListsKept(state, state[task := ExpiredRecord(state[task])])
  {
    var expired := state[task := ExpiredRecord(state[task])];
    ExpiredAttempts(state, task);
    forall t, s { SameBranches(t, s, Attempts(state, t, s), Attempts(expired, t, s)); }
  }

  lemma SameListsGoOn(a: State, b: State)
    requires forall t, s :: Attempts(b, t, s) == Attempts(a, t, s)
    ensures ListsKept(a, b)
  {
    forall t, s { SameBranches(t, s, Attempts(a, t, s), Attempts(b, t, s)); }
  }

  lemma DiskUntouched(w: World, a: Action)
    requires Enabled(w, a) && !a.Write? && !a.ExpireStage? && !a.ExpireTask? && !a.OtherWrite?
    ensures Apply(w, a).disk == w.disk
  {
  }

  lemma StepGoesOn(w: World, a: Action)
    requires Inv(w) && Enabled(w, a)
    ensures ListsKept(w.disk, Apply(w, a).disk)
  {
    match a
    case Write => WriteGoesOn(w);
    case ExpireStage(key) => ExpireStageGoesOn(w, key, LiveAttempt(List(w.disk, key), key.head).value);
    case ExpireTask(task) => ExpireTaskGoesOn(w.disk, task);
    case OtherWrite(state) => SameListsGoOn(w.disk, state);
    case _ => DiskUntouched(w, a); SameListsGoOn(w.disk, w.disk);
  }

  // ----- Whole runs -----

  lemma KeptChains(task: TaskId, stage: Stage, a: seq<Attempt>, b: seq<Attempt>, c: seq<Attempt>)
    requires ListKept(task, stage, a, b) && ListKept(task, stage, b, c)
    ensures ListKept(task, stage, a, c)
  {
  }

  /** The attempts on disk at the end of a run. */
  ghost function AttemptsAt(run: Run, task: TaskId, stage: Stage): seq<Attempt>
    requires Outcome(run).Some?
  {
    Attempts(Outcome(run).value.disk, task, stage)
  }

  lemma {:induction false} RunGoesOn(a: Run, b: Run, task: TaskId, stage: Stage)
    requires Outcome(a).Some? && Outcome(b).Some? && GoesOn(a, b) && stage != Audit
    ensures ListKept(task, stage, AttemptsAt(a, task, stage), AttemptsAt(b, task, stage))
  {
    if b == a {
      SameBranches(task, stage, AttemptsAt(a, task, stage), AttemptsAt(a, task, stage));
    } else {
      RunGoesOn(a, b.before, task, stage);
      RunKeeps(b.before);
      StepGoesOn(Outcome(b.before).value, b.action);
      KeptChains(task, stage, AttemptsAt(a, task, stage), AttemptsAt(b.before, task, stage), AttemptsAt(b, task, stage));
    }
  }

  lemma RunIncreases(run: Run, task: TaskId, stage: Stage)
    requires Outcome(run).Some?
    ensures Increasing(task, stage, AttemptsAt(run, task, stage))
  {
    RunKeeps(run);
    assert Orderly(task, stage, AttemptsAt(run, task, stage));
  }

  lemma RisesFrom(task: TaskId, stage: Stage, was: seq<Attempt>, now: seq<Attempt>, i: nat)
    requires ListKept(task, stage, was, now) && Increasing(task, stage, now)
    requires i < |was| && NumberOf(task, stage, was[i]).Some?
    ensures i < |now| && Rises(NumberOf(task, stage, was[i]), NumberOf(task, stage, now[i]))
    ensures forall j | i < j < |now| && NumberOf(task, stage, now[j]).Some? ::
      NumberOf(task, stage, was[i]).value < NumberOf(task, stage, now[j]).value
  {
  }

  /** A recorded number never falls, and whatever comes to stand later in the list is numbered above it. */
  lemma NumbersOnlyRise(a: Run, b: Run, task: TaskId, stage: Stage, i: nat)
    requires Outcome(a).Some? && Outcome(b).Some? && GoesOn(a, b) && stage != Audit
    requires i < |AttemptsAt(a, task, stage)| && NumberOf(task, stage, AttemptsAt(a, task, stage)[i]).Some?
    ensures
      var n, now := NumberOf(task, stage, AttemptsAt(a, task, stage)[i]), AttemptsAt(b, task, stage);
      && i < |now| && Rises(n, NumberOf(task, stage, now[i]))
      && forall j | i < j < |now| && NumberOf(task, stage, now[j]).Some? :: n.value < NumberOf(task, stage, now[j]).value
  {
    RunGoesOn(a, b, task, stage);
    RunIncreases(b, task, stage);
    RisesFrom(task, stage, AttemptsAt(a, task, stage), AttemptsAt(b, task, stage), i);
  }

  lemma OnePlace(task: TaskId, stage: Stage, was: seq<Attempt>, now: seq<Attempt>, i: nat, i': nat)
    requires ListKept(task, stage, was, now) && Increasing(task, stage, was) && Increasing(task, stage, now)
    requires i < |was| && i' < |now| && was[i].branch == now[i'].branch && NumberOf(task, stage, was[i]).Some?
    ensures i == i'
  {
    RisesFrom(task, stage, was, now, i);
    if i' < i {
      assert false;
    }
  }

  /** A branch once on record is never named by another attempt, then or at any later point of a run. */
  lemma NeverNamedAgain(
    a: Run, b: Run, task: TaskId, stage: Stage, i: nat, task': TaskId, stage': Stage, i': nat, name: string)
    requires Outcome(a).Some? && Outcome(b).Some? && GoesOn(a, b) && stage != Audit
    requires NamedAt(Outcome(a).value.disk, task, stage, i, name)
    requires NamedAt(Outcome(b).value.disk, task', stage', i', name)
    ensures task == task' && stage == stage' && i == i'
  {
    assert StageBranchNumber(stage.Name(), task, name).Some? && StageBranchNumber(stage'.Name(), task', name).Some?;
    OneOwner(stage.Name(), task, stage'.Name(), task', name);
    assert stage == stage';
    RunGoesOn(a, b, task, stage);
    RunIncreases(a, task, stage);
    RunIncreases(b, task, stage);
    OnePlace(task, stage, AttemptsAt(a, task, stage), AttemptsAt(b, task, stage), i, i');
  }

  // ----- How long a push may go on -----

  /** Others put the recorded branch on origin before it is looked for, and the record moves on. */
  ghost function Overtaken(run: Run, key: Key, n: nat): Run {
    Then(Then(Then(run, SetRef(StageBranch(key.stage.Name(), key.task, n), key.head)), Probe), Write)
  }

  ghost function Chase(run: Run, key: Key, first: nat, n: nat): Run {
    if n == 0 then run else Overtaken(Chase(run, key, first, n - 1), key, first + n - 1)
  }

  /** The run stands where the attempt is recorded under `n`, with the sessions and pushes of `w`. */
  ghost predicate Recording(run: Run, key: Key, n: nat, w: World) {
    var now := Outcome(run);
    now.Some? && now.value.phase == Recorded(key, n) && now.value.sessions == w.sessions && now.value.pushes == w.pushes
  }

  lemma OvertakenOnce(run: Run, key: Key, n: nat, w: World)
    requires Recording(run, key, n, w) && key.stage != Audit
    ensures Recording(Overtaken(run, key, n), key, n + 1, w)
  {
    hide Inv, Held;
    var name := StageBranch(key.stage.Name(), key.task, n);
    var w0 := Outcome(run).value;
    var w1 := Apply(w0, SetRef(name, key.head));
    assert Enabled(w1, Probe) && name in w1.refs;
    var w2 := Apply(w1, Probe);
    assert w2.phase == Renumbered(key, n) && Enabled(w2, Write);
    assert Outcome(Then(Then(run, SetRef(name, key.head)), Probe)) == Some(w2);
  }

  lemma StandsThere(run: Run, key: Key, n: nat)
    requires Outcome(run).Some? && Outcome(run).value.phase == Recorded(key, n)
    ensures Recording(run, key, n, Outcome(run).value)
  {
  }

  /** While others create every next branch the push goes on: no number of turns is the last. */
  lemma {:induction false} PushMayGoOn(run: Run, key: Key, first: nat, n: nat)
    requires Outcome(run).Some? && Outcome(run).value.phase == Recorded(key, first) && key.stage != Audit
    ensures Recording(Chase(run, key, first, n), key, first + n, Outcome(run).value)
  {
    hide Recording, Overtaken, Outcome;
    if n == 0 {
      StandsThere(run, key, first);
    } else {
      PushMayGoOn(run, key, first, n - 1);
      OvertakenOnce(Chase(run, key, first, n - 1), key, first + n - 1, Outcome(run).value);
    }
  }
}
