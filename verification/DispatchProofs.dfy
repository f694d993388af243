/** Whole runs of the dispatch machine, with crashes and outside interference anywhere. */
module DispatchProofs {
  import opened Wrappers
  import opened Records
  import opened BranchNames
  import opened Dispatch

  // ----- One attempt list changing -----

  lemma AppendOrderly(task: TaskId, stage: Stage, attempts: seq<Attempt>, a: Attempt)
    requires Orderly(task, stage, attempts) && LiveAttempt(attempts, a.head).None?
    requires forall i | 0 <= i < |attempts| ::
      var n, m := NumberOf(task, stage, attempts[i]), NumberOf(task, stage, a); n.Some? && m.Some? ==> n.value < m.value
    ensures Orderly(task, stage, attempts + [a])
    ensures a.status != Expired ==> LiveAttempt(attempts + [a], a.head).Some?
    ensures forall head | head != a.head :: LiveAttempt(attempts + [a], head) == LiveAttempt(attempts, head)
  {
    hide NumberOf;
    LiveAttemptDecides(attempts, a.head);
    assert (attempts + [a])[..|attempts|] == attempts;
    assert forall i | 0 <= i < |attempts| :: (attempts + [a])[i] == attempts[i];
  }

  lemma {:induction false} SameHeads(a: seq<Attempt>, b: seq<Attempt>, head: Head)
    requires |a| == |b| && forall i | 0 <= i < |a| :: a[i].head == b[i].head
    ensures NewestAt(a, head) == NewestAt(b, head)
  {
    if a == [] {
    } else {
      SameHeads(a[..|a| - 1], b[..|b| - 1], head);
    }
  }

  /** One attempt replaced by another at the same revision, not more alive, and numbered past those before it. */
  lemma ReplaceOrderly(task: TaskId, stage: Stage, attempts: seq<Attempt>, k: nat, a: Attempt)
    requires Orderly(task, stage, attempts) && k < |attempts| && a.head == attempts[k].head
    requires attempts[k].status == Expired ==> a.status == Expired
    requires NumberOf(task, stage, a) == NumberOf(task, stage, attempts[k]) || (k == |attempts| - 1 &&
      forall i | 0 <= i < k ::
        var n, m := NumberOf(task, stage, attempts[i]), NumberOf(task, stage, a); n.Some? && m.Some? ==> n.value < m.value)
    ensures Orderly(task, stage, attempts[k := a])
    ensures forall head | head != a.head || (attempts[k].status == Expired) == (a.status == Expired) ::
      LiveAttempt(attempts[k := a], head).Some? == LiveAttempt(attempts, head).Some?
  {
    hide NumberOf;
    forall head { SameHeads(attempts, attempts[k := a], head); }
    assert forall i | 0 <= i < |attempts| :: attempts[k := a][i] == if i == k then a else attempts[i];
  }

  lemma DropOrderly(task: TaskId, stage: Stage, attempts: seq<Attempt>)
    requires Orderly(task, stage, attempts) && attempts != []
    ensures Orderly(task, stage, attempts[..|attempts| - 1])
    ensures forall head | head != attempts[|attempts| - 1].head ::
      LiveAttempt(attempts[..|attempts| - 1], head) == LiveAttempt(attempts, head)
  {
  }

  // ----- The state with one list changed -----

  lemma UpdateKeeps(state: State, task: TaskId, stage: Stage, attempts: seq<Attempt>)
    requires AllOrderly(state) && task in state && Orderly(task, stage, attempts)
    ensures AllOrderly(Update(state, task, stage, attempts))
  {
    UpdateAttempts(state, task, stage, attempts);
  }

  /** A name stays on record if every attempt of the list that has it keeps it. */
  lemma NamedKept(state: State, key: Key, attempts: seq<Attempt>, name: string)
    requires Named(state, name) && key.task in state
    requires forall i | 0 <= i < |List(state, key)| && List(state, key)[i].branch == Some(name) ::
      i < |attempts| && attempts[i].branch == Some(name)
    ensures Named(Update(state, key.task, key.stage, attempts), name)
  {
    hide Update;
    UpdateAttempts(state, key.task, key.stage, attempts);
    var t, s, i: nat :| NamedAt(state, t, s, i, name);
    if t == key.task && s == key.stage {
      assert List(state, key)[i].branch == Some(name);
    }
    assert NamedAt(Update(state, key.task, key.stage, attempts), t, s, i, name);
  }

  /** A stage branch on record is on record under its own stage and task, with its own number. */
  lemma OnRecord(state: State, key: Key, number: nat) returns (i: nat)
    requires key.stage != Audit && Named(state, BranchOf(key, number).value)
    ensures i < |List(state, key)| && NumberOf(key.task, key.stage, List(state, key)[i]) == Some(number)
  {
    var name := BranchOf(key, number).value;
    var t, s, k: nat :| NamedAt(state, t, s, k, name);
    assert StageBranchNumber(s.Name(), t, name).Some?;
    PrintParse(key.stage.Name(), key.task, number, key.stage.Name(), key.task);
    OneOwner(s.Name(), t, key.stage.Name(), key.task, name);
    assert s == key.stage;
    i := k;
  }

  /** A number past every recorded one names a branch that was never pushed. */
  lemma NeverPushed(w: World, key: Key, number: nat)
    requires PushesNamed(w.disk, w.pushes) && key.stage != Audit
    requires NumberedBelow(key, List(w.disk, key), number)
    ensures BranchOf(key, number).value !in w.pushes
  {
    if BranchOf(key, number).value in w.pushes {
      var i := OnRecord(w.disk, key, number);
      assert false;
    }
  }

  lemma NewNumber(key: Key, number: nat)
    ensures NumberOf(key.task, key.stage, NewAttempt(key, number)) == if key.stage == Audit then None else Some(number)
  {
    PrintParse(key.stage.Name(), key.task, number, key.stage.Name(), key.task);
  }

  // ----- Each step -----

  lemma AppendKeeps(w: World, key: Key, listed: seq<string>)
    requires Inv(w) && Enabled(w, Append(key, listed))
    ensures Inv(Apply(w, Append(key, listed)))
  {
    var attempts, branches := List(w.disk, key), Branches(List(w.disk, key));
    assert forall i | 0 <= i < |attempts| :: branches[i] in branches;
  }

  /** One list changed: only dispatches at that list's changed revision need paying again. */
  lemma PaidAfter(w: World, key: Key, attempts: seq<Attempt>)
    requires Paid(w.disk, w.sessions, w.expiries) && key.task in w.disk
    requires forall head | head != key.head :: LiveAttempt(attempts, head).Some? == LiveAttempt(List(w.disk, key), head).Some?
    requires w.sessions[key] <= w.expiries[key] + (if LiveAttempt(attempts, key.head).Some? then 1 else 0)
    ensures Paid(Update(w.disk, key.task, key.stage, attempts), w.sessions, w.expiries)
  {
    var disk := Update(w.disk, key.task, key.stage, attempts);
    UpdateAttempts(w.disk, key.task, key.stage, attempts);
    forall k ensures w.sessions[k] <= w.expiries[k] + LiveCount(disk, k) {
      assert k != key ==> LiveCount(disk, k) == LiveCount(w.disk, k);
    }
  }

  lemma NamesAfter(w: World, key: Key, attempts: seq<Attempt>)
    requires PushesNamed(w.disk, w.pushes) && key.task in w.disk
    requires forall i, name | 0 <= i < |List(w.disk, key)| && List(w.disk, key)[i].branch == Some(name) && name in w.pushes ::
      i < |attempts| && attempts[i].branch == Some(name)
    ensures PushesNamed(Update(w.disk, key.task, key.stage, attempts), w.pushes)
  {
    hide Named, Update;
    forall name | name in w.pushes ensures Named(Update(w.disk, key.task, key.stage, attempts), name) {
      NamedKept(w.disk, key, attempts, name);
    }
  }

  /** What a change to one list must satisfy to keep everything that is said of the disk. */
  ghost predicate Acceptable(w: World, key: Key, attempts: seq<Attempt>) {
    && key.task in w.disk
    && Orderly(key.task, key.stage, attempts)
    && (forall head | head != key.head :: LiveAttempt(attempts, head).Some? == LiveAttempt(List(w.disk, key), head).Some?)
    && w.sessions[key] <= w.expiries[key] + (if LiveAttempt(attempts, key.head).Some? then 1 else 0)
    && (forall i, name | 0 <= i < |List(w.disk, key)| && List(w.disk, key)[i].branch == Some(name) && name in w.pushes ::
          i < |attempts| && attempts[i].branch == Some(name))
  }

  lemma ChangeKeeps(w: World, key: Key, attempts: seq<Attempt>)
    requires DiskOk(w) && Acceptable(w, key, attempts)
    ensures DiskOk(w.(disk := Update(w.disk, key.task, key.stage, attempts)))
    ensures List(Update(w.disk, key.task, key.stage, attempts), key) == attempts
  {
    hide AllOrderly, Orderly, Paid, PushesNamed, LiveAttempt, Update;
    UpdateAttempts(w.disk, key.task, key.stage, attempts);
    UpdateKeeps(w.disk, key.task, key.stage, attempts);
    PaidAfter(w, key, attempts);
    NamesAfter(w, key, attempts);
  }

  lemma AppendedAcceptable(w: World, key: Key, n: nat)
    requires DiskOk(w) && PhaseOk(w.disk, w.phase, w.sessions, w.expiries, w.pushes) && w.phase == Appended(key, n)
    ensures Acceptable(w, key, List(w.disk, key) + [NewAttempt(key, n)])
    ensures key.stage != Audit ==> BranchOf(key, n).value !in w.pushes
    ensures w.sessions[key] <= w.expiries[key]
  {
    var attempts, a := List(w.disk, key), NewAttempt(key, n);
    assert Orderly(key.task, key.stage, attempts);
    NewNumber(key, n);
    AppendOrderly(key.task, key.stage, attempts, a);
    assert LiveCount(w.disk, key) == 0;
    if key.stage != Audit { NeverPushed(w, key, n); }
  }

  lemma Written(w: World, disk: State)
    requires Inv(w) && Enabled(w, Write) && w.memory == disk
    requires AllOrderly(disk) && Paid(disk, w.sessions, w.expiries) && PushesNamed(disk, w.pushes)
    requires PhaseOk(disk, AfterWrite(w.phase), w.sessions, w.expiries, w.pushes)
    requires Held(disk, AfterWrite(w.phase)) == disk
    ensures Inv(Apply(w, Write))
  {
  }

  lemma WriteAppended(w: World)
    requires Inv(w) && w.phase.Appended?
    ensures Inv(Apply(w, Write))
  {
    var key, n := w.phase.key, w.phase.number;
    var attempts := List(w.disk, key) + [NewAttempt(key, n)];
    AppendedAcceptable(w, key, n);
    ChangeKeeps(w, key, attempts);
    BecomesRecorded(w.memory, attempts, w, key, n);
    Written(w, w.memory);
  }

  lemma BecomesRecorded(disk: State, attempts: seq<Attempt>, w: World, key: Key, n: nat)
    requires key.task in disk && List(disk, key) == attempts
    requires attempts != [] && attempts[|attempts| - 1] == NewAttempt(key, n)
    requires w.sessions[key] <= w.expiries[key] && (key.stage != Audit ==> BranchOf(key, n).value !in w.pushes)
    ensures PhaseOk(disk, Recorded(key, n), w.sessions, w.expiries, w.pushes)
    ensures Held(disk, Recorded(key, n)) == disk
  {
  }

  /** The last attempt of a list, being dispatched under `n`, replaced by one under `n` or the next number. */
  ghost predicate Replaces(key: Key, attempts: seq<Attempt>, n: nat, a: Attempt) {
    && Orderly(key.task, key.stage, attempts)
    && attempts != [] && attempts[|attempts| - 1] == NewAttempt(key, n)
    && a.head == key.head
    && (a.branch == BranchOf(key, n) || a.branch == BranchOf(key, n + 1))
  }

  lemma LastReplaced(key: Key, attempts: seq<Attempt>, n: nat, a: Attempt)
    requires Replaces(key, attempts, n, a)
    ensures Orderly(key.task, key.stage, WithLast(attempts, a))
    ensures forall head | head != key.head ::
      LiveAttempt(WithLast(attempts, a), head).Some? == LiveAttempt(attempts, head).Some?
    ensures LiveAttempt(attempts, key.head).Some?
    ensures a.status != Expired ==> LiveAttempt(WithLast(attempts, a), key.head).Some?
  {
    NewNumber(key, n);
    NewNumber(key, n + 1);
    ReplaceOrderly(key.task, key.stage, attempts, |attempts| - 1, a);
  }

  lemma LastKeepsNames(w: World, key: Key, attempts: seq<Attempt>, n: nat, a: Attempt)
    requires PushesNamed(w.disk, w.pushes) && key.task in w.disk && attempts == List(w.disk, key)
    requires Replaces(key, attempts, n, a)
    requires a.branch == BranchOf(key, n) || (key.stage != Audit && BranchOf(key, n).value !in w.pushes)
    ensures PushesNamed(Update(w.disk, key.task, key.stage, WithLast(attempts, a)), w.pushes)
  {
    NamesAfter(w, key, WithLast(attempts, a));
  }

  /** Writing the last attempt changed in place keeps everything that is said of the disk. */
  lemma ReplaceKeeps(w: World, key: Key, n: nat, a: Attempt)
    requires DiskOk(w) && key.task in w.disk && Replaces(key, List(w.disk, key), n, a)
    requires a.branch == BranchOf(key, n) || (key.stage != Audit && BranchOf(key, n).value !in w.pushes)
    requires a.status == Expired ==> w.sessions[key] <= w.expiries[key]
    ensures
      var attempts := WithLast(List(w.disk, key), a);
      var disk := Update(w.disk, key.task, key.stage, attempts);
      && AllOrderly(disk) && Paid(disk, w.sessions, w.expiries) && PushesNamed(disk, w.pushes)
      && List(disk, key) == attempts
  {
    var attempts := List(w.disk, key);
    LastReplaced(key, attempts, n, a);
    LastKeepsNames(w, key, attempts, n, a);
    assert w.sessions[key] <= w.expiries[key] + LiveCount(w.disk, key);
    PaidAfter(w, key, WithLast(attempts, a));
    UpdateKeeps(w.disk, key.task, key.stage, WithLast(attempts, a));
  }

  lemma CanReplace(w: World, a: Attempt)
    requires DiskOk(w) && PhaseOk(w.disk, w.phase, w.sessions, w.expiries, w.pushes)
    requires !w.phase.Idle? && !w.phase.Appended? && a.head == w.phase.key.head
    requires a.branch == BranchOf(w.phase.key, w.phase.number) || a.branch == BranchOf(w.phase.key, w.phase.number + 1)
    ensures Replaces(w.phase.key, List(w.disk, w.phase.key), w.phase.number, a)
  {
    assert Orderly(w.phase.key.task, w.phase.key.stage, List(w.disk, w.phase.key));
  }

  lemma WriteRenumbered(w: World)
    requires Inv(w) && w.phase.Renumbered?
    ensures Inv(Apply(w, Write))
  {
    hide DiskOk, AllOrderly, Paid, PushesNamed, Replaces, LiveAttempt;
    var key, n, attempts := w.phase.key, w.phase.number, List(w.disk, w.phase.key);
    var a := NewAttempt(key, n + 1);
    CanReplace(w, a);
    ReplaceKeeps(w, key, n, a);
    NextUnused(w, key, n);
    BecomesRecorded(w.memory, WithLast(attempts, a), w, key, n + 1);
    Written(w, w.memory);
  }

  lemma WriteEnded(w: World, a: Attempt)
    requires Inv(w) && (w.phase.Unsaved? || w.phase.PushFailed? || w.phase.Accepted?)
    requires
      var attempts := List(w.disk, w.phase.key);
      a == Ended(attempts[|attempts| - 1], w.phase)
    ensures Inv(Apply(w, Write))
  {
    hide AllOrderly, Paid, PushesNamed, Replaces, LiveAttempt;
    CanReplace(w, a);
    ReplaceKeeps(w, w.phase.key, w.phase.number, a);
    Written(w, w.memory);
  }

  lemma NextUnused(w: World, key: Key, n: nat)
    requires DiskOk(w) && key.stage != Audit
    requires List(w.disk, key) != [] && List(w.disk, key)[|List(w.disk, key)| - 1] == NewAttempt(key, n)
    ensures BranchOf(key, n + 1).value !in w.pushes
  {
    hide Paid, PushesNamed, NewestPerHead;
    assert Orderly(key.task, key.stage, List(w.disk, key));
    NewNumber(key, n);
    NeverPushed(w, key, n + 1);
  }

  lemma DroppedAcceptable(w: World, key: Key, n: nat)
    requires DiskOk(w) && key.task in w.disk && key.stage == Audit && w.sessions[key] <= w.expiries[key]
    requires List(w.disk, key) != [] && List(w.disk, key)[|List(w.disk, key)| - 1] == NewAttempt(key, n)
    ensures Acceptable(w, key, List(w.disk, key)[..|List(w.disk, key)| - 1])
  {
    hide PushesNamed, Paid;
    var attempts := List(w.disk, key);
    assert Orderly(key.task, key.stage, attempts);
    DropOrderly(key.task, key.stage, attempts);
  }

  lemma WriteDeclined(w: World)
    requires Inv(w) && w.phase.Declined?
    ensures Inv(Apply(w, Write))
  {
    hide AllOrderly, Paid, PushesNamed, Acceptable, LiveAttempt;
    var key, attempts := w.phase.key, List(w.disk, w.phase.key);
    DroppedAcceptable(w, key, w.phase.number);
    ChangeKeeps(w, key, attempts[..|attempts| - 1]);
    Written(w, w.memory);
  }

  lemma WriteKeeps(w: World)
    requires Inv(w) && Enabled(w, Write)
    ensures Inv(Apply(w, Write))
  {
    if w.phase.Appended? {
      WriteAppended(w);
    } else if w.phase.Renumbered? {
      WriteRenumbered(w);
    } else if w.phase.Declined? {
      WriteDeclined(w);
    } else {
      var attempts := List(w.disk, w.phase.key);
      WriteEnded(w, Ended(attempts[|attempts| - 1], w.phase));
    }
  }

  lemma PushKeeps(w: World, landed: bool, reported: bool)
    requires Inv(w) && Enabled(w, Push(landed, reported))
    ensures Inv(Apply(w, Push(landed, reported)))
  {
    var key, n := w.phase.key, w.phase.number;
    if landed { PushIsNamed(w, key, n, BranchOf(key, n).value); }
  }

  lemma PushIsNamed(w: World, key: Key, n: nat, name: string)
    requires DiskOk(w) && PhaseOk(w.disk, w.phase, w.sessions, w.expiries, w.pushes) && w.phase == Clear(key, n) && name == BranchOf(key, n).value
    ensures PushesNamed(w.disk, w.pushes + [name])
  {
    hide AllOrderly, Paid, NumberOf;
    NewNumber(key, n);
    assert NamedAt(w.disk, key.task, key.stage, |List(w.disk, key)| - 1, name);
  }

  /** A session started for the live attempt is the one that may be outstanding. */
  lemma SessionPaid(disk: State, sessions: multiset<Key>, expiries: multiset<Key>, key: Key)
    requires Paid(disk, sessions, expiries) && sessions[key] <= expiries[key] && IsLive(disk, key)
    ensures Paid(disk, sessions + multiset{key}, expiries)
  {
  }

  lemma LastIsLive(attempts: seq<Attempt>, key: Key, n: nat)
    requires attempts != [] && attempts[|attempts| - 1] == NewAttempt(key, n)
    ensures LiveAttempt(attempts, key.head).Some?
  {
  }

  lemma SubmitKeeps(w: World, started: bool, url: Option<string>)
    requires Inv(w) && Enabled(w, Submit(started, url))
    ensures Inv(Apply(w, Submit(started, url)))
  {
    hide AllOrderly, Paid, PushesNamed, Update, LiveAttempt, NumberedBelow;
    var key := w.phase.key;
    LastIsLive(List(w.disk, key), key, w.phase.number);
    SessionPaid(w.disk, w.sessions, w.expiries, key);
  }

  lemma MoreExpiries(disk: State, sessions: multiset<Key>, expiries: multiset<Key>, key: Key)
    requires Paid(disk, sessions, expiries)
    ensures Paid(disk, sessions, expiries + multiset{key})
  {
  }

  lemma ExpiredAcceptable(w: World, key: Key, i: nat)
    requires DiskOk(w) && key.task in w.disk && LiveAttempt(List(w.disk, key), key.head) == Some(i)
    ensures
      var attempts := List(w.disk, key);
      Acceptable(w.(expiries := w.expiries + multiset{key}), key, attempts[i := attempts[i].(status := Expired)])
  {
    hide PushesNamed;
    var attempts := List(w.disk, key);
    assert Orderly(key.task, key.stage, attempts);
    assert w.sessions[key] <= w.expiries[key] + LiveCount(w.disk, key);
    ReplaceOrderly(key.task, key.stage, attempts, i, attempts[i].(status := Expired));
  }

  lemma ExpireStageKeeps(w: World, key: Key)
    requires Inv(w) && Enabled(w, ExpireStage(key))
    ensures Inv(Apply(w, ExpireStage(key)))
  {
    hide AllOrderly, Paid, PushesNamed, Acceptable, NewestAt;
    var attempts := List(w.disk, key);
    var i := LiveAttempt(attempts, key.head).value;
    var paid := w.(expiries := w.expiries + multiset{key});
    ExpiredAcceptable(w, key, i);
    assert DiskOk(paid) by { MoreExpiries(w.disk, w.sessions, w.expiries, key); }
    ChangeKeeps(paid, key, attempts[i := attempts[i].(status := Expired)]);
  }

  lemma {:induction false} SetAsidePays(task: TaskId, stage: Stage, attempts: seq<Attempt>, i: nat)
    requires i < |attempts| && attempts[i].status != Expired
    ensures SetAside(task, stage, attempts)[Key(task, stage, attempts[i].head)] >= 1
  {
    if i == |attempts| - 1 {
    } else {
      SetAsidePays(task, stage, attempts[..|attempts| - 1], i);
    }
  }

  lemma FrontIsSettled(attempts: seq<Attempt>)
    requires NewestPerHead(attempts) && attempts != []
    ensures NewestPerHead(attempts[..|attempts| - 1])
    ensures LiveAttempt(attempts[..|attempts| - 1], attempts[|attempts| - 1].head).None?
  {
    var front, head := attempts[..|attempts| - 1], attempts[|attempts| - 1].head;
    assert forall i | 0 <= i < |front| :: front[i] == attempts[i];
    LiveAttemptDecides(front, head);
  }

  lemma SetAsideOthers(task: TaskId, stage: Stage, attempts: seq<Attempt>, k: Key)
    requires k.task != task || k.stage != stage
    ensures SetAside(task, stage, attempts)[k] == 0
  {
    if attempts == [] {
    } else {
      SetAsideOthers(task, stage, attempts[..|attempts| - 1], k);
    }
  }

  /** Under the invariant an expiry of the task sets aside at most one attempt at a revision: the live one. */
  lemma {:induction false} SetAsideIsLive(task: TaskId, stage: Stage, attempts: seq<Attempt>, head: Head)
    requires NewestPerHead(attempts)
    ensures SetAside(task, stage, attempts)[Key(task, stage, head)] == if LiveAttempt(attempts, head).Some? then 1 else 0
  {
    if attempts == [] {
    } else {
      hide NewestPerHead;
      FrontIsSettled(attempts);
      LastDecides(attempts);
      SetAsideIsLive(task, stage, attempts[..|attempts| - 1], head);
    }
  }

  /** Expiring a task counts one expiry for each dispatch of its that is live, and none for any other. */
  lemma TaskExpiryCounts(state: State, task: TaskId, k: Key)
    requires AllOrderly(state)
    ensures AllSetAside(task, state)[k] == if k.task == task then LiveCount(state, k) else 0
  {
    forall stage ensures NewestPerHead(Attempts(state, task, stage)) {
      assert Orderly(task, stage, Attempts(state, task, stage));
    }
    hide SetAside, LiveAttempt;
    forall stage | k.task != task || k.stage != stage { SetAsideOthers(task, stage, Attempts(state, task, stage), k); }
    if k.task == task { SetAsideIsLive(task, k.stage, List(state, k), k.head); }
    match k.stage case Refine => case Implement => case Audit =>
  }

  lemma ExpiredAttempts(state: State, task: TaskId)
    requires task in state
    ensures forall t, s :: (Attempts(state[task := ExpiredRecord(state[task])], t, s) ==
      if t == task then ExpireAll(Attempts(state, t, s)) else Attempts(state, t, s))
  {
    forall s ensures Attempts(state[task := ExpiredRecord(state[task])], task, s) == ExpireAll(Attempts(state, task, s)) {
      if s !in state[task].stages { assert ExpireAll([]) == []; }
    }
  }

  lemma ExpiryPays(w: World, task: TaskId, disk: State, k: Key)
    requires Paid(w.disk, w.sessions, w.expiries) && task in w.disk && disk == w.disk[task := ExpiredRecord(w.disk[task])]
    ensures w.sessions[k] <= (w.expiries + AllSetAside(task, w.disk))[k] + LiveCount(disk, k)
  {
    ExpiredAttempts(w.disk, task);
    assert w.sessions[k] <= w.expiries[k] + LiveCount(w.disk, k);
    if k.task == task && IsLive(w.disk, k) {
      SetAsidePays(task, k.stage, List(w.disk, k), LiveAttempt(List(w.disk, k), k.head).value);
      assert AllSetAside(task, w.disk)[k] >= SetAside(task, k.stage, Attempts(w.disk, task, k.stage))[k] by {
        match k.stage case Refine => case Implement => case Audit =>
      }
    }
  }

  /** A new disk that keeps every attempt's branch in place keeps every name. */
  lemma NamesStay(w: World, disk: State)
    requires PushesNamed(w.disk, w.pushes)
    requires forall t, s ::
      |Attempts(disk, t, s)| == |Attempts(w.disk, t, s)| &&
      forall i | 0 <= i < |Attempts(w.disk, t, s)| :: Attempts(disk, t, s)[i].branch == Attempts(w.disk, t, s)[i].branch
    ensures PushesNamed(disk, w.pushes)
  {
    forall name | name in w.pushes ensures Named(disk, name) {
      assert Named(w.disk, name);
      var t, s, i: nat :| NamedAt(w.disk, t, s, i, name);
      assert NamedAt(disk, t, s, i, name);
    }
  }

  lemma ExpireTaskKeeps(w: World, task: TaskId)
    requires Inv(w) && Enabled(w, ExpireTask(task))
    ensures Inv(Apply(w, ExpireTask(task)))
  {
    hide ExpiredRecord, AllSetAside, PushesNamed;
    var disk := w.disk[task := ExpiredRecord(w.disk[task])];
    ExpiredAttempts(w.disk, task);
    forall t, s ensures Orderly(t, s, Attempts(disk, t, s)) {
      assert Orderly(t, s, Attempts(w.disk, t, s));
    }
    forall k { ExpiryPays(w, task, disk, k); }
    NamesStay(w, disk);
  }

  lemma OtherWriteKeeps(w: World, state: State)
    requires Inv(w) && Enabled(w, OtherWrite(state))
    ensures Inv(Apply(w, OtherWrite(state)))
  {
    forall t, s ensures Orderly(t, s, Attempts(state, t, s)) {
      assert Orderly(t, s, Attempts(w.disk, t, s));
    }
    forall k ensures LiveCount(state, k) == LiveCount(w.disk, k) {}
    NamesStay(w, state);
  }

  lemma QuietKeeps(w: World, a: Action)
    requires Inv(w) && Enabled(w, a)
    requires a.SetRef? || a.DeleteRef? || a.Crash? || a.SaveFails? || a.Probe? || a.ProbeError? || a.Decline?
    ensures Inv(Apply(w, a))
  {
    hide AllOrderly, Paid, PushesNamed, Update, NewAttempt, BranchOf, LiveAttempt, NumberedBelow;
    match a case Probe => case ProbeError => case _ =>
  }

  lemma StepKeeps(w: World, a: Action)
    requires Inv(w) && Enabled(w, a)
    ensures Inv(Apply(w, a))
  {
    match a
    case Append(key, listed) => AppendKeeps(w, key, listed);
    case Write => WriteKeeps(w);
    case Push(landed, reported) => PushKeeps(w, landed, reported);
    case Submit(started, url) => SubmitKeeps(w, started, url);
    case ExpireStage(key) => ExpireStageKeeps(w, key);
    case ExpireTask(task) => ExpireTaskKeeps(w, task);
    case OtherWrite(state) => OtherWriteKeeps(w, state);
    case _ => QuietKeeps(w, a);
  }

  // ----- Whole runs -----

  /** A run starts in any world that satisfies the invariant. */
  datatype Run = Start(world: World) | Then(before: Run, action: Action)

  /** The world after a run, if every action was possible when it was taken. */
  ghost function Outcome(run: Run): Option<World> {
    match run
    case Start(world) => if Inv(world) then Some(world) else None
    case Then(before, action) =>
      var w := Outcome(before);
      if w.Some? && Enabled(w.value, action) then Some(Apply(w.value, action)) else None
  }

  lemma {:induction false} RunKeeps(run: Run)
    requires Outcome(run).Some?
    ensures Inv(Outcome(run).value)
  {
    if run.Start? {
    } else {
      RunKeeps(run.before);
      StepKeeps(Outcome(run.before).value, run.action);
    }
  }

  /** The run `b` goes on from the run `a`. */
  ghost predicate GoesOn(a: Run, b: Run) {
    b == a || (b.Then? && GoesOn(a, b.before))
  }

  lemma {:induction false} GoesOnTransitive(a: Run, b: Run, c: Run)
    requires GoesOn(a, b) && GoesOn(b, c)
    ensures GoesOn(a, c)
  {
    if c == b {
    } else {
      GoesOnTransitive(a, b, c.before);
    }
  }

  /** A panel may start on any state file whose lists are in order, an empty or a migrated one among them. */
  lemma FreshStart(disk: State, refs: Refs)
    requires AllOrderly(disk)
    ensures
      var world := World(disk, disk, refs, Idle, multiset{}, multiset{}, []);
      Inv(world) && Outcome(Start(world)) == Some(world)
  {
  }

  lemma EmptyIsOrderly()
    ensures AllOrderly(map[])
  {
    forall t, s ensures Orderly(t, s, Attempts(map[], t, s)) {
      assert Attempts(map[], t, s) == [];
    }
  }

  /**
    Over every run, a dispatch starts at most one session more than the operator expired attempts at
    it, and no more than those when none of its attempts is live.
   */
  lemma AtMostOnce(run: Run, key: Key)
    requires Outcome(run).Some?
    ensures
      var w := Outcome(run).value;
      && w.sessions[key] <= w.expiries[key] + LiveCount(w.disk, key)
      && w.sessions[key] <= 1 + w.expiries[key]
  {
    RunKeeps(run);
  }

  /** Over every run, at each revision all but at most one attempt is expired, and that one is the newest. */
  lemma NewestDecides(run: Run, task: TaskId, stage: Stage, head: Head)
    requires Outcome(run).Some?
    ensures
      var attempts := Attempts(Outcome(run).value.disk, task, stage);
      && NewestPerHead(attempts)
      && (LiveAttempt(attempts, head).None? <==>
            forall i | 0 <= i < |attempts| && attempts[i].head == head :: attempts[i].status == Expired)
  {
    RunKeeps(run);
    var attempts := Attempts(Outcome(run).value.disk, task, stage);
    assert Orderly(task, stage, attempts);
    LiveAttemptDecides(attempts, head);
  }

  /** Over every run, numbers increase along each list, and each pushed branch was pushed once and is on record. */
  lemma BranchesNeverReused(run: Run)
    requires Outcome(run).Some?
    ensures
      var w := Outcome(run).value;
      && (forall task, stage :: Increasing(task, stage, Attempts(w.disk, task, stage)))
      && (forall name | name in w.pushes :: Named(w.disk, name))
      && (forall i, j | 0 <= i < j < |w.pushes| :: w.pushes[i] != w.pushes[j])
  {
    RunKeeps(run);
    var w := Outcome(run).value;
    forall task, stage ensures Increasing(task, stage, Attempts(w.disk, task, stage)) {
      assert Orderly(task, stage, Attempts(w.disk, task, stage));
    }
  }

  /** No two attempts on disk at one time, of any tasks and stages, name the same branch. */
  lemma NoSharedBranch(
    run: Run, task: TaskId, stage: Stage, i: nat, task': TaskId, stage': Stage, i': nat, name: string)
    requires Outcome(run).Some?
    requires NamedAt(Outcome(run).value.disk, task, stage, i, name)
    requires NamedAt(Outcome(run).value.disk, task', stage', i', name)
    ensures task == task' && stage == stage' && i == i'
  {
    BranchesNeverReused(run);
    assert StageBranchNumber(stage.Name(), task, name).Some? && StageBranchNumber(stage'.Name(), task', name).Some?;
    OneOwner(stage.Name(), task, stage'.Name(), task', name);
    assert stage == stage';
    assert Increasing(task, stage, Attempts(Outcome(run).value.disk, task, stage));
  }
}
