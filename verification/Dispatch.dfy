/**
  Dispatching a stage as a machine that can crash. The state file on disk, the copy the running
  operation holds in memory, origin's refs and the started sessions are separate. An attempt is on
  disk before anything external happens; every external step may be refused, may land and still
  report an error, or may never be answered because the panel died.
 */
module Dispatch {
  import opened Wrappers
  import opened Records
  import opened BranchNames

  /** What one dispatch is about. */
  datatype Key = Key(task: TaskId, stage: Stage, head: Head)

  type Refs = map<string, Head>

  /** How far the one operation that holds the lock has come; `number` is the one on disk. */
  datatype Phase =
    | Idle
    | Appended(key: Key, number: nat)
    | Recorded(key: Key, number: nat)
    | Renumbered(key: Key, number: nat)
    | Unsaved(key: Key, number: nat)
    | Clear(key: Key, number: nat)
    | PushFailed(key: Key, number: nat)
    | Pushed(key: Key, number: nat)
    | Declined(key: Key, number: nat)
    | Accepted(key: Key, number: nat, url: string)

  /** `sessions`, `expiries` and `pushes` record what happened and are never reset. */
  datatype World = World(
    disk: State, memory: State, refs: Refs, phase: Phase,
    sessions: multiset<Key>, expiries: multiset<Key>, pushes: seq<string>)

  datatype Action =
    // others acting on origin, and the panel's own deletions when a task expires
    | SetRef(name: string, head: Head)
    | DeleteRef(name: string)
    | Crash
    // the steps of a dispatch; `listed` is what origin answered, which may be out of date by now
    | Append(key: Key, listed: seq<string>)
    | Write
    | SaveFails
    | Probe
    | ProbeError
    | Push(landed: bool, reported: bool)
    | Submit(started: bool, url: Option<string>)
    | Decline
    // the operator
    | ExpireStage(key: Key)
    | ExpireTask(task: TaskId)
    // any other operation that writes the state file
    | OtherWrite(state: State)

  // ----- Attempt lists in a state -----

  function Update(state: State, task: TaskId, stage: Stage, attempts: seq<Attempt>): State
    requires task in state
  {
    state[task := state[task].(stages := state[task].stages[stage := attempts])]
  }

  lemma UpdateAttempts(state: State, task: TaskId, stage: Stage, attempts: seq<Attempt>)
    requires task in state
    ensures forall t, s :: (Attempts(Update(state, task, stage, attempts), t, s) ==
      if t == task && s == stage then attempts else Attempts(state, t, s))
    // nothing else of the state changes
    ensures
      var after := Update(state, task, stage, attempts);
      && after.Keys == state.Keys && after[task].(stages := state[task].stages) == state[task]
      && forall t | t in state && t != task :: after[t] == state[t]
  {
  }

  function BranchOf(key: Key, number: nat): Option<string> {
    if key.stage == Audit then None else Some(StageBranch(key.stage.Name(), key.task, number))
  }

  function NewAttempt(key: Key, number: nat): Attempt {
    Attempt(Submitting, key.head, BranchOf(key, number), None, false)
  }

  function List(state: State, key: Key): seq<Attempt> { Attempts(state, key.task, key.stage) }

  function Branches(attempts: seq<Attempt>): (r: seq<Option<string>>)
    ensures |r| == |attempts| && forall i | 0 <= i < |r| :: r[i] == attempts[i].branch
  {
    seq(|attempts|, i requires 0 <= i < |attempts| => attempts[i].branch)
  }

  function WithLast(attempts: seq<Attempt>, last: Attempt): seq<Attempt>
    requires attempts != []
  {
    attempts[|attempts| - 1 := last]
  }

  function ExpireAll(attempts: seq<Attempt>): (r: seq<Attempt>)
    ensures |r| == |attempts| && forall i | 0 <= i < |r| :: r[i] == attempts[i].(status := Expired)
  {
    seq(|attempts|, i requires 0 <= i < |attempts| => attempts[i].(status := Expired))
  }

  /** The dispatches whose attempts an expiry of the whole task sets aside. */
  function SetAside(task: TaskId, stage: Stage, attempts: seq<Attempt>): multiset<Key> {
    if attempts == [] then multiset{} else
      SetAside(task, stage, attempts[..|attempts| - 1])
      + if attempts[|attempts| - 1].status != Expired then multiset{Key(task, stage, attempts[|attempts| - 1].head)} else multiset{}
  }

  function ExpiredRecord(record: TaskRecord): TaskRecord {
    record.(expired := true, prepared := false, owner := None,
            stages := map s | s in record.stages :: ExpireAll(record.stages[s]))
  }

  function NumberOf(task: TaskId, stage: Stage, attempt: Attempt): Option<nat> {
    RecordedNumber(stage.Name(), task, attempt.branch)
  }

  /**
    The attempt set aside after a failed push, or promoted with the agent's address. When saving the
    next number failed, the attempt is set aside under that number.
   */
  function Ended(last: Attempt, phase: Phase): Attempt {
    match phase
    case Accepted(_, _, url) => last.(status := Submitted, taskUrl := Some(url))
    case Unsaved(key, n) => last.(branch := BranchOf(key, n + 1), status := Expired, pushFailed := true)
    case _ => last.(status := Expired, pushFailed := true)
  }

  /** The operation's copy of the state, as a change to what is on disk. */
  function Held(disk: State, phase: Phase): State
  {
    if phase.Idle? || phase.key.task !in disk then disk else
      var key, attempts := phase.key, List(disk, phase.key);
      if phase.Appended? then Update(disk, key.task, key.stage, attempts + [NewAttempt(key, phase.number)])
      else if attempts == [] then disk
      else
        var last := attempts[|attempts| - 1];
        match phase
        case Renumbered(_, n) => Update(disk, key.task, key.stage, WithLast(attempts, NewAttempt(key, n + 1)))
        case Unsaved(_, _) => Update(disk, key.task, key.stage, WithLast(attempts, Ended(last, phase)))
        case PushFailed(_, _) => Update(disk, key.task, key.stage, WithLast(attempts, Ended(last, phase)))
        case Accepted(_, _, _) => Update(disk, key.task, key.stage, WithLast(attempts, Ended(last, phase)))
        case Declined(_, n) => Update(disk, key.task, key.stage, attempts[..|attempts| - 1])
        case _ => disk
  }

  // ----- Steps -----

  function Number(w: World, key: Key, listed: seq<string>): nat {
    if key.stage == Audit then 0
    else NextStageNumber(key.stage.Name(), key.task, listed, Branches(List(w.disk, key)))
  }

  ghost predicate Enabled(w: World, a: Action) {
    match a
    case SetRef(_, _) => true
    case DeleteRef(_) => true
    case Crash => true
    case Append(key, listed) =>
      w.phase.Idle? && key.task in w.disk && LiveAttempt(List(w.disk, key), key.head).None?
    case Write =>
      || w.phase.Appended? || w.phase.Renumbered? || w.phase.Unsaved? || w.phase.PushFailed?
      || w.phase.Declined? || w.phase.Accepted?
    case SaveFails => w.phase.Renumbered?
    case Probe => w.phase.Recorded? && w.phase.key.stage != Audit
    case ProbeError => w.phase.Recorded? && w.phase.key.stage != Audit
    case Push(landed, reported) => w.phase.Clear? && (reported ==> landed)
    case Submit(started, url) =>
      (w.phase.Pushed? || (w.phase.Recorded? && w.phase.key.stage == Audit)) && (url.Some? ==> started)
    case Decline => w.phase.Recorded? && w.phase.key.stage == Audit
    case ExpireStage(key) => w.phase.Idle? && LiveAttempt(List(w.disk, key), key.head).Some?
    case ExpireTask(task) => w.phase.Idle? && task in w.disk
    case OtherWrite(state) => w.phase.Idle? && forall t, s :: Attempts(state, t, s) == Attempts(w.disk, t, s)
  }

  function AfterWrite(phase: Phase): Phase {
    match phase
    case Appended(key, n) => Recorded(key, n)
    case Renumbered(key, n) => Recorded(key, n + 1)
    case _ => Idle
  }

  function WithPhase(w: World, phase: Phase): World {
    w.(phase := phase, memory := Held(w.disk, phase))
  }

  function Expire(w: World, key: Key, i: nat): World
    requires key.task in w.disk && i < |List(w.disk, key)|
  {
    var attempts := List(w.disk, key);
    var disk := Update(w.disk, key.task, key.stage, attempts[i := attempts[i].(status := Expired)]);
    w.(disk := disk, memory := disk, expiries := w.expiries + multiset{key})
  }

  function AllSetAside(task: TaskId, state: State): multiset<Key> {
    SetAside(task, Refine, Attempts(state, task, Refine))
    + SetAside(task, Implement, Attempts(state, task, Implement))
    + SetAside(task, Audit, Attempts(state, task, Audit))
  }

  ghost function Apply(w: World, a: Action): World
    requires Enabled(w, a)
  {
    match a
    case SetRef(name, head) => w.(refs := w.refs[name := head])
    case DeleteRef(name) => w.(refs := w.refs - {name})
    case Crash => WithPhase(w, Idle)
    case Append(key, listed) => WithPhase(w, Appended(key, Number(w, key, listed)))
    case Write => w.(disk := w.memory, phase := AfterWrite(w.phase))
    case Probe =>
      var key, n := w.phase.key, w.phase.number;
      if BranchOf(key, n).value in w.refs then WithPhase(w, Renumbered(key, n)) else WithPhase(w, Clear(key, n))
    case SaveFails => WithPhase(w, Unsaved(w.phase.key, w.phase.number))
    case ProbeError => WithPhase(w, PushFailed(w.phase.key, w.phase.number))
    case Push(landed, reported) =>
      var key, n := w.phase.key, w.phase.number;
      var name := StageBranch(key.stage.Name(), key.task, n);
      var pushed := if landed then w.(refs := w.refs[name := key.head], pushes := w.pushes + [name]) else w;
      WithPhase(pushed, if reported then Pushed(key, n) else PushFailed(key, n))
    case Submit(started, url) =>
      var key, n := w.phase.key, w.phase.number;
      var sent := if started then w.(sessions := w.sessions + multiset{key}) else w;
      WithPhase(sent, if url.Some? then Accepted(key, n, url.value) else Idle)
    case Decline => WithPhase(w, Declined(w.phase.key, w.phase.number))
    case ExpireStage(key) => Expire(w, key, LiveAttempt(List(w.disk, key), key.head).value)
    case ExpireTask(task) =>
      var disk := w.disk[task := ExpiredRecord(w.disk[task])];
      w.(disk := disk, memory := disk, expiries := w.expiries + AllSetAside(task, w.disk))
    case OtherWrite(state) => w.(disk := state, memory := state)
  }

  // ----- What every step keeps -----

  ghost predicate Increasing(task: TaskId, stage: Stage, attempts: seq<Attempt>) {
    forall i, j | 0 <= i < j < |attempts| ::
      var n, m := NumberOf(task, stage, attempts[i]), NumberOf(task, stage, attempts[j]);
      n.Some? && m.Some? ==> n.value < m.value
  }

  ghost predicate Orderly(task: TaskId, stage: Stage, attempts: seq<Attempt>) {
    NewestPerHead(attempts) && Increasing(task, stage, attempts)
  }

  ghost predicate AllOrderly(state: State) {
    forall task, stage :: Orderly(task, stage, Attempts(state, task, stage))
  }

  predicate IsLive(state: State, key: Key) { LiveAttempt(List(state, key), key.head).Some? }

  function LiveCount(state: State, key: Key): nat { if IsLive(state, key) then 1 else 0 }

  /** Sessions are paid for by an operator's expiry each, except for the one that may be live. */
  ghost predicate Paid(disk: State, sessions: multiset<Key>, expiries: multiset<Key>) {
    forall key :: sessions[key] <= expiries[key] + LiveCount(disk, key)
  }

  ghost predicate NamedAt(state: State, task: TaskId, stage: Stage, i: nat, name: string) {
    && i < |Attempts(state, task, stage)| && Attempts(state, task, stage)[i].branch == Some(name)
    && NumberOf(task, stage, Attempts(state, task, stage)[i]).Some?
  }

  ghost predicate Named(state: State, name: string) {
    exists task, stage, i :: NamedAt(state, task, stage, i, name)
  }

  /** Every branch the panel pushed is named by an attempt on disk, and none was pushed twice. */
  ghost predicate PushesNamed(disk: State, pushes: seq<string>) {
    && (forall name | name in pushes :: Named(disk, name))
    && (forall i, j | 0 <= i < j < |pushes| :: pushes[i] != pushes[j])
  }

  /** The attempt being dispatched is the last of its list on disk, and nothing has started for it yet. */
  ghost predicate PhaseOk(
    disk: State, phase: Phase, sessions: multiset<Key>, expiries: multiset<Key>, pushes: seq<string>)
  {
    match phase
    case Idle => true
    case Appended(key, n) =>
      && key.task in disk && !IsLive(disk, key)
      && (key.stage != Audit ==> NumberedBelow(key, List(disk, key), n))
    case _ =>
      var key, n := phase.key, phase.number;
      var attempts := List(disk, key);
      && key.task in disk && attempts != [] && attempts[|attempts| - 1] == NewAttempt(key, n)
      && (phase.Accepted? || sessions[key] <= expiries[key])
      && ((phase.Recorded? || phase.Renumbered? || phase.Unsaved? || phase.Clear?) && key.stage != Audit ==>
            BranchOf(key, n).value !in pushes)
      && (phase.Renumbered? || phase.Unsaved? || phase.Clear? || phase.Pushed? || phase.PushFailed? ==> key.stage != Audit)
      && (phase.Declined? ==> key.stage == Audit)
  }

  ghost predicate NumberedBelow(key: Key, attempts: seq<Attempt>, n: nat) {
    forall i | 0 <= i < |attempts| ::
      var m := NumberOf(key.task, key.stage, attempts[i]); m.Some? ==> m.value < n
  }

  ghost predicate DiskOk(w: World) {
    AllOrderly(w.disk) && Paid(w.disk, w.sessions, w.expiries) && PushesNamed(w.disk, w.pushes)
  }

  ghost predicate Inv(w: World) {
    && DiskOk(w)
    && PhaseOk(w.disk, w.phase, w.sessions, w.expiries, w.pushes)
    && w.memory == Held(w.disk, w.phase)
  }
}
