/**
  The panel's stage operations. Each change to the state file or to origin, and each call to an
  agent, is one action of the dispatch machine; `run` records them all, so whatever holds over whole
  runs holds wherever an operation stops.
 */
module StageDispatcher {
  import opened Wrappers
  import opened Records
  import opened BranchNames
  import opened Dispatch
  import opened DispatchProofs
  import opened Moves
  import opened Sequences

  datatype Pull = Pull(number: nat, head: Head)

  /**
    How one attempt at a push goes: moves before the lookup, whether the lookup answers, moves before
    the push, whether the push lands, whether a push that landed is reported, and whether a next
    number can be saved.
   */
  datatype Try = Try(before: seq<Move<Head>>, answers: bool, between: seq<Move<Head>>, landed: bool, reported: bool, saves: bool)

  /** Nothing fails, whatever others do. */
  predicate Faultless(tries: seq<Try>) {
    forall go | go in tries :: go.answers && go.landed && go.reported && go.saves
  }

  /** An agent's reply: an address, a refusal, or nothing that can be read. */
  datatype Reply = Answered(url: string) | Refuses | Lost(started: bool)

  const CALM := Try([], true, [], true, true, true)

  datatype Creation = Created | Exists | Failed

  datatype Sent = Sent(attempt: Attempt, reused: bool)

  /** Whether a stage of the task may be chosen at all. */
  function Choosable(tracker: Tracker, state: State, id: TaskId): Result<TaskRecord> {
    var task := Find(tracker, id);
    if task.None? then Refused(404)
    else if task.value.status == Completed || id !in state || state[id].expired || state[id].status != InProgress
      || !state[id].prepared then Refused(409)
    else Ok(state[id])
  }

  /** Main lists the task as not completed, and it is claimed here, with its branch prepared. */
  ghost predicate Prepared(tracker: Tracker, state: State, id: TaskId) {
    && id in state && state[id].status == InProgress && !state[id].expired && state[id].prepared
    && exists i :: 0 <= i < |tracker| && tracker[i].id == id && tracker[i].status != Completed
         && forall j | 0 <= j < i :: tracker[j].id != id
  }

  lemma ChoosableMeans(tracker: Tracker, state: State, id: TaskId)
    ensures Choosable(tracker, state, id) ==
      if forall t | t in tracker :: t.id != id then Refused(404)
      else if Prepared(tracker, state, id) then Ok(state[id]) else Refused(409)
  {
    var task := Find(tracker, id);
    if task.Some? {
      var i :| 0 <= i < |tracker| && tracker[i] == task.value && forall j | 0 <= j < i :: tracker[j].id != id;
      if Prepared(tracker, state, id) {
        var k :| 0 <= k < |tracker| && tracker[k].id == id && tracker[k].status != Completed
          && forall j | 0 <= j < k :: tracker[j].id != id;
        assert k == i;
      }
    }
  }

  /** The open pull requests an audit could mean. */
  function Candidates(pulls: seq<Pull>, number: Option<nat>): seq<Pull> {
    if pulls == [] then [] else
      (if number.None? || pulls[0].number == number.value then [pulls[0]] else []) + Candidates(pulls[1..], number)
  }

  /** The revision a stage is about, or why there is none; `None` answers stand for failed lookups. */
  function Revision(stage: Stage, configured: bool, tip: Option<Head>, pulls: Option<seq<Pull>>, number: Option<nat>): Result<Head> {
    if !configured then Refused(503)
    else if stage == Audit then
      if pulls.None? then Refused(502)
      else if |Candidates(pulls.value, number)| != 1 then Refused(409)
      else Ok(Candidates(pulls.value, number)[0].head)
    else if tip.None? then Refused(502) else Ok(tip.value)
  }

  function Matching(number: Option<nat>): Pull -> bool { (pull: Pull) => number.None? || pull.number == number.value }

  function TheSame(): Pull -> Pull { (pull: Pull) => pull }

  lemma {:induction false} CandidatesSelect(pulls: seq<Pull>, number: Option<nat>) returns (places: seq<nat>)
    ensures Selects(pulls, Matching(number), TheSame(), Candidates(pulls, number), places)
  {
    hide Selects;
    if pulls == [] {
      SelectsNone(Matching(number), TheSame());
      places := [];
    } else {
      var rest := CandidatesSelect(pulls[1..], number);
      places := SelectsMore(pulls[0], pulls[1..], Matching(number), TheSame(), Candidates(pulls[1..], number), rest);
      assert [pulls[0]] + pulls[1..] == pulls;
    }
  }

  /** The request names the pull request at `i`, or names none. */
  predicate Matches(pulls: seq<Pull>, number: Option<nat>, i: nat) {
    i < |pulls| && (number.None? || pulls[i].number == number.value)
  }

  ghost predicate OnlyMatch(pulls: seq<Pull>, number: Option<nat>, i: nat) {
    Matches(pulls, number, i) && forall j: nat | Matches(pulls, number, j) :: j == i
  }

  lemma OneCandidate(pulls: seq<Pull>, number: Option<nat>)
    ensures |Candidates(pulls, number)| == 1 <==> exists i: nat :: OnlyMatch(pulls, number, i)
    ensures forall i: nat | OnlyMatch(pulls, number, i) :: Candidates(pulls, number) == [pulls[i]]
  {
    var places := CandidatesSelect(pulls, number);
    var found := Candidates(pulls, number);
    if |found| == 1 {
      forall j: nat | Matches(pulls, number, j) ensures j == places[0] {
        assert Matching(number)(pulls[j]) && j in places;
      }
      assert OnlyMatch(pulls, number, places[0]);
    }
    forall i: nat | OnlyMatch(pulls, number, i) ensures found == [pulls[i]] {
      forall j: nat | j < |pulls| && Matching(number)(pulls[j]) ensures j == i {
        assert Matches(pulls, number, j);
      }
      SelectsOne(pulls, Matching(number), TheSame(), found, places, i);
    }
  }

  /**
    An audit is about the head of the one open pull request that the request can mean, and is refused
    with 409 when none or several could be; any other stage is about the branch's tip. A service that
    is not set up is 503 before any lookup, and a lookup that fails 502.
   */
  lemma RevisionMeans(stage: Stage, configured: bool, tip: Option<Head>, pulls: Option<seq<Pull>>, number: Option<nat>)
    ensures !configured ==> Revision(stage, configured, tip, pulls, number) == Refused(503)
    ensures configured && stage != Audit ==>
      Revision(stage, configured, tip, pulls, number) == if tip.Some? then Ok(tip.value) else Refused(502)
    ensures configured && stage == Audit && pulls.None? ==> Revision(stage, configured, tip, pulls, number) == Refused(502)
    ensures configured && stage == Audit && pulls.Some? ==>
      && (forall i: nat | OnlyMatch(pulls.value, number, i) :: Revision(stage, configured, tip, pulls, number) == Ok(pulls.value[i].head))
      && ((forall i: nat :: !OnlyMatch(pulls.value, number, i)) ==> Revision(stage, configured, tip, pulls, number) == Refused(409))
  {
    if pulls.Some? { OneCandidate(pulls.value, number); }
  }

  /** The submission an operator may expire, or why there is none; an audit's is its newest. */
  function Expirable(tracker: Tracker, state: State, task: TaskId, stage: Option<Stage>, tip: Option<Head>): Result<Key> {
    if stage.None? || Find(tracker, task).None? then Refused(404)
    else
      var attempts := Attempts(state, task, stage.value);
      if attempts == [] then Refused(409)
      else if stage.value != Audit && tip.None? then Refused(502)
      else
        var head := if stage.value == Audit then attempts[|attempts| - 1].head else tip.value;
        if LiveAttempt(attempts, head).None? then Refused(409) else Ok(Key(task, stage.value, head))
  }

  /** Whether a task's reservation may be expired. */
  function Releasable(tracker: Tracker, state: State, id: TaskId): Result<TaskRecord> {
    var task := Find(tracker, id);
    if task.None? then Refused(404)
    else if id !in state || task.value.status == Completed || state[id].status == Completed then Refused(409)
    else Ok(state[id])
  }

  /** There is a record of the task, and neither it nor main has it completed. */
  ghost predicate Reserved(tracker: Tracker, state: State, id: TaskId) {
    && id in state && state[id].status != Completed
    && exists i :: 0 <= i < |tracker| && tracker[i].id == id && tracker[i].status != Completed
         && forall j | 0 <= j < i :: tracker[j].id != id
  }

  lemma ReleasableMeans(tracker: Tracker, state: State, id: TaskId)
    ensures Releasable(tracker, state, id) ==
      if forall t | t in tracker :: t.id != id then Refused(404)
      else if Reserved(tracker, state, id) then Ok(state[id]) else Refused(409)
  {
    var task := Find(tracker, id);
    if task.Some? {
      var i :| 0 <= i < |tracker| && tracker[i] == task.value && forall j | 0 <= j < i :: tracker[j].id != id;
      if Reserved(tracker, state, id) {
        var k :| 0 <= k < |tracker| && tracker[k].id == id && tracker[k].status != Completed
          && forall j | 0 <= j < k :: tracker[j].id != id;
        assert k == i;
      }
    }
  }

  /** The refs that expiring a task removes, spelled out. */
  predicate OwnRef(task: TaskId, name: string) {
    name == "task/" + task || "refine/" + task + "-" <= name || "implement/" + task + "-" <= name
  }

  lemma RemovedMeans(refs: Refs, task: TaskId)
    ensures forall name :: name in Removed(refs, task) <==> name in refs && !OwnRef(task, name)
    ensures forall name | name in Removed(refs, task) :: Removed(refs, task)[name] == refs[name]
  {
    assert Prefix(Refine.Name(), task) == "refine/" + task + "-";
    assert Prefix(Implement.Name(), task) == "implement/" + task + "-";
  }

  /** The record of an expired task: expired, unprepared and without an owner, and every submission expired. */
  ghost predicate ReleasedRecord(was: TaskRecord, now: TaskRecord) {
    && now == TaskRecord(was.status, true, false, was.prepareError, None, was.blockedReason, now.stages)
    && now.stages.Keys == was.stages.Keys
    && forall s | s in was.stages :: |now.stages[s]| == |was.stages[s]|
         && forall i | 0 <= i < |was.stages[s]| :: now.stages[s][i] == was.stages[s][i].(status := Expired)
  }

  lemma ReleasedMeans(was: TaskRecord)
    ensures ReleasedRecord(was, ExpiredRecord(was))
  {
  }

  /** What expiring a task removes from origin. */
  function StageBranches(refs: Refs, task: TaskId): set<string> {
    set name | name in refs && (Prefix(Refine.Name(), task) <= name || Prefix(Implement.Name(), task) <= name)
  }

  /** Some of the named refs are gone, and every other is where it was. */
  ghost predicate LostOnly(before: Refs, after: Refs, names: set<string>) {
    && after.Keys <= before.Keys
    && (forall name | name in before && name !in names :: name in after)
    && (forall name | name in after :: after[name] == before[name])
  }

  function Removed(refs: Refs, task: TaskId): Refs { refs - StageBranches(refs, task) - {TaskBranch(task)} }

  /** A numbered branch of one of the task's stages that have branches. */
  predicate OwnNumbered(task: TaskId, name: string) {
    StageBranchNumber(Refine.Name(), task, name).Some? || StageBranchNumber(Implement.Name(), task, name).Some?
  }

  /** Every ref under a prefix of the task's carries a number. */
  ghost predicate OnlyNumbered(refs: Refs, task: TaskId) {
    forall name, stage: Stage | name in refs && stage != Audit && Prefix(stage.Name(), task) <= name ::
      DigitsFollow(Prefix(stage.Name(), task), name)
  }

  /** The two stages' names do not lie under each other's prefix. */
  lemma OneStagePrefix(stage: Stage, other: Stage, task: TaskId, name: string)
    requires Prefix(stage.Name(), task) <= name && Prefix(other.Name(), task) <= name
    ensures stage == other
  {
    assert name[0] == stage.Name()[0] == other.Name()[0];
  }

  /**
    Expiring a task deletes every numbered Refine and Implement branch it owns, and nothing else but
    the task branch exactly when every ref under the two prefixes carries a number.
   */
  lemma ExpiryTakesItsOwn(refs: Refs, task: TaskId)
    ensures forall name | name in refs && OwnNumbered(task, name) :: name in StageBranches(refs, task)
    ensures (forall name | name in StageBranches(refs, task) :: OwnNumbered(task, name)) <==> OnlyNumbered(refs, task)
  {
    if forall name | name in StageBranches(refs, task) :: OwnNumbered(task, name) {
      forall name, stage: Stage | name in refs && stage != Audit && Prefix(stage.Name(), task) <= name
        ensures DigitsFollow(Prefix(stage.Name(), task), name)
      {
        assert name in StageBranches(refs, task);
        var owner := if StageBranchNumber(Refine.Name(), task, name).Some? then Refine else Implement;
        OneStagePrefix(stage, owner, task, name);
      }
    }
    if OnlyNumbered(refs, task) {
      forall name | name in StageBranches(refs, task) ensures OwnNumbered(task, name) {
        var stage := if Prefix(Refine.Name(), task) <= name then Refine else Implement;
        assert DigitsFollow(Prefix(stage.Name(), task), name);
      }
    }
  }

  /** A ref set aside under a stage branch's name is taken with the rest. */
  lemma ExpiryTakesUnnumbered(head: Head)
    ensures
      var refs: Refs := map["implement/P0-001-4-old" := head];
      SchemaId("P0-001") && "implement/P0-001-4-old" in StageBranches(refs, "P0-001")
      && !OwnNumbered("P0-001", "implement/P0-001-4-old") && !OnlyNumbered(refs, "P0-001")
  {
    var name, prefix := "implement/P0-001-4-old", Prefix("implement", "P0-001");
    assert prefix == "implement/P0-001-" && name[|prefix|..] == "4-old";
    assert !IsDigit("4-old"[1]);
    assert Implement.Name() == "implement" && !DigitsFollow(prefix, name);
    assert Prefix(Refine.Name(), "P0-001")[0] != name[0];
    assert "P0-001"[1..2] == "0" && "P0-001"[3..] == "001";
    var refs: Refs := map[name := head];
    assert name in refs;
  }

  /** Once the live attempt is expired, nothing stands in the way at its revision. */
  lemma NothingLive(attempts: seq<Attempt>, head: Head, i: nat)
    requires LiveAttempt(attempts, head) == Some(i)
    ensures LiveAttempt(attempts[i := attempts[i].(status := Expired)], head).None?
  {
    SameHeads(attempts, attempts[i := attempts[i].(status := Expired)], head);
  }

  /** The names on origin, under a key's family, that are numbered at or above `n`. */
  ghost function Above(refs: Refs, key: Key, n: nat): set<string> {
    set name | name in refs && StageBranchNumber(key.stage.Name(), key.task, name).Some?
      && StageBranchNumber(key.stage.Name(), key.task, name).value >= n
  }

  /** Origin has the numbered branch, at the key's revision. */
  predicate Holds(refs: Refs, key: Key, n: nat)
    requires key.stage != Audit
  {
    BranchOf(key, n).value in refs && refs[BranchOf(key, n).value] == key.head
  }

  predicate TakenUpTo(refs: Refs, key: Key, first: nat, n: nat)
    requires key.stage != Audit
  {
    forall m | first <= m < n :: BranchOf(key, m).value in refs
  }

  /** With origin left alone: the first number from the recorded one on that origin did not have. */
  predicate LandsOnFirstFree(before: Refs, after: Refs, key: Key, first: nat, taken: Option<nat>)
    requires key.stage != Audit
  {
    && taken.Some?
    && TakenUpTo(before, key, first, taken.value)
    && BranchOf(key, taken.value).value !in before
    && after == before[BranchOf(key, taken.value).value := key.head]
  }

  lemma CollisionNarrows(refs: Refs, key: Key, first: nat, n: nat)
    requires key.stage != Audit && BranchOf(key, n).value in refs
    ensures Above(refs, key, n + 1) < Above(refs, key, n)
    ensures TakenUpTo(refs, key, first, n) ==> TakenUpTo(refs, key, first, n + 1)
  {
    PrintParse(key.stage.Name(), key.task, n, key.stage.Name(), key.task);
    assert BranchOf(key, n).value in Above(refs, key, n);
  }

  /** `base` with one more attempt for the key. */
  function Newest(base: State, key: Key, attempt: Attempt): State
    requires key.task in base
  {
    Update(base, key.task, key.stage, List(base, key) + [attempt])
  }

  lemma UpdateTwice(state: State, task: TaskId, stage: Stage, a: seq<Attempt>, b: seq<Attempt>)
    requires task in state
    ensures Update(Update(state, task, stage, a), task, stage, b) == Update(state, task, stage, b)
  {
    var record := state[task];
    assert record.stages[stage := a][stage := b] == record.stages[stage := b];
    var x, y := record.(stages := record.stages[stage := a]), record.(stages := record.stages[stage := b]);
    assert state[task := x][task := y] == state[task := y];
  }

  /** Replacing the newest attempt is as if the new value had been appended at once; dropping it leaves the old list. */
  lemma Renewed(base: State, key: Key, a: Attempt, b: Attempt)
    requires key.task in base
    ensures
      var state := Newest(base, key, a);
      && List(state, key) == List(base, key) + [a]
      && Update(state, key.task, key.stage, WithLast(List(state, key), b)) == Newest(base, key, b)
      && Update(state, key.task, key.stage, List(state, key)[..|List(state, key)| - 1])
         == Update(base, key.task, key.stage, List(base, key))
  {
    UpdateAttempts(base, key.task, key.stage, List(base, key) + [a]);
    var state := Newest(base, key, a);
    assert WithLast(List(state, key), b) == List(base, key) + [b];
    UpdateTwice(base, key.task, key.stage, List(base, key) + [a], List(base, key) + [b]);
    UpdateTwice(base, key.task, key.stage, List(base, key) + [a], List(base, key));
    assert List(state, key)[..|List(state, key)| - 1] == List(base, key);
  }

  /** What the invariant says of the attempt being dispatched. */
  lemma BeingDispatched(run: Run, w: World)
    requires Outcome(run) == Some(w) && !w.phase.Idle? && !w.phase.Appended?
    ensures
      var key, attempts := w.phase.key, List(w.disk, w.phase.key);
      && key.task in w.disk && attempts != [] && attempts[|attempts| - 1] == NewAttempt(key, w.phase.number)
      && w.memory == Held(w.disk, w.phase)
  {
    RunKeeps(run);
  }

  /** What a colliding attempt's record becomes. */
  lemma NextRecord(run: Run, w: World, base: State, key: Key, n: nat)
    requires Outcome(run) == Some(w) && w.phase == Renumbered(key, n)
    requires key.task in base && w.disk == Newest(base, key, NewAttempt(key, n))
    ensures
      var attempts := List(w.disk, key);
      && key.task in w.disk && attempts != [] && attempts[|attempts| - 1] == NewAttempt(key, n)
      && Update(w.disk, key.task, key.stage, WithLast(attempts, NewAttempt(key, n + 1))) == w.memory
    ensures w.memory == Newest(base, key, NewAttempt(key, n + 1))
  {
    hide Outcome, Inv;
    BeingDispatched(run, w);
    Renewed(base, key, NewAttempt(key, n), NewAttempt(key, n + 1));
  }

  /** The number of the attempt in memory, which runs ahead of the record when that could not be saved. */
  function InMemory(phase: Phase): nat
    requires !phase.Idle?
  {
    if phase.Unsaved? then phase.number + 1 else phase.number
  }

  predicate Broken(phase: Phase, key: Key, n: nat) { phase == PushFailed(key, n) || phase == Unsaved(key, n) }

  /** What the record of an attempt whose push failed becomes. */
  lemma EndRecord(run: Run, w: World, base: State, key: Key)
    requires Outcome(run) == Some(w) && (w.phase.PushFailed? || w.phase.Unsaved?) && w.phase.key == key
    requires key.task in base && w.disk == Newest(base, key, NewAttempt(key, w.phase.number))
    ensures key.stage != Audit
    ensures
      var attempts := List(w.disk, key);
      var ended := NewAttempt(key, InMemory(w.phase)).(status := Expired, pushFailed := true);
      && key.task in w.disk && attempts != [] && attempts[|attempts| - 1] == NewAttempt(key, w.phase.number)
      && Update(w.disk, key.task, key.stage, WithLast(attempts, ended)) == w.memory == Newest(base, key, ended)
  {
    hide Outcome, DiskOk;
    BeingDispatched(run, w);
    RunKeeps(run);
    Renewed(base, key, NewAttempt(key, w.phase.number), NewAttempt(key, InMemory(w.phase)).(status := Expired, pushFailed := true));
  }

  lemma DeclinedRecord(run: Run, w: World, base: State, key: Key, n: nat)
    requires Outcome(run) == Some(w) && w.phase == Declined(key, n)
    requires key.task in base && w.disk == Newest(base, key, NewAttempt(key, n))
    ensures
      var attempts := List(w.disk, key);
      && key.task in w.disk && attempts != []
      && Update(w.disk, key.task, key.stage, attempts[..|attempts| - 1]) == w.memory
      && w.memory == Update(base, key.task, key.stage, List(base, key))
  {
    hide Outcome, Inv;
    BeingDispatched(run, w);
    Renewed(base, key, NewAttempt(key, n), NewAttempt(key, n));
  }

  lemma PromotedRecord(run: Run, w: World, base: State, key: Key, n: nat, url: string)
    requires Outcome(run) == Some(w) && w.phase == Accepted(key, n, url)
    requires key.task in base && w.disk == Newest(base, key, NewAttempt(key, n))
    ensures
      var attempts, promoted := List(w.disk, key), NewAttempt(key, n).(status := Submitted, taskUrl := Some(url));
      && key.task in w.disk && attempts != [] && attempts[|attempts| - 1] == NewAttempt(key, n)
      && Update(w.disk, key.task, key.stage, WithLast(attempts, promoted)) == w.memory == Newest(base, key, promoted)
  {
    hide Outcome, Inv;
    BeingDispatched(run, w);
    Renewed(base, key, NewAttempt(key, n), NewAttempt(key, n).(status := Submitted, taskUrl := Some(url)));
  }

  /** `n` is above every number of the stage on origin and in the records, and one above some of them unless it is 1. */
  ghost predicate OnePastHighest(refs: Refs, attempts: seq<Attempt>, key: Key, n: nat) {
    && n >= 1
    && (forall name | name in refs :: NumberBelow(StageBranchNumber(key.stage.Name(), key.task, name), n))
    && (forall i | 0 <= i < |attempts| :: NumberBelow(NumberOf(key.task, key.stage, attempts[i]), n))
    && (n > 1 ==>
          || (exists name :: name in refs && StageBranchNumber(key.stage.Name(), key.task, name) == Some(n - 1))
          || exists i :: 0 <= i < |attempts| && NumberOf(key.task, key.stage, attempts[i]) == Some(n - 1))
  }

  predicate NumberBelow(m: Option<nat>, n: nat) { m.Some? ==> m.value < n }

  lemma AllBelowNext(refs: Refs, attempts: seq<Attempt>, key: Key, listed: seq<string>, n: nat)
    requires n == NextStageNumber(key.stage.Name(), key.task, listed, Branches(attempts))
    requires forall name :: name in listed <==> name in refs && Prefix(key.stage.Name(), key.task) <= name
    ensures forall name | name in refs :: NumberBelow(StageBranchNumber(key.stage.Name(), key.task, name), n)
    ensures forall i | 0 <= i < |attempts| :: NumberBelow(NumberOf(key.task, key.stage, attempts[i]), n)
  {
    hide NextStageNumber;
    var branches := Branches(attempts);
    forall i | 0 <= i < |attempts| ensures NumberBelow(NumberOf(key.task, key.stage, attempts[i]), n) {
      assert branches[i] in branches;
    }
  }

  lemma NextIsOnePast(refs: Refs, attempts: seq<Attempt>, key: Key, listed: seq<string>, n: nat)
    requires n == NextStageNumber(key.stage.Name(), key.task, listed, Branches(attempts))
    requires forall name :: name in listed <==> name in refs && Prefix(key.stage.Name(), key.task) <= name
    ensures OnePastHighest(refs, attempts, key, n)
  {
    hide NextStageNumber, StageBranchNumber, Prefix, NumberBelow;
    AllBelowNext(refs, attempts, key, listed, n);
    if n > 1 {
      NextIsAfterOne(refs, attempts, key, listed, n);
    }
  }

  lemma NextIsAfterOne(refs: Refs, attempts: seq<Attempt>, key: Key, listed: seq<string>, n: nat)
    requires n == NextStageNumber(key.stage.Name(), key.task, listed, Branches(attempts)) && n > 1
    requires forall name | name in listed :: name in refs
    ensures
      || (exists name :: name in refs && StageBranchNumber(key.stage.Name(), key.task, name) == Some(n - 1))
      || exists i :: 0 <= i < |attempts| && NumberOf(key.task, key.stage, attempts[i]) == Some(n - 1)
  {
    hide NextStageNumber, StageBranchNumber, Prefix;
    var stage, task, branches := key.stage.Name(), key.task, Branches(attempts);
    var all := Listed(listed) + branches;
    var branch :| branch in all && RecordedNumber(stage, task, branch) == Some(n - 1);
    var k :| 0 <= k < |all| && all[k] == branch;
    if k < |listed| {
      assert listed[k] in listed && StageBranchNumber(stage, task, listed[k]) == Some(n - 1);
    } else {
      assert NumberOf(key.task, key.stage, attempts[k - |listed|]) == Some(n - 1);
    }
  }

  lemma NextIsFree(refs: Refs, attempts: seq<Attempt>, key: Key, listed: seq<string>, n: nat)
    requires key.stage != Audit && n == NextStageNumber(key.stage.Name(), key.task, listed, Branches(attempts))
    requires forall name :: name in listed <==> name in refs && Prefix(key.stage.Name(), key.task) <= name
    ensures BranchOf(key, n).value !in refs && forall i | 0 <= i < |attempts| :: attempts[i].branch != BranchOf(key, n)
  {
    hide NextStageNumber;
    NextIsFresh(key.stage.Name(), key.task, listed, Branches(attempts), n);
    assert Prefix(key.stage.Name(), key.task) <= BranchOf(key, n).value;
    forall i | 0 <= i < |attempts| ensures attempts[i].branch != BranchOf(key, n) {
      assert Branches(attempts)[i] in Branches(attempts);
    }
  }

  class Panel {
    var stateFile: State
    var refs: Refs
    ghost var world: World
    ghost var run: Run

    ghost predicate Valid()
      reads this
    {
      Outcome(run) == Some(world) && stateFile == world.disk && refs == world.refs
    }

    constructor (state: State, refs: Refs)
      requires AllOrderly(state)
      ensures Valid() && stateFile == state && this.refs == refs && world.phase == Idle
      ensures world.sessions == world.expiries == multiset{} && world.pushes == []
    {
      stateFile, this.refs := state, refs;
      world := World(state, state, refs, Idle, multiset{}, multiset{}, []);
      run := Start(World(state, state, refs, Idle, multiset{}, multiset{}, []));
      FreshStart(state, refs);
    }

    /** Record an action; the caller makes the fields follow it. */
    ghost method Take(a: Action)
      requires Outcome(run) == Some(world) && Enabled(world, a)
      modifies this`world, this`run
      ensures Outcome(run) == Some(world)
      ensures world == Apply(old(world), a) && run == Then(old(run), a)
      ensures GoesOn(old(run), run)
    {
      world, run := Apply(world, a), Then(run, a);
    }

    method WriteState(state: State)
      requires Valid() && Enabled(world, Write) && state == world.memory
      modifies this
      ensures Valid() && world == Apply(old(world), Write) && GoesOn(old(run), run)
      ensures stateFile == state
    {
      Take(Write);
      stateFile := state;
    }

    /** Others act on origin. */
    method Interfere(moves: seq<Move<Head>>)
      requires Valid()
      modifies this
      ensures Valid() && GoesOn(old(run), run)
      ensures world == old(world).(refs := refs)
      ensures refs == Moved(old(refs), moves)
      ensures stateFile == old(stateFile)
    {
      hide Outcome, Inv;
      for i := 0 to |moves|
        invariant Valid() && GoesOn(old(run), run)
        invariant world == old(world).(refs := refs)
        invariant refs == Moved(old(refs), moves[..i])
        invariant stateFile == old(stateFile)
      {
        assert moves[..i + 1][..i] == moves[..i];
        ghost var before := run;
        match moves[i] {
          case Sets(name, head) =>
            Take(SetRef(name, head));
            refs := refs[name := head];
          case Deletes(name) =>
            Take(DeleteRef(name));
            refs := refs - {name};
        }
        GoesOnTransitive(old(run), before, run);
      }
      assert moves[..|moves|] == moves;
    }

    /** Push the branch, which origin did not have a moment ago, at the revision. */
    method PushBranch(key: Key, n: nat, go: Try) returns (creation: Creation)
      requires Valid() && key.stage != Audit && world.phase == Clear(key, n)
      modifies this
      ensures Valid() && GoesOn(old(run), run) && stateFile == old(stateFile)
      ensures world.sessions == old(world).sessions && world.expiries == old(world).expiries
      ensures creation == if go.landed && go.reported then Created else Failed
      ensures world.phase == if creation.Created? then Pushed(key, n) else PushFailed(key, n)
      ensures creation.Created? ==> Holds(refs, key, n)
      ensures go == CALM ==> refs == old(refs)[BranchOf(key, n).value := key.head]
    {
      hide Outcome, Inv, Held;
      Interfere(go.between);
      ghost var before := run;
      Take(Push(go.landed, go.landed && go.reported));
      GoesOnTransitive(old(run), before, run);
      if go.landed {
        refs := refs[StageBranch(key.stage.Name(), key.task, n) := key.head];
      }
      return if go.landed && go.reported then Created else Failed;
    }

    /** Look for the branch on origin and push it at the revision if it is not there. */
    method CreateStageBranch(key: Key, n: nat, go: Try) returns (creation: Creation)
      requires Valid() && key.stage != Audit && world.phase == Recorded(key, n)
      modifies this
      ensures Valid() && GoesOn(old(run), run) && stateFile == old(stateFile)
      ensures world.sessions == old(world).sessions && world.expiries == old(world).expiries
      ensures creation.Exists? ==> world.phase == Renumbered(key, n)
      ensures creation.Created? ==> world.phase == Pushed(key, n) && Holds(refs, key, n)
      ensures creation.Failed? ==> world.phase == PushFailed(key, n)
      ensures creation.Failed? ==> !(go.answers && go.landed && go.reported)
      // nobody interferes: the branch is found, or it was absent and is now at the revision
      ensures go == CALM ==>
        var name := BranchOf(key, n).value;
        if name in old(refs) then creation == Exists && refs == old(refs)
        else creation == Created && refs == old(refs)[name := key.head]
    {
      hide Outcome, Inv, Held;
      var name := StageBranch(key.stage.Name(), key.task, n);
      Interfere(go.before);
      ghost var before := run;
      if !go.answers {
        Take(ProbeError);
        GoesOnTransitive(old(run), before, run);
        return Failed;
      }
      Take(Probe);
      GoesOnTransitive(old(run), before, run);
      if name in refs {
        return Exists;
      }
      before := run;
      creation := PushBranch(key, n, go);
      GoesOnTransitive(old(run), before, run);
    }

    /** The colliding attempt takes the next number, and is saved under it before the next push if saving works. */
    method TakeNextNumber(key: Key, n: nat, saves: bool, ghost base: State)
      requires Valid() && key.stage != Audit && world.phase == Renumbered(key, n)
      requires key.task in base && stateFile == Newest(base, key, NewAttempt(key, n))
      modifies this
      ensures Valid() && GoesOn(old(run), run) && refs == old(refs)
      ensures world.sessions == old(world).sessions && world.expiries == old(world).expiries
      ensures saves ==> world.phase == Recorded(key, n + 1) && stateFile == Newest(base, key, NewAttempt(key, n + 1))
      ensures !saves ==> world.phase == Unsaved(key, n) && stateFile == old(stateFile)
    {
      hide Outcome, Inv;
      if !saves {
        Take(SaveFails);
        return;
      }
      NextRecord(run, world, base, key, n);
      var attempts := List(stateFile, key);
      var last := attempts[|attempts| - 1];
      var renamed := last.(branch := Some(StageBranch(key.stage.Name(), key.task, n + 1)));
      WriteState(Update(stateFile, key.task, key.stage, WithLast(attempts, renamed)));
    }

    /** One turn of the push loop: the branch was created, or the record moved on, or the push failed. */
    method PushOnce(key: Key, n: nat, go: Try, ghost base: State)
      returns (creation: Creation, number: nat)
      requires Valid() && key.stage != Audit && world.phase == Recorded(key, n)
      requires key.task in base && stateFile == Newest(base, key, NewAttempt(key, n))
      modifies this
      ensures Valid() && GoesOn(old(run), run)
      ensures world.sessions == old(world).sessions && world.expiries == old(world).expiries
      ensures match creation
        case Created => world.phase == Pushed(key, n)
        case Exists => world.phase == Recorded(key, n + 1)
        case Failed => Broken(world.phase, key, n)
      ensures creation.Failed? ==> !Faultless([go])
      ensures number == InMemory(world.phase)
      ensures stateFile == Newest(base, key, NewAttempt(key, world.phase.number))
      ensures creation.Created? ==> Holds(refs, key, n)
      ensures go == CALM ==>
        var name := BranchOf(key, n).value;
        if name in old(refs) then creation == Exists && refs == old(refs)
        else creation == Created && refs == old(refs)[name := key.head]
    {
      creation := CreateStageBranch(key, n, go);
      assert Faultless([go]) ==> go in [go];
      number := n;
      if creation.Exists? {
        number := n + 1;
        ghost var before := run;
        TakeNextNumber(key, n, go.saves, base);
        GoesOnTransitive(old(run), before, run);
        if !go.saves {
          return Failed, number;
        }
      }
    }

    /**
      Push the recorded attempt's branch, moving on to the next number while origin has the one
      recorded. `tries` covers what others do; once it is used up origin is left alone, so each
      collision leaves fewer branches numbered at or above the attempt's.
     */
    method PushStageBranch(key: Key, first: nat, tries: seq<Try>, ghost base: State)
      returns (taken: Option<nat>, number: nat)
      requires Valid() && key.stage != Audit && world.phase == Recorded(key, first)
      requires key.task in base && stateFile == Newest(base, key, NewAttempt(key, first))
      modifies this
      ensures Valid() && GoesOn(old(run), run)
      ensures world.sessions == old(world).sessions && world.expiries == old(world).expiries
      ensures taken.Some? ==> taken.value >= first && world.phase == Pushed(key, taken.value) && Holds(refs, key, taken.value)
      ensures taken.None? ==>
        (world.phase.PushFailed? || world.phase.Unsaved?) && world.phase.key == key && number == InMemory(world.phase)
      // the record names the branch of the last push
      ensures !world.phase.Idle? && stateFile == Newest(base, key, NewAttempt(key, world.phase.number))
      ensures Faultless(tries) ==> taken.Some?
      ensures tries == [] ==> LandsOnFirstFree(old(refs), refs, key, first, taken)
    {
      hide Outcome, Inv;
      number := first;
      var rest := tries;
      while true
        invariant Valid() && GoesOn(old(run), run)
        invariant number >= first && world.phase == Recorded(key, number)
        invariant stateFile == Newest(base, key, NewAttempt(key, number))
        invariant world.sessions == old(world).sessions && world.expiries == old(world).expiries
        invariant Faultless(tries) ==> Faultless(rest)
        invariant tries == [] ==> rest == [] && refs == old(refs) && TakenUpTo(refs, key, first, number)
        decreases |rest|, Above(refs, key, number)
      {
        ghost var before := run;
        var creation, reached := PushOnce(key, number, if rest == [] then CALM else rest[0], base);
        GoesOnTransitive(old(run), before, run);
        if creation.Failed? {
          return None, reached;
        }
        if creation.Created? {
          return Some(number), number;
        }
        if rest == [] { CollisionNarrows(refs, key, first, number); } else { rest := rest[1..]; }
        number := reached;
      }
    }

    /** Origin's listing of a stage's numbered branches. */
    method ListHeads(prefix: string) returns (names: seq<string>)
      ensures forall name :: name in names <==> name in refs && prefix <= name
    {
      names := [];
      var rest := refs.Keys;
      while rest != {}
        invariant rest <= refs.Keys
        invariant forall name :: name in names <==> name in refs && name !in rest && prefix <= name
        decreases rest
      {
        var name :| name in rest;
        rest := rest - {name};
        if prefix <= name { names := names + [name]; }
      }
    }

    /** Put a fresh attempt on record, before anything external happens. */
    method Begin(key: Key) returns (n: nat)
      requires Valid() && world.phase.Idle? && key.task in stateFile
      requires LiveAttempt(List(stateFile, key), key.head).None?
      modifies this
      ensures Valid() && GoesOn(old(run), run) && refs == old(refs)
      ensures world.phase == Recorded(key, n) && stateFile == Newest(old(stateFile), key, NewAttempt(key, n))
      ensures world.sessions == old(world).sessions && world.expiries == old(world).expiries
      ensures key.stage != Audit ==>
        && BranchOf(key, n).value !in refs
        && OnePastHighest(refs, List(old(stateFile), key), key, n)
        && forall i | 0 <= i < |List(old(stateFile), key)| :: List(old(stateFile), key)[i].branch != BranchOf(key, n)
    {
      hide Inv, OnePastHighest, StageBranchNumber, NumberBelow, LiveAttempt;
      var attempts := List(stateFile, key);
      var listed := ListHeads(Prefix(key.stage.Name(), key.task));
      n := 0;
      if key.stage != Audit {
        n := NextStageNumber(key.stage.Name(), key.task, listed, Branches(attempts));
        NextIsFree(refs, attempts, key, listed, n);
        NextIsOnePast(refs, attempts, key, listed, n);
      }
      Take(Append(key, listed));
      ghost var before := run;
      WriteState(Update(stateFile, key.task, key.stage, attempts + [NewAttempt(key, n)]));
      GoesOnTransitive(old(run), before, run);
    }

    /** After a failed push the attempt stays on record to keep its number, but set aside. */
    method SetAsidePush(key: Key, number: nat, ghost base: State)
      requires Valid() && (world.phase.PushFailed? || world.phase.Unsaved?) && world.phase.key == key
      requires number == InMemory(world.phase)
      requires key.task in base && stateFile == Newest(base, key, NewAttempt(key, world.phase.number))
      modifies this
      ensures Valid() && GoesOn(old(run), run) && refs == old(refs) && world.phase.Idle?
      ensures world.sessions == old(world).sessions && world.expiries == old(world).expiries
      ensures stateFile == Newest(base, key, NewAttempt(key, number).(status := Expired, pushFailed := true))
    {
      hide Outcome, Inv;
      EndRecord(run, world, base, key);
      var attempts := List(stateFile, key);
      var branch := Some(StageBranch(key.stage.Name(), key.task, number));
      var last := attempts[|attempts| - 1].(branch := branch, status := Expired, pushFailed := true);
      WriteState(Update(stateFile, key.task, key.stage, WithLast(attempts, last)));
    }

    /** The agent answered: the attempt is promoted with the address of its conversation. */
    method Promote(key: Key, ghost n: nat, url: string, ghost base: State) returns (attempt: Attempt)
      requires Valid() && world.phase == Accepted(key, n, url)
      requires key.task in base && stateFile == Newest(base, key, NewAttempt(key, n))
      modifies this
      ensures Valid() && GoesOn(old(run), run) && refs == old(refs) && world.phase.Idle?
      ensures world.sessions == old(world).sessions && world.expiries == old(world).expiries
      ensures attempt == NewAttempt(key, n).(status := Submitted, taskUrl := Some(url))
      ensures stateFile == Newest(base, key, attempt)
    {
      hide Outcome, Inv;
      PromotedRecord(run, world, base, key, n, url);
      var attempts := List(stateFile, key);
      attempt := attempts[|attempts| - 1].(status := Submitted, taskUrl := Some(url));
      WriteState(Update(stateFile, key.task, key.stage, WithLast(attempts, attempt)));
    }

    /** The routine refused, so nothing started and the attempt is forgotten. */
    method Forget(key: Key, ghost n: nat, ghost base: State)
      requires Valid() && world.phase == Recorded(key, n) && key.stage == Audit
      requires key.task in base && stateFile == Newest(base, key, NewAttempt(key, n))
      modifies this
      ensures Valid() && GoesOn(old(run), run) && refs == old(refs) && world.phase.Idle?
      ensures world.sessions == old(world).sessions && world.expiries == old(world).expiries
      ensures stateFile == Update(base, key.task, key.stage, List(base, key))
    {
      hide Outcome, Inv;
      Take(Decline);
      DeclinedRecord(run, world, base, key, n);
      ghost var before := run;
      var attempts := List(stateFile, key);
      WriteState(Update(stateFile, key.task, key.stage, attempts[..|attempts| - 1]));
      GoesOnTransitive(old(run), before, run);
    }

    /** Hand the recorded attempt to the agent; a reply that cannot be read leaves it as it is. */
    method Send(key: Key, ghost n: nat, reply: Reply, ghost base: State) returns (attempt: Option<Attempt>)
      requires Valid()
      requires (world.phase == Pushed(key, n) && key.stage != Audit) || (world.phase == Recorded(key, n) && key.stage == Audit)
      requires key.task in base && stateFile == Newest(base, key, NewAttempt(key, n))
      modifies this
      ensures Valid() && GoesOn(old(run), run) && refs == old(refs) && world.phase.Idle?
      ensures world.expiries == old(world).expiries
      ensures world.sessions == old(world).sessions + if Starts(reply) then multiset{key} else multiset{}
      ensures attempt.Some? <==> reply.Answered?
      ensures
        if reply.Answered? then
          && attempt == Some(NewAttempt(key, n).(status := Submitted, taskUrl := Some(reply.url)))
          && stateFile == Newest(base, key, attempt.value)
        else if reply.Refuses? && key.stage == Audit then stateFile == Update(base, key.task, key.stage, List(base, key))
        else stateFile == Newest(base, key, NewAttempt(key, n))
    {
      attempt := None;
      match reply {
        case Refuses =>
          if key.stage == Audit {
            Forget(key, n, base);
          } else {
            // only the routine can refuse; for the other agent this is one more unreadable reply
            Take(Submit(false, None));
          }
        case Lost(started) =>
          Take(Submit(started, None));
        case Answered(url) =>
          Take(Submit(true, Some(url)));
          ghost var before := run;
          var promoted := Promote(key, n, url, base);
          attempt := Some(promoted);
          GoesOnTransitive(old(run), before, run);
      }
    }

    /**
      Submit a stage. Idempotence is scoped to the revision: a submitted attempt there is returned
      again, one with an uncertain outcome stands in the way, and otherwise a fresh attempt goes out.
     */
    method Stage(
      tracker: Tracker, task: TaskId, stage: Stage, configured: bool, tip: Option<Head>, pulls: Option<seq<Pull>>,
      number: Option<nat>, listable: bool, tries: seq<Try>, reply: Reply)
      returns (result: Result<Sent>, ghost sending: Sending)
      requires Valid() && world.phase.Idle?
      modifies this
      ensures Valid() && GoesOn(old(run), run) && world.phase.Idle?
      ensures world.expiries == old(world).expiries
      // a task that main does not list, or that is not claimed and prepared, is refused before anything happens
      ensures (forall t | t in tracker :: t.id != task) ==> result == Refused(404) && world == old(world)
      ensures (exists t :: t in tracker && t.id == task) && !Prepared(tracker, old(stateFile), task) ==>
        result == Refused(409) && world == old(world)
      ensures
        var choosable := Choosable(tracker, old(stateFile), task);
        var revision := Revision(stage, configured, tip, pulls, number);
        if choosable.Refused? then result == Refused(choosable.status) && world == old(world)
        else if revision.Refused? then result == Refused(revision.status) && world == old(world)
        else
          var key := Key(task, stage, revision.value);
          var attempts := List(old(stateFile), key);
          var live := LiveAttempt(attempts, key.head);
          if live.Some? then
            && world == old(world)
            && result == if attempts[live.value].status == Submitted then Ok(Sent(attempts[live.value], true)) else Refused(409)
          else if stage != Audit && !listable then result == Refused(502) && world == old(world)
          else
            && Dispatched(old(world), world, key, reply, sending, result)
            && (stage == Audit || Faultless(tries) ==> sending.pushed)
    {
      sending := Sending(false, 0);
      ChoosableMeans(tracker, stateFile, task);
      var choosable := Choosable(tracker, stateFile, task);
      if choosable.Refused? {
        return Refused(choosable.status), sending;
      }
      var revision := Revision(stage, configured, tip, pulls, number);
      if revision.Refused? {
        return Refused(revision.status), sending;
      }
      var key := Key(task, stage, revision.value);
      var attempts := List(stateFile, key);
      var live := LiveAttempt(attempts, key.head);
      if live.Some? {
        if attempts[live.value].status == Submitted {
          return Ok(Sent(attempts[live.value], true)), sending;
        }
        return Refused(409), sending;
      }
      if stage != Audit && !listable {
        return Refused(502), sending;
      }
      result, sending := SendFresh(key, tries, reply);
    }

    method SendFresh(key: Key, tries: seq<Try>, reply: Reply) returns (result: Result<Sent>, ghost sending: Sending)
      requires Valid() && world.phase.Idle? && key.task in stateFile
      requires LiveAttempt(List(stateFile, key), key.head).None?
      modifies this
      ensures Valid() && GoesOn(old(run), run) && world.phase.Idle?
      ensures world.expiries == old(world).expiries
      ensures Dispatched(old(world), world, key, reply, sending, result)
      ensures key.stage == Audit || Faultless(tries) ==> sending.pushed
    {
      hide Outcome, Inv;
      ghost var base := stateFile;
      var n := Begin(key);
      if key.stage != Audit {
        ghost var before := run;
        var taken, reached := PushStageBranch(key, n, tries, base);
        GoesOnTransitive(old(run), before, run);
        if taken.None? {
          before := run;
          SetAsidePush(key, reached, base);
          GoesOnTransitive(old(run), before, run);
          return Refused(502), Sending(false, reached);
        }
        n := taken.value;
      }
      ghost var before := run;
      var attempt := Send(key, n, reply, base);
      GoesOnTransitive(old(run), before, run);
      return if attempt.Some? then Ok(Sent(attempt.value, false)) else Refused(502), Sending(true, n);
    }

    /** Set a live submission aside, so that the stage can be sent again at the same revision. */
    method ExpireStage(tracker: Tracker, task: TaskId, stage: Option<Stage>, tip: Option<Head>) returns (result: Result<Key>)
      requires Valid() && world.phase.Idle?
      modifies this
      ensures Valid() && GoesOn(old(run), run) && refs == old(refs) && world.phase.Idle?
      ensures result == Expirable(tracker, old(stateFile), task, stage, tip)
      ensures result.Refused? ==> world == old(world)
      ensures stage.None? || (forall t | t in tracker :: t.id != task) ==> result == Refused(404)
      ensures stage.Some? && (exists t :: t in tracker && t.id == task) ==>
        var attempts := Attempts(old(stateFile), task, stage.value);
        if attempts == [] then result == Refused(409)
        else if stage.value != Audit then
          if tip.None? then result == Refused(502)
          else result == if LiveAttempt(attempts, tip.value).Some? then Ok(Key(task, stage.value, tip.value)) else Refused(409)
        else
          // an audit's newest submission, whatever its revision, unless it is expired already
          var last := attempts[|attempts| - 1];
          && result == (if last.status == Expired then Refused(409) else Ok(Key(task, Audit, last.head)))
          && LiveAttempt(attempts, last.head) == (if last.status == Expired then None else Some(|attempts| - 1))
      ensures result.Ok? ==>
        var key, attempts := result.value, List(old(stateFile), result.value);
        var i := LiveAttempt(attempts, key.head).value;
        && stateFile == Update(old(stateFile), key.task, key.stage, attempts[i := attempts[i].(status := Expired)])
        && LiveAttempt(List(stateFile, key), key.head).None?
        && world.sessions == old(world).sessions && world.expiries == old(world).expiries + multiset{key}
    {
      hide Outcome, Update, LiveAttempt;
      if stage.None? || Find(tracker, task).None? {
        return Refused(404);
      }
      var attempts := Attempts(stateFile, task, stage.value);
      if attempts == [] {
        return Refused(409);
      }
      if stage.value != Audit && tip.None? {
        return Refused(502);
      }
      var head := if stage.value == Audit then attempts[|attempts| - 1].head else tip.value;
      LastDecides(attempts);
      var live := LiveAttempt(attempts, head);
      if live.None? {
        return Refused(409);
      }
      SetAsideLive(Key(task, stage.value, head), live.value);
      return Ok(Key(task, stage.value, head));
    }

    /** The live attempt is marked as expired and the state saved. */
    method SetAsideLive(key: Key, i: nat)
      requires Valid() && world.phase.Idle? && LiveAttempt(List(stateFile, key), key.head) == Some(i)
      modifies this
      ensures Valid() && GoesOn(old(run), run) && refs == old(refs) && world.phase.Idle?
      ensures
        var attempts := List(old(stateFile), key);
        stateFile == Update(old(stateFile), key.task, key.stage, attempts[i := attempts[i].(status := Expired)])
      ensures LiveAttempt(List(stateFile, key), key.head).None?
      ensures world.sessions == old(world).sessions && world.expiries == old(world).expiries + multiset{key}
    {
      hide Outcome, Inv, LiveAttempt;
      var attempts := List(stateFile, key);
      NothingLive(attempts, key.head, i);
      UpdateAttempts(stateFile, key.task, key.stage, attempts[i := attempts[i].(status := Expired)]);
      Take(Action.ExpireStage(key));
      stateFile := Update(stateFile, key.task, key.stage, attempts[i := attempts[i].(status := Expired)]);
    }

    /** Delete refs; a push that fails has kept some, and one that kept none may still fail. */
    method DeleteRefs(names: set<string>, failing: Option<set<string>>) returns (done: bool)
      requires Valid()
      modifies this
      ensures Valid() && GoesOn(old(run), run) && stateFile == old(stateFile)
      ensures world == old(world).(refs := refs)
      ensures done == failing.None?
      ensures refs == old(refs) - (if done then names else names - failing.value)
    {
      hide Outcome, Inv;
      var rest := if failing.None? then names else names - failing.value;
      ghost var all := rest;
      while rest != {}
        invariant Valid() && GoesOn(old(run), run) && stateFile == old(stateFile)
        invariant rest <= all && world == old(world).(refs := refs)
        invariant refs == old(refs) - (all - rest)
        decreases rest
      {
        var name :| name in rest;
        ghost var before := run;
        Take(DeleteRef(name));
        refs := refs - {name};
        GoesOnTransitive(old(run), before, run);
        rest := rest - {name};
      }
      assert all - {} == all;
      return failing.None?;
    }

    /**
      Release a reservation: its branches go first, then every submission is set aside. A failure
      to delete leaves the state file as it was.
     */
    method Expire(tracker: Tracker, task: TaskId, stages: Option<set<string>>, whole: Option<set<string>>)
      returns (result: Result<TaskId>)
      requires Valid() && world.phase.Idle?
      modifies this
      ensures Valid() && GoesOn(old(run), run) && world.phase.Idle?
      ensures world.sessions == old(world).sessions
      ensures (forall t | t in tracker :: t.id != task) ==> result == Refused(404) && world == old(world)
      ensures (exists t :: t in tracker && t.id == task) && !Reserved(tracker, old(stateFile), task) ==>
        result == Refused(409) && world == old(world)
      // released: only this record changes, its submissions are marked and kept, and origin loses only the task's refs
      ensures result.Ok? ==>
        && task in stateFile && ReleasedRecord(old(stateFile)[task], stateFile[task])
        && stateFile - {task} == old(stateFile) - {task}
        && (forall name :: name in refs <==> name in old(refs) && !OwnRef(task, name))
        && forall name | name in refs :: refs[name] == old(refs)[name]
      ensures
        var releasable := Releasable(tracker, old(stateFile), task);
        if releasable.Refused? then result == Refused(releasable.status) && world == old(world)
        else if stages.Some? || whole.Some? then
          && result == Refused(502) && stateFile == old(stateFile) && world.expiries == old(world).expiries
          && LostOnly(old(refs), refs, StageBranches(old(refs), task) + {TaskBranch(task)})
        else
          && result == Ok(task)
          && refs == Removed(old(refs), task)
          && stateFile == old(stateFile)[task := ExpiredRecord(old(stateFile)[task])]
          && world.expiries == old(world).expiries + AllSetAside(task, old(stateFile))
    {
      hide Outcome, Inv, Removed, ExpiredRecord, ReleasedRecord, Reserved, OwnRef, AllSetAside, LostOnly;
      ReleasableMeans(tracker, stateFile, task);
      var releasable := Releasable(tracker, stateFile, task);
      if releasable.Refused? {
        return Refused(releasable.status);
      }
      RemovedMeans(refs, task);
      ReleasedMeans(stateFile[task]);
      result := Release(task, stages, whole);
    }

    method Release(task: TaskId, stages: Option<set<string>>, whole: Option<set<string>>) returns (result: Result<TaskId>)
      requires Valid() && world.phase.Idle? && task in stateFile
      modifies this
      ensures Valid() && GoesOn(old(run), run) && world.phase.Idle? && world.sessions == old(world).sessions
      ensures
        if stages.Some? || whole.Some? then
          && result == Refused(502) && stateFile == old(stateFile) && world.expiries == old(world).expiries
          && LostOnly(old(refs), refs, StageBranches(old(refs), task) + {TaskBranch(task)})
        else
          && result == Ok(task)
          && refs == Removed(old(refs), task)
          && stateFile == old(stateFile)[task := ExpiredRecord(old(stateFile)[task])]
          && world.expiries == old(world).expiries + AllSetAside(task, old(stateFile))
    {
      hide Outcome, Inv, StageBranches, ExpiredRecord, AllSetAside, TaskBranch;
      var done := DeleteRefs(StageBranches(refs, task), stages);
      if !done {
        return Refused(502);
      }
      ghost var before := run;
      done := DeleteRefs({TaskBranch(task)}, whole);
      GoesOnTransitive(old(run), before, run);
      if !done {
        return Refused(502);
      }
      before := run;
      Take(ExpireTask(task));
      stateFile := stateFile[task := ExpiredRecord(stateFile[task])];
      GoesOnTransitive(old(run), before, run);
      return Ok(task);
    }
  }

  /** Whether a reply means that a session exists. */
  ghost predicate Starts(reply: Reply) {
    match reply
    case Answered(_) => true
    case Refuses => false
    case Lost(started) => started
  }

  /**
    The panel may die at any point of an operation: what it recorded up to there is a run of the
    machine, on which dispatches are paid for, and dying leaves that point's state file.
   */
  lemma {:induction false} DiesAnywhere(point: Run, end: Run, key: Key)
    requires GoesOn(point, end) && Outcome(end).Some?
    ensures Outcome(point).Some? && Outcome(Then(point, Crash)).Some?
    ensures
      var w, after := Outcome(point).value, Outcome(Then(point, Crash)).value;
      && w.sessions[key] <= 1 + w.expiries[key]
      && after.disk == after.memory == w.disk && after.phase.Idle?
  {
    if point == end {
      AtMostOnce(point, key);
    } else {
      DiesAnywhere(point, end.before, key);
    }
  }

  /** After a task is expired no attempt of it is live, and none of its stages may be chosen. */
  lemma ExpiredTaskIsClosed(tracker: Tracker, state: State, task: TaskId, stage: Stage, head: Head)
    requires task in state
    ensures
      var expired := state[task := ExpiredRecord(state[task])];
      && LiveAttempt(Attempts(expired, task, stage), head).None?
      && Choosable(tracker, expired, task).Refused?
      && forall other, s | other != task :: Attempts(expired, other, s) == Attempts(state, other, s)
  {
  }

  /** Whether a dispatch's branch was pushed, where it has one, and the number it came to. */
  datatype Sending = Sending(pushed: bool, number: nat)

  /**
    How a dispatch that went out changed the world. The state file gained exactly one attempt, at the
    revision and under its number, and otherwise stayed as it was: set aside when the push failed,
    submitted with the agent's address when it answered, and waiting when no reply could be read. A
    refusal by the routine takes it back. A session was started for an answer, and for an unreadable
    reply that came after acceptance.
   */
  ghost predicate Dispatched(before: World, after: World, key: Key, reply: Reply, sending: Sending, result: Result<Sent>) {
    var branch := if key.stage == Audit then None else Some(StageBranch(key.stage.Name(), key.task, sending.number));
    && key.task in before.disk
    && if !sending.pushed then
         && key.stage != Audit && result == Refused(502) && after.sessions == before.sessions
         && after.disk == Newest(before.disk, key, Attempt(Expired, key.head, branch, None, true))
       else
         && (branch.Some? ==> branch.value in after.refs && after.refs[branch.value] == key.head)
         && match reply
            case Answered(url) =>
              var attempt := Attempt(Submitted, key.head, branch, Some(url), false);
              && result == Ok(Sent(attempt, false)) && after.sessions == before.sessions + multiset{key}
              && after.disk == Newest(before.disk, key, attempt)
            case Refuses =>
              && result == Refused(502) && after.sessions == before.sessions
              && after.disk == (if key.stage == Audit then Update(before.disk, key.task, key.stage, List(before.disk, key))
                                else Newest(before.disk, key, Attempt(Submitting, key.head, branch, None, false)))
            case Lost(started) =>
              && result == Refused(502)
              && after.sessions == (if started then before.sessions + multiset{key} else before.sessions)
              && after.disk == Newest(before.disk, key, Attempt(Submitting, key.head, branch, None, false))
  }
}
