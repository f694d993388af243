/** When a migrated state file is one that the dispatch machine may start from. */
module MigratedStart {
  import opened Wrappers
  import opened Records
  import opened Migration
  import opened Dispatch
  import opened DispatchProofs

  // ----- The sort is stable -----

  ghost predicate Ahead(flat: Flat, x: Entry, y: Entry) {
    exists a, b :: 0 <= a < b < |flat| && flat[a] == x && flat[b] == y
  }

  /** Updated earlier, or at the same time and ahead in the file. */
  ghost predicate Earlier(flat: Flat, x: Entry, y: Entry) {
    x.value.updatedAt < y.value.updatedAt || (x.value.updatedAt == y.value.updatedAt && Ahead(flat, x, y))
  }

  lemma EarlierInMore(entry: Entry, rest: Flat, x: Entry, y: Entry)
    requires Earlier(rest, x, y)
    ensures Earlier([entry] + rest, x, y)
  {
    if Ahead(rest, x, y) {
      var a, b :| 0 <= a < b < |rest| && rest[a] == x && rest[b] == y;
      assert ([entry] + rest)[a + 1] == x && ([entry] + rest)[b + 1] == y;
    }
  }

  lemma FirstIsAhead(entry: Entry, rest: Flat, y: Entry)
    requires y in rest
    ensures Ahead([entry] + rest, entry, y)
  {
    var b :| 0 <= b < |rest| && rest[b] == y;
    assert ([entry] + rest)[0] == entry && ([entry] + rest)[b + 1] == y;
  }

  ghost predicate Stable(flat: Flat, sorted: Flat) {
    forall i, j | 0 <= i < j < |sorted| :: Earlier(flat, sorted[i], sorted[j])
  }

  /** Two positions of a list into which an entry was put at `p`. */
  lemma PutIsStable(entry: Entry, rest: Flat, sorted: Flat, all: Flat, p: nat, i: nat, j: nat)
    requires p <= |sorted| && all == sorted[..p] + [entry] + sorted[p..] && i < j < |all|
    requires Stable(rest, sorted) && forall e | e in sorted :: e in rest
    requires forall k | 0 <= k < p :: sorted[k].value.updatedAt < entry.value.updatedAt
    requires forall k | p <= k < |sorted| :: entry.value.updatedAt <= sorted[k].value.updatedAt
    ensures Earlier([entry] + rest, all[i], all[j])
  {
    if i == p {
      assert all[j] == sorted[j - 1] && sorted[j - 1] in sorted;
      FirstIsAhead(entry, rest, all[j]);
    } else if j == p {
      assert all[i] == sorted[i];
    } else {
      var i', j' := if i < p then i else i - 1, if j < p then j else j - 1;
      assert all[i] == sorted[i'] && all[j] == sorted[j'];
      EarlierInMore(entry, rest, all[i], all[j]);
    }
  }

  lemma InsertIsStable(entry: Entry, rest: Flat, sorted: Flat)
    requires InOrder(sorted) && Stable(rest, sorted) && forall e | e in sorted :: e in rest
    ensures Stable([entry] + rest, Insert(entry, sorted))
  {
    hide Insert, Earlier;
    var p := InsertAt(entry, sorted);
    var all := Insert(entry, sorted);
    forall i, j | 0 <= i < j < |all| ensures Earlier([entry] + rest, all[i], all[j]) {
      PutIsStable(entry, rest, sorted, all, p, i, j);
    }
  }

  lemma {:induction false} SortIsStable(flat: Flat)
    ensures Stable(flat, Sort(flat))
  {
    if flat == [] {
    } else {
      var rest := flat[1..];
      SortIsStable(rest);
      SortKeeps(rest);
      InsertIsStable(flat[0], rest, Sort(rest));
      assert flat == [flat[0]] + rest;
    }
  }

  /** With distinct keys the order of the sorted list is exactly that of the times, ties in the file's order. */
  lemma SortedOrder(flat: Flat, i: nat, j: nat)
    requires UniqueKeys(flat) && i < |Sort(flat)| && j < |Sort(flat)|
    ensures i < j <==> Earlier(flat, Sort(flat)[i], Sort(flat)[j])
  {
    SortIsStable(flat);
    SortKeeps(flat);
    var x, y := Sort(flat)[i], Sort(flat)[j];
    if j <= i && Earlier(flat, x, y) {
      if i == j {
        NotAheadBoth(flat, x, x);
      } else {
        assert Earlier(flat, y, x);
        NotAheadBoth(flat, x, y);
      }
      assert false;
    }
  }

  lemma NotAheadBoth(flat: Flat, x: Entry, y: Entry)
    requires UniqueKeys(flat)
    ensures !(Ahead(flat, x, y) && Ahead(flat, y, x))
  {
  }

  // ----- Numbers along a migrated stage -----

  function NumberIn(task: TaskId, stage: Stage, entry: Entry): Option<nat> {
    NumberOf(task, stage, AttemptOf(NestedOf(entry)))
  }

  /** Among a stage's submissions, the later updated has the greater number. */
  ghost predicate NumbersRise(task: TaskId, stage: Stage, flat: Flat) {
    forall x, y | x in flat && y in flat && StageOf(x) == StageOf(y) == stage.Name() && Earlier(flat, x, y) ::
      Below(NumberIn(task, stage, x), NumberIn(task, stage, y))
  }

  predicate Below(n: Option<nat>, m: Option<nat>) { n.Some? && m.Some? ==> n.value < m.value }

  function StageAttemptsOf(flat: Flat, stage: Stage): seq<Attempt> { AttemptsOf(OfStage(Sort(flat), stage.Name())) }

  lemma RisingIsIncreasing(task: TaskId, stage: Stage, flat: Flat)
    requires UniqueKeys(flat) && NumbersRise(task, stage, flat)
    ensures Increasing(task, stage, StageAttemptsOf(flat, stage))
  {
    hide Sort, OfStage, Earlier, NumberOf;
    var sorted, list, attempts := Sort(flat), OfStage(Sort(flat), stage.Name()), StageAttemptsOf(flat, stage);
    SortKeeps(flat);
    PlacesFit(sorted, stage.Name());
    forall k, l | 0 <= k < l < |attempts|
      ensures Below(NumberOf(task, stage, attempts[k]), NumberOf(task, stage, attempts[l]))
    {
      var i, j := Places(sorted, stage.Name())[k], Places(sorted, stage.Name())[l];
      assert sorted[i] in sorted && sorted[j] in sorted;
      SortedOrder(flat, i, j);
      assert attempts[k] == AttemptOf(NestedOf(sorted[i])) && attempts[l] == AttemptOf(NestedOf(sorted[j]));
    }
  }

  lemma IncreasingIsRising(task: TaskId, stage: Stage, flat: Flat)
    requires UniqueKeys(flat) && Increasing(task, stage, StageAttemptsOf(flat, stage))
    ensures NumbersRise(task, stage, flat)
  {
    hide Sort, OfStage, Earlier, NumberOf;
    var sorted, attempts := Sort(flat), StageAttemptsOf(flat, stage);
    SortKeeps(flat);
    forall x, y | x in flat && y in flat && StageOf(x) == StageOf(y) == stage.Name() && Earlier(flat, x, y)
      ensures Below(NumberIn(task, stage, x), NumberIn(task, stage, y))
    {
      assert x in sorted && y in sorted;
      var i :| 0 <= i < |sorted| && sorted[i] == x;
      var j :| 0 <= j < |sorted| && sorted[j] == y;
      SortedOrder(flat, i, j);
      var k, l := EntriesAppear(sorted, stage.Name(), i, j);
      assert attempts[k] == AttemptOf(NestedOf(x)) && attempts[l] == AttemptOf(NestedOf(y));
    }
  }

  /** A migrated stage lists its branches by increasing number exactly when the file's numbers rise with its times. */
  lemma MigratedNumbers(task: TaskId, stage: Stage, flat: Flat)
    requires UniqueKeys(flat)
    ensures Increasing(task, stage, StageAttemptsOf(flat, stage)) <==> NumbersRise(task, stage, flat)
  {
    if NumbersRise(task, stage, flat) { RisingIsIncreasing(task, stage, flat); }
    if Increasing(task, stage, StageAttemptsOf(flat, stage)) { IncreasingIsRising(task, stage, flat); }
  }

  /** A first submission, at one revision and under number 1, that was updated after the second. */
  function FirstUpdatedLate(task: TaskId, head: Head): Entry {
    Entry("refine" + ":" + head, Submission(None, Expired, BranchOf(Key(task, Refine, head), 1), None, false, 2))
  }

  function Second(task: TaskId, head: Head): Entry {
    Entry("refine" + ":" + head, Submission(None, Submitted, BranchOf(Key(task, Refine, head), 2), None, false, 1))
  }

  lemma ItsStageAndNumber(task: TaskId, entry: Entry, head: Head, n: nat)
    requires entry.key == "refine" + ":" + head && entry.value.stage.None?
    requires entry.value.branch == BranchOf(Key(task, Refine, head), n)
    ensures StageOf(entry) == "refine" && NumberIn(task, Refine, entry) == Some(n)
  {
    hide Before, After;
    FirstColon("refine", head);
    NewNumber(Key(task, Refine, head), n);
  }

  /** It comes behind the second when the file is migrated, and the numbers fall. */
  lemma LateUpdateSwaps(task: TaskId, a: Head, b: Head)
    requires a != b
    ensures
      var flat := [FirstUpdatedLate(task, a), Second(task, b)];
      UniqueKeys(flat) && !Increasing(task, Refine, StageAttemptsOf(flat, Refine))
  {
    hide StageOf, NumberIn, StageAttemptsOf, Increasing, BranchOf;
    var x, y := FirstUpdatedLate(task, a), Second(task, b);
    ItsStageAndNumber(task, x, a, 1);
    ItsStageAndNumber(task, y, b, 2);
    assert x.key[|"refine" + ":"|..] == a && y.key[|"refine" + ":"|..] == b;
    LaterIsBehind(task, x, y);
  }

  lemma LaterIsBehind(task: TaskId, x: Entry, y: Entry)
    requires x.key != y.key && StageOf(x) == StageOf(y) == "refine" && y.value.updatedAt < x.value.updatedAt
    requires NumberIn(task, Refine, x) == Some(1) && NumberIn(task, Refine, y) == Some(2)
    ensures UniqueKeys([x, y]) && !Increasing(task, Refine, StageAttemptsOf([x, y], Refine))
  {
    hide StageOf, NumberIn, StageAttemptsOf;
    MigratedNumbers(task, Refine, [x, y]);
    assert x in [x, y] && y in [x, y] && Earlier([x, y], y, x);
    assert !Below(NumberIn(task, Refine, y), NumberIn(task, Refine, x));
  }

  // ----- The migrated file -----

  /** A record of version 1: its submissions are flat. */
  datatype FlatRecord = FlatRecord(record: TaskRecord, flat: Flat)

  function MigratedStages(flat: Flat): map<Stage, seq<Attempt>> {
    map stage | stage in {Refine, Implement, Audit} && OfStage(Sort(flat), stage.Name()) != [] :: StageAttemptsOf(flat, stage)
  }

  function Migrated(file: map<TaskId, FlatRecord>): State {
    map id | id in file :: file[id].record.(stages := MigratedStages(file[id].flat))
  }

  ghost predicate Sound(task: TaskId, flat: Flat) {
    && UniqueKeys(flat) && AllAgree(flat) && NoCollision(flat)
    && forall stage: Stage :: NumbersRise(task, stage, flat)
  }

  lemma MigratedAttempts(file: map<TaskId, FlatRecord>, task: TaskId, stage: Stage)
    requires task in file
    ensures Attempts(Migrated(file), task, stage) == StageAttemptsOf(file[task].flat, stage)
  {
    assert stage in {Refine, Implement, Audit} by {
      match stage case Refine => case Implement => case Audit =>
    }
    assert OfStage(Sort(file[task].flat), stage.Name()) == [] ==> StageAttemptsOf(file[task].flat, stage) == [];
  }

  /** A version 1 file with sound records migrates to a state file the panel may start on. */
  lemma MigratedFileStarts(file: map<TaskId, FlatRecord>, refs: Refs)
    requires forall task | task in file :: Sound(task, file[task].flat)
    ensures AllOrderly(Migrated(file))
    ensures
      var world := World(Migrated(file), Migrated(file), refs, Idle, multiset{}, multiset{}, []);
      Outcome(Start(world)) == Some(world)
  {
    forall task, stage ensures Orderly(task, stage, Attempts(Migrated(file), task, stage)) {
      if task in file {
        MigratedAttempts(file, task, stage);
        assert Sound(task, file[task].flat);
        MigrationEstablishesInvariant(file[task].flat, stage.Name());
        MigratedNumbers(task, stage, file[task].flat);
      }
    }
    FreshStart(Migrated(file), refs);
  }
}
