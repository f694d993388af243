/** Upgrading version 1 of the state file, which kept every submission of a task in one flat map. */
module Migration {
  import opened Wrappers
  import opened Records

  /** A version 1 submission: its stage may be written out, or only be part of its key. */
  datatype Submission = Submission(
    stage: Option<string>, status: AttemptStatus, branch: Option<string>, taskUrl: Option<string>, pushFailed: bool,
    updatedAt: nat)

  /** A flat map entry, in the order the file holds them; keys are distinct. */
  datatype Entry = Entry(key: string, value: Submission)

  /** A version 2 submission carries its revision and has lost its stage. */
  datatype Nested = Nested(
    head: Head, status: AttemptStatus, branch: Option<string>, taskUrl: Option<string>, pushFailed: bool, updatedAt: nat)

  type Flat = seq<Entry>
  type NestedStages = map<string, seq<Nested>>

  ghost predicate UniqueKeys(flat: Flat) {
    forall i, j | 0 <= i < j < |flat| :: flat[i].key != flat[j].key
  }

  // ----- Reading a key -----

  /** The text before the first colon; the whole key when there is none. */
  function Before(key: string): string {
    if key == "" || key[0] == ':' then "" else [key[0]] + Before(key[1..])
  }

  function After(key: string): string {
    if key == "" then "" else if key[0] == ':' then key[1..] else After(key[1..])
  }

  lemma {:induction false} KeyParts(key: string)
    ensures if ':' in key then key == Before(key) + ":" + After(key) else key == Before(key) && After(key) == ""
    ensures ':' !in Before(key)
  {
    if key == "" {
    } else if key[0] == ':' {
      assert key == "" + ":" + key[1..];
    } else {
      KeyParts(key[1..]);
      assert key == [key[0]] + key[1..];
    }
  }

  function StageOf(entry: Entry): string {
    if entry.value.stage.Some? then entry.value.stage.value else Before(entry.key)
  }

  function NestedOf(entry: Entry): Nested {
    var record := entry.value;
    Nested(After(entry.key), record.status, record.branch, record.taskUrl, record.pushFailed, record.updatedAt)
  }

  // ----- Stable sort by the time of the last update -----

  function Insert(entry: Entry, sorted: Flat): Flat {
    if sorted == [] || entry.value.updatedAt <= sorted[0].value.updatedAt then [entry] + sorted
    else [sorted[0]] + Insert(entry, sorted[1..])
  }

  function Sort(flat: Flat): Flat {
    if flat == [] then [] else Insert(flat[0], Sort(flat[1..]))
  }

  ghost predicate InOrder(flat: Flat) {
    forall i, j | 0 <= i < j < |flat| :: flat[i].value.updatedAt <= flat[j].value.updatedAt
  }

  /** Every submission, tagged with the stage it belongs to. */
  function Tagged(flat: Flat): multiset<(string, Nested)> {
    if flat == [] then multiset{} else multiset{(StageOf(flat[0]), NestedOf(flat[0]))} + Tagged(flat[1..])
  }

  lemma {:induction false} InsertKeeps(entry: Entry, sorted: Flat)
    ensures Tagged(Insert(entry, sorted)) == multiset{(StageOf(entry), NestedOf(entry))} + Tagged(sorted)
    ensures forall e :: e in Insert(entry, sorted) <==> e == entry || e in sorted
  {
    if sorted == [] || entry.value.updatedAt <= sorted[0].value.updatedAt {
      assert ([entry] + sorted)[1..] == sorted;
    } else {
      InsertKeeps(entry, sorted[1..]);
      assert Insert(entry, sorted)[1..] == Insert(entry, sorted[1..]);
      assert forall e :: e in sorted <==> e == sorted[0] || e in sorted[1..];
    }
  }

  /** An entry goes before the first that is not older. */
  lemma {:induction false} InsertAt(entry: Entry, sorted: Flat) returns (p: nat)
    requires InOrder(sorted)
    ensures p <= |sorted| && Insert(entry, sorted) == sorted[..p] + [entry] + sorted[p..]
    ensures forall i | 0 <= i < p :: sorted[i].value.updatedAt < entry.value.updatedAt
    ensures forall i | p <= i < |sorted| :: entry.value.updatedAt <= sorted[i].value.updatedAt
  {
    if sorted == [] || entry.value.updatedAt <= sorted[0].value.updatedAt {
      p := 0;
    } else {
      var q := InsertAt(entry, sorted[1..]);
      p := q + 1;
      assert sorted[..p] == [sorted[0]] + sorted[1..][..q] && sorted[p..] == sorted[1..][q..];
      assert forall i | 0 < i < |sorted| :: sorted[i] == sorted[1..][i - 1];
    }
  }

  lemma InsertOrders(entry: Entry, sorted: Flat)
    requires InOrder(sorted)
    ensures InOrder(Insert(entry, sorted))
  {
    hide Insert;
    var p := InsertAt(entry, sorted);
  }

  lemma InsertUnique(entry: Entry, sorted: Flat)
    requires InOrder(sorted) && UniqueKeys(sorted) && forall e | e in sorted :: e.key != entry.key
    ensures UniqueKeys(Insert(entry, sorted))
  {
    hide Insert;
    var p := InsertAt(entry, sorted);
    assert forall i | 0 <= i < |sorted| :: sorted[i] in sorted;
  }

  lemma {:induction false} SortKeeps(flat: Flat)
    ensures Tagged(Sort(flat)) == Tagged(flat)
    ensures forall e :: e in Sort(flat) <==> e in flat
    ensures InOrder(Sort(flat))
    ensures UniqueKeys(flat) ==> UniqueKeys(Sort(flat))
  {
    if flat == [] {
    } else {
      SortKeeps(flat[1..]);
      InsertKeeps(flat[0], Sort(flat[1..]));
      InsertOrders(flat[0], Sort(flat[1..]));
      assert forall e :: e in flat <==> e == flat[0] || e in flat[1..];
      if UniqueKeys(flat) {
        assert forall e | e in flat[1..] :: e.key != flat[0].key;
        InsertUnique(flat[0], Sort(flat[1..]));
      }
    }
  }

  // ----- Nesting -----

  /** The submissions of one stage, in the order of `flat`. */
  function OfStage(flat: Flat, stage: string): seq<Nested> {
    if flat == [] then [] else
      var front, last := flat[..|flat| - 1], flat[|flat| - 1];
      OfStage(front, stage) + if StageOf(last) == stage then [NestedOf(last)] else []
  }

  lemma OfStageAppend(flat: Flat, entry: Entry, stage: string)
    ensures OfStage(flat + [entry], stage) ==
      OfStage(flat, stage) + if StageOf(entry) == stage then [NestedOf(entry)] else []
  {
    assert (flat + [entry])[..|flat|] == flat;
  }

  /** Where the submissions of a stage come from. */
  function Places(flat: Flat, stage: string): seq<nat> {
    if flat == [] then [] else
      Places(flat[..|flat| - 1], stage) + if StageOf(flat[|flat| - 1]) == stage then [|flat| - 1] else []
  }

  ghost predicate Fits(flat: Flat, stage: string, places: seq<nat>, list: seq<Nested>) {
    && |places| == |list|
    && (forall k | 0 <= k < |places| ::
          places[k] < |flat| && StageOf(flat[places[k]]) == stage && list[k] == NestedOf(flat[places[k]]))
    && (forall k, l | 0 <= k < l < |places| :: places[k] < places[l])
    && (forall i | 0 <= i < |flat| && StageOf(flat[i]) == stage :: i in places)
  }

  lemma FitsMore(flat: Flat, entry: Entry, stage: string, places: seq<nat>, list: seq<Nested>)
    requires Fits(flat, stage, places, list)
    ensures
      if StageOf(entry) == stage then Fits(flat + [entry], stage, places + [|flat|], list + [NestedOf(entry)])
      else Fits(flat + [entry], stage, places, list)
  {
    assert forall i | 0 <= i < |flat| :: (flat + [entry])[i] == flat[i];
  }

  lemma {:induction false} PlacesFit(flat: Flat, stage: string)
    ensures Fits(flat, stage, Places(flat, stage), OfStage(flat, stage))
  {
    if flat == [] {
    } else {
      var front, last := flat[..|flat| - 1], flat[|flat| - 1];
      PlacesFit(front, stage);
      FitsMore(front, last, stage, Places(front, stage), OfStage(front, stage));
      assert front + [last] == flat;
    }
  }

  /** `nested` holds exactly the stages that occur, each with its submissions in order. */
  ghost predicate Nests(flat: Flat, nested: NestedStages) {
    && (forall stage | stage in nested :: nested[stage] == OfStage(flat, stage) != [])
    && (forall stage | stage !in nested :: OfStage(flat, stage) == [])
  }

  lemma NestOne(flat: Flat, entry: Entry, nested: NestedStages)
    requires Nests(flat, nested)
    ensures
      var stage := StageOf(entry);
      Nests(flat + [entry], nested[stage := (if stage in nested then nested[stage] else []) + [NestedOf(entry)]])
  {
    forall stage { OfStageAppend(flat, entry, stage); }
  }

  /** Each sorted submission is appended to its stage's list. */
  method NestStages(flat: Flat) returns (nested: NestedStages)
    ensures Nests(Sort(flat), nested)
  {
    hide Sort, StageOf, NestedOf;
    var sorted := Sort(flat);
    nested := map[];
    for i := 0 to |sorted|
      invariant Nests(sorted[..i], nested)
    {
      var stage := StageOf(sorted[i]);
      NestOne(sorted[..i], sorted[i], nested);
      nested := nested[stage := (if stage in nested then nested[stage] else []) + [NestedOf(sorted[i])]];
      assert sorted[..i + 1] == sorted[..i] + [sorted[i]];
    }
    assert sorted[..|sorted|] == sorted;
  }

  /**
    Where an entry goes: under the stage its record writes out, or else the part of its key before the
    first colon, at the revision the rest of the key names, and with every other field as it was.
   */
  lemma EntryMeans(entry: Entry, stage: string, head: Head)
    requires ':' !in stage && entry.key == stage + ":" + head
    ensures StageOf(entry) == if entry.value.stage.Some? then entry.value.stage.value else stage
    ensures
      var was := entry.value;
      NestedOf(entry) == Nested(head, was.status, was.branch, was.taskUrl, was.pushFailed, was.updatedAt)
  {
    FirstColon(stage, head);
  }

  lemma {:induction false} FirstColon(stage: string, head: Head)
    requires ':' !in stage
    ensures Before(stage + ":" + head) == stage && After(stage + ":" + head) == head
  {
    var key := stage + ":" + head;
    if stage == "" {
      assert key[0] == ':' && key[1..] == head;
    } else {
      assert key[1..] == stage[1..] + ":" + head;
      FirstColon(stage[1..], head);
    }
  }

  /** Every entry of the file has its place under its stage in what the migration builds. */
  lemma EveryEntryNested(flat: Flat, nested: NestedStages, i: nat)
    requires Nests(Sort(flat), nested) && i < |flat|
    ensures StageOf(flat[i]) in nested && NestedOf(flat[i]) in nested[StageOf(flat[i])]
  {
    hide Sort, OfStage;
    var stage, sorted := StageOf(flat[i]), Sort(flat);
    SortKeeps(flat);
    assert flat[i] in flat && flat[i] in sorted;
    var j :| 0 <= j < |sorted| && sorted[j] == flat[i];
    PlacesFit(sorted, stage);
    var places := Places(sorted, stage);
    assert j in places;
    var k :| 0 <= k < |places| && places[k] == j;
    assert OfStage(sorted, stage)[k] == NestedOf(flat[i]);
  }

  // ----- What migration keeps and establishes -----

  lemma {:induction false} TaggedAppend(flat: Flat, entry: Entry)
    ensures Tagged(flat + [entry]) == Tagged(flat) + multiset{(StageOf(entry), NestedOf(entry))}
  {
    if flat == [] {
      assert [entry][1..] == [];
    } else {
      assert (flat + [entry])[1..] == flat[1..] + [entry];
      TaggedAppend(flat[1..], entry);
    }
  }

  lemma CountOne(entry: Entry, stage: string, n: Nested, own: seq<Nested>)
    requires own == if StageOf(entry) == stage then [NestedOf(entry)] else []
    ensures multiset(own)[n] == multiset{(StageOf(entry), NestedOf(entry))}[(stage, n)]
  {
  }

  lemma CountNone(stage: string, n: Nested)
    ensures multiset(OfStage([], stage))[n] == Tagged([])[(stage, n)]
  {
  }

  lemma CountMore(flat: Flat, entry: Entry, stage: string, n: Nested)
    requires multiset(OfStage(flat, stage))[n] == Tagged(flat)[(stage, n)]
    ensures multiset(OfStage(flat + [entry], stage))[n] == Tagged(flat + [entry])[(stage, n)]
  {
    hide Tagged, OfStage, StageOf, NestedOf;
    var own := if StageOf(entry) == stage then [NestedOf(entry)] else [];
    TaggedAppend(flat, entry);
    OfStageAppend(flat, entry, stage);
    assert multiset(OfStage(flat, stage) + own) == multiset(OfStage(flat, stage)) + multiset(own);
    CountOne(entry, stage, n, own);
  }

  lemma {:induction false} CountInStage(flat: Flat, stage: string, n: Nested)
    ensures multiset(OfStage(flat, stage))[n] == Tagged(flat)[(stage, n)]
  {
    hide Tagged, OfStage, StageOf, NestedOf;
    if flat == [] {
      CountNone(stage, n);
    } else {
      var front, last := flat[..|flat| - 1], flat[|flat| - 1];
      CountInStage(front, stage, n);
      CountMore(front, last, stage, n);
      assert front + [last] == flat;
    }
  }

  lemma OfStageInOrder(flat: Flat, stage: string)
    requires InOrder(flat)
    ensures forall i, j | 0 <= i < j < |OfStage(flat, stage)| ::
      OfStage(flat, stage)[i].updatedAt <= OfStage(flat, stage)[j].updatedAt
  {
    PlacesFit(flat, stage);
  }

  /** Every submission is kept exactly once under its stage, and each stage is ordered by time. */
  lemma MigrationConserves(flat: Flat, stage: string, n: Nested)
    ensures multiset(OfStage(Sort(flat), stage))[n] == Tagged(flat)[(stage, n)]
    ensures forall i, j | 0 <= i < j < |OfStage(Sort(flat), stage)| ::
      OfStage(Sort(flat), stage)[i].updatedAt <= OfStage(Sort(flat), stage)[j].updatedAt
  {
    SortKeeps(flat);
    CountInStage(Sort(flat), stage, n);
    OfStageInOrder(Sort(flat), stage);
  }

  /** A record that writes its stage out agrees with its key. */
  predicate Agrees(entry: Entry) { StageOf(entry) == Before(entry.key) }

  ghost predicate AllAgree(flat: Flat) { forall i | 0 <= i < |flat| :: Agrees(flat[i]) }

  /** Two different keys that read alike: one has no colon, the other is the same with one at its end. */
  predicate Collide(a: string, b: string) { ':' !in a && b == a + ":" }

  ghost predicate NoCollision(flat: Flat) {
    forall i, j | 0 <= i < |flat| && 0 <= j < |flat| :: !Collide(flat[i].key, flat[j].key)
  }

  ghost predicate HeadsOnce(list: seq<Nested>) { forall i, j | 0 <= i < j < |list| :: list[i].head != list[j].head }

  lemma ReadAlike(a: string, b: string)
    requires a != b && Before(a) == Before(b) && After(a) == After(b)
    ensures Collide(a, b) || Collide(b, a)
  {
    KeyParts(a);
    KeyParts(b);
  }

  /** No revision occurs twice in a stage. */
  lemma HeadsDistinct(flat: Flat, stage: string)
    requires UniqueKeys(flat) && AllAgree(flat) && NoCollision(flat)
    ensures HeadsOnce(OfStage(flat, stage))
  {
    var places, list := Places(flat, stage), OfStage(flat, stage);
    PlacesFit(flat, stage);
    forall k, l | 0 <= k < l < |list| ensures list[k].head != list[l].head {
      DifferentHeads(flat, places[k], places[l]);
    }
  }

  lemma DifferentHeads(flat: Flat, i: nat, j: nat)
    requires UniqueKeys(flat) && AllAgree(flat) && NoCollision(flat)
    requires i < j < |flat| && StageOf(flat[i]) == StageOf(flat[j])
    ensures After(flat[i].key) != After(flat[j].key)
  {
    assert Agrees(flat[i]) && Agrees(flat[j]) && flat[i].key != flat[j].key;
    if After(flat[i].key) == After(flat[j].key) { ReadAlike(flat[i].key, flat[j].key); }
  }

  /** Two entries of a stage have their places there, in the same order. */
  lemma EntriesAppear(flat: Flat, stage: string, i: nat, j: nat) returns (k: nat, l: nat)
    requires i < j < |flat| && StageOf(flat[i]) == StageOf(flat[j]) == stage
    ensures
      var list := OfStage(flat, stage);
      k < l < |list| && list[k] == NestedOf(flat[i]) && list[l] == NestedOf(flat[j])
  {
    var places := Places(flat, stage);
    PlacesFit(flat, stage);
    k :| 0 <= k < |places| && places[k] == i;
    l :| 0 <= l < |places| && places[l] == j;
  }

  lemma NoCollisionSorted(flat: Flat)
    requires UniqueKeys(flat) && AllAgree(flat) && NoCollision(flat)
    ensures UniqueKeys(Sort(flat)) && AllAgree(Sort(flat)) && NoCollision(Sort(flat))
  {
    hide Sort, Agrees, Collide;
    SortKeeps(flat);
    assert forall i | 0 <= i < |Sort(flat)| :: Sort(flat)[i] in Sort(flat);
  }

  /** Two keys that read alike make two submissions of one stage at one revision. */
  lemma CollisionRepeats(flat: Flat, i: nat, j: nat) returns (stage: string)
    requires AllAgree(flat) && i < |flat| && j < |flat| && Collide(flat[i].key, flat[j].key)
    ensures stage == StageOf(flat[i])
    ensures !HeadsOnce(OfStage(Sort(flat), stage))
  {
    hide Sort, OfStage;
    var sorted := Sort(flat);
    SortKeeps(flat);
    assert flat[i] in flat && flat[j] in flat;
    var i', j' :| 0 <= i' < |sorted| && 0 <= j' < |sorted| && sorted[i'] == flat[i] && sorted[j'] == flat[j];
    ColonAtEnd(flat[i].key);
    assert Agrees(flat[i]) && Agrees(flat[j]);
    stage := StageOf(flat[i]);
    var k, l := EntriesAppear(sorted, stage, if i' < j' then i' else j', if i' < j' then j' else i');
  }

  /** When records agree with their keys, no stage repeats a revision exactly when no two keys collide. */
  lemma MigrationDecides(flat: Flat)
    requires UniqueKeys(flat) && AllAgree(flat)
    ensures NoCollision(flat) <==> forall stage :: HeadsOnce(OfStage(Sort(flat), stage))
  {
    hide AllAgree, HeadsOnce;
    if NoCollision(flat) {
      NoCollisionSorted(flat);
      forall stage { HeadsDistinct(Sort(flat), stage); }
    } else {
      var i, j :| 0 <= i < |flat| && 0 <= j < |flat| && Collide(flat[i].key, flat[j].key);
      var stage := CollisionRepeats(flat, i, j);
    }
  }

  function AttemptOf(n: Nested): Attempt { Attempt(n.status, n.head, n.branch, n.taskUrl, n.pushFailed) }

  function AttemptsOf(list: seq<Nested>): (attempts: seq<Attempt>)
    ensures |attempts| == |list| && forall i | 0 <= i < |list| :: attempts[i] == AttemptOf(list[i])
  {
    seq(|list|, i requires 0 <= i < |list| => AttemptOf(list[i]))
  }

  /**
    A migrated stage holds at most one attempt per revision, so it satisfies the newest-per-head
    invariant; each attempt keeps its status, revision, branch, address and failure.
   */
  lemma MigrationEstablishesInvariant(flat: Flat, stage: string)
    requires UniqueKeys(flat) && AllAgree(flat) && NoCollision(flat)
    ensures
      var nested := OfStage(Sort(flat), stage);
      var attempts := AttemptsOf(nested);
      && (forall i, j | 0 <= i < j < |attempts| :: attempts[i].head != attempts[j].head)
      && NewestPerHead(attempts) && |attempts| == |nested|
      && forall i | 0 <= i < |nested| ::
           attempts[i] == Attempt(nested[i].status, nested[i].head, nested[i].branch, nested[i].taskUrl, nested[i].pushFailed)
  {
    MigrationDecides(flat);
    assert HeadsOnce(OfStage(Sort(flat), stage));
  }

  lemma {:induction false} ColonAtEnd(word: string)
    requires ':' !in word
    ensures Before(word) == Before(word + ":") && After(word) == After(word + ":") == ""
  {
    if word == "" {
      assert ":"[1..] == "";
    } else {
      assert (word + ":")[1..] == word[1..] + ":";
      ColonAtEnd(word[1..]);
    }
  }

  /** A key without a colon meets the key with one: the migrated stage has one revision twice. */
  lemma ColonlessKeysCollide(word: string, first: Submission, second: Submission)
    requires ':' !in word && first.stage == second.stage == None
    ensures
      var flat := [Entry(word, first), Entry(word + ":", second)];
      && UniqueKeys(flat)
      && |OfStage(Sort(flat), word)| == 2
      && OfStage(Sort(flat), word)[0].head == OfStage(Sort(flat), word)[1].head
  {
    ColonAtEnd(word);
    KeyParts(word);
    var a, b := Entry(word, first), Entry(word + ":", second);
    assert Sort([a, b]) == [a, b] || Sort([a, b]) == [b, a] by {
      assert [a, b][1..] == [b] && [b][1..] == [];
      assert Sort([]) == [] && Insert(b, []) == [b] && Sort([b]) == [b];
      assert Insert(a, [b]) == [a, b] || Insert(a, [b]) == [b, a];
    }
    TwoOfStage(a, b, word);
    TwoOfStage(b, a, word);
  }

  lemma TwoOfStage(x: Entry, y: Entry, stage: string)
    requires StageOf(x) == StageOf(y) == stage
    ensures OfStage([x, y], stage) == [NestedOf(x), NestedOf(y)]
  {
    hide StageOf, NestedOf, OfStage;
    NoneOfStage(stage);
    OfStageAppend([], x, stage);
    OfStageAppend([x], y, stage);
    assert [] + [x] == [x] && [x] + [y] == [x, y];
  }

  lemma NoneOfStage(stage: string)
    ensures OfStage([], stage) == []
  {
  }
}
