/**
  Rebasing a task branch onto main and carrying its open pull requests along. Every branch is
  replayed before anything is pushed, and the one push is atomic and leased on the fetched tips.
  What becomes of a patch where it comes to lie is up to `fate`; a patch dropped because its like is
  already upstream counts as one that becomes empty.
 */
module Rebase {
  import opened Wrappers
  import opened BranchNames
  import opened Commits
  import opened Moves
  import opened Sequences

  const MAIN: string := "main"

  /** An open pull request into the task branch, by the branch it comes from. */
  datatype Pull = Pull(number: nat, head: string)

  datatype Outcome =
    | UpToDate
    | Rebased(main: Commit, head: Commit, propagated: seq<(nat, Commit)>)
    | Conflicted(name: string)
    | Failed

  function Heads(task: string, pulls: seq<Pull>): (heads: seq<string>)
    ensures |heads| == |pulls| + 1 && heads[0] == TaskBranch(task)
    ensures forall i | 0 <= i < |pulls| :: heads[i + 1] == pulls[i].head
  {
    [TaskBranch(task)] + seq(|pulls|, i requires 0 <= i < |pulls| => pulls[i].head)
  }

  /** Main and every head are there to be fetched. */
  predicate Fetched(refs: Remote, heads: seq<string>) {
    MAIN in refs && forall name | name in heads :: name in refs
  }

  /** The patches a branch has of its own, past another. */
  function Own(since: Commit, tip: Commit): seq<Patch> {
    MergeBaseIsGreatest(since, tip);
    PatchesAfter(MergeBase(since, tip), tip)
  }

  function Replay(onto: Commit, tip: Commit, since: Commit, fate: Fates): Option<Commit> {
    Grow(onto, Own(since, tip), fate)
  }

  function NewTask(refs: Remote, branch: string, fate: Fates): Option<Commit>
    requires MAIN in refs && branch in refs
  {
    Replay(refs[MAIN], refs[branch], refs[MAIN], fate)
  }

  /** Where a head goes: the task branch onto main, a pull request onto the new task branch. */
  function NewTip(refs: Remote, branch: string, name: string, fate: Fates): Option<Commit>
    requires MAIN in refs && branch in refs && name in refs
  {
    var task := NewTask(refs, branch, fate);
    if name == branch || task.None? then task else Replay(task.value, refs[name], refs[branch], fate)
  }

  predicate AllReplay(refs: Remote, heads: seq<string>, fate: Fates)
    requires heads != [] && Fetched(refs, heads)
  {
    forall i | 0 <= i < |heads| :: NewTip(refs, heads[0], heads[i], fate).Some?
  }

  function NewTips(refs: Remote, heads: seq<string>, fate: Fates): Remote
    requires heads != [] && Fetched(refs, heads) && AllReplay(refs, heads, fate)
  {
    map name | name in heads :: NewTip(refs, heads[0], name, fate).value
  }

  /** The first head that does not replay. */
  ghost predicate FirstStuck(refs: Remote, heads: seq<string>, fate: Fates, name: string)
    requires heads != [] && Fetched(refs, heads)
  {
    exists k | 0 <= k < |heads| ::
      && heads[k] == name && NewTip(refs, heads[0], name, fate).None?
      && forall j | 0 <= j < k :: NewTip(refs, heads[0], heads[j], fate).Some?
  }

  /** The leases: every head is still where it was fetched. */
  predicate Leased(now: Remote, fetched: Remote, heads: seq<string>)
    requires Fetched(fetched, heads)
  {
    forall name | name in heads :: name in now && now[name] == fetched[name]
  }

  function Propagated(pulls: seq<Pull>, tips: Remote): (r: seq<(nat, Commit)>)
    requires forall i | 0 <= i < |pulls| :: pulls[i].head in tips
    ensures |r| == |pulls|
    ensures forall i | 0 <= i < |pulls| :: r[i] == (pulls[i].number, tips[pulls[i].head])
  {
    seq(|pulls|, i requires 0 <= i < |pulls| => (pulls[i].number, tips[pulls[i].head]))
  }

  /** Someone moved or deleted one of the heads. */
  ghost predicate HeadMoved(fetched: Remote, now: Remote, heads: seq<string>) {
    exists name :: name in heads && (name !in fetched || name !in now || now[name] != fetched[name])
  }

  /** The call got as far as the push. */
  predicate Replayed(was: Remote, heads: seq<string>, fate: Fates, answered: bool)
    requires heads != []
  {
    answered && Fetched(was, heads) && !IsAncestor(was[MAIN], was[heads[0]]) && AllReplay(was, heads, fate)
  }

  class Origin {
    var refs: Remote

    constructor (refs: Remote)
      ensures this.refs == refs
    {
      this.refs := refs;
    }

    /** Others change origin. */
    method Interfere(moves: seq<Move<Commit>>)
      modifies this
      ensures refs == Moved(old(refs), moves)
    {
      for i := 0 to |moves|
        invariant refs == Moved(old(refs), moves[..i])
      {
        assert moves[..i + 1][..i] == moves[..i];
        match moves[i] {
          case Sets(name, tip) => refs := refs[name := tip];
          case Deletes(name) => refs := refs - {name};
        }
      }
      assert moves[..|moves|] == moves;
    }

    /** The replays, in a scratch worktree; nothing is pushed. */
    static method ReplayAll(fetched: Remote, heads: seq<string>, fate: Fates) returns (tips: Remote, stuck: Option<string>)
      requires heads != [] && Fetched(fetched, heads)
      ensures stuck.None? ==> AllReplay(fetched, heads, fate) && tips == NewTips(fetched, heads, fate)
      ensures stuck.Some? ==> FirstStuck(fetched, heads, fate, stuck.value)
    {
      hide Grow, Own;
      var main, was := fetched[MAIN], fetched[heads[0]];
      tips := map[];
      var task := Replay(main, was, main, fate);
      if task.None? {
        return tips, Some(heads[0]);
      }
      tips := tips[heads[0] := task.value];
      for i := 1 to |heads|
        invariant forall j | 0 <= j < i :: NewTip(fetched, heads[0], heads[j], fate).Some?
        invariant tips.Keys == set j | 0 <= j < i :: heads[j]
        invariant forall name | name in tips :: name in fetched && NewTip(fetched, heads[0], name, fate) == Some(tips[name])
      {
        var tip := Replay(task.value, fetched[heads[i]], was, fate);
        if heads[i] == heads[0] { NothingToReplay(task.value, was, fate); }
        if tip.None? {
          return tips, Some(heads[i]);
        }
        tips := tips[heads[i] := tip.value];
      }
      stuck := None;
      assert tips.Keys == set name | name in heads;
    }

    /** One atomic push: it is refused whole, or moves every head. Git refuses to name a ref twice. */
    method PushAtomic(heads: seq<string>, fetched: Remote, tips: Remote, lands: bool) returns (landed: bool)
      requires Fetched(fetched, heads)
      modifies this
      ensures landed <==> lands && Distinct(heads) && Leased(old(refs), fetched, heads)
      ensures refs == if landed then old(refs) + tips else old(refs)
    {
      landed := lands && Distinct(heads) && Leased(refs, fetched, heads);
      if landed {
        refs := refs + tips;
      }
    }

    /**
      `answered`: the fetch went through. `meanwhile`: what others do before the push. `lands`: the
      push reaches origin. `reported`: origin's reply to it reaches the panel.
     */
    method RebaseTaskBranch(
      task: string, pulls: seq<Pull>, fate: Fates, answered: bool, meanwhile: seq<Move<Commit>>, lands: bool, reported: bool)
      returns (outcome: Outcome)
      modifies this
      // a head that moved or went away since the fetch: the push changes nothing
      ensures HeadMoved(old(refs), Moved(old(refs), meanwhile), Heads(task, pulls)) ==>
        !outcome.Rebased? && refs == if Replayed(old(refs), Heads(task, pulls), fate, answered) then Moved(old(refs), meanwhile) else old(refs)
      // none did, and the push lands: every head is at its new tip, and every other ref where others left it
      ensures
        var heads, was, before := Heads(task, pulls), old(refs), Moved(old(refs), meanwhile);
        Replayed(was, heads, fate, answered) && !HeadMoved(was, before, heads) && lands && Distinct(heads) ==>
          && refs.Keys == before.Keys
          && (forall name | name in heads :: name in refs && NewTip(was, heads[0], name, fate) == Some(refs[name]))
          && (forall name | name in before && name !in heads :: refs[name] == before[name])
          && (reported ==> outcome.Rebased?)
      ensures
        var heads, was := Heads(task, pulls), old(refs);
        if !answered || !Fetched(was, heads) then outcome == Failed && refs == was
        else if IsAncestor(was[MAIN], was[heads[0]]) then outcome == UpToDate && refs == was
        else if !AllReplay(was, heads, fate) then
          outcome.Conflicted? && FirstStuck(was, heads, fate, outcome.name) && refs == was
        else
          var tips, before := NewTips(was, heads, fate), Moved(was, meanwhile);
          if lands && Distinct(heads) && Leased(before, was, heads) then
            && refs == before + tips
            && outcome == if reported then Rebased(was[MAIN], tips[heads[0]], Propagated(pulls, tips)) else Failed
          else refs == before && outcome == Failed
    {
      var heads := Heads(task, pulls);
      if !answered || !Fetched(refs, heads) {
        return Failed;
      }
      var fetched := refs;
      ContainsMeansBase(fetched[MAIN], fetched[heads[0]]);
      if MergeBase(fetched[MAIN], fetched[heads[0]]) == fetched[MAIN] {
        return UpToDate;
      }
      var tips, stuck := ReplayAll(fetched, heads, fate);
      if stuck.Some? {
        return Conflicted(stuck.value);
      }
      Interfere(meanwhile);
      var landed := PushAtomic(heads, fetched, tips, lands);
      if !landed || !reported {
        return Failed;
      }
      forall i | 0 <= i < |pulls| ensures pulls[i].head in tips {
        assert heads[i + 1] in heads;
      }
      return Rebased(fetched[MAIN], tips[heads[0]], Propagated(pulls, tips));
    }
  }

  lemma NothingToReplay(onto: Commit, tip: Commit, fate: Fates)
    ensures Replay(onto, tip, tip, fate) == Some(onto)
  {
    ContainsMeansBase(tip, tip);
  }

  /** Every patch would become empty on this commit. */
  ghost predicate AllEmpty(onto: Commit, patches: seq<Patch>, fate: Fates) {
    forall p | p in patches :: fate(onto, p) == Empties
  }

  /**
    When everything replays, the new task branch is main followed by those of the branch's own patches
    that take, and each pull request is the new task branch followed by those of its own, each in
    their order.
   */
  lemma RebaseIsCorrect(refs: Remote, heads: seq<string>, fate: Fates)
    requires heads != [] && Fetched(refs, heads) && AllReplay(refs, heads, fate)
    ensures
      var main, was, tips := refs[MAIN], refs[heads[0]], NewTips(refs, heads, fate);
      var taken := Taken(main, Own(main, was), fate);
      && IsAncestor(main, tips[heads[0]])
      && PatchesAfter(main, tips[heads[0]]) == taken && Within(taken, Own(main, was))
      && (tips[heads[0]] == was ==> IsAncestor(main, was))
      && forall name | name in heads && name != heads[0] ::
           var carried := Taken(tips[heads[0]], Own(was, refs[name]), fate);
           && IsAncestor(tips[heads[0]], tips[name])
           && PatchesAfter(tips[heads[0]], tips[name]) == carried && Within(carried, Own(was, refs[name]))
           && IsAncestor(main, tips[name])
           && PatchesAfter(main, tips[name]) == taken + carried
  {
    var main, was, tips := refs[MAIN], refs[heads[0]], NewTips(refs, heads, fate);
    assert NewTip(refs, heads[0], heads[0], fate).Some?;
    GrowsBy(main, Own(main, was), fate);
    forall name | name in heads && name != heads[0]
      ensures
        var carried := Taken(tips[heads[0]], Own(was, refs[name]), fate);
        && IsAncestor(tips[heads[0]], tips[name])
        && PatchesAfter(tips[heads[0]], tips[name]) == carried && Within(carried, Own(was, refs[name]))
        && IsAncestor(main, tips[name])
        && PatchesAfter(main, tips[name]) == Taken(main, Own(main, was), fate) + carried
    {
      assert NewTip(refs, heads[0], name, fate).Some?;
      GrowsBy(tips[heads[0]], Own(was, refs[name]), fate);
      PatchesSplit(main, tips[heads[0]], tips[name]);
    }
  }

  /** A branch has no patches of its own exactly when the other contains it. */
  lemma AheadHasPatches(since: Commit, tip: Commit)
    ensures Own(since, tip) == [] <==> IsAncestor(tip, since)
  {
    MergeBaseIsGreatest(since, tip);
    if IsAncestor(tip, since) {
      AncestryIsOrder(MergeBase(since, tip), tip);
    }
  }

  /** Where main goes when it is itself the head of a pull request: past the new task tip by what takes there. */
  lemma MainAsHead(refs: Remote, heads: seq<string>, fate: Fates)
    requires heads != [] && heads[0] != MAIN && MAIN in heads && Fetched(refs, heads) && AllReplay(refs, heads, fate)
    ensures
      var main, was, tips := refs[MAIN], refs[heads[0]], NewTips(refs, heads, fate);
      && (IsAncestor(tips[MAIN], tips[heads[0]]) <==> AllEmpty(tips[heads[0]], Own(was, main), fate))
      && (tips[MAIN] == main <==> AllEmpty(main, Own(main, was), fate) && AllEmpty(main, Own(was, main), fate))
  {
    var main, was, tips := refs[MAIN], refs[heads[0]], NewTips(refs, heads, fate);
    RebaseIsCorrect(refs, heads, fate);
    assert NewTip(refs, heads[0], heads[0], fate).Some? && NewTip(refs, heads[0], MAIN, fate).Some?;
    NothingTakes(main, Own(main, was), fate);
    NothingTakes(tips[heads[0]], Own(was, main), fate);
    if IsAncestor(tips[MAIN], tips[heads[0]]) {
      AncestryIsOrder(tips[MAIN], tips[heads[0]]);
    }
    if tips[MAIN] == main {
      AncestryIsOrder(main, tips[heads[0]]);
    }
  }

  /**
    After a rebase landed, with main not moved by others, a second one finds nothing to do exactly
    when main was not itself the head of one of the pull requests, or all of its own patches became
    empty on the new task branch. Main stays where it was exactly when it was no such head, or the
    two branches had nothing for each other.
   */
  lemma SecondRebaseIsIdle(fetched: Remote, before: Remote, heads: seq<string>, fate: Fates)
    requires heads != [] && heads[0] != MAIN && Fetched(fetched, heads) && AllReplay(fetched, heads, fate)
    requires Leased(before, fetched, heads) && MAIN in before && before[MAIN] == fetched[MAIN]
    ensures
      var main, was, tips := fetched[MAIN], fetched[heads[0]], NewTips(fetched, heads, fate);
      var after := before + tips;
      && Fetched(after, heads)
      && (IsAncestor(after[MAIN], after[heads[0]]) <==>
            MAIN !in heads || AllEmpty(tips[heads[0]], Own(was, main), fate))
      && (after[MAIN] == main <==>
            MAIN !in heads || (AllEmpty(main, Own(main, was), fate) && AllEmpty(main, Own(was, main), fate)))
  {
    RebaseIsCorrect(fetched, heads, fate);
    if MAIN in heads { MainAsHead(fetched, heads, fate); }
  }

  // ----- Main as the head of a pull request, at two inputs -----

  /** Whether the commit already has the patch. */
  predicate Has(c: Commit, patch: Patch) { c.Child? && (c.patch == patch || Has(c.parent, patch)) }

  const ONCE: Fates := (c, p) => if Has(c, p) then Empties else Takes

  /** Whether the line a pair of patches adds and takes away again is there. */
  predicate Present(c: Commit) {
    c.Child? && (c.patch == Other("add") || (c.patch != Other("undo") && Present(c.parent)))
  }

  const TOGGLE: Fates := (c, p) =>
    if p == Other("add") then (if Present(c) then Empties else Takes)
    else if p == Other("undo") then (if Present(c) then Takes else Empties)
    else if Has(c, p) then Empties else Takes

  lemma OwnOfFork(base: Commit, p: Patch, q: Patch)
    requires p != q
    ensures Own(Child(base, p), Child(base, q)) == [q]
    ensures !IsAncestor(Child(base, p), Child(base, q))
  {
    var b := Child(base, q);
    ForksApart(base, p, q);
    assert IsAncestor(base, b.parent) && MergeBase(base, b) == base;
    OnePatch(base, base, q);
  }

  /** One patch on main, one on the task branch: the second call is idle, and main has moved to the task tip. */
  lemma MainIsCarriedAlong()
    ensures
      var main, was := Child(Root, Other("m")), Child(Root, Other("t"));
      var refs, heads := map["main" := main, "task/T" := was], ["task/T", "main"];
      && Fetched(refs, heads) && AllReplay(refs, heads, ONCE)
      && var tips := NewTips(refs, heads, ONCE);
         && tips["task/T"] == Child(main, Other("t")) && tips["main"] == tips["task/T"]
         && IsAncestor(tips["main"], tips["task/T"]) && tips["main"] != main
  {
    var main, was := Child(Root, Other("m")), Child(Root, Other("t"));
    var refs, heads := map[MAIN := main, "task/T" := was], ["task/T", MAIN];
    var tip := Child(main, Other("t"));
    OwnOfFork(Root, Other("m"), Other("t"));
    OwnOfFork(Root, Other("t"), Other("m"));
    assert Grow(main, [Other("t")], ONCE) == Some(tip) by {
      assert !Has(main, Other("t")) && [Other("t")][1..] == [];
    }
    assert Grow(tip, [Other("m")], ONCE) == Some(tip) by {
      assert Has(main, Other("m")) && [Other("m")][1..] == [];
    }
    assert NewTask(refs, "task/T", ONCE) == Some(tip);
    assert NewTip(refs, "task/T", MAIN, ONCE) == Some(tip);
  }

  /** A patch on main and its revert: on the new task branch both take again, and the second call is not idle. */
  lemma MainIsRepeated()
    ensures
      var main, was := Child(Child(Root, Other("add")), Other("undo")), Child(Root, Other("t"));
      var refs, heads := map[MAIN := main, "task/T" := was], ["task/T", MAIN];
      && Fetched(refs, heads) && AllReplay(refs, heads, TOGGLE)
      && var tips := NewTips(refs, heads, TOGGLE);
         && tips["task/T"] == Child(main, Other("t"))
         && tips[MAIN] == Child(Child(tips["task/T"], Other("add")), Other("undo"))
         && !IsAncestor(tips[MAIN], tips["task/T"])
  {
    var add, undo, t := Other("add"), Other("undo"), Other("t");
    var middle, was := Child(Root, add), Child(Root, t);
    var main, tip := Child(middle, undo), Child(Child(middle, undo), t);
    var refs, heads := map[MAIN := main, "task/T" := was], ["task/T", MAIN];
    OwnOfFork(Root, add, t);
    assert Own(main, was) == [t];
    assert MergeBase(was, main) == Root && PatchesAfter(Root, middle) == [add];
    assert Own(was, main) == [add, undo];
    assert Grow(main, [t], TOGGLE) == Some(tip) by {
      assert !Has(main, t) && [t][1..] == [];
    }
    assert Grow(tip, [add, undo], TOGGLE) == Some(Child(Child(tip, add), undo)) by {
      assert !Present(tip) && Present(Child(tip, add));
      assert [add, undo][1..] == [undo] && [undo][1..] == [];
      assert TOGGLE(tip, add) == Takes && TOGGLE(Child(tip, add), undo) == Takes;
      assert Grow(Child(tip, add), [undo], TOGGLE) == Some(Child(Child(tip, add), undo));
    }
    assert NewTask(refs, "task/T", TOGGLE) == Some(tip);
    assert NewTip(refs, "task/T", MAIN, TOGGLE) == Some(Child(Child(tip, add), undo));
    assert Length(Child(Child(tip, add), undo)) > Length(tip);
    if IsAncestor(Child(Child(tip, add), undo), tip) {
      Shorter(Child(Child(tip, add), undo), tip);
      assert false;
    }
  }

  /** A branch does not replay exactly when one of its own patches clashes where it comes to lie. */
  lemma ReplayFailsByClash(onto: Commit, tip: Commit, since: Commit, fate: Fates)
    ensures Replay(onto, tip, since, fate).None? <==>
      exists k: nat :: k < |Own(since, tip)| && ClashesAt(onto, Own(since, tip), fate, k)
  {
    FailsByClash(onto, Own(since, tip), fate);
  }
}
