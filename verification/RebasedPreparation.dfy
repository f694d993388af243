/** A rebase carries a task branch's opening commit along, so a prepared branch stays prepared. */
module RebasedPreparation {
  import opened Wrappers
  import opened Records
  import opened Commits
  import opened OpeningCommit
  import Rebase

  /** A status is decided by the last patch that touches it, or else by where the branch starts. */
  lemma {:induction false} StatusFromPatches(base: Commit, tip: Commit, task: TaskId)
    requires IsAncestor(base, tip)
    ensures
      var own := Touching(PatchesAfter(base, tip), task);
      StatusAt(tip, task) == if own == [] then StatusAt(base, task) else Effect(own[|own| - 1])
  {
    if base == tip {
    } else {
      StatusFromPatches(base, tip.parent, task);
      var patches := PatchesAfter(base, tip.parent);
      assert (patches + [tip.patch])[..|patches|] == patches;
    }
  }

  /** Patches become empty only where the tracker already says what they would make it say. */
  ghost predicate Honest(fate: Fates) {
    forall c, p, task | fate(c, p) == Empties && Touches(p, task) :: StatusAt(c, task) == Effect(p)
  }

  function Says(patches: seq<Patch>, otherwise: Option<Status>): Option<Status> {
    if patches == [] then otherwise else Effect(patches[|patches| - 1])
  }

  /** Touching patches are found from the front as well as from the back. */
  lemma {:induction false} TouchingFront(patches: seq<Patch>, task: TaskId)
    requires patches != []
    ensures Touching(patches, task) == (if Touches(patches[0], task) then [patches[0]] else []) + Touching(patches[1..], task)
    decreases |patches|
  {
    if |patches| == 1 {
      assert patches[..0] == [] && patches[1..] == [];
    } else {
      var front := patches[..|patches| - 1];
      TouchingFront(front, task);
      assert front[1..] == patches[1..][..|patches[1..]| - 1];
    }
  }

  /** Dropped patches change nothing: the replayed branch says what all the patches say. */
  lemma {:induction false} ReplaySays(onto: Commit, patches: seq<Patch>, fate: Fates, task: TaskId)
    requires Honest(fate) && Grow(onto, patches, fate).Some?
    ensures StatusAt(Grow(onto, patches, fate).value, task) == Says(Touching(patches, task), StatusAt(onto, task))
    decreases |patches|
  {
    if patches == [] {
    } else {
      TouchingFront(patches, task);
      var next := if fate(onto, patches[0]).Empties? then onto else Child(onto, patches[0]);
      ReplaySays(next, patches[1..], fate, task);
    }
  }

  /** What takes is touched in the same order, by fewer patches. */
  lemma {:induction false} TakenTouching(onto: Commit, patches: seq<Patch>, fate: Fates, task: TaskId)
    requires Grow(onto, patches, fate).Some?
    ensures Within(Touching(Taken(onto, patches, fate), task), Touching(patches, task))
    decreases |patches|
  {
    if patches == [] {
    } else {
      var patch, rest := patches[0], Touching(patches[1..], task);
      TouchingFront(patches, task);
      var next := if fate(onto, patch).Empties? then onto else Child(onto, patch);
      var some := Touching(Taken(next, patches[1..], fate), task);
      TakenTouching(next, patches[1..], fate, task);
      WithinMore(some, patch, rest);
      assert Touching(patches, task) == if Touches(patch, task) then [patch] + rest else rest;
      if fate(onto, patch).Takes? {
        TouchingFront(Taken(onto, patches, fate), task);
        assert Touching(Taken(onto, patches, fate), task) == if Touches(patch, task) then [patch] + some else some;
      }
    }
  }

  lemma WithinMore(some: seq<Patch>, patch: Patch, all: seq<Patch>)
    requires Within(some, all)
    ensures Within(some, [patch] + all) && Within([patch] + some, [patch] + all)
  {
    assert ([patch] + all)[1..] == all && ([patch] + some)[1..] == some;
  }

  /**
    What a rebased branch says of a task: what those of its own patches say that took, and where they
    are silent what main says. When patches become empty only where they have nothing to say, that is
    what all its own patches say.
   */
  lemma RebasedStatus(refs: Remote, heads: seq<string>, fate: Fates, task: TaskId)
    requires heads != [] && Rebase.Fetched(refs, heads) && Rebase.AllReplay(refs, heads, fate)
    ensures
      var main, tip := refs[Rebase.MAIN], Rebase.NewTips(refs, heads, fate)[heads[0]];
      var own := Rebase.Own(main, refs[heads[0]]);
      var kept := Touching(Taken(main, own, fate), task);
      && IsAncestor(main, tip) && Touching(PatchesAfter(main, tip), task) == kept && Within(kept, Touching(own, task))
      && StatusAt(tip, task) == Says(kept, StatusAt(main, task))
      && (Honest(fate) ==> StatusAt(tip, task) == Says(Touching(own, task), StatusAt(main, task)))
  {
    var main := refs[Rebase.MAIN];
    var own := Rebase.Own(main, refs[heads[0]]);
    Rebase.RebaseIsCorrect(refs, heads, fate);
    assert Rebase.NewTip(refs, heads[0], heads[0], fate).Some?;
    StatusFromPatches(main, Rebase.NewTips(refs, heads, fate)[heads[0]], task);
    TakenTouching(main, own, fate, task);
    if Honest(fate) { ReplaySays(main, own, fate, task); }
  }

  /** An undisturbed preparation with the clone's copy up to date goes by the status on the branch. */
  lemma UpToDatePrepared(main: Commit, tip: Commit, task: TaskId, base: Commit)
    ensures
      var now, status := World(Some(tip), Some(tip), main), StatusAt(tip, task);
      PreparedWorld(now, task, base, CALM) ==
        if status == Some(InProgress) then (now, Ok(false))
        else if status.None? then (now, Refused(502))
        else (now.(remote := Some(Child(tip, Opening(task)))), Ok(true))
  {
    hide StatusAt;
    assert Moved(Some(tip), []) == Some(tip) && IsAncestor(tip, Child(tip, Opening(task)).parent);
  }

  /** How a preparation of a rebased branch goes, by whether its opening commit was kept. */
  lemma PreparedAgain(main: Commit, tip: Commit, task: TaskId, base: Commit, kept: seq<Patch>)
    requires IsAncestor(main, tip) && kept == Touching(PatchesAfter(main, tip), task)
    requires StatusAt(tip, task) == Says(kept, StatusAt(main, task)) && (kept == [Opening(task)] || kept == [])
    ensures
      var rebased, again := World(Some(tip), Some(tip), main), Child(tip, Opening(task));
      PreparedWorld(rebased, task, base, CALM) ==
        if kept != [] || StatusAt(main, task) == Some(InProgress) then (rebased, Ok(false))
        else if StatusAt(main, task).None? then (rebased, Refused(502))
        else (rebased.(remote := Some(again)), Ok(true))
    ensures kept == [] ==> Touching(PatchesAfter(main, Child(tip, Opening(task))), task) == [Opening(task)]
  {
    hide PreparedWorld, StatusAt, Touching, PatchesAfter;
    UpToDatePrepared(main, tip, task, base);
    AddOne(main, tip, Opening(task), task);
  }

  /**
    A branch prepared with its one opening commit has that commit still after a rebase, or none if it
    became empty on the way. Preparing it again adds none in the first case, and none where main says
    in progress; where main says otherwise it adds the one that was dropped, and where main no longer
    has the task it is refused. When patches become empty only where they have nothing to say, none is
    ever added.
   */
  lemma RebaseKeepsPreparation(refs: Remote, heads: seq<string>, fate: Fates, task: TaskId, base: Commit)
    requires heads != [] && Rebase.Fetched(refs, heads) && Rebase.AllReplay(refs, heads, fate)
    requires Touching(Rebase.Own(refs[Rebase.MAIN], refs[heads[0]]), task) == [Opening(task)]
    ensures
      var main, tip := refs[Rebase.MAIN], Rebase.NewTips(refs, heads, fate)[heads[0]];
      var rebased, again := World(Some(tip), Some(tip), main), Child(tip, Opening(task));
      && IsAncestor(main, tip)
      && var kept, status := Touching(PatchesAfter(main, tip), task), StatusAt(main, task);
         && (kept == [Opening(task)] || kept == [])
         && (kept == [] ==> Touching(PatchesAfter(main, again), task) == [Opening(task)])
         && (kept == [] && Honest(fate) ==> status == Some(InProgress))
         && PreparedWorld(rebased, task, base, CALM) ==
              if kept != [] || status == Some(InProgress) then (rebased, Ok(false))
              else if status.None? then (rebased, Refused(502))
              else (rebased.(remote := Some(again)), Ok(true))
  {
    RebasedStatus(refs, heads, fate, task);
    var main, tip := refs[Rebase.MAIN], Rebase.NewTips(refs, heads, fate)[heads[0]];
    var kept := Touching(PatchesAfter(main, tip), task);
    WithinOne(kept, Opening(task));
    OnePatch(main, tip, Opening(task));
    PreparedAgain(main, tip, task, base, kept);
  }

  lemma WithinOne(some: seq<Patch>, patch: Patch)
    requires Within(some, [patch])
    ensures some == [] || some == [patch]
  {
    assert [patch][1..] == [];
    if some != [] { assert some == [some[0]] + some[1..]; }
  }
}
