/** Linear histories: a commit is the chain of patches behind it, and all chains share one root. */
module Commits {
  import opened Wrappers
  import opened Records

  /** A patch, by what it does to the tracker; `Other` leaves it alone. */
  datatype Patch = Opening(task: TaskId) | Marks(task: TaskId, status: Status) | Drops(task: TaskId) | Other(name: string)

  datatype Commit = Root | Child(parent: Commit, patch: Patch)

  type Remote = map<string, Commit>

  predicate IsAncestor(a: Commit, b: Commit) {
    a == b || (b.Child? && IsAncestor(a, b.parent))
  }

  function PatchesAfter(base: Commit, tip: Commit): seq<Patch>
    requires IsAncestor(base, tip)
  {
    if base == tip then [] else PatchesAfter(base, tip.parent) + [tip.patch]
  }

  function MergeBase(a: Commit, b: Commit): Commit {
    if a.Root? || IsAncestor(a, b) then a else MergeBase(a.parent, b)
  }

  /** Where it comes to lie a patch applies, becomes empty and is dropped, or clashes. */
  datatype Fate = Takes | Empties | Clashes

  type Fates = (Commit, Patch) -> Fate

  /** Commit the patches one after another, without those that become empty, unless one of them clashes. */
  function Grow(onto: Commit, patches: seq<Patch>, fate: Fates): Option<Commit>
    decreases |patches|
  {
    if patches == [] then Some(onto)
    else match fate(onto, patches[0])
      case Clashes => None
      case Empties => Grow(onto, patches[1..], fate)
      case Takes => Grow(Child(onto, patches[0]), patches[1..], fate)
  }

  /** The patches that take. */
  function Taken(onto: Commit, patches: seq<Patch>, fate: Fates): seq<Patch>
    decreases |patches|
  {
    if patches == [] then []
    else match fate(onto, patches[0])
      case Clashes => []
      case Empties => Taken(onto, patches[1..], fate)
      case Takes => [patches[0]] + Taken(Child(onto, patches[0]), patches[1..], fate)
  }

  /** `some` is `all` without some of its patches, in the same order. */
  predicate Within(some: seq<Patch>, all: seq<Patch>)
    decreases |all|
  {
    if some == [] then true
    else all != [] && (Within(some, all[1..]) || (some[0] == all[0] && Within(some[1..], all[1..])))
  }

  lemma {:induction false} RootReaches(tip: Commit)
    ensures IsAncestor(Root, tip)
  {
    if tip.Root? {
    } else {
      RootReaches(tip.parent);
    }
  }

  lemma {:induction false} AncestryIsTransitive(a: Commit, b: Commit, c: Commit)
    requires IsAncestor(a, b) && IsAncestor(b, c)
    ensures IsAncestor(a, c)
  {
    if b == c {
    } else {
      AncestryIsTransitive(a, b, c.parent);
    }
  }

  lemma AncestryIsOrder(a: Commit, b: Commit)
    requires IsAncestor(a, b) && IsAncestor(b, a)
    ensures a == b
  {
    if a != b {
      Shorter(a, b);
      Shorter(b, a);
    }
  }

  function Length(c: Commit): nat { if c.Root? then 0 else 1 + Length(c.parent) }

  lemma {:induction false} Shorter(a: Commit, b: Commit)
    requires IsAncestor(a, b) && a != b
    ensures Length(a) < Length(b)
  {
    if a == b.parent {
    } else {
      Shorter(a, b.parent);
    }
  }

  /** The merge base is a common ancestor, and every common ancestor is one of its. */
  lemma {:induction false} MergeBaseIsGreatest(a: Commit, b: Commit)
    ensures IsAncestor(MergeBase(a, b), a) && IsAncestor(MergeBase(a, b), b)
    ensures forall c | IsAncestor(c, a) && IsAncestor(c, b) :: IsAncestor(c, MergeBase(a, b))
  {
    if a.Root? {
      RootReaches(b);
    } else if !IsAncestor(a, b) {
      MergeBaseIsGreatest(a.parent, b);
    }
  }

  /** A branch contains another tip exactly when that tip is their merge base. */
  lemma ContainsMeansBase(a: Commit, b: Commit)
    ensures MergeBase(a, b) == a <==> IsAncestor(a, b)
  {
    MergeBaseIsGreatest(a, b);
  }

  lemma {:induction false} PatchesSplit(a: Commit, b: Commit, c: Commit)
    requires IsAncestor(a, b) && IsAncestor(b, c)
    ensures IsAncestor(a, c) && PatchesAfter(a, c) == PatchesAfter(a, b) + PatchesAfter(b, c)
  {
    AncestryIsTransitive(a, b, c);
    if b == c {
    } else {
      PatchesSplit(a, b, c.parent);
      if a == c { AncestryIsOrder(a, b); }
    }
  }

  lemma OnePatch(base: Commit, tip: Commit, patch: Patch)
    requires IsAncestor(base, tip)
    ensures IsAncestor(base, Child(tip, patch))
    ensures PatchesAfter(base, Child(tip, patch)) == PatchesAfter(base, tip) + [patch]
  {
    if base != tip { Shorter(base, tip); }
    assert Length(base) <= Length(tip) < Length(Child(tip, patch));
  }

  lemma ForksApart(base: Commit, p: Patch, q: Patch)
    requires p != q
    ensures !IsAncestor(Child(base, p), Child(base, q))
  {
    var a := Child(base, p);
    assert Length(a) == Length(base) + 1;
    if IsAncestor(a, base) {
      Shorter(a, base);
      assert false;
    }
  }

  /** What grew on a commit is exactly the patches that take, in the branch's order. */
  lemma {:induction false} GrowsBy(onto: Commit, patches: seq<Patch>, fate: Fates)
    requires Grow(onto, patches, fate).Some?
    ensures
      var tip := Grow(onto, patches, fate).value;
      IsAncestor(onto, tip) && PatchesAfter(onto, tip) == Taken(onto, patches, fate)
    ensures Within(Taken(onto, patches, fate), patches)
    decreases |patches|
  {
    if patches == [] {
    } else if fate(onto, patches[0]).Empties? {
      GrowsBy(onto, patches[1..], fate);
    } else {
      var next, tip := Child(onto, patches[0]), Grow(onto, patches, fate).value;
      GrowsBy(next, patches[1..], fate);
      OnePatch(onto, onto, patches[0]);
      PatchesSplit(onto, next, tip);
    }
  }

  /** A replay goes patch by patch: what becomes of the last depends on where those before it led. */
  lemma {:induction false} LastPatch(onto: Commit, patches: seq<Patch>, p: Patch, fate: Fates)
    ensures
      var before := Grow(onto, patches, fate);
      Grow(onto, patches + [p], fate) ==
        if before.None? || fate(before.value, p) == Clashes then None
        else if fate(before.value, p) == Empties then before
        else Some(Child(before.value, p))
    decreases |patches|
  {
    var all := patches + [p];
    if patches == [] {
      assert all[1..] == [];
    } else {
      assert all[1..] == patches[1..] + [p];
      if fate(onto, patches[0]).Empties? {
        LastPatch(onto, patches[1..], p, fate);
      } else if fate(onto, patches[0]).Takes? {
        LastPatch(Child(onto, patches[0]), patches[1..], p, fate);
      }
    }
  }

  /** The patch at `k` clashes where the ones before it led. */
  ghost predicate ClashesAt(onto: Commit, patches: seq<Patch>, fate: Fates, k: nat)
    requires k < |patches|
  {
    var before := Grow(onto, patches[..k], fate);
    before.Some? && fate(before.value, patches[k]) == Clashes
  }

  /** A replay fails exactly when one of the patches clashes where it comes to lie. */
  lemma {:induction false} FailsByClash(onto: Commit, patches: seq<Patch>, fate: Fates)
    ensures Grow(onto, patches, fate).None? <==> exists k: nat :: k < |patches| && ClashesAt(onto, patches, fate, k)
  {
    if patches == [] {
    } else {
      var front, p := patches[..|patches| - 1], patches[|patches| - 1];
      assert patches == front + [p];
      FailsByClash(onto, front, fate);
      LastPatch(onto, front, p, fate);
      forall k: nat | k < |front| ensures ClashesAt(onto, patches, fate, k) == ClashesAt(onto, front, fate, k) {
        assert patches[..k] == front[..k];
      }
      if Grow(onto, front, fate).Some? {
        assert patches[..|front|] == front;
        assert ClashesAt(onto, patches, fate, |front|) <==> fate(Grow(onto, front, fate).value, p) == Clashes;
      }
    }
  }

  /** When none becomes empty the branch keeps every patch. */
  lemma {:induction false} AllTake(onto: Commit, patches: seq<Patch>, fate: Fates)
    requires Grow(onto, patches, fate).Some?
    requires forall c, p | p in patches :: fate(c, p) != Empties
    ensures Taken(onto, patches, fate) == patches
    decreases |patches|
  {
    if patches == [] {
    } else {
      assert patches[0] in patches;
      AllTake(Child(onto, patches[0]), patches[1..], fate);
      assert [patches[0]] + patches[1..] == patches;
    }
  }

  /** Nothing takes exactly when every patch is empty right where the replay starts; the tip then stays there. */
  lemma {:induction false} NothingTakes(onto: Commit, patches: seq<Patch>, fate: Fates)
    requires Grow(onto, patches, fate).Some?
    ensures Taken(onto, patches, fate) == [] <==> forall p | p in patches :: fate(onto, p) == Empties
    ensures Taken(onto, patches, fate) == [] <==> Grow(onto, patches, fate) == Some(onto)
    decreases |patches|
  {
    if patches == [] {
    } else {
      assert patches[0] in patches && patches == [patches[0]] + patches[1..];
      if fate(onto, patches[0]).Empties? {
        NothingTakes(onto, patches[1..], fate);
      } else {
        GrowsBy(onto, patches, fate);
      }
    }
  }
}
