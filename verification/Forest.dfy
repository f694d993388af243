/**
  The dependency-tree view: every task hangs under the dependency that unlocks it last. Ranks are
  memoised and the set of placed tasks is shared by the whole layout; the graph may have cycles.
 */
module Forest {
  import opened Wrappers
  import opened Dependencies
  import opened Sequences

  datatype Tree = Node(entry: Entry, waitsOn: seq<Id>, children: seq<Tree>)

  type Parents = map<Id, Option<Id>>

  ghost predicate UniqueIds(entries: seq<Entry>) { forall i, j | 0 <= i < j < |entries| :: entries[i].id != entries[j].id }

  /** The ids in a tree, parents before children. */
  function TreeIds(t: Tree): seq<Id> { [t.entry.id] + ForestIds(t.children) }

  function ForestIds(ts: seq<Tree>): seq<Id> { if ts == [] then [] else TreeIds(ts[0]) + ForestIds(ts[1..]) }

  function Without(ids: seq<Id>, parent: Option<Id>): (r: seq<Id>)
    ensures forall id :: id in r <==> id in ids && Some(id) != parent
  {
    if ids == [] then [] else (if Some(ids[0]) == parent then [] else [ids[0]]) + Without(ids[1..], parent)
  }

  /** Each node lists what it waits on besides its parent; its children have it as parent, in tracker order. */
  ghost predicate WellPlaced(t: Tree, entries: seq<Entry>, parents: Parents) {
    && t.entry in entries && t.entry.id in parents
    && (forall i, j | 0 <= i < j < |t.children| :: Precedes(entries, t.children[i].entry, t.children[j].entry))
    && t.waitsOn == Without(t.entry.dependsOn, parents[t.entry.id])
    && forall i | 0 <= i < |t.children| ::
         && t.children[i].entry.id in parents && parents[t.children[i].entry.id] == Some(t.entry.id)
         && WellPlaced(t.children[i], entries, parents)
  }

  /** The task displayed above a node, with the node's own list, is exactly what the task depends on. */
  ghost predicate ShowsAll(t: Tree, above: Option<Id>) {
    && (forall id :: id in t.entry.dependsOn <==> id in t.waitsOn || Some(id) == above)
    && (above.Some? ==> above.value !in t.waitsOn)
    && forall i | 0 <= i < |t.children| :: ShowsAll(t.children[i], Some(t.entry.id))
  }

  /** Well placed trees for the given entries, in the same order. */
  ghost predicate Planted(trees: seq<Tree>, es: seq<Entry>, entries: seq<Entry>, parents: Parents) {
    |trees| == |es| && forall i | 0 <= i < |trees| :: trees[i].entry == es[i] && WellPlaced(trees[i], entries, parents)
  }

  lemma NothingPlanted(before: set<Id>, entries: seq<Entry>, parents: Parents)
    ensures Planted([], [], entries, parents) && Grown(ForestIds([]), before, before, Names([]), entries, parents)
  {
  }

  lemma PlantOne(trees: seq<Tree>, tree: Tree, waiting: seq<Entry>, i: nat, entries: seq<Entry>, parents: Parents)
    requires i < |waiting| && Planted(trees, waiting[..i], entries, parents)
    requires tree.entry == waiting[i] && WellPlaced(tree, entries, parents)
    ensures Planted(trees + [tree], waiting[..i + 1], entries, parents)
  {
    var all := trees + [tree];
    forall k | 0 <= k < |all| ensures all[k].entry == waiting[..i + 1][k] && WellPlaced(all[k], entries, parents) {
      assert all[k] == if k < i then trees[k] else tree;
    }
  }

  lemma {:induction false} ForestIdsAppend(ts: seq<Tree>, t: Tree)
    ensures ForestIds(ts + [t]) == ForestIds(ts) + TreeIds(t)
  {
    if ts == [] {
      assert [t][1..] == [];
    } else {
      assert (ts + [t])[1..] == ts[1..] + [t];
      ForestIdsAppend(ts[1..], t);
    }
  }

  lemma DistinctAppend(a: seq<Id>, b: seq<Id>)
    requires Distinct(a) && Distinct(b) && forall id | id in a :: id !in b
    ensures Distinct(a + b)
  {
    forall i, j | 0 <= i < j < |a + b| ensures (a + b)[i] != (a + b)[j] {
      if i < |a| <= j { assert a[i] in a && b[j - |a|] in b; }
    }
  }

  function Options(g: Graph, entry: Entry): (r: seq<Id>)
    ensures forall id :: id in r <==> id in entry.dependsOn && id in g && id != entry.id
  {
    Selected(g, entry.id, entry.dependsOn)
  }

  function Selected(g: Graph, own: Id, ids: seq<Id>): (r: seq<Id>)
    ensures forall id :: id in r <==> id in ids && id in g && id != own
  {
    if ids == [] then [] else (if ids[0] in g && ids[0] != own then [ids[0]] else []) + Selected(g, own, ids[1..])
  }

  function Gating(g: Graph, own: Id): Id -> bool { (id: Id) => id in g && id != own }

  function NotParent(parent: Option<Id>): Id -> bool { (id: Id) => Some(id) != parent }

  function Itself(): Id -> Id { (id: Id) => id }

  /** The options are the known dependencies other than the task itself, in the order of the list. */
  lemma {:induction false} SelectedInOrder(g: Graph, own: Id, ids: seq<Id>) returns (places: seq<nat>)
    ensures Selects(ids, Gating(g, own), Itself(), Selected(g, own, ids), places)
  {
    hide Selects;
    if ids == [] {
      SelectsNone(Gating(g, own), Itself());
      places := [];
    } else {
      var rest := SelectedInOrder(g, own, ids[1..]);
      places := SelectsMore(ids[0], ids[1..], Gating(g, own), Itself(), Selected(g, own, ids[1..]), rest);
      assert [ids[0]] + ids[1..] == ids;
    }
  }

  /** What a node waits on besides its parent keeps the order of the dependencies. */
  lemma {:induction false} WithoutInOrder(ids: seq<Id>, parent: Option<Id>) returns (places: seq<nat>)
    ensures Selects(ids, NotParent(parent), Itself(), Without(ids, parent), places)
  {
    hide Selects;
    if ids == [] {
      SelectsNone(NotParent(parent), Itself());
      places := [];
    } else {
      var rest := WithoutInOrder(ids[1..], parent);
      places := SelectsMore(ids[0], ids[1..], NotParent(parent), Itself(), Without(ids[1..], parent), rest);
      assert [ids[0]] + ids[1..] == ids;
    }
  }

  ghost predicate Precedes(entries: seq<Entry>, a: Entry, b: Entry) {
    exists i, j :: 0 <= i < j < |entries| && entries[i] == a && entries[j] == b
  }

  /** `es` lists entries in the tracker's order. */
  ghost predicate InOrder(es: seq<Entry>, entries: seq<Entry>) {
    forall i, j | 0 <= i < j < |es| :: Precedes(entries, es[i], es[j])
  }

  function Names(es: seq<Entry>): set<Id> { set e | e in es :: e.id }

  lemma NamesAppend(es: seq<Entry>, i: nat)
    requires i < |es|
    ensures Names(es[..i + 1]) == Names(es[..i]) + {es[i].id}
  {
    assert es[..i + 1] == es[..i] + [es[i]];
  }

  /** The entries hanging under `parent`, in the order of the tracker. */
  function Under(entries: seq<Entry>, parents: Parents, parent: Option<Id>): seq<Entry>
  {
    if entries == [] then [] else
      var last := entries[|entries| - 1];
      Under(entries[..|entries| - 1], parents, parent)
      + if last.id in parents && parents[last.id] == parent then [last] else []
  }

  /** One entry more at the end of the tracker. */
  lemma UnderMore(front: seq<Entry>, last: Entry, under: seq<Entry>, all: seq<Entry>)
    requires UniqueIds(front + [last]) && UniqueIds(under) && forall e | e in under :: e in front
    requires all == under || all == under + [last]
    ensures UniqueIds(all)
  {
    var entries := front + [last];
    assert forall i | 0 <= i < |under| :: under[i] in front;
    forall e | e in front ensures e.id != last.id {
      var i :| 0 <= i < |front| && front[i] == e;
      assert entries[i] == e && entries[|front|] == last;
    }
  }

  lemma {:induction false} UnderMembers(entries: seq<Entry>, parents: Parents, parent: Option<Id>)
    ensures forall e :: e in Under(entries, parents, parent) <==> e in entries && e.id in parents && parents[e.id] == parent
    ensures UniqueIds(entries) ==> UniqueIds(Under(entries, parents, parent))
  {
    if entries == [] {
    } else {
      hide UniqueIds;
      var front, last := entries[..|entries| - 1], entries[|entries| - 1];
      UnderMembers(front, parents, parent);
      assert entries == front + [last];
      if UniqueIds(entries) {
        FrontIsUnique(front, last);
        UnderMore(front, last, Under(front, parents, parent), Under(entries, parents, parent));
      }
    }
  }

  lemma FrontIsUnique(front: seq<Entry>, last: Entry)
    requires UniqueIds(front + [last])
    ensures UniqueIds(front)
  {
    assert forall i | 0 <= i < |front| :: front[i] == (front + [last])[i];
  }

  /** The children of a node that are not placed yet, in the same order. */
  function Unplaced(below: seq<Entry>, placed: set<Id>): (waiting: seq<Entry>)
    ensures forall e :: e in waiting <==> e in below && e.id !in placed
    ensures UniqueIds(below) ==> UniqueIds(waiting)
  {
    if below == [] then [] else
      var rest := Unplaced(below[1..], placed);
      assert below == [below[0]] + below[1..];
      assert forall i | 0 <= i < |rest| :: rest[i] in below[1..];
      if below[0].id in placed then rest else [below[0]] + rest
  }

  lemma PrecedesMore(entries: seq<Entry>, last: Entry, a: Entry, b: Entry)
    requires Precedes(entries, a, b) || (a in entries && b == last)
    ensures Precedes(entries + [last], a, b)
  {
    if Precedes(entries, a, b) {
      var i, j :| 0 <= i < j < |entries| && entries[i] == a && entries[j] == b;
      assert (entries + [last])[i] == a && (entries + [last])[j] == b;
    } else {
      var i :| 0 <= i < |entries| && entries[i] == a;
      assert (entries + [last])[i] == a && (entries + [last])[|entries|] == b;
    }
  }

  lemma {:induction false} UnderInOrder(entries: seq<Entry>, parents: Parents, parent: Option<Id>)
    ensures InOrder(Under(entries, parents, parent), entries)
  {
    if entries == [] {
    } else {
      var front, last := entries[..|entries| - 1], entries[|entries| - 1];
      assert entries == front + [last];
      UnderInOrder(front, parents, parent);
      UnderMembers(front, parents, parent);
      var rest, all := Under(front, parents, parent), Under(entries, parents, parent);
      forall i, j | 0 <= i < j < |all| ensures Precedes(entries, all[i], all[j]) {
        assert all[i] == rest[i] && rest[i] in rest;
        PrecedesMore(front, last, all[i], all[j]);
      }
    }
  }

  lemma InOrderTail(es: seq<Entry>, entries: seq<Entry>)
    requires es != [] && InOrder(es, entries)
    ensures InOrder(es[1..], entries) && forall e | e in es[1..] :: Precedes(entries, es[0], e)
  {
    forall i, j | 0 <= i < j < |es[1..]| ensures Precedes(entries, es[1..][i], es[1..][j]) {
      assert Precedes(entries, es[i + 1], es[j + 1]);
    }
    forall e | e in es[1..] ensures Precedes(entries, es[0], e) {
      var j :| 0 <= j < |es[1..]| && es[1..][j] == e;
      assert Precedes(entries, es[0], es[j + 1]);
    }
  }

  lemma InOrderCons(e: Entry, es: seq<Entry>, entries: seq<Entry>)
    requires InOrder(es, entries) && forall x | x in es :: Precedes(entries, e, x)
    ensures InOrder([e] + es, entries)
  {
  }

  lemma {:induction false} UnplacedInOrder(below: seq<Entry>, placed: set<Id>, entries: seq<Entry>)
    requires InOrder(below, entries)
    ensures InOrder(Unplaced(below, placed), entries)
  {
    if below == [] {
    } else {
      InOrderTail(below, entries);
      UnplacedInOrder(below[1..], placed, entries);
      InOrderCons(below[0], Unplaced(below[1..], placed), entries);
    }
  }

  lemma {:induction false} UnderFrame(entries: seq<Entry>, parents: Parents, parents': Parents, parent: Option<Id>)
    requires forall e | e in entries ::
      e.id in parents && e.id in parents' && parents[e.id] == parents'[e.id]
    ensures Under(entries, parents, parent) == Under(entries, parents', parent)
  {
    if entries == [] {
    } else {
      assert entries == entries[..|entries| - 1] + [entries[|entries| - 1]];
      UnderFrame(entries[..|entries| - 1], parents, parents', parent);
    }
  }

  // ----- Properties of trees placed by their parents -----

  /** Parents are chosen among the dependencies. */
  ghost predicate LinksAreDependencies(entries: seq<Entry>, parents: Parents) {
    forall e | e in entries && e.id in parents && parents[e.id].Some? :: parents[e.id].value in e.dependsOn
  }

  lemma {:induction false} TreeShowsAll(t: Tree, entries: seq<Entry>, parents: Parents)
    requires WellPlaced(t, entries, parents) && LinksAreDependencies(entries, parents)
    ensures ShowsAll(t, parents[t.entry.id])
  {
    forall i | 0 <= i < |t.children| { TreeShowsAll(t.children[i], entries, parents); }
  }

  /** A tree planted at the top although its task has a parent hides that dependency. */
  lemma TopHidesParent(t: Tree, entries: seq<Entry>, parents: Parents)
    requires WellPlaced(t, entries, parents) && LinksAreDependencies(entries, parents)
    requires parents[t.entry.id].Some?
    ensures !ShowsAll(t, None)
  {
    assert parents[t.entry.id].value in t.entry.dependsOn && parents[t.entry.id].value !in t.waitsOn;
  }

  // ----- The maximum over ranks taken one by one -----

  /** `best` is the greatest rank among the first `i` ids, -1 if there are none. */
  ghost predicate Deepest(g: Graph, ids: seq<Id>, i: nat, best: int)
    requires i <= |ids|
  {
    && best >= -1 && (i == 0 ==> best == -1)
    && (Acyclic(g) ==> forall k | 0 <= k < i :: AtMost(g, ids[k], best))
    && (Acyclic(g) && i > 0 ==> exists k :: 0 <= k < i && Longest(g, ids[k], best))
  }

  lemma DeepestStep(g: Graph, ids: seq<Id>, i: nat, best: int, rank: int)
    requires i < |ids| && Deepest(g, ids, i, best)
    requires rank >= 0 && (Acyclic(g) ==> Longest(g, ids[i], rank))
    ensures Deepest(g, ids, i + 1, if rank > best then rank else best)
  {
    if Acyclic(g) {
      var best' := if rank > best then rank else best;
      forall k | 0 <= k < i + 1 ensures AtMost(g, ids[k], best') {
        assert AtMost(g, ids[k], if k < i then best else rank);
      }
      if rank > best {
        assert Longest(g, ids[i], best');
      } else {
        LongestIsPositive(g, ids, i, best);
      }
    }
  }

  lemma LongestIsPositive(g: Graph, ids: seq<Id>, i: nat, best: int)
    requires i <= |ids| && Acyclic(g) && Deepest(g, ids, i, best) && best >= 0
    ensures i > 0
  {
  }

  lemma DeepestDone(g: Graph, id: Id, best: int)
    requires id in g && Acyclic(g) && Deepest(g, g[id].dependsOn, |g[id].dependsOn|, best)
    ensures Longest(g, id, 1 + best)
  {
    var ids := g[id].dependsOn;
    forall other | other in ids ensures AtMost(g, other, best) {
      var k :| 0 <= k < |ids| && ids[k] == other;
    }
    LongestStep(g, id, best);
  }

  ghost predicate LeadTo(g: Graph, walked: set<Id>, id: Id) {
    Acyclic(g) ==> forall w | w in walked :: Reaches(g, w, id)
  }

  lemma LeadOn(g: Graph, walked: set<Id>, id: Id)
    requires id in g && LeadTo(g, walked, id)
    ensures forall other | other in g[id].dependsOn :: LeadTo(g, walked + {id}, other)
  {
    if Acyclic(g) {
      forall w, other | w in walked + {id} && other in g[id].dependsOn ensures Reaches(g, w, other) {
        ReachesDependency(g, w, id, other);
      }
    }
  }

  /** `best` is the rank of option `at`, the first of the deepest among the first `i`. */
  ghost predicate Leads(g: Graph, options: seq<Id>, i: nat, at: nat, best: int) {
    && at < i <= |options|
    && (Acyclic(g) ==>
          && (forall k | 0 <= k < i :: AtMost(g, options[k], best))
          && (forall k | 0 <= k < at :: AtMost(g, options[k], best - 1)))
  }

  lemma FirstLeads(g: Graph, options: seq<Id>, best: int)
    requires options != [] && (Acyclic(g) ==> Longest(g, options[0], best))
    ensures Leads(g, options, 1, 0, best)
  {
  }

  lemma LeadsStep(g: Graph, options: seq<Id>, i: nat, at: nat, best: int, rank: int)
    requires i < |options| && Leads(g, options, i, at, best) && (Acyclic(g) ==> Longest(g, options[i], rank))
    ensures if rank > best then Leads(g, options, i + 1, i, rank) else Leads(g, options, i + 1, at, best)
  {
    if Acyclic(g) {
      forall k | 0 <= k < i ensures rank > best ==> AtMost(g, options[k], rank - 1) && AtMost(g, options[k], rank) {
        assert AtMost(g, options[k], best);
      }
      assert AtMost(g, options[i], if rank > best then rank else best);
    }
  }

  // ----- Sets of placed tasks -----

  function SetOf(ids: seq<Id>): set<Id> { set id | id in ids }

  /**
    Placing `ids` takes the placed set from `before` to `after`: each id is placed once, hangs under
    another of them unless it is one of `tops`, and brings along everything that hangs under it.
   */
  ghost predicate Grown(ids: seq<Id>, before: set<Id>, after: set<Id>, tops: set<Id>, entries: seq<Entry>, parents: Parents) {
    && Distinct(ids)
    && (forall id | id in ids :: id !in before && id in parents)
    && after == before + SetOf(ids) && tops <= after
    && (forall id | id in ids :: id in tops || (parents[id].Some? && parents[id].value in ids))
    && (forall e | e in entries && e.id in parents && parents[e.id].Some? && parents[e.id].value in ids :: e.id in after)
  }

  lemma GrownAppend(
    a: seq<Id>, b: seq<Id>, s0: set<Id>, s1: set<Id>, s2: set<Id>, ta: set<Id>, tb: set<Id>, entries: seq<Entry>, parents: Parents)
    requires Grown(a, s0, s1, ta, entries, parents) && Grown(b, s1, s2, tb, entries, parents)
    ensures Grown(a + b, s0, s2, ta + tb, entries, parents)
  {
    DistinctAppend(a, b);
    assert forall id :: id in a + b <==> id in a || id in b;
  }

  lemma GrownNode(
    id: Id, below: seq<Id>, before: set<Id>, after: set<Id>, tops: set<Id>, entries: seq<Entry>, parents: Parents)
    requires id !in before && id in parents
    requires Grown(below, before + {id}, after, tops, entries, parents)
    requires forall top | top in tops :: top in parents && parents[top] == Some(id)
    requires forall e | e in entries && e.id in parents && parents[e.id] == Some(id) :: e.id in after
    ensures Grown([id] + below, before, after, {id}, entries, parents)
  {
    DistinctAppend([id], below);
    assert forall x :: x in [id] + below <==> x == id || x in below;
    assert SetOf([id] + below) == {id} + SetOf(below);
  }

  lemma GrowTree(
    trees: seq<Tree>, tree: Tree, before: set<Id>, here: set<Id>, after: set<Id>, tops: set<Id>, top: set<Id>,
    entries: seq<Entry>, parents: Parents)
    requires Grown(ForestIds(trees), before, here, tops, entries, parents)
    requires Grown(TreeIds(tree), here, after, top, entries, parents)
    ensures Grown(ForestIds(trees + [tree]), before, after, tops + top, entries, parents)
  {
    GrownAppend(ForestIds(trees), TreeIds(tree), before, here, after, tops, top, entries, parents);
    ForestIdsAppend(trees, tree);
  }

  ghost predicate AllPlaced(trees: seq<Tree>, roots: nat, entries: seq<Entry>, parents: Parents) {
    && (forall k | 0 <= k < |trees| :: WellPlaced(trees[k], entries, parents))
    && (forall k | roots <= k < |trees| :: HasParent(trees[k], parents))
  }

  /** `entry` is the first of the entries that the trees do not have yet. */
  ghost predicate FirstLeft(entries: seq<Entry>, trees: seq<Tree>, entry: Entry) {
    exists p :: 0 <= p < |entries| && entries[p] == entry && entry.id !in ForestIds(trees)
      && forall q | 0 <= q < p :: entries[q].id in ForestIds(trees)
  }

  /** Each tree past the roots was planted for the first entry that was left by the trees before it. */
  ghost predicate TopsInTurn(entries: seq<Entry>, trees: seq<Tree>, roots: nat) {
    forall k | roots <= k < |trees| :: FirstLeft(entries, trees[..k], trees[k].entry)
  }

  lemma TurnTaken(entries: seq<Entry>, trees: seq<Tree>, roots: nat, tree: Tree, p: nat)
    requires p < |entries| && tree.entry == entries[p] && roots <= |trees| && TopsInTurn(entries, trees, roots)
    requires entries[p].id !in ForestIds(trees) && Names(entries[..p]) <= SetOf(ForestIds(trees))
    ensures TopsInTurn(entries, trees + [tree], roots)
  {
    forall q | 0 <= q < p ensures entries[q].id in ForestIds(trees) {
      assert entries[q] in entries[..p];
      assert entries[q].id in SetOf(ForestIds(trees));
    }
    assert FirstLeft(entries, trees, tree.entry);
    var more := trees + [tree];
    forall k | roots <= k < |more| ensures FirstLeft(entries, more[..k], more[k].entry) {
      if k == |trees| {
        assert more[..k] == trees;
      } else {
        assert more[..k] == trees[..k] && more[k] == trees[k];
        assert FirstLeft(entries, trees[..k], trees[k].entry);
      }
    }
  }

  lemma AppendPlaced(trees: seq<Tree>, tree: Tree, roots: nat, entries: seq<Entry>, parents: Parents)
    requires AllPlaced(trees, roots, entries, parents) && WellPlaced(tree, entries, parents) && HasParent(tree, parents)
    ensures AllPlaced(trees + [tree], roots, entries, parents)
  {
    forall k | 0 <= k < |trees + [tree]| ensures WellPlaced((trees + [tree])[k], entries, parents) {
      assert (trees + [tree])[k] == if k < |trees| then trees[k] else tree;
    }
  }

  lemma GrowOne(
    trees: seq<Tree>, tree: Tree, waiting: seq<Entry>, i: nat, before: set<Id>, here: set<Id>, after: set<Id>,
    entries: seq<Entry>, parents: Parents)
    requires i < |waiting|
    requires Grown(ForestIds(trees), before, here, Names(waiting[..i]), entries, parents)
    requires Grown(TreeIds(tree), here, after, {waiting[i].id}, entries, parents)
    ensures Grown(ForestIds(trees + [tree]), before, after, Names(waiting[..i + 1]), entries, parents)
  {
    GrownAppend(ForestIds(trees), TreeIds(tree), before, here, after, Names(waiting[..i]), {waiting[i].id}, entries, parents);
    ForestIdsAppend(trees, tree);
    NamesAppend(waiting, i);
  }

  /** Growing one of several tasks that hang together leaves the others unplaced. */
  lemma RestUntouched(
    ids: seq<Id>, before: set<Id>, after: set<Id>, waiting: seq<Entry>, i: nat, link: Option<Id>,
    entries: seq<Entry>, parents: Parents)
    requires i < |waiting| && UniqueIds(waiting)
    requires Grown(ids, before, after, {waiting[i].id}, entries, parents)
    requires forall e | e in waiting :: e.id in parents && parents[e.id] == link
    requires link.Some? ==> link.value in before
    requires forall k | i <= k < |waiting| :: waiting[k].id !in before
    ensures forall k | i < k < |waiting| :: waiting[k].id !in after
  {
    forall k | i < k < |waiting| ensures waiting[k].id !in after {
      assert waiting[k] in waiting;
      GrownMissesOthers(ids, before, after, waiting[i].id, waiting[k].id, entries, parents);
    }
  }

  /** Nothing that hangs elsewhere is placed by growing one tree. */
  lemma GrownMissesOthers(
    ids: seq<Id>, before: set<Id>, after: set<Id>, top: Id, other: Id, entries: seq<Entry>, parents: Parents)
    requires Grown(ids, before, after, {top}, entries, parents)
    requires other in parents && other != top && other !in before
    requires parents[other].None? || parents[other].value in before
    ensures other !in after
  {
  }

  type Depths = map<Id, int>

  /** What a dependency of `own` counts for: its memoised rank, or 0 if it has none yet or is `own` itself. */
  function Counts(depth: Depths, own: Id, other: Id): int { if other in depth && other != own then depth[other] else 0 }

  /** `best` is the highest count among the first `i` ids, -1 if there are none. */
  ghost predicate Highest(depth: Depths, own: Id, ids: seq<Id>, i: nat, best: int) {
    && i <= |ids| && (i == 0 ==> best == -1)
    && (forall k | 0 <= k < i :: Counts(depth, own, ids[k]) <= best)
    && (i > 0 ==> exists k :: 0 <= k < i && Counts(depth, own, ids[k]) == best)
  }

  /** The memo `depth'` holds what `depth` does, and perhaps more. */
  ghost predicate Extends(depth: Depths, depth': Depths) { forall x | x in depth :: x in depth' && depth'[x] == depth[x] }

  lemma ExtendsTransitive(a: Depths, b: Depths, c: Depths)
    requires Extends(a, b) && Extends(b, c)
    ensures Extends(a, c)
  {
  }

  lemma ExtendsOne(depth: Depths, depth': Depths, id: Id, rank: int)
    requires Extends(depth, depth') && id !in depth
    ensures Extends(depth, depth'[id := rank])
  {
  }

  /** The first `i` ids are memoised, or count as 0 for good. */
  ghost predicate Settled(g: Graph, depth: Depths, walked: set<Id>, ids: seq<Id>, i: nat) {
    && walked !! depth.Keys && depth.Keys <= g.Keys && i <= |ids|
    && forall k | 0 <= k < i :: ids[k] in depth || ids[k] !in g || ids[k] in walked
  }

  lemma NoneSettled(depth: Depths, g: Graph, walked: set<Id>, ids: seq<Id>)
    requires walked !! depth.Keys && depth.Keys <= g.Keys
    ensures Settled(g, depth, walked, ids, 0) && Extends(depth, depth)
  {
  }

  lemma HighestStep(g: Graph, depth: Depths, depth': Depths, walked: set<Id>, own: Id, ids: seq<Id>, i: nat, best: int)
    requires i < |ids| && Highest(depth, own, ids, i, best) && own in walked && walked !! depth'.Keys
    requires Counts(depth', own, ids[i]) >= 0
    requires Extends(depth, depth')
    requires depth'.Keys <= g.Keys
    requires Settled(g, depth, walked, ids, i)
    requires ids[i] in depth' || ids[i] !in g || ids[i] in walked
    ensures Settled(g, depth', walked, ids, i + 1)
    ensures
      var rank := Counts(depth', own, ids[i]);
      Highest(depth', own, ids, i + 1, if rank > best then rank else best)
  {
    var rank := Counts(depth', own, ids[i]);
    var best' := if rank > best then rank else best;
    forall k | 0 <= k < i ensures Counts(depth', own, ids[k]) == Counts(depth, own, ids[k]) {}
    if rank > best {
      assert Counts(depth', own, ids[i]) == best';
    }
  }

  lemma NoneHighest(depth: Depths, g: Graph, own: Id, ids: seq<Id>)
    ensures Highest(depth, own, ids, 0, -1) && Deepest(g, ids, 0, -1)
  {
  }

  lemma ExactMore(g: Graph, depth: Depths, id: Id, rank: int)
    requires ExactDepths(g, depth) && rank >= 0 && (Acyclic(g) ==> Longest(g, id, rank))
    ensures ExactDepths(g, depth[id := rank])
  {
  }

  lemma HighestStays(depth: Depths, own: Id, ids: seq<Id>, best: int, rank: int)
    requires Highest(depth, own, ids, |ids|, best) && own !in depth
    ensures Highest(depth[own := rank], own, ids, |ids|, best)
  {
    forall k | 0 <= k < |ids| ensures Counts(depth[own := rank], own, ids[k]) == Counts(depth, own, ids[k]) {}
  }

  /** `at` is the first of the options of greatest rank among the first `i`. */
  ghost predicate FirstDeepest(depth: Depths, options: seq<Id>, i: nat, at: nat) {
    && at < i <= |options|
    && (forall k | 0 <= k < i :: options[k] in depth)
    && (forall k | 0 <= k < i :: depth[options[k]] <= depth[options[at]])
    && (forall k | 0 <= k < at :: depth[options[k]] < depth[options[at]])
  }

  lemma FirstIsDeepest(depth: Depths, options: seq<Id>)
    requires options != [] && options[0] in depth
    ensures FirstDeepest(depth, options, 1, 0)
  {
  }

  lemma FirstDeepestStep(depth: Depths, depth': Depths, options: seq<Id>, i: nat, at: nat)
    requires i < |options| && FirstDeepest(depth, options, i, at) && options[i] in depth'
    requires forall id | id in depth :: id in depth' && depth'[id] == depth[id]
    ensures FirstDeepest(depth', options, i + 1, if depth'[options[i]] > depth[options[at]] then i else at)
  {
  }

  /**
    The gating option: the first of greatest rank, on every graph. Without cycles, where ranks are
    longest paths, none is deeper and those before it are shallower.
   */
  ghost predicate Gates(g: Graph, depth: Depths, options: seq<Id>, parent: Id) {
    && parent in options && parent in depth
    && (exists at: nat :: FirstDeepest(depth, options, |options|, at) && options[at] == parent)
    && (Acyclic(g) ==>
          && (forall other | other in options :: AtMost(g, other, depth[parent]))
          && exists k :: 0 <= k < |options| && options[k] == parent &&
               forall j | 0 <= j < k :: AtMost(g, options[j], depth[parent] - 1))
  }

  lemma GateFound(g: Graph, depth: Depths, options: seq<Id>, at: nat, best: int)
    requires Leads(g, options, |options|, at, best) && FirstDeepest(depth, options, |options|, at)
    requires options[at] in depth && depth[options[at]] == best
    ensures Gates(g, depth, options, options[at])
  {
  }

  /** The parent chosen for an entry: none when it has no known dependency besides itself. */
  ghost predicate Chosen(g: Graph, depth: Depths, entry: Entry, parent: Option<Id>) {
    var options := Options(g, entry);
    if parent.Some? then Gates(g, depth, options, parent.value) else options == []
  }

  ghost predicate ExactDepths(g: Graph, depth: Depths) {
    && (forall id | id in depth :: depth[id] >= 0)
    && (Acyclic(g) ==> forall id | id in depth :: Longest(g, id, depth[id]))
  }

  /** On an acyclic graph two memo tables choose the same option, whatever calls filled them. */
  lemma SameGate(g: Graph, depth: Depths, depth': Depths, options: seq<Id>, p: Id, p': Id)
    requires Acyclic(g) && ExactDepths(g, depth) && ExactDepths(g, depth')
    requires Gates(g, depth, options, p) && Gates(g, depth', options, p')
    ensures p == p' && depth[p] == depth'[p']
  {
    hide FirstDeepest;
    var k: int :| 0 <= k < |options| && options[k] == p && forall j | 0 <= j < k :: AtMost(g, options[j], depth[p] - 1);
    var l: int :| 0 <= l < |options| && options[l] == p' && forall j | 0 <= j < l :: AtMost(g, options[j], depth'[p'] - 1);
    LongestWithin(g, p, depth[p], depth'[p']);
    LongestWithin(g, p', depth'[p'], depth[p]);
    if k < l { LongestWithin(g, p, depth[p], depth'[p'] - 1); }
    if l < k { LongestWithin(g, p', depth'[p'], depth[p] - 1); }
  }

  lemma ChosenExtends(g: Graph, depth: Depths, depth': Depths, entry: Entry, parent: Option<Id>)
    requires Chosen(g, depth, entry, parent)
    requires forall id | id in depth :: id in depth' && depth'[id] == depth[id]
    ensures Chosen(g, depth', entry, parent)
  {
  }

  function Filed(under: map<Option<Id>, seq<Entry>>, parent: Option<Id>): seq<Entry> {
    if parent in under then under[parent] else []
  }

  function Height(depth: Depths, parents: Parents, id: Id): int {
    if id in parents && parents[id].Some? && parents[id].value in depth then depth[parents[id].value] + 1 else 0
  }

  /** Climbing from parent to parent of an acyclic graph ends at a root, so the roots reach everything. */
  lemma {:induction false} RootsReach(
    g: Graph, depth: Depths, entries: seq<Entry>, parents: Parents, placed: set<Id>, id: Id)
    requires Acyclic(g) && ExactDepths(g, depth) && parents.Keys == g.Keys && id in g
    requires forall x | x in g :: g[x].id == x && g[x] in entries && Chosen(g, depth, g[x], parents[x])
    requires forall e | e in entries && e.id in parents && parents[e.id].Some? && parents[e.id].value in placed :: e.id in placed
    requires forall x | x in g && parents[x].None? :: x in placed
    ensures id in placed
    decreases Height(depth, parents, id)
  {
    if parents[id].None? {
    } else {
      var p := parents[id].value;
      assert p in Options(g, g[id]);
      if parents[p].Some? {
        var q := parents[p].value;
        assert q in Options(g, g[p]);
        DependencyIsShallower(g, p, q, depth[p], depth[q]);
      }
      RootsReach(g, depth, entries, parents, placed, p);
      assert g[id] in entries;
    }
  }

  class Layout {
    const entries: seq<Entry>
    const known: Graph
    var depth: Depths
    var parents: Parents
    var under: map<Option<Id>, seq<Entry>>
    var placed: set<Id>

    ghost predicate Input()
    {
      && UniqueIds(entries)
      && (forall i | 0 <= i < |entries| :: entries[i].id in known && known[entries[i].id] == entries[i])
      && (forall id | id in known :: known[id].id == id && known[id] in entries)
    }

    constructor (entries: seq<Entry>)
      requires UniqueIds(entries)
      ensures this.entries == entries && Input()
      ensures depth == map[] && parents == map[] && under == map[] && placed == {}
    {
      this.entries := entries;
      known := map i | 0 <= i < |entries| :: entries[i].id := entries[i];
      depth, parents, under, placed := map[], map[], map[], {};
    }

    /** `under` files every entry under its parent, in the tracker's order. */
    ghost predicate Hung()
      reads this`parents, this`under
    {
      && UniqueIds(entries)
      && (forall e | e in entries :: e.id in known)
      && parents.Keys == known.Keys
      && forall parent :: Filed(under, parent) == Under(entries, parents, parent)
    }

    /** Every entry hangs under the dependency that gates it. */
    ghost predicate Linked()
      reads this
    {
      && Input() && Exact() && Hung()
      && forall id | id in known :: Chosen(known, depth, known[id], parents[id])
    }

    /** In an acyclic graph every memoised rank is the length of the longest path. */
    ghost predicate Exact()
      reads this`depth
    {
      ExactDepths(known, depth)
    }

    method Rank(id: Id, walked: set<Id>) returns (rank: int)
      requires Input() && Exact() && walked <= known.Keys && LeadTo(known, walked, id)
      requires walked !! depth.Keys && depth.Keys <= known.Keys
      modifies this`depth
      ensures walked !! depth.Keys && depth.Keys <= known.Keys
      // a memoised rank stands; a task on the way here, or an unknown one, counts as 0; any other is one
      // above the highest of what it waits on, cycles or not
      ensures id in old(depth) ==> rank == old(depth)[id] && depth == old(depth)
      ensures id !in old(depth) && (id !in known || id in walked) ==> rank == 0 && depth == old(depth)
      ensures id !in old(depth) && id in known && id !in walked ==>
        Highest(depth, id, known[id].dependsOn, |known[id].dependsOn|, rank - 1)
      ensures Exact() && rank >= 0
      ensures Extends(old(depth), depth)
      ensures Acyclic(known) ==> Longest(known, id, rank)
      ensures id in known && id !in walked ==> id in depth && depth[id] == rank
      decreases known.Keys - walked, 0
    {
      if id in depth {
        return depth[id];
      }
      if id !in known || id in walked {
        if id !in known { UnknownIsAtZero(known, id); }
        return 0;
      }
      hide ExactDepths, Deepest, Highest, Longest, AtMost, LeadTo, Extends, Acyclic;
      LeadOn(known, walked, id);
      var best := Below(id, walked + {id});
      rank := 1 + best;
      if Acyclic(known) { DeepestDone(known, id, best); }
      HighestStays(depth, id, known[id].dependsOn, best, rank);
      ExactMore(known, depth, id, rank);
      ExtendsOne(old(depth), depth, id, rank);
      depth := depth[id := rank];
    }

    /** The highest rank among the dependencies of the task last walked to, -1 if it has none. */
    method Below(id: Id, walked: set<Id>) returns (best: int)
      requires Input() && Exact() && id in walked && walked <= known.Keys
      requires forall other | other in known[id].dependsOn :: LeadTo(known, walked, other)
      requires walked !! depth.Keys && depth.Keys <= known.Keys
      modifies this`depth
      ensures walked !! depth.Keys && depth.Keys <= known.Keys
      ensures Exact() && Extends(old(depth), depth) && best >= -1
      ensures Highest(depth, id, known[id].dependsOn, |known[id].dependsOn|, best)
      ensures Deepest(known, known[id].dependsOn, |known[id].dependsOn|, best)
      decreases known.Keys - walked, 1
    {
      hide ExactDepths, Deepest, Highest, Longest, AtMost, LeadTo, Extends, Settled, Acyclic;
      var others := known[id].dependsOn;
      best := -1;
      NoneHighest(depth, known, id, others);
      NoneSettled(depth, known, walked, others);
      for i := 0 to |others|
        invariant Exact() && Deepest(known, others, i, best) && Highest(depth, id, others, i, best)
        invariant walked !! depth.Keys && depth.Keys <= known.Keys
        invariant best >= -1 && Settled(known, depth, walked, others, i) && Extends(old(depth), depth)
      {
        ghost var before := depth;
        var other := Rank(others[i], walked);
        HighestStep(known, before, depth, walked, id, others, i, best);
        ExtendsTransitive(old(depth), before, depth);
        DeepestStep(known, others, i, best, other);
        best := if other > best then other else best;
      }
    }

    /** The first option of greatest rank. */
    method DeepestOption(options: seq<Id>) returns (parent: Option<Id>)
      requires Input() && Exact() && depth.Keys <= known.Keys && forall id | id in options :: id in known
      modifies this`depth
      ensures Exact() && depth.Keys <= known.Keys
      ensures forall x | x in old(depth) :: x in depth && depth[x] == old(depth)[x]
      ensures if parent.Some? then Gates(known, depth, options, parent.value) else options == []
    {
      hide ExactDepths, Leads, FirstDeepest, Gates;
      if options == [] {
        return None;
      }
      var best := Rank(options[0], {});
      var at := 0;
      FirstLeads(known, options, best);
      FirstIsDeepest(depth, options);
      for i := 1 to |options|
        invariant Exact() && depth.Keys <= known.Keys
        invariant forall x | x in old(depth) :: x in depth && depth[x] == old(depth)[x]
        invariant 0 <= at < i && options[at] in depth && depth[options[at]] == best
        invariant Leads(known, options, i, at, best)
        invariant FirstDeepest(depth, options, i, at)
      {
        ghost var before := depth;
        var rank := Rank(options[i], {});
        LeadsStep(known, options, i, at, best, rank);
        FirstDeepestStep(before, depth, options, i, at);
        if rank > best {
          best, at := rank, i;
        }
      }
      GateFound(known, depth, options, at, best);
      return Some(options[at]);
    }

    /** Build, in order, tasks that hang under the same link; none of them places another. */
    method BuildAll(waiting: seq<Entry>, link: Option<Id>) returns (trees: seq<Tree>)
      requires Hung() && placed <= known.Keys && UniqueIds(waiting)
      requires forall e | e in waiting :: e in entries && e.id !in placed && parents[e.id] == link
      requires link.Some? ==> link.value in placed
      modifies this`placed
      ensures placed <= known.Keys
      ensures Planted(trees, waiting, entries, parents)
      ensures Grown(ForestIds(trees), old(placed), placed, Names(waiting), entries, parents)
      decreases known.Keys - placed, 1
    {
      hide Grown, Planted, WellPlaced, Under, Filed;
      trees := [];
      ghost var before := placed;
      assert waiting[..0] == [];
      NothingPlanted(placed, entries, parents);
      for i := 0 to |waiting|
        invariant before <= placed <= known.Keys
        invariant Planted(trees, waiting[..i], entries, parents)
        invariant Grown(ForestIds(trees), before, placed, Names(waiting[..i]), entries, parents)
        invariant forall k | i <= k < |waiting| :: waiting[k].id !in placed
      {
        ghost var here := placed;
        var tree := Build(waiting[i]);
        RestUntouched(TreeIds(tree), here, placed, waiting, i, link, entries, parents);
        GrowOne(trees, tree, waiting, i, before, here, placed, entries, parents);
        PlantOne(trees, tree, waiting, i, entries, parents);
        trees := trees + [tree];
      }
      assert waiting[..|waiting|] == waiting;
    }

    method Build(entry: Entry) returns (tree: Tree)
      requires Hung() && entry in entries && entry.id !in placed && placed <= known.Keys
      modifies this`placed
      ensures placed <= known.Keys
      ensures old(placed) < placed && entry.id in placed
      ensures tree.entry == entry && WellPlaced(tree, entries, parents)
      ensures Grown(TreeIds(tree), old(placed), placed, {entry.id}, entries, parents)
      decreases known.Keys - placed, 0
    {
      ghost var before := placed;
      placed := placed + {entry.id};
      var link := Some(entry.id);
      var waiting := Unplaced(Filed(under, link), placed);
      UnderMembers(entries, parents, link);
      UnderInOrder(entries, parents, link);
      UnplacedInOrder(Under(entries, parents, link), placed, entries);
      var children := BuildAll(waiting, link);
      forall e | e in entries && e.id in parents && parents[e.id] == link ensures e.id in placed {
        assert e in Under(entries, parents, link);
        assert e in waiting ==> e.id in Names(waiting);
      }
      GrownNode(entry.id, ForestIds(children), before, placed, Names(waiting), entries, parents);
      tree := Node(entry, Without(entry.dependsOn, parents[entry.id]), children);
    }

    /** Choose every entry's parent and file it there. */
    method Link()
      requires Input() && depth == map[] && parents == map[] && under == map[]
      modifies this`depth, this`parents, this`under
      ensures Linked()
    {
      hide LinkedTo, Gates, Under, Options, Filed;
      NothingLinked(entries, known);
      for i := 0 to |entries|
        invariant Exact() && depth.Keys <= known.Keys
        invariant LinkedTo(entries, i, known, depth, parents, under)
      {
        var entry := entries[i];
        ghost var depth0, parents0, under0 := depth, parents, under;
        var parent := DeepestOption(Options(known, entry));
        parents := parents[entry.id := parent];
        under := under[parent := Filed(under, parent) + [entry]];
        LinkOne(entries, i, known, depth0, depth, parents0, under0, parent);
      }
      AllLinked(entries, known, depth, parents, under);
    }

    /** One step of the trailing pass. */
    method PlaceIfLeft(above: seq<Tree>, roots: nat, entry: Entry, ghost tops: set<Id>)
      returns (trees: seq<Tree>, ghost grown: set<Id>)
      requires Hung() && placed <= known.Keys && entry in entries
      requires roots <= |above| && AllPlaced(above, roots, entries, parents)
      requires Grown(ForestIds(above), {}, placed, tops, entries, parents)
      requires entry.id in placed || parents[entry.id].Some?
      modifies this`placed
      ensures old(placed) <= placed <= known.Keys && entry.id in placed
      ensures above <= trees && AllPlaced(trees, roots, entries, parents)
      ensures Grown(ForestIds(trees), {}, placed, grown, entries, parents)
      ensures trees == if entry.id in old(placed) then above else above + [trees[|trees| - 1]]
      ensures entry.id !in old(placed) ==> trees[|trees| - 1].entry == entry
      ensures entry.id in old(placed) ==> placed == old(placed)
    {
      trees, grown := above, tops;
      if entry.id !in placed {
        ghost var here := placed;
        var tree := Build(entry);
        GrowTree(above, tree, {}, here, placed, tops, {entry.id}, entries, parents);
        AppendPlaced(above, tree, roots, entries, parents);
        trees, grown := above + [tree], tops + {entry.id};
      }
    }

    /** The trailing pass: a tree for every entry the roots never reached. */
    method PlaceRest(above: seq<Tree>, ghost tops: set<Id>) returns (trees: seq<Tree>)
      requires Hung() && placed <= known.Keys && AllPlaced(above, |above|, entries, parents)
      requires Grown(ForestIds(above), {}, placed, tops, entries, parents)
      requires forall e | e in entries && parents[e.id].None? :: e.id in placed
      modifies this`placed
      ensures Names(entries) <= placed <= known.Keys && above <= trees
      ensures Distinct(ForestIds(trees)) && SetOf(ForestIds(trees)) == placed
      ensures AllPlaced(trees, |above|, entries, parents)
      ensures TopsInTurn(entries, trees, |above|)
      ensures old(placed) == known.Keys ==> trees == above
    {
      trees := above;
      ghost var grown := tops;
      for i := 0 to |entries|
        invariant old(placed) <= placed <= known.Keys && above <= trees
        invariant AllPlaced(trees, |above|, entries, parents)
        invariant Grown(ForestIds(trees), {}, placed, grown, entries, parents)
        invariant Names(entries[..i]) <= placed && TopsInTurn(entries, trees, |above|)
        invariant old(placed) == known.Keys ==> trees == above
      {
        ghost var before, left := trees, entries[i].id !in placed;
        trees, grown := PlaceIfLeft(trees, |above|, entries[i], grown);
        if left { TurnTaken(entries, before, |above|, trees[|before|], i); }
        NamesAppend(entries, i);
      }
      assert entries[..|entries|] == entries;
    }

    method PlantRoots() returns (above: seq<Tree>)
      requires Hung() && placed == {}
      modifies this`placed
      ensures placed <= known.Keys && Planted(above, Under(entries, parents, None), entries, parents)
      ensures Grown(ForestIds(above), {}, placed, Names(Under(entries, parents, None)), entries, parents)
      ensures forall e | e in entries && parents[e.id].None? :: e.id in placed
    {
      UnderMembers(entries, parents, None);
      above := BuildAll(Filed(under, None), None);
      RootsPlaced(placed);
    }

    /** Both passes; `reached` is what the first, over the tasks without a parent, placed. */
    method Plant() returns (trees: seq<Tree>, roots: nat, ghost reached: set<Id>)
      requires Hung() && placed == {} && Names(entries) == known.Keys
      modifies this`placed
      ensures roots <= |trees| && Planted(trees[..roots], Under(entries, parents, None), entries, parents)
      ensures Distinct(ForestIds(trees)) && SetOf(ForestIds(trees)) == known.Keys
      ensures AllPlaced(trees, roots, entries, parents) && TopsInTurn(entries, trees, roots)
      ensures Grown(ForestIds(trees[..roots]), {}, reached, Names(Under(entries, parents, None)), entries, parents)
      ensures reached == known.Keys ==> roots == |trees|
    {
      hide Grown, AllPlaced, Planted, TopsInTurn, Under, Filed, ForestIds, Distinct;
      var above := PlantRoots();
      reached := placed;
      trees := PlaceRest(above, Names(Under(entries, parents, None)));
      roots := |above|;
      assert trees[..roots] == above;
    }

    /**
      The whole layout: the trees of the tasks without a parent, then those of whatever they never
      reached. `roots` counts the former.
     */
    method Trees() returns (trees: seq<Tree>, roots: nat)
      requires Input() && depth == map[] && parents == map[] && under == map[] && placed == {}
      modifies this
      ensures Linked()
      // exactly once
      ensures Distinct(ForestIds(trees)) && SetOf(ForestIds(trees)) == known.Keys
      ensures forall i | 0 <= i < |trees| :: WellPlaced(trees[i], entries, parents)
      // the roots come first, in order, and show every dependency; the others each hide one
      ensures roots <= |trees| && Planted(trees[..roots], Under(entries, parents, None), entries, parents)
      ensures forall i | 0 <= i < |trees| :: ShowsAll(trees[i], None) <==> i < roots
      // each of the others was planted for the first entry left by the trees before it
      ensures TopsInTurn(entries, trees, roots)
      // an acyclic graph leaves nothing behind
      ensures Acyclic(known) ==> roots == |trees|
    {
      hide Grown, Planted, TopsInTurn, WellPlaced, ShowsAll, Chosen, Under, Filed, ForestIds, Distinct, HasParent;
      Link();
      assert Names(entries) == known.Keys;
      ghost var reached;
      trees, roots, reached := Plant();
      if Acyclic(known) { EverythingReached(ForestIds(trees[..roots]), reached); }
      ShownTops(trees, roots);
    }

    lemma RootsPlaced(reached: set<Id>)
      requires Hung() && Names(Under(entries, parents, None)) <= reached
      ensures forall e | e in entries && parents[e.id].None? :: e.id in reached
    {
      UnderMembers(entries, parents, None);
      forall e | e in entries && parents[e.id].None? ensures e.id in reached {
        assert e in Under(entries, parents, None);
      }
    }

    lemma EverythingReached(ids: seq<Id>, reached: set<Id>)
      requires Linked() && Acyclic(known)
      requires Grown(ids, {}, reached, Names(Under(entries, parents, None)), entries, parents)
      ensures known.Keys == reached
    {
      hide Chosen, Under, Filed;
      RootsPlaced(reached);
      forall x | x in known && parents[x].None? ensures x in reached {
        assert known[x] in entries;
      }
      forall id | id in known ensures id in reached {
        RootsReach(known, depth, entries, parents, reached, id);
      }
    }

    lemma ShownTops(trees: seq<Tree>, roots: nat)
      requires Linked() && roots <= |trees|
      requires Planted(trees[..roots], Under(entries, parents, None), entries, parents)
      requires AllPlaced(trees, roots, entries, parents)
      ensures forall i | 0 <= i < |trees| :: ShowsAll(trees[i], None) <==> i < roots
    {
      UnderMembers(entries, parents, None);
      assert LinksAreDependencies(entries, parents) by {
        forall e | e in entries && e.id in parents && parents[e.id].Some? ensures parents[e.id].value in e.dependsOn {
          assert Chosen(known, depth, known[e.id], parents[e.id]);
        }
      }
      forall i | 0 <= i < |trees| ensures ShowsAll(trees[i], None) <==> i < roots {
        if i < roots {
          var top := Under(entries, parents, None);
          assert trees[..roots][i] == trees[i] && top[i] in top;
          TreeShowsAll(trees[i], entries, parents);
        } else {
          TopHidesParent(trees[i], entries, parents);
        }
      }
    }
  }

  /**
    In which order the tracker lists the tasks of an acyclic graph changes neither their ranks nor
    where they hang.
   */
  lemma OrderDoesNotMatter(a: Layout, b: Layout, id: Id)
    requires a.Linked() && b.Linked() && a.known == b.known && Acyclic(a.known) && id in a.known
    ensures a.parents[id] == b.parents[id]
    ensures id in a.depth && id in b.depth ==> a.depth[id] == b.depth[id]
  {
    hide FirstDeepest, Under, Filed, AtMost;
    assert Chosen(a.known, a.depth, a.known[id], a.parents[id]) && Chosen(b.known, b.depth, b.known[id], b.parents[id]);
    var options := Options(a.known, a.known[id]);
    if options != [] {
      SameGate(a.known, a.depth, b.depth, options, a.parents[id].value, b.parents[id].value);
    }
    if id in a.depth && id in b.depth {
      LongestIsUnique(a.known, id, a.depth[id], b.depth[id]);
    }
  }

  /** A dependency that a task can hang under. */
  predicate CanGate(g: Graph, entry: Entry, other: Id) { other in g && other != entry.id }

  /** The dependency at `k` is the first of those of greatest rank that a task can hang under. */
  ghost predicate GatesFrom(g: Graph, depth: Depths, entry: Entry, k: nat) {
    var ids := entry.dependsOn;
    && k < |ids| && CanGate(g, entry, ids[k]) && ids[k] in depth
    && (forall j | 0 <= j < |ids| && CanGate(g, entry, ids[j]) :: ids[j] in depth && depth[ids[j]] <= depth[ids[k]])
    && (forall j | 0 <= j < k && CanGate(g, entry, ids[j]) :: depth[ids[j]] < depth[ids[k]])
  }

  /** The first deepest option is the first deepest dependency that can gate. */
  lemma FirstAmongDependencies(g: Graph, depth: Depths, entry: Entry, places: seq<nat>, at: nat)
    requires FirstDeepest(depth, Options(g, entry), |Options(g, entry)|, at)
    requires Selects(entry.dependsOn, Gating(g, entry.id), Itself(), Options(g, entry), places)
    ensures at < |places| && GatesFrom(g, depth, entry, places[at]) && entry.dependsOn[places[at]] == Options(g, entry)[at]
  {
    hide Options;
    var options, ids, k := Options(g, entry), entry.dependsOn, places[at];
    forall j | 0 <= j < |ids| && CanGate(g, entry, ids[j])
      ensures ids[j] in depth && depth[ids[j]] <= depth[ids[k]] && (j < k ==> depth[ids[j]] < depth[ids[k]])
    {
      assert Gating(g, entry.id)(ids[j]);
      var i :| 0 <= i < |places| && places[i] == j;
      assert options[i] == ids[j];
      assert at < i ==> places[at] < places[i];
    }
  }

  lemma ChosenFromDependencies(g: Graph, depth: Depths, entry: Entry, parent: Option<Id>) returns (k: nat)
    requires Chosen(g, depth, entry, parent)
    ensures parent.None? <==> forall other | other in entry.dependsOn :: !CanGate(g, entry, other)
    ensures parent.Some? ==> GatesFrom(g, depth, entry, k) && entry.dependsOn[k] == parent.value
  {
    hide Selects, GatesFrom;
    k := 0;
    var options := Options(g, entry);
    if parent.Some? {
      var places := SelectedInOrder(g, entry.id, entry.dependsOn);
      var at: nat :| FirstDeepest(depth, options, |options|, at) && options[at] == parent.value;
      FirstAmongDependencies(g, depth, entry, places, at);
      k := places[at];
    }
  }

  lemma LinkedChosen(l: Layout, entry: Entry)
    requires l.Linked() && entry in l.entries
    ensures entry.id in l.parents && Chosen(l.known, l.depth, entry, l.parents[entry.id])
  {
    hide Under, Filed, Chosen;
    assert entry.id in l.known && l.known[entry.id] == entry;
  }

  /**
    On every graph a task hangs under the first of its known dependencies, other than itself, of
    greatest rank, and nowhere when it has none; the rest of its dependencies it waits on in their order.
   */
  lemma HangsUnderItsGate(l: Layout, entry: Entry, t: Tree) returns (k: nat, places: seq<nat>)
    requires l.Linked() && entry in l.entries && entry.id in l.parents
    requires WellPlaced(t, l.entries, l.parents) && t.entry == entry
    ensures l.parents[entry.id].None? <==> forall other | other in entry.dependsOn :: !CanGate(l.known, entry, other)
    ensures l.parents[entry.id].Some? ==>
      GatesFrom(l.known, l.depth, entry, k) && entry.dependsOn[k] == l.parents[entry.id].value
    ensures Selects(entry.dependsOn, NotParent(l.parents[entry.id]), Itself(), t.waitsOn, places)
  {
    hide Under, Filed, Chosen, GatesFrom, Selects, NotParent, CanGate;
    LinkedChosen(l, entry);
    k := ChosenFromDependencies(l.known, l.depth, entry, l.parents[entry.id]);
    places := WithoutInOrder(entry.dependsOn, l.parents[entry.id]);
  }

  ghost predicate HasParent(t: Tree, parents: Parents) { t.entry.id in parents && parents[t.entry.id].Some? }

  /** The first `i` entries have their parents and are filed under them. */
  ghost predicate LinkedTo(
    entries: seq<Entry>, i: nat, g: Graph, depth: Depths, parents: Parents, under: map<Option<Id>, seq<Entry>>)
    requires i <= |entries|
  {
    && parents.Keys == Names(entries[..i])
    && (forall k | 0 <= k < i :: entries[k].id in parents && Chosen(g, depth, entries[k], parents[entries[k].id]))
    && forall parent :: Filed(under, parent) == Under(entries[..i], parents, parent)
  }

  lemma NothingLinked(entries: seq<Entry>, g: Graph)
    ensures LinkedTo(entries, 0, g, map[], map[], map[])
  {
    assert entries[..0] == [];
  }

  lemma AllLinked(entries: seq<Entry>, g: Graph, depth: Depths, parents: Parents, under: map<Option<Id>, seq<Entry>>)
    requires LinkedTo(entries, |entries|, g, depth, parents, under)
    requires forall i | 0 <= i < |entries| :: entries[i].id in g && g[entries[i].id] == entries[i]
    requires forall id | id in g :: g[id].id == id && g[id] in entries
    ensures parents.Keys == g.Keys
    ensures forall parent :: Filed(under, parent) == Under(entries, parents, parent)
    ensures forall id | id in g :: Chosen(g, depth, g[id], parents[id])
  {
    hide Filed, Under, Gates;
    assert entries[..|entries|] == entries;
    forall id | id in g ensures id in parents && Chosen(g, depth, g[id], parents[id]) {
      var k :| 0 <= k < |entries| && entries[k] == g[id];
    }
  }

  lemma ChosenKept(
    entries: seq<Entry>, i: nat, g: Graph, depth: Depths, depth': Depths, parents: Parents, parent: Option<Id>)
    requires i < |entries| && UniqueIds(entries)
    requires forall k | 0 <= k < i :: entries[k].id in parents && Chosen(g, depth, entries[k], parents[entries[k].id])
    requires forall id | id in depth :: id in depth' && depth'[id] == depth[id]
    requires Chosen(g, depth', entries[i], parent)
    ensures
      var parents' := parents[entries[i].id := parent];
      forall k | 0 <= k < i + 1 :: entries[k].id in parents' && Chosen(g, depth', entries[k], parents'[entries[k].id])
  {
    forall k | 0 <= k < i ensures Chosen(g, depth', entries[k], parents[entries[k].id]) {
      ChosenExtends(g, depth, depth', entries[k], parents[entries[k].id]);
    }
  }

  lemma LinkOne(
    entries: seq<Entry>, i: nat, g: Graph, depth: Depths, depth': Depths, parents: Parents,
    under: map<Option<Id>, seq<Entry>>, parent: Option<Id>)
    requires i < |entries| && UniqueIds(entries) && LinkedTo(entries, i, g, depth, parents, under)
    requires forall id | id in depth :: id in depth' && depth'[id] == depth[id]
    requires Chosen(g, depth', entries[i], parent)
    ensures LinkedTo(entries, i + 1, g, depth', parents[entries[i].id := parent],
                     under[parent := Filed(under, parent) + [entries[i]]])
  {
    hide Chosen, Filed, Under;
    var parents' := parents[entries[i].id := parent];
    ChosenKept(entries, i, g, depth, depth', parents, parent);
    NamesAppend(entries, i);
    assert parents'.Keys == Names(entries[..i + 1]);
    FileOne(entries, i, parents, parents', under, under[parent := Filed(under, parent) + [entries[i]]], parent);
  }

  lemma FileOne(
    entries: seq<Entry>, i: nat, parents: Parents, parents': Parents,
    under: map<Option<Id>, seq<Entry>>, under': map<Option<Id>, seq<Entry>>, parent: Option<Id>)
    requires i < |entries| && UniqueIds(entries)
    requires parents.Keys == Names(entries[..i]) && parents' == parents[entries[i].id := parent]
    requires forall p :: Filed(under, p) == Under(entries[..i], parents, p)
    requires under' == under[parent := Filed(under, parent) + [entries[i]]]
    ensures forall p :: Filed(under', p) == Under(entries[..i + 1], parents', p)
  {
    assert entries[i].id !in parents;
    forall p ensures Filed(under', p) == Under(entries[..i + 1], parents', p) {
      UnderAppend(entries, i, parents, parents', p);
      assert Filed(under, p) == Under(entries[..i], parents, p);
    }
  }

  lemma UnderAppend(entries: seq<Entry>, i: nat, parents: Parents, parents': Parents, parent: Option<Id>)
    requires i < |entries| && UniqueIds(entries)
    requires parents.Keys == Names(entries[..i]) && entries[i].id in parents'
    requires forall id | id in parents :: id in parents' && parents'[id] == parents[id]
    ensures Under(entries[..i + 1], parents', parent) ==
      Under(entries[..i], parents, parent) + if parents'[entries[i].id] == parent then [entries[i]] else []
  {
    assert entries[..i + 1][..i] == entries[..i];
    assert forall e | e in entries[..i] :: e.id in Names(entries[..i]);
    UnderFrame(entries[..i], parents, parents', parent);
  }
}
