/** Dependency graphs: paths, cycles, and the longest path from a task. */
module Dependencies {
  type Id = string

  datatype Entry = Entry(id: Id, dependsOn: seq<Id>)

  /** The entries by id; a dependency may name an id that is not among them. */
  type Graph = map<Id, Entry>

  /** A walk along dependencies; only its last id may be unknown. */
  ghost predicate Path(g: Graph, p: seq<Id>) {
    p != [] && forall i | 0 <= i < |p| - 1 :: p[i] in g && p[i + 1] in g[p[i]].dependsOn
  }

  ghost predicate PathFrom(g: Graph, id: Id, p: seq<Id>) { Path(g, p) && p[0] == id }

  ghost predicate Reaches(g: Graph, a: Id, b: Id) {
    exists p :: PathFrom(g, a, p) && |p| > 1 && p[|p| - 1] == b
  }

  ghost predicate Acyclic(g: Graph) { forall id :: !Reaches(g, id, id) }

  /** No path from `id` has more than `d` steps. */
  ghost predicate AtMost(g: Graph, id: Id, d: int) { forall p | PathFrom(g, id, p) :: |p| <= d + 1 }

  /** The longest path from `id` has exactly `d` steps. */
  ghost predicate Longest(g: Graph, id: Id, d: int) {
    AtMost(g, id, d) && exists p :: PathFrom(g, id, p) && |p| == d + 1
  }

  /** Any bound on the paths from `id` is at least the length of the longest. */
  lemma LongestWithin(g: Graph, id: Id, d: int, d': int)
    requires Longest(g, id, d) && AtMost(g, id, d')
    ensures d <= d'
  {
    var p :| PathFrom(g, id, p) && |p| == d + 1;
  }

  lemma LongestIsUnique(g: Graph, id: Id, d: int, d': int)
    requires Longest(g, id, d) && Longest(g, id, d')
    ensures d == d'
  {
    LongestWithin(g, id, d, d');
    LongestWithin(g, id, d', d);
  }

  lemma UnknownIsAtZero(g: Graph, id: Id)
    requires id !in g
    ensures Longest(g, id, 0)
  {
    assert PathFrom(g, id, [id]);
  }

  lemma ReachesDependency(g: Graph, a: Id, id: Id, other: Id)
    requires id in g && other in g[id].dependsOn && (a == id || Reaches(g, a, id))
    ensures Reaches(g, a, other)
  {
    if a == id {
      assert PathFrom(g, a, [a, other]);
    } else {
      var p :| PathFrom(g, a, p) && |p| > 1 && p[|p| - 1] == id;
      assert PathFrom(g, a, p + [other]);
    }
  }

  /** One more than the deepest dependency, 0 when there are none. */
  lemma LongestStep(g: Graph, id: Id, best: int)
    requires id in g
    requires forall other | other in g[id].dependsOn :: AtMost(g, other, best)
    requires if g[id].dependsOn == [] then best == -1 else exists other :: other in g[id].dependsOn && Longest(g, other, best)
    ensures Longest(g, id, 1 + best)
  {
    forall p | PathFrom(g, id, p) ensures |p| <= best + 2 {
      if |p| > 1 {
        assert PathFrom(g, p[1], p[1..]) by {
          forall i | 0 <= i < |p[1..]| - 1 ensures p[1..][i] in g && p[1..][i + 1] in g[p[1..][i]].dependsOn {
            assert p[i + 1] in g && p[i + 2] in g[p[i + 1]].dependsOn;
          }
        }
        assert AtMost(g, p[1], best);
      } else if g[id].dependsOn != [] {
        var other :| other in g[id].dependsOn && Longest(g, other, best);
      }
    }
    if g[id].dependsOn == [] {
      assert PathFrom(g, id, [id]);
    } else {
      var other :| other in g[id].dependsOn && Longest(g, other, best);
      var p :| PathFrom(g, other, p) && |p| == best + 1;
      assert PathFrom(g, id, [id] + p) by {
        var q := [id] + p;
        forall i | 0 <= i < |q| - 1 ensures q[i] in g && q[i + 1] in g[q[i]].dependsOn {
          if i > 0 { assert p[i - 1] in g && p[i] in g[p[i - 1]].dependsOn; }
        }
      }
    }
  }

  /** A dependency is strictly shallower than the task that waits on it. */
  lemma DependencyIsShallower(g: Graph, id: Id, other: Id, d: int, d': int)
    requires id in g && other in g[id].dependsOn && AtMost(g, id, d) && Longest(g, other, d')
    ensures d' < d
  {
    var p :| PathFrom(g, other, p) && |p| == d' + 1;
    var q := [id] + p;
    forall i | 0 <= i < |q| - 1 ensures q[i] in g && q[i + 1] in g[q[i]].dependsOn {
      if i > 0 { assert p[i - 1] in g && p[i] in g[p[i - 1]].dependsOn; }
    }
    assert PathFrom(g, id, q);
  }
}
