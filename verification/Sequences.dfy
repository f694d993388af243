/** Facts about sequences that several modules state. */
module Sequences {
  predicate Distinct<T(==)>(s: seq<T>) { forall i, j | 0 <= i < j < |s| :: s[i] != s[j] }

  /**
    `r` is `f` of exactly those elements of `s` that are kept, in the order of `s`; `places` says where
    they stand there.
   */
  ghost predicate Selects<T, U>(s: seq<T>, keep: T -> bool, f: T -> U, r: seq<U>, places: seq<nat>) {
    && |places| == |r|
    && (forall k | 0 <= k < |r| :: places[k] < |s| && keep(s[places[k]]) && r[k] == f(s[places[k]]))
    && (forall k, l | 0 <= k < l < |r| :: places[k] < places[l])
    && (forall i | 0 <= i < |s| && keep(s[i]) :: i in places)
  }

  function Shifted(places: seq<nat>): (r: seq<nat>)
    ensures |r| == |places| && forall k | 0 <= k < |r| :: r[k] == places[k] + 1
  {
    seq(|places|, k requires 0 <= k < |places| => places[k] + 1)
  }

  lemma ShiftedHas(places: seq<nat>, i: nat)
    requires i in places
    ensures i + 1 in Shifted(places)
  {
    var k :| 0 <= k < |places| && places[k] == i;
    assert Shifted(places)[k] == i + 1;
  }

  /** One element more in front, which is not kept. */
  lemma SelectsSkip<T, U>(x: T, s: seq<T>, keep: T -> bool, f: T -> U, r: seq<U>, places: seq<nat>)
    requires Selects(s, keep, f, r, places) && !keep(x)
    ensures Selects([x] + s, keep, f, r, Shifted(places))
  {
    var all := [x] + s;
    forall i | 0 <= i < |all| && keep(all[i]) ensures i in Shifted(places) {
      assert all[i] == s[i - 1];
      ShiftedHas(places, i - 1);
    }
  }

  lemma FirstPlace(places: seq<nat>)
    requires forall k, l | 0 <= k < l < |places| :: places[k] < places[l]
    ensures var kept := [0] + Shifted(places); forall k, l | 0 <= k < l < |kept| :: kept[k] < kept[l]
  {
  }

  lemma PlacesShifted<T>(x: T, s: seq<T>, keep: T -> bool, places: seq<nat>, i: nat)
    requires i <= |s| && keep(([x] + s)[i]) && forall j | 0 <= j < |s| && keep(s[j]) :: j in places
    ensures i in [0] + Shifted(places)
  {
    if i == 0 {
      assert ([0] + Shifted(places))[0] == 0;
    } else {
      assert ([x] + s)[i] == s[i - 1];
      ShiftedHas(places, i - 1);
    }
  }

  /** One element more in front, which is kept. */
  lemma SelectsKeep<T, U>(x: T, s: seq<T>, keep: T -> bool, f: T -> U, r: seq<U>, places: seq<nat>)
    requires Selects(s, keep, f, r, places) && keep(x)
    ensures Selects([x] + s, keep, f, [f(x)] + r, [0] + Shifted(places))
  {
    var all, moved := [x] + s, Shifted(places);
    var kept, more := [0] + moved, [f(x)] + r;
    forall i | 0 <= i < |all| && keep(all[i]) ensures i in kept {
      PlacesShifted(x, s, keep, places, i);
    }
    forall k | 0 <= k < |more| ensures kept[k] < |all| && keep(all[kept[k]]) && more[k] == f(all[kept[k]]) {
      if k > 0 {
        assert kept[k] == places[k - 1] + 1 && more[k] == r[k - 1];
      }
    }
    FirstPlace(places);
  }

  lemma SelectsMore<T, U>(x: T, s: seq<T>, keep: T -> bool, f: T -> U, r: seq<U>, places: seq<nat>) returns (more: seq<nat>)
    requires Selects(s, keep, f, r, places)
    ensures Selects([x] + s, keep, f, (if keep(x) then [f(x)] else []) + r, more)
  {
    hide Selects, Shifted;
    if keep(x) {
      SelectsKeep(x, s, keep, f, r, places);
      more := [0] + Shifted(places);
    } else {
      SelectsSkip(x, s, keep, f, r, places);
      more := Shifted(places);
      assert [] + r == r;
    }
  }

  lemma SelectsNone<T, U>(keep: T -> bool, f: T -> U)
    ensures Selects([], keep, f, [], [])
  {
  }

  /** If one element is kept, it alone is selected. */
  lemma SelectsOne<T, U>(s: seq<T>, keep: T -> bool, f: T -> U, r: seq<U>, places: seq<nat>, i: nat)
    requires Selects(s, keep, f, r, places) && i < |s| && keep(s[i])
    requires forall j | 0 <= j < |s| && keep(s[j]) :: j == i
    ensures r == [f(s[i])]
  {
    assert i in places && forall k | 0 <= k < |places| :: places[k] == i;
    var last := |places| - 1;
    assert places[0] == places[last];
    assert last == 0;
  }
}
