/** What others do to the refs of a remote. */
module Moves {
  datatype Move<V> = Sets(name: string, value: V) | Deletes(name: string)

  function MovedOnce<V>(refs: map<string, V>, move: Move<V>): map<string, V> {
    match move
    case Sets(name, value) => refs[name := value]
    case Deletes(name) => refs - {name}
  }

  function Moved<V>(refs: map<string, V>, moves: seq<Move<V>>): map<string, V> {
    if moves == [] then refs else
      MovedOnce(Moved(refs, moves[..|moves| - 1]), moves[|moves| - 1])
  }

  /** A ref that no move names is where it was. */
  lemma {:induction false} UnnamedStays<V>(refs: map<string, V>, moves: seq<Move<V>>, name: string)
    requires forall move | move in moves :: move.name != name
    ensures name in Moved(refs, moves) <==> name in refs
    ensures name in refs ==> Moved(refs, moves)[name] == refs[name]
  {
    if moves == [] {
    } else {
      UnnamedStays(refs, moves[..|moves| - 1], name);
      assert moves[|moves| - 1] in moves;
    }
  }

  /** Any other is where the last move that names it put it. */
  lemma {:induction false} LastMoveDecides<V>(refs: map<string, V>, moves: seq<Move<V>>, k: nat)
    requires k < |moves| && forall l | k < l < |moves| :: moves[l].name != moves[k].name
    ensures
      var name, after := moves[k].name, Moved(refs, moves);
      && (name in after <==> moves[k].Sets?)
      && (moves[k].Sets? ==> after[name] == moves[k].value)
  {
    if k == |moves| - 1 {
    } else {
      LastMoveDecides(refs, moves[..|moves| - 1], k);
      assert moves[|moves| - 1].name != moves[k].name;
    }
  }
}
