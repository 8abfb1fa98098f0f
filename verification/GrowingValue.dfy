/** Ids and names that a provider repeats, grows or sends in pieces. */
module GrowingValue {

  function AppendValue(existing: string, fragment: string): string {
    if fragment == "" then existing
    else if existing <= fragment then fragment
    else if fragment <= existing then existing
    else existing + fragment
  }

  function FoldValue(start: string, fragments: seq<string>): string {
    if fragments == [] then start
    else AppendValue(FoldValue(start, fragments[..|fragments| - 1]), fragments[|fragments| - 1])
  }

  /** Prefixes of a value, repeated or cumulative and in any order, rebuild the value
      exactly when one of them is the whole value. */
  lemma {:induction false} PrefixesRebuild(whole: string, start: string, fragments: seq<string>)
    requires start <= whole && forall f :: f in fragments ==> f <= whole
    ensures FoldValue(start, fragments) <= whole
    ensures FoldValue(start, fragments) == whole <==> start == whole || whole in fragments
  {
    if fragments != [] {
      var n := |fragments| - 1;
      assert fragments == fragments[..n] + [fragments[n]];
      forall f | f in fragments[..n]
        ensures f in fragments
      {
      }
      PrefixesRebuild(whole, start, fragments[..n]);
      var a, b := FoldValue(start, fragments[..n]), fragments[n];
      assert b in fragments;
      assert a == whole[..|a|] && b == whole[..|b|];
      assert AppendValue(a, b) == if |a| <= |b| then b else a;
    }
  }

  function Joined(fragments: seq<string>): string {
    if fragments == [] then "" else Joined(fragments[..|fragments| - 1]) + fragments[|fragments| - 1]
  }

  /** Neither value continues the other. */
  predicate Unrelated(a: string, b: string) { !(a <= b) && !(b <= a) }

  lemma UnrelatedJoin(a: string, b: string)
    requires Unrelated(a, b)
    ensures AppendValue(a, b) == a + b
  {
  }

  /** Pieces of which none continues or repeats what came before it are simply joined. */
  lemma {:induction false} PiecesJoin(fragments: seq<string>)
    requires forall n :: 0 < n < |fragments| ==> Unrelated(Joined(fragments[..n]), fragments[n])
    ensures FoldValue("", fragments) == Joined(fragments)
  {
    hide Unrelated, AppendValue;
    if fragments != [] {
      var n := |fragments| - 1;
      var before, last := fragments[..n], fragments[n];
      forall m | 0 < m < n
        ensures Unrelated(Joined(before[..m]), before[m])
      {
        assert before[..m] == fragments[..m];
      }
      PiecesJoin(before);
      if n == 0 {
        FirstPiece(last);
      } else {
        UnrelatedJoin(Joined(before), last);
      }
    }
  }

  lemma FirstPiece(piece: string)
    ensures AppendValue("", piece) == piece == "" + piece
  {
  }
}
