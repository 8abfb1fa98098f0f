/** The typed parameter schema of a tool, and the canonical order of its names.

    The schema is generic in how a string, a float64 bound and an `any` value are
    represented: the hash looks at the bytes of a string, the bits of a bound and the
    JSON text of a value, the validator at their meaning. */
module ToolSchema {
  import opened Prelude

  newtype byte = n: int | 0 <= n < 256

  /** A Go string. */
  type Text = seq<byte>

  datatype Schema<!Str(==), Num, Any> = Schema(
    typ: Str,
    description: Str,
    properties: map<Str, Schema<Str, Num, Any>>,
    required: seq<Str>,
    items: Option<Schema<Str, Num, Any>>,
    enum: seq<Any>,
    default: Option<Any>,
    minimum: Option<Num>,
    maximum: Option<Num>,
    minLength: Option<int>,
    maxLength: Option<int>,
    minItems: Option<int>,
    maxItems: Option<int>,
    pattern: Str,
    additionalProperties: Option<bool>)

  // ----- the byte order used by sort.Strings

  predicate AtMost(a: Text, b: Text) {
    a == [] || (b != [] && (a[0] < b[0] || (a[0] == b[0] && AtMost(a[1..], b[1..]))))
  }

  lemma {:induction false} AtMostTotal(a: Text, b: Text)
    ensures AtMost(a, b) || AtMost(b, a)
  {
    if a != [] && b != [] && a[0] == b[0] {
      AtMostTotal(a[1..], b[1..]);
    }
  }

  lemma {:induction false} AtMostTransitive(a: Text, b: Text, c: Text)
    requires AtMost(a, b) && AtMost(b, c)
    ensures AtMost(a, c)
  {
    if a != [] && a[0] == b[0] == c[0] {
      AtMostTransitive(a[1..], b[1..], c[1..]);
    }
  }

  lemma {:induction false} AtMostAntisymmetric(a: Text, b: Text)
    requires AtMost(a, b) && AtMost(b, a)
    ensures a == b
  {
    if a != [] {
      AtMostAntisymmetric(a[1..], b[1..]);
      assert a == [a[0]] + a[1..] && b == [b[0]] + b[1..];
    }
  }

  ghost predicate Ascending(s: seq<Text>) {
    forall i, j :: 0 <= i < j < |s| ==> AtMost(s[i], s[j])
  }

  // ----- the one ascending arrangement of a bag of names

  ghost predicate IsLeast(x: Text, bag: multiset<Text>) {
    x in bag && forall y :: y in bag ==> AtMost(x, y)
  }

  lemma {:induction false} LeastExists(bag: multiset<Text>)
    requires bag != multiset{}
    ensures exists least :: IsLeast(least, bag)
    decreases |bag|
  {
    var x :| x in bag;
    AtMostTotal(x, x);
    var rest := bag - multiset{x};
    if rest == multiset{} {
      assert bag == multiset{x};
      assert IsLeast(x, bag);
      return;
    }
    LeastExists(rest);
    var y :| IsLeast(y, rest);
    AtMostTotal(x, y);
    var least := if AtMost(x, y) then x else y;
    forall z | z in bag ensures AtMost(least, z) {
      if z != x {
        assert z in rest;
        if least == x {
          AtMostTransitive(x, y, z);
        }
      }
    }
    assert IsLeast(least, bag);
  }

  ghost function Least(bag: multiset<Text>): (least: Text)
    requires bag != multiset{}
    ensures IsLeast(least, bag)
  {
    LeastExists(bag);
    var x :| IsLeast(x, bag);
    x
  }

  ghost function Arranged(bag: multiset<Text>): seq<Text>
    decreases |bag|
  {
    if bag == multiset{} then [] else [Least(bag)] + Arranged(bag - multiset{Least(bag)})
  }

  lemma {:induction false} ArrangedKeepsBag(bag: multiset<Text>)
    ensures multiset(Arranged(bag)) == bag
    decreases |bag|
  {
    if bag != multiset{} {
      ArrangedKeepsBag(bag - multiset{Least(bag)});
    }
  }

  /** Sorting has one result: any ascending sequence over a bag is its arrangement. */
  lemma {:induction false} SortIsUnique(s: seq<Text>)
    requires Ascending(s)
    ensures Arranged(multiset(s)) == s
    decreases |s|
  {
    if s != [] {
      var bag := multiset(s);
      assert s == [s[0]] + s[1..];
      assert s[0] in bag;
      var least := Least(bag);
      var k :| 0 <= k < |s| && s[k] == least;
      if k > 0 {
        assert AtMost(s[0], s[k]);
        AtMostAntisymmetric(s[0], least);
      }
      assert bag - multiset{least} == multiset(s[1..]);
      SortIsUnique(s[1..]);
    }
  }

  lemma {:induction false} ArrangedIsAscending(bag: multiset<Text>)
    ensures Ascending(Arranged(bag))
    decreases |bag|
  {
    if bag != multiset{} {
      var rest := bag - multiset{Least(bag)};
      ArrangedIsAscending(rest);
      ArrangedKeepsBag(rest);
      forall j | 0 <= j < |Arranged(rest)| ensures AtMost(Least(bag), Arranged(rest)[j]) {
        assert Arranged(rest)[j] in multiset(Arranged(rest));
      }
    }
  }

  /** sort.Strings on a private copy. */
  method SortStrings(names: array<Text>)
    modifies names
    ensures names[..] == Arranged(multiset(old(names[..])))
  {
    for i := 0 to names.Length
      invariant Ascending(names[..i])
      invariant multiset(names[..]) == multiset(old(names[..]))
    {
      InsertLeft(names, i);
    }
    assert names[..names.Length] == names[..];
    SortIsUnique(names[..]);
  }

  function Swapped(s: seq<Text>, j: nat): seq<Text>
    requires 0 < j < |s|
  {
    s[j := s[j - 1]][j - 1 := s[j]]
  }

  lemma SwapKeepsBag(s: seq<Text>, j: nat)
    requires 0 < j < |s|
    ensures multiset(Swapped(s, j)) == multiset(s)
  {
  }

  /** The first i + 1 names ascend but for the one at j, which may belong further left. */
  ghost predicate AscendingBut(s: seq<Text>, i: nat, j: nat) {
    i < |s| && forall a, b :: 0 <= a < b <= i && b != j ==> AtMost(s[a], s[b])
  }

  lemma StartsAscending(s: seq<Text>, i: nat)
    requires i < |s| && Ascending(s[..i])
    ensures AscendingBut(s, i, i)
  {
    hide AtMost;
    assert forall a :: 0 <= a < i ==> s[a] == s[..i][a];
  }

  lemma SwapMovesLeft(s: seq<Text>, i: nat, j: nat)
    requires AscendingBut(s, i, j) && 0 < j <= i && AtMost(s[j], s[j - 1])
    ensures AscendingBut(Swapped(s, j), i, j - 1)
  {
    hide AtMost;
  }

  lemma InPlace(s: seq<Text>, i: nat, j: nat)
    requires AscendingBut(s, i, j) && j <= i && (j > 0 ==> AtMost(s[j - 1], s[j]))
    ensures Ascending(s[..i + 1])
  {
    hide AtMost;
    forall a | 0 <= a < j
      ensures AtMost(s[a], s[j])
    {
      if a < j - 1 {
        AtMostTransitive(s[a], s[j - 1], s[j]);
      }
    }
  }

  /** Moves names[i] left to its place among the ascending names before it. */
  method InsertLeft(names: array<Text>, i: nat)
    requires i < names.Length && Ascending(names[..i])
    modifies names
    ensures Ascending(names[..i + 1])
    ensures multiset(names[..]) == multiset(old(names[..]))
  {
    hide AscendingBut, Ascending, AtMost;
    var j := i;
    assert names[..][..i] == names[..i];
    StartsAscending(names[..], i);
    while j > 0 && !AtMost(names[j - 1], names[j])
      invariant 0 <= j <= i
      invariant multiset(names[..]) == multiset(old(names[..]))
      invariant AscendingBut(names[..], i, j)
      decreases j
    {
      AtMostTotal(names[j - 1], names[j]);
      ghost var before := names[..];
      SwapKeepsBag(before, j);
      SwapMovesLeft(before, i, j);
      names[j - 1], names[j] := names[j], names[j - 1];
      assert names[..] == Swapped(before, j);
      j := j - 1;
    }
    InPlace(names[..], i, j);
    assert names[..][..i + 1] == names[..i + 1];
  }
}
