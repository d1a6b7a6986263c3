/** Per-type count vectors: the deck counter `cardCounts` of the agent and the
    `potentialCardCount` of each opponent are both eight integers in ordinal order. */
module Counts {
  import opened Cards
  import opened JavaInt

  /** The copy counts every vector starts from at the beginning of a round. */
  function InitialCounts(): (s: seq<int>)
    ensures |s| == 8
    ensures forall i :: 0 <= i < 8 ==> s[i] == FromOrdinal(i).Count()
  {
    TotalCardCounts()
  }

  /** `s` with entry `k` lowered by one and nothing clamped at zero. */
  function Decrement(s: seq<int>, k: nat): (r: seq<int>)
    requires k < |s|
    ensures |r| == |s| && r[k] == s[k] - 1
    ensures forall i :: 0 <= i < |s| && i != k ==> r[i] == s[i]
  {
    s[k := s[k] - 1]
  }

  /** The sum of a vector, taken from the back as the source's accumulating loops do. */
  function Sum(s: seq<int>): int {
    if s == [] then 0 else Sum(s[..|s| - 1]) + s[|s| - 1]
  }

  lemma {:induction false} SumConcat(a: seq<int>, b: seq<int>)
    ensures Sum(a + b) == Sum(a) + Sum(b)
  {
    if b != [] {
      assert (a + b)[..|a + b| - 1] == a + b[..|b| - 1];
      SumConcat(a, b[..|b| - 1]);
    } else {
      assert a + b == a;
    }
  }

  lemma {:induction false} SumDecrement(s: seq<int>, k: nat)
    requires k < |s|
    ensures Sum(Decrement(s, k)) == Sum(s) - 1
  {
    var r := Decrement(s, k);
    var n := |s| - 1;
    if k == n {
      assert r[..n] == s[..n];
    } else {
      assert r[..n] == Decrement(s[..n], k);
      SumDecrement(s[..n], k);
    }
  }

  /** The deck holds sixteen cards. */
  lemma InitialTotal()
    ensures Sum(InitialCounts()) == 16
  {
    var s := InitialCounts();
    assert s[..1][..0] == [] && s[..2][..1] == s[..1] && s[..3][..2] == s[..2];
    assert s[..4][..3] == s[..3] && s[..5][..4] == s[..4] && s[..6][..5] == s[..5];
    assert s[..7][..6] == s[..6] && s[..8][..7] == s[..7] && s[..8] == s;
    assert Sum(s[..1]) == 5 && Sum(s[..2]) == 7 && Sum(s[..3]) == 9 && Sum(s[..4]) == 11;
    assert Sum(s[..5]) == 13 && Sum(s[..6]) == 14 && Sum(s[..7]) == 15 && Sum(s[..8]) == 16;
  }

  /** The deck counter after observing actions playing the cards `observed`, in order,
      from the start of a round: sixteen cards in all, one fewer for every observed action. */
  function DeckAfter(observed: seq<Card>): (r: seq<int>)
    ensures |r| == 8
    ensures Sum(r) == 16 - |observed|
  {
    if observed == [] then
      InitialTotal();
      InitialCounts()
    else
      var prev := DeckAfter(observed[..|observed| - 1]);
      SumDecrement(prev, observed[|observed| - 1].Ordinal());
      Decrement(prev, observed[|observed| - 1].Ordinal())
  }

  /** Each entry is the type's copy count less the number of times that type was observed. */
  lemma {:induction false} DeckAfterEntry(observed: seq<Card>, i: nat)
    requires i < 8
    ensures DeckAfter(observed)[i] == FromOrdinal(i).Count() - multiset(observed)[FromOrdinal(i)]
  {
    if observed != [] {
      var n := |observed| - 1;
      assert observed == observed[..n] + [observed[n]];
      DeckAfterEntry(observed[..n], i);
      OrdinalRoundTrip(observed[n]);
    }
  }

  /** No entry ever exceeds the copy count of its type. */
  lemma DeckAfterBounded(observed: seq<Card>, i: nat)
    requires i < 8
    ensures DeckAfter(observed)[i] <= FromOrdinal(i).Count()
  {
  }

  /** The ratio `count / copies` that `getMostLikely` compares, in Java integer division. */
  function Ratio(s: seq<int>, i: nat): (r: int)
    requires |s| == 8 && i < 8
    ensures s[i] == FromOrdinal(i).Count() ==> r == 1
    ensures s[i] <= FromOrdinal(i).Count() ==> r <= 1
    ensures r == 0 <==> -s[i] < FromOrdinal(i).Count() && s[i] < FromOrdinal(i).Count()
  {
    DivZero(s[i], FromOrdinal(i).Count());
    Div(s[i], FromOrdinal(i).Count())
  }

  /** `k` is the last index at which `Ratio` is largest: nothing exceeds it and every
      later index is strictly smaller. */
  ghost predicate IsLastArgmax(s: seq<int>, k: nat)
    requires |s| == 8
  {
    k < 8 &&
    (forall j :: 0 <= j < 8 ==> Ratio(s, j) <= Ratio(s, k)) &&
    (forall j :: k < j < 8 ==> Ratio(s, j) < Ratio(s, k))
  }

  /** The last maximal index is determined by the vector. */
  lemma LastArgmaxUnique(s: seq<int>, k1: nat, k2: nat)
    requires |s| == 8 && IsLastArgmax(s, k1) && IsLastArgmax(s, k2)
    ensures k1 == k2
  {
    assert Ratio(s, k1) <= Ratio(s, k2) && Ratio(s, k2) <= Ratio(s, k1);
  }

  /** While the Princess count is still 1 and no count exceeds its copy count, the
      Princess is the last type of largest ratio. */
  lemma PrincessLastArgmax(s: seq<int>, k: nat)
    requires |s| == 8 && s[7] == 1
    requires forall i :: 0 <= i < 8 ==> s[i] <= FromOrdinal(i).Count()
    requires IsLastArgmax(s, k)
    ensures k == PRINCESS.Ordinal()
  {
    assert forall i :: 0 <= i < 8 ==> Ratio(s, i) <= Ratio(s, 7);
    LastArgmaxUnique(s, k, 7);
  }

  /** At the start of a round every ratio is 1, so the tie-break picks the last type. */
  lemma FreshLastArgmax(k: nat)
    requires IsLastArgmax(InitialCounts(), k)
    ensures k == PRINCESS.Ordinal()
  {
    assert Ratio(InitialCounts(), 7) == 1;
  }
}
