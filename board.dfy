/** The board: the ordered deck of cards, its shuffle, and the number of
    grid columns it is laid out in. */
module Boards {
  import opened Cards

  /** `order` lists every position below `n` exactly once: it is the
      reordering a shuffle of `n` cards picks. */
  predicate IsPermutation(order: seq<int>, n: nat) {
    && |order| == n
    && (forall i :: 0 <= i < n ==> 0 <= order[i] < n)
    && (forall k :: 0 <= k < n ==> multiset(order)[k] == 1)
  }

  /** The sequence whose i-th element is the `order[i]`-th element of `s`. */
  function Permute<T>(s: seq<T>, order: seq<int>): (r: seq<T>)
    requires IsPermutation(order, |s|)
    ensures |r| == |s|
  {
    seq(|s|, i requires 0 <= i < |s| => s[order[i]])
  }

  /** Dropping the position that holds the largest index leaves a
      permutation of the smaller indices. */
  lemma DropLargest(order: seq<int>, n: nat, k: nat)
    requires IsPermutation(order, n + 1) && k < |order| && order[k] == n
    ensures IsPermutation(order[..k] + order[k + 1..], n)
  {
    var rest := order[..k] + order[k + 1..];
    assert order == order[..k] + [order[k]] + order[k + 1..];
    assert multiset(order) == multiset(rest) + multiset{n};
    assert multiset(order)[n] == 1;
    assert multiset(rest)[n] == 0;
    forall i | 0 <= i < n ensures 0 <= rest[i] < n {
      assert rest[i] in multiset(rest);
    }
    forall j | 0 <= j < n ensures multiset(rest)[j] == 1 {
      assert multiset(order)[j] == 1;
    }
  }

  /** Reordering by `order` is reordering the shorter deck by `order` with
      its largest position dropped, and then putting the last card back at
      the dropped position. */
  lemma PermuteDropLargest<T>(s: seq<T>, order: seq<int>, k: nat)
    requires |s| > 0 && IsPermutation(order, |s|) && k < |order| && order[k] == |s| - 1
    requires IsPermutation(order[..k] + order[k + 1..], |s| - 1)
    ensures Permute(s, order) ==
      Permute(s[..|s| - 1], order[..k] + order[k + 1..])[..k] + [s[|s| - 1]]
        + Permute(s[..|s| - 1], order[..k] + order[k + 1..])[k..]
  {
  }

  /** Reordering by a permutation keeps every element, as often as before. */
  lemma {:induction false} PermutePreservesMultiset<T>(s: seq<T>, order: seq<int>)
    requires IsPermutation(order, |s|)
    ensures multiset(Permute(s, order)) == multiset(s)
  {
    if |s| > 0 {
      var n := |s| - 1;
      assert multiset(order)[n] == 1;
      var k :| 0 <= k < |order| && order[k] == n;
      var rest := order[..k] + order[k + 1..];
      DropLargest(order, n, k);
      var front := s[..n];
      PermutePreservesMultiset(front, rest);
      PermuteDropLargest(s, order, k);
      var q := Permute(front, rest);
      assert q == q[..k] + q[k..];
      assert s == front + [s[n]];
    }
  }

  /** The integer square root: the largest c with c * c <= n. */
  function IntSqrt(n: nat): (c: nat)
    ensures c * c <= n < (c + 1) * (c + 1)
  {
    if n == 0 then 0
    else
      var r := IntSqrt(n - 1);
      if (r + 1) * (r + 1) <= n then r + 1 else r
  }

  lemma SquareMonotone(a: nat, b: nat)
    requires a <= b
    ensures a * a <= b * b
  {
  }

  /** No larger column count fits: IntSqrt is the largest c with c * c <= n. */
  lemma IntSqrtIsLargest(n: nat, d: nat)
    requires d * d <= n
    ensures d <= IntSqrt(n)
  {
  }

  /** Any c with c * c <= n < (c + 1) * (c + 1) is the integer square root of n. */
  lemma IntSqrtUnique(n: nat, c: nat)
    requires c * c <= n < (c + 1) * (c + 1)
    ensures IntSqrt(n) == c
  {
    var r := IntSqrt(n);
    if r < c {
      SquareMonotone(r + 1, c);
    } else if r > c {
      SquareMonotone(c + 1, r);
    }
  }

  class Board {
    var cards: seq<Card>
    /** The column count last written to the grid layout. */
    var gridColumns: nat

    constructor (cards: seq<Card>)
      ensures this.cards == cards && gridColumns == 0
    {
      this.cards := cards;
      gridColumns := 0;
    }

    /** floor(sqrt(number of cards)). */
    function CalculateColumns(): (c: nat)
      reads this
      ensures c * c <= |cards| < (c + 1) * (c + 1)
    {
      IntSqrt(|cards|)
    }

    /** Reorders the deck as `order` says; the cards themselves are untouched. */
    method ShuffleCards(order: seq<int>)
      requires IsPermutation(order, |cards|)
      modifies this`cards
      ensures cards == Permute(old(cards), order)
      ensures multiset(cards) == multiset(old(cards)) && |cards| == |old(cards)|
    {
      PermutePreservesMultiset(cards, order);
      cards := Permute(cards, order);
    }

    /** Turns every card of the deck face down. */
    method FlipDownAllCards()
      modifies cards
      ensures forall c :: c in cards ==> !c.isFlipped
    {
      var i := 0;
      while i < |cards|
        invariant 0 <= i <= |cards|
        invariant forall j :: 0 <= j < i ==> !cards[j].isFlipped
      {
        cards[i].Unflip();
        i := i + 1;
      }
    }

    /** Writes the column count for the current deck to the grid layout. */
    method SetGridColumns()
      modifies this`gridColumns
      ensures gridColumns == CalculateColumns()
    {
      gridColumns := CalculateColumns();
    }

    /** Shuffles the deck, turns every card face down and lays out the grid. */
    method Reset(order: seq<int>)
      requires IsPermutation(order, |cards|)
      modifies this, cards
      ensures cards == Permute(old(cards), order)
      ensures multiset(cards) == multiset(old(cards)) && |cards| == |old(cards)|
      ensures forall c :: c in cards ==> !c.isFlipped
      ensures gridColumns * gridColumns <= |cards| < (gridColumns + 1) * (gridColumns + 1)
    {
      ShuffleCards(order);
      FlipDownAllCards();
      SetGridColumns();
    }
  }
}
