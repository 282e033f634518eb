/** Building the deck: each card definition is turned into two fresh cards
    with the same name. */
module Decks {
  import opened Cards
  import opened Boards

  /** The six definitions the page sets up. */
  const StandardNames: seq<string> := ["Python", "JavaScript", "Java", "CSharp", "Go", "Ruby"]

  /** Two new face-down cards per name, in the order of the names. */
  method DuplicateDeck(names: seq<string>) returns (cards: seq<Card>)
    ensures |cards| == 2 * |names|
    ensures forall i :: 0 <= i < |names| ==> cards[2 * i].name == names[i] && cards[2 * i + 1].name == names[i]
    ensures forall i :: 0 <= i < |cards| ==> fresh(cards[i]) && !cards[i].isFlipped
    ensures forall i, j :: 0 <= i < j < |cards| ==> cards[i] != cards[j]
  {
    cards := [];
    var k := 0;
    while k < |names|
      invariant 0 <= k <= |names| && |cards| == 2 * k
      invariant forall i :: 0 <= i < k ==> cards[2 * i].name == names[i] && cards[2 * i + 1].name == names[i]
      invariant forall i :: 0 <= i < |cards| ==> fresh(cards[i]) && !cards[i].isFlipped
      invariant forall i, j :: 0 <= i < j < |cards| ==> cards[i] != cards[j]
    {
      var first := new Card(names[k]);
      var second := new Card(names[k]);
      cards := cards + [first, second];
      k := k + 1;
    }
  }

  /** The standard deck of twelve cards is laid out in three columns. */
  lemma StandardDeckColumns()
    ensures IntSqrt(2 * |StandardNames|) == 3
  {
  }
}
