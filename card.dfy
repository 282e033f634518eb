/** A playing tile of the memory game: a name shared by the two cards of a
    pair, and whether the tile currently shows its face. */
module Cards {

  class Card {
    const name: string
    var isFlipped: bool

    /** A new card starts face down. */
    constructor (name: string)
      ensures this.name == name && !isFlipped
    {
      this.name := name;
      isFlipped := false;
    }

    /** Turns the card over: face down becomes face up and vice versa. */
    method ToggleFlip()
      modifies this
      ensures isFlipped == !old(isFlipped)
    {
      if isFlipped {
        Unflip();
      } else {
        Flip();
      }
    }

    /** Shows the face, whatever the card showed before. */
    method Flip()
      modifies this
      ensures isFlipped
    {
      isFlipped := true;
    }

    /** Hides the face, whatever the card showed before. */
    method Unflip()
      modifies this
      ensures !isFlipped
    {
      isFlipped := false;
    }

    /** Two cards form a pair when they carry the same name. */
    predicate Matches(other: Card) {
      name == other.name
    }
  }

  /** Every card matches itself. */
  lemma MatchesReflexive(a: Card)
    ensures a.Matches(a)
  {
  }

  /** Matching does not depend on which card is asked. */
  lemma MatchesSymmetric(a: Card, b: Card)
    ensures a.Matches(b) <==> b.Matches(a)
  {
  }
}
