/** The `FlashCardApp` component: a cursor over a fixed deck, a flag for
    whether the answer is shown, the set of card positions marked as
    known and the language order of the card faces. */
module FlashCardView {

  /** One card of the deck. */
  datatype Card = Card(chinese: string, pinyin: string, english: string)

  /** Positions drawn from [0, n) number at most n. */
  lemma {:induction false} BoundedPositions(positions: set<int>, n: nat)
    requires forall i :: i in positions ==> 0 <= i < n
    ensures |positions| <= n
    decreases n
  {
    if n > 0 {
      var rest := positions - {n - 1};
      BoundedPositions(rest, n - 1);
      assert positions <= rest + {n - 1};
    } else {
      assert forall i :: i !in positions;
      assert positions == {};
    }
  }

  class FlashCardApp {
    /** The deck; the component never reorders it. */
    const deck: seq<Card>
    var currentCardIndex: int
    var isRevealed: bool
    var knownCards: set<int>
    var isChineseFirst: bool

    /** The cursor is on a card and every known position is a card. */
    ghost predicate Valid()
      reads this
    {
      && |deck| >= 1
      && 0 <= currentCardIndex < |deck|
      && forall i :: i in knownCards ==> 0 <= i < |deck|
    }

    constructor (deck: seq<Card>)
      requires |deck| >= 1
      ensures Valid() && this.deck == deck
      ensures currentCardIndex == 0 && !isRevealed && knownCards == {} && isChineseFirst
    {
      this.deck := deck;
      currentCardIndex := 0;
      isRevealed := false;
      knownCards := {};
      isChineseFirst := true;
    }

    /** The number of cards marked as known. */
    function KnownCount(): (count: nat)
      reads this
      requires Valid()
      ensures count <= |deck|
    {
      BoundedPositions(knownCards, |deck|);
      |knownCards|
    }

    /** The progress bar's value: the known share of the deck, in percent. */
    function Progress(): (percent: real)
      reads this
      requires Valid()
      ensures 0.0 <= percent <= 100.0
      ensures percent == 100.0 <==> KnownCount() == |deck|
    {
      var count := KnownCount();
      (count as real / |deck| as real) * 100.0
    }

    /** `shuffleCards`: back to the first card, answer hidden, nothing
        known. The shuffled copy it computes is discarded, so the deck
        keeps its order. */
    method ShuffleCards()
      requires Valid()
      modifies this
      ensures Valid()
      ensures currentCardIndex == 0 && !isRevealed && knownCards == {}
      ensures isChineseFirst == old(isChineseFirst)
    {
      currentCardIndex := 0;
      isRevealed := false;
      knownCards := {};
    }

    /** `handleNextCard`: moves forward and hides the answer, except on the
        last card, where nothing changes. */
    method HandleNextCard()
      requires Valid()
      modifies this
      ensures Valid()
      ensures old(currentCardIndex) < |deck| - 1 ==>
        currentCardIndex == old(currentCardIndex) + 1 && !isRevealed
      ensures old(currentCardIndex) == |deck| - 1 ==>
        currentCardIndex == old(currentCardIndex) && isRevealed == old(isRevealed)
      ensures knownCards == old(knownCards) && isChineseFirst == old(isChineseFirst)
    {
      if currentCardIndex < |deck| - 1 {
        currentCardIndex := currentCardIndex + 1;
        isRevealed := false;
      }
    }

    /** `handlePrevCard`: moves back and hides the answer, except on the
        first card, where nothing changes. */
    method HandlePrevCard()
      requires Valid()
      modifies this
      ensures Valid()
      ensures old(currentCardIndex) > 0 ==>
        currentCardIndex == old(currentCardIndex) - 1 && !isRevealed
      ensures old(currentCardIndex) == 0 ==>
        currentCardIndex == 0 && isRevealed == old(isRevealed)
      ensures knownCards == old(knownCards) && isChineseFirst == old(isChineseFirst)
    {
      if currentCardIndex > 0 {
        currentCardIndex := currentCardIndex - 1;
        isRevealed := false;
      }
    }

    /** `handleReveal`: shows the answer; doing it again changes nothing. */
    method HandleReveal()
      requires Valid()
      modifies this
      ensures Valid() && isRevealed
      ensures currentCardIndex == old(currentCardIndex)
      ensures knownCards == old(knownCards) && isChineseFirst == old(isChineseFirst)
    {
      isRevealed := true;
    }

    /** `handleMarkKnown`: adds the current position to the known set, then
        behaves as `handleNextCard`. On the last card the answer stays as
        it was. The count grows only for a card not yet known. */
    method HandleMarkKnown()
      requires Valid()
      modifies this
      ensures Valid()
      ensures knownCards == old(knownCards) + {old(currentCardIndex)}
      ensures |knownCards| == |old(knownCards)| + (if old(currentCardIndex) in old(knownCards) then 0 else 1)
      ensures old(currentCardIndex) < |deck| - 1 ==>
        currentCardIndex == old(currentCardIndex) + 1 && !isRevealed
      ensures old(currentCardIndex) == |deck| - 1 ==>
        currentCardIndex == old(currentCardIndex) && isRevealed == old(isRevealed)
      ensures isChineseFirst == old(isChineseFirst)
    {
      if currentCardIndex in knownCards {
        assert knownCards + {currentCardIndex} == knownCards;
      } else {
        assert |knownCards + {currentCardIndex}| == |knownCards| + 1;
      }
      knownCards := knownCards + {currentCardIndex};
      HandleNextCard();
    }

    /** `toggleMode`: swaps which language is shown first and hides the
        answer; the cursor and the known set stay. */
    method ToggleMode()
      requires Valid()
      modifies this
      ensures Valid()
      ensures isChineseFirst == !old(isChineseFirst) && !isRevealed
      ensures currentCardIndex == old(currentCardIndex) && knownCards == old(knownCards)
    {
      isChineseFirst := !isChineseFirst;
      isRevealed := false;
    }
  }
}
