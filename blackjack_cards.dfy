/**
 * Card arithmetic of the beach blackjack table: the 52-card deck and its
 * Fisher-Yates shuffle, soft-ace hand totals, and the greedy decomposition
 * of a bet into chips.
 */
module BlackjackCards {
  import opened RandomDraws

  datatype Suit = Wave | Shell | Hibiscus | Star

  datatype Rank = Ace | Two | Three | Four | Five | Six | Seven | Eight | Nine | Ten | Jack | Queen | King

  datatype Card = Card(suit: Suit, rank: Rank)

  /** Suits and ranks in the order in which the deck is built. */
  const Suits: seq<Suit> := [Wave, Shell, Hibiscus, Star]
  const Ranks: seq<Rank> := [Ace, Two, Three, Four, Five, Six, Seven, Eight, Nine, Ten, Jack, Queen, King]

  /** Chip denominations, largest first. */
  const ChipDenoms: seq<nat> := [500, 250, 100, 50, 25, 10]

  // ------------------------------------------------------------------ deck

  function SuitIndex(s: Suit): (i: nat)
    ensures i < 4 && Suits[i] == s
  {
    match s
    case Wave => 0
    case Shell => 1
    case Hibiscus => 2
    case Star => 3
  }

  function RankIndex(r: Rank): (i: nat)
    ensures i < 13 && Ranks[i] == r
  {
    match r
    case Ace => 0
    case Two => 1
    case Three => 2
    case Four => 3
    case Five => 4
    case Six => 5
    case Seven => 6
    case Eight => 7
    case Nine => 8
    case Ten => 9
    case Jack => 10
    case Queen => 11
    case King => 12
  }

  /** Position k of a freshly built deck: suit-major, ranks in order within a suit. */
  function DeckCard(k: nat): (c: Card)
    requires k < 52
    ensures SuitIndex(c.suit) == k / 13 && RankIndex(c.rank) == k % 13
  {
    Card(Suits[k / 13], Ranks[k % 13])
  }

  /** The deck that buildDeck produces. */
  function StandardDeck(): (deck: seq<Card>)
    ensures |deck| == 52
  {
    seq(52, k requires 0 <= k < 52 => DeckCard(k))
  }

  lemma DeckCardAt(s: nat, r: nat)
    requires s < 4 && r < 13
    ensures 13 * s + r < 52 && DeckCard(13 * s + r) == Card(Suits[s], Ranks[r])
  {
    assert (13 * s + r) / 13 == s;
    assert (13 * s + r) % 13 == r;
  }

  /** The standard deck holds 52 cards: every (suit, rank) pair, and each exactly once. */
  lemma StandardDeckIsComplete()
    ensures |StandardDeck()| == 52
    ensures forall c: Card :: c in StandardDeck()
    ensures forall i, j :: 0 <= i < j < 52 ==> StandardDeck()[i] != StandardDeck()[j]
  {
    var deck := StandardDeck();
    forall c: Card ensures c in deck {
      var s, r := SuitIndex(c.suit), RankIndex(c.rank);
      DeckCardAt(s, r);
      assert deck[13 * s + r] == c;
    }
    forall i, j | 0 <= i < j < 52 ensures deck[i] != deck[j] {
      assert i == 13 * (i / 13) + i % 13;
      assert j == 13 * (j / 13) + j % 13;
    }
  }

  /** A collection of cards that is a permutation of the standard deck. */
  ghost predicate FullDeck(m: multiset<Card>)
  {
    m == multiset(StandardDeck())
  }

  /** A deck and two hands that together hold the 52 cards of a full deck. */
  ghost predicate AllCards(deck: seq<Card>, player: seq<Card>, dealer: seq<Card>)
  {
    && FullDeck(multiset(deck) + multiset(player) + multiset(dealer))
    && |deck| + |player| + |dealer| == 52
  }

  /** In a sequence without repeats every element occurs once. */
  lemma {:induction false} DistinctOccursOnce(s: seq<Card>, c: Card)
    requires forall i, j :: 0 <= i < j < |s| ==> s[i] != s[j]
    ensures multiset(s)[c] == if c in s then 1 else 0
  {
    if s != [] {
      var rest := s[1..];
      assert s == [s[0]] + rest;
      assert forall i, j :: 0 <= i < j < |rest| ==> rest[i] != rest[j] by {
        forall i, j | 0 <= i < j < |rest| ensures rest[i] != rest[j] {
          assert rest[i] == s[i + 1] && rest[j] == s[j + 1];
        }
      }
      DistinctOccursOnce(rest, c);
      if s[0] == c {
        assert c !in rest by {
          forall k | 0 <= k < |rest| ensures rest[k] != c {
            assert rest[k] == s[k + 1];
          }
        }
      }
    }
  }

  /** A full deck is exactly the collection that holds every card once. */
  lemma FullDeckEachCardOnce(m: multiset<Card>)
    ensures FullDeck(m) <==> forall c: Card :: m[c] == 1
  {
    StandardDeckIsComplete();
    forall c: Card ensures multiset(StandardDeck())[c] == 1 {
      DistinctOccursOnce(StandardDeck(), c);
    }
    if forall c: Card :: m[c] == 1 {
      assert forall c: Card :: m[c] == multiset(StandardDeck())[c];
    }
  }

  /** buildDeck: for each suit, push one card of each rank. */
  method BuildDeck() returns (deck: seq<Card>)
    ensures deck == StandardDeck()
  {
    deck := [];
    for s := 0 to |Suits|
      invariant |deck| == 13 * s
      invariant forall k :: 0 <= k < |deck| ==> deck[k] == DeckCard(k)
    {
      for r := 0 to |Ranks|
        invariant |deck| == 13 * s + r
        invariant forall k :: 0 <= k < |deck| ==> deck[k] == DeckCard(k)
      {
        DeckCardAt(s, r);
        deck := deck + [Card(Suits[s], Ranks[r])];
      }
    }
  }

  /**
   * shuffle: Fisher-Yates in place, from the last index down to 1, swapping
   * position i with a position j <= i picked from the next random draw.
   * The draws Math.random() would make are passed in as `rolls`.
   */
  method Shuffle<T>(deck: array<T>, rolls: seq<real>)
    requires deck.Length <= |rolls| + 1
    requires forall k :: 0 <= k < |rolls| ==> IsRoll(rolls[k])
    modifies deck
    ensures multiset(deck[..]) == old(multiset(deck[..]))
  {
    var i := deck.Length - 1;
    while i > 0
      invariant -1 <= i < deck.Length
      invariant multiset(deck[..]) == old(multiset(deck[..]))
    {
      var j := PickIndex(rolls[deck.Length - 1 - i], i + 1);
      deck[i], deck[j] := deck[j], deck[i];
      i := i - 1;
    }
  }

  /** Enough Math.random() draws, each in [0, 1), for one shuffle of a full deck. */
  predicate Rolls(rolls: seq<real>)
  {
    |rolls| >= 51 && forall k :: 0 <= k < |rolls| ==> IsRoll(rolls[k])
  }

  /** shuffle(buildDeck()): a fresh deck in random order, some permutation of the standard deck. */
  method FreshShuffledDeck(rolls: seq<real>) returns (deck: seq<Card>)
    requires Rolls(rolls)
    ensures |deck| == 52
    ensures FullDeck(multiset(deck))
  {
    var built := BuildDeck();
    var cards := new Card[52](k requires 0 <= k < 52 => built[k]);
    assert cards[..] == built;
    Shuffle(cards, rolls);
    deck := cards[..];
  }

  // ------------------------------------------------------------ hand maths

  /** The VALUES table: an ace counts 11, picture cards 10. */
  function CardValue(rank: Rank): (v: nat)
    ensures 2 <= v <= 11
    ensures v == 11 <==> rank == Ace
  {
    match rank
    case Ace => 11
    case Two => 2
    case Three => 3
    case Four => 4
    case Five => 5
    case Six => 6
    case Seven => 7
    case Eight => 8
    case Nine => 9
    case Ten | Jack | Queen | King => 10
  }

  /** Sum of card values with every ace counted as 11. */
  function RawTotal(hand: seq<Card>): nat
  {
    if hand == [] then 0 else CardValue(hand[0].rank) + RawTotal(hand[1..])
  }

  function AceCount(hand: seq<Card>): nat
  {
    if hand == [] then 0 else (if hand[0].rank == Ace then 1 else 0) + AceCount(hand[1..])
  }

  /** The hard total: every ace counted as 1. */
  function HardTotal(hand: seq<Card>): nat
  {
    if hand == [] then 0
    else (if hand[0].rank == Ace then 1 else CardValue(hand[0].rank)) + HardTotal(hand[1..])
  }

  /** The loop that turns aces from 11 into 1 while the total is over 21. */
  function Soften(total: int, aces: nat): int
    decreases aces
  {
    if total > 21 && aces > 0 then Soften(total - 10, aces - 1) else total
  }

  /** handTotal */
  function HandTotal(hand: seq<Card>): int
  {
    Soften(RawTotal(hand), AceCount(hand))
  }

  predicate IsBust(hand: seq<Card>)
  {
    HandTotal(hand) > 21
  }

  predicate IsBlackjack(hand: seq<Card>)
  {
    |hand| == 2 && HandTotal(hand) == 21
  }

  /** Counting aces high adds exactly 10 per ace; every card is worth at least 1. */
  lemma {:induction false} RawTotalSplit(hand: seq<Card>)
    ensures RawTotal(hand) == HardTotal(hand) + 10 * AceCount(hand)
    ensures HardTotal(hand) >= |hand| >= AceCount(hand)
  {
    if hand != [] {
      RawTotalSplit(hand[1..]);
    }
  }

  lemma {:induction false} SoftenFrom(hard: int, k: nat)
    requires hard >= k
    ensures Soften(hard + 10 * k, k) == if k > 0 && hard + 10 <= 21 then hard + 10 else hard
  {
    if k > 0 && hard + 10 * k > 21 {
      SoftenFrom(hard, k - 1);
    }
  }

  /**
   * The soft-ace rule: the total is the hard total, plus 10 exactly when the
   * hand holds an ace and counting one ace as 11 keeps the total at most 21.
   */
  lemma HandTotalSoftAce(hand: seq<Card>)
    ensures HandTotal(hand) == HardTotal(hand)
              + (if AceCount(hand) > 0 && HardTotal(hand) + 10 <= 21 then 10 else 0)
  {
    RawTotalSplit(hand);
    SoftenFrom(HardTotal(hand), AceCount(hand));
  }

  /** A hand busts exactly when even its hard total is over 21; no total is below the card count. */
  lemma BustIsHardBust(hand: seq<Card>)
    ensures IsBust(hand) <==> HardTotal(hand) > 21
    ensures HandTotal(hand) >= |hand|
  {
    HandTotalSoftAce(hand);
    RawTotalSplit(hand);
  }

  /** Two cards can never bust (the worst is two aces, 12). */
  lemma TwoCardsNeverBust(hand: seq<Card>)
    requires |hand| == 2
    ensures !IsBust(hand) && HandTotal(hand) <= 21
  {
    HandTotalSoftAce(hand);
    assert hand[1..][1..] == [];
    assert HardTotal(hand[1..][1..]) == 0;
    assert HardTotal(hand) <= 20;
  }

  /** A blackjack is exactly an ace together with a ten-valued card. */
  lemma BlackjackIsAceAndTen(hand: seq<Card>)
    ensures IsBlackjack(hand) <==>
      |hand| == 2 &&
      ((hand[0].rank == Ace && CardValue(hand[1].rank) == 10) ||
       (hand[1].rank == Ace && CardValue(hand[0].rank) == 10))
  {
    if |hand| == 2 {
      HandTotalSoftAce(hand);
      assert hand[1..][1..] == [];
      assert HardTotal(hand[1..][1..]) == 0 && AceCount(hand[1..][1..]) == 0;
    }
  }

  // ------------------------------------------------------------ chip stack

  /** Sum of a chip list. */
  function Sum(chips: seq<nat>): nat
  {
    if chips == [] then 0 else Sum(chips[..|chips| - 1]) + chips[|chips| - 1]
  }

  /** Sum of the chips worth at least d. */
  function SumAtLeast(chips: seq<nat>, d: nat): nat
  {
    if chips == [] then 0
    else SumAtLeast(chips[..|chips| - 1], d) + (if chips[|chips| - 1] >= d then chips[|chips| - 1] else 0)
  }

  lemma SumAppend(chips: seq<nat>, x: nat, d: nat)
    ensures Sum(chips + [x]) == Sum(chips) + x
    ensures SumAtLeast(chips + [x], d) == SumAtLeast(chips, d) + (if x >= d then x else 0)
  {
    assert (chips + [x])[..|chips|] == chips;
  }

  lemma SumAtLeastAll(chips: seq<nat>, d: nat)
    requires forall k :: 0 <= k < |chips| ==> chips[k] >= d
    ensures SumAtLeast(chips, d) == Sum(chips)
  {
    if chips != [] {
      SumAtLeastAll(chips[..|chips| - 1], d);
    }
  }

  /** Every chip in the list is one of the denominations. */
  predicate AllDenoms(chips: seq<nat>)
  {
    forall k :: 0 <= k < |chips| ==> chips[k] in ChipDenoms
  }

  lemma DenomsDescending(k: nat, i: nat)
    requires k < i < |ChipDenoms|
    ensures ChipDenoms[k] > ChipDenoms[i]
  {
  }

  /** Descending order of a chip list. */
  predicate Descending(chips: seq<nat>)
  {
    forall a, b :: 0 <= a < b < |chips| ==> chips[a] >= chips[b]
  }

  /**
   * The greedy property for the first i denominations: after the chips worth
   * at least ChipDenoms[k], less than ChipDenoms[k] of the bet is left over.
   */
  predicate GreedyUpTo(bet: int, chips: seq<nat>, i: nat)
    requires i <= |ChipDenoms|
  {
    forall k :: 0 <= k < i ==> 0 <= bet - SumAtLeast(chips, ChipDenoms[k]) < ChipDenoms[k]
  }

  lemma GreedyStep(bet: int, before: seq<nat>, chips: seq<nat>, i: nat)
    requires i < |ChipDenoms|
    requires GreedyUpTo(bet, before, i)
    requires forall D: nat :: D > ChipDenoms[i] ==> SumAtLeast(chips, D) == SumAtLeast(before, D)
    requires forall k :: 0 <= k < |chips| ==> chips[k] >= ChipDenoms[i]
    requires 0 <= bet - Sum(chips) < ChipDenoms[i]
    ensures GreedyUpTo(bet, chips, i + 1)
  {
    forall k | 0 <= k < i
      ensures SumAtLeast(chips, ChipDenoms[k]) == SumAtLeast(before, ChipDenoms[k])
    {
      DenomsDescending(k, i);
    }
    SumAtLeastAll(chips, ChipDenoms[i]);
  }

  /**
   * renderChipStack's denomination loop: for each denomination, largest first,
   * take chips while the remainder still covers one. The stack is greedy:
   * after the chips of denomination d and above, less than d is left. A
   * remainder below 10 is not drawn.
   */
  method ChipStack(bet: int) returns (chips: seq<nat>)
    ensures bet <= 0 ==> chips == []
    ensures AllDenoms(chips)
    ensures Descending(chips)
    ensures bet > 0 ==> Sum(chips) <= bet < Sum(chips) + 10
    ensures bet > 0 ==> GreedyUpTo(bet, chips, |ChipDenoms|)
  {
    chips := [];
    if bet <= 0 {
      // an empty bet draws nothing; a negative one would not enter any loop
      return;
    }
    var rem := bet;
    for i := 0 to |ChipDenoms|
      invariant rem == bet - Sum(chips) && rem >= 0
      invariant AllDenoms(chips)
      invariant i < |ChipDenoms| && chips != [] ==> chips[|chips| - 1] > ChipDenoms[i]
      invariant Descending(chips)
      invariant GreedyUpTo(bet, chips, i)
    {
      ghost var before := chips;
      chips, rem := TakeChips(ChipDenoms[i], chips, rem);
      GreedyStep(bet, before, chips, i);
      assert i + 1 < |ChipDenoms| ==> ChipDenoms[i] > ChipDenoms[i + 1];
    }
    assert SumAtLeast(chips, ChipDenoms[5]) == Sum(chips) by {
      SumAtLeastAll(chips, 10);
    }
  }

  /** A chip no larger than any in a descending list can go at its end. */
  lemma DescendingAppend(chips: seq<nat>, x: nat)
    requires Descending(chips) && forall k :: 0 <= k < |chips| ==> chips[k] >= x
    ensures Descending(chips + [x])
  {
  }

  /** The inner `while (rem >= d)` loop of renderChipStack: add d-chips while they fit. */
  method TakeChips(d: nat, chips: seq<nat>, rem: int) returns (more: seq<nat>, left: int)
    requires d in ChipDenoms && rem >= 0
    requires AllDenoms(chips)
    requires Descending(chips)
    requires chips != [] ==> chips[|chips| - 1] > d
    ensures 0 <= left < d
    ensures |more| >= |chips| && more[..|chips|] == chips
    ensures forall k :: |chips| <= k < |more| ==> more[k] == d
    ensures left == rem - (Sum(more) - Sum(chips))
    ensures AllDenoms(more) && Descending(more)
    ensures forall k :: 0 <= k < |more| ==> more[k] >= d
    ensures forall D: nat :: D > d ==> SumAtLeast(more, D) == SumAtLeast(chips, D)
  {
    more, left := chips, rem;
    while left >= d
      invariant |more| >= |chips| && more[..|chips|] == chips
      invariant forall k :: |chips| <= k < |more| ==> more[k] == d
      invariant 0 <= left && left == rem - (Sum(more) - Sum(chips))
      invariant AllDenoms(more) && Descending(more)
      invariant forall k :: 0 <= k < |more| ==> more[k] >= d
      invariant forall D: nat :: D > d ==> SumAtLeast(more, D) == SumAtLeast(chips, D)
      decreases left
    {
      AppendChip(chips, more, d);
      more := more + [d];
      left := left - d;
    }
  }

  /** One more d-chip keeps what the loop of TakeChips maintains about the chips added so far. */
  lemma AppendChip(chips: seq<nat>, more: seq<nat>, d: nat)
    requires d in ChipDenoms
    requires |more| >= |chips| && more[..|chips|] == chips
    requires forall k :: |chips| <= k < |more| ==> more[k] == d
    requires AllDenoms(more) && Descending(more)
    requires forall k :: 0 <= k < |more| ==> more[k] >= d
    requires forall D: nat :: D > d ==> SumAtLeast(more, D) == SumAtLeast(chips, D)
    ensures |more + [d]| >= |chips| && (more + [d])[..|chips|] == chips
    ensures forall k :: |chips| <= k < |more + [d]| ==> (more + [d])[k] == d
    ensures Sum(more + [d]) == Sum(more) + d
    ensures AllDenoms(more + [d]) && Descending(more + [d])
    ensures forall k :: 0 <= k < |more + [d]| ==> (more + [d])[k] >= d
    ensures forall D: nat :: D > d ==> SumAtLeast(more + [d], D) == SumAtLeast(chips, D)
  {
    AppendChipShape(chips, more, d);
    AppendChipSums(chips, more, d);
  }

  /** The order and the denominations of the chips after one more d-chip. */
  lemma AppendChipShape(chips: seq<nat>, more: seq<nat>, d: nat)
    requires d in ChipDenoms
    requires |more| >= |chips| && more[..|chips|] == chips
    requires forall k :: |chips| <= k < |more| ==> more[k] == d
    requires AllDenoms(more) && Descending(more)
    requires forall k :: 0 <= k < |more| ==> more[k] >= d
    ensures |more + [d]| >= |chips| && (more + [d])[..|chips|] == chips
    ensures forall k :: |chips| <= k < |more + [d]| ==> (more + [d])[k] == d
    ensures AllDenoms(more + [d]) && Descending(more + [d])
    ensures forall k :: 0 <= k < |more + [d]| ==> (more + [d])[k] >= d
  {
    DescendingAppend(more, d);
    assert (more + [d])[..|chips|] == more[..|chips|];
  }

  /** The sums of the chips after one more d-chip: larger denominations are untouched. */
  lemma AppendChipSums(chips: seq<nat>, more: seq<nat>, d: nat)
    requires forall D: nat :: D > d ==> SumAtLeast(more, D) == SumAtLeast(chips, D)
    ensures Sum(more + [d]) == Sum(more) + d
    ensures forall D: nat :: D > d ==> SumAtLeast(more + [d], D) == SumAtLeast(chips, D)
  {
    forall D: nat | D > d ensures SumAtLeast(more + [d], D) == SumAtLeast(more, D) {
      SumAppend(more, d, D);
    }
    SumAppend(more, d, d);
  }
}
