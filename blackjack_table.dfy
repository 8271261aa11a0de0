/**
 * The blackjack round engine: the game's single `state` object with its
 * three phases ('betting', 'playing', 'result'), the betting and player
 * actions, the dealer's draw-to-17 rule, settlement, the statistics and the
 * bounded round history.
 *
 * The delays the game inserts between steps (card animations) are taken as
 * immediate: each action runs its continuation at once.
 */
module BlackjackTable {
  import opened BlackjackCards
  import opened JsMath

  datatype Phase = Betting | Playing | Result

  datatype Outcome = Win | Loss | Push | Blackjack

  datatype Stats = Stats(games: int, wins: int, losses: int, pushes: int, blackjacks: int,
                         bestWin: int, currentStreak: int, pnl: int)

  datatype HistoryEntry = HistoryEntry(round: nat, bet: int, outcome: Outcome, net: int)

  const DefaultStats: Stats := Stats(0, 0, 0, 0, 0, 0, 0, 0)
  const StartingBalance: int := 1000
  const MaxBet: int := 1000
  const MinBet: int := 10
  const HistoryLimit: nat := 20
  const DealerStands: int := 17

  // ------------------------------------------------------------ settlement

  /** The amount endRound pays back for a settled bet (the stake included). */
  function Payout(outcome: Outcome, bet: nat): nat
  {
    match outcome
    case Blackjack => (5 * bet) / 2   // Math.floor(bet * 2.5)
    case Win => 2 * bet
    case Push => bet
    case Loss => 0
  }

  /**
   * The net result of a round has the sign of its outcome: a blackjack earns
   * one and a half times the bet rounded down, a win the bet, a push nothing,
   * and a loss costs the bet.
   */
  lemma NetFollowsOutcome(outcome: Outcome, bet: nat)
    ensures outcome == Blackjack ==> Payout(outcome, bet) - bet == (3 * bet) / 2
    ensures outcome == Win ==> Payout(outcome, bet) - bet == bet
    ensures outcome == Push ==> Payout(outcome, bet) - bet == 0
    ensures outcome == Loss ==> Payout(outcome, bet) - bet == -(bet as int)
    ensures bet > 0 ==> (Payout(outcome, bet) > bet <==> outcome in {Win, Blackjack})
    ensures bet > 0 ==> (Payout(outcome, bet) < bet <==> outcome == Loss)
  {
    if outcome == Blackjack {
      assert 5 * bet == 2 * bet + 3 * bet;
    }
  }

  predicate IsWinLike(outcome: Outcome) { outcome == Win || outcome == Blackjack }

  predicate IsLoss(outcome: Outcome) { outcome == Loss }

  /** endRound's streak rule. */
  function NextStreak(streak: int, outcome: Outcome): int
  {
    if IsWinLike(outcome) then Max(1, streak + 1)
    else if outcome == Loss then Min(-1, streak - 1)
    else 0
  }

  /** The streak after a sequence of rounds, starting from the default statistics. */
  function StreakAfter(outcomes: seq<Outcome>): int
  {
    if outcomes == [] then 0
    else NextStreak(StreakAfter(outcomes[..|outcomes| - 1]), outcomes[|outcomes| - 1])
  }

  /** The number of rounds at the end of `outcomes` that satisfy p. */
  function TrailingRun(outcomes: seq<Outcome>, p: Outcome -> bool): nat
  {
    if outcomes == [] || !p(outcomes[|outcomes| - 1]) then 0
    else 1 + TrailingRun(outcomes[..|outcomes| - 1], p)
  }

  /**
   * What the streak counter is meant to show: the number of wins (blackjacks
   * included) that ended the sequence, or minus the number of losses that
   * ended it; zero after a push.
   */
  function CurrentRun(outcomes: seq<Outcome>): int
  {
    if outcomes == [] then 0
    else if IsWinLike(outcomes[|outcomes| - 1]) then TrailingRun(outcomes, IsWinLike)
    else if outcomes[|outcomes| - 1] == Loss then -(TrailingRun(outcomes, IsLoss) as int)
    else 0
  }

  /** The streak rule counts exactly the current run of wins or losses. */
  lemma {:induction false} StreakIsCurrentRun(outcomes: seq<Outcome>)
    ensures StreakAfter(outcomes) == CurrentRun(outcomes)
  {
    if outcomes != [] {
      var before := outcomes[..|outcomes| - 1];
      var last := outcomes[|outcomes| - 1];
      StreakIsCurrentRun(before);
      // one step of each trailing run on the shorter sequence
      var wins: int, losses: int := TrailingRun(before, IsWinLike), TrailingRun(before, IsLoss);
      if before != [] {
        var prev := before[|before| - 1];
        assert IsWinLike(prev) ==> CurrentRun(before) == wins >= 1;
        assert IsLoss(prev) ==> CurrentRun(before) == -losses <= -1;
        assert !IsWinLike(prev) ==> wins == 0;
        assert !IsLoss(prev) ==> losses == 0;
      }
      if IsWinLike(last) {
        assert TrailingRun(outcomes, IsWinLike) == 1 + wins;
      } else if IsLoss(last) {
        assert TrailingRun(outcomes, IsLoss) == 1 + losses;
      }
    }
  }

  /** The statistics part of endRound. */
  function Settle(stats: Stats, outcome: Outcome, bet: nat): Stats
  {
    var net := Payout(outcome, bet) - bet;
    stats.(games := stats.games + 1,
           wins := stats.wins + (if IsWinLike(outcome) then 1 else 0),
           blackjacks := stats.blackjacks + (if outcome == Blackjack then 1 else 0),
           losses := stats.losses + (if outcome == Loss then 1 else 0),
           pushes := stats.pushes + (if outcome == Push then 1 else 0),
           bestWin := Max(stats.bestWin, net),
           pnl := stats.pnl + net,
           currentStreak := NextStreak(stats.currentStreak, outcome))
  }

  /** Every game counted is exactly one of a win, a loss or a push; blackjacks are wins. */
  predicate Tallied(stats: Stats)
  {
    && 0 <= stats.blackjacks <= stats.wins && 0 <= stats.losses && 0 <= stats.pushes
    && stats.games - stats.wins == stats.losses + stats.pushes
  }

  /**
   * Settling a round counts one more game and exactly one more win, loss or
   * push, so the tally stays consistent; the profit-and-loss figure moves by
   * the round's net, and the best win never decreases.
   */
  lemma SettleKeepsTally(stats: Stats, outcome: Outcome, bet: nat)
    requires Tallied(stats)
    ensures Tallied(Settle(stats, outcome, bet))
    ensures Settle(stats, outcome, bet).games == stats.games + 1
    ensures (Settle(stats, outcome, bet).wins - stats.wins)
          + (Settle(stats, outcome, bet).losses - stats.losses)
          + (Settle(stats, outcome, bet).pushes - stats.pushes) == 1
    ensures Settle(stats, outcome, bet).pnl == stats.pnl + Payout(outcome, bet) - bet
    ensures Settle(stats, outcome, bet).bestWin >= stats.bestWin
  {
  }

  /** resolveRound: the outcome once the dealer has finished drawing. */
  function ResolveOutcome(player: seq<Card>, dealer: seq<Card>): Outcome
  {
    var pv, dv := HandTotal(player), HandTotal(dealer);
    if IsBust(dealer) then Win
    else if pv > dv then Win
    else if dv > pv then Loss
    else Push
  }

  /**
   * For a player who has not bust, the showdown is decided by the totals:
   * a win exactly when the dealer busts or is beaten, a loss exactly when the
   * dealer is closer to 21, a push on equal totals; never a blackjack.
   */
  lemma ShowdownByTotals(player: seq<Card>, dealer: seq<Card>)
    requires !IsBust(player)
    ensures ResolveOutcome(player, dealer) != Blackjack
    ensures ResolveOutcome(player, dealer) == Win <==>
              HandTotal(dealer) > 21 || HandTotal(player) > HandTotal(dealer)
    ensures ResolveOutcome(player, dealer) == Loss <==>
              HandTotal(player) < HandTotal(dealer) <= 21
    ensures ResolveOutcome(player, dealer) == Push <==> HandTotal(player) == HandTotal(dealer)
  {
  }

  // --------------------------------------------------------------- history

  /** addHistory's list operation: put the entry first, then drop the oldest past the limit. */
  function BoundedPrepend(history: seq<HistoryEntry>, entry: HistoryEntry): seq<HistoryEntry>
  {
    var h := [entry] + history;
    if |h| > HistoryLimit then h[..|h| - 1] else h
  }

  /**
   * The history stays newest first and bounded: the new entry heads it, the
   * previous entries follow in order, and only the oldest one falls off once
   * the limit is passed.
   */
  lemma BoundedPrependKeepsNewest(history: seq<HistoryEntry>, entry: HistoryEntry)
    requires |history| <= HistoryLimit
    ensures var r := BoundedPrepend(history, entry);
      |r| == Min(|history| + 1, HistoryLimit) && r[0] == entry && r[1..] == history[..|r| - 1]
  {
  }

  /** Dealing four cards off the end of a deck loses none of them. */
  lemma DealKeepsCards(s: seq<Card>)
    requires |s| == 52 && FullDeck(multiset(s))
    ensures FullDeck(multiset(s[..48]) + multiset([s[51], s[50]]) + multiset([s[49], s[48]]))
  {
    DealSplit(s);
  }

  lemma DealSplit(s: seq<Card>)
    requires |s| == 52
    ensures multiset(s) == multiset(s[..48]) + multiset([s[51], s[50]]) + multiset([s[49], s[48]])
  {
    assert s == s[..48] + [s[48], s[49], s[50], s[51]];
  }

  // ----------------------------------------------------------------- table

  class Table {
    var deck: seq<Card>
    var playerHand: seq<Card>
    var dealerHand: seq<Card>
    var balance: int
    var currentBet: int
    var phase: Phase
    var roundNumber: nat
    var stats: Stats
    var history: seq<HistoryEntry>
    var holeHidden: bool

    /** No card is created or lost: the deck and the two hands always make up the 52 cards. */
    ghost predicate CardsKept()
      reads this`deck, this`playerHand, this`dealerHand
    {
      AllCards(deck, playerHand, dealerHand)
    }

    /**
     * The money and the records agree: the profit-and-loss statistic is the
     * change in money since the game began (a bet on the table still counts
     * as the player's), the tally adds up, and a settled round heads the
     * history.
     */
    ghost predicate BooksBalance()
      reads this`balance, this`currentBet, this`phase, this`stats, this`history, this`roundNumber
    {
      && balance >= 0 && currentBet >= 0
      && Tallied(stats)
      && |history| <= HistoryLimit
      && (if phase == Playing then balance + currentBet else balance) == StartingBalance + stats.pnl
      && (phase == Result ==>
            |history| > 0 && history[0].round == roundNumber && history[0].bet == currentBet)
    }

    /** Everything that holds between actions, whatever the phase. */
    ghost predicate Consistent()
      reads this
    {
      CardsKept() && BooksBalance()
    }

    /** The object invariant: in the playing phase the dealer holds two cards and the player has not bust. */
    ghost predicate Valid()
      reads this
    {
      Consistent() && (phase == Playing ==> |dealerHand| == 2 && |playerHand| >= 2 && !IsBust(playerHand))
    }

    /**
     * What endRound leaves behind for a round that ended with `outcome`,
     * from the balance, statistics and history it started from: the result
     * phase, the payout added to the balance, the round counted in the
     * statistics, and its entry at the head of the history.
     */
    ghost predicate Settled(outcome: Outcome, balance0: int, stats0: Stats, history0: seq<HistoryEntry>)
      reads this`phase, this`balance, this`currentBet, this`stats, this`history, this`roundNumber
    {
      && currentBet >= 0
      && phase == Result
      && balance == balance0 + Payout(outcome, currentBet)
      && stats == Settle(stats0, outcome, currentBet)
      && history == BoundedPrepend(history0,
           HistoryEntry(roundNumber, currentBet, outcome, Payout(outcome, currentBet) - currentBet))
    }

    /**
     * What dealerPlay leaves behind, from the dealer's hand and the deck it
     * started with: the dealer drew the deck's last cards one by one, in pop
     * order, drawing only while the hand totalled less than 17, and stood at
     * the first total of 17 or more. The deck lost exactly the cards drawn.
     */
    ghost predicate DealerFinished(dealer0: seq<Card>, deck0: seq<Card>)
      reads this`dealerHand, this`deck
    {
      && DealerDrew(dealer0, deck0)
      && HandTotal(dealerHand) >= DealerStands
    }

    /** The dealer's hand extends dealer0 by cards popped off deck0, each drawn below 17. */
    ghost predicate DealerDrew(dealer0: seq<Card>, deck0: seq<Card>)
      reads this`dealerHand, this`deck
    {
      && |dealer0| <= |dealerHand| <= |dealer0| + |deck0|
      && dealerHand[..|dealer0|] == dealer0
      && (forall k | |dealer0| <= k < |dealerHand| :: dealerHand[k] == deck0[|deck0| - 1 - (k - |dealer0|)])
      && deck == deck0[..|deck0| - (|dealerHand| - |dealer0|)]
      && (forall k | |dealer0| <= k < |dealerHand| :: HandTotal(dealerHand[..k]) < DealerStands)
    }

    /** init() on a fresh browser (nothing saved): default state, then startRound. */
    constructor (rolls: seq<real>)
      requires Rolls(rolls)
      ensures Valid()
      ensures phase == Betting && balance == StartingBalance && currentBet == 0
      ensures stats == DefaultStats && history == [] && roundNumber == 0
      ensures playerHand == [] && dealerHand == [] && holeHidden
      ensures FullDeck(multiset(deck))
    {
      var shuffled := FreshShuffledDeck(rolls);
      balance := StartingBalance;
      currentBet := 0;
      phase := Betting;
      roundNumber := 0;
      stats := DefaultStats;
      history := [];
      playerHand := [];
      dealerHand := [];
      holeHidden := true;
      deck := shuffled;
      new;
      assert multiset(deck) + multiset(playerHand) + multiset(dealerHand) == multiset(deck);
    }

    /** startRound: with money left, clear the table for a new bet on a freshly shuffled deck. */
    method StartRound(rolls: seq<real>)
      requires Valid() && Rolls(rolls) && phase != Playing
      modifies this`phase, this`playerHand, this`dealerHand, this`currentBet, this`holeHidden, this`deck
      ensures Valid()
      ensures old(balance) <= 0 ==> unchanged(this)
      ensures old(balance) > 0 ==>
        && phase == Betting && playerHand == [] && dealerHand == [] && currentBet == 0 && holeHidden
        && FullDeck(multiset(deck))
    {
      if balance <= 0 {
        return;   // game over: the modal is shown instead
      }
      phase := Betting;
      playerHand := [];
      dealerHand := [];
      currentBet := 0;
      holeHidden := true;
      deck := FreshShuffledDeck(rolls);
      assert multiset(deck) + multiset(playerHand) + multiset(dealerHand) == multiset(deck);
    }

    /** addChip: only while betting; the bet grows by the chip but never past the balance or 1000. */
    method AddChip(amount: nat)
      requires Valid()
      modifies this`currentBet
      ensures Valid()
      ensures old(phase) != Betting ==> currentBet == old(currentBet)
      ensures old(phase) == Betting ==>
        currentBet == Min(old(currentBet) + amount, Min(balance, MaxBet))
    {
      if phase != Betting {
        return;
      }
      var maxBet := Min(balance, MaxBet);
      currentBet := Min(currentBet + amount, maxBet);
    }

    /** clearBet: only while betting, the bet goes back to zero. */
    method ClearBet()
      requires Valid()
      modifies this`currentBet
      ensures Valid()
      ensures old(phase) != Betting ==> currentBet == old(currentBet)
      ensures old(phase) == Betting ==> currentBet == 0
    {
      if phase != Betting {
        return;
      }
      currentBet := 0;
    }

    /** deck.pop(): the last card of the deck. */
    method DrawCard() returns (card: Card)
      requires deck != []
      modifies this`deck
      ensures deck == old(deck[..|deck| - 1]) && card == old(deck[|deck| - 1])
      ensures multiset(deck) + multiset{card} == old(multiset(deck))
    {
      card := deck[|deck| - 1];
      assert old(deck) == deck[..|deck| - 1] + [card];
      deck := deck[..|deck| - 1];
    }

    /**
     * deal: needs the betting phase and a bet of at least 10. A bet above the
     * balance is cut down to the balance and nothing else happens. Otherwise
     * the round is played out by OpenRound.
     */
    method Deal(rolls: seq<real>)
      requires Valid() && Rolls(rolls)
      modifies this
      ensures Valid()
      ensures old(phase) != Betting || old(currentBet) < MinBet ==> unchanged(this)
      ensures old(phase) == Betting && MinBet <= old(currentBet) && old(currentBet) > old(balance) ==>
        currentBet == old(balance) && phase == Betting
        && deck == old(deck) && playerHand == old(playerHand) && dealerHand == old(dealerHand)
        && balance == old(balance) && stats == old(stats) && history == old(history)
        && roundNumber == old(roundNumber) && holeHidden == old(holeHidden)
      ensures old(phase) == Betting && MinBet <= old(currentBet) <= old(balance) ==>
        OpenedRound(old(balance), old(roundNumber), old(currentBet), old(stats), old(history), old(holeHidden))
    {
      if phase != Betting {
        return;
      }
      if currentBet < MinBet {
        return;   // the bet display shakes
      }
      if currentBet > balance {
        currentBet := balance;
        return;
      }
      OpenRound(rolls);
    }

    /**
     * What deal leaves behind once the bet was accepted: the round number is
     * one higher, the bet unchanged, two cards each dealt from a fresh deck;
     * a natural on either side has settled the round with the hole card
     * shown, otherwise the bet has left the balance, the hole card stays as
     * it was and play goes on.
     */
    ghost predicate OpenedRound(balance0: int, round0: nat, bet0: nat, stats0: Stats, history0: seq<HistoryEntry>,
                                hole0: bool)
      reads this
    {
      && roundNumber == round0 + 1
      && currentBet == bet0
      && |playerHand| == 2 && |dealerHand| == 2 && |deck| == 48
      && (if IsBlackjack(playerHand) || IsBlackjack(dealerHand) then
            && !holeHidden
            && Settled(NaturalOutcome(playerHand, dealerHand), balance0 - bet0, stats0, history0)
          else
            && phase == Playing
            && balance == balance0 - bet0
            && stats == stats0 && history == history0
            && holeHidden == hole0)
    }

    /** The accepted half of deal: the bet leaves the balance and the cards are dealt. */
    method OpenRound(rolls: seq<real>)
      requires Valid() && Rolls(rolls) && phase == Betting && MinBet <= currentBet <= balance
      modifies this
      ensures Valid()
      ensures OpenedRound(old(balance), old(roundNumber), old(currentBet), old(stats), old(history), old(holeHidden))
    {
      balance := balance - currentBet;
      phase := Playing;
      roundNumber := roundNumber + 1;
      assert BooksBalance();
      ghost var shuffled := DealHands(rolls);
      assert Valid();
      ResolveNaturals();
    }

    /** The outcome of a round in which the player or the dealer was dealt a natural. */
    static function NaturalOutcome(player: seq<Card>, dealer: seq<Card>): Outcome
    {
      if IsBlackjack(player) && IsBlackjack(dealer) then Push
      else if IsBlackjack(player) then Blackjack
      else Loss
    }

    /**
     * The continuation of deal once the cards are out: a natural on either
     * side reveals the hole card and settles the round at once; otherwise
     * play goes on.
     */
    method ResolveNaturals()
      requires Valid() && phase == Playing
      modifies this`holeHidden, this`phase, this`balance, this`stats, this`history
      ensures Valid()
      ensures IsBlackjack(playerHand) || IsBlackjack(dealerHand) ==>
        !holeHidden && Settled(NaturalOutcome(playerHand, dealerHand), old(balance), old(stats), old(history))
      ensures !IsBlackjack(playerHand) && !IsBlackjack(dealerHand) ==>
        phase == Playing && balance == old(balance) && stats == old(stats)
        && history == old(history) && holeHidden == old(holeHidden)
    {
      var playerNatural := IsBlackjack(playerHand);
      var dealerNatural := IsBlackjack(dealerHand);
      if playerNatural || dealerNatural {
        holeHidden := false;
        if playerNatural && dealerNatural {
          EndRound(Push);
        } else if playerNatural {
          EndRound(Blackjack);
        } else {
          EndRound(Loss);
        }
      }
    }

    /**
     * The dealing part of deal: a fresh shuffled deck, then two cards each
     * from its end, alternately player, player, dealer, dealer.
     */
    method DealHands(rolls: seq<real>) returns (ghost shuffled: seq<Card>)
      requires Rolls(rolls)
      modifies this`deck, this`playerHand, this`dealerHand
      ensures FullDeck(multiset(shuffled)) && |shuffled| == 52
      ensures deck == shuffled[..48]
      ensures |playerHand| == 2 && playerHand[0] == shuffled[51] && playerHand[1] == shuffled[50]
      ensures |dealerHand| == 2 && dealerHand[0] == shuffled[49] && dealerHand[1] == shuffled[48]
      ensures FullDeck(multiset(deck) + multiset(playerHand) + multiset(dealerHand))
      ensures |deck| == 48 && |playerHand| == 2 && |dealerHand| == 2 && !IsBust(playerHand)
    {
      deck := FreshShuffledDeck(rolls);
      shuffled := deck;
      var p1 := DrawCard();
      var p2 := DrawCard();
      playerHand := [p1, p2];
      var d1 := DrawCard();
      var d2 := DrawCard();
      dealerHand := [d1, d2];
      DealKeepsCards(shuffled);
      TwoCardsNeverBust(playerHand);
    }

    /**
     * state.playerHand.push(state.deck.pop()): with the player not bust,
     * at most 21 cards are in the player's hand, so the deck is not empty.
     */
    method PlayerDraws()
      requires Valid() && phase == Playing
      modifies this`deck, this`playerHand
      ensures Consistent()
      ensures |old(deck)| > 0
      ensures playerHand == old(playerHand) + [old(deck)[|old(deck)| - 1]]
      ensures deck == old(deck)[..|old(deck)| - 1]
    {
      BustIsHardBust(playerHand);
      var card := DrawCard();
      assert multiset(playerHand + [card]) == multiset(playerHand) + multiset{card};
      playerHand := playerHand + [card];
    }

    /** hit: one more card for the player; a bust loses the round at once. */
    method Hit()
      requires Valid()
      modifies this`deck, this`playerHand, this`holeHidden, this`phase, this`balance, this`stats, this`history
      ensures Valid()
      ensures old(phase) != Playing ==> unchanged(this)
      ensures old(phase) == Playing ==>
        && |old(deck)| > 0
        && playerHand == old(playerHand) + [old(deck)[|old(deck)| - 1]]
        && deck == old(deck)[..|old(deck)| - 1]
        && (if IsBust(playerHand) then
              !holeHidden && Settled(Loss, old(balance), old(stats), old(history))
            else
              phase == Playing && balance == old(balance) && stats == old(stats)
              && history == old(history) && holeHidden == old(holeHidden))
    {
      if phase != Playing {
        return;
      }
      PlayerDraws();
      if IsBust(playerHand) {
        holeHidden := false;
        EndRound(Loss);
      }
    }

    /** stand: reveal the hole card and let the dealer play out the round. */
    method Stand()
      requires Valid()
      modifies this`holeHidden, this`deck, this`dealerHand, this`phase, this`balance, this`stats, this`history
      ensures Valid()
      ensures old(phase) != Playing ==> unchanged(this)
      ensures old(phase) == Playing ==>
        && !holeHidden && DealerFinished(old(dealerHand), old(deck))
        && Settled(ResolveOutcome(playerHand, dealerHand), old(balance), old(stats), old(history))
    {
      if phase != Playing {
        return;
      }
      holeHidden := false;
      DealerPlay();
    }

    /**
     * doubleDown: only on the first two cards. Up to the bet again moves from
     * the balance into the bet (less if the balance is short), the player
     * takes exactly one card, and the round ends: a bust loses, otherwise the
     * dealer plays.
     */
    method DoubleDown()
      requires Valid()
      modifies this`balance, this`currentBet, this`deck, this`playerHand, this`dealerHand, this`holeHidden
      modifies this`phase, this`stats, this`history
      ensures Valid()
      ensures old(phase) != Playing || |old(playerHand)| != 2 ==> unchanged(this)
      ensures old(phase) == Playing && |old(playerHand)| == 2 ==>
        && currentBet == old(currentBet) + Min(old(currentBet), old(balance))
        && |old(deck)| > 0
        && playerHand == old(playerHand) + [old(deck)[|old(deck)| - 1]]
        && !holeHidden
        && (IsBust(playerHand) ==>
              (dealerHand == old(dealerHand) && deck == old(deck)[..|old(deck)| - 1]
               && Settled(Loss, old(balance) - Min(old(currentBet), old(balance)), old(stats), old(history))))
        && (!IsBust(playerHand) ==>
              (DealerFinished(old(dealerHand), old(deck)[..|old(deck)| - 1])
               && Settled(ResolveOutcome(playerHand, dealerHand),
                          old(balance) - Min(old(currentBet), old(balance)), old(stats), old(history))))
    {
      if phase != Playing || |playerHand| != 2 {
        return;
      }
      var extra := Min(currentBet, balance);
      balance := balance - extra;
      currentBet := currentBet + extra;
      assert BooksBalance();
      PlayerDraws();
      FinishDouble();
    }

    /**
     * The continuation of doubleDown after the card: reveal the hole card;
     * a bust loses, otherwise the dealer plays the round out.
     */
    method FinishDouble()
      requires Consistent() && phase == Playing
      modifies this`holeHidden, this`deck, this`dealerHand, this`phase, this`balance, this`stats, this`history
      ensures Valid()
      ensures !holeHidden
      ensures IsBust(playerHand) ==>
        dealerHand == old(dealerHand) && deck == old(deck) && Settled(Loss, old(balance), old(stats), old(history))
      ensures !IsBust(playerHand) ==>
        DealerFinished(old(dealerHand), old(deck))
        && Settled(ResolveOutcome(playerHand, dealerHand), old(balance), old(stats), old(history))
    {
      holeHidden := false;
      if IsBust(playerHand) {
        EndRound(Loss);
      } else {
        DealerPlay();
      }
    }

    /**
     * dealerPlay then resolveRound: the dealer draws while the dealer total
     * is below 17, then the round is settled by comparing totals.
     */
    method DealerPlay()
      requires Consistent() && phase == Playing && !IsBust(playerHand)
      modifies this`deck, this`dealerHand, this`phase, this`balance, this`stats, this`history
      ensures Valid()
      ensures DealerFinished(old(dealerHand), old(deck))
      ensures Settled(ResolveOutcome(playerHand, dealerHand), old(balance), old(stats), old(history))
    {
      while HandTotal(dealerHand) < DealerStands
        invariant CardsKept()
        invariant DealerDrew(old(dealerHand), old(deck))
        modifies this`deck, this`dealerHand
        decreases |deck|
      {
        ghost var before := dealerHand;
        DealerDraws();
        assert dealerHand[..|before|] == before;
        assert forall k | 0 <= k <= |before| :: dealerHand[..k] == before[..k];
      }
      EndRound(ResolveOutcome(playerHand, dealerHand));
    }

    /**
     * state.dealerHand.push(state.deck.pop()) while the dealer is below 17:
     * then the dealer holds at most 16 cards and the player, not bust, at
     * most 21, so the deck is not empty.
     */
    method DealerDraws()
      requires CardsKept() && !IsBust(playerHand) && HandTotal(dealerHand) < DealerStands
      modifies this`deck, this`dealerHand
      ensures CardsKept()
      ensures |old(deck)| > 0
      ensures dealerHand == old(dealerHand) + [old(deck)[|old(deck)| - 1]]
      ensures deck == old(deck)[..|old(deck)| - 1]
    {
      BustIsHardBust(playerHand);
      BustIsHardBust(dealerHand);
      var card := DrawCard();
      assert multiset(dealerHand + [card]) == multiset(dealerHand) + multiset{card};
      dealerHand := dealerHand + [card];
    }

    /**
     * endRound: pay out, move to the result phase, count the round in the
     * statistics and record it at the head of the history.
     */
    method EndRound(outcome: Outcome)
      requires Consistent() && phase == Playing
      modifies this`phase, this`balance, this`stats, this`history
      ensures Consistent()
      ensures Settled(outcome, old(balance), old(stats), old(history))
    {
      phase := Result;
      var payout := Payout(outcome, currentBet);
      balance := balance + payout;
      var net := payout - currentBet;
      SettleKeepsTally(stats, outcome, currentBet);
      stats := Settle(stats, outcome, currentBet);
      AddHistory(outcome, net);
      assert history[0].round == roundNumber && history[0].bet == currentBet;
    }

    /** addHistory: newest first, at most 20 entries. */
    method AddHistory(outcome: Outcome, net: int)
      requires |history| <= HistoryLimit
      modifies this`history
      ensures history == BoundedPrepend(old(history), HistoryEntry(roundNumber, currentBet, outcome, net))
      ensures |history| <= HistoryLimit && history[0] == HistoryEntry(roundNumber, currentBet, outcome, net)
    {
      history := [HistoryEntry(roundNumber, currentBet, outcome, net)] + history;
      if |history| > HistoryLimit {
        history := history[..|history| - 1];
      }
    }

    /** resetGame: back to the starting balance with empty statistics and history, then a new round. */
    method ResetGame(rolls: seq<real>)
      requires Valid() && Rolls(rolls)
      modifies this
      ensures Valid()
      ensures balance == StartingBalance && stats == DefaultStats && history == [] && roundNumber == 0
      ensures phase == Betting && currentBet == 0 && playerHand == [] && dealerHand == [] && holeHidden
      ensures FullDeck(multiset(deck))
    {
      balance := StartingBalance;
      stats := DefaultStats;
      history := [];
      roundNumber := 0;
      // startRound clears these too; doing it first keeps the invariant true meanwhile
      phase := Betting;
      currentBet := 0;
      StartRound(rolls);
    }
  }
}
