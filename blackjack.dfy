/** The blackjack engine: `BlackjackGame` (deal, hit, stand, end of game with the dealer
    drawing to 17 and the fixed payout table) and the `active_blackjack_games` registry
    kept by `play_blackjack` and `blackjack_callback`.

    Each step is first defined on values (a `Round`), then performed in place by the
    class methods, whose postconditions tie the new fields to those functions. */
module BlackjackEngine {
  import opened Wrappers
  import opened Ledger
  import opened Cards

  /** The `action` argument of `end_game`: "blackjack", "bust" or "stand". */
  datatype EndAction = NaturalEnd | BustEnd | StandEnd

  /** The button a player pressed. */
  datatype Action = HitAction | StandAction

  /** The fields of a game that change. */
  datatype Round = Round(deck: seq<Card>, player: seq<Card>, dealer: seq<Card>, over: bool)

  datatype Dealt = Dealt(card: Card, deck: seq<Card>)
  datatype Drawn = Drawn(hand: seq<Card>, deck: seq<Card>)
  datatype Resolution = Resolution(round: Round, verdict: BlackjackVerdict)

  /** A player-visible step: the new round and, when the round ended, its verdict. */
  datatype Step = Step(round: Round, verdict: Option<BlackjackVerdict>)

  // ---------------------------------------------------------------------------
  // Rules on values

  /** `deal_card`: replace an empty deck by the freshly shuffled shoe, then pop its last card. */
  function Deal(deck: seq<Card>, reshuffled: seq<Card>): (d: Dealt)
    requires IsShoe(reshuffled)
    ensures d.deck + [d.card] == if deck == [] then reshuffled else deck
  {
    var source := if deck == [] then reshuffled else deck;
    Dealt(source[|source| - 1], source[..|source| - 1])
  }

  /** `n` calls of `deal_card` in a row: the cards in the order they were dealt. */
  function DealCards(deck: seq<Card>, reshuffled: seq<Card>, n: nat): (r: Drawn)
    requires IsShoe(reshuffled)
    ensures |r.hand| == n
    decreases n
  {
    if n == 0 then Drawn([], deck)
    else
      var d := Deal(deck, reshuffled);
      var rest := DealCards(d.deck, reshuffled, n - 1);
      Drawn([d.card] + rest.hand, rest.deck)
  }

  /** While the deck lasts, `n` deals pop its last `n` cards, the last card first, and leave
      the rest of the deck. */
  lemma DealCardsPopOrder(deck: seq<Card>, reshuffled: seq<Card>, n: nat)
    requires IsShoe(reshuffled) && n <= |deck|
    ensures DealCards(deck, reshuffled, n).deck == deck[..|deck| - n]
    ensures forall i :: 0 <= i < n ==> DealCards(deck, reshuffled, n).hand[i] == deck[|deck| - 1 - i]
  {
    DealCardsRest(deck, reshuffled, n);
    forall i | 0 <= i < n
      ensures DealCards(deck, reshuffled, n).hand[i] == deck[|deck| - 1 - i]
    {
      DealCardsAt(deck, reshuffled, n, i);
    }
  }

  /** A deal from a non-empty deck pops its last card. */
  lemma DealPops(deck: seq<Card>, reshuffled: seq<Card>)
    requires IsShoe(reshuffled) && deck != []
    ensures Deal(deck, reshuffled).deck == deck[..|deck| - 1]
    ensures Deal(deck, reshuffled).card == deck[|deck| - 1]
  {
    var d := Deal(deck, reshuffled);
    assert (d.deck + [d.card])[..|deck| - 1] == d.deck;
  }

  lemma {:induction false} DealCardsRest(deck: seq<Card>, reshuffled: seq<Card>, n: nat)
    requires IsShoe(reshuffled) && n <= |deck|
    ensures DealCards(deck, reshuffled, n).deck == deck[..|deck| - n]
    decreases n
  {
    if n > 0 {
      var d := Deal(deck, reshuffled);
      DealPops(deck, reshuffled);
      DealCardsRest(d.deck, reshuffled, n - 1);
      assert d.deck[..|d.deck| - (n - 1)] == deck[..|deck| - n];
    }
  }

  lemma {:induction false} DealCardsAt(deck: seq<Card>, reshuffled: seq<Card>, n: nat, i: nat)
    requires IsShoe(reshuffled) && i < n <= |deck|
    ensures DealCards(deck, reshuffled, n).hand[i] == deck[|deck| - 1 - i]
    decreases i
  {
    var d := Deal(deck, reshuffled);
    DealPops(deck, reshuffled);
    var rest := DealCards(d.deck, reshuffled, n - 1);
    assert DealCards(deck, reshuffled, n).hand == [d.card] + rest.hand;
    if i > 0 {
      DealCardsAt(d.deck, reshuffled, n - 1, i - 1);
    }
  }

  /** The dealer's loop of `end_game`: draw while the hand is worth less than 17. The dealer
      ends at 17 or more, keeps the cards already held, and stops at the first such total. */
  function DealerPlay(hand: seq<Card>, deck: seq<Card>, reshuffled: seq<Card>): (r: Drawn)
    requires IsShoe(reshuffled)
    ensures HandValue(r.hand) >= 17
    ensures |hand| <= |r.hand| && r.hand[..|hand|] == hand
    decreases 17 - Sum(hand)
  {
    if HandValue(hand) >= 17 then Drawn(hand, deck)
    else
      var d := Deal(deck, reshuffled);
      HandValueIsBestTotal(hand);
      SumAppend(hand, d.card);
      var r := DealerPlay(hand + [d.card], d.deck, reshuffled);
      assert r.hand[..|hand|] == (r.hand[..|hand| + 1])[..|hand|];
      r
  }

  /** The dealer stops at the first total of 17 or more: every hand the dealer held on the
      way was worth less than 17. */
  lemma {:induction false} DealerStopsAtFirst(hand: seq<Card>, deck: seq<Card>, reshuffled: seq<Card>)
    requires IsShoe(reshuffled)
    ensures forall k :: |hand| <= k < |DealerPlay(hand, deck, reshuffled).hand| ==>
      HandValue(DealerPlay(hand, deck, reshuffled).hand[..k]) < 17
    decreases 17 - Sum(hand)
  {
    if HandValue(hand) < 17 {
      var d := Deal(deck, reshuffled);
      var next := hand + [d.card];
      HandValueIsBestTotal(hand);
      SumAppend(hand, d.card);
      DealerStopsAtFirst(next, d.deck, reshuffled);
      var r := DealerPlay(next, d.deck, reshuffled);
      assert DealerPlay(hand, deck, reshuffled) == r;
      forall k | |hand| <= k < |r.hand|
        ensures HandValue(r.hand[..k]) < 17
      {
        if k == |hand| {
          assert r.hand[..|next|] == next;
          assert r.hand[..|hand|] == next[..|hand|] == hand;
        }
      }
    }
  }

  /** A hand extended by drawn cards, with the deck they leave. */
  function Extended(hand: seq<Card>, drawn: Drawn): Drawn {
    Drawn(hand + drawn.hand, drawn.deck)
  }

  /** The dealer's extra cards are the next cards `deal_card` gives, in order, and the deck
      is what those deals leave. */
  lemma {:induction false} DealerPlayDeals(hand: seq<Card>, deck: seq<Card>, reshuffled: seq<Card>)
    requires IsShoe(reshuffled)
    ensures DealerPlay(hand, deck, reshuffled)
         == Extended(hand, DealCards(deck, reshuffled, |DealerPlay(hand, deck, reshuffled).hand| - |hand|))
    decreases 17 - Sum(hand)
  {
    if HandValue(hand) >= 17 {
      assert hand + [] == hand;
    } else {
      var d := Deal(deck, reshuffled);
      var next := hand + [d.card];
      HandValueIsBestTotal(hand);
      SumAppend(hand, d.card);
      DealerPlayDeals(next, d.deck, reshuffled);
      var r := DealerPlay(next, d.deck, reshuffled);
      assert DealerPlay(hand, deck, reshuffled) == r;
      ExtendedStep(hand, deck, reshuffled, |r.hand| - |next|);
    }
  }

  /** Extending a hand by one deal and then by `k` more is extending it by `k + 1` deals. */
  lemma ExtendedStep(hand: seq<Card>, deck: seq<Card>, reshuffled: seq<Card>, k: nat)
    requires IsShoe(reshuffled)
    ensures Extended(hand + [Deal(deck, reshuffled).card], DealCards(Deal(deck, reshuffled).deck, reshuffled, k))
         == Extended(hand, DealCards(deck, reshuffled, k + 1))
  {
    var d := Deal(deck, reshuffled);
    var rest := DealCards(d.deck, reshuffled, k);
    assert hand + [d.card] + rest.hand == hand + ([d.card] + rest.hand);
  }

  /** One round of the dealer's loop: below 17 the dealer takes the next card and goes on. */
  lemma DealerPlayStep(hand: seq<Card>, deck: seq<Card>, reshuffled: seq<Card>)
    requires IsShoe(reshuffled)
    ensures HandValue(hand) >= 17 ==> DealerPlay(hand, deck, reshuffled) == Drawn(hand, deck)
    ensures HandValue(hand) < 17 ==>
      var d := Deal(deck, reshuffled);
      DealerPlay(hand, deck, reshuffled) == DealerPlay(hand + [d.card], d.deck, reshuffled)
  {
  }

  /** Who won, from the end action and the final hand values. */
  function Verdict(action: EndAction, playerValue: int, dealerValue: int): (v: BlackjackVerdict)
    ensures v == PlayerBust <==> action == BustEnd
    ensures action == NaturalEnd ==> (v == NaturalPush <==> dealerValue == 21) && (v == NaturalWin <==> dealerValue != 21)
    ensures action == StandEnd ==>
      && (v == DealerBust <==> dealerValue > 21)
      && (v == PlayerHigher <==> dealerValue <= 21 && playerValue > dealerValue)
      && (v == DealerHigher <==> dealerValue <= 21 && playerValue < dealerValue)
      && (v == Push <==> dealerValue <= 21 && playerValue == dealerValue)
  {
    match action
    case BustEnd => PlayerBust
    case NaturalEnd => if dealerValue == 21 then NaturalPush else NaturalWin
    case StandEnd =>
      if dealerValue > 21 then DealerBust
      else if playerValue > dealerValue then PlayerHigher
      else if playerValue < dealerValue then DealerHigher
      else Push
  }

  /** The change to the player's balance; a natural pays `int(bet * 1.5)`, which for
      bets below 2^53 / 3 is `(3 * bet) / 2`. */
  function Payout(verdict: BlackjackVerdict, bet: int): (p: int)
    ensures verdict in {PlayerBust, DealerHigher} ==> p == -bet
    ensures verdict in {DealerBust, PlayerHigher} ==> p == bet
    ensures verdict in {NaturalPush, Push} ==> p == 0
    ensures verdict == NaturalWin ==> 2 * p <= 3 * bet < 2 * p + 2
  {
    match verdict
    case PlayerBust => -bet
    case NaturalPush => 0
    case NaturalWin => (3 * bet) / 2
    case DealerBust => bet
    case PlayerHigher => bet
    case DealerHigher => -bet
    case Push => 0
  }

  /** `end_game`: the game is over, the dealer draws to 17 (also after a bust), then the
      verdict compares the hands. */
  function Resolve(g: Round, action: EndAction, reshuffled: seq<Card>): (res: Resolution)
    requires IsShoe(reshuffled)
    ensures res.round.over && res.round.player == g.player
    ensures HandValue(res.round.dealer) >= 17
    ensures |g.dealer| <= |res.round.dealer| && res.round.dealer[..|g.dealer|] == g.dealer
    ensures res.verdict == Verdict(action, HandValue(g.player), HandValue(res.round.dealer))
  {
    var drawn := DealerPlay(g.dealer, g.deck, reshuffled);
    Resolution(Round(drawn.deck, g.player, drawn.hand, true),
               Verdict(action, HandValue(g.player), HandValue(drawn.hand)))
  }

  function Ended(res: Resolution): Step {
    Step(res.round, Some(res.verdict))
  }

  /** `start_game`: two cards to the player, then two to the dealer; a two-card 21 ends the
      game at once as a natural. */
  function Start(g: Round, reshuffled: seq<Card>): (s: Step)
    requires IsShoe(reshuffled)
    ensures |s.round.player| == 2 && |s.round.dealer| >= 2
    ensures s.verdict.Some? <==> HandValue(s.round.player) == 21
    ensures s.verdict.Some? ==>
      && s.round.over && HandValue(s.round.dealer) >= 17
      && s.round.dealer[..2] == OpeningDeal(g, reshuffled).dealer
      && s.verdict == Some(Verdict(NaturalEnd, 21, HandValue(s.round.dealer)))
  {
    var dealt := OpeningDeal(g, reshuffled);
    if HandValue(dealt.player) == 21 then Ended(Resolve(dealt, NaturalEnd, reshuffled))
    else Step(dealt, None)
  }

  /** The first four `deal_card` calls of `start_game`: two cards to the player, then two
      to the dealer; the game-over flag is left as it was. */
  function OpeningDeal(g: Round, reshuffled: seq<Card>): (r: Round)
    requires IsShoe(reshuffled)
    ensures |r.player| == 2 && |r.dealer| == 2 && r.over == g.over
    ensures r.player + r.dealer == DealCards(g.deck, reshuffled, 4).hand
    ensures r.deck == DealCards(g.deck, reshuffled, 4).deck
  {
    var p1 := Deal(g.deck, reshuffled);
    var p2 := Deal(p1.deck, reshuffled);
    var d1 := Deal(p2.deck, reshuffled);
    var d2 := Deal(d1.deck, reshuffled);
    assert DealCards(d1.deck, reshuffled, 1) == Drawn([d2.card], d2.deck);
    assert DealCards(p2.deck, reshuffled, 2) == Drawn([d1.card, d2.card], d2.deck);
    assert DealCards(p1.deck, reshuffled, 3) == Drawn([p2.card, d1.card, d2.card], d2.deck);
    Round(d2.deck, [p1.card, p2.card], [d1.card, d2.card], g.over)
  }

  /** `hit`: nothing once the game is over; otherwise one more card, and a total over 21 ends
      the game as a bust, a total of exactly 21 as a stand. */
  function HitStep(g: Round, reshuffled: seq<Card>): (s: Step)
    requires IsShoe(reshuffled)
    ensures g.over ==> s == Step(g, None)
    ensures !g.over ==> s.round.player == g.player + [Deal(g.deck, reshuffled).card]
    ensures !g.over ==> (s.verdict.Some? <==> HandValue(s.round.player) >= 21) && (s.round.over <==> s.verdict.Some?)
    ensures !g.over && s.verdict.Some? ==>
      && HandValue(s.round.dealer) >= 17
      && |g.dealer| <= |s.round.dealer| && s.round.dealer[..|g.dealer|] == g.dealer
      && s.verdict == Some(Verdict(if HandValue(s.round.player) > 21 then BustEnd else StandEnd,
                                   HandValue(s.round.player), HandValue(s.round.dealer)))
  {
    if g.over then Step(g, None)
    else
      var d := Deal(g.deck, reshuffled);
      var next := g.(deck := d.deck, player := g.player + [d.card]);
      var value := HandValue(next.player);
      if value > 21 then Ended(Resolve(next, BustEnd, reshuffled))
      else if value == 21 then Ended(Resolve(next, StandEnd, reshuffled))
      else Step(next, None)
  }

  /** `stand`: always ends the game. */
  function StandStep(g: Round, reshuffled: seq<Card>): (s: Step)
    requires IsShoe(reshuffled)
    ensures s.round.over && s.round.player == g.player
    ensures s.verdict == Some(Verdict(StandEnd, HandValue(g.player), HandValue(s.round.dealer)))
    ensures HandValue(s.round.dealer) >= 17
    ensures |g.dealer| <= |s.round.dealer| && s.round.dealer[..|g.dealer|] == g.dealer
  {
    Ended(Resolve(g, StandEnd, reshuffled))
  }

  /** A new game over `shuffled`, started. */
  function Opening(shuffled: seq<Card>, reshuffled: seq<Card>): Step
    requires IsShoe(reshuffled)
  {
    Start(Round(shuffled, [], [], false), reshuffled)
  }

  function Act(g: Round, action: Action, reshuffled: seq<Card>): Step
    requires IsShoe(reshuffled)
  {
    match action
    case HitAction => HitStep(g, reshuffled)
    case StandAction => StandStep(g, reshuffled)
  }

  /** The history entry `end_game` logs (the rigged flag is never set in this model). */
  function BlackjackEntry(now: string, userId: int, bet: int, verdict: BlackjackVerdict): HistoryEntry {
    HistoryEntry(now, userId, Blackjack, bet, BlackjackResult(verdict), Payout(verdict, bet), false)
  }

  /** The store after a step: settled and logged when the step ended the round. */
  function Record(data: Store, userId: int, bet: int, verdict: Option<BlackjackVerdict>, now: string): Store {
    match verdict
    case None => data
    case Some(v) => Settle(data, BlackjackEntry(now, userId, bet, v))
  }

  // ---------------------------------------------------------------------------
  // Properties of the rules

  /** A hit on a live game adds the dealt card to the player's hand; over 21 is a bust that
      ends the game, exactly 21 ends it as a stand, and below 21 the game goes on with the
      dealer's hand untouched. */
  lemma HitOutcomes(g: Round, reshuffled: seq<Card>)
    requires IsShoe(reshuffled) && !g.over
    ensures var d := Deal(g.deck, reshuffled);
      var hand := g.player + [d.card];
      var s := HitStep(g, reshuffled);
      && s.round.player == hand
      && (HandValue(hand) > 21 <==> s.verdict == Some(PlayerBust))
      && (HandValue(hand) >= 21 <==> s.round.over)
      && (HandValue(hand) == 21 ==> s.verdict == Some(Verdict(StandEnd, 21, HandValue(s.round.dealer))))
      && (HandValue(hand) < 21 ==> s == Step(Round(d.deck, hand, g.dealer, false), None))
  {
  }

  /** Starting a game deals the player two cards and the dealer two, and ends it at once
      exactly when the player holds an ace and a ten-valued card. */
  lemma StartOutcomes(g: Round, reshuffled: seq<Card>)
    requires IsShoe(reshuffled) && !g.over
    ensures var s := Start(g, reshuffled);
      && |s.round.player| == 2
      && (s.round.over <==> (s.round.player == [Ace, 10] || s.round.player == [10, Ace]))
      && (s.round.over <==> s.verdict.Some?)
      && (s.round.over ==> s.verdict == Some(Verdict(NaturalEnd, 21, HandValue(s.round.dealer))))
      && (!s.round.over ==> |s.round.dealer| == 2 && HandValue(s.round.player) < 21)
  {
    var pair := Start(g, reshuffled).round.player;
    assert pair == [pair[0], pair[1]];
    TwoCardTwentyOne(pair[0], pair[1]);
    SumBounds(pair);
    var a: int, b: int := pair[0], pair[1];
    assert Sum(pair) == a + b by {
      var first := pair[..1];
      assert first[..0] == [];
      assert Sum(first) == pair[0];
    }
  }

  /** With four cards left, the player gets the last two cards of the shoe and the
      dealer the two before them, in the order `deal_card` pops them. */
  lemma StartDealsLastFour(g: Round, reshuffled: seq<Card>)
    requires IsShoe(reshuffled) && |g.deck| >= 4
    ensures var n := |g.deck|;
      && Start(g, reshuffled).round.player == [g.deck[n - 1], g.deck[n - 2]]
      && Start(g, reshuffled).round.dealer[..2] == [g.deck[n - 3], g.deck[n - 4]]
  {
    var n := |g.deck|;
    var o := OpeningDeal(g, reshuffled);
    var h := DealCards(g.deck, reshuffled, 4).hand;
    DealCardsPopOrder(g.deck, reshuffled, 4);
    assert o.player == h[..2] && o.dealer == h[2..] by {
      assert (o.player + o.dealer)[..2] == o.player && (o.player + o.dealer)[2..] == o.dealer;
    }
    assert h[0] == g.deck[n - 1] && h[1] == g.deck[n - 2] && h[2] == g.deck[n - 3] && h[3] == g.deck[n - 4];
  }

  /** The payout table: a bust loses the bet; a natural pushes against a dealer 21 and
      otherwise wins one and a half times the bet, rounded down; a stand wins the bet when
      the dealer busts or is beaten, loses it when the dealer is higher, and pushes on a tie. */
  lemma PayoutTable(action: EndAction, playerValue: int, dealerValue: int, bet: int)
    requires bet > 0
    ensures var pay := Payout(Verdict(action, playerValue, dealerValue), bet);
      && (action == BustEnd ==> pay == -bet)
      && (action == NaturalEnd ==> pay == if dealerValue == 21 then 0 else (3 * bet) / 2)
      && (action == NaturalEnd && dealerValue != 21 ==> bet <= pay && 2 * pay <= 3 * bet < 2 * pay + 2)
      && (action == StandEnd && playerValue <= 21 ==>
            && (pay == bet <==> dealerValue > 21 || playerValue > dealerValue)
            && (pay == -bet <==> dealerValue <= 21 && playerValue < dealerValue)
            && (pay == 0 <==> playerValue == dealerValue))
      && -bet <= pay <= (3 * bet) / 2
  {
  }

  // ---------------------------------------------------------------------------
  // The game object

  class BlackjackGame {
    const userId: int
    const bet: int
    var deck: seq<Card>
    var playerHand: seq<Card>
    var dealerHand: seq<Card>
    var gameOver: bool

    function State(): Round
      reads this
    {
      Round(deck, playerHand, dealerHand, gameOver)
    }

    /** A new game over an already shuffled shoe; no cards are dealt yet. */
    constructor (userId: int, bet: int, shuffled: seq<Card>)
      requires IsShoe(shuffled)
      ensures this.userId == userId && this.bet == bet
      ensures State() == Round(shuffled, [], [], false)
    {
      this.userId := userId;
      this.bet := bet;
      deck := shuffled;
      playerHand := [];
      dealerHand := [];
      gameOver := false;
    }

    method DealCard(reshuffled: seq<Card>) returns (card: Card)
      requires IsShoe(reshuffled)
      modifies this
      ensures Dealt(card, deck) == Deal(old(deck), reshuffled)
      ensures playerHand == old(playerHand) && dealerHand == old(dealerHand) && gameOver == old(gameOver)
    {
      if deck == [] {
        deck := reshuffled;
      }
      card := deck[|deck| - 1];
      deck := deck[..|deck| - 1];
    }

    method StartGame(reshuffled: seq<Card>, casino: CasinoBot, now: string) returns (verdict: Option<BlackjackVerdict>)
      requires IsShoe(reshuffled)
      modifies this, casino
      ensures var s := Start(old(State()), reshuffled); State() == s.round && verdict == s.verdict
      ensures casino.Data() == Record(old(casino.Data()), userId, bet, verdict, now)
    {
      ghost var data0 := casino.Data();
      DealOpening(reshuffled);
      ghost var dealt := State();
      assert Start(old(State()), reshuffled)
          == if HandValue(dealt.player) == 21 then Ended(Resolve(dealt, NaturalEnd, reshuffled)) else Step(dealt, None);
      var playerValue := CalculateHandValue(playerHand);
      if playerValue == 21 {
        assert casino.Data() == data0;
        var v := EndGame(NaturalEnd, reshuffled, casino, now);
        verdict := Some(v);
        assert casino.Data() == Record(data0, userId, bet, verdict, now);
      } else {
        verdict := None;
      }
    }

    /** The four opening `deal_card` calls of `start_game`. */
    method DealOpening(reshuffled: seq<Card>)
      requires IsShoe(reshuffled)
      modifies this
      ensures State() == OpeningDeal(old(State()), reshuffled)
    {
      var c1 := DealCard(reshuffled);
      var c2 := DealCard(reshuffled);
      playerHand := [c1, c2];
      var c3 := DealCard(reshuffled);
      var c4 := DealCard(reshuffled);
      dealerHand := [c3, c4];
    }

    method Hit(reshuffled: seq<Card>, casino: CasinoBot, now: string) returns (verdict: Option<BlackjackVerdict>)
      requires IsShoe(reshuffled)
      modifies this, casino
      ensures var s := HitStep(old(State()), reshuffled); State() == s.round && verdict == s.verdict
      ensures casino.Data() == Record(old(casino.Data()), userId, bet, verdict, now)
    {
      if gameOver {
        return None;
      }
      var card := DealCard(reshuffled);
      playerHand := playerHand + [card];
      var playerValue := CalculateHandValue(playerHand);
      if playerValue > 21 {
        var v := EndGame(BustEnd, reshuffled, casino, now);
        verdict := Some(v);
      } else if playerValue == 21 {
        var v := EndGame(StandEnd, reshuffled, casino, now);
        verdict := Some(v);
      } else {
        verdict := None;
      }
    }

    method Stand(reshuffled: seq<Card>, casino: CasinoBot, now: string) returns (verdict: BlackjackVerdict)
      requires IsShoe(reshuffled)
      modifies this, casino
      ensures var res := Resolve(old(State()), StandEnd, reshuffled); State() == res.round && verdict == res.verdict
      ensures casino.Data() == Settle(old(casino.Data()), BlackjackEntry(now, userId, bet, verdict))
    {
      verdict := EndGame(StandEnd, reshuffled, casino, now);
    }

    /** The dealer's loop of `end_game`. */
    method DealerDraws(reshuffled: seq<Card>) returns (dealerValue: int)
      requires IsShoe(reshuffled)
      modifies this
      ensures Drawn(dealerHand, deck) == DealerPlay(old(dealerHand), old(deck), reshuffled)
      ensures dealerValue == HandValue(dealerHand)
      ensures playerHand == old(playerHand) && gameOver == old(gameOver)
    {
      dealerValue := CalculateHandValue(dealerHand);
      while dealerValue < 17
        invariant dealerValue == HandValue(dealerHand)
        invariant DealerPlay(dealerHand, deck, reshuffled) == DealerPlay(old(dealerHand), old(deck), reshuffled)
        invariant playerHand == old(playerHand) && gameOver == old(gameOver)
        decreases 17 - Sum(dealerHand)
      {
        HandValueIsBestTotal(dealerHand);
        DealerPlayStep(dealerHand, deck, reshuffled);
        var card := DealCard(reshuffled);
        SumAppend(dealerHand, card);
        dealerHand := dealerHand + [card];
        dealerValue := CalculateHandValue(dealerHand);
      }
      DealerPlayStep(dealerHand, deck, reshuffled);
    }

    /** Ending the round on the game's own fields: the game is over, the dealer has drawn,
        and the verdict is judged. */
    method Conclude(action: EndAction, reshuffled: seq<Card>) returns (verdict: BlackjackVerdict)
      requires IsShoe(reshuffled)
      modifies this
      ensures var res := Resolve(old(State()), action, reshuffled); State() == res.round && verdict == res.verdict
    {
      gameOver := true;
      var playerValue := CalculateHandValue(playerHand);
      var dealerValue := DealerDraws(reshuffled);
      verdict := Verdict(action, playerValue, dealerValue);
    }

    /** `end_game`: conclude the round, credit the payout against the house and log it. */
    method EndGame(action: EndAction, reshuffled: seq<Card>, casino: CasinoBot, now: string) returns (verdict: BlackjackVerdict)
      requires IsShoe(reshuffled)
      modifies this, casino
      ensures var res := Resolve(old(State()), action, reshuffled); State() == res.round && verdict == res.verdict
      ensures casino.Data() == Settle(old(casino.Data()), BlackjackEntry(now, userId, bet, verdict))
    {
      verdict := Conclude(action, reshuffled);
      var entry := BlackjackEntry(now, userId, bet, verdict);
      var _ := casino.UpdateBalance(userId, entry.payout);
      casino.LogGameResult(entry);
    }
  }

  // ---------------------------------------------------------------------------
  // The session registry

  /** `active_blackjack_games`: at most one open game per user, keyed by its owner. */
  class SessionRegistry {
    var games: map<int, BlackjackGame>

    /** Every registered game belongs to its key and is still open. */
    ghost predicate Valid()
      reads this, games.Values
    {
      forall u :: u in games ==> games[u].userId == u && !games[u].gameOver
    }

    constructor ()
      ensures Valid() && games == map[]
    {
      games := map[];
    }

    /** `del active_blackjack_games[user_id]` once the user's game is over; every other
        session is as `Valid` wants it. */
    method DropIfOver(userId: int)
      requires userId in games && games[userId].userId == userId
      requires forall u :: u in games && u != userId ==> games[u].userId == u && !games[u].gameOver
      modifies this
      ensures Valid()
      ensures games == if old(games[userId].gameOver) then old(games) - {userId} else old(games)
    {
      if games[userId].gameOver {
        games := games - {userId};
      }
    }

    /** `play_blackjack`: checks the bet, opens the account, replaces any open game of the
        user by a new one, deals, and drops the session again when the deal ended the game. */
    method Play(userId: int, bet: int, shuffled: seq<Card>, reshuffled: seq<Card>, casino: CasinoBot, now: string)
      returns (r: Result<Option<BlackjackVerdict>, Refusal>)
      requires Valid() && IsShoe(shuffled) && IsShoe(reshuffled)
      modifies this, casino
      ensures Valid()
      ensures bet <= 0 ==>
        r == Err(NonPositiveBet) && games == old(games) && casino.Data() == old(casino.Data())
      ensures 0 < bet && BalanceOf(old(casino.users), userId) < bet ==>
        && r == Err(InsufficientFunds) && games == old(games)
        && casino.Data() == old(casino.Data()).(users := Opened(old(casino.users), userId))
      ensures 0 < bet <= BalanceOf(old(casino.users), userId) ==>
        && r == Ok(Opening(shuffled, reshuffled).verdict)
        && casino.Data() == Record(old(casino.Data()).(users := Opened(old(casino.users), userId)),
                                   userId, bet, Opening(shuffled, reshuffled).verdict, now)
      ensures 0 < bet <= BalanceOf(old(casino.users), userId) && Opening(shuffled, reshuffled).round.over ==>
        games == old(games) - {userId}
      ensures 0 < bet <= BalanceOf(old(casino.users), userId) && !Opening(shuffled, reshuffled).round.over ==>
        && userId in games && fresh(games[userId])
        && games == old(games)[userId := games[userId]]
        && games[userId].bet == bet && games[userId].State() == Opening(shuffled, reshuffled).round
    {
      if bet <= 0 {
        return Err(NonPositiveBet);
      }
      var balance := casino.GetUserBalance(userId);
      if bet > balance {
        return Err(InsufficientFunds);
      }
      r := Open(userId, bet, shuffled, reshuffled, casino, now);
    }

    /** The accepted branch of `play_blackjack`: a new game over the shuffled shoe replaces
        any open game of the user, is dealt, and is dropped again when the deal ended it. */
    method Open(userId: int, bet: int, shuffled: seq<Card>, reshuffled: seq<Card>, casino: CasinoBot, now: string)
      returns (r: Result<Option<BlackjackVerdict>, Refusal>)
      requires Valid() && IsShoe(shuffled) && IsShoe(reshuffled)
      modifies this, casino
      ensures Valid()
      ensures r == Ok(Opening(shuffled, reshuffled).verdict)
      ensures casino.Data() == Record(old(casino.Data()), userId, bet, Opening(shuffled, reshuffled).verdict, now)
      ensures Opening(shuffled, reshuffled).round.over ==> games == old(games) - {userId}
      ensures !Opening(shuffled, reshuffled).round.over ==>
        && userId in games && fresh(games[userId])
        && games == old(games)[userId := games[userId]]
        && games[userId].bet == bet && games[userId].State() == Opening(shuffled, reshuffled).round
    {
      ghost var others := games - {userId};
      var game := new BlackjackGame(userId, bet, shuffled);
      games := games[userId := game];
      assert games - {userId} == others;
      var verdict := game.StartGame(reshuffled, casino, now);
      DropIfOver(userId);
      r := Ok(verdict);
    }

    /** `blackjack_callback`: only the owner may act, only on an open game; the session is
        dropped once the action ended the game. */
    method Callback(caller: int, owner: int, action: Action, reshuffled: seq<Card>, casino: CasinoBot, now: string)
      returns (r: Result<Option<BlackjackVerdict>, Refusal>)
      requires Valid() && IsShoe(reshuffled)
      modifies this, casino, if owner in games then {games[owner]} else {}
      ensures Valid()
      ensures caller != owner ==>
        && r == Err(NotYourGame) && games == old(games) && casino.Data() == old(casino.Data())
        && (owner in games ==> unchanged(games[owner]))
      ensures caller == owner && owner !in old(games) ==>
        r == Err(GameNotFound) && games == old(games) && casino.Data() == old(casino.Data())
      ensures caller == owner && owner in old(games) ==>
        var game := old(games[owner]);
        var s := Act(old(game.State()), action, reshuffled);
        && r == Ok(s.verdict) && game.State() == s.round
        && casino.Data() == Record(old(casino.Data()), owner, game.bet, s.verdict, now)
        && games == if s.round.over then old(games) - {owner} else old(games)
    {
      if caller != owner {
        return Err(NotYourGame);
      }
      if owner !in games {
        return Err(GameNotFound);
      }
      var game := games[owner];
      var verdict: Option<BlackjackVerdict>;
      match action {
        case HitAction =>
          verdict := game.Hit(reshuffled, casino, now);
        case StandAction =>
          var v := game.Stand(reshuffled, casino, now);
          verdict := Some(v);
      }
      DropIfOver(owner);
      r := Ok(verdict);
    }
  }
}
