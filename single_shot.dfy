/** The single-shot games: roulette, dice and coinflip. Each has a pure payout rule over the
    player's choice, the drawn outcome and the bet, and a round that validates the request
    and settles it against the ledger. The drawn outcome (pocket, roll, coin side) is a
    parameter; the rigged draws are not modelled. */
module SingleShot {
  import opened Wrappers
  import opened Ledger

  // ---------------------------------------------------------------------------
  // Roulette

  /** The red pockets of the wheel. */
  const RedNumbers: set<int> := {1, 3, 5, 7, 9, 12, 14, 16, 18, 19, 21, 23, 25, 27, 30, 32, 34, 36}

  /** Pockets 0 to 36. */
  const Pockets := 37

  /** The nine buttons of the roulette keyboard. */
  datatype Choice = Red | Black | Even | Odd | Low | High | FirstDozen | SecondDozen | ThirdDozen

  /** The text a button puts at the end of its callback data. */
  function ChoiceName(c: Choice): string {
    match c
    case Red => "red"
    case Black => "black"
    case Even => "even"
    case Odd => "odd"
    case Low => "1-18"
    case High => "19-36"
    case FirstDozen => "1-12"
    case SecondDozen => "13-24"
    case ThirdDozen => "25-36"
  }

  /** The choice a callback names; text that names none of the buttons is `None`. */
  function ParseChoice(s: string): (c: Option<Choice>)
    ensures c.Some? ==> ChoiceName(c.value) == s
  {
    if s == "red" then Some(Red)
    else if s == "black" then Some(Black)
    else if s == "even" then Some(Even)
    else if s == "odd" then Some(Odd)
    else if s == "1-18" then Some(Low)
    else if s == "19-36" then Some(High)
    else if s == "1-12" then Some(FirstDozen)
    else if s == "13-24" then Some(SecondDozen)
    else if s == "25-36" then Some(ThirdDozen)
    else None
  }

  /** Every button's text is read back as that button. */
  lemma ParseChoiceName(c: Choice)
    ensures ParseChoice(ChoiceName(c)) == Some(c)
  {
    match c
    case Red =>
    case Black => assert "black" != "red";
    case Even => assert "even" != "red" && "even" != "black";
    case Odd => assert "odd" != "red" && "odd" != "black" && "odd" != "even";
    case Low => assert "1-18"[0] == '1';
    case High => assert "19-36"[1] == '9';
    case FirstDozen => assert "1-12"[3] != "1-18"[3];
    case SecondDozen => assert "13-24"[1] == '3';
    case ThirdDozen => assert "25-36"[0] == '2';
  }

  /** Whether the pocket wins for the choice (the chain of tests in `roulette_callback`).
      Zero wins for no choice, and red, the halves and the dozens win only on pockets 1 to 36. */
  predicate Wins(c: Choice, number: int)
    ensures number == 0 ==> !Wins(c, number)
    ensures Wins(c, number) && (c == Red || c == Low || c == High || IsDozen(c)) ==> 1 <= number <= 36
  {
    match c
    case Red => number in RedNumbers
    case Black => number !in RedNumbers && number != 0
    case Even => number > 0 && number % 2 == 0
    case Odd => number % 2 == 1
    case Low => 1 <= number <= 18
    case High => 19 <= number <= 36
    case FirstDozen => 1 <= number <= 12
    case SecondDozen => 13 <= number <= 24
    case ThirdDozen => 25 <= number <= 36
  }

  predicate IsDozen(c: Choice) {
    c.FirstDozen? || c.SecondDozen? || c.ThirdDozen?
  }

  /** The multiplier of a winning choice: 3 for a dozen, 2 for the even-money choices. */
  function Multiplier(c: Choice): int {
    if IsDozen(c) then 3 else 2
  }

  /** The change to the player's balance after the ball lands in `number`. Zero loses every
      choice, an even-money win pays the bet, a dozen win pays twice the bet, and a losing
      or unknown choice costs the bet. */
  function RoulettePayout(choice: Option<Choice>, number: int, bet: int): (p: int)
    ensures number == 0 ==> p == -bet
    ensures choice.None? ==> p == -bet
    ensures choice.Some? && !Wins(choice.value, number) ==> p == -bet
    ensures choice.Some? && Wins(choice.value, number) ==> p == if IsDozen(choice.value) then 2 * bet else bet
  {
    if choice.Some? && Wins(choice.value, number) then bet * (Multiplier(choice.value) - 1) else -bet
  }

  /** The payout as a multiple of the bet: +1 or +2 on a win, -1 on a loss. */
  function Odds(c: Choice, number: int): int {
    if !Wins(c, number) then -1 else if IsDozen(c) then 2 else 1
  }

  lemma PayoutIsOdds(c: Choice, number: int, bet: int)
    ensures RoulettePayout(Some(c), number, bet) == bet * Odds(c, number)
  {
  }

  /** `Odds` on each pocket of the wheel. */
  function OddsRow(c: Choice): (row: seq<int>)
    ensures |row| == Pockets
  {
    seq(Pockets, n requires 0 <= n < Pockets => Odds(c, n))
  }

  /** The sum of the first `k` entries of a row. */
  function Total(row: seq<int>, k: nat): int
    requires k <= |row|
  {
    if k == 0 then 0 else Total(row, k - 1) + row[k - 1]
  }

  /** The payout on each pocket of the wheel. */
  function PayoutRow(c: Choice, bet: int): (row: seq<int>)
    ensures |row| == Pockets
  {
    seq(Pockets, n requires 0 <= n < Pockets => RoulettePayout(Some(c), n, bet))
  }

  /** Scaling every entry scales the sum. */
  lemma {:induction false} ScaledTotal(row: seq<int>, scaled: seq<int>, factor: int, k: nat)
    requires k <= |row| == |scaled|
    requires forall n :: 0 <= n < |row| ==> scaled[n] == factor * row[n]
    ensures Total(scaled, k) == factor * Total(row, k)
  {
    if k > 0 {
      ScaledTotal(row, scaled, factor, k - 1);
      assert factor * Total(row, k) == factor * Total(row, k - 1) + factor * row[k - 1];
    }
  }

  /** Over a run of entries with the same value, the sum grows by that value per entry. */
  lemma {:induction false} ConstantRun(row: seq<int>, lo: nat, hi: nat, v: int)
    requires lo <= hi <= |row|
    requires forall n :: lo <= n < hi ==> row[n] == v
    ensures Total(row, hi) == Total(row, lo) + v * (hi - lo)
    decreases hi - lo
  {
    if lo < hi {
      ConstantRun(row, lo, hi - 1, v);
      assert v * (hi - lo) == v * (hi - 1 - lo) + v;
    }
  }

  /** Over an even run of entries alternating between `first` and `-first`, the sum does
      not change. */
  lemma {:induction false} AlternatingRun(row: seq<int>, lo: nat, pairs: nat, first: int)
    requires lo + 2 * pairs <= |row|
    requires forall n :: lo <= n < lo + 2 * pairs ==> row[n] == if (n - lo) % 2 == 0 then first else -first
    ensures Total(row, lo + 2 * pairs) == Total(row, lo)
    decreases pairs
  {
    if pairs > 0 {
      var top := lo + 2 * pairs;
      AlternatingRun(row, lo, pairs - 1, first);
      assert (top - 2 - lo) % 2 == 0 && (top - 1 - lo) % 2 == 1;
    }
  }

  /** A run of pockets on which red and black alternate leaves the colour sums unchanged;
      `redEven` says whether the run's red pockets are the even ones. */
  lemma ColourSegment(c: Choice, lo: nat, pairs: nat, redEven: bool)
    requires c == Red || c == Black
    requires lo % 2 == 1 && lo + 2 * pairs <= Pockets
    requires forall n :: lo <= n < lo + 2 * pairs ==> (n in RedNumbers <==> (n % 2 == 0) == redEven)
    ensures Total(OddsRow(c), lo + 2 * pairs) == Total(OddsRow(c), lo)
  {
    var row := OddsRow(c);
    var first := if redEven == (c == Black) then 1 else -1;
    forall n | lo <= n < lo + 2 * pairs
      ensures row[n] == if (n - lo) % 2 == 0 then first else -first
    {
      assert row[n] == Odds(c, n);
    }
    AlternatingRun(row, lo, pairs, first);
  }

  lemma ColourRuns(c: Choice)
    requires c == Red || c == Black
    ensures Total(OddsRow(c), Pockets) == -1
  {
    assert Total(OddsRow(c), 1) == -1;
    ColourSegment(c, 1, 5, false);
    ColourSegment(c, 11, 4, true);
    ColourSegment(c, 19, 5, false);
    ColourSegment(c, 29, 4, true);
  }

  lemma ParityRuns(c: Choice)
    requires c == Even || c == Odd
    ensures Total(OddsRow(c), Pockets) == -1
  {
    var row := OddsRow(c);
    assert Total(row, 1) == -1;
    AlternatingRun(row, 1, 18, if c == Odd then 1 else -1);
  }

  lemma RangeRuns(c: Choice)
    requires !(c == Red || c == Black || c == Even || c == Odd)
    ensures Total(OddsRow(c), Pockets) == -1
  {
    var row := OddsRow(c);
    assert Total(row, 0) == 0;
    match c
    case Low =>
      ConstantRun(row, 0, 1, -1);
      ConstantRun(row, 1, 19, 1);
      ConstantRun(row, 19, 37, -1);
    case High =>
      ConstantRun(row, 0, 19, -1);
      ConstantRun(row, 19, 37, 1);
    case FirstDozen =>
      ConstantRun(row, 0, 1, -1);
      ConstantRun(row, 1, 13, 2);
      ConstantRun(row, 13, 37, -1);
    case SecondDozen =>
      ConstantRun(row, 0, 13, -1);
      ConstantRun(row, 13, 25, 2);
      ConstantRun(row, 25, 37, -1);
    case ThirdDozen =>
      ConstantRun(row, 0, 25, -1);
      ConstantRun(row, 25, 37, 2);
  }

  /** The house edge: one spin on each of the 37 pockets costs the player exactly one bet in
      total, whatever the choice. */
  lemma RouletteHouseEdge(c: Choice, bet: int)
    ensures Total(PayoutRow(c, bet), Pockets) == -bet
  {
    forall n | 0 <= n < Pockets
      ensures PayoutRow(c, bet)[n] == bet * OddsRow(c)[n]
    {
      PayoutIsOdds(c, n, bet);
    }
    ScaledTotal(OddsRow(c), PayoutRow(c, bet), bet, Pockets);
    if c == Red || c == Black {
      ColourRuns(c);
    } else if c == Even || c == Odd {
      ParityRuns(c);
    } else {
      RangeRuns(c);
    }
  }

  /** The choices pair up on the non-zero pockets: exactly one of red and black wins, of even
      and odd, of the two halves, and exactly one of the three dozens. */
  lemma RouletteComplements(number: int)
    requires 1 <= number <= 36
    ensures Wins(Red, number) != Wins(Black, number)
    ensures Wins(Even, number) != Wins(Odd, number)
    ensures Wins(Low, number) != Wins(High, number)
    ensures (if Wins(FirstDozen, number) then 1 else 0) + (if Wins(SecondDozen, number) then 1 else 0)
          + (if Wins(ThirdDozen, number) then 1 else 0) == 1
  {
  }

  // ---------------------------------------------------------------------------
  // Dice

  /** A die face. */
  predicate IsFace(n: int) {
    1 <= n <= 6
  }

  /** `set(chosen_numbers)`. */
  function Elements(s: seq<int>): set<int> {
    set x | x in s
  }

  /** No face is named twice. */
  predicate Distinct(s: seq<int>) {
    forall i, j :: 0 <= i < j < |s| ==> s[i] != s[j]
  }

  /** What `dice_game` accepts: one to three distinct faces. */
  predicate ValidSelection(chosen: seq<int>) {
    1 <= |chosen| <= 3 && (forall n :: n in chosen ==> IsFace(n)) && Distinct(chosen)
  }

  lemma {:induction false} ElementsOfPrefix(s: seq<int>)
    requires s != []
    ensures Elements(s) == Elements(s[..|s| - 1]) + {s[|s| - 1]}
  {
    assert s == s[..|s| - 1] + [s[|s| - 1]];
  }

  /** A sequence has as many elements as entries exactly when no entry repeats: the
      `len(set(...)) != len(...)` test rejects exactly the repeated selections. */
  lemma {:induction false} DistinctIffNoneLost(s: seq<int>)
    ensures |Elements(s)| <= |s|
    ensures |Elements(s)| == |s| <==> Distinct(s)
    decreases |s|
  {
    if s != [] {
      var init, last := s[..|s| - 1], s[|s| - 1];
      ElementsOfPrefix(s);
      DistinctIffNoneLost(init);
      if last in init {
        assert Elements(s) == Elements(init);
        var i :| 0 <= i < |init| && init[i] == last;
        assert s[i] == s[|s| - 1];
      } else {
        assert |Elements(s)| == |Elements(init)| + 1;
        if Distinct(init) {
          forall i, j | 0 <= i < j < |s| ensures s[i] != s[j] {
            if j < |s| - 1 {
              assert s[i] == init[i] && s[j] == init[j];
            } else {
              assert s[i] == init[i];
            }
          }
        } else {
          var i, j :| 0 <= i < j < |init| && init[i] == init[j];
          assert s[i] == s[j];
        }
      }
    }
  }

  /** The multipliers table `{1: 6, 2: 3, 3: 2}`: whatever the selection size, the multiplier
      times the number of faces is six. */
  function DiceMultiplier(count: int): (m: int)
    requires 1 <= count <= 3
    ensures m * count == 6
  {
    if count == 1 then 6 else if count == 2 then 3 else 2
  }

  /** The first check of `dice_game` that fails, in the order the handler makes them: no
      faces, a bet that is not positive, more than three faces, a face outside one to six, a
      face named twice. */
  function DiceRefusal(bet: int, chosen: seq<int>): (r: Option<Refusal>)
    ensures r.None? <==> bet > 0 && ValidSelection(chosen)
    ensures chosen == [] ==> r == Some(MissingNumbers)
    ensures chosen != [] && bet <= 0 ==> r == Some(NonPositiveBet)
    ensures chosen != [] && bet > 0 && |chosen| > 3 ==> r == Some(TooManyNumbers)
    ensures chosen != [] && bet > 0 && |chosen| <= 3 && (exists n :: n in chosen && !IsFace(n)) ==>
      r == Some(NumberOutOfRange)
    ensures chosen != [] && bet > 0 && |chosen| <= 3 && (forall n :: n in chosen ==> IsFace(n)) && !Distinct(chosen) ==>
      r == Some(RepeatedNumber)
  {
    DistinctIffNoneLost(chosen);
    if chosen == [] then Some(MissingNumbers)
    else if bet <= 0 then Some(NonPositiveBet)
    else if |chosen| > 3 then Some(TooManyNumbers)
    else if exists n :: n in chosen && !IsFace(n) then Some(NumberOutOfRange)
    else if |Elements(chosen)| != |chosen| then Some(RepeatedNumber)
    else None
  }

  /** The change to the player's balance after `roll`: a hit pays the bet times one less than
      the multiplier, a miss costs the bet. */
  function DicePayout(chosen: seq<int>, roll: int, bet: int): (p: int)
    requires 1 <= |chosen| <= 3
    ensures roll in chosen ==> p == bet * (6 / |chosen| - 1)
    ensures roll !in chosen ==> p == -bet
  {
    if roll in chosen then bet * (DiceMultiplier(|chosen|) - 1) else -bet
  }

  /** The total payout over the faces one to `k`, one roll on each. */
  function DiceTotal(chosen: seq<int>, k: nat, bet: int): int
    requires 1 <= |chosen| <= 3
  {
    if k == 0 then 0 else DiceTotal(chosen, k - 1, bet) + DicePayout(chosen, k, bet)
  }

  /** How many of the faces one to `k` were chosen. */
  function Hits(chosen: seq<int>, k: nat): nat {
    if k == 0 then 0 else Hits(chosen, k - 1) + if k in chosen then 1 else 0
  }

  /** How many entries of `chosen` are at most `k`. */
  function AtMost(chosen: seq<int>, k: int): nat
    decreases |chosen|
  {
    if chosen == [] then 0
    else AtMost(chosen[..|chosen| - 1], k) + if chosen[|chosen| - 1] <= k then 1 else 0
  }

  lemma {:induction false} AtMostStep(chosen: seq<int>, k: int)
    requires Distinct(chosen)
    ensures AtMost(chosen, k) == AtMost(chosen, k - 1) + if k in chosen then 1 else 0
    decreases |chosen|
  {
    if chosen != [] {
      var init, last := chosen[..|chosen| - 1], chosen[|chosen| - 1];
      assert Distinct(init) by {
        forall i, j | 0 <= i < j < |init| ensures init[i] != init[j] {
          assert init[i] == chosen[i] && init[j] == chosen[j];
        }
      }
      AtMostStep(init, k);
      assert chosen == init + [last];
      if last == k {
        assert k !in init by {
          forall i | 0 <= i < |init| ensures init[i] != k {
            assert init[i] == chosen[i];
          }
        }
      }
    }
  }

  lemma {:induction false} AtMostBounds(chosen: seq<int>, k: int)
    requires forall n :: n in chosen ==> IsFace(n)
    ensures k <= 0 ==> AtMost(chosen, k) == 0
    ensures k >= 6 ==> AtMost(chosen, k) == |chosen|
    decreases |chosen|
  {
    if chosen != [] {
      var init := chosen[..|chosen| - 1];
      assert forall n :: n in init ==> n in chosen;
      assert chosen[|chosen| - 1] in chosen;
      AtMostBounds(init, k);
    }
  }

  lemma {:induction false} HitsCountChosen(chosen: seq<int>, k: nat)
    requires (forall n :: n in chosen ==> IsFace(n)) && Distinct(chosen)
    ensures Hits(chosen, k) == AtMost(chosen, k)
  {
    if k == 0 {
      AtMostBounds(chosen, 0);
    } else {
      HitsCountChosen(chosen, k - 1);
      AtMostStep(chosen, k);
    }
  }

  lemma {:induction false} DiceTotalByHits(chosen: seq<int>, k: nat, bet: int)
    requires 1 <= |chosen| <= 3
    ensures DiceTotal(chosen, k, bet) == Hits(chosen, k) * (bet * (DiceMultiplier(|chosen|) - 1)) - (k - Hits(chosen, k)) * bet
  {
    if k > 0 {
      DiceTotalByHits(chosen, k - 1, bet);
      var win := bet * (DiceMultiplier(|chosen|) - 1);
      var h := Hits(chosen, k - 1);
      assert DiceTotal(chosen, k - 1, bet) == h * win - (k - 1 - h) * bet;
      if k in chosen {
        assert DicePayout(chosen, k, bet) == win;
        assert (h + 1) * win == h * win + win;
        assert Hits(chosen, k) == h + 1;
      } else {
        assert DicePayout(chosen, k, bet) == -bet;
        assert Hits(chosen, k) == h;
        assert (k - h) * bet == (k - 1 - h) * bet + bet;
      }
    }
  }

  /** The dice game is fair for every valid selection: one roll on each face leaves the
      player's balance where it was. */
  lemma DiceIsFair(chosen: seq<int>, bet: int)
    requires ValidSelection(chosen)
    ensures DiceTotal(chosen, 6, bet) == 0
  {
    DiceTotalByHits(chosen, 6, bet);
    HitsCountChosen(chosen, 6);
    AtMostBounds(chosen, 6);
    var n := |chosen|;
    assert Hits(chosen, 6) == n;
    if n == 1 {
      assert DiceTotal(chosen, 6, bet) == bet * 5 - 5 * bet;
    } else if n == 2 {
      assert DiceTotal(chosen, 6, bet) == 2 * (bet * 2) - 4 * bet;
    } else {
      assert DiceTotal(chosen, 6, bet) == 3 * bet - 3 * bet;
    }
  }

  // ---------------------------------------------------------------------------
  // Coinflip

  datatype Side = Heads | Tails

  function SideName(s: Side): string {
    match s
    case Heads => "heads"
    case Tails => "tails"
  }

  /** `str.lower` on the letters A to Z; other characters are kept. */
  function LowerChar(ch: char): char {
    if 'A' <= ch <= 'Z' then (ch as int + 32) as char else ch
  }

  function Lower(s: string): (r: string)
    ensures |r| == |s|
  {
    seq(|s|, i requires 0 <= i < |s| => LowerChar(s[i]))
  }

  function UpperChar(ch: char): char {
    if 'a' <= ch <= 'z' then (ch as int - 32) as char else ch
  }

  function Upper(s: string): (r: string)
    ensures |r| == |s|
  {
    seq(|s|, i requires 0 <= i < |s| => UpperChar(s[i]))
  }

  /** The side a choice names, in any mix of upper and lower case. */
  function ParseSide(choice: string): (r: Option<Side>)
    ensures forall s :: r == Some(s) <==> Lower(choice) == SideName(s)
  {
    var c := Lower(choice);
    if c == "heads" then Some(Heads) else if c == "tails" then Some(Tails) else None
  }

  /** A side is recognised whether it is written in lower or in upper case. */
  lemma ParseSideEitherCase(s: Side)
    ensures ParseSide(SideName(s)) == Some(s)
    ensures ParseSide(Upper(SideName(s))) == Some(s)
  {
    var name := SideName(s);
    assert Lower(name) == name;
    assert Lower(Upper(name)) == name;
  }

  /** The change to the player's balance: the bet on a match, minus the bet otherwise. */
  function CoinflipPayout(choice: Side, result: Side, bet: int): (p: int)
    ensures choice == result ==> p == bet
    ensures choice != result ==> p == -bet
  {
    if choice == result then bet else -bet
  }

  /** The coin is fair: over both sides the payouts cancel. */
  lemma CoinflipIsFair(choice: Side, bet: int)
    ensures CoinflipPayout(choice, Heads, bet) + CoinflipPayout(choice, Tails, bet) == 0
  {
  }

  // ---------------------------------------------------------------------------
  // Rounds against the ledger

  /** Whether the spin won: the choice is one of the buttons and the pocket wins for it. */
  predicate Won(choice: Option<Choice>, number: int) {
    choice.Some? && Wins(choice.value, number)
  }

  function RouletteEntry(now: string, userId: int, bet: int, choice: Option<Choice>, number: int): HistoryEntry {
    HistoryEntry(now, userId, Roulette, bet, RouletteResult(Won(choice, number), number),
                 RoulettePayout(choice, number, bet), false)
  }

  function DiceEntry(now: string, userId: int, bet: int, chosen: seq<int>, roll: int): HistoryEntry
    requires 1 <= |chosen| <= 3
  {
    HistoryEntry(now, userId, Dice, bet, DiceResult(roll in chosen, roll), DicePayout(chosen, roll, bet), false)
  }

  function CoinflipEntry(now: string, userId: int, bet: int, choice: Side, result: Side): HistoryEntry {
    HistoryEntry(now, userId, Coinflip, bet, CoinflipResult(choice == result, SideName(result)),
                 CoinflipPayout(choice, result, bet), false)
  }

  /** `roulette_game`: a positive bet the user can cover brings up the choice keyboard; the
      account is opened as soon as the bet is positive. */
  method RouletteCommand(casino: CasinoBot, userId: int, bet: int) returns (r: Result<(), Refusal>)
    modifies casino
    ensures bet <= 0 ==> r == Err(NonPositiveBet) && casino.Data() == old(casino.Data())
    ensures bet > 0 ==> casino.Data() == old(casino.Data()).(users := Opened(old(casino.users), userId))
    ensures bet > 0 ==> (r.Ok? <==> bet <= BalanceOf(old(casino.users), userId))
    ensures r.Err? ==> r.error in {NonPositiveBet, InsufficientFunds}
    ensures 0 < bet && BalanceOf(old(casino.users), userId) < bet ==> r == Err(InsufficientFunds)
  {
    if bet <= 0 {
      return Err(NonPositiveBet);
    }
    var balance := casino.GetUserBalance(userId);
    if bet > balance {
      return Err(InsufficientFunds);
    }
    r := Ok(());
  }

  /** `roulette_callback`: only the user who placed the bet may spin; the pocket is drawn,
      the payout is credited against the house and the round is logged. The balance is not
      checked again here. */
  method SpinRoulette(casino: CasinoBot, caller: int, owner: int, bet: int, choice: string, number: int, now: string)
    returns (r: Result<int, Refusal>)
    requires 0 <= number < Pockets
    modifies casino
    ensures caller != owner ==> r == Err(NotYourGame) && casino.Data() == old(casino.Data())
    ensures caller == owner ==>
      && r == Ok(RoulettePayout(ParseChoice(choice), number, bet))
      && casino.Data() == Settle(old(casino.Data()), RouletteEntry(now, owner, bet, ParseChoice(choice), number))
  {
    if caller != owner {
      return Err(NotYourGame);
    }
    var picked := ParseChoice(choice);
    var payout := RoulettePayout(picked, number, bet);
    var _ := casino.UpdateBalance(owner, payout);
    casino.LogGameResult(RouletteEntry(now, owner, bet, picked, number));
    r := Ok(payout);
  }

  /** Two keyboards opened against the same balance both pass the command's check, and
      each spin is settled without looking at the balance again: a fresh account staking
      its whole balance twice on red, with zero coming up both times, ends at -1000. */
  lemma StaleBetOverdraws()
    ensures var before := Store(map[5 := NewAccount()], InitialHouseBalance, map[], []);
      var once := Settle(before, RouletteEntry("t", 5, 1000, Some(Red), 0));
      var twice := Settle(once, RouletteEntry("t", 5, 1000, Some(Red), 0));
      && 0 < 1000 <= BalanceOf(before.users, 5)
      && BalanceOf(twice.users, 5) == -1000
  {
    assert RoulettePayout(Some(Red), 0, 1000) == -1000;
  }

  /** `roulette_callback` with the command's checks repeated at the spin: the bet must
      still be positive and covered when the ball is thrown, so a spin never takes the
      balance below zero. */
  method SpinRouletteChecked(casino: CasinoBot, caller: int, owner: int, bet: int, choice: string, number: int, now: string)
    returns (r: Result<int, Refusal>)
    requires 0 <= number < Pockets
    modifies casino
    ensures caller != owner ==> r == Err(NotYourGame) && casino.Data() == old(casino.Data())
    ensures caller == owner && bet <= 0 ==> r == Err(NonPositiveBet) && casino.Data() == old(casino.Data())
    ensures caller == owner && 0 < bet && BalanceOf(old(casino.users), owner) < bet ==>
      r == Err(InsufficientFunds) && casino.Data() == old(casino.Data()).(users := Opened(old(casino.users), owner))
    ensures r.Ok? <==> caller == owner && 0 < bet <= BalanceOf(old(casino.users), owner)
    ensures r.Ok? ==>
      && r.value == RoulettePayout(ParseChoice(choice), number, bet)
      && casino.Data() == Settle(old(casino.Data()).(users := Opened(old(casino.users), owner)),
                                 RouletteEntry(now, owner, bet, ParseChoice(choice), number))
      && casino.users[owner].balance >= 0
  {
    if caller != owner {
      return Err(NotYourGame);
    }
    if bet <= 0 {
      return Err(NonPositiveBet);
    }
    var balance := casino.GetUserBalance(owner);
    if bet > balance {
      return Err(InsufficientFunds);
    }
    var picked := ParseChoice(choice);
    var payout := RoulettePayout(picked, number, bet);
    var _ := casino.UpdateBalance(owner, payout);
    casino.LogGameResult(RouletteEntry(now, owner, bet, picked, number));
    r := Ok(payout);
  }

  /** `dice_game`: the selection checks, then the balance check, then the roll is settled. */
  method DiceRound(casino: CasinoBot, userId: int, bet: int, chosen: seq<int>, roll: int, now: string)
    returns (r: Result<int, Refusal>)
    requires IsFace(roll)
    modifies casino
    ensures DiceRefusal(bet, chosen).Some? ==>
      r == Err(DiceRefusal(bet, chosen).value) && casino.Data() == old(casino.Data())
    ensures DiceRefusal(bet, chosen).None? && bet > BalanceOf(old(casino.users), userId) ==>
      r == Err(InsufficientFunds) && casino.Data() == old(casino.Data()).(users := Opened(old(casino.users), userId))
    ensures DiceRefusal(bet, chosen).None? && bet <= BalanceOf(old(casino.users), userId) ==>
      && r == Ok(DicePayout(chosen, roll, bet))
      && casino.Data() == Settle(old(casino.Data()).(users := Opened(old(casino.users), userId)),
                                 DiceEntry(now, userId, bet, chosen, roll))
  {
    var refusal := DiceRefusal(bet, chosen);
    if refusal.Some? {
      return Err(refusal.value);
    }
    var balance := casino.GetUserBalance(userId);
    if bet > balance {
      return Err(InsufficientFunds);
    }
    var payout := DicePayout(chosen, roll, bet);
    var _ := casino.UpdateBalance(userId, payout);
    casino.LogGameResult(DiceEntry(now, userId, bet, chosen, roll));
    r := Ok(payout);
  }

  /** `coinflip_game`: a positive bet, a side spelled in any case, the balance check, then the
      toss is settled. */
  method CoinflipRound(casino: CasinoBot, userId: int, bet: int, choice: string, result: Side, now: string)
    returns (r: Result<int, Refusal>)
    modifies casino
    ensures bet <= 0 ==> r == Err(NonPositiveBet) && casino.Data() == old(casino.Data())
    ensures bet > 0 && ParseSide(choice).None? ==> r == Err(InvalidSide) && casino.Data() == old(casino.Data())
    ensures bet > 0 && ParseSide(choice).Some? && bet > BalanceOf(old(casino.users), userId) ==>
      r == Err(InsufficientFunds) && casino.Data() == old(casino.Data()).(users := Opened(old(casino.users), userId))
    ensures bet > 0 && ParseSide(choice).Some? && bet <= BalanceOf(old(casino.users), userId) ==>
      && r == Ok(CoinflipPayout(ParseSide(choice).value, result, bet))
      && casino.Data() == Settle(old(casino.Data()).(users := Opened(old(casino.users), userId)),
                                 CoinflipEntry(now, userId, bet, ParseSide(choice).value, result))
  {
    if bet <= 0 {
      return Err(NonPositiveBet);
    }
    var side := ParseSide(choice);
    if side.None? {
      return Err(InvalidSide);
    }
    var balance := casino.GetUserBalance(userId);
    if bet > balance {
      return Err(InsufficientFunds);
    }
    var payout := CoinflipPayout(side.value, result, bet);
    var _ := casino.UpdateBalance(userId, payout);
    casino.LogGameResult(CoinflipEntry(now, userId, bet, side.value, result));
    r := Ok(payout);
  }
}
