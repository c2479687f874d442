# Casino bot ledger and game engine, in Dafny

This project models the money and game logic of `telegram_casino_bot.py`, a Telegram bot that runs a play-money casino. Players hold balances in a ledger. They play blackjack, roulette, dice and coinflip, and they can ask for a cashout. An administrator approves cashouts and can add or remove balance.

The modules follow the source:

- `Ledger` (`ledger.dfy`) is the `CasinoBot` store.
  - `get_user_balance` opens an account with 1000 on first use.
  - `update_balance` moves an amount between a user and the house.
  - `log_game_result` keeps the last 1000 history entries.
  - The value functions `Opened`, `Credited`, `Logged` and `Settle` say what each step does to the store.
  - The class methods are proved against those functions.
- `Cards` (`cards.dfy`) holds `create_deck` and `calculate_hand_value`.
  - The shoe has six decks of four suits.
  - The hand value is proved to be the best total the hand's aces allow.
- `BlackjackEngine` (`blackjack.dfy`) holds the `BlackjackGame` class and the `active_blackjack_games` registry.
  - Value-level rules (`Start`, `HitStep`, `StandStep`, `Resolve`, `DealerPlay`) specify the class methods.
  - `SessionRegistry` models `play_blackjack` and `blackjack_callback`.
- `SingleShot` (`single_shot.dfy`) holds the roulette, dice and coinflip rules.
  - Each payout is a function of the choice, the outcome and the bet.
  - Validation is a refusal function, in the handler's order.
  - Each round method settles against the ledger.
  - Fairness lemmas: roulette costs exactly one bet over the 37 pockets; dice and coinflip are fair.
- `Cashout` (`cashout.dfy`) holds `cashout_command`, `approve_cashout_callback`, `add_balance_command` and `remove_balance_command`.

The shuffled shoe, the roulette pocket, the die, the coin, the five code digits and the timestamps are random draws or clock readings in the source. Here they are parameters. A shuffled shoe is any ordering of the 312-card shoe (`Cards.IsShoe`, shown equivalent to a permutation by `Cards.ShoesArePermutations`). A blackjack game is given a second shoe, `reshuffled`, which `deal_card` uses when its shoe runs out.

Behaviour of the code that the model keeps as written:

- `update_balance` only changes `balance`. It never updates `total_won` or `total_wagered`.
- Coinflip pays exactly the bet on a win and costs the bet on a loss, so the toss is a fair game.
- The admin commands move the house balance twice (see Findings).
- `roulette_callback` settles without re-checking the balance, so balances can go negative (see Findings).

## Model

| member | source | states |
|---|---|---|
| Ledger.CasinoBot.constructor | telegram_casino_bot.py:26-40 | A new store has no users, a house balance of 100000, no cashout requests and no history. |
| Ledger.CasinoBot.GetUserBalance | telegram_casino_bot.py:49-60 | The first reference opens the account with 1000; the result is the account's balance; nothing else changes. |
| Ledger.Opened | telegram_casino_bot.py:49-60 | Opening adds the user's account, with a balance of 1000 and nothing wagered or won, only when it is missing; every existing account is kept as it was. |
| Ledger.BalanceOf | telegram_casino_bot.py:49-60 | The balance read is the stored balance of an existing account and 1000 for a new one. |
| Ledger.Credited | telegram_casino_bot.py:62-75 | After a credit, the user (opened if needed) gains exactly the amount; every other account is unchanged; no account appears except the user's. |
| Ledger.CasinoBot.UpdateBalance | telegram_casino_bot.py:62-75 | The users table becomes `Credited` (the user, opened if needed, gains the amount), the house is debited by the same amount, the new balance is returned, and requests and history are unchanged. |
| Ledger.CreditConserves | telegram_casino_bot.py:62-75 | One settlement is a zero-sum transfer between a user and the house; only opening an account adds the starting balance. |
| Ledger.SettlementsAreZeroSum | telegram_casino_bot.py:62-75 | Any sequence of settlements on existing accounts leaves the sum of all balances plus the house balance unchanged. |
| Ledger.Logged | telegram_casino_bot.py:77-93 | The entry is appended last; the history grows by one until it holds 1000 entries and is then cut to its last 1000. |
| Ledger.Settle | telegram_casino_bot.py:62-93 | Settling a round credits the user's balance by the payout, debits the house by it, keeps the cashout requests, and leaves every other user's balance as it was, and makes the history `Logged` of the entry: the newest one of the capped history. |
| Ledger.SettleConserves | telegram_casino_bot.py:62-93 | A settled round leaves balances plus house unchanged, except for the starting balance of a new account. |
| Ledger.CasinoBot.LogGameResult | telegram_casino_bot.py:77-93 | Logging appends to the capped history and leaves balances and cashout requests alone. |
| Cards.CreateDeck | telegram_casino_bot.py:153-160 | The nested loops build six decks of four rows of ace to nine and four ten-valued cards. |
| Cards.ShoeCount | telegram_casino_bot.py:153-160 | The shoe holds 24 cards of each value from ace to nine and 96 worth ten. |
| Cards.ShoesArePermutations | telegram_casino_bot.py:153-160 | A 312-card sequence with those counts is exactly a reordering of the built shoe, so it is what `random.shuffle` can produce. |
| Cards.CalculateHandValue | telegram_casino_bot.py:168-178 | The loop returns the closed-form hand value: the sum, plus ten when the hand has an ace and the sum is at most eleven. |
| Cards.HandValueIsBestTotal | telegram_casino_bot.py:168-178 | The hand value counts some aces as eleven; no other choice of aces gives a higher total at or below 21; it is over 21 only with every ace counted as one. |
| Cards.HandValueExamples | telegram_casino_bot.py:168-178 | Ace and ten is 21, two aces and a nine is 21, ten, ten and two is 22. |
| Cards.TwoCardTwentyOne | telegram_casino_bot.py:193-197 | Two cards are worth 21 exactly when they are an ace and a ten-valued card. |
| BlackjackEngine.Deal | telegram_casino_bot.py:162-166 | With an empty shoe the fresh shoe is used; the card is the last one and the rest is the remaining shoe. |
| BlackjackEngine.DealCards | telegram_casino_bot.py:162-166 | Dealing `n` times yields `n` cards. |
| BlackjackEngine.DealCardsPopOrder | telegram_casino_bot.py:162-166 | While the shoe lasts, `n` deals pop its last `n` cards, the last card first, and leave the rest of the shoe. |
| BlackjackEngine.DealerPlay | telegram_casino_bot.py:245-248 | The dealer ends at a hand value of 17 or more and keeps the cards already held. |
| BlackjackEngine.DealerPlayDeals | telegram_casino_bot.py:245-248 | The dealer's extra cards and the shoe left over are exactly the next deals from the shoe. |
| BlackjackEngine.DealerStopsAtFirst | telegram_casino_bot.py:245-248 | Every hand the dealer held on the way was worth less than 17, so the dealer stops at the first total of 17 or more. |
| BlackjackEngine.Verdict | telegram_casino_bot.py:265-291 | A bust is judged a bust and nothing else is; a natural pushes exactly against a dealer 21; a stand wins exactly against a dealer bust or a lower dealer total, loses exactly to a higher one and pushes exactly on a tie. |
| BlackjackEngine.Payout | telegram_casino_bot.py:265-291 | A bust or a higher dealer costs the bet; a dealer bust or a higher player total wins the bet; a push pays nothing; a natural pays one and a half times the bet, rounded down. |
| BlackjackEngine.PayoutTable | telegram_casino_bot.py:265-291 | For every positive bet: a bust loses the bet; a natural pushes against a dealer 21 and otherwise wins `int(1.5 * bet)`; a stand of at most 21 wins against a bust or lower dealer, loses to a higher one and pushes on a tie. |
| BlackjackEngine.Resolve | telegram_casino_bot.py:240-291 | Ending marks the game over, keeps the player's hand, keeps the dealer's cards and draws the dealer to 17 or more, and judges the final hands. |
| BlackjackEngine.OpeningDeal | telegram_casino_bot.py:182-184 | The two player cards followed by the two dealer cards are exactly the first four deals, and the deck is what those deals leave; the game-over flag is kept. |
| BlackjackEngine.Start | telegram_casino_bot.py:180-197 | The player holds two cards and the dealer at least two; the game ends at the deal exactly when the player's two cards are worth 21, and then the dealer has drawn to 17 or more on top of the two opening dealer cards, and the verdict is the natural's against the dealer's final total. |
| BlackjackEngine.StartDealsLastFour | telegram_casino_bot.py:182-184 | With four cards left, the player gets the last two cards of the shoe and the dealer the two before them, in the order they are popped. |
| BlackjackEngine.StartOutcomes | telegram_casino_bot.py:180-197 | The player gets two cards and the dealer two; the game ends at once exactly for an ace and a ten-valued card, with the natural's verdict against the dealer's final total (a push exactly when the dealer ends on 21). |
| BlackjackEngine.HitStep | telegram_casino_bot.py:210-222 | A finished game is left as it is; otherwise the dealt card is added to the player's hand, and the round ends, with a verdict, exactly when the total reaches 21 or more; then the dealer has drawn to 17 or more keeping the dealer's cards, and the verdict is a bust over 21 and a stand at 21, against the dealer's final total. |
| BlackjackEngine.StandStep | telegram_casino_bot.py:236-238 | Standing ends the game with the player's hand kept and the verdict of a stand against the final dealer hand, which keeps the dealer's cards and is worth 17 or more. |
| BlackjackEngine.HitOutcomes | telegram_casino_bot.py:210-222 | A hit adds the dealt card; over 21 busts, exactly 21 ends as a stand, below 21 the game goes on with the dealer untouched. |
| BlackjackEngine.BlackjackGame.constructor | telegram_casino_bot.py:144-151 | A new game holds its owner, bet and shuffled shoe, with empty hands and not over. |
| BlackjackEngine.BlackjackGame.DealCard | telegram_casino_bot.py:162-166 | The shoe field is refilled if empty and popped; the hands are unchanged. |
| BlackjackEngine.BlackjackGame.DealOpening | telegram_casino_bot.py:182-184 | The object's state becomes `OpeningDeal` of the old state. |
| BlackjackEngine.BlackjackGame.StartGame | telegram_casino_bot.py:180-197 | The fields become the started round, and a natural is settled and logged. |
| BlackjackEngine.BlackjackGame.Hit | telegram_casino_bot.py:210-222 | The fields become the hit step's round, and a round it ends is settled and logged. |
| BlackjackEngine.BlackjackGame.Stand | telegram_casino_bot.py:236-238 | The fields become the resolved round, and its payout is settled and logged. |
| BlackjackEngine.BlackjackGame.DealerDraws | telegram_casino_bot.py:245-250 | The loop leaves the dealer's hand and the shoe as `DealerPlay` specifies and returns the final dealer value. |
| BlackjackEngine.BlackjackGame.Conclude | telegram_casino_bot.py:240-291 | The fields become the resolved round and the verdict is the resolution's verdict. |
| BlackjackEngine.BlackjackGame.EndGame | telegram_casino_bot.py:240-304 | The round is resolved, and its payout is credited against the house and logged. |
| BlackjackEngine.SessionRegistry.constructor | telegram_casino_bot.py:319 | No game is open at start. |
| BlackjackEngine.SessionRegistry.DropIfOver | telegram_casino_bot.py:396-398 | The user's session is deleted exactly when its game is over, and every remaining session is live and keyed by its owner. |
| BlackjackEngine.SessionRegistry.Play | telegram_casino_bot.py:322-368 | A non-positive or uncovered bet is refused; otherwise a new game replaces the user's open game, is dealt, and is dropped again if the deal ended it; every open game belongs to its key and is live. |
| BlackjackEngine.SessionRegistry.Open | telegram_casino_bot.py:349-368 | The accepted branch: the fresh game is registered and started, and removed again when it ended at the deal. |
| BlackjackEngine.SessionRegistry.Callback | telegram_casino_bot.py:371-407 | Only the owner may act and only on a registered game; the action's step is applied, settled when it ends the game, and the session is then dropped. |
| SingleShot.ParseChoice | telegram_casino_bot.py:537-570 | A recognised callback text is exactly the text of the choice it names. |
| SingleShot.ParseChoiceName | telegram_casino_bot.py:445-463 | Each keyboard button's text reads back as that button. |
| SingleShot.Wins | telegram_casino_bot.py:537-563 | Zero wins for no choice; red, a half or a dozen wins only on pockets 1 to 36. |
| SingleShot.RoulettePayout | telegram_casino_bot.py:537-570 | Zero, an unknown choice and a losing choice cost the bet; an even-money win pays the bet and a dozen pays twice the bet. |
| SingleShot.RouletteHouseEdge | telegram_casino_bot.py:529-570 | One spin on each of the 37 pockets costs the player exactly one bet in total, for every choice. |
| SingleShot.RouletteComplements | telegram_casino_bot.py:529-570 | On pockets 1 to 36 exactly one of red and black wins, one of even and odd, one half and one dozen. |
| SingleShot.RouletteCommand | telegram_casino_bot.py:427-442 | A non-positive bet is refused without change; otherwise the account is opened and the keyboard is offered exactly when the bet is covered; a positive bet above the balance is always refused as insufficient funds. |
| SingleShot.SpinRoulette | telegram_casino_bot.py:472-576 | Only the bettor may spin; the pocket's payout is credited against the house and logged; the balance is not checked again. |
| SingleShot.StaleBetOverdraws | telegram_casino_bot.py:472-576 | Two keyboards opened on one full balance can both be spun, ending at a negative balance. |
| SingleShot.SpinRouletteChecked | telegram_casino_bot.py:427-442 | The spin with the command's checks repeated refuses an uncovered bet, so the balance after a spin is never negative. |
| SingleShot.DistinctIffNoneLost | telegram_casino_bot.py:632-634 | `len(set(xs)) != len(xs)` holds exactly when some face is named twice. |
| SingleShot.DiceMultiplier | telegram_casino_bot.py:672-673 | The multiplier table gives multiplier times number of faces equal to six. |
| SingleShot.DiceRefusal | telegram_casino_bot.py:603-634 | The selection is accepted exactly when the bet is positive and names one to three distinct faces; the refusals come in the order: missing faces, bet, count, a face outside 1 to 6, a repeated face. |
| SingleShot.DicePayout | telegram_casino_bot.py:667-678 | A hit pays `bet * (6 / n - 1)` for `n` faces; a miss costs the bet. |
| SingleShot.DiceIsFair | telegram_casino_bot.py:667-678 | For every valid selection, one roll on each face sums to zero for the player. |
| SingleShot.DiceRound | telegram_casino_bot.py:599-684 | A refused selection changes nothing; an uncovered bet only opens the account; otherwise the roll is settled and logged. |
| SingleShot.ParseSide | telegram_casino_bot.py:724-727 | The side recognised is the one whose name equals the lower-cased choice. |
| SingleShot.ParseSideEitherCase | telegram_casino_bot.py:724-727 | A side is recognised in lower and in upper case. |
| SingleShot.CoinflipPayout | telegram_casino_bot.py:757-764 | A match pays the bet, a miss costs it. |
| SingleShot.CoinflipIsFair | telegram_casino_bot.py:757-764 | Over both sides the payouts cancel. |
| SingleShot.CoinflipRound | telegram_casino_bot.py:701-770 | The bet, side and balance checks come in the handler's order; an accepted toss is settled and logged. |
| Cashout.RequestRefusal | telegram_casino_bot.py:893-912 | A request is accepted exactly when 1000 <= amount <= balance, with the handler's refusal for each failing case. |
| Cashout.Requested | telegram_casino_bot.py:914-926 | An accepted request stores a pending record under (user, second), keeps every other record, takes the amount from the user's balance, gives it to the house, and leaves other accounts and the history alone. |
| Cashout.AfterRequest | telegram_casino_bot.py:893-926 | A non-positive amount changes nothing; another refusal keeps requests, house and balance; an accepted request gives exactly the `Requested` store, which records the pending request and leaves a balance between 0 and the old balance less 1000; the user's balance plus the house is unchanged in every case. |
| Cashout.RequestCashout | telegram_casino_bot.py:884-926 | A non-positive amount changes nothing; any other refusal only opens the account; an accepted request stores a pending record under (user, second) and moves the amount from the user to the house. |
| Cashout.FreshRequestReservesAmount | telegram_casino_bot.py:914-926 | Under a new id, the reserved total and the record count grow by the amount and by one, the user loses the amount and the house gains it. |
| Cashout.SameSecondRequestsLoseOne | telegram_casino_bot.py:914-926 | Two requests in one second leave one record of the second amount while both amounts were debited. |
| Cashout.RequestCashoutUnique | telegram_casino_bot.py:914-926 | With a taken id refused, every accepted request adds its own record and reserves exactly what it debits. |
| Cashout.Approve | telegram_casino_bot.py:985-1008 | Only the administrator, only a recorded pending request is approved; it gets the code and approval time and nothing else changes. |
| Cashout.ApproveOnce | telegram_casino_bot.py:998-1001 | A second approval of the same request is refused as already processed. |
| Cashout.ApproveKeepsReserved | telegram_casino_bot.py:1006-1008 | Approval changes no amount. |
| Cashout.ApproveCashout | telegram_casino_bot.py:982-1008 | The handler applies `Approve` to the request table and leaves balances, house and history alone. |
| Cashout.AddBalance | telegram_casino_bot.py:790-813 | Only the administrator; the target is credited by the amount and the house is debited twice the amount: the new store is `AdminCredited` of the old one. |
| Cashout.RemoveBalance | telegram_casino_bot.py:824-847 | Only the administrator; the target is debited by the amount and the house is credited twice the amount. |
| Cashout.AdminCreditLosesAmount | telegram_casino_bot.py:808-813 | The double adjustment lowers the sum of balances and house by the amount credited. |
| Cashout.AdjustBalance | telegram_casino_bot.py:808-809 | The adjustment with the house moved once by `update_balance` conserves balances plus house. |

## Left out

- The rigged branches of every game (the 20% draws and the outcome overrides) are not modelled; the model is the game with `rigged` false.
- Random draws, the shuffle, timestamps and the code digits are parameters; the randint range of the code digits is the precondition of `Cashout.ApproveCashout`.
- Telegram I/O are not modelled: replies, keyboards, message edits, notifications to the administrator, and the animation delays.
- Argument parsing is not modelled: argument counts, `int()` conversion errors, and callback-data splitting.
- The user name fallback `User_<id>` for a cashout is not modelled; the resolved name is a parameter.
- JSON persistence (`load_data` reading a file, `save_data`) is not modelled; the store is in memory.
- Concurrency between handlers is not modelled: each handler runs to completion.
- `start_command` is not modelled. For a user it has not seen it stores a record holding only `username` (telegram_casino_bot.py:105-106), so its own `get_user_balance` call and every later balance read or update of that user raise `KeyError` (:60, :68). In the model every account has a balance.
- `balance_command` is `CasinoBot.GetUserBalance` (which opens an unknown user's account with 1000) followed by a reply; only the reply is not modelled.
- `house_balance_command`, `cashouts_command`, `help_command` and the callback router are reporting or routing only, and are not modelled.
- BlackjackEngine.Payout: `int(self.bet * 1.5)` is a floating-point product; it is modelled as `(3 * bet) / 2`, which agrees for bets below 2^53 / 3. Larger bets round differently, the first being 3002399751580333, and `add_balance` puts no upper bound on a balance.
- SingleShot.ParseSide: Python's `str.lower` folds all of Unicode; the model folds only A to Z, which decides `heads`/`tails` exactly.
- Cashout.RequestCashout: the request id string `cashout_<user>_<second>` is modelled by the pair (user, second); the string form adds no collisions for integer ids.

## Findings

| source | as written | input that shows it | evidently intended | confidence | as-written member | corrected member |
|---|---|---|---|---|---|---|
| telegram_casino_bot.py:914-926 | The request id is the user id and the whole second, and `cashout_requests[id] = ...` overwrites; both requests' amounts are still debited. | A user with 5000 asks for 1000, then 2000, in the same second: balance 2000, one record of 2000. | Each accepted request creates its own pending record, so the reserved total grows by every debited amount. | high; not executed | Cashout.SameSecondRequestsLoseOne | Cashout.RequestCashoutUnique |
| telegram_casino_bot.py:808-813 | `update_balance(target, amount)` already debits the house; the handler debits it again (and `remove` credits it twice). | The administrator adds 500 to an existing user: balances rise by 500, the house falls by 1000. | The house moves once, by the amount, keeping balances plus house constant. | medium; not executed | Cashout.AdminCreditLosesAmount | Cashout.AdjustBalance |
| telegram_casino_bot.py:472-576 | The spin settles the bet from the callback data without checking the current balance. | A new account (1000) sends `/roulette 1000` twice, picks red on both keyboards, and zero comes up twice: balance -1000. | The bet is still covered when it is spun, as the command checks. | medium; not executed | SingleShot.StaleBetOverdraws | SingleShot.SpinRouletteChecked |
