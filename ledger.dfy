/** The bot's ledger: user accounts created on first reference, the house counter,
    the cashout table and the capped game history (the `CasinoBot` object of
    telegram_casino_bot.py). Spec functions on values come first; the class that
    updates them in place is at the end. */
module Ledger {
  import opened Wrappers

  /** Balance of an account created on first reference. */
  const StartingBalance := 1000
  /** House balance of a fresh data store (no data file yet). */
  const InitialHouseBalance := 100000
  /** Number of history entries kept. */
  const HistoryCap := 1000

  datatype Account = Account(balance: int, username: string, totalWagered: int, totalWon: int)

  function NewAccount(): Account {
    Account(StartingBalance, "", 0, 0)
  }

  datatype GameKind = Blackjack | Roulette | Dice | Coinflip

  /** How a blackjack round ended, one constructor per result line of `end_game`. */
  datatype BlackjackVerdict =
    | PlayerBust
    | NaturalPush
    | NaturalWin
    | DealerBust
    | PlayerHigher
    | DealerHigher
    | Push

  /** What a history entry's result text reports: the verdict and the drawn outcome. */
  datatype RoundResult =
    | BlackjackResult(verdict: BlackjackVerdict)
    | RouletteResult(won: bool, number: int)
    | DiceResult(won: bool, roll: int)
    | CoinflipResult(won: bool, side: string)

  datatype HistoryEntry = HistoryEntry(
    timestamp: string,
    userId: int,
    game: GameKind,
    bet: int,
    result: RoundResult,
    payout: int,
    rigged: bool)

  datatype CashoutStatus = Pending | Approved

  /** A cashout request id is built from the user id and the whole seconds of the request time. */
  datatype RequestKey = RequestKey(userId: int, second: int)

  /** `code` holds the five digits that follow "CASH" in the redemption code. */
  datatype CashoutRequest = CashoutRequest(
    userId: int,
    username: string,
    amount: int,
    timestamp: string,
    status: CashoutStatus,
    code: Option<int>,
    approvedAt: Option<string>)

  /** Why a handler refused a request (the bot's error replies). */
  datatype Refusal =
    | NonPositiveBet
    | InsufficientFunds
    | NotYourGame
    | GameNotFound
    | MissingNumbers
    | TooManyNumbers
    | NumberOutOfRange
    | RepeatedNumber
    | InvalidSide
    | NonPositiveAmount
    | BelowMinimumCashout
    | NotAdmin
    | RequestNotFound
    | AlreadyProcessed
    | RequestIdInUse

  /** The bot's whole data store (the JSON document `save_data` writes). */
  datatype Store = Store(
    users: map<int, Account>,
    houseBalance: int,
    cashoutRequests: map<RequestKey, CashoutRequest>,
    gameHistory: seq<HistoryEntry>)

  // ---------------------------------------------------------------------------
  // Accounts as values

  /** The users table after `get_user_balance(userId)` has run. */
  function Opened(users: map<int, Account>, userId: int): (r: map<int, Account>)
    ensures r.Keys == users.Keys + {userId}
    ensures forall u :: u in users ==> r[u] == users[u]
    ensures userId !in users ==> r[userId] == NewAccount() && r[userId].balance == StartingBalance
  {
    if userId in users then users else users[userId := NewAccount()]
  }

  /** What `get_user_balance(userId)` returns. */
  function BalanceOf(users: map<int, Account>, userId: int): (b: int)
    ensures userId in users ==> b == users[userId].balance
    ensures userId !in users ==> b == StartingBalance
  {
    Opened(users, userId)[userId].balance
  }

  /** The users table after `update_balance(userId, amount)`. */
  function Credited(users: map<int, Account>, userId: int, amount: int): (r: map<int, Account>)
    ensures r.Keys == users.Keys + {userId}
    ensures r[userId].balance == BalanceOf(users, userId) + amount
    ensures userId in users ==> r[userId] == users[userId].(balance := users[userId].balance + amount)
    ensures userId !in users ==> r[userId] == NewAccount().(balance := StartingBalance + amount)
    ensures forall u :: u in users && u != userId ==> r[u] == users[u]
  {
    var withAccount := Opened(users, userId);
    withAccount[userId := withAccount[userId].(balance := withAccount[userId].balance + amount)]
  }

  /** The history after `log_game_result` appended `entry`. */
  function Logged(history: seq<HistoryEntry>, entry: HistoryEntry): (r: seq<HistoryEntry>)
    ensures |r| == if |history| < HistoryCap then |history| + 1 else HistoryCap
    ensures r[|r| - 1] == entry
    ensures r == history[|history| + 1 - |r|..] + [entry]
  {
    var grown := history + [entry];
    if |grown| > HistoryCap then grown[|grown| - HistoryCap..] else grown
  }

  /** The store after a game round is settled: `update_balance(entry.userId, entry.payout)`
      followed by `log_game_result`. */
  function Settle(data: Store, entry: HistoryEntry): (r: Store)
    ensures BalanceOf(r.users, entry.userId) == BalanceOf(data.users, entry.userId) + entry.payout
    ensures r.houseBalance == data.houseBalance - entry.payout
    ensures r.cashoutRequests == data.cashoutRequests
    ensures |r.gameHistory| == if |data.gameHistory| < HistoryCap then |data.gameHistory| + 1 else HistoryCap
    ensures r.gameHistory[|r.gameHistory| - 1] == entry
    ensures forall u :: u != entry.userId ==> BalanceOf(r.users, u) == BalanceOf(data.users, u)
    ensures r.gameHistory == Logged(data.gameHistory, entry)
  {
    Store(Credited(data.users, entry.userId, entry.payout), data.houseBalance - entry.payout,
          data.cashoutRequests, Logged(data.gameHistory, entry))
  }

  // ---------------------------------------------------------------------------
  // Sums over tables

  /** Some key of a non-empty table. */
  ghost function PickKey<K>(m: map<K, int>): (k: K)
    requires |m| != 0
    ensures k in m
  {
    var k :| k in m; k
  }

  /** The sum of the values of a table. */
  ghost function SumValues<K>(m: map<K, int>): int
    decreases |m|
  {
    if |m| == 0 then 0
    else
      var k := PickKey(m);
      m[k] + SumValues(m - {k})
  }

  lemma {:induction false} SumValuesRemove<K>(m: map<K, int>, k: K)
    requires k in m
    ensures SumValues(m) == m[k] + SumValues(m - {k})
    decreases |m|
  {
    var j := PickKey(m);
    if j != k {
      var mj, mk := m - {j}, m - {k};
      assert |mj| < |m| by { assert mj.Keys == m.Keys - {j}; }
      assert |mk| < |m| by { assert mk.Keys == m.Keys - {k}; }
      SumValuesRemove(mj, k);
      SumValuesRemove(mk, j);
      assert mj - {k} == mk - {j};
    }
  }

  lemma {:induction false} SumValuesUpdate<K>(m: map<K, int>, k: K, v: int)
    ensures SumValues(m[k := v]) == SumValues(m) - (if k in m then m[k] else 0) + v
  {
    SumValuesStored(m, k, v);
    if k in m {
      SumValuesRemove(m, k);
    } else {
      assert m - {k} == m;
    }
  }

  lemma SumValuesStored<K>(m: map<K, int>, k: K, v: int)
    ensures SumValues(m[k := v]) == v + SumValues(m - {k})
  {
    SumValuesRemove(m[k := v], k);
    assert m[k := v] - {k} == m - {k};
  }

  function Balances(users: map<int, Account>): (b: map<int, int>)
    ensures b.Keys == users.Keys
  {
    map u | u in users :: users[u].balance
  }

  /** The sum of all user balances. */
  ghost function TotalBalance(users: map<int, Account>): int {
    SumValues(Balances(users))
  }

  lemma BalancesUpdate(users: map<int, Account>, userId: int, a: Account)
    ensures Balances(users[userId := a]) == Balances(users)[userId := a.balance]
  {
  }

  /** Replacing one account changes the total by the difference of the balances. */
  lemma TotalBalanceUpdate(users: map<int, Account>, userId: int, a: Account)
    ensures TotalBalance(users[userId := a])
         == TotalBalance(users) - (if userId in users then users[userId].balance else 0) + a.balance
  {
    BalancesUpdate(users, userId, a);
    SumValuesUpdate(Balances(users), userId, a.balance);
  }

  /** A settlement is a zero-sum transfer between the user and the house; only opening
      the account adds the starting balance to the total. */
  lemma {:induction false} CreditConserves(users: map<int, Account>, house: int, userId: int, amount: int)
    ensures TotalBalance(Credited(users, userId, amount)) + (house - amount)
         == TotalBalance(users) + house + (if userId in users then 0 else StartingBalance)
  {
    var withAccount := Opened(users, userId);
    var a := withAccount[userId];
    var credited := a.(balance := a.balance + amount);
    assert Credited(users, userId, amount) == withAccount[userId := credited];
    TotalBalanceUpdate(withAccount, userId, credited);
    if userId in users {
      assert withAccount == users;
    } else {
      assert withAccount == users[userId := NewAccount()];
      TotalBalanceUpdate(users, userId, NewAccount());
    }
  }

  /** Settling a round moves the payout between the user and the house: balances plus the
      house stay as they were, except that a new account brings its starting balance. */
  lemma SettleConserves(data: Store, entry: HistoryEntry)
    ensures TotalBalance(Settle(data, entry).users) + Settle(data, entry).houseBalance
         == TotalBalance(data.users) + data.houseBalance + (if entry.userId in data.users then 0 else StartingBalance)
  {
    CreditConserves(data.users, data.houseBalance, entry.userId, entry.payout);
  }

  /** One settlement of a game round: `update_balance(userId, delta)`. */
  datatype Settlement = Settlement(userId: int, delta: int)

  /** The users table and house after a sequence of `update_balance` calls. */
  function SettleAll(users: map<int, Account>, house: int, s: seq<Settlement>): (map<int, Account>, int)
    decreases |s|
  {
    if s == [] then (users, house)
    else SettleAll(Credited(users, s[0].userId, s[0].delta), house - s[0].delta, s[1..])
  }

  /** Game-round settlements between existing users and the house leave the sum of all
      user balances plus the house balance unchanged. */
  lemma {:induction false} SettlementsAreZeroSum(users: map<int, Account>, house: int, s: seq<Settlement>)
    requires forall i :: 0 <= i < |s| ==> s[i].userId in users
    ensures SettleAll(users, house, s).0.Keys == users.Keys
    ensures TotalBalance(SettleAll(users, house, s).0) + SettleAll(users, house, s).1
         == TotalBalance(users) + house
    decreases |s|
  {
    if s != [] {
      var next := Credited(users, s[0].userId, s[0].delta);
      CreditConserves(users, house, s[0].userId, s[0].delta);
      assert forall i :: 0 <= i < |s[1..]| ==> s[1..][i].userId in next by {
        forall i | 0 <= i < |s[1..]| ensures s[1..][i].userId in next {
          assert s[1..][i] == s[i + 1];
        }
      }
      SettlementsAreZeroSum(next, house - s[0].delta, s[1..]);
    }
  }

  // ---------------------------------------------------------------------------
  // The data store, updated in place

  class CasinoBot {
    var users: map<int, Account>
    var houseBalance: int
    var cashoutRequests: map<RequestKey, CashoutRequest>
    var gameHistory: seq<HistoryEntry>

    function Data(): Store
      reads this
    {
      Store(users, houseBalance, cashoutRequests, gameHistory)
    }

    /** The store `load_data` creates when there is no data file yet. */
    constructor ()
      ensures users == map[] && houseBalance == InitialHouseBalance
      ensures cashoutRequests == map[] && gameHistory == []
    {
      users := map[];
      houseBalance := InitialHouseBalance;
      cashoutRequests := map[];
      gameHistory := [];
    }

    /** `get_user_balance`: opens the account on first reference, then reads it. */
    method GetUserBalance(userId: int) returns (balance: int)
      modifies this
      ensures users == Opened(old(users), userId)
      ensures balance == BalanceOf(old(users), userId) == users[userId].balance
      ensures userId !in old(users) ==> balance == StartingBalance
      ensures houseBalance == old(houseBalance)
      ensures cashoutRequests == old(cashoutRequests) && gameHistory == old(gameHistory)
    {
      if userId !in users {
        users := users[userId := NewAccount()];
      }
      balance := users[userId].balance;
    }

    /** `update_balance`: credits the user (after opening the account if needed) and debits
        the house by the same amount. */
    method UpdateBalance(userId: int, amount: int) returns (newBalance: int)
      modifies this
      ensures users == Credited(old(users), userId, amount)
      ensures houseBalance == old(houseBalance) - amount
      ensures newBalance == users[userId].balance == BalanceOf(old(users), userId) + amount
      ensures cashoutRequests == old(cashoutRequests) && gameHistory == old(gameHistory)
    {
      ghost var before := users;
      if userId !in users {
        var _ := GetUserBalance(userId);
      }
      assert users == Opened(before, userId);
      users := users[userId := users[userId].(balance := users[userId].balance + amount)];
      assert users == Credited(before, userId, amount);
      newBalance := users[userId].balance;
      houseBalance := houseBalance - amount;
    }

    /** `log_game_result`: appends the entry and keeps the newest `HistoryCap` entries. */
    method LogGameResult(entry: HistoryEntry)
      modifies this
      ensures gameHistory == Logged(old(gameHistory), entry)
      ensures users == old(users) && houseBalance == old(houseBalance)
      ensures cashoutRequests == old(cashoutRequests)
    {
      gameHistory := gameHistory + [entry];
      if |gameHistory| > HistoryCap {
        gameHistory := gameHistory[|gameHistory| - HistoryCap..];
      }
    }
  }
}
