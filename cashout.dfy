/** Cashout requests and the administrator's balance commands: `cashout_command`,
    `approve_cashout_callback`, `add_balance_command` and `remove_balance_command`. */
module Cashout {
  import opened Wrappers
  import opened Ledger

  /** The administrator's Telegram id. */
  const AdminId := 123456789
  /** The smallest amount that can be cashed out. */
  const MinimumCashout := 1000
  /** The range of the five digits of a redemption code. */
  const CodeLow := 10000
  const CodeHigh := 99999

  // ---------------------------------------------------------------------------
  // Requests on values

  /** The amount of every request. */
  function Amounts(requests: map<RequestKey, CashoutRequest>): (a: map<RequestKey, int>)
    ensures a.Keys == requests.Keys
  {
    map k | k in requests :: requests[k].amount
  }

  /** The sum of the amounts of all recorded requests. */
  ghost function Reserved(requests: map<RequestKey, CashoutRequest>): int {
    SumValues(Amounts(requests))
  }

  function PendingRecord(userId: int, username: string, amount: int, now: string): CashoutRequest {
    CashoutRequest(userId, username, amount, now, Pending, None, None)
  }

  /** The first check of `cashout_command` that fails, against the balance the account has
      (or is opened with). */
  function RequestRefusal(users: map<int, Account>, userId: int, amount: int): (r: Option<Refusal>)
    ensures r.None? <==> MinimumCashout <= amount <= BalanceOf(users, userId)
    ensures amount <= 0 ==> r == Some(NonPositiveAmount)
    ensures 0 < amount < MinimumCashout && amount <= BalanceOf(users, userId) ==> r == Some(BelowMinimumCashout)
    ensures 0 < amount && BalanceOf(users, userId) < amount ==> r == Some(InsufficientFunds)
  {
    if amount <= 0 then Some(NonPositiveAmount)
    else if amount > BalanceOf(users, userId) then Some(InsufficientFunds)
    else if amount < MinimumCashout then Some(BelowMinimumCashout)
    else None
  }

  /** The store after an accepted request: the record is stored under the user's id and the
      whole second of the request, and the amount moves from the user to the house. */
  function Requested(data: Store, userId: int, username: string, amount: int, second: int, now: string): (r: Store)
    ensures r.cashoutRequests.Keys == data.cashoutRequests.Keys + {RequestKey(userId, second)}
    ensures r.cashoutRequests[RequestKey(userId, second)] == PendingRecord(userId, username, amount, now)
    ensures forall k :: k in data.cashoutRequests && k != RequestKey(userId, second) ==> r.cashoutRequests[k] == data.cashoutRequests[k]
    ensures BalanceOf(r.users, userId) == BalanceOf(data.users, userId) - amount
    ensures r.houseBalance == data.houseBalance + amount
    ensures forall u :: u in data.users && u != userId ==> u in r.users && r.users[u] == data.users[u]
    ensures r.gameHistory == data.gameHistory
  {
    Store(Credited(data.users, userId, -amount), data.houseBalance + amount,
          data.cashoutRequests[RequestKey(userId, second) := PendingRecord(userId, username, amount, now)],
          data.gameHistory)
  }

  /** The store a request leaves behind: unchanged for a non-positive amount, the account
      opened for any other refusal, and `Requested` when it is accepted. */
  function AfterRequest(data: Store, userId: int, username: string, amount: int, second: int, now: string): (r: Store)
    ensures amount <= 0 ==> r == data
    ensures r.cashoutRequests.Keys
         == data.cashoutRequests.Keys + (if RequestRefusal(data.users, userId, amount).None? then {RequestKey(userId, second)} else {})
    ensures RequestRefusal(data.users, userId, amount).Some? ==>
      && r.cashoutRequests == data.cashoutRequests && r.houseBalance == data.houseBalance
      && BalanceOf(r.users, userId) == BalanceOf(data.users, userId) && r.gameHistory == data.gameHistory
    ensures RequestRefusal(data.users, userId, amount).None? ==>
      && r.cashoutRequests[RequestKey(userId, second)] == PendingRecord(userId, username, amount, now)
      && 0 <= BalanceOf(r.users, userId) <= BalanceOf(data.users, userId) - MinimumCashout
    ensures RequestRefusal(data.users, userId, amount).None? ==> r == Requested(data, userId, username, amount, second, now)
    ensures BalanceOf(r.users, userId) + r.houseBalance == BalanceOf(data.users, userId) + data.houseBalance
  {
    if amount <= 0 then data
    else if RequestRefusal(data.users, userId, amount).Some? then data.(users := Opened(data.users, userId))
    else Requested(data, userId, username, amount, second, now)
  }

  /** A request under a fresh id records exactly the amount it takes from the user: the
      reserved total grows by the amount, the user's balance drops by it, and the house
      receives it. */
  lemma {:induction false} FreshRequestReservesAmount(data: Store, userId: int, username: string, amount: int, second: int, now: string)
    requires RequestKey(userId, second) !in data.cashoutRequests
    ensures Reserved(Requested(data, userId, username, amount, second, now).cashoutRequests) == Reserved(data.cashoutRequests) + amount
    ensures |Requested(data, userId, username, amount, second, now).cashoutRequests| == |data.cashoutRequests| + 1
    ensures BalanceOf(Requested(data, userId, username, amount, second, now).users, userId) == BalanceOf(data.users, userId) - amount
    ensures Requested(data, userId, username, amount, second, now).houseBalance == data.houseBalance + amount
    ensures TotalBalance(Requested(data, userId, username, amount, second, now).users)
              + Reserved(Requested(data, userId, username, amount, second, now).cashoutRequests)
         == TotalBalance(data.users) + Reserved(data.cashoutRequests) + (if userId in data.users then 0 else StartingBalance)
  {
    var after := Requested(data, userId, username, amount, second, now);
    RecordAdds(data.cashoutRequests, RequestKey(userId, second), PendingRecord(userId, username, amount, now));
    RequestMovesBalance(data.users, userId, amount, after.users);
  }

  /** The balance a request takes leaves the total of the balances. */
  lemma RequestMovesBalance(users: map<int, Account>, userId: int, amount: int, after: map<int, Account>)
    requires after == Credited(users, userId, -amount)
    ensures TotalBalance(after) == TotalBalance(users) - amount + (if userId in users then 0 else StartingBalance)
  {
    CreditConserves(users, 0, userId, -amount);
  }

  /** Recording a request under a new id adds its amount to the reserved total. */
  lemma {:induction false} RecordAdds(requests: map<RequestKey, CashoutRequest>, key: RequestKey, record: CashoutRequest)
    requires key !in requests
    ensures Reserved(requests[key := record]) == Reserved(requests) + record.amount
    ensures |requests[key := record]| == |requests| + 1
  {
    assert Amounts(requests[key := record]) == Amounts(requests)[key := record.amount];
    SumValuesUpdate(Amounts(requests), key, record.amount);
  }

  /** Two accepted requests of one user in the same second share one id: the second record
      replaces the first, although both amounts were taken from the balance. */
  lemma SameSecondRequestsLoseOne()
    ensures var before := Store(map[7 := NewAccount().(balance := 5000)], InitialHouseBalance, map[], []);
      var once := AfterRequest(before, 7, "player", 1000, 1700000000, "t");
      var twice := AfterRequest(once, 7, "player", 2000, 1700000000, "t");
      && BalanceOf(twice.users, 7) == 2000
      && |twice.cashoutRequests| == 1
      && Reserved(twice.cashoutRequests) == 2000
  {
    var key := RequestKey(7, 1700000000);
    var before := Store(map[7 := NewAccount().(balance := 5000)], InitialHouseBalance, map[], []);
    var once := AfterRequest(before, 7, "player", 1000, 1700000000, "t");
    var twice := AfterRequest(once, 7, "player", 2000, 1700000000, "t");
    assert twice.cashoutRequests == map[key := PendingRecord(7, "player", 2000, "t")];
    var amounts := Amounts(twice.cashoutRequests);
    assert amounts == map[key := 2000];
    SumValuesRemove(amounts, key);
    assert amounts - {key} == map[];
  }

  // ---------------------------------------------------------------------------
  // Approval on values

  /** `approve_cashout_callback`: only the administrator, only a recorded request, only one
      that is still pending; it becomes approved with its code and approval time. */
  function Approve(requests: map<RequestKey, CashoutRequest>, caller: int, key: RequestKey, code: int, now: string)
    : (r: Result<map<RequestKey, CashoutRequest>, Refusal>)
    ensures caller != AdminId ==> r == Err(NotAdmin)
    ensures caller == AdminId && key !in requests ==> r == Err(RequestNotFound)
    ensures caller == AdminId && key in requests && requests[key].status != Pending ==> r == Err(AlreadyProcessed)
    ensures r.Ok? <==> caller == AdminId && key in requests && requests[key].status == Pending
    ensures r.Ok? ==>
      && r.value.Keys == requests.Keys
      && r.value[key].status == Approved && r.value[key].code == Some(code) && r.value[key].approvedAt == Some(now)
      && r.value[key].(status := Pending, code := None, approvedAt := None)
           == requests[key].(status := Pending, code := None, approvedAt := None)
      && (forall k :: k in requests && k != key ==> r.value[k] == requests[k])
  {
    if caller != AdminId then Err(NotAdmin)
    else if key !in requests then Err(RequestNotFound)
    else if requests[key].status != Pending then Err(AlreadyProcessed)
    else Ok(requests[key := requests[key].(status := Approved, code := Some(code), approvedAt := Some(now))])
  }

  /** A request is approved at most once: approving it again is refused. */
  lemma ApproveOnce(requests: map<RequestKey, CashoutRequest>, key: RequestKey, code: int, now: string, code2: int, now2: string)
    requires Approve(requests, AdminId, key, code, now).Ok?
    ensures Approve(Approve(requests, AdminId, key, code, now).value, AdminId, key, code2, now2) == Err(AlreadyProcessed)
  {
  }

  /** Approval changes no amount: the reserved total stays as it was. */
  lemma {:induction false} ApproveKeepsReserved(requests: map<RequestKey, CashoutRequest>, caller: int, key: RequestKey, code: int, now: string)
    requires Approve(requests, caller, key, code, now).Ok?
    ensures Reserved(Approve(requests, caller, key, code, now).value) == Reserved(requests)
  {
    var after := Approve(requests, caller, key, code, now).value;
    assert Amounts(after) == Amounts(requests)[key := requests[key].amount];
    SumValuesUpdate(Amounts(requests), key, requests[key].amount);
    assert Amounts(requests)[key := requests[key].amount] == Amounts(requests);
  }

  // ---------------------------------------------------------------------------
  // The handlers on the ledger

  /** `cashout_command` as written: the checks, then the pending record under the
      (user, second) id, then `update_balance(userId, -amount)`. */
  method RequestCashout(casino: CasinoBot, userId: int, username: string, amount: int, second: int, now: string)
    returns (r: Result<RequestKey, Refusal>)
    modifies casino
    ensures r.Ok? <==> RequestRefusal(old(casino.users), userId, amount).None?
    ensures r.Err? ==> r.error == RequestRefusal(old(casino.users), userId, amount).value
    ensures r.Ok? ==> r.value == RequestKey(userId, second)
    ensures casino.Data() == AfterRequest(old(casino.Data()), userId, username, amount, second, now)
  {
    ghost var before := casino.Data();
    if amount <= 0 {
      return Err(NonPositiveAmount);
    }
    var balance := casino.GetUserBalance(userId);
    assert casino.Data() == before.(users := Opened(before.users, userId));
    if amount > balance {
      return Err(InsufficientFunds);
    }
    if amount < MinimumCashout {
      return Err(BelowMinimumCashout);
    }
    var key := RequestKey(userId, second);
    casino.cashoutRequests := casino.cashoutRequests[key := PendingRecord(userId, username, amount, now)];
    var _ := casino.UpdateBalance(userId, -amount);
    assert casino.Data() == Requested(before, userId, username, amount, second, now);
    r := Ok(key);
  }

  /** `cashout_command` with the id collision ruled out: a request whose id is already
      recorded is refused before anything changes. */
  method RequestCashoutUnique(casino: CasinoBot, userId: int, username: string, amount: int, second: int, now: string)
    returns (r: Result<RequestKey, Refusal>)
    modifies casino
    ensures RequestKey(userId, second) in old(casino.cashoutRequests) ==>
      r == Err(RequestIdInUse) && casino.Data() == old(casino.Data())
    ensures RequestKey(userId, second) !in old(casino.cashoutRequests) ==>
      && (r.Ok? <==> RequestRefusal(old(casino.users), userId, amount).None?)
      && (r.Err? ==> r.error == RequestRefusal(old(casino.users), userId, amount).value)
      && casino.Data() == AfterRequest(old(casino.Data()), userId, username, amount, second, now)
    ensures r.Ok? ==>
      && Reserved(casino.cashoutRequests) == Reserved(old(casino.cashoutRequests)) + amount
      && |casino.cashoutRequests| == |old(casino.cashoutRequests)| + 1
      && TotalBalance(casino.users) + Reserved(casino.cashoutRequests)
           == old(TotalBalance(casino.users) + Reserved(casino.cashoutRequests)) + (if userId in old(casino.users) then 0 else StartingBalance)
  {
    if RequestKey(userId, second) in casino.cashoutRequests {
      return Err(RequestIdInUse);
    }
    ghost var before := casino.Data();
    r := RequestCashout(casino, userId, username, amount, second, now);
    if r.Ok? {
      FreshRequestReservesAmount(before, userId, username, amount, second, now);
    }
  }

  /** `approve_cashout_callback` on the ledger; returns the redemption code's digits. */
  method ApproveCashout(casino: CasinoBot, caller: int, key: RequestKey, code: int, now: string)
    returns (r: Result<int, Refusal>)
    requires CodeLow <= code <= CodeHigh
    modifies casino
    ensures var outcome := Approve(old(casino.cashoutRequests), caller, key, code, now);
      && (r.Ok? <==> outcome.Ok?)
      && (r.Ok? ==> r.value == code && casino.cashoutRequests == outcome.value)
      && (r.Err? ==> r.error == outcome.error && casino.cashoutRequests == old(casino.cashoutRequests))
    ensures casino.users == old(casino.users) && casino.houseBalance == old(casino.houseBalance)
    ensures casino.gameHistory == old(casino.gameHistory)
  {
    if caller != AdminId {
      return Err(NotAdmin);
    }
    if key !in casino.cashoutRequests {
      return Err(RequestNotFound);
    }
    var request := casino.cashoutRequests[key];
    if request.status != Pending {
      return Err(AlreadyProcessed);
    }
    casino.cashoutRequests := casino.cashoutRequests[key := request.(status := Approved, code := Some(code), approvedAt := Some(now))];
    r := Ok(code);
  }

  // ---------------------------------------------------------------------------
  // Administrator balance commands

  /** `add_balance_command` as written: `update_balance(target, amount)` already debits the
      house, and the handler then debits it a second time. Returns the new balance. */
  method AddBalance(casino: CasinoBot, caller: int, target: int, amount: int) returns (r: Result<int, Refusal>)
    modifies casino
    ensures caller != AdminId ==> r == Err(NotAdmin) && casino.Data() == old(casino.Data())
    ensures caller == AdminId ==>
      && casino.users == Credited(old(casino.users), target, amount)
      && casino.houseBalance == old(casino.houseBalance) - 2 * amount
      && r == Ok(BalanceOf(old(casino.users), target) + amount)
      && casino.cashoutRequests == old(casino.cashoutRequests) && casino.gameHistory == old(casino.gameHistory)
    ensures caller == AdminId ==> casino.Data() == AdminCredited(old(casino.Data()), target, amount)
  {
    if caller != AdminId {
      return Err(NotAdmin);
    }
    var _ := casino.GetUserBalance(target);
    var newBalance := casino.UpdateBalance(target, amount);
    casino.houseBalance := casino.houseBalance - amount;
    r := Ok(newBalance);
  }

  /** `remove_balance_command` as written: the house is credited by `update_balance` and
      then once more by the handler. */
  method RemoveBalance(casino: CasinoBot, caller: int, target: int, amount: int) returns (r: Result<int, Refusal>)
    modifies casino
    ensures caller != AdminId ==> r == Err(NotAdmin) && casino.Data() == old(casino.Data())
    ensures caller == AdminId ==>
      && casino.users == Credited(old(casino.users), target, -amount)
      && casino.houseBalance == old(casino.houseBalance) + 2 * amount
      && r == Ok(BalanceOf(old(casino.users), target) - amount)
      && casino.cashoutRequests == old(casino.cashoutRequests) && casino.gameHistory == old(casino.gameHistory)
  {
    if caller != AdminId {
      return Err(NotAdmin);
    }
    var _ := casino.GetUserBalance(target);
    var newBalance := casino.UpdateBalance(target, -amount);
    casino.houseBalance := casino.houseBalance + amount;
    r := Ok(newBalance);
  }

  /** The users table and house after an administrator credit as written. */
  function AdminCredited(data: Store, target: int, amount: int): Store {
    data.(users := Credited(data.users, target, amount), houseBalance := data.houseBalance - 2 * amount)
  }

  /** The double adjustment makes money leave the system: crediting an existing user lowers
      the sum of all balances and the house by the amount credited. */
  lemma AdminCreditLosesAmount(data: Store, target: int, amount: int)
    requires target in data.users
    ensures var after := AdminCredited(data, target, amount);
      TotalBalance(after.users) + after.houseBalance == TotalBalance(data.users) + data.houseBalance - amount
  {
    CreditConserves(data.users, data.houseBalance, target, amount);
  }

  /** The administrator's adjustment with the house moved once, by `update_balance`: the
      target's balance changes by `delta` and the house by `-delta`. */
  method AdjustBalance(casino: CasinoBot, caller: int, target: int, delta: int) returns (r: Result<int, Refusal>)
    modifies casino
    ensures caller != AdminId ==> r == Err(NotAdmin) && casino.Data() == old(casino.Data())
    ensures caller == AdminId ==>
      && casino.users == Credited(old(casino.users), target, delta)
      && casino.houseBalance == old(casino.houseBalance) - delta
      && r == Ok(BalanceOf(old(casino.users), target) + delta)
      && TotalBalance(casino.users) + casino.houseBalance
           == old(TotalBalance(casino.users) + casino.houseBalance) + (if target in old(casino.users) then 0 else StartingBalance)
      && casino.cashoutRequests == old(casino.cashoutRequests) && casino.gameHistory == old(casino.gameHistory)
  {
    if caller != AdminId {
      return Err(NotAdmin);
    }
    CreditConserves(casino.users, casino.houseBalance, target, delta);
    var newBalance := casino.UpdateBalance(target, delta);
    r := Ok(newBalance);
  }
}
