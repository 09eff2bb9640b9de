/** Reading, depositing and withdrawing the spendable balance of an account
    (src/controllers/balanceController.js). */
module Funds {
  import opened Schema
  import Db

  /** The deposit or withdrawal amount the handlers accept: present and greater than zero
      (`!amount || amount <= 0` is refused). */
  predicate ValidAmount(amount: Arg<real>) {
    amount.Given? && amount.value > 0.0
  }

  /** The log entry a deposit or withdrawal appends: type 'other', the method in the details. */
  function FundsEntry(u: Id, amount: real, via: FundsMethod): Txn {
    Txn(u, None, Other, amount, FundsMovement(via))
  }

  /** `GET /balances`: the caller's balance row, created with zero amounts if absent.
      Also `getBalance` of the job controller, which is the same handler. */
  function GetBalance(s: Tables, u: Id): (r: Step<Balance>)
    ensures u in r.next.balances && r.out == Ok(r.next.balances[u])
    ensures u in s.balances ==> r.next == s
    ensures u !in s.balances ==>
      r.out == Ok(Balance(0.0, 0.0)) && r.next == s.(balances := s.balances[u := Balance(0.0, 0.0)])
  {
    if u in s.balances then Step(s, Ok(s.balances[u]))
    else
      var zero := Balance(0.0, 0.0);
      Step(s.(balances := s.balances[u := zero]), Ok(zero))
  }

  /** `POST /balances/add`. */
  function AddFunds(s: Tables, u: Id, amount: Arg<real>): (r: Step<Balance>)
    ensures !ValidAmount(amount) ==> r == Step(s, Fail(InvalidInput))
    ensures ValidAmount(amount) ==>
      && u in r.next.balances
      && r.out == Ok(r.next.balances[u])
      && r.next.balances[u].available
           == AvailableOf(s, u) + amount.value
      && r.next.balances[u].pending == PendingOf(s, u)
      && r.next.balances - {u} == s.balances - {u}
      && r.next.txns == s.txns + [FundsEntry(u, amount.value, Deposit)]
      && r.next == s.(balances := r.next.balances, txns := r.next.txns)
  {
    if !ValidAmount(amount) then Step(s, Fail(InvalidInput))
    else
      var row := if u in s.balances
                 then s.balances[u].(available := s.balances[u].available + amount.value)
                 else Balance(amount.value, 0.0);
      Step(s.(balances := s.balances[u := row],
              txns := s.txns + [FundsEntry(u, amount.value, Deposit)]),
           Ok(row))
  }

  /** `POST /balances/withdraw`. */
  function WithdrawFunds(s: Tables, u: Id, amount: Arg<real>): (r: Step<Balance>)
    ensures !ValidAmount(amount) ==> r == Step(s, Fail(InvalidInput))
    ensures ValidAmount(amount) && (u !in s.balances || s.balances[u].available < amount.value) ==>
      r == Step(s, Fail(Insufficient))
    ensures r.out.Ok? <==> ValidAmount(amount) && u in s.balances && s.balances[u].available >= amount.value
    ensures r.out.Ok? ==>
      && u in r.next.balances
      && r.out.value == r.next.balances[u]
      && r.next.balances[u] == s.balances[u].(available := s.balances[u].available - amount.value)
      && r.next.balances[u].available >= 0.0
      && r.next.balances - {u} == s.balances - {u}
      && r.next.txns == s.txns + [FundsEntry(u, amount.value, Withdrawal)]
      && r.next == s.(balances := r.next.balances, txns := r.next.txns)
  {
    if !ValidAmount(amount) then Step(s, Fail(InvalidInput))
    else if u !in s.balances || s.balances[u].available < amount.value then Step(s, Fail(Insufficient))
    else
      var row := s.balances[u].(available := s.balances[u].available - amount.value);
      Step(s.(balances := s.balances[u := row],
              txns := s.txns + [FundsEntry(u, amount.value, Withdrawal)]),
           Ok(row))
  }

  /** Reading a balance twice: the second read finds the row the first created and creates nothing. */
  lemma GetBalanceIdempotent(s: Tables, u: Id)
    ensures GetBalance(GetBalance(s, u).next, u) == Step(GetBalance(s, u).next, GetBalance(s, u).out)
  {
  }

  /** A deposit followed by the withdrawal of the same amount succeeds, restores the spendable
      amount, leaves the escrow alone and logs exactly two entries. The spendable amount must
      not start negative, which no sequence of requests brings about (`Ledger`). */
  lemma DepositThenWithdraw(s: Tables, u: Id, a: real)
    requires a > 0.0
    requires u in s.balances ==> s.balances[u].available >= 0.0
    ensures
      var mid := AddFunds(s, u, Given(a)).next;
      var end := WithdrawFunds(mid, u, Given(a));
      && end.out.Ok?
      && end.next.balances[u].available == AvailableOf(s, u)
      && end.next.balances[u].pending == PendingOf(s, u)
      && end.next.balances - {u} == s.balances - {u}
      && end.next.txns == s.txns + [FundsEntry(u, a, Deposit), FundsEntry(u, a, Withdrawal)]
  {
    var mid := AddFunds(s, u, Given(a)).next;
    assert mid.balances[u].available >= a;
  }

  method HandleGetBalance(db: Db.Database, u: Id) returns (r: Balance)
    modifies db
    ensures Step(db.Snapshot(), Ok(r)) == GetBalance(old(db.Snapshot()), u)
  {
    if u in db.balances {
      return db.balances[u];
    }
    r := Balance(0.0, 0.0);
    db.balances := db.balances[u := r];
  }

  method HandleAddFunds(db: Db.Database, u: Id, amount: Arg<real>) returns (r: Outcome<Balance>)
    modifies db
    ensures Step(db.Snapshot(), r) == AddFunds(old(db.Snapshot()), u, amount)
  {
    if !amount.Given? || amount.value <= 0.0 {
      return Fail(InvalidInput);
    }
    var row: Balance;
    if u !in db.balances {
      row := Balance(amount.value, 0.0);
    } else {
      row := db.balances[u].(available := db.balances[u].available + amount.value);
    }
    db.balances := db.balances[u := row];
    db.txns := db.txns + [FundsEntry(u, amount.value, Deposit)];
    r := Ok(row);
  }

  method HandleWithdrawFunds(db: Db.Database, u: Id, amount: Arg<real>) returns (r: Outcome<Balance>)
    modifies db
    ensures Step(db.Snapshot(), r) == WithdrawFunds(old(db.Snapshot()), u, amount)
  {
    if !amount.Given? || amount.value <= 0.0 {
      return Fail(InvalidInput);
    }
    if u !in db.balances || db.balances[u].available < amount.value {
      return Fail(Insufficient);
    }
    var row := db.balances[u].(available := db.balances[u].available - amount.value);
    db.balances := db.balances[u := row];
    db.txns := db.txns + [FundsEntry(u, amount.value, Withdrawal)];
    r := Ok(row);
  }
}
