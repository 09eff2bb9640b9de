/** Connects (bidding credits), the transaction history, and the revenue share paid out of a
    job's escrow (src/controllers/financialController.js). */
module Payments {
  import opened Schema
  import Query
  import Db

  /** `GET /payments/connects`: reports a missing connects row, and never creates one. */
  function GetConnectsBalance(s: Tables, u: Id): (r: Outcome<int>)
    ensures r.Ok? <==> u in s.connects
    ensures r.Ok? ==> r.value == s.connects[u]
    ensures r.Fail? ==> r.error == NotFound(NoConnects)
  {
    if u in s.connects then Ok(s.connects[u]) else Fail(NotFound(NoConnects))
  }

  /** The `packageDetails` object of a purchase request. */
  datatype PackageArg = PackageArg(amount: Arg<int>, price: Arg<real>)

  /** A package is refused when it, its amount or its price is missing or zero. A negative
      amount or price is accepted. */
  predicate ValidPackage(pkg: Arg<PackageArg>) {
    pkg.Given? && NonZeroCount(pkg.value.amount) && NonZero(pkg.value.price)
  }

  datatype Purchase = Purchase(entry: Txn, connects: int, balance: Balance)

  /** `POST /payments/connects/purchase`. */
  function PurchaseConnects(s: Tables, u: Id, pkg: Arg<PackageArg>): (r: Step<Purchase>)
    ensures !ValidPackage(pkg) ==> r == Step(s, Fail(InvalidInput))
    ensures ValidPackage(pkg) && (u !in s.balances || s.balances[u].available < pkg.value.price.value) ==>
      r == Step(s, Fail(Insufficient))
    ensures r.out.Ok? <==>
      ValidPackage(pkg) && u in s.balances && s.balances[u].available >= pkg.value.price.value
    ensures r.out.Ok? ==>
      var amount, price := pkg.value.amount.value, pkg.value.price.value;
      && u in r.next.balances && u in r.next.connects
      && r.next.balances[u] == s.balances[u].(available := s.balances[u].available - price)
      && r.next.balances - {u} == s.balances - {u}
      && r.next.connects[u] == (if u in s.connects then s.connects[u] else 0) + amount
      && r.next.connects - {u} == s.connects - {u}
      && r.next.txns == s.txns + [Txn(u, None, ConnectPurchase, price, Package(amount, price))]
      && r.out.value == Purchase(r.next.txns[|s.txns|], r.next.connects[u], r.next.balances[u])
      && r.next == s.(balances := r.next.balances, connects := r.next.connects, txns := r.next.txns)
  {
    if !ValidPackage(pkg) then Step(s, Fail(InvalidInput))
    else
      var amount, price := pkg.value.amount.value, pkg.value.price.value;
      if u !in s.balances || s.balances[u].available < price then Step(s, Fail(Insufficient))
      else
        var row := s.balances[u].(available := s.balances[u].available - price);
        var credits := if u in s.connects then s.connects[u] + amount else amount;
        var entry := Txn(u, None, ConnectPurchase, price, Package(amount, price));
        Step(s.(balances := s.balances[u := row],
                connects := s.connects[u := credits],
                txns := s.txns + [entry]),
             Ok(Purchase(entry, credits, row)))
  }

  /** The filter of `GET /payments/transactions`: entries of one user. */
  function OwnedBy(u: Id): (nat, Txn) -> bool {
    (id: nat, t: Txn) => t.userId == u
  }

  /** `GET /payments/transactions`: the user's log entries with their ids, newest first. */
  function Transactions(s: Tables, u: Id): (r: seq<(nat, Txn)>)
    ensures Query.Listing(s.txns, OwnedBy(u), r)
  {
    Query.Newest(s.txns, OwnedBy(u))
  }

  /** The split of a revenue-share payment: the platform keeps a tenth (`amount * 0.10`),
      the freelancer gets the rest. */
  datatype Split = Split(fee: real, payout: real)

  function SplitPayment(amount: real): (r: Split)
    ensures r.fee + r.payout == amount
    ensures 10.0 * r.fee == amount
    ensures amount >= 0.0 ==> 0.0 <= r.fee <= r.payout
  {
    var fee := amount / 10.0;
    Split(fee, amount - fee)
  }

  datatype Settlement = Settlement(entry: Txn, freelancerBalance: Balance, clientBalance: Balance)

  /** The guards of a revenue-share request, in the order the handler checks them. */
  predicate CanSettle(s: Tables, jobId: Id, freelancerId: Id, amount: real) {
    && HasJob(s, jobId)
    && IsUserOfType(s, freelancerId, Freelancer)
    && JobAt(s, jobId).clientId in s.balances
    && s.balances[JobAt(s, jobId).clientId].pending >= amount
  }

  /** `POST /payments/revenue-share`. The amount is not validated, and nothing records that a
      job was already paid: a closed job can be paid again while its client has escrow left. */
  function ProcessRevenueShare(s: Tables, jobId: Id, freelancerId: Id, amount: real): (r: Step<Settlement>)
    ensures !HasJob(s, jobId) ==> r == Step(s, Fail(NotFound(NoJob)))
    ensures HasJob(s, jobId) && !IsUserOfType(s, freelancerId, Freelancer) ==>
      r == Step(s, Fail(NotFound(NoFreelancer)))
    ensures HasJob(s, jobId) && IsUserOfType(s, freelancerId, Freelancer) && !CanSettle(s, jobId, freelancerId, amount) ==>
      r == Step(s, Fail(Insufficient))
    ensures r.out.Ok? <==> CanSettle(s, jobId, freelancerId, amount)
    ensures r.out.Ok? ==>
      var client := JobAt(s, jobId).clientId;
      var split := SplitPayment(amount);
      && split.fee + split.payout == amount
      && client in r.next.balances && freelancerId in r.next.balances
      && r.next.balances[client].pending == s.balances[client].pending - amount
      && r.next.balances[freelancerId].available == AvailableOf(s, freelancerId) + split.payout
      && (client != freelancerId ==>
            r.next.balances[client].available == s.balances[client].available
            && r.next.balances[freelancerId].pending == PendingOf(s, freelancerId))
      && r.next.balances - {client, freelancerId} == s.balances - {client, freelancerId}
      && r.next.txns == s.txns + [
           Txn(freelancerId, Some(jobId), RevenueShare, split.payout, Share(jobId, amount, split.fee, split.payout)),
           Txn(client, Some(jobId), PlatformFee, split.fee, Fee(jobId, amount, split.fee))]
      && r.next.jobs == s.jobs[jobId - 1 := JobAt(s, jobId).(status := Closed)]
      && r.out.value == Settlement(r.next.txns[|s.txns|], r.next.balances[freelancerId], r.next.balances[client])
      && r.next == s.(balances := r.next.balances, txns := r.next.txns, jobs := r.next.jobs)
  {
    if !HasJob(s, jobId) then Step(s, Fail(NotFound(NoJob)))
    else if !IsUserOfType(s, freelancerId, Freelancer) then Step(s, Fail(NotFound(NoFreelancer)))
    else
      var job := JobAt(s, jobId);
      var client := job.clientId;
      if client !in s.balances || s.balances[client].pending < amount then Step(s, Fail(Insufficient))
      else
        var split := SplitPayment(amount);
        var afterClient := s.balances[client := s.balances[client].(pending := s.balances[client].pending - amount)];
        var freelancerRow :=
          if freelancerId in afterClient
          then afterClient[freelancerId].(available := afterClient[freelancerId].available + split.payout)
          else Balance(split.payout, 0.0);
        var balances := afterClient[freelancerId := freelancerRow];
        var share := Txn(freelancerId, Some(jobId), RevenueShare, split.payout, Share(jobId, amount, split.fee, split.payout));
        var fee := Txn(client, Some(jobId), PlatformFee, split.fee, Fee(jobId, amount, split.fee));
        Step(s.(balances := balances,
                txns := s.txns + [share, fee],
                jobs := s.jobs[jobId - 1 := job.(status := Closed)]),
             Ok(Settlement(share, balances[freelancerId], balances[client])))
  }

  /** A job that has been paid out is closed, and can be paid out again: a second request for
      an amount the client's remaining escrow covers succeeds too. */
  lemma RevenueShareRepeats(s: Tables, jobId: Id, freelancerId: Id, first: real, second: real)
    requires ProcessRevenueShare(s, jobId, freelancerId, first).out.Ok?
    requires second <= s.balances[JobAt(s, jobId).clientId].pending - first
    ensures
      var mid := ProcessRevenueShare(s, jobId, freelancerId, first).next;
      && HasJob(mid, jobId) && JobAt(mid, jobId).status == Closed
      && ProcessRevenueShare(mid, jobId, freelancerId, second).out.Ok?
  {
    var mid := ProcessRevenueShare(s, jobId, freelancerId, first).next;
    assert JobAt(mid, jobId).clientId == JobAt(s, jobId).clientId;
    assert mid.users == s.users;
  }

  method HandleGetConnectsBalance(db: Db.Database, u: Id) returns (r: Outcome<int>)
    ensures r == GetConnectsBalance(db.Snapshot(), u)
  {
    if u !in db.connects {
      return Fail(NotFound(NoConnects));
    }
    r := Ok(db.connects[u]);
  }

  method HandlePurchaseConnects(db: Db.Database, u: Id, pkg: Arg<PackageArg>) returns (r: Outcome<Purchase>)
    modifies db
    ensures Step(db.Snapshot(), r) == PurchaseConnects(old(db.Snapshot()), u, pkg)
  {
    if !pkg.Given? || !NonZeroCount(pkg.value.amount) || !NonZero(pkg.value.price) {
      return Fail(InvalidInput);
    }
    var amount, price := pkg.value.amount.value, pkg.value.price.value;
    if u !in db.balances || db.balances[u].available < price {
      return Fail(Insufficient);
    }
    db.balances := db.balances[u := db.balances[u].(available := db.balances[u].available - price)];
    var credits: int;
    if u in db.connects {
      credits := db.connects[u] + amount;
    } else {
      credits := amount;
    }
    db.connects := db.connects[u := credits];
    var entry := Txn(u, None, ConnectPurchase, price, Package(amount, price));
    db.txns := db.txns + [entry];
    r := Ok(Purchase(entry, credits, db.balances[u]));
  }

  method HandleProcessRevenueShare(db: Db.Database, jobId: Id, freelancerId: Id, amount: real)
    returns (r: Outcome<Settlement>)
    modifies db
    ensures Step(db.Snapshot(), r) == ProcessRevenueShare(old(db.Snapshot()), jobId, freelancerId, amount)
  {
    if !(1 <= jobId <= |db.jobs|) {
      return Fail(NotFound(NoJob));
    }
    var client := db.jobs[jobId - 1].clientId;
    if !(1 <= freelancerId <= |db.users|) || db.users[freelancerId - 1].userType != Freelancer {
      return Fail(NotFound(NoFreelancer));
    }
    if client !in db.balances || db.balances[client].pending < amount {
      return Fail(Insufficient);
    }
    var split := SplitPayment(amount);
    db.balances := db.balances[client := db.balances[client].(pending := db.balances[client].pending - amount)];
    if freelancerId !in db.balances {
      db.balances := db.balances[freelancerId := Balance(split.payout, 0.0)];
    } else {
      db.balances := db.balances[freelancerId :=
        db.balances[freelancerId].(available := db.balances[freelancerId].available + split.payout)];
    }
    var share := Txn(freelancerId, Some(jobId), RevenueShare, split.payout, Share(jobId, amount, split.fee, split.payout));
    db.txns := db.txns + [share];
    db.txns := db.txns + [Txn(client, Some(jobId), PlatformFee, split.fee, Fee(jobId, amount, split.fee))];
    if db.jobs[jobId - 1].status != Closed {
      db.jobs := db.jobs[jobId - 1 := db.jobs[jobId - 1].(status := Closed)];
    }
    r := Ok(Settlement(share, db.balances[freelancerId], db.balances[client]));
  }
}
