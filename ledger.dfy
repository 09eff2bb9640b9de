/** The ledger as a whole: the requests that move money or connects, applied one after the
    other, and what stays true of balances and connects along any such run. Requests are
    taken to be serialized (each handler runs alone). */
module Ledger {
  import opened Schema
  import Funds
  import Payments
  import JobBoard
  import Auth

  datatype Request =
    | ReadBalance(u: Id)
    | Deposit(u: Id, amount: Arg<real>)
    | Withdraw(u: Id, amount: Arg<real>)
    | BuyConnects(u: Id, pkg: Arg<Payments.PackageArg>)
    | PayOut(jobId: Id, freelancerId: Id, payment: real)
    | PostJob(clientId: Id, budget: real, fields: JobBoard.JobFields)
    | Approve(jobId: Id)
    | Reject(jobId: Id)
    | Propose(jobId: Id, freelancerId: Id, content: Arg<string>, timeline: Arg<string>, bid: Arg<real>)
    | Invite(jobId: Id, freelancerId: Id)
    | Register(email: string, passwordHash: string, userType: Arg<string>)

  /** The database after one request, whatever it reports. */
  function Apply(s: Tables, req: Request): Tables {
    match req
    case ReadBalance(u) => Funds.GetBalance(s, u).next
    case Deposit(u, amount) => Funds.AddFunds(s, u, amount).next
    case Withdraw(u, amount) => Funds.WithdrawFunds(s, u, amount).next
    case BuyConnects(u, pkg) => Payments.PurchaseConnects(s, u, pkg).next
    case PayOut(jobId, f, amount) => Payments.ProcessRevenueShare(s, jobId, f, amount).next
    case PostJob(c, budget, fields) => JobBoard.CreateJob(s, c, budget, fields).next
    case Approve(jobId) => JobBoard.ApproveJob(s, jobId).next
    case Reject(jobId) => JobBoard.RejectJob(s, jobId).next
    case Propose(jobId, f, content, timeline, bid) => JobBoard.SubmitProposal(s, jobId, f, content, timeline, bid).next
    case Invite(jobId, f) => JobBoard.InviteFreelancer(s, jobId, f).next
    case Register(email, hash, t) => Auth.Signup(s, email, hash, t).next
  }

  function Run(s: Tables, reqs: seq<Request>): Tables
    decreases |reqs|
  {
    if reqs == [] then s else Run(Apply(s, reqs[0]), reqs[1..])
  }

  /** The inputs the handlers do not validate but non-negativity needs: a job budget, a
      revenue-share amount and a purchased number of connects that are not negative. */
  predicate Admissible(req: Request) {
    match req
    case PostJob(_, budget, _) => budget >= 0.0
    case PayOut(_, _, amount) => amount >= 0.0
    case BuyConnects(_, pkg) => pkg.Given? && pkg.value.amount.Given? ==> pkg.value.amount.value >= 0
    case _ => true
  }

  ghost predicate NonNegative(s: Tables) {
    && (forall u :: u in s.balances ==> s.balances[u].available >= 0.0 && s.balances[u].pending >= 0.0)
    && (forall u :: u in s.connects ==> s.connects[u] >= 0)
  }

  lemma OthersUnchanged<V>(m: map<Id, V>, n: map<Id, V>, keys: set<Id>)
    requires n - keys == m - keys
    ensures forall k :: k !in keys ==> (k in n <==> k in m)
    ensures forall k :: k in n && k !in keys ==> n[k] == m[k]
  {
    forall k | k !in keys
      ensures (k in n <==> k in m) && (k in n ==> n[k] == m[k])
    {
      if k in n {
        assert k in n - keys;
      }
      if k in m {
        assert k in m - keys;
      }
    }
  }

  lemma ApplyKeepsNonNegative(s: Tables, req: Request)
    requires NonNegative(s) && Admissible(req)
    ensures NonNegative(Apply(s, req))
  {
    var n := Apply(s, req);
    match req
    case ReadBalance(u) =>
    case Deposit(u, amount) =>
      if Funds.ValidAmount(amount) {
        OthersUnchanged(s.balances, n.balances, {u});
      }
    case Withdraw(u, amount) =>
      if Funds.WithdrawFunds(s, u, amount).out.Ok? {
        OthersUnchanged(s.balances, n.balances, {u});
      }
    case BuyConnects(u, pkg) =>
      if Payments.PurchaseConnects(s, u, pkg).out.Ok? {
        OthersUnchanged(s.balances, n.balances, {u});
        OthersUnchanged(s.connects, n.connects, {u});
      }
    case PayOut(jobId, f, amount) =>
      if Payments.ProcessRevenueShare(s, jobId, f, amount).out.Ok? {
        var client := JobAt(s, jobId).clientId;
        OthersUnchanged(s.balances, n.balances, {client, f});
      }
    case PostJob(c, budget, fields) =>
      if JobBoard.CreateJob(s, c, budget, fields).out.Ok? {
        OthersUnchanged(s.balances, n.balances, {c});
      }
    case Approve(jobId) =>
    case Reject(jobId) =>
    case Propose(jobId, f, content, timeline, bid) =>
      if JobBoard.SubmitProposal(s, jobId, f, content, timeline, bid).out.Ok? {
        OthersUnchanged(s.connects, n.connects, {f});
      }
    case Invite(jobId, f) =>
    case Register(email, hash, t) =>
  }

  /** Along any run of admissible requests from a state without negative amounts, no
      spendable amount, escrow or connects count goes negative. */
  lemma {:induction false} RunKeepsNonNegative(s: Tables, reqs: seq<Request>)
    requires NonNegative(s)
    requires forall i :: 0 <= i < |reqs| ==> Admissible(reqs[i])
    ensures NonNegative(Run(s, reqs))
    decreases |reqs|
  {
    if reqs != [] {
      ApplyKeepsNonNegative(s, reqs[0]);
      RunKeepsNonNegative(Apply(s, reqs[0]), reqs[1..]);
    }
  }

  /** The fresh database has no amounts at all. */
  lemma EmptyIsNonNegative()
    ensures NonNegative(EmptyTables())
  {
  }

  /** Without the budget precondition the escrow can go negative: a client with 1 available
      posts a job with budget -20, which is accepted (its fee, -1, is affordable) and leaves
      an escrow of -20. */
  lemma NegativeBudgetAccepted()
    ensures
      var s := EmptyTables().(users := [User("c@example.com", "h", Client, Active)],
                              balances := map[1 := Balance(1.0, 0.0)]);
      var r := JobBoard.CreateJob(s, 1, -20.0, JobBoard.JobFields(Absent, Absent, Absent, Absent, Absent, Absent, Absent));
      && NonNegative(s)
      && r.out.Ok?
      && r.next.balances[1].pending == -20.0
      && !NonNegative(r.next)
  {
    var s := EmptyTables().(users := [User("c@example.com", "h", Client, Active)],
                            balances := map[1 := Balance(1.0, 0.0)]);
    assert IsUserOfType(s, 1, Client);
  }

  // ---------------------------------------------------------------------------------------
  // The transaction log as the audit trail of the balances

  /** What a log entry says happened to its user's spendable amount. A platform-fee entry is
      written for the client but comes out of the escrow. */
  function AvailableEffect(t: Txn): real {
    match t.kind
    case Other =>
      if t.details == FundsMovement(Schema.Deposit) then t.amount
      else if t.details == FundsMovement(Withdrawal) then -t.amount
      else 0.0
    case ConnectPurchase => -t.amount
    case JobPostingFee => -t.amount
    case RevenueShare => t.amount
    case PlatformFee => 0.0
  }

  /** What a log entry says happened to its user's escrow: a posted job's budget goes in, a
      revenue-share payment's full amount comes out. */
  function PendingEffect(t: Txn): real {
    if t.kind == JobPostingFee && t.details.PostingFee? then t.details.budget
    else if t.kind == PlatformFee && t.details.Fee? then -t.details.originalAmount
    else 0.0
  }

  /** The spendable amount and the escrow of `u` as the log accounts for them. */
  function LoggedAvailable(txns: seq<Txn>, u: Id): real {
    if txns == [] then 0.0
    else
      var t := txns[|txns| - 1];
      LoggedAvailable(txns[..|txns| - 1], u) + (if t.userId == u then AvailableEffect(t) else 0.0)
  }

  function LoggedPending(txns: seq<Txn>, u: Id): real {
    if txns == [] then 0.0
    else
      var t := txns[|txns| - 1];
      LoggedPending(txns[..|txns| - 1], u) + (if t.userId == u then PendingEffect(t) else 0.0)
  }

  lemma {:induction false} LoggedConcat(txns: seq<Txn>, added: seq<Txn>, u: Id)
    ensures LoggedAvailable(txns + added, u) == LoggedAvailable(txns, u) + LoggedAvailable(added, u)
    ensures LoggedPending(txns + added, u) == LoggedPending(txns, u) + LoggedPending(added, u)
    decreases |added|
  {
    if added == [] {
      assert txns + added == txns;
    } else {
      var init := added[..|added| - 1];
      LoggedConcat(txns, init, u);
      assert (txns + added)[..|txns + added| - 1] == txns + init;
    }
  }

  /** Every account's spendable amount and escrow agree with the log (zero for an account
      without a balance row). */
  ghost predicate Reconciled(s: Tables) {
    forall u :: AvailableOf(s, u) == LoggedAvailable(s.txns, u) && PendingOf(s, u) == LoggedPending(s.txns, u)
  }

  /** A step that touches only the balance rows of `keys`, appends only entries for them,
      and moves each of those rows by what its new entries say keeps the balances reconciled. */
  lemma Reconcile(s: Tables, n: Tables, keys: set<Id>, added: seq<Txn>)
    requires Reconciled(s)
    requires n.txns == s.txns + added
    requires n.balances - keys == s.balances - keys
    requires forall i :: 0 <= i < |added| ==> added[i].userId in keys
    requires forall k :: k in keys ==>
      AvailableOf(n, k) == AvailableOf(s, k) + LoggedAvailable(added, k)
      && PendingOf(n, k) == PendingOf(s, k) + LoggedPending(added, k)
    ensures Reconciled(n)
  {
    OthersUnchanged(s.balances, n.balances, keys);
    forall u ensures AvailableOf(n, u) == LoggedAvailable(n.txns, u) && PendingOf(n, u) == LoggedPending(n.txns, u) {
      LoggedConcat(s.txns, added, u);
      if u !in keys {
        NoEntriesFor(added, u);
      }
    }
  }

  lemma {:induction false} NoEntriesFor(added: seq<Txn>, u: Id)
    requires forall i :: 0 <= i < |added| ==> added[i].userId != u
    ensures LoggedAvailable(added, u) == 0.0 && LoggedPending(added, u) == 0.0
    decreases |added|
  {
    if added != [] {
      NoEntriesFor(added[..|added| - 1], u);
    }
  }

  lemma LoggedSingle(t: Txn, k: Id)
    ensures LoggedAvailable([t], k) == (if t.userId == k then AvailableEffect(t) else 0.0)
    ensures LoggedPending([t], k) == (if t.userId == k then PendingEffect(t) else 0.0)
  {
    assert [t][..0] == [];
  }

  /** A step that moves no money at all. */
  lemma Untouched(s: Tables, n: Tables)
    requires Reconciled(s)
    requires n.balances == s.balances && n.txns == s.txns
    ensures Reconciled(n)
  {
    assert forall u :: AvailableOf(n, u) == AvailableOf(s, u) && PendingOf(n, u) == PendingOf(s, u);
  }

  lemma ApplyKeepsReconciled(s: Tables, req: Request)
    requires Reconciled(s)
    ensures Reconciled(Apply(s, req))
  {
    match req
    case ReadBalance(u) =>
      Reconcile(s, Funds.GetBalance(s, u).next, {u}, []);
    case Deposit(u, amount) =>
      DepositReconciled(s, u, amount);
    case Withdraw(u, amount) =>
      WithdrawReconciled(s, u, amount);
    case BuyConnects(u, pkg) =>
      PurchaseReconciled(s, u, pkg);
    case PayOut(jobId, f, amount) =>
      RevenueShareReconciled(s, jobId, f, amount);
    case PostJob(c, budget, fields) =>
      PostJobReconciled(s, c, budget, fields);
    case Approve(jobId) =>
      Untouched(s, Apply(s, req));
    case Reject(jobId) =>
      Untouched(s, Apply(s, req));
    case Propose(jobId, f, content, timeline, bid) =>
      Untouched(s, Apply(s, req));
    case Invite(jobId, f) =>
      Untouched(s, Apply(s, req));
    case Register(email, hash, t) =>
      Untouched(s, Apply(s, req));
  }

  lemma DepositReconciled(s: Tables, u: Id, amount: Arg<real>)
    requires Reconciled(s)
    ensures Reconciled(Funds.AddFunds(s, u, amount).next)
  {
    var n := Funds.AddFunds(s, u, amount).next;
    if Funds.ValidAmount(amount) {
      var t := Funds.FundsEntry(u, amount.value, Schema.Deposit);
      LoggedSingle(t, u);
      Reconcile(s, n, {u}, [t]);
    } else {
      Untouched(s, n);
    }
  }

  lemma WithdrawReconciled(s: Tables, u: Id, amount: Arg<real>)
    requires Reconciled(s)
    ensures Reconciled(Funds.WithdrawFunds(s, u, amount).next)
  {
    var n := Funds.WithdrawFunds(s, u, amount).next;
    if Funds.WithdrawFunds(s, u, amount).out.Ok? {
      var t := Funds.FundsEntry(u, amount.value, Schema.Withdrawal);
      LoggedSingle(t, u);
      Reconcile(s, n, {u}, [t]);
    } else {
      Untouched(s, n);
    }
  }

  lemma PurchaseReconciled(s: Tables, u: Id, pkg: Arg<Payments.PackageArg>)
    requires Reconciled(s)
    ensures Reconciled(Payments.PurchaseConnects(s, u, pkg).next)
  {
    var n := Payments.PurchaseConnects(s, u, pkg).next;
    if Payments.PurchaseConnects(s, u, pkg).out.Ok? {
      var t := n.txns[|s.txns|];
      LoggedSingle(t, u);
      Reconcile(s, n, {u}, [t]);
    } else {
      Untouched(s, n);
    }
  }

  lemma PostJobReconciled(s: Tables, c: Id, budget: real, fields: JobBoard.JobFields)
    requires Reconciled(s)
    ensures Reconciled(JobBoard.CreateJob(s, c, budget, fields).next)
  {
    var n := JobBoard.CreateJob(s, c, budget, fields).next;
    if JobBoard.CreateJob(s, c, budget, fields).out.Ok? {
      var t := n.txns[|s.txns|];
      LoggedSingle(t, c);
      Reconcile(s, n, {c}, [t]);
    } else {
      Untouched(s, n);
    }
  }

  lemma RevenueShareReconciled(s: Tables, jobId: Id, f: Id, amount: real)
    requires Reconciled(s)
    ensures Reconciled(Payments.ProcessRevenueShare(s, jobId, f, amount).next)
  {
    var n := Payments.ProcessRevenueShare(s, jobId, f, amount).next;
    if Payments.ProcessRevenueShare(s, jobId, f, amount).out.Ok? {
      var client := JobAt(s, jobId).clientId;
      var share, fee := n.txns[|s.txns|], n.txns[|s.txns| + 1];
      assert [share] + [fee] == [share, fee];
      forall k | k in {client, f}
        ensures AvailableOf(n, k) == AvailableOf(s, k) + LoggedAvailable([share, fee], k)
        ensures PendingOf(n, k) == PendingOf(s, k) + LoggedPending([share, fee], k)
      {
        LoggedSingle(share, k);
        LoggedSingle(fee, k);
        LoggedConcat([share], [fee], k);
      }
      Reconcile(s, n, {client, f}, [share, fee]);
    } else {
      Untouched(s, n);
    }
  }

  /** Along any run of requests from a reconciled state (the empty database is one), every
      account's balance row is exactly what its log entries add up to. */
  lemma {:induction false} RunKeepsReconciled(s: Tables, reqs: seq<Request>)
    requires Reconciled(s)
    ensures Reconciled(Run(s, reqs))
    decreases |reqs|
  {
    if reqs != [] {
      ApplyKeepsReconciled(s, reqs[0]);
      RunKeepsReconciled(Apply(s, reqs[0]), reqs[1..]);
    }
  }

  lemma EmptyIsReconciled()
    ensures Reconciled(EmptyTables())
  {
  }
}
