/** Job search, job posting with its fee and escrow, approval and rejection, proposals paid
    for with connects, and invitations (src/controllers/jobController.js). The handler
    `getBalance` of this controller is the same as the balance controller's: see
    `Funds.GetBalance`. */
module JobBoard {
  import opened Schema
  import Query
  import Db

  // ---------------------------------------------------------------------------------------
  // GET /jobs: the WHERE clause built from the query string, and the rows it selects

  /** The query-string filters. Query-string values are strings, so a number filter is
      truthy whenever it is present and non-empty ("0" included): `None` stands for absent
      or empty. */
  datatype JobQuery = JobQuery(
    skills: Option<string>,
    status: Option<string>,
    minBudget: Option<real>,
    maxBudget: Option<real>,
    location: Option<string>,
    categoryId: Option<Id>,
    experienceLevel: Option<string>,
    jobType: Option<string>,
    proposals: Option<string>)

  predicate Filled(o: Option<string>) { o.Some? && o.value != "" }

  /** How a status is spelled in the `status` column. */
  function StatusName(st: JobStatus): string {
    match st
    case Pending => "pending"
    case Approved => "approved"
    case Rejected => "rejected"
    case Closed => "closed"
  }

  datatype Bucket = UnderFive | FiveToTen | TwentyToFifty | OverFifty

  /** The `proposals` filter: one of four bucket names, anything else restricts nothing. */
  function BucketOf(p: Option<string>): Option<Bucket> {
    if !Filled(p) then None
    else if p.value == "less_than_5" then Some(UnderFive)
    else if p.value == "5_to_10" then Some(FiveToTen)
    else if p.value == "20_to_50" then Some(TwentyToFifty)
    else if p.value == "50_plus" then Some(OverFifty)
    else None
  }

  /** `COALESCE(p.proposal_count, 0)` compared with a bucket's bounds. */
  predicate InBucket(b: Bucket, count: nat) {
    match b
    case UnderFive => count < 5
    case FiveToTen => 5 <= count <= 10
    case TwentyToFifty => 20 <= count <= 50
    case OverFifty => count > 50
  }

  /** The record predicate the finished SQL encodes: what a job must satisfy, given the number
      of proposals it has, to be listed. */
  predicate Selected(q: JobQuery, j: Job, count: nat) {
    && (Filled(q.skills) ==> j.skills.Some? && Query.Contains(j.skills.value, q.skills.value))
    && (Filled(q.status) ==> StatusName(j.status) == q.status.value)
    && (q.minBudget.Some? ==> j.budget >= q.minBudget.value)
    && (q.maxBudget.Some? ==> j.budget <= q.maxBudget.value)
    && (Filled(q.location) ==> j.location.Some? && Query.Contains(j.location.value, q.location.value))
    && (q.categoryId.Some? ==> j.categoryId == q.categoryId)
    && (Filled(q.experienceLevel) ==> j.experienceLevel == q.experienceLevel)
    && (Filled(q.jobType) ==> j.jobType == q.jobType)
    && (BucketOf(q.proposals).Some? ==> InBucket(BucketOf(q.proposals).value, count))
  }

  /** The columns a placeholder clause compares, and the values pushed into `params`. */
  datatype Column = SkillsLike | StatusIs | BudgetAtLeast | BudgetAtMost | LocationLike | CategoryIs | ExperienceIs | JobTypeIs
  datatype Param = Pattern(inner: string) | Text(text: string) | Amount(x: real) | Ref(id: Id)

  /** An `AND ...` clause: one that reads placeholder `$slot`, or a proposal-count bucket. */
  datatype Clause = Bound(column: Column, slot: nat) | ProposalCount(bucket: Bucket)

  /** What a placeholder clause means once `$k` is bound; `Pattern(p)` is the `%p%` string. */
  predicate ColumnHolds(c: Column, p: Param, j: Job) {
    match (c, p)
    case (SkillsLike, Pattern(t)) => j.skills.Some? && Query.Contains(j.skills.value, t)
    case (StatusIs, Text(t)) => StatusName(j.status) == t
    case (BudgetAtLeast, Amount(x)) => j.budget >= x
    case (BudgetAtMost, Amount(x)) => j.budget <= x
    case (LocationLike, Pattern(t)) => j.location.Some? && Query.Contains(j.location.value, t)
    case (CategoryIs, Ref(id)) => j.categoryId == Some(id)
    case (ExperienceIs, Text(t)) => j.experienceLevel == Some(t)
    case (JobTypeIs, Text(t)) => j.jobType == Some(t)
    case _ => false
  }

  predicate ClauseHolds(c: Clause, params: seq<Param>, j: Job, count: nat) {
    match c
    case Bound(col, k) => 1 <= k <= |params| && ColumnHolds(col, params[k - 1], j)
    case ProposalCount(b) => InBucket(b, count)
  }

  /** `WHERE 1=1 AND c1 AND c2 ...` evaluated with the given parameter list. */
  predicate Where(clauses: seq<Clause>, params: seq<Param>, j: Job, count: nat) {
    forall c :: c in clauses ==> ClauseHolds(c, params, j, count)
  }

  /** The eight value-taking filters in the order the handler tests them, each with the value
      it pushes when its query parameter is truthy. */
  function ValueFilters(q: JobQuery): seq<(Column, Option<Param>)> {
    [ (SkillsLike, if Filled(q.skills) then Some(Pattern(q.skills.value)) else None),
      (StatusIs, if Filled(q.status) then Some(Text(q.status.value)) else None),
      (BudgetAtLeast, if q.minBudget.Some? then Some(Amount(q.minBudget.value)) else None),
      (BudgetAtMost, if q.maxBudget.Some? then Some(Amount(q.maxBudget.value)) else None),
      (LocationLike, if Filled(q.location) then Some(Pattern(q.location.value)) else None),
      (CategoryIs, if q.categoryId.Some? then Some(Ref(q.categoryId.value)) else None),
      (ExperienceIs, if Filled(q.experienceLevel) then Some(Text(q.experienceLevel.value)) else None),
      (JobTypeIs, if Filled(q.jobType) then Some(Text(q.jobType.value)) else None) ]
  }

  predicate FilterHolds(f: (Column, Option<Param>), j: Job) {
    f.1.None? || ColumnHolds(f.0, f.1.value, j)
  }

  /** The number of filters that push a parameter. */
  function GivenCount(fs: seq<(Column, Option<Param>)>): nat {
    if fs == [] then 0 else GivenCount(fs[..|fs| - 1]) + (if fs[|fs| - 1].1.Some? then 1 else 0)
  }

  lemma FiltersMeanSelected(q: JobQuery, j: Job, count: nat)
    ensures (forall k :: 0 <= k < 8 ==> FilterHolds(ValueFilters(q)[k], j))
            && (BucketOf(q.proposals).Some? ==> InBucket(BucketOf(q.proposals).value, count))
            <==> Selected(q, j, count)
  {
    var fs := ValueFilters(q);
    assert FilterHolds(fs[0], j) && FilterHolds(fs[1], j) && FilterHolds(fs[2], j) && FilterHolds(fs[3], j)
        && FilterHolds(fs[4], j) && FilterHolds(fs[5], j) && FilterHolds(fs[6], j) && FilterHolds(fs[7], j)
        ==> forall k :: 0 <= k < 8 ==> FilterHolds(fs[k], j);
  }

  lemma WhereAppend(clauses: seq<Clause>, c: Clause, params: seq<Param>, j: Job, count: nat)
    ensures Where(clauses + [c], params, j, count) == (Where(clauses, params, j, count) && ClauseHolds(c, params, j, count))
  {
    assert forall d :: d in clauses + [c] <==> d in clauses || d == c;
  }

  /** Extending the parameter list leaves the clauses that only read earlier placeholders alone. */
  lemma WhereExtends(clauses: seq<Clause>, params: seq<Param>, v: Param, j: Job, count: nat)
    requires forall i :: 0 <= i < |clauses| && clauses[i].Bound? ==> clauses[i].slot <= |params|
    ensures Where(clauses, params + [v], j, count) == Where(clauses, params, j, count)
  {
    forall c | c in clauses
      ensures ClauseHolds(c, params + [v], j, count) == ClauseHolds(c, params, j, count)
    {
      if c.Bound? && 1 <= c.slot {
        var i :| 0 <= i < |clauses| && clauses[i] == c;
        assert (params + [v])[c.slot - 1] == params[c.slot - 1];
      }
    }
  }

  /** Builds the WHERE clause of `GET /jobs`: each truthy value filter appends a clause reading
      placeholder `$paramIndex`, pushes one parameter and advances the counter; the proposals
      bucket appends a clause and no parameter. */
  method BuildQuery(q: JobQuery) returns (clauses: seq<Clause>, params: seq<Param>, paramIndex: nat)
    ensures |params| == paramIndex - 1 == GivenCount(ValueFilters(q))
    ensures |clauses| == |params| + (if BucketOf(q.proposals).Some? then 1 else 0)
    ensures forall i :: 0 <= i < |params| ==> clauses[i].Bound? && clauses[i].slot == i + 1
    ensures forall j: Job, count: nat :: Where(clauses, params, j, count) <==> Selected(q, j, count)
  {
    var filters := ValueFilters(q);
    clauses, params, paramIndex := [], [], 1;
    var i := 0;
    while i < |filters|
      invariant 0 <= i <= |filters|
      invariant |params| == paramIndex - 1 == |clauses| == GivenCount(filters[..i])
      invariant forall k :: 0 <= k < |clauses| ==> clauses[k].Bound? && clauses[k].slot == k + 1
      invariant forall j: Job, count: nat ::
        Where(clauses, params, j, count) <==> forall k :: 0 <= k < i ==> FilterHolds(filters[k], j)
    {
      var (column, value) := filters[i];
      assert filters[..i + 1][..i] == filters[..i];
      if value.Some? {
        forall j: Job, count: nat
          ensures Where(clauses + [Bound(column, paramIndex)], params + [value.value], j, count)
                  <==> Where(clauses, params, j, count) && ColumnHolds(column, value.value, j)
        {
          WhereAppend(clauses, Bound(column, paramIndex), params + [value.value], j, count);
          WhereExtends(clauses, params, value.value, j, count);
        }
        clauses := clauses + [Bound(column, paramIndex)];
        params := params + [value.value];
        paramIndex := paramIndex + 1;
      }
      i := i + 1;
    }
    assert filters[..i] == filters;
    var bucket := BucketOf(q.proposals);
    var valueClauses := clauses;
    if bucket.Some? {
      clauses := clauses + [ProposalCount(bucket.value)];
    }
    forall j: Job, count: nat
      ensures Where(clauses, params, j, count) <==> Selected(q, j, count)
    {
      FiltersMeanSelected(q, j, count);
      if bucket.Some? {
        WhereAppend(valueClauses, ProposalCount(bucket.value), params, j, count);
      }
    }
  }

  /** `COUNT(*)` of the proposals for a job. */
  function ProposalCountOf(proposals: seq<Proposal>, jobId: Id): nat {
    if proposals == [] then 0
    else ProposalCountOf(proposals[..|proposals| - 1], jobId)
         + (if proposals[|proposals| - 1].jobId == jobId then 1 else 0)
  }

  function Matches(s: Tables, q: JobQuery): (nat, Job) -> bool {
    (id: nat, j: Job) => Selected(q, j, ProposalCountOf(s.proposals, id))
  }

  /** `GET /jobs`: the jobs the query selects, newest first. */
  method GetJobs(db: Db.Database, q: JobQuery) returns (rows: seq<(nat, Job)>)
    ensures Query.Listing(db.jobs, Matches(db.Snapshot(), q), rows)
  {
    var clauses, params, _ := BuildQuery(q);
    var proposals := db.proposals;
    var keep := (id: nat, j: Job) => Where(clauses, params, j, ProposalCountOf(proposals, id));
    rows := Query.Newest(db.jobs, keep);
    assert forall id: nat, j: Job :: keep(id, j) == Matches(db.Snapshot(), q)(id, j);
  }

  // ---------------------------------------------------------------------------------------
  // POST /jobs: posting fee and escrow

  /** The optional columns of a job posting. */
  datatype JobFields = JobFields(
    title: Arg<string>,
    description: Arg<string>,
    skills: Arg<string>,
    categoryId: Arg<Id>,
    location: Arg<string>,
    experienceLevel: Arg<string>,
    jobType: Arg<string>)

  /** The posting fee: 5% of the budget (`budget * 0.05`). */
  function PostingFeeOf(budget: real): (fee: real)
    ensures 20.0 * fee == budget
    ensures budget >= 0.0 ==> 0.0 <= fee <= budget
  {
    budget / 20.0
  }

  function NewJob(clientId: Id, budget: real, f: JobFields): Job {
    Job(clientId, Stored(f.title), Stored(f.description), Stored(f.skills), budget, Pending,
        Stored(f.categoryId), Stored(f.location), Stored(f.experienceLevel), Stored(f.jobType))
  }

  datatype Posted = Posted(jobId: Id, job: Job, balance: Balance)

  /** `POST /jobs`. The budget is not validated. */
  function CreateJob(s: Tables, clientId: Id, budget: real, f: JobFields): (r: Step<Posted>)
    ensures !IsUserOfType(s, clientId, Client) ==> r == Step(s, Fail(NotFound(NoClient)))
    ensures IsUserOfType(s, clientId, Client)
            && (clientId !in s.balances || s.balances[clientId].available < PostingFeeOf(budget)) ==>
      r == Step(s, Fail(Insufficient))
    ensures r.out.Ok? <==>
      IsUserOfType(s, clientId, Client) && clientId in s.balances
      && s.balances[clientId].available >= PostingFeeOf(budget)
    ensures r.out.Ok? ==>
      var fee, id := PostingFeeOf(budget), |s.jobs| + 1;
      && clientId in r.next.balances
      && r.next.balances[clientId].available == s.balances[clientId].available - fee
      && r.next.balances[clientId].pending == s.balances[clientId].pending + budget
      && r.next.balances - {clientId} == s.balances - {clientId}
      && r.next.jobs == s.jobs + [NewJob(clientId, budget, f)]
      && r.next.jobs[id - 1].status == Pending
      && r.next.txns == s.txns + [Txn(clientId, Some(id), JobPostingFee, fee, PostingFee(id, budget, 5))]
      && r.out.value == Posted(id, r.next.jobs[id - 1], r.next.balances[clientId])
      && r.next == s.(balances := r.next.balances, jobs := r.next.jobs, txns := r.next.txns)
  {
    if !IsUserOfType(s, clientId, Client) then Step(s, Fail(NotFound(NoClient)))
    else
      var fee := PostingFeeOf(budget);
      if clientId !in s.balances || s.balances[clientId].available < fee then Step(s, Fail(Insufficient))
      else
        var row := Balance(s.balances[clientId].available - fee, s.balances[clientId].pending + budget);
        var id := |s.jobs| + 1;
        var job := NewJob(clientId, budget, f);
        Step(s.(balances := s.balances[clientId := row],
                jobs := s.jobs + [job],
                txns := s.txns + [Txn(clientId, Some(id), JobPostingFee, fee, PostingFee(id, budget, 5))]),
             Ok(Posted(id, job, row)))
  }

  // ---------------------------------------------------------------------------------------
  // PUT /jobs/:jobId/approve and /reject

  /** Sets the status of an existing job, whatever it was. */
  function SetStatus(s: Tables, jobId: Id, status: JobStatus): (r: Step<Job>)
    ensures !HasJob(s, jobId) ==> r == Step(s, Fail(NotFound(NoJob)))
    ensures HasJob(s, jobId) ==>
      && |r.next.jobs| == |s.jobs|
      && r.out == Ok(JobAt(s, jobId).(status := status))
      && r.next.jobs[jobId - 1] == JobAt(s, jobId).(status := status)
      && (forall k :: 0 <= k < |s.jobs| && k != jobId - 1 ==> r.next.jobs[k] == s.jobs[k])
      && r.next == s.(jobs := r.next.jobs)
  {
    if !HasJob(s, jobId) then Step(s, Fail(NotFound(NoJob)))
    else
      var job := JobAt(s, jobId).(status := status);
      Step(s.(jobs := s.jobs[jobId - 1 := job]), Ok(job))
  }

  /** Approval is not limited to pending jobs: a rejected or closed job can be approved again. */
  function ApproveJob(s: Tables, jobId: Id): (r: Step<Job>)
    ensures r.out.Ok? <==> HasJob(s, jobId)
    ensures r.out.Ok? ==> r.out.value == JobAt(s, jobId).(status := Approved) && HasJob(r.next, jobId) && JobAt(r.next, jobId) == r.out.value
    ensures r.next.balances == s.balances && r.next.proposals == s.proposals
  {
    SetStatus(s, jobId, Approved)
  }

  /** Rejection refunds nothing: the budget stays in the client's escrow. */
  function RejectJob(s: Tables, jobId: Id): (r: Step<Job>)
    ensures r.out.Ok? <==> HasJob(s, jobId)
    ensures r.out.Ok? ==> r.out.value == JobAt(s, jobId).(status := Rejected) && HasJob(r.next, jobId) && JobAt(r.next, jobId) == r.out.value
    ensures r.next.balances == s.balances && r.next.txns == s.txns
  {
    SetStatus(s, jobId, Rejected)
  }

  /** Posting a job and having it rejected costs the client the posting fee and leaves the
      whole budget in escrow. */
  lemma RejectionRefundsNothing(s: Tables, clientId: Id, budget: real, f: JobFields)
    requires CreateJob(s, clientId, budget, f).out.Ok?
    ensures
      var posted := CreateJob(s, clientId, budget, f);
      var after := RejectJob(posted.next, posted.out.value.jobId).next;
      && after.balances[clientId].available == s.balances[clientId].available - PostingFeeOf(budget)
      && after.balances[clientId].pending == s.balances[clientId].pending + budget
      && JobAt(after, posted.out.value.jobId).status == Rejected
  {
  }

  // ---------------------------------------------------------------------------------------
  // POST /jobs/:jobId/proposals

  predicate HasProposal(s: Tables, jobId: Id, freelancerId: Id) {
    exists p :: p in s.proposals && p.jobId == jobId && p.freelancerId == freelancerId
  }

  /** At most one proposal per job and freelancer. */
  ghost predicate OneProposalPerPair(s: Tables) {
    forall i, k :: 0 <= i < k < |s.proposals| ==>
      (s.proposals[i].jobId, s.proposals[i].freelancerId) != (s.proposals[k].jobId, s.proposals[k].freelancerId)
  }

  /** `POST /jobs/:jobId/proposals`: the guards, in the order the handler checks them. */
  function SubmitProposal(s: Tables, jobId: Id, freelancerId: Id,
                          content: Arg<string>, timeline: Arg<string>, bid: Arg<real>): (r: Step<Proposal>)
    ensures !HasJob(s, jobId) ==> r == Step(s, Fail(NotFound(NoJob)))
    ensures HasJob(s, jobId) && JobAt(s, jobId).status != Approved ==> r == Step(s, Fail(WrongState))
    ensures HasJob(s, jobId) && JobAt(s, jobId).status == Approved && !HasUser(s, freelancerId) ==>
      r == Step(s, Fail(NotFound(NoFreelancer)))
    ensures HasJob(s, jobId) && JobAt(s, jobId).status == Approved && HasUser(s, freelancerId)
            && UserAt(s, freelancerId).userType != Freelancer ==>
      r == Step(s, Fail(WrongRole))
    ensures HasJob(s, jobId) && JobAt(s, jobId).status == Approved && IsUserOfType(s, freelancerId, Freelancer)
            && (freelancerId !in s.connects || s.connects[freelancerId] < 1) ==>
      r == Step(s, Fail(Insufficient))
    ensures HasJob(s, jobId) && JobAt(s, jobId).status == Approved && IsUserOfType(s, freelancerId, Freelancer)
            && freelancerId in s.connects && s.connects[freelancerId] >= 1 && HasProposal(s, jobId, freelancerId) ==>
      r == Step(s, Fail(Conflict))
    ensures r.out.Ok? <==>
      && HasJob(s, jobId) && JobAt(s, jobId).status == Approved && IsUserOfType(s, freelancerId, Freelancer)
      && freelancerId in s.connects && s.connects[freelancerId] >= 1 && !HasProposal(s, jobId, freelancerId)
    ensures r.out.Ok? ==>
      && freelancerId in s.connects && freelancerId in r.next.connects
      && r.next.connects[freelancerId] == s.connects[freelancerId] - 1
      && r.next.connects - {freelancerId} == s.connects - {freelancerId}
      && r.next.proposals == s.proposals + [r.out.value]
      && r.out.value == Proposal(jobId, freelancerId, Stored(content), Stored(timeline), Stored(bid), Submitted)
      && r.next == s.(connects := r.next.connects, proposals := r.next.proposals)
  {
    if !HasJob(s, jobId) then Step(s, Fail(NotFound(NoJob)))
    else if JobAt(s, jobId).status != Approved then Step(s, Fail(WrongState))
    else if !HasUser(s, freelancerId) then Step(s, Fail(NotFound(NoFreelancer)))
    else if UserAt(s, freelancerId).userType != Freelancer then Step(s, Fail(WrongRole))
    else if freelancerId !in s.connects || s.connects[freelancerId] < 1 then Step(s, Fail(Insufficient))
    else if HasProposal(s, jobId, freelancerId) then Step(s, Fail(Conflict))
    else
      var p := Proposal(jobId, freelancerId, Stored(content), Stored(timeline), Stored(bid), Submitted);
      Step(s.(connects := s.connects[freelancerId := s.connects[freelancerId] - 1],
              proposals := s.proposals + [p]),
           Ok(p))
  }

  /** A successful proposal spends one connect, so connects never go negative, and the
      duplicate check keeps one proposal per job and freelancer. */
  lemma SubmitProposalKeepsInvariants(s: Tables, jobId: Id, freelancerId: Id,
                                      content: Arg<string>, timeline: Arg<string>, bid: Arg<real>)
    requires OneProposalPerPair(s)
    requires forall u :: u in s.connects ==> s.connects[u] >= 0
    ensures var r := SubmitProposal(s, jobId, freelancerId, content, timeline, bid);
      && OneProposalPerPair(r.next)
      && (forall u :: u in r.next.connects ==> r.next.connects[u] >= 0)
  {
    var r := SubmitProposal(s, jobId, freelancerId, content, timeline, bid);
    if r.out.Ok? {
      var ps := r.next.proposals;
      forall i, k | 0 <= i < k < |ps|
        ensures (ps[i].jobId, ps[i].freelancerId) != (ps[k].jobId, ps[k].freelancerId)
      {
        if k == |s.proposals| {
          assert ps[i] in s.proposals;
        }
      }
    }
  }

  function ForJob(jobId: Id): (nat, Proposal) -> bool {
    (id: nat, p: Proposal) => p.jobId == jobId
  }

  /** `GET /jobs/:jobId/proposals`: the job's proposals, newest first. */
  function GetProposals(s: Tables, jobId: Id): (r: Outcome<seq<(nat, Proposal)>>)
    ensures r.Fail? <==> !HasJob(s, jobId)
    ensures r.Fail? ==> r.error == NotFound(NoJob)
    ensures r.Ok? ==> Query.Listing(s.proposals, ForJob(jobId), r.value)
  {
    if !HasJob(s, jobId) then Fail(NotFound(NoJob)) else Ok(Query.Newest(s.proposals, ForJob(jobId)))
  }

  // ---------------------------------------------------------------------------------------
  // POST /jobs/:jobId/invite

  predicate HasInvitation(s: Tables, jobId: Id, freelancerId: Id) {
    exists v :: v in s.invitations && v.jobId == jobId && v.freelancerId == freelancerId
  }

  ghost predicate OneInvitationPerPair(s: Tables) {
    forall i, k :: 0 <= i < k < |s.invitations| ==>
      (s.invitations[i].jobId, s.invitations[i].freelancerId) != (s.invitations[k].jobId, s.invitations[k].freelancerId)
  }

  /** `POST /jobs/:jobId/invite`. The job's status is not checked. */
  function InviteFreelancer(s: Tables, jobId: Id, freelancerId: Id): (r: Step<Invitation>)
    ensures !HasJob(s, jobId) ==> r == Step(s, Fail(NotFound(NoJob)))
    ensures HasJob(s, jobId) && !HasUser(s, freelancerId) ==> r == Step(s, Fail(NotFound(NoFreelancer)))
    ensures HasJob(s, jobId) && HasUser(s, freelancerId) && UserAt(s, freelancerId).userType != Freelancer ==>
      r == Step(s, Fail(WrongRole))
    ensures HasJob(s, jobId) && IsUserOfType(s, freelancerId, Freelancer) && HasInvitation(s, jobId, freelancerId) ==>
      r == Step(s, Fail(Conflict))
    ensures r.out.Ok? <==>
      HasJob(s, jobId) && IsUserOfType(s, freelancerId, Freelancer) && !HasInvitation(s, jobId, freelancerId)
    ensures r.out.Ok? ==>
      && r.out.value == Invitation(jobId, freelancerId, AwaitingReply)
      && r.next == s.(invitations := s.invitations + [r.out.value])
  {
    if !HasJob(s, jobId) then Step(s, Fail(NotFound(NoJob)))
    else if !HasUser(s, freelancerId) then Step(s, Fail(NotFound(NoFreelancer)))
    else if UserAt(s, freelancerId).userType != Freelancer then Step(s, Fail(WrongRole))
    else if HasInvitation(s, jobId, freelancerId) then Step(s, Fail(Conflict))
    else
      var v := Invitation(jobId, freelancerId, AwaitingReply);
      Step(s.(invitations := s.invitations + [v]), Ok(v))
  }

  lemma InviteKeepsOnePerPair(s: Tables, jobId: Id, freelancerId: Id)
    requires OneInvitationPerPair(s)
    ensures OneInvitationPerPair(InviteFreelancer(s, jobId, freelancerId).next)
  {
    var r := InviteFreelancer(s, jobId, freelancerId);
    if r.out.Ok? {
      var vs := r.next.invitations;
      forall i, k | 0 <= i < k < |vs|
        ensures (vs[i].jobId, vs[i].freelancerId) != (vs[k].jobId, vs[k].freelancerId)
      {
        if k == |s.invitations| {
          assert vs[i] in s.invitations;
        }
      }
    }
  }

  // ---------------------------------------------------------------------------------------
  // The handlers, updating the database in place

  method HandleCreateJob(db: Db.Database, clientId: Id, budget: real, f: JobFields) returns (r: Outcome<Posted>)
    modifies db
    ensures Step(db.Snapshot(), r) == CreateJob(old(db.Snapshot()), clientId, budget, f)
  {
    if !(1 <= clientId <= |db.users|) || db.users[clientId - 1].userType != Client {
      return Fail(NotFound(NoClient));
    }
    var fee := PostingFeeOf(budget);
    if clientId !in db.balances || db.balances[clientId].available < fee {
      return Fail(Insufficient);
    }
    db.balances := db.balances[clientId := db.balances[clientId].(available := db.balances[clientId].available - fee)];
    db.balances := db.balances[clientId := db.balances[clientId].(pending := db.balances[clientId].pending + budget)];
    var job := NewJob(clientId, budget, f);
    db.jobs := db.jobs + [job];
    var id := |db.jobs|;
    db.txns := db.txns + [Txn(clientId, Some(id), JobPostingFee, fee, PostingFee(id, budget, 5))];
    r := Ok(Posted(id, job, db.balances[clientId]));
  }

  method HandleSetStatus(db: Db.Database, jobId: Id, status: JobStatus) returns (r: Outcome<Job>)
    modifies db
    ensures Step(db.Snapshot(), r) == SetStatus(old(db.Snapshot()), jobId, status)
  {
    if !(1 <= jobId <= |db.jobs|) {
      return Fail(NotFound(NoJob));
    }
    db.jobs := db.jobs[jobId - 1 := db.jobs[jobId - 1].(status := status)];
    r := Ok(db.jobs[jobId - 1]);
  }

  method HandleSubmitProposal(db: Db.Database, jobId: Id, freelancerId: Id,
                              content: Arg<string>, timeline: Arg<string>, bid: Arg<real>)
    returns (r: Outcome<Proposal>)
    modifies db
    ensures Step(db.Snapshot(), r) == SubmitProposal(old(db.Snapshot()), jobId, freelancerId, content, timeline, bid)
  {
    if !(1 <= jobId <= |db.jobs|) {
      return Fail(NotFound(NoJob));
    }
    if db.jobs[jobId - 1].status != Approved {
      return Fail(WrongState);
    }
    if !(1 <= freelancerId <= |db.users|) {
      return Fail(NotFound(NoFreelancer));
    }
    if db.users[freelancerId - 1].userType != Freelancer {
      return Fail(WrongRole);
    }
    if freelancerId !in db.connects || db.connects[freelancerId] < 1 {
      return Fail(Insufficient);
    }
    if exists p :: p in db.proposals && p.jobId == jobId && p.freelancerId == freelancerId {
      return Fail(Conflict);
    }
    db.connects := db.connects[freelancerId := db.connects[freelancerId] - 1];
    var p := Proposal(jobId, freelancerId, Stored(content), Stored(timeline), Stored(bid), Submitted);
    db.proposals := db.proposals + [p];
    r := Ok(p);
  }

  method HandleInviteFreelancer(db: Db.Database, jobId: Id, freelancerId: Id) returns (r: Outcome<Invitation>)
    modifies db
    ensures Step(db.Snapshot(), r) == InviteFreelancer(old(db.Snapshot()), jobId, freelancerId)
  {
    if !(1 <= jobId <= |db.jobs|) {
      return Fail(NotFound(NoJob));
    }
    if !(1 <= freelancerId <= |db.users|) {
      return Fail(NotFound(NoFreelancer));
    }
    if db.users[freelancerId - 1].userType != Freelancer {
      return Fail(WrongRole);
    }
    if exists v :: v in db.invitations && v.jobId == jobId && v.freelancerId == freelancerId {
      return Fail(Conflict);
    }
    var v := Invitation(jobId, freelancerId, AwaitingReply);
    db.invitations := db.invitations + [v];
    r := Ok(v);
  }
}
