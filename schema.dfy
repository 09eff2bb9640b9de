/** The tables of the marketplace database, the rows they hold, the shape of request
    fields, and the outcome every request handler reports. */
module Schema {

  /** Row ids. Every table hands out ids 1, 2, 3, ... (a SERIAL column), so 0 is never the
      id of a row, and JavaScript treats an id 0 as missing. */
  type Id = nat

  datatype Option<T> = None | Some(value: T)

  /** A field of a JSON request body: left out, sent as `null`, or present. The handlers
      tell the first two apart in a few places (`=== undefined`), and node-postgres turns
      both into SQL NULL. */
  datatype Arg<T> = Absent | Null | Given(value: T)

  /** The column value stored for a field: NULL unless present. */
  function Stored<T>(a: Arg<T>): (r: Option<T>)
    ensures r.Some? <==> a.Given?
    ensures a.Given? ==> r.value == a.value
  {
    if a.Given? then Some(a.value) else None
  }

  /** SQL `COALESCE($k, column)`: the field if present, the old column value otherwise. */
  function Coalesce<T>(a: Arg<T>, column: T): (r: T)
    ensures a.Given? ==> r == a.value
    ensures !a.Given? ==> r == column
  {
    if a.Given? then a.value else column
  }

  /** `COALESCE($k, column)` on a nullable column. */
  function CoalesceColumn<T>(a: Arg<T>, column: Option<T>): (r: Option<T>)
    ensures a.Given? ==> r == Some(a.value)
    ensures !a.Given? ==> r == column
  {
    if a.Given? then Some(a.value) else column
  }

  // JavaScript truthiness of request fields (`!x` is the negation of these).
  predicate FilledText(a: Arg<string>) { a.Given? && a.value != "" }
  predicate NonZero(a: Arg<real>) { a.Given? && a.value != 0.0 }
  predicate NonZeroCount(a: Arg<int>) { a.Given? && a.value != 0 }
  predicate IdGiven(a: Arg<Id>) { a.Given? && a.value != 0 }
  predicate SetFlag(a: Arg<bool>) { a.Given? && a.value }

  datatype UserType = Freelancer | Client | Admin
  datatype UserStatus = Active | Suspended | Banned

  datatype User = User(email: string, passwordHash: string, userType: UserType, status: UserStatus)

  /** A row of `balances`: spendable money and money escrowed for posted jobs. */
  datatype Balance = Balance(available: real, pending: real)

  datatype JobStatus = Pending | Approved | Rejected | Closed

  datatype Job = Job(
    clientId: Id,
    title: Option<string>,
    description: Option<string>,
    skills: Option<string>,
    budget: real,
    status: JobStatus,
    categoryId: Option<Id>,
    location: Option<string>,
    experienceLevel: Option<string>,
    jobType: Option<string>)

  /** The only status the handlers ever give a proposal. */
  datatype ProposalStatus = Submitted

  datatype Proposal = Proposal(
    jobId: Id,
    freelancerId: Id,
    content: Option<string>,
    timeline: Option<string>,
    bid: Option<real>,
    status: ProposalStatus)

  /** `AwaitingReply` is the status the handlers write as 'pending'. */
  datatype InvitationStatus = AwaitingReply | Accepted | Declined

  datatype Invitation = Invitation(jobId: Id, freelancerId: Id, status: InvitationStatus)

  /** The transaction types the handlers write. Deposits and withdrawals are logged as `Other`. */
  datatype TxnType = Other | ConnectPurchase | JobPostingFee | RevenueShare | PlatformFee

  datatype FundsMethod = Deposit | Withdrawal

  /** The JSON `details` payload of a transaction, one shape per kind of entry. */
  datatype Details =
    | FundsMovement(via: FundsMethod)
    | Package(connects: int, price: real)
    | PostingFee(job: Id, budget: real, feePercentage: nat)
    | Share(job: Id, originalAmount: real, platformFee: real, freelancerAmount: real)
    | Fee(job: Id, originalAmount: real, platformFee: real)

  /** A row of the append-only `transactions` log. */
  datatype Txn = Txn(userId: Id, jobId: Option<Id>, kind: TxnType, amount: real, details: Details)

  datatype Role = ClientRole | FreelancerRole

  datatype Feedback = Feedback(
    jobId: Id,
    reviewerId: Id,
    revieweeId: Id,
    rating: real,
    comment: Option<string>,
    role: Role)

  datatype Profile = Profile(
    skills: Option<string>,
    bio: Option<string>,
    experienceLevel: Option<string>,
    hourlyRate: Option<real>,
    title: Option<string>,
    profileImage: Option<string>,
    isPublic: Option<bool>,
    averageRating: Option<real>)

  /** A row of `portfolioitems`; profiles are one per user, so the item names the user. */
  datatype PortfolioItem = PortfolioItem(
    ownerId: Id,
    projectTitle: Option<string>,
    description: Option<string>,
    mediaLinks: Option<string>)

  datatype Product = Product(freelancerId: Id, name: string, description: string, url: string, price: real)

  datatype Review = Review(productId: Id, reviewerId: Id, rating: Option<real>, comment: Option<string>)

  /** Calendar dates, as day numbers. */
  type Date = nat

  datatype Entry = Entry(
    userId: Id,
    company: string,
    position: string,
    startDate: Date,
    endDate: Option<Date>,
    description: Option<string>,
    isCurrent: Option<bool>)

  /** The whole database. Tables whose rows are never deleted are sequences in id order
      (the row with id k sits at index k - 1); `products` and `workHistory` keep a `None`
      where a row was deleted, so ids are not reused; `balances`, `connects` and `profiles`
      are keyed by user id. */
  datatype Tables = Tables(
    users: seq<User>,
    balances: map<Id, Balance>,
    connects: map<Id, int>,
    jobs: seq<Job>,
    proposals: seq<Proposal>,
    invitations: seq<Invitation>,
    txns: seq<Txn>,
    feedback: seq<Feedback>,
    profiles: map<Id, Profile>,
    portfolio: seq<PortfolioItem>,
    products: seq<Option<Product>>,
    reviews: seq<Review>,
    workHistory: seq<Option<Entry>>)

  function EmptyTables(): Tables {
    Tables([], map[], map[], [], [], [], [], [], map[], [], [], [], [])
  }

  predicate HasUser(s: Tables, id: Id) { 1 <= id <= |s.users| }

  function UserAt(s: Tables, id: Id): User
    requires HasUser(s, id)
  {
    s.users[id - 1]
  }

  predicate IsUserOfType(s: Tables, id: Id, t: UserType) {
    HasUser(s, id) && UserAt(s, id).userType == t
  }

  /** The spendable and escrowed amounts of an account, zero for an account without a row. */
  function AvailableOf(s: Tables, u: Id): real {
    if u in s.balances then s.balances[u].available else 0.0
  }

  function PendingOf(s: Tables, u: Id): real {
    if u in s.balances then s.balances[u].pending else 0.0
  }

  predicate HasJob(s: Tables, id: Id) { 1 <= id <= |s.jobs| }

  function JobAt(s: Tables, id: Id): Job
    requires HasJob(s, id)
  {
    s.jobs[id - 1]
  }

  /** What the report of a failed request names as missing. */
  datatype Missing =
    | NoUser | NoClient | NoFreelancer | NoReviewer | NoReviewee | NoJob
    | NoConnects | NoInvitation | NoProfile | NoProduct | NoEntry

  datatype Error =
    | InvalidInput        // 400: a missing or malformed field
    | NotFound(missing: Missing)  // 404
    | Forbidden           // 403
    | InvalidCredentials  // 401
    | Insufficient        // 400: not enough money or connects
    | Conflict            // 400: the row already exists
    | WrongState          // 400: the job is not in the status the request needs
    | WrongRole           // 400: the user is not of the type the request needs

  datatype Outcome<T> = Ok(value: T) | Fail(error: Error)

  /** The database after a request, and what the request reports. */
  datatype Step<T> = Step(next: Tables, out: Outcome<T>)
}
