# SkillBridge marketplace ledger and table components

A model of the request handlers of the SkillBridge freelance-marketplace backend.

- **The ledger.** Per-user balances hold a spendable `available` amount and an escrowed
  `pending` amount. Per-freelancer connects are bidding credits. The transactions table is an
  append-only log. The ledger requests are:
  - funds: add, withdraw
  - connects purchases
  - job posting, which charges a 5% fee and escrows the budget
  - approval and rejection of jobs
  - proposals, each spending one connect
  - invitations
  - the revenue-share payout: the platform keeps 10% and the freelancer gets 90%
  - signup, which gives a new freelancer 10 connects
- **The table components around it.** Login gates and account status; feedback and the
  average rating kept on a freelancer's profile; digital products and their review upsert;
  invitation answers; profiles and portfolio items; work history.

The database is the value `Schema.Tables`:
- Append-only tables are sequences whose position is the row id.
- Tables whose rows can be deleted (products, work history) keep a `None` tombstone, so ids
  are never reused.
- Tables keyed by user (balances, connects, profiles) are maps.

Each handler appears twice:
- As a function from a database to a `Step`: the next database and what the request
  reports. These functions carry the contracts: every error path leaves the database
  unchanged, and every success path states what changed and that nothing else did.
- As a method on the class `Db.Database`, which updates its fields in place the way the
  handler does, step by step. Each method is proved to end in the state, and report the
  result, of its function.

Request-body fields distinguish a field left out, a field sent as `null` and a field sent
with a value. The handlers test JavaScript truthiness, compare with `undefined` and use
SQL `COALESCE`, so the difference matters.

Money is exact (`real`). The posting fee is exactly `budget / 20`, and the platform fee
exactly `amount / 10`.

Two properties hold along any run of requests, taken one at a time (`Ledger.Run`):
- **Balances match the log.** Every account's `available` and `pending` equal what its
  entries in the transaction log add up to. A balance row created by a deposit or a payout
  starts with pending 0 (see "Left out"). This holds with no assumption about the
  values of the inputs, for requests that carry an amount and a budget (see "Left out").
- **Nothing goes negative.** No amount and no connects count goes negative, provided job
  budgets, revenue-share amounts and purchased connects counts are not negative. The
  handlers do not check any of these three, and `Ledger.NegativeBudgetAccepted` exhibits
  a negative escrow.

Deposits and withdrawals are logged with type `other`, and the method (deposit or
withdrawal) goes in the details. The model follows the code here, not the `deposit` and
`withdrawal` types the transaction-type enumeration suggests
(`src/controllers/balanceController.js:55-58`, `:99-103`). Likewise:
- A connects purchase refuses only a missing or zero amount or price, so a negative one
  passes.
- A rejected job keeps its budget in escrow.
- A closed job can be paid out again.

## Model

| member | source | states |
|---|---|---|
| Schema.Stored | src/controllers/workHistoryController.js:42-47 | a request field is stored as NULL unless it was sent with a value |
| Schema.Coalesce | src/controllers/digitalProductController.js:109-118 | `COALESCE($k, column)`: the sent value replaces the column, a missing or null one keeps it |
| Schema.CoalesceColumn | src/controllers/profileController.js:141-154 | the same on a nullable column |
| Query.Newest | src/controllers/financialController.js:101-104 | the rows of a table that satisfy a filter, each with its id, newest first, none missing and none extra |
| Query.ListingGrows | src/controllers/invitationController.js:7-13 | a newest-first listing of all rows but the last extends to the whole table by putting the last row first if it qualifies |
| Funds.GetBalance | src/controllers/balanceController.js:3-23 | the caller's balance row is returned; a missing one is created with zero available and zero pending, and an existing one is left alone |
| Funds.GetBalanceIdempotent | src/controllers/balanceController.js:7-18 | a second read returns the row the first created and creates nothing |
| Funds.AddFunds | src/controllers/balanceController.js:25-73 | a missing, zero or negative amount is refused with no change; otherwise available rises by exactly the amount (row created if missing, with pending 0), an existing row's pending is untouched, and one `other`/deposit log entry is appended |
| Funds.WithdrawFunds | src/controllers/balanceController.js:75-117 | refused with no change when the amount is not positive, the row is missing or available is below the amount (iff); otherwise available drops by exactly the amount and one `other`/withdrawal entry is appended |
| Funds.DepositThenWithdraw | src/controllers/balanceController.js:25-117 | a deposit followed by a withdrawal of the same amount restores available and pending and grows the log by exactly two entries |
| Funds.HandleGetBalance | src/controllers/jobController.js:400-419 | the in-place read, also behind the job controller's duplicate balance endpoint, ends as `GetBalance` says |
| Funds.HandleAddFunds | src/controllers/balanceController.js:25-73 | the in-place update ends in the state and result of `AddFunds` |
| Funds.HandleWithdrawFunds | src/controllers/balanceController.js:75-117 | the in-place update ends in the state and result of `WithdrawFunds` |
| Payments.GetConnectsBalance | src/controllers/financialController.js:3-20 | a user's connects count iff they have a connects row; not-found otherwise; nothing is created |
| Payments.PurchaseConnects | src/controllers/financialController.js:22-95 | refuses a missing package or missing/zero amount or price, then a missing row or available below the price, with no change; on success (iff) available drops by exactly the price, connects rise by exactly the amount (row created if missing) and one `connect_purchase` entry of the price is appended |
| Payments.Transactions | src/controllers/financialController.js:97-113 | exactly the user's log entries, newest first |
| Payments.SplitPayment | src/controllers/financialController.js:147-148 | fee and payout add up to the amount exactly, the fee is a tenth of it, and for a non-negative amount the fee is at most the payout |
| Payments.ProcessRevenueShare | src/controllers/financialController.js:115-221 | missing job, then payee not an existing freelancer, then client escrow missing or below the amount: each fails with no change; on success (iff) client pending drops by the amount, freelancer available rises by the payout (row created if missing), a `revenue_share` and a `platform_fee` entry are appended, the job is closed, and nothing else changes |
| Payments.RevenueShareRepeats | src/controllers/financialController.js:137-201 | after a payout the job is closed, and a second payout the remaining escrow covers still succeeds |
| Payments.HandleGetConnectsBalance | src/controllers/financialController.js:3-20 | the read returns `GetConnectsBalance` |
| Payments.HandlePurchaseConnects | src/controllers/financialController.js:22-95 | the in-place update ends in the state and result of `PurchaseConnects` |
| Payments.HandleProcessRevenueShare | src/controllers/financialController.js:115-221 | the in-place update ends in the state and result of `ProcessRevenueShare` |
| JobBoard.FiltersMeanSelected | src/controllers/jobController.js:29-81 | the eight value filters, in the handler's order, together hold of a job exactly when its status, budget range, category, experience, job type, skills and location match |
| JobBoard.WhereAppend | src/controllers/jobController.js:29-93 | appending an `AND` clause conjoins its condition |
| JobBoard.WhereExtends | src/controllers/jobController.js:29-81 | pushing a parameter leaves the clauses that read earlier placeholders unchanged |
| JobBoard.BuildQuery | src/controllers/jobController.js:17-93 | the loop keeps `params.length == paramIndex - 1`: each truthy filter pushes one parameter and adds one clause reading the next placeholder; the bucket adds a clause but no parameter; the finished `WHERE` holds of a job and proposal count iff the record predicate `Selected` does, including the four proposal-count buckets (no proposals counting as 0, any other bucket name restricting nothing) |
| JobBoard.GetJobs | src/controllers/jobController.js:3-105 | exactly the jobs the query selects, newest first |
| JobBoard.PostingFeeOf | src/controllers/jobController.js:147 | the fee is exactly a twentieth of the budget, and between 0 and the budget for a non-negative budget |
| JobBoard.CreateJob | src/controllers/jobController.js:123-222 | not-found unless the poster is an existing client, then refused when the balance row is missing or available is below the fee, with no change; on success (iff) available drops by the fee, pending rises by the whole budget, a `pending` job is appended and one `job_posting_fee` entry with the fee and the new job id is logged |
| JobBoard.SetStatus | src/controllers/jobController.js:224-271 | an existing job gets the new status whatever it had, every other job and table is unchanged; a missing job is not-found |
| JobBoard.ApproveJob | src/controllers/jobController.js:224-245 | succeeds iff the job exists, marks it approved from any status, and leaves balances and proposals unchanged |
| JobBoard.RejectJob | src/controllers/jobController.js:247-271 | succeeds iff the job exists, marks it rejected, and refunds nothing: balances and the log are unchanged |
| JobBoard.RejectionRefundsNothing | src/controllers/jobController.js:147-173 | posting then rejecting a job costs the client the fee and leaves the whole budget in escrow |
| JobBoard.SubmitProposal | src/controllers/jobController.js:273-331 | guards in order (job exists, job approved, freelancer exists, is a freelancer, has at least one connect, has not proposed for the job), each failure with no change; on success (iff) connects drop by exactly one and one `submitted` proposal is appended |
| JobBoard.SubmitProposalKeepsInvariants | src/controllers/jobController.js:303-321 | proposals keep connects non-negative and at most one proposal per job and freelancer |
| JobBoard.GetProposals | src/controllers/jobController.js:333-353 | not-found iff the job is missing; otherwise exactly the job's proposals, newest first |
| JobBoard.InviteFreelancer | src/controllers/jobController.js:355-398 | missing job, then missing user, then not a freelancer, then an existing invitation for the pair: each fails with no change; on success (iff) one `pending` invitation is appended, whatever the job's status |
| JobBoard.InviteKeepsOnePerPair | src/controllers/jobController.js:376-388 | invitations stay at most one per job and freelancer |
| JobBoard.HandleCreateJob | src/controllers/jobController.js:123-222 | the in-place update ends in the state and result of `CreateJob` |
| JobBoard.HandleSetStatus | src/controllers/jobController.js:224-271 | the in-place update ends in the state and result of `SetStatus` |
| JobBoard.HandleSubmitProposal | src/controllers/jobController.js:273-331 | the in-place update ends in the state and result of `SubmitProposal` |
| JobBoard.HandleInviteFreelancer | src/controllers/jobController.js:355-398 | the in-place update ends in the state and result of `InviteFreelancer` |
| Auth.ViewOf | src/controllers/authController.js:25-28 | a user as reported: id, email, type and status, never the password hash |
| Auth.ParseUserType | src/controllers/authController.js:11-13 | only `freelancer`, `client` and `admin` are accepted, each as its own user type |
| Auth.FindByEmail | src/controllers/authController.js:16-19 | finds the first user with the email, or reports that none has it |
| Auth.FindsTheUser | src/controllers/authController.js:53-58 | with unique emails, looking up a user's email finds that user |
| Auth.Signup | src/controllers/authController.js:6-48 | a bad type, then a registered email, is refused with no change; on success (iff) one active user is appended, and a new freelancer, and no one else, gets a connects row of 10 |
| Auth.SignupKeepsEmailsUnique | src/controllers/authController.js:16-30 | signup keeps emails unique |
| Auth.Login | src/controllers/authController.js:50-89 | unknown or missing email is invalid credentials; a non-active account is forbidden before the password is checked; success iff the account is active and the password verifies, reporting that user without the hash |
| Auth.SignupThenLogin | src/controllers/authController.js:6-89 | a new account logs in with a password matching its stored hash |
| Auth.HandleSignup | src/controllers/authController.js:6-48 | the in-place inserts end in the state and result of `Signup` |
| Auth.HandleLogin | src/controllers/authController.js:50-89 | the guard chain returns `Login` |
| Accounts.GetUserById | src/controllers/userController.js:3-21 | the user without the hash iff the id exists, not-found otherwise |
| Accounts.UpdateUser | src/controllers/userController.js:23-50 | an existing user's email is replaced and nothing else changes; not-found otherwise |
| Accounts.SetUserStatus | src/controllers/userController.js:52-95 | an existing user's status is replaced, every other user and table is unchanged; not-found otherwise |
| Accounts.SuspendUser | src/controllers/userController.js:52-73 | succeeds iff the user exists, sets `suspended`, keeps the email and the user's money |
| Accounts.BanUser | src/controllers/userController.js:75-95 | succeeds iff the user exists, sets `banned`, keeps the email and the user's money |
| Accounts.SetUserStatusKeepsEmails | src/controllers/userController.js:56-63 | a status change keeps emails unique |
| Accounts.LoginRefusedAfterSuspendOrBan | src/controllers/userController.js:56-86 | after a suspension or ban, logging in with that email is forbidden whatever the password |
| Accounts.HandleGetUserById | src/controllers/userController.js:3-21 | the read returns `GetUserById` |
| Accounts.HandleUpdateUser | src/controllers/userController.js:23-50 | the in-place update ends in the state and result of `UpdateUser` |
| Accounts.HandleSetUserStatus | src/controllers/userController.js:52-95 | the in-place update ends in the state and result of `SetUserStatus` |
| Ratings.ParseRole | src/controllers/feedbackController.js:15-17 | only `client` and `freelancer` are accepted, each as its own role |
| Ratings.RatingsOf | src/controllers/feedbackController.js:62-66 | every listed rating was received by the user |
| Ratings.RatingsOfCountsEveryRating | src/controllers/feedbackController.js:62-66 | each rating value occurs in `RatingsOf` exactly as many times as the user received it, so the list is what `AVG(rating)` averages |
| Ratings.SumBounds | src/controllers/feedbackController.js:60-66 | a sum of n ratings between lo and hi lies between n·lo and n·hi |
| Ratings.MeanBounds | src/controllers/feedbackController.js:60-66 | an average of ratings in a range lies in that range |
| Ratings.SubmitFeedback | src/controllers/feedbackController.js:3-89 | falsy fields (a rating of 0 included), then a bad role, then a rating outside [0,5], then a missing job, reviewer, reviewee, then a duplicate triple: each fails with no change; on success (iff) one feedback is appended and, for a freelancer reviewee with a profile, the profile's average becomes the mean of all their ratings; nothing else changes |
| Ratings.AverageFoldsInNewRating | src/controllers/feedbackController.js:60-74 | the new average is the old ratings' sum plus the new rating, over their count plus one |
| Ratings.SubmitFeedbackKeepsInvariants | src/controllers/feedbackController.js:42-74 | feedback keeps ratings in (0,5], averages in [0,5] and one feedback per job, reviewer and reviewee |
| Ratings.HandleSubmitFeedback | src/controllers/feedbackController.js:3-89 | the in-place inserts and update end in the state and result of `SubmitFeedback` |
| Invitations.GetInvitations | src/controllers/invitationController.js:3-21 | exactly the freelancer's invitations, newest first |
| Invitations.ParseResponse | src/controllers/invitationController.js:29-31 | only `accepted` and `declined` are accepted, each as its own status |
| Invitations.RespondToInvitation | src/controllers/invitationController.js:23-69 | a bad answer, then a missing invitation, then a caller who is not the invited freelancer, fails with no change; on success (iff) only the invitation's status changes, accepted included |
| Invitations.LaterAnswerWins | src/controllers/invitationController.js:51-60 | a second answer overwrites the first and the invitation keeps its job and freelancer |
| Invitations.HandleGetInvitations | src/controllers/invitationController.js:3-21 | the read returns `GetInvitations` |
| Invitations.HandleRespondToInvitation | src/controllers/invitationController.js:23-69 | the in-place update ends in the state and result of `RespondToInvitation` |
| Products.CreateProduct | src/controllers/digitalProductController.js:3-35 | all five fields truthy (a price of 0 refused), then an existing user, then a freelancer, each failure with no change; on success (iff) one product is appended under the next id |
| Products.UpdateProduct | src/controllers/digitalProductController.js:97-129 | an existing product takes each sent field and keeps each missing or null one, its owner unchanged; not-found otherwise |
| Products.EmptyUpdateKeepsProduct | src/controllers/digitalProductController.js:109-118 | an update that sends nothing changes nothing |
| Products.DeleteProduct | src/controllers/digitalProductController.js:131-151 | not-found iff the product is missing; otherwise that product, and no other, is gone |
| Products.SubmitProductReview | src/controllers/digitalProductController.js:153-217 | a missing reviewer or rating, or a rating outside [0,5], then a missing product, then a missing reviewer, fails with no change (a null rating is stored as null); on success (iff) the pair's existing review is overwritten, or one is inserted |
| Products.ReviewUpsertKeepsOnePerPair | src/controllers/digitalProductController.js:180-208 | the upsert keeps one review per product and reviewer, and the stored review is the one just submitted |
| Products.HandleCreateProduct | src/controllers/digitalProductController.js:3-35 | the in-place insert ends in the state and result of `CreateProduct` |
| Products.HandleUpdateProduct | src/controllers/digitalProductController.js:97-129 | the in-place update ends in the state and result of `UpdateProduct` |
| Products.HandleDeleteProduct | src/controllers/digitalProductController.js:131-151 | the in-place delete ends in the state and result of `DeleteProduct` |
| Products.HandleSubmitProductReview | src/controllers/digitalProductController.js:153-217 | the in-place upsert ends in the state and result of `SubmitProductReview` |
| Profiles.ExperienceOrDefault | src/controllers/profileController.js:32 | a falsy experience level becomes `Entry-Level` |
| Profiles.VisibilityOrDefault | src/controllers/profileController.js:36 | only a missing `is_public` defaults to public; null is stored as null |
| Profiles.CreateProfile | src/controllers/profileController.js:3-48 | an existing profile is refused before the user is looked up, then a missing user, then a non-freelancer; on success (iff) the profile is stored with the sent skills, bio, rate, title and image (null when not sent), the experience level and visibility or their defaults, and no average rating |
| Profiles.GetProfile | src/controllers/profileController.js:50-73 | the profile and exactly its portfolio items newest first iff it exists, not-found otherwise |
| Profiles.GetPortfolioItems | src/controllers/profileController.js:104-127 | exactly the profile's items newest first iff it exists, not-found otherwise |
| Profiles.AddPortfolioItem | src/controllers/profileController.js:75-102 | succeeds iff the profile exists, appending one item under the next id |
| Profiles.NewItemListedFirst | src/controllers/profileController.js:75-127 | a new item heads its owner's portfolio listing |
| Profiles.UpdateProfile | src/controllers/profileController.js:129-170 | an existing profile takes each sent field and keeps each missing or null one, its average rating untouched; not-found otherwise |
| Profiles.EmptyUpdateKeepsProfile | src/controllers/profileController.js:141-154 | an update that sends nothing leaves the profile as it was |
| Profiles.HandleCreateProfile | src/controllers/profileController.js:3-48 | the in-place insert ends in the state and result of `CreateProfile` |
| Profiles.HandleGetProfile | src/controllers/profileController.js:50-73 | the read returns `GetProfile` |
| Profiles.HandleGetPortfolioItems | src/controllers/profileController.js:104-127 | the read returns `GetPortfolioItems` |
| Profiles.HandleAddPortfolioItem | src/controllers/profileController.js:75-102 | the in-place insert ends in the state and result of `AddPortfolioItem` |
| Profiles.HandleUpdateProfile | src/controllers/profileController.js:129-170 | the in-place update ends in the state and result of `UpdateProfile` |
| WorkHistory.EntriesOf | src/controllers/workHistoryController.js:8-16 | exactly the user's live entries, each with its id, in increasing id order and so without repeats |
| WorkHistory.EntriesGrow | src/controllers/workHistoryController.js:8-16 | the user's entries of all rows but the last extend to the whole table |
| WorkHistory.PrependLatest | src/controllers/workHistoryController.js:13-15 | a row starting no earlier than a latest-first list can head it |
| WorkHistory.HeadIsLatest | src/controllers/workHistoryController.js:13-15 | the head of a latest-first list starts no earlier than any later row |
| WorkHistory.Insert | src/controllers/workHistoryController.js:13-15 | inserting into a latest-first list keeps it latest first and adds exactly the one row |
| WorkHistory.SortLatestFirst | src/controllers/workHistoryController.js:13-15 | `ORDER BY start_date DESC`: sorted latest first and a permutation of its input |
| WorkHistory.SortedRowsAreOwnRows | src/controllers/workHistoryController.js:8-16 | the sorted listing holds exactly the user's live entries |
| WorkHistory.GetUserWorkHistory | src/controllers/workHistoryController.js:3-24 | not-found iff the user is missing; otherwise exactly the user's live entries, latest start first |
| WorkHistory.CreateEntry | src/controllers/workHistoryController.js:26-61 | user, company, position and start date required, then an existing user, each failure with no change; on success (iff) one entry is appended, with no end date when `isCurrent` is truthy |
| WorkHistory.CreatedEntryListed | src/controllers/workHistoryController.js:26-61 | a new entry appears in its owner's history |
| WorkHistory.UpdateEntry | src/controllers/workHistoryController.js:63-102 | not-found iff the entry is missing; otherwise the end date is always overwritten (cleared when not sent, null when `isCurrent` is truthy) and every other field keeps its value when missing or null |
| WorkHistory.UpdateKeepsCurrentRule | src/controllers/workHistoryController.js:75-91 | an update that says whether the entry is current, or of an entry not marked current, keeps "current means no end date" |
| WorkHistory.UpdateCanEndCurrentEntry | src/controllers/workHistoryController.js:75-91 | an update of a current entry that sends an end date without `isCurrent` leaves it marked current with an end date |
| WorkHistory.DeleteEntry | src/controllers/workHistoryController.js:104-123 | not-found iff the entry is missing; otherwise that entry, and no other, is gone |
| WorkHistory.DeletedEntryNotListed | src/controllers/workHistoryController.js:104-123 | after a delete the entry is not listed and the owner's other entries still are |
| WorkHistory.HandleGetUserWorkHistory | src/controllers/workHistoryController.js:3-24 | the read returns `GetUserWorkHistory` |
| WorkHistory.HandleCreateEntry | src/controllers/workHistoryController.js:26-61 | the in-place insert ends in the state and result of `CreateEntry` |
| WorkHistory.HandleUpdateEntry | src/controllers/workHistoryController.js:63-102 | `finalEndDate` is reassigned as the handler does, and the update ends in the state and result of `UpdateEntry` |
| WorkHistory.HandleDeleteEntry | src/controllers/workHistoryController.js:104-123 | the in-place delete ends in the state and result of `DeleteEntry` |
| Ledger.OthersUnchanged | src/controllers/balanceController.js:44-52 | a map update confined to some keys leaves every other key's presence and value alone |
| Ledger.ApplyKeepsNonNegative | src/controllers/balanceController.js:84-103 | one admissible request keeps every available, pending and connects amount non-negative |
| Ledger.RunKeepsNonNegative | src/controllers/balanceController.js:84-103 | so does any run of admissible requests |
| Ledger.EmptyIsNonNegative | src/controllers/balanceController.js:3-23 | the empty database has no negative amount |
| Ledger.NegativeBudgetAccepted | src/controllers/jobController.js:147-173 | without the budget assumption, a posting with budget -20 succeeds and leaves a negative escrow |
| Ledger.LoggedConcat | src/controllers/financialController.js:177-195 | what a log says about a user adds up over concatenation |
| Ledger.NoEntriesFor | src/controllers/financialController.js:177-195 | entries for other users say nothing about this one |
| Ledger.LoggedSingle | src/controllers/financialController.js:72-75 | a one-entry log says exactly that entry's effect |
| Ledger.Reconcile | src/controllers/financialController.js:147-195 | a step that changes only some users' rows, by exactly what their new log entries say, keeps every balance matching the log |
| Ledger.Untouched | src/controllers/jobController.js:224-271 | a step that changes neither balances nor the log keeps them matching |
| Ledger.DepositReconciled | src/controllers/balanceController.js:37-58 | a deposit moves available by what its log entry says |
| Ledger.WithdrawReconciled | src/controllers/balanceController.js:94-103 | so does a withdrawal |
| Ledger.PurchaseReconciled | src/controllers/financialController.js:49-75 | so does a connects purchase |
| Ledger.PostJobReconciled | src/controllers/jobController.js:147-203 | a posting moves available by its fee entry and pending by the budget in that entry's details |
| Ledger.RevenueShareReconciled | src/controllers/financialController.js:150-195 | a payout moves the freelancer's available by the `revenue_share` entry and the client's pending by the amount in the `platform_fee` entry, also when client and freelancer are the same user |
| Ledger.ApplyKeepsReconciled | src/controllers/balanceController.js:25-117 | any one request keeps every account's available and pending equal to what its log entries add up to |
| Ledger.RunKeepsReconciled | src/controllers/financialController.js:115-221 | so does any run of requests, with no assumption on the inputs' values |
| Ledger.EmptyIsReconciled | src/controllers/balanceController.js:3-23 | the empty database matches its empty log |

## Left out

- Express wiring is not modelled: the routes, `app.js` and the authentication middleware, which enforces nothing.
- HTTP status codes, JSON response shapes, messages and `console.error` logging are not modelled. Errors are the `Error` datatype.
- The 500 paths for database failures and `ROLLBACK` are left out. Every request is all-or-nothing, and a failure changes nothing.
- Concurrency is left out. Requests are taken one at a time, so the overdraft race is not represented: withdrawals, purchases and postings check sufficiency before `BEGIN`.
- A proposal has no transaction around its connects debit and insert. The failure between the two is a database fault and is not modelled; the guard and success paths are.
- IEEE-754 rounding of `budget * 0.05` and `amount * 0.10` is not modelled: money is exact.
- Auth.Signup: a request without a password is not represented. bcrypt would throw, the handler would answer 500, and nothing would be inserted.
- bcrypt and tokens are not modelled. Signup takes the stored hash as a parameter, login takes password verification as a predicate parameter, and no token is produced.
- `NOW()` timestamps are not modelled. "Newest first" is decreasing row id, and dates are day numbers.
- Display joins are not modelled: reviewer emails in the proposal listing, and job columns in the invitation listing.
- The SQL schema's constraints (foreign keys, unique and not-null) are not part of this model. The handlers' own checks are modelled, and:
  - Auth.Signup: a freelancer's connects row is written with the map update, which would replace an existing row for the new id.
  - Auth.Signup: the email is a string, so a null or missing email is not represented.
  - Funds.AddFunds: a balance row created for a first deposit is given pending 0, taken to be the balances table's default. The insert names only the user and the available amount, and the schema is not part of this model.
  - Payments.ProcessRevenueShare: a balance row created for a payee without one is given pending 0, taken to be the balances table's default, for the same reason. `Ledger.RunKeepsReconciled` and `Ledger.RunKeepsNonNegative` rely on this default.
  - Auth.Signup: the new user's status is `active`, taken to be the users table's default. The insert names no status, and the schema is not part of this model.
  - Accounts.UpdateUser: the new email is a string, so a request without an email, which the handler would store as SQL NULL, is not represented.
  - Accounts.UpdateUser: does not keep emails unique, because the handler does not check; a unique index in the schema, if any, is not modelled.
  - Products.DeleteProduct: the reviews of a deleted product stay, since no cascade is known.
- Payments.ProcessRevenueShare: the amount is a number, so a request without one is not represented. The handler would let it through (`pending_amount < undefined` is false), compute a NaN fee and payout, and the SQL updates would write NULL amounts.
- JobBoard.CreateJob: the budget is a number, so a request without one is not represented. The handler would compute a NaN fee, let it through (`available_amount < NaN` is false), and write a NULL pending amount and budget.
- JobBoard.BuildQuery: `LIKE` wildcards (`%`, `_`) inside a skills or location filter are read as literal characters.
- JobBoard.BuildQuery: query-string values arrive already typed: numbers as numbers, and an empty string where the source would send one. Non-numeric text in a number filter is not modelled.
- Invitations.RespondToInvitation: the loose `!=` between the request's `freelancerId` and the stored id is modelled as id equality. A missing id is refused like a different one.
- The `req.user.userId` fallback is replaced by an explicit caller id parameter.
- `getJobById`, `getDigitalProducts`, `getDigitalProductById` and `getUserFeedback` are single reads with display joins and aggregates, outside the modelled core.
- The category, user-id lookup and learning controllers are not part of this model: their routes are not mounted, or they only select.
