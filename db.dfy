/** The database the request handlers update in place: one mutable field per table. */
module Db {
  import opened Schema

  class Database {
    var users: seq<User>
    var balances: map<Id, Balance>
    var connects: map<Id, int>
    var jobs: seq<Job>
    var proposals: seq<Proposal>
    var invitations: seq<Invitation>
    var txns: seq<Txn>
    var feedback: seq<Feedback>
    var profiles: map<Id, Profile>
    var portfolio: seq<PortfolioItem>
    var products: seq<Option<Product>>
    var reviews: seq<Review>
    var workHistory: seq<Option<Entry>>

    /** The contents of every table, as a value. */
    function Snapshot(): Tables
      reads this
    {
      Tables(users, balances, connects, jobs, proposals, invitations, txns,
             feedback, profiles, portfolio, products, reviews, workHistory)
    }

    constructor ()
      ensures Snapshot() == EmptyTables()
    {
      users, balances, connects := [], map[], map[];
      jobs, proposals, invitations, txns := [], [], [], [];
      feedback, profiles, portfolio := [], map[], [];
      products, reviews, workHistory := [], [], [];
    }
  }
}
