/** Feedback on a job, and the average rating kept on a freelancer's profile
    (src/controllers/feedbackController.js). */
module Ratings {
  import opened Schema
  import Db

  /** The body of a feedback request. */
  datatype FeedbackArgs = FeedbackArgs(
    jobId: Arg<Id>,
    reviewerId: Arg<Id>,
    revieweeId: Arg<Id>,
    rating: Arg<real>,
    comment: Arg<string>,
    role: Arg<string>)

  /** Every required field truthy: a rating of 0 counts as missing. */
  predicate AllGiven(a: FeedbackArgs) {
    IdGiven(a.jobId) && IdGiven(a.reviewerId) && IdGiven(a.revieweeId) && NonZero(a.rating) && FilledText(a.role)
  }

  function ParseRole(role: string): (r: Option<Role>)
    ensures r.Some? <==> role == "client" || role == "freelancer"
    ensures r == Some(ClientRole) <==> role == "client"
    ensures r == Some(FreelancerRole) <==> role == "freelancer"
  {
    if role == "client" then Some(ClientRole)
    else if role == "freelancer" then Some(FreelancerRole)
    else None
  }

  /** The checks on the fields alone, before the database is read. */
  predicate WellFormed(a: FeedbackArgs) {
    && AllGiven(a)
    && ParseRole(a.role.value).Some?
    && 0.0 <= a.rating.value <= 5.0
  }

  predicate HasFeedback(s: Tables, jobId: Id, reviewerId: Id, revieweeId: Id) {
    exists f :: f in s.feedback && f.jobId == jobId && f.reviewerId == reviewerId && f.revieweeId == revieweeId
  }

  ghost predicate OneFeedbackPerTriple(s: Tables) {
    forall i, k :: 0 <= i < k < |s.feedback| ==>
      (s.feedback[i].jobId, s.feedback[i].reviewerId, s.feedback[i].revieweeId)
      != (s.feedback[k].jobId, s.feedback[k].reviewerId, s.feedback[k].revieweeId)
  }

  /** The ratings a user has received, in id order. */
  function RatingsOf(fb: seq<Feedback>, u: Id): (r: seq<real>)
    ensures |r| <= |fb|
    ensures forall x :: x in r ==> exists f :: f in fb && f.revieweeId == u && f.rating == x
  {
    if fb == [] then []
    else
      var last := fb[|fb| - 1];
      RatingsOf(fb[..|fb| - 1], u) + (if last.revieweeId == u then [last.rating] else [])
  }

  /** The positions of `fb` holding a feedback that gives `u` the rating `x`. */
  function Received(fb: seq<Feedback>, u: Id, x: real): set<int> {
    set i | 0 <= i < |fb| && fb[i].revieweeId == u && fb[i].rating == x
  }

  lemma ReceivedStep(fb: seq<Feedback>, u: Id, x: real)
    requires fb != []
    ensures |Received(fb, u, x)| ==
      |Received(fb[..|fb| - 1], u, x)| + (if fb[|fb| - 1].revieweeId == u && fb[|fb| - 1].rating == x then 1 else 0)
  {
    var init, last := fb[..|fb| - 1], fb[|fb| - 1];
    var earlier := Received(init, u, x);
    var extra := if last.revieweeId == u && last.rating == x then {|init|} else {};
    forall i ensures i in Received(fb, u, x) <==> i in earlier + extra {
      if 0 <= i < |init| {
        assert fb[i] == init[i];
      }
    }
    assert Received(fb, u, x) == earlier + extra;
    assert |init| !in earlier;
    assert |earlier + extra| == |earlier| + |extra|;
  }

  /** `RatingsOf` lists every rating `u` received, as often as it was received: what SQL
      `AVG(rating) ... WHERE reviewee_id = u` averages over. */
  lemma {:induction false} RatingsOfCountsEveryRating(fb: seq<Feedback>, u: Id, x: real)
    ensures multiset(RatingsOf(fb, u))[x] == |Received(fb, u, x)|
    decreases |fb|
  {
    if fb == [] {
      assert Received(fb, u, x) == {};
    } else {
      var init, last := fb[..|fb| - 1], fb[|fb| - 1];
      RatingsOfCountsEveryRating(init, u, x);
      ReceivedStep(fb, u, x);
      var tail := if last.revieweeId == u then [last.rating] else [];
      assert RatingsOf(fb, u) == RatingsOf(init, u) + tail;
      assert multiset(RatingsOf(fb, u)) == multiset(RatingsOf(init, u)) + multiset(tail);
      assert multiset(tail)[x] == if last.revieweeId == u && last.rating == x then 1 else 0;
    }
  }

  function Sum(xs: seq<real>): real {
    if xs == [] then 0.0 else Sum(xs[..|xs| - 1]) + xs[|xs| - 1]
  }

  /** SQL `AVG(rating)` over a non-empty set of rows. */
  function Mean(xs: seq<real>): real
    requires xs != []
  {
    Sum(xs) / (|xs| as real)
  }

  lemma {:induction false} SumBounds(xs: seq<real>, lo: real, hi: real)
    requires forall x :: x in xs ==> lo <= x <= hi
    ensures (|xs| as real) * lo <= Sum(xs) <= (|xs| as real) * hi
    decreases |xs|
  {
    if xs != [] {
      var init, last := xs[..|xs| - 1], xs[|xs| - 1];
      assert forall x :: x in init ==> x in xs;
      SumBounds(init, lo, hi);
      assert last in xs;
      assert Sum(xs) == Sum(init) + last;
      var m := |init| as real;
      assert |xs| as real == m + 1.0;
      assert (m + 1.0) * lo == m * lo + lo;
      assert (m + 1.0) * hi == m * hi + hi;
    }
  }

  lemma QuotientAtLeast(a: real, n: real, lo: real)
    requires n > 0.0 && n * lo <= a
    ensures lo <= a / n
  {
    assert a / n * n == a;
  }

  lemma QuotientAtMost(a: real, n: real, hi: real)
    requires n > 0.0 && a <= n * hi
    ensures a / n <= hi
  {
    assert a / n * n == a;
  }

  /** An average of ratings between `lo` and `hi` lies between them too. */
  lemma MeanBounds(xs: seq<real>, lo: real, hi: real)
    requires xs != []
    requires forall x :: x in xs ==> lo <= x <= hi
    ensures lo <= Mean(xs) <= hi
  {
    SumBounds(xs, lo, hi);
    var n := |xs| as real;
    QuotientAtLeast(Sum(xs), n, lo);
    QuotientAtMost(Sum(xs), n, hi);
  }

  /** Every stored rating passed the handler's checks. */
  ghost predicate RatingsInRange(s: Tables) {
    forall f :: f in s.feedback ==> 0.0 < f.rating <= 5.0
  }

  ghost predicate AveragesInRange(s: Tables) {
    forall u :: u in s.profiles && s.profiles[u].averageRating.Some? ==>
      0.0 <= s.profiles[u].averageRating.value <= 5.0
  }

  /** `POST /feedback`: validates the fields, then requires the job, the reviewer and the
      reviewee, in that order, and no earlier feedback for the same triple. When the reviewee
      is a freelancer, the average of all the ratings they have received is written to their
      profile (an update that finds no profile changes nothing). */
  function SubmitFeedback(s: Tables, a: FeedbackArgs): (r: Step<Feedback>)
    ensures !AllGiven(a) ==> r == Step(s, Fail(InvalidInput))
    ensures AllGiven(a) && ParseRole(a.role.value).None? ==> r == Step(s, Fail(InvalidInput))
    ensures AllGiven(a) && !(0.0 <= a.rating.value <= 5.0) ==> r == Step(s, Fail(InvalidInput))
    ensures WellFormed(a) && !HasJob(s, a.jobId.value) ==> r == Step(s, Fail(NotFound(NoJob)))
    ensures WellFormed(a) && HasJob(s, a.jobId.value) && !HasUser(s, a.reviewerId.value) ==>
      r == Step(s, Fail(NotFound(NoReviewer)))
    ensures WellFormed(a) && HasJob(s, a.jobId.value) && HasUser(s, a.reviewerId.value) && !HasUser(s, a.revieweeId.value) ==>
      r == Step(s, Fail(NotFound(NoReviewee)))
    ensures r.out.Ok? <==>
      && WellFormed(a) && HasJob(s, a.jobId.value) && HasUser(s, a.reviewerId.value) && HasUser(s, a.revieweeId.value)
      && !HasFeedback(s, a.jobId.value, a.reviewerId.value, a.revieweeId.value)
    ensures r.out.Ok? ==>
      var u := a.revieweeId.value;
      && r.out.value == Feedback(a.jobId.value, a.reviewerId.value, u, a.rating.value, Stored(a.comment),
                                 ParseRole(a.role.value).value)
      && r.next.feedback == s.feedback + [r.out.value]
      && (IsUserOfType(s, u, Freelancer) && u in s.profiles ==>
            r.next.profiles == s.profiles[u := s.profiles[u].(averageRating := Some(Mean(RatingsOf(r.next.feedback, u))))])
      && (!IsUserOfType(s, u, Freelancer) || u !in s.profiles ==> r.next.profiles == s.profiles)
      && r.next == s.(feedback := r.next.feedback, profiles := r.next.profiles)
  {
    if !AllGiven(a) then Step(s, Fail(InvalidInput))
    else match ParseRole(a.role.value)
      case None => Step(s, Fail(InvalidInput))
      case Some(role) =>
        var jobId, reviewer, reviewee, rating := a.jobId.value, a.reviewerId.value, a.revieweeId.value, a.rating.value;
        if rating < 0.0 || rating > 5.0 then Step(s, Fail(InvalidInput))
        else if !HasJob(s, jobId) then Step(s, Fail(NotFound(NoJob)))
        else if !HasUser(s, reviewer) then Step(s, Fail(NotFound(NoReviewer)))
        else if !HasUser(s, reviewee) then Step(s, Fail(NotFound(NoReviewee)))
        else if HasFeedback(s, jobId, reviewer, reviewee) then Step(s, Fail(Conflict))
        else
          var f := Feedback(jobId, reviewer, reviewee, rating, Stored(a.comment), role);
          Step(Recorded(s, f), Ok(f))
  }

  /** The database once feedback `f` is stored: the feedback is appended, and a freelancer
      reviewee's profile, if any, gets the average of all their ratings. */
  function Recorded(s: Tables, f: Feedback): Tables
    requires HasUser(s, f.revieweeId)
  {
    var fb := s.feedback + [f];
    var u := f.revieweeId;
    var profiles :=
      if UserAt(s, u).userType == Freelancer && u in s.profiles
      then s.profiles[u := s.profiles[u].(averageRating := Some(Mean(RatingsOf(fb, u))))]
      else s.profiles;
    s.(feedback := fb, profiles := profiles)
  }

  /** The new average folds the new rating into the reviewee's earlier ones. */
  lemma AverageFoldsInNewRating(s: Tables, a: FeedbackArgs)
    requires SubmitFeedback(s, a).out.Ok?
    ensures var u := a.revieweeId.value;
      RatingsOf(SubmitFeedback(s, a).next.feedback, u) == RatingsOf(s.feedback, u) + [a.rating.value]
    ensures var u := a.revieweeId.value;
      Mean(RatingsOf(SubmitFeedback(s, a).next.feedback, u))
        == (Sum(RatingsOf(s.feedback, u)) + a.rating.value) / ((|RatingsOf(s.feedback, u)| + 1) as real)
  {
    var fb := SubmitFeedback(s, a).next.feedback;
    assert fb[..|fb| - 1] == s.feedback;
  }

  /** Feedback keeps ratings in range, averages in range, and one feedback per job, reviewer
      and reviewee. */
  lemma SubmitFeedbackKeepsInvariants(s: Tables, a: FeedbackArgs)
    requires RatingsInRange(s) && AveragesInRange(s) && OneFeedbackPerTriple(s)
    ensures var n := SubmitFeedback(s, a).next;
      RatingsInRange(n) && AveragesInRange(n) && OneFeedbackPerTriple(n)
  {
    var r := SubmitFeedback(s, a);
    if r.out.Ok? {
      var u := a.revieweeId.value;
      var fb := r.next.feedback;
      assert RatingsInRange(r.next);
      if IsUserOfType(s, u, Freelancer) && u in s.profiles {
        var xs := RatingsOf(fb, u);
        AverageFoldsInNewRating(s, a);
        assert xs != [];
        MeanBounds(xs, 0.0, 5.0);
      }
      forall i, k | 0 <= i < k < |fb|
        ensures (fb[i].jobId, fb[i].reviewerId, fb[i].revieweeId) != (fb[k].jobId, fb[k].reviewerId, fb[k].revieweeId)
      {
        if k == |s.feedback| {
          assert fb[i] in s.feedback;
        }
      }
    }
  }

  method HandleSubmitFeedback(db: Db.Database, a: FeedbackArgs) returns (r: Outcome<Feedback>)
    modifies db
    ensures Step(db.Snapshot(), r) == SubmitFeedback(old(db.Snapshot()), a)
  {
    ghost var s := db.Snapshot();
    if !AllGiven(a) {
      return Fail(InvalidInput);
    }
    var role := ParseRole(a.role.value);
    if role.None? {
      return Fail(InvalidInput);
    }
    var jobId, reviewer, reviewee, rating := a.jobId.value, a.reviewerId.value, a.revieweeId.value, a.rating.value;
    if rating < 0.0 || rating > 5.0 {
      return Fail(InvalidInput);
    }
    if !(1 <= jobId <= |db.jobs|) {
      return Fail(NotFound(NoJob));
    }
    if !(1 <= reviewer <= |db.users|) {
      return Fail(NotFound(NoReviewer));
    }
    if !(1 <= reviewee <= |db.users|) {
      return Fail(NotFound(NoReviewee));
    }
    if HasFeedback(db.Snapshot(), jobId, reviewer, reviewee) {
      return Fail(Conflict);
    }
    var f := Feedback(jobId, reviewer, reviewee, rating, Stored(a.comment), role.value);
    db.feedback := db.feedback + [f];
    if db.users[reviewee - 1].userType == Freelancer {
      var average := Mean(RatingsOf(db.feedback, reviewee));
      if reviewee in db.profiles {
        db.profiles := db.profiles[reviewee := db.profiles[reviewee].(averageRating := Some(average))];
      }
    }
    r := Ok(f);
    assert db.Snapshot() == Recorded(s, f);
  }
}
