/** A freelancer's invitations and their answers (src/controllers/invitationController.js). */
module Invitations {
  import opened Schema
  import Query
  import Db

  function ToFreelancer(u: Id): (nat, Invitation) -> bool {
    (id: nat, v: Invitation) => v.freelancerId == u
  }

  /** `GET /invitations`: the freelancer's invitations, newest first. */
  function GetInvitations(s: Tables, freelancerId: Id): (r: seq<(nat, Invitation)>)
    ensures Query.Listing(s.invitations, ToFreelancer(freelancerId), r)
  {
    Query.Newest(s.invitations, ToFreelancer(freelancerId))
  }

  /** The answers a freelancer may give. */
  function ParseResponse(response: Arg<string>): (r: Option<InvitationStatus>)
    ensures r.Some? <==> response == Given("accepted") || response == Given("declined")
    ensures r == Some(Accepted) <==> response == Given("accepted")
    ensures r == Some(Declined) <==> response == Given("declined")
    ensures r.Some? ==> r.value != AwaitingReply
  {
    if response == Given("accepted") then Some(Accepted)
    else if response == Given("declined") then Some(Declined)
    else None
  }

  predicate HasInvitation(s: Tables, id: Id) { 1 <= id <= |s.invitations| }

  /** `PUT /invitations/:invitationId/respond`. The caller must name the invited freelancer:
      a missing `freelancerId` is refused like a different one. Accepting does nothing beyond
      the status change, and a later answer replaces an earlier one. */
  function RespondToInvitation(s: Tables, id: Id, response: Arg<string>, freelancerId: Arg<Id>): (r: Step<Invitation>)
    ensures ParseResponse(response).None? ==> r == Step(s, Fail(InvalidInput))
    ensures ParseResponse(response).Some? && !HasInvitation(s, id) ==> r == Step(s, Fail(NotFound(NoInvitation)))
    ensures ParseResponse(response).Some? && HasInvitation(s, id)
            && freelancerId != Given(s.invitations[id - 1].freelancerId) ==>
      r == Step(s, Fail(Forbidden))
    ensures r.out.Ok? <==>
      ParseResponse(response).Some? && HasInvitation(s, id) && freelancerId == Given(s.invitations[id - 1].freelancerId)
    ensures r.out.Ok? ==>
      && r.out.value == s.invitations[id - 1].(status := ParseResponse(response).value)
      && r.next == s.(invitations := s.invitations[id - 1 := r.out.value])
  {
    match ParseResponse(response)
    case None => Step(s, Fail(InvalidInput))
    case Some(status) =>
      if !HasInvitation(s, id) then Step(s, Fail(NotFound(NoInvitation)))
      else
        var v := s.invitations[id - 1];
        if freelancerId != Given(v.freelancerId) then Step(s, Fail(Forbidden))
        else
          var answered := v.(status := status);
          Step(s.(invitations := s.invitations[id - 1 := answered]), Ok(answered))
  }

  /** Answering twice: the second answer is the one that stays, and the invitation keeps its
      job and freelancer. */
  lemma LaterAnswerWins(s: Tables, id: Id, first: Arg<string>, second: Arg<string>, freelancerId: Arg<Id>)
    requires RespondToInvitation(s, id, first, freelancerId).out.Ok?
    requires ParseResponse(second).Some?
    ensures
      var mid := RespondToInvitation(s, id, first, freelancerId).next;
      var end := RespondToInvitation(mid, id, second, freelancerId);
      && end.out.Ok?
      && end.next.invitations[id - 1] == s.invitations[id - 1].(status := ParseResponse(second).value)
      && end.next == s.(invitations := s.invitations[id - 1 := end.out.value])
  {
  }

  method HandleGetInvitations(db: Db.Database, freelancerId: Id) returns (r: seq<(nat, Invitation)>)
    ensures r == GetInvitations(db.Snapshot(), freelancerId)
  {
    r := Query.Newest(db.invitations, ToFreelancer(freelancerId));
  }

  method HandleRespondToInvitation(db: Db.Database, id: Id, response: Arg<string>, freelancerId: Arg<Id>)
    returns (r: Outcome<Invitation>)
    modifies db
    ensures Step(db.Snapshot(), r) == RespondToInvitation(old(db.Snapshot()), id, response, freelancerId)
  {
    var status := ParseResponse(response);
    if status.None? {
      return Fail(InvalidInput);
    }
    if !(1 <= id <= |db.invitations|) {
      return Fail(NotFound(NoInvitation));
    }
    if freelancerId != Given(db.invitations[id - 1].freelancerId) {
      return Fail(Forbidden);
    }
    db.invitations := db.invitations[id - 1 := db.invitations[id - 1].(status := status.value)];
    r := Ok(db.invitations[id - 1]);
  }
}
