/** Reading a user, changing a user's email, and suspending or banning an account
    (src/controllers/userController.js). */
module Accounts {
  import opened Schema
  import Auth
  import Db

  /** `GET /users/:userId`. */
  function GetUserById(s: Tables, id: Id): (r: Outcome<Auth.UserView>)
    ensures r.Ok? <==> HasUser(s, id)
    ensures r.Fail? ==> r.error == NotFound(NoUser)
    ensures r.Ok? ==> r.value == Auth.ViewOf(s, id)
  {
    if HasUser(s, id) then Ok(Auth.ViewOf(s, id)) else Fail(NotFound(NoUser))
  }

  /** `PUT /users/:userId`: sets the email, with no check that another account holds it. */
  function UpdateUser(s: Tables, id: Id, email: string): (r: Step<Auth.UserView>)
    ensures !HasUser(s, id) ==> r == Step(s, Fail(NotFound(NoUser)))
    ensures HasUser(s, id) ==>
      && |r.next.users| == |s.users|
      && r.next.users[id - 1] == UserAt(s, id).(email := email)
      && (forall k :: 0 <= k < |s.users| && k != id - 1 ==> r.next.users[k] == s.users[k])
      && r.next == s.(users := r.next.users)
      && r.out == Ok(Auth.ViewOf(r.next, id))
  {
    if !HasUser(s, id) then Step(s, Fail(NotFound(NoUser)))
    else
      var next := s.(users := s.users[id - 1 := UserAt(s, id).(email := email)]);
      Step(next, Ok(Auth.ViewOf(next, id)))
  }

  /** The update behind `PUT /users/:userId/suspend` and `/ban`: only the status changes. */
  function SetUserStatus(s: Tables, id: Id, status: UserStatus): (r: Step<Auth.UserView>)
    ensures !HasUser(s, id) ==> r == Step(s, Fail(NotFound(NoUser)))
    ensures HasUser(s, id) ==>
      && |r.next.users| == |s.users|
      && r.next.users[id - 1] == UserAt(s, id).(status := status)
      && (forall k :: 0 <= k < |s.users| && k != id - 1 ==> r.next.users[k] == s.users[k])
      && r.next == s.(users := r.next.users)
      && r.out == Ok(Auth.UserView(id, UserAt(s, id).email, UserAt(s, id).userType, status))
  {
    if !HasUser(s, id) then Step(s, Fail(NotFound(NoUser)))
    else
      var next := s.(users := s.users[id - 1 := UserAt(s, id).(status := status)]);
      Step(next, Ok(Auth.ViewOf(next, id)))
  }

  /** Suspension and banning only change the status: the account keeps its money and email. */
  function SuspendUser(s: Tables, id: Id): (r: Step<Auth.UserView>)
    ensures r.out.Ok? <==> HasUser(s, id)
    ensures r.out.Ok? ==> r.out.value.status == Suspended && HasUser(r.next, id) && UserAt(r.next, id).status == Suspended
    ensures r.out.Ok? ==> UserAt(r.next, id).email == UserAt(s, id).email && r.next.balances == s.balances
  {
    SetUserStatus(s, id, Suspended)
  }

  function BanUser(s: Tables, id: Id): (r: Step<Auth.UserView>)
    ensures r.out.Ok? <==> HasUser(s, id)
    ensures r.out.Ok? ==> r.out.value.status == Banned && HasUser(r.next, id) && UserAt(r.next, id).status == Banned
    ensures r.out.Ok? ==> UserAt(r.next, id).email == UserAt(s, id).email && r.next.balances == s.balances
  {
    SetUserStatus(s, id, Banned)
  }

  /** Changing a status keeps every email, so it keeps emails unique. */
  lemma SetUserStatusKeepsEmails(s: Tables, id: Id, status: UserStatus)
    requires Auth.UniqueEmails(s)
    ensures Auth.UniqueEmails(SetUserStatus(s, id, status).next)
  {
    var n := SetUserStatus(s, id, status).next;
    forall i, k | 0 <= i < k < |n.users|
      ensures n.users[i].email != n.users[k].email
    {
      assert n.users[i].email == s.users[i].email && n.users[k].email == s.users[k].email;
    }
  }

  /** Once an account is suspended or banned, logging in with its email is refused as
      forbidden, whatever the password. */
  lemma LoginRefusedAfterSuspendOrBan(s: Tables, id: Id, status: UserStatus, password: string,
                                      verify: (string, string) -> bool)
    requires Auth.UniqueEmails(s) && HasUser(s, id) && status != Active
    ensures
      var n := SetUserStatus(s, id, status).next;
      Auth.Login(n, Given(UserAt(s, id).email), password, verify) == Fail(Forbidden)
  {
    var n := SetUserStatus(s, id, status).next;
    SetUserStatusKeepsEmails(s, id, status);
    Auth.FindsTheUser(n, id);
  }

  method HandleGetUserById(db: Db.Database, id: Id) returns (r: Outcome<Auth.UserView>)
    ensures r == GetUserById(db.Snapshot(), id)
  {
    if !(1 <= id <= |db.users|) {
      return Fail(NotFound(NoUser));
    }
    var u := db.users[id - 1];
    r := Ok(Auth.UserView(id, u.email, u.userType, u.status));
  }

  method HandleUpdateUser(db: Db.Database, id: Id, email: string) returns (r: Outcome<Auth.UserView>)
    modifies db
    ensures Step(db.Snapshot(), r) == UpdateUser(old(db.Snapshot()), id, email)
  {
    if !(1 <= id <= |db.users|) {
      return Fail(NotFound(NoUser));
    }
    db.users := db.users[id - 1 := db.users[id - 1].(email := email)];
    var u := db.users[id - 1];
    r := Ok(Auth.UserView(id, u.email, u.userType, u.status));
  }

  method HandleSetUserStatus(db: Db.Database, id: Id, status: UserStatus) returns (r: Outcome<Auth.UserView>)
    modifies db
    ensures Step(db.Snapshot(), r) == SetUserStatus(old(db.Snapshot()), id, status)
  {
    if !(1 <= id <= |db.users|) {
      return Fail(NotFound(NoUser));
    }
    db.users := db.users[id - 1 := db.users[id - 1].(status := status)];
    var u := db.users[id - 1];
    r := Ok(Auth.UserView(id, u.email, u.userType, u.status));
  }
}
