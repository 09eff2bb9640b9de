/** Registration and login (src/controllers/authController.js). Hashing a password and
    comparing one against a stored hash are foreign calls: signup receives the hash it
    stores, and login receives the comparison as a predicate. */
module Auth {
  import opened Schema
  import Db

  /** A user row as the handlers report it: never with its password hash. */
  datatype UserView = UserView(id: Id, email: string, userType: UserType, status: UserStatus)

  function ViewOf(s: Tables, id: Id): (v: UserView)
    requires HasUser(s, id)
    ensures v.id == id && v.email == UserAt(s, id).email
    ensures v.userType == UserAt(s, id).userType && v.status == UserAt(s, id).status
  {
    var u := UserAt(s, id);
    UserView(id, u.email, u.userType, u.status)
  }

  /** The `user_type` values signup accepts. */
  function ParseUserType(t: Arg<string>): (r: Option<UserType>)
    ensures r.Some? <==> t.Given? && t.value in {"freelancer", "client", "admin"}
    ensures r == Some(Freelancer) <==> t == Given("freelancer")
    ensures r == Some(Client) <==> t == Given("client")
    ensures r == Some(Admin) <==> t == Given("admin")
  {
    if t == Given("freelancer") then Some(Freelancer)
    else if t == Given("client") then Some(Client)
    else if t == Given("admin") then Some(Admin)
    else None
  }

  /** `SELECT * FROM users WHERE email = $1`, first row: the id of the first user with the
      email, if any. */
  function FindByEmail(users: seq<User>, email: string): (r: Option<Id>)
    ensures r.Some? ==>
      && 1 <= r.value <= |users| && users[r.value - 1].email == email
      && forall k :: 0 <= k < r.value - 1 ==> users[k].email != email
    ensures r.None? ==> forall k :: 0 <= k < |users| ==> users[k].email != email
  {
    if users == [] then None
    else if users[0].email == email then Some(1)
    else
      match FindByEmail(users[1..], email)
      case None => None
      case Some(i) => Some(i + 1)
  }

  ghost predicate UniqueEmails(s: Tables) {
    forall i, k :: 0 <= i < k < |s.users| ==> s.users[i].email != s.users[k].email
  }

  /** Under unique emails, the lookup finds the one user with the email. */
  lemma FindsTheUser(s: Tables, id: Id)
    requires UniqueEmails(s) && HasUser(s, id)
    ensures FindByEmail(s.users, UserAt(s, id).email) == Some(id)
  {
    var r := FindByEmail(s.users, UserAt(s, id).email);
    assert s.users[id - 1].email == UserAt(s, id).email;
  }

  /** The free connects a new freelancer is given. */
  const SignupConnects := 10

  /** `POST /auth/signup`. New rows take the table's default status, active. */
  function Signup(s: Tables, email: string, passwordHash: string, userType: Arg<string>): (r: Step<UserView>)
    ensures ParseUserType(userType).None? ==> r == Step(s, Fail(InvalidInput))
    ensures ParseUserType(userType).Some? && FindByEmail(s.users, email).Some? ==> r == Step(s, Fail(Conflict))
    ensures r.out.Ok? <==>
      ParseUserType(userType).Some? && forall k :: 0 <= k < |s.users| ==> s.users[k].email != email
    ensures r.out.Ok? ==>
      var t := ParseUserType(userType).value;
      && r.next.users == s.users + [User(email, passwordHash, t, Active)]
      && r.out.value == UserView(|s.users| + 1, email, t, Active)
      && (t == Freelancer ==> r.next.connects == s.connects[|s.users| + 1 := SignupConnects])
      && (t != Freelancer ==> r.next.connects == s.connects)
      && r.next == s.(users := r.next.users, connects := r.next.connects)
  {
    match ParseUserType(userType)
    case None => Step(s, Fail(InvalidInput))
    case Some(t) =>
      if FindByEmail(s.users, email).Some? then Step(s, Fail(Conflict))
      else
        var id := |s.users| + 1;
        var users := s.users + [User(email, passwordHash, t, Active)];
        var connects := if t == Freelancer then s.connects[id := SignupConnects] else s.connects;
        Step(s.(users := users, connects := connects), Ok(UserView(id, email, t, Active)))
  }

  /** Signup refuses a registered email, so emails stay unique. */
  lemma SignupKeepsEmailsUnique(s: Tables, email: string, passwordHash: string, userType: Arg<string>)
    requires UniqueEmails(s)
    ensures UniqueEmails(Signup(s, email, passwordHash, userType).next)
  {
    var r := Signup(s, email, passwordHash, userType);
    if r.out.Ok? {
      forall i, k | 0 <= i < k < |r.next.users|
        ensures r.next.users[i].email != r.next.users[k].email
      {
        if k == |s.users| {
          assert r.next.users[i] == s.users[i];
        }
      }
    }
  }

  /** `POST /auth/login`: an unknown (or missing) email and a wrong password are both invalid
      credentials; an account that is not active is refused before its password is
      checked. `verify(password, hash)` is the password comparison. */
  function Login(s: Tables, email: Arg<string>, password: string, verify: (string, string) -> bool): (r: Outcome<UserView>)
    ensures (!email.Given? || FindByEmail(s.users, email.value).None?) ==> r == Fail(InvalidCredentials)
    ensures email.Given? && FindByEmail(s.users, email.value).Some? ==>
      var id := FindByEmail(s.users, email.value).value;
      && (UserAt(s, id).status != Active ==> r == Fail(Forbidden))
      && (UserAt(s, id).status == Active && !verify(password, UserAt(s, id).passwordHash) ==> r == Fail(InvalidCredentials))
    ensures r.Ok? <==>
      && email.Given? && FindByEmail(s.users, email.value).Some?
      && UserAt(s, FindByEmail(s.users, email.value).value).status == Active
      && verify(password, UserAt(s, FindByEmail(s.users, email.value).value).passwordHash)
    ensures r.Ok? ==> HasUser(s, r.value.id) && r.value == ViewOf(s, r.value.id) && r.value.status == Active
  {
    if !email.Given? then Fail(InvalidCredentials)
    else
      match FindByEmail(s.users, email.value)
      case None => Fail(InvalidCredentials)
      case Some(id) =>
        var u := UserAt(s, id);
        if u.status != Active then Fail(Forbidden)
        else if !verify(password, u.passwordHash) then Fail(InvalidCredentials)
        else Ok(ViewOf(s, id))
  }

  /** A freshly registered account can log in with a password that matches the stored hash. */
  lemma SignupThenLogin(s: Tables, email: string, hash: string, userType: Arg<string>,
                        password: string, verify: (string, string) -> bool)
    requires UniqueEmails(s)
    requires Signup(s, email, hash, userType).out.Ok?
    requires verify(password, hash)
    ensures var r := Signup(s, email, hash, userType);
      Login(r.next, Given(email), password, verify) == Ok(r.out.value)
  {
    var r := Signup(s, email, hash, userType);
    SignupKeepsEmailsUnique(s, email, hash, userType);
    FindsTheUser(r.next, |s.users| + 1);
  }

  method HandleSignup(db: Db.Database, email: string, passwordHash: string, userType: Arg<string>)
    returns (r: Outcome<UserView>)
    modifies db
    ensures Step(db.Snapshot(), r) == Signup(old(db.Snapshot()), email, passwordHash, userType)
  {
    var t := ParseUserType(userType);
    if t.None? {
      return Fail(InvalidInput);
    }
    if FindByEmail(db.users, email).Some? {
      return Fail(Conflict);
    }
    db.users := db.users + [User(email, passwordHash, t.value, Active)];
    var id := |db.users|;
    if t.value == Freelancer {
      db.connects := db.connects[id := SignupConnects];
    }
    r := Ok(UserView(id, email, t.value, Active));
  }

  method HandleLogin(db: Db.Database, email: Arg<string>, password: string, verify: (string, string) -> bool)
    returns (r: Outcome<UserView>)
    ensures r == Login(db.Snapshot(), email, password, verify)
  {
    if !email.Given? {
      return Fail(InvalidCredentials);
    }
    var found := FindByEmail(db.users, email.value);
    if found.None? {
      return Fail(InvalidCredentials);
    }
    var u := db.users[found.value - 1];
    if u.status != Active {
      return Fail(Forbidden);
    }
    if !verify(password, u.passwordHash) {
      return Fail(InvalidCredentials);
    }
    r := Ok(UserView(found.value, u.email, u.userType, u.status));
  }
}
