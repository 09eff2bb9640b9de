/** Freelancer profiles and their portfolio items (src/controllers/profileController.js).
    A user has at most one profile, so profiles are keyed by user id and a portfolio item
    names the user whose profile it belongs to. */
module Profiles {
  import opened Schema
  import Query
  import Db

  datatype ProfileArgs = ProfileArgs(
    skills: Arg<string>,
    bio: Arg<string>,
    experienceLevel: Arg<string>,
    hourlyRate: Arg<real>,
    title: Arg<string>,
    profileImage: Arg<string>,
    isPublic: Arg<bool>)

  const DefaultExperience := "Entry-Level"

  /** `experienceLevel || 'Entry-Level'`. */
  function ExperienceOrDefault(a: Arg<string>): (r: string)
    ensures FilledText(a) ==> r == a.value
    ensures !FilledText(a) ==> r == DefaultExperience
  {
    if FilledText(a) then a.value else DefaultExperience
  }

  /** `is_public === undefined ? true : is_public`: only a field left out defaults to public;
      one sent as null is stored as null. */
  function VisibilityOrDefault(a: Arg<bool>): (r: Option<bool>)
    ensures a == Absent ==> r == Some(true)
    ensures a == Null ==> r == None
    ensures a.Given? ==> r == Some(a.value)
  {
    match a
    case Absent => Some(true)
    case Null => None
    case Given(b) => Some(b)
  }

  function NewProfile(a: ProfileArgs): Profile {
    Profile(Stored(a.skills), Stored(a.bio), Some(ExperienceOrDefault(a.experienceLevel)), Stored(a.hourlyRate),
            Stored(a.title), Stored(a.profileImage), VisibilityOrDefault(a.isPublic), None)
  }

  /** `POST /profiles`: an existing profile is refused before the user is looked up. */
  function CreateProfile(s: Tables, u: Id, a: ProfileArgs): (r: Step<Profile>)
    ensures u in s.profiles ==> r == Step(s, Fail(Conflict))
    ensures u !in s.profiles && !HasUser(s, u) ==> r == Step(s, Fail(NotFound(NoUser)))
    ensures u !in s.profiles && HasUser(s, u) && UserAt(s, u).userType != Freelancer ==> r == Step(s, Fail(WrongRole))
    ensures r.out.Ok? <==> u !in s.profiles && IsUserOfType(s, u, Freelancer)
    ensures r.out.Ok? ==>
      && r.out.value.experienceLevel.Some?
      && (r.out.value.experienceLevel.value == DefaultExperience <==>
            !FilledText(a.experienceLevel) || a.experienceLevel.value == DefaultExperience)
      && (a.isPublic == Absent ==> r.out.value.isPublic == Some(true))
      && r.out.value.averageRating == None
      && r.next == s.(profiles := s.profiles[u := r.out.value])
    ensures r.out.Ok? ==>
      && r.out.value.skills == Stored(a.skills)
      && r.out.value.bio == Stored(a.bio)
      && r.out.value.experienceLevel == Some(ExperienceOrDefault(a.experienceLevel))
      && r.out.value.hourlyRate == Stored(a.hourlyRate)
      && r.out.value.title == Stored(a.title)
      && r.out.value.profileImage == Stored(a.profileImage)
      && r.out.value.isPublic == VisibilityOrDefault(a.isPublic)
  {
    if u in s.profiles then Step(s, Fail(Conflict))
    else if !HasUser(s, u) then Step(s, Fail(NotFound(NoUser)))
    else if UserAt(s, u).userType != Freelancer then Step(s, Fail(WrongRole))
    else
      var p := NewProfile(a);
      Step(s.(profiles := s.profiles[u := p]), Ok(p))
  }

  function OfOwner(u: Id): (nat, PortfolioItem) -> bool {
    (id: nat, item: PortfolioItem) => item.ownerId == u
  }

  datatype ProfilePage = ProfilePage(profile: Profile, items: seq<(nat, PortfolioItem)>)

  /** `GET /profiles/:userId`: the profile and its portfolio items, newest first. */
  function GetProfile(s: Tables, u: Id): (r: Outcome<ProfilePage>)
    ensures r.Ok? <==> u in s.profiles
    ensures r.Fail? ==> r.error == NotFound(NoProfile)
    ensures r.Ok? ==> r.value.profile == s.profiles[u] && Query.Listing(s.portfolio, OfOwner(u), r.value.items)
  {
    if u !in s.profiles then Fail(NotFound(NoProfile))
    else Ok(ProfilePage(s.profiles[u], Query.Newest(s.portfolio, OfOwner(u))))
  }

  /** `GET /profiles/:userId/portfolio`. */
  function GetPortfolioItems(s: Tables, u: Id): (r: Outcome<seq<(nat, PortfolioItem)>>)
    ensures r.Ok? <==> u in s.profiles
    ensures r.Fail? ==> r.error == NotFound(NoProfile)
    ensures r.Ok? ==> Query.Listing(s.portfolio, OfOwner(u), r.value)
  {
    if u !in s.profiles then Fail(NotFound(NoProfile)) else Ok(Query.Newest(s.portfolio, OfOwner(u)))
  }

  /** `POST /profiles/:userId/portfolio`: no field is required. */
  function AddPortfolioItem(s: Tables, u: Id, projectTitle: Arg<string>, description: Arg<string>, mediaLinks: Arg<string>)
    : (r: Step<(Id, PortfolioItem)>)
    ensures r.out.Ok? <==> u in s.profiles
    ensures u !in s.profiles ==> r == Step(s, Fail(NotFound(NoProfile)))
    ensures r.out.Ok? ==>
      && r.out.value == (|s.portfolio| + 1, PortfolioItem(u, Stored(projectTitle), Stored(description), Stored(mediaLinks)))
      && r.next == s.(portfolio := s.portfolio + [r.out.value.1])
  {
    if u !in s.profiles then Step(s, Fail(NotFound(NoProfile)))
    else
      var item := PortfolioItem(u, Stored(projectTitle), Stored(description), Stored(mediaLinks));
      Step(s.(portfolio := s.portfolio + [item]), Ok((|s.portfolio| + 1, item)))
  }

  /** A new item heads its owner's portfolio listing. */
  lemma NewItemListedFirst(s: Tables, u: Id, projectTitle: Arg<string>, description: Arg<string>, mediaLinks: Arg<string>)
    requires u in s.profiles
    ensures
      var r := AddPortfolioItem(s, u, projectTitle, description, mediaLinks);
      var items := GetPortfolioItems(r.next, u);
      items.Ok? && |items.value| > 0 && items.value[0] == r.out.value
  {
    var r := AddPortfolioItem(s, u, projectTitle, description, mediaLinks);
    var rows := GetPortfolioItems(r.next, u).value;
    var n := |r.next.portfolio|;
    assert r.next.portfolio[n - 1] == r.out.value.1;
    assert (n, r.next.portfolio[n - 1]) in rows;
  }

  /** `PUT /profiles/:userId`: each field sent replaces the column, each field left out or
      sent as null keeps it; the average rating is not touched. */
  function UpdateProfile(s: Tables, u: Id, a: ProfileArgs): (r: Step<ProfilePage>)
    ensures r.out.Ok? <==> u in s.profiles
    ensures u !in s.profiles ==> r == Step(s, Fail(NotFound(NoProfile)))
    ensures r.out.Ok? ==>
      var p, q := s.profiles[u], r.out.value.profile;
      && q.skills == (if a.skills.Given? then Some(a.skills.value) else p.skills)
      && q.bio == (if a.bio.Given? then Some(a.bio.value) else p.bio)
      && q.experienceLevel == (if a.experienceLevel.Given? then Some(a.experienceLevel.value) else p.experienceLevel)
      && q.hourlyRate == (if a.hourlyRate.Given? then Some(a.hourlyRate.value) else p.hourlyRate)
      && q.title == (if a.title.Given? then Some(a.title.value) else p.title)
      && q.profileImage == (if a.profileImage.Given? then Some(a.profileImage.value) else p.profileImage)
      && q.isPublic == (if a.isPublic.Given? then Some(a.isPublic.value) else p.isPublic)
      && q.averageRating == p.averageRating
      && r.next == s.(profiles := s.profiles[u := q])
      && Query.Listing(s.portfolio, OfOwner(u), r.out.value.items)
  {
    if u !in s.profiles then Step(s, Fail(NotFound(NoProfile)))
    else
      var p := s.profiles[u];
      var q := p.(skills := CoalesceColumn(a.skills, p.skills),
                  bio := CoalesceColumn(a.bio, p.bio),
                  experienceLevel := CoalesceColumn(a.experienceLevel, p.experienceLevel),
                  hourlyRate := CoalesceColumn(a.hourlyRate, p.hourlyRate),
                  title := CoalesceColumn(a.title, p.title),
                  profileImage := CoalesceColumn(a.profileImage, p.profileImage),
                  isPublic := CoalesceColumn(a.isPublic, p.isPublic));
      Step(s.(profiles := s.profiles[u := q]), Ok(ProfilePage(q, Query.Newest(s.portfolio, OfOwner(u)))))
  }

  /** An update that sends nothing leaves the profile as it was. */
  lemma EmptyUpdateKeepsProfile(s: Tables, u: Id)
    requires u in s.profiles
    ensures var r := UpdateProfile(s, u, ProfileArgs(Absent, Null, Absent, Null, Absent, Null, Absent));
      r.next == s && r.out.value.profile == s.profiles[u]
  {
    var r := UpdateProfile(s, u, ProfileArgs(Absent, Null, Absent, Null, Absent, Null, Absent));
    assert r.out.value.profile == s.profiles[u];
    assert s.profiles[u := s.profiles[u]] == s.profiles;
  }

  method HandleCreateProfile(db: Db.Database, u: Id, a: ProfileArgs) returns (r: Outcome<Profile>)
    modifies db
    ensures Step(db.Snapshot(), r) == CreateProfile(old(db.Snapshot()), u, a)
  {
    if u in db.profiles {
      return Fail(Conflict);
    }
    if !(1 <= u <= |db.users|) {
      return Fail(NotFound(NoUser));
    }
    if db.users[u - 1].userType != Freelancer {
      return Fail(WrongRole);
    }
    var p := NewProfile(a);
    db.profiles := db.profiles[u := p];
    r := Ok(p);
  }

  method HandleGetProfile(db: Db.Database, u: Id) returns (r: Outcome<ProfilePage>)
    ensures r == GetProfile(db.Snapshot(), u)
  {
    if u !in db.profiles {
      return Fail(NotFound(NoProfile));
    }
    r := Ok(ProfilePage(db.profiles[u], Query.Newest(db.portfolio, OfOwner(u))));
  }

  method HandleGetPortfolioItems(db: Db.Database, u: Id) returns (r: Outcome<seq<(nat, PortfolioItem)>>)
    ensures r == GetPortfolioItems(db.Snapshot(), u)
  {
    if u !in db.profiles {
      return Fail(NotFound(NoProfile));
    }
    r := Ok(Query.Newest(db.portfolio, OfOwner(u)));
  }

  method HandleAddPortfolioItem(db: Db.Database, u: Id, projectTitle: Arg<string>, description: Arg<string>,
                                mediaLinks: Arg<string>) returns (r: Outcome<(Id, PortfolioItem)>)
    modifies db
    ensures Step(db.Snapshot(), r) == AddPortfolioItem(old(db.Snapshot()), u, projectTitle, description, mediaLinks)
  {
    if u !in db.profiles {
      return Fail(NotFound(NoProfile));
    }
    var item := PortfolioItem(u, Stored(projectTitle), Stored(description), Stored(mediaLinks));
    db.portfolio := db.portfolio + [item];
    r := Ok((|db.portfolio|, item));
  }

  method HandleUpdateProfile(db: Db.Database, u: Id, a: ProfileArgs) returns (r: Outcome<ProfilePage>)
    modifies db
    ensures Step(db.Snapshot(), r) == UpdateProfile(old(db.Snapshot()), u, a)
  {
    if u !in db.profiles {
      return Fail(NotFound(NoProfile));
    }
    var p := db.profiles[u];
    p := p.(skills := CoalesceColumn(a.skills, p.skills),
            bio := CoalesceColumn(a.bio, p.bio),
            experienceLevel := CoalesceColumn(a.experienceLevel, p.experienceLevel),
            hourlyRate := CoalesceColumn(a.hourlyRate, p.hourlyRate),
            title := CoalesceColumn(a.title, p.title),
            profileImage := CoalesceColumn(a.profileImage, p.profileImage),
            isPublic := CoalesceColumn(a.isPublic, p.isPublic));
    db.profiles := db.profiles[u := p];
    r := Ok(ProfilePage(p, Query.Newest(db.portfolio, OfOwner(u))));
  }
}
