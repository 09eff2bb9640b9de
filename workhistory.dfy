/** A user's employment history (src/controllers/workHistoryController.js). */
module WorkHistory {
  import opened Schema
  import Db

  predicate HasEntry(s: Tables, id: Id) { 1 <= id <= |s.workHistory| && s.workHistory[id - 1].Some? }

  function EntryAt(s: Tables, id: Id): Entry
    requires HasEntry(s, id)
  {
    s.workHistory[id - 1].value
  }

  /** An entry marked as the current position has no end date. */
  predicate CurrentHasNoEnd(e: Entry) {
    e.isCurrent == Some(true) ==> e.endDate.None?
  }

  // ---------------------------------------------------------------------------------------
  // GET /work-history/user/:userId

  /** The row `(id, e)` is a live entry of user `u`. */
  predicate OwnRow(wh: seq<Option<Entry>>, u: Id, x: (nat, Entry)) {
    1 <= x.0 <= |wh| && wh[x.0 - 1] == Some(x.1) && x.1.userId == u
  }

  /** Index `k` (id `k + 1`) holds a live entry of user `u`. */
  predicate OwnIndex(wh: seq<Option<Entry>>, u: Id, k: int) {
    0 <= k < |wh| && wh[k].Some? && wh[k].value.userId == u
  }

  /** The live entries of a user with their ids, in id order. */
  function EntriesOf(wh: seq<Option<Entry>>, u: Id): (r: seq<(nat, Entry)>)
    ensures forall i :: 0 <= i < |r| ==> OwnRow(wh, u, r[i])
    ensures forall k :: OwnIndex(wh, u, k) ==> (k + 1, wh[k].value) in r
    ensures forall i, j :: 0 <= i < j < |r| ==> r[i].0 < r[j].0
  {
    if wh == [] then []
    else
      var n := |wh|;
      var init := wh[..n - 1];
      var rest := EntriesOf(init, u);
      EntriesGrow(wh, init, u, rest);
      if wh[n - 1].Some? && wh[n - 1].value.userId == u then rest + [(n, wh[n - 1].value)] else rest
  }

  lemma EntriesGrow(wh: seq<Option<Entry>>, init: seq<Option<Entry>>, u: Id, rest: seq<(nat, Entry)>)
    requires |wh| > 0 && init == wh[..|wh| - 1]
    requires forall i :: 0 <= i < |rest| ==> OwnRow(init, u, rest[i])
    requires forall k :: OwnIndex(init, u, k) ==> (k + 1, init[k].value) in rest
    requires forall i, j :: 0 <= i < j < |rest| ==> rest[i].0 < rest[j].0
    ensures
      var n := |wh|;
      var r := if wh[n - 1].Some? && wh[n - 1].value.userId == u then rest + [(n, wh[n - 1].value)] else rest;
      && (forall i :: 0 <= i < |r| ==> OwnRow(wh, u, r[i]))
      && (forall k :: OwnIndex(wh, u, k) ==> (k + 1, wh[k].value) in r)
      && (forall i, j :: 0 <= i < j < |r| ==> r[i].0 < r[j].0)
  {
    var n := |wh|;
    var r := if wh[n - 1].Some? && wh[n - 1].value.userId == u then rest + [(n, wh[n - 1].value)] else rest;
    forall i | 0 <= i < |r|
      ensures OwnRow(wh, u, r[i])
    {
      if i < |rest| {
        assert r[i] == rest[i] && OwnRow(init, u, rest[i]);
        assert init[rest[i].0 - 1] == wh[rest[i].0 - 1];
      }
    }
    forall k | OwnIndex(wh, u, k)
      ensures (k + 1, wh[k].value) in r
    {
      if k < n - 1 {
        assert init[k] == wh[k];
        assert OwnIndex(init, u, k);
      }
    }
    forall i, j | 0 <= i < j < |r|
      ensures r[i].0 < r[j].0
    {
      if j == |rest| {
        assert OwnRow(init, u, rest[i]);
      }
    }
  }

  /** `ORDER BY start_date DESC`. */
  predicate LatestFirst(rows: seq<(nat, Entry)>) {
    forall i, j :: 0 <= i < j < |rows| ==> rows[i].1.startDate >= rows[j].1.startDate
  }

  /** A row that starts no earlier than every row of a latest-first list can head it. */
  lemma PrependLatest(h: (nat, Entry), t: seq<(nat, Entry)>)
    requires LatestFirst(t)
    requires forall y :: y in t ==> h.1.startDate >= y.1.startDate
    ensures LatestFirst([h] + t)
  {
    var r := [h] + t;
    forall i, j | 0 <= i < j < |r|
      ensures r[i].1.startDate >= r[j].1.startDate
    {
      assert r[j] == t[j - 1];
      if i > 0 {
        assert r[i] == t[i - 1];
      }
    }
  }

  /** The head of a latest-first list starts no earlier than any row after it. */
  lemma HeadIsLatest(rows: seq<(nat, Entry)>)
    requires LatestFirst(rows) && rows != []
    ensures forall y :: y in rows[1..] ==> rows[0].1.startDate >= y.1.startDate
  {
    forall y | y in rows[1..]
      ensures rows[0].1.startDate >= y.1.startDate
    {
      var j :| 0 <= j < |rows[1..]| && rows[1..][j] == y;
      assert rows[j + 1] == y;
    }
  }

  function Insert(x: (nat, Entry), rows: seq<(nat, Entry)>): (r: seq<(nat, Entry)>)
    requires LatestFirst(rows)
    ensures LatestFirst(r)
    ensures multiset(r) == multiset(rows) + multiset{x}
    ensures forall y :: y in r ==> y == x || y in rows
  {
    if rows == [] then [x]
    else if x.1.startDate >= rows[0].1.startDate then
      PrependLatest(x, rows);
      [x] + rows
    else
      var tail := Insert(x, rows[1..]);
      assert rows == [rows[0]] + rows[1..];
      HeadIsLatest(rows);
      PrependLatest(rows[0], tail);
      [rows[0]] + tail
  }

  /** The rows sorted by start date, latest first (ties in any order). */
  function SortLatestFirst(rows: seq<(nat, Entry)>): (r: seq<(nat, Entry)>)
    ensures LatestFirst(r)
    ensures multiset(r) == multiset(rows)
  {
    if rows == [] then []
    else
      assert rows == [rows[0]] + rows[1..];
      Insert(rows[0], SortLatestFirst(rows[1..]))
  }

  /** Sorting the user's rows keeps exactly the user's live entries. */
  lemma SortedRowsAreOwnRows(wh: seq<Option<Entry>>, u: Id)
    ensures forall x :: x in SortLatestFirst(EntriesOf(wh, u)) <==> OwnRow(wh, u, x)
  {
    var own := EntriesOf(wh, u);
    var rows := SortLatestFirst(own);
    forall x
      ensures x in rows <==> OwnRow(wh, u, x)
    {
      assert x in rows <==> x in multiset(rows);
      assert x in own <==> x in multiset(own);
      if x in own {
        var i :| 0 <= i < |own| && own[i] == x;
      }
      if OwnRow(wh, u, x) {
        assert OwnIndex(wh, u, x.0 - 1);
      }
    }
  }

  /** `GET /work-history/user/:userId`: exactly the user's live entries, latest start first. */
  function GetUserWorkHistory(s: Tables, u: Id): (r: Outcome<seq<(nat, Entry)>>)
    ensures r.Ok? <==> HasUser(s, u)
    ensures r.Fail? ==> r.error == NotFound(NoUser)
    ensures r.Ok? ==>
      && LatestFirst(r.value)
      && multiset(r.value) == multiset(EntriesOf(s.workHistory, u))
      && forall x :: x in r.value <==> OwnRow(s.workHistory, u, x)
  {
    if !HasUser(s, u) then Fail(NotFound(NoUser))
    else
      SortedRowsAreOwnRows(s.workHistory, u);
      Ok(SortLatestFirst(EntriesOf(s.workHistory, u)))
  }

  // ---------------------------------------------------------------------------------------
  // POST /work-history

  datatype EntryArgs = EntryArgs(
    userId: Arg<Id>,
    company: Arg<string>,
    position: Arg<string>,
    startDate: Arg<Date>,
    endDate: Arg<Date>,
    description: Arg<string>,
    isCurrent: Arg<bool>)

  predicate Required(a: EntryArgs) {
    IdGiven(a.userId) && FilledText(a.company) && FilledText(a.position) && a.startDate.Given?
  }

  function CreateEntry(s: Tables, a: EntryArgs): (r: Step<(Id, Entry)>)
    ensures !Required(a) ==> r == Step(s, Fail(InvalidInput))
    ensures Required(a) && !HasUser(s, a.userId.value) ==> r == Step(s, Fail(NotFound(NoUser)))
    ensures r.out.Ok? <==> Required(a) && HasUser(s, a.userId.value)
    ensures r.out.Ok? ==>
      var e := r.out.value.1;
      && r.out.value.0 == |s.workHistory| + 1
      && e.userId == a.userId.value && e.company == a.company.value && e.position == a.position.value
      && e.startDate == a.startDate.value && e.description == Stored(a.description) && e.isCurrent == Stored(a.isCurrent)
      && (SetFlag(a.isCurrent) ==> e.endDate == None)
      && (!SetFlag(a.isCurrent) ==> e.endDate == Stored(a.endDate))
      && CurrentHasNoEnd(e)
      && r.next == s.(workHistory := s.workHistory + [Some(e)])
  {
    if !Required(a) then Step(s, Fail(InvalidInput))
    else if !HasUser(s, a.userId.value) then Step(s, Fail(NotFound(NoUser)))
    else
      var finalEndDate := if SetFlag(a.isCurrent) then None else Stored(a.endDate);
      var e := Entry(a.userId.value, a.company.value, a.position.value, a.startDate.value, finalEndDate,
                     Stored(a.description), Stored(a.isCurrent));
      Step(s.(workHistory := s.workHistory + [Some(e)]), Ok((|s.workHistory| + 1, e)))
  }

  /** A new entry shows up in its owner's history. */
  lemma CreatedEntryListed(s: Tables, a: EntryArgs)
    requires CreateEntry(s, a).out.Ok?
    ensures var r := CreateEntry(s, a);
      var listed := GetUserWorkHistory(r.next, a.userId.value);
      listed.Ok? && r.out.value in listed.value
  {
    var r := CreateEntry(s, a);
    assert OwnRow(r.next.workHistory, a.userId.value, r.out.value);
  }

  // ---------------------------------------------------------------------------------------
  // PUT /work-history/:entryId

  datatype EntryChanges = EntryChanges(
    company: Arg<string>,
    position: Arg<string>,
    startDate: Arg<Date>,
    endDate: Arg<Date>,
    description: Arg<string>,
    isCurrent: Arg<bool>)

  /** Every column but `end_date` keeps its value when the field is left out or null;
      `end_date` is always written: the given date, or null when none is given or the entry
      is marked current by this request. */
  function UpdateEntry(s: Tables, id: Id, c: EntryChanges): (r: Step<Entry>)
    ensures !HasEntry(s, id) ==> r == Step(s, Fail(NotFound(NoEntry)))
    ensures r.out.Ok? <==> HasEntry(s, id)
    ensures r.out.Ok? ==>
      var e, f := EntryAt(s, id), r.out.value;
      && f.userId == e.userId
      && f.company == (if c.company.Given? then c.company.value else e.company)
      && f.position == (if c.position.Given? then c.position.value else e.position)
      && f.startDate == (if c.startDate.Given? then c.startDate.value else e.startDate)
      && f.description == (if c.description.Given? then Some(c.description.value) else e.description)
      && f.isCurrent == (if c.isCurrent.Given? then Some(c.isCurrent.value) else e.isCurrent)
      && (SetFlag(c.isCurrent) ==> f.endDate == None)
      && (!SetFlag(c.isCurrent) ==> f.endDate == Stored(c.endDate))
      && r.next == s.(workHistory := s.workHistory[id - 1 := Some(f)])
  {
    if !HasEntry(s, id) then Step(s, Fail(NotFound(NoEntry)))
    else
      var e := EntryAt(s, id);
      var finalEndDate := if SetFlag(c.isCurrent) then None else Stored(c.endDate);
      var f := e.(company := Coalesce(c.company, e.company),
                  position := Coalesce(c.position, e.position),
                  startDate := Coalesce(c.startDate, e.startDate),
                  endDate := finalEndDate,
                  description := CoalesceColumn(c.description, e.description),
                  isCurrent := CoalesceColumn(c.isCurrent, e.isCurrent));
      Step(s.(workHistory := s.workHistory[id - 1 := Some(f)]), Ok(f))
  }

  /** An update keeps "current means no end date" when it says whether the entry is current,
      or when the entry was not current. */
  lemma UpdateKeepsCurrentRule(s: Tables, id: Id, c: EntryChanges)
    requires HasEntry(s, id) && CurrentHasNoEnd(EntryAt(s, id))
    requires c.isCurrent.Given? || EntryAt(s, id).isCurrent != Some(true)
    ensures CurrentHasNoEnd(UpdateEntry(s, id, c).out.value)
  {
  }

  /** An update of a current entry that sends an end date without `isCurrent` stores the end
      date and leaves the entry marked current. */
  lemma UpdateCanEndCurrentEntry(s: Tables, id: Id, c: EntryChanges)
    requires HasEntry(s, id) && EntryAt(s, id).isCurrent == Some(true)
    requires !c.isCurrent.Given? && c.endDate.Given?
    ensures var f := UpdateEntry(s, id, c).out.value;
      f.isCurrent == Some(true) && f.endDate == Some(c.endDate.value) && !CurrentHasNoEnd(f)
  {
  }

  // ---------------------------------------------------------------------------------------
  // DELETE /work-history/:entryId

  function DeleteEntry(s: Tables, id: Id): (r: Step<()>)
    ensures r.out.Ok? <==> HasEntry(s, id)
    ensures !HasEntry(s, id) ==> r == Step(s, Fail(NotFound(NoEntry)))
    ensures HasEntry(s, id) ==>
      && |r.next.workHistory| == |s.workHistory|
      && !HasEntry(r.next, id)
      && (forall k :: 0 <= k < |s.workHistory| && k != id - 1 ==> r.next.workHistory[k] == s.workHistory[k])
      && r.next == s.(workHistory := r.next.workHistory)
  {
    if !HasEntry(s, id) then Step(s, Fail(NotFound(NoEntry)))
    else Step(s.(workHistory := s.workHistory[id - 1 := None]), Ok(()))
  }

  /** After a delete the entry is no longer listed, and the owner's other entries still are. */
  lemma DeletedEntryNotListed(s: Tables, id: Id)
    requires HasEntry(s, id) && HasUser(s, EntryAt(s, id).userId)
    ensures var u := EntryAt(s, id).userId;
      var before, after := GetUserWorkHistory(s, u).value, GetUserWorkHistory(DeleteEntry(s, id).next, u).value;
      && (id, EntryAt(s, id)) !in after
      && forall x :: x in before && x.0 != id ==> x in after
  {
    var u := EntryAt(s, id).userId;
    var n := DeleteEntry(s, id).next;
    var before, after := GetUserWorkHistory(s, u).value, GetUserWorkHistory(n, u).value;
    assert !OwnRow(n.workHistory, u, (id, EntryAt(s, id)));
    forall x | x in before && x.0 != id
      ensures x in after
    {
      assert OwnRow(s.workHistory, u, x);
      assert n.workHistory[x.0 - 1] == s.workHistory[x.0 - 1];
    }
  }

  method HandleGetUserWorkHistory(db: Db.Database, u: Id) returns (r: Outcome<seq<(nat, Entry)>>)
    ensures r == GetUserWorkHistory(db.Snapshot(), u)
  {
    if !(1 <= u <= |db.users|) {
      return Fail(NotFound(NoUser));
    }
    r := Ok(SortLatestFirst(EntriesOf(db.workHistory, u)));
  }

  method HandleCreateEntry(db: Db.Database, a: EntryArgs) returns (r: Outcome<(Id, Entry)>)
    modifies db
    ensures Step(db.Snapshot(), r) == CreateEntry(old(db.Snapshot()), a)
  {
    if !Required(a) {
      return Fail(InvalidInput);
    }
    if !(1 <= a.userId.value <= |db.users|) {
      return Fail(NotFound(NoUser));
    }
    var finalEndDate := if SetFlag(a.isCurrent) then None else Stored(a.endDate);
    var e := Entry(a.userId.value, a.company.value, a.position.value, a.startDate.value, finalEndDate,
                   Stored(a.description), Stored(a.isCurrent));
    db.workHistory := db.workHistory + [Some(e)];
    r := Ok((|db.workHistory|, e));
  }

  method HandleUpdateEntry(db: Db.Database, id: Id, c: EntryChanges) returns (r: Outcome<Entry>)
    modifies db
    ensures Step(db.Snapshot(), r) == UpdateEntry(old(db.Snapshot()), id, c)
  {
    if !(1 <= id <= |db.workHistory|) || db.workHistory[id - 1].None? {
      return Fail(NotFound(NoEntry));
    }
    var finalEndDate := Stored(c.endDate);
    if c.isCurrent != Absent && SetFlag(c.isCurrent) {
      finalEndDate := None;
    }
    var e := db.workHistory[id - 1].value;
    e := e.(company := Coalesce(c.company, e.company),
            position := Coalesce(c.position, e.position),
            startDate := Coalesce(c.startDate, e.startDate),
            endDate := finalEndDate,
            description := CoalesceColumn(c.description, e.description),
            isCurrent := CoalesceColumn(c.isCurrent, e.isCurrent));
    db.workHistory := db.workHistory[id - 1 := Some(e)];
    r := Ok(e);
  }

  method HandleDeleteEntry(db: Db.Database, id: Id) returns (r: Outcome<()>)
    modifies db
    ensures Step(db.Snapshot(), r) == DeleteEntry(old(db.Snapshot()), id)
  {
    if !(1 <= id <= |db.workHistory|) || db.workHistory[id - 1].None? {
      return Fail(NotFound(NoEntry));
    }
    db.workHistory := db.workHistory[id - 1 := None];
    r := Ok(());
  }
}
