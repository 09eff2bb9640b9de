/** Result lists of `SELECT ... WHERE ... ORDER BY created_at DESC` over a table kept in
    insertion order, and SQL `LIKE '%p%'`. */
module Query {

  /** `x` is the row of `table` with id `x.0`, and it satisfies `keep`. */
  ghost predicate Sound<T>(table: seq<T>, keep: (nat, T) -> bool, x: (nat, T)) {
    1 <= x.0 <= |table| && x.1 == table[x.0 - 1] && keep(x.0, x.1)
  }

  /** The row at index `k` (id `k + 1`) satisfies `keep`. */
  predicate Qualifies<T>(table: seq<T>, keep: (nat, T) -> bool, k: int) {
    0 <= k < |table| && keep(k + 1, table[k])
  }

  /** `rows` lists, newest first, exactly the rows of `table` that satisfy `keep`, each
      paired with its id (its 1-based position: rows inserted later have larger ids and
      later `created_at` stamps). */
  ghost predicate Listing<T>(table: seq<T>, keep: (nat, T) -> bool, rows: seq<(nat, T)>) {
    && (forall i :: 0 <= i < |rows| ==> Sound(table, keep, rows[i]))
    && (forall i, j :: 0 <= i < j < |rows| ==> rows[i].0 > rows[j].0)
    && (forall k :: Qualifies(table, keep, k) ==> (k + 1, table[k]) in rows)
  }

  /** The rows of `table` that satisfy `keep`, newest first. */
  function Newest<T>(table: seq<T>, keep: (nat, T) -> bool): (rows: seq<(nat, T)>)
    ensures Listing(table, keep, rows)
    decreases |table|
  {
    if table == [] then []
    else
      var n := |table|;
      var rest := Newest(table[..n - 1], keep);
      ListingGrows(table, keep, rest);
      if keep(n, table[n - 1]) then [(n, table[n - 1])] + rest else rest
  }

  /** A listing of all rows but the last becomes a listing of the whole table once the last
      row, the newest, is put in front of it if it qualifies. */
  lemma ListingGrows<T>(table: seq<T>, keep: (nat, T) -> bool, rest: seq<(nat, T)>)
    requires |table| > 0
    requires Listing(table[..|table| - 1], keep, rest)
    ensures
      var n := |table|;
      Listing(table, keep, if keep(n, table[n - 1]) then [(n, table[n - 1])] + rest else rest)
  {
    var n := |table|;
    var init := table[..n - 1];
    var rows := if keep(n, table[n - 1]) then [(n, table[n - 1])] + rest else rest;
    forall i | 0 <= i < |rest|
      ensures rest[i].0 < n && Sound(table, keep, rest[i])
    {
      assert Sound(init, keep, rest[i]);
      assert init[rest[i].0 - 1] == table[rest[i].0 - 1];
    }
    forall k | Qualifies(table, keep, k)
      ensures (k + 1, table[k]) in rows
    {
      if k < n - 1 {
        assert init[k] == table[k];
        assert Qualifies(init, keep, k);
      }
    }
    if keep(n, table[n - 1]) {
      forall i | 0 <= i < |rows|
        ensures Sound(table, keep, rows[i])
      {
        if i > 0 {
          assert rows[i] == rest[i - 1];
        }
      }
      forall i, j | 0 <= i < j < |rows|
        ensures rows[i].0 > rows[j].0
      {
        assert rows[j] == rest[j - 1];
        if i > 0 {
          assert rows[i] == rest[i - 1];
        }
      }
    }
  }

  /** SQL `text LIKE '%p%'`, reading every character of `p` literally. */
  predicate Contains(text: string, p: string) {
    exists i :: 0 <= i <= |text| && p <= text[i..]
  }
}
