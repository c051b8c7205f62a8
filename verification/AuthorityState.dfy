/** The cached rows of one symbol scope: an insertion-ordered dictionary, its coverage of the table, and its seal
    (senecio_polymarket/backend/supabase_client.py). */
module AuthorityState {
  import opened Prelude
  import opened Text
  import opened Sorting
  import opened SettlementContract
  import opened Settlement
  import opened AuthorityTable

  /** A Python dictionary from row id to row: keys in insertion order. */
  datatype Dict = Dict(order: seq<int>, rows: map<int, Row>)

  const EMPTY := Dict([], map[])

  ghost predicate DictOk(d: Dict) {
    && NoRepeats(d.order) && (forall i :: 0 <= i < |d.order| ==> d.order[i] in d.rows) && (forall id <- d.rows :: id in d.order)
    && (forall id <- d.rows :: d.rows[id].id == id)
  }

  function Put(d: Dict, row: Row): Dict {
    Dict(if row.id in d.rows then d.order else d.order + [row.id], d.rows[row.id := row])
  }

  function PutAll(d: Dict, rows: seq<Row>): Dict {
    if rows == [] then d else Put(PutAll(d, rows[..|rows| - 1]), rows[|rows| - 1])
  }

  function Values(d: Dict): (r: seq<Row>)
    requires DictOk(d)
    ensures |r| == |d.order| && forall i :: 0 <= i < |r| ==> d.order[i] in d.rows && r[i] == d.rows[d.order[i]] && r[i].id == d.order[i]
  {
    seq(|d.order|, i requires 0 <= i < |d.order| => d.rows[d.order[i]])
  }

  lemma PutKeeps(d: Dict, row: Row)
    requires DictOk(d)
    ensures DictOk(Put(d, row))
  {
    var p := Put(d, row);
    forall id | id in p.rows ensures id in p.order { if id == row.id && row.id !in d.rows { assert p.order[|d.order|] == id; } }
    forall i | 0 <= i < |d.order| ensures d.order[i] in p.rows {}
  }

  // ---- Coverage ----

  /** The dictionary holds exactly the first k rows of the table, each in a version the table had. */
  ghost predicate Covered(d: Dict, table: seq<Row>, k: nat) {
    && k <= |table|
    && (forall i :: 0 <= i < k ==> table[i].id in d.rows && Follows(d.rows[table[i].id], table[i]))
    && (forall id <- d.rows :: exists i :: 0 <= i < k && table[i].id == id)
  }

  /** The cursor is the last covered key. */
  ghost predicate Coherent(d: Dict, cursor: Option<Cursor>, table: seq<Row>) {
    DictOk(d) && At(table, cursor, Cut(table, cursor)) && Covered(d, table, Cut(table, cursor))
  }

  lemma CoherentAt(d: Dict, cursor: Option<Cursor>, table: seq<Row>, k: nat)
    requires Ordered(table) && DictOk(d) && At(table, cursor, k) && Covered(d, table, k)
    ensures Cut(table, cursor) == k && Coherent(d, cursor, table)
  {
    AtIsCut(table, cursor, k);
  }

  lemma CoveredLater(d: Dict, a: seq<Row>, b: seq<Row>, k: nat)
    requires Covered(d, a, k) && Grown(a, b)
    ensures Covered(d, b, k)
  {
    hide Mutable, Ordered, DistinctIds;
    forall i | 0 <= i < k ensures b[i].id in d.rows && Follows(d.rows[b[i].id], b[i]) {
      assert Follows(a[i], b[i]);
      FollowsTransitive(d.rows[a[i].id], a[i], b[i]);
    }
    forall id | id in d.rows ensures exists i :: 0 <= i < k && b[i].id == id {
      var i :| 0 <= i < k && a[i].id == id;
      assert Follows(a[i], b[i]);
    }
  }

  /** Coherence outlives every change of the table that follows the contract: new rows only need higher keys. */
  lemma CoherentLater(d: Dict, cursor: Option<Cursor>, a: seq<Row>, b: seq<Row>)
    requires Ordered(a) && Coherent(d, cursor, a) && Grown(a, b)
    ensures Coherent(d, cursor, b) && Cut(b, cursor) == Cut(a, cursor)
  {
    hide Covered;
    var k := Cut(a, cursor);
    AtStays(a, b, cursor, k);
    CoveredLater(d, a, b, k);
    CoherentAt(d, cursor, b, k);
  }

  // ---- Soundness ----

  /** Every cached row is a version of a row of the table. */
  ghost predicate Drawn(d: Dict, table: seq<Row>) { forall id <- d.rows :: VersionOf(d.rows[id], table, false) }

  /** What no disturbance undoes: cached rows are rows of the table, and the cursor is the key of one. */
  ghost predicate Sound(d: Dict, cursor: Option<Cursor>, table: seq<Row>) {
    DictOk(d) && At(table, cursor, Cut(table, cursor)) && Drawn(d, table)
  }

  lemma CoherentIsSound(d: Dict, cursor: Option<Cursor>, table: seq<Row>)
    requires Coherent(d, cursor, table)
    ensures Sound(d, cursor, table)
  {
    hide Mutable, At, DictOk;
    forall id | id in d.rows ensures VersionOf(d.rows[id], table, false) {
      var i :| 0 <= i < Cut(table, cursor) && table[i].id == id;
      assert Follows(d.rows[id], table[i]);
    }
  }

  lemma VersionLater(row: Row, a: seq<Row>, b: seq<Row>)
    requires VersionOf(row, a, false) && Grown(a, b)
    ensures VersionOf(row, b, false)
  {
    hide Mutable, Ordered, DistinctIds;
    var i :| 0 <= i < |a| && Follows(row, a[i]);
    FollowsTransitive(row, a[i], b[i]);
  }

  /** Soundness outlives every change of the table that follows the contract. */
  lemma SoundLater(d: Dict, cursor: Option<Cursor>, a: seq<Row>, b: seq<Row>)
    requires Ordered(a) && Sound(d, cursor, a) && Grown(a, b)
    ensures Sound(d, cursor, b) && Cut(b, cursor) == Cut(a, cursor)
  {
    hide VersionOf, Mutable, DictOk;
    forall id | id in d.rows ensures VersionOf(d.rows[id], b, false) { VersionLater(d.rows[id], a, b); }
    AtStays(a, b, cursor, Cut(a, cursor));
    AtIsCut(b, cursor, Cut(a, cursor));
  }

  lemma {:induction false} PutAllDrawn(d: Dict, rows: seq<Row>, table: seq<Row>)
    requires DictOk(d) && Drawn(d, table) && forall row <- rows :: VersionOf(row, table, false)
    ensures DictOk(PutAll(d, rows)) && Drawn(PutAll(d, rows), table)
  {
    hide VersionOf, DictOk;
    if rows != [] {
      var init, last := rows[..|rows| - 1], rows[|rows| - 1];
      assert last in rows && forall row <- init :: row in rows;
      PutAllDrawn(d, init, table);
      PutKeeps(PutAll(d, init), last);
    }
  }

  // ---- Reading on ----

  lemma CoversLater(rows: seq<Row>, a: seq<Row>, b: seq<Row>, k: nat)
    requires Covers(rows, a, k) && Grown(a, b)
    ensures Covers(rows, b, k)
  {
    hide Mutable, Ordered, DistinctIds;
    forall i | 0 <= i < |rows| ensures Follows(rows[i], b[k + i]) {
      assert Follows(a[k + i], b[k + i]);
      FollowsTransitive(rows[i], a[k + i], b[k + i]);
    }
  }

  lemma PutCovers(d: Dict, row: Row, table: seq<Row>, k: nat)
    requires DictOk(d) && DistinctIds(table) && Covered(d, table, k) && k < |table| && Follows(row, table[k])
    ensures DictOk(Put(d, row)) && Covered(Put(d, row), table, k + 1)
  {
    hide Mutable;
    PutKeeps(d, row);
    var p := Put(d, row);
    forall id | id in p.rows ensures exists i :: 0 <= i < k + 1 && table[i].id == id {
      if id == row.id { assert table[k].id == id; } else { var i :| 0 <= i < k && table[i].id == id; }
    }
  }

  /** Merging what follows the covered part covers it too. */
  lemma {:induction false} DeltaCovers(d: Dict, rows: seq<Row>, table: seq<Row>, k: nat)
    requires DictOk(d) && DistinctIds(table) && Covered(d, table, k) && Covers(rows, table, k)
    ensures DictOk(PutAll(d, rows)) && Covered(PutAll(d, rows), table, k + |rows|)
  {
    hide Mutable, DistinctIds, Covered, Put, DictOk;
    if rows != [] {
      var init := rows[..|rows| - 1];
      assert Covers(init, table, k);
      DeltaCovers(d, init, table, k);
      PutCovers(PutAll(d, init), rows[|rows| - 1], table, k + |init|);
    }
  }

  // ---- Refreshing mutable rows ----

  /** Ids of cached rows that may still change, in insertion order. */
  function MutableIds(d: Dict, order: seq<int>): (r: seq<int>)
    ensures forall id :: id in r <==> id in order && id in d.rows && Mutable(d.rows[id])
  {
    if order == [] then []
    else
      assert order == [order[0]] + order[1..];
      (if order[0] in d.rows && Mutable(d.rows[order[0]]) then [order[0]] else []) + MutableIds(d, order[1..])
  }

  /** The cached LONG and SHORT rows that do not pass the proof gate. */
  ghost function Unqualified(d: Dict): set<int> {
    set id | id in d.rows && (Upper(d.rows[id].prediction) == "LONG" || Upper(d.rows[id].prediction) == "SHORT")
             && !IsProofQualified(d.rows[id])
  }

  /** Exactly those are asked for again, each once. */
  lemma MutableIdsAre(d: Dict)
    requires DictOk(d)
    ensures forall id :: id in MutableIds(d, d.order) <==> id in Unqualified(d)
    ensures NoRepeats(MutableIds(d, d.order)) && |MutableIds(d, d.order)| == |Unqualified(d)|
  {
    hide IsProofQualified;
    MutableIdsDiffer(d, d.order);
    forall id ensures id in MutableIds(d, d.order) <==> id in Unqualified(d) {}
    NoRepeatsSize(MutableIds(d, d.order), Unqualified(d));
  }

  lemma {:induction false} MutableIdsDiffer(d: Dict, order: seq<int>)
    requires NoRepeats(order)
    ensures NoRepeats(MutableIds(d, order))
  {
    hide Mutable;
    if order != [] {
      MutableIdsDiffer(d, order[1..]);
      assert order[0] !in order[1..];
      var rest := MutableIds(d, order[1..]);
      forall i | 0 <= i < |rest| ensures rest[i] != order[0] { assert rest[i] in rest; }
    }
  }

  /** A row that the verifier has settled leaves the refresh for good: once cached it is never asked for again, and no later
      version of it comes. */
  lemma SettledRowIsLeftAlone(w: World, step: Step, d: Dict, later: Row)
    requires WorldOk(w) && Permitted(w, step) && step.Verify? && Written(w, step).Some?
    requires DictOk(d) && step.row.id in d.rows && d.rows[step.row.id] == Written(w, step).value && Follows(d.rows[step.row.id], later)
    ensures step.row.id !in MutableIds(d, d.order) && later == d.rows[step.row.id]
  {
    hide WorldOk, Permitted, Written, IsProofQualified, Evolves;
    VerifyWrites(w, step);
  }

  /** What counts towards the backlog is the cached version: with every cached row current, a table whose LONG and SHORT rows
      all pass the gate leaves nothing to ask for, */
  lemma QualifiedTableLeavesNothing(d: Dict, table: seq<Row>)
    requires DictOk(d) && Exact(d, table)
    requires forall row <- table :: Upper(row.prediction) == "LONG" || Upper(row.prediction) == "SHORT" ==> IsProofQualified(row)
    ensures Unqualified(d) == {}
  {
    hide IsProofQualified, Mutable;
    forall id | id in d.rows ensures d.rows[id] in table {
      var i :| 0 <= i < |table| && table[i].id == id;
    }
  }

  /** and a row settled since it was cached still counts until it is asked for once more. */
  lemma StaleRowStillCounts(row: Row)
    requires IsProofQualified(row)
    ensures var stale := row.(outcome := None, audit := row.audit.(dual := None));
            var d := Put(EMPTY, stale);
            DictOk(d) && Covered(d, [row], 1) && Unqualified(d) == {row.id}
  {
    var stale := row.(outcome := None, audit := row.audit.(dual := None));
    var d := Put(EMPTY, stale);
    UnsettledIsNotQualified(stale);
    DirectionalIfQualified(row);
    hide IsProofQualified;
    assert d.rows[row.id] == stale && [row][0] == row;
    assert Follows(stale, row);
  }

  lemma DirectionalIfQualified(row: Row)
    requires IsProofQualified(row)
    ensures Directional(row.prediction)
  {
  }

  /** A version that the table has had of one of its rows; the current one if nothing was written meanwhile. */
  ghost predicate VersionOf(row: Row, table: seq<Row>, quiet: bool) {
    exists i :: 0 <= i < |table| && Follows(row, table[i]) && (quiet ==> row == table[i])
  }

  lemma RefreshCovers(d: Dict, row: Row, table: seq<Row>, k: nat, quiet: bool)
    requires DictOk(d) && DistinctIds(table) && Covered(d, table, k) && row.id in d.rows && VersionOf(row, table, quiet)
    ensures DictOk(Put(d, row)) && Covered(Put(d, row), table, k)
    ensures quiet ==> row in table
  {
    hide Mutable;
    PutKeeps(d, row);
    var i :| 0 <= i < |table| && Follows(row, table[i]) && (quiet ==> row == table[i]);
    var j :| 0 <= j < k && table[j].id == row.id;
    assert i == j;
  }

  // ---- Exactness ----

  /** Everything is cached in its current version. */
  ghost predicate Exact(d: Dict, table: seq<Row>) {
    Covered(d, table, |table|) && forall i :: 0 <= i < |table| ==> d.rows[table[i].id] == table[i]
  }

  predicate KeyLe(a: Row, b: Row) { !Less(KeyOf(b), KeyOf(a)) }

  lemma KeyLeIsTotal()
    ensures TotalPreorder(KeyLe)
  {
  }

  function OrderedRows(d: Dict): seq<Row>
    requires DictOk(d)
  {
    Sort(Values(d), KeyLe)
  }

  /** An ordered table is the only ordered arrangement of its rows. */
  lemma StrictlySortedUnique(a: seq<Row>, b: seq<Row>)
    requires Ordered(a) && Ordered(b) && forall row :: row in a <==> row in b
    ensures a == b
  {
    OrderedIsSorted(a);
    OrderedIsSorted(b);
    SameMembersSameArrangement(a, b, KeyLe);
  }

  lemma OrderedIsSorted(a: seq<Row>)
    requires Ordered(a)
    ensures Sorted(a, KeyLe) && NoRepeats(a)
    ensures forall x, y :: x in a && y in a && KeyLe(x, y) && KeyLe(y, x) ==> x == y
  {
    forall x, y | x in a && y in a && KeyLe(x, y) && KeyLe(y, x) ensures x == y {
      var i :| 0 <= i < |a| && a[i] == x;
      var j :| 0 <= j < |a| && a[j] == y;
      assert i == j;
    }
  }

  lemma SortedValuesOrdered(d: Dict)
    requires DictOk(d)
    ensures Ordered(OrderedRows(d)) && forall row :: row in OrderedRows(d) <==> row.id in d.rows && d.rows[row.id] == row
  {
    hide Sort;
    var v, s := Values(d), OrderedRows(d);
    KeyLeIsTotal();
    SortSorted(v, KeyLe);
    SameMultisetSameMembers(s, v);
    forall row ensures row in v <==> row.id in d.rows && d.rows[row.id] == row {
      if row.id in d.rows && d.rows[row.id] == row {
        var i :| 0 <= i < |d.order| && d.order[i] == row.id;
        assert v[i] == row;
      }
      if row in v {
        var i :| 0 <= i < |v| && v[i] == row;
        assert d.order[i] in d.order;
      }
    }
    SortedIdsDiffer(d, v, s);
    forall i, j | 0 <= i < j < |s| ensures Less(KeyOf(s[i]), KeyOf(s[j])) { assert KeyLe(s[i], s[j]); }
  }

  lemma SortedIdsDiffer(d: Dict, v: seq<Row>, s: seq<Row>)
    requires DictOk(d) && v == Values(d) && multiset(s) == multiset(v)
    ensures DistinctIds(s)
  {
    forall i, j | 0 <= i < j < |v| ensures v[i] != v[j] { assert d.order[i] != d.order[j]; }
    PermutationNoRepeats(v, s);
    SameMultisetSameMembers(s, v);
    forall i, j | 0 <= i < j < |s| ensures s[i].id != s[j].id {
      assert s[i] in v && s[j] in v;
      var x :| 0 <= x < |v| && v[x] == s[i];
      var y :| 0 <= y < |v| && v[y] == s[j];
      assert x != y;
      assert d.order[x] != d.order[y];
    }
  }

  /** A dictionary that is exact lists the table. */
  lemma ExactIsTable(d: Dict, table: seq<Row>)
    requires DictOk(d) && Ordered(table) && Exact(d, table)
    ensures OrderedRows(d) == table
  {
    hide Mutable, Ordered;
    SortedValuesOrdered(d);
    forall row ensures row in OrderedRows(d) <==> row in table {
      if row.id in d.rows && d.rows[row.id] == row {
        var i :| 0 <= i < |table| && table[i].id == row.id;
      }
      if row in table {
        var i :| 0 <= i < |table| && table[i] == row;
        assert table[i].id in d.rows;
      }
    }
    StrictlySortedUnique(OrderedRows(d), table);
  }
}
