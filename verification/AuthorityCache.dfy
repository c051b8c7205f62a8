/** The cached authority view kept by bounded deltas and mutable-row refreshes
    (senecio_polymarket/backend/supabase_client.py). */
module AuthorityCache {
  import opened Prelude
  import opened Settlement
  import opened AuthorityTable
  import opened AuthorityState

  datatype CacheError =
    | RequestFailed | PageCapHit | NonMonotonic | BacklogCapHit | RowDisappeared | SealBroken | SealMissing | SaveFailed | Race

  // ---- The gateway ----

  /** The table at each coming request. */
  ghost predicate Chain(table: seq<Row>, future: seq<seq<Row>>)
    decreases |future|
  {
    future == [] || (Grown(table, future[0]) && Chain(future[0], future[1..]))
  }

  /** Nothing is written before any coming request. */
  ghost predicate Quiet(table: seq<Row>, future: seq<seq<Row>>) { forall t <- future :: t == table }

  ghost predicate Rest(b: seq<seq<Row>>, a: seq<seq<Row>>) { |b| <= |a| && b == a[|a| - |b|..] }

  /** How the table may have moved on: by the contract, and not at all if nothing was written. */
  ghost predicate MovedOn(a: seq<Row>, aFuture: seq<seq<Row>>, b: seq<Row>, bFuture: seq<seq<Row>>) {
    Grown(a, b) && (Quiet(a, aFuture) ==> b == a && Quiet(b, bFuture)) && Rest(bFuture, aFuture)
  }

  lemma MovedOnTwice(a: seq<Row>, af: seq<seq<Row>>, b: seq<Row>, bf: seq<seq<Row>>, c: seq<Row>, cf: seq<seq<Row>>)
    requires MovedOn(a, af, b, bf) && MovedOn(b, bf, c, cf)
    ensures MovedOn(a, af, c, cf)
  {
    hide Grown, Quiet;
    GrownTransitive(a, b, c);
  }

  // ---- Disturbed pages ----

  /** Of two requests in a row, a page whose cursor is row k - 1 is disturbed by what was written between them. */
  ghost predicate Disturbed(future: seq<seq<Row>>, i: nat, k: nat, limit: nat) {
    i + 1 < |future| && 0 < k <= |future[i]| && !Undisturbed(future[i], future[i + 1], KeyOf(future[i][k - 1]), limit)
  }

  ghost predicate SomeDisturbed(future: seq<seq<Row>>) { exists i: nat, k: nat, limit: nat :: Disturbed(future, i, k, limit) }

  lemma QuietIsUndisturbed(table: seq<Row>, future: seq<seq<Row>>)
    requires Quiet(table, future)
    ensures !SomeDisturbed(future)
  {
    hide Undisturbed;
    forall i: nat, k: nat, limit: nat ensures !Disturbed(future, i, k, limit) {
      if i + 1 < |future| && 0 < k <= |future[i]| {
        assert future[i] in future && future[i + 1] in future;
        NothingNew(future[i], KeyOf(future[i][k - 1]), limit);
      }
    }
  }

  lemma NothingNew(table: seq<Row>, c: Cursor, limit: nat)
    ensures Undisturbed(table, table, c, limit)
  {
  }

  /** Views of one symbol are never disturbed, whatever is written. */
  lemma SymbolViewIsUndisturbed(table: seq<Row>, future: seq<seq<Row>>)
    requires Chain(table, future) && forall t <- future :: SymbolScope(t)
    ensures !SomeDisturbed(future)
  {
    hide Undisturbed, Grown, SymbolScope;
    forall i: nat, k: nat, limit: nat ensures !Disturbed(future, i, k, limit) {
      if i + 1 < |future| && 0 < k <= |future[i]| {
        ChainAt(table, future, i);
        assert future[i + 1] in future;
        SymbolScopeIsUndisturbed(future[i], future[i + 1], KeyOf(future[i][k - 1]), k, limit);
      }
    }
  }

  lemma {:induction false} ChainAt(table: seq<Row>, future: seq<seq<Row>>, i: nat)
    requires Chain(table, future) && i + 1 < |future|
    ensures Grown(future[i], future[i + 1])
    decreases i
  {
    hide Grown;
    if i > 0 { ChainAt(future[0], future[1..], i - 1); }
  }

  lemma RestDisturbed(b: seq<seq<Row>>, a: seq<seq<Row>>)
    requires Rest(b, a) && SomeDisturbed(b)
    ensures SomeDisturbed(a)
  {
    hide Undisturbed;
    var i: nat, k: nat, limit: nat :| Disturbed(b, i, k, limit);
    var n := |a| - |b|;
    assert b[i] == a[n + i] && b[i + 1] == a[n + i + 1];
    assert Disturbed(a, n + i, k, limit);
  }

  function WithIds(table: seq<Row>, ids: seq<int>): (r: seq<Row>)
    ensures forall row :: row in r <==> row in table && row.id in ids
  {
    if table == [] then []
    else
      assert table == [table[0]] + table[1..];
      (if table[0].id in ids then [table[0]] else []) + WithIds(table[1..], ids)
  }

  class Gateway {
    var table: seq<Row>
    var future: seq<seq<Row>>
    ghost var unanswered: nat
    /** Every id ever looked up. */
    ghost var asked: seq<int>

    ghost predicate Valid()
      reads this
    {
      Ordered(table) && DistinctIds(table) && Chain(table, future)
    }

    /** Whatever was due happens, and the request is answered on the table it finds; a request beyond the last fails. */
    method Arrive() returns (answered: bool)
      requires Valid()
      modifies this
      ensures Valid() && MovedOn(old(table), old(future), table, future)
      ensures unanswered == old(unanswered) + (if answered then 0 else 1) && asked == old(asked)
      ensures if answered then old(future) != [] && table == old(future)[0] && future == old(future)[1..]
              else table == old(table) && old(future) == future == []
    {
      hide Grown, Ordered, DistinctIds;
      GrownItself(table);
      if future == [] { unanswered := unanswered + 1; return false; }
      ChainMovesOn(table, future);
      table, future := future[0], future[1..];
      return true;
    }

    method Request(range: Range, limit: nat) returns (page: Option<seq<Row>>)
      requires Valid()
      modifies this
      ensures Valid() && MovedOn(old(table), old(future), table, future)
      ensures unanswered == old(unanswered) + (if page.None? then 1 else 0) && asked == old(asked)
      ensures page.Some? ==> page.value == First(Select(table, range), limit)
      ensures page.Some? ==> old(future) != [] && table == old(future)[0] && future == old(future)[1..]
      ensures page.None? ==> table == old(table) && future == []
    {
      var answered := Arrive();
      page := if answered then Some(First(Select(table, range), limit)) else None;
    }

    method RequestIds(ids: seq<int>) returns (rows: Option<seq<Row>>)
      requires Valid()
      modifies this
      ensures Valid() && MovedOn(old(table), old(future), table, future)
      ensures unanswered == old(unanswered) + (if rows.None? then 1 else 0) && asked == old(asked) + ids
      ensures rows.Some? ==> rows.value == First(WithIds(table, ids), |ids|)
      ensures rows.None? ==> future == []
    {
      var answered := Arrive();
      asked := asked + ids;
      rows := if answered then Some(First(WithIds(table, ids), |ids|)) else None;
    }
  }

  lemma ChainMovesOn(table: seq<Row>, future: seq<seq<Row>>)
    requires Chain(table, future) && future != []
    ensures MovedOn(table, future, future[0], future[1..]) && Chain(future[0], future[1..])
    ensures Ordered(future[0]) && DistinctIds(future[0])
  {
    assert future[0] in future;
    assert forall t <- future[1..] :: t in future;
  }

  // ---- Pages ----

  predicate Rising(page: seq<Row>, cursor: Option<Cursor>) {
    (page != [] ==> Above(page[0], cursor)) && forall i :: 0 < i < |page| ==> Less(KeyOf(page[i - 1]), KeyOf(page[i]))
  }

  /** The check every page passes: keys must rise from the cursor on. */
  method CheckRising(page: seq<Row>, cursor: Option<Cursor>) returns (ok: bool)
    ensures ok <==> Rising(page, cursor)
  {
    var i, previous := 0, cursor;
    while i < |page|
      invariant i <= |page| && Rising(page[..i], cursor)
      invariant previous == if i == 0 then cursor else Some(KeyOf(page[i - 1]))
    {
      if !Above(page[i], previous) {
        assert i > 0 ==> !Less(KeyOf(page[i - 1]), KeyOf(page[i]));
        return false;
      }
      previous, i := Some(KeyOf(page[i])), i + 1;
    }
    assert page[..|page|] == page;
    return true;
  }

  /** Rows of a table from rising places. */
  ghost predicate FromPlaces(page: seq<Row>, table: seq<Row>, places: seq<nat>) {
    && |places| == |page| && (forall i :: 0 <= i < |page| ==> places[i] < |table| && Follows(page[i], table[places[i]]))
    && (forall i, j :: 0 <= i < j < |places| ==> places[i] < places[j])
  }

  function CursorAfter(cursor: Option<Cursor>, rows: seq<Row>): Option<Cursor> {
    if rows == [] then cursor else Some(KeyOf(rows[|rows| - 1]))
  }

  /** Such rows rise from the cursor on, and the last of them is the next cursor. */
  lemma PlacesRise(page: seq<Row>, table: seq<Row>, places: seq<nat>, cursor: Option<Cursor>, k: nat) returns (end: nat)
    requires Ordered(table) && At(table, cursor, k) && FromPlaces(page, table, places) && (page != [] ==> k <= places[0])
    ensures Rising(page, cursor) && Versions(page, table, false) && At(table, CursorAfter(cursor, page), end)
    ensures Covers(page, table, k) ==> end == k + |page|
  {
    hide Mutable;
    end := if page == [] then k else places[|page| - 1] + 1;
    if page != [] && k > 0 { assert Less(KeyOf(table[k - 1]), KeyOf(table[places[0]])); }
    forall i | 0 < i < |page| ensures Less(KeyOf(page[i - 1]), KeyOf(page[i])) {
      assert Less(KeyOf(table[places[i - 1]]), KeyOf(table[places[i]]));
    }
    forall row | row in page ensures VersionOf(row, table, false) {
      var i :| 0 <= i < |page| && page[i] == row;
      assert Follows(row, table[places[i]]);
    }
    if Covers(page, table, k) && page != [] {
      var last := k + |page| - 1;
      assert Follows(page[|page| - 1], table[last]) && Follows(page[|page| - 1], table[end - 1]);
      assert !(last < end - 1) && !(end - 1 < last);
    }
  }

  /** What reading a page from position k on comes to: versions of rows of the table; unless the page was split, all that
      is next; and if split, either only the first of it or a page that strays. */
  ghost predicate PageRead(page: seq<Row>, table: seq<Row>, k: nat, limit: nat, split: bool) {
    && |page| <= limit && Versions(page, table, false)
    && (!split ==> NextRows(page, table, k, limit))
    && (split ==> Strays(page, table, k) || (Covers(page, table, k) && |page| < limit))
  }

  lemma FirstPage(table: seq<Row>, limit: nat) returns (end: nat)
    requires Ordered(table)
    ensures var page := First(Select(table, Everything), limit);
            && page == First(table[0..], limit) && PageRead(page, table, 0, limit, false) && Rising(page, None)
            && At(table, CursorAfter(None, page), end) && end == |page|
  {
    SelectAll(table, Everything);
    var page := First(table, limit);
    assert table[0..] == table;
    forall i | 0 <= i < |table| ensures Follows(table[i], table[i]) {}
    var places := seq(|page|, i requires 0 <= i < |page| => i);
    end := PlacesRise(page, table, places, None, 0);
  }

  lemma TwoRequestPageRead(early: seq<Row>, late: seq<Row>, c: Cursor, k: nat, limit: nat) returns (end: nat)
    requires Ordered(early) && Grown(early, late) && At(early, Some(c), k)
    ensures var page := TwoRequestPage(early, late, c, limit);
            && PageRead(page, late, k, limit, !Undisturbed(early, late, c, limit)) && Rising(page, Some(c))
            && At(late, CursorAfter(Some(c), page), end) && (Covers(page, late, k) ==> end == k + |page|)
            && (early == late ==> Undisturbed(early, late, c, limit) && page == First(late[k..], limit))
  {
    hide TwoRequestPage, Ordered, DistinctIds, Mutable, Select, Less, Versions, Strays, Rising;
    var page := TwoRequestPage(early, late, c, limit);
    PageCoversIff(early, late, c, k, limit);
    PagePassesOverIff(early, late, c, k, limit);
    AtStays(early, late, Some(c), k);
    var qe, ql := EndsGrow(early, late, c, k);
    PagePlaces(early, late, c, limit, k, qe, ql);
    var places := seq(|page|, i requires 0 <= i < |page| => Place(k, qe, ql, i));
    end := PlacesRise(page, late, places, Some(c), k);
  }

  /** `_keyset_page`. `split` says whether a row of the cursor's own instant came between its two requests, and `end` is the
      place after its last row. */
  method KeysetPage(g: Gateway, cursor: Option<Cursor>, ghost k: nat, limit: nat)
    returns (r: Result<seq<Row>, CacheError>, ghost split: bool, ghost end: nat)
    requires g.Valid() && At(g.table, cursor, k) && limit >= 1
    modifies g
    ensures g.Valid() && MovedOn(old(g.table), old(g.future), g.table, g.future)
    ensures g.unanswered == old(g.unanswered) + (if r.Err? then 1 else 0) && g.asked == old(g.asked)
    ensures r.Ok? ==> PageRead(r.value, g.table, k, limit, split) && Rising(r.value, cursor)
    ensures r.Ok? ==> At(g.table, CursorAfter(cursor, r.value), end) && (Covers(r.value, g.table, k) ==> end == k + |r.value|)
    ensures r.Ok? && cursor.Some? ==>
              (split <==> |old(g.future)| > 1 && !Undisturbed(old(g.future)[0], old(g.future)[1], cursor.value, limit))
    ensures split ==> r.Ok? && cursor.Some? && Disturbed(old(g.future), 0, k, limit)
    ensures split ==> |old(g.table)| < |g.table|
    ensures r.Ok? && Quiet(old(g.table), old(g.future)) ==> r.value == First(g.table[k..], limit)
    ensures r.Err? ==> r.error == RequestFailed
  {
    hide Grown, Ordered, DistinctIds, At, Select, PageRead, Quiet, Covers, Chain, MovedOn, Undisturbed, Rising;
    ghost var start, future, quiet := g.table, g.future, Quiet(g.table, g.future);
    split := false;
    var page;
    match cursor {
      case None =>
        var all := g.Request(Everything, limit);
        if all.None? { return Err(RequestFailed), false, 0; }
        page := all.value;
        assert k == 0 by { AtNone(start, k); }
        end := FirstPage(g.table, limit);
      case Some(c) =>
        var same := g.Request(SameInstant(c), limit);
        if same.None? { return Err(RequestFailed), false, 0; }
        ghost var early, between := g.table, g.future;
        AtStaysMoved(start, future, early, between, cursor, k);
        page := same.value;
        if |page| < limit {
          var later := g.Request(LaterInstant(c), limit - |page|);
          MovedOnTwice(start, future, early, between, g.table, g.future);
          if later.None? { return Err(RequestFailed), false, 0; }
          page := page + later.value;
        } else {
          MovedOnItself(g.table, g.future);
        }
        assert page == TwoRequestPage(early, g.table, c, limit);
        split := !Undisturbed(early, g.table, c, limit);
        MovedOnMeans(start, future, early, between);
        MovedOnMeans(early, between, g.table, g.future);
        end := TwoRequestPageRead(early, g.table, c, k, limit);
        SplitFacts(start, future, g.table, c, k, limit);
        if quiet { QuietStays(start, future, early, between, g.table, g.future); }
    }
    var ok := CheckRising(page, cursor);
    if !ok {
      r := Err(NonMonotonic);
      return;
    }
    return Ok(page), split, end;
  }

  lemma MovedOnMeans(a: seq<Row>, af: seq<seq<Row>>, b: seq<Row>, bf: seq<seq<Row>>)
    requires MovedOn(a, af, b, bf)
    ensures Grown(a, b) && Rest(bf, af) && |a| <= |b| && Ordered(b) && DistinctIds(b)
  {
    hide Quiet, Ordered, DistinctIds;
  }

  lemma QuietStays(a: seq<Row>, af: seq<seq<Row>>, b: seq<Row>, bf: seq<seq<Row>>, c: seq<Row>, cf: seq<seq<Row>>)
    requires MovedOn(a, af, b, bf) && MovedOn(b, bf, c, cf) && Quiet(a, af)
    ensures b == a && c == a
  {
    hide Grown, Quiet;
  }

  /** When a page is split. Its later table is that of the second request, or there was none. */
  lemma SplitFacts(start: seq<Row>, future: seq<seq<Row>>, late: seq<Row>, c: Cursor, k: nat, limit: nat)
    requires future != [] && Grown(start, future[0]) && At(start, Some(c), k)
    requires || (|future| > 1 && late == future[1])
             || (late == future[0] && |First(Select(future[0], SameInstant(c)), limit)| == limit)
    ensures !Undisturbed(future[0], late, c, limit) <==> |future| > 1 && !Undisturbed(future[0], future[1], c, limit)
    ensures !Undisturbed(future[0], late, c, limit) ==> Disturbed(future, 0, k, limit) && |start| < |late|
  {
    hide Mutable, Select, Ordered, DistinctIds;
  }

  lemma MovedOnItself(table: seq<Row>, future: seq<seq<Row>>)
    requires Ordered(table) && DistinctIds(table)
    ensures MovedOn(table, future, table, future)
  {
    hide Ordered, DistinctIds;
    GrownItself(table);
  }

  lemma AtNone(table: seq<Row>, k: nat)
    requires At(table, None, k)
    ensures k == 0
  {
  }

  lemma AtStaysMoved(a: seq<Row>, af: seq<seq<Row>>, b: seq<Row>, bf: seq<seq<Row>>, cursor: Option<Cursor>, k: nat)
    requires MovedOn(a, af, b, bf) && At(a, cursor, k)
    ensures At(b, cursor, k)
  {
    hide Quiet;
    AtStays(a, b, cursor, k);
  }

  // ---- The delta ----

  /** What was gathered from position k on; `at` is the place after it. */
  ghost predicate Gathered(rows: seq<Row>, table: seq<Row>, k: nat, at: nat, split: bool) {
    && k <= |table| && Versions(rows, table, false)
    && if split then Strays(rows, table, k) else Covers(rows, table, k) && at == k + |rows|
  }

  lemma GatheredLater(rows: seq<Row>, a: seq<Row>, b: seq<Row>, k: nat, at: nat, split: bool)
    requires Gathered(rows, a, k, at, split) && Grown(a, b)
    ensures Gathered(rows, b, k, at, split)
  {
    hide Mutable, Ordered, DistinctIds, VersionOf;
    forall row | row in rows ensures VersionOf(row, b, false) { VersionLater(row, a, b); }
    if split {
      var i :| 0 <= i < |rows| && k + i < |a| && KeyOf(rows[i]) != KeyOf(a[k + i]);
      assert Follows(a[k + i], b[k + i]);
    } else {
      CoversLater(rows, a, b, k);
    }
  }

  /** One more page at the end of what was gathered. */
  lemma GatherPage(rows: seq<Row>, page: seq<Row>, table: seq<Row>, k: nat, at: nat, limit: nat, before: bool, split: bool)
    requires Gathered(rows, table, k, at, before) && PageRead(page, table, at, limit, split)
    ensures Versions(rows + page, table, false)
    ensures Covers(rows + page, table, k) || (Strays(rows + page, table, k) && (before || split))
    ensures !before && !split ==> NextRows(page, table, k + |rows|, limit) && Covers(rows + page, table, k)
    ensures |page| == limit ==> if before || split then Strays(rows + page, table, k) else Covers(rows + page, table, k)
  {
    hide Mutable, VersionOf;
    var all := rows + page;
    if before {
      var i :| 0 <= i < |rows| && k + i < |table| && KeyOf(rows[i]) != KeyOf(table[k + i]);
      assert all[i] == rows[i];
    } else if split && Strays(page, table, at) {
      var i :| 0 <= i < |page| && at + i < |table| && KeyOf(page[i]) != KeyOf(table[at + i]);
      assert all[|rows| + i] == page[i] && k + (|rows| + i) == at + i;
    } else {
      forall i | 0 <= i < |all| ensures Follows(all[i], table[k + i]) {
        if i >= |rows| { assert Follows(page[i - |rows|], table[at + (i - |rows|)]); }
      }
    }
  }

  lemma CursorGathered(cursor: Option<Cursor>, rows: seq<Row>, page: seq<Row>)
    ensures CursorAfter(CursorAfter(cursor, rows), page) == CursorAfter(cursor, rows + page)
  {
  }

  lemma RisesOn(cursor: Option<Cursor>, rows: seq<Row>, page: seq<Row>)
    requires Rising(rows, cursor) && Rising(page, CursorAfter(cursor, rows))
    ensures Rising(rows + page, cursor)
  {
    var all := rows + page;
    forall i | 0 < i < |all| ensures Less(KeyOf(all[i - 1]), KeyOf(all[i])) {
      if i > |rows| { assert Less(KeyOf(page[i - 1 - |rows|]), KeyOf(page[i - |rows|])); }
    }
  }

  lemma CoversOrStrays(rows: seq<Row>, table: seq<Row>, k: nat)
    ensures !(Covers(rows, table, k) && Strays(rows, table, k))
  {
    hide Mutable;
  }

  /** What `_fetch_authority_delta_raw` reads: versions of rows of the table; unless a page was split, everything above the
      cursor; and in any case either the first of that or rows that stray, having passed over one. */
  ghost predicate DeltaRead(rows: seq<Row>, table: seq<Row>, k: nat, split: bool) {
    && Versions(rows, table, false) && (Covers(rows, table, k) <==> !Strays(rows, table, k))
    && (!split ==> Covers(rows, table, k) && k + |rows| == |table|)
  }

  /** How far the reading has come, on the table as it now is, from the table and requests it started with. */
  ghost predicate Reading(start: seq<Row>, future: seq<seq<Row>>, table: seq<Row>, now: seq<seq<Row>>,
                          cursor: Option<Cursor>, rows: seq<Row>, k: nat, at: nat, split: bool) {
    && MovedOn(start, future, table, now) && |start| <= |table| && Gathered(rows, table, k, at, split)
    && Rising(rows, cursor) && At(table, CursorAfter(cursor, rows), at)
    && (split ==> SomeDisturbed(future) && |start| < |table|)
    && (Quiet(start, future) ==> Quiet(table, now) && !split && k <= at <= |table| && at == k + |rows| && rows == table[k..at])
  }

  lemma ReadingStarts(table: seq<Row>, future: seq<seq<Row>>, cursor: Option<Cursor>, k: nat)
    requires Ordered(table) && DistinctIds(table) && At(table, cursor, k)
    ensures Reading(table, future, table, future, cursor, [], k, k, false)
  {
    hide Ordered, DistinctIds, MovedOn, Quiet, Gathered;
    MovedOnItself(table, future);
    NothingGathered(table, cursor, k);
    assert table[k..k] == [];
  }

  /** What a whole reading ends with. */
  ghost predicate Finished(start: seq<Row>, future: seq<seq<Row>>, table: seq<Row>, cursor: Option<Cursor>, rows: seq<Row>,
                           k: nat, at: nat, split: bool) {
    && DeltaRead(rows, table, k, split) && Rising(rows, cursor)
    && At(table, CursorAfter(cursor, rows), at) && (Covers(rows, table, k) ==> at == k + |rows|)
    && (split ==> SomeDisturbed(future) && |start| < |table|)
    && (Quiet(start, future) ==> !split && k <= |table| && rows == table[k..])
  }

  /** One more page: a full one leads on, a short one ends the reading. */
  lemma ReadingGoesOn(start: seq<Row>, future: seq<seq<Row>>, a: seq<Row>, af: seq<seq<Row>>, b: seq<Row>, bf: seq<seq<Row>>,
                      cursor: Option<Cursor>, rows: seq<Row>, page: seq<Row>, k: nat, at: nat, end: nat, size: nat, split: bool, cut: bool)
    requires Reading(start, future, a, af, cursor, rows, k, at, split) && MovedOn(a, af, b, bf)
    requires PageRead(page, b, at, size, cut) && Rising(page, CursorAfter(cursor, rows))
    requires At(b, CursorAfter(CursorAfter(cursor, rows), page), end) && (Covers(page, b, at) ==> end == at + |page|)
    requires cut ==> Disturbed(af, 0, at, size) && |a| < |b|
    requires Quiet(a, af) ==> page == First(b[at..], size)
    ensures |page| <= size
    ensures |page| == size ==> Reading(start, future, b, bf, cursor, rows + page, k, end, split || cut)
    ensures |page| < size ==> Finished(start, future, b, cursor, rows + page, k, end, split || cut)
  {
    hide Grown, Ordered, DistinctIds, At, PageRead, Quiet, Covers, Strays, MovedOn, Gathered, Versions, NextRows, SomeDisturbed, Rest,
      Disturbed, Rising, DeltaRead;
    MovedOnMeans(a, af, b, bf);
    MovedOnMeans(start, future, a, af);
    if cut { DisturbedIsSome(af, at, size); RestDisturbed(af, future); }
    MovedOnTwice(start, future, a, af, b, bf);
    GatheredLater(rows, a, b, k, at, split);
    if Quiet(start, future) { QuietPage(a, af, b, bf, rows, page, k, at, size); }
    GatherPage(rows, page, b, k, at, size, split, cut);
    GatheredEnds(rows, page, b, k, at, end, size, split, cut);
    CursorGathered(cursor, rows, page);
    RisesOn(cursor, rows, page);
    PageSize(page, b, at, size, cut);
    if Quiet(start, future) && cut { assert false; }
  }

  /** `_fetch_authority_delta_raw`: everything above the cursor, in at most `pages` pages. */
  method Delta(g: Gateway, cursor: Option<Cursor>, ghost k: nat, size: nat, pages: nat)
    returns (r: Result<seq<Row>, CacheError>, ghost split: bool, ghost at: nat)
    requires g.Valid() && At(g.table, cursor, k) && size >= 1
    modifies g
    ensures g.Valid() && MovedOn(old(g.table), old(g.future), g.table, g.future)
    ensures r.Ok? ==> DeltaRead(r.value, g.table, k, split) && Rising(r.value, cursor) && |r.value| < pages * size
    ensures r.Ok? ==> At(g.table, CursorAfter(cursor, r.value), at) && (Covers(r.value, g.table, k) ==> at == k + |r.value|)
    ensures r.Ok? && Quiet(old(g.table), old(g.future)) ==> !split && r.value == g.table[k..]
    ensures split ==> SomeDisturbed(old(g.future)) && |old(g.table)| < |g.table|
    ensures r.Err? ==> r.error == RequestFailed || r.error == PageCapHit
    ensures g.unanswered == old(g.unanswered) + (if r == Err(RequestFailed) then 1 else 0) && g.asked == old(g.asked)
    ensures r == Err(PageCapHit) && !split ==> |g.table| - k >= pages * size
  {
    hide Grown, Ordered, DistinctIds, At, PageRead, Quiet, Covers, Chain, MovedOn, Undisturbed, SomeDisturbed, Disturbed, Rising,
      DeltaRead, Reading;
    ghost var start, future := g.table, g.future;
    var rows, current, n := [], cursor, 0;
    split, at := false, k;
    ReadingStarts(g.table, g.future, cursor, k);
    while n < pages
      invariant n <= pages && g.Valid() && g.unanswered == old(g.unanswered) && g.asked == old(g.asked) && |rows| == n * size
      invariant Reading(start, future, g.table, g.future, cursor, rows, k, at, split) && current == CursorAfter(cursor, rows)
    {
      ghost var a, af, before := g.table, g.future, at;
      ReadingMeans(start, future, a, af, cursor, rows, k, at, split);
      var page;
      ghost var cut;
      page, cut, at := KeysetPage(g, current, at, size);
      MovedOnTwice(start, future, a, af, g.table, g.future);
      if page.Err? { return Err(page.error), false, 0; }
      ReadingGoesOn(start, future, a, af, g.table, g.future, cursor, rows, page.value, k, before, at, size, split, cut);
      CursorGathered(cursor, rows, page.value);
      split, rows := split || cut, rows + page.value;
      if |page.value| < size {
        BelowCap(n, pages, size, |rows|);
        return Ok(rows), split, at;
      }
      current := CursorAfter(current, page.value);
      assert n * size + size == (n + 1) * size;
      n := n + 1;
    }
    ReadingMeans(start, future, g.table, g.future, cursor, rows, k, at, split);
    return Err(PageCapHit), split, at;
  }

  lemma ReadingMeans(start: seq<Row>, future: seq<seq<Row>>, table: seq<Row>, now: seq<seq<Row>>,
                     cursor: Option<Cursor>, rows: seq<Row>, k: nat, at: nat, split: bool)
    requires Reading(start, future, table, now, cursor, rows, k, at, split)
    ensures MovedOn(start, future, table, now) && At(table, CursorAfter(cursor, rows), at)
    ensures (split ==> SomeDisturbed(future) && |start| < |table|) && (!split ==> |table| - k >= |rows|)
  {
    hide MovedOn, SomeDisturbed, Quiet, At;
  }

  lemma NothingGathered(table: seq<Row>, cursor: Option<Cursor>, k: nat)
    requires At(table, cursor, k)
    ensures k <= |table| && Gathered([], table, k, k, false) && table[k..k] == []
  {
  }

  lemma DisturbedIsSome(future: seq<seq<Row>>, k: nat, limit: nat)
    requires Disturbed(future, 0, k, limit)
    ensures SomeDisturbed(future)
  {
    hide Disturbed;
  }

  lemma PageSize(page: seq<Row>, table: seq<Row>, k: nat, limit: nat, split: bool)
    requires PageRead(page, table, k, limit, split)
    ensures |page| <= limit
  {
  }

  /** A short page ends the reading, and otherwise what was gathered stays gathered. */
  lemma GatheredEnds(rows: seq<Row>, page: seq<Row>, table: seq<Row>, k: nat, before: nat, at: nat, limit: nat, was: bool, cut: bool)
    requires Gathered(rows, table, k, before, was) && PageRead(page, table, before, limit, cut)
    requires Covers(page, table, before) ==> at == before + |page|
    requires Versions(rows + page, table, false)
    requires Covers(rows + page, table, k) || (Strays(rows + page, table, k) && (was || cut))
    requires !was && !cut ==> NextRows(page, table, k + |rows|, limit) && Covers(rows + page, table, k)
    requires |page| == limit ==> if was || cut then Strays(rows + page, table, k) else Covers(rows + page, table, k)
    ensures |page| == limit ==> Gathered(rows + page, table, k, at, was || cut)
    ensures |page| < limit ==> DeltaRead(rows + page, table, k, was || cut)
    ensures Covers(rows + page, table, k) ==> at == k + |rows + page|
  {
    hide VersionOf, Mutable;
    CoversOrStrays(rows + page, table, k);
    if Covers(rows + page, table, k) {
      assert !was by { if was { StraysOn(rows, page, table, k); } }
      forall i | 0 <= i < |page| ensures Follows(page[i], table[before + i]) {
        assert (rows + page)[|rows| + i] == page[i] && Follows((rows + page)[|rows| + i], table[k + (|rows| + i)]);
      }
    }
  }

  lemma StraysOn(rows: seq<Row>, page: seq<Row>, table: seq<Row>, k: nat)
    requires Strays(rows, table, k)
    ensures Strays(rows + page, table, k)
  {
    var i :| 0 <= i < |rows| && k + i < |table| && KeyOf(rows[i]) != KeyOf(table[k + i]);
    assert (rows + page)[i] == rows[i];
  }

  lemma QuietPage(a: seq<Row>, af: seq<seq<Row>>, b: seq<Row>, bf: seq<seq<Row>>, rows: seq<Row>, page: seq<Row>,
                  k: nat, at: nat, limit: nat)
    requires MovedOn(a, af, b, bf) && Quiet(a, af) && k <= at <= |a| && rows == a[k..at] && page == First(b[at..], limit)
    ensures b == a && Quiet(b, bf) && at + |page| <= |b| && rows + page == b[k..at + |page|] && (|page| < limit ==> at + |page| == |b|)
    ensures !SomeDisturbed(af)
  {
    hide Grown, Quiet;
    QuietIsUndisturbed(a, af);
  }

  lemma BelowCap(n: nat, pages: nat, size: nat, count: nat)
    requires n < pages && count < n * size + size
    ensures count < pages * size
  {
    Scaled(n + 1, pages, size);
  }

  lemma {:induction false} Scaled(m: nat, n: nat, size: nat)
    requires m <= n
    ensures m * size <= n * size
    decreases n
  {
    if m < n { Scaled(m, n - 1, size); }
  }

  // ---- The refresh ----

  function IdsOf(rows: seq<Row>): (r: seq<int>)
    ensures |r| == |rows| && forall i :: 0 <= i < |r| ==> r[i] == rows[i].id
  {
    seq(|rows|, i requires 0 <= i < |rows| => rows[i].id)
  }

  lemma {:induction false} WithIdsDistinct(table: seq<Row>, ids: seq<int>)
    requires DistinctIds(table)
    ensures DistinctIds(WithIds(table, ids))
  {
    if table != [] {
      WithIdsDistinct(table[1..], ids);
      var rest := WithIds(table[1..], ids);
      forall i | 0 <= i < |rest| ensures rest[i].id != table[0].id { assert rest[i] in table[1..]; }
    }
  }

  /** The limit of a lookup by id never cuts off a row. */
  lemma LookupIsComplete(table: seq<Row>, ids: seq<int>)
    requires DistinctIds(table) && NoRepeats(ids)
    ensures First(WithIds(table, ids), |ids|) == WithIds(table, ids)
  {
    var found := WithIds(table, ids);
    WithIdsDistinct(table, ids);
    var names := IdsOf(found);
    var wanted, got := set id | id in ids, set id | id in names;
    assert got <= wanted by {
      forall id | id in names ensures id in ids {
        var i :| 0 <= i < |names| && names[i] == id;
        assert found[i] in found;
      }
    }
    NoRepeatsSize(ids, wanted);
    NoRepeatsSize(names, got);
    SubsetSize(got, wanted);
  }

  /** Versions of the listed rows that the table has had; the current ones if nothing was written. */
  ghost predicate Versions(rows: seq<Row>, table: seq<Row>, quiet: bool) {
    forall row <- rows :: VersionOf(row, table, quiet)
  }

  lemma VersionsLater(rows: seq<Row>, a: seq<Row>, af: seq<seq<Row>>, b: seq<Row>, bf: seq<seq<Row>>, quiet: bool)
    requires Versions(rows, a, quiet) && MovedOn(a, af, b, bf) && (quiet ==> Quiet(a, af))
    ensures Versions(rows, b, quiet) && (quiet ==> Quiet(b, bf))
  {
    hide Quiet, Mutable, Ordered, DistinctIds;
    forall row | row in rows ensures VersionOf(row, b, quiet) {
      assert VersionOf(row, a, quiet);
      var i :| 0 <= i < |a| && Follows(row, a[i]) && (quiet ==> row == a[i]);
      assert Follows(a[i], b[i]);
      FollowsTransitive(row, a[i], b[i]);
    }
  }

  lemma RowsAreVersions(table: seq<Row>, rows: seq<Row>)
    requires forall row <- rows :: row in table
    ensures Versions(rows, table, true) && Versions(rows, table, false)
  {
    forall row | row in rows ensures VersionOf(row, table, true) && VersionOf(row, table, false) {
      var i :| 0 <= i < |table| && table[i] == row;
      assert Follows(row, table[i]);
    }
  }

  /** The first `at` of the listed rows, each in a version the table has had. */
  ghost predicate Refreshing(rows: seq<Row>, table: seq<Row>, ids: seq<int>, at: nat, quiet: bool) {
    && at <= |ids| && Versions(rows, table, quiet) && (forall row <- rows :: row.id in ids)
    && forall i :: 0 <= i < at ==> ids[i] in IdsOf(rows)
  }

  /** One more batch, on the table as it now is. */
  lemma RefreshingGoesOn(rows: seq<Row>, found: seq<Row>, a: seq<Row>, af: seq<seq<Row>>, b: seq<Row>, bf: seq<seq<Row>>,
                         ids: seq<int>, at: nat, next: nat, quiet: bool)
    requires Refreshing(rows, a, ids, at, quiet) && MovedOn(a, af, b, bf) && (quiet ==> Quiet(a, af)) && at <= next <= |ids|
    requires found == WithIds(b, ids[at..next]) && forall id <- ids[at..next] :: id in IdsOf(found)
    ensures Refreshing(rows + found, b, ids, next, quiet) && (quiet ==> Quiet(b, bf))
  {
    hide MovedOn, Quiet, Versions, WithIds;
    var part := ids[at..next];
    VersionsLater(rows, a, af, b, bf, quiet);
    RowsAreVersions(b, found);
    JoinVersions(rows, found, b, quiet);
    forall row | row in rows + found ensures row.id in ids {
      if row in found { PartOfIds(ids, at, next, row.id); }
    }
    forall i | 0 <= i < next ensures ids[i] in IdsOf(rows + found) {
      if i >= at { assert part[i - at] == ids[i]; assert ids[i] in part; }
      JoinIds(rows, found, ids[i]);
    }
  }

  /** `_refresh_mutable_rows`: the listed rows, looked up in batches. */
  method Refresh(g: Gateway, ids: seq<int>, batch: nat) returns (r: Result<seq<Row>, CacheError>)
    requires g.Valid() && NoRepeats(ids) && batch >= 1 && forall id <- ids :: id in IdsOf(g.table)
    modifies g
    ensures g.Valid() && MovedOn(old(g.table), old(g.future), g.table, g.future)
    ensures r.Ok? ==> Versions(r.value, g.table, Quiet(old(g.table), old(g.future)))
    ensures r.Ok? ==> (forall row <- r.value :: row.id in ids) && (forall id <- ids :: id in IdsOf(r.value))
    ensures r.Err? ==> r.error == RequestFailed
    ensures g.unanswered == old(g.unanswered) + (if r.Err? then 1 else 0)
    ensures r.Ok? ==> g.asked == old(g.asked) + ids
    ensures old(g.asked) <= g.asked <= old(g.asked) + ids
  {
    hide Grown, Ordered, Quiet, Chain, MovedOn, Versions, DistinctIds, First, Refreshing, IdsOf;
    ghost var start, future, quiet := g.table, g.future, Quiet(g.table, g.future);
    var rows: seq<Row>, at := [], 0;
    MovedOnItself(g.table, g.future);
    assert Refreshing(rows, g.table, ids, 0, quiet) by { NothingRefreshed(g.table, ids, quiet); }
    while at < |ids|
      invariant 0 <= at <= |ids| && g.Valid() && MovedOn(start, future, g.table, g.future)
      invariant g.unanswered == old(g.unanswered) && g.asked == old(g.asked) + ids[..at]
      invariant Refreshing(rows, g.table, ids, at, quiet) && (quiet ==> Quiet(g.table, g.future))
      invariant forall id <- ids :: id in IdsOf(g.table)
    {
      var next := Min(at + batch, |ids|);
      var part := ids[at..next];
      assert ids[..at] + part == ids[..next];
      ghost var a, af := g.table, g.future;
      var found := g.RequestIds(part);
      MovedOnTwice(start, future, a, af, g.table, g.future);
      AskedSoFar(ids, old(g.asked), at, next);
      if found.None? { return Err(RequestFailed); }
      IdsStay(a, af, g.table, g.future);
      LookupIsComplete(g.table, part);
      PartIsFound(g.table, part, found.value);
      if exists id <- part :: id !in IdsOf(found.value) { return Err(RowDisappeared); }
      RefreshingGoesOn(rows, found.value, a, af, g.table, g.future, ids, at, next, quiet);
      rows, at := rows + found.value, next;
    }
    assert ids[..at] == ids;
    RefreshingEnds(rows, g.table, ids, quiet);
    return Ok(rows);
  }

  lemma NothingRefreshed(table: seq<Row>, ids: seq<int>, quiet: bool)
    ensures Refreshing([], table, ids, 0, quiet)
  {
  }

  lemma RefreshingEnds(rows: seq<Row>, table: seq<Row>, ids: seq<int>, quiet: bool)
    requires Refreshing(rows, table, ids, |ids|, quiet)
    ensures Versions(rows, table, quiet) && (forall row <- rows :: row.id in ids) && forall id <- ids :: id in IdsOf(rows)
  {
    hide Versions;
  }

  lemma AskedSoFar(ids: seq<int>, before: seq<int>, at: nat, next: nat)
    requires at <= next <= |ids|
    ensures before <= before + ids[..at] + ids[at..next] <= before + ids
  {
    assert ids[..at] + ids[at..next] == ids[..next];
    assert before + ids[..at] + ids[at..next] == before + ids[..next];
  }

  lemma IdsStay(a: seq<Row>, af: seq<seq<Row>>, b: seq<Row>, bf: seq<seq<Row>>)
    requires MovedOn(a, af, b, bf)
    ensures forall id <- IdsOf(a) :: id in IdsOf(b)
  {
    hide Quiet, Mutable, Ordered, DistinctIds;
    forall id | id in IdsOf(a) ensures id in IdsOf(b) {
      var i :| 0 <= i < |a| && IdsOf(a)[i] == id;
      assert Follows(a[i], b[i]);
      assert IdsOf(b)[i] == id;
    }
  }

  lemma PartIsFound(table: seq<Row>, part: seq<int>, found: seq<Row>)
    requires found == WithIds(table, part) && forall id <- part :: id in IdsOf(table)
    ensures forall id <- part :: id in IdsOf(found)
  {
    forall id | id in part ensures id in IdsOf(found) {
      assert id in IdsOf(table);
      var i :| 0 <= i < |table| && IdsOf(table)[i] == id;
      assert table[i] in table;
      assert table[i] in found;
      var j :| 0 <= j < |found| && found[j] == table[i];
      assert IdsOf(found)[j] == id;
    }
  }

  lemma JoinVersions(a: seq<Row>, b: seq<Row>, table: seq<Row>, quiet: bool)
    requires Versions(a, table, quiet) && Versions(b, table, true) && Versions(b, table, false)
    ensures Versions(a + b, table, quiet)
  {
    hide VersionOf;
  }

  lemma PartOfIds(ids: seq<int>, at: nat, next: nat, id: int)
    requires at <= next <= |ids| && id in ids[at..next]
    ensures id in ids
  {
  }

  lemma JoinIds(a: seq<Row>, b: seq<Row>, id: int)
    requires id in IdsOf(a) || id in IdsOf(b)
    ensures id in IdsOf(a + b)
  {
    if id in IdsOf(a) {
      var i :| 0 <= i < |a| && IdsOf(a)[i] == id;
      assert IdsOf(a + b)[i] == id;
    } else {
      var i :| 0 <= i < |b| && IdsOf(b)[i] == id;
      assert IdsOf(a + b)[|a| + i] == id;
    }
  }

  // ---- The cache ----

  /** The runtime seal: a digest of rows and cursor, taken as injective. */
  datatype Seal = Seal(count: nat, cursor: Option<Cursor>, ordered: seq<Row>)

  function SealOf(d: Dict, cursor: Option<Cursor>): Seal
    requires DictOk(d)
  {
    Seal(|d.order|, cursor, OrderedRows(d))
  }

  datatype CacheState = CacheState(dict: Dict, cursor: Option<Cursor>, seal: Seal)

  ghost predicate Sealed(s: CacheState) { DictOk(s.dict) && s.seal == SealOf(s.dict, s.cursor) }

  /** The seal file, and what reading it can come to. */
  datatype Durable = Missing | Broken | Saved(rows: seq<Row>, cursor: Option<Cursor>)

  /** What always holds of the cache and its file. */
  ghost predicate StateSound(state: Option<CacheState>, durable: Durable, table: seq<Row>) {
    && (state.Some? ==> Sound(state.value.dict, state.value.cursor, table))
    && (durable.Saved? ==> Sound(PutAll(EMPTY, durable.rows), durable.cursor, table))
  }

  /** Neither has passed over a row. */
  ghost predicate StateWhole(state: Option<CacheState>, durable: Durable, table: seq<Row>) {
    && (state.Some? ==> Coherent(state.value.dict, state.value.cursor, table))
    && (durable.Saved? ==> Coherent(PutAll(EMPTY, durable.rows), durable.cursor, table))
  }

  lemma StateLater(state: Option<CacheState>, durable: Durable, a: seq<Row>, af: seq<seq<Row>>, b: seq<Row>, bf: seq<seq<Row>>)
    requires StateSound(state, durable, a) && Ordered(a) && MovedOn(a, af, b, bf)
    ensures StateSound(state, durable, b) && (StateWhole(state, durable, a) ==> StateWhole(state, durable, b))
  {
    hide Coherent, Sound, Quiet, Ordered, DistinctIds, Rest;
    if state.Some? { SoundLater(state.value.dict, state.value.cursor, a, b); }
    if durable.Saved? { SoundLater(PutAll(EMPTY, durable.rows), durable.cursor, a, b); }
    if StateWhole(state, durable, a) {
      if state.Some? { CoherentLater(state.value.dict, state.value.cursor, a, b); }
      if durable.Saved? { CoherentLater(PutAll(EMPTY, durable.rows), durable.cursor, a, b); }
    }
  }

  lemma {:induction false} PutAllRows(rows: seq<Row>)
    requires DistinctIds(rows)
    ensures DictOk(PutAll(EMPTY, rows))
    ensures forall row :: row in rows <==> row.id in PutAll(EMPTY, rows).rows && PutAll(EMPTY, rows).rows[row.id] == row
    ensures forall id <- PutAll(EMPTY, rows).rows :: exists row <- rows :: row.id == id
  {
    if rows != [] {
      var init, last := rows[..|rows| - 1], rows[|rows| - 1];
      PutAllRows(init);
      var d := PutAll(EMPTY, init);
      PutKeeps(d, last);
      assert rows == init + [last];
      assert last.id !in d.rows by {
        forall row | row in init ensures row.id != last.id { var i :| 0 <= i < |init| && init[i] == row; }
      }
      forall row ensures row in rows <==> row.id in Put(d, last).rows && Put(d, last).rows[row.id] == row {
        assert row in rows <==> row in init || row == last;
      }
    }
  }

  /** What is saved reads back as the same rows. */
  lemma SavedReadsBack(d: Dict)
    requires DictOk(d)
    ensures DictOk(PutAll(EMPTY, OrderedRows(d))) && PutAll(EMPTY, OrderedRows(d)).rows == d.rows
  {
    hide Mutable, OrderedRows;
    SortedValuesOrdered(d);
    var rows := OrderedRows(d);
    OrderedIdsDiffer(d);
    PutAllRows(rows);
    var e := PutAll(EMPTY, rows);
    forall id ensures id in e.rows <==> id in d.rows {
      if id in d.rows { assert d.rows[id] in rows; }
      if id in e.rows { var row :| row in rows && row.id == id; }
    }
    forall id | id in d.rows ensures e.rows[id] == d.rows[id] { assert d.rows[id] in rows; }
    assert e.rows == d.rows;
  }

  /** A dictionary read back is as good as the one saved. */
  lemma SavedIsAsGood(d: Dict, cursor: Option<Cursor>, table: seq<Row>)
    requires DictOk(d)
    ensures Coherent(PutAll(EMPTY, OrderedRows(d)), cursor, table) <==> Coherent(d, cursor, table)
    ensures Sound(PutAll(EMPTY, OrderedRows(d)), cursor, table) <==> Sound(d, cursor, table)
  {
    hide DictOk, OrderedRows, At, VersionOf, Mutable;
    SavedReadsBack(d);
  }

  lemma OrderedIdsDiffer(d: Dict)
    requires DictOk(d)
    ensures DistinctIds(OrderedRows(d))
  {
    SortedIdsDiffer(d, Values(d), OrderedRows(d));
  }

  // ---- Rows passed over are gone ----

  lemma {:induction false} FirstStray(rows: seq<Row>, table: seq<Row>, k: nat, i: nat) returns (j: nat)
    requires i < |rows| && k + i < |table| && KeyOf(rows[i]) != KeyOf(table[k + i])
    ensures j <= i && KeyOf(rows[j]) != KeyOf(table[k + j])
    ensures forall m :: 0 <= m < j ==> KeyOf(rows[m]) == KeyOf(table[k + m])
  {
    if m: nat :| m < i && KeyOf(rows[m]) != KeyOf(table[k + m]) {
      j := FirstStray(rows, table, k, m);
    } else {
      j := i;
    }
  }

  lemma {:induction false} RisingPairs(rows: seq<Row>, cursor: Option<Cursor>, i: nat, j: nat)
    requires Rising(rows, cursor) && i < j < |rows|
    ensures Less(KeyOf(rows[i]), KeyOf(rows[j]))
    decreases j
  {
    if i < j - 1 { RisingPairs(rows, cursor, i, j - 1); }
  }

  /** The first row that is not the one due comes from a later place. */
  lemma StraysAhead(rows: seq<Row>, table: seq<Row>, k: nat, cursor: Option<Cursor>, j: nat) returns (x: nat)
    requires Ordered(table) && At(table, cursor, k) && Rising(rows, cursor) && Versions(rows, table, false)
    requires j < |rows| && k + j < |table| && KeyOf(rows[j]) != KeyOf(table[k + j])
    requires forall m :: 0 <= m < j ==> KeyOf(rows[m]) == KeyOf(table[k + m])
    ensures k + j < x < |table| && KeyOf(rows[j]) == KeyOf(table[x])
  {
    hide Mutable;
    assert rows[j] in rows;
    assert VersionOf(rows[j], table, false);
    x :| 0 <= x < |table| && Follows(rows[j], table[x]);
    if j > 0 {
      assert Less(KeyOf(rows[j - 1]), KeyOf(rows[j])) && KeyOf(rows[j - 1]) == KeyOf(table[k + (j - 1)]);
      assert x > k + (j - 1);
    } else if k > 0 {
      assert Above(rows[0], cursor) && x > k - 1;
    }
  }

  lemma {:induction false} PutAllKeys(d: Dict, rows: seq<Row>, id: int)
    ensures id in PutAll(d, rows).rows ==> id in d.rows || exists m :: 0 <= m < |rows| && rows[m].id == id
  {
    if rows != [] {
      var init := rows[..|rows| - 1];
      PutAllKeys(d, init, id);
      if id in PutAll(d, init).rows && id !in d.rows {
        var m :| 0 <= m < |init| && init[m].id == id;
        assert rows[m].id == id;
      }
    }
  }

  /** A reading that strays leaves out a row below the new cursor. */
  lemma StrayedIsNotCovered(d: Dict, rows: seq<Row>, table: seq<Row>, k: nat, at: nat, cursor: Option<Cursor>)
    requires Ordered(table) && DistinctIds(table) && Covered(d, table, k) && At(table, cursor, k)
    requires Rising(rows, cursor) && Versions(rows, table, false) && Strays(rows, table, k)
    requires At(table, CursorAfter(cursor, rows), at)
    ensures !Covered(PutAll(d, rows), table, at)
  {
    hide Mutable, PutAll, Rising, Versions;
    var i :| 0 <= i < |rows| && k + i < |table| && KeyOf(rows[i]) != KeyOf(table[k + i]);
    var j := FirstStray(rows, table, k, i);
    var x := StraysAhead(rows, table, k, cursor, j);
    var missing := table[k + j].id;
    if j < |rows| - 1 { RisingPairs(rows, cursor, j, |rows| - 1); }
    assert k + j < at;
    if missing in PutAll(d, rows).rows {
      PutAllKeys(d, rows, missing);
      if m :| 0 <= m < |rows| && rows[m].id == missing {
        NotMissing(rows, table, k, cursor, j, x, m);
        assert false;
      }
    }
  }

  lemma NotMissing(rows: seq<Row>, table: seq<Row>, k: nat, cursor: Option<Cursor>, j: nat, x: nat, m: nat)
    requires Ordered(table) && DistinctIds(table) && Rising(rows, cursor) && Versions(rows, table, false)
    requires j < |rows| && m < |rows| && k + j < x < |table| && KeyOf(rows[j]) == KeyOf(table[x])
    requires forall m :: 0 <= m < j ==> KeyOf(rows[m]) == KeyOf(table[k + m])
    ensures rows[m].id != table[k + j].id
  {
    hide Mutable, Rising;
    assert rows[m] in rows;
    assert VersionOf(rows[m], table, false);
    var y :| 0 <= y < |table| && Follows(rows[m], table[y]);
    if m > j {
      RisingPairs(rows, cursor, j, m);
      assert Less(KeyOf(table[k + j]), KeyOf(table[x]));
    } else if m < j {
      assert Less(KeyOf(table[k + m]), KeyOf(table[k + j]));
    }
  }

  /** A delta merged into a sound cache keeps it sound. */
  lemma DeltaSound(d: Dict, cursor: Option<Cursor>, rows: seq<Row>, table: seq<Row>, at: nat)
    requires Ordered(table) && Sound(d, cursor, table) && Versions(rows, table, false) && At(table, CursorAfter(cursor, rows), at)
    ensures Sound(PutAll(d, rows), CursorAfter(cursor, rows), table)
  {
    hide Ordered, VersionOf, DictOk;
    PutAllDrawn(d, rows, table);
    AtIsCut(table, CursorAfter(cursor, rows), at);
  }

  /** Merged into a coherent cache it keeps it coherent if and only if it has not strayed. */
  lemma DeltaMerged(d: Dict, cursor: Option<Cursor>, rows: seq<Row>, table: seq<Row>, at: nat)
    requires Ordered(table) && DistinctIds(table) && Coherent(d, cursor, table)
    requires At(table, CursorAfter(cursor, rows), at) && DeltaRead(rows, table, Cut(table, cursor), true)
    requires Covers(rows, table, Cut(table, cursor)) ==> at == Cut(table, cursor) + |rows|
    requires Rising(rows, cursor)
    ensures Coherent(PutAll(d, rows), CursorAfter(cursor, rows), table) <==> Covers(rows, table, Cut(table, cursor))
    ensures Covers(rows, table, Cut(table, cursor)) ==> Covered(PutAll(d, rows), table, at)
  {
    hide Mutable, DistinctIds, Covered, Covers, DictOk, Versions, Strays, Less, Ordered, Rising;
    var k := Cut(table, cursor);
    AtIsCut(table, CursorAfter(cursor, rows), at);
    if Covers(rows, table, k) {
      DeltaCovers(d, rows, table, k);
      CoherentAt(PutAll(d, rows), CursorAfter(cursor, rows), table, at);
    } else {
      StrayedIsNotCovered(d, rows, table, k, at, cursor);
    }
  }

  /** Refreshed rows are written over cached ones; which rows are cached does not change. */
  lemma {:induction false} RefreshMerged(d: Dict, rows: seq<Row>, table: seq<Row>, quiet: bool)
    requires DictOk(d) && DistinctIds(table) && Drawn(d, table) && Versions(rows, table, quiet)
    requires forall row <- rows :: row.id in d.rows
    ensures var e := PutAll(d, rows);
            && DictOk(e) && Drawn(e, table) && e.order == d.order && e.rows.Keys == d.rows.Keys
            && (forall id <- d.rows :: id !in IdsOf(rows) ==> e.rows[id] == d.rows[id])
            && (quiet ==> forall id <- IdsOf(rows) :: id in e.rows && e.rows[id] in table)
  {
    hide DictOk, DistinctIds, VersionOf;
    if rows != [] {
      var init, last := rows[..|rows| - 1], rows[|rows| - 1];
      assert last in rows && forall row <- init :: row in rows;
      RefreshMerged(d, init, table, quiet);
      assert IdsOf(rows) == IdsOf(init) + [last.id];
      PutKeeps(PutAll(d, init), last);
      VersionIsRow(last, table, quiet);
    }
  }

  lemma VersionIsRow(row: Row, table: seq<Row>, quiet: bool)
    requires VersionOf(row, table, quiet)
    ensures VersionOf(row, table, false) && (quiet ==> row in table)
  {
    hide Mutable;
    var i :| 0 <= i < |table| && Follows(row, table[i]) && (quiet ==> row == table[i]);
  }

  /** Coverage stays. */
  lemma {:induction false} RefreshCovered(d: Dict, rows: seq<Row>, table: seq<Row>, k: nat)
    requires DictOk(d) && DistinctIds(table) && Covered(d, table, k) && Versions(rows, table, false)
    requires forall row <- rows :: row.id in d.rows
    ensures DictOk(PutAll(d, rows)) && Covered(PutAll(d, rows), table, k) && PutAll(d, rows).rows.Keys == d.rows.Keys
  {
    hide DictOk, Covered, DistinctIds, VersionOf;
    if rows != [] {
      var init, last := rows[..|rows| - 1], rows[|rows| - 1];
      assert last in rows && forall row <- init :: row in rows;
      RefreshCovered(d, init, table, k);
      RefreshCovers(PutAll(d, init), last, table, k, false);
    }
  }

  /** With everything covered and every mutable row current, the cache is exact. */
  lemma RefreshedIsExact(d: Dict, e: Dict, rows: seq<Row>, table: seq<Row>)
    requires DictOk(d) && DictOk(e) && DistinctIds(table) && Covered(d, table, |table|) && Covered(e, table, |table|)
    requires forall id <- d.rows :: Mutable(d.rows[id]) ==> id in IdsOf(rows)
    requires forall id <- d.rows :: id !in IdsOf(rows) ==> id in e.rows && e.rows[id] == d.rows[id]
    requires forall id <- IdsOf(rows) :: id in e.rows && e.rows[id] in table
    ensures Exact(e, table)
  {
    hide Mutable;
    forall i | 0 <= i < |table| ensures e.rows[table[i].id] == table[i] {
      var id := table[i].id;
      assert Follows(d.rows[id], table[i]);
      if id in IdsOf(rows) {
        var j :| 0 <= j < |table| && table[j] == e.rows[id];
        assert table[j].id == table[i].id;
      }
    }
  }

  lemma MutableAreInTable(d: Dict, table: seq<Row>)
    requires DictOk(d) && Drawn(d, table)
    ensures forall id <- MutableIds(d, d.order) :: id in d.rows && id in IdsOf(table)
    ensures NoRepeats(MutableIds(d, d.order))
    ensures forall id <- d.rows :: Mutable(d.rows[id]) ==> id in MutableIds(d, d.order)
  {
    hide Mutable;
    forall id | id in MutableIds(d, d.order) ensures id in IdsOf(table) {
      assert VersionOf(d.rows[id], table, false);
      var i :| 0 <= i < |table| && Follows(d.rows[id], table[i]);
      assert IdsOf(table)[i] == id;
    }
    MutableIdsAre(d);
  }

  /** Limits of one process. */
  datatype Limits = Limits(page: nat, deltaPages: nat, bootstrapPage: nat, bootstrapPages: nat, batch: nat, backlog: nat)

  predicate LimitsOk(l: Limits) { l.page >= 1 && l.bootstrapPage >= 1 && l.batch >= 1 }

  /** No uncached row lies below place i of the table. */
  ghost predicate AllBelowCached(d: Dict, table: seq<Row>, i: nat)
    requires i <= |table|
  {
    forall j :: 0 <= j < i ==> table[j].id in d.rows
  }

  /** A write-through keeps the cache coherent exactly when no uncached row lies below the written one; otherwise the
      cursor moves past a row that no delta will ever fetch. */
  lemma WriteThroughIff(d: Dict, cursor: Option<Cursor>, row: Row, table: seq<Row>, i: nat)
    requires Ordered(table) && DistinctIds(table) && Coherent(d, cursor, table) && i < |table| && Follows(row, table[i])
    ensures Coherent(Put(d, row), if Above(row, cursor) then Some(KeyOf(row)) else cursor, table) <==> AllBelowCached(d, table, i)
  {
    hide Mutable, Ordered;
    var k := Cut(table, cursor);
    PutKeeps(d, row);
    CoherentIsAt(d, cursor, table);
    AboveAt(table, cursor, row, i);
    if i < k {
      assert VersionOf(row, table, false);
      assert table[i].id in d.rows;
      RefreshCovers(d, row, table, k, false);
      CoherentAt(Put(d, row), cursor, table, k);
    } else {
      var moved := Some(KeyOf(row));
      assert At(table, moved, i + 1);
      AtIsCut(table, moved, i + 1);
      if i == k {
        PutCovers(d, row, table, k);
        CoherentAt(Put(d, row), moved, table, k + 1);
      } else {
        assert table[k].id !in d.rows && table[k].id != row.id;
      }
    }
  }

  lemma AboveAt(table: seq<Row>, cursor: Option<Cursor>, row: Row, i: nat)
    requires Ordered(table) && i < |table| && KeyOf(row) == KeyOf(table[i])
    ensures Above(row, cursor) <==> i >= Cut(table, cursor)
  {
    AboveIsSuffix(table, cursor);
  }

  /** Bounds within which a call that nothing disturbs stays: new rows, and, once they are merged, cached LONG and SHORT rows
      that do not pass the proof gate. */
  ghost predicate WithinCaps(s: CacheState, table: seq<Row>, limits: Limits) {
    var k := Cut(table, s.cursor);
    var d := PutAll(s.dict, table[k..]);
    |table| - k < limits.deltaPages * limits.page && |Unqualified(d)| <= limits.backlog
  }

  /** What was asked for since is among these. */
  ghost predicate AskedOnly(before: seq<int>, after: seq<int>, ids: set<int>) {
    before <= after && forall id <- after[|before|..] :: id in ids
  }

  /** Nothing that was cached and passes the proof gate has been asked for since. */
  ghost predicate NotAsked(before: seq<int>, after: seq<int>, d: Dict) {
    before <= after && forall id <- after[|before|..] :: id in d.rows ==> !IsProofQualified(d.rows[id])
  }

  /** Every cached row is still there, as it was. */
  ghost predicate Extends(a: Dict, b: Dict) { forall id <- a.rows :: id in b.rows && b.rows[id] == a.rows[id] }

  lemma AskedOfExtended(before: seq<int>, after: seq<int>, a: Dict, b: Dict)
    requires Extends(a, b) && AskedOnly(before, after, Unqualified(b))
    ensures NotAsked(before, after, a)
  {
    hide IsProofQualified;
  }

  /** What a delta brings to a coherent cache is not cached yet. */
  lemma DeltaIsNew(d: Dict, cursor: Option<Cursor>, rows: seq<Row>, table: seq<Row>)
    requires Ordered(table) && DistinctIds(table) && Coherent(d, cursor, table) && Rising(rows, cursor) && Versions(rows, table, false)
    ensures Extends(d, PutAll(d, rows))
  {
    hide Mutable, Coherent, Rising, Versions, PutAll;
    forall i | 0 <= i < |rows| ensures rows[i].id !in d.rows { NewRow(d, cursor, rows, table, i); }
    PutAllKeeps(d, rows);
  }

  lemma NewRow(d: Dict, cursor: Option<Cursor>, rows: seq<Row>, table: seq<Row>, i: nat)
    requires Ordered(table) && DistinctIds(table) && Coherent(d, cursor, table) && Rising(rows, cursor) && Versions(rows, table, false)
    requires i < |rows|
    ensures rows[i].id !in d.rows
  {
    hide Mutable, DictOk, Rising;
    RisesAbove(rows, cursor, i);
    assert rows[i] in rows;
    assert VersionOf(rows[i], table, false);
    var x :| 0 <= x < |table| && Follows(rows[i], table[x]);
    assert Above(table[x], cursor) && x >= Cut(table, cursor);
  }

  lemma {:induction false} RisesAbove(rows: seq<Row>, cursor: Option<Cursor>, i: nat)
    requires Rising(rows, cursor) && i < |rows|
    ensures Above(rows[i], cursor)
  {
    if i > 0 { RisesAbove(rows, cursor, i - 1); }
  }

  lemma {:induction false} PutAllKeeps(d: Dict, rows: seq<Row>)
    requires forall i :: 0 <= i < |rows| ==> rows[i].id !in d.rows
    ensures Extends(d, PutAll(d, rows))
  {
    if rows != [] { PutAllKeeps(d, rows[..|rows| - 1]); }
  }

  function TailKey(table: seq<Row>): Option<Cursor> { CursorAfter(None, table) }

  class AuthorityView {
    const gateway: Gateway
    const limits: Limits
    var state: Option<CacheState>
    var durable: Durable

    ghost predicate Valid()
      reads this, gateway
    {
      gateway.Valid() && LimitsOk(limits) && StateSound(state, durable, gateway.table)
    }

    /** No row has been passed over. */
    ghost predicate Whole()
      reads this, gateway
    {
      StateWhole(state, durable, gateway.table)
    }

    constructor (gateway: Gateway, limits: Limits, durable: Durable)
      requires gateway.Valid() && LimitsOk(limits) && StateSound(None, durable, gateway.table)
      ensures Valid() && this.gateway == gateway && this.limits == limits && this.durable == durable && state.None?
    {
      this.gateway, this.limits, this.durable, this.state := gateway, limits, durable, None;
    }

    /** `_tail_cursor`. */
    method Tail() returns (tail: Option<Option<Cursor>>)
      requires Valid()
      modifies gateway
      ensures Valid() && MovedOn(old(gateway.table), old(gateway.future), gateway.table, gateway.future)
      ensures old(Whole()) ==> Whole()
      ensures gateway.unanswered == old(gateway.unanswered) + (if tail.None? then 1 else 0) && gateway.asked == old(gateway.asked)
      ensures tail.Some? ==> tail.value == TailKey(gateway.table)
    {
      hide Ordered, DistinctIds, StateSound, StateWhole, MovedOn;
      ghost var a, af := gateway.table, gateway.future;
      var answered := gateway.Arrive();
      StateLater(state, durable, a, af, gateway.table, gateway.future);
      var t := gateway.table;
      tail := if !answered then None else Some(TailKey(t));
    }

    /** Load the durable seal, or bootstrap where that is allowed. A bootstrap that ends with the tail it began with has
        passed over nothing. */
    method Load(writable: bool, bootstrapAllowed: bool, saves: bool) returns (error: Option<CacheError>)
      requires Valid() && state.None?
      modifies this, gateway
      ensures Valid() && MovedOn(old(gateway.table), old(gateway.future), gateway.table, gateway.future)
      ensures old(Whole()) ==> Whole()
      ensures error.None? ==> state.Some? && Sealed(state.value)
      ensures error.Some? ==> state.None?
      ensures !writable ==> durable == old(durable)
      ensures gateway.unanswered == old(gateway.unanswered) + (if error == Some(RequestFailed) then 1 else 0)
      ensures gateway.asked == old(gateway.asked)
    {
      hide Ordered, DistinctIds, MovedOn, Coherent, Sound, OrderedRows, Covers, Strays, Versions, Quiet, At, Rest, SomeDisturbed, Rising;
      ghost var a, af := gateway.table, gateway.future;
      MovedOnItself(a, af);
      match durable {
        case Broken => return Some(SealBroken);
        case Saved(rows, cursor) =>
          var d := PutAll(EMPTY, rows);
          SoundIsDict(d, cursor, gateway.table);
          state := Some(CacheState(d, cursor, SealOf(d, cursor)));
          return None;
        case Missing =>
          if !writable || !bootstrapAllowed { return Some(SealMissing); }
          var before := Tail();
          if before.None? { return Some(RequestFailed); }
          ghost var b, bf := gateway.table, gateway.future;
          NothingIsCoherent(gateway.table);
          var all;
          ghost var split, at;
          all, split, at := Delta(gateway, None, 0, limits.bootstrapPage, limits.bootstrapPages);
          StateLater(state, durable, b, bf, gateway.table, gateway.future);
          MovedOnTwice(a, af, b, bf, gateway.table, gateway.future);
          if all.Err? { return Some(all.error); }
          NothingIsCoherent(gateway.table);
          var d := PutAll(EMPTY, all.value);
          var cursor := CursorAfter(None, all.value);
          ghost var c, cf := gateway.table, gateway.future;
          var after := Tail();
          MovedOnTwice(a, af, c, cf, gateway.table, gateway.future);
          if after.None? { return Some(RequestFailed); }
          if before != after || cursor != after.value { return Some(Race); }
          if !saves { return Some(SaveFailed); }
          SameTail(b, bf, c, cf, gateway.table, gateway.future);
          assert !split;
          DeltaMerged(EMPTY, None, all.value, c, at);
          CoherentMovesOn(d, cursor, c, cf, gateway.table, gateway.future);
          CoherentIsSound(d, cursor, gateway.table);
          SoundIsDict(d, cursor, gateway.table);
          SavedIsAsGood(d, cursor, gateway.table);
          state, durable := Some(CacheState(d, cursor, SealOf(d, cursor))), Saved(OrderedRows(d), cursor);
          return None;
      }
    }

    /** The bounded delta, merged into the cached rows; the seal is left for the end of the call. `split` says whether a row
        of a cursor's own instant came between the two requests of a page, `lost` whether a row was passed over. */
    method MergeDelta() returns (error: Option<CacheError>, ghost split: bool, ghost lost: bool)
      requires Valid() && state.Some?
      modifies this, gateway
      ensures Valid() && MovedOn(old(gateway.table), old(gateway.future), gateway.table, gateway.future)
      ensures durable == old(durable) && state.Some? && state.value.seal == old(state).value.seal
      ensures error.Some? ==> state == old(state) && !lost && (error.value == RequestFailed || error.value == PageCapHit)
      ensures state == old(state) || state.value.cursor != old(state).value.cursor
      ensures old(Whole()) ==> (Whole() <==> !lost)
      ensures (lost ==> split) && (split ==> SomeDisturbed(old(gateway.future)))
      ensures error.None? && old(Whole()) && !split ==> Covered(state.value.dict, gateway.table, |gateway.table|)
      ensures gateway.unanswered == old(gateway.unanswered) + (if error == Some(RequestFailed) then 1 else 0)
      ensures gateway.asked == old(gateway.asked)
      ensures old(Whole()) ==> Extends(old(state).value.dict, state.value.dict)
      ensures Quiet(old(gateway.table), old(gateway.future)) && error != Some(RequestFailed) ==>
                var t, s := old(gateway.table), old(state).value;
                var k := Cut(t, s.cursor);
                && (error.None? <==> |t| - k < limits.deltaPages * limits.page)
                && (error.None? ==> state.value.dict == PutAll(s.dict, t[k..]))
    {
      hide Ordered, DistinctIds, MovedOn, Coherent, Sound, Covers, Strays, Versions, Quiet, Covered, At, Rest, SomeDisturbed, Rising;
      ghost var a, af := gateway.table, gateway.future;
      var s := state.value;
      ghost var k := Cut(a, s.cursor);
      SoundIsAt(s.dict, s.cursor, a);
      var rows;
      ghost var at;
      rows, split, at := Delta(gateway, s.cursor, k, limits.page, limits.deltaPages);
      StateLater(state, durable, a, af, gateway.table, gateway.future);
      SoundMovesOn(s.dict, s.cursor, a, af, gateway.table, gateway.future);
      if Quiet(a, af) { QuietIsUndisturbed(a, af); MovedOnQuiet(a, af, gateway.table, gateway.future); }
      if rows.Err? { return Some(rows.error), split, false; }
      DeltaSound(s.dict, s.cursor, rows.value, gateway.table, at);
      lost := !Covers(rows.value, gateway.table, k);
      if Coherent(s.dict, s.cursor, gateway.table) {
        DeltaMerged(s.dict, s.cursor, rows.value, gateway.table, at);
        DeltaIsNew(s.dict, s.cursor, rows.value, gateway.table);
      }
      DeltaMoves(s.dict, s.cursor, rows.value);
      state := Some(s.(dict := PutAll(s.dict, rows.value), cursor := CursorAfter(s.cursor, rows.value)));
      return None, split, lost;
    }

    /** The refresh of mutable rows, written over the cached ones where they differ. */
    method RefreshMutable() returns (error: Option<CacheError>, changed: bool)
      requires Valid() && state.Some?
      modifies this, gateway
      ensures Valid() && MovedOn(old(gateway.table), old(gateway.future), gateway.table, gateway.future)
      ensures old(Whole()) ==> Whole()
      ensures durable == old(durable) && state.Some? && state.value == old(state).value.(dict := state.value.dict)
      ensures state.value.dict.order == old(state).value.dict.order
      ensures !changed ==> state == old(state)
      ensures error.Some? ==> state == old(state) && (error.value == RequestFailed || error.value == BacklogCapHit)
      ensures error == Some(BacklogCapHit) <==> |Unqualified(old(state).value.dict)| > limits.backlog
      ensures AskedOnly(old(gateway.asked), gateway.asked, Unqualified(old(state).value.dict))
      ensures gateway.unanswered == old(gateway.unanswered) + (if error == Some(RequestFailed) then 1 else 0)
      ensures error.None? && Quiet(old(gateway.table), old(gateway.future)) ==>
                Covered(old(state).value.dict, old(gateway.table), |old(gateway.table)|) ==> Exact(state.value.dict, gateway.table)
    {
      hide Ordered, DistinctIds, MovedOn, Coherent, Sound, Covers, Quiet, Covered, At, Versions, Exact, MutableIds,
          Put, DictOk, Rest, Drawn;
      ghost var a, af := gateway.table, gateway.future;
      var s := state.value;
      MovedOnItself(a, af);
      SoundIsDict(s.dict, s.cursor, a);
      var ids := MutableIds(s.dict, s.dict.order);
      MutableIdsAre(s.dict);
      if |ids| > limits.backlog { return Some(BacklogCapHit), false; }
      MutableAreInTable(s.dict, a);
      var rows := Refresh(gateway, ids, limits.batch);
      StateLater(state, durable, a, af, gateway.table, gateway.future);
      if rows.Err? { return Some(rows.error), false; }
      var d;
      d, changed := MergeRefreshed(s.dict, rows.value);
      AfterRefresh(s.dict, s.cursor, rows.value, a, af, gateway.table, gateway.future);
      state, error := Some(s.(dict := d)), None;
    }

    /** The second half of `fetch_authority_history`: the delta, the refresh, the seal and the save. */
    method Update(writable: bool, saves: bool) returns (r: Result<seq<Row>, CacheError>, ghost lost: bool)
      requires Valid() && state.Some? && Sealed(state.value)
      modifies this, gateway
      ensures Valid() && MovedOn(old(gateway.table), old(gateway.future), gateway.table, gateway.future)
      ensures old(Whole()) && !lost ==> Whole()
      ensures lost ==> SomeDisturbed(old(gateway.future))
      ensures old(Whole()) ==> NotAsked(old(gateway.asked), gateway.asked, old(state).value.dict)
      ensures r.Ok? && old(Whole()) && Quiet(old(gateway.table), old(gateway.future)) ==> r.value == gateway.table == old(gateway.table)
      ensures state.Some? && (r.Ok? ==> Sealed(state.value) && (writable ==> durable == Saved(r.value, state.value.cursor)))
      ensures !writable ==> durable == old(durable)
      ensures r.Err? && r.error != SaveFailed ==> r.error != SealBroken && (state == old(state) || !Sealed(state.value))
      ensures old(Whole()) && Quiet(old(gateway.table), old(gateway.future)) ==>
                (r.Ok? <==> && gateway.unanswered == old(gateway.unanswered)
                            && WithinCaps(old(state).value, old(gateway.table), limits) && (writable ==> saves))
    {
      hide Ordered, DistinctIds, MovedOn, Coherent, Sound, Covers, Quiet, Covered, At, Exact, OrderedRows, DictOk, StateSound, StateWhole,
        Rest, SomeDisturbed, Chain, MutableIds, PutAll;
      ghost var a, af := gateway.table, gateway.future;
      var before := state;
      var error;
      ghost var split;
      error, split, lost := MergeDelta();
      ghost var c, cf := gateway.table, gateway.future;
      MovedOnQuiet(a, af, c, cf);
      if Quiet(a, af) { QuietIsUndisturbed(a, af); }
      if error.Some? { return Err(error.value), false; }
      var changed := state != before;
      var refreshed;
      ghost var merged := state.value.dict;
      error, refreshed := RefreshMutable();
      if old(Whole()) { AskedOfExtended(old(gateway.asked), gateway.asked, before.value.dict, merged); }
      MovedOnTwice(a, af, c, cf, gateway.table, gateway.future);
      MovedOnQuiet(a, af, gateway.table, gateway.future);
      if error.Some? { return Err(error.value), lost; }
      StateIsDict(state, durable, gateway.table);
      var s := state.value;
      if changed || refreshed { state := Some(s.(seal := SealOf(s.dict, s.cursor))); }
      StateIgnoresSeal(s, durable, gateway.table);
      assert Sealed(state.value);
      if state.value.seal != SealOf(s.dict, s.cursor) {
        r := Err(SealBroken);
        return;
      }
      var rows := OrderedRows(s.dict);
      if Quiet(a, af) && old(Whole()) { ExactReturns(s.dict, gateway.table); }
      if writable {
        if !saves { return Err(SaveFailed), lost; }
        SaveKeeps(state, durable, gateway.table);
        durable := Saved(rows, s.cursor);
      }
      return Ok(rows), lost;
    }

    /** `fetch_authority_history`. `lost` says whether the call has passed over a row: only a page disturbed between its two
        requests can do that. A cache that a failed call has left unsealed answers no later call; otherwise, with no write
        during the call, it succeeds if and only if every request is answered, no cap is hit and the save goes through. */
    method FetchHistory(writable: bool, bootstrapAllowed: bool, firstSave: bool, secondSave: bool)
      returns (r: Result<seq<Row>, CacheError>, ghost lost: bool)
      requires Valid()
      modifies this, gateway
      ensures Valid() && MovedOn(old(gateway.table), old(gateway.future), gateway.table, gateway.future)
      ensures old(Whole()) && !lost ==> Whole()
      ensures lost ==> SomeDisturbed(old(gateway.future))
      ensures (forall t <- old(gateway.future) :: SymbolScope(t)) ==> !lost
      ensures old(Whole()) && old(state).Some? ==> NotAsked(old(gateway.asked), gateway.asked, old(state).value.dict)
      ensures r.Ok? && old(Whole()) && Quiet(old(gateway.table), old(gateway.future)) ==> r.value == gateway.table == old(gateway.table)
      ensures r.Ok? ==> state.Some? && Sealed(state.value) && (writable ==> durable == Saved(r.value, state.value.cursor))
      ensures !writable ==> durable == old(durable)
      ensures old(state).Some? ==> state.Some? && (r == Err(SealBroken) <==> !Sealed(old(state).value))
      ensures r == Err(SealBroken) && old(state).Some? ==> state == old(state) && gateway.table == old(gateway.table)
      ensures r.Err? && old(state).Some? && r.error != SaveFailed ==> state == old(state) || !Sealed(state.value)
      ensures old(state).Some? && old(Whole()) && Quiet(old(gateway.table), old(gateway.future)) ==>
                (r.Ok? <==> && Sealed(old(state).value) && gateway.unanswered == old(gateway.unanswered)
                            && WithinCaps(old(state).value, old(gateway.table), limits) && (writable ==> secondSave))
    {
      hide Ordered, DistinctIds, MovedOn, Quiet, DictOk, StateSound, StateWhole, Rest, SomeDisturbed, SymbolScope, Chain, WithinCaps,
        OrderedRows;
      ghost var a, af := gateway.table, gateway.future;
      MovedOnItself(a, af);
      if forall t <- af :: SymbolScope(t) { SymbolViewIsUndisturbed(a, af); }
      if state.None? {
        var failed := Load(writable, bootstrapAllowed, firstSave);
        if failed.Some? { return Err(failed.value), false; }
      } else {
        StateIsDict(state, durable, a);
        if state.value.seal != SealOf(state.value.dict, state.value.cursor) { return Err(SealBroken), false; }
      }
      ghost var b, bf := gateway.table, gateway.future;
      MovedOnQuiet(a, af, b, bf);
      MovedOnMeans(a, af, b, bf);
      r, lost := Update(writable, secondSave);
      MovedOnTwice(a, af, b, bf, gateway.table, gateway.future);
      if lost { RestDisturbed(bf, af); }
    }

    /** `persist_authority_row_local`: an inserted or settled row goes straight into the cache and the seal; `i` is its place
        in the table. It passes over a row if and only if some row below it is not cached. */
    method WriteThrough(row: Row, ghost i: nat, writable: bool, saves: bool) returns (ok: bool)
      requires Valid() && i < |gateway.table| && Follows(row, gateway.table[i])
      modifies this
      ensures Valid()
      ensures ok ==> writable && saves && state.Some? && Sealed(state.value)
      ensures writable && old(state).Some? ==> state.Some? && Sealed(state.value)
      ensures ok ==> row.id in state.value.dict.rows && state.value.dict.rows[row.id] == row && durable.Saved?
      ensures !ok && old(state).None? ==> state.None?
      ensures !ok ==> durable == old(durable)
      ensures old(Whole()) ==>
                var base := if old(state).Some? then old(state).value.dict else PutAll(EMPTY, old(SavedRows()));
                && (AllBelowCached(base, gateway.table, i) ==> Whole())
                && (ok ==> (Whole() <==> AllBelowCached(base, gateway.table, i)))
    {
      hide Ordered, DistinctIds, Coherent, Sound, Covered, At, OrderedRows, AllBelowCached;
      if !writable { return false; }
      var d, cursor;
      match state {
        case Some(s) => d, cursor := s.dict, s.cursor;
        case None =>
          if !durable.Saved? { return false; }
          d, cursor := PutAll(EMPTY, durable.rows), durable.cursor;
      }
      SoundIsDict(d, cursor, gateway.table);
      WriteIsSound(d, cursor, row, gateway.table, i);
      if Coherent(d, cursor, gateway.table) { WriteThroughIff(d, cursor, row, gateway.table, i); }
      var e, moved := Put(d, row), if Above(row, cursor) then Some(KeyOf(row)) else cursor;
      var next := CacheState(e, moved, SealOf(e, moved));
      if state.Some? { state := Some(next); }
      if !saves { return false; }
      SavedIsAsGood(e, moved, gateway.table);
      state, durable := Some(next), Saved(OrderedRows(e), moved);
      return true;
    }

    function SavedRows(): seq<Row>
      reads this
    {
      if durable.Saved? then durable.rows else []
    }
  }

  /** A written row keeps a sound cache sound. */
  lemma WriteIsSound(d: Dict, cursor: Option<Cursor>, row: Row, table: seq<Row>, i: nat)
    requires Ordered(table) && Sound(d, cursor, table) && i < |table| && Follows(row, table[i])
    ensures DictOk(Put(d, row)) && Sound(Put(d, row), if Above(row, cursor) then Some(KeyOf(row)) else cursor, table)
  {
    hide Ordered, Mutable, DictOk, Above;
    PutKeeps(d, row);
    assert VersionOf(row, table, false);
    if Above(row, cursor) {
      assert At(table, Some(KeyOf(row)), i + 1);
      AtIsCut(table, Some(KeyOf(row)), i + 1);
    }
  }

  /** With the table growing only at its end, equal tails mean that nothing was appended. */
  lemma SameTail(a: seq<Row>, af: seq<seq<Row>>, b: seq<Row>, bf: seq<seq<Row>>, c: seq<Row>, cf: seq<seq<Row>>)
    requires MovedOn(a, af, b, bf) && MovedOn(b, bf, c, cf)
    ensures TailKey(a) == TailKey(c) ==> |a| == |b| == |c|
  {
    hide Quiet, Mutable, DistinctIds, Rest;
    assert a != [] ==> Follows(a[|a| - 1], b[|a| - 1]) && Follows(b[|a| - 1], c[|a| - 1]);
  }

  /** A delta that brings nothing changes nothing, and any other moves the cursor. */
  lemma DeltaMoves(d: Dict, cursor: Option<Cursor>, rows: seq<Row>)
    requires Rising(rows, cursor)
    ensures if rows == [] then PutAll(d, rows) == d && CursorAfter(cursor, rows) == cursor else CursorAfter(cursor, rows) != cursor
  {
    if |rows| > 1 {
      RisingPairs(rows, cursor, 0, |rows| - 1);
    }
  }

  lemma SoundIsDict(d: Dict, cursor: Option<Cursor>, table: seq<Row>)
    requires Sound(d, cursor, table)
    ensures DictOk(d) && Drawn(d, table)
  {
  }

  lemma SoundIsAt(d: Dict, cursor: Option<Cursor>, table: seq<Row>)
    requires Sound(d, cursor, table)
    ensures At(table, cursor, Cut(table, cursor))
  {
  }

  lemma SoundMovesOn(d: Dict, cursor: Option<Cursor>, a: seq<Row>, af: seq<seq<Row>>, b: seq<Row>, bf: seq<seq<Row>>)
    requires Sound(d, cursor, a) && Ordered(a) && MovedOn(a, af, b, bf)
    ensures Cut(b, cursor) == Cut(a, cursor) && Sound(d, cursor, b) && Ordered(b) && DistinctIds(b)
  {
    hide Sound, Quiet, Ordered, DistinctIds, Rest;
    SoundLater(d, cursor, a, b);
  }

  lemma CoherentIsAt(d: Dict, cursor: Option<Cursor>, table: seq<Row>)
    requires Coherent(d, cursor, table)
    ensures DictOk(d) && At(table, cursor, Cut(table, cursor)) && Covered(d, table, Cut(table, cursor))
  {
  }

  lemma CoherentMovesOn(d: Dict, cursor: Option<Cursor>, a: seq<Row>, af: seq<seq<Row>>, b: seq<Row>, bf: seq<seq<Row>>)
    requires Coherent(d, cursor, a) && Ordered(a) && MovedOn(a, af, b, bf)
    ensures Coherent(d, cursor, b)
  {
    hide Coherent, Quiet, Ordered, Rest;
    CoherentLater(d, cursor, a, b);
  }

  lemma NothingIsCoherent(table: seq<Row>)
    ensures Coherent(EMPTY, None, table) && Sound(EMPTY, None, table) && At(table, None, 0) && Cut(table, None) == 0
  {
  }

  /** Refreshed rows replace cached ones where they differ. */
  method MergeRefreshed(d: Dict, rows: seq<Row>) returns (e: Dict, changed: bool)
    ensures e == PutAll(d, rows) && (!changed ==> e == d)
  {
    hide Put;
    var i := 0;
    e, changed := d, false;
    while i < |rows|
      invariant i <= |rows| && e == PutAll(d, rows[..i]) && (!changed ==> e == d)
    {
      var row := rows[i];
      assert rows[..i + 1][..i] == rows[..i];
      if row.id !in e.rows || e.rows[row.id] != row {
        e, changed := Put(e, row), true;
      } else {
        PutSame(e, row);
      }
      i := i + 1;
    }
    assert rows[..|rows|] == rows;
  }

  lemma PutSame(d: Dict, row: Row)
    requires row.id in d.rows && d.rows[row.id] == row
    ensures Put(d, row) == d
  {
    assert d.rows[row.id := row] == d.rows;
  }

  lemma StateIsDict(state: Option<CacheState>, durable: Durable, table: seq<Row>)
    requires StateSound(state, durable, table) && state.Some?
    ensures DictOk(state.value.dict)
  {
  }

  lemma StateIgnoresSeal(s: CacheState, durable: Durable, table: seq<Row>)
    requires DictOk(s.dict)
    ensures StateSound(Some(s), durable, table) <==> StateSound(Some(s.(seal := SealOf(s.dict, s.cursor))), durable, table)
    ensures StateWhole(Some(s), durable, table) <==> StateWhole(Some(s.(seal := SealOf(s.dict, s.cursor))), durable, table)
  {
  }

  lemma SaveKeeps(state: Option<CacheState>, durable: Durable, table: seq<Row>)
    requires StateSound(state, durable, table) && state.Some? && DictOk(state.value.dict)
    ensures var saved := Saved(OrderedRows(state.value.dict), state.value.cursor);
            StateSound(state, saved, table) && (StateWhole(state, durable, table) ==> StateWhole(state, saved, table))
  {
    hide Coherent, Sound, OrderedRows, DictOk;
    SavedIsAsGood(state.value.dict, state.value.cursor, table);
  }

  lemma MovedOnQuiet(a: seq<Row>, af: seq<seq<Row>>, b: seq<Row>, bf: seq<seq<Row>>)
    requires MovedOn(a, af, b, bf)
    ensures Quiet(a, af) ==> b == a && Quiet(b, bf)
  {
    hide Quiet;
  }

  lemma ExactReturns(d: Dict, table: seq<Row>)
    requires DictOk(d) && Ordered(table) && Exact(d, table)
    ensures OrderedRows(d) == table
  {
    hide Ordered, Exact;
    ExactIsTable(d, table);
  }

  /** What the refresh leaves: sound, coherent if it was, in the same order, and exact if nothing was written. */
  lemma AfterRefresh(d: Dict, cursor: Option<Cursor>, rows: seq<Row>, a: seq<Row>, af: seq<seq<Row>>, b: seq<Row>, bf: seq<seq<Row>>)
    requires Sound(d, cursor, a) && Ordered(a) && MovedOn(a, af, b, bf)
    requires Versions(rows, b, Quiet(a, af)) && (forall row <- rows :: row.id in MutableIds(d, d.order))
    requires forall id <- MutableIds(d, d.order) :: id in IdsOf(rows)
    ensures Sound(PutAll(d, rows), cursor, b) && PutAll(d, rows).order == d.order
    ensures Coherent(d, cursor, a) ==> Coherent(PutAll(d, rows), cursor, b)
    ensures Quiet(a, af) && Covered(d, a, |a|) ==> Exact(PutAll(d, rows), b)
  {
    hide Quiet, Ordered, DistinctIds, Covered, Versions, Exact, Mutable, DictOk, At, Rest, Drawn;
    SoundMovesOn(d, cursor, a, af, b, bf);
    SoundIsDict(d, cursor, a);
    MutableAreInTable(d, a);
    RefreshMerged(d, rows, b, Quiet(a, af));
    VersionsWeaken(rows, b, Quiet(a, af));
    if Coherent(d, cursor, a) {
      CoherentMovesOn(d, cursor, a, af, b, bf);
      RefreshCovered(d, rows, b, Cut(b, cursor));
    }
    if Quiet(a, af) && Covered(d, a, |a|) {
      MovedOnQuiet(a, af, b, bf);
      RefreshCovered(d, rows, b, |b|);
      RefreshedIsExact(d, PutAll(d, rows), rows, b);
    }
  }

  lemma VersionsWeaken(rows: seq<Row>, table: seq<Row>, quiet: bool)
    requires Versions(rows, table, quiet)
    ensures Versions(rows, table, false)
  {
    hide VersionOf;
    forall row | row in rows ensures VersionOf(row, table, false) { VersionIsRow(row, table, quiet); }
  }
}
