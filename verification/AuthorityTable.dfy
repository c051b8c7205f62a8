/** The authority table as the cache sees it: keyset order, allowed changes, and the two-request page
    (senecio_polymarket/backend/supabase_client.py). */
module AuthorityTable {
  import opened Prelude
  import opened SettlementContract
  import opened Settlement

  datatype Cursor = Cursor(ts: int, id: int)

  function KeyOf(row: Row): Cursor { Cursor(if row.ts.Some? then row.ts.value else 0, row.id) }

  predicate Less(a: Cursor, b: Cursor) { a.ts < b.ts || (a.ts == b.ts && a.id < b.id) }

  predicate Above(row: Row, cursor: Option<Cursor>) { cursor.None? || Less(cursor.value, KeyOf(row)) }

  /** Rows of one symbol scope in (ts, id) order. */
  ghost predicate Ordered(table: seq<Row>) {
    forall i, j :: 0 <= i < j < |table| ==> Less(KeyOf(table[i]), KeyOf(table[j]))
  }

  ghost predicate DistinctIds(table: seq<Row>) {
    forall i, j :: 0 <= i < j < |table| ==> table[i].id != table[j].id
  }

  /** A row may still be settled or repaired. */
  predicate Mutable(row: Row) { Directional(row.prediction) && !IsProofQualified(row) }

  /** The writers' contract: a row keeps its key, and changes only while directional and not proof-qualified. */
  predicate Follows(a: Row, b: Row) { KeyOf(a) == KeyOf(b) && (a == b || Mutable(a)) }

  lemma FollowsTransitive(a: Row, b: Row, c: Row)
    requires Follows(a, b) && Follows(b, c)
    ensures Follows(a, c)
  {
    hide Mutable;
  }

  /** The contract is what the settlement protocol guarantees: whatever verifier and reconciler do, in any interleaving,
      only mutable rows change, and their keys do not. */
  lemma SettlementFollowsContract(w: World, step: Step, id: int)
    requires WorldOk(w) && Permitted(w, step) && id in w.rows
    ensures id in Next(w, step).rows && Follows(w.rows[id], Next(w, step).rows[id])
  {
    hide WorldOk, IsProofQualified, QuoteFor, QuoteEvidence, WitnessOk, ValidEvidence, PricesMatch,
        DirectionalOutcome, WitnessPriceAgreesFor,
      Directional;
    StepKeeps(w, step);
    if !step.Insert? && Written(w, step).Some? && step.row.id == id {
      UnsettledIsNotQualified(w.rows[id]);
      WritersAreDirectional(w, step);
    }
  }

  lemma UnsettledIsNotQualified(row: Row)
    ensures row.audit.dual.None? ==> !IsProofQualified(row)
  {
  }

  lemma WritersAreDirectional(w: World, step: Step)
    requires WorldOk(w) && Permitted(w, step) && !step.Insert? && Written(w, step).Some?
    ensures Directional(w.rows[step.row.id].prediction)
  {
    hide IsProofQualified, SettledOk, QuoteFor, QuoteEvidence, WitnessOk, ValidEvidence, PricesMatch, DirectionalOutcome, Directional;
    assert Evolves(step.row, w.rows[step.row.id]);
  }

  // ---- Requests ----

  datatype Range = Everything | SameInstant(cursor: Cursor) | LaterInstant(cursor: Cursor) | After(cursor: Cursor)

  predicate InRange(row: Row, range: Range) {
    match range
    case Everything => true
    case SameInstant(c) => KeyOf(row).ts == c.ts && row.id > c.id
    case LaterInstant(c) => KeyOf(row).ts > c.ts
    case After(c) => Less(c, KeyOf(row))
  }

  /** What the gateway selects, in order. */
  function Select(table: seq<Row>, range: Range): seq<Row> {
    if table == [] then [] else (if InRange(table[0], range) then [table[0]] else []) + Select(table[1..], range)
  }

  function First(rows: seq<Row>, limit: nat): seq<Row> { rows[..Min(limit, |rows|)] }

  function RangeAbove(cursor: Option<Cursor>): Range { if cursor.None? then Everything else After(cursor.value) }

  /** Number of leading rows that are not above the cursor. */
  function Cut(table: seq<Row>, cursor: Option<Cursor>): (n: nat)
    ensures n <= |table|
    ensures forall i :: 0 <= i < n ==> !Above(table[i], cursor)
    ensures n < |table| ==> Above(table[n], cursor)
  {
    if table == [] || Above(table[0], cursor) then 0 else 1 + Cut(table[1..], cursor)
  }

  lemma {:induction false} SelectAll(table: seq<Row>, range: Range)
    requires forall i :: 0 <= i < |table| ==> InRange(table[i], range)
    ensures Select(table, range) == table
  {
    if table != [] { SelectAll(table[1..], range); }
  }

  lemma {:induction false} SelectNone(table: seq<Row>, range: Range)
    requires forall i :: 0 <= i < |table| ==> !InRange(table[i], range)
    ensures Select(table, range) == []
  {
    if table != [] { SelectNone(table[1..], range); }
  }

  lemma Join(a: seq<Row>, b: seq<Row>, c: seq<Row>)
    ensures a + (b + c) == (a + b) + c
  {
  }

  lemma {:induction false} SelectSplits(a: seq<Row>, b: seq<Row>, range: Range)
    ensures Select(a + b, range) == Select(a, range) + Select(b, range)
  {
    hide InRange;
    if a == [] {
      assert a + b == b;
    } else {
      var head := if InRange(a[0], range) then [a[0]] else [];
      assert (a + b)[0] == a[0] && (a + b)[1..] == a[1..] + b;
      SelectSplits(a[1..], b, range);
      Join(head, Select(a[1..], range), Select(b, range));
    }
  }

  lemma RestIsAbove(table: seq<Row>, cursor: Option<Cursor>)
    requires Ordered(table)
    ensures forall i :: Cut(table, cursor) <= i < |table| ==> Above(table[i], cursor)
  {
    var n := Cut(table, cursor);
    forall i | n <= i < |table| ensures Above(table[i], cursor) {
      if i > n { assert Less(KeyOf(table[n]), KeyOf(table[i])); }
    }
  }

  lemma RangeAboveIs(row: Row, cursor: Option<Cursor>)
    ensures InRange(row, RangeAbove(cursor)) <==> Above(row, cursor)
  {
  }

  lemma SelectCut(table: seq<Row>, range: Range, n: nat)
    requires n <= |table| && (forall i :: 0 <= i < n ==> !InRange(table[i], range))
    requires forall i :: n <= i < |table| ==> InRange(table[i], range)
    ensures Select(table, range) == table[n..]
  {
    hide InRange, Select;
    assert table == table[..n] + table[n..];
    SelectSplits(table[..n], table[n..], range);
    SelectNone(table[..n], range);
    SelectAll(table[n..], range);
  }

  /** In an ordered table the rows above a cursor are what follows the cut. */
  lemma AboveIsSuffix(table: seq<Row>, cursor: Option<Cursor>)
    requires Ordered(table)
    ensures Select(table, RangeAbove(cursor)) == table[Cut(table, cursor)..]
    ensures forall i :: Cut(table, cursor) <= i < |table| ==> Above(table[i], cursor)
  {
    RestIsAbove(table, cursor);
    hide Ordered, Less, InRange, Above, RangeAbove, Select;
    forall i | 0 <= i < |table| ensures InRange(table[i], RangeAbove(cursor)) <==> Above(table[i], cursor) {
      RangeAboveIs(table[i], cursor);
    }
    SelectCut(table, RangeAbove(cursor), Cut(table, cursor));
  }

  lemma CutIsUnique(table: seq<Row>, cursor: Option<Cursor>, n: nat)
    requires n <= |table| && (forall i :: 0 <= i < n ==> !Above(table[i], cursor)) && (n < |table| ==> Above(table[n], cursor))
    ensures Cut(table, cursor) == n
  {
    var m := Cut(table, cursor);
    assert m < |table| ==> Above(table[m], cursor);
  }

  lemma CutAtRow(table: seq<Row>, i: nat)
    requires Ordered(table) && i < |table|
    ensures Cut(table, Some(KeyOf(table[i]))) == i + 1
  {
    forall k | 0 <= k <= i ensures !Above(table[k], Some(KeyOf(table[i]))) {
      if k < i { assert Less(KeyOf(table[k]), KeyOf(table[i])); }
    }
    CutIsUnique(table, Some(KeyOf(table[i])), i + 1);
  }

  lemma TailOrdered(table: seq<Row>)
    requires Ordered(table) && table != []
    ensures Ordered(table[1..]) && forall i :: 0 < i < |table| ==> Less(KeyOf(table[0]), KeyOf(table[i]))
  {
    hide Less;
    forall i, j | 0 <= i < j < |table[1..]| ensures Less(KeyOf(table[1..][i]), KeyOf(table[1..][j])) {
      assert Less(KeyOf(table[i + 1]), KeyOf(table[j + 1]));
    }
  }

  lemma AllLater(table: seq<Row>, c: Cursor)
    requires Ordered(table) && table != [] && InRange(table[0], LaterInstant(c))
    ensures Select(table, SameInstant(c)) == [] && Select(table, LaterInstant(c)) == table == Select(table, After(c))
  {
    TailOrdered(table);
    SelectAll(table, LaterInstant(c));
    SelectAll(table, After(c));
    SelectNone(table, SameInstant(c));
  }

  lemma {:induction false} SplitByInstant(table: seq<Row>, c: Cursor)
    requires Ordered(table)
    ensures Select(table, After(c)) == Select(table, SameInstant(c)) + Select(table, LaterInstant(c))
  {
    hide Ordered;
    if table != [] {
      if InRange(table[0], LaterInstant(c)) {
        AllLater(table, c);
      } else {
        TailOrdered(table);
        SplitByInstant(table[1..], c);
        assert InRange(table[0], After(c)) <==> InRange(table[0], SameInstant(c));
      }
    }
  }

  /** The page assembled from two index-friendly requests. */
  function TwoRequestPage(early: seq<Row>, late: seq<Row>, c: Cursor, limit: nat): seq<Row> {
    var same := First(Select(early, SameInstant(c)), limit);
    same + (if |same| < limit then First(Select(late, LaterInstant(c)), limit - |same|) else [])
  }

  /** With no write between its requests the page is the first rows above the cursor. */
  lemma PageIsFirstAbove(table: seq<Row>, c: Cursor, limit: nat)
    requires Ordered(table)
    ensures TwoRequestPage(table, table, c, limit) == First(Select(table, After(c)), limit)
  {
    SplitByInstant(table, c);
  }

  // ---- Tables that change between requests ----

  /** Later rows follow the contract and new rows come with higher keys. */
  ghost predicate Grown(a: seq<Row>, b: seq<Row>) {
    |a| <= |b| && (forall i :: 0 <= i < |a| ==> Follows(a[i], b[i])) && Ordered(b) && DistinctIds(b)
  }

  lemma GrownItself(a: seq<Row>)
    requires Ordered(a) && DistinctIds(a)
    ensures Grown(a, a)
  {
  }

  lemma GrownTransitive(a: seq<Row>, b: seq<Row>, c: seq<Row>)
    requires Grown(a, b) && Grown(b, c)
    ensures Grown(a, c)
  {
    hide Mutable, Ordered, DistinctIds;
    forall i | 0 <= i < |a| ensures Follows(a[i], c[i]) { FollowsTransitive(a[i], b[i], c[i]); }
  }

  /** The cursor is the key of the k-th row, or none with k = 0. */
  ghost predicate At(table: seq<Row>, cursor: Option<Cursor>, k: nat) {
    k <= |table| && if k == 0 then cursor.None? else cursor == Some(KeyOf(table[k - 1]))
  }

  lemma AtIsCut(table: seq<Row>, cursor: Option<Cursor>, k: nat)
    requires Ordered(table) && At(table, cursor, k)
    ensures Cut(table, cursor) == k
  {
    if k > 0 { CutAtRow(table, k - 1); }
  }

  lemma AtStays(a: seq<Row>, b: seq<Row>, cursor: Option<Cursor>, k: nat)
    requires Grown(a, b) && At(a, cursor, k)
    ensures At(b, cursor, k)
  {
  }

  lemma {:induction false} SelectedAreInRange(table: seq<Row>, range: Range)
    ensures forall row <- Select(table, range) :: InRange(row, range)
  {
    hide InRange;
    if table != [] { SelectedAreInRange(table[1..], range); }
  }

  /** Where the rows of the cursor's instant end. */
  lemma InstantEnds(table: seq<Row>, c: Cursor, k: nat) returns (q: nat)
    requires Ordered(table) && At(table, Some(c), k)
    ensures k <= q <= |table|
    ensures Select(table, SameInstant(c)) == table[k..q] && Select(table, LaterInstant(c)) == table[q..]
    ensures forall i :: k <= i < q ==> KeyOf(table[i]).ts == c.ts
    ensures forall i :: q <= i < |table| ==> KeyOf(table[i]).ts > c.ts
  {
    hide Ordered, Select, Less, InRange;
    AtIsCut(table, Some(c), k);
    AboveIsSuffix(table, Some(c));
    SplitByInstant(table, c);
    var same, late := Select(table, SameInstant(c)), Select(table, LaterInstant(c));
    SelectedAreInRange(table, SameInstant(c));
    SelectedAreInRange(table, LaterInstant(c));
    q := k + |same|;
    Partition(table, k, same, late);
    forall i | k <= i < q ensures KeyOf(table[i]).ts == c.ts { InstantOf(table[i], c, same, i - k); }
    forall i | q <= i < |table| ensures KeyOf(table[i]).ts > c.ts { LaterThan(table[i], c, late, i - q); }
  }

  lemma InstantOf(row: Row, c: Cursor, rows: seq<Row>, i: nat)
    requires i < |rows| && rows[i] == row && forall r <- rows :: InRange(r, SameInstant(c))
    ensures KeyOf(row).ts == c.ts
  {
    assert rows[i] in rows;
  }

  lemma LaterThan(row: Row, c: Cursor, rows: seq<Row>, i: nat)
    requires i < |rows| && rows[i] == row && forall r <- rows :: InRange(r, LaterInstant(c))
    ensures KeyOf(row).ts > c.ts
  {
    assert rows[i] in rows;
  }

  lemma Partition(s: seq<Row>, k: nat, a: seq<Row>, b: seq<Row>)
    requires k <= |s| && s[k..] == a + b
    ensures k + |a| <= |s| && a == s[k..k + |a|] && b == s[k + |a|..]
  {
    assert |s| - k == |a| + |b|;
    assert (a + b)[..|a|] == a && (a + b)[|a|..] == b;
    assert s[k..][..|a|] == s[k..k + |a|] && s[k..][|a|..] == s[k + |a|..];
  }

  /** Place in the later table of the i-th row of a page, where the rows of the cursor's instant end at qe in the table of
      the first request and at ql in that of the second. */
  function Place(k: nat, qe: nat, ql: nat, i: nat): nat { if k + i < qe then k + i else ql + (k + i - qe) }

  /** Where the cursor's instant ends only moves if the new rows start with some of that instant. */
  lemma EndsGrow(early: seq<Row>, late: seq<Row>, c: Cursor, k: nat) returns (qe: nat, ql: nat)
    requires Ordered(early) && Grown(early, late) && At(early, Some(c), k)
    ensures k <= qe <= ql <= |late| && qe <= |early|
    ensures Select(early, SameInstant(c)) == early[k..qe] && Select(late, LaterInstant(c)) == late[ql..]
    ensures forall i :: k <= i < ql ==> KeyOf(late[i]).ts == c.ts
    ensures forall i :: ql <= i < |late| ==> KeyOf(late[i]).ts > c.ts
    ensures qe < ql <==> exists j :: |early| <= j < |late| && KeyOf(late[j]).ts == c.ts
    ensures qe < ql ==> qe == |early|
  {
    hide Ordered, DistinctIds, Mutable, Select, Less, InRange;
    AtStays(early, late, Some(c), k);
    qe := InstantEnds(early, c, k);
    ql := InstantEnds(late, c, k);
    assert k > 0 && KeyOf(early[k - 1]).ts == c.ts;
    assert qe < |early| ==> KeyOf(early[qe]) == KeyOf(late[qe]);
    assert ql < |early| ==> KeyOf(early[ql]) == KeyOf(late[ql]);
    if qe < ql { assert qe == |early| && KeyOf(late[qe]).ts == c.ts; }
  }

  /** Every row of a page is a version of a row of the later table, and they come from rising places. */
  lemma PagePlaces(early: seq<Row>, late: seq<Row>, c: Cursor, limit: nat, k: nat, qe: nat, ql: nat)
    requires k <= qe <= ql <= |late| && qe <= |early| <= |late| && forall i :: 0 <= i < |early| ==> Follows(early[i], late[i])
    requires Select(early, SameInstant(c)) == early[k..qe] && Select(late, LaterInstant(c)) == late[ql..]
    ensures var page := TwoRequestPage(early, late, c, limit);
            && |page| == Min(limit, (qe - k) + (|late| - ql))
            && (forall i :: 0 <= i < |page| ==> Place(k, qe, ql, i) < |late| && Follows(page[i], late[Place(k, qe, ql, i)]))
            && (early == late ==> forall i :: 0 <= i < |page| ==> page[i] == late[Place(k, qe, ql, i)])
  {
    hide Select, Mutable;
    var page := TwoRequestPage(early, late, c, limit);
    var same := First(early[k..qe], limit);
    forall i | 0 <= i < |page|
      ensures Place(k, qe, ql, i) < |late| && page[i] == if i < |same| then early[k + i] else late[Place(k, qe, ql, i)]
    {
      if i >= |same| { assert late[ql..][i - |same|] == late[ql + (i - |same|)]; }
    }
  }

  /** Rows read from the table from position k on. */
  ghost predicate Covers(rows: seq<Row>, table: seq<Row>, k: nat) {
    k + |rows| <= |table| && forall i :: 0 <= i < |rows| ==> Follows(rows[i], table[k + i])
  }

  /** Some row read from position k on is not the one due there: the reading has passed over a row. */
  ghost predicate Strays(rows: seq<Row>, table: seq<Row>, k: nat) {
    exists i :: 0 <= i < |rows| && k + i < |table| && KeyOf(rows[i]) != KeyOf(table[k + i])
  }

  /** The page is all that the later table has next, up to the limit. */
  ghost predicate NextRows(page: seq<Row>, table: seq<Row>, k: nat, limit: nat) {
    k <= |table| && |page| == Min(limit, |table| - k) && Covers(page, table, k)
  }

  /** The first request filled the page, or no new row of the cursor's instant came before the second. */
  ghost predicate Undisturbed(early: seq<Row>, late: seq<Row>, c: Cursor, limit: nat) {
    || |First(Select(early, SameInstant(c)), limit)| == limit
    || forall j :: |early| <= j < |late| ==> KeyOf(late[j]).ts != c.ts
  }

  /** A page read while the table grows is its next rows, as the second request finds them, if and only if it was not
      disturbed. */
  lemma PageCoversIff(early: seq<Row>, late: seq<Row>, c: Cursor, k: nat, limit: nat)
    requires Ordered(early) && Grown(early, late) && At(early, Some(c), k)
    ensures NextRows(TwoRequestPage(early, late, c, limit), late, k, limit) <==> Undisturbed(early, late, c, limit)
    ensures early == late ==> TwoRequestPage(early, late, c, limit) == First(late[k..], limit)
  {
    hide Ordered, DistinctIds, Mutable, Select, TwoRequestPage;
    var page := TwoRequestPage(early, late, c, limit);
    var qe, ql := EndsGrow(early, late, c, k);
    PagePlaces(early, late, c, limit, k, qe, ql);
    if Undisturbed(early, late, c, limit) {
      forall i | 0 <= i < |page| ensures Place(k, qe, ql, i) == k + i {}
    } else if ql < |late| && |page| > qe - k {
      assert !Follows(page[qe - k], late[k + (qe - k)]);
    }
  }

  /** A row below the last one of the page and not in it. */
  ghost predicate PassedBy(page: seq<Row>, row: Row) {
    page != [] && Less(KeyOf(row), KeyOf(page[|page| - 1])) && forall r <- page :: r.id != row.id
  }

  /** A row is passed over, and the cursor moves beyond it, if and only if the page was disturbed and goes on to a later
      instant. */
  lemma PagePassesOverIff(early: seq<Row>, late: seq<Row>, c: Cursor, k: nat, limit: nat)
    requires Ordered(early) && Grown(early, late) && At(early, Some(c), k)
    ensures var page := TwoRequestPage(early, late, c, limit);
            && (Strays(page, late, k) <==> !Undisturbed(early, late, c, limit) && Select(late, LaterInstant(c)) != [])
            && (Strays(page, late, k) <==> !Covers(page, late, k))
            && (!Covers(page, late, k) ==> exists j :: |early| <= j < |late| && KeyOf(late[j]).ts == c.ts && PassedBy(page, late[j]))
  {
    hide Ordered, DistinctIds, Mutable, Select, TwoRequestPage, PassedBy, Less;
    var page := TwoRequestPage(early, late, c, limit);
    var qe, ql := EndsGrow(early, late, c, k);
    PagePlaces(early, late, c, limit, k, qe, ql);
    if qe == ql || |page| <= qe - k {
      forall i | 0 <= i < |page| ensures Place(k, qe, ql, i) == k + i {}
    } else {
      assert KeyOf(page[qe - k]).ts > c.ts && KeyOf(late[k + (qe - k)]).ts == c.ts;
      PassedOver(page, late, c, k, qe, ql);
    }
  }

  lemma PassedOver(page: seq<Row>, late: seq<Row>, c: Cursor, k: nat, qe: nat, ql: nat)
    requires k <= qe < ql <= |late| && DistinctIds(late) && |page| > qe - k
    requires forall i :: 0 <= i < |page| ==> Place(k, qe, ql, i) < |late| && Follows(page[i], late[Place(k, qe, ql, i)])
    requires KeyOf(late[qe]).ts == c.ts && forall i :: ql <= i < |late| ==> KeyOf(late[i]).ts > c.ts
    ensures PassedBy(page, late[qe])
  {
    hide Mutable;
    assert Follows(page[|page| - 1], late[Place(k, qe, ql, |page| - 1)]);
    forall row | row in page ensures row.id != late[qe].id {
      var i :| 0 <= i < |page| && page[i] == row;
      assert Follows(page[i], late[Place(k, qe, ql, i)]);
    }
  }

  // ---- Equal instants ----

  /** Rows of one symbol, as the exactly-once protocol keeps them: one per instant. */
  ghost predicate SymbolScope(table: seq<Row>) {
    && (forall i, j :: 0 <= i < j < |table| ==> table[i].symbol == table[j].symbol)
    && (forall i, j :: 0 <= i < j < |table| ==> KeyOf(table[i]).ts != KeyOf(table[j]).ts || table[i].symbol != table[j].symbol)
  }

  /** No page over one symbol is ever disturbed. */
  lemma SymbolScopeIsUndisturbed(early: seq<Row>, late: seq<Row>, c: Cursor, k: nat, limit: nat)
    requires Grown(early, late) && At(early, Some(c), k) && SymbolScope(late)
    ensures Undisturbed(early, late, c, limit)
  {
    hide Mutable, Ordered, DistinctIds, Select;
    assert Follows(early[k - 1], late[k - 1]);
  }

  const OLD := Row(1, Some(0), "S", "FLAT", None, "", None, None, Audit(None, None, ""))

  /** In the scope of all symbols it happens: of two rows appended between the two requests of a page, the one of another
      symbol at the cursor's instant is passed over. */
  lemma EqualInstantIsSkipped()
    ensures var twin, next := OLD.(id := 2, symbol := "T"), OLD.(id := 3, ts := Some(5));
            var table := [OLD, twin, next];
            && Ordered(table) && DistinctIds(table) && Grown([OLD], table) && !Undisturbed([OLD], table, KeyOf(OLD), 10)
            && (forall i, j :: 0 <= i < j < |table| ==> (KeyOf(table[i]).ts, table[i].symbol) != (KeyOf(table[j]).ts, table[j].symbol))
            && TwoRequestPage([OLD], table, KeyOf(OLD), 10) == [next] && Less(KeyOf(twin), KeyOf(next))
  {
    hide Mutable;
    var twin, next := OLD.(id := 2, symbol := "T"), OLD.(id := 3, ts := Some(5));
    var c := KeyOf(OLD);
    assert Select([OLD], SameInstant(c)) == [];
    assert Select([next], LaterInstant(c)) == [next];
    assert Select([twin, next], LaterInstant(c)) == [next] by { assert [twin, next][1..] == [next]; }
    assert Select([OLD, twin, next], LaterInstant(c)) == [next] by { assert [OLD, twin, next][1..] == [twin, next]; }
    assert KeyOf([OLD, twin, next][1]).ts == c.ts;
  }
}
