/** The non-overlapping one-hour cohort (senecio_polymarket/backend/authoritative_score.py). Instants are microseconds. */
module Cohort {
  import opened Prelude
  import opened Sorting

  /** A row as its sort key sees it: its instant (None when missing or unreadable), its id as text, and its canonical JSON,
      which determines the row. */
  datatype Row = Row(ts: Option<int>, id: string, canonical: string)

  const HORIZON := 3600 * 1000000

  /** `_stable_row_key` order; a row without instant sorts last. */
  predicate KeyLe(a: Row, b: Row) {
    if a.ts != b.ts then (if a.ts.None? then false else b.ts.None? || a.ts.value < b.ts.value)
    else if a.id != b.id then StringLe(a.id, b.id)
    else StringLe(a.canonical, b.canonical)
  }

  lemma KeyLeIsTotalOrder()
    ensures TotalPreorder(KeyLe) && Antisymmetric(KeyLe)
  {
    StringLeIsTotalOrder();
    hide StringLe;
    assert TotalPreorder(StringLe) && Antisymmetric(StringLe);
    forall a: Row, b: Row ensures KeyLe(a, b) || KeyLe(b, a) {
      assert StringLe(a.id, b.id) || StringLe(b.id, a.id);
      assert StringLe(a.canonical, b.canonical) || StringLe(b.canonical, a.canonical);
    }
    forall a: Row, b: Row, c: Row | KeyLe(a, b) && KeyLe(b, c) ensures KeyLe(a, c) {
      if StringLe(a.id, b.id) && StringLe(b.id, c.id) { assert StringLe(a.id, c.id); }
      if StringLe(a.id, b.id) && StringLe(b.id, a.id) { assert a.id == b.id; }
      if StringLe(a.canonical, b.canonical) && StringLe(b.canonical, c.canonical) { assert StringLe(a.canonical, c.canonical); }
    }
    forall a: Row, b: Row | KeyLe(a, b) && KeyLe(b, a) ensures a == b {
      if StringLe(a.id, b.id) && StringLe(b.id, a.id) { assert a.id == b.id; }
      if StringLe(a.canonical, b.canonical) && StringLe(b.canonical, a.canonical) { assert a.canonical == b.canonical; }
    }
  }

  predicate Selectable(row: Row, last: Option<int>) {
    row.ts.Some? && (last.None? || row.ts.value >= last.value + HORIZON)
  }

  /** What the greedy pass selects from rows in key order. */
  function Greedy(rows: seq<Row>, last: Option<int>): (r: seq<Row>)
    ensures forall x <- r :: x in rows && x.ts.Some?
  {
    if rows == [] then []
    else if Selectable(rows[0], last) then [rows[0]] + Greedy(rows[1..], rows[0].ts)
    else Greedy(rows[1..], last)
  }

  const HOUR := 60 * 60 * 1000000

  /** Rows with instants at least an hour apart, in either direction. */
  ghost predicate Apart(rows: seq<Row>) {
    && (forall i :: 0 <= i < |rows| ==> rows[i].ts.Some?)
    && (forall i, j :: 0 <= i < j < |rows| ==>
          rows[i].ts.value + HOUR <= rows[j].ts.value || rows[j].ts.value + HOUR <= rows[i].ts.value)
  }

  /** The same in time order, starting an hour after `last`. */
  ghost predicate ChainAfter(rows: seq<Row>, last: Option<int>) {
    && (forall i :: 0 <= i < |rows| ==> Selectable(rows[i], last))
    && (forall i, j :: 0 <= i < j < |rows| ==> rows[i].ts.value + HORIZON <= rows[j].ts.value)
  }

  lemma {:induction false} GreedyIsChain(rows: seq<Row>, last: Option<int>)
    ensures ChainAfter(Greedy(rows, last), last)
  {
    if rows != [] {
      if Selectable(rows[0], last) {
        GreedyIsChain(rows[1..], rows[0].ts);
        ChainGrows(rows[0], Greedy(rows[1..], rows[0].ts), last);
      } else {
        GreedyIsChain(rows[1..], last);
      }
    }
  }

  lemma ChainGrows(first: Row, rest: seq<Row>, last: Option<int>)
    requires Selectable(first, last) && ChainAfter(rest, first.ts)
    ensures ChainAfter([first] + rest, last)
  {
    var all := [first] + rest;
    forall i | 0 <= i < |all| ensures Selectable(all[i], last) { if i > 0 { assert Selectable(rest[i - 1], first.ts); } }
    forall i, j | 0 <= i < j < |all| ensures all[i].ts.value + HORIZON <= all[j].ts.value {
      assert Selectable(rest[j - 1], first.ts);
      if i > 0 { assert all[i] == rest[i - 1] && all[j] == rest[j - 1]; }
    }
  }

  ghost predicate InTimeOrder(rows: seq<Row>) {
    forall i, j :: 0 <= i < j < |rows| && rows[j].ts.Some? ==> rows[i].ts.Some? && rows[i].ts.value <= rows[j].ts.value
  }

  lemma SortedInTimeOrder(rows: seq<Row>)
    requires Sorted(rows, KeyLe)
    ensures InTimeOrder(rows)
  {
    hide StringLe;
    forall i, j | 0 <= i < j < |rows| && rows[j].ts.Some? ensures rows[i].ts.Some? && rows[i].ts.value <= rows[j].ts.value {
      assert KeyLe(rows[i], rows[j]);
    }
  }

  lemma DropFirst(rows: seq<Row>, chain: seq<Row>)
    requires rows != [] && (forall x <- chain :: x in rows) && rows[0] !in chain
    ensures forall x <- chain :: x in rows[1..]
  {
    forall x | x in chain ensures x in rows[1..] {
      var i :| 0 <= i < |rows| && rows[i] == x;
      assert rows[1..][i - 1] == x;
    }
  }

  /** The greedy choice is never behind: any chain from the same rows is no longer. */
  lemma {:induction false} GreedyIsLongest(rows: seq<Row>, last: Option<int>, chain: seq<Row>)
    requires InTimeOrder(rows) && ChainAfter(chain, last) && forall x <- chain :: x in rows
    ensures |chain| <= |Greedy(rows, last)|
  {
    if rows == [] {
      if chain != [] { SomeInBoth(chain, rows); }
    } else if chain != [] {
      var first, rest := rows[0], rows[1..];
      if Selectable(first, last) {
        assert chain[0] in rows;
        assert chain[0].ts.value >= first.ts.value;
        var tail := chain[1..];
        forall i | 0 <= i < |tail| ensures Selectable(tail[i], first.ts) && tail[i] in rows { assert tail[i] == chain[i + 1]; }
        assert first !in tail;
        DropFirst(rows, tail);
        GreedyIsLongest(rest, first.ts, tail);
      } else {
        assert first !in chain;
        DropFirst(rows, chain);
        GreedyIsLongest(rest, last, chain);
      }
    }
  }

  predicate TsLe(a: Row, b: Row) { (if a.ts.Some? then a.ts.value else 0) <= (if b.ts.Some? then b.ts.value else 0) }

  /** Rows an hour apart, put in time order, are a chain. */
  lemma ApartIsChain(rows: seq<Row>)
    requires Apart(rows)
    ensures ChainAfter(Sort(rows, TsLe), None) && multiset(Sort(rows, TsLe)) == multiset(rows)
  {
    hide Sort;
    var sorted := Sort(rows, TsLe);
    assert TotalPreorder(TsLe);
    SortSorted(rows, TsLe);
    SameMultisetSameMembers(sorted, rows);
    assert NoRepeats(rows);
    PermutationNoRepeats(rows, sorted);
    forall i | 0 <= i < |sorted| ensures Selectable(sorted[i], None) {
      assert sorted[i] in rows;
      var a :| 0 <= a < |rows| && rows[a] == sorted[i];
    }
    forall i, j | 0 <= i < j < |sorted| ensures sorted[i].ts.value + HORIZON <= sorted[j].ts.value {
      assert sorted[i] in rows && sorted[j] in rows && TsLe(sorted[i], sorted[j]);
      var a :| 0 <= a < |rows| && rows[a] == sorted[i];
      var b :| 0 <= b < |rows| && rows[b] == sorted[j];
      assert a != b;
    }
  }

  lemma GreedyStep(rows: seq<Row>, i: nat, last: Option<int>)
    requires i < |rows|
    ensures Greedy(rows[i..], last) ==
              if Selectable(rows[i], last) then [rows[i]] + Greedy(rows[i + 1..], rows[i].ts) else Greedy(rows[i + 1..], last)
  {
    assert rows[i..][0] == rows[i] && rows[i..][1..] == rows[i + 1..];
  }

  /** `independent_1h_cohort`. */
  method Independent1hCohort(rows: seq<Row>) returns (selected: seq<Row>)
    ensures selected == Greedy(Sort(rows, KeyLe), None)
  {
    hide Greedy, Sort, KeyLe;
    var ordered := Sort(rows, KeyLe);
    var last: Option<int>, i := None, 0;
    selected := [];
    assert ordered[0..] == ordered;
    while i < |ordered|
      invariant i <= |ordered| && Greedy(ordered, None) == selected + Greedy(ordered[i..], last)
    {
      var row := ordered[i];
      GreedyStep(ordered, i, last);
      i := i + 1;
      if row.ts.None? { continue; }
      if last.None? || row.ts.value >= last.value + HORIZON {
        assert selected + ([row] + Greedy(ordered[i..], row.ts)) == (selected + [row]) + Greedy(ordered[i..], row.ts);
        selected, last := selected + [row], row.ts;
      }
    }
    NothingLeft(last);
    assert ordered[|ordered|..] == [];
  }

  lemma NothingLeft(last: Option<int>)
    ensures Greedy([], last) == []
  {
  }

  /** The cohort is made of input rows at least an hour apart, and no such choice from the input is larger. */
  lemma CohortIsMaximum(rows: seq<Row>, other: seq<Row>)
    requires Apart(other) && forall x <- other :: x in rows
    ensures var cohort := Greedy(Sort(rows, KeyLe), None);
            Apart(cohort) && (forall x <- cohort :: x in rows) && |other| <= |cohort|
  {
    hide Sort, KeyLe;
    var ordered := Sort(rows, KeyLe);
    KeyLeIsTotalOrder();
    SortSorted(rows, KeyLe);
    SameMultisetSameMembers(ordered, rows);
    SortedInTimeOrder(ordered);
    GreedyIsChain(ordered, None);
    ApartIsChain(other);
    var chain := Sort(other, TsLe);
    SameMultisetSameMembers(chain, other);
    GreedyIsLongest(ordered, None, chain);
  }

  /** A row sorts no later than another: by instant, then by its id as text, then by its text. */
  ghost predicate NoLater(a: Row, b: Row)
    requires a.ts.Some? && b.ts.Some?
  {
    || a.ts.value < b.ts.value
    || (a.ts.value == b.ts.value && (a.id == b.id ==> StringLe(a.canonical, b.canonical)) && (a.id != b.id ==> StringLe(a.id, b.id)))
  }

  lemma {:induction false} GreedyCovers(rows: seq<Row>, last: Option<int>, x: Row)
    requires Sorted(rows, KeyLe) && x in rows && x.ts.Some?
    ensures (last.Some? && x.ts.value < last.value + HORIZON)
            || exists y <- Greedy(rows, last) :: y.ts.Some? && NoLater(y, x) && x.ts.value < y.ts.value + HORIZON
  {
    hide StringLe;
    var first, rest := rows[0], rows[1..];
    StringLeIsTotalOrder();
    assert StringLe(x.canonical, x.canonical) by { assert TotalPreorder(StringLe); }
    assert x == first || KeyLe(first, x) by { var i :| 0 <= i < |rows| && rows[i] == x; }
    assert Sorted(rest, KeyLe);
    var next := if Selectable(first, last) then first.ts else last;
    if x != first {
      assert rows == [first] + rest;
      GreedyCovers(rest, next, x);
    }
    if Selectable(first, last) { assert first in Greedy(rows, last); }
  }

  /** Why a row with an instant is left out: some row of the cohort sorts before it and is less than an hour older. */
  lemma LeftOutForEarlier(rows: seq<Row>, x: Row)
    requires x in rows && x.ts.Some?
    ensures exists y <- Greedy(Sort(rows, KeyLe), None) :: y.ts.Some? && NoLater(y, x) && x.ts.value < y.ts.value + HOUR
  {
    hide Sort, KeyLe, NoLater;
    KeyLeIsTotalOrder();
    SortSorted(rows, KeyLe);
    SameMultisetSameMembers(Sort(rows, KeyLe), rows);
    GreedyCovers(Sort(rows, KeyLe), None, x);
  }

  /** The cohort does not depend on the order of the input. */
  lemma CohortIgnoresOrder(rows: seq<Row>, permuted: seq<Row>)
    requires multiset(rows) == multiset(permuted)
    ensures Greedy(Sort(rows, KeyLe), None) == Greedy(Sort(permuted, KeyLe), None)
  {
    KeyLeIsTotalOrder();
    SortOfPermutation(rows, permuted, KeyLe);
  }
}
