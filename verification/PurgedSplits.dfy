/** Purged walk-forward splits and their validator (research/challengers/common.py). Instants are microseconds. */
module PurgedSplits {
  import opened Prelude
  import opened Sorting

  /** A timestamp that cannot be read is None. */
  datatype Observation = Observation(
    marketId: string, decision: Option<int>, labelEnd: Option<int>, outcome: int, market: real, senex: Option<real>)

  datatype Split = Split(train: seq<nat>, test: seq<nat>, start: int, embargo: int)

  datatype SplitError = BadSplits | BadMinimum | BadEmbargo | TooFewRows | BadRow | NoAdmissiblePosition | PurgeViolated

  const SECOND := 1000000

  predicate RowOk(r: Observation) {
    && r.marketId != "" && r.decision.Some? && r.labelEnd.Some? && r.labelEnd.value > r.decision.value
    && (r.outcome == 0 || r.outcome == 1) && 0.0 <= r.market <= 1.0 && (r.senex.Some? ==> 0.0 <= r.senex.value <= 1.0)
  }

  /** What is wrong with a row: a missing id or instant, a label window that does not end after the decision, an outcome other
      than 0 and 1, or a probability outside 0 to 1. */
  ghost predicate Malformed(r: Observation) {
    || r.marketId == "" || r.decision.None? || r.labelEnd.None? || !(r.decision.value < r.labelEnd.value)
    || r.outcome !in {0, 1} || r.market < 0.0 || 1.0 < r.market || (exists p <- [r.senex] :: p.Some? && (p.value < 0.0 || 1.0 < p.value))
  }

  lemma RowOkIff(rows: seq<Observation>)
    ensures RowsOk(rows) <==> forall row <- rows :: !Malformed(row)
  {
    forall row | row in rows ensures RowOk(row) <==> !Malformed(row) { assert row.senex in [row.senex]; }
  }

  ghost predicate RowsOk(rows: seq<Observation>) { forall i :: 0 <= i < |rows| ==> RowOk(rows[i]) }

  function Decision(rows: seq<Observation>, i: nat): int { if i < |rows| && rows[i].decision.Some? then rows[i].decision.value else 0 }

  function LabelEnd(rows: seq<Observation>, i: nat): int { if i < |rows| && rows[i].labelEnd.Some? then rows[i].labelEnd.value else 0 }

  // ---- Time order ----

  datatype Key = Key(decision: int, market: string, index: nat)

  predicate KeyLe(a: Key, b: Key) {
    || a.decision < b.decision
    || (a.decision == b.decision && (if a.market != b.market then StringLe(a.market, b.market) else a.index <= b.index))
  }

  function Keys(rows: seq<Observation>): (r: seq<Key>)
    ensures |r| == |rows| && forall i :: 0 <= i < |r| ==> r[i] == Key(Decision(rows, i), rows[i].marketId, i)
  {
    seq(|rows|, i requires 0 <= i < |rows| => Key(Decision(rows, i), rows[i].marketId, i))
  }

  function Indexes(keys: seq<Key>): (r: seq<nat>)
    ensures |r| == |keys| && forall i :: 0 <= i < |r| ==> r[i] == keys[i].index
  {
    seq(|keys|, i requires 0 <= i < |keys| => keys[i].index)
  }

  function OrderOf(rows: seq<Observation>): seq<nat> { Indexes(Sort(Keys(rows), KeyLe)) }

  /** A permutation of all row numbers in order of decision time. */
  ghost predicate TimeOrder(rows: seq<Observation>, order: seq<nat>) {
    && |order| == |rows| && NoRepeats(order) && (forall i :: 0 <= i < |order| ==> order[i] < |rows|)
    && (forall i, j :: 0 <= i < j < |order| ==> Decision(rows, order[i]) <= Decision(rows, order[j]))
  }

  lemma KeyLeIsTotal()
    ensures TotalPreorder(KeyLe)
  {
    StringLeIsTotalOrder();
    assert TotalPreorder(StringLe) && Antisymmetric(StringLe);
    forall a: Key, b: Key ensures KeyLe(a, b) || KeyLe(b, a) {
      assert StringLe(a.market, b.market) || StringLe(b.market, a.market);
    }
    forall a: Key, b: Key, c: Key | KeyLe(a, b) && KeyLe(b, c) ensures KeyLe(a, c) {
      if StringLe(a.market, b.market) && StringLe(b.market, c.market) { assert StringLe(a.market, c.market); }
      if StringLe(a.market, b.market) && StringLe(b.market, a.market) { assert a.market == b.market; }
    }
  }

  lemma OrderIsTimeOrder(rows: seq<Observation>)
    ensures TimeOrder(rows, OrderOf(rows))
  {
    hide KeyLe, Sort;
    var keys := Keys(rows);
    var sorted := Sort(keys, KeyLe);
    KeyLeIsTotal();
    SortSorted(keys, KeyLe);
    SameMultisetSameMembers(sorted, keys);
    var order := OrderOf(rows);
    forall i | 0 <= i < |sorted| ensures sorted[i].index < |rows| && sorted[i] == keys[sorted[i].index] { assert sorted[i] in keys; }
    forall i, j | 0 <= i < j < |order| ensures Decision(rows, order[i]) <= Decision(rows, order[j]) {
      assert KeyLe(sorted[i], sorted[j]);
      KeyLeDecision(sorted[i], sorted[j]);
    }
    assert NoRepeats(keys);
    PermutationNoRepeats(keys, sorted);
    forall i, j | 0 <= i < j < |order| ensures order[i] != order[j] { assert sorted[i] != sorted[j]; }
  }

  lemma KeyLeDecision(a: Key, b: Key)
    requires KeyLe(a, b)
    ensures a.decision <= b.decision
  {
  }

  /** Rows of one decision time are in the order of their markets, and those of one market in the order given. */
  lemma TiesAreOrdered(rows: seq<Observation>, i: nat, j: nat)
    requires i < j < |rows|
    ensures var order := OrderOf(rows);
            |order| == |rows| && order[i] < |rows| && order[j] < |rows|
            && (Decision(rows, order[i]) == Decision(rows, order[j]) ==>
                  && StringLe(rows[order[i]].marketId, rows[order[j]].marketId)
                  && (rows[order[i]].marketId == rows[order[j]].marketId ==> order[i] < order[j]))
  {
    hide Sort, StringLe;
    var keys := Keys(rows);
    var sorted := Sort(keys, KeyLe);
    KeyLeIsTotal();
    SortSorted(keys, KeyLe);
    SameMultisetSameMembers(sorted, keys);
    OrderIsTimeOrder(rows);
    assert sorted[i] in keys && sorted[j] in keys && KeyLe(sorted[i], sorted[j]);
    StringLeReflexive(sorted[i].market);
  }

  lemma StringLeReflexive(s: string)
    ensures StringLe(s, s)
  {
    StringLeIsTotalOrder();
    assert TotalPreorder(StringLe);
  }

  // ---- Purging ----

  /** Candidates whose label window ends before the bound. */
  function Eligible(rows: seq<Observation>, candidates: seq<nat>, before: int): (r: seq<nat>)
    ensures forall i :: i in r <==> i in candidates && LabelEnd(rows, i) < before
  {
    if candidates == [] then []
    else
      assert candidates == [candidates[0]] + candidates[1..];
      (if LabelEnd(rows, candidates[0]) < before then [candidates[0]] else []) + Eligible(rows, candidates[1..], before)
  }

  lemma {:induction false} EligibleNoRepeats(rows: seq<Observation>, candidates: seq<nat>, before: int)
    requires NoRepeats(candidates)
    ensures NoRepeats(Eligible(rows, candidates, before))
  {
    if candidates != [] {
      EligibleNoRepeats(rows, candidates[1..], before);
      assert candidates[0] !in candidates[1..];
      var rest := Eligible(rows, candidates[1..], before);
      forall i | 0 <= i < |rest| ensures rest[i] != candidates[0] { assert rest[i] in rest; }
    }
  }

  /** More candidates and a later bound keep at least as many. */
  lemma MoreEligible(rows: seq<Observation>, a: seq<nat>, b: seq<nat>, before: int, later: int)
    requires NoRepeats(a) && NoRepeats(b) && (forall i <- a :: i in b) && before <= later
    ensures |Eligible(rows, a, before)| <= |Eligible(rows, b, later)|
    ensures forall i <- Eligible(rows, a, before) :: i in Eligible(rows, b, later)
  {
    var x, y := Eligible(rows, a, before), Eligible(rows, b, later);
    EligibleNoRepeats(rows, a, before);
    EligibleNoRepeats(rows, b, later);
    var xs, ys := set i | i in x, set i | i in y;
    NoRepeatsSize(x, xs);
    NoRepeatsSize(y, ys);
    SubsetSize(xs, ys);
  }

  function Bound(rows: seq<Observation>, order: seq<nat>, position: nat, embargo: int): int
    requires position < |order|
  {
    Decision(rows, order[position]) - embargo * SECOND
  }

  function TrainAt(rows: seq<Observation>, order: seq<nat>, position: nat, embargo: int): seq<nat>
    requires position < |order|
  {
    Eligible(rows, order[..position], Bound(rows, order, position, embargo))
  }

  /** The training set only grows along the order, and with it stays large enough. */
  lemma TrainGrows(rows: seq<Observation>, order: seq<nat>, a: nat, b: nat, embargo: int)
    requires TimeOrder(rows, order) && a <= b < |order|
    ensures |TrainAt(rows, order, a, embargo)| <= |TrainAt(rows, order, b, embargo)|
    ensures forall i <- TrainAt(rows, order, a, embargo) :: i in TrainAt(rows, order, b, embargo)
  {
    hide Decision;
    assert Decision(rows, order[a]) <= Decision(rows, order[b]);
    forall i | i in order[..a] ensures i in order[..b] {
      var k :| 0 <= k < a && order[k] == i;
      assert order[..b][k] == i;
    }
    MoreEligible(rows, order[..a], order[..b], Bound(rows, order, a, embargo), Bound(rows, order, b, embargo));
  }

  // ---- The validator ----

  ghost predicate IndexSetOk(rows: seq<Observation>, s: seq<nat>) {
    s != [] && NoRepeats(s) && forall i <- s :: i < |rows|
  }

  /** What one fold must satisfy. */
  ghost predicate SplitOk(rows: seq<Observation>, s: Split) {
    && s.embargo >= 0 && IndexSetOk(rows, s.train) && IndexSetOk(rows, s.test)
    && (forall i <- s.train :: i !in s.test)
    && (exists i <- s.test :: Decision(rows, i) == s.start)
    && (forall i <- s.train :: Decision(rows, i) < s.start && LabelEnd(rows, i) + s.embargo * 1000000 < s.start)
    && (forall i <- s.test :: Decision(rows, i) >= s.start)
  }

  ghost predicate SplitsOk(rows: seq<Observation>, splits: seq<Split>) {
    && splits != [] && RowsOk(rows) && (forall k :: 0 <= k < |splits| ==> SplitOk(rows, splits[k]))
    && (forall j, k :: 0 <= j < k < |splits| ==> forall i <- splits[j].test :: i !in splits[k].test)
  }

  function MinDecision(rows: seq<Observation>, indexes: seq<nat>): (m: int)
    requires indexes != []
    ensures (exists i <- indexes :: Decision(rows, i) == m) && forall i <- indexes :: m <= Decision(rows, i)
  {
    var last := indexes[|indexes| - 1];
    if |indexes| == 1 then Decision(rows, last)
    else
      var rest := MinDecision(rows, indexes[..|indexes| - 1]);
      assert indexes == indexes[..|indexes| - 1] + [last];
      if Decision(rows, last) < rest then Decision(rows, last) else rest
  }

  function Members(s: seq<nat>): set<nat> { set i | i in s }

  /** One fold's checks, in the validator's order. */
  method CheckSplit(rows: seq<Observation>, s: Split) returns (ok: bool)
    requires RowsOk(rows)
    ensures ok <==> SplitOk(rows, s)
  {
    hide Decision, LabelEnd;
    if s.embargo < 0 || s.train == [] || s.test == [] { return false; }
    Distinct(s.train);
    Distinct(s.test);
    if |Members(s.train)| != |s.train| || |Members(s.test)| != |s.test| { return false; }
    if exists i <- s.train :: i in s.test { return false; }
    if exists i <- s.train + s.test :: i >= |rows| {
      MembersOfBoth(s.train, s.test);
      return false;
    }
    MembersOfBoth(s.train, s.test);
    var observed := MinDecision(rows, s.test);
    if s.start != observed { return false; }
    var k := 0;
    while k < |s.train|
      invariant k <= |s.train|
      invariant forall j :: 0 <= j < k ==> Decision(rows, s.train[j]) < s.start && LabelEnd(rows, s.train[j]) < s.start - s.embargo * SECOND
    {
      assert s.train[k] in s.train;
      if Decision(rows, s.train[k]) >= s.start { return false; }
      if LabelEnd(rows, s.train[k]) >= s.start - s.embargo * SECOND { return false; }
      k := k + 1;
    }
    return true;
  }

  lemma Distinct(s: seq<nat>)
    ensures |Members(s)| == |s| <==> NoRepeats(s)
  {
    if NoRepeats(s) {
      NoRepeatsSize(s, Members(s));
    } else {
      var i, j :| 0 <= i < j < |s| && s[i] == s[j];
      RepeatIsSmaller(s, i, j);
    }
  }

  lemma RepeatIsSmaller(s: seq<nat>, i: nat, j: nat)
    requires i < j < |s| && s[i] == s[j]
    ensures |Members(s)| < |s|
  {
    var rest := s[..j] + s[j + 1..];
    forall x | x in s ensures x in rest {
      var k :| 0 <= k < |s| && s[k] == x;
      if k < j { assert rest[k] == x; } else if k > j { assert rest[k - 1] == x; } else { assert rest[i] == x; }
    }
    SetAtMost(rest);
    SubsetSize(Members(s), Members(rest));
  }

  lemma {:induction false} SetAtMost(s: seq<nat>)
    ensures |Members(s)| <= |s|
  {
    if s != [] {
      SetAtMost(s[1..]);
      assert Members(s) == Members(s[1..]) + {s[0]};
    }
  }

  lemma MembersOfBoth(a: seq<nat>, b: seq<nat>)
    ensures forall i :: i in a + b <==> i in a || i in b
  {
  }

  /** `validate_purged_splits`: accepts exactly the folds of the contract. */
  method Validate(rows: seq<Observation>, splits: seq<Split>) returns (ok: bool)
    ensures ok <==> SplitsOk(rows, splits)
  {
    hide SplitOk, RowOk, Malformed;
    if splits == [] { return false; }
    var n := 0;
    while n < |rows|
      invariant n <= |rows| && forall i :: 0 <= i < n ==> RowOk(rows[i])
    {
      if !RowOk(rows[n]) { return false; }
      n := n + 1;
    }
    var seen: set<nat>, k := {}, 0;
    while k < |splits|
      invariant k <= |splits| && forall j :: 0 <= j < k ==> SplitOk(rows, splits[j])
      invariant forall i :: i in seen <==> exists j :: 0 <= j < k && i in splits[j].test
      invariant forall i, j :: 0 <= i < j < k ==> forall x <- splits[i].test :: x !in splits[j].test
    {
      var fold := CheckSplit(rows, splits[k]);
      if !fold { return false; }
      var test := splits[k].test;
      if exists i <- test :: i in seen { return false; }
      seen := seen + Members(test);
      k := k + 1;
    }
    return true;
  }

  // ---- The splitter ----

  /** Where fold k starts: the first `extra` folds are one row longer. */
  function CutAt(first: nat, base: nat, extra: nat, k: nat): nat { first + k * base + Min(k, extra) }

  lemma CutStep(first: nat, base: nat, extra: nat, k: nat)
    ensures CutAt(first, base, extra, k + 1) == CutAt(first, base, extra, k) + base + (if k < extra then 1 else 0)
  {
    assert (k + 1) * base == k * base + base;
  }

  lemma CutsEnd(first: nat, remaining: nat, folds: nat)
    requires folds >= 1
    ensures CutAt(first, remaining / folds, remaining % folds, folds) == first + remaining
    ensures remaining >= folds ==> remaining / folds >= 1
  {
    assert folds * (remaining / folds) + remaining % folds == remaining;
  }

  lemma {:induction false} CutsRise(first: nat, base: nat, extra: nat, j: nat, k: nat)
    requires j <= k
    ensures CutAt(first, base, extra, j) <= CutAt(first, base, extra, k)
  {
    if j < k {
      CutStep(first, base, extra, k - 1);
      CutsRise(first, base, extra, j, k - 1);
    }
  }

  /** A fold over positions `from` to `end` of the time order. */
  ghost predicate FoldAt(rows: seq<Observation>, order: seq<nat>, from: nat, end: nat, embargo: int, s: Split) {
    && from < end <= |order| && s.test == order[from..end] && s.start == Decision(rows, order[from])
    && s.embargo == embargo && s.train == TrainAt(rows, order, from, embargo)
  }

  ghost predicate Admissible(rows: seq<Observation>, order: seq<nat>, minimum: int, embargo: int, position: nat) {
    minimum <= position < |order| && |TrainAt(rows, order, position, embargo)| >= minimum
  }

  /** The folds of a run: consecutive stretches of the time order from the first admissible position to its end. */
  ghost predicate Folds(rows: seq<Observation>, order: seq<nat>, first: nat, wanted: int, embargo: int, splits: seq<Split>) {
    && wanted >= 1 && first < |order|
    && var remaining := |order| - first;
    var folds := Min(wanted, remaining);
    && |splits| == folds
    && forall k :: 0 <= k < folds ==>
         FoldAt(rows, order, CutAt(first, remaining / folds, remaining % folds, k),
                CutAt(first, remaining / folds, remaining % folds, k + 1), embargo, splits[k])
  }

  lemma TestStartIsFirst(rows: seq<Observation>, order: seq<nat>, from: nat, end: nat)
    requires TimeOrder(rows, order) && from < end <= |order|
    ensures MinDecision(rows, order[from..end]) == Decision(rows, order[from])
  {
    hide Decision, TimeOrder;
    var test := order[from..end];
    assert test[0] == order[from] && test[0] in test;
    var m := MinDecision(rows, test);
    var i :| i in test && Decision(rows, i) == m;
    var k :| 0 <= k < |test| && test[k] == i;
    assert test[k] == order[from + k];
    EarlierDecides(rows, order, from, from + k);
  }

  lemma EarlierDecides(rows: seq<Observation>, order: seq<nat>, i: nat, j: nat)
    requires TimeOrder(rows, order) && i <= j < |order|
    ensures Decision(rows, order[i]) <= Decision(rows, order[j])
  {
  }

  /** Every fold from an admissible position on satisfies the contract. */
  lemma FoldIsOk(rows: seq<Observation>, order: seq<nat>, first: nat, minimum: int, from: nat, end: nat, embargo: int, s: Split)
    requires RowsOk(rows) && TimeOrder(rows, order) && embargo >= 0 && minimum >= 1
    requires Admissible(rows, order, minimum, embargo, first) && first <= from && FoldAt(rows, order, from, end, embargo, s)
    ensures SplitOk(rows, s) && |s.train| >= minimum
  {
    hide Decision, LabelEnd, TimeOrder, RowsOk, Eligible;
    TrainGrows(rows, order, first, from, embargo);
    TrainIsOk(rows, order, from, end, embargo, s);
    TestIsOk(rows, order, from, end, embargo, s);
  }

  lemma TrainIsOk(rows: seq<Observation>, order: seq<nat>, from: nat, end: nat, embargo: int, s: Split)
    requires RowsOk(rows) && TimeOrder(rows, order) && embargo >= 0 && FoldAt(rows, order, from, end, embargo, s)
    ensures NoRepeats(s.train)
    ensures forall i <- s.train ::
              i < |rows| && i !in s.test && Decision(rows, i) < s.start && LabelEnd(rows, i) < s.start - s.embargo * SECOND
  {
    hide Eligible;
    EligibleNoRepeats(rows, order[..from], Bound(rows, order, from, embargo));
    forall i | i in s.train
      ensures i < |rows| && i !in s.test && Decision(rows, i) < s.start && LabelEnd(rows, i) < s.start - s.embargo * SECOND
    {
      assert i in order[..from];
      var k :| 0 <= k < from && order[k] == i;
      assert RowOk(rows[i]);
      forall j | 0 <= j < |s.test| ensures s.test[j] != i { assert s.test[j] == order[from + j]; }
    }
  }

  lemma TestIsOk(rows: seq<Observation>, order: seq<nat>, from: nat, end: nat, embargo: int, s: Split)
    requires TimeOrder(rows, order) && FoldAt(rows, order, from, end, embargo, s)
    ensures NoRepeats(s.test) && s.test != [] && (forall i <- s.test :: i < |rows| && Decision(rows, i) >= s.start)
    ensures exists i <- s.test :: Decision(rows, i) == s.start
  {
    hide Decision, TrainAt;
    forall i | i in s.test ensures i < |rows| && Decision(rows, i) >= s.start {
      var j :| 0 <= j < |s.test| && s.test[j] == i;
      assert s.test[j] == order[from + j];
    }
    forall i, j | 0 <= i < j < |s.test| ensures s.test[i] != s.test[j] { assert order[from + i] != order[from + j]; }
    assert s.test[0] == order[from] && s.test[0] in s.test;
  }

  /** The splitter's folds pass the validator. */
  lemma FoldsAreOk(rows: seq<Observation>, order: seq<nat>, first: nat, minimum: int, wanted: int, embargo: int, splits: seq<Split>)
    requires RowsOk(rows) && TimeOrder(rows, order) && embargo >= 0 && minimum >= 1
    requires Admissible(rows, order, minimum, embargo, first) && Folds(rows, order, first, wanted, embargo, splits)
    ensures SplitsOk(rows, splits)
  {
    hide FoldAt, SplitOk, RowsOk, CutAt, Admissible;
    var remaining, folds := |order| - first, |splits|;
    var base, extra := remaining / folds, remaining % folds;
    assert CutAt(first, base, extra, 0) == first by { FirstCut(first, base, extra); }
    forall k | 0 <= k < folds ensures SplitOk(rows, splits[k]) {
      CutsRise(first, base, extra, 0, k);
      FoldIsOk(rows, order, first, minimum, CutAt(first, base, extra, k), CutAt(first, base, extra, k + 1), embargo, splits[k]);
    }
    forall j, k | 0 <= j < k < folds ensures forall i <- splits[j].test :: i !in splits[k].test {
      CutsRise(first, base, extra, j + 1, k);
      Stretches(rows, order, CutAt(first, base, extra, j), CutAt(first, base, extra, j + 1),
                CutAt(first, base, extra, k), CutAt(first, base, extra, k + 1), embargo, splits[j], splits[k]);
    }
  }

  lemma FirstCut(first: nat, base: nat, extra: nat)
    ensures CutAt(first, base, extra, 0) == first
  {
  }

  lemma Stretches(rows: seq<Observation>, order: seq<nat>, a: nat, b: nat, c: nat, d: nat, embargo: int, s: Split, t: Split)
    requires NoRepeats(order) && b <= c && FoldAt(rows, order, a, b, embargo, s) && FoldAt(rows, order, c, d, embargo, t)
    ensures forall i <- s.test :: i !in t.test
  {
    forall i | i in s.test ensures i !in t.test {
      var k :| 0 <= k < |s.test| && s.test[k] == i;
      forall j | 0 <= j < |t.test| ensures t.test[j] != i { assert t.test[j] == order[c + j] && order[a + k] == i; }
    }
  }

  function Tests(splits: seq<Split>): seq<nat> { if splits == [] then [] else Tests(splits[..|splits| - 1]) + splits[|splits| - 1].test }

  /** Test folds partition the rows from the first admissible position, their sizes differ by at most one, longer ones
      first, and training sets only grow. */
  lemma FoldsPartition(rows: seq<Observation>, order: seq<nat>, first: nat, wanted: int, embargo: int, splits: seq<Split>)
    requires TimeOrder(rows, order) && Folds(rows, order, first, wanted, embargo, splits)
    ensures Tests(splits) == order[first..]
    ensures forall j, k :: 0 <= j <= k < |splits| ==> |splits[k].test| <= |splits[j].test| <= |splits[k].test| + 1
    ensures forall j, k :: 0 <= j <= k < |splits| ==> forall i <- splits[j].train :: i in splits[k].train
  {
    hide FoldAt, CutAt, TimeOrder, Tests;
    var remaining, folds := |order| - first, |splits|;
    var base, extra := remaining / folds, remaining % folds;
    TestsUpTo(rows, order, first, base, extra, embargo, splits, folds);
    CutsEnd(first, remaining, folds);
    assert splits[..folds] == splits && order[first..|order|] == order[first..];
    forall k | 0 <= k < folds ensures |splits[k].test| == base + (if k < extra then 1 else 0) {
      CutStep(first, base, extra, k);
      FoldParts(rows, order, CutAt(first, base, extra, k), CutAt(first, base, extra, k + 1), embargo, splits[k]);
    }
    forall j, k | 0 <= j <= k < folds ensures forall i <- splits[j].train :: i in splits[k].train {
      CutsRise(first, base, extra, j, k);
      FoldParts(rows, order, CutAt(first, base, extra, j), CutAt(first, base, extra, j + 1), embargo, splits[j]);
      FoldParts(rows, order, CutAt(first, base, extra, k), CutAt(first, base, extra, k + 1), embargo, splits[k]);
      TrainGrows(rows, order, CutAt(first, base, extra, j), CutAt(first, base, extra, k), embargo);
    }
  }

  /** A fold trains on exactly the rows that no fold from it on tests and whose label window, with the embargo, ends before its
      first test. */
  lemma TrainIsRest(rows: seq<Observation>, order: seq<nat>, first: nat, wanted: int, embargo: int, splits: seq<Split>, k: nat, i: nat)
    requires TimeOrder(rows, order) && Folds(rows, order, first, wanted, embargo, splits) && k < |splits| && i < |rows|
    ensures i in splits[k].train <==>
              (forall m :: k <= m < |splits| ==> i !in splits[m].test) && LabelEnd(rows, i) + embargo * 1000000 < splits[k].start
  {
    hide CutAt, Decision, LabelEnd, FoldAt, NoRepeats;
    var remaining, folds := |order| - first, |splits|;
    var base, extra := remaining / folds, remaining % folds;
    var cut := CutAt(first, base, extra, k);
    CutsEnd(first, remaining, folds);
    FoldTrains(rows, order, cut, CutAt(first, base, extra, k + 1), embargo, splits[k]);
    OrderHolds(rows, order, i);
    var p :| 0 <= p < |order| && order[p] == i;
    if p < cut {
      assert order[..cut][p] == i;
      EarlierIsUntested(rows, order, first, base, extra, embargo, splits, k, p);
    } else {
      NotInStretch(order, p, 0, cut);
      LaterIsTested(rows, order, first, base, extra, embargo, splits, k, p);
    }
  }

  lemma EarlierIsUntested(rows: seq<Observation>, order: seq<nat>, first: nat, base: nat, extra: nat, embargo: int,
                          splits: seq<Split>, k: nat, p: nat)
    requires NoRepeats(order) && k < |splits| && p < CutAt(first, base, extra, k) && p < |order|
    requires forall m :: 0 <= m < |splits| ==>
               FoldAt(rows, order, CutAt(first, base, extra, m), CutAt(first, base, extra, m + 1), embargo, splits[m])
    ensures forall m :: k <= m < |splits| ==> order[p] !in splits[m].test
  {
    hide CutAt, FoldAt, NoRepeats;
    forall m | k <= m < |splits| ensures order[p] !in splits[m].test {
      CutsRise(first, base, extra, k, m);
      FoldParts(rows, order, CutAt(first, base, extra, m), CutAt(first, base, extra, m + 1), embargo, splits[m]);
      NotInStretch(order, p, CutAt(first, base, extra, m), CutAt(first, base, extra, m + 1));
    }
  }

  lemma LaterIsTested(rows: seq<Observation>, order: seq<nat>, first: nat, base: nat, extra: nat, embargo: int,
                      splits: seq<Split>, k: nat, p: nat)
    requires k < |splits| && CutAt(first, base, extra, k) <= p < |order| == CutAt(first, base, extra, |splits|)
    requires forall m :: 0 <= m < |splits| ==>
               FoldAt(rows, order, CutAt(first, base, extra, m), CutAt(first, base, extra, m + 1), embargo, splits[m])
    ensures exists m :: k <= m < |splits| && order[p] in splits[m].test
  {
    hide CutAt, FoldAt;
    var m := StretchOf(first, base, extra, k, |splits|, p);
    FoldParts(rows, order, CutAt(first, base, extra, m), CutAt(first, base, extra, m + 1), embargo, splits[m]);
    assert splits[m].test[p - CutAt(first, base, extra, m)] == order[p];
  }

  lemma FoldTrains(rows: seq<Observation>, order: seq<nat>, from: nat, end: nat, embargo: int, s: Split)
    requires FoldAt(rows, order, from, end, embargo, s)
    ensures from < end <= |order|
    ensures forall i :: i in s.train <==> i in order[..from] && LabelEnd(rows, i) + embargo * 1000000 < s.start
  {
  }

  lemma NotInStretch(order: seq<nat>, p: nat, from: nat, end: nat)
    requires NoRepeats(order) && p < |order| && from <= end <= |order| && !(from <= p < end)
    ensures order[p] !in order[from..end]
  {
  }

  lemma OrderHolds(rows: seq<Observation>, order: seq<nat>, i: nat)
    requires TimeOrder(rows, order) && i < |rows|
    ensures i in order
  {
    hide Decision;
    var numbers: seq<nat> := seq(|rows|, j requires 0 <= j < |rows| => j);
    forall n | n in order ensures n in numbers { assert numbers[n] == n; }
    NoRepeatsSize(numbers, Members(numbers));
    NoRepeatsSize(order, Members(order));
    SubsetOfSameSize(Members(order), Members(numbers));
    assert numbers[i] == i;
  }

  lemma {:induction false} StretchOf(first: nat, base: nat, extra: nat, k: nat, folds: nat, p: nat) returns (m: nat)
    requires k < folds && CutAt(first, base, extra, k) <= p < CutAt(first, base, extra, folds)
    ensures k <= m < folds && CutAt(first, base, extra, m) <= p < CutAt(first, base, extra, m + 1)
    decreases folds
  {
    hide CutAt;
    if CutAt(first, base, extra, folds - 1) <= p {
      m := folds - 1;
    } else {
      m := StretchOf(first, base, extra, k, folds - 1, p);
    }
  }

  lemma FoldParts(rows: seq<Observation>, order: seq<nat>, from: nat, end: nat, embargo: int, s: Split)
    requires FoldAt(rows, order, from, end, embargo, s)
    ensures from < end <= |order| && s.test == order[from..end] && |s.test| == end - from && s.train == TrainAt(rows, order, from, embargo)
  {
  }

  lemma {:induction false} TestsUpTo(rows: seq<Observation>, order: seq<nat>, first: nat, base: nat, extra: nat,
                                     embargo: int, splits: seq<Split>, n: nat)
    requires n <= |splits| && first <= |order|
    requires forall k :: 0 <= k < |splits| ==>
               FoldAt(rows, order, CutAt(first, base, extra, k), CutAt(first, base, extra, k + 1), embargo, splits[k])
    ensures first <= CutAt(first, base, extra, n) <= |order| && Tests(splits[..n]) == order[first..CutAt(first, base, extra, n)]
  {
    hide TrainAt, Decision, FoldAt, CutAt;
    FirstCut(first, base, extra);
    if n == 0 {
      assert splits[..0] == [] && order[first..first] == [];
    } else {
      TestsUpTo(rows, order, first, base, extra, embargo, splits, n - 1);
      assert splits[..n][..n - 1] == splits[..n - 1];
      var a, b := CutAt(first, base, extra, n - 1), CutAt(first, base, extra, n);
      FoldParts(rows, order, a, b, embargo, splits[n - 1]);
      assert order[first..a] + order[a..b] == order[first..b];
    }
  }

  /** The first position at which enough rows survive the purge. */
  method FirstPosition(rows: seq<Observation>, order: seq<nat>, minimum: int, embargo: int) returns (first: Option<nat>)
    requires minimum >= 1
    ensures first.Some? ==> Admissible(rows, order, minimum, embargo, first.value)
    ensures first.Some? ==> forall p :: 0 <= p < first.value ==> !Admissible(rows, order, minimum, embargo, p)
    ensures first.None? ==> forall p :: 0 <= p < |order| ==> !Admissible(rows, order, minimum, embargo, p)
  {
    hide TrainAt;
    var position: nat := minimum;
    while position < |order|
      invariant minimum <= position
      invariant forall p :: 0 <= p < position && p < |order| ==> !Admissible(rows, order, minimum, embargo, p)
    {
      if |TrainAt(rows, order, position, embargo)| >= minimum { return Some(position); }
      position := position + 1;
    }
    return None;
  }

  /** `purged_walk_forward_splits`; the error for a fold that the purge left too small never occurs. */
  method PurgedWalkForward(rows: seq<Observation>, wanted: int, minimum: int, embargo: int)
    returns (r: Result<seq<Split>, SplitError>, ghost first: nat)
    ensures r == Err(BadSplits) <==> wanted < 1
    ensures r == Err(BadMinimum) <==> wanted >= 1 && minimum < 1
    ensures r == Err(BadEmbargo) <==> wanted >= 1 && minimum >= 1 && embargo < 0
    ensures r == Err(TooFewRows) <==> wanted >= 1 && minimum >= 1 && embargo >= 0 && |rows| <= minimum
    ensures r == Err(BadRow) <==> wanted >= 1 && minimum >= 1 && embargo >= 0 && |rows| > minimum && exists row <- rows :: Malformed(row)
    ensures r == Err(NoAdmissiblePosition) ==> forall p :: 0 <= p < |rows| ==> !Admissible(rows, OrderOf(rows), minimum, embargo, p)
    ensures r != Err(PurgeViolated)
    ensures r.Ok? ==> Admissible(rows, OrderOf(rows), minimum, embargo, first)
    ensures r.Ok? ==> forall p :: 0 <= p < first ==> !Admissible(rows, OrderOf(rows), minimum, embargo, p)
    ensures r.Ok? ==> Folds(rows, OrderOf(rows), first, wanted, embargo, r.value) && SplitsOk(rows, r.value)
  {
    hide RowOk, Malformed, OrderOf, FoldAt, SplitsOk, TimeOrder, MinDecision, CutAt, Decision;
    first := 0;
    RowOkIff(rows);
    if wanted < 1 { return Err(BadSplits), 0; }
    if minimum < 1 { return Err(BadMinimum), 0; }
    if embargo < 0 { return Err(BadEmbargo), 0; }
    if |rows| <= minimum { return Err(TooFewRows), 0; }
    if exists i :: 0 <= i < |rows| && !RowOk(rows[i]) { return Err(BadRow), 0; }
    var order := OrderOf(rows);
    OrderIsTimeOrder(rows);
    OrderLength(rows, order);
    var position := FirstPosition(rows, order, minimum, embargo);
    if position.None? { return Err(NoAdmissiblePosition), 0; }
    first := position.value;
    var splits := BuildFolds(rows, order, position.value, wanted, minimum, embargo);
    FoldsAreOk(rows, order, first, minimum, wanted, embargo, splits.value);
    return splits, first;
  }

  lemma OrderLength(rows: seq<Observation>, order: seq<nat>)
    requires TimeOrder(rows, order)
    ensures |order| == |rows|
  {
  }

  /** The loop over folds. */
  method BuildFolds(rows: seq<Observation>, order: seq<nat>, first: nat, wanted: int, minimum: int, embargo: int)
    returns (r: Result<seq<Split>, SplitError>)
    requires RowsOk(rows) && TimeOrder(rows, order) && embargo >= 0 && minimum >= 1 && wanted >= 1
    requires Admissible(rows, order, minimum, embargo, first)
    ensures r.Ok? && Folds(rows, order, first, wanted, embargo, r.value)
  {
    hide RowsOk, TimeOrder, MinDecision, Decision, TrainAt, Eligible, Admissible, SplitOk;
    AdmissibleIsInside(rows, order, minimum, embargo, first);
    var remaining := |order| - first;
    var folds := Min(wanted, remaining);
    var base, extra := remaining / folds, remaining % folds;
    CutsEnd(first, remaining, folds);
    FirstCut(first, base, extra);
    var cursor, fold, splits: seq<Split> := first, 0, [];
    while fold < folds
      invariant fold <= folds && |splits| == fold && cursor == CutAt(first, base, extra, fold)
      invariant forall k :: 0 <= k < fold ==>
                  FoldAt(rows, order, CutAt(first, base, extra, k), CutAt(first, base, extra, k + 1), embargo, splits[k])
    {
      hide CutAt, FoldAt;
      CutStep(first, base, extra, fold);
      CutsRise(first, base, extra, 0, fold);
      CutsRise(first, base, extra, fold + 1, folds);
      var end := cursor + base + (if fold < extra then 1 else 0);
      var test := order[cursor..end];
      var start := MinDecision(rows, test);
      TestStartIsFirst(rows, order, cursor, end);
      var train := Eligible(rows, order[..cursor], start - embargo * SECOND);
      var s := Split(train, test, start, embargo);
      assert FoldAt(rows, order, cursor, end, embargo, s) by { MakeFold(rows, order, cursor, end, embargo, s); }
      FoldIsOk(rows, order, first, minimum, cursor, end, embargo, s);
      if |train| < minimum { return Err(PurgeViolated); }
      splits, cursor, fold := splits + [s], end, fold + 1;
    }
    return Ok(splits);
  }

  lemma MakeFold(rows: seq<Observation>, order: seq<nat>, from: nat, end: nat, embargo: int, s: Split)
    requires from < end <= |order| && s.test == order[from..end] && s.start == Decision(rows, order[from]) && s.embargo == embargo
    requires s.train == Eligible(rows, order[..from], s.start - embargo * SECOND)
    ensures FoldAt(rows, order, from, end, embargo, s)
  {
  }

  lemma AdmissibleIsInside(rows: seq<Observation>, order: seq<nat>, minimum: int, embargo: int, position: nat)
    requires Admissible(rows, order, minimum, embargo, position)
    ensures position < |order|
  {
  }
}
