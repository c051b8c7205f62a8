/** The verifier's row loop with its evidence cache, and the reconciler's repair loop, on the shared table
    (senecio_polymarket/backend/oracle_runner.py and settlement_reconciler.py). */
module SettlementLoop {
  import opened Prelude
  import opened Sorting
  import opened Text
  import opened SettlementContract
  import opened Settlement

  datatype Key = Key(source: string, symbol: string, target: int, window: int)

  /** The cache key of one window of a row that passed the loop's checks. */
  function KeyOf(row: Row, window: int): Option<Key> {
    var source, target := NormalizeExchange(row.exchange), TargetMs(row.ts, window);
    if source.None? || target.None? then None else Some(Key(source.value, NormalizeSymbol(row.symbol), target.value, window))
  }

  function QuoteKey(q: Quote, window: int): Option<Key> {
    var source, target := NormalizeExchange(q.exchange), TargetMs(q.ts, window);
    if source.None? || target.None? then None else Some(Key(source.value, NormalizeSymbol(q.symbol), target.value, window))
  }

  /** Every cached quote was fetched under its key. */
  ghost predicate CacheOk(cache: map<Key, Quote>) {
    forall k <- cache :: QuoteKey(cache[k], k.window) == Some(k)
  }

  lemma CachedQuoteFits(cache: map<Key, Quote>, row: Row, window: int)
    requires CacheOk(cache) && KeyOf(row, window).Some? && KeyOf(row, window).value in cache
    ensures QuoteFor(cache[KeyOf(row, window).value], row, window)
  {
    hide NormalizeExchange, NormalizeSymbol, TargetMs;
    assert QuoteKey(cache[KeyOf(row, window).value], KeyOf(row, window).value.window) == Some(KeyOf(row, window).value);
  }

  /** What the venue answers when asked, and when. */
  datatype Answer = Answer(candles: seq<Candle>, observed: Instant)

  /** One row's turn: the venue's answers, the version its read returned, what the other process did before the patch,
      the clock, whether the patch request got through and whether its acknowledgement came back. */
  datatype Turn = Turn(answer15: Answer, answer1h: Answer, existing: Row, other: Option<Step>, now: Instant, lands: bool, heard: bool)

  datatype Verdict = Settled | NoProof | NoPrice | CasLost

  predicate LoopChecks(row: Row) {
    Directional(row.prediction) && row.ts.Some? && row.priceNow.Some? && row.priceNow.value > 0.0 && WitnessOk(row)
  }

  predicate Mentions(rows: seq<Row>, id: int) { exists row <- rows :: row.id == id }

  // ---- The reconciler's candidates ----

  predicate Eligible(row: Row, cutoff: Instant) {
    row.outcome.Some? && Decided(row.outcome.value) && row.audit.dual.None? && row.ts.Some? && row.ts.value <= cutoff
  }

  function EligibleRows(local: seq<Row>, cutoff: Instant): (r: seq<Row>)
    ensures |r| <= |local| && forall row :: row in r <==> row in local && Eligible(row, cutoff)
  {
    if local == [] then []
    else
      assert local == [local[0]] + local[1..];
      (if Eligible(local[0], cutoff) then [local[0]] else []) + EligibleRows(local[1..], cutoff)
  }

  predicate IdLe(a: Row, b: Row) { a.id <= b.id }

  function Candidates(local: seq<Row>, cutoff: Instant, batch: nat): seq<Row> {
    var sorted := Sort(EligibleRows(local, cutoff), IdLe);
    sorted[..Min(if batch >= 1 then batch else 1, |sorted|)]
  }

  /** A row the reconciler is there for: decided, without a settlement, and no younger than the cutoff. */
  ghost predicate Due(row: Row, cutoff: Instant) {
    (row.outcome == Some(WIN) || row.outcome == Some(LOSS)) && row.audit.dual.None? && row.ts.Some? && row.ts.value <= cutoff
  }

  /** The candidates are due rows in order of their ids, at most a batch and at least one at a time; a due row is left out only
      when the batch is full, and then has no lower id. */
  lemma CandidatesAre(local: seq<Row>, cutoff: Instant, batch: nat)
    ensures var c, full := Candidates(local, cutoff, batch), if batch == 0 then 1 else batch;
            && |c| <= |local| && |c| <= full && (forall row <- c :: row in local && Due(row, cutoff))
            && (forall i, j :: 0 <= i < j < |c| ==> c[i].id <= c[j].id)
            && (forall other <- local | Due(other, cutoff) && other !in c :: |c| == full && forall row <- c :: row.id <= other.id)
  {
    hide Sort, Eligible, Due;
    EligibleIff(cutoff);
    var eligible := EligibleRows(local, cutoff);
    var sorted := Sort(eligible, IdLe);
    SortSorted(eligible, IdLe);
    SameMultisetSameMembers(sorted, eligible);
    var c := Candidates(local, cutoff, batch);
    forall k | 0 <= k < |c| ensures sorted[k] in c { assert c[k] == sorted[k]; }
    forall i, j | 0 <= i < j < |c| ensures c[i].id <= c[j].id { assert IdLe(sorted[i], sorted[j]); }
    forall other | other in local && Due(other, cutoff) && other !in c
      ensures |c| == (if batch == 0 then 1 else batch) && forall row <- c :: row.id <= other.id
    {
      var j :| 0 <= j < |sorted| && sorted[j] == other;
      forall row | row in c ensures row.id <= other.id {
        var i :| 0 <= i < |c| && c[i] == row;
        assert IdLe(sorted[i], sorted[j]);
      }
    }
  }

  lemma EligibleIff(cutoff: Instant)
    ensures forall row: Row :: Eligible(row, cutoff) <==> Due(row, cutoff)
  {
  }

  /** The verifier has proof to settle by: a LONG or SHORT with an instant, a positive entry price and a witness at its venue. */
  lemma LoopChecksIff(row: Row)
    ensures LoopChecks(row) <==>
              && (Upper(row.prediction) == "LONG" || Upper(row.prediction) == "SHORT") && row.ts.Some?
              && row.priceNow.Some? && 0.0 < row.priceNow.value && row.audit.origin.Some?
              && var w := row.audit.origin.value;
                 && w.version == "origin-price-v1" && NormalizeExchange(row.exchange).Some?
                 && NormalizeExchange(w.source) == NormalizeExchange(row.exchange)
  {
    hide NormalizeExchange, Upper;
  }

  class SettlementTable {
    var world: World
    ghost const start: World
    ghost var steps: seq<Step>

    ghost predicate Valid()
      reads this
    {
      After(start, steps) == Some(world) && WorldOk(world)
    }

    constructor (rows: map<int, Row>)
      requires forall id <- rows :: rows[id].id == id
      ensures Valid() && world == Start(rows) == start && steps == []
    {
      world, start, steps := Start(rows), Start(rows), [];
      new;
      StartIsOk(rows);
    }

    method Do(step: Step)
      requires Valid() && Permitted(world, step)
      modifies this
      ensures Valid() && world == Next(old(world), step) && Kept(old(world), world)
    {
      hide WorldOk, Permitted, Next, Kept;
      assert (steps + [step])[..|steps|] == steps;
      StepKeeps(world, step);
      world, steps := Next(world, step), steps + [step];
    }

    /** One window's evidence: from the cache, or fetched and cached. */
    method Evidence(row: Row, window: int, answer: Answer, cache: map<Key, Quote>) returns (q: Quote, grown: map<Key, Quote>)
      requires CacheOk(cache) && LoopChecks(row) && (window == WINDOW_15M_S || window == WINDOW_1H_S)
      ensures CacheOk(grown) && QuoteFor(q, row, window)
    {
      hide NormalizeExchange, NormalizeSymbol, Directional;
      var key := KeyOf(row, window).value;
      if key in cache {
        CachedQuoteFits(cache, row, window);
        return cache[key], cache;
      }
      q := Quote(answer.candles, row.exchange, row.symbol, row.ts, Some(answer.observed));
      grown := cache[key := q];
    }

    /** `update_outcome_dual`, with the other process free to act between its read and its patch. */
    method UpdateOutcomeDual(row: Row, q15: Quote, q1h: Quote, turn: Turn)
      returns (ok: bool, ghost wrote: bool)
      requires Valid() && row in world.seen
      requires QuoteFor(q15, row, WINDOW_15M_S) && QuoteFor(q1h, row, WINDOW_1H_S)
      requires turn.other.Some? ==> !turn.other.value.Verify?
      modifies this
      ensures Valid() && Kept(old(world), world) && old(world.seen) <= world.seen
      ensures ok <==> wrote && turn.heard
      ensures world.settled == old(world.settled) + (if wrote then {row.id} else {})
      ensures wrote ==> row.id !in old(world.settled) && row.id in world.rows && IsProofQualified(world.rows[row.id])
    {
      hide WorldOk, Next, Kept, QuoteFor, Written, Permitted, IsProofQualified;
      ghost var before := world;
      SeenRowsExist(world, row);
      var existing := if turn.existing in world.seen && turn.existing.id == row.id then turn.existing else world.rows[row.id];
      KeptItself(world);
      if turn.other.Some? && Permitted(world, turn.other.value) {
        OtherLeavesSettled(world, turn.other.value);
        Do(turn.other.value);
      }
      var step := Verify(row, existing, q15, q1h, turn.now, turn.lands);
      assert Permitted(world, step) by { StillPermitted(world, step); }
      ok, wrote := Written(world, step).Some? && turn.heard, Written(world, step).Some?;
      VerifyEffect(world, step);
      KeptTransitive(before, world, Next(world, step));
      Do(step);
    }

    /** One pending row. */
    method VerifyRow(row: Row, turn: Turn, cache: map<Key, Quote>) 
      returns (verdict: Verdict, grown: map<Key, Quote>, ghost wrote: bool)
      requires Valid() && row in world.seen && CacheOk(cache)
      requires turn.other.Some? ==> !turn.other.value.Verify?
      modifies this
      ensures Valid() && Kept(old(world), world) && old(world.seen) <= world.seen && CacheOk(grown)
      ensures verdict == NoProof <==> !LoopChecks(row)
      ensures verdict == Settled <==> wrote && turn.heard
      ensures wrote ==> verdict == Settled || verdict == CasLost
      ensures world.settled == old(world.settled) + (if wrote then {row.id} else {})
      ensures wrote ==> row.id !in old(world.settled) && row.id in world.rows && IsProofQualified(world.rows[row.id])
    {
      hide WorldOk, Kept, QuoteFor, IsProofQualified, After, CacheOk, WitnessOk, Directional, WINDOW_15M_S, WINDOW_1H_S;
      KeptItself(world);
      if !LoopChecks(row) { return NoProof, cache, false; }
      var q15, q1h;
      q15, grown := Evidence(row, WINDOW_15M_S, turn.answer15, cache);
      q1h, grown := Evidence(row, WINDOW_1H_S, turn.answer1h, grown);
      if QuoteEvidence(q15, WINDOW_15M_S).None? || QuoteEvidence(q1h, WINDOW_1H_S).None? { return NoPrice, grown, false; }
      var ok;
      ok, wrote := UpdateOutcomeDual(row, q15, q1h, turn);
      verdict := if ok then Settled else CasLost;
    }

    /** `_verify_pending_outcomes`: every pending row gets one verdict, and the counters count them. */
    method VerifyPending(pending: seq<Row>, turns: seq<Turn>)
      returns (settled: nat, unresolvedProof: nat, unresolvedPrice: nat, conflicts: nat, ghost lost: nat)
      requires Valid() && |turns| == |pending| && forall row <- pending :: row in world.seen
      requires forall t <- turns :: t.other.Some? ==> !t.other.value.Verify?
      modifies this
      ensures Valid() && Kept(old(world), world)
      ensures settled + unresolvedProof + unresolvedPrice + conflicts == |pending|
      ensures unresolvedProof == |set i: nat | i < |pending| && !LoopChecks(pending[i])|
      ensures old(world.settled) <= world.settled && |world.settled| == |old(world.settled)| + settled + lost
      ensures lost <= conflicts && ((forall t <- turns :: t.heard) ==> lost == 0)
      ensures forall id <- world.settled :: id in old(world.settled) || Mentions(pending, id)
      ensures forall id <- world.settled :: id in world.rows && IsProofQualified(world.rows[id])
    {
      hide WorldOk, Kept, IsProofQualified, After, CacheOk, LoopChecks;
      settled, unresolvedProof, unresolvedPrice, conflicts, lost := 0, 0, 0, 0, 0;
      var cache, i := map[], 0;
      assert CacheOk(cache) by { EmptyCache(); }
      KeptItself(world);
      ghost var unproved: set<nat> := {};
      while i < |pending|
        invariant 0 <= i <= |pending| && Valid() && Kept(old(world), world) && old(world.seen) <= world.seen && CacheOk(cache)
        invariant settled + unresolvedProof + unresolvedPrice + conflicts == i
        invariant unproved == set j: nat | j < i && !LoopChecks(pending[j])
        invariant unresolvedProof == |unproved|
        invariant old(world.settled) <= world.settled && |world.settled| == |old(world.settled)| + settled + lost
        invariant lost <= conflicts && ((forall t <- turns :: t.heard) ==> lost == 0)
        invariant forall id <- world.settled :: id in old(world.settled) || Mentions(pending, id)
      {
        ghost var before := world;
        assert turns[i] in turns && pending[i] in pending;
        var verdict;
        ghost var wrote;
        verdict, cache, wrote := VerifyRow(pending[i], turns[i], cache);
        KeptTransitive(old(world), before, world);
        assert Mentions(pending, pending[i].id);
        match verdict {
          case Settled => settled := settled + 1;
          case NoProof => unresolvedProof := unresolvedProof + 1; unproved := unproved + {i};
          case NoPrice => unresolvedPrice := unresolvedPrice + 1;
          case CasLost =>
            conflicts := conflicts + 1;
            if wrote { lost := lost + 1; }
        }
        i := i + 1;
      }
      SettledRowsQualify(world);
    }

    /** `_repair_row`, on a row version from the local cache that may be stale. */
    method RepairRow(row: Row, turn: Turn) returns (result: string, ghost wrote: bool)
      requires Valid() && row in world.seen && turn.answer1h.observed <= turn.now
      modifies this
      ensures Valid() && Kept(old(world), world) && world.settled == old(world.settled) && old(world.seen) <= world.seen
      ensures result == "repaired" || result == "conflict" || result == "skipped" || result == "error"
      ensures result == "repaired" <==> wrote && turn.heard
      ensures wrote ==> result == "repaired" || result == "error"
      ensures world.repaired.Keys == old(world.repaired).Keys + (if wrote then {row.id} else {})
      ensures wrote ==> row.id !in old(world.repaired) && row.id in world.rows && world.rows[row.id].outcome == row.outcome
      ensures wrote ==> (IsProofQualified(world.rows[row.id]) <==> world.repaired[row.id])
    {
      hide WorldOk, Next, Kept, QuoteFor, Written, Permitted, IsProofQualified, RepairPatch, After;
      var q15 := Quote(turn.answer15.candles, row.exchange, row.symbol, row.ts, Some(turn.answer15.observed));
      var q1h := Quote(turn.answer1h.candles, row.exchange, row.symbol, row.ts, Some(turn.answer1h.observed));
      var step := Reconcile(row, q15, q1h, turn.now, turn.lands);
      assert Permitted(world, step) by { OwnQuotesFit(world, step); }
      wrote := Written(world, step).Some?;
      var acknowledged := Written(world, step).Some? && turn.heard;
      ReconcileEffect(world, step);
      var repair := RepairPatch(row, QuoteEvidence(q15, WINDOW_15M_S), QuoteEvidence(q1h, WINDOW_1H_S), turn.now);
      Do(step);
      result := match repair
        case Repaired(_) => if acknowledged then "repaired" else "error"
        case RepairConflict => "conflict"
        case RepairSkipped => "skipped"
        case RepairError => "error";
    }

    /** `reconcile_once`: the lowest-numbered eligible rows of the local cache, each repaired, in conflict or skipped, up to and
        including the first that fails. */
    method ReconcileOnce(local: seq<Row>, cutoff: Instant, batch: nat, turns: seq<Turn>)
      returns (scanned: nat, repaired: nat, skipped: nat, errors: nat, conflicts: nat, ghost lost: nat)
      requires Valid() && forall row <- local :: row in world.seen
      requires |turns| == |local| && forall t <- turns :: t.answer1h.observed <= t.now
      modifies this
      ensures Valid() && Kept(old(world), world) && world.settled == old(world.settled)
      ensures scanned <= |Candidates(local, cutoff, batch)| && scanned == repaired + skipped + errors + conflicts
      ensures errors <= 1 && (scanned < |Candidates(local, cutoff, batch)| ==> errors == 1)
      ensures |world.repaired.Keys| == |old(world.repaired).Keys| + repaired + lost && old(world.repaired).Keys <= world.repaired.Keys
      ensures lost <= errors && ((forall t <- turns :: t.heard) ==> lost == 0)
      ensures forall id <- world.repaired :: id in old(world.repaired) || Mentions(Candidates(local, cutoff, batch)[..scanned], id)
      ensures forall id <- world.repaired :: id in world.rows && (IsProofQualified(world.rows[id]) <==> world.repaired[id])
    {
      hide WorldOk, Kept, IsProofQualified, After, Eligible;
      scanned, repaired, skipped, errors, conflicts, lost := 0, 0, 0, 0, 0, 0;
      var candidates := Candidates(local, cutoff, batch);
      CandidatesAre(local, cutoff, batch);
      KeptItself(world);
      while scanned < |candidates| && errors == 0
        invariant scanned <= |candidates| && errors <= 1 && Valid() && Kept(old(world), world) && world.settled == old(world.settled)
        invariant old(world.seen) <= world.seen && old(world.repaired).Keys <= world.repaired.Keys
        invariant scanned == repaired + skipped + errors + conflicts
        invariant |world.repaired.Keys| == |old(world.repaired).Keys| + repaired + lost
        invariant lost <= errors && ((forall t <- turns :: t.heard) ==> lost == 0)
        invariant forall id <- world.repaired.Keys :: id in old(world.repaired) || Mentions(candidates[..scanned], id)
      {
        ghost var before := world;
        assert turns[scanned] in turns && candidates[scanned] in candidates;
        var result;
        ghost var wrote;
        result, wrote := RepairRow(candidates[scanned], turns[scanned]);
        KeptTransitive(old(world), before, world);
        MentionsMore(candidates, scanned);
        if result == "repaired" { repaired := repaired + 1; }
        else if result == "skipped" { skipped := skipped + 1; }
        else if result == "conflict" { conflicts := conflicts + 1; }
        else {
          errors := errors + 1;
          if wrote { lost := lost + 1; }
        }
        scanned := scanned + 1;
      }
      SettledRowsQualify(world);
    }
  }

  lemma MentionsMore(rows: seq<Row>, n: nat)
    requires n < |rows|
    ensures forall id :: Mentions(rows[..n], id) ==> Mentions(rows[..n + 1], id)
    ensures Mentions(rows[..n + 1], rows[n].id)
  {
    assert rows[..n + 1][n] == rows[n];
    assert rows[..n + 1] == rows[..n] + [rows[n]];
  }

  lemma SeenRowsExist(w: World, row: Row)
    requires WorldOk(w) && row in w.seen
    ensures row.id in w.rows && w.rows[row.id] in w.seen && w.rows[row.id].id == row.id
  {
    hide SettledOk, Evolves;
  }

  lemma EmptyCache()
    ensures CacheOk(map[])
  {
  }

  lemma SettledRowsQualify(w: World)
    requires WorldOk(w)
    ensures forall id <- w.settled :: id in w.rows && IsProofQualified(w.rows[id])
    ensures forall id <- w.repaired :: id in w.rows && (IsProofQualified(w.rows[id]) <==> w.repaired[id])
  {
    hide IsProofQualified, RowsOk;
  }

  lemma KeptItself(w: World)
    ensures Kept(w, w)
  {
    forall id | id in w.rows ensures Evolves(w.rows[id], w.rows[id]) { Unchanged(w.rows[id]); }
  }

  lemma KeptTransitive(a: World, b: World, c: World)
    requires Kept(a, b) && WorldOk(b) && Kept(b, c)
    ensures Kept(a, c)
  {
    hide Evolves, WorldOk;
    forall id | id in a.rows ensures id in c.rows && Evolves(a.rows[id], c.rows[id]) {
      EvolvesTransitive(a.rows[id], b.rows[id], c.rows[id]);
    }
  }

  lemma StillPermitted(w: World, step: Step)
    requires step.Verify? && step.row in w.seen && step.existing in w.seen && step.row.id == step.existing.id
    requires QuoteFor(step.q15, step.row, WINDOW_15M_S) && QuoteFor(step.q1h, step.row, WINDOW_1H_S)
    ensures Permitted(w, step)
  {
  }

  lemma OtherLeavesSettled(w: World, step: Step)
    requires !step.Verify?
    ensures Next(w, step).settled == w.settled && w.seen <= Next(w, step).seen
  {
    hide Written, WitnessPriceAgreesFor;
  }

  lemma VerifyEffect(w: World, step: Step)
    requires WorldOk(w) && Permitted(w, step) && step.Verify?
    ensures WorldOk(Next(w, step)) && Kept(w, Next(w, step)) && w.seen <= Next(w, step).seen
    ensures var n := Next(w, step);
            if Written(w, step).None? then n.settled == w.settled
            else step.row.id !in w.settled && n.settled == w.settled + {step.row.id}
                 && step.row.id in n.rows && IsProofQualified(n.rows[step.row.id])
  {
    hide Written, WitnessPriceAgreesFor, RowsOk, IsProofQualified, QuoteFor, VERIFIER, RECONCILER, Evolves;
    StepKeeps(w, step);
  }

  lemma OwnQuotesFit(w: World, step: Step)
    requires step.Reconcile? && step.row in w.seen && (step.q1h.observed.Some? ==> step.q1h.observed.value <= step.now)
    requires step.q15.exchange == step.q1h.exchange == step.row.exchange && step.q15.symbol == step.q1h.symbol == step.row.symbol
    requires step.q15.ts == step.q1h.ts == step.row.ts
    ensures Permitted(w, step)
  {
  }

  lemma ReconcileEffect(w: World, step: Step)
    requires WorldOk(w) && Permitted(w, step) && step.Reconcile?
    ensures WorldOk(Next(w, step)) && Kept(w, Next(w, step)) && w.seen <= Next(w, step).seen && Next(w, step).settled == w.settled
    ensures var n := Next(w, step);
            if Written(w, step).None? then n.repaired == w.repaired
            else step.row.id !in w.repaired && n.repaired.Keys == w.repaired.Keys + {step.row.id}
                 && step.row.id in n.rows && n.rows[step.row.id].outcome == step.row.outcome
                 && (IsProofQualified(n.rows[step.row.id]) <==> n.repaired[step.row.id])
    ensures Written(w, step).Some? ==>
              RepairPatch(step.row, QuoteEvidence(step.q15, WINDOW_15M_S), QuoteEvidence(step.q1h, WINDOW_1H_S), step.now).Repaired?
  {
    hide WitnessPriceAgreesFor, RowsOk, IsProofQualified, QuoteFor, VERIFIER, RECONCILER, Evolves, Examine, QuoteEvidence,
      WitnessOk, DirectionalOutcome, Directional;
    StepKeeps(w, step);
  }
}
