/** Compare-and-set settlement by two processes and the proof gate that rows must pass to be scored
    (senecio_polymarket/backend/settlement_proof.py, supabase_client.py, settlement_reconciler.py, oracle_runner.py). */
module Settlement {
  import opened Prelude
  import opened Text
  import opened SettlementContract

  const ORIGIN_VERSION := "origin-price-v1"
  const SETTLEMENT_VERSION := "aud063-v1"
  const OBSERVATION_VERSION := "settlement-observation-v1"
  const PRIMARY_WINDOW := "1h"
  const VERIFIER := "SENEX_PRIMARY_DUAL_WINDOW_VERIFIER_V2"
  const RECONCILER := "SENEX_SCORE_002_RECONCILER_REPAIR_ONLY"

  datatype Origin = Origin(version: string, price: Option<real>, timestamp: Option<Instant>, source: string)

  datatype Dual = Dual(
    outcome15: Outcome, outcome1h: Outcome, price15: real, price1h: real, primaryWindow: string, contract: string,
    evidence15: Option<Evidence>, evidence1h: Option<Evidence>, observationVersion: string, observedAt: Option<Instant>, writer: string)

  /** The audit object: the origin witness, the dual-window settlement and everything else. */
  datatype Audit = Audit(origin: Option<Origin>, dual: Option<Dual>, others: string)

  datatype Row = Row(
    id: int, ts: Option<Instant>, symbol: string, prediction: string, priceNow: Option<real>, exchange: string,
    outcome: Option<Outcome>, price15: Option<real>, audit: Audit)

  predicate Decided(o: Outcome) { o == WIN || o == LOSS }

  predicate OptionalPricesMatch(a: Option<real>, b: Option<real>) { a.Some? && b.Some? && PricesMatch(a.value, b.value) }

  predicate WitnessOk(row: Row) {
    && row.audit.origin.Some? && row.audit.origin.value.version == ORIGIN_VERSION
    && NormalizeExchange(row.exchange).Some?
    && NormalizeExchange(row.audit.origin.value.source) == NormalizeExchange(row.exchange)
  }

  /** `is_proof_qualified`. */
  predicate IsProofQualified(row: Row) {
    && row.outcome.Some? && Decided(row.outcome.value) && Directional(row.prediction)
    && row.audit.dual.Some? && WitnessOk(row)
    && var origin, dual, source := row.audit.origin.value, row.audit.dual.value, NormalizeExchange(row.exchange).value;
    && row.ts.Some? && origin.timestamp == row.ts
    && NormalizeSymbol(row.symbol) != ""
    && origin.price.Some? && row.priceNow.Some?
    && origin.price.value > 0.0 && row.priceNow.value > 0.0 && dual.price15 > 0.0 && dual.price1h > 0.0
    && PricesMatch(origin.price.value, row.priceNow.value)
    && dual.primaryWindow == PRIMARY_WINDOW && dual.contract == SETTLEMENT_VERSION
    && Decided(dual.outcome15) && Decided(dual.outcome1h) && row.outcome.value == dual.outcome1h
    && ValidEvidence(dual.evidence15, source, NormalizeSymbol(row.symbol), row.ts, WINDOW_15M_S)
    && ValidEvidence(dual.evidence1h, source, NormalizeSymbol(row.symbol), row.ts, WINDOW_1H_S)
    && PricesMatch(dual.price15, dual.evidence15.value.price) && PricesMatch(dual.price1h, dual.evidence1h.value.price)
    && dual.observationVersion == OBSERVATION_VERSION && dual.observedAt.Some?
    && dual.observedAt.value >= row.ts.value + WINDOW_1H_S * SECOND
    && TargetMs(row.ts, WINDOW_1H_S) == Some(dual.evidence1h.value.target)
    && DirectionalOutcome(row.prediction, origin.price, dual.price15) == Some(dual.outcome15)
    && DirectionalOutcome(row.prediction, origin.price, dual.price1h) == Some(dual.outcome1h)
  }

  // ---- The verifier ----

  /** What the verifier loop hands to `update_outcome_dual`. */
  datatype Supplied = Supplied(outcome15: Outcome, outcome1h: Outcome, price15: real, price1h: real,
                               evidence15: Evidence, evidence1h: Evidence)

  /** The loop body up to the write; the evidence of both windows may come from the cache. */
  function Examine(row: Row, evidence15: Option<Evidence>, evidence1h: Option<Evidence>): Option<Supplied> {
    if !Directional(row.prediction) || row.ts.None? || row.priceNow.None? || row.priceNow.value <= 0.0 || !WitnessOk(row) then None
    else if evidence15.None? || evidence1h.None? then None
    else
      var p15, p1h := evidence15.value.price, evidence1h.value.price;
      var o15, o1h := DirectionalOutcome(row.prediction, row.priceNow, p15), DirectionalOutcome(row.prediction, row.priceNow, p1h);
      if o15.None? || o1h.None? then None
      else Some(Supplied(o15.value, o1h.value, p15, p1h, evidence15.value, evidence1h.value))
  }

  datatype Patch = Patch(outcome: Option<Outcome>, price15: real, audit: Audit)

  /** `update_outcome_dual` after its read: everything it checks on the row it read, and the patch it then sends. */
  function UpdatePatch(existing: Row, s: Supplied, now: Instant): Option<Patch> {
    if existing.outcome.Some? || !Directional(existing.prediction) || !WitnessOk(existing) then None
    else
      var origin, source, name := existing.audit.origin.value, NormalizeExchange(existing.exchange).value, NormalizeSymbol(existing.symbol);
      if existing.ts.None? || origin.timestamp != existing.ts || !OptionalPricesMatch(origin.price, existing.priceNow) then None
      else if !ValidEvidence(Some(s.evidence15), source, name, existing.ts, WINDOW_15M_S) then None
      else if !ValidEvidence(Some(s.evidence1h), source, name, existing.ts, WINDOW_1H_S) then None
      else if !PricesMatch(s.price15, s.evidence15.price) || !PricesMatch(s.price1h, s.evidence1h.price) then None
      else if DirectionalOutcome(existing.prediction, origin.price, s.evidence15.price) != Some(s.outcome15) then None
      else if DirectionalOutcome(existing.prediction, origin.price, s.evidence1h.price) != Some(s.outcome1h) then None
      else if now < existing.ts.value + WINDOW_1H_S * SECOND then None
      else
        var dual := Dual(s.outcome15, s.outcome1h, s.price15, s.price1h, PRIMARY_WINDOW, SETTLEMENT_VERSION,
                         Some(s.evidence15), Some(s.evidence1h), OBSERVATION_VERSION, Some(now), VERIFIER);
        Some(Patch(Some(s.outcome1h), s.price15, existing.audit.(dual := Some(dual))))
  }

  // ---- The reconciler ----

  datatype Repair = Repaired(patch: Patch) | RepairConflict | RepairSkipped | RepairError

  /** `_repair_row` up to its write. */
  function RepairPatch(row: Row, evidence15: Option<Evidence>, evidence1h: Option<Evidence>, now: Instant): Repair {
    if row.outcome.None? || !Decided(row.outcome.value) || !Directional(row.prediction) then RepairSkipped
    else if row.priceNow.None? || row.priceNow.value <= 0.0 || row.audit.dual.Some? then RepairSkipped
    else if !WitnessOk(row) || row.audit.origin.value.timestamp != row.ts then RepairSkipped
    else if evidence15.None? || evidence1h.None? then RepairError
    else
      var p15, p1h := evidence15.value.price, evidence1h.value.price;
      var o15, o1h := DirectionalOutcome(row.prediction, row.priceNow, p15), DirectionalOutcome(row.prediction, row.priceNow, p1h);
      if o15.None? || o1h.None? then RepairSkipped
      else if row.outcome != o1h then RepairConflict
      else
        var dual := Dual(o15.value, o1h.value, p15, p1h, PRIMARY_WINDOW, SETTLEMENT_VERSION, evidence15, evidence1h,
                         OBSERVATION_VERSION, Some(now), RECONCILER);
        Repaired(Patch(None, p15, row.audit.(dual := Some(dual))))
  }

  // ---- The table ----

  function Patched(row: Row, p: Patch): Row {
    row.(outcome := if p.outcome.Some? then p.outcome else row.outcome, price15 := Some(p.price15), audit := p.audit)
  }

  /** `id=eq...&outcome=<expected>&audit->outcomes_dual=is.null`. */
  predicate CasHits(rows: map<int, Row>, id: int, expected: Option<Outcome>) {
    id in rows && rows[id].outcome == expected && rows[id].audit.dual.None?
  }

  /** Two versions of a row agree on everything the settlement writers may not change. */
  predicate SameFacts(a: Row, b: Row) {
    && a.id == b.id && a.ts == b.ts && a.symbol == b.symbol && a.prediction == b.prediction && a.priceNow == b.priceNow
    && a.exchange == b.exchange && a.audit.origin == b.audit.origin && a.audit.others == b.audit.others
  }

  /** What an `update_outcome_dual` that lands leaves behind is proof-qualified exactly when the row's own price is
      positive and the supplied prices, not only the evidence's, give the supplied outcomes. */
  lemma UpdatedIsQualifiedIff(existing: Row, s: Supplied, now: Instant)
    requires UpdatePatch(existing, s, now).Some?
    ensures IsProofQualified(Patched(existing, UpdatePatch(existing, s, now).value)) <==>
              && existing.priceNow.value > 0.0
              && DirectionalOutcome(existing.prediction, existing.audit.origin.value.price, s.price15) == Some(s.outcome15)
              && DirectionalOutcome(existing.prediction, existing.audit.origin.value.price, s.price1h) == Some(s.outcome1h)
  {
    hide NormalizeExchange, Upper, Strip, Lower, PricesMatch, Millis, EVIDENCE_VERSION, ORIGIN_VERSION, SETTLEMENT_VERSION,
      OBSERVATION_VERSION, PRIMARY_WINDOW, VERIFIER;
    assert NormalizeSymbol(existing.symbol) != "" by { EmptySymbolStaysEmpty(); }
  }

  lemma EmptySymbolStaysEmpty()
    ensures NormalizeSymbol("") == ""
  {
    assert Upper("") == "";
  }

  /** Evidence that the verifier's cache holds under the key of this row: fetched for some row with the same venue, symbol
      and target. */
  datatype Quote = Quote(candles: seq<Candle>, exchange: string, symbol: string, ts: Option<Instant>, observed: Option<Instant>)

  predicate QuoteFor(q: Quote, row: Row, window: int) {
    && NormalizeExchange(q.exchange) == NormalizeExchange(row.exchange) && NormalizeSymbol(q.symbol) == NormalizeSymbol(row.symbol)
    && TargetMs(q.ts, window) == TargetMs(row.ts, window)
  }

  function QuoteEvidence(q: Quote, window: int): Option<Evidence> {
    PriceEvidence(q.candles, q.exchange, q.symbol, q.ts, window, q.observed)
  }

  /** A row the verifier examined and settled, both from reads that may be stale, is proof-qualified. */
  lemma SettledIsQualified(row: Row, existing: Row, q15: Quote, q1h: Quote, now: Instant)
    requires SameFacts(row, existing) && QuoteFor(q15, row, WINDOW_15M_S) && QuoteFor(q1h, row, WINDOW_1H_S)
    requires Examine(row, QuoteEvidence(q15, WINDOW_15M_S), QuoteEvidence(q1h, WINDOW_1H_S)).Some?
    requires UpdatePatch(existing, Examine(row, QuoteEvidence(q15, WINDOW_15M_S), QuoteEvidence(q1h, WINDOW_1H_S)).value, now).Some?
    ensures var s := Examine(row, QuoteEvidence(q15, WINDOW_15M_S), QuoteEvidence(q1h, WINDOW_1H_S)).value;
            IsProofQualified(Patched(existing, UpdatePatch(existing, s, now).value))
  {
    hide IsProofQualified, Patched, WitnessOk, ValidEvidence, QuoteEvidence, QuoteFor, PricesMatch, Directional, DirectionalOutcome;
    UpdatedIsQualifiedIff(existing, Examine(row, QuoteEvidence(q15, WINDOW_15M_S), QuoteEvidence(q1h, WINDOW_1H_S)).value, now);
  }

  /** The converse direction: a mature, well-witnessed unsettled row with evidence for both windows is settled by the
      verifier, exactly when its own price and its witness price give the same outcomes. */
  lemma VerifierSettlesIff(row: Row, q15: Quote, q1h: Quote, now: Instant)
    requires row.outcome.None? && Directional(row.prediction) && WitnessOk(row) && row.ts.Some?
    requires row.audit.origin.value.timestamp == row.ts && row.priceNow.Some? && row.priceNow.value > 0.0
    requires OptionalPricesMatch(row.audit.origin.value.price, row.priceNow) && now >= row.ts.value + WINDOW_1H_S * SECOND
    requires QuoteFor(q15, row, WINDOW_15M_S) && QuoteFor(q1h, row, WINDOW_1H_S)
    requires QuoteEvidence(q15, WINDOW_15M_S).Some? && QuoteEvidence(q1h, WINDOW_1H_S).Some?
    ensures var e15, e1h := QuoteEvidence(q15, WINDOW_15M_S), QuoteEvidence(q1h, WINDOW_1H_S);
            var s := Examine(row, e15, e1h);
            && s.Some?
            && (UpdatePatch(row, s.value, now).Some? <==>
                  && DirectionalOutcome(row.prediction, row.audit.origin.value.price, e15.value.price) == Some(s.value.outcome15)
                  && DirectionalOutcome(row.prediction, row.audit.origin.value.price, e1h.value.price) == Some(s.value.outcome1h))
  {
    hide NormalizeExchange, NormalizeSymbol, TargetMs, Upper, Larger, Millis;
    QuoteIsValid(q15, row, WINDOW_15M_S);
    QuoteIsValid(q1h, row, WINDOW_1H_S);
    SamePriceMatches(QuoteEvidence(q15, WINDOW_15M_S).value.price);
    SamePriceMatches(QuoteEvidence(q1h, WINDOW_1H_S).value.price);
  }

  lemma QuoteIsValid(q: Quote, row: Row, window: int)
    requires QuoteFor(q, row, window) && QuoteEvidence(q, window).Some? && NormalizeExchange(row.exchange).Some?
    ensures ValidEvidence(QuoteEvidence(q, window), NormalizeExchange(row.exchange).value, NormalizeSymbol(row.symbol), row.ts, window)
    ensures QuoteEvidence(q, window).value.price > 0.0
  {
    hide NormalizeExchange, NormalizeSymbol, TargetMs;
    ExchangeNormalizesOnce(row.exchange);
    SymbolNormalizesOnce(row.symbol);
    BuiltEvidenceIsValid(q.candles, q.exchange, q.symbol, q.ts, window, q.observed,
                         NormalizeExchange(row.exchange).value, NormalizeSymbol(row.symbol), row.ts);
  }

  lemma SamePriceMatches(p: real)
    ensures PricesMatch(p, p)
  {
  }

  /** A row the reconciler repairs is proof-qualified exactly when its witness price matches its own price and gives the
      same outcomes: `_repair_row` computes outcomes from `price_now` and never compares the two. */
  predicate WitnessPriceAgrees(row: Row, e15: Evidence, e1h: Evidence)
    requires row.audit.origin.Some?
  {
    && OptionalPricesMatch(row.audit.origin.value.price, row.priceNow)
    && var origin := row.audit.origin.value.price;
    && DirectionalOutcome(row.prediction, origin, e15.price) == DirectionalOutcome(row.prediction, row.priceNow, e15.price)
    && DirectionalOutcome(row.prediction, origin, e1h.price) == DirectionalOutcome(row.prediction, row.priceNow, e1h.price)
  }

  lemma RepairedIsQualifiedIff(row: Row, q15: Quote, q1h: Quote, now: Instant)
    requires QuoteFor(q15, row, WINDOW_15M_S) && QuoteFor(q1h, row, WINDOW_1H_S)
    requires q1h.observed.Some? && q1h.observed.value <= now
    requires RepairPatch(row, QuoteEvidence(q15, WINDOW_15M_S), QuoteEvidence(q1h, WINDOW_1H_S), now).Repaired?
    ensures var e15, e1h := QuoteEvidence(q15, WINDOW_15M_S), QuoteEvidence(q1h, WINDOW_1H_S);
            IsProofQualified(Patched(row, RepairPatch(row, e15, e1h, now).patch)) <==> WitnessPriceAgrees(row, e15.value, e1h.value)
  {
    hide NormalizeExchange, NormalizeSymbol, Upper, Larger, Abs;
    QuoteIsValid(q15, row, WINDOW_15M_S);
    QuoteIsValid(q1h, row, WINDOW_1H_S);
    SamePriceMatches(QuoteEvidence(q15, WINDOW_15M_S).value.price);
    SamePriceMatches(QuoteEvidence(q1h, WINDOW_1H_S).value.price);
    MaturityOrder(row.ts.value + WINDOW_1H_S * SECOND, q1h.observed.value);
    EmptySymbolStaysEmpty();
  }

  lemma MaturityOrder(target: Instant, observed: Instant)
    ensures Millis(observed) > Millis(target) ==> observed > target
  {
  }

  // ---- Both processes on one table ----

  /** The table, every row version it ever held, and which rows each writer completed. */
  datatype World = World(rows: map<int, Row>, seen: set<Row>, settled: set<int>, repaired: map<int, bool>)

  /** Writers act on row versions read at any earlier time; a patch request may be lost. */
  datatype Step =
    | Insert(row: Row)
    | Verify(row: Row, existing: Row, q15: Quote, q1h: Quote, now: Instant, lands: bool)
    | Reconcile(row: Row, q15: Quote, q1h: Quote, now: Instant, lands: bool)

  predicate Permitted(w: World, step: Step) {
    match step
    case Insert(row) => row.id !in w.rows && row.outcome.None? && row.audit.dual.None?
    case Verify(row, existing, q15, q1h, _, _) =>
      row in w.seen && existing in w.seen && row.id == existing.id
      && QuoteFor(q15, row, WINDOW_15M_S) && QuoteFor(q1h, row, WINDOW_1H_S)
    case Reconcile(row, q15, q1h, now, _) =>
      row in w.seen && QuoteFor(q15, row, WINDOW_15M_S) && QuoteFor(q1h, row, WINDOW_1H_S)
      && (q1h.observed.Some? ==> q1h.observed.value <= now)
  }

  function VerifyPatch(row: Row, existing: Row, q15: Quote, q1h: Quote, now: Instant): Option<Patch> {
    match Examine(row, QuoteEvidence(q15, WINDOW_15M_S), QuoteEvidence(q1h, WINDOW_1H_S))
    case None => None
    case Some(s) => UpdatePatch(existing, s, now)
  }

  /** The row a step writes, if any. */
  function Written(w: World, step: Step): Option<Row> {
    match step
    case Insert(row) => None
    case Verify(row, existing, q15, q1h, now, lands) =>
      var p := VerifyPatch(row, existing, q15, q1h, now);
      if lands && p.Some? && CasHits(w.rows, row.id, None) then Some(Patched(w.rows[row.id], p.value)) else None
    case Reconcile(row, q15, q1h, now, lands) =>
      var r := RepairPatch(row, QuoteEvidence(q15, WINDOW_15M_S), QuoteEvidence(q1h, WINDOW_1H_S), now);
      if lands && r.Repaired? && CasHits(w.rows, row.id, row.outcome) then Some(Patched(w.rows[row.id], r.patch)) else None
  }

  function Next(w: World, step: Step): World {
    if step.Insert? then w.(rows := w.rows[step.row.id := step.row], seen := w.seen + {step.row})
    else
      match Written(w, step)
      case None => w
      case Some(row) =>
        var after := w.(rows := w.rows[step.row.id := row], seen := w.seen + {row});
        if step.Verify? then after.(settled := w.settled + {step.row.id})
        else after.(repaired := w.repaired[step.row.id := WitnessPriceAgreesFor(step)])
  }

  predicate WitnessPriceAgreesFor(step: Step) {
    step.Reconcile? && step.row.audit.origin.Some?
    && var e15, e1h := QuoteEvidence(step.q15, WINDOW_15M_S), QuoteEvidence(step.q1h, WINDOW_1H_S);
    e15.Some? && e1h.Some? && WitnessPriceAgrees(step.row, e15.value, e1h.value)
  }

  /** How a row may change: its facts never, its outcome once, its dual-window settlement once and then nothing at all. */
  predicate Evolves(a: Row, b: Row) {
    && SameFacts(a, b)
    && (a.outcome.Some? ==> b.outcome == a.outcome)
    && (a.audit.dual.Some? ==> b == a)
    && (a.audit.dual.None? && b.audit.dual.None? ==> b == a)
  }

  ghost predicate Kept(a: World, b: World) {
    forall id <- a.rows :: id in b.rows && Evolves(a.rows[id], b.rows[id])
  }

  ghost predicate RowsOk(w: World) {
    && (forall id <- w.rows :: w.rows[id].id == id && w.rows[id] in w.seen)
    && (forall s <- w.seen :: s.id in w.rows && Evolves(s, w.rows[s.id]))
  }

  ghost predicate SettledOk(w: World) {
    && (forall id <- w.settled :: id in w.rows && w.rows[id].audit.dual.Some? && w.rows[id].audit.dual.value.writer == VERIFIER
          && IsProofQualified(w.rows[id]))
    && (forall id <- w.repaired :: id in w.rows && w.rows[id].audit.dual.Some? && w.rows[id].audit.dual.value.writer == RECONCILER
          && (IsProofQualified(w.rows[id]) <==> w.repaired[id]))
  }

  ghost predicate WorldOk(w: World) { RowsOk(w) && SettledOk(w) }

  /** A hit patch writes the row as its reader saw it, plus the settlement: stale reads lose nothing. */
  lemma PatchOnStaleRead(existing: Row, current: Row, p: Patch)
    requires Evolves(existing, current) && existing.outcome == current.outcome && current.audit.dual.None?
    ensures Patched(current, p) == Patched(existing, p)
  {
    assert existing.audit.dual.None?;
  }

  lemma VerifyWrites(w: World, step: Step)
    requires WorldOk(w) && Permitted(w, step) && step.Verify? && Written(w, step).Some?
    ensures var row := Written(w, step).value;
            && IsProofQualified(row) && row.audit.dual.Some? && row.audit.dual.value.writer == VERIFIER && row.id == step.row.id
            && step.row.id in w.rows && w.rows[step.row.id].audit.dual.None?
            && Evolves(w.rows[step.row.id], row) && forall s <- w.seen :: s.id == row.id ==> Evolves(s, row)
  {
    hide Examine, QuoteFor, QuoteEvidence, SettledOk, IsProofQualified, VERIFIER, WitnessOk, Directional, ValidEvidence, PricesMatch;
    var current, p := w.rows[step.row.id], VerifyPatch(step.row, step.existing, step.q15, step.q1h, step.now).value;
    assert Evolves(step.row, current) && Evolves(step.existing, current);
    assert step.existing.outcome.None?;
    PatchOnStaleRead(step.existing, current, p);
    SettledIsQualified(step.row, step.existing, step.q15, step.q1h, step.now);
    WriteEvolves(w, current, p);
  }

  lemma WriteEvolves(w: World, current: Row, p: Patch)
    requires RowsOk(w) && current.id in w.rows && current == w.rows[current.id] && current.audit.dual.None?
    requires p.audit.dual.Some? && p.audit.origin == current.audit.origin && p.audit.others == current.audit.others
    requires current.outcome.None? || p.outcome.None?
    ensures Evolves(current, Patched(current, p)) && forall s <- w.seen :: s.id == current.id ==> Evolves(s, Patched(current, p))
  {
    forall s | s in w.seen && s.id == current.id ensures Evolves(s, Patched(current, p)) { assert Evolves(s, current); }
  }

  lemma ReconcileWrites(w: World, step: Step)
    requires WorldOk(w) && Permitted(w, step) && step.Reconcile? && Written(w, step).Some?
    ensures var row := Written(w, step).value;
            && (IsProofQualified(row) <==> WitnessPriceAgreesFor(step))
            && row.audit.dual.Some? && row.audit.dual.value.writer == RECONCILER && row.id == step.row.id
            && step.row.id in w.rows && w.rows[step.row.id].audit.dual.None?
            && Evolves(w.rows[step.row.id], row) && forall s <- w.seen :: s.id == row.id ==> Evolves(s, row)
  {
    hide QuoteFor, QuoteEvidence, SettledOk, IsProofQualified, RECONCILER, NormalizeExchange, Directional, ValidEvidence, PricesMatch,
      DirectionalOutcome, WitnessPriceAgrees;
    var current := w.rows[step.row.id];
    var p := RepairPatch(step.row, QuoteEvidence(step.q15, WINDOW_15M_S), QuoteEvidence(step.q1h, WINDOW_1H_S), step.now).patch;
    assert Evolves(step.row, current);
    PatchOnStaleRead(step.row, current, p);
    EvidenceIsObserved(step.q1h, WINDOW_1H_S);
    RepairedIsQualifiedIff(step.row, step.q15, step.q1h, step.now);
    WriteEvolves(w, current, p);
  }

  lemma EvidenceIsObserved(q: Quote, window: int)
    requires QuoteEvidence(q, window).Some?
    ensures q.observed.Some?
  {
  }

  /** Writing one row version that every earlier version evolves into. */
  lemma WriteKeeps(w: World, after: World, row: Row)
    requires RowsOk(w) && RowsOk(after.(rows := w.rows, seen := w.seen))
    requires after.rows == w.rows[row.id := row] && after.seen == w.seen + {row}
    requires forall s <- w.seen :: s.id == row.id ==> Evolves(s, row)
    ensures RowsOk(after) && Kept(w, after)
  {
    hide Evolves;
    Unchanged(row);
    forall id | id in w.rows ensures Evolves(w.rows[id], after.rows[id]) { Unchanged(w.rows[id]); }
  }

  lemma SettledKeeps(w: World, after: World, row: Row, agrees: bool)
    requires SettledOk(w) && after.rows == w.rows[row.id := row] && row.audit.dual.Some?
    requires row.id in w.rows ==> w.rows[row.id].audit.dual.None?
    requires
      || (after.settled == w.settled + {row.id} && after.repaired == w.repaired
          && IsProofQualified(row) && row.audit.dual.value.writer == VERIFIER)
      || (after.settled == w.settled && after.repaired == w.repaired[row.id := agrees]
          && (IsProofQualified(row) <==> agrees) && row.audit.dual.value.writer == RECONCILER)
    ensures SettledOk(after)
  {
    hide IsProofQualified, VERIFIER, RECONCILER;
  }

  lemma StepKeeps(w: World, step: Step)
    requires WorldOk(w) && Permitted(w, step)
    ensures WorldOk(Next(w, step)) && Kept(w, Next(w, step))
    ensures Written(w, step).Some? ==>
              step.row.id in w.rows && w.rows[step.row.id].audit.dual.None? && Next(w, step).rows[step.row.id].audit.dual.Some?
  {
    hide IsProofQualified, Written, WitnessPriceAgreesFor, QuoteFor, VERIFIER, RECONCILER, Evolves, SettledOk, RowsOk;
    WrittenByWriters(w, step);
    var after := Next(w, step);
    if step.Insert? {
      InsertKeeps(w, step.row);
    } else if Written(w, step).Some? {
      var row := Written(w, step).value;
      if step.Verify? { VerifyWrites(w, step); } else { ReconcileWrites(w, step); }
      RowsIgnore(w, after);
      WriteKeeps(w, after, row);
      SettledKeeps(w, after, row, WitnessPriceAgreesFor(step));
    } else {
      forall id | id in w.rows ensures Evolves(w.rows[id], w.rows[id]) { Unchanged(w.rows[id]); }
    }
  }

  lemma RowsIgnore(w: World, after: World)
    requires RowsOk(w)
    ensures RowsOk(after.(rows := w.rows, seen := w.seen))
  {
    hide Evolves;
  }

  lemma InsertKeeps(w: World, row: Row)
    requires WorldOk(w) && Permitted(w, Insert(row))
    ensures WorldOk(Next(w, Insert(row))) && Kept(w, Next(w, Insert(row)))
  {
    hide Evolves, IsProofQualified, VERIFIER, RECONCILER;
    WriteKeeps(w, Next(w, Insert(row)), row);
  }

  lemma WrittenByWriters(w: World, step: Step)
    ensures step.Insert? ==> Written(w, step).None?
  {
  }

  lemma Unchanged(row: Row)
    ensures Evolves(row, row)
  {
  }

  // ---- Every run ----

  function After(w: World, steps: seq<Step>): Option<World> {
    if steps == [] then Some(w)
    else match After(w, steps[..|steps| - 1])
      case None => None
      case Some(v) => if Permitted(v, steps[|steps| - 1]) then Some(Next(v, steps[|steps| - 1])) else None
  }

  /** How often a run writes a settlement into one row. */
  function Writes(w: World, steps: seq<Step>, id: int): nat
    requires After(w, steps).Some?
  {
    if steps == [] then 0
    else
      var init, step := steps[..|steps| - 1], steps[|steps| - 1];
      Writes(w, init, id) + (if Written(After(w, init).value, step).Some? && step.row.id == id then 1 else 0)
  }

  lemma EvolvesTransitive(a: Row, b: Row, c: Row)
    requires Evolves(a, b) && Evolves(b, c)
    ensures Evolves(a, c)
  {
  }

  /** Over every interleaving of verifier and reconciler on stale reads with lost requests: outcome and settlement of a
      row are each written at most once and never changed, rows settled by the verifier stay proof-qualified, and rows
      repaired by the reconciler are exactly when their witness price agreed. */
  lemma {:induction false} EveryRunSettlesOnce(w: World, steps: seq<Step>, id: int)
    requires WorldOk(w) && After(w, steps).Some?
    ensures WorldOk(After(w, steps).value) && Kept(w, After(w, steps).value)
    ensures Writes(w, steps, id) <= 1
    ensures Writes(w, steps, id) == 1 ==>
              id in After(w, steps).value.rows && After(w, steps).value.rows[id].audit.dual.Some?
              && (id in w.rows ==> w.rows[id].audit.dual.None?)
  {
    hide Permitted, Next, WorldOk, Written, Evolves;
    if steps == [] {
      forall k | k in w.rows ensures Evolves(w.rows[k], w.rows[k]) { Unchanged(w.rows[k]); }
    } else {
      var init, step := steps[..|steps| - 1], steps[|steps| - 1];
      EveryRunSettlesOnce(w, init, id);
      var v := After(w, init).value;
      StepKeeps(v, step);
      var u := Next(v, step);
      forall k | k in w.rows ensures k in u.rows && Evolves(w.rows[k], u.rows[k]) { EvolvesTransitive(w.rows[k], v.rows[k], u.rows[k]); }
      if id in v.rows { SettledStays(v.rows[id], u.rows[id]); }
      if id in w.rows { SettledStays(w.rows[id], v.rows[id]); }
    }
  }

  lemma SettledStays(a: Row, b: Row)
    requires Evolves(a, b)
    ensures a.audit.dual.Some? ==> b == a
    ensures a.outcome.Some? ==> b.outcome == a.outcome
  {
  }

  /** Any table whose rows are filed under their ids is a start. */
  function Start(rows: map<int, Row>): World { World(rows, set id | id in rows :: rows[id], {}, map[]) }

  lemma StartIsOk(rows: map<int, Row>)
    requires forall id <- rows :: rows[id].id == id
    ensures WorldOk(Start(rows))
  {
    forall s | s in Start(rows).seen ensures s.id in rows && Evolves(s, rows[s.id]) { Unchanged(s); }
  }

  // ---- A repair that the gate rejects ----

  const SAMPLE_ORIGIN := Origin(ORIGIN_VERSION, Some(200.0), Some(0), "okx")
  const SAMPLE_ROW := Row(7, Some(0), "BTC/USDT", "LONG", Some(100.0), "okx", Some(WIN), None, Audit(Some(SAMPLE_ORIGIN), None, ""))
  const SAMPLE_QUOTE_15 := Quote([Candle(900000, 150.0)], "okx", "BTC/USDT", Some(0), Some(4000000000))
  const SAMPLE_QUOTE_1H := Quote([Candle(3600000, 150.0)], "okx", "BTC/USDT", Some(0), Some(4000000000))

  /** A settled row whose witness recorded another price: the reconciler completes it as a WIN on its own price, and the
      proof gate rejects the result. */
  lemma RepairCanMissTheGate()
    ensures var r := RepairPatch(SAMPLE_ROW, QuoteEvidence(SAMPLE_QUOTE_15, WINDOW_15M_S),
                                 QuoteEvidence(SAMPLE_QUOTE_1H, WINDOW_1H_S), 4000000000);
            r.Repaired? && !IsProofQualified(Patched(SAMPLE_ROW, r.patch))
  {
    hide NormalizeExchange, NormalizeSymbol, QuoteEvidence, Upper, Millis;
    SampleNames();
    var e15, e1h := QuoteEvidence(SAMPLE_QUOTE_15, WINDOW_15M_S), QuoteEvidence(SAMPLE_QUOTE_1H, WINDOW_1H_S);
    SampleEvidence(SAMPLE_QUOTE_15, WINDOW_15M_S, 900000);
    SampleEvidence(SAMPLE_QUOTE_1H, WINDOW_1H_S, 3600000);
    assert Directional("LONG") && DirectionalOutcome("LONG", Some(100.0), 150.0) == Some(WIN);
    RepairedIsQualifiedIff(SAMPLE_ROW, SAMPLE_QUOTE_15, SAMPLE_QUOTE_1H, 4000000000);
  }

  lemma SampleNames()
    ensures NormalizeExchange("okx") == Some("okx") && NormalizeSymbol("BTC/USDT") != "" && Upper("LONG") == "LONG"
  {
    assert Strip("okx") == "okx" && Lower("okx") == "okx";
    assert Upper("BTC/USDT") == "BTC/USDT" && Strip("BTC/USDT") == "BTC/USDT" && "BTC/USDT"[3] == '/';
  }

  lemma SampleEvidence(q: Quote, window: int, open: int)
    requires window == WINDOW_15M_S || window == WINDOW_1H_S
    requires q == Quote([Candle(open, 150.0)], "okx", "BTC/USDT", Some(0), Some(4000000000)) && open == window * 1000
    ensures QuoteEvidence(q, window).Some? && QuoteEvidence(q, window).value.price == 150.0
  {
    hide NormalizeExchange, NormalizeSymbol;
    SampleNames();
    assert Millis(window * SECOND) == open && Millis(4000000000) == 4000000;
    SelectOnly(Candle(open, 150.0), open);
  }

  lemma SelectOnly(c: Candle, target: int)
    requires Containing(c, target)
    ensures SelectContainingCandle([c], target) == Some(c)
  {
    assert c in [c];
  }
}
