/** What a settlement says about the market: both writers record the moves that the quoted candles show
    (senecio_polymarket/backend/settlement_contract.py, supabase_client.py, settlement_reconciler.py). */
module SettlementMarket {
  import opened Prelude
  import opened Text
  import opened SettlementContract
  import opened Settlement

  predicate Gains(prediction: string, origin: real, later: real) {
    if Upper(prediction) == "LONG" then later > origin else later < origin
  }

  /** Price and outcome are those of a returned candle whose minute contains the instant, the latest such, and over when it
      was observed. */
  ghost predicate Shown(q: Quote, at: Instant, prediction: string, origin: real, price: real, outcome: Outcome) {
    q.observed.Some?
    && exists c <- q.candles ::
         && LatestOver(c, q.candles, at, q.observed.value)
         && price == c.close && outcome == (if Gains(prediction, origin, c.close) then WIN else LOSS)
  }

  lemma EvidenceIsShown(q: Quote, row: Row, window: int, origin: real)
    requires QuoteFor(q, row, window) && QuoteEvidence(q, window).Some? && row.ts.Some?
    requires DirectionalOutcome(row.prediction, Some(origin), QuoteEvidence(q, window).value.price).Some?
    ensures var price := QuoteEvidence(q, window).value.price;
            Shown(q, row.ts.value + window * SECOND, row.prediction, origin, price,
                  DirectionalOutcome(row.prediction, Some(origin), price).value)
  {
    hide NormalizeExchange, NormalizeSymbol, Millis, Upper, LatestOver;
    var at := row.ts.value + window * SECOND;
    LatestOverIs(SelectContainingCandle(q.candles, Millis(at)).value, q.candles, at, q.observed.value);
  }

  lemma EvidenceHasInstant(q: Quote, row: Row, window: int)
    requires QuoteFor(q, row, window) && QuoteEvidence(q, window).Some?
    ensures row.ts.Some?
  {
    hide NormalizeExchange, NormalizeSymbol;
  }

  /** What the verifier settles, from reads that may be stale: outcome and price of both windows are what the market did
      after the T0, measured from its witnessed origin price. */
  lemma SettlementShowsTheMarket(row: Row, existing: Row, q15: Quote, q1h: Quote, now: Instant)
    requires SameFacts(row, existing) && QuoteFor(q15, row, WINDOW_15M_S) && QuoteFor(q1h, row, WINDOW_1H_S)
    requires VerifyPatch(row, existing, q15, q1h, now).Some?
    ensures var n := Patched(existing, VerifyPatch(row, existing, q15, q1h, now).value);
            && existing.ts.Some? && n.audit.origin.Some? && n.audit.origin.value.price.Some? && n.audit.dual.Some?
            && var origin, d := n.audit.origin.value.price.value, n.audit.dual.value;
            && n.outcome == Some(d.outcome1h) && n.price15 == Some(d.price15)
            && Shown(q15, existing.ts.value + 15 * MINUTE, existing.prediction, origin, d.price15, d.outcome15)
            && Shown(q1h, existing.ts.value + 60 * MINUTE, existing.prediction, origin, d.price1h, d.outcome1h)
  {
    hide NormalizeExchange, NormalizeSymbol, TargetMs, PricesMatch, ValidEvidence, DirectionalOutcome, QuoteEvidence, Shown, Directional;
    var origin := existing.audit.origin.value.price.value;
    EvidenceIsShown(q15, existing, WINDOW_15M_S, origin);
    EvidenceIsShown(q1h, existing, WINDOW_1H_S, origin);
  }

  /** What the reconciler repairs: the same for its quotes, measured from the entry price, and the hourly outcome is the
      one the row already had. */
  lemma RepairShowsTheMarket(row: Row, q15: Quote, q1h: Quote, now: Instant)
    requires QuoteFor(q15, row, WINDOW_15M_S) && QuoteFor(q1h, row, WINDOW_1H_S)
    requires RepairPatch(row, QuoteEvidence(q15, WINDOW_15M_S), QuoteEvidence(q1h, WINDOW_1H_S), now).Repaired?
    ensures var n := Patched(row, RepairPatch(row, QuoteEvidence(q15, WINDOW_15M_S), QuoteEvidence(q1h, WINDOW_1H_S), now).patch);
            && row.ts.Some? && row.priceNow.Some? && n.audit.dual.Some?
            && var entry, d := row.priceNow.value, n.audit.dual.value;
            && n.outcome == row.outcome == Some(d.outcome1h) && n.price15 == Some(d.price15)
            && Shown(q15, row.ts.value + 15 * MINUTE, row.prediction, entry, d.price15, d.outcome15)
            && Shown(q1h, row.ts.value + 60 * MINUTE, row.prediction, entry, d.price1h, d.outcome1h)
  {
    hide NormalizeExchange, NormalizeSymbol, TargetMs, DirectionalOutcome, QuoteEvidence, QuoteFor, Shown, Directional;
    EvidenceHasInstant(q15, row, WINDOW_15M_S);
    EvidenceIsShown(q15, row, WINDOW_15M_S, row.priceNow.value);
    EvidenceIsShown(q1h, row, WINDOW_1H_S, row.priceNow.value);
  }

  // ---- What the proof gate means ----

  /** The evidence is what some candles show for this row at the end of a window, and the price is its price. */
  ghost predicate Backed(evidence: Option<Evidence>, row: Row, window: int, price: real) {
    && evidence.Some? && PricesMatch(price, evidence.value.price)
    && exists candles, observed :: PriceEvidence(candles, row.exchange, row.symbol, row.ts, window, observed) == evidence
  }

  lemma BackedIff(evidence: Option<Evidence>, row: Row, window: int, price: real)
    requires NormalizeExchange(row.exchange).Some?
    ensures Backed(evidence, row, window, price) <==>
              && ValidEvidence(evidence, NormalizeExchange(row.exchange).value, NormalizeSymbol(row.symbol), row.ts, window)
              && PricesMatch(price, evidence.value.price)
    ensures Backed(evidence, row, window, price) ==> evidence.Some?
  {
    hide NormalizeExchange, NormalizeSymbol, TargetMs, PricesMatch, Millis;
    var source, name := NormalizeExchange(row.exchange).value, NormalizeSymbol(row.symbol);
    ExchangeNormalizesOnce(row.exchange);
    SymbolNormalizesOnce(row.symbol);
    ValidIffBuildable(evidence, source, name, row.ts, window);
    forall candles, observed
      ensures PriceEvidence(candles, source, name, row.ts, window, observed) ==
              PriceEvidence(candles, row.exchange, row.symbol, row.ts, window, observed)
    {
      hide SelectContainingCandle;
    }
  }

  predicate WinOrLoss(o: Outcome, won: bool) { o == if won then WIN else LOSS }

  /** The witness of the price a T0 was made at. */
  ghost predicate Witnessed(row: Row) {
    && row.audit.origin.Some?
    && var w := row.audit.origin.value;
    && w.version == "origin-price-v1" && w.timestamp == row.ts
    && NormalizeExchange(w.source) == NormalizeExchange(row.exchange) && NormalizeExchange(row.exchange).Some?
  }

  /** What a dual-window settlement must say to pass, given the price at the T0. */
  ghost predicate Proven(row: Row, d: Dual, origin: real)
    requires row.ts.Some?
  {
    && d.primaryWindow == "1h" && d.contract == "aud063-v1" && d.observationVersion == "settlement-observation-v1"
    && d.observedAt.Some? && row.ts.value + 60 * MINUTE <= d.observedAt.value
    && 0.0 < d.price15 && 0.0 < d.price1h && Backed(d.evidence15, row, 15 * 60, d.price15) && Backed(d.evidence1h, row, 60 * 60, d.price1h)
    && WinOrLoss(d.outcome15, Gains(row.prediction, origin, d.price15)) && WinOrLoss(d.outcome1h, Gains(row.prediction, origin, d.price1h))
    && row.outcome == Some(d.outcome1h)
  }

  /** A row passes the proof gate if and only if it is a LONG or SHORT with a witnessed, positive price at its T0, which its
      entry price matches, and a settlement whose outcomes are the gains at prices that candles of both windows' ends show. */
  lemma QualifiedIff(row: Row)
    ensures IsProofQualified(row) <==>
              && (Upper(row.prediction) == "LONG" || Upper(row.prediction) == "SHORT")
              && row.ts.Some? && NormalizeSymbol(row.symbol) != "" && Witnessed(row) && row.priceNow.Some? && row.audit.dual.Some?
              && row.audit.origin.value.price.Some?
              && var origin := row.audit.origin.value.price.value;
                 && 0.0 < origin && 0.0 < row.priceNow.value && PricesMatch(origin, row.priceNow.value)
                 && Proven(row, row.audit.dual.value, origin)
  {
    hide NormalizeExchange, NormalizeSymbol, TargetMs, PricesMatch, ValidEvidence, Backed, Upper;
    if row.audit.dual.Some? && NormalizeExchange(row.exchange).Some? {
      var d := row.audit.dual.value;
      BackedIff(d.evidence15, row, WINDOW_15M_S, d.price15);
      BackedIff(d.evidence1h, row, WINDOW_1H_S, d.price1h);
      if d.evidence1h.Some? { TargetOfValid(d.evidence1h, row); }
    }
  }

  lemma TargetOfValid(evidence: Option<Evidence>, row: Row)
    requires evidence.Some? && NormalizeExchange(row.exchange).Some?
    ensures ValidEvidence(evidence, NormalizeExchange(row.exchange).value, NormalizeSymbol(row.symbol), row.ts, WINDOW_1H_S) ==>
              TargetMs(row.ts, WINDOW_1H_S) == Some(evidence.value.target)
  {
    hide NormalizeExchange, NormalizeSymbol, TargetMs;
  }

  // ---- When each writer writes ----

  /** The row the verifier would leave behind. */
  function Settled(existing: Row, s: Supplied, now: Instant): Row {
    existing.(outcome := Some(s.outcome1h), price15 := Some(s.price15), audit := existing.audit.(dual := Some(
      Dual(s.outcome15, s.outcome1h, s.price15, s.price1h, "1h", "aud063-v1", Some(s.evidence15), Some(s.evidence1h),
           "settlement-observation-v1", Some(now), "SENEX_PRIMARY_DUAL_WINDOW_VERIFIER_V2"))))
  }

  /** For a row with a positive entry price and the evidence's own prices, `update_outcome_dual` sends its patch if and only if
      the row is unsettled and what it leaves behind passes the proof gate, and it leaves exactly that. */
  lemma UpdateIffQualified(existing: Row, s: Supplied, now: Instant)
    requires existing.priceNow.Some? ==> existing.priceNow.value > 0.0
    requires s.price15 == s.evidence15.price && s.price1h == s.evidence1h.price
    ensures var p := UpdatePatch(existing, s, now);
            && (p.Some? <==> existing.outcome.None? && IsProofQualified(Settled(existing, s, now)))
            && (p.Some? ==> Patched(existing, p.value) == Settled(existing, s, now))
  {
    hide NormalizeExchange, NormalizeSymbol, TargetMs, Upper, Millis, PricesMatch;
    SamePriceMatches(s.price15);
    SamePriceMatches(s.price1h);
    EmptySymbolStaysEmpty();
    if UpdatePatch(existing, s, now).Some? {
      UpdatedIsQualifiedIff(existing, s, now);
    } else if IsProofQualified(Settled(existing, s, now)) {
      assert existing.outcome.Some?;
    }
  }

  /** A row the reconciler may repair: decided, LONG or SHORT, with an entry price and a witness, and no settlement. */
  ghost predicate Repairable(row: Row) {
    && (row.outcome == Some(WIN) || row.outcome == Some(LOSS)) && (Upper(row.prediction) == "LONG" || Upper(row.prediction) == "SHORT")
    && row.priceNow.Some? && 0.0 < row.priceNow.value && Witnessed(row) && row.audit.dual.None?
  }

  /** It repairs exactly such a row, with evidence for both windows, when its outcome is the hourly gain from the entry price;
      with another hourly gain it reports a conflict, and without evidence an error. */
  lemma RepairsIff(row: Row, e15: Option<Evidence>, e1h: Option<Evidence>, now: Instant)
    requires (e15.Some? ==> e15.value.price > 0.0) && (e1h.Some? ==> e1h.value.price > 0.0)
    ensures var r := RepairPatch(row, e15, e1h, now);
            && (r.RepairSkipped? <==> !Repairable(row)) && (r.RepairError? <==> Repairable(row) && (e15.None? || e1h.None?))
            && (Repairable(row) && e15.Some? && e1h.Some? ==>
                  (r.Repaired? <==> WinOrLoss(row.outcome.value, Gains(row.prediction, row.priceNow.value, e1h.value.price))))
  {
    hide NormalizeExchange, Upper;
  }
}
