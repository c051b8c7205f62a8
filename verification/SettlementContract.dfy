/** Causal settlement primitives: historical price evidence and directional outcomes
    (senecio_polymarket/backend/settlement_contract.py). Instants are microseconds since the epoch. */
module SettlementContract {
  import opened Prelude
  import opened Text

  const CANDLE_INTERVAL_MS := 60000
  const WINDOW_15M_S := 900
  const WINDOW_1H_S := 3600
  const SECOND := 1000000
  const EVIDENCE_VERSION := "historical-price-evidence-v1"

  type Instant = int

  /** `int(dt.timestamp() * 1000)`: whole milliseconds, truncated towards zero. */
  function Millis(t: Instant): int { if t >= 0 then t / 1000 else -((-t) / 1000) }

  function NormalizeSymbol(symbol: string): string {
    var text := Strip(Upper(symbol));
    if '/' in text then text
    else if EndsWith(text, "USDT") && |text| > 4 then text[..|text| - 4] + "/USDT"
    else text
  }

  predicate PublicExchange(s: string) { s == "okx" || s == "kraken" || s == "gate" || s == "mexc" || s == "bitget" }

  function NormalizeExchange(exchange: string): Option<string> {
    var text := Lower(Strip(exchange));
    if PublicExchange(text) then Some(text) else None
  }

  function TargetMs(ts: Option<Instant>, window: int): Option<int> {
    if (window != WINDOW_15M_S && window != WINDOW_1H_S) || ts.None? then None
    else Some(Millis(ts.value + window * SECOND))
  }

  lemma SymbolNormalizesOnce(symbol: string)
    ensures NormalizeSymbol(NormalizeSymbol(symbol)) == NormalizeSymbol(symbol)
  {
    var text := Strip(Upper(symbol));
    StripUpper(symbol);
    var n := NormalizeSymbol(symbol);
    if n != text {
      var tail := "/USDT";
      assert n[|n| - 5] == tail[0] && n[|n| - 1] == tail[4] && n[0] == text[0];
      forall i | 0 <= i < |n| ensures UpperChar(n[i]) == n[i] {
        if i < |text| - 4 { assert n[i] == text[i]; } else { assert n[i] == tail[i - (|text| - 4)]; }
      }
    }
    UpperOfUpper(n);
  }

  lemma ExchangeNormalizesOnce(exchange: string)
    requires NormalizeExchange(exchange).Some?
    ensures NormalizeExchange(NormalizeExchange(exchange).value) == NormalizeExchange(exchange)
  {
    hide PublicExchange;
    LowerOfStrip(exchange);
  }

  const PUBLIC_VENUES := {"okx", "kraken", "gate", "mexc", "bitget"}

  /** A pair quoted in USDT has one form for every spelling: joined or with a slash, in any case, between any blanks. */
  lemma PairsHaveOneForm(left: string, s: string, right: string, base: string)
    requires Plain(base) && base != "" && AllSpace(left) && AllSpace(right)
    requires SameUpToCase(s, base + "USDT") || SameUpToCase(s, base + "/USDT")
    ensures NormalizeSymbol(left + s + right) == base + "/USDT"
  {
    var t := if SameUpToCase(s, base + "USDT") then base + "USDT" else base + "/USDT";
    assert base[0] in base && t[0] == base[0];
    var tail := if SameUpToCase(s, base + "USDT") then "USDT" else "/USDT";
    forall i | 0 <= i < |t| ensures UpperChar(t[i]) == t[i] {
      if i < |base| { assert t[i] == base[i] && base[i] in base; } else { assert t[i] == tail[i - |base|]; }
    }
    assert t[|t| - 1] == tail[|tail| - 1];
    UpperStripped(left, s, right, t);
    if tail == "USDT" {
      assert '/' !in t by {
        forall c | c in t ensures c != '/' { var i :| 0 <= i < |t| && t[i] == c; assert i < |base| ==> base[i] in base; }
      }
      assert t[|t| - 4..] == "USDT" && t[..|t| - 4] == base;
    } else {
      assert t[|base|] == '/';
    }
  }

  /** Any other plain name stays as it is, in capitals and without blanks around it. */
  lemma OtherNamesStay(left: string, s: string, right: string, name: string)
    requires Plain(name) && (EndsWith(name, "USDT") ==> name == "USDT") && AllSpace(left) && AllSpace(right) && SameUpToCase(s, name)
    ensures NormalizeSymbol(left + s + right) == name
  {
    forall i | 0 <= i < |name| ensures UpperChar(name[i]) == name[i] { assert name[i] in name; }
    assert name != "" ==> name[0] in name && name[|name| - 1] in name;
    UpperStripped(left, s, right, name);
  }

  /** Exactly the public venues are known, in any case and between any blanks. */
  lemma VenuesAreKnown(left: string, s: string, right: string, venue: string)
    requires venue in PUBLIC_VENUES && SameUpToCase(venue, Upper(s)) && AllSpace(left) && AllSpace(right)
    ensures NormalizeExchange(left + s + right) == Some(venue)
  {
    assert venue != "";
    assert Trimmed(s) by {
      assert SameLetter(venue[0], Upper(s)[0]) && SameLetter(venue[|venue| - 1], Upper(s)[|s| - 1]);
    }
    StripBlanks(left, s, right);
    assert Lower(s) == venue by {
      forall i | 0 <= i < |s| ensures LowerChar(s[i]) == venue[i] {
        assert SameLetter(venue[i], Upper(s)[i]);
        assert 'a' <= venue[i] <= 'z';
      }
    }
  }

  lemma OnlyVenuesAreKnown(exchange: string)
    ensures NormalizeExchange(exchange).Some? ==>
              NormalizeExchange(exchange).value in PUBLIC_VENUES && NormalizeExchange(exchange).value == Lower(Strip(exchange))
  {
  }

  // ---- Candles ----

  /** A candle as returned by a venue: unreadable, or an opening time and a finite closing price. */
  datatype Candle = Unreadable | Candle(open: int, close: real)

  predicate Containing(c: Candle, target: int) {
    c.Candle? && c.close > 0.0 && c.open <= target < c.open + CANDLE_INTERVAL_MS
  }

  function Containings(candles: seq<Candle>, target: int): (r: seq<Candle>)
    ensures forall c :: c in r <==> c in candles && Containing(c, target)
  {
    if candles == [] then []
    else
      assert candles == [candles[0]] + candles[1..];
      (if Containing(candles[0], target) then [candles[0]] else []) + Containings(candles[1..], target)
  }

  /** Python's `max` by opening time. */
  function LatestOpen(valid: seq<Candle>): (r: Candle)
    requires valid != [] && forall c <- valid :: c.Candle?
    ensures r in valid && forall c <- valid :: c.open <= r.open
  {
    if |valid| == 1 then valid[0]
    else
      var rest, last := LatestOpen(valid[..|valid| - 1]), valid[|valid| - 1];
      assert valid == valid[..|valid| - 1] + [last];
      if last.open > rest.open then last else rest
  }

  function SelectContainingCandle(candles: seq<Candle>, target: int): (r: Option<Candle>)
    ensures r.Some? <==> exists c <- candles :: Containing(c, target)
    ensures r.Some? ==> r.value in candles && Containing(r.value, target)
    ensures r.Some? ==> forall c <- candles :: Containing(c, target) ==> c.open <= r.value.open
  {
    var valid := Containings(candles, target);
    if valid == [] then
      assert forall c :: c in valid <==> c in candles && Containing(c, target);
      None
    else
      assert valid[0] in valid;
      Some(LatestOpen(valid))
  }

  // ---- Price evidence ----

  datatype Evidence = Evidence(
    version: string, source: string, symbol: string, window: int, target: int, open: int, close: int, interval: int,
    price: real, observedAt: Option<Instant>)

  function PriceEvidence(candles: seq<Candle>, exchange: string, symbol: string, ts: Option<Instant>, window: int,
                         observed: Option<Instant>)
    : Option<Evidence>
  {
    var source, name, target := NormalizeExchange(exchange), NormalizeSymbol(symbol), TargetMs(ts, window);
    if source.None? || name == "" || target.None? then None
    else
      match SelectContainingCandle(candles, target.value)
      case None => None
      case Some(c) =>
        if observed.None? || Millis(observed.value) < c.open + CANDLE_INTERVAL_MS then None
        else Some(Evidence(EVIDENCE_VERSION, source.value, name, window, target.value, c.open,
                           c.open + CANDLE_INTERVAL_MS, CANDLE_INTERVAL_MS, c.close, observed))
  }

  predicate ValidEvidence(evidence: Option<Evidence>, exchange: string, symbol: string, ts: Option<Instant>, window: int) {
    evidence.Some? &&
    var e := evidence.value;
    var source, name, target := NormalizeExchange(exchange), NormalizeSymbol(symbol), TargetMs(ts, window);
    && e.version == EVIDENCE_VERSION && source.Some? && name != "" && target.Some?
    && e.source == source.value && e.symbol == name
    && e.window == window && e.target == target.value && e.interval == CANDLE_INTERVAL_MS
    && e.close == e.open + e.interval && e.open <= target.value < e.close && e.price > 0.0
    && e.observedAt.Some? && Millis(e.observedAt.value) >= e.close
  }

  /** Evidence built for a venue, symbol and window passes the validator for every spelling of that venue and symbol and
      every row with the same target, as the verifier's evidence cache needs. */
  lemma BuiltEvidenceIsValid(candles: seq<Candle>, exchange: string, symbol: string, ts: Option<Instant>, window: int,
                             observed: Option<Instant>, exchange': string, symbol': string, ts': Option<Instant>)
    requires NormalizeExchange(exchange') == NormalizeExchange(exchange) && NormalizeSymbol(symbol') == NormalizeSymbol(symbol)
    requires TargetMs(ts', window) == TargetMs(ts, window)
    requires PriceEvidence(candles, exchange, symbol, ts, window, observed).Some?
    ensures ValidEvidence(PriceEvidence(candles, exchange, symbol, ts, window, observed), exchange', symbol', ts', window)
  {
    hide NormalizeExchange, NormalizeSymbol, TargetMs, Millis;
  }

  /** The validator accepts exactly the evidence that some candles, observed at some time, would have built for that venue,
      symbol, row and window. */
  lemma ValidIffBuildable(evidence: Option<Evidence>, exchange: string, symbol: string, ts: Option<Instant>, window: int)
    ensures ValidEvidence(evidence, exchange, symbol, ts, window) <==>
              evidence.Some? && exists candles, observed :: PriceEvidence(candles, exchange, symbol, ts, window, observed) == evidence
  {
    hide NormalizeExchange, NormalizeSymbol, TargetMs, Millis;
    if ValidEvidence(evidence, exchange, symbol, ts, window) {
      var e := evidence.value;
      var c := Candle(e.open, e.price);
      assert c in [c] && Containing(c, e.target);
      assert PriceEvidence([c], exchange, symbol, ts, window, e.observedAt) == evidence;
    }
    if evidence.Some? {
      forall candles, observed | PriceEvidence(candles, exchange, symbol, ts, window, observed) == evidence
        ensures ValidEvidence(evidence, exchange, symbol, ts, window)
      {
        BuiltEvidenceIsValid(candles, exchange, symbol, ts, window, observed, exchange, symbol, ts);
      }
    }
  }

  lemma {:induction false} LatestIsFirst(valid: seq<Candle>) returns (v: nat)
    requires valid != [] && forall c <- valid :: c.Candle?
    ensures v < |valid| && valid[v] == LatestOpen(valid) && forall j :: 0 <= j < v ==> valid[j].open < valid[v].open
  {
    if |valid| == 1 {
      v := 0;
    } else {
      var init, last := valid[..|valid| - 1], valid[|valid| - 1];
      v := LatestIsFirst(init);
      if last.open > LatestOpen(init).open {
        v := |valid| - 1;
        forall j | 0 <= j < v ensures valid[j].open < valid[v].open { assert init[j] in init; }
      }
    }
  }

  lemma {:induction false} PlaceOf(candles: seq<Candle>, target: int, v: nat) returns (i: nat)
    requires v < |Containings(candles, target)|
    ensures i < |candles| && candles[i] == Containings(candles, target)[v]
    ensures forall j :: 0 <= j < i && Containing(candles[j], target) ==> candles[j] in Containings(candles, target)[..v]
  {
    var first, all := candles[0], Containings(candles, target);
    var rest := Containings(candles[1..], target);
    assert all == (if Containing(first, target) then [first] else []) + rest;
    if Containing(first, target) && v == 0 {
      i := 0;
    } else {
      var before := if Containing(first, target) then v - 1 else v;
      var k := PlaceOf(candles[1..], target, before);
      i := k + 1;
      assert all[..v] == (if Containing(first, target) then [first] else []) + rest[..before];
      forall j | 0 <= j < i && Containing(candles[j], target) ensures candles[j] in all[..v] {
        if j > 0 { assert candles[j] == candles[1..][j - 1] && candles[j] in rest[..before]; }
      }
    }
  }

  /** Among containing candles that open at the same latest time the first returned is taken. */
  lemma SelectedIsFirst(candles: seq<Candle>, target: int)
    requires SelectContainingCandle(candles, target).Some?
    ensures var c := SelectContainingCandle(candles, target).value;
            exists i :: 0 <= i < |candles| && candles[i] == c &&
              forall j :: 0 <= j < i && Containing(candles[j], target) ==> candles[j].open < c.open
  {
    var valid := Containings(candles, target);
    var v := LatestIsFirst(valid);
    var i := PlaceOf(candles, target, v);
    forall j | 0 <= j < i && Containing(candles[j], target) ensures candles[j].open < candles[i].open {
      var u :| 0 <= u < v && valid[u] == candles[j];
    }
  }

  // ---- In instants ----

  const MINUTE := 60 * SECOND

  /** The candle's minute contains the instant. Before 1970 fractions of a millisecond are cut off upwards. */
  predicate MinuteContains(c: Candle, t: Instant)
    requires c.Candle?
  {
    if t >= 0 then c.open * 1000 <= t < c.open * 1000 + MINUTE else c.open * 1000 < t + 1000 <= c.open * 1000 + MINUTE
  }

  predicate MinuteOverBy(c: Candle, t: Instant)
    requires c.Candle?
  {
    c.open * 1000 + MINUTE < t + (if t >= 0 then 1 else 1000)
  }

  /** The target of a window is its end, in whole milliseconds, and there is one for these windows only. */
  lemma TargetIsWindowEnd(ts: Option<Instant>, window: int)
    ensures TargetMs(ts, window).Some? <==> ts.Some? && (window == 15 * 60 || window == 60 * 60)
    ensures TargetMs(ts, window).Some? && ts.value >= 0 ==>
              var t := TargetMs(ts, window).value; t * 1000 <= ts.value + window * SECOND < (t + 1) * 1000
    ensures TargetMs(ts, window).Some? && ts.value + window * SECOND < 0 ==>
              var t := TargetMs(ts, window).value; (t - 1) * 1000 < ts.value + window * SECOND <= t * 1000
  {
  }

  /** Comparing whole milliseconds is comparing instants. */
  lemma MillisCompare(c: Candle, t: Instant)
    requires c.Candle?
    ensures c.open <= Millis(t) < c.open + CANDLE_INTERVAL_MS <==> MinuteContains(c, t)
    ensures c.open + CANDLE_INTERVAL_MS <= Millis(t) <==> MinuteOverBy(c, t)
  {
  }

  /** A readable candle whose minute contains the instant, the latest such, and over when it was observed. */
  ghost predicate LatestOver(c: Candle, candles: seq<Candle>, at: Instant, observed: Instant) {
    && c.Candle? && c.close > 0.0 && MinuteContains(c, at) && MinuteOverBy(c, observed)
    && forall d <- candles :: d.Candle? && d.close > 0.0 && MinuteContains(d, at) ==> d.open <= c.open
  }

  lemma LatestOverIs(c: Candle, candles: seq<Candle>, at: Instant, observed: Instant)
    ensures LatestOver(c, candles, at, observed) <==>
              && Containing(c, Millis(at)) && c.open + CANDLE_INTERVAL_MS <= Millis(observed)
              && forall d <- candles :: Containing(d, Millis(at)) ==> d.open <= c.open
  {
    hide Millis, MinuteContains, MinuteOverBy;
    if c.Candle? {
      MillisCompare(c, at);
      MillisCompare(c, observed);
    }
    forall d | d in candles && d.Candle? ensures Containing(d, Millis(at)) <==> d.close > 0.0 && MinuteContains(d, at) {
      MillisCompare(d, at);
    }
  }

  /** Evidence is found if and only if venue, symbol and instants are proper, the window is one of the two, and among the
      returned candles there is a readable one whose minute contains the window's end, the latest such, that was over when
      observed; its price is the close of such a candle. */
  lemma EvidenceFoundIff(candles: seq<Candle>, exchange: string, symbol: string, ts: Option<Instant>, window: int,
                         observed: Option<Instant>)
    ensures PriceEvidence(candles, exchange, symbol, ts, window, observed).Some? <==>
              && NormalizeExchange(exchange).Some? && NormalizeSymbol(symbol) != "" && ts.Some? && observed.Some?
              && (window == 15 * 60 || window == 60 * 60)
              && exists c <- candles :: LatestOver(c, candles, ts.value + window * SECOND, observed.value)
    ensures var e := PriceEvidence(candles, exchange, symbol, ts, window, observed);
            e.Some? ==> exists c <- candles ::
                          LatestOver(c, candles, ts.value + window * SECOND, observed.value) && e.value.price == c.close
  {
    hide NormalizeExchange, NormalizeSymbol, Millis, LatestOver;
    if TargetMs(ts, window).Some? && observed.Some? {
      var at := ts.value + window * SECOND;
      var found := SelectContainingCandle(candles, Millis(at));
      forall c | c in candles && LatestOver(c, candles, at, observed.value)
        ensures found.Some? && found.value.Candle? && found.value.open + CANDLE_INTERVAL_MS <= Millis(observed.value)
      {
        LatestOverIs(c, candles, at, observed.value);
        assert Containing(c, Millis(at));
      }
      if found.Some? { LatestOverIs(found.value, candles, at, observed.value); }
    }
  }

  // ---- Outcomes ----

  datatype Outcome = WIN | LOSS | Other(text: string)

  predicate Directional(prediction: string) { Upper(prediction) == "LONG" || Upper(prediction) == "SHORT" }

  function DirectionalOutcome(direction: string, origin: Option<real>, later: real): Option<Outcome> {
    if origin.None? || origin.value <= 0.0 || later <= 0.0 then None
    else if Upper(direction) == "LONG" then Some(if later > origin.value then WIN else LOSS)
    else if Upper(direction) == "SHORT" then Some(if later < origin.value then WIN else LOSS)
    else None
  }

  /** The two directions never both win; they both lose exactly on an unchanged price. */
  lemma OutcomesAreOpposed(origin: Option<real>, later: real)
    requires DirectionalOutcome("LONG", origin, later).Some?
    ensures var long, short := DirectionalOutcome("LONG", origin, later).value, DirectionalOutcome("SHORT", origin, later);
            short.Some? && !(long == WIN && short.value == WIN) && (long == LOSS && short.value == LOSS <==> later == origin.value)
  {
    assert Upper("LONG") == "LONG" && Upper("SHORT") == "SHORT";
  }

  const TOLERANCE := 0.000000001

  function Larger(a: real, b: real): real { if a >= b then a else b }

  /** `math.isclose(a, b, rel_tol=1e-9, abs_tol=1e-9)` over the reals. */
  predicate PricesMatch(a: real, b: real) {
    Abs(a - b) <= Larger(TOLERANCE * Larger(Abs(a), Abs(b)), TOLERANCE)
  }

  /** Prices match when they differ by no more than a billionth, absolutely or of either of them. */
  lemma PricesMatchIff(a: real, b: real)
    ensures var d, x, y := if a < b then b - a else a - b, if a < 0.0 then -a else a, if b < 0.0 then -b else b;
            PricesMatch(a, b) <==> 1000000000.0 * d <= 1.0 || 1000000000.0 * d <= x || 1000000000.0 * d <= y
  {
  }
}
