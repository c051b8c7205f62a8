/** The replay loops over a mutable ledger and growing lists (research/rea_engines/replay.py). */
module ReplayEngine {
  import opened Prelude
  import opened Accounting
  import opened Replay

  datatype ReplayError = NoCandles | TimestampsNotIncreasing | StrategyFailed(timestamp: int)

  predicate Rising(bars: seq<Candle>) {
    forall i :: 0 < i < |bars| ==> bars[i - 1].timestamp < bars[i].timestamp
  }

  lemma {:induction false} RaisedStaysRaised<S>(cfg: Config, bars: seq<Candle>, k: nat, strategy: Strategy<S>, s: S)
    requires k <= |bars| && After(cfg, bars[..k], strategy, s).None?
    ensures After(cfg, bars, strategy, s).None?
    decreases |bars|
  {
    hide Bar;
    if k == |bars| {
      assert bars[..k] == bars;
    } else {
      assert bars[..|bars| - 1][..k] == bars[..k];
      RaisedStaysRaised(cfg, bars[..|bars| - 1], k, strategy, s);
    }
  }

  /** The strategy raises at bar k, after the bars before it were taken. */
  ghost predicate FirstFailure<S>(cfg: Config, bars: seq<Candle>, strategy: Strategy<S>, s: S, k: nat)
    requires k < |bars|
  {
    After(cfg, bars[..k], strategy, s).Some? && After(cfg, bars[..k + 1], strategy, s).None?
  }

  /** `_execute_fill` against the ledger object. */
  method ExecuteFill(order: PendingOrder, candle: Candle, price: real, ledger: Ledger, profile: CostProfile)
    returns (r: Result<Fill, LedgerError>)
    requires ledger.Valid()
    modifies ledger
    ensures ledger.Valid()
    ensures match Execute(order, candle, price, old(ledger.State()), profile)
            case Ok(done) => ledger.State() == done.0 && r == Ok(done.1)
            case Err(e) => ledger.State() == old(ledger.State()) && r == Err(e)
  {
    hide BooksOk, FillCosts, BuyBooks, SellBooks;
    var costs := FillCosts(order, price, profile);
    var op;
    if order.side == Buy { op := ledger.Buy(order.quantity, price, costs); } else { op := ledger.Sell(order.quantity, price, costs); }
    r := match op
      case Err(e) => Err(e)
      case Ok(o) => Ok(Fill(order.id, candle.timestamp, order.side, order.kind, o.quantity, o.price, o.notional,
                            o.costs, o.realizedPnl, order.tag));
  }

  /** One bar's pass over the pending orders. */
  method MatchPending(pending: seq<PendingOrder>, index: nat, candle: Candle, profile: CostProfile, ledger: Ledger,
                      fills: seq<Fill>, rejections: seq<Rejection>, expired: seq<Expiry>) returns (m: Matched)
    requires ledger.Valid()
    modifies ledger
    ensures ledger.Valid() && m.books == ledger.State()
    ensures m == MatchAll(pending, index, candle, profile, Matched(old(ledger.State()), [], fills, rejections, expired))
  {
    hide Execute, BooksOk, FillPrice;
    m := Matched(ledger.State(), [], fills, rejections, expired);
    ghost var start := m;
    var i := 0;
    while i < |pending|
      invariant i <= |pending| && ledger.Valid() && m.books == ledger.State()
      invariant m == MatchAll(pending[..i], index, candle, profile, start)
    {
      var order := pending[i];
      assert pending[..i + 1][..i] == pending[..i];
      i := i + 1;
      if order.submittedIndex >= index {
        m := m.(still := m.still + [order]);
        continue;
      }
      var price := FillPrice(order, candle);
      if price.Some? {
        var fill := ExecuteFill(order, candle, price.value, ledger, profile);
        if fill.Err? {
          m := m.(rejections := m.rejections + [Rejection(order.id, candle.timestamp, Refused(fill.error),
                                                          Some(order.side), order.quantity, order.tag)]);
        } else {
          m := m.(books := ledger.State(), fills := m.fills + [fill.value]);
        }
        continue;
      }
      var waited := index - order.submittedIndex;
      if order.ttl.Some? && waited >= order.ttl.value {
        m := m.(expired := m.expired + [Expiry(order.id, candle.timestamp, waited, order.tag)]);
      } else {
        m := m.(still := m.still + [order.(barsWaited := waited)]);
      }
    }
    assert pending[..|pending|] == pending;
  }

  /** One bar's pass over the strategy's intents. */
  method TakeIntents(intents: seq<Intent>, index: nat, candle: Candle, defaultTtl: Option<nat>, start: Book) returns (b: Book)
    ensures b == ApplyIntents(intents, index, candle, defaultTtl, start)
  {
    hide Find, Without;
    b := start;
    var i := 0;
    while i < |intents|
      invariant i <= |intents| && b == ApplyIntents(intents[..i], index, candle, defaultTtl, start)
    {
      var intent := intents[i];
      assert intents[..i + 1][..i] == intents[..i];
      i := i + 1;
      if intent.Cancel? {
        var target := Find(b.pending, intent.orderId);
        if target.None? {
          b := b.(rejections := b.rejections + [Rejection(intent.orderId, candle.timestamp, CancelTargetNotOpen, None, 0.0, intent.tag)]);
        } else {
          b := b.(pending := Without(b.pending, intent.orderId),
                  cancelled := b.cancelled + [Cancellation(intent.orderId, candle.timestamp,
                                                           if intent.tag != "" then intent.tag else target.value.tag)]);
        }
        continue;
      }
      var order := PendingOrder(b.sequence + 1, intent.side, intent.kind, intent.quantity, index, candle.timestamp,
                                if intent.ttl.Some? then intent.ttl else defaultTtl, intent.tag, 0);
      b := b.(sequence := b.sequence + 1, pending := b.pending + [order]);
    }
    assert intents[..|intents|] == intents;
  }

  /** `_validate_inputs`. */
  method CheckBars(bars: seq<Candle>) returns (error: Option<ReplayError>)
    ensures error == if bars == [] then Some(NoCandles) else if !Rising(bars) then Some(TimestampsNotIncreasing) else None
  {
    if bars == [] { return Some(NoCandles); }
    var k := 1;
    while k < |bars|
      invariant 1 <= k <= |bars| && Rising(bars[..k])
    {
      if bars[k].timestamp <= bars[k - 1].timestamp { return Some(TimestampsNotIncreasing); }
      k := k + 1;
    }
    assert bars[..|bars|] == bars;
    return None;
  }

  /** One bar: match, mark to market, ask the strategy, take its intents. */
  method RunBar<S>(run: Run<S>, index: nat, candle: Candle, strategy: Strategy<S>, cfg: Config, ledger: Ledger)
    returns (next: Option<Run<S>>)
    requires ledger.Valid() && run.books == ledger.State()
    modifies ledger
    ensures ledger.Valid() && next == Bar(cfg, run, index, candle, strategy)
    ensures next.Some? ==> next.value.books == ledger.State()
  {
    hide MatchAll, ApplyIntents, SnapshotOf, Drawdown, BooksOk, IntentOk;
    var m := MatchPending(run.pending, index, candle, cfg.costs, ledger, run.fills, run.rejections, run.expired);
    var now := run.(books := m.books, pending := m.still, fills := m.fills, rejections := m.rejections, expired := m.expired);
    var snapshot := SnapshotOf(now.books, candle.close);
    var peak := Larger(now.peak, snapshot.equity);
    var drawdown := Drawdown(peak, snapshot.equity);
    var held := now.barsInMarket;
    if snapshot.inventory > 0.0 { held := held + 1; }
    now := now.(peak := peak, maxDrawdown := Larger(now.maxDrawdown, drawdown), barsInMarket := held,
                equity := now.equity + [Point(candle.timestamp, candle.close, snapshot.cash, snapshot.inventory,
                                              snapshot.equity, drawdown)]);
    var answer := strategy(now.strategy, candle, snapshot, now.pending);
    if answer.None? || exists i <- answer.value.1 :: !IntentOk(i) { return None; }
    var b := TakeIntents(answer.value.1, index, candle, cfg.defaultTtl, Book(now.pending, now.sequence, now.rejections, now.cancelled));
    return Some(now.(pending := b.pending, sequence := b.sequence, rejections := b.rejections,
                     cancelled := b.cancelled, strategy := answer.value.0));
  }

  /** `Replay.run`. */
  method RunReplay<S>(bars: seq<Candle>, strategy: Strategy<S>, s: S, cfg: Config) returns (r: Result<Run<S>, ReplayError>)
    requires ConfigOk(cfg)
    ensures bars == [] ==> r == Err(NoCandles)
    ensures bars != [] && !Rising(bars) ==> r == Err(TimestampsNotIncreasing)
    ensures bars != [] && Rising(bars) ==>
              match After(cfg, bars, strategy, s)
              case Some(run) => r == Ok(run)
              case None =>
                exists k :: 0 <= k < |bars| && FirstFailure(cfg, bars, strategy, s, k) && r == Err(StrategyFailed(bars[k].timestamp))
  {
    hide Bar, BooksOk;
    var error := CheckBars(bars);
    if error.Some? { return Err(error.value); }
    var ledger := new Ledger(cfg.startingCash, cfg.maxInventory, cfg.maxFillQty);
    var run := Opening(cfg, s);
    var index := 0;
    while index < |bars|
      invariant index <= |bars| && ledger.Valid() && run.books == ledger.State()
      invariant After(cfg, bars[..index], strategy, s) == Some(run)
    {
      assert bars[..index + 1][..index] == bars[..index];
      var next := RunBar(run, index, bars[index], strategy, cfg, ledger);
      if next.None? {
        RaisedStaysRaised(cfg, bars, index + 1, strategy, s);
        assert FirstFailure(cfg, bars, strategy, s, index);
        return Err(StrategyFailed(bars[index].timestamp));
      }
      run, index := next.value, index + 1;
    }
    assert bars[..|bars|] == bars;
    return Ok(run);
  }
}
