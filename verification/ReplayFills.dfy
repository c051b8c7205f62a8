/** What a fill in a replay means: an acceptable price its bar traded at, and money and quantity that add up
    (research/rea_engines/replay.py). */
module ReplayFills {
  import opened Accounting
  import opened Replay

  // ---- Prices ----

  /** A price an order takes. */
  predicate Accepts(side: Side, kind: Kind, p: real) {
    kind.Limit? ==> if side == Buy then p <= kind.price else p >= kind.price
  }

  function Distance(a: real, b: real): real { if a >= b then a - b else b - a }

  /** The acceptable price of the bar that is nearest to its open. */
  ghost predicate Nearest(side: Side, kind: Kind, p: real, candle: Candle) {
    && candle.low <= p <= candle.high && Accepts(side, kind, p)
    && forall q :: candle.low <= q <= candle.high && Accepts(side, kind, q) ==> Distance(p, candle.open) <= Distance(q, candle.open)
  }

  /** An order is filled if and only if the bar traded at a price it accepts, and then at the nearest such price to the open. */
  lemma FilledIffAcceptable(order: PendingOrder, candle: Candle)
    requires CandleOk(candle)
    ensures FillPrice(order, candle).Some? <==> exists p :: candle.low <= p <= candle.high && Accepts(order.side, order.kind, p)
    ensures FillPrice(order, candle).Some? ==> Nearest(order.side, order.kind, FillPrice(order, candle).value, candle)
  {
    var price := FillPrice(order, candle);
    if price.Some? {
      assert candle.low <= price.value <= candle.high && Accepts(order.side, order.kind, price.value);
    }
    forall p | candle.low <= p <= candle.high && Accepts(order.side, order.kind, p) ensures price.Some? {}
  }

  // ---- Costs ----

  /** Fees on every fill, half the spread and slippage on market orders only, all in basis points of the notional. */
  predicate ChargedFor(f: Fill, profile: CostProfile) {
    && f.notional == f.quantity * f.price
    && f.costs.fee * 10000.0 == f.notional * profile.feeBps
    && f.costs.spread * 20000.0 == (if f.kind.Market? then f.notional * profile.spreadBps else 0.0)
    && f.costs.slippage * 10000.0 == (if f.kind.Market? then f.notional * profile.slippageBps else 0.0)
  }

  ghost predicate FairFill(f: Fill, candle: Candle, profile: CostProfile) {
    f.timestamp == candle.timestamp && Nearest(f.side, f.kind, f.price, candle) && ChargedFor(f, profile)
  }

  // ---- Flows ----

  function CashIn(f: Fill): real {
    if f.side == Buy then -(f.notional + f.costs.Total()) else f.notional - f.costs.Total()
  }

  function QuantityIn(f: Fill): real { if f.side == Buy then f.quantity else -f.quantity }

  function CashFlow(fills: seq<Fill>): real { if fills == [] then 0.0 else CashFlow(fills[..|fills| - 1]) + CashIn(fills[|fills| - 1]) }

  function QuantityFlow(fills: seq<Fill>): real {
    if fills == [] then 0.0 else QuantityFlow(fills[..|fills| - 1]) + QuantityIn(fills[|fills| - 1])
  }

  ghost predicate FlowsOk(b: Books, fills: seq<Fill>, cfg: Config) {
    b.cash == cfg.startingCash + CashFlow(fills) && b.inventory == QuantityFlow(fills)
  }

  /** An operation reports its quantity, price and costs. */
  predicate Reports(op: Operation, quantity: real, price: real, costs: Costs) {
    op.quantity == quantity && op.price == price && op.costs == costs && op.notional == quantity * price
  }

  lemma BuyMoves(b: Books, quantity: real, price: real, costs: Costs)
    requires BuyBooks(b, quantity, price, costs).Ok?
    ensures var (after, op) := BuyBooks(b, quantity, price, costs).value;
            && Reports(op, quantity, price, costs)
            && after.cash == b.cash - (op.notional + costs.Total()) && after.inventory == b.inventory + quantity
  {
    hide Costs.Total;
  }

  lemma SellMoves(b: Books, quantity: real, price: real, costs: Costs)
    requires SellBooks(b, quantity, price, costs).Ok?
    ensures var (after, op) := SellBooks(b, quantity, price, costs).value;
            && Reports(op, quantity, price, costs)
            && after.cash == b.cash + (op.notional - costs.Total()) && after.inventory == b.inventory - quantity
  {
    hide Costs.Total, Allocated;
  }

  /** One execution moves exactly the fill's cash and quantity, and its fill carries the order. */
  lemma ExecuteMoves(order: PendingOrder, candle: Candle, price: real, b: Books, profile: CostProfile)
    requires Execute(order, candle, price, b, profile).Ok?
    ensures var (after, f) := Execute(order, candle, price, b, profile).value;
            && after.cash == b.cash + CashIn(f) && after.inventory == b.inventory + QuantityIn(f)
            && f.side == order.side && f.kind == order.kind && f.quantity == order.quantity && f.price == price
            && f.timestamp == candle.timestamp && f.notional == order.quantity * price && f.costs == FillCosts(order, price, profile)
  {
    hide FillCosts, BuyBooks, SellBooks, Costs.Total;
    if order.side == Buy {
      BuyMoves(b, order.quantity, price, FillCosts(order, price, profile));
    } else {
      SellMoves(b, order.quantity, price, FillCosts(order, price, profile));
    }
  }

  lemma Charged(order: PendingOrder, price: real, f: Fill, profile: CostProfile)
    requires f.kind == order.kind && f.quantity == order.quantity && f.price == price
    requires f.notional == order.quantity * price && f.costs == FillCosts(order, price, profile)
    ensures ChargedFor(f, profile)
  {
  }

  lemma ExecuteFlows(order: PendingOrder, candle: Candle, price: real, b: Books, fills: seq<Fill>, cfg: Config)
    requires FlowsOk(b, fills, cfg) && Execute(order, candle, price, b, cfg.costs).Ok?
    ensures var (after, f) := Execute(order, candle, price, b, cfg.costs).value;
            && FlowsOk(after, fills + [f], cfg) && ChargedFor(f, cfg.costs)
            && f.side == order.side && f.kind == order.kind && f.price == price && f.timestamp == candle.timestamp
  {
    hide Execute, FillCosts, ChargedFor, CashIn, QuantityIn;
    var f := Execute(order, candle, price, b, cfg.costs).value.1;
    ExecuteMoves(order, candle, price, b, cfg.costs);
    Charged(order, price, f, cfg.costs);
    assert (fills + [f])[..|fills|] == fills;
  }

  // ---- Every run ----

  /** The fills from a place on are fair fills of the bar. */
  ghost predicate FairFrom(fills: seq<Fill>, from: nat, candle: Candle, profile: CostProfile) {
    forall i :: from <= i < |fills| ==> FairFill(fills[i], candle, profile)
  }

  lemma MatchOneIsFair(order: PendingOrder, index: nat, candle: Candle, cfg: Config, m: Matched, from: nat)
    requires CandleOk(candle) && FlowsOk(m.books, m.fills, cfg) && from <= |m.fills| && FairFrom(m.fills, from, candle, cfg.costs)
    ensures var n := MatchOne(order, index, candle, cfg.costs, m);
            FlowsOk(n.books, n.fills, cfg) && FairFrom(n.fills, from, candle, cfg.costs) && m.fills <= n.fills
  {
    hide Execute, FlowsOk, FillPrice, Nearest, ChargedFor;
    var price := FillPrice(order, candle);
    if price.Some? && Execute(order, candle, price.value, m.books, cfg.costs).Ok? {
      FilledIffAcceptable(order, candle);
      ExecuteFlows(order, candle, price.value, m.books, m.fills, cfg);
    }
  }

  lemma {:induction false} MatchAllIsFair(orders: seq<PendingOrder>, index: nat, candle: Candle, cfg: Config, m: Matched)
    requires CandleOk(candle) && FlowsOk(m.books, m.fills, cfg)
    ensures var n := MatchAll(orders, index, candle, cfg.costs, m);
            FlowsOk(n.books, n.fills, cfg) && FairFrom(n.fills, |m.fills|, candle, cfg.costs) && m.fills <= n.fills
  {
    hide MatchOne, FlowsOk, FairFill, CandleOk;
    if orders != [] {
      var init, last := orders[..|orders| - 1], orders[|orders| - 1];
      MatchAllIsFair(init, index, candle, cfg, m);
      MatchOneIsFair(last, index, candle, cfg, MatchAll(init, index, candle, cfg.costs, m), |m.fills|);
    }
  }

  /** Every fill of a run is fair at some bar, and cash and inventory are exactly what the fills moved. */
  lemma {:induction false} EveryFillIsFair<S>(cfg: Config, bars: seq<Candle>, strategy: Strategy<S>, s: S)
    requires (forall c <- bars :: CandleOk(c)) && After(cfg, bars, strategy, s).Some?
    ensures var r := After(cfg, bars, strategy, s).value;
            && r.books.cash == cfg.startingCash + CashFlow(r.fills) && r.books.inventory == QuantityFlow(r.fills)
            && forall f <- r.fills :: exists c <- bars :: FairFill(f, c, cfg.costs)
  {
    hide MatchAll, CandleOk, FairFill, ApplyIntents, SnapshotOf, Drawdown, IntentOk, BooksOk;
    if bars != [] {
      var init, last := bars[..|bars| - 1], bars[|bars| - 1];
      EveryFillIsFair(cfg, init, strategy, s);
      var before := After(cfg, init, strategy, s).value;
      var m := Matched(before.books, [], before.fills, before.rejections, before.expired);
      MatchAllIsFair(before.pending, |init|, last, cfg, m);
      var r := After(cfg, bars, strategy, s).value;
      assert r.fills == MatchAll(before.pending, |init|, last, cfg.costs, m).fills;
      forall f | f in r.fills ensures exists c <- bars :: FairFill(f, c, cfg.costs) {
        var i :| 0 <= i < |r.fills| && r.fills[i] == f;
        if i < |before.fills| {
          assert f == before.fills[i] && f in before.fills;
          var c :| c in init && FairFill(f, c, cfg.costs);
          assert c in bars;
        } else {
          assert FairFill(f, last, cfg.costs) && last in bars;
        }
      }
    }
  }
}
