/** The grid and dollar-cost-averaging strategies, and what every replay under them keeps
    (research/rea_engines/strategies.py). */
module Strategies {
  import opened Prelude
  import opened Accounting
  import opened Replay
  import opened ReplayRuns

  // ---- Grid ----

  datatype GridConfig = GridConfig(lower: real, upper: real, levels: int, quotePerOrder: real, takeProfit: real)

  predicate GridOk(g: GridConfig) {
    g.lower > 0.0 && g.upper > g.lower && g.quotePerOrder > 0.0 && g.takeProfit > 0.0 && g.levels >= 2
  }

  function GridStep(g: GridConfig): real
    requires g.levels >= 2
  {
    (g.upper - g.lower) / (g.levels - 1) as real
  }

  function Level(g: GridConfig, i: int): real
    requires g.levels >= 2
  {
    g.lower + GridStep(g) * i as real
  }

  /** The level index the entry settles on. */
  function EntryIndex(g: GridConfig, close: real): int
    requires GridOk(g)
  {
    GridStepPositive(g);
    var raw := ((close - g.lower) / GridStep(g)).Floor;
    var index := Min(g.levels - 1, if raw > 0 then raw else 0);
    if Level(g, index) >= close then index - 1 else index
  }

  /** The entry price the strategy asks for, if any. */
  function GridEntry(g: GridConfig, close: real): (r: Option<real>)
    requires GridOk(g)
    ensures r.Some? ==> r.value >= g.lower
  {
    if close <= g.lower then None
    else
      var index := EntryIndex(g, close);
      var price := Level(g, index);
      if index < 0 || price < g.lower || price > g.upper then None else Some(price)
  }

  lemma GridStepPositive(g: GridConfig)
    requires GridOk(g)
    ensures GridStep(g) > 0.0
  {
  }

  /** The levels divide the range evenly, both ends included. */
  lemma LevelsAreEven(g: GridConfig, i: int)
    requires GridOk(g)
    ensures Level(g, 0) == g.lower && Level(g, g.levels - 1) == g.upper
    ensures (Level(g, i + 1) - Level(g, i)) * (g.levels - 1) as real == g.upper - g.lower
  {
    var step := GridStep(g);
    assert step * (g.levels - 1) as real == g.upper - g.lower;
    OneMore(step, i);
  }

  lemma OneMore(step: real, i: int)
    ensures step * (i + 1) as real - step * i as real == step
  {
    assert (i + 1) as real == i as real + 1.0;
  }

  lemma LevelBounds(g: GridConfig, i: int)
    requires GridOk(g) && 0 <= i <= g.levels - 1
    ensures g.lower <= Level(g, i) <= g.upper
  {
    var step, n := GridStep(g), (g.levels - 1) as real;
    GridStepPositive(g);
    assert step * n == g.upper - g.lower;
    Scaled(step, i as real, n);
    Scaled(step, 0.0, i as real);
  }

  lemma Scaled(step: real, x: real, y: real)
    requires step > 0.0
    ensures x <= y ==> step * x <= step * y
    ensures x < y ==> step * x < step * y
  {
  }

  lemma Quotient(a: real, step: real)
    requires step > 0.0
    ensures var n := (a / step).Floor; step * n as real <= a < step * (n + 1) as real
  {
    var q, n := a / step, (a / step).Floor;
    Cancels(a, step);
    assert n as real <= q < n as real + 1.0 == (n + 1) as real;
    Scaled(step, n as real, q);
    var above: real := (n + 1) as real;
    Scaled(step, q, above);
    assert step * q == a;
    assert step * n as real <= a;
    assert a < step * above;
    assert a < step * (n + 1) as real;
  }

  lemma Cancels(a: real, step: real)
    requires step > 0.0
    ensures step * (a / step) == a
  {
  }

  lemma LevelsRise(g: GridConfig, i: int, j: int)
    requires GridOk(g)
    ensures i <= j ==> Level(g, i) <= Level(g, j)
  {
    GridStepPositive(g);
    Scaled(GridStep(g), i as real, j as real);
  }

  lemma EntryIndexIs(g: GridConfig, close: real)
    requires GridOk(g) && close > g.lower
    ensures var k := EntryIndex(g, close);
            0 <= k < g.levels && Level(g, k) < close && (k == g.levels - 1 || Level(g, k + 1) >= close)
  {
    var step := GridStep(g);
    GridStepPositive(g);
    Quotient(close - g.lower, step);
    var raw := ((close - g.lower) / step).Floor;
    assert raw >= 0 by { if raw < 0 { Scaled(step, (raw + 1) as real, 0.0); } }
    Scaled(step, (g.levels - 1) as real, raw as real);
    Scaled(step, (raw - 1) as real, raw as real);
  }

  /** The grid enters at the highest of its levels strictly below the close, whenever there is one. */
  lemma GridEntryIsHighestBelow(g: GridConfig, close: real)
    requires GridOk(g)
    ensures GridEntry(g, close).Some? <==> close > g.lower
    ensures GridEntry(g, close).Some? ==>
              var price := GridEntry(g, close).value;
              && g.lower <= price <= g.upper && price < close
              && (exists k :: 0 <= k < g.levels && price == Level(g, k))
              && (forall i :: 0 <= i < g.levels && Level(g, i) < close ==> Level(g, i) <= price)
  {
    if close > g.lower {
      hide Level, EntryIndex;
      var k := EntryIndex(g, close);
      EntryIndexIs(g, close);
      LevelBounds(g, k);
      forall i | 0 <= i < g.levels && Level(g, i) < close ensures Level(g, i) <= Level(g, k) {
        LevelsRise(g, i, k);
        if i > k { LevelsRise(g, k + 1, i); }
      }
    }
  }

  function TargetPrice(average: real, takeProfit: real): real { average * (1.0 + takeProfit) }

  /** `GridStrategy.on_candle`; it has no state of its own. */
  function GridIntents(g: GridConfig, candle: Candle, shot: Snapshot, open: seq<PendingOrder>): seq<Intent>
    requires GridOk(g)
  {
    if open != [] then []
    else if shot.inventory > 0.0 then
      [Submit(Sell, Limit(TargetPrice(shot.averageEntry, g.takeProfit)), shot.inventory, None, "grid-take-profit")]
    else
      match GridEntry(g, candle.close)
      case None => []
      case Some(price) => [Submit(Buy, Limit(price), g.quotePerOrder / price, None, "grid-entry")]
  }

  function Grid(g: GridConfig): Strategy<()>
    requires GridOk(g)
  {
    (s: (), candle, shot, open) => Some(((), GridIntents(g, candle, shot, open)))
  }

  // ---- Dollar-cost averaging ----

  datatype DcaConfig = DcaConfig(initialQuote: real, dcaQuote: real, adverseStep: real, takeProfit: real, maxAdds: nat)

  predicate DcaOk(d: DcaConfig) {
    d.initialQuote > 0.0 && d.dcaQuote > 0.0 && 0.0 < d.adverseStep < 1.0 && d.takeProfit > 0.0
  }

  datatype DcaState = DcaState(lastInventory: real, addCount: nat)

  function IdsOnSide(open: seq<PendingOrder>, side: Side): seq<PendingOrder> {
    if open == [] then [] else (if open[0].side == side then [open[0]] else []) + IdsOnSide(open[1..], side)
  }

  function CancelAll(orders: seq<PendingOrder>, tag: string): seq<Intent> {
    if orders == [] then [] else [Cancel(orders[0].id, tag)] + CancelAll(orders[1..], tag)
  }

  function NextAddPrice(d: DcaConfig, average: real, count: nat): real {
    average * (1.0 - d.adverseStep * (count + 1) as real)
  }

  /** What the strategy remembers of the inventory it sees. */
  function Remember(s: DcaState, inventory: real): DcaState {
    if inventory <= 0.0 then DcaState(0.0, 0)
    else DcaState(inventory, if s.lastInventory <= 0.0 then 0 else if inventory > s.lastInventory then s.addCount + 1 else s.addCount)
  }

  /** The intents for one candle; a division by zero raises. */
  function DcaIntents(d: DcaConfig, count: nat, candle: Candle, shot: Snapshot, open: seq<PendingOrder>): Option<seq<Intent>> {
    if shot.inventory <= 0.0 then
      if open != [] then Some([])
      else if candle.close == 0.0 then None
      else Some([Submit(Buy, Market, d.initialQuote / candle.close, None, "dca-initial")])
    else
      var buys, sells := IdsOnSide(open, Buy), IdsOnSide(open, Sell);
      var target := TargetPrice(shot.averageEntry, d.takeProfit);
      var sale := Submit(Sell, Limit(target), shot.inventory, None, "dca-take-profit");
      var addPrice := NextAddPrice(d, shot.averageEntry, count);
      if candle.close >= target then
        Some(CancelAll(buys, "dca-take-profit-priority") + (if sells != [] then [] else [sale]))
      else if count < d.maxAdds && candle.close <= addPrice then
        if buys != [] then Some([])
        else if addPrice == 0.0 then None
        else Some(CancelAll(sells, "dca-adverse-add-priority") + [Submit(Buy, Limit(addPrice), d.dcaQuote / addPrice, None, "dca-add")])
      else if buys != [] || sells != [] then Some([])
      else Some([sale])
  }

  /** `DCAStrategy.on_candle`. */
  function Dca(d: DcaConfig): Strategy<DcaState> {
    (s: DcaState, candle: Candle, shot: Snapshot, open: seq<PendingOrder>) =>
      var now := Remember(s, shot.inventory);
      match DcaIntents(d, now.addCount, candle, shot, open)
      case None => None
      case Some(intents) => Some((now, intents))
  }

  /** The strategy object with the two fields it updates on every candle. */
  class DcaStrategy {
    const config: DcaConfig
    var lastInventoryQty: real
    var addCount: nat

    function State(): DcaState
      reads this
    {
      DcaState(lastInventoryQty, addCount)
    }

    constructor (config: DcaConfig)
      ensures this.config == config && State() == DcaState(0.0, 0)
    {
      this.config, lastInventoryQty, addCount := config, 0.0, 0;
    }

    method OnCandle(candle: Candle, shot: Snapshot, open: seq<PendingOrder>) returns (r: Option<seq<Intent>>)
      modifies this
      ensures State() == Remember(old(State()), shot.inventory)
      ensures match Dca(config)(old(State()), candle, shot, open)
              case Some((next, intents)) => next == State() && r == Some(intents)
              case None => r.None?
    {
      hide IdsOnSide, CancelAll, NextAddPrice, TargetPrice;
      var quantity := shot.inventory;
      if quantity <= 0.0 {
        lastInventoryQty, addCount := 0.0, 0;
        if open != [] { return Some([]); }
        if candle.close == 0.0 { return None; }
        return Some([Submit(Buy, Market, config.initialQuote / candle.close, None, "dca-initial")]);
      }
      if lastInventoryQty <= 0.0 { addCount := 0; }
      else if quantity > lastInventoryQty { addCount := addCount + 1; }
      lastInventoryQty := quantity;
      var buys, sells := IdsOnSide(open, Buy), IdsOnSide(open, Sell);
      var target := TargetPrice(shot.averageEntry, config.takeProfit);
      var sale := Submit(Sell, Limit(target), quantity, None, "dca-take-profit");
      if candle.close >= target {
        var cancels := CancelAll(buys, "dca-take-profit-priority");
        assert cancels + [] == cancels;
        if sells != [] { return Some(cancels); }
        return Some(cancels + [sale]);
      }
      var addPrice := NextAddPrice(config, shot.averageEntry, addCount);
      if addCount < config.maxAdds && candle.close <= addPrice {
        if buys != [] { return Some([]); }
        if addPrice == 0.0 { return None; }
        var cancels := CancelAll(sells, "dca-adverse-add-priority");
        return Some(cancels + [Submit(Buy, Limit(addPrice), config.dcaQuote / addPrice, None, "dca-add")]);
      }
      if buys != [] || sells != [] { return Some([]); }
      return Some([sale]);
    }
  }

  // ---- What every replay under one of them keeps ----

  /** At most one order is open, and a sale is for exactly what is held. */
  ghost predicate OneOpen(pending: seq<PendingOrder>, b: Books) {
    |pending| <= 1 && forall o <- pending :: o.side == Sell ==> o.quantity == b.inventory && b.inventory > 0.0
  }

  ghost predicate NoShort(rejections: seq<Rejection>) {
    forall x <- rejections :: x.reason != Refused(WouldShort) && x.reason != CancelTargetNotOpen
  }

  lemma ExecuteSingle(order: PendingOrder, candle: Candle, price: real, b: Books, profile: CostProfile)
    requires BooksOk(b) && order.quantity > 0.0 && (order.side == Sell ==> order.quantity == b.inventory)
    ensures match Execute(order, candle, price, b, profile)
            case Err(e) => e != WouldShort
            case Ok(done) => BooksOk(done.0) && if order.side == Sell then done.0.inventory == 0.0 else done.0.inventory > b.inventory
  {
    hide BooksOk, FillCosts, Costs.Total;
    var costs := FillCosts(order, price, profile);
    if order.side == Buy {
      if BuyBooks(b, order.quantity, price, costs).Ok? { BuyKeepsBooks(b, order.quantity, price, costs); }
    } else {
      if SellBooks(b, order.quantity, price, costs).Ok? { SellKeepsBooks(b, order.quantity, price, costs); }
    }
  }

  /** A bar's matching: the open order stays with the books untouched, or it is gone; a filled sale leaves nothing held, a
      filled purchase more than before. */
  lemma MatchOneOpen<S>(cfg: Config, r: Run<S>, index: nat, candle: Candle)
    requires OneOpen(r.pending, r.books) && NoShort(r.rejections) && BooksOk(r.books) && OrdersOk(r.pending, index, r.sequence)
    ensures var m := MatchBar(cfg, r, index, candle);
            && m.strategy == r.strategy && OneOpen(m.pending, m.books) && NoShort(m.rejections) && BooksOk(m.books)
            && (m.pending != [] ==> |r.pending| == 1 && m.pending[0].side == r.pending[0].side && m.books == r.books)
            && (m.books != r.books ==> |r.pending| == 1 && m.pending == [])
            && (m.books != r.books && r.pending[0].side == Sell ==> m.books.inventory == 0.0)
            && (m.books != r.books && r.pending[0].side == Buy ==> m.books.inventory > r.books.inventory)
  {
    hide Execute, FillPrice, BooksOk;
    var start := Matched(r.books, [], r.fills, r.rejections, r.expired);
    if r.pending != [] {
      var o := r.pending[0];
      assert o in r.pending && OrderOk(o, index, r.sequence);
      assert r.pending == [o] && r.pending[..0] == [];
      assert MatchAll(r.pending, index, candle, cfg.costs, start) == MatchOne(o, index, candle, cfg.costs, start);
      var price := FillPrice(o, candle);
      if price.Some? { ExecuteSingle(o, candle, price.value, r.books, cfg.costs); }
    }
  }

  lemma ApplyNone(index: nat, candle: Candle, ttl: Option<nat>, b: Book)
    ensures ApplyIntents([], index, candle, ttl, b) == b
  {
  }

  lemma ApplyOne(x: Intent, index: nat, candle: Candle, ttl: Option<nat>, b: Book)
    ensures ApplyIntents([x], index, candle, ttl, b) == ApplyIntent(x, index, candle, ttl, b)
  {
    assert [x][..0] == [];
  }

  lemma ApplyTwo(x: Intent, y: Intent, index: nat, candle: Candle, ttl: Option<nat>, b: Book)
    ensures ApplyIntents([x, y], index, candle, ttl, b) == ApplyIntent(y, index, candle, ttl, ApplyIntent(x, index, candle, ttl, b))
  {
    assert [x, y][..1] == [x];
    ApplyOne(x, index, candle, ttl, b);
  }

  lemma CancelOnly(o: PendingOrder, tag: string, index: nat, candle: Candle, ttl: Option<nat>, b: Book)
    requires b.pending == [o]
    ensures var a := ApplyIntent(Cancel(o.id, tag), index, candle, ttl, b); a.pending == [] && a.rejections == b.rejections
  {
    assert Find(b.pending, o.id) == Some(o);
    assert b.pending[1..] == [] && Without([], o.id) == [];
    assert Without(b.pending, o.id) == [];
  }

  lemma AverageIsPositive(b: Books)
    requires BooksOk(b) && b.inventory > 0.0
    ensures AverageEntry(b) > 0.0
  {
  }

  lemma ProductPositive(a: real, b: real)
    requires a > 0.0 && b > 0.0
    ensures a * b > 0.0 && a / b > 0.0
  {
  }

  // ---- Grid runs ----

  ghost predicate GridHolds(r: Run<()>) { OneOpen(r.pending, r.books) && NoShort(r.rejections) }

  lemma GridDecides(g: GridConfig, cfg: Config, m: Run<()>, index: nat, candle: Candle)
    requires GridOk(g) && BooksOk(m.books) && GridHolds(m)
    ensures Decide(cfg, m, index, candle, Grid(g)).Some? && GridHolds(Decide(cfg, m, index, candle, Grid(g)).value)
  {
    hide BooksOk, GridEntry, AverageEntry;
    var shot := SnapshotOf(m.books, candle.close);
    var intents := GridIntents(g, candle, shot, m.pending);
    var b := Book(m.pending, m.sequence, m.rejections, m.cancelled);
    if shot.inventory > 0.0 {
      AverageIsPositive(m.books);
      ProductPositive(shot.averageEntry, 1.0 + g.takeProfit);
    }
    if GridEntry(g, candle.close).Some? { ProductPositive(g.quotePerOrder, GridEntry(g, candle.close).value); }
    if intents == [] {
      ApplyNone(index, candle, cfg.defaultTtl, b);
    } else {
      ApplyOne(intents[0], index, candle, cfg.defaultTtl, b);
      assert intents == [intents[0]];
    }
  }

  /** A grid never fails a replay, never has two orders open and never has a sale refused as short. */
  lemma {:induction false} EveryGridRun(g: GridConfig, cfg: Config, bars: seq<Candle>)
    requires GridOk(g) && ConfigOk(cfg)
    ensures After(cfg, bars, Grid(g), ()).Some? && GridHolds(After(cfg, bars, Grid(g), ()).value)
  {
    hide GridHolds, Decide, MatchBar;
    if bars == [] {
      assert GridHolds(Opening(cfg, ())) by { EmptyGridHolds(cfg); }
    } else {
      var init, k := bars[..|bars| - 1], |bars| - 1;
      EveryGridRun(g, cfg, init);
      EveryRunIsOk(cfg, init, Grid(g), ());
      var r := After(cfg, init, Grid(g), ()).value;
      GridMatches(cfg, r, k, bars[k]);
      GridDecides(g, cfg, Observe(MatchBar(cfg, r, k, bars[k]), bars[k]), k, bars[k]);
    }
  }

  lemma EmptyGridHolds(cfg: Config)
    ensures GridHolds(Opening(cfg, ()))
  {
  }

  lemma GridMatches(cfg: Config, r: Run<()>, index: nat, candle: Candle)
    requires GridHolds(r) && RunOk(r, cfg, index)
    ensures GridHolds(Observe(MatchBar(cfg, r, index, candle), candle)) && BooksOk(Observe(MatchBar(cfg, r, index, candle), candle).books)
  {
    hide BooksOk, OneOpen, NoShort, MatchBar, SnapshotOf, Drawdown, OrdersOk;
    MatchOneOpen(cfg, r, index, candle);
  }

  // ---- Averaging runs ----

  ghost predicate DcaHolds(d: DcaConfig, r: Run<DcaState>) {
    && OneOpen(r.pending, r.books) && NoShort(r.rejections)
    && r.strategy.lastInventory == r.books.inventory && r.strategy.addCount <= d.maxAdds
    && MayAdd(d, r.pending, r.books.inventory, r.strategy.addCount)
  }

  /** An open purchase that adds to a position is within the allowed number of adds. */
  ghost predicate MayAdd(d: DcaConfig, pending: seq<PendingOrder>, inventory: real, count: nat) {
    forall o <- pending :: o.side == Buy && inventory > 0.0 ==> count < d.maxAdds
  }

  lemma DcaSides(open: seq<PendingOrder>)
    requires |open| <= 1
    ensures IdsOnSide(open, Buy) == (if open != [] && open[0].side == Buy then open else [])
    ensures IdsOnSide(open, Sell) == (if open != [] && open[0].side == Sell then open else [])
    ensures forall tag :: CancelAll(open, tag) == if open == [] then [] else [Cancel(open[0].id, tag)]
  {
    if open != [] { assert open[1..] == [] && open == [open[0]]; }
  }

  /** A submission the invariant allows. */
  ghost predicate Allowed(d: DcaConfig, sub: Intent, inventory: real, count: nat) {
    && sub.Submit? && IntentOk(sub)
    && (sub.side == Sell ==> sub.quantity == inventory && inventory > 0.0)
    && (sub.side == Buy && inventory > 0.0 ==> count < d.maxAdds)
  }

  /** The strategy does nothing, or submits one order after cancelling whatever is open. */
  ghost predicate Replaces(intents: seq<Intent>, open: seq<PendingOrder>, sub: Intent) {
    if open == [] then intents == [sub]
    else |intents| == 2 && intents[0].Cancel? && intents[0].orderId == open[0].id && intents[1] == sub
  }

  lemma DcaShape(d: DcaConfig, count: nat, b: Books, candle: Candle, open: seq<PendingOrder>) returns (sub: Intent)
    requires DcaOk(d) && BooksOk(b) && candle.close > 0.0 && OneOpen(open, b)
    ensures DcaIntents(d, count, candle, SnapshotOf(b, candle.close), open).Some?
    ensures var intents := DcaIntents(d, count, candle, SnapshotOf(b, candle.close), open).value;
            intents == [] || (Allowed(d, sub, b.inventory, count) && Replaces(intents, open, sub))
  {
    hide BooksOk, AverageEntry, NextAddPrice, IdsOnSide, CancelAll;
    var shot := SnapshotOf(b, candle.close);
    DcaSides(open);
    DcaSides([]);
    ProductPositive(d.initialQuote, candle.close);
    if shot.inventory > 0.0 {
      AverageIsPositive(b);
      ProductPositive(shot.averageEntry, 1.0 + d.takeProfit);
      var addPrice := NextAddPrice(d, shot.averageEntry, count);
      if addPrice > 0.0 { ProductPositive(d.dcaQuote, addPrice); }
    }
    var intents := DcaIntents(d, count, candle, shot, open).value;
    sub := if intents == [] then Cancel(0, "") else intents[|intents| - 1];
  }

  lemma ReplaceKeeps(d: DcaConfig, count: nat, b: Books, index: nat, candle: Candle, ttl: Option<nat>, k: Book,
                     intents: seq<Intent>, sub: Intent)
    requires OneOpen(k.pending, b) && Allowed(d, sub, b.inventory, count) && Replaces(intents, k.pending, sub)
    ensures var a := ApplyIntents(intents, index, candle, ttl, k);
            && (forall i <- intents :: IntentOk(i))
            && OneOpen(a.pending, b) && a.rejections == k.rejections && MayAdd(d, a.pending, b.inventory, count)
  {
    hide ApplyIntents, Find, Without;
    if k.pending == [] {
      ApplyOne(sub, index, candle, ttl, k);
    } else {
      assert k.pending == [k.pending[0]];
      assert intents == [intents[0], sub];
      ApplyTwo(intents[0], sub, index, candle, ttl, k);
      CancelOnly(k.pending[0], intents[0].tag, index, candle, ttl, k);
      assert intents[0] == Cancel(k.pending[0].id, intents[0].tag);
    }
  }

  lemma DcaDecides(d: DcaConfig, cfg: Config, m: Run<DcaState>, index: nat, candle: Candle)
    requires DcaOk(d) && BooksOk(m.books) && candle.close > 0.0 && OneOpen(m.pending, m.books) && NoShort(m.rejections)
    requires var now := Remember(m.strategy, m.books.inventory);
             now.addCount <= d.maxAdds && MayAdd(d, m.pending, m.books.inventory, now.addCount)
    ensures Decide(cfg, m, index, candle, Dca(d)).Some? && DcaHolds(d, Decide(cfg, m, index, candle, Dca(d)).value)
  {
    hide OneOpen, DcaIntents, MayAdd, NoShort, ApplyIntents, IntentOk;
    var now := Remember(m.strategy, m.books.inventory);
    var k := Book(m.pending, m.sequence, m.rejections, m.cancelled);
    var sub := DcaShape(d, now.addCount, m.books, candle, m.pending);
    var intents := DcaIntents(d, now.addCount, candle, SnapshotOf(m.books, candle.close), m.pending).value;
    if intents == [] {
      ApplyNone(index, candle, cfg.defaultTtl, k);
    } else {
      ReplaceKeeps(d, now.addCount, m.books, index, candle, cfg.defaultTtl, k, intents, sub);
    }
  }

  lemma DcaMatches(d: DcaConfig, cfg: Config, r: Run<DcaState>, index: nat, candle: Candle)
    requires DcaHolds(d, r) && RunOk(r, cfg, index)
    ensures var m := Observe(MatchBar(cfg, r, index, candle), candle);
            var now := Remember(m.strategy, m.books.inventory);
            && OneOpen(m.pending, m.books) && NoShort(m.rejections) && BooksOk(m.books)
            && now.addCount <= d.maxAdds && MayAdd(d, m.pending, m.books.inventory, now.addCount)
  {
    hide BooksOk, NoShort, MatchBar, SnapshotOf, Drawdown, OrdersOk;
    MatchOneOpen(cfg, r, index, candle);
    if r.pending != [] { assert r.pending[0] in r.pending; }
    NotNegative(r.books);
    NotNegative(MatchBar(cfg, r, index, candle).books);
  }

  lemma NotNegative(b: Books)
    ensures BooksOk(b) ==> b.inventory >= 0.0
  {
  }

  /** Averaging never fails a replay, never has two orders open, never has a sale refused as short, and never adds more
      often than allowed. */
  lemma {:induction false} EveryDcaRun(d: DcaConfig, cfg: Config, bars: seq<Candle>)
    requires DcaOk(d) && ConfigOk(cfg) && forall c <- bars :: CandleOk(c)
    ensures After(cfg, bars, Dca(d), DcaState(0.0, 0)).Some? && DcaHolds(d, After(cfg, bars, Dca(d), DcaState(0.0, 0)).value)
  {
    hide DcaHolds, Decide, MatchBar, OneOpen, MayAdd, NoShort, Remember, BooksOk;
    var s := DcaState(0.0, 0);
    if bars == [] {
      EmptyDcaHolds(d, cfg);
    } else {
      var init, k := bars[..|bars| - 1], |bars| - 1;
      assert forall c <- init :: c in bars;
      assert bars[k] in bars;
      EveryDcaRun(d, cfg, init);
      EveryRunIsOk(cfg, init, Dca(d), s);
      var r := After(cfg, init, Dca(d), s).value;
      DcaMatches(d, cfg, r, k, bars[k]);
      DcaDecides(d, cfg, Observe(MatchBar(cfg, r, k, bars[k]), bars[k]), k, bars[k]);
    }
  }

  lemma EmptyDcaHolds(d: DcaConfig, cfg: Config)
    ensures DcaHolds(d, Opening(cfg, DcaState(0.0, 0)))
  {
  }
}
