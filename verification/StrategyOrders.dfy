/** What the grid and dollar-cost-averaging strategies have on order after every bar, and what their sales gain
    (research/rea_engines/strategies.py). */
module StrategyOrders {
  import opened Prelude
  import opened Accounting
  import opened Replay
  import opened ReplayRuns
  import opened ReplayFills
  import opened Strategies

  // ---- One open order and one bar ----

  /** Before charges the sale earned at least this share of what it cost to buy what it sold. */
  predicate Gains(f: Fill, share: real) {
    f.side == Sell ==>
      var earned := f.notional - f.costs.Total();
      earned - f.realizedPnl > 0.0 && f.realizedPnl + f.costs.Total() >= share * (earned - f.realizedPnl)
  }

  /** A sale of everything held, at a limit that is this share above what it cost. */
  predicate SellsAll(o: PendingOrder, b: Books, share: real) {
    && o.side == Sell && o.kind.Limit? && o.quantity == b.inventory && b.inventory > 0.0
    && o.kind.price * b.inventory == (1.0 + share) * b.basis
  }

  /** What one bar's matching does with at most one open order. */
  ghost predicate Matches<S>(r: Run<S>, m: Run<S>) {
    && m.strategy == r.strategy
    && if m.fills == r.fills then
         && m.books == r.books
         && (m.pending == [] || (|m.pending| == 1 == |r.pending| && m.pending[0] == r.pending[0].(barsWaited := m.pending[0].barsWaited)))
       else
         && m.pending == [] && |r.pending| == 1 && |m.fills| == |r.fills| + 1 && m.fills[..|r.fills|] == r.fills
         && FillOf(m.fills[|r.fills|], r.pending[0], r.books, m.books)
  }

  ghost predicate FillOf(f: Fill, o: PendingOrder, b: Books, after: Books) {
    && f.side == o.side && f.quantity == o.quantity && Accepts(o.side, o.kind, f.price) && f.notional == f.quantity * f.price
    && (o.side == Buy ==> after.inventory == b.inventory + o.quantity)
    && (o.side == Sell && o.quantity == b.inventory ==>
          after.inventory == 0.0 && f.notional - f.costs.Total() - f.realizedPnl == b.basis)
  }

  lemma OneMatched<S>(cfg: Config, r: Run<S>, index: nat, candle: Candle)
    requires OneOpen(r.pending, r.books) && BooksOk(r.books) && OrdersOk(r.pending, index, r.sequence)
    ensures Matches(r, MatchBar(cfg, r, index, candle))
  {
    hide Execute, FillPrice, BooksOk, FillOf;
    var start := Matched(r.books, [], r.fills, r.rejections, r.expired);
    if r.pending != [] {
      var o := r.pending[0];
      assert OrderOk(o, index, r.sequence);
      assert r.pending == [o] && r.pending[..0] == [];
      assert MatchAll(r.pending, index, candle, cfg.costs, start) == MatchOne(o, index, candle, cfg.costs, start);
      var price := FillPrice(o, candle);
      if price.Some? && Execute(o, candle, price.value, r.books, cfg.costs).Ok? {
        FillFits(o, candle, price.value, r.books, cfg.costs);
      }
    }
  }

  lemma FillFits(o: PendingOrder, candle: Candle, price: real, b: Books, profile: CostProfile)
    requires BooksOk(b) && FillPrice(o, candle) == Some(price) && Execute(o, candle, price, b, profile).Ok?
    ensures var (after, f) := Execute(o, candle, price, b, profile).value; FillOf(f, o, b, after)
  {
    hide FillCosts, BooksOk, Costs.Total;
    var costs := FillCosts(o, price, profile);
    if o.side == Buy {
      BuyMoves(b, o.quantity, price, costs);
    } else {
      SellMoves(b, o.quantity, price, costs);
      if o.quantity == b.inventory { ClosingSale(b, o.quantity, price, costs); }
    }
  }

  lemma ClosingSale(b: Books, quantity: real, price: real, costs: Costs)
    requires SellBooks(b, quantity, price, costs).Ok? && quantity == b.inventory
    ensures var (after, op) := SellBooks(b, quantity, price, costs).value;
            after.inventory == 0.0 && op.notional - costs.Total() - op.realizedPnl == b.basis && op.costs == costs
  {
  }

  lemma SaleGains(f: Fill, o: PendingOrder, b: Books, after: Books, share: real)
    requires BooksOk(b) && FillOf(f, o, b, after) && SellsAll(o, b, share)
    ensures Gains(f, share)
  {
    hide Costs.Total;
    Scaled(f.quantity, o.kind.price, f.price);
  }

  lemma PurchaseGains(f: Fill, share: real)
    requires f.side == Buy
    ensures Gains(f, share)
  {
  }

  lemma AtShareAbove(b: Books, mark: real, share: real, o: PendingOrder)
    requires BooksOk(b) && b.inventory > 0.0 && o.side == Sell && o.quantity == b.inventory
    requires o.kind == Limit(TargetPrice(SnapshotOf(b, mark).averageEntry, share))
    ensures SellsAll(o, b, share)
  {
    var average := SnapshotOf(b, mark).averageEntry;
    Product(average, 1.0 + share, b.inventory);
    assert average * b.inventory == b.basis by { SnapshotShows(b, mark); }
  }

  lemma Product(a: real, x: real, n: real)
    ensures (a * x) * n == x * (a * n)
  {
  }

  /** What the one order open after a bar keeps until it is filled or gone. */
  lemma BarMatched<S>(cfg: Config, r: Run<S>, index: nat, candle: Candle)
    requires OneOpen(r.pending, r.books) && NoShort(r.rejections) && RunOk(r, cfg, index)
    ensures var m := Observe(MatchBar(cfg, r, index, candle), candle);
            Matches(r, m) && OneOpen(m.pending, m.books) && NoShort(m.rejections) && BooksOk(m.books) && m.books.inventory >= 0.0
  {
    hide Matches, OneOpen, NoShort, MatchBar, SnapshotOf, Drawdown, OrdersOk;
    OneMatched(cfg, r, index, candle);
    MatchOneOpen(cfg, r, index, candle);
    MatchesSeen(cfg, r, index, candle);
  }

  lemma MatchesSeen<S>(cfg: Config, r: Run<S>, index: nat, candle: Candle)
    requires Matches(r, MatchBar(cfg, r, index, candle))
    ensures Matches(r, Observe(MatchBar(cfg, r, index, candle), candle))
  {
    hide FillOf, MatchBar;
  }

  // ---- Grid ----

  /** The highest level of the grid strictly below the close. */
  ghost predicate HighestBelow(g: GridConfig, price: real, close: real)
    requires g.levels >= 2
  {
    && g.lower <= price < close && (exists k :: 0 <= k < g.levels && price == Level(g, k))
    && forall i :: 0 <= i < g.levels && Level(g, i) < close ==> Level(g, i) <= price
  }

  /** With nothing held a purchase for the configured amount at that level; otherwise a sale of everything at the profit. */
  ghost predicate GridOrder(g: GridConfig, o: PendingOrder, b: Books, close: real)
    requires g.levels >= 2
  {
    if b.inventory == 0.0 then
      && o.side == Buy && o.kind.Limit? && HighestBelow(g, o.kind.price, close) && o.quantity * o.kind.price == g.quotePerOrder
      && o.tag == "grid-entry"
    else SellsAll(o, b, g.takeProfit) && o.tag == "grid-take-profit"
  }

  ghost predicate GridPlan(g: GridConfig, r: Run<()>, bars: seq<Candle>)
    requires g.levels >= 2
  {
    && |r.pending| <= 1
    && (forall o <- r.pending :: o.submittedIndex < |bars| && GridOrder(g, o, r.books, bars[o.submittedIndex].close))
    && forall f <- r.fills :: Gains(f, g.takeProfit)
  }

  /** Nothing is on order only with nothing held and a close at or below the grid. */
  ghost predicate GridRests(g: GridConfig, r: Run<()>, candle: Candle) {
    r.pending == [] ==> r.books.inventory == 0.0 && candle.close <= g.lower
  }

  lemma GridPlanMatches(g: GridConfig, r: Run<()>, m: Run<()>, bars: seq<Candle>, candle: Candle)
    requires GridOk(g) && BooksOk(r.books) && Matches(r, m) && GridPlan(g, r, bars)
    ensures GridPlan(g, m, bars + [candle])
  {
    hide BooksOk, HighestBelow, SellsAll, Gains;
    if m.fills != r.fills {
      var o, f := r.pending[0], m.fills[|r.fills|];
      if o.side == Sell { GridSaleGains(g, r, m, bars); } else { PurchaseGains(f, g.takeProfit); }
      assert m.fills == r.fills + [f];
    } else if m.pending != [] {
      assert r.pending[0] in r.pending && m.pending == [m.pending[0]];
      SameOrder(r.pending[0], m.pending[0], r.books, g.takeProfit);
    }
  }

  lemma SameOrder(o: PendingOrder, p: PendingOrder, b: Books, share: real)
    requires p == o.(barsWaited := p.barsWaited)
    ensures SellsAll(o, b, share) == SellsAll(p, b, share)
  {
  }

  lemma GridSaleGains(g: GridConfig, r: Run<()>, m: Run<()>, bars: seq<Candle>)
    requires GridOk(g) && BooksOk(r.books) && Matches(r, m) && GridPlan(g, r, bars) && m.fills != r.fills && r.pending[0].side == Sell
    ensures Gains(m.fills[|r.fills|], g.takeProfit)
  {
    hide BooksOk, HighestBelow, FillOf, SellsAll, Gains;
    assert r.pending[0] in r.pending;
    SaleGains(m.fills[|r.fills|], r.pending[0], r.books, m.books, g.takeProfit);
  }

  lemma GridPlanDecides(g: GridConfig, cfg: Config, m: Run<()>, bars: seq<Candle>, index: nat, candle: Candle)
    requires GridOk(g) && BooksOk(m.books) && GridPlan(g, m, bars) && |bars| == index + 1 && bars[index] == candle
    requires Decide(cfg, m, index, candle, Grid(g)).Some?
    ensures var n := Decide(cfg, m, index, candle, Grid(g)).value; GridPlan(g, n, bars) && GridRests(g, n, candle)
  {
    hide BooksOk, GridEntry, AverageEntry, TargetPrice, Gains, IntentOk;
    var shot := SnapshotOf(m.books, candle.close);
    var intents := GridIntents(g, candle, shot, m.pending);
    var b := Book(m.pending, m.sequence, m.rejections, m.cancelled);
    if intents == [] {
      ApplyNone(index, candle, cfg.defaultTtl, b);
      GridEntryIsHighestBelow(g, candle.close);
      NotNegative(m.books);
    } else {
      ApplyOne(intents[0], index, candle, cfg.defaultTtl, b);
      assert intents == [intents[0]];
      GridSubmits(g, m.books, index, candle, cfg.defaultTtl, b);
    }
  }

  lemma GridSubmits(g: GridConfig, b: Books, index: nat, candle: Candle, ttl: Option<nat>, k: Book)
    requires GridOk(g) && BooksOk(b) && k.pending == [] && GridIntents(g, candle, SnapshotOf(b, candle.close), []) != []
    ensures var intent := GridIntents(g, candle, SnapshotOf(b, candle.close), [])[0];
            var a := ApplyIntent(intent, index, candle, ttl, k);
            |a.pending| == 1 && a.pending[0].submittedIndex == index && GridOrder(g, a.pending[0], b, candle.close)
  {
    hide BooksOk, GridEntry, AverageEntry, TargetPrice;
    var shot := SnapshotOf(b, candle.close);
    var a := ApplyIntent(GridIntents(g, candle, shot, [])[0], index, candle, ttl, k);
    NotNegative(b);
    if b.inventory > 0.0 {
      AtShareAbove(b, candle.close, g.takeProfit, a.pending[0]);
    } else {
      GridEntryIsHighestBelow(g, candle.close);
      Strategies.Cancels(g.quotePerOrder, a.pending[0].kind.price);
    }
  }

  /** After every bar of a grid replay: at most one order is open, either a purchase for the configured amount at the highest
      level strictly below the close of its bar, with nothing held, or a sale of everything held at the profit over its cost;
      none is open only with nothing held and the close at or below the grid; and every sale has earned its profit. */
  lemma {:induction false} EveryGridOrder(g: GridConfig, cfg: Config, bars: seq<Candle>)
    requires GridOk(g) && ConfigOk(cfg)
    ensures After(cfg, bars, Grid(g), ()).Some?
    ensures var r := After(cfg, bars, Grid(g), ()).value;
            GridPlan(g, r, bars) && (bars != [] ==> GridRests(g, r, bars[|bars| - 1]))
  {
    hide GridPlan, GridRests, Decide, MatchBar, Observe, Matches, BooksOk;
    EveryGridRun(g, cfg, bars);
    if bars == [] {
      NothingPlanned(g, cfg);
    } else {
      var init, k := bars[..|bars| - 1], |bars| - 1;
      EveryGridOrder(g, cfg, init);
      EveryGridRun(g, cfg, init);
      EveryRunIsOk(cfg, init, Grid(g), ());
      var r := After(cfg, init, Grid(g), ()).value;
      var m := Observe(MatchBar(cfg, r, k, bars[k]), bars[k]);
      BarMatched(cfg, r, k, bars[k]);
      assert init + [bars[k]] == bars;
      GridPlanMatches(g, r, m, init, bars[k]);
      GridPlanDecides(g, cfg, m, bars, k, bars[k]);
    }
  }

  lemma NothingPlanned(g: GridConfig, cfg: Config)
    requires GridOk(g)
    ensures GridPlan(g, Opening(cfg, ()), [])
  {
  }

  // ---- Averaging ----

  /** With nothing held a market purchase for the first amount; otherwise a sale of everything at the profit, or one more
      purchase, for the further amount, at the next step below cost, which the close had reached. */
  ghost predicate DcaOrder(d: DcaConfig, o: PendingOrder, b: Books, count: nat, close: real) {
    if b.inventory == 0.0 then o.side == Buy && o.kind.Market? && o.quantity * close == d.initialQuote && o.tag == "dca-initial"
    else if o.side == Sell then SellsAll(o, b, d.takeProfit) && o.tag == "dca-take-profit"
    else
      && o.kind.Limit? && o.kind.price * b.inventory == (1.0 - d.adverseStep * (count + 1) as real) * b.basis
      && o.quantity * o.kind.price == d.dcaQuote && close <= o.kind.price && count < d.maxAdds
  }

  /** The purchases since the last sale. */
  function Streak(fills: seq<Fill>): nat {
    if fills == [] || fills[|fills| - 1].side == Sell then 0 else Streak(fills[..|fills| - 1]) + 1
  }

  /** The first purchase of a position is no add. */
  predicate Counts(fills: seq<Fill>, inventory: real, count: nat) {
    if inventory == 0.0 then Streak(fills) == 0 && count == 0 else Streak(fills) == count + 1
  }

  ghost predicate DcaPlan(d: DcaConfig, r: Run<DcaState>, bars: seq<Candle>, count: nat) {
    && |r.pending| <= 1 && Counts(r.fills, r.books.inventory, count)
    && (forall o <- r.pending :: o.submittedIndex < |bars| && DcaOrder(d, o, r.books, count, bars[o.submittedIndex].close))
    && forall f <- r.fills :: Gains(f, d.takeProfit)
  }

  /** What is held is worth its cost and the profit. */
  predicate AtProfit(d: DcaConfig, b: Books, candle: Candle) {
    candle.close * b.inventory >= (1.0 + d.takeProfit) * b.basis
  }

  /** It has come down to the next step below its cost. */
  predicate AtNextStep(d: DcaConfig, count: nat, b: Books, candle: Candle) {
    candle.close * b.inventory <= (1.0 - d.adverseStep * (count + 1) as real) * b.basis
  }

  /** Which side the close calls for; in between, any. */
  predicate DcaSide(d: DcaConfig, count: nat, b: Books, candle: Candle, side: Side) {
    b.inventory > 0.0 ==>
      if AtProfit(d, b, candle) then side == Sell else count < d.maxAdds && AtNextStep(d, count, b, candle) ==> side == Buy
  }

  /** Always one order is open: the sale once the close has reached the profit, and the next purchase once it has come down to
      the next step and adds are left. */
  ghost predicate DcaRests(d: DcaConfig, r: Run<DcaState>, candle: Candle) {
    |r.pending| == 1 && DcaSide(d, r.strategy.addCount, r.books, candle, r.pending[0].side)
  }

  lemma StreakGrows(fills: seq<Fill>, f: Fill)
    ensures Streak(fills + [f]) == if f.side == Sell then 0 else Streak(fills) + 1
  {
    assert (fills + [f])[..|fills|] == fills;
  }

  lemma DcaPlanMatches(d: DcaConfig, r: Run<DcaState>, m: Run<DcaState>, bars: seq<Candle>, candle: Candle)
    requires BooksOk(r.books) && BooksOk(m.books) && Matches(r, m) && OneOpen(r.pending, r.books) && OrdersPositive(r.pending)
    requires DcaPlan(d, r, bars, r.strategy.addCount) && r.strategy.lastInventory == r.books.inventory
    ensures DcaPlan(d, m, bars + [candle], Remember(m.strategy, m.books.inventory).addCount)
  {
    hide BooksOk, SellsAll, Gains, Streak;
    NotNegative(r.books);
    NotNegative(m.books);
    if m.fills != r.fills {
      var o, f := r.pending[0], m.fills[|r.fills|];
      assert o in r.pending;
      if o.side == Sell { SaleGains(f, o, r.books, m.books, d.takeProfit); } else { PurchaseGains(f, d.takeProfit); }
      assert m.fills == r.fills + [f];
      StreakGrows(r.fills, f);
    } else if m.pending != [] {
      assert r.pending[0] in r.pending && m.pending == [m.pending[0]];
      SameOrder(r.pending[0], m.pending[0], r.books, d.takeProfit);
    }
  }

  ghost predicate OrdersPositive(pending: seq<PendingOrder>) { forall o <- pending :: o.quantity > 0.0 }

  /** The order a submission becomes at a bar. */
  function Placed(x: Intent, id: nat, index: nat, candle: Candle, ttl: Option<nat>): PendingOrder
    requires x.Submit?
  {
    PendingOrder(id, x.side, x.kind, x.quantity, index, candle.timestamp, if x.ttl.Some? then x.ttl else ttl, x.tag, 0)
  }

  lemma DcaPrices(d: DcaConfig, count: nat, b: Books, candle: Candle)
    requires BooksOk(b) && b.inventory > 0.0
    ensures var average := SnapshotOf(b, candle.close).averageEntry;
            var target, next := TargetPrice(average, d.takeProfit), NextAddPrice(d, average, count);
            && (candle.close >= target <==> AtProfit(d, b, candle)) && (candle.close <= next <==> AtNextStep(d, count, b, candle))
            && next * b.inventory == (1.0 - d.adverseStep * (count + 1) as real) * b.basis
  {
    var average, down := SnapshotOf(b, candle.close).averageEntry, 1.0 - d.adverseStep * (count + 1) as real;
    SnapshotShows(b, candle.close);
    Product(average, 1.0 + d.takeProfit, b.inventory);
    Product(average, down, b.inventory);
    Compares(candle.close, TargetPrice(average, d.takeProfit), b.inventory);
    Compares(candle.close, NextAddPrice(d, average, count), b.inventory);
  }

  lemma Compares(a: real, x: real, n: real)
    requires n > 0.0
    ensures a >= x <==> a * n >= x * n
    ensures a <= x <==> a * n <= x * n
  {
    Scaled(n, a, x);
    Scaled(n, x, a);
  }

  lemma OneOpenIsOne(open: seq<PendingOrder>, b: Books)
    requires OneOpen(open, b)
    ensures |open| <= 1
  {
  }

  lemma DcaStarts(d: DcaConfig, count: nat, candle: Candle, shot: Snapshot, open: seq<PendingOrder>)
    requires |open| <= 1 && shot.inventory <= 0.0 && candle.close > 0.0
    ensures var intents := DcaIntents(d, count, candle, shot, open);
            && intents.Some?
            && if open != [] then intents.value == []
               else Replaces(intents.value, open, Submit(Buy, Market, d.initialQuote / candle.close, None, "dca-initial"))
  {
  }

  /** With something held: a sale at the profit first, then one more purchase, and a sale when nothing else is open. */
  lemma DcaCases(d: DcaConfig, count: nat, candle: Candle, shot: Snapshot, open: seq<PendingOrder>)
    requires |open| <= 1 && shot.inventory > 0.0
    ensures var target, next := TargetPrice(shot.averageEntry, d.takeProfit), NextAddPrice(d, shot.averageEntry, count);
            var sale := Submit(Sell, Limit(target), shot.inventory, None, "dca-take-profit");
            var add := next != 0.0 && candle.close < target && count < d.maxAdds && candle.close <= next;
            var intents := DcaIntents(d, count, candle, shot, open);
            && (candle.close >= target ==>
                  intents.Some? && if open != [] && open[0].side == Sell then intents.value == [] else Replaces(intents.value, open, sale))
            && (add ==>
                  && intents.Some?
                  && if open != [] && open[0].side == Buy then intents.value == []
                     else Replaces(intents.value, open, Submit(Buy, Limit(next), d.dcaQuote / next, None, "dca-add")))
            && (candle.close < target && !(count < d.maxAdds && candle.close <= next) ==>
                  intents == Some(if open != [] then [] else [sale]))
  {
    hide NextAddPrice, TargetPrice, IdsOnSide, CancelAll;
    DcaSides(open);
    DcaSides([]);
  }

  lemma FirstOrder(d: DcaConfig, count: nat, b: Books, candle: Candle, o: PendingOrder)
    requires b.inventory == 0.0 && candle.close > 0.0
    requires o.side == Buy && o.kind.Market? && o.quantity == d.initialQuote / candle.close && o.tag == "dca-initial"
    ensures DcaOrder(d, o, b, count, candle.close)
  {
    Strategies.Cancels(d.initialQuote, candle.close);
  }

  lemma SaleOrder(d: DcaConfig, count: nat, b: Books, candle: Candle, o: PendingOrder)
    requires BooksOk(b) && b.inventory > 0.0
    requires o.side == Sell && o.kind == Limit(TargetPrice(SnapshotOf(b, candle.close).averageEntry, d.takeProfit))
    requires o.quantity == b.inventory && o.tag == "dca-take-profit"
    ensures DcaOrder(d, o, b, count, candle.close)
  {
    hide BooksOk, TargetPrice, SellsAll;
    AtShareAbove(b, candle.close, d.takeProfit, o);
  }

  lemma AddOrder(d: DcaConfig, count: nat, b: Books, candle: Candle, o: PendingOrder)
    requires BooksOk(b) && b.inventory > 0.0 && candle.close > 0.0 && count < d.maxAdds
    requires var next := NextAddPrice(d, SnapshotOf(b, candle.close).averageEntry, count);
             candle.close <= next && o.side == Buy && o.kind == Limit(next) && o.quantity == d.dcaQuote / next
    ensures DcaOrder(d, o, b, count, candle.close)
  {
    hide BooksOk, AverageEntry, NextAddPrice;
    DcaPrices(d, count, b, candle);
    Strategies.Cancels(d.dcaQuote, o.kind.price);
  }

  /** The strategy does nothing only when what is open is what the close calls for, and otherwise submits that. */
  lemma DcaCalls(d: DcaConfig, count: nat, b: Books, index: nat, candle: Candle, open: seq<PendingOrder>, id: nat, ttl: Option<nat>)
    returns (sub: Intent)
    requires DcaOk(d) && BooksOk(b) && candle.close > 0.0 && OneOpen(open, b)
    ensures var intents := DcaIntents(d, count, candle, SnapshotOf(b, candle.close), open);
            && intents.Some? && sub.Submit? && (intents.value == [] || Replaces(intents.value, open, sub))
            && (intents.value == [] ==> |open| == 1 && DcaSide(d, count, b, candle, open[0].side))
            && (intents.value != [] ==>
                  DcaSide(d, count, b, candle, sub.side) && DcaOrder(d, Placed(sub, id, index, candle, ttl), b, count, candle.close))
  {
    hide BooksOk, AverageEntry, NextAddPrice, TargetPrice, AtProfit, AtNextStep, DcaIntents, OneOpen, DcaOrder;
    NotNegative(b);
    OneOpenIsOne(open, b);
    var shot := SnapshotOf(b, candle.close);
    if b.inventory > 0.0 {
      DcaPrices(d, count, b, candle);
      DcaCases(d, count, candle, shot, open);
      var target, next := TargetPrice(shot.averageEntry, d.takeProfit), NextAddPrice(d, shot.averageEntry, count);
      if candle.close < target && count < d.maxAdds && candle.close <= next {
        sub := Submit(Buy, Limit(next), d.dcaQuote / next, None, "dca-add");
        AddOrder(d, count, b, candle, Placed(sub, id, index, candle, ttl));
      } else {
        sub := Submit(Sell, Limit(target), shot.inventory, None, "dca-take-profit");
        SaleOrder(d, count, b, candle, Placed(sub, id, index, candle, ttl));
      }
    } else {
      DcaStarts(d, count, candle, shot, open);
      sub := Submit(Buy, Market, d.initialQuote / candle.close, None, "dca-initial");
      FirstOrder(d, count, b, candle, Placed(sub, id, index, candle, ttl));
    }
  }

  lemma ReplacePlaces(intents: seq<Intent>, sub: Intent, index: nat, candle: Candle, ttl: Option<nat>, k: Book)
    requires |k.pending| <= 1 && sub.Submit? && Replaces(intents, k.pending, sub)
    ensures ApplyIntents(intents, index, candle, ttl, k).pending == [Placed(sub, k.sequence + 1, index, candle, ttl)]
  {
    hide ApplyIntents, Find, Without;
    if k.pending == [] {
      ApplyOne(sub, index, candle, ttl, k);
    } else {
      assert k.pending == [k.pending[0]] && intents == [intents[0], sub] && intents[0] == Cancel(k.pending[0].id, intents[0].tag);
      ApplyTwo(intents[0], sub, index, candle, ttl, k);
      CancelOnly(k.pending[0], intents[0].tag, index, candle, ttl, k);
    }
  }

  lemma DcaPlanDecides(d: DcaConfig, cfg: Config, m: Run<DcaState>, bars: seq<Candle>, index: nat, candle: Candle)
    requires DcaOk(d) && BooksOk(m.books) && candle.close > 0.0 && OneOpen(m.pending, m.books)
    requires DcaPlan(d, m, bars, Remember(m.strategy, m.books.inventory).addCount) && |bars| == index + 1 && bars[index] == candle
    requires Decide(cfg, m, index, candle, Dca(d)).Some?
    ensures var n := Decide(cfg, m, index, candle, Dca(d)).value;
            DcaPlan(d, n, bars, n.strategy.addCount) && DcaRests(d, n, candle)
  {
    hide BooksOk, OneOpen, DcaIntents, DcaOrder, DcaSide, Gains, Counts, Remember, IntentOk, ApplyIntents;
    var count := Remember(m.strategy, m.books.inventory).addCount;
    var k := Book(m.pending, m.sequence, m.rejections, m.cancelled);
    var sub := DcaCalls(d, count, m.books, index, candle, m.pending, m.sequence + 1, cfg.defaultTtl);
    var intents := DcaIntents(d, count, candle, SnapshotOf(m.books, candle.close), m.pending).value;
    if intents == [] {
      ApplyNone(index, candle, cfg.defaultTtl, k);
    } else {
      ReplacePlaces(intents, sub, index, candle, cfg.defaultTtl, k);
    }
  }

  lemma PositiveOrders(pending: seq<PendingOrder>, next: nat, sequence: nat)
    requires OrdersOk(pending, next, sequence)
    ensures OrdersPositive(pending)
  {
  }

  /** After every bar of an averaging replay exactly one order is open: with nothing held a market purchase for the first
      amount; once the close has reached the profit a sale of everything held at the profit over its cost; and once it has come
      down to the next step below cost, while adds are left, a purchase for the further amount there. The adds are the
      purchases since the last sale but for the first, and every sale has earned its profit. */
  lemma {:induction false} EveryDcaOrder(d: DcaConfig, cfg: Config, bars: seq<Candle>)
    requires DcaOk(d) && ConfigOk(cfg) && forall c <- bars :: CandleOk(c)
    ensures After(cfg, bars, Dca(d), DcaState(0.0, 0)).Some?
    ensures var r := After(cfg, bars, Dca(d), DcaState(0.0, 0)).value;
            DcaPlan(d, r, bars, r.strategy.addCount) && (bars != [] ==> DcaRests(d, r, bars[|bars| - 1]))
  {
    hide DcaPlan, DcaRests, Decide, MatchBar, Observe, Matches, BooksOk, OneOpen, NoShort, MayAdd, OrdersOk, OrdersPositive, Remember;
    var s := DcaState(0.0, 0);
    EveryDcaRun(d, cfg, bars);
    if bars == [] {
      NothingAveraged(d, cfg);
    } else {
      var init, k := bars[..|bars| - 1], |bars| - 1;
      assert bars[k] in bars && forall c <- init :: c in bars;
      EveryDcaOrder(d, cfg, init);
      EveryDcaRun(d, cfg, init);
      EveryRunIsOk(cfg, init, Dca(d), s);
      var r := After(cfg, init, Dca(d), s).value;
      var m := Observe(MatchBar(cfg, r, k, bars[k]), bars[k]);
      BarMatched(cfg, r, k, bars[k]);
      PositiveOrders(r.pending, k, r.sequence);
      assert init + [bars[k]] == bars;
      DcaPlanMatches(d, r, m, init, bars[k]);
      DcaPlanDecides(d, cfg, m, bars, k, bars[k]);
    }
  }

  lemma NothingAveraged(d: DcaConfig, cfg: Config)
    ensures DcaPlan(d, Opening(cfg, DcaState(0.0, 0)), [], 0)
  {
  }
}
