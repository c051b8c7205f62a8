/** What every replay keeps: causality, order lifetimes, ledger totals and independence of the future
    (research/rea_engines/replay.py). */
module ReplayRuns {
  import opened Prelude
  import opened Accounting
  import opened Replay

  // ---- Pending orders ----

  /** A pending order before bar `next`: submitted at an earlier bar, within its time to live. */
  ghost predicate OrderOk(o: PendingOrder, next: nat, sequence: nat) {
    && o.submittedIndex < next && 1 <= o.id <= sequence && o.quantity > 0.0 && (o.kind.Limit? ==> o.kind.price > 0.0)
    && o.barsWaited == next - 1 - o.submittedIndex
    && (o.ttl.Some? ==> o.barsWaited < o.ttl.value)
  }

  ghost predicate OrdersOk(pending: seq<PendingOrder>, next: nat, sequence: nat) {
    forall o <- pending :: OrderOk(o, next, sequence)
  }

  /** The fills of a list come from orders issued up to `sequence`. */
  ghost predicate IssuedBy(fills: seq<Fill>, from: nat, sequence: nat) {
    forall i :: from <= i < |fills| ==> 1 <= fills[i].orderId <= sequence
  }

  /** One log grows into another by entries stamped with the bar. */
  ghost predicate Extends<T>(a: seq<T>, b: seq<T>, time: T -> int, t: int) {
    a <= b && forall i :: |a| <= i < |b| ==> time(b[i]) == t
  }

  const FillTime := (x: Fill) => x.timestamp
  const RejectionTime := (x: Rejection) => x.timestamp
  const ExpiryTime := (x: Expiry) => x.timestamp
  const CancellationTime := (x: Cancellation) => x.timestamp
  const PointTime := (x: Point) => x.timestamp

  ghost predicate MatchedGrows(a: Matched, b: Matched, t: int) {
    && Extends(a.fills, b.fills, FillTime, t) && Extends(a.rejections, b.rejections, RejectionTime, t)
    && Extends(a.expired, b.expired, ExpiryTime, t)
  }

  // ---- Sums over fills ----

  function RealizedSum(fills: seq<Fill>): real {
    if fills == [] then 0.0 else RealizedSum(fills[..|fills| - 1]) + fills[|fills| - 1].realizedPnl
  }

  function CostSum(fills: seq<Fill>): real {
    if fills == [] then 0.0 else CostSum(fills[..|fills| - 1]) + fills[|fills| - 1].costs.Total()
  }

  function NotionalSum(fills: seq<Fill>): real {
    if fills == [] then 0.0 else NotionalSum(fills[..|fills| - 1]) + fills[|fills| - 1].notional
  }

  /** The ledger's totals are the sums over the fills, and its books balance. */
  ghost predicate LedgerOk(b: Books, fills: seq<Fill>, cfg: Config) {
    && BooksOk(b) && b.startingCash == cfg.startingCash && b.maxInventory == cfg.maxInventory && b.maxFillQty == cfg.maxFillQty
    && b.realized == RealizedSum(fills) && b.fees + b.spread + b.slippage == CostSum(fills) && b.turnover == NotionalSum(fills)
  }

  lemma ExecuteKeepsLedger(order: PendingOrder, candle: Candle, price: real, b: Books, fills: seq<Fill>, cfg: Config)
    requires LedgerOk(b, fills, cfg) && Execute(order, candle, price, b, cfg.costs).Ok?
    ensures var done := Execute(order, candle, price, b, cfg.costs).value;
            LedgerOk(done.0, fills + [done.1], cfg) && done.1.orderId == order.id && done.1.timestamp == candle.timestamp
  {
    hide BooksOk, BuyBooks, SellBooks, Costs.Total, FillCosts;
    var costs := FillCosts(order, price, cfg.costs);
    if order.side == Buy {
      BuyKeepsBooks(b, order.quantity, price, costs);
      BuyTotals(b, order.quantity, price, costs);
    } else {
      SellKeepsBooks(b, order.quantity, price, costs);
      SellTotals(b, order.quantity, price, costs);
    }
    var done := Execute(order, candle, price, b, cfg.costs).value;
    assert (fills + [done.1])[..|fills|] == fills;
  }

  /** What an operation adds to the ledger's totals. */
  ghost predicate Adds(b: Books, after: Books, op: Operation) {
    && after.realized == b.realized + op.realizedPnl && after.turnover == b.turnover + op.notional
    && after.fees + after.spread + after.slippage == b.fees + b.spread + b.slippage + op.costs.Total()
    && after.startingCash == b.startingCash && after.maxInventory == b.maxInventory && after.maxFillQty == b.maxFillQty
  }

  lemma BuyTotals(b: Books, quantity: real, price: real, costs: Costs)
    requires BuyBooks(b, quantity, price, costs).Ok?
    ensures Adds(b, BuyBooks(b, quantity, price, costs).value.0, BuyBooks(b, quantity, price, costs).value.1)
  {
  }

  lemma SellTotals(b: Books, quantity: real, price: real, costs: Costs)
    requires SellBooks(b, quantity, price, costs).Ok?
    ensures Adds(b, SellBooks(b, quantity, price, costs).value.0, SellBooks(b, quantity, price, costs).value.1)
  {
  }

  lemma MatchOneKeeps(order: PendingOrder, index: nat, candle: Candle, cfg: Config, m: Matched, sequence: nat, from: nat)
    requires OrderOk(order, index, sequence) && LedgerOk(m.books, m.fills, cfg)
    requires OrdersOk(m.still, index + 1, sequence) && from <= |m.fills| && IssuedBy(m.fills, from, sequence)
    ensures var n := MatchOne(order, index, candle, cfg.costs, m);
            && LedgerOk(n.books, n.fills, cfg) && OrdersOk(n.still, index + 1, sequence)
            && IssuedBy(n.fills, from, sequence) && MatchedGrows(m, n, candle.timestamp) && |m.fills| <= |n.fills|
  {
    hide Execute, LedgerOk, FillPrice;
    var price := FillPrice(order, candle);
    if price.Some? && Execute(order, candle, price.value, m.books, cfg.costs).Ok? {
      ExecuteKeepsLedger(order, candle, price.value, m.books, m.fills, cfg);
    }
  }

  lemma {:induction false} MatchAllKeeps(orders: seq<PendingOrder>, index: nat, candle: Candle, cfg: Config, m: Matched, sequence: nat)
    requires OrdersOk(orders, index, sequence) && LedgerOk(m.books, m.fills, cfg) && m.still == []
    ensures var n := MatchAll(orders, index, candle, cfg.costs, m);
            && LedgerOk(n.books, n.fills, cfg) && OrdersOk(n.still, index + 1, sequence)
            && |m.fills| <= |n.fills| && IssuedBy(n.fills, |m.fills|, sequence) && MatchedGrows(m, n, candle.timestamp)
  {
    hide MatchOne, LedgerOk, OrderOk, MatchedGrows;
    if orders == [] {
      GrowsItself(m, candle.timestamp);
    } else {
      var init, last := orders[..|orders| - 1], orders[|orders| - 1];
      MatchAllKeeps(init, index, candle, cfg, m, sequence);
      var n := MatchAll(init, index, candle, cfg.costs, m);
      MatchOneKeeps(last, index, candle, cfg, n, sequence, |m.fills|);
      GrowsTwice(m, n, MatchOne(last, index, candle, cfg.costs, n), candle.timestamp);
    }
  }

  lemma GrowsItself(m: Matched, t: int)
    ensures MatchedGrows(m, m, t)
  {
  }

  lemma GrowsTwice(a: Matched, b: Matched, c: Matched, t: int)
    requires MatchedGrows(a, b, t) && MatchedGrows(b, c, t)
    ensures MatchedGrows(a, c, t)
  {
  }

  // ---- Intents ----

  lemma ApplyIntentKeeps(intent: Intent, index: nat, candle: Candle, ttl: Option<nat>, b: Book)
    requires IntentOk(intent) && (ttl.Some? ==> ttl.value > 0) && OrdersOk(b.pending, index + 1, b.sequence)
    ensures var a := ApplyIntent(intent, index, candle, ttl, b);
            && OrdersOk(a.pending, index + 1, a.sequence) && b.sequence <= a.sequence
            && Extends(b.rejections, a.rejections, RejectionTime, candle.timestamp)
            && Extends(b.cancelled, a.cancelled, CancellationTime, candle.timestamp)
  {
  }

  lemma {:induction false} ApplyIntentsKeep(intents: seq<Intent>, index: nat, candle: Candle, ttl: Option<nat>, b: Book)
    requires (forall i <- intents :: IntentOk(i)) && (ttl.Some? ==> ttl.value > 0) && OrdersOk(b.pending, index + 1, b.sequence)
    ensures var a := ApplyIntents(intents, index, candle, ttl, b);
            && OrdersOk(a.pending, index + 1, a.sequence) && b.sequence <= a.sequence
            && Extends(b.rejections, a.rejections, RejectionTime, candle.timestamp)
            && Extends(b.cancelled, a.cancelled, CancellationTime, candle.timestamp)
  {
    hide ApplyIntent, OrdersOk, IntentOk;
    if intents != [] {
      var init := intents[..|intents| - 1];
      ApplyIntentsKeep(init, index, candle, ttl, b);
      ApplyIntentKeeps(intents[|intents| - 1], index, candle, ttl, ApplyIntents(init, index, candle, ttl, b));
    }
  }

  // ---- One bar ----

  ghost predicate RunOk<S>(r: Run<S>, cfg: Config, next: nat) {
    LedgerOk(r.books, r.fills, cfg) && OrdersOk(r.pending, next, r.sequence)
  }

  /** How one bar extends a run. */
  ghost predicate Follows<S>(a: Run<S>, b: Run<S>, t: int) {
    && Extends(a.fills, b.fills, FillTime, t) && Extends(a.rejections, b.rejections, RejectionTime, t)
    && Extends(a.expired, b.expired, ExpiryTime, t) && Extends(a.cancelled, b.cancelled, CancellationTime, t)
    && Extends(a.equity, b.equity, PointTime, t) && a.sequence <= b.sequence
    && IssuedBy(b.fills, |a.fills|, a.sequence)
  }

  lemma BarKeeps<S>(cfg: Config, r: Run<S>, index: nat, candle: Candle, strategy: Strategy<S>)
    requires ConfigOk(cfg) && RunOk(r, cfg, index) && Bar(cfg, r, index, candle, strategy).Some?
    ensures RunOk(Bar(cfg, r, index, candle, strategy).value, cfg, index + 1)
    ensures Follows(r, Bar(cfg, r, index, candle, strategy).value, candle.timestamp)
  {
    hide MatchAll, ApplyIntents, LedgerOk, OrdersOk, SnapshotOf, Drawdown, IntentOk;
    var start := Matched(r.books, [], r.fills, r.rejections, r.expired);
    MatchAllKeeps(r.pending, index, candle, cfg, start, r.sequence);
    var m := Observe(MatchBar(cfg, r, index, candle), candle);
    var answer := strategy(m.strategy, candle, SnapshotOf(m.books, candle.close), m.pending).value;
    ApplyIntentsKeep(answer.1, index, candle, cfg.defaultTtl, Book(m.pending, m.sequence, m.rejections, m.cancelled));
  }

  // ---- Every run ----

  lemma OpeningOk<S>(cfg: Config, s: S)
    requires ConfigOk(cfg)
    ensures RunOk(Opening(cfg, s), cfg, 0)
  {
  }

  /** After any bars under any strategy: the books balance and are the sums over the fills, and every pending order is
      within its time to live, counted from the bar it was submitted at. */
  lemma {:induction false} EveryRunIsOk<S>(cfg: Config, bars: seq<Candle>, strategy: Strategy<S>, s: S)
    requires ConfigOk(cfg) && After(cfg, bars, strategy, s).Some?
    ensures RunOk(After(cfg, bars, strategy, s).value, cfg, |bars|)
  {
    hide RunOk, Bar, Opening;
    if bars == [] {
      OpeningOk(cfg, s);
    } else {
      var init := bars[..|bars| - 1];
      EveryRunIsOk(cfg, init, strategy, s);
      BarKeeps(cfg, After(cfg, init, strategy, s).value, |bars| - 1, bars[|bars| - 1], strategy);
    }
  }

  /** In every reached state an order expires at the very bar at which its time to live has passed. */
  lemma ExpiresOnTime(order: PendingOrder, index: nat, candle: Candle, profile: CostProfile, m: Matched, sequence: nat)
    requires OrderOk(order, index, sequence)
    ensures var n := MatchOne(order, index, candle, profile, m);
            |n.expired| > |m.expired| <==>
              FillPrice(order, candle).None? && order.ttl.Some? && order.submittedIndex + order.ttl.value == index
  {
    hide Execute, FillPrice;
  }

  lemma SnapshotShows(b: Books, mark: real)
    requires BooksOk(b)
    ensures var shot := SnapshotOf(b, mark);
            && shot.equity == b.cash + b.inventory * mark && shot.unrealized == b.inventory * mark - b.basis
            && shot.averageEntry * b.inventory == b.basis && (b.inventory == 0.0 ==> shot.averageEntry == 0.0)
  {
  }

  /** What a run reports about its money: profit from the fills plus the mark on what is held is equity minus the start. */
  lemma ProfitReconciles<S>(cfg: Config, bars: seq<Candle>, strategy: Strategy<S>, s: S, mark: real)
    requires ConfigOk(cfg) && After(cfg, bars, strategy, s).Some?
    ensures var r := After(cfg, bars, strategy, s).value;
            var shot := SnapshotOf(r.books, mark);
            && RealizedSum(r.fills) + shot.unrealized == shot.equity - cfg.startingCash
            && shot.realized == RealizedSum(r.fills) && shot.equity == shot.cash + shot.inventory * mark
            && shot.unrealized == shot.inventory * mark - shot.averageEntry * shot.inventory
            && shot.cash >= 0.0 && 0.0 <= shot.inventory <= cfg.maxInventory
  {
    hide AverageEntry, After;
    EveryRunIsOk(cfg, bars, strategy, s);
    SnapshotShows(After(cfg, bars, strategy, s).value.books, mark);
  }

  /** The order behind a fill existed before the bar that filled it was seen. */
  ghost predicate CausalFill<S>(cfg: Config, bars: seq<Candle>, strategy: Strategy<S>, s: S, f: Fill) {
    exists j :: 0 <= j < |bars| && bars[j].timestamp == f.timestamp && After(cfg, bars[..j], strategy, s).Some?
                && 1 <= f.orderId <= After(cfg, bars[..j], strategy, s).value.sequence
  }

  lemma CausalLater<S>(cfg: Config, bars: seq<Candle>, strategy: Strategy<S>, s: S, f: Fill)
    requires bars != [] && CausalFill(cfg, bars[..|bars| - 1], strategy, s, f)
    ensures CausalFill(cfg, bars, strategy, s, f)
  {
    hide After;
    var init := bars[..|bars| - 1];
    var j :| 0 <= j < |init| && init[j].timestamp == f.timestamp && After(cfg, init[..j], strategy, s).Some?
             && 1 <= f.orderId <= After(cfg, init[..j], strategy, s).value.sequence;
    assert init[..j] == bars[..j];
  }

  /** Every fill comes from an order submitted at a strictly earlier bar. */
  lemma {:induction false} EveryFillIsCausal<S>(cfg: Config, bars: seq<Candle>, strategy: Strategy<S>, s: S)
    requires ConfigOk(cfg) && After(cfg, bars, strategy, s).Some?
    ensures forall f <- After(cfg, bars, strategy, s).value.fills :: CausalFill(cfg, bars, strategy, s, f)
  {
    hide RunOk, Bar, CausalFill;
    if bars != [] {
      var init, k := bars[..|bars| - 1], |bars| - 1;
      EveryFillIsCausal(cfg, init, strategy, s);
      EveryRunIsOk(cfg, init, strategy, s);
      var before, r := After(cfg, init, strategy, s).value, After(cfg, bars, strategy, s).value;
      BarKeeps(cfg, before, k, bars[k], strategy);
      forall f | f in r.fills ensures CausalFill(cfg, bars, strategy, s, f) {
        var i :| 0 <= i < |r.fills| && r.fills[i] == f;
        if i < |before.fills| {
          assert before.fills[i] in before.fills;
          CausalLater(cfg, bars, strategy, s, f);
        } else {
          NewFillIsCausal(cfg, bars, strategy, s, f);
        }
      }
    }
  }

  lemma NewFillIsCausal<S>(cfg: Config, bars: seq<Candle>, strategy: Strategy<S>, s: S, f: Fill)
    requires bars != [] && After(cfg, bars[..|bars| - 1], strategy, s).Some? && f.timestamp == bars[|bars| - 1].timestamp
    requires 1 <= f.orderId <= After(cfg, bars[..|bars| - 1], strategy, s).value.sequence
    ensures CausalFill(cfg, bars, strategy, s, f)
  {
    hide After;
  }

  // ---- No look-ahead ----

  /** The part of a log up to an instant. */
  function UpTo<T>(log: seq<T>, time: T -> int, t: int): seq<T> {
    if log == [] then [] else UpTo(log[..|log| - 1], time, t) + (if time(log[|log| - 1]) <= t then [log[|log| - 1]] else [])
  }

  /** A log grew only by entries after t, and had only entries up to t. */
  ghost predicate Split<T>(a: seq<T>, b: seq<T>, time: T -> int, t: int) {
    a <= b && (forall i :: 0 <= i < |a| ==> time(a[i]) <= t) && forall i :: |a| <= i < |b| ==> time(b[i]) > t
  }

  lemma {:induction false} AllUpTo<T>(log: seq<T>, time: T -> int, t: int)
    requires forall i :: 0 <= i < |log| ==> time(log[i]) <= t
    ensures UpTo(log, time, t) == log
  {
    if log != [] {
      var init := log[..|log| - 1];
      AllUpTo(init, time, t);
      assert log == init + [log[|log| - 1]];
    }
  }

  lemma {:induction false} SplitIsUpTo<T>(a: seq<T>, b: seq<T>, time: T -> int, t: int)
    requires Split(a, b, time, t)
    ensures UpTo(b, time, t) == a
  {
    if |b| == |a| {
      assert a == b;
      AllUpTo(b, time, t);
    } else {
      var init := b[..|b| - 1];
      assert a <= init;
      SplitIsUpTo(a, init, time, t);
      assert time(b[|b| - 1]) > t;
    }
  }

  ghost predicate RunSplit<S>(a: Run<S>, b: Run<S>, t: int) {
    && Split(a.fills, b.fills, FillTime, t) && Split(a.rejections, b.rejections, RejectionTime, t)
    && Split(a.expired, b.expired, ExpiryTime, t) && Split(a.cancelled, b.cancelled, CancellationTime, t)
    && Split(a.equity, b.equity, PointTime, t)
  }

  lemma SplitExtends<T>(a: seq<T>, b: seq<T>, c: seq<T>, time: T -> int, t: int, later: int)
    requires Split(a, b, time, t) && Extends(b, c, time, later) && later > t
    ensures Split(a, c, time, t)
  {
  }

  lemma StampsExtend<T>(a: seq<T>, b: seq<T>, time: T -> int, early: int, t: int)
    requires Split(a, a, time, early) && Extends(a, b, time, t) && early < t
    ensures Split(b, b, time, t)
  {
  }

  lemma RunSplitExtends<S>(a: Run<S>, b: Run<S>, c: Run<S>, t: int, later: int)
    requires RunSplit(a, b, t) && Follows(b, c, later) && later > t
    ensures RunSplit(a, c, t)
  {
    hide Split, Extends;
    SplitExtends(a.fills, b.fills, c.fills, FillTime, t, later);
    SplitExtends(a.rejections, b.rejections, c.rejections, RejectionTime, t, later);
    SplitExtends(a.expired, b.expired, c.expired, ExpiryTime, t, later);
    SplitExtends(a.cancelled, b.cancelled, c.cancelled, CancellationTime, t, later);
    SplitExtends(a.equity, b.equity, c.equity, PointTime, t, later);
  }

  lemma RunStampsExtend<S>(a: Run<S>, b: Run<S>, early: int, t: int)
    requires RunSplit(a, a, early) && Follows(a, b, t) && early < t
    ensures RunSplit(b, b, t)
  {
    hide Split, Extends;
    StampsExtend(a.fills, b.fills, FillTime, early, t);
    StampsExtend(a.rejections, b.rejections, RejectionTime, early, t);
    StampsExtend(a.expired, b.expired, ExpiryTime, early, t);
    StampsExtend(a.cancelled, b.cancelled, CancellationTime, early, t);
    StampsExtend(a.equity, b.equity, PointTime, early, t);
  }

  lemma InitBarsOk(bars: seq<Candle>)
    requires BarsOk(bars) && bars != []
    ensures BarsOk(bars[..|bars| - 1])
  {
    assert forall c <- bars[..|bars| - 1] :: c in bars;
  }

  /** All entries of a run are stamped up to its last bar. */
  lemma {:induction false} StampedByLastBar<S>(cfg: Config, bars: seq<Candle>, strategy: Strategy<S>, s: S, early: int)
    requires ConfigOk(cfg) && BarsOk(bars) && After(cfg, bars, strategy, s).Some? && (bars != [] ==> early < bars[0].timestamp)
    ensures var r := After(cfg, bars, strategy, s).value;
            RunSplit(r, r, if bars == [] then early else bars[|bars| - 1].timestamp)
  {
    hide Bar, Follows, RunOk;
    if bars != [] {
      var init, k := bars[..|bars| - 1], |bars| - 1;
      InitBarsOk(bars);
      StampedByLastBar(cfg, init, strategy, s, early);
      EveryRunIsOk(cfg, init, strategy, s);
      var before, r := After(cfg, init, strategy, s).value, After(cfg, bars, strategy, s).value;
      BarKeeps(cfg, before, k, bars[k], strategy);
      RunStampsExtend(before, r, if init == [] then early else init[|init| - 1].timestamp, bars[k].timestamp);
    }
  }

  /** The state after the first k bars is a cut of every longer run at that bar. */
  lemma {:induction false} PrefixIsCut<S>(cfg: Config, bars: seq<Candle>, k: nat, strategy: Strategy<S>, s: S)
    requires ConfigOk(cfg) && BarsOk(bars) && 0 < k <= |bars| && After(cfg, bars, strategy, s).Some?
    ensures After(cfg, bars[..k], strategy, s).Some?
    ensures RunSplit(After(cfg, bars[..k], strategy, s).value, After(cfg, bars, strategy, s).value, bars[k - 1].timestamp)
    decreases |bars|
  {
    hide Bar, Follows, RunOk, RunSplit;
    if k == |bars| {
      assert bars[..k] == bars;
      StampedByLastBar(cfg, bars, strategy, s, bars[0].timestamp - 1);
    } else {
      var init, last := bars[..|bars| - 1], |bars| - 1;
      InitBarsOk(bars);
      assert init[..k] == bars[..k];
      PrefixIsCut(cfg, init, k, strategy, s);
      EveryRunIsOk(cfg, init, strategy, s);
      var before := After(cfg, init, strategy, s).value;
      BarKeeps(cfg, before, last, bars[last], strategy);
      RunSplitExtends(After(cfg, bars[..k], strategy, s).value, before, After(cfg, bars, strategy, s).value,
                      bars[k - 1].timestamp, bars[last].timestamp);
    }
  }

  /** No look-ahead: two histories that agree on their first k bars report the same fills, rejections, expiries, cancels
      and equity points up to bar k, and are in the same state there, orders included. */
  lemma NoLookAhead<S>(cfg: Config, a: seq<Candle>, b: seq<Candle>, k: nat, strategy: Strategy<S>, s: S)
    requires ConfigOk(cfg) && BarsOk(a) && BarsOk(b) && 0 < k <= |a| && k <= |b| && a[..k] == b[..k]
    requires After(cfg, a, strategy, s).Some? && After(cfg, b, strategy, s).Some?
    ensures After(cfg, a[..k], strategy, s) == After(cfg, b[..k], strategy, s)
    ensures var t, x, y := a[k - 1].timestamp, After(cfg, a, strategy, s).value, After(cfg, b, strategy, s).value;
            && UpTo(x.fills, FillTime, t) == UpTo(y.fills, FillTime, t)
            && UpTo(x.rejections, RejectionTime, t) == UpTo(y.rejections, RejectionTime, t)
            && UpTo(x.expired, ExpiryTime, t) == UpTo(y.expired, ExpiryTime, t)
            && UpTo(x.cancelled, CancellationTime, t) == UpTo(y.cancelled, CancellationTime, t)
            && UpTo(x.equity, PointTime, t) == UpTo(y.equity, PointTime, t)
  {
    hide After, UpTo, Split;
    assert b[k - 1] == b[..k][k - 1] == a[..k][k - 1] == a[k - 1];
    PrefixIsCut(cfg, a, k, strategy, s);
    PrefixIsCut(cfg, b, k, strategy, s);
    CutIsUpTo(After(cfg, a[..k], strategy, s).value, After(cfg, a, strategy, s).value, a[k - 1].timestamp);
    CutIsUpTo(After(cfg, b[..k], strategy, s).value, After(cfg, b, strategy, s).value, a[k - 1].timestamp);
  }

  lemma CutIsUpTo<S>(a: Run<S>, b: Run<S>, t: int)
    requires RunSplit(a, b, t)
    ensures UpTo(b.fills, FillTime, t) == a.fills && UpTo(b.rejections, RejectionTime, t) == a.rejections
    ensures UpTo(b.expired, ExpiryTime, t) == a.expired && UpTo(b.cancelled, CancellationTime, t) == a.cancelled
    ensures UpTo(b.equity, PointTime, t) == a.equity
  {
    hide UpTo, Split;
    SplitIsUpTo(a.fills, b.fills, FillTime, t);
    SplitIsUpTo(a.rejections, b.rejections, RejectionTime, t);
    SplitIsUpTo(a.expired, b.expired, ExpiryTime, t);
    SplitIsUpTo(a.cancelled, b.cancelled, CancellationTime, t);
    SplitIsUpTo(a.equity, b.equity, PointTime, t);
  }

  // ---- Drawdown ----

  /** The largest equity seen up to a point, the starting cash included. */
  function PeakTo(start: real, points: seq<Point>): real {
    if points == [] then start else Larger(PeakTo(start, points[..|points| - 1]), points[|points| - 1].equity)
  }

  /** Every drawdown is the loss from the largest equity seen so far in percent of it, and the reported maximum is their
      maximum. */
  ghost predicate DrawdownOk(start: real, points: seq<Point>, peak: real, maximum: real) {
    && peak == PeakTo(start, points)
    && (forall i :: 0 <= i < |points| ==> LossFrom(PeakTo(start, points[..i + 1]), points[i]))
    && (forall i :: 0 <= i < |points| ==> 0.0 <= points[i].drawdownPct <= maximum)
    && (maximum == 0.0 || exists i :: 0 <= i < |points| && points[i].drawdownPct == maximum) && maximum >= 0.0
  }

  predicate LossFrom(peak: real, p: Point) {
    0.0 < peak && p.equity <= peak && p.drawdownPct * peak == 100.0 * (peak - p.equity)
  }

  lemma {:induction false} PeakAtLeastStart(start: real, points: seq<Point>)
    requires start > 0.0
    ensures PeakTo(start, points) >= start
  {
    if points != [] { PeakAtLeastStart(start, points[..|points| - 1]); }
  }

  lemma DrawdownIsLoss(peak: real, p: Point)
    requires peak > 0.0 && p.equity <= peak && p.drawdownPct == Drawdown(peak, p.equity)
    ensures LossFrom(peak, p) && p.drawdownPct >= 0.0
  {
  }

  lemma ObserveKeepsDrawdown(start: real, points: seq<Point>, peak: real, maximum: real, p: Point)
    requires start > 0.0 && DrawdownOk(start, points, peak, maximum)
    requires p.drawdownPct == Drawdown(Larger(peak, p.equity), p.equity)
    ensures DrawdownOk(start, points + [p], Larger(peak, p.equity), Larger(maximum, p.drawdownPct))
  {
    hide Drawdown, LossFrom;
    var all := points + [p];
    assert all[..|points|] == points && all[..|points| + 1] == all;
    PeakAtLeastStart(start, points);
    DrawdownIsLoss(Larger(peak, p.equity), p);
    forall i | 0 <= i < |all| ensures LossFrom(PeakTo(start, all[..i + 1]), all[i]) {
      if i < |points| { assert all[..i + 1] == points[..i + 1]; }
    }
    if maximum > p.drawdownPct && maximum != 0.0 {
      var i :| 0 <= i < |points| && points[i].drawdownPct == maximum;
      assert all[i].drawdownPct == maximum;
    } else {
      assert all[|points|] == p;
    }
  }

  /** The bars at which something was held. */
  function HeldAt(points: seq<Point>): set<nat> { set i: nat | i < |points| && points[i].inventory > 0.0 }

  lemma HeldGrows(points: seq<Point>, p: Point)
    ensures |HeldAt(points + [p])| == |HeldAt(points)| + if p.inventory > 0.0 then 1 else 0
  {
    var all := points + [p];
    assert HeldAt(all) == HeldAt(points) + if p.inventory > 0.0 then {|points|} else {};
  }

  /** A point shows its bar and the books after it, marked at its close. */
  ghost predicate PointShows<S>(p: Point, candle: Candle, after: Run<S>) {
    && p.timestamp == candle.timestamp && p.close == candle.close
    && p.cash == after.books.cash && p.inventory == after.books.inventory && p.equity == p.cash + p.inventory * candle.close
  }

  lemma {:induction false} EveryRunMeasuresDrawdown<S>(cfg: Config, bars: seq<Candle>, strategy: Strategy<S>, s: S)
    requires ConfigOk(cfg) && After(cfg, bars, strategy, s).Some?
    ensures var r := After(cfg, bars, strategy, s).value;
            && |r.equity| == |bars| && DrawdownOk(cfg.startingCash, r.equity, r.peak, r.maxDrawdown)
            && r.barsInMarket == |HeldAt(r.equity)|
  {
    hide DrawdownOk, MatchAll, ApplyIntents, Drawdown, HeldAt;
    if bars == [] {
      NothingMeasured(cfg.startingCash);
    } else {
      var init, k := bars[..|bars| - 1], |bars| - 1;
      EveryRunMeasuresDrawdown(cfg, init, strategy, s);
      var before := After(cfg, init, strategy, s).value;
      var seen := Observe(MatchBar(cfg, before, k, bars[k]), bars[k]);
      ObserveKeepsDrawdown(cfg.startingCash, before.equity, before.peak, before.maxDrawdown, seen.equity[|before.equity|]);
      HeldGrows(before.equity, seen.equity[|before.equity|]);
    }
  }

  lemma NothingMeasured(start: real)
    ensures DrawdownOk(start, [], start, 0.0) && HeldAt([]) == {}
  {
  }

  lemma BarShows<S>(cfg: Config, r: Run<S>, index: nat, candle: Candle, strategy: Strategy<S>)
    requires Bar(cfg, r, index, candle, strategy).Some?
    ensures var n := Bar(cfg, r, index, candle, strategy).value;
            |n.equity| == |r.equity| + 1 && r.equity < n.equity && PointShows(n.equity[|r.equity|], candle, n)
  {
    hide MatchAll, ApplyIntents, Drawdown, AverageEntry, IntentOk;
  }

  /** The equity curve: one point for each bar, which shows it and the books after it. */
  lemma {:induction false} EveryPointShowsItsBar<S>(cfg: Config, bars: seq<Candle>, strategy: Strategy<S>, s: S, i: nat)
    requires After(cfg, bars, strategy, s).Some? && i < |bars|
    ensures |After(cfg, bars, strategy, s).value.equity| == |bars| && After(cfg, bars[..i + 1], strategy, s).Some?
    ensures PointShows(After(cfg, bars, strategy, s).value.equity[i], bars[i], After(cfg, bars[..i + 1], strategy, s).value)
    decreases |bars|
  {
    hide Bar, PointShows;
    var init, k := bars[..|bars| - 1], |bars| - 1;
    var before := After(cfg, init, strategy, s).value;
    BarShows(cfg, before, k, bars[k], strategy);
    if i == k {
      assert bars[..i + 1] == bars;
      if k > 0 { EveryPointShowsItsBar(cfg, init, strategy, s, k - 1); }
    } else {
      EveryPointShowsItsBar(cfg, init, strategy, s, i);
      assert init[..i + 1] == bars[..i + 1];
    }
  }
}
