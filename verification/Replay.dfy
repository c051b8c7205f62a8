/** Bar-by-bar historical replay with pending orders, expiry, cancels and a ledger (research/rea_engines/replay.py). */
module Replay {
  import opened Prelude
  import opened Accounting

  datatype Candle = Candle(timestamp: int, open: real, high: real, low: real, close: real, volume: real)

  predicate CandleOk(c: Candle) {
    && c.open > 0.0 && c.low > 0.0 && c.close > 0.0 && c.volume >= 0.0
    && c.high >= c.open && c.high >= c.close && c.low <= c.open && c.low <= c.close && c.high >= c.low
  }

  datatype Side = Buy | Sell

  datatype Kind = Market | Limit(price: real)

  datatype Intent =
    | Submit(side: Side, kind: Kind, quantity: real, ttl: Option<nat>, tag: string)
    | Cancel(orderId: int, tag: string)

  /** What constructing an intent checks. */
  predicate IntentOk(i: Intent) {
    i.Submit? ==> i.quantity > 0.0 && (i.kind.Limit? ==> i.kind.price > 0.0) && (i.ttl.Some? ==> i.ttl.value > 0)
  }

  /** Orders are numbered from 1 in submission order. */
  datatype PendingOrder = PendingOrder(
    id: nat, side: Side, kind: Kind, quantity: real, submittedIndex: nat, submittedAt: int, ttl: Option<nat>, tag: string, barsWaited: nat)

  datatype Fill = Fill(
    orderId: nat, timestamp: int, side: Side, kind: Kind, quantity: real, price: real, notional: real, costs: Costs,
    realizedPnl: real, tag: string)

  datatype Reason = Refused(error: LedgerError) | CancelTargetNotOpen

  datatype Rejection = Rejection(orderId: int, timestamp: int, reason: Reason, side: Option<Side>, quantity: real, tag: string)

  datatype Expiry = Expiry(orderId: nat, timestamp: int, barsWaited: nat, tag: string)

  datatype Cancellation = Cancellation(orderId: int, timestamp: int, tag: string)

  datatype Snapshot = Snapshot(cash: real, inventory: real, averageEntry: real, realized: real, unrealized: real, equity: real)

  datatype Point = Point(timestamp: int, close: real, cash: real, inventory: real, equity: real, drawdownPct: real)

  datatype CostProfile = CostProfile(feeBps: real, spreadBps: real, slippageBps: real)

  datatype Config = Config(
    startingCash: real, maxInventory: real, maxFillQty: real, costs: CostProfile, defaultTtl: Option<nat>)

  predicate ConfigOk(c: Config) {
    && c.startingCash > 0.0 && c.maxInventory > 0.0 && c.maxFillQty > 0.0
    && c.costs.feeBps >= 0.0 && c.costs.spreadBps >= 0.0 && c.costs.slippageBps >= 0.0
    && (c.defaultTtl.Some? ==> c.defaultTtl.value > 0)
  }

  /** A deterministic strategy: its state, what it sees, and its next state with intents, or None when it raises. */
  type Strategy<!S> = (S, Candle, Snapshot, seq<PendingOrder>) -> Option<(S, seq<Intent>)>

  // ---- Matching pending orders against a bar ----

  function FillPrice(order: PendingOrder, candle: Candle): Option<real> {
    match order.kind
    case Market => Some(candle.open)
    case Limit(price) =>
      if order.side == Buy && candle.low <= price then Some(if candle.open < price then candle.open else price)
      else if order.side == Sell && candle.high >= price then Some(if candle.open > price then candle.open else price)
      else None
  }

  function FillCosts(order: PendingOrder, price: real, profile: CostProfile): Costs {
    var notional := order.quantity * price;
    Costs(notional * profile.feeBps / 10000.0,
          if order.kind.Market? then notional * profile.spreadBps / 10000.0 / 2.0 else 0.0,
          if order.kind.Market? then notional * profile.slippageBps / 10000.0 else 0.0)
  }

  /** `_execute_fill`. */
  function Execute(order: PendingOrder, candle: Candle, price: real, books: Books, profile: CostProfile)
    : Result<(Books, Fill), LedgerError>
  {
    var costs := FillCosts(order, price, profile);
    match if order.side == Buy then BuyBooks(books, order.quantity, price, costs) else SellBooks(books, order.quantity, price, costs)
    case Err(e) => Err(e)
    case Ok((after, op)) =>
      Ok((after, Fill(order.id, candle.timestamp, order.side, order.kind, op.quantity, op.price, op.notional,
                      op.costs, op.realizedPnl, order.tag)))
  }

  /** The lists a bar's matching builds. */
  datatype Matched = Matched(
    books: Books, still: seq<PendingOrder>, fills: seq<Fill>, rejections: seq<Rejection>, expired: seq<Expiry>)

  function MatchOne(order: PendingOrder, index: nat, candle: Candle, profile: CostProfile, m: Matched): Matched {
    if order.submittedIndex >= index then m.(still := m.still + [order])
    else
      match FillPrice(order, candle)
      case Some(price) =>
        (match Execute(order, candle, price, m.books, profile)
         case Ok((books, fill)) => m.(books := books, fills := m.fills + [fill])
         case Err(e) =>
           m.(rejections := m.rejections + [Rejection(order.id, candle.timestamp, Refused(e), Some(order.side),
                                                      order.quantity, order.tag)]))
      case None =>
        var waited := index - order.submittedIndex;
        if order.ttl.Some? && waited >= order.ttl.value then
          m.(expired := m.expired + [Expiry(order.id, candle.timestamp, waited, order.tag)])
        else m.(still := m.still + [order.(barsWaited := waited)])
  }

  function MatchAll(orders: seq<PendingOrder>, index: nat, candle: Candle, profile: CostProfile, m: Matched): Matched {
    if orders == [] then m
    else MatchOne(orders[|orders| - 1], index, candle, profile, MatchAll(orders[..|orders| - 1], index, candle, profile, m))
  }

  // ---- Applying a strategy's intents ----

  datatype Book = Book(pending: seq<PendingOrder>, sequence: nat, rejections: seq<Rejection>, cancelled: seq<Cancellation>)

  function Find(pending: seq<PendingOrder>, id: int): (r: Option<PendingOrder>)
    ensures r.Some? ==> r.value in pending && r.value.id == id
    ensures r.None? ==> forall o <- pending :: o.id != id
  {
    if pending == [] then None else if pending[0].id == id then Some(pending[0]) else Find(pending[1..], id)
  }

  function Without(pending: seq<PendingOrder>, id: int): (r: seq<PendingOrder>)
    ensures forall o <- r :: o in pending && o.id != id
  {
    if pending == [] then [] else (if pending[0].id != id then [pending[0]] else []) + Without(pending[1..], id)
  }

  function ApplyIntent(intent: Intent, index: nat, candle: Candle, defaultTtl: Option<nat>, b: Book): Book {
    match intent
    case Cancel(id, tag) =>
      (match Find(b.pending, id)
       case None => b.(rejections := b.rejections + [Rejection(id, candle.timestamp, CancelTargetNotOpen, None, 0.0, tag)])
       case Some(order) =>
         b.(pending := Without(b.pending, id),
            cancelled := b.cancelled + [Cancellation(id, candle.timestamp, if tag != "" then tag else order.tag)]))
    case Submit(side, kind, quantity, ttl, tag) =>
      var order := PendingOrder(b.sequence + 1, side, kind, quantity, index, candle.timestamp,
                                if ttl.Some? then ttl else defaultTtl, tag, 0);
      b.(pending := b.pending + [order], sequence := b.sequence + 1)
  }

  function ApplyIntents(intents: seq<Intent>, index: nat, candle: Candle, defaultTtl: Option<nat>, b: Book): Book {
    if intents == [] then b
    else ApplyIntent(intents[|intents| - 1], index, candle, defaultTtl,
                     ApplyIntents(intents[..|intents| - 1], index, candle, defaultTtl, b))
  }

  // ---- One bar, and a run ----

  datatype Run<S> = Run(
    books: Books, pending: seq<PendingOrder>, fills: seq<Fill>, rejections: seq<Rejection>, expired: seq<Expiry>,
    cancelled: seq<Cancellation>, equity: seq<Point>, sequence: nat, peak: real, maxDrawdown: real, barsInMarket: nat, strategy: S)

  function Opening<S>(cfg: Config, s: S): Run<S> {
    Run(OpenBooks(cfg.startingCash, cfg.maxInventory, cfg.maxFillQty), [], [], [], [], [], [], 0, cfg.startingCash, 0.0, 0, s)
  }

  function SnapshotOf(b: Books, mark: real): Snapshot {
    Snapshot(b.cash, b.inventory, AverageEntry(b), b.realized, b.inventory * mark - b.basis, b.cash + b.inventory * mark)
  }

  function Larger(a: real, b: real): real { if a >= b then a else b }

  function Drawdown(peak: real, equity: real): real { if peak > 0.0 then (peak - equity) / peak * 100.0 else 0.0 }

  function MatchBar<S>(cfg: Config, r: Run<S>, index: nat, candle: Candle): Run<S> {
    var m := MatchAll(r.pending, index, candle, cfg.costs, Matched(r.books, [], r.fills, r.rejections, r.expired));
    r.(books := m.books, pending := m.still, fills := m.fills, rejections := m.rejections, expired := m.expired)
  }

  function Observe<S>(r: Run<S>, candle: Candle): Run<S> {
    var snapshot := SnapshotOf(r.books, candle.close);
    var peak := Larger(r.peak, snapshot.equity);
    var drawdown := Drawdown(peak, snapshot.equity);
    r.(peak := peak, maxDrawdown := Larger(r.maxDrawdown, drawdown),
       barsInMarket := r.barsInMarket + (if snapshot.inventory > 0.0 then 1 else 0),
       equity := r.equity + [Point(candle.timestamp, candle.close, snapshot.cash, snapshot.inventory, snapshot.equity, drawdown)])
  }

  function Decide<S>(cfg: Config, r: Run<S>, index: nat, candle: Candle, strategy: Strategy<S>): Option<Run<S>> {
    match strategy(r.strategy, candle, SnapshotOf(r.books, candle.close), r.pending)
    case None => None
    case Some((s, intents)) =>
      if exists i <- intents :: !IntentOk(i) then None else
      var b := ApplyIntents(intents, index, candle, cfg.defaultTtl, Book(r.pending, r.sequence, r.rejections, r.cancelled));
      Some(r.(pending := b.pending, sequence := b.sequence, rejections := b.rejections, cancelled := b.cancelled, strategy := s))
  }

  function Bar<S>(cfg: Config, r: Run<S>, index: nat, candle: Candle, strategy: Strategy<S>): Option<Run<S>> {
    Decide(cfg, Observe(MatchBar(cfg, r, index, candle), candle), index, candle, strategy)
  }

  /** The state after all given bars, or None once the strategy raised. */
  function After<S>(cfg: Config, bars: seq<Candle>, strategy: Strategy<S>, s: S): Option<Run<S>> {
    if bars == [] then Some(Opening(cfg, s))
    else match After(cfg, bars[..|bars| - 1], strategy, s)
      case None => None
      case Some(r) => Bar(cfg, r, |bars| - 1, bars[|bars| - 1], strategy)
  }

  ghost predicate BarsOk(bars: seq<Candle>) {
    (forall c <- bars :: CandleOk(c)) && forall i, j :: 0 <= i < j < |bars| ==> bars[i].timestamp < bars[j].timestamp
  }

  // ---- Conservation ----

  function FillIds(s: seq<Fill>): seq<int> { seq(|s|, i requires 0 <= i < |s| => s[i].orderId) }
  function ExpiredIds(s: seq<Expiry>): seq<int> { seq(|s|, i requires 0 <= i < |s| => s[i].orderId) }
  function CancelledIds(s: seq<Cancellation>): seq<int> { seq(|s|, i requires 0 <= i < |s| => s[i].orderId) }
  function PendingIds(s: seq<PendingOrder>): seq<int> { seq(|s|, i requires 0 <= i < |s| => s[i].id) }

  /** Ids of refused orders; a refused cancel is not an order. */
  function RefusedIds(s: seq<Rejection>): seq<int> {
    if s == [] then [] else RefusedIds(s[..|s| - 1]) + (if s[|s| - 1].reason.Refused? then [s[|s| - 1].orderId] else [])
  }

  function Settled(fills: seq<Fill>, rejections: seq<Rejection>, expired: seq<Expiry>, cancelled: seq<Cancellation>): multiset<int> {
    multiset(FillIds(fills)) + multiset(RefusedIds(rejections)) + multiset(ExpiredIds(expired)) + multiset(CancelledIds(cancelled))
  }

  function Accounted<S>(r: Run<S>): multiset<int> {
    Settled(r.fills, r.rejections, r.expired, r.cancelled) + multiset(PendingIds(r.pending))
  }

  /** The ids 1 to n, once each. */
  function Issued(n: nat): multiset<int> { if n == 0 then multiset{} else Issued(n - 1) + multiset{n} }

  lemma {:induction false} IssuedOnce(n: nat, k: int)
    ensures Issued(n)[k] == if 1 <= k <= n then 1 else 0
  {
    if n > 0 { IssuedOnce(n - 1, k); }
  }

  lemma OneMoreFill(s: seq<Fill>, x: Fill)
    ensures multiset(FillIds(s + [x])) == multiset(FillIds(s)) + multiset{x.orderId}
  {
    assert FillIds(s + [x]) == FillIds(s) + [x.orderId];
  }

  lemma OneMoreRefusal(s: seq<Rejection>, x: Rejection)
    ensures multiset(RefusedIds(s + [x])) == multiset(RefusedIds(s)) + (if x.reason.Refused? then multiset{x.orderId} else multiset{})
  {
    assert (s + [x])[..|s|] == s;
  }

  lemma OneMoreExpiry(s: seq<Expiry>, x: Expiry)
    ensures multiset(ExpiredIds(s + [x])) == multiset(ExpiredIds(s)) + multiset{x.orderId}
  {
    assert ExpiredIds(s + [x]) == ExpiredIds(s) + [x.orderId];
  }

  lemma OneMoreCancellation(s: seq<Cancellation>, x: Cancellation)
    ensures multiset(CancelledIds(s + [x])) == multiset(CancelledIds(s)) + multiset{x.orderId}
  {
    assert CancelledIds(s + [x]) == CancelledIds(s) + [x.orderId];
  }

  lemma OneMorePending(s: seq<PendingOrder>, x: PendingOrder)
    ensures multiset(PendingIds(s + [x])) == multiset(PendingIds(s)) + multiset{x.id}
  {
    assert PendingIds(s + [x]) == PendingIds(s) + [x.id];
  }

  function Held(m: Matched, cancelled: seq<Cancellation>): multiset<int> {
    Settled(m.fills, m.rejections, m.expired, cancelled) + multiset(PendingIds(m.still))
  }

  /** Matching moves an order to exactly one place. */
  lemma MatchOneConserves(order: PendingOrder, index: nat, candle: Candle, profile: CostProfile, m: Matched, cancelled: seq<Cancellation>)
    ensures Held(MatchOne(order, index, candle, profile, m), cancelled) == Held(m, cancelled) + multiset{order.id}
  {
    hide FillIds, RefusedIds, ExpiredIds, CancelledIds, PendingIds, FillPrice, FillCosts, BuyBooks, SellBooks;
    if order.submittedIndex >= index {
      OneMorePending(m.still, order);
    } else {
      match FillPrice(order, candle)
      case Some(price) =>
        var done := Execute(order, candle, price, m.books, profile);
        if done.Ok? {
          OneMoreFill(m.fills, done.value.1);
        } else {
          OneMoreRefusal(m.rejections, Rejection(order.id, candle.timestamp, Refused(done.error), Some(order.side),
                                                 order.quantity, order.tag));
        }
      case None =>
        var waited := index - order.submittedIndex;
        OneMoreExpiry(m.expired, Expiry(order.id, candle.timestamp, waited, order.tag));
        OneMorePending(m.still, order.(barsWaited := waited));
    }
  }

  lemma {:induction false} MatchAllConserves(orders: seq<PendingOrder>, index: nat, candle: Candle,
                                             profile: CostProfile, m: Matched, cancelled: seq<Cancellation>)
    ensures Held(MatchAll(orders, index, candle, profile, m), cancelled) == Held(m, cancelled) + multiset(PendingIds(orders))
  {
    hide Held, MatchOne, PendingIds;
    if orders == [] {
      assert PendingIds([]) == [] by { NoPendingIds(); }
    } else {
      var init, last := orders[..|orders| - 1], orders[|orders| - 1];
      MatchAllConserves(init, index, candle, profile, m, cancelled);
      MatchOneConserves(last, index, candle, profile, MatchAll(init, index, candle, profile, m), cancelled);
      OneMorePending(init, last);
      assert orders == init + [last];
    }
  }

  lemma NoPendingIds()
    ensures PendingIds([]) == []
  {
  }

  lemma FirstPending(order: PendingOrder, rest: seq<PendingOrder>, k: int)
    ensures multiset(PendingIds([order] + rest))[k] == multiset(PendingIds(rest))[k] + (if order.id == k then 1 else 0)
  {
    assert PendingIds([order] + rest) == [order.id] + PendingIds(rest);
  }

  lemma {:induction false} WithoutRemoves(pending: seq<PendingOrder>, id: int, k: int)
    ensures multiset(PendingIds(Without(pending, id)))[k] == if k == id then 0 else multiset(PendingIds(pending))[k]
  {
    hide PendingIds;
    if pending == [] {
      NoPendingIds();
    } else {
      WithoutRemoves(pending[1..], id, k);
      assert pending == [pending[0]] + pending[1..];
      FirstPending(pending[0], pending[1..], k);
      FirstPending(pending[0], Without(pending[1..], id), k);
      assert [] + Without(pending[1..], id) == Without(pending[1..], id);
    }
  }

  lemma CancelMoves(pending: seq<PendingOrder>, order: PendingOrder, n: nat)
    requires order in pending && multiset(PendingIds(pending)) <= Issued(n)
    ensures multiset(PendingIds(pending)) == multiset(PendingIds(Without(pending, order.id))) + multiset{order.id}
  {
    hide PendingIds, Without, Issued;
    PendingIdPresent(pending, order);
    IssuedOnce(n, order.id);
    forall k ensures multiset(PendingIds(Without(pending, order.id)))[k] == if k == order.id then 0 else multiset(PendingIds(pending))[k] {
      WithoutRemoves(pending, order.id, k);
    }
  }

  function BookIds(b: Book, fills: seq<Fill>, expired: seq<Expiry>): multiset<int> {
    Settled(fills, b.rejections, expired, b.cancelled) + multiset(PendingIds(b.pending))
  }

  lemma PendingIdPresent(pending: seq<PendingOrder>, order: PendingOrder)
    requires order in pending
    ensures multiset(PendingIds(pending))[order.id] >= 1
  {
    var i :| 0 <= i < |pending| && pending[i] == order;
    assert PendingIds(pending)[i] == order.id;
    assert order.id in multiset(PendingIds(pending));
  }

  lemma SettledMore(fills: seq<Fill>, rejections: seq<Rejection>, expired: seq<Expiry>, cancelled: seq<Cancellation>, x: Cancellation)
    ensures Settled(fills, rejections, expired, cancelled + [x]) == Settled(fills, rejections, expired, cancelled) + multiset{x.orderId}
  {
    hide FillIds, RefusedIds, ExpiredIds, CancelledIds;
    OneMoreCancellation(cancelled, x);
  }

  lemma SettledSame(fills: seq<Fill>, rejections: seq<Rejection>, expired: seq<Expiry>, cancelled: seq<Cancellation>, x: Rejection)
    requires !x.reason.Refused?
    ensures Settled(fills, rejections + [x], expired, cancelled) == Settled(fills, rejections, expired, cancelled)
  {
    hide FillIds, RefusedIds, ExpiredIds, CancelledIds;
    OneMoreRefusal(rejections, x);
  }

  lemma Shift(s: multiset<int>, s': multiset<int>, p: multiset<int>, p': multiset<int>, x: int)
    requires s' == s + multiset{x} && p == p' + multiset{x}
    ensures s' + p' == s + p
  {
  }

  /** Intents conserve too: a submission issues the next id, a cancel moves one order. */
  lemma ApplyIntentConserves(intent: Intent, index: nat, candle: Candle, ttl: Option<nat>, b: Book, fills: seq<Fill>, expired: seq<Expiry>)
    requires BookIds(b, fills, expired) == Issued(b.sequence)
    ensures var a := ApplyIntent(intent, index, candle, ttl, b);
            BookIds(a, fills, expired) == Issued(a.sequence)
  {
    hide Settled, PendingIds, Without;
    var a := ApplyIntent(intent, index, candle, ttl, b);
    match intent
    case Cancel(id, tag) =>
      var order := Find(b.pending, id);
      if order.None? {
        SettledSame(fills, b.rejections, expired, b.cancelled, a.rejections[|b.rejections|]);
      } else {
        SettledMore(fills, b.rejections, expired, b.cancelled, a.cancelled[|b.cancelled|]);
        CancelMoves(b.pending, order.value, b.sequence);
        Shift(Settled(fills, b.rejections, expired, b.cancelled), Settled(fills, a.rejections, expired, a.cancelled),
              multiset(PendingIds(b.pending)), multiset(PendingIds(a.pending)), id);
      }
    case Submit(_, _, _, _, _) =>
      OneMorePending(b.pending, a.pending[|b.pending|]);
  }

  lemma {:induction false} ApplyIntentsConserve(intents: seq<Intent>, index: nat, candle: Candle, ttl: Option<nat>,
                                                b: Book, fills: seq<Fill>, expired: seq<Expiry>)
    requires BookIds(b, fills, expired) == Issued(b.sequence)
    ensures var a := ApplyIntents(intents, index, candle, ttl, b);
            BookIds(a, fills, expired) == Issued(a.sequence)
  {
    hide BookIds, ApplyIntent;
    if intents != [] {
      var init := intents[..|intents| - 1];
      ApplyIntentsConserve(init, index, candle, ttl, b, fills, expired);
      ApplyIntentConserves(intents[|intents| - 1], index, candle, ttl, ApplyIntents(init, index, candle, ttl, b), fills, expired);
    }
  }

  /** Order conservation: under any strategy, after any bars, every submitted order is in exactly one of filled, refused,
      expired, cancelled and pending. */
  lemma {:induction false} EveryOrderIsAccounted<S>(cfg: Config, bars: seq<Candle>, strategy: Strategy<S>, s: S)
    requires After(cfg, bars, strategy, s).Some?
    ensures var r := After(cfg, bars, strategy, s).value;
            Accounted(r) == Issued(r.sequence) && forall id :: Accounted(r)[id] == if 1 <= id <= r.sequence then 1 else 0
  {
    hide MatchAll, ApplyIntents, Settled, PendingIds, Issued;
    if bars == [] {
      NothingAccounted(cfg, s);
    } else {
      var init, index, candle := bars[..|bars| - 1], |bars| - 1, bars[|bars| - 1];
      EveryOrderIsAccounted(cfg, init, strategy, s);
      BarConserves(cfg, After(cfg, init, strategy, s).value, index, candle, strategy);
    }
    var r := After(cfg, bars, strategy, s).value;
    forall id ensures Issued(r.sequence)[id] == if 1 <= id <= r.sequence then 1 else 0 { IssuedOnce(r.sequence, id); }
  }

  lemma NothingAccounted<S>(cfg: Config, s: S)
    ensures Accounted(Opening(cfg, s)) == Issued(0)
  {
  }

  lemma BarConserves<S>(cfg: Config, r: Run<S>, index: nat, candle: Candle, strategy: Strategy<S>)
    requires Accounted(r) == Issued(r.sequence) && Bar(cfg, r, index, candle, strategy).Some?
    ensures Accounted(Bar(cfg, r, index, candle, strategy).value) == Issued(Bar(cfg, r, index, candle, strategy).value.sequence)
  {
    hide MatchAll, ApplyIntents, PendingIds, Issued, SnapshotOf, Drawdown, FillIds, RefusedIds, ExpiredIds, CancelledIds;
    var start := Matched(r.books, [], r.fills, r.rejections, r.expired);
    MatchAllConserves(r.pending, index, candle, cfg.costs, start, r.cancelled);
    NoPendingIds();
    var m := Observe(MatchBar(cfg, r, index, candle), candle);
    assert Accounted(m) == Issued(m.sequence);
    var answer := strategy(m.strategy, candle, SnapshotOf(m.books, candle.close), m.pending).value;
    ApplyIntentsConserve(answer.1, index, candle, cfg.defaultTtl,
                         Book(m.pending, m.sequence, m.rejections, m.cancelled), m.fills, m.expired);
  }
}
