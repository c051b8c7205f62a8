/** The life of every order of a replay, from the intent a strategy returned to the log entry or the list it ends in
    (research/rea_engines/replay.py). */
module ReplayOrders {
  import opened Prelude
  import opened Accounting
  import opened Replay
  import opened ReplayRuns
  import opened ReplayFills

  // ---- What a strategy asked for ----

  /** A submission a strategy returned, and the bar it returned it at. */
  datatype Submission = Submission(index: nat, at: int, side: Side, kind: Kind, quantity: real, ttl: Option<nat>, tag: string)

  /** The submissions of one answer, in order. */
  function Requests(intents: seq<Intent>, index: nat, at: int): seq<Submission> {
    if intents == [] then [] else
    var last := intents[|intents| - 1];
    Requests(intents[..|intents| - 1], index, at)
    + if last.Submit? then [Submission(index, at, last.side, last.kind, last.quantity, last.ttl, last.tag)] else []
  }

  predicate Cancels(intents: seq<Intent>, id: int) {
    exists i <- intents :: i.Cancel? && i.orderId == id
  }

  /** The bars so far, the strategy's answer to each, and everything it submitted. */
  datatype History = History(bars: seq<Candle>, answers: seq<seq<Intent>>, submitted: seq<Submission>)

  /** The strategy's answer at one bar. */
  ghost function Answer<S>(cfg: Config, r: Run<S>, index: nat, candle: Candle, strategy: Strategy<S>): seq<Intent>
    requires Bar(cfg, r, index, candle, strategy).Some?
  {
    var seen := Observe(MatchBar(cfg, r, index, candle), candle);
    strategy(seen.strategy, candle, SnapshotOf(seen.books, candle.close), seen.pending).value.1
  }

  ghost function HistoryOf<S>(cfg: Config, bars: seq<Candle>, strategy: Strategy<S>, s: S): (h: History)
    requires After(cfg, bars, strategy, s).Some?
    ensures h.bars == bars && |h.answers| == |bars|
  {
    if bars == [] then History([], [], []) else
    var init, k := bars[..|bars| - 1], |bars| - 1;
    var before := HistoryOf(cfg, init, strategy, s);
    var answer := Answer(cfg, After(cfg, init, strategy, s).value, k, bars[k], strategy);
    History(bars, before.answers + [answer], before.submitted + Requests(answer, k, bars[k].timestamp))
  }

  // ---- Where an order ends ----

  /** A bar traded at a price the submission takes. */
  ghost predicate Trades(candle: Candle, s: Submission) {
    exists p :: candle.low <= p <= candle.high && Accepts(s.side, s.kind, p)
  }

  /** Between its own bar and bar `to`, no bar traded at a price the submission takes and no answer cancelled it. */
  ghost predicate Waits(h: History, id: int, to: nat) {
    1 <= id <= |h.submitted| &&
    var s := h.submitted[id - 1];
    && (forall k :: s.index < k < to && k < |h.bars| ==> !Trades(h.bars[k], s))
    && (forall k :: s.index < k < to && k < |h.answers| ==> !Cancels(h.answers[k], id))
  }

  /** A log entry for an order at bar j: the order was submitted by then and had waited since. */
  ghost predicate Reaches(h: History, id: int, j: nat, timestamp: int) {
    Waits(h, id, j) && h.submitted[id - 1].index <= j < |h.bars| && h.bars[j].timestamp == timestamp
  }

  /** The fill of a submission: its terms, at the first bar after its own that trades at a price it takes. */
  ghost predicate FillAt(h: History, f: Fill, j: nat) {
    Reaches(h, f.orderId, j, f.timestamp) &&
    var s := h.submitted[f.orderId - 1];
    && s.index < j && Trades(h.bars[j], s) && f.side == s.side && f.kind == s.kind && f.quantity == s.quantity && f.tag == s.tag
  }

  /** A refused order would have been filled at that bar. */
  ghost predicate RefusalAt(h: History, x: Rejection, j: nat) {
    Reaches(h, x.orderId, j, x.timestamp) &&
    var s := h.submitted[x.orderId - 1];
    s.index < j && Trades(h.bars[j], s) && x.side == Some(s.side) && x.quantity == s.quantity && x.tag == s.tag
  }

  /** A refused cancel is one the strategy returned at that bar; it has no side and no quantity. */
  ghost predicate CancelRefusalAt(h: History, x: Rejection, j: nat) {
    && x.side.None? && x.quantity == 0.0
    && j < |h.bars| && j < |h.answers| && h.bars[j].timestamp == x.timestamp && Cancel(x.orderId, x.tag) in h.answers[j]
  }

  /** The time to live of a submission: its own, or the default where it has none. */
  function Lifetime(s: Submission, defaultTtl: Option<nat>): Option<nat> {
    match s.ttl
    case Some(own) => Some(own)
    case None => defaultTtl
  }

  /** An expired order saw no price it takes in all the bars of its time to live. */
  ghost predicate ExpiryAt(h: History, x: Expiry, defaultTtl: Option<nat>, j: nat) {
    Reaches(h, x.orderId, j, x.timestamp) &&
    var s := h.submitted[x.orderId - 1];
    && s.index < j && !Trades(h.bars[j], s) && x.tag == s.tag
    && Lifetime(s, defaultTtl) == Some(j - s.index) && x.barsWaited == j - s.index
  }

  /** A cancelled order was cancelled by the answer to its own bar or a later one, and had not been filled by then. */
  ghost predicate CancellationAt(h: History, x: Cancellation, j: nat, tag: string) {
    Reaches(h, x.orderId, j, x.timestamp) && j < |h.answers| && Cancel(x.orderId, tag) in h.answers[j] &&
    var s := h.submitted[x.orderId - 1];
    (s.index < j ==> !Trades(h.bars[j], s)) && x.tag == if tag != "" then tag else s.tag
  }

  ghost predicate FillFrom(h: History, f: Fill) { exists j: nat :: FillAt(h, f, j) }

  ghost predicate RejectionFrom(h: History, x: Rejection) {
    if x.reason.Refused? then exists j: nat :: RefusalAt(h, x, j) else exists j: nat :: CancelRefusalAt(h, x, j)
  }

  ghost predicate ExpiryFrom(h: History, x: Expiry, defaultTtl: Option<nat>) { exists j: nat :: ExpiryAt(h, x, defaultTtl, j) }

  ghost predicate CancellationFrom(h: History, x: Cancellation) { exists j: nat, tag :: CancellationAt(h, x, j, tag) }

  /** An open order carries the terms of its submission. */
  predicate Carries(o: PendingOrder, s: Submission, defaultTtl: Option<nat>) {
    && o.side == s.side && o.kind == s.kind && o.quantity == s.quantity && o.tag == s.tag
    && o.submittedIndex == s.index && o.submittedAt == s.at && o.ttl == Lifetime(s, defaultTtl)
  }

  /** An open order, before bar `to` is matched: no price it takes and no cancel since its submission. */
  ghost predicate OpenFrom(h: History, o: PendingOrder, defaultTtl: Option<nat>, to: nat) {
    Waits(h, o.id, to) && h.submitted[o.id - 1].index < |h.bars| && Carries(o, h.submitted[o.id - 1], defaultTtl)
  }

  ghost predicate InOrder(pending: seq<PendingOrder>) {
    forall i, j :: 0 <= i < j < |pending| ==> pending[i].id < pending[j].id
  }

  /** Open orders in the order of their submission. */
  ghost predicate AllOpen(h: History, pending: seq<PendingOrder>, defaultTtl: Option<nat>, to: nat) {
    InOrder(pending) && forall o <- pending :: OpenFrom(h, o, defaultTtl, to)
  }

  ghost predicate LogsFrom(h: History, fills: seq<Fill>, rejections: seq<Rejection>, expired: seq<Expiry>,
                           cancelled: seq<Cancellation>, defaultTtl: Option<nat>) {
    && (forall f <- fills :: FillFrom(h, f)) && (forall x <- rejections :: RejectionFrom(h, x))
    && (forall x <- expired :: ExpiryFrom(h, x, defaultTtl)) && (forall x <- cancelled :: CancellationFrom(h, x))
  }

  // ---- A longer history ----

  /** More bars, more submissions and more of the last answer. */
  ghost predicate Longer(h: History, later: History) {
    && h.bars <= later.bars && h.submitted <= later.submitted && |h.answers| <= |later.answers|
    && |h.bars| - 1 <= |h.answers|
    && (forall k :: 0 <= k < |h.answers| ==> h.answers[k] <= later.answers[k])
    && forall k :: 0 <= k < |h.bars| - 1 ==> h.answers[k] == later.answers[k]
  }

  lemma ReachesLater(h: History, later: History, id: int, j: nat, timestamp: int)
    requires Longer(h, later) && Reaches(h, id, j, timestamp)
    ensures Reaches(later, id, j, timestamp) && later.submitted[id - 1] == h.submitted[id - 1] && later.bars[j] == h.bars[j]
    ensures j < |h.answers| ==> h.answers[j] <= later.answers[j]
  {
    hide Trades, Cancels;
    forall k | h.submitted[id - 1].index < k < j ensures !Trades(later.bars[k], later.submitted[id - 1]) && !Cancels(later.answers[k], id) {
      assert h.answers[k] == later.answers[k] && h.bars[k] == later.bars[k];
    }
  }

  lemma FillLater(h: History, later: History, f: Fill)
    requires Longer(h, later) && FillFrom(h, f)
    ensures FillFrom(later, f)
  {
    hide Waits, Trades, Longer;
    var j: nat :| FillAt(h, f, j);
    ReachesLater(h, later, f.orderId, j, f.timestamp);
    assert FillAt(later, f, j);
  }

  lemma RejectionLater(h: History, later: History, x: Rejection)
    requires Longer(h, later) && RejectionFrom(h, x)
    ensures RejectionFrom(later, x)
  {
    hide Waits, Trades;
    if x.reason.Refused? {
      var j: nat :| RefusalAt(h, x, j);
      ReachesLater(h, later, x.orderId, j, x.timestamp);
      assert RefusalAt(later, x, j);
    } else {
      var j: nat :| CancelRefusalAt(h, x, j);
      assert CancelRefusalAt(later, x, j);
    }
  }

  lemma ExpiryLater(h: History, later: History, x: Expiry, ttl: Option<nat>)
    requires Longer(h, later) && ExpiryFrom(h, x, ttl)
    ensures ExpiryFrom(later, x, ttl)
  {
    hide Waits, Trades, Longer;
    var j: nat :| ExpiryAt(h, x, ttl, j);
    ReachesLater(h, later, x.orderId, j, x.timestamp);
    assert ExpiryAt(later, x, ttl, j);
  }

  lemma CancellationLater(h: History, later: History, x: Cancellation)
    requires Longer(h, later) && CancellationFrom(h, x)
    ensures CancellationFrom(later, x)
  {
    hide Waits, Trades;
    var j: nat, tag :| CancellationAt(h, x, j, tag);
    ReachesLater(h, later, x.orderId, j, x.timestamp);
    assert CancellationAt(later, x, j, tag);
  }

  lemma LogsLater(h: History, later: History, fills: seq<Fill>, rejections: seq<Rejection>, expired: seq<Expiry>,
                  cancelled: seq<Cancellation>, ttl: Option<nat>)
    requires Longer(h, later) && LogsFrom(h, fills, rejections, expired, cancelled, ttl)
    ensures LogsFrom(later, fills, rejections, expired, cancelled, ttl)
  {
    hide Longer, FillFrom, RejectionFrom, ExpiryFrom, CancellationFrom;
    forall f <- fills ensures FillFrom(later, f) { FillLater(h, later, f); }
    forall x <- rejections ensures RejectionFrom(later, x) { RejectionLater(h, later, x); }
    forall x <- expired ensures ExpiryFrom(later, x, ttl) { ExpiryLater(h, later, x, ttl); }
    forall x <- cancelled ensures CancellationFrom(later, x) { CancellationLater(h, later, x); }
  }

  // ---- Matching ----

  lemma TradesIff(h: History, o: PendingOrder, candle: Candle, ttl: Option<nat>, to: nat)
    requires CandleOk(candle) && OpenFrom(h, o, ttl, to)
    ensures Trades(candle, h.submitted[o.id - 1]) <==> FillPrice(o, candle).Some?
  {
    hide FillPrice, Waits;
    FilledIffAcceptable(o, candle);
  }

  lemma ExecuteNames(o: PendingOrder, candle: Candle, price: real, b: Books, profile: CostProfile)
    requires Execute(o, candle, price, b, profile).Ok?
    ensures var f := Execute(o, candle, price, b, profile).value.1;
            f.orderId == o.id && f.tag == o.tag
  {
    hide FillCosts, BuyBooks, SellBooks;
  }

  /** Matching one open order against the newest bar. */
  lemma MatchOneTraced(h: History, o: PendingOrder, index: nat, cfg: Config, m: Matched, cancelled: seq<Cancellation>)
    requires |h.bars| == index + 1 && |h.answers| == index && CandleOk(h.bars[index])
    requires OrderOk(o, index, |h.submitted|) && OpenFrom(h, o, cfg.defaultTtl, index)
    requires AllOpen(h, m.still, cfg.defaultTtl, index + 1) && forall p <- m.still :: p.id < o.id
    requires LogsFrom(h, m.fills, m.rejections, m.expired, cancelled, cfg.defaultTtl)
    ensures var n := MatchOne(o, index, h.bars[index], cfg.costs, m);
            && AllOpen(h, n.still, cfg.defaultTtl, index + 1) && (forall p <- n.still :: p.id <= o.id)
            && LogsFrom(h, n.fills, n.rejections, n.expired, cancelled, cfg.defaultTtl)
  {
    hide Execute, FillPrice, Trades, Cancels, CandleOk, CancellationFrom;
    var candle, s := h.bars[index], h.submitted[o.id - 1];
    var n := MatchOne(o, index, candle, cfg.costs, m);
    TradesIff(h, o, candle, cfg.defaultTtl, index);
    assert Reaches(h, o.id, index, candle.timestamp);
    var price := FillPrice(o, candle);
    if price.Some? {
      var done := Execute(o, candle, price.value, m.books, cfg.costs);
      if done.Ok? {
        ExecuteMoves(o, candle, price.value, m.books, cfg.costs);
        ExecuteNames(o, candle, price.value, m.books, cfg.costs);
        assert FillAt(h, done.value.1, index);
      } else {
        assert RefusalAt(h, n.rejections[|m.rejections|], index);
      }
    } else if o.ttl.Some? && index - o.submittedIndex >= o.ttl.value {
      assert ExpiryAt(h, n.expired[|m.expired|], cfg.defaultTtl, index);
    } else {
      assert OpenFrom(h, n.still[|m.still|], cfg.defaultTtl, index + 1);
    }
  }

  lemma {:induction false} MatchAllTraced(h: History, orders: seq<PendingOrder>, index: nat, cfg: Config, m: Matched,
                                          cancelled: seq<Cancellation>)
    requires |h.bars| == index + 1 && |h.answers| == index && CandleOk(h.bars[index])
    requires OrdersOk(orders, index, |h.submitted|) && AllOpen(h, orders, cfg.defaultTtl, index) && m.still == []
    requires LogsFrom(h, m.fills, m.rejections, m.expired, cancelled, cfg.defaultTtl)
    ensures var n := MatchAll(orders, index, h.bars[index], cfg.costs, m);
            && AllOpen(h, n.still, cfg.defaultTtl, index + 1)
            && (forall p <- n.still :: orders != [] && p.id <= orders[|orders| - 1].id)
            && LogsFrom(h, n.fills, n.rejections, n.expired, cancelled, cfg.defaultTtl)
  {
    hide MatchOne, LogsFrom, OpenFrom, OrderOk, CandleOk;
    if orders != [] {
      var init, last := orders[..|orders| - 1], orders[|orders| - 1];
      MatchAllTraced(h, init, index, cfg, m, cancelled);
      MatchOneTraced(h, last, index, cfg, MatchAll(init, index, h.bars[index], cfg.costs, m), cancelled);
    }
  }

  // ---- Answers ----

  /** The history with the last answer cut to its first intents. */
  function Cut(h: History, intents: seq<Intent>): History
    requires h.bars != []
  {
    History(h.bars, h.answers + [intents], h.submitted + Requests(intents, |h.bars| - 1, h.bars[|h.bars| - 1].timestamp))
  }

  lemma CutIsLonger(h: History, intents: seq<Intent>, next: Intent)
    requires |h.bars| == |h.answers| + 1
    ensures Longer(h, Cut(h, intents)) && Longer(Cut(h, intents), Cut(h, intents + [next]))
  {
    assert (intents + [next])[..|intents|] == intents;
  }

  /** An open order that the next intent does not cancel stays open. */
  lemma StaysOpen(h: History, o: PendingOrder, intents: seq<Intent>, next: Intent, ttl: Option<nat>)
    requires |h.bars| == |h.answers| + 1 && OpenFrom(Cut(h, intents), o, ttl, |h.bars|) && next != Cancel(o.id, next.tag)
    ensures OpenFrom(Cut(h, intents + [next]), o, ttl, |h.bars|)
  {
    hide Trades, Requests;
    CutIsLonger(h, intents, next);
    var k := |h.answers|;
    assert Cancels(intents + [next], o.id) <==> Cancels(intents, o.id);
  }

  lemma NewIsOpen(h: History, intents: seq<Intent>, next: Intent, ttl: Option<nat>)
    requires |h.bars| == |h.answers| + 1 && next.Submit?
    ensures var c := Cut(h, intents + [next]);
            var o := ApplyIntent(next, |h.answers|, h.bars[|h.answers|], ttl, Book([], |c.submitted| - 1, [], [])).pending[0];
            OpenFrom(c, o, ttl, |h.bars|) && |c.submitted| == |Cut(h, intents).submitted| + 1
  {
    assert (intents + [next])[..|intents|] == intents;
  }

  ghost predicate BookFrom(h: History, b: Book, fills: seq<Fill>, expired: seq<Expiry>, ttl: Option<nat>) {
    && |h.submitted| == b.sequence && AllOpen(h, b.pending, ttl, |h.bars|)
    && LogsFrom(h, fills, b.rejections, expired, b.cancelled, ttl)
  }

  lemma {:induction false} WithoutInOrder(pending: seq<PendingOrder>, id: int)
    requires InOrder(pending)
    ensures InOrder(Without(pending, id))
  {
    if pending != [] {
      WithoutInOrder(pending[1..], id);
      assert forall o <- pending[1..] :: pending[0].id < o.id;
    }
  }

  lemma CancelTraced(h: History, intents: seq<Intent>, id: int, tag: string, b: Book, fills: seq<Fill>,
                     expired: seq<Expiry>, ttl: Option<nat>)
    requires |h.bars| == |h.answers| + 1 && BookFrom(Cut(h, intents), b, fills, expired, ttl)
    ensures var next := Cancel(id, tag);
            BookFrom(Cut(h, intents + [next]), ApplyIntent(next, |h.answers|, h.bars[|h.answers|], ttl, b), fills, expired, ttl)
  {
    hide OpenFrom, LogsFrom, Find, Without, Longer;
    var k, next := |h.answers|, Cancel(id, tag);
    var cut, later := Cut(h, intents), Cut(h, intents + [next]);
    var a := ApplyIntent(next, k, h.bars[k], ttl, b);
    CutIsLonger(h, intents, next);
    assert (intents + [next])[..|intents|] == intents;
    LogsLater(cut, later, fills, b.rejections, expired, b.cancelled, ttl);
    var found := Find(b.pending, id);
    if found.None? {
      CancelRefused(later, a.rejections[|b.rejections|], b, fills, expired, ttl);
    } else {
      WithoutInOrder(b.pending, id);
      CancelMade(cut, later, found.value, tag, b, fills, expired, ttl);
    }
    forall o <- a.pending ensures OpenFrom(later, o, ttl, |h.bars|) { StaysOpen(h, o, intents, next, ttl); }
  }

  lemma CancelRefused(h: History, x: Rejection, b: Book, fills: seq<Fill>, expired: seq<Expiry>, ttl: Option<nat>)
    requires LogsFrom(h, fills, b.rejections, expired, b.cancelled, ttl) && x.reason.CancelTargetNotOpen?
    requires h.bars != [] && CancelRefusalAt(h, x, |h.bars| - 1)
    ensures LogsFrom(h, fills, b.rejections + [x], expired, b.cancelled, ttl)
  {
    hide FillFrom, ExpiryFrom, CancellationFrom, CancelRefusalAt, RefusalAt;
  }

  lemma CancelMade(cut: History, h: History, o: PendingOrder, tag: string, b: Book, fills: seq<Fill>,
                   expired: seq<Expiry>, ttl: Option<nat>)
    requires LogsFrom(h, fills, b.rejections, expired, b.cancelled, ttl)
    requires h.bars != [] && |h.bars| == |h.answers| && Longer(cut, h) && cut.bars == h.bars
    requires OpenFrom(cut, o, ttl, |h.bars|) && Cancel(o.id, tag) in h.answers[|h.bars| - 1]
    ensures var x := Cancellation(o.id, h.bars[|h.bars| - 1].timestamp, if tag != "" then tag else o.tag);
            LogsFrom(h, fills, b.rejections, expired, b.cancelled + [x], ttl)
  {
    hide Trades, FillFrom, ExpiryFrom, RejectionFrom;
    var k := |h.bars| - 1;
    var x := Cancellation(o.id, h.bars[k].timestamp, if tag != "" then tag else o.tag);
    assert Reaches(cut, o.id, k, x.timestamp);
    ReachesLater(cut, h, o.id, k, x.timestamp);
    assert CancellationAt(h, x, k, tag);
  }

  lemma SubmitTraced(h: History, intents: seq<Intent>, next: Intent, b: Book, fills: seq<Fill>, expired: seq<Expiry>, ttl: Option<nat>)
    requires |h.bars| == |h.answers| + 1 && BookFrom(Cut(h, intents), b, fills, expired, ttl) && next.Submit?
    ensures BookFrom(Cut(h, intents + [next]), ApplyIntent(next, |h.answers|, h.bars[|h.answers|], ttl, b), fills, expired, ttl)
  {
    hide LogsFrom, Trades, Cancels, Requests, Longer;
    var k := |h.answers|;
    CutIsLonger(h, intents, next);
    assert (intents + [next])[..|intents|] == intents;
    LogsLater(Cut(h, intents), Cut(h, intents + [next]), fills, b.rejections, expired, b.cancelled, ttl);
    NewIsOpen(h, intents, next, ttl);
    forall o <- b.pending ensures OpenFrom(Cut(h, intents + [next]), o, ttl, |h.bars|) && o.id <= b.sequence {
      StaysOpen(h, o, intents, next, ttl);
    }
  }

  lemma {:induction false} IntentsTraced(h: History, intents: seq<Intent>, b: Book, fills: seq<Fill>,
                                         expired: seq<Expiry>, ttl: Option<nat>)
    requires |h.bars| == |h.answers| + 1 && BookFrom(h, b, fills, expired, ttl)
    ensures BookFrom(Cut(h, intents), ApplyIntents(intents, |h.answers|, h.bars[|h.answers|], ttl, b), fills, expired, ttl)
  {
    hide BookFrom, ApplyIntent, Requests;
    if intents == [] {
      NothingAnswered(h, b, fills, expired, ttl);
    } else {
      var init, next := intents[..|intents| - 1], intents[|intents| - 1];
      assert intents == init + [next];
      IntentsTraced(h, init, b, fills, expired, ttl);
      var a := ApplyIntents(init, |h.answers|, h.bars[|h.answers|], ttl, b);
      if next.Submit? {
        SubmitTraced(h, init, next, a, fills, expired, ttl);
      } else {
        CancelTraced(h, init, next.orderId, next.tag, a, fills, expired, ttl);
      }
    }
  }

  lemma NothingAnswered(h: History, b: Book, fills: seq<Fill>, expired: seq<Expiry>, ttl: Option<nat>)
    requires |h.bars| == |h.answers| + 1 && BookFrom(h, b, fills, expired, ttl)
    ensures BookFrom(Cut(h, []), b, fills, expired, ttl)
  {
    hide Trades, FillFrom, RejectionFrom, ExpiryFrom, CancellationFrom;
    LogsLater(h, Cut(h, []), fills, b.rejections, expired, b.cancelled, ttl);
  }

  // ---- Every run ----

  function BookOf<S>(r: Run<S>): Book { Book(r.pending, r.sequence, r.rejections, r.cancelled) }

  /** The history one bar longer, before its answer. */
  function Seen(h: History, candle: Candle): History { h.(bars := h.bars + [candle]) }

  lemma BarSeen(h: History, candle: Candle, b: Book, fills: seq<Fill>, expired: seq<Expiry>, ttl: Option<nat>)
    requires |h.bars| == |h.answers| && BookFrom(h, b, fills, expired, ttl)
    ensures AllOpen(Seen(h, candle), b.pending, ttl, |h.bars|)
    ensures LogsFrom(Seen(h, candle), fills, b.rejections, expired, b.cancelled, ttl)
  {
    hide Trades, Cancels, LogsFrom;
    LogsLater(h, Seen(h, candle), fills, b.rejections, expired, b.cancelled, ttl);
  }

  lemma BarTraced<S>(cfg: Config, r: Run<S>, h: History, candle: Candle, strategy: Strategy<S>)
    requires ConfigOk(cfg) && CandleOk(candle) && |h.bars| == |h.answers| && RunOk(r, cfg, |h.bars|)
    requires Bar(cfg, r, |h.bars|, candle, strategy).Some? && BookFrom(h, BookOf(r), r.fills, r.expired, cfg.defaultTtl)
    ensures var next := Bar(cfg, r, |h.bars|, candle, strategy).value;
            BookFrom(Cut(Seen(h, candle), Answer(cfg, r, |h.bars|, candle, strategy)), BookOf(next), next.fills,
                     next.expired, cfg.defaultTtl)
  {
    hide MatchAll, ApplyIntents, Requests, LedgerOk, AllOpen, LogsFrom, OrdersOk, SnapshotOf, Drawdown, IntentOk, CandleOk;
    var k, seen := |h.bars|, Seen(h, candle);
    BarSeen(h, candle, BookOf(r), r.fills, r.expired, cfg.defaultTtl);
    MatchAllTraced(seen, r.pending, k, cfg, Matched(r.books, [], r.fills, r.rejections, r.expired), r.cancelled);
    var m := Observe(MatchBar(cfg, r, k, candle), candle);
    IntentsTraced(seen, Answer(cfg, r, k, candle, strategy), BookOf(m), m.fills, m.expired, cfg.defaultTtl);
  }

  lemma NothingTraced<S>(cfg: Config, s: S)
    ensures BookFrom(History([], [], []), BookOf(Opening(cfg, s)), [], [], cfg.defaultTtl)
  {
  }

  /** After any bars under any strategy: order number n is the n-th submission the strategy returned; a fill or a refusal has
      its terms and comes at the first later bar that trades at a price it takes; an expiry comes when its own or the default
      time to live has passed without one; a cancellation is one the strategy returned; and an open order still carries its
      terms, with no price it takes and no cancel since. */
  lemma {:induction false} EveryOrderIsTraced<S>(cfg: Config, bars: seq<Candle>, strategy: Strategy<S>, s: S)
    requires ConfigOk(cfg) && (forall c <- bars :: CandleOk(c)) && After(cfg, bars, strategy, s).Some?
    ensures var r, h := After(cfg, bars, strategy, s).value, HistoryOf(cfg, bars, strategy, s);
            && r.sequence == |h.submitted| && AllOpen(h, r.pending, cfg.defaultTtl, |bars|)
            && LogsFrom(h, r.fills, r.rejections, r.expired, r.cancelled, cfg.defaultTtl)
  {
    hide Bar, RunOk, AllOpen, LogsFrom, Requests, CandleOk, Answer;
    if bars == [] {
      NothingTraced(cfg, s);
    } else {
      var init, k := bars[..|bars| - 1], |bars| - 1;
      EveryOrderIsTraced(cfg, init, strategy, s);
      EveryRunIsOk(cfg, init, strategy, s);
      var before := HistoryOf(cfg, init, strategy, s);
      assert init + [bars[k]] == bars;
      BarTraced(cfg, After(cfg, init, strategy, s).value, before, bars[k], strategy);
    }
  }

  // ---- One answer ----

  /** A submission of the answer, with the id it was given: open with its terms, or cancelled by the same answer. */
  ghost predicate Leaves(b: Book, a: Book, intents: seq<Intent>, id: nat, s: Submission, ttl: Option<nat>) {
    || (exists o <- a.pending :: o.id == id && o.barsWaited == 0 && Carries(o, s, ttl))
    || (Cancels(intents, id) && exists i :: |b.cancelled| <= i < |a.cancelled| && a.cancelled[i].orderId == id)
  }

  lemma {:induction false} WithoutKeeps(pending: seq<PendingOrder>, id: int, o: PendingOrder)
    requires o in pending && o.id != id
    ensures o in Without(pending, id)
  {
    if pending[0] != o { WithoutKeeps(pending[1..], id, o); }
  }

  /** A cancel closes the open order with that id and no other, and is logged once: as a cancellation if there is one,
      as a refusal if not. */
  lemma CancelCloses(id: int, tag: string, index: nat, candle: Candle, ttl: Option<nat>, b: Book)
    ensures var a := ApplyIntent(Cancel(id, tag), index, candle, ttl, b);
            && (forall o :: o in a.pending <==> o in b.pending && o.id != id) && a.sequence == b.sequence
            && if exists o <- b.pending :: o.id == id
               then a.rejections == b.rejections && |a.cancelled| == |b.cancelled| + 1 && b.cancelled < a.cancelled
                    && a.cancelled[|b.cancelled|].orderId == id
               else a.cancelled == b.cancelled && |a.rejections| == |b.rejections| + 1 && b.rejections < a.rejections
                    && a.rejections[|b.rejections|].orderId == id && a.rejections[|b.rejections|].reason.CancelTargetNotOpen?
  {
    hide Without;
    forall o | o in b.pending && o.id != id ensures o in Without(b.pending, id) { WithoutKeeps(b.pending, id, o); }
  }

  /** The i-th submission of an answer leaves an order with the i-th next id and the submission's terms, unless the same
      answer cancels it. */
  lemma {:induction false} SubmissionsLeaveOrders(intents: seq<Intent>, index: nat, candle: Candle, ttl: Option<nat>, b: Book)
    ensures var a, q := ApplyIntents(intents, index, candle, ttl, b), Requests(intents, index, candle.timestamp);
            && a.sequence == b.sequence + |q| && b.cancelled <= a.cancelled
            && forall i :: 0 <= i < |q| ==> Leaves(b, a, intents, b.sequence + 1 + i, q[i], ttl)
  {
    hide Without, Find, Cancels;
    if intents != [] {
      var init, next := intents[..|intents| - 1], intents[|intents| - 1];
      assert init + [next] == intents;
      SubmissionsLeaveOrders(init, index, candle, ttl, b);
      var m, a := ApplyIntents(init, index, candle, ttl, b), ApplyIntents(intents, index, candle, ttl, b);
      var q := Requests(init, index, candle.timestamp);
      if next.Cancel? { CancelCloses(next.orderId, next.tag, index, candle, ttl, m); }
      forall i | 0 <= i < |q| ensures Leaves(b, a, intents, b.sequence + 1 + i, q[i], ttl) {
        LeavesLater(b, m, a, init, next, index, candle, b.sequence + 1 + i, q[i], ttl);
      }
    }
  }

  lemma LeavesLater(b: Book, m: Book, a: Book, intents: seq<Intent>, next: Intent, index: nat, candle: Candle,
                    id: nat, s: Submission, ttl: Option<nat>)
    requires Leaves(b, m, intents, id, s, ttl) && b.cancelled <= m.cancelled && a == ApplyIntent(next, index, candle, ttl, m)
    ensures Leaves(b, a, intents + [next], id, s, ttl)
  {
    hide Without, Find;
    if next.Cancel? { CancelCloses(next.orderId, next.tag, index, candle, ttl, m); }
    assert m.cancelled <= a.cancelled;
    assert Cancels(intents, id) ==> Cancels(intents + [next], id);
  }

  /** A submission without a positive quantity, limit price or time to live. */
  predicate Unfit(i: Intent) {
    i.Submit? && (i.quantity <= 0.0 || (i.kind.Limit? && i.kind.price <= 0.0) || (i.ttl.Some? && i.ttl.value == 0))
  }

  /** A run fails at a bar if and only if the strategy raises there, by itself or by making such a submission; it is shown the
      books and the open orders as matching left them. */
  lemma BarFailsIff<S>(cfg: Config, r: Run<S>, index: nat, candle: Candle, strategy: Strategy<S>)
    ensures var m := MatchBar(cfg, r, index, candle);
            var answer := strategy(r.strategy, candle, SnapshotOf(m.books, candle.close), m.pending);
            Bar(cfg, r, index, candle, strategy).None? <==> answer.None? || exists i <- answer.value.1 :: Unfit(i)
  {
    hide MatchAll, ApplyIntents, SnapshotOf, Drawdown;
    UnfitIff();
  }

  lemma UnfitIff()
    ensures forall i: Intent :: IntentOk(i) <==> !Unfit(i)
  {
  }
}
