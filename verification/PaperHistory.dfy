/** What every replayable journal of the paper engine says about its orders, fills and blocks. */
module PaperHistory {
  import opened Prelude
  import opened ExecutionResilience
  import opened PaperContract

  function HeadOf(recs: seq<Record>): Digest {
    if recs == [] then Genesis else recs[|recs| - 1].hash
  }

  predicate LinkOk(recs: seq<Record>, i: nat)
    requires i < |recs|
  {
    && recs[i].base.journalSeq == i + 1
    && recs[i].base.eventId != ""
    && recs[i].base.prev == HeadOf(recs[..i])
    && recs[i].hash == Sha(recs[i].base)
  }

  predicate DistinctEvents(recs: seq<Record>) {
    forall i, j :: 0 <= i < j < |recs| ==> recs[i].base.eventId != recs[j].base.eventId
  }

  /** A valid hash chain with consecutive sequence numbers and no event id used twice. */
  predicate ChainOk(recs: seq<Record>) {
    (forall i :: 0 <= i < |recs| ==> LinkOk(recs, i)) && DistinctEvents(recs)
  }

  lemma ChainPrefix(recs: seq<Record>, n: nat)
    requires ChainOk(recs) && n <= |recs|
    ensures ChainOk(recs[..n])
  {
    forall i | 0 <= i < n ensures LinkOk(recs[..n], i) {
      assert LinkOk(recs, i) && recs[..n][..i] == recs[..i];
    }
  }

  lemma ChainExtend(recs: seq<Record>, r: Record)
    requires ChainOk(recs)
    requires r.base.journalSeq == |recs| + 1 && r.base.eventId != "" && r.base.prev == HeadOf(recs) && r.hash == Sha(r.base)
    requires forall x <- recs :: x.base.eventId != r.base.eventId
    ensures ChainOk(recs + [r])
  {
    var all := recs + [r];
    forall i | 0 <= i < |all| ensures LinkOk(all, i) {
      assert all[..i] == recs[..i];
      if i < |recs| { assert LinkOk(recs, i); } else { assert recs[..i] == recs; }
    }
    assert forall i :: 0 <= i < |recs| ==> recs[i] in recs;
  }

  lemma HeadIsGenesisOnlyWhenEmpty(recs: seq<Record>)
    requires ChainOk(recs)
    ensures HeadOf(recs) == Genesis <==> recs == []
  {
    if recs != [] { assert LinkOk(recs, |recs| - 1); }
  }

  /** The head digest commits to the whole journal: equal heads, equal journals. */
  lemma {:induction false} HeadDeterminesJournal(a: seq<Record>, b: seq<Record>)
    requires ChainOk(a) && ChainOk(b) && HeadOf(a) == HeadOf(b)
    ensures a == b
  {
    if a != [] && b != [] {
      var m, n := |a| - 1, |b| - 1;
      assert LinkOk(a, m) && LinkOk(b, n);
      ChainPrefix(a, m);
      ChainPrefix(b, n);
      HeadDeterminesJournal(a[..m], b[..n]);
      assert a == a[..m] + [a[m]] && b == b[..n] + [b[n]];
    } else {
      HeadIsGenesisOnlyWhenEmpty(a);
      HeadIsGenesisOnlyWhenEmpty(b);
    }
  }

  lemma {:induction false} ReplayPrefix(start: Memory, limits: Limits, recs: seq<Record>, n: nat)
    requires Replay(start, limits, recs).Ok? && n <= |recs|
    ensures Replay(start, limits, recs[..n]).Ok?
  {
    if n == |recs| {
      assert recs[..n] == recs;
    } else {
      ReplayPrefix(start, limits, recs[..|recs| - 1], n);
      assert recs[..|recs| - 1][..n] == recs[..n];
    }
  }

  lemma ReplaySnoc(start: Memory, limits: Limits, recs: seq<Record>, r: Record)
    requires Replay(start, limits, recs).Ok?
    ensures Replay(start, limits, recs + [r]) == Absorb(Replay(start, limits, recs).value, limits, r)
  {
    assert (recs + [r])[..|recs|] == recs;
  }

  // ---- Every order's filled quantity is the sum of its journaled fills ----

  function FilledIn(recs: seq<Record>, orderId: string): real {
    if recs == [] then 0.0
    else
      var p := recs[|recs| - 1].base.payload;
      FilledIn(recs[..|recs| - 1], orderId) + (if p.FillApplied? && p.fill.orderId == orderId then p.fill.quantity else 0.0)
  }

  function FillIdsIn(recs: seq<Record>): seq<string> {
    if recs == [] then []
    else
      var p := recs[|recs| - 1].base.payload;
      FillIdsIn(recs[..|recs| - 1]) + (if p.FillApplied? then [p.fill.fillId] else [])
  }

  ghost predicate Facts(m: Memory, limits: Limits, recs: seq<Record>) {
    StateFacts(m.core.state, limits) && FillFacts(m.core.state, recs) && TerminalFacts(m.core)
  }

  ghost predicate StateFacts(s: PaperState, limits: Limits) {
    StateOk(s) && Balanced(s) && s.inventory <= limits.maxInventory
  }

  ghost predicate FillFacts(s: PaperState, recs: seq<Record>) {
    && s.fillIds == FillIdsIn(recs) && s.lastEventSeq == |s.fillIds|
    && (forall i :: 0 <= i < |s.orders| ==> s.orders[i].filled == FilledIn(recs, s.orders[i].orderId))
    && (forall id :: FindOrder(s.orders, id).None? ==> FilledIn(recs, id) == 0.0)
  }

  ghost predicate TerminalFacts(c: Core) {
    forall id <- c.terminal :: FindOrder(c.state.orders, id).Some? && c.state.orders[FindOrder(c.state.orders, id).value].status != Filled
  }

  /** What an accepted registration changes. */
  lemma AbsorbRegistration(m: Memory, limits: Limits, r: Record)
    requires StateOk(m.core.state) && r.base.payload.OrderRegistered? && Absorb(m, limits, r).Ok?
    ensures var p, s, n := r.base.payload, m.core.state, Absorb(m, limits, r).value;
            && n.core.state == s.(orders := s.orders + [PaperOrder(p.orderId, p.clientOrderId, p.side, p.quantity, 0.0, Open)])
            && StateOk(n.core.state) && n.core.terminal == m.core.terminal
            && FindOrder(s.orders, p.orderId).None?
  {
    var s, p := m.core.state, r.base.payload;
    RegisterFreshAgainst(s, s.orders, p.orderId, p.clientOrderId, p.side, p.quantity);
  }

  /** What an accepted fill changes. */
  lemma AbsorbFill(m: Memory, limits: Limits, r: Record) returns (k: nat)
    requires StateFacts(m.core.state, limits) && r.base.payload.FillApplied? && Absorb(m, limits, r).Ok?
    ensures var p, s, n := r.base.payload, m.core.state, Absorb(m, limits, r).value;
            var e := EventOf(p.fill, p.fillSeq);
            && FindOrder(s.orders, e.orderId) == Some(k) && p.fill.orderId !in m.core.terminal
            && FillEventOk(e) && e.fillId !in s.fillIds && e.eventSeq == s.lastEventSeq + 1
            && s.orders[k].status != Filled && e.quantity <= s.orders[k].Remaining()
            && MoveMoney(s, e).Ok? && n.core.state == FilledState(s, k, e, MoveMoney(s, e).value)
            && StateFacts(n.core.state, limits) && n.core.terminal == m.core.terminal
  {
    var e := EventOf(r.base.payload.fill, r.base.payload.fillSeq);
    k := FindOrder(m.core.state.orders, e.orderId).value;
    ApplyFillKeepsState(m.core.state, e);
  }

  lemma AppendedOrderFind(orders: seq<PaperOrder>, o: PaperOrder)
    requires DistinctOrders(orders + [o])
    ensures forall id :: FindOrder(orders, id).Some? ==> FindOrder(orders + [o], id) == FindOrder(orders, id)
    ensures FindOrder(orders + [o], o.orderId) == Some(|orders|)
  {
    var all := orders + [o];
    forall id | FindOrder(orders, id).Some? ensures FindOrder(all, id) == FindOrder(orders, id) {
      var k := FindOrder(orders, id).value;
      assert all[k] == orders[k];
      FindOrderAt(all, k);
    }
    FindOrderAt(all, |orders|);
  }

  lemma RegistrationKeepsFacts(m: Memory, limits: Limits, recs: seq<Record>, r: Record)
    requires Facts(m, limits, recs) && r.base.payload.OrderRegistered? && Absorb(m, limits, r).Ok?
    ensures Facts(Absorb(m, limits, r).value, limits, recs + [r])
  {
    var s, p, n := m.core.state, r.base.payload, Absorb(m, limits, r).value;
    assert (recs + [r])[..|recs|] == recs;
    AbsorbRegistration(m, limits, r);
    AppendedOrderFind(s.orders, PaperOrder(p.orderId, p.clientOrderId, p.side, p.quantity, 0.0, Open));
  }

  lemma FillKeepsFacts(m: Memory, limits: Limits, recs: seq<Record>, r: Record)
    requires Facts(m, limits, recs) && r.base.payload.FillApplied? && Absorb(m, limits, r).Ok?
    ensures Facts(Absorb(m, limits, r).value, limits, recs + [r])
  {
    var k := AbsorbFill(m, limits, r);
    var s, t := m.core.state, Absorb(m, limits, r).value.core.state;
    assert (recs + [r])[..|recs|] == recs;
    SameIdsSameFind(s.orders, t.orders);
    FillSumsKept(s, t, k, recs, r);
  }

  lemma FillSumsKept(s: PaperState, t: PaperState, k: nat, recs: seq<Record>, r: Record)
    requires FillFacts(s, recs) && DistinctOrders(s.orders) && r.base.payload.FillApplied?
    requires FindOrder(s.orders, r.base.payload.fill.orderId) == Some(k)
    requires t.orders == s.orders[k := FillOrder(s.orders[k], r.base.payload.fill.quantity)]
    requires t.fillIds == s.fillIds + [r.base.payload.fill.fillId] && t.lastEventSeq == s.lastEventSeq + 1
    ensures FillFacts(t, recs + [r])
  {
    assert (recs + [r])[..|recs|] == recs;
    SameIdsSameFind(s.orders, t.orders);
  }

  /** Replacing orders by orders with the same ids leaves every lookup where it was. */
  lemma {:induction false} SameIdsSameFind(a: seq<PaperOrder>, b: seq<PaperOrder>)
    requires |a| == |b| && forall i :: 0 <= i < |a| ==> a[i].orderId == b[i].orderId
    ensures forall id :: FindOrder(a, id) == FindOrder(b, id)
  {
    if a != [] { SameIdsSameFind(a[1..], b[1..]); }
  }

  lemma NonFillKeepsSums(s: PaperState, recs: seq<Record>, r: Record)
    requires FillFacts(s, recs) && !r.base.payload.FillApplied?
    ensures FillFacts(s, recs + [r])
  {
    assert (recs + [r])[..|recs|] == recs;
    assert forall id :: FilledIn(recs + [r], id) == FilledIn(recs, id);
  }

  lemma EndingKeepsTerminalFacts(m: Memory, limits: Limits, r: Record)
    requires TerminalFacts(m.core) && !r.base.payload.FillApplied? && !r.base.payload.OrderRegistered? && Absorb(m, limits, r).Ok?
    ensures TerminalFacts(Absorb(m, limits, r).value.core) && Absorb(m, limits, r).value.core.state == m.core.state
  {
    hide ReduceFill, ReduceRegistration, Report, StateOk;
  }

  lemma OtherKeepsFacts(m: Memory, limits: Limits, recs: seq<Record>, r: Record)
    requires Facts(m, limits, recs) && !r.base.payload.FillApplied? && !r.base.payload.OrderRegistered? && Absorb(m, limits, r).Ok?
    ensures Facts(Absorb(m, limits, r).value, limits, recs + [r])
  {
    NonFillKeepsSums(m.core.state, recs, r);
    EndingKeepsTerminalFacts(m, limits, r);
  }

  lemma AbsorbKeepsFacts(m: Memory, limits: Limits, recs: seq<Record>, r: Record)
    requires Facts(m, limits, recs) && Absorb(m, limits, r).Ok?
    ensures Facts(Absorb(m, limits, r).value, limits, recs + [r])
  {
    if r.base.payload.OrderRegistered? { RegistrationKeepsFacts(m, limits, recs, r); }
    else if r.base.payload.FillApplied? { FillKeepsFacts(m, limits, recs, r); }
    else { OtherKeepsFacts(m, limits, recs, r); }
  }

  /** A fresh fill of an open order is taken by the reducer exactly when a ledger with the same limits takes it, and moves
      the same money, inventory, basis, profit and fees. */
  lemma FillStepRefinesLedger(c: Core, limits: Limits, p: Payload, k: nat)
    requires StateFacts(c.state, limits) && p.FillApplied? && FindOrder(c.state.orders, p.fill.orderId) == Some(k)
    requires p.fill.orderId !in c.terminal && p.fillSeq == c.state.lastEventSeq + 1
    requires var e := EventOf(p.fill, p.fillSeq);
             FillEventOk(e) && e.fillId !in c.state.fillIds && CheckFresh(c.state, c.state.orders[k], e).None?
    ensures var r := ReduceFill(c, limits, p, p.fill.timestamp);
            var books := LedgerStep(BooksOf(c.state, limits.maxInventory, limits.maxFillQty), EventOf(p.fill, p.fillSeq));
            (r.Ok? <==> books.Ok?)
            && (r.Ok? ==> BooksOf(r.value.state, limits.maxInventory, limits.maxFillQty) == books.value.0)
  {
    var e := EventOf(p.fill, p.fillSeq);
    if e.quantity <= limits.maxFillQty && (e.side == Buy ==> c.state.inventory + e.quantity <= limits.maxInventory) {
      FillRefinesLedger(c.state, k, e, limits.maxInventory, limits.maxFillQty);
    }
  }

  function Origin(startingCash: real, source: string, config: string): Memory {
    Fresh(InitialState(startingCash, source, config))
  }

  lemma FactsGrow(m: Memory, limits: Limits, init: seq<Record>, r: Record, recs: seq<Record>)
    requires Facts(m, limits, init) && Absorb(m, limits, r).Ok? && recs == init + [r]
    ensures Facts(Absorb(m, limits, r).value, limits, recs)
  {
    hide Facts, Absorb;
    AbsorbKeepsFacts(m, limits, init, r);
  }

  /** In every replayable journal each order's filled quantity is the sum of its journaled fills and at most the
      requested quantity, the event counter counts the fills, inventory is within its limit, and money is conserved. */
  lemma {:induction false} ReplayFacts(start: Memory, limits: Limits, recs: seq<Record>)
    requires Facts(start, limits, []) && Replay(start, limits, recs).Ok?
    ensures Facts(Replay(start, limits, recs).value, limits, recs)
  {
    hide Absorb, Facts;
    if recs != [] {
      var init, r := recs[..|recs| - 1], recs[|recs| - 1];
      ReplayFacts(start, limits, init);
      assert recs == init + [r];
      FactsGrow(Replay(start, limits, init).value, limits, init, r, recs);
    }
  }

  lemma OriginFacts(startingCash: real, source: string, config: string, limits: Limits)
    requires startingCash > 0.0 && LimitsOk(limits)
    ensures Facts(Origin(startingCash, source, config), limits, [])
    ensures var m := Origin(startingCash, source, config);
            var s := m.core.state;
            && s.cash == s.startingCash == startingCash && s.orders == [] && s.fillIds == []
            && s.sourceSha == source && s.configSha == config
            && s.inventory == s.basis == s.realized == s.fees == s.spread == s.slippage == s.turnover == 0.0
            && m.core.terminal == map[] && m.core.journalSeq == 0 && m.core.blocked.None? && m.events == map[] && m.fills == map[]
  {
  }

  // ---- Finished orders are frozen ----

  predicate Finished(c: Core, k: nat)
    requires k < |c.state.orders|
  {
    c.state.orders[k].status == Filled || c.state.orders[k].orderId in c.terminal
  }

  /** Orders keep their place and terms, fills only grow, and a finished order never changes again. */
  ghost predicate Succeeds(a: Core, b: Core) {
    && |a.state.orders| <= |b.state.orders|
    && (forall k :: 0 <= k < |a.state.orders| ==>
          var x, y := a.state.orders[k], b.state.orders[k];
          && x.orderId == y.orderId && x.clientOrderId == y.clientOrderId && x.side == y.side && x.requested == y.requested
          && x.filled <= y.filled && (Finished(a, k) ==> y == x))
    && (forall id <- a.terminal :: id in b.terminal && b.terminal[id] == a.terminal[id])
  }

  lemma AbsorbSucceeds(m: Memory, limits: Limits, recs: seq<Record>, r: Record)
    requires Facts(m, limits, recs) && Absorb(m, limits, r).Ok?
    ensures Succeeds(m.core, Absorb(m, limits, r).value.core)
  {
    if r.base.payload.OrderRegistered? { AbsorbRegistration(m, limits, r); }
    else if r.base.payload.FillApplied? { var k := AbsorbFill(m, limits, r); }
    else { EndingSucceeds(m, limits, r); }
  }

  lemma EndingSucceeds(m: Memory, limits: Limits, r: Record)
    requires !r.base.payload.FillApplied? && !r.base.payload.OrderRegistered? && Absorb(m, limits, r).Ok?
    ensures Succeeds(m.core, Absorb(m, limits, r).value.core)
  {
  }

  /** Over any continuation of a journal, finished orders stay exactly as they were. */
  lemma {:induction false} ReplaySucceeds(start: Memory, limits: Limits, recs: seq<Record>, n: nat)
    requires Facts(start, limits, []) && n <= |recs| && Replay(start, limits, recs).Ok?
    ensures Replay(start, limits, recs[..n]).Ok?
    ensures Succeeds(Replay(start, limits, recs[..n]).value.core, Replay(start, limits, recs).value.core)
  {
    ReplayPrefix(start, limits, recs, n);
    if n == |recs| {
      assert recs[..n] == recs;
    } else {
      var init := recs[..|recs| - 1];
      ReplaySucceeds(start, limits, init, n);
      assert init[..n] == recs[..n];
      ReplayFacts(start, limits, init);
      AbsorbSucceeds(Replay(start, limits, init).value, limits, init, recs[|recs| - 1]);
      SucceedsTransitive(Replay(start, limits, recs[..n]).value.core, Replay(start, limits, init).value.core,
                         Replay(start, limits, recs).value.core);
    }
  }

  lemma SucceedsTransitive(a: Core, b: Core, c: Core)
    requires Succeeds(a, b) && Succeeds(b, c)
    ensures Succeeds(a, c)
  {
    forall k | 0 <= k < |a.state.orders|
      ensures var x, y := a.state.orders[k], c.state.orders[k];
              && x.orderId == y.orderId && x.clientOrderId == y.clientOrderId && x.side == y.side && x.requested == y.requested
              && x.filled <= y.filled && (Finished(a, k) ==> y == x)
    {
      if Finished(a, k) { assert Finished(b, k); }
    }
  }

  // ---- Blocks ----

  /** Nothing is recorded between a failed reconciliation and its resolution, and resolutions appear nowhere else. */
  lemma BlockAdmitsOnlyResolution(start: Memory, limits: Limits, recs: seq<Record>, i: nat)
    requires Replay(start, limits, recs).Ok? && i < |recs|
    ensures Replay(start, limits, recs[..i]).Ok?
    ensures Replay(start, limits, recs[..i]).value.core.blocked.Some? <==> recs[i].base.payload.DivergenceResolved?
  {
    ReplayPrefix(start, limits, recs, i);
    ReplayPrefix(start, limits, recs, i + 1);
    assert recs[..i + 1][..i] == recs[..i];
  }

  ghost predicate EndsInDivergence(start: Memory, limits: Limits, recs: seq<Record>)
    requires Replay(start, limits, recs).Ok?
  {
    recs != [] && recs[|recs| - 1].base.payload.SnapshotReconciled? &&
    var before := Replay(start, limits, recs[..|recs| - 1]).value.core;
    var p := recs[|recs| - 1].base.payload;
    Report(before.state, before.terminal, p.observed, p.tolerance) != Ok([])
  }

  /** A replayed engine is blocked exactly when the journal ends in a reconciliation that found discrepancies. */
  lemma BlockedIffEndsInDivergence(start: Memory, limits: Limits, recs: seq<Record>)
    requires start.core.blocked.None? && Replay(start, limits, recs).Ok?
    ensures var b := Replay(start, limits, recs).value.core.blocked;
            && (b.Some? <==> EndsInDivergence(start, limits, recs))
            && (b.Some? ==> b == Some(Divergence(recs[|recs| - 1].base.journalSeq)))
  {
    if recs != [] {
      BlockAdmitsOnlyResolution(start, limits, recs, |recs| - 1);
      AbsorbBlock(Replay(start, limits, recs[..|recs| - 1]).value, limits, recs[|recs| - 1]);
    }
  }

  lemma AbsorbBlock(m: Memory, limits: Limits, r: Record)
    requires Absorb(m, limits, r).Ok?
    ensures var b := Absorb(m, limits, r).value.core.blocked;
            var diverged := r.base.payload.SnapshotReconciled?
              && Report(m.core.state, m.core.terminal, r.base.payload.observed, r.base.payload.tolerance) != Ok([]);
            && (m.core.blocked.Some? <==> r.base.payload.DivergenceResolved?)
            && b == if diverged then Some(Divergence(r.base.journalSeq)) else None
  {
  }

  // ---- Idempotent commands ----

  lemma {:induction false} EventsKept(m: Memory, limits: Limits, more: seq<Record>, id: string)
    requires id in m.events && Replay(m, limits, more).Ok? && forall x <- more :: x.base.eventId != id
    ensures var n := Replay(m, limits, more).value; id in n.events && n.events[id] == m.events[id]
  {
    if more != [] {
      assert forall x <- more[..|more| - 1] :: x in more;
      assert more[|more| - 1] in more;
      EventsKept(m, limits, more[..|more| - 1], id);
    }
  }

  lemma {:induction false} ReplayAppend(start: Memory, limits: Limits, a: seq<Record>, b: seq<Record>)
    requires Replay(start, limits, a + b).Ok?
    ensures Replay(start, limits, a).Ok? && Replay(start, limits, a + b) == Replay(Replay(start, limits, a).value, limits, b)
  {
    if b == [] {
      assert a + b == a;
    } else {
      var init := b[..|b| - 1];
      assert (a + b)[..|a + b| - 1] == a + init;
      ReplayAppend(start, limits, a, init);
    }
  }

  function Reblocked(m: Memory, b: Option<Block>): Memory { m.(core := m.core.(blocked := b)) }

  lemma ProposedBase(m: Memory, limits: Limits, eventId: string, timestamp: int, payload: Payload, allowBlocked: bool)
    requires DecideRecord(m, limits, eventId, timestamp, payload, allowBlocked).Propose?
    ensures eventId != ""
    ensures DecideRecord(m, limits, eventId, timestamp, payload, allowBlocked).record.base == Next(m, eventId, timestamp, payload)
    ensures Reduce(m.core, limits, Next(m, eventId, timestamp, payload)).Ok?
  {
    hide Reduce, DecideRepeat, Adopt;
  }

  lemma RegisterRepeated(m0: Memory, m: Memory, limits: Limits, cmd: Command)
    requires cmd.Register? && Decide(m0, limits, cmd).Propose? && Indexed(m, Decide(m0, limits, cmd).record)
    ensures Decide(m, limits, cmd).Repeated?
  {
    hide Reduce, Report, Adopt;
    ProposedBase(m0, limits, cmd.eventId, cmd.timestamp, OrderRegistered(cmd.orderId, cmd.clientOrderId, cmd.side, cmd.quantity), false);
  }

  lemma FillRepeated(m0: Memory, m: Memory, limits: Limits, cmd: Command)
    requires cmd.Fill? && Decide(m0, limits, cmd).Propose? && Indexed(m, Decide(m0, limits, cmd).record)
    requires FindOrder(m.core.state.orders, cmd.fill.orderId).Some?
    ensures Decide(m, limits, cmd).Repeated?
  {
    hide DecideRecord, StatusOf;
    var payload := FillApplied(cmd.fill, m0.core.state.lastEventSeq + 1);
    assert Decide(m0, limits, cmd) == DecideRecord(m0, limits, cmd.eventId, cmd.fill.timestamp, payload, false);
    ProposedBase(m0, limits, cmd.eventId, cmd.fill.timestamp, payload, false);
  }

  lemma EndRepeated(m0: Memory, m: Memory, limits: Limits, cmd: Command)
    requires cmd.End? && Decide(m0, limits, cmd).Propose? && Indexed(m, Decide(m0, limits, cmd).record)
    requires var k, k0 := FindOrder(m.core.state.orders, cmd.orderId), FindOrder(m0.core.state.orders, cmd.orderId);
             k.Some? && k0.Some? && m.core.state.orders[k.value].Remaining() == m0.core.state.orders[k0.value].Remaining()
    ensures Decide(m, limits, cmd).Repeated?
  {
    hide DecideRecord;
    var k0 := FindOrder(m0.core.state.orders, cmd.orderId).value;
    var payload := OrderEnded(cmd.how, cmd.orderId, m0.core.state.orders[k0].Remaining(), cmd.reason);
    assert Decide(m0, limits, cmd) == DecideRecord(m0, limits, cmd.eventId, cmd.timestamp, payload, false);
    ProposedBase(m0, limits, cmd.eventId, cmd.timestamp, payload, false);
  }

  lemma ReconcileRepeated(m0: Memory, m: Memory, limits: Limits, cmd: Command)
    requires cmd.Reconcile? && Decide(m0, limits, cmd).Propose? && Indexed(m, Decide(m0, limits, cmd).record)
    ensures Decide(m, limits, cmd).Repeated?
  {
    hide Issues, Adopt, SnapshotOk, ReconcilePayload, Reduce;
    var payload := ReconcilePayload(cmd.observed, cmd.tolerance);
    ProposedBase(m0, limits, cmd.eventId, cmd.timestamp, payload, false);
    ReportedSnapshot(m0, limits, cmd.eventId, cmd.timestamp, cmd.observed, cmd.tolerance);
  }

  /** A reconciliation that was recorded was of a proper snapshot. */
  lemma ReportedSnapshot(m: Memory, limits: Limits, eventId: string, timestamp: int, observed: Snapshot, tolerance: real)
    requires Reduce(m.core, limits, Next(m, eventId, timestamp, ReconcilePayload(observed, tolerance))).Ok?
    ensures var p := ReconcilePayload(observed, tolerance);
            p.SnapshotReconciled? && p.tolerance >= 0.0 && SnapshotOk(p.observed)
  {
    hide Issues, SnapshotOk;
  }

  ghost predicate Indexed(m: Memory, r: Record) { r.base.eventId in m.events && m.events[r.base.eventId] == r }

  /** A repeated command is recognised once its record is indexed and its order is where it was. */
  lemma RecognisedRepeat(m0: Memory, m: Memory, limits: Limits, cmd: Command)
    requires !cmd.Resolve? && Decide(m0, limits, cmd).Propose? && Indexed(m, Decide(m0, limits, cmd).record)
    requires cmd.Fill? ==> FindOrder(m.core.state.orders, cmd.fill.orderId).Some?
    requires cmd.End? ==>
      var k, k0 := FindOrder(m.core.state.orders, cmd.orderId), FindOrder(m0.core.state.orders, cmd.orderId);
      k.Some? && k0.Some? && m.core.state.orders[k.value].Remaining() == m0.core.state.orders[k0.value].Remaining()
    ensures Decide(m, limits, cmd).Repeated?
  {
    hide Decide, Indexed;
    match cmd
    case Register(_, _, _, _, _, _) => RegisterRepeated(m0, m, limits, cmd);
    case Fill(_, _) => FillRepeated(m0, m, limits, cmd);
    case End(_, _, _, _, _) => EndRepeated(m0, m, limits, cmd);
    case Reconcile(_, _, _, _) => ReconcileRepeated(m0, m, limits, cmd);
  }

  /** Re-sending a register, fill, cancel, expire or reconcile command whose record is journaled is answered as a
      repetition, whatever was recorded since and whether or not the engine is blocked. */
  lemma ResentCommandIsRepeated(
      start: Memory, limits: Limits, recs: seq<Record>, cmd: Command, r: Record, more: seq<Record>, blocked: Option<Block>)
    requires Facts(start, limits, []) && !cmd.Resolve?
    requires Replay(start, limits, recs).Ok?
    requires Decide(Replay(start, limits, recs).value, limits, cmd).Propose?
    requires r == Decide(Replay(start, limits, recs).value, limits, cmd).record
    requires Replay(start, limits, recs + [r] + more).Ok? && forall x <- more :: x.base.eventId != r.base.eventId
    ensures Decide(Reblocked(Replay(start, limits, recs + [r] + more).value, blocked), limits, cmd).Repeated?
  {
    var m0 := Replay(start, limits, recs).value;
    var all := recs + [r] + more;
    var m := Replay(start, limits, all).value;
    ReplayAppend(start, limits, recs + [r], more);
    ReplaySnoc(start, limits, recs, r);
    var m1 := Replay(start, limits, recs + [r]).value;
    assert m1.events[r.base.eventId] == r;
    EventsKept(m1, limits, more, r.base.eventId);
    assert all[..|recs| + 1] == recs + [r];
    ReplaySucceeds(start, limits, all, |recs| + 1);
    ReplayFacts(start, limits, all);
    ReplayFacts(start, limits, recs);
    if cmd.Fill? || cmd.End? { OrderStaysPut(m0, m1, m, limits, recs, r, cmd); }
    RecognisedRepeat(m0, Reblocked(m, blocked), limits, cmd);
  }

  /** The order a journaled fill or ending names is still there, with what the ending left of it. */
  lemma OrderStaysPut(m0: Memory, m1: Memory, m: Memory, limits: Limits, recs: seq<Record>, r: Record, cmd: Command)
    requires Facts(m0, limits, recs) && StateOk(m.core.state) && (cmd.Fill? || cmd.End?)
    requires Decide(m0, limits, cmd).Propose? && r == Decide(m0, limits, cmd).record
    requires Absorb(m0, limits, r) == Ok(m1) && Succeeds(m1.core, m.core)
    ensures cmd.Fill? ==> FindOrder(m.core.state.orders, cmd.fill.orderId).Some?
    ensures cmd.End? ==>
      var k, k0 := FindOrder(m.core.state.orders, cmd.orderId), FindOrder(m0.core.state.orders, cmd.orderId);
      k.Some? && k0.Some? && m.core.state.orders[k.value].Remaining() == m0.core.state.orders[k0.value].Remaining()
  {
    ProposedPayload(m0, limits, cmd);
    hide Decide;
    if cmd.Fill? {
      FilledOrderStays(m0, m1, m, limits, r);
    } else {
      EndedOrderStays(m0, m1, m, limits, r);
    }
  }

  lemma ProposedPayload(m: Memory, limits: Limits, cmd: Command)
    requires Decide(m, limits, cmd).Propose?
    ensures var p := Decide(m, limits, cmd).record.base.payload;
            && (cmd.Fill? ==> p.FillApplied? && p.fill == cmd.fill)
            && (cmd.End? ==> p.OrderEnded? && p.orderId == cmd.orderId)
  {
    hide Reduce, DecideRepeat;
  }

  lemma FilledOrderStays(m0: Memory, m1: Memory, m: Memory, limits: Limits, r: Record)
    requires StateFacts(m0.core.state, limits) && StateOk(m.core.state) && r.base.payload.FillApplied?
    requires Absorb(m0, limits, r) == Ok(m1) && Succeeds(m1.core, m.core)
    ensures FindOrder(m.core.state.orders, r.base.payload.fill.orderId).Some?
  {
    var k := AbsorbFill(m0, limits, r);
    hide Absorb;
    FindOrderAt(m.core.state.orders, k);
  }

  lemma EndedOrderStays(m0: Memory, m1: Memory, m: Memory, limits: Limits, r: Record)
    requires StateOk(m.core.state) && r.base.payload.OrderEnded? && Absorb(m0, limits, r) == Ok(m1) && Succeeds(m1.core, m.core)
    ensures var k, k0 := FindOrder(m.core.state.orders, r.base.payload.orderId), FindOrder(m0.core.state.orders, r.base.payload.orderId);
            k.Some? && k0.Some? && m.core.state.orders[k.value].Remaining() == m0.core.state.orders[k0.value].Remaining()
  {
    var k := FindOrder(m0.core.state.orders, r.base.payload.orderId).value;
    assert m1.core.state == m0.core.state && Finished(m1.core, k);
    hide Absorb, Reduce;
    FindOrderAt(m.core.state.orders, k);
  }

  /** Re-sending a resolution writes nothing either, but it is answered as a repetition only while the last
      discrepancies are still the ones it cited; otherwise it is refused as a conflict. */
  lemma ResentResolution(m: Memory, limits: Limits, cmd: Command, r: Record)
    requires cmd.Resolve? && cmd.approvalRef != "" && cmd.reason != "" && cmd.eventId != ""
    requires cmd.eventId in m.events && m.events[cmd.eventId] == r && r.base.timestamp == cmd.timestamp
    requires r.base.payload.DivergenceResolved? && r.base.payload.approvalRef == cmd.approvalRef && r.base.payload.reason == cmd.reason
    ensures Decide(m, limits, cmd) ==
              if r.base.payload.priorDiscrepancies == m.core.discrepancies then Repeated(NotRecorded) else Refused(EventConflict)
  {
  }
}
