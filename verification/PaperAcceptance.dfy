/** Exactly which commands a paper engine records, and what each then changes
    (research/rea_engines/paper_execution_contract.py). */
module PaperAcceptance {
  import opened Prelude
  import opened Sorting
  import opened Accounting
  import opened ExecutionResilience
  import opened PaperContract
  import opened PaperHistory

  // ---- The clock and the fill index ----

  /** The clock of the state runs behind the clock of the engine, and the index knows exactly the applied fills. */
  ghost predicate Clocked(m: Memory) {
    && (m.core.state.lastTimestamp.Some? ==>
          m.core.lastTimestamp.Some? && m.core.state.lastTimestamp.value <= m.core.lastTimestamp.value)
    && (forall id :: id in m.fills <==> id in m.core.state.fillIds)
  }

  lemma OriginClocked(startingCash: real, source: string, config: string)
    ensures Clocked(Origin(startingCash, source, config))
  {
  }

  lemma AbsorbClocked(m: Memory, limits: Limits, r: Record)
    requires StateFacts(m.core.state, limits) && Clocked(m) && Absorb(m, limits, r).Ok?
    ensures Clocked(Absorb(m, limits, r).value) && Absorb(m, limits, r).value.core.lastTimestamp == Some(r.base.timestamp)
  {
    hide StateOk, Balanced, Report, MoveMoney, CheckFresh, Allocated;
    if r.base.payload.FillApplied? {
      var k := AbsorbFill(m, limits, r);
    } else if r.base.payload.OrderRegistered? {
      AbsorbRegistration(m, limits, r);
    }
  }

  lemma {:induction false} ReplayClocked(start: Memory, limits: Limits, recs: seq<Record>)
    requires Facts(start, limits, []) && Clocked(start) && Replay(start, limits, recs).Ok?
    ensures var m := Replay(start, limits, recs).value;
            Clocked(m) && (recs != [] ==> m.core.lastTimestamp == Some(recs[|recs| - 1].base.timestamp))
  {
    hide Absorb, Clocked;
    if recs != [] {
      var init := recs[..|recs| - 1];
      ReplayClocked(start, limits, init);
      ReplayFacts(start, limits, init);
      AbsorbClocked(Replay(start, limits, init).value, limits, recs[|recs| - 1]);
    }
  }

  /** A journal never goes back in time. */
  lemma {:induction false} TimeNeverGoesBack(start: Memory, limits: Limits, recs: seq<Record>, i: nat, j: nat)
    requires Facts(start, limits, []) && Clocked(start) && Replay(start, limits, recs).Ok? && i <= j < |recs|
    ensures recs[i].base.timestamp <= recs[j].base.timestamp
    decreases |recs|
  {
    hide Clocked, ReduceRegistration, ReduceFill, ReduceEnding, ReduceReconciliation, ReduceResolution;
    var init := recs[..|recs| - 1];
    if j < |init| {
      TimeNeverGoesBack(start, limits, init, i, j);
    } else if i < j {
      ReplayClocked(start, limits, init);
      TimeNeverGoesBack(start, limits, init, i, j - 1);
    }
  }

  // ---- Which commands are recorded ----

  /** A new event id, at no earlier time than the last record. */
  ghost predicate Timely(m: Memory, eventId: string, timestamp: int) {
    eventId != "" && eventId !in m.events && (m.core.lastTimestamp.Some? ==> m.core.lastTimestamp.value <= timestamp)
  }

  /** A timely new event is decided by its payload alone. */
  lemma RecordedByPayload(m: Memory, limits: Limits, eventId: string, timestamp: int, payload: Payload, allowBlocked: bool)
    requires m.core.blocked.None? || payload.DivergenceResolved?
    ensures DecideRecord(m, limits, eventId, timestamp, payload, allowBlocked).Propose? <==>
              && Timely(m, eventId, timestamp) && (m.core.blocked.None? || allowBlocked)
              && Taken(m.core, limits, payload, timestamp, m.core.journalSeq + 1).Ok?
    ensures var d := DecideRecord(m, limits, eventId, timestamp, payload, allowBlocked);
            d.Propose? ==>
              var n := Taken(m.core, limits, payload, timestamp, m.core.journalSeq + 1).value;
              && d.next.core.state == n.state && d.next.core.terminal == n.terminal && d.next.core.blocked == n.blocked
              && d.next.core.discrepancies == n.discrepancies && d.next.core.lastTimestamp == Some(timestamp) && d.reply == n.reply
  {
    hide ReduceRegistration, ReduceFill, ReduceEnding, ReduceReconciliation, ReduceResolution, DecideRepeat;
  }

  function Taken(c: Core, limits: Limits, p: Payload, timestamp: int, seqNo: int): Result<Candidate, ContractError> {
    match p
    case OrderRegistered(_, _, _, _) => ReduceRegistration(c, p)
    case FillApplied(_, _) => ReduceFill(c, limits, p, timestamp)
    case OrderEnded(_, _, _, _) => ReduceEnding(c, p)
    case SnapshotReconciled(_, _) => ReduceReconciliation(c, p, seqNo)
    case DivergenceResolved(_, _, _) => ReduceResolution(c, p)
  }

  /** A registration is recorded if and only if it is timely, the engine is not blocked, the order is proper and neither id
      is in use; it appends exactly that open order. */
  lemma RegistrationRecordedIff(m: Memory, limits: Limits, cmd: Command)
    requires cmd.Register? && StateOk(m.core.state)
    ensures Decide(m, limits, cmd).Propose? <==>
              && Timely(m, cmd.eventId, cmd.timestamp) && m.core.blocked.None?
              && cmd.orderId != "" && cmd.clientOrderId != "" && cmd.quantity > 0.0
              && forall o <- m.core.state.orders :: o.orderId != cmd.orderId && o.clientOrderId != cmd.clientOrderId
    ensures Decide(m, limits, cmd).Propose? ==>
              var s, n := m.core.state, Decide(m, limits, cmd).next.core;
              && n.state == s.(orders := s.orders + [PaperOrder(cmd.orderId, cmd.clientOrderId, cmd.side, cmd.quantity, 0.0, Open)])
              && n.terminal == m.core.terminal && n.blocked.None? && Decide(m, limits, cmd).reply == Recorded
  {
    hide StateOk, DecideRecord, Timely;
    if m.core.blocked.Some? {
      BlockedRefuses(m, limits, cmd);
    } else {
      var s := m.core.state;
      RecordedByPayload(m, limits, cmd.eventId, cmd.timestamp,
                        OrderRegistered(cmd.orderId, cmd.clientOrderId, cmd.side, cmd.quantity), false);
      if && cmd.orderId != "" && cmd.clientOrderId != "" && cmd.quantity > 0.0
         && forall o <- s.orders :: o.orderId != cmd.orderId && o.clientOrderId != cmd.clientOrderId {
        RegisterFreshAgainst(s, s.orders, cmd.orderId, cmd.clientOrderId, cmd.side, cmd.quantity);
      }
    }
  }

  /** An ending is recorded if and only if it is timely, the engine is not blocked, a reason is given and the order exists,
      has something left and has not ended; it ends exactly that order. */
  lemma EndingRecordedIff(m: Memory, limits: Limits, cmd: Command)
    requires cmd.End? && StateOk(m.core.state)
    ensures Decide(m, limits, cmd).Propose? <==>
              && Timely(m, cmd.eventId, cmd.timestamp) && m.core.blocked.None? && cmd.reason != "" && cmd.orderId !in m.core.terminal
              && exists o <- m.core.state.orders :: o.orderId == cmd.orderId && o.filled < o.requested
    ensures Decide(m, limits, cmd).Propose? ==>
              var n := Decide(m, limits, cmd).next.core;
              && n.state == m.core.state && n.terminal == m.core.terminal[cmd.orderId := cmd.how] && n.blocked.None?
              && Decide(m, limits, cmd).reply == Recorded
  {
    hide DecideRecord, StateOk, Timely;
    if m.core.blocked.Some? {
      BlockedRefuses(m, limits, cmd);
    } else {
      var s := m.core.state;
      var k := FindOrder(s.orders, cmd.orderId);
      if k.Some? {
        OpenIffLeft(s, k.value);
        RecordedByPayload(m, limits, cmd.eventId, cmd.timestamp,
                          OrderEnded(cmd.how, cmd.orderId, s.orders[k.value].Remaining(), cmd.reason), false);
        NotTimely(m, cmd.eventId, cmd.timestamp);
      }
    }
  }

  lemma NotTimely(m: Memory, eventId: string, timestamp: int)
    ensures Timely(m, eventId, timestamp) ==> eventId != "" && eventId !in m.events
  {
  }

  /** An order with this id has something left exactly when the first one found is not filled. */
  lemma OpenIffLeft(s: PaperState, k: nat)
    requires StateOk(s) && k < |s.orders| && FindOrder(s.orders, s.orders[k].orderId) == Some(k)
    ensures s.orders[k].status != Filled <==> exists o <- s.orders :: o.orderId == s.orders[k].orderId && o.filled < o.requested
    ensures s.orders[k].Remaining() >= 0.0
  {
    assert OrderOk(s.orders[k]) by { assert s.orders[k] in s.orders; }
    forall o | o in s.orders && o.orderId == s.orders[k].orderId ensures o == s.orders[k] {
      var j :| 0 <= j < |s.orders| && s.orders[j] == o;
    }
  }

  /** A proper snapshot: nothing negative, named orders with something left, no order twice. */
  ghost predicate Proper(observed: Snapshot) {
    && 0.0 <= observed.cash && 0.0 <= observed.inventory && 0 <= observed.lastEventSeq
    && (forall o <- observed.openOrders :: |o.orderId| > 0 && 0.0 < o.remaining)
    && NoRepeats(SnapshotIds(observed.openOrders))
  }

  lemma ProperIff(observed: Snapshot)
    ensures SnapshotOk(observed) <==> Proper(observed)
  {
    var orders := observed.openOrders;
    assert NoRepeats(SnapshotIds(orders)) <==> forall i, j :: 0 <= i < j < |orders| ==> SnapshotIds(orders)[i] != SnapshotIds(orders)[j];
  }

  /** A reconciliation is recorded if and only if it is timely, the engine is not blocked and the snapshot is a proper one;
      it blocks the engine if and only if the snapshot disagrees with the state. */
  lemma ReconciliationRecordedIff(m: Memory, limits: Limits, cmd: Command)
    requires cmd.Reconcile? && StateOk(m.core.state)
    ensures Decide(m, limits, cmd).Propose? <==>
              Timely(m, cmd.eventId, cmd.timestamp) && m.core.blocked.None? && Proper(cmd.observed) && cmd.tolerance >= 0.0
    ensures Decide(m, limits, cmd).Propose? ==>
              var n := Decide(m, limits, cmd).next.core;
              && n.state == m.core.state && n.terminal == m.core.terminal
              && n.blocked == (if Agrees(m.core.state, m.core.terminal, cmd.observed, cmd.tolerance) then None
                               else Some(Divergence(m.core.journalSeq + 1)))
              && Decide(m, limits, cmd).reply.ReportReply?
              && forall d :: d in Decide(m, limits, cmd).reply.issues <==>
                   Holds(d, m.core.state, m.core.terminal, cmd.observed, cmd.tolerance)
  {
    hide DecideRecord, Timely, StateOk, SnapshotOk, Proper, Report, Agrees, Holds, ReconcilePayload;
    ProperIff(cmd.observed);
    if m.core.blocked.Some? {
      BlockedRefuses(m, limits, cmd);
    } else if SnapshotOk(cmd.observed) && cmd.tolerance >= 0.0 {
      var p := ReconcilePayload(cmd.observed, cmd.tolerance);
      SortedSnapshot(m.core.state, m.core.terminal, cmd.observed, cmd.tolerance);
      RecordedByPayload(m, limits, cmd.eventId, cmd.timestamp, p, false);
      ReportCleanIffAgrees(m.core.state, m.core.terminal, p.observed, cmd.tolerance);
      ReportedAgain(m, cmd.observed, cmd.tolerance);
    }
  }

  lemma SameHolds(d: Discrepancy, s: PaperState, terminal: map<string, Terminal>, a: Snapshot, b: Snapshot, tolerance: real)
    requires a.(openOrders := []) == b.(openOrders := []) && forall o :: o in a.openOrders <==> o in b.openOrders
    ensures Holds(d, s, terminal, a, tolerance) <==> Holds(d, s, terminal, b, tolerance)
  {
    hide Unfinished;
  }

  /** Sorting its orders changes nothing a snapshot says. */
  lemma SortedSnapshot(s: PaperState, terminal: map<string, Terminal>, observed: Snapshot, tolerance: real)
    requires SnapshotOk(observed)
    ensures var p := ReconcilePayload(observed, tolerance);
            && p.SnapshotReconciled? && p.tolerance == tolerance && SnapshotOk(p.observed)
            && p.observed.(openOrders := []) == observed.(openOrders := [])
            && (forall o :: o in p.observed.openOrders <==> o in observed.openOrders)
            && (Agrees(s, terminal, p.observed, tolerance) <==> Agrees(s, terminal, observed, tolerance))
  {
    hide Sort, StillOpen, OursObserved, ObservedAreOurs;
    var sorted := Sort(observed.openOrders, SnapshotLe);
    SameMultisetSameMembers(sorted, observed.openOrders);
    SortedIdsDiffer(observed.openOrders, sorted);
    SameOpenOrders(s, terminal, observed, observed.(openOrders := sorted), tolerance);
  }

  lemma SortedIdsDiffer(orders: seq<SnapshotOrder>, sorted: seq<SnapshotOrder>)
    requires multiset(sorted) == multiset(orders)
    requires forall i, j :: 0 <= i < j < |orders| ==> orders[i].orderId != orders[j].orderId
    ensures forall i, j :: 0 <= i < j < |sorted| ==> sorted[i].orderId != sorted[j].orderId
  {
    assert NoRepeats(orders);
    PermutationNoRepeats(orders, sorted);
    SameMultisetSameMembers(sorted, orders);
    forall i, j | 0 <= i < j < |sorted| ensures sorted[i].orderId != sorted[j].orderId {
      assert sorted[i] in orders && sorted[j] in orders;
      var x :| 0 <= x < |orders| && orders[x] == sorted[i];
      var y :| 0 <= y < |orders| && orders[y] == sorted[j];
    }
  }

  lemma SameOpenOrders(s: PaperState, terminal: map<string, Terminal>, a: Snapshot, b: Snapshot, tolerance: real)
    requires forall o :: o in a.openOrders <==> o in b.openOrders
    ensures OursObserved(s, terminal, a, tolerance) <==> OursObserved(s, terminal, b, tolerance)
    ensures ObservedAreOurs(s, terminal, a) <==> ObservedAreOurs(s, terminal, b)
  {
    hide StillOpen;
  }

  /** A resolution is recorded if and only if it is timely, there is a block, and an approval and a reason are given; it
      lifts the block and changes nothing else. */
  lemma ResolutionRecordedIff(m: Memory, limits: Limits, cmd: Command)
    requires cmd.Resolve?
    ensures Decide(m, limits, cmd).Propose? <==>
              Timely(m, cmd.eventId, cmd.timestamp) && m.core.blocked.Some? && cmd.approvalRef != "" && cmd.reason != ""
    ensures Decide(m, limits, cmd).Propose? ==>
              var n := Decide(m, limits, cmd).next.core;
              && n.state == m.core.state && n.terminal == m.core.terminal && n.blocked.None? && n.discrepancies == m.core.discrepancies
              && Decide(m, limits, cmd).reply == Recorded
  {
    hide DecideRecord, Timely;
    NotTimely(m, cmd.eventId, cmd.timestamp);
    RecordedByPayload(m, limits, cmd.eventId, cmd.timestamp, DivergenceResolved(cmd.approvalRef, cmd.reason, m.core.discrepancies), true);
  }

  /** One order is filled by a quantity, and the reply says what is left of it. */
  ghost predicate Fills(before: seq<PaperOrder>, after: seq<PaperOrder>, orderId: string, quantity: real, reply: Reply) {
    exists k :: 0 <= k < |before| && before[k].orderId == orderId && FillsAt(before, after, k, quantity, reply)
  }

  ghost predicate FillsAt(before: seq<PaperOrder>, after: seq<PaperOrder>, k: nat, quantity: real, reply: Reply)
    requires k < |before|
  {
    var o := before[k];
    var left := o.requested - o.filled - quantity;
    var status := if left == 0.0 then Filled else PartiallyFilled;
    after == before[k := o.(filled := o.filled + quantity, status := status)] && reply == FillReply(true, false, OrderState(status), left)
  }

  /** The order a fill is for: it has not ended, is on the same side and has that much left. */
  ghost predicate Fillable(c: Core, f: FillBase) {
    f.orderId !in c.terminal
    && exists o <- c.state.orders :: o.orderId == f.orderId && o.side == f.side && f.quantity <= o.requested - o.filled
  }

  /** A fill is recorded if and only if it is timely, the engine is not blocked, its id is new, its order can take it, and a
      ledger with the same limits takes it; money moves as in that ledger, and the order is filled by that much. */
  lemma FillRecordedIff(m: Memory, limits: Limits, recs: seq<Record>, cmd: Command)
    requires cmd.Fill? && Facts(m, limits, recs) && Clocked(m)
    ensures var f := cmd.fill;
            var ledger := LedgerStep(BooksOf(m.core.state, limits.maxInventory, limits.maxFillQty),
                                     EventOf(f, m.core.state.lastEventSeq + 1));
            && (Decide(m, limits, cmd).Propose? <==>
                  && Timely(m, cmd.eventId, f.timestamp) && m.core.blocked.None?
                  && f.fillId != "" && f.fillId !in m.fills && Fillable(m.core, f) && ledger.Ok?)
            && (Decide(m, limits, cmd).Propose? ==>
                  var n := Decide(m, limits, cmd).next.core;
                  && BooksOf(n.state, limits.maxInventory, limits.maxFillQty) == ledger.value.0
                  && n.terminal == m.core.terminal && n.blocked.None?
                  && n.state.lastTimestamp == Some(f.timestamp) && n.state.lastEventSeq == m.core.state.lastEventSeq + 1
                  && Fills(m.core.state.orders, n.state.orders, f.orderId, f.quantity, Decide(m, limits, cmd).reply))
  {
    hide DecideRecord, Timely, StateOk, Balanced, FillFacts, TerminalFacts, LedgerStep, Clocked, Fillable, Fills,
        ReduceFill, FillBaseOk, BooksOf;
    if m.core.blocked.Some? {
      BlockedRefuses(m, limits, cmd);
    } else {
      NotTimely(m, cmd.eventId, cmd.fill.timestamp);
      RecordedByPayload(m, limits, cmd.eventId, cmd.fill.timestamp, FillApplied(cmd.fill, m.core.state.lastEventSeq + 1), false);
      LedgerChecks(m.core.state, limits, EventOf(cmd.fill, m.core.state.lastEventSeq + 1));
      FillableOrder(m, limits, cmd.fill);
      if Timely(m, cmd.eventId, cmd.fill.timestamp) {
        InTime(m, cmd.eventId, cmd.fill.timestamp);
        FillTakenIff(m, limits, cmd.fill);
      }
    }
  }

  lemma InTime(m: Memory, eventId: string, timestamp: int)
    requires Clocked(m) && Timely(m, eventId, timestamp)
    ensures m.core.state.lastTimestamp.Some? ==> m.core.state.lastTimestamp.value <= timestamp
  {
  }

  /** What a ledger with the engine's limits checks before it looks at its money. */
  lemma LedgerChecks(s: PaperState, limits: Limits, e: FillEvent)
    ensures LedgerStep(BooksOf(s, limits.maxInventory, limits.maxFillQty), e).Ok? ==>
              && e.quantity > 0.0 && e.price > 0.0 && e.costs.NonNegative() && e.quantity <= limits.maxFillQty
              && (e.side == Buy ==> s.inventory + e.quantity <= limits.maxInventory)
  {
  }

  lemma FillableOrder(m: Memory, limits: Limits, f: FillBase)
    requires StateFacts(m.core.state, limits)
    ensures var k := FindOrder(m.core.state.orders, f.orderId);
            && (Fillable(m.core, f) <==>
                  && k.Some? && f.orderId !in m.core.terminal && m.core.state.orders[k.value].side == f.side
                  && f.quantity <= m.core.state.orders[k.value].Remaining())
            && (k.Some? ==> f.orderId != "" && OrderOk(m.core.state.orders[k.value])) && m.core.state.lastEventSeq >= 0
  {
    var orders := m.core.state.orders;
    var k := FindOrder(orders, f.orderId);
    if k.Some? {
      assert orders[k.value] in orders;
      forall o | o in orders && o.orderId == f.orderId ensures o == orders[k.value] {
        var j :| 0 <= j < |orders| && orders[j] == o;
      }
    }
  }

  /** The reducer takes a new fill exactly when its order and a ledger do. */
  lemma FillTakenIff(m: Memory, limits: Limits, f: FillBase)
    requires StateFacts(m.core.state, limits) && Clocked(m)
    requires m.core.state.lastTimestamp.Some? ==> m.core.state.lastTimestamp.value <= f.timestamp
    ensures var p := FillApplied(f, m.core.state.lastEventSeq + 1);
            var ledger := LedgerStep(BooksOf(m.core.state, limits.maxInventory, limits.maxFillQty), EventOf(f, p.fillSeq));
            var r := ReduceFill(m.core, limits, p, f.timestamp);
            && (FillBaseOk(f) && f.fillId !in m.fills && r.Ok?
                <==> f.fillId != "" && f.fillId !in m.fills && Fillable(m.core, f) && ledger.Ok?)
            && (f.fillId !in m.fills && r.Ok? ==>
                  && BooksOf(r.value.state, limits.maxInventory, limits.maxFillQty) == ledger.value.0
                  && r.value.terminal == m.core.terminal && r.value.blocked == m.core.blocked
                  && r.value.state.lastTimestamp == Some(f.timestamp) && r.value.state.lastEventSeq == m.core.state.lastEventSeq + 1
                  && Fills(m.core.state.orders, r.value.state.orders, f.orderId, f.quantity, r.value.reply))
  {
    hide StateOk, Balanced, LedgerStep, Fillable, BooksOf, MoveMoney, FilledState;
    var p := FillApplied(f, m.core.state.lastEventSeq + 1);
    var e := EventOf(f, p.fillSeq);
    var k := FindOrder(m.core.state.orders, f.orderId);
    FillableOrder(m, limits, f);
    LedgerChecks(m.core.state, limits, e);
    if k.Some? && f.fillId !in m.fills && FillBaseOk(f) && CheckFresh(m.core.state, m.core.state.orders[k.value], e).None? {
      if f.orderId !in m.core.terminal {
        FillStepRefinesLedger(m.core, limits, p, k.value);
        if MoveMoney(m.core.state, e).Ok? { OrdersFilled(m.core.state, k.value, e, MoveMoney(m.core.state, e).value); }
      }
    }
  }

  lemma OrdersFilled(s: PaperState, k: nat, e: FillEvent, money: (real, real, real, real))
    requires k < |s.orders|
    ensures var t := FilledState(s, k, e, money);
            && t.orders == s.orders[k := FillOrder(s.orders[k], e.quantity)]
            && t.lastTimestamp == Some(e.timestamp) && t.lastEventSeq == e.eventSeq
  {
  }

  // ---- What a reconciliation reports ----

  ghost predicate Unfinished(s: PaperState, terminal: map<string, Terminal>, o: PaperOrder) {
    o in s.orders && o.filled < o.requested && o.orderId !in terminal
  }

  predicate Apart(a: real, b: real, tolerance: real) { a - b > tolerance || b - a > tolerance }

  /** What each discrepancy asserts. */
  ghost predicate Holds(d: Discrepancy, s: PaperState, terminal: map<string, Terminal>, observed: Snapshot, tolerance: real) {
    match d
    case CashMismatch(local, theirs) => local == s.cash && theirs == observed.cash && Apart(local, theirs, tolerance)
    case InventoryMismatch(local, theirs) => local == s.inventory && theirs == observed.inventory && Apart(local, theirs, tolerance)
    case EventSequenceMismatch(local, theirs) => local == s.lastEventSeq && theirs == observed.lastEventSeq && local != theirs
    case MissingObservedOrder(id) =>
      (exists o :: Unfinished(s, terminal, o) && o.orderId == id) && forall b <- observed.openOrders :: b.orderId != id
    case UnexpectedObservedOrder(id) =>
      (forall o :: Unfinished(s, terminal, o) ==> o.orderId != id) && exists b <- observed.openOrders :: b.orderId == id
    case OrderSideMismatch(id) =>
      exists o, b <- observed.openOrders :: Unfinished(s, terminal, o) && o.orderId == id == b.orderId && o.side != b.side
    case OrderRemainingMismatch(id, local, theirs) =>
      exists o, b <- observed.openOrders ::
        && Unfinished(s, terminal, o) && o.orderId == id == b.orderId
        && local == o.requested - o.filled && theirs == b.remaining && Apart(local, theirs, tolerance)
  }

  lemma {:induction false} MissingAre(ids: seq<string>, theirs: seq<string>, d: Discrepancy)
    ensures d in MissingIssues(ids, theirs) <==> d.MissingObservedOrder? && d.orderId in ids && d.orderId !in theirs
  {
    if ids != [] {
      MissingAre(ids[1..], theirs, d);
      assert ids == [ids[0]] + ids[1..];
    }
  }

  lemma {:induction false} UnexpectedAre(ids: seq<string>, ours: seq<string>, d: Discrepancy)
    ensures d in UnexpectedIssues(ids, ours) <==> d.UnexpectedObservedOrder? && d.orderId in ids && d.orderId !in ours
  {
    if ids != [] {
      UnexpectedAre(ids[1..], ours, d);
      assert ids == [ids[0]] + ids[1..];
    }
  }

  ghost predicate InPair(d: Discrepancy, id: string, ours: seq<PaperOrder>, theirs: seq<SnapshotOrder>, tolerance: real) {
    var a, b := FindOrder(ours, id), FindSnapshot(theirs, id);
    a.Some? && b.Some? && d in PairIssues(ours[a.value], theirs[b.value], tolerance)
  }

  lemma {:induction false} CommonAre(ids: seq<string>, ours: seq<PaperOrder>, theirs: seq<SnapshotOrder>, tolerance: real, d: Discrepancy)
    ensures d in CommonIssues(ids, ours, theirs, tolerance) <==> exists id <- ids :: InPair(d, id, ours, theirs, tolerance)
  {
    if ids != [] {
      hide PairIssues, FindOrder, FindSnapshot;
      CommonAre(ids[1..], ours, theirs, tolerance, d);
      var a, b := FindOrder(ours, ids[0]), FindSnapshot(theirs, ids[0]);
      var head := if a.Some? && b.Some? then PairIssues(ours[a.value], theirs[b.value], tolerance) else [];
      assert CommonIssues(ids, ours, theirs, tolerance) == head + CommonIssues(ids[1..], ours, theirs, tolerance);
      assert d in head <==> InPair(d, ids[0], ours, theirs, tolerance);
      assert forall id :: id in ids <==> id == ids[0] || id in ids[1..] by { assert ids == [ids[0]] + ids[1..]; }
    }
  }

  lemma StillOpenIff(s: PaperState, terminal: map<string, Terminal>, o: PaperOrder)
    requires StateOk(s)
    ensures o in OpenOrders(s.orders, terminal) <==> Unfinished(s, terminal, o)
  {
    if o in s.orders { assert OrderOk(o); }
  }

  lemma OursFound(s: PaperState, terminal: map<string, Terminal>, id: string)
    requires StateOk(s)
    ensures var ours := OpenOrders(s.orders, terminal); var k := FindOrder(ours, id);
            && (k.Some? ==> Unfinished(s, terminal, ours[k.value]) && ours[k.value].orderId == id)
            && forall o :: Unfinished(s, terminal, o) && o.orderId == id ==> k.Some? && ours[k.value] == o
  {
    hide StateOk;
    var ours := OpenOrders(s.orders, terminal);
    var k := FindOrder(ours, id);
    if k.Some? { StillOpenIff(s, terminal, ours[k.value]); }
    forall o | Unfinished(s, terminal, o) && o.orderId == id ensures k.Some? && ours[k.value] == o {
      StillOpenIff(s, terminal, o);
      DistinctOf(s);
      FindOpen(s.orders, terminal, o);
    }
  }

  lemma DistinctOf(s: PaperState)
    requires StateOk(s)
    ensures DistinctOrders(s.orders)
  {
  }

  predicate AboutOrder(d: Discrepancy) {
    d.MissingObservedOrder? || d.UnexpectedObservedOrder? || d.OrderSideMismatch? || d.OrderRemainingMismatch?
  }

  lemma OrdersSay(s: PaperState, terminal: map<string, Terminal>, observed: Snapshot, tolerance: real, d: Discrepancy)
    requires StateOk(s) && SnapshotOk(observed)
    ensures var ours, theirs := OpenOrders(s.orders, terminal), observed.openOrders;
            var ourIds, theirIds := Sort(OrderIds(ours), StringLe), Sort(SnapshotIds(theirs), StringLe);
            d in MissingIssues(ourIds, theirIds) + UnexpectedIssues(theirIds, ourIds) + CommonIssues(ourIds, ours, theirs, tolerance)
            <==> AboutOrder(d) && Holds(d, s, terminal, observed, tolerance)
  {
    hide Sort, StateOk, FindOrder, FindSnapshot, OpenOrders, Unfinished, MissingIssues, UnexpectedIssues, CommonIssues;
    var ours, theirs := OpenOrders(s.orders, terminal), observed.openOrders;
    var ourIds, theirIds := Sort(OrderIds(ours), StringLe), Sort(SnapshotIds(theirs), StringLe);
    OurSortedIds(ours);
    TheirSortedIds(theirs);
    MissingAre(ourIds, theirIds, d);
    UnexpectedAre(theirIds, ourIds, d);
    CommonAre(ourIds, ours, theirs, tolerance, d);
    if AboutOrder(d) { OursFound(s, terminal, d.orderId); }
  }

  /** A report lists exactly the discrepancies that hold. */
  lemma ReportSays(s: PaperState, terminal: map<string, Terminal>, observed: Snapshot, tolerance: real, d: Discrepancy)
    requires StateOk(s) && SnapshotOk(observed) && tolerance >= 0.0
    ensures Report(s, terminal, observed, tolerance).Ok?
    ensures d in Report(s, terminal, observed, tolerance).value <==> Holds(d, s, terminal, observed, tolerance)
  {
    hide Sort, StateOk, OpenOrders, Unfinished, MissingIssues, UnexpectedIssues, CommonIssues;
    OrdersSay(s, terminal, observed, tolerance, d);
  }

  // ---- What is answered without a record ----

  /** The arguments a command is refused without; an ending needs its order. */
  ghost predicate WellFormed(m: Memory, cmd: Command) {
    match cmd
    case Register(_, _, orderId, clientOrderId, _, quantity) => |orderId| > 0 && |clientOrderId| > 0 && 0.0 < quantity
    case Fill(_, f) =>
      && |f.fillId| > 0 && |f.orderId| > 0 && 0.0 < f.quantity && 0.0 < f.price
      && 0.0 <= f.costs.fee && 0.0 <= f.costs.spread && 0.0 <= f.costs.slippage
    case End(_, _, _, orderId, reason) => |reason| > 0 && exists o <- m.core.state.orders :: o.orderId == orderId
    case Reconcile(_, _, observed, tolerance) => Proper(observed) && 0.0 <= tolerance
    case Resolve(_, _, approvalRef, reason) => |approvalRef| > 0 && |reason| > 0
  }

  /** The record is one of this command: the same time and content, as the state now is where the command does not say. */
  ghost predicate Describes(m: Memory, cmd: Command, r: RecordBase) {
    match cmd
    case Register(_, t, orderId, clientOrderId, side, quantity) =>
      r.timestamp == t && r.payload == OrderRegistered(orderId, clientOrderId, side, quantity)
    case Fill(_, f) => r.timestamp == f.timestamp && r.payload.FillApplied? && r.payload.fill == f
    case End(_, t, how, orderId, reason) =>
      r.timestamp == t &&
      exists o <- m.core.state.orders :: o.orderId == orderId && r.payload == OrderEnded(how, orderId, o.requested - o.filled, reason)
    case Reconcile(_, t, observed, tolerance) =>
      && r.timestamp == t && r.payload.SnapshotReconciled? && r.payload.tolerance == tolerance
      && r.payload.observed == observed.(openOrders := Sort(observed.openOrders, SnapshotLe))
    case Resolve(_, t, approvalRef, reason) =>
      r.timestamp == t && r.payload == DivergenceResolved(approvalRef, reason, m.core.discrepancies)
  }

  /** What is left of an order, and whether it has ended. */
  ghost predicate Shows(c: Core, orderId: string, reply: Reply) {
    exists o <- c.state.orders :: o.orderId == orderId && reply ==
      FillReply(false, true,
                if orderId in c.terminal then Ended(c.terminal[orderId])
                else OrderState(if o.filled == 0.0 then Open else if o.filled == o.requested then Filled else PartiallyFilled),
                o.requested - o.filled)
  }

  lemma FoundIff(s: PaperState, orderId: string)
    requires StateOk(s)
    ensures var k := FindOrder(s.orders, orderId);
            && (k.Some? <==> exists o <- s.orders :: o.orderId == orderId)
            && (k.Some? ==> forall o <- s.orders :: o.orderId == orderId ==> o == s.orders[k.value])
            && (k.Some? ==> OrderOk(s.orders[k.value]))
  {
    var k := FindOrder(s.orders, orderId);
    if k.Some? {
      assert s.orders[k.value] in s.orders;
      forall o | o in s.orders && o.orderId == orderId ensures o == s.orders[k.value] {
        var j :| 0 <= j < |s.orders| && s.orders[j] == o;
      }
    }
  }

  lemma RepeatedFillShows(c: Core, orderId: string)
    requires StateOk(c.state)
    ensures RepeatedFill(c, orderId).Repeated? <==> exists o <- c.state.orders :: o.orderId == orderId
    ensures RepeatedFill(c, orderId).Repeated? ==> Shows(c, orderId, RepeatedFill(c, orderId).reply)
  {
    hide StateOk;
    FoundIff(c.state, orderId);
    var k := FindOrder(c.state.orders, orderId);
    if k.Some? { assert c.state.orders[k.value] in c.state.orders; }
  }

  /** A command under a journaled event id never records: it is answered as a repeat if and only if it is well-formed and the
      journaled record is its own, and is a conflict if it is well-formed and not. */
  lemma KnownEventIsAnswered(m: Memory, limits: Limits, cmd: Command)
    requires StateOk(m.core.state) && cmd.eventId in m.events && cmd.eventId != ""
    requires cmd.Fill? && Describes(m, cmd, m.events[cmd.eventId].base) ==> exists o <- m.core.state.orders :: o.orderId == cmd.fill.orderId
    ensures var d := Decide(m, limits, cmd);
            && !d.Propose? && (d.Repeated? <==> WellFormed(m, cmd) && Describes(m, cmd, m.events[cmd.eventId].base))
            && (WellFormed(m, cmd) && d.Refused? ==> d.error == EventConflict)
            && (d.Repeated? ==> match cmd
                case Fill(_, f) => Shows(m.core, f.orderId, d.reply)
                case Reconcile(_, _, observed, tolerance) =>
                  d.reply.ReportReply? && forall x :: x in d.reply.issues <==> Holds(x, m.core.state, m.core.terminal, observed, tolerance)
                case _ => d.reply == NotRecorded)
  {
    hide StateOk, Sort, Report, Holds, Shows, SnapshotOk, Proper, RepeatedFill;
    match cmd
    case Register(_, _, _, _, _, _) =>
    case Fill(_, f) => RepeatedFillShows(m.core, f.orderId);
    case End(_, _, _, orderId, _) => FoundIff(m.core.state, orderId);
    case Reconcile(_, _, observed, tolerance) => ReportedAgain(m, observed, tolerance);
    case Resolve(_, _, _, _) =>
  }

  lemma ReportedAgain(m: Memory, observed: Snapshot, tolerance: real)
    requires StateOk(m.core.state)
    ensures SnapshotOk(observed) <==> Proper(observed)
    ensures SnapshotOk(observed) && tolerance >= 0.0 ==>
              var r := Report(m.core.state, m.core.terminal, ReconcilePayload(observed, tolerance).observed, tolerance);
              r.Ok? && forall d :: d in r.value <==> Holds(d, m.core.state, m.core.terminal, observed, tolerance)
  {
    hide StateOk, SnapshotOk, Proper, Report, Holds;
    ProperIff(observed);
    if SnapshotOk(observed) && tolerance >= 0.0 {
      var p := ReconcilePayload(observed, tolerance);
      SortedSnapshot(m.core.state, m.core.terminal, observed, tolerance);
      ReportCleanIffAgrees(m.core.state, m.core.terminal, p.observed, tolerance);
      forall d ensures d in Report(m.core.state, m.core.terminal, p.observed, tolerance).value <==>
                         Holds(d, m.core.state, m.core.terminal, observed, tolerance) {
        ReportSays(m.core.state, m.core.terminal, p.observed, tolerance, d);
        SameHolds(d, m.core.state, m.core.terminal, observed, p.observed, tolerance);
      }
    }
  }

  /** A fill under a new event id but a known fill id is a repeat if and only if it is the same fill, and a conflict if not. */
  lemma KnownFillIsAnswered(m: Memory, limits: Limits, cmd: Command)
    requires cmd.Fill? && StateOk(m.core.state) && WellFormed(m, cmd) && cmd.eventId !in m.events && cmd.eventId != ""
    requires cmd.fill.fillId in m.fills && exists o <- m.core.state.orders :: o.orderId == cmd.fill.orderId
    ensures var d := Decide(m, limits, cmd);
            if m.fills[cmd.fill.fillId] == cmd.fill then d.Repeated? && Shows(m.core, cmd.fill.orderId, d.reply)
            else d == Refused(FillConflict)
  {
    hide StateOk, Shows, RepeatedFill;
    RepeatedFillShows(m.core, cmd.fill.orderId);
  }
}
