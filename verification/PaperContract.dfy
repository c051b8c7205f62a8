/** Journal records, the reducer and the command decisions of research/rea_engines/paper_execution_contract.py. */
module PaperContract {
  import opened Prelude
  import opened Sorting
  import opened Accounting
  import opened ExecutionResilience

  datatype Terminal = Cancelled | Expired

  datatype Block = Divergence(atSeq: int) | JournalFailure

  datatype Limits = Limits(maxInventory: real, maxFillQty: real)

  predicate LimitsOk(l: Limits) { l.maxInventory > 0.0 && l.maxFillQty > 0.0 }

  datatype SnapshotOrder = SnapshotOrder(orderId: string, side: Side, remaining: real)

  datatype Snapshot = Snapshot(cash: real, inventory: real, openOrders: seq<SnapshotOrder>, lastEventSeq: int)

  datatype FillBase = FillBase(
    fillId: string, orderId: string, side: Side, quantity: real, price: real, costs: Costs, timestamp: int)

  datatype Discrepancy =
    | CashMismatch(local: real, observed: real)
    | InventoryMismatch(local: real, observed: real)
    | EventSequenceMismatch(localSeq: int, observedSeq: int)
    | MissingObservedOrder(orderId: string)
    | UnexpectedObservedOrder(orderId: string)
    | OrderSideMismatch(orderId: string)
    | OrderRemainingMismatch(orderId: string, local: real, observed: real)

  datatype Payload =
    | OrderRegistered(orderId: string, clientOrderId: string, side: Side, quantity: real)
    | FillApplied(fill: FillBase, fillSeq: int)
    | OrderEnded(how: Terminal, orderId: string, remaining: real, reason: string)
    | SnapshotReconciled(observed: Snapshot, tolerance: real)
    | DivergenceResolved(approvalRef: string, reason: string, priorDiscrepancies: seq<Discrepancy>)

  datatype RecordBase = RecordBase(journalSeq: int, eventId: string, timestamp: int, payload: Payload, prev: Digest)

  /** SHA-256 of a record without its own hash, taken as a free injective function; Genesis is the all-zero digest. */
  datatype Digest = Genesis | Sha(base: RecordBase)

  datatype Record = Record(base: RecordBase, hash: Digest)

  datatype ContractError =
    | EmptyField | InvalidAmount | EventConflict | FillConflict | Blocked | EventTimeBackwards | EventWhileBlocked
    | IdConflict | NoSuchOrder | TerminalOrder | ExceedsMaxFillQty | ExceedsMaxInventoryLimit
    | BadFillSequence | TimestampMismatch | FillRefused(why: ResilienceError) | DuplicateFillRecord
    | AlreadyTerminal | RemainingMismatch | InvalidSnapshot | NoDivergence | StaleDiscrepancies
    | WriterBusy | WriterConflict | DurabilityFailure
    | TruncatedTail | UndecodableLine | BrokenChain | BadCheckpoint | CheckpointBeyondJournal | AnchorMismatch
    | CheckpointMismatch | GenesisMismatch | JournalNotEmpty

  /** The part of an engine that a checkpoint stores. */
  datatype Core = Core(
    state: PaperState, terminal: map<string, Terminal>, journalSeq: int, head: Digest, lastTimestamp: Option<int>,
    blocked: Option<Block>, discrepancies: seq<Discrepancy>)

  /** An engine's whole memory: the core and the two idempotency indexes. */
  datatype Memory = Memory(core: Core, events: map<string, Record>, fills: map<string, FillBase>)

  function Fresh(state: PaperState): Memory {
    Memory(Core(state, map[], 0, Genesis, None, None, []), map[], map[])
  }

  datatype EngineStatus = OrderState(status: OrderStatus) | Ended(how: Terminal)

  datatype Reply =
    | Recorded | NotRecorded
    | FillReply(applied: bool, duplicate: bool, status: EngineStatus, remaining: real)
    | ReportReply(issues: seq<Discrepancy>)

  datatype Candidate = Candidate(
    state: PaperState, terminal: map<string, Terminal>, blocked: Option<Block>, discrepancies: seq<Discrepancy>, reply: Reply)

  // ---- Reconciliation ----

  predicate SnapshotOk(s: Snapshot) {
    && s.cash >= 0.0 && s.inventory >= 0.0 && s.lastEventSeq >= 0
    && (forall o <- s.openOrders :: o.orderId != "" && o.remaining > 0.0)
    && (forall i, j :: 0 <= i < j < |s.openOrders| ==> s.openOrders[i].orderId != s.openOrders[j].orderId)
  }

  predicate StillOpen(o: PaperOrder, terminal: map<string, Terminal>) {
    o.status != Filled && o.orderId !in terminal
  }

  function OpenOrders(orders: seq<PaperOrder>, terminal: map<string, Terminal>): (r: seq<PaperOrder>)
    ensures forall o :: o in r <==> o in orders && StillOpen(o, terminal)
  {
    if orders == [] then []
    else
      assert orders == [orders[0]] + orders[1..];
      (if StillOpen(orders[0], terminal) then [orders[0]] else []) + OpenOrders(orders[1..], terminal)
  }

  function OrderIds(orders: seq<PaperOrder>): (r: seq<string>)
    ensures |r| == |orders| && forall i :: 0 <= i < |r| ==> r[i] == orders[i].orderId
  {
    seq(|orders|, i requires 0 <= i < |orders| => orders[i].orderId)
  }

  function SnapshotIds(orders: seq<SnapshotOrder>): (r: seq<string>)
    ensures |r| == |orders| && forall i :: 0 <= i < |r| ==> r[i] == orders[i].orderId
  {
    seq(|orders|, i requires 0 <= i < |orders| => orders[i].orderId)
  }

  function FindSnapshot(orders: seq<SnapshotOrder>, orderId: string): (r: Option<nat>)
    ensures r.Some? ==> r.value < |orders| && orders[r.value].orderId == orderId
    ensures r.None? ==> forall o <- orders :: o.orderId != orderId
  {
    if orders == [] then None
    else if orders[0].orderId == orderId then Some(0)
    else match FindSnapshot(orders[1..], orderId)
      case None => None
      case Some(k) => Some(k + 1)
  }

  function MissingIssues(ids: seq<string>, theirs: seq<string>): seq<Discrepancy> {
    if ids == [] then []
    else (if ids[0] in theirs then [] else [MissingObservedOrder(ids[0])]) + MissingIssues(ids[1..], theirs)
  }

  function UnexpectedIssues(ids: seq<string>, ours: seq<string>): seq<Discrepancy> {
    if ids == [] then []
    else (if ids[0] in ours then [] else [UnexpectedObservedOrder(ids[0])]) + UnexpectedIssues(ids[1..], ours)
  }

  function PairIssues(a: PaperOrder, b: SnapshotOrder, tolerance: real): seq<Discrepancy> {
    (if a.side != b.side then [OrderSideMismatch(a.orderId)] else []) +
    (if Abs(a.Remaining() - b.remaining) > tolerance then [OrderRemainingMismatch(a.orderId, a.Remaining(), b.remaining)] else [])
  }

  function CommonIssues(ids: seq<string>, ours: seq<PaperOrder>, theirs: seq<SnapshotOrder>, tolerance: real): seq<Discrepancy> {
    if ids == [] then []
    else
      var a, b := FindOrder(ours, ids[0]), FindSnapshot(theirs, ids[0]);
      (if a.Some? && b.Some? then PairIssues(ours[a.value], theirs[b.value], tolerance) else [])
      + CommonIssues(ids[1..], ours, theirs, tolerance)
  }

  function Issues(s: PaperState, terminal: map<string, Terminal>, observed: Snapshot, tolerance: real): seq<Discrepancy> {
    var ours := OpenOrders(s.orders, terminal);
    var ourIds, theirIds := Sort(OrderIds(ours), StringLe), Sort(SnapshotIds(observed.openOrders), StringLe);
    (if Abs(s.cash - observed.cash) > tolerance then [CashMismatch(s.cash, observed.cash)] else [])
    + (if Abs(s.inventory - observed.inventory) > tolerance then [InventoryMismatch(s.inventory, observed.inventory)] else [])
    + (if s.lastEventSeq != observed.lastEventSeq then [EventSequenceMismatch(s.lastEventSeq, observed.lastEventSeq)] else [])
    + MissingIssues(ourIds, theirIds) + UnexpectedIssues(theirIds, ourIds)
    + CommonIssues(ourIds, ours, observed.openOrders, tolerance)
  }

  function Report(s: PaperState, terminal: map<string, Terminal>, observed: Snapshot, tolerance: real)
    : Result<seq<Discrepancy>, ContractError>
  {
    if tolerance < 0.0 || !SnapshotOk(observed) then Err(InvalidSnapshot)
    else Ok(Issues(s, terminal, observed, tolerance))
  }

  /** What a clean report means. */
  ghost predicate Agrees(s: PaperState, terminal: map<string, Terminal>, observed: Snapshot, tolerance: real) {
    && Abs(s.cash - observed.cash) <= tolerance
    && Abs(s.inventory - observed.inventory) <= tolerance
    && s.lastEventSeq == observed.lastEventSeq
    && OpenOrdersAgree(s, terminal, observed, tolerance)
  }

  /** The same open orders, each with the same side and a remaining quantity within the tolerance. */
  ghost predicate OpenOrdersAgree(s: PaperState, terminal: map<string, Terminal>, observed: Snapshot, tolerance: real) {
    OursObserved(s, terminal, observed, tolerance) && ObservedAreOurs(s, terminal, observed)
  }

  ghost predicate OursObserved(s: PaperState, terminal: map<string, Terminal>, observed: Snapshot, tolerance: real) {
    forall o <- s.orders | StillOpen(o, terminal) ::
      exists b <- observed.openOrders :: b.orderId == o.orderId && b.side == o.side && Abs(o.Remaining() - b.remaining) <= tolerance
  }

  ghost predicate ObservedAreOurs(s: PaperState, terminal: map<string, Terminal>, observed: Snapshot) {
    forall b <- observed.openOrders :: exists o <- s.orders :: StillOpen(o, terminal) && o.orderId == b.orderId
  }

  lemma {:induction ids} MissingIssuesEmpty(ids: seq<string>, theirs: seq<string>)
    ensures MissingIssues(ids, theirs) == [] <==> forall id <- ids :: id in theirs
  {
    if ids != [] { assert ids == [ids[0]] + ids[1..]; }
  }

  lemma {:induction ids} UnexpectedIssuesEmpty(ids: seq<string>, ours: seq<string>)
    ensures UnexpectedIssues(ids, ours) == [] <==> forall id <- ids :: id in ours
  {
    if ids != [] { assert ids == [ids[0]] + ids[1..]; }
  }

  ghost predicate PairClean(id: string, ours: seq<PaperOrder>, theirs: seq<SnapshotOrder>, tolerance: real) {
    var a, b := FindOrder(ours, id), FindSnapshot(theirs, id);
    a.Some? && b.Some? ==> PairIssues(ours[a.value], theirs[b.value], tolerance) == []
  }

  lemma {:induction false} CommonIssuesEmpty(ids: seq<string>, ours: seq<PaperOrder>, theirs: seq<SnapshotOrder>, tolerance: real)
    ensures CommonIssues(ids, ours, theirs, tolerance) == [] <==> forall id <- ids :: PairClean(id, ours, theirs, tolerance)
  {
    if ids != [] {
      CommonIssuesEmpty(ids[1..], ours, theirs, tolerance);
      var a, b := FindOrder(ours, ids[0]), FindSnapshot(theirs, ids[0]);
      var head := if a.Some? && b.Some? then PairIssues(ours[a.value], theirs[b.value], tolerance) else [];
      assert CommonIssues(ids, ours, theirs, tolerance) == head + CommonIssues(ids[1..], ours, theirs, tolerance);
      assert head == [] <==> PairClean(ids[0], ours, theirs, tolerance);
      assert forall id :: id in ids <==> id == ids[0] || id in ids[1..] by { assert ids == [ids[0]] + ids[1..]; }
    }
  }

  lemma OurSortedIds(ours: seq<PaperOrder>)
    ensures forall id :: id in Sort(OrderIds(ours), StringLe) <==> FindOrder(ours, id).Some?
  {
    SameMultisetSameMembers(Sort(OrderIds(ours), StringLe), OrderIds(ours));
    forall id ensures id in OrderIds(ours) <==> FindOrder(ours, id).Some? {
      var k := FindOrder(ours, id);
      if k.Some? { assert OrderIds(ours)[k.value] == id; }
      if id in OrderIds(ours) {
        var i :| 0 <= i < |ours| && OrderIds(ours)[i] == id;
        assert ours[i] in ours;
      }
    }
  }

  lemma TheirSortedIds(theirs: seq<SnapshotOrder>)
    ensures forall id :: id in Sort(SnapshotIds(theirs), StringLe) <==> FindSnapshot(theirs, id).Some?
  {
    SameMultisetSameMembers(Sort(SnapshotIds(theirs), StringLe), SnapshotIds(theirs));
    forall id ensures id in SnapshotIds(theirs) <==> FindSnapshot(theirs, id).Some? {
      var k := FindSnapshot(theirs, id);
      if k.Some? { assert SnapshotIds(theirs)[k.value] == id; }
      if id in SnapshotIds(theirs) {
        var i :| 0 <= i < |theirs| && SnapshotIds(theirs)[i] == id;
        assert theirs[i] in theirs;
      }
    }
  }

  ghost predicate OrdersMatch(ours: seq<PaperOrder>, theirs: seq<SnapshotOrder>, tolerance: real) {
    forall id :: (FindOrder(ours, id).Some? <==> FindSnapshot(theirs, id).Some?) && PairClean(id, ours, theirs, tolerance)
  }

  lemma OrderIssuesEmpty(ours: seq<PaperOrder>, theirs: seq<SnapshotOrder>, tolerance: real)
    ensures var ourIds, theirIds := Sort(OrderIds(ours), StringLe), Sort(SnapshotIds(theirs), StringLe);
            (&& MissingIssues(ourIds, theirIds) == [] && UnexpectedIssues(theirIds, ourIds) == []
             && CommonIssues(ourIds, ours, theirs, tolerance) == [])
            <==> OrdersMatch(ours, theirs, tolerance)
  {
    hide Sort, OrderIds, SnapshotIds, FindOrder, FindSnapshot, PairIssues, MissingIssues, UnexpectedIssues, CommonIssues;
    var ourIds, theirIds := Sort(OrderIds(ours), StringLe), Sort(SnapshotIds(theirs), StringLe);
    OurSortedIds(ours);
    TheirSortedIds(theirs);
    MissingIssuesEmpty(ourIds, theirIds);
    UnexpectedIssuesEmpty(theirIds, ourIds);
    CommonIssuesEmpty(ourIds, ours, theirs, tolerance);
  }

  lemma FindOpen(orders: seq<PaperOrder>, terminal: map<string, Terminal>, o: PaperOrder)
    requires DistinctOrders(orders) && o in orders && StillOpen(o, terminal)
    ensures var ours := OpenOrders(orders, terminal); var k := FindOrder(ours, o.orderId); k.Some? && ours[k.value] == o
  {
    var ours := OpenOrders(orders, terminal);
    var k := FindOrder(ours, o.orderId);
    assert ours[k.value] in ours;
  }

  lemma FindSnap(s: Snapshot, b: SnapshotOrder)
    requires SnapshotOk(s) && b in s.openOrders
    ensures var k := FindSnapshot(s.openOrders, b.orderId); k.Some? && s.openOrders[k.value] == b
  {
    var k := FindSnapshot(s.openOrders, b.orderId);
  }

  lemma MatchMeansAgreement(s: PaperState, terminal: map<string, Terminal>, observed: Snapshot, tolerance: real)
    requires StateOk(s) && SnapshotOk(observed)
    requires OrdersMatch(OpenOrders(s.orders, terminal), observed.openOrders, tolerance)
    ensures OpenOrdersAgree(s, terminal, observed, tolerance)
  {
    var ours, theirs := OpenOrders(s.orders, terminal), observed.openOrders;
    forall o | o in s.orders && StillOpen(o, terminal)
      ensures exists b <- theirs :: b.orderId == o.orderId && b.side == o.side && Abs(o.Remaining() - b.remaining) <= tolerance
    {
      FindOpen(s.orders, terminal, o);
      assert PairClean(o.orderId, ours, theirs, tolerance);
      assert theirs[FindSnapshot(theirs, o.orderId).value] in theirs;
    }
    forall b | b in theirs ensures exists o <- s.orders :: StillOpen(o, terminal) && o.orderId == b.orderId {
      FindSnap(observed, b);
      assert ours[FindOrder(ours, b.orderId).value] in ours;
    }
  }

  lemma OurOrderIsClean(s: PaperState, terminal: map<string, Terminal>, observed: Snapshot, tolerance: real, o: PaperOrder)
    requires SnapshotOk(observed) && OursObserved(s, terminal, observed, tolerance)
    requires o in s.orders && StillOpen(o, terminal)
    ensures var y := FindSnapshot(observed.openOrders, o.orderId);
            y.Some? && PairIssues(o, observed.openOrders[y.value], tolerance) == []
  {
    var b :| b in observed.openOrders && b.orderId == o.orderId && b.side == o.side && Abs(o.Remaining() - b.remaining) <= tolerance;
    FindSnap(observed, b);
  }

  lemma TheirOrderIsOurs(s: PaperState, terminal: map<string, Terminal>, observed: Snapshot, b: SnapshotOrder)
    requires StateOk(s) && ObservedAreOurs(s, terminal, observed) && b in observed.openOrders
    ensures FindOrder(OpenOrders(s.orders, terminal), b.orderId).Some?
  {
    var o :| o in s.orders && StillOpen(o, terminal) && o.orderId == b.orderId;
    FindOpen(s.orders, terminal, o);
  }

  lemma AgreementMeansMatchAt(s: PaperState, terminal: map<string, Terminal>, observed: Snapshot, tolerance: real, id: string)
    requires StateOk(s) && SnapshotOk(observed) && OpenOrdersAgree(s, terminal, observed, tolerance)
    ensures var ours, theirs := OpenOrders(s.orders, terminal), observed.openOrders;
            (FindOrder(ours, id).Some? <==> FindSnapshot(theirs, id).Some?) && PairClean(id, ours, theirs, tolerance)
  {
    var ours, theirs := OpenOrders(s.orders, terminal), observed.openOrders;
    var x, y := FindOrder(ours, id), FindSnapshot(theirs, id);
    if x.Some? {
      assert ours[x.value] in ours;
      OurOrderIsClean(s, terminal, observed, tolerance, ours[x.value]);
    }
    if y.Some? {
      assert theirs[y.value] in theirs;
      TheirOrderIsOurs(s, terminal, observed, theirs[y.value]);
    }
  }

  lemma AgreementMeansMatch(s: PaperState, terminal: map<string, Terminal>, observed: Snapshot, tolerance: real)
    requires StateOk(s) && SnapshotOk(observed) && OpenOrdersAgree(s, terminal, observed, tolerance)
    ensures OrdersMatch(OpenOrders(s.orders, terminal), observed.openOrders, tolerance)
  {
    forall id { AgreementMeansMatchAt(s, terminal, observed, tolerance, id); }
  }

  /** A reconciliation report is clean exactly when the snapshot agrees with the paper state. */
  lemma ReportCleanIffAgrees(s: PaperState, terminal: map<string, Terminal>, observed: Snapshot, tolerance: real)
    requires StateOk(s) && SnapshotOk(observed) && tolerance >= 0.0
    ensures Report(s, terminal, observed, tolerance).Ok?
    ensures Report(s, terminal, observed, tolerance).value == [] <==> Agrees(s, terminal, observed, tolerance)
  {
    var ours, theirs := OpenOrders(s.orders, terminal), observed.openOrders;
    OrderIssuesEmpty(ours, theirs, tolerance);
    if OrdersMatch(ours, theirs, tolerance) { MatchMeansAgreement(s, terminal, observed, tolerance); }
    if OpenOrdersAgree(s, terminal, observed, tolerance) { AgreementMeansMatch(s, terminal, observed, tolerance); }
  }

  // ---- The reducer ----

  function EventOf(f: FillBase, fillSeq: int): FillEvent {
    FillEvent(f.fillId, f.orderId, f.side, f.quantity, f.price, f.costs, f.timestamp, fillSeq)
  }

  function StatusOf(c: Core, k: nat): EngineStatus
    requires k < |c.state.orders|
  {
    var o := c.state.orders[k];
    if o.orderId in c.terminal then Ended(c.terminal[o.orderId]) else OrderState(o.status)
  }

  function ReduceRegistration(c: Core, p: Payload): Result<Candidate, ContractError>
    requires p.OrderRegistered?
  {
    if exists o <- c.state.orders :: o.orderId == p.orderId || o.clientOrderId == p.clientOrderId then Err(IdConflict)
    else match RegisterOrder(c.state, p.orderId, p.clientOrderId, p.side, p.quantity)
      case Err(e) => Err(FillRefused(e))
      case Ok(s) => Ok(Candidate(s, c.terminal, c.blocked, c.discrepancies, Recorded))
  }

  function ReduceFill(c: Core, limits: Limits, p: Payload, timestamp: int): Result<Candidate, ContractError>
    requires p.FillApplied?
  {
    var f := p.fill;
    var k := FindOrder(c.state.orders, f.orderId);
    if k.None? then Err(NoSuchOrder)
    else if f.orderId in c.terminal then Err(TerminalOrder)
    else if f.quantity <= 0.0 then Err(InvalidAmount)
    else if f.quantity > limits.maxFillQty then Err(ExceedsMaxFillQty)
    else if f.side == Buy && c.state.inventory + f.quantity > limits.maxInventory then Err(ExceedsMaxInventoryLimit)
    else if p.fillSeq != c.state.lastEventSeq + 1 then Err(BadFillSequence)
    else if f.timestamp != timestamp then Err(TimestampMismatch)
    else match ApplyFill(c.state, EventOf(f, p.fillSeq))
      case Err(e) => Err(FillRefused(e))
      case Ok(pair) =>
        if !pair.1.applied then Err(DuplicateFillRecord)
        else Ok(Candidate(pair.0, c.terminal, c.blocked, c.discrepancies,
                          FillReply(true, false, OrderState(pair.1.status), pair.1.remaining)))
  }

  function ReduceEnding(c: Core, p: Payload): Result<Candidate, ContractError>
    requires p.OrderEnded?
  {
    var k := FindOrder(c.state.orders, p.orderId);
    if k.None? then Err(NoSuchOrder)
    else if c.state.orders[k.value].status == Filled || p.orderId in c.terminal then Err(AlreadyTerminal)
    else if p.remaining < 0.0 then Err(InvalidAmount)
    else if p.remaining != c.state.orders[k.value].Remaining() then Err(RemainingMismatch)
    else if p.reason == "" then Err(EmptyField)
    else Ok(Candidate(c.state, c.terminal[p.orderId := p.how], c.blocked, c.discrepancies, Recorded))
  }

  function ReduceReconciliation(c: Core, p: Payload, journalSeq: int): Result<Candidate, ContractError>
    requires p.SnapshotReconciled?
  {
    match Report(c.state, c.terminal, p.observed, p.tolerance)
    case Err(e) => Err(e)
    case Ok(issues) =>
      if issues == [] then Ok(Candidate(c.state, c.terminal, c.blocked, c.discrepancies, ReportReply([])))
      else Ok(Candidate(c.state, c.terminal, Some(Divergence(journalSeq)), issues, ReportReply(issues)))
  }

  function ReduceResolution(c: Core, p: Payload): Result<Candidate, ContractError>
    requires p.DivergenceResolved?
  {
    if c.blocked.None? then Err(NoDivergence)
    else if p.approvalRef == "" || p.reason == "" then Err(EmptyField)
    else if p.priorDiscrepancies != c.discrepancies then Err(StaleDiscrepancies)
    else Ok(Candidate(c.state, c.terminal, None, c.discrepancies, Recorded))
  }

  /** The candidate a record leads to; nothing is changed yet. */
  function Reduce(c: Core, limits: Limits, r: RecordBase): Result<Candidate, ContractError> {
    if c.lastTimestamp.Some? && r.timestamp < c.lastTimestamp.value then Err(EventTimeBackwards)
    else if c.blocked.Some? && !r.payload.DivergenceResolved? then Err(EventWhileBlocked)
    else match r.payload
      case OrderRegistered(_, _, _, _) => ReduceRegistration(c, r.payload)
      case FillApplied(_, _) => ReduceFill(c, limits, r.payload, r.timestamp)
      case OrderEnded(_, _, _, _) => ReduceEnding(c, r.payload)
      case SnapshotReconciled(_, _) => ReduceReconciliation(c, r.payload, r.journalSeq)
      case DivergenceResolved(_, _, _) => ReduceResolution(c, r.payload)
  }

  /** The memory once a record has been applied. */
  function Adopt(m: Memory, r: Record, n: Candidate): Memory {
    Memory(
      Core(n.state, n.terminal, r.base.journalSeq, r.hash, Some(r.base.timestamp), n.blocked, n.discrepancies),
      m.events[r.base.eventId := r],
      if r.base.payload.FillApplied? then m.fills[r.base.payload.fill.fillId := r.base.payload.fill] else m.fills)
  }

  function Absorb(m: Memory, limits: Limits, r: Record): Result<Memory, ContractError> {
    match Reduce(m.core, limits, r.base)
    case Err(e) => Err(e)
    case Ok(n) => Ok(Adopt(m, r, n))
  }

  /** Replaying records one by one, from the first. */
  function Replay(start: Memory, limits: Limits, recs: seq<Record>): Result<Memory, ContractError> {
    if recs == [] then Ok(start)
    else match Replay(start, limits, recs[..|recs| - 1])
      case Err(e) => Err(e)
      case Ok(m) => Absorb(m, limits, recs[|recs| - 1])
  }

  // ---- Commands ----

  datatype Command =
    | Register(eventId: string, timestamp: int, orderId: string, clientOrderId: string, side: Side, quantity: real)
    | Fill(eventId: string, fill: FillBase)
    | End(eventId: string, timestamp: int, how: Terminal, orderId: string, reason: string)
    | Reconcile(eventId: string, timestamp: int, observed: Snapshot, tolerance: real)
    | Resolve(eventId: string, timestamp: int, approvalRef: string, reason: string)

  datatype Decision = Refused(error: ContractError) | Repeated(reply: Reply) | Propose(record: Record, next: Memory, reply: Reply)

  function WithoutSeq(p: Payload): Payload {
    if p.FillApplied? then p.(fillSeq := 0) else p
  }

  predicate SameEvent(prior: RecordBase, payload: Payload, timestamp: int) {
    prior.timestamp == timestamp && WithoutSeq(prior.payload) == WithoutSeq(payload)
  }

  function RepeatedFill(c: Core, orderId: string): (d: Decision)
    ensures !d.Propose?
  {
    match FindOrder(c.state.orders, orderId)
    case None => Refused(NoSuchOrder)
    case Some(k) => Repeated(FillReply(false, true, StatusOf(c, k), c.state.orders[k].Remaining()))
  }

  function Next(m: Memory, eventId: string, timestamp: int, payload: Payload): RecordBase {
    RecordBase(m.core.journalSeq + 1, eventId, timestamp, payload, m.core.head)
  }

  /** The answer to an event id that is already journaled. */
  function DecideRepeat(c: Core, prior: RecordBase, timestamp: int, payload: Payload): (d: Decision)
    ensures !d.Propose?
  {
    if !SameEvent(prior, payload, timestamp) then Refused(EventConflict)
    else match payload
      case FillApplied(f, _) => RepeatedFill(c, f.orderId)
      case SnapshotReconciled(observed, tolerance) =>
        (match Report(c.state, c.terminal, observed, tolerance)
         case Err(e) => Refused(e)
         case Ok(issues) => Repeated(ReportReply(issues)))
      case _ => Repeated(NotRecorded)
  }

  /** The common path of every command that may write a record. */
  function DecideRecord(m: Memory, limits: Limits, eventId: string, timestamp: int, payload: Payload, allowBlocked: bool): Decision {
    if eventId == "" then Refused(EmptyField)
    else if eventId in m.events then DecideRepeat(m.core, m.events[eventId].base, timestamp, payload)
    else if m.core.blocked.Some? && !allowBlocked then Refused(Blocked)
    else
      var base := Next(m, eventId, timestamp, payload);
      var record := Record(base, Sha(base));
      match Reduce(m.core, limits, base)
      case Err(e) => Refused(e)
      case Ok(n) => Propose(record, Adopt(m, record, n), n.reply)
  }

  predicate FillBaseOk(f: FillBase) {
    f.fillId != "" && f.orderId != "" && f.quantity > 0.0 && f.price > 0.0 && f.costs.NonNegative()
  }

  function DecideFill(m: Memory, limits: Limits, eventId: string, f: FillBase): Decision {
    var payload := FillApplied(f, m.core.state.lastEventSeq + 1);
    if !FillBaseOk(f) || eventId == "" then Refused(EmptyField)
    else if eventId in m.events then
      if SameEvent(m.events[eventId].base, payload, f.timestamp) then RepeatedFill(m.core, f.orderId) else Refused(EventConflict)
    else if f.fillId in m.fills then
      if m.fills[f.fillId] == f then RepeatedFill(m.core, f.orderId) else Refused(FillConflict)
    else if m.core.blocked.Some? then Refused(Blocked)
    else if f.quantity > limits.maxFillQty then Refused(ExceedsMaxFillQty)
    else
      var k := FindOrder(m.core.state.orders, f.orderId);
      if k.None? then Refused(NoSuchOrder)
      else if f.orderId in m.core.terminal then Refused(TerminalOrder)
      else if f.side == Buy && m.core.state.inventory + f.quantity > limits.maxInventory then Refused(ExceedsMaxInventoryLimit)
      else DecideRecord(m, limits, eventId, f.timestamp, payload, false)
  }

  function DecideEnd(m: Memory, limits: Limits, eventId: string, timestamp: int, how: Terminal, orderId: string, reason: string): Decision {
    var k := FindOrder(m.core.state.orders, orderId);
    if k.None? then Refused(NoSuchOrder)
    else if reason == "" || eventId == "" then Refused(EmptyField)
    else
      var payload := OrderEnded(how, orderId, m.core.state.orders[k.value].Remaining(), reason);
      if eventId in m.events then
        if SameEvent(m.events[eventId].base, payload, timestamp) then Repeated(NotRecorded) else Refused(EventConflict)
      else if m.core.blocked.Some? then Refused(Blocked)
      else if orderId in m.core.terminal || m.core.state.orders[k.value].status == Filled then Refused(AlreadyTerminal)
      else DecideRecord(m, limits, eventId, timestamp, payload, false)
  }

  predicate SnapshotLe(a: SnapshotOrder, b: SnapshotOrder) { StringLe(a.orderId, b.orderId) }

  function ReconcilePayload(observed: Snapshot, tolerance: real): Payload {
    SnapshotReconciled(observed.(openOrders := Sort(observed.openOrders, SnapshotLe)), tolerance)
  }

  function DecideResolve(m: Memory, limits: Limits, eventId: string, timestamp: int, approvalRef: string, reason: string): Decision {
    var payload := DivergenceResolved(approvalRef, reason, m.core.discrepancies);
    if approvalRef == "" || reason == "" || eventId == "" then Refused(EmptyField)
    else if eventId in m.events then
      if SameEvent(m.events[eventId].base, payload, timestamp) then Repeated(NotRecorded) else Refused(EventConflict)
    else if m.core.blocked.None? then Refused(NoDivergence)
    else DecideRecord(m, limits, eventId, timestamp, payload, true)
  }

  /** What each public command does before anything reaches the disk. */
  function Decide(m: Memory, limits: Limits, cmd: Command): Decision {
    match cmd
    case Register(eventId, timestamp, orderId, clientOrderId, side, quantity) =>
      if orderId == "" || clientOrderId == "" || quantity <= 0.0 then Refused(EmptyField)
      else DecideRecord(m, limits, eventId, timestamp, OrderRegistered(orderId, clientOrderId, side, quantity), false)
    case Fill(eventId, fill) => DecideFill(m, limits, eventId, fill)
    case End(eventId, timestamp, how, orderId, reason) => DecideEnd(m, limits, eventId, timestamp, how, orderId, reason)
    case Reconcile(eventId, timestamp, observed, tolerance) =>
      if !SnapshotOk(observed) || tolerance < 0.0 then Refused(InvalidSnapshot)
      else DecideRecord(m, limits, eventId, timestamp, ReconcilePayload(observed, tolerance), false)
    case Resolve(eventId, timestamp, approvalRef, reason) => DecideResolve(m, limits, eventId, timestamp, approvalRef, reason)
  }

  /** What a proposal always is: the next link of the chain, under a new id, accepted by the reducer. */
  lemma ProposalIsNextLink(m: Memory, limits: Limits, cmd: Command)
    requires Decide(m, limits, cmd).Propose?
    ensures var d := Decide(m, limits, cmd);
            && d.record.base.journalSeq == m.core.journalSeq + 1 && d.record.base.prev == m.core.head
            && d.record.hash == Sha(d.record.base)
            && d.record.base.eventId != "" && d.record.base.eventId !in m.events
            && d.record.base.eventId == cmd.eventId
            && Absorb(m, limits, d.record) == Ok(d.next)
            && (d.record.base.payload.DivergenceResolved? <==> cmd.Resolve?)
            && (m.core.blocked.Some? ==> cmd.Resolve?)
  {
    hide Reduce, DecideRepeat;
    if m.core.blocked.Some? && !cmd.Resolve? { BlockedRefuses(m, limits, cmd); }
  }

  lemma BlockedRefuses(m: Memory, limits: Limits, cmd: Command)
    requires m.core.blocked.Some? && !cmd.Resolve?
    ensures !Decide(m, limits, cmd).Propose?
  {
    hide Reduce, DecideRepeat;
  }
}
