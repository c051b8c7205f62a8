/** The engine object: in-memory fields, the shared journal file, and the methods that move both. */
module PaperEngine {
  import opened Prelude
  import opened ExecutionResilience
  import opened PaperContract
  import opened PaperHistory
  import opened PaperJournal

  class JournalFile {
    var bytes: seq<byte>

    constructor (bytes: seq<byte>)
      ensures this.bytes == bytes
    {
      this.bytes := bytes;
    }
  }

  class PaperExecutionEngine {
    const codec: Codec
    const limits: Limits
    const journal: JournalFile
    var state: PaperState
    var terminalStatuses: map<string, Terminal>
    var journalSeq: int
    var journalHead: Digest
    var lastTimestamp: Option<int>
    var blockedReason: Option<Block>
    var discrepancies: seq<Discrepancy>
    var eventsById: map<string, Record>
    var fillPayloads: map<string, FillBase>
    var journalSize: nat

    function Memory(): Memory
      reads this
    {
      PaperContract.Memory.Memory(
        Core(state, terminalStatuses, journalSeq, journalHead, lastTimestamp, blockedReason, discrepancies),
        eventsById, fillPayloads)
    }

    function View(): Engine
      reads this
    {
      Engine(Memory(), journalSize)
    }

    constructor (state: PaperState, codec: Codec, limits: Limits, journal: JournalFile)
      ensures this.codec == codec && this.limits == limits && this.journal == journal
      ensures View() == Engine(Fresh(state), |journal.bytes|)
    {
      this.state, this.codec, this.limits, this.journal := state, codec, limits, journal;
      terminalStatuses, journalSeq, journalHead := map[], 0, Genesis;
      lastTimestamp, blockedReason, discrepancies := None, None, [];
      eventsById, fillPayloads, journalSize := map[], map[], |journal.bytes|;
    }

    /** A fresh engine is refused on a journal that already has records. */
    static method Open(state: PaperState, codec: Codec, limits: Limits, journal: JournalFile)
      returns (r: Result<PaperExecutionEngine, ContractError>)
      ensures journal.bytes != [] ==> r == Err(JournalNotEmpty)
      ensures journal.bytes == [] ==> r.Ok? && fresh(r.value) && r.value.View() == Engine(Fresh(state), 0)
    {
      if journal.bytes != [] { return Err(JournalNotEmpty); }
      var engine := new PaperExecutionEngine(state, codec, limits, journal);
      return Ok(engine);
    }

    /** The append under the writer lock: stale size is refused, a short or failed write leaves a prefix of the line. */
    method AppendRecord(r: Record, disk: Disk) returns (failure: Option<ContractError>)
      modifies this`blockedReason, this`journalSize, journal
      ensures var x := AppendEffect(disk, |old(journal.bytes)|, old(journalSize), old(blockedReason).Some?, |Line(codec, r)|);
              && journal.bytes == old(journal.bytes) + Line(codec, r)[..x.landed]
              && blockedReason == (if x.blocks then Some(JournalFailure) else old(blockedReason))
              && journalSize == (if x.acknowledged then old(journalSize) + |Line(codec, r)| else old(journalSize))
              && failure == (if x.acknowledged then None else Some(x.error))
      ensures Memory().core.(blocked := None) == old(Memory()).core.(blocked := None)
    {
      hide Line;
      var data := Line(codec, r);
      assert journal.bytes + data[..0] == journal.bytes;
      if !disk.lockFree { return Some(WriterBusy); }
      if !disk.statOk {
        blockedReason := Some(JournalFailure);
        return Some(DurabilityFailure);
      }
      if |journal.bytes| != journalSize {
        blockedReason := Some(JournalFailure);
        return Some(WriterConflict);
      }
      if !disk.openOk {
        blockedReason := Some(JournalFailure);
        return Some(DurabilityFailure);
      }
      var offset, call := 0, 0;
      assert disk.writes[0..] == disk.writes;
      while offset < |data|
        invariant 0 <= offset <= |data| && 0 <= call <= |disk.writes|
        invariant journal.bytes == old(journal.bytes) + data[..offset]
        invariant unchanged(this)
        invariant var rest := Landed(disk.writes[call..], |data| - offset);
                  Landed(disk.writes, |data|) == (offset + rest.0, rest.1)
      {
        var written := if call < |disk.writes| then disk.writes[call] else 0;
        if written <= 0 {
          blockedReason := Some(JournalFailure);
          return Some(DurabilityFailure);
        }
        var w := Min(written, |data| - offset);
        journal.bytes := journal.bytes + data[offset..offset + w];
        assert data[..offset] + data[offset..offset + w] == data[..offset + w];
        assert disk.writes[call..][1..] == disk.writes[call + 1..];
        offset, call := offset + w, call + 1;
      }
      if !disk.fsyncOk {
        blockedReason := Some(JournalFailure);
        return Some(DurabilityFailure);
      }
      if !disk.closeOk && blockedReason.None? {
        blockedReason := Some(JournalFailure);
        return Some(DurabilityFailure);
      }
      journalSize := journalSize + |data|;
      return None;
    }

    /** Take over the candidate of a record that is on disk. */
    method Assign(r: Record, n: Candidate)
      modifies this
      ensures Memory() == Adopt(old(Memory()), r, n) && journalSize == old(journalSize)
    {
      state, terminalStatuses, blockedReason, discrepancies := n.state, n.terminal, n.blocked, n.discrepancies;
      lastTimestamp, journalSeq, journalHead := Some(r.base.timestamp), r.base.journalSeq, r.hash;
      eventsById := eventsById[r.base.eventId := r];
      if r.base.payload.FillApplied? {
        fillPayloads := fillPayloads[r.base.payload.fill.fillId := r.base.payload.fill];
      }
    }

    /** `_record`: repetition, block and order checks, candidate, durable append, and only then the fields. */
    method RecordEvent(eventId: string, timestamp: int, payload: Payload, allowBlocked: bool, disk: Disk) returns (out: Outcome)
      modifies this, journal
      ensures (journal.bytes, View(), out) ==
                Perform(codec, old(journal.bytes), old(View()),
                        DecideRecord(old(Memory()), limits, eventId, timestamp, payload, allowBlocked), disk)
    {
      hide Reduce, DecideRepeat, Line, AppendEffect;
      if eventId == "" { return Failed(EmptyField); }
      if eventId in eventsById {
        var repeat := DecideRepeat(Memory().core, eventsById[eventId].base, timestamp, payload);
        if repeat.Refused? { return Failed(repeat.error); }
        return Done(repeat.reply);
      }
      if blockedReason.Some? && !allowBlocked { return Failed(ContractError.Blocked); }
      var base := RecordBase(journalSeq + 1, eventId, timestamp, payload, journalHead);
      var record := Record(base, Sha(base));
      var candidate := Reduce(Memory().core, limits, base);
      if candidate.Err? { return Failed(candidate.error); }
      var failure := AppendRecord(record, disk);
      if failure.Some? { return Failed(failure.value); }
      Assign(record, candidate.value);
      return Done(candidate.value.reply);
    }

    method RegisterOrder(eventId: string, timestamp: int, orderId: string, clientOrderId: string, side: Side, quantity: real, disk: Disk)
      returns (out: Outcome)
      modifies this, journal
      ensures (journal.bytes, View(), out) ==
                Act(codec, limits, old(journal.bytes), old(View()),
                    Register(eventId, timestamp, orderId, clientOrderId, side, quantity), disk)
    {
      if orderId == "" || clientOrderId == "" || quantity <= 0.0 { return Failed(EmptyField); }
      out := RecordEvent(eventId, timestamp, OrderRegistered(orderId, clientOrderId, side, quantity), false, disk);
    }

    method ApplyFill(eventId: string, fill: FillBase, disk: Disk) returns (out: Outcome)
      modifies this, journal
      ensures (journal.bytes, View(), out) == Act(codec, limits, old(journal.bytes), old(View()), Fill(eventId, fill), disk)
    {
      if !FillBaseOk(fill) || eventId == "" { return Failed(EmptyField); }
      var order := FindOrder(state.orders, fill.orderId);
      var payload := FillApplied(fill, state.lastEventSeq + 1);
      if eventId in eventsById || fill.fillId in fillPayloads {
        if eventId in eventsById {
          if !SameEvent(eventsById[eventId].base, payload, fill.timestamp) { return Failed(EventConflict); }
        } else if fillPayloads[fill.fillId] != fill {
          return Failed(FillConflict);
        }
        if order.None? { return Failed(NoSuchOrder); }
        return Done(FillReply(false, true, StatusOf(Memory().core, order.value), state.orders[order.value].Remaining()));
      }
      if blockedReason.Some? { return Failed(ContractError.Blocked); }
      if fill.quantity > limits.maxFillQty { return Failed(ExceedsMaxFillQty); }
      if order.None? { return Failed(NoSuchOrder); }
      if fill.orderId in terminalStatuses { return Failed(TerminalOrder); }
      if fill.side == Buy && state.inventory + fill.quantity > limits.maxInventory { return Failed(ExceedsMaxInventoryLimit); }
      out := RecordEvent(eventId, fill.timestamp, payload, false, disk);
    }

    /** Cancel and expire. */
    method TerminalTransition(eventId: string, timestamp: int, how: Terminal, orderId: string, reason: string, disk: Disk)
      returns (out: Outcome)
      modifies this, journal
      ensures (journal.bytes, View(), out) ==
                Act(codec, limits, old(journal.bytes), old(View()), End(eventId, timestamp, how, orderId, reason), disk)
    {
      var order := FindOrder(state.orders, orderId);
      if order.None? { return Failed(NoSuchOrder); }
      if reason == "" || eventId == "" { return Failed(EmptyField); }
      var payload := OrderEnded(how, orderId, state.orders[order.value].Remaining(), reason);
      if eventId in eventsById {
        if SameEvent(eventsById[eventId].base, payload, timestamp) { return Done(NotRecorded); }
        return Failed(EventConflict);
      }
      if blockedReason.Some? { return Failed(ContractError.Blocked); }
      if orderId in terminalStatuses || state.orders[order.value].status == Filled { return Failed(AlreadyTerminal); }
      out := RecordEvent(eventId, timestamp, payload, false, disk);
    }

    method ReconcileSnapshot(eventId: string, timestamp: int, observed: Snapshot, tolerance: real, disk: Disk) returns (out: Outcome)
      modifies this, journal
      ensures (journal.bytes, View(), out) ==
                Act(codec, limits, old(journal.bytes), old(View()), Reconcile(eventId, timestamp, observed, tolerance), disk)
    {
      if !SnapshotOk(observed) || tolerance < 0.0 { return Failed(InvalidSnapshot); }
      out := RecordEvent(eventId, timestamp, ReconcilePayload(observed, tolerance), false, disk);
    }

    method ResolveDivergence(eventId: string, timestamp: int, approvalRef: string, reason: string, disk: Disk) returns (out: Outcome)
      modifies this, journal
      ensures (journal.bytes, View(), out) ==
                Act(codec, limits, old(journal.bytes), old(View()), Resolve(eventId, timestamp, approvalRef, reason), disk)
    {
      if approvalRef == "" || reason == "" || eventId == "" { return Failed(EmptyField); }
      var payload := DivergenceResolved(approvalRef, reason, discrepancies);
      if eventId in eventsById {
        if SameEvent(eventsById[eventId].base, payload, timestamp) { return Done(NotRecorded); }
        return Failed(EventConflict);
      }
      if blockedReason.None? { return Failed(NoDivergence); }
      out := RecordEvent(eventId, timestamp, payload, true, disk);
    }

    method Checkpoint() returns (cp: Option<PaperJournal.Checkpoint>)
      ensures cp == SaveCheckpoint(View(), limits)
    {
      if blockedReason == Some(JournalFailure) { return None; }
      var core := Memory().core;
      return Some(PaperJournal.Checkpoint.Checkpoint(SCHEMA_VERSION, CheckpointSha(core, limits), core, limits));
    }

    /** Recovery: read and check the whole journal, then replay it record by record past the checkpoint. */
    static method Reload(codec: Codec, cp: PaperJournal.Checkpoint, journal: JournalFile, source: string, config: string, limits: Limits)
      returns (r: Result<PaperExecutionEngine, ContractError>)
      ensures var spec := PaperJournal.Recover(codec, cp, journal.bytes, source, config, limits);
              if spec.Ok? then r.Ok? && fresh(r.value) && r.value.View() == spec.value && r.value.journal == journal
              else r == Err(spec.error)
    {
      if !CheckCheckpoint(cp, source, config, limits) { return Err(BadCheckpoint); }
      var read := ReadJournal(codec, journal.bytes);
      if read.Err? { return Err(read.error); }
      var recs := read.value;
      if cp.core.journalSeq > |recs| { return Err(CheckpointBeyondJournal); }
      if cp.core.head != HeadOf(recs[..cp.core.journalSeq]) { return Err(AnchorMismatch); }
      var start := Origin(cp.core.state.startingCash, source, config);
      var engine := new PaperExecutionEngine(start.core.state, codec, limits, journal);
      if cp.core.journalSeq == 0 && engine.Memory().core != cp.core { return Err(GenesisMismatch); }
      var failure := engine.ReplayRecords(recs, cp.core);
      if failure.Some? { return Err(failure.value); }
      if cp.core.journalSeq == 0 && engine.Memory().core != cp.core { return Err(GenesisMismatch); }
      return Ok(engine);
    }

    /** The replay loop of recovery, compared with the checkpoint where it was taken. */
    method ReplayRecords(recs: seq<Record>, cp: Core) returns (failure: Option<ContractError>)
      modifies this
      ensures var spec := Resume(old(Memory()), limits, recs, cp, |recs|);
              if spec.Ok? then failure == None && Memory() == spec.value else failure == Some(spec.error)
      ensures journalSize == old(journalSize)
    {
      hide Reduce;
      ghost var start := Memory();
      var i := 0;
      while i < |recs|
        invariant 0 <= i <= |recs|
        invariant Resume(start, limits, recs, cp, i) == Ok(Memory())
        invariant journalSize == old(journalSize)
      {
        ghost var m := Memory();
        var candidate := Reduce(Memory().core, limits, recs[i].base);
        ResumeStep(start, limits, recs, cp, i, m);
        if candidate.Err? { return Some(candidate.error); }
        Assign(recs[i], candidate.value);
        i := i + 1;
        if i == cp.journalSeq && Memory().core != cp { return Some(CheckpointMismatch); }
      }
      return None;
    }
  }

  /** One turn of the replay loop; a failure is final. */
  lemma ResumeStep(start: Memory, limits: Limits, recs: seq<Record>, cp: Core, n: nat, m: Memory)
    requires n < |recs| && Resume(start, limits, recs, cp, n) == Ok(m)
    ensures var c := Reduce(m.core, limits, recs[n].base);
            && (c.Err? ==> Resume(start, limits, recs, cp, |recs|) == Err(c.error))
            && (c.Ok? ==>
                  var k := Adopt(m, recs[n], c.value);
                  if n + 1 == cp.journalSeq && k.core != cp then Resume(start, limits, recs, cp, |recs|) == Err(CheckpointMismatch)
                  else Resume(start, limits, recs, cp, n + 1) == Ok(k))
  {
    hide Reduce;
    if Resume(start, limits, recs, cp, n + 1).Err? { ResumeFailsForever(start, limits, recs, cp, n + 1, |recs|); }
  }

  lemma {:induction false} ResumeFailsForever(start: Memory, limits: Limits, recs: seq<Record>, cp: Core, k: nat, n: nat)
    requires k <= n <= |recs| && Resume(start, limits, recs, cp, k).Err?
    ensures Resume(start, limits, recs, cp, n) == Resume(start, limits, recs, cp, k)
  {
    hide Absorb;
    if k < n { ResumeFailsForever(start, limits, recs, cp, k, n - 1); }
  }
}
