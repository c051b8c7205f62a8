/** The journal file, appending to it under the writer lock, checkpoints and recovery
    (research/rea_engines/paper_execution_contract.py). */
module PaperJournal {
  import opened Prelude
  import opened Lines
  import opened ExecutionResilience
  import opened PaperContract
  import opened PaperHistory

  /** Canonical JSON and its parser. */
  datatype Codec = Codec(encode: Record -> seq<byte>, decode: seq<byte> -> Option<Record>)

  /** What canonical JSON guarantees for one record: it reads back, and control characters are escaped. */
  predicate Faithful(c: Codec, r: Record) {
    c.decode(c.encode(r)) == Some(r) && Clean(c.encode(r))
  }

  function Line(c: Codec, r: Record): (l: seq<byte>)
    ensures |l| > 0 && l[|l| - 1] == LF
  {
    c.encode(r) + [LF]
  }

  function FileOf(c: Codec, recs: seq<Record>): (f: seq<byte>)
    ensures recs == [] ==> f == []
    ensures recs != [] ==> f != [] && f[|f| - 1] == LF
  {
    if recs == [] then [] else FileOf(c, recs[..|recs| - 1]) + Line(c, recs[|recs| - 1])
  }

  lemma FileSnoc(c: Codec, recs: seq<Record>, r: Record)
    ensures FileOf(c, recs + [r]) == FileOf(c, recs) + Line(c, r)
  {
    assert (recs + [r])[..|recs|] == recs;
  }

  lemma {:induction false} FileGrows(c: Codec, recs: seq<Record>, n: nat)
    requires n < |recs|
    ensures |FileOf(c, recs[..n])| < |FileOf(c, recs)|
  {
    var init := recs[..|recs| - 1];
    if n < |init| {
      FileGrows(c, init, n);
      assert init[..n] == recs[..n];
    }
  }

  // ---- Reading ----

  function DecodeAll(c: Codec, lines: seq<RawLine>): Option<seq<Record>> {
    if lines == [] then Some([])
    else
      var head, rest := c.decode(lines[0].content), DecodeAll(c, lines[1..]);
      if head.Some? && rest.Some? then Some([head.value] + rest.value) else None
  }

  function JournalOf(c: Codec, data: seq<byte>): Result<seq<Record>, ContractError> {
    if data != [] && data[|data| - 1] != LF then Err(TruncatedTail)
    else match DecodeAll(c, SplitLines(data))
      case None => Err(UndecodableLine)
      case Some(recs) => if ChainOk(recs) then Ok(recs) else Err(BrokenChain)
  }

  lemma {:induction false} DecodeAppend(c: Codec, a: seq<RawLine>, b: seq<RawLine>)
    requires DecodeAll(c, a).Some? && DecodeAll(c, b).Some?
    ensures DecodeAll(c, a + b) == Some(DecodeAll(c, a).value + DecodeAll(c, b).value)
  {
    if a == [] {
      assert a + b == b && [] + DecodeAll(c, b).value == DecodeAll(c, b).value;
    } else {
      assert (a + b)[1..] == a[1..] + b;
      DecodeAppend(c, a[1..], b);
      var head, left, right := c.decode(a[0].content).value, DecodeAll(c, a[1..]).value, DecodeAll(c, b).value;
      assert [head] + (left + right) == [head] + left + right;
    }
  }

  lemma LineReadsBack(c: Codec, r: Record)
    requires Faithful(c, r)
    ensures DecodeAll(c, SplitLines(Line(c, r))) == Some([r])
  {
    SplitOneLine(c.encode(r));
    var lines := [RawLine(c.encode(r), [LF])];
    assert lines[1..] == [] && DecodeAll(c, lines[1..]) == Some([]);
    assert [r] + [] == [r];
  }

  lemma NoLinesDecode(c: Codec)
    ensures DecodeAll(c, SplitLines(FileOf(c, []))) == Some([])
  {
  }

  lemma {:induction false} FileReadsBack(c: Codec, recs: seq<Record>)
    requires forall r <- recs :: Faithful(c, r)
    ensures DecodeAll(c, SplitLines(FileOf(c, recs))) == Some(recs)
  {
    hide SplitLines, Line, Faithful, DecodeAll;
    if recs == [] {
      NoLinesDecode(c);
    } else {
      var init, r := recs[..|recs| - 1], recs[|recs| - 1];
      assert Faithful(c, r) by { assert r in recs; }
      FileReadsBack(c, init);
      SplitAppend(FileOf(c, init), Line(c, r));
      LineReadsBack(c, r);
      DecodeAppend(c, SplitLines(FileOf(c, init)), SplitLines(Line(c, r)));
      assert recs == init + [r];
    }
  }

  /** Round trip: a written chain is read back exactly. */
  lemma JournalReadsBack(c: Codec, recs: seq<Record>)
    requires ChainOk(recs) && forall r <- recs :: Faithful(c, r)
    ensures JournalOf(c, FileOf(c, recs)) == Ok(recs)
  {
    FileReadsBack(c, recs);
  }

  /** A torn tail: a non-empty strict prefix of one more record's line. */
  predicate Torn(c: Codec, torn: seq<byte>, r: Record) {
    torn != [] && |torn| < |Line(c, r)| && torn == Line(c, r)[..|torn|]
  }

  lemma TornIsRejected(c: Codec, recs: seq<Record>, torn: seq<byte>, r: Record)
    requires Clean(c.encode(r)) && Torn(c, torn, r)
    ensures JournalOf(c, FileOf(c, recs) + torn) == Err(TruncatedTail)
  {
    var data := FileOf(c, recs) + torn;
    assert data[|data| - 1] == torn[|torn| - 1] == c.encode(r)[|torn| - 1];
  }

  /** The checks of `_read_journal`, record by record. */
  method ReadJournal(c: Codec, data: seq<byte>) returns (r: Result<seq<Record>, ContractError>)
    ensures r == JournalOf(c, data)
  {
    if data != [] && data[|data| - 1] != LF { return Err(TruncatedTail); }
    var decoded := DecodeAll(c, SplitLines(data));
    if decoded.None? { return Err(UndecodableLine); }
    var recs := decoded.value;
    var previous, ids := Genesis, {};
    var i := 0;
    while i < |recs|
      invariant 0 <= i <= |recs|
      invariant previous == HeadOf(recs[..i])
      invariant ids == set k | 0 <= k < i :: recs[k].base.eventId
      invariant forall k :: 0 <= k < i ==> LinkOk(recs, k)
      invariant DistinctEvents(recs[..i])
    {
      var b := recs[i].base;
      if b.journalSeq != i + 1 || b.eventId == "" || b.eventId in ids || b.prev != previous || recs[i].hash != Sha(b) {
        assert !ChainOk(recs) by {
          if b.eventId in ids {
            var k :| 0 <= k < i && recs[k].base.eventId == b.eventId;
          } else {
            assert !LinkOk(recs, i);
          }
        }
        return Err(BrokenChain);
      }
      previous := recs[i].hash;
      ids := ids + {b.eventId};
      assert recs[..i + 1][..i] == recs[..i];
      i := i + 1;
    }
    assert recs[..|recs|] == recs;
    return Ok(recs);
  }

  // ---- Appending ----

  /** What the operating system does during one append: the lock, stat, open, the result of each write call
      (zero or less is a failed call), fsync and close. */
  datatype Disk = Disk(lockFree: bool, statOk: bool, openOk: bool, writes: seq<int>, fsyncOk: bool, closeOk: bool)

  /** How many of n bytes the write calls put on disk, and whether all of them arrived. */
  function Landed(writes: seq<int>, n: nat): (r: (nat, bool))
    ensures r.0 <= n && (r.1 ==> r.0 == n)
  {
    if n == 0 then (0, true)
    else if writes == [] || writes[0] <= 0 then (0, false)
    else
      var w := Min(writes[0], n);
      var rest := Landed(writes[1..], n - w);
      (w + rest.0, rest.1)
  }

  datatype Effect = Effect(landed: nat, acknowledged: bool, blocks: bool, error: ContractError)

  function AppendEffect(disk: Disk, fileSize: nat, journalSize: nat, alreadyBlocked: bool, n: nat): (r: Effect)
    ensures r.landed <= n && (r.acknowledged ==> r.landed == n)
    ensures r.landed > 0 || r.acknowledged ==> fileSize == journalSize
    ensures r.acknowledged ==> !r.blocks
  {
    if !disk.lockFree then Effect(0, false, false, WriterBusy)
    else if !disk.statOk then Effect(0, false, true, DurabilityFailure)
    else if fileSize != journalSize then Effect(0, false, true, WriterConflict)
    else if !disk.openOk then Effect(0, false, true, DurabilityFailure)
    else
      var w := Landed(disk.writes, n);
      if !w.1 || !disk.fsyncOk then Effect(w.0, false, true, DurabilityFailure)
      else if !disk.closeOk && !alreadyBlocked then Effect(n, false, true, DurabilityFailure)
      else Effect(n, true, false, DurabilityFailure)
  }

  /** What the write calls before the first failing one put out together. */
  function WrittenOut(writes: seq<int>): nat {
    if writes == [] || !(writes[0] > 0) then 0 else writes[0] + WrittenOut(writes[1..])
  }

  lemma {:induction false} LandedIs(writes: seq<int>, n: nat)
    ensures Landed(writes, n) == (if WrittenOut(writes) < n then WrittenOut(writes) else n, WrittenOut(writes) >= n)
  {
    if n > 0 && writes != [] && writes[0] > 0 { LandedIs(writes[1..], n - Min(writes[0], n)); }
  }

  /** An append is acknowledged if and only if the lock is free, the journal is as long as the engine knows it, every byte is
      written, and fsync and, unless the engine is blocked already, close succeed. If not it blocks the engine, unless the lock
      was taken, and the error says which. Bytes land up to the first failing write. */
  lemma AppendOutcome(disk: Disk, fileSize: nat, journalSize: nat, alreadyBlocked: bool, n: nat)
    ensures var x := AppendEffect(disk, fileSize, journalSize, alreadyBlocked, n);
            var ready, out := disk.lockFree && disk.statOk && disk.openOk && fileSize == journalSize, WrittenOut(disk.writes);
            && x.landed == (if !ready then 0 else if out < n then out else n)
            && (x.acknowledged <==> ready && out >= n && disk.fsyncOk && (disk.closeOk || alreadyBlocked))
            && (x.blocks <==> disk.lockFree && !x.acknowledged)
            && (!x.acknowledged ==>
                  x.error == if !disk.lockFree then WriterBusy
                             else if disk.statOk && fileSize != journalSize then WriterConflict else DurabilityFailure)
  {
    LandedIs(disk.writes, n);
  }

  datatype Engine = Engine(memory: Memory, journalSize: nat)

  function Block(e: Engine): Engine { e.(memory := Reblocked(e.memory, Some(JournalFailure))) }

  datatype Outcome = Done(reply: Reply) | Failed(error: ContractError)

  /** Carrying out a decision: append under the lock, and only then advance memory. */
  function Perform(c: Codec, file: seq<byte>, e: Engine, d: Decision, disk: Disk): (seq<byte>, Engine, Outcome) {
    match d
    case Refused(error) => (file, e, Failed(error))
    case Repeated(reply) => (file, e, Done(reply))
    case Propose(r, next, reply) =>
      var line := Line(c, r);
      var x := AppendEffect(disk, |file|, e.journalSize, e.memory.core.blocked.Some?, |line|);
      var file' := file + line[..x.landed];
      if x.acknowledged then (file', Engine(next, e.journalSize + |line|), Done(reply))
      else (file', if x.blocks then Block(e) else e, Failed(x.error))
  }

  /** One command against the shared file. */
  function Act(c: Codec, limits: Limits, file: seq<byte>, e: Engine, cmd: Command, disk: Disk): (seq<byte>, Engine, Outcome) {
    Perform(c, file, e, Decide(e.memory, limits, cmd), disk)
  }

  // ---- Checkpoints and recovery ----

  datatype CheckpointSha = CheckpointSha(core: Core, limits: Limits)

  datatype Checkpoint = Checkpoint(version: int, sha: CheckpointSha, core: Core, limits: Limits)

  const SCHEMA_VERSION := 1

  /** A checkpoint is refused while the engine's journal is in doubt. */
  function SaveCheckpoint(e: Engine, limits: Limits): Option<Checkpoint> {
    if e.memory.core.blocked == Some(JournalFailure) then None
    else Some(Checkpoint(SCHEMA_VERSION, CheckpointSha(e.memory.core, limits), e.memory.core, limits))
  }

  /** Replay of the first n records, compared with the checkpoint on the way. */
  function Resume(start: Memory, limits: Limits, recs: seq<Record>, cp: Core, n: nat): Result<Memory, ContractError>
    requires n <= |recs|
  {
    if n == 0 then Ok(start)
    else match Resume(start, limits, recs, cp, n - 1)
      case Err(e) => Err(e)
      case Ok(m) =>
        match Absorb(m, limits, recs[n - 1])
        case Err(e) => Err(e)
        case Ok(k) => if n == cp.journalSeq && k.core != cp then Err(CheckpointMismatch) else Ok(k)
  }

  lemma {:induction false} ResumeIsReplay(start: Memory, limits: Limits, recs: seq<Record>, cp: Core, n: nat)
    requires n <= |recs|
    ensures Resume(start, limits, recs, cp, n).Ok? <==>
              Replay(start, limits, recs[..n]).Ok?
              && (1 <= cp.journalSeq <= n ==>
                    var r := Replay(start, limits, recs[..cp.journalSeq]); r.Ok? && r.value.core == cp)
    ensures Resume(start, limits, recs, cp, n).Ok? ==> Resume(start, limits, recs, cp, n) == Replay(start, limits, recs[..n])
  {
    if n > 0 {
      ResumeIsReplay(start, limits, recs, cp, n - 1);
      assert recs[..n][..n - 1] == recs[..n - 1];
    }
  }

  function CheckCheckpoint(cp: Checkpoint, source: string, config: string, limits: Limits): bool {
    && cp.version == SCHEMA_VERSION && cp.sha == CheckpointSha(cp.core, cp.limits)
    && StateOk(cp.core.state) && cp.core.state.sourceSha == source && cp.core.state.configSha == config
    && cp.limits == limits && cp.core.journalSeq >= 0
  }

  function Recover(c: Codec, cp: Checkpoint, data: seq<byte>, source: string, config: string, limits: Limits)
    : Result<Engine, ContractError>
  {
    if !CheckCheckpoint(cp, source, config, limits) then Err(BadCheckpoint)
    else match JournalOf(c, data)
      case Err(e) => Err(e)
      case Ok(recs) =>
        if cp.core.journalSeq > |recs| then Err(CheckpointBeyondJournal)
        else if cp.core.head != HeadOf(recs[..cp.core.journalSeq]) then Err(AnchorMismatch)
        else
          var start := Origin(cp.core.state.startingCash, source, config);
          if cp.core.journalSeq == 0 && start.core != cp.core then Err(GenesisMismatch)
          else match Resume(start, limits, recs, cp.core, |recs|)
            case Err(e) => Err(e)
            case Ok(m) =>
              if cp.core.journalSeq == 0 && m.core != cp.core then Err(GenesisMismatch)
              else Ok(Engine(m, |data|))
  }

  /** Whatever bytes and checkpoint it is given, recovery succeeds only with the replay of one valid chain that passes
      through the checkpoint. */
  lemma RecoverySound(c: Codec, cp: Checkpoint, data: seq<byte>, source: string, config: string, limits: Limits)
    requires Recover(c, cp, data, source, config, limits).Ok?
    ensures JournalOf(c, data).Ok?
    ensures var recs, start := JournalOf(c, data).value, Origin(cp.core.state.startingCash, source, config);
            var e := Recover(c, cp, data, source, config, limits).value;
            && ChainOk(recs) && Replay(start, limits, recs) == Ok(e.memory) && e.journalSize == |data|
            && 0 <= cp.core.journalSeq <= |recs|
            && Replay(start, limits, recs[..cp.core.journalSeq]).Ok?
            && Replay(start, limits, recs[..cp.core.journalSeq]).value.core == cp.core
  {
    var recs, start := JournalOf(c, data).value, Origin(cp.core.state.startingCash, source, config);
    ResumeIsReplay(start, limits, recs, cp.core, |recs|);
    assert recs[..|recs|] == recs;
  }

  lemma ReplayEnds(start: Memory, limits: Limits, recs: seq<Record>)
    requires ChainOk(recs) && recs != [] && Replay(start, limits, recs).Ok?
    ensures var m := Replay(start, limits, recs).value; m.core.head == HeadOf(recs) && m.core.journalSeq == |recs|
  {
    hide Reduce;
    assert LinkOk(recs, |recs| - 1);
  }

  /** Recovery succeeds if and only if the checkpoint is of the schema, carries its own digest and a valid state, and is for
      this source, configuration and these limits, the file is a valid chain that replays, and the replay has the checkpoint's
      state at the checkpoint's number; a genesis checkpoint only goes with an empty journal. */
  lemma RecoversIff(c: Codec, cp: Checkpoint, data: seq<byte>, source: string, config: string, limits: Limits)
    ensures Recover(c, cp, data, source, config, limits).Ok? <==>
              && cp.version == 1 && cp.sha.core == cp.core && cp.sha.limits == cp.limits == limits
              && StateOk(cp.core.state) && cp.core.state.sourceSha == source && cp.core.state.configSha == config
              && JournalOf(c, data).Ok?
              && var recs, start, n := JournalOf(c, data).value, Origin(cp.core.state.startingCash, source, config), cp.core.journalSeq;
                 && 0 <= n <= |recs| && (n == 0 ==> recs == []) && Replay(start, limits, recs).Ok?
                 && Replay(start, limits, recs[..n]).Ok? && Replay(start, limits, recs[..n]).value.core == cp.core
  {
    hide StateOk, Absorb, ChainOk, DecodeAll;
    if JournalOf(c, data).Ok? {
      var recs, start, n := JournalOf(c, data).value, Origin(cp.core.state.startingCash, source, config), cp.core.journalSeq;
      assert recs[..|recs|] == recs;
      ResumeIsReplay(start, limits, recs, cp.core, |recs|);
      if recs != [] && Replay(start, limits, recs).Ok? { ReplayEnds(start, limits, recs); }
      if 1 <= n <= |recs| && Replay(start, limits, recs[..n]).Ok? {
        ChainPrefix(recs, n);
        ReplayEnds(start, limits, recs[..n]);
      }
    }
  }
}
