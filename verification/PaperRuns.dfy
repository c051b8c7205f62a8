/** Runs of several paper engines on one journal path, with failures at any byte of any append. */
module PaperRuns {
  import opened Prelude
  import opened ExecutionResilience
  import opened PaperContract
  import opened PaperHistory
  import opened PaperJournal

  datatype Setup = Setup(codec: Codec, startingCash: real, source: string, config: string, limits: Limits) {
    ghost predicate Ok() { startingCash > 0.0 && LimitsOk(limits) }
    function Start(): Memory { Origin(startingCash, source, config) }
  }

  /** The journal file, every engine ever opened on it, and every checkpoint saved. A process that died is an engine
      that never acts again. */
  datatype World = World(file: seq<byte>, engines: seq<Engine>, saved: seq<Checkpoint>)

  datatype Step =
    | Open
    | Command(engine: nat, cmd: Command, disk: Disk)
    | Save(engine: nat)
    | Reload(checkpoint: nat)

  predicate StepExists(w: World, s: Step) {
    match s
    case Open => true
    case Command(i, _, _) => i < |w.engines|
    case Save(i) => i < |w.engines|
    case Reload(j) => j < |w.saved|
  }

  /** A fresh engine is refused on a non-empty journal, a reload may be refused: both leave the world as it is. */
  function NextWorld(u: Setup, w: World, s: Step): World
    requires StepExists(w, s)
  {
    match s
    case Open => if w.file == [] then w.(engines := w.engines + [Engine(u.Start(), 0)]) else w
    case Command(i, cmd, disk) =>
      var r := Act(u.codec, u.limits, w.file, w.engines[i], cmd, disk);
      w.(file := r.0, engines := w.engines[i := r.1])
    case Save(i) =>
      (match SaveCheckpoint(w.engines[i], u.limits)
       case None => w
       case Some(cp) => w.(saved := w.saved + [cp]))
    case Reload(j) =>
      (match Recover(u.codec, w.saved[j], w.file, u.source, u.config, u.limits)
       case Err(_) => w
       case Ok(e) => w.(engines := w.engines + [e]))
  }

  /** Records are written by a codec that reads them back, and `resolve_divergence` is called for divergences only,
      never to clear a durability failure. */
  ghost predicate Permitted(u: Setup, w: World, s: Step) {
    StepExists(w, s) &&
    (s.Command? ==>
       var e := w.engines[s.engine];
       var d := Decide(e.memory, u.limits, s.cmd);
       && (d.Propose? ==> Faithful(u.codec, d.record))
       && (s.cmd.Resolve? ==> e.memory.core.blocked != Some(JournalFailure)))
  }

  const EMPTY := World([], [], [])

  function After(u: Setup, steps: seq<Step>): World {
    if steps == [] then EMPTY
    else
      var w := After(u, steps[..|steps| - 1]);
      var s := steps[|steps| - 1];
      if StepExists(w, s) then NextWorld(u, w, s) else w
  }

  ghost predicate PermittedRun(u: Setup, steps: seq<Step>) {
    steps == [] || (PermittedRun(u, steps[..|steps| - 1]) && Permitted(u, After(u, steps[..|steps| - 1]), steps[|steps| - 1]))
  }

  // ---- The invariant ----

  ghost predicate Journaled(u: Setup, recs: seq<Record>) {
    && (forall r <- recs :: Faithful(u.codec, r)) && ChainOk(recs) && Replay(u.Start(), u.limits, recs).Ok?
  }

  function At(u: Setup, recs: seq<Record>, n: nat): Memory
    requires n <= |recs| && Replay(u.Start(), u.limits, recs).Ok?
  {
    ReplayPrefix(u.Start(), u.limits, recs, n);
    Replay(u.Start(), u.limits, recs[..n]).value
  }

  /** An engine is the replay of some prefix of the journal; it may in addition be blocked by a failed append. */
  ghost predicate EngineAt(u: Setup, recs: seq<Record>, e: Engine, n: nat)
    requires Replay(u.Start(), u.limits, recs).Ok?
  {
    && n <= |recs| && e.journalSize == |FileOf(u.codec, recs[..n])|
    && (e.memory == At(u, recs, n) || e.memory == Reblocked(At(u, recs, n), Some(JournalFailure)))
  }

  ghost predicate EngineOk(u: Setup, recs: seq<Record>, e: Engine)
    requires Replay(u.Start(), u.limits, recs).Ok?
  {
    exists n: nat :: EngineAt(u, recs, e, n)
  }

  ghost predicate CheckpointAt(u: Setup, recs: seq<Record>, cp: Checkpoint, n: nat)
    requires Replay(u.Start(), u.limits, recs).Ok?
  {
    && n <= |recs| && cp.version == SCHEMA_VERSION && cp.limits == u.limits
    && cp.sha == CheckpointSha(cp.core, cp.limits) && cp.core == At(u, recs, n).core
  }

  ghost predicate CheckpointOk(u: Setup, recs: seq<Record>, cp: Checkpoint)
    requires Replay(u.Start(), u.limits, recs).Ok?
  {
    exists n: nat :: CheckpointAt(u, recs, cp, n)
  }

  ghost predicate TornOk(u: Setup, torn: seq<byte>) {
    torn == [] || exists r :: Faithful(u.codec, r) && Torn(u.codec, torn, r)
  }

  /** The file is one valid, replayable chain of records, followed by at most one torn line. */
  ghost predicate WorldOk(u: Setup, w: World, recs: seq<Record>, torn: seq<byte>) {
    && Journaled(u, recs) && w.file == FileOf(u.codec, recs) + torn && TornOk(u, torn)
    && (forall e <- w.engines :: EngineOk(u, recs, e))
    && (forall cp <- w.saved :: CheckpointOk(u, recs, cp))
  }

  lemma {:induction false} ReplayAnchors(u: Setup, recs: seq<Record>)
    requires ChainOk(recs) && Replay(u.Start(), u.limits, recs).Ok?
    ensures var m := Replay(u.Start(), u.limits, recs).value;
            && m.core.journalSeq == |recs| && m.core.head == HeadOf(recs)
            && (forall r <- recs :: r.base.eventId in m.events)
            && m.core.state.sourceSha == u.source && m.core.state.configSha == u.config && m.core.state.startingCash == u.startingCash
  {
    if recs != [] {
      var init, r := recs[..|recs| - 1], recs[|recs| - 1];
      ChainPrefix(recs, |init|);
      ReplayAnchors(u, init);
      assert LinkOk(recs, |init|);
      assert recs == init + [r];
      AbsorbKeepsIdentity(Replay(u.Start(), u.limits, init).value, u.limits, r);
    }
  }

  lemma AbsorbKeepsIdentity(m: Memory, limits: Limits, r: Record)
    requires Absorb(m, limits, r).Ok?
    ensures var s, t := m.core.state, Absorb(m, limits, r).value.core.state;
            s.sourceSha == t.sourceSha && s.configSha == t.configSha && s.startingCash == t.startingCash
  {
    if r.base.payload.OrderRegistered? {
      var p := r.base.payload;
      RegisterKeepsIdentity(m.core.state, m.core.state.orders, p);
    }
  }

  lemma {:induction rest} RegisterKeepsIdentity(s: PaperState, rest: seq<PaperOrder>, p: Payload)
    requires p.OrderRegistered? && RegisterAgainst(s, rest, p.orderId, p.clientOrderId, p.side, p.quantity).Ok?
    ensures var t := RegisterAgainst(s, rest, p.orderId, p.clientOrderId, p.side, p.quantity).value;
            s.sourceSha == t.sourceSha && s.configSha == t.configSha && s.startingCash == t.startingCash
  {
  }

  /** What holds about prefixes still holds after the journal grows. */
  lemma PrefixesKept(u: Setup, recs: seq<Record>, r: Record)
    requires Replay(u.Start(), u.limits, recs).Ok? && Replay(u.Start(), u.limits, recs + [r]).Ok?
    ensures forall e, n :: EngineAt(u, recs, e, n) ==> EngineAt(u, recs + [r], e, n)
    ensures forall cp, n :: CheckpointAt(u, recs, cp, n) ==> CheckpointAt(u, recs + [r], cp, n)
  {
    forall n | 0 <= n <= |recs| ensures (recs + [r])[..n] == recs[..n] {}
  }

  /** Only the engine that holds the whole journal can put bytes on disk, and only when no torn line is there. */
  lemma OnlyCurrentEngineAppends(u: Setup, w: World, recs: seq<Record>, torn: seq<byte>, i: nat, cmd: Command, disk: Disk)
    requires WorldOk(u, w, recs, torn) && i < |w.engines| && Permitted(u, w, Step.Command(i, cmd, disk))
    requires Act(u.codec, u.limits, w.file, w.engines[i], cmd, disk).0 != w.file
    ensures torn == [] && w.engines[i] == Engine(At(u, recs, |recs|), |w.file|)
  {
    var e := w.engines[i];
    assert e in w.engines;
    var n: nat :| EngineAt(u, recs, e, n);
    var d := Decide(e.memory, u.limits, cmd);
    var line := Line(u.codec, d.record);
    var x := AppendEffect(disk, |w.file|, e.journalSize, e.memory.core.blocked.Some?, |line|);
    assert w.file + line[..0] == w.file;
    assert x.landed > 0 && e.journalSize == |w.file|;
    assert recs[..|recs|] == recs;
    if n < |recs| { FileGrows(u.codec, recs, n); }
    ProposalIsNextLink(e.memory, u.limits, cmd);
  }

  /** A proposal of the current engine extends the journal. */
  lemma ProposalExtends(u: Setup, recs: seq<Record>, cmd: Command)
    requires Journaled(u, recs)
    requires Decide(At(u, recs, |recs|), u.limits, cmd).Propose?
    requires Faithful(u.codec, Decide(At(u, recs, |recs|), u.limits, cmd).record)
    ensures var d := Decide(At(u, recs, |recs|), u.limits, cmd);
            Journaled(u, recs + [d.record]) && At(u, recs + [d.record], |recs| + 1) == d.next
  {
    var m := At(u, recs, |recs|);
    assert recs[..|recs|] == recs;
    var d := Decide(m, u.limits, cmd);
    ProposalIsNextLink(m, u.limits, cmd);
    ReplayAnchors(u, recs);
    ChainExtend(recs, d.record);
    ReplaySnoc(u.Start(), u.limits, recs, d.record);
    assert (recs + [d.record])[..|recs| + 1] == recs + [d.record];
  }

  lemma CommandWithoutBytes(u: Setup, w: World, recs: seq<Record>, torn: seq<byte>, i: nat, cmd: Command, disk: Disk)
    requires WorldOk(u, w, recs, torn) && i < |w.engines|
    requires Act(u.codec, u.limits, w.file, w.engines[i], cmd, disk).0 == w.file
    ensures EngineOk(u, recs, Act(u.codec, u.limits, w.file, w.engines[i], cmd, disk).1)
    ensures WorldOk(u, NextWorld(u, w, Step.Command(i, cmd, disk)), recs, torn)
  {
    var e := w.engines[i];
    assert e in w.engines;
    var n: nat :| EngineAt(u, recs, e, n);
    var after := Act(u.codec, u.limits, w.file, e, cmd, disk);
    assert after.1 == e || after.1 == PaperJournal.Block(e);
    assert EngineAt(u, recs, after.1, n);
    var w' := NextWorld(u, w, Step.Command(i, cmd, disk));
    forall x | x in w'.engines ensures EngineOk(u, recs, x) {
      var j :| 0 <= j < |w'.engines| && w'.engines[j] == x;
      if j != i { assert w.engines[j] in w.engines; }
    }
  }

  lemma OtherEnginesKept(u: Setup, recs: seq<Record>, engines: seq<Engine>, i: nat, e: Engine)
    requires Replay(u.Start(), u.limits, recs).Ok? && i < |engines|
    requires (forall x <- engines :: EngineOk(u, recs, x)) && EngineOk(u, recs, e)
    ensures forall x <- engines[i := e] :: EngineOk(u, recs, x)
  {
    forall x | x in engines[i := e] ensures EngineOk(u, recs, x) {
      var j :| 0 <= j < |engines| && engines[i := e][j] == x;
      if j != i { assert engines[j] in engines; }
    }
  }

  /** Part of a line reached the disk. */
  lemma LineTorn(u: Setup, w: World, recs: seq<Record>, i: nat, r: Record, landed: nat)
    requires WorldOk(u, w, recs, []) && i < |w.engines| && w.engines[i] == Engine(At(u, recs, |recs|), |w.file|)
    requires Faithful(u.codec, r) && 0 < landed < |Line(u.codec, r)|
    ensures WorldOk(u, w.(file := w.file + Line(u.codec, r)[..landed], engines := w.engines[i := PaperJournal.Block(w.engines[i])]),
                    recs, Line(u.codec, r)[..landed])
  {
    assert recs[..|recs|] == recs && FileOf(u.codec, recs) + [] == FileOf(u.codec, recs);
    assert Torn(u.codec, Line(u.codec, r)[..landed], r);
    assert EngineAt(u, recs, PaperJournal.Block(w.engines[i]), |recs|);
    OtherEnginesKept(u, recs, w.engines, i, PaperJournal.Block(w.engines[i]));
  }

  /** The whole line reached the disk, acknowledged or not. */
  lemma LineWritten(u: Setup, w: World, recs: seq<Record>, i: nat, cmd: Command, acknowledged: bool)
    requires WorldOk(u, w, recs, []) && i < |w.engines| && w.engines[i] == Engine(At(u, recs, |recs|), |w.file|)
    requires Decide(w.engines[i].memory, u.limits, cmd).Propose?
    requires Faithful(u.codec, Decide(w.engines[i].memory, u.limits, cmd).record)
    ensures var d := Decide(w.engines[i].memory, u.limits, cmd);
            var file := w.file + Line(u.codec, d.record);
            var e := if acknowledged then Engine(d.next, |file|) else PaperJournal.Block(w.engines[i]);
            && WorldOk(u, w.(file := file, engines := w.engines[i := e]), recs + [d.record], [])
            && Journaled(u, recs + [d.record]) && At(u, recs + [d.record], |recs| + 1) == d.next
  {
    var d := Decide(w.engines[i].memory, u.limits, cmd);
    var all, file := recs + [d.record], w.file + Line(u.codec, d.record);
    assert recs[..|recs|] == recs && FileOf(u.codec, recs) + [] == FileOf(u.codec, recs);
    ProposalExtends(u, recs, cmd);
    FileSnoc(u.codec, recs, d.record);
    PrefixesKept(u, recs, d.record);
    assert all[..|all|] == all && all[..|recs|] == recs;
    assert FileOf(u.codec, all) + [] == file;
    var e := if acknowledged then Engine(d.next, |file|) else PaperJournal.Block(w.engines[i]);
    assert EngineAt(u, all, e, if acknowledged then |all| else |recs|);
    OtherEnginesKept(u, all, w.engines, i, e);
  }

  lemma CommandWithBytes(u: Setup, w: World, recs: seq<Record>, torn: seq<byte>, i: nat, cmd: Command, disk: Disk)
    returns (recs': seq<Record>, torn': seq<byte>)
    requires WorldOk(u, w, recs, torn) && i < |w.engines| && Permitted(u, w, Step.Command(i, cmd, disk))
    requires Act(u.codec, u.limits, w.file, w.engines[i], cmd, disk).0 != w.file
    ensures WorldOk(u, NextWorld(u, w, Step.Command(i, cmd, disk)), recs', torn')
    ensures |recs| <= |recs'| <= |recs| + 1 && recs'[..|recs|] == recs
  {
    hide Decide, WorldOk;
    OnlyCurrentEngineAppends(u, w, recs, torn, i, cmd, disk);
    var e := w.engines[i];
    var d := Decide(e.memory, u.limits, cmd);
    var line := Line(u.codec, d.record);
    var x := AppendEffect(disk, |w.file|, e.journalSize, e.memory.core.blocked.Some?, |line|);
    assert w.file + line[..0] == w.file;
    if x.landed < |line| {
      recs', torn' := recs, line[..x.landed];
      LineTorn(u, w, recs, i, d.record, x.landed);
    } else {
      recs', torn' := recs + [d.record], [];
      assert line[..x.landed] == line;
      LineWritten(u, w, recs, i, cmd, x.acknowledged);
    }
  }

  /** Recovery from any saved checkpoint: refused on a torn tail; otherwise the replay of the whole journal, except that a
      genesis checkpoint is only accepted with an empty journal. */
  lemma RecoveryOutcome(u: Setup, w: World, recs: seq<Record>, torn: seq<byte>, cp: Checkpoint)
    requires u.Ok() && WorldOk(u, w, recs, torn) && cp in w.saved
    ensures Recover(u.codec, cp, w.file, u.source, u.config, u.limits) ==
              if torn != [] then Err(TruncatedTail)
              else if cp.core.journalSeq == 0 && recs != [] then Err(GenesisMismatch)
              else Ok(Engine(At(u, recs, |recs|), |w.file|))
  {
    hide Absorb;
    var n: nat :| CheckpointAt(u, recs, cp, n);
    ChainPrefix(recs, n);
    ReplayPrefix(u.Start(), u.limits, recs, n);
    ReplayAnchors(u, recs[..n]);
    OriginFacts(u.startingCash, u.source, u.config, u.limits);
    ReplayFacts(u.Start(), u.limits, recs[..n]);
    assert CheckCheckpoint(cp, u.source, u.config, u.limits);
    if torn != [] {
      var r :| Faithful(u.codec, r) && Torn(u.codec, torn, r);
      TornIsRejected(u.codec, recs, torn, r);
    } else {
      assert FileOf(u.codec, recs) + torn == FileOf(u.codec, recs);
      JournalReadsBack(u.codec, recs);
      assert recs[..|recs|] == recs;
      ResumeIsReplay(u.Start(), u.limits, recs, cp.core, |recs|);
      ReplayAnchors(u, recs);
    }
  }

  lemma OpenKeeps(u: Setup, w: World, recs: seq<Record>, torn: seq<byte>)
    requires u.Ok() && WorldOk(u, w, recs, torn) && StepExists(w, Step.Open)
    ensures WorldOk(u, NextWorld(u, w, Step.Open), recs, torn)
  {
    if w.file == [] {
      assert recs == [] && recs[..0] == recs;
      assert EngineAt(u, recs, Engine(u.Start(), 0), 0);
    }
  }

  lemma SaveKeeps(u: Setup, w: World, recs: seq<Record>, torn: seq<byte>, i: nat)
    requires u.Ok() && WorldOk(u, w, recs, torn) && StepExists(w, Save(i))
    ensures WorldOk(u, NextWorld(u, w, Save(i)), recs, torn)
  {
    var e := w.engines[i];
    assert e in w.engines;
    var n: nat :| EngineAt(u, recs, e, n);
    if SaveCheckpoint(e, u.limits).Some? {
      assert CheckpointAt(u, recs, SaveCheckpoint(e, u.limits).value, n);
    }
  }

  lemma ReloadKeeps(u: Setup, w: World, recs: seq<Record>, torn: seq<byte>, j: nat)
    requires u.Ok() && WorldOk(u, w, recs, torn) && StepExists(w, Reload(j))
    ensures WorldOk(u, NextWorld(u, w, Reload(j)), recs, torn)
  {
    hide Recover, Absorb;
    var cp := w.saved[j];
    assert cp in w.saved;
    RecoveryOutcome(u, w, recs, torn, cp);
    assert recs[..|recs|] == recs;
    if torn == [] {
      assert w.file == FileOf(u.codec, recs);
      assert EngineAt(u, recs, Engine(At(u, recs, |recs|), |w.file|), |recs|);
    }
  }

  lemma OtherSteps(u: Setup, w: World, recs: seq<Record>, torn: seq<byte>, s: Step)
    requires u.Ok() && WorldOk(u, w, recs, torn) && StepExists(w, s) && !s.Command?
    ensures WorldOk(u, NextWorld(u, w, s), recs, torn)
  {
    hide WorldOk, NextWorld, StepExists;
    match s
    case Open => OpenKeeps(u, w, recs, torn);
    case Save(i) => SaveKeeps(u, w, recs, torn, i);
    case Reload(j) => ReloadKeeps(u, w, recs, torn, j);
  }

  lemma StepKeepsWorld(u: Setup, w: World, recs: seq<Record>, torn: seq<byte>, s: Step) returns (recs': seq<Record>, torn': seq<byte>)
    requires u.Ok() && WorldOk(u, w, recs, torn) && Permitted(u, w, s)
    ensures WorldOk(u, NextWorld(u, w, s), recs', torn')
    ensures |recs| <= |recs'| <= |recs| + 1 && recs'[..|recs|] == recs
    ensures torn != [] ==> NextWorld(u, w, s).file == w.file
  {
    recs', torn' := recs, torn;
    if s.Command? {
      if Act(u.codec, u.limits, w.file, w.engines[s.engine], s.cmd, s.disk).0 == w.file {
        CommandWithoutBytes(u, w, recs, torn, s.engine, s.cmd, s.disk);
      } else {
        OnlyCurrentEngineAppends(u, w, recs, torn, s.engine, s.cmd, s.disk);
        recs', torn' := CommandWithBytes(u, w, recs, torn, s.engine, s.cmd, s.disk);
      }
    } else {
      OtherSteps(u, w, recs, torn, s);
    }
  }

  /** Multi-writer safety: after any interleaving of engines, failures and reloads, the file is one valid replayable
      hash chain with at most one torn line, and every engine is the replay of a prefix of it. */
  lemma {:induction false} EveryRunIsSafe(u: Setup, steps: seq<Step>) returns (recs: seq<Record>, torn: seq<byte>)
    requires u.Ok() && PermittedRun(u, steps)
    ensures WorldOk(u, After(u, steps), recs, torn)
  {
    if steps == [] {
      recs, torn := [], [];
      assert FileOf(u.codec, recs) + torn == [];
    } else {
      var init := steps[..|steps| - 1];
      recs, torn := EveryRunIsSafe(u, init);
      recs, torn := StepKeepsWorld(u, After(u, init), recs, torn, steps[|steps| - 1]);
    }
  }

  /** After any permitted run, recovery from any saved checkpoint that has seen a record is refused on a torn tail and
      otherwise rebuilds the replay of the whole journal. */
  lemma EveryRunRecovers(u: Setup, steps: seq<Step>, cp: Checkpoint) returns (recs: seq<Record>, torn: seq<byte>)
    requires u.Ok() && PermittedRun(u, steps) && cp in After(u, steps).saved && cp.core.journalSeq >= 1
    ensures WorldOk(u, After(u, steps), recs, torn)
    ensures Recover(u.codec, cp, After(u, steps).file, u.source, u.config, u.limits) ==
              if torn != [] then Err(TruncatedTail) else Ok(Engine(At(u, recs, |recs|), |After(u, steps).file|))
  {
    hide After, PermittedRun, Recover, WorldOk, At;
    recs, torn := EveryRunIsSafe(u, steps);
    RecoveryOutcome(u, After(u, steps), recs, torn, cp);
  }

  /** Crash recovery: whatever part of one more record reaches the disk, recovery from a checkpoint that has seen a
      record gives the last acknowledged engine, or that engine plus the one record, and is refused exactly when a
      strict, non-empty part of the record was left behind. */
  lemma CrashDuringAppend(u: Setup, w: World, recs: seq<Record>, i: nat, cmd: Command, disk: Disk, cp: Checkpoint)
    requires u.Ok() && WorldOk(u, w, recs, []) && i < |w.engines| && Permitted(u, w, Step.Command(i, cmd, disk))
    requires cp in w.saved && cp.core.journalSeq >= 1
    requires w.engines[i] == Engine(At(u, recs, |recs|), |w.file|) && Decide(w.engines[i].memory, u.limits, cmd).Propose?
    ensures var d := Decide(w.engines[i].memory, u.limits, cmd);
            var line := Line(u.codec, d.record);
            var x := AppendEffect(disk, |w.file|, |w.file|, w.engines[i].memory.core.blocked.Some?, |line|);
            Recover(u.codec, cp, NextWorld(u, w, Step.Command(i, cmd, disk)).file, u.source, u.config, u.limits) ==
              if x.landed == 0 then Ok(w.engines[i])
              else if x.landed < |line| then Err(TruncatedTail)
              else Ok(Engine(d.next, |w.file| + |line|))
  {
    hide Decide, Recover, WorldOk;
    var s := Step.Command(i, cmd, disk);
    var w' := NextWorld(u, w, s);
    var d := Decide(w.engines[i].memory, u.limits, cmd);
    var line := Line(u.codec, d.record);
    var x := AppendEffect(disk, |w.file|, |w.file|, w.engines[i].memory.core.blocked.Some?, |line|);
    assert w'.file == w.file + line[..x.landed];
    if x.landed == 0 {
      assert w'.file == w.file;
      RecoveryOutcome(u, w, recs, [], cp);
    } else if x.landed < |line| {
      LineTorn(u, w, recs, i, d.record, x.landed);
      var v := w.(file := w.file + line[..x.landed], engines := w.engines[i := PaperJournal.Block(w.engines[i])]);
      RecoveryOutcome(u, v, recs, line[..x.landed], cp);
    } else {
      assert line[..x.landed] == line;
      LineWritten(u, w, recs, i, cmd, true);
      var v := w.(file := w.file + line, engines := w.engines[i := Engine(d.next, |w.file + line|)]);
      RecoveryOutcome(u, v, recs + [d.record], [], cp);
    }
  }

  // ---- What goes wrong when a durability failure is resolved ----

  /** An engine at the whole journal, blocked by a failed append that left no bytes, may append a resolution. The
      journal then replays exactly when it ended in a divergence anyway. */
  lemma ResolvingAFailedAppend(u: Setup, recs: seq<Record>, cmd: Command)
    requires Journaled(u, recs) && cmd.Resolve?
    requires Decide(Reblocked(At(u, recs, |recs|), Some(JournalFailure)), u.limits, cmd).Propose?
    ensures var r := Decide(Reblocked(At(u, recs, |recs|), Some(JournalFailure)), u.limits, cmd).record;
            Replay(u.Start(), u.limits, recs + [r]).Ok? <==> EndsInDivergence(u.Start(), u.limits, recs)
  {
    assert recs[..|recs|] == recs;
    var m := At(u, recs, |recs|);
    var r := Decide(Reblocked(m, Some(JournalFailure)), u.limits, cmd).record;
    ReplaySnoc(u.Start(), u.limits, recs, r);
    ResolutionAbsorbed(m, u.limits, cmd);
    BlockedIffEndsInDivergence(u.Start(), u.limits, recs);
  }

  lemma ResolutionAbsorbed(m: Memory, limits: Limits, cmd: Command)
    requires cmd.Resolve? && Decide(Reblocked(m, Some(JournalFailure)), limits, cmd).Propose?
    ensures Absorb(m, limits, Decide(Reblocked(m, Some(JournalFailure)), limits, cmd).record).Ok? <==> m.core.blocked.Some?
  {
  }

  const GOOD_DISK := Disk(true, true, true, [], true, true)

  const RESOLUTION_BASE := RecordBase(1, "e2", 0, DivergenceResolved("ref", "why", []), Genesis)
  const RESOLUTION := Record(RESOLUTION_BASE, Sha(RESOLUTION_BASE))

  /** A concrete run: a registration fails to open the journal, the resulting block is resolved, and the resolution
      record is acknowledged. Every later recovery, from any checkpoint, is refused. */
  lemma ResolvedFailureIsUnrecoverable(u: Setup, cp: Checkpoint)
    requires u.Ok() && Faithful(u.codec, RESOLUTION)
    ensures var w1 := NextWorld(u, EMPTY, Step.Open);
            var w2 := NextWorld(u, w1, Step.Command(0, Register("e1", 0, "o", "c", Buy, 1.0), GOOD_DISK.(openOk := false)));
            var r := Act(u.codec, u.limits, w2.file, w2.engines[0], Resolve("e2", 0, "ref", "why"),
                         GOOD_DISK.(writes := [|Line(u.codec, RESOLUTION)|]));
            r.2 == Done(Recorded) && Recover(u.codec, cp, r.0, u.source, u.config, u.limits).Err?
  {
    var e := Engine(u.Start(), 0);
    var register := Register("e1", 0, "o", "c", Buy, 1.0);
    RegisterFreshAgainst(u.Start().core.state, [], "o", "c", Buy, 1.0);
    assert Decide(e.memory, u.limits, register).Propose?;
    var w2 := NextWorld(u, NextWorld(u, EMPTY, Step.Open), Step.Command(0, register, GOOD_DISK.(openOk := false)));
    assert w2.file == [] && w2.engines[0] == PaperJournal.Block(e);
    var disk := GOOD_DISK.(writes := [|Line(u.codec, RESOLUTION)|]);
    var line := Line(u.codec, RESOLUTION);
    assert Landed([|line|], |line|) == (|line|, true);
    var r := Act(u.codec, u.limits, w2.file, w2.engines[0], Resolve("e2", 0, "ref", "why"), disk);
    assert r.0 == line by { assert [] + line[..|line|] == line; }
    assert FileOf(u.codec, [RESOLUTION]) == line by { assert [RESOLUTION][..0] == []; }
    assert [RESOLUTION][..0] == [];
    assert LinkOk([RESOLUTION], 0);
    JournalReadsBack(u.codec, [RESOLUTION]);
    if Recover(u.codec, cp, r.0, u.source, u.config, u.limits).Ok? {
      RecoverySound(u.codec, cp, r.0, u.source, u.config, u.limits);
      BlockAdmitsOnlyResolution(Origin(cp.core.state.startingCash, u.source, u.config), u.limits, [RESOLUTION], 0);
      assert false;
    }
  }
}
