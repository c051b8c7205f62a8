/** The append-only receipt store with torn-tail repair (senecio_polymarket/backend/prediction_persistence.py). */
module PredictionPersistence {
  import opened Prelude
  import opened Lines
  import opened Sorting

  /** A generated T0; `core` holds the fields the authority row is matched on, `extra` the rest. */
  datatype Prediction = Prediction(timestamp: int, symbol: string, core: string, extra: string)

  /** SHA-256, taken as a free injective function of what it hashes. */
  datatype PredictionSha = PredictionSha(prediction: Prediction)
  datatype TailSha = TailSha(bytes: seq<byte>)

  datatype EventKind = ENQUEUED | FAILED | PERSISTED

  datatype Event = Event(
    kind: EventKind, sourceHash: string, packetId: string, predictionSha: PredictionSha,
    prediction: Option<Prediction>, rowId: Option<int>, reason: Option<string>)

  datatype Json = Receipt(event: Event) | Marker(lineNo: int, sha: TailSha, size: int) | OtherJson

  /** JSON text for events and recovery markers, and the parser. */
  datatype Codec = Codec(
    encode: Event -> seq<byte>, encodeMarker: (int, seq<byte>) -> seq<byte>, parse: seq<byte> -> Option<Json>)

  const OPEN_BRACE: byte := '{' as int

  predicate Whitespace(b: byte) { 9 <= b <= 13 || b == 32 }

  predicate Blank(s: seq<byte>) { forall i :: 0 <= i < |s| ==> Whitespace(s[i]) }

  predicate ObjectText(s: seq<byte>) { s != [] && s[0] == OPEN_BRACE && Clean(s) }

  /** The text of a JSON object parses back, has no raw line break, and no strict prefix of it is JSON
      (section 4 of RFC 8259). */
  ghost predicate Written(c: Codec, e: Event) {
    && ObjectText(c.encode(e)) && c.parse(c.encode(e)) == Some(Receipt(e))
    && (forall k :: 0 <= k < |c.encode(e)| ==> c.parse(c.encode(e)[..k]) == None)
  }

  ghost predicate MarkerWritten(c: Codec, lineNo: int, tail: seq<byte>) {
    ObjectText(c.encodeMarker(lineNo, tail)) && c.parse(c.encodeMarker(lineNo, tail)) == Some(Marker(lineNo, TailSha(tail), |tail|))
  }

  // ---- Reading with repair ----

  /** Rows read and bytes appended as repair, or the number of the offending line. */
  datatype Scan = Rows(rows: seq<Event>, repair: seq<byte>) | Corrupt(lineNo: int)

  function Prepend(rows: seq<Event>, s: Scan): Scan {
    if s.Rows? then s.(rows := rows + s.rows) else s
  }

  function TornRepair(c: Codec, content: seq<byte>, lineNo: int): seq<byte> {
    [LF] + c.encodeMarker(lineNo, content) + [LF]
  }

  predicate MarkerFollows(c: Codec, lines: seq<RawLine>, k: nat)
    requires k < |lines|
  {
    k + 1 < |lines| && c.parse(lines[k + 1].content) == Some(Marker(k + 1, TailSha(lines[k].content), |lines[k].content|))
  }

  function ScanFrom(c: Codec, lines: seq<RawLine>, k: nat): Scan
    requires k <= |lines|
    decreases |lines| - k
  {
    if k == |lines| then Rows([], [])
    else
      var content := lines[k].content;
      var open := k == |lines| - 1 && lines[k].ending == [];
      if Blank(content) then ScanFrom(c, lines, k + 1)
      else match c.parse(content)
        case None =>
          if open then Rows([], TornRepair(c, content, k + 1))
          else if MarkerFollows(c, lines, k) then ScanFrom(c, lines, k + 2)
          else Corrupt(k + 1)
        case Some(Receipt(e)) =>
          if open then Rows([e], [LF]) else Prepend([e], ScanFrom(c, lines, k + 1))
        case Some(_) => Corrupt(k + 1)
  }

  function ScanFile(c: Codec, file: seq<byte>): Scan { ScanFrom(c, SplitLines(file), 0) }

  /** The events of the lines that hold a receipt. */
  function ReceiptsFrom(c: Codec, lines: seq<RawLine>, k: nat): seq<Event>
    requires k <= |lines|
    decreases |lines| - k
  {
    if k == |lines| then []
    else
      var json := c.parse(lines[k].content);
      (if !Blank(lines[k].content) && json.Some? && json.value.Receipt? then [json.value.event] else []) + ReceiptsFrom(c, lines, k + 1)
  }

  /** A line that spoils a file: neither blank nor a receipt, and neither a torn end nor vouched for by the marker of its
      number, digest and length behind it. */
  ghost predicate Spoils(c: Codec, lines: seq<RawLine>, i: nat)
    requires i < |lines|
  {
    && !(forall b <- lines[i].content :: b in {9, 10, 11, 12, 13, 32})
    && match c.parse(lines[i].content)
       case Some(json) => !json.Receipt?
       case None => !(i == |lines| - 1 && lines[i].ending == []) && !(i + 1 < |lines| && Vouches(c, lines[i + 1], i + 1, lines[i].content))
  }

  ghost predicate Vouches(c: Codec, l: RawLine, lineNo: int, torn: seq<byte>) {
    c.parse(l.content) == Some(Marker(lineNo, TailSha(torn), |torn|))
  }

  /** Reading any file: the rows are the receipts in it, or the first line that spoils it is reported; a line is passed over
      only if it is blank, torn, or the marker of the torn line before it. */
  lemma {:induction false} ScanMeans(c: Codec, lines: seq<RawLine>, k: nat)
    requires k <= |lines|
    ensures match ScanFrom(c, lines, k)
            case Rows(rows, _) =>
              && rows == ReceiptsFrom(c, lines, k)
              && forall i :: k <= i < |lines| && Spoils(c, lines, i) ==> i > k && Vouches(c, lines[i], i, lines[i - 1].content)
            case Corrupt(n) =>
              && k < n <= |lines| && Spoils(c, lines, n - 1)
              && forall i :: k <= i < n - 1 && Spoils(c, lines, i) ==> i > k && Vouches(c, lines[i], i, lines[i - 1].content)
    decreases |lines| - k
  {
    if k < |lines| {
      BlankIff(lines[k].content);
      var content := lines[k].content;
      if Blank(content) {
        ScanMeans(c, lines, k + 1);
      } else if c.parse(content).None? && MarkerFollows(c, lines, k) {
        ScanMeans(c, lines, k + 2);
        assert ReceiptsFrom(c, lines, k + 1) == ReceiptsFrom(c, lines, k + 2);
        assert forall i :: k < i < |lines| && i == k + 1 ==> Vouches(c, lines[i], i, lines[i - 1].content);
      } else if c.parse(content).Some? && c.parse(content).value.Receipt? {
        ScanMeans(c, lines, k + 1);
      }
    }
  }

  lemma BlankIff(s: seq<byte>)
    ensures Blank(s) <==> forall b <- s :: b in {9, 10, 11, 12, 13, 32}
  {
    if forall b <- s :: b in {9, 10, 11, 12, 13, 32} {
      forall i | 0 <= i < |s| ensures Whitespace(s[i]) { assert s[i] in s; }
    }
  }

  // ---- What files look like after any history of appends, crashes and repairs ----

  datatype Segment = Row(event: Event) | Repaired(tail: seq<byte>)

  function LineCount(log: seq<Segment>): nat {
    if log == [] then 0 else LineCount(log[..|log| - 1]) + (if log[|log| - 1].Row? then 1 else 2)
  }

  function SegmentLines(c: Codec, s: Segment, before: nat): seq<RawLine> {
    match s
    case Row(e) => [RawLine(c.encode(e), [LF])]
    case Repaired(t) => [RawLine(t, [LF]), RawLine(c.encodeMarker(before + 1, t), [LF])]
  }

  function SegmentBytes(c: Codec, s: Segment, before: nat): (r: seq<byte>)
    ensures r != [] && r[|r| - 1] == LF
  {
    match s
    case Row(e) => c.encode(e) + [LF]
    case Repaired(t) => t + TornRepair(c, t, before + 1)
  }

  function Bytes(c: Codec, log: seq<Segment>): (r: seq<byte>)
    ensures r == [] || r[|r| - 1] == LF
  {
    if log == [] then []
    else Bytes(c, log[..|log| - 1]) + SegmentBytes(c, log[|log| - 1], LineCount(log[..|log| - 1]))
  }

  function LogLines(c: Codec, log: seq<Segment>): (r: seq<RawLine>)
    ensures |r| == LineCount(log)
  {
    if log == [] then []
    else LogLines(c, log[..|log| - 1]) + SegmentLines(c, log[|log| - 1], LineCount(log[..|log| - 1]))
  }

  function RowsOf(log: seq<Segment>): seq<Event> {
    if log == [] then []
    else RowsOf(log[..|log| - 1]) + (if log[|log| - 1].Row? then [log[|log| - 1].event] else [])
  }

  ghost predicate SegmentOk(c: Codec, s: Segment, before: nat) {
    match s
    case Row(e) => Written(c, e)
    case Repaired(t) => ObjectText(t) && c.parse(t) == None && MarkerWritten(c, before + 1, t)
  }

  /** Committed rows, with each torn tail covered by its marker. */
  ghost predicate LogOk(c: Codec, log: seq<Segment>) {
    log == [] || (LogOk(c, log[..|log| - 1]) && SegmentOk(c, log[|log| - 1], LineCount(log[..|log| - 1])))
  }

  lemma SegmentSplits(c: Codec, s: Segment, before: nat)
    requires SegmentOk(c, s, before)
    ensures SplitLines(SegmentBytes(c, s, before)) == SegmentLines(c, s, before)
  {
    match s
    case Row(e) => SplitOneLine(c.encode(e));
    case Repaired(t) =>
      var marker := c.encodeMarker(before + 1, t);
      assert t + TornRepair(c, t, before + 1) == (t + [LF]) + (marker + [LF]);
      SplitAppend(t + [LF], marker + [LF]);
      SplitOneLine(t);
      SplitOneLine(marker);
  }

  lemma {:induction false} LogSplits(c: Codec, log: seq<Segment>)
    requires LogOk(c, log)
    ensures SplitLines(Bytes(c, log)) == LogLines(c, log)
  {
    if log != [] {
      var init := log[..|log| - 1];
      LogSplits(c, init);
      SegmentSplits(c, log[|log| - 1], LineCount(init));
      SplitAppend(Bytes(c, init), SegmentBytes(c, log[|log| - 1], LineCount(init)));
    }
  }

  lemma ObjectTextNotBlank(s: seq<byte>)
    requires ObjectText(s)
    ensures !Blank(s)
  {
    assert !Whitespace(s[0]);
  }

  lemma PrependTwice(a: seq<Event>, b: seq<Event>, s: Scan)
    ensures Prepend(a, Prepend(b, s)) == Prepend(a + b, s)
  {
    if s.Rows? { assert a + (b + s.rows) == a + b + s.rows; }
  }

  lemma ScanSegment(c: Codec, s: Segment, lines: seq<RawLine>, k: nat)
    requires SegmentOk(c, s, k) && k + |SegmentLines(c, s, k)| <= |lines|
    requires lines[k..k + |SegmentLines(c, s, k)|] == SegmentLines(c, s, k)
    ensures ScanFrom(c, lines, k) ==
              Prepend(if s.Row? then [s.event] else [], ScanFrom(c, lines, k + |SegmentLines(c, s, k)|))
  {
    hide Blank, ObjectText;
    var these := SegmentLines(c, s, k);
    assert lines[k] == these[0];
    ObjectTextNotBlank(these[0].content);
    match s
    case Row(e) =>
    case Repaired(t) =>
      assert lines[k + 1] == these[1];
      var rest := ScanFrom(c, lines, k + 2);
      if rest.Rows? { assert [] + rest.rows == rest.rows; }
  }

  /** Scanning passes over a well-formed log, collecting exactly its rows. */
  lemma {:induction false} ScanThrough(c: Codec, log: seq<Segment>, lines: seq<RawLine>)
    requires LogOk(c, log) && LineCount(log) <= |lines| && lines[..LineCount(log)] == LogLines(c, log)
    ensures ScanFrom(c, lines, 0) == Prepend(RowsOf(log), ScanFrom(c, lines, LineCount(log)))
  {
    var all := ScanFrom(c, lines, 0);
    if log == [] {
      if all.Rows? { assert [] + all.rows == all.rows; }
    } else {
      var init, s := log[..|log| - 1], log[|log| - 1];
      var k := LineCount(init);
      assert lines[..k] == lines[..LineCount(log)][..k] == LogLines(c, init);
      ScanThrough(c, init, lines);
      assert lines[k..k + |SegmentLines(c, s, k)|] == lines[..LineCount(log)][k..];
      ScanSegment(c, s, lines, k);
      PrependTwice(RowsOf(init), if s.Row? then [s.event] else [], ScanFrom(c, lines, LineCount(log)));
    }
  }

  /** Bytes of one more append that reached the disk. */
  ghost predicate PartOf(c: Codec, part: seq<byte>, e: Event) {
    Written(c, e) && |part| <= |c.encode(e)| && part == c.encode(e)[..|part|]
  }

  /** What the repair turns a file into. */
  function RepairedLog(c: Codec, log: seq<Segment>, part: seq<byte>, e: Event): seq<Segment> {
    if part == [] then log else if part == c.encode(e) then log + [Row(e)] else log + [Repaired(part)]
  }

  lemma PartScans(c: Codec, part: seq<byte>, e: Event, lines: seq<RawLine>, k: nat)
    requires PartOf(c, part, e) && part != [] && |lines| == k + 1 && lines[k] == RawLine(part, [])
    ensures ScanFrom(c, lines, k) == if part == c.encode(e) then Rows([e], [LF]) else Rows([], TornRepair(c, part, k + 1))
  {
    assert ObjectText(part);
    ObjectTextNotBlank(part);
    if part != c.encode(e) { assert |part| < |c.encode(e)|; }
  }

  /** Torn-tail repair: committed rows followed by any part of one more append are read back as exactly the committed
      rows (plus the last one when only its newline is missing), and the file is repaired by appending only. */
  lemma ReadAfterCrash(c: Codec, log: seq<Segment>, part: seq<byte>, e: Event)
    requires LogOk(c, log) && PartOf(c, part, e)
    requires part != [] && part != c.encode(e) ==> MarkerWritten(c, LineCount(log) + 1, part)
    ensures var after := RepairedLog(c, log, part, e);
            && LogOk(c, after)
            && ScanFile(c, Bytes(c, log) + part).Rows?
            && ScanFile(c, Bytes(c, log) + part).rows == RowsOf(after)
            && Bytes(c, log) + part + ScanFile(c, Bytes(c, log) + part).repair == Bytes(c, after)
    ensures RowsOf(RepairedLog(c, log, part, e)) == RowsOf(log) + (if part == c.encode(e) then [e] else [])
  {
    hide SplitLines, ScanFrom, LogLines, Bytes, LogOk, RowsOf;
    var k, after := LineCount(log), RepairedLog(c, log, part, e);
    RepairBytes(c, log, part, e);
    RepairRows(c, log, part, e);
    if part == [] {
      RereadIsStable(c, log);
      assert Bytes(c, log) + part == Bytes(c, log);
    } else {
      var lines := SplitLines(Bytes(c, log) + part);
      LogSplits(c, log);
      SplitAppend(Bytes(c, log), part);
      SplitOpenLine(part);
      assert lines[..k] == LogLines(c, log);
      PartScans(c, part, e, lines, k);
      ScanThrough(c, log, lines);
    }
  }

  lemma RepairRows(c: Codec, log: seq<Segment>, part: seq<byte>, e: Event)
    requires LogOk(c, log) && PartOf(c, part, e)
    requires part != [] && part != c.encode(e) ==> MarkerWritten(c, LineCount(log) + 1, part)
    ensures LogOk(c, RepairedLog(c, log, part, e))
    ensures RowsOf(RepairedLog(c, log, part, e)) == RowsOf(log) + (if part == c.encode(e) then [e] else [])
  {
    hide LineCount, LogOk, RowsOf, Written;
    if part == c.encode(e) && part != [] {
      LogSnoc(c, log, Row(e));
    } else if part != [] {
      assert ObjectText(part) && c.parse(part) == None by { PartIsTorn(c, part, e); }
      LogSnoc(c, log, Repaired(part));
    } else {
      assert part != c.encode(e) by { EncodingNotEmpty(c, e); }
    }
  }

  lemma EncodingNotEmpty(c: Codec, e: Event)
    requires Written(c, e)
    ensures c.encode(e) != []
  {
  }

  lemma PartIsTorn(c: Codec, part: seq<byte>, e: Event)
    requires PartOf(c, part, e) && part != [] && part != c.encode(e)
    ensures ObjectText(part) && c.parse(part) == None
  {
    assert |part| < |c.encode(e)|;
  }

  lemma LogSnoc(c: Codec, log: seq<Segment>, s: Segment)
    requires LogOk(c, log) && SegmentOk(c, s, LineCount(log))
    ensures LogOk(c, log + [s]) && RowsOf(log + [s]) == RowsOf(log) + (if s.Row? then [s.event] else [])
  {
    hide SegmentOk, LineCount;
    assert (log + [s])[..|log|] == log;
  }

  lemma RepairBytes(c: Codec, log: seq<Segment>, part: seq<byte>, e: Event)
    requires LogOk(c, log)
    ensures Bytes(c, RepairedLog(c, log, part, e)) ==
              Bytes(c, log) + part
              + (if part == [] then [] else if part == c.encode(e) then [LF] else TornRepair(c, part, LineCount(log) + 1))
  {
    var after := RepairedLog(c, log, part, e);
    if part != [] {
      assert after[..|log|] == log;
      assert after[|log|].Row? ==> SegmentBytes(c, after[|log|], LineCount(log)) == part + [LF];
    }
  }

  /** Reading a repaired file again returns the same rows and writes nothing. */
  lemma RereadIsStable(c: Codec, log: seq<Segment>)
    requires LogOk(c, log)
    ensures ScanFile(c, Bytes(c, log)) == Rows(RowsOf(log), [])
  {
    hide SplitLines, LogLines, Bytes, LogOk;
    LogSplits(c, log);
    var lines := SplitLines(Bytes(c, log));
    assert lines[..LineCount(log)] == LogLines(c, log);
    ScanThrough(c, log, lines);
  }

  /** A later append is read back as exactly one more row. */
  lemma AppendReadsBack(c: Codec, log: seq<Segment>, e: Event)
    requires LogOk(c, log) && Written(c, e)
    ensures Bytes(c, log) + (c.encode(e) + [LF]) == Bytes(c, log + [Row(e)]) && LogOk(c, log + [Row(e)])
    ensures ScanFile(c, Bytes(c, log) + (c.encode(e) + [LF])) == Rows(RowsOf(log) + [e], [])
  {
    assert (log + [Row(e)])[..|log|] == log;
    RereadIsStable(c, log + [Row(e)]);
  }

  // ---- Receipt states ----

  datatype State = State(
    packetId: string, predictionSha: PredictionSha, prediction: Option<Prediction>, status: EventKind,
    rowId: Option<int>, lastReason: Option<string>, lastIndex: nat)

  datatype StoreError =
    | CorruptFile(lineNo: int) | InvalidHash | PayloadConflict | InvalidPacket | UnknownPacket | IdConflict | InvalidRowId | InvalidLimit

  const HASH_LENGTH := 64

  /** One event folded into the state of its receipt. */
  function Advance(prior: Option<State>, e: Event, index: nat): Result<State, StoreError> {
    if |e.sourceHash| != HASH_LENGTH then Err(InvalidHash)
    else if prior.Some? && prior.value.predictionSha != e.predictionSha then Err(PayloadConflict)
    else if e.prediction.Some? && PredictionSha(e.prediction.value) != e.predictionSha then Err(PayloadConflict)
    else if e.prediction.Some? && prior.Some? && prior.value.prediction.Some? && prior.value.prediction != e.prediction
      then Err(PayloadConflict)
    else
      var base := if prior.Some? then prior.value else State(e.packetId, e.predictionSha, None, e.kind, None, None, 0);
      Ok(base.(
        prediction := if e.prediction.Some? then e.prediction else base.prediction, status := e.kind,
        rowId := if e.rowId.Some? then e.rowId else base.rowId,
        lastReason := if e.reason.Some? then e.reason else base.lastReason, lastIndex := index))
  }

  function Lookup(m: map<string, State>, hash: string): Option<State> { if hash in m then Some(m[hash]) else None }

  function States(events: seq<Event>): Result<map<string, State>, StoreError> {
    if events == [] then Ok(map[])
    else match States(events[..|events| - 1])
      case Err(x) => Err(x)
      case Ok(m) =>
        var e := events[|events| - 1];
        match Advance(Lookup(m, e.sourceHash), e, |events|)
        case Err(x) => Err(x)
        case Ok(s) => Ok(m[e.sourceHash := s])
  }

  lemma StatesSnoc(events: seq<Event>, e: Event)
    requires States(events).Ok?
    ensures States(events + [e]) ==
              (match Advance(Lookup(States(events).value, e.sourceHash), e, |events| + 1)
               case Err(x) => Err(x)
               case Ok(s) => Ok(States(events).value[e.sourceHash := s]))
  {
    assert (events + [e])[..|events|] == events;
  }

  lemma PrefixFolds(events: seq<Event>, e: Event)
    requires States(events + [e]).Ok?
    ensures States(events).Ok?
  {
    assert (events + [e])[..|events|] == events;
  }

  // ---- What the fold means ----

  /** Every event is for a proper hash and carries its own digest, and no receipt has two digests. */
  ghost predicate Consistent(events: seq<Event>) {
    && (forall e <- events :: |e.sourceHash| == 64 && (e.prediction.Some? ==> e.predictionSha == PredictionSha(e.prediction.value)))
    && forall a, b | a in events && b in events && a.sourceHash == b.sourceHash :: a.predictionSha == b.predictionSha
  }

  /** The value of a field in the latest event of a receipt that has one. */
  function Latest<T>(events: seq<Event>, hash: string, field: Event -> Option<T>): Option<T> {
    if events == [] then None
    else
      var e := events[|events| - 1];
      if e.sourceHash == hash && field(e).Some? then field(e) else Latest(events[..|events| - 1], hash, field)
  }

  const PredictionIn := (e: Event) => e.prediction
  const RowIdIn := (e: Event) => e.rowId
  const ReasonIn := (e: Event) => e.reason
  const KindIn := (e: Event) => Some(e.kind)

  /** The receipt says of each field what its latest event with one says, and counts events up to its latest. */
  ghost predicate SaysLatest(events: seq<Event>, hash: string, s: State) {
    && s.prediction == Latest(events, hash, PredictionIn) && s.rowId == Latest(events, hash, RowIdIn)
    && s.lastReason == Latest(events, hash, ReasonIn) && Some(s.status) == Latest(events, hash, KindIn)
    && (exists e <- events :: e.sourceHash == hash) && (forall e <- events :: e.sourceHash == hash ==> e.predictionSha == s.predictionSha)
    && 1 <= s.lastIndex <= |events| && events[s.lastIndex - 1].sourceHash == hash
    && forall i :: s.lastIndex <= i < |events| ==> events[i].sourceHash != hash
  }

  ghost predicate Meaning(events: seq<Event>, m: map<string, State>) {
    && (forall h :: h in m <==> exists e <- events :: e.sourceHash == h)
    && forall h <- m :: SaysLatest(events, h, m[h])
  }

  lemma {:induction false} LatestFrom<T>(events: seq<Event>, hash: string, field: Event -> Option<T>)
    requires Latest(events, hash, field).Some?
    ensures exists e <- events :: e.sourceHash == hash && field(e) == Latest(events, hash, field)
  {
    var e := events[|events| - 1];
    if !(e.sourceHash == hash && field(e).Some?) { LatestFrom(events[..|events| - 1], hash, field); }
  }

  lemma LatestSnoc<T>(events: seq<Event>, e: Event, hash: string, field: Event -> Option<T>)
    ensures Latest(events + [e], hash, field) ==
              if e.sourceHash == hash && field(e).Some? then field(e) else Latest(events, hash, field)
  {
    assert (events + [e])[..|events|] == events;
  }

  lemma ConsistentSnoc(events: seq<Event>, e: Event)
    requires Consistent(events)
    ensures Consistent(events + [e]) <==>
              && |e.sourceHash| == 64 && (e.prediction.Some? ==> e.predictionSha == PredictionSha(e.prediction.value))
              && forall a <- events :: a.sourceHash == e.sourceHash ==> a.predictionSha == e.predictionSha
  {
    assert e in events + [e];
    assert forall a <- events :: a in events + [e];
    assert forall a <- events + [e] :: a in events || a == e;
  }

  /** The fold accepts one more event exactly while all are consistent, and the states go on to say the latest. */
  lemma AdvanceAccepts(events: seq<Event>, m: map<string, State>, e: Event)
    requires Meaning(events, m) && Consistent(events)
    ensures Advance(Lookup(m, e.sourceHash), e, |events| + 1).Ok? <==> Consistent(events + [e])
  {
    ConsistentSnoc(events, e);
    if e.sourceHash in m {
      var s := m[e.sourceHash];
      assert SaysLatest(events, e.sourceHash, s);
      if s.prediction.Some? { LatestFrom(events, e.sourceHash, PredictionIn); }
    }
  }

  lemma AdvanceSays(events: seq<Event>, prior: Option<State>, e: Event)
    requires Advance(prior, e, |events| + 1).Ok?
    requires if prior.Some? then SaysLatest(events, e.sourceHash, prior.value) else forall a <- events :: a.sourceHash != e.sourceHash
    ensures SaysLatest(events + [e], e.sourceHash, Advance(prior, e, |events| + 1).value)
  {
    hide Latest;
    LatestSnoc(events, e, e.sourceHash, PredictionIn);
    LatestSnoc(events, e, e.sourceHash, RowIdIn);
    LatestSnoc(events, e, e.sourceHash, ReasonIn);
    LatestSnoc(events, e, e.sourceHash, KindIn);
    assert e in events + [e];
    if prior.None? {
      NoneSaid(events, e.sourceHash, PredictionIn);
      NoneSaid(events, e.sourceHash, RowIdIn);
      NoneSaid(events, e.sourceHash, ReasonIn);
    }
  }

  lemma {:induction false} NoneSaid<T>(events: seq<Event>, hash: string, field: Event -> Option<T>)
    requires forall a <- events :: a.sourceHash != hash
    ensures Latest(events, hash, field).None?
  {
    if events != [] { NoneSaid(events[..|events| - 1], hash, field); }
  }

  lemma OthersSay(events: seq<Event>, e: Event, hash: string, s: State)
    requires SaysLatest(events, hash, s) && e.sourceHash != hash
    ensures SaysLatest(events + [e], hash, s)
  {
    hide Latest;
    LatestSnoc(events, e, hash, PredictionIn);
    LatestSnoc(events, e, hash, RowIdIn);
    LatestSnoc(events, e, hash, ReasonIn);
    LatestSnoc(events, e, hash, KindIn);
    assert forall a <- events :: a in events + [e];
  }

  lemma AdvanceMeans(events: seq<Event>, m: map<string, State>, e: Event)
    requires Meaning(events, m) && Advance(Lookup(m, e.sourceHash), e, |events| + 1).Ok?
    ensures Meaning(events + [e], m[e.sourceHash := Advance(Lookup(m, e.sourceHash), e, |events| + 1).value])
  {
    hide SaysLatest, Advance;
    AdvanceSays(events, Lookup(m, e.sourceHash), e);
    var n := m[e.sourceHash := Advance(Lookup(m, e.sourceHash), e, |events| + 1).value];
    forall h | h in n ensures SaysLatest(events + [e], h, n[h]) {
      if h != e.sourceHash { OthersSay(events, e, h, m[h]); }
    }
    forall h ensures h in n <==> exists a <- events + [e] :: a.sourceHash == h {
      assert forall a <- events :: a in events + [e];
      assert e in events + [e];
    }
  }

  /** The fold of a file succeeds if and only if its events are consistent, and then there is a receipt for each hash in it,
      which says of every field what the latest event with one says. */
  lemma {:induction false} StatesMean(events: seq<Event>)
    ensures States(events).Ok? <==> Consistent(events)
    ensures States(events).Ok? ==> Meaning(events, States(events).value)
  {
    hide Consistent, Meaning, Advance;
    if events == [] {
      NothingMeant();
    } else {
      var init, e := events[..|events| - 1], events[|events| - 1];
      assert init + [e] == events;
      StatesMean(init);
      if States(init).Ok? {
        AdvanceAccepts(init, States(init).value, e);
        if States(events).Ok? { AdvanceMeans(init, States(init).value, e); }
      } else {
        if Consistent(events) { InitConsistent(init, e); }
      }
    }
  }

  lemma NothingMeant()
    ensures Consistent([]) && Meaning([], map[])
  {
  }

  lemma InitConsistent(events: seq<Event>, e: Event)
    requires Consistent(events + [e])
    ensures Consistent(events)
  {
    assert forall a <- events :: a in events + [e];
  }

  datatype Reply = Nothing | Append(event: Event) | Raise(error: StoreError)

  /** A call of one of the three writers. */
  datatype Call =
    | Enqueue(hash: string, packetId: string, prediction: Prediction)
    | MarkFailed(hash: string, reason: string)
    | MarkPersisted(hash: string, rowId: int)

  /** Arguments refused before the file is touched. */
  function Precheck(call: Call): Option<StoreError> {
    match call
    case Enqueue(hash, packetId, _) => if |hash| != HASH_LENGTH || packetId == "" then Some(InvalidPacket) else None
    case MarkFailed(_, _) => None
    case MarkPersisted(_, rowId) => if rowId <= 0 then Some(InvalidRowId) else None
  }

  /** A failure keeps the first 240 characters of its reason. */
  function Short(reason: string): string { reason[..Min(240, |reason|)] }

  function Decide(m: map<string, State>, call: Call): Reply {
    match call
    case Enqueue(hash, packetId, p) =>
      if hash in m then
        if m[hash].predictionSha != PredictionSha(p) then Raise(PayloadConflict)
        else if m[hash].prediction.Some? && m[hash].prediction != Some(p) then Raise(PayloadConflict)
        else Nothing
      else Append(Event(ENQUEUED, hash, packetId, PredictionSha(p), Some(p), None, None))
    case MarkFailed(hash, reason) =>
      if hash !in m || m[hash].prediction.None? then Raise(UnknownPacket)
      else if m[hash].status == PERSISTED then Nothing
      else Append(Event(FAILED, hash, m[hash].packetId, m[hash].predictionSha, None, None, Some(Short(reason))))
    case MarkPersisted(hash, rowId) =>
      if hash !in m || m[hash].prediction.None? then Raise(UnknownPacket)
      else if m[hash].status == PERSISTED then
        if m[hash].rowId != Some(rowId) then Raise(IdConflict) else Nothing
      else Append(Event(PERSISTED, hash, m[hash].packetId, m[hash].predictionSha, None, Some(rowId), None))
  }

  /** The shape every receipt keeps: it has its prediction, and it has a row id exactly once it is persisted. */
  predicate ReceiptOk(s: State, n: nat) {
    && s.prediction.Some? && s.predictionSha == PredictionSha(s.prediction.value)
    && (s.status == PERSISTED <==> s.rowId.Some?) && 1 <= s.lastIndex <= n
  }

  ghost predicate AllReceiptsOk(m: map<string, State>, n: nat) {
    forall h <- m :: |h| == HASH_LENGTH && ReceiptOk(m[h], n)
  }

  ghost predicate ReceiptsOk(events: seq<Event>) {
    States(events).Ok? && AllReceiptsOk(States(events).value, |events|)
  }

  /** What an accepted call does to the receipts: its own moves on as the call says, and no other changes. */
  ghost predicate WriteEffect(m: map<string, State>, n: map<string, State>, call: Call, index: nat) {
    && call.hash in n && n == m[call.hash := n[call.hash]]
    && match call
       case Enqueue(hash, packetId, p) =>
         hash !in m && n[hash] == State(packetId, PredictionSha(p), Some(p), ENQUEUED, None, None, index)
       case MarkFailed(hash, reason) =>
         && hash in m && m[hash].status != PERSISTED
         && n[hash] == m[hash].(status := FAILED, lastReason := Some(if |reason| <= 240 then reason else reason[..240]), lastIndex := index)
       case MarkPersisted(hash, rowId) =>
         && hash in m && m[hash].status != PERSISTED && rowId > 0
         && n[hash] == m[hash].(status := PERSISTED, rowId := Some(rowId), lastIndex := index)
  }

  /** What each call is answered: which arguments are refused, when it appends, when it is a repeat, and which conflict it
      meets otherwise. */
  lemma CallIsAnswered(m: map<string, State>, n: nat, call: Call)
    requires AllReceiptsOk(m, n)
    ensures Precheck(call).Some? <==> match call
              case Enqueue(hash, packetId, _) => |hash| != 64 || |packetId| == 0
              case MarkFailed(_, _) => false
              case MarkPersisted(_, rowId) => !(rowId > 0)
    ensures Decide(m, call).Append? <==> if call.Enqueue? then call.hash !in m else call.hash in m && m[call.hash].status != PERSISTED
    ensures Decide(m, call).Nothing? <==> call.hash in m && match call
              case Enqueue(hash, _, p) => m[hash].prediction == Some(p)
              case MarkFailed(hash, _) => m[hash].status == PERSISTED
              case MarkPersisted(hash, rowId) => m[hash].rowId == Some(rowId)
    ensures Decide(m, call).Raise? ==>
              Decide(m, call).error == if call.hash !in m then UnknownPacket else if call.Enqueue? then PayloadConflict else IdConflict
  {
    if call.hash in m { ReceiptOf(m, n, call.hash); }
  }

  /** The state an accepted write leads to. */
  lemma WriteAdvances(m: map<string, State>, call: Call, index: nat) returns (s: State)
    requires Precheck(call).None? && Decide(m, call).Append?
    requires call.hash in m ==> |call.hash| == HASH_LENGTH && ReceiptOk(m[call.hash], index)
    ensures var e := Decide(m, call).event;
            && e.sourceHash == call.hash && |call.hash| == HASH_LENGTH
            && Advance(Lookup(m, e.sourceHash), e, index + 1) == Ok(s) && ReceiptOk(s, index + 1)
            && WriteEffect(m, m[call.hash := s], call, index + 1)
  {
    var e := Decide(m, call).event;
    s := Advance(Lookup(m, call.hash), e, index + 1).value;
    if call.MarkFailed? && |call.reason| <= 240 { assert Short(call.reason) == call.reason; }
  }

  lemma ReceiptLater(s: State, n: nat)
    requires ReceiptOk(s, n)
    ensures ReceiptOk(s, n + 1)
  {
  }

  /** Every append of the three writers folds without error. */
  lemma WriterKeepsReceipts(events: seq<Event>, call: Call)
    requires ReceiptsOk(events) && Precheck(call).None? && Decide(States(events).value, call).Append?
    ensures var e := Decide(States(events).value, call).event;
            && e.sourceHash == call.hash && ReceiptsOk(events + [e])
            && WriteEffect(States(events).value, States(events + [e]).value, call, |events| + 1)
  {
    hide Decide, States;
    var m := States(events).value;
    if call.hash in m { ReceiptOf(m, |events|, call.hash); }
    var s := WriteAdvances(m, call, |events|);
    var e := Decide(m, call).event;
    StatesGrow(events, e, s);
    AddReceipt(m, |events|, call.hash, s);
    assert |events + [e]| == |events| + 1;
  }

  lemma StatesGrow(events: seq<Event>, e: Event, s: State)
    requires States(events).Ok? && Advance(Lookup(States(events).value, e.sourceHash), e, |events| + 1) == Ok(s)
    ensures States(events + [e]) == Ok(States(events).value[e.sourceHash := s])
  {
    hide Advance, Lookup, States;
    StatesSnoc(events, e);
  }

  lemma ReceiptOf(m: map<string, State>, n: nat, hash: string)
    requires AllReceiptsOk(m, n) && hash in m
    ensures |hash| == HASH_LENGTH && ReceiptOk(m[hash], n)
  {
  }

  lemma AddReceipt(m: map<string, State>, n: nat, hash: string, s: State)
    requires AllReceiptsOk(m, n) && |hash| == HASH_LENGTH && ReceiptOk(s, n + 1)
    ensures AllReceiptsOk(m[hash := s], n + 1)
  {
    hide ReceiptOk;
    forall h | h in m ensures ReceiptOk(m[h], n + 1) { ReceiptLater(m[h], n); }
  }

  // ---- The store object ----

  class PredictionPersistenceStore {
    const codec: Codec
    var file: seq<byte>

    constructor (codec: Codec, file: seq<byte>)
      ensures this.codec == codec && this.file == file
    {
      this.codec, this.file := codec, file;
    }

    /** `_read`: one pass over the lines, skipping repaired tails two lines at a time. */
    method Read() returns (r: Result<seq<Event>, StoreError>)
      modifies this
      ensures var s := ScanFile(codec, old(file));
              if s.Corrupt? then r == Err(CorruptFile(s.lineNo)) && file == old(file)
              else r == Ok(s.rows) && file == old(file) + s.repair
    {
      var rows, lines, k := [], SplitLines(file), 0;
      ghost var whole := ScanFile(codec, file);
      assert file + [] == file;
      if ScanFrom(codec, lines, 0).Rows? { assert [] + ScanFrom(codec, lines, 0).rows == ScanFrom(codec, lines, 0).rows; }
      while k < |lines|
        invariant 0 <= k <= |lines| && file == old(file)
        invariant whole == Prepend(rows, ScanFrom(codec, lines, k))
        decreases |lines| - k
      {
        var content := lines[k].content;
        var open := k == |lines| - 1 && lines[k].ending == [];
        if Blank(content) {
          k := k + 1;
          continue;
        }
        var row := codec.parse(content);
        if row.None? {
          if open {
            file := file + TornRepair(codec, content, k + 1);
            assert rows + [] == rows;
            return Ok(rows);
          }
          if !MarkerFollows(codec, lines, k) { return Err(CorruptFile(k + 1)); }
          k := k + 2;
          continue;
        }
        if !row.value.Receipt? { return Err(CorruptFile(k + 1)); }
        PrependTwice(rows, [row.value.event], ScanFrom(codec, lines, k + 1));
        if open {
          file := file + [LF];
          return Ok(rows + [row.value.event]);
        }
        rows := rows + [row.value.event];
        k := k + 1;
      }
      assert rows + [] == rows;
      return Ok(rows);
    }

    /** Read, repair and fold. */
    method CurrentStates() returns (r: Result<map<string, State>, StoreError>)
      modifies this
      ensures var s := ScanFile(codec, old(file));
              if s.Corrupt? then r == Err(CorruptFile(s.lineNo)) && file == old(file)
              else r == States(s.rows) && file == old(file) + s.repair
    {
      var rows := Read();
      if rows.Err? { return Err(rows.error); }
      var events := rows.value;
      var m, i := map[], 0;
      assert events[..0] == [];
      while i < |events|
        invariant 0 <= i <= |events| && States(events[..i]) == Ok(m)
      {
        var e := events[i];
        assert events[..i + 1][..i] == events[..i];
        var next := Advance(Lookup(m, e.sourceHash), e, i + 1);
        if next.Err? {
          StatesFail(events, i + 1);
          return Err(next.error);
        }
        m := m[e.sourceHash := next.value];
        i := i + 1;
      }
      assert events[..|events|] == events;
      return Ok(m);
    }

    method AppendEvent(e: Event)
      modifies this
      ensures file == old(file) + (codec.encode(e) + [LF])
    {
      file := file + (codec.encode(e) + [LF]);
    }

    /** `enqueue`, `mark_failed` and `mark_persisted`: check, read with repair, fold, and append at most one event. */
    method Write(call: Call) returns (failure: Option<StoreError>)
      modifies this
      ensures (file, failure) == Carry(codec, old(file), call)
    {
      if Precheck(call).Some? { return Precheck(call); }
      var states := CurrentStates();
      if states.Err? { return Some(states.error); }
      var reply := Decide(states.value, call);
      match reply {
        case Nothing => return None;
        case Raise(x) => return Some(x);
        case Append(e) =>
          AppendEvent(e);
          return None;
      }
    }

    /** `pending`: the unresolved receipts, least recently touched first, at most `limit` of them. */
    method Pending(limit: int) returns (r: Result<seq<string>, StoreError>)
      modifies this
      ensures !(1 <= limit <= 100) ==> r == Err(InvalidLimit) && file == old(file)
      ensures 1 <= limit <= 100 && ScanFile(codec, old(file)).Rows? && States(ScanFile(codec, old(file)).rows).Ok? ==>
                r == Ok(PendingPage(ScanFile(codec, old(file)).rows, limit)) && file == old(file) + ScanFile(codec, old(file)).repair
    {
      if !(1 <= limit <= 100) { return Err(InvalidLimit); }
      ghost var events := if ScanFile(codec, file).Rows? then ScanFile(codec, file).rows else [];
      var rows := Read();
      if rows.Err? { return Err(rows.error); }
      var states := States(rows.value);
      if states.Err? { return Err(states.error); }
      var keys := Sort(PendingKeys(states.value, FirstSeen(rows.value)), PendingKeyLe);
      return Ok(HashesOf(keys[..Min(limit, |keys|)]));
    }
  }

  lemma {:induction false} StatesFail(events: seq<Event>, n: nat)
    requires n <= |events| && States(events[..n]).Err?
    ensures States(events) == Err(States(events[..n]).error)
  {
    if n == |events| {
      assert events[..n] == events;
    } else {
      assert events[..|events| - 1][..n] == events[..n];
      StatesFail(events[..|events| - 1], n);
    }
  }

  /** Read with repair, fold, decide, and append the decision: the file afterwards and the error raised. */
  function Carry(c: Codec, file: seq<byte>, call: Call): (seq<byte>, Option<StoreError>) {
    var s := ScanFile(c, file);
    if Precheck(call).Some? then (file, Precheck(call))
    else if s.Corrupt? then (file, Some(CorruptFile(s.lineNo)))
    else
      var repaired := file + s.repair;
      match States(s.rows)
      case Err(x) => (repaired, Some(x))
      case Ok(m) =>
        match Decide(m, call)
        case Nothing => (repaired, None)
        case Raise(x) => (repaired, Some(x))
        case Append(e) => (repaired + (c.encode(e) + [LF]), None)
  }

  /** On any file the store can have produced, whatever part of an append was cut short, a writer commits exactly its
      decision: the rows grow by the decided event and nothing else. */
  lemma WriteCommits(c: Codec, log: seq<Segment>, part: seq<byte>, torn: Event, call: Call) returns (after: seq<Segment>)
    requires LogOk(c, log) && PartOf(c, part, torn) && Precheck(call).None?
    requires part != [] && part != c.encode(torn) ==> MarkerWritten(c, LineCount(log) + 1, part)
    requires States(RowsOf(RepairedLog(c, log, part, torn))).Ok?
    requires var d := Decide(States(RowsOf(RepairedLog(c, log, part, torn))).value, call); d.Append? ==> Written(c, d.event)
    ensures LogOk(c, after) && Carry(c, Bytes(c, log) + part, call).0 == Bytes(c, after)
    ensures var rows := RowsOf(RepairedLog(c, log, part, torn));
            var d := Decide(States(rows).value, call);
            && RowsOf(after) == rows + (if d.Append? then [d.event] else [])
            && Carry(c, Bytes(c, log) + part, call).1 == (if d.Raise? then Some(d.error) else None)
  {
    hide Decide, States, ScanFile, LogOk, RepairedLog, Bytes, Written, PartOf, MarkerWritten, LineCount;
    ReadAfterCrash(c, log, part, torn);
    var middle := RepairedLog(c, log, part, torn);
    after := middle;
    var rows := RowsOf(middle);
    var d := Decide(States(rows).value, call);
    if d.Append? {
      AppendReadsBack(c, middle, d.event);
      after := middle + [Row(d.event)];
      assert after[..|middle|] == middle;
    } else {
      assert rows + [] == rows;
    }
  }

  // ---- Whole histories ----

  ghost predicate GoodCodec(c: Codec) {
    (forall e :: Written(c, e)) && (forall n, t :: MarkerWritten(c, n, t))
  }

  /** A read, or a write of whose append only the first `landed` bytes reach the disk before a crash. */
  datatype StoreStep = ReadStep | WriteStep(call: Call, landed: nat)

  function Appended(c: Codec, file: seq<byte>, call: Call): Option<Event> {
    var s := ScanFile(c, file);
    if Precheck(call).Some? || s.Corrupt? || States(s.rows).Err? then None
    else match Decide(States(s.rows).value, call)
      case Append(e) => Some(e)
      case _ => None
  }

  function StoreNext(c: Codec, file: seq<byte>, step: StoreStep): seq<byte> {
    var s := ScanFile(c, file);
    match step
    case ReadStep => if s.Corrupt? then file else file + s.repair
    case WriteStep(call, landed) =>
      match Appended(c, file, call)
      case None => Carry(c, file, call).0
      case Some(e) =>
        var line := c.encode(e) + [LF];
        file + (if s.Rows? then s.repair else []) + line[..Min(landed, |line|)]
  }

  function StoreFile(c: Codec, steps: seq<StoreStep>): seq<byte> {
    if steps == [] then [] else StoreNext(c, StoreFile(c, steps[..|steps| - 1]), steps[|steps| - 1])
  }

  /** The same history on a log that commits whole events: an event counts once its text is complete. */
  function Commit(c: Codec, events: seq<Event>, step: StoreStep): seq<Event> {
    if step.WriteStep? && Precheck(step.call).None? && States(events).Ok? && Decide(States(events).value, step.call).Append? then
      var e := Decide(States(events).value, step.call).event;
      if step.landed >= |c.encode(e)| then events + [e] else events
    else events
  }

  function Committed(c: Codec, steps: seq<StoreStep>): seq<Event> {
    if steps == [] then [] else Commit(c, Committed(c, steps[..|steps| - 1]), steps[|steps| - 1])
  }

  ghost predicate Represents(c: Codec, file: seq<byte>, log: seq<Segment>, part: seq<byte>, torn: Event, events: seq<Event>) {
    && LogOk(c, log) && PartOf(c, part, torn) && file == Bytes(c, log) + part
    && RowsOf(RepairedLog(c, log, part, torn)) == events && ReceiptsOk(events)
  }

  lemma StoreStepRefines(c: Codec, file: seq<byte>, log: seq<Segment>, part: seq<byte>, torn: Event, events: seq<Event>, step: StoreStep)
    returns (log': seq<Segment>, part': seq<byte>, torn': Event)
    requires GoodCodec(c) && Represents(c, file, log, part, torn, events)
    ensures Represents(c, StoreNext(c, file, step), log', part', torn', Commit(c, events, step))
  {
    hide ScanFile, LogOk, Decide, States, Bytes, LineCount, StoreNext, Commit, Appended, Precheck, PartOf, Written, MarkerWritten;
    assert PartOf(c, part, torn) && LogOk(c, log);
    GoodMarker(c, LineCount(log) + 1, part);
    ReadAfterCrash(c, log, part, torn);
    var middle := RepairedLog(c, log, part, torn);
    torn' := torn;
    if step.WriteStep? && Precheck(step.call).Some? {
      RefusedStep(c, file, events, step);
      log', part' := log, part;
    } else if step.WriteStep? && Appended(c, file, step.call).Some? {
      var e := Appended(c, file, step.call).value;
      AppendStep(c, file, events, step, e);
      log', part', torn' := AppendRefines(c, middle, events, step.call, e, step.landed);
    } else {
      QuietStep(c, file, events, step);
      log', part' := middle, [];
      NoPart(c, middle, torn);
    }
  }

  lemma GoodMarker(c: Codec, n: int, tail: seq<byte>)
    requires GoodCodec(c)
    ensures MarkerWritten(c, n, tail)
  {
  }

  lemma NoPart(c: Codec, log: seq<Segment>, torn: Event)
    requires GoodCodec(c)
    ensures PartOf(c, [], torn) && RepairedLog(c, log, [], torn) == log && Bytes(c, log) + [] == Bytes(c, log)
  {
    hide Bytes;
    assert Written(c, torn);
  }

  /** A call refused by its arguments leaves the file alone. */
  lemma RefusedStep(c: Codec, file: seq<byte>, events: seq<Event>, step: StoreStep)
    requires step.WriteStep? && Precheck(step.call).Some?
    ensures StoreNext(c, file, step) == file && Commit(c, events, step) == events
  {
  }

  /** A read, or a call that writes nothing, repairs and no more. */
  lemma QuietStep(c: Codec, file: seq<byte>, events: seq<Event>, step: StoreStep)
    requires ScanFile(c, file).Rows? && ScanFile(c, file).rows == events
    requires step.WriteStep? ==> Precheck(step.call).None? && Appended(c, file, step.call).None?
    ensures StoreNext(c, file, step) == file + ScanFile(c, file).repair && Commit(c, events, step) == events
  {
    hide ScanFile, Decide, States, Precheck;
  }

  lemma AppendStep(c: Codec, file: seq<byte>, events: seq<Event>, step: StoreStep, e: Event)
    requires ScanFile(c, file).Rows? && ScanFile(c, file).rows == events
    requires step.WriteStep? && Appended(c, file, step.call) == Some(e)
    ensures Precheck(step.call).None? && States(events).Ok? && Decide(States(events).value, step.call) == Append(e)
    ensures var line := c.encode(e) + [LF];
            StoreNext(c, file, step) == file + ScanFile(c, file).repair + line[..Min(step.landed, |line|)]
    ensures Commit(c, events, step) == if step.landed >= |c.encode(e)| then events + [e] else events
  {
    hide ScanFile, Decide, States, Precheck;
  }

  lemma AppendRefines(c: Codec, middle: seq<Segment>, events: seq<Event>, call: Call, e: Event, landed: nat)
    returns (log': seq<Segment>, part': seq<byte>, torn': Event)
    requires GoodCodec(c) && LogOk(c, middle) && RowsOf(middle) == events && ReceiptsOk(events) && Precheck(call).None?
    requires Decide(States(events).value, call) == Append(e)
    ensures var line := c.encode(e) + [LF];
            Represents(c, Bytes(c, middle) + line[..Min(landed, |line|)], log', part', torn',
                       if landed >= |c.encode(e)| then events + [e] else events)
  {
    hide States, Decide, LogOk, Bytes, LineCount;
    var text := c.encode(e);
    var line := text + [LF];
    assert Written(c, e);
    torn' := e;
    WriterKeepsReceipts(events, call);
    if landed >= |line| {
      AppendReadsBack(c, middle, e);
      assert line[..|line|] == line && (middle + [Row(e)])[..|middle|] == middle;
      log', part' := middle + [Row(e)], [];
      assert Bytes(c, log') + [] == Bytes(c, log');
    } else {
      log', part' := middle, line[..landed];
      assert part' == text[..landed];
      if landed == |text| { assert text[..landed] == text && (middle + [Row(e)])[..|middle|] == middle; }
      else if landed > 0 { assert (middle + [Repaired(part')])[..|middle|] == middle; assert events + [] == events; }
    }
  }

  /** Over every history of reads, writes and crashes at any byte, the file is never unreadable and reads back as exactly
      the events whose text was completely written, in order; and every receipt keeps its shape. */
  lemma {:induction false} EveryHistoryReadsBack(c: Codec, steps: seq<StoreStep>)
    returns (log: seq<Segment>, part: seq<byte>, torn: Event)
    requires GoodCodec(c)
    ensures Represents(c, StoreFile(c, steps), log, part, torn, Committed(c, steps))
    ensures ScanFile(c, StoreFile(c, steps)).Rows? && ScanFile(c, StoreFile(c, steps)).rows == Committed(c, steps)
    ensures ReceiptsOk(Committed(c, steps))
  {
    if steps == [] {
      log, part, torn := [], [], Event(ENQUEUED, "", "", PredictionSha(Prediction(0, "", "", "")), None, None, None);
      assert Written(c, torn);
    } else {
      var init := steps[..|steps| - 1];
      log, part, torn := EveryHistoryReadsBack(c, init);
      log, part, torn := StoreStepRefines(c, StoreFile(c, init), log, part, torn, Committed(c, init), steps[|steps| - 1]);
    }
    ReadAfterCrash(c, log, part, torn);
  }

  // ---- The pending queue ----

  predicate Unresolved(s: State) { s.status != PERSISTED && s.prediction.Some? }

  /** Receipts in the order of their first event, which is the order of the state dictionary. */
  function FirstSeen(events: seq<Event>): seq<string> {
    if events == [] then []
    else
      var before, h := FirstSeen(events[..|events| - 1]), events[|events| - 1].sourceHash;
      if h in before then before else before + [h]
  }

  datatype PendingKey = PendingKey(lastIndex: int, timestamp: int, hash: string)

  predicate PendingKeyLe(a: PendingKey, b: PendingKey) {
    || a.lastIndex < b.lastIndex
    || (a.lastIndex == b.lastIndex && (a.timestamp < b.timestamp || (a.timestamp == b.timestamp && StringLe(a.hash, b.hash))))
  }

  function PendingKeys(m: map<string, State>, order: seq<string>): seq<PendingKey> {
    if order == [] then []
    else
      var h := order[0];
      (if h in m && Unresolved(m[h]) then [PendingKey(m[h].lastIndex, m[h].prediction.value.timestamp, h)] else [])
      + PendingKeys(m, order[1..])
  }

  function HashesOf(keys: seq<PendingKey>): (r: seq<string>)
    ensures |r| == |keys| && forall i :: 0 <= i < |r| ==> r[i] == keys[i].hash
  {
    seq(|keys|, i requires 0 <= i < |keys| => keys[i].hash)
  }

  function PendingPage(events: seq<Event>, limit: int): seq<string>
    requires limit >= 1 && States(events).Ok?
  {
    var keys := Sort(PendingKeys(States(events).value, FirstSeen(events)), PendingKeyLe);
    HashesOf(keys[..Min(limit, |keys|)])
  }

  function UnresolvedSet(m: map<string, State>): set<string> {
    set h | h in m && Unresolved(m[h])
  }
}
