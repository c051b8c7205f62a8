/** Idempotent persistence of generated predictions: the runner, its retry pass, the receipt store and the authority table
    (senecio_polymarket/backend/oracle_runner.py and supabase_client.py). */
module OracleRunner {
  import opened Prelude
  import opened Text
  import opened PredictionPersistence
  import opened Sorting
  import opened RetryQueue

  datatype AuthorityRow = AuthorityRow(id: int, timestamp: int, symbol: string, core: string)

  function NormalizeSymbol(symbol: string): string { Strip(Without(Without(Upper(symbol), '/'), '-')) }

  /** A normal form has no separator, no lower-case letter and no outer blank, and is its own. */
  lemma NormalForm(symbol: string)
    ensures var n := NormalizeSymbol(symbol);
            && '/' !in n && '-' !in n && (forall c <- n :: !('a' <= c <= 'z')) && NormalizeSymbol(n) == n
            && (n != "" ==> n[0] !in BLANKS && n[|n| - 1] !in BLANKS)
  {
    hide Upper, Space;
    var u := Upper(symbol);
    var a := Without(u, '/');
    var b := Without(a, '-');
    WithoutHasNone(u, '/');
    WithoutHasNone(a, '-');
    StripTrims(b);
    UpperHasNoLower(symbol);
    var n := Strip(b);
    assert forall c <- n :: c in u;
    NoLowerIsUpper(n);
    WithoutHasNone(n, '/');
    WithoutHasNone(n, '-');
    StripTrims(n);
    if n != "" {
      SpaceIsBlank(n[0]);
      SpaceIsBlank(n[|n| - 1]);
    }
  }

  /** A text of capitals and digits is the normal form of each of its spellings: in any case, with slashes and dashes
      anywhere. It is its own, and blanks around it do not matter. */
  lemma SpellingsHaveOneForm(s: string, plain: string)
    requires Plain(plain) && Spells(s, plain)
    ensures NormalizeSymbol(s) == plain
  {
    SpellingCleans(s, plain);
    assert plain != "" ==> plain[0] in plain && plain[|plain| - 1] in plain;
    StripTrims(plain);
  }

  lemma BlanksAreDropped(left: string, plain: string, right: string)
    requires Plain(plain) && AllSpace(left) && AllSpace(right)
    ensures NormalizeSymbol(left + plain + right) == plain
  {
    var all := left + plain + right;
    assert plain != "" ==> plain[0] in plain && plain[|plain| - 1] in plain;
    assert Upper(all) == all by {
      forall i | 0 <= i < |all| ensures UpperChar(all[i]) == all[i] {
        assert all[i] in left || all[i] in plain || all[i] in right;
      }
    }
    assert '/' !in all && '-' !in all;
    WithoutHasNone(all, '/');
    WithoutHasNone(all, '-');
    StripBlanks(left, plain, right);
  }

  predicate Normal(p: Prediction) { NormalizeSymbol(p.symbol) == p.symbol }

  predicate SameKey(row: AuthorityRow, p: Prediction) { row.timestamp == p.timestamp && row.symbol == p.symbol }

  /** The row stores this T0. */
  predicate Holds(row: AuthorityRow, p: Prediction) { SameKey(row, p) && row.core == p.core }

  // ---- The table ----

  function NextId(table: seq<AuthorityRow>): int { if table == [] then 1 else table[|table| - 1].id + 1 }

  function Inserted(table: seq<AuthorityRow>, p: Prediction): seq<AuthorityRow> {
    table + [AuthorityRow(NextId(table), p.timestamp, p.symbol, p.core)]
  }

  /** `ts=eq.<timestamp>&symbol=eq.<normalised symbol>&order=id.asc`. */
  function Select(table: seq<AuthorityRow>, p: Prediction): seq<AuthorityRow> {
    if table == [] then []
    else
      (if table[0].timestamp == p.timestamp && table[0].symbol == NormalizeSymbol(p.symbol) then [table[0]] else [])
      + Select(table[1..], p)
  }

  const LOOKUP_LIMIT := 4

  datatype Found = Absent | Match(row: AuthorityRow) | Conflict

  predicate Matches(row: AuthorityRow, p: Prediction) {
    NormalizeSymbol(row.symbol) == NormalizeSymbol(p.symbol) && row.timestamp == p.timestamp && row.core == p.core
  }

  function LookupExact(table: seq<AuthorityRow>, p: Prediction): Found {
    var all := Select(table, p);
    var rows := all[..Min(LOOKUP_LIMIT, |all|)];
    if exists i :: 0 <= i < |rows| && NormalizeSymbol(rows[i].symbol) == NormalizeSymbol(p.symbol) && rows[i].core != p.core then Conflict
    else
      var matching := Matching(rows, p);
      if |matching| > 1 then Conflict else if matching == [] then Absent else Match(matching[0])
  }

  function Matching(rows: seq<AuthorityRow>, p: Prediction): seq<AuthorityRow> {
    if rows == [] then [] else (if Matches(rows[0], p) then [rows[0]] else []) + Matching(rows[1..], p)
  }

  ghost predicate KeysDistinct(table: seq<AuthorityRow>) {
    forall i, j :: 0 <= i < j < |table| ==> table[i].timestamp != table[j].timestamp || table[i].symbol != table[j].symbol
  }

  lemma {:induction false} SelectOne(table: seq<AuthorityRow>, p: Prediction)
    requires KeysDistinct(table) && Normal(p)
    ensures Select(table, p) == [] || (|Select(table, p)| == 1 && Select(table, p)[0] in table && SameKey(Select(table, p)[0], p))
    ensures Select(table, p) == [] <==> forall i :: 0 <= i < |table| ==> !SameKey(table[i], p)
  {
    hide NormalizeSymbol;
    if table != [] {
      SelectOne(table[1..], p);
      assert forall i :: 0 < i < |table| ==> table[i] == table[1..][i - 1];
    }
  }

  /** What the lookup asks for. */
  predicate Under(row: AuthorityRow, p: Prediction) { row.timestamp == p.timestamp && row.symbol == NormalizeSymbol(p.symbol) }

  ghost predicate OnlyUnder(table: seq<AuthorityRow>, p: Prediction, i: nat) {
    i < |table| && Under(table[i], p) && forall j :: 0 <= j < |table| && j != i ==> !Under(table[j], p)
  }

  lemma {:induction false} SelectCounts(table: seq<AuthorityRow>, p: Prediction)
    ensures forall row <- Select(table, p) :: Under(row, p)
    ensures Select(table, p) == [] <==> forall i :: 0 <= i < |table| ==> !Under(table[i], p)
    ensures |Select(table, p)| == 1 <==> exists i: nat :: OnlyUnder(table, p, i)
    ensures forall i: nat :: OnlyUnder(table, p, i) ==> Select(table, p) == [table[i]]
  {
    hide NormalizeSymbol;
    if table != [] {
      var rest := table[1..];
      SelectCounts(rest, p);
      if Under(table[0], p) {
        if Select(rest, p) == [] { assert OnlyUnder(table, p, 0); }
      } else if |Select(rest, p)| == 1 {
        var i: nat :| OnlyUnder(rest, p, i);
        assert OnlyUnder(table, p, i + 1);
      }
      forall i: nat | OnlyUnder(table, p, i) ensures Select(table, p) == [table[i]] {
        if i > 0 { assert OnlyUnder(rest, p, i - 1); }
      }
    }
  }

  lemma {:induction false} MatchingAll(rows: seq<AuthorityRow>, p: Prediction)
    requires forall row <- rows :: Matches(row, p)
    ensures Matching(rows, p) == rows
  {
    hide NormalizeSymbol;
    if rows != [] { MatchingAll(rows[1..], p); }
  }

  /** In any table a lookup says absent if and only if there is no such row, and finds a row if and only if it is the only one
      and has the same content; several rows, or one with other content, are a conflict. */
  lemma LookupOfAnyTable(table: seq<AuthorityRow>, p: Prediction)
    ensures LookupExact(table, p).Absent? <==> forall i :: 0 <= i < |table| ==> !Under(table[i], p)
    ensures LookupExact(table, p).Match? <==> exists i: nat :: OnlyUnder(table, p, i) && table[i].core == p.core
    ensures forall i: nat :: OnlyUnder(table, p, i) && table[i].core == p.core ==> LookupExact(table, p) == Match(table[i])
  {
    hide NormalizeSymbol;
    SelectCounts(table, p);
    NormalForm(p.symbol);
    var all := Select(table, p);
    var rows := all[..Min(LOOKUP_LIMIT, |all|)];
    assert forall row <- rows :: Under(row, p);
    if forall row <- rows :: row.core == p.core { MatchingAll(rows, p); }
    if |all| <= 1 { assert rows == all; }
  }

  /** With one row per key a lookup answers exactly what the table says about this T0. */
  lemma LookupTellsTheTruth(table: seq<AuthorityRow>, p: Prediction)
    requires KeysDistinct(table) && Normal(p)
    ensures LookupExact(table, p).Absent? <==> forall i :: 0 <= i < |table| ==> !SameKey(table[i], p)
    ensures forall row :: LookupExact(table, p) == Match(row) <==> row in table && Holds(row, p)
    ensures LookupExact(table, p).Conflict? <==> exists row <- table :: SameKey(row, p) && row.core != p.core
  {
    hide NormalizeSymbol;
    SelectOne(table, p);
    var rows := Select(table, p);
    assert rows[..Min(LOOKUP_LIMIT, |rows|)] == rows;
    if rows != [] {
      assert rows == [rows[0]] && Matching(rows, p) == (if Matches(rows[0], p) then [rows[0]] else []);
      forall row | row in table && SameKey(row, p) ensures row == rows[0] {}
    }
  }

  /** A stored row is the answer for its T0 under every spelling of its symbol. */
  lemma EverySpellingIsFound(table: seq<AuthorityRow>, row: AuthorityRow, p: Prediction)
    requires KeysDistinct(table) && row in table && Plain(row.symbol) && Spells(p.symbol, row.symbol)
    requires row.timestamp == p.timestamp && row.core == p.core
    ensures LookupExact(table, p) == Match(row)
  {
    hide NormalizeSymbol, Spells, LookupExact;
    var q := p.(symbol := row.symbol);
    SpellingsHaveOneForm(p.symbol, row.symbol);
    NormalForm(p.symbol);
    SameLookup(table, p, q);
    LookupTellsTheTruth(table, q);
  }

  lemma SameLookup(table: seq<AuthorityRow>, p: Prediction, q: Prediction)
    requires p.timestamp == q.timestamp && p.core == q.core && NormalizeSymbol(p.symbol) == NormalizeSymbol(q.symbol)
    ensures LookupExact(table, p) == LookupExact(table, q)
  {
    hide NormalizeSymbol;
    SelectIsSelect(table, p, q);
    var all := Select(table, p);
    MatchingIsMatching(all[..Min(LOOKUP_LIMIT, |all|)], p, q);
  }

  lemma {:induction false} SelectIsSelect(table: seq<AuthorityRow>, p: Prediction, q: Prediction)
    requires p.timestamp == q.timestamp && NormalizeSymbol(p.symbol) == NormalizeSymbol(q.symbol)
    ensures Select(table, p) == Select(table, q)
  {
    hide NormalizeSymbol;
    if table != [] { SelectIsSelect(table[1..], p, q); }
  }

  lemma {:induction false} MatchingIsMatching(rows: seq<AuthorityRow>, p: Prediction, q: Prediction)
    requires p.timestamp == q.timestamp && p.core == q.core && NormalizeSymbol(p.symbol) == NormalizeSymbol(q.symbol)
    ensures Matching(rows, p) == Matching(rows, q)
  {
    hide NormalizeSymbol;
    if rows != [] { MatchingIsMatching(rows[1..], p, q); }
  }

  lemma {:induction false} SelectSnoc(table: seq<AuthorityRow>, row: AuthorityRow, p: Prediction)
    ensures Select(table + [row], p) == Select(table, p) + Select([row], p)
  {
    if table == [] {
      assert table + [row] == [row];
    } else {
      assert (table + [row])[1..] == table[1..] + [row];
      SelectSnoc(table[1..], row, p);
    }
  }

  /** After an insert into a table without this key, the next lookup finds the new row exactly when the symbol was
      already in normal form: rows keep the symbol as generated, lookups ask for the normalised one. */
  lemma OwnInsertIsFound(table: seq<AuthorityRow>, p: Prediction)
    requires Select(table, p) == []
    ensures LookupExact(Inserted(table, p), p) == Match(AuthorityRow(NextId(table), p.timestamp, p.symbol, p.core)) <==> Normal(p)
  {
    hide NormalizeSymbol;
    var row := AuthorityRow(NextId(table), p.timestamp, p.symbol, p.core);
    SelectSnoc(table, row, p);
    var rows := Select(Inserted(table, p), p);
    assert Select([row], p) == if Normal(p) then [row] else [];
    if Normal(p) {
      assert rows == [row] && rows[..Min(LOOKUP_LIMIT, |rows|)] == rows;
      assert Matching(rows, p) == [row];
    }
  }

  // ---- One write to the receipt store (reads, repairs and crashes: EveryHistoryReadsBack) ----

  function Applied(events: seq<Event>, call: Call): (seq<Event>, Option<StoreError>) {
    if Precheck(call).Some? then (events, Precheck(call))
    else match States(events)
      case Err(x) => (events, Some(x))
      case Ok(m) =>
        match Decide(m, call)
        case Nothing => (events, None)
        case Raise(x) => (events, Some(x))
        case Append(e) => (events + [e], None)
  }

  /** The write that the store commits, whatever bytes of it first reach the disk, once its text is complete. */
  lemma AppliedIsCommitted(c: Codec, events: seq<Event>, call: Call, landed: nat)
    requires States(events).Ok?
    requires Decide(States(events).value, call).Append? ==> landed >= |c.encode(Decide(States(events).value, call).event)|
    ensures Applied(events, call).0 == Commit(c, events, WriteStep(call, landed))
  {
    hide Decide, States, Precheck;
  }

  /** What one write can do to the receipts. */
  ghost predicate Grows(m: map<string, State>, n: map<string, State>, call: Call) {
    && (forall h <- m :: h in n && n[h].prediction == m[h].prediction && (m[h].status == PERSISTED ==> n[h] == m[h]))
    && (forall h <- n :: h != call.hash ==> h in m && n[h] == m[h])
    && (call.hash in n && call.hash !in m ==> call.Enqueue? && n[call.hash].prediction == Some(call.prediction))
    && (call.hash in n && n[call.hash].status == PERSISTED ==>
          (call.hash in m && m[call.hash].status == PERSISTED) || (call.MarkPersisted? && n[call.hash].rowId == Some(call.rowId)))
  }

  lemma WriteGrows(events: seq<Event>, call: Call)
    requires ReceiptsOk(events)
    ensures ReceiptsOk(Applied(events, call).0)
    ensures Grows(States(events).value, States(Applied(events, call).0).value, call)
  {
    hide States, ReceiptOk;
    if Precheck(call).None? && Decide(States(events).value, call).Append? {
      WriterKeepsReceipts(events, call);
    }
  }

  lemma EnqueueTakes(events: seq<Event>, call: Call)
    requires ReceiptsOk(events) && call.Enqueue? && Applied(events, call).1.None?
    ensures call.hash in States(Applied(events, call).0).value
    ensures States(Applied(events, call).0).value[call.hash].prediction == Some(call.prediction)
  {
    hide States;
    if Decide(States(events).value, call).Append? { WriterKeepsReceipts(events, call); }
  }

  lemma MarkPersistedTakes(events: seq<Event>, call: Call)
    requires ReceiptsOk(events) && call.MarkPersisted? && Precheck(call).None? && call.hash in States(events).value
    requires States(events).value[call.hash].status == PERSISTED ==> States(events).value[call.hash].rowId == Some(call.rowId)
    ensures Applied(events, call).1.None? && call.hash in States(Applied(events, call).0).value
    ensures States(Applied(events, call).0).value[call.hash].status == PERSISTED
    ensures States(Applied(events, call).0).value[call.hash].rowId == Some(call.rowId)
  {
    hide States;
    assert ReceiptOk(States(events).value[call.hash], |events|);
    if Decide(States(events).value, call).Append? { WriterKeepsReceipts(events, call); }
  }

  // ---- The runner, one persistent effect per step ----

  datatype Phase = Sealing | FirstLookup | Inserting | SecondLookup | Recording(id: int) | Failing | Routing

  /** One attempt to bind a T0: live from generation, or a retry. */
  datatype Job = Job(hash: string, packetId: string, prediction: Prediction, live: bool, phase: Phase)

  datatype Entry = Entry(hash: string, prediction: Option<Prediction>)

  datatype World = World(
    events: seq<Event>, table: seq<AuthorityRow>, generated: set<Prediction>, routed: seq<Prediction>,
    queue: seq<Entry>, job: Option<Job>)

  const EMPTY_WORLD := World([], [], {}, [], [], None)

  datatype InsertReply = Acknowledged | WrongAcknowledgement | NoAnswer

  datatype Step =
    | Generate(hash: string, packetId: string, prediction: Prediction)
    | Seal(ok: bool)
    | StartRetry
    | NextRetry(resealed: bool)
    | Lookup(heard: bool)
    | Insert(commits: bool, reply: InsertReply)
    | Record
    | Fail
    | Route
    | Crash

  const RETRY_LIMIT := 4

  function PredictionOf(m: map<string, State>, hash: string): Option<Prediction> {
    if hash in m then m[hash].prediction else None
  }

  function Entries(m: map<string, State>, hashes: seq<string>): (r: seq<Entry>)
    ensures |r| == |hashes| && forall i :: 0 <= i < |r| ==> r[i] == Entry(hashes[i], PredictionOf(m, hashes[i]))
  {
    seq(|hashes|, i requires 0 <= i < |hashes| => Entry(hashes[i], PredictionOf(m, hashes[i])))
  }

  /** Which steps can happen. A generated T0 is new, since its timestamp is, and its symbol is in normal form; an
      acknowledged insert has committed. */
  predicate Permitted(w: World, step: Step) {
    match step
    case Generate(_, _, p) => w.job.None? && w.queue == [] && p !in w.generated && Normal(p)
    case StartRetry => w.job.None? && w.queue == []
    case NextRetry(_) => w.job.None? && w.queue != []
    case Crash => true
    case Insert(commits, reply) => w.job.Some? && w.job.value.phase == Inserting && (reply != NoAnswer ==> commits)
    case Seal(_) => w.job.Some? && w.job.value.phase == Sealing
    case Lookup(_) => w.job.Some? && (w.job.value.phase == FirstLookup || w.job.value.phase == SecondLookup)
    case Record => w.job.Some? && w.job.value.phase.Recording?
    case Fail => w.job.Some? && w.job.value.phase == Failing
    case Route => w.job.Some? && w.job.value.phase == Routing
  }

  /** The attempt goes on in another phase. */
  function Go(w: World, phase: Phase): World
    requires w.job.Some?
  {
    w.(job := Some(w.job.value.(phase := phase)))
  }

  /** One store write; an error that the retry pass does not catch ends the pass. */
  function Store(w: World, call: Call): World { w.(events := Applied(w.events, call).0) }

  function NextGenerate(w: World, hash: string, packetId: string, p: Prediction): World {
    var call := Enqueue(hash, packetId, p);
    Store(w, call).(
      generated := w.generated + {p},
      job := if Applied(w.events, call).1.Some? then None else Some(Job(hash, packetId, p, true, Sealing)))
  }

  function NextSeal(w: World, ok: bool): World
    requires w.job.Some?
  {
    var call := Enqueue(w.job.value.hash, w.job.value.packetId, w.job.value.prediction);
    if !ok then w.(job := None)
    else if Applied(w.events, call).1.Some? then Store(w, call).(job := None)
    else Go(Store(w, call), FirstLookup)
  }

  function NextStartRetry(w: World): World {
    match States(w.events)
    case Err(_) => w
    case Ok(m) => w.(queue := Entries(m, PendingPage(w.events, RETRY_LIMIT)))
  }

  function NextNextRetry(w: World, resealed: bool): World
    requires w.queue != []
  {
    var e, rest := w.queue[0], w.queue[1..];
    if e.prediction.None? || !resealed then
      var call := MarkFailed(e.hash, "RETRY");
      Store(w, call).(queue := if Applied(w.events, call).1.Some? then [] else rest)
    else w.(queue := rest, job := Some(Job(e.hash, "", e.prediction.value, false, FirstLookup)))
  }

  function NextLookup(w: World, heard: bool): World
    requires w.job.Some?
  {
    if !heard then Go(w, Failing)
    else match LookupExact(w.table, w.job.value.prediction)
      case Conflict => Go(w, Failing)
      case Match(row) => Go(w, if row.id > 0 then Recording(row.id) else Failing)
      case Absent => Go(w, if w.job.value.phase == FirstLookup then Inserting else Failing)
  }

  function NextInsert(w: World, commits: bool, reply: InsertReply): World
    requires w.job.Some?
  {
    var after := if commits then w.(table := Inserted(w.table, w.job.value.prediction)) else w;
    match reply
    case Acknowledged => Go(after, if NextId(w.table) > 0 then Recording(NextId(w.table)) else Failing)
    case WrongAcknowledgement => Go(after, Failing)
    case NoAnswer => Go(after, SecondLookup)
  }

  function NextRecord(w: World): World
    requires w.job.Some? && w.job.value.phase.Recording?
  {
    var call := MarkPersisted(w.job.value.hash, w.job.value.phase.id);
    if Applied(w.events, call).1.Some? then Store(w, call).(job := None, queue := [])
    else if w.job.value.live then Go(Store(w, call), Routing)
    else Store(w, call).(job := None)
  }

  function NextFail(w: World): World
    requires w.job.Some?
  {
    var call := MarkFailed(w.job.value.hash, "UNRESOLVED");
    Store(w, call).(job := None, queue := if Applied(w.events, call).1.Some? then [] else w.queue)
  }

  function Next(w: World, step: Step): World
    requires Permitted(w, step)
  {
    match step
    case Generate(hash, packetId, p) => NextGenerate(w, hash, packetId, p)
    case Seal(ok) => NextSeal(w, ok)
    case StartRetry => NextStartRetry(w)
    case NextRetry(resealed) => NextNextRetry(w, resealed)
    case Lookup(heard) => NextLookup(w, heard)
    case Insert(commits, reply) => NextInsert(w, commits, reply)
    case Record => NextRecord(w)
    case Fail => NextFail(w)
    case Route => w.(routed := w.routed + [w.job.value.prediction], job := None)
    case Crash => w.(job := None, queue := [])
  }

  // ---- The invariant ----

  ghost predicate IdsIncrease(table: seq<AuthorityRow>) {
    (forall row <- table :: row.id > 0) && forall i, j :: 0 <= i < j < |table| ==> table[i].id < table[j].id
  }

  ghost predicate RowFor(table: seq<AuthorityRow>, id: int, p: Prediction) {
    exists row <- table :: row.id == id && Holds(row, p)
  }

  ghost predicate FromGenerated(table: seq<AuthorityRow>, generated: set<Prediction>) {
    forall row <- table :: exists p <- generated :: Holds(row, p)
  }

  ghost predicate Backed(s: State, table: seq<AuthorityRow>, generated: set<Prediction>) {
    && s.prediction.Some? && s.prediction.value in generated && Normal(s.prediction.value)
    && (s.status == PERSISTED ==> s.rowId.Some? && RowFor(table, s.rowId.value, s.prediction.value))
  }

  ghost predicate PersistedFor(m: map<string, State>, p: Prediction) {
    exists h <- m :: m[h].status == PERSISTED && m[h].prediction == Some(p)
  }

  ghost predicate RoutedOk(m: map<string, State>, routed: seq<Prediction>, generated: set<Prediction>) {
    NoRepeats(routed) && forall p <- routed :: p in generated && PersistedFor(m, p)
  }

  ghost predicate JobOk(m: map<string, State>, table: seq<AuthorityRow>, routed: seq<Prediction>, job: Job) {
    && job.hash in m && m[job.hash].prediction == Some(job.prediction)
    && (job.live ==> job.prediction !in routed)
    && (job.phase == Inserting ==> forall row <- table :: !SameKey(row, job.prediction))
    && (job.phase.Recording? ==> RowFor(table, job.phase.id, job.prediction))
    && (job.phase == Routing ==> job.live && m[job.hash].status == PERSISTED)
  }

  ghost predicate QueueOk(m: map<string, State>, queue: seq<Entry>) {
    forall e <- queue :: e.hash in m && e.prediction == m[e.hash].prediction
  }

  ghost predicate ReceiptsBacked(m: map<string, State>, table: seq<AuthorityRow>, generated: set<Prediction>) {
    forall h <- m :: Backed(m[h], table, generated)
  }

  ghost predicate WorldOk(w: World) {
    && ReceiptsOk(w.events)
    && var m := States(w.events).value;
    && IdsIncrease(w.table) && KeysDistinct(w.table) && FromGenerated(w.table, w.generated)
    && ReceiptsBacked(m, w.table, w.generated) && RoutedOk(m, w.routed, w.generated) && QueueOk(m, w.queue)
    && (w.job.Some? ==> JobOk(m, w.table, w.routed, w.job.value))
  }

  /** What no step undoes. */
  ghost predicate Kept(w: World, next: World)
    requires States(w.events).Ok? && States(next.events).Ok?
  {
    && w.table <= next.table && w.routed <= next.routed && w.generated <= next.generated
    && (forall h <- States(w.events).value ::
          h in States(next.events).value
          && (States(w.events).value[h].status == PERSISTED ==> States(next.events).value[h] == States(w.events).value[h]))
  }

  ghost predicate FairCall(m: map<string, State>, table: seq<AuthorityRow>, generated: set<Prediction>, call: Call) {
    match call
    case Enqueue(_, _, p) => p in generated && Normal(p)
    case MarkFailed(_, _) => true
    case MarkPersisted(hash, id) => hash in m && m[hash].prediction.Some? && RowFor(table, id, m[hash].prediction.value)
  }

  /** A store write keeps every receipt backed by its row. */
  lemma GrowthKeeps(m: map<string, State>, n: map<string, State>, call: Call, w: World)
    requires Grows(m, n, call) && FairCall(m, w.table, w.generated, call)
    requires forall h <- n :: n[h].prediction.Some? && (n[h].status == PERSISTED <==> n[h].rowId.Some?)
    requires ReceiptsBacked(m, w.table, w.generated) && RoutedOk(m, w.routed, w.generated) && QueueOk(m, w.queue)
    ensures ReceiptsBacked(n, w.table, w.generated) && RoutedOk(n, w.routed, w.generated) && QueueOk(n, w.queue)
  {
    hide RowFor, Normal;
    forall p | p in w.routed ensures PersistedFor(n, p) {
      assert PersistedFor(m, p);
      var h :| h in m && m[h].status == PERSISTED && m[h].prediction == Some(p);
      assert h in n;
    }
  }

  lemma StoreKeeps(w: World, call: Call) returns (m: map<string, State>, n: map<string, State>)
    requires WorldOk(w) && FairCall(States(w.events).value, w.table, w.generated, call)
    ensures WorldOk(Store(w, call).(job := None)) && Kept(w, Store(w, call))
    ensures m == States(w.events).value && n == States(Store(w, call).events).value && Grows(m, n, call)
  {
    hide Applied, States, IdsIncrease, KeysDistinct, FromGenerated, RowFor, RoutedOk, QueueOk, Normal;
    WriteGrows(w.events, call);
    m, n := States(w.events).value, States(Store(w, call).events).value;
    forall h | h in n ensures n[h].prediction.Some? && (n[h].status == PERSISTED <==> n[h].rowId.Some?) {
      assert ReceiptOk(n[h], |Store(w, call).events|);
    }
    GrowthKeeps(m, n, call, w);
  }

  lemma GenerateKeeps(w: World, hash: string, packetId: string, p: Prediction)
    requires WorldOk(w) && Permitted(w, Generate(hash, packetId, p))
    ensures WorldOk(NextGenerate(w, hash, packetId, p)) && Kept(w, NextGenerate(w, hash, packetId, p))
  {
    hide Applied, States, IdsIncrease, KeysDistinct, RowFor, Normal, ReceiptOk;
    var call := Enqueue(hash, packetId, p);
    var wider := w.(generated := w.generated + {p});
    assert FromGenerated(wider.table, wider.generated);
    assert p !in w.routed;
    var m, n := StoreKeeps(wider, call);
    if Applied(w.events, call).1.None? { EnqueueTakes(w.events, call); }
  }

  lemma SealKeeps(w: World, ok: bool)
    requires WorldOk(w) && Permitted(w, Seal(ok))
    ensures WorldOk(NextSeal(w, ok)) && Kept(w, NextSeal(w, ok))
  {
    hide Applied, States, IdsIncrease, KeysDistinct, RowFor, Normal, ReceiptOk, FromGenerated, RoutedOk;
    var job := w.job.value;
    var call := Enqueue(job.hash, job.packetId, job.prediction);
    assert Backed(States(w.events).value[job.hash], w.table, w.generated);
    var m, n := StoreKeeps(w, call);
  }

  lemma StartRetryKeeps(w: World)
    requires WorldOk(w) && Permitted(w, StartRetry)
    ensures WorldOk(NextStartRetry(w)) && Kept(w, NextStartRetry(w))
  {
    hide States, IdsIncrease, KeysDistinct, RowFor, ReceiptOk, FromGenerated, RoutedOk, ReceiptsBacked, PendingPage, Sort;
    var m := States(w.events).value;
    var page := PendingPage(w.events, RETRY_LIMIT);
    PendingPageIsOldest(w.events, RETRY_LIMIT);
    forall e | e in Entries(m, page) ensures e.hash in m && e.prediction == m[e.hash].prediction {
      var i :| 0 <= i < |page| && e == Entries(m, page)[i];
      assert page[i] in page;
    }
  }

  lemma NextRetryKeeps(w: World, resealed: bool)
    requires WorldOk(w) && Permitted(w, NextRetry(resealed))
    ensures WorldOk(NextNextRetry(w, resealed)) && Kept(w, NextNextRetry(w, resealed))
  {
    hide Applied, States, IdsIncrease, KeysDistinct, RowFor, Normal, ReceiptOk, FromGenerated, RoutedOk, ReceiptsBacked;
    var e := w.queue[0];
    assert e in w.queue;
    assert forall x <- w.queue[1..] :: x in w.queue;
    var m, n := StoreKeeps(w, MarkFailed(e.hash, "RETRY"));
  }

  lemma LookupKeeps(w: World, heard: bool)
    requires WorldOk(w) && Permitted(w, Lookup(heard))
    ensures WorldOk(NextLookup(w, heard)) && Kept(w, NextLookup(w, heard))
  {
    hide States, IdsIncrease, KeysDistinct, Normal, ReceiptOk, FromGenerated, RoutedOk, QueueOk, LookupExact;
    assert Backed(States(w.events).value[w.job.value.hash], w.table, w.generated);
    LookupTellsTheTruth(w.table, w.job.value.prediction);
  }

  lemma InsertKeepsTable(w: World, p: Prediction)
    requires IdsIncrease(w.table) && KeysDistinct(w.table) && FromGenerated(w.table, w.generated)
    requires p in w.generated && forall row <- w.table :: !SameKey(row, p)
    ensures var t := Inserted(w.table, p);
            IdsIncrease(t) && KeysDistinct(t) && FromGenerated(t, w.generated) && RowFor(t, NextId(w.table), p) && NextId(w.table) > 0
    ensures forall id, q :: RowFor(w.table, id, q) ==> RowFor(Inserted(w.table, p), id, q)
  {
    var t := Inserted(w.table, p);
    var row := t[|w.table|];
    assert row in t && Holds(row, p);
    forall i, j | 0 <= i < j < |t| ensures t[i].timestamp != t[j].timestamp || t[i].symbol != t[j].symbol {
      if j == |w.table| { assert w.table[i] in w.table; }
    }
    forall id, q | RowFor(w.table, id, q) ensures RowFor(t, id, q) {
      var r :| r in w.table && r.id == id && Holds(r, q);
      assert r in t;
    }
  }

  lemma InsertKeeps(w: World, commits: bool, reply: InsertReply)
    requires WorldOk(w) && Permitted(w, Insert(commits, reply))
    ensures WorldOk(NextInsert(w, commits, reply)) && Kept(w, NextInsert(w, commits, reply))
  {
    hide States, IdsIncrease, KeysDistinct, Normal, ReceiptOk, FromGenerated, RoutedOk, QueueOk, Inserted, RowFor, NextId;
    var p := w.job.value.prediction;
    assert Backed(States(w.events).value[w.job.value.hash], w.table, w.generated);
    InsertKeepsTable(w, p);
    assert w.table <= Inserted(w.table, p) by { InsertExtends(w.table, p); }
  }

  lemma InsertExtends(table: seq<AuthorityRow>, p: Prediction)
    ensures table <= Inserted(table, p) && |Inserted(table, p)| == |table| + 1
  {
  }

  /** The row a T0 is stored in determines its id, so an id conflict is never raised. */
  lemma OneIdPerT0(table: seq<AuthorityRow>, a: int, b: int, p: Prediction)
    requires KeysDistinct(table) && RowFor(table, a, p) && RowFor(table, b, p)
    ensures a == b
  {
  }

  lemma RecordKeeps(w: World)
    requires WorldOk(w) && Permitted(w, Record)
    ensures WorldOk(NextRecord(w)) && Kept(w, NextRecord(w))
    ensures Applied(w.events, MarkPersisted(w.job.value.hash, w.job.value.phase.id)).1.None?
    ensures var n := States(NextRecord(w).events).value;
            w.job.value.hash in n && n[w.job.value.hash].status == PERSISTED && n[w.job.value.hash].rowId == Some(w.job.value.phase.id)
  {
    hide Applied, States, IdsIncrease, KeysDistinct, RowFor, Normal, ReceiptOk, FromGenerated, RoutedOk;
    var job := w.job.value;
    var call := MarkPersisted(job.hash, job.phase.id);
    var s := States(w.events).value[job.hash];
    assert Backed(s, w.table, w.generated);
    var m, n := StoreKeeps(w, call);
    if s.status == PERSISTED { OneIdPerT0(w.table, s.rowId.value, job.phase.id, job.prediction); }
    assert job.phase.id > 0 by { PositiveId(w.table, job.phase.id, job.prediction); }
    MarkPersistedTakes(w.events, call);
  }

  lemma PositiveId(table: seq<AuthorityRow>, id: int, p: Prediction)
    requires IdsIncrease(table) && RowFor(table, id, p)
    ensures id > 0
  {
  }

  lemma FailKeeps(w: World)
    requires WorldOk(w) && Permitted(w, Fail)
    ensures WorldOk(NextFail(w)) && Kept(w, NextFail(w))
  {
    hide Applied, States, IdsIncrease, KeysDistinct, RowFor, Normal, ReceiptOk, FromGenerated, RoutedOk, ReceiptsBacked;
    var m, n := StoreKeeps(w, MarkFailed(w.job.value.hash, "UNRESOLVED"));
  }

  lemma RouteKeeps(w: World)
    requires WorldOk(w) && Permitted(w, Route)
    ensures WorldOk(Next(w, Route)) && Kept(w, Next(w, Route))
  {
    hide States, IdsIncrease, KeysDistinct, RowFor, Normal, ReceiptOk, FromGenerated, QueueOk;
    var m, p := States(w.events).value, w.job.value.prediction;
    assert Backed(m[w.job.value.hash], w.table, w.generated);
    assert PersistedFor(m, p);
    assert NoRepeats(w.routed + [p]);
  }

  lemma StepKeeps(w: World, step: Step)
    requires WorldOk(w) && Permitted(w, step)
    ensures WorldOk(Next(w, step)) && Kept(w, Next(w, step))
  {
    hide States, IdsIncrease, KeysDistinct, RowFor, ReceiptsOk, FromGenerated, ReceiptsBacked, RoutedOk, Permitted,
      NextGenerate, NextSeal, NextStartRetry, NextNextRetry, NextLookup, NextInsert, NextRecord, NextFail;
    match step
    case Generate(hash, packetId, p) => GenerateKeeps(w, hash, packetId, p);
    case Seal(ok) => SealKeeps(w, ok);
    case StartRetry => StartRetryKeeps(w);
    case NextRetry(resealed) => NextRetryKeeps(w, resealed);
    case Lookup(heard) => LookupKeeps(w, heard);
    case Insert(commits, reply) => InsertKeeps(w, commits, reply);
    case Record => RecordKeeps(w);
    case Fail => FailKeeps(w);
    case Route => RouteKeeps(w);
    case Crash =>
  }

  // ---- Every run ----

  function After(w: World, steps: seq<Step>): Option<World> {
    if steps == [] then Some(w)
    else match After(w, steps[..|steps| - 1])
      case None => None
      case Some(v) => if Permitted(v, steps[|steps| - 1]) then Some(Next(v, steps[|steps| - 1])) else None
  }

  /** At most one row per generated T0, a persisted receipt names that row, and a T0 is routed at most once and only
      with its row in the table. */
  ghost predicate ExactlyOnce(w: World) {
    && ReceiptsOk(w.events)
    && (forall p <- w.generated, i, j ::
          0 <= i < |w.table| && 0 <= j < |w.table| && Holds(w.table[i], p) && Holds(w.table[j], p) ==> i == j)
    && (forall row <- w.table :: exists p <- w.generated :: Holds(row, p))
    && (forall h <- States(w.events).value :: var s := States(w.events).value[h];
          s.status == PERSISTED ==> s.prediction.Some? && s.rowId.Some? && RowFor(w.table, s.rowId.value, s.prediction.value))
    && NoRepeats(w.routed) && (forall p <- w.routed :: exists row <- w.table :: Holds(row, p))
  }

  lemma WorldOkMeans(w: World)
    requires WorldOk(w)
    ensures ExactlyOnce(w)
  {
    hide States, IdsIncrease, Normal, ReceiptOk;
    var m := States(w.events).value;
    forall h | h in m ensures Backed(m[h], w.table, w.generated) {}
    forall p | p in w.routed ensures exists row <- w.table :: Holds(row, p) {
      assert PersistedFor(m, p);
      var h :| h in m && m[h].status == PERSISTED && m[h].prediction == Some(p);
      assert RowFor(w.table, m[h].rowId.value, p);
    }
    forall p, i, j | p in w.generated && 0 <= i < |w.table| && 0 <= j < |w.table| && Holds(w.table[i], p) && Holds(w.table[j], p)
      ensures i == j
    {
      if i < j { assert false; } else if j < i { assert false; }
    }
  }

  lemma {:induction false} RunKeeps(w: World, steps: seq<Step>)
    requires WorldOk(w) && After(w, steps).Some?
    ensures WorldOk(After(w, steps).value) && Kept(w, After(w, steps).value)
  {
    hide States, Permitted, Next, ReceiptsOk, IdsIncrease, KeysDistinct, FromGenerated, ReceiptsBacked, RoutedOk, QueueOk, JobOk;
    if steps != [] {
      var init := steps[..|steps| - 1];
      RunKeeps(w, init);
      StepKeeps(After(w, init).value, steps[|steps| - 1]);
    }
  }

  /** Exactly-once persistence over every run with lost acknowledgements, conflicting acknowledgements, failed lookups,
      failed seals, crashes and retries. */
  lemma EveryRunIsExactlyOnce(steps: seq<Step>)
    requires After(EMPTY_WORLD, steps).Some?
    ensures WorldOk(After(EMPTY_WORLD, steps).value) && ExactlyOnce(After(EMPTY_WORLD, steps).value)
  {
    hide After, ExactlyOnce;
    assert WorldOk(EMPTY_WORLD);
    RunKeeps(EMPTY_WORLD, steps);
    WorldOkMeans(After(EMPTY_WORLD, steps).value);
  }

  lemma {:induction false} AfterSplits(w: World, early: seq<Step>, late: seq<Step>)
    requires After(w, early + late).Some?
    ensures After(w, early).Some? && After(w, early + late) == After(After(w, early).value, late)
  {
    hide Permitted, Next;
    if late == [] {
      assert early + late == early;
    } else {
      var all := early + late;
      assert all[..|all| - 1] == early + late[..|late| - 1];
      AfterSplits(w, early, late[..|late| - 1]);
    }
  }

  /** Nothing that happened is ever undone: rows, routed T0s and persisted receipts stay as they are. */
  lemma LaterStepsKeep(early: seq<Step>, late: seq<Step>)
    requires After(EMPTY_WORLD, early + late).Some?
    ensures After(EMPTY_WORLD, early).Some? && ReceiptsOk(After(EMPTY_WORLD, early).value.events)
    ensures ReceiptsOk(After(EMPTY_WORLD, early + late).value.events)
    ensures Kept(After(EMPTY_WORLD, early).value, After(EMPTY_WORLD, early + late).value)
  {
    AfterSplits(EMPTY_WORLD, early, late);
    EveryRunIsExactlyOnce(early);
    RunKeeps(After(EMPTY_WORLD, early).value, late);
  }
}
