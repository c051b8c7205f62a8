/** The runner's own loops over the step machine: one persistence attempt, the live path and the bounded retry pass
    (senecio_polymarket/backend/oracle_runner.py). */
module OracleLoop {
  import opened Prelude
  import opened PredictionPersistence
  import opened RetryQueue
  import opened OracleRunner

  /** What the outside answers during one attempt. */
  datatype Answers = Answers(resealed: bool, firstHeard: bool, commits: bool, reply: InsertReply, secondHeard: bool)

  predicate Possible(a: Answers) { a.reply != NoAnswer ==> a.commits }

  /** Answers under which an attempt must succeed: requests get through, at worst the acknowledgement is lost. */
  predicate AtWorstAckLost(a: Answers) {
    a.firstHeard && a.commits && a.secondHeard && a.reply != WrongAcknowledgement
  }

  ghost predicate KeyFree(table: seq<AuthorityRow>, p: Prediction) {
    forall row <- table :: SameKey(row, p) ==> row.core == p.core
  }

  /** The receipt exists and is not resolved. */
  ghost predicate Open(events: seq<Event>, hash: string) {
    States(events).Ok? && hash in States(events).value && States(events).value[hash].prediction.Some?
    && States(events).value[hash].status != PERSISTED
  }

  ghost predicate Persisted(events: seq<Event>, hash: string) {
    States(events).Ok? && hash in States(events).value && States(events).value[hash].status == PERSISTED
  }

  /** The only store write of an attempt: one event on its own receipt. */
  ghost predicate OneEvent(before: seq<Event>, after: seq<Event>, hash: string) {
    |after| == |before| + 1 && after[..|before|] == before && after[|before|].sourceHash == hash
  }

  lemma OutcomeIsOneEvent(events: seq<Event>, call: Call)
    requires ReceiptsOk(events) && Open(events, call.hash) && !call.Enqueue? && Precheck(call).None?
    ensures OneEvent(events, Applied(events, call).0, call.hash) && Applied(events, call).1.None?
    ensures call.MarkPersisted? <==> Persisted(Applied(events, call).0, call.hash)
    ensures call.MarkFailed? <==> Open(Applied(events, call).0, call.hash)
  {
    hide States, ReceiptOk;
    WriterKeepsReceipts(events, call);
  }

  /** The store takes a new receipt under this identity. */
  ghost predicate Accepts(events: seq<Event>, hash: string, packetId: string) {
    |hash| == HASH_LENGTH && packetId != "" && States(events).Ok? && hash !in States(events).value
  }

  /** A new T0 and what the outside answers to it. */
  datatype Arrival = Arrival(hash: string, packetId: string, prediction: Prediction, sealed: bool, answers: Answers)

  /** One turn of the oracle's loop: a retry pass, then the predictions of the turn. */
  datatype Cycle = Cycle(answers: seq<Answers>, arrivals: seq<Arrival>)

  ghost predicate Fresh(arrivals: seq<Arrival>, generated: set<Prediction>) {
    arrivals == [] ||
    (var a := arrivals[0];
     && Possible(a.answers) && Normal(a.prediction) && a.prediction !in generated && Fresh(arrivals[1..], generated + {a.prediction}))
  }

  ghost function WithArrivals(generated: set<Prediction>, arrivals: seq<Arrival>): set<Prediction>
    decreases |arrivals|
  {
    if arrivals == [] then generated else WithArrivals(generated + {arrivals[0].prediction}, arrivals[1..])
  }

  /** Every pass gets possible answers, and every T0 of the cycles is new when it comes. */
  ghost predicate FreshCycles(cycles: seq<Cycle>, generated: set<Prediction>) {
    cycles == [] ||
    (&& |cycles[0].answers| >= RETRY_LIMIT && (forall a <- cycles[0].answers :: Possible(a)) && Fresh(cycles[0].arrivals, generated)
     && FreshCycles(cycles[1..], WithArrivals(generated, cycles[0].arrivals)))
  }

  class AuthorityRunner {
    var world: World
    ghost var steps: seq<Step>

    /** The world is the outcome of a permitted run. */
    ghost predicate Valid()
      reads this
    {
      After(EMPTY_WORLD, steps) == Some(world) && WorldOk(world)
    }

    predicate Idle()
      reads this
    {
      world.job.None? && world.queue == []
    }

    constructor ()
      ensures Valid() && world == EMPTY_WORLD
    {
      world, steps := EMPTY_WORLD, [];
      new;
      EveryRunIsExactlyOnce([]);
    }

    method Do(step: Step)
      requires Valid() && Permitted(world, step)
      modifies this
      ensures Valid() && world == Next(old(world), step) && steps == old(steps) + [step]
      ensures Kept(old(world), world)
    {
      hide WorldOk, Permitted, Next, Kept;
      assert (steps + [step])[..|steps|] == steps;
      StepKeeps(world, step);
      world, steps := Next(world, step), steps + [step];
    }

    /** `ensure_prediction_persisted`: lookup, insert, and one more lookup when the insert was not acknowledged. */
    method EnsurePersisted(a: Answers)
      requires Valid() && Possible(a) && world.job.Some? && world.job.value.phase == FirstLookup
      modifies this
      ensures Valid() && world == old(world).(table := world.table, job := world.job) && ReceiptsOk(world.events)
      ensures world.job.Some? && world.job.value == old(world.job.value).(phase := world.job.value.phase)
      ensures world.job.value.phase == Failing || (world.job.value.phase.Recording? && world.job.value.phase.id > 0)
      ensures AtWorstAckLost(a) && KeyFree(old(world.table), old(world.job.value.prediction)) ==> world.job.value.phase.Recording?
    {
      hide WorldOk, LookupExact, Applied, Inserted, NextId, Kept, ReceiptsOk;
      LookupFacts(world);
      Do(Lookup(a.firstHeard));
      if world.job.value.phase == Inserting {
        InsertFacts(world, a.reply);
        Do(Insert(a.commits, a.reply));
        if world.job.value.phase == SecondLookup { Do(Lookup(a.secondHeard)); }
      }
      RecordingIdPositive(world);
    }

    /** `ensure_prediction_persisted` and the receipt that follows it: PERSISTED or FAILED. */
    method Attempt(a: Answers) returns (ok: bool)
      requires Valid() && Possible(a) && world.job.Some? && world.job.value.phase == FirstLookup
      requires Open(world.events, world.job.value.hash)
      modifies this
      ensures Valid() && world.queue == old(world.queue) && world.routed == old(world.routed) && world.generated == old(world.generated)
      ensures OneEvent(old(world.events), world.events, old(world.job.value.hash))
      ensures ok ==> Persisted(world.events, old(world.job.value.hash))
      ensures !ok ==> Open(world.events, old(world.job.value.hash))
      ensures if ok && old(world.job.value.live) then world.job == Some(old(world.job.value).(phase := Routing)) else world.job == None
      ensures AtWorstAckLost(a) && KeyFree(old(world.table), old(world.job.value.prediction)) ==> ok
    {
      hide WorldOk, ReceiptsOk, Applied, Open, Persisted, OneEvent, Kept, AtWorstAckLost, KeyFree;
      EnsurePersisted(a);
      if world.job.value.phase.Recording? {
        OutcomeIsOneEvent(world.events, MarkPersisted(world.job.value.hash, world.job.value.phase.id));
        Do(Record);
        return true;
      } else {
        OutcomeIsOneEvent(world.events, MarkFailed(world.job.value.hash, "UNRESOLVED"));
        Do(Fail);
        return false;
      }
    }

    /** `_persist_and_route_prediction` for a freshly generated T0: routed exactly when its receipt is persisted. */
    method PersistAndRoute(hash: string, packetId: string, p: Prediction, sealed: bool, a: Answers) returns (ok: bool)
      requires Valid() && Idle() && Possible(a) && p !in world.generated && Normal(p)
      modifies this
      ensures Valid() && Idle() && world.generated == old(world.generated) + {p} && old(world.events) <= world.events
      ensures world.routed == old(world.routed) + (if ok then [p] else [])
      ensures ok ==> Persisted(world.events, hash) && exists row <- world.table :: Holds(row, p)
      ensures sealed && AtWorstAckLost(a) && KeyFree(old(world.table), p) && Accepts(old(world.events), hash, packetId) ==> ok
    {
      hide WorldOk, States, Open, Persisted, OneEvent, Kept, NextGenerate, NextSeal, Normal, Accepts;
      GenerateFacts(world, hash, packetId, p, sealed);
      Do(Generate(hash, packetId, p));
      if world.job.None? { return false; }
      Do(Seal(sealed));
      if world.job.None? { return false; }
      ghost var attempt, receipt := world.events, world.job.value.hash;
      ok := Attempt(a);
      OneEventGrows(attempt, world.events, receipt);
      if ok {
        ghost var before := world;
        Do(Route);
        RoutedHasRow(world, before.routed, p);
      }
    }

    /** One receipt of the pass: reseal, bind, record. */
    method RetryOne(a: Answers) returns (ok: bool)
      requires Valid() && Possible(a) && world.job.None? && world.queue != []
      requires world.queue[0].prediction.Some? && Open(world.events, world.queue[0].hash)
      modifies this
      ensures Valid() && world.job.None? && world.queue == old(world.queue[1..])
      ensures world.routed == old(world.routed) && world.generated == old(world.generated)
      ensures OneEvent(old(world.events), world.events, old(world.queue[0].hash))
      ensures if ok then Persisted(world.events, old(world.queue[0].hash)) else !Persisted(world.events, old(world.queue[0].hash))
      ensures a.resealed && AtWorstAckLost(a) && KeyFree(old(world.table), old(world.queue[0].prediction.value)) ==> ok
    {
      hide WorldOk, States, Open, Persisted, OneEvent, Kept, NextNextRetry;
      NextRetryFacts(world, a.resealed);
      Do(NextRetry(a.resealed));
      ok := false;
      if world.job.Some? {
        ok := Attempt(a);
        OpenIsNotPersisted(world.events, old(world.queue[0].hash));
      }
    }

    /** `_retry_pending_authority_persistence`: every receipt of the page is attempted and moved, none is routed. */
    method RetryPending(answers: seq<Answers>) returns (attempted: nat, persisted: nat)
      requires Valid() && Idle() && |answers| >= RETRY_LIMIT && forall a <- answers :: Possible(a)
      modifies this
      ensures Valid() && Idle() && world.routed == old(world.routed) && world.generated == old(world.generated)
      ensures States(old(world.events)).Ok? && old(world.events) <= world.events
      ensures var page := PendingPage(old(world.events), 4);
              && attempted == |page| && persisted == |Done(world.events, page, |page|)|
              && forall h <- page :: Touched(world.events[|old(world.events)|..], h)
    {
      hide WorldOk, States, Open, Persisted, OneEvent, Kept, NextStartRetry, Progress, After, Next, PendingPage, Possible;
      ghost var start := world.events;
      ghost var page := StartFacts(world);
      attempted, persisted := 0, 0;
      Start();
      while world.queue != []
        invariant Valid() && world.job.None? && world.routed == old(world.routed) && world.generated == old(world.generated)
        invariant Progress(start, world.events, world.queue, page, attempted) && attempted <= |page|
        invariant persisted == |Done(world.events, page, attempted)|
        decreases |world.queue|
      {
        HeadIsOpen(start, world.events, world.queue, page, attempted);
        ghost var before, queue := world.events, world.queue;
        assert answers[attempted] in answers;
        var ok := RetryOne(answers[attempted]);
        if ok { persisted := persisted + 1; }
        ReceiptsFold(world);
        DoneMoves(before, world.events, page, attempted, ok);
        PageMoves(start, before, world.events, queue, page, attempted);
        attempted := attempted + 1;
      }
      PassEnds(start, world.events, page, attempted);
    }

    /** The predictions of one cycle. */
    method RunArrivals(arrivals: seq<Arrival>)
      requires Valid() && Idle() && Fresh(arrivals, world.generated)
      modifies this
      ensures Valid() && Idle() && old(world.events) <= world.events
      ensures world.generated == WithArrivals(old(world.generated), arrivals)
    {
      hide WorldOk, States, Normal, Persisted, Holds, Accepts, Possible, KeyFree, AtWorstAckLost, After;
      var i := 0;
      while i < |arrivals|
        invariant i <= |arrivals| && Valid() && Idle() && old(world.events) <= world.events
        invariant Fresh(arrivals[i..], world.generated)
        invariant WithArrivals(world.generated, arrivals[i..]) == WithArrivals(old(world.generated), arrivals)
      {
        var a := arrivals[i];
        assert arrivals[i..][0] == a && arrivals[i..][1..] == arrivals[i + 1..];
        var routed := PersistAndRoute(a.hash, a.packetId, a.prediction, a.sealed, a.answers);
        i := i + 1;
      }
    }

    /** The oracle's loop. However many T0s keep arriving and whatever fails, a receipt that is unresolved with k older ones
        ahead of it is attempted within n cycles as soon as k < n * 4. */
    method RunCycles(cycles: seq<Cycle>)
      requires Valid() && Idle() && FreshCycles(cycles, world.generated)
      modifies this
      ensures Valid() && Idle() && old(world.events) <= world.events && States(old(world.events)).Ok?
      ensures forall hash <- UnresolvedSet(States(old(world.events)).value) ::
                |Ahead(States(old(world.events)).value, hash)| < |cycles| * 4
                ==> Touched(world.events[|old(world.events)|..], hash)
    {
      hide WorldOk, States, After, PendingPage, Touched, Fresh, Possible, Done, Ahead, RetryRun, Unresolved;
      ghost var start, passes: seq<seq<Event>> := world.events, [];
      ReceiptsFold(world);
      NoPasses(start);
      var i := 0;
      while i < |cycles|
        invariant i <= |cycles| && Valid() && Idle() && FreshCycles(cycles[i..], world.generated)
        invariant |passes| == i && RetryRun(start, passes, RETRY_LIMIT) && world.events == start + Joined(passes)
      {
        var cycle := cycles[i];
        assert cycles[i..][0] == cycle && cycles[i..][1..] == cycles[i + 1..];
        ghost var before := world.events;
        var attempted, persisted := RetryPending(cycle.answers);
        ghost var passed := world.events[|before|..];
        RunArrivals(cycle.arrivals);
        ReceiptsFold(world);
        ghost var extra := world.events[|before|..];
        assert world.events == start + Joined(passes) + extra && passed <= extra;
        TouchedOn(passed, extra, PendingPage(before, RETRY_LIMIT));
        RetryRunGoesOn(start, passes, extra, RETRY_LIMIT);
        passes := passes + [extra];
        assert world.events == start + Joined(passes);
        i := i + 1;
      }
      assert world.events[|start|..] == Joined(passes);
      forall hash | hash in UnresolvedSet(States(start).value)
                    && |Ahead(States(start).value, hash)| < |cycles| * RETRY_LIMIT
        ensures Touched(Joined(passes), hash)
      {
        NoStarvation(start, passes, RETRY_LIMIT, hash);
        AttemptIsWritten(passes, hash);
      }
    }

    method Start()
      requires Valid() && Idle()
      modifies this
      ensures Valid() && world == NextStartRetry(old(world))
    {
      Do(StartRetry);
    }
  }

  // ---- What the loops rely on ----

  lemma LookupFacts(w: World)
    requires WorldOk(w) && w.job.Some? && w.job.value.phase == FirstLookup
    ensures KeyFree(w.table, w.job.value.prediction) ==> !LookupExact(w.table, w.job.value.prediction).Conflict?
    ensures LookupExact(w.table, w.job.value.prediction).Match? ==> LookupExact(w.table, w.job.value.prediction).row.id > 0
    ensures ReceiptsOk(w.events)
  {
    hide States, LookupExact, Normal, ReceiptOk;
    assert Backed(States(w.events).value[w.job.value.hash], w.table, w.generated);
    LookupTellsTheTruth(w.table, w.job.value.prediction);
  }

  lemma InsertFacts(w: World, reply: InsertReply)
    requires WorldOk(w) && Permitted(w, Insert(true, reply))
    ensures NextId(w.table) > 0
    ensures LookupExact(Inserted(w.table, w.job.value.prediction), w.job.value.prediction).Match?
    ensures LookupExact(Inserted(w.table, w.job.value.prediction), w.job.value.prediction).row.id > 0
  {
    hide States, LookupExact, Normal, ReceiptOk;
    var p := w.job.value.prediction;
    assert Backed(States(w.events).value[w.job.value.hash], w.table, w.generated);
    InsertKeepsTable(w, p);
    LookupTellsTheTruth(Inserted(w.table, p), p);
    var row := Inserted(w.table, p)[|w.table|];
    assert row in Inserted(w.table, p) && Holds(row, p);
    assert LookupExact(Inserted(w.table, p), p) == Match(row);
  }

  lemma RecordingIdPositive(w: World)
    requires WorldOk(w) && w.job.Some?
    ensures w.job.value.phase.Recording? ==> w.job.value.phase.id > 0
    ensures ReceiptsOk(w.events)
  {
    hide States, RowFor;
    if w.job.value.phase.Recording? { PositiveId(w.table, w.job.value.phase.id, w.job.value.prediction); }
  }

  lemma GenerateFacts(w: World, hash: string, packetId: string, p: Prediction, sealed: bool)
    requires WorldOk(w) && Permitted(w, Generate(hash, packetId, p))
    ensures var g := NextGenerate(w, hash, packetId, p);
            && g.queue == w.queue && g.routed == w.routed && g.table == w.table && g.generated == w.generated + {p}
            && (Accepts(w.events, hash, packetId) ==> g.job.Some?)
            && (g.job.Some? ==> g.job.value == Job(hash, packetId, p, true, Sealing))
    ensures w.events <= NextGenerate(w, hash, packetId, p).events
    ensures var g := NextGenerate(w, hash, packetId, p);
            g.job.Some? ==>
              var s := NextSeal(g, sealed);
              && g.events <= s.events && s.queue == w.queue && s.routed == w.routed && s.table == w.table && s.generated == g.generated
              && (s.job.Some? <==> sealed)
              && (sealed ==> s.job == Some(Job(hash, packetId, p, true, FirstLookup)) && Open(s.events, hash))
  {
    hide States, ReceiptOk, Normal, RowFor, IdsIncrease, KeysDistinct, FromGenerated;
    var call := Enqueue(hash, packetId, p);
    var g := NextGenerate(w, hash, packetId, p);
    GenerateKeeps(w, hash, packetId, p);
    WriteGrows(w.events, call);
    if g.job.Some? {
      EnqueueTakes(w.events, call);
      var m, n := States(w.events).value, States(g.events).value;
      assert ReceiptOk(n[hash], |g.events|) && n[hash].predictionSha == PredictionSha(p) by { ReceiptSha(g.events, hash); }
      forall h | h in m ensures m[h].prediction != Some(p) { assert Backed(m[h], w.table, w.generated); }
    }
  }

  lemma OneEventGrows(before: seq<Event>, after: seq<Event>, hash: string)
    requires OneEvent(before, after, hash)
    ensures before <= after
  {
  }

  lemma ReceiptSha(events: seq<Event>, hash: string)
    requires ReceiptsOk(events) && hash in States(events).value
    ensures var s := States(events).value[hash];
            ReceiptOk(s, |events|) && s.prediction.Some? && s.predictionSha == PredictionSha(s.prediction.value)
  {
  }

  lemma NoPasses(events: seq<Event>)
    requires States(events).Ok?
    ensures RetryRun(events, [], RETRY_LIMIT) && events == events + Joined([])
  {
  }

  lemma TouchedOn(a: seq<Event>, b: seq<Event>, page: seq<string>)
    requires a <= b && forall h <- page :: Touched(a, h)
    ensures forall h <- page :: Touched(b, h)
  {
    forall h | h in page ensures Touched(b, h) {
      var e :| e in a && e.sourceHash == h;
      assert e in b;
    }
  }

  lemma ReceiptsFold(w: World)
    requires WorldOk(w)
    ensures States(w.events).Ok?
  {
  }

  lemma RoutedHasRow(w: World, before: seq<Prediction>, p: Prediction)
    requires WorldOk(w) && w.routed == before + [p]
    ensures exists row <- w.table :: Holds(row, p)
  {
    hide States;
    WorldOkMeans(w);
    assert w.routed[|before|] == p;
    assert p in w.routed;
  }

  lemma StartFacts(w: World) returns (page: seq<string>)
    requires WorldOk(w) && Permitted(w, StartRetry)
    ensures ReceiptsOk(w.events) && page == PendingPage(w.events, RETRY_LIMIT) && |page| <= RETRY_LIMIT && NoRepeats(page)
    ensures var s := NextStartRetry(w);
            s == w.(queue := s.queue) && Progress(w.events, w.events, s.queue, page, 0)
  {
    hide States, ReceiptOk, PendingPage, ReceiptsBacked, RoutedOk, QueueOk, IdsIncrease, KeysDistinct, FromGenerated;
    page := PendingPage(w.events, RETRY_LIMIT);
    PendingPageIsOldest(w.events, RETRY_LIMIT);
    forall i | 0 <= i < |page| ensures page[i] in UnresolvedSet(States(w.events).value) { assert page[i] in page; }
  }

  lemma NextRetryFacts(w: World, resealed: bool)
    requires WorldOk(w) && Permitted(w, NextRetry(resealed)) && w.queue[0].prediction.Some? && Open(w.events, w.queue[0].hash)
    ensures var n, e := NextNextRetry(w, resealed), w.queue[0];
            && n.queue == w.queue[1..] && n.routed == w.routed && n.generated == w.generated && n.table == w.table
            && (if resealed then n.events == w.events && n.job == Some(Job(e.hash, "", e.prediction.value, false, FirstLookup))
                else n.job.None? && OneEvent(w.events, n.events, e.hash) && !Persisted(n.events, e.hash))
  {
    hide States, ReceiptOk;
    if !resealed {
      OutcomeIsOneEvent(w.events, MarkFailed(w.queue[0].hash, "RETRY"));
    }
  }

  /** After k attempts: the queue is the rest of the page, the rest is unresolved, and the first k receipts were touched. */
  ghost predicate Progress(start: seq<Event>, events: seq<Event>, queue: seq<Entry>, page: seq<string>, k: nat) {
    && start <= events && k + |queue| == |page| && NoRepeats(page)
    && (forall i :: 0 <= i < |queue| ==> queue[i].hash == page[k + i] && queue[i].prediction.Some?)
    && (forall i :: k <= i < |page| ==> Open(events, page[i]))
    && (forall i :: 0 <= i < k ==> Touched(events[|start|..], page[i]))
  }

  lemma HeadIsOpen(start: seq<Event>, events: seq<Event>, queue: seq<Entry>, page: seq<string>, k: nat)
    requires Progress(start, events, queue, page, k) && queue != []
    ensures k < |page| && NoRepeats(page) && queue[0].hash == page[k] && queue[0].prediction.Some? && Open(events, queue[0].hash)
  {
    hide Open;
  }

  lemma PassEnds(start: seq<Event>, events: seq<Event>, page: seq<string>, k: nat)
    requires Progress(start, events, [], page, k)
    ensures k == |page| && start <= events && forall h <- page :: Touched(events[|start|..], h)
  {
    hide Open, Touched;
  }

  /** The receipts among the first k of the page that are persisted. */
  ghost function Done(events: seq<Event>, page: seq<string>, k: nat): set<nat>
    requires k <= |page|
  {
    set i: nat | i < k && Persisted(events, page[i])
  }

  lemma DoneMoves(before: seq<Event>, after: seq<Event>, page: seq<string>, k: nat, ok: bool)
    requires NoRepeats(page) && k < |page| && OneEvent(before, after, page[k]) && States(after).Ok?
    requires ok <==> Persisted(after, page[k])
    ensures |Done(after, page, k + 1)| == |Done(before, page, k)| + (if ok then 1 else 0)
  {
    hide States;
    assert after == before + [after[|before|]];
    PrefixFolds(before, after[|before|]);
    StatesSnoc(before, after[|before|]);
    assert forall i :: 0 <= i < k ==> page[i] != page[k];
    assert Done(after, page, k + 1) == Done(before, page, k) + (if ok then {k} else {});
  }

  lemma OpenIsNotPersisted(events: seq<Event>, hash: string)
    ensures Open(events, hash) ==> !Persisted(events, hash)
  {
  }

  lemma PageMoves(start: seq<Event>, before: seq<Event>, after: seq<Event>, queue: seq<Entry>, page: seq<string>, k: nat)
    requires Progress(start, before, queue, page, k) && queue != [] && OneEvent(before, after, queue[0].hash)
    requires States(after).Ok?
    ensures Progress(start, after, queue[1..], page, k + 1)
  {
    hide States;
    var e := after[|before|];
    assert after == before + [e];
    StatesSnoc(before, e);
    assert after[|start|..] == before[|start|..] + [e];
    forall i | 0 <= i < k ensures Touched(after[|start|..], page[i]) {
      assert Touched(before[|start|..], page[i]);
      var x :| x in before[|start|..] && x.sourceHash == page[i];
      assert x in after[|start|..];
    }
    assert e in after[|start|..];
  }
}
