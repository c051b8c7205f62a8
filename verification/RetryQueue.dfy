/** The retry queue of unresolved receipts: what a page is, and that no receipt starves
    (senecio_polymarket/backend/prediction_persistence.py and oracle_runner.py). */
module RetryQueue {
  import opened Prelude
  import opened Sorting
  import opened PredictionPersistence

  /** What a page of the queue is: as many unresolved receipts as allowed, none younger than one left out. */
  ghost predicate OldestUnresolved(m: map<string, State>, limit: int, page: seq<string>) {
    && NoRepeats(page) && (forall h <- page :: h in UnresolvedSet(m))
    && |page| == Min(limit, |UnresolvedSet(m)|)
    && (forall h <- page, g <- UnresolvedSet(m) | g !in page :: m[h].lastIndex <= m[g].lastIndex)
  }

  lemma PendingKeyLeIsTotal()
    ensures TotalPreorder(PendingKeyLe)
  {
    StringLeIsTotalOrder();
    assert TotalPreorder(StringLe);
    forall a: PendingKey, b: PendingKey ensures PendingKeyLe(a, b) || PendingKeyLe(b, a) {
      assert StringLe(a.hash, b.hash) || StringLe(b.hash, a.hash);
    }
    forall a: PendingKey, b: PendingKey, c: PendingKey | PendingKeyLe(a, b) && PendingKeyLe(b, c) ensures PendingKeyLe(a, c) {
      if StringLe(a.hash, b.hash) && StringLe(b.hash, c.hash) { assert StringLe(a.hash, c.hash); }
    }
  }

  lemma {:induction false} FirstSeenIsKeys(events: seq<Event>)
    requires States(events).Ok?
    ensures NoRepeats(FirstSeen(events)) && forall h :: h in FirstSeen(events) <==> h in States(events).value
  {
    if events != [] { FirstSeenIsKeys(events[..|events| - 1]); }
  }

  lemma {:induction false} PendingKeysAre(m: map<string, State>, order: seq<string>)
    requires NoRepeats(order)
    ensures var ks := PendingKeys(m, order);
            && (forall h :: h in HashesOf(ks) <==> h in order && h in UnresolvedSet(m))
            && (forall k <- ks :: k.hash in m && k.lastIndex == m[k.hash].lastIndex)
            && NoRepeats(HashesOf(ks))
  {
    hide Unresolved;
    if order != [] {
      PendingKeysAre(m, order[1..]);
      var ks, rest := PendingKeys(m, order), PendingKeys(m, order[1..]);
      assert order[0] !in order[1..];
      assert order == [order[0]] + order[1..];
      if order[0] in UnresolvedSet(m) {
        assert ks == [ks[0]] + rest && ks[0].hash == order[0];
        assert HashesOf(ks) == [order[0]] + HashesOf(rest);
        assert order[0] !in HashesOf(rest);
      } else {
        assert ks == rest;
      }
    }
  }

  lemma HashesPermute(a: seq<PendingKey>, b: seq<PendingKey>)
    requires multiset(a) == multiset(b) && NoRepeats(HashesOf(a))
    ensures NoRepeats(HashesOf(b))
  {
    forall i, j | 0 <= i < j < |a| ensures a[i] != a[j] { assert HashesOf(a)[i] != HashesOf(a)[j]; }
    PermutationNoRepeats(a, b);
    SameMultisetSameMembers(a, b);
    forall i, j | 0 <= i < j < |b| ensures HashesOf(b)[i] != HashesOf(b)[j] {
      assert b[i] in a && b[j] in a;
      var x :| 0 <= x < |a| && a[x] == b[i];
      var y :| 0 <= y < |a| && a[y] == b[j];
      assert x != y;
      assert HashesOf(a)[x] != HashesOf(a)[y];
    }
  }

  lemma SortedKeysCover(m: map<string, State>, unsorted: seq<PendingKey>, keys: seq<PendingKey>)
    requires multiset(keys) == multiset(unsorted)
    requires forall h :: h in HashesOf(unsorted) <==> h in UnresolvedSet(m)
    ensures forall h :: h in HashesOf(keys) <==> h in UnresolvedSet(m)
  {
    SameMultisetSameMembers(keys, unsorted);
    forall h ensures h in HashesOf(keys) <==> h in HashesOf(unsorted) {
      SameHashes(keys, unsorted, h);
      SameHashes(unsorted, keys, h);
    }
  }

  lemma SameHashes(a: seq<PendingKey>, b: seq<PendingKey>, h: string)
    requires forall k <- a :: k in b
    ensures h in HashesOf(a) ==> h in HashesOf(b)
  {
    if h in HashesOf(a) {
      var i :| 0 <= i < |a| && HashesOf(a)[i] == h;
      assert a[i] in a;
      var j :| 0 <= j < |b| && b[j] == a[i];
      assert HashesOf(b)[j] == h;
    }
  }

  lemma FirstKeysAreOldest(m: map<string, State>, keys: seq<PendingKey>, n: nat)
    requires n <= |keys| && Sorted(keys, PendingKeyLe) && NoRepeats(HashesOf(keys))
    requires forall h :: h in HashesOf(keys) <==> h in UnresolvedSet(m)
    requires forall k <- keys :: k.hash in m && k.lastIndex == m[k.hash].lastIndex
    ensures NoRepeats(HashesOf(keys[..n])) && forall h <- HashesOf(keys[..n]) :: h in UnresolvedSet(m)
    ensures forall h <- HashesOf(keys[..n]), g <- UnresolvedSet(m) | g !in HashesOf(keys[..n]) :: m[h].lastIndex <= m[g].lastIndex
  {
    var all, page := HashesOf(keys), HashesOf(keys[..n]);
    assert page == all[..n];
    forall k | 0 <= k < n ensures all[k] in page { assert page[k] == all[k]; }
    forall h | h in page ensures h in all {
      var i :| 0 <= i < n && page[i] == h;
      assert all[i] == h;
    }
    forall h, g | h in page && g in UnresolvedSet(m) && g !in page ensures m[h].lastIndex <= m[g].lastIndex {
      var i :| 0 <= i < n && page[i] == h;
      var j :| 0 <= j < |all| && all[j] == g;
      assert j >= n;
      assert PendingKeyLe(keys[i], keys[j]);
      assert keys[i] in keys && keys[j] in keys;
    }
  }

  /** The page that `pending` returns is the oldest unresolved receipts. */
  lemma PendingPageIsOldest(events: seq<Event>, limit: int)
    requires limit >= 1 && States(events).Ok?
    ensures OldestUnresolved(States(events).value, limit, PendingPage(events, limit))
  {
    hide PendingKeys, FirstSeen, PendingKeyLe, States, Sort;
    var m := States(events).value;
    var unsorted := PendingKeys(m, FirstSeen(events));
    var keys := Sort(unsorted, PendingKeyLe);
    FirstSeenIsKeys(events);
    PendingKeysAre(m, FirstSeen(events));
    PendingKeyLeIsTotal();
    SortSorted(unsorted, PendingKeyLe);
    HashesPermute(unsorted, keys);
    SortedKeysCover(m, unsorted, keys);
    SameMultisetSameMembers(keys, unsorted);
    FirstKeysAreOldest(m, keys, Min(limit, |keys|));
    NoRepeatsSize(HashesOf(keys), UnresolvedSet(m));
  }

  // ---- No starvation ----

  /** Unresolved receipts touched less recently than the given one. */
  function Ahead(m: map<string, State>, hash: string): set<string>
    requires hash in m
  {
    set h | h in m && Unresolved(m[h]) && m[h].lastIndex < m[hash].lastIndex
  }

  ghost predicate DistinctIndexes(m: map<string, State>) {
    forall a <- m, b <- m :: m[a].lastIndex == m[b].lastIndex ==> a == b
  }

  lemma {:induction false} IndexesDistinct(events: seq<Event>)
    requires States(events).Ok?
    ensures DistinctIndexes(States(events).value) && forall h <- States(events).value :: 1 <= States(events).value[h].lastIndex <= |events|
  {
    if events != [] {
      IndexesDistinct(events[..|events| - 1]);
    }
  }

  predicate Touched(extra: seq<Event>, hash: string) { exists e <- extra :: e.sourceHash == hash }

  lemma AdvanceStamps(prior: Option<State>, e: Event, index: nat)
    ensures Advance(prior, e, index).Ok? ==> Advance(prior, e, index).value.lastIndex == index
  {
  }

  /** Later events: an untouched receipt keeps its place, a touched one moves behind every earlier index. */
  lemma {:induction false} LaterIndexes(events: seq<Event>, extra: seq<Event>)
    requires States(events + extra).Ok?
    ensures States(events).Ok?
    ensures var m, n := States(events).value, States(events + extra).value;
            && (forall h <- m :: h in n)
            && (forall h <- n :: if Touched(extra, h) then n[h].lastIndex > |events| else h in m && n[h] == m[h])
  {
    hide Advance, States;
    if extra == [] {
      assert events + extra == events;
    } else {
      var init, e := extra[..|extra| - 1], extra[|extra| - 1];
      var all := events + extra;
      assert all[..|all| - 1] == events + init;
      assert events + extra == (events + init) + [e];
      PrefixFolds(events + init, e);
      LaterIndexes(events, init);
      StatesSnoc(events + init, e);
      AdvanceStamps(Lookup(States(events + init).value, e.sourceHash), e, |events + init| + 1);
      assert extra == init + [e];
      assert forall h :: Touched(extra, h) <==> Touched(init, h) || e.sourceHash == h;
    }
  }

  /** A retry pass that touches its whole page brings every receipt left out forward by a full page. */
  lemma PassMovesForward(events: seq<Event>, extra: seq<Event>, limit: int, page: seq<string>, hash: string)
    requires limit >= 1 && States(events + extra).Ok? && States(events).Ok?
    requires hash in UnresolvedSet(States(events).value) && OldestUnresolved(States(events).value, limit, page)
    requires hash !in page && !Touched(extra, hash) && forall h <- page :: Touched(extra, h)
    ensures hash in UnresolvedSet(States(events + extra).value)
    ensures |Ahead(States(events + extra).value, hash)| + limit <= |Ahead(States(events).value, hash)|
  {
    LaterIndexes(events, extra);
    IndexesDistinct(events);
    var m, n := States(events).value, States(events + extra).value;
    var ahead, ahead', pageSet := Ahead(m, hash), Ahead(n, hash), set h | h in page;
    assert ahead' <= ahead - pageSet;
    assert pageSet <= ahead;
    NoRepeatsSize(page, pageSet);
    assert |page| == limit by {
      if |page| != limit {
        assert pageSet <= UnresolvedSet(m) && |pageSet| == |UnresolvedSet(m)|;
        SubsetOfSameSize(pageSet, UnresolvedSet(m));
        assert false;
      }
    }
    SubsetSize(ahead', ahead - pageSet);
  }

  /** A run of retry passes: `passes[i]` is everything written from the start of pass i to the start of the next, by the
      pass itself, which touches its whole page, and by anyone else. */
  ghost predicate RetryRun(events: seq<Event>, passes: seq<seq<Event>>, limit: int)
    requires limit >= 1
    decreases |passes|
  {
    && States(events).Ok?
    && (passes == [] ||
        (States(events + passes[0]).Ok? && (forall h <- PendingPage(events, limit) :: Touched(passes[0], h))
         && RetryRun(events + passes[0], passes[1..], limit)))
  }

  predicate AttemptedIn(passes: seq<seq<Event>>, hash: string) { exists p <- passes :: Touched(p, hash) }

  /** No starvation: an unresolved receipt with k older ones ahead is attempted within n passes as soon as
      k < n * limit, that is within floor(k / limit) + 1 passes, whatever else is written meanwhile. */
  lemma {:induction false} NoStarvation(events: seq<Event>, passes: seq<seq<Event>>, limit: int, hash: string)
    requires limit >= 1 && RetryRun(events, passes, limit)
    requires hash in UnresolvedSet(States(events).value)
    requires |Ahead(States(events).value, hash)| < |passes| * limit
    ensures AttemptedIn(passes, hash)
    decreases |passes|
  {
    hide States, PendingPage;
    var page := PendingPage(events, limit);
    PendingPageIsOldest(events, limit);
    assert passes != [];
    assert passes[0] in passes;
    if hash !in page && !Touched(passes[0], hash) {
      PassMovesForward(events, passes[0], limit, page, hash);
      assert |passes| * limit == (|passes| - 1) * limit + limit;
      NoStarvation(events + passes[0], passes[1..], limit, hash);
      var p :| p in passes[1..] && Touched(p, hash);
      assert p in passes;
    }
  }

  /** Everything a run of passes wrote. */
  function Joined(passes: seq<seq<Event>>): seq<Event> { if passes == [] then [] else passes[0] + Joined(passes[1..]) }

  /** A run goes on with one more pass. */
  lemma {:induction false} RetryRunGoesOn(events: seq<Event>, passes: seq<seq<Event>>, extra: seq<Event>, limit: int)
    requires limit >= 1 && RetryRun(events, passes, limit)
    requires States(events + Joined(passes)).Ok? && States(events + Joined(passes) + extra).Ok?
    requires forall h <- PendingPage(events + Joined(passes), limit) :: Touched(extra, h)
    ensures RetryRun(events, passes + [extra], limit) && Joined(passes + [extra]) == Joined(passes) + extra
    decreases |passes|
  {
    hide States, PendingPage, Touched;
    if passes == [] {
      assert events + Joined(passes) == events && [extra][1..] == [] && passes + [extra] == [extra];
    } else {
      assert events + Joined(passes) == (events + passes[0]) + Joined(passes[1..]);
      RetryRunGoesOn(events + passes[0], passes[1..], extra, limit);
      assert (passes + [extra])[0] == passes[0] && (passes + [extra])[1..] == passes[1..] + [extra];
    }
  }

  lemma {:induction false} AttemptIsWritten(passes: seq<seq<Event>>, hash: string)
    requires AttemptedIn(passes, hash)
    ensures Touched(Joined(passes), hash)
  {
    var p :| p in passes && Touched(p, hash);
    var e :| e in p && e.sourceHash == hash;
    if p != passes[0] {
      assert p in passes[1..];
      AttemptIsWritten(passes[1..], hash);
      var x :| x in Joined(passes[1..]) && x.sourceHash == hash;
      assert x in Joined(passes);
    }
  }
}
