/** The incremental exact row count (senecio_polymarket/backend/supabase_client.py). */
module ExactCount {
  import opened Prelude

  ghost predicate Increasing(ids: seq<int>) {
    (forall i :: 0 <= i < |ids| ==> ids[i] > 0) && forall i, j :: 0 <= i < j < |ids| ==> ids[i] < ids[j]
  }

  /** Number of rows with an id up to the cursor. */
  function UpTo(ids: seq<int>, cursor: int): (n: nat)
    ensures n <= |ids|
  {
    if ids == [] then 0 else (if ids[0] <= cursor then 1 else 0) + UpTo(ids[1..], cursor)
  }

  function AllAbove(ids: seq<int>, cursor: int): seq<int> {
    if ids == [] then [] else (if ids[0] > cursor then [ids[0]] else []) + AllAbove(ids[1..], cursor)
  }

  /** `id=gt.<cursor>&order=id.asc&limit=<limit>`. */
  function PageAbove(ids: seq<int>, cursor: int, limit: nat): seq<int> {
    var all := AllAbove(ids, cursor);
    all[..Min(limit, |all|)]
  }

  lemma {:induction false} NoneUpTo(ids: seq<int>, cursor: int)
    requires forall i :: 0 <= i < |ids| ==> ids[i] > cursor
    ensures UpTo(ids, cursor) == 0 && AllAbove(ids, cursor) == ids
  {
    if ids != [] { NoneUpTo(ids[1..], cursor); }
  }

  lemma TailIncreases(ids: seq<int>)
    requires Increasing(ids) && ids != []
    ensures Increasing(ids[1..]) && forall i :: 0 < i < |ids| ==> ids[0] < ids[i]
  {
  }

  /** With increasing ids the rows up to a cursor are a prefix of the table. */
  lemma {:induction false} CursorCuts(ids: seq<int>, cursor: int)
    requires Increasing(ids)
    ensures AllAbove(ids, cursor) == ids[UpTo(ids, cursor)..]
    ensures forall i :: 0 <= i < UpTo(ids, cursor) ==> ids[i] <= cursor
    ensures forall i :: UpTo(ids, cursor) <= i < |ids| ==> ids[i] > cursor
  {
    hide Increasing;
    if ids != [] {
      TailIncreases(ids);
      if ids[0] <= cursor {
        CursorCuts(ids[1..], cursor);
        CutOn(ids, cursor, UpTo(ids[1..], cursor));
      } else {
        NoneUpTo(ids, cursor);
        assert ids[0..] == ids;
      }
    }
  }

  lemma CutOn(ids: seq<int>, cursor: int, n: nat)
    requires ids != [] && n < |ids| && ids[0] <= cursor
    requires (forall i :: 0 <= i < n ==> ids[1..][i] <= cursor) && (forall i :: n <= i < |ids| - 1 ==> ids[1..][i] > cursor)
    ensures ids[1..][n..] == ids[n + 1..]
    ensures (forall i :: 0 <= i < n + 1 ==> ids[i] <= cursor) && (forall i :: n + 1 <= i < |ids| ==> ids[i] > cursor)
  {
    forall i | 0 <= i < n + 1 ensures ids[i] <= cursor { if i > 0 { assert ids[1..][i - 1] <= cursor; } }
    forall i | n + 1 <= i < |ids| ensures ids[i] > cursor { assert ids[1..][i - 1] > cursor; }
  }

  lemma CutAt(ids: seq<int>, cursor: int, k: nat)
    requires Increasing(ids) && k <= |ids|
    requires (forall i :: 0 <= i < k ==> ids[i] <= cursor) && (forall i :: k <= i < |ids| ==> ids[i] > cursor)
    ensures UpTo(ids, cursor) == k
  {
    CursorCuts(ids, cursor);
    var n := UpTo(ids, cursor);
    assert n < |ids| ==> ids[n] > cursor;
    assert k < |ids| ==> ids[k] > cursor;
  }

  /** Rows appended later have larger ids, so they do not count below an old cursor. */
  lemma LaterRowsAreAbove(ids: seq<int>, more: seq<int>, cursor: int)
    requires Increasing(ids + more) && (cursor == 0 || cursor in ids)
    ensures Increasing(ids) && UpTo(ids + more, cursor) == UpTo(ids, cursor)
  {
    assert forall i :: 0 <= i < |ids| ==> ids[i] == (ids + more)[i];
    CursorCuts(ids, cursor);
    CutAt(ids + more, cursor, UpTo(ids, cursor));
  }

  function Flatten(arrivals: seq<seq<int>>): seq<int> {
    if arrivals == [] then [] else arrivals[0] + Flatten(arrivals[1..])
  }

  /** The table behind the gateway. `arrivals[k]` is appended just before the k-th coming request is answered; a request
      beyond the last is not answered. */
  class Gateway {
    var ids: seq<int>
    var arrivals: seq<seq<int>>

    ghost predicate Valid()
      reads this
    {
      Increasing(ids + Flatten(arrivals))
    }

    /** One request for a page of ids. */
    method RequestPage(cursor: int, limit: nat) returns (page: Option<seq<int>>)
      requires Valid()
      modifies this
      ensures Valid() && old(ids) <= ids && Increasing(ids)
      ensures page.None? <==> old(arrivals) == []
      ensures page.None? ==> ids == old(ids) && arrivals == []
      ensures page.Some? ==> page.value == PageAbove(ids, cursor, limit) && |page.value| <= limit
    {
      assert Increasing(ids) by { PrefixIncreases(ids, Flatten(arrivals)); }
      if arrivals == [] { return None; }
      assert ids + Flatten(arrivals) == (ids + arrivals[0]) + Flatten(arrivals[1..]);
      PrefixIncreases(ids + arrivals[0], Flatten(arrivals[1..]));
      ids, arrivals := ids + arrivals[0], arrivals[1..];
      return Some(PageAbove(ids, cursor, limit));
    }

    /** The request for the largest id, 0 when there is none. */
    method RequestTail() returns (tail: Option<int>)
      requires Valid()
      modifies this
      ensures Valid() && old(ids) <= ids && Increasing(ids)
      ensures tail.None? ==> ids == old(ids)
      ensures tail.Some? ==> tail.value == Tail(ids)
    {
      assert Increasing(ids) by { PrefixIncreases(ids, Flatten(arrivals)); }
      if arrivals == [] { return None; }
      assert ids + Flatten(arrivals) == (ids + arrivals[0]) + Flatten(arrivals[1..]);
      PrefixIncreases(ids + arrivals[0], Flatten(arrivals[1..]));
      ids, arrivals := ids + arrivals[0], arrivals[1..];
      return Some(Tail(ids));
    }
  }

  function Tail(ids: seq<int>): int { if ids == [] then 0 else ids[|ids| - 1] }

  lemma PrefixIncreases(ids: seq<int>, more: seq<int>)
    requires Increasing(ids + more)
    ensures Increasing(ids)
  {
    assert forall i :: 0 <= i < |ids| ==> ids[i] == (ids + more)[i];
  }

  datatype CountError = RequestFailed | PageCapHit | NonMonotonic | SaveFailed | StateMissing | Race

  datatype Counted = Counted(count: int, cursor: int)

  /** The count agrees with the table: it is the number of rows up to a cursor that is a row's id, or 0 for none. */
  ghost predicate Agrees(c: Counted, ids: seq<int>) {
    c.count == UpTo(ids, c.cursor) && (c.cursor == 0 || c.cursor in ids)
  }

  lemma AgreementLasts(c: Counted, ids: seq<int>, later: seq<int>)
    requires ids <= later && Increasing(later) && Agrees(c, ids)
    ensures Agrees(c, later)
  {
    var more := later[|ids|..];
    assert later == ids + more;
    LaterRowsAreAbove(ids, more, c.cursor);
    if c.cursor != 0 {
      var i :| 0 <= i < |ids| && ids[i] == c.cursor;
      assert later[i] == c.cursor;
    }
  }

  predicate Ascends(page: seq<int>, cursor: int) {
    (page != [] ==> page[0] > cursor) && forall i :: 0 < i < |page| ==> page[i] > page[i - 1]
  }

  /** Every id is above the cursor and below all that follow it. */
  lemma AscendsIff(page: seq<int>, cursor: int)
    ensures Ascends(page, cursor) <==>
              (forall i :: 0 <= i < |page| ==> page[i] > cursor) && forall i, j :: 0 <= i < j < |page| ==> page[i] < page[j]
  {
    if Ascends(page, cursor) {
      forall i, j | 0 <= i < j < |page| ensures page[i] < page[j] { AscendsFar(page, cursor, i, j); }
    }
  }

  lemma {:induction false} AscendsFar(page: seq<int>, cursor: int, i: nat, j: nat)
    requires Ascends(page, cursor) && i < j < |page|
    ensures page[i] < page[j]
  {
    if i + 1 < j { AscendsFar(page, cursor, i, j - 1); }
  }

  /** The check every page passes through: ids must rise from the cursor on. */
  method CheckPage(page: seq<int>, cursor: int) returns (last: Option<int>)
    ensures last.Some? <==> Ascends(page, cursor)
    ensures last.Some? ==> last.value == if page == [] then cursor else page[|page| - 1]
  {
    var i, current := 0, cursor;
    while i < |page|
      invariant i <= |page| && current == if i == 0 then cursor else page[i - 1]
      invariant Ascends(page[..i], cursor)
    {
      if page[i] <= current { return None; }
      current, i := page[i], i + 1;
    }
    assert page[..|page|] == page;
    return Some(current);
  }

  /** A page read above a cursor adds its length to the count, up to its last row. */
  lemma PageAdds(c: Counted, ids: seq<int>, limit: nat)
    requires Increasing(ids) && Agrees(c, ids) && limit >= 1
    ensures var page := PageAbove(ids, c.cursor, limit);
            && Ascends(page, c.cursor)
            && Agrees(Counted(c.count + |page|, if page == [] then c.cursor else page[|page| - 1]), ids)
            && (|page| < limit ==> c.count + |page| == |ids|)
  {
    hide UpTo, AllAbove;
    CursorCuts(ids, c.cursor);
    var page := PageAbove(ids, c.cursor, limit);
    var k := c.count + |page|;
    assert forall i :: 0 <= i < |page| ==> page[i] == ids[c.count + i];
    if page != [] {
      assert page[|page| - 1] == ids[k - 1];
      CutAt(ids, page[|page| - 1], k);
    }
  }

  // ---- The counter ----

  datatype Durable = Missing | Broken | Saved(value: Counted)

  /** What is in memory and what is on disk both agree with the table. */
  ghost predicate StoredAgree(state: Option<Counted>, durable: Durable, ids: seq<int>) {
    (state.Some? ==> Agrees(state.value, ids)) && (durable.Saved? ==> Agrees(durable.value, ids))
  }

  lemma StoredLast(state: Option<Counted>, durable: Durable, ids: seq<int>, later: seq<int>)
    requires ids <= later && Increasing(later) && StoredAgree(state, durable, ids)
    ensures StoredAgree(state, durable, later)
  {
    hide Agrees;
    if state.Some? { AgreementLasts(state.value, ids, later); }
    if durable.Saved? { AgreementLasts(durable.value, ids, later); }
  }

  class ExactCounter {
    const gateway: Gateway
    const pageSize: nat
    const maxPages: nat
    const bootstrapPageSize: nat
    const bootstrapMaxPages: nat
    var state: Option<Counted>
    var durable: Durable

    ghost predicate Valid()
      reads this, gateway
    {
      && gateway.Valid() && Increasing(gateway.ids) && pageSize >= 1 && bootstrapPageSize >= 1
      && StoredAgree(state, durable, gateway.ids)
    }

    constructor (gateway: Gateway, durable: Durable, pageSize: nat, maxPages: nat, bootstrapPageSize: nat, bootstrapMaxPages: nat)
      requires gateway.Valid() && Increasing(gateway.ids) && pageSize >= 1 && bootstrapPageSize >= 1
      requires durable.Saved? ==> Agrees(durable.value, gateway.ids)
      ensures Valid() && this.gateway == gateway && this.durable == durable && state.None?
      ensures this.pageSize == pageSize && this.maxPages == maxPages
      ensures this.bootstrapPageSize == bootstrapPageSize && this.bootstrapMaxPages == bootstrapMaxPages
    {
      this.gateway, this.durable, this.state := gateway, durable, None;
      this.pageSize, this.maxPages := pageSize, maxPages;
      this.bootstrapPageSize, this.bootstrapMaxPages := bootstrapPageSize, bootstrapMaxPages;
    }

    /** `_global_id_delta`: at most `maxPages` pages above the cursor; returns how many rows and the last of them. */
    method Delta(from: Counted, size: nat, pages: nat) returns (r: Result<Counted, CountError>)
      requires Valid() && Agrees(from, gateway.ids) && size >= 1
      modifies gateway
      ensures Valid() && old(gateway.ids) <= gateway.ids
      ensures r.Ok? ==> Agrees(r.value, gateway.ids) && r.value.count == |gateway.ids|
      ensures r.Err? ==> r.error == RequestFailed || r.error == PageCapHit
      ensures r == Err(RequestFailed) ==> gateway.arrivals == []
      ensures r == Err(PageCapHit) ==> |gateway.ids| - from.count >= pages * size
    {
      hide Agrees, PageAbove, Increasing, StoredAgree, Ascends;
      CountBound(from, gateway.ids);
      var now, n := from, 0;
      ghost var start := gateway.ids;
      while n < pages
        invariant n <= pages && Valid() && start <= gateway.ids && state == old(state) && durable == old(durable)
        invariant Agrees(now, gateway.ids) && now.count == from.count + n * size && now.count <= |gateway.ids|
      {
        ghost var before := gateway.ids;
        var page := gateway.RequestPage(now.cursor, size);
        AgreementLasts(now, before, gateway.ids);
        StoredLast(state, durable, before, gateway.ids);
        if page.None? { return Err(RequestFailed); }
        PageAdds(now, gateway.ids, size);
        var last := CheckPage(page.value, now.cursor);
        if last.None? { return Err(NonMonotonic); }
        now := Counted(now.count + |page.value|, last.value);
        CountBound(now, gateway.ids);
        if |page.value| < size { return Ok(now); }
        assert n * size + size == (n + 1) * size;
        n := n + 1;
      }
      return Err(PageCapHit);
    }

    /** `_bootstrap_exact_count_from_ids`: a full traversal between two equal looks at the tail. */
    method Bootstrap() returns (r: Result<Counted, CountError>)
      requires Valid()
      modifies gateway
      ensures Valid() && old(gateway.ids) <= gateway.ids
      ensures r.Ok? ==> Agrees(r.value, gateway.ids) && r.value.count == |gateway.ids|
    {
      hide Agrees, StoredAgree, Increasing;
      ghost var start := gateway.ids;
      var before := gateway.RequestTail();
      StoredLast(state, durable, start, gateway.ids);
      if before.None? { return Err(RequestFailed); }
      NothingCounted(gateway.ids);
      r := Delta(Counted(0, 0), bootstrapPageSize, bootstrapMaxPages);
      if r.Err? { return; }
      ghost var middle := gateway.ids;
      var after := gateway.RequestTail();
      StoredLast(state, durable, middle, gateway.ids);
      if after.None? { return Err(RequestFailed); }
      if before != after || after.value != r.value.cursor { return Err(Race); }
      AgreementLasts(r.value, middle, gateway.ids);
      SameTailSameTable(middle, gateway.ids, r.value);
    }

    /** `count_predictions_exact`. */
    method CountExact(writable: bool, bootstrapAllowed: bool, firstSave: bool, secondSave: bool) returns (r: Result<int, CountError>)
      requires Valid()
      modifies this, gateway
      ensures Valid() && old(gateway.ids) <= gateway.ids
      ensures r.Ok? ==> r.value == |gateway.ids|
      ensures r.Ok? ==> state.Some? && state.value.count == |gateway.ids| && (writable ==> durable == Saved(state.value))
      ensures !writable ==> durable == old(durable)
      ensures old(state).Some? && secondSave && r.Err? ==> r.error == RequestFailed || r.error == PageCapHit
      ensures old(state).Some? && r == Err(RequestFailed) ==> gateway.arrivals == []
      ensures old(state).Some? && r == Err(PageCapHit) ==> |gateway.ids| - old(state).value.count >= maxPages * pageSize
    {
      hide Agrees, Increasing;
      if state.None? {
        match durable {
          case Saved(value) => state := Some(value);
          case Broken => return Err(StateMissing);
          case Missing =>
            if !writable || !bootstrapAllowed { return Err(StateMissing); }
            var full := Bootstrap();
            if full.Err? { return Err(full.error); }
            if !firstSave { return Err(SaveFailed); }
            durable, state := Saved(full.value), Some(full.value);
        }
      }
      var now := Delta(state.value, pageSize, maxPages);
      if now.Err? { return Err(now.error); }
      state := Some(now.value);
      if writable {
        if !secondSave { return Err(SaveFailed); }
        durable := Saved(now.value);
      }
      return Ok(now.value.count);
    }
  }

  lemma CountBound(c: Counted, ids: seq<int>)
    requires Agrees(c, ids)
    ensures c.count <= |ids|
  {
  }

  lemma NothingCounted(ids: seq<int>)
    requires Increasing(ids)
    ensures Agrees(Counted(0, 0), ids)
  {
    NoneUpTo(ids, 0);
  }

  /** With increasing ids an unchanged tail means nothing was appended. */
  lemma SameTailSameTable(ids: seq<int>, later: seq<int>, c: Counted)
    requires ids <= later && Increasing(later) && Agrees(c, ids) && c.count == |ids| && Tail(later) == c.cursor
    ensures later == ids
  {
    if c.cursor != 0 {
      var i :| 0 <= i < |ids| && ids[i] == c.cursor;
      assert later[i] == c.cursor;
    }
    assert later[..|ids|] == ids;
    assert |later| > 0 ==> later[|later| - 1] > 0;
  }
}
