/** Paper orders, paper state and the fill step (research/rea_engines/execution_resilience.py). */
module ExecutionResilience {
  import opened Prelude
  import opened Accounting

  datatype Side = Buy | Sell

  datatype OrderStatus = Open | PartiallyFilled | Filled

  datatype PaperOrder = PaperOrder(
    orderId: string, clientOrderId: string, side: Side, requested: real, filled: real, status: OrderStatus)
  {
    function Remaining(): real { requested - filled }
  }

  datatype FillEvent = FillEvent(
    fillId: string, orderId: string, side: Side, quantity: real, price: real, costs: Costs, timestamp: int, eventSeq: int)

  /** SHA-256 of a fill payload, taken as a free injective function. */
  datatype Fingerprint = FillSha(event: FillEvent)

  datatype PaperState = PaperState(
    sourceSha: string, configSha: string, startingCash: real, cash: real, inventory: real, basis: real, realized: real,
    fees: real, spread: real, slippage: real, turnover: real,
    lastTimestamp: Option<int>, lastEventSeq: int,
    orders: seq<PaperOrder>, fillIds: seq<string>, fingerprints: seq<(string, Fingerprint)>)

  datatype ResilienceError =
    | InvalidFillEvent | UnknownOrder | IdempotencyConflict | SequenceGap | TimestampBackwards | AlreadyFilled
    | SideDiffers | ExceedsRemaining | CashTooLow | ShortSale | CostsAboveProceeds | InvalidState
    | InvalidOrder | OrderConflict

  datatype FillApplication = FillApplication(applied: bool, duplicate: bool, status: OrderStatus, remaining: real)

  function ExpectedStatus(requested: real, filled: real): OrderStatus {
    if filled == 0.0 then Open else if filled == requested then Filled else PartiallyFilled
  }

  /** The checks of the order constructor. */
  predicate OrderOk(o: PaperOrder) {
    && o.orderId != "" && o.clientOrderId != "" && o.requested > 0.0
    && 0.0 <= o.filled <= o.requested && o.status == ExpectedStatus(o.requested, o.filled)
  }

  predicate DistinctOrders(orders: seq<PaperOrder>) {
    forall i, j :: 0 <= i < j < |orders| ==>
      orders[i].orderId != orders[j].orderId && orders[i].clientOrderId != orders[j].clientOrderId
  }

  /** The checks of the state constructor, which `replace` and `from_payload` run again. */
  predicate StateOk(s: PaperState) {
    && s.startingCash > 0.0 && s.cash >= 0.0 && s.inventory >= 0.0 && s.basis >= 0.0
    && s.fees >= 0.0 && s.spread >= 0.0 && s.slippage >= 0.0 && s.turnover >= 0.0
    && (s.inventory == 0.0 ==> s.basis == 0.0) && s.lastEventSeq >= 0
    && (forall o <- s.orders :: OrderOk(o)) && DistinctOrders(s.orders)
    && NoRepeats(s.fillIds) && (forall id <- s.fillIds :: id != "")
    && |s.fingerprints| == |s.fillIds|
    && (forall i :: 0 <= i < |s.fillIds| ==> s.fingerprints[i].0 == s.fillIds[i])
  }

  function InitialState(startingCash: real, sourceSha: string, configSha: string): PaperState {
    PaperState(sourceSha, configSha, startingCash, startingCash, 0.0, 0.0, 0.0, 0.0, 0.0, 0.0, 0.0, None, 0, [], [], [])
  }

  /** The first order with the given id. */
  function FindOrder(orders: seq<PaperOrder>, orderId: string): (r: Option<nat>)
    ensures r.Some? ==> r.value < |orders| && orders[r.value].orderId == orderId
    ensures r.None? ==> forall o <- orders :: o.orderId != orderId
  {
    if orders == [] then None
    else if orders[0].orderId == orderId then Some(0)
    else match FindOrder(orders[1..], orderId)
      case None => None
      case Some(k) => Some(k + 1)
  }

  lemma FindOrderAt(orders: seq<PaperOrder>, k: nat)
    requires k < |orders| && DistinctOrders(orders)
    ensures FindOrder(orders, orders[k].orderId) == Some(k)
  {
    assert orders[k] in orders;
    var i := FindOrder(orders, orders[k].orderId);
  }

  /** Registration: the first order sharing either id decides between replay and conflict. */
  function RegisterOrder(s: PaperState, orderId: string, clientOrderId: string, side: Side, quantity: real)
    : Result<PaperState, ResilienceError>
  {
    if quantity <= 0.0 || orderId == "" || clientOrderId == "" then Err(InvalidOrder)
    else RegisterAgainst(s, s.orders, orderId, clientOrderId, side, quantity)
  }

  function RegisterAgainst(s: PaperState, rest: seq<PaperOrder>, orderId: string, clientOrderId: string, side: Side, quantity: real)
    : Result<PaperState, ResilienceError>
  {
    if rest == [] then
      var changed := s.(orders := s.orders + [PaperOrder(orderId, clientOrderId, side, quantity, 0.0, Open)]);
      if StateOk(changed) then Ok(changed) else Err(InvalidState)
    else if rest[0].orderId == orderId && rest[0].clientOrderId == clientOrderId
            && rest[0].side == side && rest[0].requested == quantity then Ok(s)
    else if rest[0].orderId == orderId || rest[0].clientOrderId == clientOrderId then Err(OrderConflict)
    else RegisterAgainst(s, rest[1..], orderId, clientOrderId, side, quantity)
  }

  lemma {:induction false} RegisterFreshAgainst(s: PaperState, rest: seq<PaperOrder>, orderId: string,
                                                clientOrderId: string, side: Side, quantity: real)
    requires StateOk(s) && quantity > 0.0 && orderId != "" && clientOrderId != ""
    requires forall o <- s.orders :: o.orderId != orderId && o.clientOrderId != clientOrderId
    requires forall o <- rest :: o.orderId != orderId && o.clientOrderId != clientOrderId
    ensures var changed := s.(orders := s.orders + [PaperOrder(orderId, clientOrderId, side, quantity, 0.0, Open)]);
            StateOk(changed) && RegisterAgainst(s, rest, orderId, clientOrderId, side, quantity) == Ok(changed)
  {
    var changed := s.(orders := s.orders + [PaperOrder(orderId, clientOrderId, side, quantity, 0.0, Open)]);
    if rest == [] {
      assert forall i :: 0 <= i < |s.orders| ==> s.orders[i] in s.orders;
    } else {
      assert rest[0] in rest;
      RegisterFreshAgainst(s, rest[1..], orderId, clientOrderId, side, quantity);
    }
  }

  /** The order is the one asked for. */
  predicate Asked(o: PaperOrder, orderId: string, clientOrderId: string, side: Side, quantity: real) {
    o.orderId == orderId && o.clientOrderId == clientOrderId && o.side == side && o.requested == quantity
  }

  lemma {:induction false} RegisteredAgain(s: PaperState, k: nat, orderId: string, clientOrderId: string, side: Side, quantity: real)
    requires StateOk(s) && k <= |s.orders|
    requires forall i :: 0 <= i < k ==> s.orders[i].orderId != orderId && s.orders[i].clientOrderId != clientOrderId
    requires exists o <- s.orders :: o.orderId == orderId || o.clientOrderId == clientOrderId
    ensures RegisterAgainst(s, s.orders[k..], orderId, clientOrderId, side, quantity) ==
              if exists o <- s.orders :: Asked(o, orderId, clientOrderId, side, quantity) then Ok(s) else Err(OrderConflict)
    decreases |s.orders| - k
  {
    hide OrderOk;
    if k < |s.orders| {
      var o := s.orders[k];
      assert s.orders[k..][0] == o && s.orders[k..][1..] == s.orders[k + 1..];
      if o.orderId == orderId || o.clientOrderId == clientOrderId {
        forall p | p in s.orders && Asked(p, orderId, clientOrderId, side, quantity) ensures p == o {
          var i :| 0 <= i < |s.orders| && s.orders[i] == p;
        }
      } else {
        RegisteredAgain(s, k + 1, orderId, clientOrderId, side, quantity);
      }
    }
  }

  /** Registering is idempotent: with neither id in use a proper order is appended, the same order again changes nothing, and
      any other order under one of its ids is a conflict. */
  lemma RegisterIs(s: PaperState, orderId: string, clientOrderId: string, side: Side, quantity: real)
    requires StateOk(s)
    ensures RegisterOrder(s, orderId, clientOrderId, side, quantity) ==
              if |orderId| == 0 || |clientOrderId| == 0 || !(0.0 < quantity) then Err(InvalidOrder)
              else if exists o <- s.orders :: Asked(o, orderId, clientOrderId, side, quantity) then Ok(s)
              else if exists o <- s.orders :: o.orderId == orderId || o.clientOrderId == clientOrderId then Err(OrderConflict)
              else Ok(s.(orders := s.orders + [PaperOrder(orderId, clientOrderId, side, quantity, 0.0, Open)]))
  {
    hide StateOk;
    if quantity > 0.0 && orderId != "" && clientOrderId != "" {
      if exists o <- s.orders :: o.orderId == orderId || o.clientOrderId == clientOrderId {
        assert s.orders[0..] == s.orders;
        RegisteredAgain(s, 0, orderId, clientOrderId, side, quantity);
      } else {
        RegisterFreshAgainst(s, s.orders, orderId, clientOrderId, side, quantity);
      }
    }
  }

  predicate FillEventOk(e: FillEvent) {
    && e.fillId != "" && e.orderId != "" && e.quantity > 0.0 && e.price > 0.0 && e.costs.NonNegative() && e.eventSeq > 0
  }

  function FingerprintOf(prints: seq<(string, Fingerprint)>, fillId: string): Option<Fingerprint> {
    if prints == [] then None
    else if prints[|prints| - 1].0 == fillId then Some(prints[|prints| - 1].1)
    else FingerprintOf(prints[..|prints| - 1], fillId)
  }

  /** The order-level checks of a fresh fill, in the source's order. */
  function CheckFresh(s: PaperState, o: PaperOrder, e: FillEvent): Option<ResilienceError> {
    if e.eventSeq != s.lastEventSeq + 1 then Some(SequenceGap)
    else if s.lastTimestamp.Some? && e.timestamp < s.lastTimestamp.value then Some(TimestampBackwards)
    else if o.status == Filled then Some(AlreadyFilled)
    else if e.side != o.side then Some(SideDiffers)
    else if e.quantity > o.Remaining() then Some(ExceedsRemaining)
    else None
  }

  /** Cash, inventory, basis and realized profit after a fresh fill. */
  function MoveMoney(s: PaperState, e: FillEvent): Result<(real, real, real, real), ResilienceError>
    requires e.quantity > 0.0
  {
    var notional := e.quantity * e.price;
    var costs := e.costs.Total();
    if e.side == Buy then
      var debit := notional + costs;
      if debit > s.cash then Err(CashTooLow)
      else Ok((s.cash - debit, s.inventory + e.quantity, s.basis + debit, s.realized))
    else if e.quantity > s.inventory then Err(ShortSale)
    else if costs > notional then Err(CostsAboveProceeds)
    else
      var proceeds := notional - costs;
      var released := Allocated(s.basis, s.inventory, e.quantity);
      var left := s.inventory - e.quantity;
      Ok((s.cash + proceeds, left, if left == 0.0 then 0.0 else s.basis - released, s.realized + proceeds - released))
  }

  function FillOrder(o: PaperOrder, quantity: real): PaperOrder {
    var filled := o.filled + quantity;
    o.(filled := filled, status := if filled == o.requested then Filled else PartiallyFilled)
  }

  function FilledState(s: PaperState, k: nat, e: FillEvent, money: (real, real, real, real)): PaperState
    requires k < |s.orders|
  {
    s.(cash := money.0, inventory := money.1, basis := money.2, realized := money.3,
       fees := s.fees + e.costs.fee, spread := s.spread + e.costs.spread, slippage := s.slippage + e.costs.slippage,
       turnover := s.turnover + e.quantity * e.price,
       lastTimestamp := Some(e.timestamp), lastEventSeq := e.eventSeq,
       orders := s.orders[k := FillOrder(s.orders[k], e.quantity)],
       fillIds := s.fillIds + [e.fillId],
       fingerprints := s.fingerprints + [(e.fillId, FillSha(e))])
  }

  function ApplyFill(s: PaperState, e: FillEvent): Result<(PaperState, FillApplication), ResilienceError> {
    if !FillEventOk(e) then Err(InvalidFillEvent)
    else
      var k := FindOrder(s.orders, e.orderId);
      if e.fillId in s.fillIds then
        if k.None? then Err(UnknownOrder)
        else if FingerprintOf(s.fingerprints, e.fillId) != Some(FillSha(e)) then Err(IdempotencyConflict)
        else Ok((s, FillApplication(false, true, s.orders[k.value].status, s.orders[k.value].Remaining())))
      else if k.None? then Err(UnknownOrder)
      else
        var o := s.orders[k.value];
        var bad := CheckFresh(s, o, e);
        if bad.Some? then Err(bad.value)
        else match MoveMoney(s, e)
          case Err(x) => Err(x)
          case Ok(money) =>
            var changed := FilledState(s, k.value, e, money);
            var after := changed.orders[k.value];
            if StateOk(changed) then Ok((changed, FillApplication(true, false, after.status, after.Remaining())))
            else Err(InvalidState)
  }

  /** Conservation, and basis present exactly when inventory is. */
  predicate Balanced(s: PaperState) {
    s.cash + s.basis == s.startingCash + s.realized && (s.inventory > 0.0 ==> s.basis > 0.0)
  }

  lemma MoneyStaysSound(s: PaperState, e: FillEvent)
    requires StateOk(s) && Balanced(s) && FillEventOk(e) && MoveMoney(s, e).Ok?
    ensures var m := MoveMoney(s, e).value;
            && m.0 >= 0.0 && m.1 >= 0.0 && m.2 >= 0.0 && (m.1 == 0.0 ==> m.2 == 0.0) && (m.1 > 0.0 ==> m.2 > 0.0)
            && m.0 + m.2 == s.startingCash + m.3
  {
    hide Allocated, OrderOk, DistinctOrders, NoRepeats, Costs.Total;
    PositiveProduct(e.quantity, e.price);
    TotalIs(e.costs);
    if e.side == Sell { AllocatedBounds(s.basis, s.inventory, e.quantity); }
  }

  lemma AllocatedBounds(basis: real, inventory: real, quantity: real)
    requires basis > 0.0 && 0.0 < quantity <= inventory
    ensures if quantity == inventory then Allocated(basis, inventory, quantity) == basis
            else 0.0 < Allocated(basis, inventory, quantity) < basis
  {
    if quantity < inventory { AllocatedShare(basis, inventory, quantity); }
  }

  lemma FilledOrderOk(o: PaperOrder, quantity: real)
    requires OrderOk(o) && 0.0 < quantity <= o.Remaining()
    ensures OrderOk(FillOrder(o, quantity)) && FillOrder(o, quantity).filled == o.filled + quantity
  {
  }

  /** A fresh fill that passes its checks never trips the re-validation of the new state. */
  lemma FreshFillKeepsState(s: PaperState, k: nat, e: FillEvent)
    requires StateOk(s) && Balanced(s) && FillEventOk(e) && e.fillId !in s.fillIds
    requires k < |s.orders| && CheckFresh(s, s.orders[k], e).None? && MoveMoney(s, e).Ok?
    ensures StateOk(FilledState(s, k, e, MoveMoney(s, e).value)) && Balanced(FilledState(s, k, e, MoveMoney(s, e).value))
  {
    var money := MoveMoney(s, e).value;
    MoneyStaysSound(s, e);
    PositiveProduct(e.quantity, e.price);
    var t := FilledState(s, k, e, money);
    assert s.orders[k] in s.orders;
    FilledOrderOk(s.orders[k], e.quantity);
    assert forall o <- t.orders :: OrderOk(o) by {
      forall o | o in t.orders ensures OrderOk(o) {
        var j :| 0 <= j < |t.orders| && t.orders[j] == o;
        if j != k { assert s.orders[j] in s.orders; }
      }
    }
    assert forall id <- t.fillIds :: id != "";
  }

  /** Every accepted fill, fresh or repeated, keeps the state invariants; nothing is refused as an invalid state. */
  lemma ApplyFillKeepsState(s: PaperState, e: FillEvent)
    requires StateOk(s) && Balanced(s)
    ensures ApplyFill(s, e) != Err(InvalidState)
    ensures ApplyFill(s, e).Ok? ==> StateOk(ApplyFill(s, e).value.0) && Balanced(ApplyFill(s, e).value.0)
  {
    var k := FindOrder(s.orders, e.orderId);
    if FillEventOk(e) && e.fillId !in s.fillIds && k.Some? && CheckFresh(s, s.orders[k.value], e).None? && MoveMoney(s, e).Ok? {
      FreshFillKeepsState(s, k.value, e);
    }
  }

  function BooksOf(s: PaperState, maxInventory: real, maxFillQty: real): Books {
    Books(s.startingCash, maxInventory, maxFillQty, s.cash, s.inventory, s.basis, s.realized, s.fees, s.spread, s.slippage, s.turnover)
  }

  function LedgerStep(b: Books, e: FillEvent): Result<(Books, Operation), LedgerError> {
    if e.side == Buy then BuyBooks(b, e.quantity, e.price, e.costs) else SellBooks(b, e.quantity, e.price, e.costs)
  }

  /** Within the risk limits the fill step accepts what the ledger accepts and moves the same money. */
  lemma FillRefinesLedger(s: PaperState, k: nat, e: FillEvent, maxInventory: real, maxFillQty: real)
    requires StateOk(s) && Balanced(s) && FillEventOk(e) && e.fillId !in s.fillIds
    requires FindOrder(s.orders, e.orderId) == Some(k) && CheckFresh(s, s.orders[k], e).None?
    requires e.quantity <= maxFillQty && (e.side == Buy ==> s.inventory + e.quantity <= maxInventory)
    ensures ApplyFill(s, e).Ok? <==> LedgerStep(BooksOf(s, maxInventory, maxFillQty), e).Ok?
    ensures ApplyFill(s, e).Ok? ==>
              BooksOf(ApplyFill(s, e).value.0, maxInventory, maxFillQty) == LedgerStep(BooksOf(s, maxInventory, maxFillQty), e).value.0
  {
    if MoveMoney(s, e).Ok? { FreshFillKeepsState(s, k, e); }
  }

  /** An event in its turn, with proper values. */
  predicate InTurn(s: PaperState, e: FillEvent) {
    && |e.fillId| > 0 && 0.0 < e.quantity && 0.0 < e.price && 0.0 <= e.costs.fee && 0.0 <= e.costs.spread && 0.0 <= e.costs.slippage
    && e.eventSeq == s.lastEventSeq + 1 && (s.lastTimestamp.Some? ==> s.lastTimestamp.value <= e.timestamp)
  }

  /** The order can take it: the same side, and that much left. */
  ghost predicate Takes(s: PaperState, k: nat, e: FillEvent) {
    && k < |s.orders| && s.orders[k].orderId == e.orderId && s.orders[k].side == e.side
    && e.quantity <= s.orders[k].requested - s.orders[k].filled
  }

  /** A purchase is paid for with its costs; a sale is covered and worth its costs. */
  predicate Affords(s: PaperState, e: FillEvent) {
    var costs := e.costs.fee + e.costs.spread + e.costs.slippage;
    if e.side == Buy then e.quantity * e.price + costs <= s.cash else e.quantity <= s.inventory && costs <= e.quantity * e.price
  }

  /** A new fill is taken if and only if it is in its turn, its order can take it and the cash or inventory is there; the answer
      is what is left of the order. */
  lemma FreshFillIff(s: PaperState, e: FillEvent)
    requires StateOk(s) && Balanced(s) && e.fillId !in s.fillIds
    ensures ApplyFill(s, e).Ok? <==> InTurn(s, e) && Affords(s, e) && exists k: nat :: Takes(s, k, e)
    ensures forall k: nat :: ApplyFill(s, e).Ok? && Takes(s, k, e) ==>
              var (t, a) := ApplyFill(s, e).value;
              var o, left := s.orders[k], s.orders[k].requested - s.orders[k].filled - e.quantity;
              var status := if left == 0.0 then Filled else PartiallyFilled;
              && a == FillApplication(true, false, status, left) && t.fillIds == s.fillIds + [e.fillId]
              && t.lastEventSeq == e.eventSeq && t.lastTimestamp == Some(e.timestamp)
              && t.orders == s.orders[k := o.(filled := o.filled + e.quantity, status := status)]
  {
    hide StateOk, Balanced, Allocated, Costs.Total;
    assert forall o <- s.orders :: OrderOk(o) by { OrdersOf(s); }
    assert s.lastEventSeq >= 0 && DistinctOrders(s.orders) by { OrdersOf(s); }
    TotalIs(e.costs);
    var k := FindOrder(s.orders, e.orderId);
    forall j: nat | Takes(s, j, e) ensures k == Some(j) { FindOrderAt(s.orders, j); }
    if k.Some? { assert OrderOk(s.orders[k.value]); }
    if FillEventOk(e) && k.Some? && CheckFresh(s, s.orders[k.value], e).None? && MoveMoney(s, e).Ok? {
      FreshFillKeepsState(s, k.value, e);
      assert Takes(s, k.value, e);
    }
  }

  lemma OrdersOf(s: PaperState)
    requires StateOk(s)
    ensures (forall o <- s.orders :: OrderOk(o)) && DistinctOrders(s.orders) && s.lastEventSeq >= 0
  {
  }

  lemma TotalIs(c: Costs)
    ensures c.Total() == c.fee + c.spread + c.slippage
  {
  }

  /** Filling is idempotent: an event sent again after it was taken changes nothing and is reported as a duplicate; another
      event under its fill id is a conflict. */
  lemma FillIsIdempotent(s: PaperState, e: FillEvent, again: FillEvent)
    requires ApplyFill(s, e).Ok? && ApplyFill(s, e).value.1.applied
    requires FillEventOk(again) && again.fillId == e.fillId && again.orderId == e.orderId
    ensures var (t, a) := ApplyFill(s, e).value;
            ApplyFill(t, again) ==
              if again == e then Ok((t, FillApplication(false, true, a.status, a.remaining))) else Err(IdempotencyConflict)
  {
    hide StateOk, MoveMoney, CheckFresh;
    var t := ApplyFill(s, e).value.0;
    var k := FindOrder(s.orders, e.orderId).value;
    SameIdsSameFind(s.orders, t.orders, e.orderId);
    assert t.fillIds == s.fillIds + [e.fillId] && t.fillIds[|s.fillIds|] == e.fillId;
    assert t.fingerprints[|t.fingerprints| - 1] == (e.fillId, FillSha(e));
  }

  lemma {:induction false} SameIdsSameFind(a: seq<PaperOrder>, b: seq<PaperOrder>, orderId: string)
    requires |a| == |b| && forall i :: 0 <= i < |a| ==> a[i].orderId == b[i].orderId
    ensures FindOrder(a, orderId) == FindOrder(b, orderId)
  {
    if a != [] { SameIdsSameFind(a[1..], b[1..], orderId); }
  }
}
