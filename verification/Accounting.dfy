/** The long-only cash ledger (research/rea_engines/accounting.py). */
module Accounting {
  import opened Prelude

  datatype LedgerError =
    | QuantityNotPositive | PriceNotPositive | NegativeCost | LimitNotPositive
    | ExceedsMaxFill | ExceedsMaxInventory | InsufficientCash
    | WouldShort | CostsExceedProceeds | NegativeCash | MarkNotPositive

  datatype Costs = Costs(fee: real, spread: real, slippage: real) {
    function Total(): real { fee + spread + slippage }
    predicate NonNegative() { fee >= 0.0 && spread >= 0.0 && slippage >= 0.0 }
  }

  datatype Operation = Operation(
    quantity: real, price: real, notional: real, costs: Costs, allocatedBasis: real, realizedPnl: real)

  /** The value of every ledger field. */
  datatype Books = Books(
    startingCash: real, maxInventory: real, maxFillQty: real,
    cash: real, inventory: real, basis: real, realized: real,
    fees: real, spread: real, slippage: real, turnover: real)

  function OpenBooks(startingCash: real, maxInventory: real, maxFillQty: real): Books {
    Books(startingCash, maxInventory, maxFillQty, startingCash, 0.0, 0.0, 0.0, 0.0, 0.0, 0.0, 0.0)
  }

  /** What every reachable ledger satisfies; the last line is conservation. */
  predicate BooksOk(b: Books) {
    && b.startingCash > 0.0 && b.maxInventory > 0.0 && b.maxFillQty > 0.0
    && b.cash >= 0.0 && 0.0 <= b.inventory <= b.maxInventory
    && b.basis >= 0.0 && (b.inventory == 0.0 <==> b.basis == 0.0)
    && b.fees >= 0.0 && b.spread >= 0.0 && b.slippage >= 0.0 && b.turnover >= 0.0
    && b.cash + b.basis == b.startingCash + b.realized
  }

  /** The checks shared by both sides, in the source's order. */
  function CheckValues(b: Books, quantity: real, price: real, costs: Costs): Option<LedgerError> {
    if quantity <= 0.0 then Some(QuantityNotPositive)
    else if price <= 0.0 then Some(PriceNotPositive)
    else if !costs.NonNegative() then Some(NegativeCost)
    else if quantity > b.maxFillQty then Some(ExceedsMaxFill)
    else None
  }

  function AddCosts(b: Books, costs: Costs, notional: real): Books {
    b.(fees := b.fees + costs.fee, spread := b.spread + costs.spread,
       slippage := b.slippage + costs.slippage, turnover := b.turnover + notional)
  }

  function BuyBooks(b: Books, quantity: real, price: real, costs: Costs): Result<(Books, Operation), LedgerError> {
    var bad := CheckValues(b, quantity, price, costs);
    if bad.Some? then Err(bad.value)
    else if b.inventory + quantity > b.maxInventory then Err(ExceedsMaxInventory)
    else
      var notional := quantity * price;
      var debit := notional + costs.Total();
      if debit > b.cash then Err(InsufficientCash)
      else
        var moved := b.(cash := b.cash - debit, inventory := b.inventory + quantity, basis := b.basis + debit);
        Ok((AddCosts(moved, costs, notional), Operation(quantity, price, notional, costs, 0.0, 0.0)))
  }

  /** The basis leaving with a sale: all of it on a full exit, otherwise pro rata. */
  function Allocated(basis: real, inventory: real, quantity: real): real
    requires 0.0 < quantity <= inventory
  {
    if quantity == inventory then basis else basis * quantity / inventory
  }

  function SellBooks(b: Books, quantity: real, price: real, costs: Costs): Result<(Books, Operation), LedgerError> {
    var bad := CheckValues(b, quantity, price, costs);
    if bad.Some? then Err(bad.value)
    else if quantity > b.inventory then Err(WouldShort)
    else
      var notional := quantity * price;
      if costs.Total() > notional then Err(CostsExceedProceeds)
      else
        var proceeds := notional - costs.Total();
        if b.cash + proceeds < 0.0 then Err(NegativeCash)
        else
          var released := Allocated(b.basis, b.inventory, quantity);
          var left := b.inventory - quantity;
          var moved := b.(
            cash := b.cash + proceeds, inventory := left,
            basis := if left == 0.0 then 0.0 else b.basis - released,
            realized := b.realized + (proceeds - released));
          Ok((AddCosts(moved, costs, notional),
              Operation(quantity, price, notional, costs, released, proceeds - released)))
  }

  function AverageEntry(b: Books): real {
    if b.inventory == 0.0 then 0.0 else b.basis / b.inventory
  }

  /** A proper operation: positive quantity and price, no negative cost, and no more than one fill may move. */
  predicate ProperOperation(b: Books, quantity: real, price: real, c: Costs) {
    0.0 < quantity <= b.maxFillQty && 0.0 < price && 0.0 <= c.fee && 0.0 <= c.spread && 0.0 <= c.slippage
  }

  /** Costs and notional go to their totals, the limits stay. */
  predicate Totalled(b: Books, after: Books, c: Costs, notional: real) {
    && after.fees == b.fees + c.fee && after.spread == b.spread + c.spread && after.slippage == b.slippage + c.slippage
    && after.turnover == b.turnover + notional && after.startingCash == b.startingCash
    && after.maxInventory == b.maxInventory && after.maxFillQty == b.maxFillQty
  }

  /** A purchase is accepted if and only if it is proper, fits the inventory limit and is paid for with its costs; what is paid
      becomes basis. */
  lemma BuyIff(b: Books, quantity: real, price: real, c: Costs)
    ensures var paid := quantity * price + c.fee + c.spread + c.slippage;
            && (BuyBooks(b, quantity, price, c).Ok? <==>
                  ProperOperation(b, quantity, price, c) && b.inventory + quantity <= b.maxInventory && paid <= b.cash)
            && (BuyBooks(b, quantity, price, c).Ok? ==>
                  var (after, op) := BuyBooks(b, quantity, price, c).value;
                  && after.cash == b.cash - paid && after.basis == b.basis + paid && after.inventory == b.inventory + quantity
                  && after.realized == b.realized && Totalled(b, after, c, quantity * price)
                  && op == Operation(quantity, price, quantity * price, c, 0.0, 0.0))
  {
  }

  /** From balanced books a sale is accepted if and only if it is proper, covered by the inventory and worth its costs; the
      basis left is the share of what is left, and the rest of it is what the proceeds are compared with. */
  lemma SellIff(b: Books, quantity: real, price: real, c: Costs)
    requires BooksOk(b)
    ensures var net := quantity * price - (c.fee + c.spread + c.slippage);
            && (SellBooks(b, quantity, price, c).Ok? <==>
                  ProperOperation(b, quantity, price, c) && quantity <= b.inventory && 0.0 <= net)
            && (SellBooks(b, quantity, price, c).Ok? ==>
                  var (after, op) := SellBooks(b, quantity, price, c).value;
                  && after.cash == b.cash + net && after.inventory == b.inventory - quantity
                  && after.basis * b.inventory == b.basis * after.inventory
                  && after.realized == b.realized + net - (b.basis - after.basis) && Totalled(b, after, c, quantity * price)
                  && op == Operation(quantity, price, quantity * price, c, b.basis - after.basis, net - (b.basis - after.basis)))
  {
    if 0.0 < quantity < b.inventory { Share(b.basis, b.inventory, quantity); }
  }

  lemma Share(basis: real, inventory: real, quantity: real)
    requires 0.0 < quantity < inventory
    ensures (basis - basis * quantity / inventory) * inventory == basis * (inventory - quantity)
  {
    var x := basis * quantity / inventory;
    assert x * inventory == basis * quantity;
  }

  lemma AllocatedShare(basis: real, inventory: real, quantity: real)
    requires basis > 0.0 && 0.0 < quantity < inventory
    ensures 0.0 < basis * quantity / inventory < basis
  {
    assert 0.0 < basis * quantity;
    assert basis * quantity < basis * inventory;
    var x := basis * quantity / inventory;
    assert x * inventory == basis * quantity;
  }

  lemma PositiveProduct(a: real, b: real)
    requires a > 0.0 && b > 0.0
    ensures a * b > 0.0
  {}

  /** Every accepted operation keeps the books, conservation included. */
  lemma BuyKeepsBooks(b: Books, quantity: real, price: real, costs: Costs)
    requires BooksOk(b) && BuyBooks(b, quantity, price, costs).Ok?
    ensures BooksOk(BuyBooks(b, quantity, price, costs).value.0)
    ensures BuyBooks(b, quantity, price, costs).value.0.inventory > b.inventory
  {
    PositiveProduct(quantity, price);
  }

  lemma SellKeepsBooks(b: Books, quantity: real, price: real, costs: Costs)
    requires BooksOk(b) && SellBooks(b, quantity, price, costs).Ok?
    ensures BooksOk(SellBooks(b, quantity, price, costs).value.0)
  {
    PositiveProduct(quantity, price);
    if quantity < b.inventory { AllocatedShare(b.basis, b.inventory, quantity); }
  }

  lemma ProRataQuotient(basis: real, inventory: real, quantity: real)
    requires 0.0 < quantity < inventory
    ensures (basis - Allocated(basis, inventory, quantity)) / (inventory - quantity) == basis / inventory
  {
    var average, left := basis / inventory, inventory - quantity;
    assert basis * quantity / inventory == average * quantity;
    assert basis - average * quantity == average * left;
    assert average * left / left == average;
  }

  /** Selling part of a position leaves the average entry price of the rest unchanged. */
  lemma PartialSaleKeepsAverage(b: Books, quantity: real, price: real, costs: Costs)
    requires BooksOk(b) && SellBooks(b, quantity, price, costs).Ok? && quantity < b.inventory
    ensures AverageEntry(SellBooks(b, quantity, price, costs).value.0) == AverageEntry(b)
  {
    var after := SellBooks(b, quantity, price, costs).value.0;
    assert after.inventory == b.inventory - quantity && after.inventory > 0.0;
    assert after.basis == b.basis - Allocated(b.basis, b.inventory, quantity);
    ProRataQuotient(b.basis, b.inventory, quantity);
    assert after.basis / after.inventory == b.basis / b.inventory;
  }

  /** With cash and proceeds non-negative the negative-cash check is never the reason for a refusal. */
  lemma NegativeCashNeverHappens(b: Books, quantity: real, price: real, costs: Costs)
    requires BooksOk(b)
    ensures SellBooks(b, quantity, price, costs) != Err(NegativeCash)
  {
  }

  datatype Posting = BuyPosting(quantity: real, price: real, costs: Costs) | SellPosting(quantity: real, price: real, costs: Costs)

  /** A refused posting raises and leaves the ledger as it was. */
  function Post(b: Books, p: Posting): Books {
    var r := if p.BuyPosting? then BuyBooks(b, p.quantity, p.price, p.costs) else SellBooks(b, p.quantity, p.price, p.costs);
    if r.Ok? then r.value.0 else b
  }

  function PostAll(b: Books, ps: seq<Posting>): Books {
    if ps == [] then b else Post(PostAll(b, ps[..|ps| - 1]), ps[|ps| - 1])
  }

  /** Over every run of a ledger, realized plus unrealized profit is equity minus the starting cash. */
  lemma {:induction false} EveryRunReconciles(b: Books, ps: seq<Posting>, mark: real)
    requires BooksOk(b)
    ensures BooksOk(PostAll(b, ps)) && PostAll(b, ps).startingCash == b.startingCash
    ensures var e := PostAll(b, ps);
            e.realized + (e.inventory * mark - e.basis) == (e.cash + e.inventory * mark) - b.startingCash
  {
    if ps != [] {
      EveryRunReconciles(b, ps[..|ps| - 1], mark);
      var before, p := PostAll(b, ps[..|ps| - 1]), ps[|ps| - 1];
      if p.BuyPosting? && BuyBooks(before, p.quantity, p.price, p.costs).Ok? {
        BuyKeepsBooks(before, p.quantity, p.price, p.costs);
      }
      if p.SellPosting? && SellBooks(before, p.quantity, p.price, p.costs).Ok? {
        SellKeepsBooks(before, p.quantity, p.price, p.costs);
      }
    }
  }

  class Ledger {
    const startingCash: real
    const maxInventory: real
    const maxFillQty: real
    var cash: real
    var inventoryQty: real
    var inventoryCostBasis: real
    var realizedPnl: real
    var totalFees: real
    var totalSpreadCost: real
    var totalSlippageCost: real
    var turnover: real

    function State(): Books
      reads this
    {
      Books(startingCash, maxInventory, maxFillQty, cash, inventoryQty, inventoryCostBasis,
            realizedPnl, totalFees, totalSpreadCost, totalSlippageCost, turnover)
    }

    predicate Valid()
      reads this
    {
      BooksOk(State())
    }

    constructor (startingCash: real, maxInventory: real, maxFillQty: real)
      requires startingCash > 0.0 && maxInventory > 0.0 && maxFillQty > 0.0
      ensures Valid() && State() == OpenBooks(startingCash, maxInventory, maxFillQty)
    {
      this.startingCash, this.maxInventory, this.maxFillQty := startingCash, maxInventory, maxFillQty;
      cash, inventoryQty, inventoryCostBasis, realizedPnl := startingCash, 0.0, 0.0, 0.0;
      totalFees, totalSpreadCost, totalSlippageCost, turnover := 0.0, 0.0, 0.0, 0.0;
    }

    method Buy(quantity: real, price: real, costs: Costs) returns (r: Result<Operation, LedgerError>)
      requires Valid()
      modifies this
      ensures Valid()
      ensures var spec := BuyBooks(old(State()), quantity, price, costs);
              if spec.Ok? then State() == spec.value.0 && r == Ok(spec.value.1)
              else State() == old(State()) && r == Err(spec.error)
    {
      var bad := CheckValues(State(), quantity, price, costs);
      if bad.Some? { return Err(bad.value); }
      if inventoryQty + quantity > maxInventory { return Err(ExceedsMaxInventory); }
      var notional := quantity * price;
      var debit := notional + costs.Total();
      if debit > cash { return Err(InsufficientCash); }
      BuyKeepsBooks(State(), quantity, price, costs);
      cash := cash - debit;
      inventoryQty := inventoryQty + quantity;
      inventoryCostBasis := inventoryCostBasis + debit;
      totalFees := totalFees + costs.fee;
      totalSpreadCost := totalSpreadCost + costs.spread;
      totalSlippageCost := totalSlippageCost + costs.slippage;
      turnover := turnover + notional;
      return Ok(Operation(quantity, price, notional, costs, 0.0, 0.0));
    }

    method Sell(quantity: real, price: real, costs: Costs) returns (r: Result<Operation, LedgerError>)
      requires Valid()
      modifies this
      ensures Valid()
      ensures var spec := SellBooks(old(State()), quantity, price, costs);
              if spec.Ok? then State() == spec.value.0 && r == Ok(spec.value.1)
              else State() == old(State()) && r == Err(spec.error)
    {
      var bad := CheckValues(State(), quantity, price, costs);
      if bad.Some? { return Err(bad.value); }
      if quantity > inventoryQty { return Err(WouldShort); }
      var notional := quantity * price;
      if costs.Total() > notional { return Err(CostsExceedProceeds); }
      var proceeds := notional - costs.Total();
      if cash + proceeds < 0.0 { return Err(NegativeCash); }
      var released := Allocated(inventoryCostBasis, inventoryQty, quantity);
      var realized := proceeds - released;
      SellKeepsBooks(State(), quantity, price, costs);
      cash := cash + proceeds;
      inventoryQty := inventoryQty - quantity;
      inventoryCostBasis := inventoryCostBasis - released;
      if inventoryQty == 0.0 { inventoryCostBasis := 0.0; }
      realizedPnl := realizedPnl + realized;
      totalFees := totalFees + costs.fee;
      totalSpreadCost := totalSpreadCost + costs.spread;
      totalSlippageCost := totalSlippageCost + costs.slippage;
      turnover := turnover + notional;
      return Ok(Operation(quantity, price, notional, costs, released, realized));
    }
  }
}
