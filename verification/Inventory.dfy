/** src/bms/domain/inventory/service.py: stock movements, the folds over them, and the weighted average. */
module Inventory {
  import opened Status
  import opened Books

  datatype StockCommand = StockCommand(
    movementId: string, itemId: string, movementType: MovementType, quantityDelta: int, timestamp: string,
    actorId: string, reason: string, sourceModule: string, sourceDocumentId: string, correlationId: string,
    unitCost: int, periodId: string)

  // ---------------------------------------------------------------- folds

  function ItemOf(): Movement -> string { (m: Movement) => m.itemId }

  function Quantity(): Movement -> int { (m: Movement) => m.quantityDelta }

  function Value(): Movement -> int { (m: Movement) => m.valueDelta }

  function ValueIn(periodId: string): Movement -> int { (m: Movement) => if m.periodId == periodId then m.valueDelta else 0 }

  function StockOnHand(ms: seq<Movement>, itemId: string): int { Sum(ms, Restrict(ItemOf(), itemId, Quantity())) }

  function InventoryValue(ms: seq<Movement>, itemId: string): int { Sum(ms, Restrict(ItemOf(), itemId, Value())) }

  function TotalValue(ms: seq<Movement>): int { Sum(ms, Value()) }

  function PeriodValue(ms: seq<Movement>, periodId: string): int { Sum(ms, ValueIn(periodId)) }

  /** Python's floor division, here by a positive divisor. */
  function AverageCost(ms: seq<Movement>, itemId: string): int {
    var quantity := StockOnHand(ms, itemId);
    if quantity <= 0 then 0 else InventoryValue(ms, itemId) / quantity
  }

  /** The item as the dictionary of get_items holds it: the last registration counts. */
  function FindItem(items: seq<Item>, itemId: string): Option<Item> {
    if items == [] then None
    else if items[|items| - 1].itemId == itemId then Some(items[|items| - 1])
    else FindItem(items[..|items| - 1], itemId)
  }

  // ---------------------------------------------------------------- commit_movement

  function PeriodFromTimestamp(timestamp: string): string {
    "FY" + (if |timestamp| < 7 then timestamp else timestamp[..7])
  }

  function MovementPeriod(c: StockCommand): string {
    if c.periodId != "" then c.periodId else PeriodFromTimestamp(c.timestamp)
  }

  function ValidateStock(c: StockCommand): Option<Error> {
    if "" in [c.movementId, c.itemId, c.timestamp, c.actorId, c.reason, c.sourceModule, c.sourceDocumentId, c.correlationId]
      then Some(MissingField)
    else if c.quantityDelta == 0 then Some(ZeroQuantity)
    else if c.unitCost < 0 then Some(NegativeCost)
    else if c.movementType == StockIn && c.quantityDelta < 0 then Some(WrongDirection)
    else if c.movementType == StockOut && c.quantityDelta > 0 then Some(WrongDirection)
    else None
  }

  predicate HasMovement(ms: seq<Movement>, movementId: string) {
    exists i :: 0 <= i < |ms| && ms[i].movementId == movementId
  }

  function CheckItem(items: seq<Item>, itemId: string): Option<Error> {
    match FindItem(items, itemId)
    case None => Some(UnknownItem)
    case Some(item) => if item.active then None else Some(InactiveItem)
  }

  /** _movement_unit_cost. */
  function UnitCost(c: StockCommand, quantity: int, value: int): int {
    if c.quantityDelta > 0 then c.unitCost
    else if c.unitCost != 0 then c.unitCost
    else if quantity <= 0 then 0
    else value / quantity
  }

  /** The stored movement. */
  function MovementOf(ms: seq<Movement>, c: StockCommand): Movement {
    var quantity := StockOnHand(ms, c.itemId);
    var value := InventoryValue(ms, c.itemId);
    var unitCost := UnitCost(c, quantity, value);
    Movement(c.movementId, c.itemId, c.movementType, c.quantityDelta, quantity + c.quantityDelta, MovementPeriod(c),
             unitCost, c.quantityDelta * unitCost, value + c.quantityDelta * unitCost, c.sourceDocumentId)
  }

  function RefuseMovement(b: Books, allowNegative: bool, c: StockCommand): Option<Error> {
    if ValidateStock(c).Some? then ValidateStock(c)
    else if HasMovement(b.movements, c.movementId) then Some(DuplicateMovement)
    else if CheckItem(b.items, c.itemId).Some? then CheckItem(b.items, c.itemId)
    else if StockOnHand(b.movements, c.itemId) + c.quantityDelta < 0 && !allowNegative then Some(NegativeStock)
    else None
  }

  function MovementSteps(b: Books, c: StockCommand): seq<Step> {
    Transaction(b.uuids, CommitMovementOp(c.movementId), [MovementStep(MovementOf(b.movements, c))],
                "inventory.stock_moved", "inventory.stock_moved.v1")
  }

  function MovementPlan(b: Books, allowNegative: bool, c: StockCommand): Plan {
    var refused := RefuseMovement(b, allowNegative, c);
    if refused.Some? then Plan([], refused) else Plan(MovementSteps(b, c), None)
  }

  function RefuseItem(items: seq<Item>, item: Item): Option<Error> {
    if "" in [item.itemId, item.sku, item.name] then Some(MissingField)
    else if exists i :: 0 <= i < |items| && (items[i].itemId == item.itemId || items[i].sku == item.sku)
      then Some(DuplicateItem)
    else None
  }

  function RegisterPlan(b: Books, item: Item): Plan {
    var refused := RefuseItem(b.items, item);
    if refused.Some? then Plan([], refused)
    else Plan(Transaction(b.uuids, RegisterItemOp(item.itemId), [ItemStep(item)],
                          "inventory.item_registered", "inventory.item_registered.v1"), None)
  }

  class InventoryService {
    const store: Store
    const allowNegativeStock: bool

    constructor (store: Store, allowNegativeStock: bool)
      ensures this.store == store && this.allowNegativeStock == allowNegativeStock
    {
      this.store, this.allowNegativeStock := store, allowNegativeStock;
    }

    method GetStockOnHand(itemId: string) returns (quantity: int)
      ensures quantity == StockOnHand(store.movements, itemId)
    {
      quantity := 0;
      var ms := store.movements;
      for i := 0 to |ms|
        invariant quantity == StockOnHand(ms[..i], itemId)
      {
        assert ms[..i + 1][..i] == ms[..i];
        if ms[i].itemId == itemId {
          quantity := quantity + ms[i].quantityDelta;
        }
      }
      assert ms[..|ms|] == ms;
    }

    method GetInventoryValue(itemId: string) returns (value: int)
      ensures value == InventoryValue(store.movements, itemId)
    {
      value := 0;
      var ms := store.movements;
      for i := 0 to |ms|
        invariant value == InventoryValue(ms[..i], itemId)
      {
        assert ms[..i + 1][..i] == ms[..i];
        if ms[i].itemId == itemId {
          value := value + ms[i].valueDelta;
        }
      }
      assert ms[..|ms|] == ms;
    }

    /** get_all_stock_on_hand: one dictionary entry per item that ever moved. */
    method GetAllStockOnHand() returns (quantities: map<string, int>)
      ensures forall id :: id in quantities <==> exists i :: 0 <= i < |store.movements| && store.movements[i].itemId == id
      ensures forall id :: id in quantities ==> quantities[id] == StockOnHand(store.movements, id)
    {
      quantities := map[];
      var ms := store.movements;
      for i := 0 to |ms|
        invariant forall id :: id in quantities <==> exists k :: 0 <= k < i && ms[k].itemId == id
        invariant forall id :: StockOnHand(ms[..i], id) == if id in quantities then quantities[id] else 0
      {
        assert ms[..i + 1][..i] == ms[..i];
        var id := ms[i].itemId;
        var before := if id in quantities then quantities[id] else 0;
        quantities := quantities[id := before + ms[i].quantityDelta];
      }
      assert ms[..|ms|] == ms;
    }

    method GetAverageCost(itemId: string) returns (cost: int)
      ensures cost == AverageCost(store.movements, itemId)
    {
      var quantity := GetStockOnHand(itemId);
      if quantity <= 0 {
        return 0;
      }
      var value := GetInventoryValue(itemId);
      return value / quantity;
    }

    method CommitMovement(c: StockCommand) returns (error: Option<Error>, movement: Movement)
      modifies store
      ensures var plan := MovementPlan(old(store.View()), allowNegativeStock, c);
        store.View() == ApplyAll(old(store.View()), plan.steps) && error == plan.error
      ensures movement == MovementOf(old(store.movements), c)
    {
      hide Apply;
      ghost var b := store.View();
      var quantity := GetStockOnHand(c.itemId);
      var value := GetInventoryValue(c.itemId);
      var nextQuantity := quantity + c.quantityDelta;
      var unitCost := UnitCost(c, quantity, value);
      movement := Movement(c.movementId, c.itemId, c.movementType, c.quantityDelta, nextQuantity, MovementPeriod(c),
                           unitCost, c.quantityDelta * unitCost, value + c.quantityDelta * unitCost, c.sourceDocumentId);
      if ValidateStock(c).Some? {
        return ValidateStock(c), movement;
      }
      if HasMovement(store.movements, c.movementId) {
        return Some(DuplicateMovement), movement;
      }
      if CheckItem(store.items, c.itemId).Some? {
        return CheckItem(store.items, c.itemId), movement;
      }
      if nextQuantity < 0 && !allowNegativeStock {
        return Some(NegativeStock), movement;
      }
      var tid := store.uuids;
      var steps := [WalStep(Pending(tid, CommitMovementOp(c.movementId))), MovementStep(movement),
                    AuditStep("inventory.stock_moved"), EventStep("inventory.stock_moved.v1"),
                    WalStep(Committed(tid))];
      assert steps == MovementSteps(b, c);
      store.AppendEach(steps);
      return None, movement;
    }

    method RegisterItem(item: Item) returns (error: Option<Error>)
      modifies store
      ensures var plan := RegisterPlan(old(store.View()), item);
        store.View() == ApplyAll(old(store.View()), plan.steps) && error == plan.error
    {
      hide Apply;
      error := RefuseItem(store.items, item);
      if error.Some? {
        return;
      }
      var tid := store.uuids;
      var steps := [WalStep(Pending(tid, RegisterItemOp(item.itemId))), ItemStep(item),
                    AuditStep("inventory.item_registered"), EventStep("inventory.item_registered.v1"),
                    WalStep(Committed(tid))];
      assert steps == RegisterPlan(store.View(), item).steps;
      store.AppendEach(steps);
    }
  }
}
