/** Stock levels per product and store, the movements that record every change,
    and bulk stock adjustments that move draft -> approved -> applied. */
module Inventory {
  import opened Wrappers

  datatype MovementType =
    Sale | Purchase | Adjustment | TransferIn | TransferOut | Return | Damage | Expired | Initial

  /** A stock movement record; a positive quantity brings stock in. */
  datatype StockMovement = StockMovement(
    inventoryItemId: Id,
    productId: Id,
    variantId: Option<Id>,
    storeId: Id,
    movementType: MovementType,
    quantity: real,
    unitCost: Option<real>,
    referenceType: Option<string>,
    referenceId: Option<Id>,
    referenceNumber: Option<string>,
    notes: Option<string>,
    quantityBefore: Option<real>,
    quantityAfter: Option<real>)

  /** `StockMovement.is_inbound` */
  predicate IsInbound(m: StockMovement) { m.quantity > 0.0 }

  /** `StockMovement.is_outbound` */
  predicate IsOutbound(m: StockMovement) { m.quantity < 0.0 }

  /** A movement that records the stock level before and after it (after = before +
      quantity) is inbound exactly when the level rose and outbound exactly when it
      fell. */
  lemma DirectionFollowsLevels(m: StockMovement)
    requires m.quantityBefore.Some? && m.quantityAfter.Some?
    requires m.quantityAfter.value == m.quantityBefore.value + m.quantity
    ensures IsInbound(m) <==> m.quantityAfter.value > m.quantityBefore.value
    ensures IsOutbound(m) <==> m.quantityAfter.value < m.quantityBefore.value
  {
  }

  /** `StockMovement.total_value`: quantity times unit cost, 0 without a cost. */
  function MovementValue(m: StockMovement): (v: real)
    ensures m.unitCost.None? ==> v == 0.0
    ensures m.unitCost.Some? && m.unitCost.value > 0.0 ==>
              (v > 0.0 <==> IsInbound(m)) && (v < 0.0 <==> IsOutbound(m))
  {
    if m.unitCost.None? then 0.0
    else
      var c := m.unitCost.value;
      assert c > 0.0 ==> (m.quantity > 0.0 <==> m.quantity * c > 0.0) && (m.quantity < 0.0 <==> m.quantity * c < 0.0);
      m.quantity * c
  }

  /** The unit cost `update_cost(new_cost, quantity)` leaves: the new cost when there
      was no cost or no stock, otherwise the weighted average of the stock on hand and
      the incoming quantity, kept unchanged when the combined quantity is not positive. */
  function WeightedCost(unitCost: Option<real>, onHand: real, newCost: real, quantity: real): (r: Option<real>)
    ensures r.Some?
    ensures unitCost.None? || onHand == 0.0 ==> r == Some(newCost)
    ensures unitCost.Some? && onHand != 0.0 && onHand + quantity <= 0.0 ==> r == unitCost
  {
    if unitCost.None? || onHand == 0.0 then Some(newCost)
    else if onHand + quantity > 0.0 then
      Some((onHand * unitCost.value + quantity * newCost) / (onHand + quantity))
    else unitCost
  }

  /** The average preserves the stock value: old stock at the old cost plus the
      incoming quantity at the new cost equals the combined quantity at the result. */
  lemma WeightedCostKeepsValue(cost: real, onHand: real, newCost: real, quantity: real)
    requires onHand != 0.0 && onHand + quantity > 0.0
    ensures (onHand + quantity) * WeightedCost(Some(cost), onHand, newCost, quantity).value
         == onHand * cost + quantity * newCost
  {
  }

  /** Receiving stock at a cost never moves the average outside the two costs. */
  lemma WeightedCostBetween(cost: real, onHand: real, newCost: real, quantity: real)
    requires onHand > 0.0 && quantity >= 0.0
    ensures var r := WeightedCost(Some(cost), onHand, newCost, quantity).value;
            (cost <= r <= newCost) || (newCost <= r <= cost)
  {
    var total := onHand + quantity;
    var r := (onHand * cost + quantity * newCost) / total;
    assert r * total == onHand * cost + quantity * newCost;
    assert r - cost == quantity * (newCost - cost) / total;
    assert newCost - r == onHand * (newCost - cost) / total;
    if cost <= newCost {
      assert quantity * (newCost - cost) >= 0.0;
      assert onHand * (newCost - cost) >= 0.0;
    } else {
      assert quantity * (cost - newCost) >= 0.0;
      assert onHand * (cost - newCost) >= 0.0;
    }
  }

  datatype StockError = ExceedsAvailable | ExceedsReserved

  /** Stock of one product (or variant) in one store. */
  class InventoryItem {
    const id: Id
    const productId: Id
    const variantId: Option<Id>
    const storeId: Id
    var onHand: real
    var reserved: real
    var available: real
    var reorderPoint: Option<real>
    var maxStock: Option<real>
    var unitCost: Option<real>
    var lastCost: Option<real>
    var isActive: bool
    var isDeleted: bool

    /** A new row with the column defaults: no stock, nothing reserved. */
    constructor (id: Id, productId: Id, variantId: Option<Id>, storeId: Id,
                 reorderPoint: Option<real>, maxStock: Option<real>, unitCost: Option<real>)
      ensures this.id == id && this.productId == productId && this.variantId == variantId
      ensures this.storeId == storeId
      ensures onHand == 0.0 && reserved == 0.0 && available == 0.0
      ensures this.reorderPoint == reorderPoint && this.maxStock == maxStock
      ensures this.unitCost == unitCost && lastCost.None? && isActive && !isDeleted
    {
      this.id := id;
      this.productId := productId;
      this.variantId := variantId;
      this.storeId := storeId;
      onHand := 0.0;
      reserved := 0.0;
      available := 0.0;
      this.reorderPoint := reorderPoint;
      this.maxStock := maxStock;
      this.unitCost := unitCost;
      lastCost := None;
      isActive := true;
      isDeleted := false;
    }

    /** The stored available quantity is on-hand less reserved. */
    ghost predicate Valid()
      reads this
    {
      available == onHand - reserved
    }

    /** `is_low_stock` */
    predicate IsLowStock()
      reads this
    {
      reorderPoint.Some? && available <= reorderPoint.value
    }

    /** `is_out_of_stock` */
    predicate IsOutOfStock()
      reads this
    {
      available <= 0.0
    }

    /** `is_overstocked` */
    predicate IsOverstocked()
      reads this
    {
      maxStock.Some? && onHand > maxStock.value
    }

    /** With a non-negative reorder point, an item that is out of stock is also low on
        stock. */
    lemma OutOfStockIsLow()
      requires IsOutOfStock() && reorderPoint.Some? && reorderPoint.value >= 0.0
      ensures IsLowStock()
    {
    }

    /** An overstocked item with nothing reserved and a non-negative maximum is not
        out of stock. */
    lemma OverstockedInStock()
      requires Valid() && IsOverstocked() && reserved == 0.0 && maxStock.value >= 0.0
      ensures !IsOutOfStock()
    {
    }

    /** A row that the product and store totals count: active and not soft-deleted. */
    predicate Counted()
      reads this`isActive, this`isDeleted
    {
      isActive && !isDeleted
    }

    /** `InventoryItem.total_value` */
    function TotalValue(): (v: real)
      reads this
      ensures unitCost.None? ==> v == 0.0
      ensures unitCost.Some? && unitCost.value >= 0.0 && onHand >= 0.0 ==> v >= 0.0
    {
      if unitCost.None? then 0.0 else onHand * unitCost.value
    }

    /** `update_available_quantity` */
    method UpdateAvailable()
      modifies this`available
      ensures Valid()
    {
      available := onHand - reserved;
    }

    /** `reserve_quantity`: refuses more than is available. */
    method Reserve(quantity: real) returns (r: Outcome<StockError>)
      modifies this`reserved, this`available
      ensures r.Fail? <==> quantity > old(available)
      ensures r.Fail? ==> r.error == ExceedsAvailable && reserved == old(reserved) && available == old(available)
      ensures r.Pass? ==> reserved == old(reserved) + quantity && Valid()
      ensures r.Pass? && old(Valid()) ==> available == old(available) - quantity && available >= 0.0
      ensures r.Pass? && old(Valid()) ==> (IsOutOfStock() <==> quantity == old(available))
    {
      if quantity > available {
        return Fail(ExceedsAvailable);
      }
      reserved := reserved + quantity;
      UpdateAvailable();
      return Pass;
    }

    /** `release_reservation`: refuses more than is reserved. */
    method Release(quantity: real) returns (r: Outcome<StockError>)
      modifies this`reserved, this`available
      ensures r.Fail? <==> quantity > old(reserved)
      ensures r.Fail? ==> r.error == ExceedsReserved && reserved == old(reserved) && available == old(available)
      ensures r.Pass? ==> reserved == old(reserved) - quantity && reserved >= 0.0 && Valid()
      ensures r.Pass? && old(Valid()) ==> available == old(available) + quantity
    {
      if quantity > reserved {
        return Fail(ExceedsReserved);
      }
      reserved := reserved - quantity;
      UpdateAvailable();
      return Pass;
    }

    /** `adjust_quantity`: overwrites the stock on hand, whatever is reserved, and
        returns the adjustment movement for the difference. */
    method AdjustQuantity(newQuantity: real, reason: string) returns (m: StockMovement)
      modifies this`onHand, this`available
      ensures onHand == newQuantity && Valid()
      ensures m.quantity == newQuantity - old(onHand)
      ensures m.movementType == Adjustment && m.inventoryItemId == id && m.storeId == storeId
      ensures m.productId == productId && m.variantId == variantId && m.unitCost == unitCost
      ensures m.referenceNumber.None? && m.notes == Some(reason)
      ensures m.quantityBefore.None? && m.quantityAfter.None?
      ensures m.referenceType.None? && m.referenceId.None?
      ensures IsInbound(m) <==> newQuantity > old(onHand)
      ensures IsOutbound(m) <==> newQuantity < old(onHand)
      ensures IsOutOfStock() <==> newQuantity <= reserved
      ensures IsOverstocked() <==> maxStock.Some? && newQuantity > maxStock.value
    {
      var oldQuantity := onHand;
      var difference := newQuantity - oldQuantity;
      onHand := newQuantity;
      UpdateAvailable();
      m := StockMovement(id, productId, variantId, storeId, Adjustment, difference, unitCost,
                         None, None, None, Some(reason), None, None);
    }

    /** `update_cost`: weighted-average unit cost; the last cost is always recorded. */
    method UpdateCost(newCost: real, quantity: real)
      modifies this`unitCost, this`lastCost
      ensures unitCost == WeightedCost(old(unitCost), onHand, newCost, quantity)
      ensures lastCost == Some(newCost)
    {
      if unitCost.None? || onHand == 0.0 {
        unitCost := Some(newCost);
      } else {
        var totalValue := onHand * unitCost.value + quantity * newCost;
        var totalQuantity := onHand + quantity;
        if totalQuantity > 0.0 {
          unitCost := Some(totalValue / totalQuantity);
          assert unitCost.value == WeightedCost(old(unitCost), onHand, newCost, quantity).value;
        }
      }
      lastCost := Some(newCost);
    }
  }

  // ---------------------------------------------------------------------------
  // Stock adjustments

  /** One line of a stock adjustment: the quantity counted and the one to set. */
  datatype AdjustmentLine = AdjustmentLine(
    item: InventoryItem,
    currentQuantity: real,
    newQuantity: real,
    unitCost: Option<real>,
    reason: Option<string>)

  /** `quantity_difference` */
  function QuantityDifference(l: AdjustmentLine): (d: real)
    ensures l.currentQuantity + d == l.newQuantity
  {
    l.newQuantity - l.currentQuantity
  }

  predicate IsIncrease(l: AdjustmentLine) { QuantityDifference(l) > 0.0 }
  predicate IsDecrease(l: AdjustmentLine) { QuantityDifference(l) < 0.0 }

  /** `value_impact`: the difference valued at the line's cost, 0 without a cost. */
  function ValueImpact(l: AdjustmentLine): (v: real)
    ensures l.unitCost.None? ==> v == 0.0
    ensures l.unitCost.Some? && l.unitCost.value > 0.0 ==>
              (v > 0.0 <==> IsIncrease(l)) && (v < 0.0 <==> IsDecrease(l))
  {
    if l.unitCost.None? then 0.0
    else
      var c := l.unitCost.value;
      var d := QuantityDifference(l);
      assert c > 0.0 ==> (d > 0.0 <==> d * c > 0.0) && (d < 0.0 <==> d * c < 0.0);
      d * c
  }

  /** The value impacts of the lines added up. */
  function SumImpact(lines: seq<AdjustmentLine>): real
    decreases |lines|
  {
    if lines == [] then 0.0 else SumImpact(lines[..|lines| - 1]) + ValueImpact(lines[|lines| - 1])
  }

  /** An adjustment that only adds stock at non-negative costs never lowers the value. */
  lemma {:induction false} IncreasesRaiseValue(lines: seq<AdjustmentLine>)
    requires forall k :: 0 <= k < |lines| ==> !IsDecrease(lines[k])
    requires forall k :: 0 <= k < |lines| ==> lines[k].unitCost.None? || lines[k].unitCost.value >= 0.0
    ensures SumImpact(lines) >= 0.0
    decreases |lines|
  {
    if lines != [] {
      var l := lines[|lines| - 1];
      IncreasesRaiseValue(lines[..|lines| - 1]);
      if l.unitCost.Some? {
        assert QuantityDifference(l) * l.unitCost.value >= 0.0;
      }
    }
  }

  /** The stock on hand of `o` after the lines `ls` were applied in order, when it
      was `start` before: the new quantity of the last line for `o`. */
  function LastSet(ls: seq<AdjustmentLine>, o: InventoryItem, start: real): real
    decreases |ls|
  {
    if ls == [] then start
    else if ls[|ls| - 1].item == o then ls[|ls| - 1].newQuantity
    else LastSet(ls[..|ls| - 1], o, start)
  }

  /** An item no line names keeps its quantity. */
  lemma {:induction false} LastSetUnnamed(ls: seq<AdjustmentLine>, o: InventoryItem, start: real)
    requires forall k :: 0 <= k < |ls| ==> ls[k].item != o
    ensures LastSet(ls, o, start) == start
    decreases |ls|
  {
    if ls != [] {
      var p := ls[..|ls| - 1];
      assert forall k :: 0 <= k < |p| ==> p[k] == ls[k];
      LastSetUnnamed(p, o, start);
    }
  }

  /** Otherwise the last line naming the item decides its quantity. */
  lemma {:induction false} LastSetWins(ls: seq<AdjustmentLine>, o: InventoryItem, start: real, k: nat)
    requires k < |ls| && ls[k].item == o
    requires forall j :: k < j < |ls| ==> ls[j].item != o
    ensures LastSet(ls, o, start) == ls[k].newQuantity
    decreases |ls|
  {
    var n := |ls| - 1;
    if k < n {
      var p := ls[..n];
      assert forall j :: 0 <= j < n ==> p[j] == ls[j];
      LastSetWins(p, o, start, k);
    }
  }

  /** Some line of `ls` names `o`. */
  predicate Named(ls: seq<AdjustmentLine>, o: InventoryItem)
    decreases |ls|
  {
    ls != [] && (ls[|ls| - 1].item == o || Named(ls[..|ls| - 1], o))
  }

  lemma {:induction false} NamedAt(ls: seq<AdjustmentLine>, k: nat)
    requires k < |ls|
    ensures Named(ls, ls[k].item)
    decreases |ls|
  {
    if k < |ls| - 1 {
      NamedAt(ls[..|ls| - 1], k);
    }
  }

  lemma LastSetStep(ls: seq<AdjustmentLine>, i: nat)
    requires i < |ls|
    ensures forall o, start :: LastSet(ls[..i + 1], o, start)
                               == if ls[i].item == o then ls[i].newQuantity else LastSet(ls[..i], o, start)
    ensures forall o :: Named(ls[..i + 1], o) == (ls[i].item == o || Named(ls[..i], o))
  {
    var p := ls[..i + 1];
    assert |p| == i + 1 && p[i] == ls[i];
    assert p[..i] == ls[..i];
    forall o, start
      ensures LastSet(p, o, start) == if ls[i].item == o then ls[i].newQuantity else LastSet(ls[..i], o, start)
    {
    }
    forall o
      ensures Named(p, o) == (ls[i].item == o || Named(ls[..i], o))
    {
    }
  }

  function Items(lines: seq<AdjustmentLine>): set<InventoryItem> {
    set k | 0 <= k < |lines| :: lines[k].item
  }

  datatype AdjustmentStatus = Draft | Approved | Applied

  datatype AdjustmentError = CannotApprove | CannotApply

  class StockAdjustment {
    const id: Id
    const number: string
    const reason: string
    const storeId: Id
    var status: AdjustmentStatus
    var approvedBy: Option<Id>
    var approvedAt: Option<Timestamp>
    var appliedBy: Option<Id>
    var appliedAt: Option<Timestamp>
    var lines: seq<AdjustmentLine>
    /** The note every movement of this adjustment carries. */
    const notes: string

    constructor (id: Id, number: string, reason: string, storeId: Id, lines: seq<AdjustmentLine>)
      ensures this.id == id && this.number == number && this.reason == reason && this.storeId == storeId
      ensures notes == "Stock adjustment: " + reason
      ensures status == Draft && this.lines == lines
      ensures approvedBy.None? && approvedAt.None? && appliedBy.None? && appliedAt.None?
    {
      this.id := id;
      this.number := number;
      this.reason := reason;
      this.storeId := storeId;
      status := Draft;
      approvedBy := None;
      approvedAt := None;
      appliedBy := None;
      appliedAt := None;
      this.lines := lines;
      notes := "Stock adjustment: " + reason;
    }

    /** The movement `apply` records for line `l`, whose item held `before` beforehand. */
    function Movement(l: AdjustmentLine, before: real, unitCost: Option<real>): StockMovement {
      StockMovement(l.item.id, l.item.productId, l.item.variantId, storeId, Adjustment,
                    QuantityDifference(l), unitCost, Some("stock_adjustment"), Some(id),
                    Some(number), Some(notes), Some(before), Some(l.newQuantity))
    }

    /** The movement of an adjustment line is inbound exactly when the line raises the
        quantity it records as current, and outbound exactly when it lowers it. */
    lemma AdjustmentDirection(l: AdjustmentLine, before: real, unitCost: Option<real>)
      ensures IsInbound(Movement(l, before, unitCost)) <==> l.newQuantity > l.currentQuantity
      ensures IsOutbound(Movement(l, before, unitCost)) <==> l.newQuantity < l.currentQuantity
      ensures IsInbound(Movement(l, before, unitCost)) <==> IsIncrease(l)
      ensures IsOutbound(Movement(l, before, unitCost)) <==> IsDecrease(l)
    {
    }

    /** The loop of `apply`: each line in order overwrites its item's stock on hand
        and yields its movement. */
    method ApplyLines(ls: seq<AdjustmentLine>) returns (movements: seq<StockMovement>)
      modifies Items(ls)`onHand, Items(ls)`available
      ensures |movements| == |ls|
      ensures forall k {:trigger movements[k]} :: 0 <= k < |ls| ==>
                movements[k] == Movement(ls[k],
                                                   LastSet(ls[..k], ls[k].item, old(ls[k].item.onHand)),
                                                   old(ls[k].item.unitCost))
      ensures forall k :: 0 <= k < |ls| ==>
                ls[k].item.onHand == LastSet(ls, ls[k].item, old(ls[k].item.onHand))
                && ls[k].item.available == ls[k].item.onHand - ls[k].item.reserved
    {
      movements := [];
      var i := 0;
      while i < |ls|
        invariant 0 <= i <= |ls|
        invariant |movements| == i
        invariant forall k :: 0 <= k < |ls| ==>
                    ls[k].item.onHand == LastSet(ls[..i], ls[k].item, old(ls[k].item.onHand))
                    && ls[k].item.available == if Named(ls[..i], ls[k].item)
                                               then ls[k].item.onHand - ls[k].item.reserved
                                               else old(ls[k].item.available)
        invariant forall k {:trigger movements[k]} :: 0 <= k < i ==>
                    movements[k] == Movement(ls[k],
                                                       LastSet(ls[..k], ls[k].item, old(ls[k].item.onHand)),
                                                       old(ls[k].item.unitCost))
      {
        assert ls[i].item in Items(ls);
        assert ls[i].item.onHand == LastSet(ls[..i], ls[i].item, old(ls[i].item.onHand));
        assert ls[i].item.unitCost == old(ls[i].item.unitCost);
        var m := ApplyLine(ls[i]);
        movements := movements + [m];
        LastSetStep(ls, i);
        i := i + 1;
      }
      assert ls[..i] == ls;
      forall k | 0 <= k < |ls| ensures Named(ls, ls[k].item) {
        NamedAt(ls, k);
      }
    }

    /** The body of `apply`'s loop for one line. */
    method ApplyLine(line: AdjustmentLine) returns (m: StockMovement)
      modifies line.item`onHand, line.item`available
      ensures line.item.onHand == line.newQuantity
      ensures line.item.available == line.item.onHand - line.item.reserved
      ensures m == Movement(line, old(line.item.onHand), line.item.unitCost)
    {
      var item := line.item;
      var oldQuantity := item.onHand;
      item.onHand := line.newQuantity;
      item.UpdateAvailable();
      m := Movement(line, oldQuantity, item.unitCost);
    }

    /** `can_be_approved` */
    predicate CanBeApproved()
      reads this
    {
      status == Draft && |lines| > 0
    }

    /** `can_be_applied` */
    predicate CanBeApplied()
      reads this
    {
      status == Approved
    }

    /** `total_value_impact` */
    method TotalValueImpact() returns (total: real)
      ensures total == SumImpact(lines)
    {
      total := 0.0;
      var i := 0;
      while i < |lines|
        invariant 0 <= i <= |lines|
        invariant total == SumImpact(lines[..i])
      {
        assert lines[..i + 1][..i] == lines[..i];
        total := total + ValueImpact(lines[i]);
        i := i + 1;
      }
      assert lines[..i] == lines;
    }

    /** `approve`: a draft with at least one line becomes approved. */
    method Approve(user: Id, at: Timestamp) returns (r: Outcome<AdjustmentError>)
      modifies this`status, this`approvedBy, this`approvedAt
      ensures r.Pass? <==> old(CanBeApproved())
      ensures r.Fail? ==> r.error == CannotApprove && status == old(status)
                          && approvedBy == old(approvedBy) && approvedAt == old(approvedAt)
      ensures r.Pass? ==> status == Approved && approvedBy == Some(user) && approvedAt == Some(at)
    {
      if !CanBeApproved() {
        return Fail(CannotApprove);
      }
      status := Approved;
      approvedBy := Some(user);
      approvedAt := Some(at);
      return Pass;
    }

    /** `apply`: only an approved adjustment applies.  Each line, in order, sets its
        item's stock on hand to the new quantity and yields one movement; the
        adjustment is then applied, so applying again fails. */
    method Apply(user: Id, at: Timestamp) returns (r: Result<seq<StockMovement>, AdjustmentError>)
      modifies this`status, this`appliedBy, this`appliedAt, Items(lines)`onHand, Items(lines)`available
      ensures r.Err? <==> !old(CanBeApplied())
      ensures r.Err? ==> r.error == CannotApply && status == old(status)
                         && forall k :: 0 <= k < |lines| ==> lines[k].item.onHand == old(lines[k].item.onHand)
      ensures r.Ok? ==> status == Applied && appliedBy == Some(user) && appliedAt == Some(at) && !CanBeApplied()
      ensures r.Ok? ==> |r.value| == |lines|
      ensures r.Ok? ==> forall k :: 0 <= k < |lines| ==>
                r.value[k] == Movement(lines[k],
                                                 LastSet(lines[..k], lines[k].item, old(lines[k].item.onHand)),
                                                 lines[k].item.unitCost)
      ensures r.Ok? ==> forall k :: 0 <= k < |lines| ==>
                lines[k].item.onHand == LastSet(lines, lines[k].item, old(lines[k].item.onHand))
                && lines[k].item.available == lines[k].item.onHand - lines[k].item.reserved
    {
      if !CanBeApplied() {
        return Err(CannotApply);
      }
      var movements := ApplyLines(lines);
      status := Applied;
      appliedBy := Some(user);
      appliedAt := Some(at);
      return Ok(movements);
    }
  }
}
