/** Purchase orders to suppliers, their lines with ordered and received quantities,
    and goods receipts that bring the received stock into inventory. */
module Purchasing {
  import opened Wrappers
  import opened Text
  import Inventory
  import Sales
  import Suppliers

  datatype PurchaseOrderStatus =
    Draft | Pending | Approved | Sent | PartiallyReceived | Received | Completed | Cancelled

  datatype PurchaseError =
    | NotDraft            // only a draft order can be approved
    | NotApproved         // only an approved order can be sent
    | CannotCancel        // a received or completed order cannot be cancelled
    | NotFullyReceived    // an order with outstanding lines cannot be completed
    | ExceedsOutstanding  // a line cannot receive more than is outstanding
    | ReceiptNotDraft     // only a draft receipt can be completed

  /** One line of a purchase order. */
  class PurchaseOrderItem {
    const id: Option<Id>
    const productId: Id
    const variantId: Option<Id>
    var quantityOrdered: real
    var quantityReceived: real
    var unitCost: real
    var lineTotal: real

    /** A line as `add_item` creates it: nothing received yet, total not yet computed. */
    constructor (id: Option<Id>, productId: Id, variantId: Option<Id>, quantityOrdered: real, unitCost: real)
      ensures this.id == id && this.productId == productId && this.variantId == variantId
      ensures this.quantityOrdered == quantityOrdered && this.unitCost == unitCost
      ensures quantityReceived == 0.0 && lineTotal == 0.0
    {
      this.id := id;
      this.productId := productId;
      this.variantId := variantId;
      this.quantityOrdered := quantityOrdered;
      this.unitCost := unitCost;
      quantityReceived := 0.0;
      lineTotal := 0.0;
    }

    /** `is_fully_received` of a line. */
    predicate IsFullyReceived()
      reads this`quantityOrdered, this`quantityReceived
    {
      quantityReceived >= quantityOrdered
    }

    /** `quantity_outstanding`: what is still to come; nothing is outstanding
        exactly when the line is fully received. */
    function QuantityOutstanding(): (r: real)
      reads this`quantityOrdered, this`quantityReceived
      ensures quantityReceived + r == quantityOrdered
      ensures r <= 0.0 <==> IsFullyReceived()
    {
      quantityOrdered - quantityReceived
    }

    /** `received_percentage` of a line: 0 for a line ordering nothing. */
    function ReceivedPercentage(): (r: real)
      reads this`quantityOrdered, this`quantityReceived
      ensures quantityOrdered == 0.0 ==> r == 0.0
      ensures quantityOrdered != 0.0 ==> r * quantityOrdered == quantityReceived * 100.0
      ensures 0.0 <= quantityReceived <= quantityOrdered ==> 0.0 <= r <= 100.0
    {
      if quantityOrdered == 0.0 then 0.0
      else
        var r := (quantityReceived / quantityOrdered) * 100.0;
        assert r * quantityOrdered == quantityReceived * 100.0;
        r
    }

    /** The stored line total is the quantity ordered at the unit cost. */
    predicate LineTotalCurrent()
      reads this`lineTotal, this`quantityOrdered, this`unitCost
    {
      lineTotal == quantityOrdered * unitCost
    }

    /** `calculate_line_total` */
    method CalculateLineTotal()
      modifies this`lineTotal
      ensures LineTotalCurrent()
    {
      lineTotal := quantityOrdered * unitCost;
    }

    /** `receive_quantity`: refuses more than is outstanding, so a line never ends up
        holding more than was ordered. */
    method ReceiveQuantity(quantity: real) returns (r: Outcome<PurchaseError>)
      modifies this`quantityReceived
      ensures r.Fail? <==> quantity > old(QuantityOutstanding())
      ensures r.Fail? ==> r.error == ExceedsOutstanding && quantityReceived == old(quantityReceived)
      ensures r.Pass? ==> quantityReceived == old(quantityReceived) + quantity
      ensures r.Pass? ==> quantityReceived <= quantityOrdered
    {
      if quantity > QuantityOutstanding() {
        return Fail(ExceedsOutstanding);
      }
      quantityReceived := quantityReceived + quantity;
      return Pass;
    }
  }

  // ---------------------------------------------------------------------------
  // Read-only scans over the lines of an order

  /** `is_fully_received`: no line is short, which holds for an order without lines. */
  predicate FullyReceived(items: seq<PurchaseOrderItem>)
    reads items
  {
    forall k :: 0 <= k < |items| ==> items[k].quantityReceived >= items[k].quantityOrdered
  }

  /** `is_partially_received`: some line has received something. */
  predicate SomeReceived(items: seq<PurchaseOrderItem>)
    reads items
  {
    exists k :: 0 <= k < |items| && items[k].quantityReceived > 0.0
  }

  function SumOrdered(items: seq<PurchaseOrderItem>): real
    reads items
  {
    if items == [] then 0.0 else SumOrdered(items[..|items| - 1]) + items[|items| - 1].quantityOrdered
  }

  function SumReceived(items: seq<PurchaseOrderItem>): real
    reads items
  {
    if items == [] then 0.0 else SumReceived(items[..|items| - 1]) + items[|items| - 1].quantityReceived
  }

  function SumLineTotals(items: seq<PurchaseOrderItem>): real
    reads items
  {
    if items == [] then 0.0 else SumLineTotals(items[..|items| - 1]) + items[|items| - 1].lineTotal
  }

  /** `received_percentage` of an order: 0 without lines or when nothing was
      ordered, else received over ordered as a percentage. */
  function ReceivedPercentage(items: seq<PurchaseOrderItem>): (r: real)
    reads items
    ensures items == [] || SumOrdered(items) == 0.0 ==> r == 0.0
    ensures items != [] && SumOrdered(items) != 0.0 ==> r * SumOrdered(items) == SumReceived(items) * 100.0
  {
    if items == [] then 0.0
    else if SumOrdered(items) == 0.0 then 0.0
    else
      var r := (SumReceived(items) / SumOrdered(items)) * 100.0;
      assert r * SumOrdered(items) == SumReceived(items) * 100.0;
      r
  }

  /** Lines that each hold between nothing and what was ordered add up the same way. */
  lemma {:induction false} SumsBounded(items: seq<PurchaseOrderItem>)
    requires forall k :: 0 <= k < |items| ==> 0.0 <= items[k].quantityReceived <= items[k].quantityOrdered
    ensures 0.0 <= SumReceived(items) <= SumOrdered(items)
    decreases |items|
  {
    if items != [] {
      var p := items[..|items| - 1];
      assert forall k :: 0 <= k < |p| ==> p[k] == items[k];
      SumsBounded(p);
    }
  }

  /** Lines received exactly as ordered add up to equal sums. */
  lemma {:induction false} SumsEqual(items: seq<PurchaseOrderItem>)
    requires forall k :: 0 <= k < |items| ==> items[k].quantityReceived == items[k].quantityOrdered
    ensures SumReceived(items) == SumOrdered(items)
    decreases |items|
  {
    if items != [] {
      var p := items[..|items| - 1];
      assert forall k :: 0 <= k < |p| ==> p[k] == items[k];
      SumsEqual(p);
    }
  }

  /** The order's percentage stays within 0..100 while no line is over-received, and
      reaches 100 once every line holds exactly what was ordered. */
  lemma PercentageBounds(items: seq<PurchaseOrderItem>)
    requires forall k :: 0 <= k < |items| ==> 0.0 <= items[k].quantityReceived <= items[k].quantityOrdered
    ensures 0.0 <= ReceivedPercentage(items) <= 100.0
    ensures ((forall k :: 0 <= k < |items| ==> items[k].quantityReceived == items[k].quantityOrdered)
             && SumOrdered(items) != 0.0) ==> ReceivedPercentage(items) == 100.0
  {
    SumsBounded(items);
    if items != [] && SumOrdered(items) != 0.0 {
      var o := SumOrdered(items);
      var r := ReceivedPercentage(items);
      if forall k :: 0 <= k < |items| ==> items[k].quantityReceived == items[k].quantityOrdered {
        SumsEqual(items);
      }
      ScaledBounds(r, o, SumReceived(items));
    }
  }

  /** A product with a positive factor has the sign of the other factor. */
  lemma PositiveFactor(x: real, y: real)
    requires 0.0 < y
    ensures x * y >= 0.0 ==> x >= 0.0
    ensures x * y <= 0.0 ==> x <= 0.0
    ensures x * y == 0.0 ==> x == 0.0
  {
  }

  /** A share `s` of a positive whole `o`, scaled to `r` percent, lies in 0..100. */
  lemma ScaledBounds(r: real, o: real, s: real)
    requires 0.0 < o && 0.0 <= s <= o && r * o == s * 100.0
    ensures 0.0 <= r <= 100.0
    ensures s == o ==> r == 100.0
  {
    assert (r - 100.0) * o == (s - o) * 100.0;
    PositiveFactor(r, o);
    PositiveFactor(r - 100.0, o);
  }

  /** The status `update_status_based_on_receipts` leaves: received when every line
      is complete, partially received when some line has something, else as it was. */
  function StatusFromReceipts(status: PurchaseOrderStatus, items: seq<PurchaseOrderItem>): (r: PurchaseOrderStatus)
    reads items
    ensures r == Received <==> FullyReceived(items) || (status == Received && !SomeReceived(items))
    ensures FullyReceived(items) ==> r == Received
    ensures !FullyReceived(items) && SomeReceived(items) ==> r == PartiallyReceived
    ensures !FullyReceived(items) && !SomeReceived(items) ==> r == status
  {
    if FullyReceived(items) then Received
    else if SomeReceived(items) then PurchaseOrderStatus.PartiallyReceived
    else status
  }

  /** An order without lines counts as received. */
  lemma NoLinesReceived(status: PurchaseOrderStatus)
    ensures StatusFromReceipts(status, []) == Received
  {
  }

  // ---------------------------------------------------------------------------
  // Totals and line merging

  datatype OrderTotals = OrderTotals(subtotal: real, tax: real, total: real)

  /** The amounts `calculate_totals` of a purchase order stores: the discount comes
      off the subtotal, tax is carved out of or added to what is left exactly as for
      a sale, and shipping is added at the end.  A rate of exactly -1 is excluded. */
  function ExpectedTotals(items: seq<PurchaseOrderItem>, discount: real, shipping: real,
                          taxRate: Option<real>, inclusive: bool): (r: OrderTotals)
    reads items
    requires taxRate != Some(-1.0)
    ensures r.subtotal == SumLineTotals(items)
    ensures !Truthy(taxRate) ==> r.tax == 0.0 && r.total == r.subtotal - discount + shipping
    ensures Truthy(taxRate) && inclusive ==> r.total == r.subtotal - discount + shipping
    ensures Truthy(taxRate) && !inclusive ==> r.total == r.subtotal - discount + r.tax + shipping
  {
    var subtotal := SumLineTotals(items);
    var taxed := Sales.TaxAndTotal(subtotal - discount, taxRate, inclusive);
    OrderTotals(subtotal, taxed.tax, taxed.total + shipping)
  }

  /** The `(product, variant)` pair that identifies a line for merging. */
  predicate SameProduct(item: PurchaseOrderItem, productId: Id, variantId: Option<Id>) {
    item.productId == productId && item.variantId == variantId
  }

  /** No two lines share a product and variant: `add_item` merges instead of adding. */
  predicate DistinctLines(items: seq<PurchaseOrderItem>) {
    forall i, j :: 0 <= i < j < |items| ==> !SameProduct(items[j], items[i].productId, items[i].variantId)
  }

  /** Index of the first line for the product and variant, if any. */
  function FirstMatch(items: seq<PurchaseOrderItem>, productId: Id, variantId: Option<Id>): (r: Option<nat>)
    ensures r.Some? ==> r.value < |items| && SameProduct(items[r.value], productId, variantId)
                        && forall j :: 0 <= j < r.value ==> !SameProduct(items[j], productId, variantId)
    ensures r.None? ==> forall j :: 0 <= j < |items| ==> !SameProduct(items[j], productId, variantId)
  {
    if items == [] then None
    else if SameProduct(items[0], productId, variantId) then Some(0)
    else match FirstMatch(items[1..], productId, variantId)
      case None => None
      case Some(k) => Some(k + 1)
  }

  /** Keep the lines whose id differs from `id`; unsaved lines are always kept. */
  function Without(items: seq<PurchaseOrderItem>, id: Id): (r: seq<PurchaseOrderItem>)
    ensures forall k :: 0 <= k < |r| ==> r[k] in items && r[k].id != Some(id)
    ensures forall k :: 0 <= k < |items| && items[k].id != Some(id) ==> items[k] in r
    ensures |r| <= |items|
  {
    if items == [] then []
    else if items[0].id != Some(id) then [items[0]] + Without(items[1..], id)
    else Without(items[1..], id)
  }

  /** Filtering keeps the order of the lines: it works on each part of a split list
      separately. */
  lemma {:induction false} WithoutConcat(a: seq<PurchaseOrderItem>, b: seq<PurchaseOrderItem>, id: Id)
    ensures Without(a + b, id) == Without(a, id) + Without(b, id)
    decreases |a|
  {
    if a == [] {
      assert a + b == b;
    } else {
      assert (a + b)[0] == a[0] && (a + b)[1..] == a[1..] + b;
      WithoutConcat(a[1..], b, id);
    }
  }

  /** Dropping lines keeps the remaining lines distinct. */
  lemma {:induction false} WithoutKeepsDistinct(items: seq<PurchaseOrderItem>, id: Id)
    requires DistinctLines(items)
    ensures DistinctLines(Without(items, id))
  {
    if items != [] {
      var rest := items[1..];
      assert DistinctLines(rest) by {
        forall i, j | 0 <= i < j < |rest|
          ensures !SameProduct(rest[j], rest[i].productId, rest[i].variantId)
        {
          assert rest[i] == items[i + 1] && rest[j] == items[j + 1];
        }
      }
      WithoutKeepsDistinct(rest, id);
      if items[0].id != Some(id) {
        var r := [items[0]] + Without(rest, id);
        forall i, j | 0 <= i < j < |r|
          ensures !SameProduct(r[j], r[i].productId, r[i].variantId)
        {
          if i == 0 {
            assert r[j] in Without(rest, id);
            var m :| 0 <= m < |rest| && rest[m] == r[j];
            assert items[m + 1] == r[j];
          }
        }
      }
    }
  }

  class PurchaseOrder {
    const id: Id
    const poNumber: string
    const supplier: Suppliers.Supplier
    var status: PurchaseOrderStatus
    var orderDate: Timestamp
    var subtotal: real
    var taxAmount: real
    var shippingCost: real
    var discountAmount: real
    var totalAmount: real
    var taxRate: Option<real>
    var taxInclusive: bool
    var approvedBy: Option<Id>
    var approvedAt: Option<Timestamp>
    var notes: Option<string>
    var items: seq<PurchaseOrderItem>

    /** A new draft order without lines; `orderDate` stands for the database clock. */
    constructor (id: Id, poNumber: string, supplier: Suppliers.Supplier, orderDate: Timestamp,
                 shippingCost: real, discountAmount: real, taxRate: Option<real>, taxInclusive: bool)
      requires taxRate != Some(-1.0)
      ensures this.id == id && this.poNumber == poNumber && this.supplier == supplier
      ensures this.orderDate == orderDate && status == Draft && items == []
      ensures this.shippingCost == shippingCost && this.discountAmount == discountAmount
      ensures this.taxRate == taxRate && this.taxInclusive == taxInclusive
      ensures approvedBy.None? && approvedAt.None? && notes.None?
      ensures subtotal == 0.0 && taxAmount == 0.0 && totalAmount == 0.0
    {
      this.id := id;
      this.poNumber := poNumber;
      this.supplier := supplier;
      this.orderDate := orderDate;
      status := Draft;
      subtotal := 0.0;
      taxAmount := 0.0;
      this.shippingCost := shippingCost;
      this.discountAmount := discountAmount;
      totalAmount := 0.0;
      this.taxRate := taxRate;
      this.taxInclusive := taxInclusive;
      approvedBy := None;
      approvedAt := None;
      notes := None;
      items := [];
    }

    /** The lines as a frame. */
    function Lines(): set<PurchaseOrderItem>
      reads this`items
    {
      set k | 0 <= k < |items| :: items[k]
    }

    /** The stored totals are the ones the lines call for. */
    predicate Valid()
      reads this, items
    {
      taxRate != Some(-1.0)
      && OrderTotals(subtotal, taxAmount, totalAmount)
         == ExpectedTotals(items, discountAmount, shippingCost, taxRate, taxInclusive)
    }

    /** `calculate_totals` */
    method CalculateTotals()
      requires taxRate != Some(-1.0)
      modifies this`subtotal, this`taxAmount, this`totalAmount
      ensures Valid()
    {
      var sub := SumLineTotals(items);
      var discounted := sub - discountAmount;
      var taxed := Sales.TaxAndTotal(discounted, taxRate, taxInclusive);
      subtotal, taxAmount, totalAmount := sub, taxed.tax, taxed.total + shippingCost;
    }

    /** The scan of `add_item`: the first line for the product and variant. */
    method FindItem(productId: Id, variantId: Option<Id>) returns (r: Option<nat>)
      ensures r == FirstMatch(items, productId, variantId)
    {
      var i := 0;
      while i < |items|
        invariant 0 <= i <= |items|
        invariant forall j :: 0 <= j < i ==> !SameProduct(items[j], productId, variantId)
      {
        if SameProduct(items[i], productId, variantId) {
          return Some(i);
        }
        i := i + 1;
      }
      return None;
    }

    /** `add_item`: orders more on the line for the same product and variant, or
        appends one new line; then recomputes the totals.  The unit cost is required
        (a missing one makes Python's line total fail). */
    method AddItem(productId: Id, variantId: Option<Id>, quantity: real, unitCost: real)
      requires taxRate != Some(-1.0)
      modifies this`items, this`subtotal, this`taxAmount, this`totalAmount
      modifies Lines()`quantityOrdered, Lines()`lineTotal
      ensures Valid()
      ensures FirstMatch(old(items), productId, variantId).Some? ==>
                var k := FirstMatch(old(items), productId, variantId).value;
                items == old(items)
                && items[k].quantityOrdered == old(items[k].quantityOrdered) + quantity
                && items[k].LineTotalCurrent()
      ensures FirstMatch(old(items), productId, variantId).None? ==>
                |items| == |old(items)| + 1 && items[..|old(items)|] == old(items)
                && var p := items[|old(items)|];
                   fresh(p) && p.id.None? && SameProduct(p, productId, variantId)
                   && p.quantityOrdered == quantity && p.quantityReceived == 0.0
                   && p.unitCost == unitCost && p.LineTotalCurrent()
      ensures forall p :: p in old(items) && !SameProduct(p, productId, variantId) ==>
                p.quantityOrdered == old(p.quantityOrdered) && p.lineTotal == old(p.lineTotal)
      ensures DistinctLines(old(items)) ==> DistinctLines(items)
    {
      MergeItem(productId, variantId, quantity, unitCost);
      CalculateTotals();
    }

    /** The line bookkeeping of `add_item`, before the totals are recomputed. */
    method MergeItem(productId: Id, variantId: Option<Id>, quantity: real, unitCost: real)
      modifies this`items, Lines()`quantityOrdered, Lines()`lineTotal
      ensures FirstMatch(old(items), productId, variantId).Some? ==>
                var k := FirstMatch(old(items), productId, variantId).value;
                items == old(items)
                && items[k].quantityOrdered == old(items[k].quantityOrdered) + quantity
                && items[k].LineTotalCurrent()
      ensures FirstMatch(old(items), productId, variantId).None? ==>
                |items| == |old(items)| + 1 && items[..|old(items)|] == old(items)
                && var p := items[|old(items)|];
                   fresh(p) && p.id.None? && SameProduct(p, productId, variantId)
                   && p.quantityOrdered == quantity && p.quantityReceived == 0.0
                   && p.unitCost == unitCost && p.LineTotalCurrent()
      ensures forall p :: p in old(items) && !SameProduct(p, productId, variantId) ==>
                p.quantityOrdered == old(p.quantityOrdered) && p.lineTotal == old(p.lineTotal)
      ensures DistinctLines(old(items)) ==> DistinctLines(items)
    {
      var found := FindItem(productId, variantId);
      if found.Some? {
        var existing := items[found.value];
        existing.quantityOrdered := existing.quantityOrdered + quantity;
        existing.CalculateLineTotal();
      } else {
        var p := new PurchaseOrderItem(None, productId, variantId, quantity, unitCost);
        p.CalculateLineTotal();
        items := items + [p];
      }
    }

    /** `remove_item`: drops every line with that id, keeping the order of the rest. */
    method RemoveItem(poItemId: Id)
      requires taxRate != Some(-1.0)
      modifies this`items, this`subtotal, this`taxAmount, this`totalAmount
      ensures Valid()
      ensures items == Without(old(items), poItemId)
      ensures forall p :: p in items <==> p in old(items) && p.id != Some(poItemId)
      ensures DistinctLines(old(items)) ==> DistinctLines(items)
    {
      if DistinctLines(items) {
        WithoutKeepsDistinct(items, poItemId);
      }
      items := Without(items, poItemId);
      CalculateTotals();
    }

    /** `approve`: a draft goes straight to approved, recording who and when. */
    method Approve(user: Id, at: Timestamp) returns (r: Outcome<PurchaseError>)
      modifies this`status, this`approvedBy, this`approvedAt
      ensures r.Fail? <==> old(status) != Draft
      ensures r.Fail? ==> r.error == NotDraft && status == old(status)
                          && approvedBy == old(approvedBy) && approvedAt == old(approvedAt)
      ensures r.Pass? ==> status == Approved && approvedBy == Some(user) && approvedAt == Some(at)
    {
      if status != Draft {
        return Fail(NotDraft);
      }
      status := Approved;
      approvedBy := Some(user);
      approvedAt := Some(at);
      return Pass;
    }

    /** `send_to_supplier`: only an approved order is sent. */
    method SendToSupplier() returns (r: Outcome<PurchaseError>)
      modifies this`status
      ensures r.Fail? <==> old(status) != Approved
      ensures r.Fail? ==> r.error == NotApproved && status == old(status)
      ensures r.Pass? ==> status == Sent
    {
      if status != Approved {
        return Fail(NotApproved);
      }
      status := Sent;
      return Pass;
    }

    /** `cancel`: refused once the goods are received or the order is completed; a
        non-empty reason is recorded in the notes. */
    method Cancel(reason: Option<string>) returns (r: Outcome<PurchaseError>)
      modifies this`status, this`notes
      ensures r.Fail? <==> old(status) == Received || old(status) == Completed
      ensures r.Fail? ==> r.error == CannotCancel && status == old(status) && notes == old(notes)
      ensures r.Pass? ==> status == Cancelled
      ensures r.Pass? ==> notes == if HasText(reason) then Some("Cancelled: " + reason.value) else old(notes)
    {
      if status == Received || status == Completed {
        return Fail(CannotCancel);
      }
      status := Cancelled;
      if HasText(reason) {
        notes := Some("Cancelled: " + reason.value);
      }
      return Pass;
    }

    /** `update_status_based_on_receipts` */
    method UpdateStatusBasedOnReceipts()
      modifies this`status
      ensures status == StatusFromReceipts(old(status), items)
    {
      if FullyReceived(items) {
        status := Received;
      } else if SomeReceived(items) {
        status := PurchaseOrderStatus.PartiallyReceived;
      }
    }

    /** `complete`: allowed from any status once every line is fully received; the
        supplier is then owed the order total, dated with the order date. */
    method Complete() returns (r: Outcome<PurchaseError>)
      modifies this`status
      modifies supplier`totalPurchased, supplier`currentBalance, supplier`lastOrderDate, supplier`firstOrderDate
      ensures r.Fail? <==> !FullyReceived(items)
      ensures r.Fail? ==> r.error == NotFullyReceived && status == old(status)
                          && supplier.totalPurchased == old(supplier.totalPurchased)
                          && supplier.currentBalance == old(supplier.currentBalance)
                          && supplier.lastOrderDate == old(supplier.lastOrderDate)
                          && supplier.firstOrderDate == old(supplier.firstOrderDate)
      ensures r.Pass? ==> status == Completed
                          && supplier.totalPurchased == old(supplier.totalPurchased) + totalAmount
                          && supplier.currentBalance == old(supplier.currentBalance) + totalAmount
                          && supplier.lastOrderDate == Some(orderDate)
                          && supplier.firstOrderDate == (if old(supplier.firstOrderDate).None? then Some(orderDate)
                                                         else old(supplier.firstOrderDate))
    {
      if !FullyReceived(items) {
        return Fail(NotFullyReceived);
      }
      status := Completed;
      supplier.UpdatePurchaseHistory(totalAmount, orderDate);
      return Pass;
    }
  }

  // ---------------------------------------------------------------------------
  // Goods receipts

  /** One line of a goods receipt: the order line it fills, the stock it enters (the
      inventory row for the line's product in the receipt's store), and the
      quantity and cost received. */
  datatype ReceiptLine = ReceiptLine(
    poItem: PurchaseOrderItem,
    item: Inventory.InventoryItem,
    quantity: real,
    unitCost: real)

  /** The stock fields of an inventory row that a receipt changes. */
  datatype Stock = Stock(onHand: real, reserved: real, available: real, unitCost: Option<real>, lastCost: Option<real>)

  function StockOf(o: Inventory.InventoryItem): Stock
    reads o`onHand, o`reserved, o`available, o`unitCost, o`lastCost
  {
    Stock(o.onHand, o.reserved, o.available, o.unitCost, o.lastCost)
  }

  /** Receiving `quantity` at `cost` as `complete_receipt` is written: the stock on
      hand is raised first, so `update_cost` averages against a quantity that already
      includes the goods being received. */
  function ReceiveStockAsWritten(s: Stock, quantity: real, cost: real): (r: Stock)
    ensures r.onHand == s.onHand + quantity && r.available == r.onHand - s.reserved
    ensures r.reserved == s.reserved && r.lastCost == Some(cost)
    ensures r.unitCost == Inventory.WeightedCost(s.unitCost, s.onHand + quantity, cost, quantity)
  {
    var onHand := s.onHand + quantity;
    Stock(onHand, s.reserved, onHand - s.reserved,
          Inventory.WeightedCost(s.unitCost, onHand, cost, quantity), Some(cost))
  }

  /** As written, ten units at cost 1 followed by ten received at cost 3 are valued at
      5/3 each, so the thirty units of value received are not all accounted for:
      the stock's value comes to 100/3 instead of 40. */
  lemma AsWrittenMisprices()
    ensures var r := ReceiveStockAsWritten(Stock(10.0, 0.0, 10.0, Some(1.0), None), 10.0, 3.0);
            r.unitCost == Some(5.0 / 3.0) && r.onHand * r.unitCost.value != 10.0 * 1.0 + 10.0 * 3.0
  {
    var r := ReceiveStockAsWritten(Stock(10.0, 0.0, 10.0, Some(1.0), None), 10.0, 3.0);
    assert r.unitCost.value == (20.0 * 1.0 + 10.0 * 3.0) / 30.0;
  }

  /** As written, a row holding nothing but keeping a stale cost of 5 averages that
      stale cost in: ten received at 3 are valued at 4 each, where the corrected
      order takes the new cost of 3. */
  lemma AsWrittenStaleCost()
    ensures ReceiveStockAsWritten(Stock(0.0, 0.0, 0.0, Some(5.0), None), 10.0, 3.0).unitCost == Some(4.0)
    ensures ReceiveStock(Stock(0.0, 0.0, 0.0, Some(5.0), None), 10.0, 3.0).unitCost == Some(3.0)
  {
    var w := Inventory.WeightedCost(Some(5.0), 10.0, 3.0, 10.0);
    assert w == Some((10.0 * 5.0 + 10.0 * 3.0) / (10.0 + 10.0));
    assert (10.0 * 5.0 + 10.0 * 3.0) / (10.0 + 10.0) == 80.0 / 20.0 == 4.0;
  }

  /** Receiving `quantity` at `cost` with the average taken over the stock held
      before the goods arrive, the reading the weighted-average cost calls for. */
  function ReceiveStock(s: Stock, quantity: real, cost: real): (r: Stock)
    ensures r.onHand == s.onHand + quantity && r.available == r.onHand - s.reserved
    ensures r.reserved == s.reserved && r.lastCost == Some(cost)
    ensures r.unitCost == Inventory.WeightedCost(s.unitCost, s.onHand, cost, quantity)
  {
    var onHand := s.onHand + quantity;
    Stock(onHand, s.reserved, onHand - s.reserved,
          Inventory.WeightedCost(s.unitCost, s.onHand, cost, quantity), Some(cost))
  }

  /** Received goods keep the stock's value: the old stock at the old cost plus the
      goods at their cost is what the new quantity is worth at the new cost. */
  lemma ReceivedKeepsValue(s: Stock, quantity: real, cost: real)
    requires s.unitCost.Some? && s.onHand != 0.0 && s.onHand + quantity > 0.0
    ensures var r := ReceiveStock(s, quantity, cost);
            r.unitCost.Some? && r.onHand * r.unitCost.value == s.onHand * s.unitCost.value + quantity * cost
  {
    Inventory.WeightedCostKeepsValue(s.unitCost.value, s.onHand, cost, quantity);
  }

  /** The same ten units at 1 and ten at 3 give 2 each, worth the 40 received. */
  lemma ReceivedExample()
    ensures ReceiveStock(Stock(10.0, 0.0, 10.0, Some(1.0), None), 10.0, 3.0).unitCost == Some(2.0)
  {
  }

  /** The stock of `o` after the lines `ls` were received in order, from `s`, each
      line taken in as `complete_receipt` is written. */
  function StockAfter(ls: seq<ReceiptLine>, o: Inventory.InventoryItem, s: Stock): Stock
    decreases |ls|
  {
    if ls == [] then s
    else
      var before := StockAfter(ls[..|ls| - 1], o, s);
      var l := ls[|ls| - 1];
      if l.item == o then ReceiveStockAsWritten(before, l.quantity, l.unitCost) else before
  }

  /** The quantity the lines `ls` receive on the order line `p`. */
  function ReceivedFor(ls: seq<ReceiptLine>, p: PurchaseOrderItem): real
    decreases |ls|
  {
    if ls == [] then 0.0
    else ReceivedFor(ls[..|ls| - 1], p) + (if ls[|ls| - 1].poItem == p then ls[|ls| - 1].quantity else 0.0)
  }

  /** A stock row that no line names keeps its stock, and stock only ever goes up by
      what the lines for it receive. */
  lemma {:induction false} StockAfterOnHand(ls: seq<ReceiptLine>, o: Inventory.InventoryItem, s: Stock)
    ensures StockAfter(ls, o, s).onHand == s.onHand + QuantityInto(ls, o)
    ensures StockAfter(ls, o, s).reserved == s.reserved
    decreases |ls|
  {
    if ls != [] {
      StockAfterOnHand(ls[..|ls| - 1], o, s);
    }
  }

  /** The quantity the lines `ls` bring into the stock row `o`. */
  function QuantityInto(ls: seq<ReceiptLine>, o: Inventory.InventoryItem): real
    decreases |ls|
  {
    if ls == [] then 0.0
    else QuantityInto(ls[..|ls| - 1], o) + (if ls[|ls| - 1].item == o then ls[|ls| - 1].quantity else 0.0)
  }

  /** Line `k` of `ls` fits on its order line, whose outstanding quantity was
      `outstanding` before the receipt: it asks for no more than is left once the
      earlier lines of the receipt are counted. */
  predicate Fits(ls: seq<ReceiptLine>, k: nat, outstanding: real)
    requires k < |ls|
  {
    ls[k].quantity <= outstanding - ReceivedFor(ls[..k], ls[k].poItem)
  }

  lemma FoldStep(ls: seq<ReceiptLine>, i: nat)
    requires i < |ls|
    ensures forall o, s :: StockAfter(ls[..i + 1], o, s)
                           == if ls[i].item == o then ReceiveStockAsWritten(StockAfter(ls[..i], o, s), ls[i].quantity, ls[i].unitCost)
                              else StockAfter(ls[..i], o, s)
    ensures forall p :: ReceivedFor(ls[..i + 1], p)
                        == ReceivedFor(ls[..i], p) + (if ls[i].poItem == p then ls[i].quantity else 0.0)
  {
    var q := ls[..i + 1];
    assert |q| == i + 1 && q[i] == ls[i];
    assert q[..i] == ls[..i];
    forall o, s
      ensures StockAfter(q, o, s)
              == if ls[i].item == o then ReceiveStockAsWritten(StockAfter(ls[..i], o, s), ls[i].quantity, ls[i].unitCost)
                 else StockAfter(ls[..i], o, s)
    {
    }
    forall p
      ensures ReceivedFor(q, p) == ReceivedFor(ls[..i], p) + (if ls[i].poItem == p then ls[i].quantity else 0.0)
    {
    }
  }

  /** What each line's order line had outstanding, read in the current state. */
  ghost function Outstanding(ls: seq<ReceiptLine>): (r: seq<real>)
    reads PoItems(ls)
    ensures |r| == |ls|
    ensures forall k :: 0 <= k < |ls| ==> r[k] == ls[k].poItem.QuantityOutstanding()
  {
    seq(|ls|, k requires 0 <= k < |ls| reads PoItems(ls) => ls[k].poItem.QuantityOutstanding())
  }

  /** What each line's order line has received, read in the current state. */
  ghost function ReceivedNow(ls: seq<ReceiptLine>): (r: seq<real>)
    reads PoItems(ls)
    ensures |r| == |ls|
    ensures forall k :: 0 <= k < |ls| ==> r[k] == ls[k].poItem.quantityReceived
  {
    seq(|ls|, k requires 0 <= k < |ls| reads PoItems(ls) => ls[k].poItem.quantityReceived)
  }

  /** The stock of each line's stock row, read in the current state. */
  ghost function StockNow(ls: seq<ReceiptLine>): (r: seq<Stock>)
    reads StockItems(ls)
    ensures |r| == |ls|
    ensures forall k :: 0 <= k < |ls| ==> r[k] == StockOf(ls[k].item)
  {
    seq(|ls|, k requires 0 <= k < |ls| reads StockItems(ls) => StockOf(ls[k].item))
  }

  function PoItems(ls: seq<ReceiptLine>): set<PurchaseOrderItem> {
    set k | 0 <= k < |ls| :: ls[k].poItem
  }

  function StockItems(ls: seq<ReceiptLine>): set<Inventory.InventoryItem> {
    set k | 0 <= k < |ls| :: ls[k].item
  }

  datatype ReceiptStatus = ReceiptDraft | ReceiptCompleted

  class GoodsReceipt {
    const id: Id
    const receiptNumber: string
    const storeId: Id
    const order: PurchaseOrder
    const lines: seq<ReceiptLine>
    var status: ReceiptStatus

    /** A new draft receipt against `order`. */
    constructor (id: Id, receiptNumber: string, storeId: Id, order: PurchaseOrder, lines: seq<ReceiptLine>)
      ensures this.id == id && this.receiptNumber == receiptNumber && this.storeId == storeId
      ensures this.order == order && this.lines == lines && status == ReceiptDraft
    {
      this.id := id;
      this.receiptNumber := receiptNumber;
      this.storeId := storeId;
      this.order := order;
      this.lines := lines;
      status := ReceiptDraft;
    }

    /** The PURCHASE movement recorded for line `l`, whose stock row held `before`. */
    function Movement(l: ReceiptLine, before: real): Inventory.StockMovement {
      Inventory.StockMovement(l.item.id, l.poItem.productId, l.poItem.variantId, storeId,
                              Inventory.Purchase, l.quantity, Some(l.unitCost), Some("goods_receipt"),
                              Some(id), Some(receiptNumber), Some("Goods receipt from PO " + order.poNumber),
                              Some(before), Some(before + l.quantity))
    }

    /** A receipt's PURCHASE movement records the stock rising by the quantity
        received, and is inbound exactly when that quantity is positive. */
    lemma ReceiptMovementInbound(l: ReceiptLine, before: real)
      ensures var m := Movement(l, before);
              m.movementType == Inventory.Purchase
              && m.quantityBefore == Some(before) && m.quantityAfter == Some(before + l.quantity)
              && (Inventory.IsInbound(m) <==> l.quantity > 0.0)
              && (Inventory.IsOutbound(m) <==> l.quantity < 0.0)
    {
    }

    /** The movements record the first lines of `ls` in order, each of which fit on
        its order line; `outstanding` and `stock0` are what each line's order line
        and stock row held before the receipt. */
    predicate ReceivedInOrder(ls: seq<ReceiptLine>, outstanding: seq<real>, stock0: seq<Stock>,
                              movements: seq<Inventory.StockMovement>)
    {
      && |movements| <= |ls| == |outstanding| == |stock0|
      && (forall k {:trigger outstanding[k]} :: 0 <= k < |movements| ==> Fits(ls, k, outstanding[k]))
      && (forall k {:trigger movements[k]} :: 0 <= k < |movements| ==>
            movements[k] == Movement(ls[k], StockAfter(ls[..k], ls[k].item, stock0[k]).onHand))
    }

    lemma ReceivedOneMore(ls: seq<ReceiptLine>, outstanding: seq<real>, stock0: seq<Stock>,
                          movements: seq<Inventory.StockMovement>, m: Inventory.StockMovement)
      requires ReceivedInOrder(ls, outstanding, stock0, movements) && |movements| < |ls|
      requires Fits(ls, |movements|, outstanding[|movements|])
      requires m == Movement(ls[|movements|], StockAfter(ls[..|movements|], ls[|movements|].item, stock0[|movements|]).onHand)
      ensures ReceivedInOrder(ls, outstanding, stock0, movements + [m])
    {
    }

    /** The body of `complete_receipt`'s loop for one line: the order line receives
        the quantity (or refuses it, changing nothing), then the stock row takes the
        goods in and only afterwards averages its cost, over the raised stock. */
    method ReceiveLine(l: ReceiptLine) returns (r: Result<Inventory.StockMovement, PurchaseError>)
      modifies l.poItem`quantityReceived
      modifies l.item`onHand, l.item`available, l.item`unitCost, l.item`lastCost
      ensures r.Err? <==> l.quantity > old(l.poItem.QuantityOutstanding())
      ensures r.Err? ==> r.error == ExceedsOutstanding && l.poItem.quantityReceived == old(l.poItem.quantityReceived)
                         && StockOf(l.item) == old(StockOf(l.item))
      ensures r.Ok? ==> l.poItem.quantityReceived == old(l.poItem.quantityReceived) + l.quantity
                        && StockOf(l.item) == ReceiveStockAsWritten(old(StockOf(l.item)), l.quantity, l.unitCost)
                        && r.value == Movement(l, old(l.item.onHand))
    {
      var accepted := l.poItem.ReceiveQuantity(l.quantity);
      if accepted.Fail? {
        return Err(ExceedsOutstanding);
      }
      var before := l.item.onHand;
      l.item.onHand := before + l.quantity;
      l.item.UpdateAvailable();
      l.item.UpdateCost(l.unitCost, l.quantity);
      return Ok(Movement(l, before));
    }

    /** One line received with the cost averaged before the stock is raised, so the
        received goods keep the stock's value (`ReceivedKeepsValue`). */
    method ReceiveLineCorrected(l: ReceiptLine) returns (r: Result<Inventory.StockMovement, PurchaseError>)
      modifies l.poItem`quantityReceived
      modifies l.item`onHand, l.item`available, l.item`unitCost, l.item`lastCost
      ensures r.Err? <==> l.quantity > old(l.poItem.QuantityOutstanding())
      ensures r.Err? ==> r.error == ExceedsOutstanding && l.poItem.quantityReceived == old(l.poItem.quantityReceived)
                         && StockOf(l.item) == old(StockOf(l.item))
      ensures r.Ok? ==> l.poItem.quantityReceived == old(l.poItem.quantityReceived) + l.quantity
                        && StockOf(l.item) == ReceiveStock(old(StockOf(l.item)), l.quantity, l.unitCost)
                        && r.value == Movement(l, old(l.item.onHand))
    {
      var accepted := l.poItem.ReceiveQuantity(l.quantity);
      if accepted.Fail? {
        return Err(ExceedsOutstanding);
      }
      var before := l.item.onHand;
      l.item.UpdateCost(l.unitCost, l.quantity);
      l.item.onHand := before + l.quantity;
      l.item.UpdateAvailable();
      return Ok(Movement(l, before));
    }

    /** The loop of `complete_receipt`: lines are received in order until one asks
        for more than is outstanding; the lines before it stay received. */
    method ReceiveLines(ls: seq<ReceiptLine>, ghost outstanding: seq<real>, ghost received0: seq<real>,
                        ghost stock0: seq<Stock>)
      returns (movements: seq<Inventory.StockMovement>, failed: bool)
      requires |outstanding| == |received0| == |stock0| == |ls|
      requires forall k {:trigger outstanding[k]} :: 0 <= k < |ls| ==>
                 outstanding[k] == ls[k].poItem.quantityOrdered - received0[k]
      requires forall k {:trigger received0[k]} :: 0 <= k < |ls| ==> received0[k] == ls[k].poItem.quantityReceived
      requires forall k {:trigger stock0[k]} :: 0 <= k < |ls| ==> stock0[k] == StockOf(ls[k].item)
      modifies PoItems(ls)`quantityReceived
      modifies StockItems(ls)`onHand, StockItems(ls)`available, StockItems(ls)`unitCost, StockItems(ls)`lastCost
      ensures |movements| <= |ls|
      ensures failed <==> |movements| < |ls|
      ensures failed ==> !Fits(ls, |movements|, outstanding[|movements|])
      ensures ReceivedInOrder(ls, outstanding, stock0, movements)
      ensures forall k {:trigger received0[k]} :: 0 <= k < |ls| ==>
                ls[k].poItem.quantityReceived == received0[k] + ReceivedFor(ls[..|movements|], ls[k].poItem)
      ensures forall k {:trigger stock0[k]} :: 0 <= k < |ls| ==>
                StockOf(ls[k].item) == StockAfter(ls[..|movements|], ls[k].item, stock0[k])
    {
      movements := [];
      failed := false;
      var i := 0;
      while i < |ls| && !failed
        invariant 0 <= i <= |ls| && |movements| == i
        invariant failed ==> i < |ls| && !Fits(ls, i, outstanding[i])
        invariant forall k {:trigger outstanding[k]} :: 0 <= k < |ls| ==>
                    outstanding[k] == ls[k].poItem.quantityOrdered - received0[k]
        invariant ReceivedInOrder(ls, outstanding, stock0, movements)
        invariant forall k {:trigger received0[k]} :: 0 <= k < |ls| ==>
                    ls[k].poItem.quantityReceived == received0[k] + ReceivedFor(ls[..i], ls[k].poItem)
        invariant forall k {:trigger stock0[k]} :: 0 <= k < |ls| ==>
                    StockOf(ls[k].item) == StockAfter(ls[..i], ls[k].item, stock0[k])
        decreases |ls| - i, !failed
      {
        var m := ReceiveAt(ls, i, outstanding, received0, stock0);
        if m.None? {
          failed := true;
        } else {
          ReceivedOneMore(ls, outstanding, stock0, movements, m.value);
          movements := movements + [m.value];
          i := i + 1;
        }
      }
    }

    /** Line `i` of the loop, with the lines before it received. */
    method ReceiveAt(ls: seq<ReceiptLine>, i: nat, ghost outstanding: seq<real>,
                     ghost received0: seq<real>, ghost stock0: seq<Stock>)
      returns (m: Option<Inventory.StockMovement>)
      requires i < |ls| == |outstanding| == |received0| == |stock0|
      requires outstanding[i] == ls[i].poItem.quantityOrdered - received0[i]
      requires forall k {:trigger received0[k]} :: 0 <= k < |ls| ==>
                 ls[k].poItem.quantityReceived == received0[k] + ReceivedFor(ls[..i], ls[k].poItem)
      requires forall k {:trigger stock0[k]} :: 0 <= k < |ls| ==>
                 StockOf(ls[k].item) == StockAfter(ls[..i], ls[k].item, stock0[k])
      modifies PoItems(ls)`quantityReceived
      modifies StockItems(ls)`onHand, StockItems(ls)`available, StockItems(ls)`unitCost, StockItems(ls)`lastCost
      ensures m.None? <==> !Fits(ls, i, outstanding[i])
      ensures m.Some? ==> m.value == Movement(ls[i], StockAfter(ls[..i], ls[i].item, stock0[i]).onHand)
      ensures m.Some? ==> forall k {:trigger received0[k]} :: 0 <= k < |ls| ==>
                ls[k].poItem.quantityReceived == received0[k] + ReceivedFor(ls[..i + 1], ls[k].poItem)
      ensures m.Some? ==> forall k {:trigger stock0[k]} :: 0 <= k < |ls| ==>
                StockOf(ls[k].item) == StockAfter(ls[..i + 1], ls[k].item, stock0[k])
      ensures m.None? ==> forall k {:trigger received0[k]} :: 0 <= k < |ls| ==>
                ls[k].poItem.quantityReceived == received0[k] + ReceivedFor(ls[..i], ls[k].poItem)
      ensures m.None? ==> forall k {:trigger stock0[k]} :: 0 <= k < |ls| ==>
                StockOf(ls[k].item) == StockAfter(ls[..i], ls[k].item, stock0[k])
    {
      var l := ls[i];
      assert l.poItem in PoItems(ls) && l.item in StockItems(ls);
      assert l.poItem.quantityReceived == received0[i] + ReceivedFor(ls[..i], l.poItem);
      assert StockOf(l.item) == StockAfter(ls[..i], l.item, stock0[i]);
      label Before:
      var r := ReceiveLine(l);
      if r.Err? {
        return None;
      }
      FoldStep(ls, i);
      forall k | 0 <= k < |ls|
        ensures ls[k].poItem.quantityReceived == received0[k] + ReceivedFor(ls[..i + 1], ls[k].poItem)
      {
        assert ls[k].poItem.quantityReceived
               == old@Before(ls[k].poItem.quantityReceived) + (if ls[k].poItem == l.poItem then l.quantity else 0.0);
      }
      forall k | 0 <= k < |ls|
        ensures StockOf(ls[k].item) == StockAfter(ls[..i + 1], ls[k].item, stock0[k])
      {
        if ls[k].item == l.item {
          assert StockOf(ls[k].item) == ReceiveStockAsWritten(old@Before(StockOf(l.item)), l.quantity, l.unitCost);
        } else {
          assert StockOf(ls[k].item) == old@Before(StockOf(ls[k].item));
        }
      }
      return Some(r.value);
    }

    /** `complete_receipt`: only a draft receipt completes.  Every line is received
        on its order line and taken into stock, each yielding a PURCHASE movement;
        then the receipt is completed and the order's status follows its lines.  A
        line asking for more than is outstanding stops the receipt, leaving the
        lines before it received and the receipt a draft.  `done` counts the lines
        that were received. */
    method CompleteReceipt() returns (r: Result<seq<Inventory.StockMovement>, PurchaseError>, ghost done: nat)
      modifies this`status, order`status
      modifies PoItems(lines)`quantityReceived
      modifies StockItems(lines)`onHand, StockItems(lines)`available, StockItems(lines)`unitCost, StockItems(lines)`lastCost
      ensures done <= |lines|
      ensures forall k :: 0 <= k < |lines| ==>
                lines[k].poItem.quantityReceived == old(ReceivedNow(lines))[k] + ReceivedFor(lines[..done], lines[k].poItem)
      ensures forall k :: 0 <= k < |lines| ==>
                StockOf(lines[k].item) == StockAfter(lines[..done], lines[k].item, old(StockNow(lines))[k])
      ensures old(status) != ReceiptDraft ==>
                r == Err(ReceiptNotDraft) && done == 0 && status == old(status) && order.status == old(order.status)
      ensures old(status) == ReceiptDraft ==>
                (forall k :: 0 <= k < done ==> Fits(lines, k, old(Outstanding(lines))[k]))
                && (r.Ok? <==> done == |lines|)
                && (r.Err? ==> !Fits(lines, done, old(Outstanding(lines))[done]))
      ensures old(status) == ReceiptDraft && r.Ok? ==>
                status == ReceiptCompleted && |r.value| == |lines|
                && ReceivedInOrder(lines, old(Outstanding(lines)), old(StockNow(lines)), r.value)
                && order.status == StatusFromReceipts(old(order.status), order.items)
      ensures old(status) == ReceiptDraft && r.Err? ==>
                r.error == ExceedsOutstanding && status == ReceiptDraft && order.status == old(order.status)
    {
      ghost var outstanding := Outstanding(lines);
      ghost var received0 := ReceivedNow(lines);
      ghost var stock0 := StockNow(lines);
      if status != ReceiptDraft {
        assert lines[..0] == [];
        return Err(ReceiptNotDraft), 0;
      }
      var movements, failed := ReceiveLines(lines, outstanding, received0, stock0);
      done := |movements|;
      if failed {
        return Err(ExceedsOutstanding), done;
      }
      Finish();
      return Ok(movements), done;
    }

    /** The end of `complete_receipt`: the receipt is completed and the order's status
        follows its lines. */
    method Finish()
      modifies this`status, order`status
      ensures status == ReceiptCompleted
      ensures order.status == StatusFromReceipts(old(order.status), order.items)
    {
      status := ReceiptCompleted;
      order.UpdateStatusBasedOnReceipts();
    }
  }
}
