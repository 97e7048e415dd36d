/** Point-of-sale settlement: line items merged by product and variant, the totals
    chain (subtotal, discount, tax, total, amount due, change), payments, and the
    draft -> completed -> refunded / cancelled status machine. */
module Sales {
  import opened Wrappers
  import Customers

  datatype SaleStatus = Draft | Pending | Completed | Cancelled | Refunded | PartiallyRefunded

  datatype PaymentMethod =
    Cash | CreditCard | DebitCard | Check | BankTransfer | DigitalWallet | StoreCredit | LoyaltyPoints

  /** `SalePayment.get_payment_method_display` */
  function PaymentMethodDisplay(m: PaymentMethod): (r: string)
    ensures r != ""
  {
    match m
    case Cash => "Cash"
    case CreditCard => "Credit Card"
    case DebitCard => "Debit Card"
    case Check => "Check"
    case BankTransfer => "Bank Transfer"
    case DigitalWallet => "Digital Wallet"
    case StoreCredit => "Store Credit"
    case LoyaltyPoints => "Loyalty Points"
  }

  /** Different methods are displayed differently. */
  lemma DisplayDistinct(m: PaymentMethod, n: PaymentMethod)
    requires m != n
    ensures PaymentMethodDisplay(m) != PaymentMethodDisplay(n)
  {
  }

  /** A payment recorded against a sale; new payments are "completed". */
  datatype SalePayment = SalePayment(
    paymentMethod: PaymentMethod,
    amount: real,
    referenceNumber: Option<string>,
    notes: Option<string>,
    status: string)

  /** One line of a sale.  `id` is None until the row is saved. */
  datatype SaleItem = SaleItem(
    id: Option<Id>,
    productId: Id,
    variantId: Option<Id>,
    quantity: real,
    unitPrice: real,
    lineTotal: real,
    discountAmount: real,
    discountPercentage: real,
    taxRate: Option<real>,
    taxAmount: real,
    unitCost: Option<real>)

  /** Quantity times unit price, before discount and tax. */
  function BaseAmount(item: SaleItem): real {
    item.quantity * item.unitPrice
  }

  /** `SaleItem.calculate_line_total`: the discounted base plus tax at the line's rate;
      only the tax and the line total change. */
  function CalculateLineTotal(item: SaleItem): (r: SaleItem)
    ensures r.lineTotal == BaseAmount(item) - item.discountAmount + r.taxAmount
    ensures Truthy(item.taxRate) ==> r.taxAmount == (BaseAmount(item) - item.discountAmount) * item.taxRate.value
    ensures !Truthy(item.taxRate) ==> r.taxAmount == 0.0
    ensures r.(taxAmount := item.taxAmount, lineTotal := item.lineTotal) == item
  {
    var discounted := BaseAmount(item) - item.discountAmount;
    if Truthy(item.taxRate) then
      var tax := discounted * item.taxRate.value;
      item.(taxAmount := tax, lineTotal := discounted + tax)
    else
      item.(taxAmount := 0.0, lineTotal := discounted)
  }

  /** With a rate, the line total is the discounted base scaled by one plus the rate. */
  lemma LineTotalScales(item: SaleItem)
    ensures Truthy(item.taxRate) ==>
              CalculateLineTotal(item).lineTotal == (BaseAmount(item) - item.discountAmount) * (1.0 + item.taxRate.value)
    ensures !Truthy(item.taxRate) ==> CalculateLineTotal(item).lineTotal == BaseAmount(item) - item.discountAmount
  {
  }

  /** `SaleItem.apply_discount`: a truthy percentage wins and sets the amount from it; a
      truthy amount otherwise sets the percentage from it (0 when the base is not
      positive); with neither nothing but the totals is recomputed. */
  function ApplyItemDiscount(item: SaleItem, discountAmount: Option<real>, discountPercentage: Option<real>): (r: SaleItem)
    ensures Truthy(discountPercentage) ==>
              r.discountPercentage == discountPercentage.value
              && r.discountAmount == BaseAmount(item) * (discountPercentage.value / 100.0)
    ensures !Truthy(discountPercentage) && Truthy(discountAmount) ==>
              r.discountAmount == discountAmount.value
              && (BaseAmount(item) > 0.0 ==> r.discountPercentage == discountAmount.value / BaseAmount(item) * 100.0)
              && (BaseAmount(item) <= 0.0 ==> r.discountPercentage == 0.0)
    ensures !Truthy(discountPercentage) && !Truthy(discountAmount) ==>
              r.discountAmount == item.discountAmount && r.discountPercentage == item.discountPercentage
    ensures r == CalculateLineTotal(r.(taxAmount := item.taxAmount, lineTotal := item.lineTotal))
    ensures r.(discountAmount := item.discountAmount, discountPercentage := item.discountPercentage,
               taxAmount := item.taxAmount, lineTotal := item.lineTotal) == item
  {
    var base := BaseAmount(item);
    var discounted :=
      if Truthy(discountPercentage) then
        item.(discountAmount := base * (discountPercentage.value / 100.0),
              discountPercentage := discountPercentage.value)
      else if Truthy(discountAmount) then
        item.(discountAmount := discountAmount.value,
              discountPercentage := if base > 0.0 then discountAmount.value / base * 100.0 else 0.0)
      else item;
    CalculateLineTotal(discounted)
  }

  /** Whichever way a discount is given, amount and percentage describe the same
      reduction of a positive base. */
  lemma DiscountFieldsAgree(item: SaleItem, discountAmount: Option<real>, discountPercentage: Option<real>)
    requires BaseAmount(item) > 0.0
    requires Truthy(discountPercentage) || Truthy(discountAmount)
    ensures var r := ApplyItemDiscount(item, discountAmount, discountPercentage);
            r.discountAmount == BaseAmount(item) * r.discountPercentage / 100.0
  {
    var base := BaseAmount(item);
    var r := ApplyItemDiscount(item, discountAmount, discountPercentage);
    if !Truthy(discountPercentage) {
      calc {
        base * r.discountPercentage / 100.0;
        base * (discountAmount.value / base * 100.0) / 100.0;
        { assert base * (discountAmount.value / base) == discountAmount.value; }
        discountAmount.value;
      }
    }
  }

  /** `SaleItem.profit_amount`: the line total less the cost of the quantity, or 0
      when no (truthy) unit cost is known. */
  function ProfitAmount(item: SaleItem): (p: real)
    ensures !Truthy(item.unitCost) ==> p == 0.0
    ensures Truthy(item.unitCost) ==> p + item.quantity * item.unitCost.value == item.lineTotal
  {
    if !Truthy(item.unitCost) then 0.0 else item.lineTotal - item.quantity * item.unitCost.value
  }

  /** `SaleItem.profit_margin`: profit as a percentage of the line total. */
  function ProfitMargin(item: SaleItem): (m: real)
    ensures !Truthy(item.unitCost) || item.lineTotal == 0.0 ==> m == 0.0
    ensures item.lineTotal > 0.0 ==> (m > 0.0 <==> ProfitAmount(item) > 0.0)
    ensures item.lineTotal > 0.0 ==> (m < 0.0 <==> ProfitAmount(item) < 0.0)
    ensures Truthy(item.unitCost) && item.lineTotal != 0.0 ==> m * item.lineTotal == ProfitAmount(item) * 100.0
  {
    if !Truthy(item.unitCost) || item.lineTotal == 0.0 then 0.0
    else
      var p := ProfitAmount(item);
      assert item.lineTotal > 0.0 ==> (p / item.lineTotal > 0.0 <==> p > 0.0) && (p / item.lineTotal < 0.0 <==> p < 0.0);
      p / item.lineTotal * 100.0
  }

  /** Sum of the line totals (`sum(item.line_total for item in self.sale_items)`). */
  function SumLineTotals(items: seq<SaleItem>): real {
    if items == [] then 0.0 else SumLineTotals(items[..|items| - 1]) + items[|items| - 1].lineTotal
  }

  /** Sum of the quantities (`item_count`). */
  function SumQuantities(items: seq<SaleItem>): real {
    if items == [] then 0.0 else SumQuantities(items[..|items| - 1]) + items[|items| - 1].quantity
  }

  /** Replacing one line changes the quantity sum by the change in that line's quantity. */
  lemma {:induction false} SumQuantitiesUpdate(items: seq<SaleItem>, k: nat, x: SaleItem)
    requires k < |items|
    ensures SumQuantities(items[k := x]) == SumQuantities(items) - items[k].quantity + x.quantity
    decreases |items|
  {
    var n := |items| - 1;
    var u := items[k := x];
    assert u[..n] == if k == n then items[..n] else items[..n][k := x];
    if k < n {
      SumQuantitiesUpdate(items[..n], k, x);
    }
  }

  /** Sum of the payment amounts (`sum(p.amount for p in self.payments)`). */
  function SumPayments(ps: seq<SalePayment>): real {
    if ps == [] then 0.0 else SumPayments(ps[..|ps| - 1]) + ps[|ps| - 1].amount
  }

  /** A new payment adds exactly its amount to the amount paid. */
  lemma SumPaymentsAppend(ps: seq<SalePayment>, p: SalePayment)
    ensures SumPayments(ps + [p]) == SumPayments(ps) + p.amount
  {
    assert (ps + [p])[..|ps|] == ps;
  }

  /** The derived amounts `calculate_totals` stores. */
  datatype Totals = Totals(subtotal: real, discount: real, tax: real, total: real, due: real, change: real)

  /** The two discount types `calculate_totals` knows; any other type (such as
      "coupon") gives no discount. */
  predicate IsPercentage(discountType: Option<string>) { discountType == Some("percentage") }
  predicate IsFixedAmount(discountType: Option<string>) { discountType == Some("fixed_amount") }

  /** The discount of `calculate_totals`: a percentage of the subtotal (not capped),
      a fixed amount capped at the subtotal, or nothing; a zero or missing value
      gives nothing whatever the type. */
  function Discount(discountType: Option<string>, discountValue: Option<real>, subtotal: real): (d: real)
    ensures IsFixedAmount(discountType) && Truthy(discountValue) ==>
              d <= subtotal && d <= discountValue.value && (d == subtotal || d == discountValue.value)
    ensures !Truthy(discountValue) || (!IsPercentage(discountType) && !IsFixedAmount(discountType)) ==> d == 0.0
  {
    if IsPercentage(discountType) && Truthy(discountValue) then subtotal * (discountValue.value / 100.0)
    else if IsFixedAmount(discountType) && Truthy(discountValue) then
      if discountValue.value <= subtotal then discountValue.value else subtotal
    else 0.0
  }

  /** A percentage discount is that share of the subtotal, whatever its size. */
  lemma PercentageDiscount(discountValue: real, subtotal: real)
    requires discountValue != 0.0
    ensures Discount(Some("percentage"), Some(discountValue), subtotal) == subtotal * (discountValue / 100.0)
  {
  }

  datatype Taxed = Taxed(tax: real, total: real)

  /** The tax and total for a taxable amount: tax carved out of the amount when
      inclusive, added on top when exclusive, none without a (truthy) rate.  A rate of
      exactly -1 makes the inclusive division fail and is excluded. */
  function TaxAndTotal(taxable: real, taxRate: Option<real>, inclusive: bool): (r: Taxed)
    requires taxRate != Some(-1.0)
    ensures !Truthy(taxRate) ==> r == Taxed(0.0, taxable)
    ensures Truthy(taxRate) && inclusive ==> r.total == taxable
    ensures Truthy(taxRate) && !inclusive ==> r.total == taxable + r.tax
  {
    if Truthy(taxRate) then
      var rate := taxRate.value;
      if inclusive then Taxed(taxable * (rate / (1.0 + rate)), taxable)
      else Taxed(taxable * rate, taxable + taxable * rate)
    else Taxed(0.0, taxable)
  }

  /** The tax itself: inclusive tax is the share `rate / (1 + rate)` of the amount, so
      that tax times one plus the rate is the amount times the rate; exclusive tax is
      the amount times the rate. */
  lemma TaxAtRate(taxable: real, rate: real, inclusive: bool)
    requires rate != 0.0 && rate != -1.0
    ensures inclusive ==> TaxAndTotal(taxable, Some(rate), inclusive).tax * (1.0 + rate) == taxable * rate
    ensures !inclusive ==> TaxAndTotal(taxable, Some(rate), inclusive).tax == taxable * rate
  {
    if inclusive {
      var tax := taxable * (rate / (1.0 + rate));
      assert TaxAndTotal(taxable, Some(rate), inclusive).tax == tax;
      assert tax * (1.0 + rate) == taxable * rate;
    }
  }

  /** Inclusive tax leaves the net amount `total / (1 + rate)`: net plus tax is the total. */
  lemma InclusiveNet(taxable: real, rate: real)
    requires rate != 0.0 && rate != -1.0
    ensures var r := TaxAndTotal(taxable, Some(rate), true);
            r.total - r.tax == taxable / (1.0 + rate)
  {
    var r := TaxAndTotal(taxable, Some(rate), true);
    TaxAtRate(taxable, rate, true);
    assert (r.total - r.tax) * (1.0 + rate) == taxable;
  }

  /** The whole chain of `calculate_totals`: subtotal, discount, tax and total, then
      the amount due and the change. */
  function ComputeTotals(items: seq<SaleItem>, discountType: Option<string>, discountValue: Option<real>,
                         taxRate: Option<real>, inclusive: bool, paid: real): Totals
    requires taxRate != Some(-1.0)
  {
    var subtotal := SumLineTotals(items);
    var discount := Discount(discountType, discountValue, subtotal);
    var taxed := TaxAndTotal(subtotal - discount, taxRate, inclusive);
    var total := taxed.total;
    Totals(subtotal, discount, taxed.tax, total, total - paid,
           if paid > total then paid - total else 0.0)
  }

  /** Payments move the amount due and the change, never the total. */
  lemma TotalIgnoresPaid(items: seq<SaleItem>, discountType: Option<string>, discountValue: Option<real>,
                         taxRate: Option<real>, inclusive: bool, paid: real, paid': real)
    requires taxRate != Some(-1.0)
    ensures var t := ComputeTotals(items, discountType, discountValue, taxRate, inclusive, paid);
            var t' := ComputeTotals(items, discountType, discountValue, taxRate, inclusive, paid');
            t'.total == t.total && t'.due == t.due - (paid' - paid)
  {
  }

  /** Amounts computed step by step as `calculate_totals` does form `ComputeTotals`. */
  lemma TotalsChain(items: seq<SaleItem>, discountType: Option<string>, discountValue: Option<real>,
                    taxRate: Option<real>, inclusive: bool, paid: real, t: Totals)
    requires taxRate != Some(-1.0)
    requires t.subtotal == SumLineTotals(items)
    requires t.discount == Discount(discountType, discountValue, t.subtotal)
    requires Taxed(t.tax, t.total) == TaxAndTotal(t.subtotal - t.discount, taxRate, inclusive)
    requires t.due == t.total - paid
    requires t.change == if paid > t.total then paid - t.total else 0.0
    ensures t == ComputeTotals(items, discountType, discountValue, taxRate, inclusive, paid)
  {
  }

  /** A fixed-amount discount never takes the amount below zero, while a percentage
      above 100 does. */
  lemma DiscountBounds(items: seq<SaleItem>, discountValue: real, taxRate: Option<real>, inclusive: bool, paid: real)
    requires taxRate != Some(-1.0) && discountValue != 0.0
    ensures var t := ComputeTotals(items, Some("fixed_amount"), Some(discountValue), taxRate, inclusive, paid);
            t.subtotal - t.discount >= 0.0
    ensures var t := ComputeTotals(items, Some("percentage"), Some(discountValue), taxRate, inclusive, paid);
            discountValue > 100.0 && t.subtotal > 0.0 ==> t.subtotal - t.discount < 0.0
  {
    var t := ComputeTotals(items, Some("percentage"), Some(discountValue), taxRate, inclusive, paid);
    if discountValue > 100.0 && t.subtotal > 0.0 {
      OverHundredPercent(t.subtotal, discountValue, t.discount);
    }
  }

  lemma OverHundredPercent(subtotal: real, value: real, discount: real)
    requires subtotal > 0.0 && value > 100.0 && discount == subtotal * (value / 100.0)
    ensures subtotal - discount < 0.0
  {
    var q := value / 100.0;
    assert subtotal * (q - 1.0) > 0.0;
  }

  /** A sale is paid exactly when the payments cover the total. */
  lemma PaidWhenCovered(t: Totals, paid: real, items: seq<SaleItem>, discountType: Option<string>,
                        discountValue: Option<real>, taxRate: Option<real>, inclusive: bool)
    requires taxRate != Some(-1.0)
    requires t == ComputeTotals(items, discountType, discountValue, taxRate, inclusive, paid)
    ensures t.due <= 0.0 <==> paid >= t.total
    ensures t.change == Max(0.0, -t.due)
  {
  }

  /** The `(product, variant)` pair that identifies a line for merging. */
  predicate SameProduct(item: SaleItem, productId: Id, variantId: Option<Id>) {
    item.productId == productId && item.variantId == variantId
  }

  /** No two lines share a product and variant: `add_item` merges instead of adding. */
  predicate DistinctLines(items: seq<SaleItem>) {
    forall i, j :: 0 <= i < j < |items| ==> !SameProduct(items[j], items[i].productId, items[i].variantId)
  }

  /** The `(product, variant)` pairs the lines are for. */
  function Keys(items: seq<SaleItem>): set<(Id, Option<Id>)>
    decreases |items|
  {
    if items == [] then {}
    else Keys(items[..|items| - 1]) + {(items[|items| - 1].productId, items[|items| - 1].variantId)}
  }

  /** A pair that no line is for is not among the keys. */
  lemma {:induction false} KeyAbsent(items: seq<SaleItem>, productId: Id, variantId: Option<Id>)
    requires forall i :: 0 <= i < |items| ==> !SameProduct(items[i], productId, variantId)
    ensures (productId, variantId) !in Keys(items)
    decreases |items|
  {
    if items != [] {
      KeyAbsent(items[..|items| - 1], productId, variantId);
    }
  }

  /** Merged lines are one per product and variant, so counting the lines counts
      the distinct products and variants sold. */
  lemma {:induction false} DistinctKeyCount(items: seq<SaleItem>)
    requires DistinctLines(items)
    ensures |Keys(items)| == |items|
    decreases |items|
  {
    if items != [] {
      var init := items[..|items| - 1];
      var last := items[|items| - 1];
      assert DistinctLines(init) by {
        forall i, j | 0 <= i < j < |init|
          ensures !SameProduct(init[j], init[i].productId, init[i].variantId)
        {
          assert init[i] == items[i] && init[j] == items[j];
        }
      }
      DistinctKeyCount(init);
      forall i | 0 <= i < |init|
        ensures !SameProduct(init[i], last.productId, last.variantId)
      {
        assert init[i] == items[i];
        assert !SameProduct(last, items[i].productId, items[i].variantId);
      }
      KeyAbsent(init, last.productId, last.variantId);
    }
  }

  /** Index of the first line for the product and variant, if any. */
  function FirstMatch(items: seq<SaleItem>, productId: Id, variantId: Option<Id>): (r: Option<nat>)
    ensures r.Some? ==> r.value < |items| && SameProduct(items[r.value], productId, variantId)
                        && forall j :: 0 <= j < r.value ==> !SameProduct(items[j], productId, variantId)
    ensures r.None? ==> forall j :: 0 <= j < |items| ==> !SameProduct(items[j], productId, variantId)
  {
    if items == [] then None
    else if SameProduct(items[0], productId, variantId) then Some(0)
    else match FirstMatch(items[1..], productId, variantId)
      case None => None
      case Some(k) => Some(k + 1)
  }

  /** The unsaved line `add_item` creates, with its totals computed. */
  function NewLine(productId: Id, variantId: Option<Id>, quantity: real, unitPrice: real, discountAmount: real): SaleItem {
    CalculateLineTotal(SaleItem(None, productId, variantId, quantity, unitPrice, 0.0, discountAmount, 0.0, None, 0.0, None))
  }

  /** The lines after `add_item`: the quantity added to the first line for the
      product and variant (its totals recomputed), or a new line at the end. */
  function Merged(items: seq<SaleItem>, productId: Id, variantId: Option<Id>,
                  quantity: real, unitPrice: real, discountAmount: real): seq<SaleItem>
  {
    match FirstMatch(items, productId, variantId)
    case Some(k) => items[k := CalculateLineTotal(items[k].(quantity := items[k].quantity + quantity))]
    case None => items + [NewLine(productId, variantId, quantity, unitPrice, discountAmount)]
  }

  /** Adding an item grows the sale by a line exactly when the product and variant
      are new; a merged line keeps its identity and gains the quantity; merged lines
      stay distinct. */
  lemma MergedShape(items: seq<SaleItem>, productId: Id, variantId: Option<Id>,
                    quantity: real, unitPrice: real, discountAmount: real)
    ensures var r := Merged(items, productId, variantId, quantity, unitPrice, discountAmount);
            (exists k :: 0 <= k < |items| && SameProduct(items[k], productId, variantId))
              ==> |r| == |items|
                  && exists k :: 0 <= k < |items| && SameProduct(r[k], productId, variantId)
                                 && r[k].quantity == items[k].quantity + quantity && r[k].id == items[k].id
                                 && forall j :: 0 <= j < |items| && j != k ==> r[j] == items[j]
    ensures var r := Merged(items, productId, variantId, quantity, unitPrice, discountAmount);
            (forall k :: 0 <= k < |items| ==> !SameProduct(items[k], productId, variantId))
              ==> r == items + [NewLine(productId, variantId, quantity, unitPrice, discountAmount)]
    ensures DistinctLines(items) ==> DistinctLines(Merged(items, productId, variantId, quantity, unitPrice, discountAmount))
  {
    var r := Merged(items, productId, variantId, quantity, unitPrice, discountAmount);
    match FirstMatch(items, productId, variantId)
    case Some(k) =>
      assert SameProduct(r[k], productId, variantId);
      if DistinctLines(items) {
        forall i, j | 0 <= i < j < |r|
          ensures !SameProduct(r[j], r[i].productId, r[i].variantId)
        {
          assert SameProduct(r[k], items[k].productId, items[k].variantId);
        }
      }
    case None =>
      if DistinctLines(items) {
        forall i, j | 0 <= i < j < |r|
          ensures !SameProduct(r[j], r[i].productId, r[i].variantId)
        {
          if j == |items| {
            assert !SameProduct(items[i], productId, variantId);
          }
        }
      }
  }

  /** `item_count` after `add_item`: whether the quantity is merged into a matching
      line or a new line is appended, the item count grows by exactly that quantity. */
  lemma MergedItemCount(items: seq<SaleItem>, productId: Id, variantId: Option<Id>,
                        quantity: real, unitPrice: real, discountAmount: real)
    ensures SumQuantities(Merged(items, productId, variantId, quantity, unitPrice, discountAmount))
            == SumQuantities(items) + quantity
  {
    match FirstMatch(items, productId, variantId)
    case Some(k) =>
      SumQuantitiesUpdate(items, k, CalculateLineTotal(items[k].(quantity := items[k].quantity + quantity)));
    case None =>
      var r := items + [NewLine(productId, variantId, quantity, unitPrice, discountAmount)];
      assert r[..|r| - 1] == items;
  }

  /** Keep the lines whose id differs from `saleItemId` (an unsaved line always stays). */
  function WithoutItem(items: seq<SaleItem>, saleItemId: Id): (r: seq<SaleItem>)
    ensures |r| <= |items|
    ensures forall x :: x in r <==> x in items && x.id != Some(saleItemId)
  {
    if items == [] then []
    else if items[0].id != Some(saleItemId) then [items[0]] + WithoutItem(items[1..], saleItemId)
    else WithoutItem(items[1..], saleItemId)
  }

  /** Filtering keeps the order of the lines: it works on each part of a split list
      separately. */
  lemma {:induction false} WithoutItemConcat(a: seq<SaleItem>, b: seq<SaleItem>, saleItemId: Id)
    ensures WithoutItem(a + b, saleItemId) == WithoutItem(a, saleItemId) + WithoutItem(b, saleItemId)
    decreases |a|
  {
    if a == [] {
      assert a + b == b;
    } else {
      assert (a + b)[0] == a[0] && (a + b)[1..] == a[1..] + b;
      WithoutItemConcat(a[1..], b, saleItemId);
    }
  }

  /** Removing lines keeps the merged lines distinct. */
  lemma {:induction false} WithoutKeepsDistinct(items: seq<SaleItem>, saleItemId: Id)
    requires DistinctLines(items)
    ensures DistinctLines(WithoutItem(items, saleItemId))
  {
    if items != [] {
      var rest := items[1..];
      assert DistinctLines(rest) by {
        forall i, j | 0 <= i < j < |rest|
          ensures !SameProduct(rest[j], rest[i].productId, rest[i].variantId)
        {
          assert rest[i] == items[i + 1] && rest[j] == items[j + 1];
        }
      }
      WithoutKeepsDistinct(rest, saleItemId);
      var tail := WithoutItem(rest, saleItemId);
      if items[0].id != Some(saleItemId) {
        var r := [items[0]] + tail;
        forall i, j | 0 <= i < j < |r|
          ensures !SameProduct(r[j], r[i].productId, r[i].variantId)
        {
          if i == 0 {
            assert r[j] in rest;
            var k :| 0 <= k < |rest| && rest[k] == r[j];
            assert items[k + 1] == r[j];
          } else {
            assert r[i] == tail[i - 1] && r[j] == tail[j - 1];
          }
        }
      }
    }
  }

  datatype SaleError = NotDraft | NotPaid | CannotCancel | NotCompleted | ExceedsRefundable

  class Sale {
    const id: Id
    const saleNumber: string
    var customer: Customers.Customer?
    var status: SaleStatus
    var saleDate: Timestamp
    var subtotal: real
    var taxAmount: real
    var discountAmount: real
    var totalAmount: real
    var amountPaid: real
    var amountDue: real
    var changeAmount: real
    var discountType: Option<string>
    var discountValue: Option<real>
    var discountReason: Option<string>
    var taxRate: Option<real>
    var taxInclusive: bool
    var notes: Option<string>
    var loyaltyPointsEarned: int
    var refundedAmount: real
    var refundReason: Option<string>
    var items: seq<SaleItem>
    var payments: seq<SalePayment>

    /** A new draft sale with the column defaults: no lines, no payments, all zero. */
    constructor (id: Id, saleNumber: string, customer: Customers.Customer?, saleDate: Timestamp,
                 taxRate: Option<real>, taxInclusive: bool, loyaltyPointsEarned: int)
      requires taxRate != Some(-1.0)
      ensures this.id == id && this.saleNumber == saleNumber && this.customer == customer
      ensures status == Draft && this.saleDate == saleDate
      ensures this.taxRate == taxRate && this.taxInclusive == taxInclusive
      ensures this.loyaltyPointsEarned == loyaltyPointsEarned
      ensures items == [] && payments == [] && amountPaid == 0.0 && refundedAmount == 0.0
      ensures discountType.None? && discountValue.None? && notes.None? && refundReason.None?
      ensures Valid()
    {
      this.id := id;
      this.saleNumber := saleNumber;
      this.customer := customer;
      status := Draft;
      this.saleDate := saleDate;
      subtotal, taxAmount, discountAmount, totalAmount := 0.0, 0.0, 0.0, 0.0;
      amountPaid, amountDue, changeAmount := 0.0, 0.0, 0.0;
      discountType, discountValue, discountReason := None, None, None;
      this.taxRate := taxRate;
      this.taxInclusive := taxInclusive;
      notes := None;
      this.loyaltyPointsEarned := loyaltyPointsEarned;
      refundedAmount := 0.0;
      refundReason := None;
      items := [];
      payments := [];
    }

    /** The totals `calculate_totals` would store for the current lines, discount,
        tax settings and amount paid. */
    function Expected(): (t: Totals)
      requires taxRate != Some(-1.0)
      reads this`items, this`discountType, this`discountValue, this`taxRate, this`taxInclusive, this`amountPaid
      ensures t.subtotal == SumLineTotals(items) && t.due == t.total - amountPaid
    {
      ComputeTotals(items, discountType, discountValue, taxRate, taxInclusive, amountPaid)
    }

    /** The stored amounts agree with the lines, and payments add up to the amount paid. */
    predicate Valid()
      reads this
    {
      taxRate != Some(-1.0)
      && Totals(subtotal, discountAmount, taxAmount, totalAmount, amountDue, changeAmount) == Expected()
      && amountPaid == SumPayments(payments)
    }

    /** The linked customer, if any, as a frame. */
    function Linked(): set<Customers.Customer>
      reads this
    {
      if customer == null then {} else {customer}
    }

    /** `is_paid` */
    predicate IsPaid()
      reads this
    {
      amountDue <= 0.0
    }

    /** `is_overpaid` */
    predicate IsOverpaid()
      reads this
    {
      amountPaid > totalAmount
    }

    /** A sale whose stored amounts are current is paid exactly when the payments
        cover the total, so an overpaid sale is paid. */
    lemma OverpaidIsPaid()
      requires Valid()
      ensures IsPaid() <==> amountPaid >= totalAmount
      ensures IsOverpaid() ==> IsPaid()
    {
      assert amountDue == Expected().due && totalAmount == Expected().total;
    }

    /** `item_count` */
    function ItemCount(): (n: real)
      reads this
      ensures items == [] ==> n == 0.0
    {
      SumQuantities(items)
    }

    /** `unique_item_count`: with the lines merged as `add_item` keeps them, the
        number of lines is the number of distinct products and variants. */
    function UniqueItemCount(): (n: nat)
      reads this
      ensures n == |items|
      ensures DistinctLines(items) ==> n == |Keys(items)|
    {
      if DistinctLines(items) then DistinctKeyCount(items); |items| else |items|
    }

    /** `calculate_totals`: stores the derived amounts in sequence. */
    method CalculateTotals()
      requires taxRate != Some(-1.0)
      modifies this`subtotal, this`discountAmount, this`taxAmount, this`totalAmount
      modifies this`amountDue, this`changeAmount
      ensures Totals(subtotal, discountAmount, taxAmount, totalAmount, amountDue, changeAmount) == Expected()
    {
      var sub := SumLineTotals(items);
      var discount := Discount(discountType, discountValue, sub);
      var taxed := TaxAndTotal(sub - discount, taxRate, taxInclusive);
      var change := 0.0;
      if amountPaid > taxed.total {
        change := amountPaid - taxed.total;
      }
      var t := Totals(sub, discount, taxed.tax, taxed.total, taxed.total - amountPaid, change);
      TotalsChain(items, discountType, discountValue, taxRate, taxInclusive, amountPaid, t);
      subtotal, discountAmount, taxAmount, totalAmount, amountDue, changeAmount :=
        t.subtotal, t.discount, t.tax, t.total, t.due, t.change;
    }

    /** The scan of `add_item`: the first line for the product and variant. */
    method FindItem(productId: Id, variantId: Option<Id>) returns (r: Option<nat>)
      ensures r == FirstMatch(items, productId, variantId)
    {
      var i := 0;
      while i < |items|
        invariant 0 <= i <= |items|
        invariant forall j :: 0 <= j < i ==> !SameProduct(items[j], productId, variantId)
      {
        if SameProduct(items[i], productId, variantId) {
          return Some(i);
        }
        i := i + 1;
      }
      return None;
    }

    /** `add_item`: merges into the line for the same product and variant by adding
        the quantity, or appends one new unsaved line; then recomputes the totals.
        The unit price is required here (a missing one makes Python's line total fail). */
    method AddItem(productId: Id, variantId: Option<Id>, quantity: real, unitPrice: real, discountAmount: real)
      requires Valid()
      modifies this`items, this`subtotal, this`discountAmount, this`taxAmount, this`totalAmount
      modifies this`amountDue, this`changeAmount
      ensures Valid()
      ensures items == Merged(old(items), productId, variantId, quantity, unitPrice, discountAmount)
    {
      var found := FindItem(productId, variantId);
      if found.Some? {
        var k := found.value;
        var merged := CalculateLineTotal(items[k].(quantity := items[k].quantity + quantity));
        items := items[k := merged];
      } else {
        var item := CalculateLineTotal(SaleItem(None, productId, variantId, quantity, unitPrice,
                                                0.0, discountAmount, 0.0, None, 0.0, None));
        items := items + [item];
      }
      CalculateTotals();
    }

    /** `remove_item`: drops every line with that id and recomputes the totals. */
    method RemoveItem(saleItemId: Id)
      requires Valid()
      modifies this`items, this`subtotal, this`discountAmount, this`taxAmount, this`totalAmount
      modifies this`amountDue, this`changeAmount
      ensures Valid()
      ensures items == WithoutItem(old(items), saleItemId)
      ensures DistinctLines(old(items)) ==> DistinctLines(items)
    {
      if DistinctLines(items) {
        WithoutKeepsDistinct(items, saleItemId);
      }
      items := WithoutItem(items, saleItemId);
      CalculateTotals();
    }

    /** `apply_discount`: records the discount and recomputes the totals. */
    method ApplyDiscount(discountType: string, discountValue: real, reason: Option<string>)
      requires Valid()
      modifies this`discountType, this`discountValue, this`discountReason
      modifies this`subtotal, this`discountAmount, this`taxAmount, this`totalAmount
      modifies this`amountDue, this`changeAmount
      ensures Valid()
      ensures this.discountType == Some(discountType) && this.discountValue == Some(discountValue)
      ensures discountReason == reason
    {
      this.discountType := Some(discountType);
      this.discountValue := Some(discountValue);
      discountReason := reason;
      CalculateTotals();
    }

    /** `add_payment`: appends a completed payment, sets the amount paid to the sum
        of all payments, and recomputes the totals. */
    method AddPayment(paymentMethod: PaymentMethod, amount: real, referenceNumber: Option<string>,
                      paymentNotes: Option<string>) returns (p: SalePayment)
      requires Valid()
      modifies this`payments, this`amountPaid
      modifies this`subtotal, this`discountAmount, this`taxAmount, this`totalAmount
      modifies this`amountDue, this`changeAmount
      ensures Valid()
      ensures p == SalePayment(paymentMethod, amount, referenceNumber, paymentNotes, "completed")
      ensures payments == old(payments) + [p]
      ensures amountPaid == old(amountPaid) + amount
    {
      p := SalePayment(paymentMethod, amount, referenceNumber, paymentNotes, "completed");
      RecordPayment(p);
      CalculateTotals();
    }

    /** The bookkeeping half of `add_payment`: the payment joins the list and the
        amount paid follows it. */
    method RecordPayment(p: SalePayment)
      requires amountPaid == SumPayments(payments)
      modifies this`payments, this`amountPaid
      ensures payments == old(payments) + [p]
      ensures amountPaid == old(amountPaid) + p.amount == SumPayments(payments)
    {
      SumPaymentsAppend(payments, p);
      payments := payments + [p];
      amountPaid := amountPaid + p.amount;
    }

    /** `complete_sale`: only a paid draft completes.  A linked customer's purchase
        history grows by the total, and earned loyalty points are added; stock is
        not touched.  `at` stands for the current time. */
    method CompleteSale(at: Timestamp) returns (r: Outcome<SaleError>)
      modifies this`status, this`saleDate
      modifies Linked()`totalSpent, Linked()`lastPurchaseDate, Linked()`firstPurchaseDate
      modifies Linked()`loyaltyPoints, Linked()`loyaltyTier
      ensures r.Fail? <==> old(status) != Draft || old(amountDue) > 0.0
      ensures r.Fail? ==> r.error == (if old(status) != Draft then NotDraft else NotPaid)
                          && status == old(status) && saleDate == old(saleDate)
      ensures r.Fail? && customer != null ==>
                customer.totalSpent == old(customer.totalSpent) && customer.loyaltyPoints == old(customer.loyaltyPoints)
                && customer.lastPurchaseDate == old(customer.lastPurchaseDate)
                && customer.firstPurchaseDate == old(customer.firstPurchaseDate)
                && customer.loyaltyTier == old(customer.loyaltyTier)
      ensures r.Pass? ==> status == Completed && saleDate == at
      ensures r.Pass? && customer != null ==>
                customer.totalSpent == old(customer.totalSpent) + totalAmount
                && customer.lastPurchaseDate == Some(at)
                && customer.firstPurchaseDate == (if old(customer.firstPurchaseDate).None? then Some(at)
                                                  else old(customer.firstPurchaseDate))
                && customer.loyaltyPoints == old(customer.loyaltyPoints) + (if loyaltyPointsEarned > 0 then loyaltyPointsEarned else 0)
      ensures r.Pass? && customer != null && loyaltyPointsEarned <= 0 ==> customer.loyaltyTier == old(customer.loyaltyTier)
      ensures r.Pass? && customer != null && loyaltyPointsEarned > 0 ==> customer.LoyaltyValid()
    {
      if status != Draft {
        return Fail(NotDraft);
      }
      if !IsPaid() {
        return Fail(NotPaid);
      }
      status := Completed;
      saleDate := at;
      if customer != null {
        customer.UpdatePurchaseHistory(totalAmount, saleDate);
        if loyaltyPointsEarned > 0 {
          customer.AddLoyaltyPoints(loyaltyPointsEarned);
        }
      }
      return Pass;
    }

    /** `cancel_sale`: every status but completed may be cancelled, including the
        refunded ones; a truthy reason is written into the notes. */
    method CancelSale(reason: Option<string>) returns (r: Outcome<SaleError>)
      modifies this`status, this`notes
      ensures r.Fail? <==> old(status) == Completed
      ensures r.Fail? ==> r.error == CannotCancel && status == old(status) && notes == old(notes)
      ensures r.Pass? ==> status == Cancelled
      ensures r.Pass? ==> notes == if reason.Some? && reason.value != "" then Some("Cancelled: " + reason.value) else old(notes)
    {
      if status == Completed {
        return Fail(CannotCancel);
      }
      status := Cancelled;
      if reason.Some? && reason.value != "" {
        notes := Some("Cancelled: " + reason.value);
      }
      return Pass;
    }

    /** `process_refund`: only a completed sale, and no more than the refundable
        remainder; the sale then counts as refunded or partially refunded, so it can
        never be refunded again. */
    method ProcessRefund(amount: real, reason: Option<string>) returns (r: Outcome<SaleError>)
      modifies this`refundedAmount, this`status, this`refundReason
      ensures r.Fail? <==> old(status) != Completed || amount > old(totalAmount - refundedAmount)
      ensures r.Fail? ==> r.error == (if old(status) != Completed then NotCompleted else ExceedsRefundable)
                          && refundedAmount == old(refundedAmount) && status == old(status)
      ensures r.Pass? ==> refundedAmount == old(refundedAmount) + amount && refundedAmount <= totalAmount
      ensures r.Pass? ==> status == (if refundedAmount >= totalAmount then Refunded else PartiallyRefunded)
      ensures r.Pass? ==> status != Completed
      ensures r.Pass? ==> refundReason == if reason.Some? && reason.value != "" then reason else old(refundReason)
    {
      if status != Completed {
        return Fail(NotCompleted);
      }
      if amount > totalAmount - refundedAmount {
        return Fail(ExceedsRefundable);
      }
      refundedAmount := refundedAmount + amount;
      if refundedAmount >= totalAmount {
        status := Refunded;
      } else {
        status := PartiallyRefunded;
      }
      if reason.Some? && reason.value != "" {
        refundReason := reason;
      }
      return Pass;
    }
  }

  /** A second refund after a successful one always fails, whatever the amount. */
  method RefundTwice(s: Sale, first: real, second: real) returns (r1: Outcome<SaleError>, r2: Outcome<SaleError>)
    modifies s`refundedAmount, s`status, s`refundReason
    ensures r1.Pass? ==> r2 == Fail(NotCompleted)
  {
    r1 := s.ProcessRefund(first, None);
    r2 := s.ProcessRefund(second, None);
  }
}
