# simply-accounting core, modelled in Dafny

This project models the business logic of the simply-accounting back end: the ORM
model methods of the ledger, inventory, sales, purchasing, customer, supplier,
product and store records, and the pydantic field validators of the user and
authentication schemas. The database, HTTP endpoints, tokens and password hashing
are outside it.

Modules, one per source file plus three shared ones:

- `Wrappers`: `Option`, `Result`, `Outcome`, and `Truthy`, which is Python truthiness of an optional number.
- `Text`: ASCII character classes plus `strip`, `lower`, `title`, substring search and `join`.
- `Collections`: the tag lists, JSON field maps and available credit that several records share.
- `Trees`: a loaded hierarchy (account chart, category tree) with pre-order descendants and full paths.
- `Accounting` (`models/accounting.py`):
  - accounts live in a `Ledger` arena `map<Id, Account>`;
  - `Transaction` is a class whose journal lines are a `seq` field;
  - posting and reversal update the arena.
- `Inventory` (`models/inventory.py`):
  - `InventoryItem` is a class with on-hand, reserved and available stock and a weighted-average cost;
  - stock movements are values;
  - `StockAdjustment` is the draft → approved → applied document.
- `Sales` (`models/sale.py`): `Sale` with its lines, discount, tax, payments, and the complete/cancel/refund status machine.
- `Purchasing` (`models/purchase.py`):
  - purchase orders and their lines;
  - the approve/send/cancel/complete machine;
  - `GoodsReceipt.complete_receipt`, which drives order lines, stock and movements.
- `Customers`, `Suppliers`, `Products`, `Stores`: the records of the same names.
- `UserSchemas`, `AuthSchemas` (`schemas/user.py`, `schemas/auth.py`): each validator is a function from the raw field to `Result`. Each form is a function that collects every field's error, as pydantic does.

Amounts and quantities are exact `real`s, and `float(...)` casts are the identity.
Database clocks (`func.now()`) become `Timestamp` parameters. Objects the code
reaches through ORM relationships (the customer of a sale, the stock row of a
receipt line) are parameters or fields.

Where the design notes and the code disagree, the model follows the code:

- `is_balanced` accepts totals that differ by less than 0.01. Exact equality is not required.
- A new transaction's status column defaults to "posted".
- `reverse` neither posts the reversal nor changes any balance. It links the original through the reversal's not-yet-assigned id.
- `complete_sale` does not issue stock.
- Purchase-order `approve` goes from draft straight to approved. No "pending" step is used.
- `adjust_quantity` does not check the reserved quantity.
- Journal lines with both a debit and a credit are not rejected.
- The hierarchies are walked recursively over the loaded tree, with no visited-set guard.
- `complete_receipt` raises the stock on hand before averaging the cost, and the receipt methods do the same. The corrected order is kept beside them (see Findings).

## Model

| member | source | states |
|---|---|---|
| Accounting.NormalSide | simply-accounting/app/models/accounting.py:118-125 | every account type is exactly one of debit-normal (asset, expense) and credit-normal |
| Accounting.IsDebitAccount | simply-accounting/app/models/accounting.py:118-120 | asset or expense (NormalSide proves each type has exactly one normal side) |
| Accounting.IsCreditAccount | simply-accounting/app/models/accounting.py:123-125 | liability, equity or revenue |
| Accounting.BalanceEffect | simply-accounting/app/models/accounting.py:136-147 | the balance change is ±amount, and a positive amount raises the balance exactly when its side is the account's normal side |
| Accounting.DebitCreditCancel | simply-accounting/app/models/accounting.py:136-147 | a debit and a credit of the same amount cancel on every account type |
| Accounting.Updated | simply-accounting/app/models/accounting.py:136-147 | updating one account keeps the set of accounts in the chart |
| Accounting.Ledger.UpdateBalance | simply-accounting/app/models/accounting.py:136-147 | only the named account changes, and its balance moves by the normal-balance effect |
| Accounting.Amount | simply-accounting/app/models/accounting.py:340-344 | the amount is the debit or the credit, and it is positive for a debit line or a credit line |
| Accounting.Reconcile | simply-accounting/app/models/accounting.py:354-358 | sets the flag, the time and the user, and changes nothing else |
| Accounting.Unreconcile | simply-accounting/app/models/accounting.py:360-364 | clears the flag, the time and the user, and changes nothing else |
| Accounting.UnreconcileUndoesReconcile | simply-accounting/app/models/accounting.py:354-364 | unreconcile after reconcile restores an unreconciled entry |
| Accounting.EqualTotalsBalanced | simply-accounting/app/models/accounting.py:223-226 | equal totals are balanced |
| Accounting.IsBalanced | simply-accounting/app/models/accounting.py:223-225 | totals that differ by less than 0.01 |
| Accounting.BalancedSymmetric | simply-accounting/app/models/accounting.py:223-225 | swapping the debit and credit totals, as a reversal does, keeps the balance check's answer |
| Accounting.Transaction.CanBeReversed | simply-accounting/app/models/accounting.py:228-232 | posted, not yet reversed and not reconciled (its use is shown by DoubleReversalAsWritten and SingleReversal) |
| Accounting.BalancedCentsExact | simply-accounting/app/models/accounting.py:223-226 | for whole-cent totals the 0.01 tolerance is the same as exact equality |
| Accounting.HalfCentAccepted | simply-accounting/app/models/accounting.py:223-226 | totals 0.005 apart count as balanced |
| Accounting.ReversalEntry | simply-accounting/app/models/accounting.py:290-297 | the reversal line keeps the account, swaps debit and credit, and is unreconciled |
| Accounting.IsDebit | simply-accounting/app/models/accounting.py:345-347 | a line with a positive debit |
| Accounting.IsCredit | simply-accounting/app/models/accounting.py:350-352 | a line with a positive credit |
| Accounting.ReversalSwapsSides | simply-accounting/app/models/accounting.py:290-297 | the reversal of a debit line is a credit line and the reversal of a credit line a debit line |
| Accounting.InvoiceIsPaid | simply-accounting/app/models/accounting.py:408-410 | the balance due is at most 0 |
| Accounting.InvoicePaidWhenCovered | simply-accounting/app/models/accounting.py:408-410 | with the balance due kept as total less paid, is_paid holds iff the payments cover the total, and paying more keeps it paid |
| Accounting.ReversalEntries | simply-accounting/app/models/accounting.py:290-297 | one reversal line per original line |
| Accounting.ReversalEntriesAt | simply-accounting/app/models/accounting.py:290-297 | line i of the reversal is the reversal of original line i, so order is kept |
| Accounting.ReversalSwapsTotals | simply-accounting/app/models/accounting.py:290-297 | the reversal's debit total is the original's credit total and vice versa |
| Accounting.ApplyEntry | simply-accounting/app/models/accounting.py:260-265 | posting one line keeps the set of accounts |
| Accounting.ApplyEntries | simply-accounting/app/models/accounting.py:260-265 | posting the lines in order keeps the set of accounts |
| Accounting.ApplyEntryEffect | simply-accounting/app/models/accounting.py:260-265 | one line changes an account by its positive-debit and positive-credit effects only |
| Accounting.PostingEffect | simply-accounting/app/models/accounting.py:260-265 | posting changes each account only in its balance, by exactly the effects of the lines naming it |
| Accounting.UntouchedAccount | simply-accounting/app/models/accounting.py:260-265 | an account no line names keeps its balance |
| Accounting.ReversalNegates | simply-accounting/app/models/accounting.py:290-297 | the reversal's effect on every account is the negation of the original's |
| Accounting.ReversalRestores | simply-accounting/app/models/accounting.py:253-303 | posting a transaction and then its reversal leaves every account as it was |
| Accounting.Transaction.constructor | simply-accounting/app/models/accounting.py:194-216 | a new transaction is unsaved with no lines and zero totals, and its status defaults to "posted" |
| Accounting.Transaction.CalculateTotals | simply-accounting/app/models/accounting.py:234-237 | the totals are the column sums of the lines |
| Accounting.Transaction.AddEntry | simply-accounting/app/models/accounting.py:239-251 | appends one line with the given account and amounts, its description falling back to the transaction's, and the totals become the column sums of the old and new lines |
| Accounting.Transaction.Post | simply-accounting/app/models/accounting.py:253-270 | fails with NotDraft unless draft and with Unbalanced unless balanced, changing nothing. Otherwise the ledger becomes the posting of the lines and the status "posted", with user and time |
| Accounting.Transaction.BuildReversal | simply-accounting/app/models/accounting.py:278-297 | a fresh unsaved transaction with the "REV-" reference, the reversal description and notes, the swapped lines and swapped totals |
| Accounting.Transaction.AddReversedEntries | simply-accounting/app/models/accounting.py:290-297 | the loop adds the swapped lines in order, and the totals are the swapped column sums |
| Accounting.Transaction.ReverseAsWritten | simply-accounting/app/models/accounting.py:272-303 | as written: refused unless reversible. On success it records the reason, but the reversal link stays empty, so the transaction is still reversible |
| Accounting.Transaction.Reverse | simply-accounting/app/models/accounting.py:272-303 | corrected: on success the original links to the reversal's saved id and can no longer be reversed |
| Accounting.DefaultTransactionNotPostable | simply-accounting/app/models/accounting.py:195 | a transaction left at the default status cannot be posted |
| Accounting.DoubleReversalAsWritten | simply-accounting/app/models/accounting.py:297-300 | with reverse as written, one transaction is reversed twice |
| Accounting.SingleReversal | simply-accounting/app/models/accounting.py:228-232 | with the corrected reverse, a second reversal fails |
| Accounting.GetChildrenRecursive | simply-accounting/app/models/accounting.py:149-156 | the result is the pre-order walk that descends only through active, non-deleted children |
| Accounting.LiveDescendantsMembers | simply-accounting/app/models/accounting.py:149-156 | an account is collected exactly when a chain of live accounts leads to it, so an inactive child's subtree is pruned |
| Accounting.LiveDescendantsAreLive | simply-accounting/app/models/accounting.py:149-156 | every collected account is active and not deleted |
| Accounting.AllLiveWalk | simply-accounting/app/models/accounting.py:149-156 | in a tree with nothing inactive, the walk lists every descendant in pre-order |
| Accounting.CanBeDeleted | simply-accounting/app/models/accounting.py:158-171 | true exactly when the account is not a system account, no journal line names it and it has no children |
| Accounting.EntryCount | simply-accounting/app/models/accounting.py:164-165 | the count is zero exactly when no journal line names the account |
| Accounting.FullName | simply-accounting/app/models/accounting.py:111-116 | the names from the root down to the account joined with " > ", or just the name at a root |
| Accounting.InvoiceLineTotal | simply-accounting/app/models/accounting.py:455-464 | line total = base + tax; tax is base × rate for a truthy rate, else 0 |
| Accounting.InvoiceLineScales | simply-accounting/app/models/accounting.py:455-464 | with a rate, the line total is the base scaled by 1 + rate |
| Inventory.DirectionFollowsLevels | simply-accounting/app/models/inventory.py:199-206 | a movement recording the stock level before and after it is inbound iff the level rose and outbound iff it fell |
| Inventory.IsInbound | simply-accounting/app/models/inventory.py:199-201 | a positive quantity |
| Inventory.IsOutbound | simply-accounting/app/models/inventory.py:204-206 | a negative quantity |
| Inventory.StockAdjustment.AdjustmentDirection | simply-accounting/app/models/inventory.py:199-206 | an adjustment line's movement is inbound iff the line raises the recorded current quantity (is_increase) and outbound iff it lowers it (is_decrease) |
| Inventory.MovementValue | simply-accounting/app/models/inventory.py:192-198 | 0 without a cost; with a positive cost, the value has the sign of the quantity |
| Inventory.WeightedCost | simply-accounting/app/models/inventory.py:136-148 | the new cost when there is no cost or no stock; unchanged when the combined quantity is not positive; otherwise the weighted average |
| Inventory.WeightedCostKeepsValue | simply-accounting/app/models/inventory.py:136-148 | the average times the new quantity equals the old stock value plus the received value |
| Inventory.WeightedCostBetween | simply-accounting/app/models/inventory.py:136-148 | receiving stock never moves the average outside the two costs |
| Inventory.InventoryItem.constructor | simply-accounting/app/models/inventory.py:25-61 | a new row holds no stock and nothing reserved, and is active |
| Inventory.InventoryItem.IsLowStock | simply-accounting/app/models/inventory.py:66-71 | false without a reorder point, else available at or below it |
| Inventory.InventoryItem.IsOutOfStock | simply-accounting/app/models/inventory.py:73-76 | nothing available |
| Inventory.InventoryItem.IsOverstocked | simply-accounting/app/models/inventory.py:78-83 | false without a maximum, else on hand above it |
| Inventory.InventoryItem.OutOfStockIsLow | simply-accounting/app/models/inventory.py:66-76 | with a non-negative reorder point, out of stock implies low stock |
| Inventory.InventoryItem.OverstockedInStock | simply-accounting/app/models/inventory.py:73-83 | with nothing reserved and a non-negative maximum, an overstocked item is not out of stock |
| Inventory.InventoryItem.TotalValue | simply-accounting/app/models/inventory.py:86-90 | 0 without a cost, and non-negative for non-negative stock and cost |
| Inventory.InventoryItem.UpdateAvailable | simply-accounting/app/models/inventory.py:92-94 | available = on hand − reserved |
| Inventory.InventoryItem.Reserve | simply-accounting/app/models/inventory.py:96-102 | fails iff the quantity exceeds what is available, changing nothing. Otherwise reserved grows and available shrinks by the quantity, and on hand is unchanged; the item is then out of stock exactly when the whole available quantity was reserved |
| Inventory.InventoryItem.Release | simply-accounting/app/models/inventory.py:104-110 | fails iff the quantity exceeds what is reserved. Otherwise reserved shrinks (staying ≥ 0) and available grows by the quantity |
| Inventory.InventoryItem.AdjustQuantity | simply-accounting/app/models/inventory.py:112-134 | on hand becomes the new quantity whatever is reserved, and available is rederived. The ADJUSTMENT movement carries new − old with the row's ids, cost and reason and no reference; it is inbound iff the quantity rose and outbound iff it fell, and afterwards the item is out of stock iff the new quantity is at most the reserved one and overstocked iff it exceeds a set maximum |
| Inventory.InventoryItem.UpdateCost | simply-accounting/app/models/inventory.py:136-148 | the unit cost becomes the weighted cost, and the last cost is always the new cost |
| Inventory.QuantityDifference | simply-accounting/app/models/inventory.py:353-357 | current + difference = new |
| Inventory.ValueImpact | simply-accounting/app/models/inventory.py:358-364 | 0 without a cost; with a positive cost, the impact has the sign of the difference |
| Inventory.IncreasesRaiseValue | simply-accounting/app/models/inventory.py:262-267 | an adjustment with no decreasing line and no negative cost has a non-negative total impact |
| Inventory.IsIncrease | simply-accounting/app/models/inventory.py:365-367 | the line's quantity difference is positive |
| Inventory.IsDecrease | simply-accounting/app/models/inventory.py:370-372 | the line's quantity difference is negative |
| Inventory.LastSetUnnamed | simply-accounting/app/models/inventory.py:291-296 | a stock row no line names keeps its quantity |
| Inventory.LastSetWins | simply-accounting/app/models/inventory.py:291-296 | the last line naming a row decides its quantity |
| Inventory.StockAdjustment.constructor | simply-accounting/app/models/inventory.py:224-251 | a new adjustment is a draft, with nothing approved or applied |
| Inventory.StockAdjustment.ApplyLines | simply-accounting/app/models/inventory.py:290-316 | one movement per line, in order, each recording the quantity before and the new quantity after; each row ends at the quantity of the last line naming it |
| Inventory.StockAdjustment.ApplyLine | simply-accounting/app/models/inventory.py:291-316 | the row's on hand becomes the line's new quantity with available rederived, and the movement records the previous quantity |
| Inventory.StockAdjustment.TotalValueImpact | simply-accounting/app/models/inventory.py:262-267 | the sum of the lines' value impacts |
| Inventory.StockAdjustment.Approve | simply-accounting/app/models/inventory.py:269-284 | succeeds iff it is a draft with at least one line, becoming approved with user and time; otherwise nothing changes |
| Inventory.StockAdjustment.CanBeApproved | simply-accounting/app/models/inventory.py:269-271 | a draft with at least one line (Approve succeeds exactly then) |
| Inventory.StockAdjustment.CanBeApplied | simply-accounting/app/models/inventory.py:273-275 | approved (Apply succeeds exactly then) |
| Inventory.StockAdjustment.Apply | simply-accounting/app/models/inventory.py:273-322 | fails iff not approved. Otherwise it applies every line, one movement per line, and becomes applied, so a second apply fails |
| Sales.PaymentMethodDisplay | simply-accounting/app/models/sale.py:376-388 | every payment method has a non-empty label |
| Sales.DisplayDistinct | simply-accounting/app/models/sale.py:376-388 | different methods have different labels |
| Sales.CalculateLineTotal | simply-accounting/app/models/sale.py:318-332 | line total = base − discount + tax; tax is (base − discount) × rate for a truthy rate, else 0; other fields are unchanged |
| Sales.LineTotalScales | simply-accounting/app/models/sale.py:318-332 | with a rate, the line total is the discounted base scaled by 1 + rate |
| Sales.ApplyItemDiscount | simply-accounting/app/models/sale.py:334-345 | a truthy percentage wins and sets the amount from it; else a truthy amount sets it; the line total is then recomputed; every other field of the line is kept |
| Sales.DiscountFieldsAgree | simply-accounting/app/models/sale.py:334-345 | after either kind of discount, amount and percentage describe the same share of the base |
| Sales.ProfitAmount | simply-accounting/app/models/sale.py:302-310 | 0 without a cost, else profit + quantity × cost = line total |
| Sales.ProfitMargin | simply-accounting/app/models/sale.py:311-316 | 0 without cost or total; otherwise margin × line total = profit × 100, so with a positive total it has the sign of the profit |
| Sales.SumPaymentsAppend | simply-accounting/app/models/sale.py:209-212 | a new payment adds exactly its amount to the sum |
| Sales.Discount | simply-accounting/app/models/sale.py:126-132 | a fixed amount is capped at the subtotal; no value or an unknown type gives 0 |
| Sales.PercentageDiscount | simply-accounting/app/models/sale.py:127-128 | a percentage discount is that share of the subtotal, uncapped |
| Sales.TaxAndTotal | simply-accounting/app/models/sale.py:134-147 | no rate: no tax and total = taxable; inclusive: total = taxable; exclusive: total = taxable + tax |
| Sales.TaxAtRate | simply-accounting/app/models/sale.py:136-144 | inclusive tax × (1 + rate) = taxable × rate; exclusive tax = taxable × rate |
| Sales.InclusiveNet | simply-accounting/app/models/sale.py:137-140 | with inclusive tax, the net amount plus the tax is the total |
| Sales.TotalIgnoresPaid | simply-accounting/app/models/sale.py:121-156 | payments change only the amount due and the change, never the subtotal, discount, tax or total |
| Sales.TotalsChain | simply-accounting/app/models/sale.py:121-156 | amounts computed step by step as calculate_totals does are the specified totals |
| Sales.DiscountBounds | simply-accounting/app/models/sale.py:127-132 | a fixed discount never exceeds a non-negative subtotal; a percentage discount is proportional to it |
| Sales.OverHundredPercent | simply-accounting/app/models/sale.py:127-128 | a percentage above 100 makes the taxable amount negative |
| Sales.PaidWhenCovered | simply-accounting/app/models/sale.py:102-104 | is_paid holds iff payments cover the total, and the change is max(0, −due) |
| Sales.Sale.IsPaid | simply-accounting/app/models/sale.py:101-104 | nothing is due |
| Sales.Sale.IsOverpaid | simply-accounting/app/models/sale.py:106-109 | more was paid than the total |
| Sales.Sale.OverpaidIsPaid | simply-accounting/app/models/sale.py:101-109 | with current totals, is_paid iff the payments cover the total, so an overpaid sale is paid |
| Sales.FirstMatch | simply-accounting/app/models/sale.py:161-166 | the index of the first line with the same product and variant, or none when no line matches |
| Sales.MergedShape | simply-accounting/app/models/sale.py:158-185 | adding an item grows the lines by one exactly when no line matches, else only the matching line's quantity changes; distinct lines stay distinct |
| Sales.WithoutItem | simply-accounting/app/models/sale.py:187-190 | keeps exactly the lines whose id differs |
| Sales.WithoutItemConcat | simply-accounting/app/models/sale.py:187-190 | the filter works on each part of a split list separately, so the kept lines stay in order |
| Sales.WithoutKeepsDistinct | simply-accounting/app/models/sale.py:187-190 | removing lines keeps them distinct |
| Sales.Sale.constructor | simply-accounting/app/models/sale.py:34-96 | a new draft sale with no lines or payments and all amounts zero |
| Sales.Sale.Expected | simply-accounting/app/models/sale.py:121-156 | the subtotal is the sum of line totals and due = total − paid |
| Sales.Sale.ItemCount | simply-accounting/app/models/sale.py:112-114 | 0 for a sale without lines |
| Sales.MergedItemCount | simply-accounting/app/models/sale.py:112-114 | after add_item, merged or appended, the item count grows by exactly the quantity added |
| Sales.Sale.UniqueItemCount | simply-accounting/app/models/sale.py:117-119 | the number of lines, which for lines merged as `add_item` keeps them is the number of distinct product and variant pairs |
| Sales.DistinctKeyCount | simply-accounting/app/models/sale.py:117-119 | lines with pairwise distinct product and variant pairs number exactly as many as those pairs |
| Sales.Sale.CalculateTotals | simply-accounting/app/models/sale.py:121-156 | the stored amounts become the ones the lines, discount, tax and payments call for |
| Sales.Sale.FindItem | simply-accounting/app/models/sale.py:161-166 | the loop finds the first matching line |
| Sales.Sale.AddItem | simply-accounting/app/models/sale.py:158-185 | the lines become the merged lines, and totals are recomputed |
| Sales.Sale.RemoveItem | simply-accounting/app/models/sale.py:187-190 | the lines lose every line with that id, and totals are recomputed |
| Sales.Sale.ApplyDiscount | simply-accounting/app/models/sale.py:192-197 | records type, value and reason and recomputes the totals |
| Sales.Sale.AddPayment | simply-accounting/app/models/sale.py:199-215 | appends one completed payment, the amount paid grows by its amount (the sum of all payments), and totals are recomputed |
| Sales.Sale.RecordPayment | simply-accounting/app/models/sale.py:209-212 | the payment joins the list and the amount paid is the sum of the payments |
| Sales.Sale.CompleteSale | simply-accounting/app/models/sale.py:217-234 | fails iff not a draft or something is still due, changing nothing, including the linked customer's totals, dates, points and tier. Otherwise the sale is completed at the given time, and a linked customer's total spent grows by the total, the last purchase date becomes that time, the first purchase date is set only when unset, and loyalty points are added when positive (the tier is untouched when none are earned) |
| Sales.Sale.CancelSale | simply-accounting/app/models/sale.py:236-243 | fails only for a completed sale; otherwise cancelled, with the reason noted when given |
| Sales.Sale.ProcessRefund | simply-accounting/app/models/sale.py:245-261 | fails unless completed and within the refundable amount. Otherwise the refunded amount grows, and the status becomes refunded or partially refunded |
| Sales.RefundTwice | simply-accounting/app/models/sale.py:247-248 | after a successful refund, any second refund fails |
| Purchasing.PurchaseOrderItem.constructor | simply-accounting/app/models/purchase.py:180-191 | a new line has nothing received |
| Purchasing.PurchaseOrderItem.QuantityOutstanding | simply-accounting/app/models/purchase.py:273-277 | received + outstanding = ordered, and nothing is outstanding exactly when the line is fully received |
| Purchasing.PurchaseOrderItem.IsFullyReceived | simply-accounting/app/models/purchase.py:278-280 | received at least what was ordered (QuantityOutstanding is at most zero exactly then) |
| Purchasing.PurchaseOrderItem.ReceivedPercentage | simply-accounting/app/models/purchase.py:283-287 | 0 for a line ordering nothing, else 100 × received / ordered, within 0..100 for a valid line |
| Purchasing.PurchaseOrderItem.CalculateLineTotal | simply-accounting/app/models/purchase.py:289-291 | the line total is quantity ordered × unit cost |
| Purchasing.PurchaseOrderItem.ReceiveQuantity | simply-accounting/app/models/purchase.py:293-298 | fails iff more than outstanding; otherwise received grows by the quantity and stays ≤ ordered |
| Purchasing.ReceivedPercentage | simply-accounting/app/models/purchase.py:119-131 | 0 without lines or ordered quantity, else 100 × Σreceived / Σordered |
| Purchasing.SumsBounded | simply-accounting/app/models/purchase.py:119-131 | lines within 0..ordered give 0 ≤ Σreceived ≤ Σordered |
| Purchasing.SumsEqual | simply-accounting/app/models/purchase.py:119-131 | lines received exactly as ordered give equal sums |
| Purchasing.PercentageBounds | simply-accounting/app/models/purchase.py:119-131 | the order's percentage lies in 0..100 and is 100 when every line is exactly received |
| Purchasing.StatusFromReceipts | simply-accounting/app/models/purchase.py:225-230 | received when every line is fully received; else partially received when some line received anything; else unchanged |
| Purchasing.FullyReceived | simply-accounting/app/models/purchase.py:93-99 | no line has received less than it ordered |
| Purchasing.SomeReceived | simply-accounting/app/models/purchase.py:101-107 | some line has received a positive quantity |
| Purchasing.NoLinesReceived | simply-accounting/app/models/purchase.py:93-100 | an order without lines counts as received |
| Purchasing.ExpectedTotals | simply-accounting/app/models/purchase.py:145-165 | subtotal = Σ line totals; the total subtracts the discount and adds shipping, plus tax only when exclusive |
| Purchasing.FirstMatch | simply-accounting/app/models/purchase.py:170-174 | the index of the first line with the same product and variant, or none |
| Purchasing.Without | simply-accounting/app/models/purchase.py:195-198 | keeps exactly the lines whose id differs |
| Purchasing.WithoutConcat | simply-accounting/app/models/purchase.py:195-198 | the filter works on each part of a split list separately, so the kept lines stay in order |
| Purchasing.WithoutKeepsDistinct | simply-accounting/app/models/purchase.py:195-198 | removing lines keeps them distinct |
| Purchasing.PurchaseOrder.constructor | simply-accounting/app/models/purchase.py:24-87 | a new draft order without lines and with zero totals |
| Purchasing.PurchaseOrder.CalculateTotals | simply-accounting/app/models/purchase.py:145-165 | the stored totals become the ones the lines call for |
| Purchasing.PurchaseOrder.FindItem | simply-accounting/app/models/purchase.py:170-174 | the loop finds the first matching line |
| Purchasing.PurchaseOrder.AddItem | simply-accounting/app/models/purchase.py:167-193 | a matching line orders more at a recomputed total, else one new line is appended; other lines are untouched, and totals are recomputed |
| Purchasing.PurchaseOrder.MergeItem | simply-accounting/app/models/purchase.py:167-191 | the line bookkeeping of add_item, with lines kept distinct |
| Purchasing.PurchaseOrder.RemoveItem | simply-accounting/app/models/purchase.py:195-198 | drops every line with that id, keeping the rest in order, and recomputes totals |
| Purchasing.PurchaseOrder.Approve | simply-accounting/app/models/purchase.py:200-207 | succeeds iff draft, becoming approved with user and time |
| Purchasing.PurchaseOrder.SendToSupplier | simply-accounting/app/models/purchase.py:209-214 | succeeds iff approved, becoming sent |
| Purchasing.PurchaseOrder.Cancel | simply-accounting/app/models/purchase.py:216-223 | fails iff received or completed; otherwise cancelled, with the reason noted |
| Purchasing.PurchaseOrder.UpdateStatusBasedOnReceipts | simply-accounting/app/models/purchase.py:225-230 | the status becomes the one the receipts call for |
| Purchasing.PurchaseOrder.Complete | simply-accounting/app/models/purchase.py:232-240 | succeeds iff every line is fully received, from any status. On success the supplier's total and balance grow by the order total, the last order date becomes the order date and the first order date is set only when unset; on failure the status and the supplier's totals and dates are unchanged |
| Purchasing.ReceiveStockAsWritten | simply-accounting/app/models/purchase.py:361-366 | as written: on hand grows first, and the average is then taken over the already-increased stock |
| Purchasing.AsWrittenMisprices | simply-accounting/app/models/purchase.py:361-366 | 10 units at 1 plus 10 received at 3 get unit cost 5/3, not 2, and the stock is then worth less than the 40 received |
| Purchasing.AsWrittenStaleCost | simply-accounting/app/models/purchase.py:361-366 | a row holding nothing at a stale cost of 5 that receives 10 at 3 gets unit cost 4 as written, and 3 when corrected |
| Purchasing.ReceiveStock | simply-accounting/app/models/purchase.py:361-366 | corrected: the average is taken over the stock held before the receipt |
| Purchasing.ReceivedKeepsValue | simply-accounting/app/models/purchase.py:361-366 | the new stock valued at the new cost equals the old value plus the received value |
| Purchasing.ReceivedExample | simply-accounting/app/models/purchase.py:361-366 | corrected: 10 at 1 plus 10 at 3 gives 2 |
| Purchasing.StockAfterOnHand | simply-accounting/app/models/purchase.py:361-363 | a row's on hand grows by exactly what the lines bring into it, and reserved stock is unchanged |
| Purchasing.GoodsReceipt.constructor | simply-accounting/app/models/purchase.py:301-333 | a new draft receipt against the order |
| Purchasing.GoodsReceipt.ReceiveLine | simply-accounting/app/models/purchase.py:350-384 | fails iff the line exceeds its order line's outstanding quantity, changing nothing; otherwise the order line receives the quantity, on hand is raised and available rederived first, and then the cost is averaged over the raised stock (`ReceiveStockAsWritten`), and a PURCHASE movement is returned |
| Purchasing.GoodsReceipt.ReceiptMovementInbound | simply-accounting/app/models/purchase.py:368-383 | a receipt's PURCHASE movement records the level rising by the quantity received and is inbound iff that quantity is positive |
| Purchasing.GoodsReceipt.ReceiveLineCorrected | simply-accounting/app/models/purchase.py:350-384 | corrected: the same line received with the cost averaged over the stock held before the receipt (`ReceiveStock`) |
| Purchasing.GoodsReceipt.ReceiveLines | simply-accounting/app/models/purchase.py:350-386 | lines are received in order until one does not fit; every order line and stock row reflects exactly the lines received, each taken into stock in the source's order |
| Purchasing.GoodsReceipt.ReceiveAt | simply-accounting/app/models/purchase.py:350-386 | one step of that loop, in the source's order |
| Purchasing.GoodsReceipt.CompleteReceipt | simply-accounting/app/models/purchase.py:343-393 | fails unless a draft. Otherwise every line is received with one movement each (quantity after = before + quantity), the receipt is completed and the order status is updated; every stock row ends at the stock the source's order of updates gives; a failing line stops the receipt |
| Purchasing.GoodsReceipt.Finish | simply-accounting/app/models/purchase.py:387-391 | the receipt is completed and the order takes the status its receipts call for |
| Customers.TierFor | simply-accounting/app/models/customer.py:151-160 | platinum ≥ 10000, gold ≥ 5000, silver ≥ 1000, else bronze, each as an iff |
| Customers.TierMonotone | simply-accounting/app/models/customer.py:151-160 | more points never mean a lower tier |
| Customers.Customer.constructor | simply-accounting/app/models/customer.py:11-78 | a new customer with zero balances, bronze tier, no tags |
| Customers.Customer.FullName | simply-accounting/app/models/customer.py:84-90 | first and last name, with the company in parentheses when there is one |
| Customers.Customer.DisplayName | simply-accounting/app/models/customer.py:91-97 | the company when there is one, else the full name |
| Customers.Customer.BillingAddress | simply-accounting/app/models/customer.py:98-110 | the present billing parts (line 1, line 2, city, state, postal code, country), in that order, joined with ", "; empty exactly when none is present |
| Customers.Customer.ShippingAddress | simply-accounting/app/models/customer.py:111-123 | the present shipping parts (line 1, line 2, city, state, postal code, country), in that order, joined with ", "; empty exactly when none is present |
| Customers.Customer.AvailableCredit | simply-accounting/app/models/customer.py:129-136 | max(0, limit − balance): never negative, 0 when over the limit |
| Customers.Customer.HasOutstandingBalance | simply-accounting/app/models/customer.py:124-126 | a positive current balance |
| Customers.Customer.IsOverCreditLimit | simply-accounting/app/models/customer.py:129-131 | the balance exceeds the credit limit |
| Customers.Customer.OverLimitOwes | simply-accounting/app/models/customer.py:124-136 | with a non-negative limit, over the limit implies an outstanding balance, and with none owed the available credit is limit − balance |
| Customers.Customer.UpdateLoyaltyTier | simply-accounting/app/models/customer.py:151-160 | the tier becomes the one the points call for |
| Customers.Customer.AddLoyaltyPoints | simply-accounting/app/models/customer.py:138-141 | points grow by the amount and the tier is recomputed |
| Customers.Customer.RedeemLoyaltyPoints | simply-accounting/app/models/customer.py:143-149 | fails iff more than the balance; otherwise points shrink and the tier is recomputed |
| Customers.Customer.UpdatePurchaseHistory | simply-accounting/app/models/customer.py:166-177 | total spent grows, the last date is set, and the first date only if unset |
| Customers.Customer.AddTag | simply-accounting/app/models/customer.py:203-208 | the tag is present afterwards, with no duplicate added |
| Customers.Customer.RemoveTag | simply-accounting/app/models/customer.py:210-213 | one occurrence is removed, so the tag is gone from a duplicate-free list |
| Customers.Customer.GetCustomField | simply-accounting/app/models/customer.py:215-219 | the stored value, or the default for a missing key |
| Customers.Customer.SetCustomField | simply-accounting/app/models/customer.py:221-225 | the key reads back the value |
| Customers.Customer.Block | simply-accounting/app/models/customer.py:227-231 | blocked and inactive, with the reason |
| Customers.Customer.Unblock | simply-accounting/app/models/customer.py:233-237 | unblocked and active, with no reason |
| Customers.Customer.CopyBillingToShipping | simply-accounting/app/models/customer.py:239-246 | every shipping field equals its billing field, so both addresses read the same |
| Collections.AddTag | simply-accounting/app/models/customer.py:203-208 | the old tags are kept as a prefix, the tag is added at most once, and the tag set grows by exactly the tag |
| Collections.AddTagIdempotent | simply-accounting/app/models/customer.py:203-208 | adding a tag twice is the same as once |
| Collections.AddTagKeepsDistinct | simply-accounting/app/models/customer.py:203-208 | adding keeps a list duplicate-free |
| Collections.RemoveTag | simply-accounting/app/models/customer.py:210-213 | removes one occurrence if present, else nothing |
| Collections.RemoveTagGone | simply-accounting/app/models/customer.py:210-213 | the tag is gone from a duplicate-free list |
| Collections.RemoveAfterAdd | simply-accounting/app/models/customer.py:203-213 | removing a newly added tag restores the list |
| Collections.GetField | simply-accounting/app/models/customer.py:215-219 | the stored value, or the default |
| Collections.GetAfterSet | simply-accounting/app/models/customer.py:215-225 | set then get returns the value; other keys are unchanged |
| Collections.AvailableCredit | simply-accounting/app/models/supplier.py:115-117 | max(0, limit − balance) |
| Suppliers.TermsDays | simply-accounting/app/models/supplier.py:237-249 | the first of "net 30", "net 15", "net 60", "net 90", "cod"/"cash on delivery" found decides, else 30 |
| Suppliers.PaymentTermsDays | simply-accounting/app/models/supplier.py:231-249 | 30 without terms, otherwise the days read from the lower-cased terms; always one of 0, 15, 30, 60, 90 |
| Suppliers.TermsFoundAnywhere | simply-accounting/app/models/supplier.py:235-239 | "2/10 Net 30" gives 30: the match ignores case and position |
| Suppliers.TermsCashOnDelivery | simply-accounting/app/models/supplier.py:246-247 | "COD" gives 0 |
| Suppliers.TermsNet15 | simply-accounting/app/models/supplier.py:240-241 | "Net 15" gives 15 |
| Suppliers.Supplier.constructor | simply-accounting/app/models/supplier.py:11-81 | a new supplier owes nothing and is approved and active |
| Suppliers.Supplier.FullAddress | simply-accounting/app/models/supplier.py:92-104 | the present address parts (line 1, line 2, city, state, postal code, country), in that order, joined with ", "; empty exactly when none is present |
| Suppliers.Supplier.AvailableCredit | simply-accounting/app/models/supplier.py:110-117 | max(0, limit − balance) |
| Suppliers.Supplier.HasOutstandingBalance | simply-accounting/app/models/supplier.py:105-107 | a positive current balance (MakePayment states when it stays true) |
| Suppliers.Supplier.IsOverCreditLimit | simply-accounting/app/models/supplier.py:110-112 | the balance exceeds the credit limit |
| Suppliers.Supplier.OverLimitOwes | simply-accounting/app/models/supplier.py:105-117 | with a non-negative limit, over the limit implies an outstanding balance, and with none owed the available credit is limit − balance |
| Suppliers.Supplier.UpdatePurchaseHistory | simply-accounting/app/models/supplier.py:119-131 | total purchased and balance grow by the same amount; the first date is set only once |
| Suppliers.Supplier.MakePayment | simply-accounting/app/models/supplier.py:133-138 | fails iff more than owed; otherwise the balance shrinks and stays non-negative, and something is still owed exactly when less than the whole balance was paid |
| Suppliers.Supplier.AddTag | simply-accounting/app/models/supplier.py:190-195 | the tag is present afterwards, with no duplicate |
| Suppliers.Supplier.RemoveTag | simply-accounting/app/models/supplier.py:197-200 | one occurrence is removed |
| Suppliers.Supplier.GetCustomField | simply-accounting/app/models/supplier.py:202-206 | the stored value or the default |
| Suppliers.Supplier.SetCustomField | simply-accounting/app/models/supplier.py:208-212 | the key reads back the value |
| Suppliers.Supplier.Block | simply-accounting/app/models/supplier.py:214-218 | blocked and inactive, with the reason |
| Suppliers.Supplier.Unblock | simply-accounting/app/models/supplier.py:220-224 | unblocked and active, with no reason |
| Suppliers.Supplier.Approve | simply-accounting/app/models/supplier.py:226-229 | approved and active |
| Suppliers.Supplier.TermsInDays | simply-accounting/app/models/supplier.py:231-249 | one of 0, 15, 30, 60, 90; 30 without terms, else TermsDays of the lower-cased terms |
| Trees.FullPathIsJoinedLineage | simply-accounting/app/models/product.py:35-39 | the recursive full path is the root-to-node names joined with " > " |
| Products.CategoryFullPath | simply-accounting/app/models/product.py:35-39 | the names from the root down joined with " > ", or the name at a root |
| Products.AllChildren | simply-accounting/app/models/product.py:41-47 | every descendant in pre-order, each child followed by its own descendants |
| Products.ChildrenFrom | simply-accounting/app/models/product.py:41-47 | the walk from child i on completes the descendants |
| Products.AllChildrenMembers | simply-accounting/app/models/product.py:41-47 | a category is listed exactly when it lies below |
| Products.FirstInStore | simply-accounting/app/models/product.py:141-146 | the first counted row of the store, or none |
| Products.SumOnHand | simply-accounting/app/models/product.py:133-139 | the loop sums on hand over active, non-deleted rows |
| Products.FindStoreOnHand | simply-accounting/app/models/product.py:141-146 | the loop returns the first counted store row's on hand, or 0 |
| Products.TotalNonNegative | simply-accounting/app/models/product.py:133-139 | non-negative rows give a non-negative total |
| Products.RowWithinTotal | simply-accounting/app/models/product.py:133-139 | a counted row never holds more than the total |
| Products.StoreWithinTotal | simply-accounting/app/models/product.py:133-146 | the store quantity never exceeds the total |
| Products.Product.ProfitMargin | simply-accounting/app/models/product.py:116-120 | none without a truthy cost; otherwise margin × cost = (price − cost) × 100, positive iff price > cost |
| Products.Product.ProfitAmount | simply-accounting/app/models/product.py:123-127 | none without a truthy cost; otherwise cost + profit = price |
| Products.Product.GetTotalInventory | simply-accounting/app/models/product.py:133-139 | the sum of on hand over counted rows |
| Products.Product.GetStoreInventory | simply-accounting/app/models/product.py:141-146 | the first counted store row's on hand, or 0 |
| Products.Product.IsInStock | simply-accounting/app/models/product.py:148-156 | always true without tracking; otherwise store quantity > 0, or total > 0 without a store |
| Products.InStockAtStoreImpliesInStock | simply-accounting/app/models/product.py:148-156 | in stock at a store implies a positive total |
| Products.Product.GetAttribute | simply-accounting/app/models/product.py:158-162 | the stored value or the default |
| Products.Product.SetAttribute | simply-accounting/app/models/product.py:164-168 | the key reads back the value |
| Products.Product.AddTag | simply-accounting/app/models/product.py:170-175 | the tag is present, with no duplicate |
| Products.Product.RemoveTag | simply-accounting/app/models/product.py:177-180 | one occurrence is removed |
| Products.OptionEntry | simply-accounting/app/models/product.py:244-248 | "name: value" exactly when both are set |
| Products.ProductVariant.constructor | simply-accounting/app/models/product.py:183-219 | a new variant with no own prices, options or stock |
| Products.ProductVariant.EffectiveCostPrice | simply-accounting/app/models/product.py:231-234 | the variant's truthy cost, else the product's |
| Products.ProductVariant.EffectiveSellingPrice | simply-accounting/app/models/product.py:236-239 | the variant's truthy price, else the product's |
| Products.ProductVariant.OptionSummary | simply-accounting/app/models/product.py:241-250 | the complete options, in order, joined with " \| ", empty when there are none |
| Products.ProductVariant.GetTotalInventory | simply-accounting/app/models/product.py:252-258 | the sum of on hand over counted rows |
| Products.ProductVariant.GetStoreInventory | simply-accounting/app/models/product.py:260-265 | the first counted store row's on hand, or 0 |
| Stores.DefaultOpeningHours | simply-accounting/app/models/store.py:121-131 | seven lower-case days, open every day but sunday, saturday 10:00-16:00 |
| Stores.NumericValue | simply-accounting/app/models/store.py:150-151 | the number a stored threshold compares as, none for a non-numeric value |
| Stores.LowStockMembers | simply-accounting/app/models/store.py:141-153 | a row is listed exactly when it is counted and its on hand ≤ threshold |
| Stores.LowStockNarrows | simply-accounting/app/models/store.py:141-153 | filtering at a lower threshold after a higher one is filtering at the lower one |
| Stores.InventoryValueNonNegative | simply-accounting/app/models/store.py:133-139 | non-negative stock and costs give a non-negative value |
| Stores.InventoryValueUniformCost | simply-accounting/app/models/store.py:133-139 | with one cost throughout, the value is cost × total on hand |
| Stores.Store.FullAddress | simply-accounting/app/models/store.py:59-69 | the present address parts (line 1, line 2, city, state, postal code, country), in that order, joined with ", "; empty exactly when none is present |
| Stores.Store.GetSetting | simply-accounting/app/models/store.py:71-75 | the stored value, or the default |
| Stores.Store.SetSetting | simply-accounting/app/models/store.py:77-81 | the key reads back the value, other keys unchanged |
| Stores.Store.GetOpeningHours | simply-accounting/app/models/store.py:83-90 | nothing when no hours are set, all days without a day, else the lower-cased day's entry |
| Stores.Store.IsOpenOnDay | simply-accounting/app/models/store.py:114-119 | open when no hours are recorded for the day, else the recorded flag |
| Stores.Store.SetOpeningHours | simply-accounting/app/models/store.py:92-101 | the day is open afterwards, other days unchanged |
| Stores.Store.SetClosed | simply-accounting/app/models/store.py:103-112 | the day is closed afterwards, other days unchanged |
| Stores.DayNamesIgnoreCase | simply-accounting/app/models/store.py:114-119 | day names differing only in case read the same |
| Stores.Store.GetInventoryValue | simply-accounting/app/models/store.py:133-139 | the loop sums on hand × cost over counted rows |
| Stores.Store.LowStockThreshold | simply-accounting/app/models/store.py:143-144 | the given threshold, else the setting, else 10 |
| Stores.Store.GetLowStockItems | simply-accounting/app/models/store.py:141-153 | the counted rows at or below the threshold, in order; an error for a non-numeric stored threshold |
| UserSchemas.UsernameShape | simply-accounting/app/schemas/user.py:32-33 | a username passing the character check holds only letters, digits, '_' and '-' |
| UserSchemas.ValidateUsername | simply-accounting/app/schemas/user.py:28-34 | accepted iff stripped length ≥ 3 and alphanumeric without '_'/'-'; an accepted name is lower-cased |
| UserSchemas.ValidatePassword | simply-accounting/app/schemas/user.py:36-46 | accepted iff length ≥ 8 with upper, lower and digit, returned unchanged; the first failing rule is reported |
| UserSchemas.ValidateName | simply-accounting/app/schemas/user.py:48-54 | accepted iff stripped length ≥ 2, returned stripped and title-cased |
| UserSchemas.ValidateRole | simply-accounting/app/schemas/user.py:56-61 | accepted iff one of the five roles |
| UserSchemas.RoleOrDefault | simply-accounting/app/schemas/user.py:17 | no role gives "cashier" |
| UserSchemas.ValidatePhone | simply-accounting/app/schemas/user.py:63-67 | a given phone shorter than 10 stripped is rejected; else stripped, or none |
| UserSchemas.ValidatePhoneUpdate | simply-accounting/app/schemas/user.py:102-106 | a non-blank phone shorter than 10 stripped is rejected; None passes |
| UserSchemas.BlankPhoneOnlyOnUpdate | simply-accounting/app/schemas/user.py:63-67 | a blank phone is rejected on create but accepted as "" on update |
| UserSchemas.ValidateNameUpdate | simply-accounting/app/schemas/user.py:84-92 | None passes; otherwise the create rule |
| UserSchemas.ValidateRoleUpdate | simply-accounting/app/schemas/user.py:94-100 | None passes; otherwise one of the five roles |
| UserSchemas.FieldErrors | simply-accounting/app/schemas/user.py:23-67 | no error for a valid field, one for an invalid one |
| UserSchemas.ValidateUserCreate | simply-accounting/app/schemas/user.py:23-67 | accepted iff every field validator accepts; otherwise one to six errors, one per failing field |
| UserSchemas.UserCreateValues | simply-accounting/app/schemas/user.py:23-67 | an accepted request holds the values the validators returned (stripped lower-case username, title-cased names, stripped phone, role) |
| UserSchemas.UserCreateErrorOrder | simply-accounting/app/schemas/user.py:23-67 | errors come in field order: a username error first, a password error last |
| UserSchemas.Gather | simply-accounting/app/schemas/user.py:23-67 | the combined outcome is a user iff every field passed, else one error per failing field in field order |
| UserSchemas.ValidateUserUpdate | simply-accounting/app/schemas/user.py:70-106 | omitted fields pass through unchanged; otherwise each field's update rule, with an accepted name returned stripped and title-cased and a phone stripped |
| AuthSchemas.RequireText | simply-accounting/app/schemas/auth.py:15-19 | rejected iff blank, else returned stripped |
| AuthSchemas.RequireNonEmpty | simply-accounting/app/schemas/auth.py:21-25 | rejected iff empty, else returned as given |
| AuthSchemas.RequireTextIdempotent | simply-accounting/app/schemas/auth.py:15-19 | stripping a stripped field changes nothing |
| AuthSchemas.RegisteredUsernameLogsIn | simply-accounting/app/schemas/auth.py:15-19 | a registered username passes the login check unchanged |
| AuthSchemas.ValidateLogin | simply-accounting/app/schemas/auth.py:10-25 | accepted iff the username is not blank and the password not empty |
| AuthSchemas.ValidateRegister | simply-accounting/app/schemas/auth.py:28-71 | the user-creation rules, with role "cashier" by default |
| AuthSchemas.ValidateTokenRefresh | simply-accounting/app/schemas/auth.py:83-91 | rejected iff blank, else stripped |
| AuthSchemas.ValidatePasswordResetConfirm | simply-accounting/app/schemas/auth.py:99-114 | accepted iff the new password meets the strength rule |
| AuthSchemas.ValidatePasswordChange | simply-accounting/app/schemas/auth.py:117-138 | the current password need only be non-empty; the new one meets the strength rule |
| AuthSchemas.LoginWeakerThanNewPassword | simply-accounting/app/schemas/auth.py:21-56 | a strong password logs in, but login also takes a weak one |

## Left out

- Database sessions, flushes, cascades and row locking: each change happens in memory, and rows are objects or values passed in.
- Rollback on failure: a failing line of `complete_receipt` leaves the lines before it received, as the in-memory code does. A failing `apply` cannot happen once it is approved.
- `get_or_create_inventory_item` (purchase.py:395-402) is a stub. Each receipt line carries its stock row instead.
- Sales.TaxAndTotal, Sales.Sale.CalculateTotals, Purchasing.ExpectedTotals: a tax rate of exactly −1 is excluded, because the inclusive formula divides by 1 + rate. Python would raise ZeroDivisionError there.
- Sales.Sale.AddItem, Purchasing.PurchaseOrder.AddItem: the unit price or cost is a required number. The source's `None` default would fail in `calculate_line_total`.
- `Numeric(p, s)` quantisation and float rounding: amounts are exact reals.
- Unicode in `isalnum`, `isupper`, `lower`, `title` and `strip`: only the ASCII behaviour is modelled.
- pydantic's e-mail check (`EmailStr`): the e-mail is kept as given. Validators do not run on omitted defaults, which is why the role defaults to "cashier" unchecked.
- Wall-clock reads: `is_overdue` and `days_overdue` of invoices and notes, `get_purchase_frequency`, `get_order_frequency`, and `get_balance(as_of_date)`, which returns the current balance anyway.
- Averages and scoring over dates or floats: `get_average_order_value`, `Supplier.update_performance_metrics`, `Customer.calculate_loyalty_points`.
- `display_price` formatting, `has_variants`, `__repr__`, `StockMovement.get_movement_description`, `total_items` and the status predicates of notes: these are presentation or one-line counts.
- Products.SumOnHand, Stores.Store.GetInventoryValue: `quantity_on_hand` is a non-null column (inventory.py:36), so the `or 0` and `is not None` fallbacks in the source never fire and are not modelled.
- Stores.Store.IsOpenOnDay: stored opening hours are the records `set_opening_hours` and `set_closed` write. An empty day name reads as open.
- Stores.Store.GetLowStockItems: when the stored threshold is not a number, the model reports an error at the first counted row, where Python's comparison would raise. Rows before it are not inspected.
- Accounting hierarchy: the chart and the category tree are loaded finite trees, so cycles are not modelled.

## Findings

| source | as written | input that shows it | evidently intended | confidence | as-written member | corrected member |
|---|---|---|---|---|---|---|
| simply-accounting/app/models/purchase.py:361-366 | `complete_receipt` raises `quantity_on_hand` before `update_cost`, so the weighted average divides by stock that already includes the receipt | 10 units held at cost 1, then 10 received at cost 3: unit cost becomes 5/3 instead of 2; a row holding nothing at a stale cost of 5 that receives 10 at 3 gets 4 instead of 3 | average over the stock held before the receipt, keeping the stock value | not executed | Purchasing.GoodsReceipt.ReceiveLine, Purchasing.AsWrittenMisprices, Purchasing.AsWrittenStaleCost | Purchasing.GoodsReceipt.ReceiveLineCorrected, Purchasing.ReceivedKeepsValue |
| simply-accounting/app/models/accounting.py:297-300 | `reverse` links the original to `reversal.id`, which is None before the reversal is flushed, so `can_be_reversed` stays true | reverse a posted transaction twice: both calls succeed and make two reversals | the original is linked to the saved reversal and cannot be reversed again | not executed | Accounting.DoubleReversalAsWritten | Accounting.SingleReversal |
