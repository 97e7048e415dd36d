/** The product catalogue: the category hierarchy, products with their prices,
    attributes and tags, variants that fall back on their product's prices, and the
    stock totals read from a product's or a variant's inventory rows. */
module Products {
  import opened Wrappers
  import opened Text
  import opened Trees
  import Collections
  import opened Inventory

  // ---------------------------------------------------------------------------
  // Categories

  datatype Category = Category(id: Id, name: string, sortOrder: int)

  function CategoryName(c: Category): string { c.name }

  /** `ProductCategory.full_path` for the category reached by `path` from a root
      category: the names from the root down, joined with " > ". */
  function CategoryFullPath(root: Tree<Category>, path: seq<nat>): (r: string)
    requires ValidPath(root, path)
    ensures r == Join(Lineage(root, path, CategoryName), " > ")
    ensures path == [] ==> r == root.value.name
  {
    FullPathIsJoinedLineage(root, path, CategoryName);
    FullPath(root, path, CategoryName)
  }

  /** `get_all_children`: every category below `t`, each child immediately followed
      by its own descendants, in the order of the children; one entry per node below. */
  function AllChildren(t: Tree<Category>): (r: seq<Category>)
    ensures r == Descendants(t)
    ensures |r| == Size(t) - 1
    decreases t, |t.children| + 1
  {
    DescendantsCount(t, |t.children|);
    ChildrenFrom(t, 0)
  }

  /** The loop of `get_all_children` from child `i` on: the children already visited
      followed by the ones still to come give the whole pre-order listing. */
  function ChildrenFrom(t: Tree<Category>, i: nat): (r: seq<Category>)
    requires i <= |t.children|
    ensures DescendantsUpTo(t, i) + r == Descendants(t)
    decreases t, |t.children| - i
  {
    if i == |t.children| then []
    else
      var c := t.children[i];
      var rest := ChildrenFrom(t, i + 1);
      var below := AllChildren(c);
      VisitChild(DescendantsUpTo(t, i), c.value, below, rest);
      [c.value] + below + rest
  }

  /** Visiting one more child moves its entry and its descendants from the part still
      to come to the part already listed. */
  lemma VisitChild(visited: seq<Category>, child: Category, below: seq<Category>, rest: seq<Category>)
    ensures visited + ([child] + below + rest) == (visited + [child] + below) + rest
  {
  }

  /** A category is listed by `get_all_children` exactly when it lies below. */
  lemma AllChildrenMembers(t: Tree<Category>, c: Category)
    ensures c in AllChildren(t) <==> Below(t, c)
  {
    DescendantsMembers(t, c);
  }

  // ---------------------------------------------------------------------------
  // Stock totals over inventory rows

  /** Sum of the on-hand quantities of the counted rows. */
  function TotalOnHand(items: seq<InventoryItem>): real
    reads items
  {
    if items == [] then 0.0
    else
      var last := items[|items| - 1];
      TotalOnHand(items[..|items| - 1]) + (if last.Counted() then last.onHand else 0.0)
  }

  /** A row that `get_store_inventory` accepts for the store. */
  predicate InStore(item: InventoryItem, storeId: Id)
    reads item
  {
    item.storeId == storeId && item.Counted()
  }

  /** Position of the first row accepted for the store, if any. */
  function FirstInStore(items: seq<InventoryItem>, storeId: Id): (r: Option<nat>)
    reads items
    ensures r.Some? ==> r.value < |items| && InStore(items[r.value], storeId)
    ensures r.Some? ==> forall j :: 0 <= j < r.value ==> !InStore(items[j], storeId)
    ensures r.None? <==> forall j :: 0 <= j < |items| ==> !InStore(items[j], storeId)
  {
    if items == [] then None
    else if InStore(items[0], storeId) then Some(0)
    else
      match FirstInStore(items[1..], storeId)
      case None => None
      case Some(k) => Some(k + 1)
  }

  /** The quantity `get_store_inventory` reports: the first accepted row's on-hand,
      0 when the store has none. */
  function StoreOnHand(items: seq<InventoryItem>, storeId: Id): real
    reads items
  {
    match FirstInStore(items, storeId)
    case None => 0.0
    case Some(k) => items[k].onHand
  }

  /** `get_total_inventory`, shared by products and variants. */
  method SumOnHand(items: seq<InventoryItem>) returns (total: real)
    ensures total == TotalOnHand(items)
  {
    total := 0.0;
    var k := 0;
    while k < |items|
      invariant 0 <= k <= |items|
      invariant total == TotalOnHand(items[..k])
    {
      var item := items[k];
      if item.isActive && !item.isDeleted {
        total := total + item.onHand;
      }
      assert items[..k + 1][..k] == items[..k];
      k := k + 1;
    }
    assert items[..k] == items;
  }

  /** `get_store_inventory`, shared by products and variants. */
  method FindStoreOnHand(items: seq<InventoryItem>, storeId: Id) returns (q: real)
    ensures q == StoreOnHand(items, storeId)
  {
    var k := 0;
    while k < |items|
      invariant 0 <= k <= |items|
      invariant forall j :: 0 <= j < k ==> !InStore(items[j], storeId)
    {
      var item := items[k];
      if item.storeId == storeId && item.isActive && !item.isDeleted {
        return item.onHand;
      }
      k := k + 1;
    }
    return 0.0;
  }

  /** Rows with no negative stock add up to a non-negative total. */
  lemma {:induction false} TotalNonNegative(items: seq<InventoryItem>)
    requires forall j :: 0 <= j < |items| ==> items[j].onHand >= 0.0
    ensures TotalOnHand(items) >= 0.0
    decreases |items|
  {
    if items != [] {
      TotalNonNegative(items[..|items| - 1]);
    }
  }

  /** Every counted row's stock is part of the total. */
  lemma {:induction false} RowWithinTotal(items: seq<InventoryItem>, k: nat)
    requires forall j :: 0 <= j < |items| ==> items[j].onHand >= 0.0
    requires k < |items| && items[k].Counted()
    ensures items[k].onHand <= TotalOnHand(items)
    decreases |items|
  {
    var front := items[..|items| - 1];
    if k == |items| - 1 {
      TotalNonNegative(front);
    } else {
      assert front[k] == items[k];
      RowWithinTotal(front, k);
    }
  }

  /** With no negative stock, one store never holds more than all stores together,
      so a product in stock at a store is in stock overall. */
  lemma StoreWithinTotal(items: seq<InventoryItem>, storeId: Id)
    requires forall j :: 0 <= j < |items| ==> items[j].onHand >= 0.0
    ensures StoreOnHand(items, storeId) <= TotalOnHand(items)
  {
    TotalNonNegative(items);
    var first := FirstInStore(items, storeId);
    if first.Some? {
      RowWithinTotal(items, first.value);
    }
  }

  // ---------------------------------------------------------------------------
  // Products

  class Product {
    const id: Id
    var name: string
    var sku: string
    var categoryId: Option<Id>
    var costPrice: Option<real>
    var sellingPrice: real
    var trackInventory: bool
    var attributes: map<string, Collections.Json>
    var tags: seq<string>
    var inventoryItems: seq<InventoryItem>

    /** `profit_margin`: the markup over cost in percent, none without a non-zero cost. */
    function ProfitMargin(): (r: Option<real>)
      reads this`costPrice, this`sellingPrice
      ensures r.None? <==> !Truthy(costPrice)
      ensures r.Some? ==> r.value * costPrice.value == (sellingPrice - costPrice.value) * 100.0
      ensures r.Some? && costPrice.value > 0.0 ==> (r.value > 0.0 <==> sellingPrice > costPrice.value)
    {
      if !Truthy(costPrice) then None
      else
        var c := costPrice.value;
        var m := (sellingPrice - c) / c * 100.0;
        assert m * c == (sellingPrice - c) * 100.0;
        assert c > 0.0 ==> (m > 0.0 <==> sellingPrice - c > 0.0);
        Some(m)
    }

    /** `profit_amount`: selling price less cost, none without a non-zero cost. */
    function ProfitAmount(): (r: Option<real>)
      reads this`costPrice, this`sellingPrice
      ensures r.None? <==> !Truthy(costPrice)
      ensures r.Some? ==> costPrice.value + r.value == sellingPrice
    {
      if !Truthy(costPrice) then None else Some(sellingPrice - costPrice.value)
    }

    /** `get_total_inventory` */
    method GetTotalInventory() returns (total: real)
      ensures total == TotalOnHand(inventoryItems)
    {
      total := SumOnHand(inventoryItems);
    }

    /** `get_store_inventory` */
    method GetStoreInventory(storeId: Id) returns (q: real)
      ensures q == StoreOnHand(inventoryItems, storeId)
    {
      q := FindStoreOnHand(inventoryItems, storeId);
    }

    /** `is_in_stock`: always for an untracked product, otherwise positive stock at
        the given store, or in total when no store is given. */
    method IsInStock(storeId: Option<Id>) returns (r: bool)
      ensures !trackInventory ==> r
      ensures trackInventory && storeId.Some? ==> (r <==> StoreOnHand(inventoryItems, storeId.value) > 0.0)
      ensures trackInventory && storeId.None? ==> (r <==> TotalOnHand(inventoryItems) > 0.0)
    {
      if !trackInventory {
        return true;
      }
      if storeId.Some? {
        var q := GetStoreInventory(storeId.value);
        return q > 0.0;
      }
      var total := GetTotalInventory();
      return total > 0.0;
    }

    /** `get_attribute` */
    function GetAttribute(key: string, default: Collections.Json): (v: Collections.Json)
      reads this`attributes
      ensures key in attributes ==> v == attributes[key]
      ensures key !in attributes ==> v == default
    {
      Collections.GetField(attributes, key, default)
    }

    /** `set_attribute`: afterwards the key reads back the value, whatever the default. */
    method SetAttribute(key: string, value: Collections.Json)
      modifies this`attributes
      ensures attributes == old(attributes)[key := value]
      ensures forall d :: GetAttribute(key, d) == value
    {
      attributes := attributes[key := value];
    }

    /** `add_tag` */
    method AddTag(tag: string)
      modifies this`tags
      ensures tags == Collections.AddTag(old(tags), tag)
      ensures tag in tags && old(tags) <= tags
    {
      tags := Collections.AddTag(tags, tag);
    }

    /** `remove_tag` */
    method RemoveTag(tag: string)
      modifies this`tags
      ensures tags == Collections.RemoveTag(old(tags), tag)
      ensures Collections.NoDuplicates(old(tags)) ==> tag !in tags
    {
      if Collections.NoDuplicates(tags) {
        Collections.RemoveTagGone(tags, tag);
      }
      tags := Collections.RemoveTag(tags, tag);
    }
  }

  /** A product that tracks its stock and has some at one store is in stock overall. */
  lemma InStockAtStoreImpliesInStock(p: Product, storeId: Id)
    requires forall j :: 0 <= j < |p.inventoryItems| ==> p.inventoryItems[j].onHand >= 0.0
    requires StoreOnHand(p.inventoryItems, storeId) > 0.0
    ensures TotalOnHand(p.inventoryItems) > 0.0
  {
    StoreWithinTotal(p.inventoryItems, storeId);
  }

  // ---------------------------------------------------------------------------
  // Variants

  /** The "name: value" entry of an option whose name and value are both set. */
  function OptionEntry(name: Option<string>, value: Option<string>): (r: Option<string>)
    ensures r.Some? <==> HasText(name) && HasText(value)
    ensures r.Some? ==> r.value == name.value + ": " + value.value && r.value != ""
  {
    if HasText(name) && HasText(value) then Some(name.value + ": " + value.value) else None
  }

  class ProductVariant {
    const id: Id
    const product: Product
    var costPrice: Option<real>
    var sellingPrice: Option<real>
    var option1Name: Option<string>
    var option1Value: Option<string>
    var option2Name: Option<string>
    var option2Value: Option<string>
    var option3Name: Option<string>
    var option3Value: Option<string>
    var inventoryItems: seq<InventoryItem>

    /** A new variant of `product` with no prices or options of its own, so that it
        takes the product's prices. */
    constructor (id: Id, product: Product)
      ensures this.id == id && this.product == product
      ensures costPrice.None? && sellingPrice.None?
      ensures option1Name.None? && option1Value.None? && option2Name.None?
      ensures option2Value.None? && option3Name.None? && option3Value.None?
      ensures inventoryItems == []
    {
      this.id := id;
      this.product := product;
      costPrice, sellingPrice := None, None;
      option1Name, option1Value := None, None;
      option2Name, option2Value := None, None;
      option3Name, option3Value := None, None;
      inventoryItems := [];
    }

    /** `effective_cost_price`: the variant's cost unless it is missing or zero,
        in which case the product's. */
    function EffectiveCostPrice(): (r: Option<real>)
      reads this`costPrice, product`costPrice
      ensures Truthy(costPrice) ==> r == costPrice
      ensures !Truthy(costPrice) ==> r == product.costPrice
      ensures Truthy(r) <==> Truthy(costPrice) || Truthy(product.costPrice)
    {
      if Truthy(costPrice) then costPrice else product.costPrice
    }

    /** `effective_selling_price`: the variant's price unless it is missing or zero,
        in which case the product's. */
    function EffectiveSellingPrice(): (r: real)
      reads this`sellingPrice, product`sellingPrice
      ensures Truthy(sellingPrice) ==> r == sellingPrice.value
      ensures !Truthy(sellingPrice) ==> r == product.sellingPrice
      ensures r == 0.0 <==> !Truthy(sellingPrice) && product.sellingPrice == 0.0
    {
      if Truthy(sellingPrice) then sellingPrice.value else product.sellingPrice
    }

    function OptionEntries(): seq<Option<string>>
      reads this
    {
      [OptionEntry(option1Name, option1Value), OptionEntry(option2Name, option2Value),
       OptionEntry(option3Name, option3Value)]
    }

    /** `option_summary`: the complete options as "name: value", joined with " | ";
        empty exactly when no option has both a name and a value. */
    function OptionSummary(): (r: string)
      reads this
      ensures r == "" <==> !(HasText(option1Name) && HasText(option1Value))
                           && !(HasText(option2Name) && HasText(option2Value))
                           && !(HasText(option3Name) && HasText(option3Value))
      ensures var e := OptionEntries();
              e[0].Some? && e[1].None? && e[2].None? ==> r == e[0].value
      ensures var e := OptionEntries();
              e[0].Some? && e[1].Some? && e[2].Some? ==> r == e[0].value + " | " + e[1].value + " | " + e[2].value
    ensures r == Join(Present(OptionEntries()), " | ")
    {
      var e := OptionEntries();
      var last := if e[2].Some? then [e[2].value] else [];
      var tail := (if e[1].Some? then [e[1].value] else []) + last;
      assert Present(e[1..][1..][1..]) == [];
      assert Present(e[1..][1..]) == last;
      assert Present(e[1..]) == tail;
      assert Present(e) == (if e[0].Some? then [e[0].value] else []) + tail;
      assert e[0].Some? && e[1].Some? && e[2].Some? ==>
        Join(Present(e), " | ") == e[0].value + " | " + (e[1].value + " | " + e[2].value);
      JoinPresent(e, " | ")
    }

    /** `ProductVariant.get_total_inventory` */
    method GetTotalInventory() returns (total: real)
      ensures total == TotalOnHand(inventoryItems)
    {
      total := SumOnHand(inventoryItems);
    }

    /** `ProductVariant.get_store_inventory` */
    method GetStoreInventory(storeId: Id) returns (q: real)
      ensures q == StoreOnHand(inventoryItems, storeId)
    {
      q := FindStoreOnHand(inventoryItems, storeId);
    }
  }
}
