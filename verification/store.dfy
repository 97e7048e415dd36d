/** Stores: the address, a settings dictionary, a per-day opening-hours map keyed by
    lower-cased day names, the value of the stock held, and the low-stock report. */
module Stores {
  import opened Wrappers
  import opened Text
  import Collections
  import opened Inventory
  import Products

  /** One day's entry of the opening-hours map, as the setters and the default
      template write it: opening time, closing time and whether the store opens. */
  datatype DayHours = DayHours(open: Option<string>, close: Option<string>, isOpen: bool)

  /** What `get_opening_hours` returns: nothing (no hours recorded, or none for the
      day), one day's entry, or, when no day is named, the whole map. */
  datatype HoursQuery = NotSet | Day(hours: DayHours) | AllDays(days: map<string, DayHours>)

  datatype StoreError = ThresholdNotComparable

  /** `get_default_opening_hours`: 09:00-18:00 on weekdays, 10:00-16:00 on Saturday,
      closed on Sunday. */
  function DefaultOpeningHours(): (r: map<string, DayHours>)
    ensures r.Keys == {"monday", "tuesday", "wednesday", "thursday", "friday", "saturday", "sunday"}
    ensures forall d :: d in r && d != "sunday" ==> r[d].isOpen && r[d].open.Some? && r[d].close.Some?
    ensures r["sunday"] == DayHours(None, None, false)
    ensures r["saturday"] == DayHours(Some("10:00"), Some("16:00"), true)
  {
    var weekday := DayHours(Some("09:00"), Some("18:00"), true);
    map["monday" := weekday, "tuesday" := weekday, "wednesday" := weekday,
        "thursday" := weekday, "friday" := weekday,
        "saturday" := DayHours(Some("10:00"), Some("16:00"), true),
        "sunday" := DayHours(None, None, false)]
  }

  /** The number a stored setting compares as: a number as itself, a boolean as 1 or 0
      (Python's `bool` is an `int`); any other value cannot be compared with a quantity. */
  function NumericValue(j: Collections.Json): (r: Option<real>)
    ensures j.JNumber? ==> r == Some(j.n)
    ensures r.None? <==> !(j.JNumber? || j.JBool?)
  {
    match j
    case JNumber(n) => Some(n)
    case JBool(b) => Some(if b then 1.0 else 0.0)
    case _ => None
  }

  /** The rows `get_low_stock_items` reports for a threshold, in their stored order. */
  function LowStock(items: seq<InventoryItem>, threshold: real): seq<InventoryItem>
    reads items
  {
    if items == [] then []
    else
      var last := items[|items| - 1];
      LowStock(items[..|items| - 1], threshold)
        + (if last.Counted() && last.onHand <= threshold then [last] else [])
  }

  /** A row is reported exactly when it is counted and at or below the threshold. */
  lemma {:induction false} LowStockMembers(items: seq<InventoryItem>, threshold: real, x: InventoryItem)
    ensures x in LowStock(items, threshold) <==> x in items && x.Counted() && x.onHand <= threshold
    decreases |items|
  {
    if items != [] {
      var front := items[..|items| - 1];
      LowStockMembers(front, threshold, x);
      assert items == front + [items[|items| - 1]];
    }
  }

  /** Reporting at a lower threshold picks out, in the same order, part of the report
      at a higher one; for equal thresholds the report is its own report. */
  lemma {:induction false} LowStockNarrows(items: seq<InventoryItem>, lower: real, higher: real)
    requires lower <= higher
    ensures LowStock(LowStock(items, higher), lower) == LowStock(items, lower)
    decreases |items|
  {
    if items != [] {
      var front := items[..|items| - 1];
      var last := items[|items| - 1];
      LowStockNarrows(front, lower, higher);
      var high := LowStock(front, higher);
      if last.Counted() && last.onHand <= higher {
        assert LowStock(items, higher) == high + [last];
        assert (high + [last])[..|high + [last]| - 1] == high;
      } else {
        assert LowStock(items, higher) == high;
        assert LowStock(items, lower) == LowStock(front, lower);
      }
    }
  }

  /** Value of the stock held: on-hand times unit cost over the counted rows, a row
      without a cost contributing nothing. */
  function InventoryValue(items: seq<InventoryItem>): real
    reads items
  {
    if items == [] then 0.0
    else
      var last := items[|items| - 1];
      InventoryValue(items[..|items| - 1]) + (if last.Counted() then last.TotalValue() else 0.0)
  }

  /** No negative stock and no negative cost give a non-negative value. */
  lemma {:induction false} InventoryValueNonNegative(items: seq<InventoryItem>)
    requires forall j :: 0 <= j < |items| ==> items[j].onHand >= 0.0
    requires forall j :: 0 <= j < |items| ==> items[j].unitCost.GetOr(0.0) >= 0.0
    ensures InventoryValue(items) >= 0.0
    decreases |items|
  {
    if items != [] {
      InventoryValueNonNegative(items[..|items| - 1]);
    }
  }

  /** When every row carries the same unit cost, the value is that cost times the
      stock the product totals count. */
  lemma {:induction false} InventoryValueUniformCost(items: seq<InventoryItem>, cost: real)
    requires forall j :: 0 <= j < |items| ==> items[j].unitCost == Some(cost)
    ensures InventoryValue(items) == cost * Products.TotalOnHand(items)
    decreases |items|
  {
    if items != [] {
      var front := items[..|items| - 1];
      var last := items[|items| - 1];
      InventoryValueUniformCost(front, cost);
      var counted := if last.Counted() then last.onHand else 0.0;
      assert (if last.Counted() then last.TotalValue() else 0.0) == cost * counted;
      assert cost * Products.TotalOnHand(front) + cost * counted == cost * (Products.TotalOnHand(front) + counted);
    }
  }

  class Store {
    const id: Id
    var name: string
    var code: string
    var addressLine1: Option<string>
    var addressLine2: Option<string>
    var city: Option<string>
    var state: Option<string>
    var postalCode: Option<string>
    var country: Option<string>
    var openingHours: map<string, DayHours>
    var settings: map<string, Collections.Json>
    var inventoryItems: seq<InventoryItem>

    function AddressParts(): seq<Option<string>>
      reads this
    {
      [addressLine1, addressLine2, city, state, postalCode, country]
    }

    /** `full_address`: the present address parts, in order, joined with ", ". */
    function FullAddress(): (r: string)
      reads this
      ensures r == "" <==> forall p :: p in AddressParts() ==> p.None? || p.value == ""
      ensures r == Join(Present(AddressParts()), ", ")
    {
      JoinPresent(AddressParts(), ", ")
    }

    /** `get_setting` */
    function GetSetting(key: string, default: Collections.Json): (v: Collections.Json)
      reads this`settings
      ensures key in settings ==> v == settings[key]
      ensures key !in settings ==> v == default
    {
      Collections.GetField(settings, key, default)
    }

    /** `set_setting`: afterwards the key reads back the value, whatever the default,
        and every other key reads as before. */
    method SetSetting(key: string, value: Collections.Json)
      modifies this`settings
      ensures settings == old(settings)[key := value]
      ensures forall d :: GetSetting(key, d) == value
      ensures forall k, d :: k != key ==> GetSetting(k, d) == old(GetSetting(k, d))
    {
      settings := settings[key := value];
    }

    /** `get_opening_hours`: a named day is looked up by its lower-cased name; without
        a day (or with an empty one) the whole map is returned. */
    function GetOpeningHours(day: Option<string>): (r: HoursQuery)
      reads this`openingHours
      ensures openingHours == map[] ==> r == NotSet
      ensures openingHours != map[] && !HasText(day) ==> r == AllDays(openingHours)
      ensures HasText(day) && Lower(day.value) in openingHours ==> r == Day(openingHours[Lower(day.value)])
      ensures HasText(day) && Lower(day.value) !in openingHours ==> r == NotSet
    {
      if openingHours == map[] then NotSet
      else if HasText(day) then
        var key := Lower(day.value);
        if key in openingHours then Day(openingHours[key]) else NotSet
      else AllDays(openingHours)
    }

    /** `is_open_on_day`: open unless the day's entry says otherwise. An empty day
        name fetches the whole map, which Python reads as true. */
    predicate IsOpenOnDay(day: string)
      reads this`openingHours
      ensures day == "" ==> IsOpenOnDay(day)
      ensures Lower(day) !in openingHours ==> IsOpenOnDay(day)
      ensures day != "" && Lower(day) in openingHours ==> (IsOpenOnDay(day) <==> openingHours[Lower(day)].isOpen)
    {
      match GetOpeningHours(Some(day))
      case NotSet => true
      case Day(h) => h.isOpen
      case AllDays(_) => true
    }

    /** `set_opening_hours`: the day opens at `openTime` and closes at `closeTime`. */
    method SetOpeningHours(day: string, openTime: string, closeTime: string)
      modifies this`openingHours
      ensures openingHours == old(openingHours)[Lower(day) := DayHours(Some(openTime), Some(closeTime), true)]
      ensures IsOpenOnDay(day)
      ensures forall d :: Lower(d) != Lower(day) ==> IsOpenOnDay(d) == old(IsOpenOnDay(d))
    {
      openingHours := openingHours[Lower(day) := DayHours(Some(openTime), Some(closeTime), true)];
    }

    /** `set_closed`: the day is closed, with no times. */
    method SetClosed(day: string)
      modifies this`openingHours
      ensures openingHours == old(openingHours)[Lower(day) := DayHours(None, None, false)]
      ensures day != "" ==> !IsOpenOnDay(day)
      ensures forall d :: Lower(d) != Lower(day) ==> IsOpenOnDay(d) == old(IsOpenOnDay(d))
    {
      openingHours := openingHours[Lower(day) := DayHours(None, None, false)];
    }

    /** `get_inventory_value` */
    method GetInventoryValue() returns (total: real)
      ensures total == InventoryValue(inventoryItems)
    {
      var items := inventoryItems;
      total := 0.0;
      var k := 0;
      while k < |items|
        invariant 0 <= k <= |items|
        invariant total == InventoryValue(items[..k])
      {
        var item := items[k];
        if item.isActive && !item.isDeleted {
          var cost := if item.unitCost.Some? then item.unitCost.value else 0.0;
          total := total + item.onHand * cost;
        }
        assert items[..k + 1][..k] == items[..k];
        k := k + 1;
      }
      assert items[..k] == items;
    }

    /** The threshold `get_low_stock_items` compares with: the one given, else the
        "low_stock_threshold" setting, 10 when that is not set; none when the setting
        holds a value that cannot be compared with a quantity. */
    function LowStockThreshold(threshold: Option<real>): (r: Option<real>)
      reads this`settings
      ensures threshold.Some? ==> r == threshold
      ensures threshold.None? && "low_stock_threshold" !in settings ==> r == Some(10.0)
      ensures threshold.None? && "low_stock_threshold" in settings ==> r == NumericValue(settings["low_stock_threshold"])
    {
      if threshold.Some? then threshold
      else NumericValue(GetSetting("low_stock_threshold", Collections.JNumber(10.0)))
    }

    /** `get_low_stock_items`: the counted rows at or below the threshold, in order.
        A setting that cannot be compared fails on the first counted row, as Python's
        comparison raises there, and goes unnoticed when no row is counted. */
    method GetLowStockItems(threshold: Option<real>) returns (r: Result<seq<InventoryItem>, StoreError>)
      ensures LowStockThreshold(threshold).Some? ==>
                r == Ok(LowStock(inventoryItems, LowStockThreshold(threshold).value))
      ensures LowStockThreshold(threshold).None? ==>
                (r.Err? <==> exists j :: 0 <= j < |inventoryItems| && inventoryItems[j].Counted())
      ensures r.Ok? && LowStockThreshold(threshold).None? ==> r.value == []
    {
      var t := LowStockThreshold(threshold);
      var items := inventoryItems;
      var low := [];
      var k := 0;
      while k < |items|
        invariant 0 <= k <= |items|
        invariant t.Some? ==> low == LowStock(items[..k], t.value)
        invariant t.None? ==> low == [] && forall j :: 0 <= j < k ==> !items[j].Counted()
      {
        var item := items[k];
        if item.isActive && !item.isDeleted {
          if t.None? {
            return Err(ThresholdNotComparable);
          }
          if item.onHand <= t.value {
            low := low + [item];
          }
        }
        assert items[..k + 1][..k] == items[..k];
        k := k + 1;
      }
      assert items[..k] == items;
      return Ok(low);
    }
  }

  /** Opening hours set for a day are read back under any spelling of its name that
      lower-cases the same way. */
  lemma DayNamesIgnoreCase(s: Store, day: string, other: string)
    requires day != "" && Lower(other) == Lower(day) && Lower(day) in s.openingHours
    ensures s.IsOpenOnDay(other) == s.IsOpenOnDay(day)
  {
    assert |other| == |day|;
  }
}
