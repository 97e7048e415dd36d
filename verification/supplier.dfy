/** Suppliers: the balance owed to them, purchase history that completed purchase
    orders feed, payments, tags and custom fields, blocking, and the reading of a
    free-text payment-terms string as a number of days. */
module Suppliers {
  import opened Wrappers
  import opened Text
  import Collections

  /** The number of days `get_payment_terms_days` reads from a lower-cased terms
      string: the first of "net 30", "net 15", "net 60", "net 90" it contains, then
      0 for "cod" or "cash on delivery", and 30 for anything else. */
  function TermsDays(t: string): (r: int)
    ensures Contains(t, "net 30") ==> r == 30
    ensures !Contains(t, "net 30") && Contains(t, "net 15") ==> r == 15
    ensures !Contains(t, "net 30") && !Contains(t, "net 15") && Contains(t, "net 60") ==> r == 60
    ensures (!Contains(t, "net 30") && !Contains(t, "net 15") && !Contains(t, "net 60")
             && Contains(t, "net 90")) ==> r == 90
    ensures r == 0 <==> !Contains(t, "net 30") && !Contains(t, "net 15") && !Contains(t, "net 60")
                        && !Contains(t, "net 90") && (Contains(t, "cod") || Contains(t, "cash on delivery"))
    ensures (!Contains(t, "net 30") && !Contains(t, "net 15") && !Contains(t, "net 60") && !Contains(t, "net 90")
             && !Contains(t, "cod") && !Contains(t, "cash on delivery")) ==> r == 30
    ensures r in {0, 15, 30, 60, 90}
  {
    if Contains(t, "net 30") then 30
    else if Contains(t, "net 15") then 15
    else if Contains(t, "net 60") then 60
    else if Contains(t, "net 90") then 90
    else if Contains(t, "cod") || Contains(t, "cash on delivery") then 0
    else 30
  }

  /** `get_payment_terms_days`: 30 when no terms are recorded, otherwise the days
      read case-insensitively from the terms. */
  function PaymentTermsDays(terms: Option<string>): (r: int)
    ensures !HasText(terms) ==> r == 30
    ensures HasText(terms) ==> r == TermsDays(Lower(terms.value))
    ensures r in {0, 15, 30, 60, 90}
  {
    if HasText(terms) then TermsDays(Lower(terms.value)) else 30
  }

  /** The match ignores case and finds the terms anywhere in the text. */
  lemma TermsFoundAnywhere()
    ensures PaymentTermsDays(Some("2/10 Net 30")) == 30
  {
    var a := Lower("2/10 Net 30");
    assert a == "2/10 net 30";
    assert OccursAt(a, "net 30", 5);
    ContainsAt(a, "net 30");
  }

  /** A cash-on-delivery supplier is paid at once. */
  lemma TermsCashOnDelivery()
    ensures PaymentTermsDays(Some("COD")) == 0
  {
    var b := Lower("COD");
    assert b == "cod";
    assert OccursAt(b, "cod", 0);
    ContainsAt(b, "cod");
    NotContainedInShorter(b, "net 30");
    NotContainedInShorter(b, "net 15");
    NotContainedInShorter(b, "net 60");
    NotContainedInShorter(b, "net 90");
  }

  /** "Net 15" is read as 15 days, not as the default. */
  lemma TermsNet15()
    ensures PaymentTermsDays(Some("Net 15")) == 15
  {
    var c := Lower("Net 15");
    assert c == "net 15";
    assert OccursAt(c, "net 15", 0);
    ContainsAt(c, "net 15");
    ContainsAt(c, "net 30");
    assert !OccursAt(c, "net 30", 0);
  }

  /** A string never contains a longer one. */
  lemma NotContainedInShorter(s: string, sub: string)
    requires |s| < |sub|
    ensures !Contains(s, sub)
  {
    ContainsAt(s, sub);
  }

  datatype SupplierError = ExceedsBalance

  class Supplier {
    const id: Id
    const supplierNumber: string
    var companyName: string
    var addressLine1: Option<string>
    var addressLine2: Option<string>
    var city: Option<string>
    var state: Option<string>
    var postalCode: Option<string>
    var country: Option<string>
    var creditLimit: real
    var currentBalance: real
    var totalPurchased: real
    var paymentTerms: Option<string>
    var isApproved: bool
    var isBlocked: bool
    var blockedReason: Option<string>
    var isActive: bool
    var firstOrderDate: Option<Timestamp>
    var lastOrderDate: Option<Timestamp>
    var tags: seq<string>
    var customFields: map<string, Collections.Json>

    /** A new supplier with the column defaults: nothing owed, approved, active. */
    constructor (id: Id, supplierNumber: string, companyName: string, creditLimit: real,
                 paymentTerms: Option<string>)
      ensures this.id == id && this.supplierNumber == supplierNumber && this.companyName == companyName
      ensures this.creditLimit == creditLimit && this.paymentTerms == paymentTerms
      ensures currentBalance == 0.0 && totalPurchased == 0.0
      ensures isApproved && !isBlocked && blockedReason.None? && isActive
      ensures firstOrderDate.None? && lastOrderDate.None? && tags == [] && customFields == map[]
    {
      this.id := id;
      this.supplierNumber := supplierNumber;
      this.companyName := companyName;
      addressLine1, addressLine2, city := None, None, None;
      state, postalCode, country := None, None, None;
      this.creditLimit := creditLimit;
      currentBalance := 0.0;
      totalPurchased := 0.0;
      this.paymentTerms := paymentTerms;
      isApproved := true;
      isBlocked := false;
      blockedReason := None;
      isActive := true;
      firstOrderDate := None;
      lastOrderDate := None;
      tags := [];
      customFields := map[];
    }

    function AddressParts(): seq<Option<string>>
      reads this
    {
      [addressLine1, addressLine2, city, state, postalCode, country]
    }

    /** `full_address`: the present address parts joined with ", ". */
    function FullAddress(): (r: string)
      reads this
      ensures r == "" <==> forall p :: p in AddressParts() ==> p.None? || p.value == ""
      ensures r == Join(Present(AddressParts()), ", ")
    {
      JoinPresent(AddressParts(), ", ")
    }

    /** `has_outstanding_balance`: money is owed to the supplier. */
    predicate HasOutstandingBalance()
      reads this
    {
      currentBalance > 0.0
    }

    /** `is_over_credit_limit` */
    predicate IsOverCreditLimit()
      reads this
    {
      currentBalance > creditLimit
    }

    /** With a non-negative credit limit, being over the limit means money is owed,
        and owing nothing leaves the whole remaining limit available. */
    lemma OverLimitOwes()
      requires creditLimit >= 0.0
      ensures IsOverCreditLimit() ==> HasOutstandingBalance()
      ensures !HasOutstandingBalance() ==> AvailableCredit() == creditLimit - currentBalance
    {
    }

    /** `available_credit`: never negative, and nothing is left once over the limit. */
    function AvailableCredit(): (r: real)
      reads this
      ensures r >= 0.0
      ensures IsOverCreditLimit() ==> r == 0.0
      ensures r > 0.0 <==> currentBalance < creditLimit
      ensures r > 0.0 ==> r == creditLimit - currentBalance
    {
      Collections.AvailableCredit(creditLimit, currentBalance)
    }

    /** `update_purchase_history`: a purchase is owed as well as counted.  The date
        is a parameter (the caller passes the current time where Python defaults it). */
    method UpdatePurchaseHistory(amount: real, purchaseDate: Timestamp)
      modifies this`totalPurchased, this`currentBalance, this`lastOrderDate, this`firstOrderDate
      ensures totalPurchased == old(totalPurchased) + amount
      ensures currentBalance == old(currentBalance) + amount
      ensures totalPurchased - currentBalance == old(totalPurchased - currentBalance)
      ensures lastOrderDate == Some(purchaseDate)
      ensures firstOrderDate == if old(firstOrderDate).None? then Some(purchaseDate) else old(firstOrderDate)
    {
      totalPurchased := totalPurchased + amount;
      currentBalance := currentBalance + amount;
      lastOrderDate := Some(purchaseDate);
      if firstOrderDate.None? {
        firstOrderDate := Some(purchaseDate);
      }
    }

    /** `make_payment`: refuses to pay more than is owed. */
    method MakePayment(amount: real) returns (r: Outcome<SupplierError>)
      modifies this`currentBalance
      ensures r.Fail? <==> amount > old(currentBalance)
      ensures r.Fail? ==> currentBalance == old(currentBalance)
      ensures r.Pass? ==> currentBalance == old(currentBalance) - amount
      ensures r.Pass? && old(currentBalance) >= 0.0 && amount <= old(currentBalance) ==> currentBalance >= 0.0
      ensures r.Pass? ==> (HasOutstandingBalance() <==> amount < old(currentBalance))
    {
      if amount > currentBalance {
        return Fail(ExceedsBalance);
      }
      currentBalance := currentBalance - amount;
      return Pass;
    }

    /** `add_tag` */
    method AddTag(tag: string)
      modifies this`tags
      ensures tags == Collections.AddTag(old(tags), tag)
      ensures tag in tags && old(tags) <= tags
    {
      tags := Collections.AddTag(tags, tag);
    }

    /** `remove_tag` */
    method RemoveTag(tag: string)
      modifies this`tags
      ensures tags == Collections.RemoveTag(old(tags), tag)
      ensures Collections.NoDuplicates(old(tags)) ==> tag !in tags
    {
      if Collections.NoDuplicates(tags) {
        Collections.RemoveTagGone(tags, tag);
      }
      tags := Collections.RemoveTag(tags, tag);
    }

    /** `get_custom_field` */
    function GetCustomField(key: string, default: Collections.Json): (v: Collections.Json)
      reads this
      ensures key in customFields ==> v == customFields[key]
      ensures key !in customFields ==> v == default
    {
      Collections.GetField(customFields, key, default)
    }

    /** `set_custom_field` */
    method SetCustomField(key: string, value: Collections.Json)
      modifies this`customFields
      ensures customFields == old(customFields)[key := value]
      ensures forall d :: GetCustomField(key, d) == value
    {
      customFields := customFields[key := value];
    }

    /** `block_supplier` */
    method Block(reason: string)
      modifies this`isBlocked, this`blockedReason, this`isActive
      ensures isBlocked && blockedReason == Some(reason) && !isActive
    {
      isBlocked := true;
      blockedReason := Some(reason);
      isActive := false;
    }

    /** `unblock_supplier` */
    method Unblock()
      modifies this`isBlocked, this`blockedReason, this`isActive
      ensures !isBlocked && blockedReason.None? && isActive
    {
      isBlocked := false;
      blockedReason := None;
      isActive := true;
    }

    /** `approve_supplier`: approval also reactivates, but leaves a block in place. */
    method Approve()
      modifies this`isApproved, this`isActive
      ensures isApproved && isActive
    {
      isApproved := true;
      isActive := true;
    }

    /** `get_payment_terms_days` on this supplier's terms. */
    function TermsInDays(): (r: int)
      reads this`paymentTerms
      ensures r in {0, 15, 30, 60, 90}
      ensures !HasText(paymentTerms) ==> r == 30
      ensures HasText(paymentTerms) ==> r == TermsDays(Lower(paymentTerms.value))
    {
      PaymentTermsDays(paymentTerms)
    }
  }
}
