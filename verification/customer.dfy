/** Customers: contact and address data, credit, the loyalty programme and purchase
    history that completed sales feed, tags and custom fields. */
module Customers {
  import opened Wrappers
  import opened Text
  import Collections

  datatype LoyaltyTier = Bronze | Silver | Gold | Platinum

  /** Position of a tier in the programme, bronze lowest. */
  function Rank(t: LoyaltyTier): nat {
    match t
    case Bronze => 0
    case Silver => 1
    case Gold => 2
    case Platinum => 3
  }

  /** The tier `update_loyalty_tier` assigns for a points balance. */
  function TierFor(points: int): (t: LoyaltyTier)
    ensures t == Platinum <==> points >= 10000
    ensures t == Gold <==> 5000 <= points < 10000
    ensures t == Silver <==> 1000 <= points < 5000
    ensures t == Bronze <==> points < 1000
  {
    if points >= 10000 then Platinum
    else if points >= 5000 then Gold
    else if points >= 1000 then Silver
    else Bronze
  }

  /** More points never mean a lower tier. */
  lemma TierMonotone(p: int, q: int)
    requires p <= q
    ensures Rank(TierFor(p)) <= Rank(TierFor(q))
  {
  }

  datatype CustomerError = InsufficientPoints

  class Customer {
    const id: Id
    const customerNumber: string
    var firstName: string
    var lastName: string
    var companyName: Option<string>
    var billingLine1: Option<string>
    var billingLine2: Option<string>
    var billingCity: Option<string>
    var billingState: Option<string>
    var billingPostalCode: Option<string>
    var billingCountry: Option<string>
    var shippingLine1: Option<string>
    var shippingLine2: Option<string>
    var shippingCity: Option<string>
    var shippingState: Option<string>
    var shippingPostalCode: Option<string>
    var shippingCountry: Option<string>
    var creditLimit: real
    var currentBalance: real
    var totalSpent: real
    var loyaltyPoints: int
    var loyaltyTier: LoyaltyTier
    var isBlocked: bool
    var blockedReason: Option<string>
    var isActive: bool
    var firstPurchaseDate: Option<Timestamp>
    var lastPurchaseDate: Option<Timestamp>
    var tags: seq<string>
    var customFields: map<string, Collections.Json>

    /** A new customer with the column defaults and no address. */
    constructor (id: Id, customerNumber: string, firstName: string, lastName: string,
                 companyName: Option<string>, creditLimit: real)
      ensures this.id == id && this.customerNumber == customerNumber
      ensures this.firstName == firstName && this.lastName == lastName && this.companyName == companyName
      ensures this.creditLimit == creditLimit && currentBalance == 0.0 && totalSpent == 0.0
      ensures loyaltyPoints == 0 && loyaltyTier == Bronze && LoyaltyValid()
      ensures !isBlocked && blockedReason.None? && isActive
      ensures firstPurchaseDate.None? && lastPurchaseDate.None?
      ensures tags == [] && customFields == map[]
    {
      this.id := id;
      this.customerNumber := customerNumber;
      this.firstName := firstName;
      this.lastName := lastName;
      this.companyName := companyName;
      billingLine1, billingLine2, billingCity := None, None, None;
      billingState, billingPostalCode, billingCountry := None, None, None;
      shippingLine1, shippingLine2, shippingCity := None, None, None;
      shippingState, shippingPostalCode, shippingCountry := None, None, None;
      this.creditLimit := creditLimit;
      currentBalance := 0.0;
      totalSpent := 0.0;
      loyaltyPoints := 0;
      loyaltyTier := Bronze;
      isBlocked := false;
      blockedReason := None;
      isActive := true;
      firstPurchaseDate := None;
      lastPurchaseDate := None;
      tags := [];
      customFields := map[];
    }

    /** The stored tier is the one the points balance calls for. */
    predicate LoyaltyValid()
      reads this
    {
      loyaltyTier == TierFor(loyaltyPoints)
    }

    /** `full_name`: first and last name, followed by the company in parentheses when
        there is one; without a company the joined name is stripped. */
    function FullName(): (r: string)
      reads this
      ensures HasText(companyName) ==> r == firstName + " " + lastName + " (" + companyName.value + ")"
      ensures !HasText(companyName) ==> r == Strip(firstName + " " + lastName)
      ensures !HasText(companyName) && firstName == "" && lastName == "" ==> r == ""
    {
      if HasText(companyName) then firstName + " " + lastName + " (" + companyName.value + ")"
      else
        StripEmpty(" ");
        Strip(firstName + " " + lastName)
    }

    /** `display_name`: the company when there is one, else the full name. */
    function DisplayName(): (r: string)
      reads this
      ensures HasText(companyName) ==> r == companyName.value && r != ""
      ensures !HasText(companyName) ==> r == FullName()
    {
      if HasText(companyName) then companyName.value else FullName()
    }

    /** `billing_address`: the present billing parts joined with ", ". */
    function BillingAddress(): (r: string)
      reads this
      ensures r == "" <==> forall p :: p in BillingParts() ==> p.None? || p.value == ""
      ensures r == Join(Present(BillingParts()), ", ")
    {
      JoinPresent(BillingParts(), ", ")
    }

    function BillingParts(): seq<Option<string>>
      reads this
    {
      [billingLine1, billingLine2, billingCity, billingState, billingPostalCode, billingCountry]
    }

    /** `shipping_address`: the present shipping parts joined with ", ". */
    function ShippingAddress(): (r: string)
      reads this
      ensures r == "" <==> forall p :: p in ShippingParts() ==> p.None? || p.value == ""
      ensures r == Join(Present(ShippingParts()), ", ")
    {
      JoinPresent(ShippingParts(), ", ")
    }

    function ShippingParts(): seq<Option<string>>
      reads this
    {
      [shippingLine1, shippingLine2, shippingCity, shippingState, shippingPostalCode, shippingCountry]
    }

    /** `has_outstanding_balance` */
    predicate HasOutstandingBalance()
      reads this
    {
      currentBalance > 0.0
    }

    /** `is_over_credit_limit` */
    predicate IsOverCreditLimit()
      reads this
    {
      currentBalance > creditLimit
    }

    /** With a non-negative credit limit, a customer over the limit owes something,
        and one who owes nothing has credit left unless the limit is zero. */
    lemma OverLimitOwes()
      requires creditLimit >= 0.0
      ensures IsOverCreditLimit() ==> HasOutstandingBalance()
      ensures !HasOutstandingBalance() ==> AvailableCredit() == creditLimit - currentBalance
    {
    }

    /** `available_credit`: never negative, and nothing is left once over the limit. */
    function AvailableCredit(): (r: real)
      reads this
      ensures r >= 0.0
      ensures IsOverCreditLimit() ==> r == 0.0
      ensures r > 0.0 <==> currentBalance < creditLimit
      ensures r > 0.0 ==> r == creditLimit - currentBalance
    {
      Collections.AvailableCredit(creditLimit, currentBalance)
    }

    /** `update_loyalty_tier` */
    method UpdateLoyaltyTier()
      modifies this`loyaltyTier
      ensures LoyaltyValid()
    {
      if loyaltyPoints >= 10000 {
        loyaltyTier := Platinum;
      } else if loyaltyPoints >= 5000 {
        loyaltyTier := Gold;
      } else if loyaltyPoints >= 1000 {
        loyaltyTier := Silver;
      } else {
        loyaltyTier := Bronze;
      }
    }

    /** `add_loyalty_points`: adds the points (any sign) and recomputes the tier. */
    method AddLoyaltyPoints(points: int)
      modifies this`loyaltyPoints, this`loyaltyTier
      ensures loyaltyPoints == old(loyaltyPoints) + points
      ensures LoyaltyValid()
      ensures points >= 0 ==> Rank(loyaltyTier) >= Rank(TierFor(old(loyaltyPoints)))
    {
      loyaltyPoints := loyaltyPoints + points;
      UpdateLoyaltyTier();
      if points >= 0 {
        TierMonotone(old(loyaltyPoints), loyaltyPoints);
      }
    }

    /** `redeem_loyalty_points`: refuses more points than the balance holds. */
    method RedeemLoyaltyPoints(points: int) returns (r: Outcome<CustomerError>)
      modifies this`loyaltyPoints, this`loyaltyTier
      ensures r.Fail? <==> points > old(loyaltyPoints)
      ensures r.Fail? ==> loyaltyPoints == old(loyaltyPoints) && loyaltyTier == old(loyaltyTier)
      ensures r.Pass? ==> loyaltyPoints == old(loyaltyPoints) - points && LoyaltyValid()
      ensures r.Pass? && old(loyaltyPoints) >= 0 ==> loyaltyPoints >= 0
    {
      if points > loyaltyPoints {
        return Fail(InsufficientPoints);
      }
      loyaltyPoints := loyaltyPoints - points;
      UpdateLoyaltyTier();
      return Pass;
    }

    /** `update_purchase_history`: the sale date is a parameter (the caller passes the
        current time where Python defaults it). */
    method UpdatePurchaseHistory(amount: real, saleDate: Timestamp)
      modifies this`totalSpent, this`lastPurchaseDate, this`firstPurchaseDate
      ensures totalSpent == old(totalSpent) + amount
      ensures lastPurchaseDate == Some(saleDate)
      ensures firstPurchaseDate == if old(firstPurchaseDate).None? then Some(saleDate) else old(firstPurchaseDate)
    {
      totalSpent := totalSpent + amount;
      lastPurchaseDate := Some(saleDate);
      if firstPurchaseDate.None? {
        firstPurchaseDate := Some(saleDate);
      }
    }

    /** `add_tag` */
    method AddTag(tag: string)
      modifies this`tags
      ensures tags == Collections.AddTag(old(tags), tag)
      ensures tag in tags && old(tags) <= tags
    {
      tags := Collections.AddTag(tags, tag);
    }

    /** `remove_tag` */
    method RemoveTag(tag: string)
      modifies this`tags
      ensures tags == Collections.RemoveTag(old(tags), tag)
      ensures Collections.NoDuplicates(old(tags)) ==> tag !in tags
    {
      if Collections.NoDuplicates(tags) {
        Collections.RemoveTagGone(tags, tag);
      }
      tags := Collections.RemoveTag(tags, tag);
    }

    /** `get_custom_field` */
    function GetCustomField(key: string, default: Collections.Json): (v: Collections.Json)
      reads this
      ensures key in customFields ==> v == customFields[key]
      ensures key !in customFields ==> v == default
    {
      Collections.GetField(customFields, key, default)
    }

    /** `set_custom_field` */
    method SetCustomField(key: string, value: Collections.Json)
      modifies this`customFields
      ensures customFields == old(customFields)[key := value]
      ensures forall d :: GetCustomField(key, d) == value
    {
      customFields := customFields[key := value];
    }

    /** `block_customer` */
    method Block(reason: string)
      modifies this`isBlocked, this`blockedReason, this`isActive
      ensures isBlocked && blockedReason == Some(reason) && !isActive
    {
      isBlocked := true;
      blockedReason := Some(reason);
      isActive := false;
    }

    /** `unblock_customer` */
    method Unblock()
      modifies this`isBlocked, this`blockedReason, this`isActive
      ensures !isBlocked && blockedReason.None? && isActive
    {
      isBlocked := false;
      blockedReason := None;
      isActive := true;
    }

    /** `copy_billing_to_shipping`: afterwards both addresses read the same. */
    method CopyBillingToShipping()
      modifies this`shippingLine1, this`shippingLine2, this`shippingCity
      modifies this`shippingState, this`shippingPostalCode, this`shippingCountry
      ensures ShippingParts() == BillingParts()
      ensures ShippingAddress() == BillingAddress()
    {
      shippingLine1 := billingLine1;
      shippingLine2 := billingLine2;
      shippingCity := billingCity;
      shippingState := billingState;
      shippingPostalCode := billingPostalCode;
      shippingCountry := billingCountry;
    }
  }
}
