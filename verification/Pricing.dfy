/** Order pricing: subtotal, promo-code discount and total, in minor units. */
module Pricing {
  import opened Common

  datatype OrderItem = OrderItem(tierId: Id, seatId: Option<Id>, seatLabel: Option<string>, price: int)

  datatype DiscountType = PERCENTAGE | FIXED | FREE_ITEM

  datatype Promo = Promo(
    eventId: Id, code: string, discountType: DiscountType, discountValue: int,
    scope: Option<Id>,  // the applicable ticket tier, or the whole order
    usageLimit: Option<int>, usageCount: nat, expiresAt: Option<int>, isActive: bool)

  function Sum(items: seq<OrderItem>): int {
    if items == [] then 0 else Sum(items[..|items| - 1]) + items[|items| - 1].price
  }

  function OfTier(items: seq<OrderItem>, tierId: Id): (r: seq<OrderItem>) {
    if items == [] then []
    else
      var before, last := OfTier(items[..|items| - 1], tierId), items[|items| - 1];
      if last.tierId == tierId then before + [last] else before
  }

  /** The part of the subtotal the code applies to. */
  function Applicable(items: seq<OrderItem>, promo: Promo): int {
    match promo.scope case Some(tierId) => Sum(OfTier(items, tierId)) case None => Sum(items)
  }

  /** Math.floor of a non-negative product over 100 is integer division. */
  function Discount(items: seq<OrderItem>, promo: Promo): int {
    var applicable := Applicable(items, promo);
    match promo.discountType
    case PERCENTAGE => applicable * promo.discountValue / 100
    case FIXED => if promo.discountValue < applicable then promo.discountValue else applicable
    case FREE_ITEM => 0
  }

  predicate PricesOk(items: seq<OrderItem>) {
    forall i :: 0 <= i < |items| ==> items[i].price >= 0
  }

  /** The reference definition of the code's scope: item by item, without filtering first. */
  function ScopedSum(items: seq<OrderItem>, promo: Promo, inside: bool): int {
    if items == [] then 0
    else
      var last := items[|items| - 1];
      ScopedSum(items[..|items| - 1], promo, inside)
      + (if (promo.scope in {None, Some(last.tierId)}) == inside then last.price else 0)
  }

  lemma {:induction false} SumSnoc(items: seq<OrderItem>, item: OrderItem)
    ensures Sum(items + [item]) == Sum(items) + item.price
  {
    assert (items + [item])[..|items|] == items;
  }

  lemma {:induction false} ApplicableIsScoped(items: seq<OrderItem>, promo: Promo)
    ensures Applicable(items, promo) == ScopedSum(items, promo, true)
    ensures Sum(items) == ScopedSum(items, promo, true) + ScopedSum(items, promo, false)
  {
    if items != [] {
      ApplicableIsScoped(items[..|items| - 1], promo);
      if promo.scope.Some? { SumSnoc(OfTier(items[..|items| - 1], promo.scope.value), items[|items| - 1]); }
    }
  }

  lemma {:induction false} ScopedNonNegative(items: seq<OrderItem>, promo: Promo, inside: bool)
    requires PricesOk(items)
    ensures ScopedSum(items, promo, inside) >= 0
  {
    if items != [] { ScopedNonNegative(items[..|items| - 1], promo, inside); }
  }

  /** Percentages up to 100 and any fixed amount stay within the scoped subtotal, so the buyer
      always owes at least the items outside the scope. */
  lemma DiscountStaysInScope(items: seq<OrderItem>, promo: Promo)
    requires PricesOk(items) && promo.discountValue >= 0
    requires promo.discountType.PERCENTAGE? ==> promo.discountValue <= 100
    ensures 0 <= Discount(items, promo) <= ScopedSum(items, promo, true)
    ensures Sum(items) - Discount(items, promo) >= ScopedSum(items, promo, false) >= 0
  {
    ApplicableIsScoped(items, promo);
    ScopedNonNegative(items, promo, true);
    ScopedNonNegative(items, promo, false);
    if promo.discountType.PERCENTAGE? { PercentBound(Applicable(items, promo), promo.discountValue); }
  }

  lemma PercentBound(a: int, v: int)
    requires 0 <= a && 0 <= v <= 100
    ensures 0 <= a * v / 100 <= a
  {
    NoNegativeProduct(a, v);
    NoNegativeProduct(a, 100 - v);
    Distributes(a, v);
    Hundredths(a * v, a);
  }

  lemma NoNegativeProduct(a: int, b: int)
    requires 0 <= a && 0 <= b
    ensures 0 <= a * b
  {
  }

  lemma Distributes(a: int, v: int)
    ensures a * (100 - v) == a * 100 - a * v
  {
  }

  lemma Hundredths(p: int, a: int)
    requires 0 <= p <= 100 * a
    ensures 0 <= p / 100 <= a
  {
  }

  /** The DTO only asks for a value of at least 0. Exactly when an order is over-discounted: */
  lemma OverdrawnExactly(items: seq<OrderItem>, promo: Promo)
    requires PricesOk(items) && promo.discountValue >= 0 && promo.discountType.PERCENTAGE?
    ensures Sum(items) - Discount(items, promo) >= ScopedSum(items, promo, false)
       <==> ScopedSum(items, promo, true) * (promo.discountValue - 100) < 100
  {
    ApplicableIsScoped(items, promo);
    PercentOverflow(Applicable(items, promo), promo.discountValue);
  }

  lemma PercentOverflow(a: int, v: int)
    ensures a * v / 100 <= a <==> a * (v - 100) < 100
  {
    assert a * (v - 100) == a * v - a * 100;
  }

  /** A percentage code is safe for every order if and only if it is at most 100. */
  lemma SafePercentages(promo: Promo)
    requires promo.discountType.PERCENTAGE? && promo.discountValue >= 0
    ensures (forall items :: PricesOk(items) ==> Sum(items) - Discount(items, promo) >= 0)
       <==> promo.discountValue <= 100
  {
    if promo.discountValue <= 100 {
      forall items | PricesOk(items) ensures Sum(items) - Discount(items, promo) >= 0 {
        DiscountStaysInScope(items, promo);
      }
    } else {
      var item := OrderItem(if promo.scope.Some? then promo.scope.value else 0, None, None, 100);
      var items := [item];
      assert items == [] + [item];
      SumSnoc([], item);
      OverdrawnExactly(items, promo);
      assert items[..0] == [];
      assert ScopedSum(items, promo, true) == 100 && ScopedSum(items, promo, false) == 0;
      assert Sum(items) - Discount(items, promo) < 0;
    }
  }

  // ----- The item order does not matter -----

  lemma {:induction false} ScopedSumWithout(items: seq<OrderItem>, promo: Promo, inside: bool, i: nat)
    requires i < |items|
    ensures ScopedSum(items, promo, inside) == ScopedSum(items[..i] + items[i + 1..], promo, inside)
      + (if (promo.scope in {None, Some(items[i].tierId)}) == inside then items[i].price else 0)
  {
    var last := |items| - 1;
    CutOut(items, i);
    if i < last {
      ScopedSumSnoc(items[..last], items[last], promo, inside);
      ScopedSumWithout(items[..last], promo, inside, i);
      ScopedSumSnoc(items[..last][..i] + items[..last][i + 1..], items[last], promo, inside);
      hide ScopedSum;
    }
  }

  lemma ScopedSumSnoc(items: seq<OrderItem>, item: OrderItem, promo: Promo, inside: bool)
    ensures ScopedSum(items + [item], promo, inside)
      == ScopedSum(items, promo, inside) + (if (promo.scope in {None, Some(item.tierId)}) == inside then item.price else 0)
  {
    assert (items + [item])[..|items|] == items;
  }

  lemma CutOut(items: seq<OrderItem>, i: nat)
    requires i < |items|
    ensures var last := |items| - 1;
      && items == items[..last] + [items[last]]
      && items[..i] + items[i + 1..] == if i == last then items[..last] else items[..last][..i] + items[..last][i + 1..] + [items[last]]
  {
  }

  lemma TakeOut(items: seq<OrderItem>, i: nat)
    requires i < |items|
    ensures multiset(items[..i] + items[i + 1..]) == multiset(items) - multiset{items[i]}
  {
    assert items == items[..i] + [items[i]] + items[i + 1..];
  }

  lemma {:induction false} ScopedSumPermutes(items: seq<OrderItem>, others: seq<OrderItem>, promo: Promo, inside: bool)
    requires multiset(items) == multiset(others)
    ensures ScopedSum(items, promo, inside) == ScopedSum(others, promo, inside)
    decreases |items|
  {
    if items == [] {
      assert |multiset(others)| == 0;
    } else {
      var last := |items| - 1;
      assert items[last] in multiset(others);
      var i :| 0 <= i < |others| && others[i] == items[last];
      TakeOut(items, last);
      TakeOut(others, i);
      assert items[..last] + items[last + 1..] == items[..last];
      ScopedSumPermutes(items[..last], others[..i] + others[i + 1..], promo, inside);
      ScopedSumWithout(others, promo, inside, i);
    }
  }

  /** Subtotal, discount and total are the same for every order of the items. */
  lemma PricingIgnoresItemOrder(items: seq<OrderItem>, others: seq<OrderItem>, promo: Promo)
    requires multiset(items) == multiset(others)
    ensures Sum(items) == Sum(others) && Discount(items, promo) == Discount(others, promo)
  {
    ApplicableIsScoped(items, promo);
    ApplicableIsScoped(others, promo);
    ScopedSumPermutes(items, others, promo, true);
    ScopedSumPermutes(items, others, promo, false);
  }

  // ----- Splitting an order -----

  function Flatten(orders: seq<seq<OrderItem>>): seq<OrderItem> {
    if orders == [] then [] else Flatten(orders[..|orders| - 1]) + orders[|orders| - 1]
  }

  function SumOfDiscounts(orders: seq<seq<OrderItem>>, promo: Promo): int {
    if orders == [] then 0 else SumOfDiscounts(orders[..|orders| - 1], promo) + Discount(orders[|orders| - 1], promo)
  }

  lemma {:induction false} ScopedSumAppends(a: seq<OrderItem>, b: seq<OrderItem>, promo: Promo)
    ensures ScopedSum(a + b, promo, true) == ScopedSum(a, promo, true) + ScopedSum(b, promo, true)
    decreases |b|
  {
    if b == [] {
      assert a + b == a;
    } else {
      assert (a + b)[..|a + b| - 1] == a + b[..|b| - 1];
      ScopedSumAppends(a, b[..|b| - 1], promo);
    }
  }

  /** Splitting a percentage order into k orders never raises the total discount and lowers it
      by at most k - 1 minor units. */
  lemma {:induction false} SplittingCostsLittle(orders: seq<seq<OrderItem>>, promo: Promo)
    requires promo.discountType.PERCENTAGE? && |orders| > 0
    ensures SumOfDiscounts(orders, promo) <= Discount(Flatten(orders), promo) <= SumOfDiscounts(orders, promo) + |orders| - 1
    decreases |orders|
  {
    var most, last := orders[..|orders| - 1], orders[|orders| - 1];
    if most == [] {
      assert Flatten(most) + last == last;
      assert SumOfDiscounts(most, promo) == 0;
    } else {
      SplittingCostsLittle(most, promo);
      ScopedSumAppends(Flatten(most), last, promo);
      ApplicableIsScoped(Flatten(most), promo);
      ApplicableIsScoped(last, promo);
      ApplicableIsScoped(Flatten(orders), promo);
      FloorsAdd(Applicable(Flatten(most), promo), Applicable(last, promo), promo.discountValue);
    }
  }

  lemma FloorsAdd(a: int, b: int, v: int)
    ensures a * v / 100 + b * v / 100 <= (a + b) * v / 100 <= a * v / 100 + b * v / 100 + 1
  {
    assert (a + b) * v == a * v + b * v;
  }
}
