/**
 * The product page: the rental total, the quantity stepper, the guarded
 * "Rent Now" navigation and the related-products filter. Dates are
 * integer milliseconds, prices integers; navigation is the returned
 * target.
 */
module ProductDetails {
  import opened Wrappers
  import opened Js
  import opened Seqs
  import opened Text

  /** `1000 * 60 * 60 * 24`. */
  const MsPerDay: int := 86400000

  /** `Math.ceil(a / b)` for a positive divisor: the least `q` with `a <= q * b`. */
  function CeilDiv(a: int, b: int): (q: int)
    requires b > 0
    ensures (q - 1) * b < a <= q * b
  {
    -((-a) / b)
  }

  /** The days charged from `start` to `end`: every started day counts in full. */
  function RentalDays(start: int, end: int): (days: int)
    ensures (days - 1) * MsPerDay < end - start <= days * MsPerDay
  {
    CeilDiv(end - start, MsPerDay)
  }

  /** `totalCost`: nothing until both dates are picked; a missing or zero price costs nothing. */
  function TotalCost(startDate: Option<int>, endDate: Option<int>, quantity: int, price: Option<int>): (total: int)
    ensures startDate.None? || endDate.None? || !TruthyNumber(price) ==> total == 0
    ensures startDate.Some? && endDate.Some? ==>
              total == RentalDays(startDate.value, endDate.value) * quantity * NumberOrZero(price)
  {
    if startDate.Some? && endDate.Some? then
      RentalDays(startDate.value, endDate.value) * quantity * NumberOrZero(price)
    else 0
  }

  lemma {:induction false} ScaledOrder(a: int, b: int, m: int)
    requires m > 0
    ensures a * m < b * m <==> a < b
  {
    if a < b {
      assert b * m - a * m == (b - a) * m;
    } else {
      assert a * m - b * m == (a - b) * m;
    }
  }

  /** A rental of exactly `k` whole days costs `k * quantity * price`. */
  lemma {:induction false} WholeDaysCost(start: int, k: int, quantity: int, price: int)
    ensures TotalCost(Some(start), Some(start + k * MsPerDay), quantity, Some(price)) == k * quantity * price
  {
    var days := RentalDays(start, start + k * MsPerDay);
    ScaledOrder(days - 1, k, MsPerDay);
    ScaledOrder(days, k, MsPerDay);
    assert days == k;
  }

  /** Any part of a day beyond `k` whole days is charged as a full day. */
  lemma {:induction false} PartialDayCost(start: int, k: int, extra: int, quantity: int, price: int)
    requires 0 < extra < MsPerDay
    ensures TotalCost(Some(start), Some(start + k * MsPerDay + extra), quantity, Some(price)) == (k + 1) * quantity * price
  {
    var days := RentalDays(start, start + k * MsPerDay + extra);
    ScaledOrder(days - 1, k + 1, MsPerDay);
    ScaledOrder(k, days, MsPerDay);
    assert days == k + 1;
  }

  /** What "Rent Now" carries to the checkout page. */
  datatype CheckoutState = CheckoutState(startDate: int, endDate: int, quantity: int, totalCost: int)

  datatype Navigation = Navigation(path: string, state: CheckoutState)

  /** The page's state once the product has loaded. */
  class RentalForm {
    /** The `:id` route parameter. */
    const id: string
    /** `product.price`, absent when the product has none. */
    const price: Option<int>
    var quantity: int
    var startDate: Option<int>
    var endDate: Option<int>

    ghost predicate Valid()
      reads this
    {
      quantity >= 1
    }

    constructor (id: string, price: Option<int>)
      ensures Valid()
      ensures this.id == id && this.price == price
      ensures quantity == 1 && startDate == None && endDate == None
    {
      this.id, this.price := id, price;
      quantity := 1;
      startDate, endDate := None, None;
    }

    function Total(): int
      reads this
    {
      TotalCost(startDate, endDate, quantity, price)
    }

    /** The "-" button: `Math.max(prev - 1, 1)`. */
    method Decrement()
      modifies this
      ensures Valid()
      ensures old(quantity) > 1 ==> quantity == old(quantity) - 1
      ensures old(quantity) <= 1 ==> quantity == 1
      ensures startDate == old(startDate) && endDate == old(endDate)
    {
      quantity := if quantity - 1 > 1 then quantity - 1 else 1;
    }

    /** The "+" button: `prev + 1`. */
    method Increment()
      requires Valid()
      modifies this
      ensures Valid()
      ensures quantity == old(quantity) + 1
      ensures startDate == old(startDate) && endDate == old(endDate)
    {
      quantity := quantity + 1;
    }

    /** The start date picker; `None` when it is cleared. */
    method PickStartDate(date: Option<int>)
      modifies this
      ensures startDate == date
      ensures quantity == old(quantity) && endDate == old(endDate)
    {
      startDate := date;
    }

    /** The end date picker; `None` when it is cleared. */
    method PickEndDate(date: Option<int>)
      modifies this
      ensures endDate == date
      ensures quantity == old(quantity) && startDate == old(startDate)
    {
      endDate := date;
    }

    /** `handleRentNow`: no navigation without both dates, else to the checkout page. */
    method RentNow() returns (nav: Option<Navigation>)
      ensures nav.None? <==> startDate.None? || endDate.None?
      ensures nav.Some? ==>
                && nav.value.path == "/checkout/" + id
                && nav.value.state == CheckoutState(startDate.value, endDate.value, quantity, Total())
                && nav.value.state.totalCost
                     == RentalDays(startDate.value, endDate.value) * quantity * NumberOrZero(price)
    {
      if startDate.None? || endDate.None? {
        return None;
      }
      nav := Some(Navigation("/checkout/" + id, CheckoutState(startDate.value, endDate.value, quantity, Total())));
    }
  }

  /**
   * A product as the related-products request returns it: `underscoreId`
   * is its `_id` property (`None` when the object has none) and `toolId`
   * its `tool_id` column.
   */
  datatype Product = Product(underscoreId: Option<string>, toolId: nat, name: string, price: int)

  /** `res.data.filter(item => item._id !== id)`, as written. */
  function RelatedProducts(items: seq<Product>, id: string): (related: seq<Product>)
    ensures forall i :: 0 <= i < |related| ==> related[i] in items && related[i].underscoreId != Some(id)
    ensures forall i :: 0 <= i < |items| && items[i].underscoreId != Some(id) ==> items[i] in related
  {
    Filter(items, (p: Product) => p.underscoreId != Some(id))
  }

  /** The related list keeps the relative order of the fetched list. */
  lemma RelatedKeepsOrder(a: seq<Product>, b: seq<Product>, id: string)
    ensures RelatedProducts(a + b, id) == RelatedProducts(a, id) + RelatedProducts(b, id)
  {
    FilterAppend(a, b, (p: Product) => p.underscoreId != Some(id));
  }

  /**
   * The rows the backend serves carry `tool_id` and no `_id`, so the filter
   * as written removes nothing: the product on screen is listed among its
   * own related products.
   */
  lemma RelatedKeepsCurrentProduct(items: seq<Product>, id: string)
    requires forall i :: 0 <= i < |items| ==> items[i].underscoreId.None?
    ensures RelatedProducts(items, id) == items
  {
    FilterKeepsAll(items, (p: Product) => p.underscoreId != Some(id));
  }

  /** The product with `tool_id` 3, viewed at /product/3, is its own related product. */
  lemma CurrentProductListed()
    ensures var drill := Product(None, 3, "Drill", 100);
            RelatedProducts([drill], "3") == [drill]
  {
    RelatedKeepsCurrentProduct([Product(None, 3, "Drill", 100)], "3");
  }

  /** The intended filter: drop the product whose `tool_id`, spelled as the route parameter, is `id`. */
  function RelatedByToolId(items: seq<Product>, id: string): (related: seq<Product>)
    ensures forall i :: 0 <= i < |related| ==> related[i] in items && Decimal(related[i].toolId) != id
    ensures forall i :: 0 <= i < |items| && Decimal(items[i].toolId) != id ==> items[i] in related
  {
    Filter(items, (p: Product) => Decimal(p.toolId) != id)
  }

  /** With the intended filter, the product on screen never appears among its related products, and order is kept. */
  lemma RelatedByToolIdExcludesCurrent(a: seq<Product>, b: seq<Product>, toolId: nat)
    ensures forall i :: 0 <= i < |RelatedByToolId(a, Decimal(toolId))| ==>
              RelatedByToolId(a, Decimal(toolId))[i].toolId != toolId
    ensures RelatedByToolId(a + b, Decimal(toolId)) == RelatedByToolId(a, Decimal(toolId)) + RelatedByToolId(b, Decimal(toolId))
  {
    FilterAppend(a, b, (p: Product) => Decimal(p.toolId) != Decimal(toolId));
  }
}
