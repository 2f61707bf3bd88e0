/** Pricing of an order request: the subtotal over catalogue prices, the 2% tax, the
    cash-on-delivery fold, the online handler's loop, and the checkout line items. */
module Pricing {
  import opened Domain

  /** Every item of the request names a product of the catalogue. */
  predicate Known(cat: Catalogue, items: seq<Item>) {
    forall i :: 0 <= i < |items| ==> items[i].product in cat
  }

  function LineTotal(cat: Catalogue, item: Item): int
    requires item.product in cat
  {
    cat[item.product].offerPrice * item.quantity
  }

  /** The sum of offerPrice * quantity over the items, first to last. */
  function Subtotal(cat: Catalogue, items: seq<Item>): int
    requires Known(cat, items)
  {
    if items == [] then 0
    else Subtotal(cat, items[..|items| - 1]) + LineTotal(cat, items[|items| - 1])
  }

  /** `Math.floor(subtotal * 0.02)`, taken over exact rationals: the largest integer whose
      fifty-fold does not exceed the subtotal (also for a negative subtotal). */
  function Tax(subtotal: int): (tax: int)
    ensures 50 * tax <= subtotal < 50 * tax + 50
  {
    subtotal / 50
  }

  /** The amount stored with an order: the subtotal plus its tax. */
  function Amount(cat: Catalogue, items: seq<Item>): int
    requires Known(cat, items)
  {
    Subtotal(cat, items) + Tax(Subtotal(cat, items))
  }

  /** A subtotal over non-negative quantities is non-negative, and so is its amount. */
  lemma {:induction false} AmountNonNegative(cat: Catalogue, items: seq<Item>)
    requires Known(cat, items)
    requires forall i :: 0 <= i < |items| ==> items[i].quantity >= 0
    ensures 0 <= Subtotal(cat, items) <= Amount(cat, items)
  {
    if items != [] {
      AmountNonNegative(cat, items[..|items| - 1]);
    }
  }

  /** The index of the first item whose product is missing. */
  function FirstMissing(cat: Catalogue, items: seq<Item>): (j: nat)
    requires !Known(cat, items)
    ensures j < |items| && items[j].product !in cat && Known(cat, items[..j])
  {
    if items[0].product !in cat then 0
    else
      var j := 1 + FirstMissing(cat, items[1..]);
      assert forall i :: 1 <= i < j ==> items[i] == items[1..][i - 1];
      j
  }

  /** The index of the last item whose product is missing. */
  function LastMissing(cat: Catalogue, items: seq<Item>): (j: nat)
    requires !Known(cat, items)
    ensures j < |items| && items[j].product !in cat && Known(cat, items[j + 1..])
  {
    if items[|items| - 1].product !in cat then |items| - 1
    else
      var j := LastMissing(cat, items[..|items| - 1]);
      assert forall i :: j + 1 <= i < |items| - 1 ==> items[i] == items[..|items| - 1][i];
      j
  }

  /** The cash-on-delivery fold `items.reduce(async (acc, item) => ...)`. Each step looks its
      product up before it awaits the accumulator, so a step whose product is missing
      rejects with its own error, and the steps after it pass that rejection on: the error
      that surfaces names the LAST missing product. */
  function ReduceSubtotal(cat: Catalogue, items: seq<Item>): (r: Result<int, ProductId>)
    ensures r.Ok? <==> Known(cat, items)
    ensures r.Ok? ==> r.value == Subtotal(cat, items)
    ensures r.Err? ==> r.error == items[LastMissing(cat, items)].product
  {
    if items == [] then Ok(0)
    else
      var last := items[|items| - 1];
      var init := items[..|items| - 1];
      assert forall i :: 0 <= i < |init| ==> init[i] == items[i];
      if last.product !in cat then Err(last.product)
      else
        match ReduceSubtotal(cat, init)
        case Err(p) => Err(p)
        case Ok(acc) => Ok(acc + LineTotal(cat, last))
  }

  /** For any request in which exactly two products are missing, at positions i < j, the
      fold reports the product at j and the loop the product at i. */
  lemma FoldAndLoopReportDifferentProducts(cat: Catalogue, items: seq<Item>, i: nat, j: nat)
    requires i < j < |items| && items[i].product !in cat && items[j].product !in cat
    requires forall k :: 0 <= k < |items| && k != i && k != j ==> items[k].product in cat
    ensures ReduceSubtotal(cat, items) == Err(items[j].product)
    ensures items[FirstMissing(cat, items)].product == items[i].product
  {
    FirstMissingIsUnique(cat, items, i);
    var l := LastMissing(cat, items);
    forall k | l < k < |items|
      ensures items[k].product in cat
    {
      assert items[k] == items[l + 1..][k - l - 1];
    }
  }

  /** The record the online handler pushes per item: product name, unit price, quantity. */
  datatype ProductLine = ProductLine(name: string, price: nat, quantity: int)

  function LineOf(cat: Catalogue, item: Item): ProductLine
    requires item.product in cat
  {
    ProductLine(cat[item.product].name, cat[item.product].offerPrice, item.quantity)
  }

  /** The product data of a request, one line per item in request order. */
  function ProductLines(cat: Catalogue, items: seq<Item>): (lines: seq<ProductLine>)
    requires Known(cat, items)
    ensures |lines| == |items|
    ensures forall i :: 0 <= i < |items| ==>
      lines[i].name == cat[items[i].product].name &&
      lines[i].price == cat[items[i].product].offerPrice &&
      lines[i].quantity == items[i].quantity
  {
    if items == [] then []
    else ProductLines(cat, items[..|items| - 1]) + [LineOf(cat, items[|items| - 1])]
  }

  datatype Priced = Priced(amount: int, productData: seq<ProductLine>)

  /** The online handler's `for (let item of items)` loop followed by the tax: it stops at
      the FIRST item whose product is missing. */
  method PriceItems(cat: Catalogue, items: seq<Item>) returns (r: Result<Priced, ProductId>)
    ensures r.Ok? <==> Known(cat, items)
    ensures r.Ok? ==> r.value == Priced(Amount(cat, items), ProductLines(cat, items))
    ensures r.Err? ==> r.error == items[FirstMissing(cat, items)].product
  {
    var amount := 0;
    var productData := [];
    for i := 0 to |items|
      invariant Known(cat, items[..i])
      invariant amount == Subtotal(cat, items[..i])
      invariant productData == ProductLines(cat, items[..i])
    {
      var item := items[i];
      assert items[..i + 1][..i] == items[..i];
      if item.product !in cat {
        FirstMissingIsUnique(cat, items, i);
        return Err(item.product);
      }
      var product := cat[item.product];
      amount := amount + product.offerPrice * item.quantity;
      productData := productData + [ProductLine(product.name, product.offerPrice, item.quantity)];
    }
    assert items[..|items|] == items;
    amount := amount + Tax(amount);
    return Ok(Priced(amount, productData));
  }

  lemma FirstMissingIsUnique(cat: Catalogue, items: seq<Item>, j: nat)
    requires j < |items| && items[j].product !in cat && Known(cat, items[..j])
    ensures FirstMissing(cat, items) == j
  {
  }

  /** A Stripe line item: `price_data` {currency, product name, unit_amount} and quantity. */
  datatype LineItem = LineItem(currency: string, name: string, unitAmount: int, quantity: int)

  /** `productData.map(...)`: one line item per product line, in the same order; the unit
      amount is the price in cents. */
  function ToLineItems(lines: seq<ProductLine>): (li: seq<LineItem>)
    ensures |li| == |lines|
    ensures forall i :: 0 <= i < |lines| ==>
      li[i].currency == "usd" && li[i].name == lines[i].name &&
      li[i].unitAmount == 100 * lines[i].price && li[i].quantity == lines[i].quantity
  {
    if lines == [] then []
    else
      var last := lines[|lines| - 1];
      ToLineItems(lines[..|lines| - 1]) + [LineItem("usd", last.name, last.price * 100, last.quantity)]
  }

  /** What a checkout session with these line items charges, in cents. */
  function ChargedTotal(li: seq<LineItem>): int {
    if li == [] then 0
    else ChargedTotal(li[..|li| - 1]) + li[|li| - 1].unitAmount * li[|li| - 1].quantity
  }

  /** The session charges the subtotal, in cents: the line items carry no tax. */
  lemma {:induction false} ChargeIsSubtotalInCents(cat: Catalogue, items: seq<Item>)
    requires Known(cat, items)
    ensures ChargedTotal(ToLineItems(ProductLines(cat, items))) == 100 * Subtotal(cat, items)
  {
    if items != [] {
      var init := items[..|items| - 1];
      var lines := ProductLines(cat, items);
      assert lines[..|lines| - 1] == ProductLines(cat, init);
      assert ToLineItems(lines)[..|lines| - 1] == ToLineItems(ProductLines(cat, init));
      ChargeIsSubtotalInCents(cat, init);
    }
  }

  /** So the session charges the stored amount exactly when the tax is zero, i.e. when the
      subtotal lies in [0, 50). */
  lemma ChargeMatchesAmountIffNoTax(cat: Catalogue, items: seq<Item>)
    requires Known(cat, items)
    ensures ChargedTotal(ToLineItems(ProductLines(cat, items))) == 100 * Amount(cat, items)
      <==> 0 <= Subtotal(cat, items) < 50
  {
    ChargeIsSubtotalInCents(cat, items);
    var s := Subtotal(cat, items);
    var t := Tax(s);
    assert 100 * (s + t) == 100 * s + 100 * t;
    assert t == 0 <==> 0 <= s < 50;
  }
}
