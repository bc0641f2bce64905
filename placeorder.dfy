/**
 * The place-order page's price breakdown: the items total, flat shipping
 * below a threshold, 15% tax and the grand total, each rounded to cents,
 * and the redirect to the payment step when no payment method is chosen.
 * Amounts are exact reals; JavaScript's binary floating point is not
 * modelled.
 */
module PlaceOrder {
  import opened Common
  import opened Types
  import opened JsNumber
  import Store

  /** `x` is a whole number of cents. */
  predicate IsCents(x: real) {
    (x * 100.0).Floor as real == x * 100.0
  }

  /** `Math.round(x * 100) / 100`: round to cents, halves upwards. */
  function Round2(x: real): (r: real)
    ensures IsCents(r)
    ensures x - 0.005 < r <= x + 0.005
  {
    var k := (x * 100.0 + 0.5).Floor;
    assert (k as real / 100.0) * 100.0 == k as real;
    k as real / 100.0
  }

  /** Rounding an amount that is already in cents leaves it as it is. */
  lemma Round2OfCents(x: real)
    requires IsCents(x)
    ensures Round2(x) == x
  {
    var k := (x * 100.0).Floor;
    assert (x * 100.0 + 0.5).Floor == k;
  }

  lemma CentsAdd(a: real, b: real)
    requires IsCents(a) && IsCents(b)
    ensures IsCents(a + b)
  {
    var m, n := (a * 100.0).Floor, (b * 100.0).Floor;
    assert (a + b) * 100.0 == (m + n) as real;
  }

  lemma CentsTimes(a: real, n: int)
    requires IsCents(a)
    ensures IsCents(a * n as real)
  {
    var c := (a * 100.0).Floor;
    calc {
      a * n as real * 100.0;
      (a * 100.0) * n as real;
      c as real * n as real;
      (c * n) as real;
    }
  }

  /** `cartItems.reduce((a, c) => a + c.price * c.quantity, 0)`, folded from the left. */
  function Subtotal(items: seq<CartItem>): (r: real)
    ensures (forall i :: 0 <= i < |items| ==> items[i].product.price >= 0.0 && items[i].quantity >= 0) ==> r >= 0.0
    ensures items == [] ==> r == 0.0
    decreases |items|
  {
    if items == [] then 0.0
    else Subtotal(items[..|items| - 1]) + items[|items| - 1].product.price * items[|items| - 1].quantity as real
  }

  const ShippingThreshold := 200.0
  const FlatShipping := 15.0
  const TaxRate := 0.15

  datatype Breakdown = Breakdown(itemsPrice: real, shippingPrice: real, taxPrice: real, totalPrice: real)

  function PriceBreakdown(items: seq<CartItem>): (b: Breakdown)
    ensures b.itemsPrice - 0.005 <= Subtotal(items) < b.itemsPrice + 0.005
    ensures b.shippingPrice == 0.0 <==> b.itemsPrice > ShippingThreshold
    ensures b.itemsPrice <= ShippingThreshold ==> b.shippingPrice == FlatShipping
    ensures b.taxPrice - 0.005 <= TaxRate * b.itemsPrice < b.taxPrice + 0.005
    ensures IsCents(b.itemsPrice) && IsCents(b.shippingPrice) && IsCents(b.taxPrice)
  {
    var itemsPrice := Round2(Subtotal(items));
    var shippingPrice := if itemsPrice > ShippingThreshold then 0.0 else FlatShipping;
    var taxPrice := Round2(itemsPrice * TaxRate);
    assert IsCents(shippingPrice) by {
      assert shippingPrice * 100.0 == if shippingPrice == 0.0 then 0 as real else 1500 as real;
    }
    Breakdown(itemsPrice, shippingPrice, taxPrice, Round2(itemsPrice + shippingPrice + taxPrice))
  }

  /**
   * The rounding of the total never bites: the three parts are whole cents,
   * so the total is exactly their sum.
   */
  lemma TotalIsTheSumOfItsParts(items: seq<CartItem>)
    ensures var b := PriceBreakdown(items);
      b.totalPrice == b.itemsPrice + b.shippingPrice + b.taxPrice
  {
    var b := PriceBreakdown(items);
    CentsAdd(b.itemsPrice, b.shippingPrice);
    CentsAdd(b.itemsPrice + b.shippingPrice, b.taxPrice);
    Round2OfCents(b.itemsPrice + b.shippingPrice + b.taxPrice);
  }

  /** An empty cart costs the flat shipping and nothing else. */
  lemma EmptyCartPaysShippingOnly()
    ensures PriceBreakdown([]) == Breakdown(0.0, 15.0, 0.0, 15.0)
  {
    assert Round2(0.0) == 0.0 by { Round2OfCents(0.0); }
    assert Round2(15.0) == 15.0 by { Round2OfCents(15.0); }
  }

  /** Line prices in cents add up without rounding: the items price is the exact sum. */
  lemma {:induction false} ItemsPriceOfCentPrices(items: seq<CartItem>)
    requires forall i :: 0 <= i < |items| ==> IsCents(items[i].product.price)
    ensures PriceBreakdown(items).itemsPrice == Subtotal(items)
    decreases |items|
  {
    SubtotalOfCents(items);
    Round2OfCents(Subtotal(items));
  }

  lemma {:induction false} SubtotalOfCents(items: seq<CartItem>)
    requires forall i :: 0 <= i < |items| ==> IsCents(items[i].product.price)
    ensures IsCents(Subtotal(items))
    decreases |items|
  {
    if items == [] {
      assert 0.0 * 100.0 == 0 as real;
    } else {
      var init, last := items[..|items| - 1], items[|items| - 1];
      SubtotalOfCents(init);
      var p, q := last.product.price, last.quantity;
      CentsTimes(p, q);
      assert IsCents(p * q as real);
      CentsAdd(Subtotal(init), p * q as real);
      assert Subtotal(items) == Subtotal(init) + p * q as real;
    }
  }

  /** Exactly 200 still pays for shipping; a cent more ships free. */
  lemma ShippingThresholdIsStrict(p: Product)
    ensures PriceBreakdown([CartItem(p.(price := 200.0), 1)]).shippingPrice == 15.0
    ensures PriceBreakdown([CartItem(p.(price := 200.01), 1)]).shippingPrice == 0.0
  {
    assert Subtotal([CartItem(p.(price := 200.0), 1)]) == 200.0;
    assert Subtotal([CartItem(p.(price := 200.01), 1)]) == 200.01;
    Round2OfCents(200.0);
    assert IsCents(200.01) by { assert 200.01 * 100.0 == 20001 as real; }
    Round2OfCents(200.01);
  }

  /** Three shirts at 70: 210 of items, free shipping, 31.50 of tax, 241.50 in all. */
  lemma ThreeShirts(p: Product)
    ensures PriceBreakdown([CartItem(p.(price := 70.0), 3)]) == Breakdown(210.0, 0.0, 31.5, 241.5)
  {
    assert Subtotal([CartItem(p.(price := 70.0), 3)]) == 210.0;
    Round2OfCents(210.0);
    assert IsCents(31.5) by { assert 31.5 * 100.0 == 3150 as real; }
    Round2OfCents(31.5);
    assert IsCents(241.5) by { assert 241.5 * 100.0 == 24150 as real; }
    Round2OfCents(241.5);
  }

  /**
   * The destructuring the page starts with,
   * `const { cart: { cartItems, shippingAddress, paymentMethod } } = state`,
   * against the store as utils/Store.tsx defines it. Its state has no
   * `cart`, so rendering throws before any price is computed or the effect
   * is registered.
   */
  function CartAsWritten(s: Store.State): (r: Result<seq<Store.JsValue>>)
    ensures r == Err(Store.TypeError)
  {
    var paths := [["cart", "cartItems"], ["cart", "shippingAddress"], ["cart", "paymentMethod"]];
    Store.MissingPropertyThrows(s, "cart", "cartItems");
    assert Store.Read(Store.StateObject(s), paths[0]).Err?;
    Store.ReadAll(Store.StateObject(s), paths)
  }

  /**
   * The page's mount effect, for a store whose state holds the cart: with
   * no payment method chosen (`undefined` or
   * `""`) it navigates to the payment step, otherwise it stays.
   */
  function PaymentRedirect(paymentMethod: Option<string>): (to: Option<string>)
    ensures to.Some? <==> !TruthyText(paymentMethod)
    ensures to.Some? ==> to.value == "/payment"
  {
    if TruthyText(paymentMethod) then None else Some("/payment")
  }
}
