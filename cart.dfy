/**
 * The add-to-cart handler shared by the search page and the home page: the
 * quantity is one more than the cart already holds of the product (or 1),
 * the product is fetched again for its current stock, and the item is
 * added only when the stock covers the quantity.
 */
module Cart {
  import opened Common
  import opened Types
  import Store
  import Client

  /** `cartItems.find(x => x._id === id)`, as the index of the first match. */
  function FindIndex(items: seq<CartItem>, id: nat): (r: Option<nat>)
    ensures r.Some? ==> r.value < |items| && items[r.value].product.id == id
    ensures r.Some? ==> forall j :: 0 <= j < r.value ==> items[j].product.id != id
    ensures r.None? ==> forall j :: 0 <= j < |items| ==> items[j].product.id != id
    decreases |items|
  {
    if items == [] then None
    else if items[0].product.id == id then Some(0)
    else
      match FindIndex(items[1..], id)
      case None => None
      case Some(k) => Some(k + 1)
  }

  /** Line `j` is the first line of the cart that holds product `id`. */
  predicate FirstLineOf(items: seq<CartItem>, id: nat, j: int) {
    0 <= j < |items| && items[j].product.id == id
    && forall k :: 0 <= k < j ==> items[k].product.id != id
  }

  /** The quantity the handler asks for. */
  function Quantity(items: seq<CartItem>, id: nat): (q: int)
    ensures (forall j :: 0 <= j < |items| ==> items[j].product.id != id) ==> q == 1
    ensures forall j :: FirstLineOf(items, id, j) ==> q == items[j].quantity + 1
  {
    match FindIndex(items, id)
    case None => 1
    case Some(k) => items[k].quantity + 1
  }

  /**
   * When the cart holds only positive quantities, the requested quantity is
   * positive too, and exceeds what the cart holds of the product.
   */
  lemma QuantityGrows(items: seq<CartItem>, id: nat)
    requires forall j :: 0 <= j < |items| ==> items[j].quantity >= 1
    ensures Quantity(items, id) >= 1
    ensures forall j :: 0 <= j < |items| && items[j].product.id == id ==> Quantity(items, id) >= 2
  {
    var q := Quantity(items, id);
    match FindIndex(items, id)
    case None =>
    case Some(k) =>
      forall j | 0 <= j < |items| && items[j].product.id == id ensures q >= 2 {
        assert q == items[k].quantity + 1;
      }
  }

  const OutOfStock := "Sorry. Product is out of stock"

  /**
   * The handler's first read, `state.cart.cartItems`, against the store as
   * utils/Store.tsx defines it. Its state has no `cart`, so the read throws
   * and the handler stops before it fetches the product, alerts, dispatches
   * or navigates.
   */
  function CartItemsAsWritten(s: Store.State): (r: Result<Store.JsValue>)
    ensures r == Err(Store.TypeError)
  {
    Store.MissingPropertyThrows(s, "cart", "cartItems");
    Store.Read(Store.StateObject(s), ["cart", "cartItems"])
  }

  /**
   * `addToCartHandler(product)` against a store whose state holds the cart,
   * whose lines are `cartItems`. `fetched` is the product as
   * `GET /api/products/{_id}` returns it, read for its current stock.
   */
  method AddToCartHandler(b: Client.Browser, cartItems: seq<CartItem>, product: Product, fetched: Product)
    modifies b
    ensures var q := Quantity(cartItems, product.id);
      if fetched.countInStock < q then
        && b.notices == old(b.notices) + [OutOfStock]
        && b.dispatched == old(b.dispatched) && b.history == old(b.history)
      else
        && b.dispatched == old(b.dispatched) + [Store.CartAddItem(CartItem(product, q))]
        && b.history == old(b.history) + ["/cart"]
        && b.notices == old(b.notices)
    ensures b.cookies == old(b.cookies)
    // The store has no cart, so the dispatched item changes no state.
    ensures b.store == old(b.store)
  {
    var quantity := Quantity(cartItems, product.id);
    if fetched.countInStock < quantity {
      b.Notify(OutOfStock);
      return;
    }
    b.Dispatch(Store.CartAddItem(CartItem(product, quantity)));
    b.Push("/cart");
  }
}
