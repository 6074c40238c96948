/** What the cart sidebar shows: the subtotal it recomputes from the lines
    with a `reduce`, a 10% tax on it, and the grand total. */
module CartSidebar {
  import opened CartSlice

  /** `state.cart.cartItems` as the selector finds it: after an unexpected
      server payload the slice may hold something that is not an array. */
  datatype CartItemsValue = ItemList(items: seq<CartLine>) | NotAnArray

  /** What the component selects from `state.cart`. */
  datatype CartSelection = CartSelection(cartItems: CartItemsValue, totalAmount: int, loading: bool)

  /** `Array.isArray(state.cart.cartItems) ? state.cart.cartItems : []`. */
  function SelectedItems(v: CartItemsValue): (r: seq<CartLine>)
    ensures v.NotAnArray? ==> r == []
    ensures v.ItemList? ==> r == v.items
  {
    match v
    case ItemList(items) => items
    case NotAnArray => []
  }

  /** `items.reduce((acc, product) => acc + product.price * product.quantity, acc)`. */
  function ReduceFrom(acc: int, items: seq<CartLine>): int
    decreases |items|
  {
    if |items| == 0 then acc else ReduceFrom(acc + items[0].price * items[0].quantity, items[1..])
  }

  /** `handleUpdateTotalPrice`: the reduce, started at 0. */
  function Subtotal(items: seq<CartLine>): int
  {
    ReduceFrom(0, items)
  }

  /** The left-to-right reduce adds the accumulator to Σ price × quantity. */
  lemma {:induction false} ReduceFromIsSum(acc: int, items: seq<CartLine>)
    ensures ReduceFrom(acc, items) == acc + Sum(items, LineAmount)
    decreases |items|
  {
    if |items| > 0 {
      ReduceFromIsSum(acc + items[0].price * items[0].quantity, items[1..]);
    }
  }

  /** The subtotal is Σ price × quantity; an empty cart has subtotal 0. */
  lemma SubtotalIsSum(items: seq<CartLine>)
    ensures Subtotal(items) == Sum(items, LineAmount)
    ensures items == [] ==> Subtotal(items) == 0
  {
    ReduceFromIsSum(0, items);
  }

  /** On a cart that keeps its invariant, the recomputed subtotal agrees with
      the slice's running `totalAmount`, although it is not read from it. */
  lemma SubtotalMatchesRunningTotal(c: CartState)
    requires Consistent(c)
    ensures Subtotal(c.cartItems) == c.totalAmount
  {
    SubtotalIsSum(c.cartItems);
  }

  /** The tax effect: `totalPrice * 0.1`. */
  function Tax(subtotal: int): (r: real)
    ensures r * 10.0 == subtotal as real
  {
    subtotal as real * 0.1
  }

  /** `totalPrice + tax`. */
  function GrandTotal(subtotal: int): (r: real)
    ensures r == 1.1 * subtotal as real
    ensures r - subtotal as real == Tax(subtotal)
  {
    subtotal as real + Tax(subtotal)
  }

  datatype SidebarView =
    | Spinner
    | EmptyMessage  // "Your cart is empty"
    | Summary(lines: seq<CartLine>, subtotal: int, tax: real, total: real)

  /** The body of the sidebar once the effects have settled. */
  function Render(s: CartSelection): (r: SidebarView)
    ensures s.loading <==> r.Spinner?
    ensures !s.loading && SelectedItems(s.cartItems) == [] <==> r.EmptyMessage?
    ensures r.Summary? ==>
      && r.lines == SelectedItems(s.cartItems)
      && r.subtotal == Sum(r.lines, LineAmount)
      && r.tax * 10.0 == r.subtotal as real
      && r.total == 1.1 * r.subtotal as real
  {
    var items := SelectedItems(s.cartItems);
    if s.loading then Spinner
    else if |items| == 0 then EmptyMessage
    else
      SubtotalIsSum(items);
      var subtotal := Subtotal(items);
      Summary(items, subtotal, Tax(subtotal), GrandTotal(subtotal))
  }

  /** A non-array `cartItems` shows the empty-cart message once loading ends. */
  lemma NonArrayIsEmptyCart(s: CartSelection)
    requires s.cartItems.NotAnArray? && !s.loading
    ensures Render(s) == EmptyMessage
  {
  }

  /** The displayed figures do not depend on the slice's `totalAmount`. */
  lemma RenderIgnoresTotalAmount(s: CartSelection, otherTotal: int)
    ensures Render(s.(totalAmount := otherTotal)) == Render(s)
  {
  }
}
