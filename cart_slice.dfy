/** The client cart (the `cart` slice of the Redux store): a list of lines and
    two running counters that every synchronous reducer updates incrementally,
    plus the `loading` flag and list effects of the three cart requests. */
module CartSlice {
  import opened Common

  /** One entry of `cartItems`. `{ ...item, quantity: 1 }` copies the product's
      fields; the reducers only read `_id`, `price` and `quantity`. Prices are
      whole cents. */
  datatype CartLine = CartLine(id: string, name: string, price: int, quantity: int)

  /** The payload of `addItemToCart`: a product as the catalog pages pass it. */
  datatype ProductPayload = ProductPayload(id: string, name: string, price: int)

  datatype CartState = CartState(cartItems: seq<CartLine>, totalAmount: int, totalItems: int, loading: bool)

  /** `initialState`. */
  const InitialCart := CartState([], 0, 0, false)

  /** `state.cartItems.find(cartItem => cartItem._id === id)`, as a position. */
  function Find(items: seq<CartLine>, id: string): Option<nat>
  {
    FirstIndex(items, (l: CartLine) => l.id == id)
  }

  /** `state.cartItems.filter(cartItem => cartItem._id !== id)`. */
  function DropId(items: seq<CartLine>, id: string): seq<CartLine>
  {
    Filter(items, (l: CartLine) => l.id != id)
  }

  function Quantity(l: CartLine): int { l.quantity }

  function LineAmount(l: CartLine): int { l.price * l.quantity }

  /** The sum of `f` over the lines. */
  function Sum(items: seq<CartLine>, f: CartLine -> int): int
  {
    if |items| == 0 then 0 else f(items[0]) + Sum(items[1..], f)
  }

  // ---------------------------------------------------------------------------
  // The synchronous reducers

  /** `addItemToCart`: one more unit of the product. */
  function AddItem(c: CartState, item: ProductPayload): (r: CartState)
    ensures r.totalItems == c.totalItems + 1
    ensures r.totalAmount == c.totalAmount + item.price
    ensures r.loading == c.loading
    ensures Find(c.cartItems, item.id).Some? ==>
      var i := Find(c.cartItems, item.id).value;
      |r.cartItems| == |c.cartItems|
      && r.cartItems[i] == c.cartItems[i].(quantity := c.cartItems[i].quantity + 1)
      && forall j :: 0 <= j < |c.cartItems| && j != i ==> r.cartItems[j] == c.cartItems[j]
    ensures Find(c.cartItems, item.id).None? ==>
      r.cartItems == c.cartItems + [CartLine(item.id, item.name, item.price, 1)]
  {
    var items := match Find(c.cartItems, item.id)
      case Some(i) => c.cartItems[i := c.cartItems[i].(quantity := c.cartItems[i].quantity + 1)]
      case None => c.cartItems + [CartLine(item.id, item.name, item.price, 1)];
    c.(cartItems := items, totalItems := c.totalItems + 1, totalAmount := c.totalAmount + item.price)
  }

  /** `removeItemFromCart`: one unit less of the line with this id. */
  function RemoveItem(c: CartState, id: string): (r: CartState)
    ensures Find(c.cartItems, id).None? ==> r == c
    ensures Find(c.cartItems, id).Some? ==>
      var i := Find(c.cartItems, id).value;
      var line := c.cartItems[i];
      && r.totalItems == c.totalItems - 1
      && r.totalAmount == c.totalAmount - line.price
      && r.loading == c.loading
      && (line.quantity == 1 ==> r.cartItems == DropId(c.cartItems, id))
      && (line.quantity != 1 ==>
            |r.cartItems| == |c.cartItems|
            && r.cartItems[i] == line.(quantity := line.quantity - 1)
            && forall j :: 0 <= j < |c.cartItems| && j != i ==> r.cartItems[j] == c.cartItems[j])
  {
    match Find(c.cartItems, id)
    case None => c
    case Some(i) =>
      var line := c.cartItems[i];
      var items := if line.quantity == 1 then DropId(c.cartItems, id)
                   else c.cartItems[i := line.(quantity := line.quantity - 1)];
      c.(cartItems := items, totalItems := c.totalItems - 1, totalAmount := c.totalAmount - line.price)
  }

  /** `updateItemQuantity`: set the quantity of a known line to a positive value. */
  function UpdateQuantity(c: CartState, id: string, quantity: int): (r: CartState)
    ensures Find(c.cartItems, id).None? || quantity <= 0 ==> r == c
    ensures Find(c.cartItems, id).Some? && quantity > 0 ==>
      var i := Find(c.cartItems, id).value;
      var line := c.cartItems[i];
      && |r.cartItems| == |c.cartItems|
      && r.cartItems[i] == line.(quantity := quantity)
      && (forall j :: 0 <= j < |c.cartItems| && j != i ==> r.cartItems[j] == c.cartItems[j])
      && r.totalItems == c.totalItems + (quantity - line.quantity)
      && r.totalAmount == c.totalAmount + (quantity - line.quantity) * line.price
      && r.loading == c.loading
  {
    match Find(c.cartItems, id)
    case Some(i) =>
      if quantity > 0 then
        var line := c.cartItems[i];
        var difference := quantity - line.quantity;
        c.(cartItems := c.cartItems[i := line.(quantity := quantity)],
           totalAmount := c.totalAmount + difference * line.price,
           totalItems := c.totalItems + difference)
      else c
    case None => c
  }

  /** `clearCart`. */
  function Clear(c: CartState): (r: CartState)
    ensures r.cartItems == [] && r.totalAmount == 0 && r.totalItems == 0
    ensures r.loading == c.loading
  {
    c.(cartItems := [], totalAmount := 0, totalItems := 0)
  }

  // ---------------------------------------------------------------------------
  // The cases of `extraReducers` (the async requests)

  /** Every `pending` case. */
  function RequestPending(c: CartState): (r: CartState)
    ensures r.loading
    ensures r.cartItems == c.cartItems && r.totalAmount == c.totalAmount && r.totalItems == c.totalItems
  {
    c.(loading := true)
  }

  /** Every `rejected` case. */
  function RequestRejected(c: CartState): (r: CartState)
    ensures !r.loading
    ensures r.cartItems == c.cartItems && r.totalAmount == c.totalAmount && r.totalItems == c.totalItems
  {
    c.(loading := false)
  }

  /** `addProductsToCart.fulfilled`: pushes the server's payload, with no check
      for a line with the same id and no change to the counters. */
  function AddProductsFulfilled(c: CartState, payload: CartLine): (r: CartState)
    ensures !r.loading
    ensures r.cartItems == c.cartItems + [payload]
    ensures r.totalAmount == c.totalAmount && r.totalItems == c.totalItems
  {
    c.(loading := false, cartItems := c.cartItems + [payload])
  }

  /** `getAllCartProducts.fulfilled`: the server's list replaces the lines. */
  function GetAllFulfilled(c: CartState, payload: seq<CartLine>): (r: CartState)
    ensures !r.loading && r.cartItems == payload
    ensures r.totalAmount == c.totalAmount && r.totalItems == c.totalItems
  {
    c.(loading := false, cartItems := payload)
  }

  /** `deleteProductFromCart.fulfilled`: drops every line with the payload's id. */
  function DeleteFulfilled(c: CartState, payloadId: string): (r: CartState)
    ensures !r.loading
    ensures forall k :: 0 <= k < |r.cartItems| ==> r.cartItems[k].id != payloadId && r.cartItems[k] in c.cartItems
    ensures forall k :: 0 <= k < |c.cartItems| && c.cartItems[k].id != payloadId ==> c.cartItems[k] in r.cartItems
    ensures r.cartItems == DropId(c.cartItems, payloadId)
    ensures r.totalAmount == c.totalAmount && r.totalItems == c.totalItems
  {
    c.(loading := false, cartItems := DropId(c.cartItems, payloadId))
  }

  /** The kept lines stay in their order and keep their multiplicity: the
      removal works on each part of a list separately, and leaves a list
      without that id unchanged. */
  lemma DropIdOrder(a: seq<CartLine>, b: seq<CartLine>, id: string)
    ensures DropId(a + b, id) == DropId(a, id) + DropId(b, id)
    ensures DropId(a, id) == a <==> forall k :: 0 <= k < |a| ==> a[k].id != id
  {
    FilterAppend(a, b, (l: CartLine) => l.id != id);
    FilterKeepsAll(a, (l: CartLine) => l.id != id);
  }

  // ---------------------------------------------------------------------------
  // The invariant the counters are meant to keep

  predicate IdsUnique(items: seq<CartLine>)
  {
    forall i, j :: 0 <= i < j < |items| ==> items[i].id != items[j].id
  }

  predicate QuantitiesPositive(items: seq<CartLine>)
  {
    forall k :: 0 <= k < |items| ==> items[k].quantity >= 1
  }

  /** The lines have distinct ids and positive quantities, and the counters
      are the sums they stand for. */
  predicate Consistent(c: CartState)
  {
    && IdsUnique(c.cartItems)
    && QuantitiesPositive(c.cartItems)
    && c.totalItems == Sum(c.cartItems, Quantity)
    && c.totalAmount == Sum(c.cartItems, LineAmount)
  }

  /** Every line carries the price `priceOf` gives its id. */
  predicate PricedBy(items: seq<CartLine>, priceOf: string -> int)
  {
    forall k :: 0 <= k < |items| ==> items[k].price == priceOf(items[k].id)
  }

  lemma {:induction false} SumAppend(s: seq<CartLine>, l: CartLine, f: CartLine -> int)
    ensures Sum(s + [l], f) == Sum(s, f) + f(l)
  {
    if |s| == 0 {
      assert s + [l] == [l];
    } else {
      assert (s + [l])[1..] == s[1..] + [l];
      SumAppend(s[1..], l, f);
    }
  }

  lemma {:induction false} SumUpdate(s: seq<CartLine>, i: nat, l: CartLine, f: CartLine -> int)
    requires i < |s|
    ensures Sum(s[i := l], f) == Sum(s, f) - f(s[i]) + f(l)
  {
    if i == 0 {
      assert s[i := l][1..] == s[1..];
    } else {
      assert s[i := l][1..] == s[1..][i - 1 := l];
      SumUpdate(s[1..], i - 1, l, f);
    }
  }

  /** Dropping the one line with a given id subtracts exactly that line. */
  lemma {:induction false} SumDropId(s: seq<CartLine>, i: nat, f: CartLine -> int)
    requires IdsUnique(s) && i < |s|
    ensures Sum(DropId(s, s[i].id), f) == Sum(s, f) - f(s[i])
  {
    var id := s[i].id;
    assert IdsUnique(s[1..]);
    if i == 0 {
      assert forall k :: 0 <= k < |s[1..]| ==> s[1..][k].id != id;
      FilterKeepsAll(s[1..], (l: CartLine) => l.id != id);
      assert DropId(s, id) == DropId(s[1..], id);
    } else {
      SumDropId(s[1..], i - 1, f);
      assert DropId(s, id) == [s[0]] + DropId(s[1..], id);
    }
  }

  /** Filtering keeps ids distinct. */
  lemma {:induction false} DropIdUnique(s: seq<CartLine>, id: string)
    requires IdsUnique(s)
    ensures IdsUnique(DropId(s, id))
    ensures QuantitiesPositive(s) ==> QuantitiesPositive(DropId(s, id))
  {
    if |s| > 0 {
      assert IdsUnique(s[1..]);
      DropIdUnique(s[1..], id);
      var rest := DropId(s[1..], id);
      assert forall k :: 0 <= k < |rest| ==> rest[k] in s[1..];
      assert forall k :: 0 <= k < |rest| ==> rest[k].id != s[0].id;
      assert DropId(s, id) == (if s[0].id != id then [s[0]] else []) + rest;
    }
  }

  lemma DropIdPriced(s: seq<CartLine>, id: string, priceOf: string -> int)
    requires PricedBy(s, priceOf)
    ensures PricedBy(DropId(s, id), priceOf)
  {
  }

  /** `addItemToCart` keeps the invariant when the payload's price is the one
      the cart already holds for that id. */
  lemma AddItemConsistent(c: CartState, item: ProductPayload, priceOf: string -> int)
    requires Consistent(c) && PricedBy(c.cartItems, priceOf) && item.price == priceOf(item.id)
    ensures Consistent(AddItem(c, item)) && PricedBy(AddItem(c, item).cartItems, priceOf)
  {
    var r := AddItem(c, item);
    match Find(c.cartItems, item.id)
    case Some(i) =>
      var line := c.cartItems[i];
      var line' := line.(quantity := line.quantity + 1);
      SumUpdate(c.cartItems, i, line', Quantity);
      SumUpdate(c.cartItems, i, line', LineAmount);
      assert LineAmount(line') == LineAmount(line) + item.price;
    case None =>
      var line := CartLine(item.id, item.name, item.price, 1);
      SumAppend(c.cartItems, line, Quantity);
      SumAppend(c.cartItems, line, LineAmount);
  }

  lemma RemoveItemConsistent(c: CartState, id: string, priceOf: string -> int)
    requires Consistent(c) && PricedBy(c.cartItems, priceOf)
    ensures Consistent(RemoveItem(c, id)) && PricedBy(RemoveItem(c, id).cartItems, priceOf)
  {
    match Find(c.cartItems, id)
    case None =>
    case Some(i) =>
      if c.cartItems[i].quantity == 1 {
        RemoveLastUnitConsistent(c, i, priceOf);
      } else {
        DecrementConsistent(c, i, priceOf);
      }
  }

  lemma RemoveLastUnitConsistent(c: CartState, i: nat, priceOf: string -> int)
    requires Consistent(c) && PricedBy(c.cartItems, priceOf)
    requires i < |c.cartItems| && c.cartItems[i].quantity == 1
    ensures var r := c.(cartItems := DropId(c.cartItems, c.cartItems[i].id),
                        totalItems := c.totalItems - 1, totalAmount := c.totalAmount - c.cartItems[i].price);
            Consistent(r) && PricedBy(r.cartItems, priceOf)
  {
    var id := c.cartItems[i].id;
    SumDropId(c.cartItems, i, Quantity);
    SumDropId(c.cartItems, i, LineAmount);
    DropIdUnique(c.cartItems, id);
    DropIdPriced(c.cartItems, id, priceOf);
  }

  lemma DecrementConsistent(c: CartState, i: nat, priceOf: string -> int)
    requires Consistent(c) && PricedBy(c.cartItems, priceOf)
    requires i < |c.cartItems| && c.cartItems[i].quantity != 1
    ensures var line := c.cartItems[i];
            var r := c.(cartItems := c.cartItems[i := line.(quantity := line.quantity - 1)],
                        totalItems := c.totalItems - 1, totalAmount := c.totalAmount - line.price);
            Consistent(r) && PricedBy(r.cartItems, priceOf)
  {
    var line := c.cartItems[i];
    var line' := line.(quantity := line.quantity - 1);
    SumUpdate(c.cartItems, i, line', Quantity);
    SumUpdate(c.cartItems, i, line', LineAmount);
    assert LineAmount(line') == LineAmount(line) - line.price;
  }

  lemma UpdateQuantityConsistent(c: CartState, id: string, quantity: int, priceOf: string -> int)
    requires Consistent(c) && PricedBy(c.cartItems, priceOf)
    ensures Consistent(UpdateQuantity(c, id, quantity)) && PricedBy(UpdateQuantity(c, id, quantity).cartItems, priceOf)
  {
    match Find(c.cartItems, id)
    case None =>
    case Some(i) =>
      if quantity > 0 {
        var line := c.cartItems[i];
        var line' := line.(quantity := quantity);
        SumUpdate(c.cartItems, i, line', Quantity);
        SumUpdate(c.cartItems, i, line', LineAmount);
        assert LineAmount(line') == LineAmount(line) + (quantity - line.quantity) * line.price;
      }
  }

  /** `clearCart` is idempotent and yields the invariant from any state. */
  lemma ClearIdempotent(c: CartState)
    ensures Clear(Clear(c)) == Clear(c)
    ensures Consistent(Clear(c))
  {
  }

  // ---------------------------------------------------------------------------
  // Runs of the synchronous reducers from the initial state

  datatype CartAction =
    | AddItemToCart(item: ProductPayload)
    | RemoveItemFromCart(itemId: string)
    | UpdateItemQuantity(lineId: string, quantity: int)
    | ClearCart

  function Apply(c: CartState, a: CartAction): CartState
  {
    match a
    case AddItemToCart(item) => AddItem(c, item)
    case RemoveItemFromCart(id) => RemoveItem(c, id)
    case UpdateItemQuantity(id, q) => UpdateQuantity(c, id, q)
    case ClearCart => Clear(c)
  }

  /** Every product added carries the price `priceOf` gives its id. */
  predicate AddsPricedBy(actions: seq<CartAction>, priceOf: string -> int)
  {
    forall k :: 0 <= k < |actions| && actions[k].AddItemToCart? ==>
      actions[k].item.price == priceOf(actions[k].item.id)
  }

  lemma {:induction false} RunConsistent(c: CartState, actions: seq<CartAction>, priceOf: string -> int)
    requires Consistent(c) && PricedBy(c.cartItems, priceOf) && AddsPricedBy(actions, priceOf)
    ensures Consistent(RunAll(Apply, c, actions))
    decreases |actions|
  {
    if |actions| > 0 {
      var c' := Apply(c, actions[0]);
      match actions[0] {
        case AddItemToCart(item) => AddItemConsistent(c, item, priceOf);
        case RemoveItemFromCart(id) => RemoveItemConsistent(c, id, priceOf);
        case UpdateItemQuantity(id, q) => UpdateQuantityConsistent(c, id, q, priceOf);
        case ClearCart =>
      }
      assert AddsPricedBy(actions[1..], priceOf) by {
        forall k | 0 <= k < |actions[1..]| && actions[1..][k].AddItemToCart?
          ensures actions[1..][k].item.price == priceOf(actions[1..][k].item.id)
        {
          assert actions[1..][k] == actions[k + 1];
        }
      }
      RunConsistent(c', actions[1..], priceOf);
    }
  }

  /** From `initialState`, any run of the four synchronous reducers in which
      each id always comes with the same price keeps ids unique, quantities at
      least 1, `totalItems` = Σ quantity and `totalAmount` = Σ price × quantity. */
  lemma ReachableConsistent(actions: seq<CartAction>, priceOf: string -> int)
    requires AddsPricedBy(actions, priceOf)
    ensures Consistent(RunAll(Apply, InitialCart, actions))
  {
    RunConsistent(InitialCart, actions, priceOf);
  }

  // ---------------------------------------------------------------------------
  // The slice as the store holds it: its fields change in place

  class CartStore {
    var cartItems: seq<CartLine>
    var totalAmount: int
    var totalItems: int
    var loading: bool

    function State(): CartState
      reads this
    {
      CartState(cartItems, totalAmount, totalItems, loading)
    }

    constructor ()
      ensures State() == InitialCart
    {
      cartItems, totalAmount, totalItems, loading := [], 0, 0, false;
    }

    method AddItemToCart(item: ProductPayload)
      modifies this
      ensures State() == AddItem(old(State()), item)
    {
      var existing := Find(cartItems, item.id);
      if existing.Some? {
        var i := existing.value;
        cartItems := cartItems[i := cartItems[i].(quantity := cartItems[i].quantity + 1)];
      } else {
        cartItems := cartItems + [CartLine(item.id, item.name, item.price, 1)];
      }
      totalItems := totalItems + 1;
      totalAmount := totalAmount + item.price;
    }

    method RemoveItemFromCart(itemId: string)
      modifies this
      ensures State() == RemoveItem(old(State()), itemId)
    {
      var existing := Find(cartItems, itemId);
      if existing.Some? {
        var i := existing.value;
        var line := cartItems[i];
        totalItems := totalItems - 1;
        totalAmount := totalAmount - line.price;
        if line.quantity == 1 {
          cartItems := DropId(cartItems, itemId);
        } else {
          cartItems := cartItems[i := line.(quantity := line.quantity - 1)];
        }
      }
    }

    method UpdateItemQuantity(id: string, quantity: int)
      modifies this
      ensures State() == UpdateQuantity(old(State()), id, quantity)
    {
      var existing := Find(cartItems, id);
      if existing.Some? && quantity > 0 {
        var i := existing.value;
        var quantityDifference := quantity - cartItems[i].quantity;
        var price := cartItems[i].price;
        cartItems := cartItems[i := cartItems[i].(quantity := quantity)];
        totalAmount := totalAmount + quantityDifference * price;
        totalItems := totalItems + quantityDifference;
      }
    }

    method ClearCart()
      modifies this
      ensures State() == Clear(old(State()))
    {
      cartItems := [];
      totalAmount := 0;
      totalItems := 0;
    }

    /** `pending` of any of the three requests. */
    method Pending()
      modifies this
      ensures State() == RequestPending(old(State()))
    {
      loading := true;
    }

    /** `rejected` of any of the three requests. */
    method Rejected()
      modifies this
      ensures State() == RequestRejected(old(State()))
    {
      loading := false;
    }

    method AddProductsToCartFulfilled(payload: CartLine)
      modifies this
      ensures State() == AddProductsFulfilled(old(State()), payload)
    {
      loading := false;
      cartItems := cartItems + [payload];
    }

    method GetAllCartProductsFulfilled(payload: seq<CartLine>)
      modifies this
      ensures State() == GetAllFulfilled(old(State()), payload)
    {
      loading := false;
      cartItems := payload;
    }

    method DeleteProductFromCartFulfilled(payloadId: string)
      modifies this
      ensures State() == DeleteFulfilled(old(State()), payloadId)
    {
      loading := false;
      cartItems := DropId(cartItems, payloadId);
    }
  }
}
