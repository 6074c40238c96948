/** The checkout form: its initial `orderData`, the handlers that edit the
    order-item list and the shipping address, the effect that recomputes the
    total, and the body `handleOrderSubmit` posts to the order endpoint. */
module Checkout {
  import opened Common
  import opened UserModel
  import opened OrderController

  /** A form value: a number the code put there, or the text an input sent
      (`e.target.value` is always a string). */
  datatype FormValue = Number(n: int) | Text(s: string)

  /** One element of `orderData.orderItems`; the key is `productId`. */
  datatype FormItem = FormItem(productId: string, quantity: FormValue, price: FormValue)

  datatype OrderData = OrderData(
    user: string,
    orderItems: seq<FormItem>,
    shippingAddress: ShippingAddress,
    paymentMethod: string,
    totalAmount: int)

  /** The item the form starts with and `handleAddItem` appends. */
  const DefaultItem := FormItem("", Number(1), Number(0))

  const InitialOrderData := OrderData("", [DefaultItem], ShippingAddress("", "", "", "", ""), "Credit Card", 0)

  /** The payment method options the select offers. */
  const PaymentMethods := ["Credit Card", "PayPal", "Bank Transfer"]

  /** The two top-level inputs wired to `handleChange`. */
  datatype TopField = UserField | PaymentMethodField

  datatype ShippingField = Street | City | State | ZipCode | Country

  datatype ItemField = ProductIdField | QuantityField | PriceField

  /** `Number(v)`; how a text converts is the parameter `toNumber` (NaN is not
      modelled). */
  function ToNumber(v: FormValue, toNumber: string -> int): int
  {
    match v
    case Number(n) => n
    case Text(s) => toNumber(s)
  }

  function LineTotal(it: FormItem, toNumber: string -> int): int
  {
    ToNumber(it.price, toNumber) * ToNumber(it.quantity, toNumber)
  }

  /** Reference definition: Σ Number(price) × Number(quantity). */
  function SumLines(items: seq<FormItem>, toNumber: string -> int): int
    decreases |items|
  {
    if |items| == 0 then 0 else LineTotal(items[0], toNumber) + SumLines(items[1..], toNumber)
  }

  /** The effect's `reduce`, left to right from `acc`. */
  function ReduceTotal(acc: int, items: seq<FormItem>, toNumber: string -> int): int
    decreases |items|
  {
    if |items| == 0 then acc else ReduceTotal(acc + LineTotal(items[0], toNumber), items[1..], toNumber)
  }

  lemma {:induction false} ReduceTotalIsSum(acc: int, items: seq<FormItem>, toNumber: string -> int)
    ensures ReduceTotal(acc, items, toNumber) == acc + SumLines(items, toNumber)
    decreases |items|
  {
    if |items| > 0 {
      ReduceTotalIsSum(acc + LineTotal(items[0], toNumber), items[1..], toNumber);
    }
  }

  lemma {:induction false} SumLinesAppend(a: seq<FormItem>, b: seq<FormItem>, toNumber: string -> int)
    ensures SumLines(a + b, toNumber) == SumLines(a, toNumber) + SumLines(b, toNumber)
    decreases |a|
  {
    if |a| == 0 {
      assert a + b == b;
    } else {
      assert (a + b)[1..] == a[1..] + b;
      SumLinesAppend(a[1..], b, toNumber);
    }
  }

  /** The total the effect computes: Σ Number(price) × Number(quantity). */
  function FormTotal(items: seq<FormItem>, toNumber: string -> int): (r: int)
    ensures r == SumLines(items, toNumber)
    ensures items == [] ==> r == 0
  {
    ReduceTotalIsSum(0, items, toNumber);
    ReduceTotal(0, items, toNumber)
  }

  /** `handleChange`: `{ ...prev, [name]: value }`. */
  function ChangeTop(d: OrderData, field: TopField, value: string): (r: OrderData)
    ensures field == UserField ==> r.user == value && r.(user := d.user) == d
    ensures field == PaymentMethodField ==> r.paymentMethod == value && r.(paymentMethod := d.paymentMethod) == d
  {
    match field
    case UserField => d.(user := value)
    case PaymentMethodField => d.(paymentMethod := value)
  }

  function ShippingValue(a: ShippingAddress, field: ShippingField): string
  {
    match field
    case Street => a.street
    case City => a.city
    case State => a.state
    case ZipCode => a.zipCode
    case Country => a.country
  }

  /** `{ ...prev.shippingAddress, [name]: value }`. */
  function SetShipping(a: ShippingAddress, field: ShippingField, value: string): (r: ShippingAddress)
    ensures ShippingValue(r, field) == value
    ensures forall g: ShippingField :: g != field ==> ShippingValue(r, g) == ShippingValue(a, g)
  {
    match field
    case Street => a.(street := value)
    case City => a.(city := value)
    case State => a.(state := value)
    case ZipCode => a.(zipCode := value)
    case Country => a.(country := value)
  }

  /** `handleShippingChange`: only the named address field changes. */
  function ChangeShipping(d: OrderData, field: ShippingField, value: string): (r: OrderData)
    ensures r.(shippingAddress := d.shippingAddress) == d
    ensures ShippingValue(r.shippingAddress, field) == value
    ensures forall g: ShippingField :: g != field ==> ShippingValue(r.shippingAddress, g) == ShippingValue(d.shippingAddress, g)
  {
    d.(shippingAddress := SetShipping(d.shippingAddress, field, value))
  }

  /** `item[field] = value` with the text an input sent. */
  function SetItemField(it: FormItem, field: ItemField, value: string): FormItem
  {
    match field
    case ProductIdField => it.(productId := value)
    case QuantityField => it.(quantity := Text(value))
    case PriceField => it.(price := Text(value))
  }

  /** `handleOrderItemChange(index, field, value)`: item `index` gets the new
      field value and every other item and field is as before. */
  function ChangeItem(d: OrderData, index: nat, field: ItemField, value: string): (r: OrderData)
    requires index < |d.orderItems|
    ensures r.(orderItems := d.orderItems) == d
    ensures |r.orderItems| == |d.orderItems|
    ensures forall k :: 0 <= k < |d.orderItems| && k != index ==> r.orderItems[k] == d.orderItems[k]
    ensures field == ProductIdField ==> r.orderItems[index] == d.orderItems[index].(productId := value)
    ensures field == QuantityField ==> r.orderItems[index] == d.orderItems[index].(quantity := Text(value))
    ensures field == PriceField ==> r.orderItems[index] == d.orderItems[index].(price := Text(value))
  {
    d.(orderItems := d.orderItems[index := SetItemField(d.orderItems[index], field, value)])
  }

  /** `handleAddItem`. */
  function AddItem(d: OrderData): (r: OrderData)
    ensures r.(orderItems := d.orderItems) == d
    ensures |r.orderItems| == |d.orderItems| + 1
    ensures r.orderItems[..|d.orderItems|] == d.orderItems && r.orderItems[|d.orderItems|] == DefaultItem
  {
    d.(orderItems := d.orderItems + [DefaultItem])
  }

  /** `filter((_, i) => i !== index)` over the items at positions `from`,
      `from + 1`, ...: exactly the item at position `index` is dropped, if
      there is one. */
  function DropPosition(items: seq<FormItem>, index: int, from: int): (r: seq<FormItem>)
    ensures from <= index < from + |items| ==> r == items[..index - from] + items[index - from + 1..]
    ensures !(from <= index < from + |items|) ==> r == items
    decreases |items|
  {
    if |items| == 0 then []
    else
      var rest := DropPosition(items[1..], index, from + 1);
      if from == index then
        assert rest == items[1..];
        rest
      else
        assert [items[0]] + rest == if from < index < from + |items| then items[..index - from] + items[index - from + 1..] else items;
        [items[0]] + rest
  }

  /** `handleRemoveItem(index)`: an index outside the list removes nothing. */
  function RemoveItem(d: OrderData, index: int): (r: OrderData)
    ensures r.(orderItems := d.orderItems) == d
    ensures 0 <= index < |d.orderItems| ==> r.orderItems == d.orderItems[..index] + d.orderItems[index + 1..]
    ensures !(0 <= index < |d.orderItems|) ==> r.orderItems == d.orderItems
  {
    d.(orderItems := DropPosition(d.orderItems, index, 0))
  }

  /** The effect on `orderItems`. */
  function Recompute(d: OrderData, toNumber: string -> int): (r: OrderData)
    ensures r.(totalAmount := d.totalAmount) == d
    ensures r.totalAmount == SumLines(d.orderItems, toNumber)
  {
    d.(totalAmount := FormTotal(d.orderItems, toNumber))
  }

  /** An appended default item (price 0) leaves the recomputed total as it was. */
  lemma AddItemKeepsTotal(d: OrderData, toNumber: string -> int)
    ensures FormTotal(AddItem(d).orderItems, toNumber) == FormTotal(d.orderItems, toNumber)
  {
    SumLinesAppend(d.orderItems, [DefaultItem], toNumber);
  }

  /** Removing item `index` takes exactly that line off the recomputed total. */
  lemma RemoveItemTotal(d: OrderData, index: int, toNumber: string -> int)
    requires 0 <= index < |d.orderItems|
    ensures FormTotal(RemoveItem(d, index).orderItems, toNumber)
         == FormTotal(d.orderItems, toNumber) - LineTotal(d.orderItems[index], toNumber)
  {
    var items := d.orderItems;
    assert items == items[..index] + ([items[index]] + items[index + 1..]);
    SumLinesAppend(items[..index], [items[index]] + items[index + 1..], toNumber);
    SumLinesAppend([items[index]], items[index + 1..], toNumber);
    SumLinesAppend(items[..index], items[index + 1..], toNumber);
  }

  /** Changing one item moves the total by that line's change; editing the
      product id does not move it at all. */
  lemma ChangeItemTotal(d: OrderData, index: nat, field: ItemField, value: string, toNumber: string -> int)
    requires index < |d.orderItems|
    ensures FormTotal(ChangeItem(d, index, field, value).orderItems, toNumber)
         == FormTotal(d.orderItems, toNumber)
            - LineTotal(d.orderItems[index], toNumber)
            + LineTotal(ChangeItem(d, index, field, value).orderItems[index], toNumber)
    ensures field == ProductIdField ==>
      FormTotal(ChangeItem(d, index, field, value).orderItems, toNumber) == FormTotal(d.orderItems, toNumber)
  {
    var items := d.orderItems;
    var items' := ChangeItem(d, index, field, value).orderItems;
    assert items == items[..index] + ([items[index]] + items[index + 1..]);
    assert items' == items[..index] + ([items'[index]] + items[index + 1..]);
    SumLinesAppend(items[..index], [items[index]] + items[index + 1..], toNumber);
    SumLinesAppend([items[index]], items[index + 1..], toNumber);
    SumLinesAppend(items[..index], [items'[index]] + items[index + 1..], toNumber);
    SumLinesAppend([items'[index]], items[index + 1..], toNumber);
  }

  /** One submitted item: `{ ...item, price: Number(price), quantity: Number(quantity) }`. */
  function SubmittedItem(it: FormItem, toNumber: string -> int): OrderItemBody
  {
    OrderItemBody(None, Some(it.productId), Some(ToNumber(it.quantity, toNumber)), Some(ToNumber(it.price, toNumber)))
  }

  /** The body `handleOrderSubmit` posts: the numbers coerced, every other
      field as it is, and each item still keyed `productId`. */
  function SubmittedBody(d: OrderData, toNumber: string -> int): (r: OrderRequest)
    ensures r.user == Some(d.user) && r.shippingAddress == d.shippingAddress && r.paymentMethod == d.paymentMethod
    ensures r.totalAmount == Some(d.totalAmount)
    ensures r.orderItems.ItemArray? && |r.orderItems.items| == |d.orderItems|
    ensures forall k :: 0 <= k < |d.orderItems| ==>
      && r.orderItems.items[k].product.None?
      && r.orderItems.items[k].productId == Some(d.orderItems[k].productId)
      && r.orderItems.items[k].quantity == Some(ToNumber(d.orderItems[k].quantity, toNumber))
      && r.orderItems.items[k].price == Some(ToNumber(d.orderItems[k].price, toNumber))
  {
    OrderRequest(Some(d.user), ItemArray(seq(|d.orderItems|, k requires 0 <= k < |d.orderItems| => SubmittedItem(d.orderItems[k], toNumber))),
                 d.shippingAddress, d.paymentMethod, Some(d.totalAmount))
  }

  /** As written, the server's product-id check reads `product`, which no
      submitted item has: the first item already fails it, whatever it holds. */
  lemma SubmittedItemsFailValidation(d: OrderData, toNumber: string -> int, isValid: string -> bool)
    requires |d.orderItems| > 0
    ensures FirstInvalidItem(SubmittedBody(d, toNumber).orderItems.items, isValid) == Some(0)
    ensures ShowId(SubmittedBody(d, toNumber).orderItems.items[0].product) == "undefined"
  {
    assert !ValidObjectId(SubmittedBody(d, toNumber).orderItems.items[0].product, isValid);
  }

  /** The intended submitted item carries the id under the key the server reads. */
  function IntendedSubmittedItem(it: FormItem, toNumber: string -> int): OrderItemBody
  {
    OrderItemBody(Some(it.productId), None, Some(ToNumber(it.quantity, toNumber)), Some(ToNumber(it.price, toNumber)))
  }

  function IntendedSubmittedBody(d: OrderData, toNumber: string -> int): (r: OrderRequest)
    ensures r.user == Some(d.user) && r.shippingAddress == d.shippingAddress && r.paymentMethod == d.paymentMethod
    ensures r.totalAmount == Some(d.totalAmount)
    ensures r.orderItems.ItemArray? && |r.orderItems.items| == |d.orderItems|
    ensures forall k :: 0 <= k < |d.orderItems| ==>
      && r.orderItems.items[k].product == Some(d.orderItems[k].productId)
      && r.orderItems.items[k].quantity == Some(ToNumber(d.orderItems[k].quantity, toNumber))
      && r.orderItems.items[k].price == Some(ToNumber(d.orderItems[k].price, toNumber))
  {
    OrderRequest(Some(d.user), ItemArray(seq(|d.orderItems|, k requires 0 <= k < |d.orderItems| => IntendedSubmittedItem(d.orderItems[k], toNumber))),
                 d.shippingAddress, d.paymentMethod, Some(d.totalAmount))
  }

  /** With the intended key, an item fails the server's check exactly when its
      product id is not a valid id. */
  lemma IntendedItemsValidated(d: OrderData, toNumber: string -> int, isValid: string -> bool)
    ensures FirstInvalidItem(IntendedSubmittedBody(d, toNumber).orderItems.items, isValid).None?
        <==> forall k :: 0 <= k < |d.orderItems| ==> isValid(d.orderItems[k].productId)
  {
    var items := IntendedSubmittedBody(d, toNumber).orderItems.items;
    if forall k :: 0 <= k < |d.orderItems| ==> isValid(d.orderItems[k].productId) {
      assert forall k :: 0 <= k < |items| ==> ValidObjectId(items[k].product, isValid);
    } else {
      var k :| 0 <= k < |d.orderItems| && !isValid(d.orderItems[k].productId);
      assert !ValidObjectId(items[k].product, isValid);
    }
  }

  /** The component's `orderData` state. */
  class CheckoutForm {
    var user: string
    var orderItems: seq<FormItem>
    var shippingAddress: ShippingAddress
    var paymentMethod: string
    var totalAmount: int

    function State(): OrderData
      reads this
    {
      OrderData(user, orderItems, shippingAddress, paymentMethod, totalAmount)
    }

    constructor ()
      ensures State() == InitialOrderData
      ensures paymentMethod in PaymentMethods
    {
      user, orderItems, shippingAddress := "", [DefaultItem], ShippingAddress("", "", "", "", "");
      paymentMethod, totalAmount := "Credit Card", 0;
    }

    method HandleChange(field: TopField, value: string)
      modifies this
      ensures State() == ChangeTop(old(State()), field, value)
    {
      match field
      case UserField => user := value;
      case PaymentMethodField => paymentMethod := value;
    }

    method HandleShippingChange(field: ShippingField, value: string)
      modifies this
      ensures State() == ChangeShipping(old(State()), field, value)
    {
      shippingAddress := SetShipping(shippingAddress, field, value);
    }

    /** The index comes from the rendered list; a missing item would throw. */
    method HandleOrderItemChange(index: nat, field: ItemField, value: string)
      requires index < |orderItems|
      modifies this
      ensures State() == ChangeItem(old(State()), index, field, value)
    {
      var updatedItems := orderItems;
      updatedItems := updatedItems[index := SetItemField(updatedItems[index], field, value)];
      orderItems := updatedItems;
    }

    method HandleAddItem()
      modifies this
      ensures State() == AddItem(old(State()))
    {
      orderItems := orderItems + [DefaultItem];
    }

    method HandleRemoveItem(index: int)
      modifies this
      ensures State() == RemoveItem(old(State()), index)
    {
      orderItems := DropPosition(orderItems, index, 0);
    }

    /** The effect that runs whenever `orderItems` changes. */
    method RecomputeTotal(toNumber: string -> int)
      modifies this
      ensures State() == Recompute(old(State()), toNumber)
    {
      totalAmount := FormTotal(orderItems, toNumber);
    }

    /** `handleOrderSubmit`: the body it posts (the reply is only logged). */
    method HandleOrderSubmit(toNumber: string -> int) returns (body: OrderRequest)
      ensures body == SubmittedBody(State(), toNumber)
    {
      var updatedOrderItems: seq<OrderItemBody> := [];
      var i := 0;
      while i < |orderItems|
        invariant 0 <= i <= |orderItems|
        invariant |updatedOrderItems| == i
        invariant forall k :: 0 <= k < i ==> updatedOrderItems[k] == SubmittedItem(orderItems[k], toNumber)
      {
        updatedOrderItems := updatedOrderItems + [SubmittedItem(orderItems[i], toNumber)];
        i := i + 1;
      }
      body := OrderRequest(Some(user), ItemArray(updatedOrderItems), shippingAddress, paymentMethod, Some(totalAmount));
    }
  }

  /** As written: an order placed from the form with at least one item and a
      valid user id is refused by the server with 500, naming `undefined` as
      the bad product id, and nothing is stored. Only an order whose every
      item was removed gets past the item check: it is stored with no items,
      and answered 201 once mailed. */
  method PlaceCheckoutOrder(form: CheckoutForm, toNumber: string -> int, isValid: string -> bool,
                            users: seq<User>, orders: seq<Order>, newId: string,
                            saveError: Option<string>, mailError: Option<string>)
    returns (reply: OrderReply, orders': seq<Order>)
    ensures !isValid(form.user) ==> reply == OrderReply(400, "Invalid user ID", None, None) && orders' == orders
    ensures isValid(form.user) && |form.orderItems| > 0 ==>
      reply == OrderReply(500, "Failed to create order", None, Some("Invalid product ID for item: undefined"))
      && orders' == orders
    ensures isValid(form.user) && |form.orderItems| == 0 && saveError.Some? ==>
      reply == OrderReply(500, "Failed to create order", None, saveError) && orders' == orders
    ensures isValid(form.user) && |form.orderItems| == 0 && saveError.None? ==>
      && |orders'| == |orders| + 1 && orders'[..|orders|] == orders
      && orders'[|orders|].orderItems == []
      && (HasEmail(users, form.user) && mailError.None? ==> reply.status == 201)
    ensures reply.status == 201 ==> |form.orderItems| == 0
  {
    var body := form.HandleOrderSubmit(toNumber);
    if |form.orderItems| > 0 {
      SubmittedItemsFailValidation(form.State(), toNumber, isValid);
      assert "Invalid product ID for item: " + ShowId(body.orderItems.items[0].product) == "Invalid product ID for item: undefined";
    }
    var effects;
    reply, orders', effects := CreateOrder(body, isValid, users, orders, newId, saveError, mailError);
    assert orders'[..|orders|] == orders;
  }

  /** Corrected: with the id under `product`, an order whose ids are all valid
      is stored with the submitted items, and answered 201 once mailed. */
  method PlaceCheckoutOrderIntended(form: CheckoutForm, toNumber: string -> int, isValid: string -> bool,
                                    users: seq<User>, orders: seq<Order>, newId: string, mailError: Option<string>)
    returns (reply: OrderReply, orders': seq<Order>)
    requires isValid(form.user)
    requires forall k :: 0 <= k < |form.orderItems| ==> isValid(form.orderItems[k].productId)
    ensures |orders'| == |orders| + 1 && orders'[..|orders|] == orders
    ensures orders'[|orders|].orderItems == IntendedSubmittedBody(form.State(), toNumber).orderItems.items
    ensures HasEmail(users, form.user) && mailError.None? ==> reply.status == 201
  {
    var body := IntendedSubmittedBody(form.State(), toNumber);
    IntendedItemsValidated(form.State(), toNumber, isValid);
    var effects;
    reply, orders', effects := CreateOrder(body, isValid, users, orders, newId, None, mailError);
    assert orders'[..|orders|] == orders;
  }
}
