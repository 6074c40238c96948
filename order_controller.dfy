/** `createOrder`: check the user id, check every item's product id, build
    and save the order, then mail a confirmation; and the mail helper. The
    database and the mailer are inputs: what a save or a send reports. */
module OrderController {
  import opened Common
  import opened UserModel

  datatype ShippingAddress = ShippingAddress(street: string, city: string, state: string, zipCode: string, country: string)

  /** One element of `req.body.orderItems`. It holds both key names a client
      may send, `product` (what the server reads) and `productId`. */
  datatype OrderItemBody = OrderItemBody(product: Option<string>, productId: Option<string>,
                                         quantity: Option<int>, price: Option<int>)

  /** `req.body.orderItems`: an array, or any other value (missing included),
      on which `orderItems.map` throws a `TypeError` with the message kept
      here. */
  datatype ItemsField = ItemArray(items: seq<OrderItemBody>) | NotArray(mapError: string)

  datatype OrderRequest = OrderRequest(
    user: Option<string>,
    orderItems: ItemsField,
    shippingAddress: ShippingAddress,
    paymentMethod: string,
    totalAmount: Option<int>)

  datatype Order = Order(
    id: string,
    user: string,
    orderItems: seq<OrderItemBody>,
    shippingAddress: ShippingAddress,
    paymentMethod: string,
    totalAmount: Option<int>)

  datatype OrderMail = OrderMail(to: string, orderId: string, total: Option<int>)

  /** The side effects, in the order they happen. */
  datatype Effect = OrderSaved(order: Order) | MailSent(mail: OrderMail)

  /** `res.status(status).json({ message, order? , error? })`. */
  datatype OrderReply = OrderReply(status: int, message: string, order: Option<Order>, error: Option<string>)

  /** `mongoose.Types.ObjectId.isValid(v)`, with the library's test on a
      present value given as `isValid`; `undefined` is never valid. */
  predicate ValidObjectId(v: Option<string>, isValid: string -> bool)
  {
    v.Some? && isValid(v.value)
  }

  /** A value as a template literal prints it. */
  function ShowId(v: Option<string>): string
  {
    match v
    case None => "undefined"
    case Some(s) => s
  }

  /** The item the `map` throws on: the first whose `product` is not a valid id. */
  function FirstInvalidItem(items: seq<OrderItemBody>, isValid: string -> bool): Option<nat>
  {
    FirstIndex(items, (it: OrderItemBody) => !ValidObjectId(it.product, isValid))
  }

  /** The order document `new Order({...})` builds: the user, the items
      exactly as received and in their order, and `totalAmount` as received. */
  function PlacedOrder(req: OrderRequest, id: string): (o: Order)
    requires req.user.Some? && req.orderItems.ItemArray?
    ensures o.orderItems == req.orderItems.items && o.totalAmount == req.totalAmount
    ensures o.user == req.user.value && o.id == id
  {
    Order(id, req.user.value, req.orderItems.items, req.shippingAddress, req.paymentMethod, req.totalAmount)
  }

  /** The user with this id exists and has a (non-empty) email. */
  predicate HasEmail(users: seq<User>, userId: string)
  {
    FindById(users, userId).Some? && users[FindById(users, userId).value].email != ""
  }

  /** `sendOrderConfirmationEmail`: look the user up, refuse without an
      email, then send; `mailError` is what the transport reports. */
  method SendOrderConfirmationEmail(users: seq<User>, userId: string, order: Order, mailError: Option<string>)
    returns (error: Option<string>, sent: Option<OrderMail>)
    ensures !HasEmail(users, userId) ==> error == Some("User email not found") && sent.None?
    ensures HasEmail(users, userId) && mailError.Some? ==> error == mailError && sent.None?
    ensures HasEmail(users, userId) && mailError.None? ==>
      error.None? && sent == Some(OrderMail(users[FindById(users, userId).value].email, order.id, order.totalAmount))
  {
    var found := FindById(users, userId);
    if found.None? || users[found.value].email == "" {
      return Some("User email not found"), None;
    }
    var user := users[found.value];
    if mailError.Some? {
      return mailError, None;
    }
    return None, Some(OrderMail(user.email, order.id, order.totalAmount));
  }

  /** `createOrder`. `newId` is the id the database gives the order,
      `saveError` what `order.save()` reports and `mailError` what the mail
      transport reports. */
  method CreateOrder(req: OrderRequest, isValid: string -> bool, users: seq<User>, orders: seq<Order>,
                     newId: string, saveError: Option<string>, mailError: Option<string>)
    returns (reply: OrderReply, orders': seq<Order>, effects: seq<Effect>)
    // An invalid user id is answered before anything is built or saved.
    ensures !ValidObjectId(req.user, isValid) ==>
      reply == OrderReply(400, "Invalid user ID", None, None) && orders' == orders && effects == []
    // A body whose items are not an array throws at the `map`, before the save.
    ensures ValidObjectId(req.user, isValid) && req.orderItems.NotArray? ==>
      reply == OrderReply(500, "Failed to create order", None, Some(req.orderItems.mapError))
      && orders' == orders && effects == []
    // The first item with an invalid product id aborts before the save.
    ensures ValidObjectId(req.user, isValid) && req.orderItems.ItemArray? && FirstInvalidItem(req.orderItems.items, isValid).Some? ==>
      var bad := req.orderItems.items[FirstInvalidItem(req.orderItems.items, isValid).value];
      reply == OrderReply(500, "Failed to create order", None, Some("Invalid product ID for item: " + ShowId(bad.product)))
      && orders' == orders && effects == []
    // A failed save stores nothing and sends nothing.
    ensures ValidObjectId(req.user, isValid) && req.orderItems.ItemArray? && FirstInvalidItem(req.orderItems.items, isValid).None? && saveError.Some? ==>
      reply == OrderReply(500, "Failed to create order", None, saveError) && orders' == orders && effects == []
    // Otherwise the order is stored first, and stays stored whatever the mail does.
    ensures ValidObjectId(req.user, isValid) && req.orderItems.ItemArray? && FirstInvalidItem(req.orderItems.items, isValid).None? && saveError.None? ==>
      var order := PlacedOrder(req, newId);
      && orders' == orders + [order]
      && |effects| >= 1 && effects[0] == OrderSaved(order)
      && (HasEmail(users, req.user.value) && mailError.None? ==>
            reply == OrderReply(201, "Order created successfully", Some(order), None)
            && effects == [OrderSaved(order), MailSent(OrderMail(users[FindById(users, req.user.value).value].email, newId, req.totalAmount))])
      && (!HasEmail(users, req.user.value) ==>
            reply == OrderReply(500, "Failed to create order", None, Some("User email not found")) && effects == [OrderSaved(order)])
      && (HasEmail(users, req.user.value) && mailError.Some? ==>
            reply == OrderReply(500, "Failed to create order", None, mailError) && effects == [OrderSaved(order)])
    // Only a stored and mailed order is answered with 201.
    ensures reply.status == 201 ==> |orders'| == |orders| + 1 && |effects| == 2
  {
    orders', effects := orders, [];
    if !ValidObjectId(req.user, isValid) {
      reply := OrderReply(400, "Invalid user ID", None, None);
      return;
    }
    if req.orderItems.NotArray? {
      reply := OrderReply(500, "Failed to create order", None, Some(req.orderItems.mapError));
      return;
    }
    var items := req.orderItems.items;
    var i := 0;
    while i < |items|
      invariant 0 <= i <= |items|
      invariant forall k :: 0 <= k < i ==> ValidObjectId(items[k].product, isValid)
    {
      var item := items[i];
      if !ValidObjectId(item.product, isValid) {
        reply := OrderReply(500, "Failed to create order", None, Some("Invalid product ID for item: " + ShowId(item.product)));
        return;
      }
      i := i + 1;
    }
    var validOrderItems := items;
    var order := Order(newId, req.user.value, validOrderItems, req.shippingAddress, req.paymentMethod, req.totalAmount);
    if saveError.Some? {
      reply := OrderReply(500, "Failed to create order", None, saveError);
      return;
    }
    orders', effects := orders + [order], [OrderSaved(order)];
    var error, sent := SendOrderConfirmationEmail(users, req.user.value, order, mailError);
    if error.Some? {
      reply := OrderReply(500, "Failed to create order", None, error);
      return;
    }
    effects := effects + [MailSent(sent.value)];
    reply := OrderReply(201, "Order created successfully", Some(order), None);
  }
}
