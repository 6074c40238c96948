# Storefront core, modelled in Dafny

The system is a window-furnishings storefront. Its client is React with Redux Toolkit slices. Its server is Express over MongoDB. This project models the parts of it that make decisions:

- **Client state.** The cart reducer and the totals the cart sidebar derives from it. The checkout form. The catalog filter slice. The product, store and user slices. The query the Curtains & Drapes page sends.
- **Server handlers.** Order creation and its confirmation mail. The product handlers, including the Curtains & Drapes filter builder. Registration, login, the forgot/reset-password flow and the profile update. The consultation booking. The `authenticate`/`authorizeAdmin` guards. The `notFound`/`errorHandler` middlewares.
- **Pagination.** The page count and buttons of the pagination bar.

## How it is modelled

**Slice state.** Each Redux slice is a class whose fields are the slice's state. Each case is a method that changes them, `modifies this`. The method's `ensures` ties the new state to a pure transition function of the old one. The properties the slice promises are proved about those functions: invariants kept along any run, what each case changes and what it leaves alone, and the order of the lists.

**Form state.** The checkout form's `orderData` is modelled the same way.

**Server handlers.** A handler is a method that takes the collection as a list of documents in their natural order. So `findOne` is the first match, and `find` keeps that order. It returns the reply, the collection after its saves, and the trace of its side effects (saves, mails) in the order they happen. A handler that throws inside `express-async-handler` ends as `Thrown(statusCode, message)`, where the status code is the one it had set, or 200 if it set none. `ErrorMiddleware.Finish` then turns that into the reply `errorHandler` sends.

**Abstract inputs.** Things outside the code are parameters of the model:

- `ObjectId.isValid` and the id cast of `findById`;
- `jwt.verify`;
- the clock and the random reset token;
- the bcrypt salts;
- whether the database or the mailer fails;
- the upload result;
- how `Number`/`parseInt` read a text.

**Hashes.** Hashes are symbolic terms: `Bcrypt(of, salt)` and `Sha256Hex(input)`. This makes the hash functions collision-free and never equal to a plain text, which is what lets the model tell a password hashed once from one hashed twice. One consequence is that a double hash is matched by no text at all in the model. In the library, the 60-character output of the inner hash, which the handler discards, would still match; no user is given that text, and on it alone the model's statement is stronger than the library's.

**Values.** A JavaScript value that may be `undefined` is an `Option`. `TruthyStr`/`TruthyNum` are JavaScript truthiness. Prices are integers (cents, say). The tax is a `real`.

**Corrected versions.** Four places in the source do not do what the code around them evidently expects; see "## Findings". For each one, the model has the code as written, with the consequence proved. It also has a corrected version with the intended property proved.

## Model

| member | source | states |
|---|---|---|
| CartSlice.AddItem | frontend/src/redux/features/cartSlice.js:64-78 | a known id gains one unit in place and no line is added; an unknown id is appended with quantity 1; `totalItems` rises by exactly 1 and `totalAmount` by exactly the payload's price |
| CartSlice.RemoveItem | frontend/src/redux/features/cartSlice.js:79-93 | an absent id changes nothing; a present line loses one unit, or is dropped when it had one; the counters fall by 1 and by that line's price |
| CartSlice.UpdateQuantity | frontend/src/redux/features/cartSlice.js:94-104 | an unknown id or a quantity ≤ 0 changes nothing; otherwise only that line's quantity is set, `totalItems` moves by the difference and `totalAmount` by difference × stored price |
| CartSlice.Clear | frontend/src/redux/features/cartSlice.js:105-109 | no lines and both counters 0, `loading` kept |
| CartSlice.ClearIdempotent | frontend/src/redux/features/cartSlice.js:105-109 | clearing twice is clearing once, and a cleared cart satisfies the invariant |
| CartSlice.RequestPending | frontend/src/redux/features/cartSlice.js:113-115 | every pending case sets `loading` and leaves the lines and counters alone |
| CartSlice.RequestRejected | frontend/src/redux/features/cartSlice.js:121-123 | every rejected case clears `loading` and leaves the lines and counters alone |
| CartSlice.AddProductsFulfilled | frontend/src/redux/features/cartSlice.js:116-120 | the server's line is pushed with no de-duplication; the counters are not touched |
| CartSlice.GetAllFulfilled | frontend/src/redux/features/cartSlice.js:129-132 | the server's list replaces the lines; the counters are not touched |
| CartSlice.DeleteFulfilled | frontend/src/redux/features/cartSlice.js:141-144 | every line with the id is dropped and every other line kept, the kept lines being exactly the `filter` of the old list; the counters are not touched |
| CartSlice.DropIdOrder | frontend/src/redux/features/cartSlice.js:141-144 | the `filter` keeps the other lines in their order and with their multiplicity: it distributes over concatenation, and is the identity exactly on lists without the id |
| CartSlice.SumDropId | frontend/src/redux/features/cartSlice.js:84-89 | on distinct ids, filtering out one line's id subtracts exactly that line from any per-line sum |
| CartSlice.AddItemConsistent | frontend/src/redux/features/cartSlice.js:64-78 | `addItemToCart` keeps ids unique, quantities ≥ 1, `totalItems` = Σ quantity and `totalAmount` = Σ price × quantity, when the payload carries its id's usual price |
| CartSlice.RemoveItemConsistent | frontend/src/redux/features/cartSlice.js:79-93 | `removeItemFromCart` keeps the same invariant |
| CartSlice.UpdateQuantityConsistent | frontend/src/redux/features/cartSlice.js:94-104 | `updateItemQuantity` keeps the same invariant |
| CartSlice.RunConsistent | frontend/src/redux/features/cartSlice.js:64-109 | any run of the four synchronous reducers from a consistent state ends in a consistent state |
| CartSlice.ReachableConsistent | frontend/src/redux/features/cartSlice.js:6-11 | every state reached from `initialState` by the synchronous reducers is consistent, provided each id always carries the same price |
| CartSlice.CartStore.AddItemToCart | frontend/src/redux/features/cartSlice.js:64-78 | the in-place update leaves the slice in the state `AddItem` gives |
| CartSlice.CartStore.RemoveItemFromCart | frontend/src/redux/features/cartSlice.js:79-93 | the in-place update leaves the state `RemoveItem` gives |
| CartSlice.CartStore.UpdateItemQuantity | frontend/src/redux/features/cartSlice.js:94-104 | the in-place update leaves the state `UpdateQuantity` gives |
| CartSlice.CartStore.ClearCart | frontend/src/redux/features/cartSlice.js:105-109 | the state `Clear` gives |
| CartSlice.CartStore.Pending | frontend/src/redux/features/cartSlice.js:113-115 | the state `RequestPending` gives |
| CartSlice.CartStore.Rejected | frontend/src/redux/features/cartSlice.js:121-123 | the state `RequestRejected` gives |
| CartSlice.CartStore.AddProductsToCartFulfilled | frontend/src/redux/features/cartSlice.js:116-120 | the state `AddProductsFulfilled` gives |
| CartSlice.CartStore.GetAllCartProductsFulfilled | frontend/src/redux/features/cartSlice.js:129-132 | the state `GetAllFulfilled` gives |
| CartSlice.CartStore.DeleteProductFromCartFulfilled | frontend/src/redux/features/cartSlice.js:141-144 | the state `DeleteFulfilled` gives |
| CartSlice.CartStore.constructor | frontend/src/redux/features/cartSlice.js:6-11 | the slice starts empty, counters 0, not loading |
| CartSidebar.SelectedItems | frontend/src/components/CartSidebar.jsx:17-20 | a non-array `cartItems` is read as the empty list |
| CartSidebar.ReduceFromIsSum | frontend/src/components/CartSidebar.jsx:41-47 | the left-to-right `reduce` equals its start plus Σ price × quantity |
| CartSidebar.SubtotalIsSum | frontend/src/components/CartSidebar.jsx:41-47 | the subtotal is Σ price × quantity, and 0 for an empty cart |
| CartSidebar.SubtotalMatchesRunningTotal | frontend/src/components/CartSidebar.jsx:41-47 | on a consistent cart the recomputed subtotal equals the slice's `totalAmount` |
| CartSidebar.Tax | frontend/src/components/CartSidebar.jsx:50-52 | the tax is a tenth of the subtotal |
| CartSidebar.GrandTotal | frontend/src/components/CartSidebar.jsx:128-134 | the displayed total is 1.1 × subtotal, i.e. subtotal plus tax |
| CartSidebar.Render | frontend/src/components/CartSidebar.jsx:109-134 | a spinner exactly while loading; the empty-cart message exactly when not loading and no lines; otherwise the three figures of the lines |
| CartSidebar.NonArrayIsEmptyCart | frontend/src/components/CartSidebar.jsx:17-20 | a non-array `cartItems` shows the empty-cart branch once loading ends |
| CartSidebar.RenderIgnoresTotalAmount | frontend/src/components/CartSidebar.jsx:17-47 | the rendered figures do not depend on `state.cart.totalAmount` |
| Checkout.ReduceTotalIsSum | frontend/src/components/Checkout.jsx:62-70 | the effect's `reduce` from an accumulator equals it plus Σ Number(price) × Number(quantity) |
| Checkout.SumLinesAppend | frontend/src/components/Checkout.jsx:62-70 | the reference total of two item lists added together is the total of the first plus the total of the second |
| Checkout.FormTotal | frontend/src/components/Checkout.jsx:62-70 | the total is the reference sum, 0 for no items |
| Checkout.ChangeTop | frontend/src/components/Checkout.jsx:19-25 | `handleChange` sets the named top-level field and nothing else |
| Checkout.SetShipping | frontend/src/components/Checkout.jsx:27-36 | the named address field gets the value and every other address field keeps its value |
| Checkout.ChangeShipping | frontend/src/components/Checkout.jsx:27-36 | `handleShippingChange` changes only the named address field |
| Checkout.ChangeItem | frontend/src/components/Checkout.jsx:38-45 | `handleOrderItemChange(i, f, v)` changes only field f of item i, to the text sent |
| Checkout.AddItem | frontend/src/components/Checkout.jsx:47-52 | one default item is appended and the earlier items keep their order |
| Checkout.DropPosition | frontend/src/components/Checkout.jsx:54-60 | the index-filter removes exactly the item at the index, or nothing when the index is outside |
| Checkout.RemoveItem | frontend/src/components/Checkout.jsx:54-60 | `handleRemoveItem(i)` removes exactly position i; the rest keep their relative order |
| Checkout.Recompute | frontend/src/components/Checkout.jsx:62-70 | the effect sets `totalAmount` to the reference sum and changes nothing else |
| Checkout.AddItemKeepsTotal | frontend/src/components/Checkout.jsx:47-70 | appending a default item leaves the recomputed total unchanged |
| Checkout.RemoveItemTotal | frontend/src/components/Checkout.jsx:54-70 | removing item i takes exactly that line off the recomputed total |
| Checkout.ChangeItemTotal | frontend/src/components/Checkout.jsx:38-70 | editing one item moves the total by that line's change; editing the product id does not move it |
| Checkout.SubmittedBody | frontend/src/components/Checkout.jsx:72-86 | the posted body has each item's price and quantity coerced to numbers, the other fields as they are, and the key `productId` with no `product` |
| Checkout.SubmittedItemsFailValidation | frontend/src/components/Checkout.jsx:72-86 | as written, the server's item check fails on the first submitted item, whose `product` prints as "undefined" |
| Checkout.IntendedSubmittedBody | frontend/src/components/Checkout.jsx:72-86 | corrected body: the id goes under `product`, all else as posted |
| Checkout.IntendedItemsValidated | backend/Controllers/orderController.js:16-21 | with the corrected key, the item check passes exactly when every product id is valid |
| Checkout.CheckoutForm.constructor | frontend/src/components/Checkout.jsx:5-17 | one item `{productId: '', quantity: 1, price: 0}`, payment `'Credit Card'`, one of the three options the select offers (Checkout.jsx:219-221), total 0 |
| Checkout.CheckoutForm.HandleChange | frontend/src/components/Checkout.jsx:19-25 | the new state is `ChangeTop` of the old |
| Checkout.CheckoutForm.HandleShippingChange | frontend/src/components/Checkout.jsx:27-36 | the new state is `ChangeShipping` of the old |
| Checkout.CheckoutForm.HandleOrderItemChange | frontend/src/components/Checkout.jsx:38-45 | the in-place write on the copied list leaves the state `ChangeItem` gives |
| Checkout.CheckoutForm.HandleAddItem | frontend/src/components/Checkout.jsx:47-52 | the new state is `AddItem` of the old |
| Checkout.CheckoutForm.HandleRemoveItem | frontend/src/components/Checkout.jsx:54-60 | the new state is `RemoveItem` of the old |
| Checkout.CheckoutForm.RecomputeTotal | frontend/src/components/Checkout.jsx:62-70 | the new state is `Recompute` of the old |
| Checkout.CheckoutForm.HandleOrderSubmit | frontend/src/components/Checkout.jsx:72-86 | the loop builds exactly `SubmittedBody` of the form's state, and the form is not changed |
| Checkout.PlaceCheckoutOrder | frontend/src/components/Checkout.jsx:72-91 | as written, an invalid user id is answered 400; any order with at least one item placed from the form with a valid user is answered 500 "Failed to create order" / "Invalid product ID for item: undefined", and nothing is stored; only an order whose last item was removed passes, is stored with no items and answered 201 once mailed |
| Checkout.PlaceCheckoutOrderIntended | frontend/src/components/Checkout.jsx:72-91 | corrected, an order whose ids are all valid is stored with the submitted items, and answered 201 when the user has an email and the mailer works |
| OrderController.PlacedOrder | backend/Controllers/orderController.js:23-29 | the order stores the items and `totalAmount` exactly as received, never recomputed |
| OrderController.SendOrderConfirmationEmail | backend/Controllers/orderController.js:45-71 | a missing user or email throws "User email not found" and sends nothing; a mailer failure is passed on; otherwise one mail goes to the user |
| OrderController.CreateOrder | backend/Controllers/orderController.js:7-41 | an invalid user answers 400 "Invalid user ID" with nothing built or saved; a body whose `orderItems` is not an array answers 500 "Failed to create order" with the `TypeError` of the `map`, before any save; an invalid item answers 500 "Failed to create order" naming it, before any save; a save failure stores nothing; otherwise the order is saved first and then mailed, and a mail failure answers 500 with the order stored; 201 only after both |
| ProductController.FindProduct | backend/Controllers/productController.js:18-28 | the lookup finds a product with the id, or reports none exists |
| ProductController.RequiredPresentFalsyValues | backend/Controllers/productController.js:38-40 | price 0, width 0 or a missing `inStock` is refused; `inStock: false` is accepted |
| ProductController.CreateProduct | backend/Controllers/productController.js:33-64 | 400 and nothing saved unless all required values are present; 500 "Server error" on a failed save; otherwise the body is stored and answered 201 |
| ProductController.GetProducts | backend/Controllers/productController.js:6-13 | every product, or 500 "Error fetching products" |
| ProductController.GetProductById | backend/Controllers/productController.js:18-28 | 500 on an uncastable id, 404 "Product not found" on an absent one, otherwise the product with that id |
| ProductController.ApplyUpdate | backend/Controllers/productController.js:70-79 | only name, description, price, imageUrl and category are written, each only when given |
| ProductController.ApplyUpdateIdempotent | backend/Controllers/productController.js:70-79 | the same update twice is the update once; an empty update changes nothing |
| ProductController.UpdateProduct | backend/Controllers/productController.js:69-84 | 500 on an uncastable id; 404 on an absent id with nothing changed; otherwise only that product's five fields change |
| ProductController.DeleteProduct | backend/Controllers/productController.js:89-99 | 500 on an uncastable id; 404 on an absent id with nothing changed; otherwise exactly that product is removed, the rest in order |
| ProductController.AddLineProduct | backend/Controllers/productController.js:185-244 | each `add*Product` stores its fixed category whatever the body carries, keeps every other body field, and answers 201; a failed save answers 500 "Error adding … product" |
| ProductController.BuildBound | backend/Controllers/productController.js:121-137 | a range condition exists only when a min or max is non-empty; each non-empty parameter adds its inclusive bound, and a missing field never satisfies a bound |
| ProductController.BuildCurtainsFilter | backend/Controllers/productController.js:116-151 | the step-by-step filter matches exactly the products of the reference reading, one condition per non-empty parameter, and is the category alone when there are no parameters |
| ProductController.GetCurtainsDrapes | backend/Controllers/productController.js:116-156 | the reply lists exactly the products of the reference reading, in store order, or 500 |
| ProductController.GetLineProducts | backend/Controllers/productController.js:104-180 | the Blinds & Shades, Furnishings and Smart Home listings ignore every query parameter and list their whole category |
| ProductController.CurtainsParamReadings | backend/Controllers/productController.js:139-151 | any non-empty `inStock` other than "true" selects out-of-stock items; with no parameters the category is the only constraint |
| CurtainsPage.SentQuery | frontend/src/pages/CurtainsDrapes.jsx:171-186 | of the names the endpoint reads, the page's filter object supplies only `inStock`, always as "true" or "false" |
| CurtainsPage.SentQueryReadsOnlyInStock | frontend/src/pages/CurtainsDrapes.jsx:158-186 | as written, the listing depends only on the checkbox, and the initial state excludes every in-stock product |
| CurtainsPage.JoinedParamSplits | backend/Controllers/productController.js:143-149 | a comma-joined list of labels is truthy exactly when non-empty and splits back into the list |
| CurtainsPage.IntendedQueryMatches | frontend/src/pages/CurtainsDrapes.jsx:158-186 | with the corrected query, the stock box, the type and the colour selections each narrow the listing as their control says, and the initial state lists every curtain |
| FilterSlice.Toggle | frontend/src/redux/features/filterSlice.js:18-23 | a present value has every occurrence removed, the result being exactly `Without` of the list, whose order `Common.WithoutAppend` fixes; an absent value is appended at the end |
| Common.WithoutAppend | frontend/src/redux/features/filterSlice.js:18-23 | `filter(item => item !== value)` keeps the other values in their order and with their multiplicity: it distributes over concatenation, and a lone occurrence of the value goes |
| FilterSlice.SetFilter | frontend/src/redux/features/filterSlice.js:16-26 | only the named entry changes: a list entry is toggled, any other entry is overwritten |
| FilterSlice.ToggleNoDuplicates | frontend/src/redux/features/filterSlice.js:18-23 | toggling keeps a list duplicate-free |
| FilterSlice.ToggleTwice | frontend/src/redux/features/filterSlice.js:18-23 | toggling an absent value twice restores the list exactly; a present value comes back at the end; either way the same values are listed |
| FilterSlice.SetFilterKeepsListsDuplicateFree | frontend/src/redux/features/filterSlice.js:16-26 | `setFilter` keeps every list entry duplicate-free |
| FilterSlice.InitialFiltersShape | frontend/src/redux/features/filterSlice.js:3-10 | the three list entries start empty and the scalar entries are not lists |
| FilterSlice.SetScalarTwice | frontend/src/redux/features/filterSlice.js:24-25 | overwriting a scalar entry twice is overwriting it once |
| FilterSlice.FilterStore.constructor | frontend/src/redux/features/filterSlice.js:3-10 | width 150, height 150, `inStock` false, empty category, subCategory and color |
| FilterSlice.FilterStore.SetFilterAction | frontend/src/redux/features/filterSlice.js:16-26 | the in-place assignment leaves the record `SetFilter` gives |
| FilterSlice.FilterStore.ClearFilters | frontend/src/redux/features/filterSlice.js:27-29 | the initial record from any state, so clearing twice is clearing once |
| ProductsSlice.CreateThunkStart | frontend/src/redux/features/productsSlice.js:37-39 | the thunk rejects before any request exactly when a required value is falsy or `inStock` is undefined |
| ProductsSlice.UpdateThunkStart | frontend/src/redux/features/productsSlice.js:65-67 | the thunk rejects before any request exactly when id, name or price is falsy; the body it sends has no category |
| ProductsSlice.UpdateThunkKeepsCategory | frontend/src/redux/features/productsSlice.js:65-75 | an update sent by the thunk never changes a stored category, dimensions or stock flag |
| ProductsSlice.ReplaceFirst | frontend/src/redux/features/productsSlice.js:163-169 | only the first product with the payload's id is replaced; with no match the list is unchanged |
| ProductsSlice.ReplaceFirstOnlyFirst | frontend/src/redux/features/productsSlice.js:163-169 | a later product with the same id is left as it was |
| ProductsSlice.RemoveAllById | frontend/src/redux/features/productsSlice.js:182-185 | every product with the id is removed and every other kept |
| ProductsSlice.RemoveAllByIdOrder | frontend/src/redux/features/productsSlice.js:182-185 | the removal works on each part of a list separately, so the rest keep their order |
| ProductsSlice.Reduce | frontend/src/redux/features/productsSlice.js:110-191 | every pending case sets `loading` and clears `error` (`fetchProductById` also clears `product`); every rejected case clears `loading` and sets `error` to the payload; fetch replaces the list, create appends, update replaces the first match, delete removes all matches |
| ProductsSlice.LoadingFollowsLastAction | frontend/src/redux/features/productsSlice.js:110-191 | after any run, `loading` holds exactly when the last action was a pending one |
| ProductsSlice.ProductsStore.constructor | frontend/src/redux/features/productsSlice.js:100-105 | no products, not loading, no error, no product |
| ProductsSlice.ProductsStore.Dispatch | frontend/src/redux/features/productsSlice.js:110-191 | the in-place case leaves the state `Reduce` gives |
| StoresSlice.RemoveStore | frontend/src/redux/storesSlice.js:63-66 | every store with the id is removed and every other kept |
| StoresSlice.RemoveStoreOrder | frontend/src/redux/storesSlice.js:63-66 | the other stores keep their order |
| StoresSlice.Reduce | frontend/src/redux/storesSlice.js:43-70 | `fetchStores.pending` clears `error` but `deleteStore.pending` only sets `loading`; fulfilled fetch replaces the list; both rejected cases clear `loading` and set `error` to the payload |
| StoresSlice.ErrorClearedOnlyByFetch | frontend/src/redux/storesSlice.js:46-70 | with no fetch starting and no rejection, `error` stays as it was along any run |
| StoresSlice.LoadingFollowsLastAction | frontend/src/redux/storesSlice.js:43-70 | `loading` holds exactly when the last action was a pending one |
| StoresSlice.StoresStore.constructor | frontend/src/redux/storesSlice.js:38-42 | `{stores: [], loading: false, error: null}` |
| StoresSlice.StoresStore.Dispatch | frontend/src/redux/storesSlice.js:43-70 | the in-place case leaves the state `Reduce` gives |
| UserSlice.UpdateUserStart | frontend/src/redux/userSlice.js:91-96 | without a token the thunk fails before any request, with the default payload |
| UserSlice.RemoveUser | frontend/src/redux/userSlice.js:209-212 | every user with the id is removed and every other kept |
| UserSlice.RemoveUserOrder | frontend/src/redux/userSlice.js:209-212 | the other users keep their order |
| UserSlice.Reduce | frontend/src/redux/userSlice.js:155-216 | each case's effect: pending sets `loading` only; signin sets and logout clears `loggedInUser`; the reset requests set their flag true on success and false on failure; an update sets `updatedUser` and `loggedInUser` to the same payload; only the `fetchUsers`/`deleteUser` rejections write `error` |
| UserSlice.LoadingFollowsLastAction | frontend/src/redux/userSlice.js:155-216 | `loading` holds exactly when the last action was a pending one |
| UserSlice.LoggedInUserKept | frontend/src/redux/userSlice.js:156-198 | only a fulfilled signin, logout or profile update changes `loggedInUser`; the rejected cases leave it |
| UserSlice.ErrorWrittenOnlyByListRejections | frontend/src/redux/userSlice.js:199-216 | no case other than a rejected `fetchUsers` or `deleteUser` changes `error` |
| UserSlice.UpdatedIsLoggedIn | frontend/src/redux/userSlice.js:192-197 | after a fulfilled update, `updatedUser` and `loggedInUser` are the same payload until the next signin, logout or update |
| UserSlice.UpdatedUserKept | frontend/src/redux/userSlice.js:192-197 | only a fulfilled profile update changes `updatedUser` |
| UserSlice.MissingTokenChangesNothing | frontend/src/redux/userSlice.js:91-96 | a profile update refused for want of a token changes nothing but `loading` |
| UserSlice.UserStore.constructor | frontend/src/redux/userSlice.js:140-149 | not loading, no users or results, both reset flags false, empty list, no error |
| UserSlice.UserStore.Dispatch | frontend/src/redux/userSlice.js:155-216 | the in-place case leaves the state `Reduce` gives |
| UserModel.PreSave | backend/Model/UserModel.js:21-33 | a new document, or one whose password changed, is saved with its password hashed with the salt; otherwise it is saved as it is |
| UserModel.HashedOnceMatches | backend/Model/UserModel.js:36-38 | a plain password that went through the hook once is matched by its own text and by no other |
| UserModel.FindByEmail | backend/Controllers/userController.js:17 | the first document with the email, or none exists |
| UserModel.FindById | backend/Controllers/userController.js:171 | the first document with the id, or none exists |
| UserController.RegisterUser | backend/Controllers/userController.js:14-47 | a known email answers 400 "User already exists" and creates nothing; otherwise the user is appended with the body's fields, defaults for image and admin flag, and a password that only its text matches, and the 201 reply carries no password |
| UserController.LoginUser | backend/Controllers/userController.js:53-74 | success exactly when a user with the email exists and the password matches, with a cookie for that user and no password in the reply; otherwise 401 "Invalid email or password" |
| UserController.ForgotPassword | backend/Controllers/userController.js:93-133 | an unknown email answers 404; otherwise the digest of the fresh token and now + 600000 are stored under `resetPasswordExpire` and the raw token is mailed; a failed mail clears both again and answers 500 |
| UserController.FindResetUser | backend/Controllers/userController.js:146-149 | the first document whose token digest matches and whose `resetPasswordExpires` is later than now |
| UserController.ResetPassword | backend/Controllers/userController.js:138-165 | 400 unless the lookup hits; a hit saves the new password hashed once and clears the token and `resetPasswordExpires`; since no handler writes that field, every reset is refused |
| UserController.ResetFlowAsWritten | backend/Controllers/userController.js:108-149 | as written, the reset that follows a reset request, with the mailed token, is always answered 400 |
| UserController.FindIntendedResetUser | backend/Controllers/userController.js:146-149 | corrected lookup on the field the request writes |
| UserController.ResetPasswordIntended | backend/Controllers/userController.js:138-165 | the corrected reset: the same outcomes, reading and clearing `resetPasswordExpire` |
| UserController.ResetFlowIntended | backend/Controllers/userController.js:93-165 | corrected, the mailed token resets the password within ten minutes; afterwards the new password, and no other text (the old one included), logs the user in; and the same token presented again, at any time, is answered 400 |
| UserController.ResetRefusedIntended | backend/Controllers/userController.js:93-165 | corrected, a reset with the mailed token once the ten minutes have passed, or with a token that is not the mailed one and opens no other pending reset, is answered 400 "Invalid or expired token" and changes nothing |
| UserController.SameEmailsSameLookup | backend/Controllers/userController.js:56 | stores that agree on every email agree on the login lookup |
| UserController.UpdateUserProfile | backend/Controllers/userController.js:170-212 | 404 for an unknown user; a truthy name or email replaces the stored one; an upload sets the photo; a supplied password is hashed twice, so neither the new nor the old password matches it afterwards; the reply has no password |
| UserController.UpdateUserProfileIntended | backend/Controllers/userController.js:170-212 | corrected update: the same merge, and afterwards the new password, and no other text, matches |
| AuthMiddleware.WithoutPassword | backend/Middlewares/authMiddleware.js:12 | `req.user` keeps the document's id, email and admin flag, without the password |
| AuthMiddleware.LookupUser | backend/Middlewares/authMiddleware.js:12 | the lookup is null exactly when no document has the id |
| AuthMiddleware.Authenticate | backend/Middlewares/authMiddleware.js:5-22 | no cookie: 401 "Not authorized , expired token"; a failed verification or lookup: 401 "Not authorized , invalid token"; otherwise `next` with the lookup's result, even when it is null |
| AuthMiddleware.AuthorizeAdmin | backend/Middlewares/authMiddleware.js:24-32 | `next` exactly when `req.user` is present and an administrator; otherwise a 401 reply "Admin authorization required" |
| AuthMiddleware.AdminRoute | backend/Middlewares/authMiddleware.js:5-32 | an admin handler runs exactly when the cookie verifies and names a stored administrator; every refusal is a 401 |
| BookConsultation.BookConsultation | backend/Controllers/bookConsultationController.js:8-51 | any falsy field answers 400 "All fields are required." before any save or mail; the record holds exactly the four fields and is saved first, then mailed to its email; 201 only after both; a mail failure leaves the record stored |
| BookConsultation.BookingWithMailFailure | backend/Controllers/bookConsultationController.js:25-46 | a failed mail reaches the client as a 500 with the mailer's message, while the booking stays stored |
| ErrorMiddleware.NotFound | backend/Middlewares/errorMiddleware.js:1-5 | status 404 and the message "Not Found - " + the URL |
| ErrorMiddleware.StatusFor | backend/Middlewares/errorMiddleware.js:9-11 | 500 when the current status is 200, the current status otherwise, never 200 |
| ErrorMiddleware.ErrorHandler | backend/Middlewares/errorMiddleware.js:7-17 | never 200; the message is the error's; the stack only in development |
| ErrorMiddleware.Finish | backend/Middlewares/errorMiddleware.js:7-17 | a reply is sent as it is; a thrown error reaches the client with its message and a non-200 status |
| ErrorMiddleware.NotFoundReply | backend/Middlewares/errorMiddleware.js:1-17 | an unmatched route ends as a 404 naming the URL |
| Pagination.TotalPages | frontend/src/components/Pagination.jsx:2 | the count is the least k with k × itemsPerPage ≥ totalItems; with no items per page rendering fails |
| Pagination.TotalPagesLeast | frontend/src/components/Pagination.jsx:2 | no smaller count holds every item |
| Pagination.Buttons | frontend/src/components/Pagination.jsx:10-17 | exactly `totalPages` buttons, the one at index i labelled i + 1, calling `onPageChange(i + 1)`, highlighted exactly when i + 1 is the current page |
| Pagination.AtMostOneHighlighted | frontend/src/components/Pagination.jsx:14 | at most one button is highlighted, and none when the current page is outside 1..totalPages |
| Pagination.BarForList | frontend/src/components/Pagination.jsx:2-17 | no button for an empty list; labels ascend from 1 to the page count |

## Left out

- UserController.LoginUser: a body without a `password` makes `bcrypt.compare` throw, which the client gets as a 500; the model takes the entered password as a string. The same holds for the other fields that registration and the reset read without a check.
- Network, database and mail I/O. These are replaced by the collections passed in and returned, and by failure flags. Races between requests, and between thunks, are not modelled.
- The toasts, `console` output and the markup are not modelled; only the rendered figures of the cart sidebar and the pagination buttons are.
- The `jwt` cookie's signing and options are not modelled. `generateToken` is not part of this model; a cookie is modelled as the user id it is signed for.
- `logoutUser`, `getAllUsers` and `deleteUser` in the user controller are not modelled: they hold no logic beyond a store call.
- Schema validation (`required`, the email pattern, `minlength`) is not modelled. A failing `create` or `save` is a parameter where the handler can report it. Otherwise saves succeed, including the duplicate-email case of the unique index.
- The user schema does not declare `resetPasswordToken`, `resetPasswordExpire(s)` or `photo`. The model stores them under their names, as the controllers read them; what Mongoose's strict mode does with undeclared paths is not modelled. Depending on the version, either the reset fields are never stored, and every reset is refused, or the filter on them is stripped and matches the first user; in either case renaming the field alone would not make the token work, and the corrected reset assumes the fields are declared.
- The user store is a list rather than a map, so that `findOne` on an email or a token digest is the first match.
- The Cloudinary upload stream is not modelled. Its result is an input, and an upload error is not modelled.
- Floating point is not modelled: prices, `Number`, `parseInt` and `toFixed`. Prices are integers, how a text reads as a number is a parameter, and NaN is not modelled.
- `Pagination.TotalPages`: a fractional `totalItems` is not modelled.
- Checkout.CheckoutForm.HandleOrderItemChange: the shallow copy in `handleOrderItemChange` writes into item objects that the previous state shares. The model replaces the item in a new list, so aliasing with the previous state is not captured.
- CartSlice: a payload that is not an array is not modelled in the slice; the cart sidebar's guard against it is modelled.
- The ESC key listener, the React effects' timing, and the filter toggles copied into the page components are not modelled.
- `registerUser`'s 400 "Invalid user data" branch is not modelled: `User.create` either returns the document or throws, so that branch cannot run.
- FilterSlice.ToggleTwice: toggling a value twice restores the list only when the value was absent. A present value comes back at the end of the list, so only the set of values is restored.
- FilterSlice.SetFilter: list values are compared structurally, where `includes` compares objects by reference. For strings and numbers, as the pages send, the two agree.
- ProductController.ApplyUpdate assumes the update skips `undefined` fields rather than unsetting them.
- ProductController.UpdateProduct, ProductController.DeleteProduct and ProductController.GetProductById model only the cast failure (500) as a database error.
- ProductController.BuildCurtainsFilter: query arrays that Express parses from repeated keys are not modelled; each parameter is one string or absent.
- CurtainsPage.IntendedQueryMatches: the page's width and height sliders are not mapped to the endpoint's `minWidth`/`maxWidth` names in the corrected query.
- `consultationModel.js` is not part of this model; the stored record has the four fields the handler gives it.

## Findings

| source | as written | input that shows it | evidently intended | confidence | as-written member | corrected member |
|---|---|---|---|---|---|---|
| backend/Controllers/userController.js:146-149 | the reset lookup requires `resetPasswordExpires` > now, but `forgotPassword` (line 108) writes `resetPasswordExpire`, and nothing ever writes `resetPasswordExpires` | a reset request for a stored email, then the mailed token posted one minute later | the lookup and the cleanup use `resetPasswordExpire`, so the token works for ten minutes | not executed | UserController.ResetFlowAsWritten | UserController.ResetFlowIntended |
| backend/Controllers/userController.js:199-203 | the new password is hashed with `bcrypt.hash` and then hashed again by the pre-save hook | a profile update with password "newsecret1", then a login with "newsecret1" | assign the plain password and let the hook hash it once, so the new password logs in | not executed | UserController.UpdateUserProfile | UserController.UpdateUserProfileIntended |
| frontend/src/components/Checkout.jsx:72-86 | the form submits items keyed `productId`, but the server checks `item.product` | one item with a valid product id and a valid user | items are sent under `product`, and an order with valid ids is stored | not executed | Checkout.PlaceCheckoutOrder | Checkout.PlaceCheckoutOrderIntended |
| frontend/src/pages/CurtainsDrapes.jsx:171-186 | the page sends its filter object as the query, so the endpoint only sees `inStock`, always as "true" or "false" | the initial state (box unchecked): only out-of-stock curtains are listed | an unchecked box sends no `inStock`, and the type and colour lists go under `subcategory` and `colors` | not executed | CurtainsPage.SentQueryReadsOnlyInStock | CurtainsPage.IntendedQueryMatches |
