/** The client-side product list: the checks the `createProduct` and
    `updateProduct` thunks make before any request, and every case of the
    slice's `extraReducers`. A rejected payload is kept as its message. */
module ProductsSlice {
  import opened Common
  import opened ProductController

  datatype ProductsState = ProductsState(
    products: seq<Product>,
    loading: bool,
    error: Option<string>,
    product: Option<Product>)

  const InitialProducts := ProductsState([], false, None, None)

  /** The five thunks of the slice. */
  datatype Thunk = FetchProducts | FetchProductById | CreateProduct | UpdateProduct | DeleteProduct

  datatype ProductsAction =
    | Pending(thunk: Thunk)
    | Rejected(thunk: Thunk, payload: string)
    | FetchProductsFulfilled(list: seq<Product>)
    | FetchProductByIdFulfilled(one: Product)
    | CreateProductFulfilled(created: Product)
    | UpdateProductFulfilled(updated: Product)
    | DeleteProductFulfilled(productId: string)

  /** How a thunk starts: it posts a body, or rejects before any request. */
  datatype ThunkStart = Request(body: ProductFields) | RejectedEarly(message: string)

  /** The `createProduct` thunk: its guard, then the body it posts. */
  function CreateThunkStart(args: ProductFields): (r: ThunkStart)
    ensures r.RejectedEarly? <==> !RequiredPresent(args)
    ensures r.RejectedEarly? ==> r.message == "All required fields must be provided."
    ensures r.Request? ==> r.body == args
  {
    if !TruthyStr(args.category) || !TruthyStr(args.name) || !TruthyStr(args.description) || !TruthyNum(args.price)
       || !TruthyStr(args.imageUrl) || args.dimensions.None? || !TruthyNum(args.dimensions.value.width)
       || !TruthyNum(args.dimensions.value.height) || args.inStock.None?
    then RejectedEarly("All required fields must be provided.")
    else Request(ProductFields(args.name, args.description, args.price, args.imageUrl, args.category,
                               args.dimensions, args.inStock, args.subcategory, args.colors))
  }

  /** The `updateProduct` thunk: id, name and price must be truthy; the body
      holds name, description, price and imageUrl, and no category. */
  function UpdateThunkStart(id: Option<string>, name: Option<string>, description: Option<string>,
                            price: Option<int>, imageUrl: Option<string>): (r: ThunkStart)
    ensures r.RejectedEarly? <==> !TruthyStr(id) || !TruthyStr(name) || !TruthyNum(price)
    ensures r.RejectedEarly? ==> r.message == "Product ID, name, and price are required."
    ensures r.Request? ==>
      r.body.name == name && r.body.price == price && r.body.description == description
      && r.body.imageUrl == imageUrl && r.body.category.None?
  {
    if !TruthyStr(id) || !TruthyStr(name) || !TruthyNum(price)
    then RejectedEarly("Product ID, name, and price are required.")
    else Request(ProductFields(name, description, price, imageUrl, None, None, None, [], []))
  }

  /** An update sent through the thunk never changes a stored category,
      dimensions or stock flag. */
  lemma UpdateThunkKeepsCategory(f: ProductFields, id: Option<string>, name: Option<string>,
                                 description: Option<string>, price: Option<int>, imageUrl: Option<string>)
    requires UpdateThunkStart(id, name, description, price, imageUrl).Request?
    ensures var u := ApplyUpdate(f, UpdateThunkStart(id, name, description, price, imageUrl).body);
            u.category == f.category && u.dimensions == f.dimensions && u.inStock == f.inStock
            && u.name == name && u.price == price
  {
  }

  /** `findIndex(p => p._id === payload._id)`, then `products[index] = payload`. */
  function ReplaceFirst(products: seq<Product>, p: Product): (r: seq<Product>)
    ensures |r| == |products|
    ensures FindProduct(products, p.id).None? ==> r == products
    ensures FindProduct(products, p.id).Some? ==>
      var i := FindProduct(products, p.id).value;
      r[i] == p && forall k :: 0 <= k < |products| && k != i ==> r[k] == products[k]
  {
    match FindProduct(products, p.id)
    case None => products
    case Some(i) => products[i := p]
  }

  /** Only the first match is replaced: a later product with the same id is
      left as it was. */
  lemma ReplaceFirstOnlyFirst(products: seq<Product>, p: Product, k: nat)
    requires k < |products| && products[k].id == p.id
    ensures ReplaceFirst(products, p)[k] == p || ReplaceFirst(products, p)[k] == products[k]
    ensures FindProduct(products, p.id).value < k ==> ReplaceFirst(products, p)[k] == products[k]
  {
  }

  /** `filter(product => product._id !== id)`. */
  function RemoveAllById(products: seq<Product>, id: string): (r: seq<Product>)
    ensures forall k :: 0 <= k < |r| ==> r[k].id != id && r[k] in products
    ensures forall k :: 0 <= k < |products| && products[k].id != id ==> products[k] in r
  {
    Filter(products, (p: Product) => p.id != id)
  }

  /** The removal keeps the others in their order: it works on each part of a
      list separately, and leaves a list without that id unchanged. */
  lemma RemoveAllByIdOrder(a: seq<Product>, b: seq<Product>, id: string)
    ensures RemoveAllById(a + b, id) == RemoveAllById(a, id) + RemoveAllById(b, id)
    ensures (forall k :: 0 <= k < |a| ==> a[k].id != id) ==> RemoveAllById(a, id) == a
  {
    FilterAppend(a, b, (p: Product) => p.id != id);
    FilterKeepsAll(a, (p: Product) => p.id != id);
  }

  /** The reducer. */
  function Reduce(s: ProductsState, a: ProductsAction): (r: ProductsState)
    ensures a.Pending? ==> r.loading && r.error.None? && r.products == s.products
    ensures a.Pending? ==> r.product == (if a.thunk == FetchProductById then None else s.product)
    ensures a.Rejected? ==> !r.loading && r.error == Some(a.payload) && r.products == s.products && r.product == s.product
    ensures !a.Pending? && !a.Rejected? ==> !r.loading && r.error == s.error
    ensures a.FetchProductsFulfilled? ==> r.products == a.list && r.product == s.product
    ensures a.FetchProductByIdFulfilled? ==> r.product == Some(a.one) && r.products == s.products
    ensures a.CreateProductFulfilled? ==> r.products == s.products + [a.created] && r.product == s.product
    ensures a.UpdateProductFulfilled? ==> r.products == ReplaceFirst(s.products, a.updated) && r.product == s.product
    ensures a.DeleteProductFulfilled? ==> r.products == RemoveAllById(s.products, a.productId) && r.product == s.product
  {
    match a
    case Pending(thunk) =>
      s.(loading := true, error := None, product := if thunk == FetchProductById then None else s.product)
    case Rejected(_, payload) => s.(loading := false, error := Some(payload))
    case FetchProductsFulfilled(list) => s.(loading := false, products := list)
    case FetchProductByIdFulfilled(one) => s.(loading := false, product := Some(one))
    case CreateProductFulfilled(created) => s.(loading := false, products := s.products + [created])
    case UpdateProductFulfilled(updated) => s.(loading := false, products := ReplaceFirst(s.products, updated))
    case DeleteProductFulfilled(productId) => s.(loading := false, products := RemoveAllById(s.products, productId))
  }

  /** `loading` tells whether the last action was a pending one, whatever
      came before. */
  lemma LoadingFollowsLastAction(s: ProductsState, actions: seq<ProductsAction>)
    requires |actions| > 0
    ensures RunAll(Reduce, s, actions).loading <==> actions[|actions| - 1].Pending?
  {
    LastActionDecides(Reduce, s, actions, (t: ProductsState) => t.loading, (a: ProductsAction) => a.Pending?);
  }

  /** The slice's state, changed in place by each case. */
  class ProductsStore {
    var products: seq<Product>
    var loading: bool
    var error: Option<string>
    var product: Option<Product>

    function State(): ProductsState
      reads this
    {
      ProductsState(products, loading, error, product)
    }

    constructor ()
      ensures State() == InitialProducts
    {
      products, loading, error, product := [], false, None, None;
    }

    method Dispatch(a: ProductsAction)
      modifies this
      ensures State() == Reduce(old(State()), a)
    {
      match a {
        case Pending(thunk) =>
          loading := true;
          error := None;
          if thunk == FetchProductById {
            product := None;
          }
        case Rejected(_, payload) =>
          loading := false;
          error := Some(payload);
        case FetchProductsFulfilled(list) =>
          loading := false;
          products := list;
        case FetchProductByIdFulfilled(one) =>
          loading := false;
          product := Some(one);
        case CreateProductFulfilled(created) =>
          loading := false;
          products := products + [created];
        case UpdateProductFulfilled(updated) =>
          loading := false;
          var index := FindProduct(products, updated.id);
          if index.Some? {
            products := products[index.value := updated];
          }
        case DeleteProductFulfilled(productId) =>
          loading := false;
          products := RemoveAllById(products, productId);
      }
    }
  }
}
