/** The product endpoints: the required-field check of `createProduct`, the
    partial update, the delete, the per-category listings and additions, and
    the filter `getCurtainsDrapes` builds from its query parameters. The
    collection is a list of documents in insertion order; `isValidId` is
    Mongoose's cast test on an id, and `dbError`/`saveError` what the
    database reports. */
module ProductController {
  import opened Common

  datatype Dimensions = Dimensions(width: Option<int>, height: Option<int>)

  /** The document shape of the product schema; a field that was never given
      is `None`, and the two string lists default to empty. Also the shape of
      a request body, which carries the same keys. */
  datatype ProductFields = ProductFields(
    name: Option<string>,
    description: Option<string>,
    price: Option<int>,
    imageUrl: Option<string>,
    category: Option<string>,
    dimensions: Option<Dimensions>,
    inStock: Option<bool>,
    subcategory: seq<string>,
    colors: seq<string>)

  datatype Product = Product(id: string, fields: ProductFields)

  /** `res.status(status).json(...)` with a document, a list or a message. */
  datatype ProductReply =
    | One(status: int, product: Product)
    | Many(status: int, products: seq<Product>)
    | Message(status: int, message: string)

  /** `Product.findById(id)` on a castable id. */
  function FindProduct(products: seq<Product>, id: string): (r: Option<nat>)
    ensures r.Some? ==> r.value < |products| && products[r.value].id == id
    ensures r.None? <==> forall k :: 0 <= k < |products| ==> products[k].id != id
  {
    FirstIndex(products, (p: Product) => p.id == id)
  }

  // ---------------------------------------------------------------- create

  /** The guard of `createProduct`: every required value truthy, and
      `inStock` merely present. */
  predicate RequiredPresent(b: ProductFields)
  {
    && TruthyStr(b.name) && TruthyStr(b.description) && TruthyNum(b.price)
    && TruthyStr(b.imageUrl) && TruthyStr(b.category)
    && b.dimensions.Some? && TruthyNum(b.dimensions.value.width) && TruthyNum(b.dimensions.value.height)
    && b.inStock.Some?
  }

  /** A price or a width of 0 is refused like a missing one, while an
      out-of-stock product is accepted. */
  lemma RequiredPresentFalsyValues(b: ProductFields)
    ensures b.price == Some(0) ==> !RequiredPresent(b)
    ensures b.dimensions.Some? && b.dimensions.value.width == Some(0) ==> !RequiredPresent(b)
    ensures RequiredPresent(b) ==> RequiredPresent(b.(inStock := Some(false)))
    ensures b.inStock.None? ==> !RequiredPresent(b)
  {
  }

  method CreateProduct(body: ProductFields, products: seq<Product>, newId: string, saveError: bool)
    returns (reply: ProductReply, products': seq<Product>)
    ensures !RequiredPresent(body) ==>
      reply == Message(400, "All required fields must be provided.") && products' == products
    ensures RequiredPresent(body) && saveError ==> reply == Message(500, "Server error") && products' == products
    ensures RequiredPresent(body) && !saveError ==>
      reply == One(201, Product(newId, body)) && products' == products + [Product(newId, body)]
    ensures reply.status == 201 <==> RequiredPresent(body) && !saveError
  {
    products' := products;
    if !TruthyStr(body.name) || !TruthyStr(body.description) || !TruthyNum(body.price) || !TruthyStr(body.imageUrl)
       || !TruthyStr(body.category) || body.dimensions.None? || !TruthyNum(body.dimensions.value.width)
       || !TruthyNum(body.dimensions.value.height) || body.inStock.None? {
      return Message(400, "All required fields must be provided."), products';
    }
    var newProduct := Product(newId, ProductFields(body.name, body.description, body.price, body.imageUrl,
                                                   body.category, body.dimensions, body.inStock,
                                                   body.subcategory, body.colors));
    if saveError {
      return Message(500, "Server error"), products';
    }
    products' := products + [newProduct];
    reply := One(201, newProduct);
  }

  // ---------------------------------------------------------------- read

  method GetProducts(products: seq<Product>, dbError: bool) returns (reply: ProductReply)
    ensures dbError ==> reply == Message(500, "Error fetching products")
    ensures !dbError ==> reply == Many(200, products)
  {
    if dbError {
      return Message(500, "Error fetching products");
    }
    reply := Many(200, products);
  }

  method GetProductById(id: string, isValidId: string -> bool, products: seq<Product>) returns (reply: ProductReply)
    ensures !isValidId(id) ==> reply == Message(500, "Error fetching product")
    ensures isValidId(id) && FindProduct(products, id).None? ==> reply == Message(404, "Product not found")
    ensures reply.One? ==> reply.status == 200 && reply.product in products && reply.product.id == id
    ensures isValidId(id) && FindProduct(products, id).Some? ==> reply.One?
  {
    if !isValidId(id) {
      return Message(500, "Error fetching product");
    }
    var found := FindProduct(products, id);
    if found.None? {
      return Message(404, "Product not found");
    }
    reply := One(200, products[found.value]);
  }

  // ---------------------------------------------------------------- update

  /** `findByIdAndUpdate(id, { name, description, price, imageUrl, category })`:
      a key the body leaves undefined is not part of the update. */
  function ApplyUpdate(f: ProductFields, body: ProductFields): (r: ProductFields)
    ensures r.name == (if body.name.Some? then body.name else f.name)
    ensures r.description == (if body.description.Some? then body.description else f.description)
    ensures r.price == (if body.price.Some? then body.price else f.price)
    ensures r.imageUrl == (if body.imageUrl.Some? then body.imageUrl else f.imageUrl)
    ensures r.category == (if body.category.Some? then body.category else f.category)
    ensures r.dimensions == f.dimensions && r.inStock == f.inStock
    ensures r.subcategory == f.subcategory && r.colors == f.colors
  {
    f.(name := if body.name.Some? then body.name else f.name,
       description := if body.description.Some? then body.description else f.description,
       price := if body.price.Some? then body.price else f.price,
       imageUrl := if body.imageUrl.Some? then body.imageUrl else f.imageUrl,
       category := if body.category.Some? then body.category else f.category)
  }

  /** Sending the same update twice has the effect of sending it once, and an
      update that names none of the five fields changes nothing. */
  lemma ApplyUpdateIdempotent(f: ProductFields, body: ProductFields)
    ensures ApplyUpdate(ApplyUpdate(f, body), body) == ApplyUpdate(f, body)
    ensures body.name.None? && body.description.None? && body.price.None? && body.imageUrl.None? && body.category.None?
            ==> ApplyUpdate(f, body) == f
  {
  }

  method UpdateProduct(id: string, body: ProductFields, isValidId: string -> bool, products: seq<Product>)
    returns (reply: ProductReply, products': seq<Product>)
    ensures !isValidId(id) ==> reply == Message(500, "Error updating product") && products' == products
    ensures isValidId(id) && FindProduct(products, id).None? ==>
      reply == Message(404, "Product not found") && products' == products
    ensures isValidId(id) && FindProduct(products, id).Some? ==>
      var i := FindProduct(products, id).value;
      && products' == products[i := Product(id, ApplyUpdate(products[i].fields, body))]
      && reply == One(200, products'[i])
  {
    products' := products;
    if !isValidId(id) {
      return Message(500, "Error updating product"), products';
    }
    var found := FindProduct(products, id);
    if found.None? {
      return Message(404, "Product not found"), products';
    }
    var i := found.value;
    var updated := Product(id, ApplyUpdate(products[i].fields, body));
    products' := products[i := updated];
    reply := One(200, updated);
  }

  // ---------------------------------------------------------------- delete

  method DeleteProduct(id: string, isValidId: string -> bool, products: seq<Product>)
    returns (reply: ProductReply, products': seq<Product>)
    ensures !isValidId(id) ==> reply == Message(500, "Error deleting product") && products' == products
    ensures isValidId(id) && FindProduct(products, id).None? ==>
      reply == Message(404, "Product not found") && products' == products
    ensures isValidId(id) && FindProduct(products, id).Some? ==>
      var i := FindProduct(products, id).value;
      && products' == products[..i] + products[i + 1..]
      && reply == Message(200, "Product deleted successfully")
    ensures |products'| == |products| || |products'| == |products| - 1
  {
    products' := products;
    if !isValidId(id) {
      return Message(500, "Error deleting product"), products';
    }
    var found := FindProduct(products, id);
    if found.None? {
      return Message(404, "Product not found"), products';
    }
    var i := found.value;
    products' := products[..i] + products[i + 1..];
    reply := Message(200, "Product deleted successfully");
  }

  // ---------------------------------------------------------------- categories

  /** The four product lines, each with a listing and an add endpoint. */
  datatype Line = BlindsShades | CurtainsDrapes | Furnishings | SmartHome

  function CategoryName(line: Line): string
  {
    match line
    case BlindsShades => "Blinds & Shades"
    case CurtainsDrapes => "Curtains & Drapes"
    case Furnishings => "Furnishings"
    case SmartHome => "Smart Home"
  }

  predicate InCategory(p: Product, name: string)
  {
    p.fields.category == Some(name)
  }

  /** `addBlindsShadesProduct` and its three siblings: `{ ...req.body,
      category: <fixed> }`, saved and returned. */
  method AddLineProduct(line: Line, body: ProductFields, products: seq<Product>, newId: string, saveError: bool)
    returns (reply: ProductReply, products': seq<Product>)
    ensures saveError ==>
      reply == Message(500, "Error adding " + CategoryName(line) + " product") && products' == products
    ensures !saveError ==>
      var stored := Product(newId, body.(category := Some(CategoryName(line))));
      reply == One(201, stored) && products' == products + [stored]
    ensures reply.One? ==>
      InCategory(reply.product, CategoryName(line)) && reply.product.fields.(category := body.category) == body
  {
    products' := products;
    var newProduct := Product(newId, body.(category := Some(CategoryName(line))));
    if saveError {
      return Message(500, "Error adding " + CategoryName(line) + " product"), products';
    }
    products' := products + [newProduct];
    reply := One(201, newProduct);
  }

  // ---------------------------------------------------------------- curtains filter

  /** `req.query` as `getCurtainsDrapes` destructures it; each parameter is
      absent or a string. */
  datatype CurtainsQuery = CurtainsQuery(
    minWidth: Option<string>, maxWidth: Option<string>,
    minHeight: Option<string>, maxHeight: Option<string>,
    inStock: Option<string>, subcategory: Option<string>, colors: Option<string>,
    minPrice: Option<string>, maxPrice: Option<string>)

  /** `{ $gte?, $lte? }` on one numeric path. */
  datatype Bound = Bound(gte: Option<int>, lte: Option<int>)

  /** The filter document handed to `Product.find`. */
  datatype ProductFilter = ProductFilter(
    category: string,
    width: Option<Bound>,
    height: Option<Bound>,
    price: Option<Bound>,
    inStock: Option<bool>,
    subcategory: Option<seq<string>>,
    colors: Option<seq<string>>)

  function Width(p: Product): Option<int>
  {
    if p.fields.dimensions.Some? then p.fields.dimensions.value.width else None
  }

  function Height(p: Product): Option<int>
  {
    if p.fields.dimensions.Some? then p.fields.dimensions.value.height else None
  }

  /** A range condition holds only on a value that is present. */
  predicate InBound(v: Option<int>, b: Bound)
  {
    v.Some? && (b.gte.Some? ==> v.value >= b.gte.value) && (b.lte.Some? ==> v.value <= b.lte.value)
  }

  /** `{ $in: wanted }` on an array field: some element is one of `wanted`. */
  predicate AnyIn(have: seq<string>, wanted: seq<string>)
  {
    exists k :: 0 <= k < |have| && have[k] in wanted
  }

  /** An optional range condition, as the filter document holds it. */
  predicate BoundHolds(b: Option<Bound>, v: Option<int>)
  {
    b.Some? ==> InBound(v, b.value)
  }

  /** How Mongo evaluates the filter document on one product. */
  predicate Matches(f: ProductFilter, p: Product)
  {
    && InCategory(p, f.category)
    && BoundHolds(f.width, Width(p))
    && BoundHolds(f.height, Height(p))
    && BoundHolds(f.price, p.fields.price)
    && (f.inStock.Some? ==> p.fields.inStock == f.inStock)
    && (f.subcategory.Some? ==> AnyIn(p.fields.subcategory, f.subcategory.value))
    && (f.colors.Some? ==> AnyIn(p.fields.colors, f.colors.value))
  }

  /** A min and a max parameter read on their own: each non-empty one bounds
      the value inclusively, and a bounded value must be present. */
  predicate RangeSpec(min: Option<string>, max: Option<string>, parseInt: string -> int, v: Option<int>)
  {
    && (TruthyStr(min) ==> v.Some? && v.value >= parseInt(min.value))
    && (TruthyStr(max) ==> v.Some? && v.value <= parseInt(max.value))
  }

  /** Reference reading of the endpoint, one condition per parameter: the
      category is always fixed; each non-empty parameter adds its own
      condition and an absent or empty one adds none. */
  predicate SpecMatches(q: CurtainsQuery, parseInt: string -> int, p: Product)
  {
    && InCategory(p, "Curtains & Drapes")
    && RangeSpec(q.minWidth, q.maxWidth, parseInt, Width(p))
    && RangeSpec(q.minHeight, q.maxHeight, parseInt, Height(p))
    && RangeSpec(q.minPrice, q.maxPrice, parseInt, p.fields.price)
    && (TruthyStr(q.inStock) ==> p.fields.inStock == Some(q.inStock.value == "true"))
    && (TruthyStr(q.subcategory) ==> AnyIn(p.fields.subcategory, Split(q.subcategory.value, ',')))
    && (TruthyStr(q.colors) ==> AnyIn(p.fields.colors, Split(q.colors.value, ',')))
  }

  predicate NoParams(q: CurtainsQuery)
  {
    && !TruthyStr(q.minWidth) && !TruthyStr(q.maxWidth) && !TruthyStr(q.minHeight) && !TruthyStr(q.maxHeight)
    && !TruthyStr(q.minPrice) && !TruthyStr(q.maxPrice) && !TruthyStr(q.inStock)
    && !TruthyStr(q.subcategory) && !TruthyStr(q.colors)
  }

  /** The optional range on one path, from its min and max parameters. */
  method BuildBound(min: Option<string>, max: Option<string>, parseInt: string -> int) returns (b: Option<Bound>)
    ensures b.None? <==> !TruthyStr(min) && !TruthyStr(max)
    ensures forall v: Option<int> :: BoundHolds(b, v) <==> RangeSpec(min, max, parseInt, v)
  {
    b := None;
    if TruthyStr(min) || TruthyStr(max) {
      var range := Bound(None, None);
      if TruthyStr(min) {
        range := range.(gte := Some(parseInt(min.value)));
      }
      if TruthyStr(max) {
        range := range.(lte := Some(parseInt(max.value)));
      }
      b := Some(range);
    }
  }

  /** The filter document, built step by step as the handler does. */
  method BuildCurtainsFilter(q: CurtainsQuery, parseInt: string -> int) returns (f: ProductFilter)
    ensures f.category == "Curtains & Drapes"
    ensures forall p :: Matches(f, p) <==> SpecMatches(q, parseInt, p)
    ensures NoParams(q) ==> f == ProductFilter("Curtains & Drapes", None, None, None, None, None, None)
  {
    f := ProductFilter("Curtains & Drapes", None, None, None, None, None, None);
    var width := BuildBound(q.minWidth, q.maxWidth, parseInt);
    f := f.(width := width);
    var height := BuildBound(q.minHeight, q.maxHeight, parseInt);
    f := f.(height := height);
    var price := BuildBound(q.minPrice, q.maxPrice, parseInt);
    f := f.(price := price);
    if TruthyStr(q.inStock) {
      f := f.(inStock := Some(q.inStock.value == "true"));
    }
    if TruthyStr(q.subcategory) {
      f := f.(subcategory := Some(Split(q.subcategory.value, ',')));
    }
    if TruthyStr(q.colors) {
      f := f.(colors := Some(Split(q.colors.value, ',')));
    }
  }

  /** `getCurtainsDrapes`: exactly the products of the reference reading, in
      collection order. */
  method GetCurtainsDrapes(q: CurtainsQuery, parseInt: string -> int, products: seq<Product>, dbError: bool)
    returns (reply: ProductReply)
    ensures dbError ==> reply == Message(500, "Error fetching Curtains & Drapes products")
    ensures !dbError ==> reply == Many(200, Filter(products, (p: Product) => SpecMatches(q, parseInt, p)))
  {
    var filter := BuildCurtainsFilter(q, parseInt);
    if dbError {
      return Message(500, "Error fetching Curtains & Drapes products");
    }
    FilterSame(products, (p: Product) => Matches(filter, p), (p: Product) => SpecMatches(q, parseInt, p));
    reply := Many(200, Filter(products, (p: Product) => Matches(filter, p)));
  }

  /** `getBlindsShades`, `getFurnishings` and `getSmartHome` take no notice of
      the query; `getCurtainsDrapes` is the one listing that filters. */
  method GetLineProducts(line: Line, q: CurtainsQuery, parseInt: string -> int, products: seq<Product>, dbError: bool)
    returns (reply: ProductReply)
    ensures dbError ==> reply == Message(500, "Error fetching " + CategoryName(line) + " products")
    ensures !dbError && line != CurtainsDrapes ==>
      reply == Many(200, Filter(products, (p: Product) => InCategory(p, CategoryName(line))))
    ensures !dbError && line == CurtainsDrapes ==>
      reply == Many(200, Filter(products, (p: Product) => SpecMatches(q, parseInt, p)))
  {
    if line == CurtainsDrapes {
      reply := GetCurtainsDrapes(q, parseInt, products, dbError);
      return;
    }
    if dbError {
      return Message(500, "Error fetching " + CategoryName(line) + " products");
    }
    reply := Many(200, Filter(products, (p: Product) => InCategory(p, CategoryName(line))));
  }

  /** Any non-empty `inStock` other than "true" lists only out-of-stock
      products, and with no parameters every curtain product is listed. */
  lemma CurtainsParamReadings(q: CurtainsQuery, parseInt: string -> int, p: Product)
    ensures TruthyStr(q.inStock) && q.inStock.value != "true" && SpecMatches(q, parseInt, p)
            ==> p.fields.inStock == Some(false)
    ensures NoParams(q) ==> (SpecMatches(q, parseInt, p) <==> InCategory(p, "Curtains & Drapes"))
  {
  }
}
