/** The admin's catalog handlers: add, edit (a field-by-field merge) and delete. */
module AdminProductController {

  import opened Wrappers
  import opened Store
  import opened Http

  /** A numeric field of an edit request as the JSON body carries it: absent,
      a JSON number, a string holding a number (truthy even when it is "0"),
      the empty string, or a string Mongoose cannot cast to a number. */
  datatype NumInput = Absent | Num(n: int) | NumericText(n: int) | Blank | NotANumber

  datatype ProductPatch = ProductPatch(
    image: Option<string>,
    title: Option<string>,
    description: Option<string>,
    category: Option<string>,
    brand: Option<string>,
    price: NumInput,
    salePrice: NumInput,
    totalStock: NumInput,
    averageReview: NumInput)

  const NoChange := ProductPatch(None, None, None, None, None, Absent, Absent, Absent, Absent)

  /** `input || current` for a text field: a missing or empty string keeps `current`. */
  function TextOr(input: Option<string>, current: string): (v: string)
    ensures input.Some? && input.value != "" ==> v == input.value
    ensures input.None? || input.value == "" ==> v == current
  {
    if input.Some? && input.value != "" then input.value else current
  }

  /** `input || current` for a numeric field: absent, `""` and the number 0 keep `current`. */
  function NumberOr(input: NumInput, current: int): (v: int)
    ensures input.Absent? || input.Blank? || input == Num(0) ==> v == current
    ensures (input.Num? && input.n != 0) || input.NumericText? ==> v == input.n
  {
    match input
    case Num(n) => if n != 0 then n else current
    case NumericText(n) => n
    case _ => current
  }

  /** `input === "" ? 0 : input || current`, used for both prices. */
  function PriceOr(input: NumInput, current: int): (v: int)
    ensures input.Blank? ==> v == 0
    ensures !input.Blank? ==> v == NumberOr(input, current)
  {
    if input.Blank? then 0 else NumberOr(input, current)
  }

  /** A string that cannot be cast makes `save()` throw. */
  predicate CastFails(patch: ProductPatch) {
    patch.price.NotANumber? || patch.salePrice.NotANumber? ||
    patch.totalStock.NotANumber? || patch.averageReview.NotANumber?
  }

  /** The product `editProduct` saves. */
  function Merge(p: Product, patch: ProductPatch): Product {
    Product(
      title := TextOr(patch.title, p.title),
      description := TextOr(patch.description, p.description),
      image := TextOr(patch.image, p.image),
      category := TextOr(patch.category, p.category),
      brand := TextOr(patch.brand, p.brand),
      price := PriceOr(patch.price, p.price),
      salePrice := PriceOr(patch.salePrice, p.salePrice),
      totalStock := NumberOr(patch.totalStock, p.totalStock),
      averageReview := NumberOr(patch.averageReview, p.averageReview))
  }

  /** `addProduct`: saves a product holding exactly the submitted fields. */
  method AddProduct(products: ProductTable, newId: Id, p: Product) returns (r: Reply<Product>)
    requires newId !in products.products
    modifies products
    ensures products.products == old(products.products)[newId := p]
    ensures r == Success(201, "Product added successfully", p)
  {
    products.products := products.products[newId := p];
    r := Success(201, "Product added successfully", p);
  }

  /** `editProduct`. */
  method EditProduct(products: ProductTable, id: Id, patch: ProductPatch) returns (r: Reply<Product>)
    modifies products
    ensures id !in old(products.products) ==>
      r == Failure(BadRequest, "No products with this ID") && products.products == old(products.products)
    ensures id in old(products.products) && CastFails(patch) ==>
      r == Failure(BadRequest, "Error editing product") && products.products == old(products.products)
    ensures id in old(products.products) && !CastFails(patch) ==>
      && products.products == old(products.products)[id := Merge(old(products.products)[id], patch)]
      && r == Success(201, "Product updated successfully", Merge(old(products.products)[id], patch))
  {
    if id !in products.products {
      return Failure(BadRequest, "No products with this ID");
    }
    var product := products.products[id];
    product := product.(title := TextOr(patch.title, product.title));
    product := product.(description := TextOr(patch.description, product.description));
    product := product.(category := TextOr(patch.category, product.category));
    product := product.(brand := TextOr(patch.brand, product.brand));
    product := product.(price := PriceOr(patch.price, product.price));
    product := product.(salePrice := PriceOr(patch.salePrice, product.salePrice));
    product := product.(totalStock := NumberOr(patch.totalStock, product.totalStock));
    product := product.(image := TextOr(patch.image, product.image));
    product := product.(averageReview := NumberOr(patch.averageReview, product.averageReview));
    if CastFails(patch) {
      return Failure(BadRequest, "Error editing product");
    }
    products.products := products.products[id := product];
    r := Success(201, "Product updated successfully", product);
  }

  /** `deleteProduct`: removes exactly that product, or answers 400. */
  method DeleteProduct(products: ProductTable, id: Id) returns (r: Reply<()>)
    modifies products
    ensures id !in old(products.products) ==>
      r == Failure(BadRequest, "No products with this ID") && products.products == old(products.products)
    ensures id in old(products.products) ==>
      r == Success(200, "Product deleted successfully", ()) && products.products == old(products.products) - {id}
  {
    if id !in products.products {
      return Failure(BadRequest, "No products with this ID");
    }
    products.products := products.products - {id};
    r := Success(200, "Product deleted successfully", ());
  }
}

/** What the edit merge can and cannot do. */
module AdminProductProperties {

  import opened Wrappers
  import opened Store
  import opened AdminProductController

  /** A request with no fields changes nothing. */
  lemma EmptyPatchKeepsProduct(p: Product)
    ensures Merge(p, NoChange) == p
  {
  }

  /** Applying the same edit twice is the same as applying it once. */
  lemma MergeIdempotent(p: Product, patch: ProductPatch)
    ensures Merge(Merge(p, patch), patch) == Merge(p, patch)
  {
  }

  /** Every field of the result is the old value or the submitted one. */
  lemma MergeFieldsComeFromEither(p: Product, patch: ProductPatch)
    ensures var m := Merge(p, patch);
      && (m.title == p.title || Some(m.title) == patch.title)
      && (m.price == p.price || (m.price == 0 && patch.price.Blank?) || (patch.price.Num? && m.price == patch.price.n)
          || (patch.price.NumericText? && m.price == patch.price.n))
      && (m.totalStock == p.totalStock || ((patch.totalStock.Num? || patch.totalStock.NumericText?) && m.totalStock == patch.totalStock.n))
  {
  }

  /** A stock of number 0 keeps the old stock, so the number 0 can never be
      saved as stock; only the string "0" can. */
  lemma StockZeroNumberKeepsOld(p: Product, patch: ProductPatch)
    requires p.totalStock != 0
    ensures Merge(p, patch).totalStock == 0 <==> patch.totalStock == NumericText(0)
  {
  }

  /** An empty-string price is saved as 0, while a number 0 keeps the old price. */
  lemma PriceBlankVersusZero(p: Product)
    ensures Merge(p, NoChange.(price := Blank)).price == 0
    ensures Merge(p, NoChange.(price := Num(0))).price == p.price
  {
  }
}
