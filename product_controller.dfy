/** The product catalog handlers: the visibility filter of the two reads,
    creation with a unique name, the partial-update merge rule and deletion. */
module ProductController {
  import opened Common
  import opened ImageUrl

  /** A stored product. The product schema is not part of this model, so a
      field the creating request left out stays absent (`None`). */
  datatype Product = Product(
    name: Option<string>,
    description: Option<string>,
    salePrice: Option<int>,
    offerPrice: Option<int>,
    purchasePrice: Option<int>,
    category: Option<Id>,
    isTaxInclusive: Option<bool>,
    taxPercentage: Option<int>,
    isActive: Option<bool>,
    image: Option<string>,
    ingredients: seq<string>,
    isCombo: Option<bool>,
    createdBy: Id,
    updatedBy: Id)

  /** The body of a create or update request. `ingredients` is the already
      parsed list; `None` stands for an absent or empty string. */
  datatype ProductFields = ProductFields(
    name: Option<string>,
    description: Option<string>,
    salePrice: Option<int>,
    offerPrice: Option<int>,
    purchasePrice: Option<int>,
    category: Option<Id>,
    isTaxInclusive: Option<bool>,
    taxPercentage: Option<int>,
    isActive: Option<bool>,
    ingredients: Option<seq<string>>,
    isCombo: Option<bool>)

  /** The `where({ isActive: true })` filter that anonymous callers get. */
  predicate VisibleTo(caller: Option<Token>, p: Product) {
    caller.Some? || p.isActive == Some(true)
  }

  /** What `updateProduct` makes of product `p`: the fields combined with
      `||` keep their old value whenever the new one is falsy, those tested
      with `typeof` take any defined value, `ingredients` is replaced only when
      supplied, `image` only when a file was uploaded, and `updatedBy` is
      always the caller. */
  function Merged(p: Product, f: ProductFields, caller: Id, upload: Option<string>): (r: Product)
    ensures r.name == (if TruthyString(f.name) then f.name else p.name)
    ensures r.description == (if TruthyString(f.description) then f.description else p.description)
    ensures r.salePrice == (if TruthyNumber(f.salePrice) then f.salePrice else p.salePrice)
    ensures r.offerPrice == (if TruthyNumber(f.offerPrice) then f.offerPrice else p.offerPrice)
    ensures r.purchasePrice == (if TruthyNumber(f.purchasePrice) then f.purchasePrice else p.purchasePrice)
    ensures r.category == (if TruthyString(f.category) then f.category else p.category)
    ensures r.isCombo == (if TruthyBool(f.isCombo) then f.isCombo else p.isCombo)
    ensures r.isTaxInclusive == (if f.isTaxInclusive.Some? then f.isTaxInclusive else p.isTaxInclusive)
    ensures r.taxPercentage == (if f.taxPercentage.Some? then f.taxPercentage else p.taxPercentage)
    ensures r.isActive == (if f.isActive.Some? then f.isActive else p.isActive)
    ensures r.ingredients == (if f.ingredients.Some? then f.ingredients.value else p.ingredients)
    ensures r.image == (if upload.Some? then upload else p.image)
    ensures r.createdBy == p.createdBy && r.updatedBy == caller
  {
    p.(name := OrString(f.name, p.name),
       description := OrString(f.description, p.description),
       salePrice := OrNumber(f.salePrice, p.salePrice),
       offerPrice := OrNumber(f.offerPrice, p.offerPrice),
       purchasePrice := OrNumber(f.purchasePrice, p.purchasePrice),
       category := OrString(f.category, p.category),
       isCombo := OrBool(f.isCombo, p.isCombo),
       isTaxInclusive := IfDefined(f.isTaxInclusive, p.isTaxInclusive),
       taxPercentage := IfDefined(f.taxPercentage, p.taxPercentage),
       isActive := IfDefined(f.isActive, p.isActive),
       updatedBy := caller,
       ingredients := if f.ingredients.Some? then f.ingredients.value else p.ingredients,
       image := if upload.Some? then upload else p.image)
  }

  /** An update can never set a price to 0: a price that is 0 afterwards was
      already 0 before. */
  lemma NoUpdateSetsZeroPrice(p: Product, f: ProductFields, caller: Id, upload: Option<string>)
    ensures Merged(p, f, caller, upload).salePrice == Some(0) ==> p.salePrice == Some(0)
    ensures Merged(p, f, caller, upload).offerPrice == Some(0) ==> p.offerPrice == Some(0)
    ensures Merged(p, f, caller, upload).purchasePrice == Some(0) ==> p.purchasePrice == Some(0)
  {
  }

  /** An update can never clear `isCombo`. */
  lemma NoUpdateClearsCombo(p: Product, f: ProductFields, caller: Id, upload: Option<string>)
    requires p.isCombo == Some(true)
    ensures Merged(p, f, caller, upload).isCombo == Some(true)
  {
  }

  /** An update sending `isActive: false` does take effect: the product is
      hidden from anonymous callers. */
  lemma DeactivationHides(p: Product, f: ProductFields, caller: Id, upload: Option<string>)
    requires f.isActive == Some(false)
    ensures !VisibleTo(None, Merged(p, f, caller, upload))
  {
  }

  /** Sending the same update twice has the effect of sending it once. */
  lemma MergedIdempotent(p: Product, f: ProductFields, caller: Id, upload: Option<string>)
    ensures Merged(Merged(p, f, caller, upload), f, caller, upload) == Merged(p, f, caller, upload)
  {
  }

  /** A body with no fields and no file only records who touched the product. */
  lemma EmptyUpdateStampsOnly(p: Product, caller: Id)
    ensures Merged(p, ProductFields(None, None, None, None, None, None, None, None, None, None, None), caller, None)
         == p.(updatedBy := caller)
  {
  }

  /** The image to destroy when a product's image goes: its public id, when
      the product has an image. */
  function ImageToDestroy(image: Option<string>): (r: Option<string>)
    ensures r.Some? <==> TruthyString(image)
    ensures r.Some? ==> r.value == PublicId(image.value)
  {
    if TruthyString(image) then Some(PublicId(image.value)) else None
  }

  /** The product collection. */
  class Catalog {
    var products: map<Id, Product>

    constructor ()
      ensures products == map[]
    {
      products := map[];
    }

    /** `Product.findOne({ name })` finds a document. */
    predicate NameTaken(name: Option<string>)
      reads this
    {
      exists id :: id in products && products[id].name == name
    }

    /** `getProducts`: anonymous callers see exactly the active products,
        authenticated callers see all of them, each unchanged. */
    function GetProducts(caller: Option<Token>): (r: map<Id, Product>)
      reads this
      ensures forall id :: id in r <==> id in products && VisibleTo(caller, products[id])
      ensures forall id :: id in r ==> r[id] == products[id]
      ensures caller.Some? ==> r == products
    {
      map id | id in products && VisibleTo(caller, products[id]) :: products[id]
    }

    /** `getProductById`: found exactly when the product exists and the caller
        may see it, that is when `GetProducts` lists it. */
    function GetProductById(caller: Option<Token>, id: Id): (r: Outcome<Product>)
      reads this
      ensures r.Ok? <==> id in GetProducts(caller)
      ensures r.Ok? ==> r.value == products[id]
      ensures !r.Ok? ==> r == NotFound("Product not found")
    {
      if id in products && VisibleTo(caller, products[id]) then Ok(products[id])
      else NotFound("Product not found")
    }

    /** `createProduct`: a taken name is rejected and nothing is stored;
        otherwise exactly one product is added under a fresh id, created and
        updated by the caller, with the request's fields verbatim and
        `ingredients` defaulting to the empty list. */
    method CreateProduct(caller: Token, f: ProductFields, upload: Option<string>, freshId: Id)
      returns (r: Outcome<Product>)
      requires freshId !in products
      modifies this
      ensures old(NameTaken(f.name)) ==> r == Rejected("Product name already exists") && products == old(products)
      ensures !old(NameTaken(f.name)) ==> r.Ok? && products == old(products)[freshId := r.value]
      ensures r.Ok? ==> && r.value.name == f.name && r.value.description == f.description
                        && r.value.salePrice == f.salePrice && r.value.offerPrice == f.offerPrice
                        && r.value.purchasePrice == f.purchasePrice && r.value.category == f.category
                        && r.value.isTaxInclusive == f.isTaxInclusive && r.value.taxPercentage == f.taxPercentage
                        && r.value.isActive == f.isActive && r.value.isCombo == f.isCombo
                        && r.value.image == upload
                        && r.value.ingredients == (if f.ingredients.Some? then f.ingredients.value else [])
                        && r.value.createdBy == caller.id && r.value.updatedBy == caller.id
    {
      if NameTaken(f.name) {
        r := Rejected("Product name already exists");
        return;
      }
      var product := Product(f.name, f.description, f.salePrice, f.offerPrice, f.purchasePrice,
                             f.category, f.isTaxInclusive, f.taxPercentage, f.isActive, upload,
                             if f.ingredients.Some? then f.ingredients.value else [],
                             f.isCombo, caller.id, caller.id);
      products := products[freshId := product];
      r := Ok(product);
    }

    /** `updateProduct`: an absent id is not found and nothing changes;
        otherwise that one product becomes `Merged(...)` of itself, and the
        replaced image, if any, is the one to destroy. */
    method UpdateProduct(caller: Token, id: Id, f: ProductFields, upload: Option<string>)
      returns (r: Outcome<Product>, destroyed: Option<string>)
      modifies this
      ensures id !in old(products) ==> r == NotFound("Product not found") && destroyed == None && products == old(products)
      ensures id in old(products) ==>
                && r == Ok(Merged(old(products)[id], f, caller.id, upload))
                && products == old(products)[id := r.value]
                && destroyed == (if upload.Some? then ImageToDestroy(old(products)[id].image) else None)
    {
      destroyed := None;
      if id !in products {
        r := NotFound("Product not found");
        return;
      }
      var product := products[id];
      product := product.(name := OrString(f.name, product.name));
      product := product.(description := OrString(f.description, product.description));
      product := product.(salePrice := OrNumber(f.salePrice, product.salePrice));
      product := product.(offerPrice := OrNumber(f.offerPrice, product.offerPrice));
      product := product.(purchasePrice := OrNumber(f.purchasePrice, product.purchasePrice));
      product := product.(category := OrString(f.category, product.category));
      product := product.(isCombo := OrBool(f.isCombo, product.isCombo));
      product := product.(isTaxInclusive := IfDefined(f.isTaxInclusive, product.isTaxInclusive));
      product := product.(taxPercentage := IfDefined(f.taxPercentage, product.taxPercentage));
      product := product.(isActive := IfDefined(f.isActive, product.isActive));
      product := product.(updatedBy := caller.id);
      if f.ingredients.Some? {
        product := product.(ingredients := f.ingredients.value);
      }
      if upload.Some? {
        destroyed := ImageToDestroy(product.image);
        product := product.(image := upload);
      }
      products := products[id := product];
      r := Ok(product);
    }

    /** `deleteProduct`: an absent id is not found and nothing changes;
        otherwise exactly that product goes, and its image, if any, is the one
        to destroy. */
    method DeleteProduct(id: Id) returns (r: Outcome<()>, destroyed: Option<string>)
      modifies this
      ensures id !in old(products) ==> r == NotFound("Product not found") && destroyed == None && products == old(products)
      ensures id in old(products) ==>
                && r == Ok(())
                && products == old(products) - {id}
                && destroyed == ImageToDestroy(old(products)[id].image)
    {
      destroyed := None;
      if id !in products {
        r := NotFound("Product not found");
        return;
      }
      destroyed := ImageToDestroy(products[id].image);
      products := products - {id};
      r := Ok(());
    }
  }
}
