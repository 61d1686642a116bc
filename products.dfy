/** The admin product catalogue: append a product under a new id, merge a
    partial update into the products with a given id, delete by id. */
module Products {
  import opened ShopTypes
  import opened Seqs

  /** A product without its id, as the admin form submits it. */
  datatype ProductDraft = ProductDraft(
    name: string,
    price: int,
    stock: int,
    discounts: seq<Tier>,
    description: Option<string>)

  /** A partial product: each present field replaces the product's own. */
  datatype ProductPatch = ProductPatch(
    id: Option<string>,
    name: Option<string>,
    price: Option<int>,
    stock: Option<int>,
    discounts: Option<seq<Tier>>,
    description: Option<string>)

  function GetOr<T>(o: Option<T>, default: T): T
  {
    match o
    case Some(v) => v
    case None => default
  }

  /** `{ ...newProduct, id }`. */
  function WithId(draft: ProductDraft, id: string): (p: Product)
    ensures p.id == id && p.name == draft.name && p.price == draft.price && p.stock == draft.stock
    ensures p.discounts == draft.discounts && p.description == draft.description
  {
    Product(id, draft.name, draft.price, draft.stock, draft.discounts, draft.description)
  }

  /** `{ ...product, ...updates }`. */
  function Merge(p: Product, updates: ProductPatch): (m: Product)
    ensures m.id == (if updates.id.Some? then updates.id.value else p.id)
    ensures m.name == (if updates.name.Some? then updates.name.value else p.name)
    ensures m.price == (if updates.price.Some? then updates.price.value else p.price)
    ensures m.stock == (if updates.stock.Some? then updates.stock.value else p.stock)
    ensures m.discounts == (if updates.discounts.Some? then updates.discounts.value else p.discounts)
    ensures m.description == (if updates.description.Some? then updates.description else p.description)
  {
    Product(
      GetOr(updates.id, p.id),
      GetOr(updates.name, p.name),
      GetOr(updates.price, p.price),
      GetOr(updates.stock, p.stock),
      GetOr(updates.discounts, p.discounts),
      if updates.description.Some? then updates.description else p.description)
  }

  /** Merging the same update twice is merging it once; an empty update
      changes nothing. */
  lemma MergeProperties(p: Product, updates: ProductPatch)
    ensures Merge(Merge(p, updates), updates) == Merge(p, updates)
    ensures Merge(p, ProductPatch(None, None, None, None, None, None)) == p
  {
  }

  /** `updateProduct`'s updater: merge `updates` into every product with
      `id`; the others and the length are unchanged. */
  function UpdateById(products: seq<Product>, id: string, updates: ProductPatch): (r: seq<Product>)
    ensures |r| == |products|
    ensures forall i :: 0 <= i < |products| && products[i].id == id ==> r[i] == Merge(products[i], updates)
    ensures forall i :: 0 <= i < |products| && products[i].id != id ==> r[i] == products[i]
  {
    seq(|products|, i requires 0 <= i < |products| =>
      if products[i].id == id then Merge(products[i], updates) else products[i])
  }

  /** Updating an id that no product has leaves the list as it was. */
  lemma UpdateUnknownId(products: seq<Product>, id: string, updates: ProductPatch)
    requires forall i :: 0 <= i < |products| ==> products[i].id != id
    ensures UpdateById(products, id, updates) == products
  {
  }

  function KeepOtherProducts(id: string): Product -> bool
  {
    (p: Product) => p.id != id
  }

  /** `deleteProduct`'s updater: drop the products with `id`, keep the rest
      in order. */
  function DeleteById(products: seq<Product>, id: string): (r: seq<Product>)
    ensures forall i :: 0 <= i < |r| ==> r[i].id != id && r[i] in products
    ensures forall i :: 0 <= i < |products| && products[i].id != id ==> products[i] in r
    ensures IsSubsequence(r, products)
  {
    FilterIsSubsequence(products, KeepOtherProducts(id));
    Filter(products, KeepOtherProducts(id))
  }

  /** No two products share an id. */
  predicate UniqueProductIds(products: seq<Product>)
  {
    DistinctBy(products, ProductId)
  }

  /** Adding a product under an id no product has keeps ids unique. */
  lemma AddFreshKeepsUniqueIds(products: seq<Product>, draft: ProductDraft, id: string)
    requires UniqueProductIds(products)
    requires forall i :: 0 <= i < |products| ==> products[i].id != id
    ensures UniqueProductIds(products + [WithId(draft, id)])
  {
    AppendKeepsDistinct(products, WithId(draft, id), ProductId);
  }

  /** An update that does not set the id keeps every product's id, so ids
      stay unique. */
  lemma UpdateKeepsUniqueIds(products: seq<Product>, id: string, updates: ProductPatch)
    requires UniqueProductIds(products) && updates.id.None?
    ensures forall i :: 0 <= i < |products| ==> UpdateById(products, id, updates)[i].id == products[i].id
    ensures UniqueProductIds(UpdateById(products, id, updates))
  {
    SameKeysKeepDistinct(products, UpdateById(products, id, updates), ProductId);
  }

  /** Deleting keeps ids unique. */
  lemma DeleteKeepsUniqueIds(products: seq<Product>, id: string)
    requires UniqueProductIds(products)
    ensures UniqueProductIds(DeleteById(products, id))
  {
    FilterKeepsDistinct(products, KeepOtherProducts(id), ProductId);
  }

  /** The notifications the catalogue operations raise. */
  datatype ProductNotice = ProductAdded | ProductUpdated | ProductDeleted

  class ProductStore {
    var products: seq<Product>

    constructor (initial: seq<Product>)
      ensures products == initial
    {
      products := initial;
    }

    /** `addProduct`, with the generated id passed in. */
    method AddProduct(newProduct: ProductDraft, id: string) returns (notice: ProductNotice)
      modifies this
      ensures products == old(products) + [WithId(newProduct, id)]
      ensures notice == ProductAdded
    {
      products := products + [WithId(newProduct, id)];
      notice := ProductAdded;
    }

    /** `updateProduct`. */
    method UpdateProduct(productId: string, updates: ProductPatch) returns (notice: ProductNotice)
      modifies this
      ensures products == UpdateById(old(products), productId, updates)
      ensures notice == ProductUpdated
    {
      products := UpdateById(products, productId, updates);
      notice := ProductUpdated;
    }

    /** `deleteProduct`. */
    method DeleteProduct(productId: string) returns (notice: ProductNotice)
      modifies this
      ensures products == DeleteById(old(products), productId)
      ensures notice == ProductDeleted
    {
      products := DeleteById(products, productId);
      notice := ProductDeleted;
    }
  }
}
