/** The catalog's database rows as the product API sees them: a product with
    its related category, brand, images and reviews, and the set of relations
    that have been eager-loaded onto it. */
module Catalog {
  import opened Common

  datatype Category = Category(id: int, name: string)
  datatype Brand = Brand(id: int, name: string)
  datatype Image = Image(id: int, url: string, sortOrder: int)
  datatype Review = Review(id: int, userId: int, rating: int, comment: string)

  datatype Relation = CategoryRel | BrandRel | ImagesRel | ReviewsRel

  /** One `products` row. Prices are integer cents. `currentPrice` and
      `discountPercentage` are the values of the model's accessors, whose
      bodies are not part of this model; `reviewsCount` is the optional
      `reviews_count` attribute. */
  datatype Product = Product(
    id: int,
    name: string,
    description: string,
    price: nat,
    salePrice: Option<nat>,
    currentPrice: int,
    discountPercentage: int,
    sku: string,
    stockQuantity: int,
    isFeatured: bool,
    isActive: bool,
    averageRating: real,
    reviewsCount: Option<nat>,
    metaTitle: Option<string>,
    metaDescription: Option<string>,
    createdAt: int,
    updatedAt: int,
    category: Category,
    brand: Brand,
    images: seq<Image>,
    reviews: seq<Review>,
    loaded: set<Relation>)

  /** The `active()` scope. */
  predicate IsActive(p: Product) {
    p.isActive
  }

  /** The `inStock()` scope. */
  predicate InStock(p: Product) {
    p.stockQuantity > 0
  }

  /** The `featured()` scope. */
  predicate IsFeatured(p: Product) {
    p.isFeatured
  }

  /** Shown to shoppers: active and in stock. */
  predicate Visible(p: Product) {
    IsActive(p) && InStock(p)
  }

  /** `Product::with(rels)` / `$product->load(rels)`: marks relations loaded,
      changes nothing else. */
  function Load(p: Product, rels: set<Relation>): (r: Product)
    ensures r.loaded == p.loaded + rels
    ensures r.(loaded := p.loaded) == p
  {
    p.(loaded := p.loaded + rels)
  }

  function LoadAll(table: seq<Product>, rels: set<Relation>): (r: seq<Product>)
    ensures |r| == |table|
    ensures forall i :: 0 <= i < |table| ==> r[i] == Load(table[i], rels)
    ensures forall p :: p in r ==> rels <= p.loaded
  {
    seq(|table|, i requires 0 <= i < |table| => Load(table[i], rels))
  }
}
