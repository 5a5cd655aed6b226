/** The JSON shape of one product as the API returns it (`toArray`). */
module ProductResource {
  import opened Common
  import opened Catalog

  datatype Meta = Meta(title: Option<string>, description: Option<string>)

  /** The projected product. `averageRating` is in tenths (one decimal place);
      `category`, `brand` and `images` are absent (None) unless loaded. */
  datatype ProductJson = ProductJson(
    id: int,
    name: string,
    description: string,
    price: nat,
    salePrice: Option<nat>,
    currentPrice: int,
    discountPercentage: int,
    sku: string,
    stockQuantity: int,
    isFeatured: bool,
    averageRating: int,
    reviewsCount: nat,
    category: Option<Category>,
    brand: Option<Brand>,
    images: Option<seq<Image>>,
    meta: Meta,
    createdAt: int,
    updatedAt: int)

  /** `round(x, 1)`, given in tenths: the nearest multiple of 0.1, a tie
      going away from zero. */
  function RoundToTenths(x: real): (t: int)
    ensures x >= 0.0 ==> -0.5 < t as real - 10.0 * x <= 0.5
    ensures x < 0.0 ==> -0.5 <= t as real - 10.0 * x < 0.5
  {
    if x >= 0.0 then (10.0 * x + 0.5).Floor else -((-10.0 * x + 0.5).Floor)
  }

  /** `reviews_count`: the stored attribute when it is not null, otherwise a
      count of the reviews relation. */
  function ReviewsCount(p: Product): (n: nat)
    ensures p.reviewsCount.Some? ==> n == p.reviewsCount.value
    ensures p.reviewsCount.None? ==> n == |p.reviews|
  {
    p.reviewsCount.GetOr(|p.reviews|)
  }

  /** `whenLoaded(rel)`: the related value only when the relation was loaded. */
  function WhenLoaded<T>(p: Product, rel: Relation, value: T): (r: Option<T>)
    ensures r.Some? <==> rel in p.loaded
    ensures r.Some? ==> r.value == value
  {
    if rel in p.loaded then Some(value) else None
  }

  function ToArray(p: Product): (r: ProductJson)
    // copied unchanged
    ensures r.id == p.id && r.name == p.name && r.description == p.description
    ensures r.price == p.price && r.salePrice == p.salePrice
    ensures r.sku == p.sku && r.stockQuantity == p.stockQuantity && r.isFeatured == p.isFeatured
    ensures r.createdAt == p.createdAt && r.updatedAt == p.updatedAt
    // the accessors' values pass through, nothing is recomputed
    ensures r.currentPrice == p.currentPrice && r.discountPercentage == p.discountPercentage
    ensures r.averageRating == RoundToTenths(p.averageRating)
    ensures r.reviewsCount == if p.reviewsCount.Some? then p.reviewsCount.value else |p.reviews|
    ensures r.category.Some? <==> CategoryRel in p.loaded
    ensures r.brand.Some? <==> BrandRel in p.loaded
    ensures r.images.Some? <==> ImagesRel in p.loaded
    ensures r.category.Some? ==> r.category.value == p.category
    ensures r.brand.Some? ==> r.brand.value == p.brand
    ensures r.images.Some? ==> r.images.value == p.images
    ensures r.meta.title == p.metaTitle && r.meta.description == p.metaDescription
  {
    ProductJson(
      p.id, p.name, p.description, p.price, p.salePrice,
      p.currentPrice, p.discountPercentage,
      p.sku, p.stockQuantity, p.isFeatured,
      RoundToTenths(p.averageRating),
      ReviewsCount(p),
      WhenLoaded(p, CategoryRel, p.category),
      WhenLoaded(p, BrandRel, p.brand),
      WhenLoaded(p, ImagesRel, p.images),
      Meta(p.metaTitle, p.metaDescription),
      p.createdAt, p.updatedAt)
  }

  /** `ProductResource::collection(rows)`: one projection per row, in order. */
  function Collection(rows: seq<Product>): (r: seq<ProductJson>)
    ensures |r| == |rows|
    ensures forall i :: 0 <= i < |rows| ==> r[i] == ToArray(rows[i])
  {
    seq(|rows|, i requires 0 <= i < |rows| => ToArray(rows[i]))
  }

  /** Loading a relation only adds the matching key: the projection of a
      loaded row agrees with the unloaded one everywhere else. */
  lemma LoadOnlyAddsRelations(p: Product, rels: set<Relation>)
    ensures var a, b := ToArray(p), ToArray(Load(p, rels));
      a.(category := None, brand := None, images := None) ==
      b.(category := None, brand := None, images := None)
    ensures CategoryRel in rels ==> ToArray(Load(p, rels)).category == Some(p.category)
    ensures BrandRel in rels ==> ToArray(Load(p, rels)).brand == Some(p.brand)
    ensures ImagesRel in rels ==> ToArray(Load(p, rels)).images == Some(p.images)
  {
  }

  /** round(4.25, 1) = 4.3 and round(3.14, 1) = 3.1, in tenths. */
  lemma RoundingExamples()
    ensures RoundToTenths(4.25) == 43
    ensures RoundToTenths(3.14) == 31
    ensures RoundToTenths(-4.25) == -43
  {
  }
}
