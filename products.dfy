/** The product listing page: a client-side filter over the catalog by name
    search, category, selected brands and price range, with the brand
    checkboxes and the "Clear Filters" reset. Prices are integer cents. */
module Products {
  import opened Common
  import Card

  /** The slider's `[low, high]`, in cents. */
  datatype PriceRange = PriceRange(low: nat, high: nat)

  const AllCategories: string := "All"
  const DefaultPriceRange: PriceRange := PriceRange(0, 50000)
  const DefaultSortBy: string := "newest"

  /** The name contains the query, both lower-cased. */
  predicate MatchesSearch(p: Card.Product, query: string) {
    Contains(Lower(p.name), Lower(query))
  }

  predicate MatchesCategory(p: Card.Product, category: string) {
    category == AllCategories || p.category == category
  }

  /** No brand selected, or the name contains (case-sensitively) a selected one. */
  predicate MatchesBrand(p: Card.Product, brands: seq<string>) {
    |brands| == 0 || exists i :: 0 <= i < |brands| && Contains(p.name, brands[i])
  }

  /** Inclusive at both ends, on the base price. */
  predicate MatchesPrice(p: Card.Product, range: PriceRange) {
    range.low <= p.price <= range.high
  }

  predicate Listed(p: Card.Product, query: string, category: string, brands: seq<string>, range: PriceRange) {
    MatchesSearch(p, query) && MatchesCategory(p, category) && MatchesBrand(p, brands) && MatchesPrice(p, range)
  }

  /** `filteredProducts`: the listed products, in catalog order. */
  function FilterProducts(products: seq<Card.Product>, query: string, category: string,
                          brands: seq<string>, range: PriceRange): (r: seq<Card.Product>)
    ensures IsSubsequence(r, products)
    ensures forall p :: p in r <==> p in products && Listed(p, query, category, brands, range)
    ensures forall p :: multiset(r)[p] ==
                        if Listed(p, query, category, brands, range) then multiset(products)[p] else 0
  {
    Filter(products, p => Listed(p, query, category, brands, range))
  }

  /** The empty query matches every name. */
  lemma EmptyQueryMatchesAll(p: Card.Product)
    ensures MatchesSearch(p, "")
  {
    assert Lower("") == "";
    EmptyIsContained(Lower(p.name));
  }

  /** The search ignores the case of the query and of the name. */
  lemma SearchIgnoresCase(p: Card.Product, query: string)
    ensures MatchesSearch(p, query) == MatchesSearch(p, Lower(query))
    ensures MatchesSearch(p, query) == MatchesSearch(p.(name := Lower(p.name)), query)
  {
    LowerIdempotent(query);
    LowerIdempotent(p.name);
  }

  /** The price test reads the base price: a sale price never moves a product
      in or out of the range. */
  lemma PriceIgnoresSale(p: Card.Product, sale: Option<nat>, range: PriceRange)
    ensures MatchesPrice(p.(salePrice := sale), range) == MatchesPrice(p, range)
  {
  }

  /** With the filters cleared, exactly the products priced at most $500 are
      listed. */
  lemma ClearedFiltersListByPrice(p: Card.Product)
    ensures Listed(p, "", AllCategories, [], DefaultPriceRange) <==> p.price <= 50000
  {
    EmptyQueryMatchesAll(p);
  }

  /** With the filters cleared, a catalog priced at most $500 is listed whole. */
  lemma ClearedFiltersListAll(products: seq<Card.Product>)
    requires forall i :: 0 <= i < |products| ==> products[i].price <= 50000
    ensures FilterProducts(products, "", AllCategories, [], DefaultPriceRange) == products
  {
    forall p | p in products ensures Listed(p, "", AllCategories, [], DefaultPriceRange) {
      ClearedFiltersListByPrice(p);
    }
    FilterKeepsAll(products, p => Listed(p, "", AllCategories, [], DefaultPriceRange));
  }

  /** `selectedBrands.filter(b => b !== brand)`. */
  function Without(brands: seq<string>, brand: string): (r: seq<string>)
    ensures IsSubsequence(r, brands)
    ensures forall b :: b in r <==> b in brands && b != brand
    ensures forall b :: b != brand ==> multiset(r)[b] == multiset(brands)[b]
  {
    Filter(brands, b => b != brand)
  }

  /** Unchecking a brand just checked, that was not selected before, restores
      the selection. */
  lemma UncheckUndoesCheck(brands: seq<string>, brand: string)
    requires brand !in brands
    ensures Without(brands + [brand], brand) == brands
  {
    FilterAppend(brands, [brand], b => b != brand);
    FilterKeepsAll(brands, b => b != brand);
    assert Filter([brand], b => b != brand) == [];
  }

  /** The page's state. `products` is the fixed catalog the page lists. */
  class ProductsPage {
    const products: seq<Card.Product>
    var searchQuery: string
    var selectedCategory: string
    var selectedBrands: seq<string>
    var priceRange: PriceRange
    var sortBy: string
    var isFilterOpen: bool

    constructor(products: seq<Card.Product>)
      ensures this.products == products
      ensures searchQuery == "" && selectedCategory == AllCategories && selectedBrands == []
      ensures priceRange == DefaultPriceRange && sortBy == DefaultSortBy && !isFilterOpen
    {
      this.products := products;
      searchQuery := "";
      selectedCategory := AllCategories;
      selectedBrands := [];
      priceRange := DefaultPriceRange;
      sortBy := DefaultSortBy;
      isFilterOpen := false;
    }

    /** The products the grid shows. */
    function FilteredProducts(): (r: seq<Card.Product>)
      reads this
      ensures IsSubsequence(r, products)
      ensures forall p :: p in r <==>
        p in products && Listed(p, searchQuery, selectedCategory, selectedBrands, priceRange)
    {
      FilterProducts(products, searchQuery, selectedCategory, selectedBrands, priceRange)
    }

    /** A brand checkbox: checking appends the brand, unchecking removes every
        occurrence and keeps the others in order. Afterwards the box shows
        `checked`. */
    method HandleBrandChange(brand: string, checked: bool)
      modifies this`selectedBrands
      ensures checked ==> selectedBrands == old(selectedBrands) + [brand]
      ensures !checked ==> selectedBrands == Without(old(selectedBrands), brand)
      ensures brand in selectedBrands <==> checked
    {
      if checked {
        selectedBrands := selectedBrands + [brand];
      } else {
        selectedBrands := Without(selectedBrands, brand);
      }
    }

    /** "Clear Filters": every filter back to its initial value; the sort
        order and the sheet are left as they are. */
    method ClearFilters()
      modifies this`selectedCategory, this`selectedBrands, this`priceRange, this`searchQuery
      ensures selectedCategory == AllCategories && selectedBrands == []
      ensures priceRange == DefaultPriceRange && searchQuery == ""
      ensures forall p :: p in FilteredProducts() <==> p in products && p.price <= 50000
    {
      selectedCategory := AllCategories;
      selectedBrands := [];
      priceRange := DefaultPriceRange;
      searchQuery := "";
      forall p ensures Listed(p, "", AllCategories, [], DefaultPriceRange) <==> p.price <= 50000 {
        ClearedFiltersListByPrice(p);
      }
    }

    /** The sort select stores its value and nothing else; the listed
        products do not depend on it. */
    method SetSortBy(value: string)
      modifies this`sortBy
      ensures sortBy == value
      ensures FilteredProducts() == old(FilteredProducts())
    {
      sortBy := value;
    }
  }
}
