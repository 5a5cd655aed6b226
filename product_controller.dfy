/** The catalog endpoints: `index` (filtered, sorted, paged listing),
    `featured`, `search` and `show`. Each endpoint's WHERE is modelled as the
    clause list its builder chain produces; `IndexAdmits` and `SearchAdmits`
    give, in closed form, which rows those clause lists let through.

    Where the scopes come in the chain matters. `index` and `featured` call
    their scopes first, on a WHERE without any OR, so the scopes stay flat
    clauses and a later `orWhere` in `index` escapes them. `search` calls
    `active()` and `inStock()` after its `orWhere`s, so the builder wraps
    the four alternatives in parentheses and both scopes apply to all of
    them. */
module ProductController {
  import opened Common
  import opened Catalog
  import opened Query
  import ProductResource

  /** Relations eager-loaded by the listing endpoints. */
  const ListRelations: set<Relation> := {CategoryRel, BrandRel, ImagesRel}
  /** Relations loaded by `show` (reviews together with their users). */
  const ShowRelations: set<Relation> := {CategoryRel, BrandRel, ImagesRel, ReviewsRel}

  const DefaultSortBy: string := "created_at"
  const DefaultSortOrder: string := "desc"
  const DefaultPerPage: nat := 15
  const FeaturedLimit: nat := 8
  const SearchPerPage: nat := 20
  const SearchMinLength: nat := 2

  /** The query parameters `index` reads; None is an absent parameter. */
  datatype IndexRequest = IndexRequest(
    search: Option<string>,
    category: Option<int>,
    brand: Option<int>,
    minPrice: Option<int>,
    maxPrice: Option<int>,
    sortBy: Option<string>,
    sortOrder: Option<string>,
    perPage: Option<nat>,
    page: Option<int>)

  datatype ApiError =
    | InvalidSortDirection(order: string)
    | QueryRequired
    | QueryTooShort

  // ---------------------------------------------------------------------------
  // index
  // ---------------------------------------------------------------------------

  /** Every supplied structural filter holds; an absent one constrains nothing.
      Both price bounds are inclusive and compare the base price. */
  predicate MeetsFilters(req: IndexRequest, p: Product) {
    && (req.category.Some? ==> p.category.id == req.category.value)
    && (req.brand.Some? ==> p.brand.id == req.brand.value)
    && (req.minPrice.Some? ==> p.price >= req.minPrice.value)
    && (req.maxPrice.Some? ==> p.price <= req.maxPrice.value)
  }

  /** Which rows `index` lets through. With a search term the `orWhere` splits
      the WHERE in two: (active AND in stock AND name match) OR (description
      match AND every later filter). */
  predicate IndexAdmits(req: IndexRequest, p: Product) {
    match req.search
    case None => Visible(p) && MeetsFilters(req, p)
    case Some(q) =>
      (Visible(p) && Contains(p.name, q)) || (Contains(p.description, q) && MeetsFilters(req, p))
  }

  /** The clauses `index` may add, each tied to the parameter that adds it. */
  predicate FromRequest(req: IndexRequest, c: Clause) {
    match c.pred
    case ActiveScope => c.boolean == And
    case InStockScope => c.boolean == And
    case NameLike(q) => c.boolean == And && req.search == Some(q)
    case DescriptionLike(q) => c.boolean == Or && req.search == Some(q)
    case CategoryIs(id) => c.boolean == And && req.category == Some(id)
    case BrandIs(id) => c.boolean == And && req.brand == Some(id)
    case PriceAtLeast(min) => c.boolean == And && req.minPrice == Some(min)
    case PriceAtMost(max) => c.boolean == And && req.maxPrice == Some(max)
    case _ => false
  }

  function Present<T>(o: Option<T>): nat {
    if o.Some? then 1 else 0
  }

  /** The WHERE before the structural filters: visibility, and the search pair. */
  ghost function Base(req: IndexRequest, p: Product): Acc {
    match req.search
    case None => Acc(false, Visible(p))
    case Some(q) => Acc(Visible(p) && Contains(p.name, q), Contains(p.description, q))
  }

  /** The first k of the four structural filters (category, brand, min, max). */
  ghost predicate FiltersUpTo(req: IndexRequest, p: Product, k: nat) {
    && (k >= 1 && req.category.Some? ==> p.category.id == req.category.value)
    && (k >= 2 && req.brand.Some? ==> p.brand.id == req.brand.value)
    && (k >= 3 && req.minPrice.Some? ==> p.price >= req.minPrice.value)
    && (k >= 4 && req.maxPrice.Some? ==> p.price <= req.maxPrice.value)
  }

  ghost predicate Staged(cs: seq<Clause>, req: IndexRequest, k: nat) {
    cs != [] &&
    forall p :: Fold(cs, p) == Acc(Base(req, p).done, Base(req, p).cur && FiltersUpTo(req, p, k))
  }

  /** Adding `where(pred)` to a staged list conjoins `pred` to the open run. */
  lemma StageAnd(cs: seq<Clause>, req: IndexRequest, k: nat, pred: Pred)
    requires Staged(cs, req, k)
    requires k < 4
    requires forall p :: FiltersUpTo(req, p, k + 1) == (FiltersUpTo(req, p, k) && Holds(pred, p))
    ensures Staged(cs + [Clause(And, pred)], req, k + 1)
  {
    forall p ensures Fold(cs + [Clause(And, pred)], p) ==
      Acc(Base(req, p).done, Base(req, p).cur && FiltersUpTo(req, p, k + 1))
    {
      FoldSnoc(cs, Clause(And, pred), p);
    }
  }

  /** Every clause of `cs` was put there by a parameter of `req`. */
  predicate AllFromRequest(req: IndexRequest, cs: seq<Clause>) {
    forall i :: 0 <= i < |cs| ==> FromRequest(req, cs[i])
  }

  /** The clause the k-th structural filter (category, brand, min_price,
      max_price) adds, when its parameter is present. */
  function FilterClause(req: IndexRequest, k: nat): Option<Pred> {
    if k == 0 then (if req.category.Some? then Some(CategoryIs(req.category.value)) else None)
    else if k == 1 then (if req.brand.Some? then Some(BrandIs(req.brand.value)) else None)
    else if k == 2 then (if req.minPrice.Some? then Some(PriceAtLeast(req.minPrice.value)) else None)
    else if req.maxPrice.Some? then Some(PriceAtMost(req.maxPrice.value)) else None
  }

  /** One filter step of the builder: `where` the filter's clause when its
      parameter is present, otherwise leave the list alone. */
  lemma AddFilter(cs: seq<Clause>, req: IndexRequest, k: nat)
    requires Staged(cs, req, k) && AllFromRequest(req, cs) && k < 4
    ensures var cs' := if FilterClause(req, k).Some? then cs + [Clause(And, FilterClause(req, k).value)] else cs;
      Staged(cs', req, k + 1) && AllFromRequest(req, cs')
  {
    var f := FilterClause(req, k);
    if f.Some? {
      StageAnd(cs, req, k, f.value);
      var cs' := cs + [Clause(And, f.value)];
      forall i | 0 <= i < |cs'| ensures FromRequest(req, cs'[i]) {
        if i < |cs| {
          assert cs'[i] == cs[i];
        }
      }
    }
  }

  /** Once all four filters are staged, the clause list admits exactly the
      rows `IndexAdmits` describes. */
  lemma StagedAdmits(cs: seq<Clause>, req: IndexRequest)
    requires Staged(cs, req, 4)
    ensures forall p :: Matches(cs, p) <==> IndexAdmits(req, p)
  {
  }

  /** The WHERE of `index` up to the structural filters: the two scopes, then,
      when `search` is present, the name/description pair. */
  method StartIndexQuery(req: IndexRequest) returns (cs: seq<Clause>)
    ensures |cs| == 2 + 2 * Present(req.search)
    ensures cs[0] == Clause(And, ActiveScope) && cs[1] == Clause(And, InStockScope)
    ensures Staged(cs, req, 0) && AllFromRequest(req, cs)
  {
    cs := CallScope([], ActiveScope);
    assert cs == [Clause(And, ActiveScope)];
    cs := CallScope(cs, InStockScope);
    assert cs == [Clause(And, ActiveScope), Clause(And, InStockScope)];
    forall p ensures Fold(cs, p) == Acc(false, Visible(p)) {
      assert [Clause(And, ActiveScope)][..0] == [];
      FoldSnoc([Clause(And, ActiveScope)], Clause(And, InStockScope), p);
    }
    if req.search.Some? {
      var q := req.search.value;
      ghost var cs0 := cs;
      cs := cs + [Clause(And, NameLike(q))];
      ghost var cs1 := cs;
      cs := cs + [Clause(Or, DescriptionLike(q))];
      forall p ensures Fold(cs, p) == Base(req, p) {
        FoldSnoc(cs0, Clause(And, NameLike(q)), p);
        FoldSnoc(cs1, Clause(Or, DescriptionLike(q)), p);
      }
    }
  }

  /** `index`, the lines building `$query`: start from the two scopes, then add
      each filter's clause only when its parameter is present. */
  method BuildIndexQuery(req: IndexRequest) returns (cs: seq<Clause>)
    ensures |cs| == 2 + 2 * Present(req.search) + Present(req.category) + Present(req.brand)
                      + Present(req.minPrice) + Present(req.maxPrice)
    ensures cs[0] == Clause(And, ActiveScope) && cs[1] == Clause(And, InStockScope)
    ensures forall i :: 0 <= i < |cs| ==> FromRequest(req, cs[i])
    ensures forall p :: Matches(cs, p) <==> IndexAdmits(req, p)
  {
    cs := StartIndexQuery(req);
    AddFilter(cs, req, 0);
    if req.category.Some? {
      cs := cs + [Clause(And, CategoryIs(req.category.value))];
    }
    AddFilter(cs, req, 1);
    if req.brand.Some? {
      cs := cs + [Clause(And, BrandIs(req.brand.value))];
    }
    AddFilter(cs, req, 2);
    if req.minPrice.Some? {
      cs := cs + [Clause(And, PriceAtLeast(req.minPrice.value))];
    }
    AddFilter(cs, req, 3);
    if req.maxPrice.Some? {
      cs := cs + [Clause(And, PriceAtMost(req.maxPrice.value))];
    }
    StagedAdmits(cs, req);
  }

  /** The ordering key of the named column. */
  function ColumnKey(columnKey: (string, Product) -> int, column: string): Product -> int {
    p => columnKey(column, p)
  }

  /** `per_page`, defaulting to 15; a zero page size falls back to the
      model's default of 15 as well. */
  function PerPage(perPage: Option<nat>): (n: nat)
    ensures n >= 1
    ensures perPage.Some? && perPage.value > 0 ==> n == perPage.value
    ensures perPage.None? || perPage.value == 0 ==> n == DefaultPerPage
  {
    if perPage.Some? && perPage.value > 0 then perPage.value else DefaultPerPage
  }

  /** The rows `index` admits, loaded, in table order. */
  function Admitted(req: IndexRequest, table: seq<Product>): (r: seq<Product>)
    ensures IsSubsequence(r, LoadAll(table, ListRelations))
    ensures forall p :: p in r <==> p in LoadAll(table, ListRelations) && IndexAdmits(req, p)
    ensures forall p ::
              multiset(r)[p] == if IndexAdmits(req, p) then multiset(LoadAll(table, ListRelations))[p] else 0
  {
    Filter(LoadAll(table, ListRelations), p => IndexAdmits(req, p))
  }

  /** The rows `index` pages through: every admitted row, once, in the
      requested order. */
  function IndexRows(req: IndexRequest, table: seq<Product>, key: Product -> int, dir: Direction): (r: seq<Product>)
    ensures multiset(r) == multiset(Admitted(req, table))
    ensures forall p :: p in r <==> p in LoadAll(table, ListRelations) && IndexAdmits(req, p)
    ensures SortedBy(r, key, dir)
  {
    var rows := Admitted(req, table);
    var r := OrderBy(rows, key, dir);
    assert forall p :: p in r <==> p in rows by {
      forall p ensures p in r <==> p in rows {
        assert p in r <==> p in multiset(r);
        assert p in rows <==> p in multiset(rows);
      }
    }
    r
  }

  /** Walking the pages of `index` from the first to the last yields every
      admitted row exactly once, in the requested order; later pages are
      empty. */
  lemma IndexPagesCoverAll(req: IndexRequest, table: seq<Product>, key: Product -> int, dir: Direction, perPage: nat)
    requires perPage >= 1
    ensures var rows := IndexRows(req, table, key, dir);
      && PagesUpTo(rows, perPage, LastPage(|rows|, perPage)) == rows
      && multiset(PagesUpTo(rows, perPage, LastPage(|rows|, perPage))) == multiset(Admitted(req, table))
      && forall k :: k > LastPage(|rows|, perPage) ==> ForPage(rows, k, perPage) == []
  {
    PagesCoverAll(IndexRows(req, table, key, dir), perPage);
  }

  /** `index`: the rows admitted by the WHERE, ordered by `sort_by` /
      `sort_order` (used verbatim, defaulting to created_at desc), one page of
      at most `per_page` rows. `columnKey(column, row)` stands for the value of
      the named column, as an ordering key. */
  method Index(req: IndexRequest, table: seq<Product>, columnKey: (string, Product) -> int)
    returns (r: Result<Page, ApiError>)
    ensures var order := req.sortOrder.GetOr(DefaultSortOrder);
      r.Err? <==> ParseDirection(order).None?
    ensures r.Err? ==> r.error == InvalidSortDirection(req.sortOrder.GetOr(DefaultSortOrder))
    ensures r.Ok? ==>
      && r.value.perPage == PerPage(req.perPage)
      && r.value.currentPage == ResolvePage(req.page)
      && |r.value.items| <= r.value.perPage
    ensures r.Ok? ==> forall p :: p in r.value.items ==>
      && p in LoadAll(table, ListRelations)
      && IndexAdmits(req, p)
      && ListRelations <= p.loaded
    ensures r.Ok? && req.search.None? ==> forall p :: p in r.value.items ==>
      Visible(p) && MeetsFilters(req, p)
    ensures r.Ok? ==>
      SortedBy(r.value.items, ColumnKey(columnKey, req.sortBy.GetOr(DefaultSortBy)),
               ParseDirection(req.sortOrder.GetOr(DefaultSortOrder)).value)
    ensures r.Ok? ==>
      r.value.items == ForPage(IndexRows(req, table, ColumnKey(columnKey, req.sortBy.GetOr(DefaultSortBy)),
                                         ParseDirection(req.sortOrder.GetOr(DefaultSortOrder)).value),
                               ResolvePage(req.page), PerPage(req.perPage))
  {
    var cs := BuildIndexQuery(req);
    var sortBy := req.sortBy.GetOr(DefaultSortBy);
    var sortOrder := req.sortOrder.GetOr(DefaultSortOrder);
    var dir := ParseDirection(sortOrder);
    if dir.None? {
      return Err(InvalidSortDirection(sortOrder));
    }
    var loaded := LoadAll(table, ListRelations);
    var rows := Where(loaded, cs);
    FilterCongruent(loaded, p => Matches(cs, p), p => IndexAdmits(req, p));
    assert rows == Admitted(req, table);
    var key := ColumnKey(columnKey, sortBy);
    var sorted := OrderBy(rows, key, dir.value);
    var perPage := PerPage(req.perPage);
    var page := ResolvePage(req.page);
    var items := ForPage(sorted, page, perPage);
    ForPageMembers(sorted, page, perPage);
    ForPageSorted(sorted, key, dir.value, page, perPage);
    assert forall p :: p in items ==> p in rows by {
      forall p | p in items ensures p in rows {
        assert p in multiset(sorted);
      }
    }
    return Ok(Page(items, perPage, page));
  }

  /** With a search term, an active, in-stock row whose name matches is listed
      whatever the category, brand and price filters say. */
  lemma NameMatchIgnoresFilters(req: IndexRequest, p: Product)
    requires req.search.Some? && Visible(p) && Contains(p.name, req.search.value)
    ensures IndexAdmits(req, p)
  {
  }

  /** With a search term, a description match needs neither `active` nor stock. */
  lemma DescriptionMatchIgnoresVisibility(req: IndexRequest, p: Product)
    requires req.search.Some? && Contains(p.description, req.search.value) && MeetsFilters(req, p)
    ensures IndexAdmits(req, p)
  {
  }

  /** Without a search term, exactly the visible rows meeting every supplied
      filter are admitted. */
  lemma NoSearchIsConjunctive(req: IndexRequest, p: Product)
    requires req.search.None?
    ensures IndexAdmits(req, p) <==> Visible(p) && MeetsFilters(req, p)
  {
  }

  // ---------------------------------------------------------------------------
  // featured
  // ---------------------------------------------------------------------------

  /** The WHERE of `featured`: three scopes, called in turn. No OR is ever
      present, so nothing is wrapped and the three conditions stay flat. */
  function FeaturedClauses(): (r: seq<Clause>)
    ensures r == [Clause(And, FeaturedScope), Clause(And, ActiveScope), Clause(And, InStockScope)]
  {
    var one := CallScope([], FeaturedScope);
    assert one == [Clause(And, FeaturedScope)];
    var two := CallScope(one, ActiveScope);
    assert two == [Clause(And, FeaturedScope), Clause(And, ActiveScope)];
    CallScope(two, InStockScope)
  }

  lemma FeaturedClausesMeaning(p: Product)
    ensures Matches(FeaturedClauses(), p) <==> IsFeatured(p) && Visible(p)
  {
    assert Matches([], p);
    ScopeConjoins([], FeaturedScope, p);
    ScopeConjoins(CallScope([], FeaturedScope), ActiveScope, p);
    ScopeConjoins(CallScope(CallScope([], FeaturedScope), ActiveScope), InStockScope, p);
  }

  /** `featured`: featured, active, in-stock rows, at most 8; exactly 8 when
      at least 8 qualify. There is no ORDER BY, so the database may pick and
      order the rows as it likes; the model takes them in table order. */
  function Featured(table: seq<Product>): (r: seq<Product>)
    ensures |r| <= FeaturedLimit
    ensures forall p :: p in r ==> IsFeatured(p) && Visible(p) && ListRelations <= p.loaded
    ensures IsSubsequence(r, LoadAll(table, ListRelations))
    ensures |r| == Min(FeaturedLimit, |Where(LoadAll(table, ListRelations), FeaturedClauses())|)
  {
    var rows := Where(LoadAll(table, ListRelations), FeaturedClauses());
    var r := Take(rows, FeaturedLimit);
    SubsequenceTransitive(r, rows, LoadAll(table, ListRelations));
    forall p | p in r ensures IsFeatured(p) && Visible(p) {
      FeaturedClausesMeaning(p);
    }
    r
  }

  // ---------------------------------------------------------------------------
  // search
  // ---------------------------------------------------------------------------

  /** The `where` / `orWhere` chain of `search`: name, description,
      category name or brand name contains the term. */
  function SearchChain(q: string): (r: seq<Clause>)
    ensures |r| == 4 && r[0].boolean == And
    ensures forall i :: 1 <= i < |r| ==> r[i].boolean == Or
  {
    [ Clause(And, NameLike(q)),
      Clause(Or, DescriptionLike(q)),
      Clause(Or, CategoryNameLike(q)),
      Clause(Or, BrandNameLike(q)) ]
  }

  /** The WHERE of `search`: the chain, then the `active()` and `inStock()`
      scopes. The chain holds ORs, so the first scope call wraps it in
      parentheses. */
  function SearchClauses(q: string): (r: seq<Clause>)
    ensures r == [Clause(And, Group(SearchChain(q))), Clause(And, ActiveScope), Clause(And, InStockScope)]
  {
    var chain := SearchChain(q);
    assert chain[1].boolean == Or;
    var once := CallScope(chain, ActiveScope);
    assert once == [Clause(And, Group(chain)), Clause(And, ActiveScope)];
    assert !HasOr(once);
    CallScope(once, InStockScope)
  }

  predicate TextMatch(q: string, p: Product) {
    || Contains(p.name, q)
    || Contains(p.description, q)
    || Contains(p.category.name, q)
    || Contains(p.brand.name, q)
  }

  /** Which rows `search` lets through: a text match on a visible row. */
  predicate SearchAdmits(q: string, p: Product) {
    TextMatch(q, p) && Visible(p)
  }

  lemma SearchChainMeaning(q: string, p: Product)
    ensures Matches(SearchChain(q), p) <==> TextMatch(q, p)
  {
    var cs := SearchChain(q);
    var name, desc, cat, brand :=
      Contains(p.name, q), Contains(p.description, q), Contains(p.category.name, q), Contains(p.brand.name, q);
    assert cs[..1] == [cs[0]] && cs[..1][..0] == [];
    assert ClauseHolds(cs[0], p) == Holds(NameLike(q), p) == name;
    assert Fold(cs[..1], p) == Acc(false, name);
    FoldSnoc(cs[..1], cs[1], p);
    assert cs[..1] + [cs[1]] == cs[..2];
    assert Fold(cs[..2], p) == Acc(name, desc);
    FoldSnoc(cs[..2], cs[2], p);
    assert cs[..2] + [cs[2]] == cs[..3];
    assert Fold(cs[..3], p) == Acc(name || desc, cat);
    FoldSnoc(cs[..3], cs[3], p);
    assert cs[..3] + [cs[3]] == cs;
    assert Fold(cs, p) == Acc(name || desc || cat, brand);
  }

  lemma SearchClausesMeaning(q: string, p: Product)
    ensures Matches(SearchClauses(q), p) <==> SearchAdmits(q, p)
  {
    SearchChainMeaning(q, p);
    ScopeConjoins(SearchChain(q), ActiveScope, p);
    ScopeConjoins(CallScope(SearchChain(q), ActiveScope), InStockScope, p);
  }

  /** The `q` rule `required|string|min:2`. */
  function ValidateQuery(q: Option<string>): (r: Result<string, ApiError>)
    ensures r.Ok? <==> q.Some? && |q.value| >= SearchMinLength
    ensures r.Ok? ==> r.value == q.value
    ensures q.None? || q.value == "" ==> r == Err(QueryRequired)
    ensures q.Some? && 0 < |q.value| < SearchMinLength ==> r == Err(QueryTooShort)
  {
    if q.None? || q.value == "" then Err(QueryRequired)
    else if |q.value| < SearchMinLength then Err(QueryTooShort)
    else Ok(q.value)
  }

  /** The rows `search` pages through: the admitted rows, loaded, in table
      order. There is no ORDER BY, so the database may return them in any
      order; the model takes table order. */
  function SearchRows(q: string, table: seq<Product>): (r: seq<Product>)
    ensures IsSubsequence(r, LoadAll(table, ListRelations))
    ensures forall p :: p in r <==> p in LoadAll(table, ListRelations) && SearchAdmits(q, p)
    ensures forall p ::
              multiset(r)[p] == if SearchAdmits(q, p) then multiset(LoadAll(table, ListRelations))[p] else 0
  {
    Filter(LoadAll(table, ListRelations), p => SearchAdmits(q, p))
  }

  /** Walking the pages of `search` from the first to the last yields every
      admitted row exactly once, in table order; later pages are empty. This
      holds only as long as every request sees the rows in one order, which
      the model assumes. */
  lemma SearchPagesCoverAll(q: string, table: seq<Product>)
    ensures var rows := SearchRows(q, table);
      && PagesUpTo(rows, SearchPerPage, LastPage(|rows|, SearchPerPage)) == rows
      && forall k :: k > LastPage(|rows|, SearchPerPage) ==> ForPage(rows, k, SearchPerPage) == []
  {
    PagesCoverAll(SearchRows(q, table), SearchPerPage);
  }

  /** `search`: validation first, then one page of 20 admitted rows. */
  function Search(q: Option<string>, page: Option<int>, table: seq<Product>): (r: Result<Page, ApiError>)
    ensures r.Err? <==> ValidateQuery(q).Err?
    ensures r.Err? ==> r.error == ValidateQuery(q).error
    ensures r.Ok? ==>
      && r.value.perPage == SearchPerPage
      && r.value.currentPage == ResolvePage(page)
      && |r.value.items| <= SearchPerPage
    ensures r.Ok? ==> forall p :: p in r.value.items ==>
      SearchAdmits(q.value, p) && ListRelations <= p.loaded
    ensures r.Ok? ==> r.value.items == ForPage(SearchRows(q.value, table), ResolvePage(page), SearchPerPage)
  {
    match ValidateQuery(q)
    case Err(e) => Err(e)
    case Ok(term) =>
      var loaded := LoadAll(table, ListRelations);
      var rows := Where(loaded, SearchClauses(term));
      assert rows == SearchRows(term, table) by {
        forall p | p in loaded ensures Matches(SearchClauses(term), p) == SearchAdmits(term, p) {
          SearchClausesMeaning(term, p);
        }
        FilterCongruent(loaded, p => Matches(SearchClauses(term), p), p => SearchAdmits(term, p));
      }
      var n := ResolvePage(page);
      var items := ForPage(rows, n, SearchPerPage);
      ForPageMembers(rows, n, SearchPerPage);
      Ok(Page(items, SearchPerPage, n))
  }

  /** A rejected query never reaches the table: the outcome is the same error
      whatever the catalog holds. */
  lemma RejectedSearchIgnoresTable(q: Option<string>, page: Option<int>, t1: seq<Product>, t2: seq<Product>)
    requires ValidateQuery(q).Err?
    ensures Search(q, page, t1) == Search(q, page, t2)
  {
  }

  /** Unlike in `index`, a name match is returned only when the product is
      active and in stock. */
  lemma SearchNameMatchNeedsVisibility(q: string, p: Product)
    requires Contains(p.name, q)
    ensures Matches(SearchClauses(q), p) <==> Visible(p)
  {
    SearchClausesMeaning(q, p);
  }

  /** A row matched only through its brand's name is returned only when visible. */
  lemma SearchBrandMatchNeedsVisibility(q: string, p: Product)
    requires !Contains(p.name, q) && !Contains(p.description, q) && !Contains(p.category.name, q)
    ensures Matches(SearchClauses(q), p) <==> Contains(p.brand.name, q) && Visible(p)
  {
    SearchClausesMeaning(q, p);
  }

  // ---------------------------------------------------------------------------
  // show
  // ---------------------------------------------------------------------------

  /** `show`: load the relations (reviews with their users), then project. */
  function Show(p: Product): (r: ProductResource.ProductJson)
    ensures r.id == p.id
    ensures r.category == Some(p.category)
    ensures r.brand == Some(p.brand)
    ensures r.images == Some(p.images)
    ensures r.(category := None, brand := None, images := None) ==
            ProductResource.ToArray(p).(category := None, brand := None, images := None)
  {
    ProductResource.LoadOnlyAddsRelations(p, ShowRelations);
    ProductResource.ToArray(Load(p, ShowRelations))
  }
}
