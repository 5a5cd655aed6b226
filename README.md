# Sportstore storefront: catalog API and shop pages

This project models the logic of a sports-goods storefront and proves properties of that model.

On the back end it models the product API:
- `index`: the listing, filtered, sorted and paged;
- `featured`: up to eight highlighted products;
- `search`: a validated text search;
- `show`: one product with its relations;
- the JSON projection of a product.

On the front end it models:
- the client-side filter of the products page and its brand checkboxes;
- the orders page's search, status filter and status tabs;
- the product card's discount, price line, stars and wishlist heart;
- the edit, cancel, save and load transitions of the account page.

Each Eloquent builder chain is modelled as a list of `(And|Or, condition)` clauses, where a condition may itself be a parenthesised clause list (module `Query`). The list is read with SQL's precedence, where AND binds tighter than OR. `Query.MatchesIsSomeGroup` proves that the left-to-right evaluation `Fold` agrees with the reference reading "some maximal AND-run holds". `index` builds its list step by step, as the controller does. It is proved to admit exactly the rows that `ProductController.IndexAdmits` describes in closed form. Calling a local scope (`active()`, `inStock()`, `featured()`) is modelled as its own step, `Query.CallScope`. When the WHERE built so far contains an OR, the builder wraps it in parentheses before adding the scope's condition. `Query.ScopeConjoins` proves that a scope therefore restricts the whole WHERE before it. In `index` and `featured` the scopes come first, so they stay flat and a later `orWhere` in `index` escapes them. In `search` they come after the four alternatives, so a row is returned only when it matches one of them and is active and in stock. Ordering is a sort by an abstract key. Paging is slicing. The pages of `index` are proved to cover every admitted row exactly once. For `search`, which has no ORDER BY, the same holds only under the model's assumption that the database returns the rows in table order on every request.

Other modelling choices:
- Prices are integer cents. Ratings are exact reals.
- Collections are `seq`. Filtering is the order-preserving `Common.Filter`.
- Page state that the source updates in place is a `class`, whose methods state their new state and their frame.
- Server replies and fetched data are parameters of the methods that receive them.

The bodies of the `active()`, `inStock()` and `featured()` scopes are not part of this model. They are modelled as `isActive`, `stockQuantity > 0` and `isFeatured` (`Catalog.IsActive`, `Catalog.InStock`, `Catalog.IsFeatured`).

## Model

| member | source | states |
|---|---|---|
| Catalog.Load | app/Http/Controllers/Api/ProductController.php:55 | loading relations adds them to the loaded set and changes nothing else in the row |
| Catalog.LoadAll | app/Http/Controllers/Api/ProductController.php:14 | `with(...)` loads the relations on every row, keeping the rows and their order |
| Query.MatchesIsSomeGroup | app/Http/Controllers/Api/ProductController.php:19-22 | a where/orWhere chain admits a row iff every condition of some maximal AND-run holds (AND before OR) |
| Query.FoldSnoc | app/Http/Controllers/Api/ProductController.php:20-21 | `where` conjoins its condition to the open run; `orWhere` closes the run and opens a new one |
| Query.FoldIsGroups | app/Http/Controllers/Api/ProductController.php:19-22 | the left-to-right evaluation keeps, at every clause, the closed AND-runs' disjunction and the open run's conjunction |
| Query.CallScope | app/Http/Controllers/Api/ProductController.php:86-87 | a scope call ends the WHERE with its condition under AND; what came before is wrapped into one nested clause when it holds an OR, and kept flat otherwise (as at lines 15-16 and 62-64) |
| Query.ScopeConjoins | app/Http/Controllers/Api/ProductController.php:86-87 | a scope called after an or-chain wraps it in parentheses, so the resulting WHERE admits a row iff the earlier WHERE does and the scope's condition holds |
| Query.Where | app/Http/Controllers/Api/ProductController.php:14-41 | the query returns the rows satisfying the WHERE, in table order, and only those, each as often as in the table |
| Query.ParseDirection | app/Http/Controllers/Api/ProductController.php:46 | `orderBy` accepts the direction "asc" or "desc" in any case and nothing else |
| Query.OrderBy | app/Http/Controllers/Api/ProductController.php:46 | ordering returns a permutation of the rows, sorted by the column key in the chosen direction |
| Query.ResolvePage | app/Http/Controllers/Api/ProductController.php:48 | the current page is the `page` parameter when it is at least 1, otherwise 1 |
| Query.ForPage | app/Http/Controllers/Api/ProductController.php:48 | a page holds at most per_page rows, the consecutive rows after the earlier pages |
| Query.ForPageSorted | app/Http/Controllers/Api/ProductController.php:46-48 | a page cut from sorted rows is sorted |
| Query.PagesUpToIsPrefix | app/Http/Controllers/Api/ProductController.php:48 | pages 1..k together are exactly the first k·per_page rows |
| Query.PagesCoverAll | app/Http/Controllers/Api/ProductController.php:48 | walking pages 1 to the last yields every row once, in order; later pages are empty |
| ProductResource.RoundToTenths | app/Http/Resources/ProductResource.php:22 | `round(x, 1)` is within half a tenth of x, with ties going away from zero |
| ProductResource.RoundingExamples | app/Http/Resources/ProductResource.php:22 | 4.25 rounds to 4.3, 3.14 to 3.1 and -4.25 to -4.3 |
| ProductResource.ReviewsCount | app/Http/Resources/ProductResource.php:23 | reviews_count is the stored count when not null, otherwise the number of reviews |
| ProductResource.WhenLoaded | app/Http/Resources/ProductResource.php:24-26 | a relation's value is present iff that relation was loaded |
| ProductResource.ToArray | app/Http/Resources/ProductResource.php:9-34 | fields copied unchanged, accessors passed through, rating exactly `RoundToTenths` of the stored rating (ties away from zero), count with fallback, relations present iff loaded, meta = (meta_title, meta_description) |
| ProductResource.Collection | app/Http/Controllers/Api/ProductController.php:50 | one projection per row, in order |
| ProductResource.LoadOnlyAddsRelations | app/Http/Resources/ProductResource.php:24-26 | loading relations changes the projection only in those relation keys, which become present |
| ProductController.StartIndexQuery | app/Http/Controllers/Api/ProductController.php:14-22 | the list starts with active and inStock; with `search` it adds name LIKE then OR description LIKE |
| ProductController.StageAnd | app/Http/Controllers/Api/ProductController.php:25-41 | adding a filter's `where` conjoins it to the open run only, never to the name-match run |
| ProductController.AddFilter | app/Http/Controllers/Api/ProductController.php:25-41 | a filter adds its clause only when its parameter is present; an absent one changes neither list nor predicate |
| ProductController.StagedAdmits | app/Http/Controllers/Api/ProductController.php:14-41 | once all filters are staged, the list admits exactly `IndexAdmits` |
| ProductController.BuildIndexQuery | app/Http/Controllers/Api/ProductController.php:14-41 | the built list has one clause per present parameter, each from that parameter, and admits a row iff `IndexAdmits` |
| ProductController.NoSearchIsConjunctive | app/Http/Controllers/Api/ProductController.php:14-41 | without `search`, a row is admitted iff it is active, in stock and meets every supplied filter |
| ProductController.NameMatchIgnoresFilters | app/Http/Controllers/Api/ProductController.php:19-41 | with `search`, an active in-stock name match is admitted whatever category, brand and price say |
| ProductController.DescriptionMatchIgnoresVisibility | app/Http/Controllers/Api/ProductController.php:19-41 | with `search`, a description match that meets the filters is admitted even when inactive or out of stock |
| ProductController.PerPage | app/Http/Controllers/Api/ProductController.php:48 | the page size is `per_page`, 15 when absent or zero |
| ProductController.Admitted | app/Http/Controllers/Api/ProductController.php:14-41 | the rows `index` admits are the loaded table rows satisfying `IndexAdmits`, in table order |
| ProductController.IndexRows | app/Http/Controllers/Api/ProductController.php:44-46 | the rows `index` pages through are a permutation of the admitted rows, sorted by the requested key and direction |
| ProductController.IndexPagesCoverAll | app/Http/Controllers/Api/ProductController.php:46-48 | pages 1 to the last of `index` together give every admitted row exactly once, in order; later pages are empty |
| ProductController.Index | app/Http/Controllers/Api/ProductController.php:12-51 | a bad sort direction is an error; otherwise the items are exactly page `page` (of size per_page) of the admitted rows in the requested order (default created_at desc) |
| ProductController.FeaturedClauses | app/Http/Controllers/Api/ProductController.php:61-64 | three scope calls on a WHERE without OR stay flat: featured, active, in stock |
| ProductController.FeaturedClausesMeaning | app/Http/Controllers/Api/ProductController.php:61-64 | the featured chain admits a row iff it is featured, active and in stock |
| ProductController.Featured | app/Http/Controllers/Api/ProductController.php:59-69 | at most 8 rows, each featured, active, in stock and loaded, in table order; exactly min(8, qualifying) |
| ProductController.SearchChainMeaning | app/Http/Controllers/Api/ProductController.php:78-85 | the where/orWhere chain admits a row iff its name, description, category name or brand name contains the term |
| ProductController.SearchChain | app/Http/Controllers/Api/ProductController.php:78-85 | four alternatives: the name `where`, then three `orWhere`s (description, category name, brand name) |
| ProductController.SearchClauses | app/Http/Controllers/Api/ProductController.php:78-87 | the scopes wrap the four alternatives into one nested group, followed by `active` and `inStock` |
| ProductController.SearchClausesMeaning | app/Http/Controllers/Api/ProductController.php:77-87 | the search WHERE admits a row iff one of the four texts matches and the row is active and in stock |
| ProductController.SearchRows | app/Http/Controllers/Api/ProductController.php:77-88 | the rows `search` pages through are the loaded table rows it admits, in table order |
| ProductController.SearchPagesCoverAll | app/Http/Controllers/Api/ProductController.php:88 | pages 1 to the last of `search` together give every admitted row exactly once, in order; later pages are empty |
| ProductController.ValidateQuery | app/Http/Controllers/Api/ProductController.php:73-75 | a missing or empty `q` is "required", a one-character `q` is "too short", anything longer is accepted |
| ProductController.Search | app/Http/Controllers/Api/ProductController.php:71-91 | validation errors are returned before the query; otherwise the items are exactly page `page` (of 20) of the admitted rows, in table order |
| ProductController.RejectedSearchIgnoresTable | app/Http/Controllers/Api/ProductController.php:73-75 | a rejected `q` gives the same error whatever the catalog holds |
| ProductController.SearchNameMatchNeedsVisibility | app/Http/Controllers/Api/ProductController.php:78-87 | unlike in `index`, a name match is returned iff the product is active and in stock |
| ProductController.SearchBrandMatchNeedsVisibility | app/Http/Controllers/Api/ProductController.php:83-87 | a row matched only by its brand's name is returned iff it is active and in stock |
| ProductController.Show | app/Http/Controllers/Api/ProductController.php:53-57 | the shown product carries its category, brand and images, and every other key is the product's own projection |
| Card.RoundRatio | components/product-card.tsx:30 | `Math.round` of a ratio is the nearest integer, a half rounding up |
| Card.DiscountPercentage | components/product-card.tsx:29-31 | 0 without a truthy sale price; -Infinity for a zero price; otherwise round((price − sale) / price × 100) |
| Card.DiscountBounds | components/product-card.tsx:29-31 | for 0 < sale ≤ price the discount is between 0 and 100 |
| Card.DiscountExample | components/product-card.tsx:29-31 | 12999 and 9999 cents give 23 |
| Card.BadgeIffVisibleSaving | components/product-card.tsx:55 | the badge shows iff there is a sale saving at least half a percent of a non-zero price |
| Card.DisplayedPrice | components/product-card.tsx:100 | the bold price is the sale price when truthy, else the price |
| Card.StruckPrice | components/product-card.tsx:101-103 | the original is struck through iff the sale price is truthy; a sale price of 0 renders a stray "0" |
| Card.PriceLineConsistent | components/product-card.tsx:100-103 | with a strike the bold price is the sale price, never above the struck original when sale ≤ price |
| Card.StarRow | components/product-card.tsx:86-92 | star i is filled iff i < floor(rating) |
| Card.StarRowFilled | components/product-card.tsx:86-92 | a row of n stars has clamp(floor, 0, n) filled |
| Card.StarsFilled | components/product-card.tsx:86-92 | exactly 5 stars, clamp(floor(rating), 0, 5) of them filled |
| Card.ProductCard.constructor | components/product-card.tsx:28 | a card starts not wishlisted |
| Card.ProductCard.HandleWishlistToggle | components/product-card.tsx:39-42 | the heart negates the flag |
| Card.ToggleTwiceRestores | components/product-card.tsx:39-42 | two clicks restore the flag |
| Products.FilterProducts | app/products/page.tsx:67-74 | the listed products are the order-preserving subsequence of those matching search, category, brands and price |
| Products.EmptyQueryMatchesAll | app/products/page.tsx:68 | the empty search matches every product |
| Products.SearchIgnoresCase | app/products/page.tsx:68 | the search ignores the case of query and name |
| Products.PriceIgnoresSale | app/products/page.tsx:71 | the price test reads the base price, never the sale price |
| Products.ClearedFiltersListByPrice | app/products/page.tsx:84-89 | with cleared filters a product is listed iff it costs at most $500 |
| Products.ClearedFiltersListAll | app/products/page.tsx:67-74 | with cleared filters a catalog priced at most $500 is listed whole |
| Products.Without | app/products/page.tsx:80 | unchecking removes every occurrence of the brand and keeps the others in order |
| Products.UncheckUndoesCheck | app/products/page.tsx:76-82 | unchecking a brand just checked restores the previous selection |
| Products.ProductsPage.constructor | app/products/page.tsx:60-65 | the page starts with empty search, "All", no brands, $0–$500, "newest" and the sheet closed |
| Products.ProductsPage.FilteredProducts | app/products/page.tsx:67-74 | the grid shows exactly the listed products of the catalog, in order |
| Products.ProductsPage.HandleBrandChange | app/products/page.tsx:76-82 | checking appends the brand, unchecking removes it; afterwards the checkbox shows the new state |
| Products.ProductsPage.ClearFilters | app/products/page.tsx:84-89 | category "All", no brands, $0–$500, empty search; sort order untouched |
| Products.ProductsPage.SetSortBy | app/products/page.tsx:190 | the sort select changes `sortBy` only, and the listed products stay the same |
| Orders.FilteredOrders | app/orders/page.tsx:161-177 | the shown orders are an order-preserving subsequence of the orders, holding exactly those that pass the search and status steps |
| Orders.FilteredOrdersMeaning | app/orders/page.tsx:161-177 | the kept orders are an order-preserving subsequence: exactly those meeting the search and status tests |
| Orders.BothSteps | app/orders/page.tsx:164-174 | the search step followed by the status step keeps what both tests keep |
| Orders.SearchStepOnly | app/orders/page.tsx:164-170 | with status "all", the search step alone gives the kept orders |
| Orders.StatusStepOnly | app/orders/page.tsx:172-174 | with an empty query, the status step alone gives the kept orders |
| Orders.NoFilterKeepsAll | app/orders/page.tsx:162-176 | an empty query with status "all" keeps every order |
| Orders.QueryIgnoresCase | app/orders/page.tsx:167-168 | the order search ignores case |
| Orders.EmptyQueryMatches | app/orders/page.tsx:164 | an empty query would match every order |
| Orders.TabOrders | app/orders/page.tsx:376-384 | a status tab lists the orders of that status, from all orders, in order |
| Orders.TabCount | app/orders/page.tsx:340-348 | a status tab's count is zero iff no order has that status |
| Orders.TabCountIsCount | app/orders/page.tsx:340-348 | a tab's count is the number of orders with that status |
| Orders.StatusCountsPartition | app/orders/page.tsx:28 | the five per-status counts add up to the number of orders |
| Orders.TabCountsAddUp | app/orders/page.tsx:340-348 | the four status tabs count all orders except the cancelled ones |
| Orders.TabIgnoresFilters | app/orders/page.tsx:376-384 | an order the search hides is still listed under its status tab |
| Orders.StatusColor | app/orders/page.tsx:196-211 | `getStatusColor`: yellow for pending, blue for processing, purple for shipped, green for delivered, red for cancelled (100 background, 800 text) |
| Orders.StatusColorsDistinct | app/orders/page.tsx:196-211 | the five statuses get five different badge classes |
| Orders.OrdersPage.constructor | app/orders/page.tsx:135-139 | no orders, empty search, status "all", loading, and the shown list in sync |
| Orders.OrdersPage.FilterOrders | app/orders/page.tsx:161-177 | the shown list becomes the kept orders of the current orders, query and status |
| Orders.OrdersPage.FetchOrders | app/orders/page.tsx:149-159 | loaded orders replace the list, a failure keeps it; loading ends and the shown list is in sync |
| Orders.OrdersPage.SetSearchQuery | app/orders/page.tsx:145-147 | a new query re-runs the filter |
| Orders.OrdersPage.SetStatusFilter | app/orders/page.tsx:145-147 | a new status re-runs the filter |
| Profile.WithField | app/profile/page.tsx:125-130 | exactly the named top-level field takes the value; every other field is unchanged |
| Profile.WithAddressField | app/profile/page.tsx:132-140 | exactly the named address part takes the value; the rest of the profile is unchanged |
| Profile.WithPreference | app/profile/page.tsx:142-150 | exactly the named preference takes the value; the rest of the profile is unchanged |
| Profile.FieldWritesCompose | app/profile/page.tsx:125-130 | writing back a field's value changes nothing; a second write overrides the first |
| Profile.FieldWritesCommute | app/profile/page.tsx:125-130 | edits of different fields commute |
| Profile.SaveMessage | app/profile/page.tsx:104-114 | the alert is the success text iff the save succeeded; a non-2xx reply gives the "Failed to update" error and a thrown error the "Something went wrong" error |
| Profile.ProfilePage.constructor | app/profile/page.tsx:38-64 | the page starts with the built-in profile, an identical working copy, not editing, not loading, no alert |
| Profile.ProfilePage.StartEditing | app/profile/page.tsx:197 | the Edit button enters edit mode |
| Profile.ProfilePage.HandleInputChange | app/profile/page.tsx:125-130 | only the working copy changes, and in it only the named field |
| Profile.ProfilePage.HandleAddressChange | app/profile/page.tsx:132-140 | only the working copy's named address part changes |
| Profile.ProfilePage.HandlePreferenceChange | app/profile/page.tsx:142-150 | only the working copy's named preference changes |
| Profile.ProfilePage.ShownPreference | app/profile/page.tsx:423 | a checkbox shows the working copy while editing, the saved profile otherwise |
| Profile.ProfilePage.PreferenceCheckbox | app/profile/page.tsx:424-425 | a checkbox changes the working copy only while editing |
| Profile.ProfilePage.HandleCancel | app/profile/page.tsx:119-123 | the working copy is reset to the profile, edit mode ends, the alert is cleared |
| Profile.ProfilePage.HandleSave | app/profile/page.tsx:89-117 | the working copy is sent; on success the reply becomes the profile and edit mode ends; otherwise both stay; an alert is set and loading is over |
| Profile.ProfilePage.FetchProfile | app/profile/page.tsx:71-87 | a successful load sets the profile and the working copy to the same data; otherwise nothing changes |

## Left out

- Network, storage, timers and logging are not modelled: `fetch`, `localStorage`, the simulated delay, `console.log` and `console.error`. Only the outcome of a request is modelled, as a method parameter (`FetchOutcome`, `SaveReply`, `FetchReply`).
- The scope bodies and the model's `current_price` and `discount_percentage` accessors are not part of this model. The scopes are the visibility rule stated above. The accessors' values are fields of the row, passed through unchanged.
- Query.Holds: `LIKE '%q%'` is case-sensitive substring containment. The database collation, which may make it case-insensitive, is not modelled. Neither are `%` and `_` in the user's text acting as wildcards.
- ProductController.Index: `sort_by` names a column whose value is an abstract integer key (`columnKey`). SQL generation, unknown columns and non-integer columns are not modelled. Rows with equal keys get one fixed order, where SQL leaves that order open.
- ProductController.Index: the paginator's metadata (total, last page, links) is not modelled. A non-numeric or negative `per_page` is not modelled either: `per_page` is a natural number. Route-model binding's 404 in `show` is not modelled.
- ProductController.Featured: there is no ORDER BY, so SQL leaves open which 8 qualifying rows are returned and in what order. The model takes the first 8 in table order.
- ProductController.Search: there is no ORDER BY, so SQL leaves the row order open. The model states the page over table order.
- ProductController.SearchRows: the admitted rows are taken in table order, where SQL leaves the order open.
- ProductController.SearchPagesCoverAll: exact coverage holds only if every page request sees the rows in one order. The model assumes table order; SQL does not promise it, so separate requests may repeat or skip rows.
- ProductController.BuildIndexQuery: `category`, `brand`, `min_price` and `max_price` are integers when present. A parameter present but empty is not modelled: `?category=` or `?brand=` compares the column with null (`whereNull`), and `?min_price=` or `?max_price=` makes the builder throw on an illegal operator and value combination. Non-numeric values, which the database compares as strings, are not modelled either.
- ProductController.ValidateQuery: the whitespace trimming that makes a blank `q` count as missing is not modelled, and neither is the `string` rule on non-string input. Length is counted in characters.
- Catalog.Product: every product has a category and a brand; null relations are not modelled. `reviews.user` is modelled as loading the reviews relation.
- ProductResource.ToArray: the shapes of the category, brand and image resources are not part of this model. Their rows are passed as they are.
- Card.DiscountPercentage: exact rational arithmetic is used. JavaScript floating point may round differently from the exact value at a .5 boundary. Prices are cents rather than float dollars.
- ProductResource.RoundToTenths: the rating is an exact real. PHP's float representation of the stored rating is not modelled.
- The icons, date formatting, CSS classes other than the status colours, and markup are not modelled. This covers `getStatusIcon`, the empty-state texts and the avatar initials.
- `handleAddToCart` only logs and is not modelled.
- The setters that only store a value are not modelled: `setSearchQuery`, `setSelectedCategory`, `setPriceRange` and `setIsFilterOpen` on the products page.
- Profile.ProfilePage.HandleInputChange: the field is one of the five the form binds. Arbitrary keys are not modelled.
- Products.MatchesSearch and Orders.MatchesQuery: lower-casing covers ASCII letters only. Full Unicode case mapping is not modelled.
