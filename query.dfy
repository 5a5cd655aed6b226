/** The part of the query builder the product API relies on.

    A chain of `where(...)` / `orWhere(...)` calls is kept as a list of
    clauses, each joined to what precedes it by AND or OR, exactly as it is
    emitted into the SQL WHERE. SQL binds AND tighter than OR, so the list
    means: cut it before every OR clause, require every clause of some piece.
    `Fold` evaluates the list left to right; `Groups` is the reference reading
    (the pieces themselves), and `MatchesIsSomeGroup` proves the two agree.

    Calling a local scope (`active()`, `inStock()`, `featured()`) is not a
    plain `where`: when the WHERE built so far contains an OR, the builder
    first wraps it in parentheses, one nested clause, and only then adds the
    scope's condition (`CallScope`). `ScopeConjoins` proves that a scope
    therefore always restricts the whole WHERE before it. */
module Query {
  import opened Common
  import opened Catalog

  datatype Boolean = And | Or

  datatype Pred =
    | ActiveScope
    | InStockScope
    | FeaturedScope
    | NameLike(q: string)
    | DescriptionLike(q: string)
    | CategoryNameLike(q: string)
    | BrandNameLike(q: string)
    | CategoryIs(categoryId: int)
    | BrandIs(brandId: int)
    | PriceAtLeast(min: int)
    | PriceAtMost(max: int)
    | Group(clauses: seq<Clause>)

  datatype Clause = Clause(boolean: Boolean, pred: Pred)

  /** One WHERE condition on one row. `LIKE '%q%'` is substring containment;
      `whereHas(rel, name LIKE …)` looks at the related row's name; a nested
      group holds when its own clause list does. */
  predicate Holds(pred: Pred, p: Product)
    decreases pred
  {
    match pred
    case ActiveScope => IsActive(p)
    case InStockScope => InStock(p)
    case FeaturedScope => IsFeatured(p)
    case NameLike(q) => Contains(p.name, q)
    case DescriptionLike(q) => Contains(p.description, q)
    case CategoryNameLike(q) => Contains(p.category.name, q)
    case BrandNameLike(q) => Contains(p.brand.name, q)
    case CategoryIs(id) => p.category.id == id
    case BrandIs(id) => p.brand.id == id
    case PriceAtLeast(min) => p.price >= min
    case PriceAtMost(max) => p.price <= max
    case Group(g) => Matches(g, p)
  }

  predicate ClauseHolds(c: Clause, p: Product)
    decreases c
  {
    Holds(c.pred, p)
  }

  /** State of a left-to-right evaluation: `done` is the disjunction of the
      AND-runs already closed by an OR, `cur` the conjunction of the open run. */
  datatype Acc = Acc(done: bool, cur: bool)

  /** The first clause's AND/OR is dropped when the SQL is emitted, so only a
      later OR closes a run. */
  function Fold(cs: seq<Clause>, p: Product): Acc
    decreases cs, 0
  {
    if cs == [] then Acc(false, true)
    else
      var a := Fold(cs[..|cs| - 1], p);
      var c := cs[|cs| - 1];
      if c.boolean == Or && |cs| > 1 then Acc(a.done || a.cur, ClauseHolds(c, p))
      else Acc(a.done, a.cur && ClauseHolds(c, p))
  }

  /** The row satisfies the WHERE built from `cs` (an empty list filters nothing). */
  predicate Matches(cs: seq<Clause>, p: Product)
    decreases cs, 1
  {
    Fold(cs, p).done || Fold(cs, p).cur
  }

  /** Appending a clause extends the fold by one step. */
  lemma FoldSnoc(cs: seq<Clause>, c: Clause, p: Product)
    requires cs != []
    ensures Fold(cs + [c], p) ==
      if c.boolean == Or then Acc(Fold(cs, p).done || Fold(cs, p).cur, Holds(c.pred, p))
      else Acc(Fold(cs, p).done, Fold(cs, p).cur && Holds(c.pred, p))
  {
    assert (cs + [c])[..|cs|] == cs;
  }

  // ---------------------------------------------------------------------------
  // Local scopes
  // ---------------------------------------------------------------------------

  /** Some clause of the list is joined by OR. */
  predicate HasOr(cs: seq<Clause>) {
    exists i :: 0 <= i < |cs| && cs[i].boolean == Or
  }

  /** Calling a scope whose body is `where(pred)`: a WHERE holding an OR is
      first wrapped into one nested clause carrying its first clause's
      boolean; a WHERE without one is left flat. The scope's condition is then
      added with AND. */
  function CallScope(cs: seq<Clause>, pred: Pred): (r: seq<Clause>)
    ensures r != [] && r[|r| - 1] == Clause(And, pred)
    ensures HasOr(cs) ==> r[..|r| - 1] == [Clause(cs[0].boolean, Group(cs))]
    ensures !HasOr(cs) ==> r[..|r| - 1] == cs
  {
    (if HasOr(cs) then [Clause(cs[0].boolean, Group(cs))] else cs) + [Clause(And, pred)]
  }

  /** Without an OR no AND-run is ever closed. */
  lemma {:induction false} NoOrNeverCloses(cs: seq<Clause>, p: Product)
    requires !HasOr(cs)
    ensures !Fold(cs, p).done
    decreases |cs|
  {
    if cs != [] {
      var pre := cs[..|cs| - 1];
      forall i | 0 <= i < |pre| ensures pre[i].boolean != Or {
        assert pre[i] == cs[i];
      }
      NoOrNeverCloses(pre, p);
    }
  }

  /** A scope restricts the whole WHERE built before it, whatever ORs it
      contains. */
  lemma ScopeConjoins(cs: seq<Clause>, pred: Pred, p: Product)
    ensures Matches(CallScope(cs, pred), p) <==> Matches(cs, p) && Holds(pred, p)
  {
    var c := Clause(And, pred);
    if HasOr(cs) {
      var g := Clause(cs[0].boolean, Group(cs));
      assert CallScope(cs, pred) == [g] + [c] && [g][..0] == [];
      assert ClauseHolds(g, p) == Holds(Group(cs), p) == Matches(cs, p);
      assert Fold([g], p) == Acc(false, Matches(cs, p));
      FoldSnoc([g], c, p);
    } else if cs == [] {
      assert CallScope(cs, pred) == [c] && [c][..0] == [];
      assert Fold([c], p) == Acc(false, Holds(pred, p));
    } else {
      FoldSnoc(cs, c, p);
      NoOrNeverCloses(cs, p);
    }
  }

  // ---------------------------------------------------------------------------
  // Reference reading: the maximal AND-runs, OR'd together
  // ---------------------------------------------------------------------------

  function Groups(cs: seq<Clause>): (gs: seq<seq<Pred>>)
    ensures |gs| >= 1
    decreases |cs|
  {
    if cs == [] then [[]]
    else
      var gs := Groups(cs[..|cs| - 1]);
      var c := cs[|cs| - 1];
      if c.boolean == Or && |cs| > 1 then gs + [[c.pred]]
      else gs[..|gs| - 1] + [gs[|gs| - 1] + [c.pred]]
  }

  predicate AllHold(g: seq<Pred>, p: Product) {
    forall i :: 0 <= i < |g| ==> Holds(g[i], p)
  }

  predicate SomeGroupHolds(gs: seq<seq<Pred>>, p: Product) {
    exists j :: 0 <= j < |gs| && AllHold(gs[j], p)
  }

  lemma SomeGroupSnoc(gs: seq<seq<Pred>>, g: seq<Pred>, p: Product)
    ensures SomeGroupHolds(gs + [g], p) == (SomeGroupHolds(gs, p) || AllHold(g, p))
  {
    var all := gs + [g];
    if SomeGroupHolds(all, p) {
      var j :| 0 <= j < |all| && AllHold(all[j], p);
      if j < |gs| {
        assert all[j] == gs[j];
      }
    }
    if SomeGroupHolds(gs, p) {
      var j :| 0 <= j < |gs| && AllHold(gs[j], p);
      assert all[j] == gs[j];
    }
    assert all[|gs|] == g;
  }

  lemma AllHoldSnoc(g: seq<Pred>, x: Pred, p: Product)
    ensures AllHold(g + [x], p) == (AllHold(g, p) && Holds(x, p))
  {
    var all := g + [x];
    if AllHold(all, p) {
      forall i | 0 <= i < |g| ensures Holds(g[i], p) {
        assert all[i] == g[i];
      }
      assert all[|g|] == x;
    }
  }

  lemma {:induction false} FoldIsGroups(cs: seq<Clause>, p: Product)
    ensures Fold(cs, p).done == SomeGroupHolds(Groups(cs)[..|Groups(cs)| - 1], p)
    ensures Fold(cs, p).cur == AllHold(Groups(cs)[|Groups(cs)| - 1], p)
    decreases |cs|
  {
    if cs != [] {
      var pre := cs[..|cs| - 1];
      var c := cs[|cs| - 1];
      FoldIsGroups(pre, p);
      var g0 := Groups(pre);
      var n := |g0|;
      var closed0 := g0[..n - 1];
      var gs := Groups(cs);
      if c.boolean == Or && |cs| > 1 {
        assert gs[..|gs| - 1] == g0;
        assert g0 == closed0 + [g0[n - 1]];
        SomeGroupSnoc(closed0, g0[n - 1], p);
        AllHoldSnoc([], c.pred, p);
        assert [] + [c.pred] == [c.pred] == gs[|gs| - 1];
      } else {
        assert gs[..|gs| - 1] == closed0;
        assert gs[|gs| - 1] == g0[n - 1] + [c.pred];
        AllHoldSnoc(g0[n - 1], c.pred, p);
      }
    }
  }

  /** AND binds tighter than OR: a row matches iff it satisfies every clause
      of at least one maximal AND-run. */
  lemma MatchesIsSomeGroup(cs: seq<Clause>, p: Product)
    ensures Matches(cs, p) <==> SomeGroupHolds(Groups(cs), p)
  {
    FoldIsGroups(cs, p);
    var gs := Groups(cs);
    var n := |gs|;
    assert gs == gs[..n - 1] + [gs[n - 1]];
    SomeGroupSnoc(gs[..n - 1], gs[n - 1], p);
  }

  /** The rows of `table` satisfying the WHERE, in table order. */
  function Where(table: seq<Product>, cs: seq<Clause>): (r: seq<Product>)
    ensures IsSubsequence(r, table)
    ensures forall p :: p in r <==> p in table && Matches(cs, p)
    ensures forall p :: multiset(r)[p] == if Matches(cs, p) then multiset(table)[p] else 0
  {
    Filter(table, p => Matches(cs, p))
  }

  // ---------------------------------------------------------------------------
  // ORDER BY an abstract key
  // ---------------------------------------------------------------------------

  datatype Direction = Asc | Desc

  /** The `orderBy` direction check: the given word, lower-cased, must be
      "asc" or "desc". */
  function ParseDirection(order: string): (d: Option<Direction>)
    ensures d == Some(Asc) <==> Lower(order) == "asc"
    ensures d == Some(Desc) <==> Lower(order) == "desc"
  {
    if Lower(order) == "asc" then Some(Asc)
    else if Lower(order) == "desc" then Some(Desc)
    else None
  }

  predicate InOrder(a: Product, b: Product, key: Product -> int, dir: Direction) {
    if dir == Asc then key(a) <= key(b) else key(a) >= key(b)
  }

  predicate SortedBy(rows: seq<Product>, key: Product -> int, dir: Direction) {
    forall i, j :: 0 <= i < j < |rows| ==> InOrder(rows[i], rows[j], key, dir)
  }

  function Insert(x: Product, rows: seq<Product>, key: Product -> int, dir: Direction): (r: seq<Product>)
    requires SortedBy(rows, key, dir)
    ensures SortedBy(r, key, dir)
    ensures multiset(r) == multiset(rows) + multiset{x}
    ensures forall y :: y in r <==> y == x || y in rows
    decreases |rows|
  {
    if rows == [] || InOrder(x, rows[0], key, dir) then
      [x] + rows
    else
      var rest := Insert(x, rows[1..], key, dir);
      assert rows == [rows[0]] + rows[1..];
      assert forall y :: y in rest ==> InOrder(rows[0], y, key, dir);
      [rows[0]] + rest
  }

  /** `orderBy(column, direction)`: a permutation of the rows, ordered by the
      column's key. Rows with equal keys may come in any order in SQL; this
      model fixes one such order. */
  function OrderBy(rows: seq<Product>, key: Product -> int, dir: Direction): (r: seq<Product>)
    ensures SortedBy(r, key, dir)
    ensures multiset(r) == multiset(rows)
    decreases |rows|
  {
    if rows == [] then []
    else
      assert rows == [rows[0]] + rows[1..];
      Insert(rows[0], OrderBy(rows[1..], key, dir), key, dir)
  }

  // ---------------------------------------------------------------------------
  // Pagination
  // ---------------------------------------------------------------------------

  /** A page of results: the rows of the requested page, the page size and the page number. */
  datatype Page = Page(items: seq<Product>, perPage: nat, currentPage: nat)

  /** The paginator's page resolution: the `page` parameter when it is an
      integer of at least 1, otherwise page 1. */
  function ResolvePage(page: Option<int>): (n: nat)
    ensures n >= 1
    ensures page.Some? && page.value >= 1 ==> n == page.value
    ensures page.None? || page.value < 1 ==> n == 1
  {
    if page.Some? && page.value >= 1 then page.value else 1
  }

  function Offset(page: nat, perPage: nat): nat
    requires page >= 1
  {
    (page - 1) * perPage
  }

  /** `forPage(page, perPage)`: skip the earlier pages, take at most `perPage`. */
  function ForPage<T>(rows: seq<T>, page: nat, perPage: nat): (r: seq<T>)
    requires page >= 1
    ensures |r| <= perPage
    ensures Offset(page, perPage) <= |rows| ==> |r| == Min(perPage, |rows| - Offset(page, perPage))
    ensures Offset(page, perPage) >= |rows| ==> r == []
    ensures forall i :: 0 <= i < |r| ==> r[i] == rows[Offset(page, perPage) + i]
  {
    var lo := Min(Offset(page, perPage), |rows|);
    var hi := Min(Offset(page, perPage) + perPage, |rows|);
    rows[lo..hi]
  }

  lemma ForPageMembers<T>(rows: seq<T>, page: nat, perPage: nat)
    requires page >= 1
    ensures forall x :: x in ForPage(rows, page, perPage) ==> x in rows
  {
  }

  /** A page of sorted rows is sorted. */
  lemma ForPageSorted(rows: seq<Product>, key: Product -> int, dir: Direction, page: nat, perPage: nat)
    requires page >= 1
    requires SortedBy(rows, key, dir)
    ensures SortedBy(ForPage(rows, page, perPage), key, dir)
  {
    var r := ForPage(rows, page, perPage);
    var off := Offset(page, perPage);
    forall i, j | 0 <= i < j < |r| ensures InOrder(r[i], r[j], key, dir) {
      assert r[i] == rows[off + i] && r[j] == rows[off + j];
    }
  }

  /** Pages 1..k one after the other. */
  function PagesUpTo<T>(rows: seq<T>, perPage: nat, k: nat): seq<T> {
    if k == 0 then [] else PagesUpTo(rows, perPage, k - 1) + ForPage(rows, k, perPage)
  }

  /** Pages are consecutive slices: pages 1..k together are exactly the first
      k * perPage rows (or all of them). */
  lemma {:induction false} PagesUpToIsPrefix<T>(rows: seq<T>, perPage: nat, k: nat)
    ensures PagesUpTo(rows, perPage, k) == rows[..Min(k * perPage, |rows|)]
  {
    if k > 0 {
      PagesUpToIsPrefix(rows, perPage, k - 1);
      assert Offset(k, perPage) == (k - 1) * perPage;
      assert (k - 1) * perPage + perPage == k * perPage;
      assert (k - 1) * perPage <= k * perPage;
      var a := Min((k - 1) * perPage, |rows|);
      var b := Min(k * perPage, |rows|);
      assert rows[..a] + rows[a..b] == rows[..b];
    }
  }

  /** The number of the last page: ceil(total / perPage). */
  function LastPage(total: nat, perPage: nat): nat
    requires perPage >= 1
  {
    (total + perPage - 1) / perPage
  }

  /** Walking every page from 1 to the last one yields every row exactly once,
      in order; pages past the last one are empty. */
  lemma PagesCoverAll<T>(rows: seq<T>, perPage: nat)
    requires perPage >= 1
    ensures PagesUpTo(rows, perPage, LastPage(|rows|, perPage)) == rows
    ensures forall k :: k > LastPage(|rows|, perPage) ==> ForPage(rows, k, perPage) == []
  {
    var n := |rows|;
    var last := LastPage(n, perPage);
    var q, m := (n + perPage - 1) / perPage, (n + perPage - 1) % perPage;
    assert n + perPage - 1 == q * perPage + m;
    assert last * perPage >= n;
    PagesUpToIsPrefix(rows, perPage, last);
    assert rows[..n] == rows;
    forall k | k > last ensures ForPage(rows, k, perPage) == [] {
      MulMonotone(last, k - 1, perPage);
    }
  }

  lemma MulMonotone(a: nat, b: nat, c: nat)
    requires a <= b
    ensures a * c <= b * c
  {
  }
}
