/** The product card: the discount badge, the price line, the star row and
    the wishlist heart. Prices are integer cents. */
module Card {
  import opened Common

  /** The card's product. `salePrice` is optional. */
  datatype Product = Product(
    id: int,
    name: string,
    price: nat,
    salePrice: Option<nat>,
    image: string,
    rating: real,
    reviewCount: nat,
    category: string)

  /** `product.salePrice` is truthy: present and not zero. */
  predicate SaleTruthy(p: Product) {
    p.salePrice.Some? && p.salePrice.value != 0
  }

  /** A JavaScript number as the discount can produce it: finite, or the
      -Infinity of a division by a zero price. */
  datatype Percent = Finite(value: int) | NegativeInfinity

  /** `Math.round(num / den)` for a positive denominator: the nearest
      integer, a half rounding up. */
  function RoundRatio(num: int, den: int): (r: int)
    requires den > 0
    ensures 2 * den * r <= 2 * num + den < 2 * den * (r + 1)
  {
    var q := (2 * num + den) / (2 * den);
    assert 2 * num + den == 2 * den * q + (2 * num + den) % (2 * den);
    q
  }

  /** `discountPercentage`: 0 unless the sale price is truthy, otherwise
      round((price - salePrice) / price * 100). */
  function DiscountPercentage(p: Product): (d: Percent)
    ensures !SaleTruthy(p) ==> d == Finite(0)
    ensures SaleTruthy(p) && p.price == 0 ==> d == NegativeInfinity
    ensures SaleTruthy(p) && p.price > 0 ==>
      && d.Finite?
      && 2 * p.price * d.value <= 200 * (p.price - p.salePrice.value) + p.price
      && 200 * (p.price - p.salePrice.value) + p.price < 2 * p.price * (d.value + 1)
  {
    if !SaleTruthy(p) then Finite(0)
    else if p.price == 0 then NegativeInfinity
    else Finite(RoundRatio(100 * (p.price - p.salePrice.value), p.price))
  }

  lemma MulNonneg(k: int, z: int)
    requires k > 0
    ensures z >= 0 ==> k * z >= 0
  {
  }

  lemma ScaleLess(k: int, x: int, y: int)
    requires k > 0 && k * x < k * y
    ensures x < y
  {
    MulNonneg(k, x - y);
    assert k * x - k * y == k * (x - y);
  }

  lemma ScaleLe(k: int, x: int, y: int)
    requires k > 0 && x <= y
    ensures k * x <= k * y
  {
    assert k * y - k * x == k * (y - x);
  }

  /** A sale price between zero and the price gives a discount of 0 to 100. */
  lemma DiscountBounds(p: Product)
    requires p.salePrice.Some? && 0 < p.salePrice.value <= p.price
    ensures DiscountPercentage(p).Finite?
    ensures 0 <= DiscountPercentage(p).value <= 100
  {
    var d := DiscountPercentage(p).value;
    var k := 2 * p.price;
    var n := p.price - p.salePrice.value;
    assert 0 <= n <= p.price - 1;
    ScaleLess(k, 0, d + 1);
    assert k * 101 == 202 * p.price;
    ScaleLess(k, d, 101);
  }

  /** $129.99 on sale at $99.99 shows 23% off. */
  lemma DiscountExample()
    ensures DiscountPercentage(Product(1, "Nike Air Max Running Shoes", 12999, Some(9999), "", 4.5, 128, "Running"))
            == Finite(23)
  {
  }

  /** The badge is drawn when the discount is above zero. */
  predicate ShowsBadge(p: Product) {
    DiscountPercentage(p).Finite? && DiscountPercentage(p).value > 0
  }

  /** The badge appears exactly when there is a sale and the saving is at
      least half a percent of the price (a smaller saving rounds to 0%). */
  lemma BadgeIffVisibleSaving(p: Product)
    ensures ShowsBadge(p) <==>
      SaleTruthy(p) && p.price > 0 && 200 * (p.price - p.salePrice.value) >= p.price
  {
    if SaleTruthy(p) && p.price > 0 {
      var d := DiscountPercentage(p).value;
      var k := 2 * p.price;
      if d >= 1 {
        ScaleLe(k, 1, d);
      }
      if 200 * (p.price - p.salePrice.value) >= p.price {
        assert k * 1 == 2 * p.price;
        ScaleLess(k, 1, d + 1);
      }
    }
  }

  /** The bold price: the sale price when truthy, otherwise the price. */
  function DisplayedPrice(p: Product): (r: nat)
    ensures SaleTruthy(p) ==> r == p.salePrice.value
    ensures !SaleTruthy(p) ==> r == p.price
  {
    if SaleTruthy(p) then p.salePrice.value else p.price
  }

  /** What follows the bold price: nothing, the struck-through original, or
      the number 0 that React renders for a sale price of 0. */
  datatype Struck = NoStrike | StrayZero | Strike(original: nat)

  function StruckPrice(p: Product): (r: Struck)
    ensures r.Strike? <==> SaleTruthy(p)
    ensures r.Strike? ==> r.original == p.price
    ensures r == StrayZero <==> p.salePrice == Some(0)
  {
    match p.salePrice
    case None => NoStrike
    case Some(s) => if s == 0 then StrayZero else Strike(p.price)
  }

  /** When an original is struck through, the bold price is the sale price;
      otherwise the bold price is the price itself. */
  lemma PriceLineConsistent(p: Product)
    ensures StruckPrice(p).Strike? ==> DisplayedPrice(p) == p.salePrice.value
    ensures !StruckPrice(p).Strike? ==> DisplayedPrice(p) == p.price
    ensures StruckPrice(p).Strike? && p.salePrice.value <= p.price ==>
      DisplayedPrice(p) <= StruckPrice(p).original
  {
  }

  /** Number of stars in the rating row. */
  const StarCount: nat := 5

  /** `Math.floor(rating)`. */
  function Floor(x: real): int {
    x.Floor
  }

  /** The first `n` stars: star `i` is filled when `i < filled`. */
  function StarRow(n: nat, filled: int): (r: seq<bool>)
    ensures |r| == n
    ensures forall i :: 0 <= i < n ==> r[i] == (i < filled)
  {
    seq(n, i requires 0 <= i < n => i < filled)
  }

  /** The star row drawn for a rating. */
  function Stars(rating: real): (r: seq<bool>)
    ensures |r| == StarCount
  {
    StarRow(StarCount, Floor(rating))
  }

  function CountFilled(s: seq<bool>): nat {
    if s == [] then 0 else CountFilled(s[..|s| - 1]) + (if s[|s| - 1] then 1 else 0)
  }

  function Clamp(x: int, lo: int, hi: int): int
    requires lo <= hi
  {
    if x < lo then lo else if x > hi then hi else x
  }

  lemma {:induction false} StarRowFilled(n: nat, filled: int)
    ensures CountFilled(StarRow(n, filled)) == Clamp(filled, 0, n)
  {
    if n > 0 {
      StarRowFilled(n - 1, filled);
      assert StarRow(n, filled)[..n - 1] == StarRow(n - 1, filled);
    }
  }

  /** Exactly five stars, of which clamp(floor(rating), 0, 5) are filled. */
  lemma StarsFilled(rating: real)
    ensures |Stars(rating)| == 5
    ensures CountFilled(Stars(rating)) == Clamp(Floor(rating), 0, 5)
  {
    StarRowFilled(StarCount, Floor(rating));
  }

  /** The card's own state: whether the product is wishlisted. */
  class ProductCard {
    const product: Product
    var isWishlisted: bool

    constructor(product: Product)
      ensures this.product == product && !isWishlisted
    {
      this.product := product;
      isWishlisted := false;
    }

    /** The heart button flips the flag. */
    method HandleWishlistToggle()
      modifies this
      ensures isWishlisted == !old(isWishlisted)
    {
      isWishlisted := !isWishlisted;
    }
  }

  /** Two clicks on the heart leave the flag as it was. */
  method ToggleTwiceRestores(card: ProductCard)
    modifies card
    ensures card.isWishlisted == old(card.isWishlisted)
  {
    card.HandleWishlistToggle();
    card.HandleWishlistToggle();
  }
}
