// The Strategy pattern: a shopping cart whose discount rule can be swapped at
// run time, and interchangeable price orderings for a product list.
module Strategy {
  import opened Wrappers
  import Text
  import Seqs

  // ---------------------------------------------------------------------
  // Discount strategies
  // ---------------------------------------------------------------------

  /** The discount strategies with the state each keeps. */
  datatype Discount =
    | NoDiscount
    | Percentage(percentage: real)
    | Flat(amount: real)
    | BuyOneGetOneFree
    | Seasonal(season: string)

  /** `PercentageDiscount(percentage)`: the constructor caps the percentage at 100. */
  function PercentageDiscount(percentage: real): (d: Discount)
    ensures d.Percentage? && d.percentage <= 100.0
    ensures d.percentage == percentage || (percentage > 100.0 && d.percentage == 100.0)
  {
    Percentage(if percentage < 100.0 then percentage else 100.0)
  }

  /** The seasonal sale rates, in percent. */
  const Rates: map<string, int> := map["summer" := 15, "winter" := 25, "black_friday" := 40, "clearance" := 60]

  /** `self._rates.get(self._season.lower(), 0)`. */
  function SeasonRate(season: string): (rate: int)
    ensures Text.Lower(season) in Rates ==> rate == Rates[Text.Lower(season)]
    ensures Text.Lower(season) !in Rates ==> rate == 0
  {
    var key := Text.Lower(season);
    if key in Rates then Rates[key] else 0
  }

  /** `calculate_discount`: the amount taken off the price, not the final price. */
  function CalculateDiscount(d: Discount, price: real): real
  {
    match d
    case NoDiscount => 0.0
    case Percentage(p) => price * (p / 100.0)
    case Flat(amount) => if amount < price then amount else price
    case BuyOneGetOneFree => price * 0.5
    case Seasonal(season) => price * (SeasonRate(season) as real / 100.0)
  }

  /** A strategy built from non-negative arguments; a percentage as the constructor leaves it. */
  predicate NonNegative(d: Discount)
  {
    match d
    case Percentage(p) => 0.0 <= p <= 100.0
    case Flat(amount) => amount >= 0.0
    case _ => true
  }

  /** A percentage strategy built from a non-negative percentage is non-negative. */
  lemma PercentageDiscountNonNegative(percentage: real)
    requires percentage >= 0.0
    ensures NonNegative(PercentageDiscount(percentage))
  {
  }

  /** Every seasonal rate is a percentage between 0 and 100. */
  lemma SeasonRateBounded(season: string)
    ensures 0 <= SeasonRate(season) <= 100
  {
    var key := Text.Lower(season);
    if key in Rates {
      assert key == "summer" || key == "winter" || key == "black_friday" || key == "clearance";
    }
  }

  /** For a non-negative price, a non-negative strategy never takes off less than nothing or more than the price. */
  lemma DiscountWithinPrice(d: Discount, price: real)
    requires NonNegative(d) && price >= 0.0
    ensures 0.0 <= CalculateDiscount(d, price) <= price
  {
    match d
    case Percentage(p) =>
      assert price * (p / 100.0) <= price * 1.0;
    case Seasonal(season) =>
      SeasonRateBounded(season);
      var rate := SeasonRate(season) as real / 100.0;
      assert 0.0 <= rate <= 1.0;
      assert price * rate <= price * 1.0;
    case _ =>
  }

  /** The flat discount is the smaller of the amount and the price, so the price after it is never negative. */
  lemma FlatDiscountCapped(amount: real, price: real)
    ensures CalculateDiscount(Flat(amount), price) <= amount && CalculateDiscount(Flat(amount), price) <= price
    ensures CalculateDiscount(Flat(amount), price) == amount || CalculateDiscount(Flat(amount), price) == price
    ensures price - CalculateDiscount(Flat(amount), price) >= 0.0
  {
  }

  /** The season is looked up case-insensitively. */
  lemma SeasonCaseInsensitive(season: string)
    ensures SeasonRate(season) == SeasonRate(Text.Lower(season))
    ensures CalculateDiscount(Seasonal(season), 1.0) == CalculateDiscount(Seasonal(Text.Lower(season)), 1.0)
  {
    Text.LowerIdempotent(season);
  }

  /** An unknown season gives no discount. */
  lemma UnknownSeasonFree(season: string, price: real)
    requires Text.Lower(season) !in Rates
    ensures CalculateDiscount(Seasonal(season), price) == 0.0
  {
    var rate := SeasonRate(season) as real / 100.0;
    assert rate == 0.0;
    assert CalculateDiscount(Seasonal(season), price) == price * rate;
  }

  /** The demo's black friday sale takes off 40%. */
  lemma BlackFridayRate(price: real)
    ensures CalculateDiscount(Seasonal("black_friday"), price) == price * 0.4
  {
    assert Text.Lower("black_friday") == "black_friday";
  }

  // ---------------------------------------------------------------------
  // Shopping cart
  // ---------------------------------------------------------------------

  datatype CartItem = CartItem(name: string, price: real, quantity: int)

  function LineTotal(item: CartItem): real
  {
    item.price * item.quantity as real
  }

  /** `sum(item.price * item.quantity for item in items)`. */
  function Subtotal(items: seq<CartItem>): real
  {
    if |items| == 0 then 0.0 else LineTotal(items[0]) + Subtotal(items[1..])
  }

  /** Adding an item adds its line total to the subtotal. */
  lemma {:induction false} SubtotalAppend(items: seq<CartItem>, item: CartItem)
    ensures Subtotal(items + [item]) == Subtotal(items) + LineTotal(item)
  {
    if |items| > 0 {
      assert (items + [item])[1..] == items[1..] + [item];
      SubtotalAppend(items[1..], item);
    } else {
      assert (items + [item])[1..] == [];
    }
  }

  /** With non-negative prices and quantities the subtotal is non-negative. */
  lemma {:induction false} SubtotalNonNegative(items: seq<CartItem>)
    requires WellFormed(items)
    ensures Subtotal(items) >= 0.0
  {
    if |items| > 0 {
      SubtotalNonNegative(items[1..]);
    }
  }

  /** `ShoppingCart`: the items added so far and the current discount strategy. */
  class ShoppingCart {
    var items: seq<CartItem>
    var strategy: Discount

    /** `discount_strategy or NoDiscount()`: no strategy means no discount. */
    constructor (discountStrategy: Option<Discount>)
      ensures items == []
      ensures strategy == (if discountStrategy.Some? then discountStrategy.value else NoDiscount)
    {
      items := [];
      strategy := if discountStrategy.Some? then discountStrategy.value else NoDiscount;
    }

    method AddItem(item: CartItem)
      modifies this
      ensures items == old(items) + [item] && strategy == old(strategy)
      ensures GetSubtotal() == old(GetSubtotal()) + LineTotal(item)
    {
      SubtotalAppend(items, item);
      items := items + [item];
    }

    /** `set_discount_strategy`: only the strategy changes. */
    method SetDiscountStrategy(s: Discount)
      modifies this
      ensures strategy == s && items == old(items)
      ensures GetSubtotal() == old(GetSubtotal())
    {
      strategy := s;
    }

    function GetSubtotal(): real
      reads this
    {
      Subtotal(items)
    }

    /** `get_discount`: the strategy applied to the subtotal. */
    function GetDiscount(): real
      reads this
    {
      CalculateDiscount(strategy, GetSubtotal())
    }

    /** `get_total`. */
    function GetTotal(): real
      reads this
    {
      Total(strategy, items)
    }
  }

  /** Every price and quantity is non-negative. */
  predicate WellFormed(items: seq<CartItem>)
  {
    forall i :: 0 <= i < |items| ==> items[i].price >= 0.0 && items[i].quantity >= 0
  }

  /**
   * The cart total under a strategy: the subtotal less the discount; with no
   * discount it is the subtotal, under a flat discount it is never negative, and
   * for a non-negative strategy on well-formed items it lies between zero and
   * the subtotal.
   */
  function Total(d: Discount, items: seq<CartItem>): (total: real)
    ensures total + CalculateDiscount(d, Subtotal(items)) == Subtotal(items)
    ensures d == NoDiscount ==> total == Subtotal(items)
    ensures d.Flat? ==> total >= 0.0
    ensures NonNegative(d) && WellFormed(items) ==> 0.0 <= total <= Subtotal(items)
  {
    var subtotal := Subtotal(items);
    TotalBounds(d, items);
    subtotal - CalculateDiscount(d, subtotal)
  }

  lemma TotalBounds(d: Discount, items: seq<CartItem>)
    ensures d.Flat? ==> Subtotal(items) - CalculateDiscount(d, Subtotal(items)) >= 0.0
    ensures NonNegative(d) && WellFormed(items) ==> 0.0 <= CalculateDiscount(d, Subtotal(items)) <= Subtotal(items)
  {
    if NonNegative(d) && WellFormed(items) {
      SubtotalNonNegative(items);
      DiscountWithinPrice(d, Subtotal(items));
    }
    if d.Flat? {
      FlatDiscountCapped(d.amount, Subtotal(items));
    }
  }

  /** The demo cart: headphones, a phone case and two cables. */
  function DemoItems(): seq<CartItem>
  {
    [CartItem("Wireless Headphones", 79.99, 1), CartItem("Phone Case", 19.99, 1), CartItem("USB-C Cable", 12.99, 2)]
  }

  /** The demo cart's subtotal, and its totals under the 20% coupon, the black friday sale and the $15 coupon. */
  lemma DemoTotals()
    ensures Subtotal(DemoItems()) == 125.96
    ensures Subtotal(DemoItems()) - CalculateDiscount(PercentageDiscount(20.0), 125.96) == 100.768
    ensures Subtotal(DemoItems()) - CalculateDiscount(Seasonal("black_friday"), 125.96) == 75.576
    ensures Subtotal(DemoItems()) - CalculateDiscount(Flat(15.0), 125.96) == 110.96
  {
    var items := DemoItems();
    assert items[1..][1..][1..] == [];
    assert Subtotal(items[2..]) == 25.98;
    assert items[1..][1..] == items[2..];
    BlackFridayRate(125.96);
  }

  // ---------------------------------------------------------------------
  // Sorting strategies
  // ---------------------------------------------------------------------

  /** The ordering key of `PriceLowToHigh`. */
  function Price(item: CartItem): real
  {
    item.price
  }

  /** `reverse=True` keeps equal items in their input order, exactly as an ascending sort on the negated key does. */
  function NegatedPrice(item: CartItem): real
  {
    -item.price
  }

  predicate SortedBy<T>(s: seq<T>, key: T -> real)
  {
    forall i, j :: 0 <= i < j < |s| ==> key(s[i]) <= key(s[j])
  }

  /** Insertion of x into a sorted list, in front of the first element whose key is not smaller. */
  function Insert<T>(x: T, s: seq<T>, key: T -> real): (r: seq<T>)
    ensures multiset(r) == multiset(s) + multiset{x}
  {
    if |s| == 0 || key(x) <= key(s[0]) then [x] + s
    else
      assert s == [s[0]] + s[1..];
      [s[0]] + Insert(x, s[1..], key)
  }

  /** `sorted(data, key=key)`: a stable sort. */
  function SortBy<T>(xs: seq<T>, key: T -> real): (r: seq<T>)
    ensures multiset(r) == multiset(xs)
  {
    if |xs| == 0 then []
    else
      assert xs == [xs[0]] + xs[1..];
      Insert(xs[0], SortBy(xs[1..], key), key)
  }

  lemma {:induction false} InsertSorted<T>(x: T, s: seq<T>, key: T -> real)
    requires SortedBy(s, key)
    ensures SortedBy(Insert(x, s, key), key)
  {
    if |s| == 0 || key(x) <= key(s[0]) {
      var r := [x] + s;
      forall i, j | 0 <= i < j < |r| ensures key(r[i]) <= key(r[j]) {
        if i > 0 {
          assert r[i] == s[i - 1] && r[j] == s[j - 1];
        } else {
          assert r[j] == s[j - 1];
        }
      }
    } else {
      var rest := Insert(x, s[1..], key);
      assert SortedBy(s[1..], key);
      InsertSorted(x, s[1..], key);
      InsertLowerBound(x, s[1..], key, key(s[0]));
      var r := [s[0]] + rest;
      forall i, j | 0 <= i < j < |r| ensures key(r[i]) <= key(r[j]) {
        assert r[j] == rest[j - 1];
        if i > 0 {
          assert r[i] == rest[i - 1];
        }
      }
    }
  }

  /** Insertion keeps a lower bound that x and every element of s respect. */
  lemma {:induction false} InsertLowerBound<T>(x: T, s: seq<T>, key: T -> real, b: real)
    requires b <= key(x) && forall i :: 0 <= i < |s| ==> b <= key(s[i])
    ensures forall i :: 0 <= i < |Insert(x, s, key)| ==> b <= key(Insert(x, s, key)[i])
  {
    if |s| > 0 && key(s[0]) < key(x) {
      InsertLowerBound(x, s[1..], key, b);
      var rest := Insert(x, s[1..], key);
      assert forall i :: 0 < i < |rest| + 1 ==> ([s[0]] + rest)[i] == rest[i - 1];
    }
  }

  /** The result of a sort is ordered by its key. */
  lemma {:induction false} SortBySorted<T>(xs: seq<T>, key: T -> real)
    ensures SortedBy(SortBy(xs, key), key)
  {
    if |xs| > 0 {
      SortBySorted(xs[1..], key);
      InsertSorted(xs[0], SortBy(xs[1..], key), key);
    }
  }

  /** The test "has key k" used to state stability. */
  function HasKey<T>(key: T -> real, k: real): T -> bool
  {
    y => key(y) == k
  }

  lemma FilterCons<T>(x: T, s: seq<T>, p: T -> bool)
    ensures Seqs.Filter([x] + s, p) == (if p(x) then [x] else []) + Seqs.Filter(s, p)
  {
    assert ([x] + s)[1..] == s;
  }

  /** Insertion puts x in front of every element with the same key. */
  lemma {:induction false} InsertStable<T>(x: T, s: seq<T>, key: T -> real, k: real)
    ensures Seqs.Filter(Insert(x, s, key), HasKey(key, k)) == Seqs.Filter([x] + s, HasKey(key, k))
  {
    var p := HasKey(key, k);
    if |s| > 0 && key(s[0]) < key(x) {
      var rest := Insert(x, s[1..], key);
      assert Insert(x, s, key) == [s[0]] + rest;
      InsertStable(x, s[1..], key, k);
      FilterCons(s[0], rest, p);
      FilterCons(x, s[1..], p);
      FilterCons(x, s, p);
      assert Seqs.Filter(s, p) == (if p(s[0]) then [s[0]] else []) + Seqs.Filter(s[1..], p);
      assert !(p(x) && p(s[0]));
      if p(x) {
        assert Seqs.Filter(Insert(x, s, key), p) == [x] + Seqs.Filter(s[1..], p);
      } else {
        assert Seqs.Filter(Insert(x, s, key), p) == (if p(s[0]) then [s[0]] else []) + Seqs.Filter(s[1..], p);
      }
    }
  }

  /** Stability: the items with any one key keep their input order. */
  lemma {:induction false} SortByStable<T>(xs: seq<T>, key: T -> real, k: real)
    ensures Seqs.Filter(SortBy(xs, key), HasKey(key, k)) == Seqs.Filter(xs, HasKey(key, k))
  {
    if |xs| > 0 {
      var p := HasKey(key, k);
      SortByStable(xs[1..], key, k);
      InsertStable(xs[0], SortBy(xs[1..], key), key, k);
      FilterCons(xs[0], SortBy(xs[1..], key), p);
      assert xs == [xs[0]] + xs[1..];
      FilterCons(xs[0], xs[1..], p);
    }
  }

  /** `PriceLowToHigh.sort`. */
  function PriceLowToHigh(data: seq<CartItem>): seq<CartItem>
  {
    SortBy(data, Price)
  }

  /** `PriceHighToLow.sort`. */
  function PriceHighToLow(data: seq<CartItem>): seq<CartItem>
  {
    SortBy(data, NegatedPrice)
  }

  /** Low to high: a permutation of the input, ascending by price, with equally priced items in input order. */
  lemma LowToHighSpec(data: seq<CartItem>)
    ensures var r := PriceLowToHigh(data);
      multiset(r) == multiset(data) &&
      (forall i, j :: 0 <= i < j < |r| ==> r[i].price <= r[j].price) &&
      forall p :: Seqs.Filter(r, HasKey(Price, p)) == Seqs.Filter(data, HasKey(Price, p))
  {
    var r := PriceLowToHigh(data);
    SortBySorted(data, Price);
    assert forall i, j :: 0 <= i < j < |r| ==> Price(r[i]) <= Price(r[j]);
    forall p ensures Seqs.Filter(r, HasKey(Price, p)) == Seqs.Filter(data, HasKey(Price, p)) {
      SortByStable(data, Price, p);
    }
  }

  /** High to low: a permutation of the input, descending by price, with equally priced items in input order. */
  lemma HighToLowSpec(data: seq<CartItem>)
    ensures var r := PriceHighToLow(data);
      multiset(r) == multiset(data) &&
      (forall i, j :: 0 <= i < j < |r| ==> r[i].price >= r[j].price) &&
      forall p :: Seqs.Filter(r, HasKey(NegatedPrice, p)) == Seqs.Filter(data, HasKey(NegatedPrice, p))
  {
    var r := PriceHighToLow(data);
    SortBySorted(data, NegatedPrice);
    assert forall i, j :: 0 <= i < j < |r| ==> NegatedPrice(r[i]) <= NegatedPrice(r[j]);
    forall p ensures Seqs.Filter(r, HasKey(NegatedPrice, p)) == Seqs.Filter(data, HasKey(NegatedPrice, p)) {
      SortByStable(data, NegatedPrice, p);
    }
  }
}
