// Polymorphism: shapes answering the same area and perimeter questions in
// their own way, and a money value whose arithmetic operators refuse to mix
// currencies while its ordering looks at amounts only.
module Polymorphism {
  import opened Wrappers

  // ---------------------------------------------------------------------
  // Shapes
  // ---------------------------------------------------------------------

  /** The shapes whose measures are exact; the circle is not part of this model. */
  datatype Shape = Rectangle(width: real, height: real) | Triangle(a: real, b: real, c: real)

  /** `perimeter`: twice width plus height for a rectangle, the sum of the sides for a triangle. */
  function Perimeter(s: Shape): real
  {
    match s
    case Rectangle(w, h) => 2.0 * (w + h)
    case Triangle(a, b, c) => a + b + c
  }

  /** `Rectangle.area`. */
  function RectangleArea(s: Shape): real
    requires s.Rectangle?
  {
    s.width * s.height
  }

  /** Every side multiplied by `k`. */
  function Scale(s: Shape, k: real): Shape
  {
    match s
    case Rectangle(w, h) => Rectangle(k * w, k * h)
    case Triangle(a, b, c) => Triangle(k * a, k * b, k * c)
  }

  /** Scaling the sides scales the perimeter by the same factor. */
  lemma ScalePerimeter(s: Shape, k: real)
    ensures Perimeter(Scale(s, k)) == k * Perimeter(s)
  {
  }

  /** Scaling the sides scales a rectangle's area by the square of the factor. */
  lemma {:induction false} ScaleRectangleArea(w: real, h: real, k: real)
    ensures RectangleArea(Scale(Rectangle(w, h), k)) == k * k * RectangleArea(Rectangle(w, h))
  {
    assert (k * w) * (k * h) == k * k * (w * h);
  }

  /** No rectangle has a larger area than the square with the same perimeter. */
  lemma {:induction false} RectangleAreaBound(w: real, h: real)
    ensures 16.0 * RectangleArea(Rectangle(w, h)) <= Perimeter(Rectangle(w, h)) * Perimeter(Rectangle(w, h))
    ensures w == h ==> 16.0 * RectangleArea(Rectangle(w, h)) == Perimeter(Rectangle(w, h)) * Perimeter(Rectangle(w, h))
  {
    var p := Perimeter(Rectangle(w, h));
    var x := w - h;
    assert p * p - 16.0 * RectangleArea(Rectangle(w, h)) == 4.0 * (x * x);
    if x < 0.0 {
      assert x * x == (-x) * (-x);
    }
  }

  // ---------------------------------------------------------------------
  // Money
  // ---------------------------------------------------------------------

  datatype Money = Money(amount: real, currency: string)

  const DefaultCurrency := "USD"

  /** `+`: the summed amount in the shared currency, or the mixed-currency error. */
  function Add(x: Money, y: Money): (r: Result<Money>)
    ensures r.Ok? <==> x.currency == y.currency
    ensures r.Ok? ==> r.value.amount == x.amount + y.amount && r.value.currency == x.currency
    ensures r.Err? ==> r.error == "Cannot add " + x.currency + " and " + y.currency
  {
    if x.currency != y.currency then Err("Cannot add " + x.currency + " and " + y.currency)
    else Ok(Money(x.amount + y.amount, x.currency))
  }

  /** `-`: the difference in the shared currency, or the mixed-currency error. */
  function Sub(x: Money, y: Money): (r: Result<Money>)
    ensures r.Ok? <==> x.currency == y.currency
    ensures r.Ok? ==> r.value.amount == x.amount - y.amount && r.value.currency == x.currency
    ensures r.Err? ==> r.error == "Cannot subtract " + x.currency + " and " + y.currency
  {
    if x.currency != y.currency then Err("Cannot subtract " + x.currency + " and " + y.currency)
    else Ok(Money(x.amount - y.amount, x.currency))
  }

  /** `*`: the amount times the factor, in the same currency. */
  function Mul(x: Money, factor: real): (r: Money)
    ensures r.currency == x.currency
  {
    Money(x.amount * factor, x.currency)
  }

  /** `==`: both the amount and the currency agree. */
  predicate Eq(x: Money, y: Money)
  {
    x.amount == y.amount && x.currency == y.currency
  }

  /** `<` and `>` compare the amounts only. */
  predicate Less(x: Money, y: Money)
  {
    x.amount < y.amount
  }

  predicate Greater(x: Money, y: Money)
  {
    x.amount > y.amount
  }

  /** `==` is equality of the values. */
  lemma EqIsEquality(x: Money, y: Money)
    ensures Eq(x, y) <==> x == y
  {
  }

  /** The ordering ignores the currency: amounts in different currencies are still ordered. */
  lemma {:induction false} OrderIgnoresCurrency(x: Money, y: Money, c: string, d: string)
    ensures Less(x, y) == Less(x.(currency := c), y.(currency := d))
    ensures Greater(x, y) <==> Less(y, x)
    ensures x.currency != y.currency ==> !Eq(x, y)
  {
  }

  /** Subtracting what was added gives back the original money. */
  lemma {:induction false} AddThenSub(x: Money, y: Money)
    requires x.currency == y.currency
    ensures Add(x, y).Ok? && Sub(Add(x, y).value, y) == Ok(x)
  {
    assert Add(x, y).value == Money(x.amount + y.amount, x.currency);
  }

  /** Adding works in either order with the same result. */
  lemma AddCommutes(x: Money, y: Money)
    requires x.currency == y.currency
    ensures Add(x, y) == Add(y, x)
  {
  }

  /** Scaling a sum is the sum of the scaled amounts. */
  lemma {:induction false} MulDistributesOverAdd(x: Money, y: Money, k: real)
    requires x.currency == y.currency
    ensures Add(x, y).Ok? && Add(Mul(x, k), Mul(y, k)) == Ok(Mul(Add(x, y).value, k))
  {
    var mx, my := Mul(x, k), Mul(y, k);
    assert mx == Money(x.amount * k, x.currency);
    assert my == Money(y.amount * k, x.currency);
    assert Add(mx, my).Ok?;
    assert Add(mx, my).value.amount == x.amount * k + y.amount * k;
    assert (x.amount + y.amount) * k == x.amount * k + y.amount * k;
    assert Mul(Add(x, y).value, k) == Money((x.amount + y.amount) * k, x.currency);
    assert Add(mx, my) == Ok(Money(x.amount * k + y.amount * k, x.currency));
  }

  /** Mixed currencies are refused by both operators, whatever the amounts. */
  lemma MixedCurrenciesFail(x: Money, y: Money)
    requires x.currency != y.currency
    ensures Add(x, y).Err? && Sub(x, y).Err? && Add(y, x).Err?
  {
  }

  /** The demonstration: 29.99 + 5.40 is 35.39 dollars, doubled 70.78, and the price compares greater than the tax. */
  lemma DemoMoney()
    ensures Add(Money(29.99, DefaultCurrency), Money(5.40, DefaultCurrency)) == Ok(Money(35.39, DefaultCurrency))
    ensures Mul(Money(35.39, DefaultCurrency), 2.0) == Money(70.78, DefaultCurrency)
    ensures Greater(Money(29.99, DefaultCurrency), Money(5.40, DefaultCurrency))
    ensures Eq(Money(29.99, DefaultCurrency), Money(29.99, DefaultCurrency))
  {
  }
}
