// The Decorator pattern: coffee add-ons that wrap a basic coffee, and web
// middleware layers that wrap a request handler. A wrapper delegates to the
// object it wraps and adds its own cost, text or check.
module Decorator {

  // ---------------------------------------------------------------------
  // Coffee
  // ---------------------------------------------------------------------

  const BasicPrice: real := 2.00

  datatype AddOn = Milk | Sugar | WhippedCream | Caramel

  /** A basic coffee, or a coffee wrapped by one more add-on decorator. */
  datatype Coffee = Basic | Decorated(inner: Coffee, addOn: AddOn)

  function Price(a: AddOn): real
  {
    match a
    case Milk => 0.50
    case Sugar => 0.25
    case WhippedCream => 0.75
    case Caramel => 0.60
  }

  function Name(a: AddOn): string
  {
    match a
    case Milk => "Milk"
    case Sugar => "Sugar"
    case WhippedCream => "Whipped Cream"
    case Caramel => "Caramel"
  }

  /** `get_cost`: each decorator adds its price to the coffee it wraps. */
  function Cost(c: Coffee): (r: real)
    ensures r >= BasicPrice
  {
    match c
    case Basic => BasicPrice
    case Decorated(inner, a) => Cost(inner) + Price(a)
  }

  /** `get_description`: each decorator appends " + name" to the description it wraps. */
  function Description(c: Coffee): string
  {
    match c
    case Basic => "Basic Coffee"
    case Decorated(inner, a) => Description(inner) + " + " + Name(a)
  }

  /** Wrapping a basic coffee in these add-ons, innermost first. */
  function Wrap(addOns: seq<AddOn>): (c: Coffee)
    decreases |addOns|
  {
    if addOns == [] then Basic else Decorated(Wrap(addOns[..|addOns| - 1]), addOns[|addOns| - 1])
  }

  /** The add-ons of a coffee, innermost first. */
  function AddOns(c: Coffee): (r: seq<AddOn>)
  {
    match c
    case Basic => []
    case Decorated(inner, a) => AddOns(inner) + [a]
  }

  /** Every coffee is some sequence of add-ons around the basic one, and wrapping recovers it. */
  lemma {:induction false} WrapAddOns(c: Coffee)
    ensures Wrap(AddOns(c)) == c
  {
    match c
    case Basic =>
    case Decorated(inner, a) =>
      WrapAddOns(inner);
      assert AddOns(c)[..|AddOns(c)| - 1] == AddOns(inner);
  }

  lemma {:induction false} AddOnsWrap(addOns: seq<AddOn>)
    ensures AddOns(Wrap(addOns)) == addOns
    decreases |addOns|
  {
    if addOns != [] {
      AddOnsWrap(addOns[..|addOns| - 1]);
    }
  }

  function Suffixes(addOns: seq<AddOn>): string
    decreases |addOns|
  {
    if addOns == [] then "" else Suffixes(addOns[..|addOns| - 1]) + " + " + Name(addOns[|addOns| - 1])
  }

  /** The description is "Basic Coffee" followed by one " + name" per add-on, innermost first. */
  lemma {:induction false} DescriptionOfWrap(addOns: seq<AddOn>)
    ensures Description(Wrap(addOns)) == "Basic Coffee" + Suffixes(addOns)
    decreases |addOns|
  {
    if addOns != [] {
      DescriptionOfWrap(addOns[..|addOns| - 1]);
    }
  }

  /** The cost counts each kind of add-on with its price. */
  lemma {:induction false} CostByCounts(addOns: seq<AddOn>)
    ensures Cost(Wrap(addOns)) == BasicPrice
      + 0.50 * multiset(addOns)[Milk] as real + 0.25 * multiset(addOns)[Sugar] as real
      + 0.75 * multiset(addOns)[WhippedCream] as real + 0.60 * multiset(addOns)[Caramel] as real
    decreases |addOns|
  {
    if addOns != [] {
      var init := addOns[..|addOns| - 1];
      CostByCounts(init);
      assert addOns == init + [addOns[|addOns| - 1]];
    }
  }

  /** The cost is the same whatever order the same add-ons are wrapped in. */
  lemma CostIgnoresOrder(xs: seq<AddOn>, ys: seq<AddOn>)
    requires multiset(xs) == multiset(ys)
    ensures Cost(Wrap(xs)) == Cost(Wrap(ys))
  {
    CostByCounts(xs);
    CostByCounts(ys);
  }

  /** The demo's fully loaded coffee. */
  lemma EverythingCoffee()
    ensures Cost(Wrap([Milk, Sugar, WhippedCream, Caramel])) == 4.10
    ensures Description(Wrap([Milk, Sugar, WhippedCream, Caramel])) == "Basic Coffee + Milk + Sugar + Whipped Cream + Caramel"
  {
    WrapFour(Milk, Sugar, WhippedCream, Caramel);
    var c1 := Decorated(Basic, Milk);
    var c2 := Decorated(c1, Sugar);
    var c3 := Decorated(c2, WhippedCream);
    assert Description(c1) == "Basic Coffee + Milk";
    assert Description(c2) == "Basic Coffee + Milk + Sugar";
    assert Description(c3) == "Basic Coffee + Milk + Sugar + Whipped Cream";
  }

  lemma WrapFour(a: AddOn, b: AddOn, c: AddOn, d: AddOn)
    ensures Wrap([a, b, c, d]) == Decorated(Decorated(Decorated(Decorated(Basic, a), b), c), d)
  {
    var xs := [a, b, c, d];
    assert xs[..3] == [a, b, c];
    assert xs[..3][..2] == [a, b];
    assert xs[..3][..2][..1] == [a];
    assert Wrap([a]) == Decorated(Basic, a);
    assert Wrap([a, b]) == Decorated(Wrap([a]), b);
    assert Wrap([a, b, c]) == Decorated(Wrap([a, b]), c);
  }

  // ---------------------------------------------------------------------
  // Middleware pipeline
  // ---------------------------------------------------------------------

  datatype Request = Request(path: string, body: string, headers: map<string, string>)
  datatype Response = Response(status: int, body: string)

  /**
   * A handler and the middleware wrapped around it, with the state each layer
   * keeps: the logging layer's list of entries and the rate limiter's counter.
   */
  datatype Handler =
    | BasicHandler
    | Logging(inner: Handler, logged: seq<string>)
    | Auth(inner: Handler)
    | RateLimit(inner: Handler, maxRequests: int, count: int)

  /** The handler has the same layers in the same order, whatever their state. */
  predicate SameLayers(a: Handler, b: Handler)
  {
    match a
    case BasicHandler => b.BasicHandler?
    case Logging(inner, _) => b.Logging? && SameLayers(inner, b.inner)
    case Auth(inner) => b.Auth? && SameLayers(inner, b.inner)
    case RateLimit(inner, m, _) => b.RateLimit? && b.maxRequests == m && SameLayers(inner, b.inner)
  }

  /** `request.headers.get("Authorization")` is present and not empty. */
  predicate HasToken(req: Request)
  {
    "Authorization" in req.headers && req.headers["Authorization"] != ""
  }

  datatype Handled = Handled(next: Handler, response: Response)

  /** `handle` on each layer; the result carries the layers' new state. */
  function Handle(h: Handler, req: Request): (o: Handled)
    ensures SameLayers(h, o.next)
  {
    match h
    case BasicHandler => Handled(h, Response(200, "OK: Handled " + req.path))
    case Logging(inner, logged) =>
      var o := Handle(inner, req);
      Handled(Logging(o.next, logged + ["📝 LOG: " + req.path]), o.response)
    case Auth(inner) =>
      if !HasToken(req) then
        SameLayersReflexive(inner);
        Handled(h, Response(401, "Unauthorized: No auth token provided"))
      else
        var o := Handle(inner, req);
        Handled(Auth(o.next), o.response)
    case RateLimit(inner, maxRequests, count) =>
      if count + 1 > maxRequests then
        SameLayersReflexive(inner);
        Handled(RateLimit(inner, maxRequests, count + 1), Response(429, "Too Many Requests"))
      else
        var o := Handle(inner, req);
        Handled(RateLimit(o.next, maxRequests, count + 1), o.response)
  }

  lemma {:induction false} SameLayersReflexive(h: Handler)
    ensures SameLayers(h, h)
  {
    match h
    case BasicHandler =>
    case Logging(inner, _) => SameLayersReflexive(inner);
    case Auth(inner) => SameLayersReflexive(inner);
    case RateLimit(inner, _, _) => SameLayersReflexive(inner);
  }

  /** The logging layer records exactly one entry per request and always delegates. */
  lemma LoggingRecordsOnce(inner: Handler, logged: seq<string>, req: Request)
    ensures var o := Handle(Logging(inner, logged), req);
      o.next.logged == logged + ["📝 LOG: " + req.path] && o.response == Handle(inner, req).response
  {
  }

  /** The auth layer answers 401 without delegating iff the token is missing or empty. */
  lemma AuthGate(inner: Handler, req: Request)
    ensures var o := Handle(Auth(inner), req);
      (!HasToken(req) <==> o.response.status == 401 && o.next == Auth(inner)) &&
      (HasToken(req) ==> o.response == Handle(inner, req).response)
  {
    if HasToken(req) {
      assert Handle(Auth(inner), req).response == Handle(inner, req).response;
      HandledStatus(inner, req);
    }
  }

  /** Every response status is 200, 401 or 429, and a request carrying a token is never answered 401. */
  lemma {:induction false} HandledStatus(h: Handler, req: Request)
    ensures var s := Handle(h, req).response.status; s == 200 || s == 401 || s == 429
    ensures HasToken(req) ==> Handle(h, req).response.status != 401
  {
    match h
    case BasicHandler =>
    case Logging(inner, _) => HandledStatus(inner, req);
    case Auth(inner) => HandledStatus(inner, req);
    case RateLimit(inner, _, _) => HandledStatus(inner, req);
  }

  /** The rate limiter counts every request and turns away those above the maximum without delegating. */
  lemma RateLimitCounts(inner: Handler, maxRequests: int, count: int, req: Request)
    ensures var o := Handle(RateLimit(inner, maxRequests, count), req);
      o.next.count == count + 1 &&
      (count + 1 > maxRequests ==> o.next.inner == inner && o.response == Response(429, "Too Many Requests")) &&
      (count + 1 <= maxRequests ==> o.next.inner == Handle(inner, req).next && o.response == Handle(inner, req).response)
  {
  }

  /** The demo's pipeline: rate limit of 3 around auth around logging around the basic handler. */
  function DemoPipeline(count: int, logged: seq<string>): Handler
  {
    RateLimit(Auth(Logging(BasicHandler, logged)), 3, count)
  }

  /** A request under the limit that carries a token reaches the basic handler, gets 200 and is logged once. */
  lemma DemoPipelineServes(count: int, logged: seq<string>, req: Request)
    requires count < 3 && HasToken(req)
    ensures var o := Handle(DemoPipeline(count, logged), req);
      o.response == Response(200, "OK: Handled " + req.path) &&
      o.next == DemoPipeline(count + 1, logged + ["📝 LOG: " + req.path])
  {
    var logging := Logging(BasicHandler, logged);
    assert Handle(logging, req) == Handled(Logging(BasicHandler, logged + ["📝 LOG: " + req.path]), Response(200, "OK: Handled " + req.path));
    assert Handle(Auth(logging), req) == Handled(Auth(Handle(logging, req).next), Handle(logging, req).response);
  }

  /** A request without a token under the limit is refused with 401 and reaches no logging. */
  lemma DemoPipelineRefusesAnonymous(count: int, logged: seq<string>, req: Request)
    requires count < 3 && !HasToken(req)
    ensures var o := Handle(DemoPipeline(count, logged), req);
      o.response.status == 401 && o.next == DemoPipeline(count + 1, logged)
  {
  }
}
