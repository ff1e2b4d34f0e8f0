// The Observer pattern: an order that notifies its subscribers of every status
// change, and a stock market that notifies its subscribers of every price
// change. Subscribers are objects whose own logs are updated in place.
module Observer {
  import opened Wrappers
  import Seqs

  // ---------------------------------------------------------------------
  // Order status tracker
  // ---------------------------------------------------------------------

  datatype OrderStatus = Placed | Confirmed | Preparing | Shipped | OutForDelivery | Delivered

  /** `status.value`. */
  function StatusValue(s: OrderStatus): string
  {
    match s
    case Placed => "Order Placed"
    case Confirmed => "Order Confirmed"
    case Preparing => "Preparing"
    case Shipped => "Shipped"
    case OutForDelivery => "Out for Delivery"
    case Delivered => "Delivered"
  }

  /** The notification `CustomerNotifier.update` stores. */
  function CustomerMessage(customerName: string, orderId: string, status: OrderStatus, details: string): string
  {
    "📧 Dear " + customerName + ", your order " + orderId + ": " + StatusValue(status) + ". " + details
  }

  /** The dictionary `DashboardUpdater.update` stores; the time is passed in. */
  datatype DashboardEntry = DashboardEntry(orderId: string, status: string, time: string)

  class CustomerNotifier {
    const customerName: string
    var notifications: seq<string>

    constructor (customerName: string)
      ensures this.customerName == customerName && notifications == []
    {
      this.customerName := customerName;
      notifications := [];
    }

    /** Stores exactly one notification and prints it. */
    method Update(orderId: string, status: OrderStatus, details: string) returns (printed: seq<string>)
      modifies this
      ensures notifications == old(notifications) + [CustomerMessage(customerName, orderId, status, details)]
      ensures printed == ["    " + CustomerMessage(customerName, orderId, status, details)]
    {
      var msg := CustomerMessage(customerName, orderId, status, details);
      notifications := notifications + [msg];
      printed := ["    " + msg];
    }
  }

  class DashboardUpdater {
    var updates: seq<DashboardEntry>

    constructor ()
      ensures updates == []
    {
      updates := [];
    }

    method Update(orderId: string, status: OrderStatus, details: string, now: string) returns (printed: seq<string>)
      modifies this
      ensures updates == old(updates) + [DashboardEntry(orderId, StatusValue(status), now)]
      ensures printed == ["    📊 Dashboard updated: " + orderId + " → " + StatusValue(status)]
    {
      updates := updates + [DashboardEntry(orderId, StatusValue(status), now)];
      printed := ["    📊 Dashboard updated: " + orderId + " → " + StatusValue(status)];
    }
  }

  /** What `InventoryManager.update` prints. */
  function InventoryLines(orderId: string, status: OrderStatus): (lines: seq<string>)
    ensures |lines| <= 1
    ensures |lines| == 1 <==> status == Confirmed || status == Delivered
  {
    if status == Confirmed then ["    📦 Inventory: Stock reserved for " + orderId]
    else if status == Delivered then ["    📦 Inventory: " + orderId + " completed — stock finalized"]
    else []
  }

  /** What `DeliveryTracker.update` prints. */
  function DeliveryLines(orderId: string, status: OrderStatus): (lines: seq<string>)
    ensures |lines| <= 1
    ensures |lines| == 1 <==> status in {Shipped, OutForDelivery, Delivered}
  {
    if status in {Shipped, OutForDelivery, Delivered} then ["    🚚 Delivery Team: " + orderId + " → " + StatusValue(status)]
    else []
  }

  /** The inventory manager keeps no state of its own. */
  class InventoryManager {
    constructor ()
    {
    }

    method Update(orderId: string, status: OrderStatus, details: string) returns (printed: seq<string>)
      ensures printed == InventoryLines(orderId, status)
    {
      printed := InventoryLines(orderId, status);
    }
  }

  /** The delivery tracker keeps no state of its own. */
  class DeliveryTracker {
    constructor ()
    {
    }

    method Update(orderId: string, status: OrderStatus, details: string) returns (printed: seq<string>)
      ensures printed == DeliveryLines(orderId, status)
    {
      printed := DeliveryLines(orderId, status);
    }
  }

  /** A subscriber of an order: one of the four observer objects. */
  datatype OrderObserver =
    | Customer(customer: CustomerNotifier)
    | Dashboard(dashboard: DashboardUpdater)
    | Inventory(inventory: InventoryManager)
    | Delivery(delivery: DeliveryTracker)

  function ObjectOf(o: OrderObserver): object
  {
    match o
    case Customer(c) => c
    case Dashboard(d) => d
    case Inventory(m) => m
    case Delivery(t) => t
  }

  lemma ObjectOfInjective(x: OrderObserver, y: OrderObserver)
    requires x != y
    ensures ObjectOf(x) != ObjectOf(y)
  {
  }

  /** The objects an order's subscribers may change. */
  function Footprint(observers: seq<OrderObserver>): set<object>
  {
    set i | 0 <= i < |observers| :: ObjectOf(observers[i])
  }

  /** What one subscriber prints for an update. */
  function UpdateLines(o: OrderObserver, orderId: string, status: OrderStatus, details: string): seq<string>
  {
    match o
    case Customer(c) => ["    " + CustomerMessage(c.customerName, orderId, status, details)]
    case Dashboard(_) => ["    📊 Dashboard updated: " + orderId + " → " + StatusValue(status)]
    case Inventory(_) => InventoryLines(orderId, status)
    case Delivery(_) => DeliveryLines(orderId, status)
  }

  /** What the subscribers print, in subscription order. */
  function NotifyLines(observers: seq<OrderObserver>, orderId: string, status: OrderStatus, details: string): seq<string>
  {
    if |observers| == 0 then [] else UpdateLines(observers[0], orderId, status, details) + NotifyLines(observers[1..], orderId, status, details)
  }

  lemma {:induction false} NotifyLinesAppend(observers: seq<OrderObserver>, o: OrderObserver, orderId: string, status: OrderStatus, details: string)
    ensures NotifyLines(observers + [o], orderId, status, details) == NotifyLines(observers, orderId, status, details) + UpdateLines(o, orderId, status, details)
  {
    if |observers| == 0 {
      assert observers + [o] == [o];
      assert [o][1..] == [];
    } else {
      assert (observers + [o])[1..] == observers[1..] + [o];
      NotifyLinesAppend(observers[1..], o, orderId, status, details);
    }
  }

  /** `observer.update(...)`, dispatched on the kind of subscriber. */
  method NotifyOne(o: OrderObserver, orderId: string, status: OrderStatus, details: string, now: string) returns (printed: seq<string>)
    modifies ObjectOf(o)
    ensures printed == UpdateLines(o, orderId, status, details)
    ensures o.Customer? ==> o.customer.notifications == old(o.customer.notifications) + [CustomerMessage(o.customer.customerName, orderId, status, details)]
    ensures o.Dashboard? ==> o.dashboard.updates == old(o.dashboard.updates) + [DashboardEntry(orderId, StatusValue(status), now)]
    ensures LogOf(o) == Extended(old(LogOf(o)), o, 1, orderId, status, details, now)
  {
    match o
    case Customer(c) => printed := c.Update(orderId, status, details);
    case Dashboard(d) => printed := d.Update(orderId, status, details, now);
    case Inventory(m) => printed := m.Update(orderId, status, details);
    case Delivery(t) => printed := t.Update(orderId, status, details);
  }

  /** `Order`: the subject. */
  class Order {
    const orderId: string
    var status: OrderStatus
    var observers: seq<OrderObserver>

    /** A new order is placed and has no subscribers. */
    constructor (orderId: string)
      ensures this.orderId == orderId && status == Placed && observers == []
    {
      this.orderId := orderId;
      status := Placed;
      observers := [];
    }

    method Subscribe(o: OrderObserver)
      modifies this
      ensures observers == old(observers) + [o] && status == old(status)
    {
      observers := observers + [o];
    }

    /** `list.remove`: drops the first subscription of o, or raises if o never subscribed. */
    method Unsubscribe(o: OrderObserver) returns (r: Result<()>)
      modifies this
      ensures r.Ok? <==> o in old(observers)
      ensures r.Ok? ==> observers == Seqs.RemoveFirst(old(observers), o)
      ensures r.Err? ==> observers == old(observers) && r.error == "list.remove(x): x not in list"
      ensures status == old(status)
    {
      if o in observers {
        observers := Seqs.RemoveFirst(observers, o);
        r := Ok(());
      } else {
        r := Err("list.remove(x): x not in list");
      }
    }

    /**
     * `update_status`: sets the status, then notifies every subscriber in
     * subscription order, once per subscription. Returns the printed lines;
     * the dashboard's time stamp is passed in.
     */
    method UpdateStatus(s: OrderStatus, details: string, now: string) returns (printed: seq<string>)
      modifies this, Footprint(observers)
      ensures status == s && observers == old(observers)
      ensures printed == ["\n  🔄 Order " + orderId + " status changed to: " + StatusValue(s)] + NotifyLines(observers, orderId, s, details)
      ensures forall c :: Customer(c) in observers ==>
        c.notifications == old(c.notifications) + Seqs.Repeat(CustomerMessage(c.customerName, orderId, s, details), Seqs.Count(observers, Customer(c)))
      ensures forall d :: Dashboard(d) in observers ==>
        d.updates == old(d.updates) + Seqs.Repeat(DashboardEntry(orderId, StatusValue(s), now), Seqs.Count(observers, Dashboard(d)))
    {
      status := s;
      var lines := NotifyAll(observers, orderId, s, details, now);
      printed := ["\n  🔄 Order " + orderId + " status changed to: " + StatusValue(s)] + lines;
    }
  }

  /** The log a subscriber keeps: a customer's notifications or a dashboard's updates. */
  datatype Log = Notifications(notes: seq<string>) | Updates(entries: seq<DashboardEntry>) | NoLog

  function LogOf(o: OrderObserver): Log
    reads ObjectOf(o)
  {
    match o
    case Customer(c) => Notifications(c.notifications)
    case Dashboard(d) => Updates(d.updates)
    case _ => NoLog
  }

  /** A log after k more updates of the subscriber it belongs to. */
  function Extended(log: Log, o: OrderObserver, k: nat, orderId: string, s: OrderStatus, details: string, now: string): Log
  {
    match log
    case Notifications(notes) =>
      if o.Customer? then Notifications(notes + Seqs.Repeat(CustomerMessage(o.customer.customerName, orderId, s, details), k)) else log
    case Updates(entries) =>
      if o.Dashboard? then Updates(entries + Seqs.Repeat(DashboardEntry(orderId, StatusValue(s), now), k)) else log
    case NoLog => log
  }

  lemma ExtendedSucc(log: Log, o: OrderObserver, k: nat, orderId: string, s: OrderStatus, details: string, now: string)
    ensures Extended(log, o, 0, orderId, s, details, now) == log
    ensures Extended(Extended(log, o, k, orderId, s, details, now), o, 1, orderId, s, details, now) == Extended(log, o, k + 1, orderId, s, details, now)
  {
    match log
    case Notifications(notes) =>
      if o.Customer? {
        var m := CustomerMessage(o.customer.customerName, orderId, s, details);
        Seqs.RepeatSucc(m, k);
        assert notes + Seqs.Repeat(m, k) + Seqs.Repeat(m, 1) == notes + Seqs.Repeat(m, k + 1);
      }
    case Updates(entries) =>
      if o.Dashboard? {
        var e := DashboardEntry(orderId, StatusValue(s), now);
        Seqs.RepeatSucc(e, k);
        assert entries + Seqs.Repeat(e, k) + Seqs.Repeat(e, 1) == entries + Seqs.Repeat(e, k + 1);
      }
    case NoLog =>
  }

  /** After the first n subscriptions were notified, every subscriber's log is its starting log extended once per subscription among them. */
  ghost predicate LogsAfter(observers: seq<OrderObserver>, n: nat, start: map<OrderObserver, Log>, orderId: string, s: OrderStatus, details: string, now: string)
    requires n <= |observers|
    reads Footprint(observers)
  {
    forall o :: o in observers ==>
      o in start && LogOf(o) == Extended(start[o], o, Seqs.Count(observers[..n], o), orderId, s, details, now)
  }

  /** `_notify_all`: each subscriber's `update`, in subscription order. */
  method NotifyAll(observers: seq<OrderObserver>, orderId: string, s: OrderStatus, details: string, now: string) returns (printed: seq<string>)
    modifies Footprint(observers)
    ensures printed == NotifyLines(observers, orderId, s, details)
    ensures forall c :: Customer(c) in observers ==>
      c.notifications == old(c.notifications) + Seqs.Repeat(CustomerMessage(c.customerName, orderId, s, details), Seqs.Count(observers, Customer(c)))
    ensures forall d :: Dashboard(d) in observers ==>
      d.updates == old(d.updates) + Seqs.Repeat(DashboardEntry(orderId, StatusValue(s), now), Seqs.Count(observers, Dashboard(d)))
  {
    ghost var start := map o | o in observers :: LogOf(o);
    forall o | o in observers ensures LogOf(o) == Extended(start[o], o, Seqs.Count(observers[..0], o), orderId, s, details, now) {
      ExtendedSucc(start[o], o, 0, orderId, s, details, now);
    }
    printed := [];
    var i := 0;
    while i < |observers|
      invariant 0 <= i <= |observers|
      invariant printed == NotifyLines(observers[..i], orderId, s, details)
      invariant LogsAfter(observers, i, start, orderId, s, details, now)
    {
      assert observers[..i + 1] == observers[..i] + [observers[i]];
      NotifyLinesAppend(observers[..i], observers[i], orderId, s, details);
      var lines := NotifyStep(observers, i, start, orderId, s, details, now);
      printed := printed + lines;
      i := i + 1;
    }
    assert observers[..i] == observers;
    forall c | Customer(c) in observers
      ensures c.notifications == old(c.notifications) + Seqs.Repeat(CustomerMessage(c.customerName, orderId, s, details), Seqs.Count(observers, Customer(c)))
    {
      assert LogOf(Customer(c)) == Notifications(c.notifications);
      assert start[Customer(c)] == old(LogOf(Customer(c)));
    }
    forall d | Dashboard(d) in observers
      ensures d.updates == old(d.updates) + Seqs.Repeat(DashboardEntry(orderId, StatusValue(s), now), Seqs.Count(observers, Dashboard(d)))
    {
      assert LogOf(Dashboard(d)) == Updates(d.updates);
      assert start[Dashboard(d)] == old(LogOf(Dashboard(d)));
    }
  }

  /** One turn of the loop of `_notify_all`: only the i-th subscriber's log grows, by one entry. */
  method NotifyStep(observers: seq<OrderObserver>, i: nat, ghost start: map<OrderObserver, Log>, orderId: string, s: OrderStatus, details: string, now: string)
    returns (printed: seq<string>)
    requires i < |observers|
    requires LogsAfter(observers, i, start, orderId, s, details, now)
    modifies ObjectOf(observers[i])
    ensures printed == UpdateLines(observers[i], orderId, s, details)
    ensures LogsAfter(observers, i + 1, start, orderId, s, details, now)
  {
    var o := observers[i];
    assert observers[..i + 1] == observers[..i] + [o];
    Seqs.CountSnoc(observers[..i], o);
    printed := NotifyOne(o, orderId, s, details, now);
    forall x | x in observers
      ensures x in start && LogOf(x) == Extended(start[x], x, Seqs.Count(observers[..i + 1], x), orderId, s, details, now)
    {
      if x != o {
        ObjectOfInjective(x, o);
      } else {
        ExtendedSucc(start[x], x, Seqs.Count(observers[..i], x), orderId, s, details, now);
      }
    }
  }

  /** A subscriber whose kind prints something for this status prints exactly one line, in its place. */
  lemma {:induction false} NotifyLinesCount(observers: seq<OrderObserver>, orderId: string, status: OrderStatus, details: string)
    ensures |NotifyLines(observers, orderId, status, details)| ==
      Seqs.CountWhere(observers, (o: OrderObserver) => o.Customer? || o.Dashboard?)
      + (if status == Confirmed || status == Delivered then Seqs.CountWhere(observers, (o: OrderObserver) => o.Inventory?) else 0)
      + (if status in {Shipped, OutForDelivery, Delivered} then Seqs.CountWhere(observers, (o: OrderObserver) => o.Delivery?) else 0)
  {
    if |observers| > 0 {
      NotifyLinesCount(observers[1..], orderId, status, details);
    }
  }

  // ---------------------------------------------------------------------
  // Stock price monitor
  // ---------------------------------------------------------------------

  datatype StockPrice = StockPrice(symbol: string, price: real, change: real)

  /** A price alert; its two-decimal text is not part of this model. */
  datatype Alert = Alert(name: string, symbol: string, price: real, direction: string, threshold: real)

  /** The alert fires strictly above or strictly below the threshold, as the direction says. */
  predicate Triggered(direction: string, threshold: real, price: real)
  {
    (direction == "above" && price > threshold) || (direction == "below" && price < threshold)
  }

  /** A price equal to the threshold never fires, and a direction other than "above" or "below" never fires. */
  lemma TriggeredStrict(direction: string, threshold: real, price: real)
    ensures price == threshold ==> !Triggered(direction, threshold, price)
    ensures direction != "above" && direction != "below" ==> !Triggered(direction, threshold, price)
    ensures direction == "above" ==> (Triggered(direction, threshold, price) <==> price > threshold)
    ensures direction == "below" ==> (Triggered(direction, threshold, price) <==> price < threshold)
  {
  }

  class PriceAlertObserver {
    const name: string
    const threshold: real
    const direction: string
    var alerts: seq<Alert>

    /** `direction` defaults to "above" in the source. */
    constructor (name: string, threshold: real, direction: string)
      ensures this.name == name && this.threshold == threshold && this.direction == direction && alerts == []
    {
      this.name := name;
      this.threshold := threshold;
      this.direction := direction;
      alerts := [];
    }

    method OnPriceChange(stock: StockPrice)
      modifies this
      ensures alerts == old(alerts) + (if Triggered(direction, threshold, stock.price) then [AlertFor(this, stock)] else [])
    {
      if Triggered(direction, threshold, stock.price) {
        alerts := alerts + [Alert(name, stock.symbol, stock.price, direction, threshold)];
      }
    }
  }

  function AlertFor(a: PriceAlertObserver, stock: StockPrice): Alert
  {
    Alert(a.name, stock.symbol, stock.price, a.direction, a.threshold)
  }

  class PortfolioTracker {
    var holdings: map<string, int>
    var prices: map<string, real>

    constructor ()
      ensures holdings == map[] && prices == map[]
    {
      holdings := map[];
      prices := map[];
    }

    method AddHolding(symbol: string, quantity: int)
      modifies this
      ensures holdings == old(holdings)[symbol := quantity] && prices == old(prices)
    {
      holdings := holdings[symbol := quantity];
    }

    /** Records the latest price; the printed portfolio value is not part of this model. */
    method OnPriceChange(stock: StockPrice)
      modifies this
      ensures prices == old(prices)[stock.symbol := stock.price] && holdings == old(holdings)
    {
      prices := prices[stock.symbol := stock.price];
    }
  }

  datatype StockObserver = AlertOn(alert: PriceAlertObserver) | Portfolio(portfolio: PortfolioTracker)

  function StockObjectOf(o: StockObserver): object
  {
    match o
    case AlertOn(a) => a
    case Portfolio(p) => p
  }

  function StockFootprint(observers: seq<StockObserver>): set<object>
  {
    set i | 0 <= i < |observers| :: StockObjectOf(observers[i])
  }

  /** The change `update_price` records: against the stored price, or zero for a symbol seen for the first time. */
  function PriceChange(stocks: map<string, StockPrice>, symbol: string, newPrice: real): (change: real)
    ensures symbol !in stocks ==> change == 0.0
    ensures symbol in stocks ==> stocks[symbol].price + change == newPrice
  {
    var oldPrice := if symbol in stocks then stocks[symbol].price else newPrice;
    newPrice - oldPrice
  }

  /** The changes recorded for one symbol over a run of prices, given the price stored before them. */
  function Changes(previous: Option<real>, prices: seq<real>): seq<real>
    decreases |prices|
  {
    if |prices| == 0 then []
    else
      var change := if previous.Some? then prices[0] - previous.value else 0.0;
      [change] + Changes(Some(prices[0]), prices[1..])
  }

  /** `Changes` replays `update_price`: its first entry is the change recorded against the stored price, and the price it then stores is the next one compared against. */
  lemma ChangesReplayUpdates(stocks: map<string, StockPrice>, symbol: string, prices: seq<real>)
    requires |prices| > 0
    ensures var previous := if symbol in stocks then Some(stocks[symbol].price) else None;
      Changes(previous, prices)[0] == PriceChange(stocks, symbol, prices[0]) &&
      Changes(previous, prices)[1..] == Changes(Some(prices[0]), prices[1..])
    ensures var stored := stocks[symbol := StockPrice(symbol, prices[0], PriceChange(stocks, symbol, prices[0]))];
      stored[symbol].price == prices[0]
  {
  }

  /** The changes recorded after a first price add up to the last price less that one. */
  lemma {:induction false} ChangesTelescope(first: real, prices: seq<real>)
    requires |prices| > 0
    ensures Seqs.Sum(Changes(Some(first), prices)) == prices[|prices| - 1] - first
    decreases |prices|
  {
    if |prices| > 1 {
      ChangesTelescope(prices[0], prices[1..]);
    }
  }

  /** For a new symbol the first change is zero and all changes add up to the last price less the first. */
  lemma NewSymbolChanges(prices: seq<real>)
    requires |prices| > 0
    ensures Changes(None, prices)[0] == 0.0
    ensures Seqs.Sum(Changes(None, prices)) == prices[|prices| - 1] - prices[0]
  {
    if |prices| > 1 {
      ChangesTelescope(prices[0], prices[1..]);
    }
  }

  /** `StockMarket`: the latest price of each symbol and the subscribers. */
  class StockMarket {
    var stocks: map<string, StockPrice>
    var observers: seq<StockObserver>

    constructor ()
      ensures stocks == map[] && observers == []
    {
      stocks := map[];
      observers := [];
    }

    method Subscribe(o: StockObserver)
      modifies this
      ensures observers == old(observers) + [o] && stocks == old(stocks)
    {
      observers := observers + [o];
    }

    /**
     * `update_price`: stores the new price with its change, then has every
     * subscriber react to it, once per subscription.
     */
    method UpdatePrice(symbol: string, newPrice: real)
      modifies this, StockFootprint(observers)
      ensures observers == old(observers)
      ensures stocks == old(stocks)[symbol := StockPrice(symbol, newPrice, PriceChange(old(stocks), symbol, newPrice))]
      ensures forall a :: AlertOn(a) in observers ==>
        a.alerts == old(a.alerts) +
          (if Triggered(a.direction, a.threshold, newPrice)
           then Seqs.Repeat(AlertFor(a, stocks[symbol]), Seqs.Count(observers, AlertOn(a))) else [])
      ensures forall p :: Portfolio(p) in observers ==>
        p.prices == old(p.prices)[symbol := newPrice] && p.holdings == old(p.holdings)
    {
      var stock := StockPrice(symbol, newPrice, PriceChange(stocks, symbol, newPrice));
      stocks := stocks[symbol := stock];
      NotifyPrice(observers, stock);
    }
  }

  /** What a stock subscriber keeps: an alert observer's alerts, or a portfolio's holdings and latest prices. */
  datatype StockLog = Alerts(alerts: seq<Alert>) | Holdings(holdings: map<string, int>, prices: map<string, real>)

  function StockLogOf(o: StockObserver): StockLog
    reads StockObjectOf(o)
  {
    match o
    case AlertOn(a) => Alerts(a.alerts)
    case Portfolio(p) => Holdings(p.holdings, p.prices)
  }

  /** A subscriber's state after reacting k times to the same price. */
  function Reacted(log: StockLog, o: StockObserver, k: nat, stock: StockPrice): StockLog
  {
    match log
    case Alerts(alerts) =>
      if o.AlertOn? && Triggered(o.alert.direction, o.alert.threshold, stock.price)
      then Alerts(alerts + Seqs.Repeat(AlertFor(o.alert, stock), k)) else log
    case Holdings(holdings, prices) =>
      if k > 0 then Holdings(holdings, prices[stock.symbol := stock.price]) else log
  }

  lemma ReactedSucc(log: StockLog, o: StockObserver, k: nat, stock: StockPrice)
    ensures Reacted(log, o, 0, stock) == log
    ensures Reacted(Reacted(log, o, k, stock), o, 1, stock) == Reacted(log, o, k + 1, stock)
  {
    match log
    case Alerts(alerts) =>
      if o.AlertOn? && Triggered(o.alert.direction, o.alert.threshold, stock.price) {
        var m := AlertFor(o.alert, stock);
        Seqs.RepeatSucc(m, k);
        assert alerts + Seqs.Repeat(m, k) + Seqs.Repeat(m, 1) == alerts + Seqs.Repeat(m, k + 1);
      }
    case Holdings(holdings, prices) =>
  }

  lemma StockObjectOfInjective(x: StockObserver, y: StockObserver)
    requires x != y
    ensures StockObjectOf(x) != StockObjectOf(y)
  {
  }

  ghost predicate ReactedAfter(observers: seq<StockObserver>, n: nat, start: map<StockObserver, StockLog>, stock: StockPrice)
    requires n <= |observers|
    reads StockFootprint(observers)
  {
    forall o :: o in observers ==>
      o in start && StockLogOf(o) == Reacted(start[o], o, Seqs.Count(observers[..n], o), stock)
  }

  /** `observer.on_price_change(stock)`, dispatched on the kind of subscriber. */
  method ReactOne(o: StockObserver, stock: StockPrice)
    modifies StockObjectOf(o)
    ensures StockLogOf(o) == Reacted(old(StockLogOf(o)), o, 1, stock)
  {
    match o
    case AlertOn(a) => a.OnPriceChange(stock);
    case Portfolio(p) => p.OnPriceChange(stock);
  }

  /** One turn of the loop of `update_price`. */
  method ReactStep(observers: seq<StockObserver>, i: nat, ghost start: map<StockObserver, StockLog>, stock: StockPrice)
    requires i < |observers|
    requires ReactedAfter(observers, i, start, stock)
    modifies StockObjectOf(observers[i])
    ensures ReactedAfter(observers, i + 1, start, stock)
  {
    var o := observers[i];
    assert observers[..i + 1] == observers[..i] + [o];
    Seqs.CountSnoc(observers[..i], o);
    ReactOne(o, stock);
    forall x | x in observers
      ensures x in start && StockLogOf(x) == Reacted(start[x], x, Seqs.Count(observers[..i + 1], x), stock)
    {
      if x != o {
        StockObjectOfInjective(x, o);
      } else {
        ReactedSucc(start[x], x, Seqs.Count(observers[..i], x), stock);
      }
    }
  }

  /** The loop of `update_price`: each subscriber's `on_price_change`, in subscription order. */
  method NotifyPrice(observers: seq<StockObserver>, stock: StockPrice)
    modifies StockFootprint(observers)
    ensures forall a :: AlertOn(a) in observers ==>
      a.alerts == old(a.alerts) +
        (if Triggered(a.direction, a.threshold, stock.price)
         then Seqs.Repeat(AlertFor(a, stock), Seqs.Count(observers, AlertOn(a))) else [])
    ensures forall p :: Portfolio(p) in observers ==>
      p.prices == old(p.prices)[stock.symbol := stock.price] && p.holdings == old(p.holdings)
  {
    ghost var start := map o | o in observers :: StockLogOf(o);
    forall o | o in observers ensures StockLogOf(o) == Reacted(start[o], o, Seqs.Count(observers[..0], o), stock) {
      ReactedSucc(start[o], o, 0, stock);
    }
    var i := 0;
    while i < |observers|
      invariant 0 <= i <= |observers|
      invariant ReactedAfter(observers, i, start, stock)
    {
      ReactStep(observers, i, start, stock);
      i := i + 1;
    }
    assert observers[..i] == observers;
    forall a | AlertOn(a) in observers
      ensures a.alerts == old(a.alerts) +
        (if Triggered(a.direction, a.threshold, stock.price)
         then Seqs.Repeat(AlertFor(a, stock), Seqs.Count(observers, AlertOn(a))) else [])
    {
      assert StockLogOf(AlertOn(a)) == Alerts(a.alerts);
      assert start[AlertOn(a)] == old(StockLogOf(AlertOn(a)));
    }
    forall p | Portfolio(p) in observers
      ensures p.prices == old(p.prices)[stock.symbol := stock.price] && p.holdings == old(p.holdings)
    {
      assert StockLogOf(Portfolio(p)) == Holdings(p.holdings, p.prices);
      assert start[Portfolio(p)] == old(StockLogOf(Portfolio(p)));
      assert Seqs.Count(observers, Portfolio(p)) > 0;
    }
  }
}
