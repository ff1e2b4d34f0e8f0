// The Facade pattern: one `place_order` call that checks stock, prices the
// order, screens it for fraud, charges the card, reserves the stock and
// creates the shipment, using five subsystem services.
module Facade {
  import opened Wrappers
  import Text

  const PricePerUnit: real := 99.99
  const ShippingBase: real := 5.99
  const ShippingPerKg: real := 2.50
  const FraudLimit: real := 10000.0
  const CardLength := 16

  // ---------------------------------------------------------------------
  // Inventory
  // ---------------------------------------------------------------------

  const InitialStock: map<string, int> := map["LAPTOP-001" := 10, "PHONE-002" := 25, "HEADPHONE-003" := 50]

  /** `self._stock.get(product_id, 0)`. */
  function Available(stock: map<string, int>, productId: string): (n: int)
    ensures productId !in stock ==> n == 0
    ensures productId in stock ==> n == stock[productId]
  {
    if productId in stock then stock[productId] else 0
  }

  predicate CheckStock(stock: map<string, int>, productId: string, quantity: int)
  {
    Available(stock, productId) >= quantity
  }

  /**
   * What `reserve_stock` does to the table: a reservation that passes the check
   * decrements the product, one that fails changes nothing, and one that passes
   * the check for an unknown product (a quantity of zero or less) raises KeyError.
   */
  datatype Reservation = Reserved(stock: map<string, int>) | Refused | MissingKey(key: string)

  function Reserve(stock: map<string, int>, productId: string, quantity: int): (r: Reservation)
    ensures r.Refused? <==> !CheckStock(stock, productId, quantity)
    ensures r.MissingKey? <==> productId !in stock && quantity <= 0
    ensures r.MissingKey? ==> r.key == productId
    ensures r.Reserved? ==> productId in r.stock && r.stock.Keys == stock.Keys
    ensures r.Reserved? ==> r.stock[productId] == stock[productId] - quantity
    ensures r.Reserved? ==> forall p :: p in stock && p != productId ==> r.stock[p] == stock[p]
  {
    if !CheckStock(stock, productId, quantity) then Refused
    else if productId !in stock then MissingKey(productId)
    else Reserved(stock[productId := stock[productId] - quantity])
  }

  /** A reservation of a positive quantity never takes a product below zero. */
  lemma ReserveKeepsStockNonNegative(stock: map<string, int>, productId: string, quantity: int)
    requires forall p :: p in stock ==> stock[p] >= 0
    requires quantity > 0
    ensures Reserve(stock, productId, quantity).Reserved? ==>
      forall p :: p in Reserve(stock, productId, quantity).stock ==> Reserve(stock, productId, quantity).stock[p] >= 0
  {
  }

  class InventoryService {
    var stock: map<string, int>

    constructor ()
      ensures stock == InitialStock
    {
      stock := InitialStock;
    }

    method CheckStock(productId: string, quantity: int) returns (ok: bool)
      ensures ok <==> Available(stock, productId) >= quantity
    {
      ok := Available(stock, productId) >= quantity;
    }

    /** Ok(true) when reserved, Ok(false) when refused, Err(key) for the KeyError. */
    method ReserveStock(productId: string, quantity: int) returns (r: Result<bool>)
      modifies this
      ensures var res := Reserve(old(stock), productId, quantity);
        (res.Reserved? ==> r == Ok(true) && stock == res.stock) &&
        (res.Refused? ==> r == Ok(false) && stock == old(stock)) &&
        (res.MissingKey? ==> r == Err(productId) && stock == old(stock))
    {
      var ok := CheckStock(productId, quantity);
      if ok {
        if productId in stock {
          stock := stock[productId := stock[productId] - quantity];
          r := Ok(true);
        } else {
          r := Err(productId);
        }
      } else {
        r := Ok(false);
      }
    }

    method GetStock(productId: string) returns (n: int)
      ensures n == Available(stock, productId)
    {
      n := Available(stock, productId);
    }
  }

  // ---------------------------------------------------------------------
  // Payment, shipping, e-mail and fraud services
  // ---------------------------------------------------------------------

  /** `validate_card`: sixteen characters once the spaces are removed. */
  function ValidateCard(cardNumber: string): (ok: bool)
    ensures ok ==> |cardNumber| >= CardLength
    ensures ok ==> ' ' !in Text.RemoveChar(cardNumber, ' ')
  {
    |Text.RemoveChar(cardNumber, ' ')| == CardLength
  }

  /** A card is valid exactly when it holds sixteen characters other than spaces. */
  lemma CardCountsNonSpaces(cardNumber: string)
    ensures ValidateCard(cardNumber) <==> |cardNumber| - multiset(cardNumber)[' '] == CardLength
  {
    Text.RemoveCharLength(cardNumber, ' ');
  }

  /** Where the spaces go does not matter: inserting one never changes the verdict. */
  lemma CardSpacesIgnored(a: string, b: string)
    ensures ValidateCard(a + " " + b) == ValidateCard(a + b)
  {
    Text.RemoveCharAppend(a + " ", b, ' ');
    Text.RemoveCharAppend(a, " ", ' ');
    Text.RemoveCharAppend(a, b, ' ');
    assert Text.RemoveChar(" ", ' ') == "";
  }

  /** The demonstration's card number, "4111 1111 1111 1111". */
  const TestCard := "4111" + " " + CardGroup + " " + CardGroup + " " + CardGroup
  const CardGroup := "1111"

  /** The grouped sixteen-digit number of the demo is accepted and a four-digit one is not. */
  lemma DemoCards()
    ensures ValidateCard(TestCard)
    ensures !ValidateCard("1234")
  {
    var g := CardGroup;
    assert TestCard == "4111" + " " + (g + " " + g + " " + g);
    CardSpacesIgnored("4111", g + " " + g + " " + g);
    assert "4111" + (g + " " + g + " " + g) == ("4111" + g) + " " + (g + " " + g);
    CardSpacesIgnored("4111" + g, g + " " + g);
    assert ("4111" + g) + (g + " " + g) == ("4111" + g + g) + " " + g;
    CardSpacesIgnored("4111" + g + g, g);
    Text.RemoveCharAbsent("4111" + g + g + g, ' ');
    Text.RemoveCharAbsent("1234", ' ');
  }

  /** The result of `charge`; the hash-derived transaction id is not part of this model. */
  datatype Payment = Charged(amount: real) | Declined(error: string)

  function Charge(cardNumber: string, amount: real): (p: Payment)
    ensures p.Charged? <==> ValidateCard(cardNumber)
    ensures p.Charged? ==> p.amount == amount
    ensures p.Declined? ==> p.error == "Invalid card number"
  {
    if !ValidateCard(cardNumber) then Declined("Invalid card number") else Charged(amount)
  }

  /** `refund` always succeeds and names the transaction. */
  function Refund(transactionId: string): string
  {
    "Refund issued for " + transactionId
  }

  /** `calculate_shipping`: a base cost plus a rate per kilogram. */
  function ShippingCost(weight: real): (c: real)
    ensures weight >= 0.0 ==> c >= ShippingBase
    ensures c - ShippingBase == weight * ShippingPerKg
  {
    ShippingBase + weight * ShippingPerKg
  }

  /** `check_transaction`: amounts up to 10 000 pass. */
  function CheckTransaction(amount: real): (ok: bool)
    ensures ok <==> amount <= FraudLimit
  {
    amount <= FraudLimit
  }

  function OrderConfirmation(email: string, orderId: string): string
  {
    "📧 Confirmation sent to " + email + " for order " + orderId
  }

  function ShippingNotification(email: string, trackingId: string): string
  {
    "📧 Shipping update sent to " + email + " — Tracking: " + trackingId
  }

  // ---------------------------------------------------------------------
  // The facade
  // ---------------------------------------------------------------------

  /** `f"ORD-{n:04d}"`. */
  function OrderId(n: nat): string
  {
    "ORD-" + Text.ZeroPad(n, 4)
  }

  /** Different order numbers give different order ids. */
  lemma OrderIdInjective(a: nat, b: nat)
    requires OrderId(a) == OrderId(b)
    ensures a == b
  {
    assert OrderId(a)[4..] == Text.ZeroPad(a, 4);
    assert OrderId(b)[4..] == Text.ZeroPad(b, 4);
    Text.ZeroPadInjective(a, b, 4);
  }

  /** Unit price times quantity plus shipping for half a kilogram per unit. */
  function OrderTotal(quantity: int): (t: real)
    ensures t == 101.24 * quantity as real + ShippingBase
  {
    PricePerUnit * quantity as real + ShippingCost(quantity as real * 0.5)
  }

  /** With the fixed price, the fraud check lets through at most 98 units. */
  lemma FraudLimitInUnits(quantity: int)
    ensures CheckTransaction(OrderTotal(quantity)) <==> quantity <= 98
  {
  }

  datatype OrderResult = OrderResult(success: bool, orderId: string, trackingId: string, total: real, message: string)

  datatype PlaceOutcome = PlaceOutcome(stock: map<string, int>, result: Result<OrderResult>)

  /**
   * One `place_order` call numbered `n`, on the inventory `stock`. The shipping
   * service's tracking id, which the source derives from a hash of the address,
   * is the parameter `trackingId`.
   */
  function PlaceOrderStep(stock: map<string, int>, n: nat, productId: string, quantity: int, cardNumber: string,
                      trackingId: string): (o: PlaceOutcome)
    ensures o.result.Ok? && o.result.value.success ==> productId in stock && o.stock == stock[productId := stock[productId] - quantity]
    ensures !(o.result.Ok? && o.result.value.success) ==> o.stock == stock
    ensures o.result.Ok? ==> o.result.value.orderId == OrderId(n)
    ensures o.result.Ok? && o.result.value.success <==>
      CheckStock(stock, productId, quantity) && CheckTransaction(OrderTotal(quantity)) && ValidateCard(cardNumber) && productId in stock
    ensures o.result.Err? <==>
      CheckStock(stock, productId, quantity) && CheckTransaction(OrderTotal(quantity)) && ValidateCard(cardNumber) && productId !in stock
  {
    var id := OrderId(n);
    if !CheckStock(stock, productId, quantity) then
      PlaceOutcome(stock, Ok(OrderResult(false, id, "", 0.0, "❌ Out of stock")))
    else
      var total := OrderTotal(quantity);
      if !CheckTransaction(total) then
        PlaceOutcome(stock, Ok(OrderResult(false, id, "", 0.0, "🚨 Transaction flagged as suspicious")))
      else
        match Charge(cardNumber, total)
        case Declined(error) =>
          PlaceOutcome(stock, Ok(OrderResult(false, id, "", 0.0, "❌ Payment failed: " + error)))
        case Charged(_) =>
          match Reserve(stock, productId, quantity)
          case Reserved(next) =>
            PlaceOutcome(next, Ok(OrderResult(true, id, trackingId, total, "✅ Order placed successfully!")))
          case MissingKey(key) => PlaceOutcome(stock, Err(key))
          case Refused => PlaceOutcome(stock, Ok(OrderResult(false, id, "", 0.0, "")))
  }

  /** The first failing check, in the order stock, fraud, payment, decides the message. */
  lemma FailFastOrder(stock: map<string, int>, n: nat, productId: string, quantity: int, cardNumber: string, trackingId: string)
    ensures var r := PlaceOrderStep(stock, n, productId, quantity, cardNumber, trackingId).result;
      (!CheckStock(stock, productId, quantity) ==> r.Ok? && r.value.message == "❌ Out of stock") &&
      (CheckStock(stock, productId, quantity) && !CheckTransaction(OrderTotal(quantity)) ==>
        r.Ok? && r.value.message == "🚨 Transaction flagged as suspicious") &&
      (CheckStock(stock, productId, quantity) && CheckTransaction(OrderTotal(quantity)) && !ValidateCard(cardNumber) ==>
        r.Ok? && r.value.message == "❌ Payment failed: Invalid card number")
  {
  }

  /** The demo's first order succeeds and leaves nine laptops. */
  lemma DemoLaptopOrder(n: nat, trackingId: string)
    ensures var o := PlaceOrderStep(InitialStock, n, "LAPTOP-001", 1, TestCard, trackingId);
      o.result.Ok? && o.result.value.success && o.stock["LAPTOP-001"] == 9
  {
    DemoCards();
  }

  class OnlineStoreFacade {
    const inventory: InventoryService
    var orderCounter: nat

    constructor ()
      ensures fresh(inventory) && inventory.stock == InitialStock && orderCounter == 0
    {
      inventory := new InventoryService();
      orderCounter := 0;
    }

    /** The counter advances on every call, so every call, failed or not, gets its own id. */
    method PlaceOrder(productId: string, quantity: int, cardNumber: string, shippingAddress: string,
                      email: string, trackingId: string) returns (r: Result<OrderResult>)
      modifies this, inventory
      ensures orderCounter == old(orderCounter) + 1
      ensures var o := PlaceOrderStep(old(inventory.stock), orderCounter, productId, quantity, cardNumber, trackingId);
        r == o.result && inventory.stock == o.stock
    {
      orderCounter := orderCounter + 1;
      var id := OrderId(orderCounter);
      var inStock := inventory.CheckStock(productId, quantity);
      if !inStock {
        return Ok(OrderResult(false, id, "", 0.0, "❌ Out of stock"));
      }
      var total := OrderTotal(quantity);
      if !CheckTransaction(total) {
        return Ok(OrderResult(false, id, "", 0.0, "🚨 Transaction flagged as suspicious"));
      }
      var payment := Charge(cardNumber, total);
      if payment.Declined? {
        return Ok(OrderResult(false, id, "", 0.0, "❌ Payment failed: " + payment.error));
      }
      var reserved := inventory.ReserveStock(productId, quantity);
      if reserved.Err? {
        return Err(reserved.error);
      }
      r := Ok(OrderResult(true, id, trackingId, total, "✅ Order placed successfully!"));
    }
  }

  /** Two calls on one facade never share an order id. */
  lemma OrderIdsDistinct(a: nat, b: nat)
    requires a != b
    ensures OrderId(a) != OrderId(b)
  {
    if OrderId(a) == OrderId(b) {
      OrderIdInjective(a, b);
    }
  }
}
