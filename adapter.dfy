// The Adapter pattern: three payment providers with their own response
// formats behind one payment gateway interface, and a legacy CSV exporter
// behind an interface that returns records as dictionaries.
module Adapter {
  import Text

  // ---------------------------------------------------------------------
  // Payment gateways
  // ---------------------------------------------------------------------

  /** The unified response the application expects from every gateway. */
  datatype PaymentResponse = PaymentResponse(success: bool, amount: real, currency: string, transactionId: string, provider: string)

  /** Python's `int(x)`: truncation toward zero. */
  function Truncate(x: real): (r: int)
    ensures 0.0 <= x ==> r as real <= x < r as real + 1.0
    ensures x < 0.0 ==> r as real - 1.0 < x <= r as real
  {
    if 0.0 <= x then x.Floor else -((-x).Floor)
  }

  /** An amount in the smallest currency unit, as Stripe and Razorpay expect it. */
  function MinorUnits(amount: real): int
  {
    Truncate(amount * 100.0)
  }

  // The providers' own responses, with only the fields the adapters read.

  datatype StripeCharge = StripeCharge(id: string, status: string, amountCents: int, currency: string)
  datatype PayPalPayment = PayPalPayment(paymentId: string, state: string, total: real, currency: string)
  datatype RazorpayOrder = RazorpayOrder(orderId: string, status: string, amountPaise: int, currency: string)

  /** `StripeAPI.create_charge`: a fixed successful charge. */
  function StripeCreateCharge(amountCents: int, cur: string): StripeCharge
  {
    StripeCharge("ch_stripe_123", "succeeded", amountCents, cur)
  }

  /** `StripeAPI.retrieve_charge`. */
  function StripeRetrieveCharge(chargeId: string): StripeCharge
  {
    StripeCharge(chargeId, "succeeded", 0, "")
  }

  /** `PayPalSDK.make_payment`: a fixed approved payment. */
  function PayPalMakePayment(total: real, currencyCode: string): PayPalPayment
  {
    PayPalPayment("PAY-paypal-456", "approved", total, currencyCode)
  }

  /** `PayPalSDK.check_payment`. */
  function PayPalCheckPayment(paymentId: string): string
  {
    "approved"
  }

  /** `RazorpayClient.create_order`: a fixed paid order. */
  function RazorpayCreateOrder(amountPaise: int, currency: string): RazorpayOrder
  {
    RazorpayOrder("order_razorpay_789", "paid", amountPaise, currency)
  }

  /** `RazorpayClient.fetch_order`. */
  function RazorpayFetchOrder(orderId: string): RazorpayOrder
  {
    RazorpayOrder(orderId, "paid", 0, "")
  }

  // The adapters' translation of a provider response into the unified one.

  function FromStripe(amount: real, currency: string, result: StripeCharge): PaymentResponse
  {
    PaymentResponse(result.status == "succeeded", amount, currency, result.id, "Stripe")
  }

  function FromPayPal(amount: real, currency: string, result: PayPalPayment): PaymentResponse
  {
    PaymentResponse(result.state == "approved", amount, currency, result.paymentId, "PayPal")
  }

  function FromRazorpay(amount: real, currency: string, result: RazorpayOrder): PaymentResponse
  {
    PaymentResponse(result.status == "paid", amount, currency, result.orderId, "Razorpay")
  }

  /**
   * Whatever a provider answers, the adapter reports success iff the provider's
   * own success word is its status, and passes the provider's id, the amount and
   * the currency through unchanged.
   */
  lemma TranslationsAgree(amount: real, currency: string, s: StripeCharge, p: PayPalPayment, z: RazorpayOrder)
    ensures var r := FromStripe(amount, currency, s);
      (r.success <==> s.status == "succeeded") && r.transactionId == s.id && r.amount == amount && r.currency == currency
    ensures var r := FromPayPal(amount, currency, p);
      (r.success <==> p.state == "approved") && r.transactionId == p.paymentId && r.amount == amount && r.currency == currency
    ensures var r := FromRazorpay(amount, currency, z);
      (r.success <==> z.status == "paid") && r.transactionId == z.orderId && r.amount == amount && r.currency == currency
  {
  }

  /** `StripeAdapter.charge`: the amount goes to Stripe in cents. */
  function StripeAdapterCharge(amount: real, currency: string): (r: PaymentResponse)
    ensures r.success && r.transactionId == "ch_stripe_123" && r.provider == "Stripe"
    ensures r.amount == amount && r.currency == currency
  {
    FromStripe(amount, currency, StripeCreateCharge(MinorUnits(amount), currency))
  }

  /** `PayPalAdapter.charge`: PayPal takes the amount as it is. */
  function PayPalAdapterCharge(amount: real, currency: string): (r: PaymentResponse)
    ensures r.success && r.transactionId == "PAY-paypal-456" && r.provider == "PayPal"
    ensures r.amount == amount && r.currency == currency
  {
    FromPayPal(amount, currency, PayPalMakePayment(amount, currency))
  }

  /** `RazorpayAdapter.charge`: the amount goes to Razorpay in paise. */
  function RazorpayAdapterCharge(amount: real, currency: string): (r: PaymentResponse)
    ensures r.success && r.transactionId == "order_razorpay_789" && r.provider == "Razorpay"
    ensures r.amount == amount && r.currency == currency
  {
    FromRazorpay(amount, currency, RazorpayCreateOrder(MinorUnits(amount), currency))
  }

  /** The amount Stripe is asked to charge is the amount in whole cents, truncated. */
  lemma StripeGetsCents(amount: real, currency: string)
    requires 0.0 <= amount
    ensures var c := StripeCreateCharge(MinorUnits(amount), currency).amountCents;
      c as real <= amount * 100.0 < c as real + 1.0
  {
  }

  /** `get_status` on each adapter: the provider's status, unchanged. */
  function StripeAdapterStatus(transactionId: string): string
  {
    StripeRetrieveCharge(transactionId).status
  }

  function PayPalAdapterStatus(transactionId: string): string
  {
    PayPalCheckPayment(transactionId)
  }

  function RazorpayAdapterStatus(transactionId: string): string
  {
    RazorpayFetchOrder(transactionId).status
  }

  /** The status each adapter reports is the one its charge counts as success. */
  lemma StatusMeansSuccess(id: string, amount: real, currency: string)
    ensures FromStripe(amount, currency, StripeRetrieveCharge(id)).success && StripeAdapterStatus(id) == "succeeded"
    ensures PayPalAdapterStatus(id) == PayPalMakePayment(amount, currency).state
    ensures RazorpayAdapterStatus(id) == RazorpayCreateOrder(MinorUnits(amount), currency).status
  {
  }

  // ---------------------------------------------------------------------
  // Legacy CSV to JSON
  // ---------------------------------------------------------------------

  /** `dict(zip(keys, values))`: pairs up to the shorter list; a later repeated key wins. */
  function Zip(keys: seq<string>, values: seq<string>): (d: map<string, string>)
    decreases |keys|
  {
    if keys == [] || values == [] then map[]
    else map[keys[0] := values[0]] + Zip(keys[1..], values[1..])
  }

  function Min(a: int, b: int): int
  {
    if a <= b then a else b
  }

  /** The keys of the zipped dictionary are exactly the keys that were paired with a value. */
  lemma {:induction false} ZipKeys(keys: seq<string>, values: seq<string>)
    ensures forall k :: k in Zip(keys, values) <==> k in keys[..Min(|keys|, |values|)]
    decreases |keys|
  {
    if keys != [] && values != [] {
      ZipKeys(keys[1..], values[1..]);
      assert keys[..Min(|keys|, |values|)] == [keys[0]] + keys[1..][..Min(|keys| - 1, |values| - 1)];
    }
  }

  /** The i-th key maps to the i-th value, unless the same key occurs again later among the paired keys. */
  lemma {:induction false} ZipLookup(keys: seq<string>, values: seq<string>, i: nat)
    requires i < |keys| && i < |values|
    requires keys[i] !in keys[i + 1..Min(|keys|, |values|)]
    ensures keys[i] in Zip(keys, values) && Zip(keys, values)[keys[i]] == values[i]
    decreases |keys|
  {
    ZipKeys(keys[1..], values[1..]);
    if i == 0 {
      assert keys[1..][..Min(|keys| - 1, |values| - 1)] == keys[1..Min(|keys|, |values|)];
    } else {
      assert keys[1..][i..Min(|keys| - 1, |values| - 1)] == keys[i + 1..Min(|keys|, |values|)];
      ZipLookup(keys[1..], values[1..], i - 1);
    }
  }

  /** `CSVToJSONAdapter.get_data` on the exporter's text: one record per line after the header line. */
  function GetData(csv: string): (r: seq<map<string, string>>)
    ensures |r| == |Text.Split(Text.Strip(csv), '\n')| - 1
  {
    var lines := Text.Split(Text.Strip(csv), '\n');
    var headers := Text.Split(lines[0], ',');
    seq(|lines| - 1, j requires 0 <= j < |lines| - 1 => Zip(headers, Text.Split(lines[j + 1], ',')))
  }

  /**
   * Record j holds, under the i-th header, the i-th field of line j + 1, for
   * every header that is paired with a field and not repeated later.
   */
  lemma RecordField(csv: string, j: nat, i: nat)
    requires j < |GetData(csv)|
    requires var lines := Text.Split(Text.Strip(csv), '\n');
      var headers := Text.Split(lines[0], ',');
      var fields := Text.Split(lines[j + 1], ',');
      i < |headers| && i < |fields| && headers[i] !in headers[i + 1..Min(|headers|, |fields|)]
    ensures var lines := Text.Split(Text.Strip(csv), '\n');
      var headers := Text.Split(lines[0], ',');
      var fields := Text.Split(lines[j + 1], ',');
      headers[i] in GetData(csv)[j] && GetData(csv)[j][headers[i]] == fields[i]
  {
    var lines := Text.Split(Text.Strip(csv), '\n');
    ZipLookup(Text.Split(lines[0], ','), Text.Split(lines[j + 1], ','), i);
  }

  /** Text that is empty once stripped gives no records. */
  lemma BlankCsvHasNoRecords(csv: string)
    requires Text.Strip(csv) == ""
    ensures GetData(csv) == []
  {
  }

  /** `LegacyCSVExporter.export_data`. */
  function LegacyExport(): string
  {
    ExportHeader + "\n" + AliceRow + "\n" + BobRow + "\n" + CharlieRow
  }

  const ExportHeader := "name,age,city"
  const AliceRow := "Alice,30,NYC"
  const BobRow := "Bob,25,LA"
  const CharlieRow := "Charlie,35,Chicago"

  /** The exporter's text gives three records, each keyed by name, age and city. */
  lemma LegacyExportRecords()
    ensures GetData(LegacyExport()) == [
      map["name" := "Alice", "age" := "30", "city" := "NYC"],
      map["name" := "Bob", "age" := "25", "city" := "LA"],
      map["name" := "Charlie", "age" := "35", "city" := "Chicago"]]
  {
    ExportLines();
    FourLines(LegacyExport(), ExportRows);
    HeaderFields();
    RowRecords();
  }

  /** Text of four lines gives the three records of the last three lines under the first line's headers. */
  lemma FourLines(csv: string, lines: seq<string>)
    requires Text.Split(Text.Strip(csv), '\n') == lines && |lines| == 4
    ensures var h := Text.Split(lines[0], ',');
      GetData(csv) == [Zip(h, Text.Split(lines[1], ',')), Zip(h, Text.Split(lines[2], ',')), Zip(h, Text.Split(lines[3], ','))]
  {
  }

  lemma HeaderFields()
    ensures Text.Split(ExportRows[0], ',') == ["name", "age", "city"]
  {
    assert ExportRows[0] == "name" + "," + "age" + "," + "city";
    Fields(["name", "age", "city"]);
  }

  lemma RowRecords()
    ensures Zip(["name", "age", "city"], Text.Split(ExportRows[1], ',')) == map["name" := "Alice", "age" := "30", "city" := "NYC"]
    ensures Zip(["name", "age", "city"], Text.Split(ExportRows[2], ',')) == map["name" := "Bob", "age" := "25", "city" := "LA"]
    ensures Zip(["name", "age", "city"], Text.Split(ExportRows[3], ',')) == map["name" := "Charlie", "age" := "35", "city" := "Chicago"]
  {
    AliceRecord();
    BobRecord();
    CharlieRecord();
  }

  lemma AliceRecord()
    ensures Zip(["name", "age", "city"], Text.Split(ExportRows[1], ',')) == map["name" := "Alice", "age" := "30", "city" := "NYC"]
  {
    Record(ExportRows[1], ["Alice", "30", "NYC"]);
  }

  lemma BobRecord()
    ensures Zip(["name", "age", "city"], Text.Split(ExportRows[2], ',')) == map["name" := "Bob", "age" := "25", "city" := "LA"]
  {
    Record(ExportRows[2], ["Bob", "25", "LA"]);
  }

  lemma CharlieRecord()
    ensures Zip(["name", "age", "city"], Text.Split(ExportRows[3], ',')) == map["name" := "Charlie", "age" := "35", "city" := "Chicago"]
  {
    Record(ExportRows[3], ["Charlie", "35", "Chicago"]);
  }

  /** A data line of three comma-free fields becomes the record of those fields. */
  lemma Record(line: string, fields: seq<string>)
    requires |fields| == 3 && forall k :: 0 <= k < 3 ==> ',' !in fields[k]
    requires line == fields[0] + "," + fields[1] + "," + fields[2]
    ensures Zip(["name", "age", "city"], Text.Split(line, ',')) == map["name" := fields[0], "age" := fields[1], "city" := fields[2]]
  {
    Fields(fields);
    var keys := ["name", "age", "city"];
    assert Zip(keys[2..], fields[2..]) == map["city" := fields[2]];
    assert Zip(keys[1..], fields[1..]) == map["age" := fields[1]] + map["city" := fields[2]];
  }

  /** The exporter's lines. */
  const ExportRows: seq<string> := [ExportHeader, AliceRow, BobRow, CharlieRow]

  lemma ExportLines()
    ensures Text.Split(Text.Strip(LegacyExport()), '\n') == ExportRows
  {
    ExportIsJoin();
    ExportEnds();
    Text.StripUnpadded(LegacyExport());
    NoBreaks();
    Text.SplitJoin(ExportRows, '\n');
  }

  lemma ExportIsJoin()
    ensures Text.Join(ExportRows, "\n") == LegacyExport()
  {
    var r := ExportRows;
    assert Text.Join(r[3..], "\n") == r[3] by { assert r[3..] == [r[3]]; }
    assert Text.Join(r[2..], "\n") == r[2] + "\n" + r[3] by { assert r[2..][1..] == r[3..]; }
    assert Text.Join(r[1..], "\n") == r[1] + "\n" + r[2] + "\n" + r[3] by { assert r[1..][1..] == r[2..]; }
  }

  lemma ExportEnds()
    ensures |LegacyExport()| > 0 && LegacyExport()[0] == 'n' && LegacyExport()[|LegacyExport()| - 1] == 'o'
  {
    ExportIsJoin();
    Text.JoinEnds(ExportRows, "\n");
    var first, last := ExportRows[0], ExportRows[3];
    assert first[0] == 'n' && last[|last| - 1] == 'o';
    assert LegacyExport()[|LegacyExport()| - |last|..][|last| - 1] == LegacyExport()[|LegacyExport()| - 1];
  }

  lemma NoBreaks()
    ensures forall k :: 0 <= k < |ExportRows| ==> '\n' !in ExportRows[k]
  {
  }

  /** A line of three comma-free fields splits into those fields. */
  lemma Fields(fields: seq<string>)
    requires |fields| == 3 && forall k :: 0 <= k < 3 ==> ',' !in fields[k]
    ensures Text.Split(fields[0] + "," + fields[1] + "," + fields[2], ',') == fields
  {
    assert Text.Join(fields[2..], [',']) == fields[2];
    assert Text.Join(fields[1..], [',']) == fields[1] + "," + fields[2];
    assert Text.Join(fields, [',']) == fields[0] + "," + fields[1] + "," + fields[2];
    Text.SplitJoin(fields, ',');
  }
}
