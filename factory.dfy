// The Factory Method pattern: a payment factory maps each payment method to a
// processor class, and a notification factory maps a channel name to a
// notifier class. Processor and notifier classes are stateless, so each is a
// constructor of a datatype and its methods are functions of it.
module Factory {
  import opened Wrappers
  import Text

  // ---------------------------------------------------------------------
  // Payment processors
  // ---------------------------------------------------------------------

  datatype PaymentMethod = CreditCard | Upi | PayPal | BankTransfer

  /** `method.value`. */
  function MethodValue(m: PaymentMethod): string
  {
    match m
    case CreditCard => "credit_card"
    case Upi => "upi"
    case PayPal => "paypal"
    case BankTransfer => "bank_transfer"
  }

  /** `str(method)`, as the unsupported-method error shows it. */
  function MethodName(m: PaymentMethod): string
  {
    match m
    case CreditCard => "PaymentMethod.CREDIT_CARD"
    case Upi => "PaymentMethod.UPI"
    case PayPal => "PaymentMethod.PAYPAL"
    case BankTransfer => "PaymentMethod.BANK_TRANSFER"
  }

  /** The processor classes. */
  datatype Processor = CreditCardProcessor | UpiProcessor | PayPalProcessor | BankTransferProcessor

  datatype PaymentResult = PaymentResult(success: bool, transactionId: string, message: string)

  /** `f"{amount:.2f}"` for an amount given exactly in hundredths. */
  function Fixed2(cents: int): string
  {
    var a := if cents < 0 then -cents else cents;
    (if cents < 0 then "-" else "") + Text.NatToString(a / 100) + "." + Text.ZeroPad(a % 100, 2)
  }

  /** The currency `process_payment` uses when none is given. */
  function DefaultCurrency(p: Processor): string
  {
    if p == UpiProcessor then "INR" else "USD"
  }

  /** `process_payment`: every built-in processor succeeds with its own fixed transaction id. */
  function ProcessPayment(p: Processor, cents: int, currency: string): (r: PaymentResult)
    ensures r.success
    ensures r.transactionId == TransactionPrefix(p) + "-TXN-001"
  {
    var amount := currency + " " + Fixed2(cents);
    match p
    case CreditCardProcessor => PaymentResult(true, "CC-TXN-001", "Credit card charged " + amount)
    case UpiProcessor => PaymentResult(true, "UPI-TXN-001", "UPI payment of " + amount + " completed")
    case PayPalProcessor => PaymentResult(true, "PP-TXN-001", "PayPal payment of " + amount + " completed")
    case BankTransferProcessor => PaymentResult(true, "BT-TXN-001", "Bank transfer of " + amount + " initiated")
  }

  function TransactionPrefix(p: Processor): string
  {
    match p
    case CreditCardProcessor => "CC"
    case UpiProcessor => "UPI"
    case PayPalProcessor => "PP"
    case BankTransferProcessor => "BT"
  }

  /** `refund`: succeeds and echoes the transaction id it was given. */
  function Refund(p: Processor, transactionId: string): (r: PaymentResult)
    ensures r.success && r.transactionId == transactionId
  {
    match p
    case CreditCardProcessor => PaymentResult(true, transactionId, "Refund initiated for " + transactionId)
    case UpiProcessor => PaymentResult(true, transactionId, "UPI refund initiated for " + transactionId)
    case PayPalProcessor => PaymentResult(true, transactionId, "PayPal refund initiated for " + transactionId)
    case BankTransferProcessor => PaymentResult(true, transactionId, "Bank transfer refund for " + transactionId)
  }

  /** The built-in table: one default processor per payment method. */
  const DefaultProcessors: map<PaymentMethod, Processor> := map[
    CreditCard := CreditCardProcessor, Upi := UpiProcessor,
    PayPal := PayPalProcessor, BankTransfer := BankTransferProcessor]

  /** The factory's class-level table, which `register` updates in place. */
  class PaymentFactory {
    var processors: map<PaymentMethod, Processor>

    /** Every payment method has a processor. */
    predicate Total()
      reads this
    {
      forall m: PaymentMethod :: m in processors
    }

    constructor ()
      ensures processors == DefaultProcessors && Total()
    {
      processors := DefaultProcessors;
      new;
      forall m: PaymentMethod ensures m in processors {
        DefaultTableTotal(m);
      }
    }

    /** The registered processor, or the unsupported-method error. */
    method Create(m: PaymentMethod) returns (r: Result<Processor>)
      ensures r.Ok? <==> m in processors
      ensures Total() ==> r.Ok?
      ensures r.Ok? ==> r.value == processors[m]
      ensures r.Err? ==> r.error == "Unsupported payment method: " + MethodName(m)
    {
      if m in processors {
        r := Ok(processors[m]);
      } else {
        r := Err("Unsupported payment method: " + MethodName(m));
      }
    }

    /** Later `Create` calls for `m` use `p`; other methods keep their processor. */
    method Register(m: PaymentMethod, p: Processor)
      modifies this
      ensures processors == old(processors)[m := p]
      ensures old(Total()) ==> Total()
    {
      processors := processors[m := p];
    }
  }

  /** Every payment method has a default processor, so creating from the built-in table never fails. */
  lemma DefaultTableTotal(m: PaymentMethod)
    ensures m in DefaultProcessors
  {
  }

  /** Each built-in processor's own method maps back to it. */
  lemma DefaultProcessorFor(m: PaymentMethod)
    ensures DefaultProcessors[m] == match m
      case CreditCard => CreditCardProcessor
      case Upi => UpiProcessor
      case PayPal => PayPalProcessor
      case BankTransfer => BankTransferProcessor
  {
  }

  /** The line the demonstration prints for a credit card charge of 99.99 in the default currency. */
  lemma CreditCardDemoMessage()
    ensures ProcessPayment(CreditCardProcessor, 9999, DefaultCurrency(CreditCardProcessor)).message
      == "Credit card charged USD 99.99"
  {
    assert Text.NatToString(99) == "99" by {
      assert Text.NatToString(9) == "9";
    }
    assert Text.ZeroPad(99, 2) == "99";
  }

  // ---------------------------------------------------------------------
  // Notifications
  // ---------------------------------------------------------------------

  datatype Notifier = EmailNotification | SmsNotification | PushNotification | SlackNotification

  /** `send` returns the confirmation text. */
  function Send(n: Notifier, recipient: string, message: string): string
  {
    match n
    case EmailNotification => "📧 Email sent to " + recipient + ": " + message
    case SmsNotification => "📱 SMS sent to " + recipient + ": " + message
    case PushNotification => "🔔 Push notification sent to " + recipient + ": " + message
    case SlackNotification => "💬 Slack message sent to #" + recipient + ": " + message
  }

  const Notifiers: map<string, Notifier> := map[
    "email" := EmailNotification, "sms" := SmsNotification,
    "push" := PushNotification, "slack" := SlackNotification]

  /** Looks the lower-cased channel up; the error names the channel as given. */
  function CreateNotifier(channel: string): (r: Result<Notifier>)
    ensures r.Ok? <==> Text.Lower(channel) in Notifiers
    ensures r.Ok? ==> r.value == Notifiers[Text.Lower(channel)]
    ensures r.Err? ==> r.error == "Unknown notification channel: " + channel
  {
    var key := Text.Lower(channel);
    if key in Notifiers then Ok(Notifiers[key]) else Err("Unknown notification channel: " + channel)
  }

  /** Channels that differ only in letter case give the same notifier, or both fail. */
  lemma CreateNotifierCaseInsensitive(a: string, b: string)
    requires Text.Lower(a) == Text.Lower(b)
    ensures CreateNotifier(a).Ok? == CreateNotifier(b).Ok?
    ensures CreateNotifier(a).Ok? ==> CreateNotifier(a).value == CreateNotifier(b).value
  {
  }

  /** Upper-case spellings of a known channel are accepted. */
  lemma CreateNotifierUpperCase(channel: string)
    requires channel in Notifiers
    ensures CreateNotifier(Text.Upper(channel)) == Ok(Notifiers[channel])
  {
    assert Text.Lower(Text.Upper(channel)) == channel by {
      assert forall i :: 0 <= i < |channel| ==> Text.IsLowerLetter(channel[i]);
    }
  }
}
