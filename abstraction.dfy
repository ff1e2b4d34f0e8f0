// Abstraction: database connections behind one interface with a shared health
// check, a report with several capabilities, and a notification service whose
// fixed template validates, formats and sends through channel-specific steps.
module Abstraction {
  import opened Wrappers
  import Text

  // ---------------------------------------------------------------------
  // Database connections
  // ---------------------------------------------------------------------

  datatype Connection = PostgreSql | MongoDb | Sqlite

  function Connect(c: Connection): string
  {
    match c
    case PostgreSql => "🐘 Connected to PostgreSQL on port 5432"
    case MongoDb => "🍃 Connected to MongoDB on port 27017"
    case Sqlite => "📦 Opened SQLite file: database.db"
  }

  /** `execute` of the concrete connections: it always answers, it never raises. */
  function Execute(c: Connection, query: string): Result<string>
  {
    match c
    case PostgreSql => Ok("🐘 PostgreSQL executed: " + query)
    case MongoDb => Ok("🍃 MongoDB executed: " + query)
    case Sqlite => Ok("📦 SQLite executed: " + query)
  }

  function Disconnect(c: Connection): string
  {
    match c
    case PostgreSql => "🐘 Disconnected from PostgreSQL"
    case MongoDb => "🍃 Disconnected from MongoDB"
    case Sqlite => "📦 Closed SQLite file"
  }

  const DatabaseDown := "❌ Database is down"

  /**
   * `health_check` over any `execute`: healthy with the answer to "SELECT 1",
   * or down when the query raises.
   */
  function HealthCheckWith(execute: string -> Result<string>): (r: string)
    ensures execute("SELECT 1").Ok? ==> r == "✅ Database is healthy: " + execute("SELECT 1").value
    ensures execute("SELECT 1").Err? ==> r == DatabaseDown
  {
    match execute("SELECT 1")
    case Ok(result) => "✅ Database is healthy: " + result
    case Err(_) => DatabaseDown
  }

  function HealthCheck(c: Connection): string
  {
    HealthCheckWith(q => Execute(c, q))
  }

  /** All three concrete connections report healthy. */
  lemma HealthyConnections(c: Connection)
    ensures HealthCheck(c) == "✅ Database is healthy: " + Execute(c, "SELECT 1").value
    ensures HealthCheck(c) != DatabaseDown
  {
    assert HealthCheck(c)[0] == '✅' && DatabaseDown[0] == '❌';
  }

  // ---------------------------------------------------------------------
  // Report
  // ---------------------------------------------------------------------

  datatype Report = Report(title: string, content: string)

  function ReportToString(r: Report): string
  {
    "📄 Report: " + r.title + "\n   " + r.content
  }

  function Save(r: Report): string
  {
    "💾 Saved report '" + r.title + "' to disk"
  }

  /** `export`: the format is reported upper-cased. */
  function Export(r: Report, format: string): string
  {
    "📤 Exported '" + r.title + "' as " + Text.Upper(format)
  }

  /** The letter case of the requested format does not matter. */
  lemma ExportIgnoresCase(r: Report, f: string, g: string)
    requires Text.Upper(f) == Text.Upper(g)
    ensures Export(r, f) == Export(r, g)
    ensures Export(r, Text.Upper(f)) == Export(r, f)
  {
    Text.UpperIdempotent(f);
  }

  /** The text after " as " is the format in upper case, so it holds no lower-case letter. */
  lemma {:induction false} ExportedFormatIsUpper(r: Report, format: string)
    ensures var e := Export(r, format);
      var k := |e| - |format|;
      0 <= k && e[k..] == Text.Upper(format) &&
      forall i :: k <= i < |e| ==> !Text.IsLowerLetter(e[i])
  {
  }

  // ---------------------------------------------------------------------
  // Notification service: validate, format, send
  // ---------------------------------------------------------------------

  datatype Channel = EmailChannel | SmsChannel | PushChannel

  /** `_validate`: any non-empty recipient. */
  predicate ValidRecipient(recipient: string)
  {
    |recipient| > 0
  }

  const SmsLimit := 160

  /** `_format_message` of each channel. */
  function FormatMessage(ch: Channel, message: string): (r: string)
    ensures ch == SmsChannel ==> r == Text.Take(message, SmsLimit)
    ensures ch == EmailChannel ==> r == EmailEnvelope(message)
  {
    match ch
    case EmailChannel => EmailEnvelope(message)
    case SmsChannel => Text.Take(message, SmsLimit)
    case PushChannel => "{\"title\": \"Alert\", \"body\": \"" + message + "\"}"
  }

  /** The fixed HTML page the email channel wraps a message in. */
  function EmailEnvelope(message: string): string
  {
    "<html><body><h1>Notification</h1><p>" + message + "</p></body></html>"
  }

  /** `_send` of each channel; it reports the recipient, not the content. */
  function SendVia(ch: Channel, recipient: string, formatted: string): string
  {
    match ch
    case EmailChannel => "📧 Email sent to " + recipient
    case SmsChannel => "📱 SMS sent to " + recipient
    case PushChannel => "🔔 Push notification sent to " + recipient
  }

  function InvalidRecipient(recipient: string): string
  {
    "❌ Invalid recipient: " + recipient
  }

  /** `send_notification`: the template that is the same for every channel. */
  function SendNotification(ch: Channel, recipient: string, message: string): (r: string)
    ensures !ValidRecipient(recipient) ==> r == InvalidRecipient(recipient)
    ensures ValidRecipient(recipient) ==> r == SendVia(ch, recipient, FormatMessage(ch, message))
  {
    if !ValidRecipient(recipient) then InvalidRecipient(recipient)
    else SendVia(ch, recipient, FormatMessage(ch, message))
  }

  /** The invalid-recipient reply comes exactly for the empty recipient. */
  lemma {:induction false} InvalidOnlyWhenEmpty(ch: Channel, recipient: string, message: string)
    ensures SendNotification(ch, recipient, message) == InvalidRecipient(recipient) <==> recipient == ""
  {
    if recipient != "" {
      assert SendNotification(ch, recipient, message)[0] != InvalidRecipient(recipient)[0];
    }
  }

  /** An SMS never carries more than 160 characters, and it is the start of the message. */
  lemma SmsFitsLimit(message: string)
    ensures |FormatMessage(SmsChannel, message)| <= SmsLimit
    ensures FormatMessage(SmsChannel, message) <= message
    ensures |message| <= SmsLimit ==> FormatMessage(SmsChannel, message) == message
  {
  }

  /** The email envelope holds the message unchanged between its fixed start and end. */
  lemma {:induction false} EnvelopeHoldsMessage(message: string)
    ensures var e := EmailEnvelope(message);
      var start := "<html><body><h1>Notification</h1><p>";
      var end := "</p></body></html>";
      |e| == |start| + |message| + |end| &&
      e[..|start|] == start && e[|start|..|start| + |message|] == message && e[|start| + |message|..] == end
  {
  }
}
