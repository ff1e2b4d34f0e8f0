// Dependency injection: services receive the sender and database they use
// instead of creating them; a small container hands out registered shared
// instances or builds new ones from factories.
module DependencyInjection {
  import opened Wrappers
  import Seqs
  import Text

  // ---------------------------------------------------------------------
  // Message senders and the notification service
  // ---------------------------------------------------------------------

  /** What the mock sender records for one `send` call. */
  datatype Message = Message(recipient: string, subject: string, body: string)

  function EmailText(m: Message): string
  {
    "📧 Email sent to " + m.recipient + ": [" + m.subject + "] " + m.body
  }

  function SmsText(m: Message): string
  {
    "📱 SMS sent to " + m.recipient + ": " + m.subject + " — " + m.body
  }

  function MockText(m: Message): string
  {
    "🧪 MOCK: Would send to " + m.recipient + ": [" + m.subject + "]"
  }

  /** The test double: it sends nothing and remembers every message. */
  class MockSender {
    var sent: seq<Message>

    constructor ()
      ensures sent == []
    {
      sent := [];
    }

    method Send(recipient: string, subject: string, body: string) returns (reply: string)
      modifies this
      ensures sent == old(sent) + [Message(recipient, subject, body)]
      ensures reply == MockText(Message(recipient, subject, body))
    {
      sent := sent + [Message(recipient, subject, body)];
      reply := MockText(Message(recipient, subject, body));
    }
  }

  /** The sender a service was given. */
  datatype Sender = EmailSender | SmsSender | Mock(mock: MockSender)

  /** The three messages the notification service composes. */
  function Welcome(email: string, name: string): (m: Message)
    ensures m.recipient == email && m.subject == "Welcome!"
  {
    Message(email, "Welcome!", "Hi " + name + ", welcome to our platform!")
  }

  function PasswordReset(email: string): (m: Message)
    ensures m.recipient == email && m.subject == "Password Reset"
  {
    Message(email, "Password Reset", "Click here to reset your password: https://example.com/reset")
  }

  function OrderConfirmation(email: string, orderId: string): (m: Message)
    ensures m.recipient == email
  {
    Message(email, "Order Confirmed — " + orderId, "Your order " + orderId + " has been confirmed!")
  }

  /** What a sender of each kind replies; only the mock changes state. */
  function SendReply(s: Sender, m: Message): string
  {
    match s
    case EmailSender => EmailText(m)
    case SmsSender => SmsText(m)
    case Mock(_) => MockText(m)
  }

  class NotificationService {
    const sender: Sender

    constructor (sender: Sender)
      ensures this.sender == sender
    {
      this.sender := sender;
    }

    /** Hands the message to the injected sender; a mock sender records it. */
    method Deliver(m: Message) returns (reply: string)
      modifies if sender.Mock? then {sender.mock} else {}
      ensures reply == SendReply(sender, m)
      ensures sender.Mock? ==> sender.mock.sent == old(sender.mock.sent) + [m]
    {
      match sender
      case EmailSender => reply := EmailText(m);
      case SmsSender => reply := SmsText(m);
      case Mock(mock) => reply := mock.Send(m.recipient, m.subject, m.body);
    }

    method SendWelcome(email: string, name: string) returns (reply: string)
      modifies if sender.Mock? then {sender.mock} else {}
      ensures reply == SendReply(sender, Welcome(email, name))
      ensures sender.Mock? ==> sender.mock.sent == old(sender.mock.sent) + [Welcome(email, name)]
    {
      reply := Deliver(Welcome(email, name));
    }

    method SendPasswordReset(email: string) returns (reply: string)
      modifies if sender.Mock? then {sender.mock} else {}
      ensures reply == SendReply(sender, PasswordReset(email))
      ensures sender.Mock? ==> sender.mock.sent == old(sender.mock.sent) + [PasswordReset(email)]
    {
      reply := Deliver(PasswordReset(email));
    }

    method SendOrderConfirmation(email: string, orderId: string) returns (reply: string)
      modifies if sender.Mock? then {sender.mock} else {}
      ensures reply == SendReply(sender, OrderConfirmation(email, orderId))
      ensures sender.Mock? ==> sender.mock.sent == old(sender.mock.sent) + [OrderConfirmation(email, orderId)]
    {
      reply := Deliver(OrderConfirmation(email, orderId));
    }
  }

  // ---------------------------------------------------------------------
  // Service container
  // ---------------------------------------------------------------------

  /** The strictly increasing order `sorted` gives distinct strings. */
  ghost predicate StrictlySorted(xs: seq<string>)
  {
    forall i, j :: 0 <= i < j < |xs| ==> Text.LexLess(xs[i], xs[j])
  }

  /** Inserts a name into a sorted list unless it is already there. */
  function InsertSorted(xs: seq<string>, x: string): (r: seq<string>)
    ensures forall y :: y in r <==> y in xs || y == x
  {
    if xs == [] then [x]
    else if x == xs[0] then xs
    else if Text.LexLess(x, xs[0]) then [x] + xs
    else [xs[0]] + InsertSorted(xs[1..], x)
  }

  lemma {:induction false} InsertSortedKeepsSorted(xs: seq<string>, x: string)
    requires StrictlySorted(xs)
    ensures StrictlySorted(InsertSorted(xs, x))
  {
    if xs == [] || x == xs[0] {
    } else if Text.LexLess(x, xs[0]) {
      forall j | 0 <= j < |xs|
        ensures Text.LexLess(x, xs[j])
      {
        if j > 0 { Text.LexLessTransitive(x, xs[0], xs[j]); }
      }
    } else {
      Text.LexLessTotal(x, xs[0]);
      assert StrictlySorted(xs[1..]);
      InsertSortedKeepsSorted(xs[1..], x);
      var rest := InsertSorted(xs[1..], x);
      forall y | y in rest
        ensures Text.LexLess(xs[0], y)
      {
        if y != x {
          var j :| 0 <= j < |xs[1..]| && xs[1..][j] == y;
          assert xs[j + 1] == y;
        }
      }
      var r := [xs[0]] + rest;
      forall i, j | 0 <= i < j < |r|
        ensures Text.LexLess(r[i], r[j])
      {
        if i == 0 {
          assert r[j] == rest[j - 1];
          assert r[j] in rest;
        } else {
          assert r[i] == rest[i - 1] && r[j] == rest[j - 1];
        }
      }
    }
  }

  /** A container of shared instances and factories producing values of type T. */
  class ServiceContainer<T> {
    var services: map<string, T>
    var factories: map<string, () -> T>

    constructor ()
      ensures services == map[] && factories == map[]
    {
      services := map[];
      factories := map[];
    }

    /** Re-registering a name replaces the earlier instance. */
    method RegisterSingleton(name: string, instance: T)
      modifies this
      ensures services == old(services)[name := instance] && factories == old(factories)
    {
      services := services[name := instance];
    }

    method RegisterFactory(name: string, factory: () -> T)
      modifies this
      ensures factories == old(factories)[name := factory] && services == old(services)
    {
      factories := factories[name := factory];
    }

    /** A shared instance wins over a factory of the same name; an unknown name is an error. */
    method Resolve(name: string) returns (r: Result<T>)
      ensures name in services ==> r == Ok(services[name])
      ensures name !in services && name in factories ==> r == Ok(factories[name]())
      ensures r.Err? <==> name !in services && name !in factories
      ensures r.Err? ==> r.error == "Service '" + name + "' not registered"
    {
      if name in services {
        r := Ok(services[name]);
      } else if name in factories {
        r := Ok(factories[name]());
      } else {
        r := Err("Service '" + name + "' not registered");
      }
    }

    /** `sorted(set(services) | set(factories))`. */
    method ListServices() returns (names: seq<string>)
      ensures StrictlySorted(names)
      ensures forall n :: n in names <==> n in services || n in factories
    {
      var remaining := services.Keys + factories.Keys;
      names := [];
      while remaining != {}
        invariant StrictlySorted(names)
        invariant forall n :: n in names || n in remaining <==> n in services || n in factories
        decreases |remaining|
      {
        var n :| n in remaining;
        InsertSortedKeepsSorted(names, n);
        names := InsertSorted(names, n);
        remaining := remaining - {n};
      }
    }
  }

  /** A strictly sorted list has no duplicates, so each registered name is listed once. */
  lemma SortedHasNoDuplicates(xs: seq<string>)
    requires StrictlySorted(xs)
    ensures forall i, j :: 0 <= i < j < |xs| ==> xs[i] != xs[j]
  {
    forall i, j | 0 <= i < j < |xs|
      ensures xs[i] != xs[j]
    {
      if xs[i] == xs[j] {
        Text.LexLessIrreflexive(xs[i]);
      }
    }
  }

  // ---------------------------------------------------------------------
  // Databases
  // ---------------------------------------------------------------------

  /** A stored dict: its "id" entry, if any, and its other string fields. */
  datatype Record = Record(id: Option<int>, fields: map<string, string>)

  function HasId(id: int): Record -> bool
  {
    (r: Record) => r.id == Some(id)
  }

  /** The fixed rows the PostgreSQL and SQLite stand-ins return for any lookup. */
  function CannedRecord(source: string, table: string, id: int): (r: Record)
    ensures r.id == Some(id)
  {
    Record(Some(id), map["source" := source, "table" := table])
  }

  class InMemoryDatabase {
    var store: map<string, seq<Record>>

    constructor ()
      ensures store == map[]
    {
      store := map[];
    }

    function Rows(table: string): seq<Record>
      reads this
    {
      if table in store then store[table] else []
    }

    /** Appends to the table, creating it when missing; other tables are untouched. */
    method Save(table: string, data: Record) returns (reply: string)
      modifies this
      ensures store == old(store)[table := old(Rows(table)) + [data]]
      ensures reply == "🧪 InMemory: Saved to '" + table + "'"
    {
      store := store[table := Rows(table) + [data]];
      reply := "🧪 InMemory: Saved to '" + table + "'";
    }

    /** The loop over the table's records: the first one whose id matches, or None. */
    method Find(table: string, id: int) returns (r: Option<Record>)
      ensures r == Seqs.FindFirst(Rows(table), HasId(id))
    {
      var records := Rows(table);
      var i := 0;
      while i < |records|
        invariant 0 <= i <= |records|
        invariant Seqs.FindFirst(records[i..], HasId(id)) == Seqs.FindFirst(records, HasId(id))
      {
        if records[i].id == Some(id) {
          return Some(records[i]);
        }
        assert records[i..][1..] == records[i + 1..];
        i := i + 1;
      }
      r := None;
    }
  }

  datatype Database = Postgres | SQLite | InMemory(db: InMemoryDatabase)

  /** `UserService`: a database and a notifier, both injected. */
  class UserService {
    const database: Database
    const notifier: NotificationService

    constructor (database: Database, notifier: NotificationService)
      ensures this.database == database && this.notifier == notifier
    {
      this.database := database;
      this.notifier := notifier;
    }

    /** Saves a record with a name and an email and no id, then sends the welcome message. */
    method CreateUser(name: string, email: string) returns (reply: string)
      modifies if database.InMemory? then {database.db} else {}
      modifies if notifier.sender.Mock? then {notifier.sender.mock} else {}
      ensures database.InMemory? ==>
        database.db.store == old(database.db.store)["users" := old(database.db.Rows("users")) + [NewUser(name, email)]]
      ensures notifier.sender.Mock? ==> notifier.sender.mock.sent == old(notifier.sender.mock.sent) + [Welcome(email, name)]
    {
      var saved: string;
      match database {
        case Postgres => saved := "🐘 PostgreSQL: Saved to 'users'";
        case SQLite => saved := "📦 SQLite: Saved to 'users'";
        case InMemory(db) => saved := db.Save("users", NewUser(name, email));
      }
      var sent := notifier.SendWelcome(email, name);
      reply := saved + "\n    " + sent;
    }

    method FindUser(id: int) returns (r: Option<Record>)
      ensures database.Postgres? ==> r == Some(CannedRecord("PostgreSQL", "users", id))
      ensures database.SQLite? ==> r == Some(CannedRecord("SQLite", "users", id))
      ensures database.InMemory? ==> r == Seqs.FindFirst(database.db.Rows("users"), HasId(id))
    {
      match database
      case Postgres => r := Some(CannedRecord("PostgreSQL", "users", id));
      case SQLite => r := Some(CannedRecord("SQLite", "users", id));
      case InMemory(db) => r := db.Find("users", id);
    }
  }

  /** The record `create_user` saves: name and email, and no "id" entry. */
  function NewUser(name: string, email: string): (r: Record)
    ensures r.id.None?
  {
    Record(None, map["name" := name, "email" := email])
  }

  /** Records saved by `create_user` carry no id, so an in-memory `find_user` never returns them. */
  lemma CreatedUsersNotFoundById(rows: seq<Record>, name: string, email: string, id: int)
    ensures Seqs.FindFirst(rows + [NewUser(name, email)], HasId(id)) == Seqs.FindFirst(rows, HasId(id))
  {
    var all := rows + [NewUser(name, email)];
    var r := Seqs.FindFirst(all, HasId(id));
    if Seqs.FindFirst(rows, HasId(id)).None? {
      assert forall i :: 0 <= i < |all| ==> !HasId(id)(all[i]) by {
        forall i | 0 <= i < |all|
          ensures !HasId(id)(all[i])
        {
          if i < |rows| { assert all[i] == rows[i]; }
        }
      }
    } else {
      FindFirstPrefix(rows, [NewUser(name, email)], HasId(id));
    }
  }

  /** A match in a prefix is the match in the whole sequence. */
  lemma {:induction false} FindFirstPrefix<T>(xs: seq<T>, ys: seq<T>, p: T -> bool)
    requires Seqs.FindFirst(xs, p).Some?
    ensures Seqs.FindFirst(xs + ys, p) == Seqs.FindFirst(xs, p)
    decreases |xs|
  {
    if !p(xs[0]) {
      assert (xs + ys)[1..] == xs[1..] + ys;
      FindFirstPrefix(xs[1..], ys, p);
    }
  }
}
