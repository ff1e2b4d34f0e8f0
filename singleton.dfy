// The Singleton pattern's two services: an application configuration store
// and a logger. Each service is one shared object; its methods update that
// object's store in place.
module Singleton {
  import Text

  // ---------------------------------------------------------------------
  // Application configuration
  // ---------------------------------------------------------------------

  /** The configuration values the application stores. */
  datatype ConfigValue = NoValue | Str(s: string) | Bool(b: bool) | Int(i: int)

  class AppConfig {
    var settings: map<string, ConfigValue>

    constructor ()
      ensures settings == map[]
    {
      settings := map[];
    }

    /** Later values for a key replace earlier ones; other keys keep theirs. */
    method Set(key: string, value: ConfigValue)
      modifies this
      ensures settings == old(settings)[key := value]
    {
      settings := settings[key := value];
    }

    /** The stored value for `key`, or `default` when the key was never set. */
    method Get(key: string, default: ConfigValue) returns (v: ConfigValue)
      ensures key in settings ==> v == settings[key]
      ensures key !in settings ==> v == default
    {
      v := if key in settings then settings[key] else default;
    }

    /** A snapshot of every setting; changing it does not change the store. */
    method GetAll() returns (all: map<string, ConfigValue>)
      ensures all == settings
    {
      all := settings;
    }
  }

  /** What the demonstration reads back through a second reference to the same object. */
  method DemoConfig() returns (url: ConfigValue, all: map<string, ConfigValue>)
    ensures url == Str("postgresql://localhost:5432/mydb")
    ensures all == map["database_url" := Str("postgresql://localhost:5432/mydb"), "debug_mode" := Bool(true)]
  {
    var config1 := new AppConfig();
    config1.Set("database_url", Str("postgresql://localhost:5432/mydb"));
    config1.Set("debug_mode", Bool(true));
    var config2 := config1;
    url := config2.Get("database_url", NoValue);
    all := config2.GetAll();
  }

  // ---------------------------------------------------------------------
  // Logger
  // ---------------------------------------------------------------------

  /** A log entry: the upper-cased level in brackets, then the message. */
  function Entry(level: string, message: string): (e: string)
    ensures |e| == |level| + 3 + |message|
    ensures e[0] == '[' && e[|level| + 1] == ']' && e[|level| + 2] == ' '
    ensures e[1..|level| + 1] == Text.Upper(level)
    ensures e[|level| + 3..] == message
  {
    "[" + Text.Upper(level) + "] " + message
  }

  /** An entry determines the level and the message when the level has no ']'. */
  lemma {:induction false} EntryInjective(l1: string, m1: string, l2: string, m2: string)
    requires forall i :: 0 <= i < |l1| ==> l1[i] != ']'
    requires forall i :: 0 <= i < |l2| ==> l2[i] != ']'
    requires Entry(l1, m1) == Entry(l2, m2)
    ensures Text.Upper(l1) == Text.Upper(l2) && m1 == m2
  {
    var e := Entry(l1, m1);
    assert |l1| == |l2|;
    assert Text.Upper(l1) == e[1..|l1| + 1] == Text.Upper(l2);
  }

  class Logger {
    var logs: seq<string>

    constructor ()
      ensures logs == []
    {
      logs := [];
    }

    /** Appends exactly one entry and returns it. */
    method Log(level: string, message: string) returns (entry: string)
      modifies this
      ensures entry == Entry(level, message)
      ensures logs == old(logs) + [entry]
    {
      entry := "[" + Text.Upper(level) + "] " + message;
      logs := logs + [entry];
    }

    method Info(message: string) returns (entry: string)
      modifies this
      ensures entry == "[INFO] " + message
      ensures logs == old(logs) + [entry]
    {
      Text.UpperKeepsUpper("INFO");
      entry := Log("INFO", message);
    }

    method Warning(message: string) returns (entry: string)
      modifies this
      ensures entry == "[WARNING] " + message
      ensures logs == old(logs) + [entry]
    {
      Text.UpperKeepsUpper("WARNING");
      entry := Log("WARNING", message);
    }

    method Error(message: string) returns (entry: string)
      modifies this
      ensures entry == "[ERROR] " + message
      ensures logs == old(logs) + [entry]
    {
      Text.UpperKeepsUpper("ERROR");
      entry := Log("ERROR", message);
    }

    /** A snapshot of the entries, in the order they were logged. */
    method GetLogs() returns (entries: seq<string>)
      ensures entries == logs
    {
      entries := logs;
    }
  }

  /** The entries the demonstration logs through two references to the same logger. */
  method DemoLogger() returns (entries: seq<string>)
    ensures entries == ["[INFO] " + Started, "[WARNING] " + DiskLow, "[ERROR] " + NoDatabase]
  {
    var logger1 := new Logger();
    var _ := logger1.Info(Started);
    var _ := logger1.Warning(DiskLow);
    var logger2 := logger1;
    var _ := logger2.Error(NoDatabase);
    entries := logger2.GetLogs();
  }

  const Started := "Application started"
  const DiskLow := "Disk space running low"
  const NoDatabase := "Failed to connect to database"
}
