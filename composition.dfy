// Composition: a robot holds a list of movement abilities it can gain and
// lose, a computer holds parts it can swap, and a notification service
// combines any formatter with any sender.
module Composition {
  import opened Wrappers
  import Text
  import Seqs

  // ---------------------------------------------------------------------
  // Robot and its abilities
  // ---------------------------------------------------------------------

  /** The movement ability classes; an ability object has no state. */
  datatype Ability = Walk | Swim | Fly | Climb

  /** `get_name`. */
  function AbilityName(a: Ability): string
  {
    match a
    case Walk => "Walk"
    case Swim => "Swim"
    case Fly => "Fly"
    case Climb => "Climb"
  }

  /** `move`. */
  function Move(a: Ability): string
  {
    match a
    case Walk => "🚶 Walking on the ground"
    case Swim => "🏊 Swimming through water"
    case Fly => "✈️  Flying through the air"
    case Climb => "🧗 Climbing the wall"
  }

  /** The condition `remove_ability` keeps an ability by. */
  function Keeps(abilityName: string): Ability -> bool
  {
    a => AbilityName(a) != abilityName
  }

  /** `[a.get_name() for a in abilities]`. */
  function Names(abilities: seq<Ability>): (r: seq<string>)
    ensures |r| == |abilities|
    ensures forall i :: 0 <= i < |abilities| ==> r[i] == AbilityName(abilities[i])
  {
    seq(|abilities|, i requires 0 <= i < |abilities| => AbilityName(abilities[i]))
  }

  function NoAbilities(robotName: string): string
  {
    "🤖 " + robotName + " has no abilities"
  }

  /** `show_abilities` for a robot with this name and these abilities. */
  function ShowText(robotName: string, abilities: seq<Ability>): string
  {
    if |abilities| == 0 then NoAbilities(robotName)
    else "🤖 " + robotName + " can: " + Text.Join(Names(abilities), ", ")
  }

  /** `perform_all`: one indented line per ability. */
  function PerformLines(abilities: seq<Ability>): seq<string>
  {
    seq(|abilities|, i requires 0 <= i < |abilities| => "  " + Move(abilities[i]))
  }

  class Robot {
    const name: string
    var abilities: seq<Ability>

    constructor (name: string)
      ensures this.name == name && abilities == []
    {
      this.name := name;
      abilities := [];
    }

    /** The new ability goes last. */
    method AddAbility(a: Ability)
      modifies this
      ensures abilities == old(abilities) + [a]
    {
      abilities := abilities + [a];
    }

    /** Drops every ability with that name; the others keep their order. */
    method RemoveAbility(abilityName: string)
      modifies this
      ensures abilities == Seqs.Filter(old(abilities), Keeps(abilityName))
      ensures forall a :: a in abilities <==> a in old(abilities) && AbilityName(a) != abilityName
      ensures (forall a :: a in old(abilities) ==> AbilityName(a) != abilityName) ==> abilities == old(abilities)
    {
      Seqs.FilterMembers(abilities, Keeps(abilityName));
      if forall a :: a in abilities ==> AbilityName(a) != abilityName {
        Seqs.FilterKeepsAll(abilities, Keeps(abilityName));
      }
      abilities := Seqs.Filter(abilities, Keeps(abilityName));
    }

    function ShowAbilities(): string
      reads this
    {
      ShowText(name, abilities)
    }

    function PerformAll(): seq<string>
      reads this
    {
      PerformLines(abilities)
    }
  }

  /** The "no abilities" message is shown exactly when the list is empty. */
  lemma {:induction false} ShowTextEmpty(robotName: string, abilities: seq<Ability>)
    ensures ShowText(robotName, abilities) == NoAbilities(robotName) <==> |abilities| == 0
  {
    if |abilities| > 0 {
      var k := |"🤖 " + robotName + " "|;
      assert ShowText(robotName, abilities)[k] == 'c';
      assert NoAbilities(robotName)[k] == 'h';
    }
  }

  /** Adding an ability to a non-empty list shows it after the others, behind ", ". */
  lemma {:induction false} ShowTextAfterAdd(robotName: string, abilities: seq<Ability>, a: Ability)
    requires |abilities| > 0
    ensures ShowText(robotName, abilities + [a]) == ShowText(robotName, abilities) + ", " + AbilityName(a)
  {
    assert Names(abilities + [a]) == Names(abilities) + [AbilityName(a)];
    Text.JoinAppend(Names(abilities), [AbilityName(a)], ", ");
  }

  /** A single ability is shown by its name alone. */
  lemma ShowTextSingle(robotName: string, a: Ability)
    ensures ShowText(robotName, [a]) == "🤖 " + robotName + " can: " + AbilityName(a)
  {
    assert Names([a]) == [AbilityName(a)];
  }

  /** `perform_all` has one line per ability, in the order of the abilities. */
  lemma PerformLinesInOrder(abilities: seq<Ability>)
    ensures |PerformLines(abilities)| == |abilities|
    ensures forall i :: 0 <= i < |abilities| ==> PerformLines(abilities)[i] == "  " + Move(abilities[i])
  {
  }

  /** Adding an ability adds its line at the end and leaves the earlier lines as they were. */
  lemma {:induction false} PerformLinesAfterAdd(abilities: seq<Ability>, a: Ability)
    ensures PerformLines(abilities + [a]) == PerformLines(abilities) + ["  " + Move(a)]
  {
    assert forall i :: 0 <= i < |abilities| + 1 ==>
      PerformLines(abilities + [a])[i] == (PerformLines(abilities) + ["  " + Move(a)])[i];
  }

  /** Three abilities are shown by their names, in order, separated by ", ". */
  lemma ShowTextThree(robotName: string, a: Ability, b: Ability, c: Ability)
    ensures ShowText(robotName, [a, b, c])
      == "🤖 " + robotName + " can: " + AbilityName(a) + ", " + AbilityName(b) + ", " + AbilityName(c)
  {
    ShowTextSingle(robotName, a);
    ShowTextAfterAdd(robotName, [a], b);
    assert [a] + [b] == [a, b];
    ShowTextAfterAdd(robotName, [a, b], c);
    assert [a, b] + [c] == [a, b, c];
  }

  /** Removing Swim from the explorer's three abilities keeps the other two in order. */
  lemma RemoveSwim()
    ensures Seqs.Filter([Walk, Swim, Climb], Keeps("Swim")) == [Walk, Climb]
  {
    var keep := Keeps("Swim");
    assert [Walk, Swim, Climb][1..] == [Swim, Climb] && [Swim, Climb][1..] == [Climb] && [Climb][1..] == [];
    assert Seqs.Filter([Climb], keep) == [Climb];
    assert Seqs.Filter([Swim, Climb], keep) == [Climb];
  }

  /** The demonstration's explorer: Swim is removed from the middle and Fly joins at the end. */
  method DemoRobot() returns (before: seq<Ability>, after: seq<Ability>)
    ensures before == [Walk, Swim, Climb]
    ensures after == [Walk, Climb, Fly]
  {
    var robot := new Robot("Explorer Bot");
    robot.AddAbility(Walk);
    robot.AddAbility(Swim);
    robot.AddAbility(Climb);
    before := robot.abilities;
    assert before == [Walk, Swim, Climb];
    RemoveSwim();
    robot.RemoveAbility("Swim");
    assert robot.abilities == [Walk, Climb];
    robot.AddAbility(Fly);
    after := robot.abilities;
  }

  // ---------------------------------------------------------------------
  // Computer and its parts
  // ---------------------------------------------------------------------

  /** A processor; `speed` is the text Python prints for the clock rate. */
  datatype Cpu = Cpu(model: string, cores: int, speed: string)
  datatype Ram = Ram(sizeGb: int, kind: string)
  datatype Storage = Storage(sizeGb: int, kind: string)
  datatype Gpu = Gpu(model: string, vramGb: int)

  function Process(c: Cpu): string
  {
    "⚡ " + c.model + " (" + Text.IntToString(c.cores) + " cores @ " + c.speed + "GHz) processing..."
  }

  function Render(g: Gpu): string
  {
    "🎮 " + g.model + " (" + Text.IntToString(g.vramGb) + "GB VRAM) rendering..."
  }

  function CpuText(c: Cpu): string { "CPU: " + c.model }
  function RamText(r: Ram): string { "RAM: " + Text.IntToString(r.sizeGb) + "GB " + r.kind }
  function StorageText(s: Storage): string { "Storage: " + Text.IntToString(s.sizeGb) + "GB " + s.kind }
  function GpuText(g: Gpu): string { "GPU: " + g.model }

  /** `run_task` adds the GPU line for a computer with a GPU and a task that mentions rendering. */
  predicate RendersTask(gpu: Option<Gpu>, task: string)
  {
    gpu.Some? && Text.Contains(Text.Lower(task), "render")
  }

  class Computer {
    const name: string
    var cpu: Cpu
    var ram: Ram
    var storage: Storage
    const gpu: Option<Gpu>

    constructor (name: string, cpu: Cpu, ram: Ram, storage: Storage, gpu: Option<Gpu>)
      ensures this.name == name && this.cpu == cpu && this.ram == ram
      ensures this.storage == storage && this.gpu == gpu
    {
      this.name := name;
      this.cpu := cpu;
      this.ram := ram;
      this.storage := storage;
      this.gpu := gpu;
    }

    /** The lines `specs` joins with newlines: the GPU line only when there is a GPU. */
    function SpecLines(): (lines: seq<string>)
      reads this
      ensures |lines| == if gpu.Some? then 5 else 4
    {
      ["  💻 " + name, "     " + CpuText(cpu), "     " + RamText(ram), "     " + StorageText(storage)]
        + (if gpu.Some? then ["     " + GpuText(gpu.value)] else [])
    }

    function Specs(): string
      reads this
    {
      Text.Join(SpecLines(), "\n")
    }

    /** Two lines, and the GPU's line third exactly when the task is a rendering one. */
    function RunTask(task: string): (lines: seq<string>)
      reads this
      ensures |lines| == if RendersTask(gpu, task) then 3 else 2
      ensures lines[0] == "  Running '" + task + "' on " + name + ":"
      ensures lines[1] == "    " + Process(cpu)
      ensures RendersTask(gpu, task) ==> lines[2] == "    " + Render(gpu.value)
    {
      ["  Running '" + task + "' on " + name + ":", "    " + Process(cpu)]
        + (if RendersTask(gpu, task) then ["    " + Render(gpu.value)] else [])
    }

    /** Replaces the memory only. */
    method UpgradeRam(newRam: Ram) returns (message: string)
      modifies this
      ensures ram == newRam && cpu == old(cpu) && storage == old(storage)
      ensures message == "  🔧 Upgraded RAM: " + RamText(old(ram)) + " → " + RamText(newRam)
    {
      var previous := ram;
      ram := newRam;
      message := "  🔧 Upgraded RAM: " + RamText(previous) + " → " + RamText(newRam);
    }

    /** Replaces the storage only. */
    method UpgradeStorage(newStorage: Storage) returns (message: string)
      modifies this
      ensures storage == newStorage && cpu == old(cpu) && ram == old(ram)
      ensures message == "  🔧 Upgraded Storage: " + StorageText(old(storage)) + " → " + StorageText(newStorage)
    {
      var previous := storage;
      storage := newStorage;
      message := "  🔧 Upgraded Storage: " + StorageText(previous) + " → " + StorageText(newStorage);
    }
  }

  /** A decimal rendering never holds a line break. */
  lemma IntToStringNoNewline(i: int)
    ensures '\n' !in Text.IntToString(i)
  {
    var d := Text.NatToString(if i < 0 then -i else i);
    assert forall k :: 0 <= k < |d| ==> d[k] != '\n';
    if i < 0 {
      assert Text.IntToString(i) == "-" + d;
      assert forall k :: 0 <= k < |"-" + d| ==> ("-" + d)[k] != '\n';
    }
  }

  /** When no part's text holds a line break, `specs` has one line per present part. */
  lemma SpecsLineCount(c: Computer)
    requires '\n' !in c.name && '\n' !in c.cpu.model && '\n' !in c.ram.kind && '\n' !in c.storage.kind
    requires c.gpu.Some? ==> '\n' !in c.gpu.value.model
    ensures |Text.Split(c.Specs(), '\n')| == if c.gpu.Some? then 5 else 4
  {
    IntToStringNoNewline(c.ram.sizeGb);
    IntToStringNoNewline(c.storage.sizeGb);
    var lines := c.SpecLines();
    assert forall k :: 0 <= k < |lines| ==> '\n' !in lines[k];
    Text.SplitJoin(lines, '\n');
  }

  /** Upper-casing the task does not change whether the GPU renders it. */
  lemma {:induction false} RendersTaskIgnoresCase(gpu: Option<Gpu>, task: string)
    ensures RendersTask(gpu, Text.Upper(task)) == RendersTask(gpu, task)
  {
    assert Text.Lower(Text.Upper(task)) == Text.Lower(task) by {
      assert forall i :: 0 <= i < |task| ==> Text.Lower(Text.Upper(task))[i] == Text.Lower(task)[i];
    }
  }

  // ---------------------------------------------------------------------
  // Notification service: formatter × sender
  // ---------------------------------------------------------------------

  datatype Formatter = PlainTextFormatter | HtmlFormatter | MarkdownFormatter
  datatype Sender = EmailSender | SmsSender

  /** `format`: the plain formatter passes the message through unchanged. */
  function Format(f: Formatter, message: string): (r: string)
    ensures f == PlainTextFormatter ==> r == message
  {
    match f
    case PlainTextFormatter => message
    case HtmlFormatter => "<html><body><p>" + message + "</p></body></html>"
    case MarkdownFormatter => "**Notification:** " + message
  }

  /** `send`: at most the first 50 characters of the content, then "...". */
  function Send(s: Sender, recipient: string, content: string): string
  {
    var head := match s
      case EmailSender => "📧 Email to "
      case SmsSender => "📱 SMS to ";
    head + recipient + ": " + Text.Take(content, 50) + "..."
  }

  /** A formatter paired with a sender; neither is replaced after construction. */
  datatype NotificationService = NotificationService(formatter: Formatter, sender: Sender)

  /** `notify`: the sender sends what the formatter made of the message. */
  function Notify(svc: NotificationService, recipient: string, message: string): string
  {
    Send(svc.sender, recipient, Format(svc.formatter, message))
  }

  /** Every formatter keeps the whole message inside what it produces. */
  lemma FormatKeepsMessage(f: Formatter, message: string)
    ensures Text.Contains(Format(f, message), message)
  {
    var r := Format(f, message);
    var k := match f
      case PlainTextFormatter => 0
      case HtmlFormatter => |"<html><body><p>"|
      case MarkdownFormatter => |"**Notification:** "|;
    assert r[k..k + |message|] == message;
    Text.ContainsAt(r, message, k);
  }

  /** Content past the first 50 characters never reaches the recipient. */
  lemma SendIgnoresTail(s: Sender, recipient: string, content: string, extra: string)
    requires |content| >= 50
    ensures Send(s, recipient, content + extra) == Send(s, recipient, content)
  {
    assert (content + extra)[..50] == content[..50];
  }

  /** With the plain formatter, notifying is sending the message as it is. */
  lemma NotifyPlain(sender: Sender, recipient: string, message: string)
    ensures Notify(NotificationService(PlainTextFormatter, sender), recipient, message)
      == Send(sender, recipient, message)
  {
  }
}
