// The Composite pattern: files and folders, and employees and managers, are
// trees whose leaves and inner nodes answer the same questions (size, total
// salary, display); an inner node answers by combining its children's answers.
module Composite {
  import opened Wrappers
  import Text
  import Seqs

  /** `"  " * n`. */
  function Indent(n: nat): (r: string)
    ensures |r| == 2 * n
  {
    if n == 0 then "" else "  " + Indent(n - 1)
  }

  // ---------------------------------------------------------------------
  // File system
  // ---------------------------------------------------------------------

  datatype Item = File(name: string, size: int) | Folder(name: string, children: seq<Item>)

  /** `get_size`: a file's own size, a folder's sum over its children. */
  function Size(i: Item): int
  {
    match i
    case File(_, s) => s
    case Folder(_, cs) => SizeAll(cs)
  }

  function SizeAll(cs: seq<Item>): int
  {
    if cs == [] then 0 else Size(cs[0]) + SizeAll(cs[1..])
  }

  /** Adding an item to a folder grows its size by the item's size. */
  lemma {:induction false} SizeAllAppend(cs: seq<Item>, x: Item)
    ensures SizeAll(cs + [x]) == SizeAll(cs) + Size(x)
  {
    if cs != [] {
      assert (cs + [x])[1..] == cs[1..] + [x];
      SizeAllAppend(cs[1..], x);
    } else {
      assert (cs + [x])[1..] == [];
    }
  }

  /** Removing the first occurrence of an item shrinks the size by the item's size. */
  lemma {:induction false} SizeAllRemove(cs: seq<Item>, x: Item)
    requires x in cs
    ensures SizeAll(Seqs.RemoveFirst(cs, x)) == SizeAll(cs) - Size(x)
  {
    if cs[0] != x {
      SizeAllRemove(cs[1..], x);
      assert Seqs.RemoveFirst(cs, x)[1..] == Seqs.RemoveFirst(cs[1..], x);
    }
  }

  /** A folder's size is the total of the file sizes found anywhere below it. */
  function Files(i: Item): seq<int>
  {
    match i
    case File(_, s) => [s]
    case Folder(_, cs) => FilesAll(cs)
  }

  function FilesAll(cs: seq<Item>): seq<int>
  {
    if cs == [] then [] else Files(cs[0]) + FilesAll(cs[1..])
  }

  function IntSum(xs: seq<int>): int
  {
    if xs == [] then 0 else xs[0] + IntSum(xs[1..])
  }

  lemma {:induction false} IntSumAppend(xs: seq<int>, ys: seq<int>)
    ensures IntSum(xs + ys) == IntSum(xs) + IntSum(ys)
  {
    if xs != [] {
      assert (xs + ys)[1..] == xs[1..] + ys;
      IntSumAppend(xs[1..], ys);
    } else {
      assert xs + ys == ys;
    }
  }

  lemma {:induction false} SizeIsSumOfFiles(i: Item)
    ensures Size(i) == IntSum(Files(i))
  {
    match i
    case File(_, s) =>
    case Folder(_, cs) => SizeAllIsSumOfFiles(cs);
  }

  lemma {:induction false} SizeAllIsSumOfFiles(cs: seq<Item>)
    ensures SizeAll(cs) == IntSum(FilesAll(cs))
  {
    if cs != [] {
      SizeIsSumOfFiles(cs[0]);
      SizeAllIsSumOfFiles(cs[1..]);
      IntSumAppend(Files(cs[0]), FilesAll(cs[1..]));
    }
  }

  function ItemLabel(i: Item): string
  {
    match i
    case File(name, s) => "📄 " + name + " (" + Text.IntToString(s) + " KB)"
    case Folder(name, cs) => "📁 " + name + "/ (" + Text.IntToString(SizeAll(cs)) + " KB)"
  }

  /** `display(indent)`: the item's line, then each child's display one level deeper. */
  function Display(i: Item, indent: nat): string
  {
    match i
    case File(_, _) => Indent(indent) + ItemLabel(i)
    case Folder(_, cs) => Indent(indent) + ItemLabel(i) + DisplayAll(cs, indent + 1)
  }

  function DisplayAll(cs: seq<Item>, indent: nat): string
  {
    if cs == [] then "" else "\n" + Display(cs[0], indent) + DisplayAll(cs[1..], indent)
  }

  /** The nodes of a tree in pre-order, each with its depth. */
  datatype Visit = Visit(item: Item, depth: nat)

  function Preorder(i: Item, depth: nat): (r: seq<Visit>)
    ensures |r| > 0 && r[0] == Visit(i, depth)
  {
    match i
    case File(_, _) => [Visit(i, depth)]
    case Folder(_, cs) => [Visit(i, depth)] + PreorderAll(cs, depth + 1)
  }

  function PreorderAll(cs: seq<Item>, depth: nat): seq<Visit>
  {
    if cs == [] then [] else Preorder(cs[0], depth) + PreorderAll(cs[1..], depth)
  }

  /** A node's line: its label indented by its depth. */
  function Render(v: Visit): string
  {
    Indent(v.depth) + ItemLabel(v.item)
  }

  function Lines(vs: seq<Visit>): (r: seq<string>)
    ensures |r| == |vs|
  {
    if vs == [] then [] else [Render(vs[0])] + Lines(vs[1..])
  }

  lemma {:induction false} LinesAt(vs: seq<Visit>, k: nat)
    requires k < |vs|
    ensures Lines(vs)[k] == Render(vs[k])
  {
    if k > 0 {
      LinesAt(vs[1..], k - 1);
    }
  }

  /** Each node's line preceded by a line break, in order. */
  function Listing(vs: seq<Visit>): string
  {
    if vs == [] then "" else "\n" + Render(vs[0]) + Listing(vs[1..])
  }

  lemma {:induction false} ListingAppend(a: seq<Visit>, b: seq<Visit>)
    ensures Listing(a + b) == Listing(a) + Listing(b)
  {
    if a != [] {
      assert (a + b)[1..] == a[1..] + b;
      ListingAppend(a[1..], b);
    } else {
      assert a + b == b;
    }
  }

  /** Joining the lines of a non-empty listing: the first line, then a break before each other line. */
  lemma {:induction false} JoinedLines(vs: seq<Visit>)
    requires vs != []
    ensures Text.Join(Lines(vs), "\n") == Render(vs[0]) + Listing(vs[1..])
  {
    if |vs| > 1 {
      JoinedLines(vs[1..]);
      Text.JoinCons(Render(vs[0]), Lines(vs[1..]), "\n");
    }
  }

  lemma {:induction false} DisplayListing(i: Item, depth: nat)
    ensures Display(i, depth) == Render(Visit(i, depth)) + Listing(Preorder(i, depth)[1..])
  {
    match i
    case File(_, _) =>
    case Folder(_, cs) =>
      DisplayAllListing(cs, depth + 1);
      assert Preorder(i, depth)[1..] == PreorderAll(cs, depth + 1);
  }

  lemma {:induction false} DisplayAllListing(cs: seq<Item>, depth: nat)
    ensures DisplayAll(cs, depth) == Listing(PreorderAll(cs, depth))
  {
    if cs != [] {
      var head := Preorder(cs[0], depth);
      DisplayListing(cs[0], depth);
      DisplayAllListing(cs[1..], depth);
      ListingAppend(head, PreorderAll(cs[1..], depth));
      assert head == [head[0]] + head[1..];
      ListingAppend([head[0]], head[1..]);
    }
  }

  /** The display is one line per node in pre-order, indented by its depth. */
  lemma DisplayIsPreorder(i: Item, depth: nat)
    ensures Display(i, depth) == Text.Join(Lines(Preorder(i, depth)), "\n")
  {
    DisplayListing(i, depth);
    JoinedLines(Preorder(i, depth));
  }

  /** A folder whose children change in place; nested folders are held as values. */
  class FolderNode {
    const name: string
    var children: seq<Item>

    function AsItem(): Item
      reads this
    {
      Folder(name, children)
    }

    constructor (name: string)
      ensures this.name == name && children == [] && Size(AsItem()) == 0
    {
      this.name := name;
      children := [];
    }

    method Add(item: Item)
      modifies this
      ensures children == old(children) + [item]
      ensures Size(AsItem()) == old(Size(AsItem())) + Size(item)
    {
      SizeAllAppend(children, item);
      children := children + [item];
    }

    /** `list.remove`: the first occurrence goes; an absent item raises ValueError. */
    method Remove(item: Item) returns (r: Result<()>)
      modifies this
      ensures r.Ok? <==> item in old(children)
      ensures r.Ok? ==> children == Seqs.RemoveFirst(old(children), item) && Size(AsItem()) == old(Size(AsItem())) - Size(item)
      ensures r.Err? ==> children == old(children) && r.error == "list.remove(x): x not in list"
    {
      if item in children {
        SizeAllRemove(children, item);
        children := Seqs.RemoveFirst(children, item);
        r := Ok(());
      } else {
        r := Err("list.remove(x): x not in list");
      }
    }

    method GetSize() returns (s: int)
      ensures s == Size(AsItem())
    {
      s := Size(AsItem());
    }
  }

  // ---------------------------------------------------------------------
  // Organisation chart
  // ---------------------------------------------------------------------

  /** Salaries are exact reals standing for the source's floats. */
  datatype Employee =
    | Contributor(name: string, title: string, salary: real)
    | Manager(name: string, title: string, salary: real, reports: seq<Employee>)

  /** `get_total_salary`. */
  function TotalSalary(e: Employee): real
  {
    match e
    case Contributor(_, _, s) => s
    case Manager(_, _, s, rs) => s + TotalSalaryAll(rs)
  }

  function TotalSalaryAll(rs: seq<Employee>): real
  {
    if rs == [] then 0.0 else TotalSalary(rs[0]) + TotalSalaryAll(rs[1..])
  }

  /** The number of people in a subtree, the subtree's own root included. */
  function Headcount(e: Employee): (n: nat)
    ensures n >= 1
  {
    match e
    case Contributor(_, _, _) => 1
    case Manager(_, _, _, rs) => 1 + HeadcountAll(rs)
  }

  function HeadcountAll(rs: seq<Employee>): (n: nat)
    ensures n >= |rs|
  {
    if rs == [] then 0 else Headcount(rs[0]) + HeadcountAll(rs[1..])
  }

  lemma {:induction false} HeadcountAllAppend(rs: seq<Employee>, e: Employee)
    ensures HeadcountAll(rs + [e]) == HeadcountAll(rs) + Headcount(e)
  {
    if rs != [] {
      assert (rs + [e])[1..] == rs[1..] + [e];
      HeadcountAllAppend(rs[1..], e);
    } else {
      assert (rs + [e])[1..] == [];
    }
  }

  lemma {:induction false} TotalSalaryAllAppend(rs: seq<Employee>, e: Employee)
    ensures TotalSalaryAll(rs + [e]) == TotalSalaryAll(rs) + TotalSalary(e)
  {
    if rs != [] {
      assert (rs + [e])[1..] == rs[1..] + [e];
      TotalSalaryAllAppend(rs[1..], e);
    } else {
      assert (rs + [e])[1..] == [];
    }
  }

  /** `get_team_size`: the counting loop over the reports, recursing into managers. */
  method GetTeamSize(m: Employee) returns (count: nat)
    requires m.Manager?
    ensures count == Headcount(m)
    decreases m
  {
    count := 1;
    var i := 0;
    while i < |m.reports|
      invariant 0 <= i <= |m.reports|
      invariant count == 1 + HeadcountAll(m.reports[..i])
    {
      var r := m.reports[i];
      if r.Manager? {
        var c := GetTeamSize(r);
        count := count + c;
      } else {
        count := count + 1;
      }
      HeadcountAllAppend(m.reports[..i], r);
      assert m.reports[..i + 1] == m.reports[..i] + [r];
      i := i + 1;
    }
    assert m.reports[..|m.reports|] == m.reports;
  }

  /** `f"{n:,}"`: digits grouped by threes with commas. */
  function Grouped(n: nat): string
    decreases n
  {
    if n < 1000 then Text.NatToString(n) else Grouped(n / 1000) + "," + Text.ZeroPad(n % 1000, 3)
  }

  /** Rounding to the nearest whole number, ties to the even one, as the `.0f` format rounds. */
  function RoundHalfEven(x: real): (n: int)
    ensures x - 0.5 <= n as real <= x + 0.5
    ensures n as real == x - 0.5 || n as real == x + 0.5 ==> n % 2 == 0
  {
    var f := x.Floor;
    var frac := x - f as real;
    if frac < 0.5 then f
    else if frac > 0.5 then f + 1
    else if f % 2 == 0 then f
    else f + 1
  }

  /** `f"${salary:,.0f}"`: the sign of the salary, then its rounded magnitude grouped by threes. */
  function Dollars(salary: real): string
  {
    if salary < 0.0 then "$-" + Grouped(RoundHalfEven(-salary)) else "$" + Grouped(RoundHalfEven(salary))
  }

  function EmployeeLabel(e: Employee): string
  {
    match e
    case Contributor(name, title, s) => "👤 " + name + " (" + title + ") — " + Dollars(s)
    case Manager(name, title, s, _) => "👔 " + name + " (" + title + ") — " + Dollars(s)
  }

  function ShowEmployee(e: Employee, indent: nat): string
  {
    match e
    case Contributor(_, _, _) => Indent(indent) + EmployeeLabel(e)
    case Manager(_, _, _, rs) => Indent(indent) + EmployeeLabel(e) + ShowAll(rs, indent + 1)
  }

  function ShowAll(rs: seq<Employee>, indent: nat): string
  {
    if rs == [] then "" else "\n" + ShowEmployee(rs[0], indent) + ShowAll(rs[1..], indent)
  }

  datatype Position = Position(employee: Employee, depth: nat)

  function Chart(e: Employee, depth: nat): (r: seq<Position>)
    ensures |r| == Headcount(e) && r[0] == Position(e, depth)
  {
    match e
    case Contributor(_, _, _) => [Position(e, depth)]
    case Manager(_, _, _, rs) => [Position(e, depth)] + ChartAll(rs, depth + 1)
  }

  function ChartAll(rs: seq<Employee>, depth: nat): (r: seq<Position>)
    ensures |r| == HeadcountAll(rs)
  {
    if rs == [] then [] else Chart(rs[0], depth) + ChartAll(rs[1..], depth)
  }

  function RenderPosition(p: Position): string
  {
    Indent(p.depth) + EmployeeLabel(p.employee)
  }

  function ChartLines(ps: seq<Position>): (r: seq<string>)
    ensures |r| == |ps|
  {
    if ps == [] then [] else [RenderPosition(ps[0])] + ChartLines(ps[1..])
  }

  lemma {:induction false} ChartLinesAt(ps: seq<Position>, k: nat)
    requires k < |ps|
    ensures ChartLines(ps)[k] == RenderPosition(ps[k])
  {
    if k > 0 {
      ChartLinesAt(ps[1..], k - 1);
    }
  }

  /** Each person's line preceded by a line break, in order. */
  function ChartListing(ps: seq<Position>): string
  {
    if ps == [] then "" else "\n" + RenderPosition(ps[0]) + ChartListing(ps[1..])
  }

  lemma {:induction false} ChartListingAppend(a: seq<Position>, b: seq<Position>)
    ensures ChartListing(a + b) == ChartListing(a) + ChartListing(b)
  {
    if a != [] {
      assert (a + b)[1..] == a[1..] + b;
      ChartListingAppend(a[1..], b);
    } else {
      assert a + b == b;
    }
  }

  lemma {:induction false} JoinedChartLines(ps: seq<Position>)
    requires ps != []
    ensures Text.Join(ChartLines(ps), "\n") == RenderPosition(ps[0]) + ChartListing(ps[1..])
  {
    if |ps| > 1 {
      JoinedChartLines(ps[1..]);
      Text.JoinCons(RenderPosition(ps[0]), ChartLines(ps[1..]), "\n");
    }
  }

  lemma {:induction false} ShowListing(e: Employee, depth: nat)
    ensures ShowEmployee(e, depth) == RenderPosition(Position(e, depth)) + ChartListing(Chart(e, depth)[1..])
  {
    match e
    case Contributor(_, _, _) =>
    case Manager(_, _, _, rs) =>
      ShowAllListing(rs, depth + 1);
      assert Chart(e, depth)[1..] == ChartAll(rs, depth + 1);
  }

  lemma {:induction false} ShowAllListing(rs: seq<Employee>, depth: nat)
    ensures ShowAll(rs, depth) == ChartListing(ChartAll(rs, depth))
  {
    if rs != [] {
      var head := Chart(rs[0], depth);
      ShowListing(rs[0], depth);
      ShowAllListing(rs[1..], depth);
      ChartListingAppend(head, ChartAll(rs[1..], depth));
      assert head == [head[0]] + head[1..];
      ChartListingAppend([head[0]], head[1..]);
    }
  }

  /** The chart shows everyone once, in pre-order, indented by their depth below the top. */
  lemma ShowIsPreorder(e: Employee, depth: nat)
    ensures ShowEmployee(e, depth) == Text.Join(ChartLines(Chart(e, depth)), "\n")
  {
    ShowListing(e, depth);
    JoinedChartLines(Chart(e, depth));
  }

  /** A manager whose list of reports changes in place. */
  class ManagerNode {
    const name: string
    const title: string
    const salary: real
    var reports: seq<Employee>

    function AsEmployee(): Employee
      reads this
    {
      Manager(name, title, salary, reports)
    }

    constructor (name: string, title: string, salary: real)
      ensures this.name == name && this.title == title && this.salary == salary && reports == []
    {
      this.name := name;
      this.title := title;
      this.salary := salary;
      reports := [];
    }

    /** A new report adds their whole subtree to the team and its salaries to the total. */
    method AddReport(e: Employee)
      modifies this
      ensures reports == old(reports) + [e]
      ensures Headcount(AsEmployee()) == old(Headcount(AsEmployee())) + Headcount(e)
      ensures TotalSalary(AsEmployee()) == old(TotalSalary(AsEmployee())) + TotalSalary(e)
    {
      HeadcountAllAppend(reports, e);
      TotalSalaryAllAppend(reports, e);
      reports := reports + [e];
    }
  }
}
