// Inheritance: a bird that may or may not fly, and an employee hierarchy in
// which each subclass extends the pay calculation of its parent. A manager's
// team is a list the manager object extends in place.
module Inheritance {
  import Text

  // ---------------------------------------------------------------------
  // Birds
  // ---------------------------------------------------------------------

  datatype Bird = Bird(name: string, age: int, canFly: bool)

  function FlyingHigh(name: string): string
  {
    "🐦 " + name + " is flying high!"
  }

  function SwimsInstead(name: string): string
  {
    "🐧 " + name + " can't fly, but can swim!"
  }

  /** `fly`: the flying message exactly for a bird that can fly, the swimming one otherwise. */
  function Fly(b: Bird): (r: string)
    ensures b.canFly <==> r == FlyingHigh(b.name)
    ensures !b.canFly <==> r == SwimsInstead(b.name)
  {
    assert FlyingHigh(b.name)[0] != SwimsInstead(b.name)[0];
    if b.canFly then FlyingHigh(b.name) else SwimsInstead(b.name)
  }

  // ---------------------------------------------------------------------
  // Employee hierarchy
  // ---------------------------------------------------------------------

  /** The non-manager classes of the hierarchy, with the fields each adds. */
  datatype Position =
    | PlainEmployee
    | Developer(techStack: seq<string>)
    | SeniorDeveloper(techStack: seq<string>, mentees: int)

  datatype Staff = Staff(name: string, employeeId: string, baseSalary: real, position: Position)

  /** `Developer.calculate_pay`: 2000 for each technology. */
  function DeveloperPay(baseSalary: real, techStack: seq<string>): real
  {
    baseSalary + (|techStack| * 2000) as real
  }

  /** `calculate_pay`, dispatched on the class; a senior developer adds 3000 per mentee to the developer's pay. */
  function CalculatePay(s: Staff): real
  {
    match s.position
    case PlainEmployee => s.baseSalary
    case Developer(t) => DeveloperPay(s.baseSalary, t)
    case SeniorDeveloper(t, m) => DeveloperPay(s.baseSalary, t) + (m * 3000) as real
  }

  function GetRole(s: Staff): string
  {
    match s.position
    case PlainEmployee => "Employee"
    case Developer(_) => "Developer"
    case SeniorDeveloper(_, _) => "Senior Developer"
  }

  /** Pay by class: the base, plus 2000 per technology, plus 3000 per mentee on top of a developer's pay. */
  lemma {:induction false} PayByPosition(s: Staff)
    ensures s.position.PlainEmployee? ==> CalculatePay(s) == s.baseSalary
    ensures s.position.Developer? ==>
      CalculatePay(s) == s.baseSalary + 2000.0 * |s.position.techStack| as real
    ensures s.position.SeniorDeveloper? ==>
      CalculatePay(s) == CalculatePay(s.(position := Developer(s.position.techStack))) + 3000.0 * s.position.mentees as real
  {
  }

  /** One more technology raises a developer's pay by exactly 2000. */
  lemma {:induction false} SkillRaisesPay(s: Staff, tech: string)
    requires s.position.Developer?
    ensures CalculatePay(s.(position := Developer(s.position.techStack + [tech]))) == CalculatePay(s) + 2000.0
  {
    assert |s.position.techStack + [tech]| == |s.position.techStack| + 1;
  }

  /** Without negative mentee counts nobody is paid less than the base salary. */
  lemma PayAtLeastBase(s: Staff)
    requires s.position.SeniorDeveloper? ==> s.position.mentees >= 0
    ensures CalculatePay(s) >= s.baseSalary
  {
  }

  /** An employee a manager can have on the team: a non-manager, or another manager. */
  datatype TeamMember = StaffMember(staff: Staff) | ManagerMember(manager: Manager)

  /** The manager's role text for a team of `n`. */
  function ManagerRole(n: nat): string
  {
    "Manager (team of " + Text.NatToString(n) + ")"
  }

  /** The role text tells the team size: different sizes give different texts. */
  lemma {:induction false} ManagerRoleInjective(m: nat, n: nat)
    requires ManagerRole(m) == ManagerRole(n)
    ensures m == n
  {
    var prefix := "Manager (team of ";
    var r := ManagerRole(m);
    assert |Text.NatToString(m)| == |Text.NatToString(n)|;
    assert Text.NatToString(m) == r[|prefix|..|r| - 1] == Text.NatToString(n);
    Text.NatToStringRoundTrip(m);
    Text.NatToStringRoundTrip(n);
  }

  class Manager {
    const name: string
    const employeeId: string
    const baseSalary: real
    var team: seq<TeamMember>

    constructor (name: string, employeeId: string, baseSalary: real)
      ensures this.name == name && this.employeeId == employeeId && this.baseSalary == baseSalary
      ensures team == []
    {
      this.name := name;
      this.employeeId := employeeId;
      this.baseSalary := baseSalary;
      team := [];
    }

    /** The base salary plus 5000 for each member of the team. */
    function CalculatePay(): real
      reads this
    {
      baseSalary + (|team| * 5000) as real
    }

    function Role(): string
      reads this
    {
      ManagerRole(|team|)
    }

    /** The member joins at the end, and the pay rises by exactly 5000. */
    method AddToTeam(e: TeamMember)
      modifies this
      ensures team == old(team) + [e]
      ensures CalculatePay() == old(CalculatePay()) + 5000.0
      ensures Role() == ManagerRole(|old(team)| + 1)
    {
      team := team + [e];
    }
  }

  /** A manager with a team of `n` earns the base salary plus 5000 for each of them. */
  lemma ManagerPayByTeam(m: Manager)
    ensures m.CalculatePay() == m.baseSalary + 5000.0 * |m.team| as real
    ensures m.Role() == ManagerRole(|m.team|)
  {
  }

  const Alice := Staff("Alice", "DEV-001", 100000.0, Developer(["Python", "React", "Docker"]))
  const Bob := Staff("Bob", "DEV-002", 130000.0, SeniorDeveloper(["Python", "Go", "K8s", "AWS"], 3))

  /** The demonstration's pay figures: 106000, 147000, and 130000 for a manager of two. */
  method DemoEmployees() returns (devPay: real, seniorPay: real, managerPay: real, managerRole: string)
    ensures devPay == 106000.0 && seniorPay == 147000.0 && managerPay == 130000.0
    ensures managerRole == ManagerRole(2)
  {
    var mgr := new Manager("Charlie", "MGR-001", 120000.0);
    mgr.AddToTeam(StaffMember(Alice));
    mgr.AddToTeam(StaffMember(Bob));
    devPay := CalculatePay(Alice);
    seniorPay := CalculatePay(Bob);
    managerPay := mgr.CalculatePay();
    managerRole := mgr.Role();
  }
}
