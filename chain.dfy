// Chain of Responsibility: expense approvals passed up a management chain, and
// login attempts passed through a pipeline of security checks. A chain of
// handler objects linked by `set_next` is modelled by the sequence of its
// handlers, head first.
module ChainOfResponsibility {
  import opened Wrappers
  import Text

  // ---------------------------------------------------------------------
  // Expense approval
  // ---------------------------------------------------------------------

  datatype ApprovalStatus = Approved | Rejected | Pending

  /** `ExpenseRequest`: the handlers write its status and approver in place. */
  class ExpenseRequest {
    const employee: string
    const amount: real
    const description: string
    var status: ApprovalStatus
    var approvedBy: string

    constructor (employee: string, amount: real, description: string)
      ensures this.employee == employee && this.amount == amount && this.description == description
      ensures status == Pending && approvedBy == ""
    {
      this.employee := employee;
      this.amount := amount;
      this.description := description;
      status := Pending;
      approvedBy := "";
    }
  }

  datatype Approver = TeamLead | DepartmentManager | Director | CEO

  function CanApprove(a: Approver, amount: real): bool
  {
    match a
    case TeamLead => amount <= 1000.0
    case DepartmentManager => amount <= 10000.0
    case Director => amount <= 50000.0
    case CEO => true
  }

  function Title(a: Approver): string
  {
    match a
    case TeamLead => "Team Lead"
    case DepartmentManager => "Department Manager"
    case Director => "Director"
    case CEO => "CEO"
  }

  /** Which approver of the chain ends up approving: the first whose limit covers the amount. */
  function ApprovingIndex(chain: seq<Approver>, amount: real): (r: Option<nat>)
    ensures r.Some? ==> r.value < |chain| && CanApprove(chain[r.value], amount)
    ensures r.Some? ==> forall j :: 0 <= j < r.value ==> !CanApprove(chain[j], amount)
    ensures r.None? <==> forall j :: 0 <= j < |chain| ==> !CanApprove(chain[j], amount)
  {
    if |chain| == 0 then None
    else if CanApprove(chain[0], amount) then Some(0)
    else match ApprovingIndex(chain[1..], amount)
      case None => None
      case Some(i) => Some(i + 1)
  }

  /** `ExpenseApprover.handle`: approve here, or pass to the next approver, or reject at the end. */
  method HandleExpense(chain: seq<Approver>, request: ExpenseRequest)
    requires |chain| > 0
    modifies request
    ensures ApprovingIndex(chain, request.amount).Some? ==>
      request.status == Approved && request.approvedBy == Title(chain[ApprovingIndex(chain, request.amount).value])
    ensures ApprovingIndex(chain, request.amount).None? ==>
      request.status == Rejected && request.approvedBy == old(request.approvedBy)
    decreases |chain|
  {
    if CanApprove(chain[0], request.amount) {
      request.status := Approved;
      request.approvedBy := Title(chain[0]);
    } else if |chain| > 1 {
      HandleExpense(chain[1..], request);
    } else {
      request.status := Rejected;
    }
  }

  /** The chain the demo builds: Team Lead, then Department Manager, then Director, then CEO. */
  const ManagementChain: seq<Approver> := [TeamLead, DepartmentManager, Director, CEO]

  /** In the management chain each amount goes to the lowest level whose limit covers it, and nothing is rejected. */
  lemma ManagementChainRouting(amount: real)
    ensures ApprovingIndex(ManagementChain, amount) ==
      Some(if amount <= 1000.0 then 0 else if amount <= 10000.0 then 1 else if amount <= 50000.0 then 2 else 3)
  {
    var c1, c2, c3 := ManagementChain[1..], ManagementChain[2..], ManagementChain[3..];
    assert c1[1..] == c2 && c2[1..] == c3 && c3 == [CEO];
    assert ApprovingIndex(c3, amount) == Some(0);
    assert ApprovingIndex(c2, amount) == Some(if amount <= 50000.0 then 0 else 1);
    assert ApprovingIndex(c1, amount) == Some(if amount <= 10000.0 then 0 else if amount <= 50000.0 then 1 else 2);
  }

  /** Any chain that ends with the CEO approves every request. */
  lemma ChainEndingWithCeoNeverRejects(chain: seq<Approver>, amount: real)
    requires |chain| > 0 && chain[|chain| - 1] == CEO
    ensures ApprovingIndex(chain, amount).Some?
  {
    assert CanApprove(chain[|chain| - 1], amount);
  }

  // ---------------------------------------------------------------------
  // Security pipeline
  // ---------------------------------------------------------------------

  /** `AuthRequest`: the checks append their complaints to `errors`. */
  class AuthRequest {
    const username: string
    const password: string
    const ipAddress: string
    const userAgent: string
    var errors: seq<string>

    constructor (username: string, password: string, ipAddress: string, userAgent: string)
      ensures this.username == username && this.password == password
      ensures this.ipAddress == ipAddress && this.userAgent == userAgent
      ensures errors == []
    {
      this.username := username;
      this.password := password;
      this.ipAddress := ipAddress;
      this.userAgent := userAgent;
      errors := [];
    }
  }

  /** `RateLimitCheck._request_counts`: one table of attempts per user name, shared by every rate-limit check. */
  class RequestCounts {
    var counts: map<string, int>

    constructor ()
      ensures counts == map[]
    {
      counts := map[];
    }
  }

  datatype SecurityCheck = IPWhitelist | RateLimit | Credentials | BotDetection

  const BlacklistedIps: set<string> := {"192.168.1.100", "10.0.0.1"}
  const ValidCredentials: map<string, string> := map["alice" := "password123", "bob" := "secure456"]
  const MaxAttempts: int := 5

  function CountOf(counts: map<string, int>, user: string): int
  {
    if user in counts then counts[user] else 0
  }

  predicate ValidLogin(user: string, password: string)
  {
    user in ValidCredentials && ValidCredentials[user] != "" && ValidCredentials[user] == password
  }

  predicate LooksLikeBot(userAgent: string)
  {
    Text.Contains(Text.Lower(userAgent), "bot")
  }

  /** What running (part of) the pipeline does: its verdict, the errors it appends and the new attempt table. */
  datatype Verdict = Verdict(passed: bool, errors: seq<string>, counts: map<string, int>)

  /** One handler's `check`. */
  function RunCheck(c: SecurityCheck, user: string, password: string, ip: string, agent: string,
                    counts: map<string, int>): (v: Verdict)
    ensures v.passed <==> v.errors == []
    ensures |v.errors| <= 1
    ensures forall k :: k != user ==> (k in v.counts <==> k in counts)
    ensures forall k :: k != user && k in counts ==> v.counts[k] == counts[k]
  {
    match c
    case IPWhitelist =>
      if ip in BlacklistedIps then Verdict(false, ["🚫 IP " + ip + " is blacklisted"], counts)
      else Verdict(true, [], counts)
    case RateLimit =>
      var count := CountOf(counts, user) + 1;
      var counts' := counts[user := count];
      if count > MaxAttempts then Verdict(false, ["⏱️ Rate limit exceeded"], counts')
      else Verdict(true, [], counts')
    case Credentials =>
      if ValidLogin(user, password) then Verdict(true, [], counts)
      else Verdict(false, ["🔑 Invalid credentials"], counts)
    case BotDetection =>
      if LooksLikeBot(agent) then Verdict(false, ["🤖 Bot detected"], counts)
      else Verdict(true, [], counts)
  }

  /** `SecurityHandler.handle`: stop at the first check that fails, pass when the chain is exhausted. */
  function RunChain(chain: seq<SecurityCheck>, user: string, password: string, ip: string, agent: string,
                    counts: map<string, int>): (v: Verdict)
    ensures v.passed <==> v.errors == []
    ensures |v.errors| <= 1
    ensures forall k :: k != user ==> (k in v.counts <==> k in counts)
    ensures forall k :: k != user && k in counts ==> v.counts[k] == counts[k]
    decreases |chain|
  {
    if |chain| == 0 then Verdict(true, [], counts)
    else
      var first := RunCheck(chain[0], user, password, ip, agent, counts);
      if !first.passed then first
      else RunChain(chain[1..], user, password, ip, agent, first.counts)
  }

  /** A chain without a rate-limit check leaves the attempt table as it was. */
  lemma {:induction false} NoRateLimitKeepsCounts(chain: seq<SecurityCheck>, user: string, password: string,
                                                  ip: string, agent: string, counts: map<string, int>)
    requires RateLimit !in chain
    ensures RunChain(chain, user, password, ip, agent, counts).counts == counts
    decreases |chain|
  {
    if |chain| > 0 {
      NoRateLimitKeepsCounts(chain[1..], user, password, ip, agent, counts);
    }
  }

  /** A request that gets through the chain satisfied every check the chain contains. */
  lemma {:induction false} PassingMeansEveryCheckHeld(chain: seq<SecurityCheck>, user: string, password: string,
                                                     ip: string, agent: string, counts: map<string, int>)
    requires RunChain(chain, user, password, ip, agent, counts).passed
    ensures IPWhitelist in chain ==> ip !in BlacklistedIps
    ensures Credentials in chain ==> ValidLogin(user, password)
    ensures BotDetection in chain ==> !LooksLikeBot(agent)
    ensures RateLimit in chain ==> CountOf(RunChain(chain, user, password, ip, agent, counts).counts, user) <= MaxAttempts
    decreases |chain|
  {
    if |chain| > 0 {
      var first := RunCheck(chain[0], user, password, ip, agent, counts);
      var rest := chain[1..];
      PassingMeansEveryCheckHeld(rest, user, password, ip, agent, first.counts);
      assert chain == [chain[0]] + rest;
      if RateLimit in chain && RateLimit !in rest {
        NoRateLimitKeepsCounts(rest, user, password, ip, agent, first.counts);
      }
    }
  }

  /** Each rate-limit check that is reached counts one more attempt for the user. */
  lemma RateLimitCountsOneAttempt(user: string, password: string, ip: string, agent: string, counts: map<string, int>)
    ensures CountOf(RunCheck(RateLimit, user, password, ip, agent, counts).counts, user) == CountOf(counts, user) + 1
    ensures RunCheck(RateLimit, user, password, ip, agent, counts).passed <==> CountOf(counts, user) + 1 <= MaxAttempts
  {
  }

  /** The pipeline the demo builds: IP, then bot detection, then rate limit, then credentials. */
  const LoginChain: seq<SecurityCheck> := [IPWhitelist, BotDetection, RateLimit, Credentials]

  /** A blacklisted address or a bot is turned away before its attempt is counted. */
  lemma LoginChainRejectsEarly(user: string, password: string, ip: string, agent: string, counts: map<string, int>)
    requires ip in BlacklistedIps || LooksLikeBot(agent)
    ensures !RunChain(LoginChain, user, password, ip, agent, counts).passed
    ensures RunChain(LoginChain, user, password, ip, agent, counts).counts == counts
  {
    assert LoginChain[1..] == [BotDetection, RateLimit, Credentials];
  }

  /** An attempt from a clean address and a human agent is counted and decided by the limit and the password. */
  lemma LoginChainDecision(user: string, password: string, ip: string, agent: string, counts: map<string, int>)
    requires ip !in BlacklistedIps && !LooksLikeBot(agent)
    ensures CountOf(RunChain(LoginChain, user, password, ip, agent, counts).counts, user) == CountOf(counts, user) + 1
    ensures RunChain(LoginChain, user, password, ip, agent, counts).passed <==>
      CountOf(counts, user) + 1 <= MaxAttempts && ValidLogin(user, password)
  {
    assert LoginChain[1..] == [BotDetection, RateLimit, Credentials];
    assert LoginChain[1..][1..] == [RateLimit, Credentials];
    assert LoginChain[1..][1..][1..] == [Credentials];
    assert LoginChain[1..][1..][1..][1..] == [];
  }

  /** One handler's `check`, run on the request object and the shared attempt table. */
  method Check(c: SecurityCheck, request: AuthRequest, table: RequestCounts) returns (ok: bool)
    modifies request, table
    ensures var v := RunCheck(c, request.username, request.password, request.ipAddress, request.userAgent, old(table.counts));
      ok == v.passed && request.errors == old(request.errors) + v.errors && table.counts == v.counts
  {
    var v := RunCheck(c, request.username, request.password, request.ipAddress, request.userAgent, table.counts);
    request.errors := request.errors + v.errors;
    table.counts := v.counts;
    ok := v.passed;
  }

  /** `SecurityHandler.handle` on a chain whose head is `chain[0]`. */
  method HandleAuth(chain: seq<SecurityCheck>, request: AuthRequest, table: RequestCounts) returns (ok: bool)
    requires |chain| > 0
    modifies request, table
    ensures var v := RunChain(chain, request.username, request.password, request.ipAddress, request.userAgent, old(table.counts));
      ok == v.passed && request.errors == old(request.errors) + v.errors && table.counts == v.counts
    decreases |chain|
  {
    ok := Check(chain[0], request, table);
    if ok && |chain| > 1 {
      ok := HandleAuth(chain[1..], request, table);
    }
  }
}
