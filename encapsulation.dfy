// Encapsulation: a smartphone whose battery and app list change only through
// its public operations, and a user account that guards its password, its
// email and its login-attempt counter.
module Encapsulation {
  import opened Wrappers
  import Text

  // ---------------------------------------------------------------------
  // SmartPhone
  // ---------------------------------------------------------------------

  const FullBattery := 100
  const InstallThreshold := 5
  const InstallDrain := 2
  const UseDrain := 5
  const FactoryPin := "1234"

  /** The battery level and installed apps, the phone's protected state. */
  datatype Phone = Phone(battery: int, apps: seq<string>)

  predicate BatteryInRange(p: Phone) { 0 <= p.battery <= FullBattery }

  /** `_drain_battery`: never below zero, never more than was there. */
  function Drain(battery: int, amount: nat): (r: int)
    ensures 0 <= r
    ensures 0 <= battery ==> r <= battery
    ensures r == 0 || r == battery - amount
  {
    if battery - amount < 0 then 0 else battery - amount
  }

  /** `charge`: the level never passes 100. */
  function ChargeLevel(battery: int, amount: int): (r: int)
    ensures r <= FullBattery
    ensures r == FullBattery || r == battery + amount
    ensures battery <= FullBattery && 0 <= amount ==> battery <= r
  {
    if battery + amount < FullBattery then battery + amount else FullBattery
  }

  datatype PhoneOp = Install(app: string) | Use(app: string) | Charge(amount: int)
  datatype PhoneOutcome = PhoneOutcome(next: Phone, reply: string)

  /** `install_app`, `use_app` and `charge` as one transition function. */
  function PhoneStep(p: Phone, op: PhoneOp): (o: PhoneOutcome)
    ensures op.Install? && p.battery < InstallThreshold ==> o.next == p
    ensures op.Install? && p.battery >= InstallThreshold ==>
      o.next.apps == p.apps + [op.app] && o.next.battery == Drain(p.battery, InstallDrain)
    ensures op.Use? && op.app !in p.apps ==> o.next == p
    ensures op.Use? && op.app in p.apps ==>
      o.next.apps == p.apps && o.next.battery == Drain(p.battery, UseDrain)
    ensures op.Charge? ==> o.next.apps == p.apps
  {
    match op
    case Install(app) =>
      if p.battery < InstallThreshold then PhoneOutcome(p, "❌ Battery too low to install apps")
      else PhoneOutcome(Phone(Drain(p.battery, InstallDrain), p.apps + [app]), "✅ Installed " + app)
    case Use(app) =>
      if app !in p.apps then PhoneOutcome(p, "❌ " + app + " not installed")
      else
        var b := Drain(p.battery, UseDrain);
        PhoneOutcome(Phone(b, p.apps), "📱 Using " + app + " (Battery: " + Text.IntToString(b) + "%)")
    case Charge(amount) =>
      var b := ChargeLevel(p.battery, amount);
      PhoneOutcome(Phone(b, p.apps), "🔋 Charged to " + Text.IntToString(b) + "%")
  }

  predicate NonNegativeCharge(op: PhoneOp) { op.Charge? ==> 0 <= op.amount }

  /** One operation keeps the battery in 0..100 when a charge amount is not negative. */
  lemma PhoneStepKeepsBattery(p: Phone, op: PhoneOp)
    requires BatteryInRange(p) && NonNegativeCharge(op)
    ensures BatteryInRange(PhoneStep(p, op).next)
  {
  }

  /** A negative charge can take the battery below zero: the bound needs the condition. */
  lemma NegativeChargeEmptiesBelowZero()
    ensures PhoneStep(Phone(10, []), Charge(-20)).next.battery == -10
  {
  }

  function PhoneRun(p: Phone, ops: seq<PhoneOp>): Phone
    decreases |ops|
  {
    if ops == [] then p else PhoneRun(PhoneStep(p, ops[0]).next, ops[1..])
  }

  /** Any sequence of installs, uses and non-negative charges keeps the battery in 0..100. */
  lemma {:induction false} PhoneRunKeepsBattery(p: Phone, ops: seq<PhoneOp>)
    requires BatteryInRange(p)
    requires forall i :: 0 <= i < |ops| ==> NonNegativeCharge(ops[i])
    ensures BatteryInRange(PhoneRun(p, ops))
    decreases |ops|
  {
    if ops != [] {
      PhoneStepKeepsBattery(p, ops[0]);
      PhoneRunKeepsBattery(PhoneStep(p, ops[0]).next, ops[1..]);
    }
  }

  /** Apps are only ever added, never removed: every installed app stays installed. */
  lemma {:induction false} PhoneRunKeepsApps(p: Phone, ops: seq<PhoneOp>, app: string)
    requires app in p.apps
    ensures app in PhoneRun(p, ops).apps
    decreases |ops|
  {
    if ops != [] {
      PhoneRunKeepsApps(PhoneStep(p, ops[0]).next, ops[1..], app);
    }
  }

  /** `unlock`: the reply for a PIN, compared with the factory PIN. */
  function UnlockReply(pin: string): (r: string)
    ensures r == "🔓 Phone unlocked!" <==> pin == FactoryPin
  {
    if pin == FactoryPin then "🔓 Phone unlocked!" else "🔒 Wrong PIN!"
  }

  class SmartPhone {
    const brand: string
    const model: string
    var battery: int
    var apps: seq<string>

    function State(): Phone
      reads this
    {
      Phone(battery, apps)
    }

    constructor (brand: string, model: string)
      ensures this.brand == brand && this.model == model
      ensures State() == Phone(FullBattery, [])
    {
      this.brand := brand;
      this.model := model;
      battery := FullBattery;
      apps := [];
    }

    method Perform(op: PhoneOp) returns (msg: string)
      modifies this
      ensures State() == PhoneStep(old(State()), op).next
      ensures msg == PhoneStep(old(State()), op).reply
    {
      var o := PhoneStep(State(), op);
      battery := o.next.battery;
      apps := o.next.apps;
      msg := o.reply;
    }

    method InstallApp(app: string) returns (msg: string)
      modifies this
      ensures State() == PhoneStep(old(State()), Install(app)).next
      ensures msg == PhoneStep(old(State()), Install(app)).reply
    {
      msg := Perform(Install(app));
    }

    method UseApp(app: string) returns (msg: string)
      modifies this
      ensures State() == PhoneStep(old(State()), Use(app)).next
      ensures msg == PhoneStep(old(State()), Use(app)).reply
    {
      msg := Perform(Use(app));
    }

    method Charge(amount: int) returns (msg: string)
      modifies this
      ensures State() == PhoneStep(old(State()), PhoneOp.Charge(amount)).next
      ensures msg == PhoneStep(old(State()), PhoneOp.Charge(amount)).reply
    {
      msg := Perform(PhoneOp.Charge(amount));
    }

    method Unlock(pin: string) returns (msg: string)
      ensures msg == UnlockReply(pin)
    {
      msg := UnlockReply(pin);
    }

    method GetBatteryLevel() returns (level: int)
      ensures level == battery
    {
      level := battery;
    }
  }

  // ---------------------------------------------------------------------
  // UserAccount
  // ---------------------------------------------------------------------

  const MaxLoginAttempts := 5

  /** The email setter's test: the value has an '@' and a '.'. */
  predicate ValidEmail(v: string) { Text.HasChar(v, '@') && Text.HasChar(v, '.') }

  /** The lockout state of an account: failed attempts so far and the lock flag. */
  datatype Lockout = Lockout(attempts: int, locked: bool)

  /** Attempts stay in 0..5, and the account is locked exactly when it reached 5. */
  predicate LockoutValid(l: Lockout)
  {
    0 <= l.attempts <= MaxLoginAttempts && (l.locked <==> l.attempts == MaxLoginAttempts)
  }

  datatype LoginOutcome = LoginOutcome(next: Lockout, success: bool, reply: string)

  /** `login`, given whether the password matches the stored one. */
  function LoginStep(l: Lockout, correct: bool, username: string): (o: LoginOutcome)
    ensures o.success <==> !l.locked && correct
    ensures l.locked ==> o.next == l && o.reply == "🔒 Account is locked due to too many failed attempts"
    ensures !l.locked && correct ==> o.next == Lockout(0, false)
    ensures !l.locked && !correct ==> o.next.attempts == l.attempts + 1
    ensures !l.locked && !correct ==> (o.next.locked <==> l.attempts + 1 >= MaxLoginAttempts)
  {
    if l.locked then
      LoginOutcome(l, false, "🔒 Account is locked due to too many failed attempts")
    else if correct then
      LoginOutcome(Lockout(0, false), true, "✅ Welcome back, " + username + "!")
    else
      var attempts := l.attempts + 1;
      var remaining := MaxLoginAttempts - attempts;
      if attempts >= MaxLoginAttempts then
        LoginOutcome(Lockout(attempts, true), false, "🔒 Account LOCKED — too many failed attempts")
      else
        LoginOutcome(Lockout(attempts, false), false,
          "❌ Wrong password. " + Text.IntToString(remaining) + " attempts remaining")
  }

  /** Every login keeps the attempt counter and the lock consistent. */
  lemma LoginKeepsValid(l: Lockout, correct: bool, username: string)
    requires LockoutValid(l)
    ensures LockoutValid(LoginStep(l, correct, username).next)
  {
  }

  /** Logins with these password outcomes, in order. */
  function LoginRun(l: Lockout, outcomes: seq<bool>, username: string): Lockout
    decreases |outcomes|
  {
    if outcomes == [] then l
    else LoginRun(LoginStep(l, outcomes[0], username).next, outcomes[1..], username)
  }

  /** A locked account stays locked and unchanged whatever is tried. */
  lemma {:induction false} LockedStaysLocked(l: Lockout, outcomes: seq<bool>, username: string)
    requires l.locked
    ensures LoginRun(l, outcomes, username) == l
    decreases |outcomes|
  {
    if outcomes != [] {
      LockedStaysLocked(l, outcomes[1..], username);
    }
  }

  function Repeat(b: bool, n: nat): (r: seq<bool>)
    ensures |r| == n
    ensures forall i :: 0 <= i < n ==> r[i] == b
  {
    if n == 0 then [] else [b] + Repeat(b, n - 1)
  }

  /** From a consistent unlocked state, the remaining number of wrong passwords locks the account. */
  lemma {:induction false} WrongPasswordsLock(l: Lockout, username: string)
    requires LockoutValid(l) && !l.locked
    ensures LoginRun(l, Repeat(false, MaxLoginAttempts - l.attempts), username) == Lockout(MaxLoginAttempts, true)
    decreases MaxLoginAttempts - l.attempts
  {
    var rest := Repeat(false, MaxLoginAttempts - l.attempts);
    var next := LoginStep(l, false, username).next;
    assert rest[1..] == Repeat(false, MaxLoginAttempts - next.attempts);
    if !next.locked {
      WrongPasswordsLock(next, username);
    } else {
      assert rest[1..] == [];
    }
  }

  /** A fresh account is locked by exactly five wrong passwords in a row, and not by four. */
  lemma FreshAccountLocksOnFifth(username: string)
    ensures !LoginRun(Lockout(0, false), Repeat(false, 4), username).locked
    ensures LoginRun(Lockout(0, false), Repeat(false, 5), username).locked
  {
    WrongPasswordsLock(Lockout(0, false), username);
    assert Repeat(false, 4) == [false, false, false, false];
  }

  datatype ChangeOutcome = ChangeOutcome(password: string, reply: string)

  /** `change_password` on the stored password `current`. */
  function ChangePasswordStep(current: string, oldPassword: string, newPassword: string): (o: ChangeOutcome)
    ensures o.password == current || o.password == newPassword
    ensures o.reply == "✅ Password changed successfully" <==> oldPassword == current && 8 <= |newPassword|
    ensures o.reply == "✅ Password changed successfully" ==> o.password == newPassword
    ensures o.reply != "✅ Password changed successfully" ==> o.password == current
  {
    if oldPassword != current then ChangeOutcome(current, "❌ Old password is incorrect")
    else if |newPassword| < 8 then ChangeOutcome(current, "❌ New password must be at least 8 characters")
    else ChangeOutcome(newPassword, "✅ Password changed successfully")
  }

  /** After a successful change the new password logs in and a different old one is refused. */
  lemma ChangeThenLogin(l: Lockout, current: string, newPassword: string, username: string)
    requires !l.locked && 8 <= |newPassword| && newPassword != current
    ensures var p := ChangePasswordStep(current, current, newPassword).password;
      LoginStep(l, newPassword == p, username).success && !LoginStep(l, current == p, username).success
  {
  }

  class UserAccount {
    const username: string
    var email: string
    var password: string
    var attempts: int
    var locked: bool

    function Lock(): Lockout
      reads this
    {
      Lockout(attempts, locked)
    }

    ghost predicate Valid()
      reads this
    {
      LockoutValid(Lock()) && ValidEmail(email)
    }

    /** Only called by `Open` after the email passed the setter's test. */
    constructor (username: string, email: string, password: string)
      requires ValidEmail(email)
      ensures Valid()
      ensures this.username == username && this.email == email && this.password == password
      ensures Lock() == Lockout(0, false)
    {
      this.username := username;
      this.email := email;
      this.password := password;
      attempts := 0;
      locked := false;
    }

    /** The email property setter: an invalid value is refused and the email kept. */
    method SetEmail(v: string) returns (r: Result<string>)
      modifies this
      ensures r.Ok? <==> ValidEmail(v)
      ensures r.Ok? ==> email == v && r.value == v
      ensures r.Err? ==> email == old(email) && r.error == "Invalid email: " + v
      ensures password == old(password) && Lock() == old(Lock())
    {
      if ValidEmail(v) {
        email := v;
        r := Ok(v);
      } else {
        r := Err("Invalid email: " + v);
      }
    }

    method Login(pw: string) returns (msg: string)
      requires Valid()
      modifies this
      ensures Valid()
      ensures Lock() == LoginStep(old(Lock()), pw == password, username).next
      ensures msg == LoginStep(old(Lock()), pw == password, username).reply
      ensures email == old(email) && password == old(password)
    {
      var o := LoginStep(Lock(), pw == password, username);
      LoginKeepsValid(Lock(), pw == password, username);
      attempts := o.next.attempts;
      locked := o.next.locked;
      msg := o.reply;
    }

    method ChangePassword(oldPassword: string, newPassword: string) returns (msg: string)
      modifies this
      ensures password == ChangePasswordStep(old(password), oldPassword, newPassword).password
      ensures msg == ChangePasswordStep(old(password), oldPassword, newPassword).reply
      ensures email == old(email) && Lock() == old(Lock())
    {
      var o := ChangePasswordStep(password, oldPassword, newPassword);
      password := o.password;
      msg := o.reply;
    }
  }

  /** `UserAccount(...)`: the constructor runs the email setter and raises on an invalid email. */
  method Open(username: string, email: string, password: string) returns (r: Result<UserAccount>)
    ensures r.Ok? <==> ValidEmail(email)
    ensures r.Err? ==> r.error == "Invalid email: " + email
    ensures r.Ok? ==> fresh(r.value) && r.value.Valid() && r.value.email == email
    ensures r.Ok? ==> r.value.username == username && r.value.password == password
    ensures r.Ok? ==> r.value.Lock() == Lockout(0, false)
  {
    if ValidEmail(email) {
      var a := new UserAccount(username, email, password);
      r := Ok(a);
    } else {
      r := Err("Invalid email: " + email);
    }
  }
}
