// Classes and objects: a dog whose age changes, bank accounts numbered from a
// class-level counter, employees built by alternative constructors, and
// shopping items compared by value in a cart.
module ClassesAndObjects {
  import opened Wrappers
  import Text

  // ---------------------------------------------------------------------
  // Dog
  // ---------------------------------------------------------------------

  class Dog {
    const name: string
    const breed: string
    var age: int

    constructor (name: string, breed: string, age: int)
      ensures this.name == name && this.breed == breed && this.age == age
    {
      this.name := name;
      this.breed := breed;
      this.age := age;
    }

    function Bark(): string
    {
      "🐕 " + name + " says: Woof! Woof!"
    }

    function Describe(): string
      reads this
    {
      "🐕 " + name + " is a " + Text.IntToString(age) + "-year-old " + breed
    }

    /** Ages the dog by exactly one year and announces the new age. */
    method Birthday() returns (message: string)
      modifies this
      ensures age == old(age) + 1
      ensures message == "🎂 Happy birthday " + name + "! Now " + Text.IntToString(age) + " years old."
    {
      age := age + 1;
      message := "🎂 Happy birthday " + name + "! Now " + Text.IntToString(age) + " years old.";
    }
  }

  // ---------------------------------------------------------------------
  // Bank accounts
  // ---------------------------------------------------------------------

  const BankName := "National Bank"

  /** The class variable `BankAccount.total_accounts`, shared by every account. */
  class AccountCounter {
    var totalAccounts: nat

    constructor ()
      ensures totalAccounts == 0
    {
      totalAccounts := 0;
    }
  }

  /** A recorded transaction; its `+$`/`-$` text with two decimals is not modelled. */
  datatype Transaction = Credit(amount: real) | Debit(amount: real)

  /** The data each `deposit`/`withdraw` message reports. */
  datatype Receipt =
    | DepositRejected
    | Deposited(amount: real, balance: real)
    | InsufficientFunds(balance: real)
    | Withdrew(amount: real, balance: real)

  /** The net effect of a list of transactions on a balance. */
  function Net(ts: seq<Transaction>): real
  {
    if |ts| == 0 then 0.0
    else Net(ts[..|ts| - 1]) + (match ts[|ts| - 1] case Credit(a) => a case Debit(a) => -a)
  }

  class BankAccount {
    const owner: string
    const accountNumber: nat
    var balance: real
    var transactions: seq<Transaction>
    /** The balance the account was opened with. */
    ghost const opening: real

    /** The balance is the opening balance plus the net of the recorded transactions. */
    ghost predicate Valid()
      reads this
    {
      balance == opening + Net(transactions)
    }

    /** Opens the next account: its number is one more than the accounts opened before. */
    constructor (counter: AccountCounter, owner: string, balance: real)
      modifies counter
      ensures Valid()
      ensures this.owner == owner && this.balance == balance && transactions == []
      ensures counter.totalAccounts == old(counter.totalAccounts) + 1
      ensures accountNumber == counter.totalAccounts
    {
      this.owner := owner;
      this.balance := balance;
      transactions := [];
      opening := balance;
      counter.totalAccounts := counter.totalAccounts + 1;
      accountNumber := counter.totalAccounts;
    }

    /** Rejects a non-positive amount and changes nothing; otherwise credits it. */
    method Deposit(amount: real) returns (r: Receipt)
      requires Valid()
      modifies this
      ensures Valid()
      ensures amount <= 0.0 ==> r == DepositRejected && balance == old(balance) && transactions == old(transactions)
      ensures amount > 0.0 ==> balance == old(balance) + amount && transactions == old(transactions) + [Credit(amount)]
      ensures amount > 0.0 ==> r == Deposited(amount, balance)
    {
      if amount <= 0.0 {
        return DepositRejected;
      }
      balance := balance + amount;
      transactions := transactions + [Credit(amount)];
      assert transactions[..|transactions| - 1] == old(transactions);
      r := Deposited(amount, balance);
    }

    /** Rejects an amount above the balance and changes nothing; otherwise debits it. */
    method Withdraw(amount: real) returns (r: Receipt)
      requires Valid()
      modifies this
      ensures Valid()
      ensures amount > old(balance) ==> r == InsufficientFunds(balance) && balance == old(balance) && transactions == old(transactions)
      ensures amount <= old(balance) ==> balance == old(balance) - amount && transactions == old(transactions) + [Debit(amount)]
      ensures amount <= old(balance) ==> r == Withdrew(amount, balance) && balance >= 0.0
    {
      if amount > balance {
        return InsufficientFunds(balance);
      }
      balance := balance - amount;
      transactions := transactions + [Debit(amount)];
      assert transactions[..|transactions| - 1] == old(transactions);
      r := Withdrew(amount, balance);
    }
  }

  /** The demonstration's two accounts: distinct numbers, and only accepted operations recorded. */
  method DemoAccounts() returns (acc1: BankAccount, acc2: BankAccount, total: nat)
    ensures acc1.accountNumber == 1 && acc2.accountNumber == 2 && total == 2
    ensures acc1.balance == 1150.0 && acc1.transactions == [Credit(200.0), Debit(50.0)]
    ensures acc2.balance == 500.0 && acc2.transactions == []
  {
    var counter := new AccountCounter();
    acc1 := new BankAccount(counter, "Alice", 1000.0);
    acc2 := new BankAccount(counter, "Bob", 500.0);
    var _ := acc1.Deposit(200.0);
    var _ := acc1.Withdraw(50.0);
    total := counter.totalAccounts;
  }

  /** Withdrawing more than a new account holds is refused and leaves the account as it was: the balance never goes below zero. */
  method OverdraftRefused() returns (acc: BankAccount, r: Receipt)
    ensures r == InsufficientFunds(100.0) && acc.balance == 100.0 && acc.transactions == []
  {
    var counter := new AccountCounter();
    acc := new BankAccount(counter, "Carol", 100.0);
    r := acc.Withdraw(150.0);
  }

  // ---------------------------------------------------------------------
  // Employees
  // ---------------------------------------------------------------------

  datatype Employee = Employee(name: string, role: string, salary: real)

  const NotThreeFields := "expected exactly three comma-separated fields"

  /**
   * `from_string`: exactly three comma-separated fields, each stripped of
   * white space; the salary field is read by `toFloat`, Python's `float()`.
   */
  function FromString(data: string, toFloat: string -> Result<real>): (r: Result<Employee>)
    ensures r.Ok? <==> |Text.Split(data, ',')| == 3 && toFloat(Text.Strip(Text.Split(data, ',')[2])).Ok?
    ensures |Text.Split(data, ',')| != 3 ==> r == Err(NotThreeFields)
    ensures r.Ok? ==> Unpadded(r.value.name) && Unpadded(r.value.role)
  {
    var parts := Text.Split(data, ',');
    if |parts| != 3 then Err(NotThreeFields)
    else match toFloat(Text.Strip(parts[2]))
      case Ok(salary) => Ok(Employee(Text.Strip(parts[0]), Text.Strip(parts[1]), salary))
      case Err(e) => Err(e)
  }

  /** Neither starts nor ends with white space. */
  predicate Unpadded(s: string)
  {
    |s| == 0 || (!Text.IsSpace(s[0]) && !Text.IsSpace(s[|s| - 1]))
  }

  /** `intern`: every intern has the role "Intern" and the salary 30000. */
  function Intern(name: string): (e: Employee)
    ensures e.name == name && e.role == "Intern" && e.salary == 30000.0
  {
    Employee(name, "Intern", 30000.0)
  }

  /** Three comma-free fields written with commas between them read back as those fields, stripped. */
  lemma FromStringJoin(name: string, role: string, salary: string, toFloat: string -> Result<real>)
    requires ',' !in name && ',' !in role && ',' !in salary
    requires toFloat(Text.Strip(salary)).Ok?
    ensures FromString(name + "," + role + "," + salary, toFloat) ==
      Ok(Employee(Text.Strip(name), Text.Strip(role), toFloat(Text.Strip(salary)).value))
  {
    var parts := [name, role, salary];
    assert Text.Join(parts, [',']) == name + "," + role + "," + salary by {
      Text.JoinCons(role, [salary], ",");
      assert [role] + [salary] == [role, salary];
      Text.JoinCons(name, [role, salary], ",");
      assert [name] + [role, salary] == parts;
    }
    Text.SplitJoin(parts, ',');
  }

  /** A string without a comma is a single field, so it is rejected. */
  lemma FromStringNoComma(data: string, toFloat: string -> Result<real>)
    requires ',' !in data
    ensures FromString(data, toFloat) == Err(NotThreeFields)
  {
    Text.SplitAbsent(data, ',');
  }

  // ---------------------------------------------------------------------
  // Shopping items and cart
  // ---------------------------------------------------------------------

  /** Items compare equal exactly when name and price are equal: datatype equality. */
  datatype ShoppingItem = ShoppingItem(name: string, price: real)

  /** `<` compares prices only. */
  predicate Less(a: ShoppingItem, b: ShoppingItem)
  {
    a.price < b.price
  }

  /** `+` adds the prices. */
  function Plus(a: ShoppingItem, b: ShoppingItem): real
  {
    a.price + b.price
  }

  /** Items with equal prices are unordered by `<` whatever their names, while `==` tells them apart. */
  lemma LessIgnoresName(a: ShoppingItem, b: ShoppingItem)
    requires a.price == b.price
    ensures !Less(a, b) && !Less(b, a)
    ensures a == b <==> a.name == b.name
  {
  }

  class ShoppingCart {
    var items: seq<ShoppingItem>

    constructor ()
      ensures items == []
    {
      items := [];
    }

    method Add(item: ShoppingItem)
      modifies this
      ensures items == old(items) + [item]
    {
      items := items + [item];
    }

    method Length() returns (n: nat)
      ensures n == |items|
    {
      n := |items|;
    }

    /** Membership by value: any item with the same name and price counts. */
    method Contains(item: ShoppingItem) returns (b: bool)
      ensures b <==> exists i :: 0 <= i < |items| && items[i].name == item.name && items[i].price == item.price
    {
      b := item in items;
    }
  }

  /** The demonstration's cart: three added items, and a fresh equal apple is found in it. */
  method DemoCart() returns (n: nat, hasApple: bool)
    ensures n == 3 && hasApple
  {
    var cart := new ShoppingCart();
    cart.Add(ShoppingItem("Apple", 1.50));
    cart.Add(ShoppingItem("Banana", 0.75));
    cart.Add(ShoppingItem("Laptop", 999.99));
    assert cart.items[0] == ShoppingItem("Apple", 1.50);
    n := cart.Length();
    hasApple := cart.Contains(ShoppingItem("Apple", 1.50));
  }
}
