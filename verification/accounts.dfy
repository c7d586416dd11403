/**
 * The account classes as mutable objects.
 *
 * Each concrete class holds its base-class part as a separate `Account`
 * object (`base`), and a premium account holds its savings part as a
 * `SavingsAccount` object (`savings`). A method of the base part is a
 * non-virtual base-class member; a method of a variant class is that
 * class's override or addition. `State()` reads an object's fields as a
 * `Ledger.AccountState`, and every method that changes an account's fields
 * is proved to move that state exactly as the corresponding `Ledger`
 * function does.
 */
module Accounts {
  import Ledger

  /** The process-wide count of live accounts, owned explicitly instead of being a static member. */
  class InstanceCounter {
    var totalAccounts: int

    constructor ()
      ensures totalAccounts == 0
    {
      totalAccounts := 0;
    }
  }

  /** The base-class part of every account. */
  class Account {
    const accountNumber: int
    var holderName: string
    var balance: real

    function State(): Ledger.BaseState
      reads this
    {
      Ledger.BaseState(accountNumber, holderName, balance)
    }

    /** The parameterized constructor: one more live account. */
    constructor (counter: InstanceCounter, accNum: int, name: string, bal: real)
      modifies counter
      ensures State() == Ledger.BaseState(accNum, name, bal)
      ensures counter.totalAccounts == old(counter.totalAccounts) + 1
    {
      accountNumber := accNum;
      holderName := name;
      balance := bal;
      new;
      counter.totalAccounts := counter.totalAccounts + 1;
    }

    /** The copy constructor: the same fields as `other`, one more live account. */
    constructor Copy(counter: InstanceCounter, other: Account)
      modifies counter
      ensures State() == other.State()
      ensures counter.totalAccounts == old(counter.totalAccounts) + 1
    {
      accountNumber := other.accountNumber;
      holderName := other.holderName;
      balance := other.balance;
      new;
      counter.totalAccounts := counter.totalAccounts + 1;
    }

    /** The destructor's bookkeeping: one fewer live account. */
    method Destroy(counter: InstanceCounter)
      modifies counter
      ensures counter.totalAccounts == old(counter.totalAccounts) - 1
    {
      counter.totalAccounts := counter.totalAccounts - 1;
    }

    /** deposit(amount): adds a positive amount, ignores any other. */
    method Deposit(amount: real)
      modifies this
      ensures State() == Ledger.Deposit(old(State()), amount)
    {
      if amount > 0.0 {
        balance := balance + amount;
      }
    }

    /** deposit(amount, description): the same effect; the description only goes to the console. */
    method DepositWithDescription(amount: real, description: string)
      modifies this
      ensures State() == Ledger.Deposit(old(State()), amount)
    {
      if amount > 0.0 {
        balance := balance + amount;
      }
    }

    /** The base withdrawal, overridden by every concrete class. */
    method Withdraw(amount: real) returns (ok: bool)
      modifies this
      ensures Ledger.Outcome(ok, State()) == Ledger.BaseWithdraw(old(State()), amount)
      ensures ok <==> amount > 0.0 && old(balance) >= amount
    {
      if amount > 0.0 && balance >= amount {
        balance := balance - amount;
        return true;
      }
      return false;
    }

    method SetHolderName(name: string)
      modifies this
      ensures State() == Ledger.SetHolderName(old(State()), name)
    {
      holderName := name;
    }
  }

  class SavingsAccount {
    const base: Account
    var interestRate: real
    const minimumBalance: real := Ledger.MinimumBalance

    function State(): Ledger.AccountState
      reads this, base
    {
      Ledger.AccountState(base.State(), Ledger.Savings(interestRate, minimumBalance))
    }

    constructor (counter: InstanceCounter, accNum: int, name: string, bal: real, rate: real)
      modifies counter
      ensures fresh(base)
      ensures State() == Ledger.AccountState(Ledger.BaseState(accNum, name, bal), Ledger.Savings(rate, 1000.0))
      ensures counter.totalAccounts == old(counter.totalAccounts) + 1
    {
      base := new Account(counter, accNum, name, bal);
      interestRate := rate;
    }

    function CalculateInterest(): (interest: real)
      reads this, base
      ensures interest == Ledger.Interest(State())
    {
      base.balance * interestRate / 100.0
    }

    /** Succeeds exactly when the balance left is at least the floor; the amount itself is not checked. */
    method Withdraw(amount: real) returns (ok: bool)
      modifies base
      ensures Ledger.Outcome(ok, State()) == Ledger.SavingsWithdraw(old(State()), amount)
      ensures ok <==> old(base.balance) - amount >= minimumBalance
      ensures ok ==> base.balance >= minimumBalance
    {
      if base.balance - amount >= minimumBalance {
        base.balance := base.balance - amount;
        return true;
      }
      return false;
    }

    method SetInterestRate(rate: real)
      modifies this
      ensures State() == Ledger.SetInterestRate(old(State()), rate)
    {
      if rate >= 0.0 {
        interestRate := rate;
      }
    }
  }

  class CheckingAccount {
    const base: Account
    const overdraftLimit: real
    var transactionCount: nat

    function State(): Ledger.AccountState
      reads this, base
    {
      Ledger.AccountState(base.State(), Ledger.Checking(overdraftLimit, transactionCount))
    }

    constructor (counter: InstanceCounter, accNum: int, name: string, bal: real, overdraft: real)
      modifies counter
      ensures fresh(base)
      ensures State() == Ledger.AccountState(Ledger.BaseState(accNum, name, bal), Ledger.Checking(overdraft, 0))
      ensures counter.totalAccounts == old(counter.totalAccounts) + 1
    {
      base := new Account(counter, accNum, name, bal);
      overdraftLimit := overdraft;
      transactionCount := 0;
    }

    function CalculateInterest(): (interest: real)
      reads base
      ensures interest == Ledger.Interest(State())
    {
      base.balance * 0.5 / 100.0
    }

    /** Succeeds exactly when the amount is positive and within balance plus overdraft; a success counts one transaction. */
    method Withdraw(amount: real) returns (ok: bool)
      modifies this, base
      ensures Ledger.Outcome(ok, State()) == Ledger.CheckingWithdraw(old(State()), amount)
      ensures ok <==> amount > 0.0 && old(base.balance) + overdraftLimit >= amount
      ensures ok ==> base.balance >= -overdraftLimit && transactionCount == old(transactionCount) + 1
      ensures !ok ==> base.balance == old(base.balance) && transactionCount == old(transactionCount)
    {
      if amount > 0.0 && base.balance + overdraftLimit >= amount {
        base.balance := base.balance - amount;
        transactionCount := transactionCount + 1;
        return true;
      }
      return false;
    }

    /** The checking class's own deposit(amount), hiding the base one: the base deposit, then one more transaction whatever the amount. */
    method Deposit(amount: real)
      modifies this, base
      ensures State() == Ledger.CheckingDeposit(old(State()), amount)
      ensures transactionCount == old(transactionCount) + 1
    {
      base.Deposit(amount);
      transactionCount := transactionCount + 1;
    }
  }

  /** A savings account with a bonus rate and a concierge service. */
  class PremiumAccount {
    const savings: SavingsAccount
    const bonusRate: real
    var hasConciergeService: bool

    function State(): Ledger.AccountState
      reads this, savings, savings.base
    {
      Ledger.AccountState(savings.base.State(),
        Ledger.Premium(savings.interestRate, savings.minimumBalance, bonusRate, hasConciergeService))
    }

    constructor (counter: InstanceCounter, accNum: int, name: string, bal: real, rate: real, bonus: real)
      modifies counter
      ensures fresh(savings) && fresh(savings.base)
      ensures State() == Ledger.AccountState(Ledger.BaseState(accNum, name, bal), Ledger.Premium(rate, 1000.0, bonus, true))
      ensures counter.totalAccounts == old(counter.totalAccounts) + 1
    {
      savings := new SavingsAccount(counter, accNum, name, bal, rate);
      bonusRate := bonus;
      hasConciergeService := true;
    }

    /** Base interest plus bonus interest, both from the current balance. */
    function CalculateInterest(): (interest: real)
      reads this, savings, savings.base
      ensures interest == Ledger.Interest(State())
    {
      var baseInterest := savings.base.balance * savings.interestRate / 100.0;
      var bonusInterest := savings.base.balance * bonusRate / 100.0;
      baseInterest + bonusInterest
    }

    /** The inherited savings withdrawal; rate, floor, bonus and concierge flag are untouched. */
    method Withdraw(amount: real) returns (ok: bool)
      modifies savings.base
      ensures Ledger.Outcome(ok, State()) == Ledger.SavingsWithdraw(old(State()), amount)
      ensures ok ==> savings.base.balance >= Ledger.MinimumBalance
    {
      ok := savings.Withdraw(amount);
    }

    /** The inherited rate setter. */
    method SetInterestRate(rate: real)
      modifies savings
      ensures State() == Ledger.SetInterestRate(old(State()), rate)
    {
      savings.SetInterestRate(rate);
    }

    method ActivateConcierge()
      modifies this
      ensures State() == Ledger.ActivateConcierge(old(State()))
      ensures hasConciergeService
    {
      hasConciergeService := true;
    }
  }

  /** A pointer to the base class: which concrete account it points to decides every virtual call. */
  datatype AccountRef =
    | SavingsRef(savings: SavingsAccount)
    | CheckingRef(checking: CheckingAccount)
    | PremiumRef(premium: PremiumAccount)
  {
    /** The base-class part, where every non-virtual base member acts. */
    function Base(): Account {
      match this
      case SavingsRef(s) => s.base
      case CheckingRef(c) => c.base
      case PremiumRef(p) => p.savings.base
    }

    function Footprint(): set<object> {
      match this
      case SavingsRef(s) => {s, s.base}
      case CheckingRef(c) => {c, c.base}
      case PremiumRef(p) => {p, p.savings, p.savings.base}
    }

    function State(): Ledger.AccountState
      reads Footprint()
    {
      match this
      case SavingsRef(s) => s.State()
      case CheckingRef(c) => c.State()
      case PremiumRef(p) => p.State()
    }

    /** The virtual calculateInterest, dispatched to the concrete class. */
    function CalculateInterest(): (interest: real)
      reads Footprint()
      ensures interest == Ledger.Interest(State())
    {
      match this
      case SavingsRef(s) => s.CalculateInterest()
      case CheckingRef(c) => c.CalculateInterest()
      case PremiumRef(p) => p.CalculateInterest()
    }
  }

  class Bank {
    const bankName: string

    constructor (name: string)
      ensures bankName == name
    {
      bankName := name;
    }

    /**
     * Credits the account's interest through the base class's two-argument
     * deposit: only a positive interest moves the balance, and since that
     * deposit is not the checking override, no transaction is counted.
     */
    method ProcessInterest(account: AccountRef)
      modifies account.Base()
      ensures account.State() == Ledger.ProcessInterest(old(account.State()))
      ensures account.CheckingRef? ==> account.checking.transactionCount == old(account.checking.transactionCount)
    {
      var interest := account.CalculateInterest();
      account.Base().DepositWithDescription(interest, "Interest Credit");
    }
  }

  /**
   * The demonstration program's opening: three accounts, two deposits to the
   * savings account, a savings withdrawal and a checking withdrawal that
   * draws on the overdraft.
   */
  method OpenAndTransact(counter: InstanceCounter)
    returns (savings1: SavingsAccount, checking1: CheckingAccount, premium1: PremiumAccount)
    modifies counter
    ensures fresh(savings1.base) && fresh(checking1.base) && fresh(premium1) && fresh(premium1.savings) && fresh(premium1.savings.base)
    ensures savings1.base != checking1.base && savings1.base != premium1.savings.base && checking1.base != premium1.savings.base
    ensures savings1.State() == Ledger.AccountState(Ledger.BaseState(1001, "Alice Johnson", 6000.0), Ledger.Savings(4.5, 1000.0))
    ensures checking1.State() == Ledger.AccountState(Ledger.BaseState(2001, "Bob Smith", -200.0), Ledger.Checking(500.0, 1))
    ensures premium1.State() == Ledger.AccountState(Ledger.BaseState(3001, "Charlie Brown", 10000.0), Ledger.Premium(5.0, 1000.0, 2.0, true))
    ensures counter.totalAccounts == old(counter.totalAccounts) + 3
  {
    savings1 := new SavingsAccount(counter, 1001, "Alice Johnson", 5000.0, 4.5);
    checking1 := new CheckingAccount(counter, 2001, "Bob Smith", 3000.0, 500.0);
    premium1 := new PremiumAccount(counter, 3001, "Charlie Brown", 10000.0, 5.0, 2.0);
    savings1.base.Deposit(1000.0);
    savings1.base.DepositWithDescription(500.0, "Salary");
    var _ := savings1.Withdraw(500.0);
    var _ := checking1.Withdraw(3200.0);
  }

  /**
   * The demonstration program's middle: the bank credits each account's
   * interest through a base-class pointer (the checking account, being
   * overdrawn, earns negative interest and is left alone), then the premium
   * account's concierge service is activated.
   */
  method Demo(bank: Bank, counter: InstanceCounter)
    returns (alice: real, bob: real, bobTransactions: nat, charlie: real, concierge: bool)
    modifies counter
    ensures alice == 6270.0
    ensures bob == -200.0 && bobTransactions == 1
    ensures charlie == 10700.0 && concierge
    ensures counter.totalAccounts == old(counter.totalAccounts) + 3
  {
    var savings1, checking1, premium1 := OpenAndTransact(counter);
    bank.ProcessInterest(SavingsRef(savings1));
    alice := savings1.base.balance;
    bank.ProcessInterest(CheckingRef(checking1));
    bob, bobTransactions := checking1.base.balance, checking1.transactionCount;
    bank.ProcessInterest(PremiumRef(premium1));
    charlie := premium1.savings.base.balance;
    premium1.ActivateConcierge();
    concierge := premium1.hasConciergeService;
  }

  /**
   * The last part of the demonstration program: an account reached only
   * through a base-class pointer is credited its interest, then destroyed,
   * leaving the live count as it was.
   */
  method PointerDemo(bank: Bank, counter: InstanceCounter) returns (david: real)
    modifies counter
    ensures david == 7245.0
    ensures counter.totalAccounts == old(counter.totalAccounts)
  {
    var accPtr := new SavingsAccount(counter, 4001, "David Lee", 7000.0, 3.5);
    bank.ProcessInterest(SavingsRef(accPtr));
    david := accPtr.base.balance;
    accPtr.base.Destroy(counter);
  }
}
