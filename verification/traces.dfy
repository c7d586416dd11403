/**
 * Sequences of operations on one account, and the invariants that every
 * such sequence keeps: the savings floor, the checking overdraft bound, and
 * a transaction count that moves in step with deposits and withdrawals.
 */
module Traces {
  import Ledger

  /** One call a client can make on an account. */
  datatype Op =
    | Deposit(amount: real)                                    // deposit(amount) on the account's own class
    | DepositWithDescription(amount: real, description: string) // deposit(amount, description), always the base one
    | Withdraw(amount: real)                                   // the virtual withdraw
    | ProcessInterest                                          // the bank crediting the account's interest
    | SetInterestRate(rate: real)                              // savings and premium only
    | ActivateConcierge                                        // premium only
    | SetHolderName(name: string)                              // the base holder-name setter

  /** Whether the class of variant `v` has operation `op` at all. */
  predicate Supports(v: Ledger.Variant, op: Op) {
    match op
    case SetInterestRate(_) => v.HasFloor()
    case ActivateConcierge => v.Premium?
    case _ => true
  }

  predicate AllSupported(v: Ledger.Variant, ops: seq<Op>) {
    forall i :: 0 <= i < |ops| ==> Supports(v, ops[i])
  }

  /**
   * The effect of one operation, dispatched on the account's class as the
   * source's overload resolution and virtual calls do. Account number,
   * class, floor and overdraft limit never change.
   */
  function Step(s: Ledger.AccountState, op: Op): (t: Ledger.AccountState)
    requires Supports(s.variant, op)
    ensures Ledger.SameKind(s.variant, t.variant)
    ensures t.base.accountNumber == s.base.accountNumber
    ensures s.variant.HasFloor() ==> t.variant.minimumBalance == s.variant.minimumBalance
    ensures s.variant.Checking? ==> t.variant.overdraftLimit == s.variant.overdraftLimit
  {
    match op
    case Deposit(amount) =>
      if s.variant.Checking? then Ledger.CheckingDeposit(s, amount)
      else s.(base := Ledger.Deposit(s.base, amount))
    case DepositWithDescription(amount, _) => s.(base := Ledger.Deposit(s.base, amount))
    case Withdraw(amount) =>
      if s.variant.Checking? then Ledger.CheckingWithdraw(s, amount).after
      else Ledger.SavingsWithdraw(s, amount).after
    case ProcessInterest => Ledger.ProcessInterest(s)
    case SetInterestRate(rate) => Ledger.SetInterestRate(s, rate)
    case ActivateConcierge => Ledger.ActivateConcierge(s)
    case SetHolderName(name) => s.(base := Ledger.SetHolderName(s.base, name))
  }

  /** An operation a class has stays available after any step, since no step changes the class. */
  lemma SupportedAfterStep(s: Ledger.AccountState, ops: seq<Op>)
    requires ops != [] && AllSupported(s.variant, ops)
    ensures AllSupported(Step(s, ops[0]).variant, ops[1..])
  {
  }

  /** The state after running `ops` in order from `s`; the account keeps its number, class, floor and overdraft limit. */
  function Run(s: Ledger.AccountState, ops: seq<Op>): (t: Ledger.AccountState)
    requires AllSupported(s.variant, ops)
    ensures Ledger.SameKind(s.variant, t.variant)
    ensures t.base.accountNumber == s.base.accountNumber
    ensures s.variant.HasFloor() ==> t.variant.minimumBalance == s.variant.minimumBalance
    ensures s.variant.Checking? ==> t.variant.overdraftLimit == s.variant.overdraftLimit
    decreases |ops|
  {
    if ops == [] then s
    else
      SupportedAfterStep(s, ops);
      Run(Step(s, ops[0]), ops[1..])
  }

  /** The number of one-argument deposits in `ops`. */
  function Deposits(ops: seq<Op>): nat {
    if ops == [] then 0 else (if ops[0].Deposit? then 1 else 0) + Deposits(ops[1..])
  }

  /** The number of withdrawals in `ops`, successful or not. */
  function Withdrawals(ops: seq<Op>): nat {
    if ops == [] then 0 else (if ops[0].Withdraw? then 1 else 0) + Withdrawals(ops[1..])
  }

  /** A savings or premium account at or above its floor stays there, whatever is done to it. */
  lemma {:induction false} FloorKept(s: Ledger.AccountState, ops: seq<Op>)
    requires AllSupported(s.variant, ops)
    requires s.variant.HasFloor() && s.base.balance >= s.variant.minimumBalance
    ensures Run(s, ops).base.balance >= s.variant.minimumBalance
    decreases |ops|
  {
    if ops != [] {
      var t := Step(s, ops[0]);
      assert t.base.balance >= s.variant.minimumBalance;
      SupportedAfterStep(s, ops);
      FloorKept(t, ops[1..]);
    }
  }

  /** A checking account no further overdrawn than its limit stays so, whatever is done to it. */
  lemma {:induction false} OverdraftKept(s: Ledger.AccountState, ops: seq<Op>)
    requires AllSupported(s.variant, ops)
    requires s.variant.Checking? && s.base.balance >= -s.variant.overdraftLimit
    ensures Run(s, ops).base.balance >= -s.variant.overdraftLimit
    decreases |ops|
  {
    if ops != [] {
      var t := Step(s, ops[0]);
      assert t.base.balance >= -s.variant.overdraftLimit;
      SupportedAfterStep(s, ops);
      OverdraftKept(t, ops[1..]);
    }
  }

  /**
   * A checking account's transaction count grows by one for every
   * one-argument deposit, by at most one for every withdrawal, and by nothing
   * else: described deposits and interest credits never count.
   */
  lemma {:induction false} CountInStep(s: Ledger.AccountState, ops: seq<Op>)
    requires AllSupported(s.variant, ops)
    requires s.variant.Checking?
    ensures Run(s, ops).variant.transactionCount >= s.variant.transactionCount + Deposits(ops)
    ensures Run(s, ops).variant.transactionCount <= s.variant.transactionCount + Deposits(ops) + Withdrawals(ops)
    decreases |ops|
  {
    if ops != [] {
      var t := Step(s, ops[0]);
      assert t.variant.transactionCount == s.variant.transactionCount + (if ops[0].Deposit? then 1 else 0)
        || (ops[0].Withdraw? && t.variant.transactionCount == s.variant.transactionCount + 1);
      SupportedAfterStep(s, ops);
      CountInStep(t, ops[1..]);
    }
  }

  /**
   * The number of operations in `ops` that a checking account starting at
   * `s` counts as transactions: every one-argument deposit, and every
   * withdrawal that succeeds from the state it is applied to.
   */
  function Counted(s: Ledger.AccountState, ops: seq<Op>): nat
    requires s.variant.Checking? && AllSupported(s.variant, ops)
    decreases |ops|
  {
    if ops == [] then 0
    else
      var counts := match ops[0]
        case Deposit(_) => true
        case Withdraw(amount) => Ledger.CheckingWithdraw(s, amount).ok
        case _ => false;
      SupportedAfterStep(s, ops);
      (if counts then 1 else 0) + Counted(Step(s, ops[0]), ops[1..])
  }

  /**
   * A checking account's transaction count moves exactly in step with its
   * operations: it grows by one per one-argument deposit and per successful
   * withdrawal, and by nothing else.
   */
  lemma {:induction false} CountExact(s: Ledger.AccountState, ops: seq<Op>)
    requires s.variant.Checking? && AllSupported(s.variant, ops)
    ensures Run(s, ops).variant.transactionCount == s.variant.transactionCount + Counted(s, ops)
    decreases |ops|
  {
    if ops != [] {
      SupportedAfterStep(s, ops);
      CountExact(Step(s, ops[0]), ops[1..]);
    }
  }

  /** The demonstration's savings account: 5000, deposit 1000, deposit 500 with a note, withdraw 500, ends at 6000. */
  lemma SavingsDemo()
    ensures Run(Ledger.AccountState(Ledger.BaseState(1001, "Alice Johnson", 5000.0), Ledger.Savings(4.5, Ledger.MinimumBalance)),
                [Deposit(1000.0), DepositWithDescription(500.0, "Salary"), Withdraw(500.0)]).base.balance == 6000.0
  {
  }

  /** The demonstration's checking account: 3000 with overdraft 500, withdraw 3200, ends at -200 with one transaction; interest then leaves it alone. */
  lemma CheckingDemo()
    ensures var t := Run(Ledger.AccountState(Ledger.BaseState(2001, "Bob Smith", 3000.0), Ledger.Checking(500.0, 0)),
                         [Withdraw(3200.0), ProcessInterest]);
            t.base.balance == -200.0 && t.variant.transactionCount == 1
  {
  }
}
