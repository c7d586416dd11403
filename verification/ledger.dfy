/**
 * Value-level specification of the account hierarchy.
 *
 * The state of every account variant is a datatype and every guarded
 * balance update is a pure function of the old state. The classes in
 * module Accounts are proved to follow these functions, and the lemmas
 * in module Traces reason about sequences of them.
 *
 * Amounts are exact reals: the rounding of the source's `double`
 * arithmetic, and its NaN and infinite values, are not modelled.
 */
module Ledger {

  /** The fixed floor of every savings account, and so of every premium account. */
  const MinimumBalance: real := 1000.0

  /** The fixed interest rate of a checking account, in percent. */
  const CheckingRate: real := 0.5

  /** The fields every account has: the part that belongs to the base class. */
  datatype BaseState = BaseState(accountNumber: int, holderName: string, balance: real)

  /**
   * What each variant adds to the base part. A premium account is a savings
   * account with more fields, so it carries the savings rate and floor
   * under the same names.
   */
  datatype Variant =
    | Savings(interestRate: real, minimumBalance: real)
    | Checking(overdraftLimit: real, transactionCount: nat)
    | Premium(interestRate: real, minimumBalance: real, bonusRate: real, hasConciergeService: bool)
  {
    /** Savings and premium accounts share the savings withdrawal rule and the rate setter. */
    predicate HasFloor() {
      Savings? || Premium?
    }
  }

  /** Whether two variants are of the same concrete class. */
  predicate SameKind(v: Variant, w: Variant) {
    v.Savings? == w.Savings? && v.Checking? == w.Checking? && v.Premium? == w.Premium?
  }

  /** One concrete account: its base part and its variant part. */
  datatype AccountState = AccountState(base: BaseState, variant: Variant)

  /** The result of a withdrawal: whether it succeeded, and the state after it. */
  datatype Outcome<T> = Outcome(ok: bool, after: T)

  // ----- Base class -----------------------------------------------------------

  /**
   * Both deposit overloads of the base class: a non-positive amount is
   * silently ignored, a positive one is added; nothing but the balance moves.
   */
  function Deposit(b: BaseState, amount: real): (r: BaseState)
    ensures amount > 0.0 ==> r.balance == b.balance + amount
    ensures amount <= 0.0 ==> r == b
    ensures r == b.(balance := r.balance)
  {
    if amount > 0.0 then b.(balance := b.balance + amount) else b
  }

  /**
   * The base class's withdrawal: it succeeds exactly when the amount is
   * positive and covered by the balance, so it never leaves a negative balance.
   */
  function BaseWithdraw(b: BaseState, amount: real): (w: Outcome<BaseState>)
    ensures w.ok <==> amount > 0.0 && b.balance >= amount
    ensures w.ok ==> w.after == b.(balance := b.balance - amount)
    ensures !w.ok ==> w.after == b
    ensures w.ok ==> w.after.balance >= 0.0
  {
    if amount > 0.0 && b.balance >= amount then
      Outcome(true, b.(balance := b.balance - amount))
    else
      Outcome(false, b)
  }

  /**
   * The combination operator: a new base record with account number 0 whose
   * holder name is the first holder's name, " & ", then the second's, and
   * whose balance is the sum of both.
   */
  function Combine(a: BaseState, b: BaseState): (c: BaseState)
    ensures c.accountNumber == 0
    ensures c.balance == a.balance + b.balance
    ensures |c.holderName| == |a.holderName| + 3 + |b.holderName|
    ensures c.holderName[..|a.holderName|] == a.holderName
    ensures c.holderName[|a.holderName|..|a.holderName| + 3] == " & "
    ensures c.holderName[|a.holderName| + 3..] == b.holderName
  {
    BaseState(0, a.holderName + " & " + b.holderName, a.balance + b.balance)
  }

  /** The holder-name setter: the holder becomes `name`; number and balance stay. */
  function SetHolderName(b: BaseState, name: string): (r: BaseState)
    ensures r.holderName == name
    ensures r.accountNumber == b.accountNumber && r.balance == b.balance
  {
    b.(holderName := name)
  }

  // ----- Savings and premium --------------------------------------------------

  /**
   * The savings withdrawal, inherited unchanged by premium accounts. It
   * succeeds exactly when the balance left would be at least the floor; the
   * amount itself is not checked, so a negative amount can succeed.
   */
  function SavingsWithdraw(s: AccountState, amount: real): (w: Outcome<AccountState>)
    requires s.variant.HasFloor()
    ensures w.ok <==> s.base.balance - amount >= s.variant.minimumBalance
    ensures w.ok ==> w.after == s.(base := s.base.(balance := s.base.balance - amount))
    ensures w.ok ==> w.after.base.balance >= s.variant.minimumBalance
    ensures !w.ok ==> w.after == s
  {
    if s.base.balance - amount >= s.variant.minimumBalance then
      Outcome(true, s.(base := s.base.(balance := s.base.balance - amount)))
    else
      Outcome(false, s)
  }

  /** The rate setter: a negative rate is silently ignored. */
  function SetInterestRate(s: AccountState, rate: real): (t: AccountState)
    requires s.variant.HasFloor()
    ensures rate >= 0.0 ==> t == s.(variant := s.variant.(interestRate := rate))
    ensures rate < 0.0 ==> t == s
    ensures t.variant.interestRate >= 0.0 <==> rate >= 0.0 || s.variant.interestRate >= 0.0
  {
    if rate >= 0.0 then s.(variant := s.variant.(interestRate := rate)) else s
  }

  /** Turning on the concierge service of a premium account; nothing else changes. */
  function ActivateConcierge(s: AccountState): (t: AccountState)
    requires s.variant.Premium?
    ensures t.variant.Premium? && t.variant.hasConciergeService
    ensures t == s.(variant := t.variant)
    ensures t.variant == s.variant.(hasConciergeService := true)
  {
    s.(variant := s.variant.(hasConciergeService := true))
  }

  // ----- Checking -------------------------------------------------------------

  /**
   * The checking withdrawal: it succeeds exactly when the amount is positive
   * and covered by the balance plus the overdraft limit; a success lowers the
   * balance by the amount, no further than minus the limit, and counts one
   * transaction.
   */
  function CheckingWithdraw(s: AccountState, amount: real): (w: Outcome<AccountState>)
    requires s.variant.Checking?
    ensures w.ok <==> amount > 0.0 && s.base.balance + s.variant.overdraftLimit >= amount
    ensures w.ok ==> w.after.base == s.base.(balance := s.base.balance - amount)
    ensures w.ok ==> w.after.variant == s.variant.(transactionCount := s.variant.transactionCount + 1)
    ensures w.ok ==> w.after.base.balance >= -s.variant.overdraftLimit
    ensures !w.ok ==> w.after == s
  {
    if amount > 0.0 && s.base.balance + s.variant.overdraftLimit >= amount then
      Outcome(true, AccountState(s.base.(balance := s.base.balance - amount),
                                 s.variant.(transactionCount := s.variant.transactionCount + 1)))
    else
      Outcome(false, s)
  }

  /**
   * The checking account's own one-argument deposit: the base deposit, then
   * one more transaction whatever the amount, including an ignored one.
   */
  function CheckingDeposit(s: AccountState, amount: real): (t: AccountState)
    requires s.variant.Checking?
    ensures t.variant.Checking?
    ensures t.variant.transactionCount == s.variant.transactionCount + 1
    ensures t.variant.overdraftLimit == s.variant.overdraftLimit
    ensures amount > 0.0 ==> t.base.balance == s.base.balance + amount
    ensures amount <= 0.0 ==> t.base == s.base
    ensures t.base == s.base.(balance := t.base.balance)
  {
    var d := Deposit(s.base, amount);
    AccountState(d, s.variant.(transactionCount := s.variant.transactionCount + 1))
  }

  // ----- Interest -------------------------------------------------------------

  /** The yearly rate in percent that applies to a variant as a whole. */
  function EffectiveRate(v: Variant): real {
    match v
    case Savings(rate, _) => rate
    case Checking(_, _) => CheckingRate
    case Premium(rate, _, bonus, _) => rate + bonus
  }

  /**
   * The interest of an account, computed from its current balance as each
   * variant's override does. It is the balance times the variant's whole rate:
   * a premium account's base and bonus interest are both taken from the same
   * balance, with no compounding.
   */
  function Interest(s: AccountState): (interest: real)
    ensures interest == s.base.balance * EffectiveRate(s.variant) / 100.0
  {
    match s.variant
    case Savings(rate, _) => s.base.balance * rate / 100.0
    case Checking(_, _) => s.base.balance * CheckingRate / 100.0
    case Premium(rate, _, bonus, _) =>
      var baseInterest := s.base.balance * rate / 100.0;
      var bonusInterest := s.base.balance * bonus / 100.0;
      baseInterest + bonusInterest
  }

  /**
   * The bank's interest processing: the interest is credited through the
   * base class's two-argument deposit, so only a positive interest moves the
   * balance, and no variant field (the transaction count included) changes.
   */
  function ProcessInterest(s: AccountState): (t: AccountState)
    ensures Interest(s) > 0.0 ==> t.base.balance == s.base.balance + Interest(s)
    ensures Interest(s) <= 0.0 ==> t == s
    ensures t.variant == s.variant
    ensures t.base == s.base.(balance := t.base.balance)
  {
    s.(base := Deposit(s.base, Interest(s)))
  }

  // ----- Properties -----------------------------------------------------------

  /** A savings withdrawal of a negative amount succeeds from any balance at the floor or above, and raises it. */
  lemma NegativeSavingsWithdrawRaises(s: AccountState, amount: real)
    requires s.variant.HasFloor() && s.base.balance >= s.variant.minimumBalance
    requires amount < 0.0
    ensures SavingsWithdraw(s, amount).ok
    ensures SavingsWithdraw(s, amount).after.base.balance > s.base.balance
  {
  }

  /** A premium account's interest is what a savings account with its rate would earn, plus the bonus interest. */
  lemma PremiumInterestIsSavingsPlusBonus(s: AccountState)
    requires s.variant.Premium?
    ensures Interest(s) == Interest(AccountState(s.base, Savings(s.variant.interestRate, s.variant.minimumBalance)))
                           + s.base.balance * s.variant.bonusRate / 100.0
  {
  }

  /** Deposit and base withdrawal are inverse: withdrawing what was just deposited succeeds from a non-negative balance and restores it. */
  lemma DepositThenBaseWithdraw(b: BaseState, amount: real)
    requires amount > 0.0
    ensures BaseWithdraw(Deposit(b, amount), amount).ok <==> b.balance >= 0.0
    ensures BaseWithdraw(Deposit(b, amount), amount).ok ==> BaseWithdraw(Deposit(b, amount), amount).after == b
  {
  }

  /** On a savings or premium account, withdrawing what was just deposited succeeds exactly from the floor or above, and restores the account. */
  lemma DepositThenSavingsWithdraw(s: AccountState, amount: real)
    requires s.variant.HasFloor() && amount > 0.0
    ensures SavingsWithdraw(s.(base := Deposit(s.base, amount)), amount).ok <==> s.base.balance >= s.variant.minimumBalance
    ensures SavingsWithdraw(s.(base := Deposit(s.base, amount)), amount).ok ==>
              SavingsWithdraw(s.(base := Deposit(s.base, amount)), amount).after == s
  {
  }

  /** On a checking account, a successful withdrawal followed by a deposit of the same amount restores the balance and has counted two transactions. */
  lemma CheckingWithdrawThenDeposit(s: AccountState, amount: real)
    requires s.variant.Checking?
    requires CheckingWithdraw(s, amount).ok
    ensures CheckingDeposit(CheckingWithdraw(s, amount).after, amount).base == s.base
    ensures CheckingDeposit(CheckingWithdraw(s, amount).after, amount).variant.transactionCount
              == s.variant.transactionCount + 2
  {
  }

  /** Interest is credited to a checking account exactly when its balance is positive: an overdrawn account is left as it is. */
  lemma CheckingInterestCreditedIffPositive(s: AccountState)
    requires s.variant.Checking?
    ensures ProcessInterest(s) != s <==> s.base.balance > 0.0
  {
  }

  /** Activating the concierge service twice is the same as once. */
  lemma ActivateConciergeIdempotent(s: AccountState)
    requires s.variant.Premium?
    ensures ActivateConcierge(ActivateConcierge(s)) == ActivateConcierge(s)
    ensures s.variant.hasConciergeService ==> ActivateConcierge(s) == s
  {
  }
}
