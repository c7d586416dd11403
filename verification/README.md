# Bank account hierarchy, modelled in Dafny

This project models the account hierarchy of a small C++ teaching program
(`oop_code.cpp`). The hierarchy has four classes:

- an abstract `Account` holding an account number, a holder name and a balance;
- `SavingsAccount`, with an interest rate and a fixed minimum balance of 1000;
- `CheckingAccount`, with an overdraft limit and a transaction counter;
- `PremiumAccount`, a savings account with a bonus rate and a concierge flag.

A `Bank` credits interest to any account through a base-class pointer.

The project has three modules:

- `Ledger` (`ledger.dfy`) is the value-level specification. Each account is
  a datatype (`BaseState` for the base-class part, `Variant` for the part a
  concrete class adds). Each guarded update is a pure function. Its contract
  states the guard, the effect, and that nothing else changes.
- `Accounts` (`accounts.dfy`) holds the classes as mutable objects. C++
  inheritance becomes composition: each concrete class holds its base part as
  an `Account` object (`base`), and a premium account holds its savings part
  as a `SavingsAccount` object (`savings`). A non-virtual base-class member
  is a method of `Account` only. So the checking class's own `Deposit` hides
  the base one, as in C++. A call through `Account*` is modelled by
  `AccountRef`, a tagged union of the three concrete classes, on which
  `calculateInterest` dispatches. Each class has a `State()` function. Every
  method that changes an account's fields (deposits, withdrawals, setters,
  the concierge flag, interest credit) is proved to move `State()` exactly as
  the matching `Ledger` function does. `Account.Destroy` changes only the live
  count.
- `Traces` (`traces.dfy`) runs arbitrary sequences of operations on one
  account. It proves by induction the invariants that any sequence keeps:
  - the savings floor;
  - the checking overdraft bound;
  - a transaction count that moves in step with the operations.

Amounts are exact `real`s. The rounding of the source's `double` arithmetic,
and its NaN and infinite values, are not modelled. The process-wide static `totalAccounts` is modelled as an
explicit `InstanceCounter` object. Constructors take it as a parameter and
increment it; `Account.Destroy` decrements it.

The demonstration in `main` gives Alice's savings account a final balance of
6000 before interest: 5000 + 1000 + 500 − 500. `Traces.SavingsDemo` and
`Accounts.OpenAndTransact` both prove 6000.

## Model

| member | source | states |
|---|---|---|
| `Ledger.Deposit` | oop_code.cpp:53-65 | Both deposit overloads. A non-positive amount leaves the account unchanged. A positive amount raises the balance by exactly the amount. Only the balance changes. |
| `Ledger.BaseWithdraw` | oop_code.cpp:68-76 | Succeeds iff the amount is positive and at most the balance. Success lowers the balance by the amount. Failure changes nothing. A success never leaves a negative balance. |
| `Ledger.Combine` | oop_code.cpp:98-103 | `operator+` as a pure function on base records. The balance is the sum. The account number is 0. The name is the first name, three separator characters (" & "), then the second name. |
| `Ledger.SetHolderName` | oop_code.cpp:95 | The holder becomes the given name. Account number and balance stay. |
| `Ledger.SavingsWithdraw` | oop_code.cpp:150-158 | Succeeds iff balance − amount ≥ the floor. The amount is not checked. Success lowers the balance by exactly the amount and leaves it at or above the floor. Failure changes nothing. Rate, floor, bonus and concierge flag are untouched. |
| `Ledger.SetInterestRate` | oop_code.cpp:164-168 | Sets the rate iff the new rate is ≥ 0. Otherwise nothing changes. The rate afterwards is non-negative iff the new rate or the old rate was. |
| `Ledger.ActivateConcierge` | oop_code.cpp:262-265 | The concierge flag is true afterwards. Nothing else changes. |
| `Ledger.CheckingWithdraw` | oop_code.cpp:207-216 | Succeeds iff amount > 0 and balance + overdraft limit ≥ amount. Success lowers the balance by the amount, to no less than −limit, and raises the count by exactly 1. Failure changes nothing. |
| `Ledger.CheckingDeposit` | oop_code.cpp:218-221 | The count rises by exactly 1 whatever the amount, also when a non-positive amount leaves the balance unchanged. The balance moves as the base deposit's does. The overdraft limit is untouched. |
| `Ledger.Interest` | oop_code.cpp:135-139 | Interest is the current balance times the variant's whole rate, over 100. The rate is the savings rate, the fixed 0.5 for checking, or rate + bonus for premium. So the two premium terms share one balance and do not compound. |
| `Ledger.ProcessInterest` | oop_code.cpp:285-289 | Positive interest raises the balance by exactly the interest. Non-positive interest leaves the account unchanged. No variant field, the transaction count included, ever changes. |
| `Ledger.NegativeSavingsWithdrawRaises` | oop_code.cpp:150-154 | A savings withdrawal of a negative amount from a balance at or above the floor succeeds and raises the balance. |
| `Ledger.PremiumInterestIsSavingsPlusBonus` | oop_code.cpp:245-252 | Premium interest equals what a savings account with the same balance and rate earns, plus balance × bonus / 100. |
| `Ledger.DepositThenBaseWithdraw` | oop_code.cpp:53-76 | Withdrawing through the base class what was just deposited succeeds iff the balance was non-negative. It then restores the account. |
| `Ledger.DepositThenSavingsWithdraw` | oop_code.cpp:150-158 | Depositing and then withdrawing the same positive amount on a savings or premium account succeeds iff the balance was at the floor or above. It then restores the account. |
| `Ledger.CheckingWithdrawThenDeposit` | oop_code.cpp:207-221 | A successful checking withdrawal followed by a deposit of the same amount restores the base part and counts two transactions. |
| `Ledger.CheckingInterestCreditedIffPositive` | oop_code.cpp:285-289 | Processing interest changes a checking account iff its balance is positive. An overdrawn account is left alone. |
| `Ledger.ActivateConciergeIdempotent` | oop_code.cpp:262-265 | Activating twice equals activating once. Activating when already active changes nothing. |
| `Traces.Step` | oop_code.cpp:53-289 | One operation, dispatched on the account's class as overload resolution and virtual calls do. The operations include the holder-name setter. Account number, class, floor and overdraft limit are preserved. |
| `Traces.Run` | oop_code.cpp:117-266 | Any sequence of operations, the holder-name setter included, preserves account number, class, savings floor and overdraft limit. |
| `Traces.FloorKept` | oop_code.cpp:150-158 | A savings or premium account at or above its floor stays there under any sequence of operations. |
| `Traces.OverdraftKept` | oop_code.cpp:207-216 | A checking account with balance ≥ −limit stays so under any sequence of operations. |
| `Traces.CountInStep` | oop_code.cpp:207-221 | Over any sequence, the checking count grows by at least the number of one-argument deposits. It grows by at most that number plus the number of withdrawals. Described deposits and interest credits never count. |
| `Traces.CountExact` | oop_code.cpp:207-221 | Over any sequence, the checking count grows by exactly `Traces.Counted`: one per one-argument deposit, whatever its amount, plus one per withdrawal that succeeds from the state it meets. |
| `Traces.SavingsDemo` | oop_code.cpp:306-324 | Savings 5000, deposit 1000, deposit 500 with a description, withdraw 500: the balance ends at 6000. |
| `Traces.CheckingDemo` | oop_code.cpp:307-336 | Checking 3000 with overdraft 500, withdraw 3200, then interest: the balance is −200 with one transaction. |
| `Accounts.InstanceCounter.constructor` | oop_code.cpp:112 | The live-account count starts at 0. |
| `Accounts.Account.constructor` | oop_code.cpp:29-35 | Fields are set from the arguments. The live count rises by 1. |
| `Accounts.Account.Copy` | oop_code.cpp:38-44 | Fields equal the original's. The live count rises by 1. |
| `Accounts.Account.Destroy` | oop_code.cpp:47-50 | The live count falls by 1. |
| `Accounts.Account.Deposit` | oop_code.cpp:53-58 | The new state is `Ledger.Deposit` of the old. |
| `Accounts.Account.DepositWithDescription` | oop_code.cpp:60-65 | The new state is `Ledger.Deposit` of the old. The description has no effect on state. |
| `Accounts.Account.Withdraw` | oop_code.cpp:68-76 | Returns true iff amount > 0 and the old balance ≥ amount. The result and the new state are `Ledger.BaseWithdraw` of the old state. |
| `Accounts.Account.SetHolderName` | oop_code.cpp:95 | The new state is `Ledger.SetHolderName` of the old: only the holder name changes, to the given one. |
| `Accounts.SavingsAccount.constructor` | oop_code.cpp:124-127 | A fresh base part with the given fields. Rate as given, floor 1000. The live count rises by 1. |
| `Accounts.SavingsAccount.CalculateInterest` | oop_code.cpp:135-139 | Reads state only. Equals `Ledger.Interest` of the current state: balance × rate / 100. |
| `Accounts.SavingsAccount.Withdraw` | oop_code.cpp:150-158 | Returns true iff old balance − amount ≥ the floor. On success the balance is at or above the floor. Result and new state follow `Ledger.SavingsWithdraw`. The rate cannot change, as only the base part is modified. |
| `Accounts.SavingsAccount.SetInterestRate` | oop_code.cpp:164-168 | The new state is `Ledger.SetInterestRate` of the old. |
| `Accounts.CheckingAccount.constructor` | oop_code.cpp:181-184 | A fresh base part with the given fields. The overdraft limit is as given and the count starts at 0. The live count rises by 1. |
| `Accounts.CheckingAccount.CalculateInterest` | oop_code.cpp:192-196 | Reads state only. Equals `Ledger.Interest` of the current state: balance × 0.5 / 100. |
| `Accounts.CheckingAccount.Withdraw` | oop_code.cpp:207-216 | Returns true iff amount > 0 and old balance + limit ≥ amount. Success leaves balance ≥ −limit and raises the count by exactly 1. Failure leaves balance and count unchanged. Result and new state follow `Ledger.CheckingWithdraw`. |
| `Accounts.CheckingAccount.Deposit` | oop_code.cpp:218-221 | The count rises by exactly 1 whatever the amount. The new state is `Ledger.CheckingDeposit` of the old. |
| `Accounts.PremiumAccount.constructor` | oop_code.cpp:234-237 | Fresh savings and base parts with the given fields. Floor 1000, bonus as given, concierge on. The live count rises by 1. |
| `Accounts.PremiumAccount.CalculateInterest` | oop_code.cpp:245-252 | Reads state only. Base interest plus bonus interest equals `Ledger.Interest` of the current state. |
| `Accounts.PremiumAccount.Withdraw` | oop_code.cpp:150-158 | The inherited savings withdrawal. On success the balance is ≥ 1000. Result and new state follow `Ledger.SavingsWithdraw`. Rate, bonus and concierge flag are untouched. |
| `Accounts.PremiumAccount.SetInterestRate` | oop_code.cpp:164-168 | The inherited setter. The new state is `Ledger.SetInterestRate` of the old. |
| `Accounts.PremiumAccount.ActivateConcierge` | oop_code.cpp:262-265 | The flag is on afterwards. The new state is `Ledger.ActivateConcierge` of the old. |
| `Accounts.AccountRef.CalculateInterest` | oop_code.cpp:287 | The virtual call through `Account*` equals `Ledger.Interest` of the concrete account's state. |
| `Accounts.Bank.constructor` | oop_code.cpp:276-278 | The bank keeps the given name. |
| `Accounts.Bank.ProcessInterest` | oop_code.cpp:285-289 | The account's new state is `Ledger.ProcessInterest` of the old: only a positive interest is credited. A checking account's transaction count is unchanged, because the credit uses the base two-argument deposit. |
| `Accounts.OpenAndTransact` | oop_code.cpp:306-325 | After the demo's deposits and withdrawals: savings at 6000, checking at −200 with one transaction, premium at 10000 with concierge on. Three more live accounts. |
| `Accounts.Demo` | oop_code.cpp:327-350 | After interest for all three accounts: savings 6270, checking still −200 with one transaction, premium 10700, concierge on. |
| `Accounts.PointerDemo` | oop_code.cpp:352-357 | An account reached only through a base pointer ends at 7245 after interest. Creating and destroying it leaves the live count unchanged. |

## Left out

- Console output is not modelled. This covers every `display()` override (lines 82-87, 142-147, 199-204, 255-260), `Bank::displayAccountInfo` (lines 291-293), and the constructor, destructor and bank messages. None of them change account state.
- The default constructor `Account()` (lines 20-26) is not modelled. Only `operator+` uses it.
- `operator+` instantiates the abstract `Account` (line 99), so the code is ill-formed. It is modelled only as the pure `Ledger.Combine` on base records. Its effect on the live count is not modelled.
- The getters (lines 90-92, 106-108, 161) are plain field reads in the model.
- Floating-point behaviour of `double` is not modelled; amounts are exact reals. This drops rounding, and also NaN and the infinities: in the source, for example, `deposit(NaN)` does nothing because `NaN > 0` is false, and a savings withdrawal whose `balance - amount` is NaN fails.
- The 32-bit range of `int` is not modelled. Account numbers, the transaction count and the live count are unbounded integers.
- Destructor chaining and order, and C++ object lifetime, are not modelled beyond the live count.
- Accounts.Account.Destroy: only decrements the live count; it does not end the object's lifetime, so later use of a destroyed account is not ruled out.
- The parts of `main` after the interest loop that use `operator+` and the implicit `SavingsAccount` copy (lines 338-347) are not part of the demonstration methods.
- Virtual `withdraw` through a base pointer is modelled by the dispatch in `Traces.Step`. `AccountRef` dispatches only `calculateInterest`, the one virtual call the bank makes.
