# Banking domain model of junit-app, in Dafny

The repository's model is two mutable classes. An `Account` holds a person's
name, an exact decimal balance and a back-reference to the `Bank` that
registered it. A `Bank` holds a name and an ordered list of accounts.
`debit` subtracts an amount unless the result would be negative; in that case it
throws `InsufficientAmountException("Insufficient amount")` before writing.
`credit` adds with no check. `addAccount` appends an account and points it back
at the bank. `transfer` is a debit on the origin followed by a credit on the
destination.

The Dafny project has three modules:

- `Ledger` (ledger.dfy) states the arithmetic on values. `Debit` gives the guarded
  subtraction as a `Result`. `TransferBalances` gives a transfer between two
  distinct accounts. `Total`, `Moved`, `Count` and `NetInflow` describe the sum of
  the balances of a list of accounts and how a transfer changes it.
- `Model` (model.dfy) has the classes `Account` and `Bank`. Each has the source's
  fields, and each method carries `modifies` and `ensures` clauses that tie the new
  state to the `Ledger` functions. The thrown exception becomes a returned
  `Ledger.Outcome` (`Pass` or `Fail(InsufficientAmount(message))`), and a failing
  call leaves every field as it was. `Account.Data()` is the field tuple that
  Lombok's generated `equals` compares.
- `Scenarios` (scenarios.dfy) has client methods that replay the expectations of
  the tests. Each method's postcondition is a value the test checks, and it is
  derived from the `Model` contracts alone.

Balances are Dafny `real`s. `BigDecimal` arithmetic is exact, and every decimal
used (`1000.12345`, `1500.89`) is a `real` literal, so `1000.12345 - 100` is
exactly `900.12345`.

Aliasing in `transfer` is handled explicitly. When origin and destination are
the same object, a successful transfer leaves its balance unchanged. It still
fails when the amount exceeds the balance. The effect on a bank's list is stated
with `Moved`, which is keyed by account identity. An account listed twice, which
`addAccount` allows, counts twice in `Bank.Holdings()`. A transfer changes the
holdings by the amount times (occurrences of destination − occurrences of
origin). So the holdings are conserved whenever the two accounts occur equally
often in the list.

## Model

| member | source | states |
|---|---|---|
| `Ledger.Debit` | src/main/java/com/ajcp/junit/app/model/Account.java:27-33 | a debit succeeds exactly when amount <= balance (strict `< 0` guard); on success the new balance plus the amount is the old balance and is never negative; on failure the error is InsufficientAmount("Insufficient amount") |
| `Ledger.Credit` | src/main/java/com/ajcp/junit/app/model/Account.java:35-37 | a credit never fails; subtracting the amount from the result gives back the old balance, and the result falls below the old balance exactly when the amount is negative (there is no sign check) |
| `Ledger.CreditThenDebit` | src/main/java/com/ajcp/junit/app/model/Account.java:27-37 | a debit of the amount just credited restores the old balance, and succeeds exactly when that balance was not negative |
| `Ledger.TransferBalances` | src/main/java/com/ajcp/junit/app/model/Bank.java:24-27 | a transfer between distinct accounts succeeds exactly when amount <= origin balance; on success the pair's sum is conserved, the origin stays non-negative and the destination gains exactly the amount; on failure the debit's error propagates |
| `Ledger.Moved` | src/main/java/com/ajcp/junit/app/model/Bank.java:24-27 | moving money between accounts neither adds nor removes an account from the balance map |
| `Ledger.TotalMoved` | src/main/java/com/ajcp/junit/app/model/Bank.java:24-27 | the total of any list of accounts after a transfer is the total before plus the net inflow the transfer makes into that list |
| `Ledger.NetInflowCounts` | src/main/java/com/ajcp/junit/app/model/Bank.java:24-32 | that net inflow is the amount times (occurrences of destination − occurrences of origin), where duplicates from addAccount count each time |
| `Ledger.TransferChangesTotal` | src/main/java/com/ajcp/junit/app/model/Bank.java:24-32 | a transfer changes a list's total by the amount times (occurrences of destination − occurrences of origin) |
| `Ledger.TransferConservesTotal` | src/main/java/com/ajcp/junit/app/model/Bank.java:24-27 | a transfer conserves the total of every list in which origin and destination occur equally often: both registered once, a self-transfer, or neither registered |
| `Model.Account.constructor` | src/main/java/com/ajcp/junit/app/model/Account.java:22-25 | the two-argument constructor sets person and balance and leaves the bank unset (null) |
| `Model.Account.Debit` | src/main/java/com/ajcp/junit/app/model/Account.java:27-33 | succeeds iff amount <= old balance, then balance = old − amount >= 0; on failure balance is unchanged and the error is the one `Ledger.Debit` gives; person and bank never change |
| `Model.Account.Credit` | src/main/java/com/ajcp/junit/app/model/Account.java:35-37 | balance becomes old balance + amount with no check on the amount's sign; person and bank unchanged |
| `Model.Account.SetBank` | src/main/java/com/ajcp/junit/app/model/Account.java:20 | the generated setter writes only the back-reference |
| `Model.Bank.constructor` | src/main/java/com/ajcp/junit/app/model/Bank.java:20-22 | the no-arg constructor gives an empty account list and no name; the registration invariant holds trivially |
| `Model.Bank.SetName` | src/main/java/com/ajcp/junit/app/model/Bank.java:17 | the generated setter writes only the name, which may be set to null (`None`) |
| `Model.Bank.AddAccount` | src/main/java/com/ajcp/junit/app/model/Bank.java:29-32 | accounts becomes old accounts + [account] (no duplicate check, earlier entries unchanged); the account's bank is this bank; its person and balance are untouched; the bank's name is untouched; the invariant "every listed account points back here" is preserved |
| `Model.Bank.Transfer` | src/main/java/com/ajcp/junit/app/model/Bank.java:24-27 | succeeds iff amount <= old origin balance; on failure neither account changes (the credit never runs); for distinct accounts the new balances are the ones `Ledger.TransferBalances` gives; for one account used as both, its balance is unchanged; persons, banks, the bank's name and list are untouched and membership is not required; the list's balances become `Ledger.Moved` of the old ones, so the holdings change by the net inflow and are conserved when origin and destination are listed equally often |
| `Scenarios.DebitIsExact` | src/test/java/com/ajcp/junit/app/model/AccountTest.java:103-111 | 1000.12345 debited by 100 is exactly 900.12345 |
| `Scenarios.CreditIsExact` | src/test/java/com/ajcp/junit/app/model/AccountTest.java:113-121 | 1000.12345 credited with 100 is exactly 1100.12345 |
| `Scenarios.DebitBeyondBalanceFails` | src/test/java/com/ajcp/junit/app/model/AccountTest.java:126-137 | what that test would check if it were enabled (it is disabled and calls `fail()` first): debiting 1500 from 1000.123456 fails with "Insufficient amount" and the balance stays 1000.123456 |
| `Scenarios.DebitWholeBalance` | src/main/java/com/ajcp/junit/app/model/Account.java:29 | debiting the entire balance succeeds and leaves 0, because the guard is strict |
| `Scenarios.ConstructedEquality` | src/main/java/com/ajcp/junit/app/model/Account.java:11-25 | for every person and balances v, w: two accounts built from (person, v) are equal under the generated `equals` (equal `Account.Data()`), and one built from (person, w) equals them exactly when w == v |
| `Scenarios.SameDataEqual` | src/test/java/com/ajcp/junit/app/model/AccountTest.java:89-96 | two accounts built with the same person and balance have equal field tuples; one with a different balance does not |
| `Scenarios.RegisterAndTransfer` | src/test/java/com/ajcp/junit/app/model/AccountTest.java:151-175 | after two registrations, naming the bank and moving 500: 1500.89 → 1000.89, 2500 → 3000, the list holds "Jhon Doe" then "Andres", the list has size 2, and the first account's bank is named "Banco del estado" |
| `Scenarios.AddTwice` | src/main/java/com/ajcp/junit/app/model/Bank.java:29-32 | adding the same account twice lists it twice |

## Left out

- Lombok boilerplate is left out. This covers `@Builder`, the all-args constructors (which can leave `accounts` null), Account's no-arg constructor, getters, `toString`, `hashCode`, and the setters `setBalance` and `setPerson`, which only tests use. Getters are plain field reads in the model, and of the setters only `setBank` and `setName` are kept.
- `Account.Data()` stands in for Lombok's `equals`. It compares the bank by reference, while Lombok compares the `Bank` objects field by field. The two agree for unregistered accounts and for accounts of the same bank, which are the cases used.
- `BigDecimal` representation details are left out. Scale-sensitive `equals` (2500 versus 2500.00), `toPlainString` formatting and the `doubleValue`/`intValue` conversions have no counterpart, because balances are exact numbers.
- Null is only partly modelled. A null balance, amount or account makes `debit`, `credit`, `transfer` or `addAccount` throw a NullPointerException; the model has no such values, because balances are reals and accounts are non-null references. The source accepts a null person, since nothing dereferences it, but the model cannot represent one because `person` is a plain string. A null bank name is modelled as `None`, both after `Bank()` and through `SetName`.
- The `InsufficientAmountException` class is not part of this model. Its throw is modelled as the failure value `InsufficientAmount("Insufficient amount")`.
- Concurrency is not modelled. The source offers no synchronisation, and the model is sequential.
- The test harness is left out. This covers lifecycle hooks, tags, OS/JRE/property/environment conditions, timeouts, parameterized sources and console or reporter logging.
