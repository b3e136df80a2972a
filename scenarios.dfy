/** Clients of the model that replay the expectations of AccountTest: each
    builds fresh accounts and banks, runs the operations, and its
    postcondition is the value the test compares against. They show that the
    contracts of module Model are strong enough to determine those values.
 */
module Scenarios {
  import Ledger
  import Model

  /** 1000.12345 - 100 leaves exactly 900.12345. */
  method DebitIsExact() returns (balance: real)
    ensures balance == 900.12345
  {
    var account := new Model.Account("Andres", 1000.12345);
    var r := account.Debit(100.0);
    balance := account.balance;
  }

  /** 1000.12345 + 100 gives exactly 1100.12345. */
  method CreditIsExact() returns (balance: real)
    ensures balance == 1100.12345
  {
    var account := new Model.Account("Andres", 1000.12345);
    account.Credit(100.0);
    balance := account.balance;
  }

  /** Debiting 1500 from 1000.123456 fails with "Insufficient amount" and
      leaves the balance as it was. */
  method DebitBeyondBalanceFails() returns (r: Ledger.Outcome, balance: real)
    ensures r == Ledger.Fail(Ledger.InsufficientAmount("Insufficient amount"))
    ensures balance == 1000.123456
  {
    var account := new Model.Account("Andres", 1000.123456);
    r := account.Debit(1500.0);
    balance := account.balance;
  }

  /** Debiting the whole balance is allowed and leaves zero. */
  method DebitWholeBalance() returns (r: Ledger.Outcome, balance: real)
    ensures r == Ledger.Pass && balance == 0.0
  {
    var account := new Model.Account("Andres", 1000.12345);
    r := account.Debit(1000.12345);
    balance := account.balance;
  }

  /** For every person and balances `v`, `w`: two accounts built from the
      same person and balance are equal in the sense of the generated
      `equals`, and one built with `w` equals them exactly when `w == v`. */
  method ConstructedEquality(p: string, v: real, w: real) returns (same: bool, alike: bool)
    ensures same
    ensures alike <==> v == w
  {
    var first := new Model.Account(p, v);
    var second := new Model.Account(p, v);
    var third := new Model.Account(p, w);
    same := first.Data() == second.Data();
    alike := first.Data() == third.Data();
  }

  /** Two accounts built from the same person and balance are equal; one
      with another balance is not. */
  method SameDataEqual() returns (same: bool, different: bool)
    ensures same && !different
  {
    var first := new Model.Account("Jhon Doe", 8900.997);
    var second := new Model.Account("Jhon Doe", 8900.997);
    var third := new Model.Account("Jhon Doe", 8900.0);
    same := first.Data() == second.Data();
    different := first.Data() == third.Data();
  }

  /** Register two accounts, name the bank, move 500 from the second to the
      first: 1500.89 becomes 1000.89, 2500 becomes 3000, the bank lists both
      accounts in order, and the first account's bank carries the name. */
  method RegisterAndTransfer() returns (origin: real, destiny: real, persons: seq<string>, bankName: Model.Option<string>, size: nat)
    ensures origin == 1000.89 && destiny == 3000.0
    ensures persons == ["Jhon Doe", "Andres"]
    ensures bankName == Model.Some("Banco del estado")
    ensures size == 2
  {
    var account1 := new Model.Account("Jhon Doe", 2500.0);
    var account2 := new Model.Account("Andres", 1500.89);
    var bank := new Model.Bank();
    bank.AddAccount(account1);
    bank.AddAccount(account2);
    bank.SetName(Model.Some("Banco del estado"));
    var r := bank.Transfer(account2, account1, 500.0);
    origin, destiny := account2.balance, account1.balance;
    persons := [bank.accounts[0].person, bank.accounts[1].person];
    bankName := account1.bank.name;
    size := |bank.accounts|;
  }

  /** Adding the same account twice lists it twice. */
  method AddTwice() returns (size: nat)
    ensures size == 2
  {
    var account := new Model.Account("Andres", 10.0);
    var bank := new Model.Bank();
    bank.AddAccount(account);
    bank.AddAccount(account);
    size := |bank.accounts|;
  }
}
