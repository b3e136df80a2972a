/** The banking domain model: an `Account` owned by a `Bank`.

    Both are mutable objects that refer to each other (an account records
    the bank that registered it, a bank lists its accounts), so both classes
    live in this one module. Balances are exact `real`s; the arithmetic they
    follow is specified in module Ledger.
 */
module Model {
  import Ledger

  /** A reference that may be null. */
  datatype Option<T> = None | Some(value: T)

  /** The fields Lombok's generated `equals` compares. */
  datatype AccountData = AccountData(person: string, balance: real, bank: Bank?)

  /** The balance of every account in `s`, keyed by the account itself, so
      that an account listed twice has one balance. */
  ghost function BalanceMap(s: seq<Account>): (m: map<Account, real>)
    reads s
  {
    map a | a in s :: a.balance
  }

  class Account {
    var person: string
    var balance: real
    var bank: Bank?

    /** A new account of `person` holding `balance`, not yet registered. */
    constructor (person: string, balance: real)
      ensures this.person == person && this.balance == balance && bank == null
    {
      this.person := person;
      this.balance := balance;
      bank := null;
    }

    /** The account's fields as a value: two accounts are equal, in the
        sense of the generated `equals`, exactly when these values are. */
    function Data(): (d: AccountData)
      reads this
    {
      AccountData(person, balance, bank)
    }

    /** Subtracts `amount`, unless the result would be negative, in which
        case it fails with "Insufficient amount" and changes nothing. */
    method Debit(amount: real) returns (r: Ledger.Outcome)
      modifies this
      ensures person == old(person) && bank == old(bank)
      ensures r.Pass? <==> amount <= old(balance)
      ensures r.Pass? ==> balance == old(balance) - amount && balance >= 0.0
      ensures r.Fail? ==> balance == old(balance)
      ensures Ledger.Debit(old(balance), amount) == if r.Pass? then Ledger.Ok(balance) else Ledger.Err(r.error)
    {
      var newBalance := balance - amount;
      if newBalance < 0.0 {
        return Ledger.Fail(Ledger.InsufficientAmount(Ledger.InsufficientMessage));
      }
      balance := newBalance;
      r := Ledger.Pass;
    }

    /** Adds `amount`; never fails, and a negative amount is not rejected. */
    method Credit(amount: real)
      modifies this
      ensures person == old(person) && bank == old(bank)
      ensures balance == Ledger.Credit(old(balance), amount)
    {
      balance := balance + amount;
    }

    /** The generated setter `addAccount` uses for the back-reference. */
    method SetBank(bank: Bank?)
      modifies this
      ensures this.bank == bank
      ensures person == old(person) && balance == old(balance)
    {
      this.bank := bank;
    }
  }

  class Bank {
    var name: Option<string>
    var accounts: seq<Account>

    /** A bank with no name yet and no accounts. */
    constructor ()
      ensures name == None && accounts == []
      ensures Registered()
    {
      name := None;
      accounts := [];
    }

    /** Every listed account points back to this bank. `addAccount`
        establishes it for the account it adds; nothing re-checks it. */
    ghost predicate Registered()
      reads this, accounts
    {
      forall a :: a in accounts ==> a.bank == this
    }

    /** Sum of the balances of the listed accounts, an account listed twice
        counting twice. */
    ghost function Holdings(): real
      reads this, accounts
    {
      Ledger.Total(accounts, BalanceMap(accounts))
    }

    /** The generated setter for the bank's name; `None` stands for null. */
    method SetName(name: Option<string>)
      modifies this
      ensures this.name == name && accounts == old(accounts)
    {
      this.name := name;
    }

    /** Appends `account` (no duplicate check) and points it back here. */
    method AddAccount(account: Account)
      modifies this, account
      ensures accounts == old(accounts) + [account]
      ensures account.bank == this
      ensures account.person == old(account.person) && account.balance == old(account.balance)
      ensures name == old(name)
      ensures old(Registered()) ==> Registered()
    {
      accounts := accounts + [account];
      account.SetBank(this);
    }

    /** Debits `origin`, then credits `destiny` only if the debit succeeded.
        The two may be the same account, and neither need be listed here. */
    method Transfer(origin: Account, destiny: Account, amount: real) returns (r: Ledger.Outcome)
      modifies origin, destiny
      ensures r.Pass? <==> amount <= old(origin.balance)
      ensures r.Fail? ==> r.error == Ledger.InsufficientAmount(Ledger.InsufficientMessage)
      ensures r.Fail? ==> origin.balance == old(origin.balance) && destiny.balance == old(destiny.balance)
      ensures origin != destiny ==>
                Ledger.TransferBalances(old(origin.balance), old(destiny.balance), amount) ==
                if r.Pass? then Ledger.Ok((origin.balance, destiny.balance)) else Ledger.Err(r.error)
      ensures origin == destiny ==> origin.balance == old(origin.balance)
      ensures origin.person == old(origin.person) && origin.bank == old(origin.bank)
      ensures destiny.person == old(destiny.person) && destiny.bank == old(destiny.bank)
      ensures BalanceMap(accounts) ==
                if r.Pass? then Ledger.Moved(old(BalanceMap(accounts)), origin, destiny, amount)
                else old(BalanceMap(accounts))
      ensures r.Pass? ==> Holdings() == old(Holdings()) + Ledger.NetInflow(accounts, origin, destiny, amount)
      ensures Ledger.Count(accounts, origin) == Ledger.Count(accounts, destiny) ==> Holdings() == old(Holdings())
      ensures r.Fail? ==> Holdings() == old(Holdings())
      ensures Registered() == old(Registered())
    {
      ghost var before := BalanceMap(accounts);
      r := origin.Debit(amount);
      if r.Fail? {
        return;
      }
      destiny.Credit(amount);
      assert BalanceMap(accounts) == Ledger.Moved(before, origin, destiny, amount);
      Ledger.TotalMoved(accounts, before, origin, destiny, amount);
      if Ledger.Count(accounts, origin) == Ledger.Count(accounts, destiny) {
        Ledger.TransferConservesTotal(accounts, before, origin, destiny, amount);
      }
    }
  }
}
