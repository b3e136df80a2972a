/** Exact balance arithmetic of the banking model, stated on values.

    `BigDecimal` is exact, so balances and amounts are Dafny `real`s: every
    decimal the accounts hold (1000.12345, 1500.89, ...) is represented without
    rounding. The class methods of module Model are proved against the
    functions here, and the lemmas here say what those functions promise.
 */
module Ledger {

  /** The failure `debit` raises when the new balance would be negative. */
  datatype InsufficientAmount = InsufficientAmount(message: string)

  /** The message carried by every insufficient-amount failure. */
  const InsufficientMessage: string := "Insufficient amount"

  /** A computed value, or the insufficient-amount failure. */
  datatype Result<T> = Ok(value: T) | Err(error: InsufficientAmount)

  /** What a mutating operation that may throw reports back. */
  datatype Outcome = Pass | Fail(error: InsufficientAmount)

  /** The balance a debit of `amount` leaves, or the failure it raises.
      The guard rejects only a strictly negative result, so debiting the
      whole balance succeeds and leaves zero. */
  function Debit(balance: real, amount: real): (r: Result<real>)
    ensures r.Ok? <==> amount <= balance
    ensures r.Ok? ==> r.value >= 0.0 && r.value + amount == balance
    ensures r.Err? ==> r.error == InsufficientAmount(InsufficientMessage)
  {
    var newBalance := balance - amount;
    if newBalance < 0.0 then Err(InsufficientAmount(InsufficientMessage)) else Ok(newBalance)
  }

  /** The balance a credit of `amount` leaves: no guard, so a negative
      amount lowers the balance, possibly below zero. */
  function Credit(balance: real, amount: real): (r: real)
    ensures r - amount == balance
    ensures r < balance <==> amount < 0.0
  {
    balance + amount
  }

  /** A credit is undone by a debit of the same amount, which succeeds
      exactly when the balance before the credit was not negative. */
  lemma CreditThenDebit(balance: real, amount: real)
    ensures Debit(Credit(balance, amount), amount) ==
            if balance >= 0.0 then Ok(balance) else Err(InsufficientAmount(InsufficientMessage))
  {
  }

  /** The balances of a transfer between two DISTINCT accounts: a debit on
      the origin and, only if it succeeded, a credit on the destination. */
  function TransferBalances(origin: real, destiny: real, amount: real): (r: Result<(real, real)>)
    ensures r.Ok? <==> amount <= origin
    ensures r.Ok? ==> r.value.0 + r.value.1 == origin + destiny
    ensures r.Ok? ==> r.value.0 >= 0.0 && r.value.1 - destiny == amount
    ensures r.Err? ==> r.error == InsufficientAmount(InsufficientMessage)
  {
    match Debit(origin, amount)
    case Err(e) => Err(e)
    case Ok(left) => Ok((left, Credit(destiny, amount)))
  }

  /** Sum of the balances `m` gives to the entries of `keys`, counting an
      entry as often as it occurs. */
  function Total<K>(keys: seq<K>, m: map<K, real>): (r: real)
    requires forall k :: k in keys ==> k in m
  {
    if keys == [] then 0.0 else m[keys[0]] + Total(keys[1..], m)
  }

  /** The balances after `amount` has been debited from `from` and credited
      to `to`; when `from == to` the two cancel out. */
  function Moved<K>(m: map<K, real>, from: K, to: K, amount: real): (r: map<K, real>)
    ensures r.Keys == m.Keys
  {
    map k | k in m :: m[k] - (if k == from then amount else 0.0) + (if k == to then amount else 0.0)
  }

  /** How often `k` occurs in `keys`. */
  function Count<K(==)>(keys: seq<K>, k: K): (r: nat)
  {
    if keys == [] then 0 else (if keys[0] == k then 1 else 0) + Count(keys[1..], k)
  }

  /** The net amount a transfer moves into the entries of `keys`, entry by
      entry: `amount` in for each occurrence of `to`, out for each of `from`. */
  function NetInflow<K(==)>(keys: seq<K>, from: K, to: K, amount: real): (r: real)
  {
    if keys == [] then 0.0
    else (if keys[0] == to then amount else 0.0) - (if keys[0] == from then amount else 0.0)
         + NetInflow(keys[1..], from, to, amount)
  }

  /** The total after a transfer is the total before plus the net inflow. */
  lemma {:induction false} TotalMoved<K>(keys: seq<K>, m: map<K, real>, from: K, to: K, amount: real)
    requires forall k :: k in keys ==> k in m
    ensures Total(keys, Moved(m, from, to, amount)) == Total(keys, m) + NetInflow(keys, from, to, amount)
  {
    if keys != [] {
      TotalMoved(keys[1..], m, from, to, amount);
    }
  }

  /** The net inflow is the amount times the difference between the
      occurrences of the destination and of the origin. */
  lemma {:induction false} NetInflowCounts<K>(keys: seq<K>, from: K, to: K, amount: real)
    ensures NetInflow(keys, from, to, amount) == amount * ((Count(keys, to) - Count(keys, from)) as real)
  {
    if keys != [] {
      NetInflowCounts(keys[1..], from, to, amount);
      var rest := Count(keys[1..], to) - Count(keys[1..], from);
      var head := (if keys[0] == to then 1 else 0) - (if keys[0] == from then 1 else 0);
      assert Count(keys, to) - Count(keys, from) == head + rest;
      assert amount * ((head + rest) as real) == amount * (head as real) + amount * (rest as real);
    }
  }

  /** A transfer changes the total of a list of accounts by the amount
      times the difference between the occurrences of the destination and
      of the origin in that list. */
  lemma TransferChangesTotal<K>(keys: seq<K>, m: map<K, real>, from: K, to: K, amount: real)
    requires forall k :: k in keys ==> k in m
    ensures Total(keys, Moved(m, from, to, amount)) ==
            Total(keys, m) + amount * ((Count(keys, to) - Count(keys, from)) as real)
  {
    TotalMoved(keys, m, from, to, amount);
    NetInflowCounts(keys, from, to, amount);
  }

  /** A transfer conserves the total of every list in which origin and
      destination occur equally often: both registered once, a transfer of
      an account to itself, or neither registered. */
  lemma TransferConservesTotal<K>(keys: seq<K>, m: map<K, real>, from: K, to: K, amount: real)
    requires forall k :: k in keys ==> k in m
    requires Count(keys, from) == Count(keys, to)
    ensures Total(keys, Moved(m, from, to, amount)) == Total(keys, m)
  {
    TransferChangesTotal(keys, m, from, to, amount);
  }
}
