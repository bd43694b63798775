/**
 The BankAccount value object: an owner and a balance, the exceptions its
 operations raise, the Python values its operators accept on the right-hand
 side, and the operations that read or replace its two fields.

 The class mutates its instance in place; here every mutator is a pure
 function from the account before the call to the account after it.
 */
module BankAccount {
  import opened Wrappers

  /** The Python exceptions the class raises, with their messages. */
  datatype Error =
    | ValueError(message: string)
    | TypeError(message: string)
    | KeyError(message: string)

  type PyResult<T> = Result<T, Error>

  /** One instance: the private `__owner` and `__balance` attributes. */
  datatype Account = Account(owner: string, balance: real)

  /**
   A Python value handed to an operator (the `other` of `a + other`,
   `a == other`, ...) or to indexing (the `key` of `a[key]`).
   `Num` stands for any int, float or bool (True is 1.0, False is 0.0);
   `Pair` is a two-element tuple of a text and a number; `Other` is any
   other object, including tuples of any other shape.
   */
  datatype Operand =
    | Acc(account: Account)
    | Num(number: real)
    | Str(text: string)
    | Pair(first: string, second: real)
    | Other

  /** A value read out of an account: its owner or its balance. */
  datatype Field = Text(text: string) | Number(number: real)

  /** The class-level `__bank_address`, shared by every instance. */
  const BankAddress: string := "1 Allenby St, Tel Aviv"

  /** The owner every account carries after `freeze`. */
  const FrozenOwner: string := "FROZEN"

  /** `is_rich` holds strictly above this balance. */
  const RichThreshold: real := 1000000.0

  const InsufficientFunds: string := "Insufficient funds"

  /** The message of the TypeError an operator raises for an operand it does not accept. */
  function Unsupported(op: string): string
  {
    "Unsupported type for " + op
  }

  /** `deposit`: adds any amount, negative ones included, and keeps the owner. */
  function Deposit(a: Account, amount: real): (r: Account)
    ensures r.owner == a.owner
    ensures r.balance == a.balance + amount
  {
    a.(balance := a.balance + amount)
  }

  /**
   `withdraw`: refuses with a ValueError exactly when the amount exceeds the
   balance (the caller then still holds `a`), otherwise subtracts it. The
   amount itself is not checked, so a negative amount raises the balance.
   */
  function Withdraw(a: Account, amount: real): (r: PyResult<Account>)
    ensures r.Failure? <==> amount > a.balance
    ensures r.Failure? ==> r.error == ValueError(InsufficientFunds)
    ensures r.Success? ==> r.value.owner == a.owner && r.value.balance == a.balance - amount
    ensures r.Success? ==> r.value.balance >= 0.0
  {
    if amount > a.balance then Failure(ValueError(InsufficientFunds))
    else Success(a.(balance := a.balance - amount))
  }

  /** `is_rich`: the balance strictly exceeds one million. */
  function IsRich(a: Account): (r: bool)
    ensures r ==> a.balance > 0.0
    ensures r <==> a.balance > RichThreshold
  {
    a.balance > RichThreshold
  }

  /** `freeze`: the account forgets its owner and balance for fixed ones. */
  function Freeze(a: Account): (r: Account)
    ensures r.owner == FrozenOwner && r.balance == 0.0
    ensures !IsRich(r)
  {
    Account(FrozenOwner, 0.0)
  }

  /**
   Python's `max` over `[current] + rest`: scans left to right and replaces
   the running maximum only by a strictly greater element.
   */
  function MaxFrom(current: real, rest: seq<real>): (m: real)
    ensures m >= current
    ensures forall i :: 0 <= i < |rest| ==> rest[i] <= m
    ensures m == current || m in rest
    decreases |rest|
  {
    if rest == [] then current
    else
      var next := if rest[0] > current then rest[0] else current;
      MaxFrom(next, rest[1..])
  }

  /** `highest_balance`: the largest of three balances. */
  function HighestBalance(a: Account, b: Account, c: Account): (m: real)
    ensures m >= a.balance && m >= b.balance && m >= c.balance
    ensures m == a.balance || m == b.balance || m == c.balance
  {
    var rest := [b.balance, c.balance];
    assert rest[0] == b.balance && rest[1] == c.balance;
    MaxFrom(a.balance, rest)
  }

  /**
   A deposit followed by a withdrawal of the same amount is granted exactly
   when the account was not overdrawn, and then undoes the deposit. An
   overdrawn account (reachable by a negative deposit or by construction)
   refuses the withdrawal whatever the amount.
   */
  lemma DepositThenWithdraw(a: Account, amount: real)
    ensures Withdraw(Deposit(a, amount), amount).Success? <==> a.balance >= 0.0
    ensures a.balance >= 0.0 ==> Withdraw(Deposit(a, amount), amount) == Success(a)
  {
  }

  /** A granted withdrawal followed by a deposit of the same amount restores the account. */
  lemma WithdrawThenDeposit(a: Account, amount: real)
    requires Withdraw(a, amount).Success?
    ensures Deposit(Withdraw(a, amount).value, amount) == a
  {
  }

  /** Freezing twice is freezing once, and the frozen state keeps nothing of the account. */
  lemma FreezeIdempotent(a: Account, b: Account)
    ensures Freeze(Freeze(a)) == Freeze(a)
    ensures Freeze(a) == Freeze(b)
  {
  }

  /** Depositing a non-negative amount never makes a rich account poor. */
  lemma IsRichMonotone(a: Account, amount: real)
    requires IsRich(a) && amount >= 0.0
    ensures IsRich(Deposit(a, amount))
  {
  }

  /** The result of `highest_balance` does not depend on the order of its arguments. */
  lemma HighestBalanceSymmetric(a: Account, b: Account, c: Account)
    ensures HighestBalance(a, b, c) == HighestBalance(b, a, c)
    ensures HighestBalance(a, b, c) == HighestBalance(a, c, b)
    ensures HighestBalance(a, b, c) == HighestBalance(c, b, a)
  {
  }
}
