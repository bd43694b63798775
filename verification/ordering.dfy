/** `__gt__`, `__ge__`, `__lt__`, `__le__`: comparisons on balances, defined between accounts only. */
module Ordering {
  import opened Wrappers
  import opened BankAccount
  import opened Equality

  /** `a > other` */
  function Gt(a: Account, other: Operand): (r: PyResult<bool>)
    ensures r.Success? <==> other.Acc?
    ensures r.Failure? ==> r.error == TypeError(Unsupported(">"))
    ensures r.Success? ==> (r.value <==> a.balance > other.account.balance)
  {
    if other.Acc? then Success(a.balance > other.account.balance)
    else Failure(TypeError(Unsupported(">")))
  }

  /** `a >= other` */
  function Ge(a: Account, other: Operand): (r: PyResult<bool>)
    ensures r.Success? <==> other.Acc?
    ensures r.Failure? ==> r.error == TypeError(Unsupported(">="))
    ensures r.Success? ==> (r.value <==> a.balance >= other.account.balance)
  {
    if other.Acc? then Success(a.balance >= other.account.balance)
    else Failure(TypeError(Unsupported(">=")))
  }

  /** `a < other` */
  function Lt(a: Account, other: Operand): (r: PyResult<bool>)
    ensures r.Success? <==> other.Acc?
    ensures r.Failure? ==> r.error == TypeError(Unsupported("<"))
    ensures r.Success? ==> (r.value <==> a.balance < other.account.balance)
  {
    if other.Acc? then Success(a.balance < other.account.balance)
    else Failure(TypeError(Unsupported("<")))
  }

  /** `a <= other` */
  function Le(a: Account, other: Operand): (r: PyResult<bool>)
    ensures r.Success? <==> other.Acc?
    ensures r.Failure? ==> r.error == TypeError(Unsupported("<="))
    ensures r.Success? ==> (r.value <==> a.balance <= other.account.balance)
  {
    if other.Acc? then Success(a.balance <= other.account.balance)
    else Failure(TypeError(Unsupported("<=")))
  }

  /** `>` and `>=` are the converses of `<` and `<=`. */
  lemma GreaterIsConverse(a: Account, b: Account)
    ensures Gt(a, Acc(b)) == Lt(b, Acc(a))
    ensures Ge(a, Acc(b)) == Le(b, Acc(a))
  {
  }

  /** `>=` is the negation of `<`, and `<=` the negation of `>`. */
  lemma NonStrictIsNegatedStrict(a: Account, b: Account)
    ensures Ge(a, Acc(b)).value == !Lt(a, Acc(b)).value
    ensures Le(a, Acc(b)).value == !Gt(a, Acc(b)).value
  {
  }

  /** Accounts of equal balance are tied, whoever owns them. */
  lemma EqualBalancesTie(a: Account, b: Account)
    requires a.balance == b.balance
    ensures Gt(a, Acc(b)) == Lt(a, Acc(b)) == Success(false)
    ensures Ge(a, Acc(b)) == Le(a, Acc(b)) == Success(true)
  {
  }

  /** `a <= b` both ways holds exactly when `a` equals the number `b.balance`, not when the accounts are equal. */
  lemma MutualLeIsBalanceEquality(a: Account, b: Account)
    ensures (Le(a, Acc(b)).value && Le(b, Acc(a)).value) <==> Eq(a, Num(b.balance))
    ensures Eq(a, Acc(b)) ==> Le(a, Acc(b)).value && Le(b, Acc(a)).value
  {
  }

  /** Every comparison with something other than an account raises the TypeError naming its operator. */
  lemma NonAccountsRejected(a: Account, other: Operand)
    requires !other.Acc?
    ensures Gt(a, other) == Failure(TypeError(Unsupported(">")))
    ensures Ge(a, other) == Failure(TypeError(Unsupported(">=")))
    ensures Lt(a, other) == Failure(TypeError(Unsupported("<")))
    ensures Le(a, other) == Failure(TypeError(Unsupported("<=")))
  {
  }

  /** `<` is a strict order and `<=` a total preorder on accounts. */
  lemma OrderLaws(a: Account, b: Account, c: Account)
    ensures !Lt(a, Acc(a)).value
    ensures Lt(a, Acc(b)).value && Lt(b, Acc(c)).value ==> Lt(a, Acc(c)).value
    ensures Le(a, Acc(b)).value || Le(b, Acc(a)).value
    ensures Le(a, Acc(b)).value && Le(b, Acc(c)).value ==> Le(a, Acc(c)).value
  {
  }
}
