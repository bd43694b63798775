/** `__add__` and `__sub__`: new accounts (or a joint label) built from an account and an operand. */
module Arithmetic {
  import opened Wrappers
  import opened BankAccount

  /** What `a + other` returns: a new account, or a text when two owners differ. */
  datatype Sum = NewAccount(account: Account) | JointLabel(text: string)

  /** The label `a + b` returns for accounts of different owners. */
  function JointName(left: string, right: string): (r: string)
    ensures |r| == 10 + |left| + |right|
    ensures r[..7] == "Joint: "
    ensures r[7..7 + |left|] == left && r[7 + |left|..10 + |left|] == " & "
    ensures r[|r| - |right|..] == right
  {
    "Joint: " + left + " & " + right
  }

  /**
   `a + other`: accounts of one owner merge into a new account of that owner,
   accounts of different owners give the joint label, a number is added to
   the balance, anything else raises a TypeError.
   */
  function Add(a: Account, other: Operand): (r: PyResult<Sum>)
    ensures r.Success? <==> other.Acc? || other.Num?
    ensures r.Failure? ==> r.error == TypeError(Unsupported("+"))
    ensures other.Acc? ==> (r.value.JointLabel? <==> a.owner != other.account.owner)
    ensures r.Success? && r.value.NewAccount? ==> r.value.account.owner == a.owner
    ensures other.Acc? && r.value.NewAccount? ==>
              r.value.account.balance == a.balance + other.account.balance
    ensures other.Acc? && r.value.JointLabel? ==>
              r.value.text == JointName(a.owner, other.account.owner)
    ensures other.Num? ==> r.value.NewAccount? && r.value.account.balance == a.balance + other.number
  {
    match other
    case Acc(b) =>
      if a.owner == b.owner then Success(NewAccount(Account(a.owner, a.balance + b.balance)))
      else Success(JointLabel(JointName(a.owner, b.owner)))
    case Num(n) => Success(NewAccount(Account(a.owner, a.balance + n)))
    case _ => Failure(TypeError(Unsupported("+")))
  }

  /**
   `a - other`: a new account of the left owner whatever the right owner,
   less the operand's balance or the number; anything else raises a TypeError.
   */
  function Sub(a: Account, other: Operand): (r: PyResult<Account>)
    ensures r.Success? <==> other.Acc? || other.Num?
    ensures r.Failure? ==> r.error == TypeError(Unsupported("-"))
    ensures r.Success? ==> r.value.owner == a.owner
    ensures other.Acc? ==> r.value.balance == a.balance - other.account.balance
    ensures other.Num? ==> r.value.balance == a.balance - other.number
  {
    match other
    case Acc(b) => Success(Account(a.owner, a.balance - b.balance))
    case Num(n) => Success(Account(a.owner, a.balance - n))
    case _ => Failure(TypeError(Unsupported("-")))
  }

  /** Subtracting a number undoes adding it. */
  lemma AddThenSubNumber(a: Account, n: real)
    ensures Add(a, Num(n)).Success? && Add(a, Num(n)).value.NewAccount?
    ensures Sub(Add(a, Num(n)).value.account, Num(n)) == Success(a)
  {
  }

  /** Subtracting an account of the same owner undoes adding it. */
  lemma AddThenSubAccount(a: Account, b: Account)
    requires a.owner == b.owner
    ensures Add(a, Acc(b)).Success? && Add(a, Acc(b)).value.NewAccount?
    ensures Sub(Add(a, Acc(b)).value.account, Acc(b)) == Success(a)
  {
  }

  /** Subtraction reads only the right operand's balance, never its owner. */
  lemma SubIgnoresOwner(a: Account, b: Account, o: string)
    ensures Sub(a, Acc(b)) == Sub(a, Num(b.balance)) == Sub(a, Acc(Account(o, b.balance)))
  {
  }

  /** Adding an account of the same owner is adding its balance, and commutes. */
  lemma AddSameOwner(a: Account, b: Account)
    requires a.owner == b.owner
    ensures Add(a, Acc(b)) == Add(a, Num(b.balance))
    ensures Add(a, Acc(b)) == Add(b, Acc(a))
  {
  }

  /** For a fixed left account, the joint label names the right owner unambiguously. */
  lemma JointLabelDeterminesPartner(a: Account, b: Account, c: Account)
    requires Add(a, Acc(b)) == Add(a, Acc(c))
    requires a.owner != b.owner
    ensures b.owner == c.owner
  {
  }
}
