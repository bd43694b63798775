/** `__getitem__` and `__iter__`: the account seen as the two-element sequence (owner, balance). */
module Access {
  import opened Wrappers
  import opened BankAccount
  import opened Equality

  const BadKey: string := "Key must be 'owner', 'balance', 0, or 1"

  /**
   Python's `key in (name, index)`: the key equals the text `name` or the
   number `index`. An account key never equals a text, and `index == key`
   falls back to the account's own `__eq__`, which compares its balance.
   */
  predicate KeyIs(key: Operand, name: string, index: real)
  {
    match key
    case Str(s) => s == name
    case Num(n) => n == index
    case Acc(b) => Eq(b, Str(name)) || Eq(b, Num(index))
    case _ => false
  }

  /** `a[key]`: "owner" or 0 give the owner, "balance" or 1 the balance, any other key raises a KeyError. */
  function GetItem(a: Account, key: Operand): (r: PyResult<Field>)
    ensures key == Str("owner") || key == Num(0.0) ==> r == Success(Text(a.owner))
    ensures key == Str("balance") || key == Num(1.0) ==> r == Success(Number(a.balance))
    ensures key.Str? && key.text != "owner" && key.text != "balance" ==> r == Failure(KeyError(BadKey))
    ensures key.Num? && key.number != 0.0 && key.number != 1.0 ==> r == Failure(KeyError(BadKey))
    ensures key.Pair? || key.Other? ==> r == Failure(KeyError(BadKey))
    ensures key.Acc? ==> (r.Success? <==> key.account.balance == 0.0 || key.account.balance == 1.0)
    ensures key.Acc? && key.account.balance == 0.0 ==> r == Success(Text(a.owner))
    ensures key.Acc? && key.account.balance == 1.0 ==> r == Success(Number(a.balance))
    ensures r.Success? ==> r.value == Text(a.owner) || r.value == Number(a.balance)
  {
    if KeyIs(key, "owner", 0.0) then Success(Text(a.owner))
    else if KeyIs(key, "balance", 1.0) then Success(Number(a.balance))
    else Failure(KeyError(BadKey))
  }

  /** `iter(a)`: the owner, then the balance, i.e. the fields in the order of their indices. */
  function Iter(a: Account): (r: seq<Field>)
    ensures |r| == 2
    ensures forall i :: 0 <= i < |r| ==> GetItem(a, Num(i as real)) == Success(r[i])
  {
    [Text(a.owner), Number(a.balance)]
  }

  /** The name keys and the index keys read the same field. */
  lemma NameAndIndexAgree(a: Account)
    ensures GetItem(a, Str("owner")) == GetItem(a, Num(0.0)) == Success(Text(a.owner))
    ensures GetItem(a, Str("balance")) == GetItem(a, Num(1.0)) == Success(Number(a.balance))
  {
  }

  /** Exactly four keys are accepted among texts and numbers. */
  lemma AcceptedKeys(a: Account, key: Operand)
    requires key.Str? || key.Num?
    ensures GetItem(a, key).Success? <==> key in {Str("owner"), Str("balance"), Num(0.0), Num(1.0)}
  {
  }

  /** The iteration determines the account, and matching it is equality with the pair it spells. */
  lemma IterDeterminesAccount(a: Account, b: Account, o: string, x: real)
    ensures Iter(a) == Iter(b) ==> a == b
    ensures Iter(a) == [Text(o), Number(x)] <==> Eq(a, Pair(o, x))
  {
  }
}
