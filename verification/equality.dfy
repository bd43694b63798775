/** `__eq__` and `__ne__`: equality against an account, a number or an (owner, balance) pair. */
module Equality {
  import opened BankAccount

  /**
   `a == other`. Accounts compare on both fields, numbers on the balance only,
   pairs as the tuple `(owner, balance)`; anything else is unequal, and no
   operand raises.
   */
  function Eq(a: Account, other: Operand): (r: bool)
    ensures other.Acc? ==> (r <==> a == other.account)
    ensures other.Num? ==> (r <==> a.balance == other.number)
    ensures other.Pair? ==> (r <==> a == Account(other.first, other.second))
    ensures other.Str? || other.Other? ==> !r
  {
    match other
    case Acc(b) => a.owner == b.owner && a.balance == b.balance
    case Num(n) => a.balance == n
    case Pair(o, x) => (a.owner, a.balance) == (o, x)
    case _ => false
  }

  /** `a != other`: the negation of `==` for every operand. */
  function Ne(a: Account, other: Operand): (r: bool)
    ensures r <==> !Eq(a, other)
  {
    !Eq(a, other)
  }

  /** Between accounts, `==` is an equivalence relation. */
  lemma EqIsEquivalence(a: Account, b: Account, c: Account)
    ensures Eq(a, Acc(a))
    ensures Eq(a, Acc(b)) ==> Eq(b, Acc(a))
    ensures Eq(a, Acc(b)) && Eq(b, Acc(c)) ==> Eq(a, Acc(c))
  {
  }

  /** Comparing with the pair `(o, x)` is comparing with the account of owner `o` and balance `x`. */
  lemma EqPairIsEqAccount(a: Account, o: string, x: real)
    ensures Eq(a, Pair(o, x)) == Eq(a, Acc(Account(o, x)))
  {
  }

  /**
   Equal accounts are equal to each other's balance, but comparing with a
   number ignores the owner: two accounts equal to the same number need not
   be equal to each other.
   */
  lemma EqNumIgnoresOwner(a: Account, b: Account, o: string)
    ensures Eq(a, Acc(b)) ==> Eq(a, Num(b.balance))
    ensures Eq(a, Num(b.balance)) == Eq(Account(o, a.balance), Num(b.balance))
  {
  }

  /** "Alice" and "Bob" with 800 each both equal 800, yet differ from each other. */
  lemma NumberEqualityNotTransitive()
    ensures var alice := Account("Alice", 800.0);
            var bob := Account("Bob", 800.0);
            Eq(alice, Num(800.0)) && Eq(bob, Num(800.0)) && Ne(alice, Acc(bob))
  {
  }
}
