/**
 One BankAccount object over time: the calls that change it in place,
 applied in order. A withdrawal that raises is caught by the caller and
 leaves the object as it was.
 */
module Lifecycle {
  import opened BankAccount

  /** A call that mutates the object: `deposit`, `withdraw`, the `balance` setter, `freeze`. */
  datatype Call =
    | DepositCall(amount: real)
    | WithdrawCall(amount: real)
    | SetBalanceCall(value: real)
    | FreezeCall

  /** The object after one call; only `freeze` touches the owner. */
  function Apply(a: Account, c: Call): (r: Account)
    ensures c.FreezeCall? ==> r == Account(FrozenOwner, 0.0)
    ensures a.owner != FrozenOwner ==> (r.owner == FrozenOwner <==> c.FreezeCall?)
    ensures !c.FreezeCall? ==> r.owner == a.owner
    ensures c.DepositCall? ==> r.balance == a.balance + c.amount
    ensures c.WithdrawCall? && c.amount <= a.balance ==> r.balance == a.balance - c.amount
    ensures c.SetBalanceCall? ==> r.balance == c.value
    ensures c.WithdrawCall? && c.amount > a.balance ==> r == a
  {
    match c
    case DepositCall(x) => Deposit(a, x)
    case WithdrawCall(x) =>
      var w := Withdraw(a, x);
      if w.Success? then w.value else a
    case SetBalanceCall(v) => a.(balance := v)
    case FreezeCall => Freeze(a)
  }

  /** The object after a sequence of calls. */
  function Run(a: Account, calls: seq<Call>): (r: Account)
    ensures r.owner == a.owner || r.owner == FrozenOwner
    decreases |calls|
  {
    if calls == [] then a else Run(Apply(a, calls[0]), calls[1..])
  }

  /** Running two sequences one after the other is running their concatenation. */
  lemma {:induction false} RunAppend(a: Account, s: seq<Call>, t: seq<Call>)
    ensures Run(a, s + t) == Run(Run(a, s), t)
    decreases |s|
  {
    if s == [] {
      assert s + t == t;
    } else {
      assert (s + t)[0] == s[0];
      assert (s + t)[1..] == s[1..] + t;
      RunAppend(Apply(a, s[0]), s[1..], t);
    }
  }

  /** Freezing is one-way: no sequence of calls gives a frozen object another owner. */
  lemma FrozenStaysFrozen(a: Account, calls: seq<Call>)
    requires a.owner == FrozenOwner
    ensures Run(a, calls).owner == FrozenOwner
  {
  }

  /** The owner changes exactly through a `freeze` call: one in the sequence leaves the object frozen, none keeps its owner. */
  lemma {:induction false} OwnerChangesOnlyByFreeze(a: Account, calls: seq<Call>)
    ensures FreezeCall in calls ==> Run(a, calls).owner == FrozenOwner
    ensures FreezeCall !in calls ==> Run(a, calls).owner == a.owner
    decreases |calls|
  {
    if calls != [] {
      var next := Apply(a, calls[0]);
      assert calls == [calls[0]] + calls[1..];
      if calls[0] == FreezeCall {
        FrozenStaysFrozen(next, calls[1..]);
      } else {
        OwnerChangesOnlyByFreeze(next, calls[1..]);
      }
    }
  }

  /** A final `freeze` erases the whole history. */
  lemma FreezeForgetsHistory(a: Account, calls: seq<Call>)
    ensures Run(a, calls + [FreezeCall]) == Account(FrozenOwner, 0.0)
  {
    RunAppend(a, calls, [FreezeCall]);
  }

  /** A call that cannot push a balance below zero: a non-negative deposit or assignment, any withdrawal, a freeze. */
  predicate KeepsNonNegative(c: Call)
  {
    match c
    case DepositCall(x) => x >= 0.0
    case SetBalanceCall(v) => v >= 0.0
    case _ => true
  }

  /**
   The only guard the class has is the one in `withdraw`; it suffices to keep
   a balance non-negative, whatever the sign of the amounts withdrawn, as long
   as nothing deposits or assigns a negative amount.
   */
  lemma {:induction false} NonNegativeBalanceKept(a: Account, calls: seq<Call>)
    requires a.balance >= 0.0
    requires forall i :: 0 <= i < |calls| ==> KeepsNonNegative(calls[i])
    ensures Run(a, calls).balance >= 0.0
    decreases |calls|
  {
    if calls != [] {
      assert KeepsNonNegative(calls[0]);
      var rest := calls[1..];
      assert forall i :: 0 <= i < |rest| ==> KeepsNonNegative(rest[i]) by {
        forall i | 0 <= i < |rest|
          ensures KeepsNonNegative(rest[i])
        {
          assert rest[i] == calls[i + 1];
        }
      }
      NonNegativeBalanceKept(Apply(a, calls[0]), rest);
    }
  }

  /** A negative deposit is the one call that overdraws an account without any check. */
  lemma NegativeDepositOverdraws(a: Account, x: real)
    requires x < -a.balance
    ensures Run(a, [DepositCall(x)]).balance < 0.0
  {
  }
}
