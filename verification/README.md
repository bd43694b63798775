# BankAccount in Dafny

A model of the `BankAccount` class of `bankaccount.py`. An account is a value
object with an owner and a balance. The class gives it:

- mutators: `deposit`, `withdraw` (guarded by the balance), the `balance`
  setter, and `freeze`, which resets the account to a fixed frozen state;
- queries: `is_rich` and the static `highest_balance`;
- polymorphic operators: `==`/`!=` against an account, a number or an
  `(owner, balance)` pair; `+` returning either a new account or a
  `"Joint: …"` text; `-`, which ignores owners; and `>`, `>=`, `<`, `<=`,
  which compare balances and are defined between accounts only;
- a two-field view: `a[key]` and `iter(a)`.

The Python object is mutated in place. Here an account is the immutable
datatype `Account(owner, balance)`, and each mutator is a pure function from
the account before the call to the account after it. Exceptions become the
`Failure` side of `Result`, carrying `ValueError`, `TypeError` or `KeyError`
with the messages the class raises. The right-hand operand of an operator,
and the key of `a[key]`, are one tagged union, `Operand`:

- `Acc`: an account;
- `Num`: an int, float or bool;
- `Str`: a text;
- `Pair`: a two-element tuple of a text and a number;
- `Other`: anything else.

Modules, one per concern of the class:

- `Wrappers` (wrappers.dfy): `Result`.
- `BankAccount` (bank_account.dfy): the datatypes, constants, mutators,
  `is_rich` and `highest_balance`.
- `Equality` (equality.dfy): `__eq__` and `__ne__`.
- `Access` (access.dfy): `__getitem__` and `__iter__`.
- `Arithmetic` (arithmetic.dfy): `__add__` and `__sub__`.
- `Ordering` (ordering.dfy): the four comparisons.
- `Lifecycle` (lifecycle.dfy): one object driven through a sequence of
  mutating calls. A withdrawal that raises is caught and leaves the object
  unchanged.

Notes on the behaviour the model keeps:

- Errors are Python's exception classes with the class's messages:
  `ValueError("Insufficient funds")`, `TypeError("Unsupported type for …")`
  and `KeyError`.
- `a[key]` tests `key in ('owner', 0)` with Python's `==`. So the float keys
  `0.0`/`1.0` and the bools `False`/`True` are accepted as well. An account
  used as a key is accepted when its balance is 0 or 1: `0 == key` falls back
  to the key's own `__eq__`, which compares its balance with the number. An
  account of balance 0 selects the owner, one of balance 1 the balance.
  `Access.GetItem` states this.
- Depositing `x` and then withdrawing `x` is granted exactly when the balance
  was non-negative. On an overdrawn account the withdrawal of `x` exceeds the
  new balance `balance + x`, so it is refused.
  `BankAccount.DepositThenWithdraw` states both directions.

## Model

| member | source | states |
|---|---|---|
| BankAccount.Deposit | bankaccount.py:33-34 | any amount, negative included, is added to the balance; the owner is kept |
| BankAccount.Withdraw | bankaccount.py:36-39 | raises ValueError("Insufficient funds") exactly when amount > balance; otherwise keeps the owner and subtracts the amount; a granted withdrawal never leaves a negative balance, whatever the amount's sign |
| BankAccount.IsRich | bankaccount.py:41-42 | true exactly when the balance exceeds 1,000,000; a rich account has a positive balance |
| BankAccount.Freeze | bankaccount.py:113-115 | the result has owner "FROZEN" and balance 0 whatever the account was, and is not rich |
| BankAccount.MaxFrom | bankaccount.py:19 | Python's left-to-right `max`: the result is at least every element and is one of them |
| BankAccount.HighestBalance | bankaccount.py:17-19 | the result is at least each of the three balances and equals one of them |
| BankAccount.DepositThenWithdraw | bankaccount.py:33-39 | withdrawing what was just deposited is granted iff the balance was non-negative, and then gives back the original account |
| BankAccount.WithdrawThenDeposit | bankaccount.py:33-39 | depositing what a granted withdrawal took restores the account |
| BankAccount.FreezeIdempotent | bankaccount.py:113-115 | freezing twice equals freezing once; any two accounts freeze to the same state |
| BankAccount.IsRichMonotone | bankaccount.py:33-42 | a non-negative deposit keeps a rich account rich |
| BankAccount.HighestBalanceSymmetric | bankaccount.py:17-19 | highest_balance does not depend on argument order |
| Equality.Eq | bankaccount.py:60-67 | against an account: equal iff the accounts are equal in both fields; against a number: iff the balance equals it; against a pair: iff it is (owner, balance); texts and other objects: unequal, never an error |
| Equality.Ne | bankaccount.py:69-70 | `!=` is the negation of `==` for every operand |
| Equality.EqIsEquivalence | bankaccount.py:60-62 | between accounts `==` is reflexive, symmetric and transitive |
| Equality.EqPairIsEqAccount | bankaccount.py:60-66 | comparing with (o, x) gives the same answer as comparing with the account of owner o and balance x |
| Equality.EqNumIgnoresOwner | bankaccount.py:60-64 | equal accounts equal each other's balance; equality with a number does not depend on the owner |
| Equality.NumberEqualityNotTransitive | bankaccount.py:60-70 | two accounts of different owners can both equal the same number and still be unequal |
| Access.GetItem | bankaccount.py:101-107 | "owner"/0 give the owner, "balance"/1 the balance; every other text, number, pair or object raises KeyError; an account key (membership tested by the helper `KeyIs`, Python's `key in (name, index)` with the reflected `__eq__`) is accepted iff its balance is 0 or 1, balance 0 selecting the owner and 1 the balance; a result is always one of the two fields |
| Access.Iter | bankaccount.py:109-111 | iteration yields exactly two values, and the i-th is what `a[i]` returns |
| Access.NameAndIndexAgree | bankaccount.py:101-105 | `a["owner"] == a[0] == owner` and `a["balance"] == a[1] == balance` |
| Access.AcceptedKeys | bankaccount.py:101-107 | among texts and numbers, exactly the four keys "owner", "balance", 0, 1 are accepted |
| Access.IterDeterminesAccount | bankaccount.py:109-111 | two accounts with the same iteration are equal; the iteration is [o, x] iff the account == (o, x) |
| Arithmetic.JointName | bankaccount.py:48 | the label is "Joint: ", then the left owner, then " & ", ending with the right owner; it is 10 characters longer than both names |
| Arithmetic.Add | bankaccount.py:44-51 | an account or a number is accepted, anything else raises TypeError; the result is a joint label iff the owners differ; otherwise a new account of the left owner whose balance is the sum |
| Arithmetic.Sub | bankaccount.py:53-58 | an account or a number is accepted, anything else raises TypeError; the result has the left owner and the difference of balances |
| Arithmetic.AddThenSubNumber | bankaccount.py:49-57 | `(a + n) - n == a` |
| Arithmetic.AddThenSubAccount | bankaccount.py:44-55 | for the same owner, `(a + b) - b == a` |
| Arithmetic.SubIgnoresOwner | bankaccount.py:53-57 | `a - b` equals `a - b.balance`, whoever owns b |
| Arithmetic.AddSameOwner | bankaccount.py:44-50 | for the same owner, `a + b` equals `a + b.balance` and `b + a` |
| Arithmetic.JointLabelDeterminesPartner | bankaccount.py:44-48 | for a fixed left account, equal joint labels name the same right owner |
| Ordering.Gt | bankaccount.py:72-75 | defined only against an account (TypeError otherwise); compares balances |
| Ordering.Ge | bankaccount.py:77-80 | defined only against an account (TypeError otherwise); compares balances |
| Ordering.Lt | bankaccount.py:82-85 | defined only against an account (TypeError otherwise); compares balances |
| Ordering.Le | bankaccount.py:87-90 | defined only against an account (TypeError otherwise); compares balances |
| Ordering.GreaterIsConverse | bankaccount.py:72-90 | `a > b` iff `b < a`; `a >= b` iff `b <= a` |
| Ordering.NonStrictIsNegatedStrict | bankaccount.py:72-90 | `a >= b` iff not `a < b`; `a <= b` iff not `a > b` |
| Ordering.EqualBalancesTie | bankaccount.py:72-90 | equal balances are neither `>` nor `<` and both `>=` and `<=`, whatever the owners |
| Ordering.MutualLeIsBalanceEquality | bankaccount.py:60-90 | `a <= b` and `b <= a` iff `a == b.balance`; equal accounts are mutually `<=` |
| Ordering.NonAccountsRejected | bankaccount.py:72-90 | each comparison with a non-account raises the TypeError naming its operator |
| Ordering.OrderLaws | bankaccount.py:72-90 | `<` is irreflexive and transitive; `<=` is total and transitive |
| Lifecycle.Apply | bankaccount.py:29-39 | a deposit adds its amount to the balance, a granted withdrawal subtracts it, the setter replaces the balance; only freeze changes the owner, and it leads to the frozen state; a refused withdrawal leaves the object unchanged |
| Lifecycle.Run | bankaccount.py:9-115 | after any sequence of calls the owner is the original one or "FROZEN" |
| Lifecycle.RunAppend | bankaccount.py:9-115 | running s then t is running s + t |
| Lifecycle.FrozenStaysFrozen | bankaccount.py:113-115 | no sequence of calls gives a frozen object another owner |
| Lifecycle.OwnerChangesOnlyByFreeze | bankaccount.py:9-115 | with a freeze call in the sequence the object ends frozen; without one it keeps its owner |
| Lifecycle.FreezeForgetsHistory | bankaccount.py:113-115 | any history followed by freeze ends in ("FROZEN", 0) |
| Lifecycle.NonNegativeBalanceKept | bankaccount.py:29-39 | with no negative deposit or assignment, a non-negative balance stays non-negative, whatever is withdrawn |
| Lifecycle.NegativeDepositOverdraws | bankaccount.py:33-34 | a large enough negative deposit overdraws the account unchecked |

## Left out

- `__repr__` and `__str__` (bankaccount.py:92-96): they only format text, using Python's `:.2f` float formatting.
- `__len__` (bankaccount.py:98-99): it depends on Python's `round` of a binary float, and on `len` rejecting negative results.
- IEEE-754 floats: balances are exact reals. NaN, infinities and rounding of sums are not modelled.
- The `balance` setter (bankaccount.py:29-31) is only the `SetBalanceCall` case of `Lifecycle.Apply`.
- `get_bank_address` (bankaccount.py:13-15) is only the constant `BankAccount.BankAddress`.
- The module-level demo script (bankaccount.py:118-192): it only prints to the console.
- The unused imports (bankaccount.py:1-4).
- Reflected operators, that is, an account on the right of a number, have no members of their own. They reduce to the members above. In `800 == a` and `800 != a`, `int.__eq__` returns NotImplemented, so Python calls the class's `__eq__`/`__ne__` with the operands swapped: `Equality.Eq(a, Num(800.0))`. In `800 < a`, Python calls `a.__gt__(800)`, which raises `TypeError("Unsupported type for >")` (`Ordering.Gt` with a `Num` operand); the other comparisons behave alike. `200 + a` and `200 - a` raise Python's own TypeError, because the class defines no `__radd__` or `__rsub__`.
- Access.Iter: `__iter__` is a generator that reads `self.balance` only when it is resumed for the second value. A mutation between the two reads, as in `for v in a: a.freeze()`, yields the old owner followed by 0.0. `Iter` is a snapshot of one state and does not model this lazy read.
- Tuples whose elements are not a text and a number are treated as `Other`. The elements of such a tuple are not compared with the account's fields through their own `__eq__`.
- Objects of other classes with their own `__eq__` are treated as `Other`, which equals nothing.
- Hashing: defining `__eq__` makes instances unhashable in Python. This is not modelled.
