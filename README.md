# Python feature demos: a verified model of the four stateful or checkable pieces

The repository is a collection of small Python demonstrations. This project
models the four of them whose behaviour can be stated and proved:

- **`BankAccount`** (`day-4/multithreading_example.py`): an account whose
  `balance` starts at 0. `deposit` adds to it, and `withdraw` subtracts only
  when the balance covers the amount. `account_transactions` runs five rounds
  of `deposit(100)` then `withdraw(50)`, and the script runs it from two
  threads. Module `MultithreadingExample` has a class `BankAccount` with a
  `balance` field. Each method holds the lock for its whole body, so each is
  modelled as one indivisible state transition. The two threads become two
  runs of `AccountTransactions`, one after the other. The pure functions
  `AfterDeposit`, `AfterWithdraw` and `Run` over a trace of `Op`s specify the
  methods, and the lemmas are stated about them.
- **`Meta.__new__`** (`day-3/metaclass_example.py`): a metaclass that copies
  the class namespace into a fresh dict. Names starting with `"__"` are kept
  as they are and every other name is upper-cased. Module `MetaclassExample`
  has `RenameAttributes`, the loop that builds the dict, proved equal to the
  specification function `Renamed`. Lemmas state how names change, that
  values are kept, that the last entry wins a collision, the size bound and
  idempotence. The class `Adding` is checked as a concrete instance.
- **`fibonacci_sequence`** (`day-1/generator_fibonacci_series.py`): an
  infinite generator over the pair `(a, b)`. Module `GeneratorFibonacci` has
  `Take(n)`, which takes the first `n` values. Its loop invariant ties
  `(a, b)` to the recursive `Fib`.
- **`authenticate` / `isAuthenticated`** (`day-1/decorator_password_matcher.py`):
  a credential check and a decorator whose wrapper picks a branch from it.
  Module `PasswordMatcher` models both as functions.

The account code does no validation of the amount: a non-positive deposit
or withdrawal is not rejected, and `withdraw` reports no success flag. The
model follows the code and adds no such checks. `DepositNonNegative` and
`NegativeDepositBreaksInvariant` show what this means for the invariant
`balance >= 0`.

## Model

| member | source | states |
|---|---|---|
| `MultithreadingExample.BankAccount.constructor` | day-4/multithreading_example.py:7-9 | A new account has balance 0. |
| `MultithreadingExample.BankAccount.Deposit` | day-4/multithreading_example.py:14-24 | The balance becomes old balance + amount, for an amount of any sign, and the account has no other state to change. |
| `MultithreadingExample.BankAccount.Withdraw` | day-4/multithreading_example.py:26-39 | If old balance >= amount, the balance drops by amount. Otherwise it is unchanged. |
| `MultithreadingExample.AccountTransactions` | day-4/multithreading_example.py:44-47 | Five rounds of deposit(100), withdraw(50) leave the balance the trace run of those ten operations would give. From any start balance >= -50 (so from every balance >= 0), that is start + 250. |
| `MultithreadingExample.TransactionsGain` | day-4/multithreading_example.py:44-47 | From a balance >= -50, every withdraw(50) of n rounds succeeds, because it follows a deposit(100). The end balance is start + 50·n. |
| `MultithreadingExample.WithdrawKeepsNonNegative` | day-4/multithreading_example.py:34-39 | A withdrawal of any amount, even a negative one, keeps a non-negative balance non-negative. |
| `MultithreadingExample.DepositNonNegative` | day-4/multithreading_example.py:14-24 | From balance >= 0, a deposit keeps the balance >= 0 exactly when amount >= -balance. So every non-negative deposit keeps it. |
| `MultithreadingExample.SafeRunKeepsNonNegative` | day-4/multithreading_example.py:14-39 | From a non-negative start, any sequence of withdrawals and non-negative deposits leaves balance >= 0 after every prefix of it, so in every state it passes through. |
| `MultithreadingExample.NegativeDepositBreaksInvariant` | day-4/multithreading_example.py:14-24 | Deposits are not validated, so deposit(-5) on a fresh account leaves balance -5. |
| `MultithreadingExample.WithdrawFromEmpty` | day-4/multithreading_example.py:34-39 | withdraw(50) on a fresh account is refused and the balance stays 0. |
| `MultithreadingExample.TwoWorkers` | day-4/multithreading_example.py:50-67 | A fresh account and the two transaction runs composed one after the other (one of the interleavings the lock permits) end at balance 500. |
| `MetaclassExample.RenameAttributes` | day-3/metaclass_example.py:17-26 | The loop builds exactly `Renamed(attrs)`: each entry is inserted in iteration order under its name if that starts with "__", otherwise under its upper-cased name. |
| `MetaclassExample.RenamedKeys` | day-3/metaclass_example.py:17-24 | Every entry's new name is a key of the result. Every key of the result is the new name of some entry, so no entry is invented. |
| `MetaclassExample.RenamedLastWins` | day-3/metaclass_example.py:22-24 | An entry that no later entry collides with appears under its new name with its own value. For a non-dunder key k, that name is `Upper(k)`. |
| `MetaclassExample.RenamedValue` | day-3/metaclass_example.py:17-24 | The value under each key of the result is that of the LAST entry renamed to that key. |
| `MetaclassExample.DunderKept` | day-3/metaclass_example.py:20-21 | Every key starting with "__" is in the result, unchanged, with its value (the input being a dict, its keys are distinct). |
| `MetaclassExample.RenameKeyKeepsKind` | day-3/metaclass_example.py:20-24 | A new name starts with "__" exactly when the original name did, so upper-cased names never collide with dunder names. |
| `MetaclassExample.RenamedSize` | day-3/metaclass_example.py:17-24 | The result has at most as many entries as the class body. |
| `MetaclassExample.RenameKeyIdempotent` | day-3/metaclass_example.py:20-24 | Renaming a renamed name gives it back unchanged. |
| `MetaclassExample.RenamedIdempotent` | day-3/metaclass_example.py:17-24 | Running the renaming over the result's own entries, in any order, gives the same dict back. |
| `MetaclassExample.CollisionLastWins` | day-3/metaclass_example.py:18-24 | `a` and `A` collide. Whichever is iterated last gives the value. |
| `MetaclassExample.AddingRenamed` | day-3/metaclass_example.py:30-44 | For `Adding`, `a`, `b`, `sum` become `A`, `B`, `SUM` and keep their values 5, 6 and the method. |
| `MetaclassExample.AddingDropsLowerCase` | day-3/metaclass_example.py:30-44 | The built `Adding` class has no `a`, `b` or `sum`, and keeps `__module__` with its value. |
| `MetaclassExample.NotRenamedTo` | day-3/metaclass_example.py:17-24 | A name that no entry is renamed to is not in the result. |
| `MetaclassExample.CallSum` | day-3/metaclass_example.py:37-44 | For a name of the class's own dict, the call succeeds only if that name holds `sum` and `A` and `B` exist. Then it gives `A + B` as Python computes it: the sum for two integers, the concatenation for two strings. |
| `MetaclassExample.Plus` | day-3/metaclass_example.py:44 | Python's `+` on two attribute values: integers add, strings concatenate, and any other pair is a TypeError. |
| `MetaclassExample.StringSumConcatenates` | day-3/metaclass_example.py:44 | With `A` = "x" and `B` = "y", `SUM()` returns "xy". |
| `MetaclassExample.RunAdding` | day-3/metaclass_example.py:37-51 | `Adding().SUM()` returns the integer 5 + 6 = 11. |
| `GeneratorFibonacci.Take` | day-1/generator_fibonacci_series.py:1-11 | The first n yielded values are Fib(0..n-1), for every n. They are non-negative, which already follows from `Fib` returning a natural number, and non-decreasing. Its loop invariant keeps (a, b) = (Fib(k), Fib(k+1)) just before the k-th yield. |
| `GeneratorFibonacci.FibNondecreasing` | day-1/generator_fibonacci_series.py:8-11 | Fib(i) <= Fib(j) whenever i <= j. |
| `GeneratorFibonacci.FirstTen` | day-1/generator_fibonacci_series.py:14-20 | The first ten values are 0, 1, 1, 2, 3, 5, 8, 13, 21, 34. |
| `PasswordMatcher.Authenticate` | day-1/decorator_password_matcher.py:1-12 | The check is true exactly for the credential pair ("admin", "secret"). |
| `PasswordMatcher.AuthenticateUser` | day-1/decorator_password_matcher.py:40-42 | The decorated function returns its keyword arguments unchanged: the same keys with the same values. |
| `PasswordMatcher.Wrapper` | day-1/decorator_password_matcher.py:22-36 | A missing `username` raises KeyError("username"). Otherwise a missing `password` raises KeyError("password"). Otherwise the wrapper takes the "Access Granted" branch exactly when the pair is ("admin", "secret") and "Access Denied" otherwise, returning None. |
| `PasswordMatcher.IsAuthenticated` | day-1/decorator_password_matcher.py:15-37 | The returned wrapper behaves as `Wrapper` on every argument, whatever function it decorates. |
| `PasswordMatcher.AuthenticateExactly` | day-1/decorator_password_matcher.py:1-12 | `authenticate` is true only for ("admin", "secret"), and is true for it. |
| `PasswordMatcher.WrongPasswordRejected` | day-1/decorator_password_matcher.py:12 | "admin" with any other password is refused. |
| `PasswordMatcher.OtherUserRejected` | day-1/decorator_password_matcher.py:12 | Any other user name is refused, whatever the password. |
| `PasswordMatcher.WrapperIgnoresFunc` | day-1/decorator_password_matcher.py:22-37 | Two decorated functions give the same outcome on the same arguments, so the decorated function is never called. |
| `PasswordMatcher.DecoratedCallGranted` | day-1/decorator_password_matcher.py:40-46 | `authenticate_user(username="admin", password="secret")` takes the "Access Granted" branch. |

## Left out

- `threading.Lock`, `threading.Thread`, `start` and `join` (day-4/multithreading_example.py:12, 55-64). Each locked method is one atomic step. The two threads are composed sequentially, so interleavings of the two runs at operation granularity are not modelled.
- Every `print` in the four files. The wrapper's two messages are modelled as the `Branch` it takes.
- `Meta.__new__`'s final `type(class_name, bases, upper)` call: the class is represented by its attribute map, and `class_name` and `bases` play no part.
- `str.upper` beyond ASCII: keys are upper-cased letter by letter over `a`–`z` only.
- Python's iteration over a live dict: the class namespace is an insertion-ordered sequence of distinct (name, value) entries. Because that sequence is a value, the input is trivially left unmodified, and the fresh dict is the method's result.
- `MetaclassExample.CallSum`: an AttributeError or a TypeError on `SUM()` is collapsed into `None`. Names are looked up in the class's own dict only: a name inherited from `object` (`__init__`, `__repr__`, …), which Python calls without error, also gives `None`. Attribute values are integers, strings, the docstring, the annotations and the `sum` method only; `+` on a pair Python could add through other types (lists, user-defined `__add__`) is not modelled.
- `MetaclassExample.Plus`: the docstring of `Adding` is kept only as a marker, without its text, so a sum involving it gives `None` where Python would concatenate. Its `__annotations__` is kept only as the annotated names.
- `PasswordMatcher.Wrapper`: keyword-argument values are strings only. Python accepts any value; `==` against a string is false for every built-in non-string value, but a user-defined class can make it true through its own `__eq__`.
- The laziness of the Fibonacci generator is not modelled. Taking n values is a loop that runs the generator's state update n times.
- The other demos of the repository (file and context-manager wrappers, reflection, dataclasses, the price decorator, the month generator, the threaded downloader) are I/O or introspection and are not part of this model.
