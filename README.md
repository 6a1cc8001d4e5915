# Closures: counters, a guarded account and a car record

A Dafny model of `JS/Closures/closures.js`, a set of closure examples. Each
factory function there (`Outer`, `counter2`, `Car`, `createAccount`) creates
private state captured by the closures it returns. Here each factory call is
a `new` object of a class, the captured variables are its fields, and the
returned closures are its methods and functions:

- `counters.dfy` (module `Counters`): `Outer`/`Inner` and `counter2`. The
  count starts at 0 and each call adds one. Two counters are separate objects
  and share nothing.
- `account.dfy` (module `Accounts`): `createAccount` with `deposit`,
  `withdraw` and `getBalance`. The guards are modelled exactly. The pure
  functions `AfterDeposit`, `AfterWithdraw` and `Run` are a reference model of
  the balance over any sequence of calls (`Transaction`). `Session` shows
  that the account object follows that reference model, call after call.
- `car.dfy` (module `Cars`): `Car` with its four constant fields and the two
  views `carModel` and `carDetails`.

Console output is not modelled as output. What a closure writes to the
console becomes its return value: the count `Inner` shows, whether `deposit` or `withdraw`
went through, the balance `getBalance` reports, the pair of fields a car view
shows.

## Model

| member | source | states |
|---|---|---|
| `Counters.Outer.constructor` | JS/Closures/closures.js:5-6 | a fresh `Outer()` counter starts at 0 |
| `Counters.Outer.Inner` | JS/Closures/closures.js:7-10 | each call raises `count` by exactly one and shows the new count |
| `Counters.Counter2.constructor` | JS/Closures/closures.js:19-20 | a fresh `counter2()` counter starts at 0 |
| `Counters.Counter2.Call` | JS/Closures/closures.js:21-24 | each call raises `num` by exactly one and returns the new value |
| `Counters.CallMany` | JS/Closures/closures.js:21-24 | k calls on a counter return its old value plus 1, 2, ..., k in order, and leave it k higher |
| `Counters.InnerMany` | JS/Closures/closures.js:7-10 | k calls of `Inner` show the old count plus 1, 2, ..., k in order, and leave it k higher |
| `Counters.FreshCounterCalls` | JS/Closures/closures.js:26-28 | on a fresh `counter2()` closure the k-th call returns k |
| `Counters.FreshOuterCalls` | JS/Closures/closures.js:14-17 | on a fresh `Outer()` counter the k-th call of `Inner` shows k |
| `Counters.TwoCounters` | JS/Closures/closures.js:26-30 | after n calls of `c1`, a new `c2` returns 1 on its first call and `c1` goes on with n + 1: the two share no state |
| `Accounts.AfterDeposit` | JS/Closures/closures.js:84-89 | a deposit never lowers the balance, changes it exactly when the amount is positive, and keeps a non-negative balance non-negative |
| `Accounts.AfterWithdraw` | JS/Closures/closures.js:91-98 | a withdrawal never raises the balance, lowers it exactly when `0 < amount <= balance`, and keeps a non-negative balance non-negative |
| `Accounts.Account.constructor` | JS/Closures/closures.js:81-82 | the balance starts at `initialBalance`, unchecked |
| `Accounts.Account.Deposit` | JS/Closures/closures.js:84-89 | a positive amount is added and the deposit is announced; any other amount leaves the balance unchanged and nothing is announced |
| `Accounts.Account.Withdraw` | JS/Closures/closures.js:91-98 | succeeds exactly when `0 < amount <= balance` and then subtracts the amount; otherwise reports failure, the same for both causes, and leaves the balance unchanged |
| `Accounts.Account.GetBalance` | JS/Closures/closures.js:100-102 | reports the current balance; it only reads |
| `Accounts.Apply` | JS/Closures/closures.js:84-98 | any single deposit or withdrawal keeps a non-negative balance non-negative |
| `Accounts.Run` | JS/Closures/closures.js:82-98 | after any sequence of deposits and withdrawals a non-negative starting balance is still non-negative |
| `Accounts.RunWithinBounds` | JS/Closures/closures.js:84-98 | after any sequence of calls the balance lies between the start minus every positive withdrawal request and the start plus every positive deposit |
| `Accounts.WithdrawalsOnlyNeverGrow` | JS/Closures/closures.js:84-98 | a sequence with no positive deposit never ends above its starting balance |
| `Accounts.WithdrawUndoesDeposit` | JS/Closures/closures.js:84-98 | on a non-negative balance, withdrawing a positive amount just deposited is allowed and restores the balance |
| `Accounts.Session` | JS/Closures/closures.js:81-105 | an account object driven by any sequence of calls reports, after each call, the balance of the reference model, and never a negative one when opened with a non-negative balance |
| `Accounts.CreateAccountTrace` | JS/Closures/closures.js:108-112 | `createAccount(1000)`, `deposit(500)` reports 1500, then `withdraw(200)` succeeds and reports 1300 |
| `Cars.Car.constructor` | JS/Closures/closures.js:57-61 | the four fields hold "Model 1", "Toyota", "Black" and "24/2025" |
| `Cars.Car.CarModel` | JS/Closures/closures.js:63-66 | shows the model and the manufacture date, nothing else |
| `Cars.Car.CarDetails` | JS/Closures/closures.js:68-71 | shows the name and the colour, nothing else |
| `Cars.ViewsPartitionFields` | JS/Closures/closures.js:57-73 | the two views together show each of the four fields exactly once |
| `Cars.CarInstanceTrace` | JS/Closures/closures.js:76-78 | `carModel()` shows ("Model 1", "24/2025") and `carDetails()` shows ("Toyota", "Black") |

## Left out

- Console output (`console.log` at lines 9, 64-65, 69-70, 87, 94, 96, 101, 114): it is I/O. Each closure's observable result is a return value instead: the count `Inner` shows, whether `deposit` and `withdraw` announced success, the balance `getBalance` reports, the fields a car view shows.
- JavaScript `number` semantics: amounts and counts are unbounded integers (`int`). Floating-point rounding and precision limits are not modelled, so no counter overflow either.
- Privacy of the captured variables (line 114, `myAccount.balance` is `undefined`): Dafny hides members only through export sets, which this project does not use. The model keeps to the rule by never writing a field from outside its class, and the classes offer no setter.
- Validation of `initialBalance`: the source does none, so the constructor accepts any integer and non-negativity is stated as preservation from a non-negative start.
- The commented-out `var`/`const` scoping demo (lines 32-44) and `makeFunc` (lines 46-55): dead code about scoping, with no behaviour to model.
- `Transaction`, `Run` and `Session` are a reference model of a client making calls; the source's own client is the fixed trace at lines 108-112, modelled by `CreateAccountTrace`.
