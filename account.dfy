/**
 * The account factory `createAccount` of closures.js: a private `balance`
 * that only `deposit` and `withdraw` change and `getBalance` reports.
 * Amounts are whole currency units.
 */
module Accounts {

  /** `withdraw` goes through exactly when the amount is positive and covered. */
  predicate WithdrawAllowed(balance: int, amount: int)
  {
    0 < amount <= balance
  }

  /** The balance after `deposit(amount)`. */
  function AfterDeposit(balance: int, amount: int): (r: int)
    ensures r >= balance
    ensures r == balance <==> amount <= 0
    ensures balance >= 0 ==> r >= 0
  {
    if amount > 0 then balance + amount else balance
  }

  /** The balance after `withdraw(amount)`. */
  function AfterWithdraw(balance: int, amount: int): (r: int)
    ensures r <= balance
    ensures r < balance <==> WithdrawAllowed(balance, amount)
    ensures balance >= 0 ==> r >= 0
  {
    if WithdrawAllowed(balance, amount) then balance - amount else balance
  }

  /** The state created by one call of `createAccount(initialBalance)`. */
  class Account {
    var balance: int

    constructor (initialBalance: int)
      ensures balance == initialBalance
    {
      balance := initialBalance;
    }

    /**
     * `deposit(amount)`: adds a positive amount, silently ignores any other;
     * `deposited` tells whether it announced a deposit.
     */
    method Deposit(amount: int) returns (deposited: bool)
      modifies this
      ensures deposited <==> amount > 0
      ensures balance == AfterDeposit(old(balance), amount)
      ensures amount > 0 ==> balance == old(balance) + amount
      ensures amount <= 0 ==> balance == old(balance)
    {
      if amount > 0 {
        balance := balance + amount;
        deposited := true;
      } else {
        deposited := false;
      }
    }

    /**
     * `withdraw(amount)`: `ok` tells whether it went through; a refusal does
     * not say whether the amount was invalid or the funds insufficient.
     */
    method Withdraw(amount: int) returns (ok: bool)
      modifies this
      ensures ok <==> WithdrawAllowed(old(balance), amount)
      ensures balance == AfterWithdraw(old(balance), amount)
      ensures ok ==> balance == old(balance) - amount
      ensures !ok ==> balance == old(balance)
    {
      if WithdrawAllowed(balance, amount) {
        balance := balance - amount;
        ok := true;
      } else {
        ok := false;
      }
    }

    /** `getBalance()`: the balance it reports; it changes nothing. */
    function GetBalance(): (b: int)
      reads this
      ensures b == balance
    {
      balance
    }
  }

  /** One call a client makes on the account: `deposit` or `withdraw`. */
  datatype Transaction = Credit(amount: int) | Debit(amount: int)

  function Apply(balance: int, t: Transaction): (r: int)
    ensures balance >= 0 ==> r >= 0
  {
    match t
    case Credit(a) => AfterDeposit(balance, a)
    case Debit(a) => AfterWithdraw(balance, a)
  }

  /** The balance after the calls `ts`, in order, starting from `balance`. */
  function Run(balance: int, ts: seq<Transaction>): (r: int)
    ensures balance >= 0 ==> r >= 0
    decreases |ts|
  {
    if ts == [] then balance else Apply(Run(balance, ts[..|ts| - 1]), ts[|ts| - 1])
  }

  /** The sum of the positive deposits in `ts`: all that can ever be added. */
  function Credited(ts: seq<Transaction>): nat
    decreases |ts|
  {
    if ts == [] then 0
    else
      var last := ts[|ts| - 1];
      Credited(ts[..|ts| - 1]) + (if last.Credit? && last.amount > 0 then last.amount else 0)
  }

  /** The sum of the positive withdrawal requests in `ts`: all that can ever be taken. */
  function Debited(ts: seq<Transaction>): nat
    decreases |ts|
  {
    if ts == [] then 0
    else
      var last := ts[|ts| - 1];
      Debited(ts[..|ts| - 1]) + (if last.Debit? && last.amount > 0 then last.amount else 0)
  }

  /**
   * Whatever the calls, the balance stays between the starting balance minus
   * every positive withdrawal request and the starting balance plus every
   * positive deposit.
   */
  lemma {:induction false} RunWithinBounds(balance: int, ts: seq<Transaction>)
    ensures balance - Debited(ts) <= Run(balance, ts) <= balance + Credited(ts)
    decreases |ts|
  {
    if ts != [] {
      RunWithinBounds(balance, ts[..|ts| - 1]);
    }
  }

  /** A run with no positive deposit never ends above where it started. */
  lemma {:induction false} WithdrawalsOnlyNeverGrow(balance: int, ts: seq<Transaction>)
    requires forall i :: 0 <= i < |ts| ==> ts[i].Debit? || ts[i].amount <= 0
    ensures Run(balance, ts) <= balance
    decreases |ts|
  {
    if ts != [] {
      WithdrawalsOnlyNeverGrow(balance, ts[..|ts| - 1]);
    }
  }

  /** On a non-negative balance, withdrawing what was just deposited restores it. */
  lemma WithdrawUndoesDeposit(balance: int, amount: int)
    requires balance >= 0 && amount > 0
    ensures WithdrawAllowed(AfterDeposit(balance, amount), amount)
    ensures AfterWithdraw(AfterDeposit(balance, amount), amount) == balance
  {
  }

  /**
   * A client of `createAccount(initialBalance)` making the calls `ts`;
   * `observed[i]` is what `getBalance()` reports after the (i+1)-th call.
   * Every observed balance is the reference `Run`, and none is negative when
   * the account was opened with a non-negative balance.
   */
  method Session(initialBalance: int, ts: seq<Transaction>) returns (observed: seq<int>)
    ensures |observed| == |ts|
    ensures forall i :: 0 <= i < |ts| ==> observed[i] == Run(initialBalance, ts[..i + 1])
    ensures initialBalance >= 0 ==> forall i :: 0 <= i < |ts| ==> observed[i] >= 0
  {
    var account := new Account(initialBalance);
    observed := [];
    while |observed| < |ts|
      invariant |observed| <= |ts|
      invariant account.balance == Run(initialBalance, ts[..|observed|])
      invariant forall i :: 0 <= i < |observed| ==> observed[i] == Run(initialBalance, ts[..i + 1])
    {
      var i := |observed|;
      assert ts[..i + 1][..i] == ts[..i];
      match ts[i] {
        case Credit(a) =>
          var _ := account.Deposit(a);
        case Debit(a) =>
          var _ := account.Withdraw(a);
      }
      observed := observed + [account.GetBalance()];
    }
  }

  /**
   * The trace `createAccount(1000)`, `deposit(500)`, `getBalance()`,
   * `withdraw(200)`, `getBalance()`.
   */
  method CreateAccountTrace() returns (afterDeposit: int, withdrew: bool, afterWithdraw: int)
    ensures afterDeposit == 1500
    ensures withdrew
    ensures afterWithdraw == 1300
  {
    var myAccount := new Account(1000);
    var _ := myAccount.Deposit(500);
    afterDeposit := myAccount.GetBalance();
    withdrew := myAccount.Withdraw(200);
    afterWithdraw := myAccount.GetBalance();
  }
}
