/** A bank account whose balance two worker threads update through a lock.
    Every locked method is one indivisible state transition; the two-thread
    driver is modelled as its two transaction runs executed one after the other. */
module MultithreadingExample {

  /** One locked operation on the account. */
  datatype Op = DepositOp(amount: int) | WithdrawOp(amount: int)

  /** The balance after a deposit: no validation, the amount is simply added. */
  function AfterDeposit(balance: int, amount: int): int
  {
    balance + amount
  }

  /** The balance after a withdrawal: subtracted only when the funds suffice,
      otherwise left as it was ("Insufficient funds"). */
  function AfterWithdraw(balance: int, amount: int): int
  {
    if balance >= amount then balance - amount else balance
  }

  function Apply(balance: int, op: Op): int
  {
    match op
    case DepositOp(amount) => AfterDeposit(balance, amount)
    case WithdrawOp(amount) => AfterWithdraw(balance, amount)
  }

  /** The balance after the operations of `ops`, applied in order. */
  function Run(balance: int, ops: seq<Op>): int
  {
    if ops == [] then balance else Apply(Run(balance, ops[..|ops| - 1]), ops[|ops| - 1])
  }

  /** The operations of `rounds` rounds of `account_transactions`:
      deposit(100) followed by withdraw(50), repeated. */
  function TransactionOps(rounds: nat): seq<Op>
  {
    if rounds == 0 then [] else TransactionOps(rounds - 1) + [DepositOp(100), WithdrawOp(50)]
  }

  /** Every operation that can only keep a non-negative balance non-negative:
      any withdrawal, and a deposit of a non-negative amount. */
  predicate Safe(op: Op)
  {
    op.WithdrawOp? || op.amount >= 0
  }

  class BankAccount {
    var balance: int

    /** A new account holds nothing. */
    constructor ()
      ensures balance == 0
    {
      balance := 0;
    }

    /** Adds `amount` to the balance, whatever its sign. */
    method Deposit(amount: int)
      modifies this
      ensures balance == old(balance) + amount
    {
      balance := balance + amount;
    }

    /** Subtracts `amount` when the balance covers it, otherwise changes nothing. */
    method Withdraw(amount: int)
      modifies this
      ensures old(balance) >= amount ==> balance == old(balance) - amount
      ensures old(balance) < amount ==> balance == old(balance)
    {
      if balance >= amount {
        balance := balance - amount;
      }
    }
  }

  lemma RunAppend(balance: int, ops: seq<Op>, more: seq<Op>)
    ensures Run(balance, ops + more) == Run(Run(balance, ops), more)
    decreases |more|
  {
    if more != [] {
      var last := |ops + more| - 1;
      assert (ops + more)[..last] == ops + more[..|more| - 1];
      RunAppend(balance, ops, more[..|more| - 1]);
    } else {
      assert ops + more == ops;
    }
  }

  /** One round of deposit(100), withdraw(50) moves the balance by exactly the
      one round's worth of transactions. */
  lemma RunNextRound(balance: int, rounds: nat)
    ensures Run(balance, TransactionOps(rounds + 1))
         == AfterWithdraw(AfterDeposit(Run(balance, TransactionOps(rounds)), 100), 50)
  {
    var ops := TransactionOps(rounds);
    var b := Run(balance, ops);
    RunAppend(balance, ops, [DepositOp(100), WithdrawOp(50)]);
    assert [DepositOp(100), WithdrawOp(50)][..1] == [DepositOp(100)];
    assert [DepositOp(100)][..0] == [];
    assert Run(b, [DepositOp(100)]) == AfterDeposit(b, 100);
  }

  /** Runs the five rounds of `account_transactions` on `account`. */
  method AccountTransactions(account: BankAccount)
    modifies account
    ensures account.balance == Run(old(account.balance), TransactionOps(5))
    ensures old(account.balance) >= -50 ==> account.balance == old(account.balance) + 250
  {
    for i := 0 to 5
      invariant account.balance == Run(old(account.balance), TransactionOps(i))
    {
      RunNextRound(old(account.balance), i);
      account.Deposit(100);
      account.Withdraw(50);
    }
    if old(account.balance) >= -50 {
      TransactionsGain(old(account.balance), 5);
    }
  }

  /** From any balance of at least -50 (so from every balance >= 0), every
      withdraw(50) follows a deposit(100) and succeeds: each round gains 50. */
  lemma {:induction false} TransactionsGain(balance: int, rounds: nat)
    requires balance >= -50
    ensures Run(balance, TransactionOps(rounds)) == balance + 50 * rounds
  {
    if rounds > 0 {
      TransactionsGain(balance, rounds - 1);
      RunNextRound(balance, rounds - 1);
    }
  }

  /** Whatever the sign of the amount, a withdrawal keeps a non-negative
      balance non-negative. */
  lemma WithdrawKeepsNonNegative(balance: int, amount: int)
    requires balance >= 0
    ensures AfterWithdraw(balance, amount) >= 0
  {
  }

  /** A deposit keeps the balance non-negative exactly when the deposited
      amount does not overdraw it; for every non-negative amount it does. */
  lemma DepositNonNegative(balance: int, amount: int)
    requires balance >= 0
    ensures AfterDeposit(balance, amount) >= 0 <==> amount >= -balance
    ensures amount >= 0 ==> AfterDeposit(balance, amount) >= 0
  {
  }

  /** balance >= 0 holds in every state reached from a non-negative balance
      by withdrawals and non-negative deposits: after every prefix of them. */
  lemma {:induction false} SafeRunKeepsNonNegative(balance: int, ops: seq<Op>)
    requires balance >= 0
    requires forall i :: 0 <= i < |ops| ==> Safe(ops[i])
    ensures forall p :: 0 <= p <= |ops| ==> Run(balance, ops[..p]) >= 0
  {
    if ops != [] {
      var prefix := ops[..|ops| - 1];
      assert forall i :: 0 <= i < |prefix| ==> prefix[i] == ops[i];
      SafeRunKeepsNonNegative(balance, prefix);
      forall p | 0 <= p <= |ops|
        ensures Run(balance, ops[..p]) >= 0
      {
        if p < |ops| {
          assert prefix[..p] == ops[..p];
        } else {
          assert ops[..p] == ops;
          assert Run(balance, ops) == Apply(Run(balance, prefix), ops[|ops| - 1]);
        }
      }
    } else {
      assert ops[..0] == [];
    }
  }

  /** Since deposits are not validated, one negative deposit on a fresh account
      leaves a negative balance. */
  lemma NegativeDepositBreaksInvariant()
    ensures Run(0, [DepositOp(-5)]) == -5
  {
    assert [DepositOp(-5)][..0] == [];
  }

  /** A withdrawal from a fresh account is refused and leaves the balance at 0. */
  lemma WithdrawFromEmpty()
    ensures Run(0, [WithdrawOp(50)]) == 0
  {
    assert [WithdrawOp(50)][..0] == [];
  }

  /** The driver: a fresh account and the two transaction runs composed one
      after the other (one of the interleavings the lock permits). The final
      balance is 500. */
  method TwoWorkers() returns (finalBalance: int)
    ensures finalBalance == 500
  {
    var account := new BankAccount();
    AccountTransactions(account);
    AccountTransactions(account);
    finalBalance := account.balance;
  }
}
