/** The ledger as values: the lookups the views perform, the errors they report,
    and the invariant every operation keeps (balances in range and never negative,
    unique account numbers, each balance equal to the sum of its own history, and
    the sum of all balances equal to money deposited minus money withdrawn). */
module Ledger {
  import opened Wrappers
  import opened Models

  /** Why an operation was refused. Each one leaves the ledger unchanged. */
  datatype Error =
    | NoAccount               // the requesting user owns no account
    | InvalidAmountFormat     // `Decimal(amount)` raised TypeError or ValueError
    | UnhandledInvalidAmount  // `Decimal(amount)` raised decimal.InvalidOperation, which no handler catches
    | InvalidAmount           // the amount is zero or negative
    | InsufficientFunds       // the balance is below the amount
    | ReceiverNotFound        // no account has the receiver's account number
    | SameAccount             // a transfer from an account to itself
    | BalanceOverflow         // a new balance does not fit 15 digits, so saving it fails and the atomic block rolls back
    | DuplicateAccountNumber  // the new account's number is taken; the unique constraint refuses the row
    | InvalidFilter           // the transaction_type filter is not one of the choices
    | NullDescription         // the description is JSON null: inserting it into the NOT NULL column raises
                              // IntegrityError, which no handler catches, and the atomic block rolls back

  /** The outcome of an operation that changes the ledger. */
  datatype Status = Done | Rejected(error: Error)

  /** `user.accounts.first()`: the user's account with the smallest primary key,
      that is the earliest created one, if the user has any. */
  function FirstAccount(accounts: seq<Account>, user: Username): (r: Option<nat>)
    ensures r.Some? ==> r.value < |accounts| && accounts[r.value].owner == user
    ensures r.Some? ==> forall j | 0 <= j < r.value :: accounts[j].owner != user
    ensures r.None? ==> forall j | 0 <= j < |accounts| :: accounts[j].owner != user
  {
    if accounts == [] then None
    else if accounts[0].owner == user then Some(0)
    else
      match FirstAccount(accounts[1..], user)
      case None => None
      case Some(k) => Some(k + 1)
  }

  /** `Account.objects.get(account_number=number)`: the account with that number, if any. */
  function FindByNumber(accounts: seq<Account>, number: AccountNumber): (r: Option<nat>)
    ensures r.Some? ==> r.value < |accounts| && accounts[r.value].number == number
    ensures r.None? ==> forall j | 0 <= j < |accounts| :: accounts[j].number != number
  {
    if accounts == [] then None
    else if accounts[0].number == number then Some(0)
    else
      match FindByNumber(accounts[1..], number)
      case None => None
      case Some(k) => Some(k + 1)
  }

  /** The sum of all balances. */
  function TotalBalance(accounts: seq<Account>): (total: int) {
    if accounts == [] then 0
    else TotalBalance(accounts[..|accounts| - 1]) + accounts[|accounts| - 1].balance
  }

  /** The change a row made to its own account's balance. */
  function Signed(t: Transaction): (delta: int) {
    match t.kind
    case Deposit => t.amount
    case Withdrawal => -t.amount
    case Transfer => if t.description.TransferTo? then -t.amount else t.amount
  }

  /** The change a row made to the sum of all balances: transfers move money
      between accounts and make none. */
  function External(t: Transaction): (delta: int) {
    match t.kind
    case Deposit => t.amount
    case Withdrawal => -t.amount
    case Transfer => 0
  }

  /** The balance account `account` has by replaying its rows from zero. */
  function Net(log: seq<Transaction>, account: nat): (balance: int) {
    if log == [] then 0
    else
      var t := log[|log| - 1];
      Net(log[..|log| - 1], account) + (if t.account == account then Signed(t) else 0)
  }

  /** Money deposited minus money withdrawn over the whole log. */
  function ExternalFlow(log: seq<Transaction>): (flow: int) {
    if log == [] then 0
    else ExternalFlow(log[..|log| - 1]) + External(log[|log| - 1])
  }

  /** A row as the views write it: for an existing account, stamped with its
      position, with a positive amount that fits a money field. */
  predicate WellFormedRow(t: Transaction, accountCount: nat, position: nat) {
    t.account < accountCount && t.timestamp == position && 0 < t.amount && Representable(t.amount)
  }

  /** Account numbers are unique (`unique=True`). */
  predicate UniqueNumbers(accounts: seq<Account>) {
    forall i, j | 0 <= i < j < |accounts| :: accounts[i].number != accounts[j].number
  }

  /** Every row is well formed and every balance is in range, never negative,
      and equal to the replay of that account's rows. */
  predicate RowsConsistent(accounts: seq<Account>, log: seq<Transaction>) {
    UniqueNumbers(accounts)
    && (forall k | 0 <= k < |log| :: WellFormedRow(log[k], |accounts|, k))
    && (forall i | 0 <= i < |accounts| ::
          0 <= accounts[i].balance && Representable(accounts[i].balance)
          && accounts[i].balance == Net(log, i))
  }

  /** The ledger invariant: the above, and money is conserved. */
  predicate Consistent(accounts: seq<Account>, log: seq<Transaction>) {
    RowsConsistent(accounts, log) && TotalBalance(accounts) == ExternalFlow(log)
  }

  /** The accounts after row `t` has been applied to its own account: that
      account's balance moves by the row's signed amount, and nothing else changes. */
  function Posted(accounts: seq<Account>, t: Transaction): (r: seq<Account>)
    requires t.account < |accounts|
    ensures |r| == |accounts|
    ensures r[t.account].balance == accounts[t.account].balance + Signed(t)
    ensures forall j | 0 <= j < |r| :: r[j].owner == accounts[j].owner && r[j].number == accounts[j].number
    ensures forall j | 0 <= j < |r| && j != t.account :: r[j] == accounts[j]
  {
    accounts[t.account := accounts[t.account].(balance := accounts[t.account].balance + Signed(t))]
  }

  lemma NetAppend(log: seq<Transaction>, t: Transaction, account: nat)
    ensures Net(log + [t], account) == Net(log, account) + (if t.account == account then Signed(t) else 0)
  {
    assert (log + [t])[..|log|] == log;
  }

  lemma ExternalFlowAppend(log: seq<Transaction>, t: Transaction)
    ensures ExternalFlow(log + [t]) == ExternalFlow(log) + External(t)
  {
    assert (log + [t])[..|log|] == log;
  }

  /** An account no row refers to has replayed balance zero. */
  lemma {:induction false} NetUntouched(log: seq<Transaction>, account: nat)
    requires forall k | 0 <= k < |log| :: log[k].account != account
    ensures Net(log, account) == 0
  {
    if log != [] {
      NetUntouched(log[..|log| - 1], account);
    }
  }

  /** Changing one balance changes the sum by the difference. */
  lemma {:induction false} TotalUpdate(accounts: seq<Account>, i: nat, b: int)
    requires i < |accounts|
    ensures TotalBalance(accounts[i := accounts[i].(balance := b)])
         == TotalBalance(accounts) - accounts[i].balance + b
  {
    var updated := accounts[i := accounts[i].(balance := b)];
    var n := |accounts| - 1;
    if i == n {
      assert updated[..n] == accounts[..n];
    } else {
      TotalUpdate(accounts[..n], i, b);
      assert updated[..n] == accounts[..n][i := accounts[i].(balance := b)];
    }
  }

  lemma TotalAppend(accounts: seq<Account>, a: Account)
    ensures TotalBalance(accounts + [a]) == TotalBalance(accounts) + a.balance
  {
    assert (accounts + [a])[..|accounts|] == accounts;
  }

  /** The empty ledger is consistent. */
  lemma EmptyConsistent()
    ensures Consistent([], [])
  {
  }

  /** Appending a well-formed row and applying it to its account keeps every row
      and balance consistent (as long as the new balance stays in range), moves
      the sum of balances by the row's signed amount and the external flow by
      the row's external amount. */
  lemma PostPreserves(accounts: seq<Account>, log: seq<Transaction>, t: Transaction)
    requires RowsConsistent(accounts, log)
    requires WellFormedRow(t, |accounts|, |log|)
    requires 0 <= accounts[t.account].balance + Signed(t) < CentsBound
    ensures RowsConsistent(Posted(accounts, t), log + [t])
    ensures TotalBalance(Posted(accounts, t)) == TotalBalance(accounts) + Signed(t)
    ensures ExternalFlow(log + [t]) == ExternalFlow(log) + External(t)
  {
    var after := Posted(accounts, t);
    var longer := log + [t];
    forall i | 0 <= i < |after|
      ensures 0 <= after[i].balance < CentsBound && after[i].balance == Net(longer, i)
    {
      NetAppend(log, t, i);
    }
    forall k | 0 <= k < |longer|
      ensures WellFormedRow(longer[k], |after|, k)
    {
      if k < |log| {
        assert longer[k] == log[k];
      }
    }
    TotalUpdate(accounts, t.account, accounts[t.account].balance + Signed(t));
    ExternalFlowAppend(log, t);
  }

  /** Adding a zero-balance account with an unused number keeps the ledger consistent. */
  lemma OpenPreserves(accounts: seq<Account>, log: seq<Transaction>, a: Account)
    requires Consistent(accounts, log)
    requires a.balance == DefaultBalance
    requires FindByNumber(accounts, a.number).None?
    ensures Consistent(accounts + [a], log)
  {
    var after := accounts + [a];
    NetUntouched(log, |accounts|);
    forall i, j | 0 <= i < j < |after|
      ensures after[i].number != after[j].number
    {
      assert after[i] == accounts[i];
      if j < |accounts| {
        assert after[j] == accounts[j];
      }
    }
    forall k | 0 <= k < |log|
      ensures WellFormedRow(log[k], |after|, k)
    {
      assert WellFormedRow(log[k], |accounts|, k);
    }
    forall i | 0 <= i < |after|
      ensures 0 <= after[i].balance < CentsBound && after[i].balance == Net(log, i)
    {
      if i < |accounts| {
        assert after[i] == accounts[i];
      }
    }
    TotalAppend(accounts, a);
  }

  /** A transfer's two rows, debit then credit, applied to two distinct accounts:
      the ledger stays consistent (when the credited balance fits) and the sum of
      all balances does not change. */
  lemma TransferPreserves(accounts: seq<Account>, log: seq<Transaction>, debit: Transaction, credit: Transaction)
    requires Consistent(accounts, log)
    requires debit.kind == Transfer && debit.description.TransferTo? && WellFormedRow(debit, |accounts|, |log|)
    requires credit.kind == Transfer && credit.description.TransferFrom? && WellFormedRow(credit, |accounts|, |log| + 1)
    requires debit.account != credit.account && debit.amount == credit.amount
    requires debit.amount <= accounts[debit.account].balance
    ensures Posted(accounts, debit)[credit.account] == accounts[credit.account]
    ensures accounts[credit.account].balance + credit.amount < CentsBound ==>
      Consistent(Posted(Posted(accounts, debit), credit), log + [debit, credit])
      && TotalBalance(Posted(Posted(accounts, debit), credit)) == TotalBalance(accounts)
  {
    var middle := Posted(accounts, debit);
    PostPreserves(accounts, log, debit);
    if accounts[credit.account].balance + credit.amount < CentsBound {
      PostPreserves(middle, log + [debit], credit);
      assert log + [debit] + [credit] == log + [debit, credit];
    }
  }
}
