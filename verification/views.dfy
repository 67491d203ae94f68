/** The request handlers: registration, deposit, withdrawal, transfer and the
    transaction list, as methods on one ledger object that holds every account
    (in creation order) and the append-only transaction log. */
module Views {
  import opened Wrappers
  import opened Models
  import opened Ledger
  import opened Query

  /** The `amount` field of a request after `Decimal(amount)`. */
  datatype AmountInput =
    | NotConvertible   // missing or of a type Decimal refuses: TypeError or ValueError
    | Malformed        // a string that is not a decimal: decimal.InvalidOperation
    | Cents(value: int)

  /** The `description` field of a deposit or withdrawal request, as
      `request.data.get('description', default)` returns it. */
  datatype DescriptionInput =
    | Absent             // no such key: the handler's default text is stored
    | Null               // the key holds JSON null: None reaches the NOT NULL column
    | Text(text: string)

  /** The text a row stores for a description that is not null. */
  function StoredText(description: DescriptionInput, default: string): string
    requires !description.Null?
  {
    match description
    case Absent => default
    case Text(text) => text
  }

  /** The checks of `DepositView.post`, in the order the handler makes them. */
  function DepositOutcome(accounts: seq<Account>, user: Username, amount: AmountInput, description: DescriptionInput)
    : (s: Status)
    ensures s == Rejected(NoAccount) <==> FirstAccount(accounts, user).None?
    ensures s == Rejected(InvalidAmountFormat) <==> FirstAccount(accounts, user).Some? && amount.NotConvertible?
    ensures s == Rejected(UnhandledInvalidAmount) <==> FirstAccount(accounts, user).Some? && amount.Malformed?
    ensures s == Rejected(InvalidAmount) <==>
      FirstAccount(accounts, user).Some? && amount.Cents? && amount.value <= 0
    ensures s == Rejected(BalanceOverflow) <==>
      FirstAccount(accounts, user).Some? && amount.Cents? && 0 < amount.value
      && accounts[FirstAccount(accounts, user).value].balance + amount.value >= CentsBound
    ensures s == Rejected(NullDescription) <==>
      FirstAccount(accounts, user).Some? && amount.Cents? && 0 < amount.value
      && accounts[FirstAccount(accounts, user).value].balance + amount.value < CentsBound
      && description.Null?
    ensures s == Done <==>
      FirstAccount(accounts, user).Some? && amount.Cents? && 0 < amount.value
      && accounts[FirstAccount(accounts, user).value].balance + amount.value < CentsBound
      && !description.Null?
  {
    match FirstAccount(accounts, user)
    case None => Rejected(NoAccount)
    case Some(i) =>
      match amount
      case NotConvertible => Rejected(InvalidAmountFormat)
      case Malformed => Rejected(UnhandledInvalidAmount)
      case Cents(c) =>
        if c <= 0 then Rejected(InvalidAmount)
        else if accounts[i].balance + c >= CentsBound then Rejected(BalanceOverflow)
        else if description.Null? then Rejected(NullDescription)
        else Done
  }

  /** The checks of `WithdrawalView.post`, in the order the handler makes them. */
  function WithdrawOutcome(accounts: seq<Account>, user: Username, amount: AmountInput, description: DescriptionInput)
    : (s: Status)
    ensures s == Rejected(NoAccount) <==> FirstAccount(accounts, user).None?
    ensures s == Rejected(InvalidAmountFormat) <==> FirstAccount(accounts, user).Some? && amount.NotConvertible?
    ensures s == Rejected(UnhandledInvalidAmount) <==> FirstAccount(accounts, user).Some? && amount.Malformed?
    ensures s == Rejected(InvalidAmount) <==>
      FirstAccount(accounts, user).Some? && amount.Cents? && amount.value <= 0
    ensures s == Rejected(InsufficientFunds) <==>
      FirstAccount(accounts, user).Some? && amount.Cents? && 0 < amount.value
      && accounts[FirstAccount(accounts, user).value].balance < amount.value
    ensures s == Rejected(NullDescription) <==>
      FirstAccount(accounts, user).Some? && amount.Cents? && 0 < amount.value
      && amount.value <= accounts[FirstAccount(accounts, user).value].balance
      && description.Null?
    ensures s == Done <==>
      FirstAccount(accounts, user).Some? && amount.Cents? && 0 < amount.value
      && amount.value <= accounts[FirstAccount(accounts, user).value].balance
      && !description.Null?
  {
    match FirstAccount(accounts, user)
    case None => Rejected(NoAccount)
    case Some(i) =>
      match amount
      case NotConvertible => Rejected(InvalidAmountFormat)
      case Malformed => Rejected(UnhandledInvalidAmount)
      case Cents(c) =>
        if c <= 0 then Rejected(InvalidAmount)
        else if accounts[i].balance < c then Rejected(InsufficientFunds)
        else if description.Null? then Rejected(NullDescription)
        else Done
  }

  /** The account a transfer names, if the request names one that exists. */
  function ReceiverOf(accounts: seq<Account>, receiver: Option<AccountNumber>): (r: Option<nat>)
    ensures r.Some? ==> receiver.Some? && r.value < |accounts| && accounts[r.value].number == receiver.value
    ensures r.None? && receiver.Some? ==> forall j | 0 <= j < |accounts| :: accounts[j].number != receiver.value
  {
    match receiver
    case None => None
    case Some(number) => FindByNumber(accounts, number)
  }

  /** The checks of `TransferView.post`, in the order the handler makes them;
      the last one is the receiver's new balance failing to save, which rolls
      back the whole atomic block. */
  function TransferOutcome(accounts: seq<Account>, user: Username, receiver: Option<AccountNumber>, amount: AmountInput)
    : (s: Status)
    ensures var sender, target := FirstAccount(accounts, user), ReceiverOf(accounts, receiver);
      && (s == Rejected(NoAccount) <==> sender.None?)
      && (s == Rejected(InvalidAmountFormat) <==> sender.Some? && amount.NotConvertible?)
      && (s == Rejected(UnhandledInvalidAmount) <==> sender.Some? && amount.Malformed?)
      && (s == Rejected(ReceiverNotFound) <==> sender.Some? && amount.Cents? && target.None?)
      && (s == Rejected(InvalidAmount) <==>
            sender.Some? && amount.Cents? && target.Some? && amount.value <= 0)
      && (s == Rejected(SameAccount) <==>
            sender.Some? && amount.Cents? && target.Some? && 0 < amount.value
            && sender.value == target.value)
      && (s == Rejected(InsufficientFunds) <==>
            sender.Some? && amount.Cents? && target.Some? && 0 < amount.value
            && sender.value != target.value
            && accounts[sender.value].balance < amount.value)
      && (s == Rejected(BalanceOverflow) <==>
            sender.Some? && amount.Cents? && target.Some? && 0 < amount.value
            && sender.value != target.value
            && amount.value <= accounts[sender.value].balance
            && accounts[target.value].balance + amount.value >= CentsBound)
      && (s == Done <==>
            sender.Some? && amount.Cents? && target.Some? && 0 < amount.value
            && sender.value != target.value
            && amount.value <= accounts[sender.value].balance
            && accounts[target.value].balance + amount.value < CentsBound)
  {
    match FirstAccount(accounts, user)
    case None => Rejected(NoAccount)
    case Some(sender) =>
      match amount
      case NotConvertible => Rejected(InvalidAmountFormat)
      case Malformed => Rejected(UnhandledInvalidAmount)
      case Cents(c) =>
        match ReceiverOf(accounts, receiver)
        case None => Rejected(ReceiverNotFound)
        case Some(r) =>
          if c <= 0 then Rejected(InvalidAmount)
          else if sender == r then Rejected(SameAccount)
          else if accounts[sender].balance < c then Rejected(InsufficientFunds)
          else if accounts[r].balance + c >= CentsBound then Rejected(BalanceOverflow)
          else Done
  }

  /** The bank's database: every account in primary-key order and every
      transaction row in insertion order. */
  class Bank {
    var accounts: seq<Account>
    var log: seq<Transaction>

    ghost predicate Valid()
      reads this
    {
      Consistent(accounts, log)
    }

    constructor ()
      ensures Valid()
      ensures accounts == [] && log == []
    {
      accounts := [];
      log := [];
      EmptyConsistent();
    }

    /** `RegisterView.perform_create`: one new account for the user, with the
        default balance and a freshly drawn account number; no row is logged.
        The user is new (usernames are unique, so the serializer refuses a taken
        one before this runs) and therefore owns no account yet. */
    method Register(user: Username, number: AccountNumber) returns (status: Status)
      requires Valid()
      requires FirstAccount(accounts, user).None?  // the user has just been created by the serializer
      modifies this
      ensures Valid()
      ensures status == (if FindByNumber(old(accounts), number).Some? then Rejected(DuplicateAccountNumber) else Done)
      ensures status.Done? ==> accounts == old(accounts) + [Account(user, number, DefaultBalance)]
      ensures status.Rejected? ==> accounts == old(accounts)
      ensures log == old(log)
      ensures status.Done? ==> FirstAccount(accounts, user) == Some(|old(accounts)|)
    {
      if FindByNumber(accounts, number).Some? {
        return Rejected(DuplicateAccountNumber);
      }
      var account := Account(user, number, DefaultBalance);
      OpenPreserves(accounts, log, account);
      accounts := accounts + [account];
      status := Done;
    }

    /** `DepositView.post`. */
    method Deposit(user: Username, amount: AmountInput, description: DescriptionInput) returns (status: Status)
      requires Valid()
      modifies this
      ensures Valid()
      ensures status == DepositOutcome(old(accounts), user, amount, description)
      ensures status.Rejected? ==> accounts == old(accounts) && log == old(log)
      ensures status.Done? ==>
        var row := Transaction(FirstAccount(old(accounts), user).value, TransactionType.Deposit, amount.value,
                               |old(log)|, Note(StoredText(description, "Deposit")));
        log == old(log) + [row] && accounts == Posted(old(accounts), row)
      ensures TotalBalance(accounts) == TotalBalance(old(accounts)) + (if status.Done? then amount.value else 0)
    {
      var found := FirstAccount(accounts, user);
      if found.None? {
        return Rejected(NoAccount);
      }
      var i := found.value;
      match amount {
        case NotConvertible =>
          return Rejected(InvalidAmountFormat);
        case Malformed =>
          return Rejected(UnhandledInvalidAmount);
        case Cents(c) =>
          if c <= 0 {
            return Rejected(InvalidAmount);
          }
          // inside transaction.atomic(): the balance is saved, then the row is created
          var balance := accounts[i].balance + c;
          if balance >= CentsBound {
            return Rejected(BalanceOverflow);
          }
          // the balance is saved; creating the row then fails and the save is rolled back
          if description.Null? {
            return Rejected(NullDescription);
          }
          var row := Transaction(i, TransactionType.Deposit, c, |log|, Note(StoredText(description, "Deposit")));
          assert Signed(row) == c && External(row) == c;
          PostPreserves(accounts, log, row);
          accounts := Posted(accounts, row);
          log := log + [row];
          status := Done;
      }
    }

    /** `WithdrawalView.post`. */
    method Withdraw(user: Username, amount: AmountInput, description: DescriptionInput) returns (status: Status)
      requires Valid()
      modifies this
      ensures Valid()
      ensures status == WithdrawOutcome(old(accounts), user, amount, description)
      ensures status.Rejected? ==> accounts == old(accounts) && log == old(log)
      ensures status.Done? ==>
        var row := Transaction(FirstAccount(old(accounts), user).value, TransactionType.Withdrawal, amount.value,
                               |old(log)|, Note(StoredText(description, "Withdrawal")));
        log == old(log) + [row] && accounts == Posted(old(accounts), row)
      ensures TotalBalance(accounts) == TotalBalance(old(accounts)) - (if status.Done? then amount.value else 0)
    {
      var found := FirstAccount(accounts, user);
      if found.None? {
        return Rejected(NoAccount);
      }
      var i := found.value;
      match amount {
        case NotConvertible =>
          return Rejected(InvalidAmountFormat);
        case Malformed =>
          return Rejected(UnhandledInvalidAmount);
        case Cents(c) =>
          if c <= 0 {
            return Rejected(InvalidAmount);
          }
          if accounts[i].balance < c {
            return Rejected(InsufficientFunds);
          }
          // the balance is saved; creating the row then fails and the save is rolled back
          if description.Null? {
            return Rejected(NullDescription);
          }
          var row := Transaction(i, TransactionType.Withdrawal, c, |log|, Note(StoredText(description, "Withdrawal")));
          assert Signed(row) == -c && External(row) == -c;
          PostPreserves(accounts, log, row);
          accounts := Posted(accounts, row);
          log := log + [row];
          status := Done;
      }
    }

    /** `TransferView.post`: debit the sender and log it, then credit the
        receiver and log it, all inside one atomic block. */
    method Transfer(user: Username, receiver: Option<AccountNumber>, amount: AmountInput) returns (status: Status)
      requires Valid()
      modifies this
      ensures Valid()
      ensures status == TransferOutcome(old(accounts), user, receiver, amount)
      ensures status.Rejected? ==> accounts == old(accounts) && log == old(log)
      ensures status.Done? ==>
        var s, r, c := FirstAccount(old(accounts), user).value, ReceiverOf(old(accounts), receiver).value, amount.value;
        var debit := Transaction(s, TransactionType.Transfer, c, |old(log)|, TransferTo(old(accounts)[r].owner));
        var credit := Transaction(r, TransactionType.Transfer, c, |old(log)| + 1, TransferFrom(user));
        log == old(log) + [debit, credit] && accounts == Posted(Posted(old(accounts), debit), credit)
      ensures TotalBalance(accounts) == TotalBalance(old(accounts))
    {
      var found := FirstAccount(accounts, user);
      if found.None? {
        return Rejected(NoAccount);
      }
      var s := found.value;
      match amount {
        case NotConvertible =>
          return Rejected(InvalidAmountFormat);
        case Malformed =>
          return Rejected(UnhandledInvalidAmount);
        case Cents(c) =>
          var target := ReceiverOf(accounts, receiver);
          if target.None? {
            return Rejected(ReceiverNotFound);
          }
          var r := target.value;
          if c <= 0 {
            return Rejected(InvalidAmount);
          }
          if s == r {
            return Rejected(SameAccount);
          }
          if accounts[s].balance < c {
            return Rejected(InsufficientFunds);
          }
          // transaction.atomic(): what to restore if a save inside the block fails
          var savedAccounts, savedLog := accounts, log;
          var debit := Transaction(s, TransactionType.Transfer, c, |log|, TransferTo(accounts[r].owner));
          var credit := Transaction(r, TransactionType.Transfer, c, |log| + 1, TransferFrom(accounts[s].owner));
          TransferPreserves(accounts, log, debit, credit);
          accounts := Posted(accounts, debit);
          log := log + [debit];
          if accounts[r].balance + c >= CentsBound {
            accounts, log := savedAccounts, savedLog;
            return Rejected(BalanceOverflow);
          }
          accounts := Posted(accounts, credit);
          log := log + [credit];
          assert log == savedLog + [debit, credit];
          status := Done;
      }
    }

    /** `TransactionListView.get_queryset` with its `transaction_type` filter:
        only the user's rows, only those of the requested type, newest first. */
    function TransactionList(user: Username, param: Option<string>): (r: Result<seq<Transaction>, Error>)
      reads this
      ensures r.Failure? <==> KindFilter(param).Failure?
      ensures r.Success? ==> forall t :: t in r.value <==>
        t in log && Owned(accounts, t, user) && OfKind(t, KindFilter(param).value)
      ensures r.Success? && Stamped(log) ==> NewestFirstOrder(r.value)
    {
      match KindFilter(param)
      case Failure(e) => Failure(e)
      case Success(kind) =>
        assert Stamped(log) ==> NewestFirstOrder(Visible(accounts, log, user, kind)) by {
          if Stamped(log) {
            NewestFirst(accounts, log, user, kind);
          }
        }
        Success(Visible(accounts, log, user, kind))
    }
  }

  /** A client session: deposit 100.00 into a new account, withdraw 50.00,
      then fail to withdraw 999.00 and fail to deposit with a null description,
      with nothing changed. */
  method DepositWithdrawSession() {
    var bank := new Bank();
    var s := bank.Register("alice", 1);
    assert bank.accounts == [Account("alice", 1, 0)];
    s := bank.Deposit("alice", Cents(100_00), Absent);
    assert s == Done && bank.accounts[0].balance == 100_00;
    assert bank.log == [Transaction(0, TransactionType.Deposit, 100_00, 0, Note("Deposit"))];
    s := bank.Withdraw("alice", Cents(50_00), Absent);
    assert s == Done && bank.accounts[0].balance == 50_00 && |bank.log| == 2;
    s := bank.Withdraw("alice", Cents(999_00), Absent);
    assert s == Rejected(InsufficientFunds) && bank.accounts[0].balance == 50_00 && |bank.log| == 2;
    s := bank.Deposit("alice", Cents(10_00), Null);
    assert s == Rejected(NullDescription) && bank.accounts[0].balance == 50_00 && |bank.log| == 2;
  }

  /** Two new accounts, "alice" holding 50.00 and "bob" holding nothing. */
  method FundedPair() returns (bank: Bank)
    ensures fresh(bank) && bank.Valid()
    ensures bank.accounts == [Account("alice", 1, 50_00), Account("bob", 2, 0)] && |bank.log| == 1
  {
    bank := new Bank();
    var s := bank.Register("alice", 1);
    s := bank.Register("bob", 2);
    assert bank.accounts == [Account("alice", 1, 0), Account("bob", 2, 0)];
    assert FirstAccount(bank.accounts, "alice") == Some(0);
    s := bank.Deposit("alice", Cents(50_00), Absent);
    assert s == Done;
  }

  /** A client session: transfer 30.00 from an account holding 50.00 to an
      empty one, then fail to transfer to oneself. */
  method TransferSession() {
    var bank := FundedPair();
    var s := bank.Transfer("alice", Some(2), Cents(30_00));
    assert s == Done && bank.accounts[0].balance == 20_00 && bank.accounts[1].balance == 30_00;
    assert |bank.log| == 3;
    s := bank.Transfer("alice", Some(1), Cents(10_00));
    assert s == Rejected(SameAccount) && |bank.log| == 3;
  }
}
