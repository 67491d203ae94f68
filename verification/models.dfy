/** The data shapes of the bank: accounts, transactions, their kinds and the
    fixed-point range of money fields. Money is counted in integer cents. */
module Models {
  import opened Wrappers

  /** A Django user, identified by its (unique) username. */
  type Username = string

  /** A version-4 UUID, as stored in `Account.account_number`: a 128-bit value. */
  newtype AccountNumber = x: int | 0 <= x < 0x1_0000_0000_0000_0000_0000_0000_0000_0000

  /** `DecimalField(max_digits=15, decimal_places=2)` holds 15 digits, 2 of them after
      the point, so a value in cents fits the field exactly when its magnitude is below
      10^15. */
  const CentsBound: int := 1_000_000_000_000_000

  /** A new account's balance (`default=0.00`). */
  const DefaultBalance: int := 0

  /** `max_length` of `Transaction.transaction_type`. */
  const MaxTypeLength: nat := 10

  /** Whether a value in cents can be stored in a money field. */
  predicate Representable(cents: int) {
    -CentsBound < cents < CentsBound
  }

  /** The choices of `Transaction.transaction_type`. */
  datatype TransactionType = Deposit | Withdrawal | Transfer {

    /** The value stored in the database for this choice; it fits the column. */
    function Code(): (code: string)
      ensures 0 < |code| <= MaxTypeLength
    {
      match this
      case Deposit => "deposit"
      case Withdrawal => "withdrawal"
      case Transfer => "transfer"
    }
  }

  /** The choice whose stored value is `code`, if any: the inverse of `Code`. */
  function TypeFromCode(code: string): (kind: Option<TransactionType>)
    ensures kind.Some? ==> kind.value.Code() == code
    ensures forall k: TransactionType :: k.Code() == code ==> kind == Some(k)
  {
    if code == "deposit" then Some(Deposit)
    else if code == "withdrawal" then Some(Withdrawal)
    else if code == "transfer" then Some(Transfer)
    else None
  }

  /** An account: its owner, its immutable unique number and its balance in cents. */
  datatype Account = Account(owner: Username, number: AccountNumber, balance: int)

  /** The free-text description of a row. The two texts a transfer writes
      ("Transfer to <username>", "Transfer from <username>") keep their structure,
      so that the direction of a transfer row stays visible. */
  datatype Description =
    | Note(text: string)
    | TransferTo(receiver: Username)
    | TransferFrom(sender: Username)

  /** A row of the transaction log. `account` is the position of the account it
      belongs to; `timestamp` is the row's position in the log. */
  datatype Transaction = Transaction(
    account: nat,
    kind: TransactionType,
    amount: int,
    timestamp: nat,
    description: Description)
}
