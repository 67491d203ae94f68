# Bank ledger core

A Dafny model of the ledger rules of a small Django banking API. Users own
accounts (an owner, a unique UUID account number, a balance with two decimal
places); each successful deposit, withdrawal or transfer changes balances and
appends rows to an append-only transaction log; users list their own rows,
newest first, optionally filtered by transaction type.

The model is one sequential state machine:

- `models.dfy` (module `Models`): the data shapes of `core/models.py` — `Account`,
  `Transaction`, the three `TransactionType` choices with their stored codes, and the
  fixed-point range of money fields. Money is integer cents; a field with
  `max_digits=15, decimal_places=2` holds a value exactly when its magnitude is
  below 10^15 cents.
- `ledger.dfy` (module `Ledger`): the lookups the views make (`accounts.first()`,
  `Account.objects.get(account_number=...)`), the error kinds, and the ledger invariant
  `Consistent`: account numbers are unique, every row belongs to an existing account,
  is stamped with its log position and has a positive amount that fits the field, every
  balance is non-negative and fits the field, every balance equals the replay of its own
  rows from zero (the ledger consistency law), and the sum of all balances equals money
  deposited minus money withdrawn. Lemmas show that applying a row, opening an account
  and applying a transfer's two rows keep the invariant.
- `query.dfy` (module `Query`): `get_queryset` of the transaction list and its
  `transaction_type` filter, as functions over the log.
- `views.dfy` (module `Views`): the class `Bank`, which holds the accounts (in
  primary-key order) and the log, with one method per request handler. Each method
  makes the handler's checks in the handler's order, returns on the first failure
  without changing anything, and otherwise updates the balances and appends the rows.
  Every method keeps `Valid()` (the ledger invariant) and states the new state.
  `Deposit`, `Withdraw` and `Transfer` are proved against a pure function that gives
  the outcome of the handler's checks (`DepositOutcome`, `WithdrawOutcome`,
  `TransferOutcome`: one if-and-only-if per error kind, in the handler's order). They
  also state the change in the sum of all balances.
  Two client methods walk through short sessions (deposit 100.00, withdraw 50.00,
  fail to withdraw 999.00; transfer 30.00, fail to transfer to oneself) using only
  the contracts.

Modelling choices:

- `user.accounts.first()` orders by primary key because `Account` declares no
  ordering, so "the user's account" is the earliest-created account the user owns
  (`Ledger.FirstAccount`). A user may own several accounts; only the first is used.
- The request's amount is `Views.AmountInput`, the result of `Decimal(amount)`:
  `NotConvertible` when it raises `TypeError`/`ValueError` (a missing field), which
  the handlers answer with "Invalid amount format"; `Malformed` when it raises
  `decimal.InvalidOperation` (a string that is not a decimal), which no handler
  catches, so the request fails with a server error and changes nothing
  (`UnhandledInvalidAmount`); or a number of cents.
- The model assumes a database that rejects a numeric value which does not fit
  `DecimalField(max_digits=15, decimal_places=2)` (as PostgreSQL's `numeric(15,2)`
  does; the project's database settings are not part of this model). The failing save
  raises, and `transaction.atomic()` rolls the block back. The model reports this as
  `BalanceOverflow` with nothing changed: for a deposit when the new balance would reach
  10^15 cents, for a transfer when the receiver's would. `Bank.Transfer` applies the
  debit and its row first and restores the saved state when the credit cannot be
  saved, as the atomic block does.
- A transfer writes two rows of kind `transfer` with the same positive amount; only
  the description ("Transfer to <user>" / "Transfer from <user>") tells the sides
  apart. The model keeps those two descriptions structured (`TransferTo`, `TransferFrom`)
  so that the replay of an account's rows is well defined; other descriptions are
  free text (`Note`), defaulting to "Deposit" / "Withdrawal".
- The `description` field of a deposit or withdrawal is `Views.DescriptionInput`, what
  `request.data.get('description', default)` returns: `Absent` (the default text is
  stored), `Text(s)`, or `Null` for a JSON `null`. `None` is not the missing-key case,
  so it reaches `Transaction.objects.create`. The `TextField` column is NOT NULL, so
  the insert raises `IntegrityError`, which no handler catches. `transaction.atomic()`
  then rolls back the balance already saved. The model reports this as
  `NullDescription` with nothing changed. For a deposit it comes after the overflow
  check; for a withdrawal, after the funds check.
- Timestamps are log positions, so "newest first" is reverse insertion order.
- The account number of a new account is a random `uuid4`; the model takes it as a
  parameter. If it is already used, the unique constraint refuses the row
  (`DuplicateAccountNumber`).
- The `transaction_type` filter parameter is read as the filter backend reads a field
  with choices: absent or empty means no filtering, a stored code filters on that type,
  anything else refuses the request (`InvalidFilter`).

Behaviour of the code that the model keeps as written:

- Deposit and withdrawal look up the account before validating the amount, so a user
  without an account gets `NoAccount` even for a bad amount.
- Transfer checks, in order: sender account, amount format, receiver account,
  amount > 0, same account, funds. A missing receiver is reported before a
  non-positive amount.
- Registration runs only for a user the serializer has just created (usernames are
  unique, so a taken one is refused before `perform_create`), so `Bank.Register`
  requires that the user owns no account yet. There is no per-account locking.
- Transfer rows do not record the direction in their kind or sign.

## Model

| member | source | states |
|---|---|---|
| `Models.TransactionType.Code` | core/models.py:15-22 | each choice's stored code is non-empty and fits the column's `max_length` of 10 |
| `Models.TypeFromCode` | core/models.py:15-19 | inverse of `Code`: returns a type exactly for the three stored codes, and that type's code is the input |
| `Ledger.FirstAccount` | core/views.py:42-44 | `accounts.first()`: the lowest-index account the user owns, or nothing exactly when the user owns none |
| `Ledger.FindByNumber` | core/views.py:132-134 | the account with the given number, or nothing exactly when no account has it |
| `Ledger.Posted` | core/views.py:56-57 | applying a row changes only its own account's balance, by the row's signed amount; owners and numbers never change |
| `Ledger.NetUntouched` | core/models.py:21 | an account that no row refers to has a replayed balance of zero |
| `Ledger.TotalUpdate` | core/views.py:149-160 | changing one balance changes the sum of all balances by exactly the difference |
| `Ledger.PostPreserves` | core/views.py:55-64 | appending one well-formed row and applying it keeps every balance equal to its replay, non-negative and in range; the sum moves by the row's signed amount |
| `Ledger.OpenPreserves` | core/models.py:5-8 | adding a zero-balance account with an unused number keeps the ledger invariant, including unique numbers |
| `Ledger.TransferPreserves` | core/views.py:144-166 | a debit row and a credit row on two distinct accounts keep the invariant when the credit fits, and leave the sum of balances unchanged |
| `Query.KindFilter` | core/views.py:182-183 | no filter for an absent or empty parameter; a filter on exactly that type for each stored code; a refusal exactly for anything else |
| `Query.Visible` | core/views.py:185-187 | a row is listed exactly when it is in the log, belongs to one of the user's accounts, and passes the type filter |
| `Query.NewestFirst` | core/views.py:187 | in a log stamped by position, listed rows come in strictly decreasing timestamp order |
| `Views.DepositOutcome` | core/views.py:41-64 | one if-and-only-if per outcome, in the handler's order: `NoAccount` exactly when the user owns no account; then `InvalidAmountFormat` / `UnhandledInvalidAmount` exactly for a missing / malformed amount; then `InvalidAmount` exactly for amount <= 0; then `BalanceOverflow` exactly when the new balance would not fit; then `NullDescription` exactly for a null description; `Done` otherwise |
| `Views.WithdrawOutcome` | core/views.py:71-97 | one if-and-only-if per outcome, in the handler's order: `NoAccount`, then `InvalidAmountFormat` / `UnhandledInvalidAmount`, then `InvalidAmount` for amount <= 0, then `InsufficientFunds` exactly when a positive amount exceeds the balance, then `NullDescription` exactly for a null description; `Done` exactly when 0 < amount <= balance and the description is not null |
| `Views.ReceiverOf` | core/views.py:124-134 | the receiver account is the one whose number the request names, and none is found exactly when no account has that number |
| `Views.TransferOutcome` | core/views.py:122-160 | one if-and-only-if per outcome, in the handler's order: `NoAccount` (no sender account), `InvalidAmountFormat` / `UnhandledInvalidAmount`, `ReceiverNotFound` (even for amount <= 0), `InvalidAmount`, `SameAccount`, `InsufficientFunds`, `BalanceOverflow` (receiver's new balance does not fit); `Done` exactly when all checks pass |
| `Views.Bank.Register` | core/views.py:23-26 | one new account with balance 0 owned by the user, no row logged; a duplicate number is refused with nothing changed; requires that the user owns no account yet (the only kind the serializer lets through), and the new account becomes that user's first |
| `Views.Bank.Deposit` | core/views.py:41-66 | outcome as `DepositOutcome`; on failure (a rolled-back null description included) nothing changes; on success the balance rises by the amount, one `deposit` row carrying the given description or "Deposit" is appended, the sum of balances rises by the amount, the invariant holds |
| `Views.Bank.Withdraw` | core/views.py:71-99 | outcome as `WithdrawOutcome`; on failure (a rolled-back null description included) nothing changes; on success the balance falls by the amount, one `withdrawal` row carrying the given description or "Withdrawal" is appended, no balance goes negative |
| `Views.Bank.Transfer` | core/views.py:122-168 | outcome as `TransferOutcome`; on failure nothing changes; on success the sender is debited and the receiver credited by the amount, two `transfer` rows are appended, the sum of balances is unchanged |
| `Views.Bank.TransactionList` | core/views.py:178-187 | refused exactly for an invalid type filter; otherwise exactly the user's rows of the requested type, newest first; reads and never changes the ledger |

## Left out

- HTTP responses, status codes, permission classes and URL routing: outcomes are the
  `Status` and `Error` datatypes.
- Authentication and user creation (JWT views, `create_user`): the caller's username
  is a parameter, and registration takes the already-created user.
- `AccountView.get_object` (core/views.py:34-35): it reads the user's first account,
  which `Ledger.FirstAccount` models; the serialised response is not modelled.
- Parsing of the amount string, and amounts with more than two decimal places or
  non-finite decimals (`NaN`, `Infinity`): amounts are whole cents.
- A receiver account number that is not a valid UUID (a validation error raised by the
  lookup): the receiver is either absent or a 128-bit number.
- The exact description texts (they are free text; transfer rows keep the counterparty
  only).
- Wall-clock timestamps and ties between them: the log position is the timestamp.
- Concurrency, locking and interleaving of requests: every handler is one atomic,
  sequential step, so the behaviour of concurrent withdrawals is not modelled.
- Serializers, admin configuration, the `_str_` methods and the tests, which describe
  display only.
