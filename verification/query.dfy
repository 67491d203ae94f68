/** The transaction list: the requesting user's rows, newest first, optionally
    restricted to one transaction type. */
module Query {
  import opened Wrappers
  import opened Models
  import opened Ledger

  /** The row belongs to one of `user`'s accounts (`account__user=user`). */
  predicate Owned(accounts: seq<Account>, t: Transaction, user: Username) {
    t.account < |accounts| && accounts[t.account].owner == user
  }

  /** The row passes the optional `transaction_type` filter. */
  predicate OfKind(t: Transaction, kind: Option<TransactionType>) {
    kind.None? || t.kind == kind.value
  }

  /** Every row carries its position in the log as its timestamp. */
  predicate Stamped(log: seq<Transaction>) {
    forall k | 0 <= k < |log| :: log[k].timestamp == k
  }

  /** Rows in strictly decreasing timestamp order (`order_by('-timestamp')`). */
  predicate NewestFirstOrder(rows: seq<Transaction>) {
    forall p, q | 0 <= p < q < |rows| :: rows[p].timestamp > rows[q].timestamp
  }

  /** The `transaction_type` query parameter, as the filter backend reads it:
      absent or empty means no filtering, a choice's stored value filters on
      that choice, and anything else is refused. */
  function KindFilter(param: Option<string>): (r: Result<Option<TransactionType>, Error>)
    ensures (param.None? || param == Some("")) ==> r == Success(None)
    ensures forall kind: TransactionType :: param == Some(kind.Code()) ==> r == Success(Some(kind))
    ensures r.Success? && r.value.Some? ==> param == Some(r.value.value.Code())
    ensures r.Failure? <==> param.Some? && param.value != "" && TypeFromCode(param.value).None?
    ensures r.Failure? ==> r.error == InvalidFilter
  {
    match param
    case None => Success(None)
    case Some(code) =>
      if code == "" then Success(None)
      else
        match TypeFromCode(code)
        case None => Failure(InvalidFilter)
        case Some(kind) => Success(Some(kind))
  }

  /** `Transaction.objects.filter(account__user=user).order_by('-timestamp')`,
      with the optional type filter: the log walked from its newest row back. */
  function Visible(accounts: seq<Account>, log: seq<Transaction>, user: Username, kind: Option<TransactionType>)
    : (rows: seq<Transaction>)
    ensures forall t :: t in rows <==> t in log && Owned(accounts, t, user) && OfKind(t, kind)
    ensures |rows| <= |log|
  {
    if log == [] then []
    else
      var n := |log| - 1;
      var older := Visible(accounts, log[..n], user, kind);
      assert log == log[..n] + [log[n]];
      if Owned(accounts, log[n], user) && OfKind(log[n], kind) then [log[n]] + older else older
  }

  /** In a log stamped by position, the listed rows come newest first. */
  lemma {:induction false} NewestFirst(accounts: seq<Account>, log: seq<Transaction>, user: Username, kind: Option<TransactionType>)
    requires Stamped(log)
    ensures NewestFirstOrder(Visible(accounts, log, user, kind))
  {
    if log != [] {
      var n := |log| - 1;
      NewestFirst(accounts, log[..n], user, kind);
      var older := Visible(accounts, log[..n], user, kind);
      forall t | t in older
        ensures t.timestamp < n
      {
        var k :| 0 <= k < n && log[..n][k] == t;
      }
    }
  }
}
