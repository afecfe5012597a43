/**
 * The transaction list the application keeps for the signed-in user, and
 * the handlers that change it. Each call to the hosted backend is replaced
 * by a parameter carrying the reply it gave.
 */
module App {
  import opened Types
  import opened Lists
  import opened Dashboard

  datatype Option<T> = None | Some(value: T)

  /** The signed-in user, as far as the handlers use it. */
  datatype User = User(id: string)

  /** Reply to the select of the user's transactions: rows (possibly null) or an error. */
  datatype FetchReply = Fetched(data: Option<seq<Transaction>>) | FetchFailed(message: string)

  /** Reply to the insert: the stored record as returned by the backend, or an error. */
  datatype InsertReply = Inserted(record: Transaction) | InsertFailed(message: string)

  /** Reply to the delete-by-id: success or an error. */
  datatype DeleteReply = Deleted | DeleteFailed(message: string)

  /** The row that `addTransaction` asks the backend to insert. */
  datatype NewTransaction = NewTransaction(
    userId: string,
    description: string,
    amount: int,
    kind: Kind,
    date: Date)

  /** The test `t.id !== id` that keeps the records a delete does not remove. */
  function IsNotId(id: string): Transaction -> bool
  {
    (t: Transaction) => t.id != id
  }

  /**
   * `ts.filter(t => t.id !== id)`. The list gets shorter exactly when some
   * record has the id.
   */
  function WithoutId(ts: seq<Transaction>, id: string): (r: seq<Transaction>)
    ensures |r| < |ts| <==> exists t | t in ts :: t.id == id
  {
    FilterKeepsAll(ts, IsNotId(id));
    Filter(ts, IsNotId(id))
  }

  /**
   * What is left after removing `id`: no record with that id, every other
   * record as often as before, and the records on each side of a split in
   * their original relative order.
   */
  lemma WithoutIdSpec(ts: seq<Transaction>, id: string)
    ensures forall t :: t in WithoutId(ts, id) ==> t.id != id
    ensures forall t :: multiset(WithoutId(ts, id))[t] == if t.id == id then 0 else multiset(ts)[t]
    ensures forall a, b :: ts == a + b ==> WithoutId(ts, id) == WithoutId(a, id) + WithoutId(b, id)
  {
    forall t
      ensures t in WithoutId(ts, id) ==> t.id != id
      ensures multiset(WithoutId(ts, id))[t] == if t.id == id then 0 else multiset(ts)[t]
    {
      FilterMembership(ts, IsNotId(id), t);
      FilterCount(ts, IsNotId(id), t);
    }
    forall a, b | ts == a + b
      ensures WithoutId(ts, id) == WithoutId(a, id) + WithoutId(b, id)
    {
      FilterAppend(a, b, IsNotId(id));
    }
  }

  /** A list in which no record carries `id` is left as it is. */
  lemma {:induction false} WithoutAbsentId(ts: seq<Transaction>, id: string)
    requires forall t :: t in ts ==> t.id != id
    ensures WithoutId(ts, id) == ts
    decreases |ts|
  {
    if ts != [] {
      var p := ts[..|ts| - 1];
      assert ts == p + [ts[|ts| - 1]];
      WithoutAbsentId(p, id);
      FilterSnoc(p, ts[|ts| - 1], IsNotId(id));
    }
  }

  /** The test `t.id === id`: the records a delete removes. */
  function IsId(id: string): Transaction -> bool
  {
    (t: Transaction) => t.id == id
  }

  /** After a successful add, each dashboard total moves by the new record's amount alone. */
  lemma PrependTotals(ts: seq<Transaction>, r: Transaction)
    ensures TotalIncome([r] + ts) == TotalIncome(ts) + (if r.kind == Income then r.amount else 0)
    ensures TotalExpenses([r] + ts) == TotalExpenses(ts) + (if r.kind == Expense then r.amount else 0)
  {
    assert multiset([r] + ts) == multiset(ts + [r]);
    TotalsPermutation([r] + ts, ts + [r]);
    TotalsSnoc(ts, r);
  }

  /**
   * After a successful delete, each dashboard total is the old one less the
   * contribution of the removed records: recomputing carries no hidden state.
   */
  lemma {:induction false} DeleteTotals(ts: seq<Transaction>, id: string)
    ensures TotalIncome(ts) == TotalIncome(WithoutId(ts, id)) + TotalIncome(Filter(ts, IsId(id)))
    ensures TotalExpenses(ts) == TotalExpenses(WithoutId(ts, id)) + TotalExpenses(Filter(ts, IsId(id)))
    decreases |ts|
  {
    if ts != [] {
      var p := ts[..|ts| - 1];
      var t := ts[|ts| - 1];
      assert ts == p + [t];
      DeleteTotals(p, id);
      FilterSnoc(p, t, IsNotId(id));
      FilterSnoc(p, t, IsId(id));
      if t.id == id {
        TotalsSnoc(Filter(p, IsId(id)), t);
        assert WithoutId(ts, id) == WithoutId(p, id);
      } else {
        TotalsSnoc(WithoutId(p, id), t);
        assert Filter(ts, IsId(id)) == Filter(p, IsId(id));
      }
      TotalsSnoc(p, t);
    }
  }

  /** The state of the application component that the handlers update. */
  class TransactionList {
    /** Set by the authentication subscription; `None` when nobody is signed in. */
    var user: Option<User>
    /** The transactions shown on every screen. */
    var transactions: seq<Transaction>

    constructor ()
      ensures user == None && transactions == []
    {
      user := None;
      transactions := [];
    }

    /** The session callback: records who is signed in, leaving the list alone. */
    method SetUser(u: Option<User>)
      modifies this
      ensures user == u && transactions == old(transactions)
    {
      user := u;
    }

    /** `fetchTransactions`: replaces the list by the user's rows, or by [] when the rows are null. */
    method FetchTransactions(reply: FetchReply)
      modifies this
      ensures user == old(user)
      ensures old(user).None? || reply.FetchFailed? ==> transactions == old(transactions)
      ensures old(user).Some? && reply == Fetched(None) ==> transactions == []
      ensures old(user).Some? && reply.Fetched? && reply.data.Some? ==> transactions == reply.data.value
    {
      if user.None? {
        return;
      }
      if reply.FetchFailed? {
        return;
      }
      transactions := if reply.data.Some? then reply.data.value else [];
    }

    /** `handleSignOut`: the list is emptied whatever the backend answers. */
    method HandleSignOut()
      modifies this
      ensures transactions == []
      ensures user == old(user)
    {
      transactions := [];
    }

    /**
     * `addTransaction`: builds the row for the signed-in user dated `today`
     * and, once the backend has stored it, puts the stored record first.
     * Returns the row sent, or None when nobody is signed in.
     */
    method AddTransaction(description: string, amount: int, kind: Kind, today: Date, reply: InsertReply)
      returns (sent: Option<NewTransaction>)
      modifies this
      ensures user == old(user)
      ensures old(user).None? ==> sent == None && transactions == old(transactions)
      ensures old(user).Some? ==> sent == Some(NewTransaction(old(user).value.id, description, amount, kind, today))
      ensures reply.InsertFailed? ==> transactions == old(transactions)
      ensures old(user).Some? && reply.Inserted? ==>
        && |transactions| == |old(transactions)| + 1
        && transactions[0] == reply.record
        && transactions[1..] == old(transactions)
    {
      if user.None? {
        return None;
      }
      sent := Some(NewTransaction(user.value.id, description, amount, kind, today));
      if reply.InsertFailed? {
        return;
      }
      transactions := [reply.record] + transactions;
    }

    /**
     * `deleteTransaction`: once the backend has deleted the row, drops every
     * record with that id from the list. There is no signed-in check here.
     */
    method DeleteTransaction(id: string, reply: DeleteReply)
      modifies this
      ensures user == old(user)
      ensures reply.DeleteFailed? ==> transactions == old(transactions)
      ensures reply.Deleted? ==> transactions == WithoutId(old(transactions), id)
      ensures reply.Deleted? ==> forall t :: t in transactions ==> t.id != id
    {
      if reply.DeleteFailed? {
        return;
      }
      WithoutIdSpec(transactions, id);
      transactions := WithoutId(transactions, id);
    }
  }
}
