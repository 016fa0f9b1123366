/** The two tables of backend/models.py, their column constraints as
    invariants, and the row-id and filter rules the resources rely on. */
module Models {
  import opened Common

  /** The column default of `transactions.transaction_type`. */
  const DefaultTransactionType := "expense"

  /** A row of `users`. The non-null columns are plain strings; the stored
      password is its hash. */
  datatype User = User(id: nat, username: string, email: string, passwordHash: string)

  /** A row of `transactions`. `description` is the one nullable column.
      Amount and date are opaque values; their Float and DateTime
      conversions are not modelled. */
  datatype Transaction = Transaction(
    id: nat,
    amount: string,
    description: Option<string>,
    date: string,
    transactionType: string,
    userId: nat)

  ghost predicate UserIdsUnique(users: seq<User>) {
    forall i, j :: 0 <= i < j < |users| ==> users[i].id != users[j].id
  }

  ghost predicate UsernamesUnique(users: seq<User>) {
    forall i, j :: 0 <= i < j < |users| ==> users[i].username != users[j].username
  }

  ghost predicate EmailsUnique(users: seq<User>) {
    forall i, j :: 0 <= i < j < |users| ==> users[i].email != users[j].email
  }

  ghost predicate TransactionIdsUnique(txns: seq<Transaction>) {
    forall i, j :: 0 <= i < j < |txns| ==> txns[i].id != txns[j].id
  }

  /** The constraints of the `users` table: primary key, unique username,
      unique email. */
  ghost predicate UsersValid(users: seq<User>) {
    UserIdsUnique(users) && UsernamesUnique(users) && EmailsUnique(users)
  }

  /** Some stored user has this id. */
  predicate IsUser(users: seq<User>, id: nat) {
    exists u :: u in users && u.id == id
  }

  /** The foreign key `transactions.user_id -> users.id`. */
  ghost predicate OwnersExist(users: seq<User>, txns: seq<Transaction>) {
    forall t :: t in txns ==> IsUser(users, t.userId)
  }

  /** Every row carries the column default of `transaction_type`. */
  ghost predicate AllExpenses(txns: seq<Transaction>) {
    forall t :: t in txns ==> t.transactionType == DefaultTransactionType
  }

  /** The largest id in a column, 0 for an empty table. */
  function MaxId(ids: seq<nat>): (m: nat)
    ensures forall k :: 0 <= k < |ids| ==> ids[k] <= m
    ensures ids != [] ==> m in ids
    ensures ids == [] ==> m == 0
  {
    if ids == [] then 0
    else
      var rest := MaxId(ids[1..]);
      if ids[0] >= rest then ids[0] else rest
  }

  /** The id SQLite gives a new row of an integer primary key when none is
      supplied: one more than the largest in the table, 1 for an empty one.
      `id` projects a row onto its primary key. */
  function NextId<R>(rows: seq<R>, id: R -> nat): (n: nat)
    ensures n >= 1
    ensures forall r :: r in rows ==> id(r) < n
  {
    var ids := seq(|rows|, k requires 0 <= k < |rows| => id(rows[k]));
    forall r | r in rows
      ensures id(r) < MaxId(ids) + 1
    {
      var k :| 0 <= k < |rows| && rows[k] == r;
      assert ids[k] == id(r);
    }
    MaxId(ids) + 1
  }

  /** The id a new row of `users` receives. */
  function NextUserId(users: seq<User>): (id: nat)
    ensures id >= 1
    ensures forall u :: u in users ==> u.id < id
  {
    NextId(users, (u: User) => u.id)
  }

  /** The id a new row of `transactions` receives. */
  function NextTransactionId(txns: seq<Transaction>): (id: nat)
    ensures id >= 1
    ensures forall t :: t in txns ==> t.id < id
  {
    NextId(txns, (t: Transaction) => t.id)
  }

  /** `Transaction.query.filter_by(user_id=uid).all()`: the rows owned by
      `uid`, in the order they are stored. */
  function OwnedBy(txns: seq<Transaction>, uid: nat): (r: seq<Transaction>)
    ensures forall t :: t in r <==> t in txns && t.userId == uid
    ensures |r| <= |txns|
  {
    if txns == [] then []
    else
      var rest := OwnedBy(txns[1..], uid);
      if txns[0].userId == uid then [txns[0]] + rest else rest
  }

  /** The shape in which GET lists a row: id, amount, description, date. */
  function View(t: Transaction): (v: TxnView)
    ensures v.id == t.id && v.amount == t.amount && v.description == t.description && v.date == t.date
  {
    TxnView(t.id, t.amount, t.description, t.date)
  }

  /** A list of rows in their listing shape, in the same order. */
  function Views(txns: seq<Transaction>): (vs: seq<TxnView>)
    ensures |vs| == |txns|
    ensures forall k :: 0 <= k < |txns| ==> vs[k] == View(txns[k])
  {
    seq(|txns|, k requires 0 <= k < |txns| => View(txns[k]))
  }

  /** Filtering keeps the stored order: the rows of `a ++ b` owned by `uid`
      are those of `a`, then those of `b`. */
  lemma {:induction false} OwnedByConcat(a: seq<Transaction>, b: seq<Transaction>, uid: nat)
    ensures OwnedBy(a + b, uid) == OwnedBy(a, uid) + OwnedBy(b, uid)
  {
    if a == [] {
      assert a + b == b;
    } else {
      assert (a + b)[1..] == a[1..] + b;
      OwnedByConcat(a[1..], b, uid);
    }
  }

  /** A row appended for `t.userId` goes at the end of that user's listing
      and leaves every other user's listing as it was. */
  lemma OwnedByAppend(txns: seq<Transaction>, t: Transaction, uid: nat)
    ensures OwnedBy(txns + [t], uid) == OwnedBy(txns, uid) + (if t.userId == uid then [t] else [])
  {
    OwnedByConcat(txns, [t], uid);
    assert OwnedBy([t], uid) == (if t.userId == uid then [t] else []) by {
      assert [t][1..] == [];
    }
  }

  /** Adding a user whose username and email are both new, under the next
      id, keeps the `users` constraints. */
  lemma AddUserKeepsValid(users: seq<User>, u: User)
    requires UsersValid(users)
    requires forall v :: v in users ==> v.username != u.username && v.email != u.email
    requires u.id == NextUserId(users)
    ensures UsersValid(users + [u])
  {
  }

  /** Appending a row under the next id keeps the primary key unique. */
  lemma AddTransactionKeepsIdsUnique(txns: seq<Transaction>, t: Transaction)
    requires TransactionIdsUnique(txns)
    requires t.id == NextTransactionId(txns)
    ensures TransactionIdsUnique(txns + [t])
  {
  }
}
