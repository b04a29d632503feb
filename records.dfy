/** Rows of the three tables of the finance store (users, transactions,
    budgets), the values the operations hand back, and the helpers shared by
    the queries: ASCII case folding and exact sums of amounts.
    Amounts are exact reals: the store's REAL column and SUM() rounding are
    not modelled. */
module Records {

  datatype Option<+T> = None | Some(value: T)

  /** A row of `users`: the id comes from the table's AUTOINCREMENT counter. */
  datatype User = User(id: nat, username: string, password: string)

  /** A row of `transactions`; `kind` is the `type` column, kept verbatim. */
  datatype Txn = Txn(id: nat, userId: nat, kind: string, category: string, amount: real, date: string)

  /** A row of `budgets`; `limit` is the `amount` column. */
  datatype Budget = Budget(id: nat, userId: nat, category: string, limit: real)

  /** One line of the transaction listing: (type, category, amount, date). */
  datatype Row = Row(kind: string, category: string, amount: real, date: string)

  /** One result row of the `GROUP BY type` query. */
  datatype Group = Group(kind: string, total: real)

  datatype Report = Report(income: real, expense: real, savings: real)

  /** One "Budget exceeded" line: the category, what was spent and the limit. */
  datatype Warning = Warning(category: string, spent: real, limit: real)

  function LowerChar(c: char): (r: char)
    ensures 'A' <= c <= 'Z' ==> 'a' <= r <= 'z'
    ensures !('A' <= c <= 'Z') ==> r == c
  {
    if 'A' <= c <= 'Z' then (c as int + 32) as char else c
  }

  /** Case folding of a string, standing in for Python's `str.lower()`;
      only ASCII letters are folded. */
  function Lower(s: string): (r: string)
    ensures |r| == |s|
    ensures forall i :: 0 <= i < |s| ==> r[i] == LowerChar(s[i])
  {
    if s == [] then [] else [LowerChar(s[0])] + Lower(s[1..])
  }

  /** Sum of the amounts of a run of transaction rows (0 when empty). */
  function SumAmounts(ts: seq<Txn>): real
  {
    if ts == [] then 0.0 else SumAmounts(ts[..|ts| - 1]) + ts[|ts| - 1].amount
  }

  /** Transactions that belong to user `u` (`WHERE user_id = ?`), in stored order. */
  function Owned(ts: seq<Txn>, u: nat): (r: seq<Txn>)
    ensures |r| <= |ts|
    ensures forall t :: t in r <==> t in ts && t.userId == u
  {
    if ts == [] then []
    else
      var last := ts[|ts| - 1];
      var rest := Owned(ts[..|ts| - 1], u);
      assert ts == ts[..|ts| - 1] + [last];
      if last.userId == u then rest + [last] else rest
  }

  lemma {:induction false} OwnedConcat(a: seq<Txn>, b: seq<Txn>, u: nat)
    ensures Owned(a + b, u) == Owned(a, u) + Owned(b, u)
  {
    if b == [] {
      assert a + b == a;
    } else {
      assert (a + b)[..|a + b| - 1] == a + b[..|b| - 1];
      OwnedConcat(a, b[..|b| - 1], u);
    }
  }
}
