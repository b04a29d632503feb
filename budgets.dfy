/** The budget tracker's queries: the user's budget rows, the money spent in
    one category, and which budget rows are exceeded. Unlike the report, the
    type here must be exactly "Expense" and the category must match exactly. */
module Budgets {
  import opened Records

  /** The rows counted against a budget: `WHERE user_id = ? AND category = ?
      AND type = 'Expense'`, all three compared exactly. */
  predicate Counts(t: Txn, u: nat, category: string)
  {
    t.userId == u && t.category == category && t.kind == "Expense"
  }

  function Matching(ts: seq<Txn>, u: nat, category: string): (r: seq<Txn>)
    ensures forall t :: t in r <==> t in ts && Counts(t, u, category)
  {
    if ts == [] then []
    else
      var last := ts[|ts| - 1];
      assert ts == ts[..|ts| - 1] + [last];
      if Counts(last, u, category) then Matching(ts[..|ts| - 1], u, category) + [last]
      else Matching(ts[..|ts| - 1], u, category)
  }

  /** SQL `SUM(amount)`: NULL over no rows, the exact sum otherwise. */
  function SqlSum(ts: seq<Txn>): (r: Option<real>)
    ensures r.None? <==> ts == []
  {
    if ts == [] then None else Some(SumAmounts(ts))
  }

  /** `spent = SUM(...) or 0`: the NULL of an empty SUM falls back to 0, so
      spent is the plain sum of the matching amounts, and 0 when no row
      counts. */
  function Spent(ts: seq<Txn>, u: nat, category: string): (r: real)
    ensures r == SumAmounts(Matching(ts, u, category))
    ensures (forall t :: t in ts ==> !Counts(t, u, category)) ==> r == 0.0
  {
    var m := Matching(ts, u, category);
    assert m != [] ==> m[0] in m;
    match SqlSum(m)
    case None => 0.0
    case Some(v) => v
  }

  /** One more stored row adds its amount to a category's spending exactly
      when it is `u`'s, in that category, and typed exactly "Expense". */
  lemma SpentAfterAdd(ts: seq<Txn>, t: Txn, u: nat, category: string)
    ensures Spent(ts + [t], u, category)
            == Spent(ts, u, category) + (if Counts(t, u, category) then t.amount else 0.0)
  {
    assert (ts + [t])[..|ts|] == ts;
    var m := Matching(ts, u, category);
    if Counts(t, u, category) {
      assert (m + [t])[..|m|] == m;
    }
  }

  /** `SELECT category, amount FROM budgets WHERE user_id = ?`, in stored order. */
  function OwnedBudgets(bs: seq<Budget>, u: nat): (r: seq<Budget>)
    ensures |r| <= |bs|
    ensures forall b :: b in r <==> b in bs && b.userId == u
    ensures (forall i :: 0 <= i < |bs| ==> bs[i].userId == u) ==> r == bs
  {
    if bs == [] then []
    else
      var last := bs[|bs| - 1];
      assert bs == bs[..|bs| - 1] + [last];
      if last.userId == u then OwnedBudgets(bs[..|bs| - 1], u) + [last]
      else OwnedBudgets(bs[..|bs| - 1], u)
  }

  /** The user's rows of a longer budget table are the user's rows of the
      shorter one followed by the user's rows among the new ones: stored
      order is kept and no row is repeated or dropped. */
  lemma {:induction false} OwnedBudgetsConcat(a: seq<Budget>, b: seq<Budget>, u: nat)
    ensures OwnedBudgets(a + b, u) == OwnedBudgets(a, u) + OwnedBudgets(b, u)
  {
    if b == [] {
      assert a + b == a;
    } else {
      assert (a + b)[..|a + b| - 1] == a + b[..|b| - 1];
      OwnedBudgetsConcat(a, b[..|b| - 1], u);
    }
  }

  /** The verdict on one budget row: a warning when spent is strictly above
      the limit. */
  function Check(ts: seq<Txn>, u: nat, b: Budget): (r: Option<Warning>)
    ensures r.Some? <==> Spent(ts, u, b.category) > b.limit
    ensures r.Some? ==> r.value == Warning(b.category, Spent(ts, u, b.category), b.limit)
  {
    var spent := Spent(ts, u, b.category);
    if spent > b.limit then Some(Warning(b.category, spent, b.limit)) else None
  }

  /** The warnings `check_budget` prints for the budget rows `bs`: one per
      exceeded row, in row order, duplicate rows each giving their own. */
  function OverBudget(bs: seq<Budget>, ts: seq<Txn>, u: nat): (r: seq<Warning>)
    ensures |r| <= |bs|
    ensures forall i :: 0 <= i < |r| ==> r[i].spent > r[i].limit && r[i].spent == Spent(ts, u, r[i].category)
  {
    if bs == [] then []
    else
      var rest := OverBudget(bs[..|bs| - 1], ts, u);
      match Check(ts, u, bs[|bs| - 1])
      case None => rest
      case Some(w) => rest + [w]
  }

  /** The warnings for a longer list of budget rows extend those of a
      prefix: each row is judged on its own. */
  lemma {:induction false} OverBudgetConcat(a: seq<Budget>, b: seq<Budget>, ts: seq<Txn>, u: nat)
    ensures OverBudget(a + b, ts, u) == OverBudget(a, ts, u) + OverBudget(b, ts, u)
  {
    if b == [] {
      assert a + b == a;
    } else {
      assert (a + b)[..|a + b| - 1] == a + b[..|b| - 1];
      OverBudgetConcat(a, b[..|b| - 1], ts, u);
    }
  }

  /** A warning is printed for (category, spent, limit) exactly when some
      budget row has that category and limit and its category's spending is
      `spent`, strictly above the limit. */
  lemma {:induction false} OverBudgetMember(bs: seq<Budget>, ts: seq<Txn>, u: nat, w: Warning)
    ensures w in OverBudget(bs, ts, u) <==>
            exists b :: b in bs && b.category == w.category && b.limit == w.limit
                        && w.spent == Spent(ts, u, b.category) && w.spent > b.limit
  {
    if bs != [] {
      var init := bs[..|bs| - 1];
      var last := bs[|bs| - 1];
      assert bs == init + [last];
      OverBudgetMember(init, ts, u, w);
      if w in OverBudget(bs, ts, u) && w !in OverBudget(init, ts, u) {
        assert Check(ts, u, last) == Some(w);
      }
      if exists b :: b in bs && b.category == w.category && b.limit == w.limit
                     && w.spent == Spent(ts, u, b.category) && w.spent > b.limit {
        var b :| b in bs && b.category == w.category && b.limit == w.limit
                 && w.spent == Spent(ts, u, b.category) && w.spent > b.limit;
        if b !in init {
          assert b == last;
          assert Check(ts, u, last) == Some(w);
        }
      }
    }
  }

  /** Spending equal to the limit is not a warning; the one-budget example:
      a limit of 100 with 120 spent warns with (120, 100), with 80 spent
      prints nothing. */
  lemma SingleBudget(b: Budget, ts: seq<Txn>, u: nat)
    ensures Spent(ts, u, b.category) <= b.limit ==> OverBudget([b], ts, u) == []
    ensures Spent(ts, u, b.category) > b.limit ==>
              OverBudget([b], ts, u) == [Warning(b.category, Spent(ts, u, b.category), b.limit)]
  {
  }

  /** A budget set twice for one category: the two rows differ in id but
      agree on user, category and limit, and each is judged on its own, so
      the check gives the same verdict twice. */
  lemma DuplicateBudgets(bs: seq<Budget>, b1: Budget, b2: Budget, ts: seq<Txn>, u: nat)
    requires b1.userId == b2.userId && b1.category == b2.category && b1.limit == b2.limit
    ensures OverBudget(bs + [b1, b2], ts, u)
            == OverBudget(bs, ts, u) + OverBudget([b1], ts, u) + OverBudget([b1], ts, u)
  {
    OverBudgetConcat(bs, [b1, b2], ts, u);
    OverBudgetConcat([b1], [b2], ts, u);
    assert [b1] + [b2] == [b1, b2];
    assert Check(ts, u, b2) == Check(ts, u, b1);
  }
}
