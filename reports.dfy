/** The report engine: `SELECT type, SUM(amount) ... GROUP BY type`, then the
    case-folded selection of the "income" and "expense" groups. */
module Reports {
  import opened Records

  /** Adds one row to the running `GROUP BY type` result: the group whose key
      equals `kind` exactly grows by `amount`, or a new group is opened. */
  function AddToGroups(gs: seq<Group>, kind: string, amount: real): (r: seq<Group>)
    ensures |gs| <= |r| <= |gs| + 1
  {
    if gs == [] then [Group(kind, amount)]
    else if gs[0].kind == kind then [Group(kind, gs[0].total + amount)] + gs[1..]
    else [gs[0]] + AddToGroups(gs[1..], kind, amount)
  }

  /** The groups of the `GROUP BY type` query, keyed by the exact type string,
      in order of first appearance: at most one group per row, and at least
      one group when there is a row. */
  function GroupByKind(ts: seq<Txn>): (r: seq<Group>)
    ensures |r| <= |ts|
    ensures ts != [] ==> r != []
  {
    if ts == [] then []
    else AddToGroups(GroupByKind(ts[..|ts| - 1]), ts[|ts| - 1].kind, ts[|ts| - 1].amount)
  }

  /** Sum of the amounts of the rows whose type is exactly `kind`. */
  function KindSum(ts: seq<Txn>, kind: string): real
  {
    if ts == [] then 0.0
    else KindSum(ts[..|ts| - 1], kind) + (if ts[|ts| - 1].kind == kind then ts[|ts| - 1].amount else 0.0)
  }

  /** Row-level reference: the sum of the amounts of the rows whose
      lowercased type equals `target`. */
  function FoldedSum(ts: seq<Txn>, target: string): real
  {
    if ts == [] then 0.0
    else FoldedSum(ts[..|ts| - 1], target) + (if Lower(ts[|ts| - 1].kind) == target then ts[|ts| - 1].amount else 0.0)
  }

  /** `sum([s[1] for s in summary if s[0].lower() == target])`. */
  function GroupFoldedSum(gs: seq<Group>, target: string): (r: real)
    ensures (forall i :: 0 <= i < |gs| ==> Lower(gs[i].kind) != target) ==> r == 0.0
    ensures (forall i :: 0 <= i < |gs| ==> gs[i].total >= 0.0) ==> r >= 0.0
  {
    if gs == [] then 0.0
    else (if Lower(gs[0].kind) == target then gs[0].total else 0.0) + GroupFoldedSum(gs[1..], target)
  }

  /** The GROUP BY result is a correct tally: keys are distinct, each group's
      total is the sum of the rows with exactly that type, and the keys are
      exactly the types that occur. */
  ghost predicate Tallies(gs: seq<Group>, ts: seq<Txn>)
  {
    && (forall i, j :: 0 <= i < j < |gs| ==> gs[i].kind != gs[j].kind)
    && (forall i :: 0 <= i < |gs| ==> gs[i].total == KindSum(ts, gs[i].kind))
    && (forall t :: t in ts ==> HasGroup(gs, t.kind))
    && (forall i :: 0 <= i < |gs| ==> Occurs(ts, gs[i].kind))
  }

  predicate HasGroup(gs: seq<Group>, kind: string)
  {
    exists i :: 0 <= i < |gs| && gs[i].kind == kind
  }

  predicate Occurs(ts: seq<Txn>, kind: string)
  {
    exists t :: t in ts && t.kind == kind
  }

  lemma {:induction false} KindSumAbsent(ts: seq<Txn>, kind: string)
    requires forall t :: t in ts ==> t.kind != kind
    ensures KindSum(ts, kind) == 0.0
  {
    if ts != [] {
      KindSumAbsent(ts[..|ts| - 1], kind);
    }
  }

  /** A row whose type has no group yet opens a new group at the end. */
  lemma {:induction false} AddToGroupsNew(gs: seq<Group>, kind: string, amount: real)
    requires forall i :: 0 <= i < |gs| ==> gs[i].kind != kind
    ensures AddToGroups(gs, kind, amount) == gs + [Group(kind, amount)]
  {
    if gs != [] {
      AddToGroupsNew(gs[1..], kind, amount);
      assert gs == [gs[0]] + gs[1..];
    }
  }

  /** A row whose type already has a group (keys distinct) grows that group
      and leaves every other group in place. */
  lemma {:induction false} AddToGroupsExisting(gs: seq<Group>, kind: string, amount: real, k: nat)
    requires forall i, j :: 0 <= i < j < |gs| ==> gs[i].kind != gs[j].kind
    requires k < |gs| && gs[k].kind == kind
    ensures AddToGroups(gs, kind, amount) == gs[k := Group(kind, gs[k].total + amount)]
  {
    if k > 0 {
      assert gs[0].kind != kind;
      AddToGroupsExisting(gs[1..], kind, amount, k - 1);
      assert gs[1..][k - 1 := Group(kind, gs[k].total + amount)] == gs[k := Group(kind, gs[k].total + amount)][1..];
    }
  }

  lemma KindSumSnoc(ts: seq<Txn>, t: Txn, kind: string)
    ensures KindSum(ts + [t], kind) == KindSum(ts, kind) + (if t.kind == kind then t.amount else 0.0)
  {
  }

  /** Distinct keys and the per-key totals survive adding a row. */
  lemma AddToGroupsTotals(gs: seq<Group>, ts: seq<Txn>, t: Txn)
    requires Tallies(gs, ts)
    ensures var gs' := AddToGroups(gs, t.kind, t.amount);
      && (forall i, j :: 0 <= i < j < |gs'| ==> gs'[i].kind != gs'[j].kind)
      && (forall i :: 0 <= i < |gs'| ==> gs'[i].total == KindSum(ts + [t], gs'[i].kind))
  {
    var gs' := AddToGroups(gs, t.kind, t.amount);
    if HasGroup(gs, t.kind) {
      var k :| 0 <= k < |gs| && gs[k].kind == t.kind;
      AddToGroupsExisting(gs, t.kind, t.amount, k);
    } else {
      AddToGroupsNew(gs, t.kind, t.amount);
      assert !Occurs(ts, t.kind);
      KindSumAbsent(ts, t.kind);
    }
    forall i | 0 <= i < |gs'| ensures gs'[i].total == KindSum(ts + [t], gs'[i].kind) {
      KindSumSnoc(ts, t, gs'[i].kind);
    }
  }

  /** After adding a row, every row's type still has a group. */
  lemma AddToGroupsCoversRows(gs: seq<Group>, ts: seq<Txn>, t: Txn)
    requires Tallies(gs, ts)
    ensures forall x :: x in ts + [t] ==> HasGroup(AddToGroups(gs, t.kind, t.amount), x.kind)
  {
    var gs' := AddToGroups(gs, t.kind, t.amount);
    if HasGroup(gs, t.kind) {
      var k :| 0 <= k < |gs| && gs[k].kind == t.kind;
      AddToGroupsExisting(gs, t.kind, t.amount, k);
      assert gs'[k].kind == t.kind;
    } else {
      AddToGroupsNew(gs, t.kind, t.amount);
      assert gs'[|gs|].kind == t.kind;
    }
    forall x | x in ts + [t] ensures HasGroup(gs', x.kind) {
      if x != t {
        assert x in ts;
        var i :| 0 <= i < |gs| && gs[i].kind == x.kind;
        assert gs'[i].kind == x.kind;
      }
    }
  }

  /** After adding a row, every group still has a row of its type. */
  lemma AddToGroupsHasRows(gs: seq<Group>, ts: seq<Txn>, t: Txn)
    requires Tallies(gs, ts)
    ensures var gs' := AddToGroups(gs, t.kind, t.amount);
      forall i :: 0 <= i < |gs'| ==> Occurs(ts + [t], gs'[i].kind)
  {
    var gs' := AddToGroups(gs, t.kind, t.amount);
    if HasGroup(gs, t.kind) {
      var k :| 0 <= k < |gs| && gs[k].kind == t.kind;
      AddToGroupsExisting(gs, t.kind, t.amount, k);
    } else {
      AddToGroupsNew(gs, t.kind, t.amount);
    }
    assert t in ts + [t];
    forall i | 0 <= i < |gs'| ensures Occurs(ts + [t], gs'[i].kind) {
      if gs'[i].kind != t.kind {
        assert gs'[i] == gs[i];
        var x :| x in ts && x.kind == gs[i].kind;
        assert x in ts + [t];
      }
    }
  }

  /** GROUP BY tallies the rows it groups. */
  lemma {:induction false} GroupByKindTallies(ts: seq<Txn>)
    ensures Tallies(GroupByKind(ts), ts)
  {
    if ts != [] {
      var init, last := ts[..|ts| - 1], ts[|ts| - 1];
      GroupByKindTallies(init);
      var gs := GroupByKind(init);
      AddToGroupsTotals(gs, init, last);
      AddToGroupsCoversRows(gs, init, last);
      AddToGroupsHasRows(gs, init, last);
      assert init + [last] == ts;
      assert GroupByKind(ts) == AddToGroups(gs, last.kind, last.amount);
    }
  }

  /** Adding a row to the groups raises the folded sum by its amount exactly
      when its type folds to `target`. */
  lemma {:induction false} AddToGroupsFolded(gs: seq<Group>, kind: string, amount: real, target: string)
    ensures GroupFoldedSum(AddToGroups(gs, kind, amount), target)
            == GroupFoldedSum(gs, target) + (if Lower(kind) == target then amount else 0.0)
  {
    if gs != [] {
      if gs[0].kind == kind {
        assert ([Group(kind, gs[0].total + amount)] + gs[1..])[1..] == gs[1..];
      } else {
        AddToGroupsFolded(gs[1..], kind, amount, target);
        assert ([gs[0]] + AddToGroups(gs[1..], kind, amount))[1..] == AddToGroups(gs[1..], kind, amount);
      }
    }
  }

  /** Summing the groups whose key folds to `target` is the same as summing
      every row whose type folds to `target`. */
  lemma {:induction false} GroupFoldedSumIsRowSum(ts: seq<Txn>, target: string)
    ensures GroupFoldedSum(GroupByKind(ts), target) == FoldedSum(ts, target)
  {
    if ts != [] {
      GroupFoldedSumIsRowSum(ts[..|ts| - 1], target);
      AddToGroupsFolded(GroupByKind(ts[..|ts| - 1]), ts[|ts| - 1].kind, ts[|ts| - 1].amount, target);
    }
  }

  /** `generate_report(u)`. */
  function GenerateReport(ts: seq<Txn>, u: nat): (r: Report)
    ensures r.income == FoldedSum(Owned(ts, u), "income")
    ensures r.expense == FoldedSum(Owned(ts, u), "expense")
    ensures r.savings == r.income - r.expense
  {
    var summary := GroupByKind(Owned(ts, u));
    var income := GroupFoldedSum(summary, "income");
    var expense := GroupFoldedSum(summary, "expense");
    GroupFoldedSumIsRowSum(Owned(ts, u), "income");
    GroupFoldedSumIsRowSum(Owned(ts, u), "expense");
    Report(income, expense, income - expense)
  }

  /** How one more stored row changes the report: it adds to income or to
      expense when it is `u`'s and its type folds to that word; any other
      type (such as "Transfer") and any other user's row change nothing. */
  lemma ReportAfterAdd(ts: seq<Txn>, t: Txn, u: nat)
    ensures var before := GenerateReport(ts, u);
      var after := GenerateReport(ts + [t], u);
      var mine := t.userId == u;
      && after.income == before.income + (if mine && Lower(t.kind) == "income" then t.amount else 0.0)
      && after.expense == before.expense + (if mine && Lower(t.kind) == "expense" then t.amount else 0.0)
  {
  }

  /** An empty ledger reports zero income, expense and savings. */
  lemma ReportOfEmpty(u: nat)
    ensures GenerateReport([], u) == Report(0.0, 0.0, 0.0)
  {
  }

  /** Case folding of the spellings used in the examples below. */
  lemma LowerIncome()
    ensures Lower("Income") == "income" && Lower("INCOME") == "income"
  {
  }

  lemma LowerExpense()
    ensures Lower("Expense") == "expense"
  {
  }

  /** The worked example: rows typed "Income" 100, "Expense" 40 and
      "Income" 50 (or any spelling that folds to those words) give income
      150, expense 40 and savings 110, whatever the other columns hold. */
  lemma ReportExample(u: nat, a: Txn, b: Txn, c: Txn)
    requires a.userId == u && b.userId == u && c.userId == u
    requires Lower(a.kind) == "income" && Lower(b.kind) == "expense" && Lower(c.kind) == "income"
    requires a.amount == 100.0 && b.amount == 40.0 && c.amount == 50.0
    ensures GenerateReport([a, b, c], u) == Report(150.0, 40.0, 110.0)
  {
    assert [a, b, c][..2] == [a, b] && [a, b][..1] == [a] && [a][..0] == [];
    assert Owned([a, b, c], u) == [a, b, c];
    assert FoldedSum([a], "income") == 100.0;
    assert FoldedSum([a, b], "income") == 100.0;
    assert FoldedSum([a], "expense") == 0.0;
    assert FoldedSum([a, b], "expense") == 40.0;
  }

  /** Types that differ only in case (say "Income" and "INCOME") form
      separate groups. */
  lemma CaseVariantsGrouped(a: Txn, b: Txn)
    requires a.kind != b.kind
    ensures GroupByKind([a, b]) == [Group(a.kind, a.amount), Group(b.kind, b.amount)]
  {
    assert [a, b][..1] == [a];
    assert [a][..0] == [];
    assert GroupByKind([a]) == [Group(a.kind, a.amount)];
    assert AddToGroups([Group(a.kind, a.amount)], b.kind, b.amount) == [Group(a.kind, a.amount), Group(b.kind, b.amount)];
  }

  /** ... but both are folded into the income total. */
  lemma CaseVariantsFolded(u: nat, a: Txn, b: Txn)
    requires a.userId == u && b.userId == u
    requires Lower(a.kind) == "income" && Lower(b.kind) == "income"
    ensures GenerateReport([a, b], u).income == a.amount + b.amount
  {
    assert [a, b][..1] == [a] && [a][..0] == [];
    assert Owned([a, b], u) == [a, b];
    assert FoldedSum([a], "income") == a.amount;
  }
}
