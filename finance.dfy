/** The finance store: the three tables as sequences of rows, each with the
    counter its AUTOINCREMENT id comes from, and the statements that insert
    into them or read them row by row. */
module Finance {
  import opened Records
  import opened Accounts
  import opened Budgets
  import Reports

  datatype Table = UsersTable | TransactionsTable | BudgetsTable

  /** Ids drawn from an AUTOINCREMENT counter that has reached `top`:
      positive, no larger than `top`, strictly increasing in row order. */
  ghost predicate UserIdsIssued(users: seq<User>, top: nat)
  {
    && (forall i :: 0 <= i < |users| ==> 1 <= users[i].id <= top)
    && (forall i, j :: 0 <= i < j < |users| ==> users[i].id < users[j].id)
  }

  ghost predicate TxnIdsIssued(txns: seq<Txn>, top: nat)
  {
    && (forall i :: 0 <= i < |txns| ==> 1 <= txns[i].id <= top)
    && (forall i, j :: 0 <= i < j < |txns| ==> txns[i].id < txns[j].id)
  }

  ghost predicate BudgetIdsIssued(budgets: seq<Budget>, top: nat)
  {
    && (forall i :: 0 <= i < |budgets| ==> 1 <= budgets[i].id <= top)
    && (forall i, j :: 0 <= i < j < |budgets| ==> budgets[i].id < budgets[j].id)
  }

  class FinanceDb {
    /** The tables the database file holds. */
    var tables: set<Table>
    var users: seq<User>
    var txns: seq<Txn>
    var budgets: seq<Budget>
    /** The largest id each table has handed out (its AUTOINCREMENT sequence). */
    var userSeq: nat
    var txnSeq: nat
    var budgetSeq: nat

    /** A missing table has no rows; usernames are unique; every table's ids
        are positive, strictly increasing in row order, and no larger than
        its counter. */
    ghost predicate Valid()
      reads this
    {
      && (UsersTable !in tables ==> |users| == 0 && userSeq == 0)
      && (TransactionsTable !in tables ==> |txns| == 0 && txnSeq == 0)
      && (BudgetsTable !in tables ==> |budgets| == 0 && budgetSeq == 0)
      && UniqueNames(users)
      && UserIdsIssued(users, userSeq)
      && TxnIdsIssued(txns, txnSeq)
      && BudgetIdsIssued(budgets, budgetSeq)
    }

    /** All three tables exist: what every statement after `init_db` relies on. */
    predicate Ready()
      reads this
    {
      UsersTable in tables && TransactionsTable in tables && BudgetsTable in tables
    }

    /** Connecting to a database file that holds no tables yet. */
    constructor Open()
      ensures Valid() && tables == {}
      ensures users == [] && txns == [] && budgets == []
    {
      tables := {};
      users, txns, budgets := [], [], [];
      userSeq, txnSeq, budgetSeq := 0, 0, 0;
    }

    /** `init_db`: each `CREATE TABLE IF NOT EXISTS` adds a missing table and
        leaves an existing one, rows and counter, as it is; running it again
        changes nothing. */
    method InitDb()
      requires Valid()
      modifies this
      ensures Valid() && Ready()
      ensures users == old(users) && txns == old(txns) && budgets == old(budgets)
      ensures userSeq == old(userSeq) && txnSeq == old(txnSeq) && budgetSeq == old(budgetSeq)
    {
      if UsersTable !in tables {
        tables := tables + {UsersTable};
      }
      if TransactionsTable !in tables {
        tables := tables + {TransactionsTable};
      }
      if BudgetsTable !in tables {
        tables := tables + {BudgetsTable};
      }
    }

    /** `register`: the INSERT succeeds and appends a user with the next id,
        or the UNIQUE constraint refuses it and nothing changes (the refused
        statement does not consume an id). */
    method Register(username: string, password: string) returns (ok: bool)
      requires Valid() && Ready()
      modifies this
      ensures Valid() && Ready()
      ensures ok <==> !Taken(old(users), username)
      ensures ok ==> users == old(users) + [User(old(userSeq) + 1, username, password)]
                     && userSeq == old(userSeq) + 1
      ensures ok ==> forall i :: 0 <= i < |old(users)| ==> old(users)[i].id < users[|users| - 1].id
      ensures !ok ==> users == old(users) && userSeq == old(userSeq)
      ensures txns == old(txns) && budgets == old(budgets)
      ensures txnSeq == old(txnSeq) && budgetSeq == old(budgetSeq)
    {
      ok := !Taken(users, username);
      if ok {
        userSeq := userSeq + 1;
        users := users + [User(userSeq, username, password)];
      }
    }

    /** `add_transaction`: appends one row with the next id; an empty date
        entry is replaced by today's date. */
    method AddTransaction(userId: nat, kind: string, category: string, amount: real, date: string, today: string)
      requires Valid() && Ready()
      modifies this
      ensures Valid() && Ready()
      ensures txns == old(txns) + [Txn(old(txnSeq) + 1, userId, kind, category, amount,
                                       if date == "" then today else date)]
      ensures txnSeq == old(txnSeq) + 1
      ensures users == old(users) && budgets == old(budgets)
      ensures userSeq == old(userSeq) && budgetSeq == old(budgetSeq)
    {
      var stamped := if date != "" then date else today;
      txnSeq := txnSeq + 1;
      txns := txns + [Txn(txnSeq, userId, kind, category, amount, stamped)];
    }

    /** `set_budget`: always appends a new budget row, even when the user
        already has one for that category. */
    method SetBudget(userId: nat, category: string, limit: real)
      requires Valid() && Ready()
      modifies this
      ensures Valid() && Ready()
      ensures budgets == old(budgets) + [Budget(old(budgetSeq) + 1, userId, category, limit)]
      ensures budgetSeq == old(budgetSeq) + 1
      ensures users == old(users) && txns == old(txns)
      ensures userSeq == old(userSeq) && txnSeq == old(txnSeq)
    {
      budgetSeq := budgetSeq + 1;
      budgets := budgets + [Budget(budgetSeq, userId, category, limit)];
    }

    /** `check_budget`: walks the user's budget rows, runs the spending query
        for each, and collects a warning for every row whose spending is
        strictly above its limit. Changes no table. */
    method CheckBudget(userId: nat) returns (warnings: seq<Warning>)
      requires Ready()
      ensures warnings == OverBudget(OwnedBudgets(budgets, userId), txns, userId)
    {
      var rows := OwnedBudgets(budgets, userId);
      warnings := [];
      for i := 0 to |rows|
        invariant warnings == OverBudget(rows[..i], txns, userId)
      {
        var category, limit := rows[i].category, rows[i].limit;
        var spent := match SqlSum(Matching(txns, userId, category))
                     case None => 0.0
                     case Some(v) => v;
        if spent > limit {
          warnings := warnings + [Warning(category, spent, limit)];
        }
        assert rows[..i + 1][..i] == rows[..i];
      }
      assert rows[..|rows|] == rows;
    }
  }

  /** The store's case asymmetry: a row whose type folds to "expense" but
      is not exactly "Expense" (say "expense" or "EXPENSE") raises the
      report's expense total by its amount but leaves every budget's
      spending as it was. */
  lemma ExpenseCaseAsymmetry(ts: seq<Txn>, t: Txn, u: nat)
    requires t.userId == u && Lower(t.kind) == "expense" && t.kind != "Expense"
    ensures Reports.GenerateReport(ts + [t], u).expense == Reports.GenerateReport(ts, u).expense + t.amount
    ensures forall category :: Spent(ts + [t], u, category) == Spent(ts, u, category)
  {
  }
}
