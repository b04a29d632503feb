# Personal finance manager, modelled in Dafny

A model of a small personal-finance command-line program. Users register
and log in. They record income and expense transactions and list them. They
get a report of total income, total expense and savings. They set
spending limits per category and check which limits are exceeded. The
program keeps everything in three SQLite tables: `users`, `transactions`
and `budgets`.

Here the database is the class `Finance.FinanceDb`. It holds the three
tables as sequences of rows, each with the counter its `AUTOINCREMENT` ids
come from. Its invariant `Valid()` says usernames are unique. It also says
each table's ids are positive, strictly increasing and no larger than the
counter, and that a table not yet created is empty.

- The statements that change the store (`register`, `add_transaction`,
  `set_budget`, `init_db`) are methods. They modify the store and state the
  whole new state.
- The per-row loop of `check_budget` is a method proved against the
  function `Budgets.OverBudget`.
- The pure queries are functions with lemmas: login, the listing, the
  grouped report, and spending per category.
- The two nested menu loops of `main` are the methods `Shell.RunShell`,
  `Shell.MainCommand` (one pass of the outer loop) and `Shell.UserSession`.
  A ghost trace records the menu state and the users table around each
  command. Each menu transition is `Shell.Step` applied to the login answer
  on the table that command saw. The table starts as the store's and only a
  main-menu registration changes it (`Shell.Registers`). `Shell.RunDetermined`
  shows these facts fix the whole trace.

Modules: `Records` (rows, case folding, sums), `Accounts`, `Ledger`,
`Reports`, `Budgets`, `Finance` (the store class) and `Shell`.

Amounts are exact `real`s. Today's date is a parameter. Console input is
a script of `Shell.Command`s; each holds the menu choice and the answers to
every prompt the chosen operation may ask.

## Model

| member | source | states |
|---|---|---|
| `Finance.FinanceDb.Open` | InnobyteProject.py:7 | connecting to a new database file gives a valid store with no tables and no rows |
| `Finance.FinanceDb.InitDb` | InnobyteProject.py:6-31 | `CREATE TABLE IF NOT EXISTS` for the three tables: afterwards all three exist, and every row and id counter is exactly as before, so running it again changes nothing |
| `Finance.FinanceDb.Register` | InnobyteProject.py:34-46 | succeeds iff the username is not already in `users`. On success it appends exactly one row `(counter+1, username, password)`, whose id is larger than every earlier id. On failure no table or counter changes. Usernames stay unique |
| `Records.Lower` | InnobyteProject.py:92-93 | `.lower()` on the type: same length, every upper-case ASCII letter replaced by its lower-case letter, every other character kept |
| `Records.Owned` | InnobyteProject.py:80 | `WHERE user_id = ?`: a transaction is kept iff it is in the table and belongs to the user, and no more rows come out than went in |
| `Accounts.Taken` | InnobyteProject.py:11 | the UNIQUE check: true iff some existing row carries the username |
| `Accounts.Login` | InnobyteProject.py:53-61 | returns Some iff some row matches both username and password, and then the id of a matching row; otherwise None |
| `Accounts.LoginExact` | InnobyteProject.py:53-61 | with unique usernames, login with a stored name gives that row's id exactly when the password matches, and None when it does not. An unknown name also gives None (`Login`), so the two failures cannot be told apart |
| `Accounts.LoginAfterRegister` | InnobyteProject.py:40 | after a successful registration usernames are still unique, and the new credentials log in to the new id |
| `Accounts.SecondRegisterRefused` | InnobyteProject.py:40-44 | once a name is registered a second registration of it is refused, while a different fresh name is still accepted |
| `Finance.FinanceDb.AddTransaction` | InnobyteProject.py:64-75 | appends exactly one row with the next id and the given user, type, category and amount. The date is the entered string, or today's date when the entry is empty. Users, budgets and every earlier transaction are unchanged |
| `Ledger.View` | InnobyteProject.py:80-84 | the listing has a row `(type, category, amount, date)` iff some stored transaction of that user has those values verbatim |
| `Ledger.ViewConcat` | InnobyteProject.py:80 | listings keep stored order: the listing of a ledger extended by new rows is the old listing followed by the listing of the new rows |
| `Ledger.ViewOfAdded` | InnobyteProject.py:71-84 | rows added for the user appear in the listing one for one and in order, so n additions to an empty ledger list n entries |
| `Ledger.ViewIgnoresOthers` | InnobyteProject.py:80 | another user's row never changes a user's listing |
| `Reports.GroupByKind` | InnobyteProject.py:90 | `GROUP BY type` yields at most one group per row, and at least one group when the user has a row |
| `Reports.GroupByKindTallies` | InnobyteProject.py:90 | the GROUP BY result has distinct keys compared exactly. Each group's total is the sum of the rows with exactly that type. Its keys are exactly the types that occur |
| `Reports.GroupFoldedSum` | InnobyteProject.py:92-93 | the sum over the groups whose key lowercases to the target is 0 when no key does, and is never negative when no group total is |
| `Reports.GroupFoldedSumIsRowSum` | InnobyteProject.py:90-93 | summing the groups whose key lowercases to a word equals summing every row whose type lowercases to that word |
| `Reports.GenerateReport` | InnobyteProject.py:87-98 | income is the sum of the user's rows whose lowercased type is "income". Expense is the same for "expense". Savings is income minus expense |
| `Reports.ReportAfterAdd` | InnobyteProject.py:90-94 | one more row adds its amount to income (or expense) exactly when it is the user's and its type folds to that word. Other types such as "Transfer", and other users' rows, change neither total |
| `Reports.ReportOfEmpty` | InnobyteProject.py:92-94 | an empty ledger reports income, expense and savings of 0 |
| `Reports.ReportExample` | InnobyteProject.py:90-94 | income 100, expense 40 and income 50 give income 150, expense 40 and savings 110 |
| `Reports.LowerIncome` | InnobyteProject.py:92 | "Income" and "INCOME" both lowercase to "income" |
| `Reports.LowerExpense` | InnobyteProject.py:93 | "Expense" lowercases to "expense" |
| `Reports.CaseVariantsGrouped` | InnobyteProject.py:90 | two types that differ (say only in case) form two separate groups, in order of first appearance |
| `Reports.CaseVariantsFolded` | InnobyteProject.py:92 | two rows whose types both lowercase to "income" are both counted in income |
| `Finance.FinanceDb.SetBudget` | InnobyteProject.py:101-109 | always appends a new budget row with the next id, even when one exists for the category. The other tables are unchanged |
| `Budgets.OwnedBudgets` | InnobyteProject.py:114-115 | the budget rows the check walks are exactly the user's rows, duplicates included; when every row is the user's, they are the table itself |
| `Budgets.OwnedBudgetsConcat` | InnobyteProject.py:114-115 | the user's rows of a longer table are the user's rows of the shorter table followed by the user's rows among the new ones, so stored order is kept and no row is repeated or dropped |
| `Budgets.Matching` | InnobyteProject.py:118 | `WHERE user_id = ? AND category = ? AND type = 'Expense'`: a transaction matches iff it is in the table, is the user's, and has exactly that category and exactly the type "Expense" |
| `Budgets.SqlSum` | InnobyteProject.py:118-120 | `SUM(amount)` is NULL exactly when no row matches |
| `Budgets.Spent` | InnobyteProject.py:118-120 | `spent` (the SUM, or 0 for NULL) is the sum of the amounts of the user's rows in exactly that category with type exactly "Expense", and 0 when none match |
| `Budgets.SpentAfterAdd` | InnobyteProject.py:118-119 | one more row adds its amount to a category's spending iff it is the user's, in exactly that category, with type exactly "Expense" |
| `Budgets.Check` | InnobyteProject.py:120-122 | a budget row warns iff spent is strictly greater than its limit. The warning carries the category, the spent amount and the limit |
| `Budgets.OverBudget` | InnobyteProject.py:116-122 | at most one warning per budget row, and every warning's spent is its category's spending and strictly above its limit |
| `Budgets.OverBudgetConcat` | InnobyteProject.py:116-122 | each budget row is judged on its own, in row order: the warnings for concatenated rows are the concatenated warnings |
| `Budgets.OverBudgetMember` | InnobyteProject.py:116-122 | a warning (category, spent, limit) is printed iff some budget row has that category and limit and spent is its category's spending, strictly above the limit |
| `Budgets.SingleBudget` | InnobyteProject.py:121-122 | one budget: spending at or below the limit gives no warning; above it gives exactly one warning carrying the spending and the limit |
| `Budgets.DuplicateBudgets` | InnobyteProject.py:104-122 | a budget set twice for one category gives two rows that differ only in id; each is evaluated on its own, with identical verdicts |
| `Finance.FinanceDb.CheckBudget` | InnobyteProject.py:111-123 | the loop returns exactly the `OverBudget` warnings for the user's budget rows in stored order. It changes nothing |
| `Finance.ExpenseCaseAsymmetry` | InnobyteProject.py:92-93 | a row whose type folds to "expense" but is not exactly "Expense" raises the report's expense total, yet leaves every budget's spending unchanged (the budget query at :118 compares the type exactly) |
| `Shell.Step` | InnobyteProject.py:129-158 | the menu reaches Exited only on "3" in the main menu. The user menu is entered only by "2" with a truthy login id (and then for that id), and is kept on any choice but "6", with the same id. "6" returns to the main menu. Every other main-menu input, including unrecognised ones and failed logins, stays in the main menu |
| `Shell.LoginEntersUserMenu` | InnobyteProject.py:135-137 | on a valid store ids are positive, so a successful login always enters that user's menu and a failed one stays in the main menu |
| `Shell.UserCommand` | InnobyteProject.py:138-153 | one user-menu choice other than "6": "1" appends one transaction with the next id and the entered date (today when empty), "4" appends one budget row with the next id, and no other choice changes a table; the transaction counter advances only on "1" and the budget counter only on "4", by one; the users table and its counter never change. It prints `TransactionAdded`, the user's listing, the report, `BudgetSaved`, the `OverBudget` warnings for the user's budget rows, or `InvalidChoice` |
| `Shell.UserSession` | InnobyteProject.py:137-153 | the inner loop stays in the user's menu for every command until the first "6", which returns to the main menu, or until end of input. Every transition follows `Step`, the earlier trace is kept, every command sees the users table unchanged, and the transactions and budgets tables only grow |
| `Shell.MainCommand` | InnobyteProject.py:130-158 | one pass of the outer loop: it consumes exactly one command, or, after a successful "2", that command and the user-menu commands up to the first "6". The transition is `Step` on the login answer for the table the command saw, the table after it follows `Registers`, and the earlier trace is kept |
| `Shell.RunShell` | InnobyteProject.py:126-158 | initialises the store, then runs until Exit or end of input. The trace starts from the store's users table. Each command's transition is `Step` applied to the login answer on the table that command saw. Each command takes that table to the next by `Registers`: only a main-menu "1" with a fresh name changes it, appending one row with the next id. The store stays valid, and the final table extends the initial one |
| `Shell.RunDetermined` | InnobyteProject.py:129-158 | two traces of the same commands from the same users table that both follow `Step` and `Registers` are identical, so no command can log in with a row that has not yet been registered |

## Left out

- The SQLite engine and connection handling (connect, commit, close) are not modelled. Each statement is a function or method on the in-memory tables. Foreign keys are declared but never enforced, and the model does not enforce them either.
- Console I/O (`input`, `getpass`, `print`, the menu text and the welcome banner) is not modelled. Prompt answers are fields of `Shell.Form`. Printed results are `Shell.Output` values; a budget check is one `BudgetWarnings` output listing its warning lines.
- `Shell.UserSession` and `Shell.MainCommand`: their contracts say only that the transactions and budgets tables grow, not which rows they gain (that is stated per command by `Shell.UserCommand` and the store's methods), and they do not describe the printed output `out`.
- `Shell.RunShell`: its contract covers the menu-state trace, the users table each command saw and the store invariant, not the printed transcript `out` nor the transactions and budgets tables along the way.
- `float(...)` parsing and its uncaught `ValueError` are not modelled. Amounts arrive already parsed, so the crash on a non-numeric amount is not represented.
- `datetime.date.today()` is the `today` parameter of `AddTransaction` and `RunShell`. A run of `RunShell` uses one date for every transaction it adds, whereas the program reads the clock at each `add_transaction`, so a session that runs past midnight would stamp two different dates there.
- SQLite `REAL` storage and floating-point rounding of `SUM` are not modelled. Amounts and sums are exact reals.
- Python's `str.lower()` is modelled by ASCII-only folding (`Records.Lower`). Unicode letters are not folded. This cannot change whether a type lowercases to "income" or "expense": the only non-ASCII character Python lowers to a plain ASCII letter is the Kelvin sign, which lowers to "k", and neither word contains a "k".
- The order of the `GROUP BY` result rows is not modelled. Groups appear in order of first occurrence, and the report only adds them up, so the order does not affect it.
- The run of `main` ends when the script of commands runs out; the program would instead fail on end of input.
- Password hashing and concurrent access are not modelled; the program has neither.
