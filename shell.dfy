/** The interactive shell: the main menu, the per-user menu entered by a
    successful login, and the loop that reads one choice at a time and runs
    the matching operation against the store. Console input is a script of
    commands; each command carries the menu choice and the answers to every
    prompt the chosen operation may ask. */
module Shell {
  import opened Records
  import opened Accounts
  import opened Ledger
  import opened Budgets
  import opened Reports
  import opened Finance

  datatype MenuState = MainMenu | UserMenu(uid: nat) | Exited

  /** The answers typed at an operation's prompts; each operation reads the
      fields it asks for. The amount arrives already parsed. */
  datatype Form = Form(username: string, password: string, kind: string, category: string, amount: real, date: string)

  datatype Command = Command(choice: string, form: Form)

  /** What the shell prints in answer to a command (menus and the welcome
      banner aside). */
  datatype Output =
    | Registered
    | UsernameExists
    | LoggedIn
    | InvalidCredentials
    | TransactionAdded
    | Listing(rows: seq<Row>)
    | Summary(report: Report)
    | BudgetSaved
    | BudgetWarnings(warnings: seq<Warning>)
    | InvalidChoice
    | Goodbye

  /** The menu state after one choice; `login` is what the login query
      answers for this command's credentials (it matters only for choice
      "2" in the main menu). Entering the user menu needs a truthy id, as
      in `if user_id:`. */
  function Step(s: MenuState, choice: string, login: Option<nat>): (r: MenuState)
    ensures r == Exited <==> s == Exited || (s == MainMenu && choice == "3")
    ensures r.UserMenu? <==>
              (s.UserMenu? && choice != "6") ||
              (s == MainMenu && choice == "2" && login.Some? && login.value != 0)
    ensures r.UserMenu? && !s.UserMenu? ==> login == Some(r.uid)
    ensures s.UserMenu? && r.UserMenu? ==> r.uid == s.uid
    ensures r == MainMenu <==>
              (s == MainMenu && choice != "3" && !(choice == "2" && login.Some? && login.value != 0)) ||
              (s.UserMenu? && choice == "6")
  {
    match s
    case MainMenu =>
      if choice == "1" then MainMenu
      else if choice == "2" then
        (if login.Some? && login.value != 0 then UserMenu(login.value) else MainMenu)
      else if choice == "3" then Exited
      else MainMenu
    case UserMenu(uid) =>
      if choice == "6" then MainMenu else UserMenu(uid)
    case Exited => Exited
  }

  /** Ids handed out by the store are positive, so on a valid store a
      successful login always moves the menu to that user's menu, and a
      failed one leaves it in the main menu. */
  lemma LoginEntersUserMenu(db: FinanceDb, name: string, password: string)
    requires db.Valid()
    ensures var login := Login(db.users, name, password);
      && (login.Some? ==> Step(MainMenu, "2", login) == UserMenu(login.value))
      && (login.None? ==> Step(MainMenu, "2", login) == MainMenu)
  {
  }

  /** The first `n` commands of `script` took the menu along `trace`, none
      of them issued after the exit. `seen[k]` is the users table command k
      saw, and `seen[n]` is the table after the last of them. */
  ghost predicate Follows(script: seq<Command>, trace: seq<MenuState>, seen: seq<seq<User>>, n: nat)
  {
    && n <= |script| && |seen| == n + 1 && |trace| == n + 1 && trace[0] == MainMenu
    && (forall k :: 0 <= k < n ==> trace[k] != Exited)
    && (forall k :: 0 <= k < n ==>
          trace[k + 1] == Step(trace[k], script[k].choice, Login(seen[k], script[k].form.username, script[k].form.password)))
  }

  /** How command `c`, issued in menu state `s`, changes the users table
      from `before` to `after`: a main-menu "1" with a name not yet taken
      appends one row with that name, that password and the id
      `base + |before| + 1` (the counter of a store whose counter runs
      `base` ahead of its row count); any other command leaves it as it was. */
  ghost predicate Registers(before: seq<User>, after: seq<User>, s: MenuState, c: Command, base: int)
  {
    if s == MainMenu && c.choice == "1" && !Taken(before, c.form.username) then
      && |after| == |before| + 1
      && after[|before|].id == base + |before| + 1
      && after == before + [User(after[|before|].id, c.form.username, c.form.password)]
    else after == before
  }

  /** Each of the first `n` commands took the users table from what it saw
      to what the next command saw. */
  ghost predicate Grows(script: seq<Command>, trace: seq<MenuState>, seen: seq<seq<User>>, n: nat, base: int)
  {
    && n <= |script| && |seen| == n + 1 && |trace| == n + 1
    && (forall k :: 0 <= k < n ==> Registers(seen[k], seen[k + 1], trace[k], script[k], base))
  }

  /** Running command `n` on the table `seen[n]`, leaving the table `users`. */
  lemma Advance(script: seq<Command>, trace: seq<MenuState>, seen: seq<seq<User>>, n: nat, base: int, users: seq<User>)
    requires Follows(script, trace, seen, n) && Grows(script, trace, seen, n, base)
    requires n < |script| && trace[n] != Exited
    requires Registers(seen[n], users, trace[n], script[n], base)
    ensures var next := Step(trace[n], script[n].choice, Login(seen[n], script[n].form.username, script[n].form.password));
      && Follows(script, trace + [next], seen + [users], n + 1)
      && Grows(script, trace + [next], seen + [users], n + 1, base)
  {
  }

  /** Two runs of the same commands from the same users table agree up to
      command `k`. */
  lemma {:induction false} AgreeAt(script: seq<Command>, t1: seq<MenuState>, s1: seq<seq<User>>,
                                   t2: seq<MenuState>, s2: seq<seq<User>>, n: nat, base: int, k: nat)
    requires Follows(script, t1, s1, n) && Grows(script, t1, s1, n, base)
    requires Follows(script, t2, s2, n) && Grows(script, t2, s2, n, base)
    requires s1[0] == s2[0] && k <= n
    ensures t1[k] == t2[k] && s1[k] == s2[k]
  {
    if k > 0 {
      AgreeAt(script, t1, s1, t2, s2, n, base, k - 1);
      assert Registers(s1[k - 1], s1[k], t1[k - 1], script[k - 1], base);
      assert Registers(s2[k - 1], s2[k], t2[k - 1], script[k - 1], base);
    }
  }

  /** The run is determined by the commands and the users table it starts
      from: a command cannot see a row that an earlier command has not
      registered. */
  lemma RunDetermined(script: seq<Command>, t1: seq<MenuState>, s1: seq<seq<User>>,
                      t2: seq<MenuState>, s2: seq<seq<User>>, n: nat, base: int)
    requires Follows(script, t1, s1, n) && Grows(script, t1, s1, n, base)
    requires Follows(script, t2, s2, n) && Grows(script, t2, s2, n, base)
    requires s1[0] == s2[0]
    ensures t1 == t2 && s1 == s2
  {
    forall k | 0 <= k <= n
      ensures t1[k] == t2[k] && s1[k] == s2[k]
    {
      AgreeAt(script, t1, s1, t2, s2, n, base, k);
    }
  }

  /** One choice of the user menu other than "6": the operation it names,
      run for `uid`, and what it prints. */
  method UserCommand(db: FinanceDb, uid: nat, c: Command, today: string) returns (o: Output)
    requires db.Valid() && db.Ready() && c.choice != "6"
    modifies db
    ensures db.Valid() && db.Ready()
    ensures db.users == old(db.users) && db.userSeq == old(db.userSeq)
    ensures db.txnSeq == old(db.txnSeq) + (if c.choice == "1" then 1 else 0)
    ensures db.budgetSeq == old(db.budgetSeq) + (if c.choice == "4" then 1 else 0)
    ensures c.choice == "1" ==>
              && db.txns == old(db.txns) + [Txn(old(db.txnSeq) + 1, uid, c.form.kind, c.form.category, c.form.amount,
                                                if c.form.date == "" then today else c.form.date)]
              && o == TransactionAdded
    ensures c.choice == "4" ==>
              && db.budgets == old(db.budgets) + [Budget(old(db.budgetSeq) + 1, uid, c.form.category, c.form.amount)]
              && o == BudgetSaved
    ensures c.choice != "1" ==> db.txns == old(db.txns)
    ensures c.choice != "4" ==> db.budgets == old(db.budgets)
    ensures c.choice == "2" ==> o == Listing(View(db.txns, uid))
    ensures c.choice == "3" ==> o == Summary(GenerateReport(db.txns, uid))
    ensures c.choice == "5" ==> o == BudgetWarnings(OverBudget(OwnedBudgets(db.budgets, uid), db.txns, uid))
    ensures c.choice !in {"1", "2", "3", "4", "5"} ==> o == InvalidChoice
  {
    if c.choice == "1" {
      db.AddTransaction(uid, c.form.kind, c.form.category, c.form.amount, c.form.date, today);
      o := TransactionAdded;
    } else if c.choice == "2" {
      o := Listing(View(db.txns, uid));
    } else if c.choice == "3" {
      o := Summary(GenerateReport(db.txns, uid));
    } else if c.choice == "4" {
      db.SetBudget(uid, c.form.category, c.form.amount);
      o := BudgetSaved;
    } else if c.choice == "5" {
      var warnings := db.CheckBudget(uid);
      o := BudgetWarnings(warnings);
    } else {
      o := InvalidChoice;
    }
  }

  /** The inner `while True` loop of `main`: the user menu of `uid`, run from
      command `start` until "6" (or until the script runs out). No command
      here registers a user, so every command sees the table as it was. */
  method UserSession(db: FinanceDb, script: seq<Command>, start: nat, uid: nat, today: string,
                     ghost trace0: seq<MenuState>, ghost seen0: seq<seq<User>>, ghost base: int)
    returns (i: nat, out: seq<Output>, state: MenuState, ghost trace: seq<MenuState>, ghost seen: seq<seq<User>>)
    requires db.Valid() && db.Ready()
    requires Follows(script, trace0, seen0, start) && Grows(script, trace0, seen0, start, base)
    requires trace0[start] == UserMenu(uid) && seen0[start] == db.users
    modifies db
    ensures db.Valid() && db.Ready()
    ensures db.users == old(db.users) && db.userSeq == old(db.userSeq)
    ensures start <= i && Follows(script, trace, seen, i) && Grows(script, trace, seen, i, base) && trace[i] == state
    ensures trace[..start + 1] == trace0 && seen[..start + 1] == seen0
    ensures forall k :: start <= k <= i ==> seen[k] == db.users
    ensures forall k :: start <= k < i ==> trace[k] == UserMenu(uid)
    ensures state == MainMenu || (state == UserMenu(uid) && i == |script|)
    ensures old(db.txns) <= db.txns && old(db.budgets) <= db.budgets
  {
    i, out, state, trace, seen := start, [], UserMenu(uid), trace0, seen0;
    while i < |script|
      invariant db.Valid() && db.Ready() && db.users == old(db.users) && db.userSeq == old(db.userSeq)
      invariant start <= i && Follows(script, trace, seen, i) && Grows(script, trace, seen, i, base) && trace[i] == state
      invariant trace[..start + 1] == trace0 && seen[..start + 1] == seen0
      invariant forall k :: start <= k <= i ==> seen[k] == db.users
      invariant forall k :: start <= k < i ==> trace[k] == UserMenu(uid)
      invariant state == UserMenu(uid)
      invariant old(db.txns) <= db.txns && old(db.budgets) <= db.budgets
      decreases |script| - i
    {
      var c := script[i];
      Advance(script, trace, seen, i, base, db.users);
      trace, seen := trace + [Step(state, c.choice, Login(db.users, c.form.username, c.form.password))], seen + [db.users];
      i := i + 1;
      assert Follows(script, trace, seen, i) && Grows(script, trace, seen, i, base);
      if c.choice == "6" {
        state := MainMenu;
        break;
      }
      var o := UserCommand(db, uid, c, today);
      out := out + [o];
    }
  }

  /** One pass of the main-menu loop: reads command `n` and runs it, entering
      the user menu when it is a successful login. */
  method MainCommand(db: FinanceDb, script: seq<Command>, n: nat, today: string,
                     ghost trace0: seq<MenuState>, ghost seen0: seq<seq<User>>, ghost base: int)
    returns (n': nat, out: seq<Output>, state: MenuState, ghost trace: seq<MenuState>, ghost seen: seq<seq<User>>)
    requires db.Valid() && db.Ready() && db.userSeq == base + |db.users|
    requires Follows(script, trace0, seen0, n) && Grows(script, trace0, seen0, n, base)
    requires n < |script| && trace0[n] == MainMenu && seen0[n] == db.users
    modifies db
    ensures db.Valid() && db.Ready() && db.userSeq == base + |db.users|
    ensures n < n' && Follows(script, trace, seen, n') && Grows(script, trace, seen, n', base) && trace[n'] == state
    ensures trace[..n + 1] == trace0 && seen[..n + 1] == seen0
    ensures n' == n + 1 || (script[n].choice == "2" && forall k :: n < k < n' ==> trace[k].UserMenu?)
    ensures seen[0] == seen0[0] && seen[n'] == db.users && old(db.users) <= db.users
    ensures old(db.txns) <= db.txns && old(db.budgets) <= db.budgets
    ensures state == MainMenu || state == Exited || n' == |script|
  {
    var cmd := script[n];
    ghost var before := db.users;
    ghost var after := if cmd.choice == "1" && !Taken(before, cmd.form.username)
                       then before + [User(db.userSeq + 1, cmd.form.username, cmd.form.password)]
                       else before;
    assert Registers(before, after, MainMenu, cmd, base);
    Advance(script, trace0, seen0, n, base, after);
    trace, seen := trace0 + [Step(MainMenu, cmd.choice, Login(before, cmd.form.username, cmd.form.password))], seen0 + [after];
    n', state := n + 1, MainMenu;
    assert trace[..n + 1] == trace0 && seen[..n + 1] == seen0;
    if cmd.choice == "1" {
      var ok := db.Register(cmd.form.username, cmd.form.password);
      out := [if ok then Registered else UsernameExists];
    } else if cmd.choice == "2" {
      var userId := Login(db.users, cmd.form.username, cmd.form.password);
      out := [if userId.Some? then LoggedIn else InvalidCredentials];
      if userId.Some? && userId.value != 0 {
        var session;
        ghost var trace1, seen1 := trace, seen;
        n', session, state, trace, seen := UserSession(db, script, n', userId.value, today, trace, seen, base);
        assert trace[..n + 1] == trace1[..n + 1] && seen[..n + 1] == seen1[..n + 1];
        out := out + session;
      }
    } else if cmd.choice == "3" {
      out := [Goodbye];
      state := Exited;
    } else {
      out := [InvalidChoice];
    }
  }

  /** `main`: initialise the store, then run the main menu until "3" (or
      until the script runs out), entering the user menu after each
      successful login; `n` is the number of commands read. The ghost
      `trace` records the menu state before and after each command and
      `seen` the users table each command saw: it starts as the table the
      store held, each command takes it to the next one by `Registers`, and
      each transition is a `Step` with the login answer computed on the
      table that command saw. */
  method RunShell(db: FinanceDb, script: seq<Command>, today: string)
    returns (n: nat, out: seq<Output>, state: MenuState, ghost trace: seq<MenuState>, ghost seen: seq<seq<User>>)
    requires db.Valid()
    modifies db
    ensures db.Valid() && db.Ready()
    ensures Follows(script, trace, seen, n) && trace[n] == state
    ensures Grows(script, trace, seen, n, old(db.userSeq) - |old(db.users)|)
    ensures seen[0] == old(db.users) && seen[n] == db.users && old(db.users) <= db.users
    ensures db.userSeq - |db.users| == old(db.userSeq) - |old(db.users)|
    ensures old(db.txns) <= db.txns && old(db.budgets) <= db.budgets
    ensures state == Exited || n == |script|
  {
    db.InitDb();
    ghost var base := db.userSeq - |db.users|;
    out, state, trace, seen := [], MainMenu, [MainMenu], [db.users];
    n := 0;
    while state == MainMenu && n < |script|
      invariant db.Valid() && db.Ready() && db.userSeq == base + |db.users|
      invariant Follows(script, trace, seen, n) && Grows(script, trace, seen, n, base) && trace[n] == state
      invariant seen[0] == old(db.users) && seen[n] == db.users && old(db.users) <= db.users
      invariant old(db.txns) <= db.txns && old(db.budgets) <= db.budgets
      invariant state == MainMenu || state == Exited || n == |script|
      decreases |script| - n
    {
      var more;
      n, more, state, trace, seen := MainCommand(db, script, n, today, trace, seen, base);
      out := out + more;
    }
  }
}
