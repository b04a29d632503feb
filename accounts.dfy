/** The account manager: the UNIQUE check on `users.username` that makes
    `register` fail, and the credential lookup behind `login`. */
module Accounts {
  import opened Records

  /** No two rows of `users` share a username (the UNIQUE column). */
  ghost predicate UniqueNames(users: seq<User>)
  {
    forall i, j :: 0 <= i < j < |users| ==> users[i].username != users[j].username
  }

  /** Whether inserting `name` violates the UNIQUE constraint. */
  function Taken(users: seq<User>, name: string): (r: bool)
    ensures r <==> exists i :: 0 <= i < |users| && users[i].username == name
  {
    if users == [] then false
    else users[0].username == name || Taken(users[1..], name)
  }

  /** `SELECT id FROM users WHERE username = ? AND password = ?` followed by
      `fetchone()`: the id of the first row matching both fields, or None. */
  function Login(users: seq<User>, name: string, password: string): (r: Option<nat>)
    ensures r.Some? <==> exists i :: 0 <= i < |users| && users[i].username == name && users[i].password == password
    ensures r.Some? ==> exists i :: 0 <= i < |users| && users[i].username == name && users[i].password == password && users[i].id == r.value
  {
    if users == [] then None
    else if users[0].username == name && users[0].password == password then Some(users[0].id)
    else Login(users[1..], name, password)
  }

  /** With unique usernames, login answers with the id of the one row that
      carries the name exactly when its password matches; an unknown name and
      a wrong password both give None. */
  lemma LoginExact(users: seq<User>, k: nat, password: string)
    requires UniqueNames(users)
    requires k < |users|
    ensures Login(users, users[k].username, password)
            == if users[k].password == password then Some(users[k].id) else None
  {
  }

  /** A successful registration makes the new credentials log in to the new id. */
  lemma LoginAfterRegister(users: seq<User>, id: nat, name: string, password: string)
    requires UniqueNames(users)
    requires !Taken(users, name)
    ensures UniqueNames(users + [User(id, name, password)])
    ensures Login(users + [User(id, name, password)], name, password) == Some(id)
  {
    var users' := users + [User(id, name, password)];
    assert users'[|users|] == User(id, name, password);
    LoginExact(users', |users|, password);
  }

  /** Registering a name twice leaves exactly one row with that name: the
      second insert is refused, and any other fresh name is accepted. */
  lemma SecondRegisterRefused(users: seq<User>, id: nat, name: string, password: string, other: string)
    requires !Taken(users, name)
    requires other != name && !Taken(users, other)
    ensures Taken(users + [User(id, name, password)], name)
    ensures !Taken(users + [User(id, name, password)], other)
  {
    assert (users + [User(id, name, password)])[|users|].username == name;
  }
}
