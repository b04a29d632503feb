/** The transaction ledger's read side: the listing of one user's rows. */
module Ledger {
  import opened Records

  function RowOf(t: Txn): Row
  {
    Row(t.kind, t.category, t.amount, t.date)
  }

  /** `SELECT type, category, amount, date FROM transactions WHERE user_id = ?`:
      the user's rows, in stored order, with their values verbatim. */
  function View(ts: seq<Txn>, u: nat): (r: seq<Row>)
    ensures |r| <= |ts|
    ensures forall row :: row in r <==> exists t :: t in ts && t.userId == u && RowOf(t) == row
  {
    if ts == [] then []
    else
      var last := ts[|ts| - 1];
      var rest := View(ts[..|ts| - 1], u);
      assert ts == ts[..|ts| - 1] + [last];
      if last.userId == u then rest + [RowOf(last)] else rest
  }

  /** The listing of a longer ledger extends the listing of the shorter one
      by exactly the listing of the new rows. */
  lemma {:induction false} ViewConcat(a: seq<Txn>, b: seq<Txn>, u: nat)
    ensures View(a + b, u) == View(a, u) + View(b, u)
  {
    if b == [] {
      assert a + b == a;
    } else {
      assert (a + b)[..|a + b| - 1] == a + b[..|b| - 1];
      ViewConcat(a, b[..|b| - 1], u);
    }
  }

  /** Rows added for `u` show up in the listing one for one, in the order
      they were added; after n additions to an empty ledger the listing has
      n entries. */
  lemma {:induction false} ViewOfAdded(ts: seq<Txn>, added: seq<Txn>, u: nat)
    requires forall i :: 0 <= i < |added| ==> added[i].userId == u
    ensures |View(added, u)| == |added|
    ensures forall i :: 0 <= i < |added| ==> View(added, u)[i] == RowOf(added[i])
    ensures View(ts + added, u) == View(ts, u) + View(added, u)
  {
    ViewConcat(ts, added, u);
    if added != [] {
      ViewOfAdded(ts, added[..|added| - 1], u);
    }
  }

  /** Rows of other users never appear in `u`'s listing. */
  lemma ViewIgnoresOthers(ts: seq<Txn>, t: Txn, u: nat)
    requires t.userId != u
    ensures View(ts + [t], u) == View(ts, u)
  {
  }
}
