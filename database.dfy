/**
 * The store behind `mysql.connector`: one connection with its cursor, the pending
 * (uncommitted) tables, the committed snapshot and the auto-increment counter.
 *
 * Everything the store does is first written as a function on values (`Effect`,
 * `Perform`); the `Store` class holds that state in fields and its methods are proved
 * to change them as those functions say.
 *
 * Store errors are given by the environment: `failAt == Some(k)` makes the k-th store
 * call of the connection (counting fetches, batch inserts and commits from 0) raise
 * `mysql.connector.Error`. A call that raises has no effect.
 */
module Database {
  import opened Wrappers
  import opened Schema

  datatype Table = Stores | Clients | SalesRepresentatives | Products

  /** One store call, as recorded in the connection's log. */
  datatype Call =
    | Fetched(table: Table)       // cursor.execute(SELECT ...) and fetchall()
    | Executed(stmt: Statement)   // cursor.executemany(...)
    | Committed                   // con.commit()
    | RolledBack                  // con.rollback()
    | CursorClosed                // cursor.close()
    | ConnectionClosed            // con.close()

  datatype DbState = DbState(tables: Tables, committed: Tables, nextId: nat)

  predicate Sound(d: DbState) {
    WellFormed(d.tables, d.nextId) && WellFormed(d.committed, d.nextId)
  }

  /** What one call does to the store. Closing a connection discards its uncommitted
      work, as the server does for a session that ends inside a transaction. The
      auto-increment counter is not rolled back. */
  function Effect(d: DbState, c: Call): (r: DbState)
    ensures c.Fetched? || c == CursorClosed ==> r == d
    ensures c != Committed ==> r.committed == d.committed
    ensures c == Committed ==> r.tables == d.tables && r.committed == d.tables
    ensures c == RolledBack || c == ConnectionClosed ==> r.tables == d.committed
    ensures !c.Executed? ==> r.nextId == d.nextId
  {
    match c
    case Executed(stmt) =>
      var r := Apply(d.tables, d.nextId, stmt);
      DbState(r.0, d.committed, r.1)
    case Committed => d.(committed := d.tables)
    case RolledBack => d.(tables := d.committed)
    case ConnectionClosed => d.(tables := d.committed)
    case _ => d
  }

  /** The calls' effects, one after the other, none failing. */
  function Effects(d: DbState, calls: seq<Call>): (r: DbState)
    decreases |calls|
  {
    if calls == [] then d else Effects(Effect(d, calls[0]), calls[1..])
  }

  /** One call keeps the store sound, never moves the counter back, and only a commit
      changes the committed snapshot. */
  lemma EffectSound(d: DbState, c: Call)
    ensures d.nextId <= Effect(d, c).nextId
    ensures Sound(d) ==> Sound(Effect(d, c))
    ensures c != Committed ==> Effect(d, c).committed == d.committed
  {
    if c.Executed? {
      ApplyWellFormed(d.tables, d.nextId, c.stmt);
    }
  }

  /** The store together with the connection's log, the number of calls issued so far
      in the connection's work, the failure schedule and whether it is open. */
  datatype Session = Session(db: DbState, log: seq<Call>, issued: nat, failAt: Option<nat>, connected: bool)

  /** A call that cannot fail (rollback, close). */
  function Record(s: Session, c: Call): Session {
    s.(db := Effect(s.db, c), log := s.log + [c])
  }

  /** A call that may fail, once it has succeeded. */
  function Issue(s: Session, c: Call): Session {
    Record(s, c).(issued := s.issued + 1)
  }

  /** Issue `calls` in order until one raises; the flag says whether all succeeded. On
      a failure the call that raised is the scheduled one and nothing after it is issued. */
  function Perform(s: Session, calls: seq<Call>): (r: (Session, bool))
    ensures r.0.failAt == s.failAt && r.0.connected == s.connected
    ensures s.issued <= r.0.issued <= s.issued + |calls|
    ensures r.1 <==> r.0.issued == s.issued + |calls|
    ensures !r.1 ==> r.0.failAt == Some(r.0.issued)
    decreases |calls|
  {
    if calls == [] then (s, true)
    else if s.failAt == Some(s.issued) then (s, false)
    else Perform(Issue(s, calls[0]), calls[1..])
  }

  /** How many of `n` calls, issued from call number `issued` on, succeed. */
  function Reached(issued: nat, failAt: Option<nat>, n: nat): (k: nat)
    ensures k <= n
  {
    if failAt.Some? && issued <= failAt.value < issued + n then failAt.value - issued else n
  }

  lemma {:induction false} EffectsAppend(d: DbState, a: seq<Call>, b: seq<Call>)
    ensures Effects(d, a + b) == Effects(Effects(d, a), b)
    decreases |a|
  {
    if a == [] {
      assert a + b == b;
    } else {
      assert (a + b)[1..] == a[1..] + b;
      EffectsAppend(Effect(d, a[0]), a[1..], b);
    }
  }

  /** Calls other than a commit leave the committed snapshot as it is. */
  lemma {:induction false} EffectsKeepCommitted(d: DbState, calls: seq<Call>)
    requires Committed !in calls
    ensures Effects(d, calls).committed == d.committed
    decreases |calls|
  {
    if calls != [] {
      assert calls[0] != Committed;
      assert forall c :: c in calls[1..] ==> c in calls;
      EffectSound(d, calls[0]);
      EffectsKeepCommitted(Effect(d, calls[0]), calls[1..]);
    }
  }

  /** Issuing `a` then `b` is issuing `a + b`; a failure in `a` means `b` is never issued. */
  lemma {:induction false} PerformAppend(s: Session, a: seq<Call>, b: seq<Call>)
    ensures Perform(s, a + b) == (var r := Perform(s, a); if r.1 then Perform(r.0, b) else r)
    decreases |a|
  {
    if a == [] {
      assert a + b == b;
    } else {
      assert (a + b)[1..] == a[1..] + b;
      if s.failAt != Some(s.issued) {
        PerformAppend(Issue(s, a[0]), a[1..], b);
      }
    }
  }

  /** The closed form of `Perform`: the calls before the first scheduled failure are
      issued, recorded and take effect; the run succeeds when there is no such failure. */
  function Cut(s: Session, calls: seq<Call>): (Session, bool) {
    var k := Reached(s.issued, s.failAt, |calls|);
    (s.(db := Effects(s.db, calls[..k]), log := s.log + calls[..k], issued := s.issued + k), k == |calls|)
  }

  lemma {:induction false} PerformIsCut(s: Session, calls: seq<Call>)
    ensures Perform(s, calls) == Cut(s, calls)
    decreases |calls|
  {
    if calls == [] {
      assert s.log + calls[..0] == s.log;
    } else if s.failAt != Some(s.issued) {
      var s1 := Issue(s, calls[0]);
      PerformIsCut(s1, calls[1..]);
      var k1 := Reached(s1.issued, s1.failAt, |calls| - 1);
      var k := Reached(s.issued, s.failAt, |calls|);
      assert k == k1 + 1;
      assert calls[..k][1..] == calls[1..][..k1];
      assert Effects(s.db, calls[..k]) == Effects(s1.db, calls[1..][..k1]);
      assert s1.log + calls[1..][..k1] == s.log + calls[..k];
      assert Cut(s1, calls[1..]).0 == Cut(s, calls).0;
    } else {
      assert calls[..0] == [] && s.log + calls[..0] == s.log;
    }
  }

  /** A run that succeeds has every call take effect. */
  lemma PerformDone(s: Session, calls: seq<Call>, s1: Session)
    requires Perform(s, calls) == (s1, true)
    ensures s1.db == Effects(s.db, calls)
  {
    PerformIsCut(s, calls);
    assert calls[..|calls|] == calls;
  }

  /** A run in two parts: the second part runs only when the first succeeded. */
  lemma PerformStep(s: Session, a: seq<Call>, rest: seq<Call>, s1: Session, ok: bool)
    requires Perform(s, a) == (s1, ok)
    ensures Perform(s, a + rest) == if ok then Perform(s1, rest) else (s1, false)
  {
    PerformAppend(s, a, rest);
  }

  /** The same, when the second part is skipped after a failure of the first. */
  lemma PerformThen(s: Session, a: seq<Call>, rest: seq<Call>, s1: Session, ok1: bool, s2: Session, ok2: bool)
    requires Perform(s, a) == (s1, ok1)
    requires ok1 ==> Perform(s1, rest) == (s2, ok2)
    requires !ok1 ==> s2 == s1 && !ok2
    ensures Perform(s, a + rest) == (s2, ok2)
  {
    PerformAppend(s, a, rest);
  }

  /** Fetches change nothing in the store. */
  lemma {:induction false} EffectsOfFetches(d: DbState, calls: seq<Call>)
    requires forall i :: 0 <= i < |calls| ==> calls[i].Fetched?
    ensures Effects(d, calls) == d
    decreases |calls|
  {
    if calls != [] {
      EffectsOfFetches(Effect(d, calls[0]), calls[1..]);
    }
  }

  class Store {
    var tables: Tables
    var committed: Tables
    var nextId: nat
    var log: seq<Call>
    var issued: nat
    var failAt: Option<nat>
    var connected: bool

    function Snapshot(): Session
      reads this
    {
      Session(DbState(tables, committed, nextId), log, issued, failAt, connected)
    }

    ghost predicate Valid()
      reads this
    {
      Sound(DbState(tables, committed, nextId)) && (!connected ==> tables == committed)
    }

    constructor (initial: Tables, next: nat)
      requires WellFormed(initial, next)
      ensures Valid()
      ensures Snapshot() == Session(DbState(initial, initial, next), [], 0, None, false)
    {
      tables, committed, nextId := initial, initial, next;
      log, issued, failAt, connected := [], 0, None, false;
    }

    /** `mysql.connector.connect`: fails when the server cannot be reached. */
    method Connect(reachable: bool, schedule: Option<nat>) returns (ok: bool)
      requires Valid() && !connected
      modifies this
      ensures Valid() && ok == reachable
      ensures Snapshot() == if ok then old(Snapshot()).(issued := 0, failAt := schedule, connected := true)
                            else old(Snapshot())
    {
      ok := reachable;
      if ok {
        issued, failAt, connected := 0, schedule, true;
      }
    }

    /** `cursor.execute("SELECT ...")` followed by `fetchall()`. The rows read are
        `tables` itself, which the caller turns into a key map. */
    method Select(table: Table) returns (ok: bool)
      requires Valid() && connected
      modifies this
      ensures Valid() && (Snapshot(), ok) == Perform(old(Snapshot()), [Fetched(table)])
      ensures tables == old(tables)
    {
      ok := failAt != Some(issued);
      if ok {
        log, issued := log + [Fetched(table)], issued + 1;
      }
    }

    /** `cursor.executemany(statement, rows)`. */
    method ExecuteMany(stmt: Statement) returns (ok: bool)
      requires Valid() && connected
      modifies this
      ensures Valid() && (Snapshot(), ok) == Perform(old(Snapshot()), [Executed(stmt)])
    {
      ok := failAt != Some(issued);
      if ok {
        ApplyWellFormed(tables, nextId, stmt);
        var r := Apply(tables, nextId, stmt);
        tables, nextId := r.0, r.1;
        log, issued := log + [Executed(stmt)], issued + 1;
      }
    }

    /** `con.commit()`. */
    method Commit() returns (ok: bool)
      requires Valid() && connected
      modifies this
      ensures Valid() && (Snapshot(), ok) == Perform(old(Snapshot()), [Committed])
    {
      ok := failAt != Some(issued);
      if ok {
        committed := tables;
        log, issued := log + [Committed], issued + 1;
      }
    }

    /** `con.rollback()`: back to the committed snapshot. */
    method Rollback()
      requires Valid() && connected
      modifies this
      ensures Valid() && Snapshot() == Record(old(Snapshot()), RolledBack)
    {
      tables := committed;
      log := log + [RolledBack];
    }

    /** `cursor.close()`. */
    method CloseCursor()
      requires Valid() && connected
      modifies this
      ensures Valid() && Snapshot() == Record(old(Snapshot()), CursorClosed)
    {
      log := log + [CursorClosed];
    }

    /** `con.close()`. */
    method Close()
      requires Valid() && connected
      modifies this
      ensures Valid() && Snapshot() == Record(old(Snapshot()), ConnectionClosed).(connected := false)
    {
      tables := committed;
      log := log + [ConnectionClosed];
      connected := false;
    }
  }
}
