/**
 * `process_csv_file`: connect, then in one `try` block fetch the key maps, run the
 * four reference inserts and commit, fetch the maps again, run the two association
 * inserts and commit; on a store error roll back; in every case close the cursor
 * and the connection.
 *
 * `Run` is the whole run as a function on the store's session; `ProcessCsvFile` is
 * proved to leave the store as `Run` says.
 */
module Pipeline {
  import opened Wrappers
  import opened Batch
  import opened Schema
  import opened KeyMaps
  import opened Database
  import opened Loader

  /** How a run ends: no connection, the batch could not be read (that exception
      leaves `process_csv_file`), a store error rolled back, or both commits done. */
  datatype Outcome = NotConnected | ReadFailed | StoreFailed | Uploaded

  /** The reference inserts in the order `process_csv_file` issues them, given the
      queued rows of each insert. */
  function ReferenceStatements(so: seq<string>, q: seq<ClientKey>, ro: seq<string>, ps: seq<ProductIn>): seq<Call> {
    IfAny(so != [], StoreInsert(so))
      + IfAny(q != [], ClientInsert(q))
      + IfAny(ro != [], SalesRepUpsert(ro))
      + IfAny(ps != [], ProductUpsert(ps))
  }

  /** The store calls of the reference phase, given the fetched maps and the orders in
      which the new store and sales representative names are iterated. */
  function ReferenceCalls(m: Maps, b: Batch, so: seq<string>, ro: seq<string>): seq<Call> {
    FetchCalls + (ReferenceStatements(so, ClientQueue(b, m.clients.Keys), ro, ProductsToInsert(b, m.products, m.stores)) + [Committed])
  }

  /** The store calls of the association phase. */
  function AssociationCalls(m: Maps, b: Batch): seq<Call> {
    FetchCalls + [Executed(TransactionInsert(TransactionRows(b, m.stores, m.clients, m.salesReps))),
                  Executed(LinkInsert(LinkRows(b, m.products, m.stores))),
                  Committed]
  }

  /** Every store call of the `try` block, in order: the association phase fetches the
      maps of the tables the reference phase left. */
  function BodyCalls(d: DbState, b: Batch, so: seq<string>, ro: seq<string>): (r: seq<Call>)
    ensures |FetchCalls| < |r| && r[..|FetchCalls|] == FetchCalls && r[|r| - 1] == Committed
  {
    var refs := ReferenceCalls(FetchAll(d.tables), b, so, ro);
    refs + AssociationCalls(FetchAll(Effects(d, refs).tables), b)
  }

  /** `so` and `ro` list the batch's new store and sales representative names. */
  ghost predicate Orders(t: Tables, b: Batch, so: seq<string>, ro: seq<string>) {
    && IsEnumeration(NewNames(StoreNames(b), StoreIds(t.stores).Keys), so)
    && IsEnumeration(NewNames(SalesRepNames(b), SalesRepIds(t.salesReps).Keys), ro)
  }

  function Connected(s: Session, schedule: Option<nat>): Session {
    s.(issued := 0, failAt := schedule, connected := true)
  }

  /** The `finally` block. */
  function Closed(s: Session): Session {
    Record(Record(s, CursorClosed), ConnectionClosed).(connected := false)
  }

  /** A run on an open connection. */
  function Run(s: Session, b: Batch, readable: bool, so: seq<string>, ro: seq<string>): (r: (Session, Outcome))
    ensures r.1 != NotConnected && (r.1 == ReadFailed <==> !readable)
    ensures !r.0.connected && |r.0.log| >= 2 && r.0.log[|r.0.log| - 2..] == [CursorClosed, ConnectionClosed]
  {
    RunBody(s, readable, BodyCalls(s.db, b, so, ro))
  }

  /** The `try` block issuing `calls`, the `except` and the `finally` block. */
  function RunBody(s: Session, readable: bool, calls: seq<Call>): (r: (Session, Outcome))
    ensures r.1 != NotConnected && (r.1 == ReadFailed <==> !readable)
    ensures !r.0.connected && |r.0.log| >= 2 && r.0.log[|r.0.log| - 2..] == [CursorClosed, ConnectionClosed]
  {
    if !readable then (Closed(s), ReadFailed)
    else
      var (s1, ok) := Perform(s, calls);
      if ok then (Closed(s1), Uploaded) else (Closed(Record(s1, RolledBack)), StoreFailed)
  }

  /** The `try` block in two parts, the second issued only when the first succeeded. */
  lemma RunBodyInTwo(s: Session, first: seq<Call>, second: seq<Call>, s2: Session, ok1: bool, s3: Session, ok2: bool)
    requires Perform(s, first) == (s2, ok1)
    requires ok1 ==> Perform(s2, second) == (s3, ok2)
    requires !ok1 ==> s3 == s2 && !ok2
    ensures RunBody(s, true, first + second) == if ok2 then (Closed(s3), Uploaded) else (Closed(Record(s3, RolledBack)), StoreFailed)
  {
    PerformThen(s, first, second, s2, ok1, s3, ok2);
  }

  /** A run whose reference phase ended in `s2` and whose association phase, when it
      ran, ended in `s3`. */
  lemma RunOfPhases(s: Session, b: Batch, so: seq<string>, ro: seq<string>, s2: Session, ok1: bool, s3: Session, ok2: bool)
    requires Perform(s, ReferenceCalls(FetchAll(s.db.tables), b, so, ro)) == (s2, ok1)
    requires ok1 ==> Perform(s2, AssociationCalls(FetchAll(s2.db.tables), b)) == (s3, ok2)
    requires !ok1 ==> s3 == s2 && !ok2
    ensures Run(s, b, true, so, ro) == if ok2 then (Closed(s3), Uploaded) else (Closed(Record(s3, RolledBack)), StoreFailed)
  {
    var refs := ReferenceCalls(FetchAll(s.db.tables), b, so, ro);
    if ok1 {
      PerformDone(s, refs, s2);
    }
    RunBodyInTwo(s, refs, AssociationCalls(FetchAll(Effects(s.db, refs).tables), b), s2, ok1, s3, ok2);
  }

  /** The reference inserts and the commit as five steps: each step runs only when the
      previous one succeeded. */
  lemma ReferenceSteps(s1: Session, so: seq<string>, q: seq<ClientKey>, ro: seq<string>, ps: seq<ProductIn>,
                       s2: Session, ok2: bool, s3: Session, ok3: bool, s4: Session, ok4: bool,
                       s5: Session, ok5: bool, s6: Session, ok6: bool)
    requires Perform(s1, IfAny(so != [], StoreInsert(so))) == (s2, ok2)
    requires if ok2 then Perform(s2, IfAny(q != [], ClientInsert(q))) == (s3, ok3) else s3 == s2 && !ok3
    requires if ok3 then Perform(s3, IfAny(ro != [], SalesRepUpsert(ro))) == (s4, ok4) else s4 == s3 && !ok4
    requires if ok4 then Perform(s4, IfAny(ps != [], ProductUpsert(ps))) == (s5, ok5) else s5 == s4 && !ok5
    requires if ok5 then Perform(s5, [Committed]) == (s6, ok6) else s6 == s5 && !ok6
    ensures Perform(s1, ReferenceStatements(so, q, ro, ps) + [Committed]) == (s6, ok6)
  {
    var a, b, c, e := IfAny(so != [], StoreInsert(so)), IfAny(q != [], ClientInsert(q)),
      IfAny(ro != [], SalesRepUpsert(ro)), IfAny(ps != [], ProductUpsert(ps));
    PerformThen(s1, a, b, s2, ok2, s3, ok3);
    PerformThen(s1, a + b, c, s3, ok3, s4, ok4);
    PerformThen(s1, a + b + c, e, s4, ok4, s5, ok5);
    PerformThen(s1, a + b + c + e, [Committed], s5, ok5, s6, ok6);
  }

  /** Processing.py lines 129-139: fetch the maps, insert the references, commit. */
  method LoadReferences(db: Store, b: Batch) returns (ok: bool, ghost so: seq<string>, ghost ro: seq<string>)
    requires db.Valid() && db.connected
    modifies db
    ensures db.Valid() && db.connected
    ensures Orders(old(db.tables), b, so, ro)
    ensures (db.Snapshot(), ok) == Perform(old(db.Snapshot()), ReferenceCalls(FetchAll(old(db.tables)), b, so, ro))
  {
    ghost var s0 := db.Snapshot();
    ghost var m0 := FetchAll(db.tables);
    var maps;
    ok, maps := FetchMaps(db);
    ghost var s1, ok1 := db.Snapshot(), ok;
    if !ok {
      EnumerationExists(NewNames(StoreNames(b), m0.stores.Keys));
      EnumerationExists(NewNames(SalesRepNames(b), m0.salesReps.Keys));
      so :| IsEnumeration(NewNames(StoreNames(b), m0.stores.Keys), so);
      ro :| IsEnumeration(NewNames(SalesRepNames(b), m0.salesReps.Keys), ro);
    } else {
      ok, so, ro := InsertReferences(db, b, maps);
    }
    ghost var rest := ReferenceStatements(so, ClientQueue(b, m0.clients.Keys), ro, ProductsToInsert(b, m0.products, m0.stores)) + [Committed];
    PerformThen(s0, FetchCalls, rest, s1, ok1, db.Snapshot(), ok);
  }

  /** Processing.py lines 135-139: the four reference inserts over the fetched maps, then the commit.
      A call that raises skips the rest of the block. */
  method InsertReferences(db: Store, b: Batch, maps: Maps) returns (ok: bool, ghost so: seq<string>, ghost ro: seq<string>)
    requires db.Valid() && db.connected
    requires maps == FetchAll(db.tables)
    modifies db
    ensures db.Valid() && db.connected
    ensures Orders(old(db.tables), b, so, ro)
    ensures (db.Snapshot(), ok) == Perform(old(db.Snapshot()),
      ReferenceStatements(so, ClientQueue(b, maps.clients.Keys), ro, ProductsToInsert(b, maps.products, maps.stores)) + [Committed])
  {
    ghost var s1 := db.Snapshot();
    ghost var q := ClientQueue(b, maps.clients.Keys);
    ghost var ps := ProductsToInsert(b, maps.products, maps.stores);
    EnumerationExists(NewNames(SalesRepNames(b), maps.salesReps.Keys));
    ro :| IsEnumeration(NewNames(SalesRepNames(b), maps.salesReps.Keys), ro);

    var storeOrder;
    ok, storeOrder := InsertStores(db, b, maps.stores);
    so := storeOrder;
    ghost var s2, ok2 := db.Snapshot(), ok;

    if ok {
      var marked;
      ok, marked := InsertClients(db, b, maps.clients);
    }
    ghost var s3, ok3 := db.Snapshot(), ok;

    if ok {
      var repOrder;
      ok, repOrder := InsertSalesReps(db, b, maps.salesReps);
      ro := repOrder;
    }
    ghost var s4, ok4 := db.Snapshot(), ok;

    if ok {
      ok := InsertProducts(db, b, maps.products, maps.stores);
    }
    ghost var s5, ok5 := db.Snapshot(), ok;

    if ok {
      ok := db.Commit();
    }
    ReferenceSteps(s1, so, q, ro, ps, s2, ok2, s3, ok3, s4, ok4, s5, ok5, db.Snapshot(), ok);
  }

  /** Processing.py lines 142-150: fetch the maps again, insert the associations, commit. */
  method LoadAssociations(db: Store, b: Batch) returns (ok: bool)
    requires db.Valid() && db.connected
    modifies db
    ensures db.Valid() && db.connected
    ensures (db.Snapshot(), ok) == Perform(old(db.Snapshot()), AssociationCalls(FetchAll(old(db.tables)), b))
  {
    ghost var s0 := db.Snapshot();
    ghost var m0 := FetchAll(db.tables);
    var maps;
    ok, maps := FetchMaps(db);
    ghost var s1 := db.Snapshot();
    ghost var tx := Executed(TransactionInsert(TransactionRows(b, m0.stores, m0.clients, m0.salesReps)));
    ghost var links := Executed(LinkInsert(LinkRows(b, m0.products, m0.stores)));
    PerformStep(s0, FetchCalls, [tx, links, Committed], s1, ok);
    if !ok { return; }

    ok := InsertTransactions(db, b, maps.stores, maps.clients, maps.salesReps);
    ghost var s2 := db.Snapshot();
    assert [tx, links, Committed] == [tx] + [links, Committed];
    PerformStep(s1, [tx], [links, Committed], s2, ok);
    if !ok { return; }

    ok := InsertTransactionProducts(db, b, maps.products, maps.stores);
    ghost var s3 := db.Snapshot();
    assert [links, Committed] == [links] + [Committed];
    PerformStep(s2, [links], [Committed], s3, ok);
    if !ok { return; }

    ok := db.Commit();
  }

  /** `process_csv_file` on one batch. `reachable` says whether the server accepts the
      connection, `readable` whether the CSV file can be read, and `schedule` which
      store call of the run (if any) raises `mysql.connector.Error`. */
  method ProcessCsvFile(db: Store, b: Batch, readable: bool, reachable: bool, schedule: Option<nat>)
    returns (outcome: Outcome, ghost so: seq<string>, ghost ro: seq<string>)
    requires db.Valid() && !db.connected
    modifies db
    ensures db.Valid() && !db.connected
    ensures Orders(old(db.tables), b, so, ro)
    ensures !reachable ==> outcome == NotConnected && db.Snapshot() == old(db.Snapshot())
    ensures reachable ==> (db.Snapshot(), outcome) == Run(Connected(old(db.Snapshot()), schedule), b, readable, so, ro)
  {
    ghost var t0 := db.tables;
    EnumerationExists(NewNames(StoreNames(b), StoreIds(t0.stores).Keys));
    EnumerationExists(NewNames(SalesRepNames(b), SalesRepIds(t0.salesReps).Keys));
    so :| IsEnumeration(NewNames(StoreNames(b), StoreIds(t0.stores).Keys), so);
    ro :| IsEnumeration(NewNames(SalesRepNames(b), SalesRepIds(t0.salesReps).Keys), ro);

    var connected := db.Connect(reachable, schedule);
    if !connected {
      outcome := NotConnected;
      return;
    }
    if !readable {
      db.CloseCursor();
      db.Close();
      outcome := ReadFailed;
      return;
    }

    ghost var s1 := db.Snapshot();
    var ok;
    ok, so, ro := LoadReferences(db, b);
    ghost var s2, referencesDone := db.Snapshot(), ok;
    if ok {
      ok := LoadAssociations(db, b);
    }
    RunOfPhases(s1, b, so, ro, s2, referencesDone, db.Snapshot(), ok);

    if !ok {
      db.Rollback();
      outcome := StoreFailed;
    } else {
      outcome := Uploaded;
    }
    db.CloseCursor();
    db.Close();
  }
}
