/**
 * What one run of `process_csv_file` does to the store, stated on `Run`: the tables
 * each phase leaves, what survives a store error in either phase, that rollback
 * happens exactly on a store error, and what the uploaded rows contain.
 *
 * Most facts are first proved for any queued rows or any call sequence of the right
 * shape, then instantiated with the rows the loader functions compute.
 */
module Guarantees {
  import opened Wrappers
  import opened Batch
  import opened Schema
  import opened KeyMaps
  import opened Database
  import opened Loader
  import opened Pipeline

  // ---------------------------------------------------------------------------
  // The shape of the call sequences

  /** Calls that neither commit nor roll back: fetches and batch inserts. */
  predicate Issuable(calls: seq<Call>) {
    forall i :: 0 <= i < |calls| ==> calls[i].Fetched? || calls[i].Executed?
  }

  lemma IssuableAppend(a: seq<Call>, b: seq<Call>)
    requires Issuable(a) && Issuable(b)
    ensures Issuable(a + b)
  {
    forall i | 0 <= i < |a + b| ensures (a + b)[i].Fetched? || (a + b)[i].Executed? {
      if i < |a| { assert (a + b)[i] == a[i]; } else { assert (a + b)[i] == b[i - |a|]; }
    }
  }

  /** Up to and including the commit that follows them, issuable calls never commit
      before it. */
  lemma IssuableBeforeCommit(mid: seq<Call>, j: nat)
    requires Issuable(mid) && j <= |mid|
    ensures Committed !in (mid + [Committed])[..j]
    ensures RolledBack !in mid + [Committed]
  {
    assert (mid + [Committed])[..j] == mid[..j];
    assert forall i :: 0 <= i < j ==> mid[..j][i] == mid[i];
    assert forall i :: 0 <= i < |mid| ==> (mid + [Committed])[i] == mid[i];
  }

  lemma IfAnyIssuable(present: bool, stmt: Statement)
    ensures Issuable(IfAny(present, stmt))
  {
  }

  /** Before its commit the reference phase only fetches and executes. */
  lemma ReferenceStatementsIssuable(so: seq<string>, q: seq<ClientKey>, ro: seq<string>, ps: seq<ProductIn>)
    ensures Issuable(FetchCalls + ReferenceStatements(so, q, ro, ps))
  {
    var a, b, c, e := IfAny(so != [], StoreInsert(so)), IfAny(q != [], ClientInsert(q)),
      IfAny(ro != [], SalesRepUpsert(ro)), IfAny(ps != [], ProductUpsert(ps));
    IfAnyIssuable(so != [], StoreInsert(so));
    IfAnyIssuable(q != [], ClientInsert(q));
    IfAnyIssuable(ro != [], SalesRepUpsert(ro));
    IfAnyIssuable(ps != [], ProductUpsert(ps));
    IssuableAppend(a, b);
    IssuableAppend(a + b, c);
    IssuableAppend(a + b + c, e);
    IssuableAppend(FetchCalls, ReferenceStatements(so, q, ro, ps));
  }

  lemma Regroup(f: seq<Call>, st: seq<Call>, rest: seq<Call>)
    ensures f + (st + [Committed]) == (f + st) + [Committed]
    ensures f + (st + [Committed]) + rest == (f + st) + ([Committed] + rest)
  {
  }

  /** The two inserts of the association phase. */
  function AssociationStatements(m: Maps, b: Batch): seq<Call> {
    [Executed(TransactionInsert(TransactionRows(b, m.stores, m.clients, m.salesReps))),
     Executed(LinkInsert(LinkRows(b, m.products, m.stores)))]
  }

  /** The association phase commits once, as its last call. */
  lemma AssociationShape(m: Maps, b: Batch)
    ensures AssociationCalls(m, b) == (FetchCalls + AssociationStatements(m, b)) + [Committed]
    ensures Issuable(FetchCalls + AssociationStatements(m, b))
  {
    IssuableAppend(FetchCalls, AssociationStatements(m, b));
  }

  /** The `try` block never rolls back by itself. */
  lemma NoRollbackInBody(pre: seq<Call>, mid: seq<Call>)
    requires Issuable(pre) && Issuable(mid)
    ensures RolledBack !in (pre + [Committed]) + (mid + [Committed])
  {
    IssuableBeforeCommit(pre, 0);
    IssuableBeforeCommit(mid, 0);
  }

  /** Inside the `try` block the store is only asked to fetch, execute or commit. */
  lemma BodyCallsIssuable(d: DbState, b: Batch, so: seq<string>, ro: seq<string>)
    ensures RolledBack !in BodyCalls(d, b, so, ro)
  {
    var m := FetchAll(d.tables);
    var refs := ReferenceCalls(m, b, so, ro);
    var m1 := FetchAll(Effects(d, refs).tables);
    var st := ReferenceStatements(so, ClientQueue(b, m.clients.Keys), ro, ProductsToInsert(b, m.products, m.stores));
    ReferenceStatementsIssuable(so, ClientQueue(b, m.clients.Keys), ro, ProductsToInsert(b, m.products, m.stores));
    Regroup(FetchCalls, st, []);
    AssociationShape(m1, b);
    NoRollbackInBody(FetchCalls + st, FetchCalls + AssociationStatements(m1, b));
  }

  lemma EffectsIfAny(d: DbState, present: bool, stmt: Statement)
    ensures Effects(d, IfAny(present, stmt)) == if present then Effect(d, Executed(stmt)) else d
  {
  }

  // ---------------------------------------------------------------------------
  // The reference phase

  /** The store after `insert_stores`: the new names appended with consecutive fresh ids
      (nothing changes when there are none). */
  function WithStores(d: DbState, so: seq<string>): DbState {
    DbState(d.tables.(stores := d.tables.stores + NumberedStores(d.nextId, so)), d.committed, d.nextId + |so|)
  }

  function WithClients(d: DbState, q: seq<ClientKey>): DbState {
    DbState(d.tables.(clients := d.tables.clients + NumberedClients(d.nextId, q)), d.committed, d.nextId + |q|)
  }

  function WithSalesReps(d: DbState, ro: seq<string>): DbState {
    var reps := UpsertSalesReps(d.tables.salesReps, d.nextId, ro);
    DbState(d.tables.(salesReps := reps.0), d.committed, reps.1)
  }

  function WithProducts(d: DbState, ps: seq<ProductIn>): DbState {
    var prods := UpsertProducts(d.tables.products, d.nextId, ps);
    DbState(d.tables.(products := prods.0), d.committed, prods.1)
  }

  /** The store after the reference phase: stores and clients appended with fresh ids,
      sales representatives and products upserted, in that order, and all of it
      committed; the transaction tables are untouched. */
  function AfterInserts(d: DbState, so: seq<string>, q: seq<ClientKey>, ro: seq<string>, ps: seq<ProductIn>): DbState {
    var d4 := WithProducts(WithSalesReps(WithClients(WithStores(d, so), q), ro), ps);
    d4.(committed := d4.tables)
  }

  lemma StoresStep(d: DbState, so: seq<string>)
    ensures Effects(d, IfAny(so != [], StoreInsert(so))) == WithStores(d, so)
  {
    EffectsIfAny(d, so != [], StoreInsert(so));
    if so == [] { assert d.tables.stores + NumberedStores(d.nextId, so) == d.tables.stores; }
  }

  lemma ClientsStep(d: DbState, q: seq<ClientKey>)
    ensures Effects(d, IfAny(q != [], ClientInsert(q))) == WithClients(d, q)
  {
    EffectsIfAny(d, q != [], ClientInsert(q));
    if q == [] { assert d.tables.clients + NumberedClients(d.nextId, q) == d.tables.clients; }
  }

  lemma SalesRepsStep(d: DbState, ro: seq<string>)
    ensures Effects(d, IfAny(ro != [], SalesRepUpsert(ro))) == WithSalesReps(d, ro)
  {
    EffectsIfAny(d, ro != [], SalesRepUpsert(ro));
  }

  lemma ProductsStep(d: DbState, ps: seq<ProductIn>)
    ensures Effects(d, IfAny(ps != [], ProductUpsert(ps))) == WithProducts(d, ps)
  {
    EffectsIfAny(d, ps != [], ProductUpsert(ps));
    if ps != [] {
      var prods := UpsertProducts(d.tables.products, d.nextId, ps);
      assert Apply(d.tables, d.nextId, ProductUpsert(ps)) == (d.tables.(products := prods.0), prods.1);
    }
  }

  lemma InsertsChain(d: DbState, so: seq<string>, q: seq<ClientKey>, ro: seq<string>, ps: seq<ProductIn>)
    ensures Effects(d, FetchCalls + (ReferenceStatements(so, q, ro, ps) + [Committed]))
      == Effects(Effects(Effects(Effects(Effects(d, IfAny(so != [], StoreInsert(so))), IfAny(q != [], ClientInsert(q))),
           IfAny(ro != [], SalesRepUpsert(ro))), IfAny(ps != [], ProductUpsert(ps))), [Committed])
  {
    var a, b, c, e := IfAny(so != [], StoreInsert(so)), IfAny(q != [], ClientInsert(q)),
      IfAny(ro != [], SalesRepUpsert(ro)), IfAny(ps != [], ProductUpsert(ps));
    EffectsOfFetches(d, FetchCalls);
    EffectsAppend(d, FetchCalls, a + b + c + e + [Committed]);
    EffectsAppend(d, a, b);
    EffectsAppend(d, a + b, c);
    EffectsAppend(d, a + b + c, e);
    EffectsAppend(d, a + b + c + e, [Committed]);
  }

  lemma InsertsEffect(d: DbState, so: seq<string>, q: seq<ClientKey>, ro: seq<string>, ps: seq<ProductIn>)
    ensures Effects(d, FetchCalls + (ReferenceStatements(so, q, ro, ps) + [Committed])) == AfterInserts(d, so, q, ro, ps)
  {
    InsertsChain(d, so, q, ro, ps);
    var d1 := WithStores(d, so);
    StoresStep(d, so);
    var d2 := WithClients(d1, q);
    ClientsStep(d1, q);
    var d3 := WithSalesReps(d2, ro);
    SalesRepsStep(d2, ro);
    var d4 := WithProducts(d3, ps);
    ProductsStep(d3, ps);
    assert Effects(d4, [Committed]) == d4.(committed := d4.tables);
  }

  /** The store after the reference phase of batch `b`. */
  function AfterReferences(d: DbState, b: Batch, so: seq<string>, ro: seq<string>): DbState {
    var m := FetchAll(d.tables);
    AfterInserts(d, so, ClientQueue(b, m.clients.Keys), ro, ProductsToInsert(b, m.products, m.stores))
  }

  lemma ReferencePhaseEffect(d: DbState, b: Batch, so: seq<string>, ro: seq<string>)
    ensures Effects(d, ReferenceCalls(FetchAll(d.tables), b, so, ro)) == AfterReferences(d, b, so, ro)
  {
    var m := FetchAll(d.tables);
    InsertsEffect(d, so, ClientQueue(b, m.clients.Keys), ro, ProductsToInsert(b, m.products, m.stores));
  }

  ghost predicate StoresCover(rows: seq<StoreRow>, b: Batch) {
    forall i :: 0 <= i < |b| ==> b[i].storeName in StoreIds(rows)
  }

  ghost predicate ClientsCover(rows: seq<ClientRow>, b: Batch) {
    forall i :: 0 <= i < |b| ==> ClientKeyOf(b[i]) in ClientIds(rows)
  }

  ghost predicate SalesRepsCover(rows: seq<SalesRepRow>, b: Batch) {
    forall i :: 0 <= i < |b| ==> b[i].salesRepName in SalesRepIds(rows)
  }

  ghost predicate ProductsCover(rows: seq<ProductRow>, b: Batch) {
    forall i :: 0 <= i < |b| ==> ByName(b[i].productName) in ProductIds(rows)
  }

  /** The key maps of `t` know every store, client, sales representative and product
      of the batch. */
  ghost predicate Covered(t: Tables, b: Batch) {
    StoresCover(t.stores, b) && ClientsCover(t.clients, b) && SalesRepsCover(t.salesReps, b) && ProductsCover(t.products, b)
  }

  /** A name the store map knows stays known when rows are appended. */
  lemma KnownStoreStays(before: seq<StoreRow>, added: seq<StoreRow>, n: string)
    requires n in StoreIds(before)
    ensures n in StoreIds(before + added)
  {
    var j :| 0 <= j < |before| && before[j] == StoreRow(StoreIds(before)[n], n);
    assert (before + added)[j] == before[j];
  }

  lemma NewStorePresent(before: seq<StoreRow>, next: nat, so: seq<string>, j: nat)
    requires j < |so|
    ensures so[j] in StoreIds(before + NumberedStores(next, so))
  {
    assert (before + NumberedStores(next, so))[|before| + j] == StoreRow(next + j, so[j]);
  }

  lemma StoresCovered(d: DbState, b: Batch, so: seq<string>)
    requires IsEnumeration(NewNames(StoreNames(b), StoreIds(d.tables.stores).Keys), so)
    ensures StoresCover(WithStores(d, so).tables.stores, b)
  {
    var before := d.tables.stores;
    var added := NumberedStores(d.nextId, so);
    forall i | 0 <= i < |b| ensures b[i].storeName in StoreIds(before + added) {
      var n := b[i].storeName;
      assert StoreNames(b)[i] == n;
      if n in StoreIds(before) {
        KnownStoreStays(before, added, n);
      } else {
        var j :| 0 <= j < |so| && so[j] == n;
        NewStorePresent(before, d.nextId, so, j);
      }
    }
  }

  lemma KnownClientStays(before: seq<ClientRow>, added: seq<ClientRow>, k: ClientKey)
    requires k in ClientIds(before)
    ensures k in ClientIds(before + added)
  {
    var j :| 0 <= j < |before| && before[j] == ClientRow(ClientIds(before)[k], k);
    assert (before + added)[j] == before[j];
  }

  lemma NewClientPresent(before: seq<ClientRow>, next: nat, q: seq<ClientKey>, j: nat)
    requires j < |q|
    ensures q[j] in ClientIds(before + NumberedClients(next, q))
  {
    assert (before + NumberedClients(next, q))[|before| + j] == ClientRow(next + j, q[j]);
  }

  lemma ClientsCovered(d: DbState, b: Batch, q: seq<ClientKey>)
    requires forall k :: k in q <==> k in ClientKeys(b) && k !in ClientIds(d.tables.clients)
    ensures ClientsCover(WithClients(d, q).tables.clients, b)
  {
    var before := d.tables.clients;
    var added := NumberedClients(d.nextId, q);
    forall i | 0 <= i < |b| ensures ClientKeyOf(b[i]) in ClientIds(before + added) {
      var k := ClientKeyOf(b[i]);
      assert ClientKeys(b)[i] == k;
      if k in ClientIds(before) {
        KnownClientStays(before, added, k);
      } else {
        var j :| 0 <= j < |q| && q[j] == k;
        NewClientPresent(before, d.nextId, q, j);
      }
    }
  }

  lemma SalesRepsCovered(d: DbState, b: Batch, ro: seq<string>)
    requires IsEnumeration(NewNames(SalesRepNames(b), SalesRepIds(d.tables.salesReps).Keys), ro)
    ensures SalesRepsCover(WithSalesReps(d, ro).tables.salesReps, b)
  {
    var before := d.tables.salesReps;
    var rows := WithSalesReps(d, ro).tables.salesReps;
    assert rows == UpsertSalesReps(before, d.nextId, ro).0;
    UpsertSalesRepsRows(before, d.nextId, ro);
    forall i | 0 <= i < |b| ensures b[i].salesRepName in SalesRepIds(rows) {
      var n := b[i].salesRepName;
      assert SalesRepNames(b)[i] == n;
      if n in SalesRepIds(before) {
        var j :| 0 <= j < |before| && before[j] == SalesRepRow(SalesRepIds(before)[n], n);
        assert rows[j] == rows[..|before|][j];
      } else {
        assert n in ro;
        assert HasSalesRep(rows, n);
      }
    }
  }

  lemma ProductsCovered(d: DbState, b: Batch, ps: seq<ProductIn>)
    requires forall i :: 0 <= i < |b| && ByName(b[i].productName) !in ProductIds(d.tables.products) ==>
      exists p :: p in ps && p.name == b[i].productName
    ensures ProductsCover(WithProducts(d, ps).tables.products, b)
  {
    var before := d.tables.products;
    var rows := WithProducts(d, ps).tables.products;
    assert rows == UpsertProducts(before, d.nextId, ps).0;
    UpsertProductsRows(before, d.nextId, ps);
    forall i | 0 <= i < |b| ensures ByName(b[i].productName) in ProductIds(rows) {
      var n := b[i].productName;
      if ByName(n) in ProductIds(before) {
        var j :| 0 <= j < |before| && before[j].name == n && before[j].id == ProductIds(before)[ByName(n)];
        assert SameButPrice(rows[j], before[j]);
      } else {
        var p :| p in ps && p.name == n;
        var j :| 0 <= j < |rows| && rows[j].name == p.name;
      }
    }
  }

  /** Every product of the batch whose name is unknown has a queued row of that name. */
  lemma ProductQueueCovers(b: Batch, productMap: map<ProductKey, Id>, storeMap: map<string, Id>)
    ensures forall i :: 0 <= i < |b| && ByName(b[i].productName) !in productMap ==>
      exists p :: p in ProductsToInsert(b, productMap, storeMap) && p.name == b[i].productName
  {
    forall i | 0 <= i < |b| && ByName(b[i].productName) !in productMap
      ensures exists p :: p in ProductsToInsert(b, productMap, storeMap) && p.name == b[i].productName
    {
      var p := ProductInOf(ProductTripleOf(b[i]), storeMap);
      ProductQueuedIff(b, productMap, storeMap, p);
    }
  }

  lemma InsertsCoverBatch(d: DbState, b: Batch, so: seq<string>, q: seq<ClientKey>, ro: seq<string>, ps: seq<ProductIn>)
    requires IsEnumeration(NewNames(StoreNames(b), StoreIds(d.tables.stores).Keys), so)
    requires forall k :: k in q <==> k in ClientKeys(b) && k !in ClientIds(d.tables.clients)
    requires IsEnumeration(NewNames(SalesRepNames(b), SalesRepIds(d.tables.salesReps).Keys), ro)
    requires forall i :: 0 <= i < |b| && ByName(b[i].productName) !in ProductIds(d.tables.products) ==>
      exists p :: p in ps && p.name == b[i].productName
    ensures Covered(AfterInserts(d, so, q, ro, ps).tables, b)
  {
    var d1 := WithStores(d, so);
    var d2 := WithClients(d1, q);
    var d3 := WithSalesReps(d2, ro);
    StoresCovered(d, b, so);
    ClientsCovered(d1, b, q);
    SalesRepsCovered(d2, b, ro);
    ProductsCovered(d3, b, ps);
  }

  /** After the reference phase every store, client, sales representative and
      product of the batch is in the store, under the key its key map uses. */
  lemma ReferencesCoverBatch(d: DbState, b: Batch, so: seq<string>, ro: seq<string>)
    requires Orders(d.tables, b, so, ro)
    ensures Covered(AfterReferences(d, b, so, ro).tables, b)
  {
    var m := FetchAll(d.tables);
    ClientQueueIsUnknownTriples(b, m.clients.Keys);
    ProductQueueCovers(b, m.products, m.stores);
    InsertsCoverBatch(d, b, so, ClientQueue(b, m.clients.Keys), ro, ProductsToInsert(b, m.products, m.stores));
  }

  lemma {:induction false} UnknownOfKnown<T(!new)>(s: seq<T>, known: set<T>)
    requires forall i :: 0 <= i < |s| ==> s[i] in known
    ensures Unknown(s, known) == []
    decreases |s|
  {
    if s != [] {
      UnknownOfKnown(s[..|s| - 1], known);
    }
  }

  lemma {:induction false} NothingNewKept(triples: seq<ProductTriple>, productMap: map<ProductKey, Id>, storeMap: map<string, Id>)
    requires forall i :: 0 <= i < |triples| ==> ByName(triples[i].productName) in productMap
    ensures KeepNewProducts(triples, productMap, storeMap) == []
    decreases |triples|
  {
    if triples != [] {
      NothingNewKept(triples[..|triples| - 1], productMap, storeMap);
    }
  }

  /** When the maps know the whole batch, no client and no product is queued. */
  lemma NothingQueuedWhenCovered(b: Batch, clientMap: map<ClientKey, Id>, productMap: map<ProductKey, Id>, storeMap: map<string, Id>)
    requires forall i :: 0 <= i < |b| ==> ClientKeyOf(b[i]) in clientMap && ByName(b[i].productName) in productMap
    ensures ClientQueue(b, clientMap.Keys) == []
    ensures ProductsToInsert(b, productMap, storeMap) == []
  {
    var ks := Distinct(ClientKeys(b));
    forall i | 0 <= i < |ks| ensures ks[i] in clientMap.Keys {
      assert ks[i] in ClientKeys(b);
      var j :| 0 <= j < |b| && ClientKeys(b)[j] == ks[i];
    }
    UnknownOfKnown(ks, clientMap.Keys);
    var ts := Distinct(ProductTriples(b));
    forall i | 0 <= i < |ts| ensures ByName(ts[i].productName) in productMap {
      assert ts[i] in ProductTriples(b);
      var j :| 0 <= j < |b| && ProductTriples(b)[j] == ts[i];
    }
    NothingNewKept(ts, productMap, storeMap);
  }

  /** Loading the same batch again finds every reference row present: the reference
      phase then issues no insert at all, only its fetches and commit. */
  lemma ReferencePhaseIdempotent(d: DbState, b: Batch, so: seq<string>, ro: seq<string>)
    requires Orders(d.tables, b, so, ro)
    ensures var t := AfterReferences(d, b, so, ro).tables;
      && Orders(t, b, [], [])
      && ReferenceCalls(FetchAll(t), b, [], []) == FetchCalls + [Committed]
  {
    var t := AfterReferences(d, b, so, ro).tables;
    ReferencesCoverBatch(d, b, so, ro);
    CoveredIdempotent(t, b);
  }

  lemma NoNewNames(names: seq<string>, known: set<string>)
    requires forall i :: 0 <= i < |names| ==> names[i] in known
    ensures NewNames(names, known) == {}
  {
    forall n | n in names ensures n in known {
      var i :| 0 <= i < |names| && names[i] == n;
    }
  }

  lemma StoresKnown(t: Tables, b: Batch)
    requires StoresCover(t.stores, b)
    ensures NewNames(StoreNames(b), StoreIds(t.stores).Keys) == {}
  {
    assert forall i :: 0 <= i < |b| ==> StoreNames(b)[i] == b[i].storeName;
    NoNewNames(StoreNames(b), StoreIds(t.stores).Keys);
  }

  lemma SalesRepsKnown(t: Tables, b: Batch)
    requires SalesRepsCover(t.salesReps, b)
    ensures NewNames(SalesRepNames(b), SalesRepIds(t.salesReps).Keys) == {}
  {
    assert forall i :: 0 <= i < |b| ==> SalesRepNames(b)[i] == b[i].salesRepName;
    NoNewNames(SalesRepNames(b), SalesRepIds(t.salesReps).Keys);
  }

  lemma NothingToInsert()
    ensures FetchCalls + (ReferenceStatements([], [], [], []) + [Committed]) == FetchCalls + [Committed]
  {
    assert ReferenceStatements([], [], [], []) == [];
  }

  lemma CoveredIdempotent(t: Tables, b: Batch)
    requires Covered(t, b)
    ensures Orders(t, b, [], [])
    ensures ReferenceCalls(FetchAll(t), b, [], []) == FetchCalls + [Committed]
  {
    var m := FetchAll(t);
    NothingQueuedWhenCovered(b, m.clients, m.products, m.stores);
    StoresKnown(t, b);
    SalesRepsKnown(t, b);
    NothingToInsert();
  }

  /** The headers inserted over tables that cover the batch: every store, client and
      sales representative id is resolved to the row of that name or key. */
  lemma HeadersResolve(t: Tables, b: Batch, i: nat)
    requires Covered(t, b)
    requires i < |TransactionRows(b, StoreIds(t.stores), ClientIds(t.clients), SalesRepIds(t.salesReps))|
    ensures var tt := Distinct(TransactionTuples(b))[i];
      var r := TransactionRows(b, StoreIds(t.stores), ClientIds(t.clients), SalesRepIds(t.salesReps))[i];
      && r.transactionId == tt.transactionId && r.transactionDate == tt.transactionDate
      && r.storeId.Some? && StoreRow(r.storeId.value, tt.storeName) in t.stores
      && r.clientId.Some? && ClientRow(r.clientId.value, tt.client) in t.clients
      && r.salesRepId.Some? && SalesRepRow(r.salesRepId.value, tt.salesRepName) in t.salesReps
  {
    TransactionRowsResolve(b, StoreIds(t.stores), ClientIds(t.clients), SalesRepIds(t.salesReps), i);
    var tt := Distinct(TransactionTuples(b))[i];
    var j :| 0 <= j < |b| && TransactionTuples(b)[j] == tt;
    assert tt == TransactionTupleOf(b[j]);
  }

  /** Two-phase dependency: the headers of the association phase find every store,
      client and sales representative the reference phase inserted. */
  lemma TransactionsResolve(d: DbState, b: Batch, so: seq<string>, ro: seq<string>, i: nat)
    requires Orders(d.tables, b, so, ro)
    requires var t := AfterReferences(d, b, so, ro).tables;
      i < |TransactionRows(b, StoreIds(t.stores), ClientIds(t.clients), SalesRepIds(t.salesReps))|
    ensures var t := AfterReferences(d, b, so, ro).tables;
      var r := TransactionRows(b, StoreIds(t.stores), ClientIds(t.clients), SalesRepIds(t.salesReps))[i];
      r.storeId.Some? && r.clientId.Some? && r.salesRepId.Some?
  {
    ReferencesCoverBatch(d, b, so, ro);
    HeadersResolve(AfterReferences(d, b, so, ro).tables, b, i);
  }

  // ---------------------------------------------------------------------------
  // The association phase

  /** The store after the association phase: one header per distinct transaction
      tuple and one link per distinct link tuple appended, and committed. */
  function AfterAssociations(d: DbState, b: Batch): DbState {
    var m := FetchAll(d.tables);
    var t := d.tables.(transactions := d.tables.transactions + TransactionRows(b, m.stores, m.clients, m.salesReps),
                       links := d.tables.links + LinkRows(b, m.products, m.stores));
    DbState(t, t, d.nextId)
  }

  /** Two inserts into the transaction tables after the fetches, then a commit. */
  lemma TwoInsertsCommitted(d: DbState, headers: seq<TransactionRow>, links: seq<LinkRow>)
    ensures Effects(d, (FetchCalls + [Executed(TransactionInsert(headers)), Executed(LinkInsert(links))]) + [Committed])
      == DbState(d.tables.(transactions := d.tables.transactions + headers, links := d.tables.links + links),
                 d.tables.(transactions := d.tables.transactions + headers, links := d.tables.links + links),
                 d.nextId)
  {
    var tx, ln := Executed(TransactionInsert(headers)), Executed(LinkInsert(links));
    assert (FetchCalls + [tx, ln]) + [Committed] == FetchCalls + ([tx] + ([ln] + [Committed]));
    EffectsOfFetches(d, FetchCalls);
    EffectsAppend(d, FetchCalls, [tx] + ([ln] + [Committed]));
    EffectsAppend(d, [tx], [ln] + [Committed]);
    EffectsAppend(Effect(d, tx), [ln], [Committed]);
  }

  lemma AssociationPhaseEffect(d: DbState, b: Batch)
    ensures Effects(d, AssociationCalls(FetchAll(d.tables), b)) == AfterAssociations(d, b)
  {
    var m := FetchAll(d.tables);
    AssociationShape(m, b);
    TwoInsertsCommitted(d, TransactionRows(b, m.stores, m.clients, m.salesReps), LinkRows(b, m.products, m.stores));
  }

  // ---------------------------------------------------------------------------
  // Whole runs, for any call sequence

  /** `RunBody` in closed form: the calls before the first scheduled failure take
      effect; on a failure the work is rolled back; the cursor and the connection are
      closed in every case. */
  lemma RunBodyCut(s: Session, calls: seq<Call>)
    ensures var k := Reached(s.issued, s.failAt, |calls|);
      var s1 := s.(db := Effects(s.db, calls[..k]), log := s.log + calls[..k], issued := s.issued + k);
      RunBody(s, true, calls) == if k == |calls| then (Closed(s1), Uploaded) else (Closed(Record(s1, RolledBack)), StoreFailed)
  {
    PerformIsCut(s, calls);
  }

  /** The log of a run: the calls that went through, then `rollback()` after a
      failure, then the two closes. */
  lemma RunBodyLog(s: Session, readable: bool, calls: seq<Call>)
    ensures var r := RunBody(s, readable, calls);
      var k := Reached(s.issued, s.failAt, |calls|);
      && r.0.log == s.log + (if !readable then [] else if k == |calls| then calls[..k] else calls[..k] + [RolledBack]) + [CursorClosed, ConnectionClosed]
      && !r.0.connected
      && (r.1 == StoreFailed <==> readable && k < |calls|)
  {
    if readable {
      RunBodyCut(s, calls);
    }
  }

  /** A log that ends with the two closes. */
  lemma ClosedLog(l0: seq<Call>, mid: seq<Call>)
    ensures |l0| + 2 <= |l0 + mid + [CursorClosed, ConnectionClosed]|
    ensures (l0 + mid + [CursorClosed, ConnectionClosed])[..|l0|] == l0
    ensures RolledBack in (l0 + mid + [CursorClosed, ConnectionClosed])[|l0|..] <==> RolledBack in mid
    ensures (l0 + mid + [CursorClosed, ConnectionClosed])[|l0 + mid + [CursorClosed, ConnectionClosed]| - 2..] == [CursorClosed, ConnectionClosed]
  {
    var l := l0 + mid + [CursorClosed, ConnectionClosed];
    assert l[|l0|..] == mid + [CursorClosed, ConnectionClosed];
  }

  lemma RunBodyRollbackIff(s: Session, readable: bool, calls: seq<Call>)
    requires RolledBack !in calls
    ensures var r := RunBody(s, readable, calls);
      && |s.log| + 2 <= |r.0.log| && r.0.log[..|s.log|] == s.log
      && (RolledBack in r.0.log[|s.log|..] <==> r.1 == StoreFailed)
      && r.0.log[|r.0.log| - 2..] == [CursorClosed, ConnectionClosed]
      && !r.0.connected
  {
    RunBodyLog(s, readable, calls);
    var k := Reached(s.issued, s.failAt, |calls|);
    var mid := if !readable then [] else if k == |calls| then calls[..k] else calls[..k] + [RolledBack];
    assert RolledBack in calls[..k] ==> RolledBack in calls;
    assert RolledBack in mid <==> readable && k < |calls|;
    ClosedLog(s.log, mid);
  }

  lemma RunBodyUnreadable(s: Session, calls: seq<Call>)
    requires s.db.tables == s.db.committed
    ensures RunBody(s, false, calls).1 == ReadFailed
    ensures RunBody(s, false, calls).0.log == s.log + [CursorClosed, ConnectionClosed]
    ensures RunBody(s, false, calls).0.db == s.db
  {
  }

  /** A failure before the first commit leaves nothing behind. */
  lemma RunBodyFailsBeforeCommit(s: Session, calls: seq<Call>)
    requires s.db.tables == s.db.committed
    requires Reached(s.issued, s.failAt, |calls|) < |calls|
    requires Committed !in calls[..Reached(s.issued, s.failAt, |calls|)]
    ensures var r := RunBody(s, true, calls);
      r.1 == StoreFailed && r.0.db.tables == s.db.tables && r.0.db.committed == s.db.committed
  {
    RunBodyCut(s, calls);
    EffectsKeepCommitted(s.db, calls[..Reached(s.issued, s.failAt, |calls|)]);
  }

  /** A failure among calls that do not commit leaves nothing behind. */
  lemma RunBodyFailsInPrefix(s: Session, pre: seq<Call>, post: seq<Call>)
    requires s.db.tables == s.db.committed
    requires Issuable(pre)
    requires post != []
    requires Reached(s.issued, s.failAt, |pre + post|) <= |pre|
    ensures var r := RunBody(s, true, pre + post);
      r.1 == StoreFailed && r.0.db.tables == s.db.tables && r.0.db.committed == s.db.committed
  {
    var k := Reached(s.issued, s.failAt, |pre + post|);
    assert (pre + post)[..k] == pre[..k];
    assert forall i :: 0 <= i < k ==> pre[..k][i] == pre[i];
    RunBodyFailsBeforeCommit(s, pre + post);
  }

  /** A failure after the calls `pre` committed everything they did, and before the
      next commit, leaves the store as `pre` left it. */
  lemma RunBodyFailsAfter(s: Session, pre: seq<Call>, post: seq<Call>)
    requires Effects(s.db, pre).tables == Effects(s.db, pre).committed
    requires |pre| <= Reached(s.issued, s.failAt, |pre + post|) < |pre + post|
    requires Committed !in post[..Reached(s.issued, s.failAt, |pre + post|) - |pre|]
    ensures var r := RunBody(s, true, pre + post);
      && r.1 == StoreFailed
      && r.0.db.tables == Effects(s.db, pre).tables
      && r.0.db.committed == Effects(s.db, pre).tables
  {
    var k := Reached(s.issued, s.failAt, |pre + post|);
    RunBodyCut(s, pre + post);
    assert (pre + post)[..k] == pre + post[..k - |pre|];
    EffectsAppend(s.db, pre, post[..k - |pre|]);
    EffectsKeepCommitted(Effects(s.db, pre), post[..k - |pre|]);
  }

  /** With no failure every call takes effect and, once the connection is closed, the
      store holds what was committed last. */
  lemma RunBodySucceeds(s: Session, calls: seq<Call>)
    requires Reached(s.issued, s.failAt, |calls|) == |calls|
    ensures var r := RunBody(s, true, calls);
      && r.1 == Uploaded
      && r.0.db.committed == Effects(s.db, calls).committed
      && r.0.db.tables == Effects(s.db, calls).committed
  {
    RunBodyCut(s, calls);
    assert calls[..|calls|] == calls;
  }

  // ---------------------------------------------------------------------------
  // Whole runs of `process_csv_file`

  /** A readable batch is uploaded exactly when no store call of the run is scheduled
      to fail, and otherwise ends in a store failure. */
  lemma UploadedIffNoFault(s: Session, b: Batch, so: seq<string>, ro: seq<string>)
    ensures var n := |BodyCalls(s.db, b, so, ro)|;
      && (Run(s, b, true, so, ro).1 == Uploaded <==> Reached(s.issued, s.failAt, n) == n)
      && (Run(s, b, true, so, ro).1 == StoreFailed <==> Reached(s.issued, s.failAt, n) < n)
  {
    RunBodyCut(s, BodyCalls(s.db, b, so, ro));
  }

  /** The run rolls back exactly when a store call failed, and always ends by closing
      the cursor and then the connection. */
  lemma RollbackIffStoreError(s: Session, b: Batch, readable: bool, so: seq<string>, ro: seq<string>)
    ensures var r := Run(s, b, readable, so, ro);
      && |s.log| + 2 <= |r.0.log| && r.0.log[..|s.log|] == s.log
      && (RolledBack in r.0.log[|s.log|..] <==> r.1 == StoreFailed)
      && r.0.log[|r.0.log| - 2..] == [CursorClosed, ConnectionClosed]
      && !r.0.connected
  {
    BodyCallsIssuable(s.db, b, so, ro);
    RunBodyRollbackIff(s, readable, BodyCalls(s.db, b, so, ro));
  }

  /** A batch that cannot be read is not rolled back: the connection is closed, and
      closing discards nothing since nothing was written. */
  lemma UnreadableClosesOnly(s: Session, b: Batch, so: seq<string>, ro: seq<string>)
    requires s.db.tables == s.db.committed
    ensures var r := Run(s, b, false, so, ro);
      && r.1 == ReadFailed
      && r.0.log == s.log + [CursorClosed, ConnectionClosed]
      && r.0.db == s.db
  {
    RunBodyUnreadable(s, BodyCalls(s.db, b, so, ro));
  }

  /** A store error in the reference phase leaves the store as it was before the run:
      nothing of the batch is committed. */
  lemma ReferenceErrorPersistsNothing(s: Session, b: Batch, so: seq<string>, ro: seq<string>)
    requires s.db.tables == s.db.committed
    requires Reached(s.issued, s.failAt, |BodyCalls(s.db, b, so, ro)|) < |ReferenceCalls(FetchAll(s.db.tables), b, so, ro)|
    ensures var r := Run(s, b, true, so, ro);
      r.1 == StoreFailed && r.0.db.tables == s.db.tables && r.0.db.committed == s.db.committed
  {
    var m := FetchAll(s.db.tables);
    var q := ClientQueue(b, m.clients.Keys);
    var ps := ProductsToInsert(b, m.products, m.stores);
    var refs := ReferenceCalls(m, b, so, ro);
    var assoc := AssociationCalls(FetchAll(Effects(s.db, refs).tables), b);
    ReferenceStatementsIssuable(so, q, ro, ps);
    Regroup(FetchCalls, ReferenceStatements(so, q, ro, ps), assoc);
    RunBodyFailsInPrefix(s, FetchCalls + ReferenceStatements(so, q, ro, ps), [Committed] + assoc);
  }

  /** A store error in the association phase keeps the committed reference rows: the
      store ends as the reference phase left it. */
  lemma AssociationErrorKeepsReferences(s: Session, b: Batch, so: seq<string>, ro: seq<string>)
    requires |ReferenceCalls(FetchAll(s.db.tables), b, so, ro)| <= Reached(s.issued, s.failAt, |BodyCalls(s.db, b, so, ro)|) < |BodyCalls(s.db, b, so, ro)|
    ensures var r := Run(s, b, true, so, ro);
      && r.1 == StoreFailed
      && r.0.db.tables == AfterReferences(s.db, b, so, ro).tables
      && r.0.db.committed == AfterReferences(s.db, b, so, ro).tables
  {
    var refs := ReferenceCalls(FetchAll(s.db.tables), b, so, ro);
    var assoc := AssociationCalls(FetchAll(Effects(s.db, refs).tables), b);
    var k := Reached(s.issued, s.failAt, |refs + assoc|);
    ReferencePhaseEffect(s.db, b, so, ro);
    var m1 := FetchAll(Effects(s.db, refs).tables);
    AssociationShape(m1, b);
    IssuableBeforeCommit(FetchCalls + AssociationStatements(m1, b), k - |refs|);
    RunBodyFailsAfter(s, refs, assoc);
  }

  /** An uploaded batch is committed in full: the reference rows, then one header per
      distinct transaction tuple and one link per distinct link tuple. */
  lemma UploadCommitsBoth(s: Session, b: Batch, so: seq<string>, ro: seq<string>)
    requires Run(s, b, true, so, ro).1 == Uploaded
    ensures var r := Run(s, b, true, so, ro);
      && r.0.db.tables == AfterAssociations(AfterReferences(s.db, b, so, ro), b).tables
      && r.0.db.committed == r.0.db.tables
  {
    var refs := ReferenceCalls(FetchAll(s.db.tables), b, so, ro);
    var d1 := Effects(s.db, refs);
    var body := BodyCalls(s.db, b, so, ro);
    UploadedIffNoFault(s, b, so, ro);
    RunBodySucceeds(s, body);
    ReferencePhaseEffect(s.db, b, so, ro);
    AssociationPhaseEffect(d1, b);
    EffectsAppend(s.db, refs, AssociationCalls(FetchAll(d1.tables), b));
  }

  /** The reference phase leaves the transaction tables alone. */
  lemma AfterInsertsKeepsAssociations(d: DbState, so: seq<string>, q: seq<ClientKey>, ro: seq<string>, ps: seq<ProductIn>)
    ensures AfterInserts(d, so, q, ro, ps).tables.transactions == d.tables.transactions
    ensures AfterInserts(d, so, q, ro, ps).tables.links == d.tables.links
  {
  }

  /** The association phase appends links whose product id is null. */
  lemma AssociationLinksNull(d: DbState, b: Batch)
    ensures var links := AfterAssociations(d, b).tables.links;
      && |d.tables.links| <= |links| && links[..|d.tables.links|] == d.tables.links
      && forall i :: |d.tables.links| <= i < |links| ==> links[i].productId == None
  {
    var added := LinkRows(b, ProductIds(d.tables.products), StoreIds(d.tables.stores));
    LinkProductIdsNull(b, d.tables.products, StoreIds(d.tables.stores));
    var links := AfterAssociations(d, b).tables.links;
    assert links == d.tables.links + added;
    forall i | |d.tables.links| <= i < |links| ensures links[i].productId == None {
      assert links[i] == added[i - |d.tables.links|];
    }
  }

  /** In an uploaded batch every link row gets a null product id. */
  lemma UploadedLinksHaveNullProducts(s: Session, b: Batch, so: seq<string>, ro: seq<string>)
    requires Run(s, b, true, so, ro).1 == Uploaded
    ensures var links := Run(s, b, true, so, ro).0.db.committed.links;
      && |s.db.tables.links| <= |links| && links[..|s.db.tables.links|] == s.db.tables.links
      && forall i :: |s.db.tables.links| <= i < |links| ==> links[i].productId == None
  {
    UploadCommitsBoth(s, b, so, ro);
    var d1 := AfterReferences(s.db, b, so, ro);
    var m := FetchAll(s.db.tables);
    AfterInsertsKeepsAssociations(s.db, so, ClientQueue(b, m.clients.Keys), ro, ProductsToInsert(b, m.products, m.stores));
    AssociationLinksNull(d1, b);
  }

  /** The reference phase leaves every stored product row as it was, price included:
      the product filter drops every known name before the upsert. */
  lemma ReferencePhaseKeepsProducts(d: DbState, b: Batch, so: seq<string>, ro: seq<string>)
    ensures var products := AfterReferences(d, b, so, ro).tables.products;
      |d.tables.products| <= |products| && products[..|d.tables.products|] == d.tables.products
  {
    var m := FetchAll(d.tables);
    var d3 := WithSalesReps(WithClients(WithStores(d, so), ClientQueue(b, m.clients.Keys)), ro);
    assert d3.tables.products == d.tables.products;
    KnownProductsKeepPrices(d.tables.products, d3.nextId, b, m.stores);
  }

  /** In an uploaded batch the product rows stored before the run are kept, prices
      included, at the head of the committed product table. */
  lemma UploadedKeepsProductPrices(s: Session, b: Batch, so: seq<string>, ro: seq<string>)
    requires Run(s, b, true, so, ro).1 == Uploaded
    ensures var products := Run(s, b, true, so, ro).0.db.committed.products;
      |s.db.tables.products| <= |products| && products[..|s.db.tables.products|] == s.db.tables.products
  {
    UploadCommitsBoth(s, b, so, ro);
    ReferencePhaseKeepsProducts(s.db, b, so, ro);
  }
}
