/**
 * The loader functions of `Processing.py`: `fetch_existing_ids` for the four key maps,
 * the four reference inserts and the two association inserts.
 *
 * What each function selects from the batch is a function on values (`NewNames`,
 * `ClientQueue`, `ProductsToInsert`, `TransactionRows`, `LinkRows`); the methods issue
 * the store calls and are proved to leave the store as `Perform` of those calls says.
 */
module Loader {
  import opened Wrappers
  import opened Batch
  import opened Schema
  import opened KeyMaps
  import opened Database

  // ---------------------------------------------------------------------------
  // fetch_existing_ids

  /** The four SELECTs of one phase, in the order `process_csv_file` issues them. */
  const FetchCalls: seq<Call> := [Fetched(Stores), Fetched(Clients), Fetched(SalesRepresentatives), Fetched(Products)]

  /** Fetches the four key maps. A SELECT leaves the tables as they are, so the maps
      are those of the tables the store holds. */
  method FetchMaps(db: Store) returns (ok: bool, maps: Maps)
    requires db.Valid() && db.connected
    modifies db
    ensures db.Valid() && db.connected
    ensures (db.Snapshot(), ok) == Perform(old(db.Snapshot()), FetchCalls)
    ensures db.tables == old(db.tables)
    ensures ok ==> maps == FetchAll(db.tables)
  {
    maps := Maps(map[], map[], map[], map[]);
    var f0, f1, f2, f3 := Fetched(Stores), Fetched(Clients), Fetched(SalesRepresentatives), Fetched(Products);
    assert FetchCalls == [f0] + ([f1] + ([f2] + [f3]));
    ghost var s0 := db.Snapshot();
    ok := db.Select(Stores);
    ghost var s1 := db.Snapshot();
    PerformStep(s0, [f0], [f1] + ([f2] + [f3]), s1, ok);
    if !ok { return; }
    var stores := StoreIds(db.tables.stores);

    ok := db.Select(Clients);
    ghost var s2 := db.Snapshot();
    PerformStep(s1, [f1], [f2] + [f3], s2, ok);
    if !ok { return; }
    var clients := ClientIds(db.tables.clients);

    ok := db.Select(SalesRepresentatives);
    ghost var s3 := db.Snapshot();
    PerformStep(s2, [f2], [f3], s3, ok);
    if !ok { return; }
    var salesReps := SalesRepIds(db.tables.salesReps);

    ok := db.Select(Products);
    if !ok { return; }
    var products := ProductIds(db.tables.products);
    maps := Maps(stores, clients, salesReps, products);
  }

  // ---------------------------------------------------------------------------
  // Set differences: insert_stores, insert_sales_representatives

  /** `set(column.unique()) - set(map.keys())`. */
  function NewNames(names: seq<string>, known: set<string>): (r: set<string>)
    ensures forall n :: n in r <==> n in names && n !in known
  {
    (set n | n in names) - known
  }

  /** `order` lists the elements of `s`, each once. */
  ghost predicate IsEnumeration<T(!new)>(s: set<T>, order: seq<T>) {
    NoDuplicates(order) && forall x :: x in order <==> x in s
  }

  lemma {:induction false} EnumerationExists<T(!new)>(s: set<T>)
    ensures exists order :: IsEnumeration(s, order)
    decreases |s|
  {
    if s == {} {
      assert IsEnumeration(s, []);
    } else {
      var x :| x in s;
      EnumerationExists(s - {x});
      var rest :| IsEnumeration(s - {x}, rest);
      assert IsEnumeration(s, [x] + rest);
    }
  }

  /** Iterating over a Python set: every element once, in an order the language does
      not specify. */
  method Enumerate<T(==,!new)>(s: set<T>) returns (order: seq<T>)
    ensures IsEnumeration(s, order)
  {
    order := [];
    var rest := s;
    while rest != {}
      invariant NoDuplicates(order)
      invariant forall x :: x in s <==> x in order || x in rest
      invariant forall x :: x in order ==> x !in rest
      invariant rest <= s
      decreases |rest|
    {
      var x :| x in rest;
      order := order + [x];
      rest := rest - {x};
    }
  }

  /** The one `executemany` a reference insert issues when it has rows, none otherwise. */
  function IfAny(present: bool, stmt: Statement): (calls: seq<Call>)
    ensures |calls| <= 1 && (present <==> calls == [Executed(stmt)])
  {
    if present then [Executed(stmt)] else []
  }

  /** `insert_stores`: one batch insert of exactly the batch's store names the store
      map does not know, each once; nothing when there are none. */
  method InsertStores(db: Store, b: Batch, storeMap: map<string, Id>) returns (ok: bool, order: seq<string>)
    requires db.Valid() && db.connected
    modifies db
    ensures db.Valid() && db.connected
    ensures IsEnumeration(NewNames(StoreNames(b), storeMap.Keys), order)
    ensures (db.Snapshot(), ok) == Perform(old(db.Snapshot()), IfAny(order != [], StoreInsert(order)))
  {
    order := Enumerate(NewNames(StoreNames(b), storeMap.Keys));
    if order != [] {
      ok := db.ExecuteMany(StoreInsert(order));
    } else {
      ok := true;
    }
  }

  /** `insert_sales_representatives`: as `insert_stores`, through the upsert. */
  method InsertSalesReps(db: Store, b: Batch, salesRepMap: map<string, Id>) returns (ok: bool, order: seq<string>)
    requires db.Valid() && db.connected
    modifies db
    ensures db.Valid() && db.connected
    ensures IsEnumeration(NewNames(SalesRepNames(b), salesRepMap.Keys), order)
    ensures (db.Snapshot(), ok) == Perform(old(db.Snapshot()), IfAny(order != [], SalesRepUpsert(order)))
  {
    order := Enumerate(NewNames(SalesRepNames(b), salesRepMap.Keys));
    if order != [] {
      ok := db.ExecuteMany(SalesRepUpsert(order));
    } else {
      ok := true;
    }
  }

  // ---------------------------------------------------------------------------
  // insert_clients

  /** The elements of `s` that are not in `known`, in the order of `s`. */
  function Unknown<T(==,!new)>(s: seq<T>, known: set<T>): (r: seq<T>)
    ensures |r| <= |s|
    decreases |s|
  {
    if s == [] then []
    else
      var r := Unknown(s[..|s| - 1], known);
      if s[|s| - 1] in known then r else r + [s[|s| - 1]]
  }

  lemma {:induction false} UnknownMembers<T(!new)>(s: seq<T>, known: set<T>)
    ensures forall x :: x in Unknown(s, known) <==> x in s && x !in known
    ensures NoDuplicates(s) ==> NoDuplicates(Unknown(s, known))
    decreases |s|
  {
    if s != [] {
      var init := s[..|s| - 1];
      assert s == init + [s[|s| - 1]];
      UnknownMembers(init, known);
    }
  }

  lemma UnknownSnoc<T(!new)>(s: seq<T>, x: T, known: set<T>)
    ensures Unknown(s + [x], known) == if x in known then Unknown(s, known) else Unknown(s, known) + [x]
  {
    assert (s + [x])[..|s|] == s;
  }

  lemma {:induction false} UnknownKeepsOrder<T(!new)>(src: seq<T>, s: seq<T>, known: set<T>)
    requires InFirstOccurrenceOrder(src, s)
    ensures InFirstOccurrenceOrder(src, Unknown(s, known))
    decreases |s|
  {
    if s != [] {
      var n := |s| - 1;
      var init := s[..n];
      var last := s[n];
      assert s == init + [last];
      UnknownKeepsOrder(src, init, known);
      UnknownMembers(init, known);
      var u := Unknown(init, known);
      if last !in known {
        var e := u + [last];
        forall i, j | 0 <= i < j < |e|
          ensures e[i] in src && e[j] in src && FirstIndex(src, e[i]) < FirstIndex(src, e[j])
        {
          if j == |u| {
            assert e[i] == u[i] && e[j] == last && u[i] in init;
            var p :| 0 <= p < n && init[p] == u[i];
            assert s[p] == u[i] && s[n] == last;
          } else {
            assert e[i] == u[i] && e[j] == u[j];
          }
        }
      }
    }
  }

  /** The clients `insert_clients` queues: the distinct batch triples the client map
      does not know, in the order of their first occurrence. */
  function ClientQueue(b: Batch, known: set<ClientKey>): (q: seq<ClientKey>)
    ensures |q| <= |b|
  {
    Unknown(Distinct(ClientKeys(b)), known)
  }

  /** Each unknown triple of the batch is queued exactly once, in first-occurrence
      order; known triples are not queued. */
  lemma ClientQueueIsUnknownTriples(b: Batch, known: set<ClientKey>)
    ensures forall k :: k in ClientQueue(b, known) <==> k in ClientKeys(b) && k !in known
    ensures NoDuplicates(ClientQueue(b, known))
    ensures InFirstOccurrenceOrder(ClientKeys(b), ClientQueue(b, known))
  {
    DistinctOrdered(ClientKeys(b));
    UnknownKeepsOrder(ClientKeys(b), Distinct(ClientKeys(b)), known);
    UnknownMembers(Distinct(ClientKeys(b)), known);
  }

  /** Client identity is the whole (name, email, phone) triple: two unknown rows with
      the same name and another email or phone are both queued. */
  lemma ClientIdentityIsTriple(b: Batch, known: set<ClientKey>, i: nat, j: nat)
    requires i < |b| && j < |b|
    requires b[i].clientName == b[j].clientName && (b[i].email != b[j].email || b[i].phone != b[j].phone)
    requires ClientKeyOf(b[i]) !in known && ClientKeyOf(b[j]) !in known
    ensures ClientKeyOf(b[i]) in ClientQueue(b, known) && ClientKeyOf(b[j]) in ClientQueue(b, known)
    ensures ClientKeyOf(b[i]) != ClientKeyOf(b[j])
  {
    ClientQueueIsUnknownTriples(b, known);
    assert ClientKeys(b)[i] == ClientKeyOf(b[i]) && ClientKeys(b)[j] == ClientKeyOf(b[j]);
  }

  /** One more element of a sequence without duplicates is not among the earlier ones. */
  lemma PrefixStep<T>(s: seq<T>, i: nat)
    requires NoDuplicates(s) && i < |s|
    ensures s[..i + 1] == s[..i] + [s[i]]
    ensures s[i] !in s[..i]
    ensures forall k :: k in s[..i + 1] <==> k in s[..i] || k == s[i]
  {
    assert s[..i + 1] == s[..i] + [s[i]];
    forall j | 0 <= j < i ensures s[..i][j] != s[i] {
      assert s[..i][j] == s[j];
    }
  }

  /** The loop of `insert_clients` over the distinct triples: queues the unknown
      ones and marks them in the client map with `None`. */
  method QueueClients(clients: seq<ClientKey>, clientMap: map<ClientKey, Id>) returns (newClients: seq<ClientKey>, marked: map<ClientKey, Option<Id>>)
    requires NoDuplicates(clients)
    ensures newClients == Unknown(clients, clientMap.Keys)
    ensures forall k :: k in marked <==> k in clientMap || k in clients
    ensures forall k :: k in clientMap ==> marked[k] == Some(clientMap[k])
    ensures forall k :: k in marked && k !in clientMap ==> marked[k] == None
  {
    newClients := [];
    marked := map k | k in clientMap :: Some(clientMap[k]);
    for i := 0 to |clients|
      invariant newClients == Unknown(clients[..i], clientMap.Keys)
      invariant forall k :: k in marked <==> k in clientMap || k in clients[..i]
      invariant forall k :: k in clientMap ==> marked[k] == Some(clientMap[k])
      invariant forall k :: k in marked && k !in clientMap ==> marked[k] == None
    {
      var key := clients[i];
      PrefixStep(clients, i);
      UnknownSnoc(clients[..i], key, clientMap.Keys);
      if key !in marked {
        newClients := newClients + [key];
        marked := marked[key := None];
      }
    }
    assert clients[..|clients|] == clients;
  }

  /** `insert_clients`: queues the unknown triples, marks them in the map, and issues
      one batch insert when the queue is not empty. */
  method InsertClients(db: Store, b: Batch, clientMap: map<ClientKey, Id>) returns (ok: bool, marked: map<ClientKey, Option<Id>>)
    requires db.Valid() && db.connected
    modifies db
    ensures db.Valid() && db.connected
    ensures forall k :: k in marked <==> k in clientMap || k in ClientKeys(b)
    ensures forall k :: k in clientMap ==> marked[k] == Some(clientMap[k])
    ensures forall k :: k in marked && k !in clientMap ==> marked[k] == None
    ensures var q := ClientQueue(b, clientMap.Keys);
            (db.Snapshot(), ok) == Perform(old(db.Snapshot()), IfAny(q != [], ClientInsert(q)))
  {
    var clients := Distinct(ClientKeys(b));
    var newClients;
    newClients, marked := QueueClients(clients, clientMap);
    if newClients != [] {
      ok := db.ExecuteMany(ClientInsert(newClients));
    } else {
      ok := true;
    }
  }

  // ---------------------------------------------------------------------------
  // insert_products

  /** A product row with its store name resolved through the store map (`None` when
      the map does not know the store). */
  function ProductInOf(t: ProductTriple, storeMap: map<string, Id>): (p: ProductIn)
    ensures p.name == t.productName && p.price == t.price
    ensures p.storeId.Some? <==> t.storeName in storeMap
    ensures p.storeId.Some? ==> p.storeId.value == storeMap[t.storeName]
  {
    ProductIn(t.productName, Get(storeMap, t.storeName), t.price)
  }

  /** Resolves the stores and keeps the rows whose product name the product map does
      not know, in order. */
  function KeepNewProducts(triples: seq<ProductTriple>, productMap: map<ProductKey, Id>, storeMap: map<string, Id>): (r: seq<ProductIn>)
    ensures |r| <= |triples|
    ensures forall t :: t in triples && ByName(t.productName) !in productMap ==> ProductInOf(t, storeMap) in r
    ensures forall p :: p in r ==> ByName(p.name) !in productMap && exists t :: t in triples && p == ProductInOf(t, storeMap)
    decreases |triples|
  {
    if triples == [] then []
    else
      var init := triples[..|triples| - 1];
      var last := triples[|triples| - 1];
      assert triples == init + [last];
      var r := KeepNewProducts(init, productMap, storeMap);
      if ByName(last.productName) in productMap then r else r + [ProductInOf(last, storeMap)]
  }

  /** The parameter rows of `insert_products`. */
  function ProductsToInsert(b: Batch, productMap: map<ProductKey, Id>, storeMap: map<string, Id>): (r: seq<ProductIn>)
    ensures |r| <= |b|
  {
    KeepNewProducts(Distinct(ProductTriples(b)), productMap, storeMap)
  }

  /** A product combination is queued iff it is one of the batch's (name, store, price)
      triples and its name alone is not a key of the product map. */
  lemma ProductQueuedIff(b: Batch, productMap: map<ProductKey, Id>, storeMap: map<string, Id>, p: ProductIn)
    ensures p in ProductsToInsert(b, productMap, storeMap) <==>
      ByName(p.name) !in productMap && exists i :: 0 <= i < |b| && p == ProductInOf(ProductTripleOf(b[i]), storeMap)
  {
    var ts := ProductTriples(b);
    if p in ProductsToInsert(b, productMap, storeMap) {
      var t :| t in Distinct(ts) && p == ProductInOf(t, storeMap);
      var i :| 0 <= i < |ts| && ts[i] == t;
      assert p == ProductInOf(ProductTripleOf(b[i]), storeMap);
    }
    if ByName(p.name) !in productMap && exists i :: 0 <= i < |b| && p == ProductInOf(ProductTripleOf(b[i]), storeMap) {
      var i :| 0 <= i < |b| && p == ProductInOf(ProductTripleOf(b[i]), storeMap);
      assert ts[i] in Distinct(ts);
    }
  }

  /** The filter looks at the name only: a product whose name is known is not queued
      for any store or price. */
  lemma ProductFilterIgnoresStore(b: Batch, productMap: map<ProductKey, Id>, storeMap: map<string, Id>, name: string)
    requires ByName(name) in productMap
    ensures forall p :: p in ProductsToInsert(b, productMap, storeMap) ==> p.name != name
  {
  }

  /** A product of a store the store map does not know is queued with a null store. */
  lemma UnknownStoreGivesNullStore(b: Batch, productMap: map<ProductKey, Id>, storeMap: map<string, Id>, i: nat)
    requires i < |b| && ByName(b[i].productName) !in productMap && b[i].storeName !in storeMap
    ensures ProductIn(b[i].productName, None, b[i].price) in ProductsToInsert(b, productMap, storeMap)
  {
    ProductQueuedIff(b, productMap, storeMap, ProductIn(b[i].productName, None, b[i].price));
    assert ProductIn(b[i].productName, None, b[i].price) == ProductInOf(ProductTripleOf(b[i]), storeMap);
  }

  /** Over the product map of the stored rows, the upsert of the queued rows leaves
      every stored row as it was, price included: a product that is already known is
      never repriced. */
  lemma KnownProductsKeepPrices(rows: seq<ProductRow>, next: nat, b: Batch, storeMap: map<string, Id>)
    ensures var r := UpsertProducts(rows, next, ProductsToInsert(b, ProductIds(rows), storeMap)).0;
      |rows| <= |r| && r[..|rows|] == rows
  {
    var ps := ProductsToInsert(b, ProductIds(rows), storeMap);
    forall j, i | 0 <= j < |ps| && 0 <= i < |rows| ensures rows[i].name != ps[j].name {
      assert ps[j] in ps && ByName(ps[j].name) !in ProductIds(rows);
      assert ByName(rows[i].name) in ProductIds(rows);
    }
    assert rows[..|rows|] == rows;
    UpsertNewNamesKeepPrefix(rows, rows, next, ps);
  }

  /** `insert_products`: one upsert of the queued rows when there are any. */
  method InsertProducts(db: Store, b: Batch, productMap: map<ProductKey, Id>, storeMap: map<string, Id>) returns (ok: bool)
    requires db.Valid() && db.connected
    modifies db
    ensures db.Valid() && db.connected
    ensures var ps := ProductsToInsert(b, productMap, storeMap);
            (db.Snapshot(), ok) == Perform(old(db.Snapshot()), IfAny(ps != [], ProductUpsert(ps)))
  {
    var newProducts := ProductsToInsert(b, productMap, storeMap);
    if newProducts != [] {
      ok := db.ExecuteMany(ProductUpsert(newProducts));
    } else {
      ok := true;
    }
  }

  // ---------------------------------------------------------------------------
  // insert_transactions, insert_transaction_products

  /** One transaction header with its store, client and sales representative resolved
      (`None` on a miss). */
  function ResolveTransaction(t: TransactionTuple, storeMap: map<string, Id>, clientMap: map<ClientKey, Id>, salesRepMap: map<string, Id>): (r: TransactionRow)
    ensures r.transactionId == t.transactionId && r.transactionDate == t.transactionDate
    ensures (r.storeId.Some? <==> t.storeName in storeMap) && (r.storeId.Some? ==> r.storeId.value == storeMap[t.storeName])
    ensures (r.clientId.Some? <==> t.client in clientMap) && (r.clientId.Some? ==> r.clientId.value == clientMap[t.client])
    ensures (r.salesRepId.Some? <==> t.salesRepName in salesRepMap) && (r.salesRepId.Some? ==> r.salesRepId.value == salesRepMap[t.salesRepName])
  {
    TransactionRow(t.transactionId, t.transactionDate, Get(storeMap, t.storeName), Get(clientMap, t.client), Get(salesRepMap, t.salesRepName))
  }

  function TransactionRows(b: Batch, storeMap: map<string, Id>, clientMap: map<ClientKey, Id>, salesRepMap: map<string, Id>): (r: seq<TransactionRow>)
    ensures |r| == |Distinct(TransactionTuples(b))|
  {
    var ts := Distinct(TransactionTuples(b));
    seq(|ts|, i requires 0 <= i < |ts| => ResolveTransaction(ts[i], storeMap, clientMap, salesRepMap))
  }

  /** One header per distinct projected tuple of the batch, in first-occurrence order;
      each id is the map's id for the name or key, or null when the map misses it. */
  lemma TransactionRowsResolve(b: Batch, storeMap: map<string, Id>, clientMap: map<ClientKey, Id>, salesRepMap: map<string, Id>, i: nat)
    requires i < |TransactionRows(b, storeMap, clientMap, salesRepMap)|
    ensures var t := Distinct(TransactionTuples(b))[i];
            var r := TransactionRows(b, storeMap, clientMap, salesRepMap)[i];
            && t in TransactionTuples(b)
            && r.transactionId == t.transactionId && r.transactionDate == t.transactionDate
            && (r.storeId.Some? <==> t.storeName in storeMap) && (r.storeId.Some? ==> r.storeId.value == storeMap[t.storeName])
            && (r.clientId.Some? <==> t.client in clientMap) && (r.clientId.Some? ==> r.clientId.value == clientMap[t.client])
            && (r.salesRepId.Some? <==> t.salesRepName in salesRepMap) && (r.salesRepId.Some? ==> r.salesRepId.value == salesRepMap[t.salesRepName])
  {
  }

  /** One link with its product looked up by (product name, store id), as written; a
      map keyed by names alone never holds such a key, so the lookup misses. */
  function ResolveLink(l: LinkTuple, productMap: map<ProductKey, Id>, storeMap: map<string, Id>): (r: LinkRow)
    ensures r.transactionId == l.transactionId && r.quantity == l.quantity
    ensures (forall k :: k in productMap ==> k.ByName?) ==> r.productId == None
  {
    LinkRow(l.transactionId, Get(productMap, ByNameAndStore(l.productName, Get(storeMap, l.storeName))), l.quantity)
  }

  function LinkRows(b: Batch, productMap: map<ProductKey, Id>, storeMap: map<string, Id>): (r: seq<LinkRow>)
    ensures |r| == |Distinct(LinkTuples(b))|
  {
    var ls := Distinct(LinkTuples(b));
    seq(|ls|, i requires 0 <= i < |ls| => ResolveLink(ls[i], productMap, storeMap))
  }

  /** The product map `fetch_existing_ids` builds is keyed by name alone, so the
      (name, store id) lookup never matches: every link gets a null product id, while
      transaction id and quantity are carried over. */
  lemma LinkProductIdsNull(b: Batch, products: seq<ProductRow>, storeMap: map<string, Id>)
    ensures forall i :: 0 <= i < |LinkRows(b, ProductIds(products), storeMap)| ==>
      var l := Distinct(LinkTuples(b))[i];
      LinkRows(b, ProductIds(products), storeMap)[i] == LinkRow(l.transactionId, None, l.quantity)
  {
  }

  /** `insert_transactions`: one batch insert, issued even when there are no rows;
      the rows are never checked against existing transactions. */
  method InsertTransactions(db: Store, b: Batch, storeMap: map<string, Id>, clientMap: map<ClientKey, Id>, salesRepMap: map<string, Id>) returns (ok: bool)
    requires db.Valid() && db.connected
    modifies db
    ensures db.Valid() && db.connected
    ensures (db.Snapshot(), ok) == Perform(old(db.Snapshot()), [Executed(TransactionInsert(TransactionRows(b, storeMap, clientMap, salesRepMap)))])
  {
    ok := db.ExecuteMany(TransactionInsert(TransactionRows(b, storeMap, clientMap, salesRepMap)));
  }

  /** `insert_transaction_products`: one batch insert, issued unconditionally. */
  method InsertTransactionProducts(db: Store, b: Batch, productMap: map<ProductKey, Id>, storeMap: map<string, Id>) returns (ok: bool)
    requires db.Valid() && db.connected
    modifies db
    ensures db.Valid() && db.connected
    ensures (db.Snapshot(), ok) == Perform(old(db.Snapshot()), [Executed(LinkInsert(LinkRows(b, productMap, storeMap)))])
  {
    ok := db.ExecuteMany(LinkInsert(LinkRows(b, productMap, storeMap)));
  }
}
