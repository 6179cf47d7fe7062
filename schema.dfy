/**
 * The six tables the loader writes, the batched statements it issues through
 * `cursor.executemany`, and what each statement does to the tables.
 *
 * Surrogate ids are auto-increment values: a row inserted with next id `n` gets `n`,
 * and the counter only grows. Their concrete values are not modelled beyond that.
 */
module Schema {
  import opened Wrappers
  import opened Batch

  type Id = nat

  datatype StoreRow = StoreRow(id: Id, name: string)
  datatype ClientRow = ClientRow(id: Id, key: ClientKey)
  datatype SalesRepRow = SalesRepRow(id: Id, name: string)
  datatype ProductRow = ProductRow(id: Id, name: string, storeId: Option<Id>, price: Price)
  datatype TransactionRow = TransactionRow(
    transactionId: string, transactionDate: string,
    storeId: Option<Id>, clientId: Option<Id>, salesRepId: Option<Id>)
  datatype LinkRow = LinkRow(transactionId: string, productId: Option<Id>, quantity: int)

  datatype Tables = Tables(
    stores: seq<StoreRow>,
    clients: seq<ClientRow>,
    salesReps: seq<SalesRepRow>,
    products: seq<ProductRow>,
    transactions: seq<TransactionRow>,
    links: seq<LinkRow>)

  /** One parameter tuple of the product insert: (product_name, store_id, price). */
  datatype ProductIn = ProductIn(name: string, storeId: Option<Id>, price: Price)

  /** One `executemany` call: the statement and its parameter rows. */
  datatype Statement =
    | StoreInsert(names: seq<string>)
    | ClientInsert(keys: seq<ClientKey>)
    | SalesRepUpsert(repNames: seq<string>)
    | ProductUpsert(products: seq<ProductIn>)
    | TransactionInsert(headers: seq<TransactionRow>)
    | LinkInsert(links: seq<LinkRow>)

  // ---------------------------------------------------------------------------
  // Fresh, distinct surrogate ids

  /** Strictly increasing ids, all below the next id to hand out. */
  predicate IdsBelow(ids: seq<Id>, next: nat) {
    && (forall i, j :: 0 <= i < j < |ids| ==> ids[i] < ids[j])
    && (forall i :: 0 <= i < |ids| ==> ids[i] < next)
  }

  function StoreIdList(rows: seq<StoreRow>): (ids: seq<Id>)
    ensures |ids| == |rows| && forall i :: 0 <= i < |rows| ==> ids[i] == rows[i].id
  {
    seq(|rows|, i requires 0 <= i < |rows| => rows[i].id)
  }

  function ClientIdList(rows: seq<ClientRow>): (ids: seq<Id>)
    ensures |ids| == |rows| && forall i :: 0 <= i < |rows| ==> ids[i] == rows[i].id
  {
    seq(|rows|, i requires 0 <= i < |rows| => rows[i].id)
  }

  function SalesRepIdList(rows: seq<SalesRepRow>): (ids: seq<Id>)
    ensures |ids| == |rows| && forall i :: 0 <= i < |rows| ==> ids[i] == rows[i].id
  {
    seq(|rows|, i requires 0 <= i < |rows| => rows[i].id)
  }

  function ProductIdList(rows: seq<ProductRow>): (ids: seq<Id>)
    ensures |ids| == |rows| && forall i :: 0 <= i < |rows| ==> ids[i] == rows[i].id
  {
    seq(|rows|, i requires 0 <= i < |rows| => rows[i].id)
  }

  /** Every reference table's surrogate ids are distinct and were handed out before `next`. */
  predicate WellFormed(t: Tables, next: nat) {
    && IdsBelow(StoreIdList(t.stores), next)
    && IdsBelow(ClientIdList(t.clients), next)
    && IdsBelow(SalesRepIdList(t.salesReps), next)
    && IdsBelow(ProductIdList(t.products), next)
  }

  // ---------------------------------------------------------------------------
  // Plain inserts

  function NumberedStores(next: nat, names: seq<string>): (rows: seq<StoreRow>)
    ensures |rows| == |names|
    ensures forall i :: 0 <= i < |names| ==> rows[i] == StoreRow(next + i, names[i])
  {
    seq(|names|, i requires 0 <= i < |names| => StoreRow(next + i, names[i]))
  }

  function NumberedClients(next: nat, keys: seq<ClientKey>): (rows: seq<ClientRow>)
    ensures |rows| == |keys|
    ensures forall i :: 0 <= i < |keys| ==> rows[i] == ClientRow(next + i, keys[i])
  {
    seq(|keys|, i requires 0 <= i < |keys| => ClientRow(next + i, keys[i]))
  }

  // ---------------------------------------------------------------------------
  // INSERT ... ON DUPLICATE KEY UPDATE sales_representative_name=sales_representative_name
  // (unique key taken to be the name). A name already present leaves its row as it is.

  predicate HasSalesRep(rows: seq<SalesRepRow>, name: string) {
    exists i :: 0 <= i < |rows| && rows[i].name == name
  }

  function UpsertSalesReps(rows: seq<SalesRepRow>, next: nat, names: seq<string>): (r: (seq<SalesRepRow>, nat))
    ensures next <= r.1
    ensures |rows| <= |r.0| && r.0[..|rows|] == rows
    ensures IdsBelow(SalesRepIdList(rows), next) ==> IdsBelow(SalesRepIdList(r.0), r.1)
    decreases |names|
  {
    if names == [] then (rows, next)
    else if HasSalesRep(rows, names[0]) then UpsertSalesReps(rows, next, names[1..])
    else
      var grown := rows + [SalesRepRow(next, names[0])];
      var r := UpsertSalesReps(grown, next + 1, names[1..]);
      assert r.0[..|rows|] == rows by {
        assert r.0[..|rows|] == r.0[..|grown|][..|rows|];
      }
      assert IdsBelow(SalesRepIdList(rows), next) ==> IdsBelow(SalesRepIdList(grown), next + 1);
      r
  }

  /** After the upsert every name has a row, and every appended row carries one of
      the names and a fresh id. */
  lemma {:induction false} UpsertSalesRepsRows(rows: seq<SalesRepRow>, next: nat, names: seq<string>)
    ensures forall n :: n in names ==> HasSalesRep(UpsertSalesReps(rows, next, names).0, n)
    ensures forall i :: |rows| <= i < |UpsertSalesReps(rows, next, names).0| ==>
      && UpsertSalesReps(rows, next, names).0[i].name in names
      && next <= UpsertSalesReps(rows, next, names).0[i].id < UpsertSalesReps(rows, next, names).1
    decreases |names|
  {
    if names != [] {
      var rest := names[1..];
      assert forall n :: n in names <==> n == names[0] || n in rest;
      if HasSalesRep(rows, names[0]) {
        var r := UpsertSalesReps(rows, next, rest);
        assert UpsertSalesReps(rows, next, names) == r;
        UpsertSalesRepsRows(rows, next, rest);
        assert HasSalesRep(r.0, names[0]) by {
          var i :| 0 <= i < |rows| && rows[i].name == names[0];
          assert r.0[i] == r.0[..|rows|][i];
        }
      } else {
        var grown := rows + [SalesRepRow(next, names[0])];
        var r := UpsertSalesReps(grown, next + 1, rest);
        assert UpsertSalesReps(rows, next, names) == r;
        UpsertSalesRepsRows(grown, next + 1, rest);
        assert HasSalesRep(r.0, names[0]) by {
          assert r.0[|rows|] == r.0[..|grown|][|rows|];
        }
      }
    }
  }

  /** The duplicate-key clause is a no-op: names that already have a row add nothing and
      change nothing, not even the auto-increment counter. */
  lemma {:induction false} UpsertKnownSalesReps(rows: seq<SalesRepRow>, next: nat, names: seq<string>)
    requires forall i :: 0 <= i < |names| ==> HasSalesRep(rows, names[i])
    ensures UpsertSalesReps(rows, next, names) == (rows, next)
    decreases |names|
  {
    if names != [] {
      assert HasSalesRep(rows, names[0]);
      assert forall i :: 0 <= i < |names[1..]| ==> names[1..][i] == names[i + 1];
      UpsertKnownSalesReps(rows, next, names[1..]);
    }
  }

  // ---------------------------------------------------------------------------
  // INSERT ... ON DUPLICATE KEY UPDATE price=VALUES(price)
  // (unique key taken to be (product_name, store_id)). A NULL store_id never collides
  // with another row in a unique index, so such a row is always inserted.

  predicate Collides(row: ProductRow, p: ProductIn) {
    p.storeId.Some? && row.name == p.name && row.storeId == p.storeId
  }

  predicate HasCollision(rows: seq<ProductRow>, p: ProductIn) {
    exists i :: 0 <= i < |rows| && Collides(rows[i], p)
  }

  /** The update branch: every colliding row takes the inserted row's price. */
  function Reprice(rows: seq<ProductRow>, p: ProductIn): (r: seq<ProductRow>)
    ensures |r| == |rows|
    ensures forall i :: 0 <= i < |rows| ==>
      r[i] == if Collides(rows[i], p) then rows[i].(price := p.price) else rows[i]
  {
    seq(|rows|, i requires 0 <= i < |rows| =>
      if Collides(rows[i], p) then rows[i].(price := p.price) else rows[i])
  }

  /** Rows that agree on everything but the price. */
  predicate SameButPrice(a: ProductRow, b: ProductRow) {
    a.id == b.id && a.name == b.name && a.storeId == b.storeId
  }

  /** One parameter row of the product upsert. */
  function UpsertProduct(rows: seq<ProductRow>, next: nat, p: ProductIn): (r: (seq<ProductRow>, nat))
    ensures |rows| <= |r.0| <= |rows| + 1 && forall i :: 0 <= i < |rows| ==> SameButPrice(r.0[i], rows[i])
    ensures |r.0| == |rows| ==> r.1 == next
    ensures |r.0| > |rows| ==> r.1 == next + 1 && r.0[|rows|] == ProductRow(next, p.name, p.storeId, p.price)
    ensures exists i :: 0 <= i < |r.0| && r.0[i].name == p.name
    ensures IdsBelow(ProductIdList(rows), next) ==> IdsBelow(ProductIdList(r.0), r.1)
  {
    if HasCollision(rows, p) then
      var r := Reprice(rows, p);
      assert ProductIdList(r) == ProductIdList(rows);
      assert exists i :: 0 <= i < |r| && r[i].name == p.name by {
        var i :| 0 <= i < |rows| && Collides(rows[i], p);
        assert r[i].name == p.name;
      }
      (r, next)
    else
      var r := rows + [ProductRow(next, p.name, p.storeId, p.price)];
      assert ProductIdList(r) == ProductIdList(rows) + [next];
      assert r[|rows|].name == p.name;
      (r, next + 1)
  }

  /** A parameter row that collides with a stored row overwrites that row's price and
      inserts nothing; any other row, in particular one with a null store, is appended
      with a fresh id. */
  lemma UpsertProductCases(rows: seq<ProductRow>, next: nat, p: ProductIn)
    ensures p.storeId.None? ==> !HasCollision(rows, p)
    ensures HasCollision(rows, p) ==>
      && UpsertProduct(rows, next, p).1 == next
      && |UpsertProduct(rows, next, p).0| == |rows|
      && (forall i :: 0 <= i < |rows| && Collides(rows[i], p) ==> UpsertProduct(rows, next, p).0[i] == rows[i].(price := p.price))
      && (forall i :: 0 <= i < |rows| && !Collides(rows[i], p) ==> UpsertProduct(rows, next, p).0[i] == rows[i])
    ensures !HasCollision(rows, p) ==> UpsertProduct(rows, next, p) == (rows + [ProductRow(next, p.name, p.storeId, p.price)], next + 1)
  {
  }

  function UpsertProducts(rows: seq<ProductRow>, next: nat, ps: seq<ProductIn>): (r: (seq<ProductRow>, nat))
    ensures next <= r.1
    ensures |rows| <= |r.0| && forall i :: 0 <= i < |rows| ==> SameButPrice(r.0[i], rows[i])
    ensures IdsBelow(ProductIdList(rows), next) ==> IdsBelow(ProductIdList(r.0), r.1)
    decreases |ps|
  {
    if ps == [] then (rows, next)
    else
      var step := UpsertProduct(rows, next, ps[0]);
      var r := UpsertProducts(step.0, step.1, ps[1..]);
      assert forall i :: 0 <= i < |rows| ==> SameButPrice(r.0[i], rows[i]) by {
        forall i | 0 <= i < |rows| ensures SameButPrice(r.0[i], rows[i]) {
          assert SameButPrice(r.0[i], step.0[i]) && SameButPrice(step.0[i], rows[i]);
        }
      }
      r
  }

  /** After the upsert every parameter row's name has a row, and every appended row
      carries a fresh id and the name and store of some parameter row. */
  lemma {:induction false} UpsertProductsRows(rows: seq<ProductRow>, next: nat, ps: seq<ProductIn>)
    ensures forall i :: |rows| <= i < |UpsertProducts(rows, next, ps).0| ==>
      var row := UpsertProducts(rows, next, ps).0[i];
      next <= row.id < UpsertProducts(rows, next, ps).1 &&
      exists p :: p in ps && row == ProductRow(row.id, p.name, p.storeId, row.price)
    ensures forall p :: p in ps ==> exists i :: 0 <= i < |UpsertProducts(rows, next, ps).0| && UpsertProducts(rows, next, ps).0[i].name == p.name
    decreases |ps|
  {
    if ps != [] {
      var p := ps[0];
      var rest := ps[1..];
      assert forall q :: q in ps <==> q == p || q in rest;
      var step := UpsertProduct(rows, next, p);
      var r := UpsertProducts(step.0, step.1, rest);
      UpsertProductsRows(step.0, step.1, rest);
      assert UpsertProducts(rows, next, ps) == r;
      assert exists i :: 0 <= i < |r.0| && r.0[i].name == p.name by {
        var i :| 0 <= i < |step.0| && step.0[i].name == p.name;
        assert SameButPrice(r.0[i], step.0[i]);
      }
      forall i | |rows| <= i < |r.0|
        ensures next <= r.0[i].id < r.1
        ensures exists q :: q in ps && r.0[i] == ProductRow(r.0[i].id, q.name, q.storeId, r.0[i].price)
      {
        if i < |step.0| {
          assert i == |rows| && SameButPrice(r.0[i], step.0[i]);
          assert r.0[i] == ProductRow(r.0[i].id, p.name, p.storeId, r.0[i].price);
        }
      }
    }
  }

  /** Parameter rows whose names no row of a prefix carries leave that prefix as it
      is, prices included. */
  lemma {:induction false} UpsertNewNamesKeepPrefix(pre: seq<ProductRow>, rows: seq<ProductRow>, next: nat, ps: seq<ProductIn>)
    requires |pre| <= |rows| && rows[..|pre|] == pre
    requires forall j, i :: 0 <= j < |ps| && 0 <= i < |pre| ==> pre[i].name != ps[j].name
    ensures |pre| <= |UpsertProducts(rows, next, ps).0| && UpsertProducts(rows, next, ps).0[..|pre|] == pre
    decreases |ps|
  {
    if ps != [] {
      var p := ps[0];
      var step := UpsertProduct(rows, next, p);
      UpsertProductCases(rows, next, p);
      forall i | 0 <= i < |pre| ensures step.0[i] == pre[i] {
        assert rows[i] == pre[i] && pre[i].name != p.name;
        assert !Collides(rows[i], p);
      }
      assert step.0[..|pre|] == pre;
      forall j, i | 0 <= j < |ps[1..]| && 0 <= i < |pre| ensures pre[i].name != ps[1..][j].name {
        assert ps[1..][j] == ps[j + 1];
      }
      UpsertNewNamesKeepPrefix(pre, step.0, step.1, ps[1..]);
    }
  }

  // ---------------------------------------------------------------------------

  /** What one successful `executemany` does: the new tables and the new next id. Each
      statement touches its own table only, and only the reference inserts draw ids. */
  function Apply(t: Tables, next: nat, stmt: Statement): (r: (Tables, nat))
    ensures !stmt.StoreInsert? ==> r.0.stores == t.stores
    ensures !stmt.ClientInsert? ==> r.0.clients == t.clients
    ensures !stmt.SalesRepUpsert? ==> r.0.salesReps == t.salesReps
    ensures !stmt.ProductUpsert? ==> r.0.products == t.products
    ensures !stmt.TransactionInsert? ==> r.0.transactions == t.transactions
    ensures !stmt.LinkInsert? ==> r.0.links == t.links
    ensures stmt.TransactionInsert? || stmt.LinkInsert? ==> r.1 == next
  {
    match stmt
    case StoreInsert(names) => (t.(stores := t.stores + NumberedStores(next, names)), next + |names|)
    case ClientInsert(keys) => (t.(clients := t.clients + NumberedClients(next, keys)), next + |keys|)
    case SalesRepUpsert(names) =>
      var (rows, n) := UpsertSalesReps(t.salesReps, next, names);
      (t.(salesReps := rows), n)
    case ProductUpsert(ps) =>
      var (rows, n) := UpsertProducts(t.products, next, ps);
      (t.(products := rows), n)
    case TransactionInsert(headers) => (t.(transactions := t.transactions + headers), next)
    case LinkInsert(links) => (t.(links := t.links + links), next)
  }

  /** Every statement keeps ids unique and below the auto-increment counter, and never
      moves the counter back. */
  lemma ApplyWellFormed(t: Tables, next: nat, stmt: Statement)
    ensures next <= Apply(t, next, stmt).1
    ensures WellFormed(t, next) ==> WellFormed(Apply(t, next, stmt).0, Apply(t, next, stmt).1)
  {
    match stmt
    case StoreInsert(names) =>
      assert StoreIdList(t.stores + NumberedStores(next, names)) == StoreIdList(t.stores) + seq(|names|, i requires 0 <= i < |names| => next + i);
    case ClientInsert(keys) =>
      assert ClientIdList(t.clients + NumberedClients(next, keys)) == ClientIdList(t.clients) + seq(|keys|, i requires 0 <= i < |keys| => next + i);
    case _ =>
  }
}
