/**
 * One parsed CSV batch: a sequence of rows with the ten named fields, the column
 * selections the loader takes from it, and `drop_duplicates` (distinct values in
 * first-occurrence order).
 */
module Batch {

  /** A price is passed through to the store and never computed with. */
  type Price = real

  datatype Row = Row(
    transactionId: string,
    transactionDate: string,
    storeName: string,
    salesRepName: string,
    clientName: string,
    email: string,
    phone: string,
    productName: string,
    price: Price,
    quantity: int)

  type Batch = seq<Row>

  /** Client identity: the full (name, email, phone) triple. */
  datatype ClientKey = ClientKey(name: string, email: string, phone: string)

  /** Columns product_name, store_name, price. */
  datatype ProductTriple = ProductTriple(productName: string, storeName: string, price: Price)

  /** Columns transaction_id, transaction_date, store_name, sales_representative_name,
      client_name, email_address, phone_number. */
  datatype TransactionTuple = TransactionTuple(
    transactionId: string, transactionDate: string, storeName: string,
    salesRepName: string, client: ClientKey)

  /** Columns transaction_id, product_name, store_name, quantity. */
  datatype LinkTuple = LinkTuple(transactionId: string, productName: string, storeName: string, quantity: int)

  function ClientKeyOf(r: Row): ClientKey {
    ClientKey(r.clientName, r.email, r.phone)
  }

  function ProductTripleOf(r: Row): ProductTriple {
    ProductTriple(r.productName, r.storeName, r.price)
  }

  function TransactionTupleOf(r: Row): TransactionTuple {
    TransactionTuple(r.transactionId, r.transactionDate, r.storeName, r.salesRepName, ClientKeyOf(r))
  }

  function LinkTupleOf(r: Row): LinkTuple {
    LinkTuple(r.transactionId, r.productName, r.storeName, r.quantity)
  }

  // Column selections, row by row.

  function StoreNames(b: Batch): (c: seq<string>)
    ensures |c| == |b| && forall i :: 0 <= i < |b| ==> c[i] == b[i].storeName
  {
    seq(|b|, i requires 0 <= i < |b| => b[i].storeName)
  }

  function SalesRepNames(b: Batch): (c: seq<string>)
    ensures |c| == |b| && forall i :: 0 <= i < |b| ==> c[i] == b[i].salesRepName
  {
    seq(|b|, i requires 0 <= i < |b| => b[i].salesRepName)
  }

  function ClientKeys(b: Batch): (c: seq<ClientKey>)
    ensures |c| == |b| && forall i :: 0 <= i < |b| ==> c[i] == ClientKeyOf(b[i])
  {
    seq(|b|, i requires 0 <= i < |b| => ClientKeyOf(b[i]))
  }

  function ProductTriples(b: Batch): (c: seq<ProductTriple>)
    ensures |c| == |b| && forall i :: 0 <= i < |b| ==> c[i] == ProductTripleOf(b[i])
  {
    seq(|b|, i requires 0 <= i < |b| => ProductTripleOf(b[i]))
  }

  function TransactionTuples(b: Batch): (c: seq<TransactionTuple>)
    ensures |c| == |b| && forall i :: 0 <= i < |b| ==> c[i] == TransactionTupleOf(b[i])
  {
    seq(|b|, i requires 0 <= i < |b| => TransactionTupleOf(b[i]))
  }

  function LinkTuples(b: Batch): (c: seq<LinkTuple>)
    ensures |c| == |b| && forall i :: 0 <= i < |b| ==> c[i] == LinkTupleOf(b[i])
  {
    seq(|b|, i requires 0 <= i < |b| => LinkTupleOf(b[i]))
  }

  predicate NoDuplicates<T(==)>(s: seq<T>) {
    forall i, j :: 0 <= i < j < |s| ==> s[i] != s[j]
  }

  /** Position of the first occurrence of `x` in `s`. */
  function FirstIndex<T(==)>(s: seq<T>, x: T): (k: nat)
    requires x in s
    ensures k < |s| && s[k] == x && x !in s[..k]
  {
    if s[0] == x then 0 else 1 + FirstIndex(s[1..], x)
  }

  /** Every element of `r` occurs in `src`, and `r` lists them in the order of their
      first occurrences in `src`. */
  predicate InFirstOccurrenceOrder<T(==)>(src: seq<T>, r: seq<T>) {
    && (forall x :: x in r ==> x in src)
    && (forall i, j :: 0 <= i < j < |r| ==> r[i] in src && r[j] in src && FirstIndex(src, r[i]) < FirstIndex(src, r[j]))
  }

  lemma {:induction false} FirstIndexOfPrefix<T>(s: seq<T>, n: nat, x: T)
    requires n <= |s| && x in s[..n]
    ensures FirstIndex(s, x) == FirstIndex(s[..n], x)
  {
    if s[0] != x {
      assert s[..n][1..] == s[1..][..n - 1];
      FirstIndexOfPrefix(s[1..], n - 1, x);
    }
  }

  /** The first index of an element that does not occur in `s[..n]` is at least `n`. */
  lemma {:induction false} FirstIndexPastPrefix<T>(s: seq<T>, n: nat, x: T)
    requires n <= |s| && x in s && x !in s[..n]
    ensures FirstIndex(s, x) >= n
  {
  }

  /** `DataFrame.drop_duplicates()` on one column selection: the distinct values of `s`,
      each once (their order is `DistinctOrdered`). */
  function Distinct<T(==,!new)>(s: seq<T>): (r: seq<T>)
    ensures |r| <= |s|
    ensures forall x :: x in r <==> x in s
    ensures NoDuplicates(r)
    decreases |s|
  {
    if |s| == 0 then []
    else
      var init := s[..|s| - 1];
      var last := s[|s| - 1];
      var d := Distinct(init);
      assert forall x :: x in s <==> x in init || x == last by {
        assert s == init + [last];
      }
      if last in d then d else d + [last]
  }

  /** `drop_duplicates` keeps the first occurrence of each value, in order. */
  lemma {:induction false} DistinctOrdered<T(!new)>(s: seq<T>)
    ensures InFirstOccurrenceOrder(s, Distinct(s))
    decreases |s|
  {
    if |s| > 0 {
      var init := s[..|s| - 1];
      assert s == init + [s[|s| - 1]];
      DistinctOrdered(init);
      DistinctStepOrdered(s, Distinct(init));
    }
  }

  lemma DistinctStepOrdered<T>(s: seq<T>, d: seq<T>)
    requires |s| > 0
    requires forall x :: x in d <==> x in s[..|s| - 1]
    requires InFirstOccurrenceOrder(s[..|s| - 1], d)
    ensures InFirstOccurrenceOrder(s, d)
    ensures s[|s| - 1] !in d ==> InFirstOccurrenceOrder(s, d + [s[|s| - 1]])
  {
    var n := |s| - 1;
    var init := s[..n];
    assert forall x :: x in init ==> x in s;
    forall i | 0 <= i < |d|
      ensures FirstIndex(s, d[i]) == FirstIndex(init, d[i])
    {
      FirstIndexOfPrefix(s, n, d[i]);
    }
    var last := s[n];
    if last !in d {
      var e := d + [last];
      assert last !in init;
      FirstIndexPastPrefix(s, n, last);
      forall i, j | 0 <= i < j < |e|
        ensures e[i] in s && e[j] in s && FirstIndex(s, e[i]) < FirstIndex(s, e[j])
      {
        if j < |d| {
          assert e[i] == d[i] && e[j] == d[j];
        } else {
          assert e[i] == d[i] && e[j] == last;
          assert FirstIndex(init, d[i]) < n;
        }
      }
    }
  }
}
