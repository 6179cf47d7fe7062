/**
 * `fetch_existing_ids`: a dictionary from each row's identity key to its surrogate id,
 * built by a comprehension over all rows of one table. Clients are keyed by the
 * (name, email, phone) triple, every other table by its name column alone; when two
 * rows share a key, the later row's id wins.
 */
module KeyMaps {
  import opened Wrappers
  import opened Batch
  import opened Schema

  /** A key of the product map. The fetched map only ever holds `ByName` keys; the
      transaction-product lookup asks for a `ByNameAndStore` key (a Python tuple). */
  datatype ProductKey = ByName(name: string) | ByNameAndStore(name: string, storeId: Option<Id>)

  /** Index of the last entry with key `k`, or -1 when there is none. */
  function LastIndex<K(==)>(entries: seq<(K, Id)>, k: K): (i: int)
    ensures -1 <= i < |entries|
    ensures i >= 0 ==> entries[i].0 == k
    ensures forall j :: i < j < |entries| ==> entries[j].0 != k
    decreases |entries|
  {
    if entries == [] then -1
    else if entries[|entries| - 1].0 == k then |entries| - 1
    else LastIndex(entries[..|entries| - 1], k)
  }

  /** `{key: id for ... in rows}` over (key, id) entries in row order: every key that
      occurs is present, with the id of the LAST entry carrying it. */
  function KeyMap<K(==)>(entries: seq<(K, Id)>): (m: map<K, Id>)
    ensures forall i :: 0 <= i < |entries| ==> entries[i].0 in m
    ensures forall k :: k in m ==> LastIndex(entries, k) >= 0 && m[k] == entries[LastIndex(entries, k)].1
  {
    map e | e in entries :: e.0 := entries[LastIndex(entries, e.0)].1
  }

  function StoreIds(rows: seq<StoreRow>): (m: map<string, Id>)
    ensures forall i :: 0 <= i < |rows| ==> rows[i].name in m
    ensures forall n :: n in m ==> StoreRow(m[n], n) in rows
  {
    var entries := seq(|rows|, i requires 0 <= i < |rows| => (rows[i].name, rows[i].id));
    assert forall i :: 0 <= i < |rows| ==> entries[i] == (rows[i].name, rows[i].id);
    KeyMap(entries)
  }

  function ClientIds(rows: seq<ClientRow>): (m: map<ClientKey, Id>)
    ensures forall i :: 0 <= i < |rows| ==> rows[i].key in m
    ensures forall k :: k in m ==> ClientRow(m[k], k) in rows
  {
    var entries := seq(|rows|, i requires 0 <= i < |rows| => (rows[i].key, rows[i].id));
    assert forall i :: 0 <= i < |rows| ==> entries[i] == (rows[i].key, rows[i].id);
    KeyMap(entries)
  }

  function SalesRepIds(rows: seq<SalesRepRow>): (m: map<string, Id>)
    ensures forall i :: 0 <= i < |rows| ==> rows[i].name in m
    ensures forall n :: n in m ==> SalesRepRow(m[n], n) in rows
  {
    var entries := seq(|rows|, i requires 0 <= i < |rows| => (rows[i].name, rows[i].id));
    assert forall i :: 0 <= i < |rows| ==> entries[i] == (rows[i].name, rows[i].id);
    KeyMap(entries)
  }

  /** Products keyed by name alone: the store a product belongs to is dropped. */
  function ProductIds(rows: seq<ProductRow>): (m: map<ProductKey, Id>)
    ensures forall i :: 0 <= i < |rows| ==> ByName(rows[i].name) in m
    ensures forall k :: k in m ==> k.ByName?
    ensures forall k :: k in m ==> exists i :: 0 <= i < |rows| && rows[i].name == k.name && rows[i].id == m[k]
  {
    var entries := seq(|rows|, i requires 0 <= i < |rows| => (ByName(rows[i].name), rows[i].id));
    assert forall i :: 0 <= i < |rows| ==> entries[i] == (ByName(rows[i].name), rows[i].id);
    KeyMap(entries)
  }

  /** The four maps `process_csv_file` fetches before each phase. */
  datatype Maps = Maps(
    stores: map<string, Id>,
    clients: map<ClientKey, Id>,
    salesReps: map<string, Id>,
    products: map<ProductKey, Id>)

  function FetchAll(t: Tables): Maps {
    Maps(StoreIds(t.stores), ClientIds(t.clients), SalesRepIds(t.salesReps), ProductIds(t.products))
  }
}
