# Reconcile-and-load pipeline of `Processing.py`, in Dafny

`Processing.py` loads one CSV batch of sales rows into a MySQL database in two commit
phases. The first phase fetches key maps of the reference tables (stores, clients,
sales representatives, products), inserts the reference rows the maps do not know and
commits. The second phase fetches the maps again, inserts one transaction header per
distinct transaction tuple and one transaction-product link per distinct link tuple,
and commits. A `mysql.connector.Error` anywhere in the `try` block rolls back; the cursor
and the connection are always closed.

This project models that core and proves what it does:

- `Batch`: rows with the ten named fields, the column selections, and `drop_duplicates`
  as `Distinct` (distinct values in first-occurrence order).
- `Schema`: the six tables, the six batched statements and what one successful
  `executemany` does (`Apply`), including both `ON DUPLICATE KEY UPDATE` clauses.
  Surrogate ids are fresh auto-increment values.
- `KeyMaps`: `fetch_existing_ids`, a dictionary comprehension in which the last row with
  a key wins. Clients are keyed by (name, email, phone), every other table by name.
- `Database`: the store as a value (`Session`, `Effect`, `Perform`). Store errors come
  from a failure schedule: the k-th store call of the connection raises. The `Store`
  class holds the same state in fields, and its methods are proved to change it as
  `Perform` says.
- `Loader`: `insert_stores`, `insert_clients` (with its loop over the distinct
  triples), `insert_sales_representatives`, `insert_products`, `insert_transactions`
  and `insert_transaction_products`. Each selection is a function on values. The
  methods issue the store calls.
- `Pipeline`: `process_csv_file` as a method over a `Store`, proved equal to the
  function `Run` on the store's session.
- `Guarantees`: lemmas about `Run`. They cover:
  - the tables each phase leaves;
  - what survives a store error in either phase;
  - that rollback happens exactly on a store error;
  - that a second load of the same batch inserts no reference row;
  - that headers resolve every reference the first phase inserted;
  - that every link gets a null product id.

Four behaviours of the code differ from what its design describes; the model follows
the code:

- Unresolved store, client, sales representative or product ids become null; the row
  is still inserted, not dropped.
- A product whose name is already known is never queued, so its stored price is never
  overwritten by a run (`Guarantees.UploadedKeepsProductPrices`), although the upsert
  carries `price=VALUES(price)`. Only two rows of the same batch with the same
  (name, store id) can reprice one another.
- The store map used by `insert_products` is fetched before the new stores are
  inserted. A product of a new store is therefore inserted with a null store id
  (`Loader.UnknownStoreGivesNullStore`; the NaN that the lookup yields is taken as SQL
  NULL, see Left out).
- The link lookup by (name, store id) never matches the name-keyed product map
  (`Loader.LinkProductIdsNull`).

Choices about the database, which the source does not show:
- The sales-representative upsert's unique key is the name.
- The product upsert's unique key is (product_name, store_id). A null store_id never
  collides.
- Closing a connection discards uncommitted work.
- The auto-increment counter is not rolled back.

## Model

| member | source | states |
|---|---|---|
| Wrappers.Get | Processing.py:91-95 | a lookup is `Some` exactly when the key is in the map, and then carries the map's value; a miss is `None` |
| Batch.Distinct | Processing.py:45 | the result holds exactly the values of the selection, each once |
| Batch.DistinctOrdered | Processing.py:45 | `drop_duplicates` keeps first occurrences, in the order in which they first occur |
| KeyMaps.KeyMap | Processing.py:25-28 | every key of the rows is in the dictionary, and each key maps to the id of the last row carrying it |
| KeyMaps.StoreIds | Processing.py:27-28 | every store name is a key, and each key maps to the id of a stored row with that name |
| KeyMaps.ClientIds | Processing.py:23-25 | clients are keyed by the (name, email, phone) triple, and each key maps to a stored client row with that triple |
| KeyMaps.SalesRepIds | Processing.py:27-28 | every sales representative name is a key and maps to a stored row with that name |
| KeyMaps.ProductIds | Processing.py:27-28 | products are keyed by name alone, and each key maps to the id of a stored product of that name |
| Schema.UpsertSalesReps | Processing.py:68-70 | the upsert keeps the existing rows as they were, never moves the counter back, and keeps ids distinct and below the counter |
| Schema.UpsertSalesRepsRows | Processing.py:68-70 | afterwards every name has a row, and every appended row carries one of the names and a fresh id |
| Schema.UpsertKnownSalesReps | Processing.py:69 | the duplicate-key clause is a no-op: names that already have a row change nothing, not even the counter |
| Schema.UpsertProduct | Processing.py:81-84 | one parameter row changes no id, name or store; it adds at most one row, with the next fresh id; its name is then present |
| Schema.UpsertProductCases | Processing.py:82 | a row that collides on (name, store id) overwrites the stored price and inserts nothing; any other row, including one with a null store id, is appended with a fresh id |
| Schema.UpsertProducts | Processing.py:81-84 | the upsert keeps every stored row's id, name and store id, and keeps ids distinct and below the counter |
| Schema.UpsertProductsRows | Processing.py:81-84 | afterwards every parameter row's name has a row; every appended row has a fresh id and the name and store of a parameter row |
| Schema.UpsertNewNamesKeepPrefix | Processing.py:81-84 | parameter rows whose names no stored row of a prefix carries leave that prefix as it is, prices included |
| Schema.Apply | Processing.py:31-116 | each of the six `executemany` statements changes only its own table, and the transaction inserts draw no ids |
| Schema.ApplyWellFormed | Processing.py:35-38 | every statement keeps the reference tables' ids distinct and below the counter, and never moves the counter back |
| Database.Effect | Processing.py:24-158 | fetches and closing the cursor change nothing; only a commit changes the committed snapshot, to the pending tables; a rollback and a connection close return to it; only statements move the counter |
| Database.Perform | Processing.py:125-150 | calls are issued in order; all of them are issued exactly when the run succeeds, and on a failure the call that raised is the scheduled one |
| Database.EffectSound | Processing.py:139 | one call keeps the store sound, never moves the counter back, and only a commit changes the committed snapshot |
| Database.EffectsKeepCommitted | Processing.py:139 | calls other than a commit leave the committed snapshot unchanged |
| Database.PerformIsCut | Processing.py:125-155 | the calls before the first scheduled failure are issued, logged and take effect, and no call after it does; the run succeeds exactly when no call failed |
| Database.Store.Connect | Processing.py:121-123 | a failed connection changes nothing |
| Database.Store.Select | Processing.py:24 | a SELECT is logged or fails and changes no table |
| Database.Store.ExecuteMany | Processing.py:35-38 | `executemany` applies its statement or fails with no effect |
| Database.Store.Commit | Processing.py:139 | a commit copies the pending tables into the committed snapshot, or fails with no effect |
| Database.Store.Rollback | Processing.py:155 | a rollback restores the committed snapshot |
| Database.Store.CloseCursor | Processing.py:157 | closing the cursor is only logged |
| Database.Store.Close | Processing.py:158 | closing the connection discards uncommitted work and leaves it closed |
| Loader.FetchMaps | Processing.py:129-132 | four SELECTs in order; on success the maps are the key maps of the unchanged tables |
| Loader.NewNames | Processing.py:33 | a name is new exactly when it occurs in the batch column and is not a key of the map |
| Loader.Enumerate | Processing.py:37 | iterating a set yields each element exactly once |
| Loader.InsertStores | Processing.py:31-39 | one insert of exactly the new store names, each once, and no call when there are none |
| Loader.InsertSalesReps | Processing.py:64-72 | one upsert of exactly the new sales representative names, each once, and no call when there are none |
| Loader.ClientQueueIsUnknownTriples | Processing.py:45-53 | the queue holds exactly the batch triples the map does not know, once each, in first-occurrence order |
| Loader.ClientQueue | Processing.py:45-53 | the queue built from the distinct triples is no longer than the batch; its content is stated by `Loader.ClientQueueIsUnknownTriples` |
| Loader.ClientIdentityIsTriple | Processing.py:50-51 | two unknown rows with the same name but another email or phone are both queued, under different keys |
| Loader.QueueClients | Processing.py:48-53 | the loop queues the unknown triples in order; the map then holds every triple, known ones with their ids and queued ones with `None` |
| Loader.InsertClients | Processing.py:42-61 | as the loop, then one insert of the queue when it is not empty, and no call otherwise |
| Loader.ProductInOf | Processing.py:78 | a product row keeps its name and price, and its store id is the map's id for its store, or null exactly when the map does not know it |
| Loader.ProductsToInsert | Processing.py:77-79 | the queued product rows are no more than the batch rows; their content is stated by `Loader.ProductQueuedIff` |
| Loader.KeepNewProducts | Processing.py:78-79 | every triple whose name is not a map key is kept with its store resolved; every kept row comes from such a triple |
| Loader.ProductQueuedIff | Processing.py:77-79 | a product row is queued exactly when it is one of the batch's (name, store, price) triples, store resolved, and its name alone is unknown |
| Loader.ProductFilterIgnoresStore | Processing.py:79 | a known product name is never queued, for any store or price |
| Loader.UnknownStoreGivesNullStore | Processing.py:78 | a product of a store the map does not know is queued with a null store id |
| Loader.KnownProductsKeepPrices | Processing.py:79-84 | over the product map of the stored rows, the upsert of the queued rows leaves every stored row as it was, price included |
| Loader.InsertProducts | Processing.py:75-85 | one upsert of the queued rows when there are any, and no call otherwise |
| Loader.ResolveTransaction | Processing.py:91-95 | a header keeps its transaction id and date, and each of its three ids is the map's id for its key, or null exactly when the map misses it |
| Loader.TransactionRows | Processing.py:90-96 | one header per distinct transaction tuple |
| Loader.TransactionRowsResolve | Processing.py:90-96 | one header per distinct tuple, in order; each id is the map's id for its name or triple, or null exactly when the map misses it |
| Loader.ResolveLink | Processing.py:107-110 | a link keeps its transaction id and quantity, and against a map keyed by names alone its product id is null |
| Loader.LinkRows | Processing.py:106-111 | one link per distinct link tuple |
| Loader.LinkProductIdsNull | Processing.py:106-111 | over the name-keyed product map, every link keeps its transaction id and quantity and gets a null product id |
| Loader.InsertTransactions | Processing.py:97-100 | one insert of all headers, issued even when there are none, never filtered against stored transactions |
| Loader.InsertTransactionProducts | Processing.py:112-115 | one insert of all links, issued unconditionally |
| Pipeline.Run | Processing.py:119-158 | a run on an open connection ends closed, after closing the cursor and then the connection; it ends as `ReadFailed` exactly when the file is unreadable |
| Pipeline.RunBody | Processing.py:125-158 | the `try`, `except` and `finally` blocks over a call sequence: the same closing and outcome facts, for any calls |
| Pipeline.BodyCalls | Processing.py:125-150 | the calls of the `try` block open with the four fetches and end with the second commit |
| Pipeline.LoadReferences | Processing.py:129-139 | the reference phase performs its four fetches, then the inserts, then the commit; it stops at the first failing call; the store-name and sales-representative orders enumerate the new names |
| Pipeline.InsertReferences | Processing.py:135-139 | the four reference inserts in order, then the commit; a failing call skips the rest |
| Pipeline.LoadAssociations | Processing.py:142-150 | the second phase re-fetches the maps, then inserts the headers, the links, and commits, stopping at the first failing call |
| Pipeline.ProcessCsvFile | Processing.py:119-158 | an unreachable server leaves the store untouched; otherwise the store ends exactly as `Run` says, whether the file is unreadable, a call fails or the batch is uploaded |
| Guarantees.BodyCallsIssuable | Processing.py:125-150 | the `try` block itself never rolls back |
| Guarantees.ReferencePhaseEffect | Processing.py:129-139 | after the reference phase, stores and clients are appended with fresh ids, sales representatives and products are upserted, and all of it is committed |
| Guarantees.AssociationPhaseEffect | Processing.py:142-150 | the association phase appends the headers and links resolved through the re-fetched maps, and commits |
| Guarantees.ReferencesCoverBatch | Processing.py:135-138 | after the reference phase, the key maps know every store, client, sales representative and product of the batch |
| Guarantees.ReferencePhaseIdempotent | Processing.py:33-34 | loading the same batch again issues no reference insert: only the fetches and the commit |
| Guarantees.HeadersResolve | Processing.py:90-96 | over tables that cover the batch, every header resolves its store, client and sales representative to the stored row of that name or triple |
| Guarantees.TransactionsResolve | Processing.py:142-148 | the headers of a run find every store, client and sales representative the first phase inserted: none of their ids is null |
| Guarantees.UploadedIffNoFault | Processing.py:125-153 | a readable batch is uploaded exactly when no store call fails, and otherwise ends in a store failure |
| Guarantees.RollbackIffStoreError | Processing.py:153-158 | the run rolls back exactly when a store call failed, and always ends by closing the cursor and then the connection |
| Guarantees.UnreadableClosesOnly | Processing.py:126 | an unreadable file is not rolled back; the cursor and connection are closed and the store is unchanged |
| Guarantees.ReferenceErrorPersistsNothing | Processing.py:129-155 | a store error in the reference phase leaves the store as it was before the run |
| Guarantees.AssociationErrorKeepsReferences | Processing.py:139-155 | a store error in the association phase keeps the committed reference rows and nothing of the second phase |
| Guarantees.UploadCommitsBoth | Processing.py:129-150 | an uploaded batch is committed in full: the reference rows, then the headers and the links |
| Guarantees.AssociationLinksNull | Processing.py:145-149 | the association phase only appends links, and every appended link has a null product id |
| Guarantees.ReferencePhaseKeepsProducts | Processing.py:132-138 | the reference phase keeps every stored product row, price included, at the head of the product table |
| Guarantees.UploadedKeepsProductPrices | Processing.py:119-158 | in an uploaded batch the product rows stored before the run are kept, prices included, at the head of the committed product table |
| Guarantees.UploadedLinksHaveNullProducts | Processing.py:109 | in an uploaded batch every new link row has a null product id |

## Left out

- Connection setup (`get_db_connection`, Processing.py:9-18) is reduced to "connecting
  may fail, and then `process_csv_file` returns". The configuration is not modelled.
- `pd.read_csv` is reduced to a flag: the file can be read and parses to the given
  batch, or it fails. The batch is given already parsed, as typed rows.
- Logging throughout, and the `__main__` block with its file list, are not modelled.
- Exceptions other than `mysql.connector.Error` are limited to an unreadable file. With
  typed rows, a missing column (`KeyError`) cannot happen. Such an exception leaves
  `process_csv_file` without a rollback, after the `finally` block closes.
- `rollback()`, `cursor.close()` and `con.close()` are modelled as never failing.
- NaN and `None` from a pandas lookup that misses are both `None` (SQL NULL). What the
  driver does with a NaN parameter is not visible in the source.
- `executemany` with an empty parameter list still counts as one store call, which may
  fail. Its effect is empty.
- Prices are opaque values that are passed through; no float arithmetic.
- Set iteration order in `insert_stores` and `insert_sales_representatives` is not
  specified by Python. The model leaves it open: the chosen orders are ghost results
  of the methods, and the lemmas hold for every order.
- Pipeline.ProcessCsvFile: the `client_map` that `insert_clients` updates in place is
  a new map returned by `Loader.InsertClients`. The caller never reads it again before
  it re-fetches the maps.
- KeyMaps.KeyMap: `fetchall()` is taken to return rows in table order, so the last row
  with a key wins. A `SELECT` without `ORDER BY` has no specified order. Only the
  product names repeat, and product ids are never read.
- Concrete auto-increment values are only fresh, increasing and below the counter.
- The SQL schema and its unique keys are not visible. The two upsert keys are the
  choices stated above.
- `test_processing.py` is not part of this model.
