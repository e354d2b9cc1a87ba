# Demo Jam API: the in-memory Item store

This project models the core of the Demo Jam API, a small HTTP service with
create, read, update and delete operations over one resource, the Item
(`id`, `name`, `description`). The items live in one shared, ordered
collection in memory. The five handlers do the following:

- **List** (`GET /items`) returns the whole collection.
- **Get** (`GET /items/{id}`) scans the collection from front to back and
  returns the first item whose id matches.
- **Create** (`POST /items`) replaces any id the client sent with the decimal
  rendering of a drawn number in [0, 1000000), then appends the item.
- **Update** (`PUT /items/{id}`) scans for the first match and sets its
  `name` and `description` in place. Its id and position stay the same.
- **Delete** (`DELETE /items/{id}`) scans for the first match and splices
  it out. The other items keep their order.

Each handler answers with a status code (200, 201, 400 or 404) and a payload:
an item, a list of items, `{"error": message}`, or
`{"result": "success", "id_deleted": id}`.

Files:

- `decimal.dfy`, module `Decimal`: the decimal rendering `Itoa` that produces
  new ids, and its inverse `ParseDecimal`.
- `items.dfy`, module `Items`: the `Item`, `Payload` and `Response`
  datatypes. It also holds the first-match search `FirstIndex`, the two
  collection edits `Patched` and `Removed`, and lemmas about how the
  operations compose. `ErrorResponse` is the payload `respondWithError`
  writes.
- `store.dfy`, module `ItemStore`: the class `Store`, whose field `items` is
  the shared collection. It has one method per handler. `Get`, `Update` and
  `Delete` are each written as their handler's `for ... range` loop in
  main.go, with invariants; `List` and `Create` have no loop, as their
  handlers have none. `MockScenario` is a client method. It replays the
  outcomes the handler tests in main_test.go check, for every test case,
  using only the method contracts.

Inputs the model takes as parameters:

- the path id;
- the decoded request body, as an `Option<Item>` (`None` means the JSON did
  not decode);
- the number the random generator draws, a natural number below `MAX_DRAW`
  (1000000).

Ids are not kept unique: `createItem` (main.go:94) stores whatever number is
drawn and never compares it with the ids already present. Every property is
stated in terms of the FIRST item with a matching id, which is what the loops
of Get, Update and Delete find. `Items.CreateThenGet` makes the
consequence explicit. When the drawn id is already taken, a later lookup still
returns the older item.

## Model

| member | source | states |
|---|---|---|
| `Decimal.Itoa` | main.go:94 | a generated id is non-empty, made only of decimal digits, and has no leading zero unless the number is 0 |
| `Decimal.ParseItoa` | main.go:94 | reading the generated id back as a decimal number gives the drawn number |
| `Decimal.ItoaInjective` | main.go:94 | two draws give the same id exactly when they are the same number |
| `Decimal.ItoaLength` | main.go:94 | a number below 10^k renders in at most k digits |
| `Decimal.DrawnId` | main.go:94 | every id the generator can produce, for any draw in [0, 1000000), is 1 to 6 decimal digits |
| `Items.FirstIndex` | main.go:70-75 | the scan stops at a position exactly when that item has the id and no earlier one does; it finds nothing exactly when no item has the id |
| `Items.Patched` | main.go:117-122 | the updated collection has the same length and the same id at every position; the target takes the patch's name and description; every other item is unchanged |
| `Items.Removed` | main.go:140-145 | the spliced collection is one shorter; items before the position are unchanged; items after it shift left by one in order; the multiset of items loses exactly the removed item |
| `Items.UpdateThenGet` | main.go:117-123 | after an update, looking up the same id finds the updated item at the same position, with its original id and the patch's name and description |
| `Items.UpdateIdempotent` | main.go:120-121 | applying the same update twice equals applying it once |
| `Items.UpdateUndo` | main.go:120-121 | updating with the item's previous name and description restores the original collection |
| `Items.DeleteThenGet` | main.go:140-147 | after the first match is deleted, a lookup of the same id finds what was the second match, shifted one place left, or nothing if there was no second match |
| `Items.CreateThenGet` | main.go:94-95 | after an append, a lookup of the new id finds the new item at the end when no earlier item had that id, and otherwise finds the earlier item |
| `Items.CreateThenDelete` | main.go:94-95 | deleting a freshly appended item whose id was new gives back the collection as it was before the append |
| `ItemStore.Store.constructor` | main_test.go:15-23 | a store starts from exactly the given collection, as the tests reset it |
| `ItemStore.Store.Seeded` | main.go:160-165 | the server's store starts with the five default items, ids "1" to "5", in that order |
| `ItemStore.Store.List` | main.go:54-59 | status 200 with exactly the current collection, in its current order; the collection is not changed |
| `ItemStore.Store.Get` | main.go:63-77 | status 200 exactly when some item has the id, and then the payload is the first such item; otherwise 404 with "Item not found"; the collection is not changed |
| `ItemStore.Store.Create` | main.go:81-98 | an undecodable body gives 400 "Invalid request payload" and no change; otherwise exactly one item is appended at the end, with all earlier items untouched; it carries the body's name and description and the decimal id of the draw, whatever id the body had; the response is 201 with that item, and its id is 1 to 6 decimal digits |
| `ItemStore.Store.Update` | main.go:102-129 | an undecodable body gives 400 and no change; no match gives 404 "Item not found" and no change; otherwise the first match gets the body's name and description in place, as `Patched` describes, with its id and position kept; the response is 200 with the updated item |
| `ItemStore.Store.Delete` | main.go:133-152 | no match gives 404 "Item not found" and no change; otherwise the first match is spliced out, as `Removed` describes; the response is 200 with result "success" and the deleted id |

## Left out

- The mutex `itemsLock` (main.go:30 and each handler). The model treats each handler call as one atomic method on the store, so concurrency is not modelled.
- gorilla/mux routing and the `mux.Vars` lookup. The path id is a parameter.
- JSON decoding of request bodies. The decoded body is an `Option<Item>` input. The decoder's own rules are not modelled: missing fields decode to empty strings, and trailing data is ignored.
- JSON encoding of responses, including the 500 "Failed to marshal JSON response" branch (main.go:41-43). Payloads are plain strings and items, so that branch cannot be taken. The model also does not tell a nil slice from an empty one, which encodes as `null` rather than `[]`. The store never holds a nil slice after start-up.
- Writing headers, status and body to the HTTP response, and `r.Body.Close()`. These are I/O.
- `math/rand`. The drawn number is a parameter below 1000000.
- Slice aliasing in Delete's `append(items[:index], items[index+1:]...)`. That call reuses the backing array. No earlier response keeps a reference to it, so only the resulting sequence is modelled.
- Starting the server (`main`, port 8080). Only the five seed items are modelled, as the `Seeded` constructor.
- `backup-main.go`, an unrelated Hello World server. It is not part of this model.
