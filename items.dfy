// The Item record, the responses the handlers produce, and the operations on
// an ordered collection of items that the handlers are built from. Every
// lookup is by FIRST match: the collection may hold several items with the
// same id, because creation never checks for a collision.

module Items {
  datatype Option<T> = None | Some(value: T)

  /** One record of the in-memory database. */
  datatype Item = Item(id: string, name: string, description: string)

  /** The JSON value a handler writes as the response body. */
  datatype Payload =
    | ItemPayload(item: Item)                          // a single Item object
    | ItemsPayload(items: seq<Item>)                   // an array of Items
    | ErrorPayload(error: string)                      // {"error": message}
    | DeletedPayload(result: string, idDeleted: string)  // {"result": .., "id_deleted": ..}

  datatype Response = Response(status: int, payload: Payload)

  const STATUS_OK := 200
  const STATUS_CREATED := 201
  const STATUS_BAD_REQUEST := 400
  const STATUS_NOT_FOUND := 404

  const NOT_FOUND_MESSAGE := "Item not found"
  const INVALID_PAYLOAD_MESSAGE := "Invalid request payload"
  const DELETE_SUCCESS := "success"

  /** The response respondWithError writes: the status and {"error": message}. */
  function ErrorResponse(code: int, message: string): Response {
    Response(code, ErrorPayload(message))
  }

  /** k is the position of the first item of s whose id is id. */
  predicate IsFirstMatch(s: seq<Item>, id: string, k: nat) {
    k < |s| && s[k].id == id && forall j :: 0 <= j < k ==> s[j].id != id
  }

  /** No item of s has the id. */
  predicate NoMatch(s: seq<Item>, id: string) {
    forall j :: 0 <= j < |s| ==> s[j].id != id
  }

  /** The position a front-to-back scan of s for id stops at, if any. */
  function FirstIndex(s: seq<Item>, id: string): (r: Option<nat>)
    ensures r.Some? ==> IsFirstMatch(s, id, r.value)
    ensures r.None? ==> NoMatch(s, id)
  {
    if |s| == 0 then None
    else if s[0].id == id then Some(0)
    else match FirstIndex(s[1..], id)
      case None => None
      case Some(k) => Some(k + 1)
  }

  /** The collection after the item at i takes the patch's name and description. */
  function Patched(s: seq<Item>, i: nat, patch: Item): (r: seq<Item>)
    requires i < |s|
    ensures |r| == |s|
    ensures r[i] == Item(s[i].id, patch.name, patch.description)
    ensures forall j :: 0 <= j < |s| ==> r[j].id == s[j].id
    ensures forall j :: 0 <= j < |s| && j != i ==> r[j] == s[j]
  {
    s[i := s[i].(name := patch.name, description := patch.description)]
  }

  /** The collection after the item at i is spliced out. */
  function Removed(s: seq<Item>, i: nat): (r: seq<Item>)
    requires i < |s|
    ensures |r| == |s| - 1
    ensures forall j :: 0 <= j < i ==> r[j] == s[j]
    ensures forall j :: i <= j < |r| ==> r[j] == s[j + 1]
    ensures multiset(r) + multiset{s[i]} == multiset(s)
  {
    assert s == s[..i] + [s[i]] + s[i + 1..];
    s[..i] + s[i + 1..]
  }

  /** After an update, a lookup of the same id finds the updated item in the same place. */
  lemma UpdateThenGet(s: seq<Item>, id: string, i: nat, patch: Item)
    requires FirstIndex(s, id) == Some(i)
    ensures FirstIndex(Patched(s, i, patch), id) == Some(i)
    ensures Patched(s, i, patch)[i] == Item(id, patch.name, patch.description)
  {
  }

  /** Repeating an update changes nothing more. */
  lemma UpdateIdempotent(s: seq<Item>, i: nat, patch: Item)
    requires i < |s|
    ensures Patched(Patched(s, i, patch), i, patch) == Patched(s, i, patch)
  {
  }

  /** Updating with the item's previous name and description restores the collection. */
  lemma UpdateUndo(s: seq<Item>, i: nat, patch: Item)
    requires i < |s|
    ensures Patched(Patched(s, i, patch), i, s[i]) == s
  {
  }

  /**
   * After the first match for id is deleted, a lookup of id finds what was the
   * second match (shifted left by one place), or nothing if there was none.
   */
  lemma DeleteThenGet(s: seq<Item>, id: string, i: nat)
    requires FirstIndex(s, id) == Some(i)
    ensures FirstIndex(s[i + 1..], id).None? ==> FirstIndex(Removed(s, i), id).None?
    ensures FirstIndex(s[i + 1..], id).Some? ==>
              FirstIndex(Removed(s, i), id) == Some(i + FirstIndex(s[i + 1..], id).value)
  {
    var r := Removed(s, i);
    var tail := s[i + 1..];
    match FirstIndex(tail, id)
    case None =>
      forall j | 0 <= j < |r| ensures r[j].id != id {
        if j >= i { assert r[j] == tail[j - i]; }
      }
    case Some(k) =>
      assert r[i + k] == tail[k];
      forall j | 0 <= j < i + k ensures r[j].id != id {
        if j >= i { assert r[j] == tail[j - i]; }
      }
      assert IsFirstMatch(r, id, i + k);
  }

  /**
   * After an item is appended, a lookup of its id finds it only when no earlier
   * item already had that id; otherwise the earlier item shadows it.
   */
  lemma CreateThenGet(s: seq<Item>, item: Item)
    ensures FirstIndex(s, item.id).None? ==> FirstIndex(s + [item], item.id) == Some(|s|)
    ensures FirstIndex(s, item.id).Some? ==> FirstIndex(s + [item], item.id) == FirstIndex(s, item.id)
  {
    var t := s + [item];
    match FirstIndex(s, item.id)
    case None =>
      assert IsFirstMatch(t, item.id, |s|);
    case Some(k) =>
      assert IsFirstMatch(t, item.id, k);
  }

  /** Deleting a freshly appended item whose id was new gives back the collection before it. */
  lemma CreateThenDelete(s: seq<Item>, item: Item)
    requires NoMatch(s, item.id)
    ensures FirstIndex(s + [item], item.id) == Some(|s|)
    ensures Removed(s + [item], |s|) == s
  {
  }
}
