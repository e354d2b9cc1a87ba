// The in-memory database and its five CRUD handlers. Each handler call is one
// atomic method on the store; the lock around it is not modelled. The decoded
// request body is an input (None when it could not be decoded), and so are
// the path id and the number the id generator draws.

module ItemStore {
  import opened Decimal
  import opened Items

  /** The five items the server starts with. */
  function SeedItems(): seq<Item> {
    [ Item("1", "Default Item 1", "This is the first item"),
      Item("2", "Default Item 2", "This is the second item"),
      Item("3", "Default Item 3", "This is the third item"),
      Item("4", "Default Item 4", "This is the fourth item"),
      Item("5", "Default Item 5", "This is the fifth item") ]
  }

  class Store {
    /** The shared ordered collection, mutated in place by the handlers. */
    var items: seq<Item>

    constructor (initial: seq<Item>)
      ensures items == initial
    {
      items := initial;
    }

    constructor Seeded()
      ensures items == SeedItems()
    {
      items := SeedItems();
    }

    /** GET /items: the whole collection, in its current order. */
    method List() returns (r: Response)
      ensures r.status == STATUS_OK
      ensures r.payload == ItemsPayload(items)
    {
      r := Response(STATUS_OK, ItemsPayload(items));
    }

    /** GET /items/{id}: the first item whose id matches. */
    method Get(id: string) returns (r: Response)
      ensures r.status == STATUS_OK <==> !NoMatch(items, id)
      ensures r.status == STATUS_OK ==>
                exists k: nat :: IsFirstMatch(items, id, k) && r.payload == ItemPayload(items[k])
      ensures r.status != STATUS_OK ==> r == ErrorResponse(STATUS_NOT_FOUND, NOT_FOUND_MESSAGE)
    {
      var i := 0;
      while i < |items|
        invariant 0 <= i <= |items|
        invariant NoMatch(items[..i], id)
      {
        if items[i].id == id {
          assert IsFirstMatch(items, id, i);
          return Response(STATUS_OK, ItemPayload(items[i]));
        }
        i := i + 1;
      }
      assert items[..i] == items;
      r := ErrorResponse(STATUS_NOT_FOUND, NOT_FOUND_MESSAGE);
    }

    /** POST /items: append the decoded item under a freshly drawn id. */
    method Create(body: Option<Item>, n: nat) returns (r: Response)
      requires n < MAX_DRAW
      modifies this
      ensures body.None? ==>
                items == old(items) && r == ErrorResponse(STATUS_BAD_REQUEST, INVALID_PAYLOAD_MESSAGE)
      ensures body.Some? ==>
                |items| == |old(items)| + 1 && items[..|old(items)|] == old(items)
                && items[|old(items)|] == Item(Itoa(n), body.value.name, body.value.description)
                && r == Response(STATUS_CREATED, ItemPayload(items[|old(items)|]))
      ensures body.Some? ==> IsDecimal(r.payload.item.id) && |r.payload.item.id| <= 6
    {
      if body.None? {
        return ErrorResponse(STATUS_BAD_REQUEST, INVALID_PAYLOAD_MESSAGE);
      }
      var item := body.value.(id := Itoa(n));
      DrawnId(n);
      items := items + [item];
      r := Response(STATUS_CREATED, ItemPayload(item));
    }

    /** PUT /items/{id}: the first match takes the body's name and description. */
    method Update(id: string, body: Option<Item>) returns (r: Response)
      modifies this
      ensures body.None? ==>
                items == old(items) && r == ErrorResponse(STATUS_BAD_REQUEST, INVALID_PAYLOAD_MESSAGE)
      ensures body.Some? && FirstIndex(old(items), id).None? ==>
                items == old(items) && r == ErrorResponse(STATUS_NOT_FOUND, NOT_FOUND_MESSAGE)
      ensures body.Some? && FirstIndex(old(items), id).Some? ==>
                var i := FirstIndex(old(items), id).value;
                items == Patched(old(items), i, body.value)
                && r == Response(STATUS_OK, ItemPayload(Item(id, body.value.name, body.value.description)))
    {
      if body.None? {
        return ErrorResponse(STATUS_BAD_REQUEST, INVALID_PAYLOAD_MESSAGE);
      }
      var patch := body.value;
      var i := 0;
      while i < |items|
        invariant 0 <= i <= |items|
        invariant items == old(items)
        invariant NoMatch(items[..i], id)
      {
        if items[i].id == id {
          assert IsFirstMatch(items, id, i);
          items := items[i := items[i].(name := patch.name, description := patch.description)];
          return Response(STATUS_OK, ItemPayload(items[i]));
        }
        i := i + 1;
      }
      assert items[..i] == items;
      r := ErrorResponse(STATUS_NOT_FOUND, NOT_FOUND_MESSAGE);
    }

    /** DELETE /items/{id}: splice out the first match. */
    method Delete(id: string) returns (r: Response)
      modifies this
      ensures FirstIndex(old(items), id).None? ==>
                items == old(items) && r == ErrorResponse(STATUS_NOT_FOUND, NOT_FOUND_MESSAGE)
      ensures FirstIndex(old(items), id).Some? ==>
                items == Removed(old(items), FirstIndex(old(items), id).value)
                && r == Response(STATUS_OK, DeletedPayload(DELETE_SUCCESS, id))
    {
      var i := 0;
      while i < |items|
        invariant 0 <= i <= |items|
        invariant items == old(items)
        invariant NoMatch(items[..i], id)
      {
        if items[i].id == id {
          assert IsFirstMatch(items, id, i);
          items := items[..i] + items[i + 1..];
          return Response(STATUS_OK, DeletedPayload(DELETE_SUCCESS, id));
        }
        i := i + 1;
      }
      assert items[..i] == items;
      r := ErrorResponse(STATUS_NOT_FOUND, NOT_FOUND_MESSAGE);
    }
  }

  /**
   * A client of the store: the mock data of the handler tests and the
   * outcomes those tests expect, derived from the method contracts alone.
   */
  method MockScenario(n: nat)
    requires n < MAX_DRAW
  {
    var first := Item("1", "Mock Item 1", "First mock item");
    var second := Item("2", "Mock Item 2", "Second mock item");
    var store := new Store([first, second]);

    var r := store.List();
    assert r.status == STATUS_OK && |r.payload.items| == 2;

    assert IsFirstMatch(store.items, "1", 0);
    r := store.Get("1");
    assert r == Response(STATUS_OK, ItemPayload(first));

    assert NoMatch(store.items, "999");
    r := store.Get("999");
    assert r == ErrorResponse(STATUS_NOT_FOUND, NOT_FOUND_MESSAGE);

    r := store.Update("1", Some(Item("", "Updated Name", "Updated Description")));
    assert r.status == STATUS_OK && r.payload.item.id == "1" && r.payload.item.name == "Updated Name";
    assert store.items[0].name == "Updated Name" && |store.items| == 2;

    assert FirstIndex(store.items, "999").None? by {
      assert store.items[0].id != "999" && store.items[1].id != "999";
    }
    r := store.Update("999", Some(Item("", "Updated Name", "Updated Description")));
    assert r.status == STATUS_NOT_FOUND && |store.items| == 2;

    assert NoMatch(store.items, "999");
    r := store.Delete("999");
    assert r.status == STATUS_NOT_FOUND && |store.items| == 2;

    r := store.Create(None, n);
    assert r.status == STATUS_BAD_REQUEST && |store.items| == 2;

    r := store.Create(Some(Item("", "New Item", "A new test item")), n);
    assert r.status == STATUS_CREATED && r.payload.item.name == "New Item" && r.payload.item.id != "";
    assert |store.items| == 3;

    assert store.items[0].id == "1" && store.items[1].id == "2";
    r := store.Delete("1");
    assert r == Response(STATUS_OK, DeletedPayload(DELETE_SUCCESS, "1"));
    assert |store.items| == 2 && store.items[0].id == "2";
  }
}
