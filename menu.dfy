/** The menu routes: the public listing, and a vendor's create, update, delete and
    availability toggle on their own items. The duplicate-name lookup (`findOne` with an
    anchored, case-insensitive pattern) is modelled as case-insensitive equality. */
module MenuRoutes {
  import opened Common
  import opened MenuItemSchema
  import U = UserSchema
  import O = OrderSchema
  import CartRoutes

  // ---------------------------------------------------------------------------
  // Public listing
  // ---------------------------------------------------------------------------

  /** The query string of `GET /api/menu`. Absent or empty strings are falsy and switch
      their filter off. A price bound is `Some(Number(s))` for any supplied non-empty
      string `s`, "0" included, since a non-empty query string is truthy; `available` is
      "true" when absent. */
  datatype ListingQuery = ListingQuery(
    category: string,
    vendor: Option<UserId>,
    search: string,
    minPrice: Option<int>,
    maxPrice: Option<int>,
    available: Option<string>)

  /** The query with nothing supplied. */
  const DefaultQuery := ListingQuery("", None, "", None, None, None)

  /** `s` occurs in `text`, ignoring ASCII case. */
  predicate MatchesIgnoringCase(text: string, s: string) {
    Contains(Lower(text), Lower(s))
  }

  /** The database query and the closed-vendor filter applied after it. */
  predicate Listed(m: MenuItem, users: map<UserId, U.Account>, q: ListingQuery) {
    && m.isAvailable == (q.available.GetOr("true") == "true")
    && (|q.category| > 0 ==> CategoryName(m.category) == q.category)
    && (q.vendor.Some? ==> m.vendorId == q.vendor.value)
    && (|q.search| > 0 ==> MatchesIgnoringCase(m.name, q.search) || MatchesIgnoringCase(m.description, q.search))
    && (q.minPrice.Some? ==> m.price >= q.minPrice.value)
    && (q.maxPrice.Some? ==> m.price <= q.maxPrice.value)
    && U.VendorOpen(users, m.vendorId)
  }

  /** `GET /api/menu`: the matching items, in the order they are given. */
  function Listing(all: seq<MenuItem>, users: map<UserId, U.Account>, q: ListingQuery): (r: seq<MenuItem>)
    ensures |r| <= |all|
  {
    if all == [] then []
    else
      var n := |all| - 1;
      var r := Listing(all[..n], users, q);
      if Listed(all[n], users, q) then r + [all[n]] else r
  }

  /** An item is listed exactly when it is among the given items and passes the query. */
  lemma {:induction false} ListingMembers(all: seq<MenuItem>, users: map<UserId, U.Account>, q: ListingQuery)
    ensures forall m :: m in Listing(all, users, q) <==> m in all && Listed(m, users, q)
  {
    if all != [] {
      var n := |all| - 1;
      assert all == all[..n] + [all[n]];
      ListingMembers(all[..n], users, q);
    }
  }

  /** The listing of a concatenation is the concatenation of the listings: the filter
      keeps the given order. */
  lemma {:induction false} ListingAppend(a: seq<MenuItem>, b: seq<MenuItem>, users: map<UserId, U.Account>, q: ListingQuery)
    ensures Listing(a + b, users, q) == Listing(a, users, q) + Listing(b, users, q)
  {
    if b == [] {
      assert a + b == a;
    } else {
      var n := |b| - 1;
      var ab := a + b;
      assert ab[|ab| - 1] == b[n];
      assert ab[..|ab| - 1] == a + b[..n];
      ListingAppend(a, b[..n], users, q);
    }
  }

  /** A supplied upper price bound below the schema's least price, `maxPrice=0` among
      them, lists nothing: the bound is applied, not switched off. */
  lemma {:induction false} LowMaxPriceListsNothing(all: seq<MenuItem>, users: map<UserId, U.Account>, q: ListingQuery)
    requires forall i :: 0 <= i < |all| ==> SchemaValid(all[i])
    requires q.maxPrice.Some? && q.maxPrice.value < MinPrice
    ensures Listing(all, users, q) == []
  {
    if all != [] {
      LowMaxPriceListsNothing(all[..|all| - 1], users, q);
    }
  }

  /** Without filters, the listing is exactly the available items of open vendors. */
  lemma DefaultListing(m: MenuItem, users: map<UserId, U.Account>)
    ensures Listed(m, users, DefaultQuery) <==> m.isAvailable && U.VendorOpen(users, m.vendorId)
  {
  }

  /** Whatever the default listing shows can be put into an empty cart with the default
      quantity. */
  lemma ListedItemCanBeAdded(menu: map<ItemId, MenuItem>, users: map<UserId, U.Account>, id: ItemId,
                             lineId: LineId, now: Time)
    requires id in menu && Listed(menu[id], users, DefaultQuery)
    ensures CartRoutes.AddOutcome([], menu, users, Some(id), None, "", lineId, now).Ok?
  {
    var line := U.CartLine(lineId, id, menu[id].vendorId, menu[id].name, menu[id].price, 1, "", now);
    assert [] + [line] == [line];
    assert U.LinesValid([line]);
  }

  // ---------------------------------------------------------------------------
  // Requests and their checks
  // ---------------------------------------------------------------------------

  /** The body of a create or update. Empty strings and zero numbers are the falsy values
      the handlers treat as absent; `image` and `isAvailable` are compared with
      `undefined` instead. */
  datatype ItemRequest = ItemRequest(
    name: string,
    description: string,
    price: int,
    category: string,
    image: Option<string>,
    isAvailable: Option<bool>,
    preparationTime: int)

  /** The vendor already has an item, other than `except`, whose name equals `name`
      ignoring ASCII case. */
  predicate NameTaken(items: map<ItemId, MenuItem>, vendorId: UserId, name: string, except: Option<ItemId>) {
    exists j :: j in items && except != Some(j) && items[j].vendorId == vendorId && Lower(items[j].name) == Lower(name)
  }

  /** No vendor has two items whose names differ only in case. */
  predicate NamesUnique(items: map<ItemId, MenuItem>) {
    forall a, b :: a in items && b in items && a != b && items[a].vendorId == items[b].vendorId
                   ==> Lower(items[a].name) != Lower(items[b].name)
  }

  predicate PreparationTimeOk(t: int) {
    t == 0 || MinPreparationTime <= t <= MaxPreparationTime
  }

  /** The create handler's checks, every failing one reported in order. */
  function CreateErrors(req: ItemRequest): (errs: seq<Message>)
    ensures |errs| == 0 <==> (&& |Trim(req.name)| >= 2 && |Trim(req.description)| >= 10
                              && MinPrice <= req.price <= MaxPrice
                              && ParseCategory(req.category).Some? && PreparationTimeOk(req.preparationTime))
  {
    Check(|Trim(req.name)| < 2, ItemNameRequiredMin2)
    + Check(|Trim(req.description)| < 10, DescriptionRequiredMin10)
    + Check(req.price < MinPrice, PriceRequiredMin1)
    + Check(req.price > MaxPrice, PriceOverMax)
    + Check(ParseCategory(req.category).None?, CategoryRequired)
    + Check(!PreparationTimeOk(req.preparationTime), PreparationTimeRange)
  }

  /** The update handler's checks: only the supplied (truthy) fields are checked. */
  function UpdateErrors(req: ItemRequest): (errs: seq<Message>)
    ensures |errs| == 0 <==> (&& (|req.name| > 0 ==> |Trim(req.name)| >= 2)
                              && (|req.description| > 0 ==> |Trim(req.description)| >= 10)
                              && (req.price != 0 ==> MinPrice <= req.price <= MaxPrice)
                              && (|req.category| > 0 ==> ParseCategory(req.category).Some?)
                              && PreparationTimeOk(req.preparationTime))
  {
    Check(|req.name| > 0 && |Trim(req.name)| < 2, ItemNameMin2)
    + Check(|req.description| > 0 && |Trim(req.description)| < 10, DescriptionMin10)
    + Check(req.price != 0 && (req.price < MinPrice || req.price > MaxPrice), PriceRange)
    + Check(|req.category| > 0 && ParseCategory(req.category).None?, InvalidCategory)
    + Check(!PreparationTimeOk(req.preparationTime), PreparationTimeRange)
  }

  /** An empty name fails the create check, since its trim is shorter than 2. */
  lemma CreateNeedsName(req: ItemRequest)
    requires |req.name| == 0
    ensures |CreateErrors(req)| > 0
  {
  }

  // ---------------------------------------------------------------------------
  // Outcomes
  // ---------------------------------------------------------------------------

  /** `POST /api/menu`: 422 with the request checks, 400 for a name the vendor already
      uses, 422 with the schema's messages when the save refuses the item (a name over
      100 or a description over 500 characters), else the new item with its defaults. */
  function CreateOutcome(items: map<ItemId, MenuItem>, vendorId: UserId, req: ItemRequest): (r: Response<MenuItem>)
    ensures r.Ok? ==> |CreateErrors(req)| == 0 && !NameTaken(items, vendorId, Trim(req.name), None)
    ensures r.Ok? ==> SchemaValid(r.value) && r.value.vendorId == vendorId && r.value.name == Trim(req.name)
    ensures r.Err? ==> r.status == BadRequest || r.status == Unprocessable
    ensures |CreateErrors(req)| > 0 ==> r == Err(Unprocessable, CreateErrors(req))
    ensures |CreateErrors(req)| == 0 && NameTaken(items, vendorId, Trim(req.name), None) ==>
              r == Fail(BadRequest, DuplicateItemName)
    ensures r.Err? && r.status == BadRequest ==> r == Fail(BadRequest, DuplicateItemName)
    ensures |CreateErrors(req)| == 0 && !NameTaken(items, vendorId, Trim(req.name), None) ==>
              var m := NewMenuItem(vendorId, req.name, req.description, req.price, ParseCategory(req.category).value,
                                   req.image.GetOr(""),
                                   if req.preparationTime == 0 then DefaultPreparationTime else req.preparationTime);
              r == if SchemaValid(m) then Ok(m) else Err(Unprocessable, SchemaErrors(m))
  {
    var errs := CreateErrors(req);
    if |errs| > 0 then Err(Unprocessable, errs)
    else if NameTaken(items, vendorId, Trim(req.name), None) then Fail(BadRequest, DuplicateItemName)
    else
      var m := NewMenuItem(vendorId, req.name, req.description, req.price, ParseCategory(req.category).value,
                           req.image.GetOr(""), if req.preparationTime == 0 then DefaultPreparationTime else req.preparationTime);
      if !SchemaValid(m) then Err(Unprocessable, SchemaErrors(m)) else Ok(m)
  }

  /** A created item is available, has the trimmed description, the requested price,
      category and image (empty when absent), and a preparation time of 15 minutes when
      none was given. */
  lemma CreateDefaults(items: map<ItemId, MenuItem>, vendorId: UserId, req: ItemRequest)
    requires CreateOutcome(items, vendorId, req).Ok?
    ensures var m := CreateOutcome(items, vendorId, req).value;
      && m.isAvailable && m.description == Trim(req.description)
      && m.price == req.price && CategoryName(m.category) == req.category
      && m.image == req.image.GetOr("")
      && m.preparationTime == (if req.preparationTime == 0 then DefaultPreparationTime else req.preparationTime)
  {
  }

  /** A create succeeds exactly when the request passes the handler's checks, the name is
      new for the vendor, and the trimmed name and description fit the schema's maximum
      lengths; when only the lengths fail, the answer is 422 with the schema's messages. */
  lemma CreateAccepted(items: map<ItemId, MenuItem>, vendorId: UserId, req: ItemRequest)
    ensures var r := CreateOutcome(items, vendorId, req);
      r.Ok? <==> && |CreateErrors(req)| == 0 && !NameTaken(items, vendorId, Trim(req.name), None)
                 && |Trim(req.name)| <= MaxNameLength && |Trim(req.description)| <= MaxDescriptionLength
  {
    if |CreateErrors(req)| == 0 && !NameTaken(items, vendorId, Trim(req.name), None) {
      var c := ParseCategory(req.category).value;
      var t := if req.preparationTime == 0 then DefaultPreparationTime else req.preparationTime;
      NewMenuItemSchema(vendorId, req.name, req.description, req.price, c, req.image.GetOr(""), t);
    }
  }

  /** The vendor's own item (`findOne({_id, vendorId})`). */
  predicate Owns(items: map<ItemId, MenuItem>, vendorId: UserId, id: ItemId) {
    id in items && items[id].vendorId == vendorId
  }

  /** The item with the supplied fields replaced: truthy strings trimmed, a truthy
      price or preparation time, a valid category, and `image` / `isAvailable` when
      present. */
  function ApplyUpdate(m: MenuItem, req: ItemRequest): (r: MenuItem)
    requires |req.category| > 0 ==> ParseCategory(req.category).Some?
    ensures r.vendorId == m.vendorId
  {
    m.(name := if |req.name| > 0 then Trim(req.name) else m.name,
       description := if |req.description| > 0 then Trim(req.description) else m.description,
       price := if req.price != 0 then req.price else m.price,
       category := if |req.category| > 0 then ParseCategory(req.category).value else m.category,
       image := req.image.GetOr(m.image),
       isAvailable := req.isAvailable.GetOr(m.isAvailable),
       preparationTime := if req.preparationTime != 0 then req.preparationTime else m.preparationTime)
  }

  /** Each field of the result is the supplied value, or the stored one when the request
      leaves it out. */
  lemma ApplyUpdateFields(m: MenuItem, req: ItemRequest)
    requires |req.category| > 0 ==> ParseCategory(req.category).Some?
    ensures var r := ApplyUpdate(m, req);
      && r.name == (if |req.name| > 0 then Trim(req.name) else m.name)
      && r.description == (if |req.description| > 0 then Trim(req.description) else m.description)
      && r.price == (if req.price != 0 then req.price else m.price)
      && (|req.category| > 0 ==> CategoryName(r.category) == req.category)
      && (|req.category| == 0 ==> r.category == m.category)
      && r.image == req.image.GetOr(m.image) && r.isAvailable == req.isAvailable.GetOr(m.isAvailable)
      && r.preparationTime == (if req.preparationTime != 0 then req.preparationTime else m.preparationTime)
  {
  }

  /** `PUT /api/menu/:id`: 404 unless the vendor owns the item, 422 with the request
      checks, 400 for a supplied name another of the vendor's items uses, 500 when the
      save refuses the result, else the updated item. */
  function UpdateOutcome(items: map<ItemId, MenuItem>, vendorId: UserId, id: ItemId, req: ItemRequest): (r: Response<MenuItem>)
    ensures !Owns(items, vendorId, id) ==> r == Fail(NotFound, MenuItemNotFoundOrDenied)
    ensures r.Ok? ==> && Owns(items, vendorId, id) && |UpdateErrors(req)| == 0 && SchemaValid(r.value)
                      && (|req.name| > 0 ==> !NameTaken(items, vendorId, Trim(req.name), Some(id)))
    ensures Owns(items, vendorId, id) && |UpdateErrors(req)| > 0 ==> r == Err(Unprocessable, UpdateErrors(req))
    ensures Owns(items, vendorId, id) && |UpdateErrors(req)| == 0 && |req.name| > 0
              && NameTaken(items, vendorId, Trim(req.name), Some(id))
            ==> r == Fail(BadRequest, DuplicateItemName)
  {
    if !Owns(items, vendorId, id) then Fail(NotFound, MenuItemNotFoundOrDenied)
    else
      var errs := UpdateErrors(req);
      if |errs| > 0 then Err(Unprocessable, errs)
      else if |req.name| > 0 && NameTaken(items, vendorId, Trim(req.name), Some(id)) then
        Fail(BadRequest, DuplicateItemName)
      else
        var m := ApplyUpdate(items[id], req);
        if !SchemaValid(m) then Fail(InternalError, UpdateMenuItemFailed) else Ok(m)
  }

  /** A successful update stores the request applied to the stored item; an owned item
      with valid checks and a free name is refused only by the schema. */
  lemma UpdateApplies(items: map<ItemId, MenuItem>, vendorId: UserId, id: ItemId, req: ItemRequest)
    ensures var r := UpdateOutcome(items, vendorId, id, req);
      r.Ok? ==> r.value == ApplyUpdate(items[id], req)
    ensures var r := UpdateOutcome(items, vendorId, id, req);
      Owns(items, vendorId, id) && |UpdateErrors(req)| == 0 && (|req.name| > 0 ==> !NameTaken(items, vendorId, Trim(req.name), Some(id)))
      ==> (r.Ok? <==> SchemaValid(ApplyUpdate(items[id], req)))
  {
  }

  /** Orders in these statuses still need their items. */
  predicate Active(s: O.Status) {
    s == O.Pending || s == O.Confirmed || s == O.Preparing
  }

  /** Some order still in progress has a line for this item. */
  predicate InActiveOrder(orders: map<OrderId, O.Order>, id: ItemId) {
    exists oid, k :: oid in orders && Active(orders[oid].status) && 0 <= k < |orders[oid].items|
                     && orders[oid].items[k].menuItemId == id
  }

  /** `DELETE /api/menu/:id`: 404 unless the vendor owns the item, 400 while an order in
      progress contains it. */
  function DeleteOutcome(items: map<ItemId, MenuItem>, orders: map<OrderId, O.Order>, vendorId: UserId, id: ItemId): (r: Response<()>)
    ensures r.Ok? <==> Owns(items, vendorId, id) && !InActiveOrder(orders, id)
    ensures r.Err? ==> r.status == (if Owns(items, vendorId, id) then BadRequest else NotFound)
  {
    if !Owns(items, vendorId, id) then Fail(NotFound, MenuItemNotFoundOrDenied)
    else if InActiveOrder(orders, id) then
      Fail(BadRequest, ItemInActiveOrders)
    else Ok(())
  }

  // ---------------------------------------------------------------------------
  // The collection
  // ---------------------------------------------------------------------------

  /** Every stored item satisfies the schema. */
  ghost predicate AllSchemaValid(items: map<ItemId, MenuItem>) {
    forall j :: j in items ==> SchemaValid(items[j])
  }

  /** Storing an item the schema accepts keeps every stored item valid. */
  lemma StoreKeepsSchema(items: map<ItemId, MenuItem>, id: ItemId, m: MenuItem)
    requires AllSchemaValid(items) && SchemaValid(m)
    ensures AllSchemaValid(items[id := m])
  {
  }

  /** The menu item collection. */
  class Catalog {
    var items: map<ItemId, MenuItem>

    ghost predicate Valid()
      reads this
    {
      AllSchemaValid(items)
    }

    constructor ()
      ensures Valid() && items == map[]
    {
      items := map[];
    }

    /** `POST /api/menu` under a fresh id. */
    method Create(vendorId: UserId, req: ItemRequest, id: ItemId) returns (r: Response<MenuItem>)
      requires Valid() && id !in items
      modifies this
      ensures Valid()
      ensures r == CreateOutcome(old(items), vendorId, req)
      ensures r.Ok? ==> items == old(items)[id := r.value]
      ensures r.Err? ==> items == old(items)
    {
      r := CreateOutcome(items, vendorId, req);
      if r.Ok? {
        StoreKeepsSchema(items, id, r.value);
        items := items[id := r.value];
      }
    }

    /** `PUT /api/menu/:id`. */
    method Update(vendorId: UserId, id: ItemId, req: ItemRequest) returns (r: Response<MenuItem>)
      requires Valid()
      modifies this
      ensures Valid()
      ensures r == UpdateOutcome(old(items), vendorId, id, req)
      ensures r.Ok? ==> items == old(items)[id := r.value]
      ensures r.Err? ==> items == old(items)
    {
      r := UpdateOutcome(items, vendorId, id, req);
      if r.Ok? {
        StoreKeepsSchema(items, id, r.value);
        items := items[id := r.value];
      }
    }

    /** `DELETE /api/menu/:id`. */
    method Delete(orders: map<OrderId, O.Order>, vendorId: UserId, id: ItemId) returns (r: Response<()>)
      requires Valid()
      modifies this
      ensures Valid()
      ensures r == DeleteOutcome(old(items), orders, vendorId, id)
      ensures r.Ok? ==> items == old(items) - {id}
      ensures r.Err? ==> items == old(items)
    {
      r := DeleteOutcome(items, orders, vendorId, id);
      if r.Ok? {
        items := items - {id};
      }
    }

    /** `PATCH /api/menu/:id/toggle-availability`: flips the flag of the vendor's own
        item and nothing else, or 404. */
    method ToggleAvailability(vendorId: UserId, id: ItemId) returns (r: Response<MenuItem>)
      requires Valid()
      modifies this
      ensures Valid()
      ensures r.Ok? <==> Owns(old(items), vendorId, id)
      ensures r.Ok? ==> && r.value == old(items)[id].(isAvailable := !old(items)[id].isAvailable)
                        && items == old(items)[id := r.value]
      ensures r.Err? ==> r == Fail(NotFound, MenuItemNotFoundOrDenied) && items == old(items)
    {
      if !Owns(items, vendorId, id) {
        r := Fail(NotFound, MenuItemNotFoundOrDenied);
        return;
      }
      var m := items[id];
      m := m.(isAvailable := !m.isAvailable);
      items := items[id := m];
      r := Ok(m);
    }
  }

  // ---------------------------------------------------------------------------
  // Properties
  // ---------------------------------------------------------------------------

  /** Storing an item whose name no other item of its vendor shares, ignoring case,
      keeps the names unique. */
  lemma StoreKeepsNamesUnique(items: map<ItemId, MenuItem>, id: ItemId, m: MenuItem)
    requires NamesUnique(items) && !NameTaken(items, m.vendorId, m.name, Some(id))
    ensures NamesUnique(items[id := m])
  {
    var next := items[id := m];
    forall a, b | a in next && b in next && a != b && next[a].vendorId == next[b].vendorId
      ensures Lower(next[a].name) != Lower(next[b].name)
    {
      if a == id {
        assert b in items && next[b] == items[b];
      } else if b == id {
        assert a in items && next[a] == items[a];
      } else {
        assert next[a] == items[a] && next[b] == items[b];
      }
    }
  }

  /** A created item never shares its name, ignoring case, with another item of the same
      vendor, so the per-vendor uniqueness of names is kept. */
  lemma CreateKeepsNamesUnique(items: map<ItemId, MenuItem>, vendorId: UserId, req: ItemRequest, id: ItemId)
    requires NamesUnique(items) && CreateOutcome(items, vendorId, req).Ok?
    ensures NamesUnique(items[id := CreateOutcome(items, vendorId, req).value])
  {
    var m := CreateOutcome(items, vendorId, req).value;
    assert !NameTaken(items, m.vendorId, m.name, Some(id));
    StoreKeepsNamesUnique(items, id, m);
  }

  /** An update keeps the per-vendor uniqueness of names: a supplied name was checked
      against the vendor's other items, and an absent one leaves the name as it was. */
  lemma UpdateKeepsNamesUnique(items: map<ItemId, MenuItem>, vendorId: UserId, id: ItemId, req: ItemRequest)
    requires NamesUnique(items) && UpdateOutcome(items, vendorId, id, req).Ok?
    ensures NamesUnique(items[id := UpdateOutcome(items, vendorId, id, req).value])
  {
    var m := UpdateOutcome(items, vendorId, id, req).value;
    UpdateApplies(items, vendorId, id, req);
    ApplyUpdateFields(items[id], req);
    if |req.name| == 0 {
      assert m.name == items[id].name;
    }
    assert !NameTaken(items, m.vendorId, m.name, Some(id));
    StoreKeepsNamesUnique(items, id, m);
  }

  /** An update that supplies nothing returns the stored item unchanged. */
  lemma EmptyUpdateChangesNothing(items: map<ItemId, MenuItem>, vendorId: UserId, id: ItemId)
    requires Owns(items, vendorId, id) && SchemaValid(items[id])
    ensures UpdateOutcome(items, vendorId, id, ItemRequest("", "", 0, "", None, None, 0)) == Ok(items[id])
  {
  }

  /** A supplied name that another of the vendor's items already uses, in any case, is
      refused. */
  lemma UpdateDuplicateRefused(items: map<ItemId, MenuItem>, vendorId: UserId, id: ItemId, other: ItemId, req: ItemRequest)
    requires Owns(items, vendorId, id) && |UpdateErrors(req)| == 0 && |req.name| > 0
    requires other in items && other != id && items[other].vendorId == vendorId
    requires Lower(items[other].name) == Lower(Trim(req.name))
    ensures UpdateOutcome(items, vendorId, id, req) == Fail(BadRequest, DuplicateItemName)
  {
    assert NameTaken(items, vendorId, Trim(req.name), Some(id));
  }

  /** Toggling twice gives the item back. */
  lemma ToggleTwice(m: MenuItem)
    ensures m.(isAvailable := !m.isAvailable).(isAvailable := !m.(isAvailable := !m.isAvailable).isAvailable) == m
  {
  }

  /** After a delete, no order in progress refers to the removed item. */
  lemma DeletedItemUnused(items: map<ItemId, MenuItem>, orders: map<OrderId, O.Order>, vendorId: UserId, id: ItemId,
                          oid: OrderId, k: int)
    requires DeleteOutcome(items, orders, vendorId, id).Ok?
    requires oid in orders && Active(orders[oid].status) && 0 <= k < |orders[oid].items|
    ensures orders[oid].items[k].menuItemId != id
  {
  }
}
