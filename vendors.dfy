/** The vendor routes: the public vendor detail and vendor menu with their grouping of
    items by category, the counts of the vendor dashboard, and the vendor's profile
    update. */
module VendorRoutes {
  import opened Common
  import M = MenuItemSchema
  import U = UserSchema
  import O = OrderSchema
  import MenuRoutes

  // ---------------------------------------------------------------------------
  // Vendor menu and grouping by category
  // ---------------------------------------------------------------------------

  /** The query of `GET /api/vendors/:id/menu`: the vendor, an optional category (empty
      when absent) and the optional `available` flag, "true" meaning available items. The
      vendor detail route asks for the available items of every category. */
  predicate MenuQuery(m: M.MenuItem, vendorId: UserId, category: string, available: Option<string>) {
    && m.vendorId == vendorId
    && (|category| > 0 ==> M.CategoryName(m.category) == category)
    && (available.Some? ==> m.isAvailable == (available.value == "true"))
  }

  /** The items the query finds, in the order they are given. */
  function VendorMenu(catalog: seq<M.MenuItem>, vendorId: UserId, category: string, available: Option<string>)
    : (r: seq<M.MenuItem>)
    ensures |r| <= |catalog|
  {
    if catalog == [] then []
    else
      var n := |catalog| - 1;
      var r := VendorMenu(catalog[..n], vendorId, category, available);
      if MenuQuery(catalog[n], vendorId, category, available) then r + [catalog[n]] else r
  }

  /** An item is found exactly when it is in the catalog and matches the query. */
  lemma {:induction false} VendorMenuMembers(catalog: seq<M.MenuItem>, vendorId: UserId, category: string,
                                              available: Option<string>)
    ensures forall m :: m in VendorMenu(catalog, vendorId, category, available)
                    <==> m in catalog && MenuQuery(m, vendorId, category, available)
  {
    if catalog != [] {
      var n := |catalog| - 1;
      assert catalog == catalog[..n] + [catalog[n]];
      VendorMenuMembers(catalog[..n], vendorId, category, available);
    }
  }

  /** The items of one category, in the given order. */
  function OfCategory(items: seq<M.MenuItem>, c: M.Category): (r: seq<M.MenuItem>)
    ensures |r| <= |items|
  {
    if items == [] then []
    else
      var n := |items| - 1;
      var r := OfCategory(items[..n], c);
      if items[n].category == c then r + [items[n]] else r
  }

  /** An item is in a category's list exactly when it is one of the items and has that
      category. */
  lemma {:induction false} OfCategoryMembers(items: seq<M.MenuItem>, c: M.Category)
    ensures forall m :: m in OfCategory(items, c) <==> m in items && m.category == c
  {
    if items != [] {
      var n := |items| - 1;
      assert items == items[..n] + [items[n]];
      OfCategoryMembers(items[..n], c);
    }
  }

  /** The `reduce` of the vendor detail and vendor menu routes: each item, in turn, is
      pushed onto the list of its category, which is created on first use. */
  function GroupByCategory(items: seq<M.MenuItem>): (g: map<M.Category, seq<M.MenuItem>>)
  {
    if items == [] then map[]
    else
      var n := |items| - 1;
      var g := GroupByCategory(items[..n]);
      var c := items[n].category;
      g[c := (if c in g then g[c] else []) + [items[n]]]
  }

  /** The grouping has a list exactly for the categories that occur, and each list is
      that category's items in their given order. */
  lemma {:induction false} GroupIsFilter(items: seq<M.MenuItem>)
    ensures forall c :: c in GroupByCategory(items) <==> |OfCategory(items, c)| > 0
    ensures forall c :: c in GroupByCategory(items) ==> GroupByCategory(items)[c] == OfCategory(items, c)
  {
    if items != [] {
      var n := |items| - 1;
      GroupIsFilter(items[..n]);
    }
  }

  /** Each item lies in the list of its own category, and a list holds only items of its
      category. */
  lemma GroupPlacesEachItem(items: seq<M.MenuItem>)
    ensures forall m :: m in items ==> (m.category in GroupByCategory(items)
                                        && m in GroupByCategory(items)[m.category])
    ensures forall c, m :: c in GroupByCategory(items) && m in GroupByCategory(items)[c]
                        ==> m.category == c && m in items
  {
    var g := GroupByCategory(items);
    GroupIsFilter(items);
    forall c {
      OfCategoryMembers(items, c);
    }
    forall m | m in items ensures m.category in g && m in g[m.category] {
      assert m in OfCategory(items, m.category);
    }
  }

  const AllCategories: seq<M.Category> := [M.Breakfast, M.Lunch, M.Dinner, M.Snacks, M.Beverages, M.Desserts]

  /** Σ over the categories cs of the number of items of that category. */
  function CountIn(items: seq<M.MenuItem>, cs: seq<M.Category>): int {
    if cs == [] then 0 else |OfCategory(items, cs[0])| + CountIn(items, cs[1..])
  }

  /** One more item adds one to the count of the categories that include its own. */
  lemma {:induction false} CountInStep(items: seq<M.MenuItem>, cs: seq<M.Category>)
    requires items != []
    requires forall i, j :: 0 <= i < j < |cs| ==> cs[i] != cs[j]
    ensures CountIn(items, cs) == CountIn(items[..|items| - 1], cs) + (if items[|items| - 1].category in cs then 1 else 0)
  {
    if cs != [] {
      CountInStep(items, cs[1..]);
      assert items[|items| - 1].category in cs <==>
        items[|items| - 1].category == cs[0] || items[|items| - 1].category in cs[1..];
    }
  }

  lemma {:induction false} CountInNothing(cs: seq<M.Category>)
    ensures CountIn([], cs) == 0
  {
    if cs != [] {
      CountInNothing(cs[1..]);
    }
  }

  /** The lists of the grouping together hold every item: the counts of the six
      categories add up to the number of items. */
  lemma {:induction false} GroupSizesAddUp(items: seq<M.MenuItem>)
    ensures CountIn(items, AllCategories) == |items|
  {
    if items == [] {
      CountInNothing(AllCategories);
    } else {
      var n := |items| - 1;
      assert forall i, j :: 0 <= i < j < |AllCategories| ==> AllCategories[i] != AllCategories[j];
      CountInStep(items, AllCategories);
      GroupSizesAddUp(items[..n]);
      var c := items[n].category;
      assert c in AllCategories by {
        match c
        case Breakfast => assert AllCategories[0] == c;
        case Lunch => assert AllCategories[1] == c;
        case Dinner => assert AllCategories[2] == c;
        case Snacks => assert AllCategories[3] == c;
        case Beverages => assert AllCategories[4] == c;
        case Desserts => assert AllCategories[5] == c;
      }

    }
  }

  // ---------------------------------------------------------------------------
  // Vendor detail and vendor menu
  // ---------------------------------------------------------------------------

  /** What `GET /api/vendors/:id` answers with. */
  datatype VendorDetail = VendorDetail(
    name: string,
    shopName: string,
    description: string,
    isOpen: bool,
    schedule: U.Schedule,
    menuByCategory: map<M.Category, seq<M.MenuItem>>,
    totalMenuItems: int)

  predicate ActiveVendor(users: map<UserId, U.Account>, id: UserId) {
    id in users && users[id].role == U.Vendor && users[id].isActive
  }

  /** `GET /api/vendors/:id`: 404 unless the id names an active vendor, 500 when its
      account has no shop to read; else the shop and its available items, grouped by
      category. */
  function VendorDetailOutcome(users: map<UserId, U.Account>, catalog: seq<M.MenuItem>, id: UserId)
    : (r: Response<VendorDetail>)
    ensures r.Ok? <==> ActiveVendor(users, id) && users[id].vendorInfo.Some?
    ensures !ActiveVendor(users, id) ==> r == Fail(NotFound, VendorNotFound)
    ensures r.Ok? ==> && r.value.shopName == users[id].vendorInfo.value.shopName
                      && r.value.isOpen == users[id].vendorInfo.value.isOpen
                      && r.value.totalMenuItems == |VendorMenu(catalog, id, "", Some("true"))|
  {
    if !ActiveVendor(users, id) then Fail(NotFound, VendorNotFound)
    else if users[id].vendorInfo.None? then Fail(InternalError, FetchVendorFailed)
    else
      var info := users[id].vendorInfo.value;
      var items := VendorMenu(catalog, id, "", Some("true"));
      Ok(VendorDetail(users[id].name, info.shopName, info.description, info.isOpen, info.schedule,
                      GroupByCategory(items), |items|))
  }

  /** The detail of a vendor shows each of its available items exactly once, in the list
      of its category, and nothing else; the lists add up to the total it reports. */
  lemma DetailShowsAvailableItems(users: map<UserId, U.Account>, catalog: seq<M.MenuItem>, id: UserId)
    requires VendorDetailOutcome(users, catalog, id).Ok?
    ensures var d := VendorDetailOutcome(users, catalog, id).value;
      && (forall m :: m in catalog && m.vendorId == id && m.isAvailable
                  ==> m.category in d.menuByCategory && m in d.menuByCategory[m.category])
      && (forall c, m :: c in d.menuByCategory && m in d.menuByCategory[c]
                  ==> m in catalog && m.vendorId == id && m.isAvailable && m.category == c)
      && CountIn(VendorMenu(catalog, id, "", Some("true")), AllCategories) == d.totalMenuItems
  {
    var items := VendorMenu(catalog, id, "", Some("true"));
    VendorMenuMembers(catalog, id, "", Some("true"));
    GroupPlacesEachItem(items);
    GroupSizesAddUp(items);
  }

  /** What `GET /api/vendors/:id/menu` answers with. */
  datatype VendorMenuPage = VendorMenuPage(
    menuItems: seq<M.MenuItem>,
    menuByCategory: map<M.Category, seq<M.MenuItem>>,
    total: int)

  /** `GET /api/vendors/:id/menu`: the vendor's items matching the query, and the same
      items grouped by category. An unknown vendor gets an empty menu, not 404. */
  function VendorMenuOutcome(catalog: seq<M.MenuItem>, vendorId: UserId, category: string, available: Option<string>)
    : (p: VendorMenuPage)
    ensures p.total == |p.menuItems|
    ensures forall m :: m in p.menuItems <==> m in catalog && MenuQuery(m, vendorId, category, available)
    ensures forall m :: m in p.menuItems ==> m.category in p.menuByCategory && m in p.menuByCategory[m.category]
  {
    var items := VendorMenu(catalog, vendorId, category, available);
    VendorMenuMembers(catalog, vendorId, category, available);
    GroupPlacesEachItem(items);
    VendorMenuPage(items, GroupByCategory(items), |items|)
  }

  // ---------------------------------------------------------------------------
  // Dashboard counts
  // ---------------------------------------------------------------------------

  /** The menu and order counts of `GET /api/vendors/dashboard/stats`. */
  datatype Counts = Counts(
    menuTotal: int,
    menuActive: int,
    menuInactive: int,
    ordersTotal: int,
    ordersPending: int,
    ordersCompleted: int)

  function ItemsOf(items: map<ItemId, M.MenuItem>, v: UserId): set<ItemId> {
    set id | id in items && items[id].vendorId == v
  }

  function AvailableItemsOf(items: map<ItemId, M.MenuItem>, v: UserId): set<ItemId> {
    set id | id in items && items[id].vendorId == v && items[id].isAvailable
  }

  function HiddenItemsOf(items: map<ItemId, M.MenuItem>, v: UserId): set<ItemId> {
    set id | id in items && items[id].vendorId == v && !items[id].isAvailable
  }

  function OrdersOf(orders: map<OrderId, O.Order>, v: UserId): set<OrderId> {
    set id | id in orders && orders[id].vendorId == v
  }

  /** The "pending" count: orders that are pending, confirmed or preparing. */
  function InProgressOrdersOf(orders: map<OrderId, O.Order>, v: UserId): set<OrderId> {
    set id | id in orders && orders[id].vendorId == v && MenuRoutes.Active(orders[id].status)
  }

  function CompletedOrdersOf(orders: map<OrderId, O.Order>, v: UserId): set<OrderId> {
    set id | id in orders && orders[id].vendorId == v && orders[id].status == O.Completed
  }

  /** The counts; the inactive count is computed as total minus active. */
  function DashboardCounts(items: map<ItemId, M.MenuItem>, orders: map<OrderId, O.Order>, v: UserId): (c: Counts)
    ensures c.menuInactive == |HiddenItemsOf(items, v)|
    ensures 0 <= c.menuActive <= c.menuTotal
    ensures 0 <= c.ordersPending + c.ordersCompleted <= c.ordersTotal
  {
    var all, active, hidden := ItemsOf(items, v), AvailableItemsOf(items, v), HiddenItemsOf(items, v);
    assert all == active + hidden && active * hidden == {};
    var mine, busy, done := OrdersOf(orders, v), InProgressOrdersOf(orders, v), CompletedOrdersOf(orders, v);
    var rest := mine - (busy + done);
    assert busy * done == {};
    assert mine == (busy + done) + rest && (busy + done) * rest == {};
    Counts(|all|, |active|, |all| - |active|, |mine|, |busy|, |done|)
  }

  /** The "pending" count is the number of the vendor's orders that would block the
      deletion of one of its menu items. */
  lemma PendingCountsBlockingOrders(items: map<ItemId, M.MenuItem>, orders: map<OrderId, O.Order>, v: UserId, oid: OrderId)
    requires oid in orders && orders[oid].vendorId == v
    ensures oid in InProgressOrdersOf(orders, v) <==> MenuRoutes.Active(orders[oid].status)
    ensures MenuRoutes.Active(orders[oid].status) && |orders[oid].items| > 0
            ==> MenuRoutes.InActiveOrder(orders, orders[oid].items[0].menuItemId)
  {
  }

  // ---------------------------------------------------------------------------
  // Profile update
  // ---------------------------------------------------------------------------

  const MinShopNameLength: int := 2

  /** The body of `PUT /api/vendors/profile`. Empty strings are the falsy values the
      handler skips; `description` and `isOpen` are compared with `undefined`; an absent
      `schedule` is the same as one with neither time. */
  datatype ProfileRequest = ProfileRequest(
    shopName: string,
    description: Option<string>,
    isOpen: Option<bool>,
    openTime: string,
    closeTime: string)

  /** The handler's checks, all reported together. */
  function ProfileErrors(req: ProfileRequest): (errs: seq<Message>)
    ensures |errs| == 0 <==> (&& (|req.shopName| > 0 ==> |Trim(req.shopName)| >= MinShopNameLength)
                              && (req.description.Some? ==> |req.description.value| <= U.MaxShopDescriptionLength)
                              && (|req.openTime| > 0 ==> U.ValidTime(req.openTime))
                              && (|req.closeTime| > 0 ==> U.ValidTime(req.closeTime)))
  {
    Check(|req.shopName| > 0 && |Trim(req.shopName)| < MinShopNameLength, ShopNameMin2)
    + Check(req.description.Some? && |req.description.value| > U.MaxShopDescriptionLength, ShopDescriptionTooLong)
    + Check(|req.openTime| > 0 && !U.ValidTime(req.openTime), OpenTimeFormat)
    + Check(|req.closeTime| > 0 && !U.ValidTime(req.closeTime), CloseTimeFormat)
  }

  /** The field writes: each supplied field replaces the stored one, the strings trimmed. */
  function ApplyProfile(v: U.VendorInfo, req: ProfileRequest): (r: U.VendorInfo)
  {
    U.VendorInfo(
      if |req.shopName| > 0 then Trim(req.shopName) else v.shopName,
      if req.description.Some? then Trim(req.description.value) else v.description,
      req.isOpen.GetOr(v.isOpen),
      U.Schedule(if |req.openTime| > 0 then req.openTime else v.schedule.openTime,
                 if |req.closeTime| > 0 then req.closeTime else v.schedule.closeTime))
  }

  /** A request that supplies nothing changes nothing. */
  lemma EmptyProfileChangesNothing(v: U.VendorInfo)
    ensures ApplyProfile(v, ProfileRequest("", None, None, "", "")) == v
  {
  }

  /** Only supplied fields change: a field left out keeps its stored value, and a supplied
      one takes the request's value (trimmed), whatever was stored. */
  lemma ProfileChangesOnlySupplied(v: U.VendorInfo, req: ProfileRequest)
    ensures var r := ApplyProfile(v, req);
      && (|req.shopName| == 0 ==> r.shopName == v.shopName)
      && (|req.shopName| > 0 ==> r.shopName == Trim(req.shopName))
      && (req.isOpen.None? ==> r.isOpen == v.isOpen)
      && (req.isOpen.Some? ==> r.isOpen == req.isOpen.value)
      && (req.description.None? ==> r.description == v.description)
      && (req.description.Some? ==> r.description == Trim(req.description.value))
      && (|req.openTime| == 0 ==> r.schedule.openTime == v.schedule.openTime)
      && (|req.openTime| > 0 ==> r.schedule.openTime == req.openTime)
      && (|req.closeTime| == 0 ==> r.schedule.closeTime == v.schedule.closeTime)
      && (|req.closeTime| > 0 ==> r.schedule.closeTime == req.closeTime)
  {
  }

  /** Sending the same request twice has the effect of sending it once. */
  lemma ProfileIdempotent(v: U.VendorInfo, req: ProfileRequest)
    ensures ApplyProfile(ApplyProfile(v, req), req) == ApplyProfile(v, req)
  {
    var once := ApplyProfile(v, req);
    var twice := ApplyProfile(once, req);
    assert twice.shopName == once.shopName by {
      TrimFixpoint(req.shopName);
    }
    assert twice.description == once.description by {
      if req.description.Some? {
        TrimFixpoint(req.description.value);
      }
    }
    assert twice.schedule == once.schedule;
  }

  /** `PUT /api/vendors/profile` for the signed-in vendor: 404 for an unknown account,
      422 with the check messages, and 500 when the account has no shop or the save's
      schema check refuses the document; else the updated shop. */
  function ProfileOutcome(users: map<UserId, U.Account>, caller: UserId, req: ProfileRequest): (r: Response<U.VendorInfo>)
    ensures caller !in users ==> r == Fail(NotFound, VendorNotFound)
    ensures caller in users && |ProfileErrors(req)| > 0 ==> r == Err(Unprocessable, ProfileErrors(req))
    ensures r.Ok? ==> && caller in users && |ProfileErrors(req)| == 0
                      && users[caller].vendorInfo.Some?
                      && r.value == ApplyProfile(users[caller].vendorInfo.value, req)
                      && U.SchemaValid(users[caller].(vendorInfo := Some(r.value)))
  {
    if caller !in users then Fail(NotFound, VendorNotFound)
    else
      var errs := ProfileErrors(req);
      if |errs| > 0 then Err(Unprocessable, errs)
      else if users[caller].vendorInfo.None? then Fail(InternalError, UpdateProfileFailed)
      else
        var updated := ApplyProfile(users[caller].vendorInfo.value, req);
        if !U.SchemaValid(users[caller].(vendorInfo := Some(updated))) then Fail(InternalError, UpdateProfileFailed)
        else Ok(updated)
  }

  /** For a stored vendor, a request that passes the checks fails at the save only for a
      shop name whose trim is longer than 100 characters, which the handler does not
      check. */
  lemma ProfileSaveFailsOnlyForLongShopName(users: map<UserId, U.Account>, caller: UserId, req: ProfileRequest)
    requires caller in users && users[caller].role == U.Vendor && U.SchemaValid(users[caller])
    requires |ProfileErrors(req)| == 0
    ensures ProfileOutcome(users, caller, req).Err?
        <==> |req.shopName| > 0 && |Trim(req.shopName)| > U.MaxShopNameLength
  {
    var a := users[caller];
    var updated := ApplyProfile(a.vendorInfo.value, req);
    U.ShopChange(a, updated);
  }

  /** The profile update on the user collection: the vendor's shop is replaced by the
      updated one and nothing else changes, or the collection is unchanged. */
  method UpdateProfile(dir: U.Directory, caller: UserId, req: ProfileRequest) returns (r: Response<U.VendorInfo>)
    requires dir.Valid()
    modifies dir
    ensures dir.Valid()
    ensures r == ProfileOutcome(old(dir.users), caller, req)
    ensures r.Ok? ==> dir.users == old(dir.users)[caller := old(dir.users)[caller].(vendorInfo := Some(r.value))]
    ensures r.Err? ==> dir.users == old(dir.users)
  {
    r := ProfileOutcome(dir.users, caller, req);
    if r.Ok? {
      var a := dir.users[caller].(vendorInfo := Some(r.value));
      U.StoreKeepsAccountsValid(dir.users, caller, a);
      U.ReplaceKeepsIndexes(dir.users, caller, a);
      dir.users := dir.users[caller := a];
    }
  }
}
