/** The cart routes of a student: view (which drops lines that can no longer be
    ordered), add, update, remove, clear, and checkout into an order. Each handler works
    on the student's embedded cart and saves it; the menu items and user accounts it
    reads are passed in as maps. */
module CartRoutes {
  import opened Common
  import M = MenuItemSchema
  import U = UserSchema
  import O = OrderSchema
  import OrderRoutes

  // ---------------------------------------------------------------------------
  // Lookups by id (`findIndex`)
  // ---------------------------------------------------------------------------

  /** Index of the first line for this menu item, or -1. */
  function IndexOfItem(items: seq<U.CartLine>, id: ItemId): (k: int)
    ensures -1 <= k < |items|
    ensures k >= 0 ==> items[k].menuItemId == id
    ensures forall j :: 0 <= j < |items| && (k < 0 || j < k) ==> items[j].menuItemId != id
  {
    if items == [] then -1
    else if items[0].menuItemId == id then 0
    else
      var k := IndexOfItem(items[1..], id);
      assert forall j :: 1 <= j < |items| ==> items[j] == items[1..][j - 1];
      if k < 0 then -1 else k + 1
  }

  /** Index of the line with this line id, or -1. */
  function IndexOfLine(items: seq<U.CartLine>, lineId: LineId): (k: int)
    ensures -1 <= k < |items|
    ensures k >= 0 ==> items[k].lineId == lineId
    ensures forall j :: 0 <= j < |items| && (k < 0 || j < k) ==> items[j].lineId != lineId
  {
    if items == [] then -1
    else if items[0].lineId == lineId then 0
    else
      var k := IndexOfLine(items[1..], lineId);
      assert forall j :: 1 <= j < |items| ==> items[j] == items[1..][j - 1];
      if k < 0 then -1 else k + 1
  }

  /** `items.findIndex(item => item.menuItemId === id)`. */
  method FindItem(items: seq<U.CartLine>, id: ItemId) returns (k: int)
    ensures k == IndexOfItem(items, id)
  {
    k := 0;
    while k < |items| && items[k].menuItemId != id
      invariant 0 <= k <= |items|
      invariant forall j :: 0 <= j < k ==> items[j].menuItemId != id
    {
      k := k + 1;
    }
    if k == |items| {
      k := -1;
    }
  }

  /** `items.findIndex(item => item._id === lineId)`. */
  method FindLine(items: seq<U.CartLine>, lineId: LineId) returns (k: int)
    ensures k == IndexOfLine(items, lineId)
  {
    k := 0;
    while k < |items| && items[k].lineId != lineId
      invariant 0 <= k <= |items|
      invariant forall j :: 0 <= j < k ==> items[j].lineId != lineId
    {
      k := k + 1;
    }
    if k == |items| {
      k := -1;
    }
  }

  /** Some line comes from this vendor (`existingVendors.includes(vendorId)`). */
  predicate HasVendor(items: seq<U.CartLine>, v: UserId) {
    exists i :: 0 <= i < |items| && items[i].vendorId == v
  }

  /** Reading `vendorId.vendorInfo.isOpen` off the populated vendor throws: the
      reference dangles, or the account has no vendor profile. */
  predicate VendorUnreadable(users: map<UserId, U.Account>, v: UserId) {
    v !in users || users[v].vendorInfo.None?
  }

  /** Freshly generated line ids differ from every line's id. */
  predicate FreshLineId(items: seq<U.CartLine>, lineId: LineId) {
    forall i :: 0 <= i < |items| ==> items[i].lineId != lineId
  }

  /** What the add, update and remove handlers answer with on success. */
  datatype CartSummary = CartSummary(totalItems: int, totalAmount: int, itemsCount: int)

  // ---------------------------------------------------------------------------
  // Add
  // ---------------------------------------------------------------------------

  /** The new lines after `POST /api/cart/add`, or the failure: 400 for a missing item id
      or a quantity (1 when absent) outside 1..50, 404 for an unknown item, 400 for an unavailable item,
      500 when the item's vendor cannot be read, 400 for a
      closed vendor, a vendor other than the cart's, or a merged quantity over 50, and
      500 when the save refuses the lines (instructions over 200 characters). */
  function AddOutcome(items: seq<U.CartLine>, menu: map<ItemId, M.MenuItem>, users: map<UserId, U.Account>,
                      menuItemId: Option<ItemId>, requested: Option<int>, instructions: string,
                      lineId: LineId, now: Time): (r: Response<seq<U.CartLine>>)
    ensures r.Ok? ==> && menuItemId.Some? && U.MinQuantity <= requested.GetOr(1) <= U.MaxQuantity
                      && menuItemId.value in menu && menu[menuItemId.value].isAvailable
                      && U.VendorOpen(users, menu[menuItemId.value].vendorId)
                      && U.LinesValid(r.value)
    ensures r.Ok? ==> items == [] || HasVendor(items, menu[menuItemId.value].vendorId)
    ensures menuItemId.None? ==> r == Fail(BadRequest, MenuItemIdRequired)
    ensures menuItemId.Some? && !(U.MinQuantity <= requested.GetOr(1) <= U.MaxQuantity) ==>
              r == Fail(BadRequest, QuantityOutOfRange)
    ensures menuItemId.Some? && U.MinQuantity <= requested.GetOr(1) <= U.MaxQuantity ==>
              var id := menuItemId.value;
              && (id !in menu ==> r == Fail(NotFound, MenuItemNotFound))
              && (id in menu && !menu[id].isAvailable ==> r == Fail(BadRequest, MenuItemNotAvailable))
              && (id in menu && menu[id].isAvailable && VendorUnreadable(users, menu[id].vendorId) ==>
                    r == Fail(InternalError, AddToCartFailed))
              && (id in menu && menu[id].isAvailable && !VendorUnreadable(users, menu[id].vendorId) ==>
                    && (!U.VendorOpen(users, menu[id].vendorId) ==> r == Fail(BadRequest, VendorClosed))
                    && (U.VendorOpen(users, menu[id].vendorId) && items != [] && !HasVendor(items, menu[id].vendorId) ==>
                          r == Fail(BadRequest, OtherVendorInCart))
                    && (U.VendorOpen(users, menu[id].vendorId) && (items == [] || HasVendor(items, menu[id].vendorId)) ==>
                          r == MergeOutcome(items, id, menu[id], requested.GetOr(1), instructions, lineId, now)))
  {
    var quantity := requested.GetOr(1);
    if menuItemId.None? then Fail(BadRequest, MenuItemIdRequired)
    else if quantity < U.MinQuantity || quantity > U.MaxQuantity then
      Fail(BadRequest, QuantityOutOfRange)
    else if menuItemId.value !in menu then Fail(NotFound, MenuItemNotFound)
    else
      var id := menuItemId.value;
      var item := menu[id];
      if !item.isAvailable then Fail(BadRequest, MenuItemNotAvailable)
      else if VendorUnreadable(users, item.vendorId) then Fail(InternalError, AddToCartFailed)
      else if !U.IsOpen(users[item.vendorId]) then Fail(BadRequest, VendorClosed)
      else if items != [] && !HasVendor(items, item.vendorId) then
        Fail(BadRequest, OtherVendorInCart)
      else MergeOutcome(items, id, item, quantity, instructions, lineId, now)
  }

  /** The second half of an add, once the item and its vendor are accepted: merge into
      the item's line (400 past 50 units) or append a line at the current price, then
      the save's check of the lines (500). */
  function MergeOutcome(items: seq<U.CartLine>, id: ItemId, item: M.MenuItem, quantity: int, instructions: string,
                        lineId: LineId, now: Time): (r: Response<seq<U.CartLine>>)
    ensures r.Ok? ==> U.LinesValid(r.value)
    ensures IndexOfItem(items, id) >= 0 && items[IndexOfItem(items, id)].quantity + quantity > U.MaxQuantity ==>
              r == Fail(BadRequest, QuantityLimit)
    ensures r.Err? ==> r == Fail(BadRequest, QuantityLimit) || r == Fail(InternalError, AddToCartFailed)
    ensures U.LinesValid(items) && U.MinQuantity <= quantity <= U.MaxQuantity
            && !(IndexOfItem(items, id) >= 0 && items[IndexOfItem(items, id)].quantity + quantity > U.MaxQuantity)
            ==> (r.Ok? <==> |instructions| <= U.MaxInstructionsLength)
  {
    var k := IndexOfItem(items, id);
    if k >= 0 && items[k].quantity + quantity > U.MaxQuantity then
      Fail(BadRequest, QuantityLimit)
    else
      var next :=
        if k >= 0 then items[k := items[k].(quantity := items[k].quantity + quantity, specialInstructions := instructions)]
        else items + [U.CartLine(lineId, id, item.vendorId, item.name, item.price, quantity, instructions, now)];
      if !U.LinesValid(next) then Fail(InternalError, AddToCartFailed)
      else
        assert U.LineValid(next[if k >= 0 then k else |items|]);
        Ok(next)
  }

  /** Computes `MergeOutcome` the way the handler does, with `findIndex`. */
  method Merge(items: seq<U.CartLine>, id: ItemId, item: M.MenuItem, quantity: int, instructions: string,
               lineId: LineId, now: Time) returns (r: Response<seq<U.CartLine>>)
    ensures r == MergeOutcome(items, id, item, quantity, instructions, lineId, now)
  {
    var k := FindItem(items, id);
    var next: seq<U.CartLine>;
    if k > -1 {
      var newQuantity := items[k].quantity + quantity;
      if newQuantity > U.MaxQuantity {
        r := Fail(BadRequest, QuantityLimit);
        return;
      }
      next := items[k := items[k].(quantity := newQuantity, specialInstructions := instructions)];
    } else {
      next := items + [U.CartLine(lineId, id, item.vendorId, item.name, item.price, quantity, instructions, now)];
    }
    if !U.LinesValid(next) {
      r := Fail(InternalError, AddToCartFailed);
      return;
    }
    r := Ok(next);
  }

  /** A successful merge into a cart whose lines (if any) come from the item's vendor
      keeps the cart invariant, with every line from that vendor. */
  lemma MergeKeepsInvariant(items: seq<U.CartLine>, id: ItemId, item: M.MenuItem, quantity: int, instructions: string,
                            lineId: LineId, now: Time)
    requires U.CartInvariant(items) && FreshLineId(items, lineId)
    requires items == [] || HasVendor(items, item.vendorId)
    requires MergeOutcome(items, id, item, quantity, instructions, lineId, now).Ok?
    ensures var next := MergeOutcome(items, id, item, quantity, instructions, lineId, now).value;
      && U.CartInvariant(next)
      && forall i :: 0 <= i < |next| ==> next[i].vendorId == item.vendorId
  {
    if items != [] {
      var i :| 0 <= i < |items| && items[i].vendorId == item.vendorId;
      assert items[0].vendorId == item.vendorId;
    }
    var next := MergeOutcome(items, id, item, quantity, instructions, lineId, now).value;
    var k := IndexOfItem(items, id);
    if k < 0 {
      var line := next[|items|];
      assert next == items + [line];
      AppendKeepsInvariant(items, line);
    }
  }

  /** A successful add keeps the cart invariant: every line from the item's vendor, one
      line per menu item, distinct line ids, quantities in 1..50. */
  lemma AddKeepsInvariant(items: seq<U.CartLine>, menu: map<ItemId, M.MenuItem>, users: map<UserId, U.Account>,
                          menuItemId: Option<ItemId>, requested: Option<int>, instructions: string, lineId: LineId, now: Time)
    requires U.CartInvariant(items) && FreshLineId(items, lineId)
    requires AddOutcome(items, menu, users, menuItemId, requested, instructions, lineId, now).Ok?
    ensures var next := AddOutcome(items, menu, users, menuItemId, requested, instructions, lineId, now).value;
      && U.CartInvariant(next)
      && forall i :: 0 <= i < |next| ==> next[i].vendorId == menu[menuItemId.value].vendorId
  {
    var id := menuItemId.value;
    MergeKeepsInvariant(items, id, menu[id], requested.GetOr(1), instructions, lineId, now);
  }

  /** An item already in the cart is merged into its line: the quantity grows by the
      amount added, the instructions are replaced, the stored price stays, and no line is
      added. Otherwise a new line with the item's current price is appended. */
  lemma AddMergesOrAppends(items: seq<U.CartLine>, menu: map<ItemId, M.MenuItem>, users: map<UserId, U.Account>,
                           menuItemId: Option<ItemId>, requested: Option<int>, instructions: string, lineId: LineId, now: Time)
    requires AddOutcome(items, menu, users, menuItemId, requested, instructions, lineId, now).Ok?
    ensures var next := AddOutcome(items, menu, users, menuItemId, requested, instructions, lineId, now).value;
      var id := menuItemId.value;
      var k := IndexOfItem(items, id);
      && (k >= 0 ==> && |next| == |items|
                     && next[k] == items[k].(quantity := items[k].quantity + requested.GetOr(1), specialInstructions := instructions)
                     && forall j :: 0 <= j < |items| && j != k ==> next[j] == items[j])
      && (k < 0 ==> && next[..|items|] == items
                    && next[|items|] == U.CartLine(lineId, id, menu[id].vendorId, menu[id].name, menu[id].price,
                                                   requested.GetOr(1), instructions, now)
                    && |next| == |items| + 1)
  {
  }

  /** Adding q units raises the cart's item count by exactly q. */
  lemma AddTotals(items: seq<U.CartLine>, menu: map<ItemId, M.MenuItem>, users: map<UserId, U.Account>,
                  menuItemId: Option<ItemId>, requested: Option<int>, instructions: string, lineId: LineId, now: Time)
    requires AddOutcome(items, menu, users, menuItemId, requested, instructions, lineId, now).Ok?
    ensures var next := AddOutcome(items, menu, users, menuItemId, requested, instructions, lineId, now).value;
      U.TotalQuantity(next) == U.TotalQuantity(items) + requested.GetOr(1)
  {
    var id := menuItemId.value;
    var next := AddOutcome(items, menu, users, menuItemId, requested, instructions, lineId, now).value;
    var k := IndexOfItem(items, id);
    if k >= 0 {
      U.TotalsReplace(items, k, next[k]);
    } else {
      U.TotalsAppend(items, [next[|items|]]);
      assert next == items + [next[|items|]];
      assert [next[|items|]][1..] == [];
    }
  }

  /** When every check of the handler passes on a valid cart and the merged quantity
      stays within 50, the add succeeds exactly when the instructions fit the line
      schema's 200 characters. */
  lemma AddSucceeds(items: seq<U.CartLine>, menu: map<ItemId, M.MenuItem>, users: map<UserId, U.Account>,
                    id: ItemId, requested: Option<int>, instructions: string, lineId: LineId, now: Time)
    requires U.LinesValid(items) && U.MinQuantity <= requested.GetOr(1) <= U.MaxQuantity
    requires id in menu && menu[id].isAvailable && U.VendorOpen(users, menu[id].vendorId)
    requires items == [] || HasVendor(items, menu[id].vendorId)
    requires !(IndexOfItem(items, id) >= 0 && items[IndexOfItem(items, id)].quantity + requested.GetOr(1) > U.MaxQuantity)
    ensures AddOutcome(items, menu, users, Some(id), requested, instructions, lineId, now).Ok?
            <==> |instructions| <= U.MaxInstructionsLength
  {
  }

  /** An item from another vendor is refused while the cart holds lines. */
  lemma AddOtherVendorRejected(items: seq<U.CartLine>, menu: map<ItemId, M.MenuItem>, users: map<UserId, U.Account>,
                               id: ItemId, requested: Option<int>, instructions: string, lineId: LineId, now: Time)
    requires U.SingleVendor(items) && items != []
    requires id in menu && menu[id].vendorId != items[0].vendorId
    ensures AddOutcome(items, menu, users, Some(id), requested, instructions, lineId, now).Err?
    ensures U.MinQuantity <= requested.GetOr(1) <= U.MaxQuantity && menu[id].isAvailable
            && U.VendorOpen(users, menu[id].vendorId) ==>
              AddOutcome(items, menu, users, Some(id), requested, instructions, lineId, now)
              == Fail(BadRequest, OtherVendorInCart)
  {
  }

  /** `POST /api/cart/add`: either the cart takes the new lines with recomputed totals, or
      it is left exactly as it was. */
  method Add(cart: U.Cart, menu: map<ItemId, M.MenuItem>, users: map<UserId, U.Account>,
             menuItemId: Option<ItemId>, requested: Option<int>, instructions: string, lineId: LineId, now: Time)
    returns (r: Response<CartSummary>)
    requires cart.Valid() && FreshLineId(cart.items, lineId)
    modifies cart
    ensures cart.Valid()
    ensures var out := AddOutcome(old(cart.items), menu, users, menuItemId, requested, instructions, lineId, now);
      && (out.Err? ==> r == Err(out.status, out.errors) && unchanged(cart))
      && (out.Ok? ==> && cart.items == out.value && cart.lastUpdated == now
                      && r == Ok(CartSummary(U.TotalQuantity(out.value), U.TotalAmount(out.value), |out.value|)))
  {
    if menuItemId.None? {
      r := Fail(BadRequest, MenuItemIdRequired);
      return;
    }
    var quantity := requested.GetOr(1);
    if quantity < U.MinQuantity || quantity > U.MaxQuantity {
      r := Fail(BadRequest, QuantityOutOfRange);
      return;
    }
    var id := menuItemId.value;
    if id !in menu {
      r := Fail(NotFound, MenuItemNotFound);
      return;
    }
    var item := menu[id];
    if !item.isAvailable {
      r := Fail(BadRequest, MenuItemNotAvailable);
      return;
    }
    if VendorUnreadable(users, item.vendorId) {
      r := Fail(InternalError, AddToCartFailed);
      return;
    }
    if !U.IsOpen(users[item.vendorId]) {
      r := Fail(BadRequest, VendorClosed);
      return;
    }
    if |cart.items| > 0 && !HasVendor(cart.items, item.vendorId) {
      r := Fail(BadRequest, OtherVendorInCart);
      return;
    }
    var merged := Merge(cart.items, id, item, quantity, instructions, lineId, now);
    if merged.Err? {
      r := Err(merged.status, merged.errors);
      return;
    }
    AddKeepsInvariant(cart.items, menu, users, menuItemId, requested, instructions, lineId, now);
    cart.items := merged.value;
    cart.CalculateTotals(now);
    r := Ok(CartSummary(cart.totalItems, cart.totalAmount, |cart.items|));
  }

  // ---------------------------------------------------------------------------
  // Update
  // ---------------------------------------------------------------------------

  /** The new lines after `PUT /api/cart/update/:itemId`, or the failure. A supplied
      non-zero quantity outside 1..50 is refused with 400 (0 is falsy and slips past that
      guard); an unknown line is 404; only the supplied fields change; and the save
      refuses with 500 a quantity or instructions outside the line schema. */
  function UpdateOutcome(items: seq<U.CartLine>, lineId: LineId, quantity: Option<int>,
                         instructions: Option<string>): (r: Response<seq<U.CartLine>>)
    ensures r.Ok? ==> && 0 <= IndexOfLine(items, lineId) && |r.value| == |items| && U.LinesValid(r.value)
    ensures r.Ok? ==> forall j :: 0 <= j < |items| && j != IndexOfLine(items, lineId) ==> r.value[j] == items[j]
    ensures r.Ok? ==> var k := IndexOfLine(items, lineId);
      r.value[k] == items[k].(quantity := quantity.GetOr(items[k].quantity),
                              specialInstructions := instructions.GetOr(items[k].specialInstructions))
    ensures quantity.Some? && quantity.value != 0 && !(U.MinQuantity <= quantity.value <= U.MaxQuantity) ==>
              r == Fail(BadRequest, QuantityOutOfRange)
    ensures IndexOfLine(items, lineId) < 0 && (quantity.None? || quantity.value == 0 || U.MinQuantity <= quantity.value <= U.MaxQuantity)
            ==> r == Fail(NotFound, CartItemNotFound)
    ensures 0 <= IndexOfLine(items, lineId) && (quantity.None? || quantity.value == 0 || U.MinQuantity <= quantity.value <= U.MaxQuantity)
            ==> var k := IndexOfLine(items, lineId);
                var updated := items[k := items[k].(quantity := quantity.GetOr(items[k].quantity),
                                                    specialInstructions := instructions.GetOr(items[k].specialInstructions))];
                && (r.Ok? <==> U.LinesValid(updated))
                && (r.Err? ==> r == Fail(InternalError, UpdateCartFailed))
  {
    if quantity.Some? && quantity.value != 0 && (quantity.value < U.MinQuantity || quantity.value > U.MaxQuantity) then
      Fail(BadRequest, QuantityOutOfRange)
    else
      var k := IndexOfLine(items, lineId);
      if k < 0 then Fail(NotFound, CartItemNotFound)
      else
        var line := items[k];
        var line1 := if quantity.Some? then line.(quantity := quantity.value) else line;
        var line2 := if instructions.Some? then line1.(specialInstructions := instructions.value) else line1;
        var next := items[k := line2];
        if !U.LinesValid(next) then Fail(InternalError, UpdateCartFailed)
        else Ok(next)
  }

  /** Quantity 0 on an existing line passes the route's guard and is stopped only by the
      line schema's minimum, so the answer is 500 rather than 400. */
  lemma UpdateZeroQuantity(items: seq<U.CartLine>, lineId: LineId, instructions: Option<string>)
    requires IndexOfLine(items, lineId) >= 0
    ensures UpdateOutcome(items, lineId, Some(0), instructions) == Fail(InternalError, UpdateCartFailed)
  {
    var k := IndexOfLine(items, lineId);
    var next := UpdateOutcome(items, lineId, Some(0), instructions);
    var line := items[k].(quantity := 0);
    var line2 := if instructions.Some? then line.(specialInstructions := instructions.value) else line;
    assert !U.LineValid(items[k := line2][k]);
  }

  /** A successful update keeps the cart invariant (vendor, item and line ids are
      untouched) and moves the item count by the quantity's change. */
  lemma UpdateKeepsInvariant(items: seq<U.CartLine>, lineId: LineId, quantity: Option<int>, instructions: Option<string>)
    requires U.CartInvariant(items) && UpdateOutcome(items, lineId, quantity, instructions).Ok?
    ensures var next := UpdateOutcome(items, lineId, quantity, instructions).value;
      var k := IndexOfLine(items, lineId);
      && U.CartInvariant(next)
      && U.TotalQuantity(next) == U.TotalQuantity(items) - items[k].quantity + next[k].quantity
  {
    var next := UpdateOutcome(items, lineId, quantity, instructions).value;
    var k := IndexOfLine(items, lineId);
    assert next == items[k := next[k]];
    U.TotalsReplace(items, k, next[k]);
  }

  /** `PUT /api/cart/update/:itemId`. */
  method Update(cart: U.Cart, lineId: LineId, quantity: Option<int>, instructions: Option<string>, now: Time)
    returns (r: Response<CartSummary>)
    requires cart.Valid()
    modifies cart
    ensures cart.Valid()
    ensures var out := UpdateOutcome(old(cart.items), lineId, quantity, instructions);
      && (out.Err? ==> r == Err(out.status, out.errors) && unchanged(cart))
      && (out.Ok? ==> && cart.items == out.value && cart.lastUpdated == now
                      && r == Ok(CartSummary(U.TotalQuantity(out.value), U.TotalAmount(out.value), |out.value|)))
  {
    if quantity.Some? && quantity.value != 0 && (quantity.value < U.MinQuantity || quantity.value > U.MaxQuantity) {
      r := Fail(BadRequest, QuantityOutOfRange);
      return;
    }
    var k := FindLine(cart.items, lineId);
    if k == -1 {
      r := Fail(NotFound, CartItemNotFound);
      return;
    }
    var line := cart.items[k];
    if quantity.Some? {
      line := line.(quantity := quantity.value);
    }
    if instructions.Some? {
      line := line.(specialInstructions := instructions.value);
    }
    var next := cart.items[k := line];
    if !U.LinesValid(next) {
      r := Fail(InternalError, UpdateCartFailed);
      return;
    }
    UpdateKeepsInvariant(cart.items, lineId, quantity, instructions);
    cart.items := next;
    cart.CalculateTotals(now);
    r := Ok(CartSummary(cart.totalItems, cart.totalAmount, |cart.items|));
  }

  // ---------------------------------------------------------------------------
  // Remove and clear
  // ---------------------------------------------------------------------------

  /** The lines after `DELETE /api/cart/remove/:itemId`: the matching line is spliced
      out, or 404. */
  function RemoveOutcome(items: seq<U.CartLine>, lineId: LineId): (r: Response<seq<U.CartLine>>)
    ensures r.Ok? <==> exists i :: 0 <= i < |items| && items[i].lineId == lineId
    ensures r.Err? ==> r == Fail(NotFound, CartItemNotFound)
    ensures r.Ok? ==> |r.value| == |items| - 1
  {
    var k := IndexOfLine(items, lineId);
    if k < 0 then Fail(NotFound, CartItemNotFound) else Ok(items[..k] + items[k + 1..])
  }

  /** Splicing one line out of a cart keeps the cart invariant. */
  lemma SpliceKeepsInvariant(items: seq<U.CartLine>, k: int)
    requires U.CartInvariant(items) && 0 <= k < |items|
    ensures U.CartInvariant(items[..k] + items[k + 1..])
  {
    var next := items[..k] + items[k + 1..];
    forall i | 0 <= i < |next|
      ensures next[i] == items[if i < k then i else i + 1]
    {
    }
    forall i, j | 0 <= i < j < |next|
      ensures next[i].menuItemId != next[j].menuItemId && next[i].lineId != next[j].lineId
    {
      assert next[i] == items[if i < k then i else i + 1];
      assert next[j] == items[if j < k then j else j + 1];
    }
    if next != [] {
      assert next[0].vendorId == items[0].vendorId;
    }
  }

  /** Removing keeps the other lines in their order, leaves no line with the removed id,
      keeps the cart invariant, and takes the line's terms out of the totals. */
  lemma RemoveExact(items: seq<U.CartLine>, lineId: LineId)
    requires U.CartInvariant(items) && RemoveOutcome(items, lineId).Ok?
    ensures var next := RemoveOutcome(items, lineId).value;
      var k := IndexOfLine(items, lineId);
      && (forall j :: 0 <= j < k ==> next[j] == items[j])
      && (forall j :: k <= j < |next| ==> next[j] == items[j + 1])
      && (forall j :: 0 <= j < |next| ==> next[j].lineId != lineId)
      && U.CartInvariant(next)
      && U.TotalQuantity(next) == U.TotalQuantity(items) - items[k].quantity
      && U.TotalAmount(next) == U.TotalAmount(items) - items[k].price * items[k].quantity
  {
    var k := IndexOfLine(items, lineId);
    var next := items[..k] + items[k + 1..];
    U.TotalsRemove(items, k);
    SpliceKeepsInvariant(items, k);
    forall j | 0 <= j < |next|
      ensures next[j] == items[if j < k then j else j + 1] && next[j].lineId != lineId
    {
      assert next[j] == items[if j < k then j else j + 1];
    }
  }

  /** `DELETE /api/cart/remove/:itemId`. */
  method Remove(cart: U.Cart, lineId: LineId, now: Time) returns (r: Response<CartSummary>)
    requires cart.Valid()
    modifies cart
    ensures cart.Valid()
    ensures var out := RemoveOutcome(old(cart.items), lineId);
      && (out.Err? ==> r == Err(out.status, out.errors) && unchanged(cart))
      && (out.Ok? ==> && cart.items == out.value && cart.lastUpdated == now
                      && r == Ok(CartSummary(U.TotalQuantity(out.value), U.TotalAmount(out.value), |out.value|)))
  {
    var k := FindLine(cart.items, lineId);
    if k == -1 {
      r := Fail(NotFound, CartItemNotFound);
      return;
    }
    RemoveExact(cart.items, lineId);
    cart.items := cart.items[..k] + cart.items[k + 1..];
    cart.CalculateTotals(now);
    r := Ok(CartSummary(cart.totalItems, cart.totalAmount, |cart.items|));
  }

  /** `DELETE /api/cart/clear`: no lines and zero totals, whatever the cart held. */
  method Clear(cart: U.Cart, now: Time)
    requires cart.Valid()
    modifies cart
    ensures cart.Valid()
    ensures cart.items == [] && cart.totalItems == 0 && cart.totalAmount == 0 && cart.lastUpdated == now
  {
    cart.items := [];
    cart.totalItems := 0;
    cart.totalAmount := 0;
    cart.lastUpdated := now;
  }

  // ---------------------------------------------------------------------------
  // View
  // ---------------------------------------------------------------------------

  /** A line that can still be ordered: its menu item exists and is available, and its
      vendor exists and is open. */
  predicate Live(line: U.CartLine, menu: map<ItemId, M.MenuItem>, users: map<UserId, U.Account>) {
    line.menuItemId in menu && menu[line.menuItemId].isAvailable && U.VendorOpen(users, line.vendorId)
  }

  /** The view filter: the live lines, in their order. */
  function LiveLines(items: seq<U.CartLine>, menu: map<ItemId, M.MenuItem>, users: map<UserId, U.Account>): (r: seq<U.CartLine>)
    ensures |r| <= |items|
    ensures forall x :: x in r <==> x in items && Live(x, menu, users)
  {
    if items == [] then []
    else
      var n := |items| - 1;
      var r := LiveLines(items[..n], menu, users);
      assert items == items[..n] + [items[n]];
      if Live(items[n], menu, users) then r + [items[n]] else r
  }

  /** The filter of a concatenation is the concatenation of the filters: the kept lines
      stay in their order. */
  lemma {:induction false} LiveLinesAppend(a: seq<U.CartLine>, b: seq<U.CartLine>, menu: map<ItemId, M.MenuItem>,
                                           users: map<UserId, U.Account>)
    ensures LiveLines(a + b, menu, users) == LiveLines(a, menu, users) + LiveLines(b, menu, users)
  {
    if b == [] {
      assert a + b == a;
    } else {
      var n := |b| - 1;
      var ab := a + b;
      assert ab[|ab| - 1] == b[n];
      assert ab[..|ab| - 1] == a + b[..n];
      LiveLinesAppend(a, b[..n], menu, users);
    }
  }

  /** Filtering keeps everything exactly when it drops nothing. */
  lemma {:induction false} LiveLinesKeepsAll(items: seq<U.CartLine>, menu: map<ItemId, M.MenuItem>, users: map<UserId, U.Account>)
    ensures |LiveLines(items, menu, users)| == |items| <==> LiveLines(items, menu, users) == items
  {
    if items != [] {
      var n := |items| - 1;
      LiveLinesKeepsAll(items[..n], menu, users);
      assert items == items[..n] + [items[n]];
    }
  }

  /** Appending a valid line from the same vendor, for another item and with a new line
      id, keeps the cart invariant. */
  lemma AppendKeepsInvariant(r: seq<U.CartLine>, x: U.CartLine)
    requires U.CartInvariant(r) && U.LineValid(x)
    requires r != [] ==> x.vendorId == r[0].vendorId
    requires forall i :: 0 <= i < |r| ==> r[i].menuItemId != x.menuItemId && r[i].lineId != x.lineId
    ensures U.CartInvariant(r + [x])
  {
    var next := r + [x];
    assert forall i :: 0 <= i < |r| ==> next[i] == r[i];
    if r != [] {
      assert next[0] == r[0];
    }
  }

  /** The filtered lines keep the cart invariant: they are a subsequence of a cart that
      had it. */
  lemma {:induction false} LiveLinesKeepInvariant(items: seq<U.CartLine>, menu: map<ItemId, M.MenuItem>, users: map<UserId, U.Account>)
    requires U.CartInvariant(items)
    ensures U.CartInvariant(LiveLines(items, menu, users))
  {
    if items != [] {
      var n := |items| - 1;
      var prefix := items[..n];
      assert U.CartInvariant(prefix) by {
        assert forall i :: 0 <= i < n ==> prefix[i] == items[i];
      }
      LiveLinesKeepInvariant(prefix, menu, users);
      var r := LiveLines(prefix, menu, users);
      assert items == prefix + [items[n]];
      if Live(items[n], menu, users) {
        forall i | 0 <= i < |r|
          ensures r[i].menuItemId != items[n].menuItemId && r[i].lineId != items[n].lineId
          ensures r[i].vendorId == items[n].vendorId
        {
          assert r[i] in prefix;
          var j :| 0 <= j < n && prefix[j] == r[i];
          assert items[j] == r[i];
        }
        AppendKeepsInvariant(r, items[n]);
      }
    }
  }

  /** The view's filter reaches `vendorInfo.isOpen` on a vendor that exists but has no
      vendor profile, and throws. */
  predicate ViewLineThrows(line: U.CartLine, menu: map<ItemId, M.MenuItem>, users: map<UserId, U.Account>) {
    line.menuItemId in menu && menu[line.menuItemId].isAvailable
    && line.vendorId in users && users[line.vendorId].vendorInfo.None?
  }

  /** `GET /api/cart`: answers with the live lines and writes the cart back, with
      recomputed totals, only when some line was dropped; a filter that throws answers
      500 and changes nothing. */
  method View(cart: U.Cart, menu: map<ItemId, M.MenuItem>, users: map<UserId, U.Account>, now: Time)
    returns (r: Response<seq<U.CartLine>>)
    requires cart.Valid()
    modifies cart
    ensures cart.Valid()
    ensures (exists j :: 0 <= j < |old(cart.items)| && ViewLineThrows(old(cart.items)[j], menu, users))
            ==> r == Fail(InternalError, FetchCartFailed) && unchanged(cart)
    ensures r.Ok? ==> r.value == LiveLines(old(cart.items), menu, users) && cart.items == r.value
    ensures r.Ok? && |r.value| == |old(cart.items)| ==> unchanged(cart)
    ensures r.Ok? && |r.value| < |old(cart.items)| ==> cart.lastUpdated == now
    ensures r.Ok? || r == Fail(InternalError, FetchCartFailed)
    ensures (forall j :: 0 <= j < |old(cart.items)| ==> !ViewLineThrows(old(cart.items)[j], menu, users)) ==> r.Ok?
    ensures r.Err? ==> unchanged(cart)
  {
    var valid: seq<U.CartLine> := [];
    var i := 0;
    while i < |cart.items|
      invariant 0 <= i <= |cart.items|
      invariant valid == LiveLines(cart.items[..i], menu, users)
      invariant forall j :: 0 <= j < i ==> !ViewLineThrows(cart.items[j], menu, users)
    {
      if ViewLineThrows(cart.items[i], menu, users) {
        r := Fail(InternalError, FetchCartFailed);
        return;
      }
      assert cart.items[..i + 1][..i] == cart.items[..i];
      if Live(cart.items[i], menu, users) {
        valid := valid + [cart.items[i]];
      }
      i := i + 1;
    }
    assert cart.items[..i] == cart.items;
    LiveLinesKeepsAll(cart.items, menu, users);
    if |valid| != |cart.items| {
      LiveLinesKeepInvariant(cart.items, menu, users);
      cart.items := valid;
      cart.CalculateTotals(now);
    }
    r := Ok(valid);
  }

  // ---------------------------------------------------------------------------
  // Checkout
  // ---------------------------------------------------------------------------

  /** The availability filter reads the vendor profile of every line whose menu item is
      present and available; an unreadable one makes it throw (500). */
  predicate CheckoutThrows(items: seq<U.CartLine>, menu: map<ItemId, M.MenuItem>, users: map<UserId, U.Account>) {
    exists i :: 0 <= i < |items| && items[i].menuItemId in menu && menu[items[i].menuItemId].isAvailable
                && VendorUnreadable(users, items[i].vendorId)
  }

  predicate AllLive(items: seq<U.CartLine>, menu: map<ItemId, M.MenuItem>, users: map<UserId, U.Account>) {
    forall i :: 0 <= i < |items| ==> Live(items[i], menu, users)
  }

  /** The order lines of a checkout: the menu item's current name and price, the cart
      line's quantity and instructions. */
  function CheckoutLines(items: seq<U.CartLine>, menu: map<ItemId, M.MenuItem>): (lines: seq<O.OrderLine>)
    requires forall i :: 0 <= i < |items| ==> items[i].menuItemId in menu
    ensures |lines| == |items|
    ensures forall i :: 0 <= i < |items| ==>
      lines[i] == O.OrderLine(items[i].menuItemId, menu[items[i].menuItemId].name, menu[items[i].menuItemId].price,
                              items[i].quantity, items[i].specialInstructions)
  {
    seq(|items|, i requires 0 <= i < |items| =>
      O.OrderLine(items[i].menuItemId, menu[items[i].menuItemId].name, menu[items[i].menuItemId].price,
                  items[i].quantity, items[i].specialInstructions))
  }

  /** Σ preparationTime × quantity over the lines, at the current menu values. */
  function PreparationWork(items: seq<U.CartLine>, menu: map<ItemId, M.MenuItem>): int
    requires forall i :: 0 <= i < |items| ==> items[i].menuItemId in menu
  {
    if items == [] then 0
    else menu[items[0].menuItemId].preparationTime * items[0].quantity + PreparationWork(items[1..], menu)
  }

  /** `Math.round(Math.max(15, Σ preparationTime × quantity / 10))`, on whole numbers:
      a tenth of the work rounded half up, but at least 15. */
  function CheckoutEstimate(work: int): (t: int)
    ensures t >= 15
    ensures t > 15 ==> -5 <= work - 10 * t < 5
    ensures t == 15 <==> work < 155
  {
    var rounded := (work + 5) / 10;
    if rounded < 15 then 15 else rounded
  }

  /** The order a checkout builds (before its save), or the failure: 400 for an empty
      cart, 500 when a live item's vendor is gone, 400 when some line is no longer
      orderable. */
  function CheckoutOutcome(items: seq<U.CartLine>, menu: map<ItemId, M.MenuItem>, users: map<UserId, U.Account>,
                           studentId: UserId, notes: string): (r: Response<O.Order>)
    ensures r.Ok? <==> items != [] && AllLive(items, menu, users)
    ensures items == [] ==> r == Fail(BadRequest, CartEmpty)
    ensures items != [] && CheckoutThrows(items, menu, users) ==> r == Fail(InternalError, PlaceOrderFailed)
    ensures items != [] && !CheckoutThrows(items, menu, users) && !AllLive(items, menu, users) ==>
              r == Fail(BadRequest, CartItemsUnavailable)
    ensures r.Ok? ==> && r.value.studentId == studentId && r.value.vendorId == items[0].vendorId
                      && r.value.items == CheckoutLines(items, menu)
                      && r.value.subtotal == OrderRoutes.LinesSubtotal(r.value.items)
                      && r.value.tax == OrderRoutes.Tax(r.value.subtotal) && r.value.deliveryFee == 0
                      && r.value.totalAmount == r.value.subtotal + r.value.tax
                      && r.value.estimatedTime == CheckoutEstimate(PreparationWork(items, menu))
                      && r.value.status == O.Pending && r.value.notes == notes
  {
    if items == [] then Fail(BadRequest, CartEmpty)
    else if CheckoutThrows(items, menu, users) then Fail(InternalError, PlaceOrderFailed)
    else if !AllLive(items, menu, users) then
      Fail(BadRequest, CartItemsUnavailable)
    else
      var lines := CheckoutLines(items, menu);
      var subtotal := OrderRoutes.LinesSubtotal(lines);
      var tax := OrderRoutes.Tax(subtotal);
      Ok(O.NewOrder(studentId, items[0].vendorId, lines, subtotal, tax, 0, subtotal + tax, notes,
                    Some(CheckoutEstimate(PreparationWork(items, menu)))))
  }

  /** When no menu price changed since the lines were added, the order's subtotal is the
      cart's own total. */
  lemma {:induction false} CheckoutMatchesCartTotal(items: seq<U.CartLine>, menu: map<ItemId, M.MenuItem>)
    requires forall i :: 0 <= i < |items| ==> items[i].menuItemId in menu && menu[items[i].menuItemId].price == items[i].price
    ensures OrderRoutes.LinesSubtotal(CheckoutLines(items, menu)) == U.TotalAmount(items)
  {
    if items != [] {
      var n := |items| - 1;
      CheckoutMatchesCartTotal(items[..n], menu);
      assert CheckoutLines(items, menu)[..n] == CheckoutLines(items[..n], menu);
      U.TotalsAppend(items[..n], [items[n]]);
      assert items == items[..n] + [items[n]];
      assert [items[n]][1..] == [];
    }
  }

  /** A cart whose work exceeds 1204 minute-units gets an estimate over 120 minutes, so
      the order's save fails (500) and the cart stays as it was. */
  lemma CheckoutTooMuchWorkFails(items: seq<U.CartLine>, menu: map<ItemId, M.MenuItem>, users: map<UserId, U.Account>,
                                 studentId: UserId, notes: string, orders: map<OrderId, O.Order>, generated: string)
    requires CheckoutOutcome(items, menu, users, studentId, notes).Ok?
    requires PreparationWork(items, menu) >= 1205
    ensures O.InsertOutcome(orders, CheckoutOutcome(items, menu, users, studentId, notes).value, generated).Err?
  {
  }

  /** `POST /api/cart/checkout`: either the order is saved and then the cart is emptied,
      or neither the orders nor the cart change. */
  method Checkout(cart: U.Cart, book: O.OrderBook, menu: map<ItemId, M.MenuItem>, users: map<UserId, U.Account>,
                  studentId: UserId, notes: string, id: OrderId, generated: string, now: Time)
    returns (r: Response<O.Order>)
    requires cart.Valid() && book.Valid() && id !in book.orders
    modifies cart, book
    ensures cart.Valid() && book.Valid()
    ensures var out := CheckoutOutcome(old(cart.items), menu, users, studentId, notes);
      && (out.Err? ==> r == out)
      && (out.Ok? ==> var saved := O.InsertOutcome(old(book.orders), out.value, generated);
                      r == if saved.Ok? then saved else Fail(InternalError, PlaceOrderFailed))
    ensures r.Ok? ==> && book.orders == old(book.orders)[id := r.value]
                      && cart.items == [] && cart.totalItems == 0 && cart.totalAmount == 0 && cart.lastUpdated == now
    ensures r.Err? ==> book.orders == old(book.orders) && unchanged(cart)
  {
    var out := CheckoutOutcome(cart.items, menu, users, studentId, notes);
    if out.Err? {
      r := out;
      return;
    }
    r := book.Insert(id, out.value, generated);
    if r.Err? {
      r := Fail(InternalError, PlaceOrderFailed);
    } else {
      cart.items := [];
      cart.totalItems := 0;
      cart.totalAmount := 0;
      cart.lastUpdated := now;
    }
  }
}
