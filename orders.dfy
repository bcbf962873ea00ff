/** The order routes: creating an order from a list of requested items (pricing at the
    current menu prices, 5% tax, the preparation estimate), the student's cancel, the
    vendor's status update with its progression guard, and the access checks of the
    detail and delivery-code lookups. */
module OrderRoutes {
  import opened Common
  import M = MenuItemSchema
  import U = UserSchema
  import opened OrderSchema

  // ---------------------------------------------------------------------------
  // Pricing
  // ---------------------------------------------------------------------------

  /** `Math.round(subtotal * 0.05)`: the whole number nearest to 5% of the subtotal,
      halves rounded up. */
  function Tax(subtotal: int): (t: int)
    ensures -10 <= subtotal - 20 * t < 10
  {
    (subtotal + 10) / 20
  }

  /** The tax is never negative on a non-negative subtotal and never more than the
      subtotal itself once there is something to pay. */
  lemma TaxBounds(subtotal: int)
    requires subtotal >= 0
    ensures 0 <= Tax(subtotal)
    ensures subtotal >= 1 ==> Tax(subtotal) <= subtotal
  {
  }

  /** Σ price × quantity over the lines, as the handlers accumulate it. */
  function LinesSubtotal(lines: seq<OrderLine>): int {
    if lines == [] then 0
    else LinesSubtotal(lines[..|lines| - 1]) + lines[|lines| - 1].price * lines[|lines| - 1].quantity
  }

  /** Σ quantity over the lines. */
  function LinesQuantity(lines: seq<OrderLine>): int {
    if lines == [] then 0 else LinesQuantity(lines[..|lines| - 1]) + lines[|lines| - 1].quantity
  }

  /** Lines with positive prices and quantities make a positive subtotal. */
  lemma {:induction false} SubtotalPositive(lines: seq<OrderLine>)
    requires lines != []
    requires forall i :: 0 <= i < |lines| ==> lines[i].price >= 1 && lines[i].quantity >= 1
    ensures LinesSubtotal(lines) >= |lines|
  {
    var n := |lines| - 1;
    if n > 0 {
      SubtotalPositive(lines[..n]);
    }
    var l := lines[n];
    assert l.price * l.quantity >= 1 by {
      assert l.price >= 1 && l.quantity >= 1;
    }
  }

  /** The direct order's estimate: ten minutes plus three per unit, but at least 15. */
  function EstimatedTime(lines: seq<OrderLine>): (t: int)
    ensures t >= 15 && t >= 10 + 3 * LinesQuantity(lines)
    ensures t == 15 || t == 10 + 3 * LinesQuantity(lines)
  {
    var work := 10 + 3 * LinesQuantity(lines);
    if work < 15 then 15 else work
  }

  /** The estimate stays within the schema's 5..120 minutes exactly while the order has
      at most 36 units: 37 units give 121 minutes, which the schema refuses. */
  lemma EstimateWithinSchema(lines: seq<OrderLine>)
    ensures MinEstimatedTime <= EstimatedTime(lines) <= MaxEstimatedTime <==> LinesQuantity(lines) <= 36
  {
  }

  /** The sample order of the seed data: 2 × 60 + 1 × 120 gives subtotal 240, tax 12 and
      total 252. */
  lemma SeedOrderTotals()
    ensures LinesSubtotal([OrderLine(1, "Espresso", 60, 2, ""), OrderLine(3, "Chicken Sandwich", 120, 1, "")]) == 240
    ensures Tax(240) == 12 && 240 + Tax(240) == 252
  {
    var lines := [OrderLine(1, "Espresso", 60, 2, ""), OrderLine(3, "Chicken Sandwich", 120, 1, "")];
    assert lines[..1] == [lines[0]];
    assert lines[..1][..0] == [];
  }

  // ---------------------------------------------------------------------------
  // Create
  // ---------------------------------------------------------------------------

  /** One requested item: the menu item (absent when not supplied), the quantity (0 when
      not supplied) and the instructions. */
  datatype ItemRequest = ItemRequest(menuItemId: Option<ItemId>, quantity: int, specialInstructions: string)

  /** The create request's body. An absent `notes` is the empty string. */
  datatype CreateRequest = CreateRequest(vendorId: Option<UserId>, items: seq<ItemRequest>, notes: string)

  /** The item lookup: an item of this vendor that is currently available. */
  predicate ItemOffered(menu: map<ItemId, M.MenuItem>, vendorId: UserId, id: ItemId) {
    id in menu && menu[id].vendorId == vendorId && menu[id].isAvailable
  }

  /** A requested item passes both per-item checks. */
  predicate ItemRequestOk(menu: map<ItemId, M.MenuItem>, vendorId: UserId, q: ItemRequest) {
    q.menuItemId.Some? && q.quantity >= 1 && ItemOffered(menu, vendorId, q.menuItemId.value)
  }

  /** The line a valid request becomes: name and price are the menu item's current ones. */
  function PricedLine(menu: map<ItemId, M.MenuItem>, vendorId: UserId, q: ItemRequest): (l: OrderLine)
    requires ItemRequestOk(menu, vendorId, q)
    ensures l.menuItemId == q.menuItemId.value && l.quantity == q.quantity
    ensures l.price == menu[l.menuItemId].price && l.name == menu[l.menuItemId].name
    ensures l.specialInstructions == q.specialInstructions
  {
    var id := q.menuItemId.value;
    OrderLine(id, menu[id].name, menu[id].price, q.quantity, q.specialInstructions)
  }

  /** The item loop: the requests in order, each checked and priced; the first bad
      request ends the whole order with 400. */
  function ProcessItems(menu: map<ItemId, M.MenuItem>, vendorId: UserId, reqs: seq<ItemRequest>): (r: Response<seq<OrderLine>>)
    ensures r.Ok? <==> forall i :: 0 <= i < |reqs| ==> ItemRequestOk(menu, vendorId, reqs[i])
    ensures r.Ok? ==> |r.value| == |reqs|
    ensures r.Ok? ==> forall i :: 0 <= i < |reqs| ==> r.value[i] == PricedLine(menu, vendorId, reqs[i])
    ensures r.Err? ==> r.status == BadRequest
  {
    if reqs == [] then Ok([])
    else
      var n := |reqs| - 1;
      var q := reqs[n];
      var prefix := ProcessItems(menu, vendorId, reqs[..n]);
      if prefix.Err? then prefix
      else if q.menuItemId.None? || q.quantity < 1 then
        Fail(BadRequest, InvalidItemData)
      else if !ItemOffered(menu, vendorId, q.menuItemId.value) then
        Fail(BadRequest, ItemNotFoundOrUnavailable)
      else Ok(prefix.value + [PricedLine(menu, vendorId, q)])
  }

  /** Once a prefix of the requests fails, the whole list fails with the same answer:
      the first bad request decides. */
  lemma {:induction false} FirstFailureDecides(menu: map<ItemId, M.MenuItem>, vendorId: UserId, reqs: seq<ItemRequest>, j: nat)
    requires j <= |reqs| && ProcessItems(menu, vendorId, reqs[..j]).Err?
    ensures ProcessItems(menu, vendorId, reqs) == ProcessItems(menu, vendorId, reqs[..j])
    decreases |reqs|
  {
    if j < |reqs| {
      var n := |reqs| - 1;
      assert reqs[..n][..j] == reqs[..j];
      FirstFailureDecides(menu, vendorId, reqs[..n], j);
    } else {
      assert reqs[..j] == reqs;
    }
  }

  /** One more request: the prefix's lines extended by its priced line, or the answer
      of its failed check. */
  lemma ProcessStep(menu: map<ItemId, M.MenuItem>, vendorId: UserId, reqs: seq<ItemRequest>, i: nat)
    requires i < |reqs| && ProcessItems(menu, vendorId, reqs[..i]).Ok?
    ensures var q := reqs[i];
      ProcessItems(menu, vendorId, reqs[..i + 1])
      == if q.menuItemId.None? || q.quantity < 1 then Fail(BadRequest, InvalidItemData)
         else if !ItemOffered(menu, vendorId, q.menuItemId.value) then Fail(BadRequest, ItemNotFoundOrUnavailable)
         else Ok(ProcessItems(menu, vendorId, reqs[..i]).value + [PricedLine(menu, vendorId, q)])
  {
    assert reqs[..i + 1][..i] == reqs[..i];
  }

  /** The `for (const item of items)` loop: checks and prices each request in order,
      accumulating the subtotal, and stops at the first bad one. */
  method PriceItems(menu: map<ItemId, M.MenuItem>, vendorId: UserId, reqs: seq<ItemRequest>)
    returns (r: Response<seq<OrderLine>>, subtotal: int)
    ensures r == ProcessItems(menu, vendorId, reqs)
    ensures r.Ok? ==> subtotal == LinesSubtotal(r.value)
  {
    var processed: seq<OrderLine> := [];
    subtotal := 0;
    var i := 0;
    while i < |reqs|
      invariant 0 <= i <= |reqs|
      invariant ProcessItems(menu, vendorId, reqs[..i]) == Ok(processed)
      invariant subtotal == LinesSubtotal(processed)
    {
      var q := reqs[i];
      ProcessStep(menu, vendorId, reqs, i);
      if q.menuItemId.None? || q.quantity < 1 {
        r := Fail(BadRequest, InvalidItemData);
        FirstFailureDecides(menu, vendorId, reqs, i + 1);
        return;
      }
      var id := q.menuItemId.value;
      if !ItemOffered(menu, vendorId, id) {
        r := Fail(BadRequest, ItemNotFoundOrUnavailable);
        FirstFailureDecides(menu, vendorId, reqs, i + 1);
        return;
      }
      var line := OrderLine(id, menu[id].name, menu[id].price, q.quantity, q.specialInstructions);
      subtotal := subtotal + menu[id].price * q.quantity;
      assert (processed + [line])[..|processed|] == processed;
      processed := processed + [line];
      i := i + 1;
    }
    assert reqs[..i] == reqs;
    r := Ok(processed);
  }

  /** The request checks that precede any lookup; all failures are reported together. */
  function CreateErrors(req: CreateRequest): (errs: seq<Message>)
    ensures |errs| == 0 <==> req.vendorId.Some? && req.items != []
    ensures |errs| <= 2
  {
    (if req.vendorId.None? then [VendorIdRequired] else [])
    + (if req.items == [] then [OrderItemsRequired] else [])
  }

  /** The vendor lookup: an account with role vendor that is active. */
  predicate ActiveVendor(users: map<UserId, U.Account>, v: UserId) {
    v in users && users[v].role == U.Vendor && users[v].isActive
  }

  /** The order the create handler builds (before its save), or the answer that ends it
      earlier: 422 for a missing vendor or item list, 404 for a vendor that is not an
      active vendor, 400 for a closed vendor or a bad item. */
  function CreateOutcome(users: map<UserId, U.Account>, menu: map<ItemId, M.MenuItem>,
                         studentId: UserId, req: CreateRequest): (r: Response<Order>)
    ensures r.Err? && r.status == Unprocessable <==> |CreateErrors(req)| > 0
    ensures |CreateErrors(req)| == 0 && !ActiveVendor(users, req.vendorId.value) ==>
              r == Fail(NotFound, VendorNotFoundOrInactive)
    ensures |CreateErrors(req)| == 0 && ActiveVendor(users, req.vendorId.value) && !U.IsOpen(users[req.vendorId.value]) ==>
              r == Fail(BadRequest, VendorClosed)
    ensures |CreateErrors(req)| == 0 && ActiveVendor(users, req.vendorId.value) && U.IsOpen(users[req.vendorId.value]) ==>
              && (r.Ok? <==> ProcessItems(menu, req.vendorId.value, req.items).Ok?)
              && (r.Err? ==> && r.status == ProcessItems(menu, req.vendorId.value, req.items).status
                             && r.errors == ProcessItems(menu, req.vendorId.value, req.items).errors)
    ensures r.Ok? ==> req.vendorId.Some? && ActiveVendor(users, req.vendorId.value) && U.IsOpen(users[req.vendorId.value])
    ensures r.Ok? ==> ProcessItems(menu, req.vendorId.value, req.items) == Ok(r.value.items)
    ensures r.Ok? ==> r.value.studentId == studentId && r.value.vendorId == req.vendorId.value
    ensures r.Ok? ==> && r.value.subtotal == LinesSubtotal(r.value.items)
                      && r.value.tax == Tax(r.value.subtotal) && r.value.deliveryFee == 0
                      && r.value.totalAmount == r.value.subtotal + r.value.tax
    ensures r.Ok? ==> r.value.estimatedTime == EstimatedTime(r.value.items)
    ensures r.Ok? ==> r.value.status == Pending && r.value.paymentStatus == PaymentPending
    ensures r.Ok? ==> r.value.notes == req.notes && r.value.deliveryCode == []
  {
    var errs := CreateErrors(req);
    if |errs| > 0 then Err(Unprocessable, errs)
    else
      var v := req.vendorId.value;
      if !ActiveVendor(users, v) then Fail(NotFound, VendorNotFoundOrInactive)
      else if !U.IsOpen(users[v]) then Fail(BadRequest, VendorClosed)
      else
        var priced := ProcessItems(menu, v, req.items);
        if priced.Err? then Err(priced.status, priced.errors)
        else
          var lines := priced.value;
          var subtotal := LinesSubtotal(lines);
          var tax := Tax(subtotal);
          Ok(NewOrder(studentId, v, lines, subtotal, tax, 0, subtotal + tax, req.notes, Some(EstimatedTime(lines))))
  }

  /** A created order with more than 36 units cannot be saved: its estimate exceeds the
      schema's 120 minutes. */
  lemma {:induction false} CreateTooManyUnitsFails(users: map<UserId, U.Account>, menu: map<ItemId, M.MenuItem>,
                                                   studentId: UserId, req: CreateRequest, orders: map<OrderId, Order>,
                                                   generated: string)
    requires CreateOutcome(users, menu, studentId, req).Ok?
    requires LinesQuantity(CreateOutcome(users, menu, studentId, req).value.items) >= 37
    ensures InsertOutcome(orders, CreateOutcome(users, menu, studentId, req).value, generated)
         == Fail(InternalError, OrderRejected)
  {
    var o := CreateOutcome(users, menu, studentId, req).value;
    assert o.estimatedTime > MaxEstimatedTime;
  }

  /** A created order within the unit limit and with short notes passes the schema:
      quantities and prices come from the menu and the total is at least 1. */
  lemma CreateWithinLimitsIsValid(users: map<UserId, U.Account>, menu: map<ItemId, M.MenuItem>,
                                  studentId: UserId, req: CreateRequest)
    requires CreateOutcome(users, menu, studentId, req).Ok?
    requires forall id :: id in menu ==> M.SchemaValid(menu[id])
    requires forall i :: 0 <= i < |req.items| ==> req.items[i].quantity <= MaxItemQuantity
    requires LinesQuantity(CreateOutcome(users, menu, studentId, req).value.items) <= 36
    requires |req.notes| <= MaxNotesLength
    ensures SchemaValid(CreateOutcome(users, menu, studentId, req).value)
  {
    var o := CreateOutcome(users, menu, studentId, req).value;
    var v := req.vendorId.value;
    forall i | 0 <= i < |o.items|
      ensures OrderLineValid(o.items[i]) && o.items[i].price >= 1
    {
      assert o.items[i] == PricedLine(menu, v, req.items[i]);
      assert ItemRequestOk(menu, v, req.items[i]);
    }
    SubtotalPositive(o.items);
    TaxBounds(o.subtotal);
    EstimateWithinSchema(o.items);
  }

  /** `POST /api/orders`: builds the order, then saves it (which assigns the delivery
      code); a failed save is caught and answered with 500. The collection changes only
      when the whole request succeeds. */
  method CreateOrder(book: OrderBook, users: map<UserId, U.Account>, menu: map<ItemId, M.MenuItem>,
                     studentId: UserId, req: CreateRequest, id: OrderId, generated: string)
    returns (r: Response<Order>)
    requires book.Valid() && id !in book.orders
    modifies book
    ensures book.Valid()
    ensures var out := CreateOutcome(users, menu, studentId, req);
      r == (if out.Err? then out
            else if InsertOutcome(old(book.orders), out.value, generated).Err? then Fail(InternalError, CreateOrderFailed)
            else InsertOutcome(old(book.orders), out.value, generated))
    ensures r.Ok? ==> book.orders == old(book.orders)[id := r.value]
    ensures r.Err? ==> book.orders == old(book.orders)
  {
    var errs := CreateErrors(req);
    if |errs| > 0 {
      r := Err(Unprocessable, errs);
      return;
    }
    var v := req.vendorId.value;
    if !ActiveVendor(users, v) {
      r := Fail(NotFound, VendorNotFoundOrInactive);
      return;
    }
    if !U.IsOpen(users[v]) {
      r := Fail(BadRequest, VendorClosed);
      return;
    }
    var priced, subtotal := PriceItems(menu, v, req.items);
    if priced.Err? {
      r := Err(priced.status, priced.errors);
      return;
    }
    var tax := Tax(subtotal);
    var order := NewOrder(studentId, v, priced.value, subtotal, tax, 0, subtotal + tax, req.notes,
                          Some(EstimatedTime(priced.value)));
    r := book.Insert(id, order, generated);
    if r.Err? {
      r := Fail(InternalError, CreateOrderFailed);
    }
  }

  // ---------------------------------------------------------------------------
  // Cancel
  // ---------------------------------------------------------------------------

  const DefaultCancelReason: string := "Cancelled by student"

  /** The cancel handler given the lookup of the order among the student's own: 404 when
      it is not there, 400 unless it is pending or confirmed, otherwise the cancelled
      order with the given reason or the default one. */
  function CancelOutcome(found: Option<Order>, reason: string): (r: Response<Order>)
    ensures found.None? ==> r == Fail(NotFound, OrderNotFound)
    ensures found.Some? && found.value.status != Pending && found.value.status != Confirmed ==>
              r == Fail(BadRequest, CannotCancel)
    ensures r.Ok? <==> found.Some? && (found.value.status == Pending || found.value.status == Confirmed)
    ensures r.Ok? ==> r.value == found.value.(status := Cancelled, cancelReason := r.value.cancelReason)
    ensures r.Ok? ==> r.value.cancelReason == (if reason == [] then DefaultCancelReason else reason)
  {
    if found.None? then Fail(NotFound, OrderNotFound)
    else if found.value.status != Pending && found.value.status != Confirmed then
      Fail(BadRequest, CannotCancel)
    else Ok(found.value.(status := Cancelled, cancelReason := if reason == [] then DefaultCancelReason else reason))
  }

  /** `Order.findOne({ _id, studentId })` for a student and `Order.findOne({ _id, vendorId })`
      for a vendor: the order with this id when the caller is party to it. */
  function PartyOrder(orders: map<OrderId, Order>, id: OrderId, who: Requester): (r: Option<Order>)
    ensures r.Some? <==> id in orders && IsParty(orders[id], who)
    ensures r.Some? ==> r.value == orders[id]
  {
    if id in orders && IsParty(orders[id], who) then Some(orders[id]) else None
  }

  /** `PATCH /api/orders/:id/cancel`. A cancelled order still satisfies the schema, so
      its save cannot fail. */
  method Cancel(book: OrderBook, id: OrderId, studentId: UserId, reason: string) returns (r: Response<Order>)
    requires book.Valid()
    modifies book
    ensures book.Valid()
    ensures r == CancelOutcome(PartyOrder(old(book.orders), id, Requester(studentId, U.Student)), reason)
    ensures r.Ok? ==> book.orders == old(book.orders)[id := r.value]
    ensures r.Err? ==> book.orders == old(book.orders)
  {
    var found := PartyOrder(book.orders, id, Requester(studentId, U.Student));
    var out := CancelOutcome(found, reason);
    if out.Err? {
      r := out;
      return;
    }
    r := book.Save(id, out.value);
  }

  // ---------------------------------------------------------------------------
  // Status update
  // ---------------------------------------------------------------------------

  /** Position in `['pending', 'confirmed', 'preparing', 'ready', 'completed']`, with
      `indexOf`'s -1 for a status not in the list. */
  function StatusIndex(s: Status): (k: int)
    ensures -1 <= k <= 4 && (k == -1 <==> s == Cancelled)
  {
    match s
    case Pending => 0
    case Confirmed => 1
    case Preparing => 2
    case Ready => 3
    case Completed => 4
    case Cancelled => -1
  }

  /** The targets a vendor may name. */
  predicate VendorTarget(s: Status) {
    s == Confirmed || s == Preparing || s == Ready || s == Completed
  }

  /** The progression guard as written: a target is refused when it is not later in the
      list than the current status, unless the target is `ready`. */
  predicate TransitionAllowed(current: Status, target: Status) {
    !(StatusIndex(target) <= StatusIndex(current) && target != Ready)
  }

  /** What the guard lets through besides a plain step forward: skipping stages
      (pending to preparing or completed), going back from completed to ready, and
      staying at ready; it refuses staying at completed and going back otherwise. */
  lemma TransitionAsWritten()
    ensures TransitionAllowed(Pending, Preparing) && TransitionAllowed(Pending, Completed)
    ensures TransitionAllowed(Completed, Ready) && TransitionAllowed(Ready, Ready)
    ensures !TransitionAllowed(Completed, Completed) && !TransitionAllowed(Preparing, Confirmed)
    ensures !TransitionAllowed(Ready, Confirmed) && !TransitionAllowed(Confirmed, Confirmed)
  {
  }

  /** Any target other than `ready` is accepted only when it lies strictly later in the
      progression, and `ready` is accepted from every status. */
  lemma TransitionCharacterized(current: Status, target: Status)
    requires VendorTarget(target)
    ensures TransitionAllowed(current, target) <==> target == Ready || StatusIndex(current) < StatusIndex(target)
  {
  }

  /** The status handler given the lookup of the order among the vendor's own: 400 for a
      missing or unknown target, 404 when the order is not there, 400 for a cancelled
      order or a refused step, and 500 when the saved document would break the schema
      (an estimate outside 5..120). Otherwise the new status is set, the estimate is
      replaced only by a non-zero value, and reaching completed stamps the time. */
  function StatusUpdateOutcome(found: Option<Order>, status: string, estimatedTime: int, now: Time): (r: Response<Order>)
    ensures r.Ok? ==> && found.Some? && found.value.status != Cancelled
                      && VendorTarget(r.value.status) && StatusName(r.value.status) == status
                      && TransitionAllowed(found.value.status, r.value.status)
    ensures r.Ok? ==> r.value == found.value.(status := r.value.status, estimatedTime := r.value.estimatedTime,
                                               completedAt := r.value.completedAt)
    ensures r.Ok? ==> r.value.estimatedTime == (if estimatedTime != 0 then estimatedTime else found.value.estimatedTime)
    ensures r.Ok? ==> r.value.completedAt == (if r.value.status == Completed then Some(now) else found.value.completedAt)
    ensures r.Ok? ==> SchemaValid(r.value)
    ensures found.Some? && found.value.status == Cancelled ==> r.Err? && r.status == BadRequest
    ensures status == [] ==> r == Fail(BadRequest, StatusRequired)
    ensures status != [] && (ParseStatus(status).None? || !VendorTarget(ParseStatus(status).value)) ==>
              r == Fail(BadRequest, InvalidStatus)
    ensures ParseStatus(status).Some? && VendorTarget(ParseStatus(status).value) ==>
              && (found.None? ==> r == Fail(NotFound, OrderNotFound))
              && (found.Some? && found.value.status == Cancelled ==> r == Fail(BadRequest, CannotUpdateCancelled))
              && (found.Some? && found.value.status != Cancelled
                  && !TransitionAllowed(found.value.status, ParseStatus(status).value) ==>
                    r == Fail(BadRequest, InvalidProgression))
              && (found.Some? && found.value.status != Cancelled
                  && TransitionAllowed(found.value.status, ParseStatus(status).value) ==>
                    r.Ok? || r == Fail(InternalError, UpdateStatusFailed))
  {
    if status == [] then Fail(BadRequest, StatusRequired)
    else
      var target := ParseStatus(status);
      if target.None? || !VendorTarget(target.value) then
        Fail(BadRequest, InvalidStatus)
      else if found.None? then Fail(NotFound, OrderNotFound)
      else
        var o := found.value;
        if o.status == Cancelled then Fail(BadRequest, CannotUpdateCancelled)
        else if !TransitionAllowed(o.status, target.value) then Fail(BadRequest, InvalidProgression)
        else
          var updated := o.(status := target.value,
                            estimatedTime := if estimatedTime != 0 then estimatedTime else o.estimatedTime,
                            completedAt := if target.value == Completed then Some(now) else o.completedAt);
          if !SchemaValid(updated) then Fail(InternalError, UpdateStatusFailed)
          else Ok(updated)
  }

  /** For a stored (valid) order, a permitted step fails only because of the supplied
      estimate, and exactly when that estimate is non-zero and outside 5..120. */
  lemma StatusUpdateSaveFails(o: Order, status: string, estimatedTime: int, now: Time)
    requires SchemaValid(o) && o.status != Cancelled
    requires ParseStatus(status).Some? && VendorTarget(ParseStatus(status).value)
    requires TransitionAllowed(o.status, ParseStatus(status).value)
    ensures StatusUpdateOutcome(Some(o), status, estimatedTime, now).Err?
        <==> estimatedTime != 0 && !(MinEstimatedTime <= estimatedTime <= MaxEstimatedTime)
  {
  }

  /** `PATCH /api/orders/:id/status`. */
  method UpdateStatus(book: OrderBook, id: OrderId, vendorId: UserId, status: string, estimatedTime: int, now: Time)
    returns (r: Response<Order>)
    requires book.Valid()
    modifies book
    ensures book.Valid()
    ensures r == StatusUpdateOutcome(PartyOrder(old(book.orders), id, Requester(vendorId, U.Vendor)), status, estimatedTime, now)
    ensures r.Ok? ==> book.orders == old(book.orders)[id := r.value]
    ensures r.Err? ==> book.orders == old(book.orders)
  {
    var out := StatusUpdateOutcome(PartyOrder(book.orders, id, Requester(vendorId, U.Vendor)), status, estimatedTime, now);
    if out.Err? {
      r := out;
      return;
    }
    r := book.Save(id, out.value);
  }

  // ---------------------------------------------------------------------------
  // Lookups and their access checks
  // ---------------------------------------------------------------------------

  /** The authenticated caller. */
  datatype Requester = Requester(id: UserId, role: U.Role)

  /** The caller is the order's student or the order's vendor, as its role says. */
  predicate IsParty(o: Order, who: Requester) {
    if who.role == U.Student then o.studentId == who.id else o.vendorId == who.id
  }

  /** The access check shared by the detail and delivery-code lookups: 404 when there is
      no order, 403 for a student or vendor who is not party to it. */
  function AccessOutcome(found: Option<Order>, who: Requester, missing: Message): (r: Response<Order>)
    ensures r.Ok? <==> found.Some? && IsParty(found.value, who)
    ensures r.Ok? ==> r.value == found.value
    ensures r.Err? ==> r == Fail(if found.None? then NotFound else Forbidden, if found.None? then missing else AccessDenied)
  {
    if found.None? then Fail(NotFound, missing)
    else if who.role == U.Student && found.value.studentId != who.id then Fail(Forbidden, AccessDenied)
    else if who.role == U.Vendor && found.value.vendorId != who.id then Fail(Forbidden, AccessDenied)
    else Ok(found.value)
  }

  /** `GET /api/orders/:id`. */
  function ViewOrder(orders: map<OrderId, Order>, id: OrderId, who: Requester): (r: Response<Order>)
    ensures r.Ok? <==> id in orders && IsParty(orders[id], who)
    ensures r.Ok? ==> r.value == orders[id]
  {
    AccessOutcome(if id in orders then Some(orders[id]) else None, who, OrderNotFound)
  }

  /** The stored order carrying this delivery code, if any (at most one, by the index). */
  ghost function OrderWithCode(orders: map<OrderId, Order>, code: string): (r: Option<Order>)
    requires CodesUnique(orders)
    ensures r.Some? <==> CodeInUse(orders, code)
    ensures r.Some? ==> r.value.deliveryCode == code && exists id :: id in orders && orders[id] == r.value
  {
    if CodeInUse(orders, code) then
      var id :| id in orders && orders[id].deliveryCode == code; Some(orders[id])
    else None
  }

  /** The delivery-code lookup: a code is required, is upper-cased, and must name an
      order the caller is party to. */
  ghost function SearchOutcome(orders: map<OrderId, Order>, code: string, who: Requester): (r: Response<Order>)
    requires CodesUnique(orders)
    ensures code == [] ==> r == Fail(BadRequest, DeliveryCodeRequired)
    ensures code != [] && !CodeInUse(orders, Upper(code)) ==> r == Fail(NotFound, OrderNotFoundWithCode)
    ensures r.Ok? <==> code != [] && CodeInUse(orders, Upper(code)) && IsParty(OrderWithCode(orders, Upper(code)).value, who)
    ensures r.Ok? ==> r.value.deliveryCode == Upper(code) && exists id :: id in orders && orders[id] == r.value
  {
    if code == [] then Fail(BadRequest, DeliveryCodeRequired)
    else AccessOutcome(OrderWithCode(orders, Upper(code)), who, OrderNotFoundWithCode)
  }

  /** `GET /api/orders/search`: scans the collection for the upper-cased code and then
      applies the access check. */
  method Search(book: OrderBook, code: string, who: Requester) returns (r: Response<Order>)
    requires book.Valid()
    ensures r == SearchOutcome(book.orders, code, who)
    ensures r.Ok? ==> r.value.deliveryCode == Upper(code) && IsParty(r.value, who)
  {
    if code == [] {
      r := Fail(BadRequest, DeliveryCodeRequired);
      return;
    }
    var wanted := Upper(code);
    var keys := book.orders.Keys;
    var found: Option<Order> := None;
    ghost var foundAt: OrderId := 0;
    while keys != {} && found.None?
      invariant keys <= book.orders.Keys
      invariant found.None? ==> forall id :: id in book.orders && id !in keys ==> book.orders[id].deliveryCode != wanted
      invariant found.Some? ==> foundAt in book.orders && book.orders[foundAt] == found.value
      invariant found.Some? ==> found.value.deliveryCode == wanted
      decreases keys
    {
      var id :| id in keys;
      if book.orders[id].deliveryCode == wanted {
        found := Some(book.orders[id]);
        foundAt := id;
      }
      keys := keys - {id};
    }
    assert found == OrderWithCode(book.orders, wanted);
    r := AccessOutcome(found, who, OrderNotFoundWithCode);
  }

  // ---------------------------------------------------------------------------
  // Which GET handler a path reaches
  // ---------------------------------------------------------------------------

  /** A path pattern segment: a literal or a `:param`. */
  datatype Segment = Lit(text: string) | Param

  datatype GetHandler = MyOrders | Details | VendorIncoming | VendorStats | SearchByCode

  datatype Route = Route(pattern: seq<Segment>, handler: GetHandler)

  /** A non-empty path segment matches a parameter; a literal matches itself in any
      letter case, since `express.Router()` routes case-insensitively by default (every
      literal here is ASCII, where the `i` flag of the route's regular expression is
      exactly ASCII case folding). */
  predicate SegmentMatches(s: Segment, part: string) {
    if s.Param? then part != [] else Lower(part) == Lower(s.text)
  }

  predicate PatternMatches(pattern: seq<Segment>, path: seq<string>) {
    |pattern| == |path| && forall i :: 0 <= i < |path| ==> SegmentMatches(pattern[i], path[i])
  }

  /** Express's dispatch: the first registered route whose pattern matches the path. */
  function Dispatch(routes: seq<Route>, path: seq<string>): (r: Option<GetHandler>)
    ensures r.None? <==> forall i :: 0 <= i < |routes| ==> !PatternMatches(routes[i].pattern, path)
    ensures r.Some? ==> exists i :: 0 <= i < |routes| && routes[i].handler == r.value
                                 && PatternMatches(routes[i].pattern, path)
                                 && forall j :: 0 <= j < i ==> !PatternMatches(routes[j].pattern, path)
  {
    if routes == [] then None
    else if PatternMatches(routes[0].pattern, path) then Some(routes[0].handler)
    else
      var r := Dispatch(routes[1..], path);
      assert r.Some? ==> exists i :: 0 < i < |routes| && routes[i].handler == r.value
                                 && PatternMatches(routes[i].pattern, path)
                                 && forall j :: 0 <= j < i ==> !PatternMatches(routes[j].pattern, path) by {
        if r.Some? {
          var i :| 0 <= i < |routes| - 1 && routes[1..][i].handler == r.value
                   && PatternMatches(routes[1..][i].pattern, path)
                   && forall j :: 0 <= j < i ==> !PatternMatches(routes[1..][j].pattern, path);
          assert routes[i + 1] == routes[1..][i];
          forall j | 0 <= j < i + 1 ensures !PatternMatches(routes[j].pattern, path) {
            if j > 0 {
              assert routes[j] == routes[1..][j - 1];
            }
          }
        }
      }
      r
  }

  /** Registering two tables one after the other: the first table answers when it can. */
  lemma {:induction false} DispatchAppend(a: seq<Route>, b: seq<Route>, path: seq<string>)
    ensures Dispatch(a + b, path) == if Dispatch(a, path).Some? then Dispatch(a, path) else Dispatch(b, path)
  {
    if a == [] {
      assert a + b == b;
    } else {
      assert (a + b)[0] == a[0];
      assert (a + b)[1..] == a[1..] + b;
      DispatchAppend(a[1..], b, path);
    }
  }

  /** A table of one route answers exactly when its pattern matches. */
  lemma DispatchSingle(r: Route, path: seq<string>)
    ensures Dispatch([r], path) == if PatternMatches(r.pattern, path) then Some(r.handler) else None
  {
    assert [r][1..] == [];
  }

  /** Two paths whose segments differ only in letter case reach the same handler in
      any table, so `GET /MY-ORDERS` is the student's order list. */
  lemma {:induction false} DispatchIgnoresCase(routes: seq<Route>, p: seq<string>, q: seq<string>)
    requires |p| == |q| && forall i :: 0 <= i < |p| ==> Lower(p[i]) == Lower(q[i])
    ensures Dispatch(routes, p) == Dispatch(routes, q)
  {
    if routes != [] {
      if |routes[0].pattern| == |p| {
        forall i | 0 <= i < |p|
          ensures SegmentMatches(routes[0].pattern[i], p[i]) == SegmentMatches(routes[0].pattern[i], q[i])
        {
          assert |Lower(p[i])| == |Lower(q[i])|;
        }
      }
      assert PatternMatches(routes[0].pattern, p) == PatternMatches(routes[0].pattern, q);
      DispatchIgnoresCase(routes[1..], p, q);
    }
  }

  const MyOrdersRoute: Route := Route([Lit("my-orders")], MyOrders)
  const SearchRoute: Route := Route([Lit("search")], SearchByCode)
  /** `:id` and the two vendor routes, in their registered order. */
  const MiddleRoutes: seq<Route> := [
    Route([Param], Details),
    Route([Lit("vendor"), Lit("incoming")], VendorIncoming),
    Route([Lit("vendor"), Lit("stats")], VendorStats)
  ]

  /** The GET routes of the orders router, in the order they are registered. */
  const WrittenRoutes: seq<Route> := [MyOrdersRoute] + MiddleRoutes + [SearchRoute]

  /** The same routes with the literal `search` registered before `:id`. */
  const IntendedRoutes: seq<Route> := [MyOrdersRoute] + [SearchRoute] + MiddleRoutes

  /** A single segment reading `search` in any letter case. */
  predicate IsSearchPath(path: seq<string>) {
    |path| == 1 && Lower(path[0]) == "search"
  }

  /** The paths the literal `search` route matches: one segment, `search` up to case. */
  lemma SearchPath(path: seq<string>)
    ensures PatternMatches(SearchRoute.pattern, path) <==> IsSearchPath(path)
    ensures PatternMatches(SearchRoute.pattern, ["search"]) && PatternMatches(SearchRoute.pattern, ["SEARCH"])
  {
    assert Lower("search") == "search";
    assert Lower("SEARCH") == "search";
  }

  /** The registered table answers as its three parts do, in order. */
  lemma WrittenSplit(p: seq<string>)
    ensures Dispatch(WrittenRoutes, p)
         == if Dispatch([MyOrdersRoute], p).Some? then Dispatch([MyOrdersRoute], p)
            else if Dispatch(MiddleRoutes, p).Some? then Dispatch(MiddleRoutes, p)
            else Dispatch([SearchRoute], p)
  {
    DispatchAppend([MyOrdersRoute] + MiddleRoutes, [SearchRoute], p);
    DispatchAppend([MyOrdersRoute], MiddleRoutes, p);
  }

  /** The reordered table answers as its three parts do, in order. */
  lemma IntendedSplit(p: seq<string>)
    ensures Dispatch(IntendedRoutes, p)
         == if Dispatch([MyOrdersRoute], p).Some? then Dispatch([MyOrdersRoute], p)
            else if Dispatch([SearchRoute], p).Some? then Dispatch([SearchRoute], p)
            else Dispatch(MiddleRoutes, p)
  {
    DispatchAppend([MyOrdersRoute] + [SearchRoute], MiddleRoutes, p);
    DispatchAppend([MyOrdersRoute], [SearchRoute], p);
  }

  /** A `search` path in any letter case is not the order list. */
  lemma SearchIsNotMyOrders(path: seq<string>)
    requires IsSearchPath(path)
    ensures Dispatch([MyOrdersRoute], path) == None
  {
    DispatchSingle(MyOrdersRoute, path);
    assert |Lower(path[0])| != |Lower("my-orders")|;
  }

  /** As registered, a `search` path in any letter case reaches the detail handler. */
  lemma SearchPathToDetails(path: seq<string>)
    requires IsSearchPath(path)
    ensures Dispatch(WrittenRoutes, path) == Some(Details)
  {
    WrittenSplit(path);
    SearchIsNotMyOrders(path);
    assert PatternMatches(MiddleRoutes[0].pattern, path);
  }

  /** As registered, `GET /search` is taken by the `:id` route, so the delivery-code
      lookup is never reached (the detail handler then fails to read "search" as an id). */
  lemma SearchShadowed(path: seq<string>)
    ensures Dispatch(WrittenRoutes, ["search"]) == Some(Details)
    ensures Dispatch(WrittenRoutes, path) != Some(SearchByCode)
  {
    SearchPath(["search"]);
    SearchPathToDetails(["search"]);
    if IsSearchPath(path) {
      SearchPathToDetails(path);
    } else {
      WrittenSplit(path);
      DispatchSingle(MyOrdersRoute, path);
      DispatchSingle(SearchRoute, path);
      SearchPath(path);
    }
  }

  /** With `search` registered first, the lookup is reachable and every other path
      reaches the same handler as before. */
  lemma SearchReachable(path: seq<string>)
    ensures IsSearchPath(path) ==> Dispatch(IntendedRoutes, path) == Some(SearchByCode)
    ensures !IsSearchPath(path) ==> Dispatch(IntendedRoutes, path) == Dispatch(WrittenRoutes, path)
  {
    WrittenSplit(path);
    IntendedSplit(path);
    DispatchSingle(SearchRoute, path);
    SearchPath(path);
    if IsSearchPath(path) {
      SearchIsNotMyOrders(path);
    }
  }
}
