/** The order document: its status and payment enums with their defaults, the bounds the
    schema puts on lines, total, estimate and notes, the delivery code assigned on first
    save, and the order collection with its unique delivery-code index. */
module OrderSchema {
  import opened Common

  datatype Status = Pending | Confirmed | Preparing | Ready | Completed | Cancelled

  function StatusName(s: Status): string {
    match s
    case Pending => "pending"
    case Confirmed => "confirmed"
    case Preparing => "preparing"
    case Ready => "ready"
    case Completed => "completed"
    case Cancelled => "cancelled"
  }

  /** The status enum check. */
  function ParseStatus(s: string): (r: Option<Status>)
    ensures r.Some? ==> StatusName(r.value) == s
  {
    if s == "pending" then Some(Pending)
    else if s == "confirmed" then Some(Confirmed)
    else if s == "preparing" then Some(Preparing)
    else if s == "ready" then Some(Ready)
    else if s == "completed" then Some(Completed)
    else if s == "cancelled" then Some(Cancelled)
    else None
  }

  /** Each status is accepted under its own name and under no other. */
  lemma StatusRoundTrip(st: Status, s: string)
    ensures ParseStatus(StatusName(st)) == Some(st)
    ensures ParseStatus(s) == Some(st) <==> s == StatusName(st)
  {
  }

  datatype PaymentStatus = PaymentPending | Paid | Failed | Refunded

  function PaymentStatusName(p: PaymentStatus): string {
    match p
    case PaymentPending => "pending"
    case Paid => "paid"
    case Failed => "failed"
    case Refunded => "refunded"
  }

  /** The payment status enum check. */
  function ParsePaymentStatus(s: string): (r: Option<PaymentStatus>)
    ensures r.Some? ==> PaymentStatusName(r.value) == s
  {
    if s == "pending" then Some(PaymentPending)
    else if s == "paid" then Some(Paid)
    else if s == "failed" then Some(Failed)
    else if s == "refunded" then Some(Refunded)
    else None
  }

  lemma PaymentStatusRoundTrip(p: PaymentStatus, s: string)
    ensures ParsePaymentStatus(PaymentStatusName(p)) == Some(p)
    ensures ParsePaymentStatus(s) == Some(p) <==> s == PaymentStatusName(p)
  {
  }

  const MinItemQuantity: int := 1
  const MaxItemQuantity: int := 50
  const MinTotalAmount: int := 1
  const MinEstimatedTime: int := 5
  const MaxEstimatedTime: int := 120
  const DefaultEstimatedTime: int := 30
  const MaxNotesLength: int := 500

  /** An order line: the menu item, its name and price at ordering time, the quantity and
      the student's instructions. */
  datatype OrderLine = OrderLine(
    menuItemId: ItemId,
    name: string,
    price: int,
    quantity: int,
    specialInstructions: string)

  /** An order document. `completedAt` is `actualCompletionTime`. */
  datatype Order = Order(
    studentId: UserId,
    vendorId: UserId,
    items: seq<OrderLine>,
    subtotal: int,
    tax: int,
    deliveryFee: int,
    totalAmount: int,
    status: Status,
    paymentStatus: PaymentStatus,
    estimatedTime: int,
    notes: string,
    deliveryCode: string,
    cancelReason: string,
    completedAt: Option<Time>)

  /** An order line's paths: a name is required, the quantity is 1..50 and the price is
      not negative (the item id is always present in this model). */
  predicate OrderLineValid(l: OrderLine) {
    |l.name| > 0 && MinItemQuantity <= l.quantity <= MaxItemQuantity && l.price >= 0
  }

  /** The order schema: valid lines, a total of at least 1, an estimate of 5..120
      minutes and notes of at most 500 characters. */
  predicate SchemaValid(o: Order) {
    && (forall i :: 0 <= i < |o.items| ==> OrderLineValid(o.items[i]))
    && o.totalAmount >= MinTotalAmount
    && MinEstimatedTime <= o.estimatedTime <= MaxEstimatedTime
    && |o.notes| <= MaxNotesLength
  }

  /** `new Order({...})`: status and payment status start pending, the estimate defaults
      to 30 minutes, and no delivery code, cancel reason or completion time is set yet. */
  function NewOrder(studentId: UserId, vendorId: UserId, items: seq<OrderLine>, subtotal: int,
                    tax: int, deliveryFee: int, totalAmount: int, notes: string,
                    estimatedTime: Option<int>): (o: Order)
    ensures o.status == Pending && o.paymentStatus == PaymentPending
    ensures o.estimatedTime == (if estimatedTime.Some? then estimatedTime.value else DefaultEstimatedTime)
    ensures o.deliveryCode == [] && o.cancelReason == [] && o.completedAt.None?
    ensures o.items == items && o.studentId == studentId && o.vendorId == vendorId
    ensures o.subtotal == subtotal && o.tax == tax && o.deliveryFee == deliveryFee
    ensures o.totalAmount == totalAmount && o.notes == notes
  {
    Order(studentId, vendorId, items, subtotal, tax, deliveryFee, totalAmount, Pending,
          PaymentPending, estimatedTime.GetOr(DefaultEstimatedTime), notes, [], [], None)
  }

  /** The pre-save hook: a new order without a code gets the generated one, upper-cased;
      an order that already has a code, or that is not new, keeps it. */
  function AssignCode(o: Order, isNew: bool, generated: string): (r: Order)
    ensures r == o.(deliveryCode := r.deliveryCode)
    ensures isNew && o.deliveryCode == [] ==> r.deliveryCode == Upper(generated)
    ensures !(isNew && o.deliveryCode == []) ==> r.deliveryCode == o.deliveryCode
  {
    if isNew && o.deliveryCode == [] then o.(deliveryCode := Upper(generated)) else o
  }

  /** No two stored orders share a delivery code (the unique index). */
  predicate CodesUnique(orders: map<OrderId, Order>) {
    forall a, b :: a in orders && b in orders && a != b ==> orders[a].deliveryCode != orders[b].deliveryCode
  }

  predicate CodeInUse(orders: map<OrderId, Order>, code: string) {
    exists id :: id in orders && orders[id].deliveryCode == code
  }

  /** What the first `save()` of a new order does: the schema check, then the pre-save
      hook, then the unique index. The answer is the stored document or 500. */
  function InsertOutcome(orders: map<OrderId, Order>, o: Order, generated: string): (r: Response<Order>)
    ensures r.Ok? <==> SchemaValid(o) && !CodeInUse(orders, AssignCode(o, true, generated).deliveryCode)
    ensures r.Ok? ==> r.value == AssignCode(o, true, generated) && SchemaValid(r.value)
    ensures r.Err? ==> r.status == InternalError
  {
    if !SchemaValid(o) then Fail(InternalError, OrderRejected)
    else
      var stored := AssignCode(o, true, generated);
      if CodeInUse(orders, stored.deliveryCode) then Fail(InternalError, DuplicateDeliveryCode)
      else Ok(stored)
  }

  /** The order collection. */
  class OrderBook {
    var orders: map<OrderId, Order>

    /** Every stored order satisfies the schema and the delivery codes are unique. */
    ghost predicate Valid()
      reads this
    {
      (forall id :: id in orders ==> SchemaValid(orders[id])) && CodesUnique(orders)
    }

    constructor ()
      ensures Valid() && orders == map[]
    {
      orders := map[];
    }

    /** First save of a new order under a fresh id: either the order, with its delivery
        code, is stored and nothing else changes, or the save fails with 500 and the
        collection is unchanged. */
    method Insert(id: OrderId, o: Order, generated: string) returns (r: Response<Order>)
      requires Valid() && id !in orders
      modifies this
      ensures Valid()
      ensures r == InsertOutcome(old(orders), o, generated)
      ensures r.Ok? ==> orders == old(orders)[id := r.value]
      ensures r.Err? ==> orders == old(orders)
    {
      r := InsertOutcome(orders, o, generated);
      if r.Ok? {
        orders := orders[id := r.value];
      }
    }

    /** Save of an existing order whose delivery code is unchanged: either the new
        document replaces the old one, or the schema refuses it with 500 and the
        collection is unchanged. */
    method Save(id: OrderId, o: Order) returns (r: Response<Order>)
      requires Valid() && id in orders && o.deliveryCode == orders[id].deliveryCode
      modifies this
      ensures Valid()
      ensures r.Ok? <==> SchemaValid(o)
      ensures r.Ok? ==> r.value == o && orders == old(orders)[id := o]
      ensures r.Err? ==> r.status == InternalError && orders == old(orders)
    {
      if SchemaValid(o) {
        orders := orders[id := o];
        r := Ok(o);
      } else {
        r := Fail(InternalError, OrderRejected);
      }
    }
  }
}
