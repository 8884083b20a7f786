/** The Order document of server/models/orders.js: the stored record, the
    draft a controller hands to `new Order({...})`, and the casting, defaults
    and validators that `save()` applies to turn one into the other. */
module OrderModel {
  import opened Domain

  datatype Fulfillment = Pickup | Delivery
  datatype PickupType = DineIn | Takeaway
  datatype OrderStatus = Pending | Completed | Cancelled

  datatype OrderLine = OrderLine(product: Id, quantity: int, note: string)

  datatype Order = Order(
    user: Id,
    customerName: Option<string>,
    customerPhone: Option<string>,
    fulfillment: Option<Fulfillment>,
    pickupType: Option<PickupType>,
    region: Option<string>,
    deliveryAddress: Option<string>,
    notes: string,
    items: seq<OrderLine>,
    total: int,
    status: OrderStatus)

  /** A line as passed to the constructor: any field may be missing. */
  datatype LineDraft = LineDraft(product: Option<Id>, quantity: Option<int>, note: Option<string>)

  /** The object literal passed to `new Order(...)`: enum fields are still strings. */
  datatype OrderDraft = OrderDraft(
    user: Option<Id>,
    customerName: Option<string>,
    customerPhone: Option<string>,
    fulfillment: Option<string>,
    pickupType: Option<string>,
    region: Option<string>,
    deliveryAddress: Option<string>,
    notes: Option<string>,
    items: seq<LineDraft>,
    total: Option<int>,
    status: Option<string>)

  /** What the line validators guarantee of every stored order: each line has
      quantity at least 1. */
  predicate Conforms(o: Order)
  {
    forall i :: 0 <= i < |o.items| ==> o.items[i].quantity >= 1
  }

  function ParseFulfillment(s: string): Option<Fulfillment>
  {
    if s == "pickup" then Some(Pickup)
    else if s == "delivery" then Some(Delivery)
    else None
  }

  function ParsePickupType(s: string): Option<PickupType>
  {
    if s == "dine-in" then Some(DineIn)
    else if s == "takeaway" then Some(Takeaway)
    else None
  }

  function ParseStatus(s: string): Option<OrderStatus>
  {
    if s == "pending" then Some(Pending)
    else if s == "completed" then Some(Completed)
    else if s == "cancelled" then Some(Cancelled)
    else None
  }

  function StatusName(st: OrderStatus): string
  {
    match st
    case Pending => "pending"
    case Completed => "completed"
    case Cancelled => "cancelled"
  }

  /** Naming a status and parsing the name back gives the status. */
  lemma StatusRoundTrip(st: OrderStatus)
    ensures ParseStatus(StatusName(st)) == Some(st)
  {
  }

  predicate LineAccepted(l: LineDraft)
  {
    l.product.Some? && l.quantity.Some? && l.quantity.value >= 1
  }

  function BuildLine(l: LineDraft): OrderLine
    requires LineAccepted(l)
  {
    OrderLine(l.product.value, l.quantity.value, if l.note.Some? then l.note.value else "")
  }

  function BuildLines(ls: seq<LineDraft>): (r: seq<OrderLine>)
    requires forall i :: 0 <= i < |ls| ==> LineAccepted(ls[i])
    ensures |r| == |ls|
    ensures forall i :: 0 <= i < |ls| ==> r[i] == BuildLine(ls[i])
  {
    if ls == [] then [] else [BuildLine(ls[0])] + BuildLines(ls[1..])
  }

  /** The draft passes the schema's required, min and enum validators. */
  predicate Accepted(d: OrderDraft)
  {
    && d.user.Some?
    && d.total.Some?
    && (forall i :: 0 <= i < |d.items| ==> LineAccepted(d.items[i]))
    && (d.fulfillment.Some? ==> ParseFulfillment(d.fulfillment.value).Some?)
    && (d.pickupType.Some? ==> ParsePickupType(d.pickupType.value).Some?)
    && (d.status.Some? ==> ParseStatus(d.status.value).Some?)
  }

  function ParsedOr<T>(o: Option<string>, parse: string -> Option<T>): Option<T>
  {
    if o.Some? then parse(o.value) else None
  }

  /** `new Order(d).save()` as far as the schema decides it: `None` when a
      validator rejects the draft, otherwise the document with defaults filled in. */
  function Build(d: OrderDraft): (r: Option<Order>)
    ensures r.Some? <==> Accepted(d)
    ensures r.Some? ==> Conforms(r.value)
    ensures r.Some? ==> r.value.user == d.user.value && r.value.total == d.total.value
    ensures r.Some? ==> |r.value.items| == |d.items|
    ensures r.Some? ==> forall i :: 0 <= i < |d.items| ==>
      r.value.items[i].product == d.items[i].product.value &&
      r.value.items[i].quantity == d.items[i].quantity.value
  {
    if !Accepted(d) then None
    else
      Some(Order(
        d.user.value,
        d.customerName,
        d.customerPhone,
        ParsedOr(d.fulfillment, ParseFulfillment),
        ParsedOr(d.pickupType, ParsePickupType),
        d.region,
        d.deliveryAddress,
        if d.notes.Some? then d.notes.value else "",
        BuildLines(d.items),
        d.total.value,
        if d.status.Some? then ParseStatus(d.status.value).value else Pending))
  }

  /** Defaults: missing notes and line notes become "", a missing status becomes
      pending, and pickup type, region and delivery address stay null. */
  lemma BuildDefaults(d: OrderDraft)
    requires Accepted(d)
    ensures var o := Build(d).value;
      && (d.notes.None? ==> o.notes == "")
      && (d.status.None? ==> o.status == Pending)
      && (d.pickupType.None? ==> o.pickupType.None?)
      && (d.region.None? ==> o.region.None?)
      && (d.deliveryAddress.None? ==> o.deliveryAddress.None?)
      && (forall i :: 0 <= i < |d.items| && d.items[i].note.None? ==> o.items[i].note == "")
  {
  }

  /** A draft line with a quantity below 1, or without a product, makes the
      whole save fail. */
  lemma BuildRejectsBadLine(d: OrderDraft, i: int)
    requires 0 <= i < |d.items|
    requires d.items[i].product.None? || (d.items[i].quantity.Some? && d.items[i].quantity.value < 1)
    ensures Build(d).None?
  {
  }

  /** A status outside pending/completed/cancelled makes the save fail; a
      valid status name is stored as that status. */
  lemma BuildStatus(d: OrderDraft, s: string)
    requires d.status == Some(s)
    ensures ParseStatus(s).None? ==> Build(d).None?
    ensures Build(d).Some? ==> StatusName(Build(d).value.status) == s
  {
  }
}
