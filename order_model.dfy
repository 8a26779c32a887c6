/** The Order document (src/models/Order.ts) and every status value the
    route handlers write into it. */
module OrderModel {
  import opened Common

  /** Every status a handler can store. The schema enum only names the first
      five; `accepted`, `rejected`, `assigned` and `picked-up` are written by the
      handlers anyway, and `orders/update-status` stores any text (`Other`), or
      removes the path when the request carries no status (`Unset`). */
  datatype OrderStatus =
    | Pending | Preparing | OutForDelivery | Delivered | Cancelled
    | Accepted | Rejected | Assigned | PickedUp
    | Other(text: string)
    | Unset

  function StatusText(s: OrderStatus): string {
    match s
    case Pending => "pending"
    case Preparing => "preparing"
    case OutForDelivery => "out-for-delivery"
    case Delivered => "delivered"
    case Cancelled => "cancelled"
    case Accepted => "accepted"
    case Rejected => "rejected"
    case Assigned => "assigned"
    case PickedUp => "picked-up"
    case Other(t) => t
    case Unset => ""
  }

  /** The status a text denotes; texts that name no known status stay `Other`. */
  function ParseStatus(t: string): (s: OrderStatus)
    ensures StatusText(s) == t
    ensures s != Unset
  {
    if t == "pending" then Pending
    else if t == "preparing" then Preparing
    else if t == "out-for-delivery" then OutForDelivery
    else if t == "delivered" then Delivered
    else if t == "cancelled" then Cancelled
    else if t == "accepted" then Accepted
    else if t == "rejected" then Rejected
    else if t == "assigned" then Assigned
    else if t == "picked-up" then PickedUp
    else Other(t)
  }

  /** `Other` is only used for texts that name no known status; `Unset` has no
      text of its own (a route reading it falls back as on the empty text). */
  predicate Canonical(s: OrderStatus) {
    && s != Unset
    && (s.Other? ==> s.text !in {"pending", "preparing", "out-for-delivery", "delivered", "cancelled",
                                 "accepted", "rejected", "assigned", "picked-up"})
  }

  /** Statuses and their texts are in one-to-one correspondence. */
  lemma StatusTextRoundTrip(s: OrderStatus, t: string)
    ensures Canonical(s) ==> ParseStatus(StatusText(s)) == s
    ensures Canonical(ParseStatus(t))
  {
  }

  /** The `enum` of the `status` path: only these five pass Mongoose validation,
      besides an absent value, which the enum validator does not inspect. */
  predicate SchemaStatus(s: OrderStatus) {
    s.Pending? || s.Preparing? || s.OutForDelivery? || s.Delivered? || s.Cancelled? || s.Unset?
  }

  /** `order.status = status` with the request's `status`: a text is stored as the
      status it names, and `undefined` removes the path. */
  function StoredStatus(status: Option<string>): (s: OrderStatus)
    ensures s == Unset <==> status.None?
    ensures status.Some? ==> StatusText(s) == status.value && Canonical(s)
  {
    match status
    case None => Unset
    case Some(t) => ParseStatus(t)
  }

  /** The schema default of `status`. */
  const DefaultStatus: OrderStatus := Pending

  /** The schema default of `items.quantity`. */
  function ItemQuantity(quantity: Option<int>): (q: int)
    ensures quantity.None? ==> q == 1
    ensures quantity.Some? ==> q == quantity.value
  {
    quantity.GetOr(1)
  }

  /** The statuses the accept/reject, assignment and delivery handlers write are all
      outside the schema enum; only `cancelled` (and `pending` on creation) are in it. */
  lemma HandlerStatusesOutsideSchema()
    ensures !SchemaStatus(Accepted) && !SchemaStatus(Rejected)
    ensures !SchemaStatus(Assigned) && !SchemaStatus(PickedUp)
    ensures SchemaStatus(Cancelled) && SchemaStatus(DefaultStatus)
  {
  }

  /** An embedded order line. `menuName` is written by `orders/create` although the
      schema declares no such path. */
  datatype OrderItem = OrderItem(
    menuId: Id,
    menuName: Option<string>,
    quantity: int,
    instructions: string,
    addons: seq<string>)

  /** An order document. `assignedTo` and `cancelledBy` are written by handlers
      although the schema declares neither path. */
  datatype Order = Order(
    user: Id,
    items: seq<OrderItem>,
    status: OrderStatus,
    totalPrice: int,
    assignedTo: Option<Id>,
    cancelledBy: Option<string>,
    createdAt: Instant)

  /** The paths the schema declares (`timestamps` adds createdAt and updatedAt). */
  const DeclaredPaths: set<string> :=
    {"user", "items.menuId", "items.quantity", "items.instructions", "items.addons",
     "status", "totalPrice", "createdAt", "updatedAt"}

  /** The paths some handler writes that the schema does not declare. */
  lemma UndeclaredWrittenPaths()
    ensures "assignedTo" !in DeclaredPaths
    ensures "cancelledBy" !in DeclaredPaths
    ensures "items.menuName" !in DeclaredPaths
    ensures "user" in DeclaredPaths && "totalPrice" in DeclaredPaths && "items.menuId" in DeclaredPaths
  {
  }
}
