/** The guard chains and payload shaping of the order and delivery handlers
    (the order handlers under src/app/api/orders, and src/app/api/delivery/assign and
    .../update-status): everything they decide before their first write. */
module OrderRules {
  import opened Common
  import opened UserModel
  import opened MenuModel
  import opened OrderModel
  import opened AssignmentModel
  import opened NotificationModel
  import opened Http
  import opened Db
  import opened Lifecycle

  // ---------------------------------------------------------------------------
  // POST /api/orders/create

  /** An item of the request body; every field may be missing. */
  datatype ItemInput = ItemInput(
    menuId: Option<Id>, quantity: Option<int>, instructions: Option<string>, addons: Option<seq<string>>)

  /** The stored form of an item whose menu exists. */
  function EnrichedItem(item: ItemInput, menu: Menu): (o: OrderItem)
    requires item.menuId.Some?
    ensures o.menuId == item.menuId.value && o.menuName == menu.name
    ensures o.quantity == ItemQuantity(item.quantity)
    ensures o.instructions == item.instructions.GetOr("") && o.addons == item.addons.GetOr([])
  {
    OrderItem(item.menuId.value, menu.name, item.quantity.GetOr(1), item.instructions.GetOr(""), item.addons.GetOr([]))
  }

  /** The menu lookups: every item must name an existing menu, otherwise the
      whole request throws. */
  function Enrich(menus: map<Id, Menu>, items: seq<ItemInput>): (r: Option<seq<OrderItem>>)
    ensures r.Some? <==> forall i :: 0 <= i < |items| ==> items[i].menuId.Some? && items[i].menuId.value in menus
    ensures r.Some? ==>
      && |r.value| == |items|
      && forall i :: 0 <= i < |items| ==> r.value[i] == EnrichedItem(items[i], menus[items[i].menuId.value])
  {
    if items == [] then Some([])
    else if items[0].menuId.None? || items[0].menuId.value !in menus then None
    else
      var rest := Enrich(menus, items[1..]);
      if rest.None? then None
      else Some([EnrichedItem(items[0], menus[items[0].menuId.value])] + rest.value)
  }

  datatype NewOrder = NewOrder(customer: Claim, items: seq<OrderItem>, totalPrice: int)

  function CreateOrderGate(db: Db, header: Option<string>, items: Option<seq<ItemInput>>, totalPrice: Option<int>): Gate<NewOrder> {
    var c := Caller(header, db.verifier, Error(500, "Server error while placing order"));
    if c.Refuse? then Refuse(c.why)
    else if c.payload.role != Customer then Refuse(Error(403, "Access denied: only users can place orders"))
    else if items.None? || items.value == [] then Refuse(Error(400, "Order must contain at least one item"))
    else if totalPrice.None? || totalPrice.value == 0 then Refuse(Error(400, "Invalid total price"))
    else
      var enriched := Enrich(db.menus, items.value);
      if enriched.None? then Refuse(Error(500, "Server error while placing order"))
      else Pass(NewOrder(c.payload, enriched.value, totalPrice.value))
  }

  /** The guard chain of order creation, refusal by refusal. */
  lemma CreateOrderRefusals(db: Db, header: Option<string>, items: Option<seq<ItemInput>>, totalPrice: Option<int>)
    ensures var g := CreateOrderGate(db, header, items, totalPrice);
      && (!Truthy(header) ==> g == Refuse(Error(401, "Unauthorized")))
      && ((Authenticate(header, db.verifier).Verified? && Authenticate(header, db.verifier).claim.role != Customer)
            ==> g == Refuse(Error(403, "Access denied: only users can place orders")))
  {
  }

  /** An order goes ahead exactly when a customer sends a non-empty item list, a
      non-zero total and only ids of existing menus; it is placed for that customer
      with the total as sent and one stored item per item sent. */
  lemma CreateOrderAccepts(db: Db, header: Option<string>, items: Option<seq<ItemInput>>, totalPrice: Option<int>)
    ensures var g := CreateOrderGate(db, header, items, totalPrice);
      && (g.Pass? <==>
            Authenticate(header, db.verifier).Verified? && Authenticate(header, db.verifier).claim.role == Customer
            && items.Some? && items.value != [] && totalPrice.Some? && totalPrice.value != 0
            && forall i :: 0 <= i < |items.value| ==> items.value[i].menuId.Some? && items.value[i].menuId.value in db.menus)
      && (g.Pass? ==> g.payload.customer == Authenticate(header, db.verifier).claim
                      && g.payload.totalPrice == totalPrice.value && |g.payload.items| == |items.value|)
  {
    var c := Caller(header, db.verifier, Error(500, "Server error while placing order"));
    if c.Pass? && c.payload.role == Customer && items.Some? && items.value != [] && totalPrice.Some? && totalPrice.value != 0 {
      var enriched := Enrich(db.menus, items.value);
      assert CreateOrderGate(db, header, items, totalPrice)
        == if enriched.None? then Refuse(Error(500, "Server error while placing order"))
           else Pass(NewOrder(c.payload, enriched.value, totalPrice.value));
    }
  }

  /** The order `orders/create` inserts: pending, unassigned, with the client's
      total taken as is. */
  function PlacedOrder(o: NewOrder, now: Instant): (r: Order)
    ensures r.status == DefaultStatus && r.user == o.customer.id && r.totalPrice == o.totalPrice
    ensures r.items == o.items && r.assignedTo.None? && r.cancelledBy.None?
  {
    Order(o.customer.id, o.items, Pending, o.totalPrice, None, None, now)
  }

  function PlacedNote(customer: Id): Notification {
    NewNotification(customer, "Order Placed Successfully", "Your order has been placed and is pending approval.", "order")
  }

  function AdminNote(admin: Id, email: string): Notification {
    NewNotification(admin, "New Order Received", "A new order has been placed by " + email + ".", "order")
  }

  /** The loop over `User.find({ role: 'admin' })`: one "New Order Received"
      note per admin, created one after the other. */
  function NotifyAdmins(db: Db, admins: seq<Id>, email: string): Db {
    if admins == [] then db
    else WithNote(NotifyAdmins(db, admins[..|admins| - 1], email), AdminNote(admins[|admins| - 1], email))
  }

  /** The admin notes are added at consecutive fresh ids, in the admins' order;
      nothing else is written. */
  lemma {:induction false} NotifyAdminsAdds(db: Db, admins: seq<Id>, email: string)
    requires Below(db.notifications, db.nextId)
    ensures var d := NotifyAdmins(db, admins, email);
      && d == db.(notifications := d.notifications, nextId := db.nextId + |admins|)
      && (forall k :: k in d.notifications <==> k in db.notifications || db.nextId <= k < db.nextId + |admins|)
      && (forall k :: k in db.notifications ==> d.notifications[k] == db.notifications[k])
      && (forall i :: 0 <= i < |admins| ==> d.notifications[db.nextId + i] == AdminNote(admins[i], email))
  {
    if admins != [] {
      var init := admins[..|admins| - 1];
      NotifyAdminsAdds(db, init, email);
      var d := NotifyAdmins(db, admins, email);
      forall i | 0 <= i < |admins| ensures d.notifications[db.nextId + i] == AdminNote(admins[i], email) {
        if i < |admins| - 1 {
          assert init[i] == admins[i];
        }
      }
    }
  }

  lemma {:induction false} NotifyAdminsConsistent(db: Db, admins: seq<Id>, email: string)
    requires Consistent(db)
    ensures Consistent(NotifyAdmins(db, admins, email))
  {
    if admins != [] {
      NotifyAdminsConsistent(db, admins[..|admins| - 1], email);
      NoteKeepsConsistent(NotifyAdmins(db, admins[..|admins| - 1], email), AdminNote(admins[|admins| - 1], email));
    }
  }

  // ---------------------------------------------------------------------------
  // PATCH /api/orders/admin-status

  /** `['accepted', 'rejected'].includes(status)`. */
  function Decision(status: Option<string>): (r: Option<OrderStatus>)
    ensures r.Some? <==> status == Some("accepted") || status == Some("rejected")
    ensures r.Some? ==> StatusText(r.value) == status.value && (r.value == Accepted || r.value == Rejected)
  {
    if status == Some("accepted") then Some(Accepted)
    else if status == Some("rejected") then Some(Rejected)
    else None
  }

  function AdminStatusGate(db: Db, header: Option<string>, orderId: Option<Id>, status: Option<string>): Gate<(Id, OrderStatus)> {
    var c := Caller(header, db.verifier, Error(500, "Server error"));
    if c.Refuse? then Refuse(c.why)
    else if c.payload.role != Admin then Refuse(Error(403, "Forbidden"))
    else if orderId.None? || orderId.value !in db.orders then Refuse(Error(404, "Order not found"))
    else if Decision(status).None? then Refuse(Error(400, "Invalid status"))
    else Pass((orderId.value, Decision(status).value))
  }

  /** The order lookup precedes status validation: a missing order is reported
      as 404 whatever the status; the prior status of the order is never consulted. */
  lemma AdminStatusLookupFirst(db: Db, header: Option<string>, orderId: Option<Id>, status: Option<string>)
    requires Authenticate(header, db.verifier).Verified? && Authenticate(header, db.verifier).claim.role == Admin
    ensures (orderId.None? || orderId.value !in db.orders)
      ==> AdminStatusGate(db, header, orderId, status) == Refuse(Error(404, "Order not found"))
    ensures orderId.Some? && orderId.value in db.orders && Decision(status).None?
      ==> AdminStatusGate(db, header, orderId, status) == Refuse(Error(400, "Invalid status"))
    ensures orderId.Some? && orderId.value in db.orders && Decision(status).Some?
      ==> AdminStatusGate(db, header, orderId, status) == Pass((orderId.value, Decision(status).value))
  {
  }

  function DecisionNote(owner: Id, s: OrderStatus): Notification {
    if s == Accepted then
      NewNotification(owner, "Order Accepted", "Your order has been accepted and will be assigned shortly.", "order")
    else
      NewNotification(owner, "Order Rejected", "Your order was rejected by admin.", "order")
  }

  // ---------------------------------------------------------------------------
  // PATCH /api/orders/update-status

  function UpdateStatusGate(db: Db, header: Option<string>, orderId: Option<Id>): Gate<Id> {
    var c := Caller(header, db.verifier, Error(500, "Server error"));
    if c.Refuse? then Refuse(c.why)
    else if c.payload.role != Admin then Refuse(Error(403, "Forbidden"))
    else if orderId.None? || orderId.value !in db.orders then Refuse(Error(404, "Order not found"))
    else Pass(orderId.value)
  }

  // ---------------------------------------------------------------------------
  // PATCH /api/orders/assign-delivery

  function AssignDeliveryGate(db: Db, header: Option<string>, orderId: Option<Id>, deliveryBoyId: Option<Id>): Gate<(Id, Id)> {
    var c := Caller(header, db.verifier, Error(500, "Server error"));
    if c.Refuse? then Refuse(c.why)
    else if c.payload.role != Admin then Refuse(Error(403, "Forbidden"))
    else if orderId.None? || deliveryBoyId.None? then Refuse(Error(400, "Missing orderId or deliveryBoyId"))
    else if orderId.value !in db.orders then Refuse(Error(404, "Order not found"))
    else Pass((orderId.value, deliveryBoyId.value))
  }

  /** `String(id).slice(-5)`, the short order number shown to users. */
  function ShortNumber(order: Id): string {
    LastChars(IdText(order), 5)
  }

  function CourierNote(deliveryBoy: Id, order: Id): Notification {
    NewNotification(deliveryBoy, "New Delivery Assigned \U{1F69A}",
      "You have been assigned to deliver order #" + ShortNumber(order) + ".", "order")
  }

  function OnTheWayNote(owner: Id): Notification {
    NewNotification(owner, "Order Out for Delivery \U{1F680}", "Your order has been assigned to a delivery partner.", "order")
  }

  // ---------------------------------------------------------------------------
  // PATCH /api/orders/cancel

  function CancelGate(db: Db, header: Option<string>, orderId: Option<Id>): Gate<(Claim, Id)> {
    var c := Caller(header, db.verifier, Error(500, "Server error"));
    if c.Refuse? then Refuse(c.why)
    else if orderId.None? then Refuse(Error(400, "Order ID is required"))
    else if orderId.value !in db.orders then Refuse(Error(404, "Order not found"))
    else if db.orders[orderId.value].user != c.payload.id then Refuse(Error(403, "Unauthorized: Not your order"))
    else if db.orders[orderId.value].status == Accepted || db.orders[orderId.value].status == Rejected then
      Refuse(Error(400, "You can only cancel orders that are pending"))
    else Pass((c.payload, orderId.value))
  }

  /** Ownership alone authorises a cancellation, whatever the caller's role, and
      only accepted and rejected orders are protected. */
  lemma CancelAuthorisation(db: Db, header: Option<string>, orderId: Option<Id>)
    ensures var g := CancelGate(db, header, orderId);
      g.Pass? <==>
        Authenticate(header, db.verifier).Verified? && orderId.Some? && orderId.value in db.orders
        && db.orders[orderId.value].user == Authenticate(header, db.verifier).claim.id
        && db.orders[orderId.value].status != Accepted && db.orders[orderId.value].status != Rejected
  {
  }

  function CancelledNote(owner: Id, order: Id): Notification {
    NewNotification(owner, "Order Cancelled",
      "Your order #" + ShortNumber(order) + " has been cancelled successfully.", "order")
  }

  /** Addressed to the owner as well, although titled for the admins. */
  function CancelledByCustomerNote(owner: Id, email: string, order: Id): Notification {
    NewNotification(owner, "Order Cancelled by Customer",
      "Customer (" + email + ") cancelled order #" + ShortNumber(order) + ".", "order")
  }

  // ---------------------------------------------------------------------------
  // POST /api/delivery/assign

  function DeliveryAssignGate(db: Db, header: Option<string>, orderId: Option<Id>, deliveryBoyId: Option<Id>): Gate<(Id, Id)> {
    var c := Caller(header, db.verifier, Error(500, "Server error"));
    if c.Refuse? then Refuse(c.why)
    else if c.payload.role != Admin then Refuse(Error(403, "Only admins can assign orders"))
    else if orderId.None? || deliveryBoyId.None? then Refuse(Error(400, "Missing fields"))
    else if AssignmentOf(db.assignments, db.nextId, orderId.value).Some? then Refuse(Error(400, "Order already assigned"))
    else Pass((orderId.value, deliveryBoyId.value))
  }

  /** The order itself is never looked up: an assignment for an order that does
      not exist passes the guard. */
  lemma DeliveryAssignIgnoresOrder(db: Db, header: Option<string>, orderId: Option<Id>, deliveryBoyId: Option<Id>)
    requires Authenticate(header, db.verifier).Verified? && Authenticate(header, db.verifier).claim.role == Admin
    requires orderId.Some? && deliveryBoyId.Some?
    ensures DeliveryAssignGate(db, header, orderId, deliveryBoyId).Pass?
      <==> forall k :: k in db.assignments && k < db.nextId ==> db.assignments[k].order != orderId.value
  {
  }

  function DeliveryAssignedNote(deliveryBoy: Id, order: Id): Notification {
    NewNotification(deliveryBoy, "New Delivery Assigned",
      "You\U{2019}ve been assigned to deliver Order #" + LastChars(IdText(order), 6), "delivery")
  }

  // ---------------------------------------------------------------------------
  // PATCH /api/delivery/update-status

  function DeliveryUpdateGate(db: Db, header: Option<string>, assignmentId: Option<Id>, status: Option<string>): Gate<(Id, AssignmentStatus)> {
    var c := Caller(header, db.verifier, Error(500, "Server error"));
    if c.Refuse? then Refuse(c.why)
    else if c.payload.role != Delivery then Refuse(Error(403, "Access denied"))
    else if assignmentId.None? || DeliveryUpdateStatus(status).None? then Refuse(Error(400, "Invalid request data"))
    else if assignmentId.value !in db.assignments then Refuse(Error(404, "Assignment not found"))
    else if db.assignments[assignmentId.value].deliveryBoy != c.payload.id then Refuse(Error(403, "Unauthorized access"))
    else Pass((assignmentId.value, DeliveryUpdateStatus(status).value))
  }

  /** Only the assignee of an existing assignment gets past the guard, and the
      current assignment status is not consulted. */
  lemma DeliveryUpdateOnlyAssignee(db: Db, header: Option<string>, assignmentId: Option<Id>, status: Option<string>)
    ensures var g := DeliveryUpdateGate(db, header, assignmentId, status);
      g.Pass? <==>
        Authenticate(header, db.verifier).Verified? && Authenticate(header, db.verifier).claim.role == Delivery
        && assignmentId.Some? && (status == Some("picked-up") || status == Some("delivered"))
        && assignmentId.value in db.assignments
        && db.assignments[assignmentId.value].deliveryBoy == Authenticate(header, db.verifier).claim.id
  {
  }

  function ProgressNote(owner: Id, s: AssignmentStatus): Notification {
    if s == PickedUp then
      NewNotification(owner, "Your order has been picked up!", "Your food is on the way.", "order")
    else
      NewNotification(owner, "Your order has been delivered \U{1F389}", "Your food has been delivered successfully.", "order")
  }

  // ---------------------------------------------------------------------------
  // What each handler writes once its guard has passed, and what it answers.
  // Each `...KeepsConsistent` lemma shows the writes keep the store's indexes.

  /** POST /api/orders/create: the order, the customer's note, then one note per
      admin in `admins` (the handler passes `User.find({ role: 'admin' })`). */
  function PlaceOrder(db: Db, o: NewOrder, now: Instant, admins: seq<Id>): Db {
    NotifyAdmins(WithNote(WithOrder(db, PlacedOrder(o, now)), PlacedNote(o.customer.id)), admins, o.customer.email)
  }

  lemma PlaceOrderKeepsConsistent(db: Db, o: NewOrder, now: Instant, admins: seq<Id>)
    requires Consistent(db)
    ensures Consistent(PlaceOrder(db, o, now, admins))
  {
    var placed := WithOrder(db, PlacedOrder(o, now));
    InsertOrderKeepsConsistent(db, PlacedOrder(o, now));
    NoteKeepsConsistent(placed, PlacedNote(o.customer.id));
    NotifyAdminsConsistent(WithNote(placed, PlacedNote(o.customer.id)), admins, o.customer.email);
  }

  lemma PlaceOrderIsStep(db: Db, o: NewOrder, now: Instant, admins: seq<Id>, h: Handler)
    requires Consistent(db)
    ensures StatusStep(db.orders, PlaceOrder(db, o, now, admins).orders, h)
  {
    var n := db.nextId;
    var placed := WithOrder(db, PlacedOrder(o, now));
    InsertIsStep(db.orders, n, PlacedOrder(o, now), h);
    NotifyAdminsAdds(WithNote(placed, PlacedNote(o.customer.id)), admins, o.customer.email);
  }

  /** The placed order is new and pending, and it is the only order written. */
  lemma PlaceOrderLaws(db: Db, o: NewOrder, now: Instant, admins: seq<Id>)
    requires Consistent(db)
    ensures var d := PlaceOrder(db, o, now, admins);
      var n := db.nextId;
      && n !in db.orders && n in d.orders && d.orders == db.orders[n := d.orders[n]]
      && d.orders[n].status == Pending && d.orders[n].user == o.customer.id
      && d.users == db.users && d.menus == db.menus && d.assignments == db.assignments && d.feedback == db.feedback
  {
    var placed := WithOrder(db, PlacedOrder(o, now));
    NotifyAdminsAdds(WithNote(placed, PlacedNote(o.customer.id)), admins, o.customer.email);
  }

  /** The customer's note and then the admins' notes take consecutive fresh
      ids; earlier notes are untouched. */
  lemma PlaceOrderNotifies(db: Db, o: NewOrder, now: Instant, admins: seq<Id>)
    requires Consistent(db)
    ensures var d := PlaceOrder(db, o, now, admins);
      var n := db.nextId;
      && d.nextId == n + 2 + |admins|
      && (forall k :: k in d.notifications <==> k in db.notifications || n + 1 <= k < d.nextId)
      && (forall k :: k in db.notifications ==> d.notifications[k] == db.notifications[k])
      && d.notifications[n + 1] == PlacedNote(o.customer.id)
  {
    var placed := WithOrder(db, PlacedOrder(o, now));
    var first := WithNote(placed, PlacedNote(o.customer.id));
    assert first.nextId == db.nextId + 2 && first.notifications == db.notifications[db.nextId + 1 := PlacedNote(o.customer.id)];
    assert Below(first.notifications, first.nextId);
    NotifyAdminsAdds(first, admins, o.customer.email);
    assert PlaceOrder(db, o, now, admins) == NotifyAdmins(first, admins, o.customer.email);
  }

  /** Each listed admin gets a "New Order Received" note naming the customer,
      in the order the admins are listed. */
  lemma PlaceOrderNotifiesAdmins(db: Db, o: NewOrder, now: Instant, admins: seq<Id>)
    requires Consistent(db)
    ensures forall k :: db.nextId + 2 <= k < db.nextId + 2 + |admins| ==>
      && k in PlaceOrder(db, o, now, admins).notifications
      && PlaceOrder(db, o, now, admins).notifications[k] == AdminNote(admins[k - db.nextId - 2], o.customer.email)
  {
    var first := WithNote(WithOrder(db, PlacedOrder(o, now)), PlacedNote(o.customer.id));
    assert Below(first.notifications, first.nextId) && first.nextId == db.nextId + 2;
    forall k | db.nextId + 2 <= k < db.nextId + 2 + |admins|
      ensures k in PlaceOrder(db, o, now, admins).notifications
      ensures PlaceOrder(db, o, now, admins).notifications[k] == AdminNote(admins[k - db.nextId - 2], o.customer.email)
    {
      NotifyAdminsAt(first, admins, o.customer.email, k - db.nextId - 2);
    }
  }

  lemma NotifyAdminsAt(db: Db, admins: seq<Id>, email: string, i: nat)
    requires Below(db.notifications, db.nextId) && i < |admins|
    ensures db.nextId + i in NotifyAdmins(db, admins, email).notifications
    ensures NotifyAdmins(db, admins, email).notifications[db.nextId + i] == AdminNote(admins[i], email)
  {
    NotifyAdminsAdds(db, admins, email);
  }

  function CreateOrderOutcome(db: Db, header: Option<string>, items: Option<seq<ItemInput>>, totalPrice: Option<int>, now: Instant): Outcome<Id> {
    var g := CreateOrderGate(db, header, items, totalPrice);
    if g.Refuse? then Outcome(Refused(g.why), db)
    else Outcome(Ok(201, "Order placed successfully", db.nextId),
                 PlaceOrder(db, g.payload, now, UsersWithRole(db.users, db.nextId, Admin)))
  }

  /** PATCH /api/orders/admin-status: the decision becomes the status, whatever
      the old one, and the owner is told which. */
  function Decide(db: Db, id: Id, s: OrderStatus): Db
    requires id in db.orders
  {
    WithNote(OrderSaved(db, id, db.orders[id].(status := s)), DecisionNote(db.orders[id].user, s))
  }

  lemma DecideKeepsConsistent(db: Db, id: Id, s: OrderStatus)
    requires Consistent(db) && id in db.orders
    ensures Consistent(Decide(db, id, s))
  {
    SetOrderKeepsConsistent(db, id, db.orders[id].(status := s));
    NoteKeepsConsistent(OrderSaved(db, id, db.orders[id].(status := s)), DecisionNote(db.orders[id].user, s));
  }

  lemma DecideIsStep(db: Db, id: Id, s: OrderStatus)
    requires id in db.orders && (s == Accepted || s == Rejected)
    ensures StatusStep(db.orders, Decide(db, id, s).orders, AdminDecision)
  {
    var o := db.orders[id].(status := s);
    UpdateIsStep(db.orders, id, o, AdminDecision);
    var saved := OrderSaved(db, id, o);
    assert Decide(db, id, s) == WithNote(saved, DecisionNote(db.orders[id].user, s));
    assert saved.orders == db.orders[id := o];
  }

  /** The decision becomes the order's status; no other order changes. */
  lemma DecideLaws(db: Db, id: Id, s: OrderStatus)
    requires id in db.orders
    ensures var d := Decide(db, id, s);
      && d.orders.Keys == db.orders.Keys && d.orders[id].status == s
      && (forall k :: k in db.orders && k != id ==> d.orders[k] == db.orders[k])
  {
    var d := Decide(db, id, s);
    forall k | k in db.orders && k != id ensures d.orders[k] == db.orders[k] {
    }
  }

  /** The owner's note names the decision; nothing but the order and the note is written. */
  lemma DecideNotifies(db: Db, id: Id, s: OrderStatus)
    requires id in db.orders && (s == Accepted || s == Rejected)
    ensures var d := Decide(db, id, s);
      && d == db.(orders := d.orders, notifications := d.notifications, nextId := db.nextId + 1)
      && d.notifications[db.nextId].user == db.orders[id].user
      && d.notifications[db.nextId].title == (if s == Accepted then "Order Accepted" else "Order Rejected")
  {
    var saved := OrderSaved(db, id, db.orders[id].(status := s));
    var d := WithNote(saved, DecisionNote(db.orders[id].user, s));
    assert Decide(db, id, s) == d;
    assert d.notifications[db.nextId] == DecisionNote(db.orders[id].user, s);
  }

  function AdminStatusOutcome(db: Db, header: Option<string>, orderId: Option<Id>, status: Option<string>): Outcome<()> {
    var g := AdminStatusGate(db, header, orderId, status);
    if g.Refuse? then Outcome(Refused(g.why), db)
    else Outcome(Done(200, "Order " + StatusText(g.payload.1)), Decide(db, g.payload.0, g.payload.1))
  }

  /** PATCH /api/orders/update-status: the status text is stored as sent, and a
      request without one removes the order's status. */
  function ForceStatus(db: Db, id: Id, status: Option<string>): Db
    requires id in db.orders
  {
    OrderSaved(db, id, db.orders[id].(status := StoredStatus(status)))
  }

  /** Any text at all, inside the schema's enumeration or not, becomes the
      status of the order, and nothing else changes. */
  lemma ForceStatusLaws(db: Db, id: Id, status: Option<string>)
    requires Consistent(db) && id in db.orders
    ensures var d := ForceStatus(db, id, status);
      && Consistent(d)
      && StatusStep(db.orders, d.orders, FreeForm)
  {
    UpdateIsStep(db.orders, id, db.orders[id].(status := StoredStatus(status)), FreeForm);
    SetOrderKeepsConsistent(db, id, db.orders[id].(status := StoredStatus(status)));
  }

  /** The order's status becomes the sent text, or is removed when none is sent;
      its other fields and every other document are unchanged. */
  lemma ForceStatusWrites(db: Db, id: Id, status: Option<string>)
    requires id in db.orders
    ensures var d := ForceStatus(db, id, status);
      && d == db.(orders := d.orders)
      && d.orders.Keys == db.orders.Keys
      && (status.Some? ==> StatusText(d.orders[id].status) == status.value)
      && (status.None? <==> d.orders[id].status == Unset)
      && d.orders[id] == db.orders[id].(status := d.orders[id].status)
      && (forall k :: k in db.orders && k != id ==> d.orders[k] == db.orders[k])
  {
  }

  function UpdateStatusOutcome(db: Db, header: Option<string>, orderId: Option<Id>, status: Option<string>): Outcome<()> {
    var g := UpdateStatusGate(db, header, orderId);
    if g.Refuse? then Outcome(Refused(g.why), db)
    else Outcome(Done(200, "Order status updated"), ForceStatus(db, g.payload, status))
  }

  /** Only a verified admin naming an existing order gets past the guard. */
  lemma UpdateStatusAuthorisation(db: Db, header: Option<string>, orderId: Option<Id>)
    ensures UpdateStatusGate(db, header, orderId).Pass? <==>
      Authenticate(header, db.verifier).Verified? && Authenticate(header, db.verifier).claim.role == Admin
      && orderId.Some? && orderId.value in db.orders
  {
  }

  /** PATCH /api/orders/assign-delivery: the order is saved first; an assignment
      is created only when the order has none; the two notes follow. */
  function Dispatch(db: Db, oid: Id, boy: Id): Db
    requires oid in db.orders
  {
    var order := db.orders[oid];
    var saved := OrderSaved(db, oid, order.(assignedTo := Some(boy), status := Assigned));
    WithNote(WithNote(LinkIfNone(saved, oid, boy), CourierNote(boy, oid)), OnTheWayNote(order.user))
  }

  /** `if (!existingAssignment) DeliveryAssignment.create(...)`. */
  function LinkIfNone(db: Db, oid: Id, boy: Id): Db {
    if AssignmentOf(db.assignments, db.nextId, oid).Some? then db
    else WithAssignment(db, Assignment(oid, boy, Assigned))
  }

  lemma LinkIfNoneKeepsConsistent(db: Db, oid: Id, boy: Id)
    requires Consistent(db)
    ensures Consistent(LinkIfNone(db, oid, boy))
  {
    if AssignmentOf(db.assignments, db.nextId, oid).None? {
      InsertAssignmentKeepsConsistent(db, Assignment(oid, boy, Assigned));
    }
  }

  lemma DispatchKeepsConsistent(db: Db, oid: Id, boy: Id)
    requires Consistent(db) && oid in db.orders
    ensures Consistent(Dispatch(db, oid, boy))
  {
    var order := db.orders[oid];
    var saved := OrderSaved(db, oid, order.(assignedTo := Some(boy), status := Assigned));
    SetOrderKeepsConsistent(db, oid, order.(assignedTo := Some(boy), status := Assigned));
    LinkIfNoneKeepsConsistent(saved, oid, boy);
    var linked := LinkIfNone(saved, oid, boy);
    NoteKeepsConsistent(linked, CourierNote(boy, oid));
    NoteKeepsConsistent(WithNote(linked, CourierNote(boy, oid)), OnTheWayNote(order.user));
  }

  /** The order ends up assigned to `boy`; no other order changes. */
  lemma DispatchIsStep(db: Db, oid: Id, boy: Id)
    requires oid in db.orders
    ensures StatusStep(db.orders, Dispatch(db, oid, boy).orders, Handler.AssignDelivery)
  {
    var order := db.orders[oid].(assignedTo := Some(boy), status := Assigned);
    UpdateIsStep(db.orders, oid, order, Handler.AssignDelivery);
    DispatchOrders(db, oid, boy);
  }

  lemma DispatchOrders(db: Db, oid: Id, boy: Id)
    requires oid in db.orders
    ensures Dispatch(db, oid, boy).orders == db.orders[oid := db.orders[oid].(assignedTo := Some(boy), status := Assigned)]
  {
  }

  lemma DispatchLaws(db: Db, oid: Id, boy: Id)
    requires oid in db.orders
    ensures var d := Dispatch(db, oid, boy);
      && d.orders.Keys == db.orders.Keys
      && d.orders[oid].assignedTo == Some(boy) && d.orders[oid].status == Assigned
      && (forall k :: k in db.orders && k != oid ==> d.orders[k] == db.orders[k])
  {
    var d := Dispatch(db, oid, boy);
    forall k | k in db.orders && k != oid ensures d.orders[k] == db.orders[k] {
    }
  }

  /** Afterwards the order has an assignment; assignments that existed are kept
      as they were. */
  lemma DispatchLinks(db: Db, oid: Id, boy: Id)
    requires Consistent(db) && oid in db.orders
    ensures var d := Dispatch(db, oid, boy);
      && (exists k :: k in d.assignments && d.assignments[k].order == oid)
      && (forall k :: k in db.assignments ==> k in d.assignments && d.assignments[k] == db.assignments[k])
  {
    var existing := AssignmentOf(db.assignments, db.nextId, oid);
    if existing.None? {
      assert Dispatch(db, oid, boy).assignments[db.nextId].order == oid;
    } else {
      assert Dispatch(db, oid, boy).assignments[existing.value].order == oid;
    }
  }

  /** Re-assigning an order to a second courier leaves its assignment with the
      first one: the order and its assignment then disagree on the courier. */
  lemma ReassignKeepsFirstCourier(db: Db, oid: Id, boy: Id, k: Id)
    requires Consistent(db) && oid in db.orders
    requires k in db.assignments && db.assignments[k].order == oid && db.assignments[k].deliveryBoy != boy
    ensures var d := Dispatch(db, oid, boy);
      k in d.assignments && d.assignments[k].deliveryBoy != d.orders[oid].assignedTo.value
  {
    assert AssignmentOf(db.assignments, db.nextId, oid).Some?;
  }

  function AssignDeliveryOutcome(db: Db, header: Option<string>, orderId: Option<Id>, deliveryBoyId: Option<Id>): Outcome<()> {
    var g := AssignDeliveryGate(db, header, orderId, deliveryBoyId);
    if g.Refuse? then Outcome(Refused(g.why), db)
    else Outcome(Done(200, "Delivery assigned successfully"), Dispatch(db, g.payload.0, g.payload.1))
  }

  /** PATCH /api/orders/cancel. */
  function CancelOrder(db: Db, caller: Claim, oid: Id): Db
    requires oid in db.orders
  {
    var order := db.orders[oid];
    var saved := OrderSaved(db, oid, order.(status := Cancelled, cancelledBy := Some("customer")));
    WithNote(WithNote(saved, CancelledNote(order.user, oid)), CancelledByCustomerNote(order.user, caller.email, oid))
  }

  lemma CancelOrderKeepsConsistent(db: Db, caller: Claim, oid: Id)
    requires Consistent(db) && oid in db.orders
    ensures Consistent(CancelOrder(db, caller, oid))
  {
    var order := db.orders[oid];
    var saved := OrderSaved(db, oid, order.(status := Cancelled, cancelledBy := Some("customer")));
    SetOrderKeepsConsistent(db, oid, order.(status := Cancelled, cancelledBy := Some("customer")));
    NoteKeepsConsistent(saved, CancelledNote(order.user, oid));
    NoteKeepsConsistent(WithNote(saved, CancelledNote(order.user, oid)), CancelledByCustomerNote(order.user, caller.email, oid));
  }

  /** The order is marked cancelled by the customer and both notes go to its
      owner: no admin hears of it. */
  lemma CancelOrderLaws(db: Db, caller: Claim, oid: Id)
    requires Consistent(db) && oid in db.orders
    ensures var d := CancelOrder(db, caller, oid);
      && d.orders.Keys == db.orders.Keys
      && d.orders[oid].status == Cancelled && d.orders[oid].cancelledBy == Some("customer")
      && (forall k :: k in db.orders && k != oid ==> d.orders[k] == db.orders[k])
      && d == db.(orders := d.orders, notifications := d.notifications, nextId := db.nextId + 2)
      && (forall k :: k in d.notifications && k !in db.notifications ==> d.notifications[k].user == db.orders[oid].user)
  {
  }

  /** With the guard, the cancellation is a customer-cancel step: only
      statuses other than accepted and rejected are cancelled. */
  lemma CancelIsStep(db: Db, header: Option<string>, orderId: Option<Id>)
    ensures var g := CancelGate(db, header, orderId);
      g.Pass? ==> StatusStep(db.orders, CancelOrder(db, g.payload.0, g.payload.1).orders, CustomerCancel)
  {
    var g := CancelGate(db, header, orderId);
    if g.Pass? {
      var oid := g.payload.1;
      UpdateIsStep(db.orders, oid, db.orders[oid].(status := Cancelled, cancelledBy := Some("customer")), CustomerCancel);
    }
  }

  function CancelOutcome(db: Db, header: Option<string>, orderId: Option<Id>): Outcome<()> {
    var g := CancelGate(db, header, orderId);
    if g.Refuse? then Outcome(Refused(g.why), db)
    else Outcome(Done(200, "Order cancelled successfully"), CancelOrder(db, g.payload.0, g.payload.1))
  }

  /** POST /api/delivery/assign: an assignment and the courier's note; the order
      collection is neither read nor written. */
  function LinkCourier(db: Db, oid: Id, boy: Id): Db {
    WithNote(WithAssignment(db, Assignment(oid, boy, DefaultAssignmentStatus)), DeliveryAssignedNote(boy, oid))
  }

  lemma LinkCourierKeepsConsistent(db: Db, oid: Id, boy: Id)
    requires Consistent(db) && AssignmentOf(db.assignments, db.nextId, oid).None?
    ensures Consistent(LinkCourier(db, oid, boy))
  {
    InsertAssignmentKeepsConsistent(db, Assignment(oid, boy, Assigned));
    NoteKeepsConsistent(WithAssignment(db, Assignment(oid, boy, Assigned)), DeliveryAssignedNote(boy, oid));
  }

  /** Given the guard's check, one assignment per order is kept; orders are
      untouched, even when the order does not exist. */
  lemma LinkCourierLaws(db: Db, oid: Id, boy: Id)
    requires Consistent(db)
    requires AssignmentOf(db.assignments, db.nextId, oid).None?
    ensures var d := LinkCourier(db, oid, boy);
      && Consistent(d)
      && d.orders == db.orders && d.users == db.users && d.menus == db.menus && d.feedback == db.feedback
      && db.nextId !in db.assignments
      && d.assignments == db.assignments[db.nextId := Assignment(oid, boy, Assigned)]
      && d.notifications[db.nextId + 1].user == boy
  {
    var linked := WithAssignment(db, Assignment(oid, boy, Assigned));
    InsertAssignmentKeepsConsistent(db, Assignment(oid, boy, Assigned));
    NoteKeepsConsistent(linked, DeliveryAssignedNote(boy, oid));
    var d := WithNote(linked, DeliveryAssignedNote(boy, oid));
    assert LinkCourier(db, oid, boy) == d;
    assert d.assignments == linked.assignments && d.notifications[linked.nextId] == DeliveryAssignedNote(boy, oid);
  }

  function DeliveryAssignOutcome(db: Db, header: Option<string>, orderId: Option<Id>, deliveryBoyId: Option<Id>): Outcome<()> {
    var g := DeliveryAssignGate(db, header, orderId, deliveryBoyId);
    if g.Refuse? then Outcome(Refused(g.why), db)
    else Outcome(Done(200, "Order assigned successfully"), LinkCourier(db, g.payload.0, g.payload.1))
  }
  lemma DeliveryAssignKeepsConsistent(db: Db, header: Option<string>, orderId: Option<Id>, deliveryBoyId: Option<Id>)
    requires Consistent(db)
    ensures Consistent(DeliveryAssignOutcome(db, header, orderId, deliveryBoyId).db)
  {
    var g := DeliveryAssignGate(db, header, orderId, deliveryBoyId);
    if g.Pass? {
      LinkCourierKeepsConsistent(db, g.payload.0, g.payload.1);
    }
  }


  /** PATCH /api/delivery/update-status. The assignment is saved before the
      linked order is looked up, so a missing order is reported after the
      assignment has already changed. */
  function Progress(db: Db, aid: Id, s: AssignmentStatus): Outcome<()>
    requires aid in db.assignments
  {
    var a := db.assignments[aid];
    var saved := AssignmentSaved(db, aid, a.(status := s));
    if a.order !in db.orders then Outcome(Fail(404, "Linked order not found"), saved)
    else
      var order := db.orders[a.order];
      Outcome(Done(200, "Status updated successfully"),
              WithNote(OrderSaved(saved, a.order, order.(status := s)), ProgressNote(order.user, s)))
  }

  lemma ProgressKeepsConsistent(db: Db, aid: Id, s: AssignmentStatus)
    requires Consistent(db) && aid in db.assignments
    ensures Consistent(Progress(db, aid, s).db)
  {
    var a := db.assignments[aid];
    var saved := AssignmentSaved(db, aid, a.(status := s));
    SetAssignmentKeepsConsistent(db, aid, a.(status := s));
    if a.order in db.orders {
      var order := db.orders[a.order];
      SetOrderKeepsConsistent(saved, a.order, order.(status := s));
      NoteKeepsConsistent(OrderSaved(saved, a.order, order.(status := s)), ProgressNote(order.user, s));
    }
  }

  /** After a successful update the assignment and its order agree on the
      status; a missing order leaves the assignment changed behind a 404. */
  lemma ProgressIsStep(db: Db, aid: Id, s: AssignmentStatus)
    requires aid in db.assignments && (s == PickedUp || s == Delivered)
    ensures StatusStep(db.orders, Progress(db, aid, s).db.orders, DeliveryProgress)
  {
    if db.assignments[aid].order in db.orders {
      ProgressFoundIsStep(db, aid, s);
    } else {
      NoChangeIsStep(db.orders, DeliveryProgress);
    }
  }

  lemma ProgressFoundIsStep(db: Db, aid: Id, s: AssignmentStatus)
    requires aid in db.assignments && (s == PickedUp || s == Delivered) && db.assignments[aid].order in db.orders
    ensures StatusStep(db.orders, Progress(db, aid, s).db.orders, DeliveryProgress)
  {
    var a := db.assignments[aid];
    UpdateIsStep(db.orders, a.order, db.orders[a.order].(status := s), DeliveryProgress);
    assert Progress(db, aid, s).db.orders == db.orders[a.order := db.orders[a.order].(status := s)];
  }

  lemma ProgressLaws(db: Db, aid: Id, s: AssignmentStatus)
    requires aid in db.assignments
    ensures var o := Progress(db, aid, s);
      var a := db.assignments[aid];
      && aid in o.db.assignments && o.db.assignments[aid] == a.(status := s)
      && (a.order !in db.orders ==>
            o.reply == Fail(404, "Linked order not found") && o.db.orders == db.orders
            && o.db.notifications == db.notifications)
      && (a.order in db.orders ==> o.reply.Ok? && o.db.orders[a.order].status == s)
  {
    var a := db.assignments[aid];
    var saved := AssignmentSaved(db, aid, a.(status := s));
    assert saved.assignments[aid] == a.(status := s);
    if a.order in db.orders {
      var order := db.orders[a.order];
      var d := WithNote(OrderSaved(saved, a.order, order.(status := s)), ProgressNote(order.user, s));
      assert Progress(db, aid, s) == Outcome(Done(200, "Status updated successfully"), d);
      assert d.assignments == saved.assignments && d.orders[a.order] == order.(status := s);
    } else {
      assert Progress(db, aid, s) == Outcome(Fail(404, "Linked order not found"), saved);
    }
  }

  lemma ProgressWrites(db: Db, aid: Id, s: AssignmentStatus)
    requires aid in db.assignments
    ensures var a := db.assignments[aid];
      && Progress(db, aid, s).db.assignments == db.assignments[aid := a.(status := s)]
      && (a.order in db.orders ==> Progress(db, aid, s).db.orders == db.orders[a.order := db.orders[a.order].(status := s)])
      && (a.order !in db.orders ==> Progress(db, aid, s) == Outcome(Fail(404, "Linked order not found"), AssignmentSaved(db, aid, a.(status := s))))
  {
    var a := db.assignments[aid];
    var saved := AssignmentSaved(db, aid, a.(status := s));
    if a.order in db.orders {
      var order := db.orders[a.order];
      var d := WithNote(OrderSaved(saved, a.order, order.(status := s)), ProgressNote(order.user, s));
      assert Progress(db, aid, s).db == d;
      assert d.assignments == saved.assignments && d.orders == db.orders[a.order := order.(status := s)];
    }
  }

  function DeliveryUpdateOutcome(db: Db, header: Option<string>, assignmentId: Option<Id>, status: Option<string>): Outcome<()> {
    var g := DeliveryUpdateGate(db, header, assignmentId, status);
    if g.Refuse? then Outcome(Refused(g.why), db)
    else Progress(db, g.payload.0, g.payload.1)
  }

  // ---------------------------------------------------------------------------
  // Whole handlers: whatever the request, the store stays consistent and every
  // change of an order's status is one the handler performs.

  /** Order creation only adds an order, so it changes no existing status. */
  lemma CreateOrderKeepsConsistent(db: Db, header: Option<string>, items: Option<seq<ItemInput>>,
                                   totalPrice: Option<int>, now: Instant, h: Handler)
    requires Consistent(db)
    ensures var d := CreateOrderOutcome(db, header, items, totalPrice, now).db;
      Consistent(d) && StatusStep(db.orders, d.orders, h)
  {
    var g := CreateOrderGate(db, header, items, totalPrice);
    if g.Pass? {
      var admins := UsersWithRole(db.users, db.nextId, Admin);
      PlaceOrderKeepsConsistent(db, g.payload, now, admins);
      PlaceOrderIsStep(db, g.payload, now, admins, h);
    } else {
      NoChangeIsStep(db.orders, h);
    }
  }

  lemma AdminStatusKeepsConsistent(db: Db, header: Option<string>, orderId: Option<Id>, status: Option<string>)
    requires Consistent(db)
    ensures var d := AdminStatusOutcome(db, header, orderId, status).db;
      Consistent(d) && StatusStep(db.orders, d.orders, AdminDecision)
  {
    var g := AdminStatusGate(db, header, orderId, status);
    if g.Pass? {
      DecideKeepsConsistent(db, g.payload.0, g.payload.1);
      DecideIsStep(db, g.payload.0, g.payload.1);
    } else {
      NoChangeIsStep(db.orders, AdminDecision);
    }
  }

  lemma UpdateStatusKeepsConsistent(db: Db, header: Option<string>, orderId: Option<Id>, status: Option<string>)
    requires Consistent(db)
    ensures var d := UpdateStatusOutcome(db, header, orderId, status).db;
      Consistent(d) && StatusStep(db.orders, d.orders, FreeForm)
  {
    var g := UpdateStatusGate(db, header, orderId);
    if g.Pass? {
      ForceStatusLaws(db, g.payload, status);
    } else {
      NoChangeIsStep(db.orders, FreeForm);
    }
  }

  lemma AssignDeliveryKeepsConsistent(db: Db, header: Option<string>, orderId: Option<Id>, deliveryBoyId: Option<Id>)
    requires Consistent(db)
    ensures var d := AssignDeliveryOutcome(db, header, orderId, deliveryBoyId).db;
      Consistent(d) && StatusStep(db.orders, d.orders, Handler.AssignDelivery)
  {
    var g := AssignDeliveryGate(db, header, orderId, deliveryBoyId);
    if g.Pass? {
      DispatchKeepsConsistent(db, g.payload.0, g.payload.1);
      DispatchIsStep(db, g.payload.0, g.payload.1);
    } else {
      NoChangeIsStep(db.orders, Handler.AssignDelivery);
    }
  }

  lemma CancelKeepsConsistent(db: Db, header: Option<string>, orderId: Option<Id>)
    requires Consistent(db)
    ensures var d := CancelOutcome(db, header, orderId).db;
      Consistent(d) && StatusStep(db.orders, d.orders, CustomerCancel)
  {
    var g := CancelGate(db, header, orderId);
    CancelIsStep(db, header, orderId);
    if g.Pass? {
      CancelOrderKeepsConsistent(db, g.payload.0, g.payload.1);
    } else {
      NoChangeIsStep(db.orders, CustomerCancel);
    }
  }

  lemma DeliveryUpdateKeepsConsistent(db: Db, header: Option<string>, assignmentId: Option<Id>, status: Option<string>)
    requires Consistent(db)
    ensures var d := DeliveryUpdateOutcome(db, header, assignmentId, status).db;
      Consistent(d) && StatusStep(db.orders, d.orders, DeliveryProgress)
  {
    var g := DeliveryUpdateGate(db, header, assignmentId, status);
    if g.Pass? {
      ProgressKeepsConsistent(db, g.payload.0, g.payload.1);
      ProgressIsStep(db, g.payload.0, g.payload.1);
    } else {
      NoChangeIsStep(db.orders, DeliveryProgress);
    }
  }
}
