/** The MongoDB collections as one mutable store, with one method per route
    handler that writes to them. Each method runs the handler's guard chain,
    then performs the handler's writes one by one in the handler's order; a
    refused request writes nothing. Documents get their id from the shared
    counter `nextId` as they are inserted. Every method is proved to answer and
    to leave the store exactly as the handler's `...Outcome` function says; the
    `...KeepsConsistent` lemmas about those functions then show that every
    handler keeps the store's indexes (`Db.Consistent`). */
module Store {
  import opened Common
  import opened UserModel
  import opened MenuModel
  import opened OrderModel
  import opened AssignmentModel
  import opened FeedbackModel
  import opened NotificationModel
  import opened Http
  import opened Db
  import opened OrderRules
  import opened InboxRules
  import opened CatalogRules
  import opened AccountRules
  import opened FeedbackRules
  import Lifecycle

  class Store {
    var users: map<Id, User>
    var menus: map<Id, Menu>
    var orders: map<Id, Order>
    var assignments: map<Id, Assignment>
    var feedback: map<Id, Feedback>
    var notifications: map<Id, Notification>
    var nextId: nat
    /** The tokens the JWT secret has signed, with their payloads. */
    const verifier: map<string, Claim>

    function Snapshot(): Db
      reads this
    {
      Db(users, menus, orders, assignments, feedback, notifications, nextId, verifier)
    }

    constructor (verifier: map<string, Claim>)
      ensures Consistent(Snapshot())
      ensures Snapshot() == Db(map[], map[], map[], map[], map[], map[], 0, verifier)
    {
      users, menus, orders, assignments, feedback, notifications := map[], map[], map[], map[], map[], map[];
      nextId := 0;
      this.verifier := verifier;
    }

    /** `Notification.create(...)`: inserts `note` under a fresh id. */
    method Notify(note: Notification)
      modifies this`notifications, this`nextId
      ensures Snapshot() == WithNote(old(Snapshot()), note)
    {
      notifications := notifications[nextId := note];
      nextId := nextId + 1;
    }

    /** `DeliveryAssignment.create(...)`: inserts `a` under a fresh id. */
    method InsertAssignment(a: Assignment)
      modifies this`assignments, this`nextId
      ensures Snapshot() == WithAssignment(old(Snapshot()), a)
    {
      assignments := assignments[nextId := a];
      nextId := nextId + 1;
    }

    /** `Order.create(o)`: inserts `o` under a fresh id. */
    method InsertOrder(o: Order)
      modifies this`orders, this`nextId
      ensures Snapshot() == WithOrder(old(Snapshot()), o)
    {
      orders := orders[nextId := o];
      nextId := nextId + 1;
    }

    /** `order.save()`: the order document `k` becomes `o`. */
    method SaveOrder(k: Id, o: Order)
      modifies this`orders
      ensures Snapshot() == OrderSaved(old(Snapshot()), k, o)
    {
      orders := orders[k := o];
    }

    /** `assignment.save()`: the assignment document `k` becomes `a`. */
    method SaveAssignment(k: Id, a: Assignment)
      modifies this`assignments
      ensures Snapshot() == AssignmentSaved(old(Snapshot()), k, a)
    {
      assignments := assignments[k := a];
    }

    /** One `Notification.create` per admin, in the order the admins are listed. */
    method NotifyEach(admins: seq<Id>, email: string)
      modifies this`notifications, this`nextId
      ensures Snapshot() == NotifyAdmins(old(Snapshot()), admins, email)
    {
      ghost var first := Snapshot();
      var i := 0;
      while i < |admins|
        invariant 0 <= i <= |admins|
        invariant Snapshot() == NotifyAdmins(first, admins[..i], email)
      {
        Notify(AdminNote(admins[i], email));
        assert admins[..i + 1][..i] == admins[..i];
        i := i + 1;
      }
      assert admins[..i] == admins;
    }

    // -------------------------------------------------------------------------
    // Orders

    /** POST /api/orders/create: the order, the customer's note, then one note
        per admin, one `Notification.create` at a time. */
    method CreateOrder(header: Option<string>, items: Option<seq<ItemInput>>, totalPrice: Option<int>, now: Instant)
      returns (r: Response<Id>)
      modifies this`orders, this`notifications, this`nextId
      ensures var o := old(CreateOrderOutcome(Snapshot(), header, items, totalPrice, now));
        r == o.reply && Snapshot() == o.db
      requires Consistent(Snapshot())
      ensures Consistent(Snapshot())
    {
      CreateOrderKeepsConsistent(Snapshot(), header, items, totalPrice, now, Lifecycle.FreeForm);
      ghost var before := Snapshot();
      var g := CreateOrderGate(Snapshot(), header, items, totalPrice);
      if g.Refuse? {
        return Refused(g.why);
      }
      var admins := UsersWithRole(users, nextId, Admin);
      var id := nextId;
      assert CreateOrderOutcome(before, header, items, totalPrice, now)
        == Outcome(Ok(201, "Order placed successfully", id), PlaceOrder(before, g.payload, now, admins));
      InsertOrder(PlacedOrder(g.payload, now));
      Notify(PlacedNote(g.payload.customer.id));
      ghost var first := Snapshot();
      assert first == WithNote(WithOrder(before, PlacedOrder(g.payload, now)), PlacedNote(g.payload.customer.id));
      NotifyEach(admins, g.payload.customer.email);
      assert Snapshot() == NotifyAdmins(first, admins, g.payload.customer.email);
      return Ok(201, "Order placed successfully", id);
    }

    /** PATCH /api/orders/admin-status. */
    method AdminStatus(header: Option<string>, orderId: Option<Id>, status: Option<string>) returns (r: Reply)
      modifies this`orders, this`notifications, this`nextId
      ensures var o := old(AdminStatusOutcome(Snapshot(), header, orderId, status));
        r == o.reply && Snapshot() == o.db
      requires Consistent(Snapshot())
      ensures Consistent(Snapshot())
    {
      AdminStatusKeepsConsistent(Snapshot(), header, orderId, status);
      var g := AdminStatusGate(Snapshot(), header, orderId, status);
      if g.Refuse? {
        return Refused(g.why);
      }
      var id, s := g.payload.0, g.payload.1;
      var order := orders[id];
      SaveOrder(id, order.(status := s));
      Notify(DecisionNote(order.user, s));
      return Done(200, "Order " + StatusText(s));
    }

    /** PATCH /api/orders/update-status: the status text is stored as sent, or the
        status removed when the body has none. */
    method UpdateStatus(header: Option<string>, orderId: Option<Id>, status: Option<string>) returns (r: Reply)
      modifies this`orders
      ensures var o := old(UpdateStatusOutcome(Snapshot(), header, orderId, status));
        r == o.reply && Snapshot() == o.db
      requires Consistent(Snapshot())
      ensures Consistent(Snapshot())
    {
      UpdateStatusKeepsConsistent(Snapshot(), header, orderId, status);
      var g := UpdateStatusGate(Snapshot(), header, orderId);
      if g.Refuse? {
        return Refused(g.why);
      }
      SaveOrder(g.payload, orders[g.payload].(status := StoredStatus(status)));
      return Done(200, "Order status updated");
    }

    /** PATCH /api/orders/assign-delivery. */
    method AssignDelivery(header: Option<string>, orderId: Option<Id>, deliveryBoyId: Option<Id>) returns (r: Reply)
      modifies this`orders, this`assignments, this`notifications, this`nextId
      ensures var o := old(AssignDeliveryOutcome(Snapshot(), header, orderId, deliveryBoyId));
        r == o.reply && Snapshot() == o.db
      requires Consistent(Snapshot())
      ensures Consistent(Snapshot())
    {
      AssignDeliveryKeepsConsistent(Snapshot(), header, orderId, deliveryBoyId);
      ghost var before := Snapshot();
      var g := AssignDeliveryGate(Snapshot(), header, orderId, deliveryBoyId);
      if g.Refuse? {
        return Refused(g.why);
      }
      var oid, boy := g.payload.0, g.payload.1;
      assert AssignDeliveryOutcome(before, header, orderId, deliveryBoyId)
        == Outcome(Done(200, "Delivery assigned successfully"), Dispatch(before, oid, boy));
      var order := orders[oid];
      SaveOrder(oid, order.(assignedTo := Some(boy), status := Assigned));
      ghost var saved := Snapshot();
      assert saved == OrderSaved(before, oid, order.(assignedTo := Some(boy), status := Assigned));
      LinkIfMissing(oid, boy);
      Notify(CourierNote(boy, oid));
      Notify(OnTheWayNote(order.user));
      assert Snapshot() == WithNote(WithNote(LinkIfNone(saved, oid, boy), CourierNote(boy, oid)), OnTheWayNote(order.user));
      return Done(200, "Delivery assigned successfully");
    }

    /** `if (!existingAssignment) DeliveryAssignment.create(...)`. */
    method LinkIfMissing(oid: Id, boy: Id)
      modifies this`assignments, this`nextId
      ensures Snapshot() == LinkIfNone(old(Snapshot()), oid, boy)
    {
      var existing := AssignmentOf(assignments, nextId, oid);
      if existing.None? {
        InsertAssignment(Assignment(oid, boy, Assigned));
      }
    }

    /** PATCH /api/orders/cancel. */
    method Cancel(header: Option<string>, orderId: Option<Id>) returns (r: Reply)
      modifies this`orders, this`notifications, this`nextId
      ensures var o := old(CancelOutcome(Snapshot(), header, orderId));
        r == o.reply && Snapshot() == o.db
      requires Consistent(Snapshot())
      ensures Consistent(Snapshot())
    {
      CancelKeepsConsistent(Snapshot(), header, orderId);
      ghost var before := Snapshot();
      var g := CancelGate(Snapshot(), header, orderId);
      if g.Refuse? {
        return Refused(g.why);
      }
      var caller, oid := g.payload.0, g.payload.1;
      var order := orders[oid];
      SaveOrder(oid, order.(status := Cancelled, cancelledBy := Some("customer")));
      Notify(CancelledNote(order.user, oid));
      Notify(CancelledByCustomerNote(order.user, caller.email, oid));
      assert Snapshot() == CancelOrder(before, caller, oid);
      return Done(200, "Order cancelled successfully");
    }

    // -------------------------------------------------------------------------
    // Delivery

    /** POST /api/delivery/assign: the order collection is neither read nor written. */
    method DeliveryAssign(header: Option<string>, orderId: Option<Id>, deliveryBoyId: Option<Id>) returns (r: Reply)
      modifies this`assignments, this`notifications, this`nextId
      ensures var o := old(DeliveryAssignOutcome(Snapshot(), header, orderId, deliveryBoyId));
        r == o.reply && Snapshot() == o.db
      requires Consistent(Snapshot())
      ensures Consistent(Snapshot())
    {
      DeliveryAssignKeepsConsistent(Snapshot(), header, orderId, deliveryBoyId);
      ghost var before := Snapshot();
      var g := DeliveryAssignGate(Snapshot(), header, orderId, deliveryBoyId);
      if g.Refuse? {
        return Refused(g.why);
      }
      var oid, boy := g.payload.0, g.payload.1;
      InsertAssignment(Assignment(oid, boy, DefaultAssignmentStatus));
      Notify(DeliveryAssignedNote(boy, oid));
      assert Snapshot() == LinkCourier(before, oid, boy);
      return Done(200, "Order assigned successfully");
    }

    /** PATCH /api/delivery/update-status. The assignment is saved before the
        linked order is looked up, so a missing order is reported after the
        assignment has already changed. */
    method DeliveryUpdate(header: Option<string>, assignmentId: Option<Id>, status: Option<string>) returns (r: Reply)
      modifies this`assignments, this`orders, this`notifications, this`nextId
      ensures var o := old(DeliveryUpdateOutcome(Snapshot(), header, assignmentId, status));
        r == o.reply && Snapshot() == o.db
      requires Consistent(Snapshot())
      ensures Consistent(Snapshot())
    {
      DeliveryUpdateKeepsConsistent(Snapshot(), header, assignmentId, status);
      ghost var before := Snapshot();
      var g := DeliveryUpdateGate(Snapshot(), header, assignmentId, status);
      if g.Refuse? {
        return Refused(g.why);
      }
      var aid, s := g.payload.0, g.payload.1;
      var a := assignments[aid];
      SaveAssignment(aid, a.(status := s));
      if a.order !in orders {
        assert Snapshot() == Progress(before, aid, s).db;
        return Fail(404, "Linked order not found");
      }
      var order := orders[a.order];
      SaveOrder(a.order, order.(status := s));
      Notify(ProgressNote(order.user, s));
      assert Snapshot() == Progress(before, aid, s).db;
      return Done(200, "Status updated successfully");
    }

    // -------------------------------------------------------------------------
    // Notifications

    /** POST /api/notifications/create. */
    method CreateNotification(header: Option<string>, user: Option<Id>, title: Option<string>,
                              message: Option<string>, kind: Option<string>) returns (r: Response<Id>)
      modifies this`notifications, this`nextId
      ensures var o := old(NotificationCreateOutcome(Snapshot(), header, user, title, message, kind));
        r == o.reply && Snapshot() == o.db
      requires Consistent(Snapshot())
      ensures Consistent(Snapshot())
    {
      NotificationCreateLaws(Snapshot(), header, user, title, message, kind);
      var g := NotificationCreateGate(header, user, title, message);
      if g.Refuse? {
        return Refused(g.why);
      }
      var id := nextId;
      Notify(NewNotification(g.payload.0, g.payload.1, g.payload.2, KindOrDefault(kind)));
      return Ok(200, "Notification created", id);
    }

    /** PATCH /api/notifications/mark-read. */
    method MarkRead(header: Option<string>, notificationId: Option<Id>) returns (r: Reply)
      modifies this`notifications
      ensures var o := old(MarkReadOutcome(Snapshot(), header, notificationId));
        r == o.reply && Snapshot() == o.db
      requires Consistent(Snapshot())
      ensures Consistent(Snapshot())
    {
      MarkReadLaws(Snapshot(), header, notificationId);
      var g := MarkReadGate(Snapshot(), header, notificationId);
      if g.Refuse? {
        return Refused(g.why);
      }
      notifications := MarkedRead(notifications, g.payload.1, g.payload.0);
      return Done(200, "Notification marked as read");
    }

    /** DELETE /api/notifications/clear. */
    method ClearNotifications(header: Option<string>) returns (r: Reply)
      modifies this`notifications
      ensures var o := old(ClearOutcome(Snapshot(), header));
        r == o.reply && Snapshot() == o.db
      requires Consistent(Snapshot())
      ensures Consistent(Snapshot())
    {
      ClearLaws(Snapshot(), header);
      var g := ClearGate(Snapshot(), header);
      if g.Refuse? {
        return Refused(g.why);
      }
      notifications := Cleared(notifications, g.payload);
      return Done(200, "All notifications cleared successfully");
    }

    // -------------------------------------------------------------------------
    // Feedback

    /** POST /api/feedback/create. */
    method SubmitFeedback(header: Option<string>, menu: Option<Id>, order: Option<Id>, rating: Option<int>,
                          comment: Option<string>, now: Instant) returns (r: Response<Id>)
      modifies this`feedback, this`nextId
      ensures var o := old(FeedbackOutcome(Snapshot(), header, menu, order, rating, comment, now));
        r == o.reply && Snapshot() == o.db
      requires Consistent(Snapshot())
      ensures Consistent(Snapshot())
    {
      FeedbackLaws(Snapshot(), header, menu, order, rating, comment, now);
      var g := FeedbackGate(Snapshot(), header, menu, order, rating);
      if g.Refuse? {
        return Refused(g.why);
      }
      var id := nextId;
      feedback := feedback[id := StoredFeedback(g.payload, comment, now)];
      nextId := nextId + 1;
      return Ok(201, "Feedback submitted successfully", id);
    }

    // -------------------------------------------------------------------------
    // Menus

    /** POST /api/menu/create. */
    method CreateMenu(header: Option<string>, input: MenuInput, now: Instant) returns (r: Response<Id>)
      modifies this`menus, this`nextId
      ensures var o := old(MenuCreateOutcome(Snapshot(), header, input, now));
        r == o.reply && Snapshot() == o.db
      requires Consistent(Snapshot())
      ensures Consistent(Snapshot())
    {
      MenuCreateLaws(Snapshot(), header, input, now);
      var g := MenuCreateGate(Snapshot(), header);
      if g.Refuse? {
        return Refused(g.why);
      }
      var id := nextId;
      menus := menus[id := MenuData(input, now)];
      nextId := nextId + 1;
      return Ok(200, "Menu / Meal created successfully", id);
    }

    /** PATCH /api/menu/update. */
    method UpdateMenu(header: Option<string>, id: Option<Id>, patch: MenuPatch) returns (r: Response<Menu>)
      modifies this`menus
      ensures var o := old(MenuUpdateOutcome(Snapshot(), header, id, patch));
        r == o.reply && Snapshot() == o.db
      requires Consistent(Snapshot())
      ensures Consistent(Snapshot())
    {
      MenuUpdateLaws(Snapshot(), header, id, patch);
      var g := MenuUpdateGate(Snapshot(), header, id);
      if g.Refuse? {
        return Refused(g.why);
      }
      var m := Patched(menus[g.payload], CleanPatch(patch));
      menus := menus[g.payload := m];
      return Ok(200, "Menu / Meal updated successfully", m);
    }

    /** DELETE /api/menu/delete. */
    method DeleteMenu(header: Option<string>, id: Option<Id>) returns (r: Reply)
      modifies this`menus
      ensures var o := old(MenuDeleteOutcome(Snapshot(), header, id));
        r == o.reply && Snapshot() == o.db
      requires Consistent(Snapshot())
      ensures Consistent(Snapshot())
    {
      MenuDeleteLaws(Snapshot(), header, id);
      var g := MenuDeleteGate(Snapshot(), header, id);
      if g.Refuse? {
        return Refused(g.why);
      }
      var message := DeletedMessage(menus[g.payload]);
      menus := menus - {g.payload};
      return Done(200, message);
    }

    // -------------------------------------------------------------------------
    // Accounts

    /** POST /api/auth/register. */
    method Register(name: Option<string>, email: Option<string>, password: Option<string>) returns (r: Response<Id>)
      modifies this`users, this`nextId
      ensures var o := old(RegisterOutcome(Snapshot(), name, email, password));
        r == o.reply && Snapshot() == o.db
      requires Consistent(Snapshot())
      ensures Consistent(Snapshot())
    {
      RegisterLaws(Snapshot(), name, email, password);
      var g := RegisterGate(Snapshot(), name, email, password);
      if g.Refuse? {
        return Refused(g.why);
      }
      var id := nextId;
      users := users[id := g.payload];
      nextId := nextId + 1;
      return Ok(200, "User registered successfully", id);
    }

    /** POST /api/admin/create-user. */
    method CreateUser(header: Option<string>, name: Option<string>, email: Option<string>,
                      password: Option<string>, role: Option<string>) returns (r: Response<UserView>)
      modifies this`users, this`nextId
      ensures var o := old(CreateUserOutcome(Snapshot(), header, name, email, password, role));
        r == o.reply && Snapshot() == o.db
      requires Consistent(Snapshot())
      ensures Consistent(Snapshot())
    {
      CreateUserLaws(Snapshot(), header, name, email, password, role);
      var g := CreateUserGate(Snapshot(), header, name, email, password, role);
      if g.Refuse? {
        return Refused(g.why);
      }
      var id := nextId;
      users := users[id := g.payload];
      nextId := nextId + 1;
      return Ok(200, role.value + " user created successfully", View(id, g.payload));
    }

    /** PATCH /api/users/update. */
    method UpdateProfile(header: Option<string>, name: Option<string>, address: Option<string>,
                         contactNumber: Option<string>, preferences: Option<string>) returns (r: Response<User>)
      modifies this`users
      ensures var o := old(ProfileOutcome(Snapshot(), header, name, address, contactNumber, preferences));
        r == o.reply && Snapshot() == o.db
      requires Consistent(Snapshot())
      ensures Consistent(Snapshot())
    {
      ProfileLaws(Snapshot(), header, name, address, contactNumber, preferences);
      var g := ProfileGate(Snapshot(), header);
      if g.Refuse? {
        return Refused(g.why);
      }
      var u := UpdatedProfile(users[g.payload], name, address, contactNumber, preferences);
      users := users[g.payload := u];
      return Ok(200, "Profile updated successfully", u);
    }

    /** `initAdmin()`, with the two environment settings as parameters. */
    method InitAdmin(email: Option<string>, password: Option<string>)
      modifies this`users, this`nextId
      ensures Snapshot() == AccountRules.InitAdmin(old(Snapshot()), email, password)
      requires Consistent(Snapshot())
      ensures Consistent(Snapshot())
    {
      InitAdminKeepsConsistent(Snapshot(), email, password);
      if !Truthy(email) || !Truthy(password) {
        return;
      }
      if FindByEmail(users, nextId, email.value).None? {
        users := users[nextId := NewUser("Super Admin", email.value, password.value, Admin)];
        nextId := nextId + 1;
      }
    }
  }
}
