/** The read-only listing handlers and login: each selects documents from a
    snapshot of the collections and answers with them, never writing. A listing
    answers with the ids of the documents it returns, in the order it returns them. */
module Queries {
  import opened Common
  import opened UserModel
  import opened OrderModel
  import opened AssignmentModel
  import opened NotificationModel
  import opened Http
  import opened Db
  import opened Sorting
  import CustomerSummary

  // ---------------------------------------------------------------------------
  // GET /api/orders/list

  /** A customer sees `Order.find({ user: decoded.id })`; every other role sees
      `Order.find()`; both `sort({ createdAt: -1 })`. */
  function OrdersList(db: Db, header: Option<string>): (r: Response<seq<Id>>)
    ensures r.Ok? <==> Authenticate(header, db.verifier).Verified?
    ensures r.Ok? ==> forall i :: 0 <= i < |r.body| ==>
      r.body[i] in db.orders
      && (Authenticate(header, db.verifier).claim.role == Customer ==> db.orders[r.body[i]].user == Authenticate(header, db.verifier).claim.id)
    ensures r.Ok? ==> forall i, j :: 0 <= i < j < |r.body| ==> r.body[i] > r.body[j]
  {
    var g := Caller(header, db.verifier, Error(500, "Server error"));
    if g.Refuse? then Refused(g.why)
    else if g.payload.role == Customer then Ok(200, "", NewestFirst(db.orders, db.nextId, CustomerSummary.PlacedBy(g.payload.id)))
    else Ok(200, "", NewestFirst(db.orders, db.nextId, Everything))
  }

  /** A customer gets exactly their own orders, anyone else every order; newest
      first either way. */
  lemma OrdersListLaws(db: Db, header: Option<string>)
    ensures !Truthy(header) ==> OrdersList(db, header) == Fail(401, "Unauthorized")
    ensures Authenticate(header, db.verifier).BadToken? ==> OrdersList(db, header) == Fail(500, "Server error")
    ensures Authenticate(header, db.verifier).Verified? ==>
      var c := Authenticate(header, db.verifier).claim;
      var r := OrdersList(db, header);
      && r.Ok?
      && (forall k :: k in r.body <==>
            k in db.orders && k < db.nextId && (c.role == Customer ==> db.orders[k].user == c.id))
      && (forall i, j :: 0 <= i < j < |r.body| ==> r.body[i] > r.body[j])
  {
    var a := Authenticate(header, db.verifier);
    if a.Verified? {
      NewestFirstComplete(db.orders, db.nextId, CustomerSummary.PlacedBy(a.claim.id));
      NewestFirstComplete(db.orders, db.nextId, Everything);
    }
  }

  // ---------------------------------------------------------------------------
  // GET /api/delivery/my-orders

  /** `DeliveryAssignment.find({ deliveryBoy: decoded.id })`. */
  function DeliveredBy(caller: Id): Assignment -> bool {
    (a: Assignment) => a.deliveryBoy == caller
  }

  /** Newest first: ids strictly decreasing. */
  predicate Descending(ids: seq<Id>) {
    forall i, j :: 0 <= i < j < |ids| ==> ids[i] > ids[j]
  }

  /** `ids.filter(...)`: the ids `keep` accepts, in their order. */
  function Filtered(ids: seq<Id>, keep: Id -> bool): (r: seq<Id>)
    ensures |r| <= |ids|
    ensures forall k :: k in r <==> k in ids && keep(k)
  {
    if ids == [] then []
    else
      var rest := Filtered(ids[1..], keep);
      assert forall k :: k in ids <==> k == ids[0] || k in ids[1..];
      if keep(ids[0]) then [ids[0]] + rest else rest
  }

  /** Filtering keeps the order it is given. */
  lemma {:induction false} FilteredDescending(ids: seq<Id>, keep: Id -> bool)
    requires Descending(ids)
    ensures Descending(Filtered(ids, keep))
  {
    if ids != [] {
      var rest := Filtered(ids[1..], keep);
      assert Descending(ids[1..]) by {
        forall i, j | 0 <= i < j < |ids| - 1 ensures ids[1..][i] > ids[1..][j] {
          assert ids[1..][i] == ids[i + 1] && ids[1..][j] == ids[j + 1];
        }
      }
      FilteredDescending(ids[1..], keep);
      if keep(ids[0]) {
        var r := [ids[0]] + rest;
        forall i, j | 0 <= i < j < |r| ensures r[i] > r[j] {
          if i > 0 {
            assert r[i] == rest[i - 1] && r[j] == rest[j - 1];
          } else {
            assert r[j] in rest;
            var m :| 1 <= m < |ids| && ids[m] == r[j];
          }
        }
      }
    }
  }

  /** `assignments.filter(a => a.order)`: the populated order is null once the
      order is gone. */
  function HasOrder(db: Db): Id -> bool {
    (k: Id) => k in db.assignments && db.assignments[k].order in db.orders
  }

  function MyOrders(db: Db, header: Option<string>): (r: Response<seq<Id>>)
    ensures r.Ok? <==> Authenticate(header, db.verifier).Verified? && Authenticate(header, db.verifier).claim.role == Delivery
    ensures r.Ok? ==> forall i :: 0 <= i < |r.body| ==>
      r.body[i] in db.assignments && db.assignments[r.body[i]].deliveryBoy == Authenticate(header, db.verifier).claim.id
      && db.assignments[r.body[i]].order in db.orders
  {
    var g := Caller(header, db.verifier, Error(500, "Server error"));
    if g.Refuse? then Refused(g.why)
    else if g.payload.role != Delivery then Fail(403, "Access denied")
    else
      var ids := NewestFirst(db.assignments, db.nextId, DeliveredBy(g.payload.id));
      assert forall k :: k in ids ==> k in db.assignments && db.assignments[k].deliveryBoy == g.payload.id;
      var kept := Filtered(ids, HasOrder(db));
      assert forall i :: 0 <= i < |kept| ==> kept[i] in ids && HasOrder(db)(kept[i]);
      Ok(200, "", kept)
  }

  /** Only a delivery user gets a list: exactly the assignments made to them whose
      order still exists, newest first. */
  lemma MyOrdersLaws(db: Db, header: Option<string>)
    ensures !Truthy(header) ==> MyOrders(db, header) == Fail(401, "Unauthorized")
    ensures Authenticate(header, db.verifier).BadToken? ==> MyOrders(db, header) == Fail(500, "Server error")
    ensures var a := Authenticate(header, db.verifier);
      a.Verified? && a.claim.role != Delivery ==> MyOrders(db, header) == Fail(403, "Access denied")
    ensures var a := Authenticate(header, db.verifier);
      a.Verified? && a.claim.role == Delivery ==>
        var r := MyOrders(db, header);
        && r.Ok?
        && (forall k :: k in r.body <==>
              k in db.assignments && k < db.nextId && db.assignments[k].deliveryBoy == a.claim.id
              && db.assignments[k].order in db.orders)
        && (forall i, j :: 0 <= i < j < |r.body| ==> r.body[i] > r.body[j])
  {
    var a := Authenticate(header, db.verifier);
    if a.Verified? && a.claim.role == Delivery {
      NewestFirstComplete(db.assignments, db.nextId, DeliveredBy(a.claim.id));
      FilteredDescending(NewestFirst(db.assignments, db.nextId, DeliveredBy(a.claim.id)), HasOrder(db));
    }
  }

  // ---------------------------------------------------------------------------
  // GET /api/notifications/list

  /** `Notification.find({ user: decoded.id })`. */
  function AddressedTo(caller: Id): Notification -> bool {
    (n: Notification) => n.user == caller
  }

  /** No try/catch: a token that does not verify escapes the handler. No role check. */
  function NotificationsList(db: Db, header: Option<string>): (r: Response<seq<Id>>)
    ensures r.Ok? <==> Authenticate(header, db.verifier).Verified?
    ensures r.Ok? ==> forall i :: 0 <= i < |r.body| ==>
      r.body[i] in db.notifications && db.notifications[r.body[i]].user == Authenticate(header, db.verifier).claim.id
  {
    var g := Caller(header, db.verifier, Thrown);
    if g.Refuse? then Refused(g.why)
    else Ok(200, "", NewestFirst(db.notifications, db.nextId, AddressedTo(g.payload.id)))
  }

  /** Any verified caller gets exactly their own notifications, newest first. */
  lemma NotificationsListLaws(db: Db, header: Option<string>)
    ensures !Truthy(header) ==> NotificationsList(db, header) == Fail(401, "Unauthorized")
    ensures Authenticate(header, db.verifier).BadToken? ==> NotificationsList(db, header).Crash?
    ensures Authenticate(header, db.verifier).Verified? ==>
      var c := Authenticate(header, db.verifier).claim;
      var r := NotificationsList(db, header);
      && r.Ok?
      && (forall k :: k in r.body <==> k in db.notifications && k < db.nextId && db.notifications[k].user == c.id)
      && (forall i, j :: 0 <= i < j < |r.body| ==> r.body[i] > r.body[j])
  {
    var a := Authenticate(header, db.verifier);
    if a.Verified? {
      NewestFirstComplete(db.notifications, db.nextId, AddressedTo(a.claim.id));
    }
  }

  // ---------------------------------------------------------------------------
  // GET /api/feedback/list

  function FeedbackList(db: Db, header: Option<string>): (r: Response<seq<Id>>)
    ensures r.Ok? <==> Authenticate(header, db.verifier).Verified? && Authenticate(header, db.verifier).claim.role == Admin
    ensures r.Ok? ==> forall i :: 0 <= i < |r.body| ==> r.body[i] in db.feedback
  {
    var g := AdminCaller(header, db.verifier, Error(500, "Server error"), "Access denied: only admins can view feedback");
    if g.Refuse? then Refused(g.why)
    else Ok(200, "", NewestFirst(db.feedback, db.nextId, Everything))
  }

  /** Only an admin gets the list: every feedback, newest first. */
  lemma FeedbackListLaws(db: Db, header: Option<string>)
    ensures !Truthy(header) ==> FeedbackList(db, header) == Fail(401, "Unauthorized")
    ensures Authenticate(header, db.verifier).BadToken? ==> FeedbackList(db, header) == Fail(500, "Server error")
    ensures var a := Authenticate(header, db.verifier);
      a.Verified? && a.claim.role != Admin ==>
        FeedbackList(db, header) == Fail(403, "Access denied: only admins can view feedback")
    ensures var a := Authenticate(header, db.verifier);
      a.Verified? && a.claim.role == Admin ==>
        var r := FeedbackList(db, header);
        && r.Ok?
        && (forall k :: k in r.body <==> k in db.feedback && k < db.nextId)
        && (forall i, j :: 0 <= i < j < |r.body| ==> r.body[i] > r.body[j])
  {
    NewestFirstComplete(db.feedback, db.nextId, Everything);
  }

  // ---------------------------------------------------------------------------
  // GET /api/users/list

  /** `sort({ name: 1 })`. */
  predicate NameFirst(a: UserView, b: UserView) {
    TextLe(a.name, b.name)
  }

  lemma NameFirstPreorder()
    ensures TotalPreorder(NameFirst)
  {
    forall a: UserView, b: UserView ensures NameFirst(a, b) || NameFirst(b, a) {
      TextLeTotal(a.name, b.name);
    }
    forall a: UserView, b: UserView, c: UserView | NameFirst(a, b) && NameFirst(b, c)
      ensures NameFirst(a, c)
    {
      TextLeTransitive(a.name, b.name, c.name);
    }
  }

  /** `User.find({ role: 'delivery' }, 'name email role')`: the projection keeps the
      id, name, email and role. */
  function DeliveryViews(db: Db): (r: seq<UserView>) {
    var ids := UsersWithRole(db.users, db.nextId, Delivery);
    UsersWithRoleLaws(db.users, db.nextId, Delivery);
    seq(|ids|, i requires 0 <= i < |ids| => View(ids[i], db.users[ids[i]]))
  }

  function UsersList(db: Db, header: Option<string>): (r: Response<seq<UserView>>)
    ensures r.Ok? <==> Authenticate(header, db.verifier).Verified? && Authenticate(header, db.verifier).claim.role == Admin
    ensures r.Ok? ==> forall i, j :: 0 <= i < j < |r.body| ==> TextLe(r.body[i].name, r.body[j].name)
  {
    var g := AdminCaller(header, db.verifier, Error(500, "Server error while fetching delivery boys"),
      "Access denied: only admins can view delivery boys");
    if g.Refuse? then Refused(g.why)
    else
      NameFirstPreorder();
      Ok(200, "", Sort(DeliveryViews(db), NameFirst))
  }

  lemma UsersListAccess(db: Db, header: Option<string>)
    ensures !Truthy(header) ==> UsersList(db, header) == Fail(401, "Unauthorized")
    ensures Authenticate(header, db.verifier).BadToken? ==>
      UsersList(db, header) == Fail(500, "Server error while fetching delivery boys")
    ensures var a := Authenticate(header, db.verifier);
      a.Verified? && a.claim.role != Admin ==>
        UsersList(db, header) == Fail(403, "Access denied: only admins can view delivery boys")
  {
  }

  /** An admin gets every delivery user once, as their stored name, email and
      role, sorted by name. */
  lemma UsersListLaws(db: Db, header: Option<string>)
    requires Authenticate(header, db.verifier).Verified? && Authenticate(header, db.verifier).claim.role == Admin
    ensures var r := UsersList(db, header);
      && r.Ok?
      && (forall i, j :: 0 <= i < j < |r.body| ==> TextLe(r.body[i].name, r.body[j].name))
      && (forall v :: v in r.body ==>
            v.id in db.users && v.id < db.nextId && v.role == Delivery && v == View(v.id, db.users[v.id]))
      && (forall k :: k in db.users && k < db.nextId && db.users[k].role == Delivery ==>
            View(k, db.users[k]) in r.body)
      && multiset(r.body) == multiset(DeliveryViews(db))
  {
    var views := DeliveryViews(db);
    NameFirstPreorder();
    var sorted := Sort(views, NameFirst);
    assert UsersList(db, header) == Ok(200, "", sorted);
    DeliveryViewsLaws(db);
    forall v | v in sorted ensures v in views {
      assert v in multiset(sorted);
    }
    forall k | k in db.users && k < db.nextId && db.users[k].role == Delivery
      ensures View(k, db.users[k]) in sorted
    {
      assert View(k, db.users[k]) in multiset(views);
    }
  }

  /** The projection holds one view per delivery user, as stored. */
  lemma DeliveryViewsLaws(db: Db)
    ensures var views := DeliveryViews(db);
      && (forall v :: v in views ==>
            v.id in db.users && v.id < db.nextId && v.role == Delivery && v == View(v.id, db.users[v.id]))
      && (forall k :: k in db.users && k < db.nextId && db.users[k].role == Delivery ==> View(k, db.users[k]) in views)
  {
    var views := DeliveryViews(db);
    var ids := UsersWithRole(db.users, db.nextId, Delivery);
    UsersWithRoleLaws(db.users, db.nextId, Delivery);
    assert forall i :: 0 <= i < |views| ==> views[i] == View(ids[i], db.users[ids[i]]);
    forall k | k in db.users && k < db.nextId && db.users[k].role == Delivery ensures View(k, db.users[k]) in views {
      var j :| 0 <= j < |ids| && ids[j] == k;
      assert views[j] == View(k, db.users[k]);
    }
  }

  // ---------------------------------------------------------------------------
  // GET /api/users/delivery-boys

  /** `select('name email')`: the id, name and email, nothing else. */
  datatype Contact = Contact(id: Id, name: string, email: string)

  function DeliveryBoys(db: Db, header: Option<string>): (r: Response<seq<Contact>>)
    ensures r.Ok? <==> Authenticate(header, db.verifier).Verified? && Authenticate(header, db.verifier).claim.role == Admin
    ensures r.Ok? ==> forall i :: 0 <= i < |r.body| ==>
      r.body[i].id in db.users && db.users[r.body[i].id].role == Delivery
  {
    var g := AdminCaller(header, db.verifier, Error(500, "Server error"), "Forbidden");
    if g.Refuse? then Refused(g.why)
    else
      var ids := UsersWithRole(db.users, db.nextId, Delivery);
      UsersWithRoleLaws(db.users, db.nextId, Delivery);
      Ok(200, "", seq(|ids|, i requires 0 <= i < |ids| => Contact(ids[i], db.users[ids[i]].name, db.users[ids[i]].email)))
  }

  /** An admin gets every delivery user once, oldest first, as id, name and email. */
  lemma DeliveryBoysLaws(db: Db, header: Option<string>)
    ensures !Truthy(header) ==> DeliveryBoys(db, header) == Fail(401, "Unauthorized")
    ensures Authenticate(header, db.verifier).BadToken? ==> DeliveryBoys(db, header) == Fail(500, "Server error")
    ensures var a := Authenticate(header, db.verifier);
      a.Verified? && a.claim.role != Admin ==> DeliveryBoys(db, header) == Fail(403, "Forbidden")
    ensures var a := Authenticate(header, db.verifier);
      a.Verified? && a.claim.role == Admin ==>
        var r := DeliveryBoys(db, header);
        && r.Ok?
        && (forall i :: 0 <= i < |r.body| ==>
              var c := r.body[i];
              && c.id in db.users && c.id < db.nextId && db.users[c.id].role == Delivery
              && c.name == db.users[c.id].name && c.email == db.users[c.id].email)
        && (forall k :: k in db.users && k < db.nextId && db.users[k].role == Delivery ==>
              exists i :: 0 <= i < |r.body| && r.body[i].id == k)
        && (forall i, j :: 0 <= i < j < |r.body| ==> r.body[i].id < r.body[j].id)
  {
    var a := Authenticate(header, db.verifier);
    if a.Verified? && a.claim.role == Admin {
      var ids := UsersWithRole(db.users, db.nextId, Delivery);
      UsersWithRoleLaws(db.users, db.nextId, Delivery);
      var body := DeliveryBoys(db, header).body;
      forall k | k in db.users && k < db.nextId && db.users[k].role == Delivery
        ensures exists i :: 0 <= i < |body| && body[i].id == k
      {
        var i :| 0 <= i < |ids| && ids[i] == k;
        assert body[i].id == k;
      }
    }
  }

  // ---------------------------------------------------------------------------
  // POST /api/auth/login

  /** What a successful login answers: the token `generateToken` signs, here the
      claim it carries, and the user without the password. */
  datatype Session = Session(token: Claim, user: UserView)

  /** The route has no try/catch: `comparePassword` rejects a missing password
      once a user is found, and that escapes. */
  function Login(db: Db, email: Option<string>, password: Option<string>): (r: Response<Session>)
    ensures r.Fail? ==> r == Fail(401, "Invalid credentials")
    ensures r.Ok? ==>
      && email.Some? && password.Some?
      && r.body.user.id in db.users && r.body.user.email == email.value
      && Matches(password.value, db.users[r.body.user.id].password)
  {
    var found := FindByEmailField(db.users, db.nextId, email);
    if found.None? then Fail(401, "Invalid credentials")
    else
      var u := db.users[found.value];
      if password.None? then Crash
      else if !Matches(password.value, u.password) then Fail(401, "Invalid credentials")
      else Ok(200, "User logged in successfully", Session(Claim(found.value, u.email, u.role), View(found.value, u)))
  }

  /** With unique emails, login succeeds exactly when some user holds the email and
      the password hashes to its digest; the token and the view are that user's.
      An unknown email and a wrong password give the same reply, and a body with
      no password fails with an exception once the email is found. */
  lemma LoginLaws(db: Db, email: Option<string>, password: Option<string>)
    requires UniqueEmails(db.users)
    ensures Login(db, email, password).Ok? <==>
      email.Some? && password.Some? &&
      exists k :: k in db.users && k < db.nextId && db.users[k].email == email.value
                  && db.users[k].password == Hash(password.value)
    ensures Login(db, email, password).Crash? <==>
      email.Some? && password.None? &&
      exists k :: k in db.users && k < db.nextId && db.users[k].email == email.value
    ensures !Login(db, email, password).Ok? && !Login(db, email, password).Crash? ==>
      Login(db, email, password) == Fail(401, "Invalid credentials")
    ensures Login(db, email, password).Ok? ==>
      var s := Login(db, email, password).body;
      && s.user.id in db.users && s.user.email == email.value
      && db.users[s.user.id].password == Hash(password.value)
      && s.user == View(s.user.id, db.users[s.user.id])
      && s.token == Claim(s.user.id, email.value, s.user.role)
  {
    var found := FindByEmailField(db.users, db.nextId, email);
    if found.Some? && password.Some? && !Matches(password.value, db.users[found.value].password) {
      forall k | k in db.users && k < db.nextId && db.users[k].email == email.value
        ensures db.users[k].password != Hash(password.value)
      {
        assert k == found.value;
      }
    }
  }
}
