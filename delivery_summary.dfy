/** GET /api/delivery/summary: totals over the orders assigned to the caller. */
module DeliverySummary {
  import opened Common
  import opened MenuModel
  import opened OrderModel
  import opened Http
  import opened Db
  import opened Grouping
  import opened MealStats

  datatype Summary = Summary(
    totalOrders: nat,
    totalSpent: int,
    favoriteMeal: string,
    recentOrders: seq<RecentOrder>)

  /** `Order.find({ assignedTo: decoded.id })`. */
  function AssignedTo(caller: Id): Order -> bool {
    (o: Order) => o.assignedTo == Some(caller)
  }

  function AssignedIds(db: Db, caller: Id): seq<Id> {
    NewestFirst(db.orders, db.nextId, AssignedTo(caller))
  }

  function AssignedOrders(db: Db, caller: Id): seq<Order> {
    Docs(db.orders, AssignedIds(db, caller))
  }

  /** `isPopulatedMenu(item.menuId)` reads `.name` of the populated value, which is
      `null` when the menu was deleted: that item makes the handler throw. */
  predicate Populated(menus: map<Id, Menu>, items: seq<OrderItem>) {
    forall i :: 0 <= i < |items| ==> items[i].menuId in menus
  }

  /** The conditions under which the handler body runs to the end: every counted
      item's menu still exists, and each of the five newest orders has a first item
      (`firstItem.menuId` is read unguarded). */
  predicate Computable(db: Db, caller: Id) {
    && Populated(db.menus, AllItems(AssignedOrders(db, caller)))
    && forall i :: 0 <= i < |FirstFive(AssignedOrders(db, caller))| ==> FirstFive(AssignedOrders(db, caller))[i].items != []
  }

  /** One `recentOrders` line: the first item's populated name, or "Unknown" when the
      menu has no name. An empty name stays empty here. */
  function Line(menus: map<Id, Menu>, id: Id, o: Order): RecentOrder
    requires o.items != []
  {
    RecentOrder(id, MenuLabel(MealKey(menus, o.items[0]), |o.items|), o.totalPrice, o.createdAt, StatusLabel(o.status))
  }

  function Lines(db: Db, ids: seq<Id>): seq<RecentOrder>
    requires forall i :: 0 <= i < |ids| ==> ids[i] in db.orders && db.orders[ids[i]].items != []
  {
    seq(|ids|, i requires 0 <= i < |ids| => Line(db.menus, ids[i], db.orders[ids[i]]))
  }

  function SummaryWith(db: Db, caller: Id, mealCount: seq<Group<string>>): Summary
    requires Computable(db, caller)
  {
    var ids := AssignedIds(db, caller);
    var orders := AssignedOrders(db, caller);
    assert forall i :: 0 <= i < |FirstFive(ids)| ==> FirstFive(ids)[i] == ids[i] && FirstFive(orders)[i] == orders[i];
    Summary(|orders|, Revenue(orders, Always), Favorite(mealCount), Lines(db, FirstFive(ids)))
  }

  function SummaryOf(db: Db, caller: Id): Summary
    requires Computable(db, caller)
  {
    SummaryWith(db, caller, GroupAll(MealEntries(db.menus, AssignedOrders(db, caller))))
  }

  /** 401 without a header; 500 "Server error" for a bad token or a body that throws;
      otherwise the summary. Any role may ask. */
  function Reply(db: Db, header: Option<string>): (r: Response<Summary>)
    ensures !r.Crash?
    ensures r.Ok? <==> Authenticate(header, db.verifier).Verified? && Computable(db, Authenticate(header, db.verifier).claim.id)
    ensures r.Ok? ==> r.body == SummaryOf(db, Authenticate(header, db.verifier).claim.id)
  {
    var g := Caller(header, db.verifier, Error(500, "Server error"));
    if g.Refuse? then Refused(g.why)
    else if !Computable(db, g.payload.id) then Fail(500, "Server error")
    else Ok(200, "", SummaryOf(db, g.payload.id))
  }

  method Get(db: Db, header: Option<string>) returns (r: Response<Summary>)
    ensures r == Reply(db, header)
  {
    var g := Caller(header, db.verifier, Error(500, "Server error"));
    if g.Refuse? {
      return Refused(g.why);
    }
    var caller := g.payload.id;
    if !Computable(db, caller) {
      return Fail(500, "Server error");
    }
    var mealCount := CountMeals(db.menus, AssignedOrders(db, caller));
    r := Ok(200, "", SummaryWith(db, caller, mealCount));
  }

  /** Every valid token gets the summary, whatever its role, unless the body throws. */
  lemma ReplyAccess(db: Db, header: Option<string>)
    ensures !Truthy(header) ==> Reply(db, header) == Fail(401, "Unauthorized")
    ensures Authenticate(header, db.verifier).BadToken? ==> Reply(db, header) == Fail(500, "Server error")
    ensures var a := Authenticate(header, db.verifier);
      a.Verified? && Computable(db, a.claim.id) ==> Reply(db, header) == Ok(200, "", SummaryOf(db, a.claim.id))
  {
  }

  /** A deleted menu behind any assigned item turns the reply into 500. */
  lemma DeletedMenuFails(db: Db, header: Option<string>, i: nat)
    requires Authenticate(header, db.verifier).Verified?
    requires var items := AllItems(AssignedOrders(db, Authenticate(header, db.verifier).claim.id));
      i < |items| && items[i].menuId !in db.menus
    ensures Reply(db, header) == Fail(500, "Server error")
  {
  }

  /** `totalOrders` counts the orders assigned to the caller. */
  lemma SummaryCount(db: Db, caller: Id)
    requires Computable(db, caller)
    ensures SummaryOf(db, caller).totalOrders
      == |set k | k in db.orders && k < db.nextId && db.orders[k].assignedTo == Some(caller)|
  {
    NewestFirstCount(db.orders, db.nextId, AssignedTo(caller));
    assert Selected(db.orders, db.nextId, AssignedTo(caller))
      == set k | k in db.orders && k < db.nextId && db.orders[k].assignedTo == Some(caller);
  }

  predicate NotBillable(s: OrderStatus) {
    !IsBillable(s)
  }

  /** `totalSpent` sums the prices of all assigned orders, whatever their status:
      the billable ones and the others alike. */
  lemma SummarySpent(db: Db, caller: Id)
    requires Computable(db, caller)
    ensures SummaryOf(db, caller).totalSpent
      == Revenue(AssignedOrders(db, caller), IsBillable) + Revenue(AssignedOrders(db, caller), NotBillable)
  {
    BillableSplit(AssignedOrders(db, caller));
  }

  lemma {:induction false} BillableSplit(orders: seq<Order>)
    ensures Revenue(orders, Always) == Revenue(orders, IsBillable) + Revenue(orders, NotBillable)
  {
    if orders != [] {
      BillableSplit(orders[..|orders| - 1]);
    }
  }

  lemma SummaryFavorite(db: Db, caller: Id)
    requires Computable(db, caller)
    ensures var e := MealEntries(db.menus, AssignedOrders(db, caller));
      && (e == [] ==> SummaryOf(db, caller).favoriteMeal == "N/A")
      && (SummaryOf(db, caller).favoriteMeal != "N/A" ==> MostOrdered(e, SummaryOf(db, caller).favoriteMeal))
  {
    FavoriteLaws(MealEntries(db.menus, AssignedOrders(db, caller)));
  }

  /** `recentOrders` is the newest five assigned orders, in order, one line each. */
  lemma SummaryRecent(db: Db, caller: Id)
    requires Computable(db, caller)
    ensures var ids := AssignedIds(db, caller);
      var recent := SummaryOf(db, caller).recentOrders;
      && |recent| == (if |ids| < 5 then |ids| else 5)
      && (forall i :: 0 <= i < |recent| ==>
            && recent[i].id == ids[i] && ids[i] in db.orders && db.orders[ids[i]].assignedTo == Some(caller)
            && db.orders[ids[i]].items != [] && recent[i] == Line(db.menus, ids[i], db.orders[ids[i]]))
  {
    var five := FirstFive(AssignedIds(db, caller));
    FiveHaveItems(db, caller);
    assert SummaryOf(db, caller).recentOrders == Lines(db, five);
  }

  /** The five newest assigned orders are stored and, by `Computable`, have items. */
  lemma FiveHaveItems(db: Db, caller: Id)
    requires Computable(db, caller)
    ensures var ids := AssignedIds(db, caller);
      forall i :: 0 <= i < |FirstFive(ids)| ==>
        FirstFive(ids)[i] == ids[i] && ids[i] in db.orders && db.orders[ids[i]].items != []
  {
    var ids := AssignedIds(db, caller);
    var orders := AssignedOrders(db, caller);
    assert forall i :: 0 <= i < |FirstFive(ids)| ==> FirstFive(ids)[i] == ids[i] && FirstFive(orders)[i] == orders[i];
  }

  /** A line carries the order's id and price and is named after the first item's
      meal, with " +N more" when the order has N further items. */
  lemma LineLaws(menus: map<Id, Menu>, id: Id, o: Order)
    requires o.items != []
    ensures var line := Line(menus, id, o);
      && line.id == id && line.price == o.totalPrice && line.date == o.createdAt
      && (|o.items| == 1 ==> line.menuName == MealKey(menus, o.items[0]))
      && (|o.items| > 1 ==> line.menuName == MealKey(menus, o.items[0]) + " +" + NatText(|o.items| - 1) + " more")
      && line.status == StatusLabel(o.status)
  {
  }
}
