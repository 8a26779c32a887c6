/** GET /api/dashboard/summary: the admin's counts, delivered revenue and the
    merged list of the newest menus and orders. */
module DashboardSummary {
  import opened Common
  import opened UserModel
  import opened MenuModel
  import opened OrderModel
  import opened Http
  import opened Db
  import opened Sorting
  import opened MealStats
  import OrderRules

  /** An entry of `recentItems`: `{ name, type, date }`. A menu without a name
      gives an entry without one. */
  datatype RecentItem = RecentItem(name: Option<string>, kind: string, date: string)

  datatype Summary = Summary(
    totalMenus: nat,
    totalUsers: nat,
    totalOrders: nat,
    totalRevenue: int,
    recentItems: seq<RecentItem>)

  function MenuEntry(m: Menu): RecentItem {
    RecentItem(m.name, "Menu", DayText(m.createdAt))
  }

  /** `Order #${o._id.toString().slice(-5)}`. */
  function OrderEntry(id: Id, o: Order): RecentItem {
    RecentItem(Some("Order #" + OrderRules.ShortNumber(id)), "Order", DayText(o.createdAt))
  }

  /** What the two `push` loops build: the menus' entries, then the orders'. */
  function RecentEntries(db: Db, menuIds: seq<Id>, orderIds: seq<Id>): (r: seq<RecentItem>)
    requires forall i :: 0 <= i < |menuIds| ==> menuIds[i] in db.menus
    requires forall i :: 0 <= i < |orderIds| ==> orderIds[i] in db.orders
  {
    MenuEntries(db, menuIds) + OrderEntries(db, orderIds)
  }

  function MenuEntries(db: Db, menuIds: seq<Id>): seq<RecentItem>
    requires forall i :: 0 <= i < |menuIds| ==> menuIds[i] in db.menus
  {
    seq(|menuIds|, i requires 0 <= i < |menuIds| => MenuEntry(db.menus[menuIds[i]]))
  }

  function OrderEntries(db: Db, orderIds: seq<Id>): seq<RecentItem>
    requires forall i :: 0 <= i < |orderIds| ==> orderIds[i] in db.orders
  {
    seq(|orderIds|, i requires 0 <= i < |orderIds| => OrderEntry(orderIds[i], db.orders[orderIds[i]]))
  }

  /** `recentMenus.forEach(m => recentItems.push(...))`, then the same for the orders. */
  method CollectRecent(db: Db, menuIds: seq<Id>, orderIds: seq<Id>) returns (recentItems: seq<RecentItem>)
    requires forall i :: 0 <= i < |menuIds| ==> menuIds[i] in db.menus
    requires forall i :: 0 <= i < |orderIds| ==> orderIds[i] in db.orders
    ensures recentItems == RecentEntries(db, menuIds, orderIds)
  {
    recentItems := [];
    var i := 0;
    while i < |menuIds|
      invariant 0 <= i <= |menuIds|
      invariant recentItems == MenuEntries(db, menuIds[..i])
    {
      MenuEntriesSnoc(db, menuIds, i);
      recentItems := recentItems + [MenuEntry(db.menus[menuIds[i]])];
      i := i + 1;
    }
    assert menuIds[..i] == menuIds;
    var j := 0;
    while j < |orderIds|
      invariant 0 <= j <= |orderIds|
      invariant recentItems == MenuEntries(db, menuIds) + OrderEntries(db, orderIds[..j])
    {
      OrderEntriesSnoc(db, orderIds, j);
      recentItems := recentItems + [OrderEntry(orderIds[j], db.orders[orderIds[j]])];
      j := j + 1;
    }
    assert orderIds[..j] == orderIds;
  }

  lemma MenuEntriesSnoc(db: Db, menuIds: seq<Id>, i: nat)
    requires i < |menuIds| && forall k :: 0 <= k < |menuIds| ==> menuIds[k] in db.menus
    ensures MenuEntries(db, menuIds[..i + 1]) == MenuEntries(db, menuIds[..i]) + [MenuEntry(db.menus[menuIds[i]])]
  {
  }

  lemma OrderEntriesSnoc(db: Db, orderIds: seq<Id>, j: nat)
    requires j < |orderIds| && forall k :: 0 <= k < |orderIds| ==> orderIds[k] in db.orders
    ensures OrderEntries(db, orderIds[..j + 1]) == OrderEntries(db, orderIds[..j]) + [OrderEntry(orderIds[j], db.orders[orderIds[j]])]
  {
  }

  /** The comparator `(a, b) => (a.date < b.date ? 1 : -1)`: later dates first. */
  predicate NewerOrSame(a: RecentItem, b: RecentItem) {
    TextLe(b.date, a.date)
  }

  lemma NewerOrSamePreorder()
    ensures TotalPreorder(NewerOrSame)
  {
    forall a: RecentItem, b: RecentItem ensures NewerOrSame(a, b) || NewerOrSame(b, a) {
      TextLeTotal(a.date, b.date);
    }
    forall a: RecentItem, b: RecentItem, c: RecentItem | NewerOrSame(a, b) && NewerOrSame(b, c)
      ensures NewerOrSame(a, c)
    {
      TextLeTransitive(c.date, b.date, a.date);
    }
  }

  function NewestMenus(db: Db): seq<Id> {
    FirstFive(NewestFirst(db.menus, db.nextId, Everything))
  }

  function NewestOrders(db: Db): seq<Id> {
    FirstFive(NewestFirst(db.orders, db.nextId, Everything))
  }

  function AllOrders(db: Db): seq<Order> {
    Docs(db.orders, OldestFirst(db.orders, db.nextId, Everything))
  }

  function SummaryWith(db: Db, recentItems: seq<RecentItem>): Summary {
    var orders := AllOrders(db);
    NewerOrSamePreorder();
    Summary(|db.menus|, |db.users|, |orders|, Revenue(orders, IsDelivered), Sort(recentItems, NewerOrSame))
  }

  function SummaryOf(db: Db): Summary {
    var menuIds := NewestMenus(db);
    var orderIds := NewestOrders(db);
    assert forall i :: 0 <= i < |menuIds| ==> menuIds[i] in db.menus;
    assert forall i :: 0 <= i < |orderIds| ==> orderIds[i] in db.orders;
    SummaryWith(db, RecentEntries(db, menuIds, orderIds))
  }

  /** 401 without a header, 500 "Server error" for a bad token, 403 "Forbidden"
      for anyone but an admin, otherwise the summary. */
  function Reply(db: Db, header: Option<string>): (r: Response<Summary>)
    ensures !r.Crash?
    ensures r.Ok? <==> Authenticate(header, db.verifier).Verified? && Authenticate(header, db.verifier).claim.role == Admin
    ensures Authenticate(header, db.verifier).Verified? && Authenticate(header, db.verifier).claim.role != Admin ==> r == Fail(403, "Forbidden")
  {
    var g := AdminCaller(header, db.verifier, Error(500, "Server error"), "Forbidden");
    if g.Refuse? then Refused(g.why) else Ok(200, "", SummaryOf(db))
  }

  method Get(db: Db, header: Option<string>) returns (r: Response<Summary>)
    ensures r == Reply(db, header)
  {
    var g := AdminCaller(header, db.verifier, Error(500, "Server error"), "Forbidden");
    if g.Refuse? {
      return Refused(g.why);
    }
    var menuIds := NewestMenus(db);
    var orderIds := NewestOrders(db);
    var recentItems := CollectRecent(db, menuIds, orderIds);
    r := Ok(200, "", SummaryWith(db, recentItems));
  }

  lemma ReplyAccess(db: Db, header: Option<string>)
    ensures !Truthy(header) ==> Reply(db, header) == Fail(401, "Unauthorized")
    ensures Authenticate(header, db.verifier).BadToken? ==> Reply(db, header) == Fail(500, "Server error")
    ensures var a := Authenticate(header, db.verifier);
      a.Verified? && a.claim.role != Admin ==> Reply(db, header) == Fail(403, "Forbidden")
    ensures var a := Authenticate(header, db.verifier);
      a.Verified? && a.claim.role == Admin ==> Reply(db, header) == Ok(200, "", SummaryOf(db))
  {
  }

  /** `totalOrders` counts every order; `totalRevenue` sums the delivered ones only,
      and so never exceeds the revenue analytics reports when prices are not negative. */
  lemma SummaryTotals(db: Db)
    ensures SummaryOf(db).totalOrders == |set k | k in db.orders && k < db.nextId|
    ensures SummaryOf(db).totalRevenue == Revenue(Counted(AllOrders(db), IsDelivered), Always)
    ensures (forall k :: k in db.orders ==> db.orders[k].totalPrice >= 0) ==>
      0 <= SummaryOf(db).totalRevenue <= Revenue(AllOrders(db), IsBillable)
  {
    NewestIsReversedOldest(db.orders, db.nextId, Everything);
    NewestFirstCount(db.orders, db.nextId, Everything);
    assert Selected(db.orders, db.nextId, Everything) == set k | k in db.orders && k < db.nextId;
    RevenueOfCounted(AllOrders(db), IsDelivered);
    if forall k :: k in db.orders ==> db.orders[k].totalPrice >= 0 {
      DeliveredWithinBillable(AllOrders(db));
    }
  }

  /** `recentItems` holds the five newest menus and the five newest orders, at most
      ten entries, sorted with later dates first. */
  lemma SummaryRecent(db: Db)
    ensures var items := SummaryOf(db).recentItems;
      && |items| == |NewestMenus(db)| + |NewestOrders(db)| <= 10
      && multiset(items) == multiset(RecentEntries(db, NewestMenus(db), NewestOrders(db)))
      && (forall i, j :: 0 <= i < j < |items| ==> TextLe(items[j].date, items[i].date))
  {
  }

  /** The menus' entries come first, each named after its menu and dated by its day. */
  lemma MenusCovered(db: Db, menuIds: seq<Id>, orderIds: seq<Id>)
    requires forall i :: 0 <= i < |menuIds| ==> menuIds[i] in db.menus
    requires forall i :: 0 <= i < |orderIds| ==> orderIds[i] in db.orders
    ensures |RecentEntries(db, menuIds, orderIds)| == |menuIds| + |orderIds|
    ensures forall i :: 0 <= i < |menuIds| ==>
      RecentEntries(db, menuIds, orderIds)[i]
        == RecentItem(db.menus[menuIds[i]].name, "Menu", DayText(db.menus[menuIds[i]].createdAt))
  {
    var a := MenuEntries(db, menuIds);
    assert forall i :: 0 <= i < |menuIds| ==> RecentEntries(db, menuIds, orderIds)[i] == a[i];
  }

  /** The orders' entries follow, each "Order #" and its short number, dated by its day. */
  lemma OrdersCovered(db: Db, menuIds: seq<Id>, orderIds: seq<Id>)
    requires forall i :: 0 <= i < |menuIds| ==> menuIds[i] in db.menus
    requires forall i :: 0 <= i < |orderIds| ==> orderIds[i] in db.orders
    ensures forall i :: 0 <= i < |orderIds| ==>
      RecentEntries(db, menuIds, orderIds)[|menuIds| + i] == OrderEntry(orderIds[i], db.orders[orderIds[i]])
  {
    var a := MenuEntries(db, menuIds);
    var b := OrderEntries(db, orderIds);
    var r := RecentEntries(db, menuIds, orderIds);
    assert r == a + b && |a| == |menuIds|;
    forall i | 0 <= i < |orderIds|
      ensures r[|menuIds| + i] == OrderEntry(orderIds[i], db.orders[orderIds[i]])
    {
      OrderEntryAt(db, orderIds, i);
      AppendedAt(a, b, i);
    }
  }

  lemma AppendedAt<T>(a: seq<T>, b: seq<T>, i: nat)
    requires i < |b|
    ensures (a + b)[|a| + i] == b[i]
  {
  }

  lemma OrderEntryAt(db: Db, orderIds: seq<Id>, i: nat)
    requires forall k :: 0 <= k < |orderIds| ==> orderIds[k] in db.orders
    requires i < |orderIds|
    ensures |OrderEntries(db, orderIds)| == |orderIds|
    ensures OrderEntries(db, orderIds)[i] == OrderEntry(orderIds[i], db.orders[orderIds[i]])
  {
  }
}
