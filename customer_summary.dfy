/** GET /api/customer: the signed-in user's own dashboard (order count, spending,
    mean rating, favourite meal and the five newest orders). */
module CustomerSummary {
  import opened Common
  import opened MenuModel
  import opened OrderModel
  import opened FeedbackModel
  import opened Http
  import opened Db
  import opened Grouping
  import opened MealStats

  datatype Summary = Summary(
    totalOrders: nat,
    totalSpent: int,
    avgRating: real,
    favoriteMeal: string,
    recentOrders: seq<RecentOrder>)

  /** `Order.find({ user: decoded.id })`. */
  function PlacedBy(caller: Id): Order -> bool {
    (o: Order) => o.user == caller
  }

  /** The caller's orders, newest first. */
  function OwnOrderIds(db: Db, caller: Id): seq<Id> {
    NewestFirst(db.orders, db.nextId, PlacedBy(caller))
  }

  function OwnOrders(db: Db, caller: Id): seq<Order> {
    Docs(db.orders, OwnOrderIds(db, caller))
  }

  /** The ratings of `Feedback.find({ user: decoded.id })`. */
  function OwnRatings(db: Db, caller: Id): seq<int> {
    var ids := OldestFirst(db.feedback, db.nextId, (f: Feedback) => f.user == caller);
    seq(|ids|, i requires 0 <= i < |ids| => db.feedback[ids[i]].rating)
  }

  function Sum(xs: seq<int>): int {
    if xs == [] then 0 else Sum(xs[..|xs| - 1]) + xs[|xs| - 1]
  }

  /** `feedbacks.length > 0 ? sum / feedbacks.length : 0`, before `toFixed(1)`. */
  function Mean(xs: seq<int>): (m: real)
    ensures xs == [] ==> m == 0.0
    ensures xs != [] ==> m * (|xs| as real) == Sum(xs) as real
  {
    if xs == [] then 0.0 else Sum(xs) as real / (|xs| as real)
  }

  /** `item.menuId?.name || "Unknown"`: an empty name is shown as "Unknown" too. */
  function ShownName(menus: map<Id, Menu>, item: OrderItem): string {
    var k := MealKey(menus, item);
    if k == "" then "Unknown" else k
  }

  /** One `recentOrders` line; an order without items is named "Unknown". */
  function Line(menus: map<Id, Menu>, id: Id, o: Order): RecentOrder {
    var first := if o.items == [] then "Unknown" else ShownName(menus, o.items[0]);
    RecentOrder(id, MenuLabel(first, |o.items|), o.totalPrice, o.createdAt, StatusLabel(o.status))
  }

  function Lines(db: Db, ids: seq<Id>): seq<RecentOrder>
    requires forall i :: 0 <= i < |ids| ==> ids[i] in db.orders
  {
    seq(|ids|, i requires 0 <= i < |ids| => Line(db.menus, ids[i], db.orders[ids[i]]))
  }

  /** The summary, given the `mealCount` record the loops fill. */
  function SummaryWith(db: Db, caller: Id, mealCount: seq<Group<string>>): Summary {
    var orders := OwnOrders(db, caller);
    Summary(|orders|, Revenue(orders, IsBillable), Mean(OwnRatings(db, caller)), Favorite(mealCount),
      RecentOrders(db, caller))
  }

  /** `recentOrders`: the lines of the first five of the caller's orders. */
  function RecentOrders(db: Db, caller: Id): seq<RecentOrder> {
    var five := FirstFive(OwnOrderIds(db, caller));
    assert forall i :: 0 <= i < |five| ==> five[i] == OwnOrderIds(db, caller)[i];
    Lines(db, five)
  }

  function SummaryOf(db: Db, caller: Id): Summary {
    SummaryWith(db, caller, GroupAll(MealEntries(db.menus, OwnOrders(db, caller))))
  }

  /** The reply: 401 without a header, 500 "Server error" for a bad token (the
      catch), and otherwise the summary. There is no role check. */
  function Reply(db: Db, header: Option<string>): (r: Response<Summary>)
    ensures !r.Crash?
    ensures r.Ok? <==> Authenticate(header, db.verifier).Verified?
    ensures r.Ok? ==> r.body == SummaryOf(db, Authenticate(header, db.verifier).claim.id)
  {
    var g := Caller(header, db.verifier, Error(500, "Server error"));
    if g.Refuse? then Refused(g.why) else Ok(200, "", SummaryOf(db, g.payload.id))
  }

  /** The handler: the queries and folds, with the `mealCount` record filled by the
      nested loops. */
  method Get(db: Db, header: Option<string>) returns (r: Response<Summary>)
    ensures r == Reply(db, header)
  {
    var g := Caller(header, db.verifier, Error(500, "Server error"));
    if g.Refuse? {
      return Refused(g.why);
    }
    var caller := g.payload.id;
    var mealCount := CountMeals(db.menus, OwnOrders(db, caller));
    r := Ok(200, "", SummaryWith(db, caller, mealCount));
  }

  /** Who gets a summary: everyone with a valid token, whatever the role. */
  lemma ReplyAccess(db: Db, header: Option<string>)
    ensures !Truthy(header) ==> Reply(db, header) == Fail(401, "Unauthorized")
    ensures Authenticate(header, db.verifier).BadToken? ==> Reply(db, header) == Fail(500, "Server error")
    ensures Authenticate(header, db.verifier).Verified? ==>
      Reply(db, header) == Ok(200, "", SummaryOf(db, Authenticate(header, db.verifier).claim.id))
  {
  }

  /** The counts and sums: `totalOrders` is the number of the caller's orders,
      `totalSpent` sums the delivered, assigned and accepted ones, and with no
      feedback the mean rating is 0. */
  lemma SummaryTotals(db: Db, caller: Id)
    ensures SummaryOf(db, caller).totalOrders == |set k | k in db.orders && k < db.nextId && db.orders[k].user == caller|
    ensures SummaryOf(db, caller).totalSpent == Revenue(Counted(OwnOrders(db, caller), IsBillable), Always)
    ensures (forall k :: k in db.feedback && k < db.nextId ==> db.feedback[k].user != caller) ==>
      SummaryOf(db, caller).avgRating == 0.0
  {
    NewestFirstCount(db.orders, db.nextId, PlacedBy(caller));
    assert Selected(db.orders, db.nextId, PlacedBy(caller))
      == set k | k in db.orders && k < db.nextId && db.orders[k].user == caller;
    RevenueOfCounted(OwnOrders(db, caller), IsBillable);
  }

  /** The favourite meal is "N/A" without items, and otherwise a most-ordered meal
      (unless that meal's own name is "" or "N/A"). */
  lemma SummaryFavorite(db: Db, caller: Id)
    ensures var e := MealEntries(db.menus, OwnOrders(db, caller));
      && (e == [] ==> SummaryOf(db, caller).favoriteMeal == "N/A")
      && (SummaryOf(db, caller).favoriteMeal != "N/A" ==> MostOrdered(e, SummaryOf(db, caller).favoriteMeal))
  {
    FavoriteLaws(MealEntries(db.menus, OwnOrders(db, caller)));
  }

  /** `recentOrders` is the newest five of the caller's orders, in order, one line each. */
  lemma SummaryRecent(db: Db, caller: Id)
    ensures var ids := OwnOrderIds(db, caller);
      var recent := RecentOrders(db, caller);
      && |recent| == (if |ids| < 5 then |ids| else 5)
      && (forall i :: 0 <= i < |recent| ==>
            && recent[i].id == ids[i] && ids[i] in db.orders && db.orders[ids[i]].user == caller
            && recent[i] == Line(db.menus, ids[i], db.orders[ids[i]]))
      && (forall i, j :: 0 <= i < j < |recent| ==> recent[i].id > recent[j].id)
  {
    var ids := OwnOrderIds(db, caller);
    var five := FirstFive(ids);
    assert forall i :: 0 <= i < |five| ==> five[i] == ids[i];
  }

  /** A line carries the order's id, price and date; it is named after the first
      item ("Unknown" without items, "X +N more" with N + 1 items), and its status
      reads "N/A" exactly when the stored status is empty or itself "N/A". */
  lemma LineLaws(menus: map<Id, Menu>, id: Id, o: Order)
    ensures var line := Line(menus, id, o);
      && line.id == id && line.price == o.totalPrice && line.date == o.createdAt
      && (o.items == [] ==> line.menuName == "Unknown")
      && (|o.items| == 1 ==> line.menuName == ShownName(menus, o.items[0]))
      && (|o.items| > 1 ==> line.menuName == ShownName(menus, o.items[0]) + " +" + NatText(|o.items| - 1) + " more")
      && (line.status == "N/A" <==> StatusText(o.status) == "" || StatusText(o.status) == "N/A")
  {
  }
}
