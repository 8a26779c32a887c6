/** GET /api/analytics/summary: billable revenue, order counts per status and the
    five best-rated meals. The two `$group` stages are groupings in first-appearance
    order; `$sort` is the insertion sort. */
module AnalyticsSummary {
  import opened Common
  import opened UserModel
  import opened MenuModel
  import opened OrderModel
  import opened FeedbackModel
  import opened Http
  import opened Db
  import opened Grouping
  import opened Sorting
  import opened MealStats

  /** An element of `orderStatusCounts`: `{ _id: status, count }`. */
  datatype StatusCount = StatusCount(status: string, count: nat)

  /** An element of `topMealsWithNames`, before `toFixed(1)` rounds the mean. */
  datatype TopMeal = TopMeal(name: string, avgRating: real, totalReviews: nat)

  datatype Summary = Summary(
    totalOrders: nat,
    totalRevenue: int,
    orderStatusCounts: seq<StatusCount>,
    topMealsWithNames: seq<TopMeal>)

  function AllOrders(db: Db): seq<Order> {
    Docs(db.orders, OldestFirst(db.orders, db.nextId, Everything))
  }

  function AllFeedback(db: Db): seq<Feedback> {
    Docs(db.feedback, OldestFirst(db.feedback, db.nextId, Everything))
  }

  // ---------------------------------------------------------------------------
  // Orders by status

  /** `{ $group: { _id: '$status', count: { $sum: 1 } } }`: one entry per order. */
  function StatusEntries(orders: seq<Order>): (r: seq<(string, int)>)
    ensures |r| == |orders|
  {
    seq(|orders|, i requires 0 <= i < |orders| => (StatusText(orders[i].status), 1))
  }

  function StatusCounts(gs: seq<Group<string>>): seq<StatusCount> {
    seq(|gs|, i requires 0 <= i < |gs| => StatusCount(gs[i].key, gs[i].count))
  }

  // ---------------------------------------------------------------------------
  // Top-rated meals

  /** `{ $group: { _id: '$menu', avgRating: { $avg: '$rating' }, totalReviews: { $sum: 1 } } }`:
      one entry per feedback, carrying its rating. */
  function RatingEntries(feedback: seq<Feedback>): (r: seq<(Id, int)>)
    ensures |r| == |feedback|
  {
    seq(|feedback|, i requires 0 <= i < |feedback| => (feedback[i].menu, feedback[i].rating))
  }

  /** `$avg` of a group: its total over its count. */
  function Avg(g: Group<Id>): real {
    if g.count == 0 then 0.0 else g.total as real / (g.count as real)
  }

  /** `{ $sort: { avgRating: -1 } }`. */
  predicate RatedHigher(a: Group<Id>, b: Group<Id>) {
    Avg(a) >= Avg(b)
  }

  lemma RatedHigherPreorder()
    ensures TotalPreorder(RatedHigher)
  {
  }

  /** The groups after `$sort` and `$limit: 5`. */
  function TopGroups(db: Db): seq<Group<Id>> {
    RatedHigherPreorder();
    FirstFive(Sort(GroupAll(RatingEntries(AllFeedback(db))), RatedHigher))
  }

  /** `menu?.name || 'Unknown'`, the menu being looked up by the group's id. */
  function MenuName(menus: map<Id, Menu>, id: Id): string {
    if id in menus && menus[id].name.Some? && menus[id].name.value != "" then menus[id].name.value
    else "Unknown"
  }

  function WithNames(menus: map<Id, Menu>, top: seq<Group<Id>>): seq<TopMeal> {
    seq(|top|, i requires 0 <= i < |top| => TopMeal(MenuName(menus, top[i].key), Avg(top[i]), top[i].count))
  }

  // ---------------------------------------------------------------------------
  // The handler

  function SummaryOf(db: Db): Summary {
    var orders := AllOrders(db);
    Summary(|db.orders|, Revenue(orders, IsBillable), StatusCounts(GroupAll(StatusEntries(orders))),
      WithNames(db.menus, TopGroups(db)))
  }

  /** 401 without a header, 500 "Server error" for a bad token, 403 "Access denied"
      for anyone but an admin, otherwise the summary. */
  function Reply(db: Db, header: Option<string>): (r: Response<Summary>)
    ensures !r.Crash?
    ensures r.Ok? <==> Authenticate(header, db.verifier).Verified? && Authenticate(header, db.verifier).claim.role == Admin
    ensures Authenticate(header, db.verifier).Verified? && Authenticate(header, db.verifier).claim.role != Admin ==> r == Fail(403, "Access denied")
  {
    var g := AdminCaller(header, db.verifier, Error(500, "Server error"), "Access denied");
    if g.Refuse? then Refused(g.why) else Ok(200, "", SummaryOf(db))
  }

  lemma ReplyAccess(db: Db, header: Option<string>)
    ensures !Truthy(header) ==> Reply(db, header) == Fail(401, "Unauthorized")
    ensures Authenticate(header, db.verifier).BadToken? ==> Reply(db, header) == Fail(500, "Server error")
    ensures var a := Authenticate(header, db.verifier);
      a.Verified? && a.claim.role != Admin ==> Reply(db, header) == Fail(403, "Access denied")
    ensures var a := Authenticate(header, db.verifier);
      a.Verified? && a.claim.role == Admin ==> Reply(db, header) == Ok(200, "", SummaryOf(db))
  {
  }

  /** `totalRevenue` sums the delivered, assigned and accepted orders. */
  lemma SummaryRevenue(db: Db)
    ensures SummaryOf(db).totalRevenue == Revenue(Counted(AllOrders(db), IsBillable), Always)
  {
    RevenueOfCounted(AllOrders(db), IsBillable);
  }

  /** Each status appears once in `orderStatusCounts`, with the number of orders
      holding it, and the counts add up to all orders. */
  lemma StatusCountsLaws(db: Db)
    ensures var counts := SummaryOf(db).orderStatusCounts;
      var e := StatusEntries(AllOrders(db));
      && (forall i, j :: 0 <= i < j < |counts| ==> counts[i].status != counts[j].status)
      && (forall i :: 0 <= i < |counts| ==> counts[i].count == CountFor(e, counts[i].status))
      && (forall i :: 0 <= i < |AllOrders(db)| ==>
            exists j :: 0 <= j < |counts| && counts[j].status == StatusText(AllOrders(db)[i].status))
      && Counts(GroupAll(e)) == |AllOrders(db)|
  {
    StatusCountsDistinct(AllOrders(db));
    StatusCountsCover(AllOrders(db));
  }

  lemma StatusCountsDistinct(orders: seq<Order>)
    ensures var counts := StatusCounts(GroupAll(StatusEntries(orders)));
      && (forall i, j :: 0 <= i < j < |counts| ==> counts[i].status != counts[j].status)
      && (forall i :: 0 <= i < |counts| ==> counts[i].count == CountFor(StatusEntries(orders), counts[i].status))
      && Counts(GroupAll(StatusEntries(orders))) == |orders|
  {
    GroupAllLaws(StatusEntries(orders));
  }

  lemma StatusCountsCover(orders: seq<Order>)
    ensures var counts := StatusCounts(GroupAll(StatusEntries(orders)));
      forall i :: 0 <= i < |orders| ==>
        exists j :: 0 <= j < |counts| && counts[j].status == StatusText(orders[i].status)
  {
    var e := StatusEntries(orders);
    var g := GroupAll(e);
    GroupAllLaws(e);
    var counts := StatusCounts(g);
    forall i | 0 <= i < |orders|
      ensures exists j :: 0 <= j < |counts| && counts[j].status == StatusText(orders[i].status)
    {
      assert e[i].0 in EntryKeys(e);
      var j :| 0 <= j < |g| && g[j].key == e[i].0;
      assert counts[j].status == StatusText(orders[i].status);
    }
  }

  /** The top groups are at most five, best mean first, each a whole group of its
      menu's feedback. */
  lemma TopGroupsLaws(db: Db)
    ensures var top := TopGroups(db);
      var e := RatingEntries(AllFeedback(db));
      && |top| <= 5
      && (forall i, j :: 0 <= i < j < |top| ==> Avg(top[i]) >= Avg(top[j]))
      && (forall i :: 0 <= i < |top| ==>
            top[i].count == CountFor(e, top[i].key) && top[i].total == SumFor(e, top[i].key))
  {
    var e := RatingEntries(AllFeedback(db));
    RatedHigherPreorder();
    var sorted := Sort(GroupAll(e), RatedHigher);
    assert TopGroups(db) == FirstFive(sorted);
    PermutedGroups(e, sorted);
    assert forall i :: 0 <= i < |FirstFive(sorted)| ==> FirstFive(sorted)[i] == sorted[i];
  }

  /** No group left out of the top five has a higher mean than one kept. */
  lemma TopGroupsCutoff(db: Db)
    ensures var top := TopGroups(db);
      var sorted := Sort(GroupAll(RatingEntries(AllFeedback(db))), RatedHigher);
      forall i, j :: 0 <= i < |top| && |top| <= j < |sorted| ==> Avg(sorted[j]) <= Avg(top[i])
  {
    RatedHigherPreorder();
    var sorted := Sort(GroupAll(RatingEntries(AllFeedback(db))), RatedHigher);
    assert TopGroups(db) == FirstFive(sorted);
    assert forall i :: 0 <= i < |FirstFive(sorted)| ==> FirstFive(sorted)[i] == sorted[i];
  }

  /** `topMealsWithNames` follows the top groups one for one: same length, same
      order, the mean and `totalReviews` passed through, "Unknown" for a menu that
      is gone or has no name. */
  lemma TopMealsLaws(db: Db)
    ensures var top := TopGroups(db);
      var named := SummaryOf(db).topMealsWithNames;
      && |named| == |top|
      && (forall i :: 0 <= i < |top| ==>
            && named[i].avgRating == Avg(top[i])
            && named[i].totalReviews == top[i].count
            && (top[i].key !in db.menus ==> named[i].name == "Unknown")
            && (top[i].key in db.menus && Truthy(db.menus[top[i].key].name) ==>
                  named[i].name == db.menus[top[i].key].name.value))
  {
  }
}
