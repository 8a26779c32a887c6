/** GET /api/reports/orders, /api/reports/feedback and /api/reports/revenue: rows
    projected from the collections and exported as CSV or PDF. */
module Reports {
  import opened Common
  import opened UserModel
  import opened MenuModel
  import opened OrderModel
  import opened FeedbackModel
  import opened Http
  import opened Db
  import opened Grouping
  import opened Sorting
  import opened CsvExport

  /** What a report replies with: a PDF of the rows (`generatePDF`, whose drawing is
      not modelled), or the sanitised rows of the CSV attachment. */
  datatype Export =
    | Pdf(title: string, rows: seq<Row>, fields: seq<string>)
    | Csv(filename: string, fields: seq<string>, records: seq<TextRow>)

  /** `searchParams.get('format') || 'csv'`. */
  function Format(param: Option<string>): (f: string)
    ensures Truthy(param) ==> f == param.value
    ensures !Truthy(param) ==> f == "csv"
  {
    if Truthy(param) then param.value else "csv"
  }

  /** `format === 'pdf' ? generatePDF(title, data, fields) : generateCSV(data, fields)`. */
  function Exported(title: string, filename: string, fields: seq<string>, rows: seq<Row>, param: Option<string>): Export {
    if Format(param) == "pdf" then Pdf(title, rows, fields) else Csv(filename, fields, Sanitized(rows))
  }

  /** PDF only for `?format=pdf`; no parameter, an empty one or any other value gives CSV. */
  lemma ExportedFormat(title: string, filename: string, fields: seq<string>, rows: seq<Row>, param: Option<string>)
    ensures Exported(title, filename, fields, rows, param).Pdf? <==> param == Some("pdf")
    ensures param != Some("pdf") ==> Exported(title, filename, fields, rows, param) == Csv(filename, fields, Sanitized(rows))
  {
  }

  function Keys(row: Row): seq<string> {
    seq(|row|, i requires 0 <= i < |row| => row[i].0)
  }

  /** The guard the three reports share after the header check: only an admin. */
  function AdminGate(db: Db, header: Option<string>, onBadToken: Refusal): Gate<()> {
    var g := AdminCaller(header, db.verifier, onBadToken, "Access denied");
    if g.Refuse? then Refuse(g.why) else Pass(())
  }

  // ---------------------------------------------------------------------------
  // Orders report

  const OrderFields: seq<string> := ["id", "customer", "email", "totalPrice", "status", "createdAt"]

  /** One order row; `populate('user', 'name email')` yields nothing for a deleted user. */
  function OrderRow(users: map<Id, User>, id: Id, o: Order): Row {
    [("id", Str(IdText(id))),
     ("customer", Str(if o.user in users then users[o.user].name else "N/A")),
     ("email", Str(if o.user in users then users[o.user].email else "N/A")),
     ("totalPrice", Int(o.totalPrice)),
     ("status", StatusCell(o.status)),
     ("createdAt", Str(DayText(o.createdAt)))]
  }

  /** `o.status`: `undefined` for an order whose status was removed. */
  function StatusCell(s: OrderStatus): Cell {
    if s == Unset then Undefined else Str(StatusText(s))
  }

  function OrderIds(db: Db): seq<Id> {
    NewestFirst(db.orders, db.nextId, Everything)
  }

  function OrderRows(db: Db): seq<Row> {
    var ids := OrderIds(db);
    seq(|ids|, i requires 0 <= i < |ids| => OrderRow(db.users, ids[i], db.orders[ids[i]]))
  }

  /** No try/catch: a token that does not verify escapes the handler. */
  function OrdersReport(db: Db, header: Option<string>, format: Option<string>): (r: Response<Export>)
    ensures r.Ok? <==> Authenticate(header, db.verifier).Verified? && Authenticate(header, db.verifier).claim.role == Admin
    ensures r.Crash? <==> Authenticate(header, db.verifier).BadToken?
    ensures r.Ok? ==> (r.body.Pdf? <==> format == Some("pdf")) && r.body.fields == OrderFields
  {
    var g := AdminGate(db, header, Thrown);
    if g.Refuse? then Refused(g.why)
    else Ok(200, "", Exported("Order Report", "orders_report.csv", OrderFields, OrderRows(db), format))
  }

  /** One row per order, newest first, keyed in the declared field order; a deleted
      customer shows "N/A" for both name and email. */
  lemma OrderRowsLaws(db: Db)
    ensures var rows := OrderRows(db);
      var ids := OrderIds(db);
      && |rows| == |ids|
      && (forall i :: 0 <= i < |rows| ==> Keys(rows[i]) == OrderFields)
      && (forall i :: 0 <= i < |rows| ==>
            var o := db.orders[ids[i]];
            && rows[i][0].1 == Str(IdText(ids[i]))
            && (o.user !in db.users ==> rows[i][1].1 == Str("N/A") && rows[i][2].1 == Str("N/A"))
            && rows[i][3].1 == Int(o.totalPrice)
            && (o.status != Unset ==> rows[i][4].1 == Str(StatusText(o.status)))
            && (o.status == Unset ==> CellText(rows[i][4].1) == "")
            && rows[i][5].1 == Str(DayText(o.createdAt)))
  {
  }

  /** The report lists every order once, newest first. */
  lemma OrderIdsLaws(db: Db)
    ensures var ids := OrderIds(db);
      && |ids| == |set k | k in db.orders && k < db.nextId|
      && (forall k :: k in db.orders && k < db.nextId ==> k in ids)
      && (forall i, j :: 0 <= i < j < |ids| ==> ids[i] > ids[j])
  {
    NewestFirstCount(db.orders, db.nextId, Everything);
    NewestFirstComplete(db.orders, db.nextId, Everything);
    assert Selected(db.orders, db.nextId, Everything) == set k | k in db.orders && k < db.nextId;
  }

  lemma OrdersReportAccess(db: Db, header: Option<string>, format: Option<string>)
    ensures !Truthy(header) ==> OrdersReport(db, header, format) == Fail(401, "Unauthorized")
    ensures Authenticate(header, db.verifier).BadToken? ==> OrdersReport(db, header, format).Crash?
    ensures var a := Authenticate(header, db.verifier);
      a.Verified? && a.claim.role != Admin ==> OrdersReport(db, header, format) == Fail(403, "Access denied")
    ensures var a := Authenticate(header, db.verifier);
      a.Verified? && a.claim.role == Admin ==>
        OrdersReport(db, header, format) == Ok(200, "", Exported("Order Report", "orders_report.csv", OrderFields, OrderRows(db), format))
  {
  }

  // ---------------------------------------------------------------------------
  // Feedback report

  const FeedbackFields: seq<string> := ["id", "meal", "user", "rating", "comment", "date"]

  /** `f.menu?.name ?? 'N/A'` and the other defaults of a feedback row. */
  function FeedbackRow(db: Db, id: Id, f: Feedback): Row {
    [("id", Str(IdText(id))),
     ("meal", Str(if f.menu in db.menus && db.menus[f.menu].name.Some? then db.menus[f.menu].name.value else "N/A")),
     ("user", Str(if f.user in db.users then db.users[f.user].name else "N/A")),
     ("rating", Int(f.rating)),
     ("comment", Str(f.comment.GetOr("-"))),
     ("date", Str(DayText(f.createdAt)))]
  }

  function FeedbackIds(db: Db): seq<Id> {
    NewestFirst(db.feedback, db.nextId, Everything)
  }

  function FeedbackRows(db: Db): seq<Row> {
    var ids := FeedbackIds(db);
    seq(|ids|, i requires 0 <= i < |ids| => FeedbackRow(db, ids[i], db.feedback[ids[i]]))
  }

  function FeedbackReport(db: Db, header: Option<string>, format: Option<string>): (r: Response<Export>)
    ensures r.Ok? <==> Authenticate(header, db.verifier).Verified? && Authenticate(header, db.verifier).claim.role == Admin
    ensures r.Crash? <==> Authenticate(header, db.verifier).BadToken?
    ensures r.Ok? ==> (r.body.Pdf? <==> format == Some("pdf")) && r.body.fields == FeedbackFields
  {
    var g := AdminGate(db, header, Thrown);
    if g.Refuse? then Refused(g.why)
    else Ok(200, "", Exported("Feedback Report", "feedback_report.csv", FeedbackFields, FeedbackRows(db), format))
  }

  /** One row per feedback, newest first, keyed in the declared field order, with
      "N/A" for a deleted meal or user and "-" for a missing comment. */
  lemma FeedbackRowsLaws(db: Db)
    ensures var rows := FeedbackRows(db);
      var ids := FeedbackIds(db);
      && |rows| == |ids|
      && (forall i :: 0 <= i < |rows| ==> Keys(rows[i]) == FeedbackFields)
      && (forall i :: 0 <= i < |rows| ==>
            var f := db.feedback[ids[i]];
            && (f.menu !in db.menus ==> rows[i][1].1 == Str("N/A"))
            && (f.user !in db.users ==> rows[i][2].1 == Str("N/A"))
            && rows[i][3].1 == Int(f.rating)
            && (f.comment.None? ==> rows[i][4].1 == Str("-"))
            && (f.comment.Some? ==> rows[i][4].1 == Str(f.comment.value))
            && rows[i][5].1 == Str(DayText(f.createdAt)))
  {
  }

  /** The report lists every feedback once, newest first. */
  lemma FeedbackIdsLaws(db: Db)
    ensures var ids := FeedbackIds(db);
      && |ids| == |set k | k in db.feedback && k < db.nextId|
      && (forall k :: k in db.feedback && k < db.nextId ==> k in ids)
      && (forall i, j :: 0 <= i < j < |ids| ==> ids[i] > ids[j])
  {
    NewestFirstCount(db.feedback, db.nextId, Everything);
    NewestFirstComplete(db.feedback, db.nextId, Everything);
    assert Selected(db.feedback, db.nextId, Everything) == set k | k in db.feedback && k < db.nextId;
  }

  lemma FeedbackReportAccess(db: Db, header: Option<string>, format: Option<string>)
    ensures !Truthy(header) ==> FeedbackReport(db, header, format) == Fail(401, "Unauthorized")
    ensures Authenticate(header, db.verifier).BadToken? ==> FeedbackReport(db, header, format).Crash?
    ensures var a := Authenticate(header, db.verifier);
      a.Verified? && a.claim.role != Admin ==> FeedbackReport(db, header, format) == Fail(403, "Access denied")
  {
  }

  // ---------------------------------------------------------------------------
  // Revenue report

  /** The declared fields; the rows carry no `avgOrderValue` (a floating-point mean). */
  const RevenueFields: seq<string> := ["status", "totalOrders", "totalRevenue", "avgOrderValue"]

  /** `{ $group: { _id: '$status', totalOrders: { $sum: 1 }, totalRevenue: { $sum: '$totalPrice' } } }`:
      one entry per order, carrying its price. */
  function PriceEntries(db: Db): (r: seq<(string, int)>) {
    var ids := OldestFirst(db.orders, db.nextId, Everything);
    seq(|ids|, i requires 0 <= i < |ids| => (StatusText(db.orders[ids[i]].status), db.orders[ids[i]].totalPrice))
  }

  /** `{ $sort: { totalRevenue: -1 } }`. */
  predicate EarnedMore(a: Group<string>, b: Group<string>) {
    a.total >= b.total
  }

  lemma EarnedMorePreorder()
    ensures TotalPreorder(EarnedMore)
  {
  }

  function RevenueGroups(db: Db): seq<Group<string>> {
    EarnedMorePreorder();
    Sort(GroupAll(PriceEntries(db)), EarnedMore)
  }

  function RevenueRow(g: Group<string>): Row {
    [("status", Str(g.key)), ("totalOrders", Int(g.count)), ("totalRevenue", Int(g.total))]
  }

  function RevenueRows(gs: seq<Group<string>>): seq<Row> {
    seq(|gs|, i requires 0 <= i < |gs| => RevenueRow(gs[i]))
  }

  /** Inside a try/catch: a bad token gives 500 "Internal Server Error"; no orders
      at all give 404. */
  function RevenueReport(db: Db, header: Option<string>, format: Option<string>): (r: Response<Export>)
    ensures !r.Crash?
    ensures r.Ok? ==> Authenticate(header, db.verifier).Verified? && Authenticate(header, db.verifier).claim.role == Admin
    ensures r.Ok? ==> (r.body.Pdf? <==> format == Some("pdf")) && r.body.fields == RevenueFields
  {
    var g := AdminGate(db, header, Error(500, "Internal Server Error"));
    if g.Refuse? then Refused(g.why)
    else if RevenueGroups(db) == [] then Fail(404, "No orders found")
    else Ok(200, "", Exported("Revenue Report", "revenue_report.csv", RevenueFields, RevenueRows(RevenueGroups(db)), format))
  }

  lemma RevenueReportAccess(db: Db, header: Option<string>, format: Option<string>)
    ensures !Truthy(header) ==> RevenueReport(db, header, format) == Fail(401, "Unauthorized")
    ensures Authenticate(header, db.verifier).BadToken? ==>
      RevenueReport(db, header, format) == Fail(500, "Internal Server Error")
    ensures var a := Authenticate(header, db.verifier);
      a.Verified? && a.claim.role != Admin ==> RevenueReport(db, header, format) == Fail(403, "Access denied")
  {
  }

  /** An admin gets 404 exactly when there are no orders. */
  lemma RevenueReportEmpty(db: Db, header: Option<string>, format: Option<string>)
    requires Authenticate(header, db.verifier).Verified? && Authenticate(header, db.verifier).claim.role == Admin
    ensures RevenueReport(db, header, format) == Fail(404, "No orders found")
      <==> forall k :: k < db.nextId ==> k !in db.orders
  {
    var ids := OldestFirst(db.orders, db.nextId, Everything);
    OldestFirstComplete(db.orders, db.nextId, Everything);
    GroupAllLaws(PriceEntries(db));
    if ids != [] {
      assert PriceEntries(db)[0].0 in EntryKeys(PriceEntries(db));
      assert GroupAll(PriceEntries(db)) != [];
    }
  }

  /** One group per status present, highest revenue first; each counts the orders
      holding its status and sums their prices. */
  lemma RevenueGroupsLaws(db: Db)
    ensures var gs := RevenueGroups(db);
      var e := PriceEntries(db);
      && |gs| == |GroupAll(e)|
      && (forall i, j :: 0 <= i < j < |gs| ==> gs[i].total >= gs[j].total)
      && (forall i :: 0 <= i < |gs| ==> gs[i].count == CountFor(e, gs[i].key) && gs[i].total == SumFor(e, gs[i].key))
      && KeySet(gs) == EntryKeys(e)
  {
    var e := PriceEntries(db);
    EarnedMorePreorder();
    var gs := Sort(GroupAll(e), EarnedMore);
    assert RevenueGroups(db) == gs;
    PermutedGroups(e, gs);
  }
}
