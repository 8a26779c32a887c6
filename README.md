# mess_system in Dafny

This project models the server core of mess_system, a meal-ordering web
application for a mess or canteen. The application is written in TypeScript
on Next.js and stores its data in MongoDB through Mongoose.

Customers browse dated menus, place orders, cancel them, leave feedback and
read their notifications. Admins create menus and accounts, accept or reject
orders, assign them to delivery staff and download reports. Delivery staff
see their assignments and move them from `assigned` to `picked-up` to
`delivered`.

The model has four layers:

- **Documents** (`order_model.dfy`, `user_model.dfy`, `menu_model.dfy`,
  `feedback_model.dfy`, `notification_model.dfy`, `assignment_model.dfy`).
  These are the Mongoose schemas as datatypes, with their enums, defaults and
  setters. Predicates state the schema's own validators, so the model can say
  which handler writes fall outside them.
- **Request handling** (`common.dfy`, `http.dfy`, `db.dfy`, `sorting.dfy`).
  This layer covers the bearer-token prologue every route shares and
  `verifyToken` as a map of signed tokens. It also holds a `Db` snapshot of
  all collections, the insertion and `createdAt` listing orders, and one
  insertion sort over a total preorder for every `sort` the handlers ask for.
- **Handlers**:
  - Every route that writes is a guard chain (a `Gate`) followed by its
    writes, as functions in `order_rules.dfy`, `inbox_rules.dfy`,
    `catalog_rules.dfy`, `feedback_rules.dfy` and `account_rules.dfy`.
  - Each is also a method of the class `Store.Store`, whose fields are the
    collections. Every method is proved to leave the store exactly as the
    matching function says.
  - The read-only routes are functions of a snapshot: `queries.dfy`,
    `reports.dfy`, `csv_export.dfy`, and the four summary routes with their
    counting loops (`grouping.dfy`, `meal_stats.dfy`, `*_summary.dfy`).
  - `lifecycle.dfy` collects the order-status transitions the handlers
    perform and compares them with the transitions the status names suggest.
- **Client logic** (`order_form.dfy`, `menu_form.dfy`, `protected_route.dfy`,
  `auth_context.dfy`). This covers the order total, the menu form's dish
  clean-up, the route guard's decision, and the session kept in
  `localStorage`. The guard and the session provider are classes because
  their state changes over time.

Ids are natural numbers handed out by one counter, so id order is insertion
order and also `createdAt` order. A user's password is stored as a `Digest`
value. Comparing a password is equality of digests.

## Model

| member | source | states |
|---|---|---|
| OrderModel.ParseStatus | src/models/Order.ts:4-30 | parsing a status text gives back a status whose text is that same text |
| OrderModel.StatusTextRoundTrip | src/models/Order.ts:4-30 | statuses and their texts correspond one to one; every parsed status is canonical |
| OrderModel.StoredStatus | src/app/api/orders/update-status/route.ts:25 | an absent `status` unsets the field; a present one is stored as a canonical status whose text is exactly the given text |
| OrderModel.ItemQuantity | src/models/Order.ts:25 | a missing item quantity takes the schema default 1; a given one is kept |
| OrderModel.HandlerStatusesOutsideSchema | src/models/Order.ts:30 | `accepted`, `rejected`, `assigned` and `picked-up`, which handlers write, fail the status enum; `cancelled` and the default `pending` pass it |
| OrderModel.UndeclaredWrittenPaths | src/models/Order.ts:20-32 | `assignedTo`, `cancelledBy` and `items.menuName` are written by handlers but not declared by the schema |
| UserModel.ParseRole | src/models/User.ts:3-22 | a parsed role has exactly the parsed text |
| UserModel.RoleTextRoundTrip | src/models/User.ts:3-22 | every role's text parses back to that role |
| UserModel.DeliveryRoleOutsideSchema | src/models/User.ts:22 | the `delivery` role fails the schema's role enum; the default `customer` passes |
| UserModel.MatchesOnlyOwnHash | src/lib/auth.ts:7-13 | a password matches a stored hash exactly when it is the hashed password |
| UserModel.NewUser | src/models/User.ts:18-26 | a new user stores the hash of the password, the given name, email and role, and no optional fields |
| UserModel.View | src/app/api/auth/login/route.ts:17 | the user projection returned to clients carries the id, name, email and role |
| MenuModel.MealPathsUndeclared | src/models/Menu.ts:14-21 | `isMeal` and `items` are written but undeclared; the timestamps are declared |
| FeedbackModel.StoredComment | src/models/Feedback.ts:18 | a stored comment is present exactly when one was given, and it is the trimmed text, neither starting nor ending with white space |
| NotificationModel.NewNotification | src/models/Notification.ts:15-23 | a new notification is unread and carries the given user, title, message and type |
| AssignmentModel.DeliveryUpdateStatus | src/app/api/delivery/update-status/route.ts:30 | a delivery update status is accepted exactly for `picked-up` and `delivered`, and keeps its text |
| Common.TrimStart | src/app/api/menu/update/route.ts:34 | the result is a suffix of the input that does not start with white space, and only white space was removed |
| Common.TrimEnd | src/app/api/menu/update/route.ts:34 | the result is a prefix of the input that does not end with white space, and only white space was removed |
| Common.Trim | src/app/api/menu/update/route.ts:34 | a trimmed text neither starts nor ends with white space |
| Common.TrimEmptyIffBlank | src/app/api/menu/update/route.ts:34 | a text trims to "" exactly when it is all white space |
| Common.LastChars | src/app/api/orders/cancel/route.ts:53 | `slice(-k)` gives the last k characters, or the whole text when it is shorter |
| Common.BeforeT | src/app/api/dashboard/summary/route.ts:51 | `split('T')[0]` is the prefix before the first `T` and contains no `T` |
| Common.DayTextOfIso | src/app/api/dashboard/summary/route.ts:51 | the day part of an ISO timestamp is recovered from its text |
| Common.NatTextRoundTrip | src/app/api/orders/cancel/route.ts:53 | reading the decimal text of an id gives the id back |
| Common.NatTextInjective | src/app/api/orders/cancel/route.ts:53 | different ids have different texts |
| Common.TextLeTotal | src/app/api/users/list/route.ts:31-33 | string order compares any two texts |
| Common.TextLeTransitive | src/app/api/users/list/route.ts:31-33 | string order is transitive |
| Common.TextLeAntisymmetric | src/app/api/users/list/route.ts:31-33 | texts that are each at most the other are equal |
| Http.FirstField | src/app/api/orders/cancel/route.ts:21 | the first field is a space-free prefix that ends at a space or at the end |
| Http.BearerToken | src/app/api/orders/cancel/route.ts:21 | `split(' ')[1]` is undefined exactly when the header has no space; otherwise it has no space |
| Http.BearerTokenOfScheme | src/app/api/orders/cancel/route.ts:21 | the header `Bearer <token>` gives back the token |
| Http.BearerTokenAfterWord | src/app/api/orders/cancel/route.ts:21 | after the first word, the token is the next field |
| Http.Authenticate | src/lib/auth.ts:23-25 | no header gives NoHeader; a caller is verified exactly when the header's token is non-empty and signed, with the signed claim |
| Http.Caller | src/app/api/orders/cancel/route.ts:16-22 | no header gives 401 "Unauthorized"; a bad token gives the handler's own catch reply; otherwise the claim passes |
| Http.AdminCaller | src/app/api/dashboard/summary/route.ts:17-25 | the caller's gate, then 403 with the handler's own text for any verified role but admin; only a verified admin passes, with their claim |
| Http.Refused | src/app/api/orders/cancel/route.ts:66-69 | an error refusal answers with its status and text; a throw crashes |
| Db.OldestFirst | src/app/api/users/delivery-boys/route.ts:23 | the listing holds only selected documents, in increasing id order |
| Db.NewestFirst | src/app/api/orders/list/route.ts:34-36 | the listing holds only selected documents, newest first |
| Db.OldestFirstComplete | src/app/api/users/delivery-boys/route.ts:23 | the listing misses no selected document |
| Db.NewestFirstComplete | src/app/api/orders/list/route.ts:34-36 | the newest-first listing misses no selected document |
| Db.NewestFirstCount | src/app/api/orders/list/route.ts:34-36 | the newest-first listing holds each selected document exactly once |
| Db.NewestIsReversedOldest | src/app/api/orders/list/route.ts:34-36 | sorting by `createdAt` descending reverses the insertion-order listing |
| Db.Docs | src/app/api/orders/list/route.ts:34-36 | the documents returned are those named by the ids, in order |
| Db.OldestWhere | src/app/api/auth/register/route.ts:12 | `findOne(filter)` over ids in insertion order: the oldest document the filter accepts, with no accepted document before it, and none exactly when no document accepts |
| Db.FindByEmail | src/app/api/auth/register/route.ts:12 | `findOne({ email })` finds the oldest user holding the email, and finds none exactly when no user has it |
| Db.AssignmentOf | src/app/api/delivery/assign/route.ts:30 | `findOne({ order })` finds the oldest assignment of the order, and none exactly when the order has none |
| Db.FindByEmailField | src/app/api/auth/login/route.ts:10 | `findOne({ email })` with the body's email: an absent email finds nobody; a found user holds the email; none found means no user holds it |
| Db.AddUserKeepsUnique | src/models/User.ts:20 | adding a user with a free email keeps emails unique |
| Db.AddAssignmentKeepsSingle | src/app/api/delivery/assign/route.ts:30-38 | adding an assignment for an order that has none keeps one assignment per order |
| Db.UsersWithRoleLaws | src/app/api/orders/create/route.ts:83 | `User.find({ role })` lists exactly the users with the role, oldest first |
| Sorting.Insert | src/app/api/users/list/route.ts:31-33 | inserting into a sorted sequence keeps it sorted and adds exactly that element |
| Sorting.Sort | src/app/api/users/list/route.ts:31-33 | the result is a sorted permutation of the input |
| OrderRules.EnrichedItem | src/app/api/orders/create/route.ts:55-61 | a stored item keeps the menu id, takes the menu's name, defaults the quantity to 1, instructions to "" and addons to [] |
| OrderRules.Enrich | src/app/api/orders/create/route.ts:50-63 | the lookups succeed exactly when every item names an existing menu, and then give one stored item per item sent |
| OrderRules.CreateOrderRefusals | src/app/api/orders/create/route.ts:25-38 | no header gives 401; a verified caller who is not a customer gets 403 |
| OrderRules.CreateOrderAccepts | src/app/api/orders/create/route.ts:33-63 | an order goes ahead exactly for a customer with a non-empty item list, a non-zero total and only existing menus; it is placed for that customer with the total as sent |
| OrderRules.PlacedOrder | src/app/api/orders/create/route.ts:67-72 | the inserted order is pending and unassigned, and belongs to the caller with the client's total |
| OrderRules.NotifyAdminsAdds | src/app/api/orders/create/route.ts:83-91 | one "New Order Received" note per admin at consecutive fresh ids, in the admins' order; nothing else changes |
| OrderRules.NotifyAdminsConsistent | src/app/api/orders/create/route.ts:83-91 | the admin notes keep the store consistent |
| OrderRules.PlaceOrderLaws | src/app/api/orders/create/route.ts:67-72 | the new order is pending, belongs to the caller and is the only order written; users, menus, assignments and feedback are untouched |
| OrderRules.PlaceOrderNotifies | src/app/api/orders/create/route.ts:75-91 | the customer's note and then the admins' notes take consecutive fresh ids; earlier notes are untouched |
| OrderRules.PlaceOrderNotifiesAdmins | src/app/api/orders/create/route.ts:83-91 | each listed admin gets a note naming the customer's email |
| OrderRules.PlaceOrderKeepsConsistent | src/app/api/orders/create/route.ts:67-91 | placing an order keeps ids fresh, emails unique and one assignment per order |
| OrderRules.CreateOrderKeepsConsistent | src/app/api/orders/create/route.ts:22-104 | whatever the request, order creation keeps the store consistent and changes no existing status |
| OrderRules.Decision | src/app/api/orders/admin-status/route.ts:31-32 | a decision is accepted exactly for `accepted` or `rejected`, and keeps its text |
| OrderRules.AdminStatusLookupFirst | src/app/api/orders/admin-status/route.ts:27-32 | a missing order gives 404 whatever the status; an invalid status on an existing order gives 400; the prior status is never consulted |
| OrderRules.DecideLaws | src/app/api/orders/admin-status/route.ts:34-35 | the decision becomes the order's status; no other order changes |
| OrderRules.DecideNotifies | src/app/api/orders/admin-status/route.ts:37-45 | the owner gets one note titled by the decision; nothing but the order and the note is written |
| OrderRules.DecideIsStep | src/app/api/orders/admin-status/route.ts:31-35 | the decision is an admin-decision step of the lifecycle |
| OrderRules.DecideKeepsConsistent | src/app/api/orders/admin-status/route.ts:34-45 | the decision keeps the store consistent |
| OrderRules.AdminStatusKeepsConsistent | src/app/api/orders/admin-status/route.ts:13-52 | whatever the request, the handler keeps the store consistent and only makes admin-decision steps |
| OrderRules.UpdateStatusAuthorisation | src/app/api/orders/update-status/route.ts:13-23 | only a verified admin naming an existing order gets past the guard |
| OrderRules.ForceStatusWrites | src/app/api/orders/update-status/route.ts:25-26 | any text at all becomes the status of the order, and a body without `status` unsets it; nothing else changes |
| OrderRules.ForceStatusLaws | src/app/api/orders/update-status/route.ts:25-26 | the overwrite keeps the store consistent and is a free-form step |
| OrderRules.UpdateStatusKeepsConsistent | src/app/api/orders/update-status/route.ts:11-33 | whatever the request, including a body without `status`, the handler keeps the store consistent |
| OrderRules.DispatchOrders | src/app/api/orders/assign-delivery/route.ts:35-37 | the order is rewritten to assigned to the courier; the order map changes only there |
| OrderRules.DispatchLaws | src/app/api/orders/assign-delivery/route.ts:35-37 | the order becomes `assigned` to the courier, whatever its prior status; no other order changes |
| OrderRules.DispatchLinks | src/app/api/orders/assign-delivery/route.ts:40-47 | afterwards the order has an assignment; existing assignments are kept as they were |
| OrderRules.ReassignKeepsFirstCourier | src/app/api/orders/assign-delivery/route.ts:35-47 | re-assigning an order to a second courier leaves its assignment with the first, so the order and its assignment disagree |
| OrderRules.DispatchIsStep | src/app/api/orders/assign-delivery/route.ts:35-37 | the dispatch is an assign-delivery step of the lifecycle |
| OrderRules.LinkIfNoneKeepsConsistent | src/app/api/orders/assign-delivery/route.ts:40-47 | creating the assignment only when none exists keeps one assignment per order |
| OrderRules.DispatchKeepsConsistent | src/app/api/orders/assign-delivery/route.ts:35-63 | the dispatch keeps the store consistent |
| OrderRules.AssignDeliveryKeepsConsistent | src/app/api/orders/assign-delivery/route.ts:13-70 | whatever the request, the handler keeps the store consistent |
| OrderRules.CancelAuthorisation | src/app/api/orders/cancel/route.ts:24-42 | ownership alone authorises a cancellation, whatever the caller's role; only accepted and rejected orders are protected |
| OrderRules.CancelOrderLaws | src/app/api/orders/cancel/route.ts:45-63 | the order is cancelled by the customer; no other order changes; both new notes go to the owner, none to an admin |
| OrderRules.CancelIsStep | src/app/api/orders/cancel/route.ts:38-47 | with the guard, the write is a customer-cancel step |
| OrderRules.CancelOrderKeepsConsistent | src/app/api/orders/cancel/route.ts:45-63 | the cancellation keeps the store consistent |
| OrderRules.CancelKeepsConsistent | src/app/api/orders/cancel/route.ts:13-70 | whatever the request, the handler keeps the store consistent |
| OrderRules.DeliveryAssignIgnoresOrder | src/app/api/delivery/assign/route.ts:26-32 | for an admin with both fields, the guard passes exactly when the order has no assignment, even when the order does not exist |
| OrderRules.LinkCourierLaws | src/app/api/delivery/assign/route.ts:34-45 | one new assignment with status `assigned` and a note to the courier; orders, users, menus and feedback are untouched |
| OrderRules.LinkCourierKeepsConsistent | src/app/api/delivery/assign/route.ts:30-45 | with the guard's check, the store stays consistent |
| OrderRules.DeliveryAssignKeepsConsistent | src/app/api/delivery/assign/route.ts:12-52 | whatever the request, the handler keeps the store consistent |
| OrderRules.DeliveryUpdateOnlyAssignee | src/app/api/delivery/update-status/route.ts:25-40 | only the courier of an existing assignment, sending `picked-up` or `delivered`, gets past the guard; the current status is not consulted |
| OrderRules.ProgressLaws | src/app/api/delivery/update-status/route.ts:43-53 | the assignment takes the status; a missing order gives 404 after the assignment changed, otherwise the order takes the same status |
| OrderRules.ProgressWrites | src/app/api/delivery/update-status/route.ts:43-67 | the writes are exactly the assignment's status and the linked order's status |
| OrderRules.ProgressIsStep | src/app/api/delivery/update-status/route.ts:43-53 | the update is a delivery-progress step, whether or not the order exists |
| OrderRules.ProgressFoundIsStep | src/app/api/delivery/update-status/route.ts:47-53 | when the order exists, the update is a delivery-progress step |
| OrderRules.ProgressKeepsConsistent | src/app/api/delivery/update-status/route.ts:43-67 | the update keeps the store consistent |
| OrderRules.DeliveryUpdateKeepsConsistent | src/app/api/delivery/update-status/route.ts:13-74 | whatever the request, the handler keeps the store consistent |
| Lifecycle.UpdateIsStep | src/app/api/orders/admin-status/route.ts:34-35 | rewriting one order by a step of a handler is a step of that handler |
| Lifecycle.InsertIsStep | src/app/api/orders/create/route.ts:67-72 | inserting a new order is a step of every handler |
| Lifecycle.NoChangeIsStep | src/app/api/orders/cancel/route.ts:25-42 | leaving the orders alone is a step of every handler |
| Lifecycle.IntendedIsPerformed | src/app/api/orders/admin-status/route.ts:31-35 | every designed step (pending to accepted, rejected or cancelled; accepted to assigned to picked-up to delivered) is performed by some handler |
| Lifecycle.PerformedNotIntended | src/app/api/orders/cancel/route.ts:38-47 | handlers also perform steps the design forbids: cancelling a delivered order, assigning a rejected one, going from delivered back to picked-up, rejecting a delivered one |
| Lifecycle.CancelRefusedOnlyAfterDecision | src/app/api/orders/cancel/route.ts:38-42 | a cancellation is refused exactly for accepted and rejected orders |
| Lifecycle.FreeFormOnlyWritesSchemaIntermediates | src/app/api/orders/update-status/route.ts:25 | only the free-form overwrite writes `pending`, `preparing` or `out-for-delivery`, or unsets the status |
| Lifecycle.RejectedOrderDeliveredThenCancelled | src/app/api/delivery/update-status/route.ts:43-53 | without the free-form overwrite, a rejected order can still be assigned, delivered and then cancelled |
| Lifecycle.NoReturnToPending | src/app/api/orders/cancel/route.ts:45 | without the free-form overwrite, no path returns to pending |
| Store.Store.constructor | src/lib/db.ts:1-18 | a fresh store holds empty collections, is consistent and knows the signed tokens |
| Store.Store.Notify | src/models/Notification.ts:13-29 | `Notification.create` inserts the note under a fresh id and changes nothing else |
| Store.Store.InsertAssignment | src/models/DeliveryAssignment.ts:10-21 | `DeliveryAssignment.create` inserts the assignment under a fresh id |
| Store.Store.InsertOrder | src/models/Order.ts:20-34 | `Order.create` inserts the order under a fresh id |
| Store.Store.SaveOrder | src/app/api/orders/cancel/route.ts:47 | `order.save()` replaces that order document and nothing else |
| Store.Store.SaveAssignment | src/app/api/delivery/update-status/route.ts:43-44 | `assignment.save()` replaces that assignment document and nothing else |
| Store.Store.NotifyEach | src/app/api/orders/create/route.ts:83-91 | the admin loop inserts one note per admin, in order, as the admin-notes function says |
| Store.Store.CreateOrder | src/app/api/orders/create/route.ts:22-104 | the handler answers and leaves the collections exactly as order creation is specified; with the lemmas above, the order is pending and every admin is notified; a consistent store stays consistent |
| Store.Store.AdminStatus | src/app/api/orders/admin-status/route.ts:13-52 | the handler answers and writes exactly as the admin decision is specified; a consistent store stays consistent |
| Store.Store.UpdateStatus | src/app/api/orders/update-status/route.ts:11-33 | the handler answers and writes exactly as the free-form overwrite is specified, and keeps the store consistent |
| Store.Store.AssignDelivery | src/app/api/orders/assign-delivery/route.ts:13-70 | the handler answers and writes exactly as the dispatch is specified: order saved, assignment created only if missing, two notes; a consistent store stays consistent |
| Store.Store.LinkIfMissing | src/app/api/orders/assign-delivery/route.ts:40-47 | an assignment is created only when the order has none |
| Store.Store.Cancel | src/app/api/orders/cancel/route.ts:13-70 | the handler answers and writes exactly as the cancellation is specified; a consistent store stays consistent |
| Store.Store.DeliveryAssign | src/app/api/delivery/assign/route.ts:12-52 | the handler answers and writes exactly as the courier link is specified; a consistent store stays consistent |
| Store.Store.DeliveryUpdate | src/app/api/delivery/update-status/route.ts:13-74 | the handler answers and writes exactly as the progress update is specified, including the assignment saved before the 404; a consistent store stays consistent |
| Store.Store.CreateNotification | src/app/api/notifications/create/route.ts:11-36 | the handler answers and writes exactly as notification creation is specified; a consistent store stays consistent |
| Store.Store.MarkRead | src/app/api/notifications/mark-read/route.ts:10-28 | the handler answers and writes exactly as mark-read is specified; a consistent store stays consistent |
| Store.Store.ClearNotifications | src/app/api/notifications/clear/route.ts:10-29 | the handler answers and writes exactly as clearing is specified; a consistent store stays consistent |
| Store.Store.SubmitFeedback | src/app/api/feedback/create/route.ts:11-53 | the handler answers and writes exactly as feedback submission is specified; a consistent store stays consistent |
| Store.Store.CreateMenu | src/app/api/menu/create/route.ts:12-52 | the handler answers and writes exactly as menu creation is specified; a consistent store stays consistent |
| Store.Store.UpdateMenu | src/app/api/menu/update/route.ts:12-51 | the handler answers and writes exactly as the menu patch is specified; a consistent store stays consistent |
| Store.Store.DeleteMenu | src/app/api/menu/delete/route.ts:12-38 | the handler answers and writes exactly as menu deletion is specified; a consistent store stays consistent |
| Store.Store.Register | src/app/api/auth/register/route.ts:6-20 | the handler answers and writes exactly as registration is specified, and keeps the store consistent |
| Store.Store.CreateUser | src/app/api/admin/create-user/route.ts:11-51 | the handler answers and writes exactly as account creation is specified; a consistent store stays consistent |
| Store.Store.UpdateProfile | src/app/api/users/update/route.ts:12-39 | the handler answers and writes exactly as the profile update is specified; a consistent store stays consistent |
| Store.Store.InitAdmin | src/utils/initAdmin.ts:5-24 | the bootstrap writes exactly as the admin seeding is specified; a consistent store stays consistent |
| InboxRules.NotificationCreateGate | src/app/api/notifications/create/route.ts:13-22 | no header gives 401; otherwise the request passes exactly when user, title and message are present, and the token is never verified |
| InboxRules.KindOrDefault | src/app/api/notifications/create/route.ts:28 | a truthy type is kept; a missing or empty one becomes `system` |
| InboxRules.NotificationCreateLaws | src/app/api/notifications/create/route.ts:13-31 | with any header at all, a caller adds one unread note to any user's inbox under a fresh id; nothing else changes and the store stays consistent |
| InboxRules.MarkedRead | src/app/api/notifications/mark-read/route.ts:22-25 | only a note matching both the id and the caller becomes read; every other note is unchanged and none is removed |
| InboxRules.MarkedReadIdempotent | src/app/api/notifications/mark-read/route.ts:22-25 | marking a note read twice is marking it once |
| InboxRules.MarkReadLaws | src/app/api/notifications/mark-read/route.ts:12-27 | the reply is the same whether a note matched or not; other users' notes never change; only notifications are written |
| InboxRules.Cleared | src/app/api/notifications/clear/route.ts:22 | exactly the caller's notes are removed; all others are kept unchanged |
| InboxRules.ClearedLaws | src/app/api/notifications/clear/route.ts:22 | clearing twice is clearing once; another user's notes always survive |
| InboxRules.ClearLaws | src/app/api/notifications/clear/route.ts:13-24 | afterwards the caller's inbox is empty and everyone else's is intact; only notifications are written |
| CatalogRules.NonBlankDishes | src/app/api/menu/update/route.ts:32-36 | the kept dishes are all named and no more than were sent |
| CatalogRules.NonBlankDishesMembers | src/app/api/menu/update/route.ts:33-35 | a dish is kept exactly when it was sent and its name is not blank |
| CatalogRules.NonBlankDishesAppend | src/app/api/menu/update/route.ts:33-35 | filtering distributes over concatenation, so kept dishes keep their order |
| CatalogRules.NonBlankDishesIdempotent | src/app/api/menu/update/route.ts:33-35 | cleaning twice is cleaning once |
| CatalogRules.DroppedIffBlank | src/app/api/menu/update/route.ts:34 | a dish is dropped exactly when its trimmed name is "" |
| CatalogRules.MenuData | src/app/api/menu/create/route.ts:30-39 | scalar fields are copied verbatim, `isMeal` is true only for `true`, and dishes are kept only for a meal that sent an array |
| CatalogRules.OnlyMealsHaveDishes | src/app/api/menu/create/route.ts:37-38 | a created menu with dishes is a meal |
| CatalogRules.MenuCreateLaws | src/app/api/menu/create/route.ts:14-47 | the menu is created exactly for a verified admin; the new menu is the only write, and a refusal writes nothing |
| CatalogRules.CleanPatch | src/app/api/menu/update/route.ts:32-36 | only a meal update carrying dishes has its dishes filtered; any other update is unchanged |
| CatalogRules.CleanPatchIdempotent | src/app/api/menu/update/route.ts:32-36 | cleaning an update twice is cleaning it once |
| CatalogRules.Patched | src/app/api/menu/update/route.ts:38 | every present field overwrites, the absent ones and the creation time stay |
| CatalogRules.PatchedLaws | src/app/api/menu/update/route.ts:38 | an empty update changes nothing; applying the same update twice is applying it once |
| CatalogRules.MenuUpdateLaws | src/app/api/menu/update/route.ts:15-46 | only the named menu changes, into the cleaned and patched menu the reply carries; a missing menu gives 404 and nothing changes |
| CatalogRules.DeletedMessage | src/app/api/menu/delete/route.ts:31-33 | the reply says "Meal deleted successfully" exactly for a meal |
| CatalogRules.MenuDeleteLaws | src/app/api/menu/delete/route.ts:15-33 | afterwards the menu is gone and every other menu is intact; orders and feedback keep their references |
| FeedbackRules.FeedbackAuthorFromToken | src/app/api/feedback/create/route.ts:17-35 | feedback goes ahead exactly for a verified customer with menu, order and a non-zero rating; the author is the caller; bounds and duplicates are not checked |
| FeedbackRules.StoredFeedback | src/app/api/feedback/create/route.ts:37-43 | the record keeps author, menu, order and rating, and stores the trimmed comment |
| FeedbackRules.FeedbackLaws | src/app/api/feedback/create/route.ts:37-48 | the record is new, carries the caller as author, is the only write and answers 201; the menu and order are never checked |
| AccountRules.RegisterGate | src/app/api/auth/register/route.ts:12-13 | registration is refused with 400 "User already exists" exactly when the email is taken; a free email with a missing name, email or password fails with an exception; otherwise the new customer is built from the body |
| AccountRules.RegisterLaws | src/app/api/auth/register/route.ts:10-19 | registration succeeds exactly when name, email and password are present, name and email non-empty, and the email is free; it creates a customer holding the password's hash and keeps emails unique; any other reply is 400 or an exception and writes nothing |
| AccountRules.CreateUserGateLaws | src/app/api/admin/create-user/route.ts:18-38 | a bad token escapes; a created account is never a customer, has the role and email sent, holds the password's hash, and its email was free |
| AccountRules.CreateUserLaws | src/app/api/admin/create-user/route.ts:38-50 | the account is inserted under the next id, emails stay unique, and the reply shows it without its password |
| AccountRules.UpdatedProfile | src/app/api/users/update/route.ts:27-30 | only truthy fields are written; email, role and password hash never change |
| AccountRules.ProfileLaws | src/app/api/users/update/route.ts:17-37 | a bad token gives 401 "Invalid token"; only the caller's account changes, never its email, role or password |
| AccountRules.Seeded | src/utils/initAdmin.ts:8-21 | with both settings and no user holding the email, a "Super Admin" admin with the hashed password is added; otherwise nothing changes |
| AccountRules.SeededIdempotent | src/utils/initAdmin.ts:13-21 | seeding twice is seeding once |
| AccountRules.InitAdminLaws | src/utils/initAdmin.ts:11-21 | with both settings, afterwards some user holds the email; a store that already had one is left as it was |
| AccountRules.InitAdminKeepsConsistent | src/utils/initAdmin.ts:13-21 | seeding keeps emails unique and the store consistent |
| Queries.OrdersListLaws | src/app/api/orders/list/route.ts:16-43 | no header gives 401, a bad token 500; a customer gets exactly their own orders, any other role every order, newest first |
| Queries.OrdersList | src/app/api/orders/list/route.ts:14-45 | only a verified caller gets a list; it names existing orders, a customer's only their own, newest first |
| Queries.Filtered | src/app/api/delivery/my-orders/route.ts:45 | `filter` keeps exactly the accepted ids and no more than it was given |
| Queries.FilteredDescending | src/app/api/delivery/my-orders/route.ts:40-45 | filtering a newest-first listing keeps it newest first |
| Queries.MyOrdersLaws | src/app/api/delivery/my-orders/route.ts:15-50 | only a delivery user gets a list: exactly the assignments made to them whose order still exists, newest first; others get 403 |
| Queries.MyOrders | src/app/api/delivery/my-orders/route.ts:12-52 | only a verified delivery user gets a list; it names assignments made to them whose order exists |
| Queries.NotificationsListLaws | src/app/api/notifications/list/route.ts:12-22 | any verified caller gets exactly their own notifications, newest first; a bad token escapes the handler |
| Queries.NotificationsList | src/app/api/notifications/list/route.ts:10-23 | only a verified caller gets a list, and it names only notifications addressed to them |
| Queries.FeedbackListLaws | src/app/api/feedback/list/route.ts:12-36 | only an admin gets the list, of every feedback, newest first; others get 403 |
| Queries.FeedbackList | src/app/api/feedback/list/route.ts:10-38 | only a verified admin gets a list, and it names existing feedback |
| Queries.NameFirstPreorder | src/app/api/users/list/route.ts:31-33 | ordering users by name is a total preorder |
| Queries.UsersListAccess | src/app/api/users/list/route.ts:14-28 | no header gives 401, a bad token 500 with the handler's own text, a non-admin 403 |
| Queries.UsersList | src/app/api/users/list/route.ts:11-43 | only a verified admin gets a list, sorted by name |
| Queries.UsersListLaws | src/app/api/users/list/route.ts:31-35 | an admin gets every delivery user exactly once, as stored, sorted by name |
| Queries.DeliveryViewsLaws | src/app/api/users/list/route.ts:31 | the projection holds one view per delivery user, as stored |
| Queries.DeliveryBoysLaws | src/app/api/users/delivery-boys/route.ts:12-24 | only an admin gets the list: every delivery user once, oldest first, as id, name and email; others get 403 "Forbidden" |
| Queries.DeliveryBoys | src/app/api/users/delivery-boys/route.ts:10-29 | only a verified admin gets a list, and it names only delivery users |
| Queries.LoginLaws | src/app/api/auth/login/route.ts:10-17 | login succeeds exactly when a user holds the email and the password hashes to its digest; the token and view are that user's; an unknown email and a wrong password give the same 401; a body without a password throws once the email is found |
| Queries.Login | src/app/api/auth/login/route.ts:6-18 | every failure is the one 401 "Invalid credentials"; a success needs both fields and names a user holding the email whose digest the password matches |
| Reports.Format | src/app/api/reports/orders/route.ts:36 | a truthy `format` parameter is kept; otherwise it is `csv` |
| Reports.ExportedFormat | src/app/api/reports/orders/route.ts:62-73 | a PDF only for `format=pdf`; anything else gives the sanitised CSV rows |
| Reports.OrderRowsLaws | src/app/api/reports/orders/route.ts:48-60 | one row per order in the declared field order, with its id text, price and day; a deleted customer shows "N/A" for name and email; an unset status exports as an empty cell |
| Reports.OrderIdsLaws | src/app/api/reports/orders/route.ts:39-45 | the report lists every order exactly once, newest first |
| Reports.OrdersReportAccess | src/app/api/reports/orders/route.ts:26-33 | no header gives 401; a bad token escapes; a non-admin gets 403; an admin gets the export of the order rows |
| Reports.OrdersReport | src/app/api/reports/orders/route.ts:24-74 | only a verified admin gets an export, PDF exactly for `format=pdf`, with the order fields; a bad token and nothing else escapes |
| Reports.FeedbackRowsLaws | src/app/api/reports/feedback/route.ts:52-68 | one row per feedback in the declared field order; "N/A" for a deleted meal or user, "-" for a missing comment |
| Reports.FeedbackIdsLaws | src/app/api/reports/feedback/route.ts:42-49 | the report lists every feedback exactly once, newest first |
| Reports.FeedbackReportAccess | src/app/api/reports/feedback/route.ts:29-36 | no header gives 401; a bad token escapes; a non-admin gets 403 |
| Reports.FeedbackReport | src/app/api/reports/feedback/route.ts:26-82 | only a verified admin gets an export, PDF exactly for `format=pdf`, with the feedback fields; a bad token and nothing else escapes |
| Reports.EarnedMorePreorder | src/app/api/reports/revenue/route.ts:47 | ordering groups by revenue, highest first, is a total preorder |
| Reports.RevenueReportAccess | src/app/api/reports/revenue/route.ts:25-32 | no header gives 401; a bad token gives 500 "Internal Server Error"; a non-admin gets 403 |
| Reports.RevenueReport | src/app/api/reports/revenue/route.ts:21-86 | nothing escapes the handler; only a verified admin gets an export, PDF exactly for `format=pdf`, with the revenue fields |
| Reports.RevenueReportEmpty | src/app/api/reports/revenue/route.ts:50-51 | an admin gets 404 exactly when there are no orders |
| Reports.RevenueGroupsLaws | src/app/api/reports/revenue/route.ts:38-48 | one group per status present, highest revenue first; each counts the orders with its status and sums their prices |
| CsvExport.Shielded | src/lib/export/csvGenerator.ts:23-28 | a day-shaped text gains a leading tab; any other text is unchanged |
| CsvExport.Sanitized | src/lib/export/csvGenerator.ts:12 | sanitising keeps the number of rows |
| CsvExport.SanitizeRow | src/lib/export/csvGenerator.ts:13-33 | the key loop produces one entry per key, in order, each the key with its value's text |
| CsvExport.CellText | src/lib/export/csvGenerator.ts:15-31 | null and undefined become "", numbers their decimal text, and a string is kept except that a day-shaped one gets a leading tab, so no text cell stays day-shaped |
| CsvExport.CellTextIdempotent | src/lib/export/csvGenerator.ts:17-31 | a sanitised value never looks like a bare day, so sanitising it again changes nothing |
| CsvExport.SanitizedLaws | src/lib/export/csvGenerator.ts:12-34 | every row and key stays in place; null and undefined become "", a day-shaped text gains a tab, a date becomes its day |
| Grouping.AddTo | src/app/api/customer/route.ts:74 | adding an entry either bumps an existing group or appends exactly one |
| Grouping.GroupAllSnoc | src/app/api/customer/route.ts:71-76 | grouping one more entry is adding it to the groups so far |
| Grouping.AddToTotals | src/app/api/customer/route.ts:74 | adding an entry raises exactly its key's count by one and total by its value |
| Grouping.AddToKeys | src/app/api/customer/route.ts:74 | the key ends up among the keys exactly once |
| Grouping.AddToShape | src/app/api/customer/route.ts:74 | existing groups keep their place; a new key is appended, a known one adds no group |
| Grouping.OwnTotal | src/app/api/customer/route.ts:74 | with distinct keys, a key's count and total are its own group's |
| Grouping.AbsentKey | src/app/api/customer/route.ts:74 | a key with no group has count and total 0 |
| Grouping.GroupAllLaws | src/app/api/reports/revenue/route.ts:40-45 | every key of the entries gets exactly one group whose count and total are those of its entries; nothing is lost overall |
| Grouping.PermutedGroups | src/app/api/reports/revenue/route.ts:47 | any reordering of the groups still holds one group per key with that key's count and sum |
| Grouping.GroupAllTotals | src/app/api/customer/route.ts:69-76 | for any key, the grouping's count and total are the entries' count and sum |
| Grouping.FirstMax | src/app/api/customer/route.ts:78-80 | the chosen group has the largest total, and every earlier group a strictly smaller one |
| Grouping.FirstMaxUnique | src/app/api/customer/route.ts:78-80 | those two properties pick out one group only |
| MealStats.Portion | src/app/api/customer/route.ts:74 | `quantity \|\| 1`: a non-zero quantity is kept, zero counts as one portion |
| MealStats.ItemEntries | src/app/api/customer/route.ts:72-75 | one counting entry per item, its meal name and portion |
| MealStats.MealEntriesOfAllItems | src/app/api/customer/route.ts:71-76 | the nested loops' entries are exactly the orders' items, one each, in visiting order |
| MealStats.ItemEntriesAppend | src/app/api/customer/route.ts:72-75 | the entries of two runs of items are the entries of each, one after the other |
| MealStats.CountMeals | src/app/api/customer/route.ts:69-76 | the nested loops fill the counting record exactly as grouping the item entries does |
| MealStats.CountStep | src/app/api/customer/route.ts:72-75 | one more item is one more entry added to the record |
| MealStats.MealEntriesStep | src/app/api/customer/route.ts:71-76 | one more order adds the entries of its items |
| MealStats.MealCountLaws | src/app/api/customer/route.ts:69-76 | every meal name is counted once, with the sum of its portions; the counts add up to all portions |
| MealStats.FavoriteLaws | src/app/api/customer/route.ts:78-80 | no items give "N/A"; otherwise the favourite is a most-ordered meal, and "N/A" appears only when that meal is itself named "" or "N/A" |
| MealStats.MealKey | src/app/api/customer/route.ts:73 | the populated menu's name, or "Unknown" when the menu is gone or has no name |
| MealStats.Favorite | src/app/api/customer/route.ts:78-80 | never empty; "N/A" without meals; any other answer is a meal with the largest count |
| MealStats.Counted | src/app/api/customer/route.ts:57 | the filter keeps only orders whose status is counted, and no more than it was given |
| MealStats.RevenueAppend | src/app/api/customer/route.ts:56-58 | revenue over a concatenation is the sum of the revenues |
| MealStats.RevenueOfCounted | src/app/api/customer/route.ts:56-58 | filtering then summing every price is the revenue of the counted statuses |
| MealStats.RevenueMonotone | src/app/api/analytics/summary/route.ts:36-38 | counting more statuses never lowers revenue when prices are not negative |
| MealStats.DeliveredWithinBillable | src/app/api/dashboard/summary/route.ts:35-37 | delivered revenue lies between 0 and the billable revenue the analytics report |
| MealStats.StatusLabel | src/app/api/customer/route.ts:97 | `status \|\| "N/A"` is never empty and keeps a non-empty status text |
| MealStats.FirstFive | src/app/api/customer/route.ts:83 | `slice(0, 5)` is a prefix of length at most five |
| CustomerSummary.Mean | src/app/api/customer/route.ts:62-66 | no ratings give 0; otherwise the mean times the count is the sum |
| CustomerSummary.Get | src/app/api/customer/route.ts:31-115 | the handler, with its counting loops, answers exactly the specified reply |
| CustomerSummary.ReplyAccess | src/app/api/customer/route.ts:34-40 | no header gives 401, a bad token 500; every verified caller gets their own summary, whatever the role |
| CustomerSummary.Reply | src/app/api/customer/route.ts:31-115 | nothing escapes; every verified caller, whatever the role, gets the summary of their own id |
| CustomerSummary.SummaryTotals | src/app/api/customer/route.ts:43-66 | `totalOrders` counts the caller's orders; `totalSpent` sums the delivered, assigned and accepted ones; no feedback gives a 0 rating |
| CustomerSummary.SummaryFavorite | src/app/api/customer/route.ts:78-80 | the favourite is "N/A" without items, and otherwise a most-ordered meal |
| CustomerSummary.SummaryRecent | src/app/api/customer/route.ts:83-99 | `recentOrders` is the caller's five newest orders, newest first, one line each |
| CustomerSummary.LineLaws | src/app/api/customer/route.ts:84-98 | a line keeps id, price and date; it is named after the first item ("Unknown" without items, "X +N more" for more); its status is "N/A" exactly when the stored one is empty or "N/A" |
| DeliverySummary.Get | src/app/api/delivery/summary/route.ts:39-105 | the handler, with its counting loops, answers exactly the specified reply |
| DeliverySummary.ReplyAccess | src/app/api/delivery/summary/route.ts:41-50 | no header gives 401, a bad token 500; any verified caller whose data does not throw gets the summary of the orders assigned to them |
| DeliverySummary.Reply | src/app/api/delivery/summary/route.ts:39-105 | nothing escapes; a verified caller gets their own summary exactly when their data does not throw |
| DeliverySummary.DeletedMenuFails | src/app/api/delivery/summary/route.ts:33-37 | a deleted menu behind any assigned item makes the handler answer 500 |
| DeliverySummary.SummaryCount | src/app/api/delivery/summary/route.ts:50-55 | `totalOrders` counts the orders assigned to the caller |
| DeliverySummary.SummarySpent | src/app/api/delivery/summary/route.ts:56-59 | `totalSpent` sums every assigned order's price, billable or not |
| DeliverySummary.BillableSplit | src/app/api/delivery/summary/route.ts:56-59 | all revenue is the billable revenue plus the rest |
| DeliverySummary.SummaryFavorite | src/app/api/delivery/summary/route.ts:71-73 | the favourite is "N/A" without items, and otherwise a most-ordered meal |
| DeliverySummary.SummaryRecent | src/app/api/delivery/summary/route.ts:75-91 | `recentOrders` is the five newest assigned orders, newest first, one line each |
| DeliverySummary.LineLaws | src/app/api/delivery/summary/route.ts:76-90 | a line keeps id, price and date, is named after the first item's meal with " +N more" for more items, and labels its status |
| DashboardSummary.CollectRecent | src/app/api/dashboard/summary/route.ts:45-60 | the two push loops build the menus' entries followed by the orders' |
| DashboardSummary.MenusCovered | src/app/api/dashboard/summary/route.ts:47-53 | the list has one entry per menu and order; the menus' entries come first, named after the menu and dated by its day |
| DashboardSummary.OrdersCovered | src/app/api/dashboard/summary/route.ts:54-60 | the orders' entries follow, each "Order #" with its short number and dated by its day |
| DashboardSummary.NewerOrSamePreorder | src/app/api/dashboard/summary/route.ts:70 | ordering entries later date first is a total preorder |
| DashboardSummary.Get | src/app/api/dashboard/summary/route.ts:14-83 | the handler, with its push loops, answers exactly the specified reply |
| DashboardSummary.ReplyAccess | src/app/api/dashboard/summary/route.ts:17-25 | no header gives 401, a bad token 500, a non-admin 403; an admin gets the summary |
| DashboardSummary.Reply | src/app/api/dashboard/summary/route.ts:14-83 | nothing escapes; only a verified admin gets the summary, any other verified caller 403 "Forbidden" |
| DashboardSummary.SummaryTotals | src/app/api/dashboard/summary/route.ts:32-37 | `totalOrders` counts every order; `totalRevenue` sums the delivered ones only, and never exceeds the billable revenue |
| DashboardSummary.SummaryRecent | src/app/api/dashboard/summary/route.ts:41-70 | at most ten entries, the five newest menus and five newest orders, later dates first |
| AnalyticsSummary.StatusEntries | src/app/api/analytics/summary/route.ts:42 | one grouping entry per order |
| AnalyticsSummary.RatingEntries | src/app/api/analytics/summary/route.ts:48-52 | one grouping entry per feedback |
| AnalyticsSummary.RatedHigherPreorder | src/app/api/analytics/summary/route.ts:54 | ordering groups by mean rating, best first, is a total preorder |
| AnalyticsSummary.ReplyAccess | src/app/api/analytics/summary/route.ts:22-31 | no header gives 401, a bad token 500, a non-admin 403; an admin gets the summary |
| AnalyticsSummary.Reply | src/app/api/analytics/summary/route.ts:19-85 | nothing escapes; only a verified admin gets the summary, any other verified caller 403 "Access denied" |
| AnalyticsSummary.SummaryRevenue | src/app/api/analytics/summary/route.ts:35-38 | `totalRevenue` sums the delivered, assigned and accepted orders |
| AnalyticsSummary.StatusCountsLaws | src/app/api/analytics/summary/route.ts:41-43 | each status appears once with the number of orders holding it; every order's status appears; the counts add up to all orders |
| AnalyticsSummary.StatusCountsDistinct | src/app/api/analytics/summary/route.ts:41-43 | the status counts have distinct statuses and add up to the orders |
| AnalyticsSummary.StatusCountsCover | src/app/api/analytics/summary/route.ts:41-43 | every order's status has a count |
| AnalyticsSummary.TopGroupsLaws | src/app/api/analytics/summary/route.ts:46-56 | at most five groups, best mean first, each a whole group of its menu's feedback |
| AnalyticsSummary.TopGroupsCutoff | src/app/api/analytics/summary/route.ts:54-55 | no group left out of the top five has a higher mean than one kept |
| AnalyticsSummary.TopMealsLaws | src/app/api/analytics/summary/route.ts:64-73 | the named meals follow the top groups one for one, with their mean and review count, and "Unknown" for a menu that is gone |
| Db.UsersWithRoleSound | src/app/api/users/delivery-boys/route.ts:23 | every listed id is a user with the asked role |
| Db.UsersWithRoleComplete | src/app/api/users/delivery-boys/route.ts:23 | every user with the asked role is listed |
| Db.UsersWithRoleIncreasing | src/app/api/users/delivery-boys/route.ts:23 | the listing is in strictly increasing id order, so it has no repeats |
| Db.NoteKeepsConsistent | src/models/Notification.ts:13-26 | storing a notification under a fresh id keeps ids fresh, emails unique and one assignment per order |
| Db.SetOrderKeepsConsistent | src/models/Order.ts:20-32 | rewriting an existing order keeps the store consistent |
| Db.SetAssignmentKeepsConsistent | src/models/DeliveryAssignment.ts:10-17 | rewriting an assignment without moving it to another order keeps one assignment per order |
| Db.InsertOrderKeepsConsistent | src/models/Order.ts:20-32 | inserting an order under a fresh id keeps the store consistent |
| Db.InsertAssignmentKeepsConsistent | src/app/api/delivery/assign/route.ts:30-38 | inserting an assignment for an order that has none keeps the store consistent |
| Db.SetNotesKeepsConsistent | src/app/api/notifications/clear/route.ts:22 | removing notifications keeps the store consistent |
| Db.InsertFeedbackKeepsConsistent | src/models/Feedback.ts:12-21 | inserting feedback under a fresh id keeps the store consistent |
| Db.InsertMenuKeepsConsistent | src/models/Menu.ts:14-21 | inserting a menu under a fresh id keeps the store consistent |
| Db.SetMenusKeepsConsistent | src/app/api/menu/delete/route.ts:27 | removing menus keeps the store consistent |
| Db.InsertUserKeepsConsistent | src/models/User.ts:18-26 | inserting a user whose email is not taken keeps emails unique and the store consistent |
| Db.SetUserKeepsConsistent | src/app/api/users/update/route.ts:23-32 | rewriting a user without changing the email keeps the store consistent |
| OrderRules.PlaceOrderIsStep | src/app/api/orders/create/route.ts:67-91 | placing an order only inserts a new pending order, a step every handler may take |
| OrderRules.NotifyAdminsAt | src/app/api/orders/create/route.ts:83-91 | the i-th admin's note is stored at the i-th fresh id after the customer's note |
| OrderForm.Find | src/components/OrderForm.tsx:47 | the index found is the first entry with the id; no index means no entry has it |
| OrderForm.UnitPrice | src/components/OrderForm.tsx:47-48 | `menu?.price || 0`: the price of the first listed menu with that id, and 0 when no listed menu has it |
| OrderForm.TotalPrice | src/components/OrderForm.tsx:46-49 | the `reduce` starts from 0, so an empty form costs 0 |
| OrderForm.TotalPriceNothingOrdered | src/components/OrderForm.tsx:46-49 | a form whose lines all have quantity 0 costs 0, whatever the prices |
| OrderForm.TotalPriceAppend | src/components/OrderForm.tsx:46-49 | the total of two item lists together is the sum of their totals |
| OrderForm.TotalPriceOfOne | src/components/OrderForm.tsx:46-49 | no items cost 0; one item costs its menu's price times its quantity, and 0 when its menu is not listed |
| OrderForm.TotalPriceBounds | src/components/OrderForm.tsx:29-49 | with prices not negative and quantities at least 1, the total is not negative and covers each item's share |
| OrderForm.InitialItems | src/components/OrderForm.tsx:78-80 | the form starts with one item per listed menu, in the same order, quantity 1, no instructions and no add-ons |
| OrderForm.InitialTotal | src/components/OrderForm.tsx:46-49 | submitting the untouched form costs the sum of the listed prices when the menu ids are distinct |
| OrderForm.InitialItemsValid | src/components/OrderForm.tsx:29-40 | the untouched form passes the schema exactly when some menu is listed |
| MenuForm.CleanItems | src/components/MenuForm.tsx:67-71 | a plain menu sends no dishes; a meal sends its dishes whose names are not blank |
| MenuForm.CleanItemsLaws | src/components/MenuForm.tsx:67-71 | a dish is sent exactly when it is a named dish of a meal; every sent dish has a non-blank name; a meal whose dishes are all named loses none |
| MenuForm.AllNamedKept | src/components/MenuForm.tsx:70 | filtering named dishes keeps a list whose dishes are all named unchanged |
| MenuForm.Submit | src/components/MenuForm.tsx:62-86 | an id picks PATCH to the update route, its absence POST to the create route; the payload is the values with the dishes cleaned |
| MenuForm.ServerCleanupIsNoop | src/app/api/menu/update/route.ts:31-36 | the update handler's own dish clean-up changes nothing in what the form sends |
| MenuForm.CleanKeepsSchema | src/components/MenuForm.tsx:15-29 | cleaning the dishes keeps a form that passed the schema valid |
| ProtectedRoute.Prefixes | src/components/ProtectedRoute.tsx:29-33 | exactly the roles with a home have an access pattern, and it admits that home, the notifications and the profile |
| ProtectedRoute.Allowed | src/components/ProtectedRoute.tsx:43 | a path the pattern accepts starts with one of its alternatives, and each alternative itself is accepted |
| ProtectedRoute.Decide | src/components/ProtectedRoute.tsx:18-49 | it waits exactly while both values are null; the page renders only with a token and, for a role, on one of its paths; any redirect other than to the login page has both token and role |
| ProtectedRoute.DecideLaws | src/components/ProtectedRoute.tsx:18-49 | wait only while both values are null; no token goes to the login page; a known role outside its paths goes home; an unknown role is sent to `undefined`; otherwise the page renders |
| ProtectedRoute.HomeAllowed | src/components/ProtectedRoute.tsx:29-40 | each role's home is one of its own paths, so a redirect never loops |
| ProtectedRoute.AdminCoversOthers | src/components/ProtectedRoute.tsx:29-33 | every path a customer or delivery user may open, an admin may open too |
| ProtectedRoute.PrefixBoundary | src/components/ProtectedRoute.tsx:30-31 | a prefix only matches up to a "/": "/customers" is refused to a customer, who is sent from the dashboard to "/customer" |
| ProtectedRoute.Guard.constructor | src/components/ProtectedRoute.tsx:16 | the page starts unrendered |
| ProtectedRoute.Guard.Effect | src/components/ProtectedRoute.tsx:18-52 | letting the page through sets `authChecked`; a redirect returns its target and a wait does nothing, both leaving the flag as it was |
| AuthContext.Get | src/context/AuthContext.tsx:25-26 | a stored key reads its value and a missing key reads null |
| AuthContext.Loaded | src/context/AuthContext.tsx:24-31 | the mount effect loads a pair exactly when both stored values are present and non-empty |
| AuthContext.LoadedRoundTrip | src/context/AuthContext.tsx:46-58 | what `setAuth` stores, a later mount loads; after `logout` nothing is loaded |
| AuthContext.AuthProvider.constructor | src/context/AuthContext.tsx:19-21 | the session starts with no token and no role |
| AuthContext.AuthProvider.Mount | src/context/AuthContext.tsx:24-31 | a complete stored pair becomes the state, which then matches storage; otherwise the state is kept |
| AuthContext.AuthProvider.StorageChanged | src/context/AuthContext.tsx:34-43 | both values are copied from the new storage as they are, a missing one as null |
| AuthContext.AuthProvider.SetAuth | src/context/AuthContext.tsx:46-51 | both values go to storage and to state, and a later mount loads them back |
| AuthContext.AuthProvider.Logout | src/context/AuthContext.tsx:54-58 | storage is emptied, both values become null and nothing would be loaded |

## Left out

- Database connection: `connectDB` and the Mongoose runtime are not part of this model. The store is a snapshot of six maps, and each handler reads and writes it directly.
- Mongoose validators: `enum`, `min`/`max` and `required` are not enforced on save, and strict-mode dropping of undeclared paths is not modelled. The schemas are exposed as predicates instead, and lemmas name the handler writes that fall outside them.
- Tokens: `jsonwebtoken` is modelled as a fixed map from token text to claim. Signing, secrets and expiry are not modelled.
- Passwords: `bcrypt` is modelled as an injective `Digest`. Salting and cost are not modelled.
- Request bodies: `req.json()` failures on malformed JSON are not modelled. Bodies arrive already parsed. Body fields are `Option`s throughout, a missing field is `None`, and each handler's replies to a missing field are modelled. A field that arrives with the wrong JSON type is not modelled, because the typed parameters cannot hold one:
  - a non-array `items` in order creation, which answers 400 "Order must contain at least one item";
  - a non-number `totalPrice` in order creation, which answers 400 "Invalid total price";
  - a truthy `isMeal` that is not a boolean in menu creation and update, which the source treats as a meal;
  - a dish without a string `name` in a menu update, whose `trim()` throws and is answered 500.
- Undefined query values: a filter whose value is `undefined` is modelled as matching nothing. This covers `User.findOne({ email })` in register and login when the body has no email, and `Menu.findByIdAndDelete(id)` in menu deletion when the body has no `id`, which the model answers 404. The database may instead drop an `undefined` condition and match an arbitrary document. Register would then answer 400 whenever any user exists, login would check the password against that user, and menu deletion would delete that menu. `findById(undefined)`, used by the other handlers, is looked up as `null` and matches nothing either way.
- Schema `required`: enforced only where register's `User.create` rejects a missing or empty name or email, which fails with an exception. Elsewhere the validators are predicates over the stored documents.
- Unset status: update-status with no `status` removes the field, and the model reads it back as `Unset`. The schema default of `pending` on a later read is not modelled. Analytics and the revenue report group an unset status under the key "" where the database would use null.
- Aggregation order: `$group` output is modelled in first-appearance order, and `$sort` breaks ties stably. The database promises neither. This decides which meals with equal mean ratings survive `$limit: 5` in analytics, and how equal-revenue rows are ordered in the revenue report.
- Floating point: averages are computed as exact rationals (`real`). This covers `avgRating` in the customer and analytics routes.
- Rounding: the `toFixed(1)` and `toFixed(2)` rounding is not modelled.
- Reports.RevenueGroupsLaws: the revenue rows do not carry `avgOrderValue`, because it is a floating-point mean.
- JavaScript numbers: they are unbounded integers. `totalPrice || 0` is the price itself, because a stored price is always a number; the NaN case is not modelled.
- Reports.FeedbackRowsLaws: `rating ?? 0` is the stored rating, because the schema requires one; a document saved without a rating is not modelled.
- CSV encoding: the `json2csv` `Parser` and the "Failed to generate CSV" rethrow in `csvGenerator.ts` are a foreign library. Only the sanitising of cells is modelled.
- PDF export: `pdfGenerator.ts` is page drawing on floating-point geometry and is not part of this model.
- `Object.keys` order: report rows keep their keys in declaration order. Meal counts keep their keys in first-seen order. JavaScript puts integer-like keys first, and a meal named with digits only is not modelled that way.
- Sort ties: Mongo sorts on `createdAt` are modelled by id order, so two documents never tie. Ties among equal keys of the in-memory sorts follow a stable insertion sort.
- DashboardSummary.NewerOrSamePreorder: the dashboard's comparator `a.date < b.date ? 1 : -1` is not consistent for equal dates. It is modelled as a stable sort, newest first, and the order JavaScript gives to equal dates is left open.
- Dates: `createdAt` is an instant with a monotonic clock, supplied by the caller. Time zones and the client-side date filters of the list pages are not modelled.
- Concurrency: handlers run one at a time, and the awaits inside a handler do not interleave with other requests. This excludes the check-then-insert race in `delivery/assign` and the parallel menu lookups in `orders/create`.
- Listings: queries return ids in the order the route returns documents. `populate` and `select` projections are not modelled field by field.
- ProtectedRoute.DecideLaws: the access maps are plain lookups. A role named after an `Object.prototype` member, such as `constructor`, is treated as unknown, whereas JavaScript would find an inherited value.
- Router effects: `router.replace` is returned as a target and not performed.
- Presentation: rendering, toasts, charts, polling components, static pages and the Yup schemas of the other forms are not part of this model.
- Thin routes: `orders/pay` (commented out), `menu/list` and `auth/me` are not part of this model.
- Logging: `console.log` and `console.error` calls have no effect in the model.
