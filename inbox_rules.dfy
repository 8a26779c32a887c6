/** The notification inbox operations as functions on the collection
    (src/app/api/notifications/create, .../mark-read, .../clear). */
module InboxRules {
  import opened Common
  import opened NotificationModel
  import opened Http
  import opened Db

  /** `notifications/create` checks that a header is present but never verifies it. */
  function NotificationCreateGate(header: Option<string>, user: Option<Id>, title: Option<string>, message: Option<string>): (g: Gate<(Id, string, string)>)
    ensures !Truthy(header) ==> g == Refuse(Error(401, "Unauthorized"))
    ensures Truthy(header) && (user.None? || !Truthy(title) || !Truthy(message)) ==> g == Refuse(Error(400, "Missing fields"))
    ensures g.Pass? <==> Truthy(header) && user.Some? && Truthy(title) && Truthy(message)
    ensures g.Pass? ==> g.payload == (user.value, title.value, message.value)
  {
    if !Truthy(header) then Refuse(Error(401, "Unauthorized"))
    else if user.None? || !Truthy(title) || !Truthy(message) then Refuse(Error(400, "Missing fields"))
    else Pass((user.value, title.value, message.value))
  }

  /** `type || 'system'`. */
  function KindOrDefault(kind: Option<string>): (k: string)
    ensures Truthy(kind) ==> k == kind.value
    ensures !Truthy(kind) ==> k == DefaultKind
  {
    if Truthy(kind) then kind.value else DefaultKind
  }

  /** `notifications/mark-read` has no try/catch: a bad token escapes. */
  function MarkReadGate(db: Db, header: Option<string>, notificationId: Option<Id>): Gate<(Id, Id)> {
    var c := Caller(header, db.verifier, Thrown);
    if c.Refuse? then Refuse(c.why)
    else if notificationId.None? then Refuse(Error(400, "Notification ID required"))
    else Pass((c.payload.id, notificationId.value))
  }

  /** `findOneAndUpdate({ _id: id, user }, { isRead: true })`: only a notification
      matching both the id and the owner changes. */
  function MarkedRead(notes: map<Id, Notification>, id: Id, user: Id): (r: map<Id, Notification>)
    ensures r.Keys == notes.Keys
    ensures forall k :: k in notes && (k != id || notes[k].user != user) ==> r[k] == notes[k]
    ensures id in notes && notes[id].user == user ==> r[id] == notes[id].(isRead := true)
  {
    if id in notes && notes[id].user == user then notes[id := notes[id].(isRead := true)] else notes
  }

  /** Marking the same notification read twice is marking it once. */
  lemma MarkedReadIdempotent(notes: map<Id, Notification>, id: Id, user: Id)
    ensures MarkedRead(MarkedRead(notes, id, user), id, user) == MarkedRead(notes, id, user)
  {
  }

  function ClearGate(db: Db, header: Option<string>): Gate<Id> {
    var c := Caller(header, db.verifier, Error(500, "Server error"));
    if c.Refuse? then Refuse(c.why) else Pass(c.payload.id)
  }

  /** `deleteMany({ user })`. */
  function Cleared(notes: map<Id, Notification>, user: Id): (r: map<Id, Notification>)
    ensures forall k :: k in r ==> r[k].user != user
    ensures forall k :: k in notes ==> (k in r <==> notes[k].user != user)
    ensures forall k :: k in r ==> k in notes && r[k] == notes[k]
  {
    map k | k in notes && notes[k].user != user :: notes[k]
  }

  /** Clearing twice is clearing once, and clearing one inbox never touches another. */
  lemma ClearedLaws(notes: map<Id, Notification>, user: Id, other: Id)
    ensures Cleared(Cleared(notes, user), user) == Cleared(notes, user)
    ensures other != user ==> forall k :: k in notes && notes[k].user == other ==> k in Cleared(notes, user)
  {
  }

  // ---------------------------------------------------------------------------
  // What each handler answers and writes

  /** POST /api/notifications/create. */
  function NotificationCreateOutcome(db: Db, header: Option<string>, user: Option<Id>, title: Option<string>,
                                     message: Option<string>, kind: Option<string>): Outcome<Id> {
    var g := NotificationCreateGate(header, user, title, message);
    if g.Refuse? then Outcome(Refused(g.why), db)
    else Outcome(Ok(200, "Notification created", db.nextId),
                 WithNote(db, NewNotification(g.payload.0, g.payload.1, g.payload.2, KindOrDefault(kind))))
  }

  /** With any header at all, a caller puts an unread note into any user's
      inbox, and nothing else changes. */
  lemma NotificationCreateLaws(db: Db, header: Option<string>, user: Option<Id>, title: Option<string>,
                               message: Option<string>, kind: Option<string>)
    requires Consistent(db)
    ensures Consistent(NotificationCreateOutcome(db, header, user, title, message, kind).db)
    ensures var o := NotificationCreateOutcome(db, header, user, title, message, kind);
      Truthy(header) && user.Some? && Truthy(title) && Truthy(message) ==>
        && o.reply == Ok(200, "Notification created", db.nextId)
        && db.nextId !in db.notifications && db.nextId in o.db.notifications
        && o.db == db.(notifications := db.notifications[db.nextId := o.db.notifications[db.nextId]], nextId := db.nextId + 1)
        && o.db.notifications[db.nextId].user == user.value && !o.db.notifications[db.nextId].isRead
        && o.db.notifications[db.nextId].kind == KindOrDefault(kind)
  {
    var g := NotificationCreateGate(header, user, title, message);
    if g.Pass? {
      NoteKeepsConsistent(db, NewNotification(g.payload.0, g.payload.1, g.payload.2, KindOrDefault(kind)));
    }
  }

  /** PATCH /api/notifications/mark-read. */
  function MarkReadOutcome(db: Db, header: Option<string>, notificationId: Option<Id>): Outcome<()> {
    var g := MarkReadGate(db, header, notificationId);
    if g.Refuse? then Outcome(Refused(g.why), db)
    else Outcome(Done(200, "Notification marked as read"),
                 db.(notifications := MarkedRead(db.notifications, g.payload.1, g.payload.0)))
  }

  /** The answer is the same whether or not a note matched; other users' notes
      never change, and nothing is removed. */
  lemma MarkReadLaws(db: Db, header: Option<string>, notificationId: Option<Id>)
    requires Consistent(db)
    ensures var o := MarkReadOutcome(db, header, notificationId);
      && Consistent(o.db)
      && o.db == db.(notifications := o.db.notifications)
      && o.db.notifications.Keys == db.notifications.Keys
    ensures var o := MarkReadOutcome(db, header, notificationId);
      MarkReadGate(db, header, notificationId).Pass? ==>
        && o.reply == Done(200, "Notification marked as read")
        && forall k :: k in db.notifications && db.notifications[k].user != Authenticate(header, db.verifier).claim.id
             ==> o.db.notifications[k] == db.notifications[k]
  {
    var g := MarkReadGate(db, header, notificationId);
    if g.Pass? {
      SetNotesKeepsConsistent(db, MarkedRead(db.notifications, g.payload.1, g.payload.0));
    }
  }

  /** DELETE /api/notifications/clear. */
  function ClearOutcome(db: Db, header: Option<string>): Outcome<()> {
    var g := ClearGate(db, header);
    if g.Refuse? then Outcome(Refused(g.why), db)
    else Outcome(Done(200, "All notifications cleared successfully"),
                 db.(notifications := Cleared(db.notifications, g.payload)))
  }

  /** Afterwards the caller's inbox is empty and everybody else's is intact. */
  lemma ClearLaws(db: Db, header: Option<string>)
    requires Consistent(db)
    ensures var o := ClearOutcome(db, header);
      && Consistent(o.db)
      && o.db == db.(notifications := o.db.notifications)
    ensures var o := ClearOutcome(db, header);
      ClearGate(db, header).Pass? ==>
        var caller := Authenticate(header, db.verifier).claim.id;
        && o.reply == Done(200, "All notifications cleared successfully")
        && (forall k :: k in o.db.notifications ==> o.db.notifications[k].user != caller)
        && (forall k :: k in db.notifications && db.notifications[k].user != caller
              ==> k in o.db.notifications && o.db.notifications[k] == db.notifications[k])
  {
    var g := ClearGate(db, header);
    if g.Pass? {
      SetNotesKeepsConsistent(db, Cleared(db.notifications, g.payload));
    }
  }
}
