/** The guard chain of POST /api/feedback/create. */
module FeedbackRules {
  import opened Common
  import opened UserModel
  import opened FeedbackModel
  import opened Http
  import opened Db

  datatype NewFeedback = NewFeedback(user: Id, menu: Id, order: Id, rating: int)

  /** `!menu || !order || !rating`: a rating of 0 counts as missing. */
  function FeedbackGate(db: Db, header: Option<string>, menu: Option<Id>, order: Option<Id>, rating: Option<int>): Gate<NewFeedback> {
    var c := Caller(header, db.verifier, Error(500, "Server error"));
    if c.Refuse? then Refuse(c.why)
    else if c.payload.role != Customer then Refuse(Error(403, "Access denied: only users can add feedback"))
    else if menu.None? || order.None? || rating.None? || rating.value == 0 then
      Refuse(Error(400, "Menu, Order, and Rating are required"))
    else Pass(NewFeedback(c.payload.id, menu.value, order.value, rating.value))
  }

  /** The author is the caller named by the token; the handler itself checks no
      rating bounds and no duplicates. */
  lemma FeedbackAuthorFromToken(db: Db, header: Option<string>, menu: Option<Id>, order: Option<Id>, rating: Option<int>)
    ensures var g := FeedbackGate(db, header, menu, order, rating);
      && (g.Pass? <==> Authenticate(header, db.verifier).Verified? && Authenticate(header, db.verifier).claim.role == Customer
                       && menu.Some? && order.Some? && rating.Some? && rating.value != 0)
      && (g.Pass? ==> g.payload.user == Authenticate(header, db.verifier).claim.id && g.payload.rating == rating.value)
  {
  }

  function StoredFeedback(f: NewFeedback, comment: Option<string>, now: Instant): (r: Feedback)
    ensures r.user == f.user && r.menu == f.menu && r.order == f.order && r.rating == f.rating
    ensures r.comment == StoredComment(comment) && r.createdAt == now
  {
    Feedback(f.user, f.menu, f.order, f.rating, StoredComment(comment), now)
  }

  /** POST /api/feedback/create. */
  function FeedbackOutcome(db: Db, header: Option<string>, menu: Option<Id>, order: Option<Id>, rating: Option<int>,
                           comment: Option<string>, now: Instant): Outcome<Id> {
    var g := FeedbackGate(db, header, menu, order, rating);
    if g.Refuse? then Outcome(Refused(g.why), db)
    else Outcome(Ok(201, "Feedback submitted successfully", db.nextId),
                 db.(feedback := db.feedback[db.nextId := StoredFeedback(g.payload, comment, now)], nextId := db.nextId + 1))
  }

  /** The record is new, carries the caller as author, and is the only write;
      whether the menu and the order exist is never checked. */
  lemma FeedbackLaws(db: Db, header: Option<string>, menu: Option<Id>, order: Option<Id>, rating: Option<int>,
                     comment: Option<string>, now: Instant)
    requires Consistent(db)
    ensures Consistent(FeedbackOutcome(db, header, menu, order, rating, comment, now).db)
    ensures var o := FeedbackOutcome(db, header, menu, order, rating, comment, now);
      FeedbackGate(db, header, menu, order, rating).Pass? ==>
        var n := db.nextId;
        && o.reply == Ok(201, "Feedback submitted successfully", n)
        && n !in db.feedback && n in o.db.feedback
        && o.db == db.(feedback := db.feedback[n := o.db.feedback[n]], nextId := n + 1)
        && o.db.feedback[n].user == Authenticate(header, db.verifier).claim.id
        && o.db.feedback[n].menu == menu.value && o.db.feedback[n].order == order.value
        && o.db.feedback[n].rating == rating.value
  {
    var g := FeedbackGate(db, header, menu, order, rating);
    if g.Pass? {
      InsertFeedbackKeepsConsistent(db, StoredFeedback(g.payload, comment, now));
    }
  }
}
