/** The Feedback document (src/models/Feedback.ts). */
module FeedbackModel {
  import opened Common

  /** `user`, `menu`, `order` and `rating` are required; `comment` is optional.
      Nothing makes (user, menu, order) unique. */
  datatype Feedback = Feedback(
    user: Id, menu: Id, order: Id, rating: int, comment: Option<string>, createdAt: Instant)

  /** The `min: 1, max: 5` bounds of `rating`. */
  predicate SchemaRating(r: int) {
    1 <= r <= 5
  }

  /** The `trim: true` setter of `comment`. */
  function StoredComment(comment: Option<string>): (c: Option<string>)
    ensures c.None? <==> comment.None?
    ensures c.Some? ==> c.value == Trim(comment.value)
    ensures c.Some? ==> c.value == [] || (!IsSpace(c.value[0]) && !IsSpace(c.value[|c.value| - 1]))
  {
    if comment.None? then None else Some(Trim(comment.value))
  }
}
