/** The Notification document (src/models/Notification.ts). */
module NotificationModel {
  import opened Common

  /** `user`, `title` and `message` are required; `kind` is the `type` path. */
  datatype Notification = Notification(user: Id, title: string, message: string, kind: string, isRead: bool)

  /** The `type` enum. */
  predicate SchemaKind(k: string) {
    k == "order" || k == "feedback" || k == "system" || k == "delivery"
  }

  /** The schema default of `type`. */
  const DefaultKind: string := "system"

  /** A freshly inserted notification: `isRead` takes its default, false. */
  function NewNotification(user: Id, title: string, message: string, kind: string): (n: Notification)
    ensures !n.isRead && n.user == user && n.title == title && n.message == message && n.kind == kind
  {
    Notification(user, title, message, kind, false)
  }
}
