/** The DeliveryAssignment document (src/models/DeliveryAssignment.ts). */
module AssignmentModel {
  import opened Common
  import opened OrderModel

  /** The assignment `status` enum: three of the order statuses. */
  type AssignmentStatus = s: OrderStatus | s == Assigned || s == PickedUp || s == Delivered
    witness Assigned

  /** The schema default of `status`. */
  const DefaultAssignmentStatus: AssignmentStatus := Assigned

  /** `order` and `deliveryBoy` are required references; nothing makes `order` unique. */
  datatype Assignment = Assignment(order: Id, deliveryBoy: Id, status: AssignmentStatus)

  /** The status a delivery update may set, from its request text: only
      `picked-up` and `delivered` are accepted. */
  function DeliveryUpdateStatus(text: Option<string>): (s: Option<AssignmentStatus>)
    ensures s.Some? <==> text == Some("picked-up") || text == Some("delivered")
    ensures s.Some? ==> StatusText(s.value) == text.value && s.value != Assigned
  {
    if text == Some("picked-up") then Some(PickedUp)
    else if text == Some("delivered") then Some(Delivered)
    else None
  }
}
