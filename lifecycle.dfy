/** The order status transitions the handlers actually perform. No handler
    consults a central state machine: each one checks (or does not check) the
    prior status on its own. `Writes(h, from, to)` collects what handler `h`
    lets happen to an order whose status is `from`. */
module Lifecycle {
  import opened OrderModel

  /** The handlers that write `Order.status`. */
  datatype Handler =
    | AdminDecision    // PATCH /api/orders/admin-status
    | FreeForm         // PATCH /api/orders/update-status
    | AssignDelivery   // PATCH /api/orders/assign-delivery
    | CustomerCancel   // PATCH /api/orders/cancel
    | DeliveryProgress // PATCH /api/delivery/update-status

  /** The only prior statuses the cancel handler refuses. */
  predicate Cancellable(from: OrderStatus) {
    from != Accepted && from != Rejected
  }

  predicate Writes(h: Handler, from: OrderStatus, to: OrderStatus) {
    match h
    case AdminDecision => to == Accepted || to == Rejected
    case FreeForm => true
    case AssignDelivery => to == Assigned
    case CustomerCancel => Cancellable(from) && to == Cancelled
    case DeliveryProgress => to == PickedUp || to == Delivered
  }

  /** Every order of `before` is still present in `after`, and each status change
      is one that handler `h` performs. */
  predicate StatusStep(before: map<nat, Order>, after: map<nat, Order>, h: Handler) {
    before.Keys <= after.Keys
    && forall k :: k in before ==> after[k].status == before[k].status || Writes(h, before[k].status, after[k].status)
  }

  /** Rewriting one order by a step of `h` is a step of `h`. */
  lemma {:induction false} UpdateIsStep(before: map<nat, Order>, k: nat, o: Order, h: Handler)
    requires k in before && (o.status == before[k].status || Writes(h, before[k].status, o.status))
    ensures StatusStep(before, before[k := o], h)
  {
    forall j | j in before
      ensures before[k := o][j].status == before[j].status || Writes(h, before[j].status, before[k := o][j].status)
    {
      if j != k {
        assert before[k := o][j] == before[j];
      }
    }
  }

  /** Inserting a new order is a step of every handler. */
  lemma {:induction false} InsertIsStep(before: map<nat, Order>, k: nat, o: Order, h: Handler)
    requires k !in before
    ensures StatusStep(before, before[k := o], h)
  {
    forall j | j in before ensures before[k := o][j] == before[j] {
    }
  }

  /** Leaving the orders alone is a step of every handler. */
  lemma {:induction false} NoChangeIsStep(orders: map<nat, Order>, h: Handler)
    ensures StatusStep(orders, orders, h)
  {
    forall j | j in orders ensures orders[j].status == orders[j].status {
    }
  }

  /** The lifecycle as designed: pending → accepted | rejected | cancelled,
      accepted → assigned → picked-up → delivered. */
  predicate Intended(from: OrderStatus, to: OrderStatus) {
    (from == Pending && (to == Accepted || to == Rejected || to == Cancelled))
    || (from == Accepted && to == Assigned)
    || (from == Assigned && to == PickedUp)
    || (from == PickedUp && to == Delivered)
  }

  /** Some handler performs the step. */
  predicate Performed(from: OrderStatus, to: OrderStatus) {
    exists h: Handler :: Writes(h, from, to)
  }

  /** The handlers implement every designed step ... */
  lemma IntendedIsPerformed(from: OrderStatus, to: OrderStatus)
    requires Intended(from, to)
    ensures Performed(from, to)
  {
    if to == Accepted || to == Rejected {
      assert Writes(AdminDecision, from, to);
    } else if to == Cancelled {
      assert Writes(CustomerCancel, from, to);
    } else if to == Assigned {
      assert Writes(AssignDelivery, from, to);
    } else {
      assert Writes(DeliveryProgress, from, to);
    }
  }

  /** ... but also steps the design forbids, even leaving the free-form overwrite
      aside: a delivered order can be cancelled by its customer, a rejected order
      can be assigned, and a delivered order can go back to picked-up. */
  lemma PerformedNotIntended()
    ensures Writes(CustomerCancel, Delivered, Cancelled) && !Intended(Delivered, Cancelled)
    ensures Writes(CustomerCancel, Cancelled, Cancelled)
    ensures Writes(AssignDelivery, Rejected, Assigned) && !Intended(Rejected, Assigned)
    ensures Writes(DeliveryProgress, Delivered, PickedUp) && !Intended(Delivered, PickedUp)
    ensures Writes(AdminDecision, Delivered, Rejected) && !Intended(Delivered, Rejected)
  {
  }

  /** Only accepted and rejected orders are protected from cancellation. */
  lemma CancelRefusedOnlyAfterDecision(from: OrderStatus)
    ensures Writes(CustomerCancel, from, Cancelled) <==> from != Accepted && from != Rejected
  {
  }

  /** `pending`, `preparing` and `out-for-delivery` are written by the free-form
      overwrite alone: once an order has left `pending`, only that handler brings it
      back, and only it ever produces the two intermediate schema statuses, or
      leaves an order with no status at all. */
  lemma FreeFormOnlyWritesSchemaIntermediates(h: Handler, from: OrderStatus, to: OrderStatus)
    requires Writes(h, from, to)
    requires to == Pending || to == Preparing || to == OutForDelivery || to == Unset
    ensures h == FreeForm
  {
  }

  /** A sequence of statuses, each reached from the previous by the paired handler. */
  predicate Path(statuses: seq<OrderStatus>, handlers: seq<Handler>) {
    |statuses| == |handlers| + 1
    && forall i :: 0 <= i < |handlers| ==> Writes(handlers[i], statuses[i], statuses[i + 1])
  }

  /** Without the free-form overwrite a rejected order is still delivered and
      then cancelled. */
  lemma RejectedOrderDeliveredThenCancelled()
    ensures Path([Pending, Rejected, Assigned, PickedUp, Delivered, Cancelled],
                 [AdminDecision, AssignDelivery, DeliveryProgress, DeliveryProgress, CustomerCancel])
  {
  }

  /** Outside the free-form overwrite, a path that starts pending never returns to
      pending. */
  lemma {:induction false} NoReturnToPending(statuses: seq<OrderStatus>, handlers: seq<Handler>, i: nat)
    requires Path(statuses, handlers)
    requires forall j :: 0 <= j < |handlers| ==> handlers[j] != FreeForm
    requires 0 < i < |statuses|
    ensures statuses[i] != Pending
  {
    assert Writes(handlers[i - 1], statuses[i - 1], statuses[i]);
  }
}
