/**
 * The status of an order item and the two calls that change it, OrderItem.changeStatus
 * and OrderItem.cancle, as pure steps on statuses (src/entities/order-item.entity.ts).
 */
module OrderItemLifecycle {
  import opened Wrappers
  import opened Exceptions

  /** OrderItemStatus: every item starts PENDING. */
  datatype OrderItemStatus = Pending | Confirmed | Shipped | Delivered | Cancelled

  /**
   * OrderItem.isCancellable: the statuses from which a cancellation is meant to be allowed,
   * i.e. those of an item that has not been shipped, delivered or cancelled yet.
   */
  function IsCancellable(s: OrderItemStatus): (r: bool)
    ensures r <==> !(s == Shipped || s == Delivered || s == Cancelled)
  {
    s == Pending || s == Confirmed
  }

  /** One call on an item's status. The names keep the source's spelling `cancle`. */
  datatype StatusCall = ChangeStatusCall(target: OrderItemStatus) | CancleCall

  /**
   * The status a call leaves behind, or the exception it throws (a throwing call assigns nothing).
   * changeStatus rejects only the targets PENDING and CANCELLED and otherwise assigns the target
   * whatever the current status is. cancle's guard is `!this.isCancellable`, the negation of a
   * function object, which is always false, so cancle always assigns CANCELLED.
   */
  function Step(current: OrderItemStatus, call: StatusCall): (r: Result<OrderItemStatus, Exception>)
    ensures r.Failure? <==> call.ChangeStatusCall? && (call.target == Pending || call.target == Cancelled)
    ensures r.Failure? ==> r.error == BadRequest
    ensures r.Success? ==> r.value != Pending
  {
    match call
    case ChangeStatusCall(target) =>
      if target == Pending || target == Cancelled then Failure(BadRequest) else Success(target)
    case CancleCall =>
      Success(Cancelled)
  }

  /**
   * The status an item holds after the calls, made in order, when the caller catches each
   * exception: a call that throws leaves the status as it was.
   */
  function StatusAfter(s: OrderItemStatus, calls: seq<StatusCall>): OrderItemStatus
    decreases |calls|
  {
    if calls == [] then s
    else
      var next := match Step(s, calls[0]) case Success(t) => t case Failure(_) => s;
      StatusAfter(next, calls[1..])
  }

  /** changeStatus does not look at the current status: it enforces no order between statuses. */
  lemma ChangeStatusIgnoresCurrent(s1: OrderItemStatus, s2: OrderItemStatus, target: OrderItemStatus)
    ensures Step(s1, ChangeStatusCall(target)) == Step(s2, ChangeStatusCall(target))
    ensures target != Pending && target != Cancelled ==> Step(s1, ChangeStatusCall(target)) == Success(target)
  {
  }

  /**
   * cancle succeeds exactly as well from a status IsCancellable rejects (SHIPPED, DELIVERED,
   * CANCELLED) as from one it accepts: the outcome does not depend on IsCancellable.
   */
  lemma CancleIgnoresCancellability(s1: OrderItemStatus, s2: OrderItemStatus)
    requires IsCancellable(s1) && !IsCancellable(s2)
    ensures Step(s1, CancleCall) == Step(s2, CancleCall) == Success(Cancelled)
  {
  }

  /** Every status except PENDING is one call away from every status, CANCELLED and DELIVERED included. */
  lemma EveryStatusButPendingReachable(s: OrderItemStatus, t: OrderItemStatus)
    requires t != Pending
    ensures exists call :: Step(s, call) == Success(t)
  {
    var call := if t == Cancelled then CancleCall else ChangeStatusCall(t);
    assert Step(s, call) == Success(t);
  }

  /** Once an item has left PENDING, no sequence of calls brings it back. */
  lemma {:induction false} PendingNeverReentered(s: OrderItemStatus, calls: seq<StatusCall>)
    ensures StatusAfter(s, calls) == Pending ==> s == Pending
    decreases |calls|
  {
    if calls != [] {
      var next := match Step(s, calls[0]) case Success(t) => t case Failure(_) => s;
      PendingNeverReentered(next, calls[1..]);
    }
  }
}
