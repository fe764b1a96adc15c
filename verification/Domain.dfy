/** Statuses and transition tables of orders and payments (internal/domain). */
module Domain {

  datatype Option<+T> = None | Some(value: T)

  datatype OrderStatus = Open | Paid | Shipped | Delivered | Cancelled

  datatype PaymentStatus = Pending | Succeeded | Failed | Expired | Refunded

  datatype RefundStatus = Waiting | Done | ManualReview

  /** The `allowedTransitions` table of domain/order.go; `Open` is what the service calls a "pending" order. */
  function OrderSuccessors(from: OrderStatus): seq<OrderStatus> {
    match from
    case Open => [Paid, Cancelled]
    case Paid => [Shipped, Cancelled]
    case Shipped => [Delivered]
    case Delivered => []
    case Cancelled => []
  }

  predicate CanTransition(from: OrderStatus, to: OrderStatus) {
    to in OrderSuccessors(from)
  }

  /** The `allowedPaymentTransitions` table of domain/payment.go. */
  function PaymentSuccessors(from: PaymentStatus): seq<PaymentStatus> {
    match from
    case Pending => [Succeeded, Failed, Expired]
    case Succeeded => [Refunded]
    case Failed => []
    case Expired => []
    case Refunded => []
  }

  predicate CanTransitionPayment(from: PaymentStatus, to: PaymentStatus) {
    to in PaymentSuccessors(from)
  }

  predicate IsTerminal(s: PaymentStatus) {
    PaymentSuccessors(s) == []
  }

  /** Active is what the partial unique index payments_one_active_per_order covers. */
  predicate Active(s: PaymentStatus) {
    s == Pending || s == Succeeded
  }

  /** A walk along allowed transitions. */
  ghost predicate PaymentPath(path: seq<PaymentStatus>, from: PaymentStatus, to: PaymentStatus) {
    && |path| > 0 && path[0] == from && path[|path| - 1] == to
    && forall i | 0 <= i < |path| - 1 :: CanTransitionPayment(path[i], path[i + 1])
  }

  /** The lifecycle has no way back: a payment that has left a status never sees it again,
      and no path is longer than pending -> succeeded -> refunded. */
  lemma {:induction false} PaymentPathsAreShort(path: seq<PaymentStatus>, from: PaymentStatus, to: PaymentStatus)
    requires PaymentPath(path, from, to)
    ensures |path| <= 3
    ensures forall i, j | 0 <= i < j < |path| :: path[i] != path[j]
    ensures from == to ==> |path| == 1
    ensures IsTerminal(from) ==> |path| == 1
  {
    if |path| > 1 {
      assert CanTransitionPayment(path[0], path[1]);
      if |path| > 2 {
        assert CanTransitionPayment(path[1], path[2]);
        assert |path| > 3 ==> CanTransitionPayment(path[2], path[3]);
      }
    }
  }
}
