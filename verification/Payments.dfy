/** The payment and refund transactions and the provider's calls, as functions of the tables
    and of the provider's journal. */
module Payments {
  import opened Domain
  import opened Tables

  datatype StartResult =
    | Started(payment: nat)
    | OrderNotFound
    | OrderNotOpen(status: OrderStatus)
    | AmountNotPositive
    | AlreadyActive
    | KeyTaken

  datatype TransitionResult =
    | Moved
    | PaymentNotFound
    | IllegalMove(from: PaymentStatus)
    | OrderNoLongerOpen

  /** How a transaction goes for its caller; it can also commit and lose the acknowledgement. */
  datatype Write = Works | Fails | CommitsUnheard

  /** PaymentRepo.start. Both unique indexes can clash at once; `keyFirst` says which one reports. */
  function StartTx(db: Db, order: nat, key: string, keyFirst: bool, now: nat): (Db, StartResult) {
    if order >= |db.orders| then (db, OrderNotFound)
    else if db.orders[order].status != Open then (db, OrderNotOpen(db.orders[order].status))
    else
      var amount := Total(db.orders[order].items);
      var active := FindInStatus(db.payments, order, Pending).Some?
          || FindInStatus(db.payments, order, Succeeded).Some?;
      var taken := FindPayment(db.payments, key).Some?;
      if amount <= 0 then (db, AmountNotPositive)
      else if taken && (keyFirst || !active) then (db, KeyTaken)
      else if active then (db, AlreadyActive)
      else
        (db.(payments := db.payments + [Payment(order, amount, Pending, key, None, now, 0, now, false)],
             events := db.events + [Event(|db.payments|, None, Pending)]),
         Started(|db.payments|))
  }

  /** PaymentRepo.Transition: the order's UPDATE finding no pending row rolls everything back. */
  function TransitionTx(db: Db, payment: nat, to: PaymentStatus, charge: Option<nat>): (Db, TransitionResult) {
    if payment >= |db.payments| then (db, PaymentNotFound)
    else
      var p := db.payments[payment];
      if !CanTransitionPayment(p.status, to) then (db, IllegalMove(p.status))
      else if to == Succeeded && !(p.order < |db.orders| && db.orders[p.order].status == Open)
      then (db, OrderNoLongerOpen)
      else
        var row := p.(status := to, charge := if charge.Some? then charge else p.charge);
        var orders := if to == Succeeded then db.orders[p.order := db.orders[p.order].(status := Paid)] else db.orders;
        (db.(payments := db.payments[payment := row], events := db.events + [Event(payment, Some(p.status), to)],
             orders := orders),
         Moved)
  }

  // ----- refunds

  /** The leasing UPDATE of RefundWorker.ProcessDue for one row. */
  predicate RefundDue(db: Db, refund: nat, now: nat) {
    && refund < |db.refunds| && db.refunds[refund].status == Waiting && db.refunds[refund].nextAt <= now
    && db.refunds[refund].payment < |db.payments|
  }

  function LeaseRefund(db: Db, refund: nat, until: nat): Db
    requires refund < |db.refunds|
  {
    var r := db.refunds[refund];
    db.(refunds := db.refunds[refund := r.(attempts := r.attempts + 1, nextAt := until)])
  }

  /** An update of a refund row guarded by status = 'pending'. */
  function SetWaitingRefund(db: Db, refund: nat, r: Refund): Db {
    if refund < |db.refunds| && db.refunds[refund].status == Waiting then db.(refunds := db.refunds[refund := r])
    else db
  }

  /** RefundWorker.markSucceeded; false means the transaction rolled back. */
  function RefundSucceededTx(db: Db, refund: nat, payment: nat, providerRefund: nat): (Db, bool) {
    if payment >= |db.payments| || !CanTransitionPayment(db.payments[payment].status, Refunded) then (db, false)
    else
      var p := db.payments[payment];
      var marked := if refund < |db.refunds|
        then SetWaitingRefund(db, refund, db.refunds[refund].(status := Done, providerRefund := Some(providerRefund)))
        else db;
      (marked.(payments := db.payments[payment := p.(status := Refunded)],
               events := db.events + [Event(payment, Some(p.status), Refunded)]),
       true)
  }

  /** RefundWorker.markFailed. */
  function RefundFailedTx(db: Db, refund: nat, attempts: nat, maxAttempts: nat, retryAt: nat): Db {
    if refund >= |db.refunds| then db
    else if attempts >= maxAttempts then SetWaitingRefund(db, refund, db.refunds[refund].(status := ManualReview))
    else SetWaitingRefund(db, refund, db.refunds[refund].(nextAt := retryAt))
  }

  /** The second statement of the job's refund fix. */
  function CloseRefundTx(db: Db, refund: nat): Db {
    if refund < |db.refunds| && db.refunds[refund].status != Done
    then db.(refunds := db.refunds[refund := db.refunds[refund].(status := Done)])
    else db
  }

  // ----- the stuck-payment worker's own columns

  predicate CheckDue(db: Db, payment: nat, stuckAfter: nat, now: nat) {
    && payment < |db.payments|
    && var p := db.payments[payment];
       p.status == Pending && !p.manual && p.createdAt + stuckAfter < now && p.nextAt <= now
  }

  function LeasePayment(db: Db, payment: nat, until: nat): Db
    requires payment < |db.payments|
  {
    var p := db.payments[payment];
    db.(payments := db.payments[payment := p.(attempts := p.attempts + 1, nextAt := until)])
  }

  /** `schedule`: guarded by status = 'pending'. */
  function ScheduleTx(db: Db, payment: nat, nextAt: nat): Db {
    if payment < |db.payments| && db.payments[payment].status == Pending
    then db.(payments := db.payments[payment := db.payments[payment].(nextAt := nextAt)])
    else db
  }

  /** `manual`: guarded by status = 'pending'. */
  function ManualTx(db: Db, payment: nat): Db {
    if payment < |db.payments| && db.payments[payment].status == Pending
    then db.(payments := db.payments[payment := db.payments[payment].(manual := true)])
    else db
  }

  // ----- the provider

  datatype ChargeReply = ChargeUnavailable | ChargeDeclined | ChargeOk(charge: nat)

  datatype RefundReply = RefundUnavailable | RefundOk(sent: nat)

  datatype StatusReply = StatusUnavailable | NotFound | WasDeclined | WasCharged(charge: nat)

  /** FakeProvider.Charge; `approve` is the provider's verdict on a new key. */
  function ChargeCall(j: Journal, key: string, order: nat, amount: int, approve: bool, now: nat): (Journal,
                      ChargeReply) {
    if j.down then (j, ChargeUnavailable)
    else
      match FindCharge(j.charges, key)
      case Some(c) => (j, if j.charges[c].charged then ChargeOk(c) else ChargeDeclined)
      case None =>
        (j.(charges := j.charges + [Charge(key, order, amount, approve, now)]),
         if approve then ChargeOk(|j.charges|) else ChargeDeclined)
  }

  /** FakeProvider.Refund under the key of refund row `refund`. */
  function RefundCall(j: Journal, refund: nat, charge: Option<nat>, amount: int): (Journal, RefundReply) {
    if j.down then (j, RefundUnavailable)
    else
      match FindSent(j.sent, refund)
      case Some(s) => (j, RefundOk(s))
      case None => (j.(sent := j.sent + [Sent(refund, charge, amount)]), RefundOk(|j.sent|))
  }

  /** FakeProvider.ChargeStatus. */
  function StatusCall(j: Journal, key: string): StatusReply {
    if j.down then StatusUnavailable
    else
      match FindCharge(j.charges, key)
      case None => NotFound
      case Some(c) => if j.charges[c].charged then WasCharged(c) else WasDeclined
  }

  /** The EXISTS of ListCharges: some refund names this charge. */
  predicate ReturnedAt(sent: seq<Sent>, charge: nat) {
    exists i | 0 <= i < |sent| :: sent[i].charge == Some(charge)
  }
}
