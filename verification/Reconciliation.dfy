/** The decision table of the reconciliation job (reconciliation/classify.go). */
module Reconciliation {
  import opened Domain
  import opened Tables
  import opened Payments

  datatype Kind = Matched | MissingAtProvider | MissingAtOurs | AmountMismatch | StatusMismatch

  datatype Action = NoAction | FixPaymentSucceeded | FixPaymentFailed | FixRefundSucceeded | Manual

  datatype ProviderStatus = Charged | Declined | Returned

  datatype Ours = Ours(payment: nat, order: nat, key: string, amount: int, status: PaymentStatus, charge: Option<nat>,
                       refund: Option<nat>, refundStatus: RefundStatus)

  datatype Theirs = Theirs(key: string, charge: nat, amount: int, status: ProviderStatus)

  datatype Finding = Finding(kind: Kind, action: Action)

  function Classify(ours: Option<Ours>, theirs: Option<Theirs>): Finding {
    if ours.None? && theirs.None? then Finding(Matched, NoAction)
    else if ours.None? then
      if theirs.value.status == Declined then Finding(Matched, NoAction) else Finding(MissingAtOurs, Manual)
    else if theirs.None? then
      if ours.value.status in {Failed, Expired, Pending} then Finding(Matched, NoAction)
      else Finding(MissingAtProvider, Manual)
    else
      var o, t := ours.value, theirs.value;
      if t.status in {Charged, Returned} && o.amount != t.amount then Finding(AmountMismatch, Manual)
      else if || (o.status == Succeeded && t.status == Charged)
              || (o.status == Failed && t.status == Declined)
              || (o.status == Expired && t.status == Declined)
              || (o.status == Refunded && t.status == Returned && o.refund.Some? && o.refundStatus == Done)
        then Finding(Matched, NoAction)
      else if o.status == Pending && t.status == Charged then Finding(StatusMismatch, FixPaymentSucceeded)
      else if o.status == Pending && t.status == Declined then Finding(StatusMismatch, FixPaymentFailed)
      else if && t.status == Returned && o.refund.Some? && o.refundStatus in {Waiting, ManualReview}
              && o.status in {Succeeded, Refunded}
        then Finding(StatusMismatch, FixRefundSucceeded)
      else Finding(StatusMismatch, Manual)
  }

  /** The row of the job's query for one payment, with its refund joined. */
  function OursOf(db: Db, payment: nat): Ours
    requires payment < |db.payments|
  {
    var p := db.payments[payment];
    var r := FindRefund(db.refunds, payment);
    Ours(payment, p.order, p.key, p.amount, p.status, p.charge, r, if r.Some? then db.refunds[r.value].status
        else Waiting)
  }

  function OursFor(db: Db, key: string): Option<Ours> {
    match FindPayment(db.payments, key)
    case None => None
    case Some(p) => Some(OursOf(db, p))
  }

  /** One element of ListCharges. */
  function TheirsOf(j: Journal, charge: nat): Theirs
    requires charge < |j.charges|
  {
    var c := j.charges[charge];
    Theirs(c.key, charge, c.amount,
           if !c.charged then Declined else if ReturnedAt(j.sent, charge) then Returned else Charged)
  }

  function TheirsFor(j: Journal, key: string): Option<Theirs> {
    match FindCharge(j.charges, key)
    case None => None
    case Some(c) => Some(TheirsOf(j, c))
  }
}
