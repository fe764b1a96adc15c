/** Which transaction a flight's move is: used wherever only the effect on the tables matters. */
module Effects {
  import opened Domain
  import opened Tables
  import opened Payments
  import opened Reconciliation
  import opened Protocol

  datatype Effect =
    | Quiet
    | Starts(order: nat, key: string, keyFirst: bool)
    | Transitions(payment: nat, to: PaymentStatus, charge: Option<nat>)
    | Refunds(refund: nat, owner: nat, sent: nat)

  function EffectOf(f: Flight, ch: Choice): Effect {
    match f
    case Starting(order, key) => Starts(order, key, ch.keyFirst)
    case Recording(p, to, charge) => Transitions(p, to, charge)
    case Resolving(p, to, charge, _) => Transitions(p, to, charge)
    case RefundSent(r, p, sent) => Refunds(r, p, sent)
    case Fixing(ours, theirs, action) =>
      if action == FixPaymentSucceeded then Transitions(ours.payment, Succeeded, Some(theirs.charge))
      else if action == FixPaymentFailed then Transitions(ours.payment, Failed, None)
      else if action == FixRefundSucceeded && ours.refund.Some? && ours.status == Succeeded
      then Transitions(ours.payment, Refunded, None)
      else Quiet
    case _ => Quiet
  }

  ghost predicate SameStatuses(a: seq<Payment>, b: seq<Payment>) {
    |a| == |b| && forall p | 0 <= p < |a| :: b[p].status == a[p].status
  }

  /** Nothing but worker columns and refund rows changes. */
  ghost predicate QuietChange(db: Db, db': Db) {
    && db'.products == db.products && db'.orders == db.orders && db'.created == db.created && db'.events == db.events
    && SameStatuses(db.payments, db'.payments)
  }

  ghost predicate Performs(db: Db, db': Db, e: Effect, now: nat) {
    match e
    case Quiet => QuietChange(db, db')
    case Starts(order, key, keyFirst) => db' == StartTx(db, order, key, keyFirst, now).0
    case Transitions(p, to, charge) => db' == TransitionTx(db, p, to, charge).0
    case Refunds(r, p, sent) => db' == RefundSucceededTx(db, r, p, sent).0
  }

  /** A move leaves the other flights alone; only a charge request reaches the journal of charges, and
      a new one is made only for a pending payment. */
  ghost predicate MoveFrame(s: State, s': State, fid: nat)
    requires fid in s.flights
  {
    && s'.flights - {fid} == s.flights - {fid}
    && (!s.flights[fid].Charging? ==> s'.journal.charges == s.journal.charges)
    && (fid in s'.flights && s'.flights[fid].Charging? ==>
          && s'.flights[fid].payment < |s'.db.payments|
          && s'.db.payments[s'.flights[fid].payment].status == Pending)
  }

  ghost predicate MoveIs(c: Config, s: State, fid: nat, ch: Choice)
    requires fid in s.flights
  {
    var s' := MoveFlight(c, s, fid, ch);
    Performs(s.db, s'.db, EffectOf(s.flights[fid], ch), s.clock) && MoveFrame(s, s', fid)
  }

  lemma LookMove(c: Config, s: State, fid: nat, ch: Choice)
    requires fid in s.flights && (s.flights[fid].Looking? || s.flights[fid].LookingAgain?)
    ensures MoveIs(c, s, fid, ch)
  {
  }

  lemma RecordMove(c: Config, s: State, fid: nat, ch: Choice)
    requires fid in s.flights && (s.flights[fid].Recording?)
    ensures MoveIs(c, s, fid, ch)
  {
  }

  lemma StartMove(c: Config, s: State, fid: nat, ch: Choice)
    requires fid in s.flights && s.flights[fid].Starting?
    ensures MoveIs(c, s, fid, ch)
  {
  }

  lemma RefundResultMove(c: Config, s: State, fid: nat, ch: Choice)
    requires fid in s.flights && (s.flights[fid].RefundSent? || s.flights[fid].RefundRetry?)
    ensures MoveIs(c, s, fid, ch)
  {
  }

  lemma ResolveMove(c: Config, s: State, fid: nat, ch: Choice)
    requires fid in s.flights && (s.flights[fid].Resolving?)
    ensures MoveIs(c, s, fid, ch)
  {
  }

  lemma PostponeMove(c: Config, s: State, fid: nat, ch: Choice)
    requires fid in s.flights && (s.flights[fid].Postponing? || s.flights[fid].Parking?)
    ensures MoveIs(c, s, fid, ch)
  {
  }

  lemma ProviderMove(c: Config, s: State, fid: nat, ch: Choice)
    requires fid in s.flights && (s.flights[fid].Charging? || s.flights[fid].Refunding?)
    ensures MoveIs(c, s, fid, ch)
  {
  }

  lemma CheckMove(c: Config, s: State, fid: nat, ch: Choice)
    requires fid in s.flights && (s.flights[fid].Checking?)
    ensures MoveIs(c, s, fid, ch)
  {
  }

  lemma MatchMove(c: Config, s: State, fid: nat, ch: Choice)
    requires fid in s.flights && (s.flights[fid].Matching? || s.flights[fid].ClosingRefund?)
    ensures MoveIs(c, s, fid, ch)
  {
  }

  lemma FixMove(c: Config, s: State, fid: nat, ch: Choice)
    requires fid in s.flights && s.flights[fid].Fixing?
    ensures MoveIs(c, s, fid, ch)
  {
    var f := s.flights[fid];
    if f.action == FixRefundSucceeded {
      var r := TransitionTx(s.db, f.ours.payment, Refunded, None);
      assert r.1 != Moved ==> r.0 == s.db;
    }
  }

  /** Every move is exactly one of these transactions. */
  lemma MovePerforms(c: Config, s: State, fid: nat, ch: Choice)
    requires fid in s.flights
    ensures MoveIs(c, s, fid, ch)
  {
    var f := s.flights[fid];
    if f.Looking? || f.LookingAgain? { LookMove(c, s, fid, ch); }
    else if f.Starting? { StartMove(c, s, fid, ch); }
    else if f.Charging? || f.Refunding? { ProviderMove(c, s, fid, ch); }
    else if f.Recording? { RecordMove(c, s, fid, ch); }
    else if f.RefundSent? || f.RefundRetry? { RefundResultMove(c, s, fid, ch); }
    else if f.Checking? { CheckMove(c, s, fid, ch); }
    else if f.Resolving? { ResolveMove(c, s, fid, ch); }
    else if f.Postponing? || f.Parking? { PostponeMove(c, s, fid, ch); }
    else if f.Fixing? { FixMove(c, s, fid, ch); }
    else { MatchMove(c, s, fid, ch); }
  }

  /** The other steps make no request, leave other flights alone and charge nothing. */
  lemma OtherStepFrame(c: Config, s: State, step: Step)
    requires !step.Move?
    ensures var s' := Apply(c, s, step);
      && s'.journal.charges == s.journal.charges && |s'.db.payments| == |s.db.payments|
      && forall fid | fid in s'.flights && s'.flights[fid].Charging? ::
           fid in s.flights && s.flights[fid].Charging? && s'.flights[fid].payment == s.flights[fid].payment
  {
  }

  /** Of the other steps only Create and Cancel touch more than worker columns. */
  lemma OtherStepIsQuiet(c: Config, s: State, step: Step)
    requires !step.Move? && !step.Create? && !step.Cancel?
    ensures QuietChange(s.db, Apply(c, s, step).db)
  {
  }
}
