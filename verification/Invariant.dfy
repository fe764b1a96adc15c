/** The inductive invariant that ties our tables to the provider's journal. */
module Invariant {
  import opened Domain
  import opened Tables
  import opened Payments
  import opened Reconciliation
  import opened Protocol

  ghost predicate ChargedFor(charges: seq<Charge>, charge: Option<nat>, key: string) {
    charge.Some? && charge.value < |charges| && charges[charge.value].key == key && charges[charge.value].charged
  }

  ghost predicate DeclinedFor(charges: seq<Charge>, key: string) {
    FindCharge(charges, key).Some? && !charges[FindCharge(charges, key).value].charged
  }

  ghost predicate MoneyReturned(refunds: seq<Refund>, sent: seq<Sent>, payment: nat) {
    FindRefund(refunds, payment).Some? && FindSent(sent, FindRefund(refunds, payment).value).Some?
  }

  /** What a payment's status says about its order, its refund row and the provider. */
  ghost predicate PaymentRow(db: Db, j: Journal, i: nat)
    requires i < |db.payments|
  {
    var p := db.payments[i];
    && p.order < |db.orders| && p.amount == Total(db.orders[p.order].items) && p.amount > 0 && p.key != ""
    && var o := db.orders[p.order].status;
       var refund := FindRefund(db.refunds, i);
       match p.status
       case Pending => o == Open && p.charge.None? && refund.None?
       case Succeeded =>
         ChargedFor(j.charges, p.charge, p.key) && ((o == Paid && refund.None?) || (o == Cancelled && refund.Some?))
       case Failed => p.charge.None? && refund.None? && DeclinedFor(j.charges, p.key)
       case Expired => p.charge.None? && refund.None?
       case Refunded => ChargedFor(j.charges, p.charge, p.key) && o == Cancelled && MoneyReturned(db.refunds, j.sent, i)
  }

  ghost predicate RefundRow(db: Db, i: nat)
    requires i < |db.refunds|
  {
    var r := db.refunds[i];
    && r.payment < |db.payments| && r.amount == db.payments[r.payment].amount
    && (db.payments[r.payment].status == Succeeded || db.payments[r.payment].status == Refunded)
    && (r.status == Done ==> db.payments[r.payment].status == Refunded)
  }

  ghost predicate ChargeRow(db: Db, c: Charge) {
    && c.key != "" && FindPayment(db.payments, c.key).Some?
    && db.payments[FindPayment(db.payments, c.key).value].amount == c.amount
  }

  ghost predicate SentRow(db: Db, e: Sent) {
    && e.refund < |db.refunds| && db.refunds[e.refund].payment < |db.payments|
    && e.amount == db.refunds[e.refund].amount
    && e.charge.Some? && e.charge == db.payments[db.refunds[e.refund].payment].charge
  }

  ghost predicate OrderRow(db: Db, i: nat)
    requires i < |db.orders|
  {
    && db.orders[i].status in {Open, Paid, Cancelled}
    && (db.orders[i].status == Paid ==> FindInStatus(db.payments, i, Succeeded).Some?)
  }

  ghost predicate PaymentsOk(db: Db, j: Journal) { forall i | 0 <= i < |db.payments| :: PaymentRow(db, j, i) }
  ghost predicate RefundsOk(db: Db) { forall i | 0 <= i < |db.refunds| :: RefundRow(db, i) }
  ghost predicate ChargesOk(db: Db, j: Journal) { forall i | 0 <= i < |j.charges| :: ChargeRow(db, j.charges[i]) }
  ghost predicate SentsOk(db: Db, j: Journal) { forall i | 0 <= i < |j.sent| :: SentRow(db, j.sent[i]) }
  ghost predicate OrdersOk(db: Db) { forall i | 0 <= i < |db.orders| :: OrderRow(db, i) }

  /** Of an order's payments at most one was ever neither declined nor expired: the index covers
      pending and succeeded, and after a refund the order is cancelled, so no payment can start. */
  ghost predicate Live(s: PaymentStatus) {
    s == Pending || s == Succeeded || s == Refunded
  }

  ghost predicate OneLive(payments: seq<Payment>) {
    forall i, k | 0 <= i < k < |payments| ::
      payments[i].order == payments[k].order ==> !(Live(payments[i].status) && Live(payments[k].status))
  }

  ghost predicate TablesInv(db: Db, j: Journal) {
    Schema(db) && JournalSchema(j) && OneLive(db.payments) && PaymentsOk(db, j) && RefundsOk(db) && ChargesOk(db, j)
        && SentsOk(db, j) && OrdersOk(db)
  }

  // ----- calls in flight

  /** The provider's answer that a pending transition is about to record. */
  ghost predicate MoveOk(db: Db, j: Journal, payment: nat, to: PaymentStatus, charge: Option<nat>) {
    && payment < |db.payments|
    && match to
       case Succeeded => ChargedFor(j.charges, charge, db.payments[payment].key)
       case Failed => charge.None? && DeclinedFor(j.charges, db.payments[payment].key)
       case Expired => charge.None?
       case _ => false
  }

  ghost predicate TheirsOk(j: Journal, key: string, t: Theirs) {
    && t.key == key && key != "" && t.charge < |j.charges|
    && j.charges[t.charge].key == key && j.charges[t.charge].amount == t.amount
    && (t.status == Declined <==> !j.charges[t.charge].charged)
    && (t.status == Returned ==> ReturnedAt(j.sent, t.charge))
  }

  ghost predicate FixOk(db: Db, j: Journal, ours: Ours, theirs: Theirs, action: Action) {
    && ours.payment < |db.payments| && db.payments[ours.payment].key == theirs.key && TheirsOk(j, theirs.key, theirs)
    && match action
       case FixPaymentSucceeded => theirs.status == Charged
       case FixPaymentFailed => theirs.status == Declined
       case FixRefundSucceeded =>
         && theirs.status == Returned
         && ours.refund.Some?
         && ours.refund.value < |db.refunds|
         && db.refunds[ours.refund.value].payment == ours.payment
         && ours.status in {Succeeded, Refunded}
         && (ours.status == Refunded ==> db.payments[ours.payment].status == Refunded)
       case _ => false
  }

  ghost predicate FlightOk(db: Db, j: Journal, f: Flight) {
    match f
    case Looking(_, key) => key != ""
    case Starting(_, key) => key != ""
    case LookingAgain(_, key) => key != ""
    case Charging(_, key, p, amount, _) =>
      key != "" && p < |db.payments| && db.payments[p].key == key && db.payments[p].amount == amount
    case Recording(p, to, charge) => MoveOk(db, j, p, to, charge)
    case Refunding(r, p, amount, _, charge, _) =>
      && r < |db.refunds| && db.refunds[r].payment == p && db.refunds[r].amount == amount
      && p < |db.payments| && charge.Some? && db.payments[p].charge == charge
    case RefundSent(r, p, _) =>
      r < |db.refunds| && db.refunds[r].payment == p && p < |db.payments| && FindSent(j.sent, r).Some?
    case RefundRetry(_, _) => true
    case Checking(p, key, _, _) => p < |db.payments| && db.payments[p].key == key
    case Resolving(p, to, charge, _) => MoveOk(db, j, p, to, charge)
    case Postponing(_, _, _) => true
    case Parking(_) => true
    case Matching(key, listed) => listed.Some? ==> TheirsOk(j, key, listed.value)
    case Fixing(ours, theirs, action) => FixOk(db, j, ours, theirs, action)
    case ClosingRefund(r) =>
      && r < |db.refunds| && db.refunds[r].payment < |db.payments|
      && db.payments[db.refunds[r].payment].status == Refunded
  }

  ghost predicate FlightsOk(s: State) {
    forall fid | fid in s.flights :: FlightOk(s.db, s.journal, s.flights[fid])
  }

  ghost predicate Inv(s: State) {
    TablesInv(s.db, s.journal) && FlightsOk(s)
  }

  // ----- what never changes once written

  ghost predicate Grows(db: Db, j: Journal, db': Db, j': Journal) {
    && |db.payments| <= |db'.payments| && |db.refunds| <= |db'.refunds| && |db.orders| <= |db'.orders|
    && (forall i | 0 <= i < |db.orders| :: db'.orders[i].items == db.orders[i].items)
    && (forall i | 0 <= i < |db.payments| :: PaymentGrows(db.payments[i], db'.payments[i]))
    && (forall i | 0 <= i < |db.refunds| ::
          db'.refunds[i].payment == db.refunds[i].payment && db'.refunds[i].amount == db.refunds[i].amount)
    && j.charges <= j'.charges && j.sent <= j'.sent
  }

  ghost predicate PaymentGrows(p: Payment, p': Payment) {
    && p'.key == p.key && p'.amount == p.amount && p'.order == p.order && p'.createdAt == p.createdAt
    && (p.charge.Some? ==> p'.charge == p.charge) && (p.manual ==> p'.manual)
    && (p.status != p'.status ==> p.status == Pending || (p.status == Succeeded && p'.status == Refunded))
  }

  // ----- lookups are stable

  lemma FoundPayment(payments: seq<Payment>, i: nat)
    requires UniquePaymentKeys(payments) && i < |payments| && payments[i].key != ""
    ensures FindPayment(payments, payments[i].key) == Some(i)
  {
    var r := FindPayment(payments, payments[i].key);
  }

  lemma FoundCharge(charges: seq<Charge>, i: nat)
    requires UniqueCharges(charges) && i < |charges| && charges[i].key != ""
    ensures FindCharge(charges, charges[i].key) == Some(i)
  {
    var r := FindCharge(charges, charges[i].key);
  }

  lemma FoundRefund(refunds: seq<Refund>, i: nat)
    requires UniqueRefunds(refunds) && i < |refunds|
    ensures FindRefund(refunds, refunds[i].payment) == Some(i)
  {
    var r := FindRefund(refunds, refunds[i].payment);
  }

  lemma FoundSent(sent: seq<Sent>, i: nat)
    requires UniqueSent(sent) && i < |sent|
    ensures FindSent(sent, sent[i].refund) == Some(i)
  {
    var r := FindSent(sent, sent[i].refund);
  }

  lemma ChargeStays(charges: seq<Charge>, charges': seq<Charge>, key: string)
    requires UniqueCharges(charges') && charges <= charges'
    ensures FindCharge(charges, key).Some? ==> FindCharge(charges', key) == FindCharge(charges, key)
  {
    var c := FindCharge(charges, key);
    if c.Some? {
      assert charges'[c.value] == charges[c.value];
      FoundCharge(charges', c.value);
    }
  }

  lemma SentStays(sent: seq<Sent>, sent': seq<Sent>, refund: nat)
    requires UniqueSent(sent') && sent <= sent'
    ensures FindSent(sent, refund).Some? ==> FindSent(sent', refund) == FindSent(sent, refund)
  {
    var e := FindSent(sent, refund);
    if e.Some? {
      assert sent'[e.value] == sent[e.value];
      FoundSent(sent', e.value);
    }
  }

  /** Refund rows keep their payment, so lookups of old rows are unchanged. */
  lemma RefundStays(refunds: seq<Refund>, refunds': seq<Refund>, payment: nat)
    requires UniqueRefunds(refunds') && |refunds| <= |refunds'|
    requires forall i | 0 <= i < |refunds| :: refunds'[i].payment == refunds[i].payment
    ensures FindRefund(refunds, payment).Some? ==> FindRefund(refunds', payment) == FindRefund(refunds, payment)
  {
    var r := FindRefund(refunds, payment);
    if r.Some? {
      assert refunds'[r.value].payment == payment;
      FoundRefund(refunds', r.value);
    }
  }

  lemma PaymentStays(payments: seq<Payment>, payments': seq<Payment>, key: string)
    requires UniquePaymentKeys(payments') && |payments| <= |payments'|
    requires forall i | 0 <= i < |payments| :: payments'[i].key == payments[i].key
    ensures FindPayment(payments, key).Some? ==> FindPayment(payments', key) == FindPayment(payments, key)
  {
    var r := FindPayment(payments, key);
    if r.Some? {
      assert payments'[r.value].key == key;
      FoundPayment(payments', r.value);
    }
  }

  /** Nothing a call in flight relies on can be undone by others. */
  lemma FlightStays(db: Db, j: Journal, db': Db, j': Journal, f: Flight)
    requires FlightOk(db, j, f) && Grows(db, j, db', j') && JournalSchema(j')
    ensures FlightOk(db', j', f)
  {
    match f
    case Charging(_, _, p, _, _) => assert PaymentGrows(db.payments[p], db'.payments[p]);
    case Recording(p, to, charge) => MoveStays(db, j, db', j', p, to, charge);
    case Resolving(p, to, charge, _) => MoveStays(db, j, db', j', p, to, charge);
    case Refunding(r, p, _, _, _, _) => assert PaymentGrows(db.payments[p], db'.payments[p]);
    case RefundSent(r, _, _) => SentStays(j.sent, j'.sent, r);
    case Checking(p, _, _, _) => assert PaymentGrows(db.payments[p], db'.payments[p]);
    case Matching(key, listed) => if listed.Some? { TheirsStays(j, j', key, listed.value); }
    case Fixing(ours, theirs, _) =>
      TheirsStays(j, j', theirs.key, theirs);
      assert PaymentGrows(db.payments[ours.payment], db'.payments[ours.payment]);
    case ClosingRefund(r) => assert PaymentGrows(db.payments[db.refunds[r].payment],
                                                 db'.payments[db.refunds[r].payment]);
    case _ =>
  }

  lemma MoveStays(db: Db, j: Journal, db': Db, j': Journal, payment: nat, to: PaymentStatus, charge: Option<nat>)
    requires MoveOk(db, j, payment, to, charge) && Grows(db, j, db', j') && JournalSchema(j')
    ensures MoveOk(db', j', payment, to, charge)
  {
    assert PaymentGrows(db.payments[payment], db'.payments[payment]);
    ChargeStays(j.charges, j'.charges, db.payments[payment].key);
  }

  lemma TheirsStays(j: Journal, j': Journal, key: string, t: Theirs)
    requires TheirsOk(j, key, t) && j.charges <= j'.charges && j.sent <= j'.sent
    ensures TheirsOk(j', key, t)
  {
    if ReturnedAt(j.sent, t.charge) {
      var i :| 0 <= i < |j.sent| && j.sent[i].charge == Some(t.charge);
      assert j'.sent[i].charge == Some(t.charge);
    }
  }

  lemma FlightsStay(s: State, db': Db, j': Journal)
    requires FlightsOk(s) && Grows(s.db, s.journal, db', j') && JournalSchema(j')
    ensures forall fid | fid in s.flights :: FlightOk(db', j', s.flights[fid])
  {
    forall fid | fid in s.flights ensures FlightOk(db', j', s.flights[fid]) {
      FlightStays(s.db, s.journal, db', j', s.flights[fid]);
    }
  }
}
