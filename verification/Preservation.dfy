/** Every transaction and every provider call keeps the invariant, one lemma each. */
module Preservation {
  import opened Domain
  import opened Tables
  import opened Orders
  import opened Payments
  import opened Invariant

  /** The journal's rows stay explained by our tables as the tables grow. */
  lemma JournalRowsStay(db: Db, j: Journal, db': Db)
    requires ChargesOk(db, j) && SentsOk(db, j) && Grows(db, j, db', j) && UniquePaymentKeys(db'.payments)
    ensures ChargesOk(db', j) && SentsOk(db', j)
  {
    forall i | 0 <= i < |j.charges| ensures ChargeRow(db', j.charges[i]) {
      assert ChargeRow(db, j.charges[i]);
      PaymentStays(db.payments, db'.payments, j.charges[i].key);
    }
    forall i | 0 <= i < |j.sent| ensures SentRow(db', j.sent[i]) {
      assert SentRow(db, j.sent[i]);
      assert PaymentGrows(db.payments[db.refunds[j.sent[i].refund].payment],
                          db'.payments[db.refunds[j.sent[i].refund].payment]);
    }
  }

  lemma CreateKeeps(db: Db, j: Journal, lines: seq<Line>, key: string)
    requires TablesInv(db, j)
    ensures var db' := CreateTx(db, lines, key).0; TablesInv(db', j) && Grows(db, j, db', j)
  {
    var db' := CreateTx(db, lines, key).0;
    forall i | 0 <= i < |db.payments| ensures PaymentRow(db', j, i) {
      assert PaymentRow(db, j, i);
    }
    forall i | 0 <= i < |db.refunds| ensures RefundRow(db', i) { assert RefundRow(db, i); }
    JournalRowsStay(db, j, db');
    forall i | 0 <= i < |db'.orders| ensures OrderRow(db', i) { if i < |db.orders| { assert OrderRow(db, i); } }
  }

  lemma StartKeeps(db: Db, j: Journal, order: nat, key: string, keyFirst: bool, now: nat)
    requires TablesInv(db, j) && key != ""
    ensures var (db', r) := StartTx(db, order, key, keyFirst, now);
      && TablesInv(db', j) && Grows(db, j, db', j)
      && (r.Started? ==> r.payment < |db'.payments| && db'.payments[r.payment].key == key)
  {
    var (db', r) := StartTx(db, order, key, keyFirst, now);
    if r.Started? {
      var n := |db.payments|;
      StartKeepsSchema(db, order, key, keyFirst, now);
      StartKeepsOneLive(db, j, order, key, keyFirst, now);
      forall i | 0 <= i < |db'.payments| ensures PaymentRow(db', j, i) {
        if i < n {
          assert PaymentRow(db, j, i);
        } else {
          var row := FindRefund(db.refunds, n);
          assert row.Some? ==> RefundRow(db, row.value);
        }
      }
      forall i | 0 <= i < |db.refunds| ensures RefundRow(db', i) { assert RefundRow(db, i); }
      JournalRowsStay(db, j, db');
      forall i | 0 <= i < |db.orders| ensures OrderRow(db', i) {
        assert OrderRow(db, i);
        InStatusStays(db.payments, db'.payments, i);
      }
    }
  }

  lemma StartKeepsOneLive(db: Db, j: Journal, order: nat, key: string, keyFirst: bool, now: nat)
    requires TablesInv(db, j)
    ensures OneLive(StartTx(db, order, key, keyFirst, now).0.payments)
  {
    if StartTx(db, order, key, keyFirst, now).1.Started? {
      forall i | 0 <= i < |db.payments| && db.payments[i].order == order ensures !Live(db.payments[i].status) {
        assert PaymentRow(db, j, i);
      }
    }
  }

  lemma StartKeepsSchema(db: Db, order: nat, key: string, keyFirst: bool, now: nat)
    requires Schema(db)
    ensures Schema(StartTx(db, order, key, keyFirst, now).0)
  {
  }

  lemma InStatusStays(payments: seq<Payment>, payments': seq<Payment>, order: nat)
    requires |payments| <= |payments'|
    requires forall i | 0 <= i < |payments| && payments[i].order == order && payments[i].status == Succeeded ::
      payments'[i].order == order && payments'[i].status == Succeeded
    ensures FindInStatus(payments, order, Succeeded).Some? ==> FindInStatus(payments', order, Succeeded).Some?
  {
    var f := FindInStatus(payments, order, Succeeded);
    if f.Some? { assert payments'[f.value].order == order; }
  }

  /** The transition an answer of the provider leads to; a pending payment's order is always still open. */
  lemma TransitionKeeps(db: Db, j: Journal, payment: nat, to: PaymentStatus, charge: Option<nat>)
    requires TablesInv(db, j) && MoveOk(db, j, payment, to, charge)
    ensures var (db', r) := TransitionTx(db, payment, to, charge);
      && TablesInv(db', j) && Grows(db, j, db', j)
      && r == (if db.payments[payment].status == Pending then Moved else IllegalMove(db.payments[payment].status))
  {
    var (db', r) := TransitionTx(db, payment, to, charge);
    assert PaymentRow(db, j, payment);
    if r == Moved {
      TransitionKeepsSchema(db, payment, to, charge);
      forall i | 0 <= i < |db'.payments| ensures PaymentRow(db', j, i) {
        TransitionKeepsPayment(db, j, payment, to, charge, i);
      }
      TransitionKeepsOrders(db, j, payment, to, charge);
      forall i | 0 <= i < |db.refunds| ensures RefundRow(db', i) { assert RefundRow(db, i); }
      TransitionGrows(db, j, payment, to, charge);
      JournalRowsStay(db, j, db');
    }
  }

  lemma TransitionGrows(db: Db, j: Journal, payment: nat, to: PaymentStatus, charge: Option<nat>)
    requires PaymentsOk(db, j) && payment < |db.payments|
    ensures db.payments[payment].status == Pending ==> Grows(db, j, TransitionTx(db, payment, to, charge).0, j)
  {
    assert PaymentRow(db, j, payment);
  }

  lemma TransitionKeepsPayment(db: Db, j: Journal, payment: nat, to: PaymentStatus, charge: Option<nat>, i: nat)
    requires TablesInv(db, j) && MoveOk(db, j, payment, to, charge) && i < |db.payments|
    requires db.payments[payment].status == Pending
    ensures PaymentRow(TransitionTx(db, payment, to, charge).0, j, i)
  {
    assert PaymentRow(db, j, payment) && PaymentRow(db, j, i);
    if i != payment && db.payments[i].order == db.payments[payment].order {
      assert !(Active(db.payments[i].status) && Active(db.payments[payment].status));
    }
  }

  lemma TransitionKeepsOrders(db: Db, j: Journal, payment: nat, to: PaymentStatus, charge: Option<nat>)
    requires TablesInv(db, j) && MoveOk(db, j, payment, to, charge)
    requires db.payments[payment].status == Pending
    ensures OrdersOk(TransitionTx(db, payment, to, charge).0)
  {
    var db' := TransitionTx(db, payment, to, charge).0;
    assert PaymentRow(db, j, payment);
    var p := db.payments[payment];
    forall i | 0 <= i < |db'.orders| ensures OrderRow(db', i) {
      assert OrderRow(db, i);
      InStatusStays(db.payments, db'.payments, i);
      if i == p.order { assert db'.payments[payment].order == i; }
    }
  }

  lemma TransitionKeepsSchema(db: Db, payment: nat, to: PaymentStatus, charge: Option<nat>)
    requires Schema(db)
    ensures Schema(TransitionTx(db, payment, to, charge).0)
  {
    var db' := TransitionTx(db, payment, to, charge).0;
    if db' != db {
      assert Active(db'.payments[payment].status) ==> Active(db.payments[payment].status);
    }
  }

  lemma RefundedKeepsRows(db: Db, j: Journal, payment: nat, events: seq<Event>)
    requires PaymentsOk(db, j) && RefundsOk(db) && payment < |db.payments|
    requires db.payments[payment].status == Succeeded && MoneyReturned(db.refunds, j.sent, payment)
    ensures var row := db.payments[payment].(status := Refunded);
      var db' := db.(payments := db.payments[payment := row], events := events);
      PaymentsOk(db', j) && RefundsOk(db') && Grows(db, j, db', j)
  {
    var db' := db.(payments := db.payments[payment := db.payments[payment].(status := Refunded)], events := events);
    assert PaymentRow(db, j, payment);
    forall i | 0 <= i < |db'.payments| ensures PaymentRow(db', j, i) { assert PaymentRow(db, j, i); }
    forall i | 0 <= i < |db.refunds| ensures RefundRow(db', i) { assert RefundRow(db, i); }
  }

  /** succeeded -> refunded, once the provider has returned the money of a cancelled order. */
  lemma RefundedKeeps(db: Db, j: Journal, payment: nat, events: seq<Event>)
    requires TablesInv(db, j) && payment < |db.payments|
    requires db.payments[payment].status == Succeeded && MoneyReturned(db.refunds, j.sent, payment)
    ensures var row := db.payments[payment].(status := Refunded);
      var db' := db.(payments := db.payments[payment := row], events := events);
      TablesInv(db', j) && Grows(db, j, db', j)
  {
    RefundedKeepsRows(db, j, payment, events);
    RefundedKeepsOrders(db, j, payment, events);
    var row := db.payments[payment].(status := Refunded);
    JournalRowsStay(db, j, db.(payments := db.payments[payment := row], events := events));
  }

  lemma RefundedKeepsOrders(db: Db, j: Journal, payment: nat, events: seq<Event>)
    requires PaymentsOk(db, j) && OrdersOk(db) && payment < |db.payments|
    requires db.payments[payment].status == Succeeded && MoneyReturned(db.refunds, j.sent, payment)
    ensures OrdersOk(db.(payments := db.payments[payment := db.payments[payment].(status := Refunded)],
                         events := events))
  {
    var db' := db.(payments := db.payments[payment := db.payments[payment].(status := Refunded)], events := events);
    assert PaymentRow(db, j, payment);
    forall i | 0 <= i < |db'.orders| ensures OrderRow(db', i) {
      assert OrderRow(db, i);
      if db.orders[i].status == Paid { InStatusStays(db.payments, db'.payments, i); }
    }
  }

  /** Attempts, dates, errors, manual review; and "succeeded" once the payment is refunded. */
  lemma RefundUpdateKeeps(db: Db, j: Journal, refund: nat, row: Refund)
    requires TablesInv(db, j) && refund < |db.refunds|
    requires row.payment == db.refunds[refund].payment && row.amount == db.refunds[refund].amount
    requires row.status == Done ==>
      row.payment < |db.payments| && db.payments[row.payment].status == Refunded
    ensures var db' := db.(refunds := db.refunds[refund := row]); TablesInv(db', j) && Grows(db, j, db', j)
  {
    var db' := db.(refunds := db.refunds[refund := row]);
    assert RefundRow(db, refund);
    assert UniqueRefunds(db'.refunds);
    forall i | 0 <= i < |db.payments| ensures PaymentRow(db', j, i) {
      assert PaymentRow(db, j, i);
      RefundStays(db.refunds, db'.refunds, i);
      RefundStays(db'.refunds, db.refunds, i);
    }
    forall i | 0 <= i < |db'.refunds| ensures RefundRow(db', i) { assert RefundRow(db, i); }
    forall i | 0 <= i < |db.orders| ensures OrderRow(db', i) { assert OrderRow(db, i); }
    JournalRowsStay(db, j, db');
  }

  /** The stuck-payment worker's columns. */
  lemma PaymentUpdateKeeps(db: Db, j: Journal, payment: nat, row: Payment)
    requires TablesInv(db, j) && payment < |db.payments|
    requires var p := db.payments[payment];
      && row.order == p.order && row.amount == p.amount && row.createdAt == p.createdAt
      && row.status == p.status && row.key == p.key && row.charge == p.charge && (p.manual ==> row.manual)
    ensures var db' := db.(payments := db.payments[payment := row]); TablesInv(db', j) && Grows(db, j, db', j)
  {
    var db' := db.(payments := db.payments[payment := row]);
    forall i | 0 <= i < |db'.payments| ensures PaymentRow(db', j, i) { assert PaymentRow(db, j, i); }
    forall i | 0 <= i < |db.refunds| ensures RefundRow(db', i) { assert RefundRow(db, i); }
    forall i | 0 <= i < |db.orders| ensures OrderRow(db', i) {
      assert OrderRow(db, i);
      InStatusStays(db.payments, db'.payments, i);
    }
    JournalRowsStay(db, j, db');
  }

  /** Cancelling: no payment is pending, and a paid order gets its one refund. */
  lemma CancelKeeps(db: Db, j: Journal, order: nat, now: nat)
    requires TablesInv(db, j)
    ensures var db' := CancelTx(db, order, now).0; TablesInv(db', j) && Grows(db, j, db', j)
  {
    var (db', r) := CancelTx(db, order, now);
    if r == CancelDone {
      assert OrderRow(db, order);
      CancelRefund(db, j, order, now);
      forall i | 0 <= i < |db.payments| ensures PaymentRow(db', j, i) { CancelKeepsPayment(db, j, order, now, i); }
      forall i | 0 <= i < |db'.refunds| ensures RefundRow(db', i) { if i < |db.refunds| { assert RefundRow(db, i); } }
      forall i | 0 <= i < |db.orders| ensures OrderRow(db', i) { assert OrderRow(db, i); }
      JournalRowsStay(db, j, db');
    }
  }

  /** The refund rows after cancelling: unchanged for an unpaid order, one more for the succeeded payment of a paid
      one. */
  lemma CancelRefund(db: Db, j: Journal, order: nat, now: nat)
    requires TablesInv(db, j) && CancelTx(db, order, now).1 == CancelDone
    ensures var refunds' := CancelTx(db, order, now).0.refunds; var paid := FindInStatus(db.payments, order, Succeeded);
      if db.orders[order].status == Paid then
        && paid.Some? && FindRefund(db.refunds, paid.value).None?
        && refunds' == db.refunds + [Refund(paid.value, db.payments[paid.value].amount, Waiting, 0, now, None)]
      else refunds' == db.refunds
    ensures UniqueRefunds(CancelTx(db, order, now).0.refunds)
  {
    assert OrderRow(db, order);
    if db.orders[order].status == Paid {
      var paid := FindInStatus(db.payments, order, Succeeded);
      assert PaymentRow(db, j, paid.value);
    }
  }

  lemma CancelKeepsPayment(db: Db, j: Journal, order: nat, now: nat, i: nat)
    requires TablesInv(db, j) && CancelTx(db, order, now).1 == CancelDone && i < |db.payments|
    ensures PaymentRow(CancelTx(db, order, now).0, j, i)
  {
    var db' := CancelTx(db, order, now).0;
    CancelRefund(db, j, order, now);
    assert PaymentRow(db, j, i);
    RefundStays(db.refunds, db'.refunds, i);
    if db.orders[order].status == Paid {
      var paid := FindInStatus(db.payments, order, Succeeded).value;
      var n := |db.refunds|;
      assert db'.refunds[n].payment == paid;
      FoundRefund(db'.refunds, n);
      if i != paid {
        var f := FindRefund(db'.refunds, i);
        assert f.Some? ==> f.value != n && db.refunds[f.value].payment == i;
        if db.payments[i].order == order {
          assert !(Active(db.payments[i].status) && Active(db.payments[paid].status));
        }
      }
    }
  }

  // ----- the provider

  lemma ChargeCallKeeps(db: Db, j: Journal, key: string, order: nat, amount: int, approve: bool, now: nat)
    requires TablesInv(db, j) && key != "" && ChargeRow(db, Charge(key, order, amount, approve, now))
    ensures var (j', reply) := ChargeCall(j, key, order, amount, approve, now);
      && TablesInv(db, j') && Grows(db, j, db, j')
      && (reply.ChargeOk? ==> ChargedFor(j'.charges, Some(reply.charge), key))
      && (reply.ChargeDeclined? ==> DeclinedFor(j'.charges, key))
  {
    var (j', reply) := ChargeCall(j, key, order, amount, approve, now);
    var n := |j.charges|;
    if |j'.charges| > n {
      assert j'.charges[n].key == key;
      assert UniqueCharges(j'.charges);
      FoundCharge(j'.charges, n);
    }
    forall i | 0 <= i < |db.payments| ensures PaymentRow(db, j', i) {
      assert PaymentRow(db, j, i);
      ChargeStays(j.charges, j'.charges, db.payments[i].key);
    }
    forall i | 0 <= i < |j'.charges| ensures ChargeRow(db, j'.charges[i]) {
      if i < n { assert ChargeRow(db, j.charges[i]); }
    }
  }

  lemma RefundCallKeeps(db: Db, j: Journal, refund: nat, charge: Option<nat>, amount: int)
    requires TablesInv(db, j) && SentRow(db, Sent(refund, charge, amount))
    ensures var (j', reply) := RefundCall(j, refund, charge, amount);
      && TablesInv(db, j') && Grows(db, j, db, j')
      && (reply.RefundOk? ==> FindSent(j'.sent, refund).Some?)
  {
    var (j', reply) := RefundCall(j, refund, charge, amount);
    var n := |j.sent|;
    if |j'.sent| > n {
      assert j'.sent[n].refund == refund;
      assert UniqueSent(j'.sent);
    }
    forall i | 0 <= i < |db.payments| ensures PaymentRow(db, j', i) {
      assert PaymentRow(db, j, i);
      if db.payments[i].status == Refunded { SentStays(j.sent, j'.sent, FindRefund(db.refunds, i).value); }
    }
    forall i | 0 <= i < |j'.sent| ensures SentRow(db, j'.sent[i]) {
      if i < n { assert SentRow(db, j.sent[i]); }
    }
  }
}
