/** What the protocol guarantees in every reachable state, over every interleaving. */
module PaymentTheorems {
  import opened Domain
  import opened Tables
  import opened Payments
  import opened Reconciliation
  import opened Protocol
  import opened Invariant
  import opened Runs

  /** The provider took money under this key. */
  predicate TookMoney(j: Journal, key: string) {
    FindCharge(j.charges, key).Some? && j.charges[FindCharge(j.charges, key).value].charged
  }

  // ----- our tables and the provider's journal

  /** Under a key the provider has at most one entry, made for our payment with that key and for
      the order's fixed total. */
  lemma EveryChargeIsOurs(c: Config, s: State, charge: nat)
    requires Reachable(c, s) && charge < |s.journal.charges|
    ensures var e := s.journal.charges[charge];
      && e.key != ""
      && (forall i | 0 <= i < |s.journal.charges| && s.journal.charges[i].key == e.key :: i == charge)
      && exists p :: && 0 <= p < |s.db.payments| && s.db.payments[p].key == e.key && s.db.payments[p].amount == e.amount
                     && s.db.payments[p].order < |s.db.orders|
                     && e.amount == Total(s.db.orders[s.db.payments[p].order].items)
  {
    ReachableInv(c, s);
    var e := s.journal.charges[charge];
    assert ChargeRow(s.db, e);
    var p := FindPayment(s.db.payments, e.key).value;
    assert PaymentRow(s.db, s.journal, p);
  }

  /** A payment's status and the provider's journal agree: money kept or returned here means money
      taken there under that charge id, declined here means declined there, returned here means returned there. */
  lemma StatusAgreesWithJournal(c: Config, s: State, p: nat)
    requires Reachable(c, s) && p < |s.db.payments|
    ensures var row := s.db.payments[p];
      && (row.status == Succeeded || row.status == Refunded ==>
            && TookMoney(s.journal, row.key) && row.charge == FindCharge(s.journal.charges, row.key)
            && s.journal.charges[row.charge.value].amount == row.amount)
      && (row.status == Failed ==> FindCharge(s.journal.charges, row.key).Some? && !TookMoney(s.journal, row.key))
      && (row.status == Refunded ==> ReturnedAt(s.journal.sent, row.charge.value))
      && (row.charge.Some? <==> row.status == Succeeded || row.status == Refunded)
  {
    ReachableInv(c, s);
    var row := s.db.payments[p];
    assert PaymentRow(s.db, s.journal, p);
    if row.charge.Some? {
      FoundCharge(s.journal.charges, row.charge.value);
      FoundPayment(s.db.payments, p);
      assert ChargeRow(s.db, s.journal.charges[row.charge.value]);
    }
    if row.status == Refunded {
      var e := FindSent(s.journal.sent, FindRefund(s.db.refunds, p).value).value;
      assert SentRow(s.db, s.journal.sent[e]);
    }
  }

  // ----- reconciliation is complete

  /** On one snapshot of a reachable state the decision table never meets a lost, foreign or
      mispriced charge; a person is needed exactly for a payment expired here and charged there. */
  lemma ClassifyIsComplete(c: Config, s: State, key: string)
    requires Reachable(c, s) && key != ""
    ensures var f := Classify(OursFor(s.db, key), TheirsFor(s.journal, key));
      var p := FindPayment(s.db.payments, key);
      && (f.kind == Matched || f.kind == StatusMismatch)
      && (f.kind == Matched <==> f.action == NoAction)
      && (f.action == Manual <==> p.Some? && s.db.payments[p.value].status == Expired && TookMoney(s.journal, key))
      && (f.action == FixPaymentSucceeded <==>
            p.Some? && s.db.payments[p.value].status == Pending && TookMoney(s.journal, key))
      && (f.action == FixPaymentFailed <==>
            && p.Some? && s.db.payments[p.value].status == Pending
            && FindCharge(s.journal.charges, key).Some? && !TookMoney(s.journal, key))
      && (f.action == FixRefundSucceeded <==>
            && p.Some? && MoneyReturned(s.db.refunds, s.journal.sent, p.value)
            && s.db.refunds[FindRefund(s.db.refunds, p.value).value].status != Done)
  {
    ReachableInv(c, s);
    ClassifyOnTables(s.db, s.journal, key);
  }

  lemma ClassifyOnTables(db: Db, j: Journal, key: string)
    requires TablesInv(db, j) && key != ""
    ensures var f := Classify(OursFor(db, key), TheirsFor(j, key));
      var p := FindPayment(db.payments, key);
      && (f.kind == Matched || f.kind == StatusMismatch)
      && (f.kind == Matched <==> f.action == NoAction)
      && (f.action == Manual <==> p.Some? && db.payments[p.value].status == Expired && TookMoney(j, key))
      && (f.action == FixPaymentSucceeded <==>
            p.Some? && db.payments[p.value].status == Pending && TookMoney(j, key))
      && (f.action == FixPaymentFailed <==>
            && p.Some? && db.payments[p.value].status == Pending
            && FindCharge(j.charges, key).Some? && !TookMoney(j, key))
      && (f.action == FixRefundSucceeded <==>
            && p.Some? && MoneyReturned(db.refunds, j.sent, p.value)
            && db.refunds[FindRefund(db.refunds, p.value).value].status != Done)
  {
    var p := FindPayment(db.payments, key);
    if p.Some? {
      SnapshotFacts(db, j, p.value);
    } else {
      NoPaymentNoCharge(db, j, key);
    }
  }

  lemma NoPaymentNoCharge(db: Db, j: Journal, key: string)
    requires TablesInv(db, j) && FindPayment(db.payments, key).None?
    ensures FindCharge(j.charges, key).None?
  {
    var t := FindCharge(j.charges, key);
    if t.Some? { assert ChargeRow(db, j.charges[t.value]); }
  }

  /** What the invariant says about one payment, its refund row and the provider's entry for its key. */
  lemma SnapshotFacts(db: Db, j: Journal, p: nat)
    requires TablesInv(db, j) && p < |db.payments|
    ensures var row := db.payments[p]; var t := FindCharge(j.charges, row.key); var r := FindRefund(db.refunds, p);
      && FindPayment(db.payments, row.key) == Some(p)
      && (t.Some? ==> j.charges[t.value].amount == row.amount)
      && (row.status == Pending ==> r.None?)
      && (row.status == Succeeded ==>
            t.Some? && j.charges[t.value].charged && (r.Some? ==> db.refunds[r.value].status != Done))
      && (row.status == Failed ==> t.Some? && !j.charges[t.value].charged && r.None?)
      && (row.status == Expired ==> r.None?)
      && (row.status == Refunded ==>
            t.Some? && j.charges[t.value].charged && r.Some? && ReturnedAt(j.sent, t.value))
      && (MoneyReturned(db.refunds, j.sent, p) <==> t.Some? && ReturnedAt(j.sent, t.value))
  {
    var row := db.payments[p];
    var t, r := FindCharge(j.charges, row.key), FindRefund(db.refunds, p);
    assert PaymentRow(db, j, p);
    FoundPayment(db.payments, p);
    if row.charge.Some? { FoundCharge(j.charges, row.charge.value); }
    if t.Some? {
      assert ChargeRow(db, j.charges[t.value]);
      if ReturnedAt(j.sent, t.value) { ReturnedIsOurs(db, j, p, t.value); }
    }
    if r.Some? { assert RefundRow(db, r.value); }
    if MoneyReturned(db.refunds, j.sent, p) {
      var e := FindSent(j.sent, r.value).value;
      assert SentRow(db, j.sent[e]);
    }
  }

  /** The job lists the provider's charges first and reads our payments later. With any activity in
      between, exactly these keys go to a person: the true case, and two false alarms about money
      that moved between the two reads. Lost, foreign and mispriced charges still never appear. */
  lemma ClassifyWithLateRead(c: Config, s: State, steps: seq<Step>, key: string)
    requires Reachable(c, s) && key != ""
    ensures var s' := Exec(c, s, steps);
      var t := TheirsFor(s.journal, key); var f := Classify(OursFor(s'.db, key), t);
      var p := FindPayment(s'.db.payments, key);
      && f.kind != AmountMismatch && f.kind != MissingAtOurs
      && (f.action == Manual <==>
            && p.Some?
            && var status := s'.db.payments[p.value].status;
               || (status == Expired && t.Some? && t.value.status == Charged)
               || ((status == Succeeded || status == Refunded) && t.None?)
               || (status == Refunded && t.Some? && t.value.status == Charged))
  {
    ReachableInv(c, s);
    RunKeeps(c, s, steps);
    var s' := Exec(c, s, steps);
    var p, t := FindPayment(s'.db.payments, key), FindCharge(s.journal.charges, key);
    if t.Some? {
      assert ChargeRow(s.db, s.journal.charges[t.value]);
      PaymentStays(s.db.payments, s'.db.payments, key);
      ChargeStays(s.journal.charges, s'.journal.charges, key);
      TheirsStays(s.journal, s'.journal, key, TheirsOf(s.journal, t.value));
    }
    if p.Some? {
      SnapshotFacts(s'.db, s'.journal, p.value);
      LateCases(s'.db, s'.journal, p.value, TheirsFor(s.journal, key));
    }
  }

  /** The decision table on our row now and a provider entry that was listed earlier. */
  lemma LateCases(db: Db, j: Journal, p: nat, listed: Option<Theirs>)
    requires TablesInv(db, j) && p < |db.payments|
    requires var key := db.payments[p].key;
      listed.Some? ==> FindCharge(j.charges, key) == Some(listed.value.charge) && TheirsOk(j, key, listed.value)
    ensures var f := Classify(Some(OursOf(db, p)), listed); var status := db.payments[p].status;
      && f.kind != AmountMismatch && f.kind != MissingAtOurs
      && (f.action == Manual <==>
            || (status == Expired && listed.Some? && listed.value.status == Charged)
            || ((status == Succeeded || status == Refunded) && listed.None?)
            || (status == Refunded && listed.Some? && listed.value.status == Charged))
  {
    SnapshotFacts(db, j, p);
  }

  // ----- orders, payments and refunds

  /** Orders and payments agree: a pending payment has an open order, a paid order has exactly one
      succeeded payment and no refund, a cancelled order has no pending payment. */
  lemma OrdersAgreeWithPayments(c: Config, s: State, o: nat)
    requires Reachable(c, s) && o < |s.db.orders|
    ensures var ps := s.db.payments;
      && (forall p | 0 <= p < |ps| && ps[p].order == o && ps[p].status == Pending :: s.db.orders[o].status == Open)
      && (s.db.orders[o].status == Paid ==>
            exists p :: && 0 <= p < |ps| && ps[p].order == o && ps[p].status == Succeeded
                        && FindRefund(s.db.refunds, p).None?
                        && forall q | 0 <= q < |ps| && ps[q].order == o && ps[q].status == Succeeded :: q == p)
      && (s.db.orders[o].status == Cancelled ==> forall p | 0 <= p < |ps| && ps[p].order == o ::
            ps[p].status != Pending)
  {
    ReachableInv(c, s);
    assert OrderRow(s.db, o);
    forall p | 0 <= p < |s.db.payments| && s.db.payments[p].order == o
      ensures s.db.payments[p].status == Pending ==> s.db.orders[o].status == Open
    {
      assert PaymentRow(s.db, s.journal, p);
    }
    if s.db.orders[o].status == Paid {
      var p := FindInStatus(s.db.payments, o, Succeeded).value;
      assert PaymentRow(s.db, s.journal, p);
      forall q | 0 <= q < |s.db.payments| && s.db.payments[q].order == o && s.db.payments[q].status == Succeeded
        ensures q == p
      {
      }
    }
  }

  /** After a charge the order is always still open: Transition never fails with "no longer pending",
      whoever calls it, on whatever payment, with whatever answer. */
  lemma ChargedOrderIsStillOpen(c: Config, s: State, p: nat, to: PaymentStatus, charge: Option<nat>)
    requires Reachable(c, s)
    ensures TransitionTx(s.db, p, to, charge).1 != OrderNoLongerOpen
  {
    ReachableInv(c, s);
    if p < |s.db.payments| { assert PaymentRow(s.db, s.journal, p); }
  }

  /** A cancelled order whose payment went through has exactly one refund row, for all of the payment. */
  lemma PaidThenCancelledIsRefundedOnce(c: Config, s: State, p: nat)
    requires Reachable(c, s) && p < |s.db.payments|
    requires s.db.payments[p].status == Succeeded || s.db.payments[p].status == Refunded
    requires var o := s.db.payments[p].order; o < |s.db.orders| && s.db.orders[o].status == Cancelled
    ensures exists r :: && 0 <= r < |s.db.refunds| && s.db.refunds[r].payment == p
                        && s.db.refunds[r].amount == s.db.payments[p].amount
                        && forall q | 0 <= q < |s.db.refunds| && s.db.refunds[q].payment == p :: q == r
  {
    ReachableInv(c, s);
    assert PaymentRow(s.db, s.journal, p);
    var r := FindRefund(s.db.refunds, p).value;
    assert RefundRow(s.db, r);
    forall q | 0 <= q < |s.db.refunds| && s.db.refunds[q].payment == p ensures q == r {
      FoundRefund(s.db.refunds, q);
    }
  }

  /** The provider gives back each charge at most once, and only charges it took, in full. */
  lemma EachChargeReturnedAtMostOnce(c: Config, s: State, a: nat, b: nat)
    requires Reachable(c, s) && a < |s.journal.sent| && b < |s.journal.sent|
    ensures s.journal.sent[a].charge == s.journal.sent[b].charge ==> a == b
    ensures var e := s.journal.sent[a];
      && e.charge.Some? && e.charge.value < |s.journal.charges| && s.journal.charges[e.charge.value].charged
      && e.amount == s.journal.charges[e.charge.value].amount
  {
    ReachableInv(c, s);
    SentFacts(s.db, s.journal, a);
    SentFacts(s.db, s.journal, b);
    FoundSent(s.journal.sent, a);
  }

  /** A provider refund is tied to one refund row, one payment and one charge. */
  lemma SentFacts(db: Db, j: Journal, a: nat)
    requires TablesInv(db, j) && a < |j.sent|
    ensures var e := j.sent[a];
      && e.charge.Some? && e.charge.value < |j.charges| && j.charges[e.charge.value].charged
      && e.amount == j.charges[e.charge.value].amount
      && FindPayment(db.payments, j.charges[e.charge.value].key).Some?
      && FindRefund(db.refunds, FindPayment(db.payments, j.charges[e.charge.value].key).value) == Some(e.refund)
  {
    var e := j.sent[a];
    assert SentRow(db, e);
    assert RefundRow(db, e.refund);
    var p := db.refunds[e.refund].payment;
    assert PaymentRow(db, j, p);
    FoundPayment(db.payments, p);
    FoundRefund(db.refunds, e.refund);
    assert ChargeRow(db, j.charges[e.charge.value]);
  }

  /** Refund row done implies payment refunded implies the provider returned this payment's charge. */
  lemma RefundChain(c: Config, s: State, r: nat)
    requires Reachable(c, s) && r < |s.db.refunds|
    ensures var row := s.db.refunds[r];
      && row.payment < |s.db.payments|
      && (row.status == Done ==> s.db.payments[row.payment].status == Refunded)
      && (s.db.payments[row.payment].status == Refunded ==>
            exists e :: 0 <= e < |s.journal.sent| && s.journal.sent[e].refund == r
                     && s.journal.sent[e].charge == s.db.payments[row.payment].charge)
  {
    ReachableInv(c, s);
    assert RefundRow(s.db, r);
    var p := s.db.refunds[r].payment;
    assert PaymentRow(s.db, s.journal, p);
    FoundRefund(s.db.refunds, r);
    if s.db.payments[p].status == Refunded {
      var e := FindSent(s.journal.sent, r).value;
      assert SentRow(s.db, s.journal.sent[e]);
    }
  }
}
