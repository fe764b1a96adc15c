/** The invariant over whole runs. */
module Runs {
  import opened Domain
  import opened Tables
  import opened Payments
  import opened Reconciliation
  import opened Protocol
  import opened Invariant
  import opened Preservation

  ghost predicate Kept(s: State, s': State) {
    Inv(s') && Grows(s.db, s.journal, s'.db, s'.journal)
  }

  /** A step that grows the tables and touches one flight keeps the invariant if the new flight is sound. */
  lemma Replaced(s: State, db': Db, j': Journal, fid: nat, f: Option<Flight>, s': State)
    requires Inv(s) && TablesInv(db', j') && Grows(s.db, s.journal, db', j')
    requires f.Some? ==> FlightOk(db', j', f.value)
    requires s' == (if f.Some? then Put(s.(db := db', journal := j'), fid, f.value)
                    else End(s.(db := db', journal := j'), fid))
    ensures Kept(s, s')
  {
    FlightsStay(s, db', j');
  }

  lemma Unchanged(db: Db, j: Journal)
    ensures Grows(db, j, db, j)
  {
  }

  lemma ResumeKeeps(s: State, fid: nat, order: nat, key: string, p: nat)
    requires Inv(s) && p < |s.db.payments| && s.db.payments[p].key == key && key != ""
    ensures Kept(s, Resume(s, fid, order, key, p))
  {
    var row := s.db.payments[p];
    Replaced(s, s.db, s.journal, fid,
             if row.status == Pending then Some(Charging(order, key, p, row.amount, true)) else None,
             Resume(s, fid, order, key, p));
  }

  lemma MovePayKeeps(c: Config, s: State, fid: nat, ch: Choice)
    requires Inv(s) && fid in s.flights
    requires var f := s.flights[fid]; f.Looking? || f.Starting? || f.LookingAgain?
    ensures Kept(s, MoveFlight(c, s, fid, ch))
  {
    var f, s' := s.flights[fid], MoveFlight(c, s, fid, ch);
    assert FlightOk(s.db, s.journal, f);
    match f
    case Starting(order, key) =>
      var (db, r) := StartTx(s.db, order, key, ch.keyFirst, s.clock);
      StartKeeps(s.db, s.journal, order, key, ch.keyFirst, s.clock);
      Replaced(s, db, s.journal, fid,
               match r
               case Started(p) => Some(Charging(order, key, p, db.payments[p].amount, true))
               case KeyTaken => Some(LookingAgain(order, key))
               case _ => None, s');
    case Looking(order, key) =>
      match FindPayment(s.db.payments, key) {
        case Some(p) => ResumeKeeps(s, fid, order, key, p);
        case None => Replaced(s, s.db, s.journal, fid, Some(Starting(order, key)), s');
      }
    case LookingAgain(order, key) =>
      match FindPayment(s.db.payments, key) {
        case Some(p) => ResumeKeeps(s, fid, order, key, p);
        case None => Replaced(s, s.db, s.journal, fid, None, s');
      }
  }

  lemma MoveChargeKeeps(s: State, fid: nat, ch: Choice)
    requires Inv(s) && fid in s.flights && s.flights[fid].Charging?
    ensures Kept(s, MoveCharge(s, fid, s.flights[fid], ch))
  {
    var f := s.flights[fid];
    assert FlightOk(s.db, s.journal, f);
    FoundPayment(s.db.payments, f.payment);
    ChargeCallKeeps(s.db, s.journal, f.key, f.order, f.amount, ch.approve, s.clock);
    var (j, reply) := ChargeCall(s.journal, f.key, f.order, f.amount, ch.approve, s.clock);
    Replaced(s, s.db, j, fid,
             if !f.alive || ch.lost || reply == ChargeUnavailable then None
             else if reply == ChargeDeclined then Some(Recording(f.payment, Failed, None))
             else Some(Recording(f.payment, Succeeded, Some(reply.charge))),
             MoveCharge(s, fid, f, ch));
  }

  lemma MoveRefundKeeps(s: State, fid: nat, ch: Choice)
    requires Inv(s) && fid in s.flights && s.flights[fid].Refunding?
    ensures Kept(s, MoveRefund(s, fid, s.flights[fid], ch))
  {
    var f := s.flights[fid];
    assert FlightOk(s.db, s.journal, f);
    RefundCallKeeps(s.db, s.journal, f.refund, f.charge, f.amount);
    var (j, reply) := RefundCall(s.journal, f.refund, f.charge, f.amount);
    Replaced(s, s.db, j, fid,
             if !f.awaited then None
             else if ch.lost || reply == RefundUnavailable then Some(RefundRetry(f.refund, f.attempts))
             else Some(RefundSent(f.refund, f.payment, reply.sent)),
             MoveRefund(s, fid, f, ch));
  }

  /** Both refund writers find the payment succeeded or already refunded, never in another status. */
  lemma RefundSucceededKeeps(db: Db, j: Journal, refund: nat, payment: nat, sent: nat)
    requires TablesInv(db, j) && FlightOk(db, j, RefundSent(refund, payment, sent))
    ensures var db' := RefundSucceededTx(db, refund, payment, sent).0; TablesInv(db', j) && Grows(db, j, db', j)
  {
    assert RefundRow(db, refund);
    FoundRefund(db.refunds, refund);
    if db.payments[payment].status == Succeeded {
      var events := db.events + [Event(payment, Some(Succeeded), Refunded)];
      RefundedKeeps(db, j, payment, events);
      var db1 := db.(payments := db.payments[payment := db.payments[payment].(status := Refunded)], events := events);
      if db.refunds[refund].status == Waiting {
        RefundUpdateKeeps(db1, j, refund, db.refunds[refund].(status := Done, providerRefund := Some(sent)));
      }
    }
  }

  lemma RefundFailedKeeps(db: Db, j: Journal, refund: nat, attempts: nat, maxAttempts: nat, retryAt: nat)
    requires TablesInv(db, j)
    ensures var db' := RefundFailedTx(db, refund, attempts, maxAttempts, retryAt);
      TablesInv(db', j) && Grows(db, j, db', j)
  {
    if refund < |db.refunds| && db.refunds[refund].status == Waiting {
      RefundUpdateKeeps(db, j, refund, db.refunds[refund].(status := ManualReview));
      RefundUpdateKeeps(db, j, refund, db.refunds[refund].(nextAt := retryAt));
    }
  }

  lemma ScheduleKeeps(db: Db, j: Journal, payment: nat, nextAt: nat)
    requires TablesInv(db, j)
    ensures var db' := ScheduleTx(db, payment, nextAt); TablesInv(db', j) && Grows(db, j, db', j)
    ensures var db' := ManualTx(db, payment); TablesInv(db', j) && Grows(db, j, db', j)
  {
    if payment < |db.payments| {
      PaymentUpdateKeeps(db, j, payment, db.payments[payment].(nextAt := nextAt));
      PaymentUpdateKeeps(db, j, payment, db.payments[payment].(manual := true));
    }
  }

  lemma MoveTransitionKeeps(c: Config, s: State, fid: nat, ch: Choice)
    requires Inv(s) && fid in s.flights && (s.flights[fid].Recording? || s.flights[fid].Resolving?)
    ensures Kept(s, MoveFlight(c, s, fid, ch))
  {
    var f, s' := s.flights[fid], MoveFlight(c, s, fid, ch);
    assert FlightOk(s.db, s.journal, f);
    TransitionKeeps(s.db, s.journal, f.payment, f.to, f.charge);
    Replaced(s, s'.db, s.journal, fid,
             if f.Resolving? && fid in s'.flights then Some(Postponing(f.payment, f.attempts, true)) else None, s');
  }

  lemma MoveRefundResultKeeps(c: Config, s: State, fid: nat, ch: Choice)
    requires Inv(s) && fid in s.flights && (s.flights[fid].RefundSent? || s.flights[fid].RefundRetry?)
    ensures Kept(s, MoveFlight(c, s, fid, ch))
  {
    var f, s' := s.flights[fid], MoveFlight(c, s, fid, ch);
    assert FlightOk(s.db, s.journal, f);
    if f.RefundSent? {
      RefundSucceededKeeps(s.db, s.journal, f.refund, f.payment, f.sent);
    } else {
      RefundFailedKeeps(s.db, s.journal, f.refund, f.attempts, c.refundAttempts, s.clock + ch.delay);
    }
    Replaced(s, s'.db, s.journal, fid, None, s');
  }

  lemma MovePostponeKeeps(c: Config, s: State, fid: nat, ch: Choice)
    requires Inv(s) && fid in s.flights && (s.flights[fid].Postponing? || s.flights[fid].Parking?)
    ensures Kept(s, MoveFlight(c, s, fid, ch))
  {
    var s' := MoveFlight(c, s, fid, ch);
    ScheduleKeeps(s.db, s.journal, s.flights[fid].payment, s.clock + ch.delay);
    Replaced(s, s'.db, s.journal, fid, None, s');
  }

  lemma MoveCheckKeeps(c: Config, s: State, fid: nat, ch: Choice)
    requires Inv(s) && fid in s.flights && s.flights[fid].Checking?
    ensures Kept(s, MoveCheck(c, s, fid, s.flights[fid], ch))
  {
    var f, s' := s.flights[fid], MoveCheck(c, s, fid, s.flights[fid], ch);
    assert FlightOk(s.db, s.journal, f);
    Replaced(s, s.db, s.journal, fid, Some(s'.flights[fid]), s');
  }

  // ----- the reconciliation job

  /** A provider refund of this key's charge can only belong to this payment's refund row. */
  lemma ReturnedIsOurs(db: Db, j: Journal, payment: nat, charge: nat)
    requires TablesInv(db, j) && payment < |db.payments| && db.payments[payment].key != ""
    requires charge < |j.charges| && j.charges[charge].key == db.payments[payment].key
    requires ReturnedAt(j.sent, charge)
    ensures MoneyReturned(db.refunds, j.sent, payment)
    ensures db.payments[payment].status == Succeeded || db.payments[payment].status == Refunded
  {
    var i :| 0 <= i < |j.sent| && j.sent[i].charge == Some(charge);
    var e := j.sent[i];
    assert SentRow(db, e);
    assert RefundRow(db, e.refund);
    var owner := db.refunds[e.refund].payment;
    assert PaymentRow(db, j, owner);
    FoundPayment(db.payments, owner);
    FoundPayment(db.payments, payment);
    FoundRefund(db.refunds, e.refund);
    FoundSent(j.sent, i);
  }

  lemma OursIsRow(db: Db, key: string)
    requires key != "" && FindPayment(db.payments, key).Some?
    ensures var o := OursFor(db, key).value;
      && o.payment < |db.payments| && db.payments[o.payment].key == key && o.status == db.payments[o.payment].status
      && (o.refund.Some? ==> o.refund.value < |db.refunds| && db.refunds[o.refund.value].payment == o.payment)
  {
  }

  lemma MoveMatchKeeps(s: State, fid: nat)
    requires Inv(s) && fid in s.flights && s.flights[fid].Matching?
    ensures Kept(s, MoveMatch(s, fid, s.flights[fid]))
  {
    var f := s.flights[fid];
    assert FlightOk(s.db, s.journal, f);
    var ours := OursFor(s.db, f.key);
    var finding := Classify(ours, f.listed);
    if finding.action in {FixPaymentSucceeded, FixPaymentFailed, FixRefundSucceeded} {
      OursIsRow(s.db, f.key);
      Replaced(s, s.db, s.journal, fid, Some(Fixing(ours.value, f.listed.value, finding.action)), MoveMatch(s, fid, f));
    } else {
      Replaced(s, s.db, s.journal, fid, None, MoveMatch(s, fid, f));
    }
  }

  lemma MoveFixPaymentKeeps(s: State, fid: nat)
    requires Inv(s) && fid in s.flights && s.flights[fid].Fixing? && s.flights[fid].action != FixRefundSucceeded
    ensures Kept(s, MoveFix(s, fid, s.flights[fid]))
  {
    var f, s' := s.flights[fid], MoveFix(s, fid, s.flights[fid]);
    assert FlightOk(s.db, s.journal, f);
    FoundCharge(s.journal.charges, f.theirs.charge);
    if f.action == FixPaymentSucceeded {
      TransitionKeeps(s.db, s.journal, f.ours.payment, Succeeded, Some(f.theirs.charge));
    } else {
      TransitionKeeps(s.db, s.journal, f.ours.payment, Failed, None);
    }
    Replaced(s, s'.db, s.journal, fid, None, s');
  }

  /** The first statement of the refund fix: only a succeeded payment whose money went back is moved. */
  lemma FixRefundKeeps(db: Db, j: Journal, ours: Ours, theirs: Theirs)
    requires TablesInv(db, j) && FixOk(db, j, ours, theirs, FixRefundSucceeded)
    ensures var (db', r) := TransitionTx(db, ours.payment, Refunded, None);
      && TablesInv(db', j) && Grows(db, j, db', j)
      && r == (if db.payments[ours.payment].status == Succeeded then Moved else IllegalMove(Refunded))
      && db'.payments[ours.payment].status == Refunded
      && db'.refunds == db.refunds
  {
    ReturnedIsOurs(db, j, ours.payment, theirs.charge);
    if db.payments[ours.payment].status == Succeeded {
      RefundedKeeps(db, j, ours.payment, TransitionTx(db, ours.payment, Refunded, None).0.events);
    }
  }

  lemma MoveFixRefundKeeps(s: State, fid: nat)
    requires Inv(s) && fid in s.flights && s.flights[fid].Fixing? && s.flights[fid].action == FixRefundSucceeded
    ensures Kept(s, MoveFix(s, fid, s.flights[fid]))
  {
    var f, s' := s.flights[fid], MoveFix(s, fid, s.flights[fid]);
    assert FlightOk(s.db, s.journal, f);
    if f.ours.status == Succeeded {
      FixRefundKeeps(s.db, s.journal, f.ours, f.theirs);
      var r := TransitionTx(s.db, f.ours.payment, Refunded, None).1;
      Replaced(s, s'.db, s.journal, fid, if r == Moved then Some(ClosingRefund(f.ours.refund.value)) else None, s');
    } else {
      Replaced(s, s.db, s.journal, fid, Some(ClosingRefund(f.ours.refund.value)), s');
    }
  }

  lemma MoveCloseKeeps(c: Config, s: State, fid: nat, ch: Choice)
    requires Inv(s) && fid in s.flights && s.flights[fid].ClosingRefund?
    ensures Kept(s, MoveFlight(c, s, fid, ch))
  {
    var f, s' := s.flights[fid], MoveFlight(c, s, fid, ch);
    assert FlightOk(s.db, s.journal, f);
    RefundUpdateKeeps(s.db, s.journal, f.refund, s.db.refunds[f.refund].(status := Done));
    Unchanged(s.db, s.journal);
    Replaced(s, s'.db, s.journal, fid, None, s');
  }

  lemma MoveKeeps(c: Config, s: State, fid: nat, ch: Choice)
    requires Inv(s) && fid in s.flights
    ensures Kept(s, MoveFlight(c, s, fid, ch))
  {
    match s.flights[fid]
    case Looking(_, _) => MovePayKeeps(c, s, fid, ch);
    case Starting(_, _) => MovePayKeeps(c, s, fid, ch);
    case LookingAgain(_, _) => MovePayKeeps(c, s, fid, ch);
    case Charging(_, _, _, _, _) => MoveChargeKeeps(s, fid, ch);
    case Refunding(_, _, _, _, _, _) => MoveRefundKeeps(s, fid, ch);
    case Checking(_, _, _, _) => MoveCheckKeeps(c, s, fid, ch);
    case Matching(_, _) => MoveMatchKeeps(s, fid);
    case Fixing(_, _, action) =>
      if action == FixRefundSucceeded { MoveFixRefundKeeps(s, fid); } else { MoveFixPaymentKeeps(s, fid); }
    case ClosingRefund(_) => MoveCloseKeeps(c, s, fid, ch);
    case Recording(_, _, _) => MoveTransitionKeeps(c, s, fid, ch);
    case Resolving(_, _, _, _) => MoveTransitionKeeps(c, s, fid, ch);
    case RefundSent(_, _, _) => MoveRefundResultKeeps(c, s, fid, ch);
    case RefundRetry(_, _) => MoveRefundResultKeeps(c, s, fid, ch);
    case Postponing(_, _, _) => MovePostponeKeeps(c, s, fid, ch);
    case Parking(_) => MovePostponeKeeps(c, s, fid, ch);
  }

  lemma LeasedRefundOk(s: State, r: nat, until: nat)
    requires Inv(s) && RefundDue(s.db, r, s.clock)
    ensures var row := s.db.refunds[r]; var db' := LeaseRefund(s.db, r, until);
      && TablesInv(db', s.journal) && Grows(s.db, s.journal, db', s.journal)
      && FlightOk(db', s.journal,
                  Refunding(r, row.payment, row.amount, row.attempts + 1, s.db.payments[row.payment].charge, true))
  {
    var row := s.db.refunds[r];
    assert RefundRow(s.db, r) && PaymentRow(s.db, s.journal, row.payment);
    RefundUpdateKeeps(s.db, s.journal, r, row.(attempts := row.attempts + 1, nextAt := until));
  }

  lemma LeaseRefundKeeps(c: Config, s: State, fid: nat, r: nat)
    requires Inv(s)
    ensures Kept(s, Apply(c, s, LeaseRefundStep(fid, r)))
  {
    var s' := Apply(c, s, LeaseRefundStep(fid, r));
    if fid !in s.flights && RefundDue(s.db, r, s.clock) {
      LeasedRefundOk(s, r, s.clock + c.refundLease);
      Replaced(s, s'.db, s.journal, fid, Some(s'.flights[fid]), s');
    }
  }

  lemma LeaseCheckKeeps(c: Config, s: State, fid: nat, p: nat)
    requires Inv(s)
    ensures Kept(s, Apply(c, s, LeaseCheckStep(fid, p)))
  {
    var s' := Apply(c, s, LeaseCheckStep(fid, p));
    if fid !in s.flights && CheckDue(s.db, p, c.stuckAfter, s.clock) {
      var row := s.db.payments[p];
      PaymentUpdateKeeps(s.db, s.journal, p, row.(attempts := row.attempts + 1, nextAt := s.clock + c.checkLease));
      Replaced(s, s'.db, s.journal, fid, Some(s'.flights[fid]), s');
    }
  }

  lemma ListChargesKeeps(c: Config, s: State, fid: nat, key: string)
    requires Inv(s)
    ensures Kept(s, Apply(c, s, ListCharges(fid, key)))
  {
    var s' := Apply(c, s, ListCharges(fid, key));
    if fid !in s.flights && !s.journal.down && key != "" {
      Replaced(s, s.db, s.journal, fid, Some(s'.flights[fid]), s');
    }
  }

  /** Every step of every actor, crash and lost reply keeps the invariant. */
  lemma OutageKeeps(c: Config, s: State, down: bool)
    requires Inv(s)
    ensures Kept(s, Apply(c, s, SetDown(down)))
  {
    var s' := Apply(c, s, SetDown(down));
    Unchanged(s.db, s.journal);
    FlightsStay(s, s.db, s'.journal);
    forall i | 0 <= i < |s.db.payments|
      ensures PaymentRow(s.db, s'.journal, i)
    {
      assert PaymentRow(s.db, s.journal, i);
    }
  }

  lemma StepKeeps(c: Config, s: State, step: Step)
    requires Inv(s)
    ensures Kept(s, Apply(c, s, step))
  {
    var s' := Apply(c, s, step);
    Unchanged(s.db, s.journal);
    match step
    case Tick(_) =>
    case SetDown(down) => OutageKeeps(c, s, down);
    case Create(lines, key) =>
      CreateKeeps(s.db, s.journal, lines, key);
      if s' != s { FlightsStay(s, s'.db, s.journal); }
    case Cancel(order) =>
      CancelKeeps(s.db, s.journal, order, s.clock);
      FlightsStay(s, s'.db, s.journal);
    case Pay(fid, order, key) =>
      if s' != s { Replaced(s, s.db, s.journal, fid, Some(Looking(order, key)), s'); }
    case Move(fid, ch) => if fid in s.flights { MoveKeeps(c, s, fid, ch); }
    case StatementFails(fid) =>
      if fid in s.flights && s' != s {
        Replaced(s, s.db, s.journal, fid, if fid in s'.flights then Some(s'.flights[fid]) else None, s');
      }
    case Crash(fid, sent) =>
      if fid in s.flights {
        assert FlightOk(s.db, s.journal, s.flights[fid]);
        Replaced(s, s.db, s.journal, fid, if fid in s'.flights then Some(s'.flights[fid]) else None, s');
      }
    case LeaseRefundStep(fid, r) => LeaseRefundKeeps(c, s, fid, r);
    case LeaseCheckStep(fid, p) => LeaseCheckKeeps(c, s, fid, p);
    case ListCharges(fid, key) => ListChargesKeeps(c, s, fid, key);
  }

  lemma {:induction false} RunKeeps(c: Config, s: State, steps: seq<Step>)
    requires Inv(s)
    ensures Kept(s, Exec(c, s, steps))
  {
    if steps == [] {
      Unchanged(s.db, s.journal);
    } else {
      var m := Exec(c, s, steps[..|steps| - 1]);
      RunKeeps(c, s, steps[..|steps| - 1]);
      StepKeeps(c, m, Last(steps));
      GrowsTransitive(s, m, Exec(c, s, steps));
    }
  }

  lemma GrowsTransitive(a: State, b: State, d: State)
    requires Grows(a.db, a.journal, b.db, b.journal) && Grows(b.db, b.journal, d.db, d.journal)
    ensures Grows(a.db, a.journal, d.db, d.journal)
  {
    forall i | 0 <= i < |a.db.payments| ensures PaymentGrows(a.db.payments[i], d.db.payments[i]) {
      assert PaymentGrows(a.db.payments[i], b.db.payments[i]) && PaymentGrows(b.db.payments[i], d.db.payments[i]);
    }
  }

  lemma ReachableInv(c: Config, s: State)
    requires Reachable(c, s)
    ensures Inv(s)
  {
    var products: map<int, Product>, steps :|
      (forall p | p in products :: products[p].stock >= 0) && s == Exec(c, Init(products), steps);
    RunKeeps(c, Init(products), steps);
  }
}
