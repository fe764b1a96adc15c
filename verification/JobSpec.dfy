/** What one run of the reconciliation job does to the tables and reports, said key by key and
    without any order of the keys. */
module JobSpec {
  import opened Domain
  import opened Tables
  import opened Payments
  import opened Reconciliation
  import opened Invariant
  import opened EventLog

  /** The provider's journal at the time of the list, the period and the margin around it. */
  datatype Window = Window(j: Journal, from: int, to: int, margin: int)

  datatype Outcome = Fine | Fixed | Left(kind: Kind)

  datatype Repair = Repair(ours: Ours, theirs: Theirs, action: Action)

  predicate IsFix(a: Action) {
    a == FixPaymentSucceeded || a == FixPaymentFailed || a == FixRefundSucceeded
  }

  /** How the transition of a fix and the update of its refund row go. */
  datatype FixWeather = FixWeather(move: Write, close: Write)

  const FAIR := FixWeather(Works, Works)

  function MoveUnder(db: Db, payment: nat, to: PaymentStatus, charge: Option<nat>, w: Write): (Db, bool) {
    if w == Fails then (db, false)
    else
      var (db', r) := TransitionTx(db, payment, to, charge);
      (db', r == Moved && w == Works)
  }

  function CloseUnder(db: Db, refund: nat, w: Write): (Db, bool) {
    if w == Fails then (db, false) else (CloseRefundTx(db, refund), w == Works)
  }

  /** Job.fix with statements that may fail or commit unheard: the tables, and whether it counts as fixed. */
  function FixUnder(db: Db, a: Action, ours: Ours, theirs: Theirs, w: FixWeather): (Db, bool) {
    match a
    case FixPaymentSucceeded => MoveUnder(db, ours.payment, Succeeded, Some(theirs.charge), w.move)
    case FixPaymentFailed => MoveUnder(db, ours.payment, Failed, None, w.move)
    case FixRefundSucceeded =>
      if ours.refund.None? then (db, false)
      else if ours.status == Succeeded then
        var (db', moved) := MoveUnder(db, ours.payment, Refunded, None, w.move);
        if moved then CloseUnder(db', ours.refund.value, w.close) else (db', false)
      else CloseUnder(db, ours.refund.value, w.close)
    case _ => (db, false)
  }

  /** The same when nothing fails. */
  function FixTx(db: Db, a: Action, ours: Ours, theirs: Theirs): (Db, bool) {
    FixUnder(db, a, ours, theirs, FAIR)
  }

  /** What the loop does with one key, given the two records it looked up. */
  function TreatUnder(db: Db, ours: Option<Ours>, theirs: Option<Theirs>, w: FixWeather): (Db, Outcome) {
    var f := Classify(ours, theirs);
    if f.kind == Matched then (db, Fine)
    else if f.action == Manual then (db, Left(f.kind))
    else
      var (db', fixed) := FixUnder(db, f.action, ours.value, theirs.value, w);
      (db', if fixed then Fixed else Left(f.kind))
  }

  function ProviderKeys(w: Window): set<string> {
    set i | 0 <= i < |w.j.charges| && w.from <= w.j.charges[i].at < w.to && w.j.charges[i].key != "" ::
          w.j.charges[i].key
  }

  predicate InScope(p: Payment, w: Window) {
    p.key != "" && (w.from <= p.createdAt < w.to || p.key in ProviderKeys(w))
  }

  function OursIn(db: Db, w: Window, key: string): Option<Ours> {
    match FindPayment(db.payments, key)
    case None => None
    case Some(p) => if InScope(db.payments[p], w) then Some(OursOf(db, p)) else None
  }

  function TheirsIn(w: Window, key: string): Option<Theirs> {
    match FindCharge(w.j.charges, key)
    case None => None
    case Some(c) =>
      if w.from - w.margin <= w.j.charges[c].at < w.to + w.margin then Some(TheirsOf(w.j, c)) else None
  }

  /** The keys a run looks at. */
  function Keys(db: Db, w: Window): set<string> {
    (set i | 0 <= i < |db.payments| && InScope(db.payments[i], w) :: db.payments[i].key) + ProviderKeys(w)
  }

  /** A run looks at a key exactly if our payment with it was created in the period, or a charge under it is dated in
      the period. */
  lemma KeysExactly(db: Db, w: Window, key: string)
    ensures key in Keys(db, w) <==>
      && key != ""
      && ((exists p :: 0 <= p < |db.payments| && db.payments[p].key == key && w.from <= db.payments[p].createdAt < w.to)
          || (exists t :: && 0 <= t < |w.j.charges| && w.j.charges[t].key == key
                          && w.from <= w.j.charges[t].at < w.to))
  {
    if p :| 0 <= p < |db.payments| && db.payments[p].key == key && w.from <= db.payments[p].createdAt < w.to {
      assert key != "" ==> InScope(db.payments[p], w);
    }
    if key in Keys(db, w) && key !in ProviderKeys(w) {
      var p :| 0 <= p < |db.payments| && InScope(db.payments[p], w) && db.payments[p].key == key;
    }
  }

  function FindingOf(db: Db, w: Window, key: string): Finding {
    Classify(OursIn(db, w, key), TheirsIn(w, key))
  }

  /** The fix a key gets, if it needs one and it goes through on these same tables: only "succeeded" can fail,
      on an order that is not open. */
  function RepairOf(db: Db, w: Window, key: string): Option<Repair> {
    var a := FindingOf(db, w, key).action;
    if !IsFix(a) then None
    else
      var ours, theirs := OursIn(db, w, key).value, TheirsIn(w, key).value;
      if a == FixPaymentSucceeded && !(ours.order < |db.orders| && db.orders[ours.order].status == Open) then None
      else Some(Repair(ours, theirs, a))
  }

  function OutcomeOf(db: Db, w: Window, key: string): Outcome {
    var f := FindingOf(db, w, key);
    if f.kind == Matched then Fine else if RepairOf(db, w, key).Some? then Fixed else Left(f.kind)
  }

  // ----- the tables after the keys in `done` were treated

  function PaymentTarget(a: Action): PaymentStatus {
    match a
    case FixPaymentSucceeded => Succeeded
    case FixPaymentFailed => Failed
    case _ => Refunded
  }

  function RepairIn(db: Db, w: Window, done: set<string>, p: nat): Option<Repair> {
    if p < |db.payments| && db.payments[p].key in done then RepairOf(db, w, db.payments[p].key) else None
  }

  function NewPayment(db: Db, w: Window, done: set<string>, p: nat): Payment
    requires p < |db.payments|
  {
    match RepairIn(db, w, done, p)
    case None => db.payments[p]
    case Some(r) =>
      db.payments[p].(status := PaymentTarget(r.action),
                      charge := if r.action == FixPaymentSucceeded then Some(r.theirs.charge)
                          else db.payments[p].charge)
  }

  function NewRefund(db: Db, w: Window, done: set<string>, i: nat): Refund
    requires i < |db.refunds|
  {
    var r := RepairIn(db, w, done, db.refunds[i].payment);
    if r.Some? && r.value.action == FixRefundSucceeded then db.refunds[i].(status := Done) else db.refunds[i]
  }

  ghost predicate BecomesPaid(db: Db, w: Window, done: set<string>, o: nat) {
    exists p :: && 0 <= p < |db.payments| && db.payments[p].order == o
                && RepairIn(db, w, done, p).Some? && RepairIn(db, w, done, p).value.action == FixPaymentSucceeded
  }

  ghost function NewOrder(db: Db, w: Window, done: set<string>, o: nat): Order
    requires o < |db.orders|
  {
    if BecomesPaid(db, w, done, o) then db.orders[o].(status := Paid) else db.orders[o]
  }

  function NewEvents(db: Db, w: Window, done: set<string>, p: nat): seq<Event>
    requires p < |db.payments|
  {
    match RepairIn(db, w, done, p)
    case None => []
    case Some(r) =>
      if db.payments[p].status == PaymentTarget(r.action) then []
      else [Event(p, Some(db.payments[p].status), PaymentTarget(r.action))]
  }

  /** `db'` is `db` with every key in `done` treated. Event ids aside, this determines all tables. */
  ghost predicate Treated(db: Db, w: Window, done: set<string>, db': Db) {
    && db'.products == db.products && db'.created == db.created
    && |db'.payments| == |db.payments| && |db'.refunds| == |db.refunds| && |db'.orders| == |db.orders|
    && (forall p | 0 <= p < |db.payments| :: db'.payments[p] == NewPayment(db, w, done, p))
    && (forall i | 0 <= i < |db.refunds| :: db'.refunds[i] == NewRefund(db, w, done, i))
    && (forall o | 0 <= o < |db.orders| :: db'.orders[o] == NewOrder(db, w, done, o))
    && (forall p | 0 <= p < |db.payments| ::
          EventsOf(db'.events, p) == EventsOf(db.events, p) + NewEvents(db, w, done, p))
  }

  lemma FoundPaymentIfKeyed(payments: seq<Payment>, q: nat)
    requires UniquePaymentKeys(payments) && q < |payments|
    ensures payments[q].key != "" ==> FindPayment(payments, payments[q].key) == Some(q)
  {
    if payments[q].key != "" { FoundPayment(payments, q); }
  }

  lemma TreatedNothing(db: Db, w: Window)
    ensures Treated(db, w, {}, db)
  {
  }

  /** What the decision table has checked before a repair. */
  lemma RepairFacts(db: Db, w: Window, key: string)
    requires UniquePaymentKeys(db.payments) && UniqueRefunds(db.refunds) && RepairOf(db, w, key).Some?
    ensures var r := RepairOf(db, w, key).value; var p := r.ours.payment;
      && p < |db.payments| && db.payments[p].key == key && key != "" && r.ours == OursOf(db, p) && IsFix(r.action)
      && (r.action == FixPaymentSucceeded ==>
            && db.payments[p].status == Pending
            && db.payments[p].order < |db.orders| && db.orders[db.payments[p].order].status == Open)
      && (r.action == FixPaymentFailed ==> db.payments[p].status == Pending)
      && (r.action == FixRefundSucceeded ==>
            && (db.payments[p].status == Succeeded || db.payments[p].status == Refunded)
            && r.ours.refund == FindRefund(db.refunds, p) && r.ours.refund.Some?
            && db.refunds[r.ours.refund.value].status != Done)
  {
  }

  /** Only one payment of an order can be waiting for "succeeded". */
  predicate PaidByRepair(db: Db, w: Window, done: set<string>, q: nat) {
    && q < |db.payments| && RepairIn(db, w, done, q).Some?
    && RepairIn(db, w, done, q).value.action == FixPaymentSucceeded
  }

  lemma OtherKeyLeavesOrder(db: Db, w: Window, done: set<string>, key: string)
    requires Schema(db) && key !in done && FindPayment(db.payments, key).Some?
    requires db.payments[FindPayment(db.payments, key).value].status == Pending
    ensures !BecomesPaid(db, w, done, db.payments[FindPayment(db.payments, key).value].order)
  {
    var p := FindPayment(db.payments, key).value;
    if q: nat :| PaidByRepair(db, w, done, q) && db.payments[q].order == db.payments[p].order {
      PaidOneIsPending(db, w, done, q);
      assert p != q && Active(db.payments[p].status) && Active(db.payments[q].status);
    }
  }

  lemma PaidOneIsPending(db: Db, w: Window, done: set<string>, q: nat)
    requires Schema(db) && PaidByRepair(db, w, done, q)
    ensures db.payments[q].status == Pending && db.payments[q].key in done
  {
    RepairFacts(db, w, db.payments[q].key);
    FoundPayment(db.payments, q);
  }

  /** Treating one more key concerns only the payment with that key. */
  lemma OneMoreKey(db: Db, w: Window, done: set<string>, key: string, q: nat)
    requires UniquePaymentKeys(db.payments) && q < |db.payments|
    ensures RepairIn(db, w, done + {key}, q)
         == (if db.payments[q].key == key then RepairOf(db, w, key) else RepairIn(db, w, done, q))
  {
  }

  lemma TreatUntouched(db: Db, w: Window, done: set<string>, db': Db, key: string)
    requires UniquePaymentKeys(db.payments) && Treated(db, w, done, db') && key !in done && RepairOf(db, w, key).None?
    ensures Treated(db, w, done + {key}, db')
  {
    forall q | 0 <= q < |db.payments| ensures RepairIn(db, w, done + {key}, q) == RepairIn(db, w, done, q) {
      OneMoreKey(db, w, done, key, q);
    }
    SameRepairs(db, w, done, done + {key}, db');
  }

  lemma SameRepairs(db: Db, w: Window, a: set<string>, b: set<string>, db': Db)
    requires forall q | 0 <= q < |db.payments| :: RepairIn(db, w, a, q) == RepairIn(db, w, b, q)
    requires Treated(db, w, a, db')
    ensures Treated(db, w, b, db')
  {
    forall i | 0 <= i < |db.refunds| ensures NewRefund(db, w, b, i) == NewRefund(db, w, a, i) {
      if db.refunds[i].payment < |db.payments| {
        assert RepairIn(db, w, a, db.refunds[i].payment) == RepairIn(db, w, b, db.refunds[i].payment);
      }
    }
    forall o | 0 <= o < |db.orders| ensures BecomesPaid(db, w, b, o) == BecomesPaid(db, w, a, o) {
      if p :| && 0 <= p < |db.payments| && db.payments[p].order == o
              && RepairIn(db, w, a, p).Some? && RepairIn(db, w, a, p).value.action == FixPaymentSucceeded {
        assert RepairIn(db, w, b, p) == RepairIn(db, w, a, p);
      }
      if p :| && 0 <= p < |db.payments| && db.payments[p].order == o
              && RepairIn(db, w, b, p).Some? && RepairIn(db, w, b, p).value.action == FixPaymentSucceeded {
        assert RepairIn(db, w, b, p) == RepairIn(db, w, a, p);
      }
    }
  }

  /** One iteration of the job's loop on a key that wants a fix: it goes through exactly if the
      starting tables say so, whatever keys came before, and adds just this key's changes. */
  lemma TreatOne(db: Db, w: Window, done: set<string>, now: Db, key: string)
    requires Schema(db) && Treated(db, w, done, now) && key !in done && IsFix(FindingOf(db, w, key).action)
    ensures var (now', ok) :=
        FixTx(now, FindingOf(db, w, key).action, OursIn(db, w, key).value, TheirsIn(w, key).value);
      ok == RepairOf(db, w, key).Some? && Treated(db, w, done + {key}, now')
  {
    var a := FindingOf(db, w, key).action;
    var ours, theirs := OursIn(db, w, key).value, TheirsIn(w, key).value;
    var p := ours.payment;
    assert now.payments[p] == NewPayment(db, w, done, p) == db.payments[p];
    if RepairOf(db, w, key).None? {
      assert a == FixPaymentSucceeded;
      TreatUntouched(db, w, done, now, key);
      if db.payments[p].order < |db.orders| {
        assert now.orders[db.payments[p].order] == NewOrder(db, w, done, db.payments[p].order);
      }
    } else if a == FixPaymentSucceeded {
      TreatSucceeded(db, w, done, now, key);
    } else if a == FixPaymentFailed {
      TreatFailed(db, w, done, now, key);
    } else {
      TreatRefund(db, w, done, now, key);
    }
  }

  /** The repaired payment's row and log, and everybody else's, after one more key. */
  ghost predicate RowsTreated(db: Db, w: Window, done: set<string>, now: Db) {
    && |now.payments| == |db.payments|
    && (forall q | 0 <= q < |db.payments| :: now.payments[q] == NewPayment(db, w, done, q))
    && (forall q | 0 <= q < |db.payments| ::
          EventsOf(now.events, q) == EventsOf(db.events, q) + NewEvents(db, w, done, q))
  }

  lemma TreatRows(db: Db, w: Window, done: set<string>, now: Db, key: string, now': Db)
    requires Schema(db) && Treated(db, w, done, now) && key !in done && RepairOf(db, w, key).Some?
    requires var r := RepairOf(db, w, key).value; var p := r.ours.payment; var to := PaymentTarget(r.action);
      && p < |now.payments| && db.payments[p].status != to
      && now'.payments == now.payments[p := now.payments[p].(
           status := to, charge := if r.action == FixPaymentSucceeded then Some(r.theirs.charge)
               else now.payments[p].charge)]
      && now'.events == now.events + [Event(p, Some(db.payments[p].status), to)]
    ensures RowsTreated(db, w, done + {key}, now')
  {
    RepairFacts(db, w, key);
    var r := RepairOf(db, w, key).value;
    var p := r.ours.payment;
    FoundPayment(db.payments, p);
    forall q | 0 <= q < |db.payments|
      ensures now'.payments[q] == NewPayment(db, w, done + {key}, q)
      ensures EventsOf(now'.events, q) == EventsOf(db.events, q) + NewEvents(db, w, done + {key}, q)
    {
      OneMoreKey(db, w, done, key, q);
      EventsOfAppend(now.events, Event(p, Some(db.payments[p].status), PaymentTarget(r.action)), q);
      FoundPaymentIfKeyed(db.payments, q);
    }
  }

  lemma NewRefundsStay(db: Db, w: Window, done: set<string>, key: string, i: nat)
    requires Schema(db) && i < |db.refunds| && RepairOf(db, w, key).Some?
    requires db.refunds[i].payment != RepairOf(db, w, key).value.ours.payment
          || RepairOf(db, w, key).value.action != FixRefundSucceeded
    requires key !in done
    ensures NewRefund(db, w, done + {key}, i) == NewRefund(db, w, done, i)
  {
    RepairFacts(db, w, key);
    var q := db.refunds[i].payment;
    if q < |db.payments| {
      OneMoreKey(db, w, done, key, q);
      if db.payments[q].key == key {
        FoundPayment(db.payments, q);
        FoundPayment(db.payments, RepairOf(db, w, key).value.ours.payment);
      }
    }
  }

  lemma PaidStays(db: Db, w: Window, done: set<string>, key: string, o: nat)
    requires Schema(db) && RepairOf(db, w, key).Some? && key !in done
    requires var r := RepairOf(db, w, key).value;
      r.action != FixPaymentSucceeded || (r.ours.payment < |db.payments| && db.payments[r.ours.payment].order != o)
    ensures BecomesPaid(db, w, done + {key}, o) == BecomesPaid(db, w, done, o)
  {
    RepairFacts(db, w, key);
    var r := RepairOf(db, w, key).value;
    forall q | 0 <= q < |db.payments| && db.payments[q].order == o
      ensures (RepairIn(db, w, done + {key}, q).Some?
          && RepairIn(db, w, done + {key}, q).value.action == FixPaymentSucceeded)
         <==> (RepairIn(db, w, done, q).Some? && RepairIn(db, w, done, q).value.action == FixPaymentSucceeded)
    {
      OneMoreKey(db, w, done, key, q);
      if db.payments[q].key == key {
        FoundPayment(db.payments, q);
        FoundPayment(db.payments, r.ours.payment);
      }
    }
  }

  lemma TreatSucceeded(db: Db, w: Window, done: set<string>, now: Db, key: string)
    requires Schema(db) && Treated(db, w, done, now) && key !in done
    requires RepairOf(db, w, key).Some? && RepairOf(db, w, key).value.action == FixPaymentSucceeded
    ensures var r := RepairOf(db, w, key).value; var (now', ok) := FixTx(now, r.action, r.ours, r.theirs);
      ok && Treated(db, w, done + {key}, now')
  {
    RepairFacts(db, w, key);
    var r := RepairOf(db, w, key).value;
    var p := r.ours.payment;
    var o := db.payments[p].order;
    FoundPayment(db.payments, p);
    OtherKeyLeavesOrder(db, w, done, key);
    assert now.payments[p] == NewPayment(db, w, done, p) == db.payments[p];
    assert now.orders[o] == NewOrder(db, w, done, o) == db.orders[o];
    var now' := FixTx(now, r.action, r.ours, r.theirs).0;
    TreatRows(db, w, done, now, key, now');
    forall i | 0 <= i < |db.refunds| ensures now'.refunds[i] == NewRefund(db, w, done + {key}, i) {
      NewRefundsStay(db, w, done, key, i);
    }
    forall k | 0 <= k < |db.orders| ensures now'.orders[k] == NewOrder(db, w, done + {key}, k) {
      if k == o {
        OneMoreKey(db, w, done, key, p);
        assert BecomesPaid(db, w, done + {key}, o);
      } else {
        PaidStays(db, w, done, key, k);
      }
    }
  }

  lemma TreatFailed(db: Db, w: Window, done: set<string>, now: Db, key: string)
    requires Schema(db) && Treated(db, w, done, now) && key !in done
    requires RepairOf(db, w, key).Some? && RepairOf(db, w, key).value.action == FixPaymentFailed
    ensures var r := RepairOf(db, w, key).value; var (now', ok) := FixTx(now, r.action, r.ours, r.theirs);
      ok && Treated(db, w, done + {key}, now')
  {
    RepairFacts(db, w, key);
    var r := RepairOf(db, w, key).value;
    var p := r.ours.payment;
    assert now.payments[p] == NewPayment(db, w, done, p) == db.payments[p];
    var now' := FixTx(now, r.action, r.ours, r.theirs).0;
    TreatRows(db, w, done, now, key, now');
    forall i | 0 <= i < |db.refunds| ensures now'.refunds[i] == NewRefund(db, w, done + {key}, i) {
      NewRefundsStay(db, w, done, key, i);
    }
    forall k | 0 <= k < |db.orders| ensures now'.orders[k] == NewOrder(db, w, done + {key}, k) {
      PaidStays(db, w, done, key, k);
    }
  }

  lemma TreatRefund(db: Db, w: Window, done: set<string>, now: Db, key: string)
    requires Schema(db) && Treated(db, w, done, now) && key !in done
    requires RepairOf(db, w, key).Some? && RepairOf(db, w, key).value.action == FixRefundSucceeded
    ensures var r := RepairOf(db, w, key).value; var (now', ok) := FixTx(now, r.action, r.ours, r.theirs);
      ok && Treated(db, w, done + {key}, now')
  {
    RepairFacts(db, w, key);
    var r := RepairOf(db, w, key).value;
    var p, row := r.ours.payment, r.ours.refund.value;
    assert now.payments[p] == NewPayment(db, w, done, p) == db.payments[p];
    assert now.refunds[row] == NewRefund(db, w, done, row) == db.refunds[row];
    var now' := FixTx(now, r.action, r.ours, r.theirs).0;
    TreatRefundRows(db, w, done, now, key);
    forall i | 0 <= i < |db.refunds| ensures now'.refunds[i] == NewRefund(db, w, done + {key}, i) {
      if i == row {
        OneMoreKey(db, w, done, key, p);
      } else {
        FoundRefund(db.refunds, i);
        NewRefundsStay(db, w, done, key, i);
      }
    }
    forall k | 0 <= k < |db.orders| ensures now'.orders[k] == NewOrder(db, w, done + {key}, k) {
      PaidStays(db, w, done, key, k);
    }
  }

  lemma TreatRefundRows(db: Db, w: Window, done: set<string>, now: Db, key: string)
    requires Schema(db) && Treated(db, w, done, now) && key !in done
    requires RepairOf(db, w, key).Some? && RepairOf(db, w, key).value.action == FixRefundSucceeded
    ensures var r := RepairOf(db, w, key).value; var (now', ok) := FixTx(now, r.action, r.ours, r.theirs);
      && ok && RowsTreated(db, w, done + {key}, now')
      && now'.products == now.products && now'.created == now.created && now'.orders == now.orders
      && now'.refunds == now.refunds[r.ours.refund.value := now.refunds[r.ours.refund.value].(status := Done)]
  {
    RepairFacts(db, w, key);
    var r := RepairOf(db, w, key).value;
    var p, row := r.ours.payment, r.ours.refund.value;
    assert now.payments[p] == NewPayment(db, w, done, p) == db.payments[p];
    assert now.refunds[row] == NewRefund(db, w, done, row) == db.refunds[row];
    var now' := FixTx(now, r.action, r.ours, r.theirs).0;
    if db.payments[p].status == Succeeded {
      TreatRows(db, w, done, now, key, now');
    } else {
      FoundPayment(db.payments, p);
      forall q | 0 <= q < |db.payments|
        ensures now'.payments[q] == NewPayment(db, w, done + {key}, q)
        ensures EventsOf(now'.events, q) == EventsOf(db.events, q) + NewEvents(db, w, done + {key}, q)
      {
        OneMoreKey(db, w, done, key, q);
        FoundPaymentIfKeyed(db.payments, q);
      }
    }
  }

  // ----- running again

  /** After a full run and with nothing else happening, the same keys are looked at again; repaired
      ones match, and every other key comes out as before. */
  lemma SecondLook(db: Db, w: Window, db': Db, key: string)
    requires Schema(db) && Treated(db, w, Keys(db, w), db') && key in Keys(db, w)
    ensures Keys(db', w) == Keys(db, w)
    ensures OutcomeOf(db', w, key) == (if OutcomeOf(db, w, key) == Fixed then Fine else OutcomeOf(db, w, key))
  {
    SameLookups(db, w, Keys(db, w), db', key);
    if RepairOf(db, w, key).Some? {
      LookAfterRepair(db, w, db', key);
    } else {
      LookUnrepaired(db, w, db', key);
    }
  }

  lemma LookUnrepaired(db: Db, w: Window, db': Db, key: string)
    requires Schema(db) && Treated(db, w, Keys(db, w), db') && RepairOf(db, w, key).None?
    ensures OursIn(db', w, key) == OursIn(db, w, key) && RepairOf(db', w, key).None?
  {
    SameLookups(db, w, Keys(db, w), db', key);
    var p := FindPayment(db.payments, key);
    if p.Some? {
      assert db'.payments[p.value] == NewPayment(db, w, Keys(db, w), p.value) == db.payments[p.value];
      var row := FindRefund(db.refunds, p.value);
      if row.Some? {
        assert db'.refunds[row.value] == NewRefund(db, w, Keys(db, w), row.value) == db.refunds[row.value];
      }
      assert OursOf(db', p.value) == OursOf(db, p.value);
      var o := db.payments[p.value].order;
      if o < |db.orders| { assert db'.orders[o] == NewOrder(db, w, Keys(db, w), o); }
    }
  }

  /** The rows that a repair leaves. */
  lemma RepairedRows(db: Db, w: Window, db': Db, key: string)
    requires Schema(db) && Treated(db, w, Keys(db, w), db') && RepairOf(db, w, key).Some? && key in Keys(db, w)
    ensures var r := RepairOf(db, w, key).value; var p := r.ours.payment;
      && p < |db'.payments|
      && db'.payments[p].status == PaymentTarget(r.action)
      && db'.payments[p].amount == db.payments[p].amount
      && (r.action == FixRefundSucceeded ==>
            r.ours.refund.Some? && r.ours.refund.value < |db'.refunds|
                && db'.refunds[r.ours.refund.value].status == Done)
  {
    RepairFacts(db, w, key);
    var r := RepairOf(db, w, key).value;
    assert db'.payments[r.ours.payment] == NewPayment(db, w, Keys(db, w), r.ours.payment);
    assert RepairIn(db, w, Keys(db, w), r.ours.payment) == Some(r);
    if r.action == FixRefundSucceeded {
      assert db'.refunds[r.ours.refund.value] == NewRefund(db, w, Keys(db, w), r.ours.refund.value);
    }
  }

  /** A row repaired as the decision table said is matched by the same provider entry. */
  lemma RepairedIsMatched(before: Ours, t: Theirs, after: Ours)
    requires var a := Classify(Some(before), Some(t)).action;
      && IsFix(a) && after.status == PaymentTarget(a) && after.amount == before.amount
      && (a == FixRefundSucceeded ==> after.refund.Some? && after.refundStatus == RefundStatus.Done)
    ensures Classify(Some(after), Some(t)).kind == Matched
  {
  }

  lemma LookAfterRepair(db: Db, w: Window, db': Db, key: string)
    requires Schema(db) && Treated(db, w, Keys(db, w), db') && RepairOf(db, w, key).Some? && key in Keys(db, w)
    ensures FindingOf(db', w, key).kind == Matched
  {
    RepairFacts(db, w, key);
    RepairedRows(db, w, db', key);
    RepairedLookup(db, w, db', key);
    var r := RepairOf(db, w, key).value;
    RepairedIsMatched(r.ours, r.theirs, OursOf(db', r.ours.payment));
  }

  lemma RepairedLookup(db: Db, w: Window, db': Db, key: string)
    requires Schema(db) && Treated(db, w, Keys(db, w), db') && RepairOf(db, w, key).Some? && key in Keys(db, w)
    ensures var p := RepairOf(db, w, key).value.ours.payment;
      && p < |db'.payments|
      && OursIn(db', w, key) == Some(OursOf(db', p))
      && FindRefund(db'.refunds, p) == FindRefund(db.refunds, p)
  {
    SameLookups(db, w, Keys(db, w), db', key);
    RepairFacts(db, w, key);
    var p := RepairOf(db, w, key).value.ours.payment;
    FoundPayment(db.payments, p);
    assert db'.payments[p] == NewPayment(db, w, Keys(db, w), p);
  }

  lemma SameLookups(db: Db, w: Window, done: set<string>, db': Db, key: string)
    requires Schema(db) && Treated(db, w, done, db')
    ensures FindPayment(db'.payments, key) == FindPayment(db.payments, key)
    ensures forall p: nat :: FindRefund(db'.refunds, p) == FindRefund(db.refunds, p)
    ensures Keys(db', w) == Keys(db, w)
  {
    assert forall p | 0 <= p < |db.payments| :: db'.payments[p] == NewPayment(db, w, done, p);
    assert forall p | 0 <= p < |db.payments| ::
        db'.payments[p].key == db.payments[p].key && db'.payments[p].createdAt == db.payments[p].createdAt;
    assert UniquePaymentKeys(db'.payments);
    PaymentStays(db.payments, db'.payments, key);
    PaymentStays(db'.payments, db.payments, key);
    assert forall i | 0 <= i < |db.refunds| :: db'.refunds[i] == NewRefund(db, w, done, i);
    assert UniqueRefunds(db'.refunds);
    forall p: nat ensures FindRefund(db'.refunds, p) == FindRefund(db.refunds, p) {
      RefundStays(db.refunds, db'.refunds, p);
      RefundStays(db'.refunds, db.refunds, p);
    }
    SameKeys(db, w, db');
  }

  lemma SameKeys(db: Db, w: Window, db': Db)
    requires |db'.payments| == |db.payments|
    requires forall p | 0 <= p < |db.payments| ::
      db'.payments[p].key == db.payments[p].key && db'.payments[p].createdAt == db.payments[p].createdAt
    ensures Keys(db', w) == Keys(db, w)
  {
    forall k | k in Keys(db, w) ensures k in Keys(db', w) {
      if k !in ProviderKeys(w) {
        var p :| 0 <= p < |db.payments| && InScope(db.payments[p], w) && db.payments[p].key == k;
        assert InScope(db'.payments[p], w);
      }
    }
    forall k | k in Keys(db', w) ensures k in Keys(db, w) {
      if k !in ProviderKeys(w) {
        var p :| 0 <= p < |db.payments| && InScope(db'.payments[p], w) && db'.payments[p].key == k;
        assert InScope(db.payments[p], w);
      }
    }
  }
}
