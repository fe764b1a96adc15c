/** What a visit of the two workers does to its payment or refund: told by what the provider's journal and the rows
    held when its statements ran, and not by the code that decides. */
module WorkerVisits {
  import opened Domain
  import opened Tables
  import opened Protocol
  import opened Invariant
  import opened Runs
  import opened PaymentTheorems
  import opened Deployment
  import opened PayAnswers
  import opened Backoff

  // ----- a stuck payment

  /** What the status check learns. */
  datatype Verdict =
    | NoKey
    | Unclear
    | Early
    | Decided(to: PaymentStatus, charge: Option<nat>)

  function VerdictOf(c: Config, a: Act, f: Flight): Verdict
    requires f.Checking?
  {
    if f.key == "" then NoKey
    else if !IsHeard(a) then Unclear
    else
      match FindCharge(a.at.journal.charges, f.key)
      case Some(t) => if a.at.journal.charges[t].charged then Decided(Succeeded, Some(t)) else Decided(Failed, None)
      case None => if f.age >= c.expireAfter then Decided(Expired, None) else Early
  }

  ghost predicate OrderOpen(db: Db, order: nat) {
    order < |db.orders| && db.orders[order].status == Open
  }

  function After(c: Config, a: Act): State {
    Apply(c, a.at, a.step)
  }

  /** The outcome goes into a payment that is still pending, and into no other; a failing statement writes nothing. */
  ghost predicate RecordsOutcome(c: Config, b: Act, fid: nat, p: nat, to: PaymentStatus, charge: Option<nat>,
                                 fails: bool)
  {
    && (b.step == StatementFails(fid) || (b.step.Move? && b.step.fid == fid)) && (b.step.StatementFails? <==> fails)
    && var before, after := b.at.db.payments, After(c, b).db.payments;
       p < |before| ==>
         && p < |after|
         && after[p] ==
            if fails || before[p].status != Pending || (to == Succeeded && !OrderOpen(b.at.db, before[p].order))
            then before[p]
            else before[p].(status := to, charge := if charge.Some? then charge else before[p].charge)
  }

  /** The payment, if still pending, is parked for a person or gets its next check after the doubled pause. */
  ghost predicate MarksRow(c: Config, m: Act, fid: nat, p: nat, attempts: nat, byHand: bool, fails: bool)
    requires attempts >= 1
  {
    && (m.step == StatementFails(fid) || (m.step.Move? && m.step.fid == fid)) && (m.step.StatementFails? <==> fails)
    && var before, after := m.at.db.payments, After(c, m).db.payments;
       p < |before| ==>
         && p < |after|
         && after[p] ==
            if fails || before[p].status != Pending then before[p]
            else if byHand then before[p].(manual := true)
            else before[p].(nextAt := m.at.clock + DoubledPause(CHECK_BASE, CHECK_CAP, attempts))
  }

  /** The doubled pause, at most the cap. */
  function DoubledPause(base: nat, cap: nat, attempts: nat): nat
    requires attempts >= 1
  {
    var v := base * Pow2(attempts - 1);
    assert v >= 0 by { PositiveOrNone(base, Pow2(attempts - 1)); }
    if v <= cap then v else cap
  }

  lemma PositiveOrNone(a: nat, b: int)
    requires b >= 1
    ensures a * b >= 0
  {
  }

  /** The whole visit of a payment leased as `f`. */
  ghost predicate VisitFits(c: Config, acts: seq<Act>, fid: nat, f: Flight, recordFails: bool, markFails: bool)
    requires f.Checking? && f.attempts >= 1
  {
    && acts != [] && acts[0].step.Move? && acts[0].step.fid == fid
    && match VerdictOf(c, acts[0], f)
       case NoKey => |acts| == 2 && MarksRow(c, acts[1], fid, f.payment, f.attempts, true, markFails)
       case Unclear =>
         |acts| == 2 && MarksRow(c, acts[1], fid, f.payment, f.attempts, f.attempts >= c.checkAttempts, markFails)
       case Early => |acts| == 2 && MarksRow(c, acts[1], fid, f.payment, f.attempts, false, markFails)
       case Decided(to, charge) =>
         && |acts| >= 2 && RecordsOutcome(c, acts[1], fid, f.payment, to, charge, recordFails)
         && if recordFails || NotRecordable(acts[1], f.payment, to) then
              |acts| == 3
              && MarksRow(c, acts[2], fid, f.payment, f.attempts, f.attempts >= c.checkAttempts, markFails)
            else |acts| == 2
  }

  /** The payment is gone, or its order no longer open: the transition rolls back. */
  ghost predicate NotRecordable(b: Act, p: nat, to: PaymentStatus) {
    var payments := b.at.db.payments;
    || p >= |payments|
    || (payments[p].status == Pending && to == Succeeded && !OrderOpen(b.at.db, payments[p].order))
  }

  /** What the visit leaves: a payment still pending had no key, no clear answer, too little time, or a record that
      failed; and one that was pending when its outcome was recorded now says what the journal said at the check. */
  ghost predicate Settles(c: Config, acts: seq<Act>, f: Flight, recordFails: bool, s: State)
    requires f.Checking? && acts != []
  {
    var a, p := acts[0], f.payment;
    var known, charged := FindCharge(a.at.journal.charges, f.key), TookMoney(a.at.journal, f.key);
    && p < |s.db.payments|
    && (s.db.payments[p].status == Pending ==>
          f.key == "" || !IsHeard(a) || (known.None? && f.age < c.expireAfter) || recordFails)
    && (f.key != "" && IsHeard(a) && (known.Some? || f.age >= c.expireAfter) && !recordFails ==>
          && |acts| == 2
          && p < |acts[1].at.db.payments|
          && (acts[1].at.db.payments[p].status == Pending ==>
                && (s.db.payments[p].status == Succeeded <==> charged)
                && (charged ==> s.db.payments[p].charge == known)
                && (s.db.payments[p].status == Failed <==> known.Some? && !charged)
                && (s.db.payments[p].status == Expired <==> known.None?)))
  }

  /** The states a call acts in are states of the run. */
  lemma {:induction false} ActsInRun(c: Config, s: State, steps: seq<Step>, fid: nat)
    requires Inv(s)
    ensures forall i | 0 <= i < |Acts(c, s, steps, fid)| :: Kept(s, Acts(c, s, steps, fid)[i].at)
  {
    if steps != [] {
      ActsInRun(c, s, steps[..|steps| - 1], fid);
      RunKeeps(c, s, steps[..|steps| - 1]);
    }
  }

  lemma FitSettles(c: Config, acts: seq<Act>, fid: nat, f: Flight, recordFails: bool, markFails: bool)
    requires f.Checking? && f.attempts >= 1 && VisitFits(c, acts, fid, f, recordFails, markFails)
    requires forall i | 0 <= i < |acts| :: Inv(acts[i].at) && f.payment < |acts[i].at.db.payments|
    ensures Settles(c, acts, f, recordFails, After(c, Last(acts)))
  {
    var v := VerdictOf(c, acts[0], f);
    if v.Decided? {
      PendingIsOpen(acts[1].at, f.payment);
      DecidedSettles(c, acts, fid, f, v.to, v.charge, recordFails, markFails);
    } else {
      UndecidedSettles(c, acts, fid, f, recordFails, markFails);
    }
  }

  lemma DecidedSettles(c: Config, acts: seq<Act>, fid: nat, f: Flight, to: PaymentStatus, charge: Option<nat>,
                       recordFails: bool, markFails: bool)
    requires f.Checking? && f.attempts >= 1 && acts != [] && VerdictOf(c, acts[0], f) == Decided(to, charge)
    requires |acts| >= 2 && RecordsOutcome(c, acts[1], fid, f.payment, to, charge, recordFails)
    requires f.payment < |acts[1].at.db.payments|
    requires var row := acts[1].at.db.payments[f.payment]; row.status == Pending ==> OrderOpen(acts[1].at.db, row.order)
    requires !recordFails ==> |acts| == 2
    requires recordFails ==> |acts| == 3 && MarksRow(c, acts[2], fid, f.payment, f.attempts,
                                                      f.attempts >= c.checkAttempts, markFails)
    requires recordFails ==> f.payment < |acts[2].at.db.payments|
    ensures Settles(c, acts, f, recordFails, After(c, Last(acts)))
  {
  }

  lemma UndecidedSettles(c: Config, acts: seq<Act>, fid: nat, f: Flight, recordFails: bool, markFails: bool)
    requires f.Checking? && f.attempts >= 1 && |acts| == 2 && !VerdictOf(c, acts[0], f).Decided?
    requires exists byHand :: MarksRow(c, acts[1], fid, f.payment, f.attempts, byHand, markFails)
    requires f.payment < |acts[1].at.db.payments|
    ensures Settles(c, acts, f, recordFails, After(c, Last(acts)))
  {
  }

  lemma PendingIsOpen(s: State, p: nat)
    requires Inv(s) && p < |s.db.payments|
    ensures s.db.payments[p].status == Pending ==> OrderOpen(s.db, s.db.payments[p].order)
  {
    assert PaymentRow(s.db, s.journal, p);
  }

  // ----- a due refund

  /** The provider's answer is recorded in row and payment together, or not at all. */
  ghost predicate RecordsRefund(b: Act, c: Config, fid: nat, r: nat, p: nat, sent: nat, fails: bool) {
    && (b.step == StatementFails(fid) || (b.step.Move? && b.step.fid == fid)) && (b.step.StatementFails? <==> fails)
    && var db, db' := b.at.db, After(c, b).db;
       r < |db.refunds| && p < |db.payments| ==>
         && r < |db'.refunds| && p < |db'.payments|
         && if fails || db.payments[p].status != Succeeded
            then db'.refunds[r] == db.refunds[r] && db'.payments[p] == db.payments[p]
            else && db'.payments[p] == db.payments[p].(status := PaymentStatus.Refunded)
                 && (db.refunds[r].status == Waiting ==>
                       db'.refunds[r] == db.refunds[r].(status := Done, providerRefund := Some(sent)))
                 && (db.refunds[r].status != Waiting ==> db'.refunds[r] == db.refunds[r])
  }

  /** A refusal: at the attempt limit a person, before that the doubled pause. */
  ghost predicate RecordsRefusal(b: Act, c: Config, fid: nat, r: nat, attempts: nat, fails: bool)
    requires attempts >= 1
  {
    && (b.step == StatementFails(fid) || (b.step.Move? && b.step.fid == fid)) && (b.step.StatementFails? <==> fails)
    && var refunds, refunds' := b.at.db.refunds, After(c, b).db.refunds;
       r < |refunds| ==>
         && r < |refunds'|
         && refunds'[r] ==
            if fails || refunds[r].status != Waiting then refunds[r]
            else if attempts >= c.refundAttempts then refunds[r].(status := ManualReview)
            else refunds[r].(nextAt := b.at.clock + DoubledPause(REFUND_BASE, REFUND_CAP, attempts))
  }

  /** The whole visit of a refund leased as `f`: when the provider is heard, its refund is there and recorded. */
  ghost predicate RefundVisitFits(c: Config, acts: seq<Act>, fid: nat, f: Flight, recordFails: bool)
    requires f.Refunding? && f.attempts >= 1
  {
    && |acts| == 2 && acts[0].step.Move? && acts[0].step.fid == fid
    && if IsHeard(acts[0]) then
         var sent := FindSent(After(c, acts[0]).journal.sent, f.refund);
         sent.Some? && RecordsRefund(acts[1], c, fid, f.refund, f.payment, sent.value, recordFails)
       else RecordsRefusal(acts[1], c, fid, f.refund, f.attempts, recordFails)
  }
}
