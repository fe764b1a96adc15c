/** The two background workers as they are written: lease a batch in one statement, then call the
    provider and record the answer item by item, with the rest of the system acting in between. */
module Workers {
  import opened Domain
  import opened Tables
  import opened Payments
  import opened Protocol
  import opened Invariant
  import opened Backoff
  import opened Deployment
  import opened PayAnswers
  import opened WorkerVisits
  import RefundQueue
  import StuckQueue

  /** The environment of one item: what others do before the call, before the result is written and
      before a further check is scheduled, whether the reply is lost, and which writes fail. */
  datatype Turn = Turn(beforeCall: seq<Step>, beforeRecord: seq<Step>, beforeMark: seq<Step>,
                       lost: bool, recordFails: bool, markFails: bool)

  predicate TurnBelow(turn: Turn, base: nat) {
    Below(turn.beforeCall, base) && Below(turn.beforeRecord, base) && Below(turn.beforeMark, base)
  }

  predicate SomeWriteFails(turn: Turn) {
    turn.recordFails || turn.markFails
  }

  /** The call is served to its end: no crash, and a statement of its fails only as the turn says. */
  ghost predicate Served(steps: seq<Step>, fid: nat, fails: bool) {
    forall i | 0 <= i < |steps| :: StepServes(steps[i], fid, fails)
  }

  predicate StepServes(step: Step, fid: nat, fails: bool) {
    !(step.Crash? && step.fid == fid) && (step.StatementFails? && step.fid == fid ==> fails)
  }

  lemma ForeignServes(steps: seq<Step>, fid: nat, fails: bool)
    requires AllForeign(steps, fid)
    ensures Served(steps, fid, fails)
  {
    forall i | 0 <= i < |steps| ensures StepServes(steps[i], fid, fails) { assert Foreign(steps[i], fid); }
  }

  /** What the handling of one leased item amounts to. */
  ghost predicate Handles(steps: seq<Step>, base: nat, fid: nat, fails: bool) {
    OwnSteps(steps, base, fid) && Served(steps, fid, fails)
  }

  lemma HandlesAppend(a: seq<Step>, b: seq<Step>, base: nat, fid: nat, fails: bool)
    requires Handles(a, base, fid, fails) && Handles(b, base, fid, fails)
    ensures Handles(a + b, base, fid, fails)
  {
    OwnStepsAppend(a, b, base, fid);
  }

  predicate OwnStatement(step: Step, fid: nat, fails: bool) {
    (step.Move? || (step.StatementFails? && fails)) && step.fid == fid
  }

  lemma OneMove(others: seq<Step>, step: Step, base: nat, fid: nat, fails: bool)
    requires Below(others, base) && fid >= base && OwnStatement(step, fid, fails)
    ensures Handles(others + [step], base, fid, fails)
  {
    forall g: nat | g >= base && g != fid ensures AllForeign(others + [step], g) { BelowIsForeign(others, base, g); }
    BelowIsForeign(others, base, fid);
    ForeignServes(others, fid, fails);
  }

  function Pick(lost: bool, delay: nat): Choice {
    Choice(false, false, lost, delay)
  }

  // ----- refunds

  /** The provider's call as one statement, and where its answer leads. */
  ghost predicate Calls(c: Config, acts: seq<Act>, fid: nat, f: Flight, s: State)
    requires f.Refunding?
  {
    && |acts| == 1 && acts[0].step.Move? && acts[0].step.fid == fid && fid in s.flights
    && var g := s.flights[fid];
       if IsHeard(acts[0]) then
         && g.RefundSent? && g.refund == f.refund && g.payment == f.payment
         && FindSent(After(c, acts[0]).journal.sent, f.refund) == Some(g.sent)
       else g == RefundRetry(f.refund, f.attempts)
  }

  /** The record as one statement. */
  ghost predicate RecordsAnswer(c: Config, acts: seq<Act>, fid: nat, g: Flight, fails: bool)
    requires g.RefundSent? || (g.RefundRetry? && g.attempts >= 1)
  {
    && |acts| == 1
    && if g.RefundSent? then RecordsRefund(acts[0], c, fid, g.refund, g.payment, g.sent, fails)
       else RecordsRefusal(acts[0], c, fid, g.refund, g.attempts, fails)
  }

  /** One due refund: the provider's call, then the record of its answer. */
  method HandleRefund(sys: System, fid: nat, ghost base: nat, turn: Turn) returns (ghost steps: seq<Step>)
    requires fid in sys.flights && sys.flights[fid].Refunding? && sys.flights[fid].awaited
    requires sys.flights[fid].attempts >= 1
    requires fid >= base && TurnBelow(turn, base)
    modifies sys, sys.db, sys.provider
    ensures Stretch(sys.c, old(sys.View()), steps, sys.View()) && Handles(steps, base, fid, SomeWriteFails(turn))
    ensures fid !in sys.flights
    ensures RefundVisitFits(sys.c, Acts(sys.c, old(sys.View()), steps, fid), fid, old(sys.flights[fid]),
                            turn.recordFails)
  {
    ghost var s0 := sys.View();
    steps := CallRefund(sys, fid, base, turn);
    ghost var s1 := sys.View();
    ghost var more := RecordRefund(sys, fid, base, turn);
    ExecAppend(sys.c, s0, steps, more);
    ActsAppend(sys.c, s0, steps, more, fid);
    TwoActs(Acts(sys.c, s0, steps, fid), Acts(sys.c, s1, more, fid));
    HandlesAppend(steps, more, base, fid, SomeWriteFails(turn));
    steps := steps + more;
  }

  lemma TwoActs(x: seq<Act>, y: seq<Act>)
    requires |x| == 1 && |y| == 1
    ensures |x + y| == 2 && (x + y)[0] == x[0] && (x + y)[1] == y[0]
  {
  }

  method CallRefund(sys: System, fid: nat, ghost base: nat, turn: Turn) returns (ghost steps: seq<Step>)
    requires fid in sys.flights && sys.flights[fid].Refunding? && sys.flights[fid].awaited
    requires sys.flights[fid].attempts >= 1
    requires fid >= base && TurnBelow(turn, base)
    modifies sys, sys.db, sys.provider
    ensures Stretch(sys.c, old(sys.View()), steps, sys.View()) && Handles(steps, base, fid, SomeWriteFails(turn))
    ensures fid in sys.flights
    ensures sys.flights[fid].RefundSent? || (sys.flights[fid].RefundRetry? && sys.flights[fid].attempts >= 1)
    ensures Calls(sys.c, Acts(sys.c, old(sys.View()), steps, fid), fid, old(sys.flights[fid]), sys.View())
  {
    ghost var s0 := sys.View();
    sys.Meanwhile(turn.beforeCall);
    BelowIsForeign(turn.beforeCall, base, fid);
    ForeignRunKeepsFlight(sys.c, s0, turn.beforeCall, fid);
    ghost var step := Move(fid, Pick(turn.lost, 0));
    CallNow(sys, fid, turn.lost);
    ExecThen(sys.c, s0, turn.beforeCall, step);
    steps := turn.beforeCall + [step];
    OneMove(turn.beforeCall, step, base, fid, SomeWriteFails(turn));
    OneAct(sys.c, s0, turn.beforeCall, step, fid);
  }

  method CallNow(sys: System, fid: nat, lost: bool)
    requires fid in sys.flights && sys.flights[fid].Refunding? && sys.flights[fid].awaited
    requires sys.flights[fid].attempts >= 1
    modifies sys`flights, sys.provider
    ensures sys.View() == Apply(sys.c, old(sys.View()), Move(fid, Pick(lost, 0)))
    ensures fid in sys.flights
    ensures sys.flights[fid].RefundSent? || (sys.flights[fid].RefundRetry? && sys.flights[fid].attempts >= 1)
    ensures Calls(sys.c, [Act(old(sys.View()), Move(fid, Pick(lost, 0)))], fid, old(sys.flights[fid]), sys.View())
  {
    var d := sys.flights[fid];
    SentIsFound(sys.provider.View(), d.refund, d.charge, d.amount);
    var reply := sys.provider.Refund(d.refund, d.charge, d.amount);
    sys.flights := sys.flights[fid := if lost || reply == RefundUnavailable then RefundRetry(d.refund, d.attempts)
                                      else RefundSent(d.refund, d.payment, reply.sent)];
  }

  lemma SentIsFound(j: Journal, refund: nat, charge: Option<nat>, amount: int)
    ensures !j.down ==>
      var (j', reply) := RefundCall(j, refund, charge, amount);
      reply.RefundOk? && FindSent(j'.sent, refund) == Some(reply.sent)
  {
    var more := j.sent + [Sent(refund, charge, amount)];
    assert Last(more).refund == refund;
  }

  lemma SuccessRecorded(c: Config, s: State, fid: nat)
    requires fid in s.flights && s.flights[fid].RefundSent?
    ensures RecordsAnswer(c, [Act(s, Move(fid, Pick(false, 0)))], fid, s.flights[fid], false)
  {
  }

  lemma RefusalRecorded(c: Config, s: State, fid: nat, backoff: nat)
    requires fid in s.flights && s.flights[fid].RefundRetry? && s.flights[fid].attempts >= 1
    requires backoff == DoubledPause(REFUND_BASE, REFUND_CAP, s.flights[fid].attempts)
    ensures RecordsAnswer(c, [Act(s, Move(fid, Pick(false, backoff)))], fid, s.flights[fid], false)
  {
  }

  /** markSucceeded or markFailed, unless the statement fails. */
  method MarkRefund(sys: System, fid: nat, fails: bool) returns (ghost step: Step)
    requires fid in sys.flights
    requires sys.flights[fid].RefundSent? || (sys.flights[fid].RefundRetry? && sys.flights[fid].attempts >= 1)
    modifies sys`flights, sys.db
    ensures sys.View() == Apply(sys.c, old(sys.View()), step) && fid !in sys.flights
    ensures RecordsAnswer(sys.c, [Act(old(sys.View()), step)], fid, old(sys.flights[fid]), fails)
    ensures RefundQueue.PausesAsComputed(old(sys.View()), step)
    ensures OwnStatement(step, fid, fails)
  {
    var f := sys.flights[fid];
    if fails {
      step := StatementFails(fid);
    } else if f.RefundSent? {
      step := Move(fid, Pick(false, 0));
      SuccessRecorded(sys.c, sys.View(), fid);
      var ok := sys.db.MarkRefundSucceeded(f.refund, f.payment, f.sent);
    } else {
      RefundDelay(f.attempts);
      var backoff := Delay(REFUND_BASE, REFUND_CAP, f.attempts);
      step := Move(fid, Pick(false, backoff));
      RefusalRecorded(sys.c, sys.View(), fid, backoff);
      sys.db.MarkRefundFailed(f.refund, f.attempts, sys.c.refundAttempts, sys.clock + backoff);
    }
    sys.flights := sys.flights - {fid};
  }

  method RecordRefund(sys: System, fid: nat, ghost base: nat, turn: Turn) returns (ghost steps: seq<Step>)
    requires fid in sys.flights && fid >= base && TurnBelow(turn, base)
    requires sys.flights[fid].RefundSent? || (sys.flights[fid].RefundRetry? && sys.flights[fid].attempts >= 1)
    modifies sys, sys.db, sys.provider
    ensures Stretch(sys.c, old(sys.View()), steps, sys.View()) && Handles(steps, base, fid, SomeWriteFails(turn))
    ensures fid !in sys.flights
    ensures RecordsAnswer(sys.c, Acts(sys.c, old(sys.View()), steps, fid), fid, old(sys.flights[fid]),
                          turn.recordFails)
  {
    ghost var s0 := sys.View();
    sys.Meanwhile(turn.beforeRecord);
    BelowIsForeign(turn.beforeRecord, base, fid);
    ForeignRunKeepsFlight(sys.c, s0, turn.beforeRecord, fid);
    ghost var step := MarkRefund(sys, fid, turn.recordFails);
    steps := turn.beforeRecord + [step];
    ExecThen(sys.c, s0, turn.beforeRecord, step);
    OneAct(sys.c, s0, turn.beforeRecord, step, fid);
    OneMove(turn.beforeRecord, step, base, fid, SomeWriteFails(turn));
  }

  /** The leased batch: a call from `base` on for every item still to be handled. */
  ghost predicate LeasedAt(s: State, base: nat, due: seq<Flight>, k: nat)
    requires k < |due|
  {
    base + k in s.flights && s.flights[base + k] == due[k]
  }

  ghost predicate Leased(s: State, base: nat, due: seq<Flight>, from: nat) {
    forall k | from <= k < |due| :: LeasedAt(s, base, due, k)
  }

  lemma LeasedStays(c: Config, s: State, s': State, steps: seq<Step>, base: nat, due: seq<Flight>, k: nat)
    requires k < |due| && Leased(s, base, due, k) && Stretch(c, s, steps, s') && OwnSteps(steps, base, base + k)
    ensures Leased(s', base, due, k + 1)
  {
    forall j | k + 1 <= j < |due| ensures LeasedAt(s', base, due, j) {
      assert LeasedAt(s, base, due, j);
      ForeignRunKeepsFlight(c, s, steps, base + j);
    }
  }

  lemma LeasedMore(s: State, s': State, base: nat, due: seq<Flight>, d: Flight)
    requires Leased(s, base, due, 0) && s'.flights == s.flights[base + |due| := d]
    ensures Leased(s', base, due + [d], 0)
  {
    forall j | 0 <= j < |due + [d]| ensures LeasedAt(s', base, due + [d], j) {
      if j < |due| { assert LeasedAt(s, base, due, j); }
    }
  }

  /** No call of the worker's is left but those of items from k on. */
  ghost predicate Settled(s: State, base: nat, n: nat, k: nat) {
    forall g | g in s.flights :: g < base || base + k <= g < base + n
  }

  lemma OthersSettled(c: Config, s: State, s': State, steps: seq<Step>, base: nat, n: nat, k: nat)
    requires k < n && Settled(s, base, n, k) && Stretch(c, s, steps, s') && OwnSteps(steps, base, base + k)
    requires base + k !in s'.flights
    ensures Settled(s', base, n, k + 1)
  {
    forall g | g in s'.flights ensures g < base || base + k + 1 <= g < base + n {
      if g >= base { ForeignRunKeepsFlight(c, s, steps, g); }
    }
  }

  /** The first n due refunds from row i on, in id order: what the leasing UPDATE selects. */
  function DueRefunds(db: Db, now: nat, i: nat, n: nat): (due: seq<nat>)
    ensures |due| <= n
    decreases |db.refunds| - i
  {
    if i >= |db.refunds| || n == 0 then []
    else if RefundDue(db, i, now) then [i] + DueRefunds(db, now, i + 1, n - 1)
    else DueRefunds(db, now, i + 1, n)
  }

  /** They are due, in ascending order, and if the batch is not full no due row is left out. */
  lemma {:induction false} DueRefundsExactly(db: Db, now: nat, i: nat, n: nat)
    ensures var due := DueRefunds(db, now, i, n);
      && (forall k | 0 <= k < |due| ::
            && i <= due[k] < |db.refunds| && db.refunds[due[k]].status == Waiting && db.refunds[due[k]].nextAt <= now
            && db.refunds[due[k]].payment < |db.payments|)
      && (forall j, k | 0 <= j < k < |due| :: due[j] < due[k])
      && (|due| < n ==>
            forall r | i <= r < |db.refunds| && db.refunds[r].status == Waiting && db.refunds[r].nextAt <= now
                         && db.refunds[r].payment < |db.payments| :: r in due)
    decreases |db.refunds| - i
  {
    if i < |db.refunds| && n > 0 {
      DueRefundsExactly(db, now, i + 1, if RefundDue(db, i, now) then n - 1 else n);
    }
  }

  /** One call of the worker in full: the leases first, in one go, then every leased item served to
      its end. */
  ghost predicate Batch(steps: seq<Step>, base: nat, turns: seq<Turn>, leases: seq<Step>) {
    && |leases| <= |turns| && leases <= steps
    && forall k: nat | k < |leases| :: Served(steps, base + k, SomeWriteFails(turns[k]))
  }

  function RefundLeases(base: nat, due: seq<nat>): seq<Step> {
    seq(|due|, k requires 0 <= k < |due| => LeaseRefundStep(base + k, due[k]))
  }

  lemma RefundLeasesMore(base: nat, due: seq<nat>, i: nat)
    ensures RefundLeases(base, due + [i]) == RefundLeases(base, due) + [LeaseRefundStep(base + |due|, i)]
  {
  }

  lemma BatchGrows(steps: seq<Step>, more: seq<Step>, base: nat, turns: seq<Turn>, leases: seq<Step>, k: nat)
    requires Batch(steps, base, turns, leases) && k < |leases|
    requires Handles(more, base, base + k, SomeWriteFails(turns[k]))
    ensures Batch(steps + more, base, turns, leases)
  {
    forall j: nat | j < |leases| ensures Served(steps + more, base + j, SomeWriteFails(turns[j])) {
      if j != k { ForeignServes(more, base + j, SomeWriteFails(turns[j])); }
    }
  }

  predicate RefundItem(f: Flight) {
    f.Refunding? && f.awaited && f.attempts >= 1
  }

  method LeaseOneRefund(sys: System, fid: nat, i: nat) returns (d: Flight)
    requires RefundDue(sys.db.View(), i, sys.clock) && fid !in sys.flights
    modifies sys`flights, sys.db`refunds
    ensures sys.View() == Apply(sys.c, old(sys.View()), LeaseRefundStep(fid, i))
    ensures sys.flights == old(sys.flights)[fid := d] && RefundItem(d)
  {
    var row := sys.db.refunds[i];
    d := Refunding(i, row.payment, row.amount, row.attempts + 1, sys.db.payments[row.payment].charge, true);
    sys.db.LeaseRefundRow(i, sys.clock + sys.c.refundLease);
    sys.flights := sys.flights[fid := d];
  }

  /** The leasing loop so far: rows below i are decided, rows from i on are as they were. */
  ghost predicate RefundsChosen(c: Config, s0: State, s: State, base: nat, n: nat, i: nat, ids: seq<nat>)
    requires |ids| <= n
  {
    && DueRefunds(s0.db, s0.clock, 0, n) == ids + DueRefunds(s0.db, s0.clock, i, n - |ids|)
    && |s.db.refunds| == |s0.db.refunds| && (forall k | i <= k < |s0.db.refunds| :: s.db.refunds[k] == s0.db.refunds[k])
    && s.clock == s0.clock && s.db.payments == s0.db.payments
  }

  lemma RefundsDueNext(c: Config, s0: State, n: nat, i: nat, ids: seq<nat>)
    requires |ids| < n && i < |s0.db.refunds|
    ensures ids + DueRefunds(s0.db, s0.clock, i, n - |ids|) ==
      if RefundDue(s0.db, i, s0.clock) then ids + [i] + DueRefunds(s0.db, s0.clock, i + 1, n - |ids| - 1)
      else ids + DueRefunds(s0.db, s0.clock, i + 1, n - |ids|)
  {
    if RefundDue(s0.db, i, s0.clock) {
      assert ids + ([i] + DueRefunds(s0.db, s0.clock, i + 1, n - |ids| - 1)) ==
          ids + [i] + DueRefunds(s0.db, s0.clock, i + 1, n - |ids| - 1);
    }
  }

  /** Rows after i, and the clock, are as they were. */
  ghost predicate LeavesLaterRefunds(s: State, s': State, i: nat) {
    && s'.clock == s.clock && |s'.db.refunds| == |s.db.refunds| && s'.db.payments == s.db.payments
    && forall k | i < k < |s.db.refunds| :: s'.db.refunds[k] == s.db.refunds[k]
  }

  lemma RefundsLeaseLeavesLater(c: Config, s: State, fid: nat, i: nat)
    ensures LeavesLaterRefunds(s, Apply(c, s, LeaseRefundStep(fid, i)), i)
  {
  }

  lemma RefundsChosenNext(c: Config, s0: State, s: State, s': State, base: nat, n: nat, i: nat, ids: seq<nat>)
    requires |ids| < n && i < |s0.db.refunds| && RefundsChosen(c, s0, s, base, n, i, ids)
    requires LeavesLaterRefunds(s, s', i)
    ensures RefundsChosen(c, s0, s', base, n, i + 1, if RefundDue(s.db, i, s.clock) then ids + [i] else ids)
  {
    assert RefundDue(s.db, i, s.clock) == RefundDue(s0.db, i, s0.clock);
    RefundsDueNext(c, s0, n, i, ids);
  }

  ghost predicate RefundsLeasing(c: Config, s0: State, s: State, base: nat, n: nat, i: nat, ids: seq<nat>,
                                 due: seq<Flight>, steps: seq<Step>)
    requires |ids| <= n
  {
    && RefundsChosen(c, s0, s, base, n, i, ids) && |due| == |ids| && steps == RefundLeases(base, ids)
    && Stretch(c, s0, steps, s) && Leased(s, base, due, 0) && Settled(s, base, |due|, 0)
    && forall k | 0 <= k < |due| :: RefundItem(due[k])
  }

  lemma RefundsChosenByLease(c: Config, s0: State, s: State, base: nat, n: nat, i: nat, ids: seq<nat>)
    requires |ids| < n && i < |s0.db.refunds| && RefundsChosen(c, s0, s, base, n, i, ids) && RefundDue(s.db, i, s.clock)
    ensures RefundsChosen(c, s0, Apply(c, s, LeaseRefundStep(base + |ids|, i)), base, n, i + 1, ids + [i])
  {
    RefundsLeaseLeavesLater(c, s, base + |ids|, i);
    RefundsChosenNext(c, s0, s, Apply(c, s, LeaseRefundStep(base + |ids|, i)), base, n, i, ids);
  }

  lemma RefundsLeasingNext(c: Config, s0: State, s: State, s': State, base: nat, n: nat, i: nat, ids: seq<nat>,
                         due: seq<Flight>, steps: seq<Step>, d: Flight)
    requires |ids| < n && RefundsLeasing(c, s0, s, base, n, i, ids, due, steps)
    requires RefundsChosen(c, s0, s', base, n, i + 1, ids + [i]) && RefundItem(d)
    requires Stretch(c, s0, steps + [LeaseRefundStep(base + |due|, i)], s')
    requires s'.flights == s.flights[base + |due| := d]
    ensures RefundsLeasing(c, s0, s', base, n, i + 1, ids + [i], due + [d], steps + [LeaseRefundStep(base + |due|, i)])
  {
    LeasedMore(s, s', base, due, d);
    RefundLeasesMore(base, ids, i);
  }

  method LeaseOneRefundIfDue(sys: System, base: nat, n: nat, i: nat, due: seq<Flight>, ghost s0: State,
                             ghost ids: seq<nat>, ghost steps: seq<Step>)
    returns (due': seq<Flight>, ghost ids': seq<nat>, ghost steps': seq<Step>)
    requires |ids| < n && i < |s0.db.refunds| && RefundsLeasing(sys.c, s0, sys.View(), base, n, i, ids, due, steps)
    modifies sys`flights, sys.db`refunds
    ensures |ids'| <= n && RefundsLeasing(sys.c, s0, sys.View(), base, n, i + 1, ids', due', steps')
  {
    ghost var before := sys.View();
    if RefundDue(sys.db.View(), i, sys.clock) {
      assert base + |due| !in sys.flights;
      var d := LeaseOneRefund(sys, base + |due|, i);
      RefundsChosenByLease(sys.c, s0, before, base, n, i, ids);
      ExecThen(sys.c, s0, steps, LeaseRefundStep(base + |due|, i));
      RefundsLeasingNext(sys.c, s0, before, sys.View(), base, n, i, ids, due, steps, d);
      due', ids', steps' := due + [d], ids + [i], steps + [LeaseRefundStep(base + |due|, i)];
    } else {
      RefundsChosenNext(sys.c, s0, before, sys.View(), base, n, i, ids);
      due', ids', steps' := due, ids, steps;
    }
  }

  lemma RefundsLeased(c: Config, s0: State, s: State, base: nat, n: nat, i: nat, ids: seq<nat>, due: seq<Flight>,
                      steps: seq<Step>)
    requires |ids| <= n && RefundsLeasing(c, s0, s, base, n, i, ids, due, steps) && (i == |s0.db.refunds| || |ids| == n)
    ensures ids == DueRefunds(s0.db, s0.clock, 0, n)
    ensures Stretch(c, s0, steps, s) && |due| == |steps|
    ensures steps == RefundLeases(base, ids)
    ensures Leased(s, base, due, 0) && Settled(s, base, |due|, 0)
    ensures forall k | 0 <= k < |due| :: RefundItem(due[k])
  {
  }

  lemma RefundsLeasingStarts(c: Config, s: State, base: nat, n: nat)
    requires forall g | g in s.flights :: g < base
    ensures RefundsLeasing(c, s, s, base, n, 0, [], [], [])
  {
  }

  /** The leasing statement: the first n rows whose time has come, in id order. */
  method LeaseRefunds(sys: System, base: nat, n: nat) returns (due: seq<Flight>, ghost steps: seq<Step>)
    requires forall g | g in sys.flights :: g < base
    modifies sys`flights, sys.db`refunds
    ensures Stretch(sys.c, old(sys.View()), steps, sys.View())
    ensures steps == RefundLeases(base, DueRefunds(old(sys.View()).db, old(sys.clock), 0, n)) && |due| == |steps|
    ensures Leased(sys.View(), base, due, 0) && Settled(sys.View(), base, |due|, 0)
    ensures forall k | 0 <= k < |due| :: RefundItem(due[k])
  {
    ghost var s0 := sys.View();
    ghost var ids: seq<nat> := [];
    steps, due := [], [];
    var i := 0;
    RefundsLeasingStarts(sys.c, s0, base, n);
    while i < |sys.db.refunds| && |due| < n
      invariant 0 <= i <= |sys.db.refunds| == |s0.db.refunds| && |due| == |ids| <= n
      invariant RefundsLeasing(sys.c, s0, sys.View(), base, n, i, ids, due, steps)
    {
      due, ids, steps := LeaseOneRefundIfDue(sys, base, n, i, due, s0, ids, steps);
      i := i + 1;
    }
    RefundsLeased(sys.c, s0, sys.View(), base, n, i, ids, due, steps);
  }

  // ----- serving a leased batch

  predicate LeasedItem(f: Flight) {
    RefundItem(f) || CheckItem(f)
  }

  /** One leased item was handled as its visit should be. */
  ghost predicate ItemFits(c: Config, acts: seq<Act>, fid: nat, f: Flight, turn: Turn)
    requires LeasedItem(f)
  {
    if f.Refunding? then RefundVisitFits(c, acts, fid, f, turn.recordFails)
    else VisitFits(c, acts, fid, f, turn.recordFails, turn.markFails)
  }

  ghost predicate ItemServed(c: Config, s1: State, steps: seq<Step>, base: nat, due: seq<Flight>, turns: seq<Turn>,
                             k: nat, j: nat)
    requires j < |due| <= |turns| && LeasedItem(due[j])
  {
    if j < k then ItemFits(c, Acts(c, s1, steps, base + j), base + j, due[j], turns[j])
    else Acts(c, s1, steps, base + j) == []
  }

  /** The items below k are served, and the others have done nothing yet. */
  ghost predicate ServedTo(c: Config, s1: State, steps: seq<Step>, base: nat, due: seq<Flight>, turns: seq<Turn>,
                           k: nat)
    requires |due| <= |turns| && forall j | 0 <= j < |due| :: LeasedItem(due[j])
  {
    forall j | 0 <= j < |due| :: ItemServed(c, s1, steps, base, due, turns, k, j)
  }

  ghost predicate Serving(c: Config, s1: State, steps: seq<Step>, s: State, base: nat, due: seq<Flight>,
                          turns: seq<Turn>, leases: seq<Step>, k: nat)
    requires |due| <= |turns| && forall j | 0 <= j < |due| :: LeasedItem(due[j])
  {
    && k <= |due| == |leases| && Stretch(c, s1, steps, s) && Batch(leases + steps, base, turns, leases)
    && Leased(s, base, due, k) && Settled(s, base, |due|, k) && ServedTo(c, s1, steps, base, due, turns, k)
  }

  lemma OtherItemActs(c: Config, s1: State, steps: seq<Step>, s: State, more: seq<Step>, base: nat, k: nat, j: nat)
    requires Stretch(c, s1, steps, s) && OwnSteps(more, base, base + k) && j != k
    ensures Acts(c, s1, steps + more, base + j) == Acts(c, s1, steps, base + j)
  {
    ActsAppend(c, s1, steps, more, base + j);
    OthersDoNotAct(c, s, more, base + j);
  }

  lemma ThisItemActs(c: Config, s1: State, steps: seq<Step>, s: State, more: seq<Step>, fid: nat)
    requires Stretch(c, s1, steps, s) && Acts(c, s1, steps, fid) == []
    ensures Acts(c, s1, steps + more, fid) == Acts(c, s, more, fid)
  {
    ActsAppend(c, s1, steps, more, fid);
  }

  lemma OtherServedNext(c: Config, s1: State, steps: seq<Step>, s: State, more: seq<Step>, base: nat, due: seq<Flight>,
                        turns: seq<Turn>, k: nat, j: nat)
    requires k < |due| <= |turns| && j < |due| && LeasedItem(due[j]) && LeasedItem(due[k])
    requires Stretch(c, s1, steps, s) && ItemServed(c, s1, steps, base, due, turns, k, j)
    requires OwnSteps(more, base, base + k)
    requires j != k
    ensures ItemServed(c, s1, steps + more, base, due, turns, k + 1, j)
  {
    OtherItemActs(c, s1, steps, s, more, base, k, j);
  }

  lemma SameActsFit(c: Config, x: seq<Act>, y: seq<Act>, fid: nat, f: Flight, turn: Turn)
    requires LeasedItem(f) && x == y && ItemFits(c, x, fid, f, turn)
    ensures ItemFits(c, y, fid, f, turn)
  {
  }

  lemma ThisServedNext(c: Config, s1: State, steps: seq<Step>, s: State, more: seq<Step>, base: nat, due: seq<Flight>,
                       turns: seq<Turn>, k: nat)
    requires k < |due| <= |turns| && LeasedItem(due[k])
    requires Stretch(c, s1, steps, s) && Acts(c, s1, steps, base + k) == []
    requires OwnSteps(more, base, base + k)
    requires ItemFits(c, Acts(c, s, more, base + k), base + k, due[k], turns[k])
    ensures ItemServed(c, s1, steps + more, base, due, turns, k + 1, k)
  {
    ThisItemActs(c, s1, steps, s, more, base + k);
    SameActsFit(c, Acts(c, s, more, base + k), Acts(c, s1, steps + more, base + k), base + k, due[k], turns[k]);
  }

  lemma ServedNext(c: Config, s1: State, steps: seq<Step>, s: State, more: seq<Step>, base: nat, due: seq<Flight>,
                   turns: seq<Turn>, k: nat)
    requires k < |due| <= |turns| && forall j | 0 <= j < |due| :: LeasedItem(due[j])
    requires Stretch(c, s1, steps, s) && ServedTo(c, s1, steps, base, due, turns, k) && OwnSteps(more, base, base + k)
    requires ItemFits(c, Acts(c, s, more, base + k), base + k, due[k], turns[k])
    ensures ServedTo(c, s1, steps + more, base, due, turns, k + 1)
  {
    var all, next := steps + more, k + 1;
    forall j | 0 <= j < |due| ensures ItemServed(c, s1, all, base, due, turns, next, j) {
      assert ItemServed(c, s1, steps, base, due, turns, k, j);
      if j == k { ThisServedNext(c, s1, steps, s, more, base, due, turns, k); }
      else { OtherServedNext(c, s1, steps, s, more, base, due, turns, k, j); }
    }
  }

  lemma ServingNext(c: Config, s1: State, steps: seq<Step>, s: State, more: seq<Step>, s': State, base: nat,
                    due: seq<Flight>, turns: seq<Turn>, leases: seq<Step>, k: nat)
    requires k < |due| <= |turns| && forall j | 0 <= j < |due| :: LeasedItem(due[j])
    requires Serving(c, s1, steps, s, base, due, turns, leases, k)
    requires Stretch(c, s, more, s') && Handles(more, base, base + k, SomeWriteFails(turns[k]))
    requires base + k !in s'.flights && ItemFits(c, Acts(c, s, more, base + k), base + k, due[k], turns[k])
    ensures Serving(c, s1, steps + more, s', base, due, turns, leases, k + 1)
  {
    ServedNext(c, s1, steps, s, more, base, due, turns, k);
    ServingMoves(c, s1, steps, s, more, s', base, due, turns, leases, k);
  }

  lemma ServingMoves(c: Config, s1: State, steps: seq<Step>, s: State, more: seq<Step>, s': State, base: nat,
                     due: seq<Flight>, turns: seq<Turn>, leases: seq<Step>, k: nat)
    requires k < |due| == |leases| <= |turns| && Stretch(c, s1, steps, s)
    requires Leased(s, base, due, k) && Settled(s, base, |due|, k) && Batch(leases + steps, base, turns, leases)
    requires Stretch(c, s, more, s') && Handles(more, base, base + k, SomeWriteFails(turns[k]))
    requires base + k !in s'.flights
    ensures Stretch(c, s1, steps + more, s') && Batch(leases + (steps + more), base, turns, leases)
    ensures Leased(s', base, due, k + 1) && Settled(s', base, |due|, k + 1)
  {
    ExecAppend(c, s1, steps, more);
    LeasedStays(c, s, s', more, base, due, k);
    OthersSettled(c, s, s', more, base, |due|, k);
    BatchGrows(leases + steps, more, base, turns, leases, k);
    assert leases + steps + more == leases + (steps + more);
  }

  lemma ServingStarts(c: Config, s1: State, base: nat, due: seq<Flight>, turns: seq<Turn>, leases: seq<Step>)
    requires |due| == |leases| <= |turns| && forall j | 0 <= j < |due| :: LeasedItem(due[j])
    requires Leased(s1, base, due, 0) && Settled(s1, base, |due|, 0) && Batch(leases, base, turns, leases)
    ensures Serving(c, s1, [], s1, base, due, turns, leases, 0)
  {
    assert leases + [] == leases;
    assert Exec(c, s1, []) == s1;
  }

  method ServeOneRefund(sys: System, base: nat, ghost due: seq<Flight>, turns: seq<Turn>, ghost leases: seq<Step>,
                        ghost s1: State, ghost steps: seq<Step>, k: nat) returns (ghost more: seq<Step>)
    requires k < |due| <= |turns| && forall j | 0 <= j < |due| :: RefundItem(due[j])
    requires forall i | 0 <= i < |turns| :: TurnBelow(turns[i], base)
    requires Serving(sys.c, s1, steps, sys.View(), base, due, turns, leases, k)
    modifies sys, sys.db, sys.provider
    ensures Serving(sys.c, s1, steps + more, sys.View(), base, due, turns, leases, k + 1)
  {
    ghost var s := sys.View();
    assert LeasedAt(s, base, due, k);
    more := HandleRefund(sys, base + k, base, turns[k]);
    ServingNext(sys.c, s1, steps, s, more, sys.View(), base, due, turns, leases, k);
  }

  method ServeRefunds(sys: System, base: nat, due: seq<Flight>, turns: seq<Turn>, ghost leases: seq<Step>)
    returns (ghost steps: seq<Step>)
    requires |due| == |leases| <= |turns| && forall i | 0 <= i < |turns| :: TurnBelow(turns[i], base)
    requires Leased(sys.View(), base, due, 0) && Settled(sys.View(), base, |due|, 0)
    requires forall k | 0 <= k < |due| :: RefundItem(due[k])
    requires Batch(leases, base, turns, leases)
    modifies sys, sys.db, sys.provider
    ensures Serving(sys.c, old(sys.View()), steps, sys.View(), base, due, turns, leases, |due|)
  {
    ghost var s1 := sys.View();
    steps := [];
    var k := 0;
    ServingStarts(sys.c, s1, base, due, turns, leases);
    while k < |due|
      invariant 0 <= k <= |due| && Serving(sys.c, s1, steps, sys.View(), base, due, turns, leases, k)
    {
      ghost var more := ServeOneRefund(sys, base, due, turns, leases, s1, steps, k);
      steps := steps + more;
      k := k + 1;
    }
  }

  /** The k-th item of a leased batch was served as its visit should be. */
  ghost predicate LeasedAndServed(c: Config, s1: State, steps: seq<Step>, base: nat, turns: seq<Turn>, k: nat)
    requires k < |turns|
  {
    && base + k in s1.flights && LeasedItem(s1.flights[base + k])
    && ItemFits(c, Acts(c, s1, steps, base + k), base + k, s1.flights[base + k], turns[k])
  }

  /** Of a batch leased with `leases`, every item was served as its visit should be. */
  ghost predicate BatchServed(c: Config, s0: State, steps: seq<Step>, base: nat, turns: seq<Turn>, leases: seq<Step>) {
    && Batch(steps, base, turns, leases)
    && var s1, rest := Exec(c, s0, leases), steps[|leases|..];
       forall k | 0 <= k < |leases| :: LeasedAndServed(c, s1, rest, base, turns, k)
  }

  lemma AllServed(c: Config, s0: State, leases: seq<Step>, s1: State, steps: seq<Step>, s: State, base: nat,
                  due: seq<Flight>, turns: seq<Turn>)
    requires |due| == |leases| <= |turns| && forall j | 0 <= j < |due| :: LeasedItem(due[j])
    requires Stretch(c, s0, leases, s1) && Leased(s1, base, due, 0)
    requires Serving(c, s1, steps, s, base, due, turns, leases, |due|)
    ensures BatchServed(c, s0, leases + steps, base, turns, leases) && Stretch(c, s0, leases + steps, s)
    ensures forall g | g in s.flights :: g < base
  {
    ExecAppend(c, s0, leases, steps);
    assert (leases + steps)[|leases|..] == steps;
    forall k | 0 <= k < |leases| ensures LeasedAndServed(c, s1, steps, base, turns, k) {
      assert LeasedAt(s1, base, due, k);
      assert ItemServed(c, s1, steps, base, due, turns, |due|, k);
    }
  }

  /** RefundWorker.ProcessDue, with one turn for each place in the batch. */
  method ProcessDueRefunds(sys: System, base: nat, turns: seq<Turn>) returns (ghost steps: seq<Step>)
    requires forall g | g in sys.flights :: g < base
    requires forall i | 0 <= i < |turns| :: TurnBelow(turns[i], base)
    modifies sys, sys.db, sys.provider
    ensures Stretch(sys.c, old(sys.View()), steps, sys.View())
    ensures BatchServed(sys.c, old(sys.View()), steps, base, turns,
                        RefundLeases(base, DueRefunds(old(sys.View()).db, old(sys.clock), 0, |turns|)))
    ensures forall g | g in sys.flights :: g < base
  {
    ghost var s0 := sys.View();
    var due;
    ghost var leases;
    due, leases := LeaseRefunds(sys, base, |turns|);
    ghost var s1 := sys.View();
    ghost var more := ServeRefunds(sys, base, due, turns, leases);
    AllServed(sys.c, s0, leases, s1, more, sys.View(), base, due, turns);
    steps := leases + more;
  }

  // ----- stuck payments

  /** The check as one statement, and where its answer leads. */
  ghost predicate Asks(c: Config, acts: seq<Act>, fid: nat, f: Flight, s: State)
    requires f.Checking?
  {
    && |acts| == 1 && acts[0].step.Move? && acts[0].step.fid == fid && fid in s.flights
    && s.flights[fid] ==
       match VerdictOf(c, acts[0], f)
       case NoKey => Parking(f.payment)
       case Unclear => Postponing(f.payment, f.attempts, true)
       case Early => Postponing(f.payment, f.attempts, false)
       case Decided(to, charge) => Resolving(f.payment, to, charge, f.attempts)
  }

  /** ReconcileWorker.reconcile for one leased payment: what the provider's journal holds at the check is recorded,
      parked or checked again. */
  method HandleStuck(sys: System, fid: nat, ghost base: nat, turn: Turn) returns (ghost steps: seq<Step>)
    requires fid in sys.flights && sys.flights[fid].Checking? && sys.flights[fid].attempts >= 1
    requires fid >= base && TurnBelow(turn, base)
    modifies sys, sys.db, sys.provider
    ensures Stretch(sys.c, old(sys.View()), steps, sys.View()) && Handles(steps, base, fid, SomeWriteFails(turn))
    ensures fid !in sys.flights
    ensures var f, acts := old(sys.flights[fid]), Acts(sys.c, old(sys.View()), steps, fid);
      && VisitFits(sys.c, acts, fid, f, turn.recordFails, turn.markFails)
      && (Inv(old(sys.View())) ==> Settles(sys.c, acts, f, turn.recordFails, sys.View()))
  {
    ghost var s0 := sys.View();
    ghost var f := sys.flights[fid];
    steps := AskProvider(sys, fid, base, turn);
    ghost var s1 := sys.View();
    ghost var more;
    if sys.flights[fid].Resolving? {
      more := Decide(sys, fid, base, turn);
    } else {
      more := Postpone(sys, fid, base, turn);
    }
    HandlesAppend(steps, more, base, fid, SomeWriteFails(turn));
    VisitJoins(sys.c, s0, steps, s1, more, fid, f, turn, sys.View());
    steps := steps + more;
  }

  /** What follows a decided check: the record, and if it fails a mark. */
  ghost predicate DecidesAs(c: Config, acts: seq<Act>, fid: nat, f: Flight, turn: Turn)
    requires f.Resolving? && f.attempts >= 1
  {
    && acts != [] && RecordsOutcome(c, acts[0], fid, f.payment, f.to, f.charge, turn.recordFails)
    && if turn.recordFails || NotRecordable(acts[0], f.payment, f.to) then
         && |acts| == 2
         && MarksRow(c, acts[1], fid, f.payment, f.attempts, f.attempts >= c.checkAttempts, turn.markFails)
       else |acts| == 1
  }

  /** The last statement of the stretch is the call's own. */
  ghost predicate EndsWithAct(c: Config, acts: seq<Act>, s: State) {
    acts != [] && s == After(c, Last(acts))
  }

  method Decide(sys: System, fid: nat, ghost base: nat, turn: Turn) returns (ghost steps: seq<Step>)
    requires fid in sys.flights && sys.flights[fid].Resolving? && sys.flights[fid].attempts >= 1
    requires sys.flights[fid].to in {Succeeded, Failed, Expired}
    requires fid >= base && TurnBelow(turn, base)
    modifies sys, sys.db, sys.provider
    ensures Stretch(sys.c, old(sys.View()), steps, sys.View()) && Handles(steps, base, fid, SomeWriteFails(turn))
    ensures fid !in sys.flights
    ensures DecidesAs(sys.c, Acts(sys.c, old(sys.View()), steps, fid), fid, old(sys.flights[fid]), turn)
    ensures EndsWithAct(sys.c, Acts(sys.c, old(sys.View()), steps, fid), sys.View())
  {
    ghost var s0 := sys.View();
    steps := RecordOutcome(sys, fid, base, turn);
    if fid in sys.flights {
      ghost var more := Postpone(sys, fid, base, turn);
      ExecAppend(sys.c, s0, steps, more);
      ActsAppend(sys.c, s0, steps, more, fid);
      HandlesAppend(steps, more, base, fid, SomeWriteFails(turn));
      steps := steps + more;
    }
  }

  lemma VisitIs(c: Config, x: seq<Act>, y: seq<Act>, fid: nat, f: Flight, s: State, turn: Turn)
    requires f.Checking? && f.attempts >= 1 && Asks(c, x, fid, f, s)
    requires NextVisit(s.flights[fid]) && FollowsUp(c, y, fid, f, s.flights[fid], turn)
    ensures VisitFits(c, x + y, fid, f, turn.recordFails, turn.markFails)
  {
    assert (x + y)[0] == x[0] && (|y| > 0 ==> (x + y)[1] == y[0]) && (|y| > 1 ==> (x + y)[2] == y[1]);
  }

  /** What follows the check, whichever way it went. */
  ghost predicate FollowsUp(c: Config, y: seq<Act>, fid: nat, f: Flight, g: Flight, turn: Turn)
    requires f.Checking? && f.attempts >= 1 && NextVisit(g)
  {
    if g.Resolving? then DecidesAs(c, y, fid, g, turn)
    else
      && |y| == 1
      && MarksRow(c, y[0], fid, f.payment, if g.Parking? then 1 else g.attempts,
                  g.Parking? || (g.counted && g.attempts >= c.checkAttempts), turn.markFails)
  }

  lemma VisitJoins(c: Config, s0: State, steps: seq<Step>, s1: State, more: seq<Step>, fid: nat, f: Flight, turn: Turn,
                   s: State)
    requires fid in s0.flights && s0.flights[fid] == f && f.Checking? && f.attempts >= 1
    requires Stretch(c, s0, steps, s1) && Stretch(c, s1, more, s) && Asks(c, Acts(c, s0, steps, fid), fid, f, s1)
    requires NextVisit(s1.flights[fid]) && FollowsUp(c, Acts(c, s1, more, fid), fid, f, s1.flights[fid], turn)
    requires EndsWithAct(c, Acts(c, s1, more, fid), s)
    ensures Stretch(c, s0, steps + more, s)
    ensures var acts := Acts(c, s0, steps + more, fid);
      && VisitFits(c, acts, fid, f, turn.recordFails, turn.markFails)
      && (Inv(s0) ==> Settles(c, acts, f, turn.recordFails, s))
  {
    ExecAppend(c, s0, steps, more);
    ActsAppend(c, s0, steps, more, fid);
    VisitIs(c, Acts(c, s0, steps, fid), Acts(c, s1, more, fid), fid, f, s1, turn);
    if Inv(s0) { VisitLeaves(c, s0, steps + more, fid, f, turn, s); }
  }

  lemma VisitLeaves(c: Config, s: State, steps: seq<Step>, fid: nat, f: Flight, turn: Turn, s': State)
    requires Inv(s) && fid in s.flights && s.flights[fid] == f && f.Checking? && f.attempts >= 1
    requires VisitFits(c, Acts(c, s, steps, fid), fid, f, turn.recordFails, turn.markFails)
    requires EndsWithAct(c, Acts(c, s, steps, fid), s')
    ensures Settles(c, Acts(c, s, steps, fid), f, turn.recordFails, s')
  {
    ActsInRun(c, s, steps, fid);
    assert FlightOk(s.db, s.journal, f);
    FitSettles(c, Acts(c, s, steps, fid), fid, f, turn.recordFails, turn.markFails);
  }

  predicate NextVisit(f: Flight) {
    || f.Parking?
    || (f.Postponing? && f.attempts >= 1)
    || (f.Resolving? && f.attempts >= 1 && f.to in {Succeeded, Failed, Expired})
  }

  /** The status check and the switch on its answer. */
  method AskProvider(sys: System, fid: nat, ghost base: nat, turn: Turn) returns (ghost steps: seq<Step>)
    requires fid in sys.flights && sys.flights[fid].Checking? && sys.flights[fid].attempts >= 1
    requires fid >= base && TurnBelow(turn, base)
    modifies sys, sys.db, sys.provider
    ensures Stretch(sys.c, old(sys.View()), steps, sys.View()) && Handles(steps, base, fid, SomeWriteFails(turn))
    ensures Asks(sys.c, Acts(sys.c, old(sys.View()), steps, fid), fid, old(sys.flights[fid]), sys.View())
    ensures fid in sys.flights && NextVisit(sys.flights[fid])
  {
    ghost var s0 := sys.View();
    sys.Meanwhile(turn.beforeCall);
    BelowIsForeign(turn.beforeCall, base, fid);
    ForeignRunKeepsFlight(sys.c, s0, turn.beforeCall, fid);
    ghost var step := Move(fid, Pick(turn.lost, 0));
    AskNow(sys, fid, turn.lost);
    ExecThen(sys.c, s0, turn.beforeCall, step);
    steps := turn.beforeCall + [step];
    OneMove(turn.beforeCall, step, base, fid, SomeWriteFails(turn));
    OneAct(sys.c, s0, turn.beforeCall, step, fid);
  }

  method AskNow(sys: System, fid: nat, lost: bool)
    requires fid in sys.flights && sys.flights[fid].Checking? && sys.flights[fid].attempts >= 1
    modifies sys`flights
    ensures sys.View() == Apply(sys.c, old(sys.View()), Move(fid, Pick(lost, 0)))
    ensures Asks(sys.c, [Act(old(sys.View()), Move(fid, Pick(lost, 0)))], fid, old(sys.flights[fid]), sys.View())
    ensures fid in sys.flights && NextVisit(sys.flights[fid])
  {
    var p := sys.flights[fid];
    if p.key == "" {
      sys.flights := sys.flights[fid := Parking(p.payment)];
      return;
    }
    var reply := sys.provider.ChargeStatus(p.key);
    if lost { reply := StatusUnavailable; }
    var next;
    match reply {
      case StatusUnavailable => next := Postponing(p.payment, p.attempts, true);
      case WasCharged(charge) => next := Resolving(p.payment, Succeeded, Some(charge), p.attempts);
      case WasDeclined => next := Resolving(p.payment, Failed, None, p.attempts);
      case NotFound =>
        if p.age >= sys.c.expireAfter {
          next := Resolving(p.payment, Expired, None, p.attempts);
        } else {
          next := Postponing(p.payment, p.attempts, false);
        }
    }
    sys.flights := sys.flights[fid := next];
  }

  /** resolve: the call is over if the payment moved or had moved already. */
  method RecordOutcome(sys: System, fid: nat, ghost base: nat, turn: Turn) returns (ghost steps: seq<Step>)
    requires fid in sys.flights && sys.flights[fid].Resolving? && sys.flights[fid].attempts >= 1
    requires sys.flights[fid].to in {Succeeded, Failed, Expired}
    requires fid >= base && TurnBelow(turn, base)
    modifies sys, sys.db, sys.provider
    ensures Stretch(sys.c, old(sys.View()), steps, sys.View()) && Handles(steps, base, fid, SomeWriteFails(turn))
    ensures var f, acts := old(sys.flights[fid]), Acts(sys.c, old(sys.View()), steps, fid);
      && |acts| == 1 && RecordsOutcome(sys.c, acts[0], fid, f.payment, f.to, f.charge, turn.recordFails)
      && (fid in sys.flights <==> turn.recordFails || NotRecordable(acts[0], f.payment, f.to))
      && (fid in sys.flights ==> sys.flights[fid] == Postponing(f.payment, f.attempts, true))
    ensures fid in sys.flights ==> sys.flights[fid].Postponing? && sys.flights[fid].attempts >= 1
    ensures EndsWithAct(sys.c, Acts(sys.c, old(sys.View()), steps, fid), sys.View())
  {
    ghost var s0 := sys.View();
    sys.Meanwhile(turn.beforeRecord);
    BelowIsForeign(turn.beforeRecord, base, fid);
    ForeignRunKeepsFlight(sys.c, s0, turn.beforeRecord, fid);
    ghost var step := Resolve(sys, fid, turn.recordFails);
    steps := turn.beforeRecord + [step];
    ExecThen(sys.c, s0, turn.beforeRecord, step);
    OneAct(sys.c, s0, turn.beforeRecord, step, fid);
    OneMove(turn.beforeRecord, step, base, fid, SomeWriteFails(turn));
  }

  lemma OutcomeRecorded(c: Config, s: State, fid: nat, fails: bool)
    requires fid in s.flights && s.flights[fid].Resolving? && s.flights[fid].to in {Succeeded, Failed, Expired}
    ensures var f := s.flights[fid];
      var a := Act(s, if fails then StatementFails(fid) else Move(fid, Pick(false, 0)));
      RecordsOutcome(c, a, fid, f.payment, f.to, f.charge, fails)
  {
  }

  /** The transition, and the switch on its error. */
  method Resolve(sys: System, fid: nat, fails: bool) returns (ghost step: Step)
    requires fid in sys.flights && sys.flights[fid].Resolving? && sys.flights[fid].attempts >= 1
    requires sys.flights[fid].to in {Succeeded, Failed, Expired}
    modifies sys`flights, sys.db
    ensures sys.View() == Apply(sys.c, old(sys.View()), step) && OwnStatement(step, fid, fails)
    ensures var f, a := old(sys.flights[fid]), Act(old(sys.View()), step);
      && RecordsOutcome(sys.c, a, fid, f.payment, f.to, f.charge, fails)
      && (fid in sys.flights <==> fails || NotRecordable(a, f.payment, f.to))
      && (fid in sys.flights ==> sys.flights[fid] == Postponing(f.payment, f.attempts, true))
    ensures fid in sys.flights ==> sys.flights[fid].Postponing? && sys.flights[fid].attempts >= 1
  {
    var f := sys.flights[fid];
    OutcomeRecorded(sys.c, sys.View(), fid, fails);
    if fails {
      step := StatementFails(fid);
    } else {
      step := Move(fid, Pick(false, 0));
      var r := sys.db.Transition(f.payment, f.to, f.charge);
      if r == Moved || r.IllegalMove? {
        sys.flights := sys.flights - {fid};
        return;
      }
    }
    sys.flights := sys.flights[fid := Postponing(f.payment, f.attempts, true)];
  }

  /** retryOrManual, schedule and manual, unless the statement fails. */
  method Mark(sys: System, fid: nat, fails: bool) returns (ghost step: Step)
    requires fid in sys.flights
    requires var f := sys.flights[fid]; f.Parking? || (f.Postponing? && f.attempts >= 1)
    modifies sys`flights, sys.db
    ensures sys.View() == Apply(sys.c, old(sys.View()), step) && fid !in sys.flights
    ensures var f := old(sys.flights[fid]);
      MarksRow(sys.c, Act(old(sys.View()), step), fid, f.payment, if f.Parking? then 1 else f.attempts,
               f.Parking? || (f.counted && f.attempts >= sys.c.checkAttempts), fails)
    ensures OwnStatement(step, fid, fails) && StuckQueue.PausesAsComputed(old(sys.View()), step)
  {
    if fails {
      step := StatementFails(fid);
      sys.flights := sys.flights - {fid};
    } else if sys.flights[fid].Parking? {
      step := Move(fid, Pick(false, 0));
      sys.db.MarkManual(sys.flights[fid].payment);
      sys.flights := sys.flights - {fid};
    } else {
      step := RetryOrManual(sys, fid);
    }
  }

  lemma Postponed(c: Config, s: State, fid: nat, after: nat)
    requires fid in s.flights && s.flights[fid].Postponing? && s.flights[fid].attempts >= 1
    requires after == DoubledPause(CHECK_BASE, CHECK_CAP, s.flights[fid].attempts)
    ensures var f := s.flights[fid];
      MarksRow(c, Act(s, Move(fid, Pick(false, after))), fid, f.payment, f.attempts,
               f.counted && f.attempts >= c.checkAttempts, false)
  {
  }

  method RetryOrManual(sys: System, fid: nat) returns (ghost step: Step)
    requires fid in sys.flights && sys.flights[fid].Postponing? && sys.flights[fid].attempts >= 1
    modifies sys`flights, sys.db
    ensures sys.View() == Apply(sys.c, old(sys.View()), step) && fid !in sys.flights
    ensures var f := old(sys.flights[fid]);
      MarksRow(sys.c, Act(old(sys.View()), step), fid, f.payment, f.attempts,
               f.counted && f.attempts >= sys.c.checkAttempts, false)
    ensures step.Move? && step.fid == fid && StuckQueue.PausesAsComputed(old(sys.View()), step)
  {
    var f := sys.flights[fid];
    var after := CheckBackoff(f.attempts);
    Postponed(sys.c, sys.View(), fid, after);
    step := Move(fid, Pick(false, after));
    if f.counted && f.attempts >= sys.c.checkAttempts {
      sys.db.MarkManual(f.payment);
    } else {
      sys.db.Schedule(f.payment, sys.clock + after);
    }
    sys.flights := sys.flights - {fid};
  }

  method Postpone(sys: System, fid: nat, ghost base: nat, turn: Turn) returns (ghost steps: seq<Step>)
    requires fid in sys.flights && fid >= base && TurnBelow(turn, base)
    requires var f := sys.flights[fid]; f.Parking? || (f.Postponing? && f.attempts >= 1)
    modifies sys, sys.db, sys.provider
    ensures Stretch(sys.c, old(sys.View()), steps, sys.View()) && Handles(steps, base, fid, SomeWriteFails(turn))
    ensures fid !in sys.flights
    ensures var f, acts := old(sys.flights[fid]), Acts(sys.c, old(sys.View()), steps, fid);
      && |acts| == 1
      && MarksRow(sys.c, acts[0], fid, f.payment, if f.Parking? then 1 else f.attempts,
                  f.Parking? || (f.counted && f.attempts >= sys.c.checkAttempts), turn.markFails)
    ensures EndsWithAct(sys.c, Acts(sys.c, old(sys.View()), steps, fid), sys.View())
  {
    ghost var s0 := sys.View();
    sys.Meanwhile(turn.beforeMark);
    BelowIsForeign(turn.beforeMark, base, fid);
    ForeignRunKeepsFlight(sys.c, s0, turn.beforeMark, fid);
    ghost var step := Mark(sys, fid, turn.markFails);
    steps := turn.beforeMark + [step];
    ExecThen(sys.c, s0, turn.beforeMark, step);
    OneAct(sys.c, s0, turn.beforeMark, step, fid);
    OneMove(turn.beforeMark, step, base, fid, SomeWriteFails(turn));
  }

  function CheckBackoff(attempts: nat): (d: nat)
    requires attempts >= 1
    ensures d == DoubledPause(CHECK_BASE, CHECK_CAP, attempts)
  {
    CheckDelay(attempts);
    Delay(CHECK_BASE, CHECK_CAP, attempts)
  }

  /** The first n stuck payments due from row i on, in id order. */
  function DueChecks(db: Db, stuckAfter: nat, now: nat, i: nat, n: nat): (due: seq<nat>)
    ensures |due| <= n
    decreases |db.payments| - i
  {
    if i >= |db.payments| || n == 0 then []
    else if CheckDue(db, i, stuckAfter, now) then [i] + DueChecks(db, stuckAfter, now, i + 1, n - 1)
    else DueChecks(db, stuckAfter, now, i + 1, n)
  }

  /** They are due, in ascending order, and if the batch is not full no due row is left out. */
  lemma {:induction false} DueChecksExactly(db: Db, stuckAfter: nat, now: nat, i: nat, n: nat)
    ensures var due := DueChecks(db, stuckAfter, now, i, n);
      && (forall k | 0 <= k < |due| ::
            && i <= due[k] < |db.payments| && db.payments[due[k]].status == Pending && !db.payments[due[k]].manual
            && db.payments[due[k]].createdAt + stuckAfter < now && db.payments[due[k]].nextAt <= now)
      && (forall j, k | 0 <= j < k < |due| :: due[j] < due[k])
      && (|due| < n ==>
            forall p | i <= p < |db.payments| && db.payments[p].status == Pending && !db.payments[p].manual
                         && db.payments[p].createdAt + stuckAfter < now && db.payments[p].nextAt <= now :: p in due)
    decreases |db.payments| - i
  {
    if i < |db.payments| && n > 0 {
      DueChecksExactly(db, stuckAfter, now, i + 1, if CheckDue(db, i, stuckAfter, now) then n - 1 else n);
    }
  }

  function CheckLeases(base: nat, due: seq<nat>): seq<Step> {
    seq(|due|, k requires 0 <= k < |due| => LeaseCheckStep(base + k, due[k]))
  }

  lemma CheckLeasesMore(base: nat, due: seq<nat>, i: nat)
    ensures CheckLeases(base, due + [i]) == CheckLeases(base, due) + [LeaseCheckStep(base + |due|, i)]
  {
  }

  predicate CheckItem(f: Flight) {
    f.Checking? && f.attempts >= 1
  }

  method LeaseOnePayment(sys: System, fid: nat, i: nat) returns (d: Flight)
    requires CheckDue(sys.db.View(), i, sys.c.stuckAfter, sys.clock) && fid !in sys.flights
    modifies sys`flights, sys.db`payments
    ensures sys.View() == Apply(sys.c, old(sys.View()), LeaseCheckStep(fid, i))
    ensures sys.flights == old(sys.flights)[fid := d] && CheckItem(d)
  {
    var row := sys.db.payments[i];
    d := Checking(i, row.key, row.attempts + 1, sys.clock - row.createdAt);
    sys.db.LeasePaymentRow(i, sys.clock + sys.c.checkLease);
    sys.flights := sys.flights[fid := d];
  }

  /** The leasing loop so far: rows below i are decided, rows from i on are as they were. */
  ghost predicate ChecksChosen(c: Config, s0: State, s: State, base: nat, n: nat, i: nat, ids: seq<nat>)
    requires |ids| <= n
  {
    && DueChecks(s0.db, c.stuckAfter, s0.clock, 0, n) == ids + DueChecks(s0.db, c.stuckAfter, s0.clock, i, n - |ids|)
    && |s.db.payments| == |s0.db.payments|
    && (forall k | i <= k < |s0.db.payments| :: s.db.payments[k] == s0.db.payments[k])
    && s.clock == s0.clock
  }

  lemma ChecksDueNext(c: Config, s0: State, n: nat, i: nat, ids: seq<nat>)
    requires |ids| < n && i < |s0.db.payments|
    ensures ids + DueChecks(s0.db, c.stuckAfter, s0.clock, i, n - |ids|) ==
      if CheckDue(s0.db, i, c.stuckAfter, s0.clock) then ids + [i] + DueChecks(s0.db, c.stuckAfter, s0.clock, i + 1,
                                                                               n - |ids| - 1)
      else ids + DueChecks(s0.db, c.stuckAfter, s0.clock, i + 1, n - |ids|)
  {
    if CheckDue(s0.db, i, c.stuckAfter, s0.clock) {
      assert ids + ([i] + DueChecks(s0.db, c.stuckAfter, s0.clock, i + 1, n - |ids| - 1)) ==
          ids + [i] + DueChecks(s0.db, c.stuckAfter, s0.clock, i + 1, n - |ids| - 1);
    }
  }

  /** Rows after i, and the clock, are as they were. */
  ghost predicate LeavesLaterChecks(s: State, s': State, i: nat) {
    && s'.clock == s.clock && |s'.db.payments| == |s.db.payments|
    && forall k | i < k < |s.db.payments| :: s'.db.payments[k] == s.db.payments[k]
  }

  lemma ChecksLeaseLeavesLater(c: Config, s: State, fid: nat, i: nat)
    ensures LeavesLaterChecks(s, Apply(c, s, LeaseCheckStep(fid, i)), i)
  {
  }

  lemma ChecksChosenNext(c: Config, s0: State, s: State, s': State, base: nat, n: nat, i: nat, ids: seq<nat>)
    requires |ids| < n && i < |s0.db.payments| && ChecksChosen(c, s0, s, base, n, i, ids)
    requires LeavesLaterChecks(s, s', i)
    ensures ChecksChosen(c, s0, s', base, n, i + 1, if CheckDue(s.db, i, c.stuckAfter, s.clock) then ids + [i] else ids)
  {
    assert CheckDue(s.db, i, c.stuckAfter, s.clock) == CheckDue(s0.db, i, c.stuckAfter, s0.clock);
    ChecksDueNext(c, s0, n, i, ids);
  }

  ghost predicate ChecksLeasing(c: Config, s0: State, s: State, base: nat, n: nat, i: nat, ids: seq<nat>,
                                due: seq<Flight>, steps: seq<Step>)
    requires |ids| <= n
  {
    && ChecksChosen(c, s0, s, base, n, i, ids) && |due| == |ids| && steps == CheckLeases(base, ids)
    && Stretch(c, s0, steps, s) && Leased(s, base, due, 0) && Settled(s, base, |due|, 0)
    && forall k | 0 <= k < |due| :: CheckItem(due[k])
  }

  lemma ChecksChosenByLease(c: Config, s0: State, s: State, base: nat, n: nat, i: nat, ids: seq<nat>)
    requires |ids| < n && i < |s0.db.payments| && ChecksChosen(c, s0, s, base, n, i, ids)
    requires CheckDue(s.db, i, c.stuckAfter, s.clock)
    ensures ChecksChosen(c, s0, Apply(c, s, LeaseCheckStep(base + |ids|, i)), base, n, i + 1, ids + [i])
  {
    ChecksLeaseLeavesLater(c, s, base + |ids|, i);
    ChecksChosenNext(c, s0, s, Apply(c, s, LeaseCheckStep(base + |ids|, i)), base, n, i, ids);
  }

  lemma ChecksLeasingNext(c: Config, s0: State, s: State, s': State, base: nat, n: nat, i: nat, ids: seq<nat>,
                         due: seq<Flight>, steps: seq<Step>, d: Flight)
    requires |ids| < n && ChecksLeasing(c, s0, s, base, n, i, ids, due, steps)
    requires ChecksChosen(c, s0, s', base, n, i + 1, ids + [i]) && CheckItem(d)
    requires Stretch(c, s0, steps + [LeaseCheckStep(base + |due|, i)], s') && s'.flights == s.flights[base + |due| := d]
    ensures ChecksLeasing(c, s0, s', base, n, i + 1, ids + [i], due + [d], steps + [LeaseCheckStep(base + |due|, i)])
  {
    LeasedMore(s, s', base, due, d);
    CheckLeasesMore(base, ids, i);
  }

  method LeaseOnePaymentIfDue(sys: System, base: nat, n: nat, i: nat, due: seq<Flight>, ghost s0: State,
                              ghost ids: seq<nat>, ghost steps: seq<Step>)
    returns (due': seq<Flight>, ghost ids': seq<nat>, ghost steps': seq<Step>)
    requires |ids| < n && i < |s0.db.payments| && ChecksLeasing(sys.c, s0, sys.View(), base, n, i, ids, due, steps)
    modifies sys`flights, sys.db`payments
    ensures |ids'| <= n && ChecksLeasing(sys.c, s0, sys.View(), base, n, i + 1, ids', due', steps')
  {
    ghost var before := sys.View();
    if CheckDue(sys.db.View(), i, sys.c.stuckAfter, sys.clock) {
      assert base + |due| !in sys.flights;
      var d := LeaseOnePayment(sys, base + |due|, i);
      ChecksChosenByLease(sys.c, s0, before, base, n, i, ids);
      ExecThen(sys.c, s0, steps, LeaseCheckStep(base + |due|, i));
      ChecksLeasingNext(sys.c, s0, before, sys.View(), base, n, i, ids, due, steps, d);
      due', ids', steps' := due + [d], ids + [i], steps + [LeaseCheckStep(base + |due|, i)];
    } else {
      ChecksChosenNext(sys.c, s0, before, sys.View(), base, n, i, ids);
      due', ids', steps' := due, ids, steps;
    }
  }

  lemma ChecksLeased(c: Config, s0: State, s: State, base: nat, n: nat, i: nat, ids: seq<nat>, due: seq<Flight>,
                     steps: seq<Step>)
    requires |ids| <= n && ChecksLeasing(c, s0, s, base, n, i, ids, due, steps) && (i == |s0.db.payments| || |ids| == n)
    ensures ids == DueChecks(s0.db, c.stuckAfter, s0.clock, 0, n)
    ensures Stretch(c, s0, steps, s) && |due| == |steps|
    ensures steps == CheckLeases(base, ids)
    ensures Leased(s, base, due, 0) && Settled(s, base, |due|, 0)
    ensures forall k | 0 <= k < |due| :: CheckItem(due[k])
  {
  }

  lemma ChecksLeasingStarts(c: Config, s: State, base: nat, n: nat)
    requires forall g | g in s.flights :: g < base
    ensures ChecksLeasing(c, s, s, base, n, 0, [], [], [])
  {
  }

  /** The leasing statement: the first n rows whose time has come, in id order. */
  method LeasePayments(sys: System, base: nat, n: nat) returns (due: seq<Flight>, ghost steps: seq<Step>)
    requires forall g | g in sys.flights :: g < base
    modifies sys`flights, sys.db`payments
    ensures Stretch(sys.c, old(sys.View()), steps, sys.View())
    ensures steps == CheckLeases(base, DueChecks(old(sys.View()).db, sys.c.stuckAfter, old(sys.clock), 0, n))
    ensures |due| == |steps|
    ensures Leased(sys.View(), base, due, 0) && Settled(sys.View(), base, |due|, 0)
    ensures forall k | 0 <= k < |due| :: CheckItem(due[k])
  {
    ghost var s0 := sys.View();
    ghost var ids: seq<nat> := [];
    steps, due := [], [];
    var i := 0;
    ChecksLeasingStarts(sys.c, s0, base, n);
    while i < |sys.db.payments| && |due| < n
      invariant 0 <= i <= |sys.db.payments| == |s0.db.payments| && |due| == |ids| <= n
      invariant ChecksLeasing(sys.c, s0, sys.View(), base, n, i, ids, due, steps)
    {
      due, ids, steps := LeaseOnePaymentIfDue(sys, base, n, i, due, s0, ids, steps);
      i := i + 1;
    }
    ChecksLeased(sys.c, s0, sys.View(), base, n, i, ids, due, steps);
  }

  method ServeOnePayment(sys: System, base: nat, ghost due: seq<Flight>, turns: seq<Turn>, ghost leases: seq<Step>,
                         ghost s1: State, ghost steps: seq<Step>, k: nat) returns (ghost more: seq<Step>)
    requires k < |due| <= |turns| && forall j | 0 <= j < |due| :: CheckItem(due[j])
    requires forall i | 0 <= i < |turns| :: TurnBelow(turns[i], base)
    requires Serving(sys.c, s1, steps, sys.View(), base, due, turns, leases, k)
    modifies sys, sys.db, sys.provider
    ensures Serving(sys.c, s1, steps + more, sys.View(), base, due, turns, leases, k + 1)
  {
    ghost var s := sys.View();
    assert LeasedAt(s, base, due, k);
    more := HandleStuck(sys, base + k, base, turns[k]);
    ServingNext(sys.c, s1, steps, s, more, sys.View(), base, due, turns, leases, k);
  }

  method ServePayments(sys: System, base: nat, due: seq<Flight>, turns: seq<Turn>, ghost leases: seq<Step>)
    returns (ghost steps: seq<Step>)
    requires |due| == |leases| <= |turns| && forall i | 0 <= i < |turns| :: TurnBelow(turns[i], base)
    requires Leased(sys.View(), base, due, 0) && Settled(sys.View(), base, |due|, 0)
    requires forall k | 0 <= k < |due| :: CheckItem(due[k])
    requires Batch(leases, base, turns, leases)
    modifies sys, sys.db, sys.provider
    ensures Serving(sys.c, old(sys.View()), steps, sys.View(), base, due, turns, leases, |due|)
  {
    ghost var s1 := sys.View();
    steps := [];
    var k := 0;
    ServingStarts(sys.c, s1, base, due, turns, leases);
    while k < |due|
      invariant 0 <= k <= |due| && Serving(sys.c, s1, steps, sys.View(), base, due, turns, leases, k)
    {
      ghost var more := ServeOnePayment(sys, base, due, turns, leases, s1, steps, k);
      steps := steps + more;
      k := k + 1;
    }
  }

  /** ReconcileWorker.ProcessDue, with one turn for each place in the batch. */
  method ProcessDuePayments(sys: System, base: nat, turns: seq<Turn>) returns (ghost steps: seq<Step>)
    requires forall g | g in sys.flights :: g < base
    requires forall i | 0 <= i < |turns| :: TurnBelow(turns[i], base)
    modifies sys, sys.db, sys.provider
    ensures Stretch(sys.c, old(sys.View()), steps, sys.View())
    ensures BatchServed(sys.c, old(sys.View()), steps, base, turns,
                        CheckLeases(base, DueChecks(old(sys.View()).db, sys.c.stuckAfter, old(sys.clock), 0, |turns|)))
    ensures forall g | g in sys.flights :: g < base
  {
    ghost var s0 := sys.View();
    var due;
    ghost var leases;
    due, leases := LeasePayments(sys, base, |turns|);
    ghost var s1 := sys.View();
    ghost var more := ServePayments(sys, base, due, turns, leases);
    AllServed(sys.c, s0, leases, s1, more, sys.View(), base, due, turns);
    steps := leases + more;
  }
}
