/** The refund worker's queue: in every run of the protocol a refund leaves it after a bounded number of visits,
    unless the reconciliation job died between the two statements of its refund fix. */
module RefundQueue {
  import opened Domain
  import opened Tables
  import opened Payments
  import opened Protocol
  import opened Reconciliation
  import opened Effects
  import opened Invariant
  import opened Runs
  import opened Backoff
  import StuckQueue
  import Timing

  ghost predicate Waits(db: Db, r: nat) {
    r < |db.refunds| && db.refunds[r].status == Waiting
  }

  /** The money is back and the payment says so, but the refund row does not. */
  ghost predicate Orphaned(db: Db, r: nat) {
    Waits(db, r) && db.refunds[r].payment < |db.payments| && db.payments[db.refunds[r].payment].status == Refunded
  }

  ghost predicate Queued(db: Db, r: nat) {
    Waits(db, r) && !Orphaned(db, r)
  }

  /** The call is a visit to the refund that knows its attempt number. */
  predicate Visiting(f: Flight, r: nat) {
    (f.Refunding? || f.RefundRetry?) && f.refund == r
  }

  /** The step completes a visit to the refund: the provider's answer is recorded, or the record of its refusal
      fails, unless what fails is the mark for manual review. */
  predicate Completes(c: Config, s: State, step: Step, r: nat) {
    && (step.Move? || step.StatementFails?) && step.fid in s.flights
    && var f := s.flights[step.fid];
       if step.Move? then (f.RefundSent? || f.RefundRetry?) && f.refund == r
       else f.RefundRetry? && f.refund == r && f.attempts < c.refundAttempts
  }

  function NumberOf(f: Flight): nat {
    if f.RefundRetry? then f.attempts else 0
  }

  /** The completed visits to the refund. */
  function Completed(c: Config, s: State, steps: seq<Step>, r: nat): seq<nat> {
    if steps == [] then []
    else
      var before, step := Exec(c, s, steps[..|steps| - 1]), Last(steps);
      Completed(c, s, steps[..|steps| - 1], r) +
      (if Completes(c, before, step, r) then [NumberOf(before.flights[step.fid])] else [])
  }

  function Bound(c: Config): nat {
    if c.refundAttempts >= 1 then c.refundAttempts - 1 else 0
  }

  // ----- what holds of a queued refund and its visits

  /** The open visits have different attempt numbers, and none of those completed. */
  ghost predicate VisitsOk(flights: map<nat, Flight>, r: nat, attempts: nat, done: seq<nat>) {
    && (forall g | g in flights && Visiting(flights[g], r) ::
          1 <= flights[g].attempts <= attempts && flights[g].attempts !in done)
    && (forall g, h | g in flights && h in flights && g != h && Visiting(flights[g], r) && Visiting(flights[h], r) ::
          flights[g].attempts != flights[h].attempts)
  }

  ghost predicate DoneOk(c: Config, attempts: nat, done: seq<nat>) {
    && (forall i | 0 <= i < |done| :: 1 <= done[i] <= Bound(c) && done[i] <= attempts)
    && (forall i, j | 0 <= i < j < |done| :: done[i] != done[j])
  }

  ghost predicate NoVisit(flights: map<nat, Flight>, r: nat) {
    forall g | g in flights :: !Concerns(flights[g], r)
  }

  ghost predicate Tracked(c: Config, s: State, r: nat, done: seq<nat>) {
    if r >= |s.db.refunds| then done == [] && NoVisit(s.flights, r)
    else
      Queued(s.db, r) ==> VisitsOk(s.flights, r, s.db.refunds[r].attempts, done) && DoneOk(c, s.db.refunds[r].attempts,
                                                                                          done)
  }

  // ----- the row

  /** Nobody but a lease counts an attempt, and a row that no longer waits never waits again. */
  ghost predicate RowGoesOn(db: Db, db': Db, r: nat)
    requires r < |db.refunds|
  {
    && r < |db'.refunds| && db'.refunds[r].attempts == db.refunds[r].attempts
    && (db'.refunds[r].status == Waiting ==> db.refunds[r].status == Waiting)
  }

  lemma RefundMoveKeepsRow(c: Config, s: State, fid: nat, ch: Choice, r: nat)
    requires fid in s.flights && r < |s.db.refunds|
    requires var f := s.flights[fid]; f.RefundSent? || f.RefundRetry? || f.ClosingRefund?
    ensures RowGoesOn(s.db, MoveFlight(c, s, fid, ch).db, r)
  {
  }

  lemma PayMoveKeepsRefunds(c: Config, s: State, fid: nat, ch: Choice)
    requires fid in s.flights
    requires var f := s.flights[fid];
      f.Looking? || f.Starting? || f.LookingAgain? || f.Charging? || f.Recording? || f.Refunding?
    ensures MoveFlight(c, s, fid, ch).db.refunds == s.db.refunds
  {
  }

  lemma CheckMoveKeepsRefunds(c: Config, s: State, fid: nat, ch: Choice)
    requires fid in s.flights
    requires var f := s.flights[fid]; f.Checking? || f.Resolving? || f.Postponing? || f.Parking? || f.Matching?
    ensures MoveFlight(c, s, fid, ch).db.refunds == s.db.refunds
  {
  }

  lemma FixMoveKeepsRefunds(c: Config, s: State, fid: nat, ch: Choice)
    requires fid in s.flights && s.flights[fid].Fixing?
    ensures MoveFlight(c, s, fid, ch).db.refunds == s.db.refunds
  {
  }

  lemma MoveKeepsRow(c: Config, s: State, fid: nat, ch: Choice, r: nat)
    requires fid in s.flights && r < |s.db.refunds|
    ensures RowGoesOn(s.db, MoveFlight(c, s, fid, ch).db, r)
  {
    var f := s.flights[fid];
    if f.RefundSent? || f.RefundRetry? || f.ClosingRefund? { RefundMoveKeepsRow(c, s, fid, ch, r); }
    else if f.Fixing? { FixMoveKeepsRefunds(c, s, fid, ch); }
    else if f.Checking? || f.Resolving? || f.Postponing? || f.Parking? || f.Matching? {
      CheckMoveKeepsRefunds(c, s, fid, ch);
    }
    else { PayMoveKeepsRefunds(c, s, fid, ch); }
  }

  lemma OtherStepKeepsRow(c: Config, s: State, step: Step, r: nat)
    requires !step.Move? && !(step.LeaseRefundStep? && step.refund == r) && r < |s.db.refunds|
    ensures RowGoesOn(s.db, Apply(c, s, step).db, r)
  {
  }

  /** A refund that is not queued, or orphaned, is not queued again. */
  lemma LeftForGood(c: Config, s: State, step: Step, r: nat)
    requires Inv(s) && r < |s.db.refunds| && !Queued(s.db, r)
    ensures !Queued(Apply(c, s, step).db, r)
  {
    var s' := Apply(c, s, step);
    StepKeeps(c, s, step);
    assert RefundRow(s.db, r);
    assert PaymentGrows(s.db.payments[s.db.refunds[r].payment], s'.db.payments[s.db.refunds[r].payment]);
    if s.db.refunds[r].status != Waiting { NoLongerWaits(c, s, step, r); }
  }

  lemma NoLongerWaits(c: Config, s: State, step: Step, r: nat)
    requires r < |s.db.refunds| && s.db.refunds[r].status != Waiting
    ensures !Waits(Apply(c, s, step).db, r)
  {
    if step.Move? {
      if step.fid in s.flights { MoveKeepsRow(c, s, step.fid, step.choice, r); }
    } else if step.LeaseRefundStep? {
    } else {
      OtherStepKeepsRow(c, s, step, r);
    }
  }

  // ----- the visits

  /** Visits that end or go on with the same attempt number. */
  lemma VisitsGoOn(a: map<nat, Flight>, b: map<nat, Flight>, r: nat, attempts: nat, done: seq<nat>, fid: nat)
    requires VisitsOk(a, r, attempts, done) && b - {fid} == a - {fid}
    requires fid in b && Visiting(b[fid], r) ==> fid in a && Visiting(a[fid], r) && b[fid].attempts == a[fid].attempts
    ensures VisitsOk(b, r, attempts, done)
  {
    forall g | g in b && g != fid ensures g in a && b[g] == a[g] {
      assert g in b - {fid} && g in a - {fid};
      assert (b - {fid})[g] == b[g];
    }
  }

  /** A visit that ends has its number to itself. */
  lemma VisitEnds(c: Config, a: map<nat, Flight>, r: nat, attempts: nat, done: seq<nat>, fid: nat)
    requires VisitsOk(a, r, attempts, done) && DoneOk(c, attempts, done)
    requires fid in a && Visiting(a[fid], r) && a[fid].attempts <= Bound(c)
    ensures VisitsOk(a - {fid}, r, attempts, done + [a[fid].attempts])
    ensures DoneOk(c, attempts, done + [a[fid].attempts])
  {
    var more := done + [a[fid].attempts];
    forall i, j | 0 <= i < j < |more| ensures more[i] != more[j] {
      if j == |done| { assert done[i] in done; }
    }
  }

  ghost predicate StepTracks(c: Config, s: State, step: Step, r: nat, done: seq<nat>) {
    var s' := Apply(c, s, step);
    Queued(s'.db, r) ==>
      Tracked(c, s', r, if Completes(c, s, step, r) then done + [NumberOf(s.flights[step.fid])] else done)
  }

  lemma LeaseTracks(c: Config, s: State, fid: nat, r: nat, done: seq<nat>)
    requires Tracked(c, s, r, done) && Queued(s.db, r) && fid !in s.flights && RefundDue(s.db, r, s.clock)
    ensures StepTracks(c, s, LeaseRefundStep(fid, r), r, done)
  {
    var s' := Apply(c, s, LeaseRefundStep(fid, r));
    assert s'.db.refunds[r].attempts == s.db.refunds[r].attempts + 1;
    assert forall g | g in s.flights :: s'.flights[g] == s.flights[g];
  }

  lemma RetryMoves(c: Config, s: State, fid: nat, ch: Choice, r: nat, done: seq<nat>)
    requires Tracked(c, s, r, done) && Queued(s.db, r)
    requires fid in s.flights && s.flights[fid].RefundRetry? && s.flights[fid].refund == r
    ensures StepTracks(c, s, Move(fid, ch), r, done)
  {
    var f, s' := s.flights[fid], MoveFlight(c, s, fid, ch);
    MoveKeepsRow(c, s, fid, ch, r);
    if Queued(s'.db, r) {
      RetryStays(c, s, fid, ch, r);
      VisitEnds(c, s.flights, r, s.db.refunds[r].attempts, done, fid);
    }
  }

  /** A refusal leaves the refund queued only short of the limit. */
  lemma RetryStays(c: Config, s: State, fid: nat, ch: Choice, r: nat)
    requires fid in s.flights && s.flights[fid].RefundRetry? && s.flights[fid].refund == r
    requires Queued(s.db, r) && Queued(MoveFlight(c, s, fid, ch).db, r)
    ensures s.flights[fid].attempts < c.refundAttempts && MoveFlight(c, s, fid, ch).flights == s.flights - {fid}
  {
  }

  /** A recorded refund ends the waiting. */
  lemma SentMoves(c: Config, s: State, fid: nat, ch: Choice, r: nat)
    requires Inv(s) && fid in s.flights && s.flights[fid].RefundSent? && s.flights[fid].refund == r && Queued(s.db, r)
    ensures !Queued(MoveFlight(c, s, fid, ch).db, r)
  {
    assert FlightOk(s.db, s.journal, s.flights[fid]);
    assert RefundRow(s.db, r);
  }

  predicate Concerns(f: Flight, r: nat) {
    Visiting(f, r) || (f.RefundSent? && f.refund == r)
  }

  /** A call becomes a visit only by a lease, and keeps its number. */
  lemma NoVisitAppears(c: Config, s: State, fid: nat, ch: Choice, r: nat)
    requires fid in s.flights
    ensures var s' := MoveFlight(c, s, fid, ch);
      fid in s'.flights && Concerns(s'.flights[fid], r) ==>
        && Visiting(s.flights[fid], r)
        && (Visiting(s'.flights[fid], r) ==> s'.flights[fid].attempts == s.flights[fid].attempts)
  {
  }

  lemma OtherMoves(c: Config, s: State, fid: nat, ch: Choice, r: nat, done: seq<nat>)
    requires Tracked(c, s, r, done) && Queued(s.db, r) && fid in s.flights && !Completes(c, s, Move(fid, ch), r)
    ensures StepTracks(c, s, Move(fid, ch), r, done)
  {
    var s' := MoveFlight(c, s, fid, ch);
    MoveKeepsRow(c, s, fid, ch, r);
    MovePerforms(c, s, fid, ch);
    NoVisitAppears(c, s, fid, ch, r);
    VisitsGoOn(s.flights, s'.flights, r, s.db.refunds[r].attempts, done, fid);
  }

  lemma MoveTracks(c: Config, s: State, fid: nat, ch: Choice, r: nat, done: seq<nat>)
    requires Inv(s) && Tracked(c, s, r, done) && Queued(s.db, r) && fid in s.flights
    ensures StepTracks(c, s, Move(fid, ch), r, done)
  {
    var f := s.flights[fid];
    if f.RefundRetry? && f.refund == r { RetryMoves(c, s, fid, ch, r, done); }
    else if f.RefundSent? && f.refund == r { SentMoves(c, s, fid, ch, r); }
    else { OtherMoves(c, s, fid, ch, r, done); }
  }

  lemma FailureTracks(c: Config, s: State, fid: nat, r: nat, done: seq<nat>)
    requires Tracked(c, s, r, done) && Queued(s.db, r) && fid in s.flights
    ensures StepTracks(c, s, StatementFails(fid), r, done)
  {
    var f, s', attempts := s.flights[fid], Apply(c, s, StatementFails(fid)), s.db.refunds[r].attempts;
    if Completes(c, s, StatementFails(fid), r) {
      VisitEnds(c, s.flights, r, attempts, done, fid);
      assert s'.flights == s.flights - {fid};
    } else {
      VisitsGoOn(s.flights, s'.flights, r, attempts, done, fid);
    }
  }

  /** The steps that neither lease nor write for the worker: its visits stay as they are, or die. */
  lemma QuietVisits(c: Config, s: State, step: Step, r: nat)
    requires !step.Move? && !step.StatementFails? && !(step.LeaseRefundStep? && step.refund == r)
    ensures var s' := Apply(c, s, step);
      && (forall g | g in s'.flights && Visiting(s'.flights[g], r) ::
            g in s.flights && Visiting(s.flights[g], r) && s'.flights[g].attempts == s.flights[g].attempts)
      && (forall g | g in s'.flights && s'.flights[g].RefundSent? :: g in s.flights && s'.flights[g] == s.flights[g])
  {
  }

  lemma QuietTracks(c: Config, s: State, step: Step, r: nat, done: seq<nat>)
    requires Tracked(c, s, r, done) && Queued(s.db, r)
    requires !step.Move? && !step.StatementFails? && !(step.LeaseRefundStep? && step.refund == r)
    ensures StepTracks(c, s, step, r, done)
  {
    OtherStepKeepsRow(c, s, step, r);
    QuietVisits(c, s, step, r);
  }

  lemma StepTracksVisits(c: Config, s: State, step: Step, r: nat, done: seq<nat>)
    requires Inv(s) && Tracked(c, s, r, done) && Queued(s.db, r)
    ensures StepTracks(c, s, step, r, done)
  {
    match step
    case Move(fid, ch) => if fid in s.flights { MoveTracks(c, s, fid, ch, r, done); }
    case StatementFails(fid) => if fid in s.flights { FailureTracks(c, s, fid, r, done); }
    case LeaseRefundStep(fid, q) =>
      if q != r { QuietTracks(c, s, step, r, done); }
      else if fid !in s.flights && RefundDue(s.db, r, s.clock) { LeaseTracks(c, s, fid, r, done); }
    case _ => QuietTracks(c, s, step, r, done);
  }

  /** The pause after a refusal is the one the worker computes. */
  predicate PausesAsComputed(s: State, step: Step) {
    step.Move? && step.fid in s.flights && s.flights[step.fid].RefundRetry? && s.flights[step.fid].attempts >= 1 ==>
      step.choice.delay == Delay(REFUND_BASE, REFUND_CAP, s.flights[step.fid].attempts)
  }

  // ----- leases

  /** The refund is not due before this time. */
  ghost predicate HeldUntil(db: Db, r: nat, until: nat) {
    r < |db.refunds| && (db.refunds[r].status == Waiting ==> db.refunds[r].nextAt >= until)
  }

  /** The step records a refusal of this refund, which sets its next attempt anew. */
  predicate Reschedules(s: State, step: Step, r: nat) {
    step.Move? && step.fid in s.flights && s.flights[step.fid].RefundRetry? && s.flights[step.fid].refund == r
  }

  ghost predicate NotRescheduled(c: Config, s: State, steps: seq<Step>, r: nat) {
    forall i | 0 <= i < |steps| :: !Reschedules(Exec(c, s, steps[..i]), steps[i], r)
  }

  lemma RefundMoveHolds(c: Config, s: State, fid: nat, ch: Choice, r: nat, until: nat)
    requires fid in s.flights && HeldUntil(s.db, r, until) && !Reschedules(s, Move(fid, ch), r)
    requires var f := s.flights[fid]; f.RefundSent? || f.RefundRetry? || f.ClosingRefund?
    ensures HeldUntil(MoveFlight(c, s, fid, ch).db, r, until)
  {
  }

  lemma StepHolds(c: Config, s: State, step: Step, r: nat, until: nat)
    requires HeldUntil(s.db, r, until) && s.clock < until && !Reschedules(s, step, r)
    ensures HeldUntil(Apply(c, s, step).db, r, until)
  {
    if step.Move? {
      if step.fid in s.flights {
        var f := s.flights[step.fid];
        if f.RefundSent? || f.RefundRetry? || f.ClosingRefund? {
          RefundMoveHolds(c, s, step.fid, step.choice, r, until);
        } else if f.Fixing? {
          FixMoveKeepsRefunds(c, s, step.fid, step.choice);
        } else if f.Checking? || f.Resolving? || f.Postponing? || f.Parking? || f.Matching? {
          CheckMoveKeepsRefunds(c, s, step.fid, step.choice);
        } else {
          PayMoveKeepsRefunds(c, s, step.fid, step.choice);
        }
      }
    } else {
      OtherStepHolds(c, s, step, r, until);
    }
  }

  lemma OtherStepHolds(c: Config, s: State, step: Step, r: nat, until: nat)
    requires HeldUntil(s.db, r, until) && s.clock < until && !step.Move?
    ensures HeldUntil(Apply(c, s, step).db, r, until)
  {
  }

  lemma StepKeepsClock(c: Config, s: State, step: Step)
    ensures s.clock <= Apply(c, s, step).clock
  {
    if step.Move? && step.fid in s.flights { Timing.MoveKeepsClock(c, s, step.fid, step.choice); }
  }

  lemma {:induction false} ClockOnlyGrows(c: Config, s: State, steps: seq<Step>)
    ensures s.clock <= Exec(c, s, steps).clock
  {
    if steps != [] {
      ClockOnlyGrows(c, s, steps[..|steps| - 1]);
      StepKeepsClock(c, Exec(c, s, steps[..|steps| - 1]), Last(steps));
    }
  }

  lemma {:induction false} RunHolds(c: Config, s: State, steps: seq<Step>, r: nat, until: nat)
    requires HeldUntil(s.db, r, until) && NotRescheduled(c, s, steps, r) && Exec(c, s, steps).clock < until
    ensures HeldUntil(Exec(c, s, steps).db, r, until)
  {
    if steps != [] {
      var n := |steps| - 1;
      var before := Exec(c, s, steps[..n]);
      forall i | 0 <= i < n ensures !Reschedules(Exec(c, s, steps[..n][..i]), steps[..n][i], r) {
        assert steps[..n][..i] == steps[..i];
      }
      StepKeepsClock(c, before, steps[n]);
      RunHolds(c, s, steps[..n], r, until);
      assert !Reschedules(before, steps[n], r);
      StepHolds(c, before, steps[n], r, until);
    }
  }

  /** A leased refund is not leased again, by any worker, before the lease is over or a refusal of it is recorded. */
  lemma {:induction false} LeasesAreApart(c: Config, s: State, fid: nat, r: nat, steps: seq<Step>)
    requires fid !in s.flights && RefundDue(s.db, r, s.clock)
    requires NotRescheduled(c, Apply(c, s, LeaseRefundStep(fid, r)), steps, r)
    ensures var s' := Exec(c, Apply(c, s, LeaseRefundStep(fid, r)), steps);
      RefundDue(s'.db, r, s'.clock) ==> s'.clock >= s.clock + c.refundLease
  {
    var s1 := Apply(c, s, LeaseRefundStep(fid, r));
    if Exec(c, s1, steps).clock < s.clock + c.refundLease { RunHolds(c, s1, steps, r, s.clock + c.refundLease); }
  }

  // ----- whole runs

  /** Until the row is there nobody visits it. */
  lemma BeforeItIsThere(c: Config, s: State, step: Step, r: nat)
    requires r >= |s.db.refunds| && NoVisit(s.flights, r)
    ensures NoVisit(Apply(c, s, step).flights, r)
  {
    var s' := Apply(c, s, step);
    match step
    case Move(fid, ch) =>
      if fid in s.flights {
        MovePerforms(c, s, fid, ch);
        NoVisitAppears(c, s, fid, ch, r);
        forall g | g in s'.flights && g != fid ensures g in s.flights && s'.flights[g] == s.flights[g] {
          assert g in s'.flights - {fid} && g in s.flights - {fid};
          assert (s'.flights - {fid})[g] == s'.flights[g] && (s.flights - {fid})[g] == s.flights[g];
        }
      }
    case LeaseRefundStep(_, q) => if q != r { QuietVisits(c, s, step, r); }
    case StatementFails(_) =>
    case _ => QuietVisits(c, s, step, r);
  }

  lemma NextTracks(c: Config, s: State, step: Step, r: nat, done: seq<nat>)
    requires Inv(s) && (r >= |s.db.refunds| || Queued(s.db, r) ==> Tracked(c, s, r, done))
    ensures var s' := Apply(c, s, step);
      r >= |s'.db.refunds| || Queued(s'.db, r) ==>
        Tracked(c, s', r, if Completes(c, s, step, r) then done + [NumberOf(s.flights[step.fid])] else done)
  {
    if r >= |s.db.refunds| {
      BeforeItIsThere(c, s, step, r);
    } else {
      StepKeeps(c, s, step);
      if Queued(s.db, r) { StepTracksVisits(c, s, step, r, done); } else { LeftForGood(c, s, step, r); }
    }
  }

  lemma {:induction false} RunTracks(c: Config, s: State, steps: seq<Step>, r: nat)
    requires Inv(s) && Tracked(c, s, r, [])
    ensures r >= |Exec(c, s, steps).db.refunds| || Queued(Exec(c, s, steps).db, r) ==>
              Tracked(c, Exec(c, s, steps), r, Completed(c, s, steps, r))
  {
    if steps != [] {
      var init, step := steps[..|steps| - 1], Last(steps);
      RunTracks(c, s, init, r);
      RunKeeps(c, s, init);
      NextTracks(c, Exec(c, s, init), step, r, Completed(c, s, init, r));
      assert Completed(c, s, init, r) + [] == Completed(c, s, init, r);
    }
  }

  /** In every run from the start, with any overlaps of visits, crashes, lost replies and failing records: a refund that
      waits, and whose payment is not refunded yet, has had at most so many completed visits. */
  lemma {:induction false} QueueIsLeft(c: Config, products: map<int, Product>, steps: seq<Step>, r: nat)
    requires forall q | q in products :: products[q].stock >= 0
    ensures Queued(Exec(c, Init(products), steps).db, r) ==> |Completed(c, Init(products), steps, r)| <= Bound(c)
  {
    RunTracks(c, Init(products), steps, r);
    if Queued(Exec(c, Init(products), steps).db, r) {
      StuckQueue.DistinctFits(Completed(c, Init(products), steps, r), Bound(c));
    }
  }

  // ----- the orphaned refund

  lemma {:induction false} CompletedAppend(c: Config, s: State, a: seq<Step>, b: seq<Step>, r: nat)
    ensures Completed(c, s, a + b, r) == Completed(c, s, a, r) + Completed(c, Exec(c, s, a), b, r)
  {
    if b == [] {
      assert a + b == a;
    } else {
      var init := b[..|b| - 1];
      CompletedAppend(c, s, a, init, r);
      ExecAppend(c, s, a, init);
      assert (a + b)[..|a + b| - 1] == a + init;
      assert (a + b)[|a + b| - 1] == b[|b| - 1];
    }
  }

  /** The job makes no fix. */
  predicate NoFix(s: State, step: Step) {
    !(step.Move? && step.fid in s.flights && s.flights[step.fid].Fixing?)
  }

  ghost predicate NoFixes(c: Config, s: State, steps: seq<Step>) {
    forall i | 0 <= i < |steps| :: NoFix(Exec(c, s, steps[..i]), steps[i])
  }

  lemma {:induction false} NoFixesAppend(c: Config, s: State, a: seq<Step>, b: seq<Step>)
    requires NoFixes(c, s, a) && NoFixes(c, Exec(c, s, a), b)
    ensures NoFixes(c, s, a + b)
  {
    forall i | 0 <= i < |a + b| ensures NoFix(Exec(c, s, (a + b)[..i]), (a + b)[i]) {
      if i < |a| {
        assert (a + b)[..i] == a[..i];
      } else {
        var k := i - |a|;
        assert (a + b)[..i] == a + b[..k];
        ExecAppend(c, s, a, b[..k]);
      }
    }
  }

  /** Only the job's refund fix orphans a refund. */
  lemma OrphansAreTheJobs(c: Config, s: State, step: Step, r: nat)
    requires Inv(s) && r < |s.db.refunds| && !Orphaned(s.db, r) && Orphaned(Apply(c, s, step).db, r)
    ensures step.Move? && step.fid in s.flights && s.flights[step.fid].Fixing?
    ensures var f := s.flights[step.fid];
      f.action == FixRefundSucceeded && f.ours.payment == s.db.refunds[r].payment
  {
    var s' := Apply(c, s, step);
    StepKeeps(c, s, step);
    assert RefundRow(s.db, r);
    var p := s.db.refunds[r].payment;
    if s.db.refunds[r].status != Waiting {
      NoLongerWaits(c, s, step, r);
    } else if step.Move? && step.fid in s.flights {
      MovePerforms(c, s, step.fid, step.choice);
      RefundedBy(s, s', step.fid, step.choice, r);
    } else if !step.Move? {
      OtherStepsRefundNothing(c, s, step, p);
    }
  }

  lemma OtherStepsRefundNothing(c: Config, s: State, step: Step, p: nat)
    requires !step.Move? && p < |s.db.payments|
    ensures p < |Apply(c, s, step).db.payments| && Apply(c, s, step).db.payments[p].status == s.db.payments[p].status
  {
  }

  lemma RefundedBy(s: State, s': State, fid: nat, ch: Choice, r: nat)
    requires Inv(s) && fid in s.flights && Performs(s.db, s'.db, EffectOf(s.flights[fid], ch), s.clock)
    requires Queued(s.db, r) && Orphaned(s'.db, r) && s'.db.refunds[r].payment == s.db.refunds[r].payment
    ensures s.flights[fid].Fixing? && s.flights[fid].action == FixRefundSucceeded
    ensures s.flights[fid].ours.payment == s.db.refunds[r].payment
  {
    var f := s.flights[fid];
    assert FlightOk(s.db, s.journal, f);
    assert RefundRow(s.db, r);
    if f.RefundSent? {
      SentClosesIt(s.db, s.journal, s'.db, f, r);
    } else if f.Starting? {
      StartRefundsNothing(s.db, f.order, f.key, ch.keyFirst, s.clock, s.db.refunds[r].payment);
    } else {
      MovedToRefunded(s.db, s'.db, EffectOf(f, ch), s.clock, s.db.refunds[r].payment);
    }
  }

  lemma SentClosesIt(db: Db, j: Journal, db': Db, f: Flight, r: nat)
    requires TablesInv(db, j) && f.RefundSent? && FlightOk(db, j, f)
    requires db' == RefundSucceededTx(db, f.refund, f.payment, f.sent).0 && Queued(db, r)
    ensures !Orphaned(db', r)
  {
    assert RefundRow(db, r);
    FoundRefund(db.refunds, r);
    FoundRefund(db.refunds, f.refund);
  }

  lemma StartRefundsNothing(db: Db, order: nat, key: string, keyFirst: bool, now: nat, p: nat)
    requires p < |db.payments|
    ensures var db' := StartTx(db, order, key, keyFirst, now).0;
      p < |db'.payments| && db'.payments[p].status == db.payments[p].status
  {
  }

  lemma MovedToRefunded(db: Db, db': Db, e: Effect, now: nat, p: nat)
    requires Performs(db, db', e, now) && (e.Quiet? || e.Transitions?) && p < |db.payments| && p < |db'.payments|
    requires db.payments[p].status != Refunded && db'.payments[p].status == Refunded
    ensures e.Transitions? && e.to == Refunded && e.payment == p
  {
  }

  lemma {:induction false} NoOrphanWithoutFix(c: Config, s: State, steps: seq<Step>, r: nat)
    requires Inv(s) && r < |s.db.refunds| && !Orphaned(s.db, r) && NoFixes(c, s, steps)
    ensures !Orphaned(Exec(c, s, steps).db, r) && r < |Exec(c, s, steps).db.refunds|
  {
    RunKeeps(c, s, steps);
    if steps != [] {
      var n := |steps| - 1;
      forall i | 0 <= i < n ensures NoFix(Exec(c, s, steps[..n][..i]), steps[..n][i]) {
        assert steps[..n][..i] == steps[..i];
      }
      NoOrphanWithoutFix(c, s, steps[..n], r);
      RunKeeps(c, s, steps[..n]);
      var before := Exec(c, s, steps[..n]);
      if Orphaned(Exec(c, s, steps).db, r) { OrphansAreTheJobs(c, before, steps[n], r); }
    }
  }

  lemma {:induction false} FreshId(ids: set<nat>) returns (g: nat)
    ensures forall i | i in ids :: i < g
  {
    if ids == {} {
      g := 0;
    } else {
      var i :| i in ids;
      g := FreshId(ids - {i});
      assert forall k | k in ids :: k == i || k in ids - {i};
      g := if i < g then g else i + 1;
    }
  }

  const GO := Choice(false, false, false, 0)

  /** The worker visits an orphaned refund: the provider confirms, the record fails, and the row waits on. */
  function VisitSteps(s: State, r: nat, fid: nat): seq<Step>
    requires r < |s.db.refunds|
  {
    [Tick(s.db.refunds[r].nextAt), SetDown(false), LeaseRefundStep(fid, r), Move(fid, GO), Move(fid, GO)]
  }

  lemma LeasesIt(c: Config, s: State, r: nat, fid: nat)
    requires Orphaned(s.db, r) && fid !in s.flights && s.clock >= s.db.refunds[r].nextAt && !s.journal.down
    ensures var s' := Apply(c, s, LeaseRefundStep(fid, r)); var row := s.db.refunds[r];
      && s'.db == LeaseRefund(s.db, r, s.clock + c.refundLease) && Orphaned(s'.db, r) && s'.journal == s.journal
      && fid in s'.flights && s'.flights[fid].Refunding? && s'.flights[fid].refund == r && s'.flights[fid].awaited
      && s'.flights[fid].payment == row.payment
      && s'.db.refunds[r].attempts == row.attempts + 1
  {
  }

  lemma ProviderConfirms(c: Config, s: State, r: nat, fid: nat)
    requires fid in s.flights && s.flights[fid].Refunding? && s.flights[fid].refund == r && s.flights[fid].awaited
    requires !s.journal.down
    ensures var s' := Apply(c, s, Move(fid, GO));
      && s'.db == s.db && fid in s'.flights && s'.flights[fid].RefundSent? && s'.flights[fid].refund == r
      && s'.flights[fid].payment == s.flights[fid].payment
  {
  }

  lemma RecordFails(c: Config, s: State, r: nat, fid: nat)
    requires Orphaned(s.db, r) && fid in s.flights && s.flights[fid].RefundSent? && s.flights[fid].refund == r
    requires s.flights[fid].payment == s.db.refunds[r].payment
    ensures Apply(c, s, Move(fid, GO)) == End(s, fid) && Completes(c, s, Move(fid, GO), r)
  {
  }

  lemma {:induction false} OneMoreVisit(c: Config, s: State, r: nat) returns (steps: seq<Step>)
    requires Orphaned(s.db, r)
    ensures NoFixes(c, s, steps) && |Completed(c, s, steps, r)| >= 1
    ensures Orphaned(Exec(c, s, steps).db, r)
    ensures Exec(c, s, steps).db.refunds[r].attempts == s.db.refunds[r].attempts + 1
  {
    var fid := FreshId(s.flights.Keys);
    steps := VisitSteps(s, r, fid);
    var s1 := Apply(c, s, steps[0]);
    var s2 := Apply(c, s1, steps[1]);
    var s3 := Apply(c, s2, steps[2]);
    var s4 := Apply(c, s3, steps[3]);
    LeasesIt(c, s2, r, fid);
    ProviderConfirms(c, s3, r, fid);
    RecordFails(c, s4, r, fid);
    FiveSteps(c, s, steps);
    FiveWithoutFix(c, s, steps, s3, s4);
    assert Completed(c, s, steps, r) == Completed(c, s, steps[..4], r) + [NumberOf(s4.flights[fid])];
  }

  lemma FiveSteps(c: Config, s: State, steps: seq<Step>)
    requires |steps| == 5
    ensures Exec(c, s, steps[..0]) == s && Exec(c, s, steps[..1]) == Apply(c, s, steps[0])
    ensures Exec(c, s, steps[..2]) == Apply(c, Exec(c, s, steps[..1]), steps[1])
    ensures Exec(c, s, steps[..3]) == Apply(c, Exec(c, s, steps[..2]), steps[2])
    ensures Exec(c, s, steps[..4]) == Apply(c, Exec(c, s, steps[..3]), steps[3])
    ensures Exec(c, s, steps) == Apply(c, Exec(c, s, steps[..4]), steps[4])
  {
    assert steps[..4][..3] == steps[..3] && steps[..3][..2] == steps[..2] && steps[..2][..1] == steps[..1]
        && steps[..1][..0] == [] && steps[..0] == [];
  }

  lemma FiveWithoutFix(c: Config, s: State, steps: seq<Step>, s3: State, s4: State)
    requires |steps| == 5 && steps[0].Tick? && steps[1].SetDown? && steps[2].LeaseRefundStep?
    requires steps[3].Move? && steps[4].Move? && s3 == Exec(c, s, steps[..3]) && s4 == Exec(c, s, steps[..4])
    requires NoFix(s3, steps[3]) && NoFix(s4, steps[4])
    ensures NoFixes(c, s, steps)
  {
    forall i | 0 <= i < |steps| ensures NoFix(Exec(c, s, steps[..i]), steps[i]) {
      assert i == 0 || i == 1 || i == 2 || i == 3 || i == 4;
    }
  }

  /** An orphaned refund can be visited any number of times and waits on: the attempt limit, which only a refusal
      by the provider checks, never applies. */
  lemma {:induction false} OrphanIsVisitedForever(c: Config, s: State, r: nat, n: nat) returns (steps: seq<Step>)
    requires Orphaned(s.db, r)
    ensures NoFixes(c, s, steps) && |Completed(c, s, steps, r)| >= n
    ensures Orphaned(Exec(c, s, steps).db, r)
    ensures Exec(c, s, steps).db.refunds[r].attempts == s.db.refunds[r].attempts + n
  {
    if n == 0 {
      steps := [];
    } else {
      var first := OrphanIsVisitedForever(c, s, r, n - 1);
      var more := OneMoreVisit(c, Exec(c, s, first), r);
      steps := first + more;
      ExecAppend(c, s, first, more);
      CompletedAppend(c, s, first, more, r);
      NoFixesAppend(c, s, first, more);
    }
  }

  /** The refund waits after at least n more visits. */
  ghost predicate StillWaits(c: Config, s: State, steps: seq<Step>, r: nat, n: nat) {
    NoFixes(c, s, steps) && Waits(Exec(c, s, steps).db, r) && |Completed(c, s, steps, r)| >= n
  }

  ghost predicate CanWait(c: Config, s: State, r: nat, n: nat) {
    exists steps :: StillWaits(c, s, steps, r, n)
  }

  /** From any moment of any run, as long as the job makes no fix: a waiting refund can go on waiting through any number
      of completed visits if and only if it is orphaned. Otherwise `QueueIsLeft` bounds them. */
  lemma {:induction false} WaitsForeverIff(c: Config, products: map<int, Product>, before: seq<Step>, r: nat)
    requires forall q | q in products :: products[q].stock >= 0
    requires Waits(Exec(c, Init(products), before).db, r)
    ensures var s := Exec(c, Init(products), before); (forall n :: CanWait(c, s, r, n)) <==> Orphaned(s.db, r)
  {
    var s := Exec(c, Init(products), before);
    if Orphaned(s.db, r) {
      forall n ensures CanWait(c, s, r, n) {
        var steps := OrphanIsVisitedForever(c, s, r, n);
        assert StillWaits(c, s, steps, r, n);
      }
    } else if CanWait(c, s, r, Bound(c) + 1) {
      var steps :| StillWaits(c, s, steps, r, Bound(c) + 1);
      BoundedFrom(c, products, before, steps, r);
    }
  }

  lemma BoundedFrom(c: Config, products: map<int, Product>, before: seq<Step>, steps: seq<Step>, r: nat)
    requires forall q | q in products :: products[q].stock >= 0
    requires var s := Exec(c, Init(products), before);
      Queued(s.db, r) && NoFixes(c, s, steps) && Waits(Exec(c, s, steps).db, r)
    ensures |Completed(c, Exec(c, Init(products), before), steps, r)| <= Bound(c)
  {
    var s := Exec(c, Init(products), before);
    RunKeeps(c, Init(products), before);
    NoOrphanWithoutFix(c, s, steps, r);
    ExecAppend(c, Init(products), before, steps);
    CompletedAppend(c, Init(products), before, steps, r);
    QueueIsLeft(c, products, before + steps, r);
  }
}
