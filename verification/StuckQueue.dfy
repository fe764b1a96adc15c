/** The stuck-payment worker's queue: in every run of the protocol, whatever overlaps, every payment leaves it
    after a bounded number of visits. */
module StuckQueue {
  import opened Domain
  import opened Tables
  import opened Payments
  import opened Protocol
  import opened Effects
  import opened Invariant
  import opened Runs
  import opened Backoff
  import Timing

  ghost predicate InQueue(db: Db, p: nat) {
    p < |db.payments| && db.payments[p].status == Pending && !db.payments[p].manual
  }

  /** The call is a visit to the payment, from the lease to the last write. */
  predicate Visiting(f: Flight, p: nat) {
    (f.Checking? || f.Resolving? || f.Postponing?) && f.payment == p
  }

  /** The next statement is the mark for manual review. */
  predicate Marks(c: Config, f: Flight) {
    f.Parking? || (f.Postponing? && f.counted && f.attempts >= c.checkAttempts)
  }

  /** The step completes a visit to the payment: its last write is made, or fails, unless what fails is the
      mark for manual review. */
  predicate Completes(c: Config, s: State, step: Step, p: nat) {
    && (step.Move? || step.StatementFails?) && step.fid in s.flights
    && var f := s.flights[step.fid];
    && (f.Resolving? || f.Postponing?) && f.payment == p
    && step.fid !in Apply(c, s, step).flights
    && !(step.StatementFails? && Marks(c, f))
  }

  /** The completed visits to the payment, each by its attempt number. */
  function Completed(c: Config, s: State, steps: seq<Step>, p: nat): seq<nat> {
    if steps == [] then []
    else
      var before, step := Exec(c, s, steps[..|steps| - 1]), Last(steps);
      Completed(c, s, steps[..|steps| - 1], p) +
      (if Completes(c, before, step, p) then [before.flights[step.fid].attempts] else [])
  }

  /** Every pause a visit schedules is at least the gap. */
  predicate Pauses(s: State, step: Step, gap: nat) {
    step.Move? && step.fid in s.flights && s.flights[step.fid].Postponing? && s.flights[step.fid].attempts >= 1 ==>
      step.choice.delay >= gap
  }

  ghost predicate BacksOff(c: Config, s: State, steps: seq<Step>, gap: nat) {
    forall i | 0 <= i < |steps| :: Pauses(Exec(c, s, steps[..i]), steps[i], gap)
  }

  /** The attempts that come too early to expire a payment. */
  function Young(c: Config, gap: nat): nat
    requires gap >= 1
  {
    if c.expireAfter > c.stuckAfter + 1 then (c.expireAfter - c.stuckAfter - 2) / gap + 1 else 0
  }

  /** The visits that can leave a payment in the queue: too few attempts to give up, or too early to expire.
      The two run side by side, so their maximum counts. */
  function Bound(c: Config, gap: nat): nat
    requires gap >= 1
  {
    var attempts := if c.checkAttempts >= 1 then c.checkAttempts - 1 else 0;
    if attempts >= Young(c, gap) then attempts else Young(c, gap)
  }

  // ----- what holds of a queued payment and its visits

  function Earliest(c: Config, gap: nat, attempt: nat): nat
    requires attempt >= 1
  {
    c.stuckAfter + 1 + (attempt - 1) * gap
  }

  /** A visit knows its age, which is at least what its attempt number takes; one that waits for the provider
      without counting came too early to expire the payment. */
  ghost predicate VisitOk(c: Config, gap: nat, f: Flight, attempts: nat)
    requires gap >= 1 && (f.Checking? || f.Resolving? || f.Postponing?)
  {
    && 1 <= f.attempts <= attempts
    && (f.Checking? ==> f.age >= Earliest(c, gap, f.attempts))
    && (f.Resolving? ==> f.to == Succeeded || f.to == Failed || f.to == Expired)
    && (f.Postponing? && !f.counted ==> f.attempts <= Young(c, gap))
  }

  ghost predicate RowOk(c: Config, gap: nat, row: Payment, clock: nat) {
    row.attempts >= 1 ==>
      && row.createdAt + Earliest(c, gap, row.attempts) <= clock
      && row.createdAt + Earliest(c, gap, row.attempts + 1) <= row.nextAt
  }

  /** The open visits have different attempt numbers, and none of those completed. */
  ghost predicate VisitsOk(c: Config, flights: map<nat, Flight>, p: nat, attempts: nat, gap: nat, done: seq<nat>)
    requires gap >= 1
  {
    && (forall g | g in flights && Visiting(flights[g], p) ::
          VisitOk(c, gap, flights[g], attempts) && flights[g].attempts !in done)
    && (forall g, h | g in flights && h in flights && g != h && Visiting(flights[g], p) && Visiting(flights[h], p) ::
          flights[g].attempts != flights[h].attempts)
  }

  ghost predicate DoneOk(c: Config, gap: nat, attempts: nat, done: seq<nat>)
    requires gap >= 1
  {
    && (forall i | 0 <= i < |done| :: 1 <= done[i] <= Bound(c, gap) && done[i] <= attempts)
    && (forall i, j | 0 <= i < j < |done| :: done[i] != done[j])
  }

  ghost predicate Tracked(c: Config, s: State, p: nat, gap: nat, done: seq<nat>)
    requires gap >= 1
  {
    if p >= |s.db.payments| then done == [] && forall g | g in s.flights :: !Visiting(s.flights[g], p)
    else
      InQueue(s.db, p) ==>
        && RowOk(c, gap, s.db.payments[p], s.clock)
        && VisitsOk(c, s.flights, p, s.db.payments[p].attempts, gap, done)
        && DoneOk(c, gap, s.db.payments[p].attempts, done)
  }

  // ----- the queue is left for good

  lemma LeftForGood(c: Config, s: State, step: Step, p: nat)
    requires Inv(s) && p < |s.db.payments| && !InQueue(s.db, p)
    ensures !InQueue(Apply(c, s, step).db, p)
  {
    StepKeeps(c, s, step);
    assert PaymentGrows(s.db.payments[p], Apply(c, s, step).db.payments[p]);
  }

  // ----- what a step does to the row

  lemma OtherStepKeepsRows(c: Config, s: State, step: Step)
    requires !step.Move? && !step.LeaseCheckStep?
    ensures Apply(c, s, step).db.payments == s.db.payments && s.clock <= Apply(c, s, step).clock
  {
  }

  lemma PayMoveKeepsRow(c: Config, s: State, fid: nat, ch: Choice, p: nat)
    requires fid in s.flights && p < |s.db.payments|
    requires var f := s.flights[fid]; f.Looking? || f.Starting? || f.LookingAgain? || f.Charging? || f.Recording?
    ensures var s' := MoveFlight(c, s, fid, ch);
      InQueue(s'.db, p) ==> s'.db.payments[p] == s.db.payments[p]
  {
  }

  lemma RefundMoveKeepsRow(c: Config, s: State, fid: nat, ch: Choice, p: nat)
    requires fid in s.flights && p < |s.db.payments|
    requires var f := s.flights[fid]; f.Refunding? || f.RefundSent? || f.RefundRetry? || f.Matching? || f.ClosingRefund?
    ensures var s' := MoveFlight(c, s, fid, ch);
      InQueue(s'.db, p) ==> s'.db.payments[p] == s.db.payments[p]
  {
  }

  lemma FixMoveKeepsRow(c: Config, s: State, fid: nat, ch: Choice, p: nat)
    requires fid in s.flights && p < |s.db.payments| && s.flights[fid].Fixing?
    ensures var s' := MoveFlight(c, s, fid, ch);
      InQueue(s'.db, p) ==> s'.db.payments[p] == s.db.payments[p]
  {
  }

  lemma CheckMoveKeepsRow(c: Config, s: State, fid: nat, ch: Choice, p: nat)
    requires fid in s.flights && p < |s.db.payments|
    requires var f := s.flights[fid];
      f.Checking? || f.Resolving? || f.Parking? || (f.Postponing? && f.payment != p)
    ensures var s' := MoveFlight(c, s, fid, ch);
      InQueue(s'.db, p) ==> s'.db.payments[p] == s.db.payments[p]
  {
  }

  /** A queued payment's row is changed only by its lease and by its visits' schedule. */
  lemma MoveKeepsRow(c: Config, s: State, fid: nat, ch: Choice, p: nat)
    requires fid in s.flights && p < |s.db.payments| && !(s.flights[fid].Postponing? && s.flights[fid].payment == p)
    ensures var s' := MoveFlight(c, s, fid, ch);
      InQueue(s'.db, p) ==> s'.db.payments[p] == s.db.payments[p]
  {
    var f := s.flights[fid];
    if f.Looking? || f.Starting? || f.LookingAgain? || f.Charging? || f.Recording? {
      PayMoveKeepsRow(c, s, fid, ch, p);
    }
    else if f.Refunding? || f.RefundSent? || f.RefundRetry? || f.Matching? || f.ClosingRefund? {
      RefundMoveKeepsRow(c, s, fid, ch, p);
    }
    else if f.Fixing? { FixMoveKeepsRow(c, s, fid, ch, p); }
    else { CheckMoveKeepsRow(c, s, fid, ch, p); }
  }

  /** A call becomes a visit only by a lease. */
  lemma MoveMakesNoVisit(c: Config, s: State, fid: nat, ch: Choice)
    requires fid in s.flights && !(s.flights[fid].Checking? || s.flights[fid].Resolving? || s.flights[fid].Postponing?)
    ensures var s' := MoveFlight(c, s, fid, ch); forall p | fid in s'.flights :: !Visiting(s'.flights[fid], p)
  {
  }

  // ----- the invariant, step by step

  /** Visits that end or go on with the same attempt number. */
  lemma VisitsGoOn(c: Config, a: map<nat, Flight>, b: map<nat, Flight>, p: nat, attempts: nat, gap: nat,
                   done: seq<nat>, fid: nat)
    requires gap >= 1 && VisitsOk(c, a, p, attempts, gap, done) && b - {fid} == a - {fid}
    requires fid in b && Visiting(b[fid], p) ==>
      fid in a && Visiting(a[fid], p) && b[fid].attempts == a[fid].attempts && VisitOk(c, gap, b[fid], attempts)
    ensures VisitsOk(c, b, p, attempts, gap, done)
  {
    forall g | g in b && g != fid ensures g in a && b[g] == a[g] {
      assert g in b - {fid} && g in a - {fid};
      assert (b - {fid})[g] == b[g];
    }
  }

  /** A visit that ends has its number to itself. */
  lemma VisitEnds(c: Config, a: map<nat, Flight>, p: nat, attempts: nat, gap: nat, done: seq<nat>, fid: nat)
    requires gap >= 1 && VisitsOk(c, a, p, attempts, gap, done) && DoneOk(c, gap, attempts, done)
    requires fid in a && Visiting(a[fid], p) && a[fid].attempts <= Bound(c, gap)
    ensures VisitsOk(c, a - {fid}, p, attempts, gap, done + [a[fid].attempts])
    ensures DoneOk(c, gap, attempts, done + [a[fid].attempts])
  {
    var more := done + [a[fid].attempts];
    forall i, j | 0 <= i < j < |more| ensures more[i] != more[j] {
      if j == |done| { assert done[i] in done; }
    }
  }

  /** A lease takes the next number, at the earliest a gap after the last one. */
  lemma LeaseKeeps(c: Config, s: State, fid: nat, p: nat, gap: nat, done: seq<nat>)
    requires 1 <= gap <= c.checkLease && Tracked(c, s, p, gap, done)
    requires fid !in s.flights && CheckDue(s.db, p, c.stuckAfter, s.clock)
    ensures Tracked(c, Apply(c, s, LeaseCheckStep(fid, p)), p, gap, done)
  {
    var s' := Apply(c, s, LeaseCheckStep(fid, p));
    var row := s.db.payments[p];
    NextAttempt(c, gap, row.attempts);
    NextAttempt(c, gap, row.attempts + 1);
    assert s'.db.payments[p].attempts == row.attempts + 1;
    assert forall g | g in s.flights :: s'.flights[g] == s.flights[g];
  }

  lemma NextAttempt(c: Config, gap: nat, attempts: nat)
    ensures Earliest(c, gap, attempts + 1) == if attempts == 0 then c.stuckAfter + 1
        else Earliest(c, gap, attempts) + gap
  {
    if attempts >= 1 { assert attempts * gap == (attempts - 1) * gap + gap; }
  }

  /** Too young to expire means an early attempt. */
  lemma YoungAttempt(c: Config, gap: nat, attempt: nat, age: nat)
    requires gap >= 1 && attempt >= 1 && Earliest(c, gap, attempt) <= age < c.expireAfter
    ensures attempt <= Young(c, gap)
  {
    var span := c.expireAfter - c.stuckAfter - 2;
    if attempt - 1 >= span / gap + 1 { OverSpan(span, gap, attempt - 1); }
  }

  lemma OverSpan(span: nat, gap: nat, n: nat)
    requires gap >= 1 && n >= span / gap + 1
    ensures n * gap > span
  {
    MulMonotone(gap, span / gap + 1, n);
    assert span == gap * (span / gap) + span % gap;
    assert gap * (span / gap + 1) == gap * (span / gap) + gap;
    assert gap * n == n * gap;
  }

  lemma CheckingMoves(c: Config, s: State, fid: nat, ch: Choice, p: nat, gap: nat, done: seq<nat>)
    requires gap >= 1 && Tracked(c, s, p, gap, done) && InQueue(s.db, p)
    requires fid in s.flights && s.flights[fid].Checking? && s.flights[fid].payment == p
    ensures Tracked(c, MoveFlight(c, s, fid, ch), p, gap, done)
  {
    var f, s' := s.flights[fid], MoveFlight(c, s, fid, ch);
    if f.age < c.expireAfter { YoungAttempt(c, gap, f.attempts, f.age); }
    VisitsGoOn(c, s.flights, s'.flights, p, s.db.payments[p].attempts, gap, done, fid);
  }

  lemma ResolvingMoves(c: Config, s: State, fid: nat, ch: Choice, p: nat, gap: nat, done: seq<nat>)
    requires gap >= 1 && Tracked(c, s, p, gap, done) && InQueue(s.db, p)
    requires fid in s.flights && s.flights[fid].Resolving? && s.flights[fid].payment == p
    ensures var s' := MoveFlight(c, s, fid, ch);
      InQueue(s'.db, p) ==> fid in s'.flights && Tracked(c, s', p, gap, done)
  {
    var s' := MoveFlight(c, s, fid, ch);
    MoveKeepsRow(c, s, fid, ch, p);
    if InQueue(s'.db, p) {
      VisitsGoOn(c, s.flights, s'.flights, p, s.db.payments[p].attempts, gap, done, fid);
    }
  }

  lemma PostponingMoves(c: Config, s: State, fid: nat, ch: Choice, p: nat, gap: nat, done: seq<nat>)
    requires gap >= 1 && Tracked(c, s, p, gap, done) && InQueue(s.db, p) && Pauses(s, Move(fid, ch), gap)
    requires fid in s.flights && s.flights[fid].Postponing? && s.flights[fid].payment == p
    ensures var s' := MoveFlight(c, s, fid, ch);
      InQueue(s'.db, p) ==> fid !in s'.flights && Tracked(c, s', p, gap, done + [s.flights[fid].attempts])
  {
    var f, s' := s.flights[fid], MoveFlight(c, s, fid, ch);
    var row := s.db.payments[p];
    if InQueue(s'.db, p) {
      NextAttempt(c, gap, row.attempts);
      VisitEnds(c, s.flights, p, row.attempts, gap, done, fid);
      assert s'.flights == s.flights - {fid};
      assert s'.db.payments[p] == row.(nextAt := s.clock + ch.delay);
    }
  }

  lemma OtherMoves(c: Config, s: State, fid: nat, ch: Choice, p: nat, gap: nat, done: seq<nat>)
    requires gap >= 1 && p < |s.db.payments| && Tracked(c, s, p, gap, done) && InQueue(s.db, p)
    requires fid in s.flights && !Visiting(s.flights[fid], p)
    ensures Tracked(c, MoveFlight(c, s, fid, ch), p, gap, done)
  {
    var s' := MoveFlight(c, s, fid, ch);
    MoveKeepsRow(c, s, fid, ch, p);
    MovePerforms(c, s, fid, ch);
    NoVisitAppears(c, s, fid, ch, p);
    Timing.MoveKeepsClock(c, s, fid, ch);
    if InQueue(s'.db, p) {
      VisitsGoOn(c, s.flights, s'.flights, p, s.db.payments[p].attempts, gap, done, fid);
    }
  }

  /** A visit to one payment does not become a visit to another. */
  lemma NoVisitAppears(c: Config, s: State, fid: nat, ch: Choice, p: nat)
    requires fid in s.flights && !Visiting(s.flights[fid], p)
    ensures var s' := MoveFlight(c, s, fid, ch); fid in s'.flights ==> !Visiting(s'.flights[fid], p)
  {
    var f := s.flights[fid];
    if f.Checking? || f.Resolving? || f.Postponing? {
      VisitKeepsPayment(c, s, fid, ch, p);
    } else {
      MoveMakesNoVisit(c, s, fid, ch);
    }
  }

  lemma VisitKeepsPayment(c: Config, s: State, fid: nat, ch: Choice, p: nat)
    requires fid in s.flights && !Visiting(s.flights[fid], p)
    requires s.flights[fid].Checking? || s.flights[fid].Resolving? || s.flights[fid].Postponing?
    ensures var s' := MoveFlight(c, s, fid, ch); fid in s'.flights ==> !Visiting(s'.flights[fid], p)
  {
  }

  ghost predicate StepTracks(c: Config, s: State, step: Step, p: nat, gap: nat, done: seq<nat>)
    requires gap >= 1
  {
    var s' := Apply(c, s, step);
    InQueue(s'.db, p) ==>
      Tracked(c, s', p, gap, if Completes(c, s, step, p) then done + [s.flights[step.fid].attempts] else done)
  }

  lemma MoveTracks(c: Config, s: State, fid: nat, ch: Choice, p: nat, gap: nat, done: seq<nat>)
    requires gap >= 1 && Tracked(c, s, p, gap, done) && InQueue(s.db, p) && Pauses(s, Move(fid, ch), gap)
    requires fid in s.flights
    ensures StepTracks(c, s, Move(fid, ch), p, gap, done)
  {
    var f := s.flights[fid];
    if !Visiting(f, p) { OtherMoves(c, s, fid, ch, p, gap, done); }
    else if f.Checking? { CheckingMoves(c, s, fid, ch, p, gap, done); }
    else if f.Resolving? { ResolvingMoves(c, s, fid, ch, p, gap, done); }
    else { PostponingMoves(c, s, fid, ch, p, gap, done); }
  }

  lemma FailureTracks(c: Config, s: State, fid: nat, p: nat, gap: nat, done: seq<nat>)
    requires gap >= 1 && Tracked(c, s, p, gap, done) && InQueue(s.db, p) && fid in s.flights
    ensures StepTracks(c, s, StatementFails(fid), p, gap, done)
  {
    var f, s', attempts := s.flights[fid], Apply(c, s, StatementFails(fid)), s.db.payments[p].attempts;
    if Completes(c, s, StatementFails(fid), p) {
      VisitEnds(c, s.flights, p, attempts, gap, done, fid);
      assert s'.flights == s.flights - {fid};
    } else {
      VisitsGoOn(c, s.flights, s'.flights, p, attempts, gap, done, fid);
    }
  }

  /** The steps that neither lease nor write for the worker: its visits stay as they are, or die. */
  lemma QuietTracks(c: Config, s: State, step: Step, p: nat, gap: nat, done: seq<nat>)
    requires gap >= 1 && Tracked(c, s, p, gap, done) && InQueue(s.db, p)
    requires !step.Move? && !step.LeaseCheckStep? && !step.StatementFails?
    ensures StepTracks(c, s, step, p, gap, done)
  {
    OtherStepKeepsRows(c, s, step);
    QuietVisits(c, s, step);
  }

  lemma QuietVisits(c: Config, s: State, step: Step)
    requires !step.Move? && !step.LeaseCheckStep? && !step.StatementFails?
    ensures var s' := Apply(c, s, step);
      forall g, p | g in s'.flights && Visiting(s'.flights[g], p) :: g in s.flights && s'.flights[g] == s.flights[g]
  {
  }

  lemma OtherLeaseTracks(c: Config, s: State, fid: nat, q: nat, p: nat, gap: nat, done: seq<nat>)
    requires gap >= 1 && Tracked(c, s, p, gap, done) && InQueue(s.db, p) && q != p
    ensures StepTracks(c, s, LeaseCheckStep(fid, q), p, gap, done)
  {
  }

  lemma StepTracksVisits(c: Config, s: State, step: Step, p: nat, gap: nat, done: seq<nat>)
    requires 1 <= gap <= c.checkLease && Tracked(c, s, p, gap, done) && InQueue(s.db, p) && Pauses(s, step, gap)
    ensures StepTracks(c, s, step, p, gap, done)
  {
    match step
    case Move(fid, ch) => if fid in s.flights { MoveTracks(c, s, fid, ch, p, gap, done); }
    case StatementFails(fid) => if fid in s.flights { FailureTracks(c, s, fid, p, gap, done); }
    case LeaseCheckStep(fid, q) =>
      if q != p { OtherLeaseTracks(c, s, fid, q, p, gap, done); }
      else if fid !in s.flights && CheckDue(s.db, p, c.stuckAfter, s.clock) { LeaseKeeps(c, s, fid, p, gap, done); }
    case _ => QuietTracks(c, s, step, p, gap, done);
  }

  lemma EarlyAttempt(c: Config, s: State, step: Step, p: nat, gap: nat, done: seq<nat>)
    requires 1 <= gap <= c.checkLease && Tracked(c, s, p, gap, done) && InQueue(s.db, p) && Pauses(s, step, gap)
    requires Completes(c, s, step, p) && InQueue(Apply(c, s, step).db, p)
    ensures var a := s.flights[step.fid].attempts; a < c.checkAttempts || a <= Young(c, gap)
  {
  }

  // ----- whole runs

  lemma Prefix(c: Config, s: State, steps: seq<Step>, gap: nat)
    requires BacksOff(c, s, steps, gap) && steps != []
    ensures var init := steps[..|steps| - 1]; BacksOff(c, s, init, gap) && Pauses(Exec(c, s, init), Last(steps), gap)
  {
    var n := |steps| - 1;
    forall i | 0 <= i < n ensures Pauses(Exec(c, s, steps[..n][..i]), steps[..n][i], gap) {
      assert steps[..n][..i] == steps[..i];
    }
    assert Pauses(Exec(c, s, steps[..n]), steps[n], gap);
  }

  lemma MoveBeforeItIsThere(c: Config, s: State, fid: nat, ch: Choice, p: nat)
    requires fid in s.flights && p >= |s.db.payments| && forall g | g in s.flights :: !Visiting(s.flights[g], p)
    ensures var s' := MoveFlight(c, s, fid, ch);
      && (forall g | g in s'.flights :: !Visiting(s'.flights[g], p))
      && (p < |s'.db.payments| ==> s'.db.payments[p].attempts == 0)
  {
    var s' := MoveFlight(c, s, fid, ch);
    MovePerforms(c, s, fid, ch);
    NoVisitAppears(c, s, fid, ch, p);
    forall g | g in s'.flights ensures !Visiting(s'.flights[g], p) {
      if g != fid {
        assert g in s'.flights - {fid} && g in s.flights - {fid};
        assert (s'.flights - {fid})[g] == s'.flights[g] && (s.flights - {fid})[g] == s.flights[g];
      }
    }
  }

  /** Until the payment is there nobody visits it. */
  lemma BeforeItIsThere(c: Config, s: State, step: Step, p: nat)
    requires p >= |s.db.payments| && forall g | g in s.flights :: !Visiting(s.flights[g], p)
    ensures var s' := Apply(c, s, step);
      && (forall g | g in s'.flights :: !Visiting(s'.flights[g], p))
      && (p < |s'.db.payments| ==> s'.db.payments[p].attempts == 0)
  {
    match step
    case Move(fid, ch) => if fid in s.flights { MoveBeforeItIsThere(c, s, fid, ch, p); }
    case LeaseCheckStep(_, _) =>
    case StatementFails(_) =>
    case _ =>
      OtherStepKeepsRows(c, s, step);
      QuietVisits(c, s, step);
  }

  lemma {:induction false} RunTracks(c: Config, s: State, steps: seq<Step>, p: nat, gap: nat)
    requires Inv(s) && 1 <= gap <= c.checkLease && Tracked(c, s, p, gap, []) && BacksOff(c, s, steps, gap)
    ensures p >= |Exec(c, s, steps).db.payments| || InQueue(Exec(c, s, steps).db, p) ==>
              Tracked(c, Exec(c, s, steps), p, gap, Completed(c, s, steps, p))
  {
    if steps != [] {
      var init, step := steps[..|steps| - 1], Last(steps);
      var before := Exec(c, s, init);
      Prefix(c, s, steps, gap);
      RunTracks(c, s, init, p, gap);
      RunKeeps(c, s, init);
      NextTracks(c, before, step, p, gap, Completed(c, s, init, p));
      assert Completed(c, s, init, p) + [] == Completed(c, s, init, p);
    }
  }

  lemma NextTracks(c: Config, s: State, step: Step, p: nat, gap: nat, done: seq<nat>)
    requires Inv(s) && 1 <= gap <= c.checkLease && Pauses(s, step, gap)
    requires p >= |s.db.payments| || InQueue(s.db, p) ==> Tracked(c, s, p, gap, done)
    ensures var s' := Apply(c, s, step);
      p >= |s'.db.payments| || InQueue(s'.db, p) ==>
        Tracked(c, s', p, gap, if Completes(c, s, step, p) then done + [s.flights[step.fid].attempts] else done)
  {
    if p >= |s.db.payments| {
      BeforeItIsThere(c, s, step, p);
    } else {
      StepKeeps(c, s, step);
      if InQueue(s.db, p) { StepTracksVisits(c, s, step, p, gap, done); } else { LeftForGood(c, s, step, p); }
    }
  }

  lemma {:induction false} DistinctFits(s: seq<nat>, n: nat)
    requires forall i | 0 <= i < |s| :: 1 <= s[i] <= n
    requires forall i, j | 0 <= i < j < |s| :: s[i] != s[j]
    ensures |s| <= n
  {
    if s != [] {
      assert 1 <= s[0] <= n;
      if n in s {
        var i :| 0 <= i < |s| && s[i] == n;
        DistinctFits(s[..i] + s[i + 1..], n - 1);
      } else {
        DistinctFits(s, n - 1);
      }
    }
  }

  /** In every run from the start, with any overlaps of visits, leases taken over, crashes, lost replies and failed
      writes but that of the mark for manual review: a payment still queued has had at most so many
      completed visits. */
  lemma {:induction false} QueueIsLeft(c: Config, products: map<int, Product>, steps: seq<Step>, p: nat, gap: nat)
    requires (forall q | q in products :: products[q].stock >= 0) && 1 <= gap <= c.checkLease
    requires BacksOff(c, Init(products), steps, gap)
    ensures InQueue(Exec(c, Init(products), steps).db, p) ==> |Completed(c, Init(products), steps, p)| <= Bound(c, gap)
  {
    RunTracks(c, Init(products), steps, p, gap);
    if InQueue(Exec(c, Init(products), steps).db, p) {
      DistinctFits(Completed(c, Init(products), steps, p), Bound(c, gap));
    }
  }

  /** In every run, a completed visit that leaves the payment queued was short of the attempt limit, or came too early
      to expire it. */
  lemma {:induction false} StayingIsEarly(c: Config, products: map<int, Product>, steps: seq<Step>, step: Step, p: nat,
                                          gap: nat)
    requires (forall q | q in products :: products[q].stock >= 0) && 1 <= gap <= c.checkLease
    requires BacksOff(c, Init(products), steps + [step], gap)
    requires var s := Exec(c, Init(products), steps);
      Completes(c, s, step, p) && InQueue(Apply(c, s, step).db, p)
    ensures var a := Exec(c, Init(products), steps).flights[step.fid].attempts;
      a < c.checkAttempts || a <= Young(c, gap)
  {
    var s := Exec(c, Init(products), steps);
    assert (steps + [step])[..|steps|] == steps;
    Prefix(c, Init(products), steps + [step], gap);
    RunKeeps(c, Init(products), steps);
    RunTracks(c, Init(products), steps, p, gap);
    assert Visiting(s.flights[step.fid], p);
    if p < |s.db.payments| && !InQueue(s.db, p) { LeftForGood(c, s, step, p); }
    EarlyAttempt(c, s, step, p, gap, Completed(c, Init(products), steps, p));
  }

  /** Every pause is the one the worker computes. */
  ghost predicate AsComputed(c: Config, s: State, steps: seq<Step>) {
    forall i | 0 <= i < |steps| :: PausesAsComputed(Exec(c, s, steps[..i]), steps[i])
  }

  predicate PausesAsComputed(s: State, step: Step) {
    step.Move? && step.fid in s.flights && s.flights[step.fid].Postponing? && s.flights[step.fid].attempts >= 1 ==>
      step.choice.delay == Delay(CHECK_BASE, CHECK_CAP, s.flights[step.fid].attempts)
  }

  /** As shipped (2min, 15min, 30s lease, 10 attempts, pauses doubling from 10s to 5min on 64-bit words): in every
      run at most 78 completed visits leave a payment in the queue. */
  lemma {:induction false} ShippedQueueIsLeft(c: Config, products: map<int, Product>, steps: seq<Step>, p: nat)
    requires forall q | q in products :: products[q].stock >= 0
    requires c.stuckAfter == 120 * SECOND && c.expireAfter == 900 * SECOND && c.checkLease == 30 * SECOND
    requires c.checkAttempts == 10
    requires AsComputed(c, Init(products), steps)
    ensures InQueue(Exec(c, Init(products), steps).db, p) ==> |Completed(c, Init(products), steps, p)| <= 78
  {
    forall i | 0 <= i < |steps| ensures Pauses(Exec(c, Init(products), steps[..i]), steps[i], CHECK_BASE) {
      var s := Exec(c, Init(products), steps[..i]);
      assert PausesAsComputed(s, steps[i]);
      if steps[i].Move? && steps[i].fid in s.flights && s.flights[steps[i].fid].Postponing?
          && s.flights[steps[i].fid].attempts >= 1 {
        DelayIsAtLeastTheBase(s.flights[steps[i].fid].attempts);
      }
    }
    QueueIsLeft(c, products, steps, p, CHECK_BASE);
  }

  lemma DelayIsAtLeastTheBase(attempts: nat)
    requires attempts >= 1
    ensures Delay(CHECK_BASE, CHECK_CAP, attempts) >= CHECK_BASE
  {
    CheckDelay(attempts);
    AtLeastFactor(Pow2(attempts - 1), CHECK_BASE);
    assert CHECK_BASE * Pow2(attempts - 1) == Pow2(attempts - 1) * CHECK_BASE;
  }
}
