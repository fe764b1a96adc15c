/** Completed visits of the stuck-payment worker in whole runs: what the status check behind each of them found. */
module StuckVisits {
  import opened Domain
  import opened Tables
  import opened Protocol
  import opened Invariant
  import opened Runs
  import opened Deployment
  import opened WorkerVisits
  import StuckQueue

  /** The n-th step of the run is the status check of this visit. */
  ghost predicate ChecksAt(c: Config, s: State, steps: seq<Step>, n: nat, fid: nat, p: nat, attempts: nat) {
    && n < |steps| && steps[n].Move? && steps[n].fid == fid
    && var at := Exec(c, s, steps[..n]);
       && fid in at.flights && at.flights[fid].Checking?
       && at.flights[fid].payment == p && at.flights[fid].attempts == attempts
  }

  ghost function VerdictAt(c: Config, s: State, steps: seq<Step>, n: nat, fid: nat): Verdict
    requires n < |steps| && fid in Exec(c, s, steps[..n]).flights && Exec(c, s, steps[..n]).flights[fid].Checking?
  {
    VerdictOf(c, Act(Exec(c, s, steps[..n]), steps[n]), Exec(c, s, steps[..n]).flights[fid])
  }

  /** The n-th step is a record of this visit that does not go through: it fails, or its commit is not heard. */
  ghost predicate RecordFailsAt(c: Config, s: State, steps: seq<Step>, n: nat, fid: nat, p: nat, attempts: nat) {
    && n < |steps|
    && (steps[n] == StatementFails(fid) || (steps[n].Move? && steps[n].fid == fid && steps[n].choice.lost))
    && var at := Exec(c, s, steps[..n]);
       && fid in at.flights && at.flights[fid].Resolving?
       && at.flights[fid].payment == p && at.flights[fid].attempts == attempts
  }

  /** Why a visit is where it is: an outcome about to be recorded is what its check found; a further check without
      a count comes from a check that found nothing and came too early; a counted one from an unclear answer or a
      record that failed; and parking from a missing key. */
  ghost predicate Explained(c: Config, s: State, steps: seq<Step>, fid: nat, f: Flight) {
    match f
    case Resolving(p, to, charge, attempts) =>
      exists n :: ChecksAt(c, s, steps, n, fid, p, attempts) && VerdictAt(c, s, steps, n, fid) == Decided(to, charge)
    case Postponing(p, attempts, counted) =>
      if counted then
        || (exists n :: ChecksAt(c, s, steps, n, fid, p, attempts) && VerdictAt(c, s, steps, n, fid) == Unclear)
        || (exists n :: RecordFailsAt(c, s, steps, n, fid, p, attempts))
      else exists n :: ChecksAt(c, s, steps, n, fid, p, attempts) && VerdictAt(c, s, steps, n, fid) == Early
    case _ => true
  }

  ghost predicate AllExplained(c: Config, s: State, steps: seq<Step>) {
    forall fid | fid in Exec(c, s, steps).flights :: Explained(c, s, steps, fid, Exec(c, s, steps).flights[fid])
  }

  // ----- step by step

  lemma SamePrefix(c: Config, s: State, init: seq<Step>, step: Step, n: nat)
    requires n < |init|
    ensures (init + [step])[n] == init[n] && (init + [step])[..n] == init[..n]
  {
  }

  lemma ExplainedStays(c: Config, s: State, init: seq<Step>, step: Step, fid: nat, f: Flight)
    requires Explained(c, s, init, fid, f)
    ensures Explained(c, s, init + [step], fid, f)
  {
    forall n: nat | n < |init| ensures (init + [step])[n] == init[n] && (init + [step])[..n] == init[..n] {
      SamePrefix(c, s, init, step, n);
    }
    match f
    case Resolving(p, to, charge, attempts) =>
      var n :| ChecksAt(c, s, init, n, fid, p, attempts) && VerdictAt(c, s, init, n, fid) == Decided(to, charge);
      assert ChecksAt(c, s, init + [step], n, fid, p, attempts);
    case Postponing(p, attempts, counted) =>
      if n :| ChecksAt(c, s, init, n, fid, p, attempts)
              && VerdictAt(c, s, init, n, fid) == (if counted then Unclear else Early) {
        assert ChecksAt(c, s, init + [step], n, fid, p, attempts);
      } else {
        var n :| RecordFailsAt(c, s, init, n, fid, p, attempts);
        assert RecordFailsAt(c, s, init + [step], n, fid, p, attempts);
      }
    case _ =>
  }

  /** A check leads where its verdict says. */
  lemma CheckLeads(c: Config, s: State, fid: nat, ch: Choice)
    requires fid in s.flights && s.flights[fid].Checking?
    ensures var f := s.flights[fid];
      Apply(c, s, Move(fid, ch)) == Put(s, fid,
        match VerdictOf(c, Act(s, Move(fid, ch)), f)
        case NoKey => Parking(f.payment)
        case Unclear => Postponing(f.payment, f.attempts, true)
        case Early => Postponing(f.payment, f.attempts, false)
        case Decided(to, charge) => Resolving(f.payment, to, charge, f.attempts))
  {
  }

  /** A record that does not end the visit has failed. */
  lemma RecordLeads(c: Config, s: State, fid: nat, ch: Choice)
    requires Inv(s) && fid in s.flights && s.flights[fid].Resolving?
    ensures var f, s' := s.flights[fid], Apply(c, s, Move(fid, ch));
      fid in s'.flights ==> ch.lost && s'.flights[fid] == Postponing(f.payment, f.attempts, true)
  {
    var f := s.flights[fid];
    assert FlightOk(s.db, s.journal, f);
    PendingIsOpen(s, f.payment);
  }

  lemma FailureLeads(c: Config, s: State, fid: nat)
    requires fid in s.flights && fid in Apply(c, s, StatementFails(fid)).flights
    ensures var f, g := s.flights[fid], Apply(c, s, StatementFails(fid)).flights[fid];
      g == f || (f.Resolving? && g == Postponing(f.payment, f.attempts, true))
  {
  }

  lemma CheckedNow(c: Config, s: State, init: seq<Step>, fid: nat, ch: Choice)
    requires var at := Exec(c, s, init); fid in at.flights && at.flights[fid].Checking?
    ensures var steps := init + [Move(fid, ch)]; var s' := Exec(c, s, steps);
      fid in s'.flights && Explained(c, s, steps, fid, s'.flights[fid])
  {
    var at, steps := Exec(c, s, init), init + [Move(fid, ch)];
    var f := at.flights[fid];
    CheckLeads(c, at, fid, ch);
    ExecThen(c, s, init, Move(fid, ch));
    assert steps[..|init|] == init;
    assert ChecksAt(c, s, steps, |init|, fid, f.payment, f.attempts);
  }

  lemma FailedNow(c: Config, s: State, init: seq<Step>, step: Step, fid: nat)
    requires var at := Exec(c, s, init); fid in at.flights && at.flights[fid].Resolving?
    requires step == StatementFails(fid) || (step.Move? && step.fid == fid && step.choice.lost)
    ensures var f := Exec(c, s, init).flights[fid];
      Explained(c, s, init + [step], fid, Postponing(f.payment, f.attempts, true))
  {
    var f := Exec(c, s, init).flights[fid];
    assert (init + [step])[..|init|] == init;
    assert RecordFailsAt(c, s, init + [step], |init|, fid, f.payment, f.attempts);
  }

  lemma OwnMoveExplained(c: Config, s: State, init: seq<Step>, fid: nat, ch: Choice)
    requires Inv(Exec(c, s, init)) && AllExplained(c, s, init)
    requires fid in Exec(c, s, init).flights && fid in Exec(c, s, init + [Move(fid, ch)]).flights
    ensures Explained(c, s, init + [Move(fid, ch)], fid, Exec(c, s, init + [Move(fid, ch)]).flights[fid])
  {
    var at := Exec(c, s, init);
    ExecThen(c, s, init, Move(fid, ch));
    if at.flights[fid].Checking? {
      CheckedNow(c, s, init, fid, ch);
    } else if at.flights[fid].Resolving? {
      RecordLeads(c, at, fid, ch);
      FailedNow(c, s, init, Move(fid, ch), fid);
    } else {
      LeadsNowhere(c, at, fid, ch);
    }
  }

  lemma LeadsNowhere(c: Config, s: State, fid: nat, ch: Choice)
    requires fid in s.flights && !s.flights[fid].Checking? && !s.flights[fid].Resolving?
    ensures var s' := Apply(c, s, Move(fid, ch));
      fid in s'.flights ==> !s'.flights[fid].Resolving? && !s'.flights[fid].Postponing?
  {
  }

  /** A step that begins a call or ends it makes no visit that would need an explanation. */
  lemma OtherOwnStep(c: Config, s: State, step: Step, fid: nat)
    requires !Foreign(step, fid) && !step.Move? && !step.StatementFails? && fid in Apply(c, s, step).flights
    ensures var g := Apply(c, s, step).flights[fid];
      (g.Resolving? || g.Postponing?) ==> fid in s.flights && s.flights[fid] == g
  {
  }

  lemma StepExplains(c: Config, s: State, init: seq<Step>, step: Step, fid: nat)
    requires Inv(Exec(c, s, init)) && AllExplained(c, s, init) && fid in Exec(c, s, init + [step]).flights
    ensures Explained(c, s, init + [step], fid, Exec(c, s, init + [step]).flights[fid])
  {
    var at, s' := Exec(c, s, init), Exec(c, s, init + [step]);
    ExecThen(c, s, init, step);
    if Foreign(step, fid) {
      ForeignStepKeepsFlight(c, at, step, fid);
      ExplainedStays(c, s, init, step, fid, at.flights[fid]);
    } else if step.Move? {
      if fid in at.flights { OwnMoveExplained(c, s, init, fid, step.choice); }
    } else if step.StatementFails? {
      if fid in at.flights { FailureExplained(c, s, init, fid); }
    } else {
      OtherOwnStep(c, at, step, fid);
      if s'.flights[fid].Resolving? || s'.flights[fid].Postponing? {
        ExplainedStays(c, s, init, step, fid, at.flights[fid]);
      }
    }
  }

  lemma FailureExplained(c: Config, s: State, init: seq<Step>, fid: nat)
    requires AllExplained(c, s, init) && fid in Exec(c, s, init).flights
    requires fid in Exec(c, s, init + [StatementFails(fid)]).flights
    ensures Explained(c, s, init + [StatementFails(fid)], fid, Exec(c, s, init + [StatementFails(fid)]).flights[fid])
  {
    var at := Exec(c, s, init);
    ExecThen(c, s, init, StatementFails(fid));
    FailureLeads(c, at, fid);
    if Exec(c, s, init + [StatementFails(fid)]).flights[fid] == at.flights[fid] {
      ExplainedStays(c, s, init, StatementFails(fid), fid, at.flights[fid]);
    } else {
      FailedNow(c, s, init, StatementFails(fid), fid);
    }
  }

  lemma {:induction false} RunExplains(c: Config, products: map<int, Product>, steps: seq<Step>)
    requires forall q | q in products :: products[q].stock >= 0
    ensures AllExplained(c, Init(products), steps)
  {
    if steps != [] {
      var init := steps[..|steps| - 1];
      RunExplains(c, products, init);
      RunKeeps(c, Init(products), init);
      assert init + [Last(steps)] == steps;
      forall fid | fid in Exec(c, Init(products), steps).flights
        ensures Explained(c, Init(products), steps, fid, Exec(c, Init(products), steps).flights[fid])
      {
        StepExplains(c, Init(products), init, Last(steps), fid);
      }
    }
  }

  // ----- whole runs

  /** In every run: a completed visit that leaves its payment queued had an unclear answer, found nothing too early, or
      its record failed. */
  lemma {:induction false} StaysQueuedOnlyIf(c: Config, products: map<int, Product>, steps: seq<Step>, step: Step,
                                             p: nat)
    requires forall q | q in products :: products[q].stock >= 0
    requires var s := Exec(c, Init(products), steps);
      StuckQueue.Completes(c, s, step, p) && StuckQueue.InQueue(Apply(c, s, step).db, p)
    ensures var s0 := Init(products); var f := Exec(c, s0, steps).flights[step.fid];
      || (exists n :: && ChecksAt(c, s0, steps, n, step.fid, p, f.attempts)
                      && (VerdictAt(c, s0, steps, n, step.fid) == Unclear
                          || VerdictAt(c, s0, steps, n, step.fid) == Early))
      || (exists n :: RecordFailsAt(c, s0, steps, n, step.fid, p, f.attempts))
  {
    var s := Exec(c, Init(products), steps);
    RunExplains(c, products, steps);
    RunKeeps(c, Init(products), steps);
    assert Explained(c, Init(products), steps, step.fid, s.flights[step.fid]);
    if s.flights[step.fid].Resolving? { ResolvedLeaves(c, s, step, p); }
  }

  lemma ResolvedLeaves(c: Config, s: State, step: Step, p: nat)
    requires Inv(s) && StuckQueue.Completes(c, s, step, p) && s.flights[step.fid].Resolving?
    ensures !StuckQueue.InQueue(Apply(c, s, step).db, p)
  {
    assert FlightOk(s.db, s.journal, s.flights[step.fid]);
    PendingIsOpen(s, p);
  }

  /** In every run: the record of a visit that is heard takes a payment that is still pending to the outcome its check
      found: succeeded with the charge the provider had under its key, failed if it had declined, expired if it had
      nothing. */
  lemma {:induction false} RecordsWhatWasFound(c: Config, products: map<int, Product>, steps: seq<Step>, fid: nat,
                                               ch: Choice)
    requires forall q | q in products :: products[q].stock >= 0
    requires var s := Exec(c, Init(products), steps);
      && fid in s.flights && s.flights[fid].Resolving? && s.flights[fid].payment < |s.db.payments|
      && s.db.payments[s.flights[fid].payment].status == Pending
    ensures var s0 := Init(products); var s := Exec(c, s0, steps);
      var f, after := s.flights[fid], Apply(c, s, Move(fid, ch)).db.payments;
      && f.payment < |after|
      && exists n, to, charge ::
           && ChecksAt(c, s0, steps, n, fid, f.payment, f.attempts)
           && VerdictAt(c, s0, steps, n, fid) == Decided(to, charge)
           && after[f.payment].status == to && (charge.Some? ==> after[f.payment].charge == charge)
  {
    var s0 := Init(products);
    var s := Exec(c, s0, steps);
    var f := s.flights[fid];
    RunExplains(c, products, steps);
    RunKeeps(c, s0, steps);
    assert Explained(c, s0, steps, fid, f);
    RecordMoves(c, s, fid, ch);
    var n :| ChecksAt(c, s0, steps, n, fid, f.payment, f.attempts)
             && VerdictAt(c, s0, steps, n, fid) == Decided(f.to, f.charge);
  }

  lemma RecordMoves(c: Config, s: State, fid: nat, ch: Choice)
    requires Inv(s) && fid in s.flights && s.flights[fid].Resolving? && s.flights[fid].payment < |s.db.payments|
    requires s.db.payments[s.flights[fid].payment].status == Pending
    ensures var f, after := s.flights[fid], Apply(c, s, Move(fid, ch)).db.payments;
      && f.payment < |after| && after[f.payment].status == f.to
      && (f.charge.Some? ==> after[f.payment].charge == f.charge)
  {
    assert FlightOk(s.db, s.journal, s.flights[fid]);
    PendingIsOpen(s, s.flights[fid].payment);
  }
}
