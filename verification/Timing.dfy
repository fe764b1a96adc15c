/** When things happened: a payment is created before its charge, and both before now. */
module Timing {
  import opened Tables
  import opened Protocol
  import opened Effects
  import opened Invariant
  import opened Runs

  ghost predicate TimesOk(s: State) {
    && (forall p | 0 <= p < |s.db.payments| :: s.db.payments[p].createdAt <= s.clock)
    && (forall k | 0 <= k < |s.journal.charges| :: s.journal.charges[k].at <= s.clock)
    && (forall k, p | 0 <= k < |s.journal.charges| && 0 <= p < |s.db.payments| ::
          s.journal.charges[k].key == s.db.payments[p].key ==> s.db.payments[p].createdAt <= s.journal.charges[k].at)
  }

  lemma MoveKeepsClock(c: Config, s: State, fid: nat, ch: Choice)
    requires fid in s.flights
    ensures MoveFlight(c, s, fid, ch).clock == s.clock
  {
  }

  lemma ClockGrows(c: Config, s: State, step: Step)
    ensures s.clock <= Apply(c, s, step).clock
  {
    if step.Move? && step.fid in s.flights { MoveKeepsClock(c, s, step.fid, step.choice); }
  }

  /** A payment that a step adds is created now. */
  lemma NewPaymentIsOfNow(c: Config, s: State, step: Step, p: nat)
    requires |s.db.payments| <= p < |Apply(c, s, step).db.payments|
    ensures Apply(c, s, step).db.payments[p].createdAt == s.clock
    ensures Apply(c, s, step).journal.charges == s.journal.charges
  {
    if !step.Move? {
      OtherStepFrame(c, s, step);
    } else if step.fid in s.flights {
      MovePerforms(c, s, step.fid, step.choice);
    }
  }

  /** A charge that a step adds is made now, and no payment is touched. */
  lemma NewChargeIsOfNow(c: Config, s: State, step: Step, k: nat)
    requires |s.journal.charges| <= k < |Apply(c, s, step).journal.charges|
    ensures Apply(c, s, step).journal.charges[k].at == s.clock
    ensures Apply(c, s, step).db.payments == s.db.payments
  {
    if !step.Move? {
      OtherStepFrame(c, s, step);
    } else if step.fid in s.flights {
      MovePerforms(c, s, step.fid, step.choice);
      assert s.flights[step.fid].Charging?;
    }
  }

  /** A payment made by this step was not charged before. */
  lemma NewKeyIsUncharged(c: Config, s: State, step: Step, p: nat, k: nat)
    requires Inv(s) && |s.db.payments| <= p < |Apply(c, s, step).db.payments| && k < |s.journal.charges|
    ensures Apply(c, s, step).db.payments[p].key != s.journal.charges[k].key
  {
    StepKeeps(c, s, step);
    var s' := Apply(c, s, step);
    assert ChargeRow(s.db, s.journal.charges[k]);
    var q := FindPayment(s.db.payments, s.journal.charges[k].key).value;
    assert PaymentGrows(s.db.payments[q], s'.db.payments[q]);
    assert UniquePaymentKeys(s'.db.payments);
  }

  lemma StepKeepsTimes(c: Config, s: State, step: Step)
    requires Inv(s) && TimesOk(s)
    ensures TimesOk(Apply(c, s, step))
  {
    var s' := Apply(c, s, step);
    StepKeeps(c, s, step);
    ClockGrows(c, s, step);
    forall p | 0 <= p < |s'.db.payments| ensures s'.db.payments[p].createdAt <= s'.clock {
      if p < |s.db.payments| { assert PaymentGrows(s.db.payments[p], s'.db.payments[p]); }
      else { NewPaymentIsOfNow(c, s, step, p); }
    }
    forall k | 0 <= k < |s'.journal.charges| ensures s'.journal.charges[k].at <= s'.clock {
      if k >= |s.journal.charges| { NewChargeIsOfNow(c, s, step, k); }
    }
    forall k, p | 0 <= k < |s'.journal.charges| && 0 <= p < |s'.db.payments|
        && s'.journal.charges[k].key == s'.db.payments[p].key
      ensures s'.db.payments[p].createdAt <= s'.journal.charges[k].at
    {
      PairKeepsTimes(c, s, step, k, p);
    }
  }

  lemma PairKeepsTimes(c: Config, s: State, step: Step, k: nat, p: nat)
    requires Inv(s) && TimesOk(s)
    requires var s' := Apply(c, s, step);
      && k < |s'.journal.charges| && p < |s'.db.payments| && s'.journal.charges[k].key == s'.db.payments[p].key
      && s.journal.charges <= s'.journal.charges
    requires p < |s.db.payments| ==> PaymentGrows(s.db.payments[p], Apply(c, s, step).db.payments[p])
    ensures var s' := Apply(c, s, step); s'.db.payments[p].createdAt <= s'.journal.charges[k].at
  {
    if k >= |s.journal.charges| {
      NewChargeIsOfNow(c, s, step, k);
    } else if p >= |s.db.payments| {
      NewKeyIsUncharged(c, s, step, p, k);
    }
  }

  lemma {:induction false} RunKeepsTimes(c: Config, s: State, steps: seq<Step>)
    requires Inv(s) && TimesOk(s)
    ensures TimesOk(Exec(c, s, steps))
  {
    if steps != [] {
      var init := steps[..|steps| - 1];
      RunKeepsTimes(c, s, init);
      RunKeeps(c, s, init);
      StepKeepsTimes(c, Exec(c, s, init), Last(steps));
    }
  }

  /** In every reachable state a payment was created no later than its charge, and no charge lies ahead. */
  lemma ReachableTimes(c: Config, s: State)
    requires Reachable(c, s)
    ensures TimesOk(s)
  {
    var products: map<int, Product>, steps :|
      (forall p | p in products :: products[p].stock >= 0) && s == Exec(c, Init(products), steps);
    RunKeepsTimes(c, Init(products), steps);
  }
}
