/** The deployed system that Pay, the workers and the job run in: our tables, the provider, and the calls
    in progress, with everybody else acting between any two statements. */
module Deployment {
  import opened Tables
  import opened Protocol
  import opened Effects
  import opened Store

  /** The deployed system: our tables, the provider, the clock and the calls in progress. */
  class System {
    const c: Config
    const db: Database
    const provider: FakeProvider
    var clock: nat
    var flights: map<nat, Flight>

    constructor (c: Config, products: map<int, Product>)
      ensures View() == Init(products) && fresh(db) && fresh(provider) && this.c == c
    {
      this.c := c;
      db := new Database(products);
      provider := new FakeProvider();
      clock, flights := 0, map[];
    }

    function View(): State
      reads this, db, provider
    {
      State(db.View(), provider.View(), clock, flights)
    }

    /** Whatever the others do meanwhile. */
    method Meanwhile(steps: seq<Step>)
      modifies this, db, provider
      ensures View() == Exec(c, old(View()), steps)
    {
      var s := Exec(c, View(), steps);
      db.products, db.orders, db.created := s.db.products, s.db.orders, s.db.created;
      db.payments, db.refunds, db.events := s.db.payments, s.db.refunds, s.db.events;
      provider.charges, provider.sent, provider.down := s.journal.charges, s.journal.sent, s.journal.down;
      clock, flights := s.clock, s.flights;
    }
  }

  /** A step of some other call than `fid`. */
  predicate Foreign(step: Step, fid: nat) {
    match step
    case Pay(g, _, _) => g != fid
    case LeaseRefundStep(g, _) => g != fid
    case LeaseCheckStep(g, _) => g != fid
    case ListCharges(g, _) => g != fid
    case Move(g, _) => g != fid
    case StatementFails(g) => g != fid
    case Crash(g, _) => g != fid
    case _ => true
  }

  predicate AllForeign(steps: seq<Step>, fid: nat) {
    forall i | 0 <= i < |steps| :: Foreign(steps[i], fid)
  }

  ghost predicate SameFlight(s: State, s': State, fid: nat) {
    (fid in s'.flights <==> fid in s.flights) && (fid in s.flights ==> s'.flights[fid] == s.flights[fid])
  }

  lemma ForeignStepKeepsFlight(c: Config, s: State, step: Step, fid: nat)
    requires Foreign(step, fid)
    ensures SameFlight(s, Apply(c, s, step), fid)
  {
    if !step.Move? {
      OthersKeepFlight(c, s, step, fid);
    } else if step.fid in s.flights {
      MovePerforms(c, s, step.fid, step.choice);
      OutsideKept(s, MoveFlight(c, s, step.fid, step.choice), step.fid, fid);
    }
  }

  lemma OutsideKept(s: State, s': State, g: nat, fid: nat)
    requires s'.flights - {g} == s.flights - {g} && fid != g
    ensures SameFlight(s, s', fid)
  {
    if fid in s.flights {
      assert (s.flights - {g})[fid] == s.flights[fid];
    }
    if fid in s'.flights {
      assert fid in s'.flights - {g};
    }
  }

  lemma OthersKeepFlight(c: Config, s: State, step: Step, fid: nat)
    requires Foreign(step, fid) && !step.Move?
    ensures SameFlight(s, Apply(c, s, step), fid)
  {
  }

  lemma {:induction false} ForeignRunKeepsFlight(c: Config, s: State, steps: seq<Step>, fid: nat)
    requires AllForeign(steps, fid)
    ensures SameFlight(s, Exec(c, s, steps), fid)
  {
    if steps != [] {
      var init := steps[..|steps| - 1];
      ForeignRunKeepsFlight(c, s, init, fid);
      ForeignStepKeepsFlight(c, Exec(c, s, init), Last(steps), fid);
    }
  }

  lemma ExecThen(c: Config, s: State, steps: seq<Step>, step: Step)
    ensures Exec(c, s, steps + [step]) == Apply(c, Exec(c, s, steps), step)
  {
    assert (steps + [step])[..|steps|] == steps;
  }

  // ----- what one call does in a run

  /** One statement of a call, and the state it met. */
  datatype Act = Act(at: State, step: Step)

  /** The steps of the call `fid`, in order. */
  function Acts(c: Config, s: State, steps: seq<Step>, fid: nat): seq<Act> {
    if steps == [] then []
    else
      var init := steps[..|steps| - 1];
      Acts(c, s, init, fid) + (if Foreign(Last(steps), fid) then [] else [Act(Exec(c, s, init), Last(steps))])
  }

  lemma {:induction false} ActsAppend(c: Config, s: State, a: seq<Step>, b: seq<Step>, fid: nat)
    ensures Acts(c, s, a + b, fid) == Acts(c, s, a, fid) + Acts(c, Exec(c, s, a), b, fid)
  {
    if b == [] {
      assert a + b == a;
    } else {
      var init := b[..|b| - 1];
      ActsAppend(c, s, a, init, fid);
      ExecAppend(c, s, a, init);
      assert (a + b)[..|a + b| - 1] == a + init;
      assert (a + b)[|a + b| - 1] == b[|b| - 1];
    }
  }

  lemma {:induction false} OthersDoNotAct(c: Config, s: State, steps: seq<Step>, fid: nat)
    requires AllForeign(steps, fid)
    ensures Acts(c, s, steps, fid) == []
  {
    if steps != [] {
      OthersDoNotAct(c, s, steps[..|steps| - 1], fid);
      assert Foreign(steps[|steps| - 1], fid);
    }
  }

  /** Others first, then one statement of the call. */
  lemma OneAct(c: Config, s: State, others: seq<Step>, step: Step, fid: nat)
    requires AllForeign(others, fid) && !Foreign(step, fid)
    ensures Acts(c, s, others + [step], fid) == [Act(Exec(c, s, others), step)]
  {
    OthersDoNotAct(c, s, others, fid);
    assert (others + [step])[..|others|] == others;
  }

  /** A stretch of the run made by one call. */
  ghost predicate Stretch(c: Config, s: State, steps: seq<Step>, s': State) {
    s' == Exec(c, s, steps)
  }

  /** Others use call ids below `base`; the worker's own start there. */
  predicate Below(steps: seq<Step>, base: nat) {
    forall i | 0 <= i < |steps| :: StepBelow(steps[i], base)
  }

  predicate StepBelow(step: Step, base: nat) {
    match step
    case Pay(g, _, _) => g < base
    case LeaseRefundStep(g, _) => g < base
    case LeaseCheckStep(g, _) => g < base
    case ListCharges(g, _) => g < base
    case Move(g, _) => g < base
    case StatementFails(g) => g < base
    case Crash(g, _) => g < base
    case _ => true
  }

  lemma BelowIsForeign(steps: seq<Step>, base: nat, fid: nat)
    requires Below(steps, base) && fid >= base
    ensures AllForeign(steps, fid)
  {
    forall i | 0 <= i < |steps| ensures Foreign(steps[i], fid) { assert StepBelow(steps[i], base); }
  }

  /** A stretch in which the only id from `base` upwards is `fid`. */
  ghost predicate OwnSteps(steps: seq<Step>, base: nat, fid: nat) {
    forall g: nat | g >= base && g != fid :: AllForeign(steps, g)
  }

  lemma OwnStepsAppend(a: seq<Step>, b: seq<Step>, base: nat, fid: nat)
    requires OwnSteps(a, base, fid) && OwnSteps(b, base, fid)
    ensures OwnSteps(a + b, base, fid)
  {
    forall g: nat | g >= base && g != fid ensures AllForeign(a + b, g) {
      assert AllForeign(a, g) && AllForeign(b, g);
    }
  }
}
