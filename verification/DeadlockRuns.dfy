/** Deadlocks said of the calls alone: runs that never have one, and exactly the pairs of calls that can. */
module DeadlockRuns {
  import opened Domain
  import opened Tables
  import opened RowLocks
  import opened LockInvariant
  import opened LockRefinement
  import opened Deadlock

  // ----- runs without a deadlock

  ghost predicate Ascending(plan: seq<int>) {
    forall i, j | 0 <= i < j < |plan| :: plan[i] < plan[j]
  }

  /** Every cancel visits its products in ascending order. */
  ghost predicate AscendingPlans(steps: seq<Step>) {
    forall i | 0 <= i < |steps| :: steps[i].Next? ==> Ascending(steps[i].plan)
  }

  /** A request for a new payment, and a payment moved to succeeded, on one order or under one key. */
  predicate Meets(db: Db, a: Call, b: Call) {
    && a.StartCall? && b.TransitionCall? && b.to == Succeeded && b.payment < |db.payments|
    && var p := db.payments[b.payment]; p.order == a.order || (a.key != "" && p.key == a.key)
  }

  ghost predicate NoMeeting(db: Db, steps: seq<Step>) {
    forall i, j | 0 <= i < |steps| && 0 <= j < |steps| && steps[i].Begin? && steps[j].Begin? ::
      !Meets(db, steps[i].call, steps[j].call)
  }

  ghost predicate PlansOk(e: Engine) {
    forall id | id in e.txs && e.txs[id].at.CancelStock? :: PlanInOrder(e.txs[id].at)
  }

  ghost predicate PlanInOrder(at: At)
    requires at.CancelStock?
  {
    Ascending(at.todo) && forall p, i | p in at.held && 0 <= i < |at.todo| :: p < at.todo[i]
  }

  ghost predicate CallsBegun(e: Engine, steps: seq<Step>) {
    forall id | id in e.txs :: exists i | 0 <= i < |steps| :: steps[i] == Begin(id, e.txs[id].call)
  }

  lemma PlanGoesOn(db: Db, tx: Tx, plan: seq<int>)
    requires Shaped(tx) && Ascending(plan) && Run(db, tx, plan).Goes? && Run(db, tx, plan).at.CancelStock?
    requires tx.at.CancelStock? ==> PlanInOrder(tx.at)
    ensures PlanInOrder(Run(db, tx, plan).at)
  {
  }

  lemma StepKeepsPlans(e: Engine, step: Step)
    requires PlansOk(e) && (step.Next? ==> Ascending(step.plan))
    ensures PlansOk(Apply(e, step))
  {
    if step.Next? && CanMove(e, step.id) && Run(e.db, e.txs[step.id], step.plan).Goes? {
      if Run(e.db, e.txs[step.id], step.plan).at.CancelStock? { PlanGoesOn(e.db, e.txs[step.id], step.plan); }
    }
  }

  lemma {:induction false} RunKeepsPlans(db: Db, steps: seq<Step>)
    requires AscendingPlans(steps)
    ensures PlansOk(Exec(db, steps))
  {
    if steps != [] {
      RunKeepsPlans(db, steps[..|steps| - 1]);
      assert Last(steps) == steps[|steps| - 1];
      StepKeepsPlans(Exec(db, steps[..|steps| - 1]), Last(steps));
    }
  }

  lemma StepKeepsCalls(e: Engine, steps: seq<Step>, step: Step)
    requires CallsBegun(e, steps)
    ensures CallsBegun(Apply(e, step), steps + [step])
  {
    var all, e' := steps + [step], Apply(e, step);
    forall id | id in e'.txs ensures exists i | 0 <= i < |all| :: all[i] == Begin(id, e'.txs[id].call) {
      if id in e.txs && e'.txs[id].call == e.txs[id].call {
        var i :| 0 <= i < |steps| && steps[i] == Begin(id, e.txs[id].call);
        assert all[i] == steps[i];
      } else {
        assert all[|steps|] == Begin(id, e'.txs[id].call);
      }
    }
  }

  lemma {:induction false} RunKeepsCalls(db: Db, steps: seq<Step>)
    ensures CallsBegun(Exec(db, steps), steps)
  {
    if steps != [] {
      var init := steps[..|steps| - 1];
      RunKeepsCalls(db, init);
      StepKeepsCalls(Exec(db, init), init, Last(steps));
      assert init + [Last(steps)] == steps;
    }
  }

  /** Orders and keys of payments are never changed. */
  ghost predicate SameOwners(db: Db, db': Db) {
    && |db.payments| <= |db'.payments|
    && forall p | 0 <= p < |db.payments| ::
          db'.payments[p].order == db.payments[p].order && db'.payments[p].key == db.payments[p].key
  }

  lemma AtomicKeepsOwners(db: Db, call: Call)
    ensures SameOwners(db, Atomic(db, call).0)
  {
  }

  lemma TouchKeepsOwners(db: Db, p: nat, t: Touch)
    ensures SameOwners(db, TouchTx(db, p, t))
  {
  }

  lemma StepKeepsOwners(e: Engine, step: Step)
    requires EngineOk(e)
    ensures SameOwners(e.db, Apply(e, step).db)
  {
    match step
    case Next(id, plan) =>
      if CanMove(e, id) {
        NextRefines(e, id, plan);
        AtomicKeepsOwners(e.db, e.txs[id].call);
      }
    case Worker(p, t) => TouchKeepsOwners(e.db, p, t);
    case _ =>
  }

  lemma {:induction false} RunKeepsOwners(db: Db, steps: seq<Step>, n: nat)
    requires TablesOk(db) && n <= |steps|
    ensures SameOwners(Exec(db, steps[..n]).db, Exec(db, steps).db)
    decreases |steps|
  {
    if n < |steps| {
      var init := steps[..|steps| - 1];
      assert init[..n] == steps[..n];
      RunKeepsOwners(db, init, n);
      ExecKeepsEngine(db, init);
      StepKeepsOwners(Exec(db, init), Last(steps));
    } else {
      assert steps[..n] == steps;
    }
  }

  /** What a start's INSERT clashes with is on its order or under its key. */
  lemma ClashIsOwn(db: Db, tx: Tx, p: nat)
    requires Shaped(tx) && tx.at.StartInsert? && Some(p) in Clashes(db, tx)
    ensures p < |db.payments|
    ensures db.payments[p].order == tx.call.order || (tx.call.key != "" && db.payments[p].key == tx.call.key)
  {
  }

  lemma InsertAwaits(e: Engine, id: nat)
    requires id in e.txs && Shaped(e.txs[id]) && e.txs[id].at.StartInsert? && WaitsFor(e, id).Some?
    ensures var l := Awaited(e, id);
      l.PaymentKey? || (l.PaymentLock? && Some(l.payment) in Clashes(e.db, e.txs[id]) && Rewritten(e, Some(l.payment)))
  {
  }

  lemma AwaitedPaymentClashes(e: Engine, id: nat)
    requires EngineOk(e) && id in e.txs && e.txs[id].at.StartInsert? && WaitsFor(e, id).Some?
    requires PaysOrder(e, Awaited(e, id))
    ensures Awaited(e, id).PaymentLock? && Some(Awaited(e, id).payment) in Clashes(e.db, e.txs[id])
    ensures Rewritten(e, Some(Awaited(e, id).payment))
  {
    InsertAwaits(e, id);
    AwaitedIsHeld(e, id);
    NoTransitionHoldsAKey(e, WaitsFor(e, id).value, Awaited(e, id));
  }

  lemma NoTransitionHoldsAKey(e: Engine, h: nat, l: Lock)
    requires h in e.txs && Shaped(e.txs[h]) && Holds(e.txs[h], l)
    ensures e.txs[h].call.TransitionCall? ==> !l.PaymentKey?
  {
  }

  lemma HeldPaymentIsOwn(e: Engine, h: nat, l: Lock)
    requires h in e.txs && Shaped(e.txs[h]) && e.txs[h].call.TransitionCall? && Holds(e.txs[h], l) && l.PaymentLock?
    ensures l.payment == e.txs[h].call.payment
  {
  }

  /** A start that waits for a payment on its way to succeeded meets it on its order or its key. */
  lemma InvertedStartMeets(e: Engine, id: nat)
    requires EngineOk(e) && id in e.txs && e.txs[id].at.StartInsert? && WaitsFor(e, id).Some?
    requires PaysOrder(e, Awaited(e, id))
    ensures WaitsFor(e, id).value in e.txs && Meets(e.db, e.txs[id].call, e.txs[WaitsFor(e, id).value].call)
  {
    AwaitedIsHeld(e, id);
    AwaitedPaymentClashes(e, id);
    ClashIsOwn(e.db, e.txs[id], Awaited(e, id).payment);
    HeldPaymentIsOwn(e, WaitsFor(e, id).value, Awaited(e, id));
  }

  /** If every cancel visits its products in ascending order, and no payment request meets a payment moved to
      succeeded on its order or key, then no run of any calls ever deadlocks, at any moment. */
  lemma {:induction false} NeverDeadlocks(db: Db, steps: seq<Step>, n: nat, d: set<nat>)
    requires TablesOk(db) && n <= |steps|
    requires AscendingPlans(steps) && NoMeeting(Exec(db, steps).db, steps)
    ensures !Deadlocked(Exec(db, steps[..n]), d)
  {
    var e := Exec(db, steps[..n]);
    ExecKeepsEngine(db, steps[..n]);
    RunKeepsPlans(db, steps[..n]);
    RunKeepsCalls(db, steps[..n]);
    RunKeepsOwners(db, steps, n);
    forall id | id in d && id in e.txs ensures !Inverted(e, id) {
      NotInverted(e, steps[..n], id, Exec(db, steps).db);
    }
    if Deadlocked(e, d) { CircleHasInversion(e, d); }
  }

  lemma NobodyMeets(e: Engine, steps: seq<Step>, later: Db, a: nat, b: nat)
    requires CallsBegun(e, steps) && SameOwners(e.db, later) && NoMeeting(later, steps) && a in e.txs && b in e.txs
    ensures !Meets(e.db, e.txs[a].call, e.txs[b].call)
  {
    var i :| 0 <= i < |steps| && steps[i] == Begin(a, e.txs[a].call);
    var j :| 0 <= j < |steps| && steps[j] == Begin(b, e.txs[b].call);
    assert !Meets(later, steps[i].call, steps[j].call);
  }

  lemma NotInverted(e: Engine, steps: seq<Step>, id: nat, later: Db)
    requires EngineOk(e) && PlansOk(e) && CallsBegun(e, steps) && SameOwners(e.db, later) && NoMeeting(later, steps)
    requires id in e.txs
    ensures !Inverted(e, id)
  {
    var at := e.txs[id].at;
    if at.CancelStock? { assert PlanInOrder(at); }
    if at.StartInsert? && WaitsFor(e, id).Some? {
      AwaitedIsHeld(e, id);
      NobodyMeets(e, steps, later, id, WaitsFor(e, id).value);
      if PaysOrder(e, Awaited(e, id)) { InvertedStartMeets(e, id); }
    }
  }

  // ----- a start and the Transition it waits for

  lemma AwaitedIsRewriting(e: Engine, id: nat)
    requires EngineOk(e) && id in e.txs && e.txs[id].at.StartInsert? && WaitsFor(e, id).Some?
    requires PaysOrder(e, Awaited(e, id))
    ensures var h := WaitsFor(e, id).value;
      && h in e.txs && h != id && e.txs[h].call.TransitionCall? && e.txs[h].call.to == Succeeded
      && (e.txs[h].at.TransitionOrder? || e.txs[h].at.TransitionCommit?)
  {
    AwaitedIsHeld(e, id);
    AwaitedPaymentClashes(e, id);
  }

  /** A Transition to succeeded that has the order's lock is past its payment. */
  lemma CommitHasOrder(e: Engine, id: nat, h: nat)
    requires EngineOk(e) && id in e.txs && h in e.txs && h != id && e.txs[id].at.StartInsert?
    requires e.txs[h].call.TransitionCall? && e.txs[h].call.to == Succeeded && e.txs[h].at.TransitionCommit?
    ensures e.txs[h].at.was.order != e.txs[id].call.order
  {
    var l := OrderLock(e.txs[id].call.order);
    assert TxOk(e.db, e.txs[h]);
    assert LocksOf(e.locks, id, e.txs[id]) && LocksOf(e.locks, h, e.txs[h]);
    assert Holds(e.txs[id], l);
    assert e.locks[l] == id;
    assert Holds(e.txs[h], OrderLock(e.txs[h].at.was.order));
  }

  /** The Transition of the same order waits for the start, which has the order. */
  lemma SameOrderWaitsBack(e: Engine, id: nat, h: nat)
    requires EngineOk(e) && id in e.txs && h in e.txs && h != id && e.txs[id].at.StartInsert?
    requires e.txs[h].call.TransitionCall? && e.txs[h].call.to == Succeeded
    requires e.txs[h].at.TransitionOrder? && e.txs[h].at.was.order == e.txs[id].call.order
    ensures WaitsFor(e, h) == Some(id)
  {
    var l := OrderLock(e.txs[id].call.order);
    assert TxOk(e.db, e.txs[id]);
    assert Holds(e.txs[id], l);
    assert LocksOf(e.locks, id, e.txs[id]);
    WaitsForOwner(e, h, l, id);
  }

  lemma WaitsForOwner(e: Engine, h: nat, l: Lock, owner: nat)
    requires h in e.txs && Shaped(e.txs[h]) && Takes(e.db, e.txs[h]) == Some(l) && l in e.locks && e.locks[l] == owner
    requires owner != h
    ensures WaitsFor(e, h) == Some(owner)
  {
  }

  /** A Transition that waits for a start waits for its order. */
  lemma WaitsBackForOrder(e: Engine, id: nat, h: nat)
    requires EngineOk(e) && id in e.txs && h in e.txs && e.txs[id].at.StartInsert?
    requires e.txs[h].at.TransitionOrder? && WaitsFor(e, h) == Some(id)
    ensures e.txs[h].at.was.order == e.txs[id].call.order
  {
    AwaitedIsHeld(e, h);
    AwaitedByTransition(e, h);
  }

  lemma AwaitedByTransition(e: Engine, h: nat)
    requires h in e.txs && Shaped(e.txs[h]) && WaitsFor(e, h).Some? && e.txs[h].at.TransitionOrder?
    ensures Awaited(e, h) == OrderLock(e.txs[h].at.was.order)
  {
  }

  lemma CommitWaitsForNobody(e: Engine, h: nat)
    requires h in e.txs && Shaped(e.txs[h]) && e.txs[h].at.TransitionCommit?
    ensures WaitsFor(e, h).None?
  {
  }

  lemma PairDeadlock(e: Engine, a: nat, b: nat)
    requires a in e.txs && Shaped(e.txs[a]) && b in e.txs && Shaped(e.txs[b]) && WaitsFor(e, a) == Some(b)
    requires WaitsFor(e, b) != Some(b)
    ensures Deadlocked(e, {a, b}) <==> WaitsFor(e, b) == Some(a)
  {
  }

  lemma NotItself(e: Engine, h: nat)
    requires h in e.txs && Shaped(e.txs[h]) && e.txs[h].call.TransitionCall?
    ensures WaitsFor(e, h) != Some(h)
  {
  }

  lemma WaitsBackIff(e: Engine, id: nat, h: nat)
    requires EngineOk(e) && id in e.txs && h in e.txs && h != id && e.txs[id].at.StartInsert?
    requires e.txs[h].call.TransitionCall? && e.txs[h].call.to == Succeeded
    requires e.txs[h].at.TransitionOrder? || e.txs[h].at.TransitionCommit?
    ensures WaitsFor(e, h) == Some(id) <==> e.txs[h].at.was.order == e.txs[id].call.order
  {
    if e.txs[h].at.TransitionCommit? {
      CommitHasOrder(e, id, h);
      CommitWaitsForNobody(e, h);
    } else if WaitsFor(e, h) == Some(id) {
      WaitsBackForOrder(e, id, h);
    } else if e.txs[h].at.was.order == e.txs[id].call.order {
      SameOrderWaitsBack(e, id, h);
    }
  }

  /** A start waiting for a payment on its way to succeeded is in a deadlock with that Transition if and only if
      the payment is of the same order; otherwise the Transition does not wait for it. */
  lemma StartAndTransitionPairIff(e: Engine, id: nat)
    requires EngineOk(e) && id in e.txs && e.txs[id].at.StartInsert? && WaitsFor(e, id).Some?
    requires PaysOrder(e, Awaited(e, id))
    ensures var h := WaitsFor(e, id).value;
      && h in e.txs && (e.txs[h].at.TransitionOrder? || e.txs[h].at.TransitionCommit?)
      && (Deadlocked(e, {id, h}) <==> e.txs[h].at.was.order == e.txs[id].call.order)
  {
    AwaitedIsRewriting(e, id);
    var h := WaitsFor(e, id).value;
    WaitsBackIff(e, id, h);
    NotItself(e, h);
    PairDeadlock(e, id, h);
  }
}
