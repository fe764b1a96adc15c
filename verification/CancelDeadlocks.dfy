/** Two cancels: exactly when they can wait for each other. Also: which pairs of calls can at all. */
module CancelDeadlocks {
  import opened Domain
  import opened Tables
  import opened Orders
  import opened RowLocks
  import opened LockInvariant
  import opened LockRefinement
  import opened Deadlock
  import opened DeadlockRuns
  import opened DeadlockPairs

  /** The first product of a plan that the other plan visits too. */
  ghost predicate FirstShared(plan: seq<int>, i: nat, other: seq<int>) {
    i < |plan| && plan[i] in other && forall k | 0 <= k < i :: plan[k] !in other
  }

  /** The plans share products and begin them with different ones. */
  ghost predicate BeginApart(plan: seq<int>, plan': seq<int>) {
    exists i: nat, j: nat :: FirstShared(plan, i, plan') && FirstShared(plan', j, plan) && plan[i] != plan'[j]
  }

  /** Two products visited in opposite orders: not enough, since a product that both visit before lets only one
      of them go on. */
  ghost predicate Cross(plan: seq<int>, plan': seq<int>) {
    exists i, j, k, l :: && 0 <= i < j < |plan| && 0 <= k < l < |plan'| && plan[i] == plan'[l] && plan[j] == plan'[k]
  }

  /** How far each has come when they wait: nothing visited by both, and each wants a product of the other. */
  ghost predicate Stuck(plan: seq<int>, n: nat, plan': seq<int>, m: nat) {
    && n < |plan| && m < |plan'| && plan[n] in plan'[..m] && plan'[m] in plan[..n]
    && forall p :: !(p in plan[..n] && p in plan'[..m])
  }

  lemma {:induction false} FirstSharedUpTo(plan: seq<int>, n: nat, other: seq<int>) returns (i: nat)
    requires n <= |plan| && exists k :: 0 <= k < n && plan[k] in other
    ensures i < n && FirstShared(plan, i, other)
  {
    if k :| 0 <= k < n - 1 && plan[k] in other {
      i := FirstSharedUpTo(plan, n - 1, other);
    } else {
      i := n - 1;
    }
  }

  lemma StuckBeginsApart(plan: seq<int>, n: nat, plan': seq<int>, m: nat)
    requires Stuck(plan, n, plan', m)
    ensures BeginApart(plan, plan')
  {
    var k :| 0 <= k < n && plan[..n][k] == plan'[m];
    assert plan[k] in plan';
    var l :| 0 <= l < m && plan'[..m][l] == plan[n];
    assert plan'[l] in plan;
    var i := FirstSharedUpTo(plan, n, plan');
    var j := FirstSharedUpTo(plan', m, plan);
    assert plan[..n][i] == plan[i] && plan'[..m][j] == plan'[j];
    assert plan[i] in plan[..n] && plan'[j] in plan'[..m];
    assert plan[i] != plan'[j];
  }

  /** Let the second plan go up to the first plan's first shared product, and the first plan up to a product that
      the second has visited by then. */
  lemma ApartGetsStuck(plan: seq<int>, plan': seq<int>) returns (n: nat, m: nat)
    requires BeginApart(plan, plan') && forall i, j | 0 <= i < j < |plan'| :: plan'[i] != plan'[j]
    ensures Stuck(plan, n, plan', m)
  {
    var i: nat, j: nat :| FirstShared(plan, i, plan') && FirstShared(plan', j, plan) && plan[i] != plan'[j];
    m :| 0 <= m < |plan'| && plan'[m] == plan[i];
    assert j < m && plan'[..m][j] == plan'[j];
    var k :| 0 <= k < |plan| && plan[k] == plan'[j];
    n := FirstSharedUpTo(plan, |plan|, plan'[..m]);
    assert i < n;
    assert plan[..n][i] == plan[i];
    forall p | p in plan[..n] ensures p !in plan'[..m] {
      var x :| 0 <= x < n && plan[..n][x] == p;
      assert plan[x] !in plan'[..m];
    }
  }

  lemma CrossingIsNotEnough()
    ensures Cross([1, 2, 3], [1, 3, 2]) && !BeginApart([1, 2, 3], [1, 3, 2])
  {
    var a, b := [1, 2, 3], [1, 3, 2];
    assert a[1] == b[2] && a[2] == b[1];
    assert a[0] in b && b[0] in a;
  }

  // ----- what two waiting cancels show

  lemma CancelAwaitsCancel(e: Engine, id: nat, h: nat)
    requires EngineOk(e) && id in e.txs && e.txs[id].call.CancelCall? && h in e.txs && e.txs[h].call.CancelCall?
    requires WaitsFor(e, id) == Some(h) && WaitsFor(e, h) == Some(id)
    ensures e.txs[id].at.CancelStock? && e.txs[h].at.CancelStock?
  {
    AwaitedIsHeld(e, id);
    AwaitedIsHeld(e, h);
    HeldByCancel(e, h, Awaited(e, id));
    HeldByCancel(e, id, Awaited(e, h));
    CancelAwaits(e, id);
    CancelAwaits(e, h);
  }

  lemma HeldByCancel(e: Engine, h: nat, l: Lock)
    requires EngineOk(e) && h in e.txs && e.txs[h].call.CancelCall? && Holds(e.txs[h], l)
    ensures var tx := e.txs[h];
      && !tx.at.CancelStatus?
      && (l == OrderLock(tx.call.order)
          || (l.PaymentLock? && l.payment < |e.db.payments| && e.db.payments[l.payment].order == tx.call.order)
          || (l.ProductLock? && tx.at.CancelStock? && l.product in tx.at.held))
      && Holds(tx, OrderLock(tx.call.order))
  {
    assert TxOk(e.db, e.txs[h]);
  }

  lemma CancelAwaits(e: Engine, id: nat)
    requires EngineOk(e) && id in e.txs && e.txs[id].call.CancelCall? && WaitsFor(e, id).Some?
    ensures var tx, l := e.txs[id], Awaited(e, id);
      || (tx.at.CancelStatus? && l == OrderLock(tx.call.order))
      || (tx.at.CancelRefund? && l.PaymentLock? && l.payment < |e.db.payments|
          && e.db.payments[l.payment].order == tx.call.order)
      || (tx.at.CancelStock? && tx.at.todo != [] && l == ProductLock(tx.at.todo[0]))
  {
  }

  lemma EachWantsTheOthers(e: Engine)
    requires EngineOk(e) && 0 in e.txs && 1 in e.txs && e.txs[0].call.CancelCall? && e.txs[1].call.CancelCall?
    requires WaitsFor(e, 0) == Some(1) && WaitsFor(e, 1) == Some(0)
    ensures var at, at' := e.txs[0].at, e.txs[1].at;
      && at.CancelStock? && at'.CancelStock? && e.txs[0].call.order != e.txs[1].call.order
      && at.todo != [] && at.todo[0] in at'.held && at'.todo != [] && at'.todo[0] in at.held
      && forall p :: !(p in at.held && p in at'.held)
  {
    CancelAwaitsCancel(e, 0, 1);
    WaitsForVisited(e, 0, 1);
    WaitsForVisited(e, 1, 0);
    HoldApart(e);
  }

  /** Both have visited just the beginnings of their plans, and locks are exclusive. */
  lemma TheyAreStuck(e: Engine, plan: seq<int>, plan': seq<int>)
    requires EngineOk(e) && 0 in e.txs && 1 in e.txs && e.txs[0].call.CancelCall? && e.txs[1].call.CancelCall?
    requires OnPlan(e.db, e.txs[0].at, plan) && OnPlan(e.db, e.txs[1].at, plan')
    requires WaitsFor(e, 0) == Some(1) && WaitsFor(e, 1) == Some(0)
    ensures e.txs[0].at.CancelStock? && e.txs[1].at.CancelStock? && e.txs[0].call.order != e.txs[1].call.order
    ensures BeginApart(plan, plan')
  {
    EachWantsTheOthers(e);
    VisitedIsHeld(e.db, plan, e.txs[0].at, plan', e.txs[1].at);
  }

  lemma VisitedIsHeld(db: Db, plan: seq<int>, at: At, plan': seq<int>, at': At)
    requires at.CancelStock? && at'.CancelStock? && OnPlan(db, at, plan) && OnPlan(db, at', plan')
    requires at.todo != [] && at.todo[0] in at'.held && at'.todo != [] && at'.todo[0] in at.held
    requires forall p :: !(p in at.held && p in at'.held)
    ensures BeginApart(plan, plan')
  {
    var n, m := |plan| - |at.todo|, |plan'| - |at'.todo|;
    assert at.todo[0] == plan[n] && at'.todo[0] == plan'[m];
    assert forall p :: p in at.held <==> p in plan[..n];
    assert forall p :: p in at'.held <==> p in plan'[..m];
    StuckBeginsApart(plan, n, plan', m);
  }

  lemma WaitsForVisited(e: Engine, id: nat, h: nat)
    requires EngineOk(e) && id in e.txs && e.txs[id].at.CancelStock? && h in e.txs && e.txs[h].at.CancelStock?
    requires WaitsFor(e, id) == Some(h)
    ensures e.txs[id].at.todo != [] && e.txs[id].at.todo[0] in e.txs[h].at.held
  {
    StockWaitsForProduct(e, id);
    AwaitedIsHeld(e, id);
    HeldByCancel(e, h, Awaited(e, id));
  }

  lemma HoldApart(e: Engine)
    requires EngineOk(e) && 0 in e.txs && 1 in e.txs && e.txs[0].at.CancelStock? && e.txs[1].at.CancelStock?
    ensures e.txs[0].call.order != e.txs[1].call.order
    ensures forall p :: !(p in e.txs[0].at.held && p in e.txs[1].at.held)
  {
    assert LocksOf(e.locks, 0, e.txs[0]) && LocksOf(e.locks, 1, e.txs[1]);
    assert Holds(e.txs[0], OrderLock(e.txs[0].call.order)) && Holds(e.txs[1], OrderLock(e.txs[1].call.order));
    forall p | p in e.txs[0].at.held && p in e.txs[1].at.held ensures false {
      assert Holds(e.txs[0], ProductLock(p)) && Holds(e.txs[1], ProductLock(p));
    }
  }

  /** Both orders can be cancelled, and the plans are plans for them. */
  ghost predicate CanBoth(db: Db, order: nat, plan: seq<int>, order': nat, plan': seq<int>) {
    && Cancellable(db, order) && PlanOk(db.products, db.orders[order].items, plan)
    && Cancellable(db, order') && PlanOk(db.products, db.orders[order'].items, plan')
  }

  lemma CancelsDeadlockNeed(db: Db, order: nat, now: nat, plan: seq<int>, order': nat, now': nat, plan': seq<int>,
                            steps: seq<Step>)
    requires TablesOk(db) && Deadlocked(Exec(db, steps), {0, 1})
    requires WithPlans(steps, CancelCall(order, now), CancelCall(order', now'), plan, plan')
    ensures order != order' && CanBoth(db, order, plan, order', plan') && BeginApart(plan, plan')
  {
    WaitForEachOther(db, steps, CancelCall(order, now), CancelCall(order', now'), plan, plan');
    CirclesShow(db, Exec(db, steps), order, plan, order', plan');
  }

  lemma CirclesShow(db: Db, e: Engine, order: nat, plan: seq<int>, order': nat, plan': seq<int>)
    requires EngineOk(e) && SameRows(db, e.db) && 0 in e.txs && 1 in e.txs
    requires e.txs[0].call.CancelCall? && e.txs[0].call.order == order && OnPlan(e.db, e.txs[0].at, plan)
    requires e.txs[1].call.CancelCall? && e.txs[1].call.order == order' && OnPlan(e.db, e.txs[1].at, plan')
    requires WaitsFor(e, 0) == Some(1) && WaitsFor(e, 1) == Some(0)
    ensures order != order' && CanBoth(db, order, plan, order', plan') && BeginApart(plan, plan')
  {
    TheyAreStuck(e, plan, plan');
    BothCan(db, e, order, plan, order', plan');
  }

  lemma BothCan(db: Db, e: Engine, order: nat, plan: seq<int>, order': nat, plan': seq<int>)
    requires EngineOk(e) && SameRows(db, e.db) && 0 in e.txs && 1 in e.txs
    requires Shaped(e.txs[0]) && Shaped(e.txs[1])
    requires e.txs[0].at.CancelStock? && e.txs[0].call.order == order && OnPlan(e.db, e.txs[0].at, plan)
    requires e.txs[1].at.CancelStock? && e.txs[1].call.order == order' && OnPlan(e.db, e.txs[1].at, plan')
    ensures CanBoth(db, order, plan, order', plan')
  {
    CanCancelThis(db, e.db, e.txs[0], plan);
    CanCancelThis(db, e.db, e.txs[1], plan');
  }

  lemma CanCancelThis(db: Db, db': Db, tx: Tx, plan: seq<int>)
    requires Shaped(tx) && tx.at.CancelStock? && TxOk(db', tx) && SameRows(db, db') && OnPlan(db', tx.at, plan)
    ensures Cancellable(db, tx.call.order) && PlanOk(db.products, db.orders[tx.call.order].items, plan)
  {
    CancelIsCancellable(db, db', tx);
  }

  // ----- the construction: the first cancel stays in the middle of its plan, and the second comes

  /** Nothing the first holds stops the second. */
  lemma SecondGoesOn(db: Db, steps: seq<Step>, first: Tx, call: Call, at: At, plan: seq<int>, at': At)
    requires TablesOk(db) && Beside(Exec(db, steps), db, first, call, at) && call.CancelCall? && Shaped(Tx(call, at))
    requires Shaped(first) && (Takes(db, Tx(call, at)).Some? ==> !Holds(first, Takes(db, Tx(call, at)).value))
    requires Run(db, Tx(call, at), plan) == Goes(at')
    ensures Beside(Exec(db, steps + [Next(1, plan)]), db, first, call, at')
  {
    ExecKeepsEngine(db, steps);
    FreeBeside(Exec(db, steps), db, first, call, at);
    BesideGoesOn(db, steps, first, call, at, plan, at');
  }

  lemma FreeBeside(e: Engine, db: Db, first: Tx, call: Call, at: At)
    requires EngineOk(e) && Beside(e, db, first, call, at) && call.CancelCall? && Shaped(Tx(call, at)) && Shaped(first)
    requires Takes(db, Tx(call, at)).Some? ==> !Holds(first, Takes(db, Tx(call, at)).value)
    ensures WaitsFor(e, 1).None?
  {
    assert e.txs[0] == first && LocksOf(e.locks, 0, e.txs[0]);
    var l := Takes(db, Tx(call, at));
    assert l.Some? && l.value in e.locks ==> e.locks[l.value] != 0;
  }

  /** The first cancel in the middle of its plan, with sound tables. */
  ghost predicate Halfway(db: Db, first: Tx, order: nat) {
    first.call.CancelCall? && first.at.CancelStock? && TxOk(db, first) && first.call.order != order
  }

  lemma OwnOrderIsFree(db: Db, first: Tx, call: Call, at: At)
    requires call.CancelCall? && Halfway(db, first, call.order) && Shaped(Tx(call, at)) && !at.CancelStock?
    requires Takes(db, Tx(call, at)).Some?
    ensures !Holds(first, Takes(db, Tx(call, at)).value)
  {
  }

  lemma SecondChecks(db: Db, before: seq<Step>, first: Tx, order: nat, now: nat, plan: seq<int>)
    requires TablesOk(db) && Cancellable(db, order) && PlanOk(db.products, db.orders[order].items, plan)
    requires Exec(db, before).db == db && Exec(db, before).results == map[] && Exec(db, before).txs == map[0 := first]
    requires Halfway(db, first, order)
    ensures var call, go := CancelCall(order, now), [Next(1, plan)];
      Beside(Exec(db, before + [Begin(1, call)] + go + go), db, first, call, CancelRefund(db.orders[order]))
  {
    var call, row := CancelCall(order, now), db.orders[order];
    var s1 := before + [Begin(1, call)];
    SecondBegins(db, before, first, call);
    CancelRuns(db, order, now, plan);
    SecondSteps(db, s1, first, call, CancelStatus, plan, CancelCheck(row));
    SecondSteps(db, s1 + [Next(1, plan)], first, call, CancelCheck(row), plan, CancelRefund(row));
  }

  lemma SecondPlans(db: Db, before: seq<Step>, first: Tx, order: nat, now: nat, plan: seq<int>)
    returns (steps: seq<Step>, refund: Option<Refund>)
    requires TablesOk(db) && Cancellable(db, order) && PlanOk(db.products, db.orders[order].items, plan)
    requires Exec(db, before).db == db && Exec(db, before).results == map[] && Exec(db, before).txs == map[0 := first]
    requires Halfway(db, first, order)
    ensures StepsOf(steps, 1, CancelCall(order, now), plan)
    ensures Beside(Exec(db, before + steps), db, first, CancelCall(order, now),
                   CancelStock(db.orders[order], refund, plan, map[]))
  {
    var call, row := CancelCall(order, now), db.orders[order];
    refund := NewRefund(db, order, row.status, now);
    SecondChecks(db, before, first, order, now, plan);
    SecondRefunds(db, before, before + [Begin(1, call)] + [Next(1, plan)] + [Next(1, plan)], first, order, now, plan);
    TwoMore(before, [Begin(1, call)], call, plan);
    TwoMore(before, [Begin(1, call)] + [Next(1, plan)] + [Next(1, plan)], call, plan);
    steps := [Begin(1, call)] + [Next(1, plan)] + [Next(1, plan)] + [Next(1, plan)] + [Next(1, plan)];
  }

  lemma SecondRefunds(db: Db, before: seq<Step>, steps: seq<Step>, first: Tx, order: nat, now: nat, plan: seq<int>)
    requires TablesOk(db) && Cancellable(db, order) && PlanOk(db.products, db.orders[order].items, plan)
    requires Halfway(db, first, order)
    requires Beside(Exec(db, steps), db, first, CancelCall(order, now), CancelRefund(db.orders[order]))
    ensures var row, go := db.orders[order], [Next(1, plan)];
      Beside(Exec(db, steps + go + go), db, first, CancelCall(order, now),
             CancelStock(row, NewRefund(db, order, row.status, now), plan, map[]))
  {
    var call, row := CancelCall(order, now), db.orders[order];
    var refund := NewRefund(db, order, row.status, now);
    CancelRuns(db, order, now, plan);
    SecondSteps(db, steps, first, call, CancelRefund(row), plan, CancelPlan(row, refund));
    SecondSteps(db, steps + [Next(1, plan)], first, call, CancelPlan(row, refund), plan,
                CancelStock(row, refund, plan, map[]));
  }

  lemma SecondSteps(db: Db, steps: seq<Step>, first: Tx, call: Call, at: At, plan: seq<int>, at': At)
    requires TablesOk(db) && Beside(Exec(db, steps), db, first, call, at) && call.CancelCall? && Shaped(Tx(call, at))
    requires Halfway(db, first, call.order) && !at.CancelStock? && Run(db, Tx(call, at), plan) == Goes(at')
    ensures Beside(Exec(db, steps + [Next(1, plan)]), db, first, call, at')
  {
    if Takes(db, Tx(call, at)).Some? { OwnOrderIsFree(db, first, call, at); }
    SecondGoesOn(db, steps, first, call, at, plan, at');
  }

  lemma SecondVisits(db: Db, steps: seq<Step>, first: Tx, call: Call, row: Order, refund: Option<Refund>,
                     plan: seq<int>, k: nat, had: map<int, Product>) returns (held: map<int, Product>)
    requires TablesOk(db) && call.CancelCall? && Halfway(db, first, call.order) && k < |plan| && plan[k] in db.products
    requires Beside(Exec(db, steps), db, first, call, CancelStock(row, refund, plan[k..], had))
    requires plan[k] !in first.at.held && forall p :: p in had <==> p in plan[..k]
    ensures Beside(Exec(db, steps + [Next(1, plan)]), db, first, call, CancelStock(row, refund, plan[k + 1..], held))
    ensures forall p :: p in held <==> p in plan[..k + 1]
  {
    var p := plan[k];
    held := had[p := db.products[p].(stock := db.products[p].stock + PickQuantity(row.items, p))];
    CancelVisits(db, call, row, refund, plan, k, had);
    assert !Holds(first, ProductLock(p));
    SecondGoesOn(db, steps, first, call, CancelStock(row, refund, plan[k..], had), plan,
                 CancelStock(row, refund, plan[k + 1..], held));
    assert plan[..k + 1] == plan[..k] + [p];
  }

  lemma OneMore(before: seq<Step>, steps: seq<Step>, call: Call, plan: seq<int>)
    requires StepsOf(steps, 1, call, plan)
    ensures StepsOf(steps + [Next(1, plan)], 1, call, plan)
    ensures before + (steps + [Next(1, plan)]) == before + steps + [Next(1, plan)]
  {
  }

  lemma {:induction false} SecondReaches(db: Db, before: seq<Step>, first: Tx, order: nat, now: nat, plan: seq<int>,
                                         k: nat)
    returns (steps: seq<Step>, refund: Option<Refund>, held: map<int, Product>)
    requires TablesOk(db) && Cancellable(db, order) && PlanOk(db.products, db.orders[order].items, plan) && k <= |plan|
    requires Exec(db, before).db == db && Exec(db, before).results == map[] && Exec(db, before).txs == map[0 := first]
    requires Halfway(db, first, order) && forall i | 0 <= i < k :: plan[i] !in first.at.held
    ensures StepsOf(steps, 1, CancelCall(order, now), plan)
    ensures Beside(Exec(db, before + steps), db, first, CancelCall(order, now),
                   CancelStock(db.orders[order], refund, plan[k..], held))
    ensures forall p :: p in held <==> p in plan[..k]
  {
    if k == 0 {
      steps, refund := SecondPlans(db, before, first, order, now, plan);
      held := map[];
      assert plan[0..] == plan;
    } else {
      var had;
      steps, refund, had := SecondReaches(db, before, first, order, now, plan, k - 1);
      held := SecondVisits(db, before + steps, first, CancelCall(order, now), db.orders[order], refund, plan, k - 1,
                           had);
      OneMore(before, steps, CancelCall(order, now), plan);
      steps := steps + [Next(1, plan)];
    }
  }

  lemma BothWait(e: Engine, db: Db, first: Tx, call: Call, at: At)
    requires EngineOk(e) && Beside(e, db, first, call, at) && call.CancelCall? && at.CancelStock?
    requires first.call.CancelCall? && first.at.CancelStock?
    requires first.at.todo != [] && first.at.todo[0] in db.products && first.at.todo[0] in at.held
    requires at.todo != [] && at.todo[0] in db.products && at.todo[0] in first.at.held
    ensures Deadlocked(e, {0, 1})
  {
    assert LocksOf(e.locks, 0, e.txs[0]) && LocksOf(e.locks, 1, e.txs[1]);
    assert Holds(e.txs[0], ProductLock(at.todo[0])) && Holds(e.txs[1], ProductLock(first.at.todo[0]));
    WaitsForOwner(e, 1, ProductLock(at.todo[0]), 0);
    WaitsForOwner(e, 0, ProductLock(first.at.todo[0]), 1);
  }

  lemma CancelsDeadlock(db: Db, order: nat, now: nat, plan: seq<int>, order': nat, now': nat, plan': seq<int>, n: nat,
                        m: nat) returns (steps: seq<Step>)
    requires TablesOk(db) && order != order' && CanBoth(db, order, plan, order', plan') && Stuck(plan, n, plan', m)
    ensures WithPlans(steps, CancelCall(order, now), CancelCall(order', now'), plan, plan')
    ensures Deadlocked(Exec(db, steps), {0, 1})
  {
    var before, refund, held := CancelReaches(db, order, now, plan, n);
    var first := Tx(CancelCall(order, now), CancelStock(db.orders[order], refund, plan[n..], held));
    ExecKeepsEngine(db, before);
    assert Exec(db, before).txs[0] == first;
    forall i | 0 <= i < m ensures plan'[i] !in held { assert plan'[..m][i] == plan'[i]; }
    var after, refund', held' := SecondReaches(db, before, first, order', now', plan', m);
    steps := before + after;
    ExecKeepsEngine(db, steps);
    BothWait(Exec(db, steps), db, first, CancelCall(order', now'),
             CancelStock(db.orders[order'], refund', plan'[m..], held'));
    StepsOfBoth(before, after, CancelCall(order, now), CancelCall(order', now'), plan, plan');
  }

  /** Two cancels can deadlock if and only if they are of different orders, both can be cancelled, and their query
      plans begin the products they share with different ones: decided by the tables and the plans alone. */
  lemma {:induction false} CancelsDeadlockIff(db: Db, order: nat, now: nat, plan: seq<int>, order': nat, now': nat,
                                              plan': seq<int>)
    requires TablesOk(db)
    ensures (exists steps :: WithPlans(steps, CancelCall(order, now), CancelCall(order', now'), plan, plan')
                             && Deadlocked(Exec(db, steps), {0, 1}))
      <==> order != order' && CanBoth(db, order, plan, order', plan') && BeginApart(plan, plan')
  {
    if order != order' && CanBoth(db, order, plan, order', plan') && BeginApart(plan, plan') {
      var n, m := ApartGetsStuck(plan, plan');
      var steps := CancelsDeadlock(db, order, now, plan, order', now', plan', n, m);
    }
    forall steps | WithPlans(steps, CancelCall(order, now), CancelCall(order', now'), plan, plan')
        && Deadlocked(Exec(db, steps), {0, 1})
      ensures order != order' && CanBoth(db, order, plan, order', plan') && BeginApart(plan, plan')
    {
      CancelsDeadlockNeed(db, order, now, plan, order', now', plan', steps);
    }
  }

  // ----- which pairs there are

  /** A cancel with a create or another cancel, or a start with a move to succeeded. */
  predicate CanMeet(a: Call, b: Call) {
    (a.CancelCall? && (b.CreateCall? || b.CancelCall?)) || (a.StartCall? && b.TransitionCall? && b.to == Succeeded)
  }

  /** Who holds a product, and who is behind an inverted wait of a start. */
  lemma InvertedMeets(e: Engine, id: nat, h: nat)
    requires EngineOk(e) && id in e.txs && h in e.txs && WaitsFor(e, id) == Some(h) && Inverted(e, id)
    ensures CanMeet(e.txs[id].call, e.txs[h].call)
  {
    AwaitedIsHeld(e, id);
    if e.txs[id].at.CancelStock? {
      StockWaitsForProduct(e, id);
      HoldsProduct(e.txs[h], Awaited(e, id));
    }
  }

  lemma HoldsProduct(tx: Tx, l: Lock)
    requires Shaped(tx) && Holds(tx, l) && l.ProductLock?
    ensures tx.call.CreateCall? || tx.call.CancelCall?
  {
  }

  lemma WaitForTheOther(e: Engine, x: nat, y: nat)
    requires EngineOk(e) && Deadlocked(e, {x, y})
    ensures x in e.txs && y in e.txs && WaitsFor(e, x) == Some(y) && WaitsFor(e, y) == Some(x)
  {
    NobodyWaitsForItself(e, x);
    NobodyWaitsForItself(e, y);
  }

  /** In every run of any calls, two that wait for each other are one of these pairs: the three conditions leave
      none out. */
  lemma {:induction false} NoOtherPairs(db: Db, steps: seq<Step>, x: nat, y: nat)
    requires TablesOk(db) && Deadlocked(Exec(db, steps), {x, y})
    ensures var e := Exec(db, steps);
      && x in e.txs && y in e.txs
      && (CanMeet(e.txs[x].call, e.txs[y].call) || CanMeet(e.txs[y].call, e.txs[x].call))
  {
    ExecKeepsEngine(db, steps);
    PairMeets(Exec(db, steps), x, y);
  }

  lemma PairMeets(e: Engine, x: nat, y: nat)
    requires EngineOk(e) && Deadlocked(e, {x, y})
    ensures x in e.txs && y in e.txs
    ensures CanMeet(e.txs[x].call, e.txs[y].call) || CanMeet(e.txs[y].call, e.txs[x].call)
  {
    WaitForTheOther(e, x, y);
    CircleHasInversion(e, {x, y});
    if Inverted(e, x) { InvertedMeets(e, x, y); } else { InvertedMeets(e, y, x); }
  }
}
