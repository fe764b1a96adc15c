/** Exactly which two calls can deadlock, from any tables: decided before either has begun. Two calls that wait for
    each other are a cancel and a create, two cancels, or a start and a move to succeeded. */
module DeadlockPairs {
  import opened Domain
  import opened Tables
  import opened Orders
  import opened RowLocks
  import opened LockInvariant
  import opened LockRefinement
  import opened Deadlock
  import opened DeadlockRuns

  /** A run of two calls, 0 and 1, beside any updates of the workers, each with a given query plan. */
  ghost predicate WithPlans(steps: seq<Step>, a: Call, b: Call, plan: seq<int>, plan': seq<int>) {
    forall i | 0 <= i < |steps| :: IsOfPair(steps[i], a, b, plan, plan')
  }

  /** The same when at most one of them has a plan. */
  ghost predicate OnlyThese(steps: seq<Step>, a: Call, b: Call, plan: seq<int>) {
    WithPlans(steps, a, b, plan, plan)
  }

  predicate IsOfPair(step: Step, a: Call, b: Call, plan: seq<int>, plan': seq<int>) {
    match step
    case Begin(id, call) => (id == 0 && call == a) || (id == 1 && call == b)
    case Next(id, p) => p == PlanOf(id, plan, plan')
    case _ => true
  }

  function PlanOf(id: nat, plan: seq<int>, plan': seq<int>): seq<int> {
    if id == 0 then plan else plan'
  }

  /** Only the workers' columns may differ. */
  ghost predicate SameRows(db: Db, db': Db) {
    && db'.products == db.products && db'.orders == db.orders && |db'.payments| == |db.payments|
    && forall p | 0 <= p < |db.payments| ::
         db'.payments[p].order == db.payments[p].order && db'.payments[p].status == db.payments[p].status
  }

  /** While neither call is over, the committed rows are those of the start, and a cancel is at some point of its
      plan. */
  ghost predicate Underway(db: Db, e: Engine, a: Call, b: Call, plan: seq<int>, plan': seq<int>) {
    0 !in e.results && 1 !in e.results ==>
      && SameRows(db, e.db)
      && forall id | id in e.txs ::
            && ((id == 0 && e.txs[id].call == a) || (id == 1 && e.txs[id].call == b))
            && OnPlan(e.db, e.txs[id].at, PlanOf(id, plan, plan'))
  }

  ghost predicate OnPlan(db: Db, at: At, plan: seq<int>) {
    at.CancelStock? ==>
      && |at.todo| <= |plan| && at.todo == plan[|plan| - |at.todo|..]
      && PlanOk(db.products, at.row.items, plan)
      && forall p :: p in at.held <==> p in plan[..|plan| - |at.todo|]
  }

  lemma PlanStays(db: Db, db': Db, at: At, plan: seq<int>)
    requires OnPlan(db, at, plan) && db'.products == db.products
    ensures OnPlan(db', at, plan)
  {
  }

  lemma PlanAdvances(db: Db, tx: Tx, plan: seq<int>)
    requires Shaped(tx) && OnPlan(db, tx.at, plan) && Run(db, tx, plan).Goes?
    ensures OnPlan(db, Run(db, tx, plan).at, plan)
  {
    var at := tx.at;
    if at.CancelStock? {
      var k := |plan| - |at.todo|;
      if at.todo != [] {
        assert plan[k..][0] == plan[k] && plan[k..][1..] == plan[k + 1..];
        assert plan[..k + 1] == plan[..k] + [plan[k]];
      }
    } else if Run(db, tx, plan).at.CancelStock? {
      assert plan[0..] == plan;
    }
  }

  lemma TouchKeepsRows(db: Db, p: nat, t: Touch)
    ensures SameRows(db, TouchTx(db, p, t))
  {
  }

  lemma StepUnderway(db: Db, e: Engine, step: Step, a: Call, b: Call, plan: seq<int>, plan': seq<int>)
    requires Underway(db, e, a, b, plan, plan') && IsOfPair(step, a, b, plan, plan')
    ensures Underway(db, Apply(e, step), a, b, plan, plan')
  {
    match step
    case Next(id, _) => NextUnderway(db, e, id, a, b, plan, plan');
    case Worker(p, t) =>
      TouchKeepsRows(e.db, p, t);
      if 0 !in e.results && 1 !in e.results {
        forall id | id in e.txs
          ensures OnPlan(TouchTx(e.db, p, t), e.txs[id].at, PlanOf(id, plan, plan'))
        {
          PlanStays(e.db, TouchTx(e.db, p, t), e.txs[id].at, PlanOf(id, plan, plan'));
        }
      }
    case Begin(_, _) =>
    case RollBack(_) =>
  }

  lemma NextUnderway(db: Db, e: Engine, id: nat, a: Call, b: Call, plan: seq<int>, plan': seq<int>)
    requires Underway(db, e, a, b, plan, plan')
    ensures Underway(db, Apply(e, Next(id, PlanOf(id, plan, plan'))), a, b, plan, plan')
  {
    var own := PlanOf(id, plan, plan');
    if CanMove(e, id) && Run(e.db, e.txs[id], own).Goes? && 0 !in e.results && 1 !in e.results {
      PlanAdvances(e.db, e.txs[id], own);
    }
  }

  lemma {:induction false} RunUnderway(db: Db, steps: seq<Step>, a: Call, b: Call, plan: seq<int>, plan': seq<int>)
    requires WithPlans(steps, a, b, plan, plan')
    ensures Underway(db, Exec(db, steps), a, b, plan, plan')
  {
    if steps != [] {
      RunUnderway(db, steps[..|steps| - 1], a, b, plan, plan');
      assert IsOfPair(steps[|steps| - 1], a, b, plan, plan');
      StepUnderway(db, Exec(db, steps[..|steps| - 1]), Last(steps), a, b, plan, plan');
    }
  }

  /** Two waiting calls wait for each other. */
  lemma WaitForEachOther(db: Db, steps: seq<Step>, a: Call, b: Call, plan: seq<int>, plan': seq<int>)
    requires TablesOk(db) && WithPlans(steps, a, b, plan, plan') && Deadlocked(Exec(db, steps), {0, 1})
    ensures var e := Exec(db, steps);
      && EngineOk(e) && SameRows(db, e.db)
      && 0 in e.txs && e.txs[0].call == a && OnPlan(e.db, e.txs[0].at, plan)
      && 1 in e.txs && e.txs[1].call == b && OnPlan(e.db, e.txs[1].at, plan')
      && WaitsFor(e, 0) == Some(1) && WaitsFor(e, 1) == Some(0)
  {
    var e := Exec(db, steps);
    ExecKeepsEngine(db, steps);
    RunUnderway(db, steps, a, b, plan, plan');
    NobodyWaitsForItself(e, 0);
    NobodyWaitsForItself(e, 1);
  }

  lemma NobodyWaitsForItself(e: Engine, id: nat)
    requires id in e.txs && Shaped(e.txs[id])
    ensures WaitsFor(e, id) != Some(id)
  {
  }

  // ----- a cancel and a create

  predicate Cancellable(db: Db, order: nat) {
    && order < |db.orders| && CanTransition(db.orders[order].status, Cancelled)
    && (db.orders[order].status == Open ==> FindInStatus(db.payments, order, Pending).None?)
  }

  /** The plan visits a product before a lower one, and both are in stock. */
  ghost predicate GoesDown(products: map<int, Product>, plan: seq<int>) {
    exists i, j :: && 0 <= i < j < |plan| && plan[i] > plan[j]
                   && InStock(products, plan[i]) && InStock(products, plan[j])
  }

  predicate InStock(products: map<int, Product>, p: int) {
    p in products && products[p].stock >= 1
  }

  /** What the waiting create shows: it holds a product in stock below the one in stock it waits for. */
  lemma CreateHoldsBelow(e: Engine, id: nat, h: nat)
    requires EngineOk(e) && id in e.txs && e.txs[id].call.CreateCall? && WaitsFor(e, id) == Some(h)
    requires h in e.txs && e.txs[h].call.CancelCall?
    ensures var q := Awaited(e, id);
      && q.ProductLock? && InStock(e.db.products, q.product)
      && e.txs[h].at.CancelStock? && q.product in e.txs[h].at.held
      && forall l | Holds(e.txs[id], l) && l.ProductLock? :: l.product < q.product && InStock(e.db.products, l.product)
  {
    AwaitedIsHeld(e, id);
    var at := e.txs[id].at;
    assert TxOk(e.db, e.txs[id]);
    assert at.CreateStock?;
    forall l | Holds(e.txs[id], l) && l.ProductLock?
      ensures l.product < Awaited(e, id).product && InStock(e.db.products, l.product)
    {
      var i :| 0 <= i < |at.rows| && at.lines[i].product == l.product;
      assert DoneLine(e.db.products, at.lines[i], at.rows[i], at.held);
      assert at.lines[i].product <= at.lines[|at.rows|].product;
    }
  }

  /** What the waiting cancel shows: the product it visits next is held by the create. */
  lemma CancelAwaitsProduct(e: Engine, id: nat, h: nat)
    requires EngineOk(e) && id in e.txs && e.txs[id].call.CancelCall? && WaitsFor(e, id) == Some(h)
    requires h in e.txs && e.txs[h].call.CreateCall?
    ensures var at := e.txs[id].at;
      at.CancelStock? && at.todo != [] && Holds(e.txs[h], ProductLock(at.todo[0]))
  {
    AwaitedIsHeld(e, id);
  }

  lemma CancelIsCancellable(db: Db, db': Db, tx: Tx)
    requires Shaped(tx) && tx.at.CancelStock? && TxOk(db', tx) && SameRows(db, db')
    ensures Cancellable(db, tx.call.order) && db.orders[tx.call.order] == tx.at.row
  {
    var p := FindInStatus(db.payments, tx.call.order, Pending);
    if p.Some? { assert db'.payments[p.value].status == Pending; }
  }

  lemma CancelDeadlockNeeds(db: Db, order: nat, now: nat, plan: seq<int>, create: Call, steps: seq<Step>)
    requires TablesOk(db) && create.CreateCall?
    requires OnlyThese(steps, CancelCall(order, now), create, plan) && Deadlocked(Exec(db, steps), {0, 1})
    ensures Cancellable(db, order) && PlanOk(db.products, db.orders[order].items, plan) && GoesDown(db.products, plan)
  {
    var e := Exec(db, steps);
    WaitForEachOther(db, steps, CancelCall(order, now), create, plan, plan);
    CreateHoldsBelow(e, 1, 0);
    CancelAwaitsProduct(e, 0, 1);
    CancelIsCancellable(db, e.db, e.txs[0]);
    var at, q := e.txs[0].at, Awaited(e, 1).product;
    var j := |plan| - |at.todo|;
    var i :| 0 <= i < j && plan[i] == q;
    assert at.todo[0] == plan[j];
    assert plan[i] > plan[j] && InStock(db.products, plan[i]) && InStock(db.products, plan[j]);
  }

  // the construction

  /** Only statements of one call. */
  ghost predicate StepsOf(steps: seq<Step>, id: nat, call: Call, plan: seq<int>) {
    forall i | 0 <= i < |steps| :: steps[i] == Begin(id, call) || steps[i] == Next(id, plan)
  }

  lemma StepsOfBoth(first: seq<Step>, second: seq<Step>, a: Call, b: Call, plan: seq<int>, plan': seq<int>)
    requires StepsOf(first, 0, a, plan) && StepsOf(second, 1, b, plan')
    ensures WithPlans(first + second, a, b, plan, plan')
  {
    var all := first + second;
    forall i | 0 <= i < |all| ensures IsOfPair(all[i], a, b, plan, plan') {
      assert all[i] == if i < |first| then first[i] else second[i - |first|];
    }
  }

  /** Only the first call is there. */
  ghost predicate Alone(e: Engine, db: Db, call: Call, at: At) {
    e.db == db && e.results == map[] && e.txs == map[0 := Tx(call, at)]
  }

  lemma AloneCanMove(e: Engine, call: Call, at: At)
    requires EngineOk(e) && e.txs == map[0 := Tx(call, at)] && !call.StartCall?
    ensures CanMove(e, 0)
  {
  }

  lemma AloneGoesOn(db: Db, steps: seq<Step>, call: Call, at: At, plan: seq<int>, at': At)
    requires TablesOk(db) && Alone(Exec(db, steps), db, call, at) && !call.StartCall? && Shaped(Tx(call, at))
    requires Run(db, Tx(call, at), plan) == Goes(at')
    ensures Alone(Exec(db, steps + [Next(0, plan)]), db, call, at')
  {
    var e := Exec(db, steps);
    ExecKeepsEngine(db, steps);
    AloneCanMove(e, call, at);
    ExecMore(db, steps, Next(0, plan), e, Apply(e, Next(0, plan)));
    assert e.txs[0 := e.txs[0].(at := at')] == map[0 := Tx(call, at')];
  }

  /** The cancel's statements up to its plan, on these tables. */
  lemma CancelRuns(db: Db, order: nat, now: nat, plan: seq<int>)
    requires Cancellable(db, order) && PlanOk(db.products, db.orders[order].items, plan)
    ensures var call, row := CancelCall(order, now), db.orders[order];
      var refund := NewRefund(db, order, row.status, now);
      && Run(db, Tx(call, CancelStatus), plan) == Goes(CancelCheck(row))
      && Run(db, Tx(call, CancelCheck(row)), plan) == Goes(CancelRefund(row))
      && Run(db, Tx(call, CancelRefund(row)), plan) == Goes(CancelPlan(row, refund))
      && Run(db, Tx(call, CancelPlan(row, refund)), plan) == Goes(CancelStock(row, refund, plan, map[]))
  {
  }

  lemma OneBegins(db: Db, call: Call)
    requires call.CreateCall? ==> CheckRequest(call.lines).None?
    ensures Alone(Exec(db, [Begin(0, call)]), db, call, First(call))
  {
    assert [Begin(0, call)][..0] == [];
    assert Exec(db, [Begin(0, call)]) == Apply(Exec(db, []), Begin(0, call));
  }

  lemma CancelPlans(db: Db, order: nat, now: nat, plan: seq<int>) returns (steps: seq<Step>, refund: Option<Refund>)
    requires TablesOk(db) && Cancellable(db, order) && PlanOk(db.products, db.orders[order].items, plan)
    ensures StepsOf(steps, 0, CancelCall(order, now), plan)
    ensures Alone(Exec(db, steps), db, CancelCall(order, now), CancelStock(db.orders[order], refund, plan, map[]))
  {
    var call, row, go := CancelCall(order, now), db.orders[order], Next(0, plan);
    var s1 := [Begin(0, call)];
    OneBegins(db, call);
    CancelRuns(db, order, now, plan);
    refund := NewRefund(db, order, row.status, now);
    AloneGoesOn(db, s1, call, CancelStatus, plan, CancelCheck(row));
    AloneGoesOn(db, s1 + [go], call, CancelCheck(row), plan, CancelRefund(row));
    AloneGoesOn(db, s1 + [go] + [go], call, CancelRefund(row), plan, CancelPlan(row, refund));
    AloneGoesOn(db, s1 + [go] + [go] + [go], call, CancelPlan(row, refund), plan,
                CancelStock(row, refund, plan, map[]));
    steps := s1 + [go] + [go] + [go] + [go];
  }

  lemma CancelVisits(db: Db, call: Call, row: Order, refund: Option<Refund>, plan: seq<int>, k: nat,
                     had: map<int, Product>)
    requires call.CancelCall? && k < |plan| && plan[k] in db.products
    ensures var p := plan[k];
      Run(db, Tx(call, CancelStock(row, refund, plan[k..], had)), plan)
      == Goes(CancelStock(row, refund, plan[k + 1..],
                          had[p := db.products[p].(stock := db.products[p].stock + PickQuantity(row.items, p))]))
  {
    assert plan[k..][0] == plan[k] && plan[k..][1..] == plan[k + 1..];
  }

  /** The cancel one product further. */
  lemma CancelAdvances(db: Db, before: seq<Step>, call: Call, row: Order, refund: Option<Refund>, plan: seq<int>,
                       k: nat, had: map<int, Product>)
    returns (held: map<int, Product>)
    requires TablesOk(db) && call.CancelCall? && k < |plan| && plan[k] in db.products
    requires Alone(Exec(db, before), db, call, CancelStock(row, refund, plan[k..], had))
    requires forall p :: p in had <==> p in plan[..k]
    ensures Alone(Exec(db, before + [Next(0, plan)]), db, call, CancelStock(row, refund, plan[k + 1..], held))
    ensures forall p :: p in held <==> p in plan[..k + 1]
  {
    var p := plan[k];
    held := had[p := db.products[p].(stock := db.products[p].stock + PickQuantity(row.items, p))];
    CancelVisits(db, call, row, refund, plan, k, had);
    AloneGoesOn(db, before, call, CancelStock(row, refund, plan[k..], had), plan,
                CancelStock(row, refund, plan[k + 1..], held));
    assert plan[..k + 1] == plan[..k] + [p];
  }

  lemma {:induction false} CancelReaches(db: Db, order: nat, now: nat, plan: seq<int>, k: nat)
    returns (steps: seq<Step>, refund: Option<Refund>, held: map<int, Product>)
    requires TablesOk(db) && Cancellable(db, order) && PlanOk(db.products, db.orders[order].items, plan) && k <= |plan|
    ensures StepsOf(steps, 0, CancelCall(order, now), plan)
    ensures Alone(Exec(db, steps), db, CancelCall(order, now), CancelStock(db.orders[order], refund, plan[k..], held))
    ensures forall p :: p in held <==> p in plan[..k]
  {
    if k == 0 {
      steps, refund := CancelPlans(db, order, now, plan);
      held := map[];
      assert plan[0..] == plan;
    } else {
      var had;
      steps, refund, had := CancelReaches(db, order, now, plan, k - 1);
      held := CancelAdvances(db, steps, CancelCall(order, now), db.orders[order], refund, plan, k - 1, had);
      steps := steps + [Next(0, plan)];
    }
  }

  // then the create comes

  /** The first call stays where it is, and a second one is beside it. */
  ghost predicate Beside(e: Engine, db: Db, first: Tx, call: Call, at: At) {
    e.db == db && e.results == map[] && e.txs == map[0 := first, 1 := Tx(call, at)]
  }

  lemma BesideGoesOn(db: Db, steps: seq<Step>, first: Tx, call: Call, at: At, plan: seq<int>, at': At)
    requires TablesOk(db) && Beside(Exec(db, steps), db, first, call, at) && Shaped(Tx(call, at))
    requires WaitsFor(Exec(db, steps), 1).None? && Run(db, Tx(call, at), plan) == Goes(at')
    ensures Beside(Exec(db, steps + [Next(1, plan)]), db, first, call, at')
  {
    var e := Exec(db, steps);
    ExecMore(db, steps, Next(1, plan), e, Apply(e, Next(1, plan)));
    assert e.txs[1 := e.txs[1].(at := at')] == map[0 := first, 1 := Tx(call, at')];
  }

  lemma TakesNothingWaitsForNobody(e: Engine, id: nat)
    requires id in e.txs && Shaped(e.txs[id]) && e.txs[id].call.CreateCall? && Takes(e.db, e.txs[id]).None?
    ensures WaitsFor(e, id).None?
  {
  }

  /** A product that the cancel has not visited is free. */
  lemma UnvisitedIsFree(e: Engine, db: Db, cancel: Tx, create: Call, at: At, p: int)
    requires EngineOk(e) && Beside(e, db, cancel, create, at) && at.CreateStock? && create.CreateCall?
    requires Shaped(cancel) && !Holds(cancel, ProductLock(p)) && Takes(db, Tx(create, at)) == Some(ProductLock(p))
    ensures WaitsFor(e, 1).None?
  {
    assert e.txs[0] == cancel && LocksOf(e.locks, 0, e.txs[0]);
    assert ProductLock(p) in e.locks ==> e.locks[ProductLock(p)] != 0;
  }

  function TwoLines(p: int, q: int): seq<Line> {
    [Line(p, 1), Line(q, 1)]
  }

  lemma TwoLinesAreSorted(p: int, q: int)
    requires p < q
    ensures SortLines(TwoLines(p, q)) == TwoLines(p, q) && CheckRequest(TwoLines(p, q)).None?
  {
    var lines := TwoLines(p, q);
    assert lines[..1] == [Line(p, 1)] && lines[..1][..0] == [];
    assert SortLines(lines[..1]) == [Line(p, 1)] by { assert SortLines(lines[..1][..0]) == []; }
    assert CheckLines(lines[..1][..0]).None?;
    assert CheckLines(lines[..1]).None?;
    CheckLinesIsGoodLines(lines);
  }

  /** The create's first statements, on these tables. */
  lemma CreateKeyRuns(db: Db, lines: seq<Line>, plan: seq<int>)
    ensures Run(db, Tx(CreateCall(lines, ""), CreateKey), plan) == Goes(CreatePrice(SortLines(lines), [], map[]))
    ensures Takes(db, Tx(CreateCall(lines, ""), CreateKey)).None?
  {
  }

  lemma CreatePriceRuns(db: Db, call: Call, lines: seq<Line>, plan: seq<int>)
    requires call.CreateCall? && lines != [] && lines[0].product in db.products
    ensures Run(db, Tx(call, CreatePrice(lines, [], map[])), plan)
         == Goes(CreateStock(lines, [], map[], db.products[lines[0].product].price))
    ensures Takes(db, Tx(call, CreatePrice(lines, [], map[]))).None?
  {
  }

  lemma SecondBegins(db: Db, before: seq<Step>, first: Tx, call: Call)
    requires Exec(db, before).db == db && Exec(db, before).results == map[] && Exec(db, before).txs == map[0 := first]
    requires call.CreateCall? ==> CheckRequest(call.lines).None?
    ensures Beside(Exec(db, before + [Begin(1, call)]), db, first, call, First(call))
  {
    var e := Exec(db, before);
    ExecMore(db, before, Begin(1, call), e, Apply(e, Begin(1, call)));
    assert e.txs[1 := Tx(call, First(call))] == map[0 := first, 1 := Tx(call, First(call))];
  }

  /** A statement of the create that needs no lock. */
  lemma CreateGoesFree(db: Db, steps: seq<Step>, cancel: Tx, create: Call, at: At, plan: seq<int>, at': At)
    requires TablesOk(db) && Beside(Exec(db, steps), db, cancel, create, at)
    requires create.CreateCall? && Shaped(Tx(create, at))
    requires Takes(db, Tx(create, at)).None? && Run(db, Tx(create, at), plan) == Goes(at')
    ensures Beside(Exec(db, steps + [Next(1, plan)]), db, cancel, create, at')
  {
    TakesNothingWaitsForNobody(Exec(db, steps), 1);
    BesideGoesOn(db, steps, cancel, create, at, plan, at');
  }

  lemma CreateStarts(db: Db, before: seq<Step>, cancel: Tx, lines: seq<Line>, plan: seq<int>)
    requires TablesOk(db) && Exec(db, before).db == db && Exec(db, before).results == map[]
    requires Exec(db, before).txs == map[0 := cancel]
    requires lines != [] && SortLines(lines) == lines && CheckRequest(lines).None? && lines[0].product in db.products
    ensures var create, go := CreateCall(lines, ""), [Next(1, plan)];
      Beside(Exec(db, before + [Begin(1, create)] + go + go), db, cancel, create,
             CreateStock(lines, [], map[], db.products[lines[0].product].price))
  {
    var create := CreateCall(lines, "");
    var s1 := before + [Begin(1, create)];
    SecondBegins(db, before, cancel, create);
    CreateKeyRuns(db, lines, plan);
    CreateGoesFree(db, s1, cancel, create, CreateKey, plan, CreatePrice(lines, [], map[]));
    CreatePriceRuns(db, create, lines, plan);
    CreateGoesFree(db, s1 + [Next(1, plan)], cancel, create, CreatePrice(lines, [], map[]), plan,
                   CreateStock(lines, [], map[], db.products[lines[0].product].price));
  }

  lemma CreateBegins(db: Db, before: seq<Step>, cancel: Tx, p: int, q: int, plan: seq<int>) returns (steps: seq<Step>)
    requires TablesOk(db) && Exec(db, before).db == db && Exec(db, before).results == map[]
    requires Exec(db, before).txs == map[0 := cancel]
    requires p < q && InStock(db.products, p)
    ensures StepsOf(steps, 1, CreateCall(TwoLines(p, q), ""), plan)
    ensures Beside(Exec(db, before + steps), db, cancel, CreateCall(TwoLines(p, q), ""),
                   CreateStock(TwoLines(p, q), [], map[], db.products[p].price))
  {
    var create := CreateCall(TwoLines(p, q), "");
    TwoLinesAreSorted(p, q);
    CreateStarts(db, before, cancel, TwoLines(p, q), plan);
    steps := [Begin(1, create)];
    TwoMore(before, steps, create, plan);
    steps := steps + [Next(1, plan)] + [Next(1, plan)];
  }

  /** It takes the first product and reads the price of the second. */
  lemma CreateTakes(db: Db, steps: seq<Step>, cancel: Tx, p: int, q: int, plan: seq<int>) returns (at: At)
    requires TablesOk(db) && Shaped(cancel) && !Holds(cancel, ProductLock(p))
    requires InStock(db.products, p) && InStock(db.products, q)
    requires Beside(Exec(db, steps), db, cancel, CreateCall(TwoLines(p, q), ""),
                    CreateStock(TwoLines(p, q), [], map[], db.products[p].price))
    ensures at.CreateStock? && at.lines == TwoLines(p, q) && |at.rows| == 1 && at.held.Keys == {p}
    ensures Beside(Exec(db, steps + [Next(1, plan)] + [Next(1, plan)]), db, cancel, CreateCall(TwoLines(p, q), ""), at)
  {
    var create, lines := CreateCall(TwoLines(p, q), ""), TwoLines(p, q);
    var first := CreateStock(lines, [], map[], db.products[p].price);
    var rows, held := [Item(p, 1, db.products[p].price)], map[p := db.products[p].(stock := db.products[p].stock - 1)];
    CreateTakesFirst(db, steps, cancel, create, first, p, plan, rows, held);
    at := CreateStock(lines, rows, held, db.products[q].price);
    NextPriceRuns(db, create, lines, rows, held, plan);
    CreateGoesFree(db, steps + [Next(1, plan)], cancel, create, CreatePrice(lines, rows, held), plan, at);
  }

  lemma CreateTakesFirst(db: Db, steps: seq<Step>, cancel: Tx, create: Call, first: At, p: int, plan: seq<int>,
                         rows: seq<Item>, held: map<int, Product>)
    requires TablesOk(db) && Shaped(cancel) && !Holds(cancel, ProductLock(p)) && create.CreateCall?
    requires first.CreateStock? && first.rows == [] && first.held == map[]
    requires first.lines != [] && first.lines[0] == Line(p, 1)
    requires InStock(db.products, p) && Beside(Exec(db, steps), db, cancel, create, first)
    requires rows == [Item(p, 1, first.price)]
    requires held == map[p := db.products[p].(stock := db.products[p].stock - 1)]
    ensures Beside(Exec(db, steps + [Next(1, plan)]), db, cancel, create, CreatePrice(first.lines, rows, held))
  {
    ExecKeepsEngine(db, steps);
    UnvisitedIsFree(Exec(db, steps), db, cancel, create, first, p);
    FirstRow(db, create, first, plan, rows, held);
    BesideGoesOn(db, steps, cancel, create, first, plan, CreatePrice(first.lines, rows, held));
  }

  lemma NextPriceRuns(db: Db, create: Call, lines: seq<Line>, rows: seq<Item>, held: map<int, Product>, plan: seq<int>)
    requires create.CreateCall? && |rows| < |lines| && lines[|rows|].product in db.products
    ensures var tx := Tx(create, CreatePrice(lines, rows, held));
      && Run(db, tx, plan) == Goes(CreateStock(lines, rows, held, db.products[lines[|rows|].product].price))
      && Takes(db, tx).None?
  {
  }

  lemma FirstRow(db: Db, create: Call, at: At, plan: seq<int>, rows: seq<Item>, held: map<int, Product>)
    requires create.CreateCall? && at.CreateStock? && at.rows == [] && at.held == map[] && at.lines != []
    requires var line := at.lines[0];
      && line.product in db.products && db.products[line.product].stock >= line.quantity
      && rows == [Item(line.product, line.quantity, at.price)]
      && var p := db.products[line.product]; held == map[line.product := p.(stock := p.stock - line.quantity)]
    ensures Run(db, Tx(create, at), plan) == Goes(CreatePrice(at.lines, rows, held))
  {
    assert [] + rows == rows;
  }

  lemma TwoMore(before: seq<Step>, steps: seq<Step>, call: Call, plan: seq<int>)
    requires StepsOf(steps, 1, call, plan)
    ensures var go := [Next(1, plan)];
      StepsOf(steps + go + go, 1, call, plan) && before + (steps + go + go) == before + steps + go + go
  {
  }

  lemma CreateWaits(db: Db, before: seq<Step>, cancel: Tx, p: int, q: int, plan: seq<int>)
    returns (steps: seq<Step>, at: At)
    requires TablesOk(db) && Exec(db, before).db == db && Exec(db, before).results == map[]
    requires Exec(db, before).txs == map[0 := cancel]
    requires Shaped(cancel) && !Holds(cancel, ProductLock(p))
    requires p < q && InStock(db.products, p) && InStock(db.products, q)
    ensures StepsOf(steps, 1, CreateCall(TwoLines(p, q), ""), plan)
    ensures at.CreateStock? && at.lines == TwoLines(p, q) && |at.rows| == 1 && at.held.Keys == {p}
    ensures Beside(Exec(db, before + steps), db, cancel, CreateCall(TwoLines(p, q), ""), at)
  {
    var begun := CreateBegins(db, before, cancel, p, q, plan);
    at := CreateTakes(db, before + begun, cancel, p, q, plan);
    steps := begun + [Next(1, plan)] + [Next(1, plan)];
    TwoMore(before, begun, CreateCall(TwoLines(p, q), ""), plan);
  }

  lemma TheyWait(e: Engine, db: Db, cancel: Tx, create: Call, at: At, p: int, q: int)
    requires EngineOk(e) && Beside(e, db, cancel, create, at) && create.CreateCall?
    requires at.CreateStock? && at.lines == TwoLines(p, q) && |at.rows| == 1 && at.held.Keys == {p}
    requires InStock(db.products, p) && InStock(db.products, q)
    requires cancel.call.CancelCall? && cancel.at.CancelStock? && cancel.at.todo != [] && cancel.at.todo[0] == p
    requires q in cancel.at.held
    ensures Deadlocked(e, {0, 1})
  {
    assert LocksOf(e.locks, 0, e.txs[0]) && LocksOf(e.locks, 1, e.txs[1]);
    assert Holds(e.txs[0], ProductLock(q)) && Holds(e.txs[1], ProductLock(p));
    WaitsForOwner(e, 1, ProductLock(q), 0);
    WaitsForOwner(e, 0, ProductLock(p), 1);
  }

  lemma CancelDeadlocks(db: Db, order: nat, now: nat, plan: seq<int>, i: nat, j: nat) returns (steps: seq<Step>)
    requires TablesOk(db) && Cancellable(db, order) && PlanOk(db.products, db.orders[order].items, plan)
    requires i < j < |plan| && plan[i] > plan[j] && InStock(db.products, plan[i]) && InStock(db.products, plan[j])
    ensures OnlyThese(steps, CancelCall(order, now), CreateCall(TwoLines(plan[j], plan[i]), ""), plan)
    ensures Deadlocked(Exec(db, steps), {0, 1})
  {
    var p, q := plan[j], plan[i];
    var before, refund, held := CancelReaches(db, order, now, plan, j);
    var cancel := Tx(CancelCall(order, now), CancelStock(db.orders[order], refund, plan[j..], held));
    assert p !in plan[..j] && q in plan[..j] by { assert plan[..j][i] == q; }
    var after, at := CreateWaits(db, before, cancel, p, q, plan);
    steps := before + after;
    ExecKeepsEngine(db, steps);
    TheyWait(Exec(db, steps), db, cancel, CreateCall(TwoLines(p, q), ""), at, p, q);
    StepsOfBoth(before, after, CancelCall(order, now), CreateCall(TwoLines(p, q), ""), plan, plan);
  }

  /** A cancel can deadlock with some create if and only if the order can be cancelled and the query plan visits a
      product before a lower one, both in stock: decided by the tables and the plan alone. */
  lemma {:induction false} CancelDeadlocksIff(db: Db, order: nat, now: nat, plan: seq<int>)
    requires TablesOk(db)
    ensures (exists create: Call, steps ::
               && create.CreateCall? && OnlyThese(steps, CancelCall(order, now), create, plan)
               && Deadlocked(Exec(db, steps), {0, 1}))
      <==> Cancellable(db, order) && PlanOk(db.products, db.orders[order].items, plan) && GoesDown(db.products, plan)
  {
    if Cancellable(db, order) && PlanOk(db.products, db.orders[order].items, plan) && GoesDown(db.products, plan) {
      var i: nat, j: nat :| i < j < |plan| && plan[i] > plan[j] && InStock(db.products, plan[i])
          && InStock(db.products, plan[j]);
      var steps := CancelDeadlocks(db, order, now, plan, i, j);
      assert CreateCall(TwoLines(plan[j], plan[i]), "").CreateCall?;
    }
    forall create: Call, steps
      | create.CreateCall? && OnlyThese(steps, CancelCall(order, now), create, plan)
          && Deadlocked(Exec(db, steps), {0, 1})
      ensures Cancellable(db, order) && PlanOk(db.products, db.orders[order].items, plan) && GoesDown(db.products, plan)
    {
      CancelDeadlockNeeds(db, order, now, plan, create, steps);
    }
  }

  // ----- a Transition and a start

  /** The payment waits for its outcome on an open order that costs something. */
  predicate CanBePaid(db: Db, p: nat, order: nat) {
    && p < |db.payments| && db.payments[p].status == Pending && db.payments[p].order == order
    && OrderIsOpen(db, order) && Total(db.orders[order].items) > 0
  }

  lemma TransitionShows(e: Engine, id: nat, h: nat)
    requires EngineOk(e) && id in e.txs && e.txs[id].call.TransitionCall? && e.txs[id].call.to == Succeeded
    requires WaitsFor(e, id) == Some(h) && h in e.txs && e.txs[h].call.StartCall?
    ensures var p, order := e.txs[id].call.payment, e.txs[h].call.order;
      && e.txs[id].at.TransitionOrder?
      && p < |e.db.payments|
      && e.db.payments[p].status == Pending
      && e.db.payments[p].order == order
      && OrderIsOpen(e.db, order)
  {
    AwaitedIsHeld(e, id);
    assert TxOk(e.db, e.txs[id]);
  }

  lemma StartShows(e: Engine, id: nat, h: nat)
    requires EngineOk(e) && id in e.txs && e.txs[id].call.StartCall? && WaitsFor(e, id) == Some(h)
    requires h in e.txs && e.txs[h].at.TransitionOrder?
    ensures OrderIsOpen(e.db, e.txs[id].call.order) && Total(e.db.orders[e.txs[id].call.order].items) > 0
  {
    AwaitedIsHeld(e, id);
    assert TxOk(e.db, e.txs[id]);
  }

  lemma StartDeadlockNeeds(db: Db, p: nat, charge: Option<nat>, start: Call, plan: seq<int>, steps: seq<Step>)
    requires TablesOk(db) && start.StartCall?
    requires OnlyThese(steps, TransitionCall(p, Succeeded, charge), start, plan) && Deadlocked(Exec(db, steps), {0, 1})
    ensures CanBePaid(db, p, start.order)
  {
    WaitForEachOther(db, steps, TransitionCall(p, Succeeded, charge), start, plan, plan);
    TransitionShows(Exec(db, steps), 0, 1);
    StartShows(Exec(db, steps), 1, 0);
  }

  lemma TransitionReaches(db: Db, p: nat, charge: Option<nat>, plan: seq<int>) returns (steps: seq<Step>)
    requires TablesOk(db) && p < |db.payments| && db.payments[p].status == Pending
    ensures StepsOf(steps, 0, TransitionCall(p, Succeeded, charge), plan)
    ensures var was := db.payments[p];
      Alone(Exec(db, steps), db, TransitionCall(p, Succeeded, charge),
            TransitionOrder(was, Written(was, Succeeded, charge)))
  {
    var call, was, go := TransitionCall(p, Succeeded, charge), db.payments[p], Next(0, plan);
    var s1 := [Begin(0, call)];
    OneBegins(db, call);
    AloneGoesOn(db, s1, call, TransitionStatus, plan, TransitionWrite(was));
    AloneGoesOn(db, s1 + [go], call, TransitionWrite(was), plan, TransitionOrder(was, Written(was, Succeeded, charge)));
    steps := s1 + [go] + [go];
  }

  /** While the Transition has only its payment, the order is free for the start. */
  lemma OrderIsFree(e: Engine, db: Db, first: Tx, call: Call, at: At)
    requires EngineOk(e) && Beside(e, db, first, call, at) && first.at.TransitionOrder? && call.StartCall?
    requires at.StartStatus? || at.StartSum?
    ensures WaitsFor(e, 1).None?
  {
    assert e.txs[0] == first && LocksOf(e.locks, 0, e.txs[0]);
    var l := OrderLock(call.order);
    assert l in e.locks ==> e.locks[l] != 0;
  }

  lemma StartRuns(db: Db, start: Call, plan: seq<int>)
    requires start.StartCall? && OrderIsOpen(db, start.order)
    ensures Run(db, Tx(start, StartStatus), plan) == Goes(StartSum)
    ensures Run(db, Tx(start, StartSum), plan) == Goes(StartInsert(Total(db.orders[start.order].items)))
  {
  }

  lemma StartReaches(db: Db, before: seq<Step>, first: Tx, start: Call, plan: seq<int>) returns (steps: seq<Step>)
    requires TablesOk(db) && Exec(db, before).db == db && Exec(db, before).results == map[]
    requires Exec(db, before).txs == map[0 := first]
    requires Shaped(first) && first.at.TransitionOrder? && start.StartCall? && OrderIsOpen(db, start.order)
    ensures StepsOf(steps, 1, start, plan)
    ensures Beside(Exec(db, before + steps), db, first, start, StartInsert(Total(db.orders[start.order].items)))
  {
    var go := Next(1, plan);
    var s1 := before + [Begin(1, start)];
    SecondBegins(db, before, first, start);
    StartRuns(db, start, plan);
    StartMoves(db, s1, first, start, StartStatus, plan, StartSum);
    StartMoves(db, s1 + [go], first, start, StartSum, plan, StartInsert(Total(db.orders[start.order].items)));
    steps := [Begin(1, start)] + [go] + [go];
    assert before + steps == s1 + [go] + [go];
  }

  lemma StartMoves(db: Db, steps: seq<Step>, first: Tx, start: Call, at: At, plan: seq<int>, at': At)
    requires TablesOk(db) && Beside(Exec(db, steps), db, first, start, at) && start.StartCall?
    requires first.at.TransitionOrder? && (at.StartStatus? || at.StartSum?) && Run(db, Tx(start, at), plan) == Goes(at')
    ensures Beside(Exec(db, steps + [Next(1, plan)]), db, first, start, at')
  {
    ExecKeepsEngine(db, steps);
    OrderIsFree(Exec(db, steps), db, first, start, at);
    BesideGoesOn(db, steps, first, start, at, plan, at');
  }

  lemma RewrittenByFirst(e: Engine, p: nat)
    requires EngineOk(e) && 0 in e.txs && e.txs[0].at.TransitionOrder? && e.txs[0].call.payment == p
    ensures Rewritten(e, Some(p)) && e.locks[PaymentLock(p)] == 0
  {
    assert LocksOf(e.locks, 0, e.txs[0]) && Holds(e.txs[0], PaymentLock(p));
  }

  /** Every row that the start can meet being rewritten is the Transition's. */
  lemma OnlyFirstRewrites(e: Engine, db: Db, first: Tx, start: Call, at: At, x: Option<nat>)
    requires EngineOk(e) && Beside(e, db, first, start, at) && start.StartCall? && at.StartInsert? && Rewritten(e, x)
    ensures e.locks[PaymentLock(x.value)] == 0
  {
  }

  lemma StartMeetsRewritten(e: Engine, db: Db, first: Tx, start: Call, p: nat)
    requires EngineOk(e) && start.StartCall? && CanBePaid(db, p, start.order)
    requires Beside(e, db, first, start, StartInsert(Total(db.orders[start.order].items)))
    requires first.at.TransitionOrder? && first.call.TransitionCall? && first.call.payment == p
    ensures WaitsFor(e, 1) == Some(0)
  {
    RewrittenByFirst(e, p);
    PendingIsFound(db, p, start.order);
    var clashes := Clashes(db, e.txs[1]);
    assert clashes[1] == Some(p);
    if Rewritten(e, clashes[0]) { OnlyFirstRewrites(e, db, first, start, e.txs[1].at, clashes[0]); }
  }

  lemma PendingIsFound(db: Db, p: nat, order: nat)
    requires TablesOk(db) && CanBePaid(db, p, order)
    ensures FindInStatus(db.payments, order, Pending) == Some(p)
  {
    var q := FindInStatus(db.payments, order, Pending).value;
    assert Active(db.payments[q].status) && Active(db.payments[p].status);
  }

  lemma StartDeadlocks(db: Db, p: nat, charge: Option<nat>, start: Call, plan: seq<int>) returns (steps: seq<Step>)
    requires TablesOk(db) && start.StartCall? && CanBePaid(db, p, start.order)
    ensures OnlyThese(steps, TransitionCall(p, Succeeded, charge), start, plan) && Deadlocked(Exec(db, steps), {0, 1})
  {
    var call := TransitionCall(p, Succeeded, charge);
    var before := TransitionReaches(db, p, charge, plan);
    var first := Exec(db, before).txs[0];
    var after := StartReaches(db, before, first, start, plan);
    steps := before + after;
    StepsOfBoth(before, after, call, start, plan, plan);
    ExecKeepsEngine(db, steps);
    var e := Exec(db, steps);
    StartMeetsRewritten(e, db, first, start, p);
    SameOrderWaitsBack(e, 1, 0);
  }

  /** A payment request can deadlock with a payment's move to succeeded if and only if that payment is the pending one
      of the same order, and the order is open and costs something. The key does not matter. */
  lemma {:induction false} StartDeadlocksIff(db: Db, p: nat, charge: Option<nat>, start: Call, plan: seq<int>)
    requires TablesOk(db) && start.StartCall?
    ensures (exists steps ::
               OnlyThese(steps, TransitionCall(p, Succeeded, charge), start, plan)
                   && Deadlocked(Exec(db, steps), {0, 1}))
      <==> CanBePaid(db, p, start.order)
  {
    if CanBePaid(db, p, start.order) {
      var steps := StartDeadlocks(db, p, charge, start, plan);
    }
    forall steps | OnlyThese(steps, TransitionCall(p, Succeeded, charge), start, plan)
        && Deadlocked(Exec(db, steps), {0, 1})
      ensures CanBePaid(db, p, start.order)
    {
      StartDeadlockNeeds(db, p, charge, start, plan, steps);
    }
  }
}
