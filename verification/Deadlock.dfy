/** Which transactions can wait for each other in a circle, and which cannot. */
module Deadlock {
  import opened Domain
  import opened Tables
  import opened Orders
  import opened RowLocks
  import opened LockInvariant
  import opened LockRefinement

  /** A set of transactions each of which waits for one of the set. */
  ghost predicate Deadlocked(e: Engine, d: set<nat>) {
    && d != {}
    && forall id | id in d :: id in e.txs && Shaped(e.txs[id]) && WaitsFor(e, id).Some? && WaitsFor(e, id).value in d
  }

  /** The lock that a waiting transaction waits for. */
  function Awaited(e: Engine, id: nat): Lock
    requires id in e.txs && Shaped(e.txs[id]) && WaitsFor(e, id).Some?
  {
    var lock, clashes := Takes(e.db, e.txs[id]), Clashes(e.db, e.txs[id]);
    if lock.Some? && lock.value in e.locks && e.locks[lock.value] != id then lock.value
    else if Rewritten(e, clashes[0]) then PaymentLock(clashes[0].value)
    else if Rewritten(e, clashes[1]) then PaymentLock(clashes[1].value)
    else PaymentLock(clashes[2].value)
  }

  /** The place of a lock in the order in which transactions take them: creation key, payment that is
      about to pay an order, order, other payments and payment keys, products by id. */
  datatype Place = Place(level: nat, product: int)

  function PlaceOf(e: Engine, l: Lock): Place {
    match l
    case CreationKey(_) => Place(0, 0)
    case PaymentLock(_) => if PaysOrder(e, l) then Place(1, 0) else Place(3, 0)
    case OrderLock(_) => Place(2, 0)
    case PaymentKey(_) => Place(3, 0)
    case ProductLock(p) => Place(4, p)
  }

  predicate PaysOrder(e: Engine, l: Lock) {
    && l in e.locks && e.locks[l] in e.txs
    && var call := e.txs[e.locks[l]].call; call.TransitionCall? && call.to == Succeeded
  }

  predicate Before(a: Place, b: Place) {
    a.level < b.level || (a.level == b.level && a.product < b.product)
  }

  /** The two ways to wait against that order: CancelOrder's stock UPDATE going down in product ids,
      and a payment INSERT facing a Transition to succeeded that has not reached the order yet. */
  predicate Inverted(e: Engine, id: nat)
    requires id in e.txs && Shaped(e.txs[id])
  {
    var at := e.txs[id].at;
    || (at.CancelStock? && at.todo != [] && exists p | p in at.held :: p > at.todo[0])
    || (at.StartInsert? && WaitsFor(e, id).Some? && PaysOrder(e, Awaited(e, id)))
  }

  lemma AwaitedIsHeld(e: Engine, id: nat)
    requires EngineOk(e) && id in e.txs && WaitsFor(e, id).Some?
    ensures Awaited(e, id) in e.locks && e.locks[Awaited(e, id)] == WaitsFor(e, id).value
    ensures WaitsFor(e, id).value in e.txs && Holds(e.txs[WaitsFor(e, id).value], Awaited(e, id))
  {
    var h := WaitsFor(e, id).value;
    assert LocksOf(e.locks, h, e.txs[h]);
  }

  /** What a waiting create awaits. */
  lemma CreateAwaits(e: Engine, id: nat)
    requires id in e.txs && Shaped(e.txs[id]) && e.txs[id].call.CreateCall? && WaitsFor(e, id).Some?
    ensures var at := e.txs[id].at;
      || (at.CreateKey? && Awaited(e, id).CreationKey?)
      || (at.CreateStock? && Deducts(e.db, at) && Awaited(e, id) == ProductLock(at.lines[|at.rows|].product))
  {
  }

  /** The products done come before the next one. */
  lemma DoneLinesAreBefore(db: Db, tx: Tx, p: int)
    requires Shaped(tx) && TxOk(db, tx) && tx.at.CreateStock? && p in tx.at.held
    ensures p < tx.at.lines[|tx.at.rows|].product
  {
    var at := tx.at;
    var i :| 0 <= i < |at.rows| && at.lines[i].product == p;
    assert at.lines[i].product <= at.lines[|at.rows|].product;
  }

  lemma CreateWaitsInOrder(e: Engine, id: nat, l: Lock)
    requires EngineOk(e) && id in e.txs && e.txs[id].call.CreateCall?
    requires WaitsFor(e, id).Some? && Holds(e.txs[id], l)
    ensures Before(PlaceOf(e, l), PlaceOf(e, Awaited(e, id)))
  {
    CreateAwaits(e, id);
    if l.ProductLock? { DoneLinesAreBefore(e.db, e.txs[id], l.product); }
  }

  /** The payment of a refund is succeeded, so nobody is moving it there. */
  lemma RefundAwaitsPayment(e: Engine, id: nat)
    requires id in e.txs && Shaped(e.txs[id]) && e.txs[id].at.CancelRefund? && WaitsFor(e, id).Some?
    ensures Awaited(e, id).PaymentLock?
    ensures var p := Awaited(e, id).payment; p < |e.db.payments| && e.db.payments[p].status == Succeeded
  {
  }

  lemma NobodyMovesToSucceeded(e: Engine, h: nat, p: nat)
    requires EngineOk(e) && h in e.txs && Holds(e.txs[h], PaymentLock(p))
    requires p < |e.db.payments| && e.db.payments[p].status == Succeeded
    ensures !(e.txs[h].call.TransitionCall? && e.txs[h].call.to == Succeeded)
  {
    assert TxOk(e.db, e.txs[h]);
  }

  lemma RefundedPaymentIsLate(e: Engine, id: nat)
    requires EngineOk(e) && id in e.txs && e.txs[id].at.CancelRefund? && WaitsFor(e, id).Some?
    ensures PlaceOf(e, Awaited(e, id)) == Place(3, 0)
  {
    AwaitedIsHeld(e, id);
    RefundAwaitsPayment(e, id);
    NobodyMovesToSucceeded(e, WaitsFor(e, id).value, Awaited(e, id).payment);
  }

  lemma StockWaitsForProduct(e: Engine, id: nat)
    requires id in e.txs && Shaped(e.txs[id]) && e.txs[id].at.CancelStock? && WaitsFor(e, id).Some?
    ensures e.txs[id].at.todo != [] && Awaited(e, id) == ProductLock(e.txs[id].at.todo[0])
    ensures Awaited(e, id) in e.locks && e.locks[Awaited(e, id)] != id
  {
  }

  /** What a cancel holds while it updates stock comes before any product it has not reached. */
  lemma HeldBeforeProduct(e: Engine, id: nat, l: Lock, p: int)
    requires id in e.txs && Shaped(e.txs[id]) && e.txs[id].at.CancelStock? && LocksOf(e.locks, id, e.txs[id])
    requires Holds(e.txs[id], l) && forall q | q in e.txs[id].at.held :: q < p
    ensures Before(PlaceOf(e, l), Place(4, p))
  {
  }

  lemma HeldBelowNext(e: Engine, id: nat)
    requires id in e.txs && Shaped(e.txs[id]) && e.txs[id].at.CancelStock? && LocksOf(e.locks, id, e.txs[id])
    requires !Inverted(e, id) && WaitsFor(e, id).Some?
    ensures e.txs[id].at.todo != [] && forall q | q in e.txs[id].at.held :: q < e.txs[id].at.todo[0]
  {
    StockWaitsForProduct(e, id);
    forall q | q in e.txs[id].at.held ensures q != e.txs[id].at.todo[0] {
      assert Holds(e.txs[id], ProductLock(q));
    }
  }

  lemma StockWaitsInOrder(e: Engine, id: nat, l: Lock)
    requires EngineOk(e) && id in e.txs && e.txs[id].at.CancelStock? && !Inverted(e, id)
    requires WaitsFor(e, id).Some? && Holds(e.txs[id], l)
    ensures Before(PlaceOf(e, l), PlaceOf(e, Awaited(e, id)))
  {
    assert LocksOf(e.locks, id, e.txs[id]);
    HeldBelowNext(e, id);
    StockWaitsForProduct(e, id);
    HeldBeforeProduct(e, id, l, e.txs[id].at.todo[0]);
  }

  lemma CancelWaitsInOrder(e: Engine, id: nat, l: Lock)
    requires EngineOk(e) && id in e.txs && e.txs[id].call.CancelCall? && !Inverted(e, id)
    requires WaitsFor(e, id).Some? && Holds(e.txs[id], l)
    ensures Before(PlaceOf(e, l), PlaceOf(e, Awaited(e, id)))
  {
    if e.txs[id].at.CancelRefund? { RefundedPaymentIsLate(e, id); }
    if e.txs[id].at.CancelStock? { StockWaitsInOrder(e, id, l); }
  }

  /** What a waiting start awaits: its order at first, then a key or a payment. */
  lemma StartAwaits(e: Engine, id: nat)
    requires id in e.txs && Shaped(e.txs[id]) && e.txs[id].call.StartCall? && WaitsFor(e, id).Some?
    ensures e.txs[id].at.StartStatus? || e.txs[id].at.StartInsert?
    ensures e.txs[id].at.StartInsert? ==> Awaited(e, id).PaymentKey? || Awaited(e, id).PaymentLock?
  {
  }

  lemma StartWaitsInOrder(e: Engine, id: nat, l: Lock)
    requires EngineOk(e) && id in e.txs && e.txs[id].call.StartCall? && !Inverted(e, id)
    requires WaitsFor(e, id).Some? && Holds(e.txs[id], l)
    ensures Before(PlaceOf(e, l), PlaceOf(e, Awaited(e, id)))
  {
    StartAwaits(e, id);
  }

  lemma TransitionWaitsInOrder(e: Engine, id: nat, l: Lock)
    requires EngineOk(e) && id in e.txs && e.txs[id].call.TransitionCall?
    requires WaitsFor(e, id).Some? && Holds(e.txs[id], l)
    ensures Before(PlaceOf(e, l), PlaceOf(e, Awaited(e, id)))
  {
    assert TxOk(e.db, e.txs[id]);
    assert LocksOf(e.locks, id, e.txs[id]);
  }

  /** Whoever waits the ordinary way holds only locks that come before the one it waits for. */
  lemma WaitsInOrder(e: Engine, id: nat, l: Lock)
    requires EngineOk(e) && id in e.txs && !Inverted(e, id)
    requires WaitsFor(e, id).Some? && Holds(e.txs[id], l)
    ensures Before(PlaceOf(e, l), PlaceOf(e, Awaited(e, id)))
  {
    if e.txs[id].call.CreateCall? { CreateWaitsInOrder(e, id, l); }
    else if e.txs[id].call.CancelCall? { CancelWaitsInOrder(e, id, l); }
    else if e.txs[id].call.StartCall? { StartWaitsInOrder(e, id, l); }
    else { TransitionWaitsInOrder(e, id, l); }
  }

  lemma {:induction false} LastInOrder(e: Engine, d: set<nat>) returns (m: nat)
    requires d != {} && forall id | id in d :: id in e.txs && Shaped(e.txs[id]) && WaitsFor(e, id).Some?
    ensures m in d && forall id | id in d :: !Before(PlaceOf(e, Awaited(e, m)), PlaceOf(e, Awaited(e, id)))
  {
    var x :| x in d;
    m := x;
    if d != {x} {
      var y := LastInOrder(e, d - {x});
      if Before(PlaceOf(e, Awaited(e, x)), PlaceOf(e, Awaited(e, y))) {
        m := y;
      }
    }
  }

  /** A circle of transactions has an inverted wait in it. */
  lemma CircleHasInversion(e: Engine, d: set<nat>)
    requires EngineOk(e) && Deadlocked(e, d)
    ensures exists id | id in d :: Inverted(e, id)
  {
    if forall id | id in d :: !Inverted(e, id) {
      var m := LastInOrder(e, d);
      AwaitedIsHeld(e, m);
      WaitsInOrder(e, WaitsFor(e, m).value, Awaited(e, m));
    }
  }

  /** In every run, every deadlock of any number of transactions goes through one of the two inverted waits. */
  lemma {:induction false} DeadlockNeedsInversion(db: Db, steps: seq<Step>, d: set<nat>)
    requires TablesOk(db) && Deadlocked(Exec(db, steps), d)
    ensures exists id | id in d :: Inverted(Exec(db, steps), id)
  {
    ExecKeepsEngine(db, steps);
    CircleHasInversion(Exec(db, steps), d);
  }

  /** CreateOrder calls never deadlock among themselves, in any run with any number of orders and items
      and whatever else runs beside them. */
  lemma CreatesNeverDeadlock(db: Db, steps: seq<Step>, d: set<nat>)
    requires TablesOk(db)
    requires var e := Exec(db, steps); forall id | id in d && id in e.txs :: e.txs[id].call.CreateCall?
    ensures !Deadlocked(Exec(db, steps), d)
  {
    ExecKeepsEngine(db, steps);
    var e := Exec(db, steps);
    forall id | id in d && id in e.txs ensures !Inverted(e, id) { assert Shaped(e.txs[id]); }
    if Deadlocked(e, d) { CircleHasInversion(e, d); }
  }

  /** While nobody waits against the order, some transaction can always go on. */
  lemma SomeoneCanMove(db: Db, steps: seq<Step>)
    requires TablesOk(db)
    requires var e := Exec(db, steps);
      e.txs != map[] && forall id | id in e.txs :: Shaped(e.txs[id]) && !Inverted(e, id)
    ensures exists id :: CanMove(Exec(db, steps), id)
  {
    ExecKeepsEngine(db, steps);
    var e := Exec(db, steps);
    if forall id :: !CanMove(e, id) {
      forall id | id in e.txs ensures WaitsFor(e, id).Some? && WaitsFor(e, id).value in e.txs.Keys {
        assert !CanMove(e, id);
        AwaitedIsHeld(e, id);
      }
      var some :| some in e.txs;
      assert Deadlocked(e, e.txs.Keys);
      CircleHasInversion(e, e.txs.Keys);
    }
  }

  // ----- the two inversions do happen

  const TWO := [Item(1, 1, 500), Item(2, 1, 700)]

  const SHOP := map[1 := Product(500, 5), 2 := Product(700, 5)]

  /** One open order of products 1 and 2. */
  const BEFORE := Db(SHOP, [Order(Open, TWO)], map[], [], [], [])

  lemma ExecMore(db: Db, steps: seq<Step>, step: Step, e: Engine, e': Engine)
    requires e == Exec(db, steps) && e' == Apply(e, step)
    ensures e' == Exec(db, steps + [step])
  {
    assert (steps + [step])[..|steps|] == steps;
  }

  function Locked(locks: map<Lock, nat>, lock: Option<Lock>, id: nat): map<Lock, nat> {
    match lock
    case Some(l) => locks[l := id]
    case None => locks
  }

  /** One statement of a transaction that goes on. */
  lemma Moves(e: Engine, id: nat, plan: seq<int>, at: At, locks: map<Lock, nat>)
    requires CanMove(e, id) && Run(e.db, e.txs[id], plan) == Goes(at)
    requires locks == Locked(e.locks, Takes(e.db, e.txs[id]), id)
    ensures Apply(e, Next(id, plan)) == e.(txs := e.txs[id := e.txs[id].(at := at)], locks := locks)
  {
  }

  /** The canceller alone: nobody else holds a lock. */
  function Canceller(at: At, locks: map<Lock, nat>): Engine {
    Engine(BEFORE, locks, map[0 := Tx(CancelCall(0, 0), at)], map[])
  }

  lemma CancelMoves(at: At, locks: map<Lock, nat>, plan: seq<int>, at': At, locks': map<Lock, nat>)
    requires forall l | l in locks :: locks[l] == 0
    requires Shaped(Tx(CancelCall(0, 0), at)) && Run(BEFORE, Tx(CancelCall(0, 0), at), plan) == Goes(at')
    requires locks' == Locked(locks, Takes(BEFORE, Tx(CancelCall(0, 0), at)), 0)
    ensures Apply(Canceller(at, locks), Next(0, plan)) == Canceller(at', locks')
  {
    var e := Canceller(at, locks);
    Moves(e, 0, plan, at', locks');
    assert e.txs[0 := e.txs[0].(at := at')] == map[0 := Tx(CancelCall(0, 0), at')];
  }

  const CANCELLED := Canceller(CancelStock(Order(Open, TWO), None, [1], map[2 := Product(700, 6)]),
                               map[OrderLock(0) := 0, ProductLock(2) := 0])

  lemma CancelUpdatesTwo()
    ensures var row, locks := Order(Open, TWO), map[OrderLock(0) := 0];
      && Apply(Canceller(CancelPlan(row, None), locks), Next(0, [2, 1])) ==
          Canceller(CancelStock(row, None, [2, 1], map[]), locks)
      && Apply(Canceller(CancelStock(row, None, [2, 1], map[]), locks), Next(0, [])) == CANCELLED
  {
    var row, locks := Order(Open, TWO), map[OrderLock(0) := 0];
    assert TWO[0].product == 1 && TWO[1].product == 2;
    assert forall p :: Mentions(TWO, p) <==> p == 1 || p == 2;
    assert PlanOk(SHOP, TWO, [2, 1]) by { assert [2, 1][0] == 2 && [2, 1][1] == 1; }
    CancelMoves(CancelPlan(row, None), locks, [2, 1], CancelStock(row, None, [2, 1], map[]), locks);
    assert [2, 1][1..] == [1] && PickQuantity(TWO, 2) == 1;
    CancelMoves(CancelStock(row, None, [2, 1], map[]), locks, [],
                CancelStock(row, None, [1], map[2 := Product(700, 6)]),
                locks[ProductLock(2) := 0]);
  }

  lemma CancelHalfway() returns (steps: seq<Step>)
    ensures Exec(BEFORE, steps) == CANCELLED
  {
    var row, locks, go := Order(Open, TWO), map[OrderLock(0) := 0], Next(0, []);
    CancelMoves(CancelStatus, map[], [], CancelCheck(row), locks);
    CancelMoves(CancelCheck(row), locks, [], CancelRefund(row), locks);
    CancelMoves(CancelRefund(row), locks, [], CancelPlan(row, None), locks);
    CancelUpdatesTwo();
    var s1 := [] + [Begin(0, CancelCall(0, 0))];
    var s2 := s1 + [go];
    var s3 := s2 + [go];
    var s4 := s3 + [go];
    var s5 := s4 + [Next(0, [2, 1])];
    steps := s5 + [go];
    ExecMore(BEFORE, [], Begin(0, CancelCall(0, 0)), Exec(BEFORE, []), Canceller(CancelStatus, map[]));
    ExecMore(BEFORE, s1, go, Canceller(CancelStatus, map[]), Canceller(CancelCheck(row), locks));
    ExecMore(BEFORE, s2, go, Canceller(CancelCheck(row), locks), Canceller(CancelRefund(row), locks));
    ExecMore(BEFORE, s3, go, Canceller(CancelRefund(row), locks), Canceller(CancelPlan(row, None), locks));
    ExecMore(BEFORE, s4, Next(0, [2, 1]), Canceller(CancelPlan(row, None), locks),
             Canceller(CancelStock(row, None, [2, 1], map[]), locks));
    ExecMore(BEFORE, s5, go, Canceller(CancelStock(row, None, [2, 1], map[]), locks), CANCELLED);
  }

  const BOTH := [Line(1, 1), Line(2, 1)]

  lemma SortBoth()
    ensures SortLines(BOTH) == BOTH && CheckRequest(BOTH).None?
  {
    assert BOTH[..1] == [Line(1, 1)] && BOTH[..1][..0] == [];
    assert SortLines(BOTH[..1]) == [Line(1, 1)] by { assert SortLines(BOTH[..1][..0]) == []; }
    assert CheckLines(BOTH[..1][..0]).None?;
    assert CheckLines(BOTH[..1]).None?;
  }

  /** The creator beside the halfway canceller. */
  function Creator(at: At, locks: map<Lock, nat>): Engine {
    CANCELLED.(txs := CANCELLED.txs[1 := Tx(CreateCall(BOTH, ""), at)], locks := locks)
  }

  lemma CreateMoves(at: At, locks: map<Lock, nat>, at': At, locks': map<Lock, nat>)
    requires Shaped(Tx(CreateCall(BOTH, ""), at)) && WaitsFor(Creator(at, locks), 1).None?
    requires Run(BEFORE, Tx(CreateCall(BOTH, ""), at), []) == Goes(at')
    requires locks' == Locked(locks, Takes(BEFORE, Tx(CreateCall(BOTH, ""), at)), 1)
    ensures Apply(Creator(at, locks), Next(1, [])) == Creator(at', locks')
  {
    var e := Creator(at, locks);
    Moves(e, 1, [], at', locks');
    assert e.txs[1 := e.txs[1].(at := at')] == CANCELLED.txs[1 := Tx(CreateCall(BOTH, ""), at')];
  }

  lemma CreateStatements()
    ensures var rows, held, locks := [Item(1, 1, 500)], map[1 := Product(500, 4)], CANCELLED.locks;
      && Apply(Creator(CreateKey, locks), Next(1, [])) == Creator(CreatePrice(BOTH, [], map[]), locks)
      && Apply(Creator(CreatePrice(BOTH, [], map[]), locks), Next(1, [])) ==
          Creator(CreateStock(BOTH, [], map[], 500), locks)
      && Apply(Creator(CreateStock(BOTH, [], map[], 500), locks), Next(1, []))
         == Creator(CreatePrice(BOTH, rows, held), locks[ProductLock(1) := 1])
      && Apply(Creator(CreatePrice(BOTH, rows, held), locks[ProductLock(1) := 1]), Next(1, []))
         == Creator(CreateStock(BOTH, rows, held, 700), locks[ProductLock(1) := 1])
  {
    SortBoth();
    var rows, held, locks := [Item(1, 1, 500)], map[1 := Product(500, 4)], CANCELLED.locks;
    CreateMoves(CreateKey, locks, CreatePrice(BOTH, [], map[]), locks);
    CreateMoves(CreatePrice(BOTH, [], map[]), locks, CreateStock(BOTH, [], map[], 500), locks);
    assert [] + rows == rows;
    CreateMoves(CreateStock(BOTH, [], map[], 500), locks, CreatePrice(BOTH, rows, held), locks[ProductLock(1) := 1]);
    CreateMoves(CreatePrice(BOTH, rows, held), locks[ProductLock(1) := 1], CreateStock(BOTH, rows, held, 700),
                locks[ProductLock(1) := 1]);
  }

  /** CancelOrder updates the stock of product 2, then 1; CreateOrder locks product 1, then 2. */
  lemma {:induction false} CreateAndCancelDeadlock()
    ensures TablesOk(BEFORE) && exists steps :: Deadlocked(Exec(BEFORE, steps), {0, 1})
  {
    var steps := CreateMeetsCancel();
    assert Deadlocked(Exec(BEFORE, steps), {0, 1});
  }

  lemma CreateMeetsCancel() returns (steps: seq<Step>)
    ensures Deadlocked(Exec(BEFORE, steps), {0, 1})
  {
    var s0 := CancelHalfway();
    SortBoth();
    CreateStatements();
    var go, rows, held, locks := Next(1, []), [Item(1, 1, 500)], map[1 := Product(500, 4)], CANCELLED.locks;
    var s1 := s0 + [Begin(1, CreateCall(BOTH, ""))];
    var s2 := s1 + [go];
    var s3 := s2 + [go];
    var s4 := s3 + [go];
    steps := s4 + [go];
    ExecMore(BEFORE, s0, Begin(1, CreateCall(BOTH, "")), CANCELLED, Creator(CreateKey, locks));
    ExecMore(BEFORE, s1, go, Creator(CreateKey, locks), Creator(CreatePrice(BOTH, [], map[]), locks));
    ExecMore(BEFORE, s2, go, Creator(CreatePrice(BOTH, [], map[]), locks),
             Creator(CreateStock(BOTH, [], map[], 500), locks));
    ExecMore(BEFORE, s3, go, Creator(CreateStock(BOTH, [], map[], 500), locks),
             Creator(CreatePrice(BOTH, rows, held), locks[ProductLock(1) := 1]));
    ExecMore(BEFORE, s4, go, Creator(CreatePrice(BOTH, rows, held), locks[ProductLock(1) := 1]),
             Creator(CreateStock(BOTH, rows, held, 700), locks[ProductLock(1) := 1]));
    CrossWait();
  }

  lemma CrossWait()
    ensures Deadlocked(Creator(CreateStock(BOTH, [Item(1, 1, 500)], map[1 := Product(500, 4)], 700),
                               CANCELLED.locks[ProductLock(1) := 1]), {0, 1})
  {
    var e := Creator(CreateStock(BOTH, [Item(1, 1, 500)], map[1 := Product(500, 4)], 700),
                     CANCELLED.locks[ProductLock(1) := 1]);
    assert WaitsFor(e, 1) == Some(0);
    assert WaitsFor(e, 0) == Some(1);
  }

  /** One open order with one payment waiting for its outcome. */
  const PAYING := Db(SHOP, [Order(Open, TWO)], map[], [Payment(0, 1200, Pending, "a", None, 0, 0, 0, false)], [],
                     [Event(0, None, Pending)])

  const CHARGED := PAYING.payments[0].(status := Succeeded, charge := Some(0))

  /** The recorder, and beside it the second payment request. */
  function Recorder(at: At, locks: map<Lock, nat>, other: map<nat, Tx>): Engine {
    Engine(PAYING, locks, map[0 := Tx(TransitionCall(0, Succeeded, Some(0)), at)] + other, map[])
  }

  lemma RecordingHalfway() returns (steps: seq<Step>)
    ensures Exec(PAYING, steps) ==
        Recorder(TransitionOrder(PAYING.payments[0], CHARGED), map[PaymentLock(0) := 0], map[])
  {
    var call, was, go := TransitionCall(0, Succeeded, Some(0)), PAYING.payments[0], Next(0, []);
    var e1, e2 := Recorder(TransitionStatus, map[], map[]), Recorder(TransitionWrite(was), map[PaymentLock(0) := 0],
                                                                     map[]);
    Moves(e1, 0, [], TransitionWrite(was), map[PaymentLock(0) := 0]);
    assert e1.txs[0 := Tx(call, TransitionWrite(was))] == e2.txs;
    Moves(e2, 0, [], TransitionOrder(was, CHARGED), e2.locks);
    var e3 := Recorder(TransitionOrder(was, CHARGED), e2.locks, map[]);
    assert e2.txs[0 := Tx(call, TransitionOrder(was, CHARGED))] == e3.txs;
    var s1 := [] + [Begin(0, call)];
    var s2 := s1 + [go];
    steps := s2 + [go];
    ExecMore(PAYING, [], Begin(0, call), Exec(PAYING, []), e1);
    ExecMore(PAYING, s1, go, e1, e2);
    ExecMore(PAYING, s2, go, e2, e3);
  }

  /** The second payment request beside the halfway recorder. */
  function Requester(at: At, locks: map<Lock, nat>): Engine {
    Recorder(TransitionOrder(PAYING.payments[0], CHARGED), locks, map[1 := Tx(StartCall(0, "b", false, 0), at)])
  }

  lemma RequestStatements()
    ensures var locks, order := map[PaymentLock(0) := 0], map[PaymentLock(0) := 0, OrderLock(0) := 1];
      && Apply(Requester(StartStatus, locks), Next(1, [])) == Requester(StartSum, order)
      && Apply(Requester(StartSum, order), Next(1, [])) == Requester(StartInsert(1200), order)
  {
    var call := StartCall(0, "b", false, 0);
    var locks, order := map[PaymentLock(0) := 0], map[PaymentLock(0) := 0, OrderLock(0) := 1];
    var e1, e2, e3 := Requester(StartStatus, locks), Requester(StartSum, order), Requester(StartInsert(1200), order);
    Moves(e1, 1, [], StartSum, order);
    assert e1.txs[1 := Tx(call, StartSum)] == e2.txs;
    assert TWO[..1][..0] == [] && TWO[..1] == [TWO[0]] && Total(TWO[..1][..0]) == 0 && Total(TWO[..1]) == 500
        && Total(TWO) == 1200;
    Moves(e2, 1, [], StartInsert(1200), order);
    assert e2.txs[1 := Tx(call, StartInsert(1200))] == e3.txs;
  }

  /** A payment request under a second key locks the order and meets the first payment's row, which the
      other transaction has rewritten before asking for the order. */
  lemma {:induction false} StartAndTransitionDeadlock()
    ensures TablesOk(PAYING) && exists steps :: Deadlocked(Exec(PAYING, steps), {0, 1})
  {
    var steps := StartMeetsTransition();
    assert Deadlocked(Exec(PAYING, steps), {0, 1});
  }

  lemma StartMeetsTransition() returns (steps: seq<Step>)
    ensures Deadlocked(Exec(PAYING, steps), {0, 1})
  {
    var s0 := RecordingHalfway();
    RequestStatements();
    var call, go := StartCall(0, "b", false, 0), Next(1, []);
    var locks, order := map[PaymentLock(0) := 0], map[PaymentLock(0) := 0, OrderLock(0) := 1];
    var s1 := s0 + [Begin(1, call)];
    var s2 := s1 + [go];
    steps := s2 + [go];
    ExecMore(PAYING, s0, Begin(1, call), Exec(PAYING, s0), Requester(StartStatus, locks));
    ExecMore(PAYING, s1, go, Requester(StartStatus, locks), Requester(StartSum, order));
    ExecMore(PAYING, s2, go, Requester(StartSum, order), Requester(StartInsert(1200), order));
    RowsWait();
  }

  lemma RowsWait()
    ensures Deadlocked(Requester(StartInsert(1200), map[PaymentLock(0) := 0, OrderLock(0) := 1]), {0, 1})
  {
    var e := Requester(StartInsert(1200), map[PaymentLock(0) := 0, OrderLock(0) := 1]);
    assert FindPayment(PAYING.payments, "b").None? by { assert PAYING.payments[..0] == []; }
    assert FindInStatus(PAYING.payments, 0, Pending) == Some(0);
    assert WaitsFor(e, 1) == Some(0);
    assert WaitsFor(e, 0) == Some(1);
  }
}
