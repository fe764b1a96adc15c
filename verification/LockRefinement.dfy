/** Statement by statement under locks, every call still acts at one instant: the tables change, and
    the answer comes out, exactly as if the whole transaction ran at its last statement. */
module LockRefinement {
  import opened Domain
  import opened Tables
  import opened Orders
  import opened RowLocks
  import opened LockInvariant
  import Protocol
  import Invariant
  import Runs

  // ----- a statement that goes on

  lemma CreateGoes(db: Db, tx: Tx, plan: seq<int>)
    requires Shaped(tx) && tx.call.CreateCall? && TxOk(db, tx) && Run(db, tx, plan).Goes?
    ensures var tx' := tx.(at := Run(db, tx, plan).at); Shaped(tx') && TxOk(db, tx')
  {
    match tx.at
    case CreateKey =>
      SortLinesSorts(tx.call.lines);
      GoodLinesSorted(tx.call.lines);
    case CreatePrice(_, _, _) =>
    case CreateStock(lines, rows, held, price) =>
      var at' := Run(db, tx, plan).at;
      var line := lines[|rows|];
      forall i | 0 <= i < |at'.rows| ensures DoneLine(db.products, lines[i], at'.rows[i], at'.held) {
        if i < |rows| {
          assert DoneLine(db.products, lines[i], rows[i], held);
          assert lines[i].product != line.product;
        }
      }
      forall p | p in at'.held ensures exists i | 0 <= i < |at'.rows| :: lines[i].product == p {
        if p in held {
          var i :| 0 <= i < |rows| && lines[i].product == p;
          assert lines[i].product == p;
        }
      }
  }

  lemma CancelGoes(db: Db, tx: Tx, plan: seq<int>)
    requires Shaped(tx) && tx.call.CancelCall? && TxOk(db, tx) && TablesOk(db) && Run(db, tx, plan).Goes?
    ensures var tx' := tx.(at := Run(db, tx, plan).at); Shaped(tx') && TxOk(db, tx')
  {
  }

  lemma PaymentGoes(db: Db, tx: Tx, plan: seq<int>)
    requires Shaped(tx) && (tx.call.StartCall? || tx.call.TransitionCall?) && TxOk(db, tx) && Run(db, tx, plan).Goes?
    ensures var tx' := tx.(at := Run(db, tx, plan).at); Shaped(tx') && TxOk(db, tx')
  {
  }

  lemma StatementGoes(db: Db, tx: Tx, plan: seq<int>)
    requires Shaped(tx) && TxOk(db, tx) && TablesOk(db) && Run(db, tx, plan).Goes?
    ensures var tx' := tx.(at := Run(db, tx, plan).at); Shaped(tx') && TxOk(db, tx')
  {
    if tx.call.CreateCall? { CreateGoes(db, tx, plan); }
    else if tx.call.CancelCall? { CancelGoes(db, tx, plan); }
    else { PaymentGoes(db, tx, plan); }
  }

  lemma OrderLocks(db: Db, tx: Tx, plan: seq<int>, l: Lock)
    requires Shaped(tx) && (tx.call.CreateCall? || tx.call.CancelCall?) && TxOk(db, tx) && Run(db, tx, plan).Goes?
    ensures var tx' := tx.(at := Run(db, tx, plan).at);
      Shaped(tx') && (Holds(tx', l) <==> Holds(tx, l) || Takes(db, tx) == Some(l))
  {
  }

  lemma PaymentLocks(db: Db, tx: Tx, plan: seq<int>, l: Lock)
    requires Shaped(tx) && (tx.call.StartCall? || tx.call.TransitionCall?) && TxOk(db, tx) && Run(db, tx, plan).Goes?
    ensures var tx' := tx.(at := Run(db, tx, plan).at);
      Shaped(tx') && (Holds(tx', l) <==> Holds(tx, l) || Takes(db, tx) == Some(l))
  {
  }

  /** It adds just the lock it takes. */
  lemma StatementLocks(db: Db, tx: Tx, plan: seq<int>, l: Lock)
    requires Shaped(tx) && TxOk(db, tx) && Run(db, tx, plan).Goes?
    ensures var tx' := tx.(at := Run(db, tx, plan).at);
      Shaped(tx') && (Holds(tx', l) <==> Holds(tx, l) || Takes(db, tx) == Some(l))
  {
    if tx.call.CreateCall? || tx.call.CancelCall? {
      OrderLocks(db, tx, plan, l);
    } else {
      PaymentLocks(db, tx, plan, l);
    }
  }

  // ----- the last statement

  lemma ReservedBefore(products: map<int, Product>, lines: seq<Line>, rows: seq<Item>, held: map<int, Product>)
    requires GoodLines(lines) && ReservedSoFar(products, lines, rows, held) && rows != []
    ensures ReservedSoFar(products, lines, rows[..|rows| - 1], held - {lines[|rows| - 1].product})
  {
    var n := |rows|;
    var done, before := rows[..n - 1], held - {lines[n - 1].product};
    forall i | 0 <= i < n - 1 ensures DoneLine(products, lines[i], done[i], before) {
      assert DoneLine(products, lines[i], rows[i], held);
      assert lines[i].product != lines[n - 1].product;
    }
    forall p | p in before ensures exists i | 0 <= i < n - 1 :: lines[i].product == p {
      var i :| 0 <= i < n && lines[i].product == p;
      assert i < n - 1;
    }
  }

  lemma NothingHeld(products: map<int, Product>, lines: seq<Line>, held: map<int, Product>)
    requires ReservedSoFar(products, lines, [], held)
    ensures products + held == products
  {
    forall p ensures p !in held {}
  }

  lemma MergeOne(products: map<int, Product>, held: map<int, Product>, p: int)
    requires p in held
    ensures (products + (held - {p}))[p := held[p]] == products + held
  {
  }

  lemma Appended(lines: seq<Line>, rows: seq<Item>)
    requires 0 < |rows| <= |lines|
    ensures var n := |rows|; lines[..n] == lines[..n - 1] + [lines[n - 1]] && rows == rows[..n - 1] + [rows[n - 1]]
  {
  }

  /** What the loop has written is what Reserve makes of the committed stock. */
  lemma {:induction false} ReservedIsReserve(products: map<int, Product>, lines: seq<Line>, rows: seq<Item>,
                                             held: map<int, Product>)
    requires GoodLines(lines) && ReservedSoFar(products, lines, rows, held)
    ensures Reserve(products, lines[..|rows|]) == Reserved(products + held, rows)
    decreases |rows|
  {
    if rows == [] {
      NothingHeld(products, lines, held);
    } else {
      ReservedBefore(products, lines, rows, held);
      var n := |rows|;
      ReservedIsReserve(products, lines, rows[..n - 1], held - {lines[n - 1].product});
      ReservedNext(products, lines, rows, held);
    }
  }

  lemma ReservedNext(products: map<int, Product>, lines: seq<Line>, rows: seq<Item>, held: map<int, Product>)
    requires 0 < |rows| && ReservedSoFar(products, lines, rows, held)
    requires var n := |rows|;
      Reserve(products, lines[..n - 1]) == Reserved(products + (held - {lines[n - 1].product}), rows[..n - 1])
    ensures Reserve(products, lines[..|rows|]) == Reserved(products + held, rows)
  {
    var n := |rows|;
    assert DoneLine(products, lines[n - 1], rows[n - 1], held);
    ReserveOne(products, lines[..n - 1], rows[..n - 1], held, lines[n - 1], rows[n - 1]);
    Appended(lines, rows);
  }

  lemma ReserveOne(products: map<int, Product>, lines: seq<Line>, rows: seq<Item>, held: map<int, Product>,
                   line: Line, row: Item)
    requires DoneLine(products, line, row, held)
    requires Reserve(products, lines) == Reserved(products + (held - {line.product}), rows)
    ensures Reserve(products, lines + [line]) == Reserved(products + held, rows + [row])
  {
    assert (lines + [line])[..|lines|] == lines;
    MergeOne(products, held, line.product);
  }

  lemma NextIsNotHeld(products: map<int, Product>, lines: seq<Line>, rows: seq<Item>, held: map<int, Product>)
    requires GoodLines(lines) && ReservedSoFar(products, lines, rows, held) && |rows| < |lines|
    ensures lines[|rows|].product !in held
  {
  }

  predicate Refuses(products: map<int, Product>, line: Line) {
    line.product !in products || products[line.product].stock < line.quantity
  }

  /** The lines before reserve, so a next line that is refused decides the order. */
  lemma {:induction false} NextLineDecides(products: map<int, Product>, lines: seq<Line>, rows: seq<Item>,
                                           held: map<int, Product>)
    requires GoodLines(lines) && ReservedSoFar(products, lines, rows, held)
    requires |rows| < |lines| && Refuses(products, lines[|rows|])
    ensures Reserve(products, lines) == Rejected(lines[|rows|].product !in products)
  {
    ReservedIsReserve(products, lines, rows, held);
    NextIsNotHeld(products, lines, rows, held);
    RefusedLine(products, lines, rows, held);
  }

  lemma {:induction false} RefusedLine(products: map<int, Product>, lines: seq<Line>, rows: seq<Item>,
                                       held: map<int, Product>)
    requires |rows| < |lines| && Reserve(products, lines[..|rows|]) == Reserved(products + held, rows)
    requires lines[|rows|].product !in held && Refuses(products, lines[|rows|])
    ensures Reserve(products, lines) == Rejected(lines[|rows|].product !in products)
  {
    var n := |rows|;
    BadLine(products, lines[..n], rows, held, lines[n]);
    assert lines[..n + 1] == lines[..n] + [lines[n]];
    ReserveStops(products, lines, n + 1);
  }

  lemma {:induction false} BadLine(products: map<int, Product>, lines: seq<Line>, rows: seq<Item>,
                                   held: map<int, Product>, line: Line)
    requires Reserve(products, lines) == Reserved(products + held, rows) && line.product !in held
    requires Refuses(products, line)
    ensures Reserve(products, lines + [line]) == Rejected(line.product !in products)
  {
    assert (lines + [line])[..|lines|] == lines;
  }

  lemma CreateDecides(db: Db, tx: Tx, plan: seq<int>)
    requires Shaped(tx) && tx.call.CreateCall? && TxOk(db, tx) && !Run(db, tx, plan).Goes?
    ensures var r := Run(db, tx, plan);
      Atomic(db, tx.call) == (if r.Commits? then r.db else db, r.out)
  {
    if !tx.at.CreateKey? {
      if |tx.at.rows| < |tx.at.lines| {
        assert Refuses(db.products, tx.at.lines[|tx.at.rows|]);
        NextLineDecides(db.products, tx.at.lines, tx.at.rows, tx.at.held);
      } else {
        ReservedIsReserve(db.products, tx.at.lines, tx.at.rows, tx.at.held);
        assert tx.at.lines[..|tx.at.rows|] == tx.at.lines;
      }
    }
  }

  lemma RestoredIsRestore(products: map<int, Product>, items: seq<Item>, held: map<int, Product>)
    requires RestoredSoFar(products, items, [], held)
    ensures products + held == Restore(products, items)
  {
    assert forall p :: p in products + held <==> p in Restore(products, items);
    forall p | p in products ensures (products + held)[p] == Restore(products, items)[p] {
      assert p in held <==> Mentions(items, p);
    }
  }

  lemma CancelDecides(db: Db, tx: Tx, plan: seq<int>)
    requires Shaped(tx) && tx.call.CancelCall? && TxOk(db, tx) && TablesOk(db) && !Run(db, tx, plan).Goes?
    ensures var r := Run(db, tx, plan);
      Atomic(db, tx.call) == (if r.Commits? then r.db else db, r.out)
  {
    if tx.at.CancelStock? {
      RestoredIsRestore(db.products, tx.at.row.items, tx.at.held);
      if tx.at.refund.Some? {
        var p := FindInStatus(db.payments, tx.call.order, Succeeded).value;
        assert p == tx.at.refund.value.payment;
      }
    }
  }

  lemma PaymentDecides(db: Db, tx: Tx, plan: seq<int>)
    requires Shaped(tx) && (tx.call.StartCall? || tx.call.TransitionCall?) && TxOk(db, tx) && TablesOk(db)
    requires !Run(db, tx, plan).Goes?
    ensures var r := Run(db, tx, plan);
      Atomic(db, tx.call) == (if r.Commits? then r.db else db, r.out)
  {
  }

  lemma StatementDecides(db: Db, tx: Tx, plan: seq<int>)
    requires Shaped(tx) && TxOk(db, tx) && TablesOk(db) && !Run(db, tx, plan).Goes?
    ensures var r := Run(db, tx, plan);
      Atomic(db, tx.call) == (if r.Commits? then r.db else db, r.out)
  {
    if tx.call.CreateCall? { CreateDecides(db, tx, plan); }
    else if tx.call.CancelCall? { CancelDecides(db, tx, plan); }
    else { PaymentDecides(db, tx, plan); }
  }

  // ----- the tables

  lemma AtomicKeepsTables(db: Db, call: Call)
    requires TablesOk(db)
    ensures TablesOk(Atomic(db, call).0)
  {
  }

  lemma TouchKeepsTables(db: Db, p: nat, t: Touch)
    requires TablesOk(db)
    ensures TablesOk(TouchTx(db, p, t))
  {
  }

  // ----- one step

  lemma HoldsApart(e: Engine, id: nat, other: nat)
    requires EngineOk(e) && id in e.txs && other in e.txs && id != other
    ensures Apart(e.txs[id], e.txs[other])
  {
    forall l ensures !(Holds(e.txs[id], l) && Holds(e.txs[other], l)) {
      assert LocksOf(e.locks, id, e.txs[id]) && LocksOf(e.locks, other, e.txs[other]);
    }
  }

  lemma ReleaseKeeps(locks: map<Lock, nat>, id: nat, other: nat, tx: Tx)
    requires Shaped(tx) && id != other && LocksOf(locks, other, tx)
    ensures LocksOf(Release(locks, id), other, tx)
  {
    forall l ensures Holds(tx, l) <==> (l in Release(locks, id) && Release(locks, id)[l] == other) {
      assert Holds(tx, l) <==> (l in locks && locks[l] == other);
    }
  }

  lemma FinishKeeps(e: Engine, id: nat, db: Db, out: Outcome)
    requires EngineOk(e) && id in e.txs && TablesOk(db)
    requires forall other | other in e.txs && other != id :: Respects(e.db, db, e.txs[other])
    ensures EngineOk(Finish(e, id, db, out))
  {
    var e' := Finish(e, id, db, out);
    forall other | other in e'.txs
      ensures Shaped(e'.txs[other]) && TxOk(db, e'.txs[other]) && LocksOf(e'.locks, other, e'.txs[other])
    {
      TxStays(e.db, db, e.txs[other]);
      ReleaseKeeps(e.locks, id, other, e.txs[other]);
    }
  }

  lemma NothingRespects(db: Db, tx: Tx)
    requires Shaped(tx)
    ensures Respects(db, db, tx)
  {
  }

  lemma GoesLocks(e: Engine, id: nat, plan: seq<int>, other: nat)
    requires EngineOk(e) && CanMove(e, id) && Run(e.db, e.txs[id], plan).Goes? && other in e.txs
    ensures var e' := Apply(e, Next(id, plan)); Shaped(e'.txs[other]) && LocksOf(e'.locks, other, e'.txs[other])
  {
    var e', tx, lock := Apply(e, Next(id, plan)), e.txs[id], Takes(e.db, e.txs[id]);
    StatementLocks(e.db, tx, plan, CreationKey(""));
    forall l ensures Holds(e'.txs[other], l) <==> (l in e'.locks && e'.locks[l] == other) {
      assert LocksOf(e.locks, id, tx) && LocksOf(e.locks, other, e.txs[other]);
      StatementLocks(e.db, tx, plan, l);
      assert Holds(e.txs[other], l) <==> (l in e.locks && e.locks[l] == other);
    }
  }

  lemma GoesKeeps(e: Engine, id: nat, plan: seq<int>)
    requires EngineOk(e) && CanMove(e, id) && Run(e.db, e.txs[id], plan).Goes?
    ensures EngineOk(Apply(e, Next(id, plan)))
  {
    var e' := Apply(e, Next(id, plan));
    StatementGoes(e.db, e.txs[id], plan);
    forall other | other in e'.txs ensures Shaped(e'.txs[other]) && LocksOf(e'.locks, other, e'.txs[other]) {
      GoesLocks(e, id, plan, other);
    }
  }

  /** The answer and the tables of one finished call. */
  ghost predicate Decided(e: Engine, e': Engine, id: nat)
    requires id in e.txs
  {
    id !in e'.txs && id in e'.results && (e'.db, e'.results[id]) == Atomic(e.db, e.txs[id].call)
  }

  lemma NextRefines(e: Engine, id: nat, plan: seq<int>)
    requires EngineOk(e) && CanMove(e, id)
    ensures var e' := Apply(e, Next(id, plan));
      && EngineOk(e')
      && (if Run(e.db, e.txs[id], plan).Goes? then e'.db == e.db && e'.results == e.results else Decided(e, e', id))
  {
    var tx := e.txs[id];
    var r := Run(e.db, tx, plan);
    if r.Goes? {
      GoesKeeps(e, id, plan);
    } else {
      StatementDecides(e.db, tx, plan);
      var db' := if r.Commits? then r.db else e.db;
      AtomicKeepsTables(e.db, tx.call);
      forall other | other in e.txs && other != id ensures Respects(e.db, db', e.txs[other]) {
        HoldsApart(e, id, other);
        if r.Commits? { CommitRespects(e.db, tx, e.txs[other], plan); } else { NothingRespects(e.db, e.txs[other]); }
      }
      FinishKeeps(e, id, db', r.out);
    }
  }

  lemma NewHoldsNothing(e: Engine, id: nat, tx: Tx)
    requires LocksOk(e) && id !in e.txs && tx.at == First(tx.call)
    ensures Shaped(tx) && LocksOf(e.locks, id, tx)
  {
  }

  lemma BeginKeeps(e: Engine, id: nat, call: Call)
    requires EngineOk(e)
    ensures EngineOk(Apply(e, Begin(id, call)))
  {
    var e', tx := Apply(e, Begin(id, call)), Tx(call, First(call));
    if e' != e {
      if call.CreateCall? { CheckLinesIsGoodLines(call.lines); }
      forall other | other in e'.txs ensures Shaped(e'.txs[other]) && LocksOf(e'.locks, other, e'.txs[other]) {
        if other == id { NewHoldsNothing(e, id, tx); }
      }
    }
  }

  lemma RollBackKeeps(e: Engine, id: nat)
    requires EngineOk(e) && id in e.txs
    ensures EngineOk(Apply(e, RollBack(id)))
  {
    forall other | other in e.txs ensures Respects(e.db, e.db, e.txs[other]) { NothingRespects(e.db, e.txs[other]); }
    FinishKeeps(e, id, e.db, RolledBack);
  }

  lemma WorkerKeeps(e: Engine, p: nat, t: Touch)
    requires EngineOk(e) && PaymentLock(p) !in e.locks
    ensures EngineOk(Apply(e, Worker(p, t)))
  {
    TouchKeepsTables(e.db, p, t);
    forall id | id in e.txs ensures TxOk(TouchTx(e.db, p, t), e.txs[id]) {
      TouchRespects(e.db, p, t, e.txs[id]);
      TxStays(e.db, TouchTx(e.db, p, t), e.txs[id]);
    }
  }

  lemma StepKeepsEngine(e: Engine, step: Step)
    requires EngineOk(e)
    ensures EngineOk(Apply(e, step))
  {
    match step
    case Begin(id, call) => BeginKeeps(e, id, call);
    case Next(id, plan) => if CanMove(e, id) { NextRefines(e, id, plan); }
    case RollBack(id) => if id in e.txs { RollBackKeeps(e, id); }
    case Worker(p, t) => if PaymentLock(p) !in e.locks { WorkerKeeps(e, p, t); }
  }

  lemma {:induction false} ExecKeepsEngine(db: Db, steps: seq<Step>)
    requires TablesOk(db)
    ensures EngineOk(Exec(db, steps))
  {
    if steps != [] {
      ExecKeepsEngine(db, steps[..|steps| - 1]);
      StepKeepsEngine(Exec(db, steps[..|steps| - 1]), Last(steps));
    }
  }

  // ----- whole runs

  /** The serial history: calls in the order of their last statements, and the workers' updates. */
  datatype Deed = Did(id: nat, call: Call, out: Outcome) | Touched(payment: nat, touch: Touch)

  function Deeds(e: Engine, step: Step): seq<Deed> {
    match step
    case Next(id, plan) =>
      if CanMove(e, id) && !Run(e.db, e.txs[id], plan).Goes?
      then [Did(id, e.txs[id].call, Run(e.db, e.txs[id], plan).out)] else []
    case Worker(p, t) => if PaymentLock(p) in e.locks then [] else [Touched(p, t)]
    case _ => []
  }

  function History(db: Db, steps: seq<Step>): seq<Deed> {
    if steps == [] then []
    else History(db, steps[..|steps| - 1]) + Deeds(Exec(db, steps[..|steps| - 1]), Last(steps))
  }

  /** Running whole transactions one after another. */
  function Serial(db: Db, deeds: seq<Deed>): Db {
    if deeds == [] then db else SerialStep(Serial(db, deeds[..|deeds| - 1]), Last(deeds))
  }

  function SerialStep(db: Db, deed: Deed): Db {
    match deed
    case Did(_, call, _) => Atomic(db, call).0
    case Touched(p, t) => TouchTx(db, p, t)
  }

  /** Each answer is the one the whole transaction gives at its place in the history. */
  ghost predicate AnswersAreSerial(db: Db, deeds: seq<Deed>) {
    forall i | 0 <= i < |deeds| && deeds[i].Did? :: Atomic(Serial(db, deeds[..i]), deeds[i].call).1 == deeds[i].out
  }

  /** The caller's answers are exactly the history's, one for each call that was not rolled back. */
  ghost predicate ResultsAreHistory(e: Engine, deeds: seq<Deed>) {
    && (forall i | 0 <= i < |deeds| && deeds[i].Did? ::
          deeds[i].id in e.results && e.results[deeds[i].id] == deeds[i].out)
    && (forall id | id in e.results && e.results[id] != RolledBack ::
          exists i | 0 <= i < |deeds| :: deeds[i].Did? && deeds[i].id == id)
    && (forall i, j | 0 <= i < j < |deeds| && deeds[i].Did? && deeds[j].Did? :: deeds[i].id != deeds[j].id)
  }

  lemma AnswersAppend(db: Db, deeds: seq<Deed>, deed: Deed)
    requires AnswersAreSerial(db, deeds)
    requires deed.Did? ==> Atomic(Serial(db, deeds), deed.call).1 == deed.out
    ensures AnswersAreSerial(db, deeds + [deed]) && Serial(db, deeds + [deed]) == SerialStep(Serial(db, deeds), deed)
  {
    var all := deeds + [deed];
    assert all[..|deeds|] == deeds;
    forall i | 0 <= i < |all| && all[i].Did? ensures Atomic(Serial(db, all[..i]), all[i].call).1 == all[i].out {
      if i < |deeds| { assert all[..i] == deeds[..i]; }
    }
  }

  lemma ResultsAppend(e: Engine, e': Engine, deeds: seq<Deed>, deed: Deed)
    requires ResultsAreHistory(e, deeds)
    requires match deed
      case Did(id, _, out) => id !in e.results && e'.results == e.results[id := out]
      case Touched(_, _) => e'.results == e.results
    ensures ResultsAreHistory(e', deeds + [deed])
  {
    var all := deeds + [deed];
    forall id | id in e'.results && e'.results[id] != RolledBack
      ensures exists i | 0 <= i < |all| :: all[i].Did? && all[i].id == id
    {
      if id in e.results && !(deed.Did? && deed.id == id) {
        var i :| 0 <= i < |deeds| && deeds[i].Did? && deeds[i].id == id;
        assert all[i] == deeds[i];
      } else {
        assert all[|deeds|] == deed;
      }
    }
  }

  /** Serializability: the committed tables after any run of interleaved statements are those of running
      the finished calls whole, one at a time, in the order of their last statements; each caller got
      the answer of that serial run; a rolled-back call left nothing. */
  lemma {:induction false} LocksSerialize(db: Db, steps: seq<Step>)
    requires TablesOk(db)
    ensures SerialUpTo(db, Exec(db, steps), History(db, steps))
  {
    if steps != [] {
      var init, step := steps[..|steps| - 1], Last(steps);
      LocksSerialize(db, init);
      ExecKeepsEngine(db, init);
      StepSerializes(db, Exec(db, init), History(db, init), step);
    }
  }

  ghost predicate SerialUpTo(db: Db, e: Engine, deeds: seq<Deed>) {
    e.db == Serial(db, deeds) && AnswersAreSerial(db, deeds) && ResultsAreHistory(e, deeds)
  }

  lemma StepSerializes(db: Db, e: Engine, deeds: seq<Deed>, step: Step)
    requires EngineOk(e) && SerialUpTo(db, e, deeds)
    ensures SerialUpTo(db, Apply(e, step), deeds + Deeds(e, step))
  {
    var e' := Apply(e, step);
    match step
    case Next(id, plan) =>
      if !CanMove(e, id) {
        assert deeds + [] == deeds;
      } else {
        NextRefines(e, id, plan);
        var r := Run(e.db, e.txs[id], plan);
        if r.Goes? {
          assert deeds + [] == deeds;
        } else {
          var deed := Did(id, e.txs[id].call, r.out);
          AnswersAppend(db, deeds, deed);
          ResultsAppend(e, e', deeds, deed);
        }
      }
    case Worker(p, t) =>
      if PaymentLock(p) in e.locks {
        assert deeds + [] == deeds;
      } else {
        AnswersAppend(db, deeds, Touched(p, t));
        ResultsAppend(e, e', deeds, Touched(p, t));
      }
    case _ =>
      assert deeds + [] == deeds;
      RolledBackIsNoAnswer(e, deeds, step);
  }

  lemma RolledBackIsNoAnswer(e: Engine, deeds: seq<Deed>, step: Step)
    requires EngineOk(e) && ResultsAreHistory(e, deeds) && (step.Begin? || step.RollBack?)
    ensures ResultsAreHistory(Apply(e, step), deeds)
  {
  }

  /** The tables of every reachable state of the payment protocol are fit for this. */
  lemma ProtocolTablesAreOk(c: Protocol.Config, s: Protocol.State)
    requires Protocol.Reachable(c, s)
    ensures TablesOk(s.db)
  {
    Runs.ReachableInv(c, s);
    forall p | 0 <= p < |s.db.payments| ensures s.db.payments[p].order < |s.db.orders| {
      assert Invariant.PaymentRow(s.db, s.journal, p);
    }
  }

  /** So the order and payment transactions serialize from every reachable state of the payment protocol. */
  lemma ReachableLocksSerialize(c: Protocol.Config, s: Protocol.State, steps: seq<Step>)
    requires Protocol.Reachable(c, s)
    ensures SerialUpTo(s.db, Exec(s.db, steps), History(s.db, steps))
  {
    ProtocolTablesAreOk(c, s);
    LocksSerialize(s.db, steps);
  }
}
