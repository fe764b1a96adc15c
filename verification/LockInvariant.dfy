/** What every transaction under way may rely on: its locks, what it has read, what it will write. */
module LockInvariant {
  import opened Domain
  import opened Tables
  import opened Orders
  import opened RowLocks

  /** The locks a transaction has at this point. */
  predicate Holds(tx: Tx, l: Lock)
    requires Shaped(tx)
  {
    match tx.at
    case CreatePrice(_, _, held) => (l == CreationKey(tx.call.creationKey) && l.name != "")
      || (l.ProductLock? && l.product in held)
    case CreateStock(_, _, held, _) => (l == CreationKey(tx.call.creationKey) && l.name != "")
      || (l.ProductLock? && l.product in held)
    case CancelCheck(_) => l == OrderLock(tx.call.order)
    case CancelRefund(_) => l == OrderLock(tx.call.order)
    case CancelPlan(_, refund) => l == OrderLock(tx.call.order)
      || (refund.Some? && l == PaymentLock(refund.value.payment))
    case CancelStock(_, refund, _, held) =>
      || l == OrderLock(tx.call.order) || (refund.Some? && l == PaymentLock(refund.value.payment))
      || (l.ProductLock? && l.product in held)
    case StartSum => l == OrderLock(tx.call.order)
    case StartInsert(_) => l == OrderLock(tx.call.order)
    case StartCommit(_) => l == OrderLock(tx.call.order) || (l == PaymentKey(tx.call.key) && l.name != "")
    case TransitionWrite(_) => l == PaymentLock(tx.call.payment)
    case TransitionOrder(_, _) => l == PaymentLock(tx.call.payment)
    case TransitionCommit(was, _, paid) => l == PaymentLock(tx.call.payment)
      || (paid.Some? && l == OrderLock(was.order))
    case _ => false
  }

  /** The lock table is exactly what the transactions hold; two never hold the same. */
  ghost predicate LocksOk(e: Engine) {
    && (forall l | l in e.locks :: e.locks[l] in e.txs)
    && (forall id | id in e.txs && Shaped(e.txs[id]) :: LocksOf(e.locks, id, e.txs[id]))
  }

  ghost predicate LocksOf(locks: map<Lock, nat>, id: nat, tx: Tx)
    requires Shaped(tx)
  {
    forall l :: Holds(tx, l) <==> (l in locks && locks[l] == id)
  }

  // ----- what each transaction knows

  /** The items done so far: each found enough stock, and nothing but these is written. */
  ghost predicate ReservedSoFar(products: map<int, Product>, lines: seq<Line>, rows: seq<Item>,
                                held: map<int, Product>) {
    && |rows| <= |lines|
    && (forall i | 0 <= i < |rows| :: DoneLine(products, lines[i], rows[i], held))
    && (forall p | p in held :: exists i | 0 <= i < |rows| :: lines[i].product == p)
  }

  predicate DoneLine(products: map<int, Product>, line: Line, row: Item, held: map<int, Product>) {
    && line.product in products && line.product in held
    && products[line.product].stock >= line.quantity
    && row == Item(line.product, line.quantity, products[line.product].price)
    && held[line.product] == products[line.product].(stock := products[line.product].stock - line.quantity)
  }

  ghost predicate CreateOk(db: Db, tx: Tx)
    requires Shaped(tx) && tx.call.CreateCall?
  {
    && GoodLines(tx.call.lines)
    && match tx.at
       case CreateKey => true
       case CreatePrice(lines, rows, held) => Creating(db, tx.call, lines, rows, held)
       case CreateStock(lines, rows, held, price) =>
         && Creating(db, tx.call, lines, rows, held) && |rows| < |lines|
         && lines[|rows|].product in db.products && db.products[lines[|rows|].product].price == price
  }

  ghost predicate Creating(db: Db, call: Call, lines: seq<Line>, rows: seq<Item>, held: map<int, Product>)
    requires call.CreateCall?
  {
    && (call.creationKey != "" ==> call.creationKey !in db.created)
    && lines == SortLines(call.lines) && GoodLines(lines) && SortedByProduct(lines)
    && ReservedSoFar(db.products, lines, rows, held)
  }

  ghost predicate NoPending(db: Db, order: nat) {
    forall p | 0 <= p < |db.payments| && db.payments[p].order == order :: db.payments[p].status != Pending
  }

  ghost predicate NoActive(db: Db, order: nat) {
    forall p | 0 <= p < |db.payments| && db.payments[p].order == order :: !Active(db.payments[p].status)
  }

  /** The refund row is the one a paid order needs: its only succeeded payment in full, not yet refunded. */
  ghost predicate RefundOk(db: Db, order: nat, status: OrderStatus, now: nat, refund: Option<Refund>) {
    match refund
    case Some(r) =>
      && status == OrderStatus.Paid && r.payment < |db.payments|
      && db.payments[r.payment].order == order && db.payments[r.payment].status == Succeeded
      && r == Refund(r.payment, db.payments[r.payment].amount, Waiting, 0, now, None)
      && (forall i | 0 <= i < |db.refunds| :: db.refunds[i].payment != r.payment)
    case None =>
      status == OrderStatus.Paid ==>
        forall p | 0 <= p < |db.payments| && db.payments[p].order == order && db.payments[p].status == Succeeded ::
          FindRefund(db.refunds, p).Some?
  }

  ghost predicate RestoredSoFar(products: map<int, Product>, items: seq<Item>, todo: seq<int>,
                                held: map<int, Product>) {
    && (forall p | p in products && Mentions(items, p) :: p in todo || p in held)
    && (forall i | 0 <= i < |todo| :: todo[i] in products && Mentions(items, todo[i]))
    && (forall p | p in held :: p in products && Mentions(items, p)
                                && held[p] == products[p].(stock := products[p].stock + PickQuantity(items, p)))
  }

  ghost predicate CancelOk(db: Db, tx: Tx)
    requires Shaped(tx) && tx.call.CancelCall?
  {
    var order, now := tx.call.order, tx.call.now;
    match tx.at
    case CancelStatus => true
    case CancelCheck(row) => Cancelling(db, order, row)
    case CancelRefund(row) => Cancelling(db, order, row) && (row.status == Open ==> NoPending(db, order))
    case CancelPlan(row, refund) =>
      && Cancelling(db, order, row) && (row.status == Open ==> NoPending(db, order))
      && RefundOk(db, order, row.status, now, refund)
    case CancelStock(row, refund, todo, held) =>
      && Cancelling(db, order, row)
      && (row.status == Open ==> NoPending(db, order))
      && RefundOk(db, order, row.status, now, refund)
      && RestoredSoFar(db.products, row.items, todo, held)
  }

  predicate Cancelling(db: Db, order: nat, row: Order) {
    order < |db.orders| && db.orders[order] == row && CanTransition(row.status, Cancelled)
  }

  ghost predicate StartOk(db: Db, tx: Tx)
    requires Shaped(tx) && tx.call.StartCall?
  {
    var StartCall(order, key, _, now) := tx.call;
    match tx.at
    case StartStatus => true
    case StartSum => OrderIsOpen(db, order)
    case StartInsert(amount) => OrderIsOpen(db, order) && amount == Total(db.orders[order].items)
    case StartCommit(row) =>
      && OrderIsOpen(db, order) && NoActive(db, order)
      && (forall p | 0 <= p < |db.payments| :: db.payments[p].key == key ==> key == "")
      && Total(db.orders[order].items) > 0
      && row == Payment(order, Total(db.orders[order].items), Pending, key, None, now, 0, now, false)
  }

  ghost predicate TransitionOk(db: Db, tx: Tx)
    requires Shaped(tx) && tx.call.TransitionCall?
  {
    var TransitionCall(p, to, charge) := tx.call;
    match tx.at
    case TransitionStatus => true
    case TransitionWrite(was) => Moving(db, p, to, was)
    case TransitionOrder(was, next) => Moving(db, p, to, was) && next == Written(was, to, charge)
    case TransitionCommit(was, next, paid) =>
      && Moving(db, p, to, was) && next == Written(was, to, charge) && (to == Succeeded <==> paid.Some?)
      && (paid.Some? ==> OrderIsOpen(db, was.order) && db.orders[was.order] == paid.value)
  }

  function Written(was: Payment, to: PaymentStatus, charge: Option<nat>): Payment {
    was.(status := to, charge := if charge.Some? then charge else was.charge)
  }

  predicate Moving(db: Db, p: nat, to: PaymentStatus, was: Payment) {
    p < |db.payments| && db.payments[p] == was && CanTransitionPayment(was.status, to)
  }

  ghost predicate TxOk(db: Db, tx: Tx)
    requires Shaped(tx)
  {
    match tx.call
    case CreateCall(_, _) => CreateOk(db, tx)
    case CancelCall(_, _) => CancelOk(db, tx)
    case StartCall(_, _, _, _) => StartOk(db, tx)
    case TransitionCall(_, _, _) => TransitionOk(db, tx)
  }

  /** Every payment belongs to an order, and an order has at most one active payment. */
  ghost predicate TablesOk(db: Db) {
    OneActive(db.payments) && forall p | 0 <= p < |db.payments| :: db.payments[p].order < |db.orders|
  }

  ghost predicate EngineOk(e: Engine) {
    && TablesOk(e.db) && LocksOk(e)
    && (forall id | id in e.txs :: Shaped(e.txs[id]) && TxOk(e.db, e.txs[id]) && id !in e.results)
  }

  // ----- what the others may do

  /** A change of the committed tables that respects the locks of `tx`. */
  ghost predicate Respects(db: Db, db': Db, tx: Tx)
    requires Shaped(tx)
  {
    && ProductsRespect(db.products, db'.products, tx)
    && OrdersRespect(db, db', tx)
    && PaymentsRespect(db.payments, db'.payments, tx)
    && RefundsRespect(db.refunds, db'.refunds, tx)
  }

  ghost predicate ProductsRespect(products: map<int, Product>, products': map<int, Product>, tx: Tx)
    requires Shaped(tx)
  {
    && products'.Keys == products.Keys
    && forall p | p in products ::
          products'[p].price == products[p].price && (Holds(tx, ProductLock(p)) ==> products'[p] == products[p])
  }

  ghost predicate OrdersRespect(db: Db, db': Db, tx: Tx)
    requires Shaped(tx)
  {
    && |db.orders| <= |db'.orders|
    && (forall o: nat | o < |db.orders| ::
          db'.orders[o].items == db.orders[o].items && (Holds(tx, OrderLock(o)) ==> db'.orders[o] == db.orders[o]))
    && (forall k | k in db'.created :: k in db.created || !Holds(tx, CreationKey(k)))
  }

  ghost predicate PaymentsRespect(payments: seq<Payment>, payments': seq<Payment>, tx: Tx)
    requires Shaped(tx)
  {
    && |payments| <= |payments'|
    && (forall p: nat | p < |payments| ::
          && payments'[p].order == payments[p].order && payments'[p].key == payments[p].key
          && (Holds(tx, PaymentLock(p)) ==> payments'[p] == payments[p])
          && (Active(payments'[p].status) && Holds(tx, OrderLock(payments[p].order)) ==>
                payments'[p].status == payments[p].status))
    && (forall p: nat | |payments| <= p < |payments'| ::
          !Holds(tx, OrderLock(payments'[p].order)) && !Holds(tx, PaymentKey(payments'[p].key)))
  }

  ghost predicate RefundsRespect(refunds: seq<Refund>, refunds': seq<Refund>, tx: Tx)
    requires Shaped(tx)
  {
    && |refunds| <= |refunds'|
    && (forall i | 0 <= i < |refunds| :: refunds'[i].payment == refunds[i].payment)
    && (forall i | |refunds| <= i < |refunds'| :: !Holds(tx, PaymentLock(refunds'[i].payment)))
  }

  lemma CreateStays(db: Db, db': Db, tx: Tx)
    requires Shaped(tx) && tx.call.CreateCall? && TxOk(db, tx) && Respects(db, db', tx)
    ensures TxOk(db', tx)
  {
    if !tx.at.CreateKey? {
      forall i | 0 <= i < |tx.at.rows| ensures DoneLine(db'.products, tx.at.lines[i], tx.at.rows[i], tx.at.held) {
        assert DoneLine(db.products, tx.at.lines[i], tx.at.rows[i], tx.at.held);
        assert Holds(tx, ProductLock(tx.at.lines[i].product));
      }
      assert tx.call.creationKey != "" ==> Holds(tx, CreationKey(tx.call.creationKey));
    }
  }

  lemma RefundFound(refunds: seq<Refund>, refunds': seq<Refund>, p: nat)
    requires |refunds| <= |refunds'| && forall i | 0 <= i < |refunds| :: refunds'[i].payment == refunds[i].payment
    requires FindRefund(refunds, p).Some?
    ensures FindRefund(refunds', p).Some?
  {
    assert refunds'[FindRefund(refunds, p).value].payment == p;
  }

  lemma RefundStays(db: Db, db': Db, tx: Tx, status: OrderStatus, now: nat, refund: Option<Refund>)
    requires Shaped(tx) && tx.call.CancelCall? && Respects(db, db', tx)
    requires RefundOk(db, tx.call.order, status, now, refund) && Holds(tx, OrderLock(tx.call.order))
    requires refund.Some? ==> Holds(tx, PaymentLock(refund.value.payment))
    ensures RefundOk(db', tx.call.order, status, now, refund)
  {
    if refund.None? && status == OrderStatus.Paid {
      forall p | 0 <= p < |db'.payments| && db'.payments[p].order == tx.call.order
          && db'.payments[p].status == Succeeded
        ensures FindRefund(db'.refunds, p).Some?
      {
        RefundFound(db.refunds, db'.refunds, p);
      }
    }
  }

  lemma CancelStays(db: Db, db': Db, tx: Tx)
    requires Shaped(tx) && tx.call.CancelCall? && TxOk(db, tx) && Respects(db, db', tx)
    ensures TxOk(db', tx)
  {
    if !tx.at.CancelStatus? {
      assert Holds(tx, OrderLock(tx.call.order));
      if tx.at.CancelPlan? || tx.at.CancelStock? {
        RefundStays(db, db', tx, tx.at.row.status, tx.call.now, tx.at.refund);
      }
      if tx.at.CancelStock? {
        forall p | p in tx.at.held
          ensures p in db'.products
          ensures tx.at.held[p] == db'.products[p].(stock := db'.products[p].stock + PickQuantity(tx.at.row.items, p))
        {
          assert Holds(tx, ProductLock(p));
        }
      }
    }
  }

  lemma StartStays(db: Db, db': Db, tx: Tx)
    requires Shaped(tx) && tx.call.StartCall? && TxOk(db, tx) && Respects(db, db', tx)
    ensures TxOk(db', tx)
  {
    if !tx.at.StartStatus? {
      assert Holds(tx, OrderLock(tx.call.order));
      if tx.at.StartCommit? {
        assert tx.call.key != "" ==> Holds(tx, PaymentKey(tx.call.key));
      }
    }
  }

  lemma TransitionStays(db: Db, db': Db, tx: Tx)
    requires Shaped(tx) && tx.call.TransitionCall? && TxOk(db, tx) && Respects(db, db', tx)
    ensures TxOk(db', tx)
  {
    if !tx.at.TransitionStatus? {
      assert Holds(tx, PaymentLock(tx.call.payment));
      if tx.at.TransitionCommit? && tx.at.paid.Some? {
        assert Holds(tx, OrderLock(tx.at.was.order));
      }
    }
  }

  /** What a transaction knows stays true under every change that respects its locks. */
  lemma TxStays(db: Db, db': Db, tx: Tx)
    requires Shaped(tx) && TxOk(db, tx) && Respects(db, db', tx)
    ensures TxOk(db', tx)
  {
    match tx.call
    case CreateCall(_, _) => CreateStays(db, db', tx);
    case CancelCall(_, _) => CancelStays(db, db', tx);
    case StartCall(_, _, _, _) => StartStays(db, db', tx);
    case TransitionCall(_, _, _) => TransitionStays(db, db', tx);
  }

  /** Of two transactions no lock belongs to both. */
  ghost predicate Apart(a: Tx, b: Tx)
    requires Shaped(a) && Shaped(b)
  {
    forall l :: !(Holds(a, l) && Holds(b, l))
  }

  lemma MergeKeepsKeys(products: map<int, Product>, held: map<int, Product>)
    requires forall p | p in held :: p in products
    ensures (products + held).Keys == products.Keys
  {
    assert forall p :: p in products + held <==> p in products;
  }

  lemma CreateCommitRespects(db: Db, tx: Tx, other: Tx, plan: seq<int>)
    requires Shaped(tx) && Shaped(other) && TxOk(db, tx) && Apart(tx, other) && tx.call.CreateCall?
    requires Run(db, tx, plan).Commits?
    ensures Respects(db, Run(db, tx, plan).db, other)
  {
    var db' := Run(db, tx, plan).db;
    assert tx.call.creationKey != "" ==> Holds(tx, CreationKey(tx.call.creationKey));
    forall p | p in tx.at.held
      ensures p in db.products && tx.at.held[p].price == db.products[p].price && !Holds(other, ProductLock(p))
    {
      var i :| 0 <= i < |tx.at.rows| && tx.at.lines[i].product == p;
      assert DoneLine(db.products, tx.at.lines[i], tx.at.rows[i], tx.at.held);
      assert Holds(tx, ProductLock(p));
    }
    MergeKeepsKeys(db.products, tx.at.held);
  }

  lemma CancelCommitRespects(db: Db, tx: Tx, other: Tx, plan: seq<int>)
    requires Shaped(tx) && Shaped(other) && TxOk(db, tx) && Apart(tx, other) && tx.call.CancelCall?
    requires Run(db, tx, plan).Commits?
    ensures Respects(db, Run(db, tx, plan).db, other)
  {
    assert Holds(tx, OrderLock(tx.call.order));
    assert tx.at.refund.Some? ==> Holds(tx, PaymentLock(tx.at.refund.value.payment));
    forall p | p in tx.at.held ensures !Holds(other, ProductLock(p)) {
      assert Holds(tx, ProductLock(p));
    }
    MergeKeepsKeys(db.products, tx.at.held);
  }

  lemma PaymentCommitRespects(db: Db, tx: Tx, other: Tx, plan: seq<int>)
    requires Shaped(tx) && Shaped(other) && TxOk(db, tx) && Apart(tx, other)
    requires (tx.call.StartCall? || tx.call.TransitionCall?)
    requires Run(db, tx, plan).Commits?
    ensures Respects(db, Run(db, tx, plan).db, other)
  {
    if tx.call.StartCall? {
      assert Holds(tx, OrderLock(tx.call.order));
      assert tx.call.key != "" ==> Holds(tx, PaymentKey(tx.call.key));
      assert !Holds(other, PaymentKey(""));
    } else {
      assert Holds(tx, PaymentLock(tx.call.payment));
      assert tx.at.paid.Some? ==> Holds(tx, OrderLock(tx.at.was.order));
    }
  }

  /** A commit respects everybody else's locks. */
  lemma CommitRespects(db: Db, tx: Tx, other: Tx, plan: seq<int>)
    requires Shaped(tx) && Shaped(other) && TxOk(db, tx) && Apart(tx, other) && Run(db, tx, plan).Commits?
    ensures Respects(db, Run(db, tx, plan).db, other)
  {
    if tx.call.CreateCall? { CreateCommitRespects(db, tx, other, plan); }
    else if tx.call.CancelCall? { CancelCommitRespects(db, tx, other, plan); }
    else { PaymentCommitRespects(db, tx, other, plan); }
  }

  lemma TouchRespects(db: Db, p: nat, t: Touch, other: Tx)
    requires Shaped(other) && !Holds(other, PaymentLock(p))
    ensures Respects(db, TouchTx(db, p, t), other)
  {
  }
}
