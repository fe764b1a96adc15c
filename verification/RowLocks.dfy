/** The order and payment transactions statement by statement, under row locks and the locks of unique
    index entries. Statements read committed rows (READ COMMITTED) and the transaction's own writes,
    which the others see only when it commits. */
module RowLocks {
  import opened Domain
  import opened Tables
  import opened Orders
  import opened Payments

  datatype Call =
    | CreateCall(lines: seq<Line>, creationKey: string)
    | CancelCall(order: nat, now: nat)
    | StartCall(order: nat, key: string, keyFirst: bool, now: nat)
    | TransitionCall(payment: nat, to: PaymentStatus, charge: Option<nat>)

  datatype Outcome =
    | CreateOut(created: CreateResult)
    | CancelOut(cancelled: CancelResult)
    | StartOut(started: StartResult)
    | TransitionOut(transition: TransitionResult)
    | RolledBack

  /** The whole call at once. */
  function Atomic(db: Db, call: Call): (Db, Outcome) {
    match call
    case CreateCall(lines, key) => var (db', r) := CreateTx(db, lines, key); (db', CreateOut(r))
    case CancelCall(order, now) => var (db', r) := CancelTx(db, order, now); (db', CancelOut(r))
    case StartCall(order, key, keyFirst, now) => var (db', r) :=
        StartTx(db, order, key, keyFirst, now); (db', StartOut(r))
    case TransitionCall(p, to, charge) => var (db', r) := TransitionTx(db, p, to, charge); (db', TransitionOut(r))
  }

  /** A lockable row or index entry. */
  datatype Lock =
    | CreationKey(name: string)
    | OrderLock(order: nat)
    | PaymentLock(payment: nat)
    | PaymentKey(name: string)
    | ProductLock(product: int)

  /** The next statement of a transaction, with what it has read and written so far. */
  datatype At =
    // OrderRepo.CreateOrder
    | CreateKey
    | CreatePrice(lines: seq<Line>, rows: seq<Item>, held: map<int, Product>)
    | CreateStock(lines: seq<Line>, rows: seq<Item>, held: map<int, Product>, price: int)
    // OrderRepo.CancelOrder
    | CancelStatus
    | CancelCheck(row: Order)
    | CancelRefund(row: Order)
    | CancelPlan(row: Order, refund: Option<Refund>)
    | CancelStock(row: Order, refund: Option<Refund>, todo: seq<int>, held: map<int, Product>)
    // PaymentRepo.start
    | StartStatus
    | StartSum
    | StartInsert(amount: int)
    | StartCommit(inserted: Payment)
    // PaymentRepo.Transition
    | TransitionStatus
    | TransitionWrite(was: Payment)
    | TransitionOrder(was: Payment, next: Payment)
    | TransitionCommit(was: Payment, next: Payment, paid: Option<Order>)

  datatype Tx = Tx(call: Call, at: At)

  predicate Shaped(tx: Tx) {
    match tx.call
    case CreateCall(_, _) => tx.at.CreateKey? || tx.at.CreatePrice? || tx.at.CreateStock?
    case CancelCall(_, _) =>
      tx.at.CancelStatus? || tx.at.CancelCheck? || tx.at.CancelRefund? || tx.at.CancelPlan? || tx.at.CancelStock?
    case StartCall(_, _, _, _) => tx.at.StartStatus? || tx.at.StartSum? || tx.at.StartInsert? || tx.at.StartCommit?
    case TransitionCall(_, _, _) =>
      tx.at.TransitionStatus? || tx.at.TransitionWrite? || tx.at.TransitionOrder? || tx.at.TransitionCommit?
  }

  function First(call: Call): At {
    match call
    case CreateCall(_, _) => CreateKey
    case CancelCall(_, _) => CancelStatus
    case StartCall(_, _, _, _) => StartStatus
    case TransitionCall(_, _, _) => TransitionStatus
  }

  /** A statement moves on, ends the call without changing anything, or commits. */
  datatype Ran = Goes(at: At) | Ends(out: Outcome) | Commits(db: Db, out: Outcome)

  function RunCreate(db: Db, tx: Tx): Ran
    requires Shaped(tx) && tx.call.CreateCall?
  {
    var key := tx.call.creationKey;
    match tx.at
    case CreateKey =>
      if key != "" && key in db.created then Ends(CreateOut(Existing(db.created[key])))
      else Goes(CreatePrice(SortLines(tx.call.lines), [], map[]))
    case CreatePrice(lines, rows, held) =>
      if |rows| >= |lines| then
        Commits(db.(products := db.products + held, orders := db.orders + [Order(Open, rows)],
                    created := if key == "" then db.created else db.created[key := |db.orders|]),
                CreateOut(Created(|db.orders|)))
      else if lines[|rows|].product !in db.products then Ends(CreateOut(ProductNotFound))
      else Goes(CreateStock(lines, rows, held, db.products[lines[|rows|].product].price))
    case CreateStock(lines, rows, held, price) =>
      if Deducts(db, tx.at) then
        var line, p := lines[|rows|], db.products[lines[|rows|].product];
        Goes(CreatePrice(lines, rows + [Item(line.product, line.quantity, price)],
                         held[line.product := p.(stock := p.stock - line.quantity)]))
      else Ends(CreateOut(InsufficientStock))
  }

  /** The stock UPDATE finds its row. */
  predicate Deducts(db: Db, at: At)
    requires at.CreateStock?
  {
    && |at.rows| < |at.lines|
    && at.lines[|at.rows|].product in db.products
    && db.products[at.lines[|at.rows|].product].stock >= at.lines[|at.rows|].quantity
  }

  /** The refund row that the INSERT ... SELECT makes for a paid order. */
  function NewRefund(db: Db, order: nat, status: OrderStatus, now: nat): Option<Refund> {
    if status != Paid then None
    else
      match FindInStatus(db.payments, order, Succeeded)
      case None => None
      case Some(p) =>
        if FindRefund(db.refunds, p).Some? then None else Some(Refund(p, db.payments[p].amount, Waiting, 0, now, None))
  }

  /** The order in which one UPDATE ... FROM visits the product rows, each once, is up to the query plan. */
  predicate PlanOk(products: map<int, Product>, items: seq<Item>, plan: seq<int>) {
    && (forall p | p in products && Mentions(items, p) :: p in plan)
    && (forall i | 0 <= i < |plan| :: plan[i] in products && Mentions(items, plan[i]))
    && (forall i, j | 0 <= i < j < |plan| :: plan[i] != plan[j])
  }

  function RunCancel(db: Db, tx: Tx, plan: seq<int>): Ran
    requires Shaped(tx) && tx.call.CancelCall?
  {
    var order := tx.call.order;
    match tx.at
    case CancelStatus =>
      if order >= |db.orders| then Ends(CancelOut(NoSuchOrder))
      else if !CanTransition(db.orders[order].status, Cancelled) then
        Ends(CancelOut(if db.orders[order].status == Cancelled then AlreadyCancelled else NotCancellable))
      else Goes(CancelCheck(db.orders[order]))
    case CancelCheck(row) =>
      if row.status == Open && FindInStatus(db.payments, order, Pending).Some? then Ends(CancelOut(PaymentInProgress))
      else Goes(CancelRefund(row))
    case CancelRefund(row) => Goes(CancelPlan(row, NewRefund(db, order, row.status, tx.call.now)))
    case CancelPlan(row, refund) =>
      if PlanOk(db.products, row.items, plan) then Goes(CancelStock(row, refund, plan, map[])) else Goes(tx.at)
    case CancelStock(row, refund, todo, held) =>
      if todo == [] then
        if order < |db.orders| then
          Commits(db.(orders := db.orders[order := row.(status := Cancelled)],
                      refunds := if refund.None? then db.refunds else db.refunds + [refund.value],
                      products := db.products + held),
                  CancelOut(CancelDone))
        else Ends(CancelOut(NoSuchOrder))
      else if todo[0] in db.products then
        var p := db.products[todo[0]];
        Goes(CancelStock(row, refund, todo[1..],
                         held[todo[0] := p.(stock := p.stock + PickQuantity(row.items, todo[0]))]))
      else Goes(CancelStock(row, refund, todo[1..], held))
  }

  predicate HasActive(db: Db, order: nat) {
    FindInStatus(db.payments, order, Pending).Some? || FindInStatus(db.payments, order, Succeeded).Some?
  }

  function RunStart(db: Db, tx: Tx): Ran
    requires Shaped(tx) && tx.call.StartCall?
  {
    var StartCall(order, key, keyFirst, now) := tx.call;
    match tx.at
    case StartStatus =>
      if order >= |db.orders| then Ends(StartOut(OrderNotFound))
      else if db.orders[order].status != Open then Ends(StartOut(OrderNotOpen(db.orders[order].status)))
      else Goes(StartSum)
    case StartSum => Goes(StartInsert(if order < |db.orders| then Total(db.orders[order].items) else 0))
    case StartInsert(amount) =>
      var taken, active := FindPayment(db.payments, key).Some?, HasActive(db, order);
      if amount <= 0 then Ends(StartOut(AmountNotPositive))
      else if taken && (keyFirst || !active) then Ends(StartOut(KeyTaken))
      else if active then Ends(StartOut(AlreadyActive))
      else Goes(StartCommit(Payment(order, amount, Pending, key, None, now, 0, now, false)))
    case StartCommit(row) =>
      Commits(db.(payments := db.payments + [row], events := db.events + [Event(|db.payments|, None, Pending)]),
              StartOut(Started(|db.payments|)))
  }

  function RunTransition(db: Db, tx: Tx): Ran
    requires Shaped(tx) && tx.call.TransitionCall?
  {
    var TransitionCall(p, to, charge) := tx.call;
    match tx.at
    case TransitionStatus =>
      if p >= |db.payments| then Ends(TransitionOut(PaymentNotFound))
      else if !CanTransitionPayment(db.payments[p].status,
                                    to) then Ends(TransitionOut(IllegalMove(db.payments[p].status)))
      else Goes(TransitionWrite(db.payments[p]))
    case TransitionWrite(was) =>
      Goes(TransitionOrder(was, was.(status := to, charge := if charge.Some? then charge else was.charge)))
    case TransitionOrder(was, next) =>
      if to != Succeeded then Goes(TransitionCommit(was, next, None))
      else if OrderIsOpen(db, was.order) then Goes(TransitionCommit(was, next, Some(db.orders[was.order])))
      else Ends(TransitionOut(OrderNoLongerOpen))
    case TransitionCommit(was, next, paid) =>
      if p >= |db.payments| || was.order >= |db.orders| then Ends(TransitionOut(PaymentNotFound))
      else
        Commits(db.(payments := db.payments[p := next], events := db.events + [Event(p, Some(was.status), to)],
                    orders := if paid.None? then db.orders
                              else db.orders[was.order := paid.value.(status := OrderStatus.Paid)]),
                TransitionOut(Moved))
  }

  predicate OrderIsOpen(db: Db, order: nat) {
    order < |db.orders| && db.orders[order].status == Open
  }

  function Run(db: Db, tx: Tx, plan: seq<int>): Ran
    requires Shaped(tx)
  {
    match tx.call
    case CreateCall(_, _) => RunCreate(db, tx)
    case CancelCall(_, _) => RunCancel(db, tx, plan)
    case StartCall(_, _, _, _) => RunStart(db, tx)
    case TransitionCall(_, _, _) => RunTransition(db, tx)
  }

  /** The lock the next statement takes. */
  function Takes(db: Db, tx: Tx): Option<Lock>
    requires Shaped(tx)
  {
    match tx.at
    case CreateKey =>
      if tx.call.creationKey != "" && tx.call.creationKey !in db.created then Some(CreationKey(tx.call.creationKey))
      else None
    case CreateStock(lines, rows, _, _) => if Deducts(db, tx.at) then Some(ProductLock(lines[|rows|].product)) else None
    case CancelStatus => if tx.call.order < |db.orders| then Some(OrderLock(tx.call.order)) else None
    // the new refund row refers to its payment: the foreign key locks that row
    case CancelRefund(row) =>
      var refund := NewRefund(db, tx.call.order, row.status, tx.call.now);
      if refund.Some? then Some(PaymentLock(refund.value.payment)) else None
    case CancelStock(_, _, todo, _) => if todo != [] && todo[0] in db.products then Some(ProductLock(todo[0])) else None
    case StartStatus => if tx.call.order < |db.orders| then Some(OrderLock(tx.call.order)) else None
    case StartInsert(amount) =>
      if tx.call.key != "" && amount > 0 && FindPayment(db.payments, tx.call.key).None? && !HasActive(db, tx.call.order)
      then Some(PaymentKey(tx.call.key)) else None
    case TransitionStatus => if tx.call.payment < |db.payments| then Some(PaymentLock(tx.call.payment)) else None
    case TransitionOrder(was, _) =>
      if tx.call.to == Succeeded && OrderIsOpen(db, was.order) then Some(OrderLock(was.order)) else None
    case _ => None
  }

  datatype Engine = Engine(db: Db, locks: map<Lock, nat>, txs: map<nat, Tx>, results: map<nat, Outcome>)

  /** An index entry of this payment is being rewritten by an unfinished Transition. */
  predicate Rewritten(e: Engine, p: Option<nat>) {
    && p.Some? && PaymentLock(p.value) in e.locks && e.locks[PaymentLock(p.value)] in e.txs
    && var at := e.txs[e.locks[PaymentLock(p.value)]].at; at.TransitionOrder? || at.TransitionCommit?
  }

  /** The payment rows an INSERT can clash with. */
  function Clashes(db: Db, tx: Tx): seq<Option<nat>>
    requires Shaped(tx)
  {
    if tx.at.StartInsert? && tx.at.amount > 0 then
      [FindPayment(db.payments, tx.call.key), FindInStatus(db.payments, tx.call.order, Pending),
       FindInStatus(db.payments, tx.call.order, Succeeded)]
    else []
  }

  /** The transaction that `id` waits for: the owner of the lock it needs, or the writer of a row that
      its INSERT may clash with. */
  function WaitsFor(e: Engine, id: nat): Option<nat>
    requires id in e.txs && Shaped(e.txs[id])
  {
    var lock, clashes := Takes(e.db, e.txs[id]), Clashes(e.db, e.txs[id]);
    if lock.Some? && lock.value in e.locks && e.locks[lock.value] != id then Some(e.locks[lock.value])
    else if clashes == [] then None
    else if Rewritten(e, clashes[0]) then Some(e.locks[PaymentLock(clashes[0].value)])
    else if Rewritten(e, clashes[1]) then Some(e.locks[PaymentLock(clashes[1].value)])
    else if Rewritten(e, clashes[2]) then Some(e.locks[PaymentLock(clashes[2].value)])
    else None
  }

  function Release(locks: map<Lock, nat>, id: nat): map<Lock, nat> {
    map l | l in locks && locks[l] != id :: locks[l]
  }

  /** The transaction is over: its locks are free and its caller has the answer. */
  function Finish(e: Engine, id: nat, db: Db, out: Outcome): Engine {
    Engine(db, Release(e.locks, id), e.txs - {id}, e.results[id := out])
  }

  /** Single-statement updates of a payment by the workers; they wait for the row's lock. */
  datatype Touch = Lease(until: nat) | Reschedule(at: nat) | GiveUp

  function TouchTx(db: Db, payment: nat, t: Touch): Db {
    match t
    case Lease(until) => if payment < |db.payments| then LeasePayment(db, payment, until) else db
    case Reschedule(at) => ScheduleTx(db, payment, at)
    case GiveUp => ManualTx(db, payment)
  }

  datatype Step =
    | Begin(id: nat, call: Call)
    | Next(id: nat, plan: seq<int>)
    | RollBack(id: nat)
    | Worker(payment: nat, touch: Touch)

  predicate CanMove(e: Engine, id: nat) {
    id in e.txs && Shaped(e.txs[id]) && WaitsFor(e, id).None?
  }

  function Apply(e: Engine, step: Step): Engine {
    match step
    case Begin(id, call) =>
      if id in e.txs || id in e.results || (call.CreateCall? && CheckRequest(call.lines).Some?) then e
      else e.(txs := e.txs[id := Tx(call, First(call))])
    case Next(id, plan) =>
      if !CanMove(e, id) then e
      else
        (match Run(e.db, e.txs[id], plan)
         case Goes(at) =>
           var lock := Takes(e.db, e.txs[id]);
           e.(txs := e.txs[id := e.txs[id].(at := at)],
              locks := if lock.Some? then e.locks[lock.value := id] else e.locks)
         case Ends(out) => Finish(e, id, e.db, out)
         case Commits(db, out) => Finish(e, id, db, out))
    case RollBack(id) => if id in e.txs then Finish(e, id, e.db, RolledBack) else e
    case Worker(p, t) => if PaymentLock(p) in e.locks then e else e.(db := TouchTx(e.db, p, t))
  }

  function Exec(db: Db, steps: seq<Step>): Engine {
    if steps == [] then Engine(db, map[], map[], map[]) else Apply(Exec(db, steps[..|steps| - 1]), Last(steps))
  }
}
