/** The payment protocol as a state machine: one database, one provider journal, a clock, and any
    number of calls in flight, interleaved step by step.

    Every choice the environment makes (who moves, provider verdicts, lost replies, failed
    statements, crashes, delays) is in the step's label, so `Apply` is a function and a run is a
    sequence of steps. A step that is not enabled changes nothing. */
module Protocol {
  import opened Domain
  import opened Tables
  import opened Orders
  import opened Payments
  import opened Reconciliation

  datatype Config = Config(stuckAfter: nat, expireAfter: nat, checkLease: nat, checkAttempts: nat,
                           refundLease: nat, refundAttempts: nat)

  /** A call in progress, by the statement it makes next. */
  datatype Flight =
    // PaymentService.Pay
    | Looking(order: nat, key: string)
    | Starting(order: nat, key: string)
    | LookingAgain(order: nat, key: string)
    | Charging(order: nat, key: string, payment: nat, amount: int, alive: bool)
    | Recording(payment: nat, to: PaymentStatus, charge: Option<nat>)
    // RefundWorker
    | Refunding(refund: nat, payment: nat, amount: int, attempts: nat, charge: Option<nat>, awaited: bool)
    | RefundSent(refund: nat, payment: nat, sent: nat)
    | RefundRetry(refund: nat, attempts: nat)
    // ReconcileWorker
    | Checking(payment: nat, key: string, attempts: nat, age: nat)
    | Resolving(payment: nat, to: PaymentStatus, charge: Option<nat>, attempts: nat)
    | Postponing(payment: nat, attempts: nat, counted: bool)
    | Parking(payment: nat)
    // reconciliation.Job, one key at a time
    | Matching(key: string, listed: Option<Theirs>)
    | Fixing(ours: Ours, theirs: Theirs, action: Action)
    | ClosingRefund(refund: nat)

  datatype State = State(db: Db, journal: Journal, clock: nat, flights: map<nat, Flight>)

  /** What the environment decides about one move: the provider's verdict, which of two clashing
      indexes reports, whether the reply is lost, and the length of a back-off. */
  datatype Choice = Choice(approve: bool, keyFirst: bool, lost: bool, delay: nat)

  datatype Step =
    | Tick(d: nat)
    | SetDown(down: bool)
    | Create(lines: seq<Line>, creationKey: string)
    | Cancel(order: nat)
    | Pay(fid: nat, order: nat, key: string)
    | LeaseRefundStep(fid: nat, refund: nat)
    | LeaseCheckStep(fid: nat, payment: nat)
    | ListCharges(fid: nat, key: string)
    | Move(fid: nat, choice: Choice)
    | StatementFails(fid: nat)
    | Crash(fid: nat, sent: bool)

  function Init(products: map<int, Product>): State {
    State(Db(products, [], map[], [], [], []), Journal([], [], false), 0, map[])
  }

  function Put(s: State, fid: nat, f: Flight): State {
    s.(flights := s.flights[fid := f])
  }

  function End(s: State, fid: nat): State {
    s.(flights := s.flights - {fid})
  }

  /** Pay after StartOrResume found a payment: finished ones answer at once, a pending one is charged. */
  function Resume(s: State, fid: nat, order: nat, key: string, payment: nat): State
    requires payment < |s.db.payments|
  {
    var p := s.db.payments[payment];
    if p.status == Pending then Put(s, fid, Charging(order, key, payment, p.amount, true)) else End(s, fid)
  }

  function LookAgain(s: State, fid: nat, order: nat, key: string): State {
    match FindPayment(s.db.payments, key)
    case Some(p) => Resume(s, fid, order, key, p)
    case None => End(s, fid)
  }

  function MoveStart(s: State, fid: nat, order: nat, key: string, ch: Choice): State {
    var (db, r) := StartTx(s.db, order, key, ch.keyFirst, s.clock);
    match r
    case Started(p) => Put(s.(db := db), fid, Charging(order, key, p, db.payments[p].amount, true))
    case KeyTaken => Put(s, fid, LookingAgain(order, key))
    case _ => End(s, fid)
  }

  /** The provider acts on a charge request; a lost reply or a dead caller leaves the payment as it is. */
  function MoveCharge(s: State, fid: nat, f: Flight, ch: Choice): State
    requires f.Charging?
  {
    var (j, reply) := ChargeCall(s.journal, f.key, f.order, f.amount, ch.approve, s.clock);
    var s' := s.(journal := j);
    if !f.alive || ch.lost || reply == ChargeUnavailable then End(s', fid)
    else if reply == ChargeDeclined then Put(s', fid, Recording(f.payment, Failed, None))
    else Put(s', fid, Recording(f.payment, Succeeded, Some(reply.charge)))
  }

  function MoveRefund(s: State, fid: nat, f: Flight, ch: Choice): State
    requires f.Refunding?
  {
    var (j, reply) := RefundCall(s.journal, f.refund, f.charge, f.amount);
    var s' := s.(journal := j);
    if !f.awaited then End(s', fid)
    else if ch.lost || reply == RefundUnavailable then Put(s', fid, RefundRetry(f.refund, f.attempts))
    else Put(s', fid, RefundSent(f.refund, f.payment, reply.sent))
  }

  function MoveCheck(c: Config, s: State, fid: nat, f: Flight, ch: Choice): State
    requires f.Checking?
  {
    if f.key == "" then Put(s, fid, Parking(f.payment))
    else
      var reply := if ch.lost then StatusUnavailable else StatusCall(s.journal, f.key);
      Put(s, fid,
          match reply
          case StatusUnavailable => Postponing(f.payment, f.attempts, true)
          case WasCharged(charge) => Resolving(f.payment, Succeeded, Some(charge), f.attempts)
          case WasDeclined => Resolving(f.payment, Failed, None, f.attempts)
          case NotFound =>
            if f.age >= c.expireAfter then Resolving(f.payment, Expired, None, f.attempts)
            else Postponing(f.payment, f.attempts, false))
  }

  /** A commit whose acknowledgement is lost counts as a failed write for the worker. */
  function MoveResolve(s: State, fid: nat, f: Flight, ch: Choice): State
    requires f.Resolving?
  {
    var (db, r) := TransitionTx(s.db, f.payment, f.to, f.charge);
    var s' := s.(db := db);
    if r.IllegalMove? || (r == Moved && !ch.lost) then End(s', fid)
    else Put(s', fid, Postponing(f.payment, f.attempts, true))
  }

  function MovePostpone(c: Config, s: State, fid: nat, f: Flight, ch: Choice): State
    requires f.Postponing?
  {
    End(s.(db := if f.counted && f.attempts >= c.checkAttempts then ManualTx(s.db, f.payment)
                 else ScheduleTx(s.db, f.payment, s.clock + ch.delay)), fid)
  }

  function MoveMatch(s: State, fid: nat, f: Flight): State
    requires f.Matching?
  {
    var ours := OursFor(s.db, f.key);
    var finding := Classify(ours, f.listed);
    if finding.action in {FixPaymentSucceeded, FixPaymentFailed, FixRefundSucceeded}
    then Put(s, fid, Fixing(ours.value, f.listed.value, finding.action))
    else End(s, fid)
  }

  function MoveFix(s: State, fid: nat, f: Flight): State
    requires f.Fixing?
  {
    match f.action
    case FixPaymentSucceeded => End(s.(db := TransitionTx(s.db, f.ours.payment, Succeeded, Some(f.theirs.charge)).0),
                                    fid)
    case FixPaymentFailed => End(s.(db := TransitionTx(s.db, f.ours.payment, Failed, None).0), fid)
    case FixRefundSucceeded =>
      if f.ours.refund.None? then End(s, fid)
      else if f.ours.status == Succeeded then
        var (db, r) := TransitionTx(s.db, f.ours.payment, Refunded, None);
        if r == Moved then Put(s.(db := db), fid, ClosingRefund(f.ours.refund.value)) else End(s, fid)
      else Put(s, fid, ClosingRefund(f.ours.refund.value))
    case _ => End(s, fid)
  }

  function MoveFlight(c: Config, s: State, fid: nat, ch: Choice): State
    requires fid in s.flights
  {
    var f := s.flights[fid];
    match f
    case Looking(order, key) =>
      (match FindPayment(s.db.payments, key)
       case Some(p) => Resume(s, fid, order, key, p)
       case None => Put(s, fid, Starting(order, key)))
    case Starting(order, key) => MoveStart(s, fid, order, key, ch)
    case LookingAgain(order, key) => LookAgain(s, fid, order, key)
    case Charging(_, _, _, _, _) => MoveCharge(s, fid, f, ch)
    case Recording(p, to, charge) => End(s.(db := TransitionTx(s.db, p, to, charge).0), fid)
    case Refunding(_, _, _, _, _, _) => MoveRefund(s, fid, f, ch)
    case RefundSent(r, p, sent) => End(s.(db := RefundSucceededTx(s.db, r, p, sent).0), fid)
    case RefundRetry(r, attempts) =>
      End(s.(db := RefundFailedTx(s.db, r, attempts, c.refundAttempts, s.clock + ch.delay)), fid)
    case Checking(_, _, _, _) => MoveCheck(c, s, fid, f, ch)
    case Resolving(_, _, _, _) => MoveResolve(s, fid, f, ch)
    case Postponing(_, _, _) => MovePostpone(c, s, fid, f, ch)
    case Parking(p) => End(s.(db := ManualTx(s.db, p)), fid)
    case Matching(_, _) => MoveMatch(s, fid, f)
    case Fixing(_, _, _) => MoveFix(s, fid, f)
    case ClosingRefund(r) => End(s.(db := CloseRefundTx(s.db, r)), fid)
  }

  function Apply(c: Config, s: State, step: Step): State {
    match step
    case Tick(d) => s.(clock := s.clock + d)
    case SetDown(down) => s.(journal := s.journal.(down := down))
    case Create(lines, key) =>
      if CheckRequest(lines).None? then s.(db := CreateTx(s.db, lines, key).0) else s
    case Cancel(order) => s.(db := CancelTx(s.db, order, s.clock).0)
    // the handler answers 400 to a payment request without a key
    case Pay(fid, order, key) =>
      if fid !in s.flights && key != "" then Put(s, fid, Looking(order, key)) else s
    case LeaseRefundStep(fid, r) =>
      if fid !in s.flights && RefundDue(s.db, r, s.clock) then
        var row := s.db.refunds[r];
        Put(s.(db := LeaseRefund(s.db, r, s.clock + c.refundLease)), fid,
            Refunding(r, row.payment, row.amount, row.attempts + 1, s.db.payments[row.payment].charge, true))
      else s
    case LeaseCheckStep(fid, p) =>
      if fid !in s.flights && CheckDue(s.db, p, c.stuckAfter, s.clock) then
        var row := s.db.payments[p];
        Put(s.(db := LeasePayment(s.db, p, s.clock + c.checkLease)), fid,
            Checking(p, row.key, row.attempts + 1, s.clock - row.createdAt))
      else s
    case ListCharges(fid, key) =>
      if fid !in s.flights && !s.journal.down && key != "" then Put(s, fid, Matching(key, TheirsFor(s.journal, key)))
      else s
    case Move(fid, ch) => if fid in s.flights then MoveFlight(c, s, fid, ch) else s
    // the next statement errors and rolls back: only the stuck-payment worker has a next move
    case StatementFails(fid) =>
      if fid !in s.flights || s.flights[fid].Charging? || s.flights[fid].Refunding? then s
      else if s.flights[fid].Resolving? then Put(s, fid,
                                                 Postponing(s.flights[fid].payment, s.flights[fid].attempts, true))
      else End(s, fid)
    // the process dies; a provider request already sent stays on its way
    case Crash(fid, sent) =>
      if fid !in s.flights then s
      else if sent && s.flights[fid].Charging? then Put(s, fid, s.flights[fid].(alive := false))
      else if sent && s.flights[fid].Refunding? then Put(s, fid, s.flights[fid].(awaited := false))
      else End(s, fid)
  }

  function Exec(c: Config, s: State, steps: seq<Step>): State {
    if steps == [] then s else Apply(c, Exec(c, s, steps[..|steps| - 1]), Last(steps))
  }

  ghost predicate Reachable(c: Config, s: State) {
    exists products: map<int, Product>, steps ::
          (forall p | p in products :: products[p].stock >= 0) && s == Exec(c, Init(products), steps)
  }

  /** One state is reached from the other. */
  ghost predicate Later(c: Config, s: State, s': State) {
    exists steps :: s' == Exec(c, s, steps)
  }

  lemma LaterStill(c: Config, s: State, s': State, s'': State)
    requires Later(c, s, s') && Later(c, s', s'')
    ensures Later(c, s, s'')
  {
    var a :| s' == Exec(c, s, a);
    var b :| s'' == Exec(c, s', b);
    ExecAppend(c, s, a, b);
  }

  lemma {:induction false} ExecAppend(c: Config, s: State, a: seq<Step>, b: seq<Step>)
    ensures Exec(c, s, a + b) == Exec(c, Exec(c, s, a), b)
  {
    if b == [] {
      assert a + b == a;
    } else {
      var init := b[..|b| - 1];
      ExecAppend(c, s, a, init);
      assert (a + b)[..|a + b| - 1] == a + init;
    }
  }
}
