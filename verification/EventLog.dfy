/** The payment event log tells each payment's whole history. */
module EventLog {
  import opened Domain
  import opened Tables
  import opened Payments
  import opened Protocol
  import opened Effects

  /** The events of one payment, in order. */
  function EventsOf(events: seq<Event>, p: nat): seq<Event> {
    if events == [] then []
    else EventsOf(events[..|events| - 1], p) + (if Last(events).payment == p then [Last(events)] else [])
  }

  /** One chain from creation to `status`: each link starts where the last ended and is allowed. */
  ghost predicate Chain(log: seq<Event>, status: PaymentStatus) {
    && log != [] && log[0].from == None && log[0].to == Pending && Last(log).to == status
    && forall i | 0 < i < |log| :: log[i].from == Some(log[i - 1].to) && CanTransitionPayment(log[i - 1].to, log[i].to)
  }

  ghost predicate LogOk(db: Db) {
    && (forall e | 0 <= e < |db.events| :: db.events[e].payment < |db.payments|)
    && (forall p | 0 <= p < |db.payments| :: Chain(EventsOf(db.events, p), db.payments[p].status))
  }

  /** A writer either leaves statuses and log alone, or creates a payment with its first event, or
      moves one payment along an allowed transition with the event that says so. */
  ghost predicate LogStep(db: Db, db': Db) {
    || (db'.events == db.events && SameStatuses(db.payments, db'.payments))
    || (&& |db'.payments| == |db.payments| + 1 && SameStatuses(db.payments, db'.payments[..|db.payments|])
        && Last(db'.payments).status == Pending && db'.events == db.events + [Event(|db.payments|, None, Pending)])
    || (exists p, to :: Moves(db, db', p, to))
  }

  ghost predicate Moves(db: Db, db': Db, p: nat, to: PaymentStatus) {
    && p < |db.payments| == |db'.payments|
    && CanTransitionPayment(db.payments[p].status, to) && db'.payments[p].status == to
    && (forall q | 0 <= q < |db.payments| && q != p :: db'.payments[q].status == db.payments[q].status)
    && db'.events == db.events + [Event(p, Some(db.payments[p].status), to)]
  }

  lemma {:induction false} EventsOfNone(events: seq<Event>, p: nat)
    requires forall e | 0 <= e < |events| :: events[e].payment != p
    ensures EventsOf(events, p) == []
  {
    if events != [] { EventsOfNone(events[..|events| - 1], p); }
  }

  lemma EventsOfAppend(events: seq<Event>, e: Event, p: nat)
    ensures EventsOf(events + [e], p) == EventsOf(events, p) + (if e.payment == p then [e] else [])
  {
    assert (events + [e])[..|events|] == events;
  }

  lemma ChainGrows(log: seq<Event>, status: PaymentStatus, e: Event)
    requires Chain(log, status) && e.from == Some(status) && CanTransitionPayment(status, e.to)
    ensures Chain(log + [e], e.to)
  {
    var more := log + [e];
    forall i | 0 < i < |more|
      ensures more[i].from == Some(more[i - 1].to) && CanTransitionPayment(more[i - 1].to, more[i].to)
    {
      if i < |log| { assert more[i] == log[i] && more[i - 1] == log[i - 1]; }
    }
  }

  lemma CreationLogs(db: Db, db': Db)
    requires LogOk(db) && |db'.payments| == |db.payments| + 1
    requires SameStatuses(db.payments, db'.payments[..|db.payments|])
    requires Last(db'.payments).status == Pending && db'.events == db.events + [Event(|db.payments|, None, Pending)]
    ensures LogOk(db')
  {
    var n := |db.payments|;
    EventsOfNone(db.events, n);
    forall p | 0 <= p < |db'.payments| ensures Chain(EventsOf(db'.events, p), db'.payments[p].status) {
      EventsOfAppend(db.events, Event(n, None, Pending), p);
      if p < n {
        assert Chain(EventsOf(db.events, p), db.payments[p].status);
        assert db'.payments[p] == db'.payments[..n][p];
      }
    }
  }

  lemma MoveLogs(db: Db, db': Db, p: nat, to: PaymentStatus)
    requires LogOk(db) && Moves(db, db', p, to)
    ensures LogOk(db')
  {
    var e := Event(p, Some(db.payments[p].status), to);
    forall q | 0 <= q < |db'.payments| ensures Chain(EventsOf(db'.events, q), db'.payments[q].status) {
      EventsOfAppend(db.events, e, q);
      assert Chain(EventsOf(db.events, q), db.payments[q].status);
      if q == p { ChainGrows(EventsOf(db.events, p), db.payments[p].status, e); }
    }
  }

  lemma SilenceLogs(db: Db, db': Db)
    requires LogOk(db) && db'.events == db.events && SameStatuses(db.payments, db'.payments)
    ensures LogOk(db')
  {
  }

  lemma LogStepKeeps(db: Db, db': Db)
    requires LogOk(db) && LogStep(db, db')
    ensures LogOk(db')
  {
    if db'.events == db.events && SameStatuses(db.payments, db'.payments) {
      SilenceLogs(db, db');
    } else if p, to :| Moves(db, db', p, to) {
      MoveLogs(db, db', p, to);
    } else {
      CreationLogs(db, db');
    }
  }

  // ----- the three writers

  lemma StartLogs(db: Db, order: nat, key: string, keyFirst: bool, now: nat)
    ensures LogStep(db, StartTx(db, order, key, keyFirst, now).0)
  {
  }

  lemma TransitionLogs(db: Db, p: nat, to: PaymentStatus, charge: Option<nat>)
    ensures LogStep(db, TransitionTx(db, p, to, charge).0)
  {
    var (db', r) := TransitionTx(db, p, to, charge);
    if r == Moved { assert Moves(db, db', p, to); }
  }

  lemma RefundLogs(db: Db, refund: nat, p: nat, sent: nat)
    ensures LogStep(db, RefundSucceededTx(db, refund, p, sent).0)
  {
    var (db', done) := RefundSucceededTx(db, refund, p, sent);
    if done { assert Moves(db, db', p, Refunded); }
  }

  lemma OtherStepLogs(c: Config, s: State, step: Step)
    requires !step.Move?
    ensures LogStep(s.db, Apply(c, s, step).db)
  {
    if !step.Create? && !step.Cancel? { OtherStepIsQuiet(c, s, step); }
  }

  lemma StepKeepsLog(c: Config, s: State, step: Step)
    requires LogOk(s.db)
    ensures LogOk(Apply(c, s, step).db)
  {
    if !step.Move? {
      OtherStepLogs(c, s, step);
    } else if step.fid in s.flights {
      MovePerforms(c, s, step.fid, step.choice);
      match EffectOf(s.flights[step.fid], step.choice)
      case Starts(order, key, keyFirst) => StartLogs(s.db, order, key, keyFirst, s.clock);
      case Transitions(p, to, charge) => TransitionLogs(s.db, p, to, charge);
      case Refunds(r, p, sent) => RefundLogs(s.db, r, p, sent);
      case Quiet =>
    }
    LogStepKeeps(s.db, Apply(c, s, step).db);
  }

  lemma {:induction false} RunKeepsLog(c: Config, s: State, steps: seq<Step>)
    requires LogOk(s.db)
    ensures LogOk(Exec(c, s, steps).db)
  {
    if steps != [] {
      RunKeepsLog(c, s, steps[..|steps| - 1]);
      StepKeepsLog(c, Exec(c, s, steps[..|steps| - 1]), Last(steps));
    }
  }

  /** In every reachable state each payment's events are one allowed chain from creation to its
      current status, whichever writer made each change; so a payment has at most three events. */
  lemma EventLogIsFaithful(c: Config, s: State, p: nat)
    requires Reachable(c, s) && p < |s.db.payments|
    ensures var log := EventsOf(s.db.events, p);
      && 1 <= |log| <= 3
      && log[0].from == None && log[0].to == Pending && Last(log).to == s.db.payments[p].status
      && (forall i | 0 < i < |log| ::
            log[i].from == Some(log[i - 1].to) && CanTransitionPayment(log[i - 1].to, log[i].to))
  {
    var products: map<int, Product>, steps :|
      (forall q | q in products :: products[q].stock >= 0) && s == Exec(c, Init(products), steps);
    RunKeepsLog(c, Init(products), steps);
    var log := EventsOf(s.db.events, p);
    assert Chain(log, s.db.payments[p].status);
    var path := seq(|log|, i requires 0 <= i < |log| => log[i].to);
    PaymentPathsAreShort(path, Pending, s.db.payments[p].status);
  }
}
