/** PaymentService.Pay as it is written, with the rest of the system acting between any two of its
    statements. Every execution is a run of the protocol. */
module PayService {
  import opened Domain
  import opened Tables
  import opened Payments
  import opened Protocol
  import opened Invariant
  import opened Preservation
  import opened Runs
  import opened PaymentTheorems
  import opened Deployment
  import opened PayAnswers

  /** The call itself goes statement by statement to its end, and stops early only if a statement fails. */
  ghost predicate Uninterrupted(steps: seq<Step>, fid: nat, fails: bool) {
    forall i | 0 <= i < |steps| :: Continues(steps[i], fid, fails)
  }

  predicate Continues(step: Step, fid: nat, fails: bool) {
    (step.Crash? || step.StatementFails?) && step.fid == fid ==> fails
  }

  /** What the others do between Pay's statements, and the environment's choices for Pay itself. */
  datatype Weather = Weather(beforeLookup: seq<Step>, lookup: Write, beforeStart: seq<Step>, start: Write,
                             beforeSecondLookup: seq<Step>, secondLookup: Write, beforeCharge: seq<Step>,
                             beforeRecord: seq<Step>, record: Write, choice: Choice)

  predicate GoodWeather(w: Weather, fid: nat) {
    && AllForeign(w.beforeLookup, fid) && AllForeign(w.beforeStart, fid) && AllForeign(w.beforeSecondLookup, fid)
    && AllForeign(w.beforeCharge, fid) && AllForeign(w.beforeRecord, fid)
  }

  predicate SomeWriteFails(w: Weather) {
    w.lookup != Works || w.start != Works || w.secondLookup != Works || w.record != Works
  }

  /** What a caller may rely on: an answer with a charge is a recorded success under this key; a decline is the
      provider's, recorded or not; a charge that is not recorded was made, and either its payment had been
      moved already or the database failed. */
  ghost predicate ResultOk(s: State, key: string, r: PayResult) {
    var p := FindPayment(s.db.payments, key);
    && (r.PaidWith? ==>
          && p.Some? && (s.db.payments[p.value].status == Succeeded || s.db.payments[p.value].status == Refunded)
          && r.charge.Some? && s.db.payments[p.value].charge == r.charge && TookMoney(s.journal, key))
    && (r.PayDeclined? ==> FindCharge(s.journal.charges, key).Some? && !TookMoney(s.journal, key))
    && (r.AlreadyFinished? ==> p.Some? && s.db.payments[p.value].status == r.status && IsTerminal(r.status))
    && (r.NotRecorded? ==> p.Some? && TookMoney(s.journal, key))
    && (r.NotRecorded? && r.why.RecordRefused? ==> r.why.error.IllegalMove? && s.db.payments[p.value].status != Pending)
  }

  /** An answer that blames the database comes only from a statement that failed. */
  predicate Blames(r: PayResult) {
    r.StoreError? || r == NotRecorded(DatabaseError)
  }

  lemma UninterruptedAppend(a: seq<Step>, b: seq<Step>, fid: nat, fails: bool)
    requires Uninterrupted(a, fid, fails) && Uninterrupted(b, fid, fails)
    ensures Uninterrupted(a + b, fid, fails)
  {
  }

  lemma ForeignIsUninterrupted(steps: seq<Step>, fid: nat, fails: bool)
    requires AllForeign(steps, fid)
    ensures Uninterrupted(steps, fid, fails)
  {
    forall i | 0 <= i < |steps| ensures Continues(steps[i], fid, fails) { assert Foreign(steps[i], fid); }
  }

  predicate ReadyToCharge(f: Flight, key: string) {
    f.Charging? && f.alive && f.key == key
  }

  predicate AfterStart(f: Flight, order: nat, key: string) {
    f == LookingAgain(order, key) || ReadyToCharge(f, key)
  }

  /** The switch on the status of a payment found by key: only a pending one goes on. */
  method Answer(sys: System, fid: nat, order: nat, key: string, p: nat) returns (r: Option<PayResult>)
    requires fid in sys.flights && p < |sys.db.payments|
    modifies sys`flights
    ensures sys.View() == Resume(old(sys.View()), fid, order, key, p)
    ensures r.None? <==> sys.db.payments[p].status == Pending
    ensures SwitchOn(sys.db.payments[p].status, r)
    ensures Inv(sys.View()) && sys.db.payments[p].key == key && r.Some? ==> ResultOk(sys.View(), key, r.value)
  {
    var row := sys.db.payments[p];
    match row.status {
      case Succeeded => r := Some(PaidWith(row.charge));
      case Failed => r := Some(PayDeclined);
      case Expired => r := Some(AlreadyFinished(Expired));
      case Refunded => r := Some(AlreadyFinished(Refunded));
      case Pending => r := None;
    }
    sys.flights := if row.status == Pending then sys.flights[fid := Charging(order, key, p, row.amount, true)]
                   else sys.flights - {fid};
    if Inv(sys.View()) && row.key == key {
      SnapshotFacts(sys.db.View(), sys.provider.View(), p);
      assert PaymentRow(sys.db.View(), sys.provider.View(), p);
      if row.charge.Some? { FoundCharge(sys.provider.charges, row.charge.value); }
    }
  }

  /** The answer of a charge is right whatever the order. */
  ghost predicate ChargeAnswerFits(c: Config, acts: seq<Act>, fid: nat, key: string, record: Write, r: PayResult) {
    forall order :: AnswerFits(c, acts, fid, order, key, record, r)
  }

  /** The provider's call and the transition that records its answer. */
  method ChargeAndRecord(sys: System, fid: nat, w: Weather) returns (r: PayResult, ghost steps: seq<Step>)
    requires fid in sys.flights && sys.flights[fid].Charging? && sys.flights[fid].alive && GoodWeather(w, fid)
    modifies sys, sys.db, sys.provider
    ensures Stretch(sys.c, old(sys.View()), steps, sys.View()) && Uninterrupted(steps, fid, SomeWriteFails(w))
    ensures fid !in sys.flights && (Blames(r) ==> SomeWriteFails(w))
    ensures ChargeAnswerFits(sys.c, Acts(sys.c, old(sys.View()), steps, fid), fid, old(sys.flights[fid]).key,
                             w.record, r)
    ensures Inv(old(sys.View())) ==> ResultOk(sys.View(), old(sys.flights[fid]).key, r)
  {
    ghost var s0, key := sys.View(), sys.flights[fid].key;
    var answered;
    answered, steps := CallProvider(sys, fid, w);
    ghost var s1 := sys.View();
    if !answered {
      UnheardFits(sys.c, Acts(sys.c, s0, steps, fid), fid, key, w.record, s1);
      return OutcomeUnknown, steps;
    }
    ghost var more;
    if Inv(s0) { RunKeeps(sys.c, s0, steps); }
    r, more := RecordAnswer(sys, fid, key, w);
    RecordFits(sys.c, s0, steps, s1, more, fid, key, w.record, r);
    UninterruptedAppend(steps, more, fid, SomeWriteFails(w));
    steps := steps + more;
  }

  lemma UnheardFits(c: Config, acts: seq<Act>, fid: nat, key: string, record: Write, s: State)
    requires Charges(acts, fid, key, false, s)
    ensures ChargeAnswerFits(c, acts, fid, key, record, OutcomeUnknown)
  {
    assert acts == [acts[0]];
    forall order ensures AnswerFits(c, acts, fid, order, key, record, OutcomeUnknown) {
      NoReplyJustifies(c, acts[0], fid, order, key, record);
    }
  }

  lemma RecordFits(c: Config, s0: State, steps: seq<Step>, s1: State, more: seq<Step>, fid: nat, key: string,
                   record: Write, r: PayResult)
    requires Stretch(c, s0, steps, s1) && Charges(Acts(c, s0, steps, fid), fid, key, true, s1)
    requires Records(c, Acts(c, s1, more, fid), fid, s1.flights[fid], record, r)
    ensures ChargeAnswerFits(c, Acts(c, s0, steps + more, fid), fid, key, record, r)
    ensures Stretch(c, s0, steps + more, Exec(c, s1, more))
  {
    ActsAppend(c, s0, steps, more, fid);
    ExecAppend(c, s0, steps, more);
    TwoActsFit(c, Acts(c, s0, steps, fid), Acts(c, s1, more, fid), fid, key, record, s1, r);
  }

  lemma TwoActsFit(c: Config, x: seq<Act>, y: seq<Act>, fid: nat, key: string, record: Write, s: State, r: PayResult)
    requires Charges(x, fid, key, true, s) && Records(c, y, fid, s.flights[fid], record, r)
    ensures ChargeAnswerFits(c, x + y, fid, key, record, r)
  {
    assert x + y == [x[0], y[0]];
    forall order ensures AnswerFits(c, x + y, fid, order, key, record, r) {
      RecordJustifies(c, x[0], y[0], fid, order, key, record, r);
    }
  }

  /** The one statement of a charge: answered exactly if it is heard, and the answer is the provider's. */
  ghost predicate Charges(acts: seq<Act>, fid: nat, key: string, answered: bool, s: State) {
    && |acts| == 1 && acts[0].step.Move? && fid in acts[0].at.flights && acts[0].at.flights[fid].Charging?
    && (answered <==> IsHeard(acts[0]))
    && (answered ==> fid in s.flights && s.flights[fid].Recording?
                     && (s.flights[fid].to == Succeeded <==> Approves(acts[0].at.journal, key, acts[0].step.choice)))
  }

  /** The charge request; an error means the outcome is unknown and the payment stays pending. */
  method CallProvider(sys: System, fid: nat, w: Weather) returns (answered: bool, ghost steps: seq<Step>)
    requires fid in sys.flights && sys.flights[fid].Charging? && sys.flights[fid].alive && GoodWeather(w, fid)
    modifies sys, sys.db, sys.provider
    ensures Stretch(sys.c, old(sys.View()), steps, sys.View()) && Uninterrupted(steps, fid, SomeWriteFails(w))
    ensures !answered ==> fid !in sys.flights
    ensures answered ==> fid in sys.flights && RecordingFor(sys.View(), fid, old(sys.flights[fid]).payment)
    ensures Charges(Acts(sys.c, old(sys.View()), steps, fid), fid, old(sys.flights[fid]).key, answered, sys.View())
    ensures Inv(old(sys.View())) && answered ==>
              HasKey(sys.View(), old(sys.flights[fid]).payment, old(sys.flights[fid]).key)
  {
    ghost var s0 := sys.View();
    var f := sys.flights[fid];
    sys.Meanwhile(w.beforeCharge);
    ForeignRunKeepsFlight(sys.c, s0, w.beforeCharge, fid);
    ForeignIsUninterrupted(w.beforeCharge, fid, SomeWriteFails(w));
    ghost var s1 := sys.View();
    if Inv(s0) {
      RunKeeps(sys.c, s0, w.beforeCharge);
      assert FlightOk(s1.db, s1.journal, f);
    }
    answered := RequestCharge(sys, fid, w.choice);
    steps := w.beforeCharge + [Move(fid, w.choice)];
    OneAct(sys.c, s0, w.beforeCharge, Move(fid, w.choice), fid);
    ExecThen(sys.c, s0, w.beforeCharge, Move(fid, w.choice));
  }

  method RequestCharge(sys: System, fid: nat, ch: Choice) returns (answered: bool)
    requires fid in sys.flights && sys.flights[fid].Charging? && sys.flights[fid].alive
    modifies sys`flights, sys.provider
    ensures sys.View() == Apply(sys.c, old(sys.View()), Move(fid, ch)) && sys.db.payments == old(sys.db.payments)
    ensures !answered ==> fid !in sys.flights
    ensures answered ==> fid in sys.flights && RecordingFor(sys.View(), fid, old(sys.flights[fid]).payment)
    ensures Charges([Act(old(sys.View()), Move(fid, ch))], fid, old(sys.flights[fid]).key, answered, sys.View())
  {
    var f := sys.flights[fid];
    var reply := sys.provider.Charge(f.key, f.order, f.amount, ch.approve, sys.clock);
    if ch.lost || reply == ChargeUnavailable {
      sys.flights := sys.flights - {fid};
      return false;
    }
    if reply == ChargeDeclined {
      sys.flights := sys.flights[fid := Recording(f.payment, Failed, None)];
    } else {
      sys.flights := sys.flights[fid := Recording(f.payment, Succeeded, Some(reply.charge))];
    }
    answered := true;
  }

  ghost predicate RecordingFor(s: State, fid: nat, p: nat)
    requires fid in s.flights
  {
    var f := s.flights[fid];
    f.Recording? && f.payment == p && ((f.to == Succeeded && f.charge.Some?) || (f.to == Failed && f.charge.None?))
  }

  ghost predicate HasKey(s: State, p: nat, key: string) {
    p < |s.db.payments| && s.db.payments[p].key == key
  }

  /** Transition, and the answer to the caller. */
  method RecordAnswer(sys: System, fid: nat, ghost key: string, w: Weather)
    returns (r: PayResult, ghost steps: seq<Step>)
    requires fid in sys.flights && sys.flights[fid].Recording? && GoodWeather(w, fid)
    requires RecordingFor(sys.View(), fid, sys.flights[fid].payment)
    modifies sys, sys.db, sys.provider
    ensures Stretch(sys.c, old(sys.View()), steps, sys.View()) && Uninterrupted(steps, fid, SomeWriteFails(w))
    ensures fid !in sys.flights && (Blames(r) ==> SomeWriteFails(w))
    ensures Records(sys.c, Acts(sys.c, old(sys.View()), steps, fid), fid, old(sys.flights[fid]), w.record, r)
    ensures Inv(old(sys.View())) && HasKey(old(sys.View()), old(sys.flights[fid]).payment, key) ==>
              ResultOk(sys.View(), key, r)
  {
    ghost var s0 := sys.View();
    ghost var f := sys.flights[fid];
    sys.Meanwhile(w.beforeRecord);
    ForeignRunKeepsFlight(sys.c, s0, w.beforeRecord, fid);
    ForeignIsUninterrupted(w.beforeRecord, fid, SomeWriteFails(w));
    if Inv(s0) && HasKey(s0, f.payment, key) { StillHasKey(sys.c, s0, w.beforeRecord, f.payment, key); }
    ghost var step;
    r, step := Record(sys, fid, key, w);
    ExecThen(sys.c, s0, w.beforeRecord, step);
    steps := w.beforeRecord + [step];
    OneAct(sys.c, s0, w.beforeRecord, step, fid);
  }

  lemma StillHasKey(c: Config, s: State, steps: seq<Step>, p: nat, key: string)
    requires Inv(s) && HasKey(s, p, key)
    ensures Inv(Exec(c, s, steps)) && HasKey(Exec(c, s, steps), p, key)
  {
    RunKeeps(c, s, steps);
    assert PaymentGrows(s.db.payments[p], Exec(c, s, steps).db.payments[p]);
  }

  method Record(sys: System, fid: nat, ghost key: string, w: Weather) returns (r: PayResult, ghost step: Step)
    requires fid in sys.flights && sys.flights[fid].Recording?
    requires RecordingFor(sys.View(), fid, sys.flights[fid].payment)
    modifies sys`flights, sys.db
    ensures sys.View() == Apply(sys.c, old(sys.View()), step) && Continues(step, fid, SomeWriteFails(w))
    ensures fid !in sys.flights && (Blames(r) ==> SomeWriteFails(w)) && !Foreign(step, fid)
    ensures Records(sys.c, [Act(old(sys.View()), step)], fid, old(sys.flights[fid]), w.record, r)
    ensures Inv(old(sys.View())) && HasKey(old(sys.View()), old(sys.flights[fid]).payment, key) ==>
              ResultOk(sys.View(), key, r)
  {
    if w.record != Fails {
      r := RecordNow(sys, fid, key, w.choice, w.record);
      return r, Move(fid, w.choice);
    }
    ghost var s := sys.View();
    var f := sys.flights[fid];
    step := Abandon(sys, fid);
    r := if f.to == Failed then PayDeclined else NotRecorded(DatabaseError);
    if Inv(s) && HasKey(s, f.payment, key) { AnswerStands(s, sys.View(), fid, key); }
  }

  method RecordNow(sys: System, fid: nat, ghost key: string, ch: Choice, record: Write) returns (r: PayResult)
    requires fid in sys.flights && sys.flights[fid].Recording? && record != Fails
    requires RecordingFor(sys.View(), fid, sys.flights[fid].payment)
    modifies sys`flights, sys.db
    ensures sys.View() == Apply(sys.c, old(sys.View()), Move(fid, ch)) && fid !in sys.flights
    ensures Blames(r) ==> record != Works
    ensures RecordAnswers(sys.c, Act(old(sys.View()), Move(fid, ch)), old(sys.flights[fid]), record, r)
    ensures Inv(old(sys.View())) && HasKey(old(sys.View()), old(sys.flights[fid]).payment, key) ==>
              ResultOk(sys.View(), key, r)
  {
    ghost var s := sys.View();
    var f := sys.flights[fid];
    var moved := RecordMove(sys, fid, ch);
    r := Answered(f.to, moved, f.charge, record == Works);
    MoveAnswers(sys.c, s, fid, ch, record);
    if Inv(s) && HasKey(s, f.payment, key) { Recorded(s, sys.View(), fid, key, ch, sys.c, record == Works); }
  }

  method RecordMove(sys: System, fid: nat, ch: Choice) returns (moved: TransitionResult)
    requires fid in sys.flights && sys.flights[fid].Recording?
    modifies sys`flights, sys.db
    ensures sys.View() == MoveFlight(sys.c, old(sys.View()), fid, ch) && fid !in sys.flights
    ensures var f := old(sys.flights[fid]); moved == TransitionTx(old(sys.View()).db, f.payment, f.to, f.charge).1
  {
    var f := sys.flights[fid];
    moved := sys.db.Transition(f.payment, f.to, f.charge);
    sys.flights := sys.flights - {fid};
  }

  /** A decline is answered whether recorded or not; a success needs Transition to move and be heard. */
  function Answered(to: PaymentStatus, moved: TransitionResult, charge: Option<nat>, heard: bool): PayResult {
    if to == Failed then PayDeclined
    else if moved != Moved then NotRecorded(RecordRefused(moved))
    else if !heard then NotRecorded(DatabaseError)
    else PaidWith(charge)
  }

  /** The one statement of a record, and its answer by what it did to the payment. */
  ghost predicate Records(c: Config, acts: seq<Act>, fid: nat, f: Flight, record: Write, r: PayResult)
    requires f.Recording?
  {
    && |acts| == 1 && fid in acts[0].at.flights && acts[0].at.flights[fid] == f
    && RecordAnswers(c, acts[0], f, record, r)
  }

  lemma MovedIsSeen(c: Config, s: State, fid: nat, ch: Choice)
    requires fid in s.flights && s.flights[fid].Recording?
    requires s.flights[fid].to == Succeeded || s.flights[fid].to == Failed
    ensures var f := s.flights[fid];
      MovesToSucceeded(c, Act(s, Move(fid, ch)), f.payment) <==>
        f.to == Succeeded && TransitionTx(s.db, f.payment, f.to, f.charge).1 == Moved
  {
  }

  lemma MoveAnswers(c: Config, s: State, fid: nat, ch: Choice, record: Write)
    requires fid in s.flights && s.flights[fid].Recording? && record != Fails
    requires s.flights[fid].to == Succeeded || s.flights[fid].to == Failed
    ensures var f := s.flights[fid];
      RecordAnswers(c, Act(s, Move(fid, ch)), f, record,
                    Answered(f.to, TransitionTx(s.db, f.payment, f.to, f.charge).1, f.charge, record == Works))
  {
    MovedIsSeen(c, s, fid, ch);
  }

  /** A statement fails and the call ends. */
  method Abandon(sys: System, fid: nat) returns (ghost step: Step)
    requires fid in sys.flights
    requires var f := sys.flights[fid]; f.Looking? || f.Starting? || f.LookingAgain? || f.Recording?
    modifies sys`flights
    ensures step == StatementFails(fid) && sys.View() == Apply(sys.c, old(sys.View()), step)
    ensures sys.View() == End(old(sys.View()), fid) && fid !in sys.flights
  {
    step := StatementFails(fid);
    sys.flights := sys.flights - {fid};
  }

  lemma AnswerStands(s: State, s': State, fid: nat, key: string)
    requires Inv(s) && fid in s.flights && s.flights[fid].Recording? && RecordingFor(s, fid, s.flights[fid].payment)
    requires HasKey(s, s.flights[fid].payment, key) && s' == End(s, fid)
    ensures ResultOk(s', key, if s.flights[fid].to == Failed then PayDeclined else NotRecorded(DatabaseError))
  {
    var f := s.flights[fid];
    assert FlightOk(s.db, s.journal, f);
    assert PaymentRow(s.db, s.journal, f.payment);
    FoundPayment(s.db.payments, f.payment);
    if f.to == Succeeded { FoundCharge(s.journal.charges, f.charge.value); }
  }

  lemma Recorded(s: State, s': State, fid: nat, key: string, ch: Choice, c: Config, heard: bool)
    requires Inv(s) && fid in s.flights && s.flights[fid].Recording? && RecordingFor(s, fid, s.flights[fid].payment)
    requires HasKey(s, s.flights[fid].payment, key) && s' == MoveFlight(c, s, fid, ch)
    ensures var f := s.flights[fid];
      ResultOk(s', key, Answered(f.to, TransitionTx(s.db, f.payment, f.to, f.charge).1, f.charge, heard))
  {
    var f := s.flights[fid];
    assert FlightOk(s.db, s.journal, f);
    assert PaymentRow(s.db, s.journal, f.payment);
    TransitionKeeps(s.db, s.journal, f.payment, f.to, f.charge);
    FoundPayment(s'.db.payments, f.payment);
    if f.to == Succeeded { FoundCharge(s.journal.charges, f.charge.value); }
  }

  /** StartOrResume: look the key up, else create the payment, else look it up again. The call either
      has an answer already or goes on to charge. */
  method StartOrResume(sys: System, fid: nat, order: nat, key: string, w: Weather)
    returns (r: Option<PayResult>, ghost steps: seq<Step>)
    requires fid in sys.flights && sys.flights[fid] == Looking(order, key) && key != "" && GoodWeather(w, fid)
    modifies sys, sys.db, sys.provider
    ensures Justified(sys.c, Acts(sys.c, old(sys.View()), steps, fid), fid, order, key, w.record, r)
    ensures Stretch(sys.c, old(sys.View()), steps, sys.View()) && Uninterrupted(steps, fid, SomeWriteFails(w))
    ensures r.None? ==> fid in sys.flights && ReadyToCharge(sys.flights[fid], key)
    ensures r.Some? ==> fid !in sys.flights && (Blames(r.value) ==> SomeWriteFails(w))
    ensures Inv(old(sys.View())) && r.Some? ==> ResultOk(sys.View(), key, r.value)
  {
    ghost var s0 := sys.View();
    r, steps := LookUp(sys, fid, order, key, w);
    if r.None? && sys.flights[fid].Starting? {
      if Inv(s0) { RunKeeps(sys.c, s0, steps); }
      ghost var more;
      r, more := StartOrLookAgain(sys, fid, order, key, w);
      AddActs(sys.c, s0, steps, Exec(sys.c, s0, steps), more, fid, order, key, w.record, r);
      UninterruptedAppend(steps, more, fid, SomeWriteFails(w));
      steps := steps + more;
    }
  }

  method LookUp(sys: System, fid: nat, order: nat, key: string, w: Weather)
    returns (r: Option<PayResult>, ghost steps: seq<Step>)
    requires fid in sys.flights && sys.flights[fid] == Looking(order, key) && key != "" && GoodWeather(w, fid)
    modifies sys, sys.db, sys.provider
    ensures Justified(sys.c, Acts(sys.c, old(sys.View()), steps, fid), fid, order, key, w.record, r)
    ensures Stretch(sys.c, old(sys.View()), steps, sys.View()) && Uninterrupted(steps, fid, SomeWriteFails(w))
    ensures r.None? ==>
              fid in sys.flights && (sys.flights[fid] == Starting(order, key) || ReadyToCharge(sys.flights[fid], key))
    ensures r.Some? ==> fid !in sys.flights && (Blames(r.value) ==> SomeWriteFails(w))
    ensures Inv(old(sys.View())) && r.Some? ==> ResultOk(sys.View(), key, r.value)
  {
    ghost var s0 := sys.View();
    sys.Meanwhile(w.beforeLookup);
    ForeignRunKeepsFlight(sys.c, s0, w.beforeLookup, fid);
    ForeignIsUninterrupted(w.beforeLookup, fid, SomeWriteFails(w));
    if Inv(s0) { RunKeeps(sys.c, s0, w.beforeLookup); }
    ghost var step;
    r, step := FindFirst(sys, fid, order, key, w);
    steps := w.beforeLookup + [step];
    OneAct(sys.c, s0, w.beforeLookup, step, fid);
    ExecThen(sys.c, s0, w.beforeLookup, step);
  }

  method FindFirst(sys: System, fid: nat, order: nat, key: string, w: Weather)
    returns (r: Option<PayResult>, ghost step: Step)
    requires fid in sys.flights && sys.flights[fid] == Looking(order, key) && key != ""
    modifies sys`flights
    ensures Justified(sys.c, [Act(old(sys.View()), step)], fid, order, key, w.record, r) && !Foreign(step, fid)
    ensures sys.View() == Apply(sys.c, old(sys.View()), step) && Continues(step, fid, SomeWriteFails(w))
    ensures r.None? ==>
              fid in sys.flights && (sys.flights[fid] == Starting(order, key) || ReadyToCharge(sys.flights[fid], key))
    ensures r.Some? ==> fid !in sys.flights && (Blames(r.value) ==> SomeWriteFails(w))
    ensures Inv(old(sys.View())) && r.Some? ==> ResultOk(sys.View(), key, r.value)
  {
    ghost var s0 := sys.View();
    if w.lookup != Works {
      step := Abandon(sys, fid);
      FailureJustifies(sys.c, Act(s0, step), fid, order, key, w.record);
      return Some(StoreError), step;
    }
    step := Move(fid, w.choice);
    var found := FindPayment(sys.db.payments, key);
    if found.None? {
      sys.flights := sys.flights[fid := Starting(order, key)];
      NotFoundJustifies(sys.c, Act(s0, step), fid, order, key, w.record, None);
      return None, step;
    }
    r := AnswerFound(sys, fid, order, key, found.value, w.choice);
    FoundJustifies(sys.c, Act(s0, step), fid, order, key, w.record, r);
  }

  /** A lookup that finds the key. */
  method AnswerFound(sys: System, fid: nat, order: nat, key: string, p: nat, ch: Choice) returns (r: Option<PayResult>)
    requires fid in sys.flights && key != "" && FindPayment(sys.db.payments, key) == Some(p)
    requires sys.flights[fid] == Looking(order, key) || sys.flights[fid] == LookingAgain(order, key)
    modifies sys`flights
    ensures sys.View() == Apply(sys.c, old(sys.View()), Move(fid, ch))
    ensures SwitchOn(old(sys.db.payments[p].status), r)
    ensures r.None? ==> fid in sys.flights && ReadyToCharge(sys.flights[fid], key)
    ensures r.Some? ==> fid !in sys.flights && !Blames(r.value)
    ensures Inv(old(sys.View())) && r.Some? ==> ResultOk(sys.View(), key, r.value)
  {
    if Inv(sys.View()) { ResumeKeeps(sys.View(), fid, order, key, p); }
    r := Answer(sys, fid, order, key, p);
  }

  method StartOrLookAgain(sys: System, fid: nat, order: nat, key: string, w: Weather)
    returns (r: Option<PayResult>, ghost steps: seq<Step>)
    requires fid in sys.flights && sys.flights[fid] == Starting(order, key) && key != "" && GoodWeather(w, fid)
    modifies sys, sys.db, sys.provider
    ensures Justified(sys.c, Acts(sys.c, old(sys.View()), steps, fid), fid, order, key, w.record, r)
    ensures Stretch(sys.c, old(sys.View()), steps, sys.View()) && Uninterrupted(steps, fid, SomeWriteFails(w))
    ensures r.None? ==> fid in sys.flights && ReadyToCharge(sys.flights[fid], key)
    ensures r.Some? ==> fid !in sys.flights && (Blames(r.value) ==> SomeWriteFails(w))
    ensures Inv(old(sys.View())) && r.Some? ==> ResultOk(sys.View(), key, r.value)
  {
    ghost var s0 := sys.View();
    r, steps := Start(sys, fid, order, key, w);
    if r.None? && sys.flights[fid].LookingAgain? {
      if Inv(s0) { RunKeeps(sys.c, s0, steps); }
      ghost var more;
      r, more := LookUpAgain(sys, fid, order, key, w);
      AddActs(sys.c, s0, steps, Exec(sys.c, s0, steps), more, fid, order, key, w.record, r);
      UninterruptedAppend(steps, more, fid, SomeWriteFails(w));
      steps := steps + more;
    }
  }

  /** `start`, and the switch on its error: a taken key leads to a second lookup. */
  method Start(sys: System, fid: nat, order: nat, key: string, w: Weather)
    returns (r: Option<PayResult>, ghost steps: seq<Step>)
    requires fid in sys.flights && sys.flights[fid] == Starting(order, key) && GoodWeather(w, fid)
    modifies sys, sys.db, sys.provider
    ensures Justified(sys.c, Acts(sys.c, old(sys.View()), steps, fid), fid, order, key, w.record, r)
    ensures Stretch(sys.c, old(sys.View()), steps, sys.View()) && Uninterrupted(steps, fid, SomeWriteFails(w))
    ensures r.None? ==> fid in sys.flights && AfterStart(sys.flights[fid], order, key)
    ensures r.Some? ==> fid !in sys.flights && (r.value.NotStarted? || r.value.StoreError?)
    ensures r.Some? ==> Blames(r.value) ==> SomeWriteFails(w)
  {
    ghost var s0 := sys.View();
    sys.Meanwhile(w.beforeStart);
    ForeignRunKeepsFlight(sys.c, s0, w.beforeStart, fid);
    ForeignIsUninterrupted(w.beforeStart, fid, SomeWriteFails(w));
    ghost var more;
    r, more := StartNow(sys, fid, order, key, w);
    OthersDoNotAct(sys.c, s0, w.beforeStart, fid);
    NothingMet(sys.c, fid, order, key);
    AddActs(sys.c, s0, w.beforeStart, Exec(sys.c, s0, w.beforeStart), more, fid, order, key, w.record, r);
    UninterruptedAppend(w.beforeStart, more, fid, SomeWriteFails(w));
    steps := w.beforeStart + more;
  }

  method StartNow(sys: System, fid: nat, order: nat, key: string, w: Weather)
    returns (r: Option<PayResult>, ghost steps: seq<Step>)
    requires fid in sys.flights && sys.flights[fid] == Starting(order, key)
    modifies sys`flights, sys.db
    ensures Justified(sys.c, Acts(sys.c, old(sys.View()), steps, fid), fid, order, key, w.record, r)
    ensures Stretch(sys.c, old(sys.View()), steps, sys.View()) && Uninterrupted(steps, fid, SomeWriteFails(w))
    ensures r.None? ==> fid in sys.flights && AfterStart(sys.flights[fid], order, key)
    ensures r.Some? ==> fid !in sys.flights && (r.value.NotStarted? || r.value.StoreError?)
    ensures r.Some? ==> Blames(r.value) ==> SomeWriteFails(w)
  {
    ghost var s0 := sys.View();
    ghost var step := Move(fid, w.choice);
    if w.start == Fails {
      step := Abandon(sys, fid);
      r := Some(StoreError);
      FailureJustifies(sys.c, Act(s0, step), fid, order, key, w.record);
    } else {
      r := MakePayment(sys, fid, order, key, w.choice);
      StartJustifies(sys.c, Act(s0, step), fid, order, key, w.record, r);
    }
    steps := [step];
    OneAct(sys.c, s0, [], step, fid);
    ExecThen(sys.c, s0, [], step);
    assert [] + [step] == steps;
    if w.start == CommitsUnheard && r.None? && sys.flights[fid].Charging? {
      ghost var s1 := sys.View();
      ghost var more := StartUnheard(sys, fid);
      FailureJustifies(sys.c, Act(s1, Crash(fid, false)), fid, order, key, w.record);
      r := Some(StoreError);
      JustifiedLater(sys.c, [Act(s0, step)], [Act(s1, Crash(fid, false))], fid, order, key, w.record, r);
      ActsAppend(sys.c, s0, steps, more, fid);
      ExecAppend(sys.c, s0, steps, more);
      steps := steps + more;
    }
  }

  method MakePayment(sys: System, fid: nat, order: nat, key: string, ch: Choice) returns (r: Option<PayResult>)
    requires fid in sys.flights && sys.flights[fid] == Starting(order, key)
    modifies sys`flights, sys.db
    ensures sys.View() == Apply(sys.c, old(sys.View()), Move(fid, ch))
    ensures r.None? ==> fid in sys.flights && AfterStart(sys.flights[fid], order, key)
    ensures r.Some? ==> fid !in sys.flights && r.value.NotStarted?
    ensures var started := StartTx(old(sys.View()).db, order, key, ch.keyFirst, old(sys.clock)).1;
      r == if started.Started? || started.KeyTaken? then None else Some(NotStarted(started))
  {
    var started := sys.db.Start(order, key, ch.keyFirst, sys.clock);
    match started {
      case Started(p) =>
        sys.flights := sys.flights[fid := Charging(order, key, p, sys.db.payments[p].amount, true)];
        r := None;
      case KeyTaken =>
        sys.flights := sys.flights[fid := LookingAgain(order, key)];
        r := None;
      case _ =>
        sys.flights := sys.flights - {fid};
        r := Some(NotStarted(started));
    }
  }

  /** The payment is created, but the caller does not hear of it and gives up. */
  method StartUnheard(sys: System, fid: nat) returns (ghost steps: seq<Step>)
    requires fid in sys.flights && sys.flights[fid].Charging?
    modifies sys`flights
    ensures steps == [Crash(fid, false)] && Stretch(sys.c, old(sys.View()), steps, sys.View())
    ensures Acts(sys.c, old(sys.View()), steps, fid) == [Act(old(sys.View()), Crash(fid, false))]
    ensures fid !in sys.flights
  {
    steps := [Crash(fid, false)];
    OneAct(sys.c, sys.View(), [], Crash(fid, false), fid);
    ExecThen(sys.c, sys.View(), [], Crash(fid, false));
    assert [] + [Crash(fid, false)] == steps;
    sys.flights := sys.flights - {fid};
  }

  method LookUpAgain(sys: System, fid: nat, order: nat, key: string, w: Weather)
    returns (r: Option<PayResult>, ghost steps: seq<Step>)
    requires fid in sys.flights && sys.flights[fid] == LookingAgain(order, key) && key != "" && GoodWeather(w, fid)
    modifies sys, sys.db, sys.provider
    ensures Justified(sys.c, Acts(sys.c, old(sys.View()), steps, fid), fid, order, key, w.record, r)
    ensures Stretch(sys.c, old(sys.View()), steps, sys.View()) && Uninterrupted(steps, fid, SomeWriteFails(w))
    ensures r.None? ==> fid in sys.flights && ReadyToCharge(sys.flights[fid], key)
    ensures r.Some? ==> fid !in sys.flights && (Blames(r.value) ==> SomeWriteFails(w))
    ensures Inv(old(sys.View())) && r.Some? ==> ResultOk(sys.View(), key, r.value)
  {
    ghost var s0 := sys.View();
    sys.Meanwhile(w.beforeSecondLookup);
    ForeignRunKeepsFlight(sys.c, s0, w.beforeSecondLookup, fid);
    ForeignIsUninterrupted(w.beforeSecondLookup, fid, SomeWriteFails(w));
    if Inv(s0) { RunKeeps(sys.c, s0, w.beforeSecondLookup); }
    ghost var step;
    r, step := FindAgain(sys, fid, order, key, w);
    steps := w.beforeSecondLookup + [step];
    OneAct(sys.c, s0, w.beforeSecondLookup, step, fid);
    ExecThen(sys.c, s0, w.beforeSecondLookup, step);
  }

  method FindAgain(sys: System, fid: nat, order: nat, key: string, w: Weather)
    returns (r: Option<PayResult>, ghost step: Step)
    requires fid in sys.flights && sys.flights[fid] == LookingAgain(order, key) && key != ""
    modifies sys`flights
    ensures Justified(sys.c, [Act(old(sys.View()), step)], fid, order, key, w.record, r) && !Foreign(step, fid)
    ensures sys.View() == Apply(sys.c, old(sys.View()), step) && Continues(step, fid, SomeWriteFails(w))
    ensures r.None? ==> fid in sys.flights && ReadyToCharge(sys.flights[fid], key)
    ensures r.Some? ==> fid !in sys.flights && (Blames(r.value) ==> SomeWriteFails(w))
    ensures Inv(old(sys.View())) && r.Some? ==> ResultOk(sys.View(), key, r.value)
  {
    ghost var s0 := sys.View();
    if w.secondLookup != Works {
      step := Abandon(sys, fid);
      FailureJustifies(sys.c, Act(s0, step), fid, order, key, w.record);
      return Some(StoreError), step;
    }
    step := Move(fid, w.choice);
    var found := FindPayment(sys.db.payments, key);
    if found.None? {
      sys.flights := sys.flights - {fid};
      NotFoundJustifies(sys.c, Act(s0, step), fid, order, key, w.record, Some(NotStarted(KeyTaken)));
      return Some(NotStarted(KeyTaken)), step;
    }
    r := AnswerFound(sys, fid, order, key, found.value, w.choice);
    FoundJustifies(sys.c, Act(s0, step), fid, order, key, w.record, r);
  }

  /** PaymentService.Pay behind its handler. Whatever the others do between its statements, the whole
      execution is a run of the protocol in which this call goes through all its statements to the
      end; each answer is given exactly if the statements met what it says, and can be relied on. */
  method PayOrder(sys: System, fid: nat, order: nat, key: string, w: Weather)
    returns (r: PayResult, ghost steps: seq<Step>)
    requires fid !in sys.flights && GoodWeather(w, fid)
    modifies sys, sys.db, sys.provider
    ensures Stretch(sys.c, old(sys.View()), steps, sys.View()) && Uninterrupted(steps, fid, SomeWriteFails(w))
    ensures key != "" ==> Step.Pay(fid, order, key) in steps
    ensures if key == "" then r == BadRequest && steps == []
            else AnswerFits(sys.c, Acts(sys.c, old(sys.View()), steps, fid), fid, order, key, w.record, r)
    ensures fid !in sys.flights && (Blames(r) ==> SomeWriteFails(w))
    ensures Inv(old(sys.View())) ==> Inv(sys.View()) && ResultOk(sys.View(), key, r)
  {
    steps := [];
    if key == "" { return BadRequest, steps; }
    ghost var s0 := sys.View();
    Arrive(sys, fid, order, key);
    steps := [Step.Pay(fid, order, key)];
    var answer;
    ghost var more;
    ghost var s1 := sys.View();
    answer, more := StartOrResume(sys, fid, order, key, w);
    AddActs(sys.c, s0, steps, s1, more, fid, order, key, w.record, answer);
    steps := steps + more;
    if Inv(s0) { RunKeeps(sys.c, s1, more); }
    if answer.Some? {
      return answer.value, steps;
    }
    ghost var s2 := sys.View();
    r, more := ChargeAndRecord(sys, fid, w);
    AddActs(sys.c, s0, steps, s2, more, fid, order, key, w.record, Some(r));
    steps := steps + more;
    if Inv(s0) { RunKeeps(sys.c, s2, more); }
  }

  /** A further stretch of the call. */
  lemma AddActs(c: Config, s0: State, steps: seq<Step>, s1: State, more: seq<Step>, fid: nat, order: nat, key: string,
                record: Write, r: Option<PayResult>)
    requires Stretch(c, s0, steps, s1) && GoesOn(c, Acts(c, s0, steps, fid), fid, order, key)
    requires Justified(c, Acts(c, s1, more, fid), fid, order, key, record, r)
    ensures Justified(c, Acts(c, s0, steps + more, fid), fid, order, key, record, r)
    ensures Stretch(c, s0, steps + more, Exec(c, s1, more))
  {
    ActsAppend(c, s0, steps, more, fid);
    ExecAppend(c, s0, steps, more);
    JustifiedLater(c, Acts(c, s0, steps, fid), Acts(c, s1, more, fid), fid, order, key, record, r);
  }

  method Arrive(sys: System, fid: nat, order: nat, key: string)
    requires fid !in sys.flights && key != ""
    modifies sys`flights
    ensures fid in sys.flights && sys.flights[fid] == Looking(order, key)
    ensures Stretch(sys.c, old(sys.View()), [Step.Pay(fid, order, key)], sys.View())
    ensures GoesOn(sys.c, Acts(sys.c, old(sys.View()), [Step.Pay(fid, order, key)], fid), fid, order, key)
    ensures Inv(old(sys.View())) ==> Inv(sys.View())
  {
    ghost var s0 := sys.View();
    sys.flights := sys.flights[fid := Looking(order, key)];
    ExecThen(sys.c, s0, [], Step.Pay(fid, order, key));
    OneAct(sys.c, s0, [], Step.Pay(fid, order, key), fid);
    assert [] + [Step.Pay(fid, order, key)] == [Step.Pay(fid, order, key)];
    if Inv(s0) { StepKeeps(sys.c, s0, Step.Pay(fid, order, key)); }
  }
}
