/** reconciliation.Job.Run as it is written: list, read, then fix key by key, with the rest of the system acting
    between any two of its statements. Every execution is a run of the protocol. */
module JobRun {
  import opened Domain
  import opened Tables
  import opened Payments
  import opened Reconciliation
  import opened Protocol
  import opened Invariant
  import opened Runs
  import opened JobSpec
  import opened Job
  import opened JobTheorems
  import opened Store
  import opened Deployment

  /** The environment of one key: what others do before its fix and between the two statements of a refund fix,
      and how these statements go. */
  datatype Turn = Turn(before: seq<Step>, between: seq<Step>, weather: FixWeather)

  const CALM := Turn([], [], FAIR)

  datatype Weather = Weather(beforeRead: seq<Step>, turns: map<string, Turn>)

  function TurnOf(w: Weather, key: string): Turn {
    if key in w.turns then w.turns[key] else CALM
  }

  /** Nobody else is at work and no statement fails. */
  predicate Quiet(w: Weather) {
    w.beforeRead == [] && forall k | k in w.turns :: w.turns[k] == CALM
  }

  predicate TurnBelow(t: Turn, base: nat) {
    Below(t.before, base) && Below(t.between, base)
  }

  predicate WeatherBelow(w: Weather, base: nat) {
    Below(w.beforeRead, base) && forall k | k in w.turns :: TurnBelow(w.turns[k], base)
  }

  // ----- the job's own calls, one for every listed charge

  function CallOf(s: State, g: nat): Option<Flight> {
    if g in s.flights then Some(s.flights[g]) else None
  }

  /** The job's own calls have ids from `base` upwards. */
  ghost predicate SameOwn(s: State, s': State, base: nat) {
    forall g | g >= base :: CallOf(s', g) == CallOf(s, g)
  }

  lemma OthersKeepOwn(c: Config, s: State, steps: seq<Step>, base: nat)
    requires Below(steps, base)
    ensures SameOwn(s, Exec(c, s, steps), base)
  {
    forall g | g >= base ensures CallOf(Exec(c, s, steps), g) == CallOf(s, g) {
      BelowIsForeign(steps, base, g);
      ForeignRunKeepsFlight(c, s, steps, g);
    }
  }

  /** Nothing but calls in progress differs. */
  predicate SameWorld(s: State, s': State) {
    s'.db == s.db && s'.journal == s.journal && s'.clock == s.clock
  }

  predicate Dated(w: Window, t: nat)
    requires t < |w.j.charges|
  {
    w.from - w.margin <= w.j.charges[t].at < w.to + w.margin
  }

  /** A charge the list shows under a key. */
  predicate Shown(w: Window, t: nat) {
    t < |w.j.charges| && w.j.charges[t].key != "" && Dated(w, t)
  }

  predicate WantsFix(db: Db, w: Window, keys: set<string>, t: nat) {
    Shown(w, t) && w.j.charges[t].key in keys && IsFix(FindingOf(db, w, w.j.charges[t].key).action)
  }

  function AskCall(w: Window, t: nat): Flight
    requires t < |w.j.charges|
  {
    Matching(w.j.charges[t].key, Some(TheirsOf(w.j, t)))
  }

  function FixCall(db: Db, w: Window, key: string): Flight
    requires IsFix(FindingOf(db, w, key).action)
  {
    Fixing(OursIn(db, w, key).value, TheirsIn(w, key).value, FindingOf(db, w, key).action)
  }

  /** The call for charge t when the list has been made. */
  function AskedCall(w: Window, t: nat): Option<Flight> {
    if Shown(w, t) then Some(AskCall(w, t)) else None
  }

  /** The call for charge t when our payments have been read and the keys in `todo` are still to come. */
  function AwaitedCall(db: Db, w: Window, todo: set<string>, t: nat): Option<Flight> {
    if WantsFix(db, w, todo, t) then Some(FixCall(db, w, w.j.charges[t].key)) else None
  }

  ghost predicate ListedTo(s: State, w: Window, base: nat, n: nat) {
    forall g | g >= base :: CallOf(s, g) == if g < base + n then AskedCall(w, g - base) else None
  }

  ghost predicate ReadTo(s: State, db: Db, w: Window, base: nat, keys: set<string>, n: nat) {
    forall g | g >= base ::
      CallOf(s, g) == if g < base + n then AwaitedCall(db, w, keys, g - base) else AskedCall(w, g - base)
  }

  ghost predicate Awaits(s: State, db: Db, w: Window, base: nat, todo: set<string>) {
    forall g | g >= base :: CallOf(s, g) == AwaitedCall(db, w, todo, g - base)
  }

  const GO := Choice(false, false, false, 0)

  /** The list, told as one step for every entry. */
  function Asks(base: nat, list: seq<Entry>): seq<Step> {
    seq(|list|, i requires 0 <= i < |list| => AskStep(base, list[i].theirs))
  }

  function AskStep(base: nat, t: Theirs): Step {
    Step.ListCharges(base + t.charge, t.key)
  }

  /** The read of our payments, told the same way: an entry of no key of the period is dropped. */
  function Reads(base: nat, list: seq<Entry>, keys: set<string>): seq<Step> {
    seq(|list|, i requires 0 <= i < |list| => ReadStep(base, list[i].theirs, keys))
  }

  function ReadStep(base: nat, t: Theirs, keys: set<string>): Step {
    if t.key in keys then Move(base + t.charge, GO) else Crash(base + t.charge, false)
  }

  function ListedIn(w: Window, n: nat): seq<Entry>
    requires n <= |w.j.charges|
  {
    Listed(w.j, w.from - w.margin, w.to + w.margin, n)
  }

  lemma AsksNext(w: Window, base: nat, t: nat)
    requires t < |w.j.charges|
    ensures Asks(base, ListedIn(w, t + 1)) == Asks(base, ListedIn(w, t)) +
      if Dated(w, t) then [AskStep(base, TheirsOf(w.j, t))] else []
  {
  }

  lemma ReadsNext(w: Window, base: nat, keys: set<string>, t: nat)
    requires t < |w.j.charges|
    ensures Reads(base, ListedIn(w, t + 1), keys) == Reads(base, ListedIn(w, t), keys) +
      if Dated(w, t) then [ReadStep(base, TheirsOf(w.j, t), keys)] else []
  {
  }

  lemma AskOne(c: Config, s: State, w: Window, base: nat, t: nat)
    requires w.j == s.journal && UniqueCharges(w.j.charges) && !w.j.down && t < |w.j.charges|
    requires base + t !in s.flights
    ensures var s' := Apply(c, s, AskStep(base, TheirsOf(w.j, t)));
      s' == if w.j.charges[t].key == "" then s else Put(s, base + t, AskCall(w, t))
  {
    if w.j.charges[t].key != "" { FoundCharge(w.j.charges, t); }
  }

  lemma AskOneMore(c: Config, s: State, w: Window, base: nat, t: nat)
    requires w.j == s.journal && UniqueCharges(w.j.charges) && !w.j.down && t < |w.j.charges| && Dated(w, t)
    requires ListedTo(s, w, base, t)
    ensures var s' := Apply(c, s, AskStep(base, TheirsOf(w.j, t))); SameWorld(s, s') && ListedTo(s', w, base, t + 1)
  {
    assert CallOf(s, base + t) == None;
    AskOne(c, s, w, base, t);
    var s' := Apply(c, s, AskStep(base, TheirsOf(w.j, t)));
    forall g | g >= base ensures CallOf(s', g) == if g < base + t + 1 then AskedCall(w, g - base) else None {
      assert CallOf(s, g) == if g < base + t then AskedCall(w, g - base) else None;
    }
  }

  /** Listing changes nothing but the job's own calls. */
  lemma {:induction false} AsksRun(c: Config, s: State, w: Window, base: nat, n: nat)
    requires w.j == s.journal && UniqueCharges(w.j.charges) && !w.j.down && n <= |w.j.charges|
    requires forall g | g in s.flights :: g < base
    ensures var s' := Exec(c, s, Asks(base, ListedIn(w, n))); SameWorld(s, s') && ListedTo(s', w, base, n)
  {
    if n > 0 {
      var t := n - 1;
      AsksRun(c, s, w, base, t);
      AsksNext(w, base, t);
      var s1 := Exec(c, s, Asks(base, ListedIn(w, t)));
      if Dated(w, t) {
        ExecThen(c, s, Asks(base, ListedIn(w, t)), AskStep(base, TheirsOf(w.j, t)));
        AskOneMore(c, s1, w, base, t);
      } else {
        assert Asks(base, ListedIn(w, n)) == Asks(base, ListedIn(w, t));
        NotAsked(s1, w, base, t);
      }
    }
  }

  lemma NotAsked(s: State, w: Window, base: nat, t: nat)
    requires ListedTo(s, w, base, t) && !Shown(w, t)
    ensures ListedTo(s, w, base, t + 1)
  {
  }

  // ----- reading

  /** A key of the run is looked up by itself. */
  lemma KeyLookups(db: Db, w: Window, t: nat)
    requires UniquePaymentKeys(db.payments) && UniqueCharges(w.j.charges) && Shown(w, t)
    requires w.j.charges[t].key in Keys(db, w)
    ensures var key := w.j.charges[t].key;
      OursIn(db, w, key) == OursFor(db, key) && TheirsIn(w, key) == Some(TheirsOf(w.j, t))
  {
    var key := w.j.charges[t].key;
    FoundCharge(w.j.charges, t);
    if key !in ProviderKeys(w) {
      var i :| 0 <= i < |db.payments| && InScope(db.payments[i], w) && db.payments[i].key == key;
      FoundPayment(db.payments, i);
    }
  }

  /** What the step for charge t makes of its call. */
  ghost predicate ReadAs(s: State, s': State, fid: nat, f: Option<Flight>) {
    s' == if f.Some? then Put(s, fid, f.value) else End(s, fid)
  }

  lemma MatchingMoves(c: Config, s: State, fid: nat)
    requires fid in s.flights && s.flights[fid].Matching?
    ensures Apply(c, s, Move(fid, GO)) == MoveMatch(s, fid, s.flights[fid])
  {
  }

  lemma ReadWanted(c: Config, s: State, w: Window, base: nat, keys: set<string>, t: nat)
    requires UniquePaymentKeys(s.db.payments) && UniqueCharges(w.j.charges) && Shown(w, t) && keys == Keys(s.db, w)
    requires CallOf(s, base + t) == Some(AskCall(w, t)) && w.j.charges[t].key in keys
    ensures ReadAs(s, Apply(c, s, Move(base + t, GO)), base + t, AwaitedCall(s.db, w, keys, t))
  {
    KeyLookups(s.db, w, t);
    MatchingMoves(c, s, base + t);
  }

  lemma ReadOne(c: Config, s: State, w: Window, base: nat, keys: set<string>, t: nat)
    requires UniquePaymentKeys(s.db.payments) && UniqueCharges(w.j.charges) && keys == Keys(s.db, w)
    requires t < |w.j.charges| && CallOf(s, base + t) == AskedCall(w, t) && Dated(w, t)
    ensures ReadAs(s, Apply(c, s, ReadStep(base, TheirsOf(w.j, t), keys)), base + t, AwaitedCall(s.db, w, keys, t))
  {
    if w.j.charges[t].key in keys && Shown(w, t) {
      ReadWanted(c, s, w, base, keys, t);
    } else {
      Unread(c, s, ReadStep(base, TheirsOf(w.j, t), keys));
    }
  }

  lemma Unread(c: Config, s: State, step: Step)
    requires (step.Move? && step.fid !in s.flights) || (step.Crash? && !step.sent)
    ensures Apply(c, s, step) == End(s, step.fid)
  {
    if step.fid !in s.flights { assert s.flights - {step.fid} == s.flights; }
  }

  lemma ReadOneMore(c: Config, s: State, w: Window, base: nat, keys: set<string>, t: nat)
    requires UniquePaymentKeys(s.db.payments) && UniqueCharges(w.j.charges) && keys == Keys(s.db, w)
    requires t < |w.j.charges| && Dated(w, t) && ReadTo(s, s.db, w, base, keys, t)
    ensures var s' := Apply(c, s, ReadStep(base, TheirsOf(w.j, t), keys));
      SameWorld(s, s') && ReadTo(s', s.db, w, base, keys, t + 1)
  {
    assert CallOf(s, base + t) == AskedCall(w, t);
    ReadOne(c, s, w, base, keys, t);
    Reread(s, Apply(c, s, ReadStep(base, TheirsOf(w.j, t), keys)), w, base, keys, t);
  }

  lemma Reread(s: State, s': State, w: Window, base: nat, keys: set<string>, t: nat)
    requires ReadTo(s, s.db, w, base, keys, t) && ReadAs(s, s', base + t, AwaitedCall(s.db, w, keys, t))
    ensures ReadTo(s', s.db, w, base, keys, t + 1)
  {
    forall g | g >= base
      ensures CallOf(s', g) ==
        if g < base + t + 1 then AwaitedCall(s.db, w, keys, g - base) else AskedCall(w, g - base)
    {
      assert CallOf(s, g) == if g < base + t then AwaitedCall(s.db, w, keys, g - base) else AskedCall(w, g - base);
    }
  }

  lemma NotRead(s: State, w: Window, base: nat, keys: set<string>, t: nat)
    requires ReadTo(s, s.db, w, base, keys, t) && !Shown(w, t)
    ensures ReadTo(s, s.db, w, base, keys, t + 1)
  {
  }

  /** Reading changes nothing but the job's own calls either. */
  lemma {:induction false} ReadsRun(c: Config, s: State, w: Window, base: nat, keys: set<string>, n: nat)
    requires UniquePaymentKeys(s.db.payments) && UniqueCharges(w.j.charges) && n <= |w.j.charges|
    requires keys == Keys(s.db, w) && ListedTo(s, w, base, |w.j.charges|)
    ensures var s' := Exec(c, s, Reads(base, ListedIn(w, n), keys));
      SameWorld(s, s') && ReadTo(s', s.db, w, base, keys, n)
  {
    if n > 0 {
      var t := n - 1;
      ReadsRun(c, s, w, base, keys, t);
      ReadsNext(w, base, keys, t);
      var s1 := Exec(c, s, Reads(base, ListedIn(w, t), keys));
      if Dated(w, t) {
        ExecThen(c, s, Reads(base, ListedIn(w, t), keys), ReadStep(base, TheirsOf(w.j, t), keys));
        ReadOneMore(c, s1, w, base, keys, t);
      } else {
        assert Reads(base, ListedIn(w, n), keys) == Reads(base, ListedIn(w, t), keys);
        NotRead(s1, w, base, keys, t);
      }
    }
  }

  lemma AllRead(s: State, db: Db, w: Window, base: nat, keys: set<string>)
    requires ReadTo(s, db, w, base, keys, |w.j.charges|)
    ensures Awaits(s, db, w, base, keys)
  {
  }

  // ----- one key

  /** A stretch that leaves the job's other calls alone and ends this one. */
  ghost predicate Ends(s: State, s': State, base: nat, fid: nat) {
    fid !in s'.flights && forall g | g >= base && g != fid :: CallOf(s', g) == CallOf(s, g)
  }

  lemma EndsAfter(c: Config, s: State, others: seq<Step>, s1: State, s': State, base: nat, fid: nat)
    requires Below(others, base) && s1 == Exec(c, s, others) && Ends(s1, s', base, fid)
    ensures Ends(s, s', base, fid)
  {
    OthersKeepOwn(c, s, others, base);
    forall g | g >= base && g != fid ensures CallOf(s', g) == CallOf(s, g) { assert CallOf(s1, g) == CallOf(s, g); }
  }

  /** The call gives up only if a statement fails or is not heard of. */
  ghost predicate Honest(steps: seq<Step>, base: nat, fid: nat, fw: FixWeather) {
    forall i | 0 <= i < |steps| :: HonestStep(steps[i], base, fid, fw)
  }

  predicate HonestStep(step: Step, base: nat, fid: nat, fw: FixWeather) {
    (step.Crash? || step.StatementFails?) && step.fid >= base ==> step.fid == fid && fw != FAIR
  }

  lemma BelowIsHonest(steps: seq<Step>, base: nat, fid: nat, fw: FixWeather)
    requires Below(steps, base)
    ensures Honest(steps, base, fid, fw)
  {
    forall i | 0 <= i < |steps| ensures HonestStep(steps[i], base, fid, fw) { assert StepBelow(steps[i], base); }
  }

  lemma HonestAppend(a: seq<Step>, b: seq<Step>, base: nat, fid: nat, fw: FixWeather)
    requires Honest(a, base, fid, fw) && Honest(b, base, fid, fw)
    ensures Honest(a + b, base, fid, fw)
  {
  }

  /** The statement a fix begins with: only a transition can fail it. */
  function FirstStep(fid: nat, a: Action, ours: Ours, fw: FixWeather): Step {
    if MovesPayment(a, ours) && fw.move == Fails then StatementFails(fid) else Move(fid, GO)
  }

  /** One transaction of a fix, and whether it is heard to have worked. */
  method Attempt(db: Database, payment: nat, to: PaymentStatus, charge: Option<nat>, w: Write) returns (ok: bool)
    modifies db
    ensures (db.View(), ok) == MoveUnder(old(db.View()), payment, to, charge, w)
  {
    if w == Fails { return false; }
    var r := db.Transition(payment, to, charge);
    ok := r == Moved && w == Works;
  }

  function FixStep(fid: nat, w: Write): Step {
    if w == Fails then StatementFails(fid) else Move(fid, GO)
  }

  predicate PaymentFix(s: State, fid: nat) {
    && fid in s.flights && s.flights[fid].Fixing?
    && (s.flights[fid].action == FixPaymentSucceeded || s.flights[fid].action == FixPaymentFailed)
  }

  lemma FixingMoves(c: Config, s: State, fid: nat)
    requires fid in s.flights && s.flights[fid].Fixing?
    ensures Apply(c, s, Move(fid, GO)) == MoveFix(s, fid, s.flights[fid])
    ensures Apply(c, s, StatementFails(fid)) == End(s, fid)
  {
  }

  lemma PaymentFixStep(c: Config, s: State, fid: nat, w: FixWeather)
    requires PaymentFix(s, fid)
    ensures var f := s.flights[fid];
      Apply(c, s, FixStep(fid, w.move)) == End(s.(db := FixUnder(s.db, f.action, f.ours, f.theirs, w).0), fid)
  {
    FixingMoves(c, s, fid);
  }

  lemma OneStep(c: Config, s: State, step: Step)
    ensures Exec(c, s, [step]) == Apply(c, s, step)
  {
    assert [step][..0] == [];
  }

  /** A fix of a payment is one transaction. */
  method FixPayment(sys: System, fid: nat, w: FixWeather) returns (ok: bool, ghost steps: seq<Step>)
    requires PaymentFix(sys.View(), fid)
    modifies sys`flights, sys.db
    ensures Stretch(sys.c, old(sys.View()), steps, sys.View()) && sys.flights == old(sys.flights) - {fid}
    ensures var f := old(sys.flights[fid]);
      && (sys.db.View(), ok) == FixUnder(old(sys.View()).db, f.action, f.ours, f.theirs, w)
      && steps == [FirstStep(fid, f.action, f.ours, w)]
  {
    var f := sys.flights[fid];
    PaymentFixStep(sys.c, sys.View(), fid, w);
    OneStep(sys.c, sys.View(), FixStep(fid, w.move));
    steps := [FixStep(fid, w.move)];
    if f.action == FixPaymentSucceeded {
      ok := Attempt(sys.db, f.ours.payment, Succeeded, Some(f.theirs.charge), w.move);
    } else {
      ok := Attempt(sys.db, f.ours.payment, Failed, None, w.move);
    }
    sys.flights := sys.flights - {fid};
  }

  predicate RefundFix(s: State, fid: nat) {
    && fid in s.flights && s.flights[fid].Fixing? && s.flights[fid].action == FixRefundSucceeded
    && s.flights[fid].ours.refund.Some?
  }

  /** The first statement of a refund fix, if it makes one. */
  function BeginUnder(db: Db, ours: Ours, w: FixWeather): (Db, bool) {
    if ours.status == Succeeded then MoveUnder(db, ours.payment, Refunded, None, w.move) else (db, true)
  }

  function BeginSteps(fid: nat, ours: Ours, w: FixWeather): seq<Step> {
    if ours.status != Succeeded || w.move == Works then [Move(fid, GO)]
    else if w.move == Fails then [StatementFails(fid)]
    else [Move(fid, GO), Crash(fid, false)]
  }

  lemma BeginRuns(c: Config, s: State, fid: nat, w: FixWeather)
    requires RefundFix(s, fid)
    ensures var f := s.flights[fid]; var (db, go) := BeginUnder(s.db, f.ours, w); var s1 := s.(db := db);
      Exec(c, s, BeginSteps(fid, f.ours, w)) == if go then Put(s1, fid, ClosingRefund(f.ours.refund.value))
                                                else End(s1, fid)
  {
    var f, s1 := s.flights[fid], Apply(c, s, Move(fid, GO));
    FixingMoves(c, s, fid);
    OneStep(c, s, Move(fid, GO));
    OneStep(c, s, StatementFails(fid));
    if f.ours.status == Succeeded && w.move == CommitsUnheard {
      assert [Move(fid, GO)] + [Crash(fid, false)] == BeginSteps(fid, f.ours, w);
      ExecThen(c, s, [Move(fid, GO)], Crash(fid, false));
      Dies(c, s1, fid);
      EndTwice(s, s1, fid);
    }
  }

  lemma Dies(c: Config, s: State, fid: nat)
    ensures Apply(c, s, Crash(fid, false)) == End(s, fid)
  {
    if fid !in s.flights { assert s.flights - {fid} == s.flights; }
  }

  lemma EndTwice(s: State, s1: State, fid: nat)
    requires s1.flights - {fid} == s.flights - {fid} && s1.journal == s.journal && s1.clock == s.clock
    ensures End(s1, fid) == End(s.(db := s1.db), fid)
  {
  }

  method BeginRefundFix(sys: System, fid: nat, w: FixWeather) returns (go: bool, ghost steps: seq<Step>)
    requires RefundFix(sys.View(), fid)
    modifies sys`flights, sys.db
    ensures Stretch(sys.c, old(sys.View()), steps, sys.View())
    ensures var f := old(sys.flights[fid]);
      && (sys.db.View(), go) == BeginUnder(old(sys.View()).db, f.ours, w) && steps == BeginSteps(fid, f.ours, w)
      && sys.flights == if go then old(sys.flights)[fid := ClosingRefund(f.ours.refund.value)]
                        else old(sys.flights) - {fid}
  {
    var f := sys.flights[fid];
    BeginRuns(sys.c, sys.View(), fid, w);
    steps := BeginSteps(fid, f.ours, w);
    go := true;
    if f.ours.status == Succeeded {
      go := Attempt(sys.db, f.ours.payment, Refunded, None, w.move);
    }
    sys.flights := if go then sys.flights[fid := ClosingRefund(f.ours.refund.value)] else sys.flights - {fid};
  }

  lemma CloseStep(c: Config, s: State, fid: nat, w: Write)
    requires fid in s.flights && s.flights[fid].ClosingRefund?
    ensures Apply(c, s, FixStep(fid, w)) == End(s.(db := CloseUnder(s.db, s.flights[fid].refund, w).0), fid)
  {
  }

  /** The update of the refund row. */
  method CloseRefundFix(sys: System, fid: nat, w: Write) returns (ok: bool, ghost steps: seq<Step>)
    requires fid in sys.flights && sys.flights[fid].ClosingRefund?
    modifies sys`flights, sys.db
    ensures Stretch(sys.c, old(sys.View()), steps, sys.View()) && sys.flights == old(sys.flights) - {fid}
    ensures (sys.db.View(), ok) == CloseUnder(old(sys.View()).db, old(sys.flights[fid]).refund, w)
    ensures steps == [FixStep(fid, w)]
  {
    CloseStep(sys.c, sys.View(), fid, w);
    OneStep(sys.c, sys.View(), FixStep(fid, w));
    steps := [FixStep(fid, w)];
    if w != Fails { sys.db.CloseRefund(sys.flights[fid].refund); }
    ok := w == Works;
    sys.flights := sys.flights - {fid};
  }

  /** The update, after whatever others do first. */
  method CloseLater(sys: System, fid: nat, ghost base: nat, turn: Turn) returns (ok: bool, ghost steps: seq<Step>)
    requires fid in sys.flights && sys.flights[fid].ClosingRefund? && fid >= base && TurnBelow(turn, base)
    modifies sys, sys.db, sys.provider
    ensures Stretch(sys.c, old(sys.View()), steps, sys.View()) && Ends(old(sys.View()), sys.View(), base, fid)
    ensures ok == (turn.weather.close == Works) && Honest(steps, base, fid, turn.weather)
    ensures turn.between == [] ==>
              sys.db.View() == CloseUnder(old(sys.View()).db, old(sys.flights[fid]).refund, turn.weather.close).0
  {
    ghost var s1 := sys.View();
    sys.Meanwhile(turn.between);
    OthersKeepOwn(sys.c, s1, turn.between, base);
    assert CallOf(sys.View(), fid) == CallOf(s1, fid);
    ghost var s2 := sys.View();
    ok, steps := CloseRefundFix(sys, fid, turn.weather.close);
    EndsAfter(sys.c, s1, turn.between, s2, sys.View(), base, fid);
    BelowIsHonest(turn.between, base, fid, turn.weather);
    HonestAppend(turn.between, steps, base, fid, turn.weather);
    ExecAppend(sys.c, s1, turn.between, steps);
    steps := turn.between + steps;
  }

  /** A refund fix is one transaction and one update, with others acting in between. */
  method FixRefund(sys: System, fid: nat, ghost base: nat, turn: Turn) returns (ok: bool, ghost steps: seq<Step>)
    requires RefundFix(sys.View(), fid) && fid >= base && TurnBelow(turn, base)
    modifies sys, sys.db, sys.provider
    ensures Stretch(sys.c, old(sys.View()), steps, sys.View()) && Ends(old(sys.View()), sys.View(), base, fid)
    ensures var f := old(sys.flights[fid]);
      var (db, fixed) := FixUnder(old(sys.View()).db, f.action, f.ours, f.theirs, turn.weather);
      && ok == fixed && (turn.between == [] ==> sys.db.View() == db)
      && steps != [] && steps[0] == FirstStep(fid, f.action, f.ours, turn.weather)
    ensures Honest(steps, base, fid, turn.weather)
  {
    ghost var s0 := sys.View();
    ok, steps := BeginRefundFix(sys, fid, turn.weather);
    if ok {
      ghost var more;
      ok, more := CloseLater(sys, fid, base, turn);
      ExecAppend(sys.c, s0, steps, more);
      HonestAppend(steps, more, base, fid, turn.weather);
      steps := steps + more;
    }
  }

  /** Job.fix. */
  method Fix(sys: System, fid: nat, ghost base: nat, turn: Turn) returns (ok: bool, ghost steps: seq<Step>)
    requires PaymentFix(sys.View(), fid) || RefundFix(sys.View(), fid)
    requires fid >= base && TurnBelow(turn, base)
    modifies sys, sys.db, sys.provider
    ensures Stretch(sys.c, old(sys.View()), steps, sys.View()) && Ends(old(sys.View()), sys.View(), base, fid)
    ensures var f := old(sys.flights[fid]);
      var (db, fixed) := FixUnder(old(sys.View()).db, f.action, f.ours, f.theirs, turn.weather);
      && ok == fixed && (turn.between == [] ==> sys.db.View() == db)
      && steps != [] && steps[0] == FirstStep(fid, f.action, f.ours, turn.weather)
    ensures Honest(steps, base, fid, turn.weather)
  {
    if sys.flights[fid].action == FixRefundSucceeded {
      ok, steps := FixRefund(sys, fid, base, turn);
    } else {
      ok, steps := FixPayment(sys, fid, turn.weather);
    }
  }

  /** The call that fixes this key, if its two records want a fix. */
  ghost predicate HasCall(s: State, base: nat, ours: Option<Ours>, theirs: Option<Theirs>) {
    var a := Classify(ours, theirs).action;
    IsFix(a) ==> && ours.Some? && theirs.Some?
                 && CallOf(s, base + theirs.value.charge) == Some(Fixing(ours.value, theirs.value, a))
  }

  /** The job's calls after one key: the key's own is over. */
  ghost predicate OneLess(s: State, s': State, base: nat, ours: Option<Ours>, theirs: Option<Theirs>) {
    if IsFix(Classify(ours, theirs).action) && theirs.Some? then Ends(s, s', base, base + theirs.value.charge)
    else SameOwn(s, s', base)
  }

  lemma FixKinds(s: State, fid: nat, ours: Option<Ours>, theirs: Option<Theirs>)
    requires var f := Classify(ours, theirs);
      && IsFix(f.action) && ours.Some? && theirs.Some?
      && CallOf(s, fid) == Some(Fixing(ours.value, theirs.value, f.action))
    ensures PaymentFix(s, fid) || RefundFix(s, fid)
  {
  }

  /** The steps of one key's turn: the others', then the fix if there is one to make. */
  ghost predicate MakesTurn(steps: seq<Step>, base: nat, ours: Option<Ours>, theirs: Option<Theirs>, turn: Turn) {
    var a := Classify(ours, theirs).action;
    && |turn.before| <= |steps| && steps[..|turn.before|] == turn.before
    && if IsFix(a) && ours.Some? && theirs.Some? then
         var fid := base + theirs.value.charge;
         && Honest(steps, base, fid, turn.weather)
         && |turn.before| < |steps| && steps[|turn.before|] == FirstStep(fid, a, ours.value, turn.weather)
       else steps == turn.before
  }

  /** The body of the loop: classify one key and fix it if that is safe. */
  method TreatKey(sys: System, base: nat, ours: Option<Ours>, theirs: Option<Theirs>, turn: Turn)
    returns (o: Outcome, ghost steps: seq<Step>, ghost at: State)
    requires HasCall(sys.View(), base, ours, theirs) && TurnBelow(turn, base)
    modifies sys, sys.db, sys.provider
    ensures Stretch(sys.c, old(sys.View()), steps, sys.View())
    ensures OneLess(old(sys.View()), sys.View(), base, ours, theirs)
    ensures Stretch(sys.c, old(sys.View()), turn.before, at) && o == TreatUnder(at.db, ours, theirs, turn.weather).1
    ensures turn.between == [] ==> sys.db.View() == TreatUnder(at.db, ours, theirs, turn.weather).0
    ensures MakesTurn(steps, base, ours, theirs, turn)
  {
    ghost var s0 := sys.View();
    sys.Meanwhile(turn.before);
    OthersKeepOwn(sys.c, s0, turn.before, base);
    at := sys.View();
    steps := turn.before;
    var f := Classify(ours, theirs);
    if f.kind == Matched { return Fine, steps, at; }
    if f.action != Manual {
      var fid := base + theirs.value.charge;
      assert CallOf(at, fid) == CallOf(s0, fid);
      FixKinds(at, fid, ours, theirs);
      var fixed;
      ghost var more;
      fixed, more := Fix(sys, fid, base, turn);
      EndsAfter(sys.c, s0, turn.before, at, sys.View(), base, fid);
      BelowIsHonest(turn.before, base, fid, turn.weather);
      HonestAppend(turn.before, more, base, fid, turn.weather);
      ExecAppend(sys.c, s0, steps, more);
      steps := steps + more;
      if fixed { return Fixed, steps, at; }
    }
    o := Left(f.kind);
  }

  // ----- all keys

  /** The moment `n` of the run `turns` from the read is the turn of this key: if it wants a fix, the fix begins. */
  predicate IsTurn(w: Window, db: Db, base: nat, turns: seq<Step>, n: nat, key: string, fw: FixWeather) {
    var ours, theirs, a := OursIn(db, w, key), TheirsIn(w, key), FindingOf(db, w, key).action;
    && n <= |turns|
    && (IsFix(a) ==> && n < |turns| && ours.Some? && theirs.Some?
                     && turns[n] == FirstStep(base + theirs.value.charge, a, ours.value, fw))
  }

  /** How a key read in `s1` came out: as the tables at its turn said. */
  ghost predicate TreatedIn(c: Config, s1: State, turns: seq<Step>, w: Window, base: nat, key: string, fw: FixWeather,
                            o: Outcome)
  {
    exists n: nat :: && IsTurn(w, s1.db, base, turns, n, key, fw)
                     && o == TreatUnder(Exec(c, s1, turns[..n]).db, OursIn(s1.db, w, key), TheirsIn(w, key), fw).1
  }

  ghost predicate AllTreatedIn(c: Config, s1: State, turns: seq<Step>, w: Window, base: nat, weather: Weather,
                               seen: map<string, Outcome>)
  {
    forall k | k in seen :: TreatedIn(c, s1, turns, w, base, k, TurnOf(weather, k).weather, seen[k])
  }

  lemma TreatedStays(c: Config, s1: State, turns: seq<Step>, more: seq<Step>, w: Window, base: nat, key: string,
                     fw: FixWeather, o: Outcome)
    requires TreatedIn(c, s1, turns, w, base, key, fw, o)
    ensures TreatedIn(c, s1, turns + more, w, base, key, fw, o)
  {
    var n: nat :| && IsTurn(w, s1.db, base, turns, n, key, fw)
                  && o == TreatUnder(Exec(c, s1, turns[..n]).db, OursIn(s1.db, w, key), TheirsIn(w, key), fw).1;
    assert (turns + more)[..n] == turns[..n];
    assert IsTurn(w, s1.db, base, turns + more, n, key, fw);
  }

  /** A statement of the job's fails only where the weather of its key says so. */
  ghost predicate Served(turns: seq<Step>, w: Window, base: nat, weather: Weather) {
    forall i | 0 <= i < |turns| :: StepServed(turns[i], w, base, weather)
  }

  predicate StepServed(step: Step, w: Window, base: nat, weather: Weather) {
    (step.Crash? || step.StatementFails?) && step.fid >= base ==>
      step.fid - base < |w.j.charges| && TurnOf(weather, w.j.charges[step.fid - base].key).weather != FAIR
  }

  lemma TurnServed(steps: seq<Step>, db: Db, w: Window, base: nat, weather: Weather, key: string)
    requires MakesTurn(steps, base, OursIn(db, w, key), TheirsIn(w, key), TurnOf(weather, key))
    requires WeatherBelow(weather, base)
    ensures Served(steps, w, base, weather)
  {
    var turn := TurnOf(weather, key);
    forall i | 0 <= i < |steps| ensures StepServed(steps[i], w, base, weather) {
      if i < |turn.before| {
        assert steps[i] == turn.before[i] && StepBelow(turn.before[i], base);
      } else {
        var t := TheirsIn(w, key).value;
        assert HonestStep(steps[i], base, base + t.charge, turn.weather);
        assert w.j.charges[t.charge].key == key;
      }
    }
  }

  lemma AwaitedHasCall(s: State, db: Db, w: Window, base: nat, todo: set<string>, key: string)
    requires Awaits(s, db, w, base, todo) && key in todo
    ensures HasCall(s, base, OursIn(db, w, key), TheirsIn(w, key))
  {
    if IsFix(FindingOf(db, w, key).action) {
      var t := FindCharge(w.j.charges, key).value;
      assert CallOf(s, base + t) == AwaitedCall(db, w, todo, t);
    }
  }

  /** The calls of the other keys stay. */
  lemma OneKeyLess(s: State, s': State, db: Db, w: Window, base: nat, todo: set<string>, key: string)
    requires Awaits(s, db, w, base, todo) && key in todo && UniqueCharges(w.j.charges)
    requires OneLess(s, s', base, OursIn(db, w, key), TheirsIn(w, key))
    ensures Awaits(s', db, w, base, todo - {key})
  {
    forall g | g >= base ensures CallOf(s', g) == AwaitedCall(db, w, todo - {key}, g - base) {
      assert CallOf(s, g) == AwaitedCall(db, w, todo, g - base);
      if Shown(w, g - base) { FoundCharge(w.j.charges, g - base); }
    }
  }

  lemma TreatedNow(c: Config, s1: State, turns: seq<Step>, now: State, more: seq<Step>, at: State, w: Window,
                   base: nat, turn: Turn, key: string, o: Outcome)
    requires Stretch(c, s1, turns, now) && Stretch(c, now, turn.before, at)
    requires MakesTurn(more, base, OursIn(s1.db, w, key), TheirsIn(w, key), turn)
    requires o == TreatUnder(at.db, OursIn(s1.db, w, key), TheirsIn(w, key), turn.weather).1
    ensures TreatedIn(c, s1, turns + more, w, base, key, turn.weather, o) && o != Left(Matched)
  {
    var all, n := turns + more, |turns| + |turn.before|;
    ExecAppend(c, s1, turns, turn.before);
    assert all[..n] == turns + more[..|turn.before|];
    assert IsTurn(w, s1.db, base, all, n, key, turn.weather);
  }

  lemma FoldMore(db: Db, w: Window, order: seq<string>, key: string)
    ensures Fold(db, w, order + [key]) ==
      var (now, r) := Fold(db, w, order);
      var (now', o) := TreatTx(now, OursIn(db, w, key), TheirsIn(w, key));
      (now', Tally(r, o))
  {
    assert (order + [key])[..|order|] == order;
  }

  /** The keys treated so far are those with an outcome, each treated once. */
  ghost predicate Keyed(order: seq<string>, seen: map<string, Outcome>, todo: set<string>) {
    Distinct(order) && (forall k :: k in seen <==> k in order) && (forall k | k in todo :: k !in seen)
  }

  lemma KeyedMore(order: seq<string>, seen: map<string, Outcome>, todo: set<string>, key: string, o: Outcome)
    requires Keyed(order, seen, todo) && key in todo
    ensures Keyed(order + [key], seen[key := o], todo - {key})
  {
  }

  /** The loop so far. */
  ghost predicate Treating(c: Config, s1: State, turns: seq<Step>, s: State, w: Window, base: nat, weather: Weather,
                           todo: set<string>, order: seq<string>, seen: map<string, Outcome>, r: Report)
  {
    && Stretch(c, s1, turns, s) && Awaits(s, s1.db, w, base, todo)
    && Keyed(order, seen, todo) && Reports(r, seen)
    && AllTreatedIn(c, s1, turns, w, base, weather, seen) && Served(turns, w, base, weather)
    && AsFolded(s1, s, w, weather, order, r)
  }

  ghost predicate AsFolded(s1: State, s: State, w: Window, weather: Weather, order: seq<string>, r: Report) {
    Quiet(weather) ==> (s.db, r) == Fold(s1.db, w, order)
  }

  lemma NothingKeyed(keys: set<string>)
    ensures Keyed([], map[], keys)
  {
  }

  lemma TreatingFrom(c: Config, s1: State, w: Window, base: nat, weather: Weather, keys: set<string>,
                     order: seq<string>, seen: map<string, Outcome>, r: Report)
    requires Awaits(s1, s1.db, w, base, keys) && Keyed(order, seen, keys) && Reports(r, seen)
    requires AllTreatedIn(c, s1, [], w, base, weather, seen) && AsFolded(s1, s1, w, weather, order, r)
    ensures Treating(c, s1, [], s1, w, base, weather, keys, order, seen, r)
  {
    assert Exec(c, s1, []) == s1;
  }

  lemma NothingTreated(c: Config, s1: State, w: Window, base: nat, weather: Weather, keys: set<string>,
                       order: seq<string>, seen: map<string, Outcome>, r: Report)
    requires order == [] && seen == map[] && r == Report(0, 0, 0, 0, map[])
    ensures AllTreatedIn(c, s1, [], w, base, weather, seen) && AsFolded(s1, s1, w, weather, order, r)
    ensures Keyed(order, seen, keys)
  {
  }

  lemma NothingReported(seen: map<string, Outcome>, r: Report)
    requires seen == map[] && r == Report(0, 0, 0, 0, map[])
    ensures Reports(r, seen)
  {
    ReportsNothing(seen);
  }

  lemma TreatingStarts(c: Config, s1: State, w: Window, base: nat, weather: Weather, keys: set<string>,
                       order: seq<string>, seen: map<string, Outcome>, r: Report)
    requires Awaits(s1, s1.db, w, base, keys) && order == [] && seen == map[] && r == Report(0, 0, 0, 0, map[])
    ensures Treating(c, s1, [], s1, w, base, weather, keys, order, seen, r)
  {
    NothingTreated(c, s1, w, base, weather, keys, order, seen, r);
    NothingReported(seen, r);
    TreatingFrom(c, s1, w, base, weather, keys, order, seen, r);
  }

  /** Before the first key. */
  method Begin(c: Config, weather: Weather, ghost s1: State, ghost w: Window, ghost base: nat, ghost keys: set<string>)
    returns (r: Report, ghost order: seq<string>, ghost seen: map<string, Outcome>)
    requires Awaits(s1, s1.db, w, base, keys)
    ensures seen.Keys == {} && Treating(c, s1, [], s1, w, base, weather, keys, order, seen, r)
  {
    order, seen, r := [], map[], Report(0, 0, 0, 0, map[]);
    TreatingStarts(c, s1, w, base, weather, keys, order, seen, r);
  }

  /** What the turn of one key did. */
  ghost predicate KeyTreated(c: Config, db: Db, s: State, more: seq<Step>, s': State, w: Window, base: nat, turn: Turn,
                             key: string, o: Outcome, at: State)
  {
    var ours, theirs := OursIn(db, w, key), TheirsIn(w, key);
    && Stretch(c, s, more, s') && OneLess(s, s', base, ours, theirs) && Stretch(c, s, turn.before, at)
    && MakesTurn(more, base, ours, theirs, turn)
    && o == TreatUnder(at.db, ours, theirs, turn.weather).1
    && (turn.between == [] ==> s'.db == TreatUnder(at.db, ours, theirs, turn.weather).0)
  }

  lemma QuietNext(c: Config, db: Db, s: State, more: seq<Step>, s': State, w: Window, base: nat, order: seq<string>,
                  r: Report, key: string, o: Outcome, at: State)
    requires (s.db, r) == Fold(db, w, order) && KeyTreated(c, db, s, more, s', w, base, CALM, key, o, at)
    ensures (s'.db, Tally(r, o)) == Fold(db, w, order + [key])
  {
    FoldMore(db, w, order, key);
    assert Exec(c, s, []) == s;
  }

  lemma AllTreatedNext(c: Config, s1: State, turns: seq<Step>, s: State, more: seq<Step>, s': State, w: Window,
                       base: nat, weather: Weather, seen: map<string, Outcome>, key: string, o: Outcome, at: State)
    requires Stretch(c, s1, turns, s) && AllTreatedIn(c, s1, turns, w, base, weather, seen)
    requires KeyTreated(c, s1.db, s, more, s', w, base, TurnOf(weather, key), key, o, at)
    ensures AllTreatedIn(c, s1, turns + more, w, base, weather, seen[key := o]) && o != Left(Matched)
  {
    TreatedNow(c, s1, turns, s, more, at, w, base, TurnOf(weather, key), key, o);
    forall k | k in seen && k != key
      ensures TreatedIn(c, s1, turns + more, w, base, k, TurnOf(weather, k).weather, seen[k])
    {
      TreatedStays(c, s1, turns, more, w, base, k, TurnOf(weather, k).weather, seen[k]);
    }
  }

  lemma ServedMore(turns: seq<Step>, more: seq<Step>, w: Window, base: nat, weather: Weather)
    requires Served(turns, w, base, weather) && Served(more, w, base, weather)
    ensures Served(turns + more, w, base, weather)
  {
  }

  lemma TreatingNext(c: Config, s1: State, turns: seq<Step>, s: State, more: seq<Step>, s': State, w: Window,
                     base: nat, weather: Weather, todo: set<string>, order: seq<string>, seen: map<string, Outcome>,
                     r: Report, key: string, o: Outcome, at: State)
    requires UniqueCharges(w.j.charges) && key in todo && WeatherBelow(weather, base)
    requires Treating(c, s1, turns, s, w, base, weather, todo, order, seen, r)
    requires KeyTreated(c, s1.db, s, more, s', w, base, TurnOf(weather, key), key, o, at)
    ensures Treating(c, s1, turns + more, s', w, base, weather, todo - {key}, order + [key], seen[key := o],
                     Tally(r, o))
  {
    ExecAppend(c, s1, turns, more);
    OneKeyLess(s, s', s1.db, w, base, todo, key);
    AllTreatedNext(c, s1, turns, s, more, s', w, base, weather, seen, key, o, at);
    TurnServed(more, s1.db, w, base, weather, key);
    ServedMore(turns, more, w, base, weather);
    KeyedMore(order, seen, todo, key, o);
    TallyKeeps(r, seen, key, o);
    if Quiet(weather) { QuietNext(c, s1.db, s, more, s', w, base, order, r, key, o, at); }
  }

  ghost predicate MapsAre(db: Db, w: Window, oursByKey: map<string, Ours>, theirsByKey: map<string, Theirs>) {
    && (forall k :: OursIn(db, w, k) == (if k in oursByKey then Some(oursByKey[k]) else None))
    && (forall k :: TheirsIn(w, k) == (if k in theirsByKey then Some(theirsByKey[k]) else None))
  }

  /** One round of the loop. */
  method TreatNext(sys: System, base: nat, oursByKey: map<string, Ours>, theirsByKey: map<string, Theirs>, k: string,
                   weather: Weather, r: Report, ghost s1: State, ghost turns: seq<Step>, ghost w: Window,
                   ghost todo: set<string>, ghost order: seq<string>, ghost seen: map<string, Outcome>)
    returns (r': Report, ghost steps: seq<Step>, ghost o: Outcome)
    requires MapsAre(s1.db, w, oursByKey, theirsByKey) && UniqueCharges(w.j.charges)
    requires k in todo && WeatherBelow(weather, base)
    requires Treating(sys.c, s1, turns, sys.View(), w, base, weather, todo, order, seen, r)
    modifies sys, sys.db, sys.provider
    ensures Treating(sys.c, s1, turns + steps, sys.View(), w, base, weather, todo - {k}, order + [k], seen[k := o], r')
  {
    var ours := if k in oursByKey then Some(oursByKey[k]) else None;
    var theirs := if k in theirsByKey then Some(theirsByKey[k]) else None;
    ghost var s := sys.View();
    AwaitedHasCall(s, s1.db, w, base, todo, k);
    ghost var at;
    var out;
    out, steps, at := TreatKey(sys, base, ours, theirs, TurnOf(weather, k));
    o := out;
    TreatingNext(sys.c, s1, turns, s, steps, sys.View(), w, base, weather, todo, order, seen, r, k, o, at);
    r' := Count(r, out);
  }

  /** The keys are those still to come and those with an outcome. */
  ghost predicate Divided(keys: set<string>, todo: set<string>, seen: map<string, Outcome>) {
    keys == todo + seen.Keys
  }

  lemma DividedNext(keys: set<string>, todo: set<string>, seen: map<string, Outcome>, k: string, o: Outcome)
    requires Divided(keys, todo, seen) && k in todo
    ensures Divided(keys, todo - {k}, seen[k := o])
  {
  }

  /** The loop over the keys, in any order. */
  method TreatAll(sys: System, base: nat, oursByKey: map<string, Ours>, theirsByKey: map<string, Theirs>,
                  keys: set<string>, weather: Weather, ghost w: Window)
    returns (r: Report, ghost steps: seq<Step>, ghost seen: map<string, Outcome>, ghost order: seq<string>)
    requires MapsAre(sys.View().db, w, oursByKey, theirsByKey) && UniqueCharges(w.j.charges)
    requires Awaits(sys.View(), sys.View().db, w, base, keys) && WeatherBelow(weather, base)
    modifies sys, sys.db, sys.provider
    ensures seen.Keys == keys
    ensures Treating(sys.c, old(sys.View()), steps, sys.View(), w, base, weather, {}, order, seen, r)
  {
    ghost var s1 := sys.View();
    var todo := keys;
    steps := [];
    r, order, seen := Begin(sys.c, weather, s1, w, base, keys);
    while todo != {}
      invariant Divided(keys, todo, seen)
      invariant Treating(sys.c, s1, steps, sys.View(), w, base, weather, todo, order, seen, r)
      decreases todo
    {
      var k :| k in todo;
      ghost var more, o;
      r, more, o := TreatNext(sys, base, oursByKey, theirsByKey, k, weather, r, s1, steps, w, todo, order, seen);
      DividedNext(keys, todo, seen, k, o);
      todo, order, seen, steps := todo - {k}, order + [k], seen[k := o], steps + more;
    }
  }

  // ----- the run

  /** The calls the list stands for. */
  method Ask(sys: System, base: nat, list: seq<Entry>, ghost w: Window) returns (ghost steps: seq<Step>)
    requires w.j == sys.provider.View() && !w.j.down && UniqueCharges(w.j.charges) && list == ListedIn(w, |w.j.charges|)
    requires forall g | g in sys.flights :: g < base
    modifies sys, sys.db, sys.provider
    ensures steps == Asks(base, list) && Stretch(sys.c, old(sys.View()), steps, sys.View())
    ensures SameWorld(old(sys.View()), sys.View()) && ListedTo(sys.View(), w, base, |w.j.charges|)
  {
    AsksRun(sys.c, sys.View(), w, base, |w.j.charges|);
    steps := Asks(base, list);
    sys.Meanwhile(Asks(base, list));
  }

  /** The provider's list, indexed; `w` is the window on the journal of this moment. */
  method List(sys: System, base: nat, from: int, to: int, margin: nat)
    returns (list: Option<seq<Entry>>, theirsByKey: map<string, Theirs>, providerKeys: set<string>,
             ghost steps: seq<Step>)
    requires JournalSchema(sys.provider.View()) && forall g | g in sys.flights :: g < base
    modifies sys, sys.db, sys.provider
    ensures Stretch(sys.c, old(sys.View()), steps, sys.View()) && SameWorld(old(sys.View()), sys.View())
    ensures list.None? <==> old(sys.provider.down)
    ensures steps == if list.Some? then Asks(base, list.value) else []
    ensures var w := Window(old(sys.provider.View()), from, to, margin);
      list.Some? ==>
        && list.value == ListedIn(w, |w.j.charges|) && ListedTo(sys.View(), w, base, |w.j.charges|)
        && providerKeys == ProviderKeys(w)
        && forall k :: TheirsIn(w, k) == (if k in theirsByKey then Some(theirsByKey[k]) else None)
  {
    list := sys.provider.ListCharges(from - margin, to + margin);
    steps, theirsByKey, providerKeys := [], map[], {};
    if list.Some? {
      ghost var w := Window(sys.provider.View(), from, to, margin);
      theirsByKey, providerKeys := IndexTheirs(list.value, from, to, w);
      steps := Ask(sys, base, list.value, w);
    }
  }

  /** The read of our payments, indexed. */
  method Read(sys: System, base: nat, from: int, to: int, list: seq<Entry>, providerKeys: set<string>, ghost w: Window)
    returns (oursByKey: map<string, Ours>, ghost steps: seq<Step>)
    requires UniquePaymentKeys(sys.db.payments) && UniqueCharges(w.j.charges) && list == ListedIn(w, |w.j.charges|)
    requires w.from == from && w.to == to && providerKeys == ProviderKeys(w)
    requires ListedTo(sys.View(), w, base, |w.j.charges|)
    modifies sys, sys.db, sys.provider
    ensures Stretch(sys.c, old(sys.View()), steps, sys.View()) && SameWorld(old(sys.View()), sys.View())
    ensures forall k :: OursIn(sys.View().db, w, k) == (if k in oursByKey then Some(oursByKey[k]) else None)
    ensures oursByKey.Keys + providerKeys == Keys(sys.View().db, w)
    ensures Awaits(sys.View(), sys.View().db, w, base, oursByKey.Keys + providerKeys)
    ensures steps == Reads(base, list, oursByKey.Keys + providerKeys)
  {
    oursByKey := IndexOurs(sys.db, from, to, providerKeys, w);
    var keys := oursByKey.Keys + providerKeys;
    ReadsRun(sys.c, sys.View(), w, base, keys, |w.j.charges|);
    steps := Reads(base, list, keys);
    sys.Meanwhile(Reads(base, list, keys));
    AllRead(sys.View(), sys.View().db, w, base, keys);
  }

  /** What a run reports: the outcomes of the keys of the period, as our payments were read in `s1`, from where
      the run goes on with `turns`. */
  ghost predicate RunReports(c: Config, s1: State, turns: seq<Step>, w: Window, base: nat, weather: Weather,
                             seen: map<string, Outcome>, rep: Report)
  {
    && seen.Keys == Keys(s1.db, w) && Reports(rep, seen)
    && AllTreatedIn(c, s1, turns, w, base, weather, seen) && Served(turns, w, base, weather)
  }

  lemma NoneLeft(s: State, db: Db, w: Window, base: nat)
    requires Awaits(s, db, w, base, {})
    ensures forall g | g in s.flights :: g < base
  {
    forall g | g >= base ensures g !in s.flights { assert CallOf(s, g) == AwaitedCall(db, w, {}, g - base); }
  }

  /** Between the list and the read the tables keep their unique indexes. */
  lemma StillSchema(c: Config, s0: State, s: State, before: seq<Step>)
    requires SameWorld(s0, s) && Later(c, s0, s) && Schema(s0.db) && (before == [] || Inv(s0))
    ensures Schema(Exec(c, s, before).db)
  {
    if Inv(s0) {
      var steps :| s == Exec(c, s0, steps);
      RunKeeps(c, s0, steps);
      RunKeeps(c, s, before);
    } else {
      assert Exec(c, s, []) == s;
    }
  }

  /** Without the others the run leaves the tables that the period determines. */
  lemma QuietRun(s1: State, s: State, w: Window, weather: Weather, order: seq<string>, seen: map<string, Outcome>,
                 r: Report)
    requires Quiet(weather) && Schema(s1.db) && Keyed(order, seen, {}) && AsFolded(s1, s, w, weather, order, r)
    requires seen.Keys == Keys(s1.db, w)
    ensures Treated(s1.db, w, Keys(s1.db, w), s.db)
    ensures Reports(r, OutcomesOf(s1.db, w, Keys(s1.db, w)))
  {
    assert KeySet(order) == seen.Keys;
    AnyOrderSameTables(s1.db, w, order);
    AnyOrderSameReport(s1.db, w, order);
  }

  /** The steps of the list and the read, and of the others in between. */
  function PrepareSteps(w: Window, base: nat, weather: Weather, keys: set<string>): seq<Step> {
    var list := ListedIn(w, |w.j.charges|);
    Asks(base, list) + weather.beforeRead + Reads(base, list, keys)
  }

  /** The list and the read, with others acting in between. */
  method Prepare(sys: System, base: nat, from: int, to: int, margin: nat, weather: Weather)
    returns (ok: bool, oursByKey: map<string, Ours>, theirsByKey: map<string, Theirs>, providerKeys: set<string>,
             ghost steps: seq<Step>)
    requires WeatherBelow(weather, base) && forall g | g in sys.flights :: g < base
    requires Schema(sys.db.View()) && JournalSchema(sys.provider.View()) && (Quiet(weather) || Inv(sys.View()))
    modifies sys, sys.db, sys.provider
    ensures Stretch(sys.c, old(sys.View()), steps, sys.View())
    ensures ok <==> !old(sys.provider.down)
    ensures !ok ==> steps == []
    ensures var w := Window(old(sys.provider.View()), from, to, margin);
      ok ==> steps == PrepareSteps(w, base, weather, Keys(sys.View().db, w))
    ensures Quiet(weather) ==> sys.View().db == old(sys.View()).db
    ensures var w, db := Window(old(sys.provider.View()), from, to, margin), sys.View().db;
      ok ==> && Schema(db) && MapsAre(db, w, oursByKey, theirsByKey)
             && oursByKey.Keys + providerKeys == Keys(db, w) && Awaits(sys.View(), db, w, base, Keys(db, w))
  {
    ghost var s0 := sys.View();
    ghost var w := Window(sys.provider.View(), from, to, margin);
    var list;
    list, theirsByKey, providerKeys, steps := List(sys, base, from, to, margin);
    ok, oursByKey := list.Some?, map[];
    if ok {
      ghost var listed := sys.View();
      assert Exec(sys.c, listed, []) == listed;
      StillSchema(sys.c, s0, listed, weather.beforeRead);
      sys.Meanwhile(weather.beforeRead);
      OthersKeepOwn(sys.c, listed, weather.beforeRead, base);
      StillListed(listed, sys.View(), w, base);
      ghost var more;
      oursByKey, more := Read(sys, base, from, to, list.value, providerKeys, w);
      ExecAppend(sys.c, s0, steps, weather.beforeRead);
      ExecAppend(sys.c, s0, steps + weather.beforeRead, more);
      steps := steps + weather.beforeRead + more;
    }
  }

  lemma StillListed(s: State, s': State, w: Window, base: nat)
    requires ListedTo(s, w, base, |w.j.charges|) && SameOwn(s, s', base)
    ensures ListedTo(s', w, base, |w.j.charges|)
  {
    forall g | g >= base ensures CallOf(s', g) == if g < base + |w.j.charges| then AskedCall(w, g - base) else None {
      assert CallOf(s', g) == CallOf(s, g);
    }
  }

  /** Job.Run. The whole execution is a run of the protocol: `steps` up to the read and `turns` from there. The
      provider's list and our payments as read determine the keys, and every key comes out as its two records and
      the tables at its turn say. A provider that is down changes nothing. With nobody else at work the tables and
      the report are those the period determines, whatever order the keys come in. */
  method Run(sys: System, base: nat, from: int, to: int, margin: nat, weather: Weather)
    returns (rep: Option<Report>, ghost steps: seq<Step>, ghost turns: seq<Step>, ghost seen: map<string, Outcome>)
    requires WeatherBelow(weather, base) && forall g | g in sys.flights :: g < base
    requires Schema(sys.db.View()) && JournalSchema(sys.provider.View()) && (Quiet(weather) || Inv(sys.View()))
    modifies sys, sys.db, sys.provider
    ensures Stretch(sys.c, old(sys.View()), steps + turns, sys.View()) && forall g | g in sys.flights :: g < base
    ensures old(sys.provider.down) ==> rep == None && sys.View() == old(sys.View())
    ensures var w, s1 := Window(old(sys.provider.View()), from, to, margin), Exec(sys.c, old(sys.View()), steps);
      !old(sys.provider.down) ==>
        && rep.Some? && steps == PrepareSteps(w, base, weather, Keys(s1.db, w))
        && RunReports(sys.c, s1, turns, w, base, weather, seen, rep.value)
    ensures var w, db := Window(old(sys.provider.View()), from, to, margin), old(sys.db.View());
      Quiet(weather) && !old(sys.provider.down) ==>
        Treated(db, w, Keys(db, w), sys.db.View()) && Reports(rep.value, OutcomesOf(db, w, Keys(db, w)))
  {
    ghost var s0 := sys.View();
    ghost var w := Window(sys.provider.View(), from, to, margin);
    var ok, oursByKey, theirsByKey, providerKeys;
    ok, oursByKey, theirsByKey, providerKeys, steps := Prepare(sys, base, from, to, margin, weather);
    ghost var s1 := sys.View();
    rep, turns, seen := None, [], map[];
    if ok {
      ghost var order;
      var r;
      r, turns, seen, order := TreatAll(sys, base, oursByKey, theirsByKey, oursByKey.Keys + providerKeys, weather, w);
      NoneLeft(sys.View(), s1.db, w, base);
      if Quiet(weather) { QuietRun(s1, sys.View(), w, weather, order, seen, r); }
      rep := Some(r);
    }
    ExecAppend(sys.c, s0, steps, turns);
  }

  /** Which keys `Run` leaves to a person: those the two reads leave to one, and those it was to fix but whose
      payment had moved by the time the fix began, or a statement of whose fix failed. */
  lemma ReportedExactly(c: Config, s0: State, steps: seq<Step>, turns: seq<Step>, w: Window, base: nat, key: string,
                        fw: FixWeather, o: Outcome)
    requires Reachable(c, s0) && w.j == s0.journal
    requires var s1 := Exec(c, s0, steps); key in Keys(s1.db, w) && TreatedIn(c, s1, turns, w, base, key, fw, o)
    ensures var s1 := Exec(c, s0, steps);
      && FindPayment(s1.db.payments, key).Some? && OursIn(s1.db, w, key).Some?
      && exists n: nat :: && IsTurn(w, s1.db, base, turns, n, key, fw)
                          && ToAPersonExactly(s1.db, Exec(c, s1, turns[..n]).db, w, key, fw, o)
  {
    var s1 := Exec(c, s0, steps);
    var n: nat :| && IsTurn(w, s1.db, base, turns, n, key, fw)
                  && o == TreatUnder(Exec(c, s1, turns[..n]).db, OursIn(s1.db, w, key), TheirsIn(w, key), fw).1;
    ItIsLater(c, s0, steps);
    ItIsLater(c, s1, turns[..n]);
    OutcomeAt(c, s0, s1, Exec(c, s1, turns[..n]), w, key, fw, o);
  }

  lemma ItIsLater(c: Config, s: State, steps: seq<Step>)
    ensures Later(c, s, Exec(c, s, steps))
  {
  }

  lemma OutcomeAt(c: Config, s0: State, s1: State, s2: State, w: Window, key: string, fw: FixWeather, o: Outcome)
    requires Reachable(c, s0) && Later(c, s0, s1) && Later(c, s1, s2) && w.j == s0.journal && key in Keys(s1.db, w)
    requires o == TreatUnder(s2.db, OursIn(s1.db, w, key), TheirsIn(w, key), fw).1
    ensures FindPayment(s1.db.payments, key).Some? && OursIn(s1.db, w, key).Some?
    ensures ToAPersonExactly(s1.db, s2.db, w, key, fw, o)
  {
    FixReportsExactly(c, s0, s1, s2, w, key, fw);
  }
}
