/** Concrete runs that show where the guarantees end. */
module Witnesses {
  import opened Domain
  import opened Tables
  import opened Orders
  import opened Payments
  import opened Reconciliation
  import opened Protocol
  import opened PaymentTheorems
  import opened JobSpec
  import RefundQueue

  const GO := Choice(true, false, false, 0)

  const SHELF := map[1 := Product(500, 3)]

  const ITEMS := [Item(1, 1, 500)]

  /** One open order of one item, and nothing else. */
  function OneOrder(products: map<int, Product>): State {
    State(Db(products, [Order(Open, ITEMS)], map[], [], [], []), Journal([], [], false), 0, map[])
  }

  lemma CreateOne(c: Config) returns (s: State)
    ensures s == OneOrder(s.db.products) && s == Apply(c, Init(SHELF), Create([Line(1, 1)], ""))
  {
    var lines := [Line(1, 1)];
    assert lines[..0] == [];
    assert CheckLines(lines[..0]).None? && !Seen(lines[..0], 1);
    assert CheckRequest(lines).None?;
    assert SortLines(lines[..0]) == [] && SortLines(lines) == Insert(lines[0], []);
    assert SortLines(lines) == lines;
    assert Reserve(SHELF, lines[..0]) == Reserved(SHELF, []);
    assert Reserve(SHELF, lines) == Reserved(SHELF[1 := Product(500, 2)], ITEMS);
    s := Apply(c, Init(SHELF), Create(lines, ""));
  }

  function Row(key: string, status: PaymentStatus, charge: Option<nat>, createdAt: nat, attempts: nat,
               nextAt: nat): Payment {
    Payment(0, 500, status, key, charge, createdAt, attempts, nextAt, false)
  }

  /** A payment request under a new key on an open order without active payments reaches the provider. */
  lemma RequestSent(c: Config, s: State, fid: nat, key: string) returns (s': State, steps: seq<Step>)
    requires |s.db.orders| == 1 && s.db.orders[0] == Order(Open, ITEMS)
    requires fid !in s.flights && key != "" && FindPayment(s.db.payments, key).None?
    requires forall i | 0 <= i < |s.db.payments| :: s.db.payments[i].status == Expired
    ensures s' == Exec(c, s, steps)
    ensures s' == s.(db := s.db.(payments := s.db.payments + [Row(key, Pending, None, s.clock, 0, s.clock)],
                                 events := s.db.events + [Event(|s.db.payments|, None, Pending)]),
                     flights := s.flights[fid := Charging(0, key, |s.db.payments|, 500, true)])
  {
    assert ITEMS[..0] == [] && Total(ITEMS[..0]) == 0 && Total(ITEMS) == 500;
    steps := [Pay(fid, 0, key), Move(fid, GO), Move(fid, GO)];
    var s1 := Apply(c, s, steps[0]);
    var s2 := Apply(c, s1, steps[1]);
    s' := Apply(c, s2, steps[2]);
    ThreeSteps(c, s, steps[0], steps[1], steps[2]);
    assert s2.flights == s.flights[fid := Starting(0, key)];
  }

  lemma OneStep(c: Config, s: State, step: Step)
    ensures Exec(c, s, [step]) == Apply(c, s, step)
  {
    assert [step][..0] == [];
    assert Exec(c, s, [step][..0]) == s;
  }

  lemma ThreeSteps(c: Config, s: State, x: Step, y: Step, z: Step)
    ensures Exec(c, s, [x, y, z]) == Apply(c, Apply(c, Apply(c, s, x), y), z)
  {
    assert [x, y, z][..2] == [x, y] && [x, y][..1] == [x] && [x][..0] == [];
    assert Exec(c, s, [x]) == Apply(c, s, x);
    assert Exec(c, s, [x, y]) == Apply(c, Apply(c, s, x), y);
  }

  /** The worker asks about a payment old enough while its request is still on its way, and expires it. */
  lemma ExpiredMeanwhile(c: Config, s: State, fid: nat) returns (s': State, steps: seq<Step>)
    requires s.db.payments == [Row("a", Pending, None, s.clock, 0, s.clock)] && |s.db.orders| == 1
    requires fid !in s.flights && !s.journal.down && s.journal.charges == []
    ensures s' == Exec(c, s, steps)
    ensures s'.db.orders == s.db.orders && s'.journal == s.journal && s'.flights == s.flights
    ensures |s'.db.payments| == 1 && s'.db.payments[0].status == Expired && s'.db.payments[0].key == "a"
    ensures s'.db.payments[0].order == 0
  {
    var age := c.stuckAfter + c.expireAfter + 1;
    var wait := [Tick(age)];
    steps := [LeaseCheckStep(fid, 0), Move(fid, GO), Move(fid, GO)];
    OneStep(c, s, wait[0]);
    var s0 := Exec(c, s, wait);
    var s1 := Apply(c, s0, steps[0]);
    assert s1.flights[fid] == Checking(0, "a", 1, age);
    var s2 := s1.(flights := s1.flights[fid := Resolving(0, Expired, None, 1)]);
    NotFoundAndOld(c, s1, fid, age);
    s' := ExpiredNow(c, s2, fid);
    ThreeSteps(c, s0, steps[0], steps[1], steps[2]);
    ExecAppend(c, s, wait, steps);
    steps := wait + steps;
    assert s'.flights == s.flights;
  }

  lemma NotFoundAndOld(c: Config, s: State, fid: nat, age: nat)
    requires fid in s.flights && s.flights[fid] == Checking(0, "a", 1, age) && age >= c.expireAfter
    requires !s.journal.down && s.journal.charges == []
    ensures Apply(c, s, Move(fid, GO)) == s.(flights := s.flights[fid := Resolving(0, Expired, None, 1)])
  {
  }

  lemma ExpiredNow(c: Config, s: State, fid: nat) returns (s': State)
    requires fid in s.flights && s.flights[fid] == Resolving(0, Expired, None, 1)
    requires |s.db.payments| == 1 && s.db.payments[0].status == Pending
    ensures s' == Apply(c, s, Move(fid, GO))
    ensures s'.db.orders == s.db.orders && s'.journal == s.journal && s'.flights == s.flights - {fid}
    ensures s'.db.payments == [s.db.payments[0].(status := Expired)]
  {
    s' := Apply(c, s, Move(fid, GO));
  }

  /** The provider approves a request and Pay records it. */
  lemma ChargedAndRecorded(c: Config, s: State, fid: nat, p: nat) returns (s': State, steps: seq<Step>)
    requires fid in s.flights && p < |s.db.payments| && |s.db.orders| == 1 && s.db.orders[0].status == Open
    requires s.db.payments[p].status == Pending && s.db.payments[p].order == 0
    requires s.flights[fid] == Charging(0, s.db.payments[p].key, p, 500, true)
    requires !s.journal.down && s.journal.charges == [] && s.db.payments[p].key != ""
    ensures s' == Exec(c, s, steps)
    ensures s'.journal == s.journal.(charges := [Charge(s.db.payments[p].key, 0, 500, true, s.clock)])
    ensures s'.flights == s.flights - {fid}
    ensures s'.db.payments == s.db.payments[p := s.db.payments[p].(status := Succeeded, charge := Some(0))]
    ensures s'.db.refunds == s.db.refunds
  {
    steps := [Move(fid, GO), Move(fid, GO)];
    var s1 := Apply(c, s, steps[0]);
    assert s1.flights[fid] == Recording(p, Succeeded, Some(0));
    s' := Apply(c, s1, steps[1]);
    assert steps[..1] == [steps[0]] && steps[..1][..0] == [];
    assert Exec(c, s, steps[..1]) == s1;
    assert s'.flights == s.flights - {fid};
  }

  /** A request that outlives its payment's expiry can land after the order was paid under a new key:
      the order is then charged twice. */
  lemma DoubleChargeHappens(c: Config)
    ensures exists steps :: var s := Exec(c, Init(SHELF), steps);
      && |s.db.payments| == 2 && s.db.payments[0].order == s.db.payments[1].order
      && s.db.payments[0].status == Expired && s.db.payments[1].status == Succeeded
      && TookMoney(s.journal, s.db.payments[0].key) && TookMoney(s.journal, s.db.payments[1].key)
  {
    var s5, steps := ExpiredThenPaid(c);
    var land := Move(1, GO);
    OneStep(c, s5, land);
    LateLanding(s5);
    ExecAppend(c, Init(SHELF), steps, [land]);
    var s := Exec(c, Init(SHELF), steps + [land]);
    assert s == MoveCharge(s5, 1, s5.flights[1], GO);
  }

  /** A request under "a" is on its way, and its payment is expired meanwhile. */
  lemma ExpiredUnderway(c: Config) returns (s: State, steps: seq<Step>)
    ensures s == Exec(c, Init(SHELF), steps) && s.db.orders == [Order(Open, ITEMS)]
    ensures s.flights == map[1 := Charging(0, "a", 0, 500, true)] && s.journal == Journal([], [], false)
    ensures |s.db.payments| == 1 && s.db.payments[0].order == 0
    ensures s.db.payments[0].key == "a" && s.db.payments[0].status == Expired
  {
    var s1 := CreateOne(c);
    var create := [Create([Line(1, 1)], "")];
    OneStep(c, Init(SHELF), create[0]);
    var s2, first := RequestSent(c, s1, 1, "a");
    ExecAppend(c, Init(SHELF), create, first);
    var expire;
    s, expire := ExpiredMeanwhile(c, s2, 2);
    ExecAppend(c, Init(SHELF), create + first, expire);
    steps := create + first + expire;
  }

  lemma ExpiredThenPaid(c: Config) returns (s: State, steps: seq<Step>)
    ensures s == Exec(c, Init(SHELF), steps)
    ensures 1 in s.flights && s.flights[1] == Charging(0, "a", 0, 500, true)
    ensures !s.journal.down && |s.journal.charges| == 1
    ensures s.journal.charges[0].key == "b" && s.journal.charges[0].charged
    ensures |s.db.payments| == 2 && s.db.payments[0].order == s.db.payments[1].order
    ensures s.db.payments[0].key == "a" && s.db.payments[0].status == Expired
    ensures s.db.payments[1].key == "b" && s.db.payments[1].status == Succeeded
  {
    var s3, before := ExpiredUnderway(c);
    assert FindPayment(s3.db.payments[..0], "b").None? && FindPayment(s3.db.payments, "b").None?;
    var s4, second := RequestSent(c, s3, 3, "b");
    ExecAppend(c, Init(SHELF), before, second);
    var paid;
    s, paid := ChargedAndRecorded(c, s4, 3, 1);
    ExecAppend(c, Init(SHELF), before + second, paid);
    steps := before + second + paid;
  }

  lemma LateLanding(s: State)
    requires 1 in s.flights && s.flights[1] == Charging(0, "a", 0, 500, true)
    requires !s.journal.down && |s.journal.charges| == 1
    requires s.journal.charges[0].key == "b" && s.journal.charges[0].charged
    ensures var s' := MoveCharge(s, 1, s.flights[1], GO);
      s'.db == s.db && TookMoney(s'.journal, "a") && TookMoney(s'.journal, "b")
  {
    var cs := s.journal.charges;
    assert cs[..0] == [] && FindCharge(cs[..0], "a").None? && FindCharge(cs, "a").None?;
    var cs' := MoveCharge(s, 1, s.flights[1], GO).journal.charges;
    assert cs'[..1] == cs && FindCharge(cs, "b") == Some(0);
    assert FindCharge(cs', "a") == Some(1) && FindCharge(cs', "b") == Some(0);
  }

  /** The job can report a payment as missing at the provider although at no moment anything was
      missing: the charge arrived between its two reads. */
  lemma FalseAlarmHappens(c: Config)
    ensures exists before, between :: var s := Exec(c, Init(SHELF), before); var s' := Exec(c, s, between);
      && Classify(OursFor(s'.db, "a"), TheirsFor(s.journal, "a")) == Finding(MissingAtProvider, Manual)
      && Classify(OursFor(s.db, "a"), TheirsFor(s.journal, "a")).kind == Matched
      && Classify(OursFor(s'.db, "a"), TheirsFor(s'.journal, "a")).kind == Matched
  {
    var s1 := CreateOne(c);
    var create := [Create([Line(1, 1)], "")];
    OneStep(c, Init(SHELF), create[0]);
    var s, first := RequestSent(c, s1, 1, "a");
    ExecAppend(c, Init(SHELF), create, first);
    var s', paid := ChargedAndRecorded(c, s, 1, 0);
    assert FindPayment(s.db.payments, "a") == Some(0) && FindPayment(s'.db.payments, "a") == Some(0);
    assert FindCharge(s'.journal.charges, "a") == Some(0) && !ReturnedAt(s'.journal.sent, 0);
    assert s == Exec(c, Init(SHELF), create + first) && s' == Exec(c, s, paid);
  }

  /** The provider has charged a request, and Pay is about to record it. */
  lemma ChargedNotRecorded(c: Config) returns (s: State, steps: seq<Step>)
    ensures s == Exec(c, Init(SHELF), steps) && s.flights == map[1 := Recording(0, Succeeded, Some(0))] && s.clock == 0
    ensures s.db.orders == [Order(Open, ITEMS)] && s.db.refunds == []
    ensures s.db.payments == [Row("a", Pending, None, 0, 0, 0)]
    ensures s.journal == Journal([Charge("a", 0, 500, true, 0)], [], false)
  {
    var s1 := CreateOne(c);
    var create := [Create([Line(1, 1)], "")];
    OneStep(c, Init(SHELF), create[0]);
    var s2, first := RequestSent(c, s1, 1, "a");
    ExecAppend(c, Init(SHELF), create, first);
    var charge := [Move(1, GO)];
    OneStep(c, s2, charge[0]);
    ExecAppend(c, Init(SHELF), create + first, charge);
    steps := create + first + charge;
    s := Apply(c, s2, charge[0]);
    assert FindCharge(s2.journal.charges, "a").None?;
    assert s == MoveCharge(s2, 1, s2.flights[1], GO);
  }

  lemma RecordsIt(c: Config, s: State)
    requires 1 in s.flights && s.flights[1] == Recording(0, Succeeded, Some(0))
    requires s.db.orders == [Order(Open, ITEMS)] && s.db.payments == [Row("a", Pending, None, 0, 0, 0)]
    ensures var s' := Exec(c, s, [Move(1, GO)]);
      && s'.db.payments == [Row("a", Succeeded, Some(0), 0, 0, 0)] && s'.db.refunds == s.db.refunds
      && s'.db.orders == [Order(Paid, ITEMS)] && s'.journal == s.journal && s'.flights == s.flights - {1}
      && s'.clock == s.clock
  {
    OneStep(c, s, Move(1, GO));
  }

  /** The job lists and reads while a charge waits to be recorded, Pay records it, and the job's own fix of the
      key then fails: a key with nothing wrong goes to a person. */
  lemma LateFixReportsSettledKey(c: Config)
    ensures exists before, between, w: Window ::
      var s := Exec(c, Init(SHELF), before);
      var s' := Exec(c, s, between);
      && w.j == s.journal && "a" in Keys(s.db, w) && OutcomeOf(s.db, w, "a") == Fixed
      && TreatUnder(s'.db, OursIn(s.db, w, "a"), TheirsIn(w, "a"), FAIR).1 == Left(StatusMismatch)
      && Classify(OursFor(s'.db, "a"), TheirsFor(s'.journal, "a")).kind == Matched
  {
    var s, before := ChargedNotRecorded(c);
    RecordsIt(c, s);
    var between, w := [Move(1, GO)], Window(s.journal, 0, 1, 0);
    ReadThenRecorded(s, Exec(c, s, between), w);
    assert s == Exec(c, Init(SHELF), before);
  }

  lemma ReadThenRecorded(s: State, s': State, w: Window)
    requires s.db.orders == [Order(Open, ITEMS)] && s.db.payments == [Row("a", Pending, None, 0, 0, 0)]
    requires s.journal == Journal([Charge("a", 0, 500, true, 0)], [], false) && s'.journal == s.journal
    requires s'.db.payments == [Row("a", Succeeded, Some(0), 0, 0, 0)] && s.db.refunds == [] && s'.db.refunds == []
    requires w == Window(s.journal, 0, 1, 0)
    ensures "a" in Keys(s.db, w) && OutcomeOf(s.db, w, "a") == Fixed
    ensures TreatUnder(s'.db, OursIn(s.db, w, "a"), TheirsIn(w, "a"), FAIR).1 == Left(StatusMismatch)
    ensures Classify(OursFor(s'.db, "a"), TheirsFor(s'.journal, "a")).kind == Matched
  {
    assert FindPayment(s.db.payments, "a") == Some(0) && FindCharge(s.journal.charges, "a") == Some(0);
    assert FindPayment(s'.db.payments, "a") == Some(0);
    assert InScope(s.db.payments[0], w) && s.db.payments[0].key in Keys(s.db, w);
  }

  lemma PaidAtTen(c: Config) returns (s: State, steps: seq<Step>)
    ensures s == Exec(c, Init(SHELF), steps) && s.db.refunds == [] && s.journal.sent == []
    ensures s.db.payments == [Row("a", Succeeded, Some(0), 0, 0, 0)]
    ensures s.journal.charges == [Charge("a", 0, 500, true, 10)]
  {
    var s1 := CreateOne(c);
    var create := [Create([Line(1, 1)], "")];
    OneStep(c, Init(SHELF), create[0]);
    var s2, first := RequestSent(c, s1, 1, "a");
    ExecAppend(c, Init(SHELF), create, first);
    var wait := [Tick(10)];
    OneStep(c, s2, wait[0]);
    ExecAppend(c, Init(SHELF), create + first, wait);
    var paid;
    s, paid := ChargedAndRecorded(c, s2.(clock := 10), 1, 0);
    ExecAppend(c, Init(SHELF), create + first + wait, paid);
    steps := create + first + wait + paid;
  }

  /** A run over a period whose margin ended before the charge was made reports a paid payment as missing at
      the provider, with nothing going on meanwhile. */
  lemma OldPeriodMisreports(c: Config)
    ensures exists steps, w: Window :: var s := Exec(c, Init(SHELF), steps);
      && w.j == s.journal && w.margin == 5 && "a" in Keys(s.db, w)
      && |s.db.payments| == 1 && s.db.payments[0].status == Succeeded
      && OutcomeOf(s.db, w, "a") == Left(MissingAtProvider)
      && Classify(OursFor(s.db, "a"), TheirsFor(s.journal, "a")).kind == Matched
  {
    var s, steps := PaidAtTen(c);
    var w := Window(s.journal, 0, 1, 5);
    LateChargeNotListed(s, w);
    assert s == Exec(c, Init(SHELF), steps);
  }

  lemma LateChargeNotListed(s: State, w: Window)
    requires s.db.payments == [Row("a", Succeeded, Some(0), 0, 0, 0)] && s.db.refunds == []
    requires s.journal.charges == [Charge("a", 0, 500, true, 10)] && s.journal.sent == []
    requires w == Window(s.journal, 0, 1, 5)
    ensures "a" in Keys(s.db, w) && OutcomeOf(s.db, w, "a") == Left(MissingAtProvider)
    ensures Classify(OursFor(s.db, "a"), TheirsFor(s.journal, "a")).kind == Matched
  {
    assert FindPayment(s.db.payments, "a") == Some(0) && FindCharge(s.journal.charges, "a") == Some(0);
    assert InScope(s.db.payments[0], w);
    assert s.db.payments[0].key in Keys(s.db, w);
  }

  // ----- a refund whose fix is interrupted

  const REFUND := Refund(0, 500, Waiting, 0, 0, None)

  /** Paid, cancelled, and the refund row waiting. */
  lemma RefundWaits(c: Config) returns (s: State, steps: seq<Step>)
    ensures s == Exec(c, Init(SHELF), steps) && s.flights == map[] && s.clock == 0 && s.db.refunds == [REFUND]
    ensures s.db.payments == [Row("a", Succeeded, Some(0), 0, 0, 0)]
    ensures s.journal == Journal([Charge("a", 0, 500, true, 0)], [], false)
  {
    var s1, before := ChargedNotRecorded(c);
    RecordsIt(c, s1);
    var s2 := Exec(c, s1, [Move(1, GO)]);
    ExecAppend(c, Init(SHELF), before, [Move(1, GO)]);
    OneStep(c, s2, Cancel(0));
    ExecAppend(c, Init(SHELF), before + [Move(1, GO)], [Cancel(0)]);
    steps := before + [Move(1, GO)] + [Cancel(0)];
    s := Exec(c, s2, [Cancel(0)]);
    assert FindInStatus(s2.db.payments, 0, Succeeded) == Some(0) && FindRefund(s2.db.refunds, 0).None?;
    assert s2.flights == map[];
  }

  /** The provider gives the money back, and the worker dies before it can record that. */
  lemma GivenBackUnrecorded(c: Config, s: State) returns (s': State, steps: seq<Step>)
    requires s.flights == map[] && s.clock == 0 && s.db.refunds == [REFUND]
    requires s.db.payments == [Row("a", Succeeded, Some(0), 0, 0, 0)]
    requires s.journal == Journal([Charge("a", 0, 500, true, 0)], [], false)
    ensures s' == Exec(c, s, steps) && s'.flights == map[] && s'.db.payments == s.db.payments
    ensures s'.db.refunds == [REFUND.(attempts := 1, nextAt := c.refundLease)]
    ensures s'.journal == s.journal.(sent := [Sent(0, Some(0), 500)])
  {
    steps := [LeaseRefundStep(2, 0), Move(2, GO), Crash(2, false)];
    var s1 := Apply(c, s, steps[0]);
    assert s1.flights == map[2 := Refunding(0, 0, 500, 1, Some(0), true)];
    var s2 := Apply(c, s1, steps[1]);
    assert FindSent(s1.journal.sent, 0).None?;
    assert s2.flights == map[2 := RefundSent(0, 0, 0)];
    s' := Apply(c, s2, steps[2]);
    ThreeSteps(c, s, steps[0], steps[1], steps[2]);
  }

  /** The job finds out, marks the payment refunded, and dies before it closes the refund row. */
  lemma FixInterrupted(c: Config, s: State) returns (s': State, steps: seq<Step>)
    requires s.flights == map[] && s.db.payments == [Row("a", Succeeded, Some(0), 0, 0, 0)]
    requires s.db.refunds == [REFUND.(attempts := 1, nextAt := c.refundLease)]
    requires s.journal == Journal([Charge("a", 0, 500, true, 0)], [Sent(0, Some(0), 500)], false)
    ensures s' == Exec(c, s, steps) && RefundQueue.Orphaned(s'.db, 0)
  {
    var ask := [ListCharges(3, "a"), Move(3, GO), Move(3, GO)];
    var die := [Crash(3, false)];
    var theirs := Theirs("a", 0, 500, Returned);
    assert FindRefund(s.db.refunds, 0) == Some(0);
    var s2 := ReturnedThere(c, s, theirs);
    var s3 := RefundedHere(c, s2, theirs);
    ThreeSteps(c, s, ask[0], ask[1], ask[2]);
    OneStep(c, s3, die[0]);
    ExecAppend(c, s, ask, die);
    steps := ask + die;
    s' := Apply(c, s3, die[0]);
  }

  lemma ReturnedThere(c: Config, s: State, theirs: Theirs) returns (s2: State)
    requires s.flights == map[] && s.db.payments == [Row("a", Succeeded, Some(0), 0, 0, 0)]
    requires |s.db.refunds| == 1 && s.db.refunds[0].status == Waiting && FindRefund(s.db.refunds, 0) == Some(0)
    requires s.journal == Journal([Charge("a", 0, 500, true, 0)], [Sent(0, Some(0), 500)], false)
    requires theirs == Theirs("a", 0, 500, Returned)
    ensures s2 == Apply(c, Apply(c, s, ListCharges(3, "a")), Move(3, GO)) && s2.db == s.db
    ensures s2.flights == map[3 := Fixing(OursOf(s.db, 0), theirs, FixRefundSucceeded)]
  {
    assert FindCharge(s.journal.charges, "a") == Some(0) && FindPayment(s.db.payments, "a") == Some(0);
    assert s.journal.sent[0].charge == Some(0);
    var s1 := Apply(c, s, ListCharges(3, "a"));
    assert s1.flights == map[3 := Matching("a", Some(theirs))];
    s2 := Apply(c, s1, Move(3, GO));
    assert s2 == MoveMatch(s1, 3, s1.flights[3]);
  }

  lemma RefundedHere(c: Config, s: State, theirs: Theirs) returns (s': State)
    requires s.db.payments == [Row("a", Succeeded, Some(0), 0, 0, 0)] && |s.db.refunds| == 1
    requires s.db.refunds[0].payment == 0 && s.db.refunds[0].status == Waiting && FindRefund(s.db.refunds, 0) == Some(0)
    requires s.flights == map[3 := Fixing(OursOf(s.db, 0), theirs, FixRefundSucceeded)]
    ensures s' == Apply(c, s, Move(3, GO)) && RefundQueue.Orphaned(s'.db, 0)
  {
    s' := Apply(c, s, Move(3, GO));
    assert s' == MoveFix(s, 3, s.flights[3]);
    assert s'.db.refunds == s.db.refunds && s'.db.payments[0].status == Refunded;
  }

  /** A refund can be orphaned: the worker dies after the provider gave the money back, and the job dies between the
      two statements of its fix. */
  lemma OrphanedRefundHappens(c: Config)
    ensures exists steps :: RefundQueue.Orphaned(Exec(c, Init(SHELF), steps).db, 0)
  {
    var s1, a := RefundWaits(c);
    var s2, b := GivenBackUnrecorded(c, s1);
    var s3, d := FixInterrupted(c, s2);
    ExecAppend(c, Init(SHELF), a, b);
    ExecAppend(c, Init(SHELF), a + b, d);
    assert s3 == Exec(c, Init(SHELF), a + b + d);
  }
}
