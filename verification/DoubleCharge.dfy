/** When an order can be charged twice: only through a payment that was expired while the provider
    already had, or still could get, its charge. */
module DoubleCharge {
  import opened Domain
  import opened Tables
  import opened Payments
  import opened Protocol
  import opened Effects
  import opened Invariant
  import opened Runs
  import opened PaymentTheorems

  /** In every reachable state, of two payments of one order that both took money one is expired. */
  lemma TwoChargesMeanOneExpired(c: Config, s: State, i: nat, k: nat)
    requires Reachable(c, s) && i < k < |s.db.payments| && s.db.payments[i].order == s.db.payments[k].order
    requires TookMoney(s.journal, s.db.payments[i].key) && TookMoney(s.journal, s.db.payments[k].key)
    ensures s.db.payments[i].status == Expired || s.db.payments[k].status == Expired
  {
    ReachableInv(c, s);
    SnapshotFacts(s.db, s.journal, i);
    SnapshotFacts(s.db, s.journal, k);
    assert !(Live(s.db.payments[i].status) && Live(s.db.payments[k].status));
  }

  predicate InFlight(s: State, p: nat) {
    exists fid | fid in s.flights :: s.flights[fid].Charging? && s.flights[fid].payment == p
  }

  /** Nothing was taken under the payment's key and no request that could take it is on its way. */
  ghost predicate Clean(s: State, p: nat)
    requires p < |s.db.payments|
  {
    !InFlight(s, p) && !TookMoney(s.journal, s.db.payments[p].key)
  }

  lemma KeyKeeps(s: State, s': State, p: nat)
    requires Inv(s) && Kept(s, s') && p < |s.db.payments|
    ensures s'.db.payments[p].key == s.db.payments[p].key && s'.db.payments[p].key != ""
    ensures s.db.payments[p].status == Expired ==> s'.db.payments[p].status == Expired
  {
    assert PaymentGrows(s.db.payments[p], s'.db.payments[p]);
    assert PaymentRow(s.db, s.journal, p);
  }

  /** Only a charge request for this payment adds an entry under its key. */
  lemma ChargeNeedsRequest(c: Config, s: State, step: Step, p: nat)
    requires Inv(s) && p < |s.db.payments| && !InFlight(s, p)
    ensures FindCharge(Apply(c, s, step).journal.charges, s.db.payments[p].key)
         == FindCharge(s.journal.charges, s.db.payments[p].key)
  {
    if step.Move? && step.fid in s.flights && s.flights[step.fid].Charging? {
      ChargeOfAnother(s, step.fid, step.choice, p);
      ChargingMoves(c, s, step.fid, step.choice);
    } else {
      NoRequestNoCharge(c, s, step);
    }
  }

  lemma NoRequestNoCharge(c: Config, s: State, step: Step)
    requires step.Move? && step.fid in s.flights ==> !s.flights[step.fid].Charging?
    ensures Apply(c, s, step).journal.charges == s.journal.charges
  {
    if !step.Move? {
      OtherStepFrame(c, s, step);
    } else if step.fid in s.flights {
      MovePerforms(c, s, step.fid, step.choice);
    }
  }

  /** A request for another payment carries another key. */
  lemma RequestOfAnother(s: State, fid: nat, p: nat)
    requires Inv(s) && p < |s.db.payments| && !InFlight(s, p) && fid in s.flights && s.flights[fid].Charging?
    ensures s.flights[fid].key != s.db.payments[p].key && s.db.payments[p].key != ""
  {
    var f := s.flights[fid];
    assert FlightOk(s.db, s.journal, f);
    assert f.payment != p;
    assert PaymentRow(s.db, s.journal, p);
    FoundPayment(s.db.payments, p);
    FoundPayment(s.db.payments, f.payment);
  }

  lemma OtherKeyCharge(j: Journal, key: string, order: nat, amount: int, approve: bool, now: nat, other: string)
    requires key != other
    ensures FindCharge(ChargeCall(j, key, order, amount, approve, now).0.charges, other) == FindCharge(j.charges, other)
  {
    var more := j.charges + [Charge(key, order, amount, approve, now)];
    assert more[..|more| - 1] == j.charges;
  }

  lemma ChargeOfAnother(s: State, fid: nat, ch: Choice, p: nat)
    requires Inv(s) && p < |s.db.payments| && !InFlight(s, p) && fid in s.flights && s.flights[fid].Charging?
    ensures FindCharge(MoveCharge(s, fid, s.flights[fid], ch).journal.charges, s.db.payments[p].key)
         == FindCharge(s.journal.charges, s.db.payments[p].key)
  {
    var f, key := s.flights[fid], s.db.payments[p].key;
    RequestOfAnother(s, fid, p);
    OtherKeyCharge(s.journal, f.key, f.order, f.amount, ch.approve, s.clock, key);
  }

  /** Requests are only made for pending payments. */
  lemma RequestNeedsPending(c: Config, s: State, step: Step, p: nat)
    requires !InFlight(s, p)
    requires var s' := Apply(c, s, step); p < |s'.db.payments| && s'.db.payments[p].status == Expired
    ensures !InFlight(Apply(c, s, step), p)
  {
    var s' := Apply(c, s, step);
    if !step.Move? {
      OtherStepFrame(c, s, step);
    } else if step.fid in s.flights {
      MovePerforms(c, s, step.fid, step.choice);
      MoveRequestNeedsPending(s, s', step.fid, p);
    }
  }

  lemma MoveRequestNeedsPending(s: State, s': State, fid: nat, p: nat)
    requires fid in s.flights && MoveFrame(s, s', fid) && !InFlight(s, p)
    requires p < |s'.db.payments| && s'.db.payments[p].status == Expired
    ensures !InFlight(s', p)
  {
    forall g | g in s'.flights && g != fid ensures g in s.flights && s.flights[g] == s'.flights[g] {
      assert g in s'.flights - {fid} && g in s.flights - {fid};
      assert (s'.flights - {fid})[g] == s'.flights[g] && (s.flights - {fid})[g] == s.flights[g];
    }
  }

  lemma CleanStays(c: Config, s: State, step: Step, p: nat)
    requires Inv(s) && p < |s.db.payments| && s.db.payments[p].status == Expired && Clean(s, p)
    ensures var s' := Apply(c, s, step); Kept(s, s') && s'.db.payments[p].status == Expired && Clean(s', p)
  {
    var s' := Apply(c, s, step);
    StepKeeps(c, s, step);
    KeyKeeps(s, s', p);
    ChargeNeedsRequest(c, s, step, p);
    RequestNeedsPending(c, s, step, p);
    ChargeStays(s.journal.charges, s'.journal.charges, s.db.payments[p].key);
  }

  lemma {:induction false} CleanForever(c: Config, s: State, steps: seq<Step>, p: nat)
    requires Inv(s) && p < |s.db.payments| && s.db.payments[p].status == Expired && Clean(s, p)
    ensures var s' := Exec(c, s, steps);
      Kept(s, s') && s'.db.payments[p].status == Expired && Clean(s', p)
  {
    RunKeeps(c, s, steps);
    if steps != [] {
      var init := steps[..|steps| - 1];
      CleanForever(c, s, init, p);
      CleanStays(c, Exec(c, s, init), Last(steps), p);
    }
  }

  /** An expired payment can still end up charged exactly if it was charged already, or a request is
      on its way that the provider has not answered yet. */
  lemma ExpiredCanBeChargedIff(c: Config, s: State, p: nat)
    requires Reachable(c, s) && p < |s.db.payments| && s.db.payments[p].status == Expired
    ensures var key := s.db.payments[p].key;
      (exists steps :: TookMoney(Exec(c, s, steps).journal, key)) <==>
        TookMoney(s.journal, key) || (InFlight(s, p) && FindCharge(s.journal.charges, key).None?)
  {
    ReachableInv(c, s);
    var key := s.db.payments[p].key;
    if TookMoney(s.journal, key) {
      assert Exec(c, s, []) == s;
    } else if InFlight(s, p) && FindCharge(s.journal.charges, key).None? {
      ChargeLands(c, s, p);
    } else if steps :| TookMoney(Exec(c, s, steps).journal, key) {
      RunKeeps(c, s, steps);
      if FindCharge(s.journal.charges, key).Some? {
        ChargeStays(s.journal.charges, Exec(c, s, steps).journal.charges, key);
      } else {
        CleanForever(c, s, steps, p);
        KeyKeeps(s, Exec(c, s, steps), p);
      }
    }
  }

  lemma ChargeLands(c: Config, s: State, p: nat)
    requires Inv(s) && p < |s.db.payments| && InFlight(s, p)
    requires FindCharge(s.journal.charges, s.db.payments[p].key).None?
    ensures exists steps :: TookMoney(Exec(c, s, steps).journal, s.db.payments[p].key)
  {
    var fid :| fid in s.flights && s.flights[fid].Charging? && s.flights[fid].payment == p;
    var up, land := SetDown(false), Move(fid, Choice(true, false, false, 0));
    TwoSteps(c, s, up, land);
    StepKeeps(c, s, up);
    var s1 := s.(journal := s.journal.(down := false));
    UpAgain(c, s);
    LandedCharge(s1, fid, land.choice);
    ChargingMoves(c, s1, fid, land.choice);
    assert TookMoney(Exec(c, s, [up, land]).journal, s.db.payments[p].key);
  }

  lemma UpAgain(c: Config, s: State)
    ensures Apply(c, s, SetDown(false)) == s.(journal := s.journal.(down := false))
  {
  }

  lemma ChargingMoves(c: Config, s: State, fid: nat, ch: Choice)
    requires fid in s.flights && s.flights[fid].Charging?
    ensures Apply(c, s, Move(fid, ch)) == MoveCharge(s, fid, s.flights[fid], ch)
  {
  }

  lemma TwoSteps(c: Config, s: State, a: Step, b: Step)
    ensures Exec(c, s, [a, b]) == Apply(c, Apply(c, s, a), b)
  {
    assert [a, b][..1] == [a] && [a][..0] == [];
    assert Exec(c, s, [a]) == Apply(c, s, a);
  }

  lemma LandedCharge(s: State, fid: nat, ch: Choice)
    requires Inv(s) && fid in s.flights && s.flights[fid].Charging? && !s.journal.down && ch.approve
    requires FindCharge(s.journal.charges, s.flights[fid].key).None?
    ensures s.flights[fid].payment < |s.db.payments| && s.flights[fid].key == s.db.payments[s.flights[fid].payment].key
    ensures TookMoney(MoveCharge(s, fid, s.flights[fid], ch).journal, s.flights[fid].key)
  {
    var f := s.flights[fid];
    assert FlightOk(s.db, s.journal, f);
    MoveChargeKeeps(s, fid, ch);
    var charges := MoveCharge(s, fid, f, ch).journal.charges;
    assert charges[|s.journal.charges|].key == f.key;
    FoundCharge(charges, |s.journal.charges|);
  }

  // ----- the order

  ghost predicate ChargedTwice(s: State, o: nat) {
    exists i, k :: && 0 <= i < k < |s.db.payments| && s.db.payments[i].order == o && s.db.payments[k].order == o
                   && TookMoney(s.journal, s.db.payments[i].key) && TookMoney(s.journal, s.db.payments[k].key)
  }

  /** An expired payment of the order that was charged, or whose request the provider has still to answer. */
  ghost predicate ChargesAnyway(s: State, o: nat, q: nat) {
    && q < |s.db.payments| && s.db.payments[q].order == o && s.db.payments[q].status == Expired
    && var key := s.db.payments[q].key;
       TookMoney(s.journal, key) || (InFlight(s, q) && FindCharge(s.journal.charges, key).None?)
  }

  /** The order is not open, and no payment from row n on is for it. */
  ghost predicate Closed(db: Db, o: nat, n: nat) {
    && o < |db.orders| && db.orders[o].status != Open && n <= |db.payments|
    && forall p | n <= p < |db.payments| :: db.payments[p].order != o
  }

  lemma EffectKeepsClosed(db: Db, db': Db, e: Effect, now: nat, o: nat, n: nat)
    requires Closed(db, o, n) && Performs(db, db', e, now)
    requires forall p | 0 <= p < |db.payments| && p < |db'.payments| :: db'.payments[p].order == db.payments[p].order
    ensures Closed(db', o, n)
  {
  }

  lemma StepKeepsClosed(c: Config, s: State, step: Step, o: nat, n: nat)
    requires Inv(s) && Closed(s.db, o, n)
    ensures Closed(Apply(c, s, step).db, o, n)
  {
    var s' := Apply(c, s, step);
    StepKeeps(c, s, step);
    forall p | 0 <= p < |s.db.payments| ensures s'.db.payments[p].order == s.db.payments[p].order {
      assert PaymentGrows(s.db.payments[p], s'.db.payments[p]);
    }
    if step.Move? {
      if step.fid in s.flights {
        MovePerforms(c, s, step.fid, step.choice);
        EffectKeepsClosed(s.db, s'.db, EffectOf(s.flights[step.fid], step.choice), s.clock, o, n);
      }
    } else {
      OtherStepFrame(c, s, step);
      OrderStaysClosed(c, s, step, o);
    }
  }

  lemma OrderStaysClosed(c: Config, s: State, step: Step, o: nat)
    requires !step.Move? && o < |s.db.orders| && s.db.orders[o].status != Open
    ensures var orders := Apply(c, s, step).db.orders; o < |orders| && orders[o].status != Open
  {
  }

  lemma {:induction false} RunKeepsClosed(c: Config, s: State, steps: seq<Step>, o: nat, n: nat)
    requires Inv(s) && Closed(s.db, o, n)
    ensures Closed(Exec(c, s, steps).db, o, n)
  {
    if steps != [] {
      var init := steps[..|steps| - 1];
      RunKeepsClosed(c, s, init, o, n);
      RunKeeps(c, s, init);
      StepKeepsClosed(c, Exec(c, s, init), Last(steps), o, n);
    }
  }

  /** Whatever happens to a paid order later, an expired payment of it that took money was there, and expired,
      already. */
  lemma ExpiredWasThere(c: Config, s: State, steps: seq<Step>, o: nat, q: nat)
    requires Inv(s) && o < |s.db.orders| && s.db.orders[o].status == Paid
    requires var s' := Exec(c, s, steps);
      && q < |s'.db.payments| && s'.db.payments[q].order == o && s'.db.payments[q].status == Expired
    ensures q < |s.db.payments| && s.db.payments[q].order == o && s.db.payments[q].status == Expired
    ensures Exec(c, s, steps).db.payments[q].key == s.db.payments[q].key
  {
    RunKeeps(c, s, steps);
    RunKeepsClosed(c, s, steps, o, |s.db.payments|);
    assert PaymentGrows(s.db.payments[q], Exec(c, s, steps).db.payments[q]);
    assert PaymentRow(s.db, s.journal, q);
  }

  lemma PaidTookMoney(s: State, o: nat) returns (p: nat)
    requires Inv(s) && o < |s.db.orders| && s.db.orders[o].status == Paid
    ensures p < |s.db.payments| && s.db.payments[p].order == o && s.db.payments[p].status == Succeeded
    ensures TookMoney(s.journal, s.db.payments[p].key)
  {
    assert OrderRow(s.db, o);
    p := FindInStatus(s.db.payments, o, Succeeded).value;
    SnapshotFacts(s.db, s.journal, p);
  }

  lemma SecondChargeLands(c: Config, s: State, o: nat, q: nat) returns (steps: seq<Step>)
    requires Reachable(c, s) && o < |s.db.orders| && s.db.orders[o].status == Paid && ChargesAnyway(s, o, q)
    ensures ChargedTwice(Exec(c, s, steps), o)
  {
    ReachableInv(c, s);
    var p := PaidTookMoney(s, o);
    ExpiredCanBeChargedIff(c, s, q);
    steps :| TookMoney(Exec(c, s, steps).journal, s.db.payments[q].key);
    RunKeeps(c, s, steps);
    BothHaveTaken(s, Exec(c, s, steps), o, p, q);
  }

  lemma BothHaveTaken(s: State, s': State, o: nat, p: nat, q: nat)
    requires Inv(s) && Kept(s, s') && p < |s.db.payments| && q < |s.db.payments| && p != q
    requires s.db.payments[p].order == o && s.db.payments[q].order == o
    requires TookMoney(s.journal, s.db.payments[p].key) && TookMoney(s'.journal, s.db.payments[q].key)
    ensures ChargedTwice(s', o)
  {
    assert PaymentGrows(s.db.payments[p], s'.db.payments[p]) && PaymentGrows(s.db.payments[q], s'.db.payments[q]);
    ChargeStays(s.journal.charges, s'.journal.charges, s.db.payments[p].key);
    BothTook(s', o, if p < q then p else q, if p < q then q else p);
  }

  lemma BothTook(s: State, o: nat, i: nat, k: nat)
    requires i < k < |s.db.payments| && s.db.payments[i].order == o && s.db.payments[k].order == o
    requires TookMoney(s.journal, s.db.payments[i].key) && TookMoney(s.journal, s.db.payments[k].key)
    ensures ChargedTwice(s, o)
  {
  }

  lemma SecondChargeNeeds(c: Config, s: State, o: nat, steps: seq<Step>) returns (q: nat)
    requires Reachable(c, s) && o < |s.db.orders| && s.db.orders[o].status == Paid
    requires ChargedTwice(Exec(c, s, steps), o)
    ensures ChargesAnyway(s, o, q)
  {
    var s' := Exec(c, s, steps);
    var i, k :| && 0 <= i < k < |s'.db.payments| && s'.db.payments[i].order == o && s'.db.payments[k].order == o
                && TookMoney(s'.journal, s'.db.payments[i].key) && TookMoney(s'.journal, s'.db.payments[k].key);
    ReachableOn(c, s, steps);
    TwoChargesMeanOneExpired(c, s', i, k);
    q := if s'.db.payments[i].status == Expired then i else k;
    ReachableInv(c, s);
    ExpiredWasThere(c, s, steps, o, q);
    ExpiredCanBeChargedIff(c, s, q);
  }

  lemma ReachableOn(c: Config, s: State, steps: seq<Step>)
    requires Reachable(c, s)
    ensures Reachable(c, Exec(c, s, steps))
  {
    var products: map<int, Product>, before :|
      (forall p | p in products :: products[p].stock >= 0) && s == Exec(c, Init(products), before);
    ExecAppend(c, Init(products), before, steps);
  }

  /** A paid order can come to be charged twice, at once or in any run from here, if and only if an expired payment of
      it took money or has a request under way that the provider has not answered. */
  lemma PaidOrderChargedTwiceIff(c: Config, s: State, o: nat)
    requires Reachable(c, s) && o < |s.db.orders| && s.db.orders[o].status == Paid
    ensures (exists steps :: ChargedTwice(Exec(c, s, steps), o)) <==> (exists q: nat :: ChargesAnyway(s, o, q))
  {
    if q: nat :| ChargesAnyway(s, o, q) {
      var steps := SecondChargeLands(c, s, o, q);
      assert exists steps :: ChargedTwice(Exec(c, s, steps), o);
    }
    forall steps | ChargedTwice(Exec(c, s, steps), o) ensures exists q: nat :: ChargesAnyway(s, o, q) {
      var q := SecondChargeNeeds(c, s, o, steps);
    }
  }

  // ----- runs in which no payment is expired too early

  ghost predicate ExpiresCleanly(s: State, s': State) {
    forall p | 0 <= p < |s.db.payments| && p < |s'.db.payments| ::
      s.db.payments[p].status == Pending && s'.db.payments[p].status == Expired ==> Clean(s', p)
  }

  ghost predicate CleanRun(c: Config, s: State, steps: seq<Step>) {
    forall n | 0 <= n < |steps| :: ExpiresCleanly(Exec(c, s, steps[..n]), Exec(c, s, steps[..n + 1]))
  }

  ghost predicate ExpiredAreClean(s: State) {
    forall p | 0 <= p < |s.db.payments| && s.db.payments[p].status == Expired :: Clean(s, p)
  }

  lemma {:induction false} CleanRunKeepsExpiredClean(c: Config, s: State, steps: seq<Step>)
    requires Inv(s) && ExpiredAreClean(s) && CleanRun(c, s, steps)
    ensures ExpiredAreClean(Exec(c, s, steps))
  {
    if steps != [] {
      var n := |steps| - 1;
      var init := steps[..n];
      forall k | 0 <= k < |init| ensures ExpiresCleanly(Exec(c, s, init[..k]), Exec(c, s, init[..k + 1])) {
        assert init[..k] == steps[..k] && init[..k + 1] == steps[..k + 1];
      }
      CleanRunKeepsExpiredClean(c, s, init);
      RunKeeps(c, s, init);
      var m := Exec(c, s, init);
      var s' := Exec(c, s, steps);
      assert steps[..n + 1] == steps;
      assert ExpiresCleanly(m, s');
      StepKeeps(c, m, Last(steps));
      forall p | 0 <= p < |s'.db.payments| && s'.db.payments[p].status == Expired ensures Clean(s', p) {
        if p < |m.db.payments| {
          assert PaymentGrows(m.db.payments[p], s'.db.payments[p]);
          if m.db.payments[p].status == Expired { CleanStays(c, m, Last(steps), p); }
        } else {
          NewPaymentIsPending(c, m, Last(steps), p);
        }
      }
    }
  }

  lemma NewPaymentIsPending(c: Config, s: State, step: Step, p: nat)
    requires |s.db.payments| <= p < |Apply(c, s, step).db.payments|
    ensures Apply(c, s, step).db.payments[p].status == Pending
  {
    if !step.Move? {
      OtherStepFrame(c, s, step);
    } else if step.fid in s.flights {
      MovePerforms(c, s, step.fid, step.choice);
    }
  }

  /** However many retries, new keys, workers and crashes: if payments are only expired when nothing
      was taken and nothing is on its way, no order is ever charged twice. */
  lemma CleanRunNeverChargesTwice(c: Config, products: map<int, Product>, steps: seq<Step>, i: nat, k: nat)
    requires forall p | p in products :: products[p].stock >= 0
    requires CleanRun(c, Init(products), steps)
    requires var s := Exec(c, Init(products), steps);
      i < k < |s.db.payments| && s.db.payments[i].order == s.db.payments[k].order
    ensures var s := Exec(c, Init(products), steps);
      !(TookMoney(s.journal, s.db.payments[i].key) && TookMoney(s.journal, s.db.payments[k].key))
  {
    var s := Exec(c, Init(products), steps);
    CleanRunKeepsExpiredClean(c, Init(products), steps);
    assert Reachable(c, s);
    if TookMoney(s.journal, s.db.payments[i].key) && TookMoney(s.journal, s.db.payments[k].key) {
      TwoChargesMeanOneExpired(c, s, i, k);
    }
  }
}
