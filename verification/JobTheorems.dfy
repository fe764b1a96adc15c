/** A second run, and a run over what the protocol can produce. */
module JobTheorems {
  import opened Domain
  import opened Tables
  import opened Payments
  import opened Reconciliation
  import opened Protocol
  import opened Invariant
  import opened Runs
  import opened PaymentTheorems
  import opened EventLog
  import opened Timing
  import opened JobSpec
  import opened Job

  lemma SameTables(db: Db, w: Window, keys: set<string>, a: Db, b: Db)
    requires Treated(db, w, keys, a) && Treated(db, w, keys, b)
    ensures a.(events := []) == b.(events := [])
    ensures forall p | 0 <= p < |db.payments| :: EventsOf(a.events, p) == EventsOf(b.events, p)
  {
    assert a.payments == b.payments && a.refunds == b.refunds && a.orders == b.orders;
  }

  ghost predicate SameReport(a: Report, b: Report) {
    && a.checked == b.checked && a.matched == b.matched && a.autoFixed == b.autoFixed && a.manual == b.manual
    && forall k | k != Matched :: CountOf(a.byKind, k) == CountOf(b.byKind, k)
  }

  lemma SameOutcomesSameReport(m: map<string, Outcome>, a: Report, b: Report)
    requires Reports(a, m) && Reports(b, m)
    ensures SameReport(a, b)
  {
    forall k: Kind | k != Matched ensures CountOf(a.byKind, k) == CountOf(b.byKind, k) {
      assert k == MissingAtProvider || k == MissingAtOurs || k == AmountMismatch || k == StatusMismatch;
    }
  }

  /** Two runs of the loop over the same keys in different orders give the same rows, the same event log
      of every payment, and the same counts. */
  lemma {:induction false} AnyTwoOrdersAgree(db: Db, w: Window, a: seq<string>, b: seq<string>)
    requires Schema(db) && Distinct(a) && Distinct(b) && KeySet(a) == KeySet(b)
    ensures var (tables, report) := Fold(db, w, a); var (tables', report') := Fold(db, w, b);
      && tables.(events := []) == tables'.(events := [])
      && (forall p | 0 <= p < |db.payments| :: EventsOf(tables.events, p) == EventsOf(tables'.events, p))
      && SameReport(report, report')
  {
    AnyOrderSameReport(db, w, a);
    AnyOrderSameReport(db, w, b);
    SameOutcomesSameReport(OutcomesOf(db, w, KeySet(a)), Fold(db, w, a).1, Fold(db, w, b).1);
    TwoOrdersSameTables(db, w, a, b);
  }

  lemma TwoOrdersSameTables(db: Db, w: Window, a: seq<string>, b: seq<string>)
    requires Schema(db) && Distinct(a) && Distinct(b) && KeySet(a) == KeySet(b)
    ensures var (tables, tables') := (Fold(db, w, a).0, Fold(db, w, b).0);
      && tables.(events := []) == tables'.(events := [])
      && forall p | 0 <= p < |db.payments| :: EventsOf(tables.events, p) == EventsOf(tables'.events, p)
  {
    AnyOrderSameTables(db, w, a);
    AnyOrderSameTables(db, w, b);
    SameTables(db, w, KeySet(a), Fold(db, w, a).0, Fold(db, w, b).0);
  }

  /** Running again over the same period with nothing else happening fixes nothing, changes no row,
      and leaves the same keys of each kind to a person. */
  lemma {:induction false} SecondRunFixesNothing(db: Db, w: Window, db': Db, db'': Db, kind: Kind)
    requires Schema(db) && Treated(db, w, Keys(db, w), db') && Treated(db', w, Keys(db', w), db'')
    ensures Keys(db', w) == Keys(db, w)
    ensures KeysWith(OutcomesOf(db', w, Keys(db', w)), Fixed) == {}
    ensures KeysWith(OutcomesOf(db', w, Keys(db', w)), Left(kind)) ==
        KeysWith(OutcomesOf(db, w, Keys(db, w)), Left(kind))
    ensures db''.payments == db'.payments && db''.refunds == db'.refunds && db''.orders == db'.orders
  {
    SecondOutcomes(db, w, db');
    var keys := Keys(db, w);
    forall k | k in keys ensures OutcomeOf(db', w, k) == Left(kind) <==> OutcomeOf(db, w, k) == Left(kind) {}
    NoRepairsNoChange(db', w, db'');
  }

  lemma TreatedKeepsSchema(db: Db, w: Window, keys: set<string>, db': Db)
    requires Schema(db) && Treated(db, w, keys, db')
    ensures Schema(db')
  {
    forall p | 0 <= p < |db.payments|
      ensures db'.payments[p].order == db.payments[p].order && db'.payments[p].key == db.payments[p].key
      ensures Active(db'.payments[p].status) ==> Active(db.payments[p].status)
    {
      assert db'.payments[p] == NewPayment(db, w, keys, p);
      if RepairIn(db, w, keys, p).Some? { RepairFacts(db, w, db.payments[p].key); }
    }
    forall i | 0 <= i < |db.refunds| ensures db'.refunds[i].payment == db.refunds[i].payment {
      assert db'.refunds[i] == NewRefund(db, w, keys, i);
    }
  }

  lemma QuietReport(m: map<string, Outcome>, m': map<string, Outcome>, a: Report, b: Report)
    requires Reports(a, m) && Reports(b, m') && KeysWith(m', Fixed) == {}
    requires forall kind: Kind :: KeysWith(m', Left(kind)) == KeysWith(m, Left(kind))
    ensures b.autoFixed == 0 && b.manual == a.manual
    ensures forall k | k != Matched :: CountOf(b.byKind, k) == CountOf(a.byKind, k)
  {
    forall k: Kind | k != Matched ensures CountOf(b.byKind, k) == CountOf(a.byKind, k) {
      assert k == MissingAtProvider || k == MissingAtOurs || k == AmountMismatch || k == StatusMismatch;
    }
  }

  /** The same of the loop itself: run it over the keys of the period in any order, then again in any other
      order, and the second report has no fixes and the same manual counts, the tables staying as they are. */
  lemma {:induction false} SecondReportIsQuiet(db: Db, w: Window, first: seq<string>, second: seq<string>)
    requires Schema(db) && Distinct(first) && Distinct(second)
    requires KeySet(first) == Keys(db, w) && KeySet(second) == Keys(Fold(db, w, first).0, w)
    ensures var (db', a) := Fold(db, w, first); var (db'', b) := Fold(db', w, second);
      && b.autoFixed == 0 && b.manual == a.manual
      && (forall k | k != Matched :: CountOf(b.byKind, k) == CountOf(a.byKind, k))
      && db''.payments == db'.payments && db''.refunds == db'.refunds && db''.orders == db'.orders
  {
    var db' := Fold(db, w, first).0;
    BothTreated(db, w, first, second);
    AnyOrderSameReport(db, w, first);
    AnyOrderSameReport(db', w, second);
    QuietReport(OutcomesOf(db, w, Keys(db, w)), OutcomesOf(db', w, Keys(db', w)), Fold(db, w, first).1,
                Fold(db', w, second).1);
  }

  lemma BothTreated(db: Db, w: Window, first: seq<string>, second: seq<string>)
    requires Schema(db) && Distinct(first) && Distinct(second)
    requires KeySet(first) == Keys(db, w) && KeySet(second) == Keys(Fold(db, w, first).0, w)
    ensures var db' := Fold(db, w, first).0; var db'' := Fold(db', w, second).0;
      && Schema(db')
      && KeysWith(OutcomesOf(db', w, Keys(db', w)), Fixed) == {}
      && (forall kind: Kind ::
            KeysWith(OutcomesOf(db', w, Keys(db', w)), Left(kind))
            == KeysWith(OutcomesOf(db, w, Keys(db, w)), Left(kind)))
      && db''.payments == db'.payments && db''.refunds == db'.refunds && db''.orders == db'.orders
  {
    var db' := Fold(db, w, first).0;
    AnyOrderSameTables(db, w, first);
    TreatedKeepsSchema(db, w, Keys(db, w), db');
    AnyOrderSameTables(db', w, second);
    forall kind: Kind
      ensures KeysWith(OutcomesOf(db', w, Keys(db', w)), Left(kind)) ==
          KeysWith(OutcomesOf(db, w, Keys(db, w)), Left(kind))
    {
      SecondRunFixesNothing(db, w, db', Fold(db', w, second).0, kind);
    }
    SecondRunFixesNothing(db, w, db', Fold(db', w, second).0, Matched);
  }

  lemma SecondOutcomes(db: Db, w: Window, db': Db)
    requires Schema(db) && Treated(db, w, Keys(db, w), db')
    ensures Keys(db', w) == Keys(db, w)
    ensures forall k | k in Keys(db, w) ::
      OutcomeOf(db', w, k) == (if OutcomeOf(db, w, k) == Fixed then Fine else OutcomeOf(db, w, k))
  {
    SameLookups(db, w, Keys(db, w), db', "");
    forall k | k in Keys(db, w)
      ensures OutcomeOf(db', w, k) == (if OutcomeOf(db, w, k) == Fixed then Fine else OutcomeOf(db, w, k))
    {
      SecondLook(db, w, db', k);
    }
  }

  lemma NoRepairsNoChange(db: Db, w: Window, db': Db)
    requires Treated(db, w, Keys(db, w), db') && forall k | k in Keys(db, w) :: OutcomeOf(db, w, k) != Fixed
    ensures db'.payments == db.payments && db'.refunds == db.refunds && db'.orders == db.orders
  {
    forall p | 0 <= p < |db.payments| ensures RepairIn(db, w, Keys(db, w), p).None? {
      if db.payments[p].key in Keys(db, w) { assert OutcomeOf(db, w, db.payments[p].key) != Fixed; }
    }
    forall o | 0 <= o < |db.orders| ensures !BecomesPaid(db, w, Keys(db, w), o) {}
    assert forall p | 0 <= p < |db.payments| :: db'.payments[p] == db.payments[p];
    assert forall o | 0 <= o < |db.orders| :: db'.orders[o] == db.orders[o];
    forall i | 0 <= i < |db.refunds| ensures db'.refunds[i] == db.refunds[i] {
      assert db'.refunds[i] == NewRefund(db, w, Keys(db, w), i);
    }
  }

  // ----- what a run over protocol states reports

  /** The job lists the provider's charges in one state and reads our payments in a later one, for any period
      and margin. Exactly these keys go to a person: expired here and listed as charged; money taken here
      and nothing listed; refunded here and listed as charged. Every other proposed fix goes through if its payment
      has not moved by its turn and no statement fails: `FixReportsExactly`. */
  lemma RunReportsExactly(c: Config, s: State, steps: seq<Step>, w: Window, key: string)
    requires Reachable(c, s) && w.j == s.journal && key in Keys(Exec(c, s, steps).db, w)
    ensures var db := Exec(c, s, steps).db;
      var p, t, o := FindPayment(db.payments, key), TheirsIn(w, key), OutcomeOf(db, w, key);
      && p.Some?
      && var status := db.payments[p.value].status;
      && (o.Left? <==>
            || (status == Expired && t.Some? && t.value.status == Charged)
            || ((status == Succeeded || status == Refunded) && t.None?)
            || (status == Refunded && t.Some? && t.value.status == Charged))
      && (o == Left(MissingAtProvider) <==> (status == Succeeded || status == Refunded) && t.None?)
      && (o.Left? ==> o.kind == StatusMismatch || o.kind == MissingAtProvider)
  {
    ReachableInv(c, s);
    RunKeeps(c, s, steps);
    var s' := Exec(c, s, steps);
    LookedUpLater(s, s', w, key);
    if TheirsIn(w, key).Some? { ListedFacts(s, s', w, key); }
    LateOutcome(s'.db, s'.journal, w, key);
  }

  /** The fix begins with a transition of the payment. */
  predicate MovesPayment(a: Action, ours: Ours) {
    a != FixRefundSucceeded || ours.status == Succeeded
  }

  /** A statement that the fix would make is not heard to work. */
  predicate StatementMissing(a: Action, ours: Ours, fw: FixWeather) {
    (MovesPayment(a, ours) && fw.move != Works) || (a == FixRefundSucceeded && fw.close != Works)
  }

  /** The list is made in one state, our payments are read in a later one, and this key's turn comes in a third,
      with anything happening in between. The key goes to a person exactly if the two reads say so already, or if
      they promise a fix and by now the payment has another status or a statement of the fix fails. */
  lemma FixReportsExactly(c: Config, s: State, s1: State, s2: State, w: Window, key: string, fw: FixWeather)
    requires Reachable(c, s) && Later(c, s, s1) && Later(c, s1, s2) && w.j == s.journal && key in Keys(s1.db, w)
    ensures FindPayment(s1.db.payments, key).Some? && OursIn(s1.db, w, key).Some?
    ensures ComesOutAs(s1.db, s2.db, w, key, fw)
  {
    var steps :| s1 == Exec(c, s, steps);
    ReachableInv(c, s);
    RunKeeps(c, s, steps);
    LookedUpLater(s, s1, w, key);
    var more :| s2 == Exec(c, s1, more);
    RunKeeps(c, s1, more);
    TreatedLater(s1, s2, w, key, fw);
  }

  /** Read in `db`, treated in `now`: the key goes to a person exactly if the reads leave it to one, or they promise a
      fix and its payment has moved since, or a statement of the fix fails. */
  ghost predicate ToAPersonExactly(db: Db, now: Db, w: Window, key: string, fw: FixWeather, o: Outcome)
    requires FindPayment(db.payments, key).Some? && OursIn(db, w, key).Some?
  {
    var p, read := FindPayment(db.payments, key).value, OutcomeOf(db, w, key);
    && p < |now.payments|
    && (o.Left? <==>
          || read.Left?
          || (read == Fixed && now.payments[p].status != db.payments[p].status)
          || (read == Fixed && StatementMissing(FindingOf(db, w, key).action, OursIn(db, w, key).value, fw)))
  }

  /** And a matched key stays matched, and no kind changes. */
  ghost predicate ComesOutAs(db: Db, now: Db, w: Window, key: string, fw: FixWeather)
    requires FindPayment(db.payments, key).Some? && OursIn(db, w, key).Some?
  {
    var o := TreatUnder(now, OursIn(db, w, key), TheirsIn(w, key), fw).1;
    && ToAPersonExactly(db, now, w, key, fw, o)
    && (o.Fine? <==> OutcomeOf(db, w, key).Fine?)
    && (o.Left? ==> o.kind == FindingOf(db, w, key).kind)
  }

  /** The turn of a key comes later than the reads. */
  lemma TreatedLater(s1: State, s2: State, w: Window, key: string, fw: FixWeather)
    requires Inv(s1) && Inv(s2) && Grows(s1.db, s1.journal, s2.db, s2.journal)
    requires FindPayment(s1.db.payments, key).Some? && OursIn(s1.db, w, key) == OursFor(s1.db, key)
    ensures ComesOutAs(s1.db, s2.db, w, key, fw)
  {
    var p := FindPayment(s1.db.payments, key).value;
    OpenWhilePending(s1.db, s1.journal, p);
    if RepairOf(s1.db, w, key).Some? { FixLater(s1, s2, w, key, fw); }
  }

  lemma FixLater(s1: State, s2: State, w: Window, key: string, fw: FixWeather)
    requires Inv(s1) && Inv(s2) && Grows(s1.db, s1.journal, s2.db, s2.journal) && RepairOf(s1.db, w, key).Some?
    ensures var r := RepairOf(s1.db, w, key).value; var p := r.ours.payment;
      && p < |s1.db.payments| <= |s2.db.payments| && IsFix(r.action)
      && (FixUnder(s2.db, r.action, r.ours, r.theirs, fw).1 <==>
            s2.db.payments[p].status == s1.db.payments[p].status && !StatementMissing(r.action, r.ours, fw))
  {
    RepairFacts(s1.db, w, key);
    var r := RepairOf(s1.db, w, key).value;
    assert PaymentGrows(s1.db.payments[r.ours.payment], s2.db.payments[r.ours.payment]);
    OpenWhilePending(s2.db, s2.journal, r.ours.payment);
  }

  lemma LateOutcome(db: Db, j: Journal, w: Window, key: string)
    requires TablesInv(db, j) && FindPayment(db.payments, key).Some? && OursIn(db, w, key) == OursFor(db, key)
    requires var t := TheirsIn(w, key);
      t.Some? ==> FindCharge(j.charges, key) == Some(t.value.charge) && TheirsOk(j, key, t.value)
    ensures var t, o := TheirsIn(w, key), OutcomeOf(db, w, key);
      var status := db.payments[FindPayment(db.payments, key).value].status;
      && (o.Left? <==>
            || (status == Expired && t.Some? && t.value.status == Charged)
            || ((status == Succeeded || status == Refunded) && t.None?)
            || (status == Refunded && t.Some? && t.value.status == Charged))
      && (o == Left(MissingAtProvider) <==> (status == Succeeded || status == Refunded) && t.None?)
      && (o.Left? ==> o.kind == StatusMismatch || o.kind == MissingAtProvider)
  {
    var p := FindPayment(db.payments, key).value;
    LateCases(db, j, p, TheirsIn(w, key));
    MissingCase(db, j, p, TheirsIn(w, key));
    OpenWhilePending(db, j, p);
  }

  lemma MissingCase(db: Db, j: Journal, p: nat, listed: Option<Theirs>)
    requires TablesInv(db, j) && p < |db.payments|
    ensures var f := Classify(Some(OursOf(db, p)), listed); var status := db.payments[p].status;
      f.kind == MissingAtProvider <==> (status == Succeeded || status == Refunded) && listed.None?
  {
  }

  /** What was listed earlier is still the provider's entry for the key. */
  lemma ListedFacts(s: State, s': State, w: Window, key: string)
    requires Inv(s) && Inv(s') && Grows(s.db, s.journal, s'.db, s'.journal) && w.j == s.journal
    requires TheirsIn(w, key).Some?
    ensures FindCharge(s'.journal.charges, key) == Some(TheirsIn(w, key).value.charge)
    ensures TheirsOk(s'.journal, key, TheirsIn(w, key).value)
  {
    var t := FindCharge(s.journal.charges, key).value;
    assert ChargeRow(s.db, s.journal.charges[t]);
    ChargeStays(s.journal.charges, s'.journal.charges, key);
    TheirsStays(s.journal, s'.journal, key, TheirsOf(s.journal, t));
  }

  lemma LookedUpLater(s: State, s': State, w: Window, key: string)
    requires Inv(s) && Inv(s') && Grows(s.db, s.journal, s'.db, s'.journal) && w.j == s.journal && key in Keys(s'.db, w)
    ensures key != "" && FindPayment(s'.db.payments, key).Some? && OursIn(s'.db, w, key) == OursFor(s'.db, key)
  {
    if key in ProviderKeys(w) {
      var i :| 0 <= i < |w.j.charges| && w.j.charges[i].key == key && w.from <= w.j.charges[i].at < w.to;
      assert ChargeRow(s.db, w.j.charges[i]);
      PaymentStays(s.db.payments, s'.db.payments, key);
    } else {
      var i :| 0 <= i < |s'.db.payments| && InScope(s'.db.payments[i], w) && s'.db.payments[i].key == key;
      FoundPayment(s'.db.payments, i);
    }
  }

  /** A key of the period is charged no earlier than the period, so its charge is listed exactly if it was
      made before the end of the margin. */
  lemma ListedIff(c: Config, s: State, steps: seq<Step>, w: Window, key: string)
    requires Reachable(c, s) && w.j == s.journal && key in Keys(Exec(c, s, steps).db, w) && w.margin >= 0
    ensures var t := FindCharge(s.journal.charges, key);
      TheirsIn(w, key).Some? <==> t.Some? && s.journal.charges[t.value].at < w.to + w.margin
  {
    var t := FindCharge(s.journal.charges, key);
    if t.Some? {
      ReachableInv(c, s);
      ReachableTimes(c, s);
      RunKeeps(c, s, steps);
      NotBeforeThePeriod(s, Exec(c, s, steps), w, key, t.value);
    }
  }

  lemma NotBeforeThePeriod(s: State, s': State, w: Window, key: string, t: nat)
    requires Inv(s) && TimesOk(s) && Inv(s') && Grows(s.db, s.journal, s'.db, s'.journal) && w.j == s.journal
    requires key in Keys(s'.db, w) && FindCharge(s.journal.charges, key) == Some(t)
    ensures w.from <= s.journal.charges[t].at
  {
    if key in ProviderKeys(w) {
      var i :| 0 <= i < |w.j.charges| && w.j.charges[i].key == key && w.from <= w.j.charges[i].at < w.to;
      FoundCharge(w.j.charges, i);
    } else {
      var i :| 0 <= i < |s'.db.payments| && InScope(s'.db.payments[i], w) && s'.db.payments[i].key == key;
      FoundPayment(s'.db.payments, i);
      assert ChargeRow(s.db, s.journal.charges[t]);
      var q := FindPayment(s.db.payments, key).value;
      PaymentStays(s.db.payments, s'.db.payments, key);
      assert PaymentGrows(s.db.payments[q], s'.db.payments[q]);
    }
  }

  /** A list made before the margin after the period has run out, as both schedulers make it, misses no
      charge of a key of the period. */
  lemma TimelyListIsComplete(c: Config, s: State, steps: seq<Step>, w: Window, key: string)
    requires Reachable(c, s) && w.j == s.journal && key in Keys(Exec(c, s, steps).db, w)
    requires w.margin >= 0 && s.clock < w.to + w.margin
    ensures TheirsIn(w, key) == TheirsFor(s.journal, key)
  {
    ListedIff(c, s, steps, w, key);
    ReachableTimes(c, s);
  }

  /** A run on one reachable state, listed before the margin has run out, with nothing happening before its fixes:
      every proposed fix goes through, and a key is left to a person exactly if it is expired here and charged
      there. */
  lemma RunSettlesReachableState(c: Config, s: State, w: Window, key: string)
    requires Reachable(c, s) && w.j == s.journal && key in Keys(s.db, w)
    requires w.margin >= 0 && s.clock < w.to + w.margin
    ensures var p := FindPayment(s.db.payments, key); var o := OutcomeOf(s.db, w, key);
      && p.Some?
      && (o.Left? <==> s.db.payments[p.value].status == Expired && TookMoney(s.journal, key))
      && (o.Left? ==> o.kind == StatusMismatch)
  {
    assert Exec(c, s, []) == s;
    RunReportsExactly(c, s, [], w, key);
    TimelyListIsComplete(c, s, [], w, key);
    ReachableInv(c, s);
    SnapshotFacts(s.db, s.journal, FindPayment(s.db.payments, key).value);
  }

  lemma OpenWhilePending(db: Db, j: Journal, p: nat)
    requires TablesInv(db, j) && p < |db.payments|
    ensures db.payments[p].order < |db.orders|
    ensures db.payments[p].status == Pending ==> db.orders[db.payments[p].order].status == Open
  {
    assert PaymentRow(db, j, p);
  }
}
