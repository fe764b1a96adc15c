/** The parts of the reconciliation job: the two maps it builds, its counters, and its loop as a fold over the
    keys in whatever order the map gives them. */
module Job {
  import opened Domain
  import opened Tables
  import opened Reconciliation
  import opened Invariant
  import opened JobSpec
  import opened Store

  datatype Report = Report(checked: nat, matched: nat, autoFixed: nat, manual: nat, byKind: map<Kind, nat>)

  function CountOf(m: map<Kind, nat>, k: Kind): nat {
    if k in m then m[k] else 0
  }

  ghost function KeysWith(m: map<string, Outcome>, o: Outcome): set<string> {
    set k | k in m && m[k] == o
  }

  ghost function Number(m: map<string, Outcome>, o: Outcome): nat {
    |KeysWith(m, o)|
  }

  /** Every counter is the number of keys with that outcome, and the counters add up. */
  ghost predicate Reports(rep: Report, m: map<string, Outcome>) {
    && rep.checked == |m|
    && rep.matched == Number(m, Fine)
    && rep.autoFixed == Number(m, Fixed)
    && CountOf(rep.byKind, MissingAtProvider) == Number(m, Left(MissingAtProvider))
    && CountOf(rep.byKind, MissingAtOurs) == Number(m, Left(MissingAtOurs))
    && CountOf(rep.byKind, AmountMismatch) == Number(m, Left(AmountMismatch))
    && CountOf(rep.byKind, StatusMismatch) == Number(m, Left(StatusMismatch))
    && rep.manual == CountOf(rep.byKind, MissingAtProvider) + CountOf(rep.byKind, MissingAtOurs)
                   + CountOf(rep.byKind, AmountMismatch) + CountOf(rep.byKind, StatusMismatch)
    && rep.checked == rep.matched + rep.autoFixed + rep.manual
  }

  lemma ReportsNothing(m: map<string, Outcome>)
    requires m.Keys == {}
    ensures Reports(Report(0, 0, 0, 0, map[]), m)
  {
    assert m == map[];
    assert forall o: Outcome :: KeysWith(m, o) == {};
  }

  lemma NumberAdd(m: map<string, Outcome>, key: string, v: Outcome, o: Outcome)
    requires key !in m
    ensures Number(m[key := v], o) == Number(m, o) + (if v == o then 1 else 0)
  {
    assert KeysWith(m[key := v], o) == KeysWith(m, o) + (if v == o then {key} else {});
  }

  /** The counters after one more key. */
  function Tally(r: Report, o: Outcome): Report {
    match o
    case Fine => r.(checked := r.checked + 1, matched := r.matched + 1)
    case Fixed => r.(checked := r.checked + 1, autoFixed := r.autoFixed + 1)
    case Left(kind) =>
      r.(checked := r.checked + 1, manual := r.manual + 1, byKind := r.byKind[kind := CountOf(r.byKind, kind) + 1])
  }

  lemma TallyKind(r: Report, m: map<string, Outcome>, key: string, o: Outcome, k: Kind)
    requires key !in m
    ensures Number(m[key := o], Left(k)) == Number(m, Left(k)) + (if o == Left(k) then 1 else 0)
    ensures CountOf(Tally(r, o).byKind, k) == CountOf(r.byKind, k) + (if o == Left(k) then 1 else 0)
  {
    NumberAdd(m, key, o, Left(k));
  }

  lemma TallyKeeps(r: Report, m: map<string, Outcome>, key: string, o: Outcome)
    requires Reports(r, m) && key !in m && o != Left(Matched)
    ensures Reports(Tally(r, o), m[key := o])
  {
    var r', m' := Tally(r, o), m[key := o];
    NumberAdd(m, key, o, Fine);
    NumberAdd(m, key, o, Fixed);
    TallyKind(r, m, key, o, MissingAtProvider);
    TallyKind(r, m, key, o, MissingAtOurs);
    TallyKind(r, m, key, o, AmountMismatch);
    TallyKind(r, m, key, o, StatusMismatch);
    assert o.Left? && o.kind == Matched ==> o == Left(Matched);
    assert r'.manual == r.manual + (if o.Left? then 1 else 0);
  }

  // ----- the loop as a fold over the keys in the order they came

  function TreatTx(db: Db, ours: Option<Ours>, theirs: Option<Theirs>): (Db, Outcome) {
    TreatUnder(db, ours, theirs, FAIR)
  }

  function Fold(db: Db, w: Window, order: seq<string>): (Db, Report) {
    if order == [] then (db, Report(0, 0, 0, 0, map[]))
    else
      var (now, r) := Fold(db, w, order[..|order| - 1]);
      var (now', o) := TreatTx(now, OursIn(db, w, Last(order)), TheirsIn(w, Last(order)));
      (now', Tally(r, o))
  }

  ghost predicate Distinct(order: seq<string>) {
    forall i, j | 0 <= i < j < |order| :: order[i] != order[j]
  }

  /** How every key comes out. */
  ghost function OutcomesOf(db: Db, w: Window, keys: set<string>): map<string, Outcome> {
    map k | k in keys :: OutcomeOf(db, w, k)
  }

  lemma TreatTxTreats(db: Db, w: Window, done: set<string>, now: Db, key: string)
    requires Schema(db) && Treated(db, w, done, now) && key !in done
    ensures var (now', o) := TreatTx(now, OursIn(db, w, key), TheirsIn(w, key));
      Treated(db, w, done + {key}, now') && o == OutcomeOf(db, w, key) && o != Left(Matched)
  {
    if IsFix(FindingOf(db, w, key).action) {
      TreatOne(db, w, done, now, key);
    } else {
      TreatUntouched(db, w, done, now, key);
    }
  }

  /** The keys treated by a fold, one after the other. */
  function KeySet(order: seq<string>): (keys: set<string>)
    ensures forall k :: k in keys <==> k in order
  {
    if order == [] then {} else KeySet(order[..|order| - 1]) + {Last(order)}
  }

  /** Map iteration order does not matter: any order of the same keys leads to the same tables ... */
  lemma {:induction false} AnyOrderSameTables(db: Db, w: Window, order: seq<string>)
    requires Schema(db) && Distinct(order)
    ensures Treated(db, w, KeySet(order), Fold(db, w, order).0)
  {
    if order == [] {
      TreatedNothing(db, w);
    } else {
      var init := order[..|order| - 1];
      AnyOrderSameTables(db, w, init);
      TreatTxTreats(db, w, KeySet(init), Fold(db, w, init).0, Last(order));
    }
  }

  /** One more key: one more outcome. */
  lemma OutcomesGrow(db: Db, w: Window, keys: set<string>, key: string)
    ensures OutcomesOf(db, w, keys + {key}) == OutcomesOf(db, w, keys)[key := OutcomeOf(db, w, key)]
  {
  }

  lemma FoldNext(db: Db, w: Window, order: seq<string>)
    requires order != []
    ensures var init, key := order[..|order| - 1], Last(order);
      Fold(db, w, order).1
      == Tally(Fold(db, w, init).1, TreatTx(Fold(db, w, init).0, OursIn(db, w, key), TheirsIn(w, key)).1)
  {
  }

  /** ... and to the same report. */
  lemma {:induction false} AnyOrderSameReport(db: Db, w: Window, order: seq<string>)
    requires Schema(db) && Distinct(order)
    ensures Reports(Fold(db, w, order).1, OutcomesOf(db, w, KeySet(order)))
  {
    if order == [] {
      ReportsNothing(OutcomesOf(db, w, {}));
    } else {
      var init, key := order[..|order| - 1], Last(order);
      AnyOrderSameReport(db, w, init);
      NextOutcome(db, w, order);
      OutcomesGrow(db, w, KeySet(init), key);
      FoldNext(db, w, order);
      TallyKeeps(Fold(db, w, init).1, OutcomesOf(db, w, KeySet(init)), key, OutcomeOf(db, w, key));
    }
  }

  lemma NextOutcome(db: Db, w: Window, order: seq<string>)
    requires Schema(db) && Distinct(order) && order != []
    ensures var init, key := order[..|order| - 1], Last(order);
      && TreatTx(Fold(db, w, init).0, OursIn(db, w, key), TheirsIn(w, key)).1 == OutcomeOf(db, w, key)
      && OutcomeOf(db, w, key) != Left(Matched)
  {
    var init := order[..|order| - 1];
    AnyOrderSameTables(db, w, init);
    TreatTxTreats(db, w, KeySet(init), Fold(db, w, init).0, Last(order));
  }

  lemma {:induction false} ListedExactly(j: Journal, lo: int, hi: int, n: nat, e: Entry)
    requires n <= |j.charges|
    ensures e in Listed(j, lo, hi, n)
       <==> exists c :: 0 <= c < n && lo <= j.charges[c].at < hi && e == Entry(TheirsOf(j, c), j.charges[c].at)
  {
    if n > 0 {
      ListedExactly(j, lo, hi, n - 1, e);
      if c :| 0 <= c < n && lo <= j.charges[c].at < hi && e == Entry(TheirsOf(j, c), j.charges[c].at) {
        if c < n - 1 { assert e in Listed(j, lo, hi, n - 1); }
      }
    }
  }

  /** The provider's list turned into a map by key, and the keys dated inside the period. */
  method IndexTheirs(list: seq<Entry>, from: int, to: int, ghost w: Window)
    returns (byKey: map<string, Theirs>, keys: set<string>)
    requires UniqueCharges(w.j.charges) && w.margin >= 0 && w.from == from && w.to == to
    requires list == Listed(w.j, from - w.margin, to + w.margin, |w.j.charges|)
    ensures forall k :: TheirsIn(w, k) == (if k in byKey then Some(byKey[k]) else None)
    ensures keys == ProviderKeys(w)
  {
    byKey, keys := map[], {};
    var i := 0;
    while i < |list|
      invariant 0 <= i <= |list|
      invariant forall k | k in byKey ::
            k != "" && exists m :: 0 <= m < i && list[m].theirs.key == k && byKey[k] == list[m].theirs
      invariant forall m | 0 <= m < i && list[m].theirs.key != "" :: list[m].theirs.key in byKey
      invariant forall k | k in keys ::
            k != "" && exists m :: 0 <= m < i && list[m].theirs.key == k && from <= list[m].at < to
      invariant forall m | 0 <= m < i && list[m].theirs.key != "" && from <= list[m].at < to ::
        list[m].theirs.key in keys
    {
      var c := list[i];
      if c.theirs.key != "" {
        byKey := byKey[c.theirs.key := c.theirs];
        if from <= c.at < to {
          keys := keys + {c.theirs.key};
        }
      }
      i := i + 1;
    }
    forall k ensures TheirsIn(w, k) == (if k in byKey then Some(byKey[k]) else None) {
      IndexedTheirs(list, w, byKey, k);
    }
    forall k ensures k in keys <==> k in ProviderKeys(w) {
      IndexedKeys(list, w, keys, k);
    }
  }

  lemma IndexedTheirs(list: seq<Entry>, w: Window, byKey: map<string, Theirs>, k: string)
    requires UniqueCharges(w.j.charges)
    requires list == Listed(w.j, w.from - w.margin, w.to + w.margin, |w.j.charges|)
    requires k in byKey ==>
              k != "" && exists m :: 0 <= m < |list| && list[m].theirs.key == k && byKey[k] == list[m].theirs
    requires forall m | 0 <= m < |list| && list[m].theirs.key == k && k != "" :: k in byKey
    ensures TheirsIn(w, k) == (if k in byKey then Some(byKey[k]) else None)
  {
    var lo, hi, n := w.from - w.margin, w.to + w.margin, |w.j.charges|;
    if TheirsIn(w, k).Some? {
      var c := FindCharge(w.j.charges, k).value;
      var e := Entry(TheirsOf(w.j, c), w.j.charges[c].at);
      ListedExactly(w.j, lo, hi, n, e);
      var m :| 0 <= m < |list| && list[m] == e;
      assert k in byKey;
    }
    if k in byKey {
      var m :| 0 <= m < |list| && list[m].theirs.key == k && byKey[k] == list[m].theirs;
      ListedExactly(w.j, lo, hi, n, list[m]);
      var c :| 0 <= c < n && lo <= w.j.charges[c].at < hi && list[m] == Entry(TheirsOf(w.j, c), w.j.charges[c].at);
      FoundCharge(w.j.charges, c);
    }
  }

  lemma IndexedKeys(list: seq<Entry>, w: Window, keys: set<string>, k: string)
    requires w.margin >= 0
    requires list == Listed(w.j, w.from - w.margin, w.to + w.margin, |w.j.charges|)
    requires k in keys ==>
              k != "" && exists m :: 0 <= m < |list| && list[m].theirs.key == k && w.from <= list[m].at < w.to
    requires forall m | 0 <= m < |list| && list[m].theirs.key == k && k != "" && w.from <= list[m].at < w.to ::
      k in keys
    ensures k in keys <==> k in ProviderKeys(w)
  {
    var lo, hi, n := w.from - w.margin, w.to + w.margin, |w.j.charges|;
    if k in keys {
      var m :| 0 <= m < |list| && list[m].theirs.key == k && w.from <= list[m].at < w.to;
      ListedExactly(w.j, lo, hi, n, list[m]);
    }
    if k in ProviderKeys(w) {
      var c :| 0 <= c < n && w.from <= w.j.charges[c].at < w.to && w.j.charges[c].key != "" && w.j.charges[c].key == k;
      var e := Entry(TheirsOf(w.j, c), w.j.charges[c].at);
      ListedExactly(w.j, lo, hi, n, e);
      var m :| 0 <= m < |list| && list[m] == e;
    }
  }

  /** Our payments of the period, and any the provider dated inside it, by key. */
  method IndexOurs(db: Database, from: int, to: int, providerKeys: set<string>, ghost w: Window)
    returns (byKey: map<string, Ours>)
    requires UniquePaymentKeys(db.payments) && w.from == from && w.to == to && providerKeys == ProviderKeys(w)
    ensures forall k :: OursIn(db.View(), w, k) == (if k in byKey then Some(byKey[k]) else None)
    ensures byKey.Keys + providerKeys == Keys(db.View(), w)
  {
    byKey := map[];
    var i := 0;
    while i < |db.payments|
      invariant 0 <= i <= |db.payments|
      invariant forall k | k in byKey ::
            exists p :: && 0 <= p < i && db.payments[p].key == k && InScope(db.payments[p], w)
                                                     && byKey[k] == OursOf(db.View(), p)
      invariant forall p | 0 <= p < i && InScope(db.payments[p], w) :: db.payments[p].key in byKey
    {
      var p := db.payments[i];
      if p.key != "" && (from <= p.createdAt < to || p.key in providerKeys) {
        byKey := byKey[p.key := OursOf(db.View(), i)];
      }
      i := i + 1;
    }
    IndexedOurs(db.View(), byKey, w);
  }

  lemma IndexedOurs(db: Db, byKey: map<string, Ours>, w: Window)
    requires UniquePaymentKeys(db.payments)
    requires forall k | k in byKey :: exists p :: && 0 <= p < |db.payments| && db.payments[p].key == k
                                                  && InScope(db.payments[p], w) && byKey[k] == OursOf(db, p)
    requires forall p | 0 <= p < |db.payments| && InScope(db.payments[p], w) :: db.payments[p].key in byKey
    ensures forall k :: OursIn(db, w, k) == (if k in byKey then Some(byKey[k]) else None)
    ensures byKey.Keys + ProviderKeys(w) == Keys(db, w)
  {
    forall k ensures OursIn(db, w, k) == (if k in byKey then Some(byKey[k]) else None) {
      if k in byKey {
        var p :| 0 <= p < |db.payments| && db.payments[p].key == k && InScope(db.payments[p], w)
            && byKey[k] == OursOf(db, p);
        FoundPayment(db.payments, p);
      }
    }
  }

  /** The report's counters. */
  method Count(r: Report, o: Outcome) returns (r': Report)
    ensures r' == Tally(r, o)
  {
    r' := r.(checked := r.checked + 1);
    match o {
      case Fine => r' := r'.(matched := r'.matched + 1);
      case Fixed => r' := r'.(autoFixed := r'.autoFixed + 1);
      case Left(kind) => r' := r'.(manual := r'.manual + 1, byKind := r'.byKind[kind := CountOf(r'.byKind, kind) + 1]);
    }
  }
}
