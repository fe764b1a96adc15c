/** What holds of the outbox over every run: nothing lost, nothing invented, effects at most once. */
module OutboxTheorems {
  import opened Domain
  import opened Outbox

  lemma {:induction false} WithVerdictPicks(ids: seq<nat>, verdicts: seq<Verdict>, v: Verdict)
    requires |ids| == |verdicts|
    ensures forall id | id in WithVerdict(ids, verdicts, v) ::
          exists i | 0 <= i < |ids| :: ids[i] == id && verdicts[i] == v
    ensures forall i | 0 <= i < |ids| && verdicts[i] == v :: ids[i] in WithVerdict(ids, verdicts, v)
  {
    if ids != [] {
      var n := |ids| - 1;
      WithVerdictPicks(ids[..n], verdicts[..n], v);
      forall id | id in WithVerdict(ids, verdicts, v)
        ensures exists i | 0 <= i < |ids| :: ids[i] == id && verdicts[i] == v
      {
        if id in WithVerdict(ids[..n], verdicts[..n], v) {
          var i :| 0 <= i < n && ids[..n][i] == id && verdicts[..n][i] == v;
          assert ids[i] == id && verdicts[i] == v;
        } else {
          assert ids[n] == id && verdicts[n] == v;
        }
      }
      forall i | 0 <= i < |ids| && verdicts[i] == v ensures ids[i] in WithVerdict(ids, verdicts, v) {
        if i < n { assert ids[..n][i] == ids[i] && verdicts[..n][i] == v; }
      }
    }
  }

  lemma OutcomeIsOfBatch(ids: seq<nat>, reply: Reply)
    ensures forall id | id in Publishes(ids, reply) :: id in ids
    ensures forall id | id in Strikes(ids, reply) :: id in ids
  {
    if Verdicts(ids, reply).Some? {
      WithVerdictPicks(ids, Verdicts(ids, reply).value, Written);
      WithVerdictPicks(ids, Verdicts(ids, reply).value, Poison);
    }
  }

  /** Only acknowledged messages are published, and those have landed. */
  lemma PublishesLanded(rows: map<nat, Row>, ids: seq<nat>, reply: Reply, landed: seq<nat>)
    requires CanReply(rows, ids, reply, landed)
    ensures forall id | id in Publishes(ids, reply) && id in rows :: rows[id].order in landed
  {
    if Verdicts(ids, reply).Some? {
      var verdicts := Verdicts(ids, reply).value;
      WithVerdictPicks(ids, verdicts, Written);
      forall id | id in Publishes(ids, reply) && id in rows ensures rows[id].order in landed {
        var i :| 0 <= i < |ids| && ids[i] == id && verdicts[i] == Written;
        assert rows[ids[i]].order in OrdersOf(rows, ids);
      }
    }
  }

  // ----- each step keeps the invariant

  /** The part of the invariant about the rows and where they went. */
  ghost predicate RowsInv(s: State) {
    Placed(s) && PublishedIsSent(s) && RetriesOk(s) && DeadNeverMarked(s)
  }

  /** Relays that go on undisturbed: their rows stay as they are. */
  lemma RelaysStay(s: State, s': State)
    requires RelaysOk(s) && (forall r | r in s'.relays :: r in s.relays && s'.relays[r] == s.relays[r])
    requires forall o | o in s.log :: o in s'.log
    requires forall r, id | r in s'.relays && Claimed(s'.relays[r], id) :: id in s'.rows && s'.rows[id] == s.rows[id]
    ensures RelaysOk(s')
  {
    forall r | r in s'.relays ensures RelayOk(s', s'.relays[r]) {
      assert RelayOk(s, s.relays[r]);
      forall id | Claimed(s.relays[r], id) ensures id in s'.rows && s'.rows[id] == s.rows[id] {}
      if s.relays[r].Recording? { OutcomeIsOfBatch(s.relays[r].ids, s.relays[r].reply); }
    }
    forall p, q, id | p in s'.relays && q in s'.relays && p != q
      ensures !(Claimed(s'.relays[p], id) && Claimed(s'.relays[q], id))
    {
      assert !(Claimed(s.relays[p], id) && Claimed(s.relays[q], id));
    }
  }

  /** The row of a claim: unpublished, with attempts left. */
  lemma ClaimedRow(s: State, r: nat, id: nat)
    requires RelaysOk(s) && r in s.relays && Claimed(s.relays[r], id)
    ensures id in s.rows && s.rows[id].published.None? && s.rows[id].retries < MAX_RETRIES
  {
    assert RelayOk(s, s.relays[r]);
  }

  lemma RelayMovesOn(s: State, r: nat, relay: Relay)
    requires RelaysOk(s) && r in s.relays && RelayOk(s, relay)
    requires (relay.Moving? || (relay.ids == s.relays[r].ids && !s.relays[r].Moving?))
    ensures RelaysOk(s.(relays := s.relays[r := relay]))
  {
    var s' := s.(relays := s.relays[r := relay]);
    forall q | q in s'.relays ensures RelayOk(s', s'.relays[q]) {
      assert RelayOk(s, if q == r then relay else s.relays[q]);
    }
    forall p, q, id | p in s'.relays && q in s'.relays && p != q
      ensures !(Claimed(s'.relays[p], id) && Claimed(s'.relays[q], id))
    {
      assert !(Claimed(s.relays[p], id) && Claimed(s.relays[q], id));
    }
  }

  lemma InboxStays(s: State, s': State)
    requires InboxOk(s) && s'.consumers == s.consumers && s'.inbox == s.inbox && s'.effects == s.effects
    requires s.orders <= s'.orders
    ensures InboxOk(s')
  {
  }

  lemma RowStays(s: State, s': State, id: nat, row: Row)
    requires id !in s.rows && s'.rows == s.rows[id := row]
    ensures HasRow(s', row.order) && forall p | HasRow(s, p) :: HasRow(s', p)
  {
    assert s'.rows[id].order == row.order;
    forall p | HasRow(s, p) ensures HasRow(s', p) {
      var k :| k in s.rows && s.rows[k].order == p;
      assert k in s'.rows && s'.rows[k].order == p;
    }
  }

  lemma CreatePlaces(s: State, o: nat, id: nat)
    requires Placed(s) && o !in s.orders && id !in s.used
    ensures Placed(Apply(s, Create(o, id)))
  {
    RowStays(s, Apply(s, Create(o, id)), id, Row(o, 0, None));
    NewOrderIsNowhere(s, o);
  }

  lemma NewOrderIsNowhere(s: State, o: nat)
    requires Placed(s) && o !in s.orders
    ensures o !in s.dead && o !in s.cleaned && forall k | k in s.rows :: s.rows[k].order != o
  {
  }

  lemma CreateRows(s: State, o: nat, id: nat)
    requires Inv(s) && o !in s.orders && id !in s.used
    ensures RowsInv(Apply(s, Create(o, id)))
  {
    var s' := Apply(s, Create(o, id));
    CreatePlaces(s, o, id);
    forall k | k in s'.rows ensures RowOk(s', s'.rows[k]) { if k != id { assert RowOk(s, s.rows[k]); } }
  }

  lemma CreateKeeps(s: State, o: nat, id: nat)
    requires Inv(s) && o !in s.orders && id !in s.used
    ensures Inv(Apply(s, Create(o, id)))
  {
    var s' := Apply(s, Create(o, id));
    CreateRows(s, o, id);
    forall r, k | r in s'.relays && Claimed(s'.relays[r], k)
      ensures k in s'.rows && s'.rows[k] == s.rows[k]
    {
      ClaimedRow(s, r, k);
    }
    RelaysStay(s, s');
    InboxStays(s, s');
  }

  /** Steps that change no table of the outbox, and at most add to the broker's log. */
  lemma TablesSame(s: State, s': State)
    requires RowsInv(s) && s'.rows == s.rows && s'.orders == s.orders && s'.used == s.used
    requires s'.dead == s.dead && s'.cleaned == s.cleaned && s'.marked == s.marked
    requires (forall o | o in s.log :: o in s'.log) && (forall o | o in s'.log :: o in s.orders)
    ensures RowsInv(s')
  {
    forall p | p in s'.orders
      ensures p in s'.dead || p in s'.cleaned || HasRow(s', p)
    {
      assert HasRow(s, p) ==> HasRow(s', p);
    }
    forall k | k in s'.rows ensures RowOk(s', s'.rows[k]) { assert RowOk(s, s.rows[k]); }
  }

  lemma NoRowTouched(s: State, s': State)
    requires RelaysOk(s) && s'.rows == s.rows && (forall o | o in s.log :: o in s'.log)
    requires forall r | r in s'.relays :: r in s.relays && s'.relays[r] == s.relays[r]
    ensures RelaysOk(s')
  {
    forall r, k | r in s'.relays && Claimed(s'.relays[r], k)
      ensures k in s'.rows && s'.rows[k] == s.rows[k]
    {
      ClaimedRow(s, r, k);
    }
    RelaysStay(s, s');
  }

  /** Nothing happens to the rows, and the relays left go on. */
  ghost predicate Undisturbed(s: State, s': State) {
    && s'.rows == s.rows && s'.orders == s.orders && s'.used == s.used
    && s'.dead == s.dead && s'.cleaned == s.cleaned && s'.marked == s.marked
    && (forall o | o in s.log :: o in s'.log) && (forall o | o in s'.log :: o in s.log || o in s.orders)
    && (forall r | r in s'.relays :: r in s.relays && s'.relays[r] == s.relays[r])
  }

  lemma UndisturbedKeeps(s: State, s': State)
    requires Inv(s) && Undisturbed(s, s') && InboxOk(s')
    ensures Inv(s')
  {
    TablesSame(s, s');
    NoRowTouched(s, s');
  }

  lemma QuietStep(s: State, step: Step)
    requires step.Tick? || step.RelayDies? || step.Direct?
    ensures var s' := Apply(s, step);
      Undisturbed(s, s') && s'.consumers == s.consumers && s'.inbox == s.inbox && s'.effects == s.effects
  {
  }

  lemma QuietKeeps(s: State, step: Step)
    requires Inv(s) && (step.Tick? || step.RelayDies? || step.Direct?)
    ensures Inv(Apply(s, step))
  {
    QuietStep(s, step);
    InboxStays(s, Apply(s, step));
    UndisturbedKeeps(s, Apply(s, step));
  }

  lemma SelectKeeps(s: State, r: nat, ids: seq<nat>)
    requires Inv(s)
    ensures Inv(Apply(s, Select(r, ids)))
  {
    var s' := Apply(s, Select(r, ids));
    if s' != s {
      TablesSame(s, s');
      InboxStays(s, s');
      forall q | q in s'.relays ensures RelayOk(s', s'.relays[q]) { if q != r { assert RelayOk(s, s.relays[q]); } }
      forall p, q, id | p in s'.relays && q in s'.relays && p != q
        ensures !(Claimed(s'.relays[p], id) && Claimed(s'.relays[q], id))
      {
        if id in ids {
          assert Eligible(s, id) && !Locked(s, id);
          assert p in s.relays ==> !Claimed(s.relays[p], id);
          assert q in s.relays ==> !Claimed(s.relays[q], id);
        }
      }
    }
  }

  lemma SendLog(s: State, ids: seq<nat>, landed: seq<nat>)
    requires Inv(s) && forall m | m in landed :: m in OrdersOf(s.rows, ids)
    ensures Inv(s.(log := s.log + landed))
  {
    var s1 := s.(log := s.log + landed);
    forall o | o in landed ensures o in s.orders {
      assert o in OrdersOf(s.rows, ids);
    }
    InboxStays(s, s1);
    UndisturbedKeeps(s, s1);
  }

  lemma SendKeeps(s: State, r: nat, reply: Reply, landed: seq<nat>)
    requires Inv(s) && r in s.relays && s.relays[r].Sending? && CanReply(s.rows, s.relays[r].ids, reply, landed)
    ensures Inv(Apply(s, Send(r, reply, landed)))
  {
    var ids, s1, s' := s.relays[r].ids, s.(log := s.log + landed), Apply(s, Send(r, reply, landed));
    SendLog(s, ids, landed);
    ReplyRecorded(s1, r, reply, landed);
    RelayMovesOn(s1, r, Recording(ids, reply));
    TablesSame(s1, s');
    InboxStays(s1, s');
  }

  lemma ReplyRecorded(s: State, r: nat, reply: Reply, landed: seq<nat>)
    requires RelaysOk(s) && r in s.relays && s.relays[r].Sending? && CanReply(s.rows, s.relays[r].ids, reply, landed)
    requires forall o | o in landed :: o in s.log
    ensures RelayOk(s, Recording(s.relays[r].ids, reply))
  {
    var ids := s.relays[r].ids;
    assert RelayOk(s, s.relays[r]);
    PublishesLanded(s.rows, ids, reply, landed);
    OutcomeIsOfBatch(ids, reply);
    forall k | 0 <= k < |Publishes(ids, reply)|
      ensures Publishes(ids, reply)[k] in s.rows && s.rows[Publishes(ids, reply)[k]].order in s.log
    {
      assert Publishes(ids, reply)[k] in ids;
    }
  }

  /** What recording does to a row. */
  lemma RecordRow(s: State, r: nat, k: nat)
    requires Inv(s) && r in s.relays && s.relays[r].Recording? && k in s.rows
    ensures var s' := Apply(s, Record(r));
      k in s'.rows && RowOk(s', s'.rows[k]) && (s'.rows[k].published.Some? ==> s'.rows[k].order in s'.marked)
  {
    var s', ids, reply := Apply(s, Record(r)), s.relays[r].ids, s.relays[r].reply;
    var published := Publishes(ids, reply);
    OutcomeIsOfBatch(ids, reply);
    assert RowOk(s, s.rows[k]);
    if k in ids { ClaimedRow(s, r, k); }
    OrderIsPublished(s, published, k);
  }

  /** An order is among the published exactly when its row is. */
  lemma OrderIsPublished(s: State, published: seq<nat>, k: nat)
    requires Placed(s) && k in s.rows
    ensures s.rows[k].order in OrdersOf(s.rows, published) <==> k in published
  {
    if s.rows[k].order in OrdersOf(s.rows, published) {
      var i :| 0 <= i < |published| && published[i] in s.rows && s.rows[published[i]].order == s.rows[k].order;
      assert published[i] == k;
    }
    if k in published {
      var i :| 0 <= i < |published| && published[i] == k;
      assert s.rows[published[i]].order in OrdersOf(s.rows, published);
    }
  }

  lemma RecordMarks(s: State, r: nat, o: nat)
    requires Inv(s) && r in s.relays && s.relays[r].Recording?
    requires o in OrdersOf(s.rows, Publishes(s.relays[r].ids, s.relays[r].reply))
    ensures o in s.log && o !in s.dead
  {
    var published := Publishes(s.relays[r].ids, s.relays[r].reply);
    var i :| 0 <= i < |published| && published[i] in s.rows && s.rows[published[i]].order == o;
    assert RelayOk(s, s.relays[r]);
  }

  /** Rows that change in place keep their orders. */
  lemma SamePlaces(s: State, s': State)
    requires Placed(s) && s'.rows.Keys == s.rows.Keys
    requires (forall id | id in s.rows :: s'.rows[id].order == s.rows[id].order)
    requires s'.orders == s.orders && s'.used == s.used && s'.dead == s.dead && s'.cleaned == s.cleaned
    ensures Placed(s')
  {
    forall p | HasRow(s, p) ensures HasRow(s', p) {
      var k :| k in s.rows && s.rows[k].order == p;
      assert s'.rows[k].order == p;
    }
  }

  lemma RecordPlaces(s: State, r: nat)
    requires Inv(s) && r in s.relays && s.relays[r].Recording?
    ensures Placed(Apply(s, Record(r)))
  {
    SamePlaces(s, Apply(s, Record(r)));
  }

  lemma RecordKeepsMarks(s: State, r: nat, o: nat)
    requires Inv(s) && r in s.relays && s.relays[r].Recording? && o in Apply(s, Record(r)).marked
    ensures o in s.log && o !in s.dead
  {
    if o !in s.marked { RecordMarks(s, r, o); }
  }

  lemma RecordTables(s: State, r: nat)
    requires r in s.relays && s.relays[r].Recording?
    ensures var s' := Apply(s, Record(r));
      s'.log == s.log && s'.orders == s.orders && s'.dead == s.dead && s'.cleaned == s.cleaned && s.marked <= s'.marked
  {
  }

  lemma RecordedRowsOk(s: State, r: nat)
    requires Inv(s) && r in s.relays && s.relays[r].Recording?
    ensures RowsInv(Apply(s, Record(r)))
  {
    var s' := Apply(s, Record(r));
    RecordPlaces(s, r);
    RecordTables(s, r);
    forall k | k in s'.rows
      ensures RowOk(s', s'.rows[k]) && (s'.rows[k].published.Some? ==> s'.rows[k].order in s'.marked)
    {
      RecordRow(s, r, k);
    }
    forall o | o in s'.marked ensures o in s'.log && o !in s'.dead { RecordKeepsMarks(s, r, o); }
  }

  /** The rows that recording changes are its own. */
  lemma RecordLeavesOthers(s: State, r: nat, q: nat, id: nat)
    requires RelaysOk(s) && r in s.relays && s.relays[r].Recording? && q in s.relays && q != r
    requires Claimed(s.relays[q], id)
    ensures var s' := Apply(s, Record(r)); id in s'.rows && s'.rows[id] == s.rows[id]
  {
    OutcomeIsOfBatch(s.relays[r].ids, s.relays[r].reply);
    ClaimedRow(s, q, id);
    assert !Claimed(s.relays[r], id);
  }

  lemma RecordRelays(s: State, r: nat)
    requires RelaysOk(s) && r in s.relays && s.relays[r].Recording?
    ensures RelaysOk(Apply(s, Record(r)))
  {
    var s' := Apply(s, Record(r));
    var s1 := s'.(relays := s.relays - {r});
    forall q, id | q in s1.relays && Claimed(s1.relays[q], id) ensures id in s1.rows && s1.rows[id] == s.rows[id] {
      RecordLeavesOthers(s, r, q, id);
    }
    RelaysStay(s, s1);
    AddMoving(s1, s', r);
  }

  lemma AddMoving(s: State, s': State, r: nat)
    requires RelaysOk(s) && s'.rows == s.rows && s'.log == s.log
    requires s'.relays == s.relays || (r in s'.relays && s'.relays[r].Moving? && s'.relays - {r} == s.relays)
    ensures RelaysOk(s')
  {
    forall q | q in s'.relays ensures RelayOk(s', s'.relays[q]) {
      if q in s.relays { assert RelayOk(s, s.relays[q]); assert s'.relays[q] == s.relays[q]; }
    }
    forall p, q, id | p in s'.relays && q in s'.relays && p != q
      ensures !(Claimed(s'.relays[p], id) && Claimed(s'.relays[q], id))
    {
      assert p in s.relays && q in s.relays ==> !(Claimed(s.relays[p], id) && Claimed(s.relays[q], id));
    }
  }

  lemma RecordKeeps(s: State, r: nat)
    requires Inv(s) && r in s.relays && s.relays[r].Recording?
    ensures Inv(Apply(s, Record(r)))
  {
    RecordedRowsOk(s, r);
    RecordRelays(s, r);
    InboxStays(s, Apply(s, Record(r)));
  }

  /** Rows leave the outbox for one other place, each order into a place where it was not. */
  lemma LeavePlaced(s: State, s': State, gone: set<nat>)
    requires Placed(s) && (forall id | id in gone :: id in s.rows)
    requires s'.rows == s.rows - gone && s'.orders == s.orders && s'.used == s.used
    requires var moved := multiset(OrdersAt(s.rows, gone));
      (s'.dead == s.dead + moved && s'.cleaned == s.cleaned) || (s'.dead == s.dead && s'.cleaned == s.cleaned + moved)
    ensures Placed(s')
  {
    var moved := OrdersAt(s.rows, gone);
    forall o | o in moved ensures o in s.orders && o !in s.dead && o !in s.cleaned && !HasRow(s', o) {
      var id :| id in gone && s.rows[id].order == o;
    }
    forall p | p in s'.orders ensures p in s'.dead || p in s'.cleaned || HasRow(s', p) {
      if HasRow(s, p) && p !in moved {
        var k :| k in s.rows && s.rows[k].order == p;
        assert k in s'.rows;
      }
    }
  }

  lemma RowsLeft(s: State, s': State)
    requires RetriesOk(s) && (forall k | k in s'.rows :: k in s.rows && s'.rows[k] == s.rows[k])
    requires s'.marked == s.marked
    ensures RetriesOk(s')
  {
    forall k | k in s'.rows ensures RowOk(s', s'.rows[k]) { assert RowOk(s, s.rows[k]); }
  }

  /** No claimed row is among those that leave: they are exhausted or published. */
  lemma RelaysLoseNothing(s: State, s': State, gone: set<nat>)
    requires RelaysOk(s) && s'.rows == s.rows - gone && s'.log == s.log
    requires forall id | id in gone && id in s.rows :: s.rows[id].published.Some? || s.rows[id].retries >= MAX_RETRIES
    requires forall r | r in s'.relays :: r in s.relays && s'.relays[r] == s.relays[r]
    ensures RelaysOk(s')
  {
    forall q, id | q in s'.relays && Claimed(s'.relays[q], id)
      ensures id in s'.rows && s'.rows[id] == s.rows[id]
    {
      ClaimedRow(s, q, id);
    }
    RelaysStay(s, s');
  }

  lemma MoveKeeps(s: State, r: nat)
    requires Inv(s) && r in s.relays && s.relays[r].Moving?
    ensures Inv(Apply(s, MoveToDlq(r)))
  {
    var s', gone := Apply(s, MoveToDlq(r)), Exhausted(s.rows, s.relays[r].ids);
    LeavePlaced(s, s', gone);
    RowsLeft(s, s');
    forall o | o in OrdersAt(s.rows, gone) ensures o !in s.marked {
      var id :| id in gone && s.rows[id].order == o;
      assert RowOk(s, s.rows[id]);
    }
    RelaysLoseNothing(s, s', gone);
    InboxStays(s, s');
  }

  lemma CleanKeeps(s: State, aged: set<nat>)
    requires Inv(s) && Cleans(s, aged)
    ensures Inv(Apply(s, Clean(aged)))
  {
    var s' := Apply(s, Clean(aged));
    LeavePlaced(s, s', aged);
    RowsLeft(s, s');
    forall o | o in OrdersAt(s.rows, aged) ensures o in s.marked {
      var id :| id in aged && s.rows[id].order == o;
    }
    RelaysLoseNothing(s, s', aged);
    InboxStays(s, s');
  }

  /** A consumer comes, dies or gives up. */
  lemma InboxLosesConsumers(s: State, s': State)
    requires InboxOk(s) && s'.orders == s.orders && s'.inbox == s.inbox && s'.effects == s.effects
    requires forall c | c in s'.consumers ::
      (c in s.consumers && s'.consumers[c] == s.consumers[c]) || (s'.consumers[c].Fetched?
          && s'.consumers[c].order in s.orders)
    ensures InboxOk(s')
  {
  }

  lemma ConsumerInserts(s: State, c: nat)
    requires InboxOk(s) && c in s.consumers && s.consumers[c].Fetched?
    ensures InboxOk(ApplyConsumer(s, c, true))
  {
    var o := s.consumers[c].order;
    if o in s.inbox {
      InboxLosesConsumers(s, ApplyConsumer(s, c, true));
    } else if !InboxLocked(s, o) {
      forall b | b in s.consumers && !s.consumers[b].Fetched? ensures s.consumers[b].order != o {
        assert !Holding(s.consumers[b], o);
      }
    }
  }

  lemma ConsumerHandles(s: State, c: nat, ok: bool)
    requires InboxOk(s) && c in s.consumers && s.consumers[c].Inserted?
    ensures InboxOk(ApplyConsumer(s, c, ok))
  {
  }

  lemma ConsumerCommits(s: State, c: nat)
    requires InboxOk(s) && c in s.consumers && s.consumers[c].Handled?
    ensures InboxOk(ApplyConsumer(s, c, true))
  {
  }

  lemma ConsumerInbox(s: State, step: Step)
    requires InboxOk(s) && (forall o | o in s.log :: o in s.orders)
    requires (step.Fetch? || step.Consume? || step.ConsumerDies?)
    ensures InboxOk(Apply(s, step))
  {
    if step.Consume? {
      var c := step.consumer;
      if c in s.consumers {
        match s.consumers[c]
        case Fetched(_) => ConsumerInserts(s, c);
        case Inserted(_) => ConsumerHandles(s, c, step.ok);
        case Handled(_) => ConsumerCommits(s, c);
      }
    } else {
      InboxLosesConsumers(s, Apply(s, step));
    }
  }

  lemma ConsumerStep(s: State, step: Step)
    requires step.Fetch? || step.Consume? || step.ConsumerDies?
    ensures Undisturbed(s, Apply(s, step))
  {
  }

  lemma ConsumerKeeps(s: State, step: Step)
    requires Inv(s) && (step.Fetch? || step.Consume? || step.ConsumerDies?)
    ensures Inv(Apply(s, step))
  {
    ConsumerStep(s, step);
    ConsumerInbox(s, step);
    UndisturbedKeeps(s, Apply(s, step));
  }

  lemma StepKeeps(s: State, step: Step)
    requires Inv(s)
    ensures Inv(Apply(s, step))
  {
    match step
    case Create(o, id) => if o !in s.orders && id !in s.used { CreateKeeps(s, o, id); }
    case Direct(_) => QuietKeeps(s, step);
    case Select(r, ids) => SelectKeeps(s, r, ids);
    case Send(r, reply, landed) =>
      if r in s.relays && s.relays[r].Sending? && CanReply(s.rows, s.relays[r].ids, reply, landed) {
        SendKeeps(s, r, reply, landed);
      }
    case Record(r) => if r in s.relays && s.relays[r].Recording? { RecordKeeps(s, r); }
    case MoveToDlq(r) => if r in s.relays && s.relays[r].Moving? { MoveKeeps(s, r); }
    case Clean(aged) => if Cleans(s, aged) { CleanKeeps(s, aged); }
    case Tick(_) => QuietKeeps(s, step);
    case RelayDies(_) => QuietKeeps(s, step);
    case _ => ConsumerKeeps(s, step);
  }

  lemma {:induction false} RunKeeps(s: State, steps: seq<Step>)
    requires Inv(s)
    ensures Inv(Exec(s, steps))
  {
    if steps != [] {
      RunKeeps(s, steps[..|steps| - 1]);
      StepKeeps(Exec(s, steps[..|steps| - 1]), steps[|steps| - 1]);
    }
  }

  lemma StartOk()
    ensures Inv(EMPTY)
  {
  }

  // ----- the theorems

  /** How many copies of an order's event there are: outbox rows, dead letters, rows cleaned up. */
  ghost function Copies(s: State, o: nat): nat {
    |set id | id in s.rows && s.rows[id].order == o| + s.dead[o] + s.cleaned[o]
  }

  lemma RowCopies(s: State, o: nat)
    requires Placed(s)
    ensures |set id | id in s.rows && s.rows[id].order == o| == if HasRow(s, o) then 1 else 0
  {
    var ids := set id | id in s.rows && s.rows[id].order == o;
    if HasRow(s, o) {
      var id :| id in s.rows && s.rows[id].order == o;
      assert ids == {id};
    } else {
      assert ids == {};
    }
  }

  /** No event is lost or invented: in every run a committed order has its event in exactly one of the
      outbox, the dead-letter table and the rows cleaned up after publication, and only committed
      orders have one. */
  lemma EventsAreConserved(steps: seq<Step>, o: nat)
    ensures var s := Exec(EMPTY, steps); Copies(s, o) == if o in s.orders then 1 else 0
  {
    StartOk();
    RunKeeps(EMPTY, steps);
    OneCopy(Exec(EMPTY, steps), o);
  }

  lemma OneCopy(s: State, o: nat)
    requires Placed(s)
    ensures Copies(s, o) == if o in s.orders then 1 else 0
  {
    RowCopies(s, o);
    if HasRow(s, o) {
      var id :| id in s.rows && s.rows[id].order == o;
    }
  }

  /** Published, and so also cleaned up, means written to the broker; the broker holds committed orders
      only; a dead letter was never marked published; a row is struck at most five times. */
  lemma {:induction false} BrokerAgrees(steps: seq<Step>)
    ensures var s := Exec(EMPTY, steps);
      && (forall id | id in s.rows && s.rows[id].published.Some? :: s.rows[id].order in s.log)
      && (forall o | o in s.cleaned :: o in s.log)
      && (forall o | o in s.log :: o in s.orders)
      && (forall o | o in s.dead :: o !in s.marked)
      && (forall id | id in s.rows :: s.rows[id].retries <= MAX_RETRIES)
  {
    StartOk();
    RunKeeps(EMPTY, steps);
    var s := Exec(EMPTY, steps);
    forall id | id in s.rows ensures s.rows[id].retries <= MAX_RETRIES { assert RowOk(s, s.rows[id]); }
  }

  /** However often the broker holds and redelivers an event, its effect is committed at most once, for
      a committed order, and exactly when its inbox row is. */
  lemma EffectsAtMostOnce(steps: seq<Step>, o: nat)
    ensures var s := Exec(EMPTY, steps);
      && s.effects[o] <= 1
      && (s.effects[o] == 1 <==> o in s.inbox)
      && (o in s.inbox ==> o in s.orders)
  {
    StartOk();
    RunKeeps(EMPTY, steps);
  }

  // ----- a dead letter that is never moved

  /** The one step that can still take an exhausted row out of the outbox. */
  predicate StillMoving(s: State, id: nat) {
    exists r | r in s.relays :: s.relays[r].Moving? && id in s.relays[r].ids
  }

  ghost predicate Stranded(s: State, id: nat) {
    id in s.rows && s.rows[id].retries >= MAX_RETRIES && !StillMoving(s, id)
  }

  lemma StrandedStep(s: State, step: Step, id: nat)
    requires Inv(s) && Stranded(s, id)
    ensures var s' := Apply(s, step); Stranded(s', id) && s'.rows[id] == s.rows[id]
  {
    StrandedRow(s, step, id);
    StrandedRelays(s, step, id);
  }

  lemma StrandedRow(s: State, step: Step, id: nat)
    requires Placed(s) && RetriesOk(s) && RelaysOk(s) && Stranded(s, id)
    ensures var s' := Apply(s, step); id in s'.rows && s'.rows[id] == s.rows[id]
  {
    assert RowOk(s, s.rows[id]);
    if step.Record? && step.relay in s.relays && s.relays[step.relay].Recording? {
      if id in s.relays[step.relay].ids { ClaimedRow(s, step.relay, id); }
      assert id !in s.relays[step.relay].ids;
      OutcomeIsOfBatch(s.relays[step.relay].ids, s.relays[step.relay].reply);
    }
  }

  /** A relay has rows to move only after striking them. */
  lemma NewMoving(s: State, step: Step, r: nat)
    requires var s' := Apply(s, step); r in s'.relays && s'.relays[r].Moving?
    ensures r in s.relays
    ensures var ids := Apply(s, step).relays[r].ids;
      s.relays[r] == Moving(ids) || (s.relays[r].Recording? && ids == Strikes(s.relays[r].ids, s.relays[r].reply))
  {
  }

  lemma StrandedRelays(s: State, step: Step, id: nat)
    requires Inv(s) && Stranded(s, id)
    ensures !StillMoving(Apply(s, step), id)
  {
    var s' := Apply(s, step);
    forall r | r in s'.relays && s'.relays[r].Moving? ensures id !in s'.relays[r].ids {
      NewMoving(s, step, r);
      if s.relays[r].Recording? { StruckHadAttempts(s, r, id); }
    }
  }

  lemma StruckHadAttempts(s: State, r: nat, id: nat)
    requires RelaysOk(s) && r in s.relays && s.relays[r].Recording? && id in s.rows && s.rows[id].retries >= MAX_RETRIES
    ensures id !in Strikes(s.relays[r].ids, s.relays[r].reply)
  {
    OutcomeIsOfBatch(s.relays[r].ids, s.relays[r].reply);
    if id in s.relays[r].ids { ClaimedRow(s, r, id); }
  }

  /** If the statement that moves an exhausted event to the dead-letter table does not run (it fails, or
      the relay dies first), nothing ever touches the row again: it is neither sent nor a dead letter. */
  lemma {:induction false} StrandedForever(s: State, steps: seq<Step>, id: nat)
    requires Inv(s) && Stranded(s, id)
    ensures var s' := Exec(s, steps); Stranded(s', id) && s'.rows[id] == s.rows[id] && s'.rows[id].published.None?
  {
    if steps == [] {
      assert RowOk(s, s.rows[id]);
    } else {
      var init := steps[..|steps| - 1];
      RunKeeps(s, init);
      StrandedForever(s, init, id);
      StrandedStep(Exec(s, init), steps[|steps| - 1], id);
    }
  }

  lemma OneStep(s: State, step: Step)
    ensures Exec(s, [step]) == Apply(s, step)
  {
    assert [step][..0] == [];
  }

  /** So an exhausted row can leave the outbox exactly when a relay is still about to move it. */
  lemma ExhaustedLeavesIffMoving(s: State, id: nat)
    requires Inv(s) && id in s.rows && s.rows[id].retries >= MAX_RETRIES
    ensures (exists steps :: id !in Exec(s, steps).rows) <==> StillMoving(s, id)
  {
    if StillMoving(s, id) {
      var r :| r in s.relays && s.relays[r].Moving? && id in s.relays[r].ids;
      OneStep(s, MoveToDlq(r));
      assert id in Exhausted(s.rows, s.relays[r].ids);
      assert id !in Exec(s, [MoveToDlq(r)]).rows;
    } else {
      forall steps ensures id in Exec(s, steps).rows { StrandedForever(s, steps, id); }
    }
  }

  // ----- it does happen

  /** One order whose event Kafka has refused for good n times; no relay is at work. */
  ghost predicate Struck(s: State, n: nat) {
    s.rows == map[0 := Row(0, n, None)] && s.relays == map[]
  }

  const REFUSED := [Select(0, [0]), Send(0, REFUSAL, []), Record(0), RelayDies(0)]

  lemma SelectOnly(s: State, n: nat)
    requires Struck(s, n) && n < MAX_RETRIES
    ensures Apply(s, Select(0, [0])) == s.(relays := map[0 := Sending([0])])
  {
    assert !Locked(s, 0) && Eligible(s, 0);
    assert Selects(s, [0]);
  }

  const REFUSAL := PerMessage([Poison])

  lemma RefuseOnly(s: State)
    requires s.relays == map[0 := Sending([0])]
    ensures Apply(s, Send(0, REFUSAL, [])) == s.(relays := map[0 := Recording([0], REFUSAL)])
  {
    assert s.log + [] == s.log;
  }

  lemma RefusalStrikes()
    ensures Strikes([0], REFUSAL) == [0] && Publishes([0], REFUSAL) == []
  {
    assert WithVerdict([0][..0], [Poison][..0], Poison) == [] && WithVerdict([0][..0], [Poison][..0], Written) == [];
  }

  lemma StruckRow(n: nat, now: nat)
    ensures RecordRows(map[0 := Row(0, n, None)], [], [0], now) == map[0 := Row(0, n + 1, None)]
  {
  }

  lemma RecordOnly(s: State, n: nat, reply: Reply)
    requires s.rows == map[0 := Row(0, n, None)] && s.relays == map[0 := Recording([0], reply)]
    requires Strikes([0], reply) == [0] && Publishes([0], reply) == []
    ensures var s' := Apply(s, Record(0));
      s'.rows == RecordRows(s.rows, [], [0], s.clock) && s'.relays == s.relays[0 := Moving([0])]
  {
    var relay := s.relays[0];
    assert relay.ids == [0] && relay.reply == reply;
    assert Apply(s, Record(0)) == ApplyRelay(s, 0);
  }

  lemma StrikeOnly(s: State, n: nat)
    requires s.rows == map[0 := Row(0, n, None)] && s.relays == map[0 := Recording([0], REFUSAL)]
    ensures var s' := Apply(s, Record(0));
      s'.rows == map[0 := Row(0, n + 1, None)] && s'.relays == map[0 := Moving([0])]
  {
    RefusalStrikes();
    RecordOnly(s, n, REFUSAL);
    StruckRow(n, s.clock);
    assert s.relays[0 := Moving([0])] == map[0 := Moving([0])];
  }

  lemma OneMoreStrike(s: State, n: nat)
    requires Struck(s, n) && n < MAX_RETRIES
    ensures Struck(Exec(s, REFUSED), n + 1)
  {
    FourSteps(s);
    SelectOnly(s, n);
    var s1 := s.(relays := map[0 := Sending([0])]);
    RefuseOnly(s1);
    var s2 := s1.(relays := map[0 := Recording([0], REFUSAL)]);
    StrikeOnly(s2, n);
  }

  lemma FourSteps(s: State)
    ensures Exec(s, REFUSED) == Apply(Apply(Apply(Apply(s, REFUSED[0]), REFUSED[1]), REFUSED[2]), REFUSED[3])
  {
    assert REFUSED[..3][..2] == REFUSED[..2] && REFUSED[..3][..2][..1] == REFUSED[..1] && REFUSED[..1][..0] == [];
    assert Exec(s, REFUSED[..1][..0]) == s;
    assert Exec(s, REFUSED[..1]) == Apply(s, REFUSED[0]);
    assert REFUSED[..2][..1] == REFUSED[..1];
    assert Exec(s, REFUSED[..2]) == Apply(Exec(s, REFUSED[..1]), REFUSED[1]);
    assert Exec(s, REFUSED[..3]) == Apply(Exec(s, REFUSED[..2]), REFUSED[2]);
  }

  lemma {:induction false} ExecAppend(s: State, a: seq<Step>, b: seq<Step>)
    ensures Exec(s, a + b) == Exec(Exec(s, a), b)
  {
    if b == [] {
      assert a + b == a;
    } else {
      ExecAppend(s, a, b[..|b| - 1]);
      assert (a + b)[..|a + b| - 1] == a + b[..|b| - 1];
    }
  }

  lemma FirstOrder()
    ensures Struck(Exec(EMPTY, [Create(0, 0)]), 0)
  {
    OneStep(EMPTY, Create(0, 0));
  }

  lemma {:induction false} StrikeOut(n: nat) returns (steps: seq<Step>)
    requires n <= MAX_RETRIES
    ensures Struck(Exec(EMPTY, steps), n)
  {
    if n == 0 {
      FirstOrder();
      steps := [Create(0, 0)];
    } else {
      var before := StrikeOut(n - 1);
      OneMoreStrike(Exec(EMPTY, before), n - 1);
      ExecAppend(EMPTY, before, REFUSED);
      steps := before + REFUSED;
    }
  }

  /** Five permanent refusals and a relay that dies before its last statement strand the event. */
  lemma StrandingHappens() returns (steps: seq<Step>)
    ensures Stranded(Exec(EMPTY, steps), 0)
  {
    steps := StrikeOut(MAX_RETRIES);
  }

  // ----- what becomes of each message of a batch

  /** Kafka acknowledged the i-th message. */
  predicate Acked(ids: seq<nat>, reply: Reply, i: nat) {
    && i < |ids|
    && (reply.Sent? || (reply.PerMessage? && |reply.verdicts| == |ids| && reply.verdicts[i] == Written))
  }

  /** Kafka refused it for good: by its own verdict, or as the only message of a refused batch. */
  predicate Rejected(ids: seq<nat>, reply: Reply, i: nat) {
    && i < |ids|
    && ((reply.PerMessage? && |reply.verdicts| == |ids| && reply.verdicts[i] == Poison)
        || (reply == Refused(true) && |ids| == 1))
  }

  ghost predicate Ascending(ids: seq<nat>) {
    forall i, j | 0 <= i < j < |ids| :: ids[i] < ids[j]
  }

  lemma SettledIds(ids: seq<nat>, reply: Reply, i: nat)
    requires Ascending(ids) && i < |ids|
    ensures ids[i] in Publishes(ids, reply) <==> Acked(ids, reply, i)
    ensures ids[i] in Strikes(ids, reply) <==> Rejected(ids, reply, i)
  {
    if Verdicts(ids, reply).Some? {
      var verdicts := Verdicts(ids, reply).value;
      WithVerdictPicks(ids, verdicts, Written);
      WithVerdictPicks(ids, verdicts, Poison);
      SameIndex(ids, verdicts, Written, i);
      SameIndex(ids, verdicts, Poison, i);
    }
  }

  lemma SameIndex(ids: seq<nat>, verdicts: seq<Verdict>, v: Verdict, i: nat)
    requires Ascending(ids) && |verdicts| == |ids| && i < |ids|
    ensures ids[i] in WithVerdict(ids, verdicts, v) <==> verdicts[i] == v
  {
    WithVerdictPicks(ids, verdicts, v);
    if ids[i] in WithVerdict(ids, verdicts, v) {
      var k :| 0 <= k < |ids| && ids[k] == ids[i] && verdicts[k] == v;
      assert k == i;
    }
  }

  /** The transaction after the send: an acknowledged row is published at that time, a row refused for good has one more
      strike, every other row is as it was, and just the refused ones go on to the dead-letter statement. */
  lemma RecordSettles(s: State, r: nat, id: nat)
    requires r in s.relays && s.relays[r].Recording? && Ascending(s.relays[r].ids) && id in s.rows
    ensures var Recording(ids, reply) := s.relays[r];
      var s' := Apply(s, Record(r));
      && id in s'.rows
      && (forall i | 0 <= i < |ids| && ids[i] == id ::
            s'.rows[id] == if Acked(ids, reply, i) then s.rows[id].(published := Some(s.clock))
                           else if Rejected(ids, reply, i) then s.rows[id].(retries := s.rows[id].retries + 1)
                           else s.rows[id])
      && (id !in ids ==> s'.rows[id] == s.rows[id])
      && (forall i | 0 <= i < |ids| :: Rejected(ids, reply, i) ==>
            r in s'.relays && s'.relays[r].Moving? && ids[i] in s'.relays[r].ids)
      && (r in s'.relays ==>
            s'.relays[r].Moving?
            && forall k | k in s'.relays[r].ids :: exists i :: 0 <= i < |ids| && ids[i] == k && Rejected(ids, reply, i))
  {
    var Recording(ids, reply) := s.relays[r];
    OutcomeIsOfBatch(ids, reply);
    forall i | 0 <= i < |ids|
      ensures ids[i] in Publishes(ids, reply) <==> Acked(ids, reply, i)
      ensures ids[i] in Strikes(ids, reply) <==> Rejected(ids, reply, i)
    {
      SettledIds(ids, reply, i);
    }
  }

  /** The dead-letter statement: of the refused rows exactly those with all attempts used are gone, each leaving one
      dead letter, and every other row is as it was. */
  lemma MoveSettles(s: State, r: nat, id: nat)
    requires r in s.relays && s.relays[r].Moving? && id in s.rows
    requires forall i, j | i in s.rows && j in s.rows && i != j :: s.rows[i].order != s.rows[j].order
    ensures var s' := Apply(s, MoveToDlq(r)); var o := s.rows[id].order;
      if id in s.relays[r].ids && s.rows[id].retries >= MAX_RETRIES
      then id !in s'.rows && s'.dead[o] == s.dead[o] + 1
      else id in s'.rows && s'.rows[id] == s.rows[id] && s'.dead[o] == s.dead[o]
  {
    var gone := Exhausted(s.rows, s.relays[r].ids);
    assert s.rows[id].order in OrdersAt(s.rows, gone) <==> id in gone;
  }

  /** As many rows are published as messages were acknowledged. */
  lemma {:induction false} PublishedCount(ids: seq<nat>, verdicts: seq<Verdict>)
    requires |ids| == |verdicts|
    ensures |WithVerdict(ids, verdicts, Written)| == |(set i | 0 <= i < |ids| && verdicts[i] == Written)|
  {
    var some := set i | 0 <= i < |ids| && verdicts[i] == Written;
    if ids == [] {
      assert some == {};
    } else {
      var n := |ids| - 1;
      PublishedCount(ids[..n], verdicts[..n]);
      var before := set i | 0 <= i < |ids[..n]| && verdicts[..n][i] == Written;
      assert some == before + (if verdicts[n] == Written then {n} else {});
    }
  }

  lemma AckedCount(ids: seq<nat>, reply: Reply)
    ensures |Publishes(ids, reply)| == |(set i | 0 <= i < |ids| && Acked(ids, reply, i))|
  {
    var acked := set i | 0 <= i < |ids| && Acked(ids, reply, i);
    if Verdicts(ids, reply).Some? {
      var verdicts := Verdicts(ids, reply).value;
      PublishedCount(ids, verdicts);
      assert acked == set i | 0 <= i < |ids| && verdicts[i] == Written;
    } else {
      assert acked == {};
    }
  }
}
