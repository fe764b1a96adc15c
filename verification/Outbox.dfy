/** The transactional outbox from end to end: orders committed with their event, several relays, a
    direct producer, the dead-letter table, the clean-up, and consumers with an inbox. */
module Outbox {
  import opened Domain

  const MAX_RETRIES := 5
  const BATCH_SIZE := 100
  const RETENTION := 86_400_000_000_000 // 24 hours in nanoseconds
  const CLEANUP_BATCH := 5000

  /** A row of the outbox table; `published` is published_at. */
  datatype Row = Row(order: nat, retries: nat, published: Option<nat>)

  /** What Kafka says of one message: written, refused for good, or a temporary error. */
  datatype Verdict = Written | Poison | Temporary

  /** What WriteMessages returns: nil, one error per message, or one error for the batch. */
  datatype Reply = Sent | PerMessage(verdicts: seq<Verdict>) | Refused(poison: bool)

  /** A relay inside processBatch, by its next statement. */
  datatype Relay = Sending(ids: seq<nat>) | Recording(ids: seq<nat>, reply: Reply) | Moving(ids: seq<nat>)

  /** A consumer inside processWithInbox. */
  datatype Consumer = Fetched(order: nat) | Inserted(order: nat) | Handled(order: nat)

  /** `marked` and `cleaned` are history: the orders ever marked published, and those cleaned up. */
  datatype State = State(orders: set<nat>, rows: map<nat, Row>, used: set<nat>, dead: multiset<nat>,
                         log: seq<nat>, relays: map<nat, Relay>, consumers: map<nat, Consumer>,
                         inbox: set<nat>, effects: multiset<nat>, clock: nat,
                         marked: set<nat>, cleaned: multiset<nat>)

  datatype Step =
    | Tick(d: nat)
    | Create(order: nat, id: nat)
    | Direct(order: nat)
    | Select(relay: nat, ids: seq<nat>)
    | Send(relay: nat, reply: Reply, landed: seq<nat>)
    | Record(relay: nat)
    | MoveToDlq(relay: nat)
    | RelayDies(relay: nat)
    | Clean(aged: set<nat>)
    | Fetch(consumer: nat, offset: nat)
    | Consume(consumer: nat, ok: bool)
    | ConsumerDies(consumer: nat)

  const EMPTY := State({}, map[], {}, multiset{}, [], map[], map[], {}, multiset{}, 0, {}, multiset{})

  // ----- relays

  predicate Claimed(relay: Relay, id: nat) {
    !relay.Moving? && id in relay.ids
  }

  /** FOR UPDATE holds the row from the SELECT to the end of the transaction. */
  predicate Locked(s: State, id: nat) {
    exists r | r in s.relays :: Claimed(s.relays[r], id)
  }

  predicate Eligible(s: State, id: nat) {
    id in s.rows && s.rows[id].published.None? && s.rows[id].retries < MAX_RETRIES && !Locked(s, id)
  }

  /** The SELECT: the lowest eligible ids in order, at most BATCH_SIZE, locked rows skipped. */
  predicate Selects(s: State, ids: seq<nat>) {
    && |ids| <= BATCH_SIZE
    && (forall i | 0 <= i < |ids| :: Eligible(s, ids[i]))
    && (forall i, j | 0 <= i < j < |ids| :: ids[i] < ids[j])
    && (forall id | id in s.rows && Eligible(s, id) ::
          id in ids || (|ids| == BATCH_SIZE && forall i | 0 <= i < |ids| :: ids[i] < id))
  }

  function OrdersOf(rows: map<nat, Row>, ids: seq<nat>): set<nat> {
    set i | 0 <= i < |ids| && ids[i] in rows :: rows[ids[i]].order
  }

  /** Which replies can come back: whatever is not acknowledged may have landed all the same, even twice. */
  predicate CanReply(rows: map<nat, Row>, ids: seq<nat>, reply: Reply, landed: seq<nat>) {
    && (forall m | m in landed :: m in OrdersOf(rows, ids))
    && match reply
       case Sent => forall o | o in OrdersOf(rows, ids) :: o in landed
       case PerMessage(verdicts) =>
         && |verdicts| == |ids|
         && forall i | 0 <= i < |ids| && verdicts[i] == Written && ids[i] in rows :: rows[ids[i]].order in landed
       case Refused(_) => true
  }

  /** The rows with a given verdict, in order. */
  function WithVerdict(ids: seq<nat>, verdicts: seq<Verdict>, v: Verdict): seq<nat>
    requires |ids| == |verdicts|
  {
    if ids == [] then []
    else
      var n := |ids| - 1;
      WithVerdict(ids[..n], verdicts[..n], v) + (if verdicts[n] == v then [ids[n]] else [])
  }

  /** A permanent error for a batch of one counts as that message's own. */
  function Verdicts(ids: seq<nat>, reply: Reply): Option<seq<Verdict>> {
    match reply
    case Sent => Some(seq(|ids|, i => Written))
    case PerMessage(verdicts) => if |verdicts| == |ids| then Some(verdicts) else None
    case Refused(poison) => if poison && |ids| == 1 then Some([Poison]) else None
  }

  function Publishes(ids: seq<nat>, reply: Reply): seq<nat> {
    match Verdicts(ids, reply)
    case None => []
    case Some(verdicts) => WithVerdict(ids, verdicts, Written)
  }

  function Strikes(ids: seq<nat>, reply: Reply): seq<nat> {
    match Verdicts(ids, reply)
    case None => []
    case Some(verdicts) => WithVerdict(ids, verdicts, Poison)
  }

  /** The two UPDATEs of the transaction. */
  function RecordRows(rows: map<nat, Row>, published: seq<nat>, failed: seq<nat>, now: nat): map<nat, Row> {
    map id | id in rows ::
      if id in published then rows[id].(published := Some(now))
      else if id in failed then rows[id].(retries := rows[id].retries + 1)
      else rows[id]
  }

  /** The rows the dead-letter statement deletes. */
  function Exhausted(rows: map<nat, Row>, ids: seq<nat>): set<nat> {
    set id | id in rows && id in ids && rows[id].retries >= MAX_RETRIES
  }

  function OrdersAt(rows: map<nat, Row>, ids: set<nat>): set<nat> {
    set id | id in ids && id in rows :: rows[id].order
  }

  /** The clean-up statement: at most a batch of published rows older than the retention. */
  predicate Cleans(s: State, ids: set<nat>) {
    && |ids| <= CLEANUP_BATCH
    && (forall id | id in ids :: id in s.rows && PastRetention(s.rows[id], s.clock))
  }

  predicate PastRetention(row: Row, now: nat) {
    row.published.Some? && row.published.value + RETENTION < now
  }

  // ----- consumers

  predicate Holding(c: Consumer, order: nat) {
    !c.Fetched? && c.order == order
  }

  /** An uncommitted inbox row of another consumer blocks the INSERT. */
  predicate InboxLocked(s: State, order: nat) {
    exists c | c in s.consumers :: Holding(s.consumers[c], order)
  }

  function ApplyConsumer(s: State, c: nat, ok: bool): State
    requires c in s.consumers
  {
    match s.consumers[c]
    case Fetched(o) =>
      if o in s.inbox then s.(consumers := s.consumers - {c})
      else if InboxLocked(s, o) then s
      else s.(consumers := s.consumers[c := Inserted(o)])
    case Inserted(o) =>
      if ok then s.(consumers := s.consumers[c := Handled(o)]) else s.(consumers := s.consumers - {c})
    case Handled(o) =>
      s.(consumers := s.consumers - {c}, inbox := s.inbox + {o}, effects := s.effects + multiset{o})
  }

  function ApplyRelay(s: State, r: nat): State
    requires r in s.relays
  {
    match s.relays[r]
    case Sending(_) => s
    case Recording(ids, reply) =>
      var published, failed := Publishes(ids, reply), Strikes(ids, reply);
      s.(rows := RecordRows(s.rows, published, failed, s.clock),
         marked := s.marked + OrdersOf(s.rows, published),
         relays := if failed == [] then s.relays - {r} else s.relays[r := Moving(failed)])
    case Moving(ids) =>
      var gone := Exhausted(s.rows, ids);
      s.(rows := s.rows - gone, dead := s.dead + multiset(OrdersAt(s.rows, gone)), relays := s.relays - {r})
  }

  function Apply(s: State, step: Step): State {
    match step
    case Tick(d) => s.(clock := s.clock + d)
    // the order and its outbox row in one transaction
    case Create(o, id) =>
      if o in s.orders || id in s.used then s
      else s.(orders := s.orders + {o}, used := s.used + {id}, rows := s.rows[id := Row(o, 0, None)])
    case Direct(o) => if o in s.orders then s.(log := s.log + [o]) else s
    case Select(r, ids) =>
      if r !in s.relays && ids != [] && Selects(s, ids) then s.(relays := s.relays[r := Sending(ids)]) else s
    case Send(r, reply, landed) =>
      if r in s.relays && s.relays[r].Sending? && CanReply(s.rows, s.relays[r].ids, reply, landed)
      then s.(log := s.log + landed, relays := s.relays[r := Recording(s.relays[r].ids, reply)])
      else s
    case Record(r) => if r in s.relays && s.relays[r].Recording? then ApplyRelay(s, r) else s
    case MoveToDlq(r) => if r in s.relays && s.relays[r].Moving? then ApplyRelay(s, r) else s
    case RelayDies(r) => s.(relays := s.relays - {r})
    case Clean(aged) =>
      if Cleans(s, aged) then s.(rows := s.rows - aged, cleaned := s.cleaned + multiset(OrdersAt(s.rows, aged))) else s
    case Fetch(c, i) =>
      if c !in s.consumers && i < |s.log| then s.(consumers := s.consumers[c := Fetched(s.log[i])]) else s
    case Consume(c, ok) => if c in s.consumers then ApplyConsumer(s, c, ok) else s
    case ConsumerDies(c) => s.(consumers := s.consumers - {c})
  }

  function Exec(s: State, steps: seq<Step>): State {
    if steps == [] then s else Apply(Exec(s, steps[..|steps| - 1]), steps[|steps| - 1])
  }

  // ----- the invariant

  /** Every committed order has its event in exactly one place. */
  ghost predicate Placed(s: State) {
    && (forall id | id in s.rows :: id in s.used && s.rows[id].order in s.orders)
    && (forall i, j | i in s.rows && j in s.rows && i != j :: s.rows[i].order != s.rows[j].order)
    && (forall o | o in s.dead :: o in s.orders && s.dead[o] == 1 && o !in s.cleaned)
    && (forall o | o in s.cleaned :: o in s.orders && s.cleaned[o] == 1)
    && (forall id | id in s.rows :: s.rows[id].order !in s.dead && s.rows[id].order !in s.cleaned)
    && (forall o | o in s.orders :: o in s.dead || o in s.cleaned || HasRow(s, o))
  }

  ghost predicate HasRow(s: State, o: nat) {
    exists id :: id in s.rows && s.rows[id].order == o
  }

  ghost predicate PublishedIsSent(s: State) {
    && (forall o | o in s.log :: o in s.orders)
    && (forall id | id in s.rows && s.rows[id].published.Some? :: s.rows[id].order in s.marked)
    && (forall o | o in s.marked :: o in s.log)
    && (forall o | o in s.cleaned :: o in s.marked)
  }

  ghost predicate RetriesOk(s: State) {
    forall id | id in s.rows :: RowOk(s, s.rows[id])
  }

  ghost predicate RowOk(s: State, row: Row) {
    && row.retries <= MAX_RETRIES && (row.published.None? ==> row.order !in s.marked)
    && (row.retries == MAX_RETRIES ==> row.published.None?)
  }

  ghost predicate RelayOk(s: State, relay: Relay) {
    match relay
    case Sending(ids) => ClaimsOk(s, ids)
    case Recording(ids, reply) =>
      ClaimsOk(s, ids) && forall k | 0 <= k < |Publishes(ids, reply)| ::
        Publishes(ids, reply)[k] in s.rows && s.rows[Publishes(ids, reply)[k]].order in s.log
    case Moving(_) => true
  }

  ghost predicate ClaimsOk(s: State, ids: seq<nat>) {
    forall i | 0 <= i < |ids| ::
          ids[i] in s.rows && s.rows[ids[i]].published.None? && s.rows[ids[i]].retries < MAX_RETRIES
  }

  ghost predicate RelaysOk(s: State) {
    && (forall r | r in s.relays :: RelayOk(s, s.relays[r]))
    && (forall q, r, id | q in s.relays && r in s.relays && q != r ::
          !(Claimed(s.relays[q], id) && Claimed(s.relays[r], id)))
  }

  ghost predicate DeadNeverMarked(s: State) {
    forall o | o in s.dead :: o !in s.marked
  }

  ghost predicate InboxOk(s: State) {
    && (forall c | c in s.consumers ::
          s.consumers[c].order in s.orders && (!s.consumers[c].Fetched? ==> s.consumers[c].order !in s.inbox))
    && (forall b, c | b in s.consumers && c in s.consumers && b != c ::
          !s.consumers[b].Fetched? && !s.consumers[c].Fetched? ==> s.consumers[b].order != s.consumers[c].order)
    && (forall o | o in s.inbox :: o in s.orders)
    && (forall o: nat :: s.effects[o] == if o in s.inbox then 1 else 0)
  }

  ghost predicate Inv(s: State) {
    Placed(s) && PublishedIsSent(s) && RetriesOk(s) && RelaysOk(s) && DeadNeverMarked(s) && InboxOk(s)
  }
}
