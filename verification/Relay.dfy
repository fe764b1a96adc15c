/** OutboxRelay and the inbox consumer as they are written, with the other relays, consumers and orders
    acting between any two statements. Every execution is a run of the outbox machine. */
module Relay {
  import opened Outbox
  import opened OutboxTheorems

  /** The database, the broker and everyone at work on them. */
  class Cluster {
    var s: State

    constructor ()
      ensures s == EMPTY
    {
      s := EMPTY;
    }

    /** Whatever the others do meanwhile. */
    method Meanwhile(steps: seq<Step>)
      modifies this
      ensures s == Exec(old(s), steps)
    {
      s := Exec(s, steps);
    }

    // ----- the statements of processBatch

    method Lock(r: nat, ids: seq<nat>)
      requires r !in s.relays && ids != [] && Selects(s, ids)
      modifies this
      ensures s == Apply(old(s), Select(r, ids)) && r in s.relays && s.relays[r] == Sending(ids)
    {
      s := s.(relays := s.relays[r := Sending(ids)]);
    }

    method Write(r: nat, reply: Reply, landed: seq<nat>)
      requires r in s.relays && s.relays[r].Sending? && CanReply(s.rows, s.relays[r].ids, reply, landed)
      modifies this
      ensures s == Apply(old(s), Send(r, reply, landed))
      ensures r in s.relays && s.relays[r] == Recording(old(s).relays[r].ids, reply)
    {
      s := s.(log := s.log + landed, relays := s.relays[r := Recording(s.relays[r].ids, reply)]);
    }

    /** Both UPDATEs and the commit. */
    method Update(r: nat, published: seq<nat>, failed: seq<nat>)
      requires r in s.relays && s.relays[r].Recording?
      requires published == Publishes(s.relays[r].ids, s.relays[r].reply)
      requires failed == Strikes(s.relays[r].ids, s.relays[r].reply)
      modifies this
      ensures s == Apply(old(s), Record(r))
      ensures if failed == [] then r !in s.relays else r in s.relays && s.relays[r] == Moving(failed)
    {
      s := s.(marked := s.marked + OrdersOf(s.rows, published),
              rows := RecordRows(s.rows, published, failed, s.clock),
              relays := if failed == [] then s.relays - {r} else s.relays[r := Moving(failed)]);
    }

    method DeleteAndInsert(r: nat)
      requires r in s.relays && s.relays[r].Moving?
      modifies this
      ensures s == Apply(old(s), MoveToDlq(r)) && r !in s.relays
    {
      var gone := Exhausted(s.rows, s.relays[r].ids);
      s := s.(dead := s.dead + multiset(OrdersAt(s.rows, gone)), rows := s.rows - gone, relays := s.relays - {r});
    }

    method Abandon(r: nat)
      modifies this
      ensures s == Apply(old(s), RelayDies(r)) && r !in s.relays
    {
      s := s.(relays := s.relays - {r});
    }

    /** One DELETE of the clean-up. */
    method Delete(aged: set<nat>)
      requires Cleans(s, aged)
      modifies this
      ensures s == Apply(old(s), Clean(aged)) && s.rows == old(s).rows - aged && s.clock == old(s).clock
    {
      s := s.(cleaned := s.cleaned + multiset(OrdersAt(s.rows, aged)), rows := s.rows - aged);
    }

    // ----- the statements of processWithInbox

    /** INSERT ... ON CONFLICT DO NOTHING; a duplicate commits at once. */
    method InsertInbox(c: nat) returns (duplicate: bool)
      requires c in s.consumers && s.consumers[c].Fetched? && !InboxLocked(s, s.consumers[c].order)
      modifies this
      ensures s == Apply(old(s), Consume(c, true)) && s.inbox == old(s).inbox
      ensures duplicate <==> old(s).consumers[c].order in s.inbox
      ensures if duplicate then c !in s.consumers
          else c in s.consumers && s.consumers[c] == Inserted(old(s).consumers[c].order)
    {
      var o := s.consumers[c].order;
      duplicate := o in s.inbox;
      s := s.(consumers := if duplicate then s.consumers - {c} else s.consumers[c := Inserted(o)]);
    }

    method Handle(c: nat, ok: bool)
      requires c in s.consumers && s.consumers[c].Inserted?
      modifies this
      ensures s == Apply(old(s), Consume(c, ok))
      ensures if ok then c in s.consumers && s.consumers[c] == Handled(old(s).consumers[c].order) else c !in s.consumers
    {
      s := s.(consumers := if ok then s.consumers[c := Handled(s.consumers[c].order)] else s.consumers - {c});
    }

    method Commit(c: nat)
      requires c in s.consumers && s.consumers[c].Handled?
      modifies this
      ensures s == Apply(old(s), Consume(c, true)) && c !in s.consumers && old(s).consumers[c].order in s.inbox
    {
      var o := s.consumers[c].order;
      s := s.(consumers := s.consumers - {c}, inbox := s.inbox + {o}, effects := s.effects + multiset{o});
    }

    method Rollback(c: nat)
      modifies this
      ensures s == Apply(old(s), ConsumerDies(c)) && c !in s.consumers
    {
      s := s.(consumers := s.consumers - {c});
    }
  }

  lemma ExecThen(s: State, steps: seq<Step>, step: Step)
    ensures Exec(s, steps + [step]) == Apply(Exec(s, steps), step)
  {
    assert (steps + [step])[..|steps|] == steps;
  }

  // ----- one relay among others

  predicate ForeignRelay(step: Step, r: nat) {
    match step
    case Select(q, _) => q != r
    case Send(q, _, _) => q != r
    case Record(q) => q != r
    case MoveToDlq(q) => q != r
    case RelayDies(q) => q != r
    case _ => true
  }

  predicate AllForeignRelay(steps: seq<Step>, r: nat) {
    forall i | 0 <= i < |steps| :: ForeignRelay(steps[i], r)
  }

  ghost predicate SameRelay(s: State, s': State, r: nat) {
    (r in s'.relays <==> r in s.relays) && (r in s.relays ==> s'.relays[r] == s.relays[r])
  }

  lemma ForeignStepKeepsRelay(s: State, step: Step, r: nat)
    requires ForeignRelay(step, r)
    ensures SameRelay(s, Apply(s, step), r)
  {
  }

  lemma {:induction false} ForeignRunKeepsRelay(s: State, steps: seq<Step>, r: nat)
    requires AllForeignRelay(steps, r)
    ensures SameRelay(s, Exec(s, steps), r)
  {
    if steps != [] {
      var init := steps[..|steps| - 1];
      ForeignRunKeepsRelay(s, init, r);
      ForeignStepKeepsRelay(Exec(s, init), steps[|steps| - 1], r);
    }
  }

  // ----- processBatch

  method Least(s: set<nat>) returns (m: nat)
    requires s != {}
    ensures m in s && forall x | x in s :: m <= x
  {
    m :| m in s;
    var rest := s - {m};
    while rest != {}
      invariant m in s && rest <= s
      invariant forall x | x in s && x !in rest :: m <= x
      decreases rest
    {
      var x :| x in rest;
      if x < m { m := x; }
      rest := rest - {x};
    }
  }

  /** ORDER BY id LIMIT n: the n lowest of the candidates. */
  method Lowest(candidates: set<nat>, n: nat) returns (ids: seq<nat>)
    ensures |ids| <= n && (forall i | 0 <= i < |ids| :: ids[i] in candidates)
    ensures forall i, j | 0 <= i < j < |ids| :: ids[i] < ids[j]
    ensures forall id | id in candidates :: id in ids || (|ids| == n && forall i | 0 <= i < |ids| :: ids[i] < id)
  {
    ids := [];
    var rest := candidates;
    while rest != {} && |ids| < n
      invariant rest <= candidates && |ids| <= n
      invariant forall i | 0 <= i < |ids| :: ids[i] in candidates && ids[i] !in rest
      invariant forall id | id in candidates && id !in rest :: id in ids
      invariant forall i, id | 0 <= i < |ids| && id in rest :: ids[i] < id
      invariant forall i, j | 0 <= i < j < |ids| :: ids[i] < ids[j]
      decreases rest
    {
      var id := Least(rest);
      ids, rest := ids + [id], rest - {id};
    }
  }

  /** The environment of one processBatch: the others' steps between its statements, Kafka's answer and
      what landed, and which of its statements fail. */
  datatype Weather = Weather(reply: Reply, landed: seq<nat>, beforeSend: seq<Step>, beforeRecord: seq<Step>,
                             recordFails: bool, beforeMove: seq<Step>, moveFails: bool)

  predicate GoodWeather(w: Weather, r: nat) {
    AllForeignRelay(w.beforeSend, r) && AllForeignRelay(w.beforeRecord, r) && AllForeignRelay(w.beforeMove, r)
  }

  function SendRun(r: nat, reply: Reply, landed: seq<nat>, w: Weather): seq<Step> {
    w.beforeSend + [Send(r, reply, landed)]
  }

  function RecordRun(r: nat, ids: seq<nat>, reply: Reply, w: Weather): seq<Step> {
    if w.recordFails then w.beforeRecord + [RelayDies(r)]
    else if Strikes(ids, reply) == [] then w.beforeRecord + [Record(r)]
    else w.beforeRecord + [Record(r)] + MoveRun(r, w)
  }

  function MoveRun(r: nat, w: Weather): seq<Step> {
    w.beforeMove + [if w.moveFails then RelayDies(r) else MoveToDlq(r)]
  }

  /** The run of one processBatch on the rows `ids` when Kafka answers `reply`. */
  function BatchRun(r: nat, ids: seq<nat>, reply: Reply, landed: seq<nat>, w: Weather): seq<Step> {
    if ids == [] then [] else [Select(r, ids)] + SendRun(r, reply, landed, w) + RecordRun(r, ids, reply, w)
  }

  /** OutboxRelay.processBatch: the rows selected are the lowest free ones, and the whole call is this
      run; n is the number of rows it published. */
  method ProcessBatch(sys: Cluster, r: nat, w: Weather)
    returns (n: nat, failed: bool, ghost ids: seq<nat>, ghost reply: Reply, ghost landed: seq<nat>)
    requires r !in sys.s.relays && GoodWeather(w, r)
    modifies sys
    ensures Selects(old(sys.s), ids)
    ensures sys.s == Exec(old(sys.s), BatchRun(r, ids, reply, landed, w)) && r !in sys.s.relays
    ensures n == if ids == [] || w.recordFails then 0 else |(set i | 0 <= i < |ids| && Acked(ids, reply, i))|
    ensures !failed <==> ids == [] || (reply == Sent && !w.recordFails)
  {
    ghost var s0 := sys.s;
    var free := set id | id in sys.s.rows && Eligible(sys.s, id);
    var batch := Lowest(free, BATCH_SIZE);
    ids, reply, landed := batch, Sent, [];
    if batch == [] {
      return 0, false, ids, reply, landed;
    }
    sys.Lock(r, batch);
    OneStep(s0, Select(r, ids));
    var answer, wrote := SendBatch(sys, r, w);
    reply, landed := answer, wrote;
    ExecAppend(s0, [Select(r, ids)], SendRun(r, reply, landed, w));
    n, failed := RecordBatch(sys, r, w);
    AckedCount(ids, reply);
    ExecAppend(s0, [Select(r, ids)] + SendRun(r, reply, landed, w), RecordRun(r, ids, reply, w));
  }

  method SendBatch(sys: Cluster, r: nat, w: Weather) returns (reply: Reply, landed: seq<nat>)
    requires r in sys.s.relays && sys.s.relays[r].Sending? && GoodWeather(w, r)
    modifies sys
    ensures sys.s == Exec(old(sys.s), SendRun(r, reply, landed, w))
    ensures r in sys.s.relays && sys.s.relays[r] == Recording(old(sys.s).relays[r].ids, reply)
  {
    ghost var s0 := sys.s;
    sys.Meanwhile(w.beforeSend);
    ForeignRunKeepsRelay(s0, w.beforeSend, r);
    reply, landed := w.reply, w.landed;
    if !CanReply(sys.s.rows, sys.s.relays[r].ids, reply, landed) {
      reply, landed := Refused(false), [];
    }
    sys.Write(r, reply, landed);
    ExecThen(s0, w.beforeSend, Send(r, reply, landed));
  }

  /** The loop over the per-message errors. */
  method Sort(ids: seq<nat>, verdicts: seq<Verdict>) returns (published: seq<nat>, failed: seq<nat>)
    requires |ids| == |verdicts|
    ensures published == WithVerdict(ids, verdicts, Written) && failed == WithVerdict(ids, verdicts, Poison)
  {
    published, failed := [], [];
    var i := 0;
    while i < |verdicts|
      invariant 0 <= i <= |verdicts|
      invariant published == WithVerdict(ids[..i], verdicts[..i], Written)
      invariant failed == WithVerdict(ids[..i], verdicts[..i], Poison)
    {
      assert ids[..i + 1][..i] == ids[..i] && verdicts[..i + 1][..i] == verdicts[..i];
      match verdicts[i] {
        case Written => published := published + [ids[i]];
        case Poison => failed := failed + [ids[i]];
        case Temporary =>
      }
      i := i + 1;
    }
    assert ids[..i] == ids && verdicts[..i] == verdicts;
  }

  /** The switch on WriteMessages' error; a whole-batch error that is nobody's fault leaves both empty. */
  method Judge(ids: seq<nat>, reply: Reply) returns (published: seq<nat>, failed: seq<nat>)
    ensures published == Publishes(ids, reply) && failed == Strikes(ids, reply)
  {
    if reply == Sent {
      AllWritten(ids);
      return ids, [];
    }
    var perMsg: seq<Verdict>;
    if reply.PerMessage? {
      if |reply.verdicts| != |ids| { return [], []; }
      perMsg := reply.verdicts;
    } else if reply.poison && |ids| == 1 {
      perMsg := [Poison];
    } else {
      return [], [];
    }
    published, failed := Sort(ids, perMsg);
  }

  lemma {:induction false} AllWritten(ids: seq<nat>)
    ensures Publishes(ids, Sent) == ids && Strikes(ids, Sent) == []
  {
    if ids != [] {
      var n := |ids| - 1;
      AllWritten(ids[..n]);
      assert seq(|ids|, i => Written)[..n] == seq(n, i => Written);
    }
  }

  method RecordBatch(sys: Cluster, r: nat, w: Weather) returns (n: nat, failed: bool)
    requires r in sys.s.relays && sys.s.relays[r].Recording? && GoodWeather(w, r)
    modifies sys
    ensures var Recording(ids, reply) := old(sys.s).relays[r];
      && sys.s == Exec(old(sys.s), RecordRun(r, ids, reply, w)) && r !in sys.s.relays
      && n == (if w.recordFails then 0 else |Publishes(ids, reply)|)
      && (!failed <==> reply == Sent && !w.recordFails)
  {
    ghost var s0 := sys.s;
    sys.Meanwhile(w.beforeRecord);
    ForeignRunKeepsRelay(s0, w.beforeRecord, r);
    if w.recordFails {
      sys.Abandon(r);
      ExecThen(s0, w.beforeRecord, RelayDies(r));
      return 0, true;
    }
    var ids, reply := sys.s.relays[r].ids, sys.s.relays[r].reply;
    var published, struck := Judge(ids, reply);
    sys.Update(r, published, struck);
    ExecThen(s0, w.beforeRecord, Record(r));
    n, failed := |published|, reply != Sent;
    if struck != [] {
      MoveDead(sys, r, w);
      ExecAppend(s0, w.beforeRecord + [Record(r)], MoveRun(r, w));
    }
  }

  /** OutboxRelay.moveToDLQ: one statement deletes the exhausted rows and inserts the dead letters; its
      failure is only logged. */
  method MoveDead(sys: Cluster, r: nat, w: Weather)
    requires r in sys.s.relays && sys.s.relays[r].Moving? && GoodWeather(w, r)
    modifies sys
    ensures sys.s == Exec(old(sys.s), MoveRun(r, w)) && r !in sys.s.relays
  {
    ghost var s0 := sys.s;
    sys.Meanwhile(w.beforeMove);
    ForeignRunKeepsRelay(s0, w.beforeMove, r);
    if w.moveFails {
      sys.Abandon(r);
      ExecThen(s0, w.beforeMove, RelayDies(r));
    } else {
      sys.DeleteAndInsert(r);
      ExecThen(s0, w.beforeMove, MoveToDlq(r));
    }
  }

  // ----- cleanup

  predicate AllClean(steps: seq<Step>, size: nat) {
    forall i | 0 <= i < |steps| :: steps[i].Clean? && |steps[i].aged| == size
  }

  function ToSet(ids: seq<nat>): set<nat> {
    set i | 0 <= i < |ids| :: ids[i]
  }

  lemma {:induction false} AscendingSize(ids: seq<nat>)
    requires forall i, j | 0 <= i < j < |ids| :: ids[i] < ids[j]
    ensures |ToSet(ids)| == |ids|
  {
    if ids != [] {
      var n := |ids| - 1;
      AscendingSize(ids[..n]);
      assert ToSet(ids) == ToSet(ids[..n]) + {ids[n]};
    }
  }

  /** Only rows published longer than the retention ago are gone, and the rest is as it was. */
  ghost predicate OnlyAgedGone(s: State, s': State) {
    && s'.clock == s.clock
    && (forall id | id in s.rows && (s.rows[id].published.None? || s.clock <= s.rows[id].published.value + RETENTION) ::
          id in s'.rows)
    && (forall id | id in s'.rows :: id in s.rows && s'.rows[id] == s.rows[id])
  }

  ghost predicate NoneAged(s: State) {
    forall id | id in s.rows && s.rows[id].published.Some? :: s.clock <= s.rows[id].published.value + RETENTION
  }

  /** One DELETE of the lowest rows past the retention; `last` when it was not a full batch. */
  method CleanOnce(sys: Cluster) returns (last: bool, ghost aged: set<nat>)
    modifies sys
    ensures sys.s == Apply(old(sys.s), Clean(aged)) && OnlyAgedGone(old(sys.s), sys.s)
    ensures if last then NoneAged(sys.s) else |aged| == CLEANUP_BATCH
  {
    var past := set id | id in sys.s.rows && PastRetention(sys.s.rows[id], sys.s.clock);
    var ids := Lowest(past, CLEANUP_BATCH);
    AscendingSize(ids);
    aged := ToSet(ids);
    var gone := ToSet(ids);
    forall id | id in ids ensures id in gone {
      var i :| 0 <= i < |ids| && ids[i] == id;
    }
    sys.Delete(gone);
    last := |ids| < CLEANUP_BATCH;
  }

  /** OutboxRelay.cleanup, whose statements may fail from the k-th on: it removes published rows older
      than the retention and nothing else, until none is left, or after twenty full batches. */
  method Cleanup(sys: Cluster, failsAt: nat) returns (failed: bool, ghost steps: seq<Step>)
    modifies sys
    ensures sys.s == Exec(old(sys.s), steps) && OnlyAgedGone(old(sys.s), sys.s)
    ensures !failed ==> NoneAged(sys.s) || (|steps| == 20 && AllClean(steps, CLEANUP_BATCH))
    ensures failed ==> |steps| == failsAt && AllClean(steps, CLEANUP_BATCH)
  {
    ghost var s0 := sys.s;
    steps := [];
    var i := 0;
    while i < 20
      invariant 0 <= i <= 20 && |steps| == i <= failsAt && AllClean(steps, CLEANUP_BATCH)
      invariant sys.s == Exec(s0, steps) && OnlyAgedGone(s0, sys.s)
    {
      if i == failsAt { return true, steps; }
      var last;
      ghost var aged;
      last, aged := CleanOnce(sys);
      ExecThen(s0, steps, Clean(aged));
      steps := steps + [Clean(aged)];
      i := i + 1;
      if last { return false, steps; }
    }
    failed := false;
  }

  // ----- the inbox

  predicate ForeignConsumer(step: Step, c: nat) {
    match step
    case Fetch(b, _) => b != c
    case Consume(b, _) => b != c
    case ConsumerDies(b) => b != c
    case _ => true
  }

  predicate AllForeignConsumer(steps: seq<Step>, c: nat) {
    forall i | 0 <= i < |steps| :: ForeignConsumer(steps[i], c)
  }

  lemma ForeignStepKeepsConsumer(s: State, step: Step, c: nat)
    requires ForeignConsumer(step, c) && c in s.consumers
    ensures var s' := Apply(s, step); c in s'.consumers && s'.consumers[c] == s.consumers[c]
  {
  }

  lemma {:induction false} ForeignRunKeepsConsumer(s: State, steps: seq<Step>, c: nat)
    requires AllForeignConsumer(steps, c) && c in s.consumers
    ensures var s' := Exec(s, steps); c in s'.consumers && s'.consumers[c] == s.consumers[c]
  {
    if steps != [] {
      var init := steps[..|steps| - 1];
      ForeignRunKeepsConsumer(s, init, c);
      ForeignStepKeepsConsumer(Exec(s, init), steps[|steps| - 1], c);
    }
  }

  /** The environment of one message: the others' steps, and which statements fail. */
  datatype Handling = Handling(beforeInsert: seq<Step>, insertFails: bool, beforeHandler: seq<Step>, handlerOk: bool,
                               beforeCommit: seq<Step>, commitFails: bool)

  predicate GoodHandling(h: Handling, c: nat) {
    AllForeignConsumer(h.beforeInsert, c) && AllForeignConsumer(h.beforeHandler, c)
        && AllForeignConsumer(h.beforeCommit, c)
  }

  datatype Processing = NewlyDone | Duplicate | InboxError

  function HandleRun(c: nat, h: Handling): seq<Step> {
    h.beforeHandler + [Consume(c, h.handlerOk)] +
    (if !h.handlerOk then [] else h.beforeCommit + [if h.commitFails then ConsumerDies(c) else Consume(c, true)])
  }

  /** The run of one processWithInbox. */
  function InboxRun(c: nat, h: Handling, duplicate: bool): seq<Step> {
    if h.insertFails then h.beforeInsert + [ConsumerDies(c)]
    else if duplicate then h.beforeInsert + [Consume(c, true)]
    else h.beforeInsert + [Consume(c, true)] + HandleRun(c, h)
  }

  /** processWithInbox for a fetched message, once no uncommitted rival blocks its INSERT: the whole call
      is this run; without an error the event is in the inbox, and an error means it was not yet there. */
  method ProcessWithInbox(sys: Cluster, c: nat, h: Handling) returns (r: Processing)
    requires c in sys.s.consumers && sys.s.consumers[c].Fetched? && GoodHandling(h, c)
    requires !InboxLocked(Exec(sys.s, h.beforeInsert), sys.s.consumers[c].order)
    modifies sys
    ensures sys.s == Exec(old(sys.s), InboxRun(c, h, r == Duplicate)) && c !in sys.s.consumers
    ensures var o, before := old(sys.s).consumers[c].order, Exec(old(sys.s), h.beforeInsert).inbox;
      && (r == Duplicate <==> !h.insertFails && o in before)
      && (r == NewlyDone <==> !h.insertFails && o !in before && h.handlerOk && !h.commitFails)
      && (r == NewlyDone ==> o in sys.s.inbox)
  {
    ghost var s0 := sys.s;
    sys.Meanwhile(h.beforeInsert);
    ForeignRunKeepsConsumer(s0, h.beforeInsert, c);
    if h.insertFails {
      sys.Rollback(c);
      ExecThen(s0, h.beforeInsert, ConsumerDies(c));
      return InboxError;
    }
    var duplicate := sys.InsertInbox(c);
    ExecThen(s0, h.beforeInsert, Consume(c, true));
    if duplicate { return Duplicate; }
    var done := HandleAndCommit(sys, c, h);
    ExecAppend(s0, h.beforeInsert + [Consume(c, true)], HandleRun(c, h));
    r := if done then NewlyDone else InboxError;
  }

  /** fn and Commit. */
  method HandleAndCommit(sys: Cluster, c: nat, h: Handling) returns (done: bool)
    requires c in sys.s.consumers && sys.s.consumers[c].Inserted? && GoodHandling(h, c)
    modifies sys
    ensures sys.s == Exec(old(sys.s), HandleRun(c, h)) && c !in sys.s.consumers
    ensures done <==> h.handlerOk && !h.commitFails
    ensures done ==> old(sys.s).consumers[c].order in sys.s.inbox
  {
    ghost var s0 := sys.s;
    sys.Meanwhile(h.beforeHandler);
    ForeignRunKeepsConsumer(s0, h.beforeHandler, c);
    sys.Handle(c, h.handlerOk);
    ghost var steps := h.beforeHandler + [Consume(c, h.handlerOk)];
    ExecThen(s0, h.beforeHandler, Consume(c, h.handlerOk));
    if !h.handlerOk {
      assert HandleRun(c, h) == steps;
      return false;
    }
    ghost var s1 := sys.s;
    sys.Meanwhile(h.beforeCommit);
    ForeignRunKeepsConsumer(s1, h.beforeCommit, c);
    if h.commitFails { sys.Rollback(c); } else { sys.Commit(c); }
    ghost var ending := if h.commitFails then ConsumerDies(c) else Consume(c, true);
    ExecThen(s1, h.beforeCommit, ending);
    ExecAppend(s0, steps, h.beforeCommit + [ending]);
    done := !h.commitFails;
  }
}
