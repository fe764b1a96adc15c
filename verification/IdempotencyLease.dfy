/** The lease of an Idempotency-Key: at most one live execution per key, and a stored answer is replayed. */
module IdempotencyLease {

  const LEASE: nat := 15_000_000_000          // 15 seconds in nanoseconds
  const TTL: nat := 86_400_000_000_000        // 24 hours
  const DEADLINE: nat := 8_000_000_000        // what an execution has: its context ends then

  datatype Status = InProgress | Completed(code: int, body: string)

  /** A row of payment_requests. */
  datatype Row = Row(hash: string, status: Status, lockedUntil: nat, expiresAt: nat)

  datatype Claimed = Owner | Mismatch | Busy | Replay(code: int, body: string)

  type Table = map<string, Row>

  predicate Grants(table: Table, key: string, hash: string, now: nat) {
    ClaimTx(table, key, hash, now).1 == Owner
  }

  /** IdempotencyRepo.Claim: a new or expired key is taken afresh, a lapsed lease is taken over. */
  function ClaimTx(table: Table, key: string, hash: string, now: nat): (Table, Claimed) {
    if key !in table || table[key].expiresAt < now then
      (table[key := Row(hash, InProgress, now + LEASE, now + TTL)], Owner)
    else
      var row := table[key];
      if row.hash != hash then (table, Mismatch)
      else if row.status.Completed? then (table, Replay(row.status.code, row.status.body))
      else if now <= row.lockedUntil then (table, Busy)
      else (table[key := row.(lockedUntil := now + LEASE)], Owner)
  }

  /** IdempotencyRepo.Complete asks neither who owns the key nor what is stored. */
  function CompleteTx(table: Table, key: string, code: int, body: string): Table {
    if key in table then table[key := table[key].(status := Completed(code, body))] else table
  }

  function ReleaseTx(table: Table, key: string, now: nat): Table {
    if key in table && table[key].status.InProgress? then table[key := table[key].(lockedUntil := now)] else table
  }

  /** An execution that was granted the key at `at`; `until` is the last moment of its grant. */
  datatype Worker = Worker(key: string, hash: string, at: nat, until: nat)

  datatype State = State(table: Table, clock: nat, workers: map<nat, Worker>)

  const START := State(map[], 0, map[])

  datatype Step =
    | Tick(d: nat)
    | Claim(id: nat, key: string, hash: string)
    | Finish(id: nat, code: int, body: string)
    | Die(id: nat)

  function Grant(table: Table, key: string, hash: string, now: nat): Worker
    requires key in table
  {
    Worker(key, hash, now, if now + LEASE <= table[key].expiresAt then now + LEASE else table[key].expiresAt)
  }

  function Apply(s: State, step: Step): State {
    match step
    case Tick(d) => s.(clock := s.clock + d)
    case Claim(id, key, hash) =>
      var (table, r) := ClaimTx(s.table, key, hash, s.clock);
      if id in s.workers || r != Owner then s
      else s.(table := table, workers := s.workers[id := Grant(table, key, hash, s.clock)])
    // the handler's answer: kept below 500, otherwise the key is given back
    case Finish(id, code, body) =>
      if id !in s.workers then s
      else
        var key := s.workers[id].key;
        s.(table := if code >= 500 then ReleaseTx(s.table, key, s.clock) else CompleteTx(s.table, key, code, body),
           workers := s.workers - {id})
    case Die(id) => s.(workers := s.workers - {id})
  }

  function Exec(s: State, steps: seq<Step>): State {
    if steps == [] then s else Apply(Exec(s, steps[..|steps| - 1]), steps[|steps| - 1])
  }

  lemma OneStep(s: State, step: Step)
    ensures Exec(s, [step]) == Apply(s, step)
  {
    assert [step][..0] == [];
  }

  // ----- between two grants of one key

  /** The key is given back within these steps. */
  ghost predicate GivesBack(s: State, steps: seq<Step>, key: string) {
    exists i | 0 <= i < |steps| :: Releases(Exec(s, steps[..i]), steps[i], key)
  }

  predicate Releases(s: State, step: Step, key: string) {
    step.Finish? && step.id in s.workers && s.workers[step.id].key == key && step.code >= 500
  }

  ghost predicate HeldUntil(s: State, key: string, until: nat, expires: nat) {
    && key in s.table && s.table[key].expiresAt == expires
    && (s.table[key].status.InProgress? ==> s.table[key].lockedUntil == until)
  }

  lemma HeldStep(s: State, step: Step, key: string, until: nat, expires: nat)
    requires HeldUntil(s, key, until, expires) && !Releases(s, step, key)
    requires s.clock <= until && s.clock <= expires
    ensures HeldUntil(Apply(s, step), key, until, expires)
  {
  }

  lemma {:induction false} ClockOnlyGrows(s: State, steps: seq<Step>)
    ensures s.clock <= Exec(s, steps).clock
  {
    if steps != [] { ClockOnlyGrows(s, steps[..|steps| - 1]); }
  }

  lemma {:induction false} HeldRun(s: State, steps: seq<Step>, key: string, until: nat, expires: nat)
    requires HeldUntil(s, key, until, expires) && !GivesBack(s, steps, key)
    requires Exec(s, steps).clock <= until && Exec(s, steps).clock <= expires
    ensures HeldUntil(Exec(s, steps), key, until, expires)
  {
    if steps != [] {
      var n := |steps| - 1;
      var init := steps[..n];
      forall i | 0 <= i < |init| ensures !Releases(Exec(s, init[..i]), init[i], key) {
        assert steps[..i] == init[..i] && steps[i] == init[i];
      }
      HeldRun(s, init, key, until, expires);
      assert !Releases(Exec(s, steps[..n]), steps[n], key);
      HeldStep(Exec(s, init), steps[n], key, until, expires);
    }
  }

  /** While the key lives, the next grant comes only after the lease has run out or some execution of the
      key gave it back, in every run. Release asks for no owner, so the one giving back may be an older
      execution: see LeaseCanBeCutShortIff. */
  lemma {:induction false} GrantsAreApart(s: State, key: string, hash: string, steps: seq<Step>, id: nat, hash': string)
    requires Grants(s.table, key, hash, s.clock) && id !in s.workers
    requires var s' := Exec(Apply(s, Claim(id, key, hash)), steps); Grants(s'.table, key, hash', s'.clock)
    ensures var s1 := Apply(s, Claim(id, key, hash));
      var s' := Exec(s1, steps);
      s'.clock > s.clock + LEASE || s'.clock > s1.table[key].expiresAt || GivesBack(s1, steps, key)
  {
    var s1 := Apply(s, Claim(id, key, hash));
    var s' := Exec(s1, steps);
    var until, expires := s.clock + LEASE, s1.table[key].expiresAt;
    if s'.clock <= until && s'.clock <= expires && !GivesBack(s1, steps, key) {
      HeldRun(s1, steps, key, until, expires);
    }
  }

  ghost predicate DoneUntil(s: State, key: string, expires: nat) {
    key in s.table && s.table[key].status.Completed? && s.table[key].expiresAt == expires
  }

  /** Until its time to live is over, a completed key is never in progress again, in any run. */
  lemma {:induction false} CompletedStays(s: State, steps: seq<Step>, key: string)
    requires key in s.table && s.table[key].status.Completed?
    requires Exec(s, steps).clock <= s.table[key].expiresAt
    ensures DoneUntil(Exec(s, steps), key, s.table[key].expiresAt)
  {
    if steps != [] {
      var init := steps[..|steps| - 1];
      CompletedStays(s, init, key);
    }
  }

  // ----- a lease that somebody else ends

  /** Another execution of the key is under way. */
  predicate SharesKey(s: State, key: string, id: nat) {
    exists o | o in s.workers :: o != id && s.workers[o].key == key
  }

  /** The execution `id` neither finishes nor dies. */
  predicate Spares(steps: seq<Step>, id: nat) {
    forall i | 0 <= i < |steps| :: !((steps[i].Finish? || steps[i].Die?) && steps[i].id == id)
  }

  /** `id` is the only execution of its key, and holds the lease it was granted. */
  ghost predicate SoleOwner(s: State, id: nat, w: Worker) {
    && id in s.workers && s.workers[id] == w && !SharesKey(s, w.key, id)
    && w.key in s.table && s.table[w.key].status.InProgress?
    && s.table[w.key].lockedUntil == w.at + LEASE && w.until <= w.at + LEASE && w.until <= s.table[w.key].expiresAt
  }

  lemma SoleOwnerStep(s: State, step: Step, id: nat, w: Worker)
    requires SoleOwner(s, id, w) && s.clock <= w.until && !((step.Finish? || step.Die?) && step.id == id)
    ensures SoleOwner(Apply(s, step), id, w)
  {
  }

  lemma {:induction false} SoleOwnerRun(s: State, steps: seq<Step>, id: nat, w: Worker)
    requires SoleOwner(s, id, w) && Spares(steps, id) && Exec(s, steps).clock <= w.until
    ensures SoleOwner(Exec(s, steps), id, w)
  {
    if steps != [] {
      var init := steps[..|steps| - 1];
      SoleOwnerRun(s, init, id, w);
      SoleOwnerStep(Exec(s, init), steps[|steps| - 1], id, w);
    }
  }

  /** An older execution gives the key back, and one tick later it is granted again. */
  lemma OlderGivesBack(s: State, key: string, hash: string, id: nat, o: nat)
    requires Grants(s.table, key, hash, s.clock) && id !in s.workers && o in s.workers && s.workers[o].key == key
    ensures var s1 := Apply(s, Claim(id, key, hash));
      && o != id && s1.workers[id].key == key
      && (s.clock < s1.workers[id].until ==>
            var s' := Exec(s1, [Finish(o, 503, ""), Tick(1)]);
            s'.clock <= s1.workers[id].until && Grants(s'.table, key, hash, s'.clock))
  {
    var steps := [Finish(o, 503, ""), Tick(1)];
    assert steps[..1][..0] == [] && steps[..1] == [steps[0]];
    var s1 := Apply(s, Claim(id, key, hash));
    assert Exec(s1, steps[..1]) == Apply(s1, steps[0]);
    assert Exec(s1, steps) == Apply(Apply(s1, steps[0]), steps[1]);
  }

  /** While the owner is still at work within its grant, its key can be granted to somebody else if and
      only if, at the claim, an older execution of the key was still at work and the grant did not end
      at once. */
  lemma {:induction false} LeaseCanBeCutShortIff(s: State, key: string, hash: string, id: nat)
    requires Grants(s.table, key, hash, s.clock) && id !in s.workers
    ensures var s1 := Apply(s, Claim(id, key, hash));
      (exists steps, h :: && Spares(steps, id) && Exec(s1, steps).clock <= s1.workers[id].until
                          && Grants(Exec(s1, steps).table, key, h, Exec(s1, steps).clock))
      <==> s.clock < s1.workers[id].until && SharesKey(s, key, id)
  {
    var s1 := Apply(s, Claim(id, key, hash));
    var w := s1.workers[id];
    if s.clock < w.until && SharesKey(s, key, id) {
      var o :| o in s.workers && o != id && s.workers[o].key == key;
      OlderGivesBack(s, key, hash, id, o);
      assert Spares([Finish(o, 503, ""), Tick(1)], id);
    }
    forall steps, h | Spares(steps, id) && Exec(s1, steps).clock <= w.until
      ensures Grants(Exec(s1, steps).table, key, h, Exec(s1, steps).clock) ==>
                s.clock < w.until && SharesKey(s, key, id)
    {
      ClockOnlyGrows(s1, steps);
      if s.clock >= w.until {
        LastMomentHolds(s1, steps, key, w);
      } else if !SharesKey(s, key, id) {
        SoleOwnerRun(s1, steps, id, w);
      }
    }
  }

  lemma TickExpires(s: State, key: string, hash: string, d: nat)
    requires key in s.table && s.table[key].expiresAt < s.clock + d
    ensures var s' := Exec(s, [Tick(d)]); s'.clock == s.clock + d && Grants(s'.table, key, hash, s'.clock)
  {
    OneStep(s, Tick(d));
  }

  /** Over the whole lease: while the owner is at work and its lease runs, its key can be granted to somebody else
      if and only if, at the claim, an older execution of the key was at work or the key was to expire
      before the lease. */
  lemma {:induction false} LeaseFailsToProtectIff(s: State, key: string, hash: string, id: nat)
    requires Grants(s.table, key, hash, s.clock) && id !in s.workers
    ensures var s1 := Apply(s, Claim(id, key, hash));
      (exists steps, h :: && Spares(steps, id) && Exec(s1, steps).clock <= s.clock + LEASE
                          && Grants(Exec(s1, steps).table, key, h, Exec(s1, steps).clock))
      <==> SharesKey(s, key, id) || s1.table[key].expiresAt < s.clock + LEASE
  {
    var s1 := Apply(s, Claim(id, key, hash));
    var w := s1.workers[id];
    if s1.table[key].expiresAt < s.clock + LEASE {
      var d := s1.table[key].expiresAt + 1 - s.clock;
      TickExpires(s1, key, hash, d);
      assert Spares([Tick(d)], id);
    } else if SharesKey(s, key, id) {
      LeaseCanBeCutShortIff(s, key, hash, id);
      assert w.until == s.clock + LEASE;
    }
    forall steps, h
      | Spares(steps, id) && Exec(s1, steps).clock <= s.clock + LEASE && s1.table[key].expiresAt >= s.clock + LEASE
      ensures Grants(Exec(s1, steps).table, key, h, Exec(s1, steps).clock) ==> SharesKey(s, key, id)
    {
      if !SharesKey(s, key, id) { SoleOwnerRun(s1, steps, id, w); }
    }
  }

  /** A grant that ends at once is not cut short: no time passes within it. */
  lemma {:induction false} LastMomentHolds(s: State, steps: seq<Step>, key: string, w: Worker)
    requires key in s.table && s.clock <= s.table[key].expiresAt && s.clock <= s.table[key].lockedUntil
    requires Exec(s, steps).clock <= w.until && w.until <= s.clock
    ensures var s' := Exec(s, steps);
      && s'.clock == s.clock
      && key in s'.table
      && s'.clock <= s'.table[key].expiresAt
      && s'.clock <= s'.table[key].lockedUntil
  {
    if steps != [] {
      ClockOnlyGrows(s, steps[..|steps| - 1]);
      LastMomentHolds(s, steps[..|steps| - 1], key, w);
    }
  }

  // An execution's context ends DEADLINE after it starts, before its lease does. A Finish after the lease is therefore
  // a statement already sent, or a process that stalled for seconds before sending it: see `AbleNeverOverlap`.

  const STALE := [Claim(0, "k", "h"), Tick(LEASE + 1), Claim(1, "k", "h"), Finish(0, 503, ""), Tick(1),
                  Claim(2, "k", "h")]

  /** It happens: a first owner, long past its lease, answers 503 and so ends the lease of the second; the
      third runs beside the second, both within their grants, a day before the key expires. */
  lemma StaleReleaseEndsALiveLease()
    ensures var s := Exec(START, STALE);
      && 1 in s.workers && 2 in s.workers && s.workers[1].key == s.workers[2].key
      && s.clock <= s.workers[1].until && s.clock <= s.workers[2].until
      && "k" in s.table && s.clock + TTL / 2 <= s.table["k"].expiresAt
  {
    assert STALE[..5] == [STALE[0], STALE[1], STALE[2], STALE[3], STALE[4]];
    Prefixes(STALE[..5]);
    var s1 := Apply(START, STALE[0]);
    assert s1.table == map["k" := Row("h", InProgress, LEASE, TTL)];
    var s3 := Apply(Apply(s1, STALE[1]), STALE[2]);
    assert s3.table == map["k" := Row("h", InProgress, 2 * LEASE + 1, TTL)] && 0 in s3.workers;
    var s5 := Apply(Apply(s3, STALE[3]), STALE[4]);
    assert s5.table == map["k" := Row("h", InProgress, LEASE + 1, TTL)] && s5.clock == LEASE + 2;
    assert Exec(START, STALE) == Apply(s5, STALE[5]);
  }

  // ----- a stored answer

  predicate LiveOn(s: State, key: string) {
    exists o | o in s.workers :: s.workers[o].key == key
  }

  /** A completed key that nobody works on stays as it is until it expires. */
  lemma {:induction false} SettledRun(s: State, steps: seq<Step>, key: string)
    requires key in s.table && s.table[key].status.Completed? && !LiveOn(s, key)
    requires Exec(s, steps).clock <= s.table[key].expiresAt
    ensures var s' := Exec(s, steps); key in s'.table && s'.table[key] == s.table[key] && !LiveOn(s', key)
  {
    if steps != [] {
      var init := steps[..|steps| - 1];
      ClockOnlyGrows(s, init);
      SettledRun(s, init, key);
    }
  }

  /** Before its time to live is over, a stored answer can still be changed if and only if an execution of
      its key is under way, on time or late. */
  lemma {:induction false} AnswerCanChangeIff(s: State, key: string)
    requires key in s.table && s.table[key].status.Completed? && s.clock <= s.table[key].expiresAt
    ensures (exists steps :: && Exec(s, steps).clock <= s.table[key].expiresAt
                             && key in Exec(s, steps).table && Exec(s, steps).table[key] != s.table[key])
      <==> LiveOn(s, key)
  {
    if LiveOn(s, key) {
      var o :| o in s.workers && s.workers[o].key == key;
      var answer := Finish(o, if s.table[key].status.code == 200 then 201 else 200, "");
      OneStep(s, answer);
      var s' := Exec(s, [answer]);
      assert s'.clock <= s.table[key].expiresAt && key in s'.table && s'.table[key] != s.table[key];
    } else {
      forall steps | Exec(s, steps).clock <= s.table[key].expiresAt
        ensures key in Exec(s, steps).table && Exec(s, steps).table[key] == s.table[key]
      {
        SettledRun(s, steps, key);
      }
    }
  }

  // ----- owners of one key that finish in time

  /** No execution of the key has outlived its grant. */
  ghost predicate InTime(s: State, key: string) {
    forall id | id in s.workers && s.workers[id].key == key :: s.clock <= s.workers[id].until
  }

  ghost predicate AlwaysInTime(s: State, steps: seq<Step>, key: string) {
    forall i | 0 <= i <= |steps| :: InTime(Exec(s, steps[..i]), key)
  }

  /** A live execution of the key has it to itself: in progress, under its lease. */
  ghost predicate Exclusive(s: State, key: string) {
    && (forall id | id in s.workers && s.workers[id].key == key :: OwnsRow(s, s.workers[id]))
    && (forall a, b | a in s.workers && b in s.workers && s.workers[a].key == key && s.workers[b].key == key :: a == b)
  }

  predicate OwnsRow(s: State, w: Worker) {
    && w.key in s.table && s.table[w.key].status.InProgress? && s.table[w.key].hash == w.hash
    && s.table[w.key].lockedUntil == w.at + LEASE && w.until <= w.at + LEASE && w.until <= s.table[w.key].expiresAt
  }

  /** A claim of another key leaves the key's row and owners alone. */
  lemma OtherClaimKeepsExclusive(s: State, id: nat, key: string, hash: string, k: string)
    requires Exclusive(s, k) && key != k
    ensures Exclusive(Apply(s, Claim(id, key, hash)), k)
  {
  }

  /** While an owner is in time, no claim of its key is granted. */
  lemma OwnerBlocksClaims(s: State, key: string, hash: string, o: nat)
    requires Exclusive(s, key) && InTime(s, key) && o in s.workers && s.workers[o].key == key
    ensures !Grants(s.table, key, hash, s.clock)
  {
    assert OwnsRow(s, s.workers[o]);
  }

  lemma ClaimKeepsExclusive(s: State, id: nat, key: string, hash: string, k: string)
    requires Exclusive(s, k) && InTime(s, k)
    ensures Exclusive(Apply(s, Claim(id, key, hash)), k)
  {
    if key != k {
      OtherClaimKeepsExclusive(s, id, key, hash, k);
    } else if o :| o in s.workers && s.workers[o].key == k {
      OwnerBlocksClaims(s, k, hash, o);
    }
  }

  lemma ExclusiveStep(s: State, step: Step, key: string)
    requires Exclusive(s, key) && InTime(s, key)
    ensures Exclusive(Apply(s, step), key)
  {
    if step.Claim? { ClaimKeepsExclusive(s, step.id, step.key, step.hash, key); }
  }

  lemma PrefixInTime(s: State, steps: seq<Step>, key: string)
    requires AlwaysInTime(s, steps, key) && steps != []
    ensures AlwaysInTime(s, steps[..|steps| - 1], key) && InTime(Exec(s, steps[..|steps| - 1]), key)
    ensures InTime(Exec(s, steps), key)
  {
    var n := |steps| - 1;
    forall i | 0 <= i <= n ensures InTime(Exec(s, steps[..n][..i]), key) {
      assert steps[..n][..i] == steps[..i];
    }
    assert steps[..n + 1] == steps;
  }

  /** If every owner of a key finishes or dies within its grant, no two executions of it ever overlap,
      however late the owners of other keys are. */
  lemma {:induction false} ExecutionsNeverOverlap(s: State, steps: seq<Step>, key: string)
    requires Exclusive(s, key) && AlwaysInTime(s, steps, key)
    ensures Exclusive(Exec(s, steps), key)
  {
    if steps != [] {
      PrefixInTime(s, steps, key);
      ExecutionsNeverOverlap(s, steps[..|steps| - 1], key);
      ExclusiveStep(Exec(s, steps[..|steps| - 1]), steps[|steps| - 1], key);
    }
  }

  /** An execution that has its key to itself and answers below 500 settles it: whatever happens then, until
      the key expires every claim of the same request gets just that code and body, and every other
      request a mismatch. */
  lemma {:induction false} AnswerIsReplayed(s: State, id: nat, code: int, body: string, steps: seq<Step>, hash: string)
    requires id in s.workers && code < 500 && Exclusive(s, s.workers[id].key)
    requires Exec(Apply(s, Finish(id, code, body)), steps).clock <= s.table[s.workers[id].key].expiresAt
    ensures var w, s' := s.workers[id], Exec(Apply(s, Finish(id, code, body)), steps);
      ClaimTx(s'.table, w.key, hash, s'.clock) == (s'.table, if hash == w.hash then Replay(code, body) else Mismatch)
  {
    assert OwnsRow(s, s.workers[id]);
    SettledRun(Apply(s, Finish(id, code, body)), steps, s.workers[id].key);
  }

  /** An execution that has its key to itself and answers 500 or above stores nothing: from the next tick on, and as
      long as the key lives, the same request runs again, and another one is refused. */
  lemma {:induction false} FailureRunsAgain(s: State, id: nat, code: int, body: string, d: nat, hash: string)
    requires id in s.workers && code >= 500 && Exclusive(s, s.workers[id].key) && d >= 1
    ensures var w, s' := s.workers[id], Exec(s, [Finish(id, code, body), Tick(d)]);
      && w.key in s'.table && s'.table[w.key].status.InProgress?
      && (s'.clock <= s'.table[w.key].expiresAt ==>
            ClaimTx(s'.table, w.key, hash, s'.clock).1 == if hash == w.hash then Owner else Mismatch)
  {
    assert OwnsRow(s, s.workers[id]);
    var steps := [Finish(id, code, body), Tick(d)];
    assert steps[..1] == [steps[0]] && steps[..1][..0] == [];
    assert Exec(s, steps[..1]) == Apply(s, steps[0]);
    assert Exec(s, steps) == Apply(Apply(s, steps[0]), steps[1]);
  }

  // ----- owners of one key whose statements end with their context

  /** The execution may still write: its context has not ended. */
  predicate Able(s: State, w: Worker) {
    s.clock <= w.at + DEADLINE
  }

  /** A step of a service whose contexts are obeyed: an execution of the key finishes only while it is able, and
      none begins so late in the key's life that the key expires first. */
  predicate PromptStep(s: State, step: Step, key: string) {
    && (step.Finish? && step.id in s.workers && s.workers[step.id].key == key ==> Able(s, s.workers[step.id]))
    && (step.Claim? && step.key == key && key in s.table && s.clock <= s.table[key].expiresAt ==>
          s.clock + DEADLINE <= s.table[key].expiresAt)
  }

  ghost predicate Prompt(s: State, steps: seq<Step>, key: string) {
    forall i | 0 <= i < |steps| :: PromptStep(Exec(s, steps[..i]), steps[i], key)
  }

  /** An able execution of the key has it to itself. */
  ghost predicate ExclusiveAble(s: State, key: string) {
    && (forall id | id in s.workers && s.workers[id].key == key && Able(s, s.workers[id]) ::
          OwnsRow(s, s.workers[id]) && s.workers[id].at + DEADLINE <= s.workers[id].until)
    && (forall a, b | && a in s.workers && s.workers[a].key == key && Able(s, s.workers[a])
                      && b in s.workers && s.workers[b].key == key && Able(s, s.workers[b]) :: a == b)
  }

  lemma AbleBlocksClaims(s: State, key: string, hash: string, o: nat)
    requires ExclusiveAble(s, key) && o in s.workers && s.workers[o].key == key && Able(s, s.workers[o])
    ensures !Grants(s.table, key, hash, s.clock)
  {
    assert OwnsRow(s, s.workers[o]);
  }

  lemma ClaimKeepsAble(s: State, id: nat, hash: string, key: string)
    requires ExclusiveAble(s, key) && PromptStep(s, Claim(id, key, hash), key)
    ensures ExclusiveAble(Apply(s, Claim(id, key, hash)), key)
  {
    if o :| o in s.workers && s.workers[o].key == key && Able(s, s.workers[o]) {
      AbleBlocksClaims(s, key, hash, o);
    }
  }

  lemma OtherKeepsAble(s: State, step: Step, key: string)
    requires ExclusiveAble(s, key) && PromptStep(s, step, key) && !(step.Claim? && step.key == key)
    ensures ExclusiveAble(Apply(s, step), key)
  {
    if step.Finish? {
      FinishKeepsAble(s, step, key);
    } else if step.Claim? {
      OtherKeyKeepsAble(s, step, key);
    }
  }

  lemma FinishKeepsAble(s: State, step: Step, key: string)
    requires ExclusiveAble(s, key) && PromptStep(s, step, key) && step.Finish?
    ensures ExclusiveAble(Apply(s, step), key)
  {
  }

  lemma OtherKeyKeepsAble(s: State, step: Step, key: string)
    requires ExclusiveAble(s, key) && step.Claim? && step.key != key
    ensures ExclusiveAble(Apply(s, step), key)
  {
  }

  lemma PrefixPrompt(s: State, steps: seq<Step>, key: string)
    requires Prompt(s, steps, key) && steps != []
    ensures var n := |steps| - 1; Prompt(s, steps[..n], key) && PromptStep(Exec(s, steps[..n]), steps[n], key)
  {
    var n := |steps| - 1;
    forall i | 0 <= i < n ensures PromptStep(Exec(s, steps[..n][..i]), steps[..n][i], key) {
      assert steps[..n][..i] == steps[..i];
    }
  }

  /** With contexts obeyed, no two executions of a key that can still write ever overlap: nobody has to be in
      time, except that the key must not be about to expire. */
  lemma {:induction false} AbleNeverOverlap(s: State, steps: seq<Step>, key: string)
    requires ExclusiveAble(s, key) && Prompt(s, steps, key)
    ensures ExclusiveAble(Exec(s, steps), key)
  {
    if steps != [] {
      var n := |steps| - 1;
      PrefixPrompt(s, steps, key);
      AbleNeverOverlap(s, steps[..n], key);
      var m := Exec(s, steps[..n]);
      if steps[n].Claim? && steps[n].key == key {
        ClaimKeepsAble(m, steps[n].id, steps[n].hash, key);
      } else {
        OtherKeepsAble(m, steps[n], key);
      }
    }
  }

  predicate NobodyAble(s: State, key: string) {
    forall o | o in s.workers && s.workers[o].key == key :: !Able(s, s.workers[o])
  }

  /** A completed key that only late executions work on stays as it is until it expires. */
  lemma {:induction false} AnsweredRun(s: State, steps: seq<Step>, key: string)
    requires key in s.table && s.table[key].status.Completed? && NobodyAble(s, key) && Prompt(s, steps, key)
    requires Exec(s, steps).clock <= s.table[key].expiresAt
    ensures var s' := Exec(s, steps); key in s'.table && s'.table[key] == s.table[key] && NobodyAble(s', key)
  {
    if steps != [] {
      var n := |steps| - 1;
      PrefixPrompt(s, steps, key);
      ClockOnlyGrows(s, steps[..n]);
      ClockGrows(Exec(s, steps[..n]), steps[n]);
      AnsweredRun(s, steps[..n], key);
      AnsweredStep(Exec(s, steps[..n]), steps[n], key);
    }
  }

  lemma ClockGrows(s: State, step: Step)
    ensures s.clock <= Apply(s, step).clock
  {
  }

  lemma AnsweredStep(s: State, step: Step, key: string)
    requires key in s.table && s.table[key].status.Completed? && NobodyAble(s, key) && PromptStep(s, step, key)
    requires s.clock <= s.table[key].expiresAt
    ensures var s' := Apply(s, step); key in s'.table && s'.table[key] == s.table[key] && NobodyAble(s', key)
  {
  }

  /** With contexts obeyed, an answer below 500 that an able execution stores is the one every later claim of the
      same request gets until the key expires, with late executions of the key still about. */
  lemma {:induction false} PromptAnswerIsReplayed(s: State, id: nat, code: int, body: string, steps: seq<Step>,
                                                  hash: string)
    requires id in s.workers && code < 500 && ExclusiveAble(s, s.workers[id].key) && Able(s, s.workers[id])
    requires Prompt(Apply(s, Finish(id, code, body)), steps, s.workers[id].key)
    requires Exec(Apply(s, Finish(id, code, body)), steps).clock <= s.table[s.workers[id].key].expiresAt
    ensures var w, s' := s.workers[id], Exec(Apply(s, Finish(id, code, body)), steps);
      ClaimTx(s'.table, w.key, hash, s'.clock) == (s'.table, if hash == w.hash then Replay(code, body) else Mismatch)
  {
    assert OwnsRow(s, s.workers[id]);
    AnsweredRun(Apply(s, Finish(id, code, body)), steps, s.workers[id].key);
  }

  // ----- what being late breaks

  const LATE := [Claim(0, "k", "h"), Tick(LEASE + 1), Claim(1, "k", "h"), Finish(1, 200, "b"), Finish(0, 402, "a")]

  /** A first owner that finishes after its lease overwrites the answer already given for the key. */
  lemma LateFinishChangesTheAnswer()
    ensures ClaimTx(Exec(START, LATE[..4]).table, "k", "h", LEASE + 1).1 == Replay(200, "b")
    ensures ClaimTx(Exec(START, LATE).table, "k", "h", LEASE + 1).1 == Replay(402, "a")
  {
    Prefixes(LATE);
    var s1 := Apply(START, LATE[0]);
    assert s1.table == map["k" := Row("h", InProgress, LEASE, TTL)];
    var s2 := Apply(s1, LATE[1]);
    var s3 := Apply(s2, LATE[2]);
    assert s3.table == map["k" := Row("h", InProgress, 2 * LEASE + 1, TTL)] && 0 in s3.workers && 1 in s3.workers;
  }

  lemma Prefixes(steps: seq<Step>)
    requires |steps| == 5
    ensures var s4 := Apply(Apply(Apply(Apply(START, steps[0]), steps[1]), steps[2]), steps[3]);
      Exec(START, steps[..4]) == s4 && Exec(START, steps) == Apply(s4, steps[4])
  {
    assert steps[..4][..3] == steps[..3] && steps[..3][..2] == steps[..2] && steps[..2][..1] == steps[..1]
        && steps[..1][..0] == [];
    assert Exec(START, steps[..1]) == Apply(START, steps[0]);
    assert Exec(START, steps[..2]) == Apply(Exec(START, steps[..1]), steps[1]);
    assert Exec(START, steps[..3]) == Apply(Exec(START, steps[..2]), steps[2]);
  }

  const EDGE := [Claim(0, "k", "h"), Tick(TTL), Claim(1, "k", "h"), Tick(1), Claim(2, "k", "h")]

  /** A lease taken over just before the key's time to live ends does not protect its owner: the key is
      granted again one tick later, both executions being well within their leases. */
  lemma TakeoverDoesNotRenewTheKey()
    ensures var s := Exec(START, EDGE);
      && 1 in s.workers && 2 in s.workers && s.workers[1].key == s.workers[2].key
      && s.clock <= s.workers[1].at + LEASE && s.clock <= s.workers[2].at + LEASE
  {
    Prefixes(EDGE);
    var s1 := Apply(START, EDGE[0]);
    assert s1.table == map["k" := Row("h", InProgress, LEASE, TTL)];
    var s3 := Apply(Apply(s1, EDGE[1]), EDGE[2]);
    assert s3.table == map["k" := Row("h", InProgress, TTL + LEASE, TTL)];
  }
}
