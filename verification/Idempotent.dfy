/** The key store's statements and execIdempotent as they are written, with the other requests acting
    while the handler runs. Every execution is a run of the lease machine. */
module Idempotent {
  import opened IdempotencyLease

  class KeyStore {
    var s: State

    constructor ()
      ensures s == START
    {
      s := START;
    }

    /** IdempotencyRepo.Claim, for the request `id`. */
    method Claim(id: nat, key: string, hash: string) returns (r: Claimed)
      requires id !in s.workers
      modifies this
      ensures s == Apply(old(s), Step.Claim(id, key, hash)) && r == ClaimTx(old(s).table, key, hash, s.clock).1
      ensures if r == Owner then id in s.workers && s.workers[id].key == key else s == old(s)
    {
      if key !in s.table || s.table[key].expiresAt < s.clock {
        var table := s.table[key := Row(hash, InProgress, s.clock + LEASE, s.clock + TTL)];
        s := s.(table := table, workers := s.workers[id := Grant(table, key, hash, s.clock)]);
        return Owner;
      }
      var row := s.table[key];
      if row.hash != hash { return Mismatch; }
      if row.status.Completed? { return Replay(row.status.code, row.status.body); }
      if s.clock <= row.lockedUntil { return Busy; }
      var table := s.table[key := row.(lockedUntil := s.clock + LEASE)];
      s := s.(table := table, workers := s.workers[id := Grant(table, key, hash, s.clock)]);
      r := Owner;
    }

    /** IdempotencyRepo.Complete, the last statement of the request `id`. */
    method Complete(id: nat, code: int, body: string)
      requires id in s.workers && code < 500
      modifies this
      ensures s == Apply(old(s), Finish(id, code, body)) && id !in s.workers
    {
      var key, table := s.workers[id].key, s.table;
      if key in table { table := table[key := table[key].(status := Completed(code, body))]; }
      s := s.(table := table, workers := s.workers - {id});
    }

    /** IdempotencyRepo.Release. */
    method Release(id: nat, code: int, body: string)
      requires id in s.workers && code >= 500
      modifies this
      ensures s == Apply(old(s), Finish(id, code, body)) && id !in s.workers
    {
      var key, table := s.workers[id].key, s.table;
      if key in table && table[key].status.InProgress? { table := table[key := table[key].(lockedUntil := s.clock)]; }
      s := s.(table := table, workers := s.workers - {id});
    }

    /** The request's last statement fails; the error is only logged. */
    method GiveUp(id: nat)
      modifies this
      ensures s == Apply(old(s), Die(id)) && id !in s.workers
    {
      s := s.(workers := s.workers - {id});
    }

    method Meanwhile(steps: seq<Step>)
      modifies this
      ensures s == Exec(old(s), steps)
    {
      s := Exec(s, steps);
    }
  }

  predicate Foreign(step: Step, id: nat) {
    step.Tick? || step.id != id
  }

  predicate AllForeign(steps: seq<Step>, id: nat) {
    forall i | 0 <= i < |steps| :: Foreign(steps[i], id)
  }

  lemma {:induction false} OthersKeepWorker(s: State, steps: seq<Step>, id: nat)
    requires id in s.workers && AllForeign(steps, id)
    ensures id in Exec(s, steps).workers && Exec(s, steps).workers[id] == s.workers[id]
  {
    if steps != [] {
      OthersKeepWorker(s, steps[..|steps| - 1], id);
      assert Foreign(steps[|steps| - 1], id);
    }
  }

  lemma {:induction false} ExecAppend(s: State, a: seq<Step>, b: seq<Step>)
    ensures Exec(s, a + b) == Exec(Exec(s, a), b)
  {
    if b == [] {
      assert a + b == a;
    } else {
      ExecAppend(s, a, b[..|b| - 1]);
      assert (a + b)[..|a + b| - 1] == a + b[..|b| - 1];
    }
  }

  datatype Response = Response(code: int, body: string, retryAfter: bool)

  const UNAVAILABLE := Response(503, "Service Unavailable", true)
  const REUSED := Response(422, "Idempotency-Key was already used with a different request", false)
  const BUSY := Response(409, "request with this Idempotency-Key is still in progress, retry later", true)

  /** How the statement that claims the key goes: it can also commit and lose its acknowledgement. */
  datatype ClaimWeather = Works | Fails | CommitsUnheard

  /** What the handler answers and what happens meanwhile. */
  datatype Weather = Weather(claim: ClaimWeather, code: int, body: string, others: seq<Step>, storeFails: bool)

  /** The run of one request whose claim is answered with `claim`. */
  function RequestRun(id: nat, key: string, hash: string, claim: Claimed, w: Weather): seq<Step> {
    if w.claim == Fails then []
    else if w.claim == CommitsUnheard then [Step.Claim(id, key, hash), Die(id)]
    else if claim != Owner then [Step.Claim(id, key, hash)]
    else [Step.Claim(id, key, hash)] + w.others + [if w.storeFails then Die(id) else Finish(id, w.code, w.body)]
  }

  function Answer(claim: Claimed, w: Weather): Response {
    if w.claim != Works then UNAVAILABLE
    else
      match claim
      case Mismatch => REUSED
      case Busy => BUSY
      case Replay(code, body) => Response(code, body, false)
      case Owner => Response(w.code, w.body, w.code == 503)
  }

  predicate LiveKey(s: State, key: string) {
    key in s.table && s.clock <= s.table[key].expiresAt
  }

  /** What the caller gets, said of the stored row it meets: a claim that fails is 503, another request under the key
      422, a stored answer is that answer, a running execution 409, and only otherwise the handler runs and answers. */
  ghost predicate AnswersAs(s: State, key: string, hash: string, w: Weather, r: Response, ran: bool) {
    if w.claim != Works then !ran && r.code == 503 && r.retryAfter
    else if LiveKey(s, key) && s.table[key].hash != hash then !ran && r.code == 422 && !r.retryAfter
    else if LiveKey(s, key) && s.table[key].status.Completed? then
      !ran && r.code == s.table[key].status.code && r.body == s.table[key].status.body && !r.retryAfter
    else if LiveKey(s, key) && s.clock <= s.table[key].lockedUntil then !ran && r.code == 409 && r.retryAfter
    else ran && r.code == w.code && r.body == w.body && (r.retryAfter <==> w.code == 503)
  }

  lemma AnswerMeans(s: State, key: string, hash: string, w: Weather)
    ensures var claim := ClaimTx(s.table, key, hash, s.clock).1;
      AnswersAs(s, key, hash, w, Answer(claim, w), w.claim == Works && claim == Owner)
  {
  }

  /** execIdempotent: the handler runs only for the owner of the key; everyone else is answered from the
      table, which they leave alone. */
  method ExecIdempotent(store: KeyStore, id: nat, key: string, hash: string, w: Weather)
    returns (r: Response, ran: bool)
    requires id !in store.s.workers && AllForeign(w.others, id)
    modifies store
    ensures var claim := ClaimTx(old(store.s).table, key, hash, old(store.s).clock).1;
      && store.s == Exec(old(store.s), RequestRun(id, key, hash, claim, w))
      && r == Answer(claim, w)
      && (ran <==> w.claim == Works && claim == Owner)
    ensures AnswersAs(old(store.s), key, hash, w, r, ran)
    ensures !ran && w.claim != CommitsUnheard ==> store.s == old(store.s)
    ensures id !in store.s.workers
  {
    ghost var s0 := store.s;
    AnswerMeans(s0, key, hash, w);
    if w.claim == Fails { return UNAVAILABLE, false; }
    var claim := store.Claim(id, key, hash);
    OneStep(s0, Step.Claim(id, key, hash));
    if w.claim == CommitsUnheard {
      ghost var s1 := store.s;
      store.GiveUp(id);
      OneStep(s1, Die(id));
      ExecAppend(s0, [Step.Claim(id, key, hash)], [Die(id)]);
      assert [Step.Claim(id, key, hash)] + [Die(id)] == [Step.Claim(id, key, hash), Die(id)];
      return UNAVAILABLE, false;
    }
    match claim {
      case Mismatch => return REUSED, false;
      case Busy => return BUSY, false;
      case Replay(code, body) => return Response(code, body, false), false;
      case Owner =>
    }
    ghost var s1 := store.s;
    store.Meanwhile(w.others);
    OthersKeepWorker(s1, w.others, id);
    ExecAppend(s0, [Step.Claim(id, key, hash)], w.others);
    ghost var s2 := store.s;
    ghost var last := if w.storeFails then Die(id) else Finish(id, w.code, w.body);
    if w.storeFails {
      store.GiveUp(id);
    } else if w.code >= 500 {
      store.Release(id, w.code, w.body);
    } else {
      store.Complete(id, w.code, w.body);
    }
    OneStep(s2, last);
    ExecAppend(s0, [Step.Claim(id, key, hash)] + w.others, [last]);
    r, ran := Response(w.code, w.body, w.code == 503), true;
  }

  // ----- a request and its repetition

  lemma PromptAppend(s: State, a: seq<Step>, b: seq<Step>, key: string)
    requires Prompt(s, a + b, key)
    ensures Prompt(s, a, key) && Prompt(Exec(s, a), b, key)
  {
    forall i | 0 <= i < |a| ensures PromptStep(Exec(s, a[..i]), a[i], key) {
      assert (a + b)[..i] == a[..i] && (a + b)[i] == a[i];
    }
    forall i | 0 <= i < |b| ensures PromptStep(Exec(Exec(s, a), b[..i]), b[i], key) {
      assert (a + b)[..|a| + i] == a + b[..i] && (a + b)[|a| + i] == b[i];
      ExecAppend(s, a, b[..i]);
    }
  }

  /** The state in which the handler's answer is stored. */
  function Answering(s: State, id: nat, key: string, hash: string, w: Weather): State {
    Exec(s, [Step.Claim(id, key, hash)] + w.others)
  }

  /** A first call that runs, answers below 500 and stores its answer, and then anything at all until the key expires,
      with contexts obeyed. */
  ghost predicate FirstAnswers(s: State, id: nat, key: string, hash: string, w: Weather, between: seq<Step>) {
    && id !in s.workers && AllForeign(w.others, id) && w.claim == Works && !w.storeFails && w.code < 500
    && Grants(s.table, key, hash, s.clock) && ExclusiveAble(s, key)
    && Prompt(s, RequestRun(id, key, hash, Owner, w) + between, key)
    && key in Answering(s, id, key, hash, w).table
    && Exec(s, RequestRun(id, key, hash, Owner, w) + between).clock
       <= Answering(s, id, key, hash, w).table[key].expiresAt
  }

  /** When the handler answers, the execution owns the row and can still write. */
  lemma OwnsWhenAnswering(s: State, id: nat, key: string, hash: string, w: Weather)
    requires id !in s.workers && AllForeign(w.others, id) && Grants(s.table, key, hash, s.clock)
    requires ExclusiveAble(s, key)
    requires Prompt(s, [Step.Claim(id, key, hash)] + w.others + [Finish(id, w.code, w.body)], key)
    ensures var s2 := Answering(s, id, key, hash, w);
      && id in s2.workers && s2.workers[id].key == key && s2.workers[id].hash == hash
      && OwnsRow(s2, s2.workers[id]) && ExclusiveAble(s2, key) && Able(s2, s2.workers[id])
  {
    var claim, finish := [Step.Claim(id, key, hash)], Finish(id, w.code, w.body);
    var before := claim + w.others;
    PromptAppend(s, before, [finish], key);
    AbleNeverOverlap(s, before, key);
    ExecAppend(s, claim, w.others);
    OneStep(s, claim[0]);
    OthersKeepWorker(Exec(s, claim), w.others, id);
    var s2 := Exec(s, before);
    assert [finish][..0] == [];
    assert PromptStep(Exec(s2, [finish][..0]), [finish][0], key);
  }

  lemma RunSplits(s: State, id: nat, key: string, hash: string, w: Weather, between: seq<Step>)
    requires w.claim == Works && !w.storeFails
    ensures var run := RequestRun(id, key, hash, Owner, w);
      && run == [Step.Claim(id, key, hash)] + w.others + [Finish(id, w.code, w.body)]
      && Exec(s, run) == Apply(Answering(s, id, key, hash, w), Finish(id, w.code, w.body))
      && Exec(s, run + between) == Exec(Exec(s, run), between)
  {
    var finish := Finish(id, w.code, w.body);
    ExecAppend(s, [Step.Claim(id, key, hash)] + w.others, [finish]);
    OneStep(Answering(s, id, key, hash, w), finish);
    ExecAppend(s, RequestRun(id, key, hash, Owner, w), between);
  }

  /** The row is then still live, with that very answer. */
  lemma AnswerStands(s: State, id: nat, key: string, hash: string, w: Weather, between: seq<Step>)
    requires FirstAnswers(s, id, key, hash, w, between)
    ensures var s' := Exec(s, RequestRun(id, key, hash, Owner, w) + between);
      && LiveKey(s', key) && s'.table[key].hash == hash && s'.table[key].status == Completed(w.code, w.body)
  {
    RunSplits(s, id, key, hash, w, between);
    PromptAppend(s, RequestRun(id, key, hash, Owner, w), between, key);
    OwnsWhenAnswering(s, id, key, hash, w);
    StoredStands(Answering(s, id, key, hash, w), id, w.code, w.body, between);
  }

  lemma StoredStands(s: State, id: nat, code: int, body: string, between: seq<Step>)
    requires id in s.workers && code < 500 && Able(s, s.workers[id]) && ExclusiveAble(s, s.workers[id].key)
    requires OwnsRow(s, s.workers[id]) && Prompt(Apply(s, Finish(id, code, body)), between, s.workers[id].key)
    requires Exec(Apply(s, Finish(id, code, body)), between).clock <= s.table[s.workers[id].key].expiresAt
    ensures var w, s' := s.workers[id], Exec(Apply(s, Finish(id, code, body)), between);
      LiveKey(s', w.key) && s'.table[w.key].hash == w.hash && s'.table[w.key].status == Completed(code, body)
  {
    AnsweredRun(Apply(s, Finish(id, code, body)), between, s.workers[id].key);
  }

  /** The same request sent again, or another one under the same key, any time later: the first answer comes back with
      its code and body and nothing runs, or the reuse is refused. */
  method RequestAndRepeat(store: KeyStore, id: nat, key: string, hash: string, w: Weather, between: seq<Step>, id': nat,
                          hash': string, w': Weather)
    returns (r: Response, ran: bool, r': Response, ran': bool)
    requires FirstAnswers(store.s, id, key, hash, w, between)
    requires id' !in Exec(store.s, RequestRun(id, key, hash, Owner, w) + between).workers
    requires AllForeign(w'.others, id')
    modifies store
    ensures ran && r.code == w.code && r.body == w.body
    ensures !ran'
    ensures w'.claim == Works && hash' == hash ==> r'.code == r.code && r'.body == r.body && !r'.retryAfter
    ensures w'.claim == Works && hash' != hash ==> r'.code == 422 && !r'.retryAfter
    ensures w'.claim != Works ==> r'.code == 503 && r'.retryAfter
  {
    ghost var s0 := store.s;
    AnswerStands(s0, id, key, hash, w, between);
    r, ran := ExecIdempotent(store, id, key, hash, w);
    store.Meanwhile(between);
    ExecAppend(s0, RequestRun(id, key, hash, Owner, w), between);
    r', ran' := ExecIdempotent(store, id', key, hash', w');
  }
}
