/** The circuit breaker: its methods, and what they amount to over whole histories of calls. */
module Breaker {

  datatype Position = Closed | Open | HalfOpen

  /** The breaker's fields. */
  datatype Switch = Switch(threshold: nat, openFor: nat, at: Position, failures: nat, openedAt: nat, probing: bool)

  /** Allow or Done, at a time of the breaker's clock. */
  datatype Event = Ask(now: nat) | Tell(success: bool, now: nat)

  function New(threshold: int, openFor: nat): Switch {
    Switch(if threshold < 1 then 1 else threshold, openFor, Closed, 0, 0, false)
  }

  /** Whether Allow lets the call through. */
  predicate Admits(b: Switch, now: nat) {
    match b.at
    case Closed => true
    case Open => b.openedAt + b.openFor <= now
    case HalfOpen => !b.probing
  }

  function Trip(b: Switch, now: nat): Switch {
    b.(at := Open, failures := 0, openedAt := now)
  }

  function Next(b: Switch, e: Event): Switch {
    match e
    case Ask(now) => if b.at != Closed && Admits(b, now) then b.(at := HalfOpen, probing := true) else b
    case Tell(success, now) =>
      match b.at
      case Closed =>
        if success then b.(failures := 0)
        else if b.failures + 1 >= b.threshold then Trip(b, now)
        else b.(failures := b.failures + 1)
      case HalfOpen =>
        if success then b.(at := Closed, failures := 0, probing := false) else Trip(b, now).(probing := false)
      case Open => b
  }

  class Breaker {
    const threshold: nat
    const openFor: nat
    var at: Position
    var failures: nat
    var openedAt: nat
    var probing: bool

    constructor (threshold: int, openFor: nat)
      ensures View() == New(threshold, openFor)
    {
      this.threshold := if threshold < 1 then 1 else threshold;
      this.openFor := openFor;
      at, failures, openedAt, probing := Closed, 0, 0, false;
    }

    function View(): Switch
      reads this
    {
      Switch(threshold, openFor, at, failures, openedAt, probing)
    }

    method Allow(now: nat) returns (ok: bool)
      modifies this
      ensures View() == Next(old(View()), Ask(now)) && ok == Admits(old(View()), now)
    {
      match at {
        case Open =>
          if now - openedAt < openFor { return false; }
          at, probing := HalfOpen, true;
          return true;
        case HalfOpen =>
          if probing { return false; }
          probing := true;
          return true;
        case Closed => return true;
      }
    }

    method Done(success: bool, now: nat)
      modifies this
      ensures View() == Next(old(View()), Tell(success, now))
    {
      match at {
        case Closed =>
          if success {
            failures := 0;
            return;
          }
          failures := failures + 1;
          if failures >= threshold { DoTrip(now); }
        case HalfOpen =>
          probing := false;
          if success {
            failures, at := 0, Closed;
          } else {
            DoTrip(now);
          }
        case Open =>
      }
    }

    method DoTrip(now: nat)
      modifies this`openedAt, this`failures, this`at
      ensures View() == Trip(old(View()), now)
    {
      openedAt, failures, at := now, 0, Open;
    }
  }

  function Run(b: Switch, events: seq<Event>): Switch {
    if events == [] then b else Next(Run(b, events[..|events| - 1]), events[|events| - 1])
  }

  ghost predicate Valid(b: Switch) {
    b.threshold >= 1 && (b.probing <==> b.at == HalfOpen) && (b.at == Closed ==> b.failures < b.threshold)
  }

  // ----- when it trips

  /** The results reported since the breaker last closed, while it is closed. */
  function Results(b: Switch, events: seq<Event>): seq<bool> {
    if events == [] then []
    else
      var init, e := events[..|events| - 1], events[|events| - 1];
      var before := Run(b, init);
      if Run(b, events).at != Closed then []
      else if e.Tell? && before.at == Closed then Results(b, init) + [e.success]
      else if before.at != Closed then []
      else Results(b, init)
  }

  ghost predicate LastAreFailures(results: seq<bool>, n: nat) {
    n <= |results| && forall i | |results| - n <= i < |results| :: !results[i]
  }

  /** The failure counter is the number of failures at the end of the results. */
  ghost predicate Counts(failures: nat, results: seq<bool>) {
    LastAreFailures(results, failures) && !LastAreFailures(results, failures + 1)
  }

  lemma FewerAreFailures(results: seq<bool>, m: nat, n: nat)
    requires m <= n
    ensures LastAreFailures(results, n) ==> LastAreFailures(results, m)
  {
  }

  lemma ShorterStreak(results: seq<bool>, success: bool, n: nat)
    ensures LastAreFailures(results + [success], n + 1) ==> LastAreFailures(results, n) && !success
  {
    var more := results + [success];
    assert more[|results|] == success && forall i | 0 <= i < |results| :: more[i] == results[i];
  }

  lemma CountsOneMore(failures: nat, results: seq<bool>, success: bool)
    requires Counts(failures, results)
    ensures Counts(if success then 0 else failures + 1, results + [success])
  {
    ShorterStreak(results, success, if success then 0 else failures + 1);
  }

  lemma {:induction false} CounterIsStreak(threshold: int, openFor: nat, events: seq<Event>)
    ensures var b := Run(New(threshold, openFor), events);
      Valid(b) && (b.at == Closed ==> Counts(b.failures, Results(New(threshold, openFor), events)))
  {
    if events != [] {
      var init, e := events[..|events| - 1], events[|events| - 1];
      CounterIsStreak(threshold, openFor, init);
      var before := Run(New(threshold, openFor), init);
      if e.Tell? && before.at == Closed {
        CountsOneMore(before.failures, Results(New(threshold, openFor), init), e.success);
      }
    }
  }

  /** In any history, a result reported to the closed breaker opens it exactly when it completes a row of
      `threshold` failures since it closed. */
  lemma TripsExactlyOnAFullStreak(threshold: int, openFor: nat, events: seq<Event>, success: bool, now: nat)
    requires Run(New(threshold, openFor), events).at == Closed
    ensures var b := Run(New(threshold, openFor), events);
      Next(b, Tell(success, now)).at == Open
      <==> LastAreFailures(Results(New(threshold, openFor), events) + [success], b.threshold)
  {
    CounterIsStreak(threshold, openFor, events);
    var b, results := Run(New(threshold, openFor), events), Results(New(threshold, openFor), events);
    CountsOneMore(b.failures, results, success);
    var more := results + [success];
    if b.threshold >= b.failures + 2 { FewerAreFailures(more, b.failures + 2, b.threshold); }
  }

  // ----- when it lets calls through again

  /** The time at which the breaker last opened, read off the history. */
  function LastOpened(b: Switch, events: seq<Event>): nat {
    if events == [] then b.openedAt
    else
      var init, e := events[..|events| - 1], events[|events| - 1];
      if Run(b, init).at != Open && Run(b, events).at == Open then e.now else LastOpened(b, init)
  }

  lemma {:induction false} OpenSinceLastOpened(b: Switch, events: seq<Event>)
    ensures Run(b, events).openedAt == LastOpened(b, events)
  {
    if events != [] { OpenSinceLastOpened(b, events[..|events| - 1]); }
  }

  /** In any history, an open breaker lets a call through if and only if `openFor` has passed since it last opened, a
      closed one always, a half-open one never; a call that is let through while open is the probe. */
  lemma AsksAreAnswered(threshold: int, openFor: nat, events: seq<Event>, now: nat)
    ensures var b := Run(New(threshold, openFor), events); var b' := Next(b, Ask(now));
      && (b.at == Closed ==> Admits(b, now) && b' == b)
      && (b.at == HalfOpen ==> !Admits(b, now) && b' == b)
      && (b.at == Open ==> (Admits(b, now) <==> LastOpened(New(threshold, openFor), events) + openFor <= now))
      && (b.at == Open ==> b'.at == if Admits(b, now) then HalfOpen else Open)
      && b'.failures == b.failures && b'.openedAt == b.openedAt
  {
    CounterIsStreak(threshold, openFor, events);
    OpenSinceLastOpened(New(threshold, openFor), events);
    RunKeepsSettings(New(threshold, openFor), events);
  }

  /** In any history, the probe's result decides: a success closes the breaker with no failures counted, a failure opens
      it anew at that time; a result that comes while it is open changes nothing. */
  lemma ProbeDecides(threshold: int, openFor: nat, events: seq<Event>, success: bool, now: nat)
    ensures var start := New(threshold, openFor); var told := events + [Tell(success, now)];
      var b, b' := Run(start, events), Run(start, told);
      && (b.at == HalfOpen ==>
            && (b'.at == Closed <==> success) && (b'.at == Open <==> !success)
            && b'.failures == 0 && !b'.probing
            && (!success ==> LastOpened(start, told) == now))
      && (b.at == Open ==> b' == b)
  {
    var told := events + [Tell(success, now)];
    assert told[..|events|] == events;
  }

  /** The results reported in a history, whoever reported them. */
  function Told(events: seq<Event>): seq<bool> {
    if events == [] then []
    else
      var init, e := events[..|events| - 1], events[|events| - 1];
      Told(init) + (if e.Tell? then [e.success] else [])
  }

  /** Somewhere in the results there are n failures in a row. */
  ghost predicate HasStreak(results: seq<bool>, n: nat) {
    exists k :: 0 <= k <= |results| && LastAreFailures(results[..k], n)
  }

  ghost predicate StaysClosed(b: Switch, events: seq<Event>) {
    forall i | 0 <= i <= |events| :: Run(b, events[..i]).at == Closed
  }

  lemma StreakMore(results: seq<bool>, success: bool, n: nat)
    ensures HasStreak(results + [success], n) <==> HasStreak(results, n) || LastAreFailures(results + [success], n)
  {
    var more := results + [success];
    assert more[..|more|] == more;
    if k :| 0 <= k <= |results| && LastAreFailures(results[..k], n) {
      assert more[..k] == results[..k];
    }
    if k :| 0 <= k <= |more| && LastAreFailures(more[..k], n) {
      if k <= |results| { assert more[..k] == results[..k]; }
    }
  }

  lemma StaysClosedMore(b: Switch, events: seq<Event>)
    requires events != []
    ensures StaysClosed(b, events) <==> StaysClosed(b, events[..|events| - 1]) && Run(b, events).at == Closed
  {
    var n := |events| - 1;
    assert events[..n + 1] == events;
    forall i | 0 <= i <= n ensures events[..n][..i] == events[..i] {}
    if StaysClosed(b, events) {
      forall i | 0 <= i <= n ensures Run(b, events[..n][..i]).at == Closed { assert events[..n][..i] == events[..i]; }
    }
    if StaysClosed(b, events[..n]) && Run(b, events).at == Closed {
      forall i | 0 <= i <= n + 1 ensures Run(b, events[..i]).at == Closed {
        if i <= n { assert events[..n][..i] == events[..i]; }
      }
    }
  }

  /** From a closed breaker with no failures counted, however calls and results interleave: it stays closed throughout,
      and so lets every call through, exactly until `threshold` failures in a row have been reported. */
  lemma {:induction false} ClosedUntilAStreak(b: Switch, events: seq<Event>)
    requires b.threshold >= 1 && b.at == Closed && b.failures == 0
    ensures StaysClosed(b, events) <==> !HasStreak(Told(events), b.threshold)
    ensures StaysClosed(b, events) ==> ClosedAndCounting(Run(b, events), Told(events))
    ensures Run(b, events).threshold == b.threshold
  {
    if events == [] {
      assert Told(events)[..0] == [];
    } else {
      var init, e := events[..|events| - 1], events[|events| - 1];
      ClosedUntilAStreak(b, init);
      StaysClosedMore(b, events);
      if e.Tell? {
        StreakMore(Told(init), e.success, b.threshold);
        if StaysClosed(b, init) { ClosedTold(Run(b, init), Told(init), e.success, e.now); }
      } else {
        assert Told(events) == Told(init);
      }
    }
  }

  ghost predicate ClosedAndCounting(b: Switch, results: seq<bool>) {
    b.at == Closed && Counts(b.failures, results) && b.failures < b.threshold
  }

  /** One more result while closed. */
  lemma ClosedTold(b: Switch, results: seq<bool>, success: bool, now: nat)
    requires b.threshold >= 1 && ClosedAndCounting(b, results)
    ensures var b' := Next(b, Tell(success, now)); var more := results + [success];
      && (b'.at == Closed <==> !LastAreFailures(more, b.threshold))
      && (b'.at == Closed ==> ClosedAndCounting(b', more))
  {
    CountsOneMore(b.failures, results, success);
    var more := results + [success];
    var now' := if success then 0 else b.failures + 1;
    if now' < b.threshold { FewerAreFailures(more, now' + 1, b.threshold); }
  }

  /** A new breaker, with a threshold below one taken as one, lets every call through exactly until that many failures
      in a row were reported. */
  lemma NewStaysClosedUntilAStreak(threshold: int, openFor: nat, events: seq<Event>)
    ensures StaysClosed(New(threshold, openFor), events) <==>
      !HasStreak(Told(events), if threshold < 1 then 1 else threshold)
  {
    ClosedUntilAStreak(New(threshold, openFor), events);
  }

  /** After a trip, the first call at least `openFor` later is the probe, and if it succeeds every call is let through
      until the next `threshold` failures in a row. */
  lemma ReopensTheWay(threshold: int, openFor: nat, events: seq<Event>, ask: nat, tell: nat, more: seq<Event>)
    requires Run(New(threshold, openFor), events).at == Open
    requires LastOpened(New(threshold, openFor), events) + openFor <= ask
    ensures var b := Run(New(threshold, openFor), events);
      var probing := Next(b, Ask(ask));
      var closed := Next(probing, Tell(true, tell));
      && Admits(b, ask) && probing.at == HalfOpen && closed.at == Closed
      && (StaysClosed(closed, more) <==> !HasStreak(Told(more), closed.threshold))
      && (!HasStreak(Told(more), closed.threshold) ==> forall now :: Admits(Run(closed, more), now))
  {
    var b := Run(New(threshold, openFor), events);
    CounterIsStreak(threshold, openFor, events);
    AsksAreAnswered(threshold, openFor, events, ask);
    var closed := Next(Next(b, Ask(ask)), Tell(true, tell));
    RunKeepsSettings(New(threshold, openFor), events);
    ClosedUntilAStreak(closed, more);
    if StaysClosed(closed, more) { assert more[..|more|] == more; }
  }

  // ----- how many calls get through while it is not closed

  /** The times at which a call was let through while the breaker was not closed. */
  function Probes(b: Switch, events: seq<Event>): seq<nat> {
    if events == [] then []
    else
      var init, e := events[..|events| - 1], events[|events| - 1];
      var before := Run(b, init);
      if e.Ask? && before.at != Closed && Admits(before, e.now) then Probes(b, init) + [e.now] else Probes(b, init)
  }

  /** The clock never goes back. */
  ghost predicate Monotone(b: Switch, events: seq<Event>) {
    && (forall i | 0 <= i < |events| :: b.openedAt <= events[i].now)
    && forall i, j | 0 <= i < j < |events| :: events[i].now <= events[j].now
  }

  ghost predicate Spaced(times: seq<nat>, gap: nat) {
    forall i | 0 < i < |times| :: times[i] >= times[i - 1] + gap
  }

  /** Each stay in HalfOpen lets through the one call that began it. */
  lemma {:induction false} HalfOpenAdmitsNobodyElse(threshold: int, openFor: nat, events: seq<Event>, now: nat)
    ensures var b := Run(New(threshold, openFor), events);
      && (b.probing <==> b.at == HalfOpen)
      && (b.at == HalfOpen ==> !Admits(b, now))
      && (b.at == Open && Admits(b, now) ==> Next(b, Ask(now)).at == HalfOpen && !Admits(Next(b, Ask(now)), now))
  {
    CounterIsStreak(threshold, openFor, events);
  }

  lemma {:induction false} RunKeepsSettings(b: Switch, events: seq<Event>)
    ensures Run(b, events).openFor == b.openFor && Run(b, events).threshold == b.threshold
  {
    if events != [] { RunKeepsSettings(b, events[..|events| - 1]); }
  }

  lemma {:induction false} RunStaysValid(b: Switch, events: seq<Event>)
    requires Valid(b)
    ensures Valid(Run(b, events))
  {
    if events != [] { RunStaysValid(b, events[..|events| - 1]); }
  }

  /** All probes so far came before the breaker last opened, or the last one is still out. */
  ghost predicate ProbesAreOver(b: Switch, times: seq<nat>) {
    b.at == Open ==> forall i | 0 <= i < |times| :: times[i] <= b.openedAt
  }

  /** The time of some event. */
  ghost predicate TimeIn(t: nat, events: seq<Event>) {
    exists k | 0 <= k < |events| :: t == events[k].now
  }

  lemma TimeInMore(t: nat, events: seq<Event>)
    requires events != [] && TimeIn(t, events[..|events| - 1])
    ensures TimeIn(t, events)
  {
    var k :| 0 <= k < |events| - 1 && t == events[..|events| - 1][k].now;
    assert t == events[k].now;
  }

  lemma {:induction false} ProbesAreEvents(b: Switch, events: seq<Event>)
    ensures forall i | 0 <= i < |Probes(b, events)| :: TimeIn(Probes(b, events)[i], events)
    ensures Run(b, events).openedAt == b.openedAt || TimeIn(Run(b, events).openedAt, events)
  {
    if events != [] {
      var init := events[..|events| - 1];
      ProbesAreEvents(b, init);
      forall i | 0 <= i < |Probes(b, init)|
        ensures TimeIn(Probes(b, init)[i], events)
      {
        TimeInMore(Probes(b, init)[i], events);
      }
      if TimeIn(Run(b, init).openedAt, init) { TimeInMore(Run(b, init).openedAt, events); }
      assert TimeIn(events[|events| - 1].now, events);
    }
  }

  /** What is in the past when the last event comes. */
  lemma LastIsLatest(b: Switch, events: seq<Event>)
    requires Monotone(b, events) && events != []
    ensures var init, e := events[..|events| - 1], events[|events| - 1];
      Run(b, init).openedAt <= e.now && forall i | 0 <= i < |Probes(b, init)| :: Probes(b, init)[i] <= e.now
  {
    var init := events[..|events| - 1];
    ProbesAreEvents(b, init);
    forall t: nat | TimeIn(t, init) ensures t <= events[|events| - 1].now {
      var k :| 0 <= k < |init| && t == init[k].now;
      assert init[k] == events[k];
    }
  }

  lemma {:induction false} ProbesAreSpaced(b: Switch, events: seq<Event>)
    requires Valid(b) && Monotone(b, events)
    ensures Spaced(Probes(b, events), b.openFor) && ProbesAreOver(Run(b, events), Probes(b, events))
  {
    if events != [] {
      var init := events[..|events| - 1];
      ProbesAreSpaced(b, init);
      RunStaysValid(b, init);
      RunKeepsSettings(b, init);
      LastIsLatest(b, events);
    }
  }

  lemma {:induction false} SpacedSpan(times: seq<nat>, gap: nat)
    requires Spaced(times, gap) && times != []
    ensures times[|times| - 1] - times[0] >= (|times| - 1) * gap
  {
    if |times| > 1 {
      var init := times[..|times| - 1];
      SpacedSpan(init, gap);
      assert (|times| - 1) * gap == (|init| - 1) * gap + gap;
    }
  }

  /** The calls let through. */
  function Admitted(b: Switch, events: seq<Event>): seq<nat> {
    if events == [] then []
    else
      var init, e := events[..|events| - 1], events[|events| - 1];
      if e.Ask? && Admits(Run(b, init), e.now) then Admitted(b, init) + [e.now] else Admitted(b, init)
  }

  ghost predicate NeverCloses(b: Switch, events: seq<Event>) {
    forall i | 0 <= i <= |events| :: Run(b, events[..i]).at != Closed
  }

  lemma {:induction false} NotClosedAdmitsProbes(b: Switch, events: seq<Event>)
    requires NeverCloses(b, events)
    ensures Admitted(b, events) == Probes(b, events)
  {
    if events != [] {
      var n := |events| - 1;
      assert NeverCloses(b, events[..n]) by {
        forall i | 0 <= i <= n ensures Run(b, events[..n][..i]).at != Closed { assert events[..n][..i] == events[..i]; }
      }
      NotClosedAdmitsProbes(b, events[..n]);
      assert Run(b, events[..n]).at != Closed;
    }
  }

  /** From any state and over any history on a clock that never goes back: while the breaker does not
      close, at most T / openFor + 1 calls get through within a time T, successive ones at least openFor
      apart. */
  lemma FewCallsWhileNotClosed(b: Switch, events: seq<Event>, from: nat, T: nat)
    requires Valid(b) && b.openFor > 0 && Monotone(b, events) && NeverCloses(b, events)
    requires forall i | 0 <= i < |events| :: from <= events[i].now <= from + T
    ensures Spaced(Admitted(b, events), b.openFor)
    ensures |Admitted(b, events)| <= T / b.openFor + 1
  {
    NotClosedAdmitsProbes(b, events);
    ProbesAreSpaced(b, events);
    ProbesAreEvents(b, events);
    SpacedWithin(Probes(b, events), b.openFor, from, T);
  }

  lemma SpacedWithin(times: seq<nat>, gap: nat, from: nat, T: nat)
    requires gap > 0 && Spaced(times, gap) && forall i | 0 <= i < |times| :: from <= times[i] <= from + T
    ensures |times| <= T / gap + 1
  {
    if times != [] {
      SpacedSpan(times, gap);
      Fits(|times| - 1, gap, T);
    }
  }

  lemma Scale(m: nat, n: nat, gap: nat)
    requires m <= n
    ensures m * gap <= n * gap
  {
  }

  lemma Fits(n: nat, gap: nat, T: nat)
    requires gap > 0 && n * gap <= T
    ensures n <= T / gap
  {
    if n >= T / gap + 1 { Scale(T / gap + 1, n, gap); }
  }
}
