/** The fail-safe watchdog: per-kind failure counters and a latch that only a reset opens. */
module WatchdogLatch {
  import opened Common

  datatype WatchdogFields = WatchdogConfig(maxConsecutiveFailures: int, staleAfter: real)

  type WatchdogConfig = c: WatchdogFields | c.maxConsecutiveFailures >= 1 && c.staleAfter >= 0.0
    witness WatchdogConfig(5, 300.0)

  datatype HealthStatus = Healthy | Degraded | Unhealthy

  /** The tracker's fields as a value. */
  datatype Dog = Dog(
    consecutive: map<string, nat>, successes: nat, failures: nat, lastError: string,
    lastObservation: Option<real>, trippedAt: Option<real>)
  {
    function Level(kind: string): nat {
      if kind in consecutive then consecutive[kind] else 0
    }
  }

  const FRESH_DOG := Dog(map[], 0, 0, "", None, None)

  function NoteSuccess(dog: Dog, kind: string): Dog {
    dog.(consecutive := dog.consecutive[kind := 0], successes := dog.successes + 1)
  }

  function NoteFailure(cfg: WatchdogConfig, dog: Dog, kind: string, error: string, now: real): Dog {
    var level := dog.Level(kind) + 1;
    dog.(consecutive := dog.consecutive[kind := level], failures := dog.failures + 1,
         lastError := if error != "" then Last(error, 500) else dog.lastError,
         trippedAt := if level >= cfg.maxConsecutiveFailures && dog.trippedAt.None? then Some(now) else dog.trippedAt)
  }

  function NoteObservation(dog: Dog, at: real): Dog {
    dog.(lastObservation := Some(at))
  }

  function Reset(dog: Dog): Dog {
    dog.(consecutive := map[], trippedAt := None, lastError := "")
  }

  function Status(cfg: WatchdogConfig, dog: Dog, now: real): HealthStatus {
    if dog.trippedAt.Some? then Unhealthy
    else if exists kind | kind in dog.consecutive :: dog.consecutive[kind] >= cfg.maxConsecutiveFailures then Unhealthy
    else if dog.lastObservation.Some? && cfg.staleAfter > 0.0 && now - dog.lastObservation.value > cfg.staleAfter
    then Degraded
    else Healthy
  }

  predicate ShouldHalt(cfg: WatchdogConfig, dog: Dog, now: real) {
    Status(cfg, dog, now) == Unhealthy
  }

  class Watchdog {
    const config: WatchdogConfig
    var consecutive: map<string, nat>
    var successes: nat
    var failures: nat
    var lastError: string
    var lastObservation: Option<real>
    var trippedAt: Option<real>

    constructor (config: WatchdogConfig)
      ensures this.config == config && View() == FRESH_DOG
    {
      this.config := config;
      consecutive, successes, failures, lastError := map[], 0, 0, "";
      lastObservation, trippedAt := None, None;
    }

    function View(): Dog
      reads this
    {
      Dog(consecutive, successes, failures, lastError, lastObservation, trippedAt)
    }

    method Success(kind: string)
      modifies this
      ensures View() == NoteSuccess(old(View()), kind)
    {
      consecutive := consecutive[kind := 0];
      successes := successes + 1;
    }

    method Failure(kind: string, error: string, now: real)
      modifies this
      ensures View() == NoteFailure(config, old(View()), kind, error, now)
    {
      consecutive := consecutive[kind := (if kind in consecutive then consecutive[kind] else 0) + 1];
      failures := failures + 1;
      if error != "" {
        lastError := Last(error, 500);
      }
      if consecutive[kind] >= config.maxConsecutiveFailures && trippedAt.None? {
        trippedAt := Some(now);
      }
    }

    method Observe(at: real)
      modifies this
      ensures View() == NoteObservation(old(View()), at)
    {
      lastObservation := Some(at);
    }

    method ManualReset()
      modifies this
      ensures View() == Reset(old(View()))
    {
      consecutive := map[];
      trippedAt := None;
      lastError := "";
    }

    method Halts(now: real) returns (halt: bool)
      ensures halt == ShouldHalt(config, View(), now)
      ensures halt <==> || trippedAt.Some?
                        || exists kind | kind in consecutive :: consecutive[kind] >= config.maxConsecutiveFailures
    {
      halt := Status(config, View(), now) == Unhealthy;
    }
  }

  // ---- The latch against the history of events ---------------------------------------------------

  datatype Event =
    | SuccessEvent(kind: string) | FailureEvent(kind: string, error: string, at: real)
    | ObservationEvent(at: real) | ResetEvent

  function Apply(cfg: WatchdogConfig, dog: Dog, e: Event): Dog {
    match e
    case SuccessEvent(kind) => NoteSuccess(dog, kind)
    case FailureEvent(kind, error, at) => NoteFailure(cfg, dog, kind, error, at)
    case ObservationEvent(at) => NoteObservation(dog, at)
    case ResetEvent => Reset(dog)
  }

  function DogAfter(cfg: WatchdogConfig, events: seq<Event>): Dog {
    if events == [] then FRESH_DOG else
      Apply(cfg, DogAfter(cfg, events[..|events| - 1]), events[|events| - 1])
  }

  /** Failures of one kind among events i..j. */
  function Failures(events: seq<Event>, kind: string, i: nat, j: nat): nat
    requires i <= j <= |events|
    decreases j
  {
    if i == j then 0 else
      Failures(events, kind, i, j - 1)
      + (if events[j - 1].FailureEvent? && events[j - 1].kind == kind then 1 else 0)
  }

  /** No reset since i, and no success of this kind among events i..j. */
  predicate Unbroken(events: seq<Event>, kind: string, i: nat, j: nat)
    requires i <= j <= |events|
  {
    && (forall m | i <= m < |events| :: !events[m].ResetEvent?)
    && (forall m | i <= m < j :: events[m] != SuccessEvent(kind))
  }

  /** Since the last reset, some kind failed `n` times without a success of that kind in between. */
  ghost predicate FailedInARow(events: seq<Event>, n: int) {
    exists kind, i, j | 0 <= i <= j <= |events| ::
      Unbroken(events, kind, i, j) && Failures(events, kind, i, j) >= n
  }

  lemma {:induction false} FailuresInPrefix(events: seq<Event>, more: seq<Event>, kind: string, i: nat, j: nat)
    requires i <= j <= |events|
    ensures Failures(events + more, kind, i, j) == Failures(events, kind, i, j)
    decreases j
  {
    if i < j {
      FailuresInPrefix(events, more, kind, i, j - 1);
    }
  }

  /** The counter of a kind is the number of its failures since its current streak began. */
  lemma {:induction false} StreakStart(cfg: WatchdogConfig, events: seq<Event>, kind: string) returns (i: nat)
    ensures i <= |events| && Unbroken(events, kind, i, |events|)
    ensures Failures(events, kind, i, |events|) == DogAfter(cfg, events).Level(kind)
  {
    var n := |events|;
    if n == 0 || events[n - 1].ResetEvent? || events[n - 1] == SuccessEvent(kind) {
      i := n;
    } else {
      i := StreakStart(cfg, events[..n - 1], kind);
      assert events == events[..n - 1] + [events[n - 1]];
      FailuresInPrefix(events[..n - 1], [events[n - 1]], kind, i, n - 1);
    }
  }

  /** No unbroken stretch up to now holds more failures than the counter. */
  lemma {:induction false} StreakIsLongest(cfg: WatchdogConfig, events: seq<Event>, kind: string, i: nat)
    requires i <= |events| && Unbroken(events, kind, i, |events|)
    ensures Failures(events, kind, i, |events|) <= DogAfter(cfg, events).Level(kind)
  {
    var n := |events|;
    if i < n {
      assert events == events[..n - 1] + [events[n - 1]];
      StreakIsLongest(cfg, events[..n - 1], kind, i);
      FailuresInPrefix(events[..n - 1], [events[n - 1]], kind, i, n - 1);
    }
  }

  /** The latch is set iff some kind failed often enough in a row since the last reset. */
  lemma {:induction false} LatchedIff(cfg: WatchdogConfig, events: seq<Event>)
    ensures DogAfter(cfg, events).trippedAt.Some? <==> FailedInARow(events, cfg.maxConsecutiveFailures)
  {
    var n := |events|;
    if n > 0 {
      LatchedIff(cfg, events[..n - 1]);
      assert events == events[..n - 1] + [events[n - 1]];
      LatchImpliesRun(cfg, events);
      RunImpliesLatch(cfg, events);
    }
  }

  lemma LatchImpliesRun(cfg: WatchdogConfig, events: seq<Event>)
    requires events != []
    requires DogAfter(cfg, events[..|events| - 1]).trippedAt.Some?
             ==> FailedInARow(events[..|events| - 1], cfg.maxConsecutiveFailures)
    ensures DogAfter(cfg, events).trippedAt.Some? ==> FailedInARow(events, cfg.maxConsecutiveFailures)
  {
    var pre, e := events[..|events| - 1], events[|events| - 1];
    if DogAfter(cfg, events).trippedAt.Some? {
      LastEvent(cfg, DogAfter(cfg, pre), e);
      if DogAfter(cfg, pre).trippedAt.Some? {
        assert events == pre + [e];
        RunSurvives(pre, e, cfg.maxConsecutiveFailures);
      } else {
        LevelIsRun(cfg, events, e.kind, cfg.maxConsecutiveFailures);
      }
    }
  }

  /** A dog that is tripped after an event was not reset by it, and was tripped before or failed often enough. */
  lemma LastEvent(cfg: WatchdogConfig, dog: Dog, e: Event)
    requires Apply(cfg, dog, e).trippedAt.Some?
    ensures !e.ResetEvent?
    ensures dog.trippedAt.None? ==>
      e.FailureEvent? && Apply(cfg, dog, e).Level(e.kind) >= cfg.maxConsecutiveFailures
  {
  }

  /** A counter of at least `n` counts a run of at least `n` failures. */
  lemma LevelIsRun(cfg: WatchdogConfig, events: seq<Event>, kind: string, n: int)
    requires DogAfter(cfg, events).Level(kind) >= n
    ensures FailedInARow(events, n)
  {
    var i := StreakStart(cfg, events, kind);
  }

  lemma RunSurvives(events: seq<Event>, e: Event, n: int)
    requires FailedInARow(events, n) && !e.ResetEvent?
    ensures FailedInARow(events + [e], n)
  {
    var kind, i, j :| 0 <= i <= j <= |events| && Unbroken(events, kind, i, j) && Failures(events, kind, i, j) >= n;
    FailuresInPrefix(events, [e], kind, i, j);
    assert Unbroken(events + [e], kind, i, j);
  }

  /** A streak that the last event does not add to was there before it. */
  lemma StreakWithoutLast(pre: seq<Event>, e: Event, n: int, kind: string, i: nat, j: nat)
    requires n >= 1 && i <= j <= |pre| + 1
    requires Unbroken(pre + [e], kind, i, j) && Failures(pre + [e], kind, i, j) >= n
    requires !(j == |pre| + 1 && e.FailureEvent? && e.kind == kind)
    ensures !e.ResetEvent? && FailedInARow(pre, n)
  {
    var events, last := pre + [e], |pre|;
    assert events[last] == e;
    if i <= last {
      assert !events[last].ResetEvent?;
      var j' := if j == last + 1 then last else j;
      FailuresInPrefix(pre, [e], kind, i, j');
      assert forall m | 0 <= m < last :: events[m] == pre[m];
      assert Unbroken(pre, kind, i, j');
    }
  }

  lemma RunImpliesLatch(cfg: WatchdogConfig, events: seq<Event>)
    requires events != []
    requires FailedInARow(events[..|events| - 1], cfg.maxConsecutiveFailures)
             ==> DogAfter(cfg, events[..|events| - 1]).trippedAt.Some?
    ensures FailedInARow(events, cfg.maxConsecutiveFailures) ==> DogAfter(cfg, events).trippedAt.Some?
  {
    var n, pre, e := |events|, events[..|events| - 1], events[|events| - 1];
    assert events == pre + [e];
    if FailedInARow(events, cfg.maxConsecutiveFailures) {
      var kind, i, j :| 0 <= i <= j <= n && Unbroken(events, kind, i, j)
                        && Failures(events, kind, i, j) >= cfg.maxConsecutiveFailures;
      if j == n && e.FailureEvent? && e.kind == kind {
        StreakIsLongest(cfg, events, kind, i);
      } else {
        StreakWithoutLast(pre, e, cfg.maxConsecutiveFailures, kind, i, j);
      }
    }
  }

  /** The counter test in `status` adds nothing to the latch: halting is exactly being latched. */
  lemma {:induction false} HaltIffLatched(cfg: WatchdogConfig, events: seq<Event>, now: real)
    ensures var dog := DogAfter(cfg, events);
      && (forall kind | kind in dog.consecutive ::
            dog.consecutive[kind] >= cfg.maxConsecutiveFailures ==> dog.trippedAt.Some?)
      && (ShouldHalt(cfg, dog, now) <==> dog.trippedAt.Some?)
  {
    if events != [] {
      HaltIffLatched(cfg, events[..|events| - 1], now);
    }
  }

  /** Only a reset clears a halt, and nothing else moves its time. */
  lemma {:induction false} OnlyResetClears(cfg: WatchdogConfig, events: seq<Event>, more: seq<Event>)
    requires DogAfter(cfg, events).trippedAt.Some?
    requires forall e | e in more :: !e.ResetEvent?
    ensures DogAfter(cfg, events + more).trippedAt == DogAfter(cfg, events).trippedAt
  {
    if more == [] {
      assert events + more == events;
    } else {
      var n := |more| - 1;
      OnlyResetClears(cfg, events, more[..n]);
      assert (events + more)[..|events + more| - 1] == events + more[..n];
    }
  }

  // ---- The other fields against the history ------------------------------------------------------

  function Successes(events: seq<Event>): nat {
    if events == [] then 0 else
      Successes(events[..|events| - 1]) + (if events[|events| - 1].SuccessEvent? then 1 else 0)
  }

  function AllFailures(events: seq<Event>): nat {
    if events == [] then 0 else
      AllFailures(events[..|events| - 1]) + (if events[|events| - 1].FailureEvent? then 1 else 0)
  }

  /** The totals count the whole history; nothing resets them. */
  lemma {:induction false} TotalsCount(cfg: WatchdogConfig, events: seq<Event>)
    ensures DogAfter(cfg, events).successes == Successes(events)
    ensures DogAfter(cfg, events).failures == AllFailures(events)
  {
    if events != [] {
      TotalsCount(cfg, events[..|events| - 1]);
    }
  }

  /** Event `i` is an observation and no later event is one. */
  predicate LastSeenAt(events: seq<Event>, i: int)
    requires 0 <= i < |events|
  {
    events[i].ObservationEvent? && forall j | i < j < |events| :: !events[j].ObservationEvent?
  }

  /** The observation time is that of the last observation, and only an observation sets it. */
  lemma {:induction false} LastSeen(cfg: WatchdogConfig, events: seq<Event>)
    ensures forall i | 0 <= i < |events| && LastSeenAt(events, i) ::
      DogAfter(cfg, events).lastObservation == Some(events[i].at)
    ensures (forall i | 0 <= i < |events| :: !events[i].ObservationEvent?) ==>
      DogAfter(cfg, events).lastObservation.None?
  {
    if events != [] {
      var n, pre := |events| - 1, events[..|events| - 1];
      LastSeen(cfg, pre);
      forall i | 0 <= i < n && LastSeenAt(events, i)
        ensures LastSeenAt(pre, i) && pre[i] == events[i]
      {
      }
    }
  }

  /** Event `i` is a failure with a message; no later one is, and there is no reset since. */
  predicate LastToldAt(events: seq<Event>, i: int)
    requires 0 <= i < |events|
  {
    && events[i].FailureEvent? && events[i].error != ""
    && forall j | i < j < |events| :: !events[j].ResetEvent? && (events[j].FailureEvent? ==> events[j].error == "")
  }

  /** The text is the end of the last message since the last reset, and empty if there is none. */
  predicate IsLastError(events: seq<Event>, text: string) {
    && (forall i | 0 <= i < |events| && LastToldAt(events, i) :: IsEndOf(text, events[i].error, 500))
    && ((forall i | 0 <= i < |events| :: !LastToldAt(events, i)) ==> text == "")
  }

  /** The last error is the end, at most 500 characters, of the last message since the last reset. */
  lemma {:induction false} LastErrorIs(cfg: WatchdogConfig, events: seq<Event>)
    ensures IsLastError(events, DogAfter(cfg, events).lastError)
  {
    if events != [] {
      var n, pre := |events| - 1, events[..|events| - 1];
      LastErrorIs(cfg, pre);
      assert events == pre + [events[n]];
      LastErrorStep(cfg, DogAfter(cfg, pre), pre, events[n], events);
    }
  }

  lemma LastErrorStep(cfg: WatchdogConfig, dog: Dog, pre: seq<Event>, e: Event, events: seq<Event>)
    requires events == pre + [e] && IsLastError(pre, dog.lastError)
    ensures IsLastError(events, Apply(cfg, dog, e).lastError)
  {
    ToldStep(pre, e, events);
    assert LastToldAt(events, |pre|) <==> e.FailureEvent? && e.error != "";
    if e.FailureEvent? && e.error != "" {
      assert IsEndOf(Last(e.error, 500), e.error, 500);
    }
  }

  lemma ToldStep(pre: seq<Event>, e: Event, events: seq<Event>)
    requires events == pre + [e]
    ensures forall i | 0 <= i < |pre| :: LastToldAt(events, i) <==>
      LastToldAt(pre, i) && !e.ResetEvent? && (e.FailureEvent? ==> e.error == "")
  {
    assert events[|pre|] == e && forall j | 0 <= j < |pre| :: events[j] == pre[j];
  }

  /** `s` is the end of `whole`: all of it, or its last `limit` characters. */
  predicate IsEndOf(s: string, whole: string, limit: nat) {
    && |s| <= |whole| && whole[|whole| - |s|..] == s
    && |s| == if limit < |whole| then limit else |whole|
  }

  /** A trip carries the time of the failure that completed the first run of failures since the last reset. */
  lemma {:induction false} TripTime(cfg: WatchdogConfig, events: seq<Event>) returns (i: nat)
    requires DogAfter(cfg, events).trippedAt.Some?
    ensures i < |events| && events[i].FailureEvent? && DogAfter(cfg, events).trippedAt == Some(events[i].at)
    ensures !FailedInARow(events[..i], cfg.maxConsecutiveFailures)
    ensures FailedInARow(events[..i + 1], cfg.maxConsecutiveFailures)
    ensures forall j | i < j < |events| :: !events[j].ResetEvent?
  {
    var n, pre := |events| - 1, events[..|events| - 1];
    LastEvent(cfg, DogAfter(cfg, pre), events[n]);
    if DogAfter(cfg, pre).trippedAt.Some? {
      i := TripTime(cfg, pre);
      assert pre[..i] == events[..i] && pre[..i + 1] == events[..i + 1];
    } else {
      i := n;
      LatchedIff(cfg, pre);
      LatchedIff(cfg, events);
      assert events[..n + 1] == events;
    }
  }

  /** The verdict over a history: latched is UNHEALTHY, else too old an observation is DEGRADED, else HEALTHY. */
  lemma StatusIs(cfg: WatchdogConfig, events: seq<Event>, now: real)
    ensures var dog := DogAfter(cfg, events);
      Status(cfg, dog, now) ==
        if FailedInARow(events, cfg.maxConsecutiveFailures) then Unhealthy
        else if dog.lastObservation.Some? && cfg.staleAfter > 0.0 && now > dog.lastObservation.value + cfg.staleAfter
        then Degraded else Healthy
  {
    LatchedIff(cfg, events);
    HaltIffLatched(cfg, events, now);
  }
}
