/** The loop under its watchdog: halting, termination and fairness. */
module LoopLaws {
  import opened Common
  import opened WatchdogLatch
  import opened Agent
  import opened CycleLaws
  import opened CycleTrace

  // ---- What one cycle does to the watchdog -------------------------------------------------------

  /** The stages only ever report a fresh observation to the watchdog. */
  function SeenBy(dog: Option<Dog>, s: CycleScript): Option<Dog> {
    if dog.Some? && s.observe.Returned? then Some(NoteObservation(dog.value, s.observe.value.observedAt)) else dog
  }

  lemma SuperviseKeepsDog(cfg: AgentConfig, s: CycleScript, f: Frame)
    ensures SuperviseStage(cfg, s, f).frame.world.dog == f.world.dog
  {
  }

  lemma LateStagesKeepDog(cfg: AgentConfig, s: CycleScript, f: Frame)
    ensures FromExecute(cfg, s, f).frame.world.dog == f.world.dog
  {
    TailKeepsWorld(cfg, s, ExecuteStage(cfg, s, f).frame);
  }

  lemma StagesKeepDog(cfg: AgentConfig, w: World, s: CycleScript)
    ensures Stages(cfg, s, StartFrame(w)).frame.world.dog == SeenBy(w.dog, s)
  {
    var r1 := ObserveStage(s, StartFrame(w));
    assert r1.frame.world.dog == SeenBy(w.dog, s);
    var r2 := StrategyStage(cfg, s, r1.frame);
    assert r2.frame.world == r1.frame.world;
    PlanningKeepsDog(cfg, s, r2.frame);
  }

  lemma PlanningKeepsDog(cfg: AgentConfig, s: CycleScript, f: Frame)
    ensures FromPlan(cfg, s, f).frame.world.dog == f.world.dog
  {
    var r3 := PlanStage(cfg, s, f);
    assert r3.frame.world == f.world;
    SuperviseKeepsDog(cfg, s, r3.frame);
    LateStagesKeepDog(cfg, s, SuperviseStage(cfg, s, r3.frame).frame);
  }

  /** Fed only by the agent and never tripped: `level` cycles failed in a row, fewer than the threshold. */
  predicate Quiet(cfg: AgentConfig, w: World, level: nat) {
    && w.dog.Some? && w.dog.value.trippedAt.None? && w.dog.value.consecutive.Keys <= {"cycle"}
    && w.dog.value.Level("cycle") == level < cfg.dog.maxConsecutiveFailures
  }

  lemma QuietNeverHalts(cfg: AgentConfig, w: World, level: nat, now: real)
    requires Quiet(cfg, w, level)
    ensures !Halted(cfg, w, now)
  {
  }

  /** An ok cycle clears the streak; a failed one lengthens it, and halts the agent at the threshold. */
  lemma CycleMovesStreak(cfg: AgentConfig, w: World, level: nat, symbol: string, s: CycleScript)
    requires Quiet(cfg, w, level)
    ensures var (next, cycle) := Cycle(cfg, w, symbol, s);
      if cycle.Ok() then Quiet(cfg, next, 0)
      else if level + 1 < cfg.dog.maxConsecutiveFailures then Quiet(cfg, next, level + 1)
      else forall now :: Halted(cfg, next, now)
  {
    QuietNeverHalts(cfg, w, level, s.startedAt);
    StagesKeepDog(cfg, w, s);
    var flow := Stages(cfg, s, StartFrame(w));
    var before := flow.frame.world.dog.value;
    assert before.consecutive == w.dog.value.consecutive && before.trippedAt.None?;
    var cycle := CycleOf(symbol, s, flow);
    if cycle.Ok() {
      assert NoteSuccess(before, "cycle").Level("cycle") == 0;
    } else {
      var error := if cycle.error != "" then cycle.error else "degraded";
      assert NoteFailure(cfg.dog, before, "cycle", error, s.finishedAt).Level("cycle") == level + 1;
    }
  }

  // ---- The watchdog's history of a run -----------------------------------------------------------

  /** How a cycle ended, as the watchdog hears of it. */
  function EndOf(cycle: AgentCycle, now: real): Event {
    if cycle.error == "" && !AnyFailed(cycle.stages) then SuccessEvent("cycle")
    else FailureEvent("cycle", if cycle.error != "" then cycle.error else "degraded", now)
  }

  /** What a cycle reports to the watchdog: a fresh observation, then how it ended. A refused cycle reports nothing. */
  function ReportsOf(cfg: AgentConfig, w: World, s: CycleScript, cycle: AgentCycle): seq<Event> {
    if Halted(cfg, w, s.startedAt) then []
    else if s.observe.Raised? then [EndOf(cycle, s.finishedAt)]
    else [ObservationEvent(s.observe.value.observedAt), EndOf(cycle, s.finishedAt)]
  }

  /** A watchdog that knows a history knows, after a cycle, that history and the cycle's reports. */
  lemma CycleReports(cfg: AgentConfig, w: World, symbol: string, s: CycleScript, history: seq<Event>)
    requires w.dog == Some(DogAfter(cfg.dog, history))
    ensures var (after, cycle) := Cycle(cfg, w, symbol, s);
      after.dog == Some(DogAfter(cfg.dog, history + ReportsOf(cfg, w, s, cycle)))
  {
    var cycle := Cycle(cfg, w, symbol, s).1;
    var heard := history + (if s.observe.Returned? then [ObservationEvent(s.observe.value.observedAt)] else []);
    if Halted(cfg, w, s.startedAt) {
      assert history + [] == history;
    } else {
      var world := BeforeFinish(cfg, w, symbol, s, cycle);
      SeenHistory(cfg, history, w.dog, s);
      FinishReports(cfg, world, cycle, s.finishedAt, heard);
      assert history + ReportsOf(cfg, w, s, cycle) == heard + [EndOf(cycle, s.finishedAt)];
    }
  }

  lemma BeforeFinish(cfg: AgentConfig, w: World, symbol: string, s: CycleScript, cycle: AgentCycle)
    returns (world: World)
    requires !Halted(cfg, w, s.startedAt) && cycle == Cycle(cfg, w, symbol, s).1
    ensures world.dog == SeenBy(w.dog, s) && Cycle(cfg, w, symbol, s).0 == Finish(cfg, world, cycle, s.finishedAt)
  {
    StagesKeepDog(cfg, w, s);
    world := Stages(cfg, s, StartFrame(w)).frame.world;
  }

  lemma FinishReports(cfg: AgentConfig, world: World, cycle: AgentCycle, now: real, history: seq<Event>)
    requires world.dog == Some(DogAfter(cfg.dog, history))
    ensures Finish(cfg, world, cycle, now).dog == Some(DogAfter(cfg.dog, history + [EndOf(cycle, now)]))
  {
    NextDog(cfg, history, EndOf(cycle, now));
  }

  lemma SeenHistory(cfg: AgentConfig, history: seq<Event>, dog: Option<Dog>, s: CycleScript)
    requires dog == Some(DogAfter(cfg.dog, history))
    ensures var seen := if s.observe.Returned? then [ObservationEvent(s.observe.value.observedAt)] else [];
      SeenBy(dog, s) == Some(DogAfter(cfg.dog, history + seen))
  {
    if s.observe.Returned? {
      NextDog(cfg, history, ObservationEvent(s.observe.value.observedAt));
    } else {
      assert history + [] == history;
    }
  }

  lemma NextDog(cfg: AgentConfig, history: seq<Event>, e: Event)
    ensures DogAfter(cfg.dog, history + [e]) == WatchdogLatch.Apply(cfg.dog, DogAfter(cfg.dog, history), e)
  {
    assert (history + [e])[..|history|] == history;
  }

  // ---- Runs --------------------------------------------------------------------------------------

  /** Cycles i..j all failed. */
  predicate FailFrom(cycles: seq<AgentCycle>, i: nat, j: nat)
    requires i <= j <= |cycles|
  {
    forall m | i <= m < j :: !cycles[m].Ok()
  }

  predicate AllFail(cycles: seq<AgentCycle>) {
    FailFrom(cycles, 0, |cycles|)
  }

  /** Threshold-many failures in a row, the `level` earlier ones included, can only be the last cycles of the run. */
  ghost predicate EndsAt(cycles: seq<AgentCycle>, level: nat, n: nat) {
    forall i: nat, j: nat | i <= j <= |cycles| && FailFrom(cycles, i, j) && StreakTo(level, i, j) >= n ::
      j == |cycles| && StreakTo(level, i, j) == n
  }

  function StreakTo(level: nat, i: nat, j: nat): nat
    requires i <= j
  {
    if i == 0 then level + j else j - i
  }

  lemma PrependEnds(cycle: AgentCycle, rest: seq<AgentCycle>, level: nat, n: nat)
    requires level < n
    requires if cycle.Ok() then EndsAt(rest, 0, n)
             else if level + 1 < n then EndsAt(rest, level + 1, n) else rest == []
    ensures EndsAt([cycle] + rest, level, n)
  {
    var cycles := [cycle] + rest;
    forall i: nat, j: nat | i <= j <= |cycles| && FailFrom(cycles, i, j) && StreakTo(level, i, j) >= n
      ensures j == |cycles| && StreakTo(level, i, j) == n
    {
      assert j > 0;
      assert cycles[0] == cycle && forall m | 0 < m < |cycles| :: cycles[m] == rest[m - 1];
      var i' := if i == 0 then 0 else i - 1;
      if rest != [] {
        assert forall m | i' <= m < j - 1 :: rest[m] == cycles[m + 1];
        assert FailFrom(rest, i', j - 1);
        if i == 0 {
          assert !cycles[0].Ok() && StreakTo(level + 1, i', j - 1) == StreakTo(level, i, j);
        } else {
          assert StreakTo(0, i', j - 1) == StreakTo(level, i, j);
          assert StreakTo(level + 1, i', j - 1) >= StreakTo(level, i, j);
        }
      }
    }
  }

  lemma {:induction false} StreakEndsRun(
    cfg: AgentConfig, w: World, level: nat, symbols: seq<string>, maxCycles: Option<int>, done: nat,
    scripts: seq<CycleScript>)
    requires Quiet(cfg, w, level) && symbols != []
    ensures EndsAt(RunFrom(cfg, w, symbols, maxCycles, done, scripts).1, level, cfg.dog.maxConsecutiveFailures)
    decreases |scripts|
  {
    if !Stopped(cfg, w, maxCycles, done, scripts) {
      var next, cycle := RunParts(cfg, w, level, symbols, maxCycles, done, scripts);
      var rest := RunFrom(cfg, next, symbols, maxCycles, done + 1, scripts[1..]).1;
      if cycle.Ok() {
        StreakEndsRun(cfg, next, 0, symbols, maxCycles, done + 1, scripts[1..]);
      } else if level + 1 < cfg.dog.maxConsecutiveFailures {
        StreakEndsRun(cfg, next, level + 1, symbols, maxCycles, done + 1, scripts[1..]);
      }
      PrependEnds(cycle, rest, level, cfg.dog.maxConsecutiveFailures);
    }
  }

  /** One iteration of a run that is not stopped, and what it does to the streak. */
  lemma RunParts(
    cfg: AgentConfig, w: World, level: nat, symbols: seq<string>, maxCycles: Option<int>, done: nat,
    scripts: seq<CycleScript>) returns (next: World, cycle: AgentCycle)
    requires Quiet(cfg, w, level) && symbols != [] && !Stopped(cfg, w, maxCycles, done, scripts)
    ensures var rest := RunFrom(cfg, next, symbols, maxCycles, done + 1, scripts[1..]).1;
      && RunFrom(cfg, w, symbols, maxCycles, done, scripts).1 == [cycle] + rest
      && (if cycle.Ok() then Quiet(cfg, next, 0)
          else if level + 1 < cfg.dog.maxConsecutiveFailures then Quiet(cfg, next, level + 1)
          else rest == [])
  {
    var symbol := symbols[Slot(done, |symbols|)];
    next, cycle := Cycle(cfg, w, symbol, scripts[0]).0, Cycle(cfg, w, symbol, scripts[0]).1;
    CycleMovesStreak(cfg, w, level, symbol, scripts[0]);
  }

  /** With a fresh watchdog of threshold n, a run never returns n failures in a row except as its last n cycles. */
  lemma FailuresOnlyAtTheEnd(
    cfg: AgentConfig, w: World, symbols: seq<string>, maxCycles: Option<int>, scripts: seq<CycleScript>,
    cycles: seq<AgentCycle>, i: nat)
    requires w.dog == Some(FRESH_DOG) && symbols != []
    requires cycles == RunFrom(cfg, w, symbols, maxCycles, 0, scripts).1
    requires i + cfg.dog.maxConsecutiveFailures <= |cycles|
    requires FailFrom(cycles, i, i + cfg.dog.maxConsecutiveFailures)
    ensures |cycles| == i + cfg.dog.maxConsecutiveFailures
  {
    StreakEndsRun(cfg, w, 0, symbols, maxCycles, 0, scripts);
    assert StreakTo(0, i, i + cfg.dog.maxConsecutiveFailures) >= cfg.dog.maxConsecutiveFailures;
  }

  function Min(a: int, b: int): int { if a < b then a else b }

  function Max(a: int, b: int): int { if a < b then b else a }

  /** How many cycles are left when every one of them fails. */
  function FailingLength(cfg: AgentConfig, level: nat, maxCycles: Option<int>, done: nat, scripts: seq<CycleScript>)
    : int
  {
    var byWatchdog := Min(cfg.dog.maxConsecutiveFailures - level, |scripts|);
    if maxCycles.None? then byWatchdog else Min(byWatchdog, Max(0, maxCycles.value - done))
  }

  lemma {:induction false} FailingRunLength(
    cfg: AgentConfig, w: World, level: nat, symbols: seq<string>, maxCycles: Option<int>, done: nat,
    scripts: seq<CycleScript>)
    requires Quiet(cfg, w, level) && symbols != []
    requires AllFail(RunFrom(cfg, w, symbols, maxCycles, done, scripts).1)
    ensures |RunFrom(cfg, w, symbols, maxCycles, done, scripts).1|
         == FailingLength(cfg, level, maxCycles, done, scripts)
    decreases |scripts|
  {
    if scripts != [] {
      QuietNeverHalts(cfg, w, level, scripts[0].startedAt);
    }
    if !Stopped(cfg, w, maxCycles, done, scripts) {
      var next, cycle := RunParts(cfg, w, level, symbols, maxCycles, done, scripts);
      var rest := RunFrom(cfg, next, symbols, maxCycles, done + 1, scripts[1..]).1;
      FailingTail(cycle, rest);
      if level + 1 < cfg.dog.maxConsecutiveFailures {
        FailingRunLength(cfg, next, level + 1, symbols, maxCycles, done + 1, scripts[1..]);
      }
    }
  }

  lemma FailingTail(cycle: AgentCycle, rest: seq<AgentCycle>)
    requires AllFail([cycle] + rest)
    ensures !cycle.Ok() && AllFail(rest)
  {
    var cycles := [cycle] + rest;
    assert cycles[0] == cycle && forall m | 0 <= m < |rest| :: rest[m] == cycles[m + 1];
  }

  /** A loop whose cycles all fail ends after exactly min(threshold, maxCycles) of them, even without maxCycles. */
  lemma FailingLoopTerminates(
    cfg: AgentConfig, w: World, symbols: seq<string>, maxCycles: Option<int>, scripts: seq<CycleScript>)
    requires w.dog == Some(FRESH_DOG) && symbols != [] && |scripts| >= cfg.dog.maxConsecutiveFailures
    requires maxCycles.Some? ==> maxCycles.value >= 0
    requires AllFail(RunFrom(cfg, w, symbols, maxCycles, 0, scripts).1)
    ensures |RunFrom(cfg, w, symbols, maxCycles, 0, scripts).1|
         == if maxCycles.None? then cfg.dog.maxConsecutiveFailures
            else Min(cfg.dog.maxConsecutiveFailures, maxCycles.value)
  {
    FailingRunLength(cfg, w, 0, symbols, maxCycles, 0, scripts);
  }

  lemma {:induction false} BlindRunFails(
    cfg: AgentConfig, w: World, symbols: seq<string>, maxCycles: Option<int>, done: nat, scripts: seq<CycleScript>)
    requires symbols != [] && forall s | s in scripts :: s.observe.Raised?
    ensures AllFail(RunFrom(cfg, w, symbols, maxCycles, done, scripts).1)
    decreases |scripts|
  {
    if !Stopped(cfg, w, maxCycles, done, scripts) {
      var symbol := symbols[Slot(done, |symbols|)];
      assert scripts[0] in scripts && forall s | s in scripts[1..] :: s in scripts;
      OkIffFaultFree(cfg, w, symbol, scripts[0]);
      var next, cycle := CycleNamesSymbol(cfg, w, symbol, scripts[0]);
      BlindRunFails(cfg, next, symbols, maxCycles, done + 1, scripts[1..]);
      PrependFailure(cycle, RunFrom(cfg, next, symbols, maxCycles, done + 1, scripts[1..]).1);
    }
  }

  lemma PrependFailure(cycle: AgentCycle, rest: seq<AgentCycle>)
    requires !cycle.Ok() && AllFail(rest)
    ensures AllFail([cycle] + rest)
  {
  }

  /** An agent that can no longer observe stops by itself after exactly `threshold` cycles. */
  lemma BlindLoopTerminates(cfg: AgentConfig, w: World, symbols: seq<string>, scripts: seq<CycleScript>)
    requires w.dog == Some(FRESH_DOG) && symbols != [] && |scripts| >= cfg.dog.maxConsecutiveFailures
    requires forall s | s in scripts :: s.observe.Raised?
    ensures |RunFrom(cfg, w, symbols, None, 0, scripts).1| == cfg.dog.maxConsecutiveFailures
  {
    BlindRunFails(cfg, w, symbols, None, 0, scripts);
    FailingLoopTerminates(cfg, w, symbols, None, scripts);
  }

  // ---- Fairness ----------------------------------------------------------------------------------

  /** Cycle i is for symbol i mod k, counting from `done`. */
  predicate RoundRobin(cycles: seq<AgentCycle>, symbols: seq<string>, done: nat)
    requires symbols != []
  {
    forall i | 0 <= i < |cycles| :: cycles[i].symbol == symbols[Slot(done + i, |symbols|)]
  }

  lemma RoundRobinStep(cycle: AgentCycle, rest: seq<AgentCycle>, symbols: seq<string>, done: nat)
    requires symbols != [] && cycle.symbol == symbols[Slot(done, |symbols|)] && RoundRobin(rest, symbols, done + 1)
    ensures RoundRobin([cycle] + rest, symbols, done)
  {
  }

  /** Every run serves its symbols in turn. */
  lemma {:induction false} CyclesAreRoundRobin(
    cfg: AgentConfig, w: World, symbols: seq<string>, maxCycles: Option<int>, done: nat, scripts: seq<CycleScript>)
    requires symbols != []
    ensures RoundRobin(RunFrom(cfg, w, symbols, maxCycles, done, scripts).1, symbols, done)
    decreases |scripts|
  {
    if !Stopped(cfg, w, maxCycles, done, scripts) {
      var next, cycle := CycleNamesSymbol(cfg, w, symbols[Slot(done, |symbols|)], scripts[0]);
      CyclesAreRoundRobin(cfg, next, symbols, maxCycles, done + 1, scripts[1..]);
      RoundRobinStep(cycle, RunFrom(cfg, next, symbols, maxCycles, done + 1, scripts[1..]).1, symbols, done);
    }
  }

  lemma CycleNamesSymbol(cfg: AgentConfig, w: World, symbol: string, s: CycleScript)
    returns (next: World, cycle: AgentCycle)
    ensures (next, cycle) == Cycle(cfg, w, symbol, s) && cycle.symbol == symbol
  {
    next, cycle := Cycle(cfg, w, symbol, s).0, Cycle(cfg, w, symbol, s).1;
  }

  /** How many of the first n cycles fall on this slot. */
  function Served(n: nat, count: nat, slot: nat): nat
    requires slot < count
  {
    if n == 0 then 0 else Served(n - 1, count, slot) + (if Slot(n - 1, count) == slot then 1 else 0)
  }

  lemma {:induction false} ServedIs(n: nat, count: nat, slot: nat)
    requires slot < count
    ensures Served(n, count, slot) == n / count + (if slot < n % count then 1 else 0)
  {
    if n > 0 {
      ServedIs(n - 1, count, slot);
      NextQuotient(n - 1, count);
    }
  }

  lemma NextQuotient(n: nat, count: nat)
    requires count > 0
    ensures if n % count == count - 1 then (n + 1) / count == n / count + 1 && (n + 1) % count == 0
            else (n + 1) / count == n / count && (n + 1) % count == n % count + 1
  {
    var q, r := n / count, n % count;
    assert n + 1 == q * count + (r + 1);
    if r == count - 1 {
      assert n + 1 == (q + 1) * count;
      QuotientIs(n + 1, count, q + 1, 0);
    } else {
      QuotientIs(n + 1, count, q, r + 1);
    }
  }

  lemma QuotientIs(n: nat, count: nat, q: nat, r: nat)
    requires r < count && n == q * count + r
    ensures n / count == q && n % count == r
  {
    var q', r' := n / count, n % count;
    assert n == q' * count + r';
    MultipleGap(q, q', count);
    MultipleGap(q', q, count);
  }

  lemma MultipleGap(a: nat, b: nat, c: nat)
    ensures a < b ==> a * c + c <= b * c
  {
    if a < b {
      var m := b - a - 1;
      assert b == a + 1 + m;
      assert b * c == (a + 1 + m) * c == a * c + c + m * c;
    }
  }

  /** How many of the cycles were run for slot `slot` of the symbol list. */
  function ServedIn(cycles: seq<AgentCycle>, symbols: seq<string>, slot: nat): nat
    requires slot < |symbols|
  {
    if cycles == [] then 0 else
      var n := |cycles| - 1;
      ServedIn(cycles[..n], symbols, slot)
      + (if Slot(n, |symbols|) == slot && cycles[n].symbol == symbols[slot] then 1 else 0)
  }

  lemma {:induction false} RoundRobinServes(cycles: seq<AgentCycle>, symbols: seq<string>, slot: nat)
    requires slot < |symbols| && RoundRobin(cycles, symbols, 0)
    ensures ServedIn(cycles, symbols, slot) == Served(|cycles|, |symbols|, slot)
  {
    if cycles != [] {
      var n := |cycles| - 1;
      assert forall i | 0 <= i < n :: cycles[..n][i] == cycles[i];
      RoundRobinServes(cycles[..n], symbols, slot);
      assert cycles[n].symbol == symbols[Slot(0 + n, |symbols|)];
    }
  }

  /** How many of the cycles were run for a symbol. */
  function CyclesFor(cycles: seq<AgentCycle>, symbol: string): nat {
    if cycles == [] then 0 else
      var n := |cycles| - 1;
      CyclesFor(cycles[..n], symbol) + (if cycles[n].symbol == symbol then 1 else 0)
  }

  lemma {:induction false} DistinctSymbolsAreSlots(cycles: seq<AgentCycle>, symbols: seq<string>, slot: nat)
    requires slot < |symbols| && RoundRobin(cycles, symbols, 0)
    requires Distinct(symbols)
    ensures CyclesFor(cycles, symbols[slot]) == ServedIn(cycles, symbols, slot)
  {
    if cycles != [] {
      var n := |cycles| - 1;
      assert forall i | 0 <= i < n :: cycles[..n][i] == cycles[i];
      DistinctSymbolsAreSlots(cycles[..n], symbols, slot);
      assert cycles[n].symbol == symbols[Slot(0 + n, |symbols|)];
    }
  }

  /**
    * In every run two slots of the symbol list are served equally often, give or take one cycle; if no symbol
    * is listed twice, that holds for the symbols themselves.
    */
  lemma RunIsFair(
    cfg: AgentConfig, w: World, symbols: seq<string>, maxCycles: Option<int>, scripts: seq<CycleScript>,
    cycles: seq<AgentCycle>, a: nat, b: nat)
    requires a < |symbols| && b < |symbols| && cycles == RunFrom(cfg, w, symbols, maxCycles, 0, scripts).1
    ensures ServedIn(cycles, symbols, a) <= ServedIn(cycles, symbols, b) + 1
    ensures Distinct(symbols) ==>
      CyclesFor(cycles, symbols[a]) <= CyclesFor(cycles, symbols[b]) + 1
  {
    CyclesAreRoundRobin(cfg, w, symbols, maxCycles, 0, scripts);
    RoundRobinServes(cycles, symbols, a);
    RoundRobinServes(cycles, symbols, b);
    ServedIs(|cycles|, |symbols|, a);
    ServedIs(|cycles|, |symbols|, b);
    if Distinct(symbols) {
      DistinctSymbolsAreSlots(cycles, symbols, a);
      DistinctSymbolsAreSlots(cycles, symbols, b);
    }
  }
}
