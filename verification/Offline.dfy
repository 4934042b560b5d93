/** Offline catch-up: src/offline.ts. */
module Offline {
  import opened Numbers
  import opened Monsters
  import opened Team
  import opened Ticks
  import opened EngineCore
  import opened LedgerLaws

  const TICK_MS := 15000
  const MAX_MS := 24 * 3600 * 1000

  datatype OfflineSummary = OfflineSummary(
    ticks: nat, durationMs: nat, capped: bool, battles: int, caught: int, levels: int, badges: int)

  function CappedMs(elapsedMs: int): nat {
    Min(Max(0, elapsedMs), MAX_MS)
  }

  function OfflineTicks(elapsedMs: int): (n: nat)
    ensures n <= 5760
  {
    CappedMs(elapsedMs) / TICK_MS
  }

  function TeamLevels(team: seq<Mon>): nat {
    if team == [] then 0 else TeamLevels(team[..|team| - 1]) + team[|team| - 1].level
  }

  function Summary(elapsedMs: int, before: TrainerView, after: TrainerView): OfflineSummary {
    OfflineSummary(
      OfflineTicks(elapsedMs), CappedMs(elapsedMs), elapsedMs > MAX_MS,
      after.totalBattles - before.totalBattles, after.totalCaught - before.totalCaught,
      TeamLevels(after.team) - TeamLevels(before.team), |after.badges| - |before.badges|)
  }

  method RunOfflineCatchup(engine: Engine, elapsedMs: int) returns (r: OfflineSummary)
    requires engine.Valid()
    modifies engine, engine.trainer, engine.trainer.Mons(), engine.rng
    ensures engine.Valid()
    ensures engine.View() == RunTicks(engine.Env(), old(engine.View()), OfflineTicks(elapsedMs))
    ensures r == Summary(elapsedMs, old(engine.View()).trainer, engine.View().trainer)
  {
    hide Ticks.Tick, Summary, OfflineTicks, Engine.Env, Engine.View, Trainer.View, Trainer.Valid;
    var ticks := OfflineTicks(elapsedMs);
    var before := engine.View().trainer;
    ghost var env, start, mons := engine.Env(), engine.View(), engine.trainer.Mons();
    for i := 0 to ticks
      invariant engine.Valid()
      invariant fresh(engine.trainer.Mons() - mons)
      invariant engine.View() == RunTicks(env, start, i)
    {
      var result := engine.Tick();
    }
    r := Summary(elapsedMs, before, engine.View().trainer);
  }

  lemma {:induction false} RunsCompose(env: Env, s: Run, a: nat, b: nat)
    ensures RunTicks(env, RunTicks(env, s, a), b) == RunTicks(env, s, a + b)
  {
    hide Ticks.Tick;
    if b > 0 {
      RunsCompose(env, s, a, b - 1);
    }
  }

  /** Two absences in a row run the ticks of both. */
  lemma AbsencesAdd(env: Env, s: Run, a: int, b: int)
    ensures RunTicks(env, RunTicks(env, s, OfflineTicks(a)), OfflineTicks(b))
         == RunTicks(env, s, OfflineTicks(a) + OfflineTicks(b))
  {
    hide Ticks.Tick;
    RunsCompose(env, s, OfflineTicks(a), OfflineTicks(b));
  }

  /**
    * That is as many ticks as one absence of their sum exactly when, below the cap, what is left over of the two does
    * not make up a tick, and beyond it, when they run the whole cap between them.
    */
  lemma AbsencesCompose(a: nat, b: nat)
    ensures OfflineTicks(a) + OfflineTicks(b) == OfflineTicks(a + b)
        <==> if a + b <= MAX_MS then a % TICK_MS + b % TICK_MS < TICK_MS
             else CappedMs(a) - CappedMs(a) % TICK_MS + (CappedMs(b) - CappedMs(b) % TICK_MS) == MAX_MS
  {
  }

  /** The counts of a summary nest: catches within battles within ticks, and never negative. */
  lemma SummaryNests(env: Env, s: Run, elapsedMs: int)
    ensures var r := Summary(elapsedMs, s.trainer, RunTicks(env, s, OfflineTicks(elapsedMs)).trainer);
            0 <= r.caught <= r.battles <= r.ticks && 0 <= r.badges
  {
    hide Ticks.Tick;
    RunBalances(env, s, OfflineTicks(elapsedMs));
  }

  /** One tick for every full 15 seconds away, up to a day. */
  lemma TicksAre(elapsedMs: int)
    ensures var n := OfflineTicks(elapsedMs);
            var ms := if elapsedMs < 0 then 0 else if elapsedMs > 86_400_000 then 86_400_000 else elapsedMs;
            15_000 * n <= ms < 15_000 * (n + 1) && CappedMs(elapsedMs) == ms
  {
  }

  /** A summary counts what its ticks report: the fights, the catches and the gyms won. */
  lemma SummaryCounts(env: Env, s: Run, elapsedMs: int)
    ensures var n := OfflineTicks(elapsedMs);
            var r, t := Summary(elapsedMs, s.trainer, RunTicks(env, s, n).trainer), Total(Results(env, s, n));
            && r.ticks == n && r.battles == t.fights && r.caught == t.catches && r.badges == t.wins
            && (r.capped <==> elapsedMs > 86_400_000) && r.durationMs == CappedMs(elapsedMs)
  {
    hide Ticks.Tick, RunTicks, Results, OfflineTicks;
    RunBalances(env, s, OfflineTicks(elapsedMs));
  }
}
