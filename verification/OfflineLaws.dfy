/** The levels in an offline summary: what they are made of, exactly when they fall, and a tick in which they do. */
module OfflineLaws {
  import opened Numbers
  import opened Wrappers
  import opened Random
  import opened Monsters
  import opened Battle
  import opened Progression
  import opened Team
  import opened Ticks
  import opened RosterLaws
  import opened Offline

  // ---- Sums of levels ------------------------------------------------------------------------

  lemma LevelsAppend(team: seq<Mon>, m: Mon)
    ensures TeamLevels(team + [m]) == TeamLevels(team) + m.level
  {
    assert (team + [m])[..|team|] == team;
  }

  lemma {:induction false} LevelsWithout(team: seq<Mon>, i: nat)
    requires i < |team|
    ensures TeamLevels(Without(team, i)) == TeamLevels(team) - team[i].level
  {
    var last := |team| - 1;
    if i == last {
      assert Without(team, i) == team[..last];
    } else {
      LevelsWithout(team[..last], i);
      assert Without(team, i)[..last - 1] == Without(team[..last], i);
    }
  }

  lemma {:induction false} LevelsUpdate(team: seq<Mon>, i: nat, m: Mon)
    requires i < |team|
    ensures TeamLevels(team[i := m]) == TeamLevels(team) - team[i].level + m.level
  {
    var last := |team| - 1;
    if i == last {
      assert team[i := m][..last] == team[..last];
    } else {
      LevelsUpdate(team[..last], i, m);
      assert team[i := m][..last] == team[..last][i := m];
    }
  }

  lemma {:induction false} LevelsMono(team: seq<Mon>, after: seq<Mon>)
    requires |after| == |team| && forall i | 0 <= i < |team| :: team[i].level <= after[i].level
    ensures TeamLevels(team) <= TeamLevels(after)
  {
    if team != [] {
      LevelsMono(team[..|team| - 1], after[..|team| - 1]);
    }
  }

  /** A placement lowers the party's levels exactly when a party member of a higher level makes room. */
  lemma PlaceLevels(v: TrainerView, wild: Mon)
    ensures var plan := PlanFor(v.team, v.box, wild);
            TeamLevels(Place(v, wild).team) < TeamLevels(v.team)
            <==> plan.Replace? && plan.idx < |v.team| && wild.level < v.team[plan.idx].level
  {
    hide Power, WeakIdx, TeamLevels, Without;
    LevelsAppend(v.team, wild);
    var plan := PlanFor(v.team, v.box, wild);
    if plan.Replace? && plan.idx < |v.team| {
      LevelsWithout(v.team, plan.idx);
      LevelsAppend(Without(v.team, plan.idx), wild);
    }
  }

  // ---- What changes the party's levels -------------------------------------------------------

  /** The levels that XP buys a monster. */
  function GainOf(env: Env, m: Mon, xp: int): int {
    Rewarded(env.tplOf, m, xp).level - m.level
  }

  /** The lead's share of a won encounter. */
  function HuntGain(env: Env, team: seq<Mon>, enc: Encounter): int {
    var lead := FirstAlive(team);
    if enc.won && lead < |team| then GainOf(env, team[lead], enc.xpGained) else 0
  }

  /** The shares of the party that won a gym. */
  function PartyGain(env: Env, party: seq<Mon>, leaders: nat): int {
    if party == [] then 0
    else
      var m := party[|party| - 1];
      PartyGain(env, party[..|party| - 1], leaders) + GainOf(env, m, GymXpReward(m.level, leaders, env.XpBuff()))
  }

  /** The levels that the XP of a tick buys the party. */
  function Gained(env: Env, s: Run): int {
    var r, found := Tick(env, s).result, TownById(env.world.towns, s.trainer.location);
    if r.encounter.Some? then HuntGain(env, s.trainer.team, r.encounter.value)
    else if r.action == Challenge(true) && found.Some? && found.value.gym.Some? then
      PartyGain(env, Select(s.trainer.team, PartyIdx(s.trainer.team)), |found.value.gym.value.team|)
    else 0
  }

  /** A newcomer that joins the party brings its levels, and takes those of the member let go for it. */
  function TradeOf(caught: Option<Mon>, team: seq<Mon>, released: Option<Mon>): int {
    if caught.Some? && caught.value in team
    then caught.value.level - (if released.Some? then released.value.level else 0)
    else 0
  }

  function Traded(t: Ticked): int {
    TradeOf(Caught(t.result), t.run.trainer.team, t.released)
  }

  // ---- Levels and XP -------------------------------------------------------------------------

  lemma {:induction false} LevelUpsRaise(m: Mon, t: Template)
    ensures LevelUps(m, t).mon.level >= m.level
    decreases MAX_LEVEL - m.level
  {
    hide StatsAtLevel, GetXpForLevel, NextStage;
    if CanLevel(m) {
      LevelUpsRaise(Raised(m, t), t);
    }
  }

  lemma GainNotNegative(env: Env, m: Mon, xp: int)
    ensures GainOf(env, m, xp) >= 0
  {
    hide LevelUps;
    if env.tplOf(m.templateId).Some? {
      LevelUpsRaise(m.(xp := m.xp + xp), env.tplOf(m.templateId).value);
    }
  }

  /** Only level and XP decide what level is reached. */
  lemma {:induction false} SameLevelUps(m: Mon, n: Mon, t: Template)
    requires m.level == n.level && m.xp == n.xp
    ensures LevelUps(m, t).mon.level == LevelUps(n, t).mon.level
    decreases MAX_LEVEL - m.level
  {
    hide StatsAtLevel, GetXpForLevel, NextStage;
    if CanLevel(m) {
      SameLevelUps(Raised(m, t), Raised(n, t), t);
    }
  }

  lemma SameGain(env: Env, m: Mon, n: Mon, xp: int)
    requires m.level == n.level && m.xp == n.xp && m.templateId == n.templateId
    ensures GainOf(env, m, xp) == GainOf(env, n, xp)
  {
    hide LevelUps;
    if env.tplOf(m.templateId).Some? {
      SameLevelUps(m.(xp := m.xp + xp), n.(xp := n.xp + xp), env.tplOf(m.templateId).value);
    }
  }

  // ---- One tick ------------------------------------------------------------------------------

  ghost predicate Leveled(v: TrainerView, after: TrainerView, change: int) {
    TeamLevels(after.team) == TeamLevels(v.team) + change
  }

  /** A newcomer of a species that the team lacks is in the team afterwards exactly when it was placed there. */
  lemma PlaceTrades(v: TrainerView, wild: Mon)
    requires wild !in v.team
    ensures Leveled(v, Place(v, wild), TradeOf(Some(wild), Place(v, wild).team, LetGo(v, wild)))
  {
    hide Power, WeakIdx, TeamLevels, Without;
    LevelsAppend(v.team, wild);
    var plan := PlanFor(v.team, v.box, wild);
    assert wild in v.team + [wild];
    if plan.Replace? && plan.idx < |v.team| {
      LevelsWithout(v.team, plan.idx);
      LevelsAppend(Without(v.team, plan.idx), wild);
      assert wild in Without(v.team, plan.idx) + [wild];
    }
  }

  lemma NotOnTeam(v: TrainerView, wild: Mon)
    requires ShouldCatch(v, wild)
    ensures wild !in v.team
  {
    hide Power;
  }

  /** What a hunt reports as caught. */
  function Bagged(enc: Encounter): Option<Mon> {
    if enc.caught then enc.wild else None
  }

  ghost predicate HuntLeveled(env: Env, v: TrainerView, h: Hunted) {
    Leveled(v, h.run.trainer,
            HuntGain(env, v.team, h.enc) + TradeOf(Bagged(h.enc), h.run.trainer.team, h.released))
  }

  lemma WinLevels(env: Env, s: Run, lead: nat, wild: Mon)
    requires lead < |s.trainer.team|
    ensures var h := Win(env, s, lead, wild);
            && h.enc.won
            && Leveled(s.trainer, h.run.trainer,
                       GainOf(env, s.trainer.team[lead], h.enc.xpGained)
                       + TradeOf(Bagged(h.enc), h.run.trainer.team, h.released))
  {
    var m := s.trainer.team[lead];
    var fond := m.(affection := AffectionAfterWin(m, wild.level));
    var xp := WildXpReward(m.level, wild.level, env.XpBuff());
    var t := SetMember(s, lead, Rewarded(env.tplOf, fond, xp));
    SameGain(env, m, fond, xp);
    LevelsUpdate(s.trainer.team, lead, Rewarded(env.tplOf, fond, xp));
    hide Rewarded, ShouldCatch, AffectionAfterWin, CatchRate, WildXpReward, Place, LetGo, TeamLevels, TradeOf;
    if ShouldCatch(t.trainer, wild) {
      var v := t.trainer.(balls := t.trainer.balls - 1);
      NotOnTeam(t.trainer, wild);
      PlaceTrades(v, wild);
    }
    assert forall team, released :: TradeOf(None, team, released) == 0;
  }

  lemma FightLevels(env: Env, s: Run, lead: nat, wild: Mon)
    requires lead == FirstAlive(s.trainer.team) < |s.trainer.team|
    ensures HuntLeveled(env, s.trainer, Fight(env, s, lead, wild))
    ensures Fight(env, s, lead, wild).enc.wild == Some(wild)
  {
    hide AutoFight, Win, TeamLevels, GainOf;
    var m := s.trainer.team[lead];
    var fight := AutoFight(env.rules, m, wild, s.rng);
    var beaten := m.(currentHP := fight.value.hpRemaining);
    LevelsUpdate(s.trainer.team, lead, beaten);
    var hurt := SetMember(s, lead, beaten);
    var t := hurt.(agent := Battling, rng := fight.next,
                   trainer := hurt.trainer.(totalBattles := s.trainer.totalBattles + 1));
    if fight.value.won {
      WinLevels(env, t, lead, wild);
      SameGain(env, m, beaten, Win(env, t, lead, wild).enc.xpGained);
    }
    FightAccounted(env, s, lead, wild);
  }

  lemma HealLevels(v: TrainerView)
    ensures Leveled(v, v.(team := HealAll(v.team)), 0)
  {
    LevelsMono(v.team, HealAll(v.team));
    LevelsMono(HealAll(v.team), v.team);
    hide TeamLevels;
  }

  lemma HuntLevels(env: Env, s: Run, town: Town, forced: bool)
    ensures HuntLeveled(env, s.trainer, DoWildEncounter(env, s, town, forced))
  {
    hide Fight, GenerateWild, Stir, TeamLevels, HealAll, GainOf;
    var lead := FirstAlive(s.trainer.team);
    forall r: Run, wild: Mon | r.trainer == s.trainer && lead < |s.trainer.team|
      ensures HuntLeveled(env, s.trainer, Fight(env, r, lead, wild))
    {
      FightLevels(env, r, lead, wild);
    }
    HealLevels(s.trainer);
    hide FirstAlive;
  }

  lemma GymLevels(env: Env, s: Run, gym: Gym)
    ensures var (after, won) := DoGymChallenge(env, s, gym);
            Leveled(s.trainer, after.trainer,
                    if won then PartyGain(env, Select(s.trainer.team, PartyIdx(s.trainer.team)), |gym.team|) else 0)
  {
    hide Gauntlet.Outcome, PartyIdx, Rewarded, GymXpReward, TeamLevels;
    var team, idx, g := s.trainer.team, PartyIdx(s.trainer.team), GymFight(env, s, gym);
    var end := g.Outcome(s.rng);
    var won := end.gymIdx == |gym.team|;
    PutLevels(env, team, idx, end.hp, won, |gym.team|);
  }

  /** Level by level, what the fighters gained. */
  lemma {:induction false} PutLevels(env: Env, team: seq<Mon>, idx: seq<nat>, hp: seq<int>, won: bool, leaders: nat)
    requires Increasing(idx, |team|) && |hp| == |idx|
    ensures var party := Select(team, idx);
            TeamLevels(Put(team, idx, Aftermath(env, party, hp, won, leaders)))
            == TeamLevels(team) + (if won then PartyGain(env, party, leaders) else 0)
    decreases |idx|
  {
    hide Rewarded, GymXpReward, TeamLevels;
    if idx != [] {
      var last := |idx| - 1;
      PutLevels(env, team, idx[..last], hp[..last], won, leaders);
      var party := Select(team, idx);
      assert Select(team, idx[..last]) == party[..last];
      assert Aftermath(env, party, hp, won, leaders)[..last] == Aftermath(env, party[..last], hp[..last], won, leaders);
      var front := Put(team, idx[..last], Aftermath(env, party[..last], hp[..last], won, leaders));
      assert idx[last] !in idx[..last];
      var m := party[last];
      LevelsUpdate(front, idx[last], AfterGym(env, m, hp[last], won, leaders));
      SameGain(env, m, m.(currentHP := Max(0, hp[last])), GymXpReward(m.level, leaders, env.XpBuff()));
    }
  }

  /** The party's levels after a tick: those before, those gained, and those traded for a newcomer. */
  lemma TickLevels(env: Env, s: Run)
    ensures Leveled(s.trainer, Tick(env, s).run.trainer, Gained(env, s) + Traded(Tick(env, s)))
  {
    hide DoWildEncounter, DoGymChallenge, HealAll, Eligible, NextStop, NeedsHeal, TeamLevels, HuntGain, PartyGain;
    var v := s.trainer;
    HealLevels(v);
    var found := TownById(env.world.towns, v.location);
    if found.Some? && !NeedsHeal(v) {
      var town := found.value;
      var (go, cooldown) := if v.strategy.autoGym then ShouldChallengeGym(env, s, town) else (false, s.cooldown);
      var s' := s.(cooldown := cooldown);
      if go {
        GymLevels(env, s', town.gym.value);
      } else if NextStop(env, v, town).None? {
        HuntLevels(env, s', town, false);
      }
    }
  }

  /** So a tick costs the party levels exactly when it releases a member of more levels than came in and were gained. */
  lemma TickLosesLevels(env: Env, s: Run)
    ensures var t := Tick(env, s);
            TeamLevels(t.run.trainer.team) < TeamLevels(s.trainer.team)
            <==> && t.released.Some? && Caught(t.result).Some? && Caught(t.result).value in t.run.trainer.team
                 && Caught(t.result).value.level + Gained(env, s) < t.released.value.level
  {
    hide Tick, TeamLevels, Gained, Caught;
    TickLevels(env, s);
    GainedNotNegative(env, s);
  }

  lemma {:induction false} PartyGainNotNegative(env: Env, party: seq<Mon>, leaders: nat)
    ensures PartyGain(env, party, leaders) >= 0
  {
    hide GainOf, GymXpReward;
    if party != [] {
      var m := party[|party| - 1];
      PartyGainNotNegative(env, party[..|party| - 1], leaders);
      GainNotNegative(env, m, GymXpReward(m.level, leaders, env.XpBuff()));
    }
  }

  lemma GainedNotNegative(env: Env, s: Run)
    ensures Gained(env, s) >= 0
  {
    hide Tick, PartyGain, GainOf, PartyIdx;
    var r, team, found := Tick(env, s).result, s.trainer.team, TownById(env.world.towns, s.trainer.location);
    if r.encounter.Some? {
      if FirstAlive(team) < |team| {
        GainNotNegative(env, team[FirstAlive(team)], r.encounter.value.xpGained);
      }
    } else if found.Some? && found.value.gym.Some? {
      PartyGainNotNegative(env, Select(team, PartyIdx(team)), |found.value.gym.value.team|);
    }
  }

  // ---- A whole absence -----------------------------------------------------------------------

  /** What `n` ticks gained the party, and what they traded. */
  function GainedIn(env: Env, s: Run, n: nat): int {
    if n == 0 then 0 else GainedIn(env, s, n - 1) + Gained(env, RunTicks(env, s, n - 1))
  }

  function TradedIn(env: Env, s: Run, n: nat): int {
    if n == 0 then 0 else TradedIn(env, s, n - 1) + Traded(Tick(env, RunTicks(env, s, n - 1)))
  }

  lemma {:induction false} RunLevels(env: Env, s: Run, n: nat)
    ensures Leveled(s.trainer, RunTicks(env, s, n).trainer, GainedIn(env, s, n) + TradedIn(env, s, n))
    ensures GainedIn(env, s, n) >= 0
  {
    hide Tick, TeamLevels, Gained, Traded;
    if n > 0 {
      RunLevels(env, s, n - 1);
      TickLevels(env, RunTicks(env, s, n - 1));
      GainedNotNegative(env, RunTicks(env, s, n - 1));
    }
  }

  /** The levels of a summary, and exactly when they are fewer: when the trades cost more than the XP brought. */
  lemma SummaryLevels(env: Env, s: Run, elapsedMs: int)
    ensures var n := OfflineTicks(elapsedMs);
            var levels := Summary(elapsedMs, s.trainer, RunTicks(env, s, n).trainer).levels;
            && levels == GainedIn(env, s, n) + TradedIn(env, s, n)
            && (levels < 0 <==> -TradedIn(env, s, n) > GainedIn(env, s, n) >= 0)
  {
    hide RunTicks, TeamLevels, OfflineTicks, GainedIn, TradedIn;
    RunLevels(env, s, OfflineTicks(elapsedMs));
  }

  /** In particular, an absence in which no tick trades down never shows fewer. */
  lemma {:induction false} LevelsNeverFall(env: Env, s: Run, n: nat)
    requires forall i | 0 <= i < n :: Traded(Tick(env, RunTicks(env, s, i))) + Gained(env, RunTicks(env, s, i)) >= 0
    ensures TeamLevels(s.trainer.team) <= TeamLevels(RunTicks(env, s, n).trainer.team)
  {
    hide Tick, Traded, Gained, TeamLevels;
    if n > 0 {
      LevelsNeverFall(env, s, n - 1);
      TickLevels(env, RunTicks(env, s, n - 1));
    }
  }

  // ---- An absence that loses levels ----------------------------------------------------------

  /** One HP and a great attack. */
  function Glass(): Template {
    Template(99, Fire, Stats(1, 2000, 0, 0), None, None, 0, 0, None)
  }

  function OnlyGlass(id: int): Option<Template> {
    if id == 99 then Some(Glass()) else None
  }

  function Meadow(): Env {
    Env(World([Town("meadow", None, ["grass"], "", "")], [Route("grass", (1, 1), [99], [], 1.0)]),
        OnlyGlass, Rules(Lowest, Even), Buffs(1.0, 1.0), 1.0)
  }

  function Veteran(id: int): Mon {
    Mon(id, Water, 60, 0, 0, Stats(10, 10, 10, 100), 10, 0, 0, None, 0.0, None)
  }

  function Veterans(): TrainerView {
    TrainerView([Veteran(1), Veteran(2), Veteran(3), Veteran(4)],
                [Veteran(5), Veteran(6), Veteran(7), Veteran(8), Veteran(9), Veteran(10)],
                [], "meadow", 1, 0, 0, Strategy(true, true, true, true, true, map[]))
  }

  function Away(): Run {
    Run(Veterans(), 0, 0, Idle)
  }

  function Found(): Mon {
    WildOf(Glass(), 1)
  }

  lemma GlassIsFound(r: Word)
    ensures Found().templateId == 99 && Found().element == Fire && Found().level == 1 && Found().rarity == Some(Common)
    ensures Found().stats == Stats(1, 2000, 0, 0) && Found().currentHP == 1
    ensures GenerateWild(Meadow(), Grass(), r).value == Some(Found())
  {
    assert StatsAtLevel(Glass(), 1) == Stats(1, 2000, 0, 0);
    hide StatsAtLevel;
    assert IndexBelow(0.0, 1) == 0;
  }

  lemma VeteranWins(s: Word)
    ensures AutoFight(Meadow().rules, Veteran(1), Found(), s).value == AutoResult(true, 10, 1)
  {
    GlassIsFound(s);
    hide DamageFrom, GenerateWild, Found;
    var rules, me, foe := Meadow().rules, Veteran(1), Found();
    var d := Duel(10, 1, s);
    var e := Exchange(rules, me, foe, d);
    assert e.theirs <= 0 && e.mine == 10;
    assert AutoRounds(rules, me, foe, d, 0) == AutoRounds(rules, me, foe, e, 1) == (e, 1);
  }

  /** The veterans after the fight: the first one fonder, and everyone's species, type, level and power as before. */
  ghost predicate StillVeterans(v: TrainerView) {
    && |v.team| == 4 && |v.box| == 6 && v.balls == 1 && v.strategy == Veterans().strategy
    && (forall m | m in v.team || m in v.box ::
          && m.templateId != 99 && m.element == Water && m.level == 60
          && m.stats == Stats(10, 10, 10, 100) && m.rarity == None)
  }

  lemma GlassReplaces(v: TrainerView)
    requires StillVeterans(v)
    ensures ShouldCatch(v, Found())
    ensures PlanFor(v.team, v.box, Found()) == Replace(0)
  {
    var all := v.All();
    AllEven(v);
    GlassIsFound(0);
    assert Power(Found()) == 2004;
    NoneBurn(v.team, Fire);
    assert forall m | m in v.team || m in v.box :: m.templateId != 99;
    hide GenerateWild, Found, WeakIdx, Power, CountType, StillVeterans;
    assert Power(all[0]) == 310 && Power(all[WeakIdx(all)]) == 310;
  }

  lemma AllEven(v: TrainerView)
    requires StillVeterans(v)
    ensures |v.All()| == 10 && forall i | 0 <= i < 10 :: Power(v.All()[i]) == 310
    ensures v.balls == 1 && v.strategy == Strategy(true, true, true, true, true, map[]) && |v.team| == 4 && |v.box| == 6
    ensures forall m | m in v.team :: m.element != Fire
  {
    var all := v.All();
    forall i | 0 <= i < 10 ensures Power(all[i]) == 310 {
      assert all[i] in v.team || all[i] in v.box;
    }
  }

  lemma {:induction false} NoneBurn(team: seq<Mon>, e: Element)
    requires forall m | m in team :: m.element != e
    ensures CountType(team, e) == 0
  {
    if team != [] {
      NoneBurn(team[1..], e);
    }
  }

  lemma WinTrades(s: Run)
    requires StillVeterans(s.trainer) && s.trainer.team[0].templateId == 1
    ensures TeamLevels(Win(Meadow(), s, 0, Found()).run.trainer.team) == TeamLevels(s.trainer.team) - 59
  {
    GlassIsFound(0);
    MeadowIs();
    hide ShouldCatch, AffectionAfterWin, WildXpReward, PlanFor, GenerateWild, Found, TeamLevels, Meadow, StillVeterans;
    var m := s.trainer.team[0];
    var fond := m.(affection := AffectionAfterWin(m, 1));
    var t := SetMember(s, 0, fond);
    assert Rewarded(Meadow().tplOf, fond, WildXpReward(m.level, 1, Meadow().XpBuff())) == fond;
    FondStays(s.trainer, fond.affection);
    GlassReplaces(t.trainer);
    assert ShouldCatch(t.trainer, Found());
    ThrowTrades(t, WildXpReward(m.level, 1, Meadow().XpBuff()));
    LevelsMono(s.trainer.team, t.trainer.team);
    LevelsMono(t.trainer.team, s.trainer.team);
  }

  lemma FondStays(v: TrainerView, a: real)
    requires StillVeterans(v)
    ensures StillVeterans(v.(team := v.team[0 := v.team[0].(affection := a)]))
  {
    assert v.team[0] in v.team;
    assert forall x | x in v.team[0 := v.team[0].(affection := a)] :: x == v.team[0].(affection := a) || x in v.team;
  }

  lemma ThrowTrades(t: Run, xp: int)
    requires StillVeterans(t.trainer)
    ensures TeamLevels(Throw(Meadow(), t, Found(), xp).run.trainer.team) == TeamLevels(t.trainer.team) - 59
  {
    GlassIsFound(0);
    MeadowIs();
    GlassReplaces(t.trainer);
    assert t.trainer.team[0] in t.trainer.team;
    hide PlanFor, GenerateWild, Found, TeamLevels, Meadow;
    LevelsWithout(t.trainer.team, 0);
    LevelsAppend(Without(t.trainer.team, 0), Found());
  }

  lemma MeadowIs()
    ensures Meadow().tplOf(1) == None && Meadow().rules.mix == Lowest
  {
  }

  /** One tick away: an encounter, a win, a catch, and 59 levels fewer than before. */
  lemma LevelsCanFall()
    ensures Summary(TICK_MS, Veterans(), RunTicks(Meadow(), Away(), OfflineTicks(TICK_MS)).trainer).levels == -59
  {
    assert OfflineTicks(TICK_MS) == 1;
    assert RunTicks(Meadow(), Away(), 1) == Tick(Meadow(), RunTicks(Meadow(), Away(), 0)).run;
    AwayHunts();
    hide Tick, Meadow, Veterans;
    hide TeamLevels;
  }

  function Grass(): Route {
    Meadow().world.routes[0]
  }

  lemma GrassStirs(r: Word)
    ensures Stir(Meadow(), Grass(), false, r).value
    ensures RouteById(Meadow().world.routes, "grass") == Some(Grass())
    ensures Meadow().world.towns[0].routes == ["grass"]
  {
  }

  /** Where the generator stands when the wild comes out. */
  function Emerged(): Word {
    GenerateWild(Meadow(), Grass(), Stir(Meadow(), Grass(), false, 0).next).next
  }

  /** The grass stirs, and the one species of the route comes out. */
  lemma MeadowMeets()
    ensures DoWildEncounter(Meadow(), Away(), Meadow().world.towns[0], false)
         == Meet(Meadow(), Away().(agent := Hunting, rng := Emerged()), Found())
  {
    GrassStirs(0);
    GlassIsFound(Stir(Meadow(), Grass(), false, 0).next);
    hide GenerateWild, Found, Meet, Stir, RouteById, Meadow, Veterans;
  }

  /** The first veteran fights, and wins unhurt. */
  lemma MeetingTrades(r: Word)
    ensures TeamLevels(Meet(Meadow(), Away().(agent := Hunting, rng := r), Found()).run.trainer.team)
         == TeamLevels(Veterans().team) - 59
  {
    GlassIsFound(0);
    assert FirstAlive(Veterans().team) == 0;
    VeteranWins(r);
    VeteransAre();
    hide GenerateWild, Found, Win, TeamLevels, AutoFight, FirstAlive, Meadow, StillVeterans;
    var t := Away().(agent := Hunting, rng := r);
    var fight := AutoFight(Meadow().rules, Veteran(1), Found(), r);
    var after := t.(agent := Battling, rng := fight.next, trainer := Veterans().(totalBattles := 1));
    assert Veterans().team[0 := Veteran(1).(currentHP := 10)] == Veterans().team;
    assert Fight(Meadow(), t, 0, Found()) == Win(Meadow(), after, 0, Found());
    WinTrades(after);
  }

  lemma VeteransAre()
    ensures StillVeterans(Veterans().(totalBattles := 1)) && Veterans().team[0] == Veteran(1)
  {
  }

  lemma AwayHunts()
    ensures TeamLevels(Tick(Meadow(), Away()).run.trainer.team) == TeamLevels(Veterans().team) - 59
  {
    var town := Meadow().world.towns[0];
    assert Veterans().team[0] in Veterans().team;
    assert TownById(Meadow().world.towns, "meadow") == Some(town);
    MeadowMeets();
    hide DoWildEncounter, TeamLevels, Meet, Found, TownById, Emerged;
    MeetingTrades(Emerged());
    assert Tick(Meadow(), Away()).run == DoWildEncounter(Meadow(), Away(), town, false).run;
  }
}
