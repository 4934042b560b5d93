/** What comes out of the grass, when it is fought, when it is caught, and what winning does to the lead. */
module EncounterLaws {
  import opened Numbers
  import opened Wrappers
  import opened Random
  import opened Monsters
  import opened Battle
  import opened Progression
  import opened ProgressionLaws
  import opened Team
  import opened Ticks

  // ---- The wild ------------------------------------------------------------------------------

  /** A fresh monster of species `t`. */
  ghost predicate FreshOf(t: Template, level: nat, m: Mon) {
    && m.templateId == t.id && m.element == t.element && m.level == level && m.ev1 == t.ev1 && m.ev2 == t.ev2
    && StatsOnLine(t, level, m.stats) && m.currentHP == m.stats.hp
    && m.xp == 0 && m.affection == 0.0 && m.moves == None
    && m.stage == (if 0 < t.ev2 <= level then 2 else if 0 < t.ev1 <= level then 1 else 0)
  }

  lemma CreatedIsFresh(t: Template, level: nat)
    ensures FreshOf(t, level, CreateMonster(t, level)) && CreateMonster(t, level).rarity == t.rarity
  {
    StatsAreOnLine(t, level);
    hide StatsAtLevel, StatsOnLine;
  }

  /** A common wild is of the route's pool and band; a rare one of the rare pool, three to seven levels above. */
  ghost predicate FromRoute(env: Env, route: Route, w: Mon, id: int, rare: bool) {
    && env.tplOf(id).Some?
    && FreshOf(env.tplOf(id).value, w.level, w)
    && w.rarity == (if env.tplOf(id).value.rarity.None? then Some(Common) else env.tplOf(id).value.rarity)
    && (if rare then id in route.rarePool && route.levelRange.1 + 3 <= w.level <= route.levelRange.1 + 7
        else id in route.wildPool && (route.levelRange.0 <= w.level <= route.levelRange.1
                                      || route.levelRange.1 <= w.level <= route.levelRange.0))
  }

  lemma WildIsFromRoute(env: Env, route: Route, s: Word) returns (id: int, rare: bool)
    ensures var w := GenerateWild(env, route, s).value; w.Some? ==> FromRoute(env, route, w.value, id, rare)
  {
    var species := RollSpecies(env, route, s);
    id, rare := if species.value.0.Some? then species.value.0.value else 0, species.value.1;
    PoolsAreDrawn(env, route, s);
    if species.value.0.Some? && env.tplOf(id).Some? {
      LevelInBand(env, route, rare, species.next);
      CreatedIsFresh(env.tplOf(id).value, RollLevel(env, route, rare, species.next).value);
    }
    hide RollSpecies, RollLevel, CreateMonster, StatsOnLine;
  }

  lemma LevelInBand(env: Env, route: Route, rare: bool, s: Word)
    ensures var level := RollLevel(env, route, rare, s).value;
            if rare then route.levelRange.1 + 3 <= level <= route.levelRange.1 + 7
            else route.levelRange.0 <= level <= route.levelRange.1 || route.levelRange.1 <= level <= route.levelRange.0
  {
  }

  /** The odds of the rare pool: 8 in 1000 where its first species is legendary, else 2 in 100, times the buff. */
  function RareOdds(env: Env, route: Route): real {
    if route.rarePool == [] then 0.0
    else
      var first := env.tplOf(route.rarePool[0]);
      if first.Some? && first.value.rarity == Some(Legendary) then 0.008 * env.buffs.legend else 0.02 * env.buffs.rare
  }

  lemma PoolsAreDrawn(env: Env, route: Route, s: Word)
    ensures var (id, rare) := RollSpecies(env, route, s).value;
            && (id.Some? ==> id.value in if rare then route.rarePool else route.wildPool)
            && (rare <==> RareOdds(env, route) >= 1.0
                          || (RareOdds(env, route) > 0.0 && env.rules.mix(Advance(s)) < RareOdds(env, route)))
  {
  }

  /** The draws of a wild, one after the other: the pool if its odds are open, the species, and the level. */
  lemma WildDraws(env: Env, route: Route, s: Word)
    ensures var odds, species := RareOdds(env, route), RollSpecies(env, route, s);
            var s1 := if 0.0 < odds < 1.0 then Advance(s) else s;
            var pool := if species.value.1 then route.rarePool else route.wildPool;
            var level := RollLevel(env, route, species.value.1, Advance(s1));
            var wild := GenerateWild(env, route, s);
            && species.next == Advance(s1) && species.value.0 == RollPick(env.rules.mix, s1, pool).value
            && level.next == Advance(Advance(s1))
            && (if species.value.1
                then level.value == route.levelRange.1 + 3 + RollInt(env.rules.mix, Advance(s1), 0, 4).value
                else level.value == RollInt(env.rules.mix, Advance(s1), route.levelRange.0, route.levelRange.1).value)
            && wild.next == (if wild.value.Some? then level.next else species.next)
            && (wild.value.Some? ==> wild.value.value.level == level.value)
  {
    PoolsAreDrawn(env, route, s);
    hide IndexBelow, StatsAtLevel;
  }

  // ---- The throw -----------------------------------------------------------------------------

  /** 40, 8 or 1.5 percent by rarity, less half a percent per level, and at least half a percent. */
  lemma CatchRateIs(wild: Mon)
    ensures var rate, penalty := CatchRate(wild), wild.level as real / 200.0;
            && (wild.rarity == Some(Rare) ==> rate == if wild.level <= 15 then 0.08 - penalty else 0.005)
            && (wild.rarity == Some(Legendary) ==> rate == if wild.level <= 2 then 0.015 - penalty else 0.005)
            && (wild.rarity == None || wild.rarity == Some(Common) ==>
                  rate == if wild.level <= 79 then 0.4 - penalty else 0.005)
  {
  }

  /** The throw catches exactly when the next draw is below the rate. */
  lemma ThrowCatches(env: Env, s: Run, wild: Mon, xp: int)
    ensures Throw(env, s, wild, xp).enc.caught <==> env.rules.mix(Advance(s.rng)) < CatchRate(wild)
  {
  }

  // ---- The decision to catch -----------------------------------------------------------------

  predicate OnRoster(v: TrainerView, id: int) {
    exists i | 0 <= i < |v.All()| :: v.All()[i].templateId == id
  }

  /** No two members of the type. */
  predicate AtMostOne(team: seq<Mon>, e: Element) {
    forall i, j | 0 <= i < j < |team| :: team[i].element != e || team[j].element != e
  }

  lemma {:induction false} CountsNone(team: seq<Mon>, e: Element)
    ensures CountType(team, e) == 0 <==> forall i | 0 <= i < |team| :: team[i].element != e
  {
    if team != [] {
      CountsNone(team[1..], e);
      assert forall i | 1 <= i < |team| :: team[i] == team[1..][i - 1];
    }
  }

  lemma {:induction false} CountsOne(team: seq<Mon>, e: Element)
    ensures CountType(team, e) <= 1 <==> AtMostOne(team, e)
  {
    if team != [] {
      CountsOne(team[1..], e);
      CountsNone(team[1..], e);
      assert forall i | 1 <= i < |team| :: team[i] == team[1..][i - 1];
    }
  }

  /**
    * A wild is worth a throw exactly when catching is on, a ball is left, its species is new, it is a prized rarity or
    * of an allowed type of which the party has at most one, and there is room or a weaker member.
    */
  lemma CatchIsWorth(v: TrainerView, wild: Mon)
    ensures ShouldCatch(v, wild) <==>
              && v.strategy.catchEnabled && v.balls >= 1 && !OnRoster(v, wild.templateId)
              && ((wild.rarity in {Some(Rare), Some(Legendary)} && v.strategy.prioritizeRare)
                  || ((wild.element in v.strategy.catchTypes ==> v.strategy.catchTypes[wild.element])
                      && AtMostOne(v.team, wild.element)))
              && (|v.team| + |v.box| <= 9 || exists i | 0 <= i < |v.All()| :: Power(v.All()[i]) < Power(wild))
  {
    hide Power, CountType;
    CountsOne(v.team, wild.element);
    var all := v.All();
    RosterHas(v, wild.templateId);
    hide HasSpecies, OnRoster, AtMostOne;
  }

  lemma RosterHas(v: TrainerView, id: int)
    ensures OnRoster(v, id) <==> HasSpecies(v.team, id) || HasSpecies(v.box, id)
  {
    var all := v.All();
    if HasSpecies(v.team, id) {
      var i :| 0 <= i < |v.team| && v.team[i].templateId == id;
      assert all[i] == v.team[i];
    }
    if HasSpecies(v.box, id) {
      var i :| 0 <= i < |v.box| && v.box[i].templateId == id;
      assert all[|v.team| + i] == v.box[i];
    }
    if OnRoster(v, id) {
      var i :| 0 <= i < |all| && all[i].templateId == id;
      assert all[i] in v.team || all[i] in v.box;
    }
  }

  // ---- The meeting ---------------------------------------------------------------------------

  /** The grass stirs when the draw is at most four times the route's rate; a forced encounter draws nothing. */
  lemma GrassStirs(env: Env, route: Route, forced: bool, s: Word)
    ensures var stir := Stir(env, route, forced, s);
            if forced then stir == Draw(true, s)
            else stir.next == Advance(s) && (stir.value <==> env.rules.mix(Advance(s)) <= 4.0 * route.encounterRate)
  {
  }

  /** The first who stands meets the wild: nobody means healing, three levels above it means leaving it. */
  lemma MeetingIs(env: Env, s: Run, wild: Mon, lead: nat)
    requires lead <= |s.trainer.team| && (lead < |s.trainer.team| ==> s.trainer.team[lead].currentHP > 0)
    requires forall i | 0 <= i < lead :: s.trainer.team[i].currentHP <= 0
    ensures var h := Meet(env, s, wild);
            if lead == |s.trainer.team| then !h.enc.encountered && h.run == HealTeam(s)
            else if wild.level >= s.trainer.team[lead].level + 3
            then h.run.trainer == s.trainer && h.enc.log == [TooStrong]
            else h == Fight(env, s, lead, wild)
  {
    FirstStands(s.trainer.team, lead);
    hide Fight, FirstAlive;
  }

  lemma {:induction false} FirstStands(team: seq<Mon>, lead: nat)
    requires lead <= |team| && (lead < |team| ==> team[lead].currentHP > 0)
    requires forall i | 0 <= i < lead :: team[i].currentHP <= 0
    ensures FirstAlive(team) == lead
  {
    if lead > 0 {
      FirstStands(team[1..], lead - 1);
    }
  }

  // ---- Affection -----------------------------------------------------------------------------

  /** Half the ratio of the levels, between a tenth and two, and never beyond a hundred. */
  lemma AffectionGained(m: Mon, foeLevel: nat) returns (gain: real)
    ensures 0.1 <= gain <= 2.0
    ensures AffectionAfterWin(m, foeLevel) == if m.affection + gain <= 100.0 then m.affection + gain else 100.0
    ensures var half, own := foeLevel as real / 2.0, Max(1, m.level) as real;
            && (gain > 0.1 ==> gain * own <= half)
            && (gain < 2.0 ==> gain * own >= half)
  {
    var own := Max(1, m.level) as real;
    var raw := 0.5 * (foeLevel as real / own);
    gain := if raw < 0.1 then 0.1 else if raw > 2.0 then 2.0 else raw;
    assert raw * own == foeLevel as real / 2.0 by {
      assert (foeLevel as real / own) * own == foeLevel as real;
    }
    ScaleOrder(gain, raw, own);
  }

  lemma ScaleOrder(a: real, b: real, k: real)
    requires k > 0.0
    ensures a <= b ==> a * k <= b * k
    ensures a >= b ==> a * k >= b * k
  {
    assert a <= b ==> (b - a) * k >= 0.0;
    assert a >= b ==> (a - b) * k >= 0.0;
  }

  // ---- The fight -----------------------------------------------------------------------------

  /** What beating a wild makes of the lead, at the HP that the fight left it. */
  ghost predicate Rewards(env: Env, m: Mon, hp: int, wild: Mon, xp: int, grown: Mon) {
    && xp == WildXpReward(m.level, wild.level, if env.xpBuff == 0.0 then 1.0 else env.xpBuff)
    && (var fond := m.(currentHP := hp, affection := AffectionAfterWin(m, wild.level));
        match env.tplOf(m.templateId)
        case None => grown == fond
        case Some(t) => grown == Grant(fond, xp, t).mon)
  }

  /** A lost fight leaves the lead with the HP that the automatic fight reports, and everything else as it was. */
  lemma LostFightIs(env: Env, s: Run, lead: nat, wild: Mon)
    requires lead < |s.trainer.team| && !AutoFight(env.rules, s.trainer.team[lead], wild, s.rng).value.won
    ensures var v, h := s.trainer, Fight(env, s, lead, wild);
            var hp := AutoFight(env.rules, v.team[lead], wild, s.rng).value.hpRemaining;
            && h.run.trainer == v.(team := v.team[lead := v.team[lead].(currentHP := hp)],
                                   totalBattles := v.totalBattles + 1)
            && h.enc == Encounter(true, Some(wild), false, false, 0, [Fainted])
  {
    hide AutoFight;
  }

  /** A won fight gives the lead its HP, affection and XP, and then the wild its place if it is caught. */
  lemma WonFightIs(env: Env, s: Run, lead: nat, wild: Mon) returns (grown: Mon)
    requires lead < |s.trainer.team| && AutoFight(env.rules, s.trainer.team[lead], wild, s.rng).value.won
    ensures var v, h := s.trainer, Fight(env, s, lead, wild);
            var hp := AutoFight(env.rules, v.team[lead], wild, s.rng).value.hpRemaining;
            && h.enc.won && h.enc.wild == Some(wild)
            && Rewards(env, v.team[lead], hp, wild, h.enc.xpGained, grown)
            && (var u := v.(team := v.team[lead := grown]);
                var w := if h.enc.caught then Place(u, wild) else u;
                h.run.trainer.team == w.team && h.run.trainer.box == w.box)
  {
    hide AutoFight, Grant, ShouldCatch, CatchRate, WildXpReward, AffectionAfterWin, Surgery, PlanFor;
    var m, hp := s.trainer.team[lead], AutoFight(env.rules, s.trainer.team[lead], wild, s.rng).value.hpRemaining;
    var fond := m.(currentHP := hp, affection := AffectionAfterWin(m.(currentHP := hp), wild.level));
    grown := Rewarded(env.tplOf, fond, WildXpReward(m.level, wild.level, env.XpBuff()));
    AffectionIgnoresHP(m, hp, wild.level);
    assert s.trainer.team[lead := m.(currentHP := hp)][lead := grown] == s.trainer.team[lead := grown];
  }

  lemma AffectionIgnoresHP(m: Mon, hp: int, level: nat)
    ensures AffectionAfterWin(m.(currentHP := hp), level) == AffectionAfterWin(m, level)
  {
  }

  // ---- The whole encounter -------------------------------------------------------------------

  /** A town without a known first route has nothing to hunt. */
  lemma NoRouteNoHunt(env: Env, s: Run, town: Town, forced: bool)
    requires town.routes == [] || RouteById(env.world.routes, town.routes[0]) == None
    ensures DoWildEncounter(env, s, town, forced) == Hunted(s, Encounter(false, None, false, false, 0, []), None)
  {
  }

  /** A hunt is on the first route: the grass may stir, something may come out, and then it is met. */
  lemma HuntIs(env: Env, s: Run, town: Town, forced: bool, route: Route)
    requires town.routes != [] && RouteById(env.world.routes, town.routes[0]) == Some(route)
    ensures var h, stir := DoWildEncounter(env, s, town, forced), Stir(env, route, forced, s.rng);
            var wild := GenerateWild(env, route, stir.next);
            if !stir.value then
              h.run == s.(agent := Hunting, rng := stir.next) && !h.enc.encountered && h.enc.log == [Searching]
            else if wild.value.None? then
              h.run == s.(agent := Hunting, rng := wild.next) && !h.enc.encountered && h.enc.log == []
            else h == Meet(env, s.(agent := Hunting, rng := wild.next), wild.value.value)
  {
    hide Stir, GenerateWild, Meet, RouteById;
  }
}
