/** The mutable engine of src/engine.ts, each method proved against its function in `Ticks`. */
module EngineCore {
  import opened Wrappers
  import opened Random
  import opened Monsters
  import opened Battle
  import opened Progression
  import opened Team
  import opened Ticks

  class Engine {
    const trainer: Trainer
    const world: World
    const tplOf: Resolver
    const effect: Chart
    const buffs: Buffs
    const xpBuff: real
    const rng: Rng
    var state: AgentState
    var gymCooldown: nat

    constructor (trainer: Trainer, env: Env, rng: Rng)
      requires trainer.Valid() && rng.mix == env.rules.mix
      ensures Valid() && this.trainer == trainer && this.rng == rng && Env() == env
      ensures View() == Run(trainer.View(), 0, rng.state, Idle)
    {
      this.trainer, this.rng := trainer, rng;
      world, tplOf, effect, buffs, xpBuff := env.world, env.tplOf, env.rules.effect, env.buffs, env.xpBuff;
      state, gymCooldown := Idle, 0;
    }

    ghost predicate Valid()
      reads this, trainer
    {
      trainer.Valid()
    }

    function Env(): Env
    {
      Ticks.Env(world, tplOf, Rules(rng.mix, effect), buffs, xpBuff)
    }

    function View(): Run
      reads this, trainer, trainer.team, trainer.box, rng
    {
      Run(trainer.View(), gymCooldown, rng.state, state)
    }

    method Tick() returns (r: TickResult)
      requires Valid()
      modifies this, trainer, trainer.team, rng
      ensures Valid() && fresh(trainer.Mons() - old(trainer.Mons()))
      ensures var t := Ticks.Tick(Env(), old(View())); View() == t.run && r == t.result
    {
      hide Ticks.DoGymChallenge, Ticks.DoWildEncounter, Ticks.ShouldChallengeGym, Ticks.HealAll;
      var town := TownById(world.towns, trainer.location);
      if town.None? {
        return TickResult(state, Rest, None);
      }
      var strat := trainer.strategy;
      if NeedsHeal(trainer.View()) {
        HealTeam();
        return TickResult(state, Heal, None);
      }
      if strat.autoGym {
        var go := ShouldChallengeGym(town.value);
        if go {
          var won := DoGymChallenge(town.value);
          return TickResult(state, Challenge(won), None);
        }
      }
      var next := NextStop(Env(), trainer.View(), town.value);
      if next.Some? {
        MoveToTown(next.value);
        return TickResult(state, Travel(next.value.id), None);
      }
      var enc := DoWildEncounter(town.value, false);
      r := TickResult(state, if enc.caught then Capture else Hunt, Some(enc));
    }

    method HealTeam()
      requires Valid()
      modifies this`state, trainer.team
      ensures View() == Ticks.HealTeam(old(View()))
    {
      state := Healing;
      var team := trainer.team;
      for i := 0 to |team|
        invariant forall j | 0 <= j < i ::
            team[j].Value() == old(team[j].Value()).(currentHP := old(team[j].stats.hp))
        invariant forall j | i <= j < |team| :: team[j].Value() == old(team[j].Value())
        modifies team
      {
        team[i].currentHP := team[i].stats.hp;
      }
      assert Values(trainer.team) == HealAll(old(Values(trainer.team)));
      BoxUntouched();
    }

    method MoveToTown(town: Town)
      requires Valid()
      modifies this`state, trainer`location, trainer.team
      ensures Valid() && trainer.Mons() == old(trainer.Mons())
      ensures View() == MoveTo(old(View()), town)
    {
      state := Moving;
      trainer.location := town.id;
      HealTeam();
    }

    method ShouldChallengeGym(town: Town) returns (go: bool)
      requires Valid()
      modifies this`gymCooldown
      ensures (go, gymCooldown) == Ticks.ShouldChallengeGym(Env(), old(View()), town)
      ensures View() == old(View()).(cooldown := gymCooldown)
      ensures go ==> town.gym.Some?
    {
      if town.gym.None? { return false; }
      if town.gym.value.badge in trainer.badges { return false; }
      if gymCooldown > 0 {
        gymCooldown := gymCooldown - 1;
        return false;
      }
      go := Eligible(Env(), trainer.View(), town);
    }

    /** The living members of the team, at most four, with their positions. */
    method AliveParty() returns (party: seq<MonsterInstance>, ghost idx: seq<nat>)
      requires Valid()
      ensures idx == PartyIdx(Values(trainer.team))
      ensures |party| == |idx| && forall j | 0 <= j < |idx| :: party[j] == trainer.team[idx[j]]
      ensures Distinct(party)
    {
      var team := trainer.team;
      ghost var values := Values(team);
      party, idx := [], [];
      for i := 0 to |team|
        invariant idx == AliveUpTo(values, i)
        invariant |party| == |idx| && forall j | 0 <= j < |idx| :: party[j] == team[idx[j]]
      {
        if team[i].currentHP > 0 {
          party, idx := party + [team[i]], idx + [i];
        }
      }
      if |party| > 4 {
        party, idx := party[..4], idx[..4];
      }
    }

    method DoGymChallenge(town: Town) returns (won: bool)
      requires Valid() && town.gym.Some?
      modifies this`state, this`gymCooldown, trainer`badges, trainer`balls, trainer.team, rng
      ensures Valid() && trainer.Mons() == old(trainer.Mons())
      ensures (View(), won) == Ticks.DoGymChallenge(Env(), old(View()), town.gym.value)
    {
      hide Gauntlet.Outcome, Aftermath, PartyIdx, Put;
      state := AtGym;
      var gym := town.gym.value;
      won := PlayGym(gym);
      hide GymFight;
      if won {
        Award(gym.badge);
      } else {
        gymCooldown := 5;
      }
    }

    /** What the trainer gets for a gym. */
    method Award(badge: string)
      modifies trainer`badges, trainer`balls
      ensures trainer.View()
           == old(trainer.View()).(badges := old(trainer.badges) + [badge], balls := old(trainer.balls) + 3)
    {
      trainer.badges := trainer.badges + [badge];
      trainer.balls := trainer.balls + 3;
    }

    /** The fight and, when it is won, the XP loop: all that the challenge does to the party. */
    method PlayGym(gym: Gym) returns (won: bool)
      requires Valid()
      modifies trainer.team, rng
      ensures var g := GymFight(Env(), old(View()), gym);
              var end := g.Outcome(old(rng.state));
              && rng.state == end.next
              && won == (end.gymIdx == |gym.team|)
              && Values(trainer.team) == Put(old(Values(trainer.team)), PartyIdx(old(Values(trainer.team))),
                                             Aftermath(Env(), g.party, end.hp, won, |gym.team|))
              && Values(trainer.box) == old(Values(trainer.box))
    {
      hide Gauntlet.Outcome, Aftermath, PartyIdx, Put;
      ghost var s := old(View());
      var party, idx := AliveParty();
      OthersStayOut(trainer.team, party, idx);
      ghost var g := GymFight(Env(), s, gym);
      assert g.party == Values(party);
      won := FightGym(party, gym, g);
      PartyIsPut(trainer.team, party, idx, s.trainer.team,
                 Aftermath(Env(), g.party, g.Outcome(s.rng).hp, won, |gym.team|));
      BoxUntouched();
    }

    /** The fight itself and the XP for winning it, as far as they concern the party. */
    method FightGym(party: seq<MonsterInstance>, gym: Gym, ghost g: Gauntlet) returns (won: bool)
      requires Distinct(party)
      requires g == Gauntlet(Env().rules, Env().tplOf, Values(party), gym.team)
      modifies party, rng
      ensures var end := g.Outcome(old(rng.state));
              && rng.state == end.next
              && won == (end.gymIdx == |gym.team|)
              && Values(party) == Aftermath(Env(), g.party, end.hp, won, |gym.team|)
    {
      hide Gauntlet.Outcome, Rewarded, GymXpReward;
      ghost var hp := g.Outcome(rng.state).hp;
      var result := SimulateGym(effect, tplOf, party, gym.team, rng, g);
      won := result.won;
      if won {
        ShareSpoils(party, |gym.team|, g.party, hp);
      }
    }

    /** The XP loop over the party that won; `fought` and `hp` recall the party before and its HP after the fight. */
    method ShareSpoils(party: seq<MonsterInstance>, leaders: nat, ghost fought: seq<Mon>, ghost hp: seq<int>)
      requires Distinct(party) && |fought| == |hp| == |party|
      requires forall j | 0 <= j < |party| :: party[j].Value() == AfterGym(Env(), fought[j], hp[j], false, leaders)
      modifies party
      ensures forall j | 0 <= j < |party| :: party[j].Value() == AfterGym(Env(), fought[j], hp[j], true, leaders)
    {
      hide Grant;
      var buff := Env().XpBuff();
      for j := 0 to |party|
        invariant forall k | 0 <= k < j :: party[k].Value() == AfterGym(Env(), fought[k], hp[k], true, leaders)
        invariant forall k | j <= k < |party| ::
            party[k].Value() == AfterGym(Env(), fought[k], hp[k], false, leaders)
      {
        var tpl := tplOf(party[j].templateId);
        if tpl.Some? {
          var events := GrantXp(party[j], GymXpReward(party[j].level, leaders, buff), tpl.value);
        }
      }
    }

    /** A team whose party has the given values, and whose others have the old ones, told by `Put`. */
    lemma PartyIsPut(
        team: seq<MonsterInstance>, party: seq<MonsterInstance>, idx: seq<nat>, was: seq<Mon>, vals: seq<Mon>)
      requires Increasing(idx, |team|) && |party| == |vals| == |idx| && |was| == |team|
      requires forall j | 0 <= j < |idx| :: party[j] == team[idx[j]] && party[j].Value() == vals[j]
      requires forall i | 0 <= i < |team| && i !in idx :: team[i].Value() == was[i]
      ensures Values(team) == Put(was, idx, vals)
    {
      hide MonsterInstance.Value;
      forall i | 0 <= i < |team| ensures Values(team)[i] == Put(was, idx, vals)[i] {
        if i in idx {
          var j :| 0 <= j < |idx| && idx[j] == i;
        }
      }
    }

    /** Members elsewhere in a team without repeats are not in the party. */
    lemma OthersStayOut(team: seq<MonsterInstance>, party: seq<MonsterInstance>, idx: seq<nat>)
      requires Distinct(team) && Increasing(idx, |team|)
      requires |party| == |idx| && forall j | 0 <= j < |idx| :: party[j] == team[idx[j]]
      ensures forall i | 0 <= i < |team| && i !in idx :: team[i] !in party
    {
    }

    method DoWildEncounter(town: Town, forced: bool) returns (enc: Encounter)
      requires Valid()
      modifies this, trainer, trainer.team, rng
      ensures Valid() && fresh(trainer.Mons() - old(trainer.Mons()))
      ensures var h := Ticks.DoWildEncounter(Env(), old(View()), town, forced); View() == h.run && enc == h.enc
    {
      hide Meet, Ticks.GenerateWild, Stir;
      if town.routes == [] { return NOTHING; }
      var route := RouteById(world.routes, town.routes[0]);
      if route.None? { return NOTHING; }
      state := Hunting;
      var stirs := GrassStirs(route.value, forced);
      if !stirs { return NOTHING.(log := [Searching]); }
      var found := GenerateWildMonster(route.value);
      if found.None? { return NOTHING; }
      enc := MeetWild(found.value);
    }

    method GrassStirs(route: Route, forced: bool) returns (stirs: bool)
      modifies rng
      ensures Draw(stirs, rng.state) == Stir(Env(), route, forced, old(rng.state))
    {
      if forced { return true; }
      var roll := rng.Next();
      stirs := !(roll > route.encounterRate * 4.0);
    }

    /** The part of a wild encounter from the meeting on. */
    method MeetWild(found: Mon) returns (enc: Encounter)
      requires Valid()
      modifies this, trainer, trainer.team, rng
      ensures Valid() && fresh(trainer.Mons() - old(trainer.Mons()))
      ensures var h := Meet(Env(), old(View()), found); View() == h.run && enc == h.enc
    {
      hide Ticks.Fight, Ticks.HealAll;
      var i := FirstAlive(Values(trainer.team));
      if i == |trainer.team| {
        HealTeam();
        return NOTHING;
      }
      if found.level > trainer.team[i].level + 2 {
        state := Idle;
        return Encounter(true, Some(found), false, false, 0, [TooStrong]);
      }
      var wild := new MonsterInstance(found);
      enc := FightWild(i, wild);
    }

    method GenerateWildMonster(route: Route) returns (mon: Option<Mon>)
      modifies rng
      ensures Draw(mon, rng.state) == GenerateWild(Env(), route, old(rng.state))
    {
      hide Ticks.WildOf;
      var monId: Option<int>, isRare := None, false;
      if |route.rarePool| > 0 {
        var rare := rng.Chance(RareChance(Env(), route));
        if rare {
          monId := rng.Pick(route.rarePool);
          isRare := true;
        } else {
          monId := rng.Pick(route.wildPool);
        }
      } else {
        monId := rng.Pick(route.wildPool);
      }
      if monId.None? { return None; }
      var template := tplOf(monId.value);
      if template.None? { return None; }
      var level;
      if isRare {
        var above := rng.Int(0, 4);
        level := route.levelRange.1 + above + 3;
      } else {
        level := rng.Int(route.levelRange.0, route.levelRange.1);
      }
      mon := Some(WildOf(template.value, level));
    }

    /** The part of a wild encounter from the fight on; the wild joins the roster when caught. */
    method FightWild(i: nat, wild: MonsterInstance) returns (enc: Encounter)
      requires Valid() && i < |trainer.team| && wild !in trainer.Mons()
      modifies this, trainer, trainer.team, rng
      ensures Valid() && trainer.Mons() <= old(trainer.Mons()) + {wild}
      ensures var h := Ticks.Fight(Env(), old(View()), i, old(wild.Value())); View() == h.run && enc == h.enc
    {
      hide AutoFight, Ticks.Win;
      var lead := trainer.team[i];
      state := Battling;
      trainer.totalBattles := trainer.totalBattles + 1;
      var result := SimulateAuto(effect, lead, wild, rng);
      lead.currentHP := result.hpRemaining;
      OneMemberChanged(i);
      if result.won {
        enc := WinWild(i, wild);
      } else {
        enc := Encounter(true, Some(wild.Value()), false, false, 0, [Fainted]);
      }
    }

    method WinWild(i: nat, wild: MonsterInstance) returns (enc: Encounter)
      requires Valid() && i < |trainer.team| && wild !in trainer.Mons()
      modifies trainer, trainer.team, rng
      ensures Valid() && trainer.Mons() <= old(trainer.Mons()) + {wild}
      ensures var h := Ticks.Win(Env(), old(View()), i, old(wild.Value())); View() == h.run && enc == h.enc
    {
      hide Grant, AffectionAfterWin, ShouldCatch, Place, CatchRate;
      var lead := trainer.team[i];
      var xp := WildXpReward(lead.level, wild.level, Env().XpBuff());
      lead.affection := AffectionAfterWin(lead.Value(), wild.level);
      var tpl := tplOf(lead.templateId);
      if tpl.Some? {
        var events := GrantXp(lead, xp, tpl.value);
      }
      OneMemberChanged(i);
      if ShouldCatch(trainer.View(), wild.Value()) {
        enc := ThrowBall(wild, xp);
      } else {
        enc := Encounter(true, Some(wild.Value()), true, false, xp, []);
      }
    }

    method ThrowBall(wild: MonsterInstance, xp: int) returns (enc: Encounter)
      requires Valid() && wild !in trainer.Mons()
      modifies trainer, rng
      ensures Valid() && trainer.Mons() <= old(trainer.Mons()) + {wild}
      ensures var h := Throw(Env(), old(View()), wild.Value(), xp); View() == h.run && enc == h.enc
    {
      hide CatchRate, PlanFor, Surgery;
      var caught := rng.Chance(CatchRate(wild.Value()));
      trainer.balls := trainer.balls - 1;
      if caught {
        var placement := PlaceNewMonster(trainer, wild);
        trainer.totalCaught := trainer.totalCaught + 1;
        enc := Encounter(true, Some(wild.Value()), true, true, xp, [CaughtWild]);
      } else {
        enc := Encounter(true, Some(wild.Value()), true, false, xp, [BrokeFree]);
      }
    }

    /** Team and box are disjoint, so writes to the team leave the box's values alone. */
    twostate lemma BoxUntouched()
      requires trainer.box == old(trainer.box)
      requires forall m | m in trainer.box :: m.Value() == old(m.Value())
      ensures Values(trainer.box) == old(Values(trainer.box))
    {
    }

    /** Writing only to one member changes one entry of the team and nothing in the box. */
    twostate lemma OneMemberChanged(i: nat)
      requires Valid() && trainer.team == old(trainer.team) && trainer.box == old(trainer.box)
      requires i < |trainer.team|
      requires forall m | m in trainer.team && m != trainer.team[i] :: m.Value() == old(m.Value())
      requires forall m | m in trainer.box :: m.Value() == old(m.Value())
      ensures Values(trainer.team) == old(Values(trainer.team))[i := trainer.team[i].Value()]
      ensures Values(trainer.box) == old(Values(trainer.box))
    {
      BoxUntouched();
    }
  }
}
