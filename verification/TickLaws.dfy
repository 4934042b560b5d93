/** What a tick decides: when it heals, challenges, travels or hunts, and what healing and travelling leave. */
module TickLaws {
  import opened Numbers
  import opened Wrappers
  import opened Monsters
  import opened Battle
  import opened Progression
  import opened Team
  import opened Ticks
  import opened BadgeLaws

  /** Nobody stands, or the lead stands below 15 percent of its HP and healing is on. */
  ghost predicate Weary(v: TrainerView) {
    || (forall i | 0 <= i < |v.team| :: v.team[i].currentHP <= 0)
    || (v.strategy.autoHeal && v.team[0].currentHP > 0 && 100 * v.team[0].currentHP < 15 * v.team[0].stats.hp)
  }

  /** The gym here can be challenged now. */
  ghost predicate Ready(env: Env, s: Run, town: Town) {
    && s.trainer.strategy.autoGym && s.cooldown == 0
    && town.gym.Some? && town.gym.value.badge !in s.trainer.badges
    && PreviousBeaten(env, s.trainer.badges, town)
    && s.trainer.team != []
    && forall e | e in town.gym.value.team :: e.level <= s.trainer.team[0].level
  }

  /** The beaten gym's town leads on to `next`, and what that asks for is held. */
  ghost predicate LeadsTo(env: Env, v: TrainerView, town: Town, next: Town) {
    && v.strategy.autoMove && town.gym.Some? && town.gym.value.badge in v.badges
    && town.nextTown != "" && TownById(env.world.towns, town.nextTown) == Some(next)
    && (next.requiredBadge == "" || next.requiredBadge in v.badges)
  }

  /** The same team at full HP. */
  ghost predicate Rested(team: seq<Mon>, team': seq<Mon>) {
    && |team'| == |team|
    && forall i | 0 <= i < |team| :: team'[i] == team[i].(currentHP := team[i].stats.hp)
  }

  lemma AllFaintedIs(team: seq<Mon>)
    ensures AllFainted(team) <==> forall i | 0 <= i < |team| :: team[i].currentHP <= 0
  {
    forall i | 0 <= i < |team| ensures team[i] in team {
    }
  }

  /** In an unknown town a tick does nothing. */
  lemma NowhereRests(env: Env, s: Run)
    requires TownById(env.world.towns, s.trainer.location) == None
    ensures Tick(env, s) == Ticked(s, TickResult(s.agent, Rest, None), None)
  {
    hide TownById;
  }

  /** The order of the decisions: healing before the gym, the gym before the road, the road before the hunt. */
  lemma TickDecides(env: Env, s: Run, town: Town)
    requires TownById(env.world.towns, s.trainer.location) == Some(town)
    ensures var action := Tick(env, s).result.action;
            var heals := Weary(s.trainer);
            var challenges := !heals && Ready(env, s, town);
            var travels := !heals && !challenges && exists next :: LeadsTo(env, s.trainer, town, next);
            && (action == Heal <==> heals)
            && (action.Challenge? <==> challenges)
            && (action.Travel? <==> travels)
            && (action in {Hunt, Capture} <==> !heals && !challenges && !travels)
  {
    hide DoWildEncounter, DoGymChallenge, HealAll, TownById, PreviousBeaten;
    AllFaintedIs(s.trainer.team);
    var next := NextStop(env, s.trainer, town);
    assert next.Some? ==> LeadsTo(env, s.trainer, town, next.value);
    hide AllFainted;
  }

  /** A healing tick brings every member of the team to exactly full HP, and touches nothing else of the trainer. */
  lemma HealingRests(env: Env, s: Run)
    requires Tick(env, s).result.action == Heal
    ensures var v, t := s.trainer, Tick(env, s);
            && Rested(v.team, t.run.trainer.team) && t.run.trainer == v.(team := t.run.trainer.team)
            && t.run.cooldown == s.cooldown && t.run.rng == s.rng && t.result == TickResult(Healing, Heal, None)
  {
    hide DoWildEncounter, DoGymChallenge, Eligible, NextStop, NeedsHeal, TownById;
  }

  /** A travelling tick does the same in the next town. */
  lemma TravelRests(env: Env, s: Run, town: Town)
    requires TownById(env.world.towns, s.trainer.location) == Some(town) && Tick(env, s).result.action.Travel?
    ensures var v, t := s.trainer, Tick(env, s);
            && Rested(v.team, t.run.trainer.team)
            && t.run.trainer == v.(team := t.run.trainer.team, location := t.result.action.to)
            && t.run.rng == s.rng
            && exists next :: LeadsTo(env, v, town, next) && t.result.action == Travel(next.id)
  {
    hide DoWildEncounter, DoGymChallenge, PreviousBeaten, NeedsHeal, TownById;
    var next := NextStop(env, s.trainer, town);
    assert next.Some? ==> LeadsTo(env, s.trainer, town, next.value);
  }

  /** The cooldown counts down on ticks that a gym to be won waits for, and a lost challenge sets it to five. */
  lemma CooldownIs(env: Env, s: Run, town: Town)
    requires TownById(env.world.towns, s.trainer.location) == Some(town)
    ensures var t := Tick(env, s);
            var waiting := s.trainer.strategy.autoGym && town.gym.Some? && town.gym.value.badge !in s.trainer.badges;
            t.run.cooldown == if t.result.action == Heal then s.cooldown
                              else if t.result.action == Challenge(false) then 5
                              else if waiting && s.cooldown > 0 then s.cooldown - 1
                              else s.cooldown
  {
    hide Put, Gauntlet.Outcome, Aftermath, PartyIdx, HealAll, PreviousBeaten, NextStop, NeedsHeal, TownById;
    hide DoWildEncounter;
    var (go, cooldown) :=
      if s.trainer.strategy.autoGym then ShouldChallengeGym(env, s, town) else (false, s.cooldown);
    HuntStays(env, s.(cooldown := cooldown), town, false);
  }

  /** The first four who stand go into a gym: all who stand do, unless four stand before them. */
  lemma FirstFourFight(team: seq<Mon>, i: nat)
    requires i < |team|
    ensures var idx := PartyIdx(team);
            && |idx| <= 4
            && (i in idx ==> team[i].currentHP > 0)
            && (team[i].currentHP > 0 && i !in idx ==> |idx| == 4 && forall j | j in idx :: j < i)
  {
    var alive := AliveUpTo(team, |team|);
    if team[i].currentHP > 0 && |alive| > 4 {
      var at :| 0 <= at < |alive| && alive[at] == i;
      hide AliveUpTo;
      assert at >= 4 || alive[..4][at] == i;
    }
  }

  /**
    * A gym challenge, member by member: each of the first four who stand goes in with its own HP, keeps what the fight
    * left it, and on a win is granted the reward of its own level; nobody else changes.
    */
  lemma GymMemberIs(env: Env, s: Run, gym: Gym, i: nat)
    requires i < |s.trainer.team|
    ensures var team, idx := s.trainer.team, PartyIdx(s.trainer.team);
            var (after, won) := DoGymChallenge(env, s, gym);
            var end := GymFight(env, s, gym).Outcome(s.rng);
            && |after.trainer.team| == |team| && (won <==> end.gymIdx == |gym.team|)
            && (forall j | 0 <= j < |idx| && idx[j] == i ::
                  var hurt := team[i].(currentHP := Max(0, end.hp[j]));
                  after.trainer.team[i]
                  == if won && env.tplOf(team[i].templateId).Some? then
                       var xp := GymXpReward(team[i].level, |gym.team|, if env.xpBuff == 0.0 then 1.0 else env.xpBuff);
                       Grant(hurt, xp, env.tplOf(team[i].templateId).value).mon
                     else hurt)
            && (i !in idx ==> after.trainer.team[i] == team[i])
  {
    hide Gauntlet.Outcome, PartyIdx, Grant, GymXpReward;
  }

  /** The gauntlet is between those members, in team order, and the gym's own list. */
  lemma GymFightIs(env: Env, s: Run, gym: Gym)
    ensures var g, idx := GymFight(env, s, gym), PartyIdx(s.trainer.team);
            && g.gym == gym.team && g.rules == env.rules && g.tplOf == env.tplOf && |g.party| == |idx|
            && forall j | 0 <= j < |idx| :: g.party[j] == s.trainer.team[idx[j]]
  {
    hide PartyIdx;
  }

  /** The state that a tick reports is the agent's, and tells what was done. */
  lemma StateTellsAction(env: Env, s: Run)
    ensures var t := Tick(env, s);
            && t.result.state == t.run.agent
            && (t.result.action == Heal || t.result.action.Travel? ==> t.run.agent == Healing)
            && (t.result.action.Challenge? ==> t.run.agent == AtGym)
            && (t.result.action == Rest ==> t.run == s)
            && (t.result.encounter.Some? <==> t.result.action in {Hunt, Capture})
  {
    hide DoWildEncounter, Gauntlet.Outcome, PartyIdx, Aftermath, Put, Eligible, NextStop, NeedsHeal, TownById, HealAll;
  }

  /** A challenge is of the gym here, a hunt of the grass here, both from the state with the cooldown counted down. */
  lemma TickDoes(env: Env, s: Run, town: Town)
    requires TownById(env.world.towns, s.trainer.location) == Some(town)
    ensures var t, waiting := Tick(env, s), s.trainer.strategy.autoGym && town.gym.Some?
                                            && town.gym.value.badge !in s.trainer.badges;
            var s' := s.(cooldown := if waiting && s.cooldown > 0 then s.cooldown - 1 else s.cooldown);
            && (t.result.action.Challenge? ==>
                  town.gym.Some? && (t.run, t.result.action.won) == DoGymChallenge(env, s', town.gym.value))
            && (t.result.action in {Hunt, Capture} ==>
                  var h := DoWildEncounter(env, s', town, false);
                  t.run == h.run && t.result.encounter == Some(h.enc) && (t.result.action == Capture <==> h.enc.caught))
  {
    hide DoWildEncounter, DoGymChallenge, PreviousBeaten, NextStop, NeedsHeal, TownById, HealAll;
  }
}
