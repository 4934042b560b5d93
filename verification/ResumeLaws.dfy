/** A run resumed from a save continues the run that was saved. */
module ResumeLaws {
  import opened Numbers
  import opened Wrappers
  import opened Random
  import opened Monsters
  import opened Battle
  import opened Progression
  import opened Team
  import opened Ticks
  import opened Save

  // ---- Nothing a tick computes reads the cached moves ----------------------------------------

  lemma ExchangeIgnoresMoves(rules: Rules, me: Mon, foe: Mon, d: Duel)
    ensures Exchange(rules, StripMon(me), foe, d) == Exchange(rules, me, foe, d)
  {
    hide DamageFrom;
  }

  lemma {:induction false} DuelIgnoresMoves(rules: Rules, me: Mon, foe: Mon, d: Duel)
    ensures DuelToTheEnd(rules, StripMon(me), foe, d) == DuelToTheEnd(rules, me, foe, d)
    decreases d.Left()
  {
    hide Exchange;
    if d.mine > 0 && d.theirs > 0 {
      ExchangeIgnoresMoves(rules, me, foe, d);
      DuelIgnoresMoves(rules, me, foe, Exchange(rules, me, foe, d));
    }
  }

  lemma {:induction false} AutoIgnoresMoves(rules: Rules, me: Mon, foe: Mon, d: Duel, turns: nat)
    requires turns <= AUTO_TURN_CAP
    ensures AutoRounds(rules, StripMon(me), foe, d, turns) == AutoRounds(rules, me, foe, d, turns)
    decreases AUTO_TURN_CAP - turns
  {
    hide Exchange;
    if d.mine > 0 && d.theirs > 0 && turns < AUTO_TURN_CAP {
      ExchangeIgnoresMoves(rules, me, foe, d);
      AutoIgnoresMoves(rules, me, foe, Exchange(rules, me, foe, d), turns + 1);
    }
  }

  function Bared(g: Gauntlet): Gauntlet {
    g.(party := StripAll(g.party))
  }

  lemma RoundIgnoresMoves(g: Gauntlet, c: Chain)
    requires g.Fits(c) && g.Running(c)
    ensures Bared(g).Round(c) == g.Round(c)
  {
    hide DuelToTheEnd, MakeCombatant;
    match g.tplOf(g.gym[c.gymIdx].monsterId)
    case None =>
    case Some(tpl) =>
      var foe := MakeCombatant(tpl, g.gym[c.gymIdx].level);
      DuelIgnoresMoves(g.rules, g.party[c.partyIdx], foe, Duel(c.hp[c.partyIdx], foe.stats.hp, c.next));
  }

  lemma {:induction false} RoundsIgnoreMoves(g: Gauntlet, c: Chain)
    requires g.Fits(c)
    ensures Bared(g).Rounds(c) == g.Rounds(c)
    decreases |g.party| + |g.gym| - c.partyIdx - c.gymIdx
  {
    hide Gauntlet.Round;
    if g.Running(c) {
      RoundIgnoresMoves(g, c);
      RoundsIgnoreMoves(g, g.Round(c));
    }
  }

  lemma OutcomeIgnoresMoves(g: Gauntlet, s: Word)
    ensures Bared(g).Outcome(s) == g.Outcome(s)
  {
    assert HPs(StripAll(g.party)) == HPs(g.party);
    RoundsIgnoreMoves(g, g.Start(s));
  }

  lemma {:induction false} LevelUpsIgnoreMoves(m: Mon, t: Template)
    ensures LevelUps(StripMon(m), t).mon == StripMon(LevelUps(m, t).mon)
    decreases MAX_LEVEL - m.level
  {
    hide StatsAtLevel, GetXpForLevel;
    if CanLevel(m) {
      LevelUpsIgnoreMoves(Raised(m, t), t);
      assert Raised(StripMon(m), t) == StripMon(Raised(m, t));
    }
  }

  lemma RewardIgnoresMoves(tplOf: Resolver, m: Mon, amount: int)
    ensures Rewarded(tplOf, StripMon(m), amount) == StripMon(Rewarded(tplOf, m, amount))
  {
    hide LevelUps;
    if tplOf(m.templateId).Some? {
      LevelUpsIgnoreMoves(m.(xp := m.xp + amount), tplOf(m.templateId).value);
      assert StripMon(m).(xp := m.xp + amount) == StripMon(m.(xp := m.xp + amount));
    }
  }

  lemma {:induction false} AliveIgnoresMoves(team: seq<Mon>, n: nat)
    requires n <= |team|
    ensures AliveUpTo(StripAll(team), n) == AliveUpTo(team, n)
  {
    if n > 0 {
      AliveIgnoresMoves(team, n - 1);
    }
  }

  lemma {:induction false} FirstAliveIgnoresMoves(team: seq<Mon>)
    ensures FirstAlive(StripAll(team)) == FirstAlive(team)
  {
    if team != [] {
      FirstAliveIgnoresMoves(team[1..]);
      assert StripAll(team)[1..] == StripAll(team[1..]);
    }
  }

  lemma FaintedIgnoresMoves(team: seq<Mon>)
    ensures AllFainted(StripAll(team)) == AllFainted(team)
  {
    if AllFainted(StripAll(team)) {
      forall m | m in team ensures m.currentHP <= 0 {
        var i :| 0 <= i < |team| && team[i] == m;
        assert StripAll(team)[i] in StripAll(team);
      }
    }
  }

  lemma HealIgnoresMoves(team: seq<Mon>)
    ensures HealAll(StripAll(team)) == StripAll(HealAll(team))
  {
  }

  // ---- The gym -------------------------------------------------------------------------------

  lemma AftermathIgnoresMoves(env: Env, party: seq<Mon>, hp: seq<int>, won: bool, leaders: nat)
    requires |hp| == |party|
    ensures Aftermath(env, StripAll(party), hp, won, leaders) == StripAll(Aftermath(env, party, hp, won, leaders))
  {
    hide Rewarded;
    forall j | 0 <= j < |party|
      ensures AfterGym(env, StripMon(party[j]), hp[j], won, leaders)
           == StripMon(AfterGym(env, party[j], hp[j], won, leaders))
    {
      var m := party[j].(currentHP := Max(0, hp[j]));
      RewardIgnoresMoves(env.tplOf, m, GymXpReward(m.level, leaders, env.XpBuff()));
      assert StripMon(party[j]).(currentHP := Max(0, hp[j])) == StripMon(m);
    }
  }

  lemma {:induction false} PutIgnoresMoves(team: seq<Mon>, idx: seq<nat>, vals: seq<Mon>)
    requires Increasing(idx, |team|) && |vals| == |idx|
    ensures Put(StripAll(team), idx, StripAll(vals)) == StripAll(Put(team, idx, vals))
    decreases |idx|
  {
    if idx != [] {
      var last := |idx| - 1;
      PutIgnoresMoves(team, idx[..last], vals[..last]);
      assert StripAll(vals)[..last] == StripAll(vals[..last]);
    }
  }

  /** The part of a run that matters to what follows: no cached moves, and whatever agent state. */
  function Bare(s: Run): Run {
    s.(trainer := StripTrainer(s.trainer), agent := Idle)
  }

  lemma GymIgnoresMoves(env: Env, s: Run, gym: Gym)
    ensures Bare(DoGymChallenge(env, Bare(s), gym).0) == Bare(DoGymChallenge(env, s, gym).0)
    ensures DoGymChallenge(env, Bare(s), gym).1 == DoGymChallenge(env, s, gym).1
  {
    hide Gauntlet.Outcome, Aftermath, AliveUpTo, Put;
    var team := s.trainer.team;
    AliveIgnoresMoves(team, |team|);
    assert PartyIdx(StripAll(team)) == PartyIdx(team);
    var idx, g := PartyIdx(team), GymFight(env, s, gym);
    assert Select(StripAll(team), idx) == StripAll(Select(team, idx));
    OutcomeIgnoresMoves(g, s.rng);
    var end := g.Outcome(s.rng);
    var won := end.gymIdx == |gym.team|;
    AftermathIgnoresMoves(env, g.party, end.hp, won, |gym.team|);
    PutIgnoresMoves(team, idx, Aftermath(env, g.party, end.hp, won, |gym.team|));
    StripTwice(Put(team, idx, Aftermath(env, g.party, end.hp, won, |gym.team|)));
    StripTwice(s.trainer.box);
  }

  lemma StripTwice(ms: seq<Mon>)
    ensures StripAll(StripAll(ms)) == StripAll(ms)
  {
  }

  lemma EligibleIgnoresMoves(env: Env, v: TrainerView, town: Town)
    ensures Eligible(env, StripTrainer(v), town) == Eligible(env, v, town)
  {
    FaintedIgnoresMoves(v.team);
  }

  // ---- The hunt ------------------------------------------------------------------------------

  lemma WeakIdxIgnoresMoves(all: seq<Mon>)
    requires all != []
    ensures WeakIdx(StripAll(all)) == WeakIdx(all)
  {
    var w, w' := WeakIdx(all), WeakIdx(StripAll(all));
    assert forall i | 0 <= i < |all| :: Power(StripAll(all)[i]) == Power(all[i]);
    assert Power(all[w]) <= Power(all[w']) && Power(all[w']) <= Power(all[w]);
  }

  lemma {:induction false} CountIgnoresMoves(team: seq<Mon>, e: Element)
    ensures CountType(StripAll(team), e) == CountType(team, e)
  {
    if team != [] {
      CountIgnoresMoves(team[1..], e);
      assert StripAll(team)[1..] == StripAll(team[1..]);
    }
  }

  lemma SpeciesIgnoreMoves(ms: seq<Mon>, id: int)
    ensures HasSpecies(StripAll(ms), id) == HasSpecies(ms, id)
  {
    if HasSpecies(ms, id) {
      var i :| 0 <= i < |ms| && ms[i].templateId == id;
      assert StripAll(ms)[i] in StripAll(ms);
    }
  }

  lemma CatchIgnoresMoves(v: TrainerView, wild: Mon)
    ensures ShouldCatch(StripTrainer(v), wild) == ShouldCatch(v, wild)
    ensures PlanFor(StripAll(v.team), StripAll(v.box), wild) == PlanFor(v.team, v.box, wild)
  {
    hide Power, WeakIdx, CountType, HasSpecies;
    var all := v.All();
    SpeciesIgnoreMoves(v.team, wild.templateId);
    SpeciesIgnoreMoves(v.box, wild.templateId);
    CountIgnoresMoves(v.team, wild.element);
    assert StripAll(v.team) + StripAll(v.box) == StripAll(all);
    if all != [] {
      WeakIdxIgnoresMoves(all);
      PowerIgnoresMoves(all[WeakIdx(all)]);
    }
  }

  lemma PowerIgnoresMoves(m: Mon)
    ensures Power(StripMon(m)) == Power(m)
  {
  }

  lemma PlaceIgnoresMoves(v: TrainerView, wild: Mon)
    requires wild.moves == None
    ensures Place(StripTrainer(v), wild) == StripTrainer(Place(v, wild))
  {
    hide Power, WeakIdx, ShouldCatch, PlanFor;
    CatchIgnoresMoves(v, wild);
    var plan := PlanFor(v.team, v.box, wild);
    SurgeryIgnoresMoves(v.team, v.box, wild, plan);
  }

  lemma SurgeryIgnoresMoves(team: seq<Mon>, box: seq<Mon>, wild: Mon, plan: Plan)
    requires wild.moves == None && (plan.Replace? ==> plan.idx < |team| + |box|)
    ensures Surgery(StripAll(team), StripAll(box), wild, plan).team == StripAll(Surgery(team, box, wild, plan).team)
    ensures Surgery(StripAll(team), StripAll(box), wild, plan).box == StripAll(Surgery(team, box, wild, plan).box)
  {
  }

  lemma ThrowIgnoresMoves(env: Env, s: Run, wild: Mon, xp: int)
    requires wild.moves == None
    ensures Bare(Throw(env, Bare(s), wild, xp).run) == Bare(Throw(env, s, wild, xp).run)
  {
    hide Place, CatchRate, StripAll;
    var v := s.trainer.(balls := s.trainer.balls - 1);
    PlaceIgnoresMoves(v, wild);
    StripTwice(Place(v, wild).team);
    StripTwice(Place(v, wild).box);
    StripTwice(v.team);
    StripTwice(v.box);
  }

  lemma WinIgnoresMoves(env: Env, s: Run, lead: nat, wild: Mon)
    requires lead < |s.trainer.team| && wild.moves == None
    ensures Bare(Win(env, Bare(s), lead, wild).run) == Bare(Win(env, s, lead, wild).run)
  {
    hide Throw, ShouldCatch, Rewarded, WildXpReward;
    var m := s.trainer.team[lead];
    var xp := WildXpReward(m.level, wild.level, env.XpBuff());
    var fond := m.(affection := AffectionAfterWin(m, wild.level));
    RewardIgnoresMoves(env.tplOf, fond, xp);
    assert StripMon(m).(affection := AffectionAfterWin(m, wild.level)) == StripMon(fond);
    var t := SetMember(s, lead, Rewarded(env.tplOf, fond, xp));
    var t' := SetMember(Bare(s), lead, StripMon(Rewarded(env.tplOf, fond, xp)));
    assert t'.trainer.team == StripAll(t.trainer.team);
    assert t' == Bare(t);
    CatchIgnoresMoves(t.trainer, wild);
    ThrowIgnoresMoves(env, t, wild, xp);
    BareTwice(t);
  }

  lemma BareTwice(s: Run)
    ensures Bare(Bare(s)) == Bare(s)
  {
    StripTwice(s.trainer.team);
    StripTwice(s.trainer.box);
  }

  lemma FightIgnoresMoves(env: Env, s: Run, lead: nat, wild: Mon)
    requires lead < |s.trainer.team| && wild.moves == None
    ensures Bare(Fight(env, Bare(s), lead, wild).run) == Bare(Fight(env, s, lead, wild).run)
  {
    hide Win, AutoRounds;
    var m := s.trainer.team[lead];
    AutoIgnoresMoves(env.rules, m, wild, Duel(m.currentHP, wild.currentHP, s.rng), 0);
    var fight := AutoFight(env.rules, m, wild, s.rng);
    var hurt := SetMember(s, lead, m.(currentHP := fight.value.hpRemaining));
    var t := hurt.(agent := Battling, rng := fight.next,
                   trainer := hurt.trainer.(totalBattles := s.trainer.totalBattles + 1));
    var hurt' := SetMember(Bare(s), lead, StripMon(m).(currentHP := fight.value.hpRemaining));
    var t' := hurt'.(agent := Battling, rng := fight.next,
                     trainer := hurt'.trainer.(totalBattles := s.trainer.totalBattles + 1));
    assert t'.trainer.team == StripAll(t.trainer.team);
    assert t' == Bare(t).(agent := Battling);
    BareTwice(t);
    WinIgnoresMoves(env, t, lead, wild);
    WinIgnoresMoves(env, t', lead, wild);
    assert Bare(t') == Bare(t);
  }

  lemma MeetIgnoresMoves(env: Env, s: Run, wild: Mon)
    requires wild.moves == None
    ensures Bare(Meet(env, Bare(s), wild).run) == Bare(Meet(env, s, wild).run)
  {
    hide Fight, HealAll;
    FirstAliveIgnoresMoves(s.trainer.team);
    var lead := FirstAlive(s.trainer.team);
    HealTeamIgnoresMoves(s);
    BareTwice(s);
    if lead < |s.trainer.team| {
      FightIgnoresMoves(env, s, lead, wild);
    }
  }

  lemma HealTeamIgnoresMoves(s: Run)
    ensures Bare(HealTeam(Bare(s))) == Bare(HealTeam(s))
  {
    hide HealAll;
    HealIgnoresMoves(s.trainer.team);
    StripTwice(HealAll(s.trainer.team));
    StripTwice(s.trainer.box);
  }

  lemma WildHasNoMoves(env: Env, route: Route, s: Word)
    ensures var w := GenerateWild(env, route, s).value; w.Some? ==> w.value.moves == None
  {
    hide RollSpecies, RollLevel;
  }

  lemma MeetIgnoresState(env: Env, s: Run, r: Run, wild: Mon)
    requires Bare(s) == Bare(r) && wild.moves == None
    ensures Bare(Meet(env, s, wild).run) == Bare(Meet(env, r, wild).run)
  {
    hide Meet, Bare;
    MeetIgnoresMoves(env, s, wild);
    MeetIgnoresMoves(env, r, wild);
  }

  lemma HuntIgnoresMoves(env: Env, s: Run, town: Town, forced: bool)
    ensures Bare(DoWildEncounter(env, Bare(s), town, forced).run) == Bare(DoWildEncounter(env, s, town, forced).run)
  {
    hide Meet, GenerateWild, Stir, StripAll;
    BareTwice(s);
    if town.routes != [] && RouteById(env.world.routes, town.routes[0]).Some? {
      var route := RouteById(env.world.routes, town.routes[0]).value;
      var stir := Stir(env, route, forced, s.rng);
      var found := GenerateWild(env, route, stir.next);
      WildHasNoMoves(env, route, stir.next);
      var t := s.(agent := Hunting, rng := found.next);
      var t' := Bare(s).(agent := Hunting, rng := found.next);
      StripTwice(s.trainer.team);
      StripTwice(s.trainer.box);
      if found.value.Some? {
        MeetIgnoresState(env, t', t, found.value.value);
      }
    }
  }

  // ---- Ticks and runs ------------------------------------------------------------------------

  lemma NeedsHealIgnoresMoves(v: TrainerView)
    ensures NeedsHeal(StripTrainer(v)) == NeedsHeal(v)
  {
    FaintedIgnoresMoves(v.team);
  }

  lemma MoveIgnoresMoves(s: Run, town: Town)
    ensures Bare(MoveTo(Bare(s), town)) == Bare(MoveTo(s, town))
  {
    hide HealAll;
    HealIgnoresMoves(s.trainer.team);
    StripTwice(HealAll(s.trainer.team));
    StripTwice(s.trainer.box);
  }

  lemma TickIgnoresMoves(env: Env, s: Run)
    ensures Bare(Tick(env, Bare(s)).run) == Bare(Tick(env, s).run)
  {
    hide DoWildEncounter, DoGymChallenge, HealTeam, MoveTo, Eligible, NeedsHeal, StripAll;
    BareTwice(s);
    NeedsHealIgnoresMoves(s.trainer);
    HealTeamIgnoresMoves(s);
    var found := TownById(env.world.towns, s.trainer.location);
    if found.Some? {
      var town := found.value;
      EligibleIgnoresMoves(env, s.trainer, town);
      var (go, cooldown) :=
        if s.trainer.strategy.autoGym then ShouldChallengeGym(env, s, town) else (false, s.cooldown);
      var t := s.(cooldown := cooldown);
      assert Bare(s).(cooldown := cooldown) == Bare(t);
      if go {
        GymIgnoresMoves(env, t, town.gym.value);
      }
      HuntIgnoresMoves(env, t, town, false);
      var next := NextStop(env, s.trainer, town);
      if next.Some? {
        MoveIgnoresMoves(t, next.value);
      }
    }
  }

  lemma {:induction false} RunsFollowBareState(env: Env, s: Run, r: Run, n: nat)
    requires Bare(s) == Bare(r)
    ensures Bare(RunTicks(env, s, n)) == Bare(RunTicks(env, r, n))
  {
    hide Tick, Bare;
    if n > 0 {
      RunsFollowBareState(env, s, r, n - 1);
      TickIgnoresMoves(env, RunTicks(env, s, n - 1));
      TickIgnoresMoves(env, RunTicks(env, r, n - 1));
    }
  }

  /** A new engine over the loaded trainer and the restored generator. */
  function Resumed(save: SavedGame): Option<Run> {
    match (LoadTrainer(Some(save)), save.rngState)
    case (Ok(v), Some(rng)) => Some(Run(v, 0, Truncate(rng), Idle))
    case _ => None
  }

  /** A save of a trainer that stands somewhere resumes as its run without cached moves, cooldown or agent state. */
  lemma ResumesBare(s: Run)
    requires s.trainer.location != ""
    ensures Resumed(SaveTrainer(s.trainer, Some(s.rng))) == Some(Bare(s.(cooldown := 0)))
  {
    LoadInvertsSave(s.trainer, Some(s.rng));
  }

  /** Saved with its generator and resumed, a run without a pending gym cooldown goes on exactly as it would have. */
  lemma ResumeIsExact(env: Env, s: Run, n: nat)
    requires s.cooldown == 0 && s.trainer.location != ""
    ensures var r := Resumed(SaveTrainer(s.trainer, Some(s.rng)));
            && r.Some?
            && StripTrainer(RunTicks(env, r.value, n).trainer) == StripTrainer(RunTicks(env, s, n).trainer)
            && RunTicks(env, r.value, n).rng == RunTicks(env, s, n).rng
            && RunTicks(env, r.value, n).cooldown == RunTicks(env, s, n).cooldown
  {
    hide Tick;
    LoadInvertsSave(s.trainer, Some(s.rng));
    BareTwice(s);
    RunsFollowBareState(env, s, Bare(s), n);
  }
}
