/** Over every run, each owned monster stays consistent with its species and the roster stays in shape. */
module MemberLaws {
  import opened Numbers
  import opened Wrappers
  import opened Random
  import opened Monsters
  import opened Battle
  import opened Progression
  import opened ProgressionLaws
  import opened Team
  import opened Ticks

  // ---- The setting ---------------------------------------------------------------------------

  /** No level of the species lowers its power, nor its HP below the base. */
  predicate Thriving(t: Template) {
    0 <= t.base.hp <= TargetStatsFor(t).hp && PowerNeverFalls(t)
  }

  /** A species of a wild pool: it answers to its id, and thrives. */
  ghost predicate FitForPool(tplOf: Resolver, id: int) {
    tplOf(id).Some? ==> tplOf(id).value.id == id && Thriving(tplOf(id).value)
  }

  /** What is asked of the data: nothing of species that only leaders use, nor that evolutions come in step. */
  ghost predicate GoodSetting(env: Env) {
    && env.xpBuff >= 0.0
    && (forall r | r in env.world.routes ::
          && r.levelRange.0 >= 1 && r.levelRange.1 >= 1
          && (forall id | id in r.wildPool || id in r.rarePool :: FitForPool(env.tplOf, id)))
  }

  /**
    * Everything about a monster is what its species and level say, its HP and XP are in range, and its stage is the
    * one of its level if its species evolves in step.
    */
  ghost predicate Consistent(tplOf: Resolver, m: Mon) {
    && tplOf(m.templateId).Some?
    && (var t := tplOf(m.templateId).value;
        && Thriving(t)
        && m.level >= 1
        && m.element == t.element
        && m.stats == StatsAtLevel(t, m.level)
        && (EvolvesInStep(t) ==> InStep(m, t))
        && 0 <= m.currentHP <= m.stats.hp
        && 0 <= m.xp
        && (m.level >= MAX_LEVEL || m.xp < GetXpForLevel(m.level)))
  }

  ghost predicate AllConsistent(tplOf: Resolver, ms: seq<Mon>) {
    forall m | m in ms :: Consistent(tplOf, m)
  }

  /** The same individual, no weaker. */
  ghost predicate Grew(m: Mon, m': Mon) {
    && m'.templateId == m.templateId && m'.element == m.element && m'.rarity == m.rarity
    && Power(m') >= Power(m)
  }

  ghost predicate TeamGrew(team: seq<Mon>, team': seq<Mon>) {
    |team'| == |team| && forall i | 0 <= i < |team| :: Grew(team[i], team'[i])
  }

  // ---- One monster ---------------------------------------------------------------------------

  lemma HpChangeConsistent(tplOf: Resolver, m: Mon, hp: int)
    requires Consistent(tplOf, m) && 0 <= hp <= m.stats.hp
    ensures Consistent(tplOf, m.(currentHP := hp)) && Grew(m, m.(currentHP := hp))
  {
    hide StatsAtLevel, GetXpForLevel;
  }

  lemma AffectionConsistent(tplOf: Resolver, m: Mon, a: real)
    requires Consistent(tplOf, m)
    ensures Consistent(tplOf, m.(affection := a)) && Grew(m, m.(affection := a))
  {
    hide StatsAtLevel, GetXpForLevel;
  }

  lemma RewardConsistent(tplOf: Resolver, m: Mon, amount: nat)
    requires Consistent(tplOf, m)
    ensures Consistent(tplOf, Rewarded(tplOf, m, amount)) && Grew(m, Rewarded(tplOf, m, amount))
  {
    hide StatsAtLevel, GetXpForLevel, LevelUps, Power, PowerNeverFalls;
    var t := tplOf(m.templateId).value;
    GrantSettles(m, amount, t);
    GrantKeepsWounds(m, amount, t);
    if EvolvesInStep(t) {
      LevelUpsInStep(m.(xp := m.xp + amount), t);
    }
    GrantKeepsRest(m, amount, t);
    HpStaysInRange(t);
    assert Grant(m, amount, t).mon.currentHP >= 0;
    GrantsNeverWeaken(t);
  }

  lemma WildConsistent(tplOf: Resolver, t: Template, level: nat)
    requires tplOf(t.id) == Some(t) && Thriving(t) && level >= 1
    ensures Consistent(tplOf, WildOf(t, level))
  {
    InterpMono(t.base.hp, TargetStatsFor(t).hp, level, level);
    if level < MAX_LEVEL {
      CurveIncreases(level);
    }
  }

  /** In particular, stat targets at least the bases are enough. */
  lemma GrowingThrives(t: Template)
    requires Growing(t)
    ensures Thriving(t)
  {
    GrowingNeverFalls(t);
  }

  // ---- The team as a whole -------------------------------------------------------------------

  ghost predicate TeamKept(tplOf: Resolver, team: seq<Mon>, team': seq<Mon>) {
    TeamGrew(team, team') && AllConsistent(tplOf, team')
  }

  lemma HealKeepsTeam(tplOf: Resolver, team: seq<Mon>)
    requires AllConsistent(tplOf, team)
    ensures TeamKept(tplOf, team, HealAll(team))
  {
    hide Consistent, Power;
    forall i | 0 <= i < |team| ensures Grew(team[i], HealAll(team)[i]) && Consistent(tplOf, HealAll(team)[i]) {
      assert team[i] in team;
      ConsistentHP(tplOf, team[i]);
      HpChangeConsistent(tplOf, team[i], team[i].stats.hp);
    }
  }

  lemma ConsistentHP(tplOf: Resolver, m: Mon)
    requires Consistent(tplOf, m)
    ensures 0 <= m.currentHP <= m.stats.hp
  {
  }

  lemma SetKeepsTeam(tplOf: Resolver, team: seq<Mon>, i: nat, m: Mon)
    requires AllConsistent(tplOf, team) && i < |team| && Consistent(tplOf, m) && Grew(team[i], m)
    ensures TeamKept(tplOf, team, team[i := m])
  {
    hide Consistent, Power;
    forall m' | m' in team[i := m] ensures Consistent(tplOf, m') {
      assert m' == m || m' in team;
    }
  }

  lemma GymKeepsTeam(env: Env, s: Run, gym: Gym)
    requires env.xpBuff >= 0.0 && AllConsistent(env.tplOf, s.trainer.team)
    ensures TeamKept(env.tplOf, s.trainer.team, DoGymChallenge(env, s, gym).0.trainer.team)
  {
    hide Consistent, Power, Gauntlet.Outcome, PartyIdx, Rewarded;
    var team, idx, g := s.trainer.team, PartyIdx(s.trainer.team), GymFight(env, s, gym);
    var end := g.Outcome(s.rng);
    var won := end.gymIdx == |gym.team|;
    var vals := Aftermath(env, g.party, end.hp, won, |gym.team|);
    GymOutcome(g, s.rng);
    forall j | 0 <= j < |idx| ensures Consistent(env.tplOf, vals[j]) && Grew(team[idx[j]], vals[j]) {
      assert team[idx[j]] in team;
      AfterGymConsistent(env, team[idx[j]], end.hp[j], won, |gym.team|);
    }
    PutKeepsTeam(env.tplOf, team, idx, vals);
  }

  lemma AfterGymConsistent(env: Env, m: Mon, hp: int, won: bool, leaders: nat)
    requires env.xpBuff >= 0.0 && Consistent(env.tplOf, m) && hp <= Max(0, m.currentHP)
    ensures var r := AfterGym(env, m, hp, won, leaders); Consistent(env.tplOf, r) && Grew(m, r)
  {
    hide Consistent, Rewarded;
    ConsistentHP(env.tplOf, m);
    HpChangeConsistent(env.tplOf, m, Max(0, hp));
    if won {
      RewardConsistent(env.tplOf, m.(currentHP := Max(0, hp)), GymXpReward(m.level, leaders, env.XpBuff()));
    }
  }

  lemma PutKeepsTeam(tplOf: Resolver, team: seq<Mon>, idx: seq<nat>, vals: seq<Mon>)
    requires AllConsistent(tplOf, team) && Increasing(idx, |team|) && |vals| == |idx|
    requires forall j | 0 <= j < |idx| :: Consistent(tplOf, vals[j]) && Grew(team[idx[j]], vals[j])
    ensures TeamKept(tplOf, team, Put(team, idx, vals))
  {
    hide Consistent, Power;
    var r := Put(team, idx, vals);
    forall i | 0 <= i < |team| ensures Grew(team[i], r[i]) && Consistent(tplOf, r[i]) {
      if i in idx {
        var j :| 0 <= j < |idx| && idx[j] == i;
      } else {
        assert team[i] in team;
      }
    }
  }

  // ---- What every tick keeps -----------------------------------------------------------------

  ghost predicate Sound(env: Env, v: TrainerView) {
    AllConsistent(env.tplOf, v.team) && AllConsistent(env.tplOf, v.box) && RosterOk(v)
  }

  /** Soundness, no smaller a roster, and once it is full no lower a floor under its power. */
  ghost predicate Kept(env: Env, v: TrainerView, v': TrainerView) {
    && Sound(env, v')
    && |v'.All()| >= |v.All()|
    && (Full(v) ==> Full(v'))
    && (forall p | Full(v) && PowerFloor(v, p) :: PowerFloor(v', p))
  }

  lemma {:induction false} GrownCounts(team: seq<Mon>, team': seq<Mon>, e: Element)
    requires TeamGrew(team, team')
    ensures CountPlain(team', e) == CountPlain(team, e)
  {
    hide Power;
    if team != [] {
      assert Grew(team[0], team'[0]);
      GrownCounts(team[1..], team'[1..], e);
    }
  }

  /** Replacing the team by one that grew in place keeps everything. */
  lemma GrownTeamKept(env: Env, v: TrainerView, v': TrainerView)
    requires Sound(env, v) && TeamKept(env.tplOf, v.team, v'.team) && v'.box == v.box
    ensures Kept(env, v, v')
  {
    hide Consistent, Power;
    forall e ensures CountPlain(v'.team, e) <= SAME_TYPE_LIMIT {
      GrownCounts(v.team, v'.team, e);
      assert CountPlain(v.team, e) <= SAME_TYPE_LIMIT;
    }
    GrownSpecies(v, v');
    forall p | PowerFloor(v, p) ensures PowerFloor(v', p) {
      GrownFloor(v, v', p);
    }
  }

  lemma GrownSpecies(v: TrainerView, v': TrainerView)
    requires UniqueSpecies(v.team, v.box) && TeamGrew(v.team, v'.team) && v'.box == v.box
    ensures UniqueSpecies(v'.team, v'.box)
  {
    hide Power;
    forall m, n | m in v'.team && n in v'.box ensures m.templateId != n.templateId {
      var i :| 0 <= i < |v'.team| && v'.team[i] == m;
      assert v.team[i] in v.team && Grew(v.team[i], v'.team[i]);
    }
    forall i, j | 0 <= i < j < |v'.team| ensures v'.team[i].templateId != v'.team[j].templateId {
      assert Grew(v.team[i], v'.team[i]) && Grew(v.team[j], v'.team[j]);
    }
  }

  lemma GrownFloor(v: TrainerView, v': TrainerView, p: int)
    requires PowerFloor(v, p) && TeamGrew(v.team, v'.team) && v'.box == v.box
    ensures PowerFloor(v', p)
  {
    hide Power;
    forall m | m in v'.All() ensures Power(m) >= p {
      if m in v'.box {
        assert m in v.All();
      } else {
        var i :| 0 <= i < |v'.team| && v'.team[i] == m;
        assert v.team[i] in v.All() && Grew(v.team[i], v'.team[i]);
      }
    }
  }

  lemma KeptTrans(env: Env, a: TrainerView, b: TrainerView, c: TrainerView)
    requires Kept(env, a, b) && Kept(env, b, c)
    ensures Kept(env, a, c)
  {
    hide Sound, PowerFloor, Full;
  }

  lemma PlaceConsistent(env: Env, v: TrainerView, wild: Mon)
    requires Sound(env, v) && Consistent(env.tplOf, wild)
    ensures AllConsistent(env.tplOf, Place(v, wild).team) && AllConsistent(env.tplOf, Place(v, wild).box)
  {
    hide Consistent, Power, WeakIdx, PlanFor, CountPlain, RosterOk;
    assert forall m | m in Place(v, wild).team || m in Place(v, wild).box :: m in v.team || m in v.box || m == wild;
  }

  lemma PlaceKept(env: Env, v: TrainerView, wild: Mon)
    requires Sound(env, v) && ShouldCatch(v, wild) && Consistent(env.tplOf, wild)
    ensures Kept(env, v, Place(v, wild))
  {
    hide Consistent, Power, WeakIdx, ShouldCatch, CountPlain, Place, AllConsistent, RosterOk, Full, PowerFloor;
    PlaceKeepsRoster(v, wild);
    PlaceConsistent(env, v, wild);
    forall p | Full(v) && PowerFloor(v, p) ensures PowerFloor(Place(v, wild), p) {
      PlaceRaisesFloor(v, wild, p);
    }
    if Full(v) {
      PlaceStaysFull(v, wild);
    }
  }

  lemma PlaceStaysFull(v: TrainerView, wild: Mon)
    requires Full(v)
    ensures Full(Place(v, wild))
  {
    hide Power;
  }

  // ---- The hunt ------------------------------------------------------------------------------

  lemma ThrowKept(env: Env, s: Run, wild: Mon, xp: int)
    requires Sound(env, s.trainer) && ShouldCatch(s.trainer, wild) && Consistent(env.tplOf, wild)
    ensures Kept(env, s.trainer, Throw(env, s, wild, xp).run.trainer)
  {
    hide Consistent, CatchRate, ShouldCatch, PlanFor, Surgery, CountPlain, Power;
    PlaceKept(env, s.trainer, wild);
  }

  lemma WinKept(env: Env, s: Run, lead: nat, wild: Mon)
    requires Sound(env, s.trainer) && lead < |s.trainer.team| && Consistent(env.tplOf, wild)
    ensures Kept(env, s.trainer, Win(env, s, lead, wild).run.trainer)
  {
    hide Consistent, Sound, Rewarded, Throw, ShouldCatch, AffectionAfterWin, Power;
    var m := s.trainer.team[lead];
    var fond := m.(affection := AffectionAfterWin(m, wild.level));
    var xp := WildXpReward(m.level, wild.level, env.XpBuff());
    SoundMember(env, s.trainer, lead);
    AffectionConsistent(env.tplOf, m, AffectionAfterWin(m, wild.level));
    RewardConsistent(env.tplOf, fond, xp);
    MemberKept(env, s, lead, Rewarded(env.tplOf, fond, xp));
    var t := SetMember(s, lead, Rewarded(env.tplOf, fond, xp));
    if ShouldCatch(t.trainer, wild) {
      ThrowKept(env, t, wild, xp);
      KeptTrans(env, s.trainer, t.trainer, Throw(env, t, wild, xp).run.trainer);
    }
  }

  lemma SoundMember(env: Env, v: TrainerView, i: nat)
    requires Sound(env, v) && i < |v.team|
    ensures Consistent(env.tplOf, v.team[i])
  {
    hide Consistent;
    assert v.team[i] in v.team;
  }

  lemma MemberKept(env: Env, s: Run, i: nat, m: Mon)
    requires Sound(env, s.trainer) && i < |s.trainer.team|
    requires Consistent(env.tplOf, m) && Grew(s.trainer.team[i], m)
    ensures Sound(env, SetMember(s, i, m).trainer) && Kept(env, s.trainer, SetMember(s, i, m).trainer)
  {
    hide Consistent, Power, Kept;
    SetKeepsTeam(env.tplOf, s.trainer.team, i, m);
    GrownTeamKept(env, s.trainer, SetMember(s, i, m).trainer);
    KeptSound(env, s.trainer, SetMember(s, i, m).trainer);
  }

  lemma KeptSound(env: Env, v: TrainerView, v': TrainerView)
    requires Kept(env, v, v')
    ensures Sound(env, v')
  {
  }

  /** Counters, badges and balls do not matter to what is kept. */
  lemma KeptIgnoresCounters(env: Env, a: TrainerView, b: TrainerView, c: TrainerView)
    requires Kept(env, a, b) && c.team == b.team && c.box == b.box
    ensures Kept(env, a, c)
  {
    hide Consistent, Power;
  }

  lemma FightKept(env: Env, s: Run, lead: nat, wild: Mon)
    requires Sound(env, s.trainer) && lead < |s.trainer.team| && Consistent(env.tplOf, wild)
    ensures Kept(env, s.trainer, Fight(env, s, lead, wild).run.trainer)
  {
    hide Consistent, Sound, Kept, AutoFight, Win, Power;
    var m := s.trainer.team[lead];
    var fight := AutoFight(env.rules, m, wild, s.rng);
    SoundMember(env, s.trainer, lead);
    ConsistentHP(env.tplOf, m);
    HpChangeConsistent(env.tplOf, m, fight.value.hpRemaining);
    MemberKept(env, s, lead, m.(currentHP := fight.value.hpRemaining));
    var hurt := SetMember(s, lead, m.(currentHP := fight.value.hpRemaining));
    var t := hurt.(agent := Battling, rng := fight.next,
                   trainer := hurt.trainer.(totalBattles := s.trainer.totalBattles + 1));
    KeptIgnoresCounters(env, s.trainer, hurt.trainer, t.trainer);
    KeptSound(env, s.trainer, t.trainer);
    if fight.value.won {
      WinKept(env, t, lead, wild);
      KeptTrans(env, s.trainer, t.trainer, Win(env, t, lead, wild).run.trainer);
    }
  }

  lemma HealKept(env: Env, s: Run)
    requires Sound(env, s.trainer)
    ensures Kept(env, s.trainer, HealTeam(s).trainer)
  {
    hide Consistent, Kept, HealAll, Power;
    HealKeepsTeam(env.tplOf, s.trainer.team);
    GrownTeamKept(env, s.trainer, HealTeam(s).trainer);
  }

  lemma KeptReflexive(env: Env, v: TrainerView)
    requires Sound(env, v)
    ensures Kept(env, v, v)
  {
  }

  lemma GeneratedConsistent(env: Env, route: Route, s: Word)
    requires GoodSetting(env) && route in env.world.routes
    ensures var w := GenerateWild(env, route, s).value; w.Some? ==> Consistent(env.tplOf, w.value)
  {
    hide WildOf, Consistent, RollSpecies, RollLevel, Thriving;
    var species := RollSpecies(env, route, s);
    if species.value.0.Some? && env.tplOf(species.value.0.value).Some? {
      var t := env.tplOf(species.value.0.value).value;
      RollLevelPositive(env, route, species.value.1, species.next);
      SpeciesFromPool(env, route, s);
      assert FitForPool(env.tplOf, species.value.0.value);
      WildConsistent(env.tplOf, t, RollLevel(env, route, species.value.1, species.next).value);
    }
  }

  lemma SpeciesFromPool(env: Env, route: Route, s: Word)
    ensures var id := RollSpecies(env, route, s).value.0;
            id.Some? ==> id.value in route.wildPool || id.value in route.rarePool
  {
    hide RareChance, RollChance;
  }

  lemma RollLevelPositive(env: Env, route: Route, isRare: bool, s: Word)
    requires route.levelRange.0 >= 1 && route.levelRange.1 >= 1
    ensures RollLevel(env, route, isRare, s).value >= 1
  {
  }

  lemma HuntKept(env: Env, s: Run, town: Town, forced: bool)
    requires GoodSetting(env) && Sound(env, s.trainer)
    ensures Kept(env, s.trainer, DoWildEncounter(env, s, town, forced).run.trainer)
  {
    hide Consistent, Sound, Kept, Fight, HealTeam, GenerateWild, Stir, GoodSetting;
    KeptReflexive(env, s.trainer);
    if town.routes != [] && RouteById(env.world.routes, town.routes[0]).Some? {
      var route := RouteById(env.world.routes, town.routes[0]).value;
      var stir := Stir(env, route, forced, s.rng);
      var found := GenerateWild(env, route, stir.next);
      var t := s.(agent := Hunting, rng := found.next);
      GeneratedConsistent(env, route, stir.next);
      HealKept(env, t);
      var lead := FirstAlive(t.trainer.team);
      if found.value.Some? && lead < |t.trainer.team| {
        FightKept(env, t, lead, found.value.value);
      }
    }
  }

  // ---- Ticks and runs ------------------------------------------------------------------------

  lemma GymKept(env: Env, s: Run, gym: Gym)
    requires env.xpBuff >= 0.0 && Sound(env, s.trainer)
    ensures Kept(env, s.trainer, DoGymChallenge(env, s, gym).0.trainer)
  {
    hide Consistent, Kept, Power;
    GymKeepsTeam(env, s, gym);
    GrownTeamKept(env, s.trainer, DoGymChallenge(env, s, gym).0.trainer);
  }

  lemma BuffIsFine(env: Env)
    requires GoodSetting(env)
    ensures env.xpBuff >= 0.0
  {
  }

  lemma TickKeeps(env: Env, s: Run)
    requires GoodSetting(env) && Sound(env, s.trainer)
    ensures Kept(env, s.trainer, Tick(env, s).run.trainer)
  {
    hide Consistent, Sound, Kept, DoWildEncounter, DoGymChallenge, HealTeam, GoodSetting, Eligible, NextStop, NeedsHeal;
    KeptReflexive(env, s.trainer);
    var found := TownById(env.world.towns, s.trainer.location);
    if found.Some? {
      var town := found.value;
      var (go, cooldown) :=
        if s.trainer.strategy.autoGym then ShouldChallengeGym(env, s, town) else (false, s.cooldown);
      var s' := s.(cooldown := cooldown);
      HealKept(env, s);
      if go {
        assert env.xpBuff >= 0.0 by { BuffIsFine(env); }
        GymKept(env, s', town.gym.value);
      }
      HuntKept(env, s', town, false);
      var next := NextStop(env, s.trainer, town);
      if next.Some? {
        MoveKept(env, s', next.value);
      }
    }
  }

  lemma MoveKept(env: Env, s: Run, to: Town)
    requires Sound(env, s.trainer)
    ensures Kept(env, s.trainer, MoveTo(s, to).trainer)
  {
    hide Consistent, Kept, HealTeam;
    var moved := s.(agent := Moving, trainer := s.trainer.(location := to.id));
    KeptReflexive(env, s.trainer);
    KeptIgnoresCounters(env, s.trainer, s.trainer, moved.trainer);
    HealKept(env, moved);
    KeptTrans(env, s.trainer, moved.trainer, HealTeam(moved).trainer);
  }

  /** Every run keeps its members consistent and its roster in shape, never shrinks it, and never weakens a full one. */
  lemma {:induction false} RunKeeps(env: Env, s: Run, n: nat)
    requires GoodSetting(env) && Sound(env, s.trainer)
    ensures Kept(env, s.trainer, RunTicks(env, s, n).trainer)
  {
    hide Sound, Kept, Tick, GoodSetting;
    if n == 0 {
      KeptReflexive(env, s.trainer);
    } else {
      var before := RunTicks(env, s, n - 1);
      RunKeeps(env, s, n - 1);
      KeptSound(env, s.trainer, before.trainer);
      TickKeeps(env, before);
      KeptTrans(env, s.trainer, before.trainer, Tick(env, before).run.trainer);
    }
  }

  /** So in every run each owned monster's stats are on the lines of its species, stat by stat. */
  lemma RunStatsOnLine(env: Env, s: Run, n: nat)
    requires GoodSetting(env) && Sound(env, s.trainer)
    ensures forall m | m in RunTicks(env, s, n).trainer.All() ::
              env.tplOf(m.templateId).Some? && StatsOnLine(env.tplOf(m.templateId).value, m.level, m.stats)
  {
    hide GoodSetting, RunTicks, RosterOk, StatsOnLine, StatsAtLevel;
    RunKeeps(env, s, n);
    var v := RunTicks(env, s, n).trainer;
    forall m | m in v.All()
      ensures env.tplOf(m.templateId).Some? && StatsOnLine(env.tplOf(m.templateId).value, m.level, m.stats)
    {
      assert m in v.team || m in v.box;
      assert Consistent(env.tplOf, m);
      StatsAreOnLine(env.tplOf(m.templateId).value, m.level);
    }
  }

  /** A new trainer's roster, one fresh starter or none, is sound. */
  lemma StarterIsSound(env: Env, v: TrainerView, t: Template, level: nat)
    requires env.tplOf(t.id) == Some(t) && Thriving(t) && level >= 1
    requires v.box == [] && (v.team == [] || v.team == [CreateMonster(t, level)])
    ensures Sound(env, v)
  {
    var m := CreateMonster(t, level);
    InterpMono(t.base.hp, TargetStatsFor(t).hp, level, level);
    if level < MAX_LEVEL {
      CurveIncreases(level);
    }
    assert Consistent(env.tplOf, m);
    forall e ensures CountPlain(v.team, e) <= SAME_TYPE_LIMIT {
      assert CountPlain([], e) == 0;
      assert [m][1..] == [];
    }
  }
}
