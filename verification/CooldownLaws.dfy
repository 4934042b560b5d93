/** The gym cooldown is not saved: exactly which saves still resume exactly, and what breaks after a lost gym. */
module CooldownLaws {
  import opened Wrappers
  import opened Random
  import opened Monsters
  import opened Battle
  import opened Progression
  import opened Team
  import opened Ticks
  import opened Save
  import opened ResumeLaws
  import BadgeLaws

  /** A tick that the cooldown holds back: a gym challenge with every other gate open. */
  predicate CooldownMatters(env: Env, s: Run) {
    && s.cooldown > 0
    && s.trainer.strategy.autoGym
    && !NeedsHeal(s.trainer)
    && (var town := TownById(env.world.towns, s.trainer.location);
        town.Some? && Eligible(env, s.trainer, town.value))
  }

  /** The run whose cooldown was dropped. */
  function Dropped(s: Run): Run {
    s.(cooldown := 0)
  }

  // ---- One tick ------------------------------------------------------------------------------

  /** While somebody stands, a hunt either counts a battle or leaves the team alone. */
  lemma HuntFightsOrLeaves(env: Env, s: Run, town: Town)
    requires !AllFainted(s.trainer.team)
    ensures var v := DoWildEncounter(env, s, town, false).run.trainer;
            v.totalBattles == s.trainer.totalBattles + 1 || v == s.trainer
  {
    hide Fight, HealAll, GenerateWild, Stir;
    var lead := FirstAlive(s.trainer.team);
    forall r: Run, wild: Mon | r.trainer == s.trainer && lead < |s.trainer.team|
      ensures Fight(env, r, lead, wild).run.trainer.totalBattles == s.trainer.totalBattles + 1
    {
      FightCounts(env, r, lead, wild);
    }
  }

  lemma FightCounts(env: Env, s: Run, lead: nat, wild: Mon)
    requires lead < |s.trainer.team|
    ensures Fight(env, s, lead, wild).run.trainer.totalBattles == s.trainer.totalBattles + 1
  {
    hide AutoFight, Rewarded, ShouldCatch, CatchRate, PlanFor, Surgery, AffectionAfterWin;
  }

  /** A challenge shows: it wins a badge or fells somebody who stood, and counts no battle. */
  lemma ChallengeShows(env: Env, s: Run, gym: Gym)
    requires !AllFainted(s.trainer.team)
    ensures var (r, won) := DoGymChallenge(env, s, gym);
            && r.trainer.totalBattles == s.trainer.totalBattles
            && (if won then |r.trainer.badges| == |s.trainer.badges| + 1
                else exists i | 0 <= i < |s.trainer.team| ::
                       s.trainer.team[i].currentHP > 0 && r.trainer.team[i].currentHP == 0)
  {
    hide Gauntlet.Outcome, Rewarded, AliveUpTo;
    var team, idx, g := s.trainer.team, PartyIdx(s.trainer.team), GymFight(env, s, gym);
    GymOutcome(g, s.rng);
    var m :| m in team && m.currentHP > 0;
    var i :| 0 <= i < |team| && team[i] == m;
    assert i in AliveUpTo(team, |team|);
    assert idx != [];
    var end := g.Outcome(s.rng);
    if end.gymIdx != |gym.team| {
      var vals := Aftermath(env, g.party, end.hp, false, |gym.team|);
      assert vals[0].currentHP == 0;
      assert idx[0] in idx && Put(team, idx, vals)[idx[0]] == vals[0];
    }
  }

  /** What a stripped trainer still shows. */
  lemma StripShows(v: TrainerView, w: TrainerView)
    requires StripTrainer(v) == StripTrainer(w)
    ensures v.badges == w.badges && v.totalBattles == w.totalBattles && |v.team| == |w.team|
    ensures forall i | 0 <= i < |v.team| :: v.team[i].currentHP == w.team[i].currentHP
  {
    forall i | 0 <= i < |v.team| ensures v.team[i].currentHP == w.team[i].currentHP {
      assert StripAll(v.team)[i] == StripAll(w.team)[i];
    }
  }

  /** A tick that the cooldown does not hold back goes on alike without it. */
  lemma HarmlessTick(env: Env, s: Run)
    requires s.cooldown > 0 && !CooldownMatters(env, s)
    ensures Tick(env, Dropped(s)).run == Dropped(Tick(env, s).run)
  {
    hide DoWildEncounter, DoGymChallenge, HealAll, NeedsHeal, Eligible;
    var found := TownById(env.world.towns, s.trainer.location);
    if found.Some? && !NeedsHeal(s.trainer) {
      var town := found.value;
      HuntIgnoresCooldown(env, s, town, s.cooldown - 1);
      HuntIgnoresCooldown(env, s, town, s.cooldown);
      HuntIgnoresCooldown(env, s, town, 0);
      MoveIgnoresCooldown(env, s, town);
    }
  }

  /** A tick that it does hold back leaves another trainer, cached moves aside. */
  lemma HeldBackTick(env: Env, s: Run)
    requires CooldownMatters(env, s)
    ensures StripTrainer(Tick(env, Dropped(s)).run.trainer) != StripTrainer(Tick(env, s).run.trainer)
  {
    hide DoWildEncounter, DoGymChallenge, HealAll, NeedsHeal, Eligible, StripTrainer;
    var town := TownById(env.world.towns, s.trainer.location).value;
    var later := s.(cooldown := s.cooldown - 1);
    EligibleStands(env, s.trainer, town);
    HuntFightsOrLeaves(env, later, town);
    BadgelessStays(env, s.trainer, town);
    HuntStaysPut(env, later, town);
    ChallengeShows(env, Dropped(s), town.gym.value);
    var v, w := Tick(env, Dropped(s)).run.trainer, Tick(env, s).run.trainer;
    if StripTrainer(v) == StripTrainer(w) {
      StripShows(v, w);
    }
  }

  lemma EligibleStands(env: Env, v: TrainerView, town: Town)
    requires Eligible(env, v, town)
    ensures !AllFainted(v.team) && town.gym.Some? && town.gym.value.badge !in v.badges
  {
  }

  lemma BadgelessStays(env: Env, v: TrainerView, town: Town)
    requires town.gym.Some? && town.gym.value.badge !in v.badges
    ensures NextStop(env, v, town) == None
  {
  }

  lemma HuntStaysPut(env: Env, s: Run, town: Town)
    ensures DoWildEncounter(env, s, town, false).run.trainer.badges == s.trainer.badges
  {
    BadgeLaws.HuntStays(env, s, town, false);
  }

  lemma HuntIgnoresCooldown(env: Env, s: Run, town: Town, c: nat)
    ensures DoWildEncounter(env, s.(cooldown := c), town, false).run
         == DoWildEncounter(env, s, town, false).run.(cooldown := c)
  {
    hide AutoFight, Rewarded, ShouldCatch, Stir, GenerateWild, CatchRate, PlanFor, Surgery, HealAll;
    hide AffectionAfterWin, WildXpReward;
  }

  lemma MoveIgnoresCooldown(env: Env, s: Run, town: Town)
    ensures forall c: nat :: MoveTo(s.(cooldown := c), town) == MoveTo(s, town).(cooldown := c)
  {
  }

  // ---- Whole runs ----------------------------------------------------------------------------

  /** The cooldown has not yet run out in the first `n` ticks. */
  ghost predicate Pending(env: Env, s: Run, n: nat) {
    forall j | 0 <= j <= n :: RunTicks(env, s, j).cooldown > 0
  }

  /** No tick among the first `n` is held back by the cooldown that was there at the start. */
  ghost predicate NeverHeldBack(env: Env, s: Run, n: nat) {
    forall i | 0 <= i < n && Pending(env, s, i) :: !CooldownMatters(env, RunTicks(env, s, i))
  }

  /** Until the first tick held back, the run without the cooldown is the run, and once the cooldown is out it is it. */
  lemma {:induction false} HarmlessRun(env: Env, s: Run, n: nat)
    requires NeverHeldBack(env, s, n)
    ensures RunTicks(env, Dropped(s), n)
         == if Pending(env, s, n) then Dropped(RunTicks(env, s, n)) else RunTicks(env, s, n)
  {
    hide Tick, CooldownMatters;
    if n == 0 {
      assert RunTicks(env, s, 0) == s;
    } else {
      HarmlessRun(env, s, n - 1);
      var before := RunTicks(env, s, n - 1);
      if Pending(env, s, n - 1) {
        assert before.cooldown > 0;
        HarmlessTick(env, before);
      }
      assert Pending(env, s, n) ==> Pending(env, s, n - 1);
    }
  }

  /** A held-back tick while the cooldown is pending shows in the trainer right after it. */
  lemma FirstHeldBack(env: Env, s: Run, i: nat)
    requires NeverHeldBack(env, s, i) && Pending(env, s, i) && CooldownMatters(env, RunTicks(env, s, i))
    ensures StripTrainer(RunTicks(env, Dropped(s), i + 1).trainer) != StripTrainer(RunTicks(env, s, i + 1).trainer)
  {
    hide Tick, CooldownMatters, StripTrainer;
    HarmlessRun(env, s, i);
    HeldBackTick(env, RunTicks(env, s, i));
  }

  lemma {:induction false} HeldBackSomewhere(env: Env, s: Run, n: nat) returns (i: nat)
    requires !NeverHeldBack(env, s, n)
    ensures i < n && NeverHeldBack(env, s, i) && Pending(env, s, i) && CooldownMatters(env, RunTicks(env, s, i))
  {
    hide CooldownMatters, Pending;
    if NeverHeldBack(env, s, n - 1) {
      i := n - 1;
    } else {
      i := HeldBackSomewhere(env, s, n - 1);
    }
  }

  /** The two runs have the same trainer throughout the first `n` ticks, cached moves aside. */
  ghost predicate SameTrainers(env: Env, r: Run, s: Run, n: nat) {
    forall i | 0 <= i <= n :: StripTrainer(RunTicks(env, r, i).trainer) == StripTrainer(RunTicks(env, s, i).trainer)
  }

  /** Dropping the cooldown goes unseen for `n` ticks exactly when it holds back none of them. */
  lemma CooldownLossShows(env: Env, s: Run, n: nat)
    ensures SameTrainers(env, Dropped(s), s, n) <==> NeverHeldBack(env, s, n)
  {
    hide Tick, CooldownMatters, Pending, StripTrainer;
    if NeverHeldBack(env, s, n) {
      forall i | 0 <= i <= n
        ensures StripTrainer(RunTicks(env, Dropped(s), i).trainer) == StripTrainer(RunTicks(env, s, i).trainer)
      {
        HarmlessRun(env, s, i);
      }
    } else {
      var i := HeldBackSomewhere(env, s, n);
      FirstHeldBack(env, s, i);
    }
  }

  /**
    * A save with the generator resumes exactly for `n` ticks if and only if the cooldown, which is not saved, holds
    * back no challenge while it is pending.
    */
  lemma ResumeIsExactIff(env: Env, s: Run, n: nat)
    requires s.trainer.location != ""
    ensures var r := Resumed(SaveTrainer(s.trainer, Some(s.rng)));
            r.Some? && (SameTrainers(env, r.value, s, n) <==> NeverHeldBack(env, s, n))
  {
    hide NeverHeldBack, StripTrainer, RunTicks;
    ResumesBare(s);
    CooldownLossShows(env, s, n);
    forall i | 0 <= i <= n
      ensures StripTrainer(RunTicks(env, Bare(Dropped(s)), i).trainer)
           == StripTrainer(RunTicks(env, Dropped(s), i).trainer)
    {
      BareTwice(Dropped(s));
      RunsFollowBareState(env, Bare(Dropped(s)), Dropped(s), i);
    }
  }

  // ---- After a lost gym ----------------------------------------------------------------------

  /** A team of at most four, nobody above full HP. */
  ghost predicate SmallTeam(v: TrainerView) {
    |v.team| <= PARTY_SIZE && forall m | m in v.team :: m.currentHP <= m.stats.hp
  }

  /** Members that fought at HP 0 and members that could not fight: everybody is down, and nothing else changed. */
  lemma LossFellsAll(env: Env, s: Run, gym: Gym)
    requires SmallTeam(s.trainer) && !DoGymChallenge(env, s, gym).1
    ensures var r := DoGymChallenge(env, s, gym).0;
            && AllFainted(r.trainer.team) && r.cooldown == 5
            && r.trainer == s.trainer.(team := r.trainer.team) && |r.trainer.team| == |s.trainer.team|
            && (forall i | 0 <= i < |s.trainer.team| ::
                  && r.trainer.team[i].stats == s.trainer.team[i].stats
                  && r.trainer.team[i].level == s.trainer.team[i].level)
  {
    hide Gauntlet.Outcome, Rewarded;
    var team, idx, g := s.trainer.team, PartyIdx(s.trainer.team), GymFight(env, s, gym);
    GymOutcome(g, s.rng);
    AliveAtMost(team, |team|);
    var end := g.Outcome(s.rng);
    var vals := Aftermath(env, g.party, end.hp, false, |gym.team|);
    var after := Put(team, idx, vals);
    forall i | 0 <= i < |team|
      ensures after[i].currentHP <= 0 && after[i].stats == team[i].stats && after[i].level == team[i].level
    {
      if i in idx {
        var j :| 0 <= j < |idx| && idx[j] == i;
        assert after[idx[j]] == vals[j];
      }
    }
  }

  lemma {:induction false} AliveAtMost(team: seq<Mon>, n: nat)
    requires n <= |team|
    ensures |AliveUpTo(team, n)| <= n
  {
    if n > 0 {
      AliveAtMost(team, n - 1);
    }
  }

  /** Two ticks after any lost challenge the team is healed and the cooldown holds back the next one. */
  lemma LostGymIsPending(env: Env, s: Run)
    requires SmallTeam(s.trainer) && Tick(env, s).result.action == Challenge(false)
    ensures CooldownMatters(env, RunTicks(env, s, 2)) && RunTicks(env, s, 2).trainer.location == s.trainer.location
  {
    hide DoWildEncounter, DoGymChallenge, NextStop, PreviousBeaten;
    var town := TownById(env.world.towns, s.trainer.location).value;
    var lost := RunTicks(env, s, 1);
    assert lost == Tick(env, RunTicks(env, s, 0)).run;
    assert ShouldChallengeGym(env, s, town).0;
    var tried := s.(cooldown := 0);
    assert lost == DoGymChallenge(env, tried, town.gym.value).0;
    LossFellsAll(env, tried, town.gym.value);
    var healed := RunTicks(env, s, 2);
    assert healed == HealTeam(lost);
    SomeoneStands(s.trainer.team, lost.trainer.team);
  }

  /** Healing brings back a team of which somebody stood before the fight. */
  lemma SomeoneStands(before: seq<Mon>, after: seq<Mon>)
    requires !AllFainted(before) && (forall m | m in before :: m.currentHP <= m.stats.hp) && |after| == |before|
    requires forall i | 0 <= i < |before| :: after[i].stats == before[i].stats
    ensures !AllFainted(HealAll(after)) && !LeadNeedsHeal(HealAll(after))
  {
    var m :| m in before && m.currentHP > 0;
    var i :| 0 <= i < |before| && before[i] == m;
    assert HealAll(after)[i] in HealAll(after);
  }

  /** So a save made there never resumes exactly: the very next tick differs. */
  lemma LostGymBreaksResume(env: Env, s: Run)
    requires SmallTeam(s.trainer) && Tick(env, s).result.action == Challenge(false) && s.trainer.location != ""
    ensures var saved := RunTicks(env, s, 2);
            var r := Resumed(SaveTrainer(saved.trainer, Some(saved.rng)));
            r.Some? && !SameTrainers(env, r.value, saved, 1)
  {
    hide Tick, CooldownMatters, Resumed, SaveTrainer, SameTrainers;
    LostGymIsPending(env, s);
    var saved := RunTicks(env, s, 2);
    ResumeIsExactIff(env, saved, 1);
    assert RunTicks(env, saved, 0) == saved;
    MattersIsPending(env, saved);
    assert Pending(env, saved, 0);
  }

  lemma MattersIsPending(env: Env, s: Run)
    requires CooldownMatters(env, s)
    ensures s.cooldown > 0
  {
  }

  // ---- One such run --------------------------------------------------------------------------

  function Boulder(): Template {
    Template(2, Rock, Stats(50, 50, 50, 50), None, None, 0, 0, None)
  }

  function OnlyBoulder(id: int): Option<Template> {
    if id == 2 then Some(Boulder()) else None
  }

  function Summit(): Town {
    Town("summit", Some(Gym("peak", [GymEntry(2, 5)], 1)), [], "", "")
  }

  function Climb(): Env {
    Env(World([Summit()], []), OnlyBoulder, Rules(Lowest, Even), Buffs(1.0, 1.0), 1.0)
  }

  function Frail(): Mon {
    Mon(1, Fire, 5, 0, 0, Stats(1, 1, 1, 0), 1, 0, 0, None, 0.0, None)
  }

  /** A trainer with one frail monster before a gym. */
  function Climber(): Run {
    Run(TrainerView([Frail()], [], [], "summit", 0, 0, 0, Strategy(true, true, true, true, true, map[])), 0, 0, Idle)
  }

  /** The leader's monster is faster, and one hit fells a monster of one HP. */
  lemma FrailFalls(rules: Rules, s: Word)
    ensures var foe := MakeCombatant(Boulder(), 5);
            var end := DuelToTheEnd(rules, Frail(), foe, Duel(1, foe.stats.hp, s));
            end.mine <= 0 && end.theirs > 0
  {
    hide DamageFrom;
    var foe := MakeCombatant(Boulder(), 5);
    assert foe.stats.spd == 10;
    var d := Duel(1, foe.stats.hp, s);
    var e := Exchange(rules, Frail(), foe, d);
    assert e.mine <= 0 && e.theirs == d.theirs;
    assert DuelToTheEnd(rules, Frail(), foe, d) == DuelToTheEnd(rules, Frail(), foe, e) == e;
  }

  lemma ClimberLoses()
    ensures !DoGymChallenge(Climb(), Climber(), Summit().gym.value).1
  {
    hide DuelToTheEnd, MakeCombatant, Boulder, Aftermath, Put;
    var team := [Frail()];
    assert AliveUpTo(team, 1) == AliveUpTo(team, 0) + [0];
    assert PartyIdx(team) == [0];
    var g := GymFight(Climb(), Climber(), Summit().gym.value);
    assert g.party == [Frail()];
    FrailFalls(g.rules, Climber().rng);
    var c := g.Start(Climber().rng);
    assert g.tplOf(2) == Some(Boulder());
    var next := g.Round(c);
    assert next.partyIdx == 1 && next.gymIdx == 0;
    assert g.Rounds(c) == g.Rounds(next) == next;
  }

  /** Its first tick loses the gym, and a save two ticks later does not resume exactly. */
  lemma ClimberCannotResume()
    ensures Tick(Climb(), Climber()).result.action == Challenge(false)
    ensures var saved := RunTicks(Climb(), Climber(), 2);
            var r := Resumed(SaveTrainer(saved.trainer, Some(saved.rng)));
            r.Some? && !SameTrainers(Climb(), r.value, saved, 1)
  {
    ClimberChallenges();
    ClimberLoses();
    hide DoGymChallenge, DoWildEncounter, NextStop, Climb, RunTicks, Resumed, SaveTrainer, SameTrainers;
    LostGymBreaksResume(Climb(), Climber());
  }

  lemma ClimberChallenges()
    ensures TownById(Climb().world.towns, "summit") == Some(Summit())
    ensures !NeedsHeal(Climber().trainer)
    ensures ShouldChallengeGym(Climb(), Climber(), Summit()) == (true, 0)
  {
    var towns := [Summit()];
    assert Frail() in Climber().trainer.team;
    assert GymTowns(towns[..0]) == [];
    assert GymTowns(towns) == InsertTown([], Summit()) == [Summit()];
    assert IndexOfTown([Summit()], "summit") == 0;
  }
}
