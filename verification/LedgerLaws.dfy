/** Over every run, balls, catches, fights, badges and the roster's size balance against what the ticks report. */
module LedgerLaws {
  import opened Numbers
  import opened Monsters
  import opened Battle
  import opened Team
  import opened Ticks
  import opened BadgeLaws

  // ---- What a tick reports -------------------------------------------------------------------

  datatype Tally = Tally(throws: nat, catches: nat, fights: nat, wins: nat)

  predicate Threw(e: Encounter) {
    e.log == [CaughtWild] || e.log == [BrokeFree]
  }

  predicate Fought(e: Encounter) {
    e.encountered && e.log != [TooStrong]
  }

  function TallyOf(r: TickResult): Tally {
    Tally(One(r.encounter.Some? && Threw(r.encounter.value)), One(r.action == Capture),
          One(r.encounter.Some? && Fought(r.encounter.value)), One(r.action == Challenge(true)))
  }

  function Total(rs: seq<TickResult>): Tally {
    if rs == [] then Tally(0, 0, 0, 0)
    else
      var front, last := Total(rs[..|rs| - 1]), TallyOf(rs[|rs| - 1]);
      Tally(front.throws + last.throws, front.catches + last.catches,
            front.fights + last.fights, front.wins + last.wins)
  }

  // ---- One tick ------------------------------------------------------------------------------

  predicate AtCapacity(v: TrainerView) {
    |v.team| >= PARTY_SIZE && |v.box| >= BOX_SIZE
  }

  /** The changes a tick makes to the counters, given its tally. */
  ghost predicate Balanced(v: TrainerView, v': TrainerView, t: Tally) {
    && v'.balls + t.throws == v.balls + 3 * t.wins
    && |v'.badges| == |v.badges| + t.wins
    && v'.totalCaught == v.totalCaught + t.catches
    && v'.totalBattles == v.totalBattles + t.fights
    && t.catches <= t.throws <= t.fights
    && (v.balls >= 0 ==> v'.balls >= 0)
  }

  /** Every catch adds one member: to the party below four, then to the box below six, and to neither beyond. */
  ghost predicate Grown(v: TrainerView, v': TrainerView, catches: nat) {
    && |v'.team| == |v.team| + (if |v.team| < 4 then catches else 0)
    && |v'.box| == |v.box| + (if |v.team| >= 4 && |v.box| < 6 then catches else 0)
  }

  lemma ThrowBalances(env: Env, s: Run, wild: Mon, xp: int)
    requires ShouldCatch(s.trainer, wild)
    ensures var h := Throw(env, s, wild, xp);
            && Threw(h.enc) && Fought(h.enc)
            && h.run.trainer.balls == s.trainer.balls - 1 >= 0
            && h.run.trainer.badges == s.trainer.badges
            && h.run.trainer.totalBattles == s.trainer.totalBattles
            && h.run.trainer.totalCaught == s.trainer.totalCaught + One(h.enc.caught)
            && Grown(s.trainer, h.run.trainer, One(h.enc.caught))
  {
    hide CatchRate, Power;
    var v := s.trainer.(balls := s.trainer.balls - 1);
    CaughtIsPlaced(s.trainer, wild);
    assert PlanFor(v.team, v.box, wild) != Refuse;
  }

  lemma FightBalances(env: Env, s: Run, lead: nat, wild: Mon)
    requires lead < |s.trainer.team|
    ensures var h := Fight(env, s, lead, wild);
            && Fought(h.enc)
            && Balanced(s.trainer, h.run.trainer, Tally(One(Threw(h.enc)), One(h.enc.caught), 1, 0))
            && Grown(s.trainer, h.run.trainer, One(h.enc.caught))
  {
    hide AutoFight, Rewarded, Throw, ShouldCatch, AffectionAfterWin;
    var m := s.trainer.team[lead];
    var fight := AutoFight(env.rules, m, wild, s.rng);
    var hurt := SetMember(s, lead, m.(currentHP := fight.value.hpRemaining));
    var t := hurt.(agent := Battling, rng := fight.next,
                   trainer := hurt.trainer.(totalBattles := s.trainer.totalBattles + 1));
    if fight.value.won {
      WinBalances(env, t, lead, wild);
    }
  }

  lemma WinBalances(env: Env, s: Run, lead: nat, wild: Mon)
    requires lead < |s.trainer.team|
    ensures var h := Win(env, s, lead, wild);
            && Fought(h.enc)
            && Balanced(s.trainer.(totalBattles := 0), h.run.trainer.(totalBattles := 1),
                        Tally(One(Threw(h.enc)), One(h.enc.caught), 1, 0))
            && h.run.trainer.totalBattles == s.trainer.totalBattles
            && Grown(s.trainer, h.run.trainer, One(h.enc.caught))
  {
    hide Rewarded, Throw, ShouldCatch, AffectionAfterWin;
    var m := s.trainer.team[lead];
    var xp := Progression.WildXpReward(m.level, wild.level, env.XpBuff());
    var grown := Rewarded(env.tplOf, m.(affection := AffectionAfterWin(m, wild.level)), xp);
    var t := SetMember(s, lead, grown);
    if ShouldCatch(t.trainer, wild) {
      ThrowBalances(env, t, wild, xp);
    }
  }

  lemma HuntBalances(env: Env, s: Run, town: Town, forced: bool)
    ensures var h := DoWildEncounter(env, s, town, forced);
            && Balanced(s.trainer, h.run.trainer,
                        Tally(One(Threw(h.enc)), One(h.enc.caught), One(Fought(h.enc)), 0))
            && Grown(s.trainer, h.run.trainer, One(h.enc.caught))
  {
    hide Fight, HealAll, GenerateWild, Stir;
    var lead := FirstAlive(s.trainer.team);
    forall r: Run, wild: Mon | r.trainer == s.trainer && lead < |s.trainer.team|
      ensures var h := Fight(env, r, lead, wild);
              && Fought(h.enc)
              && Balanced(s.trainer, h.run.trainer, Tally(One(Threw(h.enc)), One(h.enc.caught), 1, 0))
              && Grown(s.trainer, h.run.trainer, One(h.enc.caught))
    {
      FightBalances(env, r, lead, wild);
    }
  }

  lemma TickBalances(env: Env, s: Run)
    ensures var t := Tick(env, s);
            && Balanced(s.trainer, t.run.trainer, TallyOf(t.result))
            && TallyOf(t.result).fights <= 1
            && Grown(s.trainer, t.run.trainer, TallyOf(t.result).catches)
  {
    hide DoWildEncounter, Put, Gauntlet.Outcome, Aftermath, PartyIdx, HealAll, Eligible, NextStop, NeedsHeal;
    var found := TownById(env.world.towns, s.trainer.location);
    if found.Some? {
      var (go, cooldown) :=
        if s.trainer.strategy.autoGym then ShouldChallengeGym(env, s, found.value) else (false, s.cooldown);
      HuntBalances(env, s.(cooldown := cooldown), found.value, false);
    }
  }

  // ---- Whole runs ----------------------------------------------------------------------------

  lemma ResultsStep(env: Env, s: Run, n: nat)
    requires n > 0
    ensures Total(Results(env, s, n)).throws
         == Total(Results(env, s, n - 1)).throws + TallyOf(Tick(env, RunTicks(env, s, n - 1)).result).throws
    ensures Total(Results(env, s, n)).catches
         == Total(Results(env, s, n - 1)).catches + TallyOf(Tick(env, RunTicks(env, s, n - 1)).result).catches
    ensures Total(Results(env, s, n)).fights
         == Total(Results(env, s, n - 1)).fights + TallyOf(Tick(env, RunTicks(env, s, n - 1)).result).fights
    ensures Total(Results(env, s, n)).wins
         == Total(Results(env, s, n - 1)).wins + TallyOf(Tick(env, RunTicks(env, s, n - 1)).result).wins
  {
    hide Tick, TallyOf;
    var rs := Results(env, s, n);
    assert rs[..n - 1] == Results(env, s, n - 1);
  }

  /** Balls held and thrown are the starting balls and three per badge; catches, throws and fights nest within ticks. */
  lemma {:induction false} RunBalances(env: Env, s: Run, n: nat)
    ensures var t := Total(Results(env, s, n));
            Balanced(s.trainer, RunTicks(env, s, n).trainer, t) && t.fights <= n
  {
    hide Tick, TallyOf;
    if n > 0 {
      RunBalances(env, s, n - 1);
      ResultsStep(env, s, n);
      TickBalances(env, RunTicks(env, s, n - 1));
    }
  }

  /** A run from a trainer without badges catches at most its starting balls and three for each gym of the world. */
  lemma CatchesBounded(env: Env, s: Run, n: nat)
    requires WellFormed(env.world) && s.trainer.badges == [] && s.trainer.balls >= 0
    ensures RunTicks(env, s, n).trainer.totalCaught - s.trainer.totalCaught
         <= s.trainer.balls + 3 * |BadgeOrder(env.world)|
  {
    hide Tick, TallyOf;
    RunBalances(env, s, n);
    BadgesArePrefix(env, s, n);
  }

  /** Over every run the catches fill the party up to four, then the box up to six, and then only replace. */
  lemma {:induction false} RosterFills(env: Env, s: Run, n: nat)
    ensures var v, v' := s.trainer, RunTicks(env, s, n).trainer;
            var caught, room := v'.totalCaught - v.totalCaught, Max(0, 4 - |v.team|);
            && caught >= 0
            && |v'.team| == |v.team| + Min(caught, room)
            && |v'.box| == |v.box| + Min(caught - Min(caught, room), Max(0, 6 - |v.box|))
  {
    hide Tick, TallyOf;
    if n > 0 {
      RosterFills(env, s, n - 1);
      TickBalances(env, RunTicks(env, s, n - 1));
      TickCatchesOne(env, RunTicks(env, s, n - 1));
    }
  }

  lemma TickCatchesOne(env: Env, s: Run)
    ensures TallyOf(Tick(env, s).result).catches <= 1
  {
    hide Tick;
  }

  /** So nothing is boxed before the party is full. */
  lemma PartyFillsFirst(env: Env, s: Run, n: nat)
    requires s.trainer.box == [] || |s.trainer.team| >= 4
    ensures var v := RunTicks(env, s, n).trainer; v.box == [] || |v.team| >= 4
  {
    hide RunTicks;
    RosterFills(env, s, n);
  }
}
