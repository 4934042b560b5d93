/** Over every run, who is on the roster: nobody appears but by a catch and nobody goes but to make room for one. */
module RosterLaws {
  import opened Numbers
  import opened Wrappers
  import opened Monsters
  import opened Battle
  import opened Progression
  import opened ProgressionLaws
  import opened Team
  import opened Ticks
  import opened LedgerLaws

  /** The species of a list of monsters, in order. */
  function Species(ms: seq<Mon>): (ids: seq<int>)
    ensures |ids| == |ms|
  {
    seq(|ms|, i requires 0 <= i < |ms| => ms[i].templateId)
  }

  function SpeciesOf(m: Option<Mon>): multiset<int> {
    if m.Some? then multiset{m.value.templateId} else multiset{}
  }

  function Roster(v: TrainerView): multiset<int> {
    multiset(Species(v.team)) + multiset(Species(v.box))
  }

  /** What a tick caught, as it reports. */
  function Caught(r: TickResult): Option<Mon> {
    if r.action == Capture && r.encounter.Some? then r.encounter.value.wild else None
  }

  /** Who came is who was caught, and who went was let go for it: never for nothing, and never anyone as strong. */
  ghost predicate Accounted(v: TrainerView, v': TrainerView, caught: Option<Mon>, released: Option<Mon>) {
    && Roster(v') + SpeciesOf(released) == Roster(v) + SpeciesOf(caught)
    && (released.Some? <==> caught.Some? && AtCapacity(v))
    && (released.Some? ==> Power(released.value) < Power(caught.value))
  }

  // ---- One placement ---------------------------------------------------------------------------

  /** Surgery on monsters is surgery on their species. */
  lemma SurgeryOnSpecies(team: seq<Mon>, box: seq<Mon>, newMon: Mon, plan: Plan)
    requires plan.Replace? ==> plan.idx < |team| + |box|
    ensures var p := Surgery(team, box, newMon, plan);
            var ids := Surgery(Species(team), Species(box), newMon.templateId, plan);
            && Species(p.team) == ids.team && Species(p.box) == ids.box
            && SpeciesOf(p.released) == (if ids.released.Some? then multiset{ids.released.value} else multiset{})
  {
    match plan
    case ToParty => assert Species(team + [newMon]) == Species(team) + [newMon.templateId];
    case ToBox => assert Species(box + [newMon]) == Species(box) + [newMon.templateId];
    case Refuse =>
    case Replace(i) =>
      if i < |team| {
        WithoutOnSpecies(team, i);
        assert Species(Without(team, i) + [newMon]) == Species(Without(team, i)) + [newMon.templateId];
      } else {
        WithoutOnSpecies(box, i - |team|);
        assert Species(Without(box, i - |team|) + [newMon]) == Species(Without(box, i - |team|)) + [newMon.templateId];
      }
  }

  lemma WithoutOnSpecies(ms: seq<Mon>, i: nat)
    requires i < |ms|
    ensures Species(Without(ms, i)) == Without(Species(ms), i)
  {
  }

  lemma PlaceAccounted(v: TrainerView, wild: Mon)
    requires ShouldCatch(v, wild)
    ensures Accounted(v, Place(v, wild), Some(wild), LetGo(v, wild))
  {
    hide Power, ShouldCatch, WeakIdx;
    var plan := PlanFor(v.team, v.box, wild);
    CaughtIsPlaced(v, wild);
    SurgeryOnSpecies(v.team, v.box, wild, plan);
    SurgeryConserves(Species(v.team), Species(v.box), wild.templateId, plan);
    var p := Surgery(Species(v.team), Species(v.box), wild.templateId, plan);
    assert multiset(p.team + p.box) == multiset(p.team) + multiset(p.box);
    assert multiset(Species(v.team) + Species(v.box)) == Roster(v);
    ReplacesWeaker(v, wild);
    hide Surgery, Species;
  }

  lemma ReplacesWeaker(v: TrainerView, wild: Mon)
    ensures LetGo(v, wild).Some? ==> AtCapacity(v) && Power(LetGo(v, wild).value) < Power(wild)
    ensures AtCapacity(v) && PlanFor(v.team, v.box, wild) != Refuse ==> LetGo(v, wild).Some?
  {
    hide Power;
  }

  // ---- One tick --------------------------------------------------------------------------------

  /** The same individuals in the same places, whatever became of them. */
  ghost predicate SameSpecies(v: TrainerView, v': TrainerView) {
    Species(v'.team) == Species(v.team) && Species(v'.box) == Species(v.box)
  }

  lemma RewardKeepsSpecies(tplOf: Resolver, m: Mon, amount: int)
    ensures Rewarded(tplOf, m, amount).templateId == m.templateId
  {
    hide LevelUps;
    if tplOf(m.templateId).Some? {
      LevelUpsKeepsRest(m.(xp := m.xp + amount), tplOf(m.templateId).value);
    }
  }

  lemma SetKeepsSpecies(s: Run, i: nat, m: Mon)
    requires i < |s.trainer.team| && m.templateId == s.trainer.team[i].templateId
    ensures SameSpecies(s.trainer, SetMember(s, i, m).trainer)
  {
  }

  lemma GymKeepsSpecies(env: Env, s: Run, gym: Gym)
    ensures SameSpecies(s.trainer, DoGymChallenge(env, s, gym).0.trainer)
  {
    hide Gauntlet.Outcome, PartyIdx, Rewarded, GymXpReward;
    var team, idx, g := s.trainer.team, PartyIdx(s.trainer.team), GymFight(env, s, gym);
    var end := g.Outcome(s.rng);
    var won := end.gymIdx == |gym.team|;
    var vals := Aftermath(env, g.party, end.hp, won, |gym.team|);
    var after := Put(team, idx, vals);
    forall i | 0 <= i < |team| ensures after[i].templateId == team[i].templateId {
      if i in idx {
        var j :| 0 <= j < |idx| && idx[j] == i;
        var m := team[i].(currentHP := Max(0, end.hp[j]));
        RewardKeepsSpecies(env.tplOf, m, GymXpReward(m.level, |gym.team|, env.XpBuff()));
        assert after[idx[j]] == vals[j];
      }
    }
  }

  lemma SameIsAccounted(v: TrainerView, v': TrainerView)
    requires SameSpecies(v, v')
    ensures Accounted(v, v', None, None)
  {
  }

  lemma WinAccounted(env: Env, s: Run, lead: nat, wild: Mon)
    requires lead < |s.trainer.team|
    ensures var h := Win(env, s, lead, wild);
            Accounted(s.trainer, h.run.trainer, if h.enc.caught then Some(wild) else None, h.released)
  {
    hide Rewarded, ShouldCatch, AffectionAfterWin, CatchRate, Place, LetGo, WildXpReward;
    hide Accounted, Species;
    var m := s.trainer.team[lead];
    var fond := m.(affection := AffectionAfterWin(m, wild.level));
    var xp := WildXpReward(m.level, wild.level, env.XpBuff());
    RewardKeepsSpecies(env.tplOf, fond, xp);
    SetKeepsSpecies(s, lead, Rewarded(env.tplOf, fond, xp));
    var t := SetMember(s, lead, Rewarded(env.tplOf, fond, xp));
    SameIsAccounted(s.trainer, t.trainer);
    if ShouldCatch(t.trainer, wild) {
      var v := t.trainer.(balls := t.trainer.balls - 1);
      PlaceAccounted(t.trainer, wild);
      BallsDoNotMatter(t.trainer, v, wild);
      var after := Throw(env, t, wild, xp).run.trainer;
      AccountedByLists(s.trainer, t.trainer, Place(t.trainer, wild), after, Some(wild), LetGo(t.trainer, wild));
      AccountedByLists(s.trainer, t.trainer, t.trainer, after, None, None);
    }
  }

  lemma BallsDoNotMatter(v: TrainerView, w: TrainerView, wild: Mon)
    requires w == v.(balls := w.balls)
    ensures LetGo(w, wild) == LetGo(v, wild)
    ensures Place(w, wild).team == Place(v, wild).team && Place(w, wild).box == Place(v, wild).box
  {
  }

  /** Only team and box matter, and what happened before without changing species does not. */
  lemma AccountedByLists(
      a: TrainerView, b: TrainerView, c: TrainerView, d: TrainerView, caught: Option<Mon>, released: Option<Mon>)
    requires SameSpecies(a, b)
    ensures Accounted(b, c, caught, released) && d.team == c.team && d.box == c.box ==>
              Accounted(a, d, caught, released)
    ensures c == b && d.team == c.team && d.box == c.box ==> Accounted(a, d, None, None)
  {
    hide Power;
    assert |b.team| == |Species(b.team)| && |a.team| == |Species(a.team)|;
    assert |b.box| == |Species(b.box)| && |a.box| == |Species(a.box)|;
  }

  lemma FightAccounted(env: Env, s: Run, lead: nat, wild: Mon)
    requires lead < |s.trainer.team|
    ensures var h := Fight(env, s, lead, wild);
            && Accounted(s.trainer, h.run.trainer, if h.enc.caught then Some(wild) else None, h.released)
            && h.enc.wild == Some(wild)
  {
    hide AutoFight, Accounted, Species, Rewarded, ShouldCatch, AffectionAfterWin, CatchRate, Place, LetGo, WildXpReward;
    var m := s.trainer.team[lead];
    var fight := AutoFight(env.rules, m, wild, s.rng);
    SetKeepsSpecies(s, lead, m.(currentHP := fight.value.hpRemaining));
    var hurt := SetMember(s, lead, m.(currentHP := fight.value.hpRemaining));
    var t := hurt.(agent := Battling, rng := fight.next,
                   trainer := hurt.trainer.(totalBattles := s.trainer.totalBattles + 1));
    AccountedByLists(s.trainer, hurt.trainer, hurt.trainer, t.trainer, None, None);
    if fight.value.won {
      WinAccounted(env, t, lead, wild);
      var h := Win(env, t, lead, wild);
      AccountedByLists(s.trainer, t.trainer, h.run.trainer, h.run.trainer,
                       if h.enc.caught then Some(wild) else None, h.released);
    }
  }

  lemma HuntAccounted(env: Env, s: Run, town: Town, forced: bool)
    ensures var h := DoWildEncounter(env, s, town, forced);
            && (h.enc.caught ==> h.enc.wild.Some?)
            && Accounted(s.trainer, h.run.trainer, if h.enc.caught then h.enc.wild else None, h.released)
  {
    hide Fight, GenerateWild, Stir, Accounted, Species;
    SameIsAccounted(s.trainer, s.trainer);
    var lead := FirstAlive(s.trainer.team);
    forall r: Run, wild: Mon | r.trainer == s.trainer && lead < |s.trainer.team|
      ensures var h := Fight(env, r, lead, wild);
              && Accounted(s.trainer, h.run.trainer, if h.enc.caught then Some(wild) else None, h.released)
              && h.enc.wild == Some(wild)
    {
      FightAccounted(env, r, lead, wild);
    }
    HealKeepsSpecies(s.trainer);
    SameIsAccounted(s.trainer, s.trainer.(team := HealAll(s.trainer.team)));
    hide HealAll;
  }

  lemma HealKeepsSpecies(v: TrainerView)
    ensures Species(HealAll(v.team)) == Species(v.team)
  {
  }

  /** One tick accounts for everyone. */
  lemma TickAccounted(env: Env, s: Run)
    ensures var t := Tick(env, s); Accounted(s.trainer, t.run.trainer, Caught(t.result), t.released)
  {
    hide DoWildEncounter, DoGymChallenge, HealAll, Eligible, NextStop, NeedsHeal, Accounted, Species;
    var v := s.trainer;
    SameIsAccounted(v, v);
    HealKeepsSpecies(v);
    SameIsAccounted(v, v.(team := HealAll(v.team)));
    var found := TownById(env.world.towns, v.location);
    if found.Some? && !NeedsHeal(v) {
      var town := found.value;
      var (go, cooldown) := if v.strategy.autoGym then ShouldChallengeGym(env, s, town) else (false, s.cooldown);
      var s' := s.(cooldown := cooldown);
      HuntAccounted(env, s', town, false);
      if go {
        GymKeepsSpecies(env, s', town.gym.value);
        SameIsAccounted(v, DoGymChallenge(env, s', town.gym.value).0.trainer);
      } else if NextStop(env, v, town).Some? {
        SameIsAccounted(v, MoveTo(s', NextStop(env, v, town).value).trainer);
      }
    }
  }

  // ---- Whole runs ------------------------------------------------------------------------------

  /** The wilds caught in the first `n` ticks, and the members released in them. */
  function Catches(env: Env, s: Run, n: nat): multiset<int> {
    if n == 0 then multiset{} else
      Catches(env, s, n - 1) + SpeciesOf(Caught(Tick(env, RunTicks(env, s, n - 1)).result))
  }

  function Releases(env: Env, s: Run, n: nat): multiset<int> {
    if n == 0 then multiset{} else
      Releases(env, s, n - 1) + SpeciesOf(Tick(env, RunTicks(env, s, n - 1)).released)
  }

  /** Over every run the final roster and everyone released are the first roster and everyone caught. */
  lemma {:induction false} RosterAccounted(env: Env, s: Run, n: nat)
    ensures Roster(RunTicks(env, s, n).trainer) + Releases(env, s, n) == Roster(s.trainer) + Catches(env, s, n)
  {
    hide Tick, Roster, Caught, Power;
    if n > 0 {
      RosterAccounted(env, s, n - 1);
      var before := RunTicks(env, s, n - 1);
      var t := Tick(env, before);
      TickAccounted(env, before);
      ChainUp(Roster(s.trainer), Roster(before.trainer), Roster(t.run.trainer),
              Catches(env, s, n - 1), Releases(env, s, n - 1), SpeciesOf(Caught(t.result)), SpeciesOf(t.released));
    }
  }

  lemma ChainUp(a: multiset<int>, b: multiset<int>, c: multiset<int>,
                caught: multiset<int>, released: multiset<int>, more: multiset<int>, gone: multiset<int>)
    requires b + released == a + caught && c + gone == b + more
    ensures c + (released + gone) == a + (caught + more)
  {
    assert c + (released + gone) == (c + gone) + released;
    assert (b + more) + released == (b + released) + more;
    assert (a + caught) + more == a + (caught + more);
  }

  /** Who was caught is counted, one by one. */
  lemma {:induction false} CatchesCounted(env: Env, s: Run, n: nat)
    ensures |Catches(env, s, n)| == RunTicks(env, s, n).trainer.totalCaught - s.trainer.totalCaught
  {
    hide Tick, Balanced;
    if n > 0 {
      CatchesCounted(env, s, n - 1);
      var before := RunTicks(env, s, n - 1);
      TickCounted(env, before);
    }
  }

  lemma TickCounted(env: Env, s: Run)
    ensures var t := Tick(env, s); |SpeciesOf(Caught(t.result))| == t.run.trainer.totalCaught - s.trainer.totalCaught
  {
    hide Tick;
    TickBalances(env, s);
    CaptureNamesWild(env, s);
  }

  lemma CaptureNamesWild(env: Env, s: Run)
    ensures Caught(Tick(env, s).result).Some? <==> Tick(env, s).result.action == Capture
  {
    hide DoWildEncounter, DoGymChallenge, HealAll, Eligible, NextStop, NeedsHeal;
    var found := TownById(env.world.towns, s.trainer.location);
    if found.Some? {
      var town := found.value;
      var (go, cooldown) :=
        if s.trainer.strategy.autoGym then ShouldChallengeGym(env, s, town) else (false, s.cooldown);
      HuntAccounted(env, s.(cooldown := cooldown), town, false);
      hide Accounted;
    }
  }

  /** No caught monster is lost: the catches are the roster's growth and the members let go. */
  lemma CatchesArePlaced(env: Env, s: Run, n: nat)
    ensures |RunTicks(env, s, n).trainer.All()| + |Releases(env, s, n)|
         == |s.trainer.All()| + (RunTicks(env, s, n).trainer.totalCaught - s.trainer.totalCaught)
  {
    hide RunTicks, Releases, Catches;
    RosterAccounted(env, s, n);
    CatchesCounted(env, s, n);
    RosterSize(s.trainer);
    RosterSize(RunTicks(env, s, n).trainer);
    assert |Roster(RunTicks(env, s, n).trainer) + Releases(env, s, n)| == |Roster(s.trainer) + Catches(env, s, n)|;
  }

  lemma RosterSize(v: TrainerView)
    ensures |Roster(v)| == |v.All()|
  {
  }
}
