/** The world, and one tick of src/engine.ts as a function of the run's state. */
module Ticks {
  import opened Numbers
  import opened Wrappers
  import opened Random
  import opened Monsters
  import opened Battle
  import opened Progression
  import opened Team

  // ---- The world -----------------------------------------------------------------------------

  datatype Gym = Gym(badge: string, team: seq<GymEntry>, order: int)

  /** `nextTown` and `requiredBadge` are empty where the source has null. */
  datatype Town = Town(id: string, gym: Option<Gym>, routes: seq<string>, nextTown: string, requiredBadge: string)

  datatype Route = Route(
    id: string, levelRange: (nat, nat), wildPool: seq<int>, rarePool: seq<int>, encounterRate: real)

  datatype World = World(towns: seq<Town>, routes: seq<Route>)

  /** Multipliers on the rare and legendary rolls; 1 where the option is absent. */
  datatype Buffs = Buffs(rare: real, legend: real)

  /** Everything a tick reads and never writes. */
  datatype Env = Env(world: World, tplOf: Resolver, rules: Rules, buffs: Buffs, xpBuff: real) {
    /** `xpBuff || 1` */
    function XpBuff(): real { if xpBuff == 0.0 then 1.0 else xpBuff }
  }

  function TownById(towns: seq<Town>, id: string): (t: Option<Town>)
    ensures t.Some? ==> t.value in towns && t.value.id == id
    ensures t.None? ==> forall u | u in towns :: u.id != id
  {
    if towns == [] then None else if towns[0].id == id then Some(towns[0]) else TownById(towns[1..], id)
  }

  function RouteById(routes: seq<Route>, id: string): (r: Option<Route>)
    ensures r.Some? ==> r.value in routes && r.value.id == id
    ensures r.None? ==> forall x | x in routes :: x.id != id
  {
    if routes == [] then None else if routes[0].id == id then Some(routes[0]) else RouteById(routes[1..], id)
  }

  /** The towns with a gym, in gym order; towns of equal order keep their places. */
  function GymTowns(towns: seq<Town>): (sorted: seq<Town>)
    ensures forall t | t in sorted :: t.gym.Some? && t in towns
    ensures forall t | t in towns && t.gym.Some? :: t in sorted
  {
    if towns == [] then []
    else
      var last := |towns| - 1;
      var sorted := GymTowns(towns[..last]);
      assert towns == towns[..last] + [towns[last]];
      if towns[last].gym.None? then sorted else InsertTown(sorted, towns[last])
  }

  function InsertTown(sorted: seq<Town>, t: Town): (r: seq<Town>)
    requires t.gym.Some? && forall u | u in sorted :: u.gym.Some?
    ensures forall u :: u in r <==> u == t || u in sorted
  {
    var last := |sorted| - 1;
    if sorted == [] || sorted[last].gym.value.order <= t.gym.value.order then sorted + [t]
    else
      assert sorted == sorted[..last] + [sorted[last]];
      InsertTown(sorted[..last], t) + [sorted[last]]
  }

  /** The first position of a town id, or the length when there is none. */
  function IndexOfTown(towns: seq<Town>, id: string): (i: nat)
    ensures i <= |towns| && (i < |towns| ==> towns[i].id == id)
    ensures forall j | 0 <= j < i :: towns[j].id != id
  {
    if towns == [] || towns[0].id == id then 0 else 1 + IndexOfTown(towns[1..], id)
  }

  // ---- The run -------------------------------------------------------------------------------

  datatype AgentState = Idle | Hunting | Battling | AtGym | Moving | Healing

  /** The trainer, the private gym cooldown, the generator and the agent's state. */
  datatype Run = Run(trainer: TrainerView, cooldown: nat, rng: Word, agent: AgentState)

  datatype LogLine = Searching | TooStrong | CaughtWild | BrokeFree | Fainted

  datatype Encounter = Encounter(
    encountered: bool, wild: Option<Mon>, won: bool, caught: bool, xpGained: int, log: seq<LogLine>)

  const NOTHING := Encounter(false, None, false, false, 0, [])

  datatype Action = Rest | Heal | Challenge(won: bool) | Travel(to: string) | Hunt | Capture

  datatype TickResult = TickResult(state: AgentState, action: Action, encounter: Option<Encounter>)

  /** `released` is the member that made room for a caught wild, which the engine does not report. */
  datatype Ticked = Ticked(run: Run, result: TickResult, released: Option<Mon>)

  datatype Hunted = Hunted(run: Run, enc: Encounter, released: Option<Mon>)

  // ---- Healing and moving --------------------------------------------------------------------

  function HealAll(team: seq<Mon>): (healed: seq<Mon>)
    ensures |healed| == |team|
  {
    seq(|team|, i requires 0 <= i < |team| => team[i].(currentHP := team[i].stats.hp))
  }

  function HealTeam(s: Run): Run {
    s.(agent := Healing, trainer := s.trainer.(team := HealAll(s.trainer.team)))
  }

  predicate AllFainted(team: seq<Mon>) {
    forall m | m in team :: m.currentHP <= 0
  }

  /** The lead is alive below 15 percent of its HP. */
  predicate LeadNeedsHeal(team: seq<Mon>) {
    team != [] && team[0].currentHP > 0 && 20 * team[0].currentHP < 3 * team[0].stats.hp
  }

  predicate NeedsHeal(v: TrainerView) {
    AllFainted(v.team) || (LeadNeedsHeal(v.team) && v.strategy.autoHeal)
  }

  function MoveTo(s: Run, town: Town): Run {
    HealTeam(s.(agent := Moving, trainer := s.trainer.(location := town.id)))
  }

  function NextStop(env: Env, v: TrainerView, town: Town): Option<Town> {
    if v.strategy.autoMove && town.gym.Some? && town.gym.value.badge in v.badges && town.nextTown != "" then
      match TownById(env.world.towns, town.nextTown)
      case None => None
      case Some(next) =>
        if next.requiredBadge == "" || next.requiredBadge in v.badges then Some(next) else None
    else None
  }

  // ---- Gyms ----------------------------------------------------------------------------------

  predicate PreviousBeaten(env: Env, badges: seq<string>, town: Town) {
    var order := GymTowns(env.world.towns);
    var idx := IndexOfTown(order, town.id);
    0 < idx < |order| ==> order[idx - 1].gym.value.badge in badges
  }

  /** Every gate of a challenge but the cooldown. */
  predicate Eligible(env: Env, v: TrainerView, town: Town) {
    && town.gym.Some?
    && town.gym.value.badge !in v.badges
    && PreviousBeaten(env, v.badges, town)
    && !AllFainted(v.team)
    && (forall e | e in town.gym.value.team :: e.level <= v.team[0].level)
  }

  /** The decision, and the cooldown it leaves. */
  function ShouldChallengeGym(env: Env, s: Run, town: Town): (bool, nat) {
    if town.gym.None? || town.gym.value.badge in s.trainer.badges then (false, s.cooldown)
    else if s.cooldown > 0 then (false, s.cooldown - 1)
    else (Eligible(env, s.trainer, town), 0)
  }

  /** Positions of the living among the first `n`, in order. */
  function AliveUpTo(team: seq<Mon>, n: nat): (idx: seq<nat>)
    requires n <= |team|
    ensures Increasing(idx, n)
    ensures forall i | 0 <= i < n :: i in idx <==> team[i].currentHP > 0
  {
    if n == 0 then []
    else if team[n - 1].currentHP > 0 then AliveUpTo(team, n - 1) + [n - 1]
    else AliveUpTo(team, n - 1)
  }

  ghost predicate Increasing(idx: seq<nat>, bound: nat) {
    && (forall i | 0 <= i < |idx| :: idx[i] < bound)
    && (forall i, j | 0 <= i < j < |idx| :: idx[i] < idx[j])
  }

  /** The first four living members fight. */
  function PartyIdx(team: seq<Mon>): (idx: seq<nat>)
    ensures Increasing(idx, |team|)
    ensures forall i | i in idx :: team[i].currentHP > 0
  {
    var alive := AliveUpTo(team, |team|);
    if |alive| <= 4 then alive else alive[..4]
  }

  function Select(team: seq<Mon>, idx: seq<nat>): (party: seq<Mon>)
    requires Increasing(idx, |team|)
    ensures |party| == |idx|
  {
    seq(|idx|, j requires 0 <= j < |idx| => team[idx[j]])
  }

  /** Writing `vals` at the positions `idx`. */
  function Put(team: seq<Mon>, idx: seq<nat>, vals: seq<Mon>): (r: seq<Mon>)
    requires Increasing(idx, |team|) && |vals| == |idx|
    ensures |r| == |team|
    ensures forall j | 0 <= j < |idx| :: r[idx[j]] == vals[j]
    ensures forall i | 0 <= i < |team| && i !in idx :: r[i] == team[i]
    decreases |idx|
  {
    if idx == [] then team
    else
      var last := |idx| - 1;
      Put(team, idx[..last], vals[..last])[idx[last] := vals[last]]
  }

  /** Granting, when the species is known. */
  function Rewarded(tplOf: Resolver, m: Mon, amount: int): Mon {
    match tplOf(m.templateId)
    case None => m
    case Some(t) => Grant(m, amount, t).mon
  }

  /** A party member after the fight, with its share of the spoils if it was won. */
  function AfterGym(env: Env, m: Mon, hp: int, won: bool, leaders: nat): Mon {
    var m := m.(currentHP := Max(0, hp));
    if won then Rewarded(env.tplOf, m, GymXpReward(m.level, leaders, env.XpBuff())) else m
  }

  function GymFight(env: Env, s: Run, gym: Gym): Gauntlet {
    Gauntlet(env.rules, env.tplOf, Select(s.trainer.team, PartyIdx(s.trainer.team)), gym.team)
  }

  function Aftermath(env: Env, party: seq<Mon>, hp: seq<int>, won: bool, leaders: nat): (ms: seq<Mon>)
    requires |hp| == |party|
    ensures |ms| == |party|
  {
    seq(|party|, j requires 0 <= j < |party| => AfterGym(env, party[j], hp[j], won, leaders))
  }

  /** The badge, three balls and the XP on a win; a five-tick cooldown on a loss. */
  function DoGymChallenge(env: Env, s: Run, gym: Gym): (Run, bool) {
    var v, g := s.trainer, GymFight(env, s, gym);
    var end := g.Outcome(s.rng);
    var won := end.gymIdx == |gym.team|;
    var team := Put(v.team, PartyIdx(v.team), Aftermath(env, g.party, end.hp, won, |gym.team|));
    if won then
      (s.(agent := AtGym, rng := end.next,
          trainer := v.(team := team, badges := v.badges + [gym.badge], balls := v.balls + 3)), true)
    else
      (s.(agent := AtGym, rng := end.next, cooldown := 5, trainer := v.(team := team)), false)
  }

  // ---- Wild encounters -----------------------------------------------------------------------

  function RareChance(env: Env, route: Route): real
    requires route.rarePool != []
  {
    var sample := env.tplOf(route.rarePool[0]);
    if sample.Some? && sample.value.rarity == Some(Legendary)
    then 0.008 * env.buffs.legend else 0.02 * env.buffs.rare
  }

  /** The species drawn, and whether it came from the rare pool. */
  function RollSpecies(env: Env, route: Route, s: Word): Draw<(Option<int>, bool)> {
    if route.rarePool != [] then
      var rare := RollChance(env.rules.mix, s, RareChance(env, route));
      var pick := RollPick(env.rules.mix, rare.next, if rare.value then route.rarePool else route.wildPool);
      Draw((pick.value, rare.value), pick.next)
    else
      var pick := RollPick(env.rules.mix, s, route.wildPool);
      Draw((pick.value, false), pick.next)
  }

  function RollLevel(env: Env, route: Route, isRare: bool, s: Word): Draw<nat> {
    if isRare then
      var above := RollInt(env.rules.mix, s, 0, 4);
      Draw(route.levelRange.1 + above.value + 3, above.next)
    else
      var level := RollInt(env.rules.mix, s, route.levelRange.0, route.levelRange.1);
      Draw(level.value, level.next)
  }

  function WildOf(t: Template, level: nat): Mon {
    CreateMonster(t, level).(rarity := Some(if t.rarity.Some? then t.rarity.value else Common))
  }

  function GenerateWild(env: Env, route: Route, s: Word): Draw<Option<Mon>> {
    var species := RollSpecies(env, route, s);
    if species.value.0.None? then Draw(None, species.next)
    else
      match env.tplOf(species.value.0.value)
      case None => Draw(None, species.next)
      case Some(t) =>
        var level := RollLevel(env, route, species.value.1, species.next);
        Draw(Some(WildOf(t, level.value)), level.next)
  }

  /** The first living member, or the team's length. */
  function FirstAlive(team: seq<Mon>): (i: nat)
    ensures i <= |team| && (i < |team| ==> team[i].currentHP > 0)
    ensures i == |team| ==> AllFainted(team)
  {
    if team == [] || team[0].currentHP > 0 then 0 else 1 + FirstAlive(team[1..])
  }

  function AffectionAfterWin(m: Mon, foeLevel: nat): real {
    var raw := 0.5 * (foeLevel as real / Max(1, m.level) as real);
    var gain := if raw < 0.1 then 0.1 else if raw > 2.0 then 2.0 else raw;
    if m.affection + gain > 100.0 then 100.0 else m.affection + gain
  }

  /** The chance of one throw with a plain ball. */
  function CatchRate(wild: Mon): real {
    var base := match wild.rarity case Some(Rare) => 0.08 case Some(Legendary) => 0.015 case _ => 0.4;
    var rate := base - wild.level as real * 0.005;
    if rate < 0.005 then 0.005 else if rate > 0.9 then 0.9 else rate
  }

  function Throw(env: Env, s: Run, wild: Mon, xp: int): Hunted {
    var throw := RollChance(env.rules.mix, s.rng, CatchRate(wild));
    var v := s.trainer.(balls := s.trainer.balls - 1);
    if throw.value then
      var placed := Place(v, wild);
      Hunted(s.(rng := throw.next, trainer := placed.(totalCaught := v.totalCaught + 1)),
             Encounter(true, Some(wild), true, true, xp, [CaughtWild]), LetGo(v, wild))
    else
      Hunted(s.(rng := throw.next, trainer := v), Encounter(true, Some(wild), true, false, xp, [BrokeFree]), None)
  }

  function SetMember(s: Run, i: nat, m: Mon): Run
    requires i < |s.trainer.team|
  {
    s.(trainer := s.trainer.(team := s.trainer.team[i := m]))
  }

  /** After a won fight: affection, XP, and a throw when the wild is worth it. */
  function Win(env: Env, s: Run, lead: nat, wild: Mon): Hunted
    requires lead < |s.trainer.team|
  {
    var m := s.trainer.team[lead];
    var xp := WildXpReward(m.level, wild.level, env.XpBuff());
    var grown := Rewarded(env.tplOf, m.(affection := AffectionAfterWin(m, wild.level)), xp);
    var s := SetMember(s, lead, grown);
    if ShouldCatch(s.trainer, wild) then Throw(env, s, wild, xp)
    else Hunted(s, Encounter(true, Some(wild), true, false, xp, []), None)
  }

  function Fight(env: Env, s: Run, lead: nat, wild: Mon): Hunted
    requires lead < |s.trainer.team|
  {
    var m := s.trainer.team[lead];
    var fight := AutoFight(env.rules, m, wild, s.rng);
    var hurt := SetMember(s, lead, m.(currentHP := fight.value.hpRemaining));
    var s := hurt.(agent := Battling, rng := fight.next,
                   trainer := hurt.trainer.(totalBattles := s.trainer.totalBattles + 1));
    if fight.value.won then Win(env, s, lead, wild)
    else Hunted(s, Encounter(true, Some(wild), false, false, 0, [Fainted]), None)
  }

  function Meet(env: Env, s: Run, wild: Mon): Hunted {
    var lead := FirstAlive(s.trainer.team);
    if lead == |s.trainer.team| then Hunted(HealTeam(s), NOTHING, None)
    else if wild.level > s.trainer.team[lead].level + 2 then
      Hunted(s.(agent := Idle), Encounter(true, Some(wild), false, false, 0, [TooStrong]), None)
    else Fight(env, s, lead, wild)
  }

  /** Whether the grass stirs; a forced encounter does not ask. */
  function Stir(env: Env, route: Route, forced: bool, s: Word): Draw<bool> {
    if forced then Draw(true, s)
    else var roll := Roll(env.rules.mix, s); Draw(roll.value <= route.encounterRate * 4.0, roll.next)
  }

  function DoWildEncounter(env: Env, s: Run, town: Town, forced: bool): Hunted {
    if town.routes == [] then Hunted(s, NOTHING, None)
    else
      match RouteById(env.world.routes, town.routes[0])
      case None => Hunted(s, NOTHING, None)
      case Some(route) =>
        var stir := Stir(env, route, forced, s.rng);
        var s := s.(agent := Hunting, rng := stir.next);
        if !stir.value then Hunted(s, NOTHING.(log := [Searching]), None)
        else
          var wild := GenerateWild(env, route, s.rng);
          var s := s.(rng := wild.next);
          if wild.value.None? then Hunted(s, NOTHING, None) else Meet(env, s, wild.value.value)
  }

  // ---- One tick ------------------------------------------------------------------------------

  function Tick(env: Env, s: Run): Ticked {
    match TownById(env.world.towns, s.trainer.location)
    case None => Ticked(s, TickResult(s.agent, Rest, None), None)
    case Some(town) =>
      if NeedsHeal(s.trainer) then
        Ticked(HealTeam(s), TickResult(Healing, Heal, None), None)
      else
        var (go, cooldown) :=
          if s.trainer.strategy.autoGym then ShouldChallengeGym(env, s, town) else (false, s.cooldown);
        var s := s.(cooldown := cooldown);
        if go then
          var (after, won) := DoGymChallenge(env, s, town.gym.value);
          Ticked(after, TickResult(after.agent, Challenge(won), None), None)
        else
          match NextStop(env, s.trainer, town)
          case Some(next) => Ticked(MoveTo(s, next), TickResult(Healing, Travel(next.id), None), None)
          case None =>
            var hunt := DoWildEncounter(env, s, town, false);
            var action := if hunt.enc.caught then Capture else Hunt;
            Ticked(hunt.run, TickResult(hunt.run.agent, action, Some(hunt.enc)), hunt.released)
  }

  /** The state after `n` ticks, and what each of them returned. */
  function RunTicks(env: Env, s: Run, n: nat): Run
  {
    if n == 0 then s else Tick(env, RunTicks(env, s, n - 1)).run
  }

  function Results(env: Env, s: Run, n: nat): (rs: seq<TickResult>)
    ensures |rs| == n
  {
    if n == 0 then [] else Results(env, s, n - 1) + [Tick(env, RunTicks(env, s, n - 1)).result]
  }
}
