/** The trainer, the matching decision and the roster surgery of src/team.ts. */
module Team {
  import opened Wrappers
  import opened Monsters

  const PARTY_SIZE: nat := 4
  const BOX_SIZE: nat := 6
  const SAME_TYPE_LIMIT: nat := 2

  /** The tuning flags; an absent flag counts as on, an absent type as allowed. */
  datatype Strategy = Strategy(
    autoHeal: bool, autoGym: bool, autoMove: bool, catchEnabled: bool, prioritizeRare: bool,
    catchTypes: map<Element, bool>)

  /** The value of a trainer. */
  datatype TrainerView = TrainerView(
    team: seq<Mon>, box: seq<Mon>, badges: seq<string>, location: string, balls: int,
    totalBattles: nat, totalCaught: nat, strategy: Strategy)
  {
    function All(): seq<Mon> { team + box }
  }

  class Trainer {
    const strategy: Strategy
    var team: seq<MonsterInstance>
    var box: seq<MonsterInstance>
    var badges: seq<string>
    var location: string
    var balls: int
    var totalBattles: nat
    var totalCaught: nat

    constructor (strategy: Strategy, team: seq<MonsterInstance>, location: string, balls: int)
      requires Distinct(team)
      ensures Valid() && this.team == team
      ensures View() == TrainerView(Values(team), [], [], location, balls, 0, 0, strategy)
    {
      this.strategy, this.team, this.box, this.badges := strategy, team, [], [];
      this.location, this.balls, this.totalBattles, this.totalCaught := location, balls, 0, 0;
    }

    /** No monster object is listed twice, so a write through one entry changes no other. */
    ghost predicate Valid()
      reads this
    {
      Distinct(team) && Distinct(box) && (forall m | m in team :: m !in box)
    }

    ghost function Mons(): set<MonsterInstance>
      reads this
    {
      (set m | m in team) + (set m | m in box)
    }

    function View(): TrainerView
      reads this, team, box
    {
      TrainerView(Values(team), Values(box), badges, location, balls, totalBattles, totalCaught, strategy)
    }
  }

  // ---- The weakest member --------------------------------------------------------------------

  /** The first index of least power. */
  function WeakIdx(all: seq<Mon>): (w: nat)
    requires all != []
    ensures w < |all|
    ensures forall j | 0 <= j < |all| :: Power(all[w]) <= Power(all[j])
    ensures forall j | 0 <= j < w :: Power(all[w]) < Power(all[j])
  {
    var last := |all| - 1;
    if last == 0 then 0
    else
      var w := WeakIdx(all[..last]);
      if Power(all[last]) < Power(all[w]) then last else w
  }

  method FindWeakest(all: seq<Mon>) returns (weakIdx: nat, weakPower: int)
    requires all != []
    ensures weakIdx == WeakIdx(all) && weakPower == Power(all[weakIdx])
  {
    weakIdx, weakPower := 0, Power(all[0]);
    for i := 1 to |all|
      invariant weakIdx == WeakIdx(all[..i]) && weakPower == Power(all[weakIdx])
    {
      assert all[..i + 1][..i] == all[..i];
      var p := Power(all[i]);
      if p < weakPower {
        weakPower := p;
        weakIdx := i;
      }
    }
    assert all[..|all|] == all;
  }

  // ---- Placement -----------------------------------------------------------------------------

  datatype Plan = ToParty | ToBox | Replace(idx: nat) | Refuse

  datatype Where = Party | Box | Nowhere

  /** Both lists after a placement, and the member let go. */
  datatype Placed<T> = Placed(team: seq<T>, box: seq<T>, where: Where, released: Option<T>)

  function PlanFor(team: seq<Mon>, box: seq<Mon>, newMon: Mon): (p: Plan)
    ensures p.Replace? ==> p.idx < |team| + |box|
  {
    if |team| < PARTY_SIZE then ToParty
    else if |box| < BOX_SIZE then ToBox
    else
      var all := team + box;
      var w := WeakIdx(all);
      if Power(newMon) <= Power(all[w]) then Refuse else Replace(w)
  }

  function Without<T>(s: seq<T>, i: nat): seq<T>
    requires i < |s|
  {
    s[..i] + s[i + 1..]
  }

  function Surgery<T>(team: seq<T>, box: seq<T>, newMon: T, plan: Plan): Placed<T>
    requires plan.Replace? ==> plan.idx < |team| + |box|
  {
    match plan
    case ToParty => Placed(team + [newMon], box, Party, None)
    case ToBox => Placed(team, box + [newMon], Box, None)
    case Refuse => Placed(team, box, Nowhere, None)
    case Replace(i) =>
      if i < |team| then Placed(Without(team, i) + [newMon], box, Party, Some(team[i]))
      else Placed(team, Without(box, i - |team|) + [newMon], Box, Some(box[i - |team|]))
  }

  function Place(v: TrainerView, newMon: Mon): TrainerView {
    var p := Surgery(v.team, v.box, newMon, PlanFor(v.team, v.box, newMon));
    v.(team := p.team, box := p.box)
  }

  /** The member a placement lets go. */
  function LetGo(v: TrainerView, newMon: Mon): Option<Mon> {
    Surgery(v.team, v.box, newMon, PlanFor(v.team, v.box, newMon)).released
  }

  datatype PlacementResult = PlacementResult(placed: bool, where: Where, released: Option<MonsterInstance>)

  method PlaceNewMonster(trainer: Trainer, newMon: MonsterInstance) returns (r: PlacementResult)
    modifies trainer
    ensures old(trainer.Valid()) && newMon !in old(trainer.Mons()) ==> trainer.Valid()
    ensures trainer.Mons() <= old(trainer.Mons()) + {newMon}
    ensures trainer.View() == Place(old(trainer.View()), newMon.Value())
    ensures var plan := PlanFor(old(Values(trainer.team)), old(Values(trainer.box)), newMon.Value());
            var p := Surgery(old(trainer.team), old(trainer.box), newMon, plan);
            r == PlacementResult(plan != Refuse, p.where, p.released)
    ensures var team, box := old(trainer.team), old(trainer.box);
            && (|team| < 4 ==>
                  trainer.team == team + [newMon] && trainer.box == box && r == PlacementResult(true, Party, None))
            && (|team| >= 4 && |box| < 6 ==>
                  trainer.team == team && trainer.box == box + [newMon] && r == PlacementResult(true, Box, None))
  {
    ghost var t0, b0 := trainer.team, trainer.box;
    ghost var plan := PlanFor(Values(trainer.team), Values(trainer.box), newMon.Value());
    hide Power, WeakIdx, MonsterInstance.Value;
    if |trainer.team| < PARTY_SIZE {
      trainer.team := trainer.team + [newMon];
      r := PlacementResult(true, Party, None);
    } else if |trainer.box| < BOX_SIZE {
      trainer.box := trainer.box + [newMon];
      r := PlacementResult(true, Box, None);
    } else {
      r := ReplaceWeakest(trainer, newMon);
    }
    assert trainer.team == Surgery(t0, b0, newMon, plan).team && trainer.box == Surgery(t0, b0, newMon, plan).box;
    assert Values(t0) == old(Values(trainer.team)) && Values(b0) == old(Values(trainer.box));
    SurgeryOnObjects(t0, b0, newMon, plan);
  }

  /** The full-roster case: the weakest member makes room for a stronger newcomer. */
  method ReplaceWeakest(trainer: Trainer, newMon: MonsterInstance) returns (r: PlacementResult)
    requires |trainer.team| >= PARTY_SIZE && |trainer.box| >= BOX_SIZE
    modifies trainer`team, trainer`box
    ensures var plan := PlanFor(old(Values(trainer.team)), old(Values(trainer.box)), newMon.Value());
            var p := Surgery(old(trainer.team), old(trainer.box), newMon, plan);
            && trainer.team == p.team && trainer.box == p.box
            && r == PlacementResult(plan != Refuse, p.where, p.released)
  {
    hide Power, WeakIdx, MonsterInstance.Value;
    var all := Values(trainer.team) + Values(trainer.box);
    var newPower := Power(newMon.Value());
    var weakIdx, weakPower := FindWeakest(all);
    if newPower <= weakPower {
      return PlacementResult(false, Nowhere, None);
    }
    if weakIdx < |trainer.team| {
      var released := trainer.team[weakIdx];
      trainer.team := Without(trainer.team, weakIdx);
      trainer.team := trainer.team + [newMon];
      return PlacementResult(true, Party, Some(released));
    }
    var boxIdx := weakIdx - |trainer.team|;
    var released := trainer.box[boxIdx];
    trainer.box := Without(trainer.box, boxIdx);
    trainer.box := trainer.box + [newMon];
    return PlacementResult(true, Box, Some(released));
  }

  /** Nobody is listed twice. */
  ghost predicate Apart<T>(team: seq<T>, box: seq<T>) {
    Distinct(team) && Distinct(box) && forall m | m in team :: m !in box
  }

  /** Surgery on the objects is surgery on their values, and lists nobody twice that was not. */
  lemma SurgeryOnObjects(
      team: seq<MonsterInstance>, box: seq<MonsterInstance>, newMon: MonsterInstance, plan: Plan)
    requires plan.Replace? ==> plan.idx < |team| + |box|
    ensures var p := Surgery(team, box, newMon, plan);
            var v := Surgery(Values(team), Values(box), newMon.Value(), plan);
            && Values(p.team) == v.team && Values(p.box) == v.box
            && (Apart(team, box) && newMon !in team && newMon !in box ==> Apart(p.team, p.box))
            && (forall m | m in p.team || m in p.box :: m in team || m in box || m == newMon)
  {
    hide MonsterInstance.Value;
    match plan
    case ToParty =>
    case ToBox =>
    case Refuse =>
    case Replace(i) =>
      if i < |team| { WithoutOnObjects(team, i); } else { WithoutOnObjects(box, i - |team|); }
  }

  lemma WithoutOnObjects(ms: seq<MonsterInstance>, i: nat)
    requires i < |ms|
    ensures Values(Without(ms, i)) == Without(Values(ms), i)
    ensures Distinct(ms) ==> Distinct(Without(ms, i))
    ensures forall m | m in Without(ms, i) :: m in ms
  {
  }

  /** The party is filled first, then the box. */
  lemma PartyFirst(v: TrainerView, wild: Mon)
    ensures |v.team| < 4 ==> Place(v, wild) == v.(team := v.team + [wild]) && LetGo(v, wild) == None
    ensures |v.team| >= 4 && |v.box| < 6 ==> Place(v, wild) == v.(box := v.box + [wild]) && LetGo(v, wild) == None
  {
  }

  /** Where the first member of least power stands, the party before the box. */
  ghost predicate Weakest(v: TrainerView, w: nat) {
    && w < |v.All()|
    && (forall j | 0 <= j < |v.All()| :: Power(v.All()[w]) <= Power(v.All()[j]))
    && (forall j | 0 <= j < w :: Power(v.All()[w]) < Power(v.All()[j]))
  }

  /** With both full, the first member of least power makes room at its own place's end, for more power only. */
  lemma WeakestMakesRoom(v: TrainerView, wild: Mon, w: nat)
    requires |v.team| >= 4 && |v.box| >= 6 && Weakest(v, w)
    ensures Power(wild) <= Power(v.All()[w]) ==> Place(v, wild) == v && LetGo(v, wild) == None
    ensures Power(wild) > Power(v.All()[w]) ==>
              && LetGo(v, wild) == Some(v.All()[w])
              && (if w < |v.team| then Place(v, wild) == v.(team := v.team[..w] + v.team[w + 1..] + [wild])
                  else var b := w - |v.team|; Place(v, wild) == v.(box := v.box[..b] + v.box[b + 1..] + [wild]))
  {
    hide Power;
    var least := WeakIdx(v.All());
    assert least == w;
  }

  // ---- The matching decision -----------------------------------------------------------------

  predicate IsSpecial(m: Mon) {
    m.rarity == Some(Rare) || m.rarity == Some(Legendary)
  }

  function CountType(team: seq<Mon>, e: Element): nat {
    if team == [] then 0 else CountType(team[1..], e) + (if team[0].element == e then 1 else 0)
  }

  predicate HasSpecies(ms: seq<Mon>, id: int) {
    exists m | m in ms :: m.templateId == id
  }

  predicate ShouldCatch(v: TrainerView, wild: Mon) {
    && v.strategy.catchEnabled
    && v.balls > 0
    && !HasSpecies(v.team, wild.templateId)
    && !HasSpecies(v.box, wild.templateId)
    && ((IsSpecial(wild) && v.strategy.prioritizeRare)
        || ((wild.element in v.strategy.catchTypes ==> v.strategy.catchTypes[wild.element])
            && CountType(v.team, wild.element) < SAME_TYPE_LIMIT))
    && (var all := v.All();
        || |all| < PARTY_SIZE + BOX_SIZE
        || (all == [] || Power(wild) > Power(all[WeakIdx(all)])))
  }

  // ---- What the roster keeps -----------------------------------------------------------------

  function CountPlain(team: seq<Mon>, e: Element): nat {
    if team == [] then 0
    else CountPlain(team[1..], e) + (if team[0].element == e && !IsSpecial(team[0]) then 1 else 0)
  }

  ghost predicate UniqueSpecies(team: seq<Mon>, box: seq<Mon>) {
    && (forall i, j | 0 <= i < j < |team| :: team[i].templateId != team[j].templateId)
    && (forall i, j | 0 <= i < j < |box| :: box[i].templateId != box[j].templateId)
    && (forall m, n | m in team && n in box :: m.templateId != n.templateId)
  }

  ghost predicate RosterOk(v: TrainerView) {
    && |v.team| <= PARTY_SIZE
    && |v.box| <= BOX_SIZE
    && UniqueSpecies(v.team, v.box)
    && (forall e :: CountPlain(v.team, e) <= SAME_TYPE_LIMIT)
  }

  ghost predicate Full(v: TrainerView) {
    |v.team| == PARTY_SIZE && |v.box| == BOX_SIZE
  }

  /** Nobody on the roster has less power than `p`. */
  ghost predicate PowerFloor(v: TrainerView, p: int) {
    forall m | m in v.All() :: Power(m) >= p
  }

  lemma {:induction false} CountPlainAppend(team: seq<Mon>, m: Mon, e: Element)
    ensures CountPlain(team + [m], e) == CountPlain(team, e) + CountPlain([m], e)
  {
    if team != [] {
      CountPlainAppend(team[1..], m, e);
      assert (team + [m])[1..] == team[1..] + [m];
    } else {
      assert team + [m] == [m];
    }
  }

  lemma {:induction false} CountPlainWithout(team: seq<Mon>, i: nat, e: Element)
    requires i < |team|
    ensures CountPlain(Without(team, i), e) <= CountPlain(team, e)
  {
    if i == 0 {
      assert Without(team, 0) == team[1..];
    } else {
      CountPlainWithout(team[1..], i - 1, e);
      assert Without(team, i)[1..] == Without(team[1..], i - 1);
    }
  }

  lemma {:induction false} PlainAreTyped(team: seq<Mon>, e: Element)
    ensures CountPlain(team, e) <= CountType(team, e)
  {
    if team != [] {
      PlainAreTyped(team[1..], e);
    }
  }

  /** A wild worth catching is never refused a place. */
  lemma CaughtIsPlaced(v: TrainerView, wild: Mon)
    requires ShouldCatch(v, wild)
    ensures PlanFor(v.team, v.box, wild) != Refuse
  {
  }

  /** Nothing is lost or copied: the roster afterwards and the released member are the roster before and the new one. */
  lemma SurgeryConserves<T>(team: seq<T>, box: seq<T>, newMon: T, plan: Plan)
    requires plan.Replace? ==> plan.idx < |team| + |box|
    requires plan != Refuse
    ensures var p := Surgery(team, box, newMon, plan);
            multiset(p.team + p.box) + (if p.released.Some? then multiset{p.released.value} else multiset{})
            == multiset(team + box) + multiset{newMon}
  {
    if plan.Replace? {
      hide Without;
      if plan.idx < |team| {
        WithoutConserves(team, plan.idx);
      } else {
        WithoutConserves(box, plan.idx - |team|);
      }
    }
    var p := Surgery(team, box, newMon, plan);
    assert multiset(p.team + p.box) == multiset(p.team) + multiset(p.box);
    assert multiset(team + box) == multiset(team) + multiset(box);
  }

  lemma WithoutConserves<T>(s: seq<T>, i: nat)
    requires i < |s|
    ensures multiset(Without(s, i)) + multiset{s[i]} == multiset(s)
  {
    assert s == s[..i] + ([s[i]] + s[i + 1..]);
  }

  /** Placing a wild worth catching keeps the sizes, the species and the type slots in bounds. */
  lemma PlaceKeepsRoster(v: TrainerView, wild: Mon)
    requires RosterOk(v) && ShouldCatch(v, wild)
    ensures RosterOk(Place(v, wild))
    ensures |Place(v, wild).All()| >= |v.All()|
  {
    hide Power, WeakIdx;
    PlaceKeepsSpecies(v, wild);
    forall e ensures CountPlain(Place(v, wild).team, e) <= SAME_TYPE_LIMIT {
      PlaceKeepsSlots(v, wild, e);
    }
  }

  lemma PlaceKeepsSpecies(v: TrainerView, wild: Mon)
    requires UniqueSpecies(v.team, v.box) && ShouldCatch(v, wild)
    ensures UniqueSpecies(Place(v, wild).team, Place(v, wild).box)
  {
    hide Power, WeakIdx;
    assert forall m | m in v.team || m in v.box :: m.templateId != wild.templateId;
  }

  lemma PlaceKeepsSlots(v: TrainerView, wild: Mon, e: Element)
    requires RosterOk(v) && ShouldCatch(v, wild)
    ensures CountPlain(Place(v, wild).team, e) <= SAME_TYPE_LIMIT
  {
    hide Power, WeakIdx;
    assert CountPlain(v.team, e) <= SAME_TYPE_LIMIT;
    PlainAreTyped(v.team, e);
    var plan := PlanFor(v.team, v.box, wild);
    if plan == ToParty {
      CountPlainAppend(v.team, wild, e);
    } else if plan.Replace? && plan.idx < |v.team| {
      CountPlainWithout(v.team, plan.idx, e);
      CountPlainAppend(Without(v.team, plan.idx), wild, e);
    }
  }

  /** Once the roster is full, a placement only ever raises its least power. */
  lemma PlaceRaisesFloor(v: TrainerView, wild: Mon, p: int)
    requires Full(v) && PowerFloor(v, p)
    ensures Full(Place(v, wild)) && PowerFloor(Place(v, wild), p)
  {
    hide Power;
    var plan := PlanFor(v.team, v.box, wild);
    if plan.Replace? {
      var all := v.All();
      assert all[plan.idx] in all;
      forall m | m in Place(v, wild).All() ensures Power(m) >= p {
        assert m in all || m == wild;
      }
    }
  }
}
