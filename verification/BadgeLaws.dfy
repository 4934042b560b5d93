/** Over every run, badges are won in gym order and the trainer walks the towns in that order. */
module BadgeLaws {
  import opened Wrappers
  import opened Battle
  import opened Team
  import opened Ticks

  // ---- The gym order -------------------------------------------------------------------------

  ghost predicate InGymOrder(ts: seq<Town>) {
    && (forall t | t in ts :: t.gym.Some?)
    && (forall i, j | 0 <= i < j < |ts| :: ts[i].gym.value.order <= ts[j].gym.value.order)
  }

  /** The gym towns of one order number, as listed. */
  function OfOrder(ts: seq<Town>, n: int): seq<Town> {
    if ts == [] then []
    else
      var last := |ts| - 1;
      var front := OfOrder(ts[..last], n);
      if ts[last].gym.Some? && ts[last].gym.value.order == n then front + [ts[last]] else front
  }

  lemma {:induction false} InsertSorts(sorted: seq<Town>, t: Town)
    requires InGymOrder(sorted) && t.gym.Some?
    ensures InGymOrder(InsertTown(sorted, t))
    ensures forall u | u in InsertTown(sorted, t) :: u == t || u in sorted
    decreases |sorted|
  {
    var last := |sorted| - 1;
    if sorted != [] && sorted[last].gym.value.order > t.gym.value.order {
      InsertSorts(sorted[..last], t);
      var r := InsertTown(sorted[..last], t);
      forall i | 0 <= i < |r| ensures r[i].gym.value.order <= sorted[last].gym.value.order {
        assert r[i] in r;
      }
    }
  }

  lemma {:induction false} InsertKeepsPlaces(sorted: seq<Town>, t: Town, n: int)
    requires InGymOrder(sorted) && t.gym.Some?
    ensures OfOrder(InsertTown(sorted, t), n) == OfOrder(sorted + [t], n)
    decreases |sorted|
  {
    var last := |sorted| - 1;
    assert (sorted + [t])[..|sorted|] == sorted;
    if sorted != [] && sorted[last].gym.value.order > t.gym.value.order {
      var front := sorted[..last];
      InsertKeepsPlaces(front, t, n);
      assert (front + [t])[..|front|] == front;
      var r := InsertTown(front, t);
      assert (r + [sorted[last]])[..|r|] == r;
      if t.gym.value.order == n {
        assert sorted[last].gym.value.order != n;
      }
    }
  }

  /** `GymTowns` is the stable sort: in gym order, and towns of equal order keep their places. */
  lemma {:induction false} GymTownsIsStableSort(ts: seq<Town>)
    ensures InGymOrder(GymTowns(ts))
    ensures forall n :: OfOrder(GymTowns(ts), n) == OfOrder(ts, n)
  {
    if ts != [] {
      var last := |ts| - 1;
      var sorted := GymTowns(ts[..last]);
      GymTownsIsStableSort(ts[..last]);
      if ts[last].gym.Some? {
        InsertSorts(sorted, ts[last]);
        forall n ensures OfOrder(GymTowns(ts), n) == OfOrder(ts, n) {
          InsertKeepsPlaces(sorted, ts[last], n);
          assert (sorted + [ts[last]])[..|sorted|] == sorted;
        }
      }
    }
  }

  // ---- Distinct towns and badges -------------------------------------------------------------

  ghost predicate DistinctIds(ts: seq<Town>) {
    forall i, j | 0 <= i < j < |ts| :: ts[i].id != ts[j].id
  }

  /** Town ids are distinct, and no two gyms give the same badge. */
  ghost predicate WellFormed(w: World) {
    && DistinctIds(w.towns)
    && (forall t, u | t in w.towns && u in w.towns && t.gym.Some? && u.gym.Some?
          && t.gym.value.badge == u.gym.value.badge :: t.id == u.id)
  }

  lemma {:induction false} InsertDistinct(sorted: seq<Town>, t: Town)
    requires DistinctIds(sorted) && t.gym.Some?
    requires forall u | u in sorted :: u.gym.Some? && u.id != t.id
    ensures DistinctIds(InsertTown(sorted, t))
    decreases |sorted|
  {
    var last := |sorted| - 1;
    if sorted != [] && sorted[last].gym.value.order > t.gym.value.order {
      InsertDistinct(sorted[..last], t);
      var r := InsertTown(sorted[..last], t);
      forall i | 0 <= i < |r| ensures r[i].id != sorted[last].id {
        assert r[i] in r;
      }
    }
  }

  lemma {:induction false} GymTownsDistinct(ts: seq<Town>)
    requires DistinctIds(ts)
    ensures DistinctIds(GymTowns(ts))
  {
    if ts != [] {
      var last := |ts| - 1;
      GymTownsDistinct(ts[..last]);
      if ts[last].gym.Some? {
        InsertDistinct(GymTowns(ts[..last]), ts[last]);
      }
    }
  }

  lemma SameIdSameTown(w: World, t: Town, u: Town)
    requires WellFormed(w) && t in w.towns && u in w.towns && t.id == u.id
    ensures t == u
  {
  }

  function Badges(order: seq<Town>): (bs: seq<string>)
    requires forall t | t in order :: t.gym.Some?
    ensures |bs| == |order|
  {
    seq(|order|, i requires 0 <= i < |order| => order[i].gym.value.badge)
  }

  function BadgeOrder(w: World): seq<string> {
    Badges(GymTowns(w.towns))
  }

  lemma BadgesDistinct(w: World, i: nat, j: nat)
    requires WellFormed(w)
    requires i < |BadgeOrder(w)| && j < |BadgeOrder(w)| && BadgeOrder(w)[i] == BadgeOrder(w)[j]
    ensures i == j
  {
    GymTownsDistinct(w.towns);
    var order := GymTowns(w.towns);
    assert order[i] in order && order[j] in order;
  }

  // ---- One tick ------------------------------------------------------------------------------

  lemma BadgeAt(w: World, k: nat)
    requires k < |BadgeOrder(w)|
    ensures GymTowns(w.towns)[k].gym.Some? && BadgeOrder(w)[k] == GymTowns(w.towns)[k].gym.value.badge
  {
    assert GymTowns(w.towns)[k] in GymTowns(w.towns);
  }

  lemma GymIsListed(w: World, town: Town)
    requires WellFormed(w) && town in w.towns && town.gym.Some?
    ensures var idx := IndexOfTown(GymTowns(w.towns), town.id);
            idx < |BadgeOrder(w)| && GymTowns(w.towns)[idx] == town
  {
    var order := GymTowns(w.towns);
    var idx := IndexOfTown(order, town.id);
    var at :| 0 <= at < |order| && order[at] == town;
    assert idx <= at;
    assert order[idx] in order;
    SameIdSameTown(w, order[idx], town);
  }

  /** A badge held is one of the first `k`, and each badge has one place in the order. */
  lemma HeldBadge(w: World, badges: seq<string>, i: nat)
    requires WellFormed(w) && badges <= BadgeOrder(w) && i < |BadgeOrder(w)|
    ensures BadgeOrder(w)[i] in badges <==> i < |badges|
  {
    hide BadgeOrder, WellFormed;
    if BadgeOrder(w)[i] in badges {
      var j :| 0 <= j < |badges| && badges[j] == BadgeOrder(w)[i];
      BadgesDistinct(w, i, j);
    }
  }

  /** With the first `k` badges in hand, the only gym that can be challenged is number `k`. */
  lemma EligibleIsNext(env: Env, v: TrainerView, town: Town)
    requires WellFormed(env.world) && town in env.world.towns
    requires v.badges <= BadgeOrder(env.world) && Eligible(env, v, town)
    ensures |v.badges| < |BadgeOrder(env.world)| && GymTowns(env.world.towns)[|v.badges|] == town
  {
    hide WellFormed, AllFainted, GymTowns, IndexOfTown, Badges;
    var w := env.world;
    GymIsListed(w, town);
    var idx := IndexOfTown(GymTowns(w.towns), town.id);
    BadgeAt(w, idx);
    HeldBadge(w, v.badges, idx);
    if idx > 0 {
      BadgeAt(w, idx - 1);
      HeldBadge(w, v.badges, idx - 1);
    }
  }

  /** A hunt touches neither badges nor place nor flags nor the cooldown. */
  lemma HuntStays(env: Env, s: Run, town: Town, forced: bool)
    ensures var r := DoWildEncounter(env, s, town, forced).run;
            && r.trainer.badges == s.trainer.badges
            && r.trainer.location == s.trainer.location
            && r.trainer.strategy == s.trainer.strategy
            && r.cooldown == s.cooldown
  {
    hide AutoFight, Rewarded, ShouldCatch, Stir, GenerateWild, CatchRate, PlanFor, Surgery, HealAll;
  }

  /** What one tick can do to badges and place. */
  datatype Leg = Stay | Beat(town: Town) | Go(from: Town, to: Town)

  ghost predicate Takes(env: Env, s: Run, leg: Leg) {
    var v, v' := s.trainer, Tick(env, s).run.trainer;
    match leg
    case Stay => v'.badges == v.badges && v'.location == v.location
    case Beat(town) =>
      && TownById(env.world.towns, v.location) == Some(town) && Eligible(env, v, town)
      && v'.badges == v.badges + [town.gym.value.badge] && v'.location == v.location
    case Go(from, to) =>
      && TownById(env.world.towns, v.location) == Some(from) && NextStop(env, v, from) == Some(to)
      && v'.badges == v.badges && v'.location == to.id
  }

  lemma TickTakesLeg(env: Env, s: Run) returns (leg: Leg)
    ensures Takes(env, s, leg)
  {
    hide DoWildEncounter, Put, Gauntlet.Outcome, Aftermath, PartyIdx, HealAll, Eligible, NextStop, NeedsHeal;
    leg := Stay;
    var found := TownById(env.world.towns, s.trainer.location);
    if found.Some? && !NeedsHeal(s.trainer) {
      var town := found.value;
      var (go, cooldown) :=
        if s.trainer.strategy.autoGym then ShouldChallengeGym(env, s, town) else (false, s.cooldown);
      var s' := s.(cooldown := cooldown);
      HuntStays(env, s', town, false);
      if go {
        var won := DoGymChallenge(env, s', town.gym.value).1;
        leg := if won then Beat(town) else Stay;
      } else {
        var next := NextStop(env, s.trainer, town);
        leg := if next.Some? then Go(town, next.value) else Stay;
      }
    }
  }

  // ---- Whole runs ----------------------------------------------------------------------------

  lemma TickKeepsPrefix(env: Env, s: Run)
    requires WellFormed(env.world) && s.trainer.badges <= BadgeOrder(env.world)
    ensures Tick(env, s).run.trainer.badges <= BadgeOrder(env.world)
  {
    hide Tick, Eligible, BadgeOrder, TownById, NextStop, WellFormed;
    var leg := TickTakesLeg(env, s);
    if leg.Beat? {
      EligibleIsNext(env, s.trainer, leg.town);
      BadgeAt(env.world, |s.trainer.badges|);
    }
  }

  /** In every run from a trainer without badges, the badges are the first so many of the gym order. */
  lemma {:induction false} BadgesArePrefix(env: Env, s: Run, n: nat)
    requires WellFormed(env.world) && s.trainer.badges <= BadgeOrder(env.world)
    ensures RunTicks(env, s, n).trainer.badges <= BadgeOrder(env.world)
  {
    hide Tick, WellFormed, BadgeOrder;
    if n > 0 {
      BadgesArePrefix(env, s, n - 1);
      TickKeepsPrefix(env, RunTicks(env, s, n - 1));
    }
  }

  /** The gym towns, in gym order, are linked by `nextTown`, and the last leads nowhere. */
  ghost predicate Linked(w: World) {
    var order := GymTowns(w.towns);
    && order != []
    && (forall i | 0 <= i < |order| - 1 :: order[i].nextTown == order[i + 1].id)
    && (order[|order| - 1].nextTown == "" || TownById(w.towns, order[|order| - 1].nextTown).None?)
  }

  /** The trainer stands at the town whose gym is next, or at the one just beaten. */
  ghost predicate OnTheRoad(w: World, v: TrainerView) {
    var order, k := GymTowns(w.towns), |v.badges|;
    && v.badges <= BadgeOrder(w)
    && ((k < |order| && v.location == order[k].id) || (1 <= k <= |order| && v.location == order[k - 1].id))
  }

  lemma TickKeepsRoad(env: Env, s: Run)
    requires WellFormed(env.world) && Linked(env.world) && OnTheRoad(env.world, s.trainer)
    ensures OnTheRoad(env.world, Tick(env, s).run.trainer)
  {
    hide Tick, Eligible, WellFormed, TownById, GymTowns;
    var w, v := env.world, s.trainer;
    var leg := TickTakesLeg(env, s);
    var order, k := GymTowns(w.towns), |v.badges|;
    TickKeepsPrefix(env, s);
    if leg.Beat? {
      EligibleIsNext(env, v, leg.town);
    } else if leg.Go? {
      var p := if k < |order| && v.location == order[k].id then k else k - 1;
      assert order[p] in order;
      SameIdSameTown(w, leg.from, order[p]);
      BadgeAt(w, p);
      HeldBadge(w, v.badges, p);
    }
  }

  /** From the first town, the trainer is always at town `k` with `k` or `k + 1` badges. */
  lemma {:induction false} TrainerIsOnTheRoad(env: Env, s: Run, n: nat)
    requires WellFormed(env.world) && Linked(env.world)
    requires s.trainer.badges == [] && s.trainer.location == GymTowns(env.world.towns)[0].id
    ensures OnTheRoad(env.world, RunTicks(env, s, n).trainer)
  {
    hide Tick, WellFormed, GymTowns;
    if n > 0 {
      TrainerIsOnTheRoad(env, s, n - 1);
      TickKeepsRoad(env, RunTicks(env, s, n - 1));
    }
  }
}
