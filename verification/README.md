# Pokeage: a verified model

This project models two machines of the Pokeage repository and proves what every run of them keeps.

**The deterministic engine.** A run is a trainer (party, box, badges, place, balls, counters), a private gym
cooldown and the state of a seeded generator; `Engine.tick` heals, challenges a gym, moves on or hunts. `Ticks` says
what one tick does as a function of that state; the class `Engine` does the same step by step on mutable monsters, and
each of its methods is proved to compute that function. Worlds, rosters, the type chart and the generator's output
mixer are parameters, so the laws hold for all of them.

- `BadgeLaws`: badges are won in gym order, and the trainer's place follows them.
- `LedgerLaws`, `RosterLaws`: balls, throws, catches and battles balance, and so does who is on the roster.
- `MemberLaws`: every owned monster agrees with its species and level, and the roster keeps its shape.
- `ProgressionLaws`: the XP curve, levelling as an action of addition, and exactly which species stay in step.
- `TickLaws`, `EncounterLaws`: what a tick decides, what comes out of the grass, and what each step does to whom.
- `Battle`, `BattleLog`: termination and outcome of the fights, and a replayable log.
- `FightLaws`: whose attack costs whom what, and that being stronger never loses a fight.
- `ResumeLaws`, `CooldownLaws`, `Offline`, `OfflineLaws`: exactly when saved runs resume, and what catch-up is and shows.
- `Random`: the state walk, snapshots, and string seeds.

**The on-chain economy.** The fourteen instructions act on config, pool, player records, listings, card holders and two
kinds of balances. `Handlers` gives each as a function to a new ledger or an error; the class `Program` writes the
accounts in the program's order, stops at the first error, and the runtime undoes what a failing handler wrote.

- `PoolLaws`: lamports are conserved, the pool's books balance, the vault backs them, and a sale settles to the lamport.
- `BackingLaws`: exactly when the vault holds what the pool says, whatever vault, treasury and signers are.
- `SellLaws`: exactly when instant sell pays, and exactly how many sales the pool covers.
- `CustodyLaws`: a card is in escrow exactly while listed, has one holder, and its seller can always take it back.
- `PageLaws`: tokens are conserved, seven tenths of all charges are burned, and players' records earn it.
- `PlayerLaws`, `RecordLaws`, `GateLaws`: every record, listing, setting and gate is exactly the history of a run.
- `OwnerLaws`: nothing leaves an account without its owner's signature but payouts and the treasury's withdrawals.
- `ErrorLaws`: which error each instruction fails with, and that nothing else fails it.
- `Footprints`: what each instruction can touch, and who can move the gates.

**The codec.** `Borsh` models the writer and the reader and proves their round trips; `Accounts` proves that the SDK's
account decoders invert the program's field order.

Read a module's specification functions first, then its laws. `dafny verify dfyconfig.toml` checks everything.

Where code and documentation part, the model follows the code:

- "The pool can never promise a buyback it cannot fund" fails in two ways: `set_instant_sell` does not look at the funds,
  and a sale does not look at what it leaves. `SellLaws.RunFunded` says exactly when the promise holds;
  `SellLaws.EnabledNeedNotPay` and `SellLaws.SaleCanBreakPromise` are runs where it does not.
- `initialize` stores burn and pool rates, but the sinks use the constants; the two agree exactly when 70 percent is
  stored (`PageLaws.StoredSplitIsUsed`, `PageLaws.StoredSplitCanDiffer`). The stored instant-sell rate is always the one used.
- An immune defender still loses exactly 1 HP per hit (`BattleLog.ImmuneLosesOne`).
- `simulateBattle` is said not to mutate its inputs; it caches the moves of each monster that attacks.
  `BattleLog.LeavesInputsIff` says exactly when it leaves both as they were; `BattleLog.TrialMutates` gives fights in which
  it does not. Levelling does not refresh the cache (`ProgressionLaws.GrantKeepsRest`).
- A species with a second evolution but no first never evolves by levelling (`ProgressionLaws.NeverEvolves`), though a
  fresh one is created evolved (`ProgressionLaws.StageInStep` says exactly which species stay in step).
- A save resumes exactly if and only if the gym cooldown, which is not saved, holds back no open challenge while it is
  pending (`CooldownLaws.ResumeIsExactIff`); after a lost gym it does (`CooldownLaws.LostGymBreaksResume`).
- An offline summary can show fewer levels than before (`OfflineLaws.LevelsCanFall`): exactly when the party members let
  go had more levels than the newcomers that joined the party and the XP gained (`OfflineLaws.SummaryLevels`).
- The vault is documented as the SOL home of the pool, but nothing keeps it apart from the treasury or the players;
  `BackingLaws.BackedThroughout` says exactly when it holds what the pool counts on.

## Model

| member | source | states |
|---|---|---|
| Random.RollInt | src/rng.ts:24-27 | an integer draw lies between its bounds, whichever way round they are given |
| Random.RollPick | src/rng.ts:42-44 | a pick is an element of the list, and is missing exactly for the empty list |
| Random.XorRange | src/rng.ts:9-12 | exclusive or of two words of n bits has n bits |
| Random.XorTwice | src/rng.ts:9-12 | exclusive or with a mask undoes itself |
| Random.SeedRecovers | src/rng.ts:9-12 | the start state tells the seed's 32 bits: whitening it again gives them back |
| Random.Rng.Next | src/rng.ts:15-21 | advances the state by the stride and returns the mixer's value for the new state |
| Random.Rng.Int | src/rng.ts:24-27 | value and next state are those of the integer draw, bounds swapped when reversed |
| Random.Rng.Float | src/rng.ts:30-32 | value and next state are those of the scaled draw |
| Random.Rng.Chance | src/rng.ts:35-39 | certain and impossible events leave the state alone, others cost one draw |
| Random.Rng.Pick | src/rng.ts:42-44 | one draw, and the element at the scaled index |
| Random.Rng.Snapshot | src/rng.ts:52-54 | returns the state |
| Random.WalkIsAffine | src/rng.ts:15-16 | after n draws the state is (s + n * stride) mod 2^32 |
| Random.WalkPeriod | src/rng.ts:15-16 | the state returns to s after n draws if and only if 2^32 divides n |
| Random.WalkSplits | src/rng.ts:15-16 | a + b draws are a draws and then b draws |
| Random.RestoreReplays | src/rng.ts:52-59 | restoring the snapshot taken after a draws replays exactly the draws that followed it |
| Random.XorInjective | src/rng.ts:67-70 | exclusive or with a fixed operand loses nothing, on either side |
| Random.SpreadInjective | src/rng.ts:70 | multiplying by the FNV prime modulo 2^32 loses nothing |
| Random.FnvLossless | src/rng.ts:67-71 | one hash step is injective in the hash and in the code unit |
| Random.SeedInjective | src/rng.ts:9-12 | different 32-bit seeds give different start states |
| Random.RngFromString | src/rng.ts:66-73 | the loop leaves a generator in the state of the FNV fold of the text |
| Random.StringSeedsSeparate | src/rng.ts:66-73 | two texts of equal length that differ in exactly one code unit never start from the same state |
| Random.IntegersAre | src/rng.ts:24-27 | an integer draw is the place of the mixer's next value when [0, 1) is cut into as many equal parts as there are integers, from the lower bound up |
| Random.FloatsAre | src/rng.ts:30-32 | a float draw is as far between its bounds as that value is between 0 and 1 |
| Random.ChoicesAre | src/rng.ts:35-44 | a chance succeeds exactly below its probability, and a pick is the element at that value's place |
| Random.MulberryVectors | src/rng.ts:9-21 | start state and first two outputs for the seed 42 |
| Random.FnvVector | src/rng.ts:66-73 | the hash of "a" is the published FNV-1a value |
| Numbers.Root | src/progression.ts:17-20 | the integer part of a k-th root: n^k <= x < (n+1)^k |
| Numbers.RootUnique | src/progression.ts:17-20 | only one number is such an integer part |
| Numbers.ScaledPower | src/progression.ts:17-20 | the floor of c * level^(m/k), stated by integer powers |
| Numbers.ScaledPowerIncreases | src/progression.ts:17-20 | that floor increases with the level, strictly, for the exponents above 1 |
| ProgressionLaws.CurveIsExact | src/progression.ts:17-20 | n = floor(50 L^1.5) up to level 10 and n = floor(80 L^1.7) above, as inequalities between integers |
| ProgressionLaws.CurveIncreases | src/progression.ts:17-20 | the XP curve is positive and strictly increasing from level 1 on, also across the split at 10 |
| Progression.CumulativeXp | src/progression.ts:23-27 | the loop computes the sum of the curve below the level |
| ProgressionLaws.CumulativeIncreases | src/progression.ts:23-27 | cumulative XP is strictly increasing |
| Progression.GrantXp | src/progression.ts:34-66 | the mutated monster and the event list are those of the specification, whose stats are on their own lines (`ProgressionLaws.GrantOnLine`) |
| Progression.RaiseLevel | src/progression.ts:43-62 | one turn of the loop: XP paid, level, stats, healed HP, at most one evolution, and its events |
| Progression.WildXpReward | src/progression.ts:76-87 | a wild win gives at least 12 XP |
| Progression.GymXpReward | src/progression.ts:90-97 | a gym win never takes XP away, for a buff that is not negative |
| ProgressionLaws.WildRewardIs | src/progression.ts:76-87 | the wild reward written out: 5 and 2.5 per level, 2 percent less per level of difference down to 40 percent, catch-up and buff, rounded down, at least 12 |
| ProgressionLaws.GymRewardIs | src/progression.ts:90-97 | the gym reward written out: 15 and 8 per leader, catch-up and buff, rounded down |
| ProgressionLaws.HigherWildIsWorthMore | src/progression.ts:76-87 | for one lead, a higher wild is never worth less |
| ProgressionLaws.GrantSettles | src/progression.ts:39-63 | cumulative XP plus XP rises by exactly the amount; the level never falls and stays within the cap; the XP left cannot buy a level below the cap |
| ProgressionLaws.LevelIsLargestPaidFor | src/progression.ts:42-44 | a level up to 55 is reached if and only if the total XP pays for it |
| ProgressionLaws.LevelUpsBanked | src/progression.ts:42-63 | XP added before the loop only postpones it: same monster, same events in the same order |
| ProgressionLaws.GrantAdds | src/progression.ts:34-66 | granting a and then b is granting a + b, event log included |
| ProgressionLaws.GrantKeepsWounds | src/progression.ts:46-52 | levelling keeps the missing HP and leaves the stats of the new level |
| ProgressionLaws.StatsAreOnLine | src/stats.ts:18-41 | each stat is k 49ths of the way from its own base to its own target, rounded down, for k the levels above 1 up to 49 |
| ProgressionLaws.LineEnds | src/stats.ts:18-25 | so level 1 has the base, level 50 and beyond the target, and each level one stat |
| ProgressionLaws.GrantOnLine | src/progression.ts:42-52 | a grant that gains a level puts every stat on its own line, and one that gains none keeps all |
| ProgressionLaws.LevelCapIs | src/progression.ts:42 | nothing is levelled past 55, and below it the XP left cannot buy a level |
| ProgressionLaws.HpStaysInRange | src/progression.ts:46-52 | no grant can make HP negative if and only if the species' HP target is at least its base HP |
| ProgressionLaws.GrantKeepsRest | src/progression.ts:34-66 | a grant changes level, XP, stats, HP and stage only; cached moves stay those of the level that cached them |
| ProgressionLaws.GrantsNeverWeaken | src/progression.ts:43-52 | no grant lowers the power of any monster of a species if and only if no single level does |
| ProgressionLaws.GrowingNeverFalls | src/progression.ts:46-47 | stat targets at least the bases are enough for that |
| ProgressionLaws.LevelUpsInStep | src/progression.ts:56-62 | under the evolution condition the loop keeps the stage that the level calls for |
| ProgressionLaws.StageInStep | src/progression.ts:56-62 | levelled monsters always have the stage of a fresh one of their level, if and only if the second evolution is absent, unreachable, already passed or strictly after a first one |
| ProgressionLaws.StepsPastSecond | src/progression.ts:56-62 | for every other species a concrete grant leaves the stage behind |
| ProgressionLaws.EvolvesByLevel | src/progression.ts:56-62 | an unevolved monster is evolved by the loop if and only if it is levelled to its first evolution level or past it |
| ProgressionLaws.NeverEvolves | src/progression.ts:56-62 | no grant ever evolves an unevolved monster if and only if it has no first evolution level, none within the cap, or no level left to gain |
| Monsters.MakeCombatant | src/stats.ts:76-103 | a leader's monster has the asked level and at least 11 HP |
| Monsters.CombatantStats | src/stats.ts:10-15 | each stat of a leader's monster comes from its own base: a fiftieth of base times level, rounded down, and five, for HP level and ten |
| Monsters.PowerIs | src/power.ts:8-15 | power is the four stats, three per level, and 100 or 200 for rarity |
| Monsters.InterpMono | src/stats.ts:18-25 | an interpolated stat lies between base and target and never falls with the level |
| Monsters.StatsGrow | src/stats.ts:33-41 | with targets at least the bases, no stat falls with the level |
| Monsters.MonsterInstance.constructor | src/stats.ts:51-73 | an object holding the given monster |
| Battle.DamageFrom | src/damage.ts:40-53 | every light hit takes at least 1 HP, even against an immune type |
| Battle.CalcDamageSimple | src/damage.ts:40-53 | damage and generator state of the specification, one draw each |
| Battle.Exchange | src/battle.ts:131-139 | in an exchange HP only falls; if both stood, at most one side is down afterwards and the remaining HP is strictly less; who hurts whom is `FightLaws.ExchangeHurts` |
| Battle.AutoRounds | src/battle.ts:129-140 | the loop ends with a side down or after exactly 20 turns |
| Battle.AutoFight | src/battle.ts:120-147 | the HP left lies between 0 and the HP at the start |
| Battle.SimulateAuto | src/battle.ts:120-147 | result and generator state are those of the specification |
| Battle.PlayExchange | src/battle.ts:131-139 | the loop body computes the exchange, draws in order, of which `FightLaws.ExchangeHurts` says who hurts whom |
| FightLaws.ExchangeHurts | src/battle.ts:131-139 | who hurts whom: the faster side's own attack, written out, comes off the other's HP, and the other answers with its own unless that felled it |
| FightLaws.DamageIsLightHit | src/damage.ts:40-53 | the light formula written out for attacker and defender |
| FightLaws.AutoFightIs | src/battle.ts:129-147 | the fight is as many exchanges as both stand for, at most 20; won exactly if the foe is down then; HP left and turns reported |
| FightLaws.RoundIs | src/battle.ts:161-196 | a round of the gym: the member's HP left against the leader's monster at full HP, exchanging until one is down; whoever is down makes room, and the member's HP is kept |
| FightLaws.StrongerExchange | src/battle.ts:131-139 | with the same draws, a monster of no less attack, defence and level, as fast and of the same type, is nowhere worse off |
| FightLaws.StrongerWins | src/battle.ts:120-147 | on every seed such a monster wins whatever the weaker one wins, with no fewer HP left |
| FightLaws.StrongerDuels | src/battle.ts:180-191 | the same holds of the uncapped duels of a gym |
| FightLaws.OneHitDecides | src/battle.ts:129-147 | if one least-variance hit of the faster side covers the other's HP, the fight is decided in its favour in the first turn |
| FightLaws.StrikeDeals | src/battle.ts:78-86 | the damage of a landed attack written out: standard formula, bonuses for own type and critical, cap, each rounding where the source rounds |
| FightLaws.StrikeDraws | src/battle.ts:63-91 | which draw decides accuracy, critical and status, and the state left |
| FightLaws.FullAccuracyLands | src/battle.ts:64 | a move of full accuracy never misses |
| FightLaws.ActStrikes | src/battle.ts:57-107 | an attack logs exactly its strike from the current state and goes on from the state that leaves |
| FightLaws.LogIsRight | src/battle.ts:57-107 | over every fight each event is an attack of its side on the other, by its own stats and its own chosen move |
| FightLaws.FasterGoesFirst | src/battle.ts:45-55 | the faster side goes first, and the caller's on a tie |
| FightLaws.FightStops | src/battle.ts:43 | a logged fight stops when a side is down or after 24 turns |
| FightLaws.WonIsFair | src/battle.ts:111-114 | a knock-out decides, else the larger fraction of maximum HP, a tie going to the caller's side |
| Battle.DuelToTheEnd | src/battle.ts:180-190 | the uncapped duel terminates with exactly one side down, and does nothing for a fainted member |
| Battle.Gauntlet.Round | src/battle.ts:168-198 | each turn of the outer loop advances exactly one of the two indices, by one |
| Battle.Gauntlet.Rounds | src/battle.ts:168-198 | the outer loop terminates with one of the two teams used up |
| Battle.SimulateGym | src/battle.ts:157-210 | result, generator state and every member's HP after the write-back are those of the specification, a member listed twice keeping the last; nothing else of a member changes |
| Battle.PlayDuel | src/battle.ts:180-190 | the inner loop computes the duel |
| Battle.StoreHP | src/battle.ts:200-202 | HP floored at zero is written to each member, the last write counting for one listed twice, and nothing else |
| Battle.RoundsSequential | src/battle.ts:168-202 | members before the current one are at 0 HP, later ones untouched, the current one has not gained |
| Battle.RoundsFrontStands | src/battle.ts:168-202 | if all started alive, the current member and all later ones are alive at every round |
| Battle.GymOutcome | src/battle.ts:157-210 | a loss leaves every member at 0 HP; a win of an all-alive party leaves the current member and all later ones alive |
| Battle.GymLogsFoes | src/battle.ts:193-196 | the result log names, in order, exactly the leader's resolvable monsters that fell |
| BattleLog.Strike | src/battle.ts:63-91 | a miss does nothing; a hit takes at least 1 and at most the per-hit cap |
| BattleLog.SimulateBattle | src/battle.ts:31-117 | result, log and generator state are those of the specification; each monster that attacked has its moves cached afterwards and nothing else changed, and both are as before if and only if nobody attacks or each one that does has its moves cached beforehand |
| BattleLog.PlayAct | src/battle.ts:57-107 | one side's attack, its move chosen from the cached moves, skipped once either side is down |
| BattleLog.PlayStrike | src/battle.ts:63-91 | accuracy, variance, critical and status are drawn in the order and under the conditions of the source |
| BattleLog.PickMove | src/moves.ts:147-155 | the first use caches the moves learned, and the choice is from the cached ones |
| FightLaws.CacheIs | src/moves.ts:147-155 | a side that attacks with nothing cached caches the moves of its own type and level, and nothing else changes |
| BattleLog.ByPowerFalls | src/moves.ts:152 | the sorted pool falls in power and holds the same moves |
| BattleLog.ChoiceIsStrong | src/moves.ts:147-155 | the choice is a known move; none is stronger against a weakness and at most one otherwise |
| BattleLog.ChoiceIsSecond | src/moves.ts:147-155 | without a weakness, and with two moves known, another one is at least as strong as the choice |
| BattleLog.ByPowerIsStable | src/moves.ts:152 | moves of equal power keep their places |
| BattleLog.LogReplays | src/battle.ts:36-116 | replaying the log from the starting HPs gives every recorded pair of HPs and the final ones, and each event was made with both sides standing |
| BattleLog.LogIsPaced | src/battle.ts:43-109 | 2 * turns - 1 <= events <= 2 * turns, with equality above while both stand, and at most 24 turns |
| BattleLog.WhoAttacks | src/battle.ts:43-61 | in every fight the faster side attacks if and only if both stand at the start, and the other if and only if both still stand after the first blow |
| BattleLog.LeavesInputsIff | src/battle.ts:30-61 | a fight leaves both monsters as they were if and only if one is down at the start, or the first attacker has its moves cached and the other has too or the first blow fells it; also for one object on both sides |
| BattleLog.TrialMutates | src/battle.ts:30-61 | fights whose first attacker has nothing cached, which do mutate it |
| BattleLog.CapGuarantees | src/battle.ts:83-94 | from full HP, 9 HP survive any two landed hits and 28 HP any three that are not super effective |
| BattleLog.CapBoundsSharp | src/battle.ts:83-94 | the two bounds are the least possible: in one fight 8 HP fall to two landed hits, in another 27 HP to three |
| BattleLog.ImmuneLosesOne | src/battle.ts:78-86 | a hit on an immune defender costs exactly one HP, in both formulas |
| Team.Trainer.constructor | src/team.ts:16-20 | a trainer with the given team, empty box, no badges and zero counters |
| Team.WeakIdx | src/team.ts:34-42 | the first index of least power |
| Team.FindWeakest | src/team.ts:34-42 | the loop finds that index and its power |
| Team.PlaceNewMonster | src/team.ts:16-57 | below four the newcomer joins the party, then below six the box, and else the specification's replacement is made, on the objects themselves; a roster without repeats gets none by a newcomer that was not on it |
| Team.ReplaceWeakest | src/team.ts:32-56 | the full-roster case, both splices included |
| Team.SurgeryOnObjects | src/team.ts:16-57 | the surgery on objects is the surgery on their values and keeps them distinct |
| Team.CaughtIsPlaced | src/team.ts:59-92 | a wild worth catching is never refused a place |
| Team.PartyFirst | src/team.ts:22-30 | a party below four gets the newcomer, then a box below six, and nobody is let go |
| Team.WeakestMakesRoom | src/team.ts:32-56 | with both full the first member of least power makes room, for more power only, and otherwise nothing changes |
| EncounterLaws.CatchIsWorth | src/team.ts:60-92 | a wild is worth a throw if and only if catching is on, a ball is left, its species is new, it is a prized rarity or of an allowed type that the party has at most once, and there is room or a weaker member |
| Team.SurgeryConserves | src/team.ts:22-56 | roster afterwards plus released is roster before plus the newcomer, as multisets |
| Team.PlaceKeepsRoster | src/team.ts:59-92 | placing a wild worth catching keeps party <= 4, box <= 6, species distinct, at most two plain members of a type, and loses no size |
| Team.PlaceKeepsSpecies | src/team.ts:77-80 | species ids stay distinct across party and box |
| Team.PlaceKeepsSlots | src/team.ts:68-90 | at most two members of a type that are neither rare nor legendary, including through a replacement |
| Team.PlaceRaisesFloor | src/team.ts:34-56 | once the roster is full a placement never lowers its least power |
| Ticks.TownById | src/engine.ts:53-55 | the first town with the id, or none when there is none |
| Ticks.GymTowns | src/engine.ts:127-129 | holds exactly the towns that have a gym |
| Ticks.IndexOfTown | src/engine.ts:130 | the first position of the id, or the length |
| Ticks.AliveUpTo | src/engine.ts:147 | exactly the positions of the living, in order |
| Ticks.PartyIdx | src/engine.ts:147 | living members only, in team order |
| Ticks.Put | src/engine.ts:150-158 | the members that fought are replaced, all others are as before |
| Ticks.FirstAlive | src/engine.ts:191-195 | the first living member, or none when all have fainted |
| EngineCore.Engine.constructor | src/engine.ts:40-47 | an engine at rest with no cooldown over the trainer, world and generator |
| EngineCore.Engine.Tick | src/engine.ts:66-110 | the whole new state (every member, counter, badge, place, cooldown, generator) and the result are those of the specification |
| EngineCore.Engine.HealTeam | src/engine.ts:112-117 | every team member at full HP, the box and all else untouched |
| EngineCore.Engine.MoveToTown | src/engine.ts:164-168 | place changed and team healed, nothing else |
| EngineCore.Engine.ShouldChallengeGym | src/engine.ts:119-142 | the decision, and the cooldown counted down only on the path that reaches it |
| EngineCore.Engine.AliveParty | src/engine.ts:147 | the living members in order, at most four, as distinct objects |
| EngineCore.Engine.DoGymChallenge | src/engine.ts:144-162 | fight, badge, three balls and XP on a win, cooldown 5 on a loss |
| EngineCore.Engine.PlayGym | src/engine.ts:147-157 | what the fight and the XP loop do to the members that fought, and that others are untouched |
| EngineCore.Engine.ShareSpoils | src/engine.ts:153-157 | each member of the party gets the reward of its own level |
| EngineCore.Engine.DoWildEncounter | src/engine.ts:170-242 | state, draws and result of an encounter |
| EngineCore.Engine.MeetWild | src/engine.ts:191-242 | heal when nobody stands, back off from a wild too strong, else fight |
| EngineCore.Engine.FightWild | src/engine.ts:203-231 | battle counted, HP written to the lead, then the win or the loss |
| EngineCore.Engine.WinWild | src/engine.ts:211-228 | affection, XP and, when the wild is worth it, a throw |
| EngineCore.Engine.ThrowBall | src/engine.ts:217-227 | one ball fewer; a caught wild is placed and counted |
| EngineCore.Engine.GenerateWildMonster | src/encounter.ts:24-63 | species, level and rarity of the wild with the draws in the source's order |
| BadgeLaws.GymTownsIsStableSort | src/engine.ts:127-129 | gym order is sorted, and towns of equal order keep their places |
| BadgeLaws.EligibleIsNext | src/engine.ts:119-142 | with the first k badges in hand only gym k can be challenged |
| BadgeLaws.HuntStays | src/engine.ts:170-242 | a hunt changes neither badges, place, flags nor cooldown |
| BadgeLaws.TickTakesLeg | src/engine.ts:66-110 | a tick wins the gym of the current town, moves along nextTown from a beaten gym, or leaves badges and place alone |
| BadgeLaws.BadgesArePrefix | src/engine.ts:66-162 | in every run, over every world of distinct town ids and badges, the badges are a prefix of the gym order |
| BadgeLaws.TickKeepsRoad | src/engine.ts:91-102 | one tick keeps the trainer at town k with k or k + 1 badges |
| BadgeLaws.TrainerIsOnTheRoad | src/engine.ts:66-168 | in every run from the first town of a chain of gym towns the trainer is at town k with k or k + 1 badges |
| TickLaws.TickDecides | src/engine.ts:66-110 | a tick heals if and only if nobody stands or healing is on and the lead is below 15 percent; else challenges if and only if the gym is open and due; else travels if and only if a beaten gym's town leads on; else hunts |
| TickLaws.TickDoes | src/engine.ts:84-109 | a challenge is of the gym here and a hunt of the grass here, from the state with the cooldown counted down |
| TickLaws.NowhereRests | src/engine.ts:67-68 | in an unknown town a tick does nothing |
| TickLaws.HealingRests | src/engine.ts:112-117 | a healing tick leaves every member of the team at exactly full HP and touches nothing else of the trainer |
| TickLaws.TravelRests | src/engine.ts:164-168 | a travelling tick does the same in the next town |
| TickLaws.CooldownIs | src/engine.ts:119-125 | the cooldown counts down on ticks that a gym to be won waits for, and a lost challenge sets it to five |
| TickLaws.StateTellsAction | src/engine.ts:66-110 | the reported state is the agent's and tells what was done |
| TickLaws.FirstFourFight | src/engine.ts:144-147 | all who stand go into a gym, unless four stand before them |
| TickLaws.GymMemberIs | src/engine.ts:144-162 | each fighter keeps what the fight left it, on a win with the reward of its own level; nobody else changes |
| EncounterLaws.HuntIs | src/engine.ts:170-196 | a hunt is on the town's first route: the grass may stir, something may come out, and it is met |
| EncounterLaws.GrassStirs | src/engine.ts:178-181 | the grass stirs when the draw is at most four times the route's rate, and a forced encounter draws nothing |
| EncounterLaws.MeetingIs | src/engine.ts:191-201 | the first who stands meets the wild: nobody means healing, three levels above it means leaving it |
| EncounterLaws.LostFightIs | src/engine.ts:203-207 | a lost fight leaves the lead the HP reported and everything else as it was |
| EncounterLaws.WonFightIs | src/engine.ts:203-231 | a won fight gives the lead its HP, affection and XP, and then the wild its place if it is caught |
| EncounterLaws.AffectionGained | src/affection.ts:15-30 | affection gains half the ratio of the levels, between a tenth and two, and stops at 100 |
| EncounterLaws.WildIsFromRoute | src/encounter.ts:24-63 | a common wild is a fresh one of the route's pool and level band, a rare one of the rare pool three to seven levels above it |
| EncounterLaws.PoolsAreDrawn | src/encounter.ts:33-47 | the rare pool is drawn exactly below its odds: 0.8 percent where its first species is legendary and 2 percent elsewhere, times the buff |
| EncounterLaws.WildDraws | src/encounter.ts:33-59 | which draw decides pool, species and level, one after the other, and the state left |
| EncounterLaws.CatchRateIs | src/catch.ts:17-25 | 40, 8 or 1.5 percent by rarity, less half a percent per level, and at least half a percent |
| EncounterLaws.ThrowCatches | src/catch.ts:28-35 | a throw catches exactly when the next draw is below the rate |
| LedgerLaws.ThrowBalances | src/engine.ts:217-227 | a throw costs one ball held, and a catch adds one member unless the roster was full |
| LedgerLaws.TickBalances | src/engine.ts:66-110 | how one tick's report accounts for balls, badges, catches, battles and roster size |
| LedgerLaws.RunBalances | src/engine.ts:150-223 | over every run: balls + throws = starting balls + 3 * badges won, balls stay non-negative, catches <= throws <= battles <= ticks |
| RosterLaws.SurgeryOnSpecies | src/team.ts:22-56 | the surgery on monsters is the surgery on their species |
| RosterLaws.PlaceAccounted | src/team.ts:16-57 | placing a wild worth catching adds it, lets a member go exactly from a full roster, and only one of less power |
| RosterLaws.TickAccounted | src/engine.ts:66-110 | one tick adds to the roster exactly what it reports as caught and removes exactly the member let go for it |
| RosterLaws.RosterAccounted | src/engine.ts:217-223 | over every run the species on the final roster and of everyone released are those of the first roster and of everyone caught |
| RosterLaws.CatchesArePlaced | src/engine.ts:217-223 | over every run the catches are the growth of the roster plus the members let go |
| LedgerLaws.CatchesBounded | src/engine.ts:150-223 | a run from no badges catches at most its starting balls plus 3 per gym of the world |
| LedgerLaws.RosterFills | src/team.ts:22-30 | over every run the catches fill the party up to four, then the box up to six, and then only replace |
| LedgerLaws.PartyFillsFirst | src/team.ts:22-30 | over every run nothing is boxed before the party has four |
| MemberLaws.RewardConsistent | src/engine.ts:153-157 | an XP reward keeps a monster consistent with its species and never weakens it |
| MemberLaws.GrowingThrives | src/stats.ts:33-41 | species whose stat targets are at least the bases meet what the laws over runs ask |
| MemberLaws.WildConsistent | src/encounter.ts:49-62 | a generated wild is consistent: stats, stage, full HP, XP below the threshold |
| MemberLaws.GymKeepsTeam | src/engine.ts:144-162 | a gym challenge keeps every member consistent, won or lost |
| MemberLaws.PlaceKept | src/engine.ts:217-223 | placing a caught wild keeps the roster sound and, once full, its power floor |
| MemberLaws.HuntKept | src/engine.ts:170-242 | a hunt keeps the roster sound, its size and its floor |
| MemberLaws.TickKeeps | src/engine.ts:66-110 | a tick keeps the roster sound, its size and its floor |
| MemberLaws.RunKeeps | src/engine.ts:66-242 | in every run each owned monster has the stats of its species and level and, if its species evolves in step, their stage, 0 <= HP <= max, XP below the threshold or level >= 55; the roster stays in shape, never shrinks and, once full, never loses power at the bottom |
| MemberLaws.RunStatsOnLine | src/stats.ts:33-41 | in every run each stat of each owned monster is on the line from its own base to its own target |
| MemberLaws.StarterIsSound | src/stats.ts:51-73 | a new trainer with one fresh starter, or none, satisfies the invariant |
| Save.LoadInvertsSave | src/save.ts:23-61 | loading a save gives the trainer without cached moves, if and only if its location is not empty |
| Save.LoadSettles | src/save.ts:41-76 | whatever fields were missing from a save, what it loads as is saved and loaded unchanged from then on |
| Save.LoadFillsIn | src/save.ts:41-76 | what an incomplete save loads as: nothing owned, the first town, every flag on, and a monster untrained at full HP |
| Save.LoadFails | src/save.ts:41-48 | loading fails exactly without a save, with another version than 1, or without a trainer |
| ResumeLaws.TickIgnoresMoves | src/engine.ts:66-242 | a tick never reads the cached moves or the agent state |
| ResumeLaws.ResumeIsExact | src/save.ts:17-76 | saved with the generator and resumed, every run of n ticks gives the same trainer up to cached moves, the same generator and the same cooldown, when no cooldown was pending |
| CooldownLaws.HarmlessTick | src/engine.ts:119-125 | a tick that the pending cooldown does not hold back goes on alike without it |
| CooldownLaws.HeldBackTick | src/engine.ts:119-125 | a tick that it holds back leaves another trainer, cached moves aside |
| CooldownLaws.CooldownLossShows | src/engine.ts:119-125 | dropping the cooldown goes unseen for n ticks if and only if it holds back no open challenge while pending |
| CooldownLaws.ResumeIsExactIff | src/save.ts:17-76 | a save resumes exactly for n ticks if and only if the unsaved cooldown holds back no open challenge while pending |
| CooldownLaws.LostGymIsPending | src/engine.ts:144-162 | two ticks after any lost challenge by a team of at most four the cooldown holds back the next one |
| CooldownLaws.LostGymBreaksResume | src/save.ts:17-76 | so a save made there differs from the run at the very next tick |
| CooldownLaws.ClimberCannotResume | src/save.ts:17-76 | a concrete world and run in which that happens |
| Offline.OfflineTicks | src/offline.ts:34-37 | at most 5760 ticks |
| Offline.TicksAre | src/offline.ts:34-37 | one tick for every full 15 seconds away, up to a day |
| Offline.SummaryCounts | src/offline.ts:43-51 | battles, catches and badges of a summary are the fights, catches and gym wins that its ticks report; capped exactly beyond a day |
| Offline.RunOfflineCatchup | src/offline.ts:30-52 | the engine ends in the state after exactly that many ticks, and the summary is the difference |
| Offline.RunsCompose | src/offline.ts:40 | a + b ticks are a ticks and then b |
| Offline.AbsencesAdd | src/offline.ts:40 | two absences in a row run the ticks of both, for any lengths |
| Offline.AbsencesCompose | src/offline.ts:34-37 | two absences run as many ticks as one of their sum if and only if their remainders do not make up a tick, or past the cap, if they run exactly the cap |
| Offline.SummaryNests | src/offline.ts:43-51 | 0 <= caught <= battles <= ticks and badges never negative |
| OfflineLaws.PlaceLevels | src/team.ts:44-56 | a placement lowers the party's levels if and only if a party member of a higher level makes room |
| OfflineLaws.PlaceTrades | src/team.ts:44-56 | a placement changes the party's levels by the newcomer's if it joins the party, less those of the member it replaces there |
| OfflineLaws.WinLevels | src/engine.ts:202-231 | a won encounter changes them by what the reported XP buys the lead and by that trade |
| OfflineLaws.GymLevels | src/engine.ts:144-162 | a gym challenge changes them by what the spoils buy each fighter, and not at all when lost |
| OfflineLaws.TickLevels | src/engine.ts:66-110 | levels after a tick = levels before + gained by XP + the newcomer's if it joined the party - those of the party member let go |
| OfflineLaws.TickLosesLevels | src/engine.ts:66-110 | a tick lowers the party's levels if and only if a party member let go had more levels than the newcomer brought and XP gained |
| OfflineLaws.SummaryLevels | src/offline.ts:43-51 | for every absence the summary's levels are those gained and those traded, and are negative if and only if the trades cost more than the XP brought |
| OfflineLaws.LevelsNeverFall | src/offline.ts:43-51 | an absence of which no tick loses levels never shows fewer |
| OfflineLaws.LevelsCanFall | src/offline.ts:43-51 | a concrete absence of one tick whose summary shows 59 levels fewer |
| Balances.SumUpdate | programs/pokeage/src/instructions/shared.rs:81-93 | replacing one balance changes the sum by the difference |
| Balances.MoveIsFair | programs/pokeage/src/instructions/shared.rs:81-93 | a transfer shifts the amount between two balances, keeps all others and the sum; to oneself it changes nothing |
| Balances.BurnRemoves | programs/pokeage/src/instructions/shared.rs:49-60 | a burn lowers one balance and the sum by the amount |
| Balances.CloseKeeps | programs/pokeage/src/instructions/cancel_listing.rs:73-83 | closing an empty account changes no balance and no sum |
| Balances.UnitHasOneHolder | programs/pokeage/src/instructions/list_card.rs:112-124 | a supply of one is held by exactly one holder |
| Economy.BpsOfShare | programs/pokeage/src/constants.rs:107-118 | a share of at most 10000 basis points never overflows, is at most the whole, and is the exact floor |
| Economy.SinkSplitAddsUp | programs/pokeage/src/instructions/shared.rs:19-26 | the split never fails for any amount, loses nothing, and burns the exact floor of 70 percent |
| Economy.SaleSplitAddsUp | programs/pokeage/src/instructions/buy_card.rs:83-89 | under the fee cap no subtraction can fail; seller net + pool cut + burn cut = price; the fee is at most price / 5 |
| Economy.SetBadgeSetsOne | programs/pokeage/src/state/player.rs:21-33 | setting badge i makes badge i read as held and changes how no other reads |
| Economy.BadgeIsItsBit | programs/pokeage/src/state/player.rs:20-26 | badge i is bit i, and there are twelve |
| Economy.SetBadgeInMask | programs/pokeage/src/state/player.rs:28-33 | the mask stays within its 12 bits |
| Economy.SetBadgeCounts | programs/pokeage/src/state/player.rs:21-33 | the number of badges held rises by one exactly if the badge was new |
| ProgramCore.Program.Transfer | programs/pokeage/src/instructions/list_card.rs:98-110 | a system transfer: debit, then credit, or failure for lack of funds |
| ProgramCore.Program.MoveLamports | programs/pokeage/src/instructions/shared.rs:81-93 | balance check, debit, then credit read after the debit |
| ProgramCore.Program.TransferCard | programs/pokeage/src/instructions/list_card.rs:112-124 | one unit of a card moves between holders, or the transfer fails |
| ProgramCore.Program.CloseEscrow | programs/pokeage/src/instructions/cancel_listing.rs:73-83 | an escrow account closes exactly when it is empty, is then off the books, and no holding and no supply changes by it |
| ProgramCore.Program.Sink | programs/pokeage/src/instructions/shared.rs:39-77 | check of the whole amount, burn, then transfer of the rest |
| ProgramCore.Program.CreditPool | programs/pokeage/src/instructions/buy_card.rs:95-103 | both pool counters rise by the amount, or one of the checked additions fails |
| ProgramCore.Program.Initialize | programs/pokeage/src/instructions/initialize.rs:47-89 | new state or error as specified, including both fee checks |
| ProgramCore.Program.DeployAgent | programs/pokeage/src/instructions/deploy_agent.rs:46-71 | new state or error as specified; the record is written before the tokens move |
| ProgramCore.Program.CatchAttempt | programs/pokeage/src/instructions/catch_attempt.rs:44-71 | new state or error as specified; the counter is bumped before the tokens move |
| ProgramCore.Program.GymChallenge | programs/pokeage/src/instructions/gym_challenge.rs:44-67 | new state or error as specified; badge bit, counter, sink, burn counter in this order; what it writes is `PlayerLaws.GymWrites` |
| ProgramCore.Program.ForceEvolve | programs/pokeage/src/instructions/force_evolve.rs:44-65 | new state or error as specified |
| ProgramCore.Program.MintCard | programs/pokeage/src/instructions/mint_card.rs:53-118 | new state or error as specified; record and counters before the lamports |
| ProgramCore.Program.ListCard | programs/pokeage/src/instructions/list_card.rs:67-124 | new state or error as specified; listing and pool, then fee, then card |
| ProgramCore.Program.CancelListing | programs/pokeage/src/instructions/cancel_listing.rs:13-83 | new state or error as specified; flag, card back, close |
| ProgramCore.Program.BuyCard | programs/pokeage/src/instructions/buy_card.rs:77-176 | new state or error as specified; pool and flag, three payments, card, close; its shares are `PoolLaws.BuyCardShares` |
| ProgramCore.Program.InstantSell | programs/pokeage/src/instructions/instant_sell.rs:58-111 | new state or error as specified; gates, pool debit, card, payout |
| ProgramCore.Program.UpdateFloor | programs/pokeage/src/instructions/admin.rs:26-40 | new state or error as specified; the floor is stored before the toggle is reconsidered |
| ProgramCore.Program.SetInstantSell | programs/pokeage/src/instructions/admin.rs:57-67 | new state or error as specified |
| ProgramCore.Program.WithdrawTreasury | programs/pokeage/src/instructions/admin.rs:87-98 | new state or error as specified |
| ProgramCore.Program.SetPause | programs/pokeage/src/instructions/admin.rs:113-116 | new state or error as specified |
| ProgramCore.Program.Dispatch | programs/pokeage/src/lib.rs:18-93 | each instruction reaches its handler with its arguments |
| ProgramCore.Program.Execute | programs/pokeage/src/lib.rs:18-93 | a failing transaction leaves every account as it was, whatever its handler had written |
| ProgramCore.Program.Run | programs/pokeage/src/lib.rs:18-93 | running transactions one by one gives the state that the laws over runs are about |
| Footprints.HandleTouches | programs/pokeage/src/lib.rs:18-93 | every instruction changes only the accounts in its footprint |
| Footprints.AdminIsSigned | programs/pokeage/src/instructions/admin.rs:13-19 | an administrative instruction succeeds only for the configured authority |
| Footprints.InitializeOnce | programs/pokeage/src/instructions/initialize.rs:15-31 | initialisation succeeds only while neither config nor pool exists |
| Footprints.SettingsNeverChange | programs/pokeage/src/instructions/initialize.rs:64-78 | over every run authority, vault, treasury and rates stay as initialised |
| Footprints.OnlyAuthorityMovesGates | programs/pokeage/src/instructions/admin.rs:13-116 | no run without the authority's signature changes floor, instant-sell switch or pause flags |
| PoolLaws.PayIsFair | programs/pokeage/src/instructions/buy_card.rs:107-118 | a successful payment keeps the sum and every third balance |
| PoolLaws.PayNeedsFunds | programs/pokeage/src/instructions/shared.rs:81-93 | while all lamports fit in 64 bits, either kind of transfer fails exactly for lack of funds |
| PoolLaws.PayShifts | programs/pokeage/src/instructions/buy_card.rs:107-118 | a payment as the change of every balance at once, also to oneself |
| PoolLaws.MintCardKeepsPool | programs/pokeage/src/instructions/mint_card.rs:60-118 | whoever pays, the sum of lamports and the pool's books are kept; the vault's backing is, unless the vault itself pays |
| PoolLaws.ListCardKeepsPool | programs/pokeage/src/instructions/list_card.rs:87-110 | whoever lists, the sum of lamports and the pool's books are kept; the vault's backing is, unless the vault itself lists |
| PoolLaws.BuyCardKeepsPool | programs/pokeage/src/instructions/buy_card.rs:83-144 | whoever buys, the sum of lamports and the pool's books are kept; the vault's backing is, unless the vault itself buys |
| PoolLaws.InstantSellKeepsPool | programs/pokeage/src/instructions/instant_sell.rs:74-111 | an instant sell by anyone keeps the sum, the books and the backing |
| PoolLaws.StepKeepsPool | programs/pokeage/src/lib.rs:18-93 | every transaction keeps the sum and the books, and every honest one the backing |
| PoolLaws.RunKeepsPool | programs/pokeage/src/instructions/buy_card.rs:83-144 | over every run, whoever signs: the sum of lamports is constant, lifetime_in = total_lamports + lifetime_out and instant sell enabled implies a floor; over every run set up with a separate treasury in which the vault itself pays for no mint, listing or purchase, the vault holds at least total_lamports |
| PoolLaws.SharedTreasuryUnbacks | programs/pokeage/src/instructions/admin.rs:87-98 | if treasury and vault are one account, a withdrawal leaves the pool unbacked |
| PoolLaws.SigningVaultUnbacks | programs/pokeage/src/instructions/mint_card.rs:88-118 | if the vault pays a mint fee itself, the pool is left unbacked |
| BackingLaws.MintCardSlack | programs/pokeage/src/instructions/mint_card.rs:60-118 | a mint adds to the vault's slack what it is paid as the treasury, less the fee if it is the payer |
| BackingLaws.ListCardSlack | programs/pokeage/src/instructions/list_card.rs:87-110 | a listing takes the fee if the vault is the seller, and nothing otherwise |
| BackingLaws.BuyCardSlack | programs/pokeage/src/instructions/buy_card.rs:83-144 | a purchase adds what the vault is paid as seller and as treasury, less the price if it is the buyer |
| BackingLaws.InstantSellSlack | programs/pokeage/src/instructions/instant_sell.rs:74-111 | an instant sell adds the payout if the vault sells to itself, and nothing otherwise |
| BackingLaws.WithdrawSlack | programs/pokeage/src/instructions/admin.rs:87-98 | a withdrawal takes the amount if treasury and vault are one account, unless the vault is also the authority |
| BackingLaws.StepSlack | programs/pokeage/src/lib.rs:18-93 | every transaction, whoever signs and whichever parties coincide, changes the vault's lamports less total_lamports by exactly its drift |
| BackingLaws.RunSlack | programs/pokeage/src/lib.rs:18-93 | over every run that difference is the initial one plus the sum of the drifts |
| BackingLaws.BackedThroughout | programs/pokeage/src/lib.rs:18-93 | the vault holds at least total_lamports throughout a run if and only if no partial sum of drifts uses up the initial difference |
| BackingLaws.SlackFromSetup | programs/pokeage/src/instructions/initialize.rs:33-39 | a program is set up with the vault's whole balance as that difference, whatever vault and treasury are |
| BackingLaws.OthersDoNotDrain | programs/pokeage/src/lib.rs:18-93 | only the vault's own mints, listings and purchases, and withdrawals from it as the treasury, can lower that difference |
| BackingLaws.UndrainedStaysBacked | programs/pokeage/src/lib.rs:18-93 | over every run without those a backed pool stays backed, also when treasury and vault are one account |
| PoolLaws.CreditNeedsHeadroom | programs/pokeage/src/instructions/buy_card.rs:95-102 | with sound books only the lifetime counter can refuse an inflow |
| PoolLaws.ThreePayments | programs/pokeage/src/instructions/buy_card.rs:106-144 | whoever coincides with whom, three payments succeed exactly with the needed funds and shift every balance as they should |
| PoolLaws.NeededIsPrice | programs/pokeage/src/instructions/buy_card.rs:106-144 | a payer who is none of the payees needs exactly the price, anyone at most the price |
| PoolLaws.SalePartsAddUp | programs/pokeage/src/instructions/buy_card.rs:83-89 | the parts of a sale are the whole price, at least four fifths of it the seller's |
| PoolLaws.ReleaseNeedsOne | programs/pokeage/src/instructions/buy_card.rs:146-176 | a card is released exactly when escrow holds one unit |
| PoolLaws.BuyCardSettles | programs/pokeage/src/instructions/buy_card.rs:77-176 | whoever the parties are, a purchase succeeds if and only if the listing is open, the card in escrow, the funds there and room in the lifetime counter; then every balance moves by its owner's part of exactly the price, the card is the buyer's and the listing is gone |
| PoolLaws.BuyCardShares | programs/pokeage/src/instructions/buy_card.rs:83-144 | whichever parties coincide: the market fee on the price, rounded down; three fifths of it, rounded down, to the vault and both pool counters; the rest of the fee to the treasury; price less fee to the seller |
| PoolLaws.FeesAre | programs/pokeage/src/constants.rs:81-92 | the mint fee of each tier |
| PoolLaws.PriceSuffices | programs/pokeage/src/instructions/buy_card.rs:77-176 | for a buyer who holds the price the funds are no condition, whichever parties coincide |
| PoolLaws.ListCardSucceeds | programs/pokeage/src/instructions/list_card.rs:67-124 | a listing succeeds if and only if the card is held, unlisted, priced, the market open, the fee payable and the counter has room |
| PoolLaws.MintCardSettles | programs/pokeage/src/instructions/mint_card.rs:53-118 | whoever pays, a mint succeeds if and only if the card is new, of a known tier, paid for and the counters have room; then every balance moves by its part of exactly the tier's fee, half to the pool and the rest to the treasury |
| PoolLaws.WithdrawSettles | programs/pokeage/src/instructions/admin.rs:87-98 | a withdrawal succeeds if and only if the authority asks for no more than the treasury holds; no third balance changes |
| SellLaws.PayoutIsHalf | programs/pokeage/src/instructions/instant_sell.rs:74-75 | the payout is half the floor, rounded down, for every floor |
| SellLaws.InstantSellPays | programs/pokeage/src/instructions/instant_sell.rs:58-111 | in a solvent state an instant sell succeeds if and only if its gates are open, the total covers the payout and the card is held; it pays exactly half the floor; no arithmetic or vault error is left |
| SellLaws.NextSale | programs/pokeage/src/instructions/instant_sell.rs:77-90 | each sale uses up one payout of the total |
| SellLaws.CapacityIsExact | cli/src/commands/pool.rs:53-55 | of any sequence of deliverable sales sale i succeeds if and only if i < total_lamports / payout, and later ones fail for lack of pool funds |
| SellLaws.FloorUpdateFailsClosed | programs/pokeage/src/instructions/admin.rs:26-40 | a floor update never enables, and leaves enabled exactly when one payout is covered |
| SellLaws.SolventFromScratch | programs/pokeage/src/instructions/initialize.rs:64-86 | every state that an honest run reaches after initialisation is solvent |
| SellLaws.StepFunded | programs/pokeage/src/instructions/instant_sell.rs:65-90 | from an enabled-implies-funded state a successful transaction keeps it if and only if switching on finds one payout and a sale finds two |
| SellLaws.RunFunded | programs/pokeage/src/instructions/admin.rs:57-67 | the promise is funded throughout a run if and only if every successful transaction meets those conditions |
| SellLaws.SaleCanBreakPromise | programs/pokeage/src/instructions/instant_sell.rs:77-90 | a concrete sale that leaves the switch on and less than one payout |
| SellLaws.EnabledNeedNotPay | programs/pokeage/src/instructions/admin.rs:57-67 | the switch does not look at the funds: a concrete run enables an empty pool, and the next sell fails |
| CustodyLaws.ListCardKeepsCustody | programs/pokeage/src/instructions/list_card.rs:67-124 | listing moves one unit from the seller to escrow and nothing else |
| CustodyLaws.CancelListingKeepsCustody | programs/pokeage/src/instructions/cancel_listing.rs:47-83 | cancelling moves it back and nothing else |
| CustodyLaws.BuyCardKeepsCustody | programs/pokeage/src/instructions/buy_card.rs:146-176 | a sale moves it to the buyer and nothing else |
| CustodyLaws.InstantSellKeepsCustody | programs/pokeage/src/instructions/instant_sell.rs:92-104 | an instant sell keeps custody and every supply |
| CustodyLaws.StepKeepsCustody | programs/pokeage/src/lib.rs:18-93 | every transaction keeps custody and every supply |
| CustodyLaws.RunKeepsCustody | programs/pokeage/src/instructions/list_card.rs:67-130 | over every run escrow holds one unit of a card exactly while it is listed, every listing is active, and no card is made or lost |
| CustodyLaws.CustodyFromScratch | programs/pokeage/src/instructions/list_card.rs:67-130 | from a state without listings and with empty escrows every run keeps custody |
| CustodyLaws.OneHolder | programs/pokeage/src/instructions/list_card.rs:112-124 | over every run a card of supply one has exactly one holder, which is escrow exactly if it is listed |
| CustodyLaws.SellerCanCancel | programs/pokeage/src/instructions/cancel_listing.rs:15-25 | in every sound state cancelling succeeds if and only if the signer is the recorded seller; no pause flag matters |
| CustodyLaws.ListingStays | programs/pokeage/src/instructions/buy_card.rs:29-36 | a listing is changed by nothing but its sale and its seller's cancellation |
| CustodyLaws.NeverStuck | programs/pokeage/src/instructions/cancel_listing.rs:47-87 | after any transactions short of those the seller can still cancel and gets the card back |
| CustodyLaws.ListThenCancelCostsTheFee | programs/pokeage/src/instructions/cancel_listing.rs:47-87 | list and cancel restores listings and every holder; the listing fee moves from seller to vault, the pool gains it, and nothing else changes |
| CustodyLaws.ListedPriceIsPaid | programs/pokeage/src/instructions/buy_card.rs:83-144 | whatever anyone does between listing and sale, every balance moves by its part of exactly the price asked, at least four fifths of it the lister's |
| CustodyLaws.RunKeepsRecords | programs/pokeage/src/instructions/mint_card.rs:68-86 | over every run a card is recorded at most once, its record never changes, and the mint counter counts the records and never falls |
| PageLaws.PricesSplitExactly | programs/pokeage/src/constants.rs:13-24 | for every price of the program seven tenths is exact |
| PageLaws.PricesAre | programs/pokeage/src/constants.rs:13-24 | the price of each token instruction and rarity |
| PageLaws.SinkConserves | programs/pokeage/src/instructions/shared.rs:39-77 | a sink succeeds exactly when the payer covers the whole amount; balances plus burned are conserved, also when the pool token is the payer's own |
| PageLaws.DeployKeeps | programs/pokeage/src/instructions/deploy_agent.rs:46-71 | a deployment keeps conservation, the 70 percent and the players' records |
| PageLaws.CatchKeeps | programs/pokeage/src/instructions/catch_attempt.rs:44-71 | a catch attempt keeps conservation, the 70 percent and the players' records |
| PageLaws.GymKeeps | programs/pokeage/src/instructions/gym_challenge.rs:44-67 | a gym challenge keeps conservation, the 70 percent and the players' records; badges never outnumber wins |
| PageLaws.EvolveKeeps | programs/pokeage/src/instructions/force_evolve.rs:44-65 | a forced evolution keeps conservation, the 70 percent and the players' records |
| PageLaws.StepKeepsPage | programs/pokeage/src/lib.rs:18-93 | every transaction keeps conservation, the 70 percent and the players' records, and only the four sinks charge |
| PageLaws.RunKeepsPage | programs/pokeage/src/instructions/shared.rs:19-77 | over every run balances plus burned are constant and exactly seven tenths of everything charged is burned |
| PageLaws.RunFromScratch | programs/pokeage/src/state/player.rs:21-34 | from an empty program: total burned >= 700 PAGE per deployment + 7 per catch + 35 per gym win; every record is deployed, its owner's, within 12 bits and has no more badges than wins |
| PageLaws.CatchSucceeds | programs/pokeage/src/instructions/catch_attempt.rs:44-71 | a catch attempt succeeds if and only if recorded, unpaused, of a known rarity and paid for; neither the caught counter nor the burn counter can overflow |
| PageLaws.GymSucceeds | programs/pokeage/src/instructions/gym_challenge.rs:44-67 | a gym challenge succeeds if and only if recorded, a real badge, paid for and the 32-bit win counter has room |
| PageLaws.CountersNeverFall | programs/pokeage/src/state/player.rs:6-34 | over every run no record disappears, caught and win counters and total_burned never fall, and a badge held stays held |
| PageLaws.RunKeepsRates | programs/pokeage/src/instructions/initialize.rs:54-71 | over every run the stored burn and pool rates add up and the stored instant-sell rate is the one payouts use |
| PageLaws.StoredSplitIsUsed | programs/pokeage/src/instructions/shared.rs:19-28 | for every price of the program the split charged is the stored one if and only if 70 percent is stored |
| PageLaws.StoredSplitCanDiffer | programs/pokeage/src/instructions/initialize.rs:54-71 | a config of half and half is accepted, and a deployment still burns 700 PAGE, not 500 |
| PageLaws.DeployedForGood | programs/pokeage/src/instructions/deploy_agent.rs:46-53 | once deployed, every later deployment of that player fails |
| PlayerLaws.DeployWrites | programs/pokeage/src/instructions/deploy_agent.rs:46-56 | a deployment writes owner, flag and clock of the signer's record only |
| PlayerLaws.CatchWrites | programs/pokeage/src/instructions/catch_attempt.rs:53-56 | a catch attempt adds one to the caught counter and stamps the clock, and writes nothing else |
| PlayerLaws.GymWrites | programs/pokeage/src/instructions/gym_challenge.rs:48-52 | a gym challenge adds one win, stamps the clock and sets exactly the badge of its index; no other badge, counter or record changes |
| PlayerLaws.EvolveWrites | programs/pokeage/src/instructions/force_evolve.rs:47-49 | a forced evolution stamps the clock and writes nothing else |
| PlayerLaws.RecordIsHistory | programs/pokeage/src/state/player.rs:6-18 | over every run a record counts exactly its player's successful catches and challenges, is deployed exactly after a deployment, and keeps the clock of the last |
| PlayerLaws.BadgesAreHistory | programs/pokeage/src/state/player.rs:20-34 | over every run a badge is held if and only if it was before or one of the player's successful challenges was for it |
| OwnerLaws.SinksAreSigned | programs/pokeage/src/instructions/shared.rs:39-77 | a token instruction charges a token account of the signer |
| OwnerLaws.StepPaysOwn | programs/pokeage/src/lib.rs:18-93 | no lamports leave an account but the signer's, the vault for a payout and the treasury for its authority |
| OwnerLaws.StepGivesOwn | programs/pokeage/src/lib.rs:18-93 | no card leaves a wallet but by its owner's signature |
| OwnerLaws.UnsignedIsSafe | programs/pokeage/src/lib.rs:18-93 | over every run that a key does not sign, and that is neither vault nor treasury, none of its tokens, lamports and cards is taken |
| RecordLaws.HandleRecords | programs/pokeage/src/lib.rs:18-93 | a transaction records only the listing, card or settings that its own fields ask for, under a key without one |
| RecordLaws.RecordsAreAsked | programs/pokeage/src/instructions/list_card.rs:67-130 | over every run each listing, card and config was there before or is, field by field, what some transaction asked for |
| GateLaws.FlagStops | programs/pokeage/src/state/config.rs:22-35 | a set pause flag stops its instruction in any state: bit 0 catching, 1 minting, 2 the market, 3 instant sell |
| GateLaws.OnlyItsFlagStops | programs/pokeage/src/state/config.rs:22-35 | whether an instruction succeeds depends on no other flag |
| GateLaws.SetPauseStores | programs/pokeage/src/instructions/admin.rs:113-116 | exactly the flags given are stored, and nothing else changes |
| GateLaws.SetInstantSellStores | programs/pokeage/src/instructions/admin.rs:57-67 | the switch is as told, on only with a floor |
| GateLaws.UpdateFloorStores | programs/pokeage/src/instructions/admin.rs:26-40 | the floor is stored, and the switch stays on exactly if a floor is set and one payout is there |
| GateLaws.GatesAreHistory | programs/pokeage/src/instructions/admin.rs:26-116 | over every run: the flags of the last successful set_pause, the floor of the last update, the switch as last set or cleared |
| ErrorLaws.InitializeOutcome | programs/pokeage/src/instructions/initialize.rs:46-58 | which error initialisation fails with, and that it succeeds otherwise |
| ErrorLaws.AdminOutcome | programs/pokeage/src/instructions/admin.rs:26-116 | which error each administrative instruction fails with, and that it succeeds otherwise |
| ErrorLaws.DeployOutcome | programs/pokeage/src/instructions/deploy_agent.rs:46-71 | which error a deployment fails with, and that it succeeds otherwise |
| ErrorLaws.CatchOutcome | programs/pokeage/src/instructions/catch_attempt.rs:44-71 | which error a catch attempt fails with, and that it succeeds otherwise |
| ErrorLaws.GymOutcome | programs/pokeage/src/instructions/gym_challenge.rs:44-67 | which error a gym challenge fails with, and that it succeeds otherwise |
| ErrorLaws.EvolveOutcome | programs/pokeage/src/instructions/force_evolve.rs:44-64 | which error a forced evolution fails with, and that it succeeds otherwise |
| ErrorLaws.MintOutcome | programs/pokeage/src/instructions/mint_card.rs:53-118 | which error a mint fails with, and that it succeeds otherwise |
| ErrorLaws.ListOutcome | programs/pokeage/src/instructions/list_card.rs:67-124 | which error a listing fails with, and that it succeeds otherwise |
| ErrorLaws.CancelOutcome | programs/pokeage/src/instructions/cancel_listing.rs:47-83 | which error a cancellation fails with, and that it succeeds otherwise |
| ErrorLaws.BuyOutcome | programs/pokeage/src/instructions/buy_card.rs:77-176 | which error a purchase fails with, and that it succeeds otherwise |
| ErrorLaws.SellOutcome | programs/pokeage/src/instructions/instant_sell.rs:58-111 | which error an instant sell fails with, and that it succeeds otherwise |
| Borsh.WordReadsBack | sdk/src/borsh.ts:21-47 | a word written little-endian in its width reads back |
| Borsh.ByteIsDigit | sdk/src/borsh.ts:21-47 | byte k of a word is its digit k to the base 256, the lowest first |
| Borsh.WordRewrites | sdk/src/borsh.ts:86-108 | every byte string is the encoding of exactly the number it reads as |
| Borsh.FieldReadsBack | sdk/src/borsh.ts:14-120 | an in-range field reads back from wherever it stands |
| Borsh.RoundTrip | sdk/src/borsh.ts:14-120 | for every list of in-range typed fields, reading the types back gives the fields and ends where the bytes end, whatever surrounds them |
| Borsh.OnlyInRangeSurvives | sdk/src/borsh.ts:14-58 | a field that can be written survives the round trip if and only if it is in range; masked words and keys that are not 32 bytes do not |
| Borsh.EncodingIsInjective | sdk/src/borsh.ts:14-58 | different lists of the same types never share an encoding |
| Borsh.RewriteIsExact | sdk/src/borsh.ts:80-120 | decoding and encoding again gives the bytes read if and only if every byte read as a boolean is 0 or 1 |
| Borsh.DirtyBool | sdk/src/borsh.ts:110-112 | a byte where that fails |
| Borsh.DiscsLandFirst | sdk/src/borsh.ts:60-67 | a discriminator lands before all fields wherever among the calls it is added; several land in reverse order |
| Borsh.BorshWriter.PutU8 | sdk/src/borsh.ts:14-19 | appends the masked byte |
| Borsh.BorshWriter.PutU16 | sdk/src/borsh.ts:21-26 | appends two masked bytes, low first |
| Borsh.BorshWriter.PutU32 | sdk/src/borsh.ts:28-33 | appends four masked bytes, low first |
| Borsh.BorshWriter.PutU64 | sdk/src/borsh.ts:35-40 | appends eight bytes, or fails out of range and writes nothing |
| Borsh.BorshWriter.PutI64 | sdk/src/borsh.ts:42-47 | appends eight bytes of two's complement, or fails out of range and writes nothing |
| Borsh.BorshWriter.PutBool | sdk/src/borsh.ts:49-51 | appends 1 or 0 |
| Borsh.BorshWriter.PutKey | sdk/src/borsh.ts:53-57 | appends the bytes as they are |
| Borsh.BorshWriter.Disc | sdk/src/borsh.ts:60-63 | puts the bytes before everything written so far |
| Borsh.BorshWriter.Build | sdk/src/borsh.ts:65-67 | returns the concatenation of all parts |
| Borsh.BorshReader.GetU8 | sdk/src/borsh.ts:80-84 | value at the offset, which moves on by one; out of range fails |
| Borsh.BorshReader.GetU16 | sdk/src/borsh.ts:86-90 | two bytes read little-endian at the offset, which moves on by two; out of range fails |
| Borsh.BorshReader.GetU32 | sdk/src/borsh.ts:92-96 | four bytes read little-endian at the offset, which moves on by four; out of range fails |
| Borsh.BorshReader.GetU64 | sdk/src/borsh.ts:98-102 | eight bytes read little-endian at the offset, which moves on by eight; out of range fails |
| Borsh.BorshReader.GetI64 | sdk/src/borsh.ts:104-108 | eight bytes of two's complement at the offset, which moves on by eight; out of range fails |
| Borsh.BorshReader.GetBool | sdk/src/borsh.ts:110-112 | true for the byte 1 and false for any other |
| Borsh.BorshReader.GetKey | sdk/src/borsh.ts:115-119 | the next 32 bytes, cut short at the end of the buffer instead of failing |
| Accounts.DecodeConfig | sdk/src/accounts.ts:17-34 | every field from its fixed place, failing exactly for buffers under 170 bytes |
| Accounts.DecodePlayer | sdk/src/accounts.ts:36-47 | every field of a player record from its fixed place, failing exactly for buffers under 64 bytes |
| Accounts.DecodePool | sdk/src/accounts.ts:49-59 | every field of the pool from its fixed place, failing exactly for buffers under 42 bytes |
| Accounts.DecodeListing | sdk/src/accounts.ts:61-74 | every field of a listing from its fixed place, failing exactly for buffers under 93 bytes |
| Accounts.ConfigRoundTrip | programs/pokeage/src/state/config.rs:6-30 | decoding inverts the encoding in the program's field order for every account value and any discriminator; the length is the program's constant |
| Accounts.PlayerRoundTrip | programs/pokeage/src/state/player.rs:6-18 | decoding inverts the program's encoding of every player record after any discriminator |
| Accounts.PoolRoundTrip | programs/pokeage/src/state/pool.rs:6-17 | decoding inverts the program's encoding of every pool value after any discriminator |
| Accounts.ListingRoundTrip | programs/pokeage/src/state/listing.rs:6-20 | decoding inverts the program's encoding of every listing after any discriminator |

## Left out

- MemberLaws.RunKeeps: asks of wild pools and of owned species that HP targets are not below the base and that no level
  lowers the power, which is exactly what grants need (`ProgressionLaws.HpStaysInRange`,
  `ProgressionLaws.GrantsNeverWeaken`), of routes that levels start at 1, and that the XP buff is not negative.
- PoolLaws.RunKeepsPool: the backing is for a vault apart from the treasury that pays for no mint, listing or purchase;
  `BackingLaws.BackedThroughout` has the exact condition for every vault and treasury.
- IEEE 754 rounding: percentages, powers, damage, affection and catch rates are exact rationals or reals.
- The generator's output mixer is defined (`Random.Mulberry`) but the laws use only that it lands in [0, 1).
- Type chart contents, move tables, species, towns and routes: finite data, taken as parameters.
- How moves are learned by type and level: a parameter of the full battle; the choice among them and its cache are modelled.
- Names, assets, `targetStats` copies, rarity tiers and log texts: monsters, towns and results are told by their ids.
- A template's evolution level 0 stands for null or undefined, and an empty string for a missing town or badge.
- The wild in an encounter result is recorded by value, not as the object that joined the roster.
- Levels are natural numbers; a route whose level band is negative is not modelled.
- JSON text of saves, saves whose fields have other types, and monsters saved without stats.
- Ball multipliers above 1, which the engine never passes.
- The config's page mint, account bumps, rent and account creation fees.
- One token account per owner and mint, and no transfers from outside the program between its transactions.
- Solana's account ownership, program-derived addresses and CPI internals; a transaction holds one instruction.
- The clock is an argument of each transaction; events and log messages are not modelled.
- Non-integer arguments of the codec's writer, and negative arguments of `skip`.
- RPC, CLI output, key files, argument parsing and the SDK client: wrappers over libraries.
- Analytics, pricing, balance reports, status effects and the offline summary text: short sums and clamps.
