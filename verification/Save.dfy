/** Saving and loading, as in src/save.ts. */
module Save {
  import opened Wrappers
  import opened Random
  import opened Monsters
  import opened Team

  const SAVE_VERSION := 1

  /** A monster as a save holds it; fields that loading fills in may be missing. */
  datatype SavedMon = SavedMon(
    templateId: int, element: Element, level: nat, xp: Option<int>, stage: Option<nat>, stats: Stats,
    currentHP: Option<int>, ev1: nat, ev2: nat, rarity: Option<Rarity>, affection: Option<real>,
    moves: Option<seq<Move>>)

  datatype SavedTrainer = SavedTrainer(
    team: Option<seq<SavedMon>>, box: Option<seq<SavedMon>>, badges: Option<seq<string>>, location: Option<string>,
    balls: Option<int>, totalBattles: Option<nat>, totalCaught: Option<nat>, strategy: Option<Strategy>)

  datatype SavedGame = SavedGame(version: int, trainer: Option<SavedTrainer>, rngState: Option<Word>)

  datatype LoadError = InvalidSave | UnsupportedVersion(version: int) | NoTrainer

  // ---- Saving --------------------------------------------------------------------------------

  /** Without the cached move list. */
  function StripMon(m: Mon): Mon {
    m.(moves := None)
  }

  function StripAll(ms: seq<Mon>): (r: seq<Mon>)
    ensures |r| == |ms|
  {
    seq(|ms|, i requires 0 <= i < |ms| => StripMon(ms[i]))
  }

  function StripTrainer(v: TrainerView): TrainerView {
    v.(team := StripAll(v.team), box := StripAll(v.box))
  }

  /** The record of a stripped monster. */
  function RecordOf(m: Mon): SavedMon {
    SavedMon(m.templateId, m.element, m.level, Some(m.xp), Some(m.stage), m.stats, Some(m.currentHP), m.ev1, m.ev2,
             m.rarity, Some(m.affection), None)
  }

  function RecordAll(ms: seq<Mon>): (r: seq<SavedMon>)
    ensures |r| == |ms|
  {
    seq(|ms|, i requires 0 <= i < |ms| => RecordOf(ms[i]))
  }

  function SaveTrainer(v: TrainerView, rngState: Option<Word>): SavedGame {
    SavedGame(SAVE_VERSION,
              Some(SavedTrainer(Some(RecordAll(v.team)), Some(RecordAll(v.box)), Some(v.badges), Some(v.location),
                                Some(v.balls), Some(v.totalBattles), Some(v.totalCaught), Some(v.strategy))),
              rngState)
  }

  // ---- Loading -------------------------------------------------------------------------------

  function Or<T>(o: Option<T>, fallback: T): T {
    if o.Some? then o.value else fallback
  }

  /** Missing numbers count as 0, and a monster without HP comes back at full HP. */
  function NormalizeMon(m: SavedMon): Mon {
    Mon(m.templateId, m.element, m.level, Or(m.xp, 0), Or(m.stage, 0), m.stats, Or(m.currentHP, m.stats.hp),
        m.ev1, m.ev2, m.rarity, Or(m.affection, 0.0), m.moves)
  }

  function NormalizeAll(ms: seq<SavedMon>): (r: seq<Mon>)
    ensures |r| == |ms|
  {
    seq(|ms|, i requires 0 <= i < |ms| => NormalizeMon(ms[i]))
  }

  /** An absent strategy has every flag on. */
  const ALL_ON := Strategy(true, true, true, true, true, map[])

  function LoadTrainer(save: Option<SavedGame>): Result<TrainerView, LoadError> {
    match save
    case None => Err(InvalidSave)
    case Some(s) =>
      if s.version != SAVE_VERSION then Err(UnsupportedVersion(s.version))
      else
        match s.trainer
        case None => Err(NoTrainer)
        case Some(t) =>
          var location := Or(t.location, "");
          Ok(TrainerView(
               NormalizeAll(Or(t.team, [])), NormalizeAll(Or(t.box, [])), Or(t.badges, []),
               if location == "" then "seedling" else location,
               Or(t.balls, 0), Or(t.totalBattles, 0), Or(t.totalCaught, 0), Or(t.strategy, ALL_ON)))
  }

  // ---- Round trips ---------------------------------------------------------------------------

  lemma RecordsLoad(ms: seq<Mon>)
    ensures NormalizeAll(RecordAll(ms)) == StripAll(ms)
  {
  }

  /** Loading a save gives the trainer back, up to the cached moves, unless it stood nowhere. */
  lemma LoadInvertsSave(v: TrainerView, r: Option<Word>)
    ensures LoadTrainer(Some(SaveTrainer(v, r))) == Ok(StripTrainer(v)) <==> v.location != ""
  {
    RecordsLoad(v.team);
    RecordsLoad(v.box);
    hide StripAll, RecordAll, NormalizeAll;
  }

  /** Whatever was missing from a save, what it loads as is saved and loaded unchanged from then on. */
  lemma LoadSettles(save: Option<SavedGame>, r: Option<Word>)
    requires LoadTrainer(save).Ok?
    ensures var v := LoadTrainer(save).value;
            && LoadTrainer(Some(SaveTrainer(v, r))) == Ok(StripTrainer(v))
            && SaveTrainer(StripTrainer(v), r) == SaveTrainer(v, r)
  {
    var v := LoadTrainer(save).value;
    LoadInvertsSave(v, r);
    assert RecordAll(StripAll(v.team)) == RecordAll(v.team);
    assert RecordAll(StripAll(v.box)) == RecordAll(v.box);
    hide NormalizeAll, RecordAll, StripAll;
  }

  /** What an incomplete save loads as: nothing owned, the first town, every flag on; a monster untrained at full HP. */
  lemma LoadFillsIn(r: Option<Word>, m: SavedMon)
    ensures LoadTrainer(Some(SavedGame(1, Some(SavedTrainer(None, None, None, None, None, None, None, None)), r)))
         == Ok(TrainerView([], [], [], "seedling", 0, 0, 0, Strategy(true, true, true, true, true, map[])))
    ensures var bare := m.(xp := None, stage := None, currentHP := None, affection := None);
            && NormalizeMon(bare).xp == 0 && NormalizeMon(bare).stage == 0 && NormalizeMon(bare).affection == 0.0
            && NormalizeMon(bare).currentHP == m.stats.hp
  {
    assert NormalizeAll([]) == [];
  }

  /** Loading fails exactly without a save, with another version than 1, or without a trainer. */
  lemma LoadFails(save: Option<SavedGame>)
    ensures LoadTrainer(save).Ok? <==> save.Some? && save.value.version == 1 && save.value.trainer.Some?
    ensures save == None ==> LoadTrainer(save) == Err(InvalidSave)
    ensures save.Some? && save.value.version != 1 ==>
              LoadTrainer(save) == Err(UnsupportedVersion(save.value.version))
    ensures save.Some? && save.value.version == 1 && save.value.trainer == None ==> LoadTrainer(save) == Err(NoTrainer)
  {
  }
}
