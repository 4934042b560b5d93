/** What each token instruction writes to a player's record, and what a record tells about a whole run. */
module PlayerLaws {
  import opened Numbers
  import opened Economy
  import opened Handlers
  import opened Footprints

  /** A player's record, blank before the first deployment. */
  function RecordOf(l: Ledger, player: Key): Player {
    if player in l.players then l.players[player] else Player(player, false, 0, 0, 0, 0)
  }

  /** Only the one player's record is written. */
  ghost predicate OnlyRecord(l: Ledger, after: Ledger, player: Key) {
    && player in after.players
    && forall k | k != player :: (k in after.players <==> k in l.players)
                              && (k in l.players ==> after.players[k] == l.players[k])
  }

  // ---- One instruction -------------------------------------------------------------------------

  lemma DeployWrites(l: Ledger, player: Key, payerToken: Key, poolToken: Key, now: int)
    requires DeployAgent(l, player, payerToken, poolToken, now).Ok?
    ensures var after := DeployAgent(l, player, payerToken, poolToken, now).value;
            var p, p' := RecordOf(l, player), RecordOf(after, player);
            && OnlyRecord(l, after, player)
            && !p.agentDeployed && p'.agentDeployed && p'.owner == player && p'.lastAction == now
            && p'.totalCaught == p.totalCaught && p'.gymWins == p.gymWins && p'.badges == p.badges
  {
    hide ApplySink;
  }

  lemma CatchWrites(l: Ledger, player: Key, payerToken: Key, poolToken: Key, rarity: U8, now: int)
    requires CatchAttempt(l, player, payerToken, poolToken, rarity, now).Ok?
    ensures var after := CatchAttempt(l, player, payerToken, poolToken, rarity, now).value;
            var p, p' := RecordOf(l, player), RecordOf(after, player);
            && OnlyRecord(l, after, player)
            && p.agentDeployed && p'.agentDeployed && p'.owner == p.owner == player && p'.lastAction == now
            && p'.totalCaught == p.totalCaught + 1 && p'.gymWins == p.gymWins && p'.badges == p.badges
  {
    hide ApplySink, IsPaused, CatchCostForRarity;
  }

  /** A gym challenge sets the badge it pays for and no other. */
  lemma GymWrites(l: Ledger, player: Key, payerToken: Key, poolToken: Key, badge: U8, now: int)
    requires GymChallenge(l, player, payerToken, poolToken, badge, now).Ok?
    ensures var after := GymChallenge(l, player, payerToken, poolToken, badge, now).value;
            var p, p' := RecordOf(l, player), RecordOf(after, player);
            && OnlyRecord(l, after, player)
            && p.agentDeployed && p'.agentDeployed && p'.owner == p.owner == player && p'.lastAction == now
            && p'.totalCaught == p.totalCaught && p'.gymWins == p.gymWins + 1
            && forall j: nat :: HasBadge(p'.badges, j) <==> HasBadge(p.badges, j) || j == badge
  {
    hide ApplySink, SetBadge, HasBadge;
    forall j: nat
      ensures badge < BADGE_COUNT ==>
                (HasBadge(SetBadge(RecordOf(l, player).badges, badge), j)
                 <==> HasBadge(RecordOf(l, player).badges, j) || j == badge)
    {
      if badge < BADGE_COUNT {
        SetBadgeSetsOne(RecordOf(l, player).badges, badge, j);
      }
    }
  }

  lemma EvolveWrites(l: Ledger, player: Key, payerToken: Key, poolToken: Key, now: int)
    requires ForceEvolve(l, player, payerToken, poolToken, now).Ok?
    ensures var after := ForceEvolve(l, player, payerToken, poolToken, now).value;
            var p, p' := RecordOf(l, player), RecordOf(after, player);
            && OnlyRecord(l, after, player)
            && p.agentDeployed && p' == p.(lastAction := now)
  {
    hide ApplySink;
  }

  // ---- One transaction -------------------------------------------------------------------------

  predicate Deploys(ix: Instruction) { ix.DeployAgentIx? }

  predicate Catches(ix: Instruction) { ix.CatchAttemptIx? }

  predicate Challenges(ix: Instruction) { ix.GymChallengeIx? }

  /** Whether a transaction is a successful token instruction of the player. */
  predicate ActsFor(l: Ledger, tx: Tx, player: Key) {
    tx.signer == player && IsSink(tx.ix) && Handle(l, tx).Ok?
  }

  /** How one transaction moves a player's record on. */
  ghost predicate MovesOn(p: Player, p': Player, acts: bool, tx: Tx) {
    && (p'.agentDeployed <==> p.agentDeployed || (acts && Deploys(tx.ix)))
    && p'.totalCaught == p.totalCaught + One(acts && Catches(tx.ix))
    && p'.gymWins == p.gymWins + One(acts && Challenges(tx.ix))
    && (forall j: nat :: HasBadge(p'.badges, j)
                    <==> HasBadge(p.badges, j) || (acts && tx.ix.GymChallengeIx? && j == tx.ix.badgeIndex))
    && p'.lastAction == (if acts then tx.now else p.lastAction)
  }

  lemma SinkMovesOn(l: Ledger, tx: Tx, player: Key)
    requires IsSink(tx.ix) && Handle(l, tx).Ok?
    ensures MovesOn(RecordOf(l, player), RecordOf(Handle(l, tx).value, player), tx.signer == player, tx)
  {
    hide Handlers.DeployAgent, Handlers.CatchAttempt, Handlers.GymChallenge, ForceEvolve, HasBadge;
    match tx.ix
    case DeployAgentIx(payerToken, poolToken) => DeployWrites(l, tx.signer, payerToken, poolToken, tx.now);
    case CatchAttemptIx(payerToken, poolToken, rarity) =>
      CatchWrites(l, tx.signer, payerToken, poolToken, rarity, tx.now);
    case GymChallengeIx(payerToken, poolToken, badge) =>
      GymWrites(l, tx.signer, payerToken, poolToken, badge, tx.now);
    case ForceEvolveIx(payerToken, poolToken) => EvolveWrites(l, tx.signer, payerToken, poolToken, tx.now);
    case _ =>
  }

  lemma StepMovesOn(l: Ledger, tx: Tx, player: Key)
    ensures MovesOn(RecordOf(l, player), RecordOf(Apply(l, tx), player), ActsFor(l, tx, player), tx)
  {
    hide Handle, HasBadge, MovesOn;
    Unmoved(RecordOf(l, player), tx);
    if Handle(l, tx).Ok? {
      if IsSink(tx.ix) {
        SinkMovesOn(l, tx, player);
      } else {
        HandleTouches(l, tx);
      }
    }
  }

  lemma Unmoved(p: Player, tx: Tx)
    ensures MovesOn(p, p, false, tx)
  {
    hide HasBadge;
  }

  // ---- Every run -------------------------------------------------------------------------------

  /** How many of a run's transactions are successful token instructions of the player and of a kind. */
  function Count(l: Ledger, txs: seq<Tx>, player: Key, kind: Instruction -> bool): nat {
    if txs == [] then 0
    else
      var front, tx := txs[..|txs| - 1], txs[|txs| - 1];
      Count(l, front, player, kind) + One(ActsFor(ApplyAll(l, front), tx, player) && kind(tx.ix))
  }

  /** The clock of the last of them, or what was recorded before. */
  function LastSeen(l: Ledger, txs: seq<Tx>, player: Key): int {
    if txs == [] then RecordOf(l, player).lastAction
    else
      var front, tx := txs[..|txs| - 1], txs[|txs| - 1];
      if ActsFor(ApplyAll(l, front), tx, player) then tx.now else LastSeen(l, front, player)
  }

  predicate ChallengesFor(badge: nat, ix: Instruction) {
    ix.GymChallengeIx? && ix.badgeIndex == badge
  }

  /**
    * A record is exactly what the player's successful transactions made it: caught and won once for each, deployed if
    * there was a deployment, the clock of the last, and badge `j` if it was held or some challenge was for it.
    */
  lemma {:induction false} RecordIsHistory(l: Ledger, txs: seq<Tx>, player: Key)
    ensures var p, p' := RecordOf(l, player), RecordOf(ApplyAll(l, txs), player);
            && p'.totalCaught == p.totalCaught + Count(l, txs, player, Catches)
            && p'.gymWins == p.gymWins + Count(l, txs, player, Challenges)
            && (p'.agentDeployed <==> p.agentDeployed || Count(l, txs, player, Deploys) > 0)
            && p'.lastAction == LastSeen(l, txs, player)
  {
    hide Apply, HasBadge, ActsFor;
    if txs != [] {
      var front, tx := txs[..|txs| - 1], txs[|txs| - 1];
      RecordIsHistory(l, front, player);
      StepMovesOn(ApplyAll(l, front), tx, player);
    }
  }

  lemma {:induction false} BadgesAreHistory(l: Ledger, txs: seq<Tx>, player: Key, badge: nat)
    ensures HasBadge(RecordOf(ApplyAll(l, txs), player).badges, badge)
       <==> || HasBadge(RecordOf(l, player).badges, badge)
            || exists i | 0 <= i < |txs| ::
                 ActsFor(ApplyAll(l, txs[..i]), txs[i], player) && ChallengesFor(badge, txs[i].ix)
  {
    hide Apply, HasBadge, ActsFor, RecordOf;
    if txs != [] {
      var last := |txs| - 1;
      var front := txs[..last];
      BadgesAreHistory(l, front, player, badge);
      StepMovesOn(ApplyAll(l, front), txs[last], player);
      forall i | 0 <= i < last ensures front[i] == txs[i] && front[..i] == txs[..i] {
      }
    }
  }
}
