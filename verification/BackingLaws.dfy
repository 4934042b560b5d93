/** Exactly when the vault holds what the pool says it holds, whoever signs and whichever parties coincide. */
module BackingLaws {
  import opened Balances
  import opened Economy
  import opened Handlers
  import opened Footprints
  import opened PoolLaws

  ghost predicate SetUp(l: Ledger) {
    PoolSound(l) && l.config.Some? && l.pool.Some?
  }

  /** What the vault holds beyond the pool's total; negative when the pool is not backed. */
  function Slack(l: Ledger): int
    requires l.config.Some? && l.pool.Some?
  {
    Bal(l.lamports, l.config.value.buybackVault) - l.pool.value.totalLamports
  }

  predicate Covered(l: Ledger) {
    l.config.Some? && l.pool.Some? && l.pool.value.totalLamports <= Bal(l.lamports, l.config.value.buybackVault)
  }

  /** What a transaction adds to the slack: nothing, unless the vault is also the signer, the seller or the treasury. */
  ghost function Drift(l: Ledger, tx: Tx): int
    requires SetUp(l)
  {
    var c := l.config.value;
    var vault, treasury := c.buybackVault, c.treasury;
    if Handle(l, tx).Err? then 0
    else
      match tx.ix
      case MintCardIx(_, tier, _, _) =>
        Part(treasury == vault, FeeOf(tier) - FeeOf(tier) / 2) - Part(tx.signer == vault, FeeOf(tier))
      case ListCardIx(_, _, _, _, _) => 0 - Part(tx.signer == vault, c.listingFee)
      case BuyCardIx(mint) =>
        if mint !in l.listings then 0
        else
          var p := SaleParts(c, l.listings[mint]);
          Part(p.a == vault, p.x) + Part(treasury == vault, p.z) - Part(tx.signer == vault, p.Price())
      case InstantSellIx(_) => Part(tx.signer == vault, l.pool.value.floorPrice / 2)
      case WithdrawTreasuryIx(amount) => Part(tx.signer == vault, amount) - Part(treasury == vault, amount)
      case _ => 0
  }

  ghost function Drifts(l: Ledger, txs: seq<Tx>): int
    requires SetUp(l)
  {
    if txs == [] then 0
    else
      var front := txs[..|txs| - 1];
      RunStaysSetUp(l, front);
      Drifts(l, front) + Drift(ApplyAll(l, front), txs[|txs| - 1])
  }

  lemma RunStaysSetUp(l: Ledger, txs: seq<Tx>)
    requires SetUp(l)
    ensures SetUp(ApplyAll(l, txs))
  {
    hide ApplyAll, Sum, Bal;
    RunKeepsPool(l, txs, 0);
    SettingsNeverChange(l, txs);
  }

  // ---- One transaction -------------------------------------------------------------------------

  /** The settings stay, and the slack moves by `drift`. */
  ghost predicate SlackMoves(l: Ledger, after: Ledger, drift: int)
    requires l.config.Some? && l.pool.Some?
  {
    && after.config.Some? && after.pool.Some?
    && Slack(after) == Slack(l) + drift
  }

  lemma PdaShifts(m: Book<Key>, source: Key, to: Key, amount: nat)
    requires MoveLamportsPda(m, source, to, amount).Ok?
    ensures forall k :: Bal(MoveLamportsPda(m, source, to, amount).value, k)
                     == Bal(m, k) - Part(k == source, amount) + Part(k == to, amount)
  {
    MoveIsFair(m, source, to, amount);
    hide Move, Sum, Bal;
  }

  lemma MintCardSlack(l: Ledger, payer: Key, mint: Key, tier: U8, stage: U8, level: U8, now: int)
    requires SetUp(l) && MintCard(l, payer, mint, tier, stage, level, now).Ok?
    ensures SlackMoves(l, MintCard(l, payer, mint, tier, stage, level, now).value,
                       Drift(l, Tx(payer, MintCardIx(mint, tier, stage, level), now)))
  {
    hide Pay, IsPaused, MintFeeForTier, Credit, Bal, PoolSound;
    FeeSplits(tier);
    var c, fee := l.config.value, FeeOf(tier);
    CreditAdds(l.pool.value, fee / 2);
    PayShifts(l.lamports, payer, c.buybackVault, fee / 2);
    PayShifts(Pay(l.lamports, payer, c.buybackVault, fee / 2).value, payer, c.treasury, fee - fee / 2);
    hide BpsOf, FeeOf;
  }

  lemma ListCardSlack(l: Ledger, seller: Key, mint: Key, price: U64, tier: U8, level: U8, stage: U8, now: int)
    requires SetUp(l) && ListCard(l, seller, mint, price, tier, level, stage, now).Ok?
    ensures SlackMoves(l, ListCard(l, seller, mint, price, tier, level, stage, now).value,
                       Drift(l, Tx(seller, ListCardIx(mint, price, tier, level, stage), now)))
  {
    hide Pay, MoveCard, IsPaused, Credit, Bal, PoolSound;
    CreditAdds(l.pool.value, l.config.value.listingFee);
    PayShifts(l.lamports, seller, l.config.value.buybackVault, l.config.value.listingFee);
  }

  lemma BuyCardSlack(l: Ledger, buyer: Key, mint: Key, now: int)
    requires SetUp(l) && BuyCard(l, buyer, mint).Ok?
    ensures SlackMoves(l, BuyCard(l, buyer, mint).value, Drift(l, Tx(buyer, BuyCardIx(mint), now)))
  {
    hide Pay, ReleaseCard, SplitSale, IsPaused, Credit, Bal;
    var c, listing := l.config.value, l.listings[mint];
    SaleSplitAddsUp(listing.price, c.marketFeeBps);
    var p := SaleParts(c, listing);
    CreditAdds(l.pool.value, p.y);
    var m1 := Pay(l.lamports, buyer, p.a, p.x).value;
    var m2 := Pay(m1, buyer, p.b, p.y).value;
    PayShifts(l.lamports, buyer, p.a, p.x);
    PayShifts(m1, buyer, p.b, p.y);
    PayShifts(m2, buyer, p.c, p.z);
  }

  lemma InstantSellSlack(l: Ledger, seller: Key, mint: Key, now: int)
    requires SetUp(l) && InstantSell(l, seller, mint).Ok?
    ensures SlackMoves(l, InstantSell(l, seller, mint).value, Drift(l, Tx(seller, InstantSellIx(mint), now)))
  {
    hide MoveCard, IsPaused, Bal, MoveLamportsPda, PoolSound;
    var payout := BpsOf(l.pool.value.floorPrice, INSTANT_SELL_BPS).value;
    PdaShifts(l.lamports, l.config.value.buybackVault, seller, payout);
  }

  lemma WithdrawSlack(l: Ledger, authority: Key, amount: U64, now: int)
    requires SetUp(l) && WithdrawTreasury(l, authority, amount).Ok?
    ensures SlackMoves(l, WithdrawTreasury(l, authority, amount).value,
                       Drift(l, Tx(authority, WithdrawTreasuryIx(amount), now)))
  {
    hide Bal, MoveLamportsPda, PoolSound;
    PdaShifts(l.lamports, l.config.value.treasury, authority, amount);
  }

  /** The other instructions move no lamports, and touch neither the pool's total nor the vault. */
  lemma OthersSlack(l: Ledger, tx: Tx)
    requires SetUp(l) && Handle(l, tx).Ok? && !MovesSol(tx.ix)
    ensures SlackMoves(l, Handle(l, tx).value, 0)
  {
    hide Handle, Bal, PoolSound;
    HandleTouches(l, tx);
    if tx.ix.InitializeIx? {
      InitializeOnce(l, tx);
    } else if tx.ix.UpdateFloorIx? || tx.ix.SetInstantSellIx? {
      GatesKeepTotal(l, tx);
    }
  }

  lemma GatesKeepTotal(l: Ledger, tx: Tx)
    requires Handle(l, tx).Ok? && (tx.ix.UpdateFloorIx? || tx.ix.SetInstantSellIx?)
    ensures var after := Handle(l, tx).value;
            l.pool.Some? && after.pool.Some? && after.pool.value.totalLamports == l.pool.value.totalLamports
  {
    hide BpsOf;
  }

  /** From any sound state a transaction moves the slack by exactly its drift. */
  lemma StepSlack(l: Ledger, tx: Tx)
    requires SetUp(l)
    ensures SlackMoves(l, Apply(l, tx), Drift(l, tx))
  {
    hide SlackMoves, SetUp;
    hide Handlers.Initialize, Handlers.DeployAgent, Handlers.CatchAttempt, Handlers.GymChallenge, ForceEvolve;
    hide MintCard, ListCard, CancelListing, BuyCard, InstantSell;
    hide UpdateFloor, SetInstantSell, WithdrawTreasury, SetPause;
    if Handle(l, tx).Ok? {
      match tx.ix
      case MintCardIx(mint, tier, stage, level) => MintCardSlack(l, tx.signer, mint, tier, stage, level, tx.now);
      case ListCardIx(mint, price, tier, level, stage) =>
        ListCardSlack(l, tx.signer, mint, price, tier, level, stage, tx.now);
      case BuyCardIx(mint) => BuyCardSlack(l, tx.signer, mint, tx.now);
      case InstantSellIx(mint) => InstantSellSlack(l, tx.signer, mint, tx.now);
      case WithdrawTreasuryIx(amount) => WithdrawSlack(l, tx.signer, amount, tx.now);
      case _ => OthersSlack(l, tx);
    } else {
      NothingMoves(l);
    }
  }

  lemma NothingMoves(l: Ledger)
    requires SetUp(l)
    ensures SlackMoves(l, l, 0)
  {
  }

  // ---- Every run -------------------------------------------------------------------------------

  /** Over every run, whoever signs, the slack moves by the sum of the drifts. */
  lemma {:induction false} RunSlack(l: Ledger, txs: seq<Tx>)
    requires SetUp(l)
    ensures SlackMoves(l, ApplyAll(l, txs), Drifts(l, txs))
  {
    hide SetUp, Apply, Drift, Slack;
    if txs != [] {
      var front := txs[..|txs| - 1];
      RunSlack(l, front);
      RunStaysSetUp(l, front);
      StepSlack(ApplyAll(l, front), txs[|txs| - 1]);
    } else {
      NothingMoves(l);
    }
  }

  /** So the vault backs the pool throughout a run exactly when no partial sum of drifts uses up the initial slack. */
  lemma BackedThroughout(l: Ledger, txs: seq<Tx>)
    requires SetUp(l)
    ensures (forall i | 0 <= i <= |txs| :: Covered(ApplyAll(l, txs[..i])))
        <==> forall i | 0 <= i <= |txs| :: Slack(l) + Drifts(l, txs[..i]) >= 0
  {
    hide ApplyAll, Drifts, PoolSound, Bal;
    forall i | 0 <= i <= |txs|
      ensures Covered(ApplyAll(l, txs[..i])) <==> Slack(l) + Drifts(l, txs[..i]) >= 0
    {
      RunSlack(l, txs[..i]);
    }
  }

  /** A program starts with the vault's whole balance as slack. */
  lemma SlackFromSetup(l: Ledger, init: Tx, txs: seq<Tx>)
    requires PoolSound(l) && init.ix.InitializeIx? && Handle(l, init).Ok?
    ensures var start := Handle(l, init).value;
            && SetUp(start) && Slack(start) == Bal(l.lamports, init.ix.vault)
            && SlackMoves(start, ApplyAll(start, txs), Drifts(start, txs))
  {
    RunSlack(Handle(l, init).value, txs);
    hide ApplyAll, Bal, Drifts;
  }

  // ---- What can use up the slack ---------------------------------------------------------------

  /** The vault pays for something, or the authority withdraws from it as the treasury. */
  predicate Drains(c: Config, tx: Tx) {
    || (tx.signer == c.buybackVault && (tx.ix.MintCardIx? || tx.ix.ListCardIx? || tx.ix.BuyCardIx?))
    || (c.treasury == c.buybackVault != tx.signer && tx.ix.WithdrawTreasuryIx?)
  }

  lemma OthersDoNotDrain(l: Ledger, tx: Tx)
    requires SetUp(l) && !Drains(l.config.value, tx)
    ensures Drift(l, tx) >= 0
  {
    hide Handle, FeeOf, SaleParts, PoolSound;
  }

  /** In a run without those, a backed pool stays backed, also with one account as vault and treasury. */
  lemma {:induction false} UndrainedStaysBacked(l: Ledger, txs: seq<Tx>)
    requires SetUp(l) && forall tx | tx in txs :: !Drains(l.config.value, tx)
    ensures Drifts(l, txs) >= 0
    ensures Covered(l) ==> Covered(ApplyAll(l, txs))
  {
    hide Apply, Drift, PoolSound, Bal;
    RunSlack(l, txs);
    if txs != [] {
      var front, tx := txs[..|txs| - 1], txs[|txs| - 1];
      UndrainedStaysBacked(l, front);
      RunStaysSetUp(l, front);
      SettingsNeverChange(l, front);
      assert tx in txs;
      assert Drains(ApplyAll(l, front).config.value, tx) == Drains(l.config.value, tx);
      OthersDoNotDrain(ApplyAll(l, front), tx);
    }
  }
}
