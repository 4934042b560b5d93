/** Where the records on chain come from: every listing, card and setting is what some transaction asked for. */
module RecordLaws {
  import opened Wrappers
  import opened Balances
  import opened Economy
  import opened Handlers
  import opened Footprints

  // ---- What an instruction records -------------------------------------------------------------

  /** The listing that a transaction asks for. */
  predicate AsksListing(tx: Tx, mint: Key, r: Listing) {
    && tx.ix.ListCardIx? && tx.ix.mint == mint
    && r.seller == tx.signer && r.createdAt == tx.now && r.active
    && r.price == tx.ix.price && r.tier == tx.ix.tier && r.level == tx.ix.level && r.stage == tx.ix.stage
  }

  predicate AsksCard(tx: Tx, mint: Key, r: CardMeta) {
    && tx.ix.MintCardIx? && tx.ix.mint == mint
    && r.owner == tx.signer && r.mintedAt == tx.now
    && r.tier == tx.ix.tier && r.level == tx.ix.level && r.stage == tx.ix.stage
  }

  predicate AsksConfig(tx: Tx, c: Config) {
    && tx.ix.InitializeIx?
    && c.authority == tx.signer && c.treasury == tx.ix.treasury && c.buybackVault == tx.ix.vault
    && c.burnBps == tx.ix.burnBps && c.poolBps == tx.ix.poolBps && c.marketFeeBps == tx.ix.marketFeeBps
    && c.listingFee == tx.ix.listingFee && c.instantSellBps == 5_000
  }

  /** What a step can add: its own listing under a key without one, its own card likewise, and its own settings. */
  ghost predicate Recorded(l: Ledger, after: Ledger, tx: Tx) {
    && (forall k | k in after.listings :: (k in l.listings && after.listings[k] == l.listings[k])
                                       || (k !in l.listings && AsksListing(tx, k, after.listings[k])))
    && (forall k | k in after.cards :: (k in l.cards && after.cards[k] == l.cards[k])
                                    || (k !in l.cards && AsksCard(tx, k, after.cards[k])))
    && (after.config.Some? ==> SameSettings(l, after) || (l.config.None? && AsksConfig(tx, after.config.value)))
  }

  lemma HandleRecords(l: Ledger, tx: Tx)
    requires Handle(l, tx).Ok?
    ensures Recorded(l, Handle(l, tx).value, tx)
  {
    HandleTouches(l, tx);
    hide ApplySink, CatchCostForRarity, SetBadge, Pay, MoveCard, MoveLamportsPda, ReleaseCard, SplitSale, BpsOf, Bal;
    hide MintFeeForTier, Credit, CheckedAdd, CheckedSub, IsPaused, AsksCard, AsksListing, AsksConfig;
    if tx.ix.ListCardIx? {
      ListCardRecords(l, tx);
    } else if tx.ix.MintCardIx? {
      MintCardRecords(l, tx);
    } else if tx.ix.InitializeIx? {
      InitializeRecords(l, tx);
    } else if MovesCards(tx.ix) {
      SalesRecord(l, tx);
    }
    hide Handle;
  }

  lemma ListCardRecords(l: Ledger, tx: Tx)
    requires tx.ix.ListCardIx? && Handle(l, tx).Ok?
    ensures var after, mint := Handle(l, tx).value, tx.ix.mint;
            && mint !in l.listings && mint in after.listings && AsksListing(tx, mint, after.listings[mint])
            && after.listings - {mint} == l.listings
  {
    hide Pay, MoveCard, Credit, IsPaused;
  }

  lemma MintCardRecords(l: Ledger, tx: Tx)
    requires tx.ix.MintCardIx? && Handle(l, tx).Ok?
    ensures var after, mint := Handle(l, tx).value, tx.ix.mint;
            && mint !in l.cards && mint in after.cards && AsksCard(tx, mint, after.cards[mint])
            && after.cards - {mint} == l.cards
  {
    hide Pay, MintFeeForTier, BpsOf, Credit, IsPaused;
  }

  lemma InitializeRecords(l: Ledger, tx: Tx)
    requires tx.ix.InitializeIx? && Handle(l, tx).Ok?
    ensures var after := Handle(l, tx).value;
            && l.config.None? && after.config.Some? && AsksConfig(tx, after.config.value)
            && after.config.value.totalBurned == after.config.value.totalCardsMinted == 0
            && after.config.value.paused == 0 && after.pool == Some(Pool(0, 0, 0, 0, false))
  {
  }

  lemma SalesRecord(l: Ledger, tx: Tx)
    requires tx.ix.BuyCardIx? || tx.ix.CancelListingIx? || tx.ix.InstantSellIx?
    requires Handle(l, tx).Ok?
    ensures forall k | k in Handle(l, tx).value.listings ::
              k in l.listings && Handle(l, tx).value.listings[k] == l.listings[k]
  {
    hide Pay, MoveCard, MoveLamportsPda, ReleaseCard, SplitSale, BpsOf, Credit, IsPaused;
  }

  lemma StepRecords(l: Ledger, tx: Tx)
    ensures Recorded(l, Apply(l, tx), tx)
  {
    hide Handle, AsksListing, AsksCard, AsksConfig;
    if Handle(l, tx).Ok? {
      HandleRecords(l, tx);
    }
  }

  lemma SettingsStayAsked(l: Ledger, before: Ledger, after: Ledger)
    ensures SameSettings(l, before) && SameSettings(before, after) ==> SameSettings(l, after)
    ensures forall tx | before.config.Some? && AsksConfig(tx, before.config.value) && SameSettings(before, after) ::
              AsksConfig(tx, after.config.value)
    ensures SameSettings(before, after) ==> before.config.Some?
  {
  }

  // ---- Every run -------------------------------------------------------------------------------

  /** Over every run: a listing, a card or a config that was not there before is what some transaction asked for. */
  lemma {:induction false} RecordsAreAsked(l: Ledger, txs: seq<Tx>)
    ensures var after := ApplyAll(l, txs);
            && (forall k | k in after.listings ::
                  (k in l.listings && after.listings[k] == l.listings[k])
                  || exists tx | tx in txs :: AsksListing(tx, k, after.listings[k]))
            && (forall k | k in after.cards ::
                  (k in l.cards && after.cards[k] == l.cards[k])
                  || exists tx | tx in txs :: AsksCard(tx, k, after.cards[k]))
            && (after.config.Some? ==>
                  SameSettings(l, after) || exists tx | tx in txs :: AsksConfig(tx, after.config.value))
  {
    hide Apply, AsksListing, AsksCard;
    if txs != [] {
      var front, tx := txs[..|txs| - 1], txs[|txs| - 1];
      RecordsAreAsked(l, front);
      StepRecords(ApplyAll(l, front), tx);
      assert txs == front + [tx];
      SettingsStayAsked(l, ApplyAll(l, front), ApplyAll(l, txs));
      hide AsksConfig, SameSettings;
    }
  }
}
