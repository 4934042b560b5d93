/** Pause flags, floor and instant-sell switch: what sets them, what each flag stops, and what a run leaves of them. */
module GateLaws {
  import opened Wrappers
  import opened Balances
  import opened Economy
  import opened Handlers
  import opened Footprints

  // ---- What a pause flag stops -------------------------------------------------------------------

  /** The bit of the pause flags that stops an instruction; the others cannot be paused. */
  function FlagOf(ix: Instruction): bv8 {
    match ix
    case CatchAttemptIx(_, _, _) => 1
    case MintCardIx(_, _, _, _) => 2
    case ListCardIx(_, _, _, _, _) => 4
    case BuyCardIx(_) => 4
    case InstantSellIx(_) => 8
    case _ => 0
  }

  predicate Stopped(flags: bv8, ix: Instruction) {
    flags & FlagOf(ix) != 0
  }

  /** The same accounts under other pause flags. */
  function WithFlags(l: Ledger, flags: bv8): Ledger
    requires l.config.Some?
  {
    l.(config := Some(l.config.value.(paused := flags)))
  }

  /** A set flag stops its instruction, in any state. */
  lemma FlagStops(l: Ledger, tx: Tx)
    requires l.config.Some? && Stopped(l.config.value.paused, tx.ix)
    ensures Handle(l, tx).Err?
  {
    hide Charge, CatchCostForRarity, Pay, MoveCard, MoveLamportsPda, ReleaseCard, SplitSale, BpsOf, Credit;
    hide MintFeeForTier;
  }

  /** The sink looks at the payer's tokens and the burn counter only. */
  lemma ChargeIgnoresFlags(l: Ledger, l': Ledger, c: Config, flags: bv8, payerToken: Key, poolToken: Key, cost: nat)
    requires l'.page == l.page
    ensures Charge(l', c.(paused := flags), payerToken, poolToken, cost).Ok?
       <==> Charge(l, c, payerToken, poolToken, cost).Ok?
  {
    hide ApplySink;
  }

  lemma CatchIgnoresOtherFlags(l: Ledger, tx: Tx, flags: bv8)
    requires l.config.Some? && tx.ix.CatchAttemptIx?
    requires Stopped(flags, tx.ix) <==> Stopped(l.config.value.paused, tx.ix)
    ensures Handle(WithFlags(l, flags), tx).Ok? <==> Handle(l, tx).Ok?
  {
    hide Charge, CatchCostForRarity;
    forall a: Ledger, b: Ledger, cost: nat | a.page == b.page
      ensures Charge(a, l.config.value.(paused := flags), tx.ix.payerToken, tx.ix.poolToken, cost).Ok?
         <==> Charge(b, l.config.value, tx.ix.payerToken, tx.ix.poolToken, cost).Ok?
    {
      ChargeIgnoresFlags(b, a, l.config.value, flags, tx.ix.payerToken, tx.ix.poolToken, cost);
    }
  }

  lemma SinksIgnoreFlags(l: Ledger, tx: Tx, flags: bv8)
    requires l.config.Some? && (tx.ix.DeployAgentIx? || tx.ix.GymChallengeIx? || tx.ix.ForceEvolveIx?)
    ensures Handle(WithFlags(l, flags), tx).Ok? <==> Handle(l, tx).Ok?
  {
    hide Charge, SetBadge;
    hide Handlers.Initialize, Handlers.CatchAttempt, MintCard, ListCard, CancelListing, BuyCard, InstantSell;
    hide UpdateFloor, SetInstantSell, WithdrawTreasury, SetPause;
    forall a: Ledger, b: Ledger, cost: nat | a.page == b.page
      ensures Charge(a, l.config.value.(paused := flags), tx.ix.payerToken, tx.ix.poolToken, cost).Ok?
         <==> Charge(b, l.config.value, tx.ix.payerToken, tx.ix.poolToken, cost).Ok?
    {
      ChargeIgnoresFlags(b, a, l.config.value, flags, tx.ix.payerToken, tx.ix.poolToken, cost);
    }
  }

  lemma MintingIgnoresOtherFlags(l: Ledger, tx: Tx, flags: bv8)
    requires l.config.Some? && tx.ix.MintCardIx? && (Stopped(flags, tx.ix) <==> Stopped(l.config.value.paused, tx.ix))
    ensures Handle(WithFlags(l, flags), tx).Ok? <==> Handle(l, tx).Ok?
  {
    hide MintFeeForTier, BpsOf, CheckedSub, CheckedAdd, Credit, Pay;
  }

  lemma MarketIgnoresOtherFlags(l: Ledger, tx: Tx, flags: bv8)
    requires l.config.Some? && (tx.ix.ListCardIx? || tx.ix.BuyCardIx? || tx.ix.InstantSellIx?)
    requires Stopped(flags, tx.ix) <==> Stopped(l.config.value.paused, tx.ix)
    ensures Handle(WithFlags(l, flags), tx).Ok? <==> Handle(l, tx).Ok?
  {
    hide Credit, Pay, MoveCard, ReleaseCard, SplitSale, BpsOf, CheckedSub, CheckedAdd, MoveLamportsPda;
    hide Handlers.Initialize, Handlers.DeployAgent, Handlers.CatchAttempt, Handlers.GymChallenge, ForceEvolve;
    hide MintCard, CancelListing, UpdateFloor, SetInstantSell, WithdrawTreasury, SetPause;
  }

  lemma AdminIgnoresFlags(l: Ledger, tx: Tx, flags: bv8)
    requires l.config.Some? && (IsAdmin(tx.ix) || tx.ix.InitializeIx? || tx.ix.CancelListingIx?)
    ensures Handle(WithFlags(l, flags), tx).Ok? <==> Handle(l, tx).Ok?
  {
    hide BpsOf, MoveLamportsPda, Bal, ReleaseCard;
    hide Handlers.DeployAgent, Handlers.CatchAttempt, Handlers.GymChallenge, ForceEvolve;
    hide MintCard, ListCard, BuyCard, InstantSell;
  }

  /** No other flag matters to it. */
  lemma OnlyItsFlagStops(l: Ledger, tx: Tx, flags: bv8)
    requires l.config.Some? && (Stopped(flags, tx.ix) <==> Stopped(l.config.value.paused, tx.ix))
    ensures Handle(WithFlags(l, flags), tx).Ok? <==> Handle(l, tx).Ok?
  {
    hide Handle, WithFlags, Stopped;
    if tx.ix.CatchAttemptIx? {
      CatchIgnoresOtherFlags(l, tx, flags);
    } else if IsSink(tx.ix) {
      SinksIgnoreFlags(l, tx, flags);
    } else if tx.ix.MintCardIx? {
      MintingIgnoresOtherFlags(l, tx, flags);
    } else if tx.ix.ListCardIx? || tx.ix.BuyCardIx? || tx.ix.InstantSellIx? {
      MarketIgnoresOtherFlags(l, tx, flags);
    } else {
      AdminIgnoresFlags(l, tx, flags);
    }
  }

  // ---- What a run leaves -------------------------------------------------------------------------

  /** The flags after a transaction: those of a successful `set_pause`, else those before. */
  function FlagsAfter(l: Ledger, tx: Tx, before: bv8): bv8 {
    if tx.ix.SetPauseIx? && Handle(l, tx).Ok? then tx.ix.flags else before
  }

  function FloorAfter(l: Ledger, tx: Tx, before: nat): nat {
    if tx.ix.UpdateFloorIx? && Handle(l, tx).Ok? then tx.ix.floorPrice else before
  }

  /** A successful `set_instant_sell` sets the switch; a new floor switches off unless one payout is there. */
  function SwitchAfter(l: Ledger, tx: Tx, before: bool): bool {
    if Handle(l, tx).Err? then before
    else match tx.ix
         case SetInstantSellIx(enabled) => enabled
         case UpdateFloorIx(floor) => before && floor > 0 && l.pool.Some? && floor / 2 <= l.pool.value.totalLamports
         case _ => before
  }

  ghost predicate Gates(l: Ledger, flags: bv8, floor: nat, switch: bool) {
    && l.config.Some? && l.config.value.paused == flags
    && l.pool.Some? && l.pool.value.floorPrice == floor && l.pool.value.instantSellEnabled == switch
  }

  lemma StepGates(l: Ledger, tx: Tx, flags: bv8, floor: nat, switch: bool)
    requires Gates(l, flags, floor, switch)
    ensures Gates(Apply(l, tx), FlagsAfter(l, tx, flags), FloorAfter(l, tx, floor), SwitchAfter(l, tx, switch))
  {
    if Handle(l, tx).Ok? {
      HandleTouches(l, tx);
      if tx.ix.InitializeIx? {
        hide Handle;
        InitializeOnce(l, tx);
      } else if IsAdmin(tx.ix) {
        AdminGates(l, tx);
        hide Handle;
      } else {
        hide Handle;
      }
    } else {
      hide Handle;
    }
  }

  /** `set_pause` stores exactly the flags given, and changes nothing else. */
  lemma SetPauseStores(l: Ledger, authority: Key, flags: bv8)
    requires SetPause(l, authority, flags).Ok?
    ensures l.config.Some? && SetPause(l, authority, flags).value == WithFlags(l, flags)
  {
  }

  /** `set_instant_sell` switches on or off as told, on only with a floor. */
  lemma SetInstantSellStores(l: Ledger, authority: Key, enabled: bool)
    requires SetInstantSell(l, authority, enabled).Ok?
    ensures var after := SetInstantSell(l, authority, enabled).value;
            && l.pool.Some? && after.pool.Some? && after.config == l.config
            && after.pool.value.instantSellEnabled == enabled
            && after.pool.value.floorPrice == l.pool.value.floorPrice
            && (enabled ==> after.pool.value.floorPrice > 0)
  {
  }

  lemma UpdateFloorStores(l: Ledger, authority: Key, floor: U64)
    requires UpdateFloor(l, authority, floor).Ok?
    ensures var after := UpdateFloor(l, authority, floor).value;
            && l.pool.Some? && after.pool.Some? && after.config == l.config
            && after.pool.value.floorPrice == floor
            && (after.pool.value.instantSellEnabled <==>
                  l.pool.value.instantSellEnabled && floor > 0 && floor / 2 <= l.pool.value.totalLamports)
  {
    HalfIs(floor);
    hide BpsOf;
  }

  lemma HalfIs(floor: U64)
    ensures BpsOf(floor, INSTANT_SELL_BPS) == Ok(floor / 2)
  {
  }

  lemma AdminGates(l: Ledger, tx: Tx)
    requires l.config.Some? && l.pool.Some? && IsAdmin(tx.ix) && Handle(l, tx).Ok?
    ensures Gates(Handle(l, tx).value, FlagsAfter(l, tx, l.config.value.paused),
                  FloorAfter(l, tx, l.pool.value.floorPrice), SwitchAfter(l, tx, l.pool.value.instantSellEnabled))
  {
    hide UpdateFloor, SetInstantSell, SetPause, MoveLamportsPda, Bal;
    hide Handlers.Initialize, Handlers.DeployAgent, Handlers.CatchAttempt, Handlers.GymChallenge, ForceEvolve;
    hide MintCard, ListCard, CancelListing, BuyCard, InstantSell;
    match tx.ix
    case SetPauseIx(flags) => SetPauseStores(l, tx.signer, flags);
    case SetInstantSellIx(enabled) => SetInstantSellStores(l, tx.signer, enabled);
    case UpdateFloorIx(floor) => UpdateFloorStores(l, tx.signer, floor);
    case _ =>
  }

  function Flags(l: Ledger, txs: seq<Tx>): bv8
    requires l.config.Some?
  {
    if txs == [] then l.config.value.paused
    else FlagsAfter(ApplyAll(l, txs[..|txs| - 1]), txs[|txs| - 1], Flags(l, txs[..|txs| - 1]))
  }

  function Floor(l: Ledger, txs: seq<Tx>): nat
    requires l.pool.Some?
  {
    if txs == [] then l.pool.value.floorPrice
    else FloorAfter(ApplyAll(l, txs[..|txs| - 1]), txs[|txs| - 1], Floor(l, txs[..|txs| - 1]))
  }

  function Switch(l: Ledger, txs: seq<Tx>): bool
    requires l.pool.Some?
  {
    if txs == [] then l.pool.value.instantSellEnabled
    else SwitchAfter(ApplyAll(l, txs[..|txs| - 1]), txs[|txs| - 1], Switch(l, txs[..|txs| - 1]))
  }

  /** Over every run: the flags of the last `set_pause`, the last floor, the switch as last set or cleared. */
  lemma {:induction false} GatesAreHistory(l: Ledger, txs: seq<Tx>)
    requires l.config.Some? && l.pool.Some?
    ensures Gates(ApplyAll(l, txs), Flags(l, txs), Floor(l, txs), Switch(l, txs))
  {
    hide Apply, FlagsAfter, FloorAfter, SwitchAfter;
    if txs != [] {
      var front := txs[..|txs| - 1];
      GatesAreHistory(l, front);
      StepGates(ApplyAll(l, front), txs[|txs| - 1], Flags(l, front), Floor(l, front), Switch(l, front));
    }
  }
}
