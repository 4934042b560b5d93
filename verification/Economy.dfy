/** Amounts, fees and records of the on-chain program: programs/pokeage/src/constants.rs and state/. */
module Economy {
  import opened Wrappers
  import Numbers

  const U64_MAX: nat := 0xffff_ffff_ffff_ffff
  const U32_MAX: nat := 0xffff_ffff

  type U64 = n: nat | n <= 0xffff_ffff_ffff_ffff
  type U32 = n: nat | n <= 0xffff_ffff
  type U16 = n: nat | n <= 0xffff
  type U8 = n: nat | n <= 0xff

  /** The custom errors, and those raised by account constraints and by the runtime's own transfers. */
  datatype Error =
    | AgentAlreadyDeployed | AgentNotDeployed | FeaturePaused | InvalidRarity | InvalidTier
    | InvalidBadgeIndex | ListingInactive | NotListingOwner | PoolInsufficient | InstantSellDisabled
    | FloorNotSet | MathOverflow | InvalidFeeConfig | Unauthorized | InsufficientFunds | InvalidPrice
    | AccountMissing | AccountExists | TransferFailed

  const BPS_DENOM: nat := 10_000
  const BURN_BPS: nat := 7_000
  const POOL_SHARE_BPS: nat := 6_000
  const INSTANT_SELL_BPS: nat := 5_000
  const MAX_TIER: nat := 5
  const BADGE_COUNT: nat := 12

  function Page(n: nat): nat {
    n * 1_000_000
  }

  const DEPLOY_COST: nat := Page(1_000)
  const GYM_COST: nat := Page(50)
  const FORCE_EVOLVE_COST: nat := Page(75_000)

  function CatchCostForRarity(rarity: nat): Result<nat, Error> {
    if rarity == 0 then Ok(Page(10))
    else if rarity == 1 then Ok(Page(100))
    else if rarity == 2 then Ok(Page(1_000))
    else Err(InvalidRarity)
  }

  function MintFeeForTier(tier: nat): Result<nat, Error> {
    if tier == 0 then Ok(1_000_000)
    else if tier == 1 then Ok(3_000_000)
    else if tier == 2 then Ok(10_000_000)
    else if tier == 3 then Ok(50_000_000)
    else if tier == 4 then Ok(200_000_000)
    else if tier == 5 then Ok(1_000_000_000)
    else Err(InvalidTier)
  }

  function CheckedAdd(a: nat, b: nat): (r: Result<U64, Error>) {
    if a + b > U64_MAX then Err(MathOverflow) else Ok(a + b)
  }

  function CheckedSub(a: nat, b: nat): (r: Result<nat, Error>) {
    if a < b then Err(MathOverflow) else Ok(a - b)
  }

  function BpsOf(amount: nat, bps: nat): Result<nat, Error> {
    var v := (amount * bps) / BPS_DENOM;
    if v > U64_MAX then Err(MathOverflow) else Ok(v)
  }

  /** A share of at most the whole never overflows and never exceeds its proportion. */
  lemma BpsOfShare(amount: U64, bps: nat)
    requires bps <= BPS_DENOM
    ensures BpsOf(amount, bps).Ok?
    ensures var v := BpsOf(amount, bps).value;
            v <= amount && BPS_DENOM * v <= amount * bps < BPS_DENOM * (v + 1)
  {
    Numbers.MulMono(amount, amount, bps, BPS_DENOM);
  }

  datatype SinkSplit = SinkSplit(burned: nat, toPool: nat)

  function ComputeSplit(total: nat): Result<SinkSplit, Error> {
    var burned :- BpsOf(total, BURN_BPS);
    var toPool :- CheckedSub(total, burned);
    Ok(SinkSplit(burned, toPool))
  }

  /** The three-way split of a sale. */
  datatype SaleSplit = SaleSplit(sellerNet: nat, poolCut: nat, burnCut: nat)

  function SplitSale(price: nat, feeBps: nat): Result<SaleSplit, Error> {
    var fee :- BpsOf(price, feeBps);
    var poolCut :- BpsOf(fee, POOL_SHARE_BPS);
    var burnCut :- CheckedSub(fee, poolCut);
    var sellerNet :- CheckedSub(price, fee);
    Ok(SaleSplit(sellerNet, poolCut, burnCut))
  }

  /** Under the fee cap the checked arithmetic cannot fail, the parts add up, and the fee is at most a fifth. */
  lemma SaleSplitAddsUp(price: U64, feeBps: nat)
    requires feeBps <= 2000
    ensures SplitSale(price, feeBps).Ok?
    ensures var s := SplitSale(price, feeBps).value;
            s.sellerNet + s.poolCut + s.burnCut == price && 5 * (s.poolCut + s.burnCut) <= price
  {
    BpsOfShare(price, feeBps);
    var fee := BpsOf(price, feeBps).value;
    BpsOfShare(fee, POOL_SHARE_BPS);
    Numbers.MulMono(price, price, feeBps, 2000);
  }

  /** 70 percent burned and the exact rest to the pool, for every amount. */
  lemma SinkSplitAddsUp(total: U64)
    ensures ComputeSplit(total).Ok?
    ensures var s := ComputeSplit(total).value;
            && s.burned + s.toPool == total
            && 10 * s.burned <= 7 * total < 10 * (s.burned + 1)
  {
    BpsOfShare(total, BURN_BPS);
  }

  // ---- Pause flags and badges ----------------------------------------------------------------

  const PAUSE_CATCH: bv8 := 1
  const PAUSE_MINT: bv8 := 2
  const PAUSE_MARKET: bv8 := 4
  const PAUSE_INSTANT_SELL: bv8 := 8

  function BadgeBit(i: nat): bv16
    requires i < BADGE_COUNT
  {
    match i
    case 0 => 0x001 case 1 => 0x002 case 2 => 0x004 case 3 => 0x008
    case 4 => 0x010 case 5 => 0x020 case 6 => 0x040 case 7 => 0x080
    case 8 => 0x100 case 9 => 0x200 case 10 => 0x400 case _ => 0x800
  }

  predicate HasBadge(badges: bv16, i: nat) {
    i < BADGE_COUNT && Overlap(badges, BadgeBit(i))
  }

  predicate Overlap(x: bv16, y: bv16) {
    x & y != 0
  }

  function SetBadge(badges: bv16, i: nat): bv16 {
    if i < BADGE_COUNT then badges | BadgeBit(i) else badges
  }

  lemma SetBadgeSetsOne(badges: bv16, i: nat, j: nat)
    requires i < BADGE_COUNT
    ensures HasBadge(SetBadge(badges, i), j) <==> HasBadge(badges, j) || j == i
  {
    if j == i {
      SetBadgeSets(badges, i);
    } else if j < BADGE_COUNT {
      SetBadgeKeeps(badges, i, j);
    }
    hide *;
  }

  lemma SetBadgeSets(badges: bv16, i: nat)
    requires i < BADGE_COUNT
    ensures HasBadge(SetBadge(badges, i), i)
  {
    hide BadgeBit, Overlap;
    BadgeBitLow(i);
    OrOverlaps(badges, BadgeBit(i));
  }

  lemma SetBadgeKeeps(badges: bv16, i: nat, j: nat)
    requires i < BADGE_COUNT && j < BADGE_COUNT && i != j
    ensures HasBadge(SetBadge(badges, i), j) <==> HasBadge(badges, j)
  {
    hide BadgeBit, Overlap, SetBadge, HasBadge;
    BadgeBitsDisjoint(i, j);
    OrElsewhere(badges, BadgeBit(i), BadgeBit(j));
    BadgeIsBit(badges, j);
    BadgeIsBit(SetBadge(badges, i), j);
    SetBadgeOrs(badges, i);
  }

  lemma BadgeIsBit(badges: bv16, i: nat)
    requires i < BADGE_COUNT
    ensures HasBadge(badges, i) == Overlap(badges, BadgeBit(i))
  {
    hide BadgeBit, Overlap;
  }

  lemma SetBadgeOrs(badges: bv16, i: nat)
    requires i < BADGE_COUNT
    ensures SetBadge(badges, i) == badges | BadgeBit(i)
  {
    hide BadgeBit;
  }

  /** The mask never leaves its twelve bits. */
  lemma SetBadgeInMask(badges: bv16, i: nat)
    requires badges & 0xf000 == 0
    ensures SetBadge(badges, i) & 0xf000 == 0
  {
    hide BadgeBit;
    if i < BADGE_COUNT {
      BadgeBitLow(i);
      OrMasked(badges, BadgeBit(i), 0xf000);
    }
  }

  lemma BadgeBitLow(i: nat)
    requires i < BADGE_COUNT
    ensures BadgeBit(i) != 0 && BadgeBit(i) & 0xf000 == 0
  {
  }

  /** Badge `i` is bit `i`, counted from the lowest. */
  lemma BadgeIsItsBit(badges: bv16, i: nat)
    ensures HasBadge(badges, i) <==> i < 12 && (badges >> i) & 1 == 1
  {
    if i < 12 {
      hide *;
      BadgeIsBit(badges, i);
      BitOf(badges, i);
    }
  }

  lemma BitOf(b: bv16, i: nat)
    requires i < 12
    ensures Overlap(b, BadgeBit(i)) <==> (b >> i) & 1 == 1
  {
    hide *;
    if i < 6 { LowBitOf(b, i); } else { HighBitOf(b, i); }
  }

  lemma LowBitOf(b: bv16, i: nat)
    requires i < 6
    ensures Overlap(b, BadgeBit(i)) <==> (b >> i) & 1 == 1
  {
  }

  lemma HighBitOf(b: bv16, i: nat)
    requires 6 <= i < 12
    ensures Overlap(b, BadgeBit(i)) <==> (b >> i) & 1 == 1
  {
  }

  lemma BadgeBitsDisjoint(i: nat, j: nat)
    requires i < BADGE_COUNT && j < BADGE_COUNT && i != j
    ensures !Overlap(BadgeBit(i), BadgeBit(j))
  {
  }

  lemma OrMasked(b: bv16, x: bv16, mask: bv16)
    requires x & mask == 0
    ensures (b | x) & mask == b & mask
  {
  }

  lemma OrElsewhere(b: bv16, x: bv16, y: bv16)
    requires !Overlap(x, y)
    ensures Overlap(b | x, y) <==> Overlap(b, y)
  {
    OrMasked(b, x, y);
  }

  lemma OrOverlaps(b: bv16, x: bv16)
    requires x != 0
    ensures Overlap(b | x, x)
  {
    assert (b | x) & x == x;
  }

  /** How many of the first `n` badges are held. */
  function CountBadges(badges: bv16, n: nat): nat {
    if n == 0 then 0 else CountBadges(badges, n - 1) + (if HasBadge(badges, n - 1) then 1 else 0)
  }

  lemma {:induction false} SetBadgeCounts(badges: bv16, i: nat, n: nat)
    requires i < BADGE_COUNT
    ensures CountBadges(SetBadge(badges, i), n)
         == CountBadges(badges, n) + (if i < n && !HasBadge(badges, i) then 1 else 0)
  {
    hide HasBadge, SetBadge;
    if n > 0 {
      SetBadgeCounts(badges, i, n - 1);
      SetBadgeSetsOne(badges, i, n - 1);
    }
  }
}
