/** The account decoders of sdk/src/accounts.ts against the field order of programs/pokeage/src/state/. */
module Accounts {
  import opened Wrappers
  import opened Borsh

  const DISC_LEN: nat := 8

  /** The buffer from `offset` on is the encoding of the fields from the n-th on. */
  ghost predicate HoldsFrom(buf: seq<Byte>, fs: seq<Field>, n: nat, offset: nat)
    requires n <= |fs|
  {
    && EncodeAll(fs[n..]).Ok?
    && offset <= |buf|
    && buf[offset..] == EncodeAll(fs[n..]).value
  }

  /** The value of a field is what stands at its offset. */
  ghost predicate StandsAt(buf: seq<Byte>, f: Field, offset: nat) {
    && offset + TypeOf(f).Width() <= |buf|
    && match f
       case I64(v) => v == Signed(NumAt(buf, offset, 8))
       case Bool(b) => b == (NumAt(buf, offset, 1) == 1)
       case PubKey(key) => key == buf[offset..offset + 32]
       case _ => f.v == NumAt(buf, offset, TypeOf(f).Width())
  }

  /** The next field is where the previous one ends. */
  lemma Next(buf: seq<Byte>, fs: seq<Field>, n: nat, offset: nat)
    requires n < |fs| && (forall f | f in fs :: InRange(f)) && HoldsFrom(buf, fs, n, offset)
    ensures StandsAt(buf, fs[n], offset)
    ensures HoldsFrom(buf, fs, n + 1, offset + TypeOf(fs[n]).Width())
  {
    hide Encode, Decode, InRange, StandsAt;
    InRangeEncodes(fs[n]);
    var first, rest := Encode(fs[n]).value, EncodeAll(fs[n + 1..]).value;
    assert fs[n..][1..] == fs[n + 1..];
    assert buf[offset..] == first + rest;
    assert buf[offset..][..|first|] == buf[offset..offset + |first|];
    assert buf[offset..][|first|..] == buf[offset + |first|..];
    FieldReadsBack(fs[n], buf, offset);
    DecodedStands(fs[n], buf, offset);
  }

  lemma DecodedStands(f: Field, buf: seq<Byte>, offset: nat)
    requires offset + TypeOf(f).Width() <= |buf| && Decode(TypeOf(f), buf, offset) == Ok(f)
    ensures StandsAt(buf, f, offset)
  {
    hide NumAt;
  }

  // ---- Config ------------------------------------------------------------------------------

  const CONFIG_LEN: nat := 170

  datatype ConfigAccount = ConfigAccount(
    authority: seq<Byte>, pageMint: seq<Byte>, treasury: seq<Byte>, buybackVault: seq<Byte>, burnBps: int,
    poolBps: int, marketFeeBps: int, instantSellBps: int, listingFee: int, totalBurned: int, totalCardsMinted: int,
    paused: int, bump: int)

  function ConfigFields(a: ConfigAccount): seq<Field> {
    [
      PubKey(a.authority), PubKey(a.pageMint), PubKey(a.treasury), PubKey(a.buybackVault), U16(a.burnBps),
      U16(a.poolBps), U16(a.marketFeeBps), U16(a.instantSellBps), U64(a.listingFee), U64(a.totalBurned),
      U64(a.totalCardsMinted), U8(a.paused), U8(a.bump)
    ]
  }

  lemma ConfigFieldsAre(a: ConfigAccount)
    ensures var fs := ConfigFields(a);
            && |fs| == 13
            && fs[0] == PubKey(a.authority) && fs[1] == PubKey(a.pageMint) && fs[2] == PubKey(a.treasury) &&
               fs[3] == PubKey(a.buybackVault) && fs[4] == U16(a.burnBps) && fs[5] == U16(a.poolBps) &&
               fs[6] == U16(a.marketFeeBps) && fs[7] == U16(a.instantSellBps) && fs[8] == U64(a.listingFee) &&
               fs[9] == U64(a.totalBurned) && fs[10] == U64(a.totalCardsMinted) && fs[11] == U8(a.paused) &&
               fs[12] == U8(a.bump)
  {
  }

  /** Every field at its fixed place; the discriminator is not looked at. */
  function ConfigAt(buf: seq<Byte>): ConfigAccount
    requires |buf| >= CONFIG_LEN
  {
    ConfigAccount(
      buf[8..40], buf[40..72], buf[72..104], buf[104..136], NumAt(buf, 136, 2), NumAt(buf, 138, 2),
      NumAt(buf, 140, 2), NumAt(buf, 142, 2), NumAt(buf, 144, 8), NumAt(buf, 152, 8),
      NumAt(buf, 160, 8), NumAt(buf, 168, 1), NumAt(buf, 169, 1))
  }

  method GetFourU16(r: BorshReader) returns (v: Result<(int, int, int, int), CodecError>)
    modifies r
    ensures var o := old(r.offset);
            v == if o + 8 <= |r.buf|
                 then Ok((NumAt(r.buf, o, 2), NumAt(r.buf, o + 2, 2), NumAt(r.buf, o + 4, 2), NumAt(r.buf, o + 6, 2)))
                 else Err(OutOfRange)
    ensures v.Ok? ==> r.offset == old(r.offset) + 8
  {
    hide NumAt, Decode;
    var a :- r.GetU16();
    var b :- r.GetU16();
    var c :- r.GetU16();
    var d :- r.GetU16();
    return Ok((a, b, c, d));
  }

  method GetThreeU64(r: BorshReader) returns (v: Result<(int, int, int), CodecError>)
    modifies r
    ensures var o := old(r.offset);
            v == if o + 24 <= |r.buf|
                 then Ok((NumAt(r.buf, o, 8), NumAt(r.buf, o + 8, 8), NumAt(r.buf, o + 16, 8)))
                 else Err(OutOfRange)
    ensures v.Ok? ==> r.offset == old(r.offset) + 24
  {
    hide NumAt, Decode;
    var a :- r.GetU64();
    var b :- r.GetU64();
    var c :- r.GetU64();
    return Ok((a, b, c));
  }

  method DecodeConfig(buf: seq<Byte>) returns (r: Result<ConfigAccount, CodecError>)
    ensures r == if |buf| >= CONFIG_LEN then Ok(ConfigAt(buf)) else Err(OutOfRange)
  {
    hide NumAt, Decode;
    var reader := new BorshReader(buf);
    reader.Skip(DISC_LEN);
    var authority := reader.GetKey();
    var pageMint := reader.GetKey();
    var treasury := reader.GetKey();
    var buybackVault := reader.GetKey();
    var rates :- GetFourU16(reader);
    var counters :- GetThreeU64(reader);
    var paused :- reader.GetU8();
    var bump :- reader.GetU8();
    return Ok(ConfigAccount(
      authority, pageMint, treasury, buybackVault, rates.0, rates.1, rates.2, rates.3,
      counters.0, counters.1, counters.2, paused, bump));
  }

  /** Decoding inverts the encoding, for every account value and any discriminator. */
  lemma ConfigRoundTrip(a: ConfigAccount, disc: seq<Byte>)
    requires |disc| == DISC_LEN && (forall f | f in ConfigFields(a) :: InRange(f))
    ensures EncodeAll(ConfigFields(a)).Ok?
    ensures var buf := disc + EncodeAll(ConfigFields(a)).value;
            |buf| == CONFIG_LEN && ConfigAt(buf) == a
  {
    hide InRange, EncodeAll, NumAt, ConfigFields;
    var fs := ConfigFields(a);
    ConfigFieldsAre(a);
    RoundTrip(fs, [], []);
    var buf := disc + EncodeAll(fs).value;
    assert HoldsFrom(buf, fs, 0, 8) by {
      assert fs[0..] == fs && buf[8..] == EncodeAll(fs).value;
    }
    Next(buf, fs, 0, 8);
    Next(buf, fs, 1, 40);
    Next(buf, fs, 2, 72);
    Next(buf, fs, 3, 104);
    Next(buf, fs, 4, 136);
    Next(buf, fs, 5, 138);
    Next(buf, fs, 6, 140);
    Next(buf, fs, 7, 142);
    Next(buf, fs, 8, 144);
    Next(buf, fs, 9, 152);
    Next(buf, fs, 10, 160);
    Next(buf, fs, 11, 168);
    Next(buf, fs, 12, 169);
    NoFields(buf, fs, 170);
  }

  // ---- Player ------------------------------------------------------------------------------

  const PLAYER_LEN: nat := 64

  datatype PlayerAccount = PlayerAccount(
    owner: seq<Byte>, agentDeployed: bool, totalCaught: int, gymWins: int, badges: int, lastAction: int, bump: int)

  function PlayerFields(a: PlayerAccount): seq<Field> {
    [
      PubKey(a.owner), Bool(a.agentDeployed), U64(a.totalCaught), U32(a.gymWins), U16(a.badges), I64(a.lastAction),
      U8(a.bump)
    ]
  }

  /** Every field at its fixed place; the discriminator is not looked at. */
  function PlayerAt(buf: seq<Byte>): PlayerAccount
    requires |buf| >= PLAYER_LEN
  {
    PlayerAccount(
      buf[8..40], NumAt(buf, 40, 1) == 1, NumAt(buf, 41, 8), NumAt(buf, 49, 4), NumAt(buf, 53, 2),
      Signed(NumAt(buf, 55, 8)), NumAt(buf, 63, 1))
  }

  method DecodePlayer(buf: seq<Byte>) returns (r: Result<PlayerAccount, CodecError>)
    ensures r == if |buf| >= PLAYER_LEN then Ok(PlayerAt(buf)) else Err(OutOfRange)
  {
    hide NumAt, Decode;
    var reader := new BorshReader(buf);
    reader.Skip(DISC_LEN);
    var owner := reader.GetKey();
    var agentDeployed :- reader.GetBool();
    var totalCaught :- reader.GetU64();
    var gymWins :- reader.GetU32();
    var badges :- reader.GetU16();
    var lastAction :- reader.GetI64();
    var bump :- reader.GetU8();
    return Ok(PlayerAccount(
      owner, agentDeployed, totalCaught, gymWins, badges, lastAction, bump));
  }

  /** Decoding inverts the encoding, for every account value and any discriminator. */
  lemma PlayerRoundTrip(a: PlayerAccount, disc: seq<Byte>)
    requires |disc| == DISC_LEN && (forall f | f in PlayerFields(a) :: InRange(f))
    ensures EncodeAll(PlayerFields(a)).Ok?
    ensures var buf := disc + EncodeAll(PlayerFields(a)).value;
            |buf| == PLAYER_LEN && PlayerAt(buf) == a
  {
    hide InRange, EncodeAll, NumAt;
    var fs := PlayerFields(a);
    RoundTrip(fs, [], []);
    var buf := disc + EncodeAll(fs).value;
    assert HoldsFrom(buf, fs, 0, 8) by {
      assert fs[0..] == fs && buf[8..] == EncodeAll(fs).value;
    }
    Next(buf, fs, 0, 8);
    Next(buf, fs, 1, 40);
    Next(buf, fs, 2, 41);
    Next(buf, fs, 3, 49);
    Next(buf, fs, 4, 53);
    Next(buf, fs, 5, 55);
    Next(buf, fs, 6, 63);
    NoFields(buf, fs, 64);
  }

  // ---- Pool --------------------------------------------------------------------------------

  const POOL_LEN: nat := 42

  datatype PoolAccount = PoolAccount(
    totalLamports: int, lifetimeIn: int, lifetimeOut: int, floorPrice: int, instantSellEnabled: bool, bump: int)

  function PoolFields(a: PoolAccount): seq<Field> {
    [
      U64(a.totalLamports), U64(a.lifetimeIn), U64(a.lifetimeOut), U64(a.floorPrice), Bool(a.instantSellEnabled),
      U8(a.bump)
    ]
  }

  /** Every field at its fixed place; the discriminator is not looked at. */
  function PoolAt(buf: seq<Byte>): PoolAccount
    requires |buf| >= POOL_LEN
  {
    PoolAccount(
      NumAt(buf, 8, 8), NumAt(buf, 16, 8), NumAt(buf, 24, 8), NumAt(buf, 32, 8), NumAt(buf, 40, 1) == 1,
      NumAt(buf, 41, 1))
  }

  method DecodePool(buf: seq<Byte>) returns (r: Result<PoolAccount, CodecError>)
    ensures r == if |buf| >= POOL_LEN then Ok(PoolAt(buf)) else Err(OutOfRange)
  {
    hide NumAt, Decode;
    var reader := new BorshReader(buf);
    reader.Skip(DISC_LEN);
    var totalLamports :- reader.GetU64();
    var lifetimeIn :- reader.GetU64();
    var lifetimeOut :- reader.GetU64();
    var floorPrice :- reader.GetU64();
    var instantSellEnabled :- reader.GetBool();
    var bump :- reader.GetU8();
    return Ok(PoolAccount(
      totalLamports, lifetimeIn, lifetimeOut, floorPrice, instantSellEnabled, bump));
  }

  /** Decoding inverts the encoding, for every account value and any discriminator. */
  lemma PoolRoundTrip(a: PoolAccount, disc: seq<Byte>)
    requires |disc| == DISC_LEN && (forall f | f in PoolFields(a) :: InRange(f))
    ensures EncodeAll(PoolFields(a)).Ok?
    ensures var buf := disc + EncodeAll(PoolFields(a)).value;
            |buf| == POOL_LEN && PoolAt(buf) == a
  {
    hide InRange, EncodeAll, NumAt;
    var fs := PoolFields(a);
    RoundTrip(fs, [], []);
    var buf := disc + EncodeAll(fs).value;
    assert HoldsFrom(buf, fs, 0, 8) by {
      assert fs[0..] == fs && buf[8..] == EncodeAll(fs).value;
    }
    Next(buf, fs, 0, 8);
    Next(buf, fs, 1, 16);
    Next(buf, fs, 2, 24);
    Next(buf, fs, 3, 32);
    Next(buf, fs, 4, 40);
    Next(buf, fs, 5, 41);
    NoFields(buf, fs, 42);
  }

  // ---- Listing -----------------------------------------------------------------------------

  const LISTING_LEN: nat := 93

  datatype ListingAccount = ListingAccount(
    seller: seq<Byte>, cardMint: seq<Byte>, price: int, tier: int, level: int, stage: int, createdAt: int,
    active: bool, bump: int)

  function ListingFields(a: ListingAccount): seq<Field> {
    [
      PubKey(a.seller), PubKey(a.cardMint), U64(a.price), U8(a.tier), U8(a.level), U8(a.stage), I64(a.createdAt),
      Bool(a.active), U8(a.bump)
    ]
  }

  lemma ListingFieldsAre(a: ListingAccount)
    ensures var fs := ListingFields(a);
            && |fs| == 9
            && fs[0] == PubKey(a.seller) && fs[1] == PubKey(a.cardMint) && fs[2] == U64(a.price) &&
               fs[3] == U8(a.tier) && fs[4] == U8(a.level) && fs[5] == U8(a.stage) && fs[6] == I64(a.createdAt) &&
               fs[7] == Bool(a.active) && fs[8] == U8(a.bump)
  {
  }

  /** Every field at its fixed place; the discriminator is not looked at. */
  function ListingAt(buf: seq<Byte>): ListingAccount
    requires |buf| >= LISTING_LEN
  {
    ListingAccount(
      buf[8..40], buf[40..72], NumAt(buf, 72, 8), NumAt(buf, 80, 1), NumAt(buf, 81, 1), NumAt(buf, 82, 1),
      Signed(NumAt(buf, 83, 8)), NumAt(buf, 91, 1) == 1, NumAt(buf, 92, 1))
  }

  method DecodeListing(buf: seq<Byte>) returns (r: Result<ListingAccount, CodecError>)
    ensures r == if |buf| >= LISTING_LEN then Ok(ListingAt(buf)) else Err(OutOfRange)
  {
    hide NumAt, Decode;
    var reader := new BorshReader(buf);
    reader.Skip(DISC_LEN);
    var seller := reader.GetKey();
    var cardMint := reader.GetKey();
    var price :- reader.GetU64();
    var tier :- reader.GetU8();
    var level :- reader.GetU8();
    var stage :- reader.GetU8();
    var createdAt :- reader.GetI64();
    var active :- reader.GetBool();
    var bump :- reader.GetU8();
    return Ok(ListingAccount(
      seller, cardMint, price, tier, level, stage, createdAt, active, bump));
  }

  /** Decoding inverts the encoding, for every account value and any discriminator. */
  lemma ListingRoundTrip(a: ListingAccount, disc: seq<Byte>)
    requires |disc| == DISC_LEN && (forall f | f in ListingFields(a) :: InRange(f))
    ensures EncodeAll(ListingFields(a)).Ok?
    ensures var buf := disc + EncodeAll(ListingFields(a)).value;
            |buf| == LISTING_LEN && ListingAt(buf) == a
  {
    hide InRange, EncodeAll, NumAt, ListingFields;
    var fs := ListingFields(a);
    ListingFieldsAre(a);
    RoundTrip(fs, [], []);
    var buf := disc + EncodeAll(fs).value;
    assert HoldsFrom(buf, fs, 0, 8) by {
      assert fs[0..] == fs && buf[8..] == EncodeAll(fs).value;
    }
    Next(buf, fs, 0, 8);
    Next(buf, fs, 1, 40);
    Next(buf, fs, 2, 72);
    Next(buf, fs, 3, 80);
    Next(buf, fs, 4, 81);
    Next(buf, fs, 5, 82);
    Next(buf, fs, 6, 83);
    Next(buf, fs, 7, 91);
    Next(buf, fs, 8, 92);
    NoFields(buf, fs, 93);
  }

  lemma NoFields(buf: seq<Byte>, fs: seq<Field>, offset: nat)
    requires HoldsFrom(buf, fs, |fs|, offset)
    ensures |buf| == offset
  {
  }
}
