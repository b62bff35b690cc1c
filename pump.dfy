/** The Pump.fun side of the archie-cpi program: the decoder of the bonding-curve
    account, the zero-reserve gate of the spot price, and the `buy` handler that
    creates the user's token account when it is missing and then composes and
    invokes the Pump `buy` instruction. */
module Pump {
  import opened LittleEndian

  /** A Solana public key, identified by its base58 text. */
  datatype Pubkey = Pubkey(base58: string)

  /** The Pump program and its well-known accounts. */
  const ID: Pubkey := Pubkey("6EF8rrecthR5Dkzon8Nwu78hRvfCKubJ14M5uBEwF6P")
  const GLOBAL: Pubkey := Pubkey("4wTV1YmiEkRvAtNtsSGPtUrqRYQMe5SKy2uB4Jjaxnjf")
  const EVENT_AUTHORITY: Pubkey := Pubkey("Ce6TQqeHC9p8KetsN6JsjHK7UTZk7nasjjnr7XxXp9F1")
  const FEE: Pubkey := Pubkey("CebN5WGQ4jvEPvsVU4EoHEpgzq1VV7AbicfhtW4xC9iM")

  /** The System Program, owner of every account not yet created, and the
      SPL Token Program (`anchor_spl::token::ID`). */
  const SYSTEM_PROGRAM_ID: Pubkey := Pubkey("11111111111111111111111111111111")
  const TOKEN_PROGRAM_ID: Pubkey := Pubkey("TokenkegQfeZyiNwAJbNbGKPFXCWuBvf9Ss623VQ5DA")

  const BUY_DISCRIMINATOR: U64 := 16927863322537952870
  const BONDING_CURVE_DISCRIMINATOR: U64 := 6966180631402821399
  const TOKEN_DECIMALS: nat := 6
  const LAMPORTS_PER_SOL: U64 := 1_000_000_000

  /** Bytes every field read of the decoder needs: the 8-byte tag, five u64
      fields and the one-byte flag. */
  const CURVE_ACCOUNT_LEN: nat := 49

  /** The program errors the handler can end with. */
  datatype Error =
    | InvalidAccountData
      /** an account constraint of the `BuyPumpToken` context does not hold */
    | ConstraintViolated
      /** an error returned by a cross-program call, passed on unchanged */
    | CpiError(code: nat)

  datatype Result<T> = Ok(value: T) | Err(error: Error)

  datatype Outcome = Pass | Fail(error: Error)

  /** How a Rust call ends: it returns, or it panics and aborts the transaction. */
  datatype Exec<T> = Returned(result: Result<T>) | Panicked

  // ---------------------------------------------------------------------------
  // Bonding-curve account
  // ---------------------------------------------------------------------------

  datatype BondingCurveState = BondingCurveState(
    virtualTokenReserves: U64,
    virtualSolReserves: U64,
    realTokenReserves: U64,
    realSolReserves: U64,
    tokenTotalSupply: U64,
    complete: bool)

  /** The tag test of `try_deserialize`: the buffer has 8 bytes whose
      little-endian value is the curve-account tag. */
  predicate HasCurveTag(data: seq<Byte>)
  {
    |data| >= 8 && DecodeU64(data[..8]) == BONDING_CURVE_DISCRIMINATOR
  }

  /** The tag test passes exactly when the buffer starts with the tag's own
      8 bytes. */
  lemma CurveTagBytes(data: seq<Byte>)
    ensures HasCurveTag(data) <==> |data| >= 8 && data[..8] == EncodeU64(BONDING_CURVE_DISCRIMINATOR)
  {
    DecodeEncodeU64(BONDING_CURVE_DISCRIMINATOR);
  }

  /** The account layout: the tag, the five reserve and supply counters and the
      completion flag byte. */
  function CurveAccountBytes(
    virtualTokenReserves: U64, virtualSolReserves: U64, realTokenReserves: U64,
    realSolReserves: U64, tokenTotalSupply: U64, flag: Byte): (r: seq<Byte>)
    ensures |r| == CURVE_ACCOUNT_LEN && HasCurveTag(r)
  {
    var words := [BONDING_CURVE_DISCRIMINATOR, virtualTokenReserves, virtualSolReserves,
                  realTokenReserves, realSolReserves, tokenTotalSupply];
    DecodeWordAt(words, [flag], 0);
    EncodeU64s(words) + [flag]
  }

  /** `BondingCurveState::try_deserialize` as written: the guard checks only
      the tag, the fields are read from the bytes after it, and a tagged buffer
      too short for those reads makes the first out-of-range slice panic. */
  function TryDeserializeAsWritten(data: seq<Byte>): (r: Exec<BondingCurveState>)
    ensures r.Panicked? <==> HasCurveTag(data) && |data| < CURVE_ACCOUNT_LEN
    ensures r.Returned? ==> r.result == TryDeserialize(data)
  {
    if |data| < 8 || DecodeU64(data[..8]) != BONDING_CURVE_DISCRIMINATOR then
      Returned(Err(InvalidAccountData))
    else
      var rest := data[8..];
      if |rest| < CURVE_ACCOUNT_LEN - 8 then Panicked
      else
        assert rest[..8] == data[8..16] && rest[8..16] == data[16..24] && rest[16..24] == data[24..32];
        assert rest[24..32] == data[32..40] && rest[32..40] == data[40..48] && rest[40] == data[48];
        Returned(Ok(BondingCurveState(
          DecodeU64(rest[..8]), DecodeU64(rest[8..16]), DecodeU64(rest[16..24]),
          DecodeU64(rest[24..32]), DecodeU64(rest[32..40]), rest[40] != 0)))
  }

  /** `BondingCurveState::try_deserialize` with the length guard covering every
      field it reads: a short or untagged buffer is rejected, whatever its
      other bytes, and each field is fixed by its byte position. */
  function TryDeserialize(data: seq<Byte>): (r: Result<BondingCurveState>)
    ensures r.Err? <==> |data| < CURVE_ACCOUNT_LEN || !HasCurveTag(data)
    ensures r.Err? ==> r.error == InvalidAccountData
    ensures r.Ok? ==>
      && r.value.virtualTokenReserves == DecodeU64(data[8..16])
      && r.value.virtualSolReserves == DecodeU64(data[16..24])
      && r.value.realTokenReserves == DecodeU64(data[24..32])
      && r.value.realSolReserves == DecodeU64(data[32..40])
      && r.value.tokenTotalSupply == DecodeU64(data[40..48])
      && r.value.complete == (data[48] != 0)
  {
    if |data| < CURVE_ACCOUNT_LEN || DecodeU64(data[..8]) != BONDING_CURVE_DISCRIMINATOR then
      Err(InvalidAccountData)
    else
      Ok(BondingCurveState(
        DecodeU64(data[8..16]), DecodeU64(data[16..24]), DecodeU64(data[24..32]),
        DecodeU64(data[32..40]), DecodeU64(data[40..48]), data[48] != 0))
  }

  /** The shortest tagged buffer, the tag alone, panics in the decoder as
      written and is rejected by the corrected one. */
  lemma TagOnlyBufferPanics()
    ensures TryDeserializeAsWritten(EncodeU64(BONDING_CURVE_DISCRIMINATOR)) == Panicked
    ensures TryDeserialize(EncodeU64(BONDING_CURVE_DISCRIMINATOR)) == Err(InvalidAccountData)
  {
    var data := EncodeU64(BONDING_CURVE_DISCRIMINATOR);
    assert data[..8] == data;
    CurveTagBytes(data);
  }

  /** A buffer whose first eight bytes hold any value other than the tag is
      rejected, whatever follows them. */
  lemma WrongTagRejected(tag: seq<Byte>, rest: seq<Byte>)
    requires |tag| == 8 && DecodeU64(tag) != BONDING_CURVE_DISCRIMINATOR
    ensures TryDeserialize(tag + rest) == Err(InvalidAccountData)
    ensures TryDeserializeAsWritten(tag + rest) == Returned(Err(InvalidAccountData))
  {
    assert (tag + rest)[..8] == tag;
  }

  /** The decoder reads the tag word, five counter words and one flag byte. */
  lemma DecodeWords(words: seq<U64>, tail: seq<Byte>)
    requires |words| == 6 && words[0] == BONDING_CURVE_DISCRIMINATOR && |tail| >= 1
    ensures TryDeserialize(EncodeU64s(words) + tail)
            == Ok(BondingCurveState(words[1], words[2], words[3], words[4], words[5], tail[0] != 0))
  {
    var data := EncodeU64s(words) + tail;
    DecodeWordAt(words, tail, 0);
    assert DecodeU64(data[..8]) == BONDING_CURVE_DISCRIMINATOR;
    DecodeWordAt(words, tail, 1);
    assert DecodeU64(data[8..16]) == words[1];
    DecodeWordAt(words, tail, 2);
    assert DecodeU64(data[16..24]) == words[2];
    DecodeWordAt(words, tail, 3);
    assert DecodeU64(data[24..32]) == words[3];
    DecodeWordAt(words, tail, 4);
    assert DecodeU64(data[32..40]) == words[4];
    DecodeWordAt(words, tail, 5);
    assert DecodeU64(data[40..48]) == words[5];
    assert data[48] == tail[0];
  }

  /** Round trip: decoding the layout of five counters and a flag byte, followed
      by any trailing bytes, gives back exactly those counters, and `complete`
      is whether the flag byte is non-zero. */
  lemma CurveRoundTrip(
    virtualTokenReserves: U64, virtualSolReserves: U64, realTokenReserves: U64,
    realSolReserves: U64, tokenTotalSupply: U64, flag: Byte, trailing: seq<Byte>)
    ensures TryDeserialize(
              CurveAccountBytes(virtualTokenReserves, virtualSolReserves, realTokenReserves,
                                realSolReserves, tokenTotalSupply, flag) + trailing)
            == Ok(BondingCurveState(virtualTokenReserves, virtualSolReserves, realTokenReserves,
                                    realSolReserves, tokenTotalSupply, flag != 0))
  {
    var words := [BONDING_CURVE_DISCRIMINATOR, virtualTokenReserves, virtualSolReserves,
                  realTokenReserves, realSolReserves, tokenTotalSupply];
    assert CurveAccountBytes(virtualTokenReserves, virtualSolReserves, realTokenReserves,
                             realSolReserves, tokenTotalSupply, flag) + trailing
        == EncodeU64s(words) + ([flag] + trailing);
    DecodeWords(words, [flag] + trailing);
  }

  /** The first 48 bytes of a buffer, read as words, are the decodings of
      its six 8-byte slices: the tag and the five counters the decoder reads. */
  lemma HeadWords(data: seq<Byte>)
    requires |data| >= 48
    ensures DecodeU64s(data[..48])
            == [DecodeU64(data[..8]), DecodeU64(data[8..16]), DecodeU64(data[16..24]),
                DecodeU64(data[24..32]), DecodeU64(data[32..40]), DecodeU64(data[40..48])]
  {
    var head := data[..48];
    var words := DecodeU64s(head);
    forall i | 0 <= i < 6
      ensures words[i] == DecodeU64(data[8 * i..8 * i + 8])
    {
      DecodeU64sAt(head, i);
      SliceOfTake(data, 48, 8 * i, 8 * i + 8);
    }
  }

  /** The other direction: a buffer the decoder accepts is, in its first 49
      bytes, the layout of the state it decodes to (with its own flag byte). */
  lemma CurveDecodeThenEncode(data: seq<Byte>)
    ensures TryDeserialize(data).Ok? ==>
      var s := TryDeserialize(data).value;
      data[..CURVE_ACCOUNT_LEN]
        == CurveAccountBytes(s.virtualTokenReserves, s.virtualSolReserves, s.realTokenReserves,
                             s.realSolReserves, s.tokenTotalSupply, data[48])
  {
    if TryDeserialize(data).Err? {
      return;
    }
    HeadWords(data);
    U64sRoundTripBytes(data[..48]);
    assert data[..CURVE_ACCOUNT_LEN] == data[..48] + [data[48]];
  }

  // ---------------------------------------------------------------------------
  // Spot price
  // ---------------------------------------------------------------------------

  function Pow10(n: nat): (r: nat)
    ensures r > 0
  {
    if n == 0 then 1 else 10 * Pow10(n - 1)
  }

  /** `calculate_price`: the SOL price of one whole token, as the exact ratio
      that the f64 computation approximates. It fails exactly when either
      virtual reserve is zero, and a price it returns is positive. */
  function CalculatePrice(s: BondingCurveState): (r: Result<real>)
    ensures r.Err? <==> s.virtualTokenReserves == 0 || s.virtualSolReserves == 0
    ensures r.Err? ==> r.error == InvalidAccountData
    ensures r.Ok? ==> r.value > 0.0
    ensures r.Ok? ==>
      r.value * (s.virtualTokenReserves as real / Pow10(TOKEN_DECIMALS) as real)
        == s.virtualSolReserves as real / LAMPORTS_PER_SOL as real
  {
    if s.virtualTokenReserves == 0 || s.virtualSolReserves == 0 then
      Err(InvalidAccountData)
    else
      Ok((s.virtualSolReserves as real / LAMPORTS_PER_SOL as real)
         / (s.virtualTokenReserves as real / Pow10(TOKEN_DECIMALS) as real))
  }

  /** A curve holding 1,000,000 whole tokens (six decimals) against 30 SOL
      prices one token at 0.00003 SOL. */
  lemma PriceExample()
    ensures CalculatePrice(BondingCurveState(1_000_000_000_000, 30_000_000_000, 0, 0, 0, false))
            == Ok(0.00003)
  {
    assert Pow10(TOKEN_DECIMALS) == 1_000_000;
  }

  /** The curve read and the price check, as the buy handler chains them: a
      price exists exactly when the buffer is a tagged curve account whose two
      virtual reserves, at bytes 8-15 and 16-23, are both non-zero. */
  function CurvePrice(data: seq<Byte>): (r: Result<real>)
    ensures r.Ok? <==>
      && |data| >= CURVE_ACCOUNT_LEN && HasCurveTag(data)
      && DecodeU64(data[8..16]) != 0 && DecodeU64(data[16..24]) != 0
    ensures r.Err? ==> r.error == InvalidAccountData
    ensures r.Ok? ==> r.value > 0.0
  {
    match TryDeserialize(data)
    case Err(e) => Err(e)
    case Ok(s) => CalculatePrice(s)
  }

  // ---------------------------------------------------------------------------
  // The buy instruction
  // ---------------------------------------------------------------------------

  /** The accounts of the `BuyPumpToken` context, by key. */
  datatype BuyAccounts = BuyAccounts(
    pumpGlobal: Pubkey,
    pumpFee: Pubkey,
    mint: Pubkey,
    bondingCurve: Pubkey,
    associatedBondingCurve: Pubkey,
    tokenAccount: Pubkey,
    payer: Pubkey,
    systemProgram: Pubkey,
    tokenProgram: Pubkey,
    associatedTokenProgram: Pubkey,
    rent: Pubkey,
    pumpEventAuthority: Pubkey,
    pumpProgram: Pubkey)

  /** The key checks the framework makes before the handler runs: the three
      well-known Pump accounts and the Pump program itself. Under them the
      well-known keys sit at their fixed places in the buy account list. */
  predicate KeysConstrained(ctx: BuyAccounts)
    ensures KeysConstrained(ctx) ==>
      && BuyAccountMetas(ctx)[0] == AccountMeta(GLOBAL, false, false)
      && BuyAccountMetas(ctx)[1] == AccountMeta(FEE, false, true)
      && BuyAccountMetas(ctx)[10] == AccountMeta(EVENT_AUTHORITY, false, false)
      && BuyAccountMetas(ctx)[11] == AccountMeta(ctx.pumpProgram, false, false)
  {
    && ctx.pumpGlobal == GLOBAL
    && ctx.pumpFee == FEE
    && ctx.pumpEventAuthority == EVENT_AUTHORITY
    && ctx.pumpProgram == ID
  }

  datatype AccountMeta = AccountMeta(pubkey: Pubkey, isSigner: bool, isWritable: bool)

  /** `AccountMeta::new`: a writable account. */
  function Writable(key: Pubkey, isSigner: bool): AccountMeta
  {
    AccountMeta(key, isSigner, true)
  }

  /** `AccountMeta::new_readonly`. */
  function Readonly(key: Pubkey, isSigner: bool): AccountMeta
  {
    AccountMeta(key, isSigner, false)
  }

  /** The account list of the buy instruction: twelve entries in a fixed order,
      the payer the only signer, the fee account, the curve, both token
      accounts and the payer the only writable ones, and the Pump program last. */
  function BuyAccountMetas(ctx: BuyAccounts): (r: seq<AccountMeta>)
    ensures |r| == 12
    ensures forall i :: 0 <= i < |r| ==> (r[i].isSigner <==> i == 6)
    ensures forall i :: 0 <= i < |r| ==> (r[i].isWritable <==> i in {1, 3, 4, 5, 6})
    ensures r[0].pubkey == ctx.pumpGlobal && r[1].pubkey == ctx.pumpFee
    ensures r[2].pubkey == ctx.mint && r[3].pubkey == ctx.bondingCurve
    ensures r[4].pubkey == ctx.associatedBondingCurve && r[5].pubkey == ctx.tokenAccount
    ensures r[6].pubkey == ctx.payer && r[7].pubkey == ctx.systemProgram
    ensures r[8].pubkey == ctx.tokenProgram && r[9].pubkey == ctx.rent
    ensures r[10].pubkey == ctx.pumpEventAuthority && r[11].pubkey == ID
  {
    [ Readonly(ctx.pumpGlobal, false),
      Writable(ctx.pumpFee, false),
      Readonly(ctx.mint, false),
      Writable(ctx.bondingCurve, false),
      Writable(ctx.associatedBondingCurve, false),
      Writable(ctx.tokenAccount, false),
      Writable(ctx.payer, true),
      Readonly(ctx.systemProgram, false),
      Readonly(ctx.tokenProgram, false),
      Readonly(ctx.rent, false),
      Readonly(ctx.pumpEventAuthority, false),
      Readonly(ID, false) ]
  }

  /** The account infos handed to `invoke`, by key, in the order given. */
  function InvokeAccountInfos(ctx: BuyAccounts): (r: seq<Pubkey>)
    ensures |r| == 12 && r[11] == ctx.pumpProgram
  {
    [ ctx.pumpGlobal, ctx.pumpFee, ctx.mint, ctx.bondingCurve, ctx.associatedBondingCurve,
      ctx.tokenAccount, ctx.payer, ctx.systemProgram, ctx.tokenProgram, ctx.rent,
      ctx.pumpEventAuthority, ctx.pumpProgram ]
  }

  /** The account infos line up with the instruction's account list key by key
      exactly when the Pump program account is the Pump program. */
  lemma InvokeInfosMatchMetas(ctx: BuyAccounts)
    ensures (forall i :: 0 <= i < 12 ==> InvokeAccountInfos(ctx)[i] == BuyAccountMetas(ctx)[i].pubkey)
            <==> ctx.pumpProgram == ID
  {
    var infos, metas := InvokeAccountInfos(ctx), BuyAccountMetas(ctx);
    if ctx.pumpProgram != ID {
      assert infos[11] != metas[11].pubkey;
    }
  }

  /** The 24-byte call data of the buy instruction: the buy tag, the token
      amount and the maximum SOL cost, each as a little-endian u64. */
  function BuyPayload(tokenAmount: U64, maxSolCost: U64): (r: seq<Byte>)
    ensures |r| == 24
  {
    EncodeU64s([BUY_DISCRIMINATOR, tokenAmount, maxSolCost])
  }

  /** The inverse of `BuyPayload`: 24 bytes read as three little-endian
      words, the first of which must be the buy tag. */
  function DecodeBuyPayload(data: seq<Byte>): (r: Result<(U64, U64)>)
    ensures r.Ok? ==> |data| == 24
  {
    if |data| != 24 then Err(InvalidAccountData)
    else
      var words := DecodeU64s(data);
      if words[0] != BUY_DISCRIMINATOR then Err(InvalidAccountData)
      else Ok((words[1], words[2]))
  }

  /** Splitting the buy payload into its three words recovers the tag and
      both amounts; and the buy payload is the only buffer that decodes to a
      given pair of amounts. */
  lemma BuyPayloadRoundTrip(tokenAmount: U64, maxSolCost: U64, data: seq<Byte>)
    ensures DecodeBuyPayload(BuyPayload(tokenAmount, maxSolCost)) == Ok((tokenAmount, maxSolCost))
    ensures DecodeBuyPayload(data) == Ok((tokenAmount, maxSolCost)) ==> data == BuyPayload(tokenAmount, maxSolCost)
  {
    var words := [BUY_DISCRIMINATOR, tokenAmount, maxSolCost];
    U64sRoundTrip(words);
    if DecodeBuyPayload(data) == Ok((tokenAmount, maxSolCost)) {
      assert DecodeU64s(data) == words;
      U64sRoundTripBytes(data);
    }
  }

  /** The call data as the handler builds it: an empty vector extended by the
      three little-endian words in turn. Its three 8-byte chunks decode to the
      buy tag, the token amount and the SOL cap. */
  method BuildBuyData(tokenAmount: U64, maxSolCost: U64) returns (data: seq<Byte>)
    ensures data == BuyPayload(tokenAmount, maxSolCost)
    ensures |data| == 24
    ensures DecodeU64(data[..8]) == BUY_DISCRIMINATOR
    ensures DecodeU64(data[8..16]) == tokenAmount
    ensures DecodeU64(data[16..24]) == maxSolCost
  {
    ghost var words: seq<U64> := [];
    data := [];
    EncodeU64sSnoc(words, BUY_DISCRIMINATOR);
    data, words := data + EncodeU64(BUY_DISCRIMINATOR), words + [BUY_DISCRIMINATOR];
    EncodeU64sSnoc(words, tokenAmount);
    data, words := data + EncodeU64(tokenAmount), words + [tokenAmount];
    EncodeU64sSnoc(words, maxSolCost);
    data, words := data + EncodeU64(maxSolCost), words + [maxSolCost];

    assert words == [BUY_DISCRIMINATOR, tokenAmount, maxSolCost];
    U64sRoundTrip(words);
    DecodeU64sAt(data, 0);
    DecodeU64sAt(data, 1);
    DecodeU64sAt(data, 2);
  }

  // ---------------------------------------------------------------------------
  // The buy handler and its effects
  // ---------------------------------------------------------------------------

  /** The accounts of the `associated_token::create` call. */
  datatype CreateAta = CreateAta(
    program: Pubkey, payer: Pubkey, associatedToken: Pubkey, authority: Pubkey,
    mint: Pubkey, systemProgram: Pubkey, tokenProgram: Pubkey)

  datatype Instruction = Instruction(programId: Pubkey, accounts: seq<AccountMeta>, data: seq<Byte>)

  /** What the handler does to the outside world, in order. */
  datatype Effect =
    | CreateAssociatedTokenAccount(call: CreateAta)
    | ReadBondingCurve(account: Pubkey)
    | Invoke(ix: Instruction, accountInfos: seq<Pubkey>)

  /** What the runtime answers the handler: the owner and stored data length
      of the user's token account, the bytes of the curve account, and the
      results of the two cross-program calls. */
  datatype Runtime = Runtime(
    tokenAccountOwner: Pubkey,
    tokenAccountDataLen: nat,
    curveData: seq<Byte>,
    createResult: Outcome,
    invokeResult: Outcome)

  /** The user's token account has never been created: the runtime shows it
      empty and owned by the System Program. */
  predicate TokenAccountUncreated(rt: Runtime)
  {
    rt.tokenAccountOwner == SYSTEM_PROGRAM_ID && rt.tokenAccountDataLen == 0
  }

  /** The account checks of the `BuyPumpToken` context as declared: the key
      constraints and the owner constraint on the user's token account. They
      run before the handler, so a token account that has not been created is
      rejected before the handler could create it; they differ from the
      corrected checks on exactly that case. */
  function CheckAccountsAsWritten(ctx: BuyAccounts, rt: Runtime): (r: Outcome)
    ensures r.Pass? ==> KeysConstrained(ctx) && rt.tokenAccountOwner == TOKEN_PROGRAM_ID
    ensures TokenAccountUncreated(rt) ==> r == Fail(ConstraintViolated)
    ensures r != CheckAccounts(ctx, rt) <==> KeysConstrained(ctx) && TokenAccountUncreated(rt)
  {
    if KeysConstrained(ctx) && rt.tokenAccountOwner == TOKEN_PROGRAM_ID then Pass
    else Fail(ConstraintViolated)
  }

  /** The account checks with the owner constraint waived for a token account
      that has not been created yet, the case the handler's creation step is
      for. A token account holding data must still belong to the Token
      Program. */
  function CheckAccounts(ctx: BuyAccounts, rt: Runtime): (r: Outcome)
    ensures r.Pass? <==>
      KeysConstrained(ctx) && (rt.tokenAccountOwner == TOKEN_PROGRAM_ID || TokenAccountUncreated(rt))
    ensures r.Fail? ==> r.error == ConstraintViolated
    ensures r.Pass? && rt.tokenAccountDataLen != 0 ==> rt.tokenAccountOwner == TOKEN_PROGRAM_ID
    ensures KeysConstrained(ctx) && TokenAccountUncreated(rt) ==> r.Pass?
  {
    if KeysConstrained(ctx) && (rt.tokenAccountOwner == TOKEN_PROGRAM_ID || TokenAccountUncreated(rt)) then Pass
    else Fail(ConstraintViolated)
  }

  /** The creation call for the user's token account: funded by the payer, who
      is also its authority. */
  function CreateCall(ctx: BuyAccounts): (c: CreateAta)
    ensures c.payer == c.authority == ctx.payer && c.associatedToken == ctx.tokenAccount
  {
    CreateAta(ctx.associatedTokenProgram, ctx.payer, ctx.tokenAccount, ctx.payer,
              ctx.mint, ctx.systemProgram, ctx.tokenProgram)
  }

  /** The creation step left the handler running: nothing was requested, or
      the request succeeded. */
  predicate CreationPassed(rt: Runtime)
  {
    rt.tokenAccountDataLen != 0 || rt.createResult.Pass?
  }

  /** The first step of the handler: when the user's token account has no
      data, ask for it to be created, and stop if that fails. */
  method CreateTokenAccountIfMissing(ctx: BuyAccounts, rt: Runtime) returns (trace: seq<Effect>, result: Outcome)
    ensures |trace| <= 1
    ensures trace != [] <==> rt.tokenAccountDataLen == 0
    ensures trace != [] ==> trace[0] == CreateAssociatedTokenAccount(CreateCall(ctx))
    ensures result.Pass? <==> CreationPassed(rt)
    ensures result.Fail? ==> result == rt.createResult
  {
    trace, result := [], Pass;
    if rt.tokenAccountDataLen == 0 {
      trace := trace + [CreateAssociatedTokenAccount(CreateCall(ctx))];
      if rt.createResult.Fail? {
        result := rt.createResult;
      }
    }
  }

  /** The second phase of the handler: read the curve account, stop with
      `InvalidAccountData` if it does not decode or has no price, and otherwise
      invoke the buy instruction and end with that invocation's result. */
  method ReadCurveAndInvoke(
    ctx: BuyAccounts, rt: Runtime, tokenAmountOf: BondingCurveState -> U64, maxAmountLamports: U64)
    returns (trace: seq<Effect>, result: Outcome)
    ensures |trace| >= 1 && trace[0] == ReadBondingCurve(ctx.bondingCurve)
    ensures CurvePrice(rt.curveData).Err? ==> |trace| == 1 && result == Fail(InvalidAccountData)
    ensures CurvePrice(rt.curveData).Ok? ==>
      && |trace| == 2
      && trace[1] == Invoke(
           Instruction(ID, BuyAccountMetas(ctx),
                       BuyPayload(tokenAmountOf(TryDeserialize(rt.curveData).value), maxAmountLamports)),
           InvokeAccountInfos(ctx))
      && result == rt.invokeResult
  {
    trace := [ReadBondingCurve(ctx.bondingCurve)];
    var curveState := TryDeserialize(rt.curveData);
    if curveState.Err? {
      result := Fail(curveState.error);
      return;
    }
    var tokenPrice := CalculatePrice(curveState.value);
    if tokenPrice.Err? {
      result := Fail(tokenPrice.error);
      return;
    }
    var tokenAmount := tokenAmountOf(curveState.value);

    var data := BuildBuyData(tokenAmount, maxAmountLamports);
    var ix := Instruction(ID, BuyAccountMetas(ctx), data);
    trace := trace + [Invoke(ix, InvokeAccountInfos(ctx))];
    result := rt.invokeResult;
  }

  /** `buy_pump_tokens`, after the account checks of its context. The token
      amount is a function of the decoded curve state and the SOL cap is
      given, both standing for the handler's floating-point conversions.
      Accounts that fail the checks end it before any effect. Otherwise the
      handler creates the user's token account first exactly when its data
      length is 0; a failed creation ends it before the curve is read; the buy
      is invoked, last, exactly when the curve decodes and has a price, with
      the fixed account list and the payload of the two amounts; and it
      succeeds exactly when every step does. */
  method BuyPumpTokens(
    ctx: BuyAccounts, rt: Runtime, tokenAmountOf: BondingCurveState -> U64, maxAmountLamports: U64)
    returns (trace: seq<Effect>, result: Outcome)
    ensures CheckAccounts(ctx, rt).Fail? ==> trace == [] && result == Fail(ConstraintViolated)
    ensures |trace| > 0 && trace[0].CreateAssociatedTokenAccount?
            <==> CheckAccounts(ctx, rt).Pass? && rt.tokenAccountDataLen == 0
    ensures forall i :: 0 < i < |trace| ==> !trace[i].CreateAssociatedTokenAccount?
    ensures CheckAccounts(ctx, rt).Pass? && rt.tokenAccountDataLen == 0 ==>
      trace[0] == CreateAssociatedTokenAccount(CreateCall(ctx))
    ensures CheckAccounts(ctx, rt).Pass? && !CreationPassed(rt) ==>
      |trace| == 1 && result == rt.createResult
    ensures CheckAccounts(ctx, rt).Pass? && CreationPassed(rt) ==>
      var k := if rt.tokenAccountDataLen == 0 then 1 else 0;
      && |trace| > k
      && trace[k] == ReadBondingCurve(ctx.bondingCurve)
      && (CurvePrice(rt.curveData).Err? ==> |trace| == k + 1 && result == Fail(InvalidAccountData))
      && (CurvePrice(rt.curveData).Ok? ==>
            && |trace| == k + 2
            && trace[k + 1] == Invoke(
                 Instruction(ID, BuyAccountMetas(ctx),
                             BuyPayload(tokenAmountOf(TryDeserialize(rt.curveData).value), maxAmountLamports)),
                 InvokeAccountInfos(ctx))
            && result == rt.invokeResult)
    ensures result.Pass? <==>
      && CheckAccounts(ctx, rt).Pass? && CreationPassed(rt)
      && CurvePrice(rt.curveData).Ok? && rt.invokeResult.Pass?
  {
    result := CheckAccounts(ctx, rt);
    if result.Fail? {
      trace := [];
      return;
    }
    var created, rest;
    created, result := CreateTokenAccountIfMissing(ctx, rt);
    if result.Fail? {
      trace := created;
      return;
    }
    rest, result := ReadCurveAndInvoke(ctx, rt, tokenAmountOf, maxAmountLamports);
    trace := created + rest;
    forall i | |created| <= i < |trace|
      ensures !trace[i].CreateAssociatedTokenAccount?
    {
      assert trace[i] == rest[i - |created|];
      if i > |created| {
        assert CurvePrice(rt.curveData).Ok? && i == |created| + 1;
      }
    }
  }
}
