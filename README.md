# archie-cpi: the Pump.fun buy path, in Dafny

This project models the Pump.fun part of the archie-cpi Solana program
(`programs/archie-cpi/src/instructions/pump.rs`). It covers three things:

- **The bonding-curve account decoder.** `BondingCurveState::try_deserialize`
  checks an 8-byte little-endian tag. It then reads five little-endian `u64`
  counters (virtual and real token and SOL reserves, total supply) and a
  one-byte `complete` flag at fixed offsets.
- **The price gate.** `calculate_price` fails when either virtual reserve is
  zero.
- **The `buy_pump_tokens` handler.** First, it creates the user's associated
  token account when that account holds no data. Then it reads the curve and
  computes the price. Last, it builds the Pump `buy` instruction (a fixed
  list of twelve account metas and a 24-byte payload) and invokes it.

Files:

- `little_endian.dfy` (module `LittleEndian`): bytes and `u64` values, the
  little-endian codec that `u64::to_le_bytes` and `u64::from_le_bytes`
  implement, and a codec for runs of consecutive 8-byte words. It has round
  trips in both directions, proved by induction.
- `pump.dfy` (module `Pump`): the curve state, the decoder as written and
  corrected, the price gate, the account metas, the payload, and the handler.
  The handler returns an ordered trace of its effects on the outside world:
  creating the token account, reading the curve account, and invoking the
  buy instruction.

The runtime's answers are inputs to the handler, bundled in `Runtime`:

- the owner and data length of the user's token account;
- the curve account's bytes;
- the results of the two cross-program calls.

The framework checks the accounts of the `BuyPumpToken` context before the
handler runs. The handler model starts with the key checks among them (for the
Pump program, the key part of its program check) and a corrected owner check
on the user's token account.

The floating-point arithmetic that turns the SOL amount into a token amount
and a SOL cap is not modelled. Those two values are parameters:

- the token amount is a function of the decoded curve state, because the
  `f64` price it divides by is computed from that state's reserves;
- the SOL cap is a `u64`.

## Model

| member | source | states |
|---|---|---|
| `LittleEndian.EncodeU64` | programs/archie-cpi/src/instructions/pump.rs:185-187 | `to_le_bytes` gives eight bytes; it is the inverse of `DecodeU64` in both directions, by `DecodeEncodeU64` and by `DecodeU64`'s contract |
| `LittleEndian.DecodeU64` | programs/archie-cpi/src/instructions/pump.rs:37-41 | `from_le_bytes` on an 8-byte slice returns the one value whose `to_le_bytes` is that slice |
| `LittleEndian.FromToLE` | programs/archie-cpi/src/instructions/pump.rs:185-187 | encoding a value that fits into n little-endian bytes and decoding those bytes gives the value back |
| `LittleEndian.ToFromLE` | programs/archie-cpi/src/instructions/pump.rs:37-41 | decoding any n bytes and re-encoding into n bytes gives the same bytes |
| `LittleEndian.FromLEBound` | programs/archie-cpi/src/instructions/pump.rs:37-41 | n bytes decode to a value below 256^n, so 8 bytes always make a valid `u64` |
| `LittleEndian.DecodeEncodeU64` | programs/archie-cpi/src/instructions/pump.rs:185-187 | `from_le_bytes(to_le_bytes(x)) == x` for every `u64` |
| `LittleEndian.DecodeU64Injective` | programs/archie-cpi/src/instructions/pump.rs:31 | two 8-byte slices decode to the same value exactly when they are equal, so the tag test accepts exactly one 8-byte prefix |
| `LittleEndian.EncodeU64sSnoc` | programs/archie-cpi/src/instructions/pump.rs:184-188 | extending an encoding by one word's bytes gives the encoding of the longer word list |
| `LittleEndian.EncodeU64sAt` | programs/archie-cpi/src/instructions/pump.rs:184-188 | the i-th word of an encoding occupies bytes 8i to 8i+7 |
| `LittleEndian.DecodeU64sAt` | programs/archie-cpi/src/instructions/pump.rs:35-41 | the i-th decoded word is the decoding of bytes 8i to 8i+7 |
| `LittleEndian.DecodeWordAt` | programs/archie-cpi/src/instructions/pump.rs:35-41 | whatever bytes follow an encoding, its i-th chunk decodes to the i-th word |
| `LittleEndian.U64sRoundTrip` | programs/archie-cpi/src/instructions/pump.rs:184-188 | decoding an encoded word list gives the list back |
| `LittleEndian.U64sRoundTripBytes` | programs/archie-cpi/src/instructions/pump.rs:35-41 | encoding the words read from a buffer whose length is a multiple of 8 gives the buffer back |
| `Pump.CurveTagBytes` | programs/archie-cpi/src/instructions/pump.rs:31 | the tag test `HasCurveTag` passes exactly when the buffer has at least 8 bytes and they are the tag's own little-endian bytes |
| `Pump.CurveAccountBytes` | programs/archie-cpi/src/instructions/pump.rs:35-43 | the curve-account layout is 49 bytes long and starts with the curve tag |
| `Pump.TryDeserializeAsWritten` | programs/archie-cpi/src/instructions/pump.rs:30-44 | the decoder as written panics exactly on tagged buffers shorter than 49 bytes; otherwise it returns what the corrected decoder returns |
| `Pump.TryDeserialize` | programs/archie-cpi/src/instructions/pump.rs:30-44 | `InvalidAccountData` exactly when the buffer is shorter than 49 bytes or does not start with the curve tag; on success each field is the little-endian decoding of bytes 8-15, 16-23, 24-31, 32-39 and 40-47, and `complete` is byte 48 being non-zero |
| `Pump.TagOnlyBufferPanics` | programs/archie-cpi/src/instructions/pump.rs:31-37 | the 8-byte buffer holding only the tag panics in the decoder as written and is rejected by the corrected one |
| `Pump.WrongTagRejected` | programs/archie-cpi/src/instructions/pump.rs:31-32 | a buffer whose first 8 bytes decode to any value other than the tag is rejected by both decoders, whatever follows |
| `Pump.DecodeWords` | programs/archie-cpi/src/instructions/pump.rs:35-43 | a buffer of the tag word, five counter words and at least one more byte decodes to those five counters and that byte's flag |
| `Pump.CurveRoundTrip` | programs/archie-cpi/src/instructions/pump.rs:30-44 | decoding the layout of five counters and a flag byte, followed by any bytes, gives exactly those counters, with `complete` equal to the flag byte being non-zero |
| `Pump.HeadWords` | programs/archie-cpi/src/instructions/pump.rs:35-41 | the first 48 bytes of a buffer, read as words, are the decodings of its six 8-byte slices, the tag and the five counters the decoder reads |
| `Pump.CurveDecodeThenEncode` | programs/archie-cpi/src/instructions/pump.rs:30-44 | the first 49 bytes of an accepted buffer are the layout of the decoded state with that buffer's own flag byte |
| `Pump.CalculatePrice` | programs/archie-cpi/src/instructions/pump.rs:46-53 | fails with `InvalidAccountData` exactly when either virtual reserve is zero; otherwise the price is positive, and the price times the token reserve in whole tokens equals the SOL reserve in SOL |
| `Pump.PriceExample` | programs/archie-cpi/src/instructions/pump.rs:51-52 | a curve of 1,000,000 whole tokens against 30 SOL prices a token at 0.00003 SOL |
| `Pump.CurvePrice` | programs/archie-cpi/src/instructions/pump.rs:159-162 | chains the corrected decoder `TryDeserialize` and the price gate: the handler gets a price exactly when the curve buffer is at least 49 bytes, starts with the tag, and its virtual reserves at bytes 8-15 and 16-23 are both non-zero; the price is then positive, and every failure is `InvalidAccountData` |
| `Pump.KeysConstrained` | programs/archie-cpi/src/instructions/pump.rs:57-118 | the framework's key checks (global, fee and event-authority keys, the Pump program) put `GLOBAL` (read-only), `FEE` (writable), `EVENT_AUTHORITY` (read-only) and the Pump program (read-only) at indices 0, 1, 10 and 11 of the buy account list |
| `Pump.CheckAccountsAsWritten` | programs/archie-cpi/src/instructions/pump.rs:86-92 | the context's checks as declared reject a token account that has not been created (owned by the System Program, no data) with a constraint error, and differ from the corrected checks on exactly that case |
| `Pump.CheckAccounts` | programs/archie-cpi/src/instructions/pump.rs:57-118 | the corrected checks pass exactly when the key checks hold and the token account either belongs to the Token Program or has not been created; a token account holding data must belong to the Token Program |
| `Pump.BuyAccountMetas` | programs/archie-cpi/src/instructions/pump.rs:169-182 | twelve metas in the fixed order global, fee, mint, curve, curve token account, user token account, payer, system, token, rent, event authority, Pump program; only the payer (index 6) signs; exactly fee, curve, both token accounts and payer are writable; the last key is the Pump program `ID` |
| `Pump.InvokeAccountInfos` | programs/archie-cpi/src/instructions/pump.rs:195-208 | twelve account infos, the last being the supplied Pump program account |
| `Pump.InvokeInfosMatchMetas` | programs/archie-cpi/src/instructions/pump.rs:169-208 | the infos passed to `invoke` match the instruction's metas key by key exactly when the Pump program account is `ID` |
| `Pump.BuyPayload` | programs/archie-cpi/src/instructions/pump.rs:183-189 | the buy payload is 24 bytes long |
| `Pump.BuyPayloadRoundTrip` | programs/archie-cpi/src/instructions/pump.rs:183-189 | reading the payload back as three words (`DecodeBuyPayload`, its inverse) recovers the buy tag and both amounts; any buffer that reads back as two amounts is the payload of those amounts |
| `Pump.BuildBuyData` | programs/archie-cpi/src/instructions/pump.rs:184-188 | the vector built by the three `extend_from_slice` calls is the buy payload; its chunks at bytes 0-7, 8-15 and 16-23 decode to `BUY_DISCRIMINATOR`, the token amount and the SOL cap |
| `Pump.CreateCall` | programs/archie-cpi/src/instructions/pump.rs:138-150 | the creation call is funded by the payer, who is also its authority, and creates the user's token account |
| `Pump.CreateTokenAccountIfMissing` | programs/archie-cpi/src/instructions/pump.rs:137-153 | creation is requested, once, exactly when the token account's data length is 0; the step fails exactly when a requested creation fails, with that call's error |
| `Pump.ReadCurveAndInvoke` | programs/archie-cpi/src/instructions/pump.rs:158-209 | the curve is read first; if it does not decode or has no price the step ends with `InvalidAccountData` and no invocation; otherwise the buy instruction (program `ID`, the fixed metas, the payload of the two amounts) is invoked, and its result is returned |
| `Pump.BuyPumpTokens` | programs/archie-cpi/src/instructions/pump.rs:130-212 | accounts failing the checks end the call with no effect; otherwise creation comes first, exactly when the data length is 0, and never again; a failed creation ends the handler before the curve read; otherwise the curve read follows, and the buy invocation comes last, exactly when the curve decodes and has a price; the call succeeds exactly when the checks, creation (if any), decoding, pricing and the invocation all succeed |

## Left out

- Pump.CalculatePrice: returns the exact ratio that the `f64` expression of lines 51-52 approximates, as a Dafny `real`. Floating-point rounding is not modelled.
- Pump.BuyPumpTokens: the SOL-to-lamports and SOL-to-token conversions and the slippage bound `amount_lamports * (1 + slippage)` of lines 158 and 162-164 are not computed. They use `f64` arithmetic and Rust's saturating `as u64` casts. The token amount is a parameter function of the decoded curve state, and the SOL cap is a parameter.
- Pump.CurvePrice: uses the corrected decoder `TryDeserialize`. A tagged curve buffer of 8 to 48 bytes gives `InvalidAccountData` where the code as written panics in the `try_deserialize` call at line 159.
- Pump.ReadCurveAndInvoke: uses the corrected decoder `TryDeserialize`. A tagged curve buffer of 8 to 48 bytes therefore ends the step with `InvalidAccountData` where the code as written panics at lines 159-161. In both cases the transaction aborts before anything is invoked. The panic itself is modelled only by `TryDeserializeAsWritten` (see Findings).
- Pump.BuyPumpTokens: inherits that substitution from `ReadCurveAndInvoke`. It also runs the corrected account checks `CheckAccounts`, which admit a token account that has not been created; the checks as written reject it (see Findings).
- Pump.BuyPumpTokens: `associated_token::create` and `invoke` are foreign runtime calls. They appear only as events in the returned trace, and their results are inputs.
- Pump.BuyPumpTokens: `try_data_len` and `try_borrow_data` can fail only when an account is already borrowed, and nothing else borrows it inside the handler. Those two error paths are not modelled.
- Pump.CheckAccounts: covers the key constraints on the global, fee and event-authority accounts (lines 61, 68 and 113), a corrected owner check on the user's token account (the constraint of line 91 as declared is `CheckAccountsAsWritten`), and the key part of the program check on the Pump program (line 117). The framework's further demand that a `Program` account be executable is not modelled. Several other framework checks are not modelled:
  - the program-type checks on the System, Token and Associated Token programs (lines 100, 103 and 106);
  - the `Sysvar<Rent>` check (line 109);
  - the `Signer` check on the payer (line 97);
  - the writability checks of the `mut` accounts (lines 67, 74, 79, 84, 90 and 96).

  All of these are stated by the runtime's account metadata, which the model does not carry.
- Pump.CheckAccounts: every failed check ends with the one error `ConstraintViolated`. The framework's distinct error codes are not modelled.
- Public keys are compared by their base58 text. Base58 decoding to 32 bytes is not modelled.
- `programs/archie-cpi/src/instructions/swap.rs` is not part of this model. It is a thin wrapper that forwards to Raydium swaps after an optional tip transfer.
- `programs/archie-cpi/src/lib.rs` is not part of this model. It exposes only the two Raydium entry points and never routes to `buy_pump_tokens`.
- No sell instruction and no tip stage exist on the Pump path of the code, so neither is modelled. The slippage bound is part of the `f64` conversions above, so it is not modelled either.

## Findings

| source | as written | input that shows it | evidently intended | confidence | as-written member | corrected member |
|---|---|---|---|---|---|---|
| programs/archie-cpi/src/instructions/pump.rs:31-42 | the guard rejects only buffers shorter than 8 bytes or with the wrong tag, but the field reads need 49 bytes, so a tagged buffer of 8 to 48 bytes panics on an out-of-range slice | the 8 bytes `to_le_bytes(6966180631402821399)` alone, or any tagged buffer of 8 to 48 bytes | reject every buffer shorter than 49 bytes with `InvalidAccountData` | medium, not executed | `Pump.TryDeserializeAsWritten` (shown by `Pump.TagOnlyBufferPanics`) | `Pump.TryDeserialize` (proved by `Pump.CurveRoundTrip`, `Pump.CurveDecodeThenEncode`) |
| programs/archie-cpi/src/instructions/pump.rs:86-92 | the owner constraint on `token_account` runs before the handler; an account that has not been created is owned by the System Program, so it is rejected, and the creation branch of lines 137-153 can only run for an empty account already owned by the Token Program | a user with no associated token account for the mint: owner `11111111111111111111111111111111`, data length 0 | let a token account that has not been created through, so that the handler creates it | plausible, not executed | `Pump.CheckAccountsAsWritten` | `Pump.CheckAccounts` (used by `Pump.BuyPumpTokens`) |
