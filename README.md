# Modular token, modelled in Dafny

The model covers four Solana programs from the modular-token repository.

- **The token broker** (`programs/token`). It registers third-party token
  handler programs in `TokenHandler` records. It allocates mint and
  token-account storage at addresses it derives and signs for, and hands that
  storage to the handler. It then relays hand-packed instructions
  (`initialize_mint`, `initialize_token_account`, `mint_to`) to the handler.
  A signed user account is never passed on: creation is paid before the
  handler sees the account, and `mint_to` is vouched for by the broker's own
  signed record.
- **The basic token handler** (`programs/basic-token-handler`). It takes
  over a zero-filled region and writes a `Mint` or `TokenAccount` record into
  it.
- **The token frontend** (`programs/token-frontend`). This is the earlier
  snapshot of the broker: a `Backend` registry, and a mint allocation that
  does not depend on the nonce.
- **The modular-token front** (`programs/modular-token`). It holds
  `TokenAccountFront` records, and builds (without sending) the mint
  instruction for a backend from the accounts it was handed.

## Modules

- `Bytes` (bytes.dfy): bytes, `u32`/`u64`, 32-byte keys, and the
  little-endian encoding with its round trips.
- `Solana` (solana.dfy) is the runtime the programs call:
  - the account map;
  - `find_program_address`, the rent minimum and the curve test, as
    function-typed parameters of `Runtime`;
  - the system program's `create_account`;
  - the cross-program-invocation privilege rule;
  - class `Ledger`: the account map plus the log of issued invocations.
- `TokenBroker`, `BasicTokenHandler`, `TokenFrontend`, `ModularToken`: one
  module per program.
  - Each state-changing entrypoint is a method on the `Ledger`.
  - Its `ensures` ties the new state and the issued invocations to a pure
    `…Effect` function.
  - Lemmas characterise the `…Effect` functions: when they succeed, what they
    leave in the accounts, and what can never happen twice.
- `Interop` (interop.dfy): the byte-level contract between broker and
  handler, and both halves of the two findings below.

A transaction either commits all of its effects or none of them. Methods
therefore restore the ledger when a later step fails. Account validation runs
in the order the generated account code runs it:
1. accounts are deserialised and signers checked, field by field;
2. `init` fields are created;
3. the remaining constraints (`has_one`, `executable`) are checked.

Two assumptions are stated where a lemma uses them, never globally:
- `DerivedOffCurve`: every derived address lies off the curve;
- `SignersOnCurve`: every transaction signer lies on the curve.

Injectivity of address derivation is never assumed. Results that would need
it are stated on the seeds.

What the code does at the points where a reader might expect otherwise:
- Re-registering a handler fails, because `init` finds the record's address
  in use (programs/token/src/lib.rs:48).
- A mismatched mint or token-account key, and a non-system owner, are only
  logged (programs/token/src/lib.rs:152-160, 230-237;
  programs/token-frontend/src/lib.rs:73-79). Any rejection comes from the
  system program or from the runtime's signer check.
- No handler or backend size is checked before allocation; a size of zero is
  allocated like any other (programs/token/src/lib.rs:170-185).
- In `mint_to`, ownership and authority mismatches are `assert!` panics
  (programs/token/src/lib.rs:300-313), modelled as the error `Panic`.
- A missing registry record fails with `AccountNotInitialized`, the error of
  deserialising an account that does not exist.
- `mint_to` does not require the mint authority to differ from `to`. If they
  are the same key, that account is relayed flagged unsigned, so the handler
  does not see its signature (programs/token/src/lib.rs:325-330).

## Model

| member | source | states |
|---|---|---|
| Bytes.U64RoundTrip | programs/token/src/lib.rs:148 | decoding the 8 little-endian bytes of a `u64` gives it back |
| Bytes.U64LeFromLe | programs/token/src/lib.rs:303 | any 8 bytes are the encoding of the `u64` they decode to |
| Bytes.U32RoundTrip | programs/token/src/lib.rs:396-402 | decoding the 4 little-endian bytes of a `u32` gives it back |
| Bytes.U64LeInjective | programs/token/src/lib.rs:148-151 | two `u64` have the same encoding iff they are equal |
| Bytes.U64FromZeros | programs/basic-token-handler/src/lib.rs:56-61 | eight zero bytes decode to 0 |
| Solana.FundedMinimum | programs/token/src/lib.rs:174-175 | `minimum_balance(space).max(1)` is at least 1 and at least the rent minimum, and is one of the two |
| Solana.CreateAccountInstruction | programs/token/src/lib.rs:171-178 | the create instruction names the payer and the new account, both signing, and carries lamports, space and owner at fixed offsets |
| Solana.InvokeCheck | programs/token/src/lib.rs:201-207 | an invocation passes iff every named account and the program were passed and every signer flag is a transaction signature or one the caller derives; otherwise it fails with a missing account or a privilege escalation |
| Solana.SystemCreateAccount | programs/token/src/lib.rs:170-185 | creation succeeds iff the target is blank, differs from the payer, the space is allowed and the payer is a data-free system account with the lamports. Then the target is a zero-filled account of that owner and size, the payer is debited, and nothing else changes |
| Solana.FundedAccountIsNotRecreated | programs/token/src/lib.rs:170-185 | an account funded with at least one lamport can never be created again |
| Solana.CreateAccountEffect | programs/token/src/lib.rs:170-185 | `invoke_signed(create_account)` succeeds iff the runtime's privilege check and the system program both accept, and then equals the system program's effect |
| Solana.CreateAccountEffectBySeeds | programs/token/src/lib.rs:162-185 | with the payer signing, creation signed with `seeds ++ [bump]` passes iff the new account signed or is the address those seeds derive with that bump |
| Solana.AuthorizedBySeeds | programs/token/src/lib.rs:184 | a key carries a signature under one set of signer seeds iff it signed the transaction or those seeds derive it |
| Solana.SignsWithBump | programs/token/src/lib.rs:162 | seeds followed by a bump sign exactly for the address the seeds derive, if the bump is the derived one |
| Solana.CreateAccountMayInvoke | programs/token/src/lib.rs:179-184 | creation passes the privilege check iff payer and new account both carry a signature |
| Solana.InvokeUnsigned | programs/token/src/lib.rs:193-207 | relaying one unsigned account needs only that account and the program among the passed accounts |
| Solana.Ledger.CreateAccount | programs/token/src/lib.rs:170-185 | the ledger's accounts become the creation's effect and the invocation is logged; on failure nothing changes |
| Solana.Ledger.Invoke | programs/token/src/lib.rs:201-207 | the outcome is the runtime's verdict, and only a successful invocation is logged |
| TokenBroker.MintSeedsInjective | programs/token/src/lib.rs:148-151 | distinct nonces give distinct mint seeds |
| TokenBroker.TokenAccountSeedsInjective | programs/token/src/lib.rs:222-229 | token-account seeds determine both the mint nonce and the authority |
| TokenBroker.RawMintSeeds | programs/token/src/lib.rs:303-306 | the seeds `mint_to` builds from eight raw bytes are the mint seeds of the nonce those bytes encode |
| TokenBroker.DecodeEncodeHandler | programs/token/src/lib.rs:396-402 | a `TokenHandler` record fills exactly 8+32+4+4+1 bytes and reads back as written |
| TokenBroker.LoadHandler | programs/token/src/lib.rs:58-71 | the record loads iff it exists, is broker-owned and well-formed, the required account signed, its `handler_program` is the one supplied and that program is executable; it yields the stored record |
| TokenBroker.InitializeMintData | programs/token/src/lib.rs:189-191 | relay data is the init-mint discriminator followed by the caller's payload, untouched |
| TokenBroker.InitializeTokenAccountData | programs/token/src/lib.rs:269-273 | relay data is the discriminator, then the authority at 8..40, the nonce at 40..48, then the payload |
| TokenBroker.MintToData | programs/token/src/lib.rs:321-323 | relay data is 16 bytes: the mint-to discriminator and the amount, which decodes back |
| TokenBroker.MintToChecks | programs/token/src/lib.rs:295-313 | `mint_to` proceeds iff the record loads with the authority's signature, `to` and `mint` are owned by the handler program, `to` holds 48 bytes, `mint` is the address derived from `["mint", to[40..48]]`, and the authority equals `mint[8..40]` |
| TokenBroker.CreatePreservesRegistry | programs/token/src/lib.rs:170-185 | creating any account keeps every broker-owned record at the address derived for its handler program |
| TokenBroker.RegisterHandlerEffect | programs/token/src/lib.rs:46-56 | a successful registration issues exactly one invocation: the broker's `create_account` of the record, funded with the rent minimum, 49 bytes, broker-owned, signed with `["handler", handler_program, bump]` for the derivation's own bump; it adds only the payer and record keys |
| TokenBroker.RegisterHandlerSucceeds | programs/token/src/lib.rs:46-56 | registration succeeds iff the payer signed, the record key is derived from `["handler", handler_program]`, the system program can create it, and the handler program is executable |
| TokenBroker.RegisterHandlerRecord | programs/token/src/lib.rs:126-137 | the new record is broker-owned, rent-funded, 49 bytes, and holds the program key, both sizes and the derivation's bump; registry binding is preserved |
| TokenBroker.RegisterHandlerOnce | programs/token/src/lib.rs:48 | registering the same handler program twice fails |
| TokenBroker.RegisterHandler | programs/token/src/lib.rs:126-137 | the ledger ends in the registration's effect, or unchanged with its error |
| TokenBroker.AllocateAndRelayEffect | programs/token/src/lib.rs:170-207 | create-then-relay succeeds iff creation succeeds and the relay may be invoked; it leaves the creation's accounts and logs exactly the two invocations |
| TokenBroker.AllocateAndRelay | programs/token/src/lib.rs:170-207 | the ledger ends in the create-then-relay effect, or is restored when either step fails |
| TokenBroker.InitializeMintEffect | programs/token/src/lib.rs:162-207 | a success needs the record to load. It issues two invocations. First, the mint's `create_account`, funded with `max(rent,1)` and the registered size, handler-owned, signed with `["mint", nonce, bump]` for the derivation's bump. Second, the relay to the handler program, carrying only the derived mint, unsigned and writable, no signer seeds, and the discriminator plus the payload |
| TokenBroker.InitializeMintSucceeds | programs/token/src/lib.rs:141-210 | `initialize_mint` succeeds iff the record loads with the payer's signature, the mint key is the derived one or signed itself, the system program can create it with `max(rent,1)` and the registered size, and the derived mint is among the accounts handed to the relay |
| TokenBroker.InitializeMintAccounts | programs/token/src/lib.rs:170-185 | the mint becomes a zero-filled, handler-owned account of the registered size, funded with `max(rent,1)`; other accounts except the payer are unchanged; registry binding is preserved |
| TokenBroker.InitializeMintOnce | programs/token/src/lib.rs:170-185 | a second `initialize_mint` naming the same mint always fails |
| TokenBroker.InitializeMintRelaysNoSignature | programs/token/src/lib.rs:18-31 | under the curve assumptions, no relayed account is flagged signer or is a transaction signer, so the payer's signature never reaches the handler |
| TokenBroker.InitializeMint | programs/token/src/lib.rs:141-210 | the ledger ends in `initialize_mint`'s effect, or unchanged with its error |
| TokenBroker.InitializeTokenAccountEffect | programs/token/src/lib.rs:239-290 | a success needs the record to load. It issues two invocations. First, the account's `create_account`, signed with `["token", nonce, authority, bump]`. Second, the relay carrying only the derived account, unsigned, with that authority at 8..40 and that nonce at 40..48 of its data |
| TokenBroker.InitializeTokenAccountSucceeds | programs/token/src/lib.rs:214-293 | `initialize_token_account` succeeds under the same conditions as `initialize_mint`, for its own seeds and size |
| TokenBroker.InitializeTokenAccountAccounts | programs/token/src/lib.rs:250-265 | the token account becomes a zero-filled, handler-owned account of the registered size with `max(rent,1)` lamports; nothing else but the payer changes |
| TokenBroker.InitializeTokenAccountRelaysNoSignature | programs/token/src/lib.rs:18-31 | under the curve assumptions, the relayed token account carries no signature |
| TokenBroker.InitializeTokenAccount | programs/token/src/lib.rs:214-293 | the ledger ends in `initialize_token_account`'s effect, or unchanged with its error |
| TokenBroker.MintTo | programs/token/src/lib.rs:295-350 | `mint_to` succeeds iff its checks pass and the record's bump signs it. A failed check is reported with that check's own error, either an account error or `Panic`. On success it logs exactly one relay [mint, to, record-as-signer] with 16 bytes of data, signed with `["handler", handler_program, pda_bump]`. When every record sits at its derived address, the broker always obtains the record's signature. Under the curve assumptions, the mint authority is then neither the record nor the mint; it may be `to`, which is relayed unsigned |
| BasicTokenHandler.EncodeMint | programs/basic-token-handler/src/lib.rs:49-54 | a `Mint` record is 49 bytes: tag, authority at 8..40, supply at 40..48, decimals at 48 |
| BasicTokenHandler.EncodeTokenAccount | programs/basic-token-handler/src/lib.rs:56-61 | a `TokenAccount` record is 56 bytes: tag, authority at 8..40, balance at 40..48, mint at 48..56 |
| BasicTokenHandler.DecodeEncodeMint | programs/basic-token-handler/src/lib.rs:49-54 | a mint record reads back as written |
| BasicTokenHandler.DecodeEncodeTokenAccount | programs/basic-token-handler/src/lib.rs:56-61 | a token-account record reads back as written |
| BasicTokenHandler.WriteRecord | programs/basic-token-handler/src/lib.rs:22-46 | writing a record keeps the account's length and overwrites only its prefix |
| BasicTokenHandler.ZeroedMint | programs/basic-token-handler/src/lib.rs:49-54 | a zero-filled region reads as a mint with zero authority, supply and decimals |
| BasicTokenHandler.ZeroedTokenAccount | programs/basic-token-handler/src/lib.rs:56-61 | a zero-filled region reads as a token account with balance 0 |
| BasicTokenHandler.ZeroConstraint | programs/basic-token-handler/src/lib.rs:6-16 | `zero` accepts iff the account has a zero tag, exists, is handler-owned, holds the record and is rent-exempt |
| BasicTokenHandler.InitializeMint | programs/basic-token-handler/src/lib.rs:22-33 | the outcome is the `zero` check; on success only the mint changes, to the old record with the new authority and decimals |
| BasicTokenHandler.InitializeTokenAccount | programs/basic-token-handler/src/lib.rs:35-46 | the outcome is the `zero` check; on success only the account changes, to the old record with the new authority and mint |
| BasicTokenHandler.InitializedMintFields | programs/basic-token-handler/src/lib.rs:22-33 | after `initialize_mint` the length is kept, the tag is written, and the record holds the new authority and decimals with the supply unchanged (0 from a zeroed region) |
| BasicTokenHandler.InitializedTokenAccountFields | programs/basic-token-handler/src/lib.rs:35-46 | after `initialize_token_account` the record holds the new authority and mint with the balance unchanged (0 from a zeroed region) |
| BasicTokenHandler.InitializeMintOnce | programs/basic-token-handler/src/lib.rs:8 | once a mint is initialized, `zero` refuses it for any record size |
| BasicTokenHandler.InitializeTokenAccountOnce | programs/basic-token-handler/src/lib.rs:14 | once a token account is initialized, `zero` refuses it for any record size |
| BasicTokenHandler.DecodeInitializeMintArgs | programs/basic-token-handler/src/lib.rs:22-26 | the arguments decode iff there are at least 33 bytes, as a key and a byte; trailing bytes are ignored |
| BasicTokenHandler.DecodeInitializeTokenAccountArgs | programs/basic-token-handler/src/lib.rs:35-39 | the arguments decode iff there are at least 40 bytes, as a key and the `u64` whose encoding bytes 32..40 are |
| BasicTokenHandler.Process | programs/basic-token-handler/src/lib.rs:18-47 | short data is `InstructionMissing` and an unknown discriminator `InstructionFallbackNotFound`. For a known one, undecodable arguments give `InstructionDidNotDeserialize` and no account `AccountNotEnoughKeys`. Otherwise the outcome is the `zero` check on the first account. On success only that account changes, and exactly as Anchor's exit leaves it: the tag and record are written over its prefix with the decoded arguments and the old supply or balance, while lamports, owner, `executable` and the bytes past the record are kept |
| TokenFrontend.DecodeEncodeBackend | programs/token-frontend/src/lib.rs:109-114 | a `Backend` record fills exactly 8+32+4+4 bytes and reads back as written |
| TokenFrontend.RegisterBackendEffect | programs/token-frontend/src/lib.rs:15-25 | a successful registration issues exactly one creation, with no signer seeds, funded with the rent minimum and owned by the frontend, and adds only the payer and record keys |
| TokenFrontend.RegisterBackendSucceeds | programs/token-frontend/src/lib.rs:15-25 | registration succeeds iff the payer and the record key both signed, the system program can create it, and the backend program is executable; nothing ties the address to the backend program |
| TokenFrontend.RegisterBackendRecord | programs/token-frontend/src/lib.rs:47-59 | the record holds the backend program and both sizes exactly as passed; nothing else but the payer changes |
| TokenFrontend.RegisterBackend | programs/token-frontend/src/lib.rs:47-59 | the ledger ends in the registration's effect, or unchanged with its error |
| TokenFrontend.LoadBackend | programs/token-frontend/src/lib.rs:27-41 | the record loads iff it exists, is frontend-owned and well-formed, the payer signed, and `backend_program` matches and is executable |
| TokenFrontend.InitializeMintEffect | programs/token-frontend/src/lib.rs:81-103 | the one creation is for the mint with `max(rent,1)`, the backend's mint size and the backend owner, signed with `["mint", bump]`, whatever the nonce |
| TokenFrontend.InitializeMintSucceeds | programs/token-frontend/src/lib.rs:61-106 | `initialize_mint` succeeds iff the record loads, the mint key is the single address derived from `["mint"]` or signed, and the system program can create it; it leaves a zero-filled backend-owned mint |
| TokenFrontend.InitializeMintAtMostOnce | programs/token-frontend/src/lib.rs:67-85 | after one derived mint exists, every later `initialize_mint` with an unsigned mint key fails, whatever the nonce |
| TokenFrontend.InitializeMint | programs/token-frontend/src/lib.rs:61-106 | the ledger ends in `initialize_mint`'s effect, or unchanged with its error |
| ModularToken.FrontSeedsInjective | programs/modular-token/src/lib.rs:41 | front-account seeds determine the mint and the authority |
| ModularToken.DecodeEncodeFront | programs/modular-token/src/lib.rs:134-142 | a `TokenAccountFront` fills exactly 8+32+32+8 bytes and reads back as written |
| ModularToken.InitializeTokenAccountEffect | programs/modular-token/src/lib.rs:31-48 | a successful initialization issues one creation signed with `["token_account_front", mint, authority, bump]` |
| ModularToken.InitializeTokenAccountSucceeds | programs/modular-token/src/lib.rs:31-48 | initialization succeeds iff the payer signed, the key is the derived one, the system program can create it and the backend program is executable |
| ModularToken.InitializeTokenAccountRecord | programs/modular-token/src/lib.rs:54-63 | the front record holds the authority, backend program and mint as given, in a program-owned rent-funded 80-byte account |
| ModularToken.InitializeTokenAccountOnce | programs/modular-token/src/lib.rs:37-44 | the same (mint, authority) cannot be initialized twice |
| ModularToken.InitializeTokenAccount | programs/modular-token/src/lib.rs:54-98 | the ledger ends in the initialization's effect, or unchanged with its error |
| ModularToken.ForwardedAppend | programs/modular-token/src/lib.rs:108-112 | filtering distributes over concatenation, so kept accounts keep their original order |
| ModularToken.ForwardedMembers | programs/modular-token/src/lib.rs:108-112 | an entry is forwarded iff it is a remaining account without the backend's key, with its flags unchanged |
| ModularToken.ForwardedWithoutBackend | programs/modular-token/src/lib.rs:108-112 | no forwarded entry has the backend's key, and a list without it is forwarded whole |
| ModularToken.InitializeMint | programs/modular-token/src/lib.rs:100-123 | the instruction is built iff the backend is executable. It targets the backend, with the filtered remaining accounts and the data unchanged; no account changes |
| Interop.DiscriminatorsAgree | programs/basic-token-handler/src/lib.rs:22-39 | the broker's init discriminators are the handler's; the mint-to relay matches neither |
| Interop.MintRelayArgs | programs/token/src/lib.rs:189-191 | the handler decodes the broker's mint relay iff the payload has 33 bytes, as its first key and byte |
| Interop.TokenAccountRelayArgs | programs/token/src/lib.rs:269-273 | the handler decodes the broker's token-account relay as exactly the authority and nonce, whatever the payload |
| Interop.CreatedMintAccepted | programs/basic-token-handler/src/lib.rs:8 | a mint the broker allocated passes the handler's `zero` check iff the registered size holds a `Mint` |
| Interop.CreatedTokenAccountAccepted | programs/basic-token-handler/src/lib.rs:14 | the same for a token account |
| Interop.MintAuthorityAgrees | programs/token/src/lib.rs:310 | the handler's mint authority sits at bytes 8..40, where `mint_to` reads it |
| Interop.FreshTokenAccountReadsNonceZero | programs/token/src/lib.rs:303 | bytes 40..48 of a fresh token account give the seeds of nonce 0, and the account's own nonce only when it is 0 |
| Interop.MintToNeedsMintOfNonceZero | programs/token/src/lib.rs:303-308 | `mint_to` into a fresh token account accepts only the mint of nonce 0 |
| Interop.EncodeTokenAccountIntended | programs/basic-token-handler/src/lib.rs:56-61 | the intended layout puts the mint at 40..48 and the balance at 48..56 |
| Interop.DecodeEncodeTokenAccountIntended | programs/basic-token-handler/src/lib.rs:56-61 | an intended-layout record reads back as written |
| Interop.IntendedTokenAccountReadsNonce | programs/token/src/lib.rs:303 | with the intended layout a fresh account holds authority, nonce and balance 0, and bytes 40..48 give its own mint's seeds |
| Interop.IntendedMintToDerivesOwnMint | programs/token/src/lib.rs:303-308 | with the intended layout `mint_to` re-derives the account's own mint |
| Interop.BrokerMintsIndependent | programs/token/src/lib.rs:148-151 | creating one nonce's mint leaves another nonce's mint address untouched, unless the derivations collide or it paid |

## Left out

- Program-address derivation internals (the seed hash, the bump search, the
  curve test). They are parameters of `Runtime`. Only the canonical bump is
  modelled.
- Signature verification and transaction assembly. The transaction's signers
  are a set parameter.
- Writable flags and `mut` constraints, the `Program<System>` account check,
  and a failing rent sysvar read.
- Instruction-argument decoding for the broker, frontend and modular-token
  entrypoints, which take typed arguments. The handler's dispatch and
  argument decoding are modelled.
- The `init` path for an account that already holds lamports (transfer,
  allocate, assign). The model rejects such an account as already in use.
- Handler execution inside the broker's relays. The ledger records each
  relayed invocation, and the broker's rollback covers the runtime's
  privilege check. The handler is modelled on its own (`Process`) and tied to
  the broker by the `Interop` lemmas.
- The handler side of `mint_to`. No shown handler implements it; the basic
  handler reports it as an unknown instruction.
- The commented-out `transfer` and the commented-out modular-token
  `mint_to`/`transfer`. They are not live code.
- programs/basic-token-backend: every entrypoint is an empty `Ok(())`.
- The test script, which is an RPC client. Only its sizes and seeds are used
  as evidence.
- `msg!` logging.
- Lamport overflow. Balances are unbounded naturals.

## Findings

| source | as written | input that shows it | evidently intended | confidence | as-written member | corrected member |
|---|---|---|---|---|---|---|
| programs/basic-token-handler/src/lib.rs:56-61 with programs/token/src/lib.rs:303 | `TokenAccount` stores the balance at bytes 40..48 and the mint at 48..56, but `mint_to` reads the mint nonce from 40..48 | `initialize_token_account` for nonce 4 on a fresh 56-byte account, then `mint_to` with the mint of nonce 4. Bytes 40..48 are zero, so the derived mint is that of nonce 0 and the `assert!` fails unless the two derivations collide | the layout authority, mint, balance, as the test's size comment says (tests/modular-token.ts:18) | high, not executed | Interop.FreshTokenAccountReadsNonceZero, Interop.MintToNeedsMintOfNonceZero | Interop.EncodeTokenAccountIntended, Interop.IntendedTokenAccountReadsNonce, Interop.IntendedMintToDerivesOwnMint |
| programs/token-frontend/src/lib.rs:67-85 | the mint address is derived from `["mint"]` alone; the nonce's bytes are computed and never used | `initialize_mint` with nonce 1, then with nonce 2, both at the derived address: the second always fails, because the address is in use | derive from `["mint", nonce]`, as the broker does (programs/token/src/lib.rs:150-151) | high, not executed | TokenFrontend.InitializeMintAtMostOnce | TokenBroker.MintSeedsInjective, Interop.BrokerMintsIndependent |
