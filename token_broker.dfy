/**
 * The token broker (programs/token): registers third-party token handlers,
 * allocates mint and token-account storage at derived addresses, hands that
 * storage to the handler, and relays hand-packed instructions to it. A user's
 * signed account is never passed on: creation is paid and signed before the
 * handler is involved, and `mint_to` is vouched for by the broker's own
 * `TokenHandler` record, signed with the record's derivation seeds.
 */
module TokenBroker {
  import opened Bytes
  import opened Solana

  /** The broker's program id and the 8-byte tag Anchor writes in front of a serialized `TokenHandler`. */
  datatype Broker = Broker(id: Pubkey, handlerTag: seq<Byte>)

  predicate ValidBroker(b: Broker)
  {
    |b.handlerTag| == 8 && b.handlerTag != Zeros(8)
  }

  /** The registry record kept for one handler program. */
  datatype TokenHandler = TokenHandler(handlerProgram: Pubkey, tokenAccountBytes: U32, mintAccountBytes: U32, pdaBump: Byte)

  /** Space allocated for a record: tag, key, two u32 sizes, the bump. */
  const HANDLER_SPACE: nat := 8 + 32 + 4 + 4 + 1

  const HANDLER_SEED: seq<Byte> := [0x68, 0x61, 0x6e, 0x64, 0x6c, 0x65, 0x72]  // "handler"
  const MINT_SEED: seq<Byte> := [0x6d, 0x69, 0x6e, 0x74]  // "mint"
  const TOKEN_SEED: seq<Byte> := [0x74, 0x6f, 0x6b, 0x65, 0x6e]  // "token"

  /** Discriminators of the handler instructions the broker relays. */
  const INITIALIZE_MINT: seq<Byte> := [0xd1, 0x2a, 0xc3, 0x04, 0x81, 0x55, 0xd1, 0x2c]
  const INITIALIZE_TOKEN_ACCOUNT: seq<Byte> := [0x96, 0x55, 0x2c, 0x1c, 0x95, 0x0e, 0xd2, 0x1a]
  const MINT_TO: seq<Byte> := [0xf1, 0x22, 0x30, 0xba, 0x25, 0xb3, 0x7b, 0xc0]

  function HandlerSeeds(handlerProgram: Pubkey): Seeds
  {
    [HANDLER_SEED, handlerProgram]
  }

  function MintSeeds(nonce: U64): Seeds
  {
    [MINT_SEED, U64Le(nonce)]
  }

  function TokenAccountSeeds(mintNonce: U64, authority: Pubkey): Seeds
  {
    [TOKEN_SEED, U64Le(mintNonce), authority]
  }

  /** Distinct nonces give distinct mint seeds, hence mints at distinct addresses for a collision-free derivation. */
  lemma MintSeedsInjective(n1: U64, n2: U64)
    requires MintSeeds(n1) == MintSeeds(n2)
    ensures n1 == n2
  {
    assert U64Le(n1) == MintSeeds(n1)[1];
    assert U64Le(n2) == MintSeeds(n2)[1];
    U64LeInjective(n1, n2);
  }

  /** Token-account seeds determine both the mint nonce and the authority. */
  lemma TokenAccountSeedsInjective(n1: U64, a1: Pubkey, n2: U64, a2: Pubkey)
    requires TokenAccountSeeds(n1, a1) == TokenAccountSeeds(n2, a2)
    ensures n1 == n2 && a1 == a2
  {
    assert U64Le(n1) == TokenAccountSeeds(n1, a1)[1];
    assert U64Le(n2) == TokenAccountSeeds(n2, a2)[1];
    assert a1 == TokenAccountSeeds(n1, a1)[2];
    U64LeInjective(n1, n2);
  }

  /** The seeds `mint_to` derives from eight raw bytes are the mint seeds of the nonce those bytes encode. */
  lemma RawMintSeeds(raw: seq<Byte>)
    requires |raw| == 8
    ensures [MINT_SEED, raw] == MintSeeds(U64FromLe(raw))
  {
    U64LeFromLe(raw);
  }

  function EncodeHandler(tag: seq<Byte>, h: TokenHandler): seq<Byte>
  {
    tag + h.handlerProgram + U32Le(h.tokenAccountBytes) + U32Le(h.mintAccountBytes) + [h.pdaBump]
  }

  /** Borsh decoding after the tag; trailing bytes are ignored. */
  function DecodeHandler(tag: seq<Byte>, data: seq<Byte>): Option<TokenHandler>
  {
    if |data| < HANDLER_SPACE || data[..8] != tag then None
    else Some(TokenHandler(data[8..40], U32FromLe(data[40..44]), U32FromLe(data[44..48]), data[48]))
  }

  /** The record fills exactly the space allocated for it and reads back as written. */
  lemma DecodeEncodeHandler(tag: seq<Byte>, h: TokenHandler)
    requires |tag| == 8
    ensures |EncodeHandler(tag, h)| == HANDLER_SPACE
    ensures DecodeHandler(tag, EncodeHandler(tag, h)) == Some(h)
  {
    var d := EncodeHandler(tag, h);
    assert d[..8] == tag;
    assert d[8..40] == h.handlerProgram;
    assert d[40..44] == U32Le(h.tokenAccountBytes);
    assert d[44..48] == U32Le(h.mintAccountBytes);
    U32RoundTrip(h.tokenAccountBytes);
    U32RoundTrip(h.mintAccountBytes);
  }

  /**
   * The account validation shared by the three relaying entrypoints, in the
   * order the generated code runs it: the `handler` account is deserialized (an
   * existing, broker-owned, tagged, well-formed `TokenHandler`), the account that must
   * sign is checked, then `has_one = handler_program` and `executable`.
   */
  function LoadHandler(rt: Runtime, b: Broker, accounts: map<Pubkey, Account>, signers: set<Pubkey>,
                       handler: Pubkey, handlerProgram: Pubkey, signer: Pubkey): (r: Result<TokenHandler>)
    ensures r.Ok? <==>
      && !(Lookup(rt, accounts, handler).owner == rt.systemProgram && Lookup(rt, accounts, handler).lamports == 0)
      && Lookup(rt, accounts, handler).owner == b.id
      && DecodeHandler(b.handlerTag, Lookup(rt, accounts, handler).data).Some?
      && signer in signers
      && DecodeHandler(b.handlerTag, Lookup(rt, accounts, handler).data).value.handlerProgram == handlerProgram
      && Lookup(rt, accounts, handlerProgram).executable
    ensures r.Ok? ==> Some(r.value) == DecodeHandler(b.handlerTag, Lookup(rt, accounts, handler).data)
  {
    var a := Lookup(rt, accounts, handler);
    if a.owner == rt.systemProgram && a.lamports == 0 then Err(AccountNotInitialized)
    else if a.owner != b.id then Err(AccountOwnedByWrongProgram)
    else if |a.data| < 8 then Err(AccountDiscriminatorNotFound)
    else if a.data[..8] != b.handlerTag then Err(AccountDiscriminatorMismatch)
    else if |a.data| < HANDLER_SPACE then Err(AccountDidNotDeserialize)
    else if signer !in signers then Err(AccountNotSigner)
    else
      var h := DecodeHandler(b.handlerTag, a.data).value;
      if h.handlerProgram != handlerProgram then Err(ConstraintHasOne)
      else if !Lookup(rt, accounts, handlerProgram).executable then Err(ConstraintExecutable)
      else Ok(h)
  }

  /**
   * Every `TokenHandler` record the broker owns sits at the address derived from
   * `["handler", handler_program]`, and its `pda_bump` is that derivation's bump.
   */
  ghost predicate RegistryBound(rt: Runtime, b: Broker, accounts: map<Pubkey, Account>)
  {
    forall k | k in accounts && accounts[k].owner == b.id && DecodeHandler(b.handlerTag, accounts[k].data).Some? ::
      var h := DecodeHandler(b.handlerTag, accounts[k].data).value;
      FindProgramAddress(rt, HandlerSeeds(h.handlerProgram), b.id) == Derived(k, h.pdaBump)
  }

  /** Creating an account, whoever owns it, never forges a registry record: its data is zeros. */
  lemma CreatePreservesRegistry(rt: Runtime, b: Broker, accounts: map<Pubkey, Account>, payer: Pubkey,
                                target: Pubkey, lamports: U64, space: U64, owner: Pubkey)
    requires ValidBroker(b) && RegistryBound(rt, b, accounts)
    requires SystemCreateAccount(rt, accounts, payer, target, lamports, space, owner).Ok?
    ensures RegistryBound(rt, b, SystemCreateAccount(rt, accounts, payer, target, lamports, space, owner).value)
  {
    var next := SystemCreateAccount(rt, accounts, payer, target, lamports, space, owner).value;
    forall k | k in next && next[k].owner == b.id && DecodeHandler(b.handlerTag, next[k].data).Some?
      ensures FindProgramAddress(rt, HandlerSeeds(DecodeHandler(b.handlerTag, next[k].data).value.handlerProgram), b.id)
              == Derived(k, DecodeHandler(b.handlerTag, next[k].data).value.pdaBump)
    {
      if k == target || k == payer {
        assert false;
      } else {
        assert next[k] == accounts[k];
      }
    }
  }

  /** Instruction data relayed by `initialize_mint`: discriminator, then the caller's payload untouched. */
  function InitializeMintData(mintData: seq<Byte>): (d: seq<Byte>)
    ensures |d| == 8 + |mintData|
    ensures d[..8] == INITIALIZE_MINT && d[8..] == mintData
  {
    INITIALIZE_MINT + mintData
  }

  /** Instruction data relayed by `initialize_token_account`: discriminator, authority, nonce, payload. */
  function InitializeTokenAccountData(authority: Pubkey, mintNonce: U64, payload: seq<Byte>): (d: seq<Byte>)
    ensures |d| == 48 + |payload|
    ensures d[..8] == INITIALIZE_TOKEN_ACCOUNT
    ensures d[8..40] == authority
    ensures d[40..48] == U64Le(mintNonce)
    ensures d[48..] == payload
  {
    INITIALIZE_TOKEN_ACCOUNT + authority + U64Le(mintNonce) + payload
  }

  /** Instruction data relayed by `mint_to`: discriminator and the amount, sixteen bytes in all. */
  function MintToData(amount: U64): (d: seq<Byte>)
    ensures |d| == 16
    ensures d[..8] == MINT_TO && U64FromLe(d[8..]) == amount
  {
    U64RoundTrip(amount);
    MINT_TO + U64Le(amount)
  }

  /**
   * The checks `mint_to` makes before relaying: its account constraints, both
   * accounts owned by the handler program, the mint nonce read from bytes 40..48
   * of `to`, the mint address re-derived from it, and the signing authority
   * compared with bytes 8..40 of `mint`. A short `to` or `mint` panics.
   */
  function MintToChecks(rt: Runtime, b: Broker, accounts: map<Pubkey, Account>, signers: set<Pubkey>,
                        handler: Pubkey, handlerProgram: Pubkey, to: Pubkey, mintAuthority: Pubkey,
                        mint: Pubkey): (r: Result<TokenHandler>)
    ensures r.Ok? <==>
      && LoadHandler(rt, b, accounts, signers, handler, handlerProgram, mintAuthority).Ok?
      && Lookup(rt, accounts, to).owner == handlerProgram
      && Lookup(rt, accounts, mint).owner == handlerProgram
      && |Lookup(rt, accounts, to).data| >= 48
      && mint == FindProgramAddress(rt, [MINT_SEED, Lookup(rt, accounts, to).data[40..48]], b.id).address
      && |Lookup(rt, accounts, mint).data| >= 40
      && mintAuthority == Lookup(rt, accounts, mint).data[8..40]
    ensures r.Ok? ==> r == LoadHandler(rt, b, accounts, signers, handler, handlerProgram, mintAuthority)
  {
    var loaded := LoadHandler(rt, b, accounts, signers, handler, handlerProgram, mintAuthority);
    var toData := Lookup(rt, accounts, to).data;
    var mintData := Lookup(rt, accounts, mint).data;
    if loaded.Err? then loaded
    else if Lookup(rt, accounts, to).owner != handlerProgram then Err(Panic)
    else if Lookup(rt, accounts, mint).owner != handlerProgram then Err(Panic)
    else if |toData| < 48 then Err(Panic)
    else if mint != FindProgramAddress(rt, [MINT_SEED, toData[40..48]], b.id).address then Err(Panic)
    else if |mintData| < 40 then Err(Panic)
    else if mintAuthority != mintData[8..40] then Err(Panic)
    else loaded
  }

  /** `register_handler` on the accounts: create the record at `["handler", handler_program]`, then fill it in. */
  function RegisterHandlerEffect(rt: Runtime, b: Broker, accounts: map<Pubkey, Account>, signers: set<Pubkey>,
                                 handler: Pubkey, payer: Pubkey, handlerProgram: Pubkey,
                                 tokenAccountBytes: U32, mintAccountBytes: U32): (r: Result<Effect>)
    ensures r.Ok? ==> r.value.accounts.Keys == accounts.Keys + {payer, handler}
    // the one invocation is the record's creation, signed with its own derivation's seeds and bump
    ensures r.Ok? ==>
              r.value.issued
              == [Invocation(b.id, CreateAccountInstruction(rt, payer, handler, MinimumBalance(rt, HANDLER_SPACE),
                                                            HANDLER_SPACE, b.id),
                             [HandlerSeeds(handlerProgram)
                              + [[FindProgramAddress(rt, HandlerSeeds(handlerProgram), b.id).bump]]])]
  {
    if payer !in signers then Err(AccountNotSigner)
    else
      var d := FindProgramAddress(rt, HandlerSeeds(handlerProgram), b.id);
      if handler != d.address then Err(ConstraintSeeds)
      else
        var seeds := HandlerSeeds(handlerProgram) + [[d.bump]];
        var lamports := MinimumBalance(rt, HANDLER_SPACE);
        match CreateAccountEffect(rt, accounts, b.id, signers, payer, handler, lamports, HANDLER_SPACE, b.id, [seeds])
        case Err(e) => Err(e)
        case Ok(next) =>
          // `executable` is checked after the `init` field is created; failing it undoes the creation
          if !Lookup(rt, accounts, handlerProgram).executable then Err(ConstraintExecutable)
          else
            var record := TokenHandler(handlerProgram, tokenAccountBytes, mintAccountBytes, d.bump);
            Ok(Effect(next[handler := next[handler].(data := EncodeHandler(b.handlerTag, record))],
                      [Invocation(b.id, CreateAccountInstruction(rt, payer, handler, lamports, HANDLER_SPACE, b.id),
                                  [seeds])]))
  }

  /**
   * Registration succeeds exactly when the payer signed, the handler program is
   * executable, the record key is the derived one and the system program can create it.
   */
  lemma RegisterHandlerSucceeds(rt: Runtime, b: Broker, accounts: map<Pubkey, Account>, signers: set<Pubkey>,
                                handler: Pubkey, payer: Pubkey, handlerProgram: Pubkey,
                                tokenAccountBytes: U32, mintAccountBytes: U32)
    ensures RegisterHandlerEffect(rt, b, accounts, signers, handler, payer, handlerProgram,
                                  tokenAccountBytes, mintAccountBytes).Ok?
            <==>
            && payer in signers
            && Lookup(rt, accounts, handlerProgram).executable
            && handler == FindProgramAddress(rt, HandlerSeeds(handlerProgram), b.id).address
            && SystemCreateAccount(rt, accounts, payer, handler, MinimumBalance(rt, HANDLER_SPACE), HANDLER_SPACE, b.id).Ok?
  {
    if payer in signers {
      var d := FindProgramAddress(rt, HandlerSeeds(handlerProgram), b.id);
      CreateAccountEffectBySeeds(rt, accounts, b.id, signers, payer, handler, MinimumBalance(rt, HANDLER_SPACE),
                                 HANDLER_SPACE, b.id, HandlerSeeds(handlerProgram), d.bump);
    }
  }

  /**
   * After registration the record is a broker-owned, rent-funded account holding
   * exactly the four fields, with the bump of its own derivation, and the
   * registry is still bound to its derived addresses.
   */
  lemma RegisterHandlerRecord(rt: Runtime, b: Broker, accounts: map<Pubkey, Account>, signers: set<Pubkey>,
                              handler: Pubkey, payer: Pubkey, handlerProgram: Pubkey,
                              tokenAccountBytes: U32, mintAccountBytes: U32)
    requires ValidBroker(b)
    requires RegisterHandlerEffect(rt, b, accounts, signers, handler, payer, handlerProgram,
                                   tokenAccountBytes, mintAccountBytes).Ok?
    ensures var after := RegisterHandlerEffect(rt, b, accounts, signers, handler, payer, handlerProgram,
                                               tokenAccountBytes, mintAccountBytes).value.accounts;
            && after[handler].owner == b.id
            && after[handler].lamports == MinimumBalance(rt, HANDLER_SPACE)
            && |after[handler].data| == HANDLER_SPACE
            && DecodeHandler(b.handlerTag, after[handler].data)
               == Some(TokenHandler(handlerProgram, tokenAccountBytes, mintAccountBytes,
                                    FindProgramAddress(rt, HandlerSeeds(handlerProgram), b.id).bump))
            && (RegistryBound(rt, b, accounts) ==> RegistryBound(rt, b, after))
  {
    var d := FindProgramAddress(rt, HandlerSeeds(handlerProgram), b.id);
    var lamports := MinimumBalance(rt, HANDLER_SPACE);
    var record := TokenHandler(handlerProgram, tokenAccountBytes, mintAccountBytes, d.bump);
    var created := SystemCreateAccount(rt, accounts, payer, handler, lamports, HANDLER_SPACE, b.id);
    var after := created.value[handler := created.value[handler].(data := EncodeHandler(b.handlerTag, record))];
    DecodeEncodeHandler(b.handlerTag, record);
    if RegistryBound(rt, b, accounts) {
      CreatePreservesRegistry(rt, b, accounts, payer, handler, lamports, HANDLER_SPACE, b.id);
    }
  }

  /** Registering the same handler program twice fails: the record's address is already in use. */
  lemma RegisterHandlerOnce(rt: Runtime, b: Broker, accounts: map<Pubkey, Account>, signers: set<Pubkey>,
                            handler: Pubkey, payer: Pubkey, handlerProgram: Pubkey,
                            tokenAccountBytes: U32, mintAccountBytes: U32,
                            signers2: set<Pubkey>, payer2: Pubkey, tokenAccountBytes2: U32, mintAccountBytes2: U32)
    requires RegisterHandlerEffect(rt, b, accounts, signers, handler, payer, handlerProgram,
                                   tokenAccountBytes, mintAccountBytes).Ok?
    ensures !RegisterHandlerEffect(rt, b,
                                   RegisterHandlerEffect(rt, b, accounts, signers, handler, payer, handlerProgram,
                                                         tokenAccountBytes, mintAccountBytes).value.accounts,
                                   signers2, handler, payer2, handlerProgram, tokenAccountBytes2, mintAccountBytes2).Ok?
  {
    var after := RegisterHandlerEffect(rt, b, accounts, signers, handler, payer, handlerProgram,
                                       tokenAccountBytes, mintAccountBytes).value.accounts;
    RegisterHandlerSucceeds(rt, b, accounts, signers, handler, payer, handlerProgram, tokenAccountBytes, mintAccountBytes);
    RegisterHandlerSucceeds(rt, b, after, signers2, handler, payer2, handlerProgram, tokenAccountBytes2, mintAccountBytes2);
    // the record's bytes were written, so the account is no longer blank
    var record := TokenHandler(handlerProgram, tokenAccountBytes, mintAccountBytes,
                               FindProgramAddress(rt, HandlerSeeds(handlerProgram), b.id).bump);
    assert after[handler].data == EncodeHandler(b.handlerTag, record);
    assert Lookup(rt, after, handler).data != [];
  }

  /** `register_handler`: create the record at `["handler", handler_program]` and fill in its four fields. */
  method RegisterHandler(l: Ledger, b: Broker, signers: set<Pubkey>, handler: Pubkey, payer: Pubkey,
                         handlerProgram: Pubkey, tokenAccountBytes: U32, mintAccountBytes: U32)
    returns (r: Outcome)
    modifies l
    ensures var e := RegisterHandlerEffect(l.rt, b, old(l.accounts), signers, handler, payer, handlerProgram,
                                           tokenAccountBytes, mintAccountBytes);
            && (r.Success? <==> e.Ok?)
            && (r.Success? ==> l.accounts == e.value.accounts && l.invocations == old(l.invocations) + e.value.issued)
            && (r.Failure? ==> r.error == e.error && l.accounts == old(l.accounts) && l.invocations == old(l.invocations))
  {
    if payer !in signers {
      return Failure(AccountNotSigner);
    }
    var d := FindProgramAddress(l.rt, HandlerSeeds(handlerProgram), b.id);
    if handler != d.address {
      return Failure(ConstraintSeeds);
    }
    var seeds := HandlerSeeds(handlerProgram) + [[d.bump]];
    var before := l.accounts;
    var logBefore := l.invocations;
    r := l.CreateAccount(b.id, signers, payer, handler, MinimumBalance(l.rt, HANDLER_SPACE), HANDLER_SPACE, b.id, [seeds]);
    if r.Failure? {
      return;
    }
    if !Lookup(l.rt, before, handlerProgram).executable {
      // the whole transaction is rolled back
      l.accounts, l.invocations := before, logBefore;
      return Failure(ConstraintExecutable);
    }
    // the body of register_handler, on the freshly deserialized record
    var record := TokenHandler(Zeros(32), 0, 0, 0);
    record := record.(handlerProgram := handlerProgram);
    record := record.(tokenAccountBytes := tokenAccountBytes);
    record := record.(mintAccountBytes := mintAccountBytes);
    record := record.(pdaBump := d.bump);
    // serialized into the account when the instruction exits
    l.accounts := l.accounts[handler := l.accounts[handler].(data := EncodeHandler(b.handlerTag, record))];
  }

  /**
   * The step `initialize_mint` and `initialize_token_account` share: create
   * `target` for the handler program, signed with `seeds`, then relay `relay`
   * to the handler without any signature. A failed relay aborts the whole
   * transaction, creation included.
   */
  function AllocateAndRelayEffect(rt: Runtime, accounts: map<Pubkey, Account>, caller: Pubkey, signers: set<Pubkey>,
                                  payer: Pubkey, target: Pubkey, lamports: U64, space: U64, owner: Pubkey,
                                  seeds: Seeds, relay: Instruction, infos: set<Pubkey>): (r: Result<Effect>)
    ensures r.Ok? <==>
      CreateAccountEffect(rt, accounts, caller, signers, payer, target, lamports, space, owner, [seeds]).Ok?
      && MayInvoke(rt, caller, signers, relay, infos, [])
    ensures r.Ok? ==>
      && r.value.accounts == SystemCreateAccount(rt, accounts, payer, target, lamports, space, owner).value
      && r.value.issued == [Invocation(caller, CreateAccountInstruction(rt, payer, target, lamports, space, owner), [seeds]),
                            Invocation(caller, relay, [])]
  {
    match CreateAccountEffect(rt, accounts, caller, signers, payer, target, lamports, space, owner, [seeds])
    case Err(e) => Err(e)
    case Ok(next) =>
      var check := InvokeCheck(rt, caller, signers, relay, infos, []);
      if check.Failure? then Err(check.error)
      else Ok(Effect(next, [Invocation(caller, CreateAccountInstruction(rt, payer, target, lamports, space, owner),
                                       [seeds]),
                            Invocation(caller, relay, [])]))
  }

  /** Create, then relay; if the relay fails the ledger is restored as it was. */
  method AllocateAndRelay(l: Ledger, caller: Pubkey, signers: set<Pubkey>, payer: Pubkey, target: Pubkey,
                          lamports: U64, space: U64, owner: Pubkey, seeds: Seeds, relay: Instruction,
                          infos: set<Pubkey>)
    returns (r: Outcome)
    modifies l
    ensures var e := AllocateAndRelayEffect(l.rt, old(l.accounts), caller, signers, payer, target, lamports, space,
                                            owner, seeds, relay, infos);
            && (r.Success? <==> e.Ok?)
            && (r.Success? ==> l.accounts == e.value.accounts && l.invocations == old(l.invocations) + e.value.issued)
            && (r.Failure? ==> r.error == e.error && l.accounts == old(l.accounts) && l.invocations == old(l.invocations))
  {
    var before := l.accounts;
    var logBefore := l.invocations;
    r := l.CreateAccount(caller, signers, payer, target, lamports, space, owner, [seeds]);
    if r.Failure? {
      return;
    }
    r := l.Invoke(caller, signers, relay, infos, []);
    if r.Failure? {
      // the whole transaction is rolled back
      l.accounts, l.invocations := before, logBefore;
    }
  }

  /**
   * `initialize_mint` on the accounts: create the mint at `["mint", nonce]` with
   * the registered size, owned by the handler, then relay
   * `INITIALIZE_MINT ++ mint_data` with the derived mint as the only account.
   * A mismatched mint key or a non-system owner is only logged.
   */
  function InitializeMintEffect(rt: Runtime, b: Broker, accounts: map<Pubkey, Account>, signers: set<Pubkey>,
                                handler: Pubkey, handlerProgram: Pubkey, mint: Pubkey, payer: Pubkey,
                                nonce: U64, mintData: seq<Byte>): (r: Result<Effect>)
    ensures r.Ok? ==> |r.value.issued| == 2
    ensures r.Ok? ==> LoadHandler(rt, b, accounts, signers, handler, handlerProgram, payer).Ok?
    // first the mint's creation, funded with `max(rent, 1)`, signed with `["mint", nonce]` and the derivation's bump
    ensures r.Ok? ==>
              var space := LoadHandler(rt, b, accounts, signers, handler, handlerProgram, payer).value.mintAccountBytes;
              r.value.issued[0]
              == Invocation(b.id, CreateAccountInstruction(rt, payer, mint, FundedMinimum(rt, space), space,
                                                           handlerProgram),
                            [MintSeeds(nonce) + [[FindProgramAddress(rt, MintSeeds(nonce), b.id).bump]]])
    // the relay carries the broker-derived mint and no signature at all
    ensures r.Ok? ==>
              && r.value.issued[1].instruction.programId == handlerProgram
              && r.value.issued[1].instruction.accounts
                 == [AccountMeta(FindProgramAddress(rt, MintSeeds(nonce), b.id).address, false, true)]
              && r.value.issued[1].signerSeeds == []
              && |r.value.issued[1].instruction.data| == 8 + |mintData|
              && r.value.issued[1].instruction.data[..8] == INITIALIZE_MINT
              && r.value.issued[1].instruction.data[8..] == mintData
  {
    match LoadHandler(rt, b, accounts, signers, handler, handlerProgram, payer)
    case Err(e) => Err(e)
    case Ok(h) =>
      var d := FindProgramAddress(rt, MintSeeds(nonce), b.id);
      var relay := Instruction(handlerProgram, [AccountMeta(d.address, false, true)], InitializeMintData(mintData));
      AllocateAndRelayEffect(rt, accounts, b.id, signers, payer, mint, FundedMinimum(rt, h.mintAccountBytes),
                             h.mintAccountBytes, handlerProgram, MintSeeds(nonce) + [[d.bump]], relay,
                             {handlerProgram, mint})
  }

  /**
   * `initialize_mint` succeeds exactly when the record loads, the payer signed,
   * the mint key is the derived one (or signed itself), the system program can
   * create it, and the derived mint is among the accounts passed on.
   */
  lemma InitializeMintSucceeds(rt: Runtime, b: Broker, accounts: map<Pubkey, Account>, signers: set<Pubkey>,
                               handler: Pubkey, handlerProgram: Pubkey, mint: Pubkey, payer: Pubkey,
                               nonce: U64, mintData: seq<Byte>)
    ensures var loaded := LoadHandler(rt, b, accounts, signers, handler, handlerProgram, payer);
            var d := FindProgramAddress(rt, MintSeeds(nonce), b.id);
            InitializeMintEffect(rt, b, accounts, signers, handler, handlerProgram, mint, payer, nonce, mintData).Ok?
            <==>
            && loaded.Ok?
            && (mint in signers || mint == d.address)
            && SystemCreateAccount(rt, accounts, payer, mint, FundedMinimum(rt, loaded.value.mintAccountBytes),
                                   loaded.value.mintAccountBytes, handlerProgram).Ok?
            && (d.address == mint || d.address == handlerProgram)
  {
    var loaded := LoadHandler(rt, b, accounts, signers, handler, handlerProgram, payer);
    if loaded.Ok? {
      var h := loaded.value;
      var d := FindProgramAddress(rt, MintSeeds(nonce), b.id);
      var relay := Instruction(handlerProgram, [AccountMeta(d.address, false, true)], InitializeMintData(mintData));
      assert InitializeMintEffect(rt, b, accounts, signers, handler, handlerProgram, mint, payer, nonce, mintData)
             == AllocateAndRelayEffect(rt, accounts, b.id, signers, payer, mint, FundedMinimum(rt, h.mintAccountBytes),
                                       h.mintAccountBytes, handlerProgram, MintSeeds(nonce) + [[d.bump]], relay,
                                       {handlerProgram, mint});
      CreateAccountEffectBySeeds(rt, accounts, b.id, signers, payer, mint, FundedMinimum(rt, h.mintAccountBytes),
                                 h.mintAccountBytes, handlerProgram, MintSeeds(nonce), d.bump);
      InvokeUnsigned(rt, b.id, signers, handlerProgram, d.address, true, InitializeMintData(mintData),
                     {handlerProgram, mint});
    }
  }

  /**
   * A successful `initialize_mint` leaves a zero-filled, handler-owned mint of
   * the registered size, funded with `max(rent, 1)`, and changes nothing else.
   */
  lemma InitializeMintAccounts(rt: Runtime, b: Broker, accounts: map<Pubkey, Account>, signers: set<Pubkey>,
                               handler: Pubkey, handlerProgram: Pubkey, mint: Pubkey, payer: Pubkey,
                               nonce: U64, mintData: seq<Byte>)
    requires InitializeMintEffect(rt, b, accounts, signers, handler, handlerProgram, mint, payer, nonce, mintData).Ok?
    ensures var h := LoadHandler(rt, b, accounts, signers, handler, handlerProgram, payer).value;
            var after := InitializeMintEffect(rt, b, accounts, signers, handler, handlerProgram, mint, payer,
                                              nonce, mintData).value.accounts;
            && after[mint] == Account(handlerProgram, FundedMinimum(rt, h.mintAccountBytes),
                                      Zeros(h.mintAccountBytes), false)
            && (forall k | k in accounts && k != payer && k != mint :: after[k] == accounts[k])
            && (ValidBroker(b) && RegistryBound(rt, b, accounts) ==> RegistryBound(rt, b, after))
  {
    var h := LoadHandler(rt, b, accounts, signers, handler, handlerProgram, payer).value;
    if ValidBroker(b) && RegistryBound(rt, b, accounts) {
      CreatePreservesRegistry(rt, b, accounts, payer, mint, FundedMinimum(rt, h.mintAccountBytes),
                              h.mintAccountBytes, handlerProgram);
    }
  }

  /**
   * A mint is never initialized twice: once `initialize_mint` has created an
   * account, every later call naming the same account fails, whatever the
   * nonce, the payer or the payload.
   */
  lemma InitializeMintOnce(rt: Runtime, b: Broker, accounts: map<Pubkey, Account>, signers: set<Pubkey>,
                           handler: Pubkey, handlerProgram: Pubkey, mint: Pubkey, payer: Pubkey,
                           nonce: U64, mintData: seq<Byte>,
                           signers2: set<Pubkey>, handler2: Pubkey, handlerProgram2: Pubkey, payer2: Pubkey,
                           nonce2: U64, mintData2: seq<Byte>)
    requires InitializeMintEffect(rt, b, accounts, signers, handler, handlerProgram, mint, payer, nonce, mintData).Ok?
    ensures !InitializeMintEffect(rt, b,
                                  InitializeMintEffect(rt, b, accounts, signers, handler, handlerProgram, mint, payer,
                                                       nonce, mintData).value.accounts,
                                  signers2, handler2, handlerProgram2, mint, payer2, nonce2, mintData2).Ok?
  {
    var after := InitializeMintEffect(rt, b, accounts, signers, handler, handlerProgram, mint, payer, nonce,
                                      mintData).value.accounts;
    InitializeMintAccounts(rt, b, accounts, signers, handler, handlerProgram, mint, payer, nonce, mintData);
    InitializeMintSucceeds(rt, b, after, signers2, handler2, handlerProgram2, mint, payer2, nonce2, mintData2);
    assert Lookup(rt, after, mint).lamports >= 1;
  }

  /**
   * No signed user account reaches the handler: with the two curve
   * assumptions, the one account relayed by `initialize_mint` is flagged
   * unsigned and is none of the transaction's signers, the payer included.
   */
  lemma InitializeMintRelaysNoSignature(rt: Runtime, b: Broker, accounts: map<Pubkey, Account>, signers: set<Pubkey>,
                                        handler: Pubkey, handlerProgram: Pubkey, mint: Pubkey, payer: Pubkey,
                                        nonce: U64, mintData: seq<Byte>)
    requires DerivedOffCurve(rt) && SignersOnCurve(rt, signers)
    requires InitializeMintEffect(rt, b, accounts, signers, handler, handlerProgram, mint, payer, nonce, mintData).Ok?
    ensures var relay := InitializeMintEffect(rt, b, accounts, signers, handler, handlerProgram, mint, payer, nonce,
                                              mintData).value.issued[1];
            forall m | m in relay.instruction.accounts :: !m.isSigner && m.pubkey !in signers
  {
    var d := FindProgramAddress(rt, MintSeeds(nonce), b.id);
    assert !OnCurve(rt, d.address);
  }

  /** `initialize_mint`: load the record, then create the mint and relay its initialization. */
  method InitializeMint(l: Ledger, b: Broker, signers: set<Pubkey>, handler: Pubkey, handlerProgram: Pubkey,
                        mint: Pubkey, payer: Pubkey, nonce: U64, mintData: seq<Byte>)
    returns (r: Outcome)
    modifies l
    ensures var e := InitializeMintEffect(l.rt, b, old(l.accounts), signers, handler, handlerProgram, mint, payer,
                                          nonce, mintData);
            && (r.Success? <==> e.Ok?)
            && (r.Success? ==> l.accounts == e.value.accounts && l.invocations == old(l.invocations) + e.value.issued)
            && (r.Failure? ==> r.error == e.error && l.accounts == old(l.accounts) && l.invocations == old(l.invocations))
  {
    var loaded := LoadHandler(l.rt, b, l.accounts, signers, handler, handlerProgram, payer);
    if loaded.Err? {
      return Failure(loaded.error);
    }
    var space := loaded.value.mintAccountBytes;
    var d := FindProgramAddress(l.rt, MintSeeds(nonce), b.id);
    // a mismatched mint key or a non-system owner is only logged here
    var seeds := MintSeeds(nonce) + [[d.bump]];
    var data := INITIALIZE_MINT;
    data := data + mintData;
    var relay := Instruction(handlerProgram, [AccountMeta(d.address, false, true)], data);
    r := AllocateAndRelay(l, b.id, signers, payer, mint, FundedMinimum(l.rt, space), space, handlerProgram, seeds,
                          relay, {handlerProgram, mint});
  }

  /**
   * `initialize_token_account` on the accounts: create the account at
   * `["token", mint_nonce, authority]`, owned by the handler, then relay
   * `INITIALIZE_TOKEN_ACCOUNT ++ authority ++ mint_nonce ++ token_account_data`.
   */
  function InitializeTokenAccountEffect(rt: Runtime, b: Broker, accounts: map<Pubkey, Account>, signers: set<Pubkey>,
                                        handler: Pubkey, handlerProgram: Pubkey, tokenAccount: Pubkey, payer: Pubkey,
                                        authority: Pubkey, mintNonce: U64, tokenAccountData: seq<Byte>)
    : (r: Result<Effect>)
    ensures r.Ok? ==> |r.value.issued| == 2
    ensures r.Ok? ==> LoadHandler(rt, b, accounts, signers, handler, handlerProgram, payer).Ok?
    // first the account's creation, signed with `["token", nonce, authority]` and the derivation's bump
    ensures r.Ok? ==>
              var space := LoadHandler(rt, b, accounts, signers, handler, handlerProgram, payer).value.tokenAccountBytes;
              var seeds := TokenAccountSeeds(mintNonce, authority);
              r.value.issued[0]
              == Invocation(b.id, CreateAccountInstruction(rt, payer, tokenAccount, FundedMinimum(rt, space), space,
                                                           handlerProgram),
                            [seeds + [[FindProgramAddress(rt, seeds, b.id).bump]]])
    // the relay carries the broker-derived account, no signature, and the authority and nonce the seeds used
    ensures r.Ok? ==>
              && r.value.issued[1].instruction.programId == handlerProgram
              && r.value.issued[1].instruction.accounts
                 == [AccountMeta(FindProgramAddress(rt, TokenAccountSeeds(mintNonce, authority), b.id).address,
                                 false, true)]
              && r.value.issued[1].signerSeeds == []
              && |r.value.issued[1].instruction.data| == 48 + |tokenAccountData|
              && r.value.issued[1].instruction.data[..8] == INITIALIZE_TOKEN_ACCOUNT
              && r.value.issued[1].instruction.data[8..40] == authority
              && r.value.issued[1].instruction.data[40..48] == U64Le(mintNonce)
              && r.value.issued[1].instruction.data[48..] == tokenAccountData
  {
    match LoadHandler(rt, b, accounts, signers, handler, handlerProgram, payer)
    case Err(e) => Err(e)
    case Ok(h) =>
      var d := FindProgramAddress(rt, TokenAccountSeeds(mintNonce, authority), b.id);
      var relay := Instruction(handlerProgram, [AccountMeta(d.address, false, true)],
                               InitializeTokenAccountData(authority, mintNonce, tokenAccountData));
      AllocateAndRelayEffect(rt, accounts, b.id, signers, payer, tokenAccount, FundedMinimum(rt, h.tokenAccountBytes),
                             h.tokenAccountBytes, handlerProgram, TokenAccountSeeds(mintNonce, authority) + [[d.bump]],
                             relay, {handlerProgram, tokenAccount})
  }

  /** `initialize_token_account` succeeds under the same conditions as `initialize_mint`, for its own seeds. */
  lemma InitializeTokenAccountSucceeds(rt: Runtime, b: Broker, accounts: map<Pubkey, Account>, signers: set<Pubkey>,
                                       handler: Pubkey, handlerProgram: Pubkey, tokenAccount: Pubkey, payer: Pubkey,
                                       authority: Pubkey, mintNonce: U64, tokenAccountData: seq<Byte>)
    ensures var loaded := LoadHandler(rt, b, accounts, signers, handler, handlerProgram, payer);
            var d := FindProgramAddress(rt, TokenAccountSeeds(mintNonce, authority), b.id);
            InitializeTokenAccountEffect(rt, b, accounts, signers, handler, handlerProgram, tokenAccount, payer,
                                         authority, mintNonce, tokenAccountData).Ok?
            <==>
            && loaded.Ok?
            && (tokenAccount in signers || tokenAccount == d.address)
            && SystemCreateAccount(rt, accounts, payer, tokenAccount, FundedMinimum(rt, loaded.value.tokenAccountBytes),
                                   loaded.value.tokenAccountBytes, handlerProgram).Ok?
            && (d.address == tokenAccount || d.address == handlerProgram)
  {
    var loaded := LoadHandler(rt, b, accounts, signers, handler, handlerProgram, payer);
    if loaded.Ok? {
      var h := loaded.value;
      var d := FindProgramAddress(rt, TokenAccountSeeds(mintNonce, authority), b.id);
      var relay := Instruction(handlerProgram, [AccountMeta(d.address, false, true)],
                               InitializeTokenAccountData(authority, mintNonce, tokenAccountData));
      assert InitializeTokenAccountEffect(rt, b, accounts, signers, handler, handlerProgram, tokenAccount, payer,
                                          authority, mintNonce, tokenAccountData)
             == AllocateAndRelayEffect(rt, accounts, b.id, signers, payer, tokenAccount,
                                       FundedMinimum(rt, h.tokenAccountBytes), h.tokenAccountBytes, handlerProgram,
                                       TokenAccountSeeds(mintNonce, authority) + [[d.bump]], relay,
                                       {handlerProgram, tokenAccount});
      CreateAccountEffectBySeeds(rt, accounts, b.id, signers, payer, tokenAccount,
                                 FundedMinimum(rt, h.tokenAccountBytes), h.tokenAccountBytes, handlerProgram,
                                 TokenAccountSeeds(mintNonce, authority), d.bump);
      InvokeUnsigned(rt, b.id, signers, handlerProgram, d.address, true,
                     InitializeTokenAccountData(authority, mintNonce, tokenAccountData), {handlerProgram, tokenAccount});
    }
  }

  /**
   * A successful `initialize_token_account` leaves a zero-filled, handler-owned
   * account of the registered size, funded with `max(rent, 1)`, and changes nothing else.
   */
  lemma InitializeTokenAccountAccounts(rt: Runtime, b: Broker, accounts: map<Pubkey, Account>, signers: set<Pubkey>,
                                       handler: Pubkey, handlerProgram: Pubkey, tokenAccount: Pubkey, payer: Pubkey,
                                       authority: Pubkey, mintNonce: U64, tokenAccountData: seq<Byte>)
    requires InitializeTokenAccountEffect(rt, b, accounts, signers, handler, handlerProgram, tokenAccount, payer,
                                          authority, mintNonce, tokenAccountData).Ok?
    ensures var h := LoadHandler(rt, b, accounts, signers, handler, handlerProgram, payer).value;
            var after := InitializeTokenAccountEffect(rt, b, accounts, signers, handler, handlerProgram, tokenAccount,
                                                      payer, authority, mintNonce, tokenAccountData).value.accounts;
            && after[tokenAccount] == Account(handlerProgram, FundedMinimum(rt, h.tokenAccountBytes),
                                              Zeros(h.tokenAccountBytes), false)
            && (forall k | k in accounts && k != payer && k != tokenAccount :: after[k] == accounts[k])
            && (ValidBroker(b) && RegistryBound(rt, b, accounts) ==> RegistryBound(rt, b, after))
  {
    var h := LoadHandler(rt, b, accounts, signers, handler, handlerProgram, payer).value;
    if ValidBroker(b) && RegistryBound(rt, b, accounts) {
      CreatePreservesRegistry(rt, b, accounts, payer, tokenAccount, FundedMinimum(rt, h.tokenAccountBytes),
                              h.tokenAccountBytes, handlerProgram);
    }
  }

  /** The same for `initialize_token_account`: its relayed account carries no signature. */
  lemma InitializeTokenAccountRelaysNoSignature(rt: Runtime, b: Broker, accounts: map<Pubkey, Account>,
                                                signers: set<Pubkey>, handler: Pubkey, handlerProgram: Pubkey,
                                                tokenAccount: Pubkey, payer: Pubkey, authority: Pubkey, mintNonce: U64,
                                                tokenAccountData: seq<Byte>)
    requires DerivedOffCurve(rt) && SignersOnCurve(rt, signers)
    requires InitializeTokenAccountEffect(rt, b, accounts, signers, handler, handlerProgram, tokenAccount, payer,
                                          authority, mintNonce, tokenAccountData).Ok?
    ensures var relay := InitializeTokenAccountEffect(rt, b, accounts, signers, handler, handlerProgram, tokenAccount,
                                                      payer, authority, mintNonce, tokenAccountData).value.issued[1];
            forall m | m in relay.instruction.accounts :: !m.isSigner && m.pubkey !in signers
  {
    var d := FindProgramAddress(rt, TokenAccountSeeds(mintNonce, authority), b.id);
    assert !OnCurve(rt, d.address);
  }

  /** `initialize_token_account`: load the record, then create the account and relay its initialization. */
  method InitializeTokenAccount(l: Ledger, b: Broker, signers: set<Pubkey>, handler: Pubkey, handlerProgram: Pubkey,
                                tokenAccount: Pubkey, payer: Pubkey, authority: Pubkey, mintNonce: U64,
                                tokenAccountData: seq<Byte>)
    returns (r: Outcome)
    modifies l
    ensures var e := InitializeTokenAccountEffect(l.rt, b, old(l.accounts), signers, handler, handlerProgram,
                                                  tokenAccount, payer, authority, mintNonce, tokenAccountData);
            && (r.Success? <==> e.Ok?)
            && (r.Success? ==> l.accounts == e.value.accounts && l.invocations == old(l.invocations) + e.value.issued)
            && (r.Failure? ==> r.error == e.error && l.accounts == old(l.accounts) && l.invocations == old(l.invocations))
  {
    var loaded := LoadHandler(l.rt, b, l.accounts, signers, handler, handlerProgram, payer);
    if loaded.Err? {
      return Failure(loaded.error);
    }
    var space := loaded.value.tokenAccountBytes;
    var d := FindProgramAddress(l.rt, TokenAccountSeeds(mintNonce, authority), b.id);
    // a mismatched key or a non-system owner is only logged here
    var seeds := TokenAccountSeeds(mintNonce, authority) + [[d.bump]];
    var data := INITIALIZE_TOKEN_ACCOUNT;
    data := data + authority;
    data := data + U64Le(mintNonce);
    data := data + tokenAccountData;
    var relay := Instruction(handlerProgram, [AccountMeta(d.address, false, true)], data);
    r := AllocateAndRelay(l, b.id, signers, payer, tokenAccount, FundedMinimum(l.rt, space), space, handlerProgram,
                          seeds, relay, {handlerProgram, tokenAccount});
  }

  /**
   * `mint_to`: after `MintToChecks`, relay `MINT_TO ++ amount` to the handler
   * with accounts [mint, to, handler record], the record signed by the broker
   * with `["handler", handler_program, pda_bump]`. The mint authority's own
   * signature is consumed here and never relayed.
   */
  method MintTo(l: Ledger, b: Broker, signers: set<Pubkey>, handler: Pubkey, handlerProgram: Pubkey,
                to: Pubkey, mintAuthority: Pubkey, mint: Pubkey, amount: U64)
    returns (r: Outcome)
    modifies l`invocations
    ensures var checked := MintToChecks(l.rt, b, l.accounts, signers, handler, handlerProgram, to, mintAuthority, mint);
            r.Success? <==>
              && checked.Ok?
              && Authorized(l.rt, b.id, signers, [HandlerSeeds(handlerProgram) + [[checked.value.pdaBump]]], handler)
    ensures r.Success? ==>
              var h := MintToChecks(l.rt, b, l.accounts, signers, handler, handlerProgram, to, mintAuthority, mint).value;
              l.invocations == old(l.invocations) + [
                Invocation(b.id,
                           Instruction(handlerProgram,
                                       [AccountMeta(mint, false, true), AccountMeta(to, false, true),
                                        AccountMeta(handler, true, false)],
                                       MintToData(amount)),
                           [HandlerSeeds(handlerProgram) + [[h.pdaBump]]])]
    ensures r.Failure? ==> l.invocations == old(l.invocations)
    // a failed check is reported with its own error: an Anchor account error or the `assert!` panic
    ensures var checked := MintToChecks(l.rt, b, l.accounts, signers, handler, handlerProgram, to, mintAuthority, mint);
            checked.Err? ==> r == Failure(checked.error)
    // a registered record always obtains the broker's signature
    ensures RegistryBound(l.rt, b, l.accounts)
            && MintToChecks(l.rt, b, l.accounts, signers, handler, handlerProgram, to, mintAuthority, mint).Ok?
            ==> r.Success?
    // the relayed signer is the record derived for this handler program, never the mint authority
    ensures r.Success? && RegistryBound(l.rt, b, l.accounts) ==>
              FindProgramAddress(l.rt, HandlerSeeds(handlerProgram), b.id).address == handler
    ensures r.Success? && RegistryBound(l.rt, b, l.accounts) && DerivedOffCurve(l.rt) && SignersOnCurve(l.rt, signers) ==>
              mintAuthority != handler && mintAuthority != mint
  {
    var checked := MintToChecks(l.rt, b, l.accounts, signers, handler, handlerProgram, to, mintAuthority, mint);
    if checked.Err? {
      return Failure(checked.error);
    }
    var record := checked.value;
    var seeds := [HANDLER_SEED, handlerProgram, [record.pdaBump]];
    assert seeds == HandlerSeeds(handlerProgram) + [[record.pdaBump]];
    assert seeds[..|seeds| - 1] == HandlerSeeds(handlerProgram);
    assert seeds in [seeds];
    var data := MINT_TO;
    data := data + U64Le(amount);
    var metas := [AccountMeta(mint, false, true), AccountMeta(to, false, true), AccountMeta(handler, true, false)];
    var relay := Instruction(handlerProgram, metas, data);
    assert metas[2] in metas;
    r := l.Invoke(b.id, signers, relay, {handlerProgram, mint, to, handler}, [seeds]);
    if RegistryBound(l.rt, b, l.accounts) {
      assert handler in l.accounts;
    }
    if DerivedOffCurve(l.rt) && SignersOnCurve(l.rt, signers) {
      // the mint was re-derived from `to`'s bytes, so it is off the curve, unlike the signing authority
      var toData := Lookup(l.rt, l.accounts, to).data;
      assert !OnCurve(l.rt, FindProgramAddress(l.rt, [MINT_SEED, toData[40..48]], b.id).address);
    }
  }
}
