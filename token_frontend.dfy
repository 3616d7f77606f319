/**
 * The token frontend (programs/token-frontend), the earlier form of the
 * broker: it records a backend program and the storage sizes it needs in a
 * `Backend` account, and creates mint storage for that backend at an address
 * the frontend signs for. Unlike the broker it derives that address from
 * `["mint"]` alone, so the nonce the caller supplies never reaches the
 * derivation.
 */
module TokenFrontend {
  import opened Bytes
  import opened Solana

  /** The frontend's program id and the 8-byte tag written in front of a serialized `Backend`. */
  datatype Frontend = Frontend(id: Pubkey, backendTag: seq<Byte>)

  predicate ValidFrontend(f: Frontend)
  {
    |f.backendTag| == 8 && f.backendTag != Zeros(8)
  }

  /** The record kept for one backend program. */
  datatype Backend = Backend(backendProgram: Pubkey, tokenAccountNeededSpace: U32, mintAccountNeededSpace: U32)

  /** Space allocated for a record: tag, key, two u32 sizes. */
  const BACKEND_SPACE: nat := 8 + 32 + 4 + 4

  const MINT_SEED: seq<Byte> := [0x6d, 0x69, 0x6e, 0x74]  // "mint"

  /** The seeds the frontend derives every mint from. */
  function MintSeeds(): Seeds
  {
    [MINT_SEED]
  }

  function EncodeBackend(tag: seq<Byte>, r: Backend): seq<Byte>
  {
    tag + r.backendProgram + U32Le(r.tokenAccountNeededSpace) + U32Le(r.mintAccountNeededSpace)
  }

  /** Borsh decoding after the tag; trailing bytes are ignored. */
  function DecodeBackend(tag: seq<Byte>, data: seq<Byte>): Option<Backend>
  {
    if |data| < BACKEND_SPACE || data[..8] != tag then None
    else Some(Backend(data[8..40], U32FromLe(data[40..44]), U32FromLe(data[44..48])))
  }

  /** The record fills exactly the space allocated for it and reads back as written. */
  lemma DecodeEncodeBackend(tag: seq<Byte>, r: Backend)
    requires |tag| == 8
    ensures |EncodeBackend(tag, r)| == BACKEND_SPACE
    ensures DecodeBackend(tag, EncodeBackend(tag, r)) == Some(r)
  {
    var d := EncodeBackend(tag, r);
    assert d[..8] == tag;
    assert d[8..40] == r.backendProgram;
    assert d[40..44] == U32Le(r.tokenAccountNeededSpace);
    assert d[44..48] == U32Le(r.mintAccountNeededSpace);
    U32RoundTrip(r.tokenAccountNeededSpace);
    U32RoundTrip(r.mintAccountNeededSpace);
  }

  /**
   * `register_backend` on the accounts. The `backend` account is created by
   * the `init` constraint with no seeds, so it must sign the transaction
   * itself; the payer funds the rent minimum. `executable` on the backend
   * program is checked after the creation, and failing it undoes it.
   */
  function RegisterBackendEffect(rt: Runtime, f: Frontend, accounts: map<Pubkey, Account>, signers: set<Pubkey>,
                                 backend: Pubkey, payer: Pubkey, backendProgram: Pubkey,
                                 tokenAccountNeededSpace: U32, mintAccountNeededSpace: U32): (r: Result<Effect>)
    ensures r.Ok? ==> r.value.accounts.Keys == accounts.Keys + {payer, backend}
    ensures r.Ok? ==>
              r.value.issued == [Invocation(f.id, CreateAccountInstruction(rt, payer, backend,
                                                                           MinimumBalance(rt, BACKEND_SPACE),
                                                                           BACKEND_SPACE, f.id), [])]
  {
    if payer !in signers then Err(AccountNotSigner)
    else
      var lamports := MinimumBalance(rt, BACKEND_SPACE);
      match CreateAccountEffect(rt, accounts, f.id, signers, payer, backend, lamports, BACKEND_SPACE, f.id, [])
      case Err(e) => Err(e)
      case Ok(next) =>
        if !Lookup(rt, accounts, backendProgram).executable then Err(ConstraintExecutable)
        else
          var record := Backend(backendProgram, tokenAccountNeededSpace, mintAccountNeededSpace);
          Ok(Effect(next[backend := next[backend].(data := EncodeBackend(f.backendTag, record))],
                    [Invocation(f.id, CreateAccountInstruction(rt, payer, backend, lamports, BACKEND_SPACE, f.id), [])]))
  }

  /**
   * Registration succeeds exactly when the payer and the new record's key
   * both signed the transaction, the system program can create the record,
   * and the backend program is executable. Nothing ties the record's address
   * to the backend program.
   */
  lemma RegisterBackendSucceeds(rt: Runtime, f: Frontend, accounts: map<Pubkey, Account>, signers: set<Pubkey>,
                                backend: Pubkey, payer: Pubkey, backendProgram: Pubkey,
                                tokenAccountNeededSpace: U32, mintAccountNeededSpace: U32)
    ensures RegisterBackendEffect(rt, f, accounts, signers, backend, payer, backendProgram,
                                  tokenAccountNeededSpace, mintAccountNeededSpace).Ok?
            <==>
            && payer in signers
            && backend in signers
            && SystemCreateAccount(rt, accounts, payer, backend, MinimumBalance(rt, BACKEND_SPACE), BACKEND_SPACE, f.id).Ok?
            && Lookup(rt, accounts, backendProgram).executable
  {
    CreateAccountMayInvoke(rt, f.id, signers, payer, backend, MinimumBalance(rt, BACKEND_SPACE), BACKEND_SPACE,
                           f.id, []);
  }

  /**
   * After registration the record is a frontend-owned, rent-funded account of
   * exactly the record's size holding the three values supplied.
   */
  lemma RegisterBackendRecord(rt: Runtime, f: Frontend, accounts: map<Pubkey, Account>, signers: set<Pubkey>,
                              backend: Pubkey, payer: Pubkey, backendProgram: Pubkey,
                              tokenAccountNeededSpace: U32, mintAccountNeededSpace: U32)
    requires ValidFrontend(f)
    requires RegisterBackendEffect(rt, f, accounts, signers, backend, payer, backendProgram,
                                   tokenAccountNeededSpace, mintAccountNeededSpace).Ok?
    ensures var after := RegisterBackendEffect(rt, f, accounts, signers, backend, payer, backendProgram,
                                               tokenAccountNeededSpace, mintAccountNeededSpace).value.accounts;
            && after[backend].owner == f.id
            && after[backend].lamports == MinimumBalance(rt, BACKEND_SPACE)
            && |after[backend].data| == BACKEND_SPACE
            && DecodeBackend(f.backendTag, after[backend].data)
               == Some(Backend(backendProgram, tokenAccountNeededSpace, mintAccountNeededSpace))
            && (forall k | k in accounts && k != payer && k != backend :: after[k] == accounts[k])
  {
    DecodeEncodeBackend(f.backendTag, Backend(backendProgram, tokenAccountNeededSpace, mintAccountNeededSpace));
  }

  /** `register_backend`: create the record and fill in its three fields. */
  method RegisterBackend(l: Ledger, f: Frontend, signers: set<Pubkey>, backend: Pubkey, payer: Pubkey,
                         backendProgram: Pubkey, tokenAccountNeededSpace: U32, mintAccountNeededSpace: U32)
    returns (r: Outcome)
    modifies l
    ensures var e := RegisterBackendEffect(l.rt, f, old(l.accounts), signers, backend, payer, backendProgram,
                                           tokenAccountNeededSpace, mintAccountNeededSpace);
            && (r.Success? <==> e.Ok?)
            && (r.Success? ==> l.accounts == e.value.accounts && l.invocations == old(l.invocations) + e.value.issued)
            && (r.Failure? ==> r.error == e.error && l.accounts == old(l.accounts) && l.invocations == old(l.invocations))
  {
    if payer !in signers {
      return Failure(AccountNotSigner);
    }
    var before := l.accounts;
    var logBefore := l.invocations;
    r := l.CreateAccount(f.id, signers, payer, backend, MinimumBalance(l.rt, BACKEND_SPACE), BACKEND_SPACE, f.id, []);
    if r.Failure? {
      return;
    }
    if !Lookup(l.rt, before, backendProgram).executable {
      // the whole transaction is rolled back
      l.accounts, l.invocations := before, logBefore;
      return Failure(ConstraintExecutable);
    }
    // the body of register_backend, on the freshly deserialized record
    var record := Backend(Zeros(32), 0, 0);
    record := record.(backendProgram := backendProgram);
    record := record.(tokenAccountNeededSpace := tokenAccountNeededSpace);
    record := record.(mintAccountNeededSpace := mintAccountNeededSpace);
    // serialized into the account when the instruction exits
    l.accounts := l.accounts[backend := l.accounts[backend].(data := EncodeBackend(f.backendTag, record))];
  }

  /**
   * The account validation of `initialize_mint`, in the order the generated
   * code runs it: the `backend` record is deserialized, the payer's signature
   * checked, then `has_one = backend_program` and `executable`.
   */
  function LoadBackend(rt: Runtime, f: Frontend, accounts: map<Pubkey, Account>, signers: set<Pubkey>,
                       backend: Pubkey, backendProgram: Pubkey, payer: Pubkey): (r: Result<Backend>)
    ensures r.Ok? <==>
      && !(Lookup(rt, accounts, backend).owner == rt.systemProgram && Lookup(rt, accounts, backend).lamports == 0)
      && Lookup(rt, accounts, backend).owner == f.id
      && DecodeBackend(f.backendTag, Lookup(rt, accounts, backend).data).Some?
      && payer in signers
      && DecodeBackend(f.backendTag, Lookup(rt, accounts, backend).data).value.backendProgram == backendProgram
      && Lookup(rt, accounts, backendProgram).executable
    ensures r.Ok? ==> Some(r.value) == DecodeBackend(f.backendTag, Lookup(rt, accounts, backend).data)
  {
    var a := Lookup(rt, accounts, backend);
    if a.owner == rt.systemProgram && a.lamports == 0 then Err(AccountNotInitialized)
    else if a.owner != f.id then Err(AccountOwnedByWrongProgram)
    else if |a.data| < 8 then Err(AccountDiscriminatorNotFound)
    else if a.data[..8] != f.backendTag then Err(AccountDiscriminatorMismatch)
    else if |a.data| < BACKEND_SPACE then Err(AccountDidNotDeserialize)
    else if payer !in signers then Err(AccountNotSigner)
    else
      var r := DecodeBackend(f.backendTag, a.data).value;
      if r.backendProgram != backendProgram then Err(ConstraintHasOne)
      else if !Lookup(rt, accounts, backendProgram).executable then Err(ConstraintExecutable)
      else Ok(r)
  }

  /**
   * `initialize_mint` on the accounts: create the mint with the backend's
   * mint size, funded with `max(rent, 1)`, owned by the backend program,
   * signed with `["mint", bump]`. The nonce argument is not used. A
   * mismatched mint key or a non-system owner is only logged.
   */
  function InitializeMintEffect(rt: Runtime, f: Frontend, accounts: map<Pubkey, Account>, signers: set<Pubkey>,
                                backend: Pubkey, backendProgram: Pubkey, mint: Pubkey, payer: Pubkey,
                                nonce: U64): (r: Result<Effect>)
    ensures r.Ok? ==> LoadBackend(rt, f, accounts, signers, backend, backendProgram, payer).Ok?
    ensures r.Ok? ==>
              var space := LoadBackend(rt, f, accounts, signers, backend, backendProgram, payer).value.mintAccountNeededSpace;
              var d := FindProgramAddress(rt, MintSeeds(), f.id);
              r.value.issued == [Invocation(f.id, CreateAccountInstruction(rt, payer, mint, FundedMinimum(rt, space),
                                                                           space, backendProgram),
                                            [[MINT_SEED, [d.bump]]])]
  {
    match LoadBackend(rt, f, accounts, signers, backend, backendProgram, payer)
    case Err(e) => Err(e)
    case Ok(record) =>
      var d := FindProgramAddress(rt, MintSeeds(), f.id);
      var space := record.mintAccountNeededSpace;
      var seeds := [MINT_SEED, [d.bump]];
      match CreateAccountEffect(rt, accounts, f.id, signers, payer, mint, FundedMinimum(rt, space), space,
                                backendProgram, [seeds])
      case Err(e) => Err(e)
      case Ok(next) =>
        Ok(Effect(next, [Invocation(f.id, CreateAccountInstruction(rt, payer, mint, FundedMinimum(rt, space), space,
                                                                   backendProgram), [seeds])]))
  }

  /**
   * `initialize_mint` succeeds exactly when the record loads, the mint key is
   * the single address derived from `["mint"]` (or signed the transaction
   * itself) and the system program can create it; the new mint is a
   * zero-filled account of the backend's size owned by the backend program.
   */
  lemma InitializeMintSucceeds(rt: Runtime, f: Frontend, accounts: map<Pubkey, Account>, signers: set<Pubkey>,
                               backend: Pubkey, backendProgram: Pubkey, mint: Pubkey, payer: Pubkey, nonce: U64)
    ensures var loaded := LoadBackend(rt, f, accounts, signers, backend, backendProgram, payer);
            var e := InitializeMintEffect(rt, f, accounts, signers, backend, backendProgram, mint, payer, nonce);
            && (e.Ok? <==>
                  && loaded.Ok?
                  && (mint in signers || mint == FindProgramAddress(rt, MintSeeds(), f.id).address)
                  && SystemCreateAccount(rt, accounts, payer, mint, FundedMinimum(rt, loaded.value.mintAccountNeededSpace),
                                         loaded.value.mintAccountNeededSpace, backendProgram).Ok?)
            && (e.Ok? ==>
                  && e.value.accounts[mint] == Account(backendProgram,
                                                       FundedMinimum(rt, loaded.value.mintAccountNeededSpace),
                                                       Zeros(loaded.value.mintAccountNeededSpace), false)
                  && forall k | k in accounts && k != payer && k != mint :: e.value.accounts[k] == accounts[k])
  {
    var loaded := LoadBackend(rt, f, accounts, signers, backend, backendProgram, payer);
    if loaded.Ok? {
      var d := FindProgramAddress(rt, MintSeeds(), f.id);
      var space := loaded.value.mintAccountNeededSpace;
      assert [MINT_SEED, [d.bump]] == MintSeeds() + [[d.bump]];
      CreateAccountEffectBySeeds(rt, accounts, f.id, signers, payer, mint, FundedMinimum(rt, space), space,
                                 backendProgram, MintSeeds(), d.bump);
    }
  }

  /**
   * Whatever the nonces, once a mint has been created at the derived address
   * no further mint can be created there: every later `initialize_mint` whose
   * mint key did not sign the transaction fails.
   */
  lemma {:induction false} InitializeMintAtMostOnce(
    rt: Runtime, f: Frontend, accounts: map<Pubkey, Account>, signers: set<Pubkey>,
    backend: Pubkey, backendProgram: Pubkey, mint: Pubkey, payer: Pubkey, nonce: U64,
    signers2: set<Pubkey>, backend2: Pubkey, backendProgram2: Pubkey, mint2: Pubkey, payer2: Pubkey, nonce2: U64)
    requires InitializeMintEffect(rt, f, accounts, signers, backend, backendProgram, mint, payer, nonce).Ok?
    requires mint !in signers && mint2 !in signers2
    ensures !InitializeMintEffect(rt, f,
                                  InitializeMintEffect(rt, f, accounts, signers, backend, backendProgram, mint, payer,
                                                       nonce).value.accounts,
                                  signers2, backend2, backendProgram2, mint2, payer2, nonce2).Ok?
  {
    var after := InitializeMintEffect(rt, f, accounts, signers, backend, backendProgram, mint, payer, nonce).value.accounts;
    InitializeMintSucceeds(rt, f, accounts, signers, backend, backendProgram, mint, payer, nonce);
    InitializeMintSucceeds(rt, f, after, signers2, backend2, backendProgram2, mint2, payer2, nonce2);
    assert Lookup(rt, after, mint).lamports >= 1;
  }

  /** `initialize_mint`: load the record, then create the mint at `["mint"]` for the backend program. */
  method InitializeMint(l: Ledger, f: Frontend, signers: set<Pubkey>, backend: Pubkey, backendProgram: Pubkey,
                        mint: Pubkey, payer: Pubkey, nonce: U64)
    returns (r: Outcome)
    modifies l
    ensures var e := InitializeMintEffect(l.rt, f, old(l.accounts), signers, backend, backendProgram, mint, payer, nonce);
            && (r.Success? <==> e.Ok?)
            && (r.Success? ==> l.accounts == e.value.accounts && l.invocations == old(l.invocations) + e.value.issued)
            && (r.Failure? ==> r.error == e.error && l.accounts == old(l.accounts) && l.invocations == old(l.invocations))
  {
    var loaded := LoadBackend(l.rt, f, l.accounts, signers, backend, backendProgram, payer);
    if loaded.Err? {
      return Failure(loaded.error);
    }
    var space := loaded.value.mintAccountNeededSpace;
    var d := FindProgramAddress(l.rt, [MINT_SEED], f.id);
    // a mismatched mint key or a non-system owner is only logged here
    var nonceBytes := U64Le(nonce);  // computed and never used
    var seeds := [MINT_SEED, [d.bump]];
    r := l.CreateAccount(f.id, signers, payer, mint, FundedMinimum(l.rt, space), space, backendProgram, [seeds]);
  }
}
