/**
 * The modular-token front program (programs/modular-token): it keeps a
 * `TokenAccountFront` per (mint, authority) at an address it derives, naming
 * the backend program that holds the balance, and builds, from the accounts
 * it was handed, the instruction it would forward to a backend to initialize
 * a mint. The forwarding itself is never performed.
 */
module ModularToken {
  import opened Bytes
  import opened Solana

  /** The program id and the 8-byte tag written in front of a serialized `TokenAccountFront`. */
  datatype Front = Front(id: Pubkey, frontTag: seq<Byte>)

  predicate ValidFront(p: Front)
  {
    |p.frontTag| == 8 && p.frontTag != Zeros(8)
  }

  /** Who owns a token account, where its balance lives, and which token it is. */
  datatype TokenAccountFront = TokenAccountFront(authority: Pubkey, backendProgram: Pubkey, mint: U64)

  /** Space allocated for a record: tag, two keys, the mint id. */
  const TOKEN_ACCOUNT_FRONT_SPACE: nat := 8 + 32 + 32 + 8

  /** "token_account_front" */
  const TOKEN_ACCOUNT_FRONT_SEED: seq<Byte> :=
    [0x74, 0x6f, 0x6b, 0x65, 0x6e, 0x5f, 0x61, 0x63, 0x63, 0x6f, 0x75, 0x6e, 0x74, 0x5f, 0x66, 0x72, 0x6f, 0x6e, 0x74]

  function FrontSeeds(mint: U64, authority: Pubkey): Seeds
  {
    [TOKEN_ACCOUNT_FRONT_SEED, U64Le(mint), authority]
  }

  /** The seeds of a front account determine both the mint and the authority. */
  lemma FrontSeedsInjective(m1: U64, a1: Pubkey, m2: U64, a2: Pubkey)
    requires FrontSeeds(m1, a1) == FrontSeeds(m2, a2)
    ensures m1 == m2 && a1 == a2
  {
    assert U64Le(m1) == FrontSeeds(m1, a1)[1];
    assert U64Le(m2) == FrontSeeds(m2, a2)[1];
    assert a1 == FrontSeeds(m1, a1)[2];
    U64LeInjective(m1, m2);
  }

  function EncodeFront(tag: seq<Byte>, r: TokenAccountFront): seq<Byte>
  {
    tag + r.authority + r.backendProgram + U64Le(r.mint)
  }

  /** Borsh decoding after the tag; trailing bytes are ignored. */
  function DecodeFront(tag: seq<Byte>, data: seq<Byte>): Option<TokenAccountFront>
  {
    if |data| < TOKEN_ACCOUNT_FRONT_SPACE || data[..8] != tag then None
    else Some(TokenAccountFront(data[8..40], data[40..72], U64FromLe(data[72..80])))
  }

  /** The record fills exactly the space allocated for it and reads back as written. */
  lemma DecodeEncodeFront(tag: seq<Byte>, r: TokenAccountFront)
    requires |tag| == 8
    ensures |EncodeFront(tag, r)| == TOKEN_ACCOUNT_FRONT_SPACE
    ensures DecodeFront(tag, EncodeFront(tag, r)) == Some(r)
  {
    var d := EncodeFront(tag, r);
    assert d[..8] == tag;
    assert d[8..40] == r.authority;
    assert d[40..72] == r.backendProgram;
    assert d[72..80] == U64Le(r.mint);
    U64RoundTrip(r.mint);
  }

  /**
   * `initialize_token_account` on the accounts: the payer's signature, then
   * the `init` constraint (the key must be the address derived from
   * `["token_account_front", mint, authority]`, created with the rent minimum
   * and signed with those seeds and the bump), then `executable` on the
   * backend program, then the three fields written.
   */
  function InitializeTokenAccountEffect(rt: Runtime, p: Front, accounts: map<Pubkey, Account>, signers: set<Pubkey>,
                                        backendProgram: Pubkey, front: Pubkey, payer: Pubkey,
                                        mint: U64, authority: Pubkey): (r: Result<Effect>)
    ensures r.Ok? ==> r.value.accounts.Keys == accounts.Keys + {payer, front}
    ensures r.Ok? ==>
              var d := FindProgramAddress(rt, FrontSeeds(mint, authority), p.id);
              r.value.issued == [Invocation(p.id, CreateAccountInstruction(rt, payer, front,
                                                                           MinimumBalance(rt, TOKEN_ACCOUNT_FRONT_SPACE),
                                                                           TOKEN_ACCOUNT_FRONT_SPACE, p.id),
                                            [FrontSeeds(mint, authority) + [[d.bump]]])]
  {
    if payer !in signers then Err(AccountNotSigner)
    else
      var d := FindProgramAddress(rt, FrontSeeds(mint, authority), p.id);
      if front != d.address then Err(ConstraintSeeds)
      else
        var seeds := FrontSeeds(mint, authority) + [[d.bump]];
        var lamports := MinimumBalance(rt, TOKEN_ACCOUNT_FRONT_SPACE);
        match CreateAccountEffect(rt, accounts, p.id, signers, payer, front, lamports, TOKEN_ACCOUNT_FRONT_SPACE, p.id,
                                  [seeds])
        case Err(e) => Err(e)
        case Ok(next) =>
          if !Lookup(rt, accounts, backendProgram).executable then Err(ConstraintExecutable)
          else
            var record := TokenAccountFront(authority, backendProgram, mint);
            Ok(Effect(next[front := next[front].(data := EncodeFront(p.frontTag, record))],
                      [Invocation(p.id, CreateAccountInstruction(rt, payer, front, lamports, TOKEN_ACCOUNT_FRONT_SPACE,
                                                                 p.id), [seeds])]))
  }

  /**
   * Initialization succeeds exactly when the payer signed, the front key is
   * the derived one, the system program can create it and the backend
   * program is executable.
   */
  lemma InitializeTokenAccountSucceeds(rt: Runtime, p: Front, accounts: map<Pubkey, Account>, signers: set<Pubkey>,
                                       backendProgram: Pubkey, front: Pubkey, payer: Pubkey,
                                       mint: U64, authority: Pubkey)
    ensures InitializeTokenAccountEffect(rt, p, accounts, signers, backendProgram, front, payer, mint, authority).Ok?
            <==>
            && payer in signers
            && front == FindProgramAddress(rt, FrontSeeds(mint, authority), p.id).address
            && SystemCreateAccount(rt, accounts, payer, front, MinimumBalance(rt, TOKEN_ACCOUNT_FRONT_SPACE),
                                   TOKEN_ACCOUNT_FRONT_SPACE, p.id).Ok?
            && Lookup(rt, accounts, backendProgram).executable
  {
    if payer in signers {
      var d := FindProgramAddress(rt, FrontSeeds(mint, authority), p.id);
      CreateAccountEffectBySeeds(rt, accounts, p.id, signers, payer, front,
                                 MinimumBalance(rt, TOKEN_ACCOUNT_FRONT_SPACE), TOKEN_ACCOUNT_FRONT_SPACE, p.id,
                                 FrontSeeds(mint, authority), d.bump);
    }
  }

  /**
   * After initialization the front account is program-owned, rent-funded, of
   * exactly the record's size, and holds the authority, the backend program
   * and the mint id as given; no other account but the payer changes.
   */
  lemma InitializeTokenAccountRecord(rt: Runtime, p: Front, accounts: map<Pubkey, Account>, signers: set<Pubkey>,
                                     backendProgram: Pubkey, front: Pubkey, payer: Pubkey,
                                     mint: U64, authority: Pubkey)
    requires ValidFront(p)
    requires InitializeTokenAccountEffect(rt, p, accounts, signers, backendProgram, front, payer, mint, authority).Ok?
    ensures var after := InitializeTokenAccountEffect(rt, p, accounts, signers, backendProgram, front, payer, mint,
                                                      authority).value.accounts;
            && after[front].owner == p.id
            && after[front].lamports == MinimumBalance(rt, TOKEN_ACCOUNT_FRONT_SPACE)
            && |after[front].data| == TOKEN_ACCOUNT_FRONT_SPACE
            && DecodeFront(p.frontTag, after[front].data) == Some(TokenAccountFront(authority, backendProgram, mint))
            && (forall k | k in accounts && k != payer && k != front :: after[k] == accounts[k])
  {
    DecodeEncodeFront(p.frontTag, TokenAccountFront(authority, backendProgram, mint));
  }

  /**
   * One front account per (mint, authority): once initialized, the same
   * pair can never be initialized again, whoever pays and whatever backend
   * program is named.
   */
  lemma InitializeTokenAccountOnce(rt: Runtime, p: Front, accounts: map<Pubkey, Account>, signers: set<Pubkey>,
                                   backendProgram: Pubkey, front: Pubkey, payer: Pubkey, mint: U64, authority: Pubkey,
                                   signers2: set<Pubkey>, backendProgram2: Pubkey, payer2: Pubkey)
    requires InitializeTokenAccountEffect(rt, p, accounts, signers, backendProgram, front, payer, mint, authority).Ok?
    ensures !InitializeTokenAccountEffect(rt, p,
                                          InitializeTokenAccountEffect(rt, p, accounts, signers, backendProgram, front,
                                                                       payer, mint, authority).value.accounts,
                                          signers2, backendProgram2, front, payer2, mint, authority).Ok?
  {
    var after := InitializeTokenAccountEffect(rt, p, accounts, signers, backendProgram, front, payer, mint,
                                              authority).value.accounts;
    InitializeTokenAccountSucceeds(rt, p, accounts, signers, backendProgram, front, payer, mint, authority);
    InitializeTokenAccountSucceeds(rt, p, after, signers2, backendProgram2, front, payer2, mint, authority);
    // the record's bytes were written, so the account is no longer blank
    assert after[front].data == EncodeFront(p.frontTag, TokenAccountFront(authority, backendProgram, mint));
    assert Lookup(rt, after, front).data != [];
  }

  /** `initialize_token_account`: create the front account at its derived address and fill in its three fields. */
  method InitializeTokenAccount(l: Ledger, p: Front, signers: set<Pubkey>, backendProgram: Pubkey, front: Pubkey,
                                payer: Pubkey, mint: U64, authority: Pubkey)
    returns (r: Outcome)
    modifies l
    ensures var e := InitializeTokenAccountEffect(l.rt, p, old(l.accounts), signers, backendProgram, front, payer,
                                                  mint, authority);
            && (r.Success? <==> e.Ok?)
            && (r.Success? ==> l.accounts == e.value.accounts && l.invocations == old(l.invocations) + e.value.issued)
            && (r.Failure? ==> r.error == e.error && l.accounts == old(l.accounts) && l.invocations == old(l.invocations))
  {
    if payer !in signers {
      return Failure(AccountNotSigner);
    }
    var d := FindProgramAddress(l.rt, FrontSeeds(mint, authority), p.id);
    if front != d.address {
      return Failure(ConstraintSeeds);
    }
    var seeds := FrontSeeds(mint, authority) + [[d.bump]];
    var before := l.accounts;
    var logBefore := l.invocations;
    r := l.CreateAccount(p.id, signers, payer, front, MinimumBalance(l.rt, TOKEN_ACCOUNT_FRONT_SPACE),
                         TOKEN_ACCOUNT_FRONT_SPACE, p.id, [seeds]);
    if r.Failure? {
      return;
    }
    if !Lookup(l.rt, before, backendProgram).executable {
      // the whole transaction is rolled back
      l.accounts, l.invocations := before, logBefore;
      return Failure(ConstraintExecutable);
    }
    // the body of initialize_token_account, on the freshly deserialized record
    var record := TokenAccountFront(Zeros(32), Zeros(32), 0);
    record := record.(authority := authority);
    record := record.(backendProgram := backendProgram);
    record := record.(mint := mint);
    // serialized into the account when the instruction exits
    l.accounts := l.accounts[front := l.accounts[front].(data := EncodeFront(p.frontTag, record))];
  }

  /** The remaining accounts passed on to the backend: all of them, in order, except those with the backend's key. */
  function Forwarded(infos: seq<AccountMeta>, backend: Pubkey): seq<AccountMeta>
  {
    if infos == [] then []
    else
      var last := infos[|infos| - 1];
      Forwarded(infos[..|infos| - 1], backend) + (if last.pubkey != backend then [last] else [])
  }

  /** Filtering distributes over concatenation: the relative order of the kept accounts is the original one. */
  lemma {:induction false} ForwardedAppend(s: seq<AccountMeta>, t: seq<AccountMeta>, backend: Pubkey)
    ensures Forwarded(s + t, backend) == Forwarded(s, backend) + Forwarded(t, backend)
    decreases |t|
  {
    if t == [] {
      assert s + t == s;
    } else {
      var t' := t[..|t| - 1];
      assert (s + t)[..|s + t| - 1] == s + t';
      assert (s + t)[|s + t| - 1] == t[|t| - 1];
      ForwardedAppend(s, t', backend);
    }
  }

  /**
   * An entry is forwarded exactly when it is one of the remaining accounts
   * and its key is not the backend's; its signer and writable flags are the
   * original ones, since the entry itself is copied.
   */
  lemma {:induction false} ForwardedMembers(infos: seq<AccountMeta>, backend: Pubkey, m: AccountMeta)
    ensures m in Forwarded(infos, backend) <==> m in infos && m.pubkey != backend
    decreases |infos|
  {
    if infos != [] {
      var init := infos[..|infos| - 1];
      ForwardedMembers(init, backend, m);
      assert infos == init + [infos[|infos| - 1]];
    }
  }

  /** No forwarded entry carries the backend's key; one that was absent leaves the list as it was. */
  lemma {:induction false} ForwardedWithoutBackend(infos: seq<AccountMeta>, backend: Pubkey)
    ensures forall m | m in Forwarded(infos, backend) :: m.pubkey != backend
    ensures (forall m | m in infos :: m.pubkey != backend) ==> Forwarded(infos, backend) == infos
    decreases |infos|
  {
    forall m | m in Forwarded(infos, backend)
      ensures m.pubkey != backend
    {
      ForwardedMembers(infos, backend, m);
    }
    if infos != [] {
      var init := infos[..|infos| - 1];
      ForwardedWithoutBackend(init, backend);
      assert infos == init + [infos[|infos| - 1]];
    }
  }

  /**
   * `initialize_mint`: after `executable` on the token backend, build the
   * instruction for the backend from the remaining accounts, dropping every
   * entry with the backend's key, and the caller's data unchanged. The
   * instruction is only built, never invoked, so no account changes.
   */
  method InitializeMint(rt: Runtime, accounts: map<Pubkey, Account>, tokenBackend: Pubkey,
                        remaining: seq<AccountMeta>, data: seq<Byte>)
    returns (r: Result<Instruction>)
    ensures r.Ok? <==> Lookup(rt, accounts, tokenBackend).executable
    ensures r.Err? ==> r.error == ConstraintExecutable
    ensures r.Ok? ==> r.value == Instruction(tokenBackend, Forwarded(remaining, tokenBackend), data)
  {
    if !Lookup(rt, accounts, tokenBackend).executable {
      return Err(ConstraintExecutable);
    }
    var metas: seq<AccountMeta> := [];
    for i := 0 to |remaining|
      invariant metas == Forwarded(remaining[..i], tokenBackend)
    {
      assert remaining[..i + 1][..i] == remaining[..i];
      if remaining[i].pubkey != tokenBackend {
        metas := metas + [AccountMeta(remaining[i].pubkey, remaining[i].isSigner, remaining[i].isWritable)];
      }
    }
    assert remaining[..|remaining|] == remaining;
    return Ok(Instruction(tokenBackend, metas, data));
  }
}
