/**
 * The basic token handler (programs/basic-token-handler): a handler program
 * that takes over the zero-filled regions the broker allocates for it and
 * writes its `Mint` and `TokenAccount` records into them. Each entrypoint
 * accepts only an account that was never initialised (Anchor's `zero`
 * constraint) and assigns two fields of the freshly deserialised record.
 */
module BasicTokenHandler {
  import opened Bytes
  import opened Solana

  /** The handler's program id and the 8-byte tags Anchor writes in front of its two record types. */
  datatype Handler = Handler(id: Pubkey, mintTag: seq<Byte>, tokenAccountTag: seq<Byte>)

  /** Tags are eight bytes, never all zero (a zero tag is what marks an uninitialised account), and distinct. */
  predicate ValidHandler(h: Handler)
  {
    && |h.mintTag| == 8 && |h.tokenAccountTag| == 8
    && h.mintTag != Zeros(8) && h.tokenAccountTag != Zeros(8)
    && h.mintTag != h.tokenAccountTag
  }

  /** Discriminators of the two instructions, as Anchor derives them from their names. */
  const INITIALIZE_MINT: seq<Byte> := [0xd1, 0x2a, 0xc3, 0x04, 0x81, 0x55, 0xd1, 0x2c]
  const INITIALIZE_TOKEN_ACCOUNT: seq<Byte> := [0x96, 0x55, 0x2c, 0x1c, 0x95, 0x0e, 0xd2, 0x1a]

  datatype Mint = Mint(mintAuthority: Pubkey, supply: U64, decimals: Byte)

  datatype TokenAccount = TokenAccount(authority: Pubkey, balance: U64, mint: U64)

  /** Serialized sizes: tag, then the Borsh fields in declaration order. */
  const MINT_SIZE: nat := 8 + 32 + 8 + 1
  const TOKEN_ACCOUNT_SIZE: nat := 8 + 32 + 8 + 8

  function EncodeMint(tag: seq<Byte>, m: Mint): (d: seq<Byte>)
    requires |tag| == 8
    ensures |d| == MINT_SIZE
    ensures d[..8] == tag && d[8..40] == m.mintAuthority && d[40..48] == U64Le(m.supply) && d[48] == m.decimals
  {
    tag + m.mintAuthority + U64Le(m.supply) + [m.decimals]
  }

  /** Borsh deserialisation of the fields after the tag; bytes past the record are ignored. */
  function DecodeMint(data: seq<Byte>): Mint
    requires |data| >= MINT_SIZE
  {
    Mint(data[8..40], U64FromLe(data[40..48]), data[48])
  }

  function EncodeTokenAccount(tag: seq<Byte>, t: TokenAccount): (d: seq<Byte>)
    requires |tag| == 8
    ensures |d| == TOKEN_ACCOUNT_SIZE
    ensures d[..8] == tag && d[8..40] == t.authority
    ensures d[40..48] == U64Le(t.balance) && d[48..56] == U64Le(t.mint)
  {
    tag + t.authority + U64Le(t.balance) + U64Le(t.mint)
  }

  function DecodeTokenAccount(data: seq<Byte>): TokenAccount
    requires |data| >= TOKEN_ACCOUNT_SIZE
  {
    TokenAccount(data[8..40], U64FromLe(data[40..48]), U64FromLe(data[48..56]))
  }

  /** A mint record reads back as written. */
  lemma DecodeEncodeMint(tag: seq<Byte>, m: Mint)
    requires |tag| == 8
    ensures DecodeMint(EncodeMint(tag, m)) == m
  {
    U64RoundTrip(m.supply);
  }

  /** A token-account record reads back as written. */
  lemma DecodeEncodeTokenAccount(tag: seq<Byte>, t: TokenAccount)
    requires |tag| == 8
    ensures DecodeTokenAccount(EncodeTokenAccount(tag, t)) == t
  {
    U64RoundTrip(t.balance);
    U64RoundTrip(t.mint);
  }

  /** What Anchor's exit serialisation leaves in an account: the record over its prefix, the rest untouched. */
  function WriteRecord(data: seq<Byte>, record: seq<Byte>): (d: seq<Byte>)
    requires |data| >= |record|
    ensures |d| == |data| && d[..|record|] == record && d[|record|..] == data[|record|..]
  {
    record + data[|record|..]
  }

  /** A zero-filled region deserialises to an all-zero mint: no authority, no supply, no decimals. */
  lemma ZeroedMint(n: nat)
    requires n >= MINT_SIZE
    ensures DecodeMint(Zeros(n)) == Mint(Zeros(32), 0, 0)
  {
    U64FromZeros();
    assert Zeros(n)[40..48] == Zeros(8);
    assert Zeros(n)[8..40] == Zeros(32);
  }

  /** A zero-filled region deserialises to an all-zero token account: in particular its balance is 0. */
  lemma ZeroedTokenAccount(n: nat)
    requires n >= TOKEN_ACCOUNT_SIZE
    ensures DecodeTokenAccount(Zeros(n)) == TokenAccount(Zeros(32), 0, 0)
  {
    U64FromZeros();
    assert Zeros(n)[40..48] == Zeros(8);
    assert Zeros(n)[48..56] == Zeros(8);
    assert Zeros(n)[8..40] == Zeros(32);
  }

  /**
   * Anchor's `#[account(zero)]` on an `Account<T>` of `size` serialized bytes:
   * the tag must still be zero, the account must not be an empty system
   * account, the handler must own it, the data must hold a record, and the
   * balance must be rent-exempt. Fewer than eight bytes panic when the tag is
   * sliced off.
   */
  function ZeroConstraint(rt: Runtime, h: Handler, accounts: map<Pubkey, Account>, key: Pubkey, size: nat)
    : (r: Outcome)
    ensures r.Success? <==>
      && |Lookup(rt, accounts, key).data| >= 8
      && Lookup(rt, accounts, key).data[..8] == Zeros(8)
      && !(Lookup(rt, accounts, key).owner == rt.systemProgram && Lookup(rt, accounts, key).lamports == 0)
      && Lookup(rt, accounts, key).owner == h.id
      && |Lookup(rt, accounts, key).data| >= size
      && Lookup(rt, accounts, key).lamports >= MinimumBalance(rt, |Lookup(rt, accounts, key).data|)
  {
    var a := Lookup(rt, accounts, key);
    if |a.data| < 8 then Failure(Panic)
    else if a.data[..8] != Zeros(8) then Failure(ConstraintZero)
    else if a.owner == rt.systemProgram && a.lamports == 0 then Failure(AccountNotInitialized)
    else if a.owner != h.id then Failure(AccountOwnedByWrongProgram)
    else if |a.data| < size then Failure(AccountDidNotDeserialize)
    else if a.lamports < MinimumBalance(rt, |a.data|) then Failure(ConstraintRentExempt)
    else Success
  }

  /** `initialize_mint(mint_authority, decimals)` on the `mint` account. */
  method InitializeMint(l: Ledger, h: Handler, mint: Pubkey, mintAuthority: Pubkey, decimals: Byte)
    returns (r: Outcome)
    requires |h.mintTag| == 8
    modifies l`accounts
    ensures r == ZeroConstraint(l.rt, h, old(l.accounts), mint, MINT_SIZE)
    ensures r.Failure? ==> l.accounts == old(l.accounts)
    // the two arguments are stored, the supply is whatever the region held
    ensures r.Success? ==>
              var before := old(l.accounts)[mint];
              l.accounts == old(l.accounts)[mint := before.(data := WriteRecord(before.data,
                EncodeMint(h.mintTag, DecodeMint(before.data).(mintAuthority := mintAuthority, decimals := decimals))))]
  {
    r := ZeroConstraint(l.rt, h, l.accounts, mint, MINT_SIZE);
    if r.Failure? {
      return;
    }
    var account := l.accounts[mint];
    var record := DecodeMint(account.data);
    record := record.(mintAuthority := mintAuthority);
    record := record.(decimals := decimals);
    // serialized back when the instruction exits
    l.accounts := l.accounts[mint := account.(data := WriteRecord(account.data, EncodeMint(h.mintTag, record)))];
  }

  /** `initialize_token_account(authority, mint)` on the `token_account` account. */
  method InitializeTokenAccount(l: Ledger, h: Handler, tokenAccount: Pubkey, authority: Pubkey, mint: U64)
    returns (r: Outcome)
    requires |h.tokenAccountTag| == 8
    modifies l`accounts
    ensures r == ZeroConstraint(l.rt, h, old(l.accounts), tokenAccount, TOKEN_ACCOUNT_SIZE)
    ensures r.Failure? ==> l.accounts == old(l.accounts)
    // the two arguments are stored, the balance is whatever the region held
    ensures r.Success? ==>
              var before := old(l.accounts)[tokenAccount];
              l.accounts == old(l.accounts)[tokenAccount := before.(data := WriteRecord(before.data,
                EncodeTokenAccount(h.tokenAccountTag,
                                   DecodeTokenAccount(before.data).(authority := authority, mint := mint))))]
  {
    r := ZeroConstraint(l.rt, h, l.accounts, tokenAccount, TOKEN_ACCOUNT_SIZE);
    if r.Failure? {
      return;
    }
    var account := l.accounts[tokenAccount];
    var record := DecodeTokenAccount(account.data);
    record := record.(authority := authority);
    record := record.(mint := mint);
    l.accounts := l.accounts[tokenAccount := account.(data := WriteRecord(account.data,
                                                                            EncodeTokenAccount(h.tokenAccountTag, record)))];
  }

  /**
   * After `initialize_mint` the account reads back as a mint with the given
   * authority and decimals and the supply it had before; a zero-filled region
   * therefore starts with supply 0.
   */
  lemma InitializedMintFields(tag: seq<Byte>, data: seq<Byte>, mintAuthority: Pubkey, decimals: Byte)
    requires |tag| == 8 && |data| >= MINT_SIZE
    ensures var after := WriteRecord(data, EncodeMint(tag, DecodeMint(data).(mintAuthority := mintAuthority,
                                                                               decimals := decimals)));
            && |after| == |data|
            && after[..8] == tag
            && DecodeMint(after) == Mint(mintAuthority, DecodeMint(data).supply, decimals)
            && (data == Zeros(|data|) ==> DecodeMint(after).supply == 0)
  {
    var m := DecodeMint(data).(mintAuthority := mintAuthority, decimals := decimals);
    var after := WriteRecord(data, EncodeMint(tag, m));
    assert after[..MINT_SIZE] == EncodeMint(tag, m);
    assert after[..8] == tag;
    assert after[8..40] == EncodeMint(tag, m)[8..40];
    assert after[40..48] == EncodeMint(tag, m)[40..48];
    DecodeEncodeMint(tag, m);
    if data == Zeros(|data|) {
      ZeroedMint(|data|);
    }
  }

  /**
   * After `initialize_token_account` the account reads back with the given
   * authority and mint nonce and the balance it had before: 0 for a
   * zero-filled region.
   */
  lemma InitializedTokenAccountFields(tag: seq<Byte>, data: seq<Byte>, authority: Pubkey, mint: U64)
    requires |tag| == 8 && |data| >= TOKEN_ACCOUNT_SIZE
    ensures var after := WriteRecord(data, EncodeTokenAccount(tag, DecodeTokenAccount(data).(authority := authority,
                                                                                              mint := mint)));
            && |after| == |data|
            && after[..8] == tag
            && DecodeTokenAccount(after) == TokenAccount(authority, DecodeTokenAccount(data).balance, mint)
            && (data == Zeros(|data|) ==> DecodeTokenAccount(after).balance == 0)
  {
    var t := DecodeTokenAccount(data).(authority := authority, mint := mint);
    var after := WriteRecord(data, EncodeTokenAccount(tag, t));
    assert after[..TOKEN_ACCOUNT_SIZE] == EncodeTokenAccount(tag, t);
    assert after[..8] == tag;
    assert after[8..40] == EncodeTokenAccount(tag, t)[8..40];
    assert after[40..48] == EncodeTokenAccount(tag, t)[40..48];
    assert after[48..56] == EncodeTokenAccount(tag, t)[48..56];
    DecodeEncodeTokenAccount(tag, t);
    if data == Zeros(|data|) {
      ZeroedTokenAccount(|data|);
    }
  }

  /**
   * Once `initialize_mint` has succeeded on an account, the account carries
   * the mint tag, so a second initialisation of either kind is refused.
   */
  lemma InitializeMintOnce(rt: Runtime, h: Handler, accounts: map<Pubkey, Account>, mint: Pubkey,
                           mintAuthority: Pubkey, decimals: Byte, size: nat)
    requires ValidHandler(h)
    requires ZeroConstraint(rt, h, accounts, mint, MINT_SIZE).Success?
    ensures mint in accounts
    ensures var a := accounts[mint];
            var m := DecodeMint(a.data).(mintAuthority := mintAuthority, decimals := decimals);
            ZeroConstraint(rt, h, accounts[mint := a.(data := WriteRecord(a.data, EncodeMint(h.mintTag, m)))], mint, size)
            == Failure(ConstraintZero)
  {
    InitializedMintFields(h.mintTag, accounts[mint].data, mintAuthority, decimals);
  }

  /** The same for `initialize_token_account`: the token-account tag marks the account as taken. */
  lemma InitializeTokenAccountOnce(rt: Runtime, h: Handler, accounts: map<Pubkey, Account>, tokenAccount: Pubkey,
                                   authority: Pubkey, mint: U64, size: nat)
    requires ValidHandler(h)
    requires ZeroConstraint(rt, h, accounts, tokenAccount, TOKEN_ACCOUNT_SIZE).Success?
    ensures tokenAccount in accounts
    ensures var a := accounts[tokenAccount];
            var t := DecodeTokenAccount(a.data).(authority := authority, mint := mint);
            ZeroConstraint(rt, h, accounts[tokenAccount := a.(data := WriteRecord(a.data,
                                                                 EncodeTokenAccount(h.tokenAccountTag, t)))],
                           tokenAccount, size)
            == Failure(ConstraintZero)
  {
    InitializedTokenAccountFields(h.tokenAccountTag, accounts[tokenAccount].data, authority, mint);
  }

  /** Arguments of `initialize_mint`: a key and a byte; trailing bytes are ignored. */
  function DecodeInitializeMintArgs(args: seq<Byte>): (r: Option<(Pubkey, Byte)>)
    ensures r.Some? <==> |args| >= 33
    ensures r.Some? ==> r.value.0 == args[..32] && r.value.1 == args[32]
  {
    if |args| < 33 then None else Some((args[..32], args[32]))
  }

  /** Arguments of `initialize_token_account`: a key and a little-endian u64; trailing bytes are ignored. */
  function DecodeInitializeTokenAccountArgs(args: seq<Byte>): (r: Option<(Pubkey, U64)>)
    ensures r.Some? <==> |args| >= 40
    ensures r.Some? ==> r.value.0 == args[..32] && U64Le(r.value.1) == args[32..40]
  {
    if |args| < 40 then None
    else
      U64LeFromLe(args[32..40]);
      Some((args[..32], U64FromLe(args[32..40])))
  }

  /**
   * The program's entrypoint: dispatch on the first eight bytes, decode the
   * arguments, take the first account as the one to initialise. Any other
   * discriminator, `mint_to`'s among them, is not an instruction of this program.
   */
  method Process(l: Ledger, h: Handler, ix: Instruction) returns (r: Outcome)
    requires ValidHandler(h)
    modifies l`accounts
    ensures |ix.data| < 8 ==> r == Failure(InstructionMissing)
    ensures |ix.data| >= 8 && ix.data[..8] != INITIALIZE_MINT && ix.data[..8] != INITIALIZE_TOKEN_ACCOUNT
            ==> r == Failure(InstructionFallbackNotFound)
    // `initialize_mint`: arguments, then the one account, then its `zero` constraint
    ensures |ix.data| >= 8 && ix.data[..8] == INITIALIZE_MINT ==>
              if DecodeInitializeMintArgs(ix.data[8..]).None? then r == Failure(InstructionDidNotDeserialize)
              else if |ix.accounts| == 0 then r == Failure(AccountNotEnoughKeys)
              else r == ZeroConstraint(l.rt, h, old(l.accounts), ix.accounts[0].pubkey, MINT_SIZE)
    // `initialize_token_account`: the same, for its arguments and record size
    ensures |ix.data| >= 8 && ix.data[..8] == INITIALIZE_TOKEN_ACCOUNT ==>
              if DecodeInitializeTokenAccountArgs(ix.data[8..]).None? then r == Failure(InstructionDidNotDeserialize)
              else if |ix.accounts| == 0 then r == Failure(AccountNotEnoughKeys)
              else r == ZeroConstraint(l.rt, h, old(l.accounts), ix.accounts[0].pubkey, TOKEN_ACCOUNT_SIZE)
    ensures r.Failure? ==> l.accounts == old(l.accounts)
    ensures r.Success? ==>
              && |ix.data| >= 8 && |ix.accounts| >= 1
              && var key := ix.accounts[0].pubkey;
                 && key in old(l.accounts) && key in l.accounts
                 && l.accounts == old(l.accounts)[key := l.accounts[key]]
                 && l.accounts[key].owner == h.id
                 && |l.accounts[key].data| == |old(l.accounts)[key].data|
                 && (ix.data[..8] == INITIALIZE_MINT ==>
                       && DecodeInitializeMintArgs(ix.data[8..]).Some?
                       && |l.accounts[key].data| >= MINT_SIZE
                       && var args := DecodeInitializeMintArgs(ix.data[8..]).value;
                          DecodeMint(l.accounts[key].data)
                          == Mint(args.0, DecodeMint(old(l.accounts)[key].data).supply, args.1))
                 && (ix.data[..8] == INITIALIZE_TOKEN_ACCOUNT ==>
                       && DecodeInitializeTokenAccountArgs(ix.data[8..]).Some?
                       && |l.accounts[key].data| >= TOKEN_ACCOUNT_SIZE
                       && var args := DecodeInitializeTokenAccountArgs(ix.data[8..]).value;
                          DecodeTokenAccount(l.accounts[key].data)
                          == TokenAccount(args.0, DecodeTokenAccount(old(l.accounts)[key].data).balance, args.1))
    // the exact new account: only the record's prefix is rewritten, lamports, owner and the rest are kept
    ensures r.Success? && |ix.data| >= 8 && ix.data[..8] == INITIALIZE_MINT ==>
              && DecodeInitializeMintArgs(ix.data[8..]).Some? && |ix.accounts| >= 1
              && ix.accounts[0].pubkey in old(l.accounts)
              && |old(l.accounts)[ix.accounts[0].pubkey].data| >= MINT_SIZE
              && var key := ix.accounts[0].pubkey;
                 var before := old(l.accounts)[key];
                 var args := DecodeInitializeMintArgs(ix.data[8..]).value;
                 l.accounts == old(l.accounts)[key := before.(data := WriteRecord(before.data,
                   EncodeMint(h.mintTag, DecodeMint(before.data).(mintAuthority := args.0, decimals := args.1))))]
    ensures r.Success? && |ix.data| >= 8 && ix.data[..8] == INITIALIZE_TOKEN_ACCOUNT ==>
              && DecodeInitializeTokenAccountArgs(ix.data[8..]).Some? && |ix.accounts| >= 1
              && ix.accounts[0].pubkey in old(l.accounts)
              && |old(l.accounts)[ix.accounts[0].pubkey].data| >= TOKEN_ACCOUNT_SIZE
              && var key := ix.accounts[0].pubkey;
                 var before := old(l.accounts)[key];
                 var args := DecodeInitializeTokenAccountArgs(ix.data[8..]).value;
                 l.accounts == old(l.accounts)[key := before.(data := WriteRecord(before.data,
                   EncodeTokenAccount(h.tokenAccountTag,
                                      DecodeTokenAccount(before.data).(authority := args.0, mint := args.1))))]
  {
    if |ix.data| < 8 {
      return Failure(InstructionMissing);
    }
    var tag := ix.data[..8];
    if tag == INITIALIZE_MINT {
      var args := DecodeInitializeMintArgs(ix.data[8..]);
      if args.None? {
        return Failure(InstructionDidNotDeserialize);
      }
      if |ix.accounts| < 1 {
        return Failure(AccountNotEnoughKeys);
      }
      ghost var before := l.accounts;
      r := InitializeMint(l, h, ix.accounts[0].pubkey, args.value.0, args.value.1);
      if r.Success? {
        InitializedMintFields(h.mintTag, before[ix.accounts[0].pubkey].data, args.value.0, args.value.1);
      }
    } else if tag == INITIALIZE_TOKEN_ACCOUNT {
      var args := DecodeInitializeTokenAccountArgs(ix.data[8..]);
      if args.None? {
        return Failure(InstructionDidNotDeserialize);
      }
      if |ix.accounts| < 1 {
        return Failure(AccountNotEnoughKeys);
      }
      ghost var before := l.accounts;
      r := InitializeTokenAccount(l, h, ix.accounts[0].pubkey, args.value.0, args.value.1);
      if r.Success? {
        InitializedTokenAccountFields(h.tokenAccountTag, before[ix.accounts[0].pubkey].data, args.value.0,
                                      args.value.1);
      }
    } else {
      r := Failure(InstructionFallbackNotFound);
    }
  }
}
