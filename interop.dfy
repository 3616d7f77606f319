/**
 * How the broker and the basic handler fit together: the instruction bytes
 * the broker packs are the ones the handler dispatches on and decodes, the
 * regions the broker allocates are the ones the handler's `zero` constraint
 * accepts, and the bytes `mint_to` reads back from a token account are the
 * ones the handler wrote there. The last of these does not hold for the
 * handler's layout as written; the intended layout is defined next to it.
 * The broker's per-nonce mints are shown not to interfere with each other,
 * unlike the frontend's single mint address.
 */
module Interop {
  import opened Bytes
  import opened Solana
  import TokenBroker
  import BasicTokenHandler

  /**
   * The broker's two initialization discriminators are the handler's, and
   * the `mint_to` relay carries neither, so the handler's dispatch reports
   * it as an unknown instruction.
   */
  lemma DiscriminatorsAgree(amount: U64)
    ensures TokenBroker.INITIALIZE_MINT == BasicTokenHandler.INITIALIZE_MINT
    ensures TokenBroker.INITIALIZE_TOKEN_ACCOUNT == BasicTokenHandler.INITIALIZE_TOKEN_ACCOUNT
    ensures TokenBroker.MintToData(amount)[..8] != BasicTokenHandler.INITIALIZE_MINT
    ensures TokenBroker.MintToData(amount)[..8] != BasicTokenHandler.INITIALIZE_TOKEN_ACCOUNT
  {
    var d := TokenBroker.MintToData(amount);
    assert d[..8][0] == TokenBroker.MINT_TO[0];
  }

  /** The handler reads the broker's mint relay as the first 33 bytes of the caller's payload, or refuses it. */
  lemma MintRelayArgs(mintData: seq<Byte>)
    ensures var args := BasicTokenHandler.DecodeInitializeMintArgs(TokenBroker.InitializeMintData(mintData)[8..]);
            && (args.Some? <==> |mintData| >= 33)
            && (args.Some? ==> args.value == (mintData[..32], mintData[32]))
  {
  }

  /**
   * The handler reads the broker's token-account relay as exactly the
   * authority and mint nonce the broker derived the account from, whatever
   * payload the caller appended.
   */
  lemma {:induction false} TokenAccountRelayArgs(authority: Pubkey, mintNonce: U64, payload: seq<Byte>)
    ensures BasicTokenHandler.DecodeInitializeTokenAccountArgs(
              TokenBroker.InitializeTokenAccountData(authority, mintNonce, payload)[8..])
            == Some((authority, mintNonce))
  {
    var d := TokenBroker.InitializeTokenAccountData(authority, mintNonce, payload);
    var args := BasicTokenHandler.DecodeInitializeTokenAccountArgs(d[8..]);
    assert d[8..][..32] == d[8..40];
    assert d[8..][32..40] == d[40..48];
    U64LeInjective(args.value.1, mintNonce);
  }

  /**
   * A mint the broker allocated for the handler passes the handler's `zero`
   * constraint exactly when the registered mint size holds a `Mint` record.
   */
  lemma CreatedMintAccepted(rt: Runtime, b: TokenBroker.Broker, h: BasicTokenHandler.Handler,
                            accounts: map<Pubkey, Account>, signers: set<Pubkey>, handler: Pubkey, mint: Pubkey,
                            payer: Pubkey, nonce: U64, mintData: seq<Byte>)
    requires TokenBroker.InitializeMintEffect(rt, b, accounts, signers, handler, h.id, mint, payer, nonce, mintData).Ok?
    ensures var size := TokenBroker.LoadHandler(rt, b, accounts, signers, handler, h.id, payer).value.mintAccountBytes;
            var after := TokenBroker.InitializeMintEffect(rt, b, accounts, signers, handler, h.id, mint, payer, nonce,
                                                          mintData).value.accounts;
            BasicTokenHandler.ZeroConstraint(rt, h, after, mint, BasicTokenHandler.MINT_SIZE).Success?
            <==> size >= BasicTokenHandler.MINT_SIZE
  {
    var size := TokenBroker.LoadHandler(rt, b, accounts, signers, handler, h.id, payer).value.mintAccountBytes;
    TokenBroker.InitializeMintAccounts(rt, b, accounts, signers, handler, h.id, mint, payer, nonce, mintData);
    if size >= 8 {
      assert Zeros(size)[..8] == Zeros(8);
    }
  }

  /** The same for a token account and the `TokenAccount` record. */
  lemma CreatedTokenAccountAccepted(rt: Runtime, b: TokenBroker.Broker, h: BasicTokenHandler.Handler,
                                    accounts: map<Pubkey, Account>, signers: set<Pubkey>, handler: Pubkey,
                                    tokenAccount: Pubkey, payer: Pubkey, authority: Pubkey, mintNonce: U64,
                                    tokenAccountData: seq<Byte>)
    requires TokenBroker.InitializeTokenAccountEffect(rt, b, accounts, signers, handler, h.id, tokenAccount, payer,
                                                      authority, mintNonce, tokenAccountData).Ok?
    ensures var size := TokenBroker.LoadHandler(rt, b, accounts, signers, handler, h.id, payer).value.tokenAccountBytes;
            var after := TokenBroker.InitializeTokenAccountEffect(rt, b, accounts, signers, handler, h.id, tokenAccount,
                                                                  payer, authority, mintNonce,
                                                                  tokenAccountData).value.accounts;
            BasicTokenHandler.ZeroConstraint(rt, h, after, tokenAccount, BasicTokenHandler.TOKEN_ACCOUNT_SIZE).Success?
            <==> size >= BasicTokenHandler.TOKEN_ACCOUNT_SIZE
  {
    var size := TokenBroker.LoadHandler(rt, b, accounts, signers, handler, h.id, payer).value.tokenAccountBytes;
    TokenBroker.InitializeTokenAccountAccounts(rt, b, accounts, signers, handler, h.id, tokenAccount, payer,
                                               authority, mintNonce, tokenAccountData);
    if size >= 8 {
      assert Zeros(size)[..8] == Zeros(8);
    }
  }

  /** The token-account data the handler leaves in a zero-filled region, with its layout as written. */
  function InitializedTokenAccount(tag: seq<Byte>, n: nat, authority: Pubkey, mintNonce: U64): (d: seq<Byte>)
    requires |tag| == 8 && n >= BasicTokenHandler.TOKEN_ACCOUNT_SIZE
    ensures |d| == n
  {
    var data := Zeros(n);
    BasicTokenHandler.WriteRecord(data, BasicTokenHandler.EncodeTokenAccount(tag,
      BasicTokenHandler.DecodeTokenAccount(data).(authority := authority, mint := mintNonce)))
  }

  /**
   * The handler's mint authority sits at bytes 8..40 of the mint, which is
   * where `mint_to` compares the signing authority.
   */
  lemma MintAuthorityAgrees(tag: seq<Byte>, data: seq<Byte>, mintAuthority: Pubkey, decimals: Byte)
    requires |tag| == 8 && |data| >= BasicTokenHandler.MINT_SIZE
    ensures var after := BasicTokenHandler.WriteRecord(data, BasicTokenHandler.EncodeMint(tag,
              BasicTokenHandler.DecodeMint(data).(mintAuthority := mintAuthority, decimals := decimals)));
            |after| >= 40 && after[8..40] == mintAuthority
  {
    var m := BasicTokenHandler.DecodeMint(data).(mintAuthority := mintAuthority, decimals := decimals);
    var after := BasicTokenHandler.WriteRecord(data, BasicTokenHandler.EncodeMint(tag, m));
    assert after[..BasicTokenHandler.MINT_SIZE][8..40] == after[8..40];
  }

  /**
   * As written, bytes 40..48 of a freshly initialized token account hold
   * its balance, zero, and not the mint nonce: `mint_to` derives the mint of
   * token 0 from them, whatever token the account was created for.
   */
  lemma {:induction false} FreshTokenAccountReadsNonceZero(tag: seq<Byte>, n: nat, authority: Pubkey, mintNonce: U64)
    requires |tag| == 8 && n >= BasicTokenHandler.TOKEN_ACCOUNT_SIZE
    ensures var d := InitializedTokenAccount(tag, n, authority, mintNonce);
            && [TokenBroker.MINT_SEED, d[40..48]] == TokenBroker.MintSeeds(0)
            && ([TokenBroker.MINT_SEED, d[40..48]] == TokenBroker.MintSeeds(mintNonce) <==> mintNonce == 0)
  {
    var d := InitializedTokenAccount(tag, n, authority, mintNonce);
    BasicTokenHandler.InitializedTokenAccountFields(tag, Zeros(n), authority, mintNonce);
    assert BasicTokenHandler.DecodeTokenAccount(d).balance == U64FromLe(d[40..48]);
    TokenBroker.RawMintSeeds(d[40..48]);
    if [TokenBroker.MINT_SEED, d[40..48]] == TokenBroker.MintSeeds(mintNonce) {
      TokenBroker.MintSeedsInjective(0, mintNonce);
    }
  }

  /**
   * Consequently `mint_to` into such an account accepts only the mint
   * derived for nonce 0: for the account's own token (nonce 4 in the
   * repository's test) it needs the two derivations to collide.
   */
  lemma MintToNeedsMintOfNonceZero(rt: Runtime, b: TokenBroker.Broker, accounts: map<Pubkey, Account>,
                                   signers: set<Pubkey>, handler: Pubkey, handlerProgram: Pubkey, to: Pubkey,
                                   mintAuthority: Pubkey, mint: Pubkey, tag: seq<Byte>, n: nat, authority: Pubkey,
                                   mintNonce: U64)
    requires |tag| == 8 && n >= BasicTokenHandler.TOKEN_ACCOUNT_SIZE
    requires Lookup(rt, accounts, to).data == InitializedTokenAccount(tag, n, authority, mintNonce)
    requires TokenBroker.MintToChecks(rt, b, accounts, signers, handler, handlerProgram, to, mintAuthority, mint).Ok?
    ensures mint == FindProgramAddress(rt, TokenBroker.MintSeeds(0), b.id).address
    ensures mint == FindProgramAddress(rt, TokenBroker.MintSeeds(mintNonce), b.id).address ==>
              FindProgramAddress(rt, TokenBroker.MintSeeds(0), b.id).address
              == FindProgramAddress(rt, TokenBroker.MintSeeds(mintNonce), b.id).address
  {
    FreshTokenAccountReadsNonceZero(tag, n, authority, mintNonce);
  }

  /** The token-account layout the test's sizes describe: authority, then mint, then balance. */
  function EncodeTokenAccountIntended(tag: seq<Byte>, t: BasicTokenHandler.TokenAccount): (d: seq<Byte>)
    requires |tag| == 8
    ensures |d| == BasicTokenHandler.TOKEN_ACCOUNT_SIZE
    ensures d[..8] == tag && d[8..40] == t.authority
    ensures d[40..48] == U64Le(t.mint) && d[48..56] == U64Le(t.balance)
  {
    tag + t.authority + U64Le(t.mint) + U64Le(t.balance)
  }

  function DecodeTokenAccountIntended(data: seq<Byte>): BasicTokenHandler.TokenAccount
    requires |data| >= BasicTokenHandler.TOKEN_ACCOUNT_SIZE
  {
    BasicTokenHandler.TokenAccount(data[8..40], U64FromLe(data[48..56]), U64FromLe(data[40..48]))
  }

  /** A record in the intended layout reads back as written. */
  lemma DecodeEncodeTokenAccountIntended(tag: seq<Byte>, t: BasicTokenHandler.TokenAccount)
    requires |tag| == 8
    ensures DecodeTokenAccountIntended(EncodeTokenAccountIntended(tag, t)) == t
  {
    U64RoundTrip(t.balance);
    U64RoundTrip(t.mint);
  }

  /** `initialize_token_account` on a zero-filled region with the intended layout. */
  function InitializedTokenAccountIntended(tag: seq<Byte>, n: nat, authority: Pubkey, mintNonce: U64): (d: seq<Byte>)
    requires |tag| == 8 && n >= BasicTokenHandler.TOKEN_ACCOUNT_SIZE
    ensures |d| == n
  {
    var data := Zeros(n);
    BasicTokenHandler.WriteRecord(data, EncodeTokenAccountIntended(tag,
      DecodeTokenAccountIntended(data).(authority := authority, mint := mintNonce)))
  }

  /**
   * With the intended layout a fresh token account holds the given authority,
   * the given nonce and a zero balance, and bytes 40..48 give `mint_to` the
   * seeds of the account's own mint.
   */
  lemma {:induction false} IntendedTokenAccountReadsNonce(tag: seq<Byte>, n: nat, authority: Pubkey, mintNonce: U64)
    requires |tag| == 8 && n >= BasicTokenHandler.TOKEN_ACCOUNT_SIZE
    ensures var d := InitializedTokenAccountIntended(tag, n, authority, mintNonce);
            && DecodeTokenAccountIntended(d) == BasicTokenHandler.TokenAccount(authority, 0, mintNonce)
            && [TokenBroker.MINT_SEED, d[40..48]] == TokenBroker.MintSeeds(mintNonce)
  {
    var z := Zeros(n);
    assert z[48..56] == Zeros(8);
    U64FromZeros();
    var t := BasicTokenHandler.TokenAccount(authority, 0, mintNonce);
    assert DecodeTokenAccountIntended(z).(authority := authority, mint := mintNonce) == t;
    var d := InitializedTokenAccountIntended(tag, n, authority, mintNonce);
    var e := EncodeTokenAccountIntended(tag, t);
    assert d[..BasicTokenHandler.TOKEN_ACCOUNT_SIZE] == e;
    assert d[8..40] == e[8..40];
    assert d[40..48] == e[40..48];
    assert d[48..56] == e[48..56];
    DecodeEncodeTokenAccountIntended(tag, t);
  }

  /**
   * With the intended layout, `mint_to` into a fresh token account re-derives
   * exactly the mint of the account's own token.
   */
  lemma IntendedMintToDerivesOwnMint(rt: Runtime, b: TokenBroker.Broker, accounts: map<Pubkey, Account>, to: Pubkey,
                                     tag: seq<Byte>, n: nat, authority: Pubkey, mintNonce: U64)
    requires |tag| == 8 && n >= BasicTokenHandler.TOKEN_ACCOUNT_SIZE
    requires Lookup(rt, accounts, to).data == InitializedTokenAccountIntended(tag, n, authority, mintNonce)
    ensures |Lookup(rt, accounts, to).data| >= 48
    ensures FindProgramAddress(rt, [TokenBroker.MINT_SEED, Lookup(rt, accounts, to).data[40..48]], b.id)
            == FindProgramAddress(rt, TokenBroker.MintSeeds(mintNonce), b.id)
  {
    IntendedTokenAccountReadsNonce(tag, n, authority, mintNonce);
  }

  /**
   * The broker's mints for distinct nonces do not interfere: creating the
   * mint of one nonce leaves the address of another nonce's mint as it was,
   * unless the two derivations collide or that address paid.
   */
  lemma BrokerMintsIndependent(rt: Runtime, b: TokenBroker.Broker, accounts: map<Pubkey, Account>,
                               signers: set<Pubkey>, handler: Pubkey, handlerProgram: Pubkey, mint: Pubkey,
                               payer: Pubkey, nonce: U64, mintData: seq<Byte>, nonce2: U64)
    requires TokenBroker.InitializeMintEffect(rt, b, accounts, signers, handler, handlerProgram, mint, payer, nonce,
                                              mintData).Ok?
    requires mint !in signers
    ensures var after := TokenBroker.InitializeMintEffect(rt, b, accounts, signers, handler, handlerProgram, mint,
                                                          payer, nonce, mintData).value.accounts;
            var other := FindProgramAddress(rt, TokenBroker.MintSeeds(nonce2), b.id).address;
            other != FindProgramAddress(rt, TokenBroker.MintSeeds(nonce), b.id).address && other != payer
            ==> Lookup(rt, after, other) == Lookup(rt, accounts, other)
  {
    TokenBroker.InitializeMintSucceeds(rt, b, accounts, signers, handler, handlerProgram, mint, payer, nonce, mintData);
    TokenBroker.InitializeMintAccounts(rt, b, accounts, signers, handler, handlerProgram, mint, payer, nonce, mintData);
  }
}
