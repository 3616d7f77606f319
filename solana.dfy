/**
 * The part of the Solana runtime the programs rely on, stated abstractly:
 * accounts, instructions, program-address derivation, the rent minimum, the
 * system program's create_account, and cross-program invocation with its
 * signer-privilege rule. Derivation, rent and the curve test are parameters
 * of the runtime (function-typed fields), not implementations.
 */
module Solana {
  import opened Bytes

  /** A list of derivation seeds, e.g. `["mint", nonce]`. */
  type Seeds = seq<seq<Byte>>

  datatype Account = Account(owner: Pubkey, lamports: nat, data: seq<Byte>, executable: bool)

  datatype AccountMeta = AccountMeta(pubkey: Pubkey, isSigner: bool, isWritable: bool)

  datatype Instruction = Instruction(programId: Pubkey, accounts: seq<AccountMeta>, data: seq<Byte>)

  /** One cross-program invocation: who issued it, what it carried, and the seeds it signed with. */
  datatype Invocation = Invocation(caller: Pubkey, instruction: Instruction, signerSeeds: seq<Seeds>)

  /** The result of `find_program_address`: an address and its bump seed. */
  datatype Derived = Derived(address: Pubkey, bump: Byte)

  datatype Runtime = Runtime(
    systemProgram: Pubkey,
    findProgramAddress: (Seeds, Pubkey) -> Derived,
    minimumBalance: nat -> U64,
    onCurve: Pubkey -> bool)

  /** `Pubkey::find_program_address`. */
  function FindProgramAddress(rt: Runtime, seeds: Seeds, program: Pubkey): Derived
  {
    rt.findProgramAddress(seeds, program)
  }

  /** `Rent::minimum_balance`. */
  function MinimumBalance(rt: Runtime, space: nat): U64
  {
    rt.minimumBalance(space)
  }

  /** Whether a key is a point on the ed25519 curve, i.e. may have a private key. */
  function OnCurve(rt: Runtime, key: Pubkey): bool
  {
    rt.onCurve(key)
  }

  datatype Error =
    // runtime and system program
    | MissingAccount
    | PrivilegeEscalation
    | AccountAlreadyInUse
    | InvalidAccountDataLength
    | InvalidPayer
    | InsufficientFunds
    // account validation generated from the programs' account constraints
    | AccountNotSigner
    | ConstraintExecutable
    | ConstraintHasOne
    | ConstraintSeeds
    | ConstraintZero
    | ConstraintRentExempt
    | AccountNotInitialized
    | AccountOwnedByWrongProgram
    | AccountDiscriminatorNotFound
    | AccountDiscriminatorMismatch
    | AccountDidNotDeserialize
    | AccountNotEnoughKeys
    // instruction dispatch
    | InstructionMissing
    | InstructionFallbackNotFound
    | InstructionDidNotDeserialize
    // a failed `assert!` or an out-of-range slice in program code
    | Panic

  datatype Outcome = Success | Failure(error: Error)

  datatype Result<+T> = Ok(value: T) | Err(error: Error)

  /** Largest account the system program allocates (10 MiB). */
  const MAX_PERMITTED_DATA_LENGTH: nat := 10 * 1024 * 1024

  /** An address with no account is seen as an empty system-owned account. */
  function Lookup(rt: Runtime, accounts: map<Pubkey, Account>, key: Pubkey): Account
  {
    if key in accounts then accounts[key] else Account(rt.systemProgram, 0, [], false)
  }

  /** Every derived address lies off the curve, so no private key can sign for it. */
  ghost predicate DerivedOffCurve(rt: Runtime)
  {
    forall seeds: Seeds, program: Pubkey :: !OnCurve(rt, FindProgramAddress(rt, seeds, program).address)
  }

  /** Transaction signatures can only come from keys on the curve. */
  ghost predicate SignersOnCurve(rt: Runtime, signers: set<Pubkey>)
  {
    forall s | s in signers :: OnCurve(rt, s)
  }

  /** `program` signs for `key` with `seeds` when they are a derivation's seeds followed by its bump. */
  predicate SignsFor(rt: Runtime, program: Pubkey, seeds: Seeds, key: Pubkey)
  {
    && |seeds| > 0
    && |seeds[|seeds| - 1]| == 1
    && FindProgramAddress(rt, seeds[..|seeds| - 1], program) == Derived(key, seeds[|seeds| - 1][0])
  }

  /** `key` carries a signature in an invocation by `caller`: the transaction's or the caller's own. */
  predicate Authorized(rt: Runtime, caller: Pubkey, signers: set<Pubkey>, signerSeeds: seq<Seeds>, key: Pubkey)
  {
    key in signers || exists s | s in signerSeeds :: SignsFor(rt, caller, s, key)
  }

  /** What `invoke_signed` demands: every account named was passed, and no signature is invented. */
  predicate MayInvoke(rt: Runtime, caller: Pubkey, signers: set<Pubkey>, ix: Instruction,
                      infos: set<Pubkey>, signerSeeds: seq<Seeds>)
  {
    && ix.programId in infos
    && forall m | m in ix.accounts ::
         m.pubkey in infos && (m.isSigner ==> Authorized(rt, caller, signers, signerSeeds, m.pubkey))
  }

  /** Funding the programs give a new account: `rent.minimum_balance(space).max(1)`. */
  function FundedMinimum(rt: Runtime, space: nat): (lamports: U64)
    ensures lamports >= 1 && lamports >= MinimumBalance(rt, space)
    ensures lamports == 1 || lamports == MinimumBalance(rt, space)
  {
    if MinimumBalance(rt, space) < 1 then 1 else MinimumBalance(rt, space)
  }

  /** `system_instruction::create_account`, bincode-encoded. */
  function CreateAccountInstruction(rt: Runtime, payer: Pubkey, target: Pubkey, lamports: U64,
                                    space: U64, owner: Pubkey): (ix: Instruction)
    ensures ix.programId == rt.systemProgram
    ensures ix.accounts == [AccountMeta(payer, true, true), AccountMeta(target, true, true)]
    ensures |ix.data| == 52 && ix.data[..4] == U32Le(0)
    ensures ix.data[4..12] == U64Le(lamports) && ix.data[12..20] == U64Le(space) && ix.data[20..] == owner
  {
    Instruction(rt.systemProgram,
                [AccountMeta(payer, true, true), AccountMeta(target, true, true)],
                U32Le(0) + U64Le(lamports) + U64Le(space) + owner)
  }

  /** `key` carries a signature when the only signer seeds are `seeds`: its own, or the one they derive. */
  lemma AuthorizedBySeeds(rt: Runtime, caller: Pubkey, signers: set<Pubkey>, seeds: Seeds, key: Pubkey)
    ensures Authorized(rt, caller, signers, [seeds], key) <==> key in signers || SignsFor(rt, caller, seeds, key)
  {
    if SignsFor(rt, caller, seeds, key) {
      assert seeds in [seeds];
    }
  }

  /** Seeds ending in a bump sign exactly for the address those seeds derive, if the bump is the derived one. */
  lemma SignsWithBump(rt: Runtime, program: Pubkey, seeds: Seeds, bump: Byte, key: Pubkey)
    ensures SignsFor(rt, program, seeds + [[bump]], key) <==> FindProgramAddress(rt, seeds, program) == Derived(key, bump)
  {
    var s := seeds + [[bump]];
    assert s[..|s| - 1] == seeds;
  }

  /** create_account names two signing accounts, the payer and the new account, and nothing else. */
  lemma CreateAccountMayInvoke(rt: Runtime, caller: Pubkey, signers: set<Pubkey>, payer: Pubkey, target: Pubkey,
                               lamports: U64, space: U64, owner: Pubkey, signerSeeds: seq<Seeds>)
    ensures MayInvoke(rt, caller, signers, CreateAccountInstruction(rt, payer, target, lamports, space, owner),
                      {rt.systemProgram, payer, target}, signerSeeds)
            <==> Authorized(rt, caller, signers, signerSeeds, payer) && Authorized(rt, caller, signers, signerSeeds, target)
  {
    var ix := CreateAccountInstruction(rt, payer, target, lamports, space, owner);
    assert ix.accounts[0] in ix.accounts && ix.accounts[1] in ix.accounts;
  }

  /**
   * The runtime's verdict on an invocation: an account or program that was not
   * passed is missing; a signature neither given nor derivable is an escalation.
   */
  function InvokeCheck(rt: Runtime, caller: Pubkey, signers: set<Pubkey>, ix: Instruction,
                       infos: set<Pubkey>, signerSeeds: seq<Seeds>): (o: Outcome)
    ensures o.Success? <==> MayInvoke(rt, caller, signers, ix, infos, signerSeeds)
    ensures o.Failure? ==> o.error == MissingAccount || o.error == PrivilegeEscalation
  {
    if ix.programId !in infos || exists m | m in ix.accounts :: m.pubkey !in infos then Failure(MissingAccount)
    else if exists m | m in ix.accounts :: m.isSigner && !Authorized(rt, caller, signers, signerSeeds, m.pubkey)
    then Failure(PrivilegeEscalation)
    else Success
  }

  /** An account create_account may take over: no lamports, no data, owned by the system program. */
  predicate Blank(rt: Runtime, a: Account)
  {
    a.lamports == 0 && a.data == [] && a.owner == rt.systemProgram
  }

  /**
   * The system program's create_account on the account map: the target must be
   * blank, the payer a data-free system account holding the lamports.
   */
  function SystemCreateAccount(rt: Runtime, accounts: map<Pubkey, Account>, payer: Pubkey, target: Pubkey,
                               lamports: nat, space: nat, owner: Pubkey): (r: Result<map<Pubkey, Account>>)
    ensures r.Ok? <==>
      && Blank(rt, Lookup(rt, accounts, target))
      && payer != target
      && space <= MAX_PERMITTED_DATA_LENGTH
      && Lookup(rt, accounts, payer).owner == rt.systemProgram
      && Lookup(rt, accounts, payer).data == []
      && Lookup(rt, accounts, payer).lamports >= lamports
    ensures r.Ok? ==>
      && r.value.Keys == accounts.Keys + {payer, target}
      && r.value[target] == Account(owner, lamports, Zeros(space), false)
      && r.value[payer] == Lookup(rt, accounts, payer).(lamports := Lookup(rt, accounts, payer).lamports - lamports)
      && forall k | k in accounts && k != payer && k != target :: r.value[k] == accounts[k]
  {
    var to := Lookup(rt, accounts, target);
    var from := Lookup(rt, accounts, payer);
    if !Blank(rt, to) || payer == target then Err(AccountAlreadyInUse)
    else if space > MAX_PERMITTED_DATA_LENGTH then Err(InvalidAccountDataLength)
    else if from.owner != rt.systemProgram || from.data != [] then Err(InvalidPayer)
    else if from.lamports < lamports then Err(InsufficientFunds)
    else Ok(accounts[payer := from.(lamports := from.lamports - lamports)]
                    [target := Account(owner, lamports, Zeros(space), false)])
  }

  /** An account funded with at least one lamport can never be created a second time. */
  lemma FundedAccountIsNotRecreated(rt: Runtime, accounts: map<Pubkey, Account>, payer: Pubkey, target: Pubkey,
                                    lamports: U64, space: U64, owner: Pubkey,
                                    payer2: Pubkey, lamports2: U64, space2: U64, owner2: Pubkey)
    requires lamports >= 1
    requires SystemCreateAccount(rt, accounts, payer, target, lamports, space, owner).Ok?
    ensures SystemCreateAccount(rt, SystemCreateAccount(rt, accounts, payer, target, lamports, space, owner).value,
                                payer2, target, lamports2, space2, owner2)
            == Err(AccountAlreadyInUse)
  {
    var next := SystemCreateAccount(rt, accounts, payer, target, lamports, space, owner).value;
    assert Lookup(rt, next, target).lamports == lamports;
  }

  /** What a successful instruction leaves behind: the new accounts and the invocations it issued, in order. */
  datatype Effect = Effect(accounts: map<Pubkey, Account>, issued: seq<Invocation>)

  /** `invoke_signed` of create_account: the runtime's privilege check, then the system program. */
  function CreateAccountEffect(rt: Runtime, accounts: map<Pubkey, Account>, caller: Pubkey, signers: set<Pubkey>,
                               payer: Pubkey, target: Pubkey, lamports: U64, space: U64, owner: Pubkey,
                               signerSeeds: seq<Seeds>): (r: Result<map<Pubkey, Account>>)
    ensures r.Ok? <==>
      && MayInvoke(rt, caller, signers, CreateAccountInstruction(rt, payer, target, lamports, space, owner),
                   {rt.systemProgram, payer, target}, signerSeeds)
      && SystemCreateAccount(rt, accounts, payer, target, lamports, space, owner).Ok?
    ensures r.Ok? ==> r == SystemCreateAccount(rt, accounts, payer, target, lamports, space, owner)
  {
    var check := InvokeCheck(rt, caller, signers, CreateAccountInstruction(rt, payer, target, lamports, space, owner),
                             {rt.systemProgram, payer, target}, signerSeeds);
    if check.Failure? then Err(check.error)
    else SystemCreateAccount(rt, accounts, payer, target, lamports, space, owner)
  }

  /**
   * A create_account the payer signed, signed by the caller with `seeds ++ [bump]`,
   * passes the privilege check exactly when the new account signed itself or
   * is the address those seeds derive with that bump.
   */
  lemma CreateAccountEffectBySeeds(rt: Runtime, accounts: map<Pubkey, Account>, caller: Pubkey, signers: set<Pubkey>,
                                   payer: Pubkey, target: Pubkey, lamports: U64, space: U64, owner: Pubkey,
                                   seeds: Seeds, bump: Byte)
    requires payer in signers
    ensures CreateAccountEffect(rt, accounts, caller, signers, payer, target, lamports, space, owner,
                                [seeds + [[bump]]]).Ok?
            <==>
            && (target in signers || FindProgramAddress(rt, seeds, caller) == Derived(target, bump))
            && SystemCreateAccount(rt, accounts, payer, target, lamports, space, owner).Ok?
  {
    var signed := seeds + [[bump]];
    CreateAccountMayInvoke(rt, caller, signers, payer, target, lamports, space, owner, [signed]);
    AuthorizedBySeeds(rt, caller, signers, signed, payer);
    AuthorizedBySeeds(rt, caller, signers, signed, target);
    SignsWithBump(rt, caller, seeds, bump, target);
  }

  /** An invocation naming one account, unsigned, with no signer seeds, needs only the program and that account passed. */
  lemma InvokeUnsigned(rt: Runtime, caller: Pubkey, signers: set<Pubkey>, program: Pubkey, key: Pubkey,
                       writable: bool, data: seq<Byte>, infos: set<Pubkey>)
    ensures var ix := Instruction(program, [AccountMeta(key, false, writable)], data);
            MayInvoke(rt, caller, signers, ix, infos, []) <==> program in infos && key in infos
  {
    var ix := Instruction(program, [AccountMeta(key, false, writable)], data);
    assert ix.accounts[0] in ix.accounts;
  }

  /**
   * The ledger: every account by address, and every cross-program invocation
   * issued so far, in order. Only the programs' own code changes it.
   */
  class Ledger {
    const rt: Runtime
    var accounts: map<Pubkey, Account>
    var invocations: seq<Invocation>

    constructor (rt: Runtime, accounts: map<Pubkey, Account>)
      ensures this.rt == rt && this.accounts == accounts && invocations == []
    {
      this.rt := rt;
      this.accounts := accounts;
      invocations := [];
    }

    /** `invoke_signed(&system_instruction::create_account(..), [payer, target, system], signerSeeds)`. */
    method CreateAccount(caller: Pubkey, signers: set<Pubkey>, payer: Pubkey, target: Pubkey,
                         lamports: U64, space: U64, owner: Pubkey, signerSeeds: seq<Seeds>)
      returns (r: Outcome)
      modifies this
      ensures var next := CreateAccountEffect(rt, old(accounts), caller, signers, payer, target, lamports, space, owner,
                                              signerSeeds);
              && (r.Success? <==> next.Ok?)
              && (r.Success? ==>
                    && accounts == next.value
                    && invocations == old(invocations) + [Invocation(caller,
                         CreateAccountInstruction(rt, payer, target, lamports, space, owner), signerSeeds)])
              && (r.Failure? ==> r.error == next.error && accounts == old(accounts) && invocations == old(invocations))
    {
      var ix := CreateAccountInstruction(rt, payer, target, lamports, space, owner);
      r := InvokeCheck(rt, caller, signers, ix, {rt.systemProgram, payer, target}, signerSeeds);
      if r.Failure? {
        return;
      }
      var next := SystemCreateAccount(rt, accounts, payer, target, lamports, space, owner);
      if next.Err? {
        return Failure(next.error);
      }
      accounts := next.value;
      invocations := invocations + [Invocation(caller, ix, signerSeeds)];
    }

    /**
     * `invoke` / `invoke_signed` of an instruction for another program. The
     * callee's own execution is not part of this model; the invocation is recorded.
     */
    method Invoke(caller: Pubkey, signers: set<Pubkey>, ix: Instruction, infos: set<Pubkey>, signerSeeds: seq<Seeds>)
      returns (r: Outcome)
      modifies this`invocations
      ensures r == InvokeCheck(rt, caller, signers, ix, infos, signerSeeds)
      ensures invocations == if r.Success? then old(invocations) + [Invocation(caller, ix, signerSeeds)]
                             else old(invocations)
    {
      r := InvokeCheck(rt, caller, signers, ix, infos, signerSeeds);
      if r.Success? {
        invocations := invocations + [Invocation(caller, ix, signerSeeds)];
      }
    }
  }
}
