/** The multisig state machine on value snapshots of the two accounts. Every
    instruction is a function from the accounts it reads to either an error or
    the new contents of the accounts it writes; the classes in module Program
    are proved to compute exactly these functions. */
module Protocol {
  import opened Outcomes
  import opened Instructions

  /** Address derivation from the multisig's own key and its nonce; supplied by
      the host runtime. */
  type Derive = (Pubkey, nat) -> Pubkey

  /** The contents of a multisig account (the free-text description and the
      unused lamports counter are not modelled). */
  datatype MultisigState = MultisigState(
    owners: seq<Pubkey>,
    threshold: nat,
    nonce: nat,
    ownerSetSeqno: nat)

  /** The contents of a transaction account. */
  datatype TransactionState = TransactionState(
    multisig: Pubkey,
    programId: Pubkey,
    accounts: seq<TransactionAccount>,
    data: seq<Byte>,
    signers: seq<bool>,
    didExecute: bool,
    ownerSetSeqno: nat)

  /** An account passed to an instruction, with the flag saying whether it
      signed that instruction. */
  datatype SignerAccount = SignerAccount(key: Pubkey, isSigner: bool)

  // ----- Owner lookup and approval counting -----

  /** True when `j` is the first position at which `key` occurs in `owners`. */
  predicate FirstOccurrence(owners: seq<Pubkey>, j: int, key: Pubkey)
  {
    0 <= j < |owners| && owners[j] == key && key !in owners[..j]
  }

  /** The position of the first owner equal to `key`, if there is one. */
  function Position(owners: seq<Pubkey>, key: Pubkey): (r: Option<nat>)
    ensures r.None? <==> key !in owners
    ensures r.Some? ==> FirstOccurrence(owners, r.value, key)
  {
    if owners == [] then None
    else if owners[0] == key then Some(0)
    else match Position(owners[1..], key)
      case None => None
      case Some(i) =>
        assert owners[..i + 1] == [owners[0]] + owners[1..][..i];
        Some(i + 1)
  }

  /** The number of approvals in a signer bitmap; never more than its length,
      and equal to its length exactly when every slot is set. */
  function CountTrue(signers: seq<bool>): (n: nat)
    ensures n <= |signers|
    ensures n == |signers| <==> forall i :: 0 <= i < |signers| ==> signers[i]
  {
    if signers == [] then 0
    else (if signers[0] then 1 else 0) + CountTrue(signers[1..])
  }

  // ----- create_transaction -----

  /** The proposal built by `create_transaction` for the multisig at `msKey`:
      the proposer must sign and be an owner; the bitmap has one slot per owner,
      set only at the proposer's first position. */
  function CreateTransaction(
    msKey: Pubkey, ms: MultisigState, proposer: SignerAccount,
    programId: Pubkey, accounts: seq<TransactionAccount>, data: seq<Byte>
  ): (r: Result<TransactionState>)
    ensures r.Ok? <==> proposer.isSigner && proposer.key in ms.owners
    ensures !proposer.isSigner ==> r == Err(ConstraintSigner)
    ensures proposer.isSigner && proposer.key !in ms.owners ==> r == Err(InvalidOwner)
    ensures r.Ok? ==>
      && r.value.multisig == msKey
      && r.value.programId == programId
      && r.value.accounts == accounts
      && r.value.data == data
      && !r.value.didExecute
      && r.value.ownerSetSeqno == ms.ownerSetSeqno
      && |r.value.signers| == |ms.owners|
      && forall j :: 0 <= j < |ms.owners| ==>
           (r.value.signers[j] <==> FirstOccurrence(ms.owners, j, proposer.key))
  {
    if !proposer.isSigner then Err(ConstraintSigner)
    else match Position(ms.owners, proposer.key)
      case None => Err(InvalidOwner)
      case Some(i) =>
        Ok(TransactionState(msKey, programId, accounts, data,
                            seq(|ms.owners|, j => j == i), false, ms.ownerSetSeqno))
  }

  // ----- approve -----

  /** `approve`: the account constraints (seqno equality, `has_one = multisig`,
      the owner's signature) and then the owner lookup; on success exactly the
      slot at the owner's first position is set and nothing else changes. */
  function Approve(msKey: Pubkey, ms: MultisigState, tx: TransactionState, owner: SignerAccount)
    : (r: Result<TransactionState>)
    ensures ms.ownerSetSeqno != tx.ownerSetSeqno ==> r == Err(ConstraintRaw)
    ensures ms.ownerSetSeqno == tx.ownerSetSeqno && tx.multisig != msKey ==> r == Err(ConstraintHasOne)
    ensures r.Err? && r.error == InvalidOwner <==>
      ApproveAccountsValid(msKey, ms, tx, owner) && owner.key !in ms.owners
    ensures r.Ok? ==>
      && ApproveAccountsValid(msKey, ms, tx, owner)
      && owner.key in ms.owners
      && |r.value.signers| == |tx.signers|
      && r.value.(signers := tx.signers) == tx
      && forall j :: 0 <= j < |tx.signers| ==>
           (r.value.signers[j] <==> tx.signers[j] || FirstOccurrence(ms.owners, j, owner.key))
  {
    if ms.ownerSetSeqno != tx.ownerSetSeqno then Err(ConstraintRaw)
    else if tx.multisig != msKey then Err(ConstraintHasOne)
    else if !owner.isSigner then Err(ConstraintSigner)
    else match Position(ms.owners, owner.key)
      case None => Err(InvalidOwner)
      case Some(i) =>
        if i < |tx.signers| then Ok(tx.(signers := tx.signers[i := true]))
        else Err(IndexOutOfBounds)
  }

  /** The account constraints of `approve`. */
  predicate ApproveAccountsValid(msKey: Pubkey, ms: MultisigState, tx: TransactionState, owner: SignerAccount)
  {
    ms.ownerSetSeqno == tx.ownerSetSeqno && tx.multisig == msKey && owner.isSigner
  }

  // ----- governance: set_owners, change_threshold and both at once -----

  /** The `Auth` constraints: the signer account must have signed and must be
      the address derived from the multisig's key and nonce. */
  function Authorize(msKey: Pubkey, ms: MultisigState, signer: SignerAccount, derive: Derive)
    : (r: Option<ErrorCode>)
    ensures r.None? <==> signer.isSigner && signer.key == derive(msKey, ms.nonce)
  {
    if !signer.isSigner then Some(ConstraintSigner)
    else if signer.key != derive(msKey, ms.nonce) then Some(ConstraintSeeds)
    else None
  }

  /** The `set_owners` handler: replaces the owners, lowers the threshold to
      the new owner count when it would exceed it, and bumps the seqno. */
  function SetOwners(ms: MultisigState, owners: seq<Pubkey>): (r: MultisigState)
    ensures r.owners == owners && r.nonce == ms.nonce
    ensures r.ownerSetSeqno == ms.ownerSetSeqno + 1
    ensures r.threshold <= |owners| && r.threshold <= ms.threshold
    ensures ms.threshold <= |owners| ==> r.threshold == ms.threshold
    ensures |owners| < ms.threshold ==> r.threshold == |owners|
  {
    var threshold := if |owners| < ms.threshold then |owners| else ms.threshold;
    ms.(owners := owners, threshold := threshold, ownerSetSeqno := ms.ownerSetSeqno + 1)
  }

  /** The `change_threshold` handler: a threshold above the owner count is
      refused; otherwise only the threshold changes. */
  function ChangeThreshold(ms: MultisigState, threshold: nat): (r: Result<MultisigState>)
    ensures r.Err? <==> threshold > |ms.owners|
    ensures r.Err? ==> r.error == InvalidThreshold
    ensures r.Ok? ==> r.value.threshold == threshold && r.value.(threshold := ms.threshold) == ms
  {
    if threshold > |ms.owners| then Err(InvalidThreshold)
    else Ok(ms.(threshold := threshold))
  }

  /** The `set_owners_and_change_threshold` handler: `set_owners`, then
      `change_threshold` against the new owner list. */
  function SetOwnersAndChangeThreshold(ms: MultisigState, owners: seq<Pubkey>, threshold: nat)
    : (r: Result<MultisigState>)
    ensures r.Err? <==> threshold > |owners|
    ensures r.Err? ==> r.error == InvalidThreshold
    ensures r.Ok? ==> r.value == MultisigState(owners, threshold, ms.nonce, ms.ownerSetSeqno + 1)
  {
    ChangeThreshold(SetOwners(ms, owners), threshold)
  }

  /** The three governance instructions. */
  datatype GovernanceOp =
    | SetOwnersOp(owners: seq<Pubkey>)
    | ChangeThresholdOp(threshold: nat)
    | SetOwnersAndChangeThresholdOp(owners: seq<Pubkey>, threshold: nat)

  /** True for the operations that replace the owner list. */
  predicate ChangesOwners(op: GovernanceOp)
  {
    op.SetOwnersOp? || op.SetOwnersAndChangeThresholdOp?
  }

  /** A governance instruction as a whole: the `Auth` constraints, then the
      handler. A missing signature or a wrong signer account is refused; with
      the derived address as a signer the result is the handler's. It leaves
      the threshold within the owner count, and the seqno rises by one exactly
      when the owner list is replaced. A failed instruction changes nothing, so
      the error is all there is to report. */
  function Govern(msKey: Pubkey, ms: MultisigState, signer: SignerAccount, derive: Derive, op: GovernanceOp)
    : (r: Result<MultisigState>)
    ensures r.Ok? ==> signer.isSigner && signer.key == derive(msKey, ms.nonce)
    ensures r.Ok? ==> r.value.threshold <= |r.value.owners| && r.value.nonce == ms.nonce
    ensures r.Ok? ==> r.value.ownerSetSeqno == ms.ownerSetSeqno + (if ChangesOwners(op) then 1 else 0)
    ensures r.Ok? && !ChangesOwners(op) ==> r.value.owners == ms.owners
    ensures !signer.isSigner ==> r == Err(ConstraintSigner)
    ensures signer.isSigner && signer.key != derive(msKey, ms.nonce) ==> r == Err(ConstraintSeeds)
    ensures signer.isSigner && signer.key == derive(msKey, ms.nonce) ==>
      && (op.SetOwnersOp? ==> r == Ok(SetOwners(ms, op.owners)))
      && (op.ChangeThresholdOp? ==> r == ChangeThreshold(ms, op.threshold))
      && (op.SetOwnersAndChangeThresholdOp? ==> r == SetOwnersAndChangeThreshold(ms, op.owners, op.threshold))
  {
    match Authorize(msKey, ms, signer, derive)
    case Some(e) => Err(e)
    case None =>
      match op
      case SetOwnersOp(owners) => Ok(SetOwners(ms, owners))
      case ChangeThresholdOp(threshold) => ChangeThreshold(ms, threshold)
      case SetOwnersAndChangeThresholdOp(owners, threshold) =>
        SetOwnersAndChangeThreshold(ms, owners, threshold)
  }

  // ----- execute_transaction -----

  /** What the invoked instruction does: a call into another program, which
      succeeds or fails and cannot write either account (both belong to this
      program), or a call back into one of this multisig's own governance
      instructions. */
  datatype Invocation =
    | External(succeeds: bool)
    | SelfGovernance(op: GovernanceOp)

  /** The result of a successful execution: the instruction that was invoked
      and the new contents of both accounts. */
  datatype Executed = Executed(ix: Instruction, ms: MultisigState, tx: TransactionState)

  /** The instruction a transaction converts into. */
  function ToInstruction(tx: TransactionState): (ix: Instruction)
    ensures ix.programId == tx.programId && ix.data == tx.data
    ensures AccountsOf(ix.accounts) == tx.accounts
  {
    AccountListRoundTrip(tx.accounts);
    Instruction(tx.programId, MetasOf(tx.accounts), tx.data)
  }

  /** The instruction actually invoked: the converted transaction with the
      derived address marked as a signer wherever it appears. */
  function SignedInstruction(tx: TransactionState, signer: Pubkey): (ix: Instruction)
    ensures ix.programId == tx.programId && ix.data == tx.data
    ensures |ix.accounts| == |tx.accounts|
    ensures forall i :: 0 <= i < |ix.accounts| ==>
      && ix.accounts[i].pubkey == tx.accounts[i].pubkey
      && ix.accounts[i].isWritable == tx.accounts[i].isWritable
      && (ix.accounts[i].isSigner <==> tx.accounts[i].isSigner || tx.accounts[i].pubkey == signer)
  {
    var ix := ToInstruction(tx);
    ix.(accounts := MarkSigner(ix.accounts, signer))
  }

  /** Runs the invoked instruction. A call into another program leaves the
      multisig as it was; a call back into governance sees the derived address
      as a signer exactly when the instruction passes it as one, so it can
      succeed only then, and it keeps the threshold within the owner count. */
  function Invoke(msKey: Pubkey, ms: MultisigState, ix: Instruction, signer: Pubkey, derive: Derive, inv: Invocation)
    : (r: Result<MultisigState>)
    ensures inv.External? ==> (r.Ok? <==> inv.succeeds) && (r.Ok? ==> r.value == ms)
    ensures inv.SelfGovernance? && r.Ok? ==>
      && SignsAs(ix, signer) && signer == derive(msKey, ms.nonce)
      && r.value.threshold <= |r.value.owners| && r.value.nonce == ms.nonce
    ensures inv.SelfGovernance? ==>
      r == Govern(msKey, ms, SignerAccount(signer, SignsAs(ix, signer)), derive, inv.op)
  {
    match inv
    case External(succeeds) => if succeeds then Ok(ms) else Err(InvocationFailed)
    case SelfGovernance(op) => Govern(msKey, ms, SignerAccount(signer, SignsAs(ix, signer)), derive, op)
  }

  /** The account constraints of `execute_transaction`, in field order: seqno
      equality on `multisig`, the derived address for `multisig_signer`, and
      `has_one = multisig` on `transaction`. */
  predicate ExecuteAccountsValid(msKey: Pubkey, ms: MultisigState, tx: TransactionState, signer: Pubkey, derive: Derive)
  {
    && ms.ownerSetSeqno == tx.ownerSetSeqno
    && signer == derive(msKey, ms.nonce)
    && tx.multisig == msKey
  }

  /** `execute_transaction`: after the account constraints, a transaction
      already executed is refused whatever its approvals; then the approvals
      must reach the threshold; then the signed instruction is invoked, and only
      if that succeeds is the transaction burnt. Once the checks pass, the
      execution succeeds exactly when the invocation does, and a call back into
      governance leaves the multisig as that governance instruction makes it.
      On success nothing in the transaction but `didExecute` changes. */
  function Execute(msKey: Pubkey, ms: MultisigState, tx: TransactionState, signer: Pubkey, derive: Derive, inv: Invocation)
    : (r: Result<Executed>)
    ensures ms.ownerSetSeqno != tx.ownerSetSeqno ==> r == Err(ConstraintRaw)
    ensures ExecuteAccountsValid(msKey, ms, tx, signer, derive) && tx.didExecute ==> r == Err(AlreadyExecuted)
    ensures (ExecuteAccountsValid(msKey, ms, tx, signer, derive) && !tx.didExecute
             && CountTrue(tx.signers) < ms.threshold) ==> r == Err(NotEnoughSigners)
    ensures r.Ok? ==>
      && ExecuteAccountsValid(msKey, ms, tx, signer, derive)
      && !tx.didExecute && CountTrue(tx.signers) >= ms.threshold
      && r.value.ix == SignedInstruction(tx, signer)
      && r.value.tx == tx.(didExecute := true)
    ensures r.Ok? && inv.External? ==> inv.succeeds && r.value.ms == ms
    ensures (ExecuteAccountsValid(msKey, ms, tx, signer, derive) && !tx.didExecute
             && CountTrue(tx.signers) >= ms.threshold && inv == External(false)) ==> r == Err(InvocationFailed)
    ensures (ExecuteAccountsValid(msKey, ms, tx, signer, derive) && !tx.didExecute
             && CountTrue(tx.signers) >= ms.threshold && inv == External(true)) ==>
      r == Ok(Executed(SignedInstruction(tx, signer), ms, tx.(didExecute := true)))
    ensures (ExecuteAccountsValid(msKey, ms, tx, signer, derive) && !tx.didExecute
             && CountTrue(tx.signers) >= ms.threshold && inv.SelfGovernance?) ==>
      var ix := SignedInstruction(tx, signer);
      r == match Govern(msKey, ms, SignerAccount(signer, SignsAs(ix, signer)), derive, inv.op)
           case Ok(ms') => Ok(Executed(ix, ms', tx.(didExecute := true)))
           case Err(e) => Err(e)
  {
    if ms.ownerSetSeqno != tx.ownerSetSeqno then Err(ConstraintRaw)
    else if signer != derive(msKey, ms.nonce) then Err(ConstraintSeeds)
    else if tx.multisig != msKey then Err(ConstraintHasOne)
    else if tx.didExecute then Err(AlreadyExecuted)
    else if CountTrue(tx.signers) < ms.threshold then Err(NotEnoughSigners)
    else
      var ix := SignedInstruction(tx, signer);
      match Invoke(msKey, ms, ix, signer, derive, inv)
      case Err(e) => Err(e)
      case Ok(ms') => Ok(Executed(ix, ms', tx.(didExecute := true)))
  }
}
