/** The on-chain program: the multisig and transaction accounts as objects whose
    fields the instructions update in place. Each instruction is proved to
    compute the function of module Protocol that describes it, and a failed
    instruction leaves both accounts as they were. */
module Program {
  import opened Outcomes
  import opened Instructions
  import opened Protocol

  /** A multisig account. */
  class Multisig {
    const key: Pubkey
    var owners: seq<Pubkey>
    var threshold: nat
    var nonce: nat
    var ownerSetSeqno: nat

    function State(): MultisigState
      reads this
    {
      MultisigState(owners, threshold, nonce, ownerSetSeqno)
    }

    /** `create_multisig`: the account at `key` receives the owners, threshold
        and nonce as given (none of them is checked) and seqno 0. */
    constructor (key: Pubkey, owners: seq<Pubkey>, threshold: nat, nonce: nat)
      ensures this.key == key
      ensures State() == MultisigState(owners, threshold, nonce, 0)
    {
      this.key := key;
      this.owners := owners;
      this.threshold := threshold;
      this.nonce := nonce;
      this.ownerSetSeqno := 0;
    }

    /** The `set_owners` handler. */
    method SetOwners(newOwners: seq<Pubkey>)
      modifies this
      ensures State() == Protocol.SetOwners(old(State()), newOwners)
    {
      if |newOwners| < threshold {
        threshold := |newOwners|;
      }
      owners := newOwners;
      ownerSetSeqno := ownerSetSeqno + 1;
    }

    /** The `change_threshold` handler. */
    method ChangeThreshold(newThreshold: nat) returns (r: Result<()>)
      modifies this
      ensures match Protocol.ChangeThreshold(old(State()), newThreshold)
        case Ok(s) => r == Ok(()) && State() == s
        case Err(e) => r == Err(e) && State() == old(State())
    {
      if newThreshold > |owners| {
        return Err(InvalidThreshold);
      }
      threshold := newThreshold;
      return Ok(());
    }

    /** The `set_owners_and_change_threshold` handler. When the threshold is
        refused, the owner change made just before is still in the account;
        the instruction as a whole is rolled back by `Govern`. */
    method SetOwnersAndChangeThreshold(newOwners: seq<Pubkey>, newThreshold: nat) returns (r: Result<()>)
      modifies this
      ensures match Protocol.SetOwnersAndChangeThreshold(old(State()), newOwners, newThreshold)
        case Ok(s) => r == Ok(()) && State() == s
        case Err(e) => r == Err(e) && State() == Protocol.SetOwners(old(State()), newOwners)
    {
      SetOwners(newOwners);
      r := ChangeThreshold(newThreshold);
    }

    /** A governance instruction: the `Auth` constraints, then the handler; a
        failed instruction leaves the account as it was. */
    method Govern(signer: SignerAccount, derive: Derive, op: GovernanceOp) returns (r: Result<()>)
      modifies this
      ensures match Protocol.Govern(key, old(State()), signer, derive, op)
        case Ok(s) => r == Ok(()) && State() == s
        case Err(e) => r == Err(e) && State() == old(State())
    {
      var denied := Authorize(key, State(), signer, derive);
      if denied.Some? {
        return Err(denied.value);
      }
      var before := State();
      match op {
        case SetOwnersOp(newOwners) =>
          SetOwners(newOwners);
          r := Ok(());
        case ChangeThresholdOp(newThreshold) =>
          r := ChangeThreshold(newThreshold);
        case SetOwnersAndChangeThresholdOp(newOwners, newThreshold) =>
          r := SetOwnersAndChangeThreshold(newOwners, newThreshold);
      }
      if r.Err? {
        // the runtime discards the writes of a failed instruction
        owners, threshold, nonce, ownerSetSeqno := before.owners, before.threshold, before.nonce, before.ownerSetSeqno;
      }
    }
  }

  /** A transaction account. */
  class Transaction {
    var multisig: Pubkey
    var programId: Pubkey
    var accounts: seq<TransactionAccount>
    var data: seq<Byte>
    var signers: seq<bool>
    var didExecute: bool
    var ownerSetSeqno: nat

    function State(): TransactionState
      reads this
    {
      TransactionState(multisig, programId, accounts, data, signers, didExecute, ownerSetSeqno)
    }

    /** Fills a fresh transaction account with a proposal not yet executed. */
    constructor (multisig: Pubkey, programId: Pubkey, accounts: seq<TransactionAccount>,
                 data: seq<Byte>, signers: seq<bool>, ownerSetSeqno: nat)
      ensures State() == TransactionState(multisig, programId, accounts, data, signers, false, ownerSetSeqno)
    {
      this.programId := programId;
      this.accounts := accounts;
      this.data := data;
      this.signers := signers;
      this.multisig := multisig;
      this.didExecute := false;
      this.ownerSetSeqno := ownerSetSeqno;
    }

    /** `approve`: the account constraints, the owner lookup, then the write of
        the owner's slot. */
    method Approve(ms: Multisig, owner: SignerAccount) returns (r: Result<()>)
      modifies this
      ensures match Protocol.Approve(ms.key, ms.State(), old(State()), owner)
        case Ok(t) => r == Ok(()) && State() == t
        case Err(e) => r == Err(e) && State() == old(State())
    {
      if ms.ownerSetSeqno != ownerSetSeqno {
        return Err(ConstraintRaw);
      }
      if multisig != ms.key {
        return Err(ConstraintHasOne);
      }
      if !owner.isSigner {
        return Err(ConstraintSigner);
      }
      var ownerIndex := Position(ms.owners, owner.key);
      if ownerIndex.None? {
        return Err(InvalidOwner);
      }
      if ownerIndex.value >= |signers| {
        return Err(IndexOutOfBounds);
      }
      signers := signers[ownerIndex.value := true];
      return Ok(());
    }

    /** `execute_transaction`: the account constraints, the one-time check, the
        approval count, then the invocation of the signed instruction, which
        may call back into the multisig's governance; the transaction is burnt
        only after the invocation succeeds. */
    method Execute(ms: Multisig, signer: Pubkey, derive: Derive, inv: Invocation) returns (r: Result<Instruction>)
      modifies this, ms
      ensures match Protocol.Execute(ms.key, old(ms.State()), old(State()), signer, derive, inv)
        case Ok(e) => r == Ok(e.ix) && ms.State() == e.ms && State() == e.tx
        case Err(err) => r == Err(err) && ms.State() == old(ms.State()) && State() == old(State())
    {
      if ms.ownerSetSeqno != ownerSetSeqno {
        return Err(ConstraintRaw);
      }
      if signer != derive(ms.key, ms.nonce) {
        return Err(ConstraintSeeds);
      }
      if multisig != ms.key {
        return Err(ConstraintHasOne);
      }
      if didExecute {
        return Err(AlreadyExecuted);
      }
      var sigCount := CountTrue(signers);
      if sigCount < ms.threshold {
        return Err(NotEnoughSigners);
      }
      var ix := ToInstruction(State());
      ix := ix.(accounts := MarkSigner(ix.accounts, signer));
      match inv {
        case External(succeeds) =>
          if !succeeds {
            return Err(InvocationFailed);
          }
        case SelfGovernance(op) =>
          var outcome := ms.Govern(SignerAccount(signer, SignsAs(ix, signer)), derive, op);
          if outcome.Err? {
            return Err(outcome.error);
          }
      }
      didExecute := true;
      return Ok(ix);
    }
  }

  /** `create_transaction`: the proposer must sign and be an owner; the new
      account holds the proposal with the proposer's approval already set. */
  method CreateTransaction(ms: Multisig, proposer: SignerAccount, programId: Pubkey,
                           accounts: seq<TransactionAccount>, data: seq<Byte>)
    returns (r: Result<Transaction>)
    ensures match Protocol.CreateTransaction(ms.key, ms.State(), proposer, programId, accounts, data)
      case Ok(t) => r.Ok? && fresh(r.value) && r.value.State() == t
      case Err(e) => r == Err(e)
  {
    if !proposer.isSigner {
      return Err(ConstraintSigner);
    }
    var ownerIndex := Position(ms.owners, proposer.key);
    if ownerIndex.None? {
      return Err(InvalidOwner);
    }
    var signers := seq(|ms.owners|, _ => false);
    signers := signers[ownerIndex.value := true];
    var tx := new Transaction(ms.key, programId, accounts, data, signers, ms.ownerSetSeqno);
    return Ok(tx);
  }
}
