/** Properties that relate several instructions: the coherence of a transaction
    with its multisig, idempotent and monotone approval, staleness after an
    owner change, one-time execution and the reach of the derived signer. */
module Invariants {
  import opened Outcomes
  import opened Instructions
  import opened Protocol

  // ----- approval counting -----

  /** Setting one slot of a bitmap adds one approval if the slot was clear and
      none if it was already set. */
  lemma {:induction false} CountSet(signers: seq<bool>, i: nat)
    requires i < |signers|
    ensures CountTrue(signers[i := true]) == CountTrue(signers) + (if signers[i] then 0 else 1)
  {
    if i == 0 {
      assert signers[i := true][1..] == signers[1..];
    } else {
      assert signers[i := true][1..] == signers[1..][i - 1 := true];
      CountSet(signers[1..], i - 1);
    }
  }

  /** A bitmap with a single set slot holds exactly one approval. */
  lemma {:induction false} CountSingle(n: nat, i: nat)
    requires i < n
    ensures CountTrue(seq(n, j => j == i)) == 1
  {
    var s := seq(n, j => j == i);
    if i == 0 {
      assert s[1..] == seq(n - 1, j => false);
      assert CountTrue(s[1..]) == 0 by { CountNone(n - 1); }
    } else {
      assert s[1..] == seq(n - 1, j => j == i - 1);
      CountSingle(n - 1, i - 1);
    }
  }

  /** A bitmap with no set slot holds no approval. */
  lemma {:induction false} CountNone(n: nat)
    ensures CountTrue(seq(n, j => false)) == 0
  {
    if n > 0 {
      assert seq(n, j => false)[1..] == seq(n - 1, j => false);
      CountNone(n - 1);
    }
  }

  /** A new transaction carries exactly one approval, its proposer's. */
  lemma CreatedWithOneApproval(
    msKey: Pubkey, ms: MultisigState, proposer: SignerAccount,
    programId: Pubkey, accounts: seq<TransactionAccount>, data: seq<Byte>)
    requires CreateTransaction(msKey, ms, proposer, programId, accounts, data).Ok?
    ensures CountTrue(CreateTransaction(msKey, ms, proposer, programId, accounts, data).value.signers) == 1
  {
    var i := Position(ms.owners, proposer.key).value;
    CountSingle(|ms.owners|, i);
  }

  /** Approval never removes an approval and adds at most one. */
  lemma ApprovalMonotone(msKey: Pubkey, ms: MultisigState, tx: TransactionState, owner: SignerAccount)
    requires Approve(msKey, ms, tx, owner).Ok?
    ensures var n := CountTrue(Approve(msKey, ms, tx, owner).value.signers);
            CountTrue(tx.signers) <= n <= CountTrue(tx.signers) + 1
    ensures forall j :: 0 <= j < |tx.signers| && tx.signers[j] ==> Approve(msKey, ms, tx, owner).value.signers[j]
  {
    var i := Position(ms.owners, owner.key).value;
    CountSet(tx.signers, i);
  }

  /** Approving twice with the same owner gives the same transaction as
      approving once. */
  lemma ApproveIdempotent(msKey: Pubkey, ms: MultisigState, tx: TransactionState, owner: SignerAccount)
    requires Approve(msKey, ms, tx, owner).Ok?
    ensures Approve(msKey, ms, Approve(msKey, ms, tx, owner).value, owner) == Approve(msKey, ms, tx, owner)
  {
    var i := Position(ms.owners, owner.key).value;
    assert tx.signers[i := true][i := true] == tx.signers[i := true];
  }

  // ----- coherence of a transaction with its multisig -----

  /** A transaction of the multisig at `msKey` was created under a seqno no
      later than the multisig's, and while the two seqnos agree its bitmap has
      one slot per current owner. */
  predicate Coherent(msKey: Pubkey, ms: MultisigState, tx: TransactionState)
  {
    tx.multisig == msKey ==>
      && tx.ownerSetSeqno <= ms.ownerSetSeqno
      && (tx.ownerSetSeqno == ms.ownerSetSeqno ==> |tx.signers| == |ms.owners|)
  }

  /** A new transaction is coherent with the multisig it was created for. */
  lemma CreateCoherent(
    msKey: Pubkey, ms: MultisigState, proposer: SignerAccount,
    programId: Pubkey, accounts: seq<TransactionAccount>, data: seq<Byte>)
    requires CreateTransaction(msKey, ms, proposer, programId, accounts, data).Ok?
    ensures Coherent(msKey, ms, CreateTransaction(msKey, ms, proposer, programId, accounts, data).value)
  {
  }

  /** Approval keeps a transaction coherent. */
  lemma ApproveCoherent(msKey: Pubkey, ms: MultisigState, tx: TransactionState, owner: SignerAccount)
    requires Coherent(msKey, ms, tx) && Approve(msKey, ms, tx, owner).Ok?
    ensures Coherent(msKey, ms, Approve(msKey, ms, tx, owner).value)
  {
  }

  /** The index write of `approve` stays inside the bitmap for a coherent
      transaction: the out-of-range abort cannot happen. */
  lemma ApproveInBounds(msKey: Pubkey, ms: MultisigState, tx: TransactionState, owner: SignerAccount)
    requires Coherent(msKey, ms, tx)
    ensures Approve(msKey, ms, tx, owner) != Err(IndexOutOfBounds)
    ensures ApproveAccountsValid(msKey, ms, tx, owner) && owner.key in ms.owners ==> Approve(msKey, ms, tx, owner).Ok?
  {
  }

  /** While the seqnos agree, a coherent transaction has no more approvals than
      the multisig has owners. */
  lemma ApprovalsWithinOwners(msKey: Pubkey, ms: MultisigState, tx: TransactionState)
    requires Coherent(msKey, ms, tx) && tx.multisig == msKey && tx.ownerSetSeqno == ms.ownerSetSeqno
    ensures CountTrue(tx.signers) <= |ms.owners|
  {
  }

  /** A governance instruction keeps every transaction of the multisig
      coherent with it. */
  lemma GovernCoherent(msKey: Pubkey, ms: MultisigState, tx: TransactionState,
                       signer: SignerAccount, derive: Derive, op: GovernanceOp)
    requires Coherent(msKey, ms, tx) && Govern(msKey, ms, signer, derive, op).Ok?
    ensures Coherent(msKey, Govern(msKey, ms, signer, derive, op).value, tx)
  {
  }

  /** Execution keeps the executed transaction, and every other transaction of
      the multisig, coherent with the multisig. */
  lemma ExecuteCoherent(msKey: Pubkey, ms: MultisigState, tx: TransactionState, other: TransactionState,
                        signer: Pubkey, derive: Derive, inv: Invocation)
    requires Coherent(msKey, ms, tx) && Coherent(msKey, ms, other)
    requires Execute(msKey, ms, tx, signer, derive, inv).Ok?
    ensures var e := Execute(msKey, ms, tx, signer, derive, inv).value;
            Coherent(msKey, e.ms, e.tx) && Coherent(msKey, e.ms, other)
  {
    var ix := SignedInstruction(tx, signer);
    match inv
    case External(_) =>
    case SelfGovernance(op) =>
      var credential := SignerAccount(signer, SignsAs(ix, signer));
      GovernCoherent(msKey, ms, tx, credential, derive, op);
      GovernCoherent(msKey, ms, other, credential, derive, op);
  }

  // ----- account constraints -----

  /** `approve` is refused whenever its account constraints fail, with the
      error of the first failing constraint in field order. */
  lemma ApproveRefusedOnInvalidAccounts(msKey: Pubkey, ms: MultisigState, tx: TransactionState, owner: SignerAccount)
    requires !ApproveAccountsValid(msKey, ms, tx, owner)
    ensures Approve(msKey, ms, tx, owner) ==
      if ms.ownerSetSeqno != tx.ownerSetSeqno then Err(ConstraintRaw)
      else if tx.multisig != msKey then Err(ConstraintHasOne)
      else Err(ConstraintSigner)
  {
  }

  /** `execute_transaction` is refused whenever its account constraints fail,
      whatever it would invoke, with the error of the first failing constraint
      in field order. */
  lemma ExecuteRefusedOnInvalidAccounts(msKey: Pubkey, ms: MultisigState, tx: TransactionState,
                                        signer: Pubkey, derive: Derive, inv: Invocation)
    requires !ExecuteAccountsValid(msKey, ms, tx, signer, derive)
    ensures Execute(msKey, ms, tx, signer, derive, inv) ==
      if ms.ownerSetSeqno != tx.ownerSetSeqno then Err(ConstraintRaw)
      else if signer != derive(msKey, ms.nonce) then Err(ConstraintSeeds)
      else Err(ConstraintHasOne)
  {
  }

  // ----- staleness and one-time execution -----

  /** Once the owner list is replaced, no transaction created before can be
      approved or executed: both fail the seqno constraint. */
  lemma StaleAfterOwnerChange(msKey: Pubkey, ms: MultisigState, tx: TransactionState,
                              signer: SignerAccount, derive: Derive, op: GovernanceOp,
                              owner: SignerAccount, execSigner: Pubkey, inv: Invocation)
    requires Coherent(msKey, ms, tx) && tx.multisig == msKey
    requires ChangesOwners(op) && Govern(msKey, ms, signer, derive, op).Ok?
    ensures var ms' := Govern(msKey, ms, signer, derive, op).value;
            && Approve(msKey, ms', tx, owner) == Err(ConstraintRaw)
            && Execute(msKey, ms', tx, execSigner, derive, inv) == Err(ConstraintRaw)
  {
  }

  /** A transaction runs at most once: after a successful execution, executing
      it again fails, with AlreadyExecuted unless the execution itself replaced
      the owner list (then with the seqno constraint). */
  lemma ExecuteAtMostOnce(msKey: Pubkey, ms: MultisigState, tx: TransactionState,
                          signer: Pubkey, derive: Derive, inv: Invocation,
                          signer': Pubkey, inv': Invocation)
    requires Execute(msKey, ms, tx, signer, derive, inv).Ok?
    ensures var e := Execute(msKey, ms, tx, signer, derive, inv).value;
            var again := Execute(msKey, e.ms, e.tx, signer', derive, inv');
            again.Err? && (again.error == AlreadyExecuted || again.error == ConstraintRaw || again.error == ConstraintSeeds)
            && (e.ms.ownerSetSeqno == ms.ownerSetSeqno && signer' == signer ==> again == Err(AlreadyExecuted))
  {
  }

  /** A multisig whose threshold exceeds its owner count can execute none of
      its coherent transactions, whatever the approvals. */
  lemma ThresholdAboveOwnersBlocksExecution(msKey: Pubkey, ms: MultisigState, tx: TransactionState,
                                            signer: Pubkey, derive: Derive, inv: Invocation)
    requires Coherent(msKey, ms, tx) && ms.threshold > |ms.owners|
    ensures Execute(msKey, ms, tx, signer, derive, inv).Err?
  {
  }

  /** If the threshold is within the owner count before an execution, it is
      within the new owner count after it. */
  lemma ExecuteKeepsThresholdBound(msKey: Pubkey, ms: MultisigState, tx: TransactionState,
                                   signer: Pubkey, derive: Derive, inv: Invocation)
    requires ms.threshold <= |ms.owners| && Execute(msKey, ms, tx, signer, derive, inv).Ok?
    ensures var e := Execute(msKey, ms, tx, signer, derive, inv).value;
            e.ms.threshold <= |e.ms.owners|
  {
  }

  // ----- the derived signer -----

  /** The invoked instruction passes the derived address as a signer exactly
      when the transaction lists that address. */
  lemma SignsIffListed(tx: TransactionState, signer: Pubkey)
    ensures SignsAs(SignedInstruction(tx, signer), signer) <==> Lists(tx.accounts, signer)
  {
  }

  /** A governance change reached through execution needs the transaction to
      list the derived address; without it the call back is refused. */
  lemma SelfGovernanceNeedsListedSigner(msKey: Pubkey, ms: MultisigState, tx: TransactionState,
                                        signer: Pubkey, derive: Derive, op: GovernanceOp)
    requires ExecuteAccountsValid(msKey, ms, tx, signer, derive) && !tx.didExecute
    requires CountTrue(tx.signers) >= ms.threshold
    ensures Execute(msKey, ms, tx, signer, derive, SelfGovernance(op)).Ok? ==> Lists(tx.accounts, signer)
    ensures !Lists(tx.accounts, signer) ==>
      Execute(msKey, ms, tx, signer, derive, SelfGovernance(op)) == Err(ConstraintSigner)
  {
    SignsIffListed(tx, signer);
  }
}
