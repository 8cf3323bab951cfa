/** Concrete runs of the program: a three-owner group with threshold two, an
    owner change that makes an older proposal stale, an owner removal that
    lowers the threshold, and a threshold change that is refused. */
module Scenarios {
  import opened Outcomes
  import opened Instructions
  import opened Protocol
  import opened Invariants
  import Program

  const X: Pubkey := 1
  const Y: Pubkey := 2
  const Z: Pubkey := 3
  const W: Pubkey := 4

  /** X proposes, Y approves, the transaction executes once; a second
      execution is refused. Run on the account objects. */
  method TwoOfThree(msKey: Pubkey, derive: Derive, target: Pubkey, data: seq<Byte>)
    returns (first: Result<Instruction>, second: Result<Instruction>)
    ensures first.Ok? && first.value.programId == target && first.value.data == data
    ensures second == Err(AlreadyExecuted)
  {
    var ms := new Program.Multisig(msKey, [X, Y, Z], 2, 7);
    var pda := derive(msKey, 7);
    var created := Program.CreateTransaction(ms, SignerAccount(X, true), target, [], data);
    assert Position([X, Y, Z], X) == Some(0);
    var tx := created.value;
    assert tx.signers == [true, false, false];
    var approved := tx.Approve(ms, SignerAccount(Y, true));
    assert Position([X, Y, Z], Y) == Some(1);
    assert tx.signers == [true, true, false];
    assert CountTrue(tx.signers) == 2 by { TwoApprovals(tx.signers); }
    first := tx.Execute(ms, pda, derive, External(true));
    second := tx.Execute(ms, pda, derive, External(true));
  }

  /** An owner change (the governance instruction that a second, executed
      proposal invokes, applied here directly) makes the first proposal stale:
      approving it fails the seqno constraint. */
  lemma OwnerChangeMakesProposalStale(msKey: Pubkey, derive: Derive)
    ensures var ms := MultisigState([X, Y, Z], 2, 7, 0);
            var pda := SignerAccount(derive(msKey, 7), true);
            var original := CreateTransaction(msKey, ms, SignerAccount(X, true), 9, [], []);
            var ms' := Govern(msKey, ms, pda, derive, SetOwnersOp([X, Y, Z, W]));
            && original.Ok? && ms'.Ok?
            && Approve(msKey, ms'.value, original.value, SignerAccount(Y, true)) == Err(ConstraintRaw)
  {
    var ms := MultisigState([X, Y, Z], 2, 7, 0);
    assert Position(ms.owners, X) == Some(0);
  }

  /** Two owners, threshold two; the governance instruction replacing the
      owners by X alone (applied directly, as the executed proposal would
      invoke it) lowers the threshold to one and bumps the seqno. */
  lemma RemovingAnOwnerLowersThreshold(msKey: Pubkey, derive: Derive)
    ensures var ms := MultisigState([X, Y], 2, 7, 0);
            Govern(msKey, ms, SignerAccount(derive(msKey, 7), true), derive, SetOwnersOp([X]))
              == Ok(MultisigState([X], 1, 7, 1))
  {
  }

  /** A quorum-approved proposal to set threshold five on three owners fails
      with InvalidThreshold and stays unexecuted, so nothing changes. */
  lemma ThresholdAboveOwnersRefused(msKey: Pubkey, derive: Derive, tx: TransactionState)
    requires tx.multisig == msKey && tx.ownerSetSeqno == 0 && !tx.didExecute
    requires tx.signers == [true, true, false]
    requires Lists(tx.accounts, derive(msKey, 7))
    ensures var ms := MultisigState([X, Y, Z], 2, 7, 0);
            Execute(msKey, ms, tx, derive(msKey, 7), derive, SelfGovernance(ChangeThresholdOp(5)))
              == Err(InvalidThreshold)
  {
    TwoApprovals(tx.signers);
    SignsIffListed(tx, derive(msKey, 7));
  }

  /** The bitmap of the scenarios after X and Y approved counts two approvals. */
  lemma TwoApprovals(signers: seq<bool>)
    requires signers == [true, true, false]
    ensures CountTrue(signers) == 2
  {
    assert [false][1..] == [];
    assert CountTrue([false]) == 0;
    assert [true, false][1..] == [false];
    assert CountTrue([true, false]) == 1;
    assert signers[1..] == [true, false];
  }
}
