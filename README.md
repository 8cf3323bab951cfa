# Multisig: a verified model

A model of the Solana multisig program in `programs/multisig/src/lib.rs`: a
group of owners controls a program-derived address (PDA) and executes arbitrary
instructions under it once `threshold` of the owners have approved. A
`Multisig` account holds the owners, the threshold, the nonce of the PDA and
`owner_set_seqno`, a counter bumped on every owner change. A `Transaction`
account holds one proposed instruction, a positional approval bitmap
(`signers[i]` is owner `i`'s approval), the `did_execute` flag and the seqno at
creation. The group changes its own owners and threshold only through an
executed transaction that calls back into the program with the PDA as signer.

Files:

- `outcomes.dfy`: `Option`, `Result` and the errors the model covers:
  the program's own codes, the framework's signer, seeds, `has_one` and raw
  constraint errors, the abort on an
  out-of-range index and a failed invocation.
- `instructions.dfy`: `TransactionAccount`, `AccountMeta`, `Instruction`, the
  conversions between them (and their round trips), and the remapping that
  marks the PDA as a signer.
- `protocol.dfy`: the state machine on value snapshots of the two accounts.
  There is one function per instruction, with the account constraints as
  error results in the order they are checked.
- `invariants.dfy`: lemmas relating several instructions. They cover coherence
  of a transaction with its multisig (hence in-bounds writes), idempotent and
  monotone approval, staleness after an owner change, one-time execution, and
  when the PDA can sign.
- `program.dfy`: the accounts as classes whose methods update fields in place
  as the handlers do. Each method is proved to compute the matching
  `Protocol` function. `Multisig.ChangeThreshold`, `Multisig.Govern`,
  `Transaction.Approve` and `Transaction.Execute` are also proved to leave
  their accounts unchanged on failure. `Multisig.SetOwnersAndChangeThreshold`
  keeps the owner change when the threshold is refused, as the handler does.
  `Multisig.Govern` then rolls the instruction back.
- `scenarios.dfy`: concrete runs. The first is 2-of-3 approval with
  execution; a second execution is refused. The second is an owner change that
  makes an older proposal stale. The third is an owner removal that lowers the
  threshold. The fourth is a refused threshold change.

Modelling choices:

- Anchor validates the account constraints after all accounts are
  deserialised, one field at a time in declaration order, before the handler
  runs. So `execute_transaction` fails first on a seqno mismatch
  (`ConstraintRaw`), then on a wrong PDA (`ConstraintSeeds`), then on
  `has_one` (`ConstraintHasOne`). Only after these does it check
  `AlreadyExecuted` and then `NotEnoughSigners`. A transaction that is both
  executed and stale therefore fails with `ConstraintRaw`, not
  `AlreadyExecuted`.
- `create_multisig` validates nothing: any threshold, an empty or duplicated
  owner list. The model keeps this. `Invariants.ThresholdAboveOwnersBlocksExecution`
  shows the consequence. A group created with a threshold above its owner count
  can never execute, and so it can never repair itself. `change_threshold`
  likewise accepts 0.
- PDA derivation is the function parameter `derive(multisig key, nonce)`.
  A signature on the outer transaction is the `isSigner` flag of a
  `SignerAccount`.
- `invoke_signed` is an `Invocation`. It is either a call into another
  program, which succeeds or fails and cannot write either account (both
  belong to this program), or a call back into this multisig's own governance
  instructions. In the callee the PDA is a signer exactly when the invoked
  instruction passes it as one. After the remapping, that holds exactly when
  the transaction lists the PDA.
- A failed instruction leaves both accounts unchanged, because the runtime
  discards its writes. `Program.Multisig.Govern` makes this rollback explicit
  for `set_owners_and_change_threshold`, whose handler writes the owners
  before the threshold check can fail.
- The write `signers[owner_index] = true` aborts if the index is out of range;
  the model returns `IndexOutOfBounds` there. `Invariants.ApproveInBounds`
  proves that this cannot happen for a transaction coherent with its multisig.

## Model

| member | source | states |
|---|---|---|
| `Protocol.Position` | programs/multisig/src/lib.rs:63-69 | the lookup finds an index exactly when the key is an owner, and the index is the key's first occurrence |
| `Protocol.CountTrue` | programs/multisig/src/lib.rs:165-171 | the approval count is at most the bitmap length, and equals it exactly when every slot is set |
| `Protocol.CreateTransaction` | programs/multisig/src/lib.rs:57-85 | fails with ConstraintSigner when the proposer did not sign, and with InvalidOwner when the proposer is not an owner; otherwise the bitmap has one slot per owner, set only at the proposer's first position; the program, accounts and data are copied, `didExecute` is false and the seqno is the multisig's |
| `Program.CreateTransaction` | programs/multisig/src/lib.rs:57-85 | the handler allocates the bitmap and writes the slot in place; it yields a fresh account holding exactly what `Protocol.CreateTransaction` describes, or that function's error |
| `Program.Multisig.constructor` | programs/multisig/src/lib.rs:37-52 | the new account holds the owners, threshold and nonce as given, unchecked, with seqno 0 |
| `Protocol.Approve` | programs/multisig/src/lib.rs:89-101 | a seqno mismatch fails with ConstraintRaw and a foreign transaction with ConstraintHasOne; a non-owner fails with InvalidOwner exactly when the constraints hold; on success exactly the owner's first slot is added and every other field is unchanged |
| `Program.Transaction.Approve` | programs/multisig/src/lib.rs:89-101 | updates `signers` in place to exactly what `Protocol.Approve` gives; on error the account is unchanged |
| `Protocol.Authorize` | programs/multisig/src/lib.rs:261-271 | the `Auth` constraints admit exactly the derived address, and only when it signed |
| `Protocol.SetOwners` | programs/multisig/src/lib.rs:119-130 | the owners are replaced and the seqno rises by exactly one; the threshold drops to the new owner count when it exceeded it, and is unchanged otherwise, so afterwards it is within the owner count |
| `Program.Multisig.SetOwners` | programs/multisig/src/lib.rs:119-130 | in-place handler whose new state is `Protocol.SetOwners` of the old |
| `Protocol.ChangeThreshold` | programs/multisig/src/lib.rs:147-154 | fails with InvalidThreshold exactly when the threshold exceeds the owner count; otherwise only the threshold changes |
| `Program.Multisig.ChangeThreshold` | programs/multisig/src/lib.rs:147-154 | in-place handler matching `Protocol.ChangeThreshold`; on error the account is unchanged |
| `Protocol.SetOwnersAndChangeThreshold` | programs/multisig/src/lib.rs:105-115 | fails with InvalidThreshold exactly when the threshold exceeds the NEW owner count; otherwise owners and threshold are the new ones, the nonce is kept and the seqno rises by exactly one |
| `Program.Multisig.SetOwnersAndChangeThreshold` | programs/multisig/src/lib.rs:105-115 | runs the `set_owners` handler and then the `change_threshold` handler; when the threshold is refused the owner change is still in the account |
| `Protocol.Govern` | programs/multisig/src/lib.rs:105-154 | a missing signature fails with ConstraintSigner and a wrong signer account with ConstraintSeeds; with the derived address signing, the result is exactly the chosen handler's (`SetOwners`, `ChangeThreshold` or both); afterwards the threshold is within the owner count and the nonce is kept; the seqno rises by one exactly when the owners are replaced, and a threshold-only change keeps the owners |
| `Program.Multisig.Govern` | programs/multisig/src/lib.rs:261-271 | the `Auth` check, then the handler, matching `Protocol.Govern`; a refused instruction leaves the account as it was |
| `Instructions.ToAccountMeta` | programs/multisig/src/lib.rs:339-346 | converting a stored account to an instruction account and back gives the stored account |
| `Instructions.FromAccountMeta` | programs/multisig/src/lib.rs:349-357 | rebuilding the runtime account from the stored one, with the constructor its writability selects, gives the instruction account back |
| `Invariants.ApproveRefusedOnInvalidAccounts` | programs/multisig/src/lib.rs:237-246 | when the `Approve` constraints (`Protocol.ApproveAccountsValid`: equal seqnos, `has_one = multisig`, owner signature) fail, approval is refused with the first failing constraint's error, in field order |
| `Invariants.ExecuteRefusedOnInvalidAccounts` | programs/multisig/src/lib.rs:274-285 | when the `ExecuteTransaction` constraints (`Protocol.ExecuteAccountsValid`: equal seqnos, derived signer address, `has_one = multisig`) fail, execution is refused whatever it would invoke, with the first failing constraint's error, in field order |
| `Program.Transaction.constructor` | programs/multisig/src/lib.rs:75-82 | the new account holds the given multisig, program, accounts, data, bitmap and seqno, and is not executed |
| `Instructions.MetaRoundTrip` | programs/multisig/src/lib.rs:349-357 | converting an instruction account to a stored account and back gives the instruction account |
| `Instructions.MetasOf` | programs/multisig/src/lib.rs:324 | the converted list has the same length, and each element converts back to the account it came from |
| `Instructions.AccountsOf` | programs/multisig/src/lib.rs:349-357 | the list converted back has the same length, and each element converts forward to the element it came from |
| `Instructions.AccountListRoundTrip` | programs/multisig/src/lib.rs:320-357 | a whole stored account list survives conversion to instruction accounts and back |
| `Instructions.MetaListRoundTrip` | programs/multisig/src/lib.rs:320-357 | a whole instruction account list survives conversion to stored accounts and back |
| `Instructions.MarkSigner` | programs/multisig/src/lib.rs:183-193 | keeps length, keys and writability; an account is a signer afterwards exactly when it was before or its key is the PDA |
| `Protocol.ToInstruction` | programs/multisig/src/lib.rs:320-328 | the instruction keeps the program id and data, and its accounts convert back to the transaction's |
| `Protocol.SignedInstruction` | programs/multisig/src/lib.rs:178-193 | the invoked instruction keeps program id, data, and each account's key and writability; it marks as signer exactly the accounts that were signers or are the PDA |
| `Protocol.Invoke` | programs/multisig/src/lib.rs:205-208 | a call into another program succeeds exactly when the other program does, and leaves the multisig unchanged; a governance call back gives exactly the governance instruction's result, with the PDA as signer exactly when the invoked instruction passes it as one, so it succeeds only then and keeps the threshold within the owner count |
| `Protocol.Execute` | programs/multisig/src/lib.rs:158-214 | a seqno mismatch fails with ConstraintRaw; with valid accounts an executed transaction fails with AlreadyExecuted whatever its approvals, and too few approvals fail with NotEnoughSigners; success needs all of these checks passed; once they pass, a successful external invocation executes the signed instruction, leaves the multisig unchanged and changes only `didExecute` in the transaction; a failed invocation fails the whole execution; a governance call back gives exactly that governance instruction's result as the new multisig, or its error |
| `Program.Transaction.Execute` | programs/multisig/src/lib.rs:158-214 | the in-place handler, including the governance call back; the transaction is burnt only after the invocation succeeds; both accounts end as `Protocol.Execute` says, and are unchanged on error |
| `Invariants.CountSet` | programs/multisig/src/lib.rs:98 | setting a slot adds one approval if it was clear and none if it was set |
| `Invariants.CountSingle` | programs/multisig/src/lib.rs:71-73 | a bitmap with one set slot counts one approval |
| `Invariants.CountNone` | programs/multisig/src/lib.rs:72 | an all-false bitmap counts no approval |
| `Invariants.CreatedWithOneApproval` | programs/multisig/src/lib.rs:71-79 | a new transaction carries exactly one approval |
| `Invariants.ApprovalMonotone` | programs/multisig/src/lib.rs:98 | approval keeps every existing approval and adds at most one |
| `Invariants.ApproveIdempotent` | programs/multisig/src/lib.rs:98 | approving twice with the same owner equals approving once |
| `Invariants.CreateCoherent` | programs/multisig/src/lib.rs:71-82 | a new transaction is coherent with its multisig: same seqno, one slot per owner |
| `Invariants.ApproveCoherent` | programs/multisig/src/lib.rs:98 | approval keeps a transaction coherent |
| `Invariants.ApproveInBounds` | programs/multisig/src/lib.rs:90-98 | for a coherent transaction the slot write never goes out of bounds, and approval by a signing owner succeeds once the constraints hold |
| `Invariants.ApprovalsWithinOwners` | programs/multisig/src/lib.rs:165-171 | while the seqnos agree, the approval count of a coherent transaction is at most the owner count |
| `Invariants.GovernCoherent` | programs/multisig/src/lib.rs:122-127 | every governance change keeps every transaction of the multisig coherent, because an owner change bumps the seqno |
| `Invariants.ExecuteCoherent` | programs/multisig/src/lib.rs:158-214 | execution keeps the executed transaction and every other transaction coherent with the multisig |
| `Invariants.StaleAfterOwnerChange` | programs/multisig/src/lib.rs:276 | after an owner change, approving or executing an earlier transaction fails with ConstraintRaw |
| `Invariants.ExecuteAtMostOnce` | programs/multisig/src/lib.rs:160-162 | after a successful execution, executing again always fails; it fails with AlreadyExecuted when the seqno and PDA are unchanged |
| `Invariants.ThresholdAboveOwnersBlocksExecution` | programs/multisig/src/lib.rs:174-176 | a multisig whose threshold exceeds its owner count cannot execute any coherent transaction |
| `Invariants.ExecuteKeepsThresholdBound` | programs/multisig/src/lib.rs:119-154 | execution, including a governance call back, keeps the threshold within the owner count |
| `Invariants.SignsIffListed` | programs/multisig/src/lib.rs:183-193 | the invoked instruction passes the PDA as a signer exactly when the transaction lists the PDA |
| `Invariants.SelfGovernanceNeedsListedSigner` | programs/multisig/src/lib.rs:262-270 | a governance call back through execution succeeds only if the transaction lists the PDA; otherwise, with the PDA key handed to the callee as the model does, it fails with ConstraintSigner |
| `Scenarios.TwoOfThree` | programs/multisig/src/lib.rs:158-214 | with owners X, Y, Z and threshold 2, X proposes and Y approves; the first execution invokes the proposal and the second fails with AlreadyExecuted |
| `Scenarios.OwnerChangeMakesProposalStale` | programs/multisig/src/lib.rs:239 | after owners grow from three to four, approving the earlier proposal fails with ConstraintRaw |
| `Scenarios.RemovingAnOwnerLowersThreshold` | programs/multisig/src/lib.rs:122-124 | owners [X, Y] with threshold 2 become [X] with threshold 1 and seqno 1 |
| `Scenarios.ThresholdAboveOwnersRefused` | programs/multisig/src/lib.rs:148-150 | an approved proposal to set threshold 5 on three owners fails with InvalidThreshold and does not execute |

## Left out

- The `description` and `lamports` fields. Neither takes part in any decision.
- `deposit_lamports`, `withdraw_lamports` and the `Escrow` accounts. The two handlers are empty.
- The error codes `TransactionAlreadySigned`, `Overflow` and `UnableToDelete`. No path raises them.
- `Protocol.SetOwners`: the seqno is an unbounded integer. The model has no `u32` wrap-around or overflow abort on the increment, which would need 2^32 owner changes.
- `Protocol.ChangeThreshold`: the threshold is an unbounded integer, not `u64`. An owner count never comes near 2^64, so the casts of `owners.len()` are exact.
- PDA derivation (`seeds`, `bump`) is a function parameter, not the runtime's hash-based derivation.
- `invoke_signed` is abstracted. The model does not cover the runtime's privilege checks or `remaining_accounts`. It also does not cover calls back into this program other than the three governance instructions on the same multisig. These excluded calls are `approve`, `create_transaction`, `execute_transaction`, and governance of another multisig, which the seeds check would refuse.
- `Invariants.SelfGovernanceNeedsListedSigner`: in the model a governance call back is always handed the PDA key as its signer account, so an unlisted PDA fails with ConstraintSigner. In the program the callee's signer slot would then hold some other account, or be missing. The call could then fail with ConstraintSeeds or for too few accounts. The lemma's error code is the model's, and only the failure itself carries over.
- Instruction decoding. An `Invocation` is chosen independently of the transaction's program id and data. The model does not check that a `SelfGovernance` call corresponds to a transaction whose payload encodes that governance instruction for this program. Lemmas quantify over all invocations, so they hold whatever the payload is.
- `#[account(mut)]` and its `ConstraintMut` error are not modelled. This covers `Approve.transaction` (lib.rs:241), `Auth.multisig` (lib.rs:263) and `ExecuteTransaction.transaction` (lib.rs:283). The model assumes these accounts are passed writable, and so does the multisig slot of a governance call back. In the program, a read-only account there is refused with `ConstraintMut`. In `execute_transaction` that check comes between the seeds and `has_one` checks. In a governance instruction it comes before the signer check. So the model's `Protocol.Execute` accepts a governance call back that lists the multisig read-only, and the program would refuse it.
- Anchor's account plumbing: deserialisation, discriminators, owner checks, `#[account(zero)]` and rent. `Program.CreateTransaction` allocates a fresh object instead of filling a zeroed account.
