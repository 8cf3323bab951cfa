/** The accounts a wrapped transaction names, the instruction built from it, and
    the conversions between the two representations. */
module Instructions {

  /** A 32-byte public key, represented by its integer value. */
  type Pubkey = nat

  type Byte = bv8

  /** An account as the multisig stores it inside a transaction. */
  datatype TransactionAccount = TransactionAccount(pubkey: Pubkey, isSigner: bool, isWritable: bool)

  /** An account as an instruction of the host runtime names it. */
  datatype AccountMeta = AccountMeta(pubkey: Pubkey, isSigner: bool, isWritable: bool)

  /** An instruction of the host runtime: target program, accounts, payload. */
  datatype Instruction = Instruction(programId: Pubkey, accounts: seq<AccountMeta>, data: seq<Byte>)

  /** The runtime's constructor for a writable account. */
  function NewWritable(pubkey: Pubkey, isSigner: bool): AccountMeta
  {
    AccountMeta(pubkey, isSigner, true)
  }

  /** The runtime's constructor for a read-only account. */
  function NewReadonly(pubkey: Pubkey, isSigner: bool): AccountMeta
  {
    AccountMeta(pubkey, isSigner, false)
  }

  /** Conversion of a stored account into an instruction account: the choice of
      constructor follows the writability flag. Converting back gives the
      stored account again. */
  function ToAccountMeta(account: TransactionAccount): (m: AccountMeta)
    ensures FromAccountMeta(m) == account
  {
    match account.isWritable
    case false => NewReadonly(account.pubkey, account.isSigner)
    case true => NewWritable(account.pubkey, account.isSigner)
  }

  /** Conversion of an instruction account into a stored account, field by
      field. Building the runtime account from it with the constructor its
      writability selects gives the instruction account back. */
  function FromAccountMeta(meta: AccountMeta): (account: TransactionAccount)
    ensures (if account.isWritable then NewWritable(account.pubkey, account.isSigner)
             else NewReadonly(account.pubkey, account.isSigner)) == meta
  {
    TransactionAccount(meta.pubkey, meta.isSigner, meta.isWritable)
  }

  /** The other round trip: an instruction account survives being stored. */
  lemma MetaRoundTrip(meta: AccountMeta)
    ensures ToAccountMeta(FromAccountMeta(meta)) == meta
  {
  }

  /** Every stored account converted, in order; each converts back to the
      account it came from. */
  function MetasOf(accounts: seq<TransactionAccount>): (metas: seq<AccountMeta>)
    ensures |metas| == |accounts|
    ensures forall i :: 0 <= i < |metas| ==> FromAccountMeta(metas[i]) == accounts[i]
  {
    if accounts == [] then []
    else [ToAccountMeta(accounts[0])] + MetasOf(accounts[1..])
  }

  /** Every instruction account converted back into a stored account, in order. */
  function AccountsOf(metas: seq<AccountMeta>): (accounts: seq<TransactionAccount>)
    ensures |accounts| == |metas|
    ensures forall i :: 0 <= i < |accounts| ==> ToAccountMeta(accounts[i]) == metas[i]
  {
    if metas == [] then []
    else [FromAccountMeta(metas[0])] + AccountsOf(metas[1..])
  }

  /** Converting a whole account list to instruction accounts and back is the identity. */
  lemma AccountListRoundTrip(accounts: seq<TransactionAccount>)
    ensures AccountsOf(MetasOf(accounts)) == accounts
  {
  }

  /** Converting a whole instruction account list to stored accounts and back is the identity. */
  lemma MetaListRoundTrip(metas: seq<AccountMeta>)
    ensures MetasOf(AccountsOf(metas)) == metas
  {
  }

  /** True when some account of the list has the given key. */
  predicate Lists(accounts: seq<TransactionAccount>, key: Pubkey)
  {
    exists i :: 0 <= i < |accounts| && accounts[i].pubkey == key
  }

  /** The remapping done before invocation: every account whose key is `signer`
      is marked as a signer; keys, writability and all other signer flags are
      kept. */
  function MarkSigner(metas: seq<AccountMeta>, signer: Pubkey): (marked: seq<AccountMeta>)
    ensures |marked| == |metas|
    ensures forall i :: 0 <= i < |marked| ==>
      && marked[i].pubkey == metas[i].pubkey
      && marked[i].isWritable == metas[i].isWritable
      && (marked[i].isSigner <==> metas[i].isSigner || metas[i].pubkey == signer)
  {
    if metas == [] then []
    else
      var meta := metas[0];
      var meta' := if meta.pubkey == signer then meta.(isSigner := true) else meta;
      [meta'] + MarkSigner(metas[1..], signer)
  }

  /** True when the instruction passes `key` as a signing account. */
  predicate SignsAs(ix: Instruction, key: Pubkey)
  {
    exists i :: 0 <= i < |ix.accounts| && ix.accounts[i].pubkey == key && ix.accounts[i].isSigner
  }
}
