/** Values shared by every part of the model: addresses, transactions and their hashes. */
module Types {

  datatype Option<+T> = None | Some(value: T)

  /** An externally owned account, or a contract created by `creator` at `nonce`.  The address
      rule of section 7 of the Ethereum Yellow Paper hashes the pair; it is injective here. */
  datatype Address = Key(id: nat) | Created(creator: Address, nonce: nat)

  /** Creation code of the contracts the jobs publish. */
  datatype Code =
    | TokenIndexCode
    | LimiterCode
    | SwapPoolCode(registry: Address, limiter: Address)
    | QuoterCode
    | TokenCode

  /** Decoded call data.  `Opaque` stands for every call the contract model does not interpret. */
  datatype Call =
    | Opaque(bytes: seq<nat>)
    | Publish(code: Code)
    | Add(entry: Address)
    | SetQuoter(quoter: Address)
    | TransferOwnership(newOwner: Address)
    | MintTo(mintee: Address, amount: int)
    | Transfer(recipient: Address, amount: int)
    | Approve(spender: Address, amount: int)
    | TransferFrom(holder: Address, recipient: Address, amount: int)
    | Withdraw(outToken: Address, inToken: Address, amount: int)
    | Deposit(token: Address, amount: int)

  /** What a signed transaction means to its sender: everything but the fee caps. */
  datatype Intent = Intent(sender: Address, nonce: nat, to: Option<Address>, value: int, call: Call, gas: nat)

  datatype Tx = Tx(intent: Intent, feeCap: nat, tipCap: nat)

  /** Transaction hashes are injective: a hash is its preimage. */
  datatype Hash = HashOf(tx: Tx)
}
