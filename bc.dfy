/**
 * The parts of the blockchain data types that the issuance accounting reads:
 * outpoints, outputs, inputs and transactions. Scripts, metadata, reference
 * data and hashing are not part of this model.
 */
module Bc {
  import opened MachineInts

  /** A 32-byte hash, as the number its bytes spell in big-endian order;
      only its identity matters to the accounting. */
  newtype Hash = x: int | 0 <= x < 0x1_0000_0000_0000_0000_0000_0000_0000_0000_0000_0000_0000_0000_0000_0000_0000_0000

  /** A 32-byte asset identifier. */
  type AssetID = Hash

  /** A reference to an output of an earlier transaction. */
  datatype Outpoint = Outpoint(hash: Hash, index: uint32)

  datatype TxOutput = TxOutput(assetID: AssetID, amount: uint64)

  /** `isIssuance` stands for `TxInput.IsIssuance()`: the input creates new
      units instead of spending an earlier output. */
  datatype TxInput = TxInput(previous: Outpoint, isIssuance: bool)

  /** `hasIssuance` stands for `Tx.HasIssuance()`. */
  datatype Tx = Tx(inputs: seq<TxInput>, outputs: seq<TxOutput>, hasIssuance: bool)

  /** The state view's `Output` lookup: the output an outpoint refers to. */
  type View = Outpoint -> TxOutput
}
