/** Vocabulary shared by the whole model: identifiers, rows of the datastore and the engine's errors. */
module Common {

  datatype Option<+T> = None | Some(value: T)

  datatype Result<+T, +E> = Success(value: T) | Failure(error: E)

  type XpubId = string
  type TxId = string
  type DraftId = string

  /** Written into a UTXO's spending id when the transaction that created it is reverted. */
  const DELETED := "deleted"

  /** Key that replaces the per-xpub values of a reverted transaction. */
  const REVERTED := "reverted"

  const MAX_INT64: nat := 0x7FFF_FFFF_FFFF_FFFF

  const MAX_UINT32: nat := 0xFFFF_FFFF

  datatype ScriptType = PubKeyHash | NullData | NonStandard

  /**
   * A locking script. Scripts of change addresses are derived from an xpub's internal chain;
   * the constructor makes that derivation injective. Every other script is opaque.
   */
  datatype Script = Derived(xpub: XpubId, num: nat) | Foreign(hex: string, scriptType: ScriptType)
  {
    function Type(): ScriptType {
      match this
      case Derived(_, _) => PubKeyHash
      case Foreign(_, t) => t
    }
  }

  datatype Outpoint = Outpoint(txId: TxId, index: nat)

  /** A row of the UTXO table: the reservation (draft) and the spending id are nullable columns. */
  datatype Utxo = Utxo(xpub: XpubId, satoshis: nat, scriptType: ScriptType,
                       draft: Option<DraftId>, spending: Option<TxId>)

  /** A row of the xpub table. The balance column is a signed integer in the datastore. */
  datatype Xpub = Xpub(balance: int, nextInternal: nat, nextExternal: nat)

  /** An xpub derives its addresses on two chains, each with its own counter. */
  datatype Chain = External | Internal

  function Number(row: Xpub, chain: Chain): nat {
    if chain == Internal then row.nextInternal else row.nextExternal
  }

  function WithNumber(row: Xpub, chain: Chain, num: nat): Xpub {
    if chain == Internal then row.(nextInternal := num) else row.(nextExternal := num)
  }

  /** An output of a raw transaction. */
  datatype TxOut = TxOut(script: Script, satoshis: nat)

  /** A raw transaction, as parsed from its hex. */
  datatype RawTx = RawTx(inputs: seq<Outpoint>, outputs: seq<TxOut>)

  datatype Error =
    | ErrCouldNotFindDraftTx
    | ErrDraftTxHasNoOutputs
    | ErrUtxoAlreadySpent
    | ErrUtxoNotReserved
    | ErrDraftIDMismatch
    | ErrSatoshisOutOfRange
    | ErrDuringSaveTx
    | ErrNoMatchingOutputs
    | ErrBroadcast
    | ErrCouldNotFindTransaction
    | ErrTxRevertEmptyDraftID
    | ErrTxRevertCouldNotFindDraftTx
    | ErrTxRevertUtxoAlreadySpent
    | ErrCouldNotFindXpub
    | ErrCouldNotFindUtxo
    | ErrXPubAlreadyExists
    | ErrNegativeBalance
    | ErrNumberOutOfRange
    | ErrNotEnoughUtxos
    | ErrMissingUTXOsSpendable
    | ErrDuplicateUTXOs
    | ErrMissingTransactionOutputs
    | ErrOutputValueNotRecognized
    | ErrOutputValueTooLow
    | ErrOutputValueTooHigh
    | ErrTransactionFeeInvalid
    | ErrInvalidOpReturnOutput
    | ErrChangeStrategyNotImplemented
    | ErrProcessP2PTx
    | ErrIndexOutOfRange
}
