/** The ledger invariant, and the sums in which it is stated. */
module LedgerInvariant {
  import opened Common
  import opened Sums
  import opened Ledger

  // ----- summands ----------------------------------------------------------------------------

  /** What an outpoint contributes to the balance of x. */
  ghost function UnspentOf(m: map<Outpoint, Utxo>, x: XpubId): Outpoint -> int {
    o => if o in m && m[o].xpub == x && m[o].spending.None? then m[o].satoshis else 0
  }

  /** What an outpoint contributes to the outputs of t that x owns. */
  ghost function CreatedFor(m: map<Outpoint, Utxo>, t: TxId, x: XpubId): Outpoint -> int {
    o => if o in m && o.txId == t && m[o].xpub == x then m[o].satoshis else 0
  }

  /** What an outpoint of x contributes to the inputs of t. */
  ghost function SpentFrom(m: map<Outpoint, Utxo>, t: TxId, x: XpubId): Outpoint -> int {
    o => if o in m && m[o].spending == Some(t) && m[o].xpub == x then m[o].satoshis else 0
  }

  ghost function Balance(m: map<Outpoint, Utxo>, x: XpubId): int { Sum(m.Keys, UnspentOf(m, x)) }

  ghost function Created(m: map<Outpoint, Utxo>, t: TxId, x: XpubId): int { Sum(m.Keys, CreatedFor(m, t, x)) }

  ghost function Spent(m: map<Outpoint, Utxo>, t: TxId, x: XpubId): int { Sum(m.Keys, SpentFrom(m, t, x)) }

  // ----- the invariant -------------------------------------------------------------------------

  /** CurrentBalance is the sum of the satoshis of the xpub's UTXOs without a spending transaction. */
  ghost predicate Balanced(s: State) {
    forall x :: x in s.xpubs ==> s.xpubs[x].balance == Balance(s.utxos, x)
  }

  ghost predicate OwnersKnown(s: State) {
    && (forall o :: o in s.utxos ==> s.utxos[o].xpub in s.xpubs)
    && (forall c :: c in s.destinations ==> s.destinations[c] in s.xpubs)
  }

  /** Identifiers are hashes, never one of the two marker words. */
  ghost predicate MarkersUnused(s: State) { DELETED !in s.txs && REVERTED !in s.xpubs }

  /**
   * UTXOs come from stored transactions; those of a reverted one are marked. Any other spending id
   * names a live spender.
   */
  ghost predicate SpentByLive(s: State) {
    forall o :: o in s.utxos ==>
      && o.txId in s.txs
      && (s.txs[o.txId].deleted ==> s.utxos[o].spending == Some(DELETED))
      && (s.utxos[o].spending.Some? ==>
            var t := s.utxos[o].spending.value;
            if t == DELETED then s.txs[o.txId].deleted
            else t in s.txs && !s.txs[t].deleted && s.txs[t].draft.Some? && o in s.txs[t].raw.inputs)
  }

  /** The stored values of a live transaction are its known outputs minus its inputs, xpub by xpub. */
  ghost predicate ValuesRight(s: State) {
    forall t, x :: t in s.txs && !s.txs[t].deleted && x in s.xpubs ==>
      ValueOf(s.txs[t].values, x) == Created(s.utxos, t, x) - Spent(s.utxos, t, x)
  }

  ghost predicate DeletedMarked(s: State) {
    forall t :: t in s.txs && s.txs[t].deleted ==>
      s.txs[t].values == map[REVERTED := 0] && s.txs[t].draft.Some?
  }

  /** UTXOs carry satoshis and come from stored transactions. */
  ghost predicate RowsStored(s: State) {
    forall o :: o in s.utxos ==> o.txId in s.txs && s.utxos[o].satoshis > 0
  }

  /** The draft of a transaction is stored, and had its inputs before the transaction. */
  ghost predicate DraftsFirst(s: State) {
    forall t :: t in s.txs && s.txs[t].draft.Some? ==>
      && s.txs[t].draft.value in s.drafts
      && forall o :: o in s.drafts[s.txs[t].draft.value].inputs ==> o.txId != t
  }

  /** A draft in status draft holds exactly its inputs; a canceled or expired one holds nothing. */
  ghost predicate ReservedRight(s: State, d: DraftId)
    requires d in s.drafts
  {
    && (forall o :: o in s.drafts[d].inputs ==> o in s.utxos)
    && (forall o :: o in s.utxos && s.utxos[o].draft == Some(d) ==> o in s.drafts[d].inputs)
    && (s.drafts[d].status == Draft ==> forall o :: o in s.drafts[d].inputs ==> s.utxos[o].draft == Some(d))
    && (s.drafts[d].Dead() ==> forall o :: o in s.utxos ==> s.utxos[o].draft != Some(d))
  }

  ghost predicate Reservations(s: State) { forall d :: d in s.drafts ==> ReservedRight(s, d) }

  /** The change addresses of x are exactly the numbers handed out so far. */
  ghost predicate Derivations(s: State) {
    forall x: XpubId, n: nat ::
      Derived(x, n) in s.destinations <==> x in s.xpubs && n < s.xpubs[x].nextInternal && n < MAX_UINT32
  }

  /** The xpubs a live transaction has a value for are those it takes from or pays to. */
  ghost predicate IdsRight(s: State) {
    forall t :: t in s.txs && !s.txs[t].deleted ==>
      && s.txs[t].values.Keys == Elements(s.txs[t].inIds) + Elements(s.txs[t].outIds)
      && s.txs[t].values.Keys <= s.xpubs.Keys
  }

  /** What every action keeps. */
  ghost predicate Lasting(s: State) {
    && OwnersKnown(s) && MarkersUnused(s) && DeletedMarked(s) && IdsRight(s)
    && RowsStored(s) && DraftsFirst(s) && Reservations(s) && Derivations(s)
  }

  /** What every action keeps unless it is a revert that frees more, or less, than its transaction spent. */
  ghost predicate Accounts(s: State) { Balanced(s) && SpentByLive(s) && ValuesRight(s) }

  ghost predicate Inv(s: State) { Lasting(s) && Accounts(s) }

  // ----- transactions and their drafts -----------------------------------------------------------

  /** With the input check on: what a live transaction spends are inputs of its draft. */
  ghost predicate SpendsOwn(s: State) {
    forall o :: o in s.utxos && s.utxos[o].spending.Some? && s.utxos[o].spending.value in s.txs ==>
      var draft := s.txs[s.utxos[o].spending.value].draft;
      draft.Some? && draft.value in s.drafts && o in s.drafts[draft.value].inputs
  }

  /** A live outgoing transaction spends exactly the inputs of its draft, and each of them names it. */
  ghost predicate SpendsDraft(s: State) {
    forall t :: t in s.txs && !s.txs[t].deleted && s.txs[t].draft.Some? ==>
      && s.txs[t].draft.value in s.drafts
      && SameInputs(s.txs[t].raw.inputs, s.drafts[s.txs[t].draft.value].inputs)
      && forall o :: o in s.txs[t].raw.inputs ==> o in s.utxos && s.utxos[o].spending == Some(t)
  }

  ghost predicate SameInputs(xs: seq<Outpoint>, ys: seq<Outpoint>) { forall o :: o in xs <==> o in ys }

  // ----- first consequences ----------------------------------------------------------------------

  /** No stored balance is negative. */
  lemma BalanceNonNegative(s: State, x: XpubId)
    requires Balanced(s) && x in s.xpubs
    ensures s.xpubs[x].balance >= 0
  {
    SumMono(s.utxos.Keys, (o: Outpoint) => 0, UnspentOf(s.utxos, x));
    SumZero(s.utxos.Keys, (o: Outpoint) => 0);
  }

  lemma {:induction false} InputValuesKeys(utxos: map<Outpoint, Utxo>, inputs: seq<Outpoint>, owners: set<XpubId>)
    requires forall o :: o in utxos ==> utxos[o].xpub in owners
    ensures InputValues(utxos, inputs).Keys <= owners
  {
    if inputs != [] { InputValuesKeys(utxos, inputs[..|inputs| - 1], owners); }
  }

  lemma {:induction false} OutputValuesKeys(values: map<XpubId, int>, destinations: map<Script, XpubId>,
                                            outputs: seq<TxOut>, owners: set<XpubId>)
    requires values.Keys <= owners
    requires forall c :: c in destinations ==> destinations[c] in owners
    ensures OutputValues(values, destinations, outputs).Keys <= owners
  {
    if outputs != [] { OutputValuesKeys(values, destinations, outputs[..|outputs| - 1], owners); }
  }

  ghost function OwnedBy(m: map<Outpoint, Utxo>, x: XpubId): Outpoint -> int {
    o => if o in m && m[o].xpub == x then m[o].satoshis else 0
  }

  /** The loop over the inputs subtracts the satoshis of the distinct known inputs of x. */
  lemma {:induction false} InputValuesSum(m: map<Outpoint, Utxo>, inputs: seq<Outpoint>, x: XpubId)
    requires Distinct(inputs)
    ensures ValueOf(InputValues(m, inputs), x) == -Sum(Elements(inputs), OwnedBy(m, x))
  {
    if inputs != [] {
      var n := |inputs| - 1;
      InputValuesSum(m, inputs[..n], x);
      var all := Elements(inputs);
      SumSplit(all, inputs[n], OwnedBy(m, x));
      assert all - {inputs[n]} == Elements(inputs[..n]);
    }
  }

  ghost function PaidTo(t: TxId, destinations: map<Script, XpubId>, outputs: seq<TxOut>, x: XpubId): Outpoint -> int {
    (o: Outpoint) => if o.txId == t && o.index < |outputs| && Credited(outputs[o.index], destinations)
            && destinations[outputs[o.index].script] == x then outputs[o.index].satoshis else 0
  }

  lemma NewOutpointsLast(t: TxId, destinations: map<Script, XpubId>, outputs: seq<TxOut>, n: nat)
    requires n + 1 == |outputs|
    ensures Outpoint(t, n) !in NewOutpoints(t, destinations, outputs[..n])
    ensures NewOutpoints(t, destinations, outputs) == NewOutpoints(t, destinations, outputs[..n])
              + if Credited(outputs[n], destinations) then {Outpoint(t, n)} else {}
  {
    var all := NewOutpoints(t, destinations, outputs);
    var before := NewOutpoints(t, destinations, outputs[..n]);
    forall o | o in all ensures o in before || (o == Outpoint(t, n) && Credited(outputs[n], destinations)) {
      if o.index < n { assert outputs[..n][o.index] == outputs[o.index]; }
    }
    forall o | o in before ensures o in all {
      assert outputs[..n][o.index] == outputs[o.index];
    }
  }

  /** The loop over the outputs adds the satoshis of the outputs paid to x. */
  lemma {:induction false} OutputValuesSum(values: map<XpubId, int>, t: TxId, destinations: map<Script, XpubId>,
                                           outputs: seq<TxOut>, x: XpubId)
    ensures ValueOf(OutputValues(values, destinations, outputs), x)
         == ValueOf(values, x) + Sum(NewOutpoints(t, destinations, outputs), PaidTo(t, destinations, outputs, x))
  {
    if outputs != [] {
      var n := |outputs| - 1;
      OutputValuesSum(values, t, destinations, outputs[..n], x);
      NewOutpointsLast(t, destinations, outputs, n);
      var before := NewOutpoints(t, destinations, outputs[..n]);
      var f := PaidTo(t, destinations, outputs, x);
      SumExtend(before, before, PaidTo(t, destinations, outputs[..n], x), f);
      if Credited(outputs[n], destinations) {
        SumSplit(before + {Outpoint(t, n)}, Outpoint(t, n), f);
        assert before + {Outpoint(t, n)} - {Outpoint(t, n)} == before;
      } else {
        assert NewOutpoints(t, destinations, outputs) == before;
      }
    } else {
      assert NewOutpoints(t, destinations, outputs) == {};
    }
  }
}
