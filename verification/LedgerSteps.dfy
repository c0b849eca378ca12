/** Every action of the engine keeps the ledger invariant. */
module LedgerSteps {
  import opened Common
  import opened Sums
  import opened Ledger
  import opened LedgerInvariant

  // ----- recording -------------------------------------------------------------------------------

  /** What a transaction is assumed to be: identified by its hash, with distinct inputs. */
  ghost predicate WellFormed(t: TxId, raw: RawTx) { t != DELETED && Distinct(raw.inputs) }

  /** When the checks pass, a new transaction can be stored. */
  ghost predicate CanRecord(s: State, t: TxId, raw: RawTx, draft: Option<DraftId>) {
    && WellFormed(t, raw) && t !in s.txs
    && (draft.Some? ==>
          && draft.value in s.drafts
          && forall o :: o in raw.inputs && o in s.utxos ==> s.utxos[o].spending.None?)
  }

  /** The known inputs of an outgoing transaction. */
  ghost function SpentBy(s: State, raw: RawTx, draft: Option<DraftId>): set<Outpoint> {
    if draft.Some? then Elements(raw.inputs) * s.utxos.Keys else {}
  }

  /** m' is m with the outpoints of `spent` spent by t and those of `added`, created by t, added. */
  ghost predicate Stores(m: map<Outpoint, Utxo>, m': map<Outpoint, Utxo>, t: TxId,
                         spent: set<Outpoint>, added: set<Outpoint>)
  {
    && spent <= m.Keys && added !! m.Keys && m'.Keys == m.Keys + added
    && (forall o :: o in m ==> o.txId != t && m[o].spending != Some(t))
    && (forall o :: o in spent ==> m[o].spending.None?)
    && (forall o :: o in m ==> m'[o] == if o in spent then m[o].(spending := Some(t)) else m[o])
    && (forall o :: o in added ==> o.txId == t && m'[o].spending.None? && m'[o].draft.None?)
  }

  lemma RecordedStores(s: State, t: TxId, raw: RawTx, draft: Option<DraftId>)
    requires RowsStored(s) && SpentByLive(s) && CanRecord(s, t, raw, draft)
    ensures Stores(s.utxos, RecordedUtxos(s, t, raw, draft), t, SpentBy(s, raw, draft),
                   NewOutpoints(t, s.destinations, raw.outputs))
  {
    var added := NewOutpoints(t, s.destinations, raw.outputs);
    forall o | o in added ensures o.txId == t && o !in s.utxos { }
  }

  /** The check of all inputs passes exactly when the check of each passes. */
  lemma {:induction false} CheckInputsAll(utxos: map<Outpoint, Utxo>, inputs: seq<Outpoint>, d: DraftId, iuc: bool)
    ensures CheckInputs(utxos, inputs, d, iuc).None?
       <==> forall o :: o in inputs ==> CheckInput(utxos, o, d, iuc).None?
  {
    if inputs != [] {
      CheckInputsAll(utxos, inputs[1..], d, iuc);
      assert inputs == [inputs[0]] + inputs[1..];
    }
  }

  /** A store moves each balance by what the transaction creates minus what it spends. */
  lemma StoresBalance(m: map<Outpoint, Utxo>, m': map<Outpoint, Utxo>, t: TxId,
                      spent: set<Outpoint>, added: set<Outpoint>, x: XpubId)
    requires Stores(m, m', t, spent, added)
    ensures Balance(m', x) == Balance(m, x) + Created(m', t, x) - Spent(m', t, x)
  {
    var both := o => UnspentOf(m', x)(o) + SpentFrom(m', t, x)(o);
    forall o | o in m'.Keys ensures both(o) == UnspentOf(m, x)(o) + CreatedFor(m', t, x)(o) {
      StoredOnce(m, m', t, spent, added, x, o);
    }
    SumExtend(m.Keys, m'.Keys, UnspentOf(m, x), UnspentOf(m, x));
    SumAdd(m'.Keys, UnspentOf(m', x), SpentFrom(m', t, x), both);
    SumAdd(m'.Keys, UnspentOf(m, x), CreatedFor(m', t, x), both);
  }

  /** Each outpoint is unspent or spent by t after the store if it was unspent or is created by t. */
  lemma StoredOnce(m: map<Outpoint, Utxo>, m': map<Outpoint, Utxo>, t: TxId,
                   spent: set<Outpoint>, added: set<Outpoint>, x: XpubId, o: Outpoint)
    requires Stores(m, m', t, spent, added) && o in m'
    ensures UnspentOf(m', x)(o) + SpentFrom(m', t, x)(o) == UnspentOf(m, x)(o) + CreatedFor(m', t, x)(o)
  {
  }

  /** A store does not touch what other transactions created or spent. */
  lemma StoresOthers(m: map<Outpoint, Utxo>, m': map<Outpoint, Utxo>, t: TxId,
                     spent: set<Outpoint>, added: set<Outpoint>, t': TxId, x: XpubId)
    requires Stores(m, m', t, spent, added) && t' != t
    ensures Created(m', t', x) == Created(m, t', x) && Spent(m', t', x) == Spent(m, t', x)
  {
    SumExtend(m.Keys, m'.Keys, CreatedFor(m, t', x), CreatedFor(m', t', x));
    SumExtend(m.Keys, m'.Keys, SpentFrom(m, t', x), SpentFrom(m', t', x));
  }

  lemma StoresSpent(m: map<Outpoint, Utxo>, m': map<Outpoint, Utxo>, t: TxId,
                    spent: set<Outpoint>, added: set<Outpoint>, x: XpubId)
    requires Stores(m, m', t, spent, added)
    ensures Spent(m', t, x) == Sum(spent, OwnedBy(m, x))
  {
    SumExtend(spent, m'.Keys, OwnedBy(m, x), SpentFrom(m', t, x));
  }

  lemma RecordedCreated(s: State, t: TxId, raw: RawTx, draft: Option<DraftId>, x: XpubId)
    requires RowsStored(s) && SpentByLive(s) && CanRecord(s, t, raw, draft)
    ensures Created(RecordedUtxos(s, t, raw, draft), t, x)
         == Sum(NewOutpoints(t, s.destinations, raw.outputs), PaidTo(t, s.destinations, raw.outputs, x))
  {
    var m := RecordedUtxos(s, t, raw, draft);
    var added := NewOutpoints(t, s.destinations, raw.outputs);
    var paid := PaidTo(t, s.destinations, raw.outputs, x);
    RecordedStores(s, t, raw, draft);
    forall o | o in added ensures paid(o) == CreatedFor(m, t, x)(o) { }
    SumExtend(added, m.Keys, paid, CreatedFor(m, t, x));
  }

  /** After recording, what t created and spent for x is what the loops computed. */
  lemma RecordedValues(s: State, t: TxId, raw: RawTx, draft: Option<DraftId>, x: XpubId)
    requires RowsStored(s) && SpentByLive(s) && CanRecord(s, t, raw, draft)
    ensures var m := RecordedUtxos(s, t, raw, draft);
      ValueOf(TxValues(s, raw, draft), x) == Created(m, t, x) - Spent(m, t, x)
  {
    var m := RecordedUtxos(s, t, raw, draft);
    var spent := SpentBy(s, raw, draft);
    RecordedStores(s, t, raw, draft);
    RecordedCreated(s, t, raw, draft, x);
    StoresSpent(s.utxos, m, t, spent, NewOutpoints(t, s.destinations, raw.outputs), x);
    OutputValuesSum(if draft.Some? then InputValues(s.utxos, raw.inputs) else map[], t, s.destinations, raw.outputs, x);
    if draft.Some? {
      InputValuesSum(s.utxos, raw.inputs, x);
      SumExtend(spent, Elements(raw.inputs), OwnedBy(s.utxos, x), OwnedBy(s.utxos, x));
    }
  }

  lemma RecordedBalanced(s: State, t: TxId, raw: RawTx, draft: Option<DraftId>)
    requires Balanced(s) && RowsStored(s) && SpentByLive(s) && CanRecord(s, t, raw, draft)
    ensures Balanced(Recorded(s, t, raw, draft))
  {
    var m := RecordedUtxos(s, t, raw, draft);
    RecordedStores(s, t, raw, draft);
    forall x | x in s.xpubs
      ensures Balance(m, x) == s.xpubs[x].balance + ValueOf(TxValues(s, raw, draft), x)
    {
      StoresBalance(s.utxos, m, t, SpentBy(s, raw, draft), NewOutpoints(t, s.destinations, raw.outputs), x);
      RecordedValues(s, t, raw, draft, x);
    }
  }

  lemma RecordedValuesRight(s: State, t: TxId, raw: RawTx, draft: Option<DraftId>)
    requires ValuesRight(s) && RowsStored(s) && SpentByLive(s) && CanRecord(s, t, raw, draft)
    ensures ValuesRight(Recorded(s, t, raw, draft))
  {
    var s' := Recorded(s, t, raw, draft);
    RecordedStores(s, t, raw, draft);
    forall t', x | t' in s'.txs && !s'.txs[t'].deleted && x in s'.xpubs
      ensures ValueOf(s'.txs[t'].values, x) == Created(s'.utxos, t', x) - Spent(s'.utxos, t', x)
    {
      if t' == t {
        RecordedValues(s, t, raw, draft, x);
      } else {
        StoresOthers(s.utxos, s'.utxos, t, SpentBy(s, raw, draft), NewOutpoints(t, s.destinations, raw.outputs), t', x);
      }
    }
  }

  lemma RecordedSpentByLive(s: State, t: TxId, raw: RawTx, draft: Option<DraftId>)
    requires RowsStored(s) && SpentByLive(s) && CanRecord(s, t, raw, draft)
    ensures SpentByLive(Recorded(s, t, raw, draft))
  {
    RecordedStores(s, t, raw, draft);
  }

  lemma RecordedKeepsAccounts(s: State, t: TxId, raw: RawTx, draft: Option<DraftId>)
    requires Accounts(s) && RowsStored(s) && CanRecord(s, t, raw, draft)
    ensures Accounts(Recorded(s, t, raw, draft))
  {
    RecordedBalanced(s, t, raw, draft);
    RecordedValuesRight(s, t, raw, draft);
    RecordedSpentByLive(s, t, raw, draft);
  }

  // ----- what a recording keeps in any case ------------------------------------------------------

  /** A row after the recording: an old one, with another spender at most, or a new one. */
  lemma RecordedRows(s: State, t: TxId, raw: RawTx, draft: Option<DraftId>, o: Outpoint)
    requires o in RecordedUtxos(s, t, raw, draft)
    ensures var u := RecordedUtxos(s, t, raw, draft)[o];
      if o in s.utxos then u == s.utxos[o].(spending := u.spending)
      else o.txId == t && u.satoshis > 0 && u.draft.None? && u.xpub in s.destinations.Values
  {
  }

  lemma RecordedOwners(s: State, t: TxId, raw: RawTx, draft: Option<DraftId>)
    requires OwnersKnown(s) && MarkersUnused(s) && CanRecord(s, t, raw, draft)
    ensures OwnersKnown(Recorded(s, t, raw, draft)) && MarkersUnused(Recorded(s, t, raw, draft))
  {
    var m := RecordedUtxos(s, t, raw, draft);
    forall o | o in m ensures m[o].xpub in s.xpubs { RecordedRows(s, t, raw, draft, o); }
  }

  lemma RecordedMarks(s: State, t: TxId, raw: RawTx, draft: Option<DraftId>)
    requires DeletedMarked(s) && Derivations(s) && CanRecord(s, t, raw, draft)
    ensures DeletedMarked(Recorded(s, t, raw, draft)) && Derivations(Recorded(s, t, raw, draft))
  {
  }

  lemma RecordedRowsStored(s: State, t: TxId, raw: RawTx, draft: Option<DraftId>)
    requires RowsStored(s) && CanRecord(s, t, raw, draft)
    ensures RowsStored(Recorded(s, t, raw, draft))
  {
    var m := RecordedUtxos(s, t, raw, draft);
    forall o | o in m ensures o.txId in s.txs.Keys + {t} && m[o].satoshis > 0 { RecordedRows(s, t, raw, draft, o); }
  }

  lemma RecordedDraftsFirst(s: State, t: TxId, raw: RawTx, draft: Option<DraftId>)
    requires DraftsFirst(s) && RowsStored(s) && Reservations(s) && CanRecord(s, t, raw, draft)
    ensures DraftsFirst(Recorded(s, t, raw, draft))
  {
    if draft.Some? {
      forall o | o in s.drafts[draft.value].inputs ensures o.txId != t { assert o in s.utxos; }
    }
  }

  lemma RecordedDraftColumn(s: State, t: TxId, raw: RawTx, draft: Option<DraftId>)
    ensures var m := RecordedUtxos(s, t, raw, draft);
      && s.utxos.Keys <= m.Keys
      && forall o :: o in m ==> m[o].draft == if o in s.utxos then s.utxos[o].draft else None
  {
    var m := RecordedUtxos(s, t, raw, draft);
    forall o | o in m ensures m[o].draft == if o in s.utxos then s.utxos[o].draft else None {
      RecordedRows(s, t, raw, draft, o);
    }
  }

  lemma SameReservation(s: State, s': State, d: DraftId)
    requires d in s.drafts && d in s'.drafts && ReservedRight(s, d) && s.utxos.Keys <= s'.utxos.Keys
    requires forall o :: o in s'.utxos ==> s'.utxos[o].draft == if o in s.utxos then s.utxos[o].draft else None
    requires s'.drafts[d].inputs == s.drafts[d].inputs
    requires s'.drafts[d].status == s.drafts[d].status || s'.drafts[d].status == Complete
    ensures ReservedRight(s', d)
  {
  }

  /** The reservations only depend on the draft column and on the statuses. */
  lemma SameReservations(s: State, s': State)
    requires Reservations(s) && s.utxos.Keys <= s'.utxos.Keys
    requires forall o :: o in s'.utxos ==> s'.utxos[o].draft == if o in s.utxos then s.utxos[o].draft else None
    requires s'.drafts.Keys == s.drafts.Keys
    requires forall d :: d in s.drafts ==> s'.drafts[d].inputs == s.drafts[d].inputs
    requires forall d :: d in s.drafts ==> s'.drafts[d].status == s.drafts[d].status || s'.drafts[d].status == Complete
    ensures Reservations(s')
  {
    forall d | d in s'.drafts ensures ReservedRight(s', d) { SameReservation(s, s', d); }
  }

  lemma RecordedReservations(s: State, t: TxId, raw: RawTx, draft: Option<DraftId>)
    requires Reservations(s) && CanRecord(s, t, raw, draft)
    ensures Reservations(Recorded(s, t, raw, draft))
  {
    RecordedDraftColumn(s, t, raw, draft);
    SameReservations(s, Recorded(s, t, raw, draft));
  }

  lemma WithIdElements(ids: seq<XpubId>, x: XpubId)
    ensures Elements(WithId(ids, x)) == Elements(ids) + {x}
  {
    assert forall y :: y in WithId(ids, x) <==> y in ids || y == x;
  }

  /** The owners listed for the inputs are those with a value from the inputs. */
  lemma {:induction false} InputIds(utxos: map<Outpoint, Utxo>, inputs: seq<Outpoint>)
    ensures Elements(InIds(utxos, inputs)) == InputValues(utxos, inputs).Keys
  {
    if inputs != [] {
      var n := |inputs| - 1;
      InputIds(utxos, inputs[..n]);
      if inputs[n] in utxos { WithIdElements(InIds(utxos, inputs[..n]), utxos[inputs[n]].xpub); }
    }
  }

  lemma {:induction false} OutputIds(values: map<XpubId, int>, destinations: map<Script, XpubId>, outputs: seq<TxOut>)
    ensures OutputValues(values, destinations, outputs).Keys == values.Keys + Elements(OutIds(destinations, outputs))
  {
    if outputs != [] {
      var n := |outputs| - 1;
      OutputIds(values, destinations, outputs[..n]);
      if Credited(outputs[n], destinations) {
        WithIdElements(OutIds(destinations, outputs[..n]), destinations[outputs[n].script]);
      }
    }
  }

  lemma RecordedIds(s: State, t: TxId, raw: RawTx, draft: Option<DraftId>)
    requires IdsRight(s) && OwnersKnown(s) && (draft.Some? ==> draft.value in s.drafts)
    ensures IdsRight(Recorded(s, t, raw, draft))
  {
    var start := if draft.Some? then InputValues(s.utxos, raw.inputs) else map[];
    InputIds(s.utxos, raw.inputs);
    OutputIds(start, s.destinations, raw.outputs);
    InputValuesKeys(s.utxos, raw.inputs, s.xpubs.Keys);
    OutputValuesKeys(start, s.destinations, raw.outputs, s.xpubs.Keys);
  }

  lemma RecordedKeepsLasting(s: State, t: TxId, raw: RawTx, draft: Option<DraftId>)
    requires Lasting(s) && CanRecord(s, t, raw, draft)
    ensures Lasting(Recorded(s, t, raw, draft))
  {
    RecordedOwners(s, t, raw, draft);
    RecordedMarks(s, t, raw, draft);
    RecordedRowsStored(s, t, raw, draft);
    RecordedDraftsFirst(s, t, raw, draft);
    RecordedReservations(s, t, raw, draft);
    RecordedIds(s, t, raw, draft);
  }

  lemma RecordedKeepsInv(s: State, t: TxId, raw: RawTx, draft: Option<DraftId>)
    requires Lasting(s) && CanRecord(s, t, raw, draft)
    ensures Lasting(Recorded(s, t, raw, draft)) && (Accounts(s) ==> Accounts(Recorded(s, t, raw, draft)))
  {
    RecordedKeepsLasting(s, t, raw, draft);
    if Accounts(s) { RecordedKeepsAccounts(s, t, raw, draft); }
  }

  /** A successful outgoing record satisfies what the store needs, with or without the input UTXO check. */
  lemma OutgoingCanRecord(s: State, t: TxId, raw: RawTx, d: DraftId, iuc: bool)
    requires WellFormed(t, raw) && RecordOutgoing(s, t, raw, d, iuc).Success?
    ensures CanRecord(s, t, raw, Some(d))
  {
    CheckInputsAll(s.utxos, raw.inputs, d, iuc);
    forall o | o in raw.inputs && o in s.utxos ensures s.utxos[o].spending.None? {
      assert CheckInput(s.utxos, o, d, iuc).None?;
    }
  }

  lemma RecordOutgoingKeepsInv(s: State, t: TxId, raw: RawTx, d: DraftId, iuc: bool)
    requires Lasting(s) && WellFormed(t, raw)
    ensures var r := RecordOutgoing(s, t, raw, d, iuc);
      r.Success? ==> Lasting(r.value) && (Accounts(s) ==> Accounts(r.value))
  {
    if RecordOutgoing(s, t, raw, d, iuc).Success? {
      OutgoingCanRecord(s, t, raw, d, iuc);
      RecordedKeepsInv(s, t, raw, Some(d));
    }
  }

  lemma RecordIncomingKeepsInv(s: State, t: TxId, raw: RawTx, broadcast: bool)
    requires Lasting(s) && WellFormed(t, raw)
    ensures var r := RecordIncoming(s, t, raw, broadcast);
      r.Success? ==> Lasting(r.value) && (Accounts(s) ==> Accounts(r.value))
  {
    if RecordIncoming(s, t, raw, broadcast).Success? && t !in s.txs {
      RecordedKeepsInv(s, t, raw, None);
    }
  }

  // ----- transactions and their drafts -----------------------------------------------------------

  /** With the input check on, a transaction spends inputs of its draft only. */
  lemma OutgoingSpendsOwn(s: State, t: TxId, raw: RawTx, d: DraftId)
    requires SpendsOwn(s) && Reservations(s) && RowsStored(s) && SpentByLive(s) && WellFormed(t, raw)
    requires RecordOutgoing(s, t, raw, d, true).Success?
    ensures SpendsOwn(RecordOutgoing(s, t, raw, d, true).value)
  {
    CheckInputsAll(s.utxos, raw.inputs, d, true);
    forall o | o in raw.inputs && o in s.utxos ensures o in s.drafts[d].inputs {
      assert CheckInput(s.utxos, o, d, true).None?;
    }
    OutgoingCanRecord(s, t, raw, d, true);
    RecordedSpendsOwn(s, t, raw, Some(d));
  }

  lemma RecordedSpendsOwn(s: State, t: TxId, raw: RawTx, draft: Option<DraftId>)
    requires SpendsOwn(s) && RowsStored(s) && SpentByLive(s) && CanRecord(s, t, raw, draft)
    requires draft.Some? ==> forall o :: o in raw.inputs && o in s.utxos ==> o in s.drafts[draft.value].inputs
    ensures SpendsOwn(Recorded(s, t, raw, draft))
  {
    RecordedStores(s, t, raw, draft);
    var s' := Recorded(s, t, raw, draft);
    forall o | o in s'.utxos && s'.utxos[o].spending.Some? && s'.utxos[o].spending.value in s'.txs
      ensures var own := s'.txs[s'.utxos[o].spending.value].draft;
        own.Some? && own.value in s'.drafts && o in s'.drafts[own.value].inputs
    {
      assert o in s.utxos;
      if o !in SpentBy(s, raw, draft) { assert s'.utxos[o] == s.utxos[o]; }
    }
  }

  lemma RecordedSpendsDraft(s: State, t: TxId, raw: RawTx, draft: Option<DraftId>)
    requires RowsStored(s) && SpentByLive(s) && SpendsDraft(s) && Reservations(s) && CanRecord(s, t, raw, draft)
    requires draft.Some? ==> SameInputs(raw.inputs, s.drafts[draft.value].inputs)
    ensures SpendsDraft(Recorded(s, t, raw, draft))
  {
    RecordedStores(s, t, raw, draft);
    var s' := Recorded(s, t, raw, draft);
    forall t' | t' in s'.txs && !s'.txs[t'].deleted && s'.txs[t'].draft.Some?
      ensures s'.txs[t'].draft.value in s'.drafts
      ensures SameInputs(s'.txs[t'].raw.inputs, s'.drafts[s'.txs[t'].draft.value].inputs)
      ensures forall o :: o in s'.txs[t'].raw.inputs ==> o in s'.utxos && s'.utxos[o].spending == Some(t')
    { }
  }
}
