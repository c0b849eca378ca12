/** What each action answers and does, column by column. */
module LedgerEffects {
  import opened Common
  import opened Ledger
  import opened LedgerInvariant
  import opened LedgerSteps

  // ----- recording -----------------------------------------------------------------------------------

  /** An output that pays one of our scripts. */
  ghost predicate Pays(s: State, output: TxOut) { output.satoshis > 0 && output.script in s.destinations }

  /** Change addresses are public key hashes; any other script has the type it came with. */
  ghost predicate TypeOf(script: Script, scriptType: ScriptType) {
    match script
    case Derived(_, _) => scriptType == PubKeyHash
    case Foreign(_, t) => scriptType == t
  }

  /** The row of an output: its amount belongs to the owner of its script, reserved and spent by nobody. */
  ghost predicate RowFor(s: State, output: TxOut, u: Utxo)
    requires output.script in s.destinations
  {
    && u.xpub == s.destinations[output.script] && u.satoshis == output.satoshis
    && u.draft.None? && u.spending.None? && TypeOf(output.script, u.scriptType)
    && (output.script.Derived? || output.script.scriptType == PubKeyHash ==> Spendable(u, u.xpub))
  }

  /** The known inputs of an outgoing transaction are spent by it, and every output that pays us has a new row. */
  ghost predicate RowsRecorded(s: State, s': State, t: TxId, raw: RawTx, outgoing: bool) {
    && (forall o :: o in s.utxos ==>
          && o in s'.utxos
          && s'.utxos[o] == if outgoing && o in raw.inputs then s.utxos[o].(spending := Some(t)) else s.utxos[o])
    && (forall i :: 0 <= i < |raw.outputs| && Pays(s, raw.outputs[i]) ==>
          Outpoint(t, i) in s'.utxos && RowFor(s, raw.outputs[i], s'.utxos[Outpoint(t, i)]))
    && (forall o :: o in s'.utxos && o !in s.utxos ==>
          o.txId == t && o.index < |raw.outputs| && Pays(s, raw.outputs[o.index]))
  }

  /** The record lists the owners of the known inputs and of the outputs that pay us. */
  ghost predicate TxRecorded(s: State, tx: Tx, raw: RawTx, draft: Option<DraftId>) {
    && tx.draft == draft && tx.raw == raw && !tx.deleted
    && (forall x :: x in tx.inIds <==>
          draft.Some? && exists o :: o in raw.inputs && o in s.utxos && s.utxos[o].xpub == x)
    && (forall x :: x in tx.outIds <==>
          exists i :: 0 <= i < |raw.outputs| && Pays(s, raw.outputs[i]) && s.destinations[raw.outputs[i].script] == x)
  }

  /** The draft of the transaction is complete and names it; nothing else changes in the drafts. */
  ghost predicate DraftCompleted(s: State, s': State, t: TxId, draft: Option<DraftId>) {
    && s'.drafts.Keys == s.drafts.Keys
    && forall d :: d in s.drafts ==>
         s'.drafts[d] == if Some(d) == draft then s.drafts[d].(status := Complete, finalTx := Some(t)) else s.drafts[d]
  }

  /** Everything a recording does; of the xpubs only balances change. */
  ghost predicate RecordedEffect(s: State, s': State, t: TxId, raw: RawTx, draft: Option<DraftId>) {
    && RowsRecorded(s, s', t, raw, draft.Some?)
    && t in s'.txs && TxRecorded(s, s'.txs[t], raw, draft) && s'.txs.Keys == s.txs.Keys + {t}
    && (forall e :: e in s.txs && e != t ==> s'.txs[e] == s.txs[e])
    && DraftCompleted(s, s', t, draft)
    && BalancesOnly(s, s') && s'.destinations == s.destinations
  }

  ghost predicate BalancesOnly(s: State, s': State) {
    && s'.xpubs.Keys == s.xpubs.Keys
    && forall x :: x in s.xpubs ==>
         s'.xpubs[x].nextInternal == s.xpubs[x].nextInternal && s'.xpubs[x].nextExternal == s.xpubs[x].nextExternal
  }

  lemma RecordsRows(s: State, t: TxId, raw: RawTx, draft: Option<DraftId>)
    requires RowsStored(s) && t !in s.txs && (draft.Some? ==> draft.value in s.drafts)
    ensures RowsRecorded(s, Recorded(s, t, raw, draft), t, raw, draft.Some?)
  {
    var s' := Recorded(s, t, raw, draft);
    forall i | 0 <= i < |raw.outputs| && Pays(s, raw.outputs[i])
      ensures Outpoint(t, i) in s'.utxos && RowFor(s, raw.outputs[i], s'.utxos[Outpoint(t, i)])
    {
      assert Outpoint(t, i) in NewOutpoints(t, s.destinations, raw.outputs) && Outpoint(t, i) !in s.utxos;
    }
  }

  lemma {:induction false} InIdsMembers(utxos: map<Outpoint, Utxo>, inputs: seq<Outpoint>, x: XpubId)
    ensures x in InIds(utxos, inputs) <==> exists o :: o in inputs && o in utxos && utxos[o].xpub == x
  {
    if inputs != [] {
      var n := |inputs| - 1;
      InIdsMembers(utxos, inputs[..n], x);
      assert inputs == inputs[..n] + [inputs[n]];
      if inputs[n] in utxos { WithIdElements(InIds(utxos, inputs[..n]), utxos[inputs[n]].xpub); }
    }
  }

  lemma {:induction false} OutIdsMembers(s: State, outputs: seq<TxOut>, x: XpubId)
    ensures x in OutIds(s.destinations, outputs) <==>
      exists i :: 0 <= i < |outputs| && Pays(s, outputs[i]) && s.destinations[outputs[i].script] == x
  {
    if outputs != [] {
      var n := |outputs| - 1;
      OutIdsMembers(s, outputs[..n], x);
      if x in OutIds(s.destinations, outputs[..n]) {
        var i :| 0 <= i < n && Pays(s, outputs[..n][i]) && s.destinations[outputs[..n][i].script] == x;
        assert outputs[..n][i] == outputs[i];
      }
      if i :| 0 <= i < n && Pays(s, outputs[i]) && s.destinations[outputs[i].script] == x {
        assert outputs[..n][i] == outputs[i];
      }
    }
  }

  lemma RecordsTx(s: State, raw: RawTx, draft: Option<DraftId>)
    ensures TxRecorded(s, NewTx(s, raw, draft), raw, draft)
  {
    forall x { InIdsMembers(s.utxos, raw.inputs, x); }
    forall x { OutIdsMembers(s, raw.outputs, x); }
  }

  /** What is stored for a new transaction is what the rows of the datastore show. */
  lemma RecordsAll(s: State, t: TxId, raw: RawTx, draft: Option<DraftId>)
    requires RowsStored(s) && t !in s.txs && (draft.Some? ==> draft.value in s.drafts)
    ensures RecordedEffect(s, Recorded(s, t, raw, draft), t, raw, draft)
  {
    RecordsRows(s, t, raw, draft);
    RecordsTx(s, raw, draft);
  }

  // ----- what a recording answers --------------------------------------------------------------------

  /** A known input that is spent, not reserved by the draft if that is checked, or out of range. */
  ghost predicate Refused(s: State, o: Outpoint, d: DraftId, iuc: bool) {
    && o in s.utxos
    && (s.utxos[o].spending.Some? || (iuc && s.utxos[o].draft != Some(d)) || s.utxos[o].satoshis > MAX_INT64)
  }

  ghost predicate RefusedFor(u: Utxo, d: DraftId, iuc: bool, err: Error) {
    err == if u.spending.Some? then ErrUtxoAlreadySpent
           else if iuc && u.draft.None? then ErrUtxoNotReserved
           else if iuc && u.draft != Some(d) then ErrDraftIDMismatch
           else ErrSatoshisOutOfRange
  }

  ghost predicate TooLarge(s: State, raw: RawTx) {
    exists i :: 0 <= i < |raw.outputs| && Pays(s, raw.outputs[i]) && raw.outputs[i].satoshis > MAX_INT64
  }

  /** The first input that is refused, and why. */
  ghost predicate FirstRefused(s: State, inputs: seq<Outpoint>, d: DraftId, iuc: bool, err: Option<Error>) {
    exists i :: 0 <= i < |inputs| && Refused(s, inputs[i], d, iuc)
      && (forall j :: 0 <= j < i ==> !Refused(s, inputs[j], d, iuc))
      && err.Some? && RefusedFor(s.utxos[inputs[i]], d, iuc, err.value)
  }

  /** The answer to a recording for a draft: the first test that fails. */
  ghost predicate OutgoingAnswer(s: State, t: TxId, raw: RawTx, d: DraftId, iuc: bool, err: Option<Error>) {
    if d !in s.drafts then err == Some(ErrCouldNotFindDraftTx)
    else if s.drafts[d].outputs == [] then err == Some(ErrDraftTxHasNoOutputs)
    else if exists i :: 0 <= i < |raw.inputs| && Refused(s, raw.inputs[i], d, iuc) then
      FirstRefused(s, raw.inputs, d, iuc, err)
    else if TooLarge(s, raw) then err == Some(ErrSatoshisOutOfRange)
    else if t in s.txs then err == Some(ErrDuringSaveTx)
    else err == None
  }

  ghost predicate PaysUs(s: State, raw: RawTx) {
    exists i :: 0 <= i < |raw.outputs| && raw.outputs[i].script in s.destinations
  }

  /** The answer to a transaction from outside. */
  ghost predicate IncomingAnswer(s: State, t: TxId, raw: RawTx, broadcast: bool, err: Option<Error>) {
    if t in s.txs then err == (if broadcast then None else Some(ErrBroadcast))
    else if !PaysUs(s, raw) then err == Some(ErrNoMatchingOutputs)
    else if TooLarge(s, raw) then err == Some(ErrSatoshisOutOfRange)
    else err == (if broadcast then None else Some(ErrBroadcast))
  }

  function ErrorOf(r: Result<State, Error>): Option<Error> { if r.Failure? then Some(r.error) else None }

  lemma {:induction false} InputsAnswer(s: State, inputs: seq<Outpoint>, d: DraftId, iuc: bool)
    ensures CheckInputs(s.utxos, inputs, d, iuc).None? <==>
      forall i :: 0 <= i < |inputs| ==> !Refused(s, inputs[i], d, iuc)
    ensures CheckInputs(s.utxos, inputs, d, iuc).Some? ==>
      FirstRefused(s, inputs, d, iuc, CheckInputs(s.utxos, inputs, d, iuc))
  {
    if inputs != [] {
      var err := CheckInputs(s.utxos, inputs, d, iuc);
      InputsAnswer(s, inputs[1..], d, iuc);
      assert inputs == [inputs[0]] + inputs[1..];
      if Refused(s, inputs[0], d, iuc) {
        assert RefusedFor(s.utxos[inputs[0]], d, iuc, err.value);
      } else if err.Some? {
        var i :| 0 <= i < |inputs[1..]| && Refused(s, inputs[1..][i], d, iuc)
          && (forall j :: 0 <= j < i ==> !Refused(s, inputs[1..][j], d, iuc))
          && RefusedFor(s.utxos[inputs[1..][i]], d, iuc, err.value);
        assert inputs[i + 1] == inputs[1..][i];
        forall j | 0 <= j < i + 1 ensures !Refused(s, inputs[j], d, iuc) {
          if j > 0 { assert inputs[j] == inputs[1..][j - 1]; }
        }
      }
    }
  }

  lemma RangeAnswer(s: State, raw: RawTx)
    ensures OutputsInRange(s.destinations, raw.outputs) <==> !TooLarge(s, raw)
  {
    if TooLarge(s, raw) {
      var i :| 0 <= i < |raw.outputs| && Pays(s, raw.outputs[i]) && raw.outputs[i].satoshis > MAX_INT64;
      assert Credited(raw.outputs[i], s.destinations);
    }
    if !OutputsInRange(s.destinations, raw.outputs) {
      var i :| 0 <= i < |raw.outputs| && Credited(raw.outputs[i], s.destinations)
        && raw.outputs[i].satoshis > MAX_INT64;
      assert Pays(s, raw.outputs[i]);
    }
  }

  lemma OutgoingAnswers(s: State, t: TxId, raw: RawTx, d: DraftId, iuc: bool)
    ensures OutgoingAnswer(s, t, raw, d, iuc, ErrorOf(RecordOutgoing(s, t, raw, d, iuc)))
  {
    InputsAnswer(s, raw.inputs, d, iuc);
    RangeAnswer(s, raw);
  }

  lemma IncomingAnswers(s: State, t: TxId, raw: RawTx, broadcast: bool)
    ensures IncomingAnswer(s, t, raw, broadcast, ErrorOf(RecordIncoming(s, t, raw, broadcast)))
  {
    RangeAnswer(s, raw);
  }

  /** A recording for a draft, in full. */
  lemma OutgoingEffect(s: State, t: TxId, raw: RawTx, d: DraftId, iuc: bool)
    requires RowsStored(s)
    ensures var r := RecordOutgoing(s, t, raw, d, iuc);
      && OutgoingAnswer(s, t, raw, d, iuc, ErrorOf(r))
      && (r.Success? ==> RecordedEffect(s, r.value, t, raw, Some(d)))
  {
    OutgoingAnswers(s, t, raw, d, iuc);
    if RecordOutgoing(s, t, raw, d, iuc).Success? { RecordsAll(s, t, raw, Some(d)); }
  }

  /** A recording from outside, in full: a transaction that is stored already leaves the ledger as it is. */
  lemma IncomingEffect(s: State, t: TxId, raw: RawTx, broadcast: bool)
    requires RowsStored(s)
    ensures var r := RecordIncoming(s, t, raw, broadcast);
      && IncomingAnswer(s, t, raw, broadcast, ErrorOf(r))
      && (r.Success? ==> if t in s.txs then r.value == s else RecordedEffect(s, r.value, t, raw, None))
  {
    IncomingAnswers(s, t, raw, broadcast);
    if RecordIncoming(s, t, raw, broadcast).Success? && t !in s.txs { RecordsAll(s, t, raw, None); }
  }

  // ----- expiry ----------------------------------------------------------------------------------------

  /** Exactly the drafts of `late` are now expired, exactly the rows that name one are released; the rest stays. */
  ghost predicate ExpiredEffect(s: State, s': State, late: set<DraftId>) {
    && s'.drafts.Keys == s.drafts.Keys
    && (forall d :: d in s.drafts ==>
          s'.drafts[d] == if d in late then s.drafts[d].(status := Expired) else s.drafts[d])
    && s'.utxos.Keys == s.utxos.Keys
    && (forall o :: o in s.utxos ==>
          s'.utxos[o] == if s.utxos[o].draft.Some? && s.utxos[o].draft.value in late then s.utxos[o].(draft := None)
                         else s.utxos[o])
    && s'.xpubs == s.xpubs && s'.txs == s.txs && s'.destinations == s.destinations
  }

  lemma ExpiresOne(s: State, d: DraftId, now: int)
    requires d in s.drafts && s.drafts[d].status == Draft
    ensures ExpiredEffect(s, Expire(s, d, now), if now > s.drafts[d].expiresAt then {d} else {})
  {
  }

  lemma ExpiresMore(s: State, s1: State, s': State, late: set<DraftId>, d: DraftId, more: set<DraftId>)
    requires ExpiredEffect(s, s1, late) && ExpiredEffect(s1, s', more) && more <= {d} && d !in late
    ensures ExpiredEffect(s, s', late + more)
  {
    forall o | o in s.utxos
      ensures s'.utxos[o] == if s.utxos[o].draft.Some? && s.utxos[o].draft.value in late + more
                             then s.utxos[o].(draft := None) else s.utxos[o]
    { }
  }

  // ----- revert ------------------------------------------------------------------------------------------

  /** The answer to a revert: the first test that fails. */
  ghost predicate RevertAnswer(s: State, t: TxId, err: Option<Error>) {
    if t !in s.txs then err == Some(ErrCouldNotFindTransaction)
    else if s.txs[t].draft.None? then err == Some(ErrTxRevertEmptyDraftID)
    else if s.txs[t].draft.value !in s.drafts then err == Some(ErrTxRevertCouldNotFindDraftTx)
    else if exists o :: o in s.utxos && o.txId == t && s.utxos[o].spending.Some? then
      err == Some(ErrTxRevertUtxoAlreadySpent)
    else if exists x :: x in s.txs[t].values && x !in s.xpubs then err == Some(ErrCouldNotFindXpub)
    else err == None
  }

  /**
   * The inputs of the draft are freed, what the transaction created is marked deleted, the draft is canceled and
   * its reservations lifted, each xpub loses what the transaction gave it, and the record is marked.
   */
  ghost predicate RevertEffect(s: State, s': State, t: TxId, d: DraftId)
    requires t in s.txs && d in s.drafts
  {
    && s'.utxos.Keys == s.utxos.Keys
    && (forall o :: o in s.utxos ==>
          s'.utxos[o] == s.utxos[o].(
            spending := if o in s.drafts[d].inputs then None else if o.txId == t then Some("deleted")
                        else s.utxos[o].spending,
            draft := if s.utxos[o].draft == Some(d) then None else s.utxos[o].draft))
    && s'.xpubs.Keys == s.xpubs.Keys
    && (forall x :: x in s.xpubs ==>
          s'.xpubs[x] == if x in s.txs[t].values then s.xpubs[x].(balance := s.xpubs[x].balance - s.txs[t].values[x])
                         else s.xpubs[x])
    && s'.drafts == s.drafts[d := s.drafts[d].(status := Canceled)]
    && s'.txs == s.txs[t := Tx(s.txs[t].draft, s.txs[t].raw, map["reverted" := 0], ["reverted"], ["reverted"], true)]
    && s'.destinations == s.destinations
  }

  lemma RevertAnswers(s: State, t: TxId)
    ensures RevertAnswer(s, t, ErrorOf(Revert(s, t)))
    ensures Revert(s, t).Success? ==>
      && t in s.txs && s.txs[t].draft.Some? && s.txs[t].draft.value in s.drafts
      && RevertEffect(s, Revert(s, t).value, t, s.txs[t].draft.value)
  {
  }
}
