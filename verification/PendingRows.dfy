/** The UTXO rows a transaction carries until it is saved, and the table after the save. */
module PendingRows {
  import opened Common
  import opened Ledger
  import opened LedgerInvariant

  datatype Pending = Pending(at: Outpoint, row: Utxo)

  /** One row for each known input, in input order, marked as spent by t. */
  function SpentRows(rows: map<Outpoint, Utxo>, inputs: seq<Outpoint>, t: TxId): seq<Pending> {
    if inputs == [] then [] else
      var n := |inputs| - 1;
      SpentRows(rows, inputs[..n], t)
      + if inputs[n] in rows then [Pending(inputs[n], rows[inputs[n]].(spending := Some(t)))] else []
  }

  function NewRow(destinations: map<Script, XpubId>, output: TxOut): Utxo
    requires output.script in destinations
  {
    Utxo(destinations[output.script], output.satoshis, output.script.Type(), None, None)
  }

  /** The row collected for output n of t: the stored one, or a new one. */
  function PendingOutput(rows: map<Outpoint, Utxo>, destinations: map<Script, XpubId>, output: TxOut, t: TxId, n: nat)
    : Pending
    requires output.script in destinations
  {
    Pending(Outpoint(t, n), if Outpoint(t, n) in rows then rows[Outpoint(t, n)] else NewRow(destinations, output))
  }

  /** One row for each output paid to one of our scripts; a row that exists already is taken as it is. */
  function OutputRows(rows: map<Outpoint, Utxo>, destinations: map<Script, XpubId>, outputs: seq<TxOut>, t: TxId)
    : seq<Pending>
  {
    if outputs == [] then [] else
      var n := |outputs| - 1;
      OutputRows(rows, destinations, outputs[..n], t)
      + if Credited(outputs[n], destinations) then [PendingOutput(rows, destinations, outputs[n], t, n)] else []
  }

  function Saved(rows: map<Outpoint, Utxo>, pending: seq<Pending>): map<Outpoint, Utxo> {
    if pending == [] then rows else
      var last := pending[|pending| - 1];
      Saved(rows, pending[..|pending| - 1])[last.at := last.row]
  }

  lemma {:induction false} SavedConcat(rows: map<Outpoint, Utxo>, a: seq<Pending>, b: seq<Pending>)
    ensures Saved(rows, a + b) == Saved(Saved(rows, a), b)
  {
    if b == [] {
      assert a + b == a;
    } else {
      assert (a + b)[..|a + b| - 1] == a + b[..|b| - 1];
      SavedConcat(rows, a, b[..|b| - 1]);
    }
  }

  function MarkedSpent(rows: map<Outpoint, Utxo>, inputs: seq<Outpoint>, t: TxId): map<Outpoint, Utxo> {
    map o | o in rows :: if o in inputs then rows[o].(spending := Some(t)) else rows[o]
  }

  lemma {:induction false} SavedSpent(rows: map<Outpoint, Utxo>, inputs: seq<Outpoint>, t: TxId)
    ensures Saved(rows, SpentRows(rows, inputs, t)) == MarkedSpent(rows, inputs, t)
  {
    if inputs != [] {
      var n := |inputs| - 1;
      SavedSpent(rows, inputs[..n], t);
      assert inputs == inputs[..n] + [inputs[n]];
      var before := SpentRows(rows, inputs[..n], t);
      var all := SpentRows(rows, inputs, t);
      if inputs[n] in rows {
        assert all[..|all| - 1] == before;
      } else {
        assert all == before;
      }
    }
  }

  function WithOutputs(rows: map<Outpoint, Utxo>, destinations: map<Script, XpubId>, outputs: seq<TxOut>, t: TxId)
    : map<Outpoint, Utxo>
  {
    map o | o in rows.Keys + NewOutpoints(t, destinations, outputs) ::
      if o in rows then rows[o] else NewRow(destinations, outputs[o.index])
  }

  lemma {:induction false} SavedOutputs(rows0: map<Outpoint, Utxo>, rows: map<Outpoint, Utxo>,
                                        destinations: map<Script, XpubId>, outputs: seq<TxOut>, t: TxId)
    requires rows.Keys == rows0.Keys && forall o :: o in rows ==> o.txId != t
    ensures Saved(rows, OutputRows(rows0, destinations, outputs, t)) == WithOutputs(rows, destinations, outputs, t)
  {
    if outputs == [] {
      assert NewOutpoints(t, destinations, outputs) == {};
      assert WithOutputs(rows, destinations, outputs, t) == rows;
    } else {
      var n := |outputs| - 1;
      SavedOutputs(rows0, rows, destinations, outputs[..n], t);
      NewOutpointsLast(t, destinations, outputs, n);
      var before := OutputRows(rows0, destinations, outputs[..n], t);
      var all := OutputRows(rows0, destinations, outputs, t);
      WithOutputsLast(rows, destinations, outputs, t, n);
      if Credited(outputs[n], destinations) {
        assert all[..|all| - 1] == before;
      } else {
        assert all == before;
      }
    }
  }

  lemma WithOutputsLast(rows: map<Outpoint, Utxo>, destinations: map<Script, XpubId>, outputs: seq<TxOut>, t: TxId,
                        n: nat)
    requires n + 1 == |outputs| && forall o :: o in rows ==> o.txId != t
    ensures var before := WithOutputs(rows, destinations, outputs[..n], t);
      WithOutputs(rows, destinations, outputs, t) ==
        if Credited(outputs[n], destinations) then before[Outpoint(t, n) := NewRow(destinations, outputs[n])]
          else before
  {
    NewOutpointsLast(t, destinations, outputs, n);
    var before := WithOutputs(rows, destinations, outputs[..n], t);
    var all := WithOutputs(rows, destinations, outputs, t);
    forall o | o in before ensures o in all && all[o] == before[o] {
      if o !in rows { assert outputs[..n][o.index] == outputs[o.index]; }
    }
  }

  ghost function TxRows(s: State, t: TxId, raw: RawTx, draft: Option<DraftId>): seq<Pending> {
    (if draft.Some? then SpentRows(s.utxos, raw.inputs, t) else [])
    + OutputRows(s.utxos, s.destinations, raw.outputs, t)
  }

  lemma WithOutputsRecorded(s: State, t: TxId, raw: RawTx, draft: Option<DraftId>)
    requires forall o :: o in s.utxos ==> o.txId != t
    ensures RecordedUtxos(s, t, raw, draft)
         == WithOutputs(if draft.Some? then MarkedSpent(s.utxos, raw.inputs, t) else s.utxos, s.destinations,
                        raw.outputs, t)
  {
  }

  /** Saving the rows a transaction collected turns the table into that of the recorded state. */
  lemma SavedIsRecorded(s: State, t: TxId, raw: RawTx, draft: Option<DraftId>)
    requires forall o :: o in s.utxos ==> o.txId != t
    ensures Saved(s.utxos, TxRows(s, t, raw, draft)) == RecordedUtxos(s, t, raw, draft)
  {
    var spent := if draft.Some? then SpentRows(s.utxos, raw.inputs, t) else [];
    SavedConcat(s.utxos, spent, OutputRows(s.utxos, s.destinations, raw.outputs, t));
    if draft.Some? { SavedSpent(s.utxos, raw.inputs, t); }
    SavedOutputs(s.utxos, Saved(s.utxos, spent), s.destinations, raw.outputs, t);
    WithOutputsRecorded(s, t, raw, draft);
  }
}
