/**
 * The engine: its tables, and its actions carried out step by step as the loops and hooks do.
 * Each action is proved to do to the ledger what the module Ledger says, and to keep it valid.
 */
module Engine {
  import opened Common
  import opened Sums
  import opened Ledger
  import opened LedgerInvariant
  import opened LedgerSteps
  import opened LedgerUndo
  import opened LedgerRuns
  import opened LedgerEffects
  import opened PendingRows
  import opened UtxoTable
  import opened XpubTable
  import opened IdOrder
  import TxStatus

  /** A transaction being recorded: it collects per-xpub values and the rows to save with it. */
  class Transaction {
    const id: TxId
    const raw: RawTx
    const draft: Option<DraftId>
    /** The recorder's xpub, which is only set when the transaction is saved. */
    var xpub: XpubId
    var values: map<XpubId, int>
    var inIds: seq<XpubId>
    var outIds: seq<XpubId>
    var pending: seq<Pending>

    constructor (id: TxId, raw: RawTx, draft: Option<DraftId>)
      ensures this.id == id && this.raw == raw && this.draft == draft && xpub == ""
      ensures values == map[] && inIds == [] && outIds == [] && pending == []
    {
      this.id, this.raw, this.draft, xpub := id, raw, draft, "";
      values, inIds, outIds, pending := map[], [], [], [];
    }

    /** What is stored for the transaction itself. */
    function Record(): Tx
      reads this
    {
      Tx(draft, raw, values, inIds, outIds, false)
    }

    /** Refuses an input that may not be spent; otherwise takes it from its owner, if it is known. */
    method ProcessInput(o: Outpoint, rows: map<Outpoint, Utxo>, iuc: bool) returns (err: Option<Error>)
      requires draft.Some?
      modifies this`values, this`inIds, this`pending
      ensures err == CheckInput(rows, o, draft.value, iuc)
      ensures o !in rows ==> values == old(values) && inIds == old(inIds) && pending == old(pending)
      ensures err.None? && o in rows ==>
        && values == AddValue(old(values), rows[o].xpub, -(rows[o].satoshis as int))
        && inIds == WithId(old(inIds), rows[o].xpub)
        && pending == old(pending) + [Pending(o, rows[o].(spending := Some(id)))]
    {
      if o in rows {
        var utxo := rows[o];
        if utxo.spending.Some? { return Some(ErrUtxoAlreadySpent); }
        if iuc {
          if utxo.draft.None? { return Some(ErrUtxoNotReserved); }
          if utxo.draft != draft { return Some(ErrDraftIDMismatch); }
        }
        if utxo.satoshis > MAX_INT64 { return Some(ErrSatoshisOutOfRange); }
        values := AddValue(values, utxo.xpub, -(utxo.satoshis as int));
        pending := pending + [Pending(o, utxo.(spending := Some(id)))];
        if utxo.xpub !in inIds { inIds := inIds + [utxo.xpub]; }
      }
      err := None;
    }

    /** Refuses at the first input that may not be spent; otherwise takes every known input from its owner. */
    method ProcessInputs(rows: map<Outpoint, Utxo>, iuc: bool) returns (err: Option<Error>)
      requires draft.Some? && values == map[] && inIds == [] && pending == []
      modifies this`values, this`inIds, this`pending
      ensures err == CheckInputs(rows, raw.inputs, draft.value, iuc)
      ensures err.None? ==>
        && values == InputValues(rows, raw.inputs) && inIds == InIds(rows, raw.inputs)
        && pending == SpentRows(rows, raw.inputs, id)
    {
      var i := 0;
      while i < |raw.inputs|
        invariant 0 <= i <= |raw.inputs|
        invariant CheckInputs(rows, raw.inputs, draft.value, iuc)
          == CheckInputs(rows, raw.inputs[i..], draft.value, iuc)
        invariant values == InputValues(rows, raw.inputs[..i]) && inIds == InIds(rows, raw.inputs[..i])
        invariant pending == SpentRows(rows, raw.inputs[..i], id)
      {
        InputTaken(rows, raw.inputs, i, id);
        InputChecked(rows, raw.inputs, i, draft.value, iuc);
        err := ProcessInput(raw.inputs[i], rows, iuc);
        if err.Some? { return; }
        i := i + 1;
      }
      assert raw.inputs[..i] == raw.inputs;
      err := None;
    }

    /** Adds a row and a value for an output that pays one of our scripts. */
    method ProcessOutput(i: nat, rows: map<Outpoint, Utxo>, destinations: map<Script, XpubId>)
      returns (err: Option<Error>)
      requires i < |raw.outputs|
      modifies this`values, this`outIds, this`pending
      ensures var output := raw.outputs[i];
        if !Credited(output, destinations) then
          err.None? && values == old(values) && outIds == old(outIds) && pending == old(pending)
        else
          && err == (if output.satoshis > MAX_INT64 then Some(ErrSatoshisOutOfRange) else None)
          && (err.None? ==>
            && values == AddValue(old(values), destinations[output.script], output.satoshis)
            && outIds == WithId(old(outIds), destinations[output.script])
            && pending == old(pending) + [PendingOutput(rows, destinations, output, id, i)])
    {
      var output := raw.outputs[i];
      if output.satoshis > 0 && output.script in destinations {
        if output.satoshis > MAX_INT64 { return Some(ErrSatoshisOutOfRange); }
        var x := destinations[output.script];
        values := AddValue(values, x, output.satoshis);
        var at := Outpoint(id, i);
        pending := pending + [Pending(at, if at in rows then rows[at] else NewRow(destinations, output))];
        if x !in outIds { outIds := outIds + [x]; }
      }
      err := None;
    }

    /** Adds a row and a value for every output that pays one of our scripts. */
    method ProcessOutputs(rows: map<Outpoint, Utxo>, destinations: map<Script, XpubId>) returns (err: Option<Error>)
      requires outIds == []
      modifies this`values, this`outIds, this`pending
      ensures err == if OutputsInRange(destinations, raw.outputs) then None else Some(ErrSatoshisOutOfRange)
      ensures err.None? ==>
        && values == OutputValues(old(values), destinations, raw.outputs) && outIds == OutIds(destinations, raw.outputs)
        && pending == old(pending) + OutputRows(rows, destinations, raw.outputs, id)
    {
      var i := 0;
      assert raw.outputs[..0] == [];
      while i < |raw.outputs|
        invariant 0 <= i <= |raw.outputs|
        invariant OutputsInRange(destinations, raw.outputs[..i])
        invariant values == OutputValues(old(values), destinations, raw.outputs[..i])
        invariant outIds == OutIds(destinations, raw.outputs[..i])
        invariant pending == old(pending) + OutputRows(rows, destinations, raw.outputs[..i], id)
      {
        assert raw.outputs[..i + 1][..i] == raw.outputs[..i];
        err := ProcessOutput(i, rows, destinations);
        if err.Some? { return; }
        i := i + 1;
      }
      assert raw.outputs[..i] == raw.outputs;
      err := None;
    }
  }

  function MarkedDeleted(rows: map<Outpoint, Utxo>, list: seq<Outpoint>): map<Outpoint, Utxo> {
    map o | o in rows :: if o in list then rows[o].(spending := Some(DELETED)) else rows[o]
  }

  function Freed(rows: map<Outpoint, Utxo>, list: seq<Outpoint>): map<Outpoint, Utxo> {
    map o | o in rows :: if o in list then rows[o].(spending := None) else rows[o]
  }

  /** The part of the values that the loop over the xpubs has already handled. */
  function Without(values: map<XpubId, int>, todo: set<XpubId>): map<XpubId, int> {
    map x | x in values && x !in todo :: values[x]
  }

  ghost predicate CreditedUpTo(rows0: map<XpubId, Xpub>, rows: map<XpubId, Xpub>, values: map<XpubId, int>,
                               todo: set<XpubId>) {
    rows == Credit(rows0, Without(values, todo))
  }

  /** What one more input adds to what is collected. */
  lemma InputTaken(rows: map<Outpoint, Utxo>, inputs: seq<Outpoint>, i: nat, t: TxId)
    requires i < |inputs|
    ensures var o, before, after := inputs[i], inputs[..i], inputs[..i + 1];
      if o in rows then
        && InputValues(rows, after) == AddValue(InputValues(rows, before), rows[o].xpub, -(rows[o].satoshis as int))
        && InIds(rows, after) == WithId(InIds(rows, before), rows[o].xpub)
        && SpentRows(rows, after, t) == SpentRows(rows, before, t) + [Pending(o, rows[o].(spending := Some(t)))]
      else
        && InputValues(rows, after) == InputValues(rows, before) && InIds(rows, after) == InIds(rows, before)
        && SpentRows(rows, after, t) == SpentRows(rows, before, t)
  {
    assert inputs[..i + 1][..i] == inputs[..i];
    if inputs[i] !in rows { assert SpentRows(rows, inputs[..i], t) + [] == SpentRows(rows, inputs[..i], t); }
  }

  lemma InputChecked(rows: map<Outpoint, Utxo>, inputs: seq<Outpoint>, i: nat, d: DraftId, iuc: bool)
    requires i < |inputs|
    ensures CheckInputs(rows, inputs[i..], d, iuc) ==
      if CheckInput(rows, inputs[i], d, iuc).Some? then CheckInput(rows, inputs[i], d, iuc)
      else CheckInputs(rows, inputs[i + 1..], d, iuc)
  {
    assert inputs[i..][1..] == inputs[i + 1..];
  }

  lemma CreditStep(rows0: map<XpubId, Xpub>, rows: map<XpubId, Xpub>, values: map<XpubId, int>, todo: set<XpubId>,
                   x: XpubId)
    requires CreditedUpTo(rows0, rows, values, todo) && x in todo && todo <= values.Keys && values.Keys <= rows0.Keys
    ensures x in rows && rows[x] == rows0[x]
    ensures CreditedUpTo(rows0, rows[x := rows[x].(balance := rows[x].balance + values[x])], values, todo - {x})
  {
  }

  lemma CreditEnds(rows0: map<XpubId, Xpub>, rows: map<XpubId, Xpub>, values: map<XpubId, int>)
    ensures CreditedUpTo(rows0, rows0, values, values.Keys)
    ensures CreditedUpTo(rows0, rows, values, {}) <==> rows == Credit(rows0, values)
  {
    assert Without(values, {}) == values;
  }

  lemma DebitStep(rows: map<XpubId, Xpub>, values: map<XpubId, int>, todo: set<XpubId>, x: XpubId)
    requires x in todo && todo <= values.Keys
    ensures var now := Debit(rows, Without(values, todo));
      now.Keys == rows.Keys && (todo == values.Keys ==> now == rows)
    ensures var now := Debit(rows, Without(values, todo));
      x in rows ==>
      && now[x] == rows[x]
      && now[x := now[x].(balance := now[x].balance - values[x])] == Debit(rows, Without(values, todo - {x}))
  {
  }

  lemma DebitEnds(rows: map<XpubId, Xpub>, values: map<XpubId, int>, todo: set<XpubId>)
    requires todo <= values.Keys && values.Keys - todo <= rows.Keys
    ensures todo == {} ==> Without(values, todo) == values
    ensures values.Keys !! rows.Keys ==> Debit(rows, Without(values, todo)) == rows
  {
    if values.Keys !! rows.Keys { assert values.Keys - todo == {}; }
  }

  const CLEANUP_PAGE: nat := 20

  function OpenDrafts(drafts: map<DraftId, DraftTx>): set<DraftId> {
    set d | d in drafts && drafts[d].status == Draft
  }

  lemma PageDistinct(ids: set<string>, n: nat, page: seq<string>)
    requires IsPage(ids, n, page)
    ensures Distinct(page) && forall d :: d in page ==> d in ids
  {
    forall i, j | 0 <= i < j < |page| ensures page[i] != page[j] { BeforeStrict(page[i]); }
    DistinctIndices(page);
  }

  class Engine {
    const utxos: Utxos
    const xpubs: Xpubs
    /** Whether an input must be reserved by the draft (the input UTXO check). */
    const iuc: bool
    const pageSize: nat
    var drafts: map<DraftId, DraftTx>
    var txs: map<TxId, Tx>
    var destinations: map<Script, XpubId>

    ghost function Contents(): State
      reads this, utxos, xpubs
    {
      State(utxos.rows, xpubs.rows, drafts, txs, destinations)
    }

    /** The tables are well formed and the cache is coherent. */
    ghost predicate Sound()
      reads this, utxos, xpubs
    {
      utxos.Valid() && Coherent(xpubs.Contents())
    }

    ghost predicate Valid()
      reads this, utxos, xpubs
    {
      Sound() && Inv(Contents())
    }

    constructor (iuc: bool, pageSize: nat)
      ensures Valid() && Contents() == EMPTY && this.iuc == iuc && this.pageSize == pageSize
      ensures fresh(utxos) && fresh(xpubs)
    {
      utxos := new Utxos();
      xpubs := new Xpubs();
      this.iuc, this.pageSize := iuc, pageSize;
      drafts, txs, destinations := map[], map[], map[];
    }

    // ----- recording ------------------------------------------------------------------------------

    /** Writes the collected rows. */
    method SavePending(pending: seq<Pending>)
      requires utxos.Valid()
      modifies utxos
      ensures utxos.Valid() && utxos.rows == Saved(old(utxos.rows), pending)
    {
      var i := 0;
      assert pending[..0] == [];
      while i < |pending|
        invariant 0 <= i <= |pending| && utxos.Valid()
        invariant utxos.rows == Saved(old(utxos.rows), pending[..i])
      {
        assert pending[..i + 1][..i] == pending[..i];
        utxos.Save(pending[i].at, pending[i].row);
        i := i + 1;
      }
      assert pending[..i] == pending;
    }

    method CreditOne(x: XpubId, values: map<XpubId, int>, ghost rows0: map<XpubId, Xpub>, ghost todo: set<XpubId>)
      returns (err: Option<Error>)
      requires Coherent(xpubs.Contents()) && x in todo && todo <= values.Keys && values.Keys <= rows0.Keys
      requires CreditedUpTo(rows0, xpubs.rows, values, todo) && rows0[x].balance + values[x] >= 0
      modifies xpubs
      ensures err.None? && Coherent(xpubs.Contents())
      ensures CreditedUpTo(rows0, xpubs.rows, values, todo - {x})
    {
      CreditStep(rows0, xpubs.rows, values, todo, x);
      err := xpubs.AddToBalance(x, values[x]);
    }

    /** Takes an amount that the balance covers. */
    method DebitOne(x: XpubId, amount: int) returns (err: Option<Error>)
      requires Coherent(xpubs.Contents()) && (x in xpubs.rows ==> xpubs.rows[x].balance - amount >= 0)
      modifies xpubs
      ensures Coherent(xpubs.Contents())
      ensures x !in old(xpubs.rows) ==> err == Some(ErrCouldNotFindXpub) && xpubs.rows == old(xpubs.rows)
      ensures x in old(xpubs.rows) ==>
        && err.None?
        && xpubs.rows == old(xpubs.rows)[x := old(xpubs.rows)[x].(balance := old(xpubs.rows)[x].balance - amount)]
    {
      err := xpubs.SaveBalance(x, amount);
    }

    /** The hook after a transaction is created: every xpub it touches gets its value. */
    method CreditAll(values: map<XpubId, int>) returns (err: Option<Error>)
      requires Coherent(xpubs.Contents()) && values.Keys <= xpubs.rows.Keys
      requires forall x :: x in values ==> xpubs.rows[x].balance + values[x] >= 0
      modifies xpubs
      ensures err.None? && Coherent(xpubs.Contents()) && xpubs.rows == Credit(old(xpubs.rows), values)
    {
      ghost var rows0 := xpubs.rows;
      var todo := values.Keys;
      CreditEnds(rows0, rows0, values);
      while todo != {}
        invariant todo <= values.Keys && Coherent(xpubs.Contents())
        invariant CreditedUpTo(rows0, xpubs.rows, values, todo)
        decreases |todo|
      {
        var x :| x in todo;
        err := CreditOne(x, values, rows0, todo);
        if err.Some? { return; }
        todo := todo - {x};
      }
      CreditEnds(rows0, xpubs.rows, values);
      err := None;
    }

    /** Writes the transaction and its rows, and then runs the hooks. */
    method Store(tx: Transaction) returns (err: Option<Error>)
      requires Sound() && tx.id !in txs && (tx.draft.Some? ==> tx.draft.value in drafts)
      requires tx.values.Keys <= xpubs.rows.Keys
      requires forall x :: x in tx.values ==> xpubs.rows[x].balance + tx.values[x] >= 0
      modifies this, utxos, xpubs
      ensures Sound() && err.None? && destinations == old(destinations)
      ensures utxos.rows == Saved(old(utxos.rows), tx.pending) && xpubs.rows == Credit(old(xpubs.rows), tx.values)
      ensures txs == old(txs)[tx.id := tx.Record()]
      ensures drafts == if tx.draft.None? then old(drafts) else
        old(drafts)[tx.draft.value := old(drafts)[tx.draft.value].(status := Complete, finalTx := Some(tx.id))]
    {
      txs := txs[tx.id := tx.Record()];
      SavePending(tx.pending);
      err := CreditAll(tx.values);
      if err.Some? { return; }
      if tx.draft.Some? {
        var d := tx.draft.value;
        drafts := drafts[d := drafts[d].(status := Complete, finalTx := Some(tx.id))];
      }
    }

    /** Saves a transaction whose rows and values have been collected. */
    method SaveTransaction(tx: Transaction) returns (err: Option<Error>)
      requires Valid() && Collected(Contents(), tx.id, tx.Record(), tx.pending)
      modifies this, utxos, xpubs
      ensures Valid()
      ensures tx.id in old(txs) ==> err == Some(ErrDuringSaveTx) && Contents() == old(Contents())
      ensures tx.id !in old(txs) ==>
        err.None? && Contents() == Recorded(old(Contents()), tx.id, tx.raw, tx.draft)
    {
      if tx.id in txs { return Some(ErrDuringSaveTx); }
      StoreFacts(Contents(), tx.id, tx.Record(), tx.pending);
      err := Store(tx);
    }

    /** Looks a draft up by its xpub and its id, or by its id alone if the xpub is empty. */
    method GetDraftTransactionID(x: XpubId, d: DraftId) returns (draft: Option<DraftTx>)
      ensures draft.Some? <==> d in drafts && (x == "" || x == drafts[d].xpub)
      ensures draft.Some? ==> draft.value == drafts[d]
    {
      draft := if d in drafts && (x == "" || drafts[d].xpub == x) then Some(drafts[d]) else None;
    }

    /** Loads the draft and collects what the transaction spends and pays. */
    method PrepareOutgoing(t: TxId, raw: RawTx, d: DraftId) returns (tx: Transaction, err: Option<Error>)
      ensures fresh(tx) && tx.id == t && tx.raw == raw && tx.draft == Some(d)
      ensures err == OutgoingError(Contents(), raw, d, iuc)
      ensures err.None? ==>
        tx.Record() == NewTx(Contents(), raw, Some(d)) && tx.pending == TxRows(Contents(), t, raw, Some(d))
    {
      tx := new Transaction(t, raw, Some(d));
      var draft := GetDraftTransactionID(tx.xpub, d);
      if draft.None? { return tx, Some(ErrCouldNotFindDraftTx); }
      if draft.value.outputs == [] { return tx, Some(ErrDraftTxHasNoOutputs); }
      err := tx.ProcessInputs(utxos.rows, iuc);
      if err.Some? { return; }
      err := tx.ProcessOutputs(utxos.rows, destinations);
    }

    /** Records a transaction for a stored draft. */
    method RecordOutgoing(t: TxId, raw: RawTx, d: DraftId) returns (err: Option<Error>)
      requires Valid() && WellFormed(t, raw)
      modifies this, utxos, xpubs
      ensures Valid()
      ensures Outcome(old(Contents()), err, Contents(), Ledger.RecordOutgoing(old(Contents()), t, raw, d, iuc))
      ensures OutgoingAnswer(old(Contents()), t, raw, d, iuc, err)
      ensures if err.None? then RecordedEffect(old(Contents()), Contents(), t, raw, Some(d))
              else Contents() == old(Contents())
    {
      OutgoingEffect(Contents(), t, raw, d, iuc);
      var tx;
      tx, err := PrepareOutgoing(t, raw, d);
      if err.Some? { return; }
      if t !in txs { OutgoingCanRecord(Contents(), t, raw, d, iuc); }
      err := SaveTransaction(tx);
    }

    /** A transaction from outside: a stored one is only broadcast again, a new one must pay one of our scripts. */
    method RecordIncoming(t: TxId, raw: RawTx, broadcast: bool) returns (err: Option<Error>)
      requires Valid() && WellFormed(t, raw)
      modifies this, utxos, xpubs
      ensures Valid()
      ensures Outcome(old(Contents()), err, Contents(), Ledger.RecordIncoming(old(Contents()), t, raw, broadcast))
      ensures IncomingAnswer(old(Contents()), t, raw, broadcast, err)
      ensures !broadcast ==> err.Some?
      ensures if err.None? && t !in old(txs) then RecordedEffect(old(Contents()), Contents(), t, raw, None)
              else Contents() == old(Contents())
    {
      IncomingEffect(Contents(), t, raw, broadcast);
      if t in txs { return if broadcast then None else Some(ErrBroadcast); }
      var tx;
      tx, err := PrepareIncoming(t, raw);
      if err.Some? { return; }
      if !broadcast { return Some(ErrBroadcast); }
      err := SaveTransaction(tx);
    }

    /** A new transaction must pay one of our scripts; what it pays is collected. */
    method PrepareIncoming(t: TxId, raw: RawTx) returns (tx: Transaction, err: Option<Error>)
      ensures fresh(tx) && tx.id == t && tx.raw == raw && tx.draft == None
      ensures err == if !PaysUs(Contents(), raw) then Some(ErrNoMatchingOutputs)
        else if !OutputsInRange(destinations, raw.outputs) then Some(ErrSatoshisOutOfRange)
        else None
      ensures err.None? ==>
        tx.Record() == NewTx(Contents(), raw, None) && tx.pending == TxRows(Contents(), t, raw, None)
    {
      tx := new Transaction(t, raw, None);
      var known := HasOneKnownDestination(raw.outputs);
      if !known { return tx, Some(ErrNoMatchingOutputs); }
      err := tx.ProcessOutputs(utxos.rows, destinations);
    }

    method HasOneKnownDestination(outputs: seq<TxOut>) returns (known: bool)
      ensures known <==> exists i :: 0 <= i < |outputs| && outputs[i].script in destinations
    {
      var i := 0;
      while i < |outputs|
        invariant 0 <= i <= |outputs| && forall j :: 0 <= j < i ==> outputs[j].script !in destinations
      {
        if outputs[i].script in destinations { return true; }
        i := i + 1;
      }
      known := false;
    }

    // ----- drafts ---------------------------------------------------------------------------------

    /** Takes UTXOs of x for a new draft: spendable ones, or those that are named. */
    method ReserveUtxos(x: XpubId, d: DraftId, satoshis: nat, inputFee: nat, from: Option<seq<Outpoint>>)
      returns (r: Result<seq<Outpoint>, Error>, ghost picked: seq<Outpoint>)
      requires Sound() && FreshDraft(Contents(), d)
      modifies utxos
      ensures Sound() && Contents() == old(Contents()).(utxos := utxos.rows)
      ensures Reservation(old(utxos.rows), utxos.rows, SpendableIn(old(utxos.order), old(utxos.rows), x), x, d,
                          satoshis, inputFee, from, r, picked)
      ensures from.None? ==>
        var list := SpendableIn(old(utxos.order), old(utxos.rows), x);
        && ListsFree(old(utxos.order), old(utxos.rows), x, list)
        && FreeTaken(old(utxos.rows), utxos.rows, list, d, satoshis, inputFee, r)
    {
      if from.Some? {
        r, picked := utxos.ReserveNamed(x, d, satoshis, inputFee, from.value);
      } else {
        r := utxos.ReserveSpendable(x, d, satoshis, inputFee, pageSize);
        picked := [];
      }
    }

    /** Takes all spendable UTXOs of x, or all that are named, for a new draft. */
    method ReserveAll(x: XpubId, d: DraftId, from: Option<seq<Outpoint>>) returns (r: Result<seq<Outpoint>, Error>)
      requires Sound()
      modifies utxos
      ensures Sound() && Contents() == old(Contents()).(utxos := utxos.rows)
      ensures TotalReservation(old(utxos.rows), utxos.rows, SpendableIn(old(utxos.order), old(utxos.rows), x), x, d,
                               from, r)
      ensures from.None? ==>
        && r.Success? && ListsFree(old(utxos.order), old(utxos.rows), x, r.value)
        && NowNames(old(utxos.rows), utxos.rows, r.value, d)
      ensures from.Some? ==>
        && NamesRefused(old(utxos.rows), x, from.value, if r.Failure? then Some(r.error) else None)
        && if r.Failure? then utxos.rows == old(utxos.rows)
           else r.value == from.value && NowNames(old(utxos.rows), utxos.rows, r.value, d)
    {
      if from.Some? {
        var err := utxos.ReserveAllNamed(x, d, from.value);
        r := if err.Some? then Failure(err.value) else Success(from.value);
      } else {
        var list := utxos.ReserveAll(x, d);
        r := Success(list);
      }
    }

    /** Saves a new draft. */
    method CreateDraft(d: DraftId, draft: DraftTx)
      modifies this`drafts
      ensures Contents() == StoreDraft(old(Contents()), d, draft)
    {
      drafts := drafts[d := draft];
    }

    /** The hook after a draft is updated lifts its reservations if it is now canceled or expired. */
    method UpdateDraft(d: DraftId, draft: DraftTx)
      requires utxos.Valid()
      modifies this`drafts, utxos
      ensures utxos.Valid() && drafts == old(drafts)[d := draft]
      ensures utxos.rows == if draft.Dead() then Released(old(utxos.rows), d) else old(utxos.rows)
    {
      drafts := drafts[d := draft];
      if draft.status == Canceled || draft.status == Expired {
        var held := utxos.HeldBy(d);
        Release(held);
      }
    }

    method Release(held: seq<Outpoint>)
      requires utxos.Valid() && forall o :: o in held ==> o in utxos.rows
      modifies utxos
      ensures utxos.Valid() && utxos.rows == ReleasedOf(old(utxos.rows), held)
    {
      var i := 0;
      assert utxos.rows == ReleasedOf(utxos.rows, held[..0]);
      while i < |held|
        invariant 0 <= i <= |held| && utxos.Valid()
        invariant utxos.rows == ReleasedOf(old(utxos.rows), held[..i])
      {
        utxos.Save(held[i], utxos.rows[held[i]].(draft := None));
        i := i + 1;
        assert held[..i] == held[..i - 1] + [held[i - 1]];
      }
      assert held[..i] == held;
    }

    method ExpireDraft(d: DraftId, now: int)
      requires Valid() && d in drafts && drafts[d].status == Draft
      modifies this`drafts, utxos
      ensures Valid() && Contents() == Expire(old(Contents()), d, now)
      ensures ExpiredEffect(old(Contents()), Contents(), if now > old(drafts)[d].expiresAt then {d} else {})
    {
      ExpireKeepsInv(Contents(), d, now);
      ExpiresOne(Contents(), d, now);
      if now > drafts[d].expiresAt { UpdateDraft(d, drafts[d].(status := Expired)); }
    }

    /** Expires the drafts of one page. */
    method ExpirePage(page: seq<DraftId>, now: int)
      requires Valid()
      requires Distinct(page) && forall d :: d in page ==> d in drafts && drafts[d].status == Draft
      modifies this`drafts, utxos
      ensures Valid() && ExpiredEffect(old(Contents()), Contents(), Late(old(drafts), page, now))
    {
      var i := 0;
      while i < |page|
        invariant 0 <= i <= |page| && Valid()
        invariant ExpiredEffect(old(Contents()), Contents(), Late(old(drafts), page[..i], now))
      {
        DistinctPrefix(page, i);
        LateNext(old(drafts), page, i, now);
        ghost var s1 := Contents();
        ExpireDraft(page[i], now);
        ExpiresMore(old(Contents()), s1, Contents(), Late(old(drafts), page[..i], now), page[i],
                    if now > old(drafts)[page[i]].expiresAt then {page[i]} else {});
        i := i + 1;
      }
      assert page[..i] == page;
    }

    /**
     * The cleanup job: of the first twenty drafts by id in status draft, those past their time are expired, and what
     * names them is released. Nothing else changes.
     */
    method CleanupDrafts(now: int) returns (ghost page: seq<DraftId>)
      requires Valid()
      modifies this`drafts, utxos
      ensures Valid() && IsPage(set d | d in old(drafts) && old(drafts)[d].status == Draft, 20, page)
      ensures ExpiredEffect(old(Contents()), Contents(),
                            set d | d in page && d in old(drafts) && now > old(drafts)[d].expiresAt)
    {
      var list := FirstPage(OpenDrafts(drafts), CLEANUP_PAGE);
      page := list;
      PageDistinct(OpenDrafts(drafts), CLEANUP_PAGE, list);
      ExpirePage(list, now);
    }

    // ----- revert ---------------------------------------------------------------------------------

    /**
     * Subtracts the values of a transaction from its xpubs, saving each xpub as a whole. An xpub that is
     * not found stops the loop after those that came before it in the map.
     */
    method DebitAll(values: map<XpubId, int>) returns (err: Option<Error>, ghost todo: set<XpubId>)
      requires Coherent(xpubs.Contents())
      requires forall x :: x in values && x in xpubs.rows ==> xpubs.rows[x].balance - values[x] >= 0
      modifies xpubs
      ensures Coherent(xpubs.Contents())
      ensures err == if values.Keys <= old(xpubs.rows).Keys then None else Some(ErrCouldNotFindXpub)
      ensures todo <= values.Keys && values.Keys - todo <= old(xpubs.rows).Keys
      ensures xpubs.rows == Debit(old(xpubs.rows), Without(values, todo)) && (err.None? ==> todo == {})
    {
      ghost var rows0 := xpubs.rows;
      var left := values.Keys;
      while left != {}
        invariant left <= values.Keys && values.Keys - left <= rows0.Keys && Coherent(xpubs.Contents())
        invariant xpubs.rows == Debit(rows0, Without(values, left))
        decreases |left|
      {
        var x :| x in left;
        DebitStep(rows0, values, left, x);
        err := DebitOne(x, values[x]);
        if err.Some? { return err, left; }
        left := left - {x};
      }
      err, todo := None, {};
    }

    method MarkDeleted(list: seq<Outpoint>)
      requires utxos.Valid() && forall o :: o in list ==> o in utxos.rows
      modifies utxos
      ensures utxos.Valid() && utxos.rows == MarkedDeleted(old(utxos.rows), list)
    {
      var i := 0;
      assert utxos.rows == MarkedDeleted(utxos.rows, list[..0]);
      while i < |list|
        invariant 0 <= i <= |list| && utxos.Valid()
        invariant utxos.rows == MarkedDeleted(old(utxos.rows), list[..i])
      {
        utxos.Save(list[i], utxos.rows[list[i]].(spending := Some(DELETED)));
        i := i + 1;
        assert list[..i] == list[..i - 1] + [list[i - 1]];
      }
      assert list[..i] == list;
    }

    method Free(list: seq<Outpoint>)
      requires utxos.Valid() && forall o :: o in list ==> o in utxos.rows
      modifies utxos
      ensures utxos.Valid() && utxos.rows == Freed(old(utxos.rows), list)
    {
      var i := 0;
      assert utxos.rows == Freed(utxos.rows, list[..0]);
      while i < |list|
        invariant 0 <= i <= |list| && utxos.Valid()
        invariant utxos.rows == Freed(old(utxos.rows), list[..i])
      {
        utxos.Save(list[i], utxos.rows[list[i]].(spending := None));
        i := i + 1;
        assert list[..i] == list[..i - 1] + [list[i - 1]];
      }
      assert list[..i] == list;
    }

    method AnySpent(list: seq<Outpoint>) returns (spent: bool)
      requires forall o :: o in list ==> o in utxos.rows
      ensures spent <==> exists o :: o in list && utxos.rows[o].spending.Some?
    {
      var i := 0;
      while i < |list|
        invariant 0 <= i <= |list| && forall j :: 0 <= j < i ==> utxos.rows[list[j]].spending.None?
      {
        if utxos.rows[list[i]].spending.Some? { return true; }
        i := i + 1;
      }
      spent := false;
    }

    /** The writes of a revert, in their order. */
    method Undo(t: TxId, d: DraftId, outputs: seq<Outpoint>) returns (err: Option<Error>)
      requires Sound() && t in txs && d in drafts
      requires forall o :: o in outputs ==> o in utxos.rows
      requires forall o :: o in drafts[d].inputs ==> o in utxos.rows
      requires forall x :: x in txs[t].values && x in xpubs.rows ==> xpubs.rows[x].balance - txs[t].values[x] >= 0
      requires txs[t].values.Keys <= xpubs.rows.Keys
            || (outputs == [] && txs[t].values != map[] && txs[t].values.Keys !! xpubs.rows.Keys)
      modifies this, utxos, xpubs
      ensures Sound() && destinations == old(destinations)
      ensures if old(txs)[t].values.Keys <= old(xpubs.rows).Keys then
          && err.None?
          && utxos.rows == Released(Freed(MarkedDeleted(old(utxos.rows), outputs), old(drafts)[d].inputs), d)
          && xpubs.rows == Debit(old(xpubs.rows), old(txs)[t].values)
          && drafts == old(drafts)[d := old(drafts)[d].(status := Canceled)]
          && txs == old(txs)[t := RevertedTx(old(txs)[t])]
        else
          err == Some(ErrCouldNotFindXpub) && Contents() == old(Contents())
    {
      var tx := txs[t];
      MarkDeleted(outputs);
      if outputs == [] { MarkNothing(old(utxos.rows), outputs); }
      ghost var todo;
      err, todo := DebitAll(tx.values);
      DebitEnds(old(xpubs.rows), tx.values, todo);
      if err.Some? { return; }
      Free(drafts[d].inputs);
      UpdateDraft(d, drafts[d].(status := Canceled));
      txs := txs[t := RevertedTx(tx)];
    }

    method CheckRevert(t: TxId) returns (err: Option<Error>, outputs: seq<Outpoint>)
      requires utxos.Valid()
      ensures err == RevertError(Contents(), t)
      ensures err.None? ==> forall o :: o in outputs <==> o in utxos.rows && o.txId == t
    {
      outputs := [];
      if t !in txs { return Some(ErrCouldNotFindTransaction), []; }
      if txs[t].draft.None? { return Some(ErrTxRevertEmptyDraftID), []; }
      if txs[t].draft.value !in drafts { return Some(ErrTxRevertCouldNotFindDraftTx), []; }
      outputs := utxos.OfTransaction(t);
      var spent := AnySpent(outputs);
      err := if spent then Some(ErrTxRevertUtxoAlreadySpent) else None;
    }

    /** Reverts a transaction whose outputs are unspent. Whether it is on chain is not looked at. */
    method RevertTransaction(t: TxId) returns (err: Option<Error>)
      requires Valid()
      modifies this, utxos, xpubs
      ensures Sound() && (RevertIsClean(old(Contents()), t) ==> Valid())
      ensures Outcome(old(Contents()), err, Contents(), Ledger.Revert(old(Contents()), t))
      ensures RevertAnswer(old(Contents()), t, err) && (err.Some? ==> Contents() == old(Contents()))
      ensures err.None? ==>
        && t in old(txs) && old(txs)[t].draft.Some? && old(txs)[t].draft.value in old(drafts)
        && RevertEffect(old(Contents()), Contents(), t, old(txs)[t].draft.value)
    {
      RevertKeepsInv(Contents(), t);
      RevertAnswers(Contents(), t);
      var outputs;
      err, outputs := CheckRevert(t);
      if err.Some? { return; }
      var d := txs[t].draft.value;
      RevertFacts(Contents(), t, d, outputs);
      err := Undo(t, d, outputs);
    }

    // ----- executing an outgoing transaction ----------------------------------------------------------

    /**
     * After a failed notification: if the chain answers that it does not know the transaction, the
     * recording is reverted, unless that fails; otherwise the transaction is marked as problematic.
     */
    method HandleNotifyP2PError(t: TxId, onChain: Option<bool>) returns (err: Error, write: TxStatus.Write)
      requires Valid()
      modifies this, utxos, xpubs
      ensures Sound() && (onChain != Some(false) || RevertIsClean(old(Contents()), t) ==> Valid())
      ensures err == ErrProcessP2PTx
      ensures var r := Ledger.Revert(old(Contents()), t);
        if onChain == Some(false) && r.Success? then Contents() == r.value && write == TxStatus.AfterRevert
        else Contents() == old(Contents()) && write == TxStatus.AfterFailedNotification
    {
      err, write := ErrProcessP2PTx, TxStatus.AfterFailedNotification;
      if onChain == Some(false) {
        var failed := RevertTransaction(t);
        if failed.None? { write := TxStatus.AfterRevert; }
      }
    }

    /**
     * Records the transaction, notifies the receivers' paymail provider, and broadcasts unless a
     * receiver's recording has done so; `write` is the last change to the transaction's status.
     */
    method ExecuteOutgoing(t: TxId, raw: RawTx, d: DraftId, notified: bool, onChain: Option<bool>,
                           status: TxStatus.Status, broadcast: bool)
      returns (err: Option<Error>, write: Option<TxStatus.Write>)
      requires Valid() && WellFormed(t, raw)
      modifies this, utxos, xpubs
      ensures Sound() && (write != Some(TxStatus.AfterRevert) ==> Valid())
      ensures var r := Ledger.RecordOutgoing(old(Contents()), t, raw, d, iuc);
        r.Success? && RevertIsClean(r.value, t) ==> Valid()
      ensures var r := Ledger.RecordOutgoing(old(Contents()), t, raw, d, iuc);
        if r.Failure? then err == Some(r.error) && write.None? && Contents() == old(Contents())
        else
          if notified then
            && err.None? && Contents() == r.value
            && write == (if status == TxStatus.Broadcasted then None
                         else if broadcast then Some(TxStatus.AfterBroadcast) else Some(TxStatus.AfterFailedBroadcast))
          else if onChain == Some(false) then
            && err == Some(ErrProcessP2PTx) && Ledger.Revert(r.value, t) == Success(Contents())
            && write == Some(TxStatus.AfterRevert)
          else
            err == Some(ErrProcessP2PTx) && Contents() == r.value && write == Some(TxStatus.AfterFailedNotification)
    {
      ghost var s0 := Contents();
      write := None;
      err := RecordOutgoing(t, raw, d);
      if err.Some? { return; }
      if !notified {
        RecordedReverts(s0, t, raw, d, iuc);
        var p2pError, change := HandleNotifyP2PError(t, onChain);
        return Some(p2pError), Some(change);
      }
      if status != TxStatus.Broadcasted {
        write := Some(if broadcast then TxStatus.AfterBroadcast else TxStatus.AfterFailedBroadcast);
      }
    }

    // ----- xpubs and destinations ---------------------------------------------------------------------

    method NewXpub(x: XpubId) returns (err: Option<Error>)
      requires Valid() && x != REVERTED
      modifies xpubs
      ensures Valid()
      ensures Outcome(old(Contents()), err, Contents(), Ledger.NewXpub(old(Contents()), x))
      ensures err == if x in old(xpubs.rows) then Some(ErrXPubAlreadyExists) else None
      ensures xpubs.rows == if err.Some? then old(xpubs.rows) else old(xpubs.rows)[x := Xpub(0, 0, 0)]
    {
      if x !in xpubs.rows { NewXpubKeepsInv(Contents(), x); }
      err := xpubs.Create(x);
    }

    /** A change address of x: the next internal number, derived and stored as a destination. */
    method NewChangeDestination(x: XpubId) returns (r: Result<Script, Error>)
      requires Sound()
      modifies this`destinations, xpubs
      ensures utxos.Valid() && (r != Failure(ErrNumberOutOfRange) ==> Sound())
      ensures x !in old(xpubs.rows) ==> r == Failure(ErrCouldNotFindXpub) && Contents() == old(Contents())
      ensures x in old(xpubs.rows) ==>
        var num := old(xpubs.rows)[x].nextInternal;
        && r == (if num < MAX_UINT32 then Success(Derived(x, num)) else Failure(ErrNumberOutOfRange))
        && Contents() == Ledger.NewChangeDestination(old(Contents()), x)
        && xpubs.rows == old(xpubs.rows)[x := old(xpubs.rows)[x].(nextInternal := num + 1)]
        && destinations == (if num < MAX_UINT32 then old(destinations)[Derived(x, num) := x] else old(destinations))
    {
      var num := xpubs.NextNumber(x, Internal);
      if num.Failure? { return Failure(num.error); }
      var script := Derived(x, num.value);
      destinations := destinations[script := x];
      r := Success(script);
    }

    /** The external number a new paymail address derives its own addresses from. */
    method NextPaymailNumber(x: XpubId) returns (r: Result<nat, Error>)
      requires Sound()
      modifies xpubs
      ensures utxos.Valid() && (r != Failure(ErrNumberOutOfRange) ==> Sound())
      ensures x !in old(xpubs.rows) ==> r == Failure(ErrCouldNotFindXpub) && Contents() == old(Contents())
      ensures x in old(xpubs.rows) ==>
        var num := old(xpubs.rows)[x].nextExternal;
        && r == (if num < MAX_UINT32 then Success(num) else Failure(ErrNumberOutOfRange))
        && Contents() == Ledger.NewExternalNumber(old(Contents()), x)
        && xpubs.rows == old(xpubs.rows)[x := old(xpubs.rows)[x].(nextExternal := num + 1)]
    {
      r := xpubs.NextNumber(x, External);
    }

    /** An address handed out through a paymail: the destination is stored for its owner. */
    method NewPaymailDestination(script: Script, x: XpubId)
      requires Valid() && x in xpubs.rows && script.Foreign?
      modifies this`destinations
      ensures Valid() && Contents() == Ledger.AddDestination(old(Contents()), script, x)
      ensures destinations == old(destinations)[script := x]
    {
      AddDestinationKeepsInv(Contents(), script, x);
      destinations := destinations[script := x];
    }

    /** Saves an ancestor found in a received BEEF, unless it is stored already. */
    method SaveAncestor(t: TxId, raw: RawTx)
      requires Valid() && t != DELETED
      modifies this`txs
      ensures Valid() && Contents() == Ledger.StoreAncestor(old(Contents()), t, raw)
      ensures txs == if t in old(txs) then old(txs) else old(txs)[t := Tx(None, raw, map[], [], [], false)]
    {
      StoreAncestorKeepsInv(Contents(), t, raw);
      if t !in txs { txs := txs[t := Tx(None, raw, map[], [], [], false)]; }
    }
  }

  lemma MarkNothing(rows: map<Outpoint, Utxo>, list: seq<Outpoint>)
    requires forall o :: o !in list
    ensures MarkedDeleted(rows, list) == rows
  {
  }

  lemma RecordedReverts(s: State, t: TxId, raw: RawTx, d: DraftId, iuc: bool)
    requires Lasting(s) && WellFormed(t, raw) && Ledger.RecordOutgoing(s, t, raw, d, iuc).Success?
    ensures Ledger.Revert(Ledger.RecordOutgoing(s, t, raw, d, iuc).value, t).Success?
  {
    OutgoingCanRecord(s, t, raw, d, iuc);
    RevertAfterRecord(s, t, raw, d);
  }

  /** The UTXOs of a reverted transaction are marked as spent, and its marker is no xpub. */
  lemma RevertedAlready(s: State, t: TxId, outputs: seq<Outpoint>)
    requires SpentByLive(s) && DeletedMarked(s) && MarkersUnused(s) && t in s.txs && s.txs[t].deleted
    requires forall o :: o in outputs <==> o in s.utxos && o.txId == t
    ensures outputs == [] || HasSpentOutput(s.utxos, t)
    ensures s.txs[t].values.Keys == {REVERTED} && s.txs[t].values.Keys !! s.xpubs.Keys
  {
    if outputs != [] {
      assert outputs[0] in s.utxos && s.utxos[outputs[0]].spending.Some?;
    }
  }

  lemma RevertedCovered(s: State, t: TxId)
    requires Accounts(s) && DeletedMarked(s) && MarkersUnused(s) && t in s.txs && !HasSpentOutput(s.utxos, t)
    ensures forall x :: x in s.txs[t].values && x in s.xpubs ==> s.xpubs[x].balance - s.txs[t].values[x] >= 0
  {
    if s.txs[t].deleted {
      assert REVERTED !in s.xpubs;
    } else {
      forall x | x in s.txs[t].values && x in s.xpubs ensures s.xpubs[x].balance - s.txs[t].values[x] >= 0 {
        RevertCovered(s, t, x);
      }
    }
  }

  /** What the steps of a revert need from the invariant, and what they amount to. */
  lemma RevertFacts(s: State, t: TxId, d: DraftId, outputs: seq<Outpoint>)
    requires Inv(s) && t in s.txs && s.txs[t].draft == Some(d) && d in s.drafts
    requires !HasSpentOutput(s.utxos, t)
    requires forall o :: o in outputs <==> o in s.utxos && o.txId == t
    ensures forall o :: o in s.drafts[d].inputs ==> o in s.utxos
    ensures forall x :: x in s.txs[t].values && x in s.xpubs ==> s.xpubs[x].balance - s.txs[t].values[x] >= 0
    ensures s.txs[t].values.Keys <= s.xpubs.Keys ==>
      Released(Freed(MarkedDeleted(s.utxos, outputs), s.drafts[d].inputs), d) == RevertedState(s, t, d).utxos
    ensures !(s.txs[t].values.Keys <= s.xpubs.Keys) ==>
      outputs == [] && s.txs[t].values != map[] && s.txs[t].values.Keys !! s.xpubs.Keys
  {
    assert ReservedRight(s, d);
    RevertedCovered(s, t);
    if s.txs[t].deleted {
      RevertedAlready(s, t, outputs);
      assert REVERTED in s.txs[t].values;
    } else {
      RevertedRows(s, t, d, outputs);
    }
  }

  lemma RevertedRows(s: State, t: TxId, d: DraftId, outputs: seq<Outpoint>)
    requires t in s.txs && d in s.drafts
    requires forall o :: o in outputs <==> o in s.utxos && o.txId == t
    ensures Released(Freed(MarkedDeleted(s.utxos, outputs), s.drafts[d].inputs), d) == RevertedState(s, t, d).utxos
  {
  }

  /** The record and the rows a transaction carries are those that its inputs and outputs call for. */
  ghost predicate Collected(s: State, t: TxId, record: Tx, pending: seq<Pending>) {
    t !in s.txs ==>
      && CanRecord(s, t, record.raw, record.draft)
      && record == NewTx(s, record.raw, record.draft) && pending == TxRows(s, t, record.raw, record.draft)
  }

  /** What the save of a transaction needs from the invariant, and what it amounts to. */
  lemma StoreFacts(s: State, t: TxId, record: Tx, pending: seq<Pending>)
    requires Inv(s) && t !in s.txs && Collected(s, t, record, pending)
    ensures Inv(Recorded(s, t, record.raw, record.draft))
    ensures Saved(s.utxos, pending) == RecordedUtxos(s, t, record.raw, record.draft)
    ensures record == NewTx(s, record.raw, record.draft) && (record.draft.Some? ==> record.draft.value in s.drafts)
    ensures record.values.Keys <= s.xpubs.Keys
    ensures forall x :: x in record.values ==> s.xpubs[x].balance + record.values[x] >= 0
  {
    RecordedKeepsInv(s, t, record.raw, record.draft);
    SavedIsRecorded(s, t, record.raw, record.draft);
    var s' := Recorded(s, t, record.raw, record.draft);
    assert s'.txs[t].values == record.values;
    forall x | x in record.values ensures x in s.xpubs && s.xpubs[x].balance + record.values[x] >= 0 {
      assert x in s'.xpubs;
      BalanceNonNegative(s', x);
    }
  }

  /** An action either fails and leaves the ledger as it was, or does what the specification says. */
  ghost predicate Outcome(s: State, err: Option<Error>, s': State, spec: Result<State, Error>) {
    if spec.Failure? then err == Some(spec.error) && s' == s else err.None? && s' == spec.value
  }

  function ReleasedOf(rows: map<Outpoint, Utxo>, list: seq<Outpoint>): map<Outpoint, Utxo> {
    map o | o in rows :: if o in list then rows[o].(draft := None) else rows[o]
  }

  /** The drafts of the page that are past their time. */
  ghost function Late(drafts: map<DraftId, DraftTx>, page: seq<DraftId>, now: int): set<DraftId> {
    set d | d in page && d in drafts && now > drafts[d].expiresAt
  }

  lemma LateNext(drafts: map<DraftId, DraftTx>, page: seq<DraftId>, i: nat, now: int)
    requires i < |page| && page[i] in drafts && page[i] !in page[..i]
    ensures page[i] !in Late(drafts, page[..i], now)
    ensures Late(drafts, page[..i + 1], now)
         == Late(drafts, page[..i], now) + if now > drafts[page[i]].expiresAt then {page[i]} else {}
  {
    assert page[..i + 1] == page[..i] + [page[i]];
  }
}
