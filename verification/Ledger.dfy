/**
 * The ledger as a value: the rows the engine keeps, and what each of its actions does to them.
 * The Engine class carries the actions out step by step and is proved to agree with these functions.
 */
module Ledger {
  import opened Common

  // ----- state ---------------------------------------------------------------------------

  datatype DraftStatus = Draft | Canceled | Expired | Complete

  /** A stored draft. The outputs are the scripts of each configuration output, in order. */
  datatype DraftTx = DraftTx(xpub: XpubId, inputs: seq<Outpoint>, outputs: seq<seq<TxOut>>, fee: nat,
                             status: DraftStatus, finalTx: Option<TxId>, expiresAt: int)
  {
    predicate Dead() { status == Canceled || status == Expired }
  }

  /**
   * A recorded transaction: the net value it adds to each xpub, and the xpubs it takes from and pays to.
   */
  datatype Tx = Tx(draft: Option<DraftId>, raw: RawTx, values: map<XpubId, int>,
                   inIds: seq<XpubId>, outIds: seq<XpubId>, deleted: bool)

  datatype State = State(
    utxos: map<Outpoint, Utxo>,
    xpubs: map<XpubId, Xpub>,
    drafts: map<DraftId, DraftTx>,
    txs: map<TxId, Tx>,
    destinations: map<Script, XpubId>)

  const EMPTY := State(map[], map[], map[], map[], map[])

  predicate Spendable(u: Utxo, x: XpubId) {
    u.xpub == x && u.scriptType == PubKeyHash && u.draft.None? && u.spending.None?
  }

  // ----- per-xpub values -------------------------------------------------------------------

  function ValueOf(values: map<XpubId, int>, x: XpubId): int {
    if x in values then values[x] else 0
  }

  function AddValue(values: map<XpubId, int>, x: XpubId, amount: int): map<XpubId, int> {
    values[x := ValueOf(values, x) + amount]
  }

  /** Values after the inputs: every known input is taken from its owner. */
  function InputValues(utxos: map<Outpoint, Utxo>, inputs: seq<Outpoint>): map<XpubId, int> {
    if inputs == [] then map[] else
      var n := |inputs| - 1;
      var values := InputValues(utxos, inputs[..n]);
      if inputs[n] in utxos then
        AddValue(values, utxos[inputs[n]].xpub, -(utxos[inputs[n]].satoshis as int))
      else
        values
  }

  /** An output becomes a UTXO if it carries satoshis and its script is one of ours. */
  predicate Credited(output: TxOut, destinations: map<Script, XpubId>) {
    output.satoshis > 0 && output.script in destinations
  }

  function OutputValues(values: map<XpubId, int>, destinations: map<Script, XpubId>, outputs: seq<TxOut>)
    : map<XpubId, int>
  {
    if outputs == [] then values else
      var n := |outputs| - 1;
      var before := OutputValues(values, destinations, outputs[..n]);
      if Credited(outputs[n], destinations) then
        AddValue(before, destinations[outputs[n].script], outputs[n].satoshis)
      else
        before
  }

  function TxValues(s: State, raw: RawTx, draft: Option<DraftId>): map<XpubId, int> {
    OutputValues(if draft.Some? then InputValues(s.utxos, raw.inputs) else map[], s.destinations, raw.outputs)
  }

  /** Adds x to a list of xpubs that repeats nothing. */
  function WithId(ids: seq<XpubId>, x: XpubId): seq<XpubId> { if x in ids then ids else ids + [x] }

  /** The owners of the known inputs, in the order they first occur. */
  function InIds(utxos: map<Outpoint, Utxo>, inputs: seq<Outpoint>): seq<XpubId> {
    if inputs == [] then [] else
      var n := |inputs| - 1;
      var before := InIds(utxos, inputs[..n]);
      if inputs[n] in utxos then WithId(before, utxos[inputs[n]].xpub) else before
  }

  function OutIds(destinations: map<Script, XpubId>, outputs: seq<TxOut>): seq<XpubId> {
    if outputs == [] then [] else
      var n := |outputs| - 1;
      var before := OutIds(destinations, outputs[..n]);
      if Credited(outputs[n], destinations) then WithId(before, destinations[outputs[n].script]) else before
  }

  /** The record of a transaction that is being stored. */
  function NewTx(s: State, raw: RawTx, draft: Option<DraftId>): Tx {
    Tx(draft, raw, TxValues(s, raw, draft), if draft.Some? then InIds(s.utxos, raw.inputs) else [],
       OutIds(s.destinations, raw.outputs), false)
  }

  // ----- recording a transaction -----------------------------------------------------------

  /** What stops an input from being spent through draft d; `iuc` is the input UTXO check. */
  function CheckInput(utxos: map<Outpoint, Utxo>, o: Outpoint, d: DraftId, iuc: bool): Option<Error> {
    if o !in utxos then None
    else if utxos[o].spending.Some? then Some(ErrUtxoAlreadySpent)
    else if iuc && utxos[o].draft.None? then Some(ErrUtxoNotReserved)
    else if iuc && utxos[o].draft.value != d then Some(ErrDraftIDMismatch)
    else if utxos[o].satoshis > MAX_INT64 then Some(ErrSatoshisOutOfRange)
    else None
  }

  /** The error of the first input that is refused. */
  function CheckInputs(utxos: map<Outpoint, Utxo>, inputs: seq<Outpoint>, d: DraftId, iuc: bool): Option<Error> {
    if inputs == [] then None else
      var first := CheckInput(utxos, inputs[0], d, iuc);
      if first.Some? then first else CheckInputs(utxos, inputs[1..], d, iuc)
  }

  predicate OutputsInRange(destinations: map<Script, XpubId>, outputs: seq<TxOut>) {
    forall i :: 0 <= i < |outputs| && Credited(outputs[i], destinations) ==> outputs[i].satoshis <= MAX_INT64
  }

  function NewOutpoints(t: TxId, destinations: map<Script, XpubId>, outputs: seq<TxOut>): set<Outpoint> {
    set i | 0 <= i < |outputs| && Credited(outputs[i], destinations) :: Outpoint(t, i)
  }

  /** The row of an outpoint once transaction t is stored. */
  function RecordedRow(s: State, t: TxId, raw: RawTx, draft: Option<DraftId>, o: Outpoint): Utxo
    requires o in s.utxos.Keys + NewOutpoints(t, s.destinations, raw.outputs)
  {
    if o !in s.utxos then
      var output := raw.outputs[o.index];
      Utxo(s.destinations[output.script], output.satoshis, output.script.Type(), None, None)
    else if draft.Some? && o in raw.inputs then
      s.utxos[o].(spending := Some(t))
    else
      s.utxos[o]
  }

  function RecordedUtxos(s: State, t: TxId, raw: RawTx, draft: Option<DraftId>): map<Outpoint, Utxo> {
    map o | o in s.utxos.Keys + NewOutpoints(t, s.destinations, raw.outputs) :: RecordedRow(s, t, raw, draft, o)
  }

  function Credit(xpubs: map<XpubId, Xpub>, values: map<XpubId, int>): map<XpubId, Xpub> {
    map x | x in xpubs :: xpubs[x].(balance := xpubs[x].balance + ValueOf(values, x))
  }

  function Debit(xpubs: map<XpubId, Xpub>, values: map<XpubId, int>): map<XpubId, Xpub> {
    map x | x in xpubs :: xpubs[x].(balance := xpubs[x].balance - ValueOf(values, x))
  }

  /** The state after t is stored and its hooks have run. */
  function Recorded(s: State, t: TxId, raw: RawTx, draft: Option<DraftId>): State
    requires draft.Some? ==> draft.value in s.drafts
  {
    var values := TxValues(s, raw, draft);
    s.(utxos := RecordedUtxos(s, t, raw, draft),
       xpubs := Credit(s.xpubs, values),
       drafts := if draft.None? then s.drafts else
         s.drafts[draft.value := s.drafts[draft.value].(status := Complete, finalTx := Some(t))],
       txs := s.txs[t := NewTx(s, raw, draft)])
  }

  /** The checks made before an outgoing transaction is saved. The status of the draft is not among them. */
  function OutgoingError(s: State, raw: RawTx, d: DraftId, iuc: bool): Option<Error> {
    if d !in s.drafts then Some(ErrCouldNotFindDraftTx)
    else if s.drafts[d].outputs == [] then Some(ErrDraftTxHasNoOutputs)
    else
      var refused := CheckInputs(s.utxos, raw.inputs, d, iuc);
      if refused.Some? then refused
      else if !OutputsInRange(s.destinations, raw.outputs) then Some(ErrSatoshisOutOfRange)
      else None
  }

  function RecordOutgoing(s: State, t: TxId, raw: RawTx, d: DraftId, iuc: bool): Result<State, Error> {
    var refused := OutgoingError(s, raw, d, iuc);
    if refused.Some? then Failure(refused.value)
    else if t in s.txs then Failure(ErrDuringSaveTx)
    else Success(Recorded(s, t, raw, Some(d)))
  }

  /** A transaction that is already stored is only broadcast again: the ledger rows stay. */
  function RecordIncoming(s: State, t: TxId, raw: RawTx, broadcast: bool): Result<State, Error> {
    if t in s.txs then
      if broadcast then Success(s) else Failure(ErrBroadcast)
    else if forall i :: 0 <= i < |raw.outputs| ==> raw.outputs[i].script !in s.destinations then
      Failure(ErrNoMatchingOutputs)
    else if !OutputsInRange(s.destinations, raw.outputs) then Failure(ErrSatoshisOutOfRange)
    else if !broadcast then Failure(ErrBroadcast)
    else Success(Recorded(s, t, raw, None))
  }

  // ----- drafts ----------------------------------------------------------------------------

  function Reserved(utxos: map<Outpoint, Utxo>, picked: set<Outpoint>, d: DraftId): map<Outpoint, Utxo> {
    map o | o in utxos :: if o in picked then utxos[o].(draft := Some(d)) else utxos[o]
  }

  /** Removes the reservations held by draft d. */
  function Released(utxos: map<Outpoint, Utxo>, d: DraftId): map<Outpoint, Utxo> {
    map o | o in utxos :: if utxos[o].draft == Some(d) then utxos[o].(draft := None) else utxos[o]
  }

  function Reserve(s: State, picked: set<Outpoint>, d: DraftId): State {
    s.(utxos := Reserved(s.utxos, picked, d))
  }

  function StoreDraft(s: State, d: DraftId, draft: DraftTx): State {
    s.(drafts := s.drafts[d := draft])
  }

  /** The cleanup job on one draft: only drafts still in status draft are looked at. */
  function Expire(s: State, d: DraftId, now: int): State {
    if d in s.drafts && s.drafts[d].status == Draft && now > s.drafts[d].expiresAt then
      s.(drafts := s.drafts[d := s.drafts[d].(status := Expired)], utxos := Released(s.utxos, d))
    else
      s
  }

  // ----- revert ----------------------------------------------------------------------------

  function RevertedRow(s: State, t: TxId, d: DraftId, o: Outpoint): Utxo
    requires o in s.utxos && d in s.drafts
  {
    var u := s.utxos[o];
    var u := if o.txId == t then u.(spending := Some(DELETED)) else u;
    var u := if o in s.drafts[d].inputs then u.(spending := None) else u;
    if u.draft == Some(d) then u.(draft := None) else u
  }

  /** The markers that replace what a reverted transaction shows of its xpubs. */
  function RevertedTx(tx: Tx): Tx {
    tx.(values := map[REVERTED := 0], inIds := [REVERTED], outIds := [REVERTED], deleted := true)
  }

  function RevertedState(s: State, t: TxId, d: DraftId): State
    requires t in s.txs && d in s.drafts
  {
    s.(utxos := map o | o in s.utxos :: RevertedRow(s, t, d, o),
       xpubs := Debit(s.xpubs, s.txs[t].values),
       drafts := s.drafts[d := s.drafts[d].(status := Canceled)],
       txs := s.txs[t := RevertedTx(s.txs[t])])
  }

  predicate HasSpentOutput(utxos: map<Outpoint, Utxo>, t: TxId) {
    exists o :: o in utxos && o.txId == t && utxos[o].spending.Some?
  }

  /** The tests made before a revert changes anything. The status of the transaction is not among them. */
  function RevertError(s: State, t: TxId): Option<Error> {
    if t !in s.txs then Some(ErrCouldNotFindTransaction)
    else if s.txs[t].draft.None? then Some(ErrTxRevertEmptyDraftID)
    else if s.txs[t].draft.value !in s.drafts then Some(ErrTxRevertCouldNotFindDraftTx)
    else if HasSpentOutput(s.utxos, t) then Some(ErrTxRevertUtxoAlreadySpent)
    else None
  }

  function Revert(s: State, t: TxId): Result<State, Error> {
    var refused := RevertError(s, t);
    if refused.Some? then Failure(refused.value)
    else if !(s.txs[t].values.Keys <= s.xpubs.Keys) then Failure(ErrCouldNotFindXpub)
    else Success(RevertedState(s, t, s.txs[t].draft.value))
  }

  // ----- xpubs and destinations --------------------------------------------------------------

  function NewXpub(s: State, x: XpubId): Result<State, Error> {
    if x in s.xpubs then Failure(ErrXPubAlreadyExists)
    else Success(s.(xpubs := s.xpubs[x := Xpub(0, 0, 0)]))
  }

  /**
   * Takes the next internal number of x and stores the change address derived from it. A number that
   * does not fit is noticed only after the counter has moved, and no address is made.
   */
  function NewChangeDestination(s: State, x: XpubId): State
    requires x in s.xpubs
  {
    var row := s.xpubs[x];
    s.(xpubs := s.xpubs[x := row.(nextInternal := row.nextInternal + 1)],
       destinations := if row.nextInternal < MAX_UINT32 then s.destinations[Derived(x, row.nextInternal) := x]
                       else s.destinations)
  }

  /** How many more internal numbers x can hand out. */
  function Room(s: State, x: XpubId): nat
    requires x in s.xpubs
  {
    if s.xpubs[x].nextInternal < MAX_UINT32 then MAX_UINT32 - s.xpubs[x].nextInternal else 0
  }

  /** n change addresses, one after the other, up to the first number that does not fit. */
  function NewChangeDestinations(s: State, x: XpubId, n: nat): (r: State)
    requires x in s.xpubs
    ensures x in r.xpubs
  {
    if n == 0 then s
    else
      var before := NewChangeDestinations(s, x, n - 1);
      if n > Room(s, x) + 1 then before else NewChangeDestination(before, x)
  }

  /** Takes the next external number of x, for a paymail address. */
  function NewExternalNumber(s: State, x: XpubId): State
    requires x in s.xpubs
  {
    s.(xpubs := s.xpubs[x := s.xpubs[x].(nextExternal := s.xpubs[x].nextExternal + 1)])
  }

  function AddDestination(s: State, script: Script, x: XpubId): State {
    s.(destinations := s.destinations[script := x])
  }

  /** An ancestor taken from a received BEEF is stored without touching UTXOs or balances. */
  function StoreAncestor(s: State, t: TxId, raw: RawTx): State {
    if t in s.txs then s else s.(txs := s.txs[t := Tx(None, raw, map[], [], [], false)])
  }
}
