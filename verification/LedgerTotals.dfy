/** The total of all balances: what recording a transaction does to it, up to the fee of its draft. */
module LedgerTotals {
  import opened Common
  import opened Sums
  import opened Uint64
  import opened Ledger
  import opened LedgerInvariant
  import opened LedgerSteps
  import opened LedgerRuns
  import opened UtxoTable
  import opened DraftMath
  import opened DraftPaths
  import opened DraftResult

  // ----- sums over the xpubs -----------------------------------------------------------------------

  ghost function BalanceIn(xpubs: map<XpubId, Xpub>): XpubId -> int {
    x => if x in xpubs then xpubs[x].balance else 0
  }

  /** The total of all balances. */
  ghost function TotalBalance(xpubs: map<XpubId, Xpub>): int { Sum(xpubs.Keys, BalanceIn(xpubs)) }

  ghost function ValueIn(values: map<XpubId, int>): XpubId -> int { x => ValueOf(values, x) }

  lemma AddValueTotal(all: set<XpubId>, values: map<XpubId, int>, x: XpubId, amount: int)
    requires x in all
    ensures Sum(all, ValueIn(AddValue(values, x, amount))) == Sum(all, ValueIn(values)) + amount
  {
    var values' := AddValue(values, x, amount);
    SumSplit(all, x, ValueIn(values));
    SumSplit(all, x, ValueIn(values'));
    SumExtend(all - {x}, all - {x}, ValueIn(values), ValueIn(values'));
  }

  lemma {:induction false} InputsTotal(all: set<XpubId>, utxos: map<Outpoint, Utxo>, inputs: seq<Outpoint>)
    requires forall o :: o in utxos ==> utxos[o].xpub in all
    ensures Sum(all, ValueIn(InputValues(utxos, inputs))) == -(Satoshis(utxos, inputs) as int)
  {
    if inputs == [] {
      SumZero(all, ValueIn(map[]));
    } else {
      var n := |inputs| - 1;
      InputsTotal(all, utxos, inputs[..n]);
      if inputs[n] in utxos {
        AddValueTotal(all, InputValues(utxos, inputs[..n]), utxos[inputs[n]].xpub, -(utxos[inputs[n]].satoshis as int));
      }
    }
  }

  /** The satoshis of the outputs that pay one of our scripts. */
  function KnownTotal(destinations: map<Script, XpubId>, outputs: seq<TxOut>): nat {
    if outputs == [] then 0 else
      var n := |outputs| - 1;
      KnownTotal(destinations, outputs[..n]) + if outputs[n].script in destinations then outputs[n].satoshis else 0
  }

  function UnknownTotal(destinations: map<Script, XpubId>, outputs: seq<TxOut>): nat {
    if outputs == [] then 0 else
      var n := |outputs| - 1;
      UnknownTotal(destinations, outputs[..n]) + if outputs[n].script in destinations then 0 else outputs[n].satoshis
  }

  lemma {:induction false} KnownAndUnknown(destinations: map<Script, XpubId>, outputs: seq<TxOut>)
    ensures KnownTotal(destinations, outputs) + UnknownTotal(destinations, outputs) == TxOutTotal(outputs)
  {
    if outputs != [] { KnownAndUnknown(destinations, outputs[..|outputs| - 1]); }
  }

  lemma {:induction false} OutputsTotal(all: set<XpubId>, values: map<XpubId, int>, destinations: map<Script, XpubId>,
                                        outputs: seq<TxOut>)
    requires forall c :: c in destinations ==> destinations[c] in all
    ensures Sum(all, ValueIn(OutputValues(values, destinations, outputs)))
         == Sum(all, ValueIn(values)) + KnownTotal(destinations, outputs)
  {
    if outputs != [] {
      var n := |outputs| - 1;
      OutputsTotal(all, values, destinations, outputs[..n]);
      if Credited(outputs[n], destinations) {
        AddValueTotal(all, OutputValues(values, destinations, outputs[..n]), destinations[outputs[n].script],
                      outputs[n].satoshis);
      }
    }
  }

  lemma CreditTotal(xpubs: map<XpubId, Xpub>, values: map<XpubId, int>)
    ensures TotalBalance(Credit(xpubs, values)) == TotalBalance(xpubs) + Sum(xpubs.Keys, ValueIn(values))
  {
    assert Credit(xpubs, values).Keys == xpubs.Keys;
    SumAdd(xpubs.Keys, BalanceIn(xpubs), ValueIn(values), BalanceIn(Credit(xpubs, values)));
  }

  /** Recording moves the total of all balances by the known outputs minus the inputs spent. */
  lemma RecordingTotal(s: State, t: TxId, raw: RawTx, draft: Option<DraftId>)
    requires OwnersKnown(s) && (draft.Some? ==> draft.value in s.drafts)
    ensures TotalBalance(Recorded(s, t, raw, draft).xpubs)
         == TotalBalance(s.xpubs) + KnownTotal(s.destinations, raw.outputs)
            - if draft.Some? then Satoshis(s.utxos, raw.inputs) else 0
  {
    var all := s.xpubs.Keys;
    InputsTotal(all, s.utxos, raw.inputs);
    SumZero(all, ValueIn(map[]));
    var before := if draft.Some? then InputValues(s.utxos, raw.inputs) else map[];
    assert Sum(all, ValueIn(before)) == if draft.Some? then -(Satoshis(s.utxos, raw.inputs) as int) else 0;
    OutputsTotal(all, before, s.destinations, raw.outputs);
    assert TxValues(s, raw, draft) == OutputValues(before, s.destinations, raw.outputs);
    CreditTotal(s.xpubs, TxValues(s, raw, draft));
    assert Recorded(s, t, raw, draft).xpubs == Credit(s.xpubs, TxValues(s, raw, draft));
  }

  // ----- the order of the inputs does not matter -------------------------------------------------------

  ghost function SatoshisAt(utxos: map<Outpoint, Utxo>): Outpoint -> int {
    o => if o in utxos then utxos[o].satoshis else 0
  }

  lemma {:induction false} SatoshisSum(utxos: map<Outpoint, Utxo>, list: seq<Outpoint>)
    requires Distinct(list)
    ensures Satoshis(utxos, list) == Sum(Elements(list), SatoshisAt(utxos))
  {
    if list != [] {
      var n := |list| - 1;
      SatoshisSum(utxos, list[..n]);
      SumSplit(Elements(list), list[n], SatoshisAt(utxos));
      assert Elements(list) - {list[n]} == Elements(list[..n]);
    }
  }

  lemma SameSatoshis(utxos: map<Outpoint, Utxo>, utxos': map<Outpoint, Utxo>, xs: seq<Outpoint>, ys: seq<Outpoint>)
    requires Distinct(xs) && Distinct(ys) && SameInputs(xs, ys)
    requires forall o :: o in xs ==> o in utxos && o in utxos' && utxos'[o].satoshis == utxos[o].satoshis
    ensures Satoshis(utxos', ys) == Satoshis(utxos, xs)
  {
    SatoshisSum(utxos, xs);
    SatoshisSum(utxos', ys);
    assert Elements(xs) == Elements(ys);
    SumExtend(Elements(xs), Elements(ys), SatoshisAt(utxos), SatoshisAt(utxos'));
  }

  // ----- what no step changes ------------------------------------------------------------------------------

  /** Amounts and owners of UTXOs never change, nor do the inputs, outputs and fee of a stored draft. */
  ghost predicate Extends(s: State, s': State) {
    && (forall o :: o in s.utxos ==>
          o in s'.utxos && s'.utxos[o].satoshis == s.utxos[o].satoshis && s'.utxos[o].xpub == s.utxos[o].xpub)
    && (forall d :: d in s.drafts ==>
          && d in s'.drafts && s'.drafts[d].inputs == s.drafts[d].inputs
          && s'.drafts[d].outputs == s.drafts[d].outputs && s'.drafts[d].fee == s.drafts[d].fee)
  }

  lemma RecordedExtends(s: State, t: TxId, raw: RawTx, draft: Option<DraftId>)
    requires draft.Some? ==> draft.value in s.drafts
    ensures Extends(s, Recorded(s, t, raw, draft))
  {
  }

  lemma RevertExtends(s: State, t: TxId)
    ensures Extends(s, After(s, Revert(s, t)))
  {
  }

  lemma ReserveExtends(s: State, picked: set<Outpoint>, d: DraftId)
    ensures Extends(s, Reserve(s, picked, d))
  {
  }

  lemma SaveExtends(s: State, d: DraftId, draft: DraftTx)
    requires d !in s.drafts
    ensures Extends(s, StoreDraft(s, d, draft))
  {
  }

  lemma ExpireExtends(s: State, d: DraftId, now: int)
    ensures Extends(s, Expire(s, d, now))
  {
  }

  /** These steps change neither UTXOs nor drafts. */
  lemma SameRowsExtend(s: State, s': State)
    requires s'.utxos == s.utxos && s'.drafts == s.drafts
    ensures Extends(s, s')
  {
  }

  lemma StepExtends(w: World, a: Action, iuc: bool)
    requires Admissible(w, a) && PendingHeld(w)
    ensures Extends(w.s, Next(w, a, iuc))
  {
    var s := w.s;
    match a
    case Outgoing(t, raw, d) => if d in s.drafts { RecordedExtends(s, t, raw, Some(d)); }
    case Incoming(t, raw, _) => RecordedExtends(s, t, raw, None);
    case RevertTx(t) => RevertExtends(s, t);
    case ReserveUtxos(picked, d) => ReserveExtends(s, picked, d);
    case SaveDraft(d, draft) => SaveExtends(s, d, draft);
    case ExpireDraft(d, now) => ExpireExtends(s, d, now);
    case _ => SameRowsExtend(s, Next(w, a, iuc));
  }

  lemma {:induction false} RunExtends(w: World, run: seq<Action>, iuc: bool)
    requires AdmissibleRun(w, run, iuc) && PendingHeld(w)
    ensures Extends(w.s, Run(w, run, iuc).s)
    decreases |run|
  {
    if run != [] {
      StepExtends(w, run[0], iuc);
      PendingStep(w, run[0], iuc);
      RunExtends(Step(w, run[0], iuc), run[1..], iuc);
    }
  }

  // ----- end to end ----------------------------------------------------------------------------------------

  /** A stored draft whose raw outputs and fee are worth its inputs. */
  ghost predicate Balances(s: State, d: DraftId) {
    && d in s.drafts && Distinct(s.drafts[d].inputs)
    && (forall o :: o in s.drafts[d].inputs ==> o in s.utxos)
    && Satoshis(s.utxos, s.drafts[d].inputs) == TxOutTotal(Flatten(s.drafts[d].outputs)) + s.drafts[d].fee
  }

  lemma DraftBalances(s: State, picked: seq<Outpoint>, x: XpubId, d: DraftId, built: State, made: Built, expiresAt: int)
    requires Known(s.utxos, picked) && made.inputs == InputsOf(s.utxos, picked) && Distinct(OutpointsOf(made.inputs))
    requires built.utxos == Reserved(s.utxos, Elements(picked), d)
    requires made.hex == Flatten(ScriptsOf(made.plan.outputs))
    requires TxOutTotal(made.hex) + made.plan.fee == InputTotal(made.inputs)
    ensures Balances(StoreDraft(built, d, Stored(x, made, expiresAt)), d)
  {
    InputsOfReserved(s.utxos, picked, d);
    InputsOfTotal(s.utxos, picked);
    SameSatoshis(s.utxos, built.utxos, picked, picked);
  }

  /**
   * After any run, recording a transaction that carries the outputs of such a draft and spends its
   * inputs, in whatever order, takes from the balances exactly the fee and what is paid to others.
   */
  lemma RecordingCostsFee(w: World, run: seq<Action>, iuc: bool, t: TxId, raw: RawTx, d: DraftId)
    requires Steady(w) && Balances(w.s, d) && AdmissibleRun(w, run, iuc)
    requires WellFormed(t, raw) && RecordOutgoing(Run(w, run, iuc).s, t, raw, d, iuc).Success?
    requires SameInputs(raw.inputs, w.s.drafts[d].inputs) && raw.outputs == Flatten(w.s.drafts[d].outputs)
    ensures var s1 := Run(w, run, iuc).s;
      TotalBalance(RecordOutgoing(s1, t, raw, d, iuc).value.xpubs)
      == TotalBalance(s1.xpubs) - w.s.drafts[d].fee - UnknownTotal(s1.destinations, raw.outputs)
  {
    var s1 := Run(w, run, iuc).s;
    RunExtends(w, run, iuc);
    RunKeepsInv(w, run, iuc);
    SameSatoshis(w.s.utxos, s1.utxos, w.s.drafts[d].inputs, raw.inputs);
    RecordingTotal(s1, t, raw, Some(d));
    KnownAndUnknown(s1.destinations, raw.outputs);
  }

  /** The outputs as they come in: nothing resolved yet, and paymail payments that the split gets right. */
  predicate Ordered(outputs: seq<Output>) {
    forall i :: 0 <= i < |outputs| ==> outputs[i].scripts == [] && ProviderSplits(outputs[i])
  }

  /** A draft without included UTXOs whose inputs pay for its outputs and its final fee is stored balanced. */
  lemma ReservedDraftBalances(b: Before, outputs: seq<Output>, r: Result<seq<Outpoint>, Error>, picked: seq<Outpoint>,
                              s': State, made: Built, expiresAt: int)
    requires b.config.feeUnit.bytes > 0 && InputTotal(made.inputs) < TWO64 && b.extras == []
    requires PlainBuilt(b, outputs, r, picked, s', made, None) && Planned(b, outputs, r, s', made)
    requires Sane(b.config, made.inputs, outputs, b.given, b.xpub, b.start)
    requires AllMatch(outputs) && Flagged(outputs) == 0
    requires OutputTotal(outputs) + made.plan.fee <= InputTotal(made.inputs)
    ensures Balances(StoreDraft(s', b.id, Stored(b.xpub, made, expiresAt)), b.id)
  {
    PlainHex(b, outputs, r, picked, s', made);
    FinishedKinds(made, None);
    ReservationKnown(b.s.utxos, s'.utxos, b.list, b.xpub, b.id, Request(b.config, [], outputs),
                     FeeFor(b.config.feeUnit, InputSize(PubKeyHash)), b.from, r, picked);
    assert [] + r.value == r.value;
    DraftBalances(b.s, r.value, b.xpub, b.id, s', made, expiresAt);
  }

  /** So is one that needs nothing and reserves nothing. */
  lemma SkippedDraftBalances(b: Before, outputs: seq<Output>, s': State, made: Built, expiresAt: int)
    requires b.config.feeUnit.bytes > 0 && SkippedBuilt(b, [], outputs, s', made, None) && AllMatch(outputs)
    requires OutputTotal(outputs) + made.plan.fee <= InputTotal(made.inputs)
    ensures Balances(StoreDraft(s', b.id, Stored(b.xpub, made, expiresAt)), b.id)
  {
    FinishedKinds(made, None);
    FlattenTotal(outputs);
    assert InputsOf(b.s.utxos, []) == [] && Reserved(b.s.utxos, Elements([]), b.id) == b.s.utxos;
    DraftBalances(b.s, [], b.xpub, b.id, s', made, expiresAt);
  }

  lemma PlainDraftBalances(b: Before, outputs: seq<Output>, r: Result<seq<Outpoint>, Error>, picked: seq<Outpoint>,
                           s': State, made: Built, expiresAt: int)
    requires b.config.feeUnit.bytes > 0 && InputTotal(made.inputs) < TWO64 && b.extras == []
    requires PlainBuilt(b, outputs, r, picked, s', made, None)
    requires Sane(b.config, made.inputs, outputs, b.given, b.xpub, b.start)
    requires AllMatch(outputs) && Flagged(outputs) == 0
    requires OutputTotal(outputs) + made.plan.fee <= InputTotal(made.inputs)
    ensures Balances(StoreDraft(s', b.id, Stored(b.xpub, made, expiresAt)), b.id)
  {
    assert InputsOf(b.s.utxos, b.extras) == [];
    if Skips(b.config, [], outputs) {
      SkippedDraftBalances(b, outputs, s', made, expiresAt);
    } else {
      ReservedDraftBalances(b, outputs, r, picked, s', made, expiresAt);
    }
  }

  /** A draft that sends everything to an address is stored balanced. */
  lemma SendAllDraftBalances(b: Before, outputs: seq<Output>, first: Output, r: Result<seq<Outpoint>, Error>,
                             s': State, made: Built, expiresAt: int)
    requires b.config.feeUnit.bytes > 0 && InputTotal(made.inputs) < TWO64
    requires first.scripts == [] && !first.target.Paymail? && Resolved(outputs, Some(first)).Success?
      && Ordered(outputs)
    requires SendAllOk(Resolved(outputs, Some(first)).value)
    requires SendAllBuilt(b, Resolved(outputs, Some(first)).value, r, s', made, None)
    requires OutputTotal(outputs) + made.plan.fee <= InputTotal(made.inputs)
    ensures Balances(StoreDraft(s', b.id, Stored(b.xpub, made, expiresAt)), b.id)
  {
    assert InputTotal(made.inputs) > DUST_LIMIT;
    SendAllFollowsPlan(b, Resolved(outputs, Some(first)).value, r, s', made, None);
    SendAllHexTotal(b.config, outputs, first, b.given, made);
    FinishedKinds(made, None);
    TotalReservationKnown(b.s.utxos, s'.utxos, b.list, b.xpub, b.id, b.from, r);
    DraftBalances(b.s, r.value, b.xpub, b.id, s', made, expiresAt);
  }

  /**
   * What the builder's caller can see to: nothing is included, amounts fit, paymail payments and change
   * split well, and no existing output takes change; a send-all goes to an address.
   */
  ghost predicate Proper(b: Before, sendAllTo: Option<Output>, outputs: seq<Output>, inputs: seq<Input>)
    requires b.config.feeUnit.bytes > 0
  {
    && b.extras == [] && InputTotal(inputs) < TWO64 && Ordered(outputs)
    && if sendAllTo.Some? then sendAllTo.value.scripts == [] && !sendAllTo.value.target.Paymail?
       else
         && (forall i :: 0 <= i < |outputs| ==> !outputs[i].useForChange)
         && forall done :: ProcessOutputs(outputs, true) == Success(done) ==>
              Sane(b.config, inputs, done, b.given, b.xpub, b.start)
  }

  lemma {:induction false} NotFlagged(outputs: seq<Output>)
    requires forall i :: 0 <= i < |outputs| ==> !outputs[i].useForChange
    ensures Flagged(outputs) == 0
  {
    if outputs != [] { NotFlagged(outputs[..|outputs| - 1]); }
  }

  lemma NewDraftBalances(b: Before, sendAllTo: Option<Output>, outputs: seq<Output>, r: Result<seq<Outpoint>, Error>,
                         picked: seq<Outpoint>, s': State, made: Built, expiresAt: int)
    requires b.config.feeUnit.bytes > 0 && Proper(b, sendAllTo, outputs, made.inputs)
    requires DraftMade(b, sendAllTo, outputs, r, picked, s', made, None)
    requires OutputTotal(outputs) + made.plan.fee <= InputTotal(made.inputs)
    ensures Balances(StoreDraft(s', b.id, Stored(b.xpub, made, expiresAt)), b.id)
    ensures made.hex == Flatten(ScriptsOf(made.plan.outputs))
  {
    var done := Resolved(outputs, sendAllTo).value;
    if sendAllTo.Some? {
      SendAllDraftBalances(b, outputs, sendAllTo.value, r, s', made, expiresAt);
    } else {
      ProcessOutputsMatch(outputs, true);
      ResolvedMatch(outputs, true);
      NotFlagged(done);
      PlainDraftBalances(b, done, r, picked, s', made, expiresAt);
    }
    MadeFinished(b, sendAllTo, outputs, r, picked, s', made);
  }

  lemma MadeFinished(b: Before, sendAllTo: Option<Output>, outputs: seq<Output>, r: Result<seq<Outpoint>, Error>,
                     picked: seq<Outpoint>, s': State, made: Built)
    requires b.config.feeUnit.bytes > 0 && DraftMade(b, sendAllTo, outputs, r, picked, s', made, None)
    ensures made.hex == Flatten(ScriptsOf(made.plan.outputs))
  {
    FinishedKinds(made, None);
  }

  /**
   * End to end: a draft is made and saved, anything happens, and a transaction with the draft's raw
   * outputs that spends its inputs is recorded. If the inputs paid for the outputs and the final fee, the
   * balances together lose exactly the fee and what is paid to others.
   */
  lemma NewDraftCostsFee(b: Before, sendAllTo: Option<Output>, outputs: seq<Output>, r: Result<seq<Outpoint>, Error>,
                         picked: seq<Outpoint>, s': State, made: Built, expiresAt: int,
                         w: World, run: seq<Action>, iuc: bool, t: TxId, raw: RawTx)
    requires b.config.feeUnit.bytes > 0 && Proper(b, sendAllTo, outputs, made.inputs)
    requires DraftMade(b, sendAllTo, outputs, r, picked, s', made, None)
    requires OutputTotal(outputs) + made.plan.fee <= InputTotal(made.inputs)
    requires Steady(w) && w.s == StoreDraft(s', b.id, Stored(b.xpub, made, expiresAt)) && AdmissibleRun(w, run, iuc)
    requires WellFormed(t, raw) && RecordOutgoing(Run(w, run, iuc).s, t, raw, b.id, iuc).Success?
    requires SameInputs(raw.inputs, OutpointsOf(made.inputs)) && raw.outputs == made.hex
    ensures var s1 := Run(w, run, iuc).s;
      TotalBalance(RecordOutgoing(s1, t, raw, b.id, iuc).value.xpubs)
      == TotalBalance(s1.xpubs) - made.plan.fee - UnknownTotal(s1.destinations, raw.outputs)
  {
    NewDraftBalances(b, sendAllTo, outputs, r, picked, s', made, expiresAt);
    RecordingCostsFee(w, run, iuc, t, raw, b.id);
  }
}
