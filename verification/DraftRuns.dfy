/** Building a draft is a run: a reservation, new change addresses, and the save if nothing has failed. */
module DraftRuns {
  import opened Common
  import opened Sums
  import opened Ledger
  import opened LedgerInvariant
  import opened LedgerSteps
  import opened LedgerUndo
  import opened LedgerRuns
  import opened UtxoTable
  import opened DraftMath
  import opened DraftPaths
  import opened DraftResult
  import opened LedgerTotals

  // ----- the steps of the builder --------------------------------------------------------------------

  function Times(n: nat, a: Action): seq<Action> { seq(n, _ => a) }

  /** As many change addresses as fit, one step each. */
  lemma {:induction false} ChangeRun(w: World, x: XpubId, n: nat, iuc: bool) returns (k: nat)
    requires x in w.s.xpubs
    ensures AdmissibleRun(w, Times(k, CreateChangeDestination(x)), iuc)
    ensures Run(w, Times(k, CreateChangeDestination(x)), iuc) == World(NewChangeDestinations(w.s, x, n), w.pending)
  {
    k := 0;
    if n > 0 {
      var before := ChangeRun(w, x, n - 1, iuc);
      k := if n > Room(w.s, x) + 1 then before else before + 1;
      if n <= Room(w.s, x) + 1 {
        RunThen(w, Times(before, CreateChangeDestination(x)), CreateChangeDestination(x), iuc);
        assert Times(k, CreateChangeDestination(x))
          == Times(before, CreateChangeDestination(x)) + [CreateChangeDestination(x)];
      }
    }
  }

  /** The reservation, k change addresses, and the save if there is a draft to save. */
  function BuilderRun(d: DraftId, x: XpubId, picked: set<Outpoint>, k: nat, draft: Option<DraftTx>): seq<Action> {
    [ReserveUtxos(picked, d)] + Times(k, CreateChangeDestination(x))
    + if draft.Some? then [SaveDraft(d, draft.value)] else []
  }

  lemma ReserveStep(w: World, picked: seq<Outpoint>, x: XpubId, d: DraftId, iuc: bool)
    requires FreshDraft(w.s, d) && d !in w.pending && Picked(w.s.utxos, x, picked)
    ensures var a := ReserveUtxos(Elements(picked), d);
      && Admissible(w, a)
      && Step(w, a, iuc) == World(Reserve(w.s, Elements(picked), d), w.pending[d := Elements(picked)])
  {
  }

  /** What the builder takes is a run. */
  lemma TakingIsRun(w: World, b: Before, picked: seq<Outpoint>, s': State, n: nat, iuc: bool) returns (k: nat)
    requires b.s == w.s && FreshDraft(w.s, b.id) && b.id !in w.pending && Took(b, picked, s', n)
    ensures var run := BuilderRun(b.id, b.xpub, Elements(picked), k, None);
      AdmissibleRun(w, run, iuc) && Run(w, run, iuc) == World(s', w.pending[b.id := Elements(picked)])
  {
    var a := ReserveUtxos(Elements(picked), b.id);
    ReserveStep(w, picked, b.xpub, b.id, iuc);
    OneStep(w, a, iuc);
    var w1 := Step(w, a, iuc);
    k := 0;
    if s' != w1.s { k := ChangeRun(w1, b.xpub, n, iuc); }
    RunConcat(w, [a], Times(k, CreateChangeDestination(b.xpub)), iuc);
    assert BuilderRun(b.id, b.xpub, Elements(picked), k, None) == [a] + Times(k, CreateChangeDestination(b.xpub));
  }

  lemma SavingIsRun(w: World, w1: World, d: DraftId, x: XpubId, picked: set<Outpoint>, k: nat, draft: DraftTx,
                    iuc: bool)
    requires AdmissibleRun(w, BuilderRun(d, x, picked, k, None), iuc) && d !in w.pending
    requires w1 == Run(w, BuilderRun(d, x, picked, k, None), iuc) && w1.pending == w.pending[d := picked]
    requires Elements(draft.inputs) == picked && draft.status == DraftStatus.Draft
    ensures var run := BuilderRun(d, x, picked, k, Some(draft));
      AdmissibleRun(w, run, iuc) && Run(w, run, iuc) == World(StoreDraft(w1.s, d, draft), w.pending)
  {
    RunThen(w, BuilderRun(d, x, picked, k, None), SaveDraft(d, draft), iuc);
    assert BuilderRun(d, x, picked, k, Some(draft)) == BuilderRun(d, x, picked, k, None) + [SaveDraft(d, draft)];
    assert w.pending[d := picked] - {d} == w.pending;
  }

  lemma StoredInputs(b: Before, taken: seq<Outpoint>, made: Built, expiresAt: int)
    requires Picked(b.s.utxos, b.xpub, taken) && made.inputs == InputsOf(b.s.utxos, taken)
    ensures Stored(b.xpub, made, expiresAt).inputs == taken
  {
    InputsOfReserved(b.s.utxos, taken, b.id);
  }

  /**
   * Whatever a builder that names and includes no UTXOs does is a run, from any state: the reservation of
   * spendable UTXOs, change addresses, and, if nothing has failed, the save.
   */
  lemma BuilderIsRun(w: World, b: Before, sendAllTo: Option<Output>, outputs: seq<Output>,
                     r: Result<seq<Outpoint>, Error>, picked: seq<Outpoint>, s': State, made: Built,
                     err: Option<Error>, expiresAt: int, iuc: bool)
    returns (taken: seq<Outpoint>, k: nat)
    requires b.config.feeUnit.bytes > 0 && b.Plain() && b.s == w.s && FreshDraft(w.s, b.id) && b.id !in w.pending
    requires DraftMade(b, sendAllTo, outputs, r, picked, s', made, err)
    ensures Picked(w.s.utxos, b.xpub, taken)
    ensures var draft := Stored(b.xpub, made, expiresAt);
      var run := BuilderRun(b.id, b.xpub, Elements(taken), k, if err.None? then Some(draft) else None);
      && AdmissibleRun(w, run, iuc)
      && Run(w, run, iuc)
         == if err.None? then World(StoreDraft(s', b.id, draft), w.pending)
            else World(s', w.pending[b.id := Elements(taken)])
  {
    var n;
    taken, n := DraftTook(b, sendAllTo, outputs, r, picked, s', made, err);
    k := TakingIsRun(w, b, taken, s', n, iuc);
    if err.None? {
      StoredInputs(b, taken, made, expiresAt);
      SavingIsRun(w, World(s', w.pending[b.id := Elements(taken)]), b.id, b.xpub, Elements(taken), k,
                  Stored(b.xpub, made, expiresAt), iuc);
    }
  }

  // ----- from the first step of the engine to a recording -------------------------------------------

  /**
   * End to end, from the empty engine: after any run a draft is built and saved, anything happens, and a
   * transaction with the draft's raw outputs that spends its inputs is recorded. If the inputs paid for the
   * outputs and the final fee, the balances together lose exactly the fee and what is paid to others.
   */
  lemma DraftLifeCostsFee(before: seq<Action>, b: Before, sendAllTo: Option<Output>, outputs: seq<Output>,
                          r: Result<seq<Outpoint>, Error>, picked: seq<Outpoint>, s': State, made: Built,
                          expiresAt: int, run: seq<Action>, iuc: bool, t: TxId, raw: RawTx)
    requires AdmissibleRun(START, before, iuc) && b.s == Run(START, before, iuc).s
    requires FreshDraft(b.s, b.id) && b.id !in Run(START, before, iuc).pending
    requires b.config.feeUnit.bytes > 0 && b.Plain() && Proper(b, sendAllTo, outputs, made.inputs)
    requires DraftMade(b, sendAllTo, outputs, r, picked, s', made, None)
    requires OutputTotal(outputs) + made.plan.fee <= InputTotal(made.inputs)
    requires var w := World(StoreDraft(s', b.id, Stored(b.xpub, made, expiresAt)), Run(START, before, iuc).pending);
      AdmissibleRun(w, run, iuc) && RecordOutgoing(Run(w, run, iuc).s, t, raw, b.id, iuc).Success?
    requires WellFormed(t, raw) && SameInputs(raw.inputs, OutpointsOf(made.inputs)) && raw.outputs == made.hex
    ensures var w := World(StoreDraft(s', b.id, Stored(b.xpub, made, expiresAt)), Run(START, before, iuc).pending);
      var s1 := Run(w, run, iuc).s;
      TotalBalance(RecordOutgoing(s1, t, raw, b.id, iuc).value.xpubs)
      == TotalBalance(s1.xpubs) - made.plan.fee - UnknownTotal(s1.destinations, raw.outputs)
  {
    var w0 := Run(START, before, iuc);
    StartSound();
    RunKeepsInv(START, before, iuc);
    var taken, k := BuilderIsRun(w0, b, sendAllTo, outputs, r, picked, s', made, None, expiresAt, iuc);
    var draft := Stored(b.xpub, made, expiresAt);
    RunKeepsInv(w0, BuilderRun(b.id, b.xpub, Elements(taken), k, Some(draft)), iuc);
    NewDraftCostsFee(b, sendAllTo, outputs, r, picked, s', made, expiresAt,
                     World(StoreDraft(s', b.id, draft), w0.pending), run, iuc, t, raw);
  }
}
