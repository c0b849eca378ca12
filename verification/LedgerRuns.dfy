/** Theorems over whole runs of the engine. */
module LedgerRuns {
  import opened Common
  import opened Sums
  import opened Ledger
  import opened LedgerInvariant
  import opened LedgerSteps
  import opened LedgerUndo

  /**
   * One atomic step. Creating a draft takes several: a reservation, new change addresses, and the save
   * of the draft; any steps of others may come between them, and a builder that fails stops after any.
   */
  datatype Action =
    | CreateXpub(x: XpubId)
    | CreateChangeDestination(x: XpubId)
    | CreateDestination(script: Script, x: XpubId)
    | TakeExternalNumber(x: XpubId)
    | ReserveUtxos(picked: set<Outpoint>, d: DraftId)
    | SaveDraft(d: DraftId, draft: DraftTx)
    | ExpireDraft(d: DraftId, now: int)
    | Outgoing(t: TxId, raw: RawTx, d: DraftId)
    | Incoming(t: TxId, raw: RawTx, broadcast: bool)
    | RevertTx(t: TxId)
    | SaveAncestor(t: TxId, raw: RawTx)

  /** The ledger, and what drafts that are not saved yet reserved earlier in the run. */
  datatype World = World(s: State, pending: map<DraftId, set<Outpoint>>)

  const START := World(EMPTY, map[])

  function After(s: State, r: Result<State, Error>): State {
    if r.Success? then r.value else s
  }

  /**
   * What the step assumes of its arguments; a recording or a revert may still fail. A reservation takes
   * rows whose draft column is empty, and a draft is saved with what it reserved, whatever its rows say.
   */
  ghost predicate Admissible(w: World, a: Action) {
    match a
    case CreateXpub(x) => x != REVERTED
    case CreateChangeDestination(x) => x in w.s.xpubs
    case CreateDestination(script, x) => script.Foreign? && x in w.s.xpubs
    case TakeExternalNumber(x) => x in w.s.xpubs
    case ReserveUtxos(picked, d) =>
      && FreshDraft(w.s, d) && d !in w.pending
      && forall o :: o in picked ==> o in w.s.utxos && w.s.utxos[o].draft.None? && w.s.utxos[o].spending.None?
    case SaveDraft(d, draft) => d in w.pending && Elements(draft.inputs) == w.pending[d] && draft.status == Draft
    case ExpireDraft(_, _) => true
    case Outgoing(t, raw, _) => WellFormed(t, raw)
    case Incoming(t, raw, _) => WellFormed(t, raw)
    case RevertTx(_) => true
    case SaveAncestor(t, _) => t != DELETED
  }

  /** What the step does to the ledger. */
  ghost function Next(w: World, a: Action, iuc: bool): State
    requires Admissible(w, a)
  {
    var s := w.s;
    match a
    case CreateXpub(x) => After(s, NewXpub(s, x))
    case CreateChangeDestination(x) => NewChangeDestination(s, x)
    case CreateDestination(script, x) => AddDestination(s, script, x)
    case TakeExternalNumber(x) => NewExternalNumber(s, x)
    case ReserveUtxos(picked, d) => Reserve(s, picked, d)
    case SaveDraft(d, draft) => StoreDraft(s, d, draft)
    case ExpireDraft(d, now) => Expire(s, d, now)
    case Outgoing(t, raw, d) => After(s, RecordOutgoing(s, t, raw, d, iuc))
    case Incoming(t, raw, broadcast) => After(s, RecordIncoming(s, t, raw, broadcast))
    case RevertTx(t) => After(s, Revert(s, t))
    case SaveAncestor(t, raw) => StoreAncestor(s, t, raw)
  }

  ghost function Step(w: World, a: Action, iuc: bool): World
    requires Admissible(w, a)
  {
    World(Next(w, a, iuc),
          if a.ReserveUtxos? then w.pending[a.d := a.picked]
          else if a.SaveDraft? then w.pending - {a.d}
          else w.pending)
  }

  ghost predicate AdmissibleRun(w: World, run: seq<Action>, iuc: bool)
    decreases |run|
  {
    run == [] || (Admissible(w, run[0]) && AdmissibleRun(Step(w, run[0], iuc), run[1..], iuc))
  }

  ghost function Run(w: World, run: seq<Action>, iuc: bool): World
    requires AdmissibleRun(w, run, iuc)
    decreases |run|
  {
    if run == [] then w else Run(Step(w, run[0], iuc), run[1..], iuc)
  }

  // ----- runs one after the other ------------------------------------------------------------------

  lemma OneStep(w: World, a: Action, iuc: bool)
    requires Admissible(w, a)
    ensures AdmissibleRun(w, [a], iuc) && Run(w, [a], iuc) == Step(w, a, iuc)
  {
    assert AdmissibleRun(Step(w, a, iuc), [a][1..], iuc);
  }

  lemma {:induction false} RunConcat(w: World, run: seq<Action>, more: seq<Action>, iuc: bool)
    requires AdmissibleRun(w, run, iuc) && AdmissibleRun(Run(w, run, iuc), more, iuc)
    ensures AdmissibleRun(w, run + more, iuc) && Run(w, run + more, iuc) == Run(Run(w, run, iuc), more, iuc)
    decreases |run|
  {
    if run == [] {
      assert run + more == more;
    } else {
      RunConcat(Step(w, run[0], iuc), run[1..], more, iuc);
      assert (run + more)[0] == run[0] && (run + more)[1..] == run[1..] + more;
    }
  }

  lemma RunThen(w: World, run: seq<Action>, a: Action, iuc: bool)
    requires AdmissibleRun(w, run, iuc) && Admissible(Run(w, run, iuc), a)
    ensures AdmissibleRun(w, run + [a], iuc) && Run(w, run + [a], iuc) == Step(Run(w, run, iuc), a, iuc)
  {
    OneStep(Run(w, run, iuc), a, iuc);
    RunConcat(w, run, [a], iuc);
  }

  // ----- reservations of drafts that are not saved yet -----------------------------------------------

  /** The rows that name d are exactly those of `picked`. */
  ghost predicate Holds(s: State, d: DraftId, picked: set<Outpoint>) {
    forall o :: o in picked <==> o in s.utxos && s.utxos[o].draft == Some(d)
  }

  /** A draft that is not saved yet still holds what it reserved. */
  ghost predicate PendingHeld(w: World) {
    forall d :: d in w.pending ==> d !in w.s.drafts && Holds(w.s, d, w.pending[d])
  }

  /** What holds after every run. */
  ghost predicate Steady(w: World) { Lasting(w.s) && PendingHeld(w) }

  ghost predicate Sound(w: World) { Steady(w) && Accounts(w.s) }

  lemma ReserveHolds(s: State, picked: set<Outpoint>, d: DraftId)
    requires FreshDraft(s, d) && forall o :: o in picked ==> o in s.utxos && s.utxos[o].draft.None?
    ensures Holds(Reserve(s, picked, d), d, picked)
    ensures forall e, held :: e != d && Holds(s, e, held) ==> Holds(Reserve(s, picked, d), e, held)
  {
  }

  lemma ExpireHolds(s: State, d: DraftId, now: int, e: DraftId, held: set<Outpoint>)
    requires Holds(s, e, held) && e !in s.drafts
    ensures Holds(Expire(s, d, now), e, held)
  {
  }

  lemma RecordHolds(s: State, t: TxId, raw: RawTx, draft: Option<DraftId>, e: DraftId, held: set<Outpoint>)
    requires Holds(s, e, held) && (draft.Some? ==> draft.value in s.drafts)
    ensures Holds(Recorded(s, t, raw, draft), e, held)
  {
  }

  lemma RevertHolds(s: State, t: TxId, e: DraftId, held: set<Outpoint>)
    requires Holds(s, e, held) && e !in s.drafts
    ensures Holds(After(s, Revert(s, t)), e, held)
  {
  }

  /** What one draft reserved survives every step of the others. */
  lemma OthersKeepHolds(w: World, a: Action, iuc: bool, e: DraftId, held: set<Outpoint>)
    requires Admissible(w, a) && Holds(w.s, e, held) && e !in w.s.drafts && (a.ReserveUtxos? ==> a.d != e)
    ensures Holds(Next(w, a, iuc), e, held)
  {
    match a
    case ReserveUtxos(picked, d) => ReserveHolds(w.s, picked, d);
    case ExpireDraft(d, now) => ExpireHolds(w.s, d, now, e, held);
    case Outgoing(t, raw, d) => if d in w.s.drafts { RecordHolds(w.s, t, raw, Some(d), e, held); }
    case Incoming(t, raw, _) => RecordHolds(w.s, t, raw, None, e, held);
    case RevertTx(t) => RevertHolds(w.s, t, e, held);
    case _ =>
  }

  lemma DraftKeysStep(w: World, a: Action, iuc: bool)
    requires Admissible(w, a)
    ensures Next(w, a, iuc).drafts.Keys == w.s.drafts.Keys + if a.SaveDraft? then {a.d} else {}
  {
  }

  lemma PendingStep(w: World, a: Action, iuc: bool)
    requires Admissible(w, a) && PendingHeld(w)
    ensures PendingHeld(Step(w, a, iuc))
  {
    var w' := Step(w, a, iuc);
    DraftKeysStep(w, a, iuc);
    forall d | d in w'.pending ensures d !in w'.s.drafts && Holds(w'.s, d, w'.pending[d]) {
      if a.ReserveUtxos? && a.d == d {
        ReserveHolds(w.s, a.picked, d);
      } else {
        OthersKeepHolds(w, a, iuc, d, w.pending[d]);
      }
    }
  }

  /** A draft that has reserved its inputs may be saved whatever happened since. */
  lemma PendingCanBeSaved(w: World, d: DraftId, draft: DraftTx)
    requires PendingHeld(w) && Admissible(w, SaveDraft(d, draft))
    ensures HoldsInputs(w.s, d, draft)
  {
    assert forall o :: o in draft.inputs <==> o in Elements(draft.inputs);
  }

  /** If the step is a revert that succeeds, it frees what its transaction has spent. */
  ghost predicate CleanStep(w: World, a: Action) {
    a.RevertTx? ==> RevertIsClean(w.s, a.t)
  }

  ghost predicate CleanRun(w: World, run: seq<Action>, iuc: bool)
    requires AdmissibleRun(w, run, iuc)
    decreases |run|
  {
    run == [] || (CleanStep(w, run[0]) && CleanRun(Step(w, run[0], iuc), run[1..], iuc))
  }

  /** Every step keeps what lasts, and every step but a revert that is not clean keeps the accounts. */
  lemma StepKeepsInv(w: World, a: Action, iuc: bool)
    requires Steady(w) && Admissible(w, a)
    ensures Steady(Step(w, a, iuc))
    ensures Accounts(w.s) && CleanStep(w, a) ==> Accounts(Step(w, a, iuc).s)
  {
    PendingStep(w, a, iuc);
    var s := w.s;
    match a
    case CreateXpub(x) => if x !in s.xpubs { NewXpubKeepsInv(s, x); }
    case CreateChangeDestination(x) => NewChangeDestinationKeepsInv(s, x);
    case CreateDestination(script, x) => AddDestinationKeepsInv(s, script, x);
    case TakeExternalNumber(x) => NewExternalNumberKeepsInv(s, x);
    case ReserveUtxos(picked, d) => ReserveKeepsInv(s, picked, d);
    case SaveDraft(d, draft) =>
      PendingCanBeSaved(w, d, draft);
      StoreDraftKeepsInv(s, d, draft);
    case ExpireDraft(d, now) => ExpireKeepsInv(s, d, now);
    case Outgoing(t, raw, d) => RecordOutgoingKeepsInv(s, t, raw, d, iuc);
    case Incoming(t, raw, broadcast) => RecordIncomingKeepsInv(s, t, raw, broadcast);
    case RevertTx(t) => RevertKeepsInv(s, t);
    case SaveAncestor(t, raw) => StoreAncestorKeepsInv(s, t, raw);
  }

  /**
   * Over every run what lasts holds; and as long as no revert frees more or less than its transaction has
   * spent, the whole ledger invariant holds, so no balance ever goes below zero.
   */
  lemma {:induction false} RunKeepsInv(w: World, run: seq<Action>, iuc: bool)
    requires Steady(w) && AdmissibleRun(w, run, iuc)
    ensures Steady(Run(w, run, iuc))
    ensures Accounts(w.s) && CleanRun(w, run, iuc) ==>
      var s' := Run(w, run, iuc).s;
      Inv(s') && forall x :: x in s'.xpubs ==> s'.xpubs[x].balance >= 0
    decreases |run|
  {
    if run != [] {
      StepKeepsInv(w, run[0], iuc);
      RunKeepsInv(Step(w, run[0], iuc), run[1..], iuc);
    } else if Accounts(w.s) {
      forall x | x in w.s.xpubs ensures w.s.xpubs[x].balance >= 0 { BalanceNonNegative(w.s, x); }
    }
  }

  lemma StartSound()
    ensures Sound(START) && SpendsOwn(START.s) && SpendsDraft(START.s)
  {
  }

  // ----- when the balances are right --------------------------------------------------------------------

  /** The balances are right at the start of the run and after each of its steps. */
  ghost predicate BalancedThroughout(w: World, run: seq<Action>, iuc: bool)
    requires AdmissibleRun(w, run, iuc)
    decreases |run|
  {
    Balanced(w.s) && (run == [] || BalancedThroughout(Step(w, run[0], iuc), run[1..], iuc))
  }

  lemma DraftsOnlyStep(w: World, a: Action)
    requires Admissible(w, a) && (a.ReserveUtxos? || a.ExpireDraft? || (a.SaveDraft? && a.d !in w.s.drafts))
    ensures DraftsOnly(w.s, Next(w, a, true))
  {
  }

  lemma SpendsOwnStep(w: World, a: Action)
    requires Sound(w) && SpendsOwn(w.s) && Admissible(w, a)
    ensures SpendsOwn(Next(w, a, true))
  {
    var s := w.s;
    match a
    case Outgoing(t, raw, d) => if RecordOutgoing(s, t, raw, d, true).Success? { OutgoingSpendsOwn(s, t, raw, d); }
    case Incoming(t, raw, broadcast) =>
      if RecordIncoming(s, t, raw, broadcast).Success? && t !in s.txs { RecordedSpendsOwn(s, t, raw, None); }
    case RevertTx(t) =>
      RevertSucceeds(s, t);
      if Revert(s, t).Success? { RevertedSpendsOwn(s, t); }
    case SaveAncestor(t, raw) => AncestorSpendsOwn(s, t, raw);
    case ReserveUtxos(_, _) =>
      DraftsOnlyStep(w, a);
      DraftsOnlySpending(s, Next(w, a, true));
    case ExpireDraft(_, _) =>
      DraftsOnlyStep(w, a);
      DraftsOnlySpending(s, Next(w, a, true));
    case SaveDraft(_, _) =>
      DraftsOnlyStep(w, a);
      DraftsOnlySpending(s, Next(w, a, true));
    case _ => DraftsOnlySpending(s, Next(w, a, true));
  }

  lemma AncestorSpendsOwn(s: State, t: TxId, raw: RawTx)
    requires SpendsOwn(s) && SpentByLive(s) && MarkersUnused(s) && t != DELETED
    ensures SpendsOwn(StoreAncestor(s, t, raw))
  {
  }

  /** With the input check on, a revert that is not clean makes some balance wrong. */
  lemma UncleanStep(w: World, a: Action)
    requires Sound(w) && SpendsOwn(w.s) && Admissible(w, a) && !CleanStep(w, a)
    ensures !Balanced(Next(w, a, true))
  {
    RevertBalancesExactly(w.s, a.t);
  }

  /**
   * With the input check on, and whatever transactions are recorded for whatever drafts: the balances are
   * right all along a run exactly if each revert in it is clean.
   */
  lemma {:induction false} RunBalancesExactly(w: World, run: seq<Action>)
    requires Sound(w) && SpendsOwn(w.s) && AdmissibleRun(w, run, true)
    ensures BalancedThroughout(w, run, true) <==> CleanRun(w, run, true)
    decreases |run|
  {
    if run != [] {
      var w' := Step(w, run[0], true);
      if CleanStep(w, run[0]) {
        StepKeepsInv(w, run[0], true);
        SpendsOwnStep(w, run[0]);
        RunBalancesExactly(w', run[1..]);
      } else {
        UncleanStep(w, run[0]);
        assert !BalancedThroughout(w', run[1..], true);
      }
    }
  }

  /** A transaction recorded for a stored draft spends exactly the draft's inputs. */
  ghost predicate MatchingStep(w: World, a: Action) {
    a.Outgoing? && a.d in w.s.drafts ==> SameInputs(a.raw.inputs, w.s.drafts[a.d].inputs)
  }

  ghost predicate MatchingRun(w: World, run: seq<Action>, iuc: bool)
    requires AdmissibleRun(w, run, iuc)
    decreases |run|
  {
    run == [] || (MatchingStep(w, run[0]) && MatchingRun(Step(w, run[0], iuc), run[1..], iuc))
  }

  lemma SpendsDraftStep(w: World, a: Action, iuc: bool)
    requires Sound(w) && SpendsDraft(w.s) && Admissible(w, a) && MatchingStep(w, a)
    ensures CleanStep(w, a) && SpendsDraft(Next(w, a, iuc))
  {
    var s := w.s;
    match a
    case Outgoing(t, raw, d) =>
      if RecordOutgoing(s, t, raw, d, iuc).Success? {
        OutgoingCanRecord(s, t, raw, d, iuc);
        RecordedSpendsDraft(s, t, raw, Some(d));
      }
    case Incoming(t, raw, broadcast) =>
      if RecordIncoming(s, t, raw, broadcast).Success? && t !in s.txs { RecordedSpendsDraft(s, t, raw, None); }
    case RevertTx(t) =>
      RevertSucceeds(s, t);
      if Revert(s, t).Success? {
        MatchingIsClean(s, t);
        RevertedSpendsDraft(s, t);
      }
    case ReserveUtxos(_, _) =>
      DraftsOnlyStep(w, a);
      DraftsOnlySpending(s, Next(w, a, iuc));
    case ExpireDraft(_, _) =>
      DraftsOnlyStep(w, a);
      DraftsOnlySpending(s, Next(w, a, iuc));
    case SaveDraft(_, _) =>
      DraftsOnlyStep(w, a);
      DraftsOnlySpending(s, Next(w, a, iuc));
    case _ =>
  }

  /** If every transaction spends exactly the inputs of its draft, every revert is clean. */
  lemma {:induction false} MatchingRunIsClean(w: World, run: seq<Action>, iuc: bool)
    requires Sound(w) && SpendsDraft(w.s) && AdmissibleRun(w, run, iuc) && MatchingRun(w, run, iuc)
    ensures CleanRun(w, run, iuc) && Sound(Run(w, run, iuc)) && SpendsDraft(Run(w, run, iuc).s)
    decreases |run|
  {
    if run != [] {
      SpendsDraftStep(w, run[0], iuc);
      StepKeepsInv(w, run[0], iuc);
      MatchingRunIsClean(Step(w, run[0], iuc), run[1..], iuc);
    }
  }

  // ----- one spender, disjoint drafts ------------------------------------------------------------------

  ghost predicate LiveSpender(s: State, t: TxId, o: Outpoint) {
    t in s.txs && !s.txs[t].deleted && s.txs[t].draft.Some? && o in s.txs[t].raw.inputs
  }

  /** If transactions spend the inputs of their drafts, a UTXO has at most one live spender, which its row names. */
  lemma SingleSpender(run: seq<Action>, iuc: bool, o: Outpoint, t: TxId)
    requires AdmissibleRun(START, run, iuc) && MatchingRun(START, run, iuc)
    ensures var s := Run(START, run, iuc).s;
      && (o in s.utxos && t != DELETED ==> (s.utxos[o].spending == Some(t) <==> LiveSpender(s, t, o)))
      && forall t' :: LiveSpender(s, t, o) && LiveSpender(s, t', o) ==> t' == t
  {
    StartSound();
    MatchingRunIsClean(START, run, iuc);
  }

  ghost predicate OpenDraftsDisjoint(s: State) {
    forall d, d', o :: d in s.drafts && d' in s.drafts && d != d'
      && s.drafts[d].status == Draft && s.drafts[d'].status == Draft && o in s.drafts[d].inputs
      ==> o !in s.drafts[d'].inputs
  }

  /** What a draft claims: its reservation until it is saved, and then its inputs while it is open. */
  ghost function Claims(w: World, d: DraftId): set<Outpoint> {
    if d in w.pending then w.pending[d]
    else if d in w.s.drafts && w.s.drafts[d].status == Draft then Elements(w.s.drafts[d].inputs)
    else {}
  }

  lemma ClaimsHeld(w: World, d: DraftId)
    requires Reservations(w.s) && PendingHeld(w)
    ensures forall o :: o in Claims(w, d) ==> o in w.s.utxos && w.s.utxos[o].draft == Some(d)
  {
  }

  lemma ClaimsDisjoint(w: World, d: DraftId, d': DraftId)
    requires Reservations(w.s) && PendingHeld(w) && d != d'
    ensures Claims(w, d) !! Claims(w, d')
  {
    ClaimsHeld(w, d);
    ClaimsHeld(w, d');
  }

  lemma ReservedDisjoint(s: State)
    requires Reservations(s)
    ensures OpenDraftsDisjoint(s)
  {
  }

  /**
   * Over every run, however reservations and saves interleave, two drafts never claim the same UTXO;
   * in particular two different drafts in status draft have no input in common.
   */
  lemma RunKeepsDraftsDisjoint(run: seq<Action>, iuc: bool)
    requires AdmissibleRun(START, run, iuc)
    ensures var w := Run(START, run, iuc);
      && OpenDraftsDisjoint(w.s)
      && forall d, d' :: d != d' ==> Claims(w, d) !! Claims(w, d')
  {
    StartSound();
    RunKeepsInv(START, run, iuc);
    var w := Run(START, run, iuc);
    ReservedDisjoint(w.s);
    forall d, d' | d != d' ensures Claims(w, d) !! Claims(w, d') { ClaimsDisjoint(w, d, d'); }
  }

  /** The state after a draft took `picked` and was stored. */
  ghost function Drafted(s: State, picked: set<Outpoint>, d: DraftId, draft: DraftTx): State {
    StoreDraft(Reserve(s, picked, d), d, draft)
  }

  /**
   * A reservation may name its UTXOs explicitly, and that path does not look at the draft column.
   * Storing the new draft keeps the open drafts disjoint exactly when none of the named UTXOs is
   * held by an open draft.
   */
  lemma ExplicitReservation(s: State, picked: set<Outpoint>, d: DraftId, draft: DraftTx)
    requires Reservations(s) && FreshDraft(s, d) && picked <= s.utxos.Keys
    requires draft.status == Draft && Elements(draft.inputs) == picked
    ensures OpenDraftsDisjoint(Drafted(s, picked, d, draft)) <==> NotHeld(s, picked)
  {
    var s' := Drafted(s, picked, d, draft);
    assert forall o :: o in draft.inputs <==> o in Elements(draft.inputs);
    if !NotHeld(s, picked) {
      var o, d' :| o in picked && o in s.utxos && d' in s.drafts && s.drafts[d'].status == Draft
                   && s.utxos[o].draft == Some(d');
      assert o in s'.drafts[d'].inputs && o in s'.drafts[d].inputs;
    }
  }

  // ----- dead drafts -----------------------------------------------------------------------------------

  /** A known input: one whose outpoint is a UTXO of the wallet. */
  ghost predicate HasKnownInput(s: State, raw: RawTx) { exists o :: o in raw.inputs && o in s.utxos }

  lemma DeadDraftRefuses(s: State, t: TxId, raw: RawTx, d: DraftId)
    requires Reservations(s) && d in s.drafts && s.drafts[d].Dead() && HasKnownInput(s, raw)
    ensures RecordOutgoing(s, t, raw, d, true).Failure?
  {
    CheckInputsAll(s.utxos, raw.inputs, d, true);
    var o :| o in raw.inputs && o in s.utxos;
    assert ReservedRight(s, d);
    assert CheckInput(s.utxos, o, d, true).Some?;
  }

  /** What is recorded for d has an input that the wallet knows. */
  ghost predicate KnownStep(w: World, a: Action, d: DraftId) { a.Outgoing? && a.d == d ==> HasKnownInput(w.s, a.raw) }

  ghost predicate KnownRun(w: World, run: seq<Action>, d: DraftId)
    requires AdmissibleRun(w, run, true)
    decreases |run|
  {
    run == [] || (KnownStep(w, run[0], d) && KnownRun(Step(w, run[0], true), run[1..], d))
  }

  /** d stays dead, with the same inputs and final transaction. */
  ghost predicate StaysDead(s: State, s': State, d: DraftId)
    requires d in s.drafts
  {
    && d in s'.drafts && s'.drafts[d].Dead()
    && s'.drafts[d].inputs == s.drafts[d].inputs && s'.drafts[d].finalTx == s.drafts[d].finalTx
  }

  lemma DeadDraftRevert(s: State, t: TxId, d: DraftId)
    requires d in s.drafts && s.drafts[d].Dead()
    ensures StaysDead(s, After(s, Revert(s, t)), d)
  {
  }

  lemma DeadDraftOutgoing(s: State, t: TxId, raw: RawTx, d: DraftId, d': DraftId)
    requires Reservations(s) && d in s.drafts && s.drafts[d].Dead() && (d' == d ==> HasKnownInput(s, raw))
    ensures StaysDead(s, After(s, RecordOutgoing(s, t, raw, d', true)), d)
  {
    if d' == d { DeadDraftRefuses(s, t, raw, d); }
  }

  /** With the input UTXO check on, a canceled or expired draft stays canceled or expired. */
  lemma DeadDraftStep(w: World, a: Action, d: DraftId)
    requires Reservations(w.s) && d !in w.pending && Admissible(w, a) && KnownStep(w, a, d)
    requires d in w.s.drafts && w.s.drafts[d].Dead()
    ensures StaysDead(w.s, Next(w, a, true), d)
  {
    match a
    case Outgoing(t, raw, d') => DeadDraftOutgoing(w.s, t, raw, d, d');
    case RevertTx(t) => DeadDraftRevert(w.s, t, d);
    case _ =>
  }

  /** Over every run: once dead, a draft is never completed by a transaction with a known input. */
  lemma {:induction false} DeadDraftsStayDead(w: World, run: seq<Action>, d: DraftId)
    requires Steady(w) && AdmissibleRun(w, run, true) && KnownRun(w, run, d)
    requires d in w.s.drafts && w.s.drafts[d].Dead()
    ensures var s' := Run(w, run, true).s;
      d in s'.drafts && s'.drafts[d].Dead() && s'.drafts[d].finalTx == w.s.drafts[d].finalTx
    decreases |run|
  {
    if run != [] {
      StepKeepsInv(w, run[0], true);
      DeadDraftStep(w, run[0], d);
      DeadDraftsStayDead(Step(w, run[0], true), run[1..], d);
    }
  }

  /**
   * No code tests the status of the draft: a dead draft accepts exactly the new transactions in range that
   * spend no UTXO of the wallet.
   */
  lemma DeadDraftAccepts(s: State, t: TxId, raw: RawTx, d: DraftId)
    requires Reservations(s) && d in s.drafts && s.drafts[d].Dead() && s.drafts[d].outputs != []
    ensures RecordOutgoing(s, t, raw, d, true).Success? <==>
      !HasKnownInput(s, raw) && OutputsInRange(s.destinations, raw.outputs) && t !in s.txs
  {
    if HasKnownInput(s, raw) {
      DeadDraftRefuses(s, t, raw, d);
    } else {
      CheckInputsAll(s.utxos, raw.inputs, d, true);
    }
  }

  // ----- revert undoes record ---------------------------------------------------------------------------

  lemma DraftedLasting(s: State, picked: set<Outpoint>, d: DraftId, draft: DraftTx)
    requires Lasting(s) && FreshDraft(s, d) && NotHeld(s, picked) && picked <= s.utxos.Keys
    requires draft.status == Draft && Elements(draft.inputs) == picked
    ensures Lasting(Drafted(s, picked, d, draft))
  {
    ReserveKeepsInv(s, picked, d);
    var s1 := Reserve(s, picked, d);
    forall o ensures o in draft.inputs <==> o in s1.utxos && s1.utxos[o].draft == Some(d) {
      assert o in draft.inputs <==> o in Elements(draft.inputs);
    }
    StoreDraftKeepsInv(s1, d, draft);
  }

  lemma RecordedOutputsUnspent(s: State, t: TxId, raw: RawTx, draft: Option<DraftId>)
    requires RowsStored(s) && CanRecord(s, t, raw, draft)
    ensures !HasSpentOutput(RecordedUtxos(s, t, raw, draft), t)
  {
    forall o | o in RecordedUtxos(s, t, raw, draft) && o.txId == t
      ensures RecordedUtxos(s, t, raw, draft)[o].spending.None? { }
  }

  /** A transaction that has just been recorded can be reverted, once. */
  lemma RevertAfterRecord(s: State, t: TxId, raw: RawTx, d: DraftId)
    requires Lasting(s) && CanRecord(s, t, raw, Some(d))
    ensures var s2 := Recorded(s, t, raw, Some(d));
      && Revertible(s2, t) && Revert(s2, t) == Success(RevertedState(s2, t, d))
      && Revert(RevertedState(s2, t, d), t).Failure?
  {
    var s2 := Recorded(s, t, raw, Some(d));
    RecordedKeepsInv(s, t, raw, Some(d));
    RecordedOutputsUnspent(s, t, raw, Some(d));
    RevertSucceeds(s2, t);
    RevertedKeepsLasting(s2, t);
    RevertSucceeds(RevertedState(s2, t, d), t);
  }

  /** What a client may spend is the same in both states. */
  ghost predicate SameSpendable(s: State, s': State) {
    forall o, y :: o in s'.utxos && Spendable(s'.utxos[o], y) <==> o in s.utxos && Spendable(s.utxos[o], y)
  }

  /**
   * The premises of the round trip: d takes spendable UTXOs of x and is stored, and t is accepted for it. With
   * the input check on t may be any transaction; without it, its known inputs must be among those of d.
   */
  ghost predicate RoundTrip(s: State, picked: set<Outpoint>, x: XpubId, d: DraftId, draft: DraftTx,
                            t: TxId, raw: RawTx, iuc: bool)
  {
    && FreshDraft(s, d) && picked <= s.utxos.Keys
    && (forall o :: o in picked ==> Spendable(s.utxos[o], x))
    && draft.status == Draft && Elements(draft.inputs) == picked
    && WellFormed(t, raw) && RecordOutgoing(Drafted(s, picked, d, draft), t, raw, d, iuc).Success?
    && (iuc || forall o :: o in raw.inputs && o in s.utxos ==> o in picked)
  }

  lemma RoundTripInputs(s: State, picked: set<Outpoint>, x: XpubId, d: DraftId, draft: DraftTx,
                        t: TxId, raw: RawTx, iuc: bool)
    requires RoundTrip(s, picked, x, d, draft, t, raw, iuc)
    ensures forall o :: o in raw.inputs && o in s.utxos ==> o in picked
  {
    var s1 := Drafted(s, picked, d, draft);
    CheckInputsAll(s1.utxos, raw.inputs, d, iuc);
    forall o | o in raw.inputs && o in s.utxos ensures o in picked {
      assert CheckInput(s1.utxos, o, d, iuc).None?;
    }
  }

  ghost function RoundTripState(s: State, picked: set<Outpoint>, d: DraftId, draft: DraftTx, t: TxId, raw: RawTx)
    : State {
    RevertedState(Recorded(Drafted(s, picked, d, draft), t, raw, Some(d)), t, d)
  }

  /** What the rows need for the round trip. */
  ghost predicate RoundTripRows(s: State, picked: set<Outpoint>, d: DraftId, draft: DraftTx, t: TxId, raw: RawTx) {
    && RowsStored(s) && t !in s.txs && FreshDraft(s, d) && Elements(draft.inputs) == picked && picked <= s.utxos.Keys
    && (forall o :: o in picked ==> s.utxos[o].draft.None? && s.utxos[o].spending.None?)
    && (forall o :: o in raw.inputs && o in s.utxos ==> o in picked)
  }

  lemma RoundTripOld(s: State, picked: set<Outpoint>, d: DraftId, draft: DraftTx, t: TxId, raw: RawTx, o: Outpoint)
    requires RoundTripRows(s, picked, d, draft, t, raw) && o in s.utxos
    ensures var s3 := RoundTripState(s, picked, d, draft, t, raw); o in s3.utxos && s3.utxos[o] == s.utxos[o]
  {
    assert o in draft.inputs <==> o in Elements(draft.inputs);
    assert o.txId != t;
  }

  lemma RoundTripNew(s: State, picked: set<Outpoint>, d: DraftId, draft: DraftTx, t: TxId, raw: RawTx, o: Outpoint)
    requires RoundTripRows(s, picked, d, draft, t, raw)
    requires o in RoundTripState(s, picked, d, draft, t, raw).utxos && o !in s.utxos
    ensures RoundTripState(s, picked, d, draft, t, raw).utxos[o].spending == Some(DELETED)
  {
    assert o in draft.inputs <==> o in Elements(draft.inputs);
    assert o.txId == t;
  }

  lemma RoundTripXpubs(s: State, picked: set<Outpoint>, d: DraftId, draft: DraftTx, t: TxId, raw: RawTx)
    ensures RoundTripState(s, picked, d, draft, t, raw).xpubs == s.xpubs
  {
    var values := TxValues(Drafted(s, picked, d, draft), raw, Some(d));
    assert Debit(Credit(s.xpubs, values), values) == s.xpubs;
  }

  lemma RoundTripSpendable(s: State, s': State)
    requires forall o :: o in s.utxos ==> o in s'.utxos && s'.utxos[o] == s.utxos[o]
    requires forall o :: o in s'.utxos && o !in s.utxos ==> s'.utxos[o].spending == Some(DELETED)
    ensures SameSpendable(s, s')
  {
  }

  lemma RoundTripRestores(s: State, picked: set<Outpoint>, d: DraftId, draft: DraftTx, t: TxId, raw: RawTx)
    requires RoundTripRows(s, picked, d, draft, t, raw)
    ensures var s3 := RoundTripState(s, picked, d, draft, t, raw);
      && s3.xpubs == s.xpubs && (forall o :: o in s.utxos ==> o in s3.utxos && s3.utxos[o] == s.utxos[o])
      && SameSpendable(s, s3)
  {
    var s3 := RoundTripState(s, picked, d, draft, t, raw);
    forall o | o in s.utxos ensures o in s3.utxos && s3.utxos[o] == s.utxos[o] {
      RoundTripOld(s, picked, d, draft, t, raw, o);
    }
    forall o | o in s3.utxos && o !in s.utxos ensures s3.utxos[o].spending == Some(DELETED) {
      RoundTripNew(s, picked, d, draft, t, raw, o);
    }
    RoundTripXpubs(s, picked, d, draft, t, raw);
    RoundTripSpendable(s, s3);
  }

  /**
   * Reserve, record, revert: the revert succeeds, every xpub row and every UTXO row is as before the
   * reservation, the rows the transaction added are not spendable, and reverting again fails.
   */
  lemma RevertUndoesRecord(s: State, picked: set<Outpoint>, x: XpubId, d: DraftId, draft: DraftTx,
                           t: TxId, raw: RawTx, iuc: bool)
    requires Lasting(s) && RoundTrip(s, picked, x, d, draft, t, raw, iuc)
    ensures var s2 := RecordOutgoing(Drafted(s, picked, d, draft), t, raw, d, iuc).value;
      && Revert(s2, t).Success?
      && var s3 := Revert(s2, t).value;
      && s3.xpubs == s.xpubs
      && (forall o :: o in s.utxos ==> o in s3.utxos && s3.utxos[o] == s.utxos[o])
      && SameSpendable(s, s3)
      && Revert(s3, t).Failure?
  {
    assert NotHeld(s, picked);
    DraftedLasting(s, picked, d, draft);
    OutgoingCanRecord(Drafted(s, picked, d, draft), t, raw, d, iuc);
    RevertAfterRecord(Drafted(s, picked, d, draft), t, raw, d);
    RoundTripInputs(s, picked, x, d, draft, t, raw, iuc);
    RoundTripRestores(s, picked, d, draft, t, raw);
  }

  /** Nothing takes the mark off a reverted transaction. */
  lemma DeletedStep(w: World, a: Action, iuc: bool, t: TxId)
    requires Admissible(w, a) && t in w.s.txs && w.s.txs[t].deleted
    ensures t in Next(w, a, iuc).txs && Next(w, a, iuc).txs[t].deleted
  {
    match a
    case Outgoing(_, _, _) =>
    case Incoming(_, _, _) =>
    case RevertTx(_) =>
    case _ =>
  }

  /** After a successful revert, a revert of the same transaction fails at any later point of any run. */
  lemma {:induction false} SecondRevertFails(w: World, run: seq<Action>, iuc: bool, t: TxId)
    requires Steady(w) && AdmissibleRun(w, run, iuc) && t in w.s.txs && w.s.txs[t].deleted
    ensures Revert(Run(w, run, iuc).s, t).Failure?
    decreases |run|
  {
    if run == [] {
      RevertSucceeds(w.s, t);
    } else {
      StepKeepsInv(w, run[0], iuc);
      DeletedStep(w, run[0], iuc, t);
      SecondRevertFails(Step(w, run[0], iuc), run[1..], iuc, t);
    }
  }

  // ----- derivation numbers -------------------------------------------------------------------------------

  /** The step takes the next number of x on the chain. */
  predicate Takes(a: Action, x: XpubId, chain: Chain) {
    if chain == Internal then a == CreateChangeDestination(x) else a == TakeExternalNumber(x)
  }

  ghost function NextNumber(s: State, x: XpubId, chain: Chain): nat {
    if x in s.xpubs then Number(s.xpubs[x], chain) else 0
  }

  /** The numbers of x handed out on a chain during a run, in order. A number that does not fit is not. */
  ghost function HandedOut(w: World, run: seq<Action>, iuc: bool, x: XpubId, chain: Chain): seq<nat>
    requires AdmissibleRun(w, run, iuc)
    decreases |run|
  {
    if run == [] then [] else
      (if Takes(run[0], x, chain) && NextNumber(w.s, x, chain) < MAX_UINT32 then [NextNumber(w.s, x, chain)] else [])
      + HandedOut(Step(w, run[0], iuc), run[1..], iuc, x, chain)
  }

  lemma NextNumberStep(w: World, a: Action, iuc: bool, x: XpubId, chain: Chain)
    requires Admissible(w, a)
    ensures NextNumber(Next(w, a, iuc), x, chain) == NextNumber(w.s, x, chain) + if Takes(a, x, chain) then 1 else 0
  {
  }

  /**
   * The numbers handed out on either chain over any run are consecutive, so none is handed out twice;
   * and they end where the counter stands, unless it has run over the limit.
   */
  lemma {:induction false} NumbersConsecutive(w: World, run: seq<Action>, iuc: bool, x: XpubId, chain: Chain)
    requires AdmissibleRun(w, run, iuc)
    ensures var numbers := HandedOut(w, run, iuc, x, chain);
      var start, end := NextNumber(w.s, x, chain), NextNumber(Run(w, run, iuc).s, x, chain);
      && (forall i :: 0 <= i < |numbers| ==> numbers[i] == start + i < MAX_UINT32)
      && start + |numbers| <= end && (end <= MAX_UINT32 ==> end == start + |numbers|)
    decreases |run|
  {
    if run != [] {
      var w' := Step(w, run[0], iuc);
      NextNumberStep(w, run[0], iuc, x, chain);
      NumbersConsecutive(w', run[1..], iuc, x, chain);
      var start, rest := NextNumber(w.s, x, chain), HandedOut(w', run[1..], iuc, x, chain);
      var numbers := HandedOut(w, run, iuc, x, chain);
      if Takes(run[0], x, chain) && start < MAX_UINT32 {
        assert numbers == [start] + rest;
        forall i | 0 < i < |numbers| ensures numbers[i] == start + i { assert numbers[i] == rest[i - 1]; }
      } else {
        assert numbers == rest;
      }
    }
  }

  /** In a reachable state the next change address is new to the wallet. */
  lemma NextAddressIsFresh(run: seq<Action>, iuc: bool, x: XpubId)
    requires AdmissibleRun(START, run, iuc)
    ensures var s := Run(START, run, iuc).s; Derived(x, NextNumber(s, x, Internal)) !in s.destinations
  {
    StartSound();
    RunKeepsInv(START, run, iuc);
  }
}
