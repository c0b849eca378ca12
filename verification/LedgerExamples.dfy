/** Runs in which the engine departs from what it promises. */
module LedgerExamples {
  import opened Common
  import opened Sums
  import opened Ledger
  import opened LedgerInvariant
  import opened LedgerSteps
  import opened LedgerUndo
  import opened LedgerRuns
  import opened UtxoTable

  // ----- a funded draft ------------------------------------------------------------------------------

  const A := Outpoint("r", 0)
  const B := Outpoint("r", 1)
  const OWN := Foreign("own", PubKeyHash)
  const PAID := [TxOut(OWN, 10), TxOut(OWN, 5)]
  const FIRST := DraftTx("a", [A, B], [[TxOut(Foreign("to", PubKeyHash), 14)]], 1, Draft, None, 0)

  /** An xpub receives two UTXOs, and a draft takes both. */
  const SETUP := [CreateXpub("a"), CreateDestination(OWN, "a"), Incoming("r", RawTx([], PAID), true),
                  ReserveUtxos({A, B}, "d"), SaveDraft("d", FIRST)]

  function Row(satoshis: nat, draft: Option<DraftId>): Utxo { Utxo("a", satoshis, PubKeyHash, draft, None) }

  function Received(draft: Option<DraftId>, drafts: map<DraftId, DraftTx>): State {
    State(map[A := Row(10, draft), B := Row(5, draft)], map["a" := Xpub(15, 0, 0)], drafts,
          map["r" := Tx(None, RawTx([], PAID), map["a" := 15], [], ["a"], false)], map[OWN := "a"])
  }

  const FUNDED := Received(Some("d"), map["d" := FIRST])

  const OPENED := State(map[], map["a" := Xpub(0, 0, 0)], map[], map[], map[OWN := "a"])

  lemma PaidRows()
    ensures NewOutpoints("r", OPENED.destinations, PAID) == {A, B}
    ensures OutputValues(map[], OPENED.destinations, PAID) == map["a" := 15]
    ensures OutIds(OPENED.destinations, PAID) == ["a"]
  {
    var outs := NewOutpoints("r", OPENED.destinations, PAID);
    assert PAID[0].script == OWN && PAID[1].script == OWN;
    assert A in outs && B in outs;
    assert PAID[..1] == [TxOut(OWN, 10)] && PAID[..1][..0] == [];
    assert OutputValues(map[], OPENED.destinations, PAID[..1][..0]) == map[];
    assert OutputValues(map[], OPENED.destinations, PAID[..1]) == map["a" := 10];
    assert OutIds(OPENED.destinations, PAID[..1]) == ["a"];
  }

  lemma PaidUtxos()
    ensures RecordedUtxos(OPENED, "r", RawTx([], PAID), None) == map[A := Row(10, None), B := Row(5, None)]
  {
    PaidRows();
  }

  lemma Receives()
    ensures RecordIncoming(OPENED, "r", RawTx([], PAID), true) == Success(Received(None, map[]))
  {
    PaidRows();
    PaidUtxos();
    var raw := RawTx([], PAID);
    assert PAID[0].script in OPENED.destinations;
    assert TxValues(OPENED, raw, None) == map["a" := 15] && NewTx(OPENED, raw, None).outIds == ["a"];
    assert Credit(OPENED.xpubs, map["a" := 15]) == map["a" := Xpub(15, 0, 0)];
    assert Recorded(OPENED, "r", raw, None).xpubs == map["a" := Xpub(15, 0, 0)];
    assert Recorded(OPENED, "r", raw, None).txs == Received(None, map[]).txs;
  }

  lemma OpenStep(iuc: bool)
    ensures Admissible(START, SETUP[0]) && Step(START, SETUP[0], iuc) == World(CREATED, map[])
  {
  }

  lemma AddStep(iuc: bool)
    ensures Admissible(World(CREATED, map[]), SETUP[1])
    ensures Step(World(CREATED, map[]), SETUP[1], iuc) == World(OPENED, map[])
  {
  }

  lemma ReceiveStep(iuc: bool)
    ensures Admissible(World(OPENED, map[]), SETUP[2])
    ensures Step(World(OPENED, map[]), SETUP[2], iuc) == World(Received(None, map[]), map[])
  {
    Receives();
  }

  lemma ReserveBoth(iuc: bool)
    ensures Admissible(World(Received(None, map[]), map[]), SETUP[3])
    ensures Step(World(Received(None, map[]), map[]), SETUP[3], iuc)
         == World(Received(Some("d"), map[]), map["d" := {A, B}])
  {
    assert Reserve(Received(None, map[]), {A, B}, "d").utxos == Received(Some("d"), map[]).utxos;
  }

  lemma SaveFirst(iuc: bool)
    ensures Admissible(World(Received(Some("d"), map[]), map["d" := {A, B}]), SETUP[4])
    ensures Step(World(Received(Some("d"), map[]), map["d" := {A, B}]), SETUP[4], iuc) == World(FUNDED, map[])
  {
    assert Elements(FIRST.inputs) == {A, B};
  }

  /** One more step of the setup. */
  lemma SetupStep(n: nat, w: World, w': World, iuc: bool)
    requires n < 5 && AdmissibleRun(START, SETUP[..n], iuc) && Run(START, SETUP[..n], iuc) == w
    requires Admissible(w, SETUP[n]) && Step(w, SETUP[n], iuc) == w'
    ensures AdmissibleRun(START, SETUP[..n + 1], iuc) && Run(START, SETUP[..n + 1], iuc) == w'
  {
    RunThen(START, SETUP[..n], SETUP[n], iuc);
    assert SETUP[..n + 1] == SETUP[..n] + [SETUP[n]];
  }

  const CREATED := State(map[], map["a" := Xpub(0, 0, 0)], map[], map[], map[])

  lemma FundsTwo(iuc: bool)
    ensures AdmissibleRun(START, SETUP[..2], iuc) && Run(START, SETUP[..2], iuc) == World(OPENED, map[])
  {
    OpenStep(iuc);
    SetupStep(0, START, World(CREATED, map[]), iuc);
    AddStep(iuc);
    SetupStep(1, World(CREATED, map[]), World(OPENED, map[]), iuc);
  }

  lemma FundsThree(iuc: bool)
    ensures AdmissibleRun(START, SETUP[..3], iuc) && Run(START, SETUP[..3], iuc) == World(Received(None, map[]), map[])
  {
    FundsTwo(iuc);
    ReceiveStep(iuc);
    SetupStep(2, World(OPENED, map[]), World(Received(None, map[]), map[]), iuc);
  }

  lemma FundsFour(iuc: bool)
    ensures AdmissibleRun(START, SETUP[..4], iuc)
    ensures Run(START, SETUP[..4], iuc) == World(Received(Some("d"), map[]), map["d" := {A, B}])
  {
    FundsThree(iuc);
    ReserveBoth(iuc);
    SetupStep(3, World(Received(None, map[]), map[]), World(Received(Some("d"), map[]), map["d" := {A, B}]), iuc);
  }

  lemma Funds(iuc: bool)
    ensures AdmissibleRun(START, SETUP, iuc) && Run(START, SETUP, iuc) == World(FUNDED, map[])
  {
    FundsFour(iuc);
    SaveFirst(iuc);
    SetupStep(4, World(Received(Some("d"), map[]), map["d" := {A, B}]), World(FUNDED, map[]), iuc);
    assert SETUP[..5] == SETUP;
  }

  /** The state is reached from the empty engine, and keeps the invariant. */
  lemma FundedSound()
    ensures Sound(World(FUNDED, map[])) && SpendsOwn(FUNDED)
  {
    Funds(true);
    StartSound();
    NoRevertsSound(START, SETUP);
  }

  lemma {:induction false} NoRevertsSound(w: World, run: seq<Action>)
    requires Sound(w) && SpendsOwn(w.s) && AdmissibleRun(w, run, true)
    requires forall i :: 0 <= i < |run| ==> !run[i].RevertTx?
    ensures Sound(Run(w, run, true)) && SpendsOwn(Run(w, run, true).s)
    decreases |run|
  {
    if run != [] {
      StepKeepsInv(w, run[0], true);
      SpendsOwnStep(w, run[0]);
      NoRevertsSound(Step(w, run[0], true), run[1..]);
    }
  }

  // ----- UTXOs named by a second draft -----------------------------------------------------------------

  const SECOND := DraftTx("a", [A], [[TxOut(OWN, 8)]], 2, Draft, None, 0)

  lemma NamingTakes(s: State, o: Outpoint, d: DraftId, e: DraftId, draft: DraftTx)
    requires Reservations(s) && FreshDraft(s, e) && o in s.utxos && s.utxos[o].draft == Some(d)
    requires d in s.drafts && s.drafts[d].status == Draft && draft.status == Draft && draft.inputs == [o]
    ensures !OpenDraftsDisjoint(Drafted(s, {o}, e, draft))
  {
    assert Elements(draft.inputs) == {o};
    ExplicitReservation(s, {o}, e, draft);
  }

  lemma NamedOne(rows: map<Outpoint, Utxo>, x: XpubId, o: Outpoint)
    requires o in rows && rows[o].xpub == x && rows[o].spending.None?
    ensures FromError(rows, x, [o]).None?
  {
    var from := [o];
    assert from[1..] == [] && NamedError(rows, x, from[1..]).None?;
  }

  lemma FundedFacts()
    ensures FreshDraft(FUNDED, "e") && A in FUNDED.utxos && FUNDED.utxos[A] == Row(10, Some("d"))
    ensures "d" in FUNDED.drafts && FUNDED.drafts["d"] == FIRST && "r" in FUNDED.txs && FUNDED.txs.Keys == {"r"}
    ensures B in FUNDED.utxos && FUNDED.utxos[B] == Row(5, Some("d")) && FUNDED.utxos.Keys == {A, B}
  {
  }

  /** In a state reached from the empty engine, a second draft that names a UTXO of the open one gets it. */
  lemma NamingTakesFromOpenDraft()
    ensures AdmissibleRun(START, SETUP, true) && Run(START, SETUP, true).s == FUNDED && Inv(FUNDED)
    ensures FreshDraft(FUNDED, "e") && FromError(FUNDED.utxos, "a", [A]).None?
    ensures !OpenDraftsDisjoint(Drafted(FUNDED, {A}, "e", SECOND))
  {
    Funds(true);
    FundedSound();
    FundedFacts();
    NamedOne(FUNDED.utxos, "a", A);
    NamingTakes(FUNDED, A, "d", "e", SECOND);
  }

  // ----- an expired draft that is completed --------------------------------------------------------------

  /** A dead draft is completed by a new transaction that spends nothing of the wallet. */
  lemma ForeignCompletes(s: State, t: TxId, raw: RawTx, d: DraftId)
    requires Reservations(s) && d in s.drafts && s.drafts[d].Dead() && s.drafts[d].outputs != [] && t !in s.txs
    requires raw.outputs == [] && !HasKnownInput(s, raw)
    ensures var r := RecordOutgoing(s, t, raw, d, true);
      r.Success? && r.value.drafts[d].status == Complete
  {
    DeadDraftAccepts(s, t, raw, d);
  }

  const EXPIRE := ExpireDraft("d", 1)
  const FOREIGN := Outgoing("l", RawTx([Outpoint("x", 3)], []), "d")

  /** d is expired, and the wallet does not know the outpoint x:3. */
  ghost predicate Outdated(s: State) {
    && Reservations(s) && "d" in s.drafts && s.drafts["d"] == FIRST.(status := Expired)
    && "l" !in s.txs && Outpoint("x", 3) !in s.utxos
  }

  lemma ExpiredRows(s: State)
    requires "d" in s.drafts && s.drafts["d"] == FIRST
    ensures var s' := Expire(s, "d", 1);
      && s'.txs == s.txs && s'.utxos.Keys == s.utxos.Keys
      && "d" in s'.drafts && s'.drafts["d"] == FIRST.(status := Expired)
  {
  }

  lemma Outdates(s: State)
    requires Inv(s) && "d" in s.drafts && s.drafts["d"] == FIRST
    requires "l" !in s.txs && Outpoint("x", 3) !in s.utxos
    ensures Inv(Expire(s, "d", 1)) && Outdated(Expire(s, "d", 1))
  {
    ExpireReservations(s, "d", 1);
    ExpireKeepsInv(s, "d", 1);
    ExpiredRows(s);
  }

  lemma CompletesOutdated(w: World)
    requires Outdated(w.s)
    ensures Admissible(w, FOREIGN)
    ensures var s := Step(w, FOREIGN, true).s; "d" in s.drafts && s.drafts["d"].status == Complete
  {
    assert WellFormed("l", FOREIGN.raw) by { assert FOREIGN.raw.inputs[..0] == []; }
    assert FIRST.outputs != [];
    ForeignCompletes(w.s, "l", FOREIGN.raw, "d");
  }

  lemma FundedOutdates()
    ensures Inv(Expire(FUNDED, "d", 1)) && Outdated(Expire(FUNDED, "d", 1))
  {
    FundedSound();
    FundedFacts();
    Outdates(FUNDED);
  }

  lemma ExpiredReached()
    ensures AdmissibleRun(START, SETUP + [EXPIRE], true)
    ensures Run(START, SETUP + [EXPIRE], true) == World(Expire(FUNDED, "d", 1), map[])
  {
    Funds(true);
    RunThen(START, SETUP, EXPIRE, true);
  }

  /** From the empty engine: an expired draft completes with a transaction that spends nothing of the wallet. */
  lemma DeadDraftCompletes()
    ensures AdmissibleRun(START, SETUP + [EXPIRE], true) && AdmissibleRun(START, SETUP + [EXPIRE] + [FOREIGN], true)
    ensures var s := Run(START, SETUP + [EXPIRE], true).s;
      Inv(s) && "d" in s.drafts && s.drafts["d"].status == Expired
    ensures var s := Run(START, SETUP + [EXPIRE] + [FOREIGN], true).s;
      "d" in s.drafts && s.drafts["d"].status == Complete
  {
    ExpiredReached();
    FundedOutdates();
    CompletesOutdated(World(Expire(FUNDED, "d", 1), map[]));
    RunThen(START, SETUP + [EXPIRE], FOREIGN, true);
  }

  // ----- two transactions for one draft --------------------------------------------------------------------

  function SpendOne(o: Outpoint): RawTx { RawTx([o], []) }

  lemma OneInput(t: TxId, o: Outpoint)
    requires t != DELETED
    ensures WellFormed(t, SpendOne(o))
  {
    assert SpendOne(o).inputs[..0] == [];
  }

  /** o is an unspent input of the stored draft d, and reserved by it. */
  ghost predicate SpendableFor(s: State, d: DraftId, o: Outpoint) {
    && d in s.drafts && s.drafts[d].outputs != [] && o in s.drafts[d].inputs && o in s.utxos
    && s.utxos[o].draft == Some(d) && s.utxos[o].spending.None? && s.utxos[o].satoshis <= MAX_INT64
  }

  /** A transaction that spends one input of a draft is accepted for it, and leaves the other inputs as they are. */
  lemma SpendsOne(s: State, t: TxId, o: Outpoint, p: Outpoint, d: DraftId)
    requires RowsStored(s) && SpendableFor(s, d, o) && t !in s.txs
    ensures RecordOutgoing(s, t, SpendOne(o), d, true).Success?
    ensures var s' := RecordOutgoing(s, t, SpendOne(o), d, true).value;
      && (p != o && SpendableFor(s, d, p) ==> SpendableFor(s', d, p))
      && s'.txs.Keys == s.txs.Keys + {t} && s'.txs[t].draft == Some(d) && !s'.txs[t].deleted
      && s'.utxos.Keys == s.utxos.Keys && s'.utxos[o].spending == Some(t)
      && (forall q :: q in s.utxos && q != o ==> s'.utxos[q] == s.utxos[q])
      && (forall e :: e in s.txs ==> s'.txs[e] == s.txs[e])
      && s'.drafts.Keys == s.drafts.Keys && s'.drafts[d].inputs == s.drafts[d].inputs
  {
    var raw := SpendOne(o);
    assert raw.inputs[0] == o && raw.inputs[1..] == [];
    assert CheckInput(s.utxos, o, d, true).None? && CheckInputs(s.utxos, raw.inputs[1..], d, true).None?;
    assert NewOutpoints(t, s.destinations, raw.outputs) == {};
    assert o in raw.inputs;
  }

  /** Whatever spends o and p in turn, the first transaction can be reverted although it is not alone. */
  lemma NotAlone(s: State, s': State, d: DraftId, o: Outpoint, p: Outpoint, t: TxId, u: TxId)
    requires RowsStored(s) && t !in s.txs && u !in s.txs && t != u && d in s.drafts
    requires s'.utxos.Keys == s.utxos.Keys && t in s'.txs && s'.txs[t].draft == Some(d) && !s'.txs[t].deleted
    requires d in s'.drafts && p in s'.drafts[d].inputs && p in s'.utxos && s'.utxos[p].spending == Some(u)
    ensures Revertible(s', t) && !AloneOnInputs(s', t)
  {
    forall q | q in s'.utxos ensures q.txId != t { assert q in s.utxos; }
    assert p in Elements(s'.drafts[d].inputs);
  }

  /** Both steps are possible, and then the first transaction can be reverted although it is not alone. */
  lemma BothAccepted(w: World, d: DraftId, o: Outpoint, p: Outpoint, t: TxId, u: TxId)
    requires RowsStored(w.s) && SpendableFor(w.s, d, o) && SpendableFor(w.s, d, p) && o != p
    requires t !in w.s.txs && u !in w.s.txs && t != u && t != DELETED && u != DELETED
    ensures var first, second := Outgoing(t, SpendOne(o), d), Outgoing(u, SpendOne(p), d);
      && Admissible(w, first) && Admissible(Step(w, first, true), second)
      && var s := Step(Step(w, first, true), second, true).s; Revertible(s, t) && !AloneOnInputs(s, t)
  {
    OneInput(t, o);
    OneInput(u, p);
    SpendsOne(w.s, t, o, p, d);
    var s1 := RecordOutgoing(w.s, t, SpendOne(o), d, true).value;
    forall q | q in s1.utxos ensures q.txId in s1.txs && s1.utxos[q].satoshis > 0 {
      if q != o { assert s1.utxos[q] == w.s.utxos[q]; }
    }
    SpendsOne(s1, u, p, o, d);
    NotAlone(w.s, RecordOutgoing(s1, u, SpendOne(p), d, true).value, d, o, p, t, u);
  }

  lemma TwoSteps(w: World, first: Action, second: Action, iuc: bool)
    requires Admissible(w, first) && Admissible(Step(w, first, iuc), second)
    ensures AdmissibleRun(w, [first, second], iuc)
    ensures Run(w, [first, second], iuc) == Step(Step(w, first, iuc), second, iuc)
  {
    OneStep(w, first, iuc);
    RunThen(w, [first], second, iuc);
    assert [first] + [second] == [first, second];
  }

  lemma StepSound(w: World, a: Action)
    requires Sound(w) && SpendsOwn(w.s) && Admissible(w, a) && !a.RevertTx?
    ensures Sound(Step(w, a, true)) && SpendsOwn(Step(w, a, true).s)
  {
    StepKeepsInv(w, a, true);
    SpendsOwnStep(w, a);
  }

  lemma RevertUnbalances(s: State, t: TxId)
    requires Inv(s) && SpendsOwn(s) && Revertible(s, t) && !AloneOnInputs(s, t)
    ensures Revert(s, t).Success? && !Balanced(Revert(s, t).value)
  {
    RevertSucceeds(s, t);
    RevertBalancesExactly(s, t);
  }

  /**
   * Nothing tests the status of a draft when a transaction is recorded, so a draft with two inputs can be
   * completed twice, once for each. In any state that keeps the invariant, reverting the first transaction then
   * succeeds, frees what the second has spent, and the balances are wrong.
   */
  lemma RevertFreesOthers(w: World, d: DraftId, o: Outpoint, p: Outpoint, t: TxId, u: TxId)
    requires Sound(w) && SpendsOwn(w.s) && SpendableFor(w.s, d, o) && SpendableFor(w.s, d, p) && o != p
    requires t !in w.s.txs && u !in w.s.txs && t != u && t != DELETED && u != DELETED
    ensures var first, second := Outgoing(t, SpendOne(o), d), Outgoing(u, SpendOne(p), d);
      && Admissible(w, first) && Admissible(Step(w, first, true), second)
      && var s := Step(Step(w, first, true), second, true).s;
      && Inv(s) && Revert(s, t).Success? && !Balanced(Revert(s, t).value)
  {
    var first, second := Outgoing(t, SpendOne(o), d), Outgoing(u, SpendOne(p), d);
    BothAccepted(w, d, o, p, t, u);
    StepSound(w, first);
    StepSound(Step(w, first, true), second);
    RevertUnbalances(Step(Step(w, first, true), second, true).s, t);
  }

  const PAIR := [Outgoing("p", SpendOne(A), "d"), Outgoing("q", SpendOne(B), "d")]

  /** The same from the empty engine. */
  lemma TwoForOneDraft()
    ensures AdmissibleRun(START, SETUP + PAIR, true) && Inv(Run(START, SETUP + PAIR, true).s)
    ensures var r := Revert(Run(START, SETUP + PAIR, true).s, "p"); r.Success? && !Balanced(r.value)
  {
    Funds(true);
    FundedSound();
    FundedFacts();
    RevertFreesOthers(World(FUNDED, map[]), "d", A, B, "p", "q");
    TwoSteps(World(FUNDED, map[]), PAIR[0], PAIR[1], true);
    RunConcat(START, SETUP, PAIR, true);
  }
}
