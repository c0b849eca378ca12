/** Reservations, expiry, revert and the remaining actions keep the ledger invariant. */
module LedgerUndo {
  import opened Common
  import opened Sums
  import opened Ledger
  import opened LedgerInvariant

  // ----- actions that only touch reservations -------------------------------------------------------

  /** m' differs from m in the draft column only. */
  ghost predicate SameButDraft(m: map<Outpoint, Utxo>, m': map<Outpoint, Utxo>) {
    m'.Keys == m.Keys && forall o :: o in m ==> m'[o] == m[o].(draft := m'[o].draft)
  }

  lemma DraftColumnSums(m: map<Outpoint, Utxo>, m': map<Outpoint, Utxo>)
    requires SameButDraft(m, m')
    ensures forall x :: Balance(m', x) == Balance(m, x)
    ensures forall t, x :: Created(m', t, x) == Created(m, t, x) && Spent(m', t, x) == Spent(m, t, x)
  {
    forall x ensures Balance(m', x) == Balance(m, x) {
      SumExtend(m.Keys, m'.Keys, UnspentOf(m, x), UnspentOf(m', x));
    }
    forall t, x ensures Created(m', t, x) == Created(m, t, x) && Spent(m', t, x) == Spent(m, t, x) {
      SumExtend(m.Keys, m'.Keys, CreatedFor(m, t, x), CreatedFor(m', t, x));
      SumExtend(m.Keys, m'.Keys, SpentFrom(m, t, x), SpentFrom(m', t, x));
    }
  }

  /** Only drafts are added, and the columns draft and status change. */
  ghost predicate DraftsOnly(s: State, s': State) {
    && SameButDraft(s.utxos, s'.utxos)
    && s'.xpubs == s.xpubs && s'.txs == s.txs && s'.destinations == s.destinations
    && s.drafts.Keys <= s'.drafts.Keys && forall d :: d in s.drafts ==> s'.drafts[d].inputs == s.drafts[d].inputs
  }

  lemma DraftsOnlyLasting(s: State, s': State)
    requires Lasting(s) && DraftsOnly(s, s') && Reservations(s')
    ensures Lasting(s')
  {
    forall o | o in s'.utxos ensures o.txId in s'.txs && s'.utxos[o].satoshis > 0 && s'.utxos[o].xpub in s'.xpubs {
      assert s'.utxos[o] == s.utxos[o].(draft := s'.utxos[o].draft);
    }
  }

  lemma DraftsOnlyAccounts(s: State, s': State)
    requires Accounts(s) && DraftsOnly(s, s')
    ensures Accounts(s')
  {
    DraftColumnSums(s.utxos, s'.utxos);
  }

  /** Everything but the reservations survives a change of the draft column and of draft statuses. */
  lemma DraftColumnKeepsInv(s: State, s': State)
    requires Lasting(s) && DraftsOnly(s, s') && Reservations(s')
    ensures Lasting(s') && (Accounts(s) ==> Accounts(s'))
  {
    DraftsOnlyLasting(s, s');
    if Accounts(s) { DraftsOnlyAccounts(s, s'); }
  }

  /** No row and no stored draft mentions d: a random 256-bit id. */
  ghost predicate FreshDraft(s: State, d: DraftId) {
    d !in s.drafts && forall o :: o in s.utxos ==> s.utxos[o].draft != Some(d)
  }

  /** The picked outpoints are not held by a stored draft in status draft. */
  ghost predicate NotHeld(s: State, picked: set<Outpoint>) {
    forall o, d :: o in picked && o in s.utxos && d in s.drafts && s.drafts[d].status == Draft
      ==> s.utxos[o].draft != Some(d)
  }

  lemma ReserveReservations(s: State, picked: set<Outpoint>, d: DraftId)
    requires Reservations(s) && FreshDraft(s, d) && NotHeld(s, picked)
    ensures Reservations(Reserve(s, picked, d)) && SameButDraft(s.utxos, Reserve(s, picked, d).utxos)
  {
  }

  lemma ReserveKeepsInv(s: State, picked: set<Outpoint>, d: DraftId)
    requires Lasting(s) && FreshDraft(s, d) && NotHeld(s, picked)
    ensures Lasting(Reserve(s, picked, d)) && (Accounts(s) ==> Accounts(Reserve(s, picked, d)))
  {
    ReserveReservations(s, picked, d);
    DraftColumnKeepsInv(s, Reserve(s, picked, d));
  }

  /** A draft is stored in status draft, with the UTXOs reserved for it as its inputs. */
  ghost predicate HoldsInputs(s: State, d: DraftId, draft: DraftTx) {
    && d !in s.drafts && draft.status == Draft
    && forall o :: o in draft.inputs <==> o in s.utxos && s.utxos[o].draft == Some(d)
  }

  lemma StoreDraftReservations(s: State, d: DraftId, draft: DraftTx)
    requires Reservations(s) && HoldsInputs(s, d, draft)
    ensures Reservations(StoreDraft(s, d, draft))
  {
  }

  lemma StoreDraftKeepsInv(s: State, d: DraftId, draft: DraftTx)
    requires Lasting(s) && HoldsInputs(s, d, draft)
    ensures Lasting(StoreDraft(s, d, draft)) && (Accounts(s) ==> Accounts(StoreDraft(s, d, draft)))
  {
    StoreDraftReservations(s, d, draft);
    DraftColumnKeepsInv(s, StoreDraft(s, d, draft));
  }

  /** A new draft keeps the invariant exactly if the rows that name it are its inputs. */
  lemma StoreDraftExactly(s: State, d: DraftId, draft: DraftTx)
    requires Inv(s) && d !in s.drafts && draft.status == Draft
    ensures Inv(StoreDraft(s, d, draft)) <==> HoldsInputs(s, d, draft)
  {
    if HoldsInputs(s, d, draft) { StoreDraftKeepsInv(s, d, draft); }
    assert StoreDraft(s, d, draft).drafts[d] == draft;
  }

  /** A draft dies and its rows are released: the other drafts keep theirs. */
  lemma ReleasedReservations(s: State, s': State, d: DraftId)
    requires Reservations(s) && d in s.drafts && s'.drafts.Keys == s.drafts.Keys && s'.utxos.Keys == s.utxos.Keys
    requires s'.drafts[d].Dead() && s'.drafts[d].inputs == s.drafts[d].inputs
    requires forall e :: e in s.drafts && e != d ==> s'.drafts[e] == s.drafts[e]
    requires forall o :: o in s.utxos ==>
      s'.utxos[o].draft == if s.utxos[o].draft == Some(d) then None else s.utxos[o].draft
    ensures Reservations(s')
  {
    forall e | e in s'.drafts ensures ReservedRight(s', e) { assert ReservedRight(s, e); }
  }

  lemma ExpireReservations(s: State, d: DraftId, now: int)
    requires Reservations(s)
    ensures Reservations(Expire(s, d, now)) && SameButDraft(s.utxos, Expire(s, d, now).utxos)
  {
    if d in s.drafts && s.drafts[d].status == Draft && now > s.drafts[d].expiresAt {
      ReleasedReservations(s, Expire(s, d, now), d);
    }
  }

  lemma ExpireKeepsInv(s: State, d: DraftId, now: int)
    requires Lasting(s)
    ensures Lasting(Expire(s, d, now)) && (Accounts(s) ==> Accounts(Expire(s, d, now)))
  {
    ExpireReservations(s, d, now);
    DraftColumnKeepsInv(s, Expire(s, d, now));
  }

  // ----- revert ------------------------------------------------------------------------------------

  /** m' is m after the outputs of t are marked deleted, the inputs of d freed and its reservations lifted. */
  ghost predicate Undoes(m: map<Outpoint, Utxo>, m': map<Outpoint, Utxo>, t: TxId, inputs: set<Outpoint>, d: DraftId) {
    && m'.Keys == m.Keys && t != DELETED
    && (forall o :: o in m && o.txId == t ==> m[o].spending.None? && o !in inputs)
    && (forall o :: o in m ==>
          m'[o] == m[o].(
            spending := if o.txId == t then Some(DELETED) else if o in inputs then None else m[o].spending,
            draft := if m[o].draft == Some(d) then None else m[o].draft))
  }

  /** What the revert of t requires, apart from the test that can fail. */
  ghost predicate Revertible(s: State, t: TxId) {
    && t in s.txs && s.txs[t].draft.Some? && s.txs[t].draft.value in s.drafts && !s.txs[t].deleted
    && !HasSpentOutput(s.utxos, t)
  }

  ghost function InputsOfDraft(s: State, t: TxId): set<Outpoint>
    requires Revertible(s, t)
  {
    Elements(s.drafts[s.txs[t].draft.value].inputs)
  }

  /**
   * The revert frees what t has spent: those inputs of its draft that are spent are spent by t, and t has spent
   * no other UTXO.
   */
  ghost predicate Clean(s: State, t: TxId)
    requires Revertible(s, t)
  {
    forall o :: o in s.utxos ==>
      (s.utxos[o].spending == Some(t) <==> o in InputsOfDraft(s, t) && s.utxos[o].spending.Some?)
  }

  /** If the revert succeeds, it is clean. */
  ghost predicate RevertIsClean(s: State, t: TxId) { Revertible(s, t) && Revert(s, t).Success? ==> Clean(s, t) }

  lemma RevertedUndoes(s: State, t: TxId)
    requires DraftsFirst(s) && MarkersUnused(s) && Revertible(s, t)
    ensures Undoes(s.utxos, RevertedState(s, t, s.txs[t].draft.value).utxos, t, InputsOfDraft(s, t),
                   s.txs[t].draft.value)
  {
    assert forall o :: o in s.drafts[s.txs[t].draft.value].inputs <==> o in InputsOfDraft(s, t);
  }

  /** What an outpoint of x contributes to what is freed. */
  ghost function FreedOf(m: map<Outpoint, Utxo>, inputs: set<Outpoint>, x: XpubId): Outpoint -> int {
    o => if o in m && o in inputs && m[o].spending.Some? && m[o].xpub == x then m[o].satoshis else 0
  }

  /** What a revert gives back to x: the satoshis of the inputs that are spent, whatever spends them. */
  ghost function GivenBack(m: map<Outpoint, Utxo>, inputs: set<Outpoint>, x: XpubId): int {
    Sum(m.Keys, FreedOf(m, inputs, x))
  }

  /** A revert moves the unspent satoshis by what is given back minus what the transaction created. */
  lemma UndoBalance(m: map<Outpoint, Utxo>, m': map<Outpoint, Utxo>, t: TxId, inputs: set<Outpoint>, d: DraftId,
                    x: XpubId)
    requires Undoes(m, m', t, inputs, d)
    ensures Balance(m', x) == Balance(m, x) - Created(m, t, x) + GivenBack(m, inputs, x)
  {
    var both := o => UnspentOf(m', x)(o) + CreatedFor(m, t, x)(o);
    SumAdd(m.Keys, UnspentOf(m', x), CreatedFor(m, t, x), both);
    SumAdd(m.Keys, UnspentOf(m, x), FreedOf(m, inputs, x), both);
  }

  /** After a revert the balances are right exactly if each xpub gets back what the transaction took from it. */
  lemma RevertedBalance(s: State, t: TxId)
    requires Balanced(s) && ValuesRight(s) && DraftsFirst(s) && MarkersUnused(s) && Revertible(s, t)
    ensures Balanced(RevertedState(s, t, s.txs[t].draft.value)) <==>
      forall x :: x in s.xpubs ==> GivenBack(s.utxos, InputsOfDraft(s, t), x) == Spent(s.utxos, t, x)
  {
    var s' := RevertedState(s, t, s.txs[t].draft.value);
    RevertedUndoes(s, t);
    forall x | x in s.xpubs
      ensures s'.xpubs[x].balance == Balance(s'.utxos, x) <==>
        GivenBack(s.utxos, InputsOfDraft(s, t), x) == Spent(s.utxos, t, x)
    {
      UndoBalance(s.utxos, s'.utxos, t, InputsOfDraft(s, t), s.txs[t].draft.value, x);
    }
  }

  lemma CleanGivesBack(s: State, t: TxId, x: XpubId)
    requires Revertible(s, t) && Clean(s, t)
    ensures GivenBack(s.utxos, InputsOfDraft(s, t), x) == Spent(s.utxos, t, x)
  {
    SumExtend(s.utxos.Keys, s.utxos.Keys, FreedOf(s.utxos, InputsOfDraft(s, t), x), SpentFrom(s.utxos, t, x));
  }

  /** What an outpoint of x contributes to what is freed although others spend it. */
  ghost function TakenOf(m: map<Outpoint, Utxo>, t: TxId, inputs: set<Outpoint>, x: XpubId): Outpoint -> int {
    o => if o in m && m[o].spending != Some(t) then FreedOf(m, inputs, x)(o) else 0
  }

  /** An input that another transaction spends makes its owner get back too much. */
  lemma TakenGivesMore(s: State, t: TxId, o: Outpoint)
    requires Revertible(s, t) && RowsStored(s) && o in s.utxos && o in InputsOfDraft(s, t)
    requires s.utxos[o].spending.Some? && s.utxos[o].spending != Some(t)
    requires forall p :: p in s.utxos && s.utxos[p].spending == Some(t) ==> p in InputsOfDraft(s, t)
    ensures var x := s.utxos[o].xpub; GivenBack(s.utxos, InputsOfDraft(s, t), x) > Spent(s.utxos, t, x)
  {
    var m, x, inputs := s.utxos, s.utxos[o].xpub, InputsOfDraft(s, t);
    var taken := TakenOf(m, t, inputs, x);
    SumAdd(m.Keys, SpentFrom(m, t, x), taken, FreedOf(m, inputs, x));
    SumSplit(m.Keys, o, taken);
    SumZero(m.Keys - {o}, (p: Outpoint) => 0);
    SumMono(m.Keys - {o}, (p: Outpoint) => 0, taken);
  }

  /** No other transaction has spent an input of the draft of t. */
  ghost predicate AloneOnInputs(s: State, t: TxId)
    requires Revertible(s, t)
  {
    forall o :: o in s.utxos && o in InputsOfDraft(s, t) && s.utxos[o].spending.Some? ==> s.utxos[o].spending == Some(t)
  }

  lemma OwnIsClean(s: State, t: TxId)
    requires SpendsOwn(s) && Revertible(s, t)
    ensures Clean(s, t) <==> AloneOnInputs(s, t)
  {
    assert forall o :: o in s.drafts[s.txs[t].draft.value].inputs <==> o in InputsOfDraft(s, t);
  }

  /** Where transactions spend inputs of their drafts, a revert keeps the balances exactly if it is clean. */
  lemma RevertBalancesExactly(s: State, t: TxId)
    requires Balanced(s) && ValuesRight(s) && OwnersKnown(s) && RowsStored(s) && DraftsFirst(s) && MarkersUnused(s)
    requires SpendsOwn(s) && Revertible(s, t)
    ensures Balanced(RevertedState(s, t, s.txs[t].draft.value)) <==> AloneOnInputs(s, t)
    ensures Clean(s, t) <==> AloneOnInputs(s, t)
  {
    OwnIsClean(s, t);
    RevertedBalance(s, t);
    if AloneOnInputs(s, t) {
      forall x | x in s.xpubs ensures GivenBack(s.utxos, InputsOfDraft(s, t), x) == Spent(s.utxos, t, x) {
        CleanGivesBack(s, t, x);
      }
    } else {
      var o :| o in s.utxos && o in InputsOfDraft(s, t) && s.utxos[o].spending.Some? && s.utxos[o].spending != Some(t);
      OwnSpends(s, t);
      TakenGivesMore(s, t, o);
      assert s.utxos[o].xpub in s.xpubs;
    }
  }

  lemma OwnSpends(s: State, t: TxId)
    requires SpendsOwn(s) && Revertible(s, t)
    ensures forall o :: o in s.utxos && s.utxos[o].spending == Some(t) ==> o in InputsOfDraft(s, t)
  {
  }

  lemma UndoOthers(m: map<Outpoint, Utxo>, m': map<Outpoint, Utxo>, t: TxId, inputs: set<Outpoint>, d: DraftId,
                   t': TxId, x: XpubId)
    requires Undoes(m, m', t, inputs, d) && t' != t && t' != DELETED
    requires forall o :: o in m && o in inputs ==> m[o].spending != Some(t')
    ensures Created(m', t', x) == Created(m, t', x) && Spent(m', t', x) == Spent(m, t', x)
  {
    SumExtend(m.Keys, m'.Keys, CreatedFor(m, t', x), CreatedFor(m', t', x));
    SumExtend(m.Keys, m'.Keys, SpentFrom(m, t', x), SpentFrom(m', t', x));
  }

  lemma RevertedSums(s: State, t: TxId)
    requires Balanced(s) && ValuesRight(s) && DraftsFirst(s) && MarkersUnused(s) && Revertible(s, t) && Clean(s, t)
    ensures var s' := RevertedState(s, t, s.txs[t].draft.value); Balanced(s') && ValuesRight(s')
  {
    var s' := RevertedState(s, t, s.txs[t].draft.value);
    RevertedUndoes(s, t);
    RevertedBalance(s, t);
    forall x | x in s.xpubs ensures GivenBack(s.utxos, InputsOfDraft(s, t), x) == Spent(s.utxos, t, x) {
      CleanGivesBack(s, t, x);
    }
    forall t', x | t' in s'.txs && !s'.txs[t'].deleted && x in s'.xpubs
      ensures ValueOf(s'.txs[t'].values, x) == Created(s'.utxos, t', x) - Spent(s'.utxos, t', x)
    {
      UndoOthers(s.utxos, s'.utxos, t, InputsOfDraft(s, t), s.txs[t].draft.value, t', x);
    }
  }

  lemma RevertedSpentByLive(s: State, t: TxId)
    requires SpentByLive(s) && DraftsFirst(s) && MarkersUnused(s) && Revertible(s, t) && Clean(s, t)
    ensures SpentByLive(RevertedState(s, t, s.txs[t].draft.value))
  {
    RevertedUndoes(s, t);
  }

  lemma RevertedReservations(s: State, t: TxId)
    requires Reservations(s) && DraftsFirst(s) && MarkersUnused(s) && Revertible(s, t)
    ensures Reservations(RevertedState(s, t, s.txs[t].draft.value))
  {
    RevertedUndoes(s, t);
    ReleasedReservations(s, RevertedState(s, t, s.txs[t].draft.value), s.txs[t].draft.value);
  }

  lemma RevertedOwners(s: State, t: TxId)
    requires OwnersKnown(s) && RowsStored(s) && DraftsFirst(s) && MarkersUnused(s) && Revertible(s, t)
    ensures var s' := RevertedState(s, t, s.txs[t].draft.value);
      OwnersKnown(s') && RowsStored(s') && DraftsFirst(s') && MarkersUnused(s')
  {
    RevertedUndoes(s, t);
  }

  lemma RevertedMarks(s: State, t: TxId)
    requires Derivations(s) && IdsRight(s) && DeletedMarked(s) && Revertible(s, t)
    ensures var s' := RevertedState(s, t, s.txs[t].draft.value); Derivations(s') && IdsRight(s') && DeletedMarked(s')
  {
  }

  lemma RevertedKeepsLasting(s: State, t: TxId)
    requires Lasting(s) && Revertible(s, t)
    ensures Lasting(RevertedState(s, t, s.txs[t].draft.value))
  {
    RevertedReservations(s, t);
    RevertedOwners(s, t);
    RevertedMarks(s, t);
  }

  lemma RevertedKeepsInv(s: State, t: TxId)
    requires Inv(s) && Revertible(s, t) && Clean(s, t)
    ensures Inv(RevertedState(s, t, s.txs[t].draft.value))
  {
    RevertedKeepsLasting(s, t);
    RevertedSums(s, t);
    RevertedSpentByLive(s, t);
  }

  /** Of the five tests of a revert, these are left: stored, outgoing, not yet reverted, outputs unspent. */
  lemma RevertSucceeds(s: State, t: TxId)
    requires Lasting(s)
    ensures Revert(s, t).Success? <==>
      t in s.txs && s.txs[t].draft.Some? && !s.txs[t].deleted && !HasSpentOutput(s.utxos, t)
    ensures Revert(s, t).Success? ==> Revertible(s, t)
  {
    if t in s.txs && s.txs[t].deleted {
      assert REVERTED in s.txs[t].values;
    }
  }

  /** A successful revert keeps what lasts, and, if it is clean, the accounts. */
  lemma RevertKeepsInv(s: State, t: TxId)
    requires Lasting(s)
    ensures Revert(s, t).Success? ==> Revertible(s, t) && Lasting(Revert(s, t).value)
    ensures Revert(s, t).Success? && Accounts(s) && RevertIsClean(s, t) ==> Accounts(Revert(s, t).value)
  {
    RevertSucceeds(s, t);
    if Revert(s, t).Success? {
      RevertedKeepsLasting(s, t);
      if Accounts(s) && Clean(s, t) { RevertedKeepsInv(s, t); }
    }
  }

  /** A revert takes no more from an xpub than it has, clean or not. */
  lemma RevertCovered(s: State, t: TxId, x: XpubId)
    requires Balanced(s) && ValuesRight(s) && t in s.txs && !s.txs[t].deleted && !HasSpentOutput(s.utxos, t)
    requires x in s.xpubs
    ensures s.xpubs[x].balance - ValueOf(s.txs[t].values, x) >= 0
  {
    SumMono(s.utxos.Keys, CreatedFor(s.utxos, t, x), UnspentOf(s.utxos, x));
    SumZero(s.utxos.Keys, (o: Outpoint) => 0);
    SumMono(s.utxos.Keys, (o: Outpoint) => 0, SpentFrom(s.utxos, t, x));
  }

  // ----- transactions and their drafts -------------------------------------------------------------

  /** A transaction that spends exactly its draft's inputs is reverted cleanly. */
  lemma MatchingIsClean(s: State, t: TxId)
    requires SpendsDraft(s) && SpentByLive(s) && MarkersUnused(s) && Revertible(s, t)
    ensures Clean(s, t)
  {
    assert forall o :: o in s.drafts[s.txs[t].draft.value].inputs <==> o in InputsOfDraft(s, t);
  }

  lemma RevertedSpendsDraft(s: State, t: TxId)
    requires SpendsDraft(s) && SpentByLive(s) && DraftsFirst(s) && MarkersUnused(s) && Revertible(s, t)
    ensures SpendsDraft(RevertedState(s, t, s.txs[t].draft.value))
  {
    var s' := RevertedState(s, t, s.txs[t].draft.value);
    MatchingIsClean(s, t);
    RevertedUndoes(s, t);
    forall t' | t' in s'.txs && !s'.txs[t'].deleted && s'.txs[t'].draft.Some?
      ensures s'.txs[t'].draft.value in s'.drafts
      ensures SameInputs(s'.txs[t'].raw.inputs, s'.drafts[s'.txs[t'].draft.value].inputs)
      ensures forall o :: o in s'.txs[t'].raw.inputs ==> o in s'.utxos && s'.utxos[o].spending == Some(t')
    {
      forall o | o in s'.txs[t'].raw.inputs ensures o in s'.utxos && s'.utxos[o].spending == Some(t') {
        assert s.utxos[o].spending == Some(t');
      }
    }
  }

  lemma RevertedSpendsOwn(s: State, t: TxId)
    requires SpendsOwn(s) && DraftsFirst(s) && MarkersUnused(s) && Revertible(s, t)
    ensures SpendsOwn(RevertedState(s, t, s.txs[t].draft.value))
  {
    var s' := RevertedState(s, t, s.txs[t].draft.value);
    RevertedUndoes(s, t);
    forall o | o in s'.utxos && s'.utxos[o].spending.Some? && s'.utxos[o].spending.value in s'.txs
      ensures var draft := s'.txs[s'.utxos[o].spending.value].draft;
        draft.Some? && draft.value in s'.drafts && o in s'.drafts[draft.value].inputs
    {
      assert s'.utxos[o].spending == s.utxos[o].spending;
    }
  }

  /** These do not depend on the draft column, nor on new drafts. */
  lemma DraftsOnlySpending(s: State, s': State)
    requires s'.txs == s.txs && SameButDraft(s.utxos, s'.utxos) && s.drafts.Keys <= s'.drafts.Keys
    requires forall d :: d in s.drafts ==> s'.drafts[d].inputs == s.drafts[d].inputs
    ensures SpendsOwn(s) ==> SpendsOwn(s')
    ensures SpendsDraft(s) ==> SpendsDraft(s')
  {
    forall o | o in s'.utxos ensures s'.utxos[o].spending == s.utxos[o].spending {
      assert s'.utxos[o] == s.utxos[o].(draft := s'.utxos[o].draft);
    }
  }

  // ----- xpubs and destinations -----------------------------------------------------------------------

  lemma NoOwner(s: State, x: XpubId, t: TxId)
    requires OwnersKnown(s) && x !in s.xpubs
    ensures Balance(s.utxos, x) == 0 && Created(s.utxos, t, x) == 0 && Spent(s.utxos, t, x) == 0
  {
    SumZero(s.utxos.Keys, UnspentOf(s.utxos, x));
    SumZero(s.utxos.Keys, CreatedFor(s.utxos, t, x));
    SumZero(s.utxos.Keys, SpentFrom(s.utxos, t, x));
  }

  lemma NewXpubAccounts(s: State, x: XpubId)
    requires Accounts(s) && OwnersKnown(s) && IdsRight(s) && x !in s.xpubs
    ensures Accounts(s.(xpubs := s.xpubs[x := Xpub(0, 0, 0)]))
  {
    NoOwner(s, x, DELETED);
    forall t ensures Created(s.utxos, t, x) == 0 && Spent(s.utxos, t, x) == 0 { NoOwner(s, x, t); }
  }

  /** Only xpubs, their counters and destinations change. */
  ghost predicate XpubsOnly(s: State, s': State) {
    && s'.utxos == s.utxos && s'.txs == s.txs && s'.drafts == s.drafts && s.xpubs.Keys <= s'.xpubs.Keys
    && OwnersKnown(s') && MarkersUnused(s') && Derivations(s')
  }

  lemma XpubsOnlyLasting(s: State, s': State)
    requires Lasting(s) && XpubsOnly(s, s')
    ensures Lasting(s')
  {
  }

  lemma NewXpubParts(s: State, x: XpubId)
    requires OwnersKnown(s) && MarkersUnused(s) && Derivations(s) && x !in s.xpubs && x != REVERTED
    ensures XpubsOnly(s, s.(xpubs := s.xpubs[x := Xpub(0, 0, 0)]))
  {
  }

  lemma NewXpubKeepsInv(s: State, x: XpubId)
    requires Lasting(s) && x != REVERTED && NewXpub(s, x).Success?
    ensures Lasting(NewXpub(s, x).value) && (Accounts(s) ==> Accounts(NewXpub(s, x).value))
  {
    NewXpubParts(s, x);
    XpubsOnlyLasting(s, NewXpub(s, x).value);
    if Accounts(s) { NewXpubAccounts(s, x); }
  }

  /** Counters and destinations are not part of any sum. */
  lemma CountersOnly(s: State, s': State)
    requires Accounts(s) && s'.utxos == s.utxos && s'.txs == s.txs && s'.xpubs.Keys == s.xpubs.Keys
    requires forall x :: x in s.xpubs ==> s'.xpubs[x].balance == s.xpubs[x].balance
    ensures Accounts(s')
  {
  }

  lemma CountersKeepInv(s: State, s': State)
    requires Lasting(s) && XpubsOnly(s, s') && s'.xpubs.Keys == s.xpubs.Keys
    requires forall x :: x in s.xpubs ==> s'.xpubs[x].balance == s.xpubs[x].balance
    ensures Lasting(s') && (Accounts(s) ==> Accounts(s'))
  {
    XpubsOnlyLasting(s, s');
    if Accounts(s) { CountersOnly(s, s'); }
  }

  lemma NewChangeDestinationParts(s: State, x: XpubId)
    requires OwnersKnown(s) && MarkersUnused(s) && Derivations(s) && x in s.xpubs
    ensures XpubsOnly(s, NewChangeDestination(s, x))
  {
  }

  lemma NewChangeDestinationKeepsInv(s: State, x: XpubId)
    requires Lasting(s) && x in s.xpubs
    ensures Lasting(NewChangeDestination(s, x)) && (Accounts(s) ==> Accounts(NewChangeDestination(s, x)))
  {
    NewChangeDestinationParts(s, x);
    CountersKeepInv(s, NewChangeDestination(s, x));
  }

  lemma NewExternalNumberParts(s: State, x: XpubId)
    requires OwnersKnown(s) && MarkersUnused(s) && Derivations(s) && x in s.xpubs
    ensures XpubsOnly(s, NewExternalNumber(s, x))
  {
  }

  lemma NewExternalNumberKeepsInv(s: State, x: XpubId)
    requires Lasting(s) && x in s.xpubs
    ensures Lasting(NewExternalNumber(s, x)) && (Accounts(s) ==> Accounts(NewExternalNumber(s, x)))
  {
    NewExternalNumberParts(s, x);
    CountersKeepInv(s, NewExternalNumber(s, x));
  }

  lemma AddDestinationParts(s: State, script: Script, x: XpubId)
    requires OwnersKnown(s) && MarkersUnused(s) && Derivations(s) && x in s.xpubs && script.Foreign?
    ensures XpubsOnly(s, AddDestination(s, script, x))
  {
  }

  lemma AddDestinationKeepsInv(s: State, script: Script, x: XpubId)
    requires Lasting(s) && x in s.xpubs && script.Foreign?
    ensures Lasting(AddDestination(s, script, x)) && (Accounts(s) ==> Accounts(AddDestination(s, script, x)))
  {
    AddDestinationParts(s, script, x);
    CountersKeepInv(s, AddDestination(s, script, x));
  }

  lemma StoreAncestorAccounts(s: State, t: TxId, raw: RawTx)
    requires Accounts(s) && RowsStored(s) && t != DELETED && t !in s.txs
    ensures Accounts(StoreAncestor(s, t, raw))
  {
    forall x ensures Created(s.utxos, t, x) == 0 && Spent(s.utxos, t, x) == 0 {
      SumZero(s.utxos.Keys, CreatedFor(s.utxos, t, x));
      SumZero(s.utxos.Keys, SpentFrom(s.utxos, t, x));
    }
  }

  lemma StoreAncestorLasting(s: State, t: TxId, raw: RawTx)
    requires Lasting(s) && t != DELETED && t !in s.txs
    ensures Lasting(StoreAncestor(s, t, raw))
  {
  }

  lemma StoreAncestorKeepsInv(s: State, t: TxId, raw: RawTx)
    requires Lasting(s) && t != DELETED
    ensures Lasting(StoreAncestor(s, t, raw)) && (Accounts(s) ==> Accounts(StoreAncestor(s, t, raw)))
  {
    if t !in s.txs {
      StoreAncestorLasting(s, t, raw);
      if Accounts(s) { StoreAncestorAccounts(s, t, raw); }
    }
  }
}
