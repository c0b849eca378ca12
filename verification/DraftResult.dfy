/** What building a draft amounts to, on values, and what follows from it. */
module DraftResult {
  import opened Common
  import opened Sums
  import opened Uint64
  import opened Ledger
  import opened LedgerInvariant
  import opened LedgerUndo
  import opened UtxoTable
  import opened ChangeSplit
  import opened DraftMath
  import opened DraftPaths

  // ----- what the builder does, on values ---------------------------------------------------------------

  /** What a draft is built from, besides its outputs; `list` is what its owner may spend. */
  datatype Before = Before(config: Config, id: DraftId, xpub: XpubId, given: Option<seq<Script>>, start: nat,
                           from: Option<seq<Outpoint>>, extras: seq<Outpoint>, s: State, list: seq<Outpoint>)
  {
    /** Nothing is named: the draft spends what the engine picks. */
    predicate Plain() { from.None? && extras == [] }
  }

  /** What the builder leaves in the draft. */
  datatype Built = Built(inputs: seq<Input>, plan: Plan, hexInputs: seq<Outpoint>, hex: seq<TxOut>)

  /** The checks before the draft is kept. */
  ghost function Check(made: Built): Option<Error> {
    if !Distinct(OutpointsOf(made.inputs)) then Some(ErrDuplicateUTXOs)
    else FinalCheck(made.inputs, made.plan.outputs, made.plan.fee)
  }

  /** The raw outputs are those of the configuration; the first one that is refused fails, else the checks decide. */
  ghost predicate Finished(made: Built, err: Option<Error>) {
    var list := Flatten(ScriptsOf(made.plan.outputs));
    if HexError(list).Some? then err == HexError(list)
    else err == Check(made) && made.hex == list
  }

  /** Of the errors that matter to the totals only the checks report any. */
  lemma FinishedKinds(made: Built, err: Option<Error>)
    requires Finished(made, err)
    ensures err in {None, Some(ErrInvalidOpReturnOutput), Some(ErrOutputValueTooLow)} || err == Check(made)
    ensures err.None? ==> made.hex == Flatten(ScriptsOf(made.plan.outputs)) && Check(made).None?
  {
    HexErrorKinds(Flatten(ScriptsOf(made.plan.outputs)));
  }

  ghost predicate Known(rows: map<Outpoint, Utxo>, list: seq<Outpoint>) { forall o :: o in list ==> o in rows }

  lemma ReservationKnown(rows: map<Outpoint, Utxo>, rows': map<Outpoint, Utxo>, list: seq<Outpoint>, x: XpubId,
                         d: DraftId, satoshis: nat, inputFee: nat, from: Option<seq<Outpoint>>,
                         r: Result<seq<Outpoint>, Error>, picked: seq<Outpoint>)
    requires Reservation(rows, rows', list, x, d, satoshis, inputFee, from, r, picked) && r.Success?
    ensures Known(rows, r.value) && rows' == Reserved(rows, Elements(r.value), d)
  {
    if from.Some? {
      NamedAll(rows, x, from.value);
      assert forall o :: o in picked ==> o in from.value;
    }
  }

  lemma TotalReservationKnown(rows: map<Outpoint, Utxo>, rows': map<Outpoint, Utxo>, list: seq<Outpoint>, x: XpubId,
                              d: DraftId, from: Option<seq<Outpoint>>, r: Result<seq<Outpoint>, Error>)
    requires TotalReservation(rows, rows', list, x, d, from, r) && r.Success?
    ensures Known(rows, r.value) && rows' == Reserved(rows, Elements(r.value), d)
  {
    if from.Some? { NamedAll(rows, x, from.value); }
  }

  lemma IncludedAndPicked(rows: map<Outpoint, Utxo>, extras: seq<Outpoint>, picked: seq<Outpoint>)
    requires Known(rows, extras) && Known(rows, picked)
    ensures Known(rows, extras + picked)
      && InputsOf(rows, extras + picked) == InputsOf(rows, extras) + InputsOf(rows, picked)
    ensures InputTotal(InputsOf(rows, extras + picked))
      == InputTotal(InputsOf(rows, extras)) + InputTotal(InputsOf(rows, picked))
  {
    assert Known(rows, extras + picked);
    InputsOfConcat(rows, extras, picked);
  }

  lemma ReservedTotal(rows: map<Outpoint, Utxo>, extras: seq<Outpoint>, picked: seq<Outpoint>, included: nat,
                      satoshis: nat)
    requires Known(rows, extras) && Known(rows, picked)
    requires included == U64(InputTotal(InputsOf(rows, extras))) && satoshis == U64(InputTotal(InputsOf(rows, picked)))
    ensures Known(rows, extras + picked)
      && InputsOf(rows, extras + picked) == InputsOf(rows, extras) + InputsOf(rows, picked)
    ensures U64(included + satoshis) == U64(InputTotal(InputsOf(rows, extras + picked)))
  {
    IncludedAndPicked(rows, extras, picked);
    AddWrapped(InputTotal(InputsOf(rows, extras)), InputTotal(InputsOf(rows, picked)));
  }

  /** What is reserved, and becomes inputs beside the included UTXOs. */
  ghost predicate Requested(b: Before, request: nat, inputFee: nat, rows': map<Outpoint, Utxo>,
                            r: Result<seq<Outpoint>, Error>, picked: seq<Outpoint>, inputs: seq<Input>,
                            hexInputs: seq<Outpoint>, reserved: nat, err: Option<Error>)
  {
    && Reservation(b.s.utxos, rows', b.list, b.xpub, b.id, request, inputFee, b.from, r, picked)
    && if r.Failure? then err == Some(r.error)
       else
         && err.None? && Known(b.s.utxos, b.extras + r.value) && inputs == InputsOf(b.s.utxos, b.extras + r.value)
         && hexInputs == r.value && reserved == U64(InputTotal(inputs))
  }

  /** What is prepared before the fee: inputs, and what counts as reserved. */
  ghost predicate Prepared(b: Before, outputs: seq<Output>, rows': map<Outpoint, Utxo>, r: Result<seq<Outpoint>, Error>,
                           picked: seq<Outpoint>, inputs: seq<Input>, hexInputs: seq<Outpoint>, reserved: nat,
                           err: Option<Error>)
    requires b.config.feeUnit.bytes > 0
  {
    if !Known(b.s.utxos, b.extras) then err == Some(ErrCouldNotFindUtxo) && rows' == b.s.utxos
    else
      var included := InputsOf(b.s.utxos, b.extras);
      if Skips(b.config, included, outputs) then
        err.None? && rows' == b.s.utxos && inputs == included && hexInputs == [] && reserved == 0
      else
        Requested(b, Request(b.config, included, outputs), FeeFor(b.config.feeUnit, InputSize(PubKeyHash)),
                  rows', r, picked, inputs, hexInputs, reserved, err)
  }

  lemma RequestPrepared(b: Before, outputs: seq<Output>, rows': map<Outpoint, Utxo>, r: Result<seq<Outpoint>, Error>,
                        picked: seq<Outpoint>, inputs: seq<Input>, hexInputs: seq<Outpoint>, reserved: nat,
                        err: Option<Error>)
    requires b.config.feeUnit.bytes > 0 && Known(b.s.utxos, b.extras)
    requires !Skips(b.config, InputsOf(b.s.utxos, b.extras), outputs)
    requires Requested(b, Request(b.config, InputsOf(b.s.utxos, b.extras), outputs),
                       FeeFor(b.config.feeUnit, InputSize(PubKeyHash)), rows', r, picked, inputs, hexInputs, reserved,
                       err)
    ensures Prepared(b, outputs, rows', r, picked, inputs, hexInputs, reserved, err)
  {
  }

  /** UTXOs are reserved, the fee stage follows its plan, and the draft is finished. */
  ghost predicate PlainBuilt(b: Before, outputs: seq<Output>, r: Result<seq<Outpoint>, Error>, picked: seq<Outpoint>,
                             s': State, made: Built, err: Option<Error>)
    requires b.config.feeUnit.bytes > 0
  {
    if !Known(b.s.utxos, b.extras) then err == Some(ErrCouldNotFindUtxo) && s' == b.s
    else
      var included := InputsOf(b.s.utxos, b.extras);
      if Skips(b.config, included, outputs) then SkippedBuilt(b, included, outputs, s', made, err)
      else
        && Reservation(b.s.utxos, s'.utxos, b.list, b.xpub, b.id, Request(b.config, included, outputs),
                       FeeFor(b.config.feeUnit, InputSize(PubKeyHash)), b.from, r, picked)
        && if r.Failure? then err == Some(r.error) && s' == b.s.(utxos := s'.utxos)
           else ReservedBuilt(b, outputs, r.value, s', made, err)
  }

  /** Nothing is reserved, which is noticed only if the amount is not zero. */
  ghost predicate SkippedBuilt(b: Before, included: seq<Input>, outputs: seq<Output>, s': State, made: Built,
                               err: Option<Error>)
    requires b.config.feeUnit.bytes > 0
  {
    && s' == b.s && made.inputs == included && made.hexInputs == []
    && if Request(b.config, included, outputs) > 0 then err == Some(ErrNotEnoughUtxos)
       else
         && made.plan == Plan(outputs, Fee(b.config, included, outputs, 0), 0, b.given)
         && Finished(made, err)
  }

  ghost predicate ReservedBuilt(b: Before, outputs: seq<Output>, picked: seq<Outpoint>,
                                s': State, made: Built, err: Option<Error>)
    requires b.config.feeUnit.bytes > 0
  {
    var reserved := b.s.(utxos := s'.utxos);
    var failed := FeeError(reserved, b.config, b.xpub, made.inputs, outputs, b.given.Some?);
    && Known(b.s.utxos, b.extras + picked) && made.inputs == InputsOf(b.s.utxos, b.extras + picked)
    && made.hexInputs == picked
    && s' == AfterFee(reserved, b.config, b.xpub, made.inputs, outputs, b.given.Some?)
    && if failed.Some? then err == failed
       else
         && made.plan == ChangePlan(b.config, made.inputs, outputs, b.given, b.xpub, b.start)
         && Finished(made, err)
  }

  /** What the fee stage does with what counts as reserved: it follows the plan, or sees that nothing was reserved. */
  ghost predicate FeeSet(s: State, config: Config, x: XpubId, inputs: seq<Input>, outputs: seq<Output>,
                         given: Option<seq<Script>>, start: nat, reserved: nat, s': State, plan: Plan,
                         err: Option<Error>)
    requires config.feeUnit.bytes > 0
  {
    && (reserved == U64(InputTotal(inputs)) ==>
          && s' == AfterFee(s, config, x, inputs, outputs, given.Some?)
          && err == FeeError(s, config, x, inputs, outputs, given.Some?)
          && (err.None? ==> plan == ChangePlan(config, inputs, outputs, given, x, start)))
    && (reserved == 0 && Request(config, inputs, outputs) <= DUST_LIMIT ==>
          && s' == s && err == (if Request(config, inputs, outputs) > 0 then Some(ErrNotEnoughUtxos) else None)
          && (err.None? ==> plan == Plan(outputs, Fee(config, inputs, outputs, 0), 0, given)))
  }

  lemma FailedPrepared(b: Before, outputs: seq<Output>, r: Result<seq<Outpoint>, Error>, picked: seq<Outpoint>,
                       rows: map<Outpoint, Utxo>, reserved: nat, made: Built, err: Option<Error>)
    requires b.config.feeUnit.bytes > 0 && err.Some?
    requires Prepared(b, outputs, rows, r, picked, made.inputs, made.hexInputs, reserved, err)
    ensures PlainBuilt(b, outputs, r, picked, b.s.(utxos := rows), made, err)
  {
    if !Known(b.s.utxos, b.extras) { assert b.s.(utxos := rows) == b.s; }
  }

  /** UTXOs are reserved and the fee stage has followed its plan. */
  ghost predicate PlainPlanned(b: Before, outputs: seq<Output>, r: Result<seq<Outpoint>, Error>, picked: seq<Outpoint>,
                               reserved: nat, s': State, made: Built)
    requires b.config.feeUnit.bytes > 0
  {
    && Prepared(b, outputs, s'.utxos, r, picked, made.inputs, made.hexInputs, reserved, None)
    && FeeSet(b.s.(utxos := s'.utxos), b.config, b.xpub, made.inputs, outputs, b.given, b.start, reserved, s',
              made.plan, None)
  }

  lemma FeeKept(b: Before, outputs: seq<Output>, r: Result<seq<Outpoint>, Error>, picked: seq<Outpoint>,
                rows: map<Outpoint, Utxo>, reserved: nat, s': State, made: Built, failed: Option<Error>)
    requires b.config.feeUnit.bytes > 0
    requires Prepared(b, outputs, rows, r, picked, made.inputs, made.hexInputs, reserved, None)
    requires FeeSet(b.s.(utxos := rows), b.config, b.xpub, made.inputs, outputs, b.given, b.start, reserved, s',
                    made.plan, failed)
    ensures failed.None? ==> PlainPlanned(b, outputs, r, picked, reserved, s', made)
    ensures failed.Some? ==> PlainBuilt(b, outputs, r, picked, s', made, failed)
  {
    if Skips(b.config, InputsOf(b.s.utxos, b.extras), outputs) {
      assert b.s.(utxos := rows) == b.s;
    } else {
      FeeKeepsRows(b.s.(utxos := rows), b.config, b.xpub, made.inputs, outputs, b.given.Some?);
    }
  }

  /** What was planned and then finished is the draft. */
  lemma PlainAssembled(b: Before, outputs: seq<Output>, r: Result<seq<Outpoint>, Error>, picked: seq<Outpoint>,
                       reserved: nat, s': State, made: Built, made': Built, err: Option<Error>)
    requires b.config.feeUnit.bytes > 0 && PlainPlanned(b, outputs, r, picked, reserved, s', made)
    requires made' == made.(hex := made'.hex) && Finished(made', err)
    ensures PlainBuilt(b, outputs, r, picked, s', made', err)
  {
    if Skips(b.config, InputsOf(b.s.utxos, b.extras), outputs) { assert b.s.(utxos := s'.utxos) == b.s; }
  }

  lemma FeeKeepsRows(s: State, config: Config, x: XpubId, inputs: seq<Input>, outputs: seq<Output>, given: bool)
    requires config.feeUnit.bytes > 0
    ensures AfterFee(s, config, x, inputs, outputs, given).utxos == s.utxos
  {
    if x in s.xpubs {
      NewChangeKeepsRows(s, x, NumberOfDestinations(config, Left(inputs, outputs, Fee(config, inputs, outputs, 0))));
    }
  }

  lemma {:induction false} NewChangeKeepsRows(s: State, x: XpubId, n: nat)
    requires x in s.xpubs
    ensures NewChangeDestinations(s, x, n).utxos == s.utxos
  {
    if n > 0 { NewChangeKeepsRows(s, x, n - 1); }
  }

  /** The first output with everything reserved on it. */
  function Funded(outputs: seq<Output>, inputs: seq<Input>): seq<Output>
    requires outputs != []
  {
    [outputs[0].(satoshis := U64(InputTotal(inputs)))] + outputs[1..]
  }

  /** Everything spendable, or named, is reserved, and the first output gets what the others and the fee leave. */
  ghost predicate SendAllBuilt(b: Before, outputs: seq<Output>, r: Result<seq<Outpoint>, Error>,
                               s': State, made: Built, err: Option<Error>)
    requires b.config.feeUnit.bytes > 0 && SendAllOk(outputs)
  {
    && TotalReservation(b.s.utxos, s'.utxos, b.list, b.xpub, b.id, b.from, r)
    && s' == b.s.(utxos := s'.utxos)
    && if r.Failure? then err == Some(r.error)
       else
         && Known(b.s.utxos, r.value) && made.inputs == InputsOf(b.s.utxos, r.value) && made.hexInputs == r.value
         && if U64(InputTotal(made.inputs)) <= DUST_LIMIT then err == Some(ErrOutputValueTooLow)
            else
              && made.plan == SendAllPlan(b.config, made.inputs, Funded(outputs, made.inputs), b.given)
              && Finished(made, err)
  }

  ghost predicate DraftMade(b: Before, sendAllTo: Option<Output>, outputs: seq<Output>, r: Result<seq<Outpoint>, Error>,
                            picked: seq<Outpoint>, s': State, made: Built, err: Option<Error>)
    requires b.config.feeUnit.bytes > 0
  {
    if outputs == [] && sendAllTo.None? then err == Some(ErrMissingTransactionOutputs) && s' == b.s
    else
      match Resolved(outputs, sendAllTo)
      case Failure(e) => err == Some(e) && s' == b.s
      case Success(done) =>
        if sendAllTo.Some? then SendAllOk(done) && SendAllBuilt(b, done, r, s', made, err)
        else PlainBuilt(b, done, r, picked, s', made, err)
  }

  predicate SendAllOk(outputs: seq<Output>) { outputs != [] && outputs[0].scripts != [] }

  /** n change addresses of x are stored, unless the destinations were given. */
  function Readied(s: State, x: XpubId, n: nat, given: bool): State {
    if given || x !in s.xpubs then s else NewChangeDestinations(s, x, n)
  }

  function ChangeError(s: State, x: XpubId, n: nat, given: bool, strategy: Strategy): Option<Error> {
    if !given && x !in s.xpubs then Some(ErrCouldNotFindXpub)
    else if !given && n > Room(s, x) then Some(ErrNumberOutOfRange)
    else if strategy == Nominations then Some(ErrChangeStrategyNotImplemented)
    else None
  }

  /** The ledger after the fee stage. */
  function AfterFee(s: State, config: Config, x: XpubId, inputs: seq<Input>, outputs: seq<Output>, given: bool): State
    requires config.feeUnit.bytes > 0
  {
    if FallsShort(config, inputs, outputs) || !NeedsDestinations(config, inputs, outputs) then s
    else Readied(s, x, NumberOfDestinations(config, Left(inputs, outputs, Fee(config, inputs, outputs, 0))), given)
  }

  function FeeError(s: State, config: Config, x: XpubId, inputs: seq<Input>, outputs: seq<Output>, given: bool)
    : Option<Error>
    requires config.feeUnit.bytes > 0
  {
    if FallsShort(config, inputs, outputs) then Some(ErrNotEnoughUtxos)
    else if NeedsDestinations(config, inputs, outputs) then
      ChangeError(s, x, NumberOfDestinations(config, Left(inputs, outputs, Fee(config, inputs, outputs, 0))), given,
                  config.strategy)
    else None
  }

  // ----- the plain draft ----------------------------------------------------------------------------------

  /** The fee stage was reached with a reservation, and passed. */
  ghost predicate Planned(b: Before, outputs: seq<Output>, r: Result<seq<Outpoint>, Error>, s': State, made: Built)
    requires b.config.feeUnit.bytes > 0
  {
    && Known(b.s.utxos, b.extras) && !Skips(b.config, InputsOf(b.s.utxos, b.extras), outputs) && r.Success?
    && FeeError(b.s.(utxos := s'.utxos), b.config, b.xpub, made.inputs, outputs, b.given.Some?).None?
  }

  /**
   * A draft whose inputs pay for its outputs and its final fee is conserved, and the final check does
   * not refuse it. If no existing output takes change, a draft that is kept is conserved only then.
   */
  lemma PlainConserves(b: Before, outputs: seq<Output>, r: Result<seq<Outpoint>, Error>, picked: seq<Outpoint>,
                       s': State, made: Built, err: Option<Error>)
    requires b.config.feeUnit.bytes > 0 && InputTotal(made.inputs) < TWO64
    requires PlainBuilt(b, outputs, r, picked, s', made, err) && Planned(b, outputs, r, s', made)
    requires Sane(b.config, made.inputs, outputs, b.given, b.xpub, b.start)
    ensures OutputTotal(outputs) + made.plan.fee <= InputTotal(made.inputs) ==>
      && Conserved(made.inputs, made.plan.outputs, made.plan.fee)
      && err !in {Some(ErrOutputValueTooHigh), Some(ErrTransactionFeeInvalid)}
    ensures Flagged(outputs) == 0 && Conserved(made.inputs, made.plan.outputs, made.plan.fee) ==>
      OutputTotal(outputs) + made.plan.fee <= InputTotal(made.inputs)
  {
    FinishedKinds(made, err);
    PlanConserves(b.config, made.inputs, outputs, b.given, b.xpub, b.start);
  }

  lemma FinishedNotRepeated(rows: map<Outpoint, Utxo>, picked: seq<Outpoint>, made: Built, err: Option<Error>)
    requires Known(rows, picked) && Distinct(picked) && made.inputs == InputsOf(rows, picked) && Finished(made, err)
    ensures err != Some(ErrDuplicateUTXOs)
  {
    FinishedKinds(made, err);
    InputsOfReserved(rows, picked, "");
  }

  lemma SkippedNotRepeated(b: Before, outputs: seq<Output>, s': State, made: Built, err: Option<Error>)
    requires b.config.feeUnit.bytes > 0 && SkippedBuilt(b, [], outputs, s', made, err)
    ensures err != Some(ErrDuplicateUTXOs)
  {
    if Request(b.config, [], outputs) == 0 { FinishedNotRepeated(b.s.utxos, [], made, err); }
  }

  lemma ReservedNotRepeated(b: Before, outputs: seq<Output>, taken: seq<Outpoint>, s': State, made: Built,
                            err: Option<Error>)
    requires b.config.feeUnit.bytes > 0 && b.extras == [] && ReservedBuilt(b, outputs, taken, s', made, err)
    requires Distinct(taken)
    ensures err != Some(ErrDuplicateUTXOs)
  {
    assert [] + taken == taken;
    if FeeError(b.s.(utxos := s'.utxos), b.config, b.xpub, made.inputs, outputs, b.given.Some?).None? {
      FinishedNotRepeated(b.s.utxos, taken, made, err);
    }
  }

  /** What the engine picks itself never holds a UTXO twice. */
  lemma PlainNotRepeated(b: Before, outputs: seq<Output>, r: Result<seq<Outpoint>, Error>, picked: seq<Outpoint>,
                         s': State, made: Built, err: Option<Error>)
    requires b.config.feeUnit.bytes > 0 && b.Plain()
    requires PlainBuilt(b, outputs, r, picked, s', made, err)
    ensures err != Some(ErrDuplicateUTXOs)
  {
    assert InputsOf(b.s.utxos, b.extras) == [];
    if Skips(b.config, [], outputs) {
      SkippedNotRepeated(b, outputs, s', made, err);
    } else if r.Success? {
      ReservedNotRepeated(b, outputs, r.value, s', made, err);
    }
  }

  /**
   * The raw transaction of such a draft leaves exactly the fee to the miner, counting the UTXOs that
   * the configuration includes; these, however, are not among its inputs.
   */
  lemma PlainHex(b: Before, outputs: seq<Output>, r: Result<seq<Outpoint>, Error>, picked: seq<Outpoint>,
                 s': State, made: Built)
    requires b.config.feeUnit.bytes > 0 && InputTotal(made.inputs) < TWO64
    requires PlainBuilt(b, outputs, r, picked, s', made, None) && Planned(b, outputs, r, s', made)
    requires Sane(b.config, made.inputs, outputs, b.given, b.xpub, b.start)
    requires AllMatch(outputs) && Flagged(outputs) == 0
    requires OutputTotal(outputs) + made.plan.fee <= InputTotal(made.inputs)
    ensures TxOutTotal(made.hex) + made.plan.fee == InputTotal(made.inputs)
    ensures InputTotal(made.inputs) == Satoshis(b.s.utxos, made.hexInputs) + Satoshis(b.s.utxos, b.extras)
  {
    PlainConserves(b, outputs, r, picked, s', made, None);
    PlanHex(b.config, made.inputs, outputs, b.given, b.xpub, b.start);
    InputsOfConcat(b.s.utxos, b.extras, r.value);
    InputsOfTotal(b.s.utxos, b.extras);
    InputsOfTotal(b.s.utxos, r.value);
  }

  /** Addresses the builder makes itself are distinct, so the change is split without loss. */
  lemma OwnAddressesSplit(config: Config, inputs: seq<Input>, outputs: seq<Output>, x: XpubId, start: nat)
    requires config.feeUnit.bytes > 0 && config.strategy != Nominations
    requires config.strategy == Random ==> config.numberOfDestinations <= 5 && forall i :: config.draw(i) <= TWO63
    ensures Sane(config, inputs, outputs, None, x, start)
  {
    var n := NumberOfDestinations(config, Left(inputs, outputs, Fee(config, inputs, outputs, 0)));
    AddressesDistinct(x, start, n);
  }

  lemma FallsShortAtTheEnd(config: Config, rows: map<Outpoint, Utxo>, x: XpubId, list: seq<Outpoint>,
                           taken: seq<Outpoint>, outputs: seq<Output>)
    requires config.feeUnit.bytes > 0 && Picked(rows, x, taken) && |taken| < 253
    requires InputTotal(InputsOf(rows, taken)) < TWO64 && OutputTotal(outputs) + Fee(config, [], outputs, 0) < TWO64
    requires taken <= list
    requires ShortestPrefix(rows, list, OutputTotal(outputs) + Fee(config, [], outputs, 0),
                            FeeFor(config.feeUnit, InputSize(PubKeyHash)), |taken|)
    requires FallsShort(config, InputsOf(rows, taken), outputs)
    ensures taken == list
    ensures Satoshis(rows, list) < OutputTotal(outputs) + Fee(config, [], outputs, 0)
                                   + Fees(|list|, FeeFor(config.feeUnit, InputSize(PubKeyHash)))
  {
    var request := OutputTotal(outputs) + Fee(config, [], outputs, 0);
    var inputFee := FeeFor(config.feeUnit, InputSize(PubKeyHash));
    assert list[..|taken|] == taken && taken[..|taken|] == taken;
    if Reaches(rows, taken, request, inputFee, |taken|) {
      ReservedIsEnough(config, rows, x, taken, outputs);
      EnoughDoesNotFallShort(config, InputsOf(rows, taken), outputs);
    }
  }

  /** A plain draft that reserves: what it asks for, what it is answered, and how it goes on. */
  lemma PlainReserves(b: Before, outputs: seq<Output>, r: Result<seq<Outpoint>, Error>, picked: seq<Outpoint>,
                      s': State, made: Built, err: Option<Error>)
    requires b.config.feeUnit.bytes > 0 && b.Plain() && !Skips(b.config, [], outputs)
    requires PlainBuilt(b, outputs, r, picked, s', made, err) && r.Success?
    ensures Answered(b.s.utxos, b.list, Request(b.config, [], outputs),
                     FeeFor(b.config.feeUnit, InputSize(PubKeyHash)), r)
    ensures Picked(b.s.utxos, b.xpub, r.value) && made.inputs == InputsOf(b.s.utxos, r.value)
    ensures ReservedBuilt(b, outputs, r.value, s', made, err)
  {
    assert [] + r.value == r.value;
  }

  lemma NotEnoughFallsShort(b: Before, outputs: seq<Output>, picked: seq<Outpoint>, s': State, made: Built,
                            err: Option<Error>)
    requires b.config.feeUnit.bytes > 0 && ReservedBuilt(b, outputs, picked, s', made, err)
    ensures err == Some(ErrNotEnoughUtxos) <==> FallsShort(b.config, made.inputs, outputs)
  {
    if FeeError(b.s.(utxos := s'.utxos), b.config, b.xpub, made.inputs, outputs, b.given.Some?).None? {
      FinishedKinds(made, err);
    }
  }

  lemma NotEnoughReserved(b: Before, outputs: seq<Output>, r: Result<seq<Outpoint>, Error>,
                          s': State, made: Built, err: Option<Error>)
    requires b.config.feeUnit.bytes > 0 && InputTotal(made.inputs) < TWO64
    requires OutputTotal(outputs) + Fee(b.config, [], outputs, 0) < TWO64
    requires Answered(b.s.utxos, b.list, Request(b.config, [], outputs),
                      FeeFor(b.config.feeUnit, InputSize(PubKeyHash)), r)
    requires r.Success? && Picked(b.s.utxos, b.xpub, r.value) && made.inputs == InputsOf(b.s.utxos, r.value)
    requires ReservedBuilt(b, outputs, r.value, s', made, err) && err == Some(ErrNotEnoughUtxos) && |r.value| < 253
    ensures r.value == b.list
    ensures Satoshis(b.s.utxos, b.list) < OutputTotal(outputs) + Fee(b.config, [], outputs, 0)
                                          + Fees(|b.list|, FeeFor(b.config.feeUnit, InputSize(PubKeyHash)))
  {
    NotEnoughFallsShort(b, outputs, r.value, s', made, err);
    FallsShortAtTheEnd(b.config, b.s.utxos, b.xpub, b.list, r.value, outputs);
  }

  /**
   * What is built for a draft that names no UTXOs lacks satoshis in two cases only, if it takes fewer
   * than 253 inputs: everything spendable together is less than requested, or it was all taken and does
   * not pay for its own fees.
   */
  lemma NotEnoughAfterReservation(b: Before, outputs: seq<Output>, r: Result<seq<Outpoint>, Error>,
                                  picked: seq<Outpoint>, s': State, made: Built, err: Option<Error>)
    requires b.config.feeUnit.bytes > 0 && b.Plain() && !Skips(b.config, [], outputs)
    requires OutputTotal(outputs) + Fee(b.config, [], outputs, 0) < TWO64
    requires PlainBuilt(b, outputs, r, picked, s', made, err) && err == Some(ErrNotEnoughUtxos)
    requires r.Success? ==> |r.value| < 253 && InputTotal(made.inputs) < TWO64
    ensures Satoshis(b.s.utxos, b.list) < OutputTotal(outputs) + Fee(b.config, [], outputs, 0)
                                          + Fees(|b.list|, FeeFor(b.config.feeUnit, InputSize(PubKeyHash)))
    ensures r.Success? ==> r.value == b.list
    ensures r.Failure? ==> Satoshis(b.s.utxos, b.list) < OutputTotal(outputs) + Fee(b.config, [], outputs, 0)
  {
    if r.Success? {
      PlainReserves(b, outputs, r, picked, s', made, err);
      NotEnoughReserved(b, outputs, r, s', made, err);
    }
  }

  lemma EnoughDoesNotFallShort(config: Config, inputs: seq<Input>, outputs: seq<Output>)
    requires config.feeUnit.bytes > 0 && InputTotal(inputs) < TWO64
    requires OutputTotal(outputs) + Fee(config, inputs, outputs, 0) <= InputTotal(inputs)
    ensures !FallsShort(config, inputs, outputs)
  {
  }

  // ----- the send-all draft -----------------------------------------------------------------------------

  lemma SendAllFits(config: Config, inputs: seq<Input>, outputs: seq<Output>, first: Output, given: Option<seq<Script>>)
    requires config.feeUnit.bytes > 0 && InputTotal(inputs) < TWO64
    requires Resolved(outputs, Some(first)).Success?
    ensures SendAllOk(Resolved(outputs, Some(first)).value)
    ensures var p := SendAllPlan(config, inputs, Funded(Resolved(outputs, Some(first)).value, inputs), given);
      && (Conserved(inputs, p.outputs, p.fee) <==> OutputTotal(outputs) + p.fee <= InputTotal(inputs))
      && (Conserved(inputs, p.outputs, p.fee) ==> FinalCheck(inputs, p.outputs, p.fee).None?)
  {
    var done := Resolved(outputs, Some(first)).value;
    ResolvedSendAll(outputs, first);
    var funded := Funded(done, inputs);
    assert funded[1..] == done[1..];
    SendAllConserves(config, inputs, funded, given);
  }

  /** With more than dust to send, a send-all draft follows its plan. */
  lemma SendAllFollowsPlan(b: Before, outputs: seq<Output>, r: Result<seq<Outpoint>, Error>,
                           s': State, made: Built, err: Option<Error>)
    requires b.config.feeUnit.bytes > 0 && SendAllOk(outputs) && SendAllBuilt(b, outputs, r, s', made, err)
    requires r.Success? && DUST_LIMIT < InputTotal(made.inputs) < TWO64
    ensures made.plan == SendAllPlan(b.config, made.inputs, Funded(outputs, made.inputs), b.given)
      && Finished(made, err)
  {
  }

  /** Sending everything is conserved exactly when the other outputs and the fee fit into the inputs. */
  lemma SendAllResult(config: Config, outputs: seq<Output>, first: Output, given: Option<seq<Script>>,
                      made: Built, err: Option<Error>)
    requires config.feeUnit.bytes > 0 && InputTotal(made.inputs) < TWO64
    requires Resolved(outputs, Some(first)).Success?
    requires SendAllOk(Resolved(outputs, Some(first)).value)
    requires made.plan
      == SendAllPlan(config, made.inputs, Funded(Resolved(outputs, Some(first)).value, made.inputs), given)
    requires Finished(made, err)
    ensures Conserved(made.inputs, made.plan.outputs, made.plan.fee)
       <==> OutputTotal(outputs) + made.plan.fee <= InputTotal(made.inputs)
    ensures OutputTotal(outputs) + made.plan.fee <= InputTotal(made.inputs) ==>
      err !in {Some(ErrOutputValueTooHigh), Some(ErrTransactionFeeInvalid)}
  {
    FinishedKinds(made, err);
    SendAllFits(config, made.inputs, outputs, first, given);
  }

  /** To an address, what is sent and the fee are all of the inputs in the raw transaction too. */
  lemma SendAllHexTotal(config: Config, outputs: seq<Output>, first: Output, given: Option<seq<Script>>, made: Built)
    requires config.feeUnit.bytes > 0 && InputTotal(made.inputs) < TWO64
    requires first.scripts == [] && !first.target.Paymail? && Resolved(outputs, Some(first)).Success?
    requires forall i :: 0 <= i < |outputs| ==> outputs[i].scripts == [] && ProviderSplits(outputs[i])
    requires SendAllOk(Resolved(outputs, Some(first)).value)
    requires made.plan
      == SendAllPlan(config, made.inputs, Funded(Resolved(outputs, Some(first)).value, made.inputs), given)
    requires Finished(made, None)
    requires OutputTotal(outputs) + made.plan.fee <= InputTotal(made.inputs)
    ensures TxOutTotal(made.hex) + made.plan.fee == InputTotal(made.inputs)
  {
    SendAllResult(config, outputs, first, given, made, None);
    var done := Resolved(outputs, Some(first)).value;
    ResolvedSendAll(outputs, first);
    ResolvedMatch(outputs, false);
    var funded := Funded(done, made.inputs);
    assert funded[1..] == done[1..];
    SendAllHex(config, made.inputs, funded, given);
  }

  // ----- the ledger ----------------------------------------------------------------------------------------

  lemma {:induction false} NewChangeDestinationsKeepsInv(s: State, x: XpubId, n: nat)
    requires Lasting(s) && x in s.xpubs
    ensures var s' := NewChangeDestinations(s, x, n);
      && Lasting(s') && (Accounts(s) ==> Accounts(s'))
      && s'.utxos == s.utxos && s'.drafts == s.drafts && s'.txs == s.txs
  {
    if n > 0 {
      NewChangeDestinationsKeepsInv(s, x, n - 1);
      if n <= Room(s, x) + 1 { NewChangeDestinationKeepsInv(NewChangeDestinations(s, x, n - 1), x); }
    }
  }

  /** The draft as it is stored. */
  function Stored(x: XpubId, made: Built, expiresAt: int): DraftTx {
    DraftTx(x, OutpointsOf(made.inputs), ScriptsOf(made.plan.outputs), made.plan.fee, DraftStatus.Draft, None,
            expiresAt)
  }

  lemma TakenHeld(s: State, picked: seq<Outpoint>, x: XpubId, d: DraftId, s': State, draft: DraftTx)
    requires Picked(s.utxos, x, picked) && FreshDraft(s, d)
    requires s'.utxos == Reserved(s.utxos, Elements(picked), d) && s'.drafts == s.drafts
    requires draft.status == DraftStatus.Draft && draft.inputs == picked
    ensures HoldsInputs(s', d, draft)
  {
    assert forall o :: o in picked <==> o in Elements(picked);
  }

  lemma ReservedThenReadied(s: State, picked: seq<Outpoint>, x: XpubId, d: DraftId, n: nat, given: bool)
    requires Inv(s) && FreshDraft(s, d) && Picked(s.utxos, x, picked)
    ensures var s' := Readied(Reserve(s, Elements(picked), d), x, n, given);
      && Inv(s') && Inv(Reserve(s, Elements(picked), d))
      && s'.utxos == Reserved(s.utxos, Elements(picked), d) && s'.drafts == s.drafts
  {
    var s1 := Reserve(s, Elements(picked), d);
    assert NotHeld(s, Elements(picked));
    ReserveKeepsInv(s, Elements(picked), d);
    if !given && x in s1.xpubs { NewChangeDestinationsKeepsInv(s1, x, n); }
  }

  /** The picked UTXOs have been reserved, and change addresses may have been made. */
  ghost predicate Took(b: Before, picked: seq<Outpoint>, s': State, n: nat) {
    && Picked(b.s.utxos, b.xpub, picked)
    && var taken := Reserve(b.s, Elements(picked), b.id); s' == taken || s' == Readied(taken, b.xpub, n, b.given.Some?)
  }

  lemma TakenKeepsInv(b: Before, picked: seq<Outpoint>, s': State, n: nat)
    requires Inv(b.s) && FreshDraft(b.s, b.id) && Took(b, picked, s', n)
    ensures Inv(s')
    ensures forall made: Built, expiresAt :: made.inputs == InputsOf(b.s.utxos, picked) ==>
      HoldsInputs(s', b.id, Stored(b.xpub, made, expiresAt))
  {
    ReservedThenReadied(b.s, picked, b.xpub, b.id, n, b.given.Some?);
    InputsOfReserved(b.s.utxos, picked, b.id);
    forall made: Built, expiresAt | made.inputs == InputsOf(b.s.utxos, picked)
      ensures HoldsInputs(s', b.id, Stored(b.xpub, made, expiresAt))
    {
      TakenHeld(b.s, picked, b.xpub, b.id, s', Stored(b.xpub, made, expiresAt));
    }
  }

  lemma TookNothing(b: Before, s': State)
    requires s' == b.s
    ensures Took(b, [], s', 0)
  {
    assert Reserved(b.s.utxos, Elements([]), b.id) == b.s.utxos;
  }

  lemma PlainTook(b: Before, outputs: seq<Output>, r: Result<seq<Outpoint>, Error>, picked: seq<Outpoint>,
                  s': State, made: Built, err: Option<Error>) returns (taken: seq<Outpoint>, n: nat)
    requires b.config.feeUnit.bytes > 0 && b.Plain() && PlainBuilt(b, outputs, r, picked, s', made, err)
    ensures Took(b, taken, s', n) && (err.None? ==> made.inputs == InputsOf(b.s.utxos, taken))
  {
    taken, n := [], 0;
    if Skips(b.config, [], outputs) || r.Failure? {
      TookNothing(b, s');
    } else {
      taken := r.value;
      n := NumberOfDestinations(b.config, Left(made.inputs, outputs, Fee(b.config, made.inputs, outputs, 0)));
      assert [] + taken == taken;
      assert b.s.(utxos := s'.utxos) == Reserve(b.s, Elements(taken), b.id);
    }
  }

  lemma SendAllTook(b: Before, outputs: seq<Output>, r: Result<seq<Outpoint>, Error>,
                    s': State, made: Built, err: Option<Error>)
    requires b.config.feeUnit.bytes > 0 && b.Plain() && SendAllOk(outputs) && SendAllBuilt(b, outputs, r, s', made, err)
    ensures Took(b, b.list, s', 0) && made.inputs == InputsOf(b.s.utxos, b.list)
  {
  }

  /** What a builder that names and includes no UTXOs has taken when it stops. */
  lemma DraftTook(b: Before, sendAllTo: Option<Output>, outputs: seq<Output>, r: Result<seq<Outpoint>, Error>,
                  picked: seq<Outpoint>, s': State, made: Built, err: Option<Error>)
    returns (taken: seq<Outpoint>, n: nat)
    requires b.config.feeUnit.bytes > 0 && b.Plain()
    requires DraftMade(b, sendAllTo, outputs, r, picked, s', made, err)
    ensures Took(b, taken, s', n) && (err.None? ==> made.inputs == InputsOf(b.s.utxos, taken))
  {
    taken, n := [], 0;
    if (outputs == [] && sendAllTo.None?) || Resolved(outputs, sendAllTo).Failure? {
      TookNothing(b, s');
    } else if sendAllTo.Some? {
      SendAllTook(b, Resolved(outputs, sendAllTo).value, r, s', made, err);
      taken := b.list;
    } else {
      taken, n := PlainTook(b, Resolved(outputs, sendAllTo).value, r, picked, s', made, err);
    }
  }

  /** Building a draft keeps the ledger invariant, and a finished draft holds its inputs. */
  lemma DraftMadeKeepsInv(b: Before, sendAllTo: Option<Output>, outputs: seq<Output>, r: Result<seq<Outpoint>, Error>,
                          picked: seq<Outpoint>, s': State, made: Built, err: Option<Error>)
    requires b.config.feeUnit.bytes > 0
    requires Inv(b.s) && FreshDraft(b.s, b.id) && b.Plain()
    requires DraftMade(b, sendAllTo, outputs, r, picked, s', made, err)
    ensures Inv(s')
    ensures err.None? ==> forall expiresAt :: HoldsInputs(s', b.id, Stored(b.xpub, made, expiresAt))
  {
    var taken, n := DraftTook(b, sendAllTo, outputs, r, picked, s', made, err);
    TakenKeepsInv(b, taken, s', n);
  }

  /** A new draft, saved or not, keeps the ledger invariant. */
  lemma NewDraftKeepsInv(b: Before, sendAllTo: Option<Output>, outputs: seq<Output>, r: Result<seq<Outpoint>, Error>,
                         picked: seq<Outpoint>, s': State, made: Built, err: Option<Error>, expiresAt: int)
    requires b.config.feeUnit.bytes > 0 && FreshDraft(b.s, b.id)
    requires DraftMade(b, sendAllTo, outputs, r, picked, s', made, err)
    ensures Inv(b.s) && b.Plain() ==>
      Inv(if err.Some? then s' else StoreDraft(s', b.id, Stored(b.xpub, made, expiresAt)))
  {
    if Inv(b.s) && b.Plain() {
      DraftMadeKeepsInv(b, sendAllTo, outputs, r, picked, s', made, err);
      if err.None? { StoreDraftKeepsInv(s', b.id, Stored(b.xpub, made, expiresAt)); }
    }
  }
}
