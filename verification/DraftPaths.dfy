/** From the reservation to the final outputs of a draft, on values: what each path does to the totals. */
module DraftPaths {
  import opened Common
  import opened Sums
  import opened Uint64
  import opened Ledger
  import opened UtxoTable
  import opened ChangeSplit
  import opened DraftMath

  // ----- inputs on values --------------------------------------------------------------------------

  function InputsOf(rows: map<Outpoint, Utxo>, picked: seq<Outpoint>): seq<Input>
    requires forall o :: o in picked ==> o in rows
  {
    if picked == [] then [] else
      var last := picked[|picked| - 1];
      InputsOf(rows, picked[..|picked| - 1]) + [Input(last, rows[last].satoshis, rows[last].scriptType)]
  }

  function OutpointsOf(inputs: seq<Input>): seq<Outpoint> {
    seq(|inputs|, i requires 0 <= i < |inputs| => inputs[i].at)
  }

  lemma InputsDistinct(inputs: seq<Input>)
    ensures Distinct(OutpointsOf(inputs)) <==> forall i, j :: 0 <= i < j < |inputs| ==> inputs[i].at != inputs[j].at
  {
    var list := OutpointsOf(inputs);
    DistinctIndices(list);
    assert forall i :: 0 <= i < |inputs| ==> list[i] == inputs[i].at;
    if Distinct(list) {
      forall i, j | 0 <= i < j < |inputs| ensures inputs[i].at != inputs[j].at { assert list[i] != list[j]; }
    }
  }

  lemma {:induction false} InputsOfEach(rows: map<Outpoint, Utxo>, picked: seq<Outpoint>)
    requires forall o :: o in picked ==> o in rows
    ensures |InputsOf(rows, picked)| == |picked|
    ensures forall i :: 0 <= i < |picked| ==>
      InputsOf(rows, picked)[i] == Input(picked[i], rows[picked[i]].satoshis, rows[picked[i]].scriptType)
  {
    if picked != [] {
      var n := |picked| - 1;
      InputsOfEach(rows, picked[..n]);
      assert forall i :: 0 <= i < n ==> picked[..n][i] == picked[i];
    }
  }

  lemma InputsOfNext(rows: map<Outpoint, Utxo>, picked: seq<Outpoint>, i: nat)
    requires i < |picked| && forall o :: o in picked ==> o in rows
    ensures InputsOf(rows, picked[..i + 1])
         == InputsOf(rows, picked[..i]) + [Input(picked[i], rows[picked[i]].satoshis, rows[picked[i]].scriptType)]
  {
    assert picked[..i + 1][..i] == picked[..i];
  }

  lemma InputsOfConcat(rows: map<Outpoint, Utxo>, a: seq<Outpoint>, b: seq<Outpoint>)
    requires forall o :: o in a + b ==> o in rows
    ensures (forall o :: o in a ==> o in rows) && (forall o :: o in b ==> o in rows)
    ensures InputsOf(rows, a + b) == InputsOf(rows, a) + InputsOf(rows, b)
    ensures InputTotal(InputsOf(rows, a + b)) == InputTotal(InputsOf(rows, a)) + InputTotal(InputsOf(rows, b))
  {
    forall o | o in a || o in b ensures o in rows { assert o in a + b; }
    InputsOfEach(rows, a);
    InputsOfEach(rows, b);
    InputsOfEach(rows, a + b);
    InputTotalConcat(InputsOf(rows, a), InputsOf(rows, b));
  }

  lemma InputTotalNext(inputs: seq<Input>, input: Input)
    ensures U64(U64(InputTotal(inputs)) + input.satoshis) == U64(InputTotal(inputs + [input]))
  {
    assert (inputs + [input])[..|inputs|] == inputs;
    Reduce(InputTotal(inputs), input.satoshis);
  }

  lemma {:induction false} InputsOfTotal(rows: map<Outpoint, Utxo>, picked: seq<Outpoint>)
    requires forall o :: o in picked ==> o in rows
    ensures InputTotal(InputsOf(rows, picked)) == Satoshis(rows, picked)
  {
    if picked != [] {
      InputsOfTotal(rows, picked[..|picked| - 1]);
      assert InputsOf(rows, picked)[..|InputsOf(rows, picked)| - 1] == InputsOf(rows, picked[..|picked| - 1]);
    }
  }

  /** The inputs of the UTXOs picked, whatever their draft column says. */
  lemma InputsOfReserved(rows: map<Outpoint, Utxo>, picked: seq<Outpoint>, d: DraftId)
    requires forall o :: o in picked ==> o in rows
    ensures InputsOf(Reserved(rows, Elements(picked), d), picked) == InputsOf(rows, picked)
    ensures OutpointsOf(InputsOf(rows, picked)) == picked
  {
    var rows' := Reserved(rows, Elements(picked), d);
    InputsOfEach(rows, picked);
    InputsOfEach(rows', picked);
    assert forall i :: 0 <= i < |picked| ==> picked[i] in picked;
  }

  // ----- change addresses on values --------------------------------------------------------------------

  /** n consecutive change addresses of x. */
  function Addresses(x: XpubId, start: nat, n: nat): seq<Script> {
    if n == 0 then [] else Addresses(x, start, n - 1) + [Derived(x, start + n - 1)]
  }

  lemma {:induction false} AddressesDistinct(x: XpubId, start: nat, n: nat)
    ensures |Addresses(x, start, n)| == n && Distinct(Addresses(x, start, n))
    ensures forall s :: s in Addresses(x, start, n) ==> s.Derived? && s.num < start + n
  {
    if n > 0 {
      AddressesDistinct(x, start, n - 1);
      assert Addresses(x, start, n)[..n - 1] == Addresses(x, start, n - 1);
    }
  }

  // ----- the arithmetic of the change --------------------------------------------------------------------

  /** What is left of the inputs after the outputs and the fee, in unchecked arithmetic. */
  lemma ChangeOf(inputs: nat, outputs: nat, fee: nat)
    ensures U64(U64(U64(inputs) - U64(outputs)) - fee) == U64(inputs - outputs - fee)
  {
    SubtractReduced(U64(inputs), outputs);
    Reduce(inputs, -(outputs as int));
    Reduce(inputs - outputs, -(fee as int));
  }

  /** The change after the fee for its own outputs. */
  lemma ChangeLessFee(inputs: nat, outputs: nat, fee: nat, newFee: nat)
    ensures U64(U64(inputs - outputs - fee) - U64(newFee - fee)) == U64(inputs - outputs - newFee)
  {
    SubtractReduced(U64(inputs - outputs - fee), newFee - fee);
    Reduce(inputs - outputs - fee, -(newFee - fee));
  }

  predicate CarriesData(outputs: seq<Output>) {
    exists i :: 0 <= i < |outputs| && outputs[i].target.OpReturn?
  }

  // ----- resolved outputs -----------------------------------------------------------------------------------

  /** With a send-all target, that output comes first, empty, and alone is used for change. */
  function Resolved(outputs: seq<Output>, sendAllTo: Option<Output>): Result<seq<Output>, Error> {
    if sendAllTo.None? then ProcessOutputs(outputs, true) else
      var first := ProcessOutput(sendAllTo.value.(useForChange := true, satoshis := 0), false);
      if first.Failure? then Failure(first.error) else
        var others := ProcessOutputs(outputs, false);
        if others.Failure? then others else Success([first.value] + others.value)
  }

  lemma ResolvedSendAll(outputs: seq<Output>, first: Output)
    requires Resolved(outputs, Some(first)).Success?
    ensures var done := Resolved(outputs, Some(first)).value;
      && |done| == |outputs| + 1 && done[0].useForChange && done[0].satoshis == 0 && done[0].scripts != []
      && (forall i :: 0 < i < |done| ==> !done[i].useForChange)
      && (!first.target.Paymail? && first.scripts == [] ==> |done[0].scripts| == 1)
      && done[1..] == ProcessOutputs(outputs, false).value && OutputTotal(done[1..]) == OutputTotal(outputs)
  {
    ProcessOutputsMatch(outputs, false);
    ProcessOutputMatches(first.(useForChange := true, satoshis := 0), false);
    var done := Resolved(outputs, Some(first)).value;
    assert done[1..] == ProcessOutputs(outputs, false).value;
    assert forall i :: 0 < i < |done| ==> done[i] == done[1..][i - 1];
  }

  /** Resolved outputs carry their amounts in their scripts. */
  lemma ResolvedMatch(outputs: seq<Output>, keepChange: bool)
    requires ProcessOutputs(outputs, keepChange).Success?
    requires forall i :: 0 <= i < |outputs| ==> outputs[i].scripts == [] && ProviderSplits(outputs[i])
    ensures AllMatch(ProcessOutputs(outputs, keepChange).value)
  {
    ProcessOutputsMatch(outputs, keepChange);
  }

  // ----- covered by the reservation -----------------------------------------------------------------------

  lemma {:induction false} InputsOfPubKeyHash(rows: map<Outpoint, Utxo>, x: XpubId, picked: seq<Outpoint>)
    requires Picked(rows, x, picked)
    ensures forall i :: 0 <= i < |InputsOf(rows, picked)| ==> InputsOf(rows, picked)[i].scriptType == PubKeyHash
  {
    InputsOfEach(rows, picked);
    assert forall i :: 0 <= i < |picked| ==> picked[i] in picked;
  }

  /**
   * A reservation that stopped at its threshold with fewer than 253 inputs pays for the outputs and
   * the fee estimated afterwards; with more inputs it falls short by the fee of the longer input count
   * at most.
   */
  lemma ReservedIsEnough(config: Config, rows: map<Outpoint, Utxo>, x: XpubId, picked: seq<Outpoint>,
                         outputs: seq<Output>)
    requires config.feeUnit.bytes > 0 && Picked(rows, x, picked)
    requires var needed := OutputTotal(outputs);
      && needed + Fee(config, [], outputs, 0) < TWO64
      && Reaches(rows, picked, needed + Fee(config, [], outputs, 0), FeeFor(config.feeUnit, InputSize(PubKeyHash)),
                 |picked|)
    ensures var inputs := InputsOf(rows, picked);
      var short := FeeFor(config.feeUnit, VarIntLength(|picked|) - 1);
      && OutputTotal(outputs) + Fee(config, inputs, outputs, 0) <= InputTotal(inputs) + short
      && (|picked| < 253 ==> OutputTotal(outputs) + Fee(config, inputs, outputs, 0) <= InputTotal(inputs))
  {
    var inputs := InputsOf(rows, picked);
    InputsOfEach(rows, picked);
    InputsOfPubKeyHash(rows, x, picked);
    InputsOfTotal(rows, picked);
    assert picked[..|picked|] == picked;
    ReservationCoversFee(config.feeUnit, inputs, outputs, config.size);
    FeesTimes(|picked|, FeeFor(config.feeUnit, InputSize(PubKeyHash)));
  }

  // ----- the fee stage --------------------------------------------------------------------------------------

  /** What the configuration of a draft fixes for the fee and the change. */
  datatype Config = Config(
    feeUnit: FeeUnit,
    strategy: Strategy,
    minimumSatoshis: nat,
    numberOfDestinations: int,
    /** The i-th random number drawn for the change. */
    draw: nat -> nat,
    /** Bytes of an output with the given script. */
    size: Script -> nat)

  function Fee(config: Config, inputs: seq<Input>, outputs: seq<Output>, extra: nat): nat
    requires config.feeUnit.bytes > 0
  {
    FeeFor(config.feeUnit, EstimatedSize(inputs, outputs, config.size) + extra)
  }

  /** What is asked of the reservation: the outputs and the fee estimated with the inputs known so far. */
  function Request(config: Config, inputs: seq<Input>, outputs: seq<Output>): nat
    requires config.feeUnit.bytes > 0
  {
    U64(U64(OutputTotal(outputs)) + Fee(config, inputs, outputs, 0))
  }

  /** An amount of dust without data is not reserved for. */
  predicate Skips(config: Config, inputs: seq<Input>, outputs: seq<Output>)
    requires config.feeUnit.bytes > 0
  {
    Request(config, inputs, outputs) <= DUST_LIMIT && !CarriesData(outputs)
  }

  /** As many change destinations as configured, unless each would get less than the minimum. */
  function NumberOfDestinations(config: Config, change: nat): (n: nat)
    ensures n > 0 && (n == 1 || n == config.numberOfDestinations)
  {
    var n := if config.numberOfDestinations <= 0 then 1 else config.numberOfDestinations;
    var least := if config.minimumSatoshis == 0 then DEFAULT_CHANGE_MINIMUM else config.minimumSatoshis;
    if change < least * n then 1 else n
  }

  function Draws(config: Config, n: nat): (draws: seq<nat>)
    ensures |draws| == n
  {
    seq<nat>(n, i requires 0 <= i < n => config.draw(i))
  }

  /** The outputs that pay the change to its destinations. */
  function NewOutputs(config: Config, change: nat, destinations: seq<Script>): seq<Output> {
    if destinations == [] then [] else
      var n := |destinations|;
      ChangeOutputs(destinations, Split(change, destinations, Shares(change, n, config.strategy, Draws(config, n))))
  }

  /** The change divided over the outputs flagged for it, the first of them taking the remainder too. */
  function ToFlagged(outputs: seq<Output>, change: nat): seq<Output>
    requires Flagged(outputs) > 0
  {
    WithChange(outputs, FloorDiv(change, Flagged(outputs)), Remainder(change, Flagged(outputs)))
  }

  /** What the fee stage leaves in the configuration. */
  datatype Plan = Plan(outputs: seq<Output>, fee: nat, change: nat, destinations: Option<seq<Script>>)

  /** What is left over, in unchecked arithmetic. */
  function Left(inputs: seq<Input>, outputs: seq<Output>, fee: nat): nat {
    U64(InputTotal(inputs) - OutputTotal(outputs) - fee)
  }

  function Destinations(given: Option<seq<Script>>, x: XpubId, start: nat, n: nat): seq<Script> {
    if given.Some? then given.value else Addresses(x, start, n)
  }

  /** New change outputs, to the given destinations or to addresses of x derived from `start` on. */
  function NewChangePlan(config: Config, inputs: seq<Input>, outputs: seq<Output>, given: Option<seq<Script>>,
                         x: XpubId, start: nat): Plan
    requires config.feeUnit.bytes > 0
  {
    var n := NumberOfDestinations(config, Left(inputs, outputs, Fee(config, inputs, outputs, 0)));
    var fee := Fee(config, inputs, outputs, n * CHANGE_OUTPUT_SIZE);
    var change := Left(inputs, outputs, fee);
    var destinations := Destinations(given, x, start, n);
    Plan(outputs + NewOutputs(config, change, destinations), fee, change, Some(destinations))
  }

  function ChangePlan(config: Config, inputs: seq<Input>, outputs: seq<Output>, given: Option<seq<Script>>,
                      x: XpubId, start: nat): Plan
    requires config.feeUnit.bytes > 0
  {
    var fee := Fee(config, inputs, outputs, 0);
    var change := Left(inputs, outputs, fee);
    if change == 0 then Plan(outputs, fee, 0, given)
    else if Flagged(outputs) > 0 then Plan(ToFlagged(outputs, change), fee, change, None)
    else NewChangePlan(config, inputs, outputs, given, x, start)
  }

  /** Something is left over and no existing output takes it. */
  predicate NeedsDestinations(config: Config, inputs: seq<Input>, outputs: seq<Output>)
    requires config.feeUnit.bytes > 0
  {
    Left(inputs, outputs, Fee(config, inputs, outputs, 0)) > 0 && Flagged(outputs) == 0
  }

  /** The test before the change is computed, in unchecked arithmetic. */
  predicate FallsShort(config: Config, inputs: seq<Input>, outputs: seq<Output>)
    requires config.feeUnit.bytes > 0
  {
    U64(InputTotal(inputs)) < Request(config, inputs, outputs)
  }

  /** The total of the outputs that are not flagged for change. */
  function Unflagged(outputs: seq<Output>): nat {
    if outputs == [] then 0 else
      var last := outputs[|outputs| - 1];
      Unflagged(outputs[..|outputs| - 1]) + if last.useForChange then 0 else last.satoshis
  }

  function WithAmount(o: Output, satoshis: nat): Output
    requires o.scripts != []
  {
    o.(satoshis := satoshis, scripts := [o.scripts[0].(satoshis := satoshis)] + o.scripts[1..])
  }

  /** Everything but the fee and the other outputs goes to the first output. */
  function SendAllPlan(config: Config, inputs: seq<Input>, outputs: seq<Output>, given: Option<seq<Script>>): Plan
    requires config.feeUnit.bytes > 0 && outputs != [] && outputs[0].scripts != []
  {
    var fee := Fee(config, inputs, outputs, 0);
    var rest := U64(InputTotal(inputs) - fee - Unflagged(outputs));
    Plan([WithAmount(outputs[0], rest)] + outputs[1..], fee, 0, given)
  }

  // ----- conservation on every path ----------------------------------------------------------------------

  /** Distinct destinations, and a strategy that adds up over them for any numbers drawn. */
  ghost predicate Splits(config: Config, destinations: seq<Script>) {
    && destinations != [] && Distinct(destinations) && config.strategy != Nominations
    && (config.strategy == Random ==> |destinations| <= 5 && forall i :: config.draw(i) <= TWO63)
  }

  lemma NewOutputsTotal(config: Config, change: nat, destinations: seq<Script>)
    requires Splits(config, destinations) && change < TWO64
    ensures OutputTotal(NewOutputs(config, change, destinations)) == change
  {
    var n := |destinations|;
    var draws := Draws(config, n);
    SplitAddsUp(change, destinations, config.strategy, draws);
    ChangeOutputsTotal(destinations, Split(change, destinations, Shares(change, n, config.strategy, draws)));
  }

  lemma LeftExact(inputs: nat, outputs: nat, fee: nat)
    requires inputs < TWO64
    ensures U64(inputs - outputs - fee) == inputs - outputs - fee <==> outputs + fee <= inputs
  {
  }

  lemma LeftNothing(inputs: seq<Input>, outputs: seq<Output>, fee: nat)
    requires InputTotal(inputs) < TWO64 && Left(inputs, outputs, fee) == 0
    ensures Conserved(inputs, outputs, fee) <==> OutputTotal(outputs) + fee <= InputTotal(inputs)
  {
    LeftExact(InputTotal(inputs), OutputTotal(outputs), fee);
  }

  /** New change outputs conserve exactly when the inputs pay for the outputs and the final fee. */
  lemma NewChangeConserves(config: Config, inputs: seq<Input>, outputs: seq<Output>, given: Option<seq<Script>>,
                           x: XpubId, start: nat)
    requires config.feeUnit.bytes > 0 && InputTotal(inputs) < TWO64
    requires Splits(config, NewChangePlan(config, inputs, outputs, given, x, start).destinations.value)
    ensures var p := NewChangePlan(config, inputs, outputs, given, x, start);
      Conserved(inputs, p.outputs, p.fee) <==> OutputTotal(outputs) + p.fee <= InputTotal(inputs)
  {
    var p := NewChangePlan(config, inputs, outputs, given, x, start);
    NewOutputsTotal(config, p.change, p.destinations.value);
    OutputTotalConcat(outputs, NewOutputs(config, p.change, p.destinations.value));
    LeftExact(InputTotal(inputs), OutputTotal(outputs), p.fee);
  }

  lemma ToFlaggedTotal(outputs: seq<Output>, change: nat)
    requires Flagged(outputs) > 0 && OutputTotal(outputs) + change < TWO64
    ensures OutputTotal(ToFlagged(outputs, change)) == OutputTotal(outputs) + change
  {
    WithChangeTotal(outputs, FloorDiv(change, Flagged(outputs)), Remainder(change, Flagged(outputs)));
  }

  /** Change on existing outputs conserves whenever the inputs pay for the outputs and the fee. */
  lemma ToFlaggedConserves(inputs: seq<Input>, outputs: seq<Output>, fee: nat)
    requires InputTotal(inputs) < TWO64 && Flagged(outputs) > 0
    requires OutputTotal(outputs) + fee <= InputTotal(inputs)
    ensures Conserved(inputs, ToFlagged(outputs, Left(inputs, outputs, fee)), fee)
  {
    LeftExact(InputTotal(inputs), OutputTotal(outputs), fee);
    ToFlaggedTotal(outputs, Left(inputs, outputs, fee));
  }

  /** The destinations of the plan, if it adds outputs for the change, split it without loss. */
  ghost predicate Sane(config: Config, inputs: seq<Input>, outputs: seq<Output>, given: Option<seq<Script>>,
                       x: XpubId, start: nat)
    requires config.feeUnit.bytes > 0
  {
    NeedsDestinations(config, inputs, outputs) ==>
      Splits(config, NewChangePlan(config, inputs, outputs, given, x, start).destinations.value)
  }

  /**
   * Whatever path is taken, inputs that pay for the outputs and the final fee are exactly the outputs
   * and the fee in the end, and the final check passes. Without change on existing outputs the
   * condition is also necessary.
   */
  lemma PlanConserves(config: Config, inputs: seq<Input>, outputs: seq<Output>, given: Option<seq<Script>>,
                      x: XpubId, start: nat)
    requires config.feeUnit.bytes > 0 && InputTotal(inputs) < TWO64
    requires Sane(config, inputs, outputs, given, x, start)
    ensures var p := ChangePlan(config, inputs, outputs, given, x, start);
      && (OutputTotal(outputs) + p.fee <= InputTotal(inputs) ==>
            Conserved(inputs, p.outputs, p.fee) && FinalCheck(inputs, p.outputs, p.fee).None?)
      && (Flagged(outputs) == 0 && Conserved(inputs, p.outputs, p.fee) ==>
            OutputTotal(outputs) + p.fee <= InputTotal(inputs))
  {
    var p := ChangePlan(config, inputs, outputs, given, x, start);
    var fee := Fee(config, inputs, outputs, 0);
    if Left(inputs, outputs, fee) == 0 {
      LeftNothing(inputs, outputs, fee);
    } else if Flagged(outputs) > 0 {
      if OutputTotal(outputs) + fee <= InputTotal(inputs) { ToFlaggedConserves(inputs, outputs, fee); }
    } else {
      NewChangeConserves(config, inputs, outputs, given, x, start);
    }
    if OutputTotal(outputs) + p.fee <= InputTotal(inputs) { FinalCheckAccepts(inputs, p.outputs, p.fee); }
  }

  /**
   * Once the inputs have passed the test for enough satoshis, and with amounts below 2^64, a draft is
   * conserved exactly when the fee added for new change outputs fits into the change: no other
   * subtraction can go wrong.
   */
  lemma PlanConservesExactly(config: Config, inputs: seq<Input>, outputs: seq<Output>, given: Option<seq<Script>>,
                             x: XpubId, start: nat)
    requires config.feeUnit.bytes > 0 && InputTotal(inputs) < TWO64
    requires OutputTotal(outputs) + Fee(config, inputs, outputs, 0) < TWO64 && !FallsShort(config, inputs, outputs)
    requires Sane(config, inputs, outputs, given, x, start)
    ensures var p := ChangePlan(config, inputs, outputs, given, x, start);
      var fee := Fee(config, inputs, outputs, 0);
      && fee <= p.fee
      && (Conserved(inputs, p.outputs, p.fee)
          <==> (NeedsDestinations(config, inputs, outputs) ==> p.fee - fee <= Left(inputs, outputs, fee)))
  {
    FeeGrows(config, inputs, outputs,
             NumberOfDestinations(config, Left(inputs, outputs, Fee(config, inputs, outputs, 0))));
    var fee := Fee(config, inputs, outputs, 0);
    PlanConserves(config, inputs, outputs, given, x, start);
    LeftExact(InputTotal(inputs), OutputTotal(outputs), fee);
  }

  lemma FeeGrows(config: Config, inputs: seq<Input>, outputs: seq<Output>, n: nat)
    requires config.feeUnit.bytes > 0
    ensures Fee(config, inputs, outputs, 0) <= Fee(config, inputs, outputs, n * CHANGE_OUTPUT_SIZE)
  {
    var bytes := EstimatedSize(inputs, outputs, config.size);
    FeeMono(config.feeUnit, bytes, bytes + n * CHANGE_OUTPUT_SIZE);
  }

  /** The final check does not notice a change that has wrapped: it refuses only a fee above the inputs. */
  lemma FinalCheckBlind(config: Config, inputs: seq<Input>, outputs: seq<Output>, given: Option<seq<Script>>,
                        x: XpubId, start: nat)
    requires config.feeUnit.bytes > 0 && InputTotal(inputs) < TWO64
    requires Splits(config, NewChangePlan(config, inputs, outputs, given, x, start).destinations.value)
    ensures var p := NewChangePlan(config, inputs, outputs, given, x, start);
      FinalCheck(inputs, p.outputs, p.fee).None? <==> p.fee <= InputTotal(inputs)
  {
    var p := NewChangePlan(config, inputs, outputs, given, x, start);
    assert OutputTotal(p.outputs) == OutputTotal(outputs) + Left(inputs, outputs, p.fee) by {
      NewOutputsTotal(config, p.change, p.destinations.value);
      OutputTotalConcat(outputs, NewOutputs(config, p.change, p.destinations.value));
    }
    CheckWithLeft(inputs, outputs, p.outputs, p.fee);
  }

  lemma FinalCheckReduced(inputs: seq<Input>, all: seq<Output>, fee: nat)
    requires InputTotal(inputs) < TWO64
    ensures FinalCheck(inputs, all, fee).None? <==>
      U64(OutputTotal(all)) <= InputTotal(inputs) && InputTotal(inputs) - U64(OutputTotal(all)) == fee
  {
  }

  lemma CheckWithLeft(inputs: seq<Input>, outputs: seq<Output>, all: seq<Output>, fee: nat)
    requires InputTotal(inputs) < TWO64 && OutputTotal(all) == OutputTotal(outputs) + Left(inputs, outputs, fee)
    ensures FinalCheck(inputs, all, fee).None? <==> fee <= InputTotal(inputs)
  {
    FinalCheckReduced(inputs, all, fee);
    RemaindersMatch(InputTotal(inputs), OutputTotal(outputs), fee, OutputTotal(all));
  }

  lemma RemaindersMatch(inputs: nat, outputs: nat, fee: nat, all: nat)
    requires inputs < TWO64 && all == outputs + U64(inputs - outputs - fee)
    ensures U64(all) <= inputs && inputs - U64(all) == fee <==> fee <= inputs
  {
    Reduce(inputs - outputs - fee, outputs);
    assert U64(all) == U64(inputs - fee);
  }

  /** Sending everything conserves exactly when the other outputs and the fee do not exceed the inputs. */
  lemma SendAllConserves(config: Config, inputs: seq<Input>, outputs: seq<Output>, given: Option<seq<Script>>)
    requires config.feeUnit.bytes > 0 && outputs != [] && outputs[0].scripts != [] && InputTotal(inputs) < TWO64
    requires outputs[0].useForChange && forall i :: 0 < i < |outputs| ==> !outputs[i].useForChange
    ensures var p := SendAllPlan(config, inputs, outputs, given);
      && (Conserved(inputs, p.outputs, p.fee) <==> OutputTotal(outputs[1..]) + p.fee <= InputTotal(inputs))
      && (Conserved(inputs, p.outputs, p.fee) ==> FinalCheck(inputs, p.outputs, p.fee).None?)
  {
    var p := SendAllPlan(config, inputs, outputs, given);
    UnflaggedTotal(outputs);
    var first := [p.outputs[0]];
    assert OutputTotal(first) == p.outputs[0].satoshis by { assert first[..0] == []; }
    OutputTotalConcat(first, outputs[1..]);
    LeftExact(InputTotal(inputs), Unflagged(outputs), p.fee);
    if Conserved(inputs, p.outputs, p.fee) { FinalCheckAccepts(inputs, p.outputs, p.fee); }
  }

  lemma {:induction false} UnflaggedTotal(outputs: seq<Output>)
    requires outputs != [] && outputs[0].useForChange && forall i :: 0 < i < |outputs| ==> !outputs[i].useForChange
    ensures Unflagged(outputs) == OutputTotal(outputs[1..])
  {
    if |outputs| > 1 {
      var n := |outputs| - 1;
      UnflaggedTotal(outputs[..n]);
      assert outputs[..n][1..] == outputs[1..][..n - 1];
    } else {
      assert outputs[..0] == [] && outputs[1..] == [];
    }
  }

  // ----- what the raw transaction carries ------------------------------------------------------------------

  /** All outputs carry their amount in their scripts. */
  predicate AllMatch(outputs: seq<Output>) { forall i :: 0 <= i < |outputs| ==> ScriptsMatch(outputs[i]) }

  function HexTotal(outputs: seq<Output>): nat { TxOutTotal(Flatten(ScriptsOf(outputs))) }

  lemma WithChangeScripts(outputs: seq<Output>, part: nat, remainder: nat)
    ensures ScriptsOf(WithChange(outputs, part, remainder)) == ScriptsOf(outputs)
  {
    var all := WithChange(outputs, part, remainder);
    assert forall i :: 0 <= i < |outputs| ==> all[i] == Changed(outputs, i, part, remainder);
  }

  lemma NewOutputsMatch(config: Config, change: nat, destinations: seq<Script>)
    ensures AllMatch(NewOutputs(config, change, destinations))
  {
    if destinations != [] {
      var n := |destinations|;
      ChangeOutputsTotal(destinations,
                         Split(change, destinations, Shares(change, n, config.strategy, Draws(config, n))));
    }
  }

  /**
   * The raw transaction carries the amounts of the configuration, except that change added to existing
   * outputs never reaches their scripts: there the whole change goes to the miner.
   */
  lemma PlanHex(config: Config, inputs: seq<Input>, outputs: seq<Output>, given: Option<seq<Script>>,
                x: XpubId, start: nat)
    requires config.feeUnit.bytes > 0 && InputTotal(inputs) < TWO64 && AllMatch(outputs)
    requires Sane(config, inputs, outputs, given, x, start)
    ensures var p := ChangePlan(config, inputs, outputs, given, x, start);
      && (Flagged(outputs) == 0 ==> AllMatch(p.outputs) && HexTotal(p.outputs) == OutputTotal(p.outputs))
      && (Flagged(outputs) > 0 ==> HexTotal(p.outputs) == OutputTotal(outputs))
      && (Flagged(outputs) > 0 && OutputTotal(outputs) + p.fee <= InputTotal(inputs) ==>
            InputTotal(inputs) - HexTotal(p.outputs) == p.fee + p.change)
  {
    var p := ChangePlan(config, inputs, outputs, given, x, start);
    FlattenTotal(outputs);
    LeftExact(InputTotal(inputs), OutputTotal(outputs), p.fee);
    if p.outputs != outputs {
      if Flagged(outputs) > 0 {
        WithChangeScripts(outputs, FloorDiv(p.change, Flagged(outputs)), Remainder(p.change, Flagged(outputs)));
      } else {
        NewOutputsMatch(config, p.change, p.destinations.value);
        FlattenTotal(p.outputs);
      }
    }
  }

  /** A send-all output with a single script carries its amount. */
  lemma SendAllHex(config: Config, inputs: seq<Input>, outputs: seq<Output>, given: Option<seq<Script>>)
    requires config.feeUnit.bytes > 0 && outputs != [] && |outputs[0].scripts| == 1 && AllMatch(outputs[1..])
    ensures var p := SendAllPlan(config, inputs, outputs, given);
      AllMatch(p.outputs) && HexTotal(p.outputs) == OutputTotal(p.outputs)
  {
    var p := SendAllPlan(config, inputs, outputs, given);
    forall i | 0 <= i < |p.outputs| ensures ScriptsMatch(p.outputs[i]) {
      if i > 0 { assert p.outputs[i] == outputs[1..][i - 1]; }
      else { assert p.outputs[0].scripts[..0] == []; }
    }
    FlattenTotal(p.outputs);
  }
}
