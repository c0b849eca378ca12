/** The configuration of a draft on values: outputs, sizes, fees, change, and what conserves satoshis. */
module DraftMath {
  import opened Common
  import opened Uint64
  import opened ChangeSplit

  // ----- configuration ---------------------------------------------------------------------------

  /** Where an output goes. A paymail comes with its provider's scripts and the numbers drawn to split over them. */
  datatype Target =
    | Paymail(outs: seq<Script>, draws: seq<nat>)
    | Address(script: Script)
    | OpReturn(script: Script)
    | Custom(script: Script)
    | Unset

  datatype Output = Output(target: Target, satoshis: nat, scripts: seq<TxOut>, useForChange: bool)

  datatype Input = Input(at: Outpoint, satoshis: nat, scriptType: ScriptType)

  datatype FeeUnit = FeeUnit(satoshis: nat, bytes: nat)

  const CHANGE_OUTPUT_SIZE: nat := 35
  const OVERHEAD_SIZE: nat := 8
  const DUST_LIMIT: nat := 1
  const DEFAULT_CHANGE_MINIMUM: nat := 1250
  const PAYMAIL_MINIMUM: nat := 100

  // ----- totals ------------------------------------------------------------------------------------

  function InputTotal(inputs: seq<Input>): nat {
    if inputs == [] then 0 else InputTotal(inputs[..|inputs| - 1]) + inputs[|inputs| - 1].satoshis
  }

  function OutputTotal(outputs: seq<Output>): nat {
    if outputs == [] then 0 else OutputTotal(outputs[..|outputs| - 1]) + outputs[|outputs| - 1].satoshis
  }

  function TxOutTotal(outs: seq<TxOut>): nat {
    if outs == [] then 0 else TxOutTotal(outs[..|outs| - 1]) + outs[|outs| - 1].satoshis
  }

  lemma {:induction false} TxOutTotalConcat(a: seq<TxOut>, b: seq<TxOut>)
    ensures TxOutTotal(a + b) == TxOutTotal(a) + TxOutTotal(b)
  {
    if b == [] {
      assert a + b == a;
    } else {
      assert (a + b)[..|a + b| - 1] == a + b[..|b| - 1];
      TxOutTotalConcat(a, b[..|b| - 1]);
    }
  }

  lemma {:induction false} InputTotalConcat(a: seq<Input>, b: seq<Input>)
    ensures InputTotal(a + b) == InputTotal(a) + InputTotal(b)
  {
    if b == [] {
      assert a + b == a;
    } else {
      assert (a + b)[..|a + b| - 1] == a + b[..|b| - 1];
      InputTotalConcat(a, b[..|b| - 1]);
    }
  }

  lemma {:induction false} OutputTotalConcat(a: seq<Output>, b: seq<Output>)
    ensures OutputTotal(a + b) == OutputTotal(a) + OutputTotal(b)
  {
    if b == [] {
      assert a + b == a;
    } else {
      assert (a + b)[..|a + b| - 1] == a + b[..|b| - 1];
      OutputTotalConcat(a, b[..|b| - 1]);
    }
  }

  // ----- outputs to scripts ----------------------------------------------------------------------------

  function Padded(draws: seq<nat>, n: nat): (padded: seq<nat>)
    ensures |padded| == n
  {
    seq(n, i requires 0 <= i < n => if i < |draws| then draws[i] else 0)
  }

  /** The satoshis split randomly over the scripts, what is left going to the last. */
  function Payments(satoshis: nat, outs: seq<Script>, draws: seq<nat>): (payments: seq<TxOut>)
    requires outs != []
    ensures |payments| == |outs|
  {
    var values := WithRemainder(satoshis, DrawnShares(satoshis, Padded(draws, |outs|)));
    seq(|outs|, i requires 0 <= i < |outs| => TxOut(outs[i], values[i]))
  }

  lemma {:induction false} TotalOfPayments(payments: seq<TxOut>, values: seq<nat>)
    requires |payments| == |values| && forall i :: 0 <= i < |values| ==> payments[i].satoshis == values[i]
    ensures TxOutTotal(payments) == Total(values)
  {
    if values != [] { TotalOfPayments(payments[..|values| - 1], values[..|values| - 1]); }
  }

  /** A provider with up to five scripts is paid what was asked for, whatever is drawn. */
  lemma PaymentsAddUp(satoshis: nat, outs: seq<Script>, draws: seq<nat>)
    requires 0 < |outs| <= 5 && satoshis < TWO64 && forall i :: 0 <= i < |draws| ==> draws[i] <= TWO63
    ensures TxOutTotal(Payments(satoshis, outs, draws)) == satoshis
  {
    var padded := Padded(draws, |outs|);
    RandomUpToFive(satoshis, padded);
    TotalOfPayments(Payments(satoshis, outs, draws), WithRemainder(satoshis, DrawnShares(satoshis, padded)));
  }

  /**
   * The scripts an output resolves to; an output to someone must carry satoshis if that is checked. A
   * provider without scripts makes the split stop with an index out of range.
   */
  function ProcessOutput(o: Output, checkSatoshis: bool): Result<Output, Error> {
    match o.target
    case Paymail(outs, draws) =>
      if checkSatoshis && o.satoshis == 0 then Failure(ErrOutputValueTooLow)
      else if outs == [] then Failure(ErrIndexOutOfRange)
      else
        var satoshis := if o.satoshis == 0 then PAYMAIL_MINIMUM else o.satoshis;
        Success(o.(scripts := o.scripts + Payments(satoshis, outs, draws)))
    case Address(script) =>
      if checkSatoshis && o.satoshis == 0 then Failure(ErrOutputValueTooLow)
      else Success(o.(scripts := o.scripts + [TxOut(script, o.satoshis)]))
    case OpReturn(script) => Success(o.(scripts := o.scripts + [TxOut(script, o.satoshis)]))
    case Custom(script) => Success(o.(scripts := o.scripts + [TxOut(script, o.satoshis)]))
    case Unset => Failure(ErrOutputValueNotRecognized)
  }

  function WithFlag(o: Output, keepChange: bool): Output {
    if keepChange then o else o.(useForChange := false)
  }

  /** Processes the outputs in order up to the first error; `keepChange` leaves the change flags alone. */
  function ProcessOutputs(outputs: seq<Output>, keepChange: bool): Result<seq<Output>, Error> {
    if outputs == [] then Success([]) else
      var before := ProcessOutputs(outputs[..|outputs| - 1], keepChange);
      if before.Failure? then before else
        var last := outputs[|outputs| - 1];
        var r := ProcessOutput(WithFlag(last, keepChange), true);
        if r.Failure? then Failure(r.error) else Success(before.value + [r.value])
  }

  /** A paymail output for which the random split adds up. */
  predicate ProviderSplits(o: Output) {
    o.target.Paymail? ==>
      |o.target.outs| <= 5 && o.satoshis < TWO64
      && forall i :: 0 <= i < |o.target.draws| ==> o.target.draws[i] <= TWO63
  }

  /** The scripts of an output carry its satoshis. */
  predicate ScriptsMatch(o: Output) { TxOutTotal(o.scripts) == o.satoshis }

  lemma ProcessOutputMatches(o: Output, checkSatoshis: bool)
    requires ProcessOutput(o, checkSatoshis).Success?
    ensures var done := ProcessOutput(o, checkSatoshis).value;
      && done.satoshis == o.satoshis && done.target == o.target && done.useForChange == o.useForChange
      && done.scripts != []
      && (o.scripts == [] && ProviderSplits(o) && (checkSatoshis || !o.target.Paymail?) ==> ScriptsMatch(done))
  {
    var done := ProcessOutput(o, checkSatoshis).value;
    if o.scripts == [] && !o.target.Paymail? {
      assert done.scripts == [TxOut(o.target.script, o.satoshis)];
    } else if o.scripts == [] && ProviderSplits(o) && checkSatoshis {
      PaymentsAddUp(o.satoshis, o.target.outs, o.target.draws);
      assert done.scripts == Payments(o.satoshis, o.target.outs, o.target.draws);
    }
  }

  lemma {:induction false} ProcessOutputsEach(outputs: seq<Output>, keepChange: bool)
    requires ProcessOutputs(outputs, keepChange).Success?
    ensures |ProcessOutputs(outputs, keepChange).value| == |outputs|
    ensures forall i :: 0 <= i < |outputs| ==>
      ProcessOutput(WithFlag(outputs[i], keepChange), true) == Success(ProcessOutputs(outputs, keepChange).value[i])
  {
    if outputs != [] {
      var n := |outputs| - 1;
      ProcessOutputsEach(outputs[..n], keepChange);
      assert forall i :: 0 <= i < n ==> outputs[..n][i] == outputs[i];
    }
  }

  lemma {:induction false} SameAmounts(outputs: seq<Output>, outputs': seq<Output>)
    requires |outputs| == |outputs'|
    requires forall i :: 0 <= i < |outputs| ==> outputs[i].satoshis == outputs'[i].satoshis
    ensures OutputTotal(outputs) == OutputTotal(outputs')
  {
    if outputs != [] { SameAmounts(outputs[..|outputs| - 1], outputs'[..|outputs'| - 1]); }
  }

  /** Processing keeps the amounts, and gives every output scripts that carry its amount. */
  lemma ProcessOutputsMatch(outputs: seq<Output>, keepChange: bool)
    requires ProcessOutputs(outputs, keepChange).Success?
    ensures var done := ProcessOutputs(outputs, keepChange).value;
      && |done| == |outputs| && OutputTotal(done) == OutputTotal(outputs)
      && (forall i :: 0 <= i < |outputs| ==> done[i].useForChange == (keepChange && outputs[i].useForChange))
      && (forall i :: 0 <= i < |outputs| && outputs[i].scripts == [] && ProviderSplits(outputs[i]) ==>
          ScriptsMatch(done[i]))
  {
    var done := ProcessOutputs(outputs, keepChange).value;
    ProcessOutputsEach(outputs, keepChange);
    forall i | 0 <= i < |outputs|
      ensures done[i].satoshis == outputs[i].satoshis && done[i].useForChange == (keepChange && outputs[i].useForChange)
      ensures outputs[i].scripts == [] && ProviderSplits(outputs[i]) ==> ScriptsMatch(done[i])
    {
      ProcessOutputMatches(WithFlag(outputs[i], keepChange), true);
    }
    SameAmounts(done, outputs);
  }

  // ----- the outputs of the raw transaction --------------------------------------------------------------

  function ScriptsOf(outputs: seq<Output>): seq<seq<TxOut>> {
    seq(|outputs|, i requires 0 <= i < |outputs| => outputs[i].scripts)
  }

  function Flatten(groups: seq<seq<TxOut>>): seq<TxOut> {
    if groups == [] then [] else Flatten(groups[..|groups| - 1]) + groups[|groups| - 1]
  }

  /** What the transaction refuses to carry: satoshis on data, none on a public key hash. */
  function ScriptError(out: TxOut): Option<Error> {
    if out.script.Type() == NullData && out.satoshis > 0 then Some(ErrInvalidOpReturnOutput)
    else if out.script.Type() == PubKeyHash && out.satoshis == 0 then Some(ErrOutputValueTooLow)
    else None
  }

  /** The error of the first raw output that is refused. */
  function HexError(outs: seq<TxOut>): Option<Error> {
    if outs == [] then None else
      var n := |outs| - 1;
      var before := HexError(outs[..n]);
      if before.Some? then before else ScriptError(outs[n])
  }

  lemma {:induction false} HexErrorKinds(outs: seq<TxOut>)
    ensures HexError(outs) in {None, Some(ErrInvalidOpReturnOutput), Some(ErrOutputValueTooLow)}
  {
    if outs != [] { HexErrorKinds(outs[..|outs| - 1]); }
  }

  lemma {:induction false} HexErrorConcat(a: seq<TxOut>, b: seq<TxOut>)
    ensures HexError(a + b) == if HexError(a).Some? then HexError(a) else HexError(b)
  {
    if b == [] {
      assert a + b == a;
    } else {
      assert (a + b)[..|a + b| - 1] == a + b[..|b| - 1];
      HexErrorConcat(a, b[..|b| - 1]);
    }
  }

  /** The first groups decide, if they are refused. */
  lemma {:induction false} HexErrorStops(groups: seq<seq<TxOut>>, n: nat)
    requires n <= |groups| && HexError(Flatten(groups[..n])).Some?
    ensures HexError(Flatten(groups)) == HexError(Flatten(groups[..n]))
    decreases |groups|
  {
    if n < |groups| {
      var m := |groups| - 1;
      assert groups[..m][..n] == groups[..n];
      HexErrorStops(groups[..m], n);
      HexErrorConcat(Flatten(groups[..m]), groups[m]);
    } else {
      assert groups[..n] == groups;
    }
  }

  /** The raw outputs carry the satoshis of the configuration, less what its scripts do not show. */
  lemma {:induction false} FlattenTotal(outputs: seq<Output>)
    requires forall i :: 0 <= i < |outputs| ==> ScriptsMatch(outputs[i])
    ensures TxOutTotal(Flatten(ScriptsOf(outputs))) == OutputTotal(outputs)
  {
    if outputs != [] {
      var n := |outputs| - 1;
      FlattenTotal(outputs[..n]);
      assert ScriptsOf(outputs)[..n] == ScriptsOf(outputs[..n]);
      TxOutTotalConcat(Flatten(ScriptsOf(outputs[..n])), outputs[n].scripts);
    }
  }

  // ----- sizes and fees ------------------------------------------------------------------------------------

  /** Bytes of a variable length integer. */
  function VarIntLength(n: nat): nat {
    if n < 0xFD then 1 else if n < 0x1_0000 then 3 else if n < 0x1_0000_0000 then 5 else 9
  }

  function InputSize(scriptType: ScriptType): nat { if scriptType == PubKeyHash then 148 else 500 }

  function InputSizes(inputs: seq<Input>): nat {
    if inputs == [] then 0 else InputSizes(inputs[..|inputs| - 1]) + InputSize(inputs[|inputs| - 1].scriptType)
  }

  function ScriptSizes(outs: seq<TxOut>, size: Script -> nat): nat {
    if outs == [] then 0 else ScriptSizes(outs[..|outs| - 1], size) + size(outs[|outs| - 1].script)
  }

  function OutputSizes(outputs: seq<Output>, size: Script -> nat): nat {
    if outputs == [] then 0 else
      OutputSizes(outputs[..|outputs| - 1], size) + ScriptSizes(outputs[|outputs| - 1].scripts, size)
  }

  function EstimatedSize(inputs: seq<Input>, outputs: seq<Output>, size: Script -> nat): nat {
    OVERHEAD_SIZE + VarIntLength(|inputs|) + InputSizes(inputs) + VarIntLength(|outputs|) + OutputSizes(outputs, size)
  }

  function FeeFor(unit: FeeUnit, size: nat): nat
    requires unit.bytes > 0
  {
    CeilDiv(size * unit.satoshis, unit.bytes)
  }

  /** r is the least fee that pays for the bytes at the rate of the unit. */
  ghost predicate LeastFee(unit: FeeUnit, size: nat, r: nat) {
    r * unit.bytes >= size * unit.satoshis && forall q: nat :: q * unit.bytes >= size * unit.satoshis ==> r <= q
  }

  lemma FeeIsLeast(unit: FeeUnit, size: nat)
    requires unit.bytes > 0
    ensures LeastFee(unit, size, FeeFor(unit, size))
  {
    var a := size * unit.satoshis;
    CeilDivBounds(a, unit.bytes);
    forall q: nat | q * unit.bytes >= a ensures FeeFor(unit, size) <= q { CeilDivLeast(a, unit.bytes, q); }
  }

  /** Inputs paid to public key hashes are estimated at 148 bytes, all others at 500. */
  lemma {:induction false} InputSizesExact(inputs: seq<Input>)
    ensures (forall i :: 0 <= i < |inputs| ==> inputs[i].scriptType == PubKeyHash) ==>
      InputSizes(inputs) == 148 * |inputs|
    ensures (forall i :: 0 <= i < |inputs| ==> inputs[i].scriptType != PubKeyHash) ==>
      InputSizes(inputs) == 500 * |inputs|
  {
    if inputs != [] { InputSizesExact(inputs[..|inputs| - 1]); }
  }

  lemma FeeMono(unit: FeeUnit, size: nat, size': nat)
    requires unit.bytes > 0 && size <= size'
    ensures FeeFor(unit, size) <= FeeFor(unit, size')
  {
    assert size * unit.satoshis <= size' * unit.satoshis;
    CeilDivMono(size * unit.satoshis, size' * unit.satoshis, unit.bytes);
  }

  lemma FeeSum(unit: FeeUnit, size: nat, size': nat)
    requires unit.bytes > 0
    ensures FeeFor(unit, size + size') <= FeeFor(unit, size) + FeeFor(unit, size')
  {
    assert (size + size') * unit.satoshis == size * unit.satoshis + size' * unit.satoshis;
    CeilDivSum(size * unit.satoshis, size' * unit.satoshis, unit.bytes);
  }

  lemma {:induction false} InputSizesPubKeyHash(inputs: seq<Input>)
    requires forall i :: 0 <= i < |inputs| ==> inputs[i].scriptType == PubKeyHash
    ensures InputSizes(inputs) == |inputs| * InputSize(PubKeyHash)
  {
    if inputs != [] { InputSizesPubKeyHash(inputs[..|inputs| - 1]); }
  }

  lemma FeeTimes(unit: FeeUnit, k: nat, size: nat)
    requires unit.bytes > 0
    ensures FeeFor(unit, k * size) <= k * FeeFor(unit, size)
  {
    MulAssoc(k, size, unit.satoshis);
    CeilDivTimes(k, size * unit.satoshis, unit.bytes);
  }

  lemma FeeOfInputs(unit: FeeUnit, before: nat, k: nat, inputSize: nat, extra: nat)
    requires unit.bytes > 0
    ensures FeeFor(unit, before + k * inputSize + extra)
         <= FeeFor(unit, before) + k * FeeFor(unit, inputSize) + FeeFor(unit, extra)
  {
    var inputs := k * inputSize;
    FeeSum(unit, before + inputs, extra);
    FeeSum(unit, before, inputs);
    FeeTimes(unit, k, inputSize);
  }

  lemma SizeWithInputs(inputs: seq<Input>, outputs: seq<Output>, size: Script -> nat)
    requires forall i :: 0 <= i < |inputs| ==> inputs[i].scriptType == PubKeyHash
    ensures EstimatedSize(inputs, outputs, size)
         == EstimatedSize([], outputs, size) + |inputs| * InputSize(PubKeyHash) + (VarIntLength(|inputs|) - 1)
  {
    InputSizesPubKeyHash(inputs);
  }

  /**
   * The fee asked for after the reservation is covered by the fee estimated before it plus one input
   * fee for each input, up to the fee for the extra bytes of the input count.
   */
  lemma ReservationCoversFee(unit: FeeUnit, inputs: seq<Input>, outputs: seq<Output>, size: Script -> nat)
    requires unit.bytes > 0
    requires forall i :: 0 <= i < |inputs| ==> inputs[i].scriptType == PubKeyHash
    ensures
      var covered := FeeFor(unit, EstimatedSize([], outputs, size)) + |inputs| * FeeFor(unit, InputSize(PubKeyHash));
      && FeeFor(unit, EstimatedSize(inputs, outputs, size)) <= covered + FeeFor(unit, VarIntLength(|inputs|) - 1)
      && (|inputs| < 253 ==> FeeFor(unit, EstimatedSize(inputs, outputs, size)) <= covered)
  {
    SizeWithInputs(inputs, outputs, size);
    FeeOfInputs(unit, EstimatedSize([], outputs, size), |inputs|, InputSize(PubKeyHash), VarIntLength(|inputs|) - 1);
    CeilDivLeast(0, unit.bytes, 0);
  }

  // ----- change ------------------------------------------------------------------------------------------------

  function Flagged(outputs: seq<Output>): nat {
    if outputs == [] then 0 else
      Flagged(outputs[..|outputs| - 1]) + if outputs[|outputs| - 1].useForChange then 1 else 0
  }

  function AddTo(o: Output, amount: nat): Output { o.(satoshis := U64(o.satoshis + amount)) }

  /** An output flagged for change takes its part, and the first such output the remainder too. */
  function Changed(outputs: seq<Output>, i: nat, part: nat, remainder: nat): Output
    requires i < |outputs|
  {
    if !outputs[i].useForChange then outputs[i]
    else AddTo(outputs[i], part + if Flagged(outputs[..i]) == 0 then remainder else 0)
  }

  function WithChange(outputs: seq<Output>, part: nat, remainder: nat): (changed: seq<Output>)
    ensures |changed| == |outputs|
  {
    seq(|outputs|, i requires 0 <= i < |outputs| => Changed(outputs, i, part, remainder))
  }

  lemma WithChangePrefix(outputs: seq<Output>, n: nat, part: nat, remainder: nat)
    requires n < |outputs|
    ensures WithChange(outputs, part, remainder)[..n] == WithChange(outputs[..n], part, remainder)
  {
    forall i | 0 <= i < n ensures Changed(outputs, i, part, remainder) == Changed(outputs[..n], i, part, remainder) {
      assert outputs[..n][..i] == outputs[..i];
    }
  }

  lemma {:induction false} WithChangeTotal(outputs: seq<Output>, part: nat, remainder: nat)
    requires OutputTotal(outputs) + Flagged(outputs) * part + remainder < TWO64
    ensures OutputTotal(WithChange(outputs, part, remainder))
         == OutputTotal(outputs) + Flagged(outputs) * part + if Flagged(outputs) > 0 then remainder else 0
  {
    if outputs != [] {
      var n := |outputs| - 1;
      var f := Flagged(outputs[..n]);
      assert (f + 1) * part == f * part + part;
      WithChangeTotal(outputs[..n], part, remainder);
      WithChangePrefix(outputs, n, part, remainder);
    }
  }

  /** One new output for each change destination. */
  function ChangeOutputs(destinations: seq<Script>, shares: seq<nat>): seq<Output>
    requires |destinations| == |shares|
  {
    if destinations == [] then [] else
      var n := |destinations| - 1;
      ChangeOutputs(destinations[..n], shares[..n])
      + [Output(Address(destinations[n]), shares[n], [TxOut(destinations[n], shares[n])], false)]
  }

  lemma {:induction false} ChangeOutputsTotal(destinations: seq<Script>, shares: seq<nat>)
    requires |destinations| == |shares|
    ensures OutputTotal(ChangeOutputs(destinations, shares)) == Total(shares)
    ensures forall i :: 0 <= i < |ChangeOutputs(destinations, shares)| ==>
      ScriptsMatch(ChangeOutputs(destinations, shares)[i])
  {
    if destinations != [] {
      var n := |destinations| - 1;
      ChangeOutputsTotal(destinations[..n], shares[..n]);
      var all := ChangeOutputs(destinations, shares);
      assert all[..|all| - 1] == ChangeOutputs(destinations[..n], shares[..n]);
      assert TxOutTotal([TxOut(destinations[n], shares[n])]) == shares[n];
    }
  }

  // ----- conservation ------------------------------------------------------------------------------------------

  ghost predicate Conserved(inputs: seq<Input>, outputs: seq<Output>, fee: nat) {
    InputTotal(inputs) == OutputTotal(outputs) + fee
  }

  /** The final check, in 64-bit arithmetic. */
  function FinalCheck(inputs: seq<Input>, outputs: seq<Output>, fee: nat): Option<Error> {
    var inputValue := U64(InputTotal(inputs));
    var outputValue := U64(OutputTotal(outputs));
    if inputValue < outputValue then Some(ErrOutputValueTooHigh)
    else if inputValue - outputValue != fee then Some(ErrTransactionFeeInvalid)
    else None
  }

  /** The check passes on what is conserved, but it only compares remainders: wrapped values can pass too. */
  lemma FinalCheckAccepts(inputs: seq<Input>, outputs: seq<Output>, fee: nat)
    requires InputTotal(inputs) < TWO64 && fee < TWO64
    ensures Conserved(inputs, outputs, fee) ==> FinalCheck(inputs, outputs, fee).None?
    ensures FinalCheck(inputs, outputs, fee).None? <==>
      fee <= InputTotal(inputs) && U64(OutputTotal(outputs)) == InputTotal(inputs) - fee
    ensures OutputTotal(outputs) < TWO64 ==>
      (FinalCheck(inputs, outputs, fee).None? <==> Conserved(inputs, outputs, fee))
  {
  }
}
