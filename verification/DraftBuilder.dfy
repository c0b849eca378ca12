/** Building a draft: resolve the outputs, reserve UTXOs, set fee and change, check, and save. */
module DraftBuilder {
  import opened Common
  import opened Sums
  import opened Uint64
  import opened Ledger
  import opened LedgerInvariant
  import opened LedgerUndo
  import opened UtxoTable
  import opened ChangeSplit
  import opened DraftMath
  import opened DraftPaths
  import opened DraftResult
  import opened DraftPayees
  import Engine

  // ----- the builder -----------------------------------------------------------------------------------------

  class DraftTransaction {
    const engine: Engine.Engine
    const id: DraftId
    const xpub: XpubId
    const expiresAt: int
    const config: Config
    const sendAllTo: Option<Output>
    /** UTXOs to spend, where they are named, and UTXOs to put among the inputs in any case. */
    const fromUtxos: Option<seq<Outpoint>>
    const includeUtxos: seq<Outpoint>

    var inputs: seq<Input>
    var outputs: seq<Output>
    var changeDestinations: Option<seq<Script>>
    var changeSatoshis: nat
    var fee: nat
    /** The inputs and outputs of the raw transaction. */
    var hexInputs: seq<Outpoint>
    var hex: seq<TxOut>

    constructor (engine: Engine.Engine, id: DraftId, xpub: XpubId, expiresAt: int, config: Config,
                 outputs: seq<Output>, sendAllTo: Option<Output>, changeDestinations: Option<seq<Script>>,
                 fromUtxos: Option<seq<Outpoint>>, includeUtxos: seq<Outpoint>)
      ensures this.engine == engine && this.id == id && this.xpub == xpub && this.expiresAt == expiresAt
      ensures this.config == config && this.sendAllTo == sendAllTo
      ensures this.outputs == outputs && this.changeDestinations == changeDestinations
      ensures this.fromUtxos == fromUtxos && this.includeUtxos == includeUtxos
      ensures inputs == [] && changeSatoshis == 0 && fee == 0 && hexInputs == [] && hex == []
    {
      this.engine, this.id, this.xpub, this.expiresAt := engine, id, xpub, expiresAt;
      this.config, this.sendAllTo := config, sendAllTo;
      this.outputs, this.changeDestinations := outputs, changeDestinations;
      this.fromUtxos, this.includeUtxos := fromUtxos, includeUtxos;
      inputs, changeSatoshis, fee, hexInputs, hex := [], 0, 0, [], [];
    }

    // ----- sizes, fees and totals ---------------------------------------------------------------------

    method GetTotalSatoshis() returns (satoshis: nat)
      ensures satoshis == U64(OutputTotal(outputs))
    {
      satoshis := 0;
      var i := 0;
      assert outputs[..0] == [];
      while i < |outputs|
        invariant 0 <= i <= |outputs| && satoshis == U64(OutputTotal(outputs[..i]))
      {
        assert outputs[..i + 1][..i] == outputs[..i];
        Reduce(OutputTotal(outputs[..i]), outputs[i].satoshis);
        satoshis := U64(satoshis + outputs[i].satoshis);
        i := i + 1;
      }
      assert outputs[..i] == outputs;
    }

    method EstimateSize() returns (bytes: nat)
      ensures bytes == EstimatedSize(inputs, outputs, config.size)
      ensures (forall i :: 0 <= i < |inputs| ==> inputs[i].scriptType == PubKeyHash) ==>
        bytes == 8 + VarIntLength(|inputs|) + 148 * |inputs|
                 + VarIntLength(|outputs|) + OutputSizes(outputs, config.size)
    {
      InputSizesExact(inputs);
      bytes := OVERHEAD_SIZE + VarIntLength(|inputs|);
      var i := 0;
      assert inputs[..0] == [];
      while i < |inputs|
        invariant 0 <= i <= |inputs|
        invariant bytes == OVERHEAD_SIZE + VarIntLength(|inputs|) + InputSizes(inputs[..i])
      {
        assert inputs[..i + 1][..i] == inputs[..i];
        bytes := bytes + InputSize(inputs[i].scriptType);
        i := i + 1;
      }
      assert inputs[..i] == inputs;
      ghost var before := bytes;
      bytes := bytes + VarIntLength(|outputs|);
      i := 0;
      assert outputs[..0] == [];
      while i < |outputs|
        invariant 0 <= i <= |outputs|
        invariant bytes == before + VarIntLength(|outputs|) + OutputSizes(outputs[..i], config.size)
      {
        assert outputs[..i + 1][..i] == outputs[..i];
        var scripts := outputs[i].scripts;
        var j := 0;
        assert scripts[..0] == [];
        while j < |scripts|
          invariant 0 <= j <= |scripts|
          invariant bytes == before + VarIntLength(|outputs|) + OutputSizes(outputs[..i], config.size)
                             + ScriptSizes(scripts[..j], config.size)
        {
          assert scripts[..j + 1][..j] == scripts[..j];
          bytes := bytes + config.size(scripts[j].script);
          j := j + 1;
        }
        assert scripts[..j] == scripts;
        i := i + 1;
      }
      assert outputs[..i] == outputs;
    }

    method EstimateFee(addToSize: nat) returns (r: nat)
      requires config.feeUnit.bytes > 0
      ensures r == Fee(config, inputs, outputs, addToSize)
      ensures LeastFee(config.feeUnit, EstimatedSize(inputs, outputs, config.size) + addToSize, r)
    {
      FeeIsLeast(config.feeUnit, EstimatedSize(inputs, outputs, config.size) + addToSize);
      var bytes := EstimateSize();
      r := FeeFor(config.feeUnit, bytes + addToSize);
    }

    // ----- outputs ----------------------------------------------------------------------------------------

    /** Resolves the outputs one by one, up to the first that cannot be resolved. */
    method ProcessEach(list: seq<Output>, keepChange: bool) returns (r: Result<seq<Output>, Error>)
      ensures r == ProcessOutputs(list, keepChange)
    {
      var done: seq<Output> := [];
      var i := 0;
      assert list[..0] == [];
      while i < |list|
        invariant 0 <= i <= |list| && ProcessOutputs(list[..i], keepChange) == Success(done)
      {
        assert list[..i + 1][..i] == list[..i];
        var o := ProcessOutput(WithFlag(list[i], keepChange), true);
        if o.Failure? {
          ProcessStops(list, keepChange, i + 1);
          return Failure(o.error);
        }
        done := done + [o.value];
        i := i + 1;
      }
      assert list[..i] == list;
      r := Success(done);
    }

    /** What has been resolved is what was asked for. */
    method ProcessAll(list: seq<Output>, keepChange: bool) returns (r: Result<seq<Output>, Error>)
      ensures r == ProcessOutputs(list, keepChange)
      ensures ResolveAnswer(list, if r.Failure? then Some(r.error) else None)
      ensures r.Success? ==> AskedEach(list, ScriptsOf(r.value))
    {
      ResolveAnswers(list, keepChange);
      r := ProcessEach(list, keepChange);
      if r.Success? { AllAsked(list, keepChange); }
    }

    /** With a send-all target, that output comes first, empty, and alone is used for change. */
    method ProcessConfigOutputs() returns (err: Option<Error>)
      modifies this`outputs
      ensures match Resolved(old(outputs), sendAllTo)
              case Failure(e) => err == Some(e)
              case Success(done) => err.None? && outputs == done
      ensures sendAllTo.None? ==>
        ResolveAnswer(old(outputs), err) && (err.None? ==> AskedEach(old(outputs), ScriptsOf(outputs)))
    {
      if sendAllTo.Some? {
        var first := ProcessOutput(sendAllTo.value.(useForChange := true, satoshis := 0), false);
        if first.Failure? { return Some(first.error); }
        var others := ProcessAll(outputs, false);
        if others.Failure? { return Some(others.error); }
        outputs := [first.value] + others.value;
      } else {
        var all := ProcessAll(outputs, true);
        if all.Failure? { return Some(all.error); }
        outputs := all.value;
      }
      err := None;
    }

    method ContainsOpReturn() returns (found: bool)
      ensures found == CarriesData(outputs)
    {
      var i := 0;
      while i < |outputs|
        invariant 0 <= i <= |outputs| && forall j :: 0 <= j < i ==> !outputs[j].target.OpReturn?
      {
        if outputs[i].target.OpReturn? { return true; }
        i := i + 1;
      }
      found := false;
    }

    /** Writes the scripts of one output to the raw transaction, up to the first that is refused. */
    method AddScripts(scripts: seq<TxOut>) returns (err: Option<Error>)
      modifies this`hex
      ensures err == HexError(scripts)
      ensures err.None? ==> hex == old(hex) + scripts
    {
      var j := 0;
      assert scripts[..0] == [];
      while j < |scripts|
        invariant 0 <= j <= |scripts| && hex == old(hex) + scripts[..j] && HexError(scripts[..j]).None?
      {
        assert scripts[..j + 1][..j] == scripts[..j];
        var refused := ScriptError(scripts[j]);
        if refused.Some? {
          assert scripts == scripts[..j + 1] + scripts[j + 1..];
          HexErrorConcat(scripts[..j + 1], scripts[j + 1..]);
          return refused;
        }
        hex := hex + [scripts[j]];
        j := j + 1;
      }
      assert scripts[..j] == scripts;
      err := None;
    }

    /** Writes the scripts of one output after the other. */
    method AddEach() returns (err: Option<Error>)
      modifies this`hex
      ensures err == HexError(Flatten(ScriptsOf(outputs)))
      ensures err.None? ==> hex == Flatten(ScriptsOf(outputs))
    {
      hex := [];
      var i := 0;
      ghost var groups := ScriptsOf(outputs);
      assert groups[..0] == [];
      while i < |outputs|
        invariant 0 <= i <= |outputs| && hex == Flatten(groups[..i]) && HexError(hex).None?
      {
        assert groups[..i + 1][..i] == groups[..i];
        HexErrorConcat(hex, outputs[i].scripts);
        err := AddScripts(outputs[i].scripts);
        if err.Some? {
          HexErrorStops(groups, i + 1);
          return;
        }
        i := i + 1;
      }
      assert groups[..i] == groups;
      err := None;
    }

    /** Writes the scripts of all outputs to the raw transaction. */
    method AddOutputsToTx() returns (err: Option<Error>)
      modifies this`hex
      ensures err == HexError(Flatten(ScriptsOf(outputs)))
      ensures err.None? ==> hex == Flatten(ScriptsOf(outputs))
      ensures CarryAnswer(Flatten(ScriptsOf(outputs)), err) && (err.None? ==> LaidOut(hex, ScriptsOf(outputs)))
    {
      CarryAnswers(Flatten(ScriptsOf(outputs)));
      HexLaidOut(ScriptsOf(outputs));
      err := AddEach();
    }

    /** The check before the draft is kept: no input twice, and inputs minus outputs are the fee. */
    method ValidateOutputsInputs() returns (err: Option<Error>)
      ensures err == if !Distinct(OutpointsOf(inputs)) then Some(ErrDuplicateUTXOs)
        else FinalCheck(inputs, outputs, fee)
      ensures err.None? <==>
        && (forall i, j :: 0 <= i < j < |inputs| ==> inputs[i].at != inputs[j].at)
        && U64(OutputTotal(outputs)) + fee == U64(InputTotal(inputs))
    {
      InputsDistinct(inputs);
      var repeated := HasRepeated(OutpointsOf(inputs));
      if repeated { return Some(ErrDuplicateUTXOs); }
      var inputValue := 0;
      var i := 0;
      assert inputs[..0] == [];
      while i < |inputs|
        invariant 0 <= i <= |inputs| && inputValue == U64(InputTotal(inputs[..i]))
      {
        assert inputs[..i + 1][..i] == inputs[..i];
        Reduce(InputTotal(inputs[..i]), inputs[i].satoshis);
        inputValue := U64(inputValue + inputs[i].satoshis);
        i := i + 1;
      }
      assert inputs[..i] == inputs;
      var outputValue := GetTotalSatoshis();
      if inputValue < outputValue { return Some(ErrOutputValueTooHigh); }
      if inputValue - outputValue != fee { return Some(ErrTransactionFeeInvalid); }
      err := None;
    }

    // ----- reservation ---------------------------------------------------------------------------------

    /** Adds UTXOs to the inputs and adds up their satoshis. */
    method AddInputs(picked: seq<Outpoint>) returns (satoshis: nat)
      requires Known(engine.utxos.rows, picked)
      modifies this`inputs
      ensures var added := InputsOf(engine.utxos.rows, picked);
        inputs == old(inputs) + added && satoshis == U64(InputTotal(added))
    {
      satoshis := 0;
      ghost var added: seq<Input> := [];
      var i := 0;
      while i < |picked|
        invariant 0 <= i <= |picked| && added == InputsOf(engine.utxos.rows, picked[..i])
        invariant inputs == old(inputs) + added && satoshis == U64(InputTotal(added))
      {
        var u := engine.utxos.rows[picked[i]];
        var input := Input(picked[i], u.satoshis, u.scriptType);
        InputsOfNext(engine.utxos.rows, picked, i);
        InputTotalNext(added, input);
        satoshis := U64(satoshis + u.satoshis);
        inputs := inputs + [input];
        added := added + [input];
        i := i + 1;
      }
      assert picked[..i] == picked;
    }

    /** UTXOs that the configuration wants among the inputs: they must exist, and are not reserved. */
    method AddIncludeUtxos() returns (satoshis: nat, err: Option<Error>)
      requires inputs == []
      modifies this`inputs
      ensures !Known(engine.utxos.rows, includeUtxos) ==> err == Some(ErrCouldNotFindUtxo) && inputs == []
      ensures Known(engine.utxos.rows, includeUtxos) ==>
        err.None? && inputs == InputsOf(engine.utxos.rows, includeUtxos) && satoshis == U64(InputTotal(inputs))
    {
      satoshis := 0;
      var i := 0;
      while i < |includeUtxos|
        invariant 0 <= i <= |includeUtxos| && forall j :: 0 <= j < i ==> includeUtxos[j] in engine.utxos.rows
      {
        if includeUtxos[i] !in engine.utxos.rows { return 0, Some(ErrCouldNotFindUtxo); }
        i := i + 1;
      }
      satoshis := AddInputs(includeUtxos);
      err := None;
    }

    /** Turns what has just been reserved into inputs of the configuration and of the raw transaction. */
    method TakeInputs(picked: seq<Outpoint>, ghost rows: map<Outpoint, Utxo>) returns (reserved: nat)
      requires Known(rows, picked) && engine.utxos.rows == Reserved(rows, Elements(picked), id)
      modifies this`inputs, this`hexInputs
      ensures inputs == old(inputs) + InputsOf(rows, picked) && hexInputs == picked
      ensures reserved == U64(InputTotal(InputsOf(rows, picked)))
    {
      InputsOfReserved(rows, picked, id);
      hexInputs := picked;
      reserved := AddInputs(picked);
    }

    /** Adds what has been reserved to the inputs that are there already. */
    method TakeAll(picked: seq<Outpoint>, included: nat, ghost rows: map<Outpoint, Utxo>) returns (reserved: nat)
      requires Known(rows, includeUtxos) && inputs == InputsOf(rows, includeUtxos)
        && included == U64(InputTotal(inputs))
      requires Known(rows, picked) && engine.utxos.rows == Reserved(rows, Elements(picked), id)
      modifies this`inputs, this`hexInputs
      ensures HasTaken(rows, picked, reserved)
    {
      var satoshis := TakeInputs(picked, rows);
      reserved := U64(included + satoshis);
      ReservedTotal(rows, includeUtxos, picked, included, satoshis);
    }

    /** Reserves the requested satoshis plus one input fee for each UTXO, and adds the inputs. */
    method ReserveRequest(request: nat, inputFee: nat, included: nat)
      returns (reserved: nat, ghost r: Result<seq<Outpoint>, Error>, ghost picked: seq<Outpoint>, err: Option<Error>)
      requires engine.Sound() && FreshDraft(engine.Contents(), id)
      requires Known(engine.utxos.rows, includeUtxos) && inputs == InputsOf(engine.utxos.rows, includeUtxos)
      requires included == U64(InputTotal(inputs))
      modifies this`inputs, this`hexInputs, engine.utxos
      ensures engine.Sound() && engine.Contents() == old(engine.Contents()).(utxos := engine.utxos.rows)
      ensures Requested(old(Start()), request, inputFee, engine.utxos.rows, r, picked, inputs, hexInputs, reserved, err)
    {
      ghost var rows, list := engine.utxos.rows, SpendableIn(engine.utxos.order, engine.utxos.rows, xpub);
      reserved := 0;
      var answer;
      answer, picked := engine.ReserveUtxos(xpub, id, request, inputFee, fromUtxos);
      r := answer;
      if answer.Failure? { return reserved, r, picked, Some(answer.error); }
      ReservationKnown(rows, engine.utxos.rows, list, xpub, id, request, inputFee, fromUtxos, r, picked);
      reserved := TakeAll(answer.value, included, rows);
      err := None;
    }

    /** The inputs are the included and the picked UTXOs, worth what is reserved. */
    ghost predicate HasTaken(rows: map<Outpoint, Utxo>, picked: seq<Outpoint>, reserved: nat)
      reads this
    {
      && Known(rows, includeUtxos + picked) && inputs == InputsOf(rows, includeUtxos + picked)
      && hexInputs == picked && reserved == U64(InputTotal(inputs))
    }

    /** What to ask for, and whether to ask at all. */
    method RequestAndInputFee(needed: nat) returns (request: nat, inputFee: nat, skips: bool)
      requires config.feeUnit.bytes > 0 && needed == U64(OutputTotal(outputs))
      ensures request == Request(config, inputs, outputs) && inputFee == FeeFor(config.feeUnit, InputSize(PubKeyHash))
      ensures skips == Skips(config, inputs, outputs)
      ensures skips <==> request <= 1 && forall i :: 0 <= i < |outputs| ==> !outputs[i].target.OpReturn?
    {
      var fee0 := EstimateFee(0);
      request := U64(needed + fee0);
      inputFee := FeeFor(config.feeUnit, InputSize(PubKeyHash));
      var hasData := ContainsOpReturn();
      skips := request <= DUST_LIMIT && !hasData;
    }

    /** Reserves enough for the outputs, the fee estimated so far, and the fee of each input. */
    method PrepareSeparateUtxos(needed: nat)
      returns (reserved: nat, ghost r: Result<seq<Outpoint>, Error>, ghost picked: seq<Outpoint>, err: Option<Error>)
      requires engine.Sound() && FreshDraft(engine.Contents(), id) && config.feeUnit.bytes > 0
      requires inputs == [] && hexInputs == [] && needed == U64(OutputTotal(outputs))
      modifies this`inputs, this`hexInputs, engine.utxos
      ensures engine.Sound() && engine.Contents() == old(engine.Contents()).(utxos := engine.utxos.rows)
      ensures Prepared(old(Start()), outputs, engine.utxos.rows, r, picked, inputs, hexInputs, reserved, err)
    {
      ghost var b := Start();
      r, picked := Success([]), [];
      var included;
      included, err := AddIncludeUtxos();
      assert Start() == b;
      if err.Some? { return 0, r, picked, err; }
      var request, inputFee, skips := RequestAndInputFee(needed);
      if skips { return 0, r, picked, None; }
      reserved, r, picked, err := ReserveRequest(request, inputFee, included);
      RequestPrepared(b, outputs, engine.utxos.rows, r, picked, inputs, hexInputs, reserved, err);
    }

    /** Reserves everything spendable, or named, and puts it all on the first output. */
    method PrepareSendAllToUtxos() returns (reserved: nat, r: Result<seq<Outpoint>, Error>)
      requires engine.Sound() && inputs == [] && outputs != [] && outputs[0].satoshis == 0
      modifies this`inputs, this`hexInputs, this`outputs, engine.utxos
      ensures engine.Sound() && engine.Contents() == old(engine.Contents()).(utxos := engine.utxos.rows)
      ensures TotalReservation(old(engine.utxos.rows), engine.utxos.rows,
                               SpendableIn(old(engine.utxos.order), old(engine.utxos.rows), xpub), xpub, id,
                               fromUtxos, r)
      ensures r.Success? ==>
        && Known(old(engine.utxos.rows), r.value) && inputs == InputsOf(old(engine.utxos.rows), r.value)
        && hexInputs == r.value && reserved == U64(InputTotal(inputs)) && outputs == Funded(old(outputs), inputs)
    {
      ghost var rows := engine.utxos.rows;
      reserved := 0;
      r := engine.ReserveAll(xpub, id, fromUtxos);
      if r.Failure? { return; }
      TotalReservationKnown(rows, engine.utxos.rows, SpendableIn(old(engine.utxos.order), rows, xpub), xpub, id,
                            fromUtxos, r);
      reserved := TakeInputs(r.value, rows);
      PutOnFirst(reserved);
    }

    /** The send-all output gets what has been reserved. */
    method PutOnFirst(reserved: nat)
      requires outputs != [] && outputs[0].satoshis == 0 && reserved < TWO64
      modifies this`outputs
      ensures outputs == [old(outputs)[0].(satoshis := reserved)] + old(outputs)[1..]
    {
      outputs := [outputs[0].(satoshis := U64(outputs[0].satoshis + reserved))] + outputs[1..];
    }

    // ----- change ------------------------------------------------------------------------------------------

    /** The engine is as it should be, except that a counter that ran over leaves a stale xpub in the cache. */
    ghost predicate Intact(err: Option<Error>)
      reads engine, engine.utxos, engine.xpubs
    {
      engine.utxos.Valid() && (err != Some(ErrNumberOutOfRange) ==> engine.Sound())
    }

    /** Makes n new change addresses. */
    method SetChangeDestinations(n: nat) returns (err: Option<Error>)
      requires engine.Sound() && n > 0
      modifies this`changeDestinations, engine`destinations, engine.xpubs
      ensures Intact(err)
      ensures engine.Contents() == Readied(old(engine.Contents()), xpub, n, false)
      ensures err == ChangeError(old(engine.Contents()), xpub, n, false, Default)
      ensures err.None? ==> changeDestinations == Some(Addresses(xpub, old(NextChange()), n))
    {
      ghost var s := engine.Contents();
      ghost var start := NextChange();
      var made: seq<Script> := [];
      var i := 0;
      while i < n
        invariant 0 <= i <= n && engine.Sound()
        invariant xpub !in s.xpubs ==> i == 0 && engine.Contents() == s
        invariant xpub in s.xpubs ==>
          && i <= Room(s, xpub) && engine.Contents() == NewChangeDestinations(s, xpub, i)
          && NextChange() == start + i && made == Addresses(xpub, start, i)
      {
        var r := engine.NewChangeDestination(xpub);
        if r.Failure? {
          if xpub in s.xpubs { DestinationsStop(s, xpub, i + 1, n); }
          return Some(r.error);
        }
        made := made + [r.value];
        i := i + 1;
      }
      changeDestinations := Some(made);
      err := None;
    }

    method CountFlagged() returns (n: nat)
      ensures n == Flagged(outputs)
    {
      n := 0;
      var i := 0;
      assert outputs[..0] == [];
      while i < |outputs|
        invariant 0 <= i <= |outputs| && n == Flagged(outputs[..i])
      {
        assert outputs[..i + 1][..i] == outputs[..i];
        if outputs[i].useForChange { n := n + 1; }
        i := i + 1;
      }
      assert outputs[..i] == outputs;
    }

    /** Adds its part to each output flagged for change, and the remainder to the first of them. */
    method AddParts(part: nat, remainder: nat)
      modifies this`outputs
      ensures outputs == WithChange(old(outputs), part, remainder)
    {
      var left := remainder;
      ghost var before := outputs;
      var i := 0;
      while i < |outputs|
        invariant 0 <= i <= |outputs| == |before|
        invariant forall k :: 0 <= k < i ==> outputs[k] == Changed(before, k, part, remainder)
        invariant forall k :: i <= k < |before| ==> outputs[k] == before[k]
        invariant left == if Flagged(before[..i]) == 0 then remainder else 0
      {
        assert before[..i + 1][..i] == before[..i];
        if outputs[i].useForChange {
          outputs := outputs[i := AddTo(outputs[i], part + left)];
          left := 0;
        }
        i := i + 1;
      }
    }

    /** Adds the change to the outputs flagged for it. Their scripts stay as they are. */
    method ChangeToExisting(change: nat, flagged: nat)
      requires flagged == Flagged(outputs) && flagged > 0
      modifies this`outputs, this`changeDestinations
      ensures outputs == ToFlagged(old(outputs), change) && changeDestinations == None
      ensures ChangeShared(old(outputs), outputs, change, flagged)
    {
      FlaggedShared(outputs, change);
      changeDestinations := None;
      AddParts(FloorDiv(change, flagged), Remainder(change, flagged));
    }

    /** Appends one output for each change destination. */
    method AppendChange(destinations: seq<Script>, paid: map<Script, nat>, ghost values: seq<nat>)
      requires |values| == |destinations| && ChangeSplit.Holds(paid, destinations, values)
      modifies this`outputs
      ensures outputs == old(outputs) + ChangeOutputs(destinations, values)
    {
      var i := 0;
      while i < |destinations|
        invariant 0 <= i <= |destinations|
        invariant outputs == old(outputs) + ChangeOutputs(destinations[..i], values[..i])
      {
        assert destinations[..i + 1][..i] == destinations[..i] && values[..i + 1][..i] == values[..i];
        var s := destinations[i];
        outputs := outputs + [Output(Address(s), paid[s], [TxOut(s, paid[s])], false)];
        i := i + 1;
      }
      assert destinations[..i] == destinations && values[..i] == values;
    }

    /** Splits the change over the destinations. */
    method PayChange(change: nat, destinations: seq<Script>) returns (err: Option<Error>)
      modifies this`outputs
      ensures err == if config.strategy == Nominations then Some(ErrChangeStrategyNotImplemented) else None
      ensures err.None? ==> outputs == old(outputs) + NewOutputs(config, change, destinations)
      ensures err.Some? ==> outputs == old(outputs)
    {
      var n := |destinations|;
      var paid := GetChangeSatoshis(change, destinations, config.strategy, Draws(config, n));
      if paid.Failure? { return Some(paid.error); }
      if destinations != [] {
        AppendChange(destinations, paid.value,
                     Split(change, destinations, Shares(change, n, config.strategy, Draws(config, n))));
      }
      err := None;
    }

    /** The number of addresses of the draft's owner handed out so far. */
    ghost function NextChange(): nat
      reads this, engine, engine.xpubs
    {
      if xpub in engine.xpubs.rows then engine.xpubs.rows[xpub].nextInternal else 0
    }

    /** Makes the change destinations unless they are given. */
    method EnsureDestinations(n: nat) returns (err: Option<Error>)
      requires engine.Sound() && n > 0
      modifies this`changeDestinations, engine`destinations, engine.xpubs
      ensures Intact(err)
      ensures engine.Contents() == Readied(old(engine.Contents()), xpub, n, old(changeDestinations).Some?)
      ensures err == ChangeError(old(engine.Contents()), xpub, n, old(changeDestinations).Some?, Default)
      ensures err.None? ==>
        changeDestinations == Some(Destinations(old(changeDestinations), xpub, old(NextChange()), n))
    {
      err := None;
      if changeDestinations.None? { err := SetChangeDestinations(n); }
    }

    /** As many as are configured, or one if the change is too small for the minimum each. */
    ghost predicate CountedRight(n: nat, change: nat) {
      var most := if config.numberOfDestinations <= 0 then 1 else config.numberOfDestinations;
      var least := if config.minimumSatoshis == 0 then 1250 else config.minimumSatoshis;
      n == if change < least * most then 1 else most
    }

    /** How many change outputs to make, the fee with them, and what is then left for them. */
    method ChangeFee(change: nat, fee0: nat) returns (n: nat, newFee: nat, rest: nat)
      requires config.feeUnit.bytes > 0
      requires fee0 == Fee(config, inputs, outputs, 0) && change == Left(inputs, outputs, fee0)
      ensures n == NumberOfDestinations(config, change)
      ensures CountedRight(n, change)
      ensures newFee == Fee(config, inputs, outputs, n * CHANGE_OUTPUT_SIZE) && rest == Left(inputs, outputs, newFee)
    {
      n := NumberOfDestinations(config, change);
      newFee := EstimateFee(n * CHANGE_OUTPUT_SIZE);
      ChangeLessFee(InputTotal(inputs), OutputTotal(outputs), fee0, newFee);
      rest := U64(change - U64(newFee - fee0));
    }

    method AddChange(change: nat, n: nat) returns (err: Option<Error>)
      requires engine.Sound() && n > 0
      modifies this`outputs, this`changeDestinations, engine`destinations, engine.xpubs
      ensures Intact(err)
      ensures engine.Contents() == Readied(old(engine.Contents()), xpub, n, old(changeDestinations).Some?)
      ensures err == ChangeError(old(engine.Contents()), xpub, n, old(changeDestinations).Some?, config.strategy)
      ensures err.None? ==>
        var destinations := Destinations(old(changeDestinations), xpub, old(NextChange()), n);
        changeDestinations == Some(destinations) && outputs == old(outputs) + NewOutputs(config, change, destinations)
    {
      err := EnsureDestinations(n);
      if err.Some? { return; }
      err := PayChange(change, changeDestinations.value);
    }

    /** New outputs take the change, and pay for themselves from it. */
    method ChangeToNew(change: nat, fee0: nat) returns (newFee: nat, err: Option<Error>)
      requires engine.Sound() && config.feeUnit.bytes > 0
      requires fee0 == Fee(config, inputs, outputs, 0) && change == Left(inputs, outputs, fee0)
      modifies this`outputs, this`changeDestinations, this`changeSatoshis, engine`destinations, engine.xpubs
      ensures Intact(err)
      ensures engine.Contents() == Readied(old(engine.Contents()), xpub, NumberOfDestinations(config, change),
                                           old(changeDestinations).Some?)
      ensures err == ChangeError(old(engine.Contents()), xpub, NumberOfDestinations(config, change),
                                 old(changeDestinations).Some?, config.strategy)
      ensures err.None? ==>
        Plan(outputs, newFee, changeSatoshis, changeDestinations)
        == NewChangePlan(config, inputs, old(outputs), old(changeDestinations), xpub, old(NextChange()))
    {
      var n;
      n, newFee, changeSatoshis := ChangeFee(change, fee0);
      err := AddChange(changeSatoshis, n);
    }

    method SetChangeDestination(change: nat, fee0: nat) returns (newFee: nat, err: Option<Error>)
      requires engine.Sound() && config.feeUnit.bytes > 0
      requires fee0 == Fee(config, inputs, outputs, 0) && change == Left(inputs, outputs, fee0) && change > 0
      modifies this`outputs, this`changeDestinations, this`changeSatoshis, engine`destinations, engine.xpubs
      ensures Intact(err)
      ensures engine.Contents() == if Flagged(old(outputs)) > 0 then old(engine.Contents()) else
        Readied(old(engine.Contents()), xpub, NumberOfDestinations(config, change), old(changeDestinations).Some?)
      ensures err == if Flagged(old(outputs)) > 0 then None else
        ChangeError(old(engine.Contents()), xpub, NumberOfDestinations(config, change), old(changeDestinations).Some?,
                    config.strategy)
      ensures err.None? ==>
        Plan(outputs, newFee, changeSatoshis, changeDestinations)
        == ChangePlan(config, inputs, old(outputs), old(changeDestinations), xpub, old(NextChange()))
    {
      var flagged := CountFlagged();
      if flagged > 0 {
        changeSatoshis := change;
        ChangeToExisting(change, flagged);
        return fee0, None;
      }
      newFee, err := ChangeToNew(change, fee0);
    }

    method ChangeLeft(reserved: nat, needed: nat, fee0: nat) returns (change: nat)
      requires needed == U64(OutputTotal(outputs))
      ensures reserved == U64(InputTotal(inputs)) ==> change == Left(inputs, outputs, fee0)
      ensures reserved == 0 && U64(needed + fee0) == 0 ==> change == 0
    {
      change := U64(U64(reserved - needed) - fee0);
      ChangeOrNothing(InputTotal(inputs), reserved, OutputTotal(outputs), fee0);
    }

    /** Sets the fee, and the change if the inputs leave any. */
    method SetFee(reserved: nat, needed: nat, fee0: nat) returns (err: Option<Error>)
      requires engine.Sound() && config.feeUnit.bytes > 0 && changeSatoshis == 0
      requires reserved == U64(InputTotal(inputs)) || (reserved == 0 && Request(config, inputs, outputs) <= DUST_LIMIT)
      requires needed == U64(OutputTotal(outputs)) && fee0 == Fee(config, inputs, outputs, 0)
      requires reserved >= U64(needed + fee0)
      modifies this`outputs, this`changeDestinations, this`changeSatoshis, this`fee, engine`destinations, engine.xpubs
      ensures Intact(err) && err != Some(ErrNotEnoughUtxos)
      ensures FeeSet(old(engine.Contents()), config, xpub, inputs, old(outputs), old(changeDestinations),
                     old(NextChange()), reserved, engine.Contents(),
                     Plan(outputs, fee, changeSatoshis, changeDestinations), err)
    {
      var change := ChangeLeft(reserved, needed, fee0);
      fee := fee0;
      if change > 0 {
        var newFee;
        newFee, err := SetChangeDestination(change, fee0);
        if err.Some? { return; }
        fee := newFee;
      }
      err := None;
    }

    /**
     * Fee and change, if what is reserved pays for outputs and fee. If the reservation was skipped, nothing is
     * reserved whatever the inputs are.
     */
    method SetFeeAndChange(reserved: nat, needed: nat) returns (err: Option<Error>)
      requires engine.Sound() && config.feeUnit.bytes > 0 && changeSatoshis == 0
      requires reserved == U64(InputTotal(inputs)) || (reserved == 0 && Request(config, inputs, outputs) <= DUST_LIMIT)
      requires needed == U64(OutputTotal(outputs))
      modifies this`outputs, this`changeDestinations, this`changeSatoshis, this`fee, engine`destinations, engine.xpubs
      ensures Intact(err)
      ensures FeeSet(old(engine.Contents()), config, xpub, inputs, old(outputs), old(changeDestinations),
                     old(NextChange()), reserved, engine.Contents(),
                     Plan(outputs, fee, changeSatoshis, changeDestinations), err)
      ensures err == Some(ErrNotEnoughUtxos) <==> reserved < U64(needed + Fee(config, inputs, old(outputs), 0))
    {
      var fee0 := EstimateFee(0);
      if reserved < U64(needed + fee0) { return Some(ErrNotEnoughUtxos); }
      err := SetFee(reserved, needed, fee0);
    }

    /** What is left of an amount after the fee and all outputs that are not flagged for change. */
    method SubtractOthers(start: nat, fee0: nat) returns (amount: nat)
      ensures amount == U64(U64(start - U64(fee0)) - Unflagged(outputs))
    {
      ghost var left := U64(start - U64(fee0));
      SubtractReduced(start, fee0);
      amount := U64(start - fee0);
      var i := 0;
      assert outputs[..0] == [];
      while i < |outputs|
        invariant 0 <= i <= |outputs| && amount == U64(left - Unflagged(outputs[..i]))
      {
        assert outputs[..i + 1][..i] == outputs[..i];
        if !outputs[i].useForChange {
          Reduce(left - Unflagged(outputs[..i]), -(outputs[i].satoshis as int));
          amount := U64(amount - outputs[i].satoshis);
        }
        i := i + 1;
      }
      assert outputs[..i] == outputs;
    }

    /** Leaves to the send-all output what the fee and the other outputs leave of the inputs. */
    method SetSendAllFee() returns (err: Option<Error>)
      requires config.feeUnit.bytes > 0 && outputs != [] && outputs[0].scripts != []
      requires outputs[0].satoshis == U64(InputTotal(inputs)) && changeSatoshis == 0
      modifies this`outputs, this`fee
      ensures err == if U64(InputTotal(inputs)) <= DUST_LIMIT then Some(ErrOutputValueTooLow) else None
      ensures err.Some? <==> U64(InputTotal(inputs)) <= 1
      ensures err.None? ==>
        Plan(outputs, fee, changeSatoshis, changeDestinations)
        == SendAllPlan(config, inputs, old(outputs), changeDestinations)
      ensures err.Some? ==> outputs == old(outputs)
    {
      var fee0 := EstimateFee(0);
      if outputs[0].satoshis <= DUST_LIMIT { return Some(ErrOutputValueTooLow); }
      fee := fee0;
      var rest := SubtractOthers(outputs[0].satoshis, fee0);
      ChangeOf(InputTotal(inputs), fee0, Unflagged(outputs));
      assert rest == U64(InputTotal(inputs) - fee0 - Unflagged(outputs));
      outputs := [WithAmount(outputs[0], rest)] + outputs[1..];
      err := None;
    }

    // ----- the whole draft -----------------------------------------------------------------------------

    ghost function Start(): Before
      reads this, engine, engine.utxos, engine.xpubs
    {
      Before(config, id, xpub, changeDestinations, NextChange(), fromUtxos, includeUtxos, engine.Contents(),
             SpendableIn(engine.utxos.order, engine.utxos.rows, xpub))
    }

    ghost function Made(): Built
      reads this
    {
      Built(inputs, Plan(outputs, fee, changeSatoshis, changeDestinations), hexInputs, hex)
    }

    /** The raw outputs, and the final check. */
    method Finish() returns (err: Option<Error>)
      modifies this`hex
      ensures Finished(Made(), err) && Made() == old(Made()).(hex := hex)
    {
      err := AddOutputsToTx();
      if err.Some? { return; }
      err := ValidateOutputsInputs();
    }

    /** Reserves UTXOs and sets fee and change. */
    method PlanPlain(needed: nat)
      returns (ghost r: Result<seq<Outpoint>, Error>, ghost picked: seq<Outpoint>, ghost reserved: nat,
               err: Option<Error>)
      requires engine.Sound() && FreshDraft(engine.Contents(), id) && config.feeUnit.bytes > 0
      requires inputs == [] && hexInputs == [] && changeSatoshis == 0 && needed == U64(OutputTotal(outputs))
      modifies this`inputs, this`hexInputs, this`outputs, this`changeDestinations, this`changeSatoshis, this`fee
      modifies engine.utxos, engine`destinations, engine.xpubs
      ensures Intact(err)
      ensures err.Some? ==> PlainBuilt(old(Start()), old(outputs), r, picked, engine.Contents(), Made(), err)
      ensures err.None? ==> PlainPlanned(old(Start()), old(outputs), r, picked, reserved, engine.Contents(), Made())
    {
      ghost var b, wanted := Start(), outputs;
      var amount;
      amount, r, picked, err := PrepareSeparateUtxos(needed);
      reserved := amount;
      ghost var rows := engine.utxos.rows;
      if err.Some? {
        FailedPrepared(b, wanted, r, picked, rows, reserved, Made(), err);
        return;
      }
      err := SetFeeAndChange(amount, needed);
      FeeKept(b, wanted, r, picked, rows, reserved, engine.Contents(), Made(), err);
    }

    /** The draft without a send-all target, from its resolved outputs on. */
    method BuildPlain(needed: nat)
      returns (ghost r: Result<seq<Outpoint>, Error>, ghost picked: seq<Outpoint>, err: Option<Error>)
      requires engine.Sound() && FreshDraft(engine.Contents(), id) && config.feeUnit.bytes > 0
      requires inputs == [] && hexInputs == [] && changeSatoshis == 0 && needed == U64(OutputTotal(outputs))
      modifies this, engine.utxos, engine`destinations, engine.xpubs
      ensures Intact(err) && PlainBuilt(old(Start()), old(outputs), r, picked, engine.Contents(), Made(), err)
    {
      ghost var b, wanted := Start(), outputs;
      ghost var reserved;
      r, picked, reserved, err := PlanPlain(needed);
      if err.Some? { return; }
      ghost var made := Made();
      err := Finish();
      PlainAssembled(b, wanted, r, picked, reserved, engine.Contents(), made, Made(), err);
    }

    /** Takes everything spendable, or named, and plans what the first output gets of it. */
    method FundSendAll() returns (r: Result<seq<Outpoint>, Error>, err: Option<Error>)
      requires engine.Sound() && config.feeUnit.bytes > 0
      requires inputs == [] && changeSatoshis == 0 && SendAllOk(outputs) && outputs[0].satoshis == 0
      modifies this`inputs, this`hexInputs, this`outputs, this`fee, engine.utxos
      ensures engine.Sound() && engine.Contents() == old(engine.Contents()).(utxos := engine.utxos.rows)
      ensures TotalReservation(old(engine.utxos.rows), engine.utxos.rows,
                               SpendableIn(old(engine.utxos.order), old(engine.utxos.rows), xpub), xpub, id,
                               fromUtxos, r)
      ensures r.Failure? ==> err == Some(r.error)
      ensures r.Success? ==>
        && Known(old(engine.utxos.rows), r.value) && inputs == InputsOf(old(engine.utxos.rows), r.value)
        && hexInputs == r.value
        && err == (if U64(InputTotal(inputs)) <= DUST_LIMIT then Some(ErrOutputValueTooLow) else None)
        && (err.None? ==> Made().plan == SendAllPlan(config, inputs, Funded(old(outputs), inputs), changeDestinations))
    {
      var reserved;
      reserved, r := PrepareSendAllToUtxos();
      if r.Failure? { return r, Some(r.error); }
      err := SetSendAllFee();
    }

    /** The draft that sends everything to its first output, from its resolved outputs on. */
    method BuildSendAll() returns (r: Result<seq<Outpoint>, Error>, err: Option<Error>)
      requires engine.Sound() && config.feeUnit.bytes > 0
      requires inputs == [] && changeSatoshis == 0 && SendAllOk(outputs) && outputs[0].satoshis == 0
      modifies this, engine.utxos
      ensures engine.Sound() && SendAllBuilt(old(Start()), old(outputs), r, engine.Contents(), Made(), err)
    {
      r, err := FundSendAll();
      if err.Some? { return; }
      err := Finish();
    }

    /** Resolves the outputs and builds the draft from them. */
    method BuildResolved()
      returns (ghost r: Result<seq<Outpoint>, Error>, ghost picked: seq<Outpoint>, err: Option<Error>)
      requires engine.Sound() && FreshDraft(engine.Contents(), id) && config.feeUnit.bytes > 0
      requires inputs == [] && hexInputs == [] && changeSatoshis == 0
      modifies this, engine.utxos, engine`destinations, engine.xpubs
      ensures Intact(err)
      ensures DraftMade(old(Start()), sendAllTo, old(outputs), r, picked, engine.Contents(), Made(), err)
    {
      r, picked := Success([]), [];
      if outputs == [] && sendAllTo.None? { return r, picked, Some(ErrMissingTransactionOutputs); }
      var needed := GetTotalSatoshis();
      err := ProcessConfigOutputs();
      if err.Some? { return; }
      if sendAllTo.Some? {
        ResolvedSendAll(old(outputs), sendAllTo.value);
        r, err := BuildSendAll();
      } else {
        ProcessOutputsMatch(old(outputs), true);
        r, picked, err := BuildPlain(needed);
      }
    }

    /**
     * Builds the draft, which then pays whom it was asked to pay; nothing is saved yet, but reservations are
     * made.
     */
    method CreateTransactionHex()
      returns (ghost r: Result<seq<Outpoint>, Error>, ghost picked: seq<Outpoint>, ghost destinations: seq<Script>,
               ghost amounts: seq<nat>, err: Option<Error>)
      requires engine.Sound() && FreshDraft(engine.Contents(), id) && config.feeUnit.bytes > 0
      requires inputs == [] && hexInputs == [] && changeSatoshis == 0
      modifies this, engine.utxos, engine`destinations, engine.xpubs
      ensures Intact(err)
      ensures DraftMade(old(Start()), sendAllTo, old(outputs), r, picked, engine.Contents(), Made(), err)
      ensures err.None? ==> DraftPays(old(Start()), sendAllTo, old(outputs), Made(), destinations, amounts)
    {
      ghost var b, wanted := Start(), outputs;
      destinations, amounts := [], [];
      r, picked, err := BuildResolved();
      if err.None? {
        destinations, amounts := MadeDraftPays(b, sendAllTo, wanted, r, picked, engine.Contents(), Made());
      }
    }

    /** The draft as saved: open until its time, with the inputs, scripts and fee of the configuration. */
    ghost predicate SavedAs(draft: DraftTx)
      reads this
    {
      && draft.xpub == xpub && draft.fee == fee && draft.expiresAt == expiresAt
      && draft.status == DraftStatus.Draft && draft.finalTx.None?
      && |draft.inputs| == |inputs| && (forall i :: 0 <= i < |inputs| ==> draft.inputs[i] == inputs[i].at)
      && |draft.outputs| == |outputs| && (forall i :: 0 <= i < |outputs| ==> draft.outputs[i] == outputs[i].scripts)
    }

    method Save()
      modifies engine`drafts
      ensures engine.Contents() == StoreDraft(old(engine.Contents()), id, Stored(xpub, Made(), expiresAt))
      ensures id in engine.drafts && engine.drafts == old(engine.drafts)[id := engine.drafts[id]]
      ensures SavedAs(engine.drafts[id])
    {
      engine.CreateDraft(id, DraftTx(xpub, OutpointsOf(inputs), ScriptsOf(outputs), fee, DraftStatus.Draft, None,
                                     expiresAt));
    }

    /**
     * A new draft: built, and saved if nothing fails. A failure leaves the reservations behind. If no
     * UTXOs are named, the ledger invariant holds afterwards.
     */
    method NewTransaction()
      returns (ghost r: Result<seq<Outpoint>, Error>, ghost picked: seq<Outpoint>, ghost built: State,
               ghost destinations: seq<Script>, ghost amounts: seq<nat>, err: Option<Error>)
      requires engine.Sound() && FreshDraft(engine.Contents(), id) && config.feeUnit.bytes > 0
      requires inputs == [] && hexInputs == [] && changeSatoshis == 0
      modifies this, engine`drafts, engine.utxos, engine`destinations, engine.xpubs
      ensures Intact(err)
      ensures DraftMade(old(Start()), sendAllTo, old(outputs), r, picked, built, Made(), err)
      ensures engine.Contents() == if err.Some? then built else StoreDraft(built, id, Stored(xpub, Made(), expiresAt))
      ensures old(engine.Valid()) && fromUtxos.None? && includeUtxos == [] ==>
        Inv(engine.Contents()) && (err != Some(ErrNumberOutOfRange) ==> engine.Valid())
      ensures err.None? ==> DraftPays(old(Start()), sendAllTo, old(outputs), Made(), destinations, amounts)
      ensures if err.Some? then engine.drafts == old(engine.drafts)
        else
          && id in engine.drafts && engine.drafts == old(engine.drafts)[id := engine.drafts[id]]
          && SavedAs(engine.drafts[id])
    {
      ghost var b := Start();
      ghost var list := outputs;
      r, picked, destinations, amounts, err := CreateTransactionHex();
      built := engine.Contents();
      NewDraftKeepsInv(b, sendAllTo, list, r, picked, built, Made(), err, expiresAt);
      if err.Some? { return; }
      Save();
    }
  }

  /** Either the whole of the inputs is reserved, or nothing is. */
  lemma ChangeOrNothing(inputs: nat, reserved: nat, outputs: nat, fee: nat)
    ensures reserved == U64(inputs) ==>
      U64(U64(reserved - U64(outputs)) - fee) == U64(inputs - outputs - fee)
    ensures reserved == 0 && U64(U64(outputs) + fee) == 0 ==> U64(U64(reserved - U64(outputs)) - fee) == 0
  {
    if reserved == U64(inputs) { ChangeOf(inputs, outputs, fee); }
    if reserved == 0 {
      ChangeOf(0, outputs, fee);
      Reduce(outputs, fee);
    }
  }

  /** After the first number that does not fit, nothing more is made. */
  lemma {:induction false} DestinationsStop(s: State, x: XpubId, m: nat, n: nat)
    requires x in s.xpubs && Room(s, x) < m <= n
    ensures NewChangeDestinations(s, x, n) == NewChangeDestinations(s, x, m)
  {
    if m < n { DestinationsStop(s, x, m, n - 1); }
  }

  lemma {:induction false} ProcessStops(list: seq<Output>, keepChange: bool, n: nat)
    requires n <= |list| && ProcessOutputs(list[..n], keepChange).Failure?
    ensures ProcessOutputs(list, keepChange) == ProcessOutputs(list[..n], keepChange)
    decreases |list|
  {
    if n < |list| {
      assert list[..|list| - 1][..n] == list[..n];
      ProcessStops(list[..|list| - 1], keepChange, n);
    } else {
      assert list[..n] == list;
    }
  }
}
