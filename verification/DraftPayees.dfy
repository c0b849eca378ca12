/** Whom the raw transaction of a draft pays: the outputs asked for, in order, and then the change. */
module DraftPayees {
  import opened Common
  import opened Sums
  import opened Uint64
  import opened Ledger
  import opened ChangeSplit
  import opened DraftMath
  import opened DraftPaths
  import opened DraftResult

  // ----- what was asked for ------------------------------------------------------------------------

  /**
   * The raw outputs that an output of the configuration asks for, after the scripts it came with: its own script
   * with its amount, or the scripts of the paymail provider one by one, worth the amount together.
   */
  ghost predicate Asked(o: Output, part: seq<TxOut>) {
    match o.target
    case Address(script) => part == o.scripts + [TxOut(script, o.satoshis)]
    case OpReturn(script) => part == o.scripts + [TxOut(script, o.satoshis)]
    case Custom(script) => part == o.scripts + [TxOut(script, o.satoshis)]
    case Paymail(outs, draws) =>
      && |part| == |o.scripts| + |outs| && part[..|o.scripts|] == o.scripts
      && PaidOver(part[|o.scripts|..], outs, draws, if o.satoshis == 0 then 100 else o.satoshis)
      && (ProviderSplits(o) ==> TxOutTotal(part[|o.scripts|..]) == if o.satoshis == 0 then 100 else o.satoshis)
    case Unset => false
  }

  /** An amount drawn for one of n: the change times a factor between 3/4 and 5/4, divided by n and rounded down. */
  ghost predicate DrawnRight(change: nat, n: nat, draw: nat, amount: nat) {
    amount * (4 * TWO63 * n) <= change * (3 * TWO63 + 2 * draw) < (amount + 1) * (4 * TWO63 * n)
  }

  /** The scripts are paid in their order, each but the last an amount drawn for it. */
  ghost predicate PaidOver(paid: seq<TxOut>, outs: seq<Script>, draws: seq<nat>, satoshis: nat) {
    && |paid| == |outs|
    && forall j :: 0 <= j < |outs| ==>
         && paid[j].script == outs[j]
         && (j < |outs| - 1 ==>
               DrawnRight(satoshis, |outs|, if j < |draws| then draws[j] else 0, paid[j].satoshis))
  }

  ghost predicate AskedEach(outputs: seq<Output>, parts: seq<seq<TxOut>>) {
    |parts| == |outputs| && forall i :: 0 <= i < |outputs| ==> Asked(outputs[i], parts[i])
  }

  /** hex is the parts one after the other; part i begins at starts[i]. */
  ghost predicate LaidOutAt(hex: seq<TxOut>, parts: seq<seq<TxOut>>, starts: seq<nat>) {
    && |starts| == |parts| + 1 && starts[0] == 0 && starts[|parts|] == |hex|
    && forall i :: 0 <= i < |parts| ==>
         starts[i + 1] == starts[i] + |parts[i]| <= |hex| && hex[starts[i]..starts[i + 1]] == parts[i]
  }

  ghost predicate LaidOut(hex: seq<TxOut>, parts: seq<seq<TxOut>>) { exists starts :: LaidOutAt(hex, parts, starts) }

  /** One raw output for each change destination, in order. */
  ghost function ChangeParts(destinations: seq<Script>, amounts: seq<nat>): (parts: seq<seq<TxOut>>)
    requires |destinations| == |amounts|
    ensures |parts| == |destinations|
    ensures forall i :: 0 <= i < |parts| ==> parts[i] == [TxOut(destinations[i], amounts[i])]
  {
    seq(|destinations|, i requires 0 <= i < |destinations| => [TxOut(destinations[i], amounts[i])])
  }

  /** The raw transaction pays what was asked for, part by part, and then the change; nobody else is paid. */
  ghost predicate PaysParts(outputs: seq<Output>, hex: seq<TxOut>, destinations: seq<Script>, amounts: seq<nat>,
                            parts: seq<seq<TxOut>>)
  {
    && |amounts| == |destinations| && AskedEach(outputs, parts)
    && LaidOut(hex, parts + ChangeParts(destinations, amounts))
  }

  ghost predicate PaysAsAsked(outputs: seq<Output>, hex: seq<TxOut>, destinations: seq<Script>, amounts: seq<nat>) {
    exists parts :: PaysParts(outputs, hex, destinations, amounts, parts)
  }

  /**
   * The target takes `rest`, in the first of its raw outputs; the others are paid what was asked for; nobody
   * else is.
   */
  ghost predicate PaysHead(first: Output, outputs: seq<Output>, hex: seq<TxOut>, rest: nat, head: seq<TxOut>,
                           parts: seq<seq<TxOut>>)
  {
    && Asked(first.(satoshis := 0), head) && head != [] && AskedEach(outputs, parts)
    && LaidOut(hex, [[TxOut(head[0].script, rest)] + head[1..]] + parts)
  }

  ghost predicate PaysAll(first: Output, outputs: seq<Output>, hex: seq<TxOut>, rest: nat) {
    exists head, parts :: PaysHead(first, outputs, hex, rest, head, parts)
  }

  /**
   * How the change is divided over n distinct destinations: equally, or by the numbers drawn, between 3/4 and 5/4 of
   * an equal share; the last destination takes what is left.
   */
  ghost predicate DividedRight(config: Config, change: nat, amounts: seq<nat>) {
    var n := |amounts|;
    && (config.strategy == Default ==> forall i :: 0 <= i < n - 1 ==> amounts[i] * n <= change < (amounts[i] + 1) * n)
    && (config.strategy == Random ==>
          forall i :: 0 <= i < n - 1 ==> DrawnRight(change, n, config.draw(i), amounts[i]))
  }

  // ----- refusals ---------------------------------------------------------------------------------------

  /** Why an output of the configuration cannot be resolved. */
  ghost function NotResolved(o: Output): Option<Error> {
    match o.target
    case Unset => Some(ErrOutputValueNotRecognized)
    case Address(_) => if o.satoshis == 0 then Some(ErrOutputValueTooLow) else None
    case Paymail(outs, _) =>
      if o.satoshis == 0 then Some(ErrOutputValueTooLow) else if outs == [] then Some(ErrIndexOutOfRange) else None
    case _ => None
  }

  /** The first output that cannot be resolved decides. */
  ghost predicate ResolveAnswer(outputs: seq<Output>, err: Option<Error>) {
    if err.None? then forall i :: 0 <= i < |outputs| ==> NotResolved(outputs[i]).None?
    else exists i :: 0 <= i < |outputs| && NotResolved(outputs[i]) == err
           && forall j :: 0 <= j < i ==> NotResolved(outputs[j]).None?
  }

  lemma {:induction false} ResolveAnswers(outputs: seq<Output>, keepChange: bool)
    ensures var r := ProcessOutputs(outputs, keepChange);
      ResolveAnswer(outputs, if r.Failure? then Some(r.error) else None)
  {
    if outputs != [] {
      var n := |outputs| - 1;
      var before := ProcessOutputs(outputs[..n], keepChange);
      ResolveAnswers(outputs[..n], keepChange);
      assert forall j :: 0 <= j < n ==> outputs[..n][j] == outputs[j];
      if before.Failure? {
        var i :| 0 <= i < n && NotResolved(outputs[..n][i]) == Some(before.error)
          && forall j :: 0 <= j < i ==> NotResolved(outputs[..n][j]).None?;
        assert NotResolved(outputs[i]) == Some(before.error);
      }
    }
  }

  /** Why the transaction refuses to carry a raw output: data with satoshis, or a key hash without. */
  ghost function NotCarried(out: TxOut): Option<Error> {
    if out.script.Foreign? && out.script.scriptType == NullData && out.satoshis > 0 then Some(ErrInvalidOpReturnOutput)
    else if (out.script.Derived? || out.script.scriptType == PubKeyHash) && out.satoshis == 0 then
      Some(ErrOutputValueTooLow)
    else None
  }

  /** The first raw output that is refused decides. */
  ghost predicate CarryAnswer(outs: seq<TxOut>, err: Option<Error>) {
    if err.None? then forall i :: 0 <= i < |outs| ==> NotCarried(outs[i]).None?
    else exists i :: 0 <= i < |outs| && NotCarried(outs[i]) == err
           && forall j :: 0 <= j < i ==> NotCarried(outs[j]).None?
  }

  lemma {:induction false} CarryAnswers(outs: seq<TxOut>)
    ensures CarryAnswer(outs, HexError(outs))
  {
    if outs != [] {
      var n := |outs| - 1;
      var before := HexError(outs[..n]);
      CarryAnswers(outs[..n]);
      assert forall j :: 0 <= j < n ==> outs[..n][j] == outs[j];
      if before.Some? {
        var i :| 0 <= i < n && NotCarried(outs[..n][i]) == before
          && forall j :: 0 <= j < i ==> NotCarried(outs[..n][j]).None?;
        assert NotCarried(outs[i]) == before;
      }
    }
  }

  // ----- change on existing outputs ---------------------------------------------------------------------

  /** Each flagged output takes its part, and the first of them the remainder too; scripts and all else stay. */
  ghost predicate SharedOut(outputs: seq<Output>, outputs': seq<Output>, part: nat, remainder: nat) {
    && |outputs'| == |outputs|
    && forall k :: 0 <= k < |outputs| ==>
         outputs'[k] ==
           if !outputs[k].useForChange then outputs[k]
           else if FirstFlagged(outputs, k) then outputs[k].(satoshis := U64(outputs[k].satoshis + (part + remainder)))
           else outputs[k].(satoshis := U64(outputs[k].satoshis + part))
  }

  ghost predicate FirstFlagged(outputs: seq<Output>, k: nat)
    requires k < |outputs|
  {
    outputs[k].useForChange && forall j :: 0 <= j < k ==> !outputs[j].useForChange
  }

  lemma {:induction false} FlaggedNone(outputs: seq<Output>)
    ensures Flagged(outputs) == 0 <==> forall j :: 0 <= j < |outputs| ==> !outputs[j].useForChange
  {
    if outputs != [] { FlaggedNone(outputs[..|outputs| - 1]); }
  }

  lemma PartShared(outputs: seq<Output>, part: nat, remainder: nat, k: nat)
    requires k < |outputs|
    ensures WithChange(outputs, part, remainder)[k]
         == if !outputs[k].useForChange then outputs[k]
            else if FirstFlagged(outputs, k) then outputs[k].(satoshis := U64(outputs[k].satoshis + (part + remainder)))
            else outputs[k].(satoshis := U64(outputs[k].satoshis + part))
  {
    FlaggedNone(outputs[..k]);
    assert forall j :: 0 <= j < k ==> outputs[..k][j] == outputs[j];
  }

  lemma PartsShared(outputs: seq<Output>, part: nat, remainder: nat)
    ensures SharedOut(outputs, WithChange(outputs, part, remainder), part, remainder)
  {
    forall k | 0 <= k < |outputs| { PartShared(outputs, part, remainder, k); }
  }

  /** The n flagged outputs share the change, in equal parts and a remainder. */
  ghost predicate ChangeSharedBy(outputs: seq<Output>, outputs': seq<Output>, change: nat, n: nat, part: nat,
                                 remainder: nat)
  {
    SharedOut(outputs, outputs', part, remainder) && change == n * part + remainder && remainder < n
  }

  ghost predicate ChangeShared(outputs: seq<Output>, outputs': seq<Output>, change: nat, n: nat) {
    exists part: nat, remainder: nat :: ChangeSharedBy(outputs, outputs', change, n, part, remainder)
  }

  lemma PartAndRemainder(change: nat, n: nat)
    requires n > 0
    ensures change == n * FloorDiv(change, n) + Remainder(change, n) && Remainder(change, n) < n
  {
  }

  lemma FlaggedShared(outputs: seq<Output>, change: nat)
    requires Flagged(outputs) > 0
    ensures ChangeShared(outputs, ToFlagged(outputs, change), change, Flagged(outputs))
  {
    var n := Flagged(outputs);
    var part, remainder := FloorDiv(change, n), Remainder(change, n);
    PartAndRemainder(change, n);
    PartsShared(outputs, part, remainder);
    assert ChangeSharedBy(outputs, ToFlagged(outputs, change), change, n, part, remainder);
  }

  // ----- resolved outputs ----------------------------------------------------------------------------

  lemma PaymentsDrawn(satoshis: nat, outs: seq<Script>, draws: seq<nat>)
    requires outs != []
    ensures PaidOver(Payments(satoshis, outs, draws), outs, draws, satoshis)
  {
    var n := |outs|;
    var paid, padded := Payments(satoshis, outs, draws), Padded(draws, n);
    forall j | 0 <= j < n - 1 ensures DrawnRight(satoshis, n, padded[j], paid[j].satoshis) {
      assert paid[j].satoshis == Drawn(satoshis, n, padded[j]);
      DrawnIsRight(satoshis, n, padded[j]);
    }
  }

  lemma DrawnIsRight(change: nat, n: nat, draw: nat)
    requires n > 0
    ensures DrawnRight(change, n, draw, Drawn(change, n, draw))
  {
  }

  /** Whether an output takes change makes no difference to what it asks for. */
  lemma ResolvedAsked(o: Output, p: Output, check: bool)
    requires p.target == o.target && p.scripts == o.scripts && p.satoshis == o.satoshis
    requires ProcessOutput(p, check).Success?
    ensures Asked(o, ProcessOutput(p, check).value.scripts)
  {
    if o.target.Paymail? {
      var outs, draws := o.target.outs, o.target.draws;
      var satoshis := if o.satoshis == 0 then PAYMAIL_MINIMUM else o.satoshis;
      var part := o.scripts + Payments(satoshis, outs, draws);
      assert part[|o.scripts|..] == Payments(satoshis, outs, draws);
      PaymentsDrawn(satoshis, outs, draws);
      if ProviderSplits(o) { PaymentsAddUp(satoshis, outs, draws); }
    }
  }

  /** The scripts of resolved outputs are what was asked for. */
  lemma AllAsked(outputs: seq<Output>, keepChange: bool)
    requires ProcessOutputs(outputs, keepChange).Success?
    ensures AskedEach(outputs, ScriptsOf(ProcessOutputs(outputs, keepChange).value))
  {
    var done := ProcessOutputs(outputs, keepChange).value;
    ProcessOutputsEach(outputs, keepChange);
    forall i | 0 <= i < |outputs| ensures Asked(outputs[i], done[i].scripts) {
      ResolvedAsked(outputs[i], WithFlag(outputs[i], keepChange), true);
    }
  }

  // ----- one part after the other -----------------------------------------------------------------------

  lemma {:induction false} FlattenLaidOut(parts: seq<seq<TxOut>>) returns (starts: seq<nat>)
    ensures LaidOutAt(Flatten(parts), parts, starts)
  {
    if parts == [] {
      starts := [0];
    } else {
      var n := |parts| - 1;
      var before := FlattenLaidOut(parts[..n]);
      var hex := Flatten(parts);
      starts := before + [|hex|];
      forall i | 0 <= i < |parts|
        ensures starts[i + 1] == starts[i] + |parts[i]| <= |hex| && hex[starts[i]..starts[i + 1]] == parts[i]
      {
        if i < n {
          assert parts[..n][i] == parts[i];
          assert hex[starts[i]..starts[i + 1]] == Flatten(parts[..n])[starts[i]..starts[i + 1]];
        }
      }
    }
  }

  lemma HexLaidOut(parts: seq<seq<TxOut>>)
    ensures LaidOut(Flatten(parts), parts)
  {
    var starts := FlattenLaidOut(parts);
  }

  // ----- the change ------------------------------------------------------------------------------------------

  lemma {:induction false} ChangeOutputsEach(destinations: seq<Script>, shares: seq<nat>)
    requires |destinations| == |shares|
    ensures var added := ChangeOutputs(destinations, shares);
      && |added| == |destinations|
      && forall i :: 0 <= i < |added| ==>
           added[i].scripts == [TxOut(destinations[i], shares[i])] && added[i].satoshis == shares[i]
  {
    if destinations != [] {
      var n := |destinations| - 1;
      ChangeOutputsEach(destinations[..n], shares[..n]);
    }
  }

  /** What each destination is paid. */
  ghost function Amounts(config: Config, change: nat, destinations: seq<Script>): (amounts: seq<nat>)
    ensures |amounts| == |destinations|
  {
    var n := |destinations|;
    if n == 0 then [] else Split(change, destinations, Shares(change, n, config.strategy, Draws(config, n)))
  }

  lemma AmountsRight(config: Config, change: nat, destinations: seq<Script>)
    requires Distinct(destinations)
    ensures DividedRight(config, change, Amounts(config, change, destinations))
  {
    var n := |destinations|;
    if n > 0 { SplitDistinct(change, destinations, Shares(change, n, config.strategy, Draws(config, n))); }
  }

  lemma NewOutputsScripts(config: Config, change: nat, destinations: seq<Script>)
    ensures ScriptsOf(NewOutputs(config, change, destinations))
         == ChangeParts(destinations, Amounts(config, change, destinations))
  {
    if destinations != [] { ChangeOutputsEach(destinations, Amounts(config, change, destinations)); }
  }

  lemma ToFlaggedScripts(outputs: seq<Output>, change: nat)
    requires Flagged(outputs) > 0
    ensures ScriptsOf(ToFlagged(outputs, change)) == ScriptsOf(outputs)
  {
  }

  lemma AddressesAre(x: XpubId, start: nat, n: nat)
    ensures |Addresses(x, start, n)| == n
    ensures forall i :: 0 <= i < n ==> Addresses(x, start, n)[i] == Derived(x, start + i)
  {
    if n > 0 { AddressesAre(x, start, n - 1); }
  }

  // ----- the whole draft ---------------------------------------------------------------------------------

  /** The plan keeps the scripts of the outputs, and may add new outputs for the change. */
  ghost predicate PlanShape(b: Before, outputs: seq<Output>, plan: Plan, destinations: seq<Script>, n: nat) {
    if destinations == [] then ScriptsOf(plan.outputs) == ScriptsOf(outputs)
    else
      && plan.destinations == Some(destinations) && destinations == Destinations(b.given, b.xpub, b.start, n)
      && plan.outputs == outputs + NewOutputs(b.config, plan.change, destinations)
  }

  lemma NewPlanShape(b: Before, inputs: seq<Input>, outputs: seq<Output>) returns (destinations: seq<Script>, n: nat)
    requires b.config.feeUnit.bytes > 0
    ensures PlanShape(b, outputs, NewChangePlan(b.config, inputs, outputs, b.given, b.xpub, b.start), destinations, n)
  {
    n := NumberOfDestinations(b.config, Left(inputs, outputs, Fee(b.config, inputs, outputs, 0)));
    destinations := Destinations(b.given, b.xpub, b.start, n);
    assert outputs + [] == outputs;
  }

  lemma ChangePlanShape(b: Before, inputs: seq<Input>, outputs: seq<Output>) returns (destinations: seq<Script>, n: nat)
    requires b.config.feeUnit.bytes > 0
    ensures PlanShape(b, outputs, ChangePlan(b.config, inputs, outputs, b.given, b.xpub, b.start), destinations, n)
  {
    if NeedsDestinations(b.config, inputs, outputs) {
      destinations, n := NewPlanShape(b, inputs, outputs);
    } else {
      destinations, n := [], 0;
      var p := ChangePlan(b.config, inputs, outputs, b.given, b.xpub, b.start);
      if p.outputs != outputs { ToFlaggedScripts(outputs, p.change); }
    }
  }

  lemma BuiltShape(b: Before, done: seq<Output>, r: Result<seq<Outpoint>, Error>, picked: seq<Outpoint>, s': State,
                   made: Built) returns (destinations: seq<Script>, n: nat)
    requires b.config.feeUnit.bytes > 0 && PlainBuilt(b, done, r, picked, s', made, None)
    ensures made.hex == Flatten(ScriptsOf(made.plan.outputs)) && PlanShape(b, done, made.plan, destinations, n)
  {
    FinishedKinds(made, None);
    destinations, n := [], 0;
    if !Skips(b.config, InputsOf(b.s.utxos, b.extras), done) {
      destinations, n := ChangePlanShape(b, made.inputs, done);
    }
  }

  lemma PartsPay(outputs: seq<Output>, parts: seq<seq<TxOut>>, hex: seq<TxOut>, destinations: seq<Script>,
                 amounts: seq<nat>)
    requires AskedEach(outputs, parts)
    requires |amounts| == |destinations| && hex == Flatten(parts + ChangeParts(destinations, amounts))
    ensures PaysAsAsked(outputs, hex, destinations, amounts)
  {
    HexLaidOut(parts + ChangeParts(destinations, amounts));
    assert PaysParts(outputs, hex, destinations, amounts, parts);
  }

  lemma PartsPayAll(first: Output, outputs: seq<Output>, head: seq<TxOut>, parts: seq<seq<TxOut>>, hex: seq<TxOut>,
                    rest: nat)
    requires Asked(first.(satoshis := 0), head) && head != [] && AskedEach(outputs, parts)
    requires hex == Flatten([[TxOut(head[0].script, rest)] + head[1..]] + parts)
    ensures PaysAll(first, outputs, hex, rest)
  {
    HexLaidOut([[TxOut(head[0].script, rest)] + head[1..]] + parts);
    assert PaysHead(first, outputs, hex, rest, head, parts);
  }

  /** Where the change of a built draft goes: to the destinations given, or to consecutive addresses of the owner. */
  ghost predicate ChangeGoes(b: Before, made: Built, destinations: seq<Script>, amounts: seq<nat>) {
    && (destinations != [] ==> made.plan.destinations == Some(destinations))
    && (destinations != [] && b.given.Some? ==> destinations == b.given.value)
    && (b.given.None? ==> forall i :: 0 <= i < |destinations| ==> destinations[i] == Derived(b.xpub, b.start + i))
    && (Distinct(destinations) ==> DividedRight(b.config, made.plan.change, amounts))
  }

  lemma ShapeGoes(b: Before, done: seq<Output>, made: Built, destinations: seq<Script>, n: nat)
    requires PlanShape(b, done, made.plan, destinations, n)
    ensures ChangeGoes(b, made, destinations, Amounts(b.config, made.plan.change, destinations))
  {
    if b.given.None? { AddressesAre(b.xpub, b.start, n); }
    if Distinct(destinations) { AmountsRight(b.config, made.plan.change, destinations); }
  }

  lemma ShapePays(b: Before, outputs: seq<Output>, done: seq<Output>, made: Built, destinations: seq<Script>, n: nat)
    requires AskedEach(outputs, ScriptsOf(done)) && PlanShape(b, done, made.plan, destinations, n)
    requires made.hex == Flatten(ScriptsOf(made.plan.outputs))
    ensures PaysAsAsked(outputs, made.hex, destinations, Amounts(b.config, made.plan.change, destinations))
  {
    var amounts := Amounts(b.config, made.plan.change, destinations);
    NewOutputsScripts(b.config, made.plan.change, destinations);
    assert ScriptsOf(made.plan.outputs) == ScriptsOf(done) + ChangeParts(destinations, amounts);
    PartsPay(outputs, ScriptsOf(done), made.hex, destinations, amounts);
  }

  /** A draft without a send-all target pays whom it was asked to pay, what it was asked to pay. */
  lemma PlainPays(b: Before, outputs: seq<Output>, done: seq<Output>, r: Result<seq<Outpoint>, Error>,
                  picked: seq<Outpoint>, s': State, made: Built)
    returns (destinations: seq<Script>, amounts: seq<nat>)
    requires b.config.feeUnit.bytes > 0 && ProcessOutputs(outputs, true) == Success(done)
    requires PlainBuilt(b, done, r, picked, s', made, None)
    ensures PaysAsAsked(outputs, made.hex, destinations, amounts) && ChangeGoes(b, made, destinations, amounts)
  {
    var n;
    destinations, n := BuiltShape(b, done, r, picked, s', made);
    amounts := Amounts(b.config, made.plan.change, destinations);
    AllAsked(outputs, true);
    ShapeGoes(b, done, made, destinations, n);
    ShapePays(b, outputs, done, made, destinations, n);
  }

  /** The resolved outputs of a send-all: the target first, and then what was asked for. */
  lemma ResolvedHead(first: Output, outputs: seq<Output>)
    requires Resolved(outputs, Some(first)).Success?
    ensures var done := Resolved(outputs, Some(first)).value;
      && done != [] && done[0].scripts != [] && Asked(first.(satoshis := 0), done[0].scripts)
      && AskedEach(outputs, ScriptsOf(done[1..]))
  {
    var target := first.(useForChange := true, satoshis := 0);
    ResolvedSendAll(outputs, first);
    ResolvedAsked(first.(satoshis := 0), target, false);
    AllAsked(outputs, false);
  }

  lemma AmountScripts(done: seq<Output>, rest: nat)
    requires done != [] && done[0].scripts != []
    ensures ScriptsOf([WithAmount(done[0], rest)] + done[1..])
         == [[TxOut(done[0].scripts[0].script, rest)] + done[0].scripts[1..]] + ScriptsOf(done[1..])
  {
  }

  lemma PlanRest(config: Config, inputs: seq<Input>, done: seq<Output>, outputs: seq<Output>,
                 given: Option<seq<Script>>)
    requires config.feeUnit.bytes > 0 && done != [] && done[0].scripts != [] && done[0].useForChange
    requires (forall i :: 0 < i < |done| ==> !done[i].useForChange) && OutputTotal(done[1..]) == OutputTotal(outputs)
    ensures var p := SendAllPlan(config, inputs, Funded(done, inputs), given);
      p.outputs == [WithAmount(done[0], U64(InputTotal(inputs) - p.fee - OutputTotal(outputs)))] + done[1..]
  {
    var funded := Funded(done, inputs);
    assert funded[1..] == done[1..];
    UnflaggedTotal(funded);
  }

  lemma RestPays(first: Output, outputs: seq<Output>, done: seq<Output>, hex: seq<TxOut>, rest: nat)
    requires done != [] && done[0].scripts != [] && Asked(first.(satoshis := 0), done[0].scripts)
    requires AskedEach(outputs, ScriptsOf(done[1..]))
    requires hex == Flatten(ScriptsOf([WithAmount(done[0], rest)] + done[1..]))
    ensures PaysAll(first, outputs, hex, rest)
  {
    AmountScripts(done, rest);
    PartsPayAll(first, outputs, done[0].scripts, ScriptsOf(done[1..]), hex, rest);
  }

  /** The resolved outputs of a send-all: empty first, and alone flagged for change. */
  ghost predicate HeadFirst(outputs: seq<Output>, done: seq<Output>) {
    && done != [] && done[0].scripts != [] && done[0].useForChange
    && (forall i :: 0 < i < |done| ==> !done[i].useForChange) && OutputTotal(done[1..]) == OutputTotal(outputs)
  }

  lemma PlanRestHex(config: Config, inputs: seq<Input>, done: seq<Output>, outputs: seq<Output>,
                    given: Option<seq<Script>>, plan: Plan, rest: nat)
    requires config.feeUnit.bytes > 0 && HeadFirst(outputs, done)
    requires plan == SendAllPlan(config, inputs, Funded(done, inputs), given)
    requires rest == U64(InputTotal(inputs) - plan.fee - OutputTotal(outputs))
    ensures ScriptsOf(plan.outputs) == ScriptsOf([WithAmount(done[0], rest)] + done[1..])
  {
    PlanRest(config, inputs, done, outputs, given);
  }

  lemma MadePays(first: Output, outputs: seq<Output>, hex: seq<TxOut>, rest: nat)
    requires Resolved(outputs, Some(first)).Success?
    requires var done := Resolved(outputs, Some(first)).value;
      HeadFirst(outputs, done) && hex == Flatten(ScriptsOf([WithAmount(done[0], rest)] + done[1..]))
    ensures PaysAll(first, outputs, hex, rest)
  {
    ResolvedHead(first, outputs);
    RestPays(first, outputs, Resolved(outputs, Some(first)).value, hex, rest);
  }

  lemma ResolvedHeadFirst(first: Output, outputs: seq<Output>)
    requires Resolved(outputs, Some(first)).Success?
    ensures HeadFirst(outputs, Resolved(outputs, Some(first)).value)
  {
    ResolvedSendAll(outputs, first);
  }

  /** A draft that sends everything pays the rest to its target, and the others what was asked for. */
  lemma SendAllPays(first: Output, outputs: seq<Output>, done: seq<Output>, config: Config, inputs: seq<Input>,
                    given: Option<seq<Script>>, plan: Plan, hex: seq<TxOut>)
    requires config.feeUnit.bytes > 0 && Resolved(outputs, Some(first)) == Success(done) && SendAllOk(done)
    requires plan == SendAllPlan(config, inputs, Funded(done, inputs), given) && hex == Flatten(ScriptsOf(plan.outputs))
    ensures PaysAll(first, outputs, hex, U64(InputTotal(inputs) - plan.fee - OutputTotal(outputs)))
  {
    var rest := U64(InputTotal(inputs) - plan.fee - OutputTotal(outputs));
    ResolvedHeadFirst(first, outputs);
    PlanRestHex(config, inputs, done, outputs, given, plan, rest);
    MadePays(first, outputs, hex, rest);
  }

  /** Whom a built draft pays. */
  ghost predicate DraftPays(b: Before, sendAllTo: Option<Output>, outputs: seq<Output>, made: Built,
                            destinations: seq<Script>, amounts: seq<nat>)
  {
    match sendAllTo
    case None =>
      PaysAsAsked(outputs, made.hex, destinations, amounts) && ChangeGoes(b, made, destinations, amounts)
    case Some(first) =>
      PaysAll(first, outputs, made.hex, U64(InputTotal(made.inputs) - made.plan.fee - OutputTotal(outputs)))
  }

  lemma SendAllPlanned(b: Before, first: Output, outputs: seq<Output>, r: Result<seq<Outpoint>, Error>,
                       picked: seq<Outpoint>, s': State, made: Built)
    requires b.config.feeUnit.bytes > 0 && DraftMade(b, Some(first), outputs, r, picked, s', made, None)
    ensures Resolved(outputs, Some(first)).Success? && SendAllOk(Resolved(outputs, Some(first)).value)
    ensures var done := Resolved(outputs, Some(first)).value;
      made.plan == SendAllPlan(b.config, made.inputs, Funded(done, made.inputs), b.given)
    ensures made.hex == Flatten(ScriptsOf(made.plan.outputs))
  {
    FinishedKinds(made, None);
  }

  lemma PlannedPays(b: Before, first: Output, outputs: seq<Output>, made: Built)
    requires b.config.feeUnit.bytes > 0
    requires Resolved(outputs, Some(first)).Success? && SendAllOk(Resolved(outputs, Some(first)).value)
    requires var done := Resolved(outputs, Some(first)).value;
      made.plan == SendAllPlan(b.config, made.inputs, Funded(done, made.inputs), b.given)
    requires made.hex == Flatten(ScriptsOf(made.plan.outputs))
    ensures DraftPays(b, Some(first), outputs, made, [], [])
  {
    SendAllPays(first, outputs, Resolved(outputs, Some(first)).value, b.config, made.inputs, b.given, made.plan,
                made.hex);
  }

  lemma MadePlainPays(b: Before, outputs: seq<Output>, r: Result<seq<Outpoint>, Error>, picked: seq<Outpoint>,
                      s': State, made: Built)
    returns (destinations: seq<Script>, amounts: seq<nat>)
    requires b.config.feeUnit.bytes > 0 && DraftMade(b, None, outputs, r, picked, s', made, None)
    ensures DraftPays(b, None, outputs, made, destinations, amounts)
  {
    destinations, amounts := PlainPays(b, outputs, Resolved(outputs, None).value, r, picked, s', made);
  }

  /** Every draft that is built pays as it was asked to. */
  lemma MadeDraftPays(b: Before, sendAllTo: Option<Output>, outputs: seq<Output>, r: Result<seq<Outpoint>, Error>,
                      picked: seq<Outpoint>, s': State, made: Built)
    returns (destinations: seq<Script>, amounts: seq<nat>)
    requires b.config.feeUnit.bytes > 0 && DraftMade(b, sendAllTo, outputs, r, picked, s', made, None)
    ensures DraftPays(b, sendAllTo, outputs, made, destinations, amounts)
  {
    if sendAllTo.Some? {
      SendAllPlanned(b, sendAllTo.value, outputs, r, picked, s', made);
      PlannedPays(b, sendAllTo.value, outputs, made);
      destinations, amounts := [], [];
    } else {
      destinations, amounts := MadePlainPays(b, outputs, r, picked, s', made);
    }
  }
}
