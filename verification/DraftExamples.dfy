/** Small configurations for which the builder departs from what it promises. */
module DraftExamples {
  import opened Common
  import opened Sums
  import opened Uint64
  import opened ChangeSplit
  import opened DraftMath
  import opened DraftPaths

  /** One satoshi for 20 bytes, the default strategy, and outputs of 34 bytes. */
  const EXAMPLE := Config(FeeUnit(1, 20), Default, 0, 0, (i: nat) => 0, (s: Script) => 34)

  function Worth(satoshis: nat): seq<Input> { [Input(Outpoint("a", 0), satoshis, PubKeyHash)] }

  const ONE_INPUT := Worth(1011)

  function Payment(satoshis: nat): Output { Output(Address(Foreign("to", PubKeyHash)), satoshis, [], false) }

  function Paid(satoshis: nat): Output {
    Payment(satoshis).(scripts := [TxOut(Foreign("to", PubKeyHash), satoshis)])
  }

  lemma PaymentResolves(satoshis: nat, keepChange: bool)
    requires satoshis > 0
    ensures ProcessOutputs([Payment(satoshis)], keepChange) == Success([Paid(satoshis)])
  {
    assert [Payment(satoshis)][..0] == [] && ProcessOutputs([], keepChange) == Success([]);
    assert WithFlag(Payment(satoshis), keepChange) == Payment(satoshis);
    assert [] + [TxOut(Foreign("to", PubKeyHash), satoshis)] == Paid(satoshis).scripts;
    assert ProcessOutput(Payment(satoshis), true) == Success(Paid(satoshis));
    assert [] + [Paid(satoshis)] == [Paid(satoshis)];
  }

  lemma WorthTotal(satoshis: nat)
    ensures InputTotal(Worth(satoshis)) == satoshis && InputSizes(Worth(satoshis)) == 148
  {
    assert Worth(satoshis)[..0] == [];
  }

  lemma OneOutputTotal(o: Output)
    requires |o.scripts| == 1
    ensures OutputTotal([o]) == o.satoshis && OutputSizes([o], EXAMPLE.size) == 34
    ensures Flagged([o]) == if o.useForChange then 1 else 0
  {
    var list := [o];
    assert list[..0] == [] && o.scripts[..0] == [];
    assert OutputTotal(list[..0]) == 0 && Flagged(list[..0]) == 0 && OutputSizes(list[..0], EXAMPLE.size) == 0;
    assert ScriptSizes(o.scripts, EXAMPLE.size) == 34;
  }

  lemma ExampleFee(size: nat, fee: nat)
    requires (fee - 1) * 20 < size <= fee * 20
    ensures FeeFor(EXAMPLE.feeUnit, size) == fee
  {
  }

  lemma ExampleLeft()
    ensures Fee(EXAMPLE, ONE_INPUT, [Paid(1000)], 0) == 10 && Left(ONE_INPUT, [Paid(1000)], 10) == 1
    ensures Fee(EXAMPLE, ONE_INPUT, [Paid(1000)], CHANGE_OUTPUT_SIZE) == 12
      && Left(ONE_INPUT, [Paid(1000)], 12) == TWO64 - 1
    ensures OutputTotal([Paid(1000)]) == 1000 && Flagged([Paid(1000)]) == 0 && InputTotal(ONE_INPUT) == 1011
  {
    WorthTotal(1011);
    OneOutputTotal(Paid(1000));
    ExampleFee(192, 10);
    ExampleFee(227, 12);
  }

  lemma ExamplePlan()
    ensures var p := NewChangePlan(EXAMPLE, ONE_INPUT, [Paid(1000)], None, "x", 0);
      p.fee == 12 && p.change == TWO64 - 1 && p.destinations.Some? && Splits(EXAMPLE, p.destinations.value)
  {
    ExampleLeft();
    assert NumberOfDestinations(EXAMPLE, 1) == 1;
    AddressesDistinct("x", 0, 1);
  }

  /**
   * A payment of 1000 from an input of 1011, at 10 satoshis of fee: one satoshi of change is left and its
   * output costs two more. The change wraps, the draft is not conserved, and the final check passes.
   */
  lemma ChangeFeeWraps()
    ensures var done := ProcessOutputs([Payment(1000)], true);
      && done.Success?
      && var p := ChangePlan(EXAMPLE, ONE_INPUT, done.value, None, "x", 0);
      && !FallsShort(EXAMPLE, ONE_INPUT, done.value) && Sane(EXAMPLE, ONE_INPUT, done.value, None, "x", 0)
      && p.fee == 12 && p.change == TWO64 - 1
      && FinalCheck(ONE_INPUT, p.outputs, p.fee).None? && !Conserved(ONE_INPUT, p.outputs, p.fee)
  {
    PaymentResolves(1000, true);
    ExampleLeft();
    ExamplePlan();
    FinalCheckBlind(EXAMPLE, ONE_INPUT, [Paid(1000)], None, "x", 0);
    NewChangeConserves(EXAMPLE, ONE_INPUT, [Paid(1000)], None, "x", 0);
  }

  lemma SendAllResolves()
    ensures Resolved([Payment(1005)], Some(Payment(0))) == Success([Paid(0).(useForChange := true), Paid(1005)])
  {
    var first := Paid(0).(useForChange := true);
    PaymentResolves(1005, false);
    assert [] + [TxOut(Foreign("to", PubKeyHash), 0)] == first.scripts;
    assert ProcessOutput(Payment(0).(useForChange := true, satoshis := 0), false) == Success(first);
    assert [first] + [Paid(1005)] == [first, Paid(1005)];
  }

  /** Sending everything besides a payment of 1005, at 12 satoshis of fee, wraps in the same way. */
  lemma SendAllWraps()
    ensures var done := Resolved([Payment(1005)], Some(Payment(0)));
      && done.Success? && done.value != [] && done.value[0].scripts != []
      && var p := SendAllPlan(EXAMPLE, ONE_INPUT, done.value, None);
      && p.fee == 12 && p.outputs[0].satoshis == TWO64 - 6
      && FinalCheck(ONE_INPUT, p.outputs, p.fee).None? && !Conserved(ONE_INPUT, p.outputs, p.fee)
  {
    var first := Paid(0).(useForChange := true);
    var outputs := [first, Paid(1005)];
    SendAllResolves();
    WorthTotal(1011);
    OneOutputTotal(first);
    OneOutputTotal(Paid(1005));
    assert outputs[..1] == [first] && outputs[1..] == [Paid(1005)];
    assert OutputSizes(outputs, EXAMPLE.size) == 68 by { assert Paid(1005).scripts[..0] == []; }
    ExampleFee(226, 12);
    UnflaggedTotal(outputs);
    var p := SendAllPlan(EXAMPLE, ONE_INPUT, outputs, None);
    assert p.outputs[0].satoshis == TWO64 - 6;
    SendAllConserves(EXAMPLE, ONE_INPUT, outputs, None);
    var all := p.outputs;
    assert all == [all[0], Paid(1005)] && all[..1] == [all[0]] && all[..1][..0] == [];
    assert OutputTotal(all) == TWO64 - 6 + 1005;
  }

  // ----- six random change outputs ----------------------------------------------------------------------

  /** Six change destinations of at least 400 satoshis, and the largest random numbers. */
  const SIX := EXAMPLE.(strategy := Random, minimumSatoshis := 400, numberOfDestinations := 6,
                        draw := (i: nat) => MAX_DRAW)

  lemma SixLeft()
    ensures Fee(SIX, Worth(3421), [Paid(1000)], 0) == 10 && Left(Worth(3421), [Paid(1000)], 10) == 2411
    ensures Fee(SIX, Worth(3421), [Paid(1000)], 6 * CHANGE_OUTPUT_SIZE) == 21
      && Left(Worth(3421), [Paid(1000)], 21) == 2400
    ensures OutputTotal([Paid(1000)]) == 1000 && Flagged([Paid(1000)]) == 0 && InputTotal(Worth(3421)) == 3421
    ensures NumberOfDestinations(SIX, 2411) == 6
  {
    WorthTotal(3421);
    OneOutputTotal(Paid(1000));
    ExampleFee(192, 10);
    ExampleFee(402, 21);
  }

  lemma SixOutputsTotal(destinations: seq<Script>)
    requires |destinations| == 6 && Distinct(destinations)
    ensures OutputTotal(NewOutputs(SIX, 2400, destinations)) == TWO64 + 2400
  {
    var draw := MAX_DRAW;
    assert Draws(SIX, 6) == [draw, draw, draw, draw, draw, draw];
    var shares := DrawnShares(2400, Draws(SIX, 6));
    RandomSixFails();
    SplitDistinct(2400, destinations, shares);
    ChangeOutputsTotal(destinations, Split(2400, destinations, shares));
  }

  /**
   * A payment of 1000 from an input of 3421 leaves 2400 for six random change outputs, which the configuration
   * allows. They are worth 2^64 too much, and the final check passes.
   */
  lemma SixOutputsWrap()
    ensures ProcessOutputs([Payment(1000)], true) == Success([Paid(1000)])
    ensures var p := ChangePlan(SIX, Worth(3421), [Paid(1000)], None, "x", 0);
      && !FallsShort(SIX, Worth(3421), [Paid(1000)]) && p.fee == 21 && p.change == 2400
      && OutputTotal(p.outputs) == TWO64 + 3400
      && FinalCheck(Worth(3421), p.outputs, p.fee).None? && !Conserved(Worth(3421), p.outputs, p.fee)
  {
    PaymentResolves(1000, true);
    SixLeft();
    AddressesDistinct("x", 0, 6);
    var destinations := Addresses("x", 0, 6);
    var added := NewOutputs(SIX, 2400, destinations);
    SixOutputsTotal(destinations);
    OutputTotalConcat([Paid(1000)], added);
    FinalCheckReduced(Worth(3421), [Paid(1000)] + added, 21);
  }

  // ----- change on an existing output ---------------------------------------------------------------------

  function Flag(o: Output): Output { o.(useForChange := true) }

  lemma FlaggedResolves()
    ensures ProcessOutputs([Flag(Payment(1000))], true) == Success([Flag(Paid(1000))])
  {
    var o := Flag(Payment(1000));
    assert [o][..0] == [] && ProcessOutputs([], true) == Success([]);
    assert WithFlag(o, true) == o;
    assert [] + [TxOut(Foreign("to", PubKeyHash), 1000)] == Flag(Paid(1000)).scripts;
    assert ProcessOutput(o, true) == Success(Flag(Paid(1000)));
    assert [] + [Flag(Paid(1000))] == [Flag(Paid(1000))];
  }

  lemma FlaggedLeft()
    ensures Fee(EXAMPLE, Worth(5010), [Flag(Paid(1000))], 0) == 10 && Left(Worth(5010), [Flag(Paid(1000))], 10) == 4000
    ensures OutputTotal([Flag(Paid(1000))]) == 1000 && Flagged([Flag(Paid(1000))]) == 1
    ensures InputTotal(Worth(5010)) == 5010 && AllMatch([Flag(Paid(1000))])
  {
    WorthTotal(5010);
    OneOutputTotal(Flag(Paid(1000)));
    ExampleFee(192, 10);
    assert Paid(1000).scripts[..0] == [];
  }

  /**
   * A payment of 1000 from an input of 5010 that takes the change itself: the configuration says 5000, the
   * raw transaction pays 1000, and the final check passes.
   */
  lemma FlaggedChangeLost()
    ensures ProcessOutputs([Flag(Payment(1000))], true) == Success([Flag(Paid(1000))])
    ensures var p := ChangePlan(EXAMPLE, Worth(5010), [Flag(Paid(1000))], None, "x", 0);
      && !FallsShort(EXAMPLE, Worth(5010), [Flag(Paid(1000))]) && p.fee == 10 && p.change == 4000
      && OutputTotal(p.outputs) == 5000 && HexTotal(p.outputs) == 1000
      && FinalCheck(Worth(5010), p.outputs, p.fee).None?
  {
    FlaggedResolves();
    FlaggedLeft();
    PlanHex(EXAMPLE, Worth(5010), [Flag(Paid(1000))], None, "x", 0);
    ToFlaggedTotal([Flag(Paid(1000))], 4000);
    FinalCheckReduced(Worth(5010), ToFlagged([Flag(Paid(1000))], 4000), 10);
  }
}
