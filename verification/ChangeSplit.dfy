/** Splitting the change over the change destinations, by the default and by the random strategy. */
module ChangeSplit {
  import opened Common
  import opened Sums
  import opened Uint64

  datatype Strategy = Default | Random | Nominations

  const TWO63: nat := 0x8000_0000_0000_0000

  /**
   * The share drawn for one of n destinations: the change over n, scaled by a factor between 3/4 and
   * 5/4 that is linear in the draw.
   */
  function Drawn(change: nat, n: nat, draw: nat): nat
    requires n > 0
  {
    FloorDiv(change * (3 * TWO63 + 2 * draw), 4 * TWO63 * n)
  }

  function Total(shares: seq<nat>): nat {
    if shares == [] then 0 else Total(shares[..|shares| - 1]) + shares[|shares| - 1]
  }

  function AllButLast(shares: seq<nat>): seq<nat>
    requires shares != []
  {
    shares[..|shares| - 1]
  }

  /** The last share and the remainder, computed without checks. */
  function LastValue(change: nat, shares: seq<nat>): nat
    requires shares != []
  {
    U64(shares[|shares| - 1] + U64(change - Total(shares)))
  }

  function WithRemainder(change: nat, shares: seq<nat>): seq<nat>
    requires shares != []
  {
    AllButLast(shares) + [LastValue(change, shares)]
  }

  /** The shares add up to the change exactly when those before the last do not exceed it. */
  lemma SharesAddUp(change: nat, shares: seq<nat>)
    requires shares != [] && change < TWO64
    ensures Total(WithRemainder(change, shares)) == change <==> Total(AllButLast(shares)) <= change
    ensures Total(AllButLast(shares)) <= change ==>
      WithRemainder(change, shares)[|shares| - 1] == change - Total(AllButLast(shares))
  {
    var last := shares[|shares| - 1];
    var final := WithRemainder(change, shares);
    assert final[..|final| - 1] == AllButLast(shares);
    Reduce(change - Total(shares), last);
    assert change - Total(shares) + last == change - Total(AllButLast(shares));
  }

  lemma {:induction false} TotalBound(shares: seq<nat>, c: nat, bound: nat)
    requires forall i :: 0 <= i < |shares| ==> c * shares[i] <= bound
    ensures c * Total(shares) <= |shares| * bound
  {
    if shares != [] {
      var n := |shares| - 1;
      TotalBound(shares[..n], c, bound);
      assert c * Total(shares) == c * Total(shares[..n]) + c * shares[n];
      assert |shares| * bound == n * bound + bound;
    }
  }

  lemma DrawnBound(change: nat, n: nat, draw: nat)
    requires n > 0 && draw <= TWO63
    ensures (4 * n) * Drawn(change, n, draw) <= 5 * change
  {
    var share := Drawn(change, n, draw);
    var d := 4 * TWO63 * n;
    assert share * d <= change * (3 * TWO63 + 2 * draw);
    assert change * (3 * TWO63 + 2 * draw) <= change * (5 * TWO63);
    assert share * d == ((4 * n) * share) * TWO63;
    assert change * (5 * TWO63) == (5 * change) * TWO63;
  }

  function DrawnShares(change: nat, draws: seq<nat>): (shares: seq<nat>)
    ensures |shares| == |draws|
  {
    seq(|draws|, i requires 0 <= i < |draws| => Drawn(change, |draws|, draws[i]))
  }

  /** Up to five destinations: whatever is drawn, the shares add up to the change and none wraps. */
  lemma RandomUpToFive(change: nat, draws: seq<nat>)
    requires 0 < |draws| <= 5 && change < TWO64
    requires forall i :: 0 <= i < |draws| ==> draws[i] <= TWO63
    ensures Total(WithRemainder(change, DrawnShares(change, draws))) == change
    ensures forall i :: 0 <= i < |draws| ==> WithRemainder(change, DrawnShares(change, draws))[i] <= change
  {
    var n := |draws|;
    var shares := DrawnShares(change, draws);
    forall i | 0 <= i < n ensures (4 * n) * shares[i] <= 5 * change {
      DrawnBound(change, n, draws[i]);
    }
    var front := AllButLast(shares);
    TotalBound(front, 4 * n, 5 * change);
    assert (n - 1) * (5 * change) <= (4 * n) * change;
    assert Total(front) <= change;
    SharesAddUp(change, shares);
    forall i | 0 <= i < n - 1 ensures front[i] <= change { TotalMember(front, i); }
  }

  lemma {:induction false} TotalMember(shares: seq<nat>, i: nat)
    requires i < |shares|
    ensures shares[i] <= Total(shares)
  {
    if i < |shares| - 1 { TotalMember(shares[..|shares| - 1], i); }
  }

  /** The largest number the generator returns. */
  const MAX_DRAW: nat := TWO63 - 2

  ghost predicate CanBeDrawn(draws: seq<nat>, n: nat) {
    |draws| == n && forall i :: 0 <= i < n ==> draws[i] <= MAX_DRAW
  }

  lemma DrawnMono(change: nat, n: nat, draw: nat, draw': nat)
    requires n > 0 && draw <= draw'
    ensures Drawn(change, n, draw) <= Drawn(change, n, draw')
  {
    var d := 4 * TWO63 * n;
    var r, r' := Drawn(change, n, draw), Drawn(change, n, draw');
    MulMono(change, 3 * TWO63 + 2 * draw, 3 * TWO63 + 2 * draw');
    assert r * d <= change * (3 * TWO63 + 2 * draw) <= change * (3 * TWO63 + 2 * draw') < (r' + 1) * d;
    MulCancel(r, r' + 1, d);
  }

  lemma MulMono(a: nat, x: nat, y: nat)
    requires x <= y
    ensures a * x <= a * y
  {
    assert a * y - a * x == a * (y - x);
  }

  /** No draw exceeds the shares of the largest ones. */
  lemma LargestDraws(change: nat, n: nat, draws: seq<nat>)
    requires n > 0 && CanBeDrawn(draws, n)
    ensures Total(AllButLast(DrawnShares(change, draws))) <= (n - 1) * Drawn(change, n, MAX_DRAW)
  {
    var front := AllButLast(DrawnShares(change, draws));
    forall i | 0 <= i < n - 1 ensures 1 * front[i] <= Drawn(change, n, MAX_DRAW) {
      DrawnMono(change, n, draws[i], MAX_DRAW);
    }
    TotalBound(front, 1, Drawn(change, n, MAX_DRAW));
  }

  lemma AllLargest(change: nat, n: nat) returns (draws: seq<nat>)
    requires n > 0
    ensures CanBeDrawn(draws, n)
    ensures Total(AllButLast(DrawnShares(change, draws))) == (n - 1) * Drawn(change, n, MAX_DRAW)
  {
    draws := seq(n, _ => MAX_DRAW);
    TotalOfEqual(AllButLast(DrawnShares(change, draws)), Drawn(change, n, MAX_DRAW));
  }

  /** The random split is safe for all draws exactly when all destinations but one fit at the largest share. */
  lemma RandomExactly(change: nat, n: nat)
    requires n > 0 && change < TWO64
    ensures (n - 1) * Drawn(change, n, MAX_DRAW) <= change <==>
      forall draws :: CanBeDrawn(draws, n) ==> Total(WithRemainder(change, DrawnShares(change, draws))) == change
  {
    var bound := (n - 1) * Drawn(change, n, MAX_DRAW);
    if bound <= change {
      forall draws | CanBeDrawn(draws, n) ensures Total(WithRemainder(change, DrawnShares(change, draws))) == change {
        LargestDraws(change, n, draws);
        SharesAddUp(change, DrawnShares(change, draws));
      }
    } else {
      var draws := AllLargest(change, n);
      SharesAddUp(change, DrawnShares(change, draws));
    }
  }

  /** Six destinations, and the largest value the generator returns for each: the split exceeds its total by 2^64. */
  lemma RandomSixFails()
    ensures var draw := MAX_DRAW;
      Total(WithRemainder(2400, DrawnShares(2400, [draw, draw, draw, draw, draw, draw]))) == TWO64 + 2400
  {
    var draw := MAX_DRAW;
    var shares := DrawnShares(2400, [draw, draw, draw, draw, draw, draw]);
    assert Drawn(2400, 6, draw) == 499;
    var five := [499, 499, 499, 499, 499];
    assert AllButLast(shares) == five && shares[5] == 499;
    TotalOfFive(499);
    assert Total(shares) == 2994 && LastValue(2400, shares) == TWO64 - 95;
    assert WithRemainder(2400, shares)[..5] == five;
  }

  lemma TotalOfFive(v: nat)
    ensures Total([v, v, v, v, v]) == 5 * v
  {
    assert [v, v, v, v, v][..4] == [v, v, v, v] && [v, v, v, v][..3] == [v, v, v];
    assert [v, v, v][..2] == [v, v] && [v, v][..1] == [v] && [v][..0] == [];
    assert Total([v]) == v && Total([v, v]) == 2 * v && Total([v, v, v]) == 3 * v && Total([v, v, v, v]) == 4 * v;
  }

  /** The shares of the default strategy before the remainder. */
  function EqualShares(change: nat, n: nat): (shares: seq<nat>)
    requires n > 0
    ensures |shares| == n
  {
    seq(n, _ => FloorDiv(change, n))
  }

  lemma {:induction false} TotalOfEqual(shares: seq<nat>, share: nat)
    requires forall i :: 0 <= i < |shares| ==> shares[i] == share
    ensures Total(shares) == |shares| * share
  {
    if shares != [] {
      TotalOfEqual(shares[..|shares| - 1], share);
      assert |shares| * share == (|shares| - 1) * share + share;
    }
  }

  lemma DefaultAddsUp(change: nat, n: nat)
    requires n > 0 && change < TWO64
    ensures Total(WithRemainder(change, EqualShares(change, n))) == change
  {
    var share := FloorDiv(change, n);
    var front := AllButLast(EqualShares(change, n));
    TotalOfEqual(front, share);
    assert (n - 1) * share + share == n * share;
    SharesAddUp(change, EqualShares(change, n));
  }

  // ----- the map from scripts to satoshis -------------------------------------------------------------

  /** The shares a strategy assigns, in the order of the destinations. */
  function Shares(change: nat, n: nat, strategy: Strategy, draws: seq<nat>): (shares: seq<nat>)
    requires n > 0 && (strategy == Random ==> |draws| == n)
    ensures |shares| == n
  {
    if strategy == Random then DrawnShares(change, draws) else EqualShares(change, n)
  }

  /** The share last assigned to script s. */
  function Assigned(destinations: seq<Script>, shares: seq<nat>, s: Script): nat
    requires |destinations| == |shares|
  {
    if destinations == [] then 0 else
      var n := |destinations| - 1;
      if destinations[n] == s then shares[n] else Assigned(destinations[..n], shares[..n], s)
  }

  /** What the map from scripts to satoshis holds in the end: the last script also gets the remainder. */
  function ValueFor(change: nat, destinations: seq<Script>, shares: seq<nat>, s: Script): nat
    requires |destinations| == |shares| && destinations != []
  {
    var n := |destinations| - 1;
    if s == destinations[n] then LastValue(change, shares) else Assigned(destinations, shares, s)
  }

  /** What each destination is paid, read from the map by its script. */
  function Split(change: nat, destinations: seq<Script>, shares: seq<nat>): (values: seq<nat>)
    requires |destinations| == |shares|
    ensures |values| == |destinations|
  {
    seq(|destinations|, i requires 0 <= i < |destinations| => ValueFor(change, destinations, shares, destinations[i]))
  }

  /** The loop over the destinations: a later destination with the same script overwrites the share. */
  method AssignShares(change: nat, destinations: seq<Script>, strategy: Strategy, draws: seq<nat>)
    returns (values: map<Script, nat>, used: nat)
    requires destinations != [] && |draws| == |destinations| && strategy != Nominations
    ensures var shares := Shares(change, |destinations|, strategy, draws);
      && used == U64(Total(shares))
      && forall j :: 0 <= j < |destinations| ==>
           destinations[j] in values && values[destinations[j]] == Assigned(destinations, shares, destinations[j])
  {
    var n := |destinations|;
    ghost var shares := Shares(change, n, strategy, draws);
    values, used := map[], 0;
    var i := 0;
    assert shares[..0] == [];
    while i < n
      invariant 0 <= i <= n && used == U64(Total(shares[..i]))
      invariant forall j :: 0 <= j < i ==>
        destinations[j] in values
          && values[destinations[j]] == Assigned(destinations[..i], shares[..i], destinations[j])
    {
      var share := if strategy == Random then Drawn(change, n, draws[i]) else FloorDiv(change, n);
      used := AddShare(used, share, shares, i);
      values := values[destinations[i] := share];
      assert destinations[..i + 1][..i] == destinations[..i] && shares[..i + 1][..i] == shares[..i];
      i := i + 1;
    }
    assert shares[..n] == shares && destinations[..n] == destinations;
  }

  function AddShare(used: nat, share: nat, ghost shares: seq<nat>, ghost i: nat): (r: nat)
    requires i < |shares| && share == shares[i] && used == U64(Total(shares[..i]))
    ensures r == U64(Total(shares[..i + 1]))
  {
    assert shares[..i + 1][..i] == shares[..i];
    Reduce(Total(shares[..i]), share);
    U64(used + share)
  }

  /** Assigns the shares, and what is left to the last script. */
  method GetChangeSatoshis(change: nat, destinations: seq<Script>, strategy: Strategy, draws: seq<nat>)
    returns (r: Result<map<Script, nat>, Error>)
    requires |draws| == |destinations|
    ensures strategy == Nominations ==> r == Failure(ErrChangeStrategyNotImplemented)
    ensures strategy != Nominations ==> r.Success?
    ensures strategy != Nominations && destinations != [] ==>
      Holds(r.value, destinations, Split(change, destinations, Shares(change, |destinations|, strategy, draws)))
  {
    if strategy == Nominations { return Failure(ErrChangeStrategyNotImplemented); }
    if destinations == [] { return Success(map[]); }
    var values, used := AssignShares(change, destinations, strategy, draws);
    ghost var shares := Shares(change, |destinations|, strategy, draws);
    var last := destinations[|destinations| - 1];
    assert values[last] == shares[|shares| - 1];
    LastValueReduced(change, shares, used);
    var final := U64(values[last] + U64(change - used));
    AddRemainder(change, destinations, shares, values, final);
    r := Success(values[last := final]);
  }

  /** The map gives each destination its value. */
  predicate Holds(paid: map<Script, nat>, destinations: seq<Script>, values: seq<nat>)
    requires |values| == |destinations|
  {
    forall i :: 0 <= i < |destinations| ==> destinations[i] in paid && paid[destinations[i]] == values[i]
  }

  lemma AddRemainder(change: nat, destinations: seq<Script>, shares: seq<nat>, values: map<Script, nat>, final: nat)
    requires |shares| == |destinations| && destinations != []
    requires final == LastValue(change, shares)
    requires forall j :: 0 <= j < |destinations| ==>
      destinations[j] in values && values[destinations[j]] == Assigned(destinations, shares, destinations[j])
    ensures Holds(values[destinations[|destinations| - 1] := final], destinations, Split(change, destinations, shares))
  {
    var last := destinations[|destinations| - 1];
    forall i | 0 <= i < |destinations|
      ensures destinations[i] in values[last := final]
      ensures values[last := final][destinations[i]] == ValueFor(change, destinations, shares, destinations[i])
    {
    }
  }

  lemma LastValueReduced(change: nat, shares: seq<nat>, used: nat)
    requires shares != [] && used == U64(Total(shares))
    ensures U64(shares[|shares| - 1] + U64(change - used)) == LastValue(change, shares)
  {
    SubtractReduced(change, Total(shares));
  }

  lemma SubtractReduced(x: int, y: int)
    ensures U64(x - U64(y)) == U64(x - y)
  {
    var q := y / TWO64;
    var p := (x - y) / TWO64;
    assert U64(y) == y - TWO64 * q && U64(x - y) == x - y - TWO64 * p;
    assert x - U64(y) == TWO64 * (p + q) + U64(x - y);
  }

  // ----- what the destinations receive ------------------------------------------------------------------

  lemma {:induction false} AssignedDistinct(destinations: seq<Script>, shares: seq<nat>, i: nat)
    requires |destinations| == |shares| && i < |shares| && Distinct(destinations)
    ensures Assigned(destinations, shares, destinations[i]) == shares[i]
  {
    var n := |destinations| - 1;
    if i < n { AssignedDistinct(destinations[..n], shares[..n], i); }
  }

  /** With distinct scripts nothing is overwritten. */
  lemma SplitDistinct(change: nat, destinations: seq<Script>, shares: seq<nat>)
    requires |destinations| == |shares| && shares != [] && Distinct(destinations)
    ensures Split(change, destinations, shares) == WithRemainder(change, shares)
  {
    var n := |shares| - 1;
    DistinctIndices(destinations);
    forall i | 0 <= i < n
      ensures Split(change, destinations, shares)[i] == shares[i]
    {
      AssignedDistinct(destinations, shares, i);
    }
  }

  /** Distinct scripts, and the default strategy or a random one over at most five: no satoshi is lost. */
  lemma SplitAddsUp(change: nat, destinations: seq<Script>, strategy: Strategy, draws: seq<nat>)
    requires destinations != [] && Distinct(destinations) && strategy != Nominations && change < TWO64
    requires |draws| == |destinations|
    requires strategy == Random ==> |destinations| <= 5 && forall i :: 0 <= i < |draws| ==> draws[i] <= TWO63
    ensures Total(Split(change, destinations, Shares(change, |destinations|, strategy, draws))) == change
  {
    SplitDistinct(change, destinations, Shares(change, |destinations|, strategy, draws));
    if strategy == Random { RandomUpToFive(change, draws); } else { DefaultAddsUp(change, |destinations|); }
  }

  // ----- destinations with equal scripts ----------------------------------------------------------------

  function Count(destinations: seq<Script>, s: Script): nat {
    if destinations == [] then 0 else
      var n := |destinations| - 1;
      Count(destinations[..n], s) + if destinations[n] == s then 1 else 0
  }

  lemma {:induction false} AssignedEqual(destinations: seq<Script>, shares: seq<nat>, s: Script, share: nat)
    requires |destinations| == |shares| && s in destinations
    requires forall i :: 0 <= i < |shares| ==> shares[i] == share
    ensures Assigned(destinations, shares, s) == share
  {
    var n := |destinations| - 1;
    if destinations[n] != s {
      assert s in destinations[..n] by { assert destinations == destinations[..n] + [destinations[n]]; }
      AssignedEqual(destinations[..n], shares[..n], s, share);
    }
  }

  lemma OneMore(n: nat, share: nat, c: nat, rest: nat)
    ensures (n + 1) * share == n * share + share && (c + 1) * rest == c * rest + rest
  {
  }

  lemma {:induction false} TotalByCount(destinations: seq<Script>, values: seq<nat>, last: Script, share: nat,
                                        rest: nat)
    requires |destinations| == |values|
    requires forall i :: 0 <= i < |values| ==> values[i] == if destinations[i] == last then share + rest else share
    ensures Total(values) == |values| * share + Count(destinations, last) * rest
  {
    if values != [] {
      var n := |values| - 1;
      TotalByCount(destinations[..n], values[..n], last, share, rest);
      OneMore(n, share, Count(destinations[..n], last), rest);
    }
  }

  /** What the default strategy leaves for the last script. */
  function Remainder(change: nat, n: nat): nat
    requires n > 0
  {
    change - n * FloorDiv(change, n)
  }

  lemma DefaultRemainder(change: nat, n: nat)
    requires n > 0 && change < TWO64
    ensures U64(FloorDiv(change, n) + U64(change - Total(EqualShares(change, n))))
      == FloorDiv(change, n) + Remainder(change, n)
  {
    var share := FloorDiv(change, n);
    TotalOfEqual(EqualShares(change, n), share);
    assert n * share == (n - 1) * share + share && (n - 1) * share >= 0;
  }

  lemma DefaultValues(change: nat, destinations: seq<Script>, i: nat)
    requires i < |destinations| && change < TWO64
    ensures var n := |destinations|;
      Split(change, destinations, EqualShares(change, n))[i]
      == if destinations[i] == destinations[n - 1] then FloorDiv(change, n) + Remainder(change, n)
        else FloorDiv(change, n)
  {
    var n := |destinations|;
    DefaultRemainder(change, n);
    AssignedEqual(destinations, EqualShares(change, n), destinations[i], FloorDiv(change, n));
  }

  lemma DefaultTotal(change: nat, destinations: seq<Script>)
    requires destinations != [] && change < TWO64
    ensures var n := |destinations|;
      Total(Split(change, destinations, EqualShares(change, n)))
      == n * FloorDiv(change, n) + Count(destinations, destinations[n - 1]) * Remainder(change, n)
  {
    var n := |destinations|;
    var values := Split(change, destinations, EqualShares(change, n));
    var share, rest := FloorDiv(change, n), Remainder(change, n);
    forall i | 0 <= i < n ensures values[i] == if destinations[i] == destinations[n - 1] then share + rest else share {
      DefaultValues(change, destinations, i);
    }
    TotalByCount(destinations, values, destinations[n - 1], share, rest);
  }

  lemma OnceOrNothing(total: int, whole: int, c: int, rest: int)
    requires total == whole + c * rest
    ensures total == whole + rest <==> rest == 0 || c == 1
  {
    assert (c - 1) * rest == c * rest - rest;
    ProductZero(c - 1, rest);
  }

  /**
   * The default strategy loses or makes no satoshi exactly when the change divides evenly or the last
   * script is used once.
   */
  lemma EqualScripts(change: nat, destinations: seq<Script>)
    requires destinations != [] && change < TWO64
    ensures var n := |destinations|;
      Total(Split(change, destinations, EqualShares(change, n))) == change
      <==> Remainder(change, n) == 0 || Count(destinations, destinations[n - 1]) == 1
  {
    var n := |destinations|;
    var whole := n * FloorDiv(change, n);
    DefaultTotal(change, destinations);
    OnceOrNothing(Total(Split(change, destinations, EqualShares(change, n))), whole,
                  Count(destinations, destinations[n - 1]), Remainder(change, n));
  }
}
