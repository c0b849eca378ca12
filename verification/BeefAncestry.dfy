/** The ancestry of a transaction in a store: what a BEEF must contain, on values. */
module BeefAncestry {
  import opened Common
  import opened Sums

  // ----- the store and the ancestry --------------------------------------------------------------------

  /** A stored transaction: the ids its inputs spend, if its hex can be read, and its Merkle path. */
  datatype Record = Record(sources: Option<seq<Option<TxId>>>, mined: bool, pathReadable: bool)
  {
    predicate Decodes() { sources.Some? && (mined ==> pathReadable) }
  }

  datatype BeefError = MissingTransactions(ids: seq<TxId>) | Undecodable(id: TxId)

  /** A subject and the store its ancestors are looked up in. */
  datatype Ancestry = Ancestry(store: map<TxId, Record>, id: TxId, sources: seq<Option<TxId>>)
  {
    function SourcesOf(x: TxId): seq<Option<TxId>> {
      if x == id then sources
      else if x in store && store[x].sources.Some? then store[x].sources.value
      else []
    }

    /** Whether the inputs of x belong to the ancestry: x is the subject or not mined. */
    predicate Expands(x: TxId) { x == id || (x in store && !store[x].mined) }

    /** t contains the subject and the inputs of all its members that are not mined. */
    ghost predicate Closed(t: set<TxId>) {
      id in t && forall x, y :: x in t && Expands(x) && Some(y) in SourcesOf(x) ==> y in t
    }

    /** All inputs needed for t are in the store and can be read. */
    ghost predicate Supplied(t: set<TxId>) {
      forall x, y :: x in t && Expands(x) && Some(y) in SourcesOf(x) ==> y in store && store[y].Decodes()
    }

    /** x is in every closed set, and so in the least one. */
    ghost predicate Needed(x: TxId) { forall t :: Closed(t) ==> x in t }
  }

  // ----- ids ------------------------------------------------------------------------------------------------

  /** The ids without repetition, in the order of their first occurrence. */
  function Uniq(ids: seq<TxId>): seq<TxId> {
    if ids == [] then [] else
      var n := |ids| - 1;
      var before := Uniq(ids[..n]);
      if ids[n] in before then before else before + [ids[n]]
  }

  function Named(sources: seq<Option<TxId>>): seq<TxId> {
    if sources == [] then [] else
      var n := |sources| - 1;
      Named(sources[..n]) + if sources[n].Some? then [sources[n].value] else []
  }

  function NotIn(store: map<TxId, Record>, ids: seq<TxId>): seq<TxId> {
    if ids == [] then [] else
      var n := |ids| - 1;
      NotIn(store, ids[..n]) + if ids[n] in store then [] else [ids[n]]
  }

  function Found(store: map<TxId, Record>, ids: seq<TxId>): seq<TxId> {
    if ids == [] then [] else
      var n := |ids| - 1;
      Found(store, ids[..n]) + if ids[n] in store then [ids[n]] else []
  }

  /** Nothing is missing exactly when as many are found as were asked for. */
  lemma {:induction false} FoundOrMissing(store: map<TxId, Record>, ids: seq<TxId>)
    ensures |Found(store, ids)| + |NotIn(store, ids)| == |ids|
    ensures NotIn(store, ids) == [] ==> Found(store, ids) == ids
    ensures forall x :: x in Found(store, ids) <==> x in ids && x in store
  {
    if ids != [] {
      FoundOrMissing(store, ids[..|ids| - 1]);
      assert ids == ids[..|ids| - 1] + [ids[|ids| - 1]];
    }
  }

  /** The store answers in the order of the ids. */
  method GetTransactionsByIDs(store: map<TxId, Record>, ids: seq<TxId>) returns (found: seq<TxId>)
    ensures found == Found(store, ids)
  {
    found := [];
    var i := 0;
    assert ids[..0] == [];
    while i < |ids|
      invariant 0 <= i <= |ids| && found == Found(store, ids[..i])
    {
      assert ids[..i + 1][..i] == ids[..i];
      if ids[i] in store { found := found + [ids[i]]; }
      i := i + 1;
    }
    assert ids[..i] == ids;
  }

  method GetMissingTxs(ghost store: map<TxId, Record>, ids: seq<TxId>, found: seq<TxId>) returns (missing: seq<TxId>)
    requires found == Found(store, ids)
    ensures missing == NotIn(store, ids)
  {
    missing := [];
    var i := 0;
    assert ids[..0] == [];
    while i < |ids|
      invariant 0 <= i <= |ids| && missing == NotIn(store, ids[..i])
    {
      assert ids[..i + 1][..i] == ids[..i];
      FoundMember(store, ids, i);
      if ids[i] !in found { missing := missing + [ids[i]]; }
      i := i + 1;
    }
    assert ids[..i] == ids;
  }

  lemma FoundMember(store: map<TxId, Record>, ids: seq<TxId>, i: nat)
    requires i < |ids|
    ensures ids[i] in Found(store, ids) <==> ids[i] in store
  {
    FoundOrMissing(store, ids);
  }

  method UniqIds(ids: seq<TxId>) returns (unique: seq<TxId>)
    ensures unique == Uniq(ids)
  {
    unique := [];
    var i := 0;
    assert ids[..0] == [];
    while i < |ids|
      invariant 0 <= i <= |ids| && unique == Uniq(ids[..i])
    {
      assert ids[..i + 1][..i] == ids[..i];
      if ids[i] !in unique { unique := unique + [ids[i]]; }
      i := i + 1;
    }
    assert ids[..i] == ids;
  }

  method NamedSources(sources: seq<Option<TxId>>) returns (ids: seq<TxId>)
    ensures ids == Named(sources)
  {
    ids := [];
    var i := 0;
    assert sources[..0] == [];
    while i < |sources|
      invariant 0 <= i <= |sources| && ids == Named(sources[..i])
    {
      assert sources[..i + 1][..i] == sources[..i];
      if sources[i].Some? { ids := ids + [sources[i].value]; }
      i := i + 1;
    }
    assert sources[..i] == sources;
  }

  lemma {:induction false} UniqMembers(ids: seq<TxId>)
    ensures Distinct(Uniq(ids)) && forall x :: x in Uniq(ids) <==> x in ids
  {
    if ids != [] {
      var n := |ids| - 1;
      UniqMembers(ids[..n]);
      assert ids == ids[..n] + [ids[n]];
      var before := Uniq(ids[..n]);
      if ids[n] !in before { assert (before + [ids[n]])[..|before|] == before; }
    }
  }

  lemma {:induction false} NamedMembers(sources: seq<Option<TxId>>)
    ensures forall x :: x in Named(sources) <==> Some(x) in sources
  {
    if sources != [] {
      NamedMembers(sources[..|sources| - 1]);
      assert sources == sources[..|sources| - 1] + [sources[|sources| - 1]];
    }
  }

  lemma {:induction false} NotInMembers(store: map<TxId, Record>, ids: seq<TxId>)
    ensures forall x :: x in NotIn(store, ids) <==> x in ids && x !in store
  {
    if ids != [] {
      NotInMembers(store, ids[..|ids| - 1]);
      assert ids == ids[..|ids| - 1] + [ids[|ids| - 1]];
    }
  }

  /** The ids an expansion of x looks up. */
  function Inputs(a: Ancestry, x: TxId): seq<TxId> { Uniq(Named(a.SourcesOf(x))) }

  lemma InputsMembers(a: Ancestry, x: TxId)
    ensures Distinct(Inputs(a, x)) && forall y :: y in Inputs(a, x) <==> Some(y) in a.SourcesOf(x)
  {
    NamedMembers(a.SourcesOf(x));
    UniqMembers(Named(a.SourcesOf(x)));
  }

  predicate AllSupplied(store: map<TxId, Record>, ys: seq<TxId>) {
    forall i :: 0 <= i < |ys| ==> ys[i] in store && store[ys[i]].Decodes()
  }

  /** The first of ys that cannot be read. */
  function Refusal(store: map<TxId, Record>, ys: seq<TxId>): Option<BeefError> {
    if ys == [] then None
    else if ys[0] !in store || !store[ys[0]].Decodes() then Some(Undecodable(ys[0]))
    else Refusal(store, ys[1..])
  }

  /** What stops an expansion with inputs ys: all that are missing, or else the first that cannot be read. */
  function Stop(store: map<TxId, Record>, ys: seq<TxId>): Option<BeefError> {
    var missing := NotIn(store, ys);
    if missing != [] then Some(MissingTransactions(missing)) else Refusal(store, ys)
  }

  lemma {:induction false} RefusalExact(store: map<TxId, Record>, ys: seq<TxId>)
    ensures Refusal(store, ys).None? <==> AllSupplied(store, ys)
  {
    if ys != [] { RefusalExact(store, ys[1..]); }
  }

  lemma StopExact(store: map<TxId, Record>, ys: seq<TxId>)
    ensures Stop(store, ys).None? <==> AllSupplied(store, ys)
  {
    RefusalExact(store, ys);
    NotInMembers(store, ys);
    if NotIn(store, ys) != [] { assert NotIn(store, ys)[0] in NotIn(store, ys); }
  }

  // ----- what is needed -----------------------------------------------------------------------------------

  lemma NeededInput(a: Ancestry, x: TxId, y: TxId)
    requires a.Needed(x) && a.Expands(x) && Some(y) in a.SourcesOf(x)
    ensures a.Needed(y)
  {
  }

  /** The whole ancestry is in the store and can be read. */
  ghost predicate Complete(a: Ancestry) { exists t :: a.Closed(t) && a.Supplied(t) }

  /** The subject first, nothing twice, and exactly the least closed set. */
  ghost predicate IsClosure(a: Ancestry, ids: seq<TxId>) {
    && ids != [] && ids[0] == a.id && Distinct(ids)
    && a.Closed(Elements(ids)) && a.Supplied(Elements(ids))
    && forall x :: x in ids ==> a.Needed(x)
  }

  // ----- what is read twice ------------------------------------------------------------------------------------

  /** x is expanded: needed, and the subject or not mined. */
  ghost predicate Expanded(a: Ancestry, x: TxId) { a.Needed(x) && a.Expands(x) }

  /** y is an input of two expanded transactions, or of one if it is the subject. */
  ghost predicate Reused(a: Ancestry, y: TxId) {
    exists x, x' ::
      && Expanded(a, x) && Some(y) in a.SourcesOf(x) && Expanded(a, x') && Some(y) in a.SourcesOf(x')
      && (x != x' || y == a.id)
  }

  /** The stored y is not mined and names inputs. */
  predicate Incomplete(a: Ancestry, y: TxId) {
    y in a.store && !a.store[y].mined && a.store[y].sources.Some? && HasNamed(a.store[y].sources.value)
  }

  predicate HasNamed(sources: seq<Option<TxId>>) { exists i :: 0 <= i < |sources| && sources[i].Some? }

  // ----- an example -----------------------------------------------------------------------------------------------

  /** S spends A and B, A spends B, and B spends C, which is mined. */
  const EXAMPLE := Ancestry(
    map["A" := Record(Some([Some("B")]), false, false), "B" := Record(Some([Some("C")]), false, false),
        "C" := Record(Some([None]), true, true)],
    "S", [Some("A"), Some("B")])

  lemma ExampleComplete()
    ensures Complete(EXAMPLE)
  {
    var a, t := EXAMPLE, {"S", "A", "B", "C"};
    assert a.SourcesOf("S") == [Some("A"), Some("B")] && a.SourcesOf("A") == [Some("B")];
    assert a.SourcesOf("B") == [Some("C")] && !a.Expands("C");
    assert a.Closed(t) && a.Supplied(t);
  }

  /** In the example nothing is missing, and B is reused, not mined and spends C. */
  lemma SharedParent()
    ensures Complete(EXAMPLE) && Reused(EXAMPLE, "B") && Incomplete(EXAMPLE, "B")
  {
    ExampleComplete();
    var s, b := EXAMPLE.SourcesOf("S"), EXAMPLE.store["B"].sources.value;
    assert s[0] == Some("A") && s[1] == Some("B") && EXAMPLE.SourcesOf("A")[0] == Some("B") && b[0].Some?;
    NeededInput(EXAMPLE, "S", "A");
    assert Expanded(EXAMPLE, "S") && Expanded(EXAMPLE, "A");
  }
}
