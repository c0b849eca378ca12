/**
 * The worklist on numbers: the objects read from the store are numbered in the order in which they are
 * read, the subject first, and the state says which are listed, queued and linked.
 */
module BeefRun {
  import opened Common
  import opened Sums
  import opened BeefAncestry

  /**
   * `ids` has the id of each object, `index` the first object with an id. An expanded object n is linked to
   * the objects from starts[n] on, one for each of its inputs in order; any other object is linked to none.
   */
  datatype Work = Work(ids: seq<TxId>, index: map<TxId, nat>, visited: set<TxId>, queue: seq<nat>, list: seq<nat>,
                       starts: map<nat, nat>)

  function Start(a: Ancestry): Work { Work([a.id], map[a.id := 0], {}, [0], [0], map[]) }

  function StoredSources(a: Ancestry, y: TxId): seq<Option<TxId>> {
    if y in a.store && a.store[y].sources.Some? then a.store[y].sources.value else []
  }

  function SourcesAt(a: Ancestry, ids: seq<TxId>, n: nat): seq<Option<TxId>>
    requires n < |ids|
  {
    if n == 0 then a.sources else StoredSources(a, ids[n])
  }

  function InputsAt(a: Ancestry, ids: seq<TxId>, n: nat): seq<TxId>
    requires n < |ids|
  {
    Uniq(Named(SourcesAt(a, ids, n)))
  }

  /** The numbers, counted from `start`, of those ids that are new. */
  function Fresh(index: map<TxId, nat>, ys: seq<TxId>, start: nat): seq<nat> {
    if ys == [] then [] else
      var n := |ys| - 1;
      Fresh(index, ys[..n], start) + if ys[n] in index then [] else [start + n]
  }

  /** The numbers of those that are not mined. */
  function Later(store: map<TxId, Record>, ys: seq<TxId>, start: nat): seq<nat> {
    if ys == [] then [] else
      var n := |ys| - 1;
      Later(store, ys[..n], start) + if ys[n] in store && store[ys[n]].mined then [] else [start + n]
  }

  function Extended(index: map<TxId, nat>, ys: seq<TxId>, start: nat): map<TxId, nat> {
    if ys == [] then index else
      var n := |ys| - 1;
      var before := Extended(index, ys[..n], start);
      if ys[n] in before then before else before[ys[n] := start + n]
  }

  /** Object n, taken from the queue, is expanded. */
  function Expand(a: Ancestry, w: Work, n: nat): Work
    requires n < |w.ids|
  {
    var ys := InputsAt(a, w.ids, n);
    var start := |w.ids|;
    Work(w.ids + ys, Extended(w.index, ys, start), w.visited + {w.ids[n]}, w.queue + Later(a.store, ys, start),
         w.list + Fresh(w.index, ys, start), w.starts[n := start])
  }

  function Universe(a: Ancestry): set<TxId> { a.store.Keys + {a.id} }

  /** What ends a run: the first transaction, in breadth-first order, with a missing or unreadable input. */
  datatype Halt = Halt(at: TxId, err: BeefError)

  /** Works the queue off, first in, first out. */
  function Finish(a: Ancestry, w: Work): Result<Work, Halt>
    decreases |Universe(a) - w.visited|, |w.queue|
  {
    if w.queue == [] then Success(w)
    else
      var n := w.queue[0];
      var rest := w.(queue := w.queue[1..]);
      if n >= |w.ids| || w.ids[n] in w.visited || w.ids[n] !in Universe(a) then Finish(a, rest)
      else
        match Stop(a.store, InputsAt(a, w.ids, n))
        case Some(err) => Failure(Halt(w.ids[n], err))
        case None =>
          Shrinks(a, w.visited, w.ids[n]);
          Finish(a, Expand(a, rest, n))
  }

  /** Visiting something new leaves less to visit. */
  lemma Shrinks(a: Ancestry, visited: set<TxId>, x: TxId)
    requires x !in visited && x in Universe(a)
    ensures |Universe(a) - (visited + {x})| < |Universe(a) - visited|
  {
    assert Universe(a) - (visited + {x}) == (Universe(a) - visited) - {x};
  }

  // ----- the three ways a list grows ---------------------------------------------------------------------

  lemma {:induction false} FreshFacts(index: map<TxId, nat>, ys: seq<TxId>, start: nat)
    ensures forall m :: m in Fresh(index, ys, start) <==> start <= m < start + |ys| && ys[m - start] !in index
    ensures forall j, k :: 0 <= j < k < |Fresh(index, ys, start)| ==>
      Fresh(index, ys, start)[j] < Fresh(index, ys, start)[k]
  {
    if ys != [] {
      var n := |ys| - 1;
      FreshFacts(index, ys[..n], start);
      var before := Fresh(index, ys[..n], start);
      forall j | 0 <= j < |before| ensures before[j] < start + n { assert before[j] in before; }
    }
  }

  lemma {:induction false} LaterFacts(store: map<TxId, Record>, ys: seq<TxId>, start: nat)
    ensures forall m :: m in Later(store, ys, start) <==>
      start <= m < start + |ys| && !(ys[m - start] in store && store[ys[m - start]].mined)
  {
    if ys != [] { LaterFacts(store, ys[..|ys| - 1], start); }
  }

  lemma {:induction false} ExtendedFacts(index: map<TxId, nat>, ys: seq<TxId>, start: nat)
    requires Distinct(ys)
    ensures var index' := Extended(index, ys, start);
      && (forall y :: y in index' <==> y in index || y in ys)
      && (forall y :: y in index ==> index'[y] == index[y])
      && (forall i :: 0 <= i < |ys| && ys[i] !in index ==> index'[ys[i]] == start + i)
  {
    if ys != [] {
      var n := |ys| - 1;
      ExtendedFacts(index, ys[..n], start);
      assert ys == ys[..n] + [ys[n]];
    }
  }

  lemma FreshMember(index: map<TxId, nat>, ys: seq<TxId>, start: nat, m: nat)
    ensures m in Fresh(index, ys, start) <==> start <= m < start + |ys| && ys[m - start] !in index
  {
    FreshFacts(index, ys, start);
  }

  lemma LaterMember(store: map<TxId, Record>, ys: seq<TxId>, start: nat, m: nat)
    ensures m in Later(store, ys, start) <==>
      start <= m < start + |ys| && !(ys[m - start] in store && store[ys[m - start]].mined)
  {
    LaterFacts(store, ys, start);
  }

  lemma ExtendedAt(index: map<TxId, nat>, ys: seq<TxId>, start: nat, i: nat)
    requires Distinct(ys) && i < |ys|
    ensures ys[i] in Extended(index, ys, start)
    ensures Extended(index, ys, start)[ys[i]] == if ys[i] in index then index[ys[i]] else start + i
  {
    ExtendedFacts(index, ys, start);
    assert ys[i] in ys;
  }

  lemma ExtendedOld(index: map<TxId, nat>, ys: seq<TxId>, start: nat, y: TxId)
    requires Distinct(ys)
    ensures y in index ==> y in Extended(index, ys, start) && Extended(index, ys, start)[y] == index[y]
    ensures y in Extended(index, ys, start) && y !in index ==> exists i :: 0 <= i < |ys| && ys[i] == y
  {
    ExtendedFacts(index, ys, start);
  }

  // ----- what every step keeps ------------------------------------------------------------------------------

  ghost predicate NumberRight(a: Ancestry, w: Work, n: nat)
    requires n < |w.ids|
  {
    && w.ids[n] in w.index && w.index[w.ids[n]] <= n && a.Needed(w.ids[n])
    && (n > 0 ==> w.ids[n] in a.store && a.store[w.ids[n]].Decodes())
  }

  /** Every object is known under its id, and the first with that id is the indexed one. */
  ghost predicate Indexed(a: Ancestry, w: Work) {
    && w.ids != [] && w.ids[0] == a.id
    && (forall n :: 0 <= n < |w.ids| ==> NumberRight(a, w, n))
    && (forall y :: y in w.index ==> w.index[y] < |w.ids| && w.ids[w.index[y]] == y)
  }

  /** The list has exactly the first objects, in their order. */
  ghost predicate ListOk(w: Work) {
    && w.list != [] && w.list[0] == 0
    && (forall k :: 0 <= k < |w.list| ==> First(w, w.list[k]))
    && (forall j, k :: 0 <= j < k < |w.list| ==> w.list[j] < w.list[k])
    && (forall y :: y in w.index ==> w.index[y] in w.list)
  }

  predicate First(w: Work, n: nat) { n < |w.ids| && w.ids[n] in w.index && w.index[w.ids[n]] == n }

  /** A queued object is of an id that expands: a visited one, or the first object, or one behind the first. */
  ghost predicate QueueRight(a: Ancestry, w: Work, k: nat)
    requires k < |w.queue|
  {
    && w.queue[k] < |w.ids| && a.Expands(w.ids[w.queue[k]])
    && (w.ids[w.queue[k]] in w.visited || First(w, w.queue[k]) || Behind(w, k))
  }

  predicate Behind(w: Work, k: nat)
    requires k < |w.queue| && w.queue[k] < |w.ids|
  {
    exists j :: 0 <= j < k && w.queue[j] < |w.ids| && w.ids[w.queue[j]] == w.ids[w.queue[k]]
  }

  predicate Queued(w: Work, y: TxId) {
    exists k :: 0 <= k < |w.queue| && w.queue[k] < |w.ids| && w.ids[w.queue[k]] == y
  }

  ghost predicate QueueOk(a: Ancestry, w: Work) {
    && (forall k :: 0 <= k < |w.queue| ==> QueueRight(a, w, k))
    && (forall y :: y in w.index && a.Expands(y) ==> y in w.visited || Queued(w, y))
  }

  /** Object n is expanded: linked to objects with the ids of its inputs, read after it. */
  ghost predicate SpanRight(a: Ancestry, ids: seq<TxId>, n: nat, start: nat)
    requires n < |ids|
  {
    var ys := InputsAt(a, ids, n);
    n < start && start + |ys| <= |ids| && forall i :: 0 <= i < |ys| ==> ids[start + i] == ys[i]
  }

  ghost predicate StartRight(a: Ancestry, w: Work, n: nat)
    requires n in w.starts
  {
    First(w, n) && w.ids[n] in w.visited && SpanRight(a, w.ids, n, w.starts[n])
  }

  ghost predicate StartsOk(a: Ancestry, w: Work) {
    && (forall n :: n in w.starts ==> StartRight(a, w, n))
    && (forall x :: x in w.visited ==> x in w.index && w.index[x] in w.starts && a.Expands(x))
  }

  predicate InSpan(a: Ancestry, ids: seq<TxId>, n: nat, start: nat, k: nat)
    requires n < |ids|
  {
    start <= k < start + |InputsAt(a, ids, n)|
  }

  /** k was read for n. */
  predicate ReadFor(a: Ancestry, w: Work, n: nat, k: nat) {
    n < |w.ids| && n in w.starts && n < k && InSpan(a, w.ids, n, w.starts[n], k)
  }

  ghost predicate HasParent(a: Ancestry, w: Work, k: nat) { exists n :: ReadFor(a, w, n, k) }

  /** Every object but the subject was read for exactly one expanded object. */
  ghost predicate ParentsOk(a: Ancestry, w: Work) {
    && (forall k :: 0 < k < |w.ids| ==> HasParent(a, w, k))
    && (forall n, n', k :: ReadFor(a, w, n, k) && ReadFor(a, w, n', k) ==> n == n')
  }

  // ----- the first state ---------------------------------------------------------------------------------------

  lemma StartOk(a: Ancestry)
    ensures var w := Start(a); Indexed(a, w) && ListOk(w) && QueueOk(a, w) && StartsOk(a, w) && ParentsOk(a, w)
  {
    var w := Start(a);
    assert Queued(w, a.id) by { assert w.ids[w.queue[0]] == a.id; }
    assert First(w, 0);
  }

  // ----- taking an object from the queue --------------------------------------------------------------------------

  /** What is taken from the queue has been visited or is the first object with its id. */
  lemma PopRight(a: Ancestry, w: Work)
    requires w.queue != [] && QueueOk(a, w) && w.queue[0] < |w.ids|
    ensures w.ids[w.queue[0]] in w.visited || First(w, w.queue[0])
    ensures a.Expands(w.ids[w.queue[0]])
  {
    assert QueueRight(a, w, 0);
  }

  lemma SkipQueue(a: Ancestry, w: Work)
    requires w.queue != [] && QueueOk(a, w) && w.queue[0] < |w.ids| && w.ids[w.queue[0]] in w.visited
    ensures QueueOk(a, w.(queue := w.queue[1..]))
  {
    var rest := w.(queue := w.queue[1..]);
    forall k | 0 <= k < |rest.queue| ensures QueueRight(a, rest, k) { BehindPopped(a, w, w.visited, k); }
    forall y | y in w.index && a.Expands(y) ensures y in w.visited || Queued(rest, y) { QueuedPopped(w, w.visited, y); }
  }

  /** What was behind the popped object is visited now, or still behind another. */
  lemma BehindPopped(a: Ancestry, w: Work, visited: set<TxId>, k: nat)
    requires k + 1 < |w.queue| && QueueRight(a, w, k + 1) && w.queue[0] < |w.ids|
    requires w.visited <= visited && w.ids[w.queue[0]] in visited
    ensures QueueRight(a, w.(queue := w.queue[1..], visited := visited), k)
  {
    var rest := w.(queue := w.queue[1..], visited := visited);
    assert rest.queue[k] == w.queue[k + 1];
    if Behind(w, k + 1) && w.ids[w.queue[k + 1]] !in visited {
      var j :| 0 <= j < k + 1 && w.queue[j] < |w.ids| && w.ids[w.queue[j]] == w.ids[w.queue[k + 1]];
      assert j > 0 && rest.queue[j - 1] == w.queue[j];
    }
  }

  lemma QueuedPopped(w: Work, visited: set<TxId>, y: TxId)
    requires w.queue != [] && w.queue[0] < |w.ids| && w.visited <= visited && w.ids[w.queue[0]] in visited
    requires y in w.visited || Queued(w, y)
    ensures y in visited || Queued(w.(queue := w.queue[1..], visited := visited), y)
  {
    if y !in visited {
      var k :| 0 <= k < |w.queue| && w.queue[k] < |w.ids| && w.ids[w.queue[k]] == y;
      var rest := w.(queue := w.queue[1..], visited := visited);
      assert k > 0 && rest.queue[k - 1] == w.queue[k];
    }
  }

  // ----- expanding an object -------------------------------------------------------------------------------

  /** The object at the front of the queue is the first with its id, not visited yet, and its inputs are supplied. */
  ghost predicate Expandable(a: Ancestry, w: Work) {
    && w.queue != [] && First(w, w.queue[0]) && w.ids[w.queue[0]] !in w.visited && a.Expands(w.ids[w.queue[0]])
    && AllSupplied(a.store, InputsAt(a, w.ids, w.queue[0]))
  }

  function Next(a: Ancestry, w: Work): Work
    requires w.queue != [] && w.queue[0] < |w.ids|
  {
    Expand(a, w.(queue := w.queue[1..]), w.queue[0])
  }

  /** For a first object the inputs are those of its id. */
  lemma InputsRight(a: Ancestry, w: Work, n: nat)
    requires Indexed(a, w) && First(w, n)
    ensures InputsAt(a, w.ids, n) == Inputs(a, w.ids[n])
    ensures Distinct(InputsAt(a, w.ids, n))
    ensures forall y :: y in InputsAt(a, w.ids, n) <==> Some(y) in a.SourcesOf(w.ids[n])
  {
    assert NumberRight(a, w, 0);
    InputsMembers(a, w.ids[n]);
  }

  lemma SameInputsAt(a: Ancestry, ids: seq<TxId>, ys: seq<TxId>, n: nat)
    requires n < |ids|
    ensures InputsAt(a, ids + ys, n) == InputsAt(a, ids, n)
  {
  }

  lemma IndexedNext(a: Ancestry, w: Work)
    requires Indexed(a, w) && Expandable(a, w)
    ensures Indexed(a, Next(a, w))
    ensures var w' := Next(a, w);
      (forall n :: 0 <= n < |w.ids| ==> (First(w', n) <==> First(w, n)) && w'.ids[n] == w.ids[n])
  {
    var n := w.queue[0];
    var ys := InputsAt(a, w.ids, n);
    var w' := Next(a, w);
    InputsRight(a, w, n);
    ExtendedFacts(w.index, ys, |w.ids|);
    forall m | 0 <= m < |w'.ids| ensures NumberRight(a, w', m) {
      if m < |w.ids| {
        assert NumberRight(a, w, m);
      } else {
        var y := ys[m - |w.ids|];
        assert y in ys && NumberRight(a, w, n);
        NeededInput(a, w.ids[n], y);
      }
    }
    forall y | y in w'.index ensures w'.index[y] < |w'.ids| && w'.ids[w'.index[y]] == y {
      if y !in w.index { var i :| 0 <= i < |ys| && ys[i] == y; }
    }
    forall m | 0 <= m < |w.ids| ensures First(w', m) <==> First(w, m) { assert NumberRight(a, w, m); }
  }

  lemma ListFirst(a: Ancestry, w: Work, k: nat)
    requires Indexed(a, w) && Expandable(a, w) && ListOk(w) && k < |Next(a, w).list|
    ensures First(Next(a, w), Next(a, w).list[k])
    ensures k >= |w.list| ==> Next(a, w).list[k] >= |w.ids|
  {
    var ys := InputsAt(a, w.ids, w.queue[0]);
    var w' := Next(a, w);
    var m := w'.list[k];
    UniqMembers(Named(SourcesAt(a, w.ids, w.queue[0])));
    if k < |w.list| {
      assert First(w, w.list[k]);
      ExtendedOld(w.index, ys, |w.ids|, w.ids[m]);
    } else {
      assert m in Fresh(w.index, ys, |w.ids|);
      FreshMember(w.index, ys, |w.ids|, m);
      ExtendedAt(w.index, ys, |w.ids|, m - |w.ids|);
    }
  }

  lemma ListComplete(a: Ancestry, w: Work, y: TxId)
    requires Expandable(a, w) && (y in w.index ==> w.index[y] in w.list) && y in Next(a, w).index
    ensures Next(a, w).index[y] in Next(a, w).list
  {
    var ys := InputsAt(a, w.ids, w.queue[0]);
    UniqMembers(Named(SourcesAt(a, w.ids, w.queue[0])));
    ExtendedOld(w.index, ys, |w.ids|, y);
    if y !in w.index {
      var i :| 0 <= i < |ys| && ys[i] == y;
      ExtendedAt(w.index, ys, |w.ids|, i);
      FreshMember(w.index, ys, |w.ids|, |w.ids| + i);
    }
  }

  lemma ListNext(a: Ancestry, w: Work)
    requires Indexed(a, w) && Expandable(a, w) && ListOk(w)
    ensures ListOk(Next(a, w))
  {
    var w' := Next(a, w);
    FreshFacts(w.index, InputsAt(a, w.ids, w.queue[0]), |w.ids|);
    forall k | 0 <= k < |w'.list| ensures First(w', w'.list[k]) { ListFirst(a, w, k); }
    forall j, k | 0 <= j < k < |w'.list| ensures w'.list[j] < w'.list[k] {
      if j < |w.list| <= k {
        assert First(w, w.list[j]);
        ListFirst(a, w, k);
      }
    }
    forall y | y in w'.index ensures w'.index[y] in w'.list { ListComplete(a, w, y); }
  }

  lemma StartNext(a: Ancestry, w: Work, m: nat)
    requires Indexed(a, w) && Expandable(a, w) && m in Next(a, w).starts
    requires m != w.queue[0] ==> StartRight(a, w, m)
    ensures StartRight(a, Next(a, w), m)
  {
    var ys := InputsAt(a, w.ids, w.queue[0]);
    IndexedNext(a, w);
    SameInputsAt(a, w.ids, ys, m);
  }

  lemma StartsNext(a: Ancestry, w: Work)
    requires Indexed(a, w) && Expandable(a, w) && StartsOk(a, w)
    ensures StartsOk(a, Next(a, w))
  {
    var w' := Next(a, w);
    forall m | m in w'.starts ensures StartRight(a, w', m) {
      if m != w.queue[0] { assert StartRight(a, w, m); }
      StartNext(a, w, m);
    }
    InputsRight(a, w, w.queue[0]);
    ExtendedFacts(w.index, InputsAt(a, w.ids, w.queue[0]), |w.ids|);
  }

  /** The new state reads the same objects for the same, and the new ones for n. */
  lemma ReadForNext(a: Ancestry, w: Work, m: nat, k: nat)
    requires Indexed(a, w) && Expandable(a, w) && StartsOk(a, w)
    ensures ReadFor(a, Next(a, w), m, k) <==>
      if k < |w.ids| then m != w.queue[0] && ReadFor(a, w, m, k) else m == w.queue[0] && k < |Next(a, w).ids|
    ensures w.queue[0] !in w.starts
  {
    var n := w.queue[0];
    if m < |w.ids| { SameInputsAt(a, w.ids, InputsAt(a, w.ids, n), m); }
    if m in w.starts { assert StartRight(a, w, m); }
  }

  lemma ParentsNext(a: Ancestry, w: Work)
    requires Indexed(a, w) && Expandable(a, w) && StartsOk(a, w) && ParentsOk(a, w)
    ensures ParentsOk(a, Next(a, w))
  {
    var w' := Next(a, w);
    forall k | 0 < k < |w'.ids| ensures HasParent(a, w', k) {
      if k < |w.ids| {
        assert HasParent(a, w, k);
        var m :| ReadFor(a, w, m, k);
        ReadForNext(a, w, m, k);
        assert ReadFor(a, w', m, k);
      } else {
        ReadForNext(a, w, w.queue[0], k);
        assert ReadFor(a, w', w.queue[0], k);
      }
    }
    forall m, m', k | ReadFor(a, w', m, k) && ReadFor(a, w', m', k) ensures m == m' {
      ReadForNext(a, w, m, k);
      ReadForNext(a, w, m', k);
    }
  }

  lemma QueueNext(a: Ancestry, w: Work)
    requires Indexed(a, w) && Expandable(a, w) && QueueOk(a, w)
    ensures QueueOk(a, Next(a, w))
  {
    var n := w.queue[0];
    var ys := InputsAt(a, w.ids, n);
    var w' := Next(a, w);
    forall k | 0 <= k < |w'.queue| ensures QueueRight(a, w', k) {
      if k + 1 < |w.queue| { OldQueueRight(a, w, k); } else { NewQueueRight(a, w, k); }
    }
    forall y | y in w'.index && a.Expands(y) ensures y in w'.visited || Queued(w', y) {
      if y in w.index { OldQueued(a, w, y); } else { NewQueued(a, w, y); }
    }
  }

  lemma OldQueueRight(a: Ancestry, w: Work, k: nat)
    requires Indexed(a, w) && Expandable(a, w) && k + 1 < |w.queue| && QueueRight(a, w, k + 1)
    ensures k < |Next(a, w).queue| && QueueRight(a, Next(a, w), k)
  {
    var w' := Next(a, w);
    var rest := w.(queue := w.queue[1..], visited := w'.visited);
    IndexedNext(a, w);
    BehindPopped(a, w, w'.visited, k);
    assert w'.queue[k] == rest.queue[k] == w.queue[k + 1];
    if First(rest, rest.queue[k]) { assert First(w, rest.queue[k]); }
    if Behind(rest, k) {
      var j :| 0 <= j < k && rest.queue[j] < |rest.ids| && rest.ids[rest.queue[j]] == rest.ids[rest.queue[k]];
      assert w'.queue[j] == rest.queue[j];
    }
  }

  lemma OldQueued(a: Ancestry, w: Work, y: TxId)
    requires Indexed(a, w) && Expandable(a, w) && QueueOk(a, w) && y in w.index && a.Expands(y)
    ensures y in Next(a, w).visited || Queued(Next(a, w), y)
  {
    var w' := Next(a, w);
    var rest := w.(queue := w.queue[1..], visited := w'.visited);
    QueuedPopped(w, w'.visited, y);
    if y !in w'.visited {
      var k :| 0 <= k < |rest.queue| && rest.queue[k] < |rest.ids| && rest.ids[rest.queue[k]] == y;
      assert w'.queue[k] == rest.queue[k];
    }
  }

  lemma NewQueued(a: Ancestry, w: Work, y: TxId)
    requires Indexed(a, w) && Expandable(a, w) && y in Next(a, w).index && y !in w.index && a.Expands(y)
    ensures Queued(Next(a, w), y)
  {
    var ys := InputsAt(a, w.ids, w.queue[0]);
    var w' := Next(a, w);
    UniqMembers(Named(SourcesAt(a, w.ids, w.queue[0])));
    ExtendedOld(w.index, ys, |w.ids|, y);
    assert NumberRight(a, w, 0);
    var i :| 0 <= i < |ys| && ys[i] == y;
    LaterMember(a.store, ys, |w.ids|, |w.ids| + i);
    assert |w.ids| + i in w'.queue;
  }

  lemma NewEntry(a: Ancestry, w: Work, k: nat) returns (i: nat)
    requires Expandable(a, w) && |w.queue| <= k + 1 && k < |Next(a, w).queue|
    ensures var ys, w' := InputsAt(a, w.ids, w.queue[0]), Next(a, w);
      && i < |ys| && w'.queue[k] == |w.ids| + i < |w'.ids| && w'.ids[w'.queue[k]] == ys[i] && a.Expands(ys[i])
      && (ys[i] !in w.index ==> First(w', w'.queue[k]))
  {
    var ys := InputsAt(a, w.ids, w.queue[0]);
    var w' := Next(a, w);
    var m := w'.queue[k];
    UniqMembers(Named(SourcesAt(a, w.ids, w.queue[0])));
    assert m in Later(a.store, ys, |w.ids|);
    LaterMember(a.store, ys, |w.ids|, m);
    i := m - |w.ids|;
    ExtendedAt(w.index, ys, |w.ids|, i);
  }

  /** A new entry is first with its id, or its id is known: then it has been visited or is queued before. */
  lemma NewQueueRight(a: Ancestry, w: Work, k: nat)
    requires Indexed(a, w) && Expandable(a, w) && QueueOk(a, w) && |w.queue| <= k + 1 && k < |Next(a, w).queue|
    ensures QueueRight(a, Next(a, w), k)
  {
    var ys := InputsAt(a, w.ids, w.queue[0]);
    var w' := Next(a, w);
    var i := NewEntry(a, w, k);
    var y := ys[i];
    if y in w.index && y !in w'.visited {
      var rest := w.(queue := w.queue[1..], visited := w'.visited);
      QueuedPopped(w, w'.visited, y);
      var j :| 0 <= j < |rest.queue| && rest.queue[j] < |rest.ids| && rest.ids[rest.queue[j]] == y;
      assert w'.queue[j] == rest.queue[j] && j < k;
      assert Behind(w', k);
    }
  }

  // ----- the whole run -------------------------------------------------------------------------------------

  ghost predicate Ok(a: Ancestry, w: Work) {
    Indexed(a, w) && ListOk(w) && QueueOk(a, w) && StartsOk(a, w) && ParentsOk(a, w)
  }

  lemma SkipOk(a: Ancestry, w: Work)
    requires Ok(a, w) && w.queue != [] && w.queue[0] < |w.ids| && w.ids[w.queue[0]] in w.visited
    ensures Ok(a, w.(queue := w.queue[1..]))
  {
    var rest := w.(queue := w.queue[1..]);
    SkipQueue(a, w);
    forall n | 0 <= n < |rest.ids| ensures NumberRight(a, rest, n) { assert NumberRight(a, w, n); }
    forall k | 0 <= k < |rest.list| ensures First(rest, rest.list[k]) { assert First(w, w.list[k]); }
    forall n | n in rest.starts ensures StartRight(a, rest, n) { assert StartRight(a, w, n); }
    SkipParents(a, w, rest);
  }

  lemma SkipParents(a: Ancestry, w: Work, rest: Work)
    requires ParentsOk(a, w) && rest.ids == w.ids && rest.starts == w.starts
    ensures ParentsOk(a, rest)
  {
    forall n, k ensures ReadFor(a, rest, n, k) <==> ReadFor(a, w, n, k) { }
    forall k | 0 < k < |rest.ids| ensures HasParent(a, rest, k) {
      assert HasParent(a, w, k);
      var n :| ReadFor(a, w, n, k);
      assert ReadFor(a, rest, n, k);
    }
  }

  lemma NextOk(a: Ancestry, w: Work)
    requires Ok(a, w) && Expandable(a, w)
    ensures Ok(a, Next(a, w))
  {
    IndexedNext(a, w);
    ListNext(a, w);
    QueueNext(a, w);
    StartsNext(a, w);
    ParentsNext(a, w);
  }

  lemma FrontRight(a: Ancestry, w: Work)
    requires Ok(a, w) && w.queue != []
    ensures w.queue[0] < |w.ids| && w.ids[w.queue[0]] in Universe(a)
    ensures w.ids[w.queue[0]] in w.visited || (First(w, w.queue[0]) && a.Expands(w.ids[w.queue[0]]))
    ensures a.Needed(w.ids[w.queue[0]])
  {
    assert QueueRight(a, w, 0);
    assert NumberRight(a, w, w.queue[0]);
    PopRight(a, w);
  }

  /** The expansion of x is stopped by err. */
  ghost predicate Stopped(a: Ancestry, x: TxId, err: BeefError) {
    Expanded(a, x) && Stop(a.store, Inputs(a, x)) == Some(err)
  }

  lemma FrontExpandable(a: Ancestry, w: Work)
    requires Ok(a, w) && w.queue != [] && w.queue[0] < |w.ids| && w.ids[w.queue[0]] !in w.visited
    ensures var err := Stop(a.store, InputsAt(a, w.ids, w.queue[0]));
      if err.None? then Expandable(a, w) else Stopped(a, w.ids[w.queue[0]], err.value)
  {
    FrontRight(a, w);
    InputsRight(a, w, w.queue[0]);
    StopExact(a.store, InputsAt(a, w.ids, w.queue[0]));
  }

  ghost predicate EndsRight(a: Ancestry, r: Result<Work, Halt>) {
    if r.Success? then Ended(a, r.value) else Stopped(a, r.error.at, r.error.err)
  }

  ghost predicate Ended(a: Ancestry, w: Work) { Ok(a, w) && w.queue == [] }

  /** What processing the front of the queue does: nothing if it has been visited; else it is expanded, or stops. */
  ghost predicate Taken(a: Ancestry, w: Work, w': Work, err: Option<BeefError>) {
    && w.queue != [] && w.queue[0] < |w.ids| && w.ids[w.queue[0]] in Universe(a)
    && if w.ids[w.queue[0]] in w.visited then err.None? && w' == w.(queue := w.queue[1..])
       else err == Stop(a.store, InputsAt(a, w.ids, w.queue[0])) && (err.None? ==> w' == Next(a, w))
  }

  ghost predicate LessLeft(a: Ancestry, w: Work, w': Work) {
    || |Universe(a) - w'.visited| < |Universe(a) - w.visited|
    || (w'.visited == w.visited && |w'.queue| < |w.queue|)
  }

  /** Processing the front of the queue does not change how the run ends. */
  lemma TakenFinish(a: Ancestry, w: Work, w': Work, err: Option<BeefError>)
    requires Taken(a, w, w', err)
    ensures if err.None? then Finish(a, w) == Finish(a, w') && LessLeft(a, w, w')
            else Finish(a, w) == Failure(Halt(w.ids[w.queue[0]], err.value))
  {
    var x := w.ids[w.queue[0]];
    if x !in w.visited { Shrinks(a, w.visited, x); }
  }

  /** The run ends with an empty queue, or with an expansion that is stopped. */
  lemma {:induction false} FinishOk(a: Ancestry, w: Work)
    requires Ok(a, w)
    ensures EndsRight(a, Finish(a, w))
    decreases |Universe(a) - w.visited|, |w.queue|
  {
    if w.queue == [] { return; }
    FrontRight(a, w);
    var n := w.queue[0];
    if w.ids[n] in w.visited {
      SkipOk(a, w);
      TakenFinish(a, w, w.(queue := w.queue[1..]), None);
      FinishOk(a, w.(queue := w.queue[1..]));
    } else {
      FrontExpandable(a, w);
      var err := Stop(a.store, InputsAt(a, w.ids, n));
      TakenFinish(a, w, Next(a, w), err);
      if err.None? {
        NextOk(a, w);
        FinishOk(a, Next(a, w));
      }
    }
  }

  // ----- what the end of the run means -----------------------------------------------------------------------------

  function IdsAt(ids: seq<TxId>, list: seq<nat>): seq<TxId> {
    seq(|list|, i requires 0 <= i < |list| => if list[i] < |ids| then ids[list[i]] else "")
  }

  lemma ListedId(a: Ancestry, w: Work, k: nat)
    requires Indexed(a, w) && ListOk(w) && k < |w.list|
    ensures var x := IdsAt(w.ids, w.list)[k]; x in w.index && w.index[x] == w.list[k]
  {
    assert First(w, w.list[k]);
  }

  lemma ListDistinct(a: Ancestry, w: Work)
    requires Indexed(a, w) && ListOk(w)
    ensures Distinct(IdsAt(w.ids, w.list))
  {
    var ids := IdsAt(w.ids, w.list);
    forall j, k | 0 <= j < k < |ids| ensures ids[j] != ids[k] {
      ListedId(a, w, j);
      ListedId(a, w, k);
    }
    DistinctIndices(ids);
  }

  lemma ListIds(a: Ancestry, w: Work)
    requires Indexed(a, w) && ListOk(w)
    ensures var ids := IdsAt(w.ids, w.list);
      Distinct(ids) && ids != [] && ids[0] == a.id && Elements(ids) == w.index.Keys
  {
    ListDistinct(a, w);
    var ids := IdsAt(w.ids, w.list);
    forall k | 0 <= k < |ids| ensures ids[k] in w.index { ListedId(a, w, k); }
    forall y | y in w.index ensures y in ids { IndexListed(a, w, y); }
  }

  lemma IndexListed(a: Ancestry, w: Work, y: TxId)
    requires Indexed(a, w) && ListOk(w) && y in w.index
    ensures y in IdsAt(w.ids, w.list)
  {
    var k :| 0 <= k < |w.list| && w.list[k] == w.index[y];
    assert IdsAt(w.ids, w.list)[k] == y;
  }

  /** The inputs of a visited transaction are listed and were supplied. */
  lemma VisitedInputs(a: Ancestry, w: Work, x: TxId, y: TxId) returns (k: nat)
    requires Indexed(a, w) && StartsOk(a, w) && x in w.visited && Some(y) in a.SourcesOf(x)
    ensures ReadFor(a, w, w.index[x], k) && 0 < k < |w.ids| && w.ids[k] == y
    ensures y in w.index && y in a.store && a.store[y].Decodes()
  {
    var n := w.index[x];
    assert StartRight(a, w, n);
    InputsRight(a, w, n);
    var ys := InputsAt(a, w.ids, n);
    assert y in ys;
    var i :| 0 <= i < |ys| && ys[i] == y;
    k := w.starts[n] + i;
    assert NumberRight(a, w, k);
  }

  lemma EndedVisited(a: Ancestry, w: Work, x: TxId)
    requires QueueOk(a, w) && w.queue == [] && x in w.index && a.Expands(x)
    ensures x in w.visited
  {
    assert x in w.visited || Queued(w, x);
  }

  /** What the end of the run needs to say of inputs. */
  ghost predicate Drained(a: Ancestry, w: Work) { Indexed(a, w) && QueueOk(a, w) && StartsOk(a, w) && w.queue == [] }

  lemma EndedInput(a: Ancestry, w: Work, x: TxId, y: TxId)
    requires Drained(a, w) && x in w.index && a.Expands(x) && Some(y) in a.SourcesOf(x)
    ensures y in w.index && y in a.store && a.store[y].Decodes()
  {
    EndedVisited(a, w, x);
    var k := VisitedInputs(a, w, x, y);
  }

  /** All inputs of x belong to t and can be read, if x is expanded. */
  ghost predicate Readable(a: Ancestry, t: set<TxId>, x: TxId) {
    a.Expands(x) ==> forall y :: Some(y) in a.SourcesOf(x) ==> y in t && y in a.store && a.store[y].Decodes()
  }

  lemma EndedReadable(a: Ancestry, w: Work, x: TxId)
    requires Drained(a, w) && x in w.index
    ensures Readable(a, w.index.Keys, x)
  {
    forall y | a.Expands(x) && Some(y) in a.SourcesOf(x) ensures y in w.index && y in a.store && a.store[y].Decodes() {
      EndedInput(a, w, x, y);
    }
  }

  lemma ReadableCloses(a: Ancestry, t: set<TxId>)
    requires a.id in t && forall x :: x in t ==> Readable(a, t, x)
    ensures a.Closed(t) && a.Supplied(t)
  {
  }

  lemma EndedCloses(a: Ancestry, w: Work)
    requires Drained(a, w)
    ensures a.Closed(w.index.Keys) && a.Supplied(w.index.Keys)
  {
    SubjectFirst(a, w);
    forall x | x in w.index.Keys ensures Readable(a, w.index.Keys, x) { EndedReadable(a, w, x); }
    ReadableCloses(a, w.index.Keys);
  }

  lemma IndexNeeded(a: Ancestry, w: Work, x: TxId)
    requires Indexed(a, w) && x in w.index
    ensures a.Needed(x)
  {
    assert NumberRight(a, w, w.index[x]);
  }

  /** At the end exactly the expanded transactions have been visited. */
  lemma VisitedIsExpanded(a: Ancestry, w: Work, x: TxId)
    requires Ended(a, w)
    ensures x in w.visited <==> Expanded(a, x)
  {
    EndedCloses(a, w);
    if x in w.visited { IndexNeeded(a, w, x); }
    if Expanded(a, x) {
      assert x in w.index.Keys;
      EndedVisited(a, w, x);
    }
  }

  lemma EndedIsClosure(a: Ancestry, w: Work)
    requires Ended(a, w)
    ensures IsClosure(a, IdsAt(w.ids, w.list))
  {
    var ids := IdsAt(w.ids, w.list);
    EndedCloses(a, w);
    ListIds(a, w);
    forall x | x in ids ensures a.Needed(x) {
      assert x in Elements(ids);
      IndexNeeded(a, w, x);
    }
  }

  /** A stopped expansion shows that the ancestry is not complete. */
  lemma StoppedIsIncomplete(a: Ancestry, x: TxId, err: BeefError)
    requires Stopped(a, x, err)
    ensures !Complete(a)
  {
    InputsMembers(a, x);
    var ys := Inputs(a, x);
    StopExact(a.store, ys);
    var i :| 0 <= i < |ys| && !(ys[i] in a.store && a.store[ys[i]].Decodes());
    assert ys[i] in ys;
    forall t | a.Closed(t) ensures !a.Supplied(t) {
      assert x in t && Some(ys[i]) in a.SourcesOf(x);
    }
  }

  lemma SpanMember(a: Ancestry, ids: seq<TxId>, n: nat, start: nat, k: nat)
    requires n < |ids| && SpanRight(a, ids, n, start) && InSpan(a, ids, n, start, k)
    ensures k < |ids| && start <= k && ids[k] == InputsAt(a, ids, n)[k - start] && ids[k] in InputsAt(a, ids, n)
  {
    assert ids[start + (k - start)] == InputsAt(a, ids, n)[k - start];
  }

  /** What is read for n is an input of n, which is visited. */
  lemma ReadForNames(a: Ancestry, w: Work, n: nat, k: nat)
    requires Indexed(a, w) && StartsOk(a, w) && ReadFor(a, w, n, k)
    ensures k < |w.ids| && First(w, n) && w.ids[n] in w.visited && Some(w.ids[k]) in a.SourcesOf(w.ids[n])
  {
    assert StartRight(a, w, n);
    SpanMember(a, w.ids, n, w.starts[n], k);
    InputsRight(a, w, n);
  }

  /** What is read for one object has different ids. */
  lemma SpanDistinct(a: Ancestry, w: Work, n: nat, k: nat, k': nat)
    requires StartsOk(a, w) && ReadFor(a, w, n, k) && ReadFor(a, w, n, k')
    ensures k < |w.ids| && k' < |w.ids| && (w.ids[k] == w.ids[k'] ==> k == k')
  {
    assert StartRight(a, w, n);
    SpanMember(a, w.ids, n, w.starts[n], k);
    SpanMember(a, w.ids, n, w.starts[n], k');
    UniqMembers(Named(SourcesAt(a, w.ids, n)));
    DistinctIndices(InputsAt(a, w.ids, n));
  }

  lemma ParentOf(a: Ancestry, w: Work, k: nat) returns (n: nat)
    requires ParentsOk(a, w) && 0 < k < |w.ids|
    ensures ReadFor(a, w, n, k)
  {
    assert HasParent(a, w, k);
    n :| ReadFor(a, w, n, k);
  }

  lemma SubjectFirst(a: Ancestry, w: Work)
    requires Indexed(a, w)
    ensures a.id in w.index && w.index[a.id] == 0
  {
    assert NumberRight(a, w, 0);
  }

  /** A second object of an id was read for a second expansion, or is one of the subject. */
  lemma CopyIsReused(a: Ancestry, w: Work, k: nat)
    requires Ended(a, w) && k < |w.ids| && !First(w, k)
    ensures Reused(a, w.ids[k])
  {
    var y := w.ids[k];
    assert NumberRight(a, w, k);
    SubjectFirst(a, w);
    var n := ParentOf(a, w, k);
    ReadForNames(a, w, n, k);
    VisitedIsExpanded(a, w, w.ids[n]);
    if y != a.id {
      var k' := w.index[y];
      var n' := ParentOf(a, w, k');
      ReadForNames(a, w, n', k');
      VisitedIsExpanded(a, w, w.ids[n']);
      if n == n' { SpanDistinct(a, w, n, k, k'); }
    }
  }

  /** Two visited transactions have different objects for the same input. */
  lemma TwoReads(a: Ancestry, w: Work, n: nat, n': nat, k: nat, k': nat)
    requires ParentsOk(a, w) && n != n' && ReadFor(a, w, n, k) && ReadFor(a, w, n', k')
    ensures k != k'
  {
  }

  /** What is an input of two expansions, or the subject, has an object that is not the first. */
  lemma ReusedIsCopied(a: Ancestry, w: Work, y: TxId) returns (k: nat)
    requires Ended(a, w) && Reused(a, y)
    ensures 0 < k < |w.ids| && w.ids[k] == y && !First(w, k)
  {
    var x, x' :|
      && Expanded(a, x) && Some(y) in a.SourcesOf(x) && Expanded(a, x') && Some(y) in a.SourcesOf(x')
      && (x != x' || y == a.id);
    VisitedIsExpanded(a, w, x);
    VisitedIsExpanded(a, w, x');
    SubjectFirst(a, w);
    k := VisitedInputs(a, w, x, y);
    if First(w, k) {
      var k' := VisitedInputs(a, w, x', y);
      TwoReads(a, w, w.index[x], w.index[x'], k, k');
      k := k';
    }
  }
}
