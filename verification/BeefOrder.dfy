/** How a collection fails: at a transaction nearest to the subject whose inputs are not all to be had. */
module BeefOrder {
  import opened Common
  import opened Sums
  import opened BeefAncestry
  import opened BeefRun

  // ----- distance from the subject -----------------------------------------------------------------

  /** x is the end of a chain of d inputs that starts at the subject and goes on at what is expanded. */
  ghost predicate Reaches(a: Ancestry, x: TxId, d: nat)
    decreases d
  {
    if d == 0 then x == a.id
    else exists z :: Reaches(a, z, d - 1) && a.Expands(z) && Some(x) in a.SourcesOf(z)
  }

  ghost predicate InputsSupplied(a: Ancestry, x: TxId) {
    forall y :: Some(y) in a.SourcesOf(x) ==> y in a.store && a.store[y].Decodes()
  }

  /** Whatever is expanded at a smaller distance from the subject than k has all its inputs. */
  ghost predicate NearerSupplied(a: Ancestry, k: nat) {
    forall x, d: nat :: d < k && Reaches(a, x, d) && a.Expands(x) ==> InputsSupplied(a, x)
  }

  ghost predicate Nearest(a: Ancestry, x: TxId) { exists k: nat :: Reaches(a, x, k) && NearerSupplied(a, k) }

  // ----- what the error names -----------------------------------------------------------------------

  /** The inputs of x that are not stored, all of them, or else the first that cannot be read. */
  ghost predicate StopsWith(a: Ancestry, x: TxId, err: BeefError) {
    && a.Needed(x) && a.Expands(x)
    && if err.MissingTransactions? then
         err.ids != [] && Distinct(err.ids) && forall y :: y in err.ids <==> Some(y) in a.SourcesOf(x) && y !in a.store
       else
         (forall z :: Some(z) in a.SourcesOf(x) ==> z in a.store) && FirstUnreadable(a.store, a.SourcesOf(x), err.id)
  }

  ghost predicate FirstUnreadable(store: map<TxId, Record>, sources: seq<Option<TxId>>, y: TxId) {
    exists i :: 0 <= i < |sources| && sources[i] == Some(y) && !ReadsAt(store, sources, i)
             && forall j :: 0 <= j < i ==> ReadsAt(store, sources, j)
  }

  predicate ReadsAt(store: map<TxId, Record>, sources: seq<Option<TxId>>, i: nat)
    requires i < |sources|
  {
    sources[i].Some? ==> sources[i].value in store && store[sources[i].value].Decodes()
  }

  lemma {:induction false} RefusalNext(store: map<TxId, Record>, ys: seq<TxId>, y: TxId)
    ensures Refusal(store, ys + [y]) ==
      if Refusal(store, ys).Some? then Refusal(store, ys)
      else if y !in store || !store[y].Decodes() then Some(Undecodable(y)) else None
  {
    if ys != [] {
      assert (ys + [y])[1..] == ys[1..] + [y];
      RefusalNext(store, ys[1..], y);
    }
  }

  ghost predicate RefusedFirst(store: map<TxId, Record>, sources: seq<Option<TxId>>, r: Option<BeefError>) {
    if r.None? then forall j :: 0 <= j < |sources| ==> ReadsAt(store, sources, j)
    else r.value.Undecodable? && FirstUnreadable(store, sources, r.value.id)
  }

  lemma RefusedBefore(store: map<TxId, Record>, sources: seq<Option<TxId>>, r: Option<BeefError>)
    requires sources != [] && RefusedFirst(store, sources[..|sources| - 1], r)
    ensures r.Some? ==> RefusedFirst(store, sources, r)
    ensures r.None? ==>
      var n := |sources| - 1;
      RefusedFirst(store, sources, if ReadsAt(store, sources, n) then None else Some(Undecodable(sources[n].value)))
  {
    var n := |sources| - 1;
    var before := sources[..n];
    assert forall j :: 0 <= j < n ==>
      before[j] == sources[j] && (ReadsAt(store, before, j) <==> ReadsAt(store, sources, j));
  }

  lemma {:induction false} RefusalIsFirst(store: map<TxId, Record>, sources: seq<Option<TxId>>)
    ensures RefusedFirst(store, sources, Refusal(store, Uniq(Named(sources))))
  {
    if sources != [] {
      var n := |sources| - 1;
      var ids := Named(sources[..n]);
      RefusalIsFirst(store, sources[..n]);
      RefusedBefore(store, sources, Refusal(store, Uniq(ids)));
      RefusalLast(store, ids, sources[n]);
    }
  }

  /** What is refused with one more source. */
  lemma RefusalLast(store: map<TxId, Record>, ids: seq<TxId>, last: Option<TxId>)
    ensures Refusal(store, Uniq(ids + if last.Some? then [last.value] else [])) ==
      if Refusal(store, Uniq(ids)).Some? then Refusal(store, Uniq(ids))
      else if last.Some? && (last.value !in store || !store[last.value].Decodes()) then Some(Undecodable(last.value))
      else None
  {
    if last.None? {
      assert ids + [] == ids;
    } else {
      var y := last.value;
      assert (ids + [y])[..|ids|] == ids;
      RefusalNext(store, Uniq(ids), y);
      RefusalExact(store, Uniq(ids));
    }
  }

  lemma {:induction false} NotInDistinct(store: map<TxId, Record>, ids: seq<TxId>)
    requires Distinct(ids)
    ensures Distinct(NotIn(store, ids))
  {
    if ids != [] {
      var n := |ids| - 1;
      NotInDistinct(store, ids[..n]);
      NotInMembers(store, ids[..n]);
      var before := NotIn(store, ids[..n]);
      if ids[n] in store {
        assert before + [] == before;
      } else {
        assert (before + [ids[n]])[..|before|] == before;
      }
    }
  }

  lemma StoppedStopsWith(a: Ancestry, x: TxId, err: BeefError)
    requires Stopped(a, x, err)
    ensures StopsWith(a, x, err)
  {
    InputsMembers(a, x);
    NotInMembers(a.store, Inputs(a, x));
    NotInDistinct(a.store, Inputs(a, x));
    RefusalIsFirst(a.store, a.SourcesOf(x));
    if NotIn(a.store, Inputs(a, x)) == [] {
      forall z | Some(z) in a.SourcesOf(x) ensures z in a.store { assert z !in NotIn(a.store, Inputs(a, x)); }
    }
  }

  // ----- the worklist goes level by level ---------------------------------------------------------------

  /** One of the first m queued objects is of id x. */
  ghost predicate Waits(w: Work, x: TxId, m: nat) {
    exists j :: 0 <= j < m && j < |w.queue| && w.queue[j] < |w.ids| && w.ids[w.queue[j]] == x
  }

  ghost predicate AtDistance(a: Ancestry, w: Work, n: nat, d: nat) { n < |w.ids| && Reaches(a, w.ids[n], d) }

  /**
   * All that is expanded nearer than k has been visited; what is at distance k has been visited, or is among
   * the first m in the queue; behind them the queue has what is at distance k + 1.
   */
  ghost predicate Level(a: Ancestry, w: Work, k: nat, m: nat) {
    && m <= |w.queue|
    && (forall j :: 0 <= j < |w.queue| ==> AtDistance(a, w, w.queue[j], if j < m then k else k + 1))
    && (forall x, d: nat :: d < k && Reaches(a, x, d) && a.Expands(x) ==> x in w.visited)
    && (forall x :: Reaches(a, x, k) && a.Expands(x) ==> x in w.visited || Waits(w, x, m))
  }

  lemma LevelStart(a: Ancestry)
    ensures Level(a, Start(a), 0, 1)
  {
    assert Waits(Start(a), a.id, 1) by { assert Start(a).ids[Start(a).queue[0]] == a.id; }
  }

  /** When nothing of a level waits, the next level is complete in the queue. */
  lemma LevelUp(a: Ancestry, w: Work, k: nat)
    requires Ok(a, w) && Level(a, w, k, 0)
    ensures Level(a, w, k + 1, |w.queue|)
  {
    forall x | Reaches(a, x, k + 1) && a.Expands(x) ensures x in w.visited || Waits(w, x, |w.queue|) {
      var z :| Reaches(a, z, k) && a.Expands(z) && Some(x) in a.SourcesOf(z);
      assert z in w.visited;
      var n := VisitedInputs(a, w, z, x);
      assert x in w.visited || Queued(w, x);
    }
  }

  lemma WaitsPopped(w: Work, w': Work, x: TxId, m: nat)
    requires 0 < m <= |w.queue| && w.queue[0] < |w.ids| && x != w.ids[w.queue[0]] && Waits(w, x, m)
    requires w.ids <= w'.ids && w.queue[1..] <= w'.queue
    ensures Waits(w', x, m - 1)
  {
    var j :| 0 <= j < m && j < |w.queue| && w.queue[j] < |w.ids| && w.ids[w.queue[j]] == x;
    assert j > 0 && w'.queue[j - 1] == w.queue[1..][j - 1] == w.queue[j] && w'.ids[w.queue[j]] == w.ids[w.queue[j]];
  }

  /** The front of the queue has been visited, in this step or before; what is new is one link further. */
  lemma LevelNext(a: Ancestry, w: Work, w': Work, k: nat, m: nat)
    requires Level(a, w, k, m) && 0 < m && w.queue[0] < |w.ids|
    requires w.ids <= w'.ids && w.queue[1..] <= w'.queue && w'.visited == w.visited + {w.ids[w.queue[0]]}
    requires forall j :: |w.queue| - 1 <= j < |w'.queue| ==> AtDistance(a, w', w'.queue[j], k + 1)
    ensures Level(a, w', k, m - 1)
  {
    forall j | 0 <= j < |w'.queue| ensures AtDistance(a, w', w'.queue[j], if j < m - 1 then k else k + 1) {
      if j < |w.queue| - 1 {
        assert w'.queue[j] == w.queue[1..][j] == w.queue[j + 1];
        assert AtDistance(a, w, w.queue[j + 1], if j + 1 < m then k else k + 1);
      }
    }
    forall x | Reaches(a, x, k) && a.Expands(x) ensures x in w'.visited || Waits(w', x, m - 1) {
      if x !in w'.visited { WaitsPopped(w, w', x, m); }
    }
  }

  /** The inputs of what is at distance k are at distance k + 1. */
  lemma NewAtDistance(a: Ancestry, w: Work, k: nat, j: nat)
    requires Ok(a, w) && Expandable(a, w) && Reaches(a, w.ids[w.queue[0]], k)
    requires |w.queue| <= j + 1 && j < |Next(a, w).queue|
    ensures AtDistance(a, Next(a, w), Next(a, w).queue[j], k + 1)
  {
    var i := NewEntry(a, w, j);
    InputsRight(a, w, w.queue[0]);
    var y := InputsAt(a, w.ids, w.queue[0])[i];
    assert y in InputsAt(a, w.ids, w.queue[0]);
    assert Reaches(a, y, k + 1);
  }

  lemma VisitedSupplied(a: Ancestry, w: Work, x: TxId)
    requires Ok(a, w) && x in w.visited
    ensures InputsSupplied(a, x)
  {
    forall y | Some(y) in a.SourcesOf(x) ensures y in a.store && a.store[y].Decodes() {
      var k := VisitedInputs(a, w, x, y);
    }
  }

  lemma FrontNearest(a: Ancestry, w: Work, k: nat, m: nat)
    requires Ok(a, w) && Level(a, w, k, m) && 0 < m && w.queue[0] < |w.ids|
    ensures Nearest(a, w.ids[w.queue[0]])
  {
    assert AtDistance(a, w, w.queue[0], k);
    forall x, d: nat | d < k && Reaches(a, x, d) && a.Expands(x) ensures InputsSupplied(a, x) {
      VisitedSupplied(a, w, x);
    }
  }

  lemma ExpandedLevel(a: Ancestry, w: Work, k: nat, m: nat)
    requires Ok(a, w) && Level(a, w, k, m) && 0 < m && Expandable(a, w)
    ensures Level(a, Next(a, w), k, m - 1)
  {
    var w' := Next(a, w);
    assert AtDistance(a, w, w.queue[0], k);
    forall j | |w.queue| - 1 <= j < |w'.queue| ensures AtDistance(a, w', w'.queue[j], k + 1) {
      NewAtDistance(a, w, k, j);
    }
    LevelNext(a, w, w', k, m);
  }

  lemma SkippedLevel(a: Ancestry, w: Work, k: nat, m: nat)
    requires Level(a, w, k, m) && 0 < m && w.queue[0] < |w.ids| && w.ids[w.queue[0]] in w.visited
    ensures Level(a, w.(queue := w.queue[1..]), k, m - 1)
  {
    assert w.visited == w.visited + {w.ids[w.queue[0]]};
    LevelNext(a, w, w.(queue := w.queue[1..]), k, m);
  }

  /** The front of the queue is taken: skipped, expanded, or found to lack an input. */
  lemma TakeFront(a: Ancestry, w: Work, k: nat, m: nat) returns (w': Work, err: Option<BeefError>)
    requires Ok(a, w) && Level(a, w, k, m) && 0 < m
    ensures Taken(a, w, w', err) && (err.None? ==> Ok(a, w') && Level(a, w', k, m - 1))
    ensures err.Some? ==> Nearest(a, w.ids[w.queue[0]])
  {
    FrontRight(a, w);
    FrontNearest(a, w, k, m);
    err := None;
    if w.ids[w.queue[0]] in w.visited {
      w' := w.(queue := w.queue[1..]);
      SkipOk(a, w);
      SkippedLevel(a, w, k, m);
    } else {
      FrontExpandable(a, w);
      w', err := Next(a, w), Stop(a.store, InputsAt(a, w.ids, w.queue[0]));
      if err.None? {
        NextOk(a, w);
        ExpandedLevel(a, w, k, m);
      }
    }
  }

  /** The worklist is somewhere on its way from level to level. */
  ghost predicate OnLevel(a: Ancestry, w: Work) { Ok(a, w) && exists k: nat, m: nat :: Level(a, w, k, m) }

  /** What is at the front of the queue belongs to some level. */
  lemma FrontLevel(a: Ancestry, w: Work) returns (k: nat, m: nat)
    requires OnLevel(a, w) && w.queue != []
    ensures Level(a, w, k, m) && 0 < m
  {
    k, m :| Level(a, w, k, m);
    if m == 0 {
      LevelUp(a, w, k);
      k, m := k + 1, |w.queue|;
    }
  }

  lemma FrontOnLevel(a: Ancestry, w: Work) returns (w': Work, err: Option<BeefError>)
    requires OnLevel(a, w) && w.queue != []
    ensures Taken(a, w, w', err) && if err.Some? then Nearest(a, w.ids[w.queue[0]]) else OnLevel(a, w')
  {
    var k, m := FrontLevel(a, w);
    w', err := TakeFront(a, w, k, m);
  }

  /** If the run stops, it stops at a nearest transaction that does not have all its inputs. */
  lemma {:induction false} FinishNearest(a: Ancestry, w: Work)
    requires OnLevel(a, w)
    ensures Finish(a, w).Failure? ==> Nearest(a, Finish(a, w).error.at)
    decreases |Universe(a) - w.visited|, |w.queue|
  {
    if w.queue == [] { return; }
    var w', err := FrontOnLevel(a, w);
    TakenFinish(a, w, w', err);
    if err.None? { FinishNearest(a, w'); }
  }

  /** Of all that is needed and lacks inputs, what the run reports is one of the nearest to the subject. */
  lemma FailureIsNearest(a: Ancestry)
    ensures var r := Finish(a, Start(a));
      r.Failure? ==> StopsWith(a, r.error.at, r.error.err) && Nearest(a, r.error.at)
  {
    StartOk(a);
    LevelStart(a);
    FinishOk(a, Start(a));
    FinishNearest(a, Start(a));
    if Finish(a, Start(a)).Failure? {
      StoppedStopsWith(a, Finish(a, Start(a)).error.at, Finish(a, Start(a)).error.err);
    }
  }
}
