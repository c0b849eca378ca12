/**
 * Collecting the ancestors of a transaction for BEEF: a worklist over the store, up to the first
 * mined transaction on each path, with every input linked to the transaction it spends. The objects
 * are proved to be those that the numbered worklist of BeefRun describes.
 */
module Beef {
  import opened Common
  import opened Sums
  import opened BeefAncestry
  import opened BeefRun
  import opened BeefOrder

  // ----- transactions as objects -------------------------------------------------------------------------

  class SdkTx {
    const id: TxId
    /** The transaction each input spends, where the input names one. */
    const sources: seq<Option<TxId>>
    const mined: bool
    var links: seq<SdkTx?>

    constructor (id: TxId, sources: seq<Option<TxId>>, mined: bool)
      ensures this.id == id && this.sources == sources && this.mined == mined
      ensures |links| == |sources| && forall i :: 0 <= i < |links| ==> links[i] == null
    {
      this.id, this.sources, this.mined := id, sources, mined;
      links := seq(|sources|, _ => null);
    }

    /** Every input that names a transaction is linked to an object with its id. */
    ghost predicate FullyLinked()
      reads this
    {
      |links| == |sources| && forall i :: 0 <= i < |links| && sources[i].Some? ==>
        links[i] != null && links[i].id == sources[i].value
    }
  }

  /** Links every input of current that spends tx to tx. */
  method LinkSourceTransaction(current: SdkTx, tx: SdkTx)
    requires |current.links| == |current.sources|
    modifies current
    ensures |current.links| == |current.sources|
    ensures forall i :: 0 <= i < |current.links| ==>
      current.links[i] == if current.sources[i] == Some(tx.id) then tx else old(current.links)[i]
  {
    var i := 0;
    while i < |current.sources|
      invariant 0 <= i <= |current.sources| == |current.links| == |old(current.links)|
      invariant forall j :: 0 <= j < |current.links| ==>
        current.links[j] == if j < i && current.sources[j] == Some(tx.id) then tx else old(current.links)[j]
    {
      if current.sources[i] == Some(tx.id) { current.links := current.links[i := tx]; }
      i := i + 1;
    }
  }

  function Ids(list: seq<SdkTx>): seq<TxId> { seq(|list|, i requires 0 <= i < |list| => list[i].id) }

  // ----- objects and their numbers --------------------------------------------------------------------------

  /** Object k is what was read as number k. */
  ghost predicate ObjectRight(a: Ancestry, ids: seq<TxId>, all: seq<SdkTx>, k: nat)
    requires k < |ids| == |all|
  {
    && all[k].id == ids[k] && all[k].sources == SourcesAt(a, ids, k)
    && (k > 0 ==> ids[k] in a.store && a.store[ids[k]].Decodes() && all[k].mined == a.store[ids[k]].mined)
    && (k == 0 ==> ids[k] == a.id && !all[k].mined)
  }

  ghost predicate Objects(a: Ancestry, ids: seq<TxId>, all: seq<SdkTx>) {
    && |all| == |ids| && (forall k :: 0 <= k < |all| ==> ObjectRight(a, ids, all, k))
    && (forall j, k :: 0 <= j < k < |all| ==> all[j] != all[k])
  }

  ghost predicate Numbered(all: seq<SdkTx>, list: seq<SdkTx>, numbers: seq<nat>) {
    |list| == |numbers| && forall k :: 0 <= k < |list| ==> numbers[k] < |all| && list[k] == all[numbers[k]]
  }

  ghost predicate MapRight(all: seq<SdkTx>, transactions: map<TxId, SdkTx>, index: map<TxId, nat>) {
    && transactions.Keys == index.Keys
    && forall y :: y in index ==> index[y] < |all| && transactions[y] == all[index[y]]
  }

  /** The inputs that name one of ys are linked to the objects from number `start` on, the others not at all. */
  ghost predicate LinkedTo(o: SdkTx, links: seq<SdkTx?>, all: seq<SdkTx>, ys: seq<TxId>, start: nat) {
    && start + |ys| <= |all| && |links| == |o.sources|
    && (forall j, i :: 0 <= j < |links| && 0 <= i < |ys| && o.sources[j] == Some(ys[i]) ==> links[j] == all[start + i])
    && (forall j :: 0 <= j < |links| && (o.sources[j].None? || o.sources[j].value !in ys) ==> links[j] == null)
  }

  ghost predicate LinksRight(a: Ancestry, w: Work, all: seq<SdkTx>, k: nat, links: seq<SdkTx?>)
    requires k < |all| == |w.ids|
  {
    if k in w.starts then LinkedTo(all[k], links, all, InputsAt(a, w.ids, k), w.starts[k])
    else LinkedTo(all[k], links, all, [], 0)
  }

  /** More objects and ids do not change what an object is linked to. */
  lemma LinksStay(a: Ancestry, w: Work, all: seq<SdkTx>, w': Work, tx: SdkTx, k: nat, links: seq<SdkTx?>)
    requires k < |all| == |w.ids| && LinksRight(a, w, all, k, links)
    requires w'.starts == w.starts && w'.ids == w.ids + [tx.id]
    ensures LinksRight(a, w', all + [tx], k, links)
  {
    SameInputsAt(a, w.ids, [tx.id], k);
  }

  lemma LinkNext(o: SdkTx, links: seq<SdkTx?>, links': seq<SdkTx?>, all: seq<SdkTx>, ys: seq<TxId>, start: nat,
                 tx: SdkTx)
    requires LinkedTo(o, links, all, ys, start) && |all| == start + |ys| && tx.id !in ys && |links'| == |links|
    requires forall j :: 0 <= j < |links| ==> links'[j] == if o.sources[j] == Some(tx.id) then tx else links[j]
    ensures LinkedTo(o, links', all + [tx], ys + [tx.id], start)
  {
  }

  /** Links to the objects of a span leave no input out. */
  lemma SpanLinked(a: Ancestry, w: Work, all: seq<SdkTx>, n: nat, links: seq<SdkTx?>)
    requires n < |all| == |w.ids| && n in w.starts && SpanRight(a, w.ids, n, w.starts[n])
    requires LinksRight(a, w, all, n, links) && all[n].sources == SourcesAt(a, w.ids, n)
    requires forall k :: 0 <= k < |all| ==> all[k].id == w.ids[k]
    ensures forall j :: 0 <= j < |links| && all[n].sources[j].Some? ==>
      links[j] != null && links[j].id == all[n].sources[j].value
  {
    var ys, o := InputsAt(a, w.ids, n), all[n];
    NamedMembers(o.sources);
    UniqMembers(Named(o.sources));
    forall j | 0 <= j < |links| && o.sources[j].Some?
      ensures links[j] != null && links[j].id == o.sources[j].value
    {
      assert Some(o.sources[j].value) in o.sources;
      var i :| 0 <= i < |ys| && ys[i] == o.sources[j].value;
    }
  }

  /** Every link is to an object that was read. */
  lemma LinksInside(a: Ancestry, w: Work, all: seq<SdkTx>, n: nat, links: seq<SdkTx?>, j: nat) returns (k: nat)
    requires n < |all| == |w.ids| && LinksRight(a, w, all, n, links) && j < |links| && links[j] != null
    ensures k < |all| && links[j] == all[k]
  {
    var ys := InputsAt(a, w.ids, n);
    var i :| 0 <= i < |ys| && all[n].sources[j] == Some(ys[i]);
    k := w.starts[n] + i;
  }

  lemma InputNamed(sources: seq<Option<TxId>>, i: nat) returns (j: nat)
    requires i < |Uniq(Named(sources))|
    ensures j < |sources| && sources[j] == Some(Uniq(Named(sources))[i])
  {
    var y := Uniq(Named(sources))[i];
    UniqMembers(Named(sources));
    assert y in Named(sources);
    NamedMembers(sources);
    j :| 0 <= j < |sources| && sources[j] == Some(y);
  }

  /** What was read for an object is linked from it. */
  lemma LinkedParent(a: Ancestry, w: Work, all: seq<SdkTx>, n: nat, links: seq<SdkTx?>, k: nat) returns (j: nat)
    requires n < |all| == |w.ids| && ReadFor(a, w, n, k) && SpanRight(a, w.ids, n, w.starts[n])
    requires LinksRight(a, w, all, n, links) && all[n].sources == SourcesAt(a, w.ids, n)
    ensures k < |all| && j < |links| && links[j] == all[k]
  {
    j := InputNamed(all[n].sources, k - w.starts[n]);
  }

  // ----- reading inputs one by one ------------------------------------------------------------------------------

  /** The state after one more input, y, has been read. */
  function Read(a: Ancestry, w: Work, y: TxId): Work {
    var known, m := y in w.index, |w.ids|;
    w.(ids := w.ids + [y],
       index := if known then w.index else w.index[y := m],
       list := if known then w.list else w.list + [m],
       queue := if y in a.store && a.store[y].mined then w.queue else w.queue + [m])
  }

  function ReadAll(a: Ancestry, w: Work, ys: seq<TxId>): Work {
    if ys == [] then w else Read(a, ReadAll(a, w, ys[..|ys| - 1]), ys[|ys| - 1])
  }

  lemma ReadOne(a: Ancestry, w: Work, ys: seq<TxId>, i: nat)
    requires i < |ys|
    ensures ReadAll(a, w, ys[..i + 1]) == Read(a, ReadAll(a, w, ys[..i]), ys[i])
  {
    assert ys[..i + 1][..i] == ys[..i];
  }

  lemma {:induction false} ReadAllIds(a: Ancestry, w: Work, ys: seq<TxId>)
    ensures var r := ReadAll(a, w, ys); r.ids == w.ids + ys && r.visited == w.visited && r.starts == w.starts
  {
    if ys != [] {
      var n := |ys| - 1;
      ReadAllIds(a, w, ys[..n]);
      assert w.ids + ys == (w.ids + ys[..n]) + [ys[n]];
    }
  }

  lemma {:induction false} ReadAllIndex(a: Ancestry, w: Work, ys: seq<TxId>)
    ensures ReadAll(a, w, ys).index == Extended(w.index, ys, |w.ids|)
  {
    if ys != [] {
      ReadAllIndex(a, w, ys[..|ys| - 1]);
      ReadAllIds(a, w, ys[..|ys| - 1]);
    }
  }

  lemma {:induction false} ReadAllQueue(a: Ancestry, w: Work, ys: seq<TxId>)
    ensures ReadAll(a, w, ys).queue == w.queue + Later(a.store, ys, |w.ids|)
  {
    if ys != [] {
      ReadAllQueue(a, w, ys[..|ys| - 1]);
      ReadAllIds(a, w, ys[..|ys| - 1]);
    }
  }

  /** Distinct ids are new exactly if they were before any was read. */
  lemma ReadKnown(a: Ancestry, w: Work, ys: seq<TxId>)
    requires ys != [] && Distinct(ys)
    ensures ys[|ys| - 1] in ReadAll(a, w, ys[..|ys| - 1]).index <==> ys[|ys| - 1] in w.index
  {
    var n := |ys| - 1;
    ReadAllIndex(a, w, ys[..n]);
    ExtendedFacts(w.index, ys[..n], |w.ids|);
    assert ys[n] !in ys[..n];
  }

  lemma {:induction false} ReadAllList(a: Ancestry, w: Work, ys: seq<TxId>)
    requires Distinct(ys)
    ensures ReadAll(a, w, ys).list == w.list + Fresh(w.index, ys, |w.ids|)
  {
    if ys != [] {
      ReadAllList(a, w, ys[..|ys| - 1]);
      ReadAllIds(a, w, ys[..|ys| - 1]);
      ReadKnown(a, w, ys);
    }
  }

  /** Reading all inputs of object n expands it. */
  lemma ReadAllExpands(a: Ancestry, w: Work, n: nat)
    requires n < |w.ids|
    ensures var ys := InputsAt(a, w.ids, n);
      var r := ReadAll(a, w.(visited := w.visited + {w.ids[n]}), ys);
      r.(starts := w.starts[n := |w.ids|]) == Expand(a, w, n)
  {
    var ys := InputsAt(a, w.ids, n);
    var w0 := w.(visited := w.visited + {w.ids[n]});
    UniqMembers(Named(SourcesAt(a, w.ids, n)));
    ReadAllIds(a, w0, ys);
    ReadAllIndex(a, w0, ys);
    ReadAllQueue(a, w0, ys);
    ReadAllList(a, w0, ys);
  }

  // ----- the worklist ---------------------------------------------------------------------------------------

  class BeefPreparationContext {
    ghost const a: Ancestry
    ghost const subject: SdkTx
    const store: map<TxId, Record>
    var transactions: map<TxId, SdkTx>
    var visited: set<TxId>
    var queue: seq<SdkTx>
    var list: seq<SdkTx>
    /** All objects in the order in which they were read, and the state on numbers. */
    ghost var all: seq<SdkTx>
    ghost var w: Work

    ghost predicate Tables()
      reads this
    {
      && store == a.store && Objects(a, w.ids, all) && MapRight(all, transactions, w.index)
      && all != [] && all[0] == subject && visited == w.visited && Numbered(all, queue, w.queue)
      && Numbered(all, list, w.list)
    }

    /** All objects but number n are linked as the state says, and n to the inputs ys. */
    ghost predicate Links(n: nat, ys: seq<TxId>, start: nat)
      reads this, all
    {
      && |all| == |w.ids| && (forall k :: k in w.starts ==> k < |all| && w.ids[k] in w.visited)
      && (forall k :: 0 <= k < |all| && k != n ==> LinksRight(a, w, all, k, all[k].links))
      && (n < |all| ==> LinkedTo(all[n], all[n].links, all, ys, start))
    }

    ghost predicate AllLinked()
      reads this, all
    {
      && |all| == |w.ids| && (forall k :: k in w.starts ==> k < |all| && w.ids[k] in w.visited)
      && forall k :: 0 <= k < |all| ==> LinksRight(a, w, all, k, all[k].links)
    }

    /** Objects were only added, and all of them are new. */
    twostate predicate Grown()
      reads this
    {
      old(all) <= all && forall i :: |old(all)| <= i < |all| ==> fresh(all[i])
    }

    constructor (store: map<TxId, Record>, subject: SdkTx)
      requires !subject.mined && |subject.links| == |subject.sources|
      requires forall i :: 0 <= i < |subject.links| ==> subject.links[i] == null
      ensures a == Ancestry(store, subject.id, subject.sources) && this.store == store && this.subject == subject
      ensures Tables() && AllLinked() && all == [subject] && w == BeefRun.Start(a)
    {
      a := Ancestry(store, subject.id, subject.sources);
      this.store, this.subject := store, subject;
      transactions, visited := map[subject.id := subject], {};
      queue, list := [subject], [subject];
      all, w := [subject], BeefRun.Start(Ancestry(store, subject.id, subject.sources));
    }

    /** A freshly read transaction is listed if it is the first with its id, and enqueued unless it is mined. */
    method Register(tx: SdkTx)
      requires Tables() && tx !in all && tx.id in store && store[tx.id].Decodes() && w.ids != []
      requires store[tx.id].sources == Some(tx.sources) && tx.mined == store[tx.id].mined
      modifies this`transactions, this`list, this`queue, this`all, this`w
      ensures Tables() && all == old(all) + [tx]
      ensures w == Read(a, old(w), tx.id)
    {
      if tx.id !in transactions {
        transactions := transactions[tx.id := tx];
        list := list + [tx];
      }
      if !tx.mined { queue := queue + [tx]; }
      ObjectsNext(a, w.ids, all, tx);
      NumberedNext(all, old(list), w.list, tx);
      NumberedNext(all, old(queue), w.queue, tx);
      MapNext(all, old(transactions), w.index, tx);
      all := all + [tx];
      w := Read(a, w, tx.id);
    }

    /** One input of current: read, listed if new, linked, and enqueued unless mined. */
    method AddInput(y: TxId, current: SdkTx, ghost n: nat, ghost ys: seq<TxId>, ghost start: nat)
      returns (err: Option<BeefError>)
      requires Tables() && Links(n, ys, start) && n < |all| && current == all[n] && n !in w.starts
      requires y in store && y !in ys && |all| == start + |ys|
      modifies this`transactions, this`list, this`queue, this`all, this`w, current
      ensures err == if store[y].Decodes() then None else Some(Undecodable(y))
      ensures err.None? ==> Tables() && Links(n, ys + [y], start) && w == Read(a, old(w), y)
      ensures if err.None? then |all| == |old(all)| + 1 && old(all) <= all && fresh(all[|old(all)|])
        else all == old(all)
    {
      if !store[y].Decodes() { return Some(Undecodable(y)); }
      var tx := new SdkTx(y, store[y].sources.value, store[y].mined);
      ghost var all0, w0 := all, w;
      Register(tx);
      LinkNew(tx, current, n, ys, start, all0, w0);
      err := None;
    }

    /** Links current to the transaction that has just been registered. */
    method LinkNew(tx: SdkTx, current: SdkTx, ghost n: nat, ghost ys: seq<TxId>, ghost start: nat,
                   ghost all0: seq<SdkTx>, ghost w0: Work)
      requires Tables() && all == all0 + [tx] && w == Read(a, w0, tx.id) && |w0.ids| == |all0|
      requires n < |all0| && current == all[n] && n !in w.starts && tx.id !in ys && |all0| == start + |ys|
      requires forall k :: k in w0.starts ==> k < |all0| && w0.ids[k] in w0.visited
      requires forall k :: 0 <= k < |all0| && k != n ==> LinksRight(a, w0, all0, k, all0[k].links)
      requires LinkedTo(current, current.links, all0, ys, start)
      requires |tx.links| == |tx.sources| && forall i :: 0 <= i < |tx.links| ==> tx.links[i] == null
      modifies current
      ensures Links(n, ys + [tx.id], start)
    {
      ghost var links0 := current.links;
      LinkSourceTransaction(current, tx);
      LinkNext(current, links0, current.links, all0, ys, start, tx);
      forall k | 0 <= k < |all| && k != n ensures LinksRight(a, w, all, k, all[k].links) {
        if k < |all0| { LinksStay(a, w0, all0, w, tx, k, all[k].links); }
        else { NewUnlinked(a, w, all, k, tx.links); }
      }
    }

    /** Object n is being expanded: i of its inputs have been read. */
    ghost predicate Reading(found: seq<TxId>, i: nat, n: nat, start: nat, w0: Work)
      reads this, all
    {
      && i <= |found| && |all| == start + i && n < start && Tables() && Links(n, found[..i], start)
      && w == ReadAll(a, w0, found[..i]) && n !in w.starts
    }

    method AddNext(found: seq<TxId>, i: nat, current: SdkTx, ghost n: nat, ghost start: nat, ghost w0: Work)
      returns (err: Option<BeefError>)
      requires Reading(found, i, n, start, w0) && i < |found| && current == all[n]
      requires Distinct(found) && found[i] in store
      modifies this`transactions, this`list, this`queue, this`all, this`w, current
      ensures err == if store[found[i]].Decodes() then None else Some(Undecodable(found[i]))
      ensures err.None? ==> Reading(found, i + 1, n, start, w0)
      ensures Grown()
    {
      ReadOne(a, w0, found, i);
      DistinctPrefix(found, i);
      assert found[..i + 1] == found[..i] + [found[i]];
      err := AddInput(found[i], current, n, found[..i], start);
    }

    /** Adds the inputs one by one, up to the first that cannot be read. */
    method AddInputs(found: seq<TxId>, current: SdkTx, ghost n: nat) returns (err: Option<BeefError>)
      requires Reading(found, 0, n, |all|, w) && current == all[n]
      requires Distinct(found) && forall i :: 0 <= i < |found| ==> found[i] in store
      modifies this`transactions, this`list, this`queue, this`all, this`w, current
      ensures err == Refusal(store, found)
      ensures err.None? ==> Reading(found, |found|, n, |old(all)|, old(w))
      ensures Grown()
    {
      var i := 0;
      ghost var w0, start := w, |all|;
      while i < |found|
        invariant 0 <= i <= |found| && Reading(found, i, n, start, w0)
        invariant Refusal(store, found) == Refusal(store, found[i..])
        invariant Grown()
      {
        err := AddNext(found, i, current, n, start, w0);
        if err.Some? { return; }
        i := i + 1;
      }
      err := None;
    }

    method LookUp(inputIds: seq<TxId>) returns (found: seq<TxId>, err: Option<BeefError>)
      ensures var missing := NotIn(store, Uniq(inputIds));
        && (missing == [] ==> err.None? && found == Uniq(inputIds))
        && (missing != [] ==> err == Some(MissingTransactions(missing)))
    {
      var ids := UniqIds(inputIds);
      found := GetTransactionsByIDs(store, ids);
      FoundOrMissing(store, ids);
      err := None;
      if |found| != |ids| {
        var missing := GetMissingTxs(store, ids, found);
        err := Some(MissingTransactions(missing));
      }
    }

    lemma ReadingStarts(n: nat, found: seq<TxId>)
      requires Tables() && AllLinked() && n < |all| && n !in w.starts
      ensures Reading(found, 0, n, |all|, w)
    {
      assert found[..0] == [];
    }

    ghost method ReadingEnds(n: nat, found: seq<TxId>, start: nat, w0: Work)
      requires Reading(found, |found|, n, start, w0) && |w0.ids| == start && w0.ids[n] in w0.visited
      requires found == InputsAt(a, w0.ids, n)
      modifies this`w
      ensures Tables() && AllLinked() && w == ReadAll(a, w0, found).(starts := w0.starts[n := start])
    {
      assert found[..|found|] == found;
      ReadAllIds(a, w0, found);
      SameInputsAt(a, w0.ids, found, n);
      var w1 := w;
      w := w.(starts := w.starts[n := start]);
      forall k | 0 <= k < |all| ensures LinksRight(a, w, all, k, all[k].links) {
        if k != n { assert LinksRight(a, w1, all, k, all[k].links); }
      }
    }

    /** Looks up the inputs of current; either one is missing or unreadable, or all are collected and linked. */
    method ProcessInputTransactions(inputIds: seq<TxId>, current: SdkTx, ghost n: nat) returns (err: Option<BeefError>)
      requires Tables() && AllLinked() && n < |all| && current == all[n] && n !in w.starts && w.ids[n] in w.visited
      requires inputIds == Named(current.sources)
      modifies this`transactions, this`list, this`queue, this`all, this`w, current
      ensures var ys := InputsAt(a, old(w).ids, n);
        && err == Stop(store, ys)
        && (err.None? ==>
          && Tables() && AllLinked()
          && w == ReadAll(a, old(w), ys).(starts := old(w).starts[n := |old(w).ids|]))
      ensures Grown()
    {
      ghost var w0, start := w, |all|;
      assert ObjectRight(a, w.ids, all, n);
      ghost var ys := InputsAt(a, w.ids, n);
      var found;
      found, err := LookUp(inputIds);
      if err.Some? { return; }
      NoneMissing(store, ys);
      UniqMembers(inputIds);
      ReadingStarts(n, found);
      err := AddInputs(found, current, n);
      if err.Some? { return; }
      ReadingEnds(n, found, start, w0);
    }

    /** A visited transaction is skipped; another is expanded, unless an input is missing or unreadable. */
    method ProcessTransaction(current: SdkTx, ghost n: nat) returns (err: Option<BeefError>)
      requires Tables() && AllLinked() && n < |all| && current == all[n]
      modifies this, current
      ensures if old(w).ids[n] in old(w).visited then err.None? && w == old(w) && Tables() && AllLinked()
        && all == old(all)
        else
          var ys := InputsAt(a, old(w).ids, n);
          err == Stop(store, ys) && (err.None? ==> Tables() && AllLinked() && w == Expand(a, old(w), n))
      ensures Grown()
    {
      assert ObjectRight(a, w.ids, all, n);
      if current.id in visited { return None; }
      assert n !in w.starts;
      ReadAllExpands(a, w, n);
      visited := visited + {current.id};
      w := w.(visited := w.visited + {w.ids[n]});
      var inputIds := NamedSources(current.sources);
      err := ProcessInputTransactions(inputIds, current, n);
    }

    /** The first of the queue is taken and processed. */
    method ProcessFirst() returns (err: Option<BeefError>)
      requires Tables() && AllLinked() && queue != []
      modifies this, all
      ensures Taken(a, old(w), w, err) && (err.None? ==> Tables() && AllLinked())
      ensures Grown()
    {
      ghost var n := w.queue[0];
      assert ObjectRight(a, w.ids, all, n);
      var current := queue[0];
      queue := queue[1..];
      w := w.(queue := w.queue[1..]);
      err := ProcessTransaction(current, n);
    }

    /** One more step, which does not change how the run ends. */
    method Advance(ghost end: Result<Work, Halt>) returns (err: Option<BeefError>)
      requires Tables() && AllLinked() && queue != [] && Finish(a, w) == end
      modifies this, all
      ensures err.None? ==> Tables() && AllLinked() && Finish(a, w) == end && LessLeft(a, old(w), w)
      ensures err.Some? ==> end.Failure? && err == Some(end.error.err)
      ensures Grown()
    {
      ghost var v := w;
      err := ProcessFirst();
      TakenFinish(a, v, w, err);
    }

    /** Works the queue off, up to the first expansion that is stopped. */
    method ProcessQueue(ghost end: Result<Work, Halt>) returns (err: Option<BeefError>)
      requires Tables() && AllLinked() && Finish(a, w) == end
      modifies this, all
      ensures err.None? ==> Tables() && AllLinked() && end == Success(w)
      ensures err.Some? ==> end.Failure? && err == Some(end.error.err)
      ensures Grown()
    {
      err := None;
      while queue != [] && err.None?
        invariant if err.None? then Tables() && AllLinked() && Finish(a, w) == end
          else end.Failure? && err == Some(end.error.err)
        invariant Grown()
        decreases err.None?, |Universe(a) - w.visited|, |w.queue|
      {
        err := Advance(end);
      }
    }

    // ----- the links at the end ---------------------------------------------------------------------------

    /** Every object that was read is reached from the subject by links. */
    lemma {:induction false} ReachedByLinks(t: set<SdkTx>, k: nat)
      requires Tables() && AllLinked() && StartsOk(a, w) && ParentsOk(a, w)
      requires all != [] && all[0] in t && LinkClosed(t) && k < |all|
      ensures all[k] in t
      decreases k
    {
      if k == 0 { return; }
      var n := ParentOf(a, w, k);
      ReachedByLinks(t, n);
      assert StartRight(a, w, n);
      assert ObjectRight(a, w.ids, all, n) && LinksRight(a, w, all, n, all[n].links);
      var j := LinkedParent(a, w, all, n, all[n].links, k);
    }

    /** An expanded object has all its links. */
    lemma ExpandedIsLinked(n: nat)
      requires Tables() && AllLinked() && n < |all| && n in w.starts && SpanRight(a, w.ids, n, w.starts[n])
      ensures all[n].FullyLinked()
    {
      assert ObjectRight(a, w.ids, all, n) && LinksRight(a, w, all, n, all[n].links);
      forall k | 0 <= k < |all| ensures all[k].id == w.ids[k] { assert ObjectRight(a, w.ids, all, k); }
      SpanLinked(a, w, all, n, all[n].links);
    }

    /** Exactly the expanded objects and those that name no input have all their links. */
    lemma LinkedIfExpanded(n: nat)
      requires Tables() && AllLinked() && StartsOk(a, w) && n < |all|
      ensures all[n].FullyLinked() <==> n in w.starts || !HasNamed(all[n].sources)
    {
      if n in w.starts {
        assert StartRight(a, w, n);
        ExpandedIsLinked(n);
      } else {
        assert LinksRight(a, w, all, n, all[n].links);
      }
    }

    /** A first object is mined or expanded. */
    lemma FirstComplete(n: nat)
      requires Tables() && AllLinked() && Ended(a, w) && First(w, n) && n < |all|
      ensures all[n].mined || all[n].FullyLinked()
    {
      assert ObjectRight(a, w.ids, all, n);
      SubjectFirst(a, w);
      LinkedIfExpanded(n);
      if a.Expands(w.ids[n]) { EndedVisited(a, w, w.ids[n]); }
    }

    /** A further object of an id lacks links exactly if it is not mined and names inputs. */
    lemma CopyComplete(n: nat)
      requires Tables() && AllLinked() && Ended(a, w) && !First(w, n) && n < |all|
      ensures all[n].mined || all[n].FullyLinked() <==> !Incomplete(a, w.ids[n])
    {
      assert ObjectRight(a, w.ids, all, n);
      SubjectFirst(a, w);
      LinkedIfExpanded(n);
    }

    lemma AllComplete()
      requires Tables() && AllLinked() && Ended(a, w)
      ensures (forall o :: o in Elements(all) ==> o.mined || o.FullyLinked())
        <==> (forall y :: Reused(a, y) ==> !Incomplete(a, y))
    {
      forall n | 0 <= n < |all|
        ensures !(all[n].mined || all[n].FullyLinked()) ==> Reused(a, w.ids[n]) && Incomplete(a, w.ids[n])
      {
        if First(w, n) { FirstComplete(n); } else { CopyIsReused(a, w, n); CopyComplete(n); }
      }
      forall y | Reused(a, y) && Incomplete(a, y)
        ensures exists n :: 0 <= n < |all| && all[n] in Elements(all) && !(all[n].mined || all[n].FullyLinked())
      {
        var k := ReusedIsCopied(a, w, y);
        CopyComplete(k);
      }
    }

    lemma ObjectsLinkInside()
      requires Tables() && AllLinked()
      ensures LinkClosed(Elements(all))
    {
      forall o, j | o in Elements(all) && 0 <= j < |o.links| && o.links[j] != null ensures o.links[j] in Elements(all) {
        var n :| 0 <= n < |all| && all[n] == o;
        var k := LinksInside(a, w, all, n, o.links, j);
      }
    }

    lemma ObjectIsFaithful(n: nat)
      requires Tables() && n < |all|
      ensures Faithful(a, subject, all[n])
    {
      assert ObjectRight(a, w.ids, all, n);
    }

    /** The objects are the subject and what is reached from it by links, and each is as it is stored. */
    lemma ObjectsAreGraph()
      requires Tables() && AllLinked() && Ended(a, w)
      ensures IsGraph(a, subject, Elements(all))
      ensures forall t :: subject in t && LinkClosed(t) ==> Elements(all) <= t
    {
      ObjectsLinkInside();
      forall n | 0 <= n < |all| ensures Faithful(a, subject, all[n]) { ObjectIsFaithful(n); }
      forall t, n | subject in t && LinkClosed(t) && 0 <= n < |all| ensures all[n] in t { ReachedByLinks(t, n); }
    }

    /** The list has the least closed set, one object for each id, and these have all the links they need. */
    lemma ListIsClosure()
      requires Tables() && AllLinked() && Ended(a, w)
      ensures IsClosure(a, Ids(list)) && list[0] == subject
      ensures forall o :: o in list ==> o in Elements(all) && (o.mined || o.FullyLinked())
    {
      EndedIsClosure(a, w);
      assert Ids(list) == IdsAt(w.ids, w.list) by {
        forall k | 0 <= k < |list| ensures list[k].id == w.ids[w.list[k]] {
          assert ObjectRight(a, w.ids, all, w.list[k]);
        }
      }
      forall o | o in list ensures o in Elements(all) && (o.mined || o.FullyLinked()) {
        var k :| 0 <= k < |list| && list[k] == o;
        assert First(w, w.list[k]);
        FirstComplete(w.list[k]);
      }
    }
  }

  /** t contains what its members are linked to. */
  ghost predicate LinkClosed(t: set<SdkTx>)
    reads t
  {
    forall o, j :: o in t && 0 <= j < |o.links| && o.links[j] != null ==> o.links[j] in t
  }

  /** o is the subject, or as it is stored. */
  ghost predicate Faithful(a: Ancestry, subject: SdkTx, o: SdkTx) {
    if o == subject then o.id == a.id && o.sources == a.sources && !o.mined
    else
      && o.id in a.store && a.store[o.id].Decodes()
      && a.store[o.id].sources == Some(o.sources) && o.mined == a.store[o.id].mined
  }

  /** The subject and what it is linked to, directly or through others. */
  ghost predicate IsGraph(a: Ancestry, subject: SdkTx, graph: set<SdkTx>)
    reads graph
  {
    subject in graph && LinkClosed(graph) && forall o :: o in graph ==> Faithful(a, subject, o)
  }

  lemma NumberedNext(all: seq<SdkTx>, list: seq<SdkTx>, numbers: seq<nat>, tx: SdkTx)
    requires Numbered(all, list, numbers)
    ensures Numbered(all + [tx], list, numbers) && Numbered(all + [tx], list + [tx], numbers + [|all|])
  {
  }

  lemma MapNext(all: seq<SdkTx>, transactions: map<TxId, SdkTx>, index: map<TxId, nat>, tx: SdkTx)
    requires MapRight(all, transactions, index)
    ensures MapRight(all + [tx], transactions, index)
      && MapRight(all + [tx], transactions[tx.id := tx], index[tx.id := |all|])
  {
  }

  lemma ObjectsNext(a: Ancestry, ids: seq<TxId>, all: seq<SdkTx>, tx: SdkTx)
    requires Objects(a, ids, all) && ids != [] && tx !in all && tx.id in a.store && a.store[tx.id].Decodes()
    requires a.store[tx.id].sources == Some(tx.sources) && tx.mined == a.store[tx.id].mined
    ensures Objects(a, ids + [tx.id], all + [tx])
  {
    var ids', all' := ids + [tx.id], all + [tx];
    forall k | 0 <= k < |all'| ensures ObjectRight(a, ids', all', k) {
      if k < |all| { assert ObjectRight(a, ids, all, k); }
    }
  }

  lemma NoneMissing(store: map<TxId, Record>, ys: seq<TxId>)
    requires NotIn(store, ys) == []
    ensures forall i :: 0 <= i < |ys| ==> ys[i] in store
  {
    NotInMembers(store, ys);
    forall i | 0 <= i < |ys| ensures ys[i] in store { assert ys[i] !in NotIn(store, ys); }
  }

  lemma NewUnlinked(a: Ancestry, w: Work, all: seq<SdkTx>, k: nat, links: seq<SdkTx?>)
    requires k < |all| == |w.ids| && k !in w.starts && |links| == |all[k].sources|
    requires forall i :: 0 <= i < |links| ==> links[i] == null
    ensures LinksRight(a, w, all, k, links)
  {
  }

  // ----- the result -------------------------------------------------------------------------------------------

  /**
   * Collects the ancestors of a transaction. It succeeds exactly when the whole ancestry is in the store and
   * can be read. The list is then the least closed set; the subject and every listed transaction without a Merkle
   * path have all their inputs linked. `graph` has the objects reached from the subject by links, listed or not:
   * the same holds for all of them exactly if nothing without a Merkle path is reused. A failure is that of the
   * first expansion, in breadth-first order, with a missing or unreadable input.
   */
  method PrepareBEEFFactors(store: map<TxId, Record>, id: TxId, sources: Option<seq<Option<TxId>>>)
    returns (r: Result<seq<SdkTx>, BeefError>, ghost graph: set<SdkTx>)
    ensures sources.None? ==> r == Failure(Undecodable(id))
    ensures sources.Some? ==>
      var a := Ancestry(store, id, sources.value);
      && (r.Success? <==> Complete(a))
      && (r.Success? ==>
        && IsClosure(a, Ids(r.value)) && Elements(r.value) <= graph && IsGraph(a, r.value[0], graph)
        && (forall o :: o in r.value ==> o.mined || o.FullyLinked())
        && (forall t :: r.value[0] in t && LinkClosed(t) ==> graph <= t)
        && ((forall o :: o in graph ==> o.mined || o.FullyLinked())
             <==> (forall y :: Reused(a, y) ==> !Incomplete(a, y))))
      && (r.Failure? ==>
        var end := Finish(a, Start(a));
        && end.Failure? && end.error.err == r.error && Stopped(a, end.error.at, r.error)
        && StopsWith(a, end.error.at, r.error) && Nearest(a, end.error.at))
  {
    graph := {};
    if sources.None? { return Failure(Undecodable(id)), graph; }
    var subject := new SdkTx(id, sources.value, false);
    var bctx := new BeefPreparationContext(store, subject);
    ghost var a := bctx.a;
    StartOk(a);
    FinishOk(a, Start(a));
    FailureIsNearest(a);
    var err := bctx.ProcessQueue(Finish(a, Start(a)));
    if err.Some? {
      StoppedIsIncomplete(a, Finish(a, Start(a)).error.at, err.value);
      return Failure(err.value), graph;
    }
    bctx.ObjectsAreGraph();
    bctx.ListIsClosure();
    bctx.AllComplete();
    r := Success(bctx.list);
    graph := Elements(bctx.all);
  }
}
