/**
 * The xpub rows and the model cache in front of them. Every reader goes through the cache; every
 * writer changes the datastore first and then stores its in-memory copy in the cache.
 */
module XpubTable {
  import opened Common
  import opened Uint64

  datatype Store = Store(rows: map<XpubId, Xpub>, cache: map<XpubId, Xpub>)

  /** Every cached xpub equals its datastore row. */
  ghost predicate Coherent(s: Store) {
    forall x :: x in s.cache ==> x in s.rows && s.cache[x] == s.rows[x]
  }

  /** A balance in memory is unsigned: a subtraction below zero wraps. */
  function Wrapped(balance: int): int { if balance < 0 then U64(balance) else balance }

  class Xpubs {
    var rows: map<XpubId, Xpub>
    var cache: map<XpubId, Xpub>

    ghost function Contents(): Store reads this { Store(rows, cache) }

    constructor ()
      ensures Contents() == Store(map[], map[])
    {
      rows, cache := map[], map[];
    }

    /** Reads through the cache and fills it on a miss. */
    method GetWithCache(x: XpubId) returns (r: Option<Xpub>)
      modifies this`cache
      ensures r == Lookup(old(Contents()), x)
      ensures Contents() == Filled(old(Contents()), x)
      ensures r == if x in old(cache) then Some(old(cache)[x]) else if x in rows then Some(rows[x]) else None
      ensures rows == old(rows)
        && cache == if r.Some? then old(cache)[x := r.value] else old(cache)
    {
      if x in cache { return Some(cache[x]); }
      if x !in rows { return None; }
      cache := cache[x := rows[x]];
      r := Some(rows[x]);
    }

    /** The column is written before the new value is checked; only then the copy m goes to the cache. */
    method IncrementBalance(x: XpubId, m: Xpub, increment: int) returns (r: Result<Xpub, Error>)
      modifies this
      ensures x !in old(rows) ==> r == Failure(ErrCouldNotFindXpub) && Contents() == old(Contents())
      ensures x in old(rows) ==>
        && rows == old(rows)[x := old(rows)[x].(balance := old(rows)[x].balance + increment)]
        && (if rows[x].balance < 0 then r == Failure(ErrNegativeBalance) && cache == old(cache)
            else r == Success(m.(balance := rows[x].balance)) && cache == old(cache)[x := r.value])
    {
      if x !in rows { return Failure(ErrCouldNotFindXpub); }
      var balance := rows[x].balance + increment;
      rows := rows[x := rows[x].(balance := balance)];
      if balance < 0 { return Failure(ErrNegativeBalance); }
      var updated := m.(balance := balance);
      cache := cache[x := updated];
      r := Success(updated);
    }

    /** Hands out the number that was next on the chain and moves the chain on. */
    method IncrementNextNum(x: XpubId, m: Xpub, chain: Chain) returns (r: Result<nat, Error>)
      modifies this
      ensures x !in old(rows) ==> r == Failure(ErrCouldNotFindXpub) && Contents() == old(Contents())
      ensures x in old(rows) ==>
        var next := Number(old(rows)[x], chain) + 1;
        && rows == old(rows)[x := WithNumber(old(rows)[x], chain, next)]
        && (if next > MAX_UINT32 then r == Failure(ErrNumberOutOfRange) && cache == old(cache)
            else r == Success(next - 1) && cache == old(cache)[x := WithNumber(m, chain, next)])
    {
      if x !in rows { return Failure(ErrCouldNotFindXpub); }
      var next := Number(rows[x], chain) + 1;
      rows := rows[x := WithNumber(rows[x], chain, next)];
      if next > MAX_UINT32 { return Failure(ErrNumberOutOfRange); }
      cache := cache[x := WithNumber(m, chain, next)];
      r := Success(next - 1);
    }

    /** Writes the whole in-memory copy to the datastore and to the cache. */
    method Save(x: XpubId, m: Xpub)
      modifies this
      ensures Contents() == Store(old(rows)[x := m], old(cache)[x := m])
    {
      rows := rows[x := m];
      cache := cache[x := m];
    }

    // ----- the writers of the engine: each loads the copy it writes -------------------------------

    /** Loads x and adds to its balance. */
    method AddToBalance(x: XpubId, increment: int) returns (err: Option<Error>)
      modifies this
      ensures Contents() == Apply(old(Contents()), AddBalance(x, increment))
      ensures Coherent(old(Contents())) && InRange(old(rows), AddBalance(x, increment)) ==>
        Coherent(Contents()) && rows == ApplyUncached(old(rows), AddBalance(x, increment))
      ensures Coherent(old(Contents())) && x in old(rows) ==>
        && rows == old(rows)[x := old(rows)[x].(balance := old(rows)[x].balance + increment)]
        && (old(rows)[x].balance + increment >= 0 ==> err.None?)
    {
      CoherenceHelp(Contents(), AddBalance(x, increment));
      var m := GetWithCache(x);
      if m.None? { return Some(ErrCouldNotFindXpub); }
      var r := IncrementBalance(x, m.value, increment);
      err := if r.Success? then None else Some(r.error);
    }

    method NextNumber(x: XpubId, chain: Chain) returns (r: Result<nat, Error>)
      modifies this
      ensures Contents() == Apply(old(Contents()), TakeNumber(x, chain))
      ensures Coherent(old(Contents())) && InRange(old(rows), TakeNumber(x, chain)) ==>
        Coherent(Contents()) && rows == ApplyUncached(old(rows), TakeNumber(x, chain))
      ensures Coherent(old(Contents())) ==> rows == ApplyUncached(old(rows), TakeNumber(x, chain))
      ensures Coherent(old(Contents())) && x in old(rows) ==>
        var num := Number(old(rows)[x], chain);
        r == if num < MAX_UINT32 then Success(num) else Failure(ErrNumberOutOfRange)
      ensures Coherent(old(Contents())) && x !in old(rows) ==> r == Failure(ErrCouldNotFindXpub)
    {
      CoherenceHelp(Contents(), TakeNumber(x, chain));
      var m := GetWithCache(x);
      if m.None? { return Failure(ErrCouldNotFindXpub); }
      r := IncrementNextNum(x, m.value, chain);
    }

    /** The revert's write: the loaded copy with a new balance is saved as a whole. */
    method SaveBalance(x: XpubId, decrement: int) returns (err: Option<Error>)
      modifies this
      ensures Contents() == Apply(old(Contents()), Rewrite(x, decrement))
      ensures Coherent(old(Contents())) && InRange(old(rows), Rewrite(x, decrement)) ==>
        Coherent(Contents()) && rows == ApplyUncached(old(rows), Rewrite(x, decrement))
      ensures Coherent(old(Contents())) ==> (err.None? <==> x in old(rows))
      ensures Coherent(old(Contents())) && x in old(rows) && decrement <= old(rows)[x].balance ==>
        rows == old(rows)[x := old(rows)[x].(balance := old(rows)[x].balance - decrement)]
      ensures err.None? || err == Some(ErrCouldNotFindXpub)
    {
      CoherenceHelp(Contents(), Rewrite(x, decrement));
      var m := GetWithCache(x);
      if m.None? { return Some(ErrCouldNotFindXpub); }
      Save(x, m.value.(balance := Wrapped(m.value.balance - decrement)));
      err := None;
    }

    method Create(x: XpubId) returns (err: Option<Error>)
      modifies this
      ensures Contents() == Apply(old(Contents()), Register(x))
      ensures Coherent(old(Contents())) && InRange(old(rows), Register(x)) ==>
        Coherent(Contents()) && rows == ApplyUncached(old(rows), Register(x))
      ensures Coherent(old(Contents())) ==> (err.None? <==> x !in old(rows))
      ensures err.None? || err == Some(ErrXPubAlreadyExists)
    {
      CoherenceHelp(Contents(), Register(x));
      var m := GetWithCache(x);
      if m.Some? { return Some(ErrXPubAlreadyExists); }
      Save(x, Xpub(0, 0, 0));
      err := None;
    }
  }

  // ----- the same operations on values ------------------------------------------------------------

  datatype Op =
    | Read(x: XpubId)
    | AddBalance(x: XpubId, increment: int)
    | TakeNumber(x: XpubId, chain: Chain)
    | Rewrite(x: XpubId, decrement: int)
    | Register(x: XpubId)

  function Lookup(s: Store, x: XpubId): Option<Xpub> {
    if x in s.cache then Some(s.cache[x]) else if x in s.rows then Some(s.rows[x]) else None
  }

  function Filled(s: Store, x: XpubId): Store {
    if x !in s.cache && x in s.rows then s.(cache := s.cache[x := s.rows[x]]) else s
  }

  function Apply(s: Store, op: Op): Store {
    var m := Lookup(s, op.x);
    var s := Filled(s, op.x);
    match op
    case Read(_) => s
    case AddBalance(x, increment) =>
      if m.None? || x !in s.rows then s else
        var row := s.rows[x].(balance := s.rows[x].balance + increment);
        Store(s.rows[x := row],
              if row.balance < 0 then s.cache else s.cache[x := m.value.(balance := row.balance)])
    case TakeNumber(x, chain) =>
      if m.None? || x !in s.rows then s else
        var next := Number(s.rows[x], chain) + 1;
        Store(s.rows[x := WithNumber(s.rows[x], chain, next)],
              if next > MAX_UINT32 then s.cache else s.cache[x := WithNumber(m.value, chain, next)])
    case Rewrite(x, decrement) =>
      if m.None? then s else
        var row := m.value.(balance := Wrapped(m.value.balance - decrement));
        Store(s.rows[x := row], s.cache[x := row])
    case Register(x) =>
      if m.Some? then s else Store(s.rows[x := Xpub(0, 0, 0)], s.cache[x := Xpub(0, 0, 0)])
  }

  /** The rows a datastore without a cache would hold. */
  function ApplyUncached(rows: map<XpubId, Xpub>, op: Op): map<XpubId, Xpub> {
    match op
    case Read(_) => rows
    case AddBalance(x, increment) =>
      if x in rows then rows[x := rows[x].(balance := rows[x].balance + increment)] else rows
    case TakeNumber(x, chain) =>
      if x in rows then rows[x := WithNumber(rows[x], chain, Number(rows[x], chain) + 1)] else rows
    case Rewrite(x, decrement) =>
      if x in rows then rows[x := rows[x].(balance := Wrapped(rows[x].balance - decrement))] else rows
    case Register(x) => if x in rows then rows else rows[x := Xpub(0, 0, 0)]
  }

  /** The values an operation writes fit their columns' unsigned types. */
  predicate InRange(rows: map<XpubId, Xpub>, op: Op) {
    match op
    case AddBalance(x, increment) => x in rows ==> rows[x].balance + increment >= 0
    case TakeNumber(x, chain) => x in rows ==> Number(rows[x], chain) + 1 <= MAX_UINT32
    case _ => true
  }

  /** One operation keeps a coherent store coherent exactly when what it writes is in range. */
  lemma CoherenceStep(s: Store, op: Op)
    requires Coherent(s)
    ensures InRange(s.rows, op) ==> Coherent(Apply(s, op))
    ensures Coherent(Apply(s, op)) && (op.x in s.rows ==> s.rows[op.x].balance >= 0) ==> InRange(s.rows, op)
    ensures Apply(s, op).rows == ApplyUncached(s.rows, op)
    ensures Lookup(s, op.x) == if op.x in s.rows then Some(s.rows[op.x]) else None
  {
    var m := Lookup(s, op.x);
    if op.x in s.rows {
      var s' := Apply(s, op);
      assert m == Some(s.rows[op.x]);
      if !InRange(s.rows, op) && s.rows[op.x].balance >= 0 {
        assert op.x in s'.cache && s'.cache[op.x] != s'.rows[op.x];
      }
    }
  }

  lemma CoherenceHelp(s: Store, op: Op)
    ensures Coherent(s) ==> Apply(s, op).rows == ApplyUncached(s.rows, op)
    ensures Coherent(s) && InRange(s.rows, op) ==> Coherent(Apply(s, op))
    ensures Coherent(s) ==> Lookup(s, op.x) == if op.x in s.rows then Some(s.rows[op.x]) else None
  {
    if Coherent(s) { CoherenceStep(s, op); }
  }

  ghost function ApplyAll(s: Store, ops: seq<Op>): Store
    decreases |ops|
  {
    if ops == [] then s else ApplyAll(Apply(s, ops[0]), ops[1..])
  }

  ghost function ApplyAllUncached(rows: map<XpubId, Xpub>, ops: seq<Op>): map<XpubId, Xpub>
    decreases |ops|
  {
    if ops == [] then rows else ApplyAllUncached(ApplyUncached(rows, ops[0]), ops[1..])
  }

  ghost predicate AllInRange(rows: map<XpubId, Xpub>, ops: seq<Op>)
    decreases |ops|
  {
    ops == [] || (InRange(rows, ops[0]) && AllInRange(ApplyUncached(rows, ops[0]), ops[1..]))
  }

  /** After any sequence of operations the cache is coherent and the rows are those of a store without a cache. */
  lemma {:induction false} CacheIsTransparent(s: Store, ops: seq<Op>)
    requires Coherent(s) && AllInRange(s.rows, ops)
    ensures Coherent(ApplyAll(s, ops))
    ensures ApplyAll(s, ops).rows == ApplyAllUncached(s.rows, ops)
    decreases |ops|
  {
    if ops != [] {
      CoherenceStep(s, ops[0]);
      CacheIsTransparent(Apply(s, ops[0]), ops[1..]);
    }
  }

  // ----- writers that interleave -------------------------------------------------------------------------

  /** The store, and the copies that writers have loaded and may write with later. */
  datatype Shared = Shared(store: Store, copies: map<nat, (XpubId, Xpub)>)

  /** A writer loads a copy, and later writes with it; others may have written in between. */
  datatype Move =
    | Fetch(writer: nat, x: XpubId)
    | Increment(writer: nat, amount: int)
    | Take(writer: nat, chain: Chain)
    | Rebalance(writer: nat, decrement: int)

  /** The xpub a move writes, if it writes one. */
  function Target(s: Shared, m: Move): Option<XpubId> {
    if m.Fetch? || m.writer !in s.copies || s.copies[m.writer].0 !in s.store.rows then None
    else Some(s.copies[m.writer].0)
  }

  /** Writes a row, and puts the writer's copy in the cache if the value written fits. */
  function Written(s: Shared, writer: nat, x: XpubId, row: Xpub, fits: bool, copy: Xpub): Shared {
    if fits then Shared(Store(s.store.rows[x := row], s.store.cache[x := copy]), s.copies[writer := (x, copy)])
    else s.(store := s.store.(rows := s.store.rows[x := row]))
  }

  function Moved(s: Shared, m: Move): Shared {
    if m.Fetch? then
      var copy := Lookup(s.store, m.x);
      if copy.None? then s else Shared(Filled(s.store, m.x), s.copies[m.writer := (m.x, copy.value)])
    else if Target(s, m).None? then s
    else
      var (x, copy) := s.copies[m.writer];
      var row := s.store.rows[x];
      match m
      case Increment(w, amount) =>
        var balance := row.balance + amount;
        Written(s, w, x, row.(balance := balance), balance >= 0, copy.(balance := balance))
      case Take(w, chain) =>
        var next := Number(row, chain) + 1;
        Written(s, w, x, WithNumber(row, chain, next), next <= MAX_UINT32, WithNumber(copy, chain, next))
      case Rebalance(w, decrement) =>
        var saved := copy.(balance := Wrapped(copy.balance - decrement));
        Written(s, w, x, saved, true, saved)
  }

  ghost predicate CoherentAt(s: Store, x: XpubId) { x in s.cache ==> x in s.rows && s.cache[x] == s.rows[x] }

  predicate Fits(row: Xpub) {
    row.balance >= 0 && row.nextInternal <= MAX_UINT32 && row.nextExternal <= MAX_UINT32
  }

  /** What is loaded fits the columns' unsigned types, and a writer's xpub is in the cache. */
  ghost predicate Ranged(s: Shared) {
    && (forall x :: x in s.store.cache ==> Fits(s.store.cache[x]))
    && (forall w :: w in s.copies ==> s.copies[w].0 in s.store.cache && Fits(s.copies[w].1))
    && (forall x :: x in s.store.rows && x !in s.store.cache ==> Fits(s.store.rows[x]))
  }

  /** The value written fits, and the copy agrees with the row in all that it does not write itself. */
  ghost predicate WellWritten(s: Shared, m: Move)
    requires Target(s, m).Some?
  {
    var (x, copy) := s.copies[m.writer];
    var row := s.store.rows[x];
    match m
    case Increment(_, amount) =>
      row.balance + amount >= 0 && copy.nextInternal == row.nextInternal && copy.nextExternal == row.nextExternal
    case Take(_, chain) =>
      Number(row, chain) + 1 <= MAX_UINT32 && WithNumber(copy, chain, 0) == WithNumber(row, chain, 0)
    case Rebalance(_, _) => true
  }

  lemma MovedRanged(s: Shared, m: Move)
    requires Ranged(s)
    ensures Ranged(Moved(s, m))
  {
  }

  /** A write leaves its xpub coherent exactly if it is well written, whatever was there before. */
  lemma MovedCoherent(s: Shared, m: Move, x: XpubId)
    requires Ranged(s)
    ensures if Target(s, m) == Some(x) then CoherentAt(Moved(s, m).store, x) <==> WellWritten(s, m)
            else CoherentAt(Moved(s, m).store, x) <==> CoherentAt(s.store, x)
  {
  }

  function MovedAll(s: Shared, run: seq<Move>): Shared {
    if run == [] then s else Moved(MovedAll(s, run[..|run| - 1]), run[|run| - 1])
  }

  /** The last write to x during the run was well written; if there was none, x was coherent before. */
  ghost predicate LastWriteWell(s: Shared, run: seq<Move>, x: XpubId) {
    if run == [] then CoherentAt(s.store, x)
    else
      var before := MovedAll(s, run[..|run| - 1]);
      var m := run[|run| - 1];
      if Target(before, m) == Some(x) then WellWritten(before, m) else LastWriteWell(s, run[..|run| - 1], x)
  }

  /** Over every interleaving of writers, an xpub is coherent exactly if the last write to it was well written. */
  lemma {:induction false} InterleavedCoherence(s: Shared, run: seq<Move>, x: XpubId)
    requires Ranged(s)
    ensures Ranged(MovedAll(s, run))
    ensures CoherentAt(MovedAll(s, run).store, x) <==> LastWriteWell(s, run, x)
  {
    if run != [] {
      var n := |run| - 1;
      InterleavedCoherence(s, run[..n], x);
      MovedRanged(MovedAll(s, run[..n]), run[n]);
      MovedCoherent(MovedAll(s, run[..n]), run[n], x);
    }
  }

  /** The writer's copy is the row. */
  ghost predicate Current(s: Shared, writer: nat) {
    writer in s.copies ==> s.copies[writer].0 in s.store.rows && s.copies[writer].1 == s.store.rows[s.copies[writer].0]
  }

  /** A copy stays the row until another writer writes the xpub. */
  lemma CurrentUntilWritten(s: Shared, m: Move, writer: nat)
    requires Current(s, writer) && (m.writer == writer ==> Coherent(s.store) && Target(s, m).None?)
    requires writer in s.copies ==> Target(s, m) != Some(s.copies[writer].0)
    ensures Current(Moved(s, m), writer)
  {
  }

  /**
   * A write does to the rows what it would do without a cache exactly if it does not save a whole copy
   * with counters or a balance that the row no longer has.
   */
  lemma LostUpdate(s: Shared, m: Move)
    requires Ranged(s) && Target(s, m).Some?
    ensures var x := Target(s, m).value;
      var op := match m
        case Increment(_, amount) => AddBalance(x, amount)
        case Take(_, chain) => TakeNumber(x, chain)
        case Rebalance(_, decrement) => Rewrite(x, decrement);
      Moved(s, m).store.rows == ApplyUncached(s.store.rows, op)
      <==> (m.Rebalance? ==>
              var (copy, row) := (s.copies[m.writer].1, s.store.rows[x]);
              copy.(balance := Wrapped(copy.balance - m.decrement))
                == row.(balance := Wrapped(row.balance - m.decrement)))
  {
    var x := Target(s, m).value;
    if m.Rebalance? {
      var rows' := Moved(s, m).store.rows;
      assert rows'[x] == s.copies[m.writer].1.(balance := Wrapped(s.copies[m.writer].1.balance - m.decrement));
    }
  }

  /** A writer that loads its copy before it waits for its turn puts an old balance back into the cache. */
  lemma LoadBeforeLock(x: XpubId, row: Xpub)
    requires 0 <= row.balance && row.nextInternal <= MAX_UINT32 && row.nextExternal < MAX_UINT32
    ensures var s := Shared(Store(map[x := row], map[]), map[]);
      Ranged(s) && !CoherentAt(MovedAll(s, [Fetch(0, x), Fetch(1, x), Increment(1, 5), Take(0, External)]).store, x)
  {
    var s := Shared(Store(map[x := row], map[]), map[]);
    var run := [Fetch(0, x), Fetch(1, x), Increment(1, 5), Take(0, External)];
    assert run[..3] == [Fetch(0, x), Fetch(1, x), Increment(1, 5)];
    assert run[..3][..2] == [Fetch(0, x), Fetch(1, x)] && run[..3][..2][..1] == [Fetch(0, x)];
    var s1 := MovedAll(s, run[..3][..2][..1]);
    assert s1 == Moved(MovedAll(s, []), Fetch(0, x)) == Moved(s, Fetch(0, x));
    var s2 := MovedAll(s, run[..3][..2]);
    assert s2.copies[0] == (x, row) && s2.copies[1] == (x, row);
    var s3 := MovedAll(s, run[..3]);
    assert s3.store.rows[x].balance == row.balance + 5 && s3.copies[0] == (x, row);
  }
}
