/**
 * The UTXO table and the reservation of UTXOs for a draft. The datastore answers queries in a fixed
 * row order, and an empty page is an empty answer.
 */
module UtxoTable {
  import opened Common
  import opened Sums
  import opened Ledger

  // ----- queries -------------------------------------------------------------------------------

  /** The spendable UTXOs of x in row order. */
  function SpendableIn(order: seq<Outpoint>, rows: map<Outpoint, Utxo>, x: XpubId): seq<Outpoint> {
    if order == [] then [] else
      var last := order[|order| - 1];
      SpendableIn(order[..|order| - 1], rows, x)
      + if last in rows && Spendable(rows[last], x) then [last] else []
  }

  lemma {:induction false} SpendableInMembers(order: seq<Outpoint>, rows: map<Outpoint, Utxo>, x: XpubId)
    ensures forall o :: o in SpendableIn(order, rows, x) <==> o in order && o in rows && Spendable(rows[o], x)
    ensures Distinct(order) ==> Distinct(SpendableIn(order, rows, x))
  {
    if order != [] {
      var n := |order| - 1;
      SpendableInMembers(order[..n], rows, x);
      assert order == order[..n] + [order[n]];
      var before := SpendableIn(order[..n], rows, x);
      var list := SpendableIn(order, rows, x);
      if order[n] in rows && Spendable(rows[order[n]], x) {
        assert list == before + [order[n]] && list[..|list| - 1] == before;
      } else {
        assert list == before;
      }
    }
  }

  lemma {:induction false} SpendableInLength(order: seq<Outpoint>, rows: map<Outpoint, Utxo>, x: XpubId)
    ensures |SpendableIn(order, rows, x)| <= |order|
  {
    if order != [] { SpendableInLength(order[..|order| - 1], rows, x); }
  }

  lemma {:induction false} SpendableInPrefix(order: seq<Outpoint>, rows: map<Outpoint, Utxo>, x: XpubId, n: nat)
    requires n <= |order|
    ensures SpendableIn(order[..n], rows, x) <= SpendableIn(order, rows, x)
    decreases |order|
  {
    if n < |order| {
      SpendableInPrefix(order[..|order| - 1], rows, x, n);
      assert order[..|order| - 1][..n] == order[..n];
    } else {
      assert order[..n] == order;
    }
  }

  lemma {:induction false} SpendableInFrame(order: seq<Outpoint>, rows: map<Outpoint, Utxo>, o: Outpoint, u: Utxo,
                                            x: XpubId)
    requires o !in order
    ensures SpendableIn(order, rows, x) == SpendableIn(order, rows[o := u], x)
  {
    if order != [] { SpendableInFrame(order[..|order| - 1], rows, o, u, x); }
  }

  lemma FirstOfConcat<T>(a: seq<T>, b: seq<T>, x: T, rest: seq<T>)
    requires a + b == [x] + rest
    ensures a == [] ==> b == [x] + rest
    ensures a != [] ==> a == [x] + a[1..] && rest == a[1..] + b
  {
    if a != [] {
      assert a[0] == (a + b)[0] == x;
      assert a[1..] + b == (a + b)[1..] == rest;
    } else {
      assert a + b == b;
    }
  }

  lemma ReserveOnly(order: seq<Outpoint>, rows: map<Outpoint, Utxo>, x: XpubId, u: Utxo)
    requires order != [] && Distinct(order) && SpendableIn(order[..|order| - 1], rows, x) == [] && u.draft.Some?
    ensures SpendableIn(order, rows[order[|order| - 1] := u], x) == []
  {
    SpendableInFrame(order[..|order| - 1], rows, order[|order| - 1], u, x);
  }

  /** Reserving the first spendable UTXO leaves the others, in the same order. */
  lemma {:induction false} ReserveFirst(order: seq<Outpoint>, rows: map<Outpoint, Utxo>, x: XpubId,
                                        o: Outpoint, rest: seq<Outpoint>, u: Utxo)
    requires Distinct(order) && SpendableIn(order, rows, x) == [o] + rest && u.draft.Some?
    ensures o in order && SpendableIn(order, rows[o := u], x) == rest
  {
    var n := |order| - 1;
    var last := order[n];
    var before := SpendableIn(order[..n], rows, x);
    var tail := if last in rows && Spendable(rows[last], x) then [last] else [];
    FirstOfConcat(before, tail, o, rest);
    if before == [] {
      assert tail[0] == o && |tail| == 1 && rest == [];
      ReserveOnly(order, rows, x, u);
    } else {
      ReserveFirst(order[..n], rows, x, o, before[1..], u);
    }
  }

  function Satoshis(rows: map<Outpoint, Utxo>, list: seq<Outpoint>): nat {
    if list == [] then 0 else
      var last := list[|list| - 1];
      Satoshis(rows, list[..|list| - 1]) + if last in rows then rows[last].satoshis else 0
  }

  lemma {:induction false} SatoshisPrefix(rows: map<Outpoint, Utxo>, list: seq<Outpoint>, n: nat)
    requires n <= |list|
    ensures Satoshis(rows, list[..n]) <= Satoshis(rows, list)
    decreases |list|
  {
    if n < |list| {
      SatoshisPrefix(rows, list[..|list| - 1], n);
      assert list[..|list| - 1][..n] == list[..n];
    } else {
      assert list[..n] == list;
    }
  }

  // ----- the amount reserved ---------------------------------------------------------------------

  /** The fees of n inputs. */
  function Fees(n: nat, inputFee: nat): nat {
    if n == 0 then 0 else Fees(n - 1, inputFee) + inputFee
  }

  lemma {:induction false} FeesTimes(n: nat, inputFee: nat)
    ensures Fees(n, inputFee) == n * inputFee
  {
    if n > 0 {
      FeesTimes(n - 1, inputFee);
      assert n * inputFee == (n - 1) * inputFee + inputFee;
    }
  }

  /** The first n entries pay for `satoshis` and for the fee of n inputs. */
  predicate Reaches(rows: map<Outpoint, Utxo>, list: seq<Outpoint>, satoshis: nat, inputFee: nat, n: nat)
    requires n <= |list|
  {
    Satoshis(rows, list[..n]) >= satoshis + Fees(n, inputFee)
  }

  /** n is the length of the shortest non-empty prefix that reaches the threshold, or of the whole list. */
  ghost predicate ShortestPrefix(rows: map<Outpoint, Utxo>, list: seq<Outpoint>, satoshis: nat, inputFee: nat, n: nat) {
    && n <= |list| && (list != [] ==> n > 0)
    && (n < |list| ==> Reaches(rows, list, satoshis, inputFee, n))
    && forall k: nat :: 0 < k < n ==> !Reaches(rows, list, satoshis, inputFee, k)
  }

  /** Not enough exactly when the whole list falls short; otherwise a shortest sufficient prefix. */
  ghost predicate Answered(rows: map<Outpoint, Utxo>, list: seq<Outpoint>, satoshis: nat, inputFee: nat,
                           r: Result<seq<Outpoint>, Error>)
  {
    if Satoshis(rows, list) < satoshis then r == Failure(ErrNotEnoughUtxos)
    else r.Success? && r.value <= list && ShortestPrefix(rows, list, satoshis, inputFee, |r.value|)
  }

  /** A shortest prefix covers the requested satoshis exactly when the whole list does. */
  lemma ShortestPrefixEnough(rows: map<Outpoint, Utxo>, list: seq<Outpoint>, satoshis: nat, inputFee: nat, n: nat)
    requires ShortestPrefix(rows, list, satoshis, inputFee, n)
    ensures Satoshis(rows, list[..n]) < satoshis <==> Satoshis(rows, list) < satoshis
  {
    SatoshisPrefix(rows, list, n);
    if n == |list| { assert list[..n] == list; }
  }

  // ----- what a reservation takes, column by column -----------------------------------------------

  /** Free UTXOs of x: paid to a public key hash, reserved and spent by nobody. */
  ghost predicate Free(rows: map<Outpoint, Utxo>, x: XpubId, o: Outpoint) {
    && o in rows && rows[o].xpub == x && rows[o].scriptType == PubKeyHash
    && rows[o].draft.None? && rows[o].spending.None?
  }

  /** list has the free UTXOs of x, each once, in row order. */
  ghost predicate ListsFree(order: seq<Outpoint>, rows: map<Outpoint, Utxo>, x: XpubId, list: seq<Outpoint>) {
    && Distinct(list) && (forall o :: o in list <==> Free(rows, x, o))
    && forall i, j :: 0 <= i < j < |list| ==> Precedes(order, list[i], list[j])
  }

  ghost predicate Precedes(order: seq<Outpoint>, o: Outpoint, p: Outpoint) {
    exists a, b :: 0 <= a < b < |order| && order[a] == o && order[b] == p
  }

  lemma {:induction false} SpendableInOrder(order: seq<Outpoint>, rows: map<Outpoint, Utxo>, x: XpubId, i: nat, j: nat)
    requires i < j < |SpendableIn(order, rows, x)|
    ensures Precedes(order, SpendableIn(order, rows, x)[i], SpendableIn(order, rows, x)[j])
  {
    var n := |order| - 1;
    var before, list := SpendableIn(order[..n], rows, x), SpendableIn(order, rows, x);
    if j < |before| {
      SpendableInOrder(order[..n], rows, x, i, j);
      var a, b :| 0 <= a < b < n && order[..n][a] == before[i] && order[..n][b] == before[j];
      assert order[a] == list[i] && order[b] == list[j];
    } else {
      SpendableInMembers(order[..n], rows, x);
      assert before[i] in order[..n];
      var a :| 0 <= a < n && order[..n][a] == before[i];
      assert order[a] == list[i] && order[n] == list[j];
    }
  }

  lemma SpendableListsFree(order: seq<Outpoint>, rows: map<Outpoint, Utxo>, x: XpubId)
    requires Distinct(order) && Elements(order) == rows.Keys
    ensures ListsFree(order, rows, x, SpendableIn(order, rows, x))
  {
    var list := SpendableIn(order, rows, x);
    SpendableInMembers(order, rows, x);
    forall i, j | 0 <= i < j < |list| ensures Precedes(order, list[i], list[j]) {
      SpendableInOrder(order, rows, x, i, j);
    }
    assert forall o :: o in order <==> o in Elements(order);
  }

  /**
   * picked is the shortest non-empty front of the list that pays for the amount and a fee for each UTXO, or the
   * whole list; in any case it pays for the amount.
   */
  ghost predicate PaysFor(rows: map<Outpoint, Utxo>, list: seq<Outpoint>, picked: seq<Outpoint>, satoshis: nat,
                          inputFee: nat)
  {
    && picked <= list && (list != [] ==> picked != []) && Satoshis(rows, picked) >= satoshis
    && (picked == list || Satoshis(rows, picked) >= satoshis + |picked| * inputFee)
    && forall k: nat :: 0 < k < |picked| ==> Satoshis(rows, picked[..k]) < satoshis + k * inputFee
  }

  /** Exactly the rows of picked now name d; nothing else has changed. */
  ghost predicate NowNames(rows: map<Outpoint, Utxo>, rows': map<Outpoint, Utxo>, picked: seq<Outpoint>, d: DraftId) {
    && rows'.Keys == rows.Keys
    && forall o :: o in rows ==>
         rows'[o] == if o in picked
                     then Utxo(rows[o].xpub, rows[o].satoshis, rows[o].scriptType, Some(d), rows[o].spending)
                     else rows[o]
  }

  /** Free UTXOs are reserved if together they are worth the amount; if not, nothing changes. */
  ghost predicate FreeTaken(rows: map<Outpoint, Utxo>, rows': map<Outpoint, Utxo>, list: seq<Outpoint>, d: DraftId,
                            satoshis: nat, inputFee: nat, r: Result<seq<Outpoint>, Error>)
  {
    if Satoshis(rows, list) < satoshis then r == Failure(ErrNotEnoughUtxos) && rows' == rows
    else r.Success? && PaysFor(rows, list, r.value, satoshis, inputFee) && NowNames(rows, rows', r.value, d)
  }

  lemma AnsweredPays(rows: map<Outpoint, Utxo>, rows': map<Outpoint, Utxo>, list: seq<Outpoint>, d: DraftId,
                     satoshis: nat, inputFee: nat, r: Result<seq<Outpoint>, Error>)
    requires Answered(rows, list, satoshis, inputFee, r)
    requires rows' == if r.Success? then Reserved(rows, Elements(r.value), d) else rows
    ensures FreeTaken(rows, rows', list, d, satoshis, inputFee, r)
  {
    if r.Success? {
      var n := |r.value|;
      assert list[..n] == r.value;
      ShortestPrefixEnough(rows, list, satoshis, inputFee, n);
      FeesTimes(n, inputFee);
      forall k: nat | 0 < k < n ensures Satoshis(rows, r.value[..k]) < satoshis + k * inputFee {
        FeesTimes(k, inputFee);
        assert r.value[..k] == list[..k] && !Reaches(rows, list, satoshis, inputFee, k);
      }
    }
  }

  /** The first name that is not to be had: unknown, of another owner, or spent. */
  ghost predicate NamesRefused(rows: map<Outpoint, Utxo>, x: XpubId, from: seq<Outpoint>, err: Option<Error>) {
    if from == [] then err == Some(ErrMissingUTXOsSpendable)
    else if forall i :: 0 <= i < |from| ==>
              from[i] in rows && rows[from[i]].xpub == x && rows[from[i]].spending.None? then
      err == None
    else
      exists i :: 0 <= i < |from|
        && (forall j :: 0 <= j < i ==> from[j] in rows && rows[from[j]].xpub == x && rows[from[j]].spending.None?)
        && if from[i] !in rows then err == Some(ErrCouldNotFindUtxo)
           else (rows[from[i]].xpub != x || rows[from[i]].spending.Some?) && err == Some(ErrUtxoAlreadySpent)
  }

  /** The names are let go of, with whatever else of x named d. */
  ghost predicate LetGo(rows: map<Outpoint, Utxo>, rows': map<Outpoint, Utxo>, from: seq<Outpoint>, x: XpubId,
                        d: DraftId)
  {
    && rows'.Keys == rows.Keys
    && forall o :: o in rows ==>
         rows'[o] == if o in from || (rows[o].xpub == x && rows[o].draft == Some(d))
                     then Utxo(rows[o].xpub, rows[o].satoshis, rows[o].scriptType, None, rows[o].spending)
                     else rows[o]
  }

  /** What naming UTXOs to be had does: as many as are needed are taken, whatever draft held them. */
  ghost predicate NamesTaken(rows: map<Outpoint, Utxo>, rows': map<Outpoint, Utxo>, x: XpubId, d: DraftId,
                             satoshis: nat, inputFee: nat, from: seq<Outpoint>, r: Result<seq<Outpoint>, Error>,
                             picked: seq<Outpoint>)
  {
    if Satoshis(rows, from) < satoshis then r == Failure(ErrNotEnoughUtxos) && LetGo(rows, rows', from, x, d)
    else
      && PaysFor(rows, from, picked, satoshis, inputFee) && NowNames(rows, rows', picked, d)
      && if exists i, j :: 0 <= i < j < |picked| && picked[i] == picked[j] then r == Failure(ErrDuplicateUTXOs)
         else r == Success(picked)
  }

  lemma NamedTakes(rows: map<Outpoint, Utxo>, rows': map<Outpoint, Utxo>, x: XpubId, d: DraftId, satoshis: nat,
                   inputFee: nat, from: seq<Outpoint>, r: Result<seq<Outpoint>, Error>, picked: seq<Outpoint>)
    requires NamedAnswer(rows, rows', x, d, satoshis, inputFee, from, r, picked) && FromError(rows, x, from).None?
    ensures NamesTaken(rows, rows', x, d, satoshis, inputFee, from, r, picked)
  {
    var n := |picked|;
    assert from[..n] == picked;
    ShortestPrefixEnough(rows, from, satoshis, inputFee, n);
    if Satoshis(rows, from) < satoshis {
      NamedAll(rows, x, from);
      assert picked == from;
    } else {
      AnsweredPays(rows, rows', from, d, satoshis, inputFee, Success(picked));
      DistinctIndices(picked);
    }
  }

  // ----- the table ------------------------------------------------------------------------------

  class Utxos {
    var order: seq<Outpoint>
    var rows: map<Outpoint, Utxo>

    ghost predicate Valid() reads this { Distinct(order) && Elements(order) == rows.Keys }

    constructor ()
      ensures Valid() && order == [] && rows == map[]
    {
      order, rows := [], map[];
    }

    /** Creates or updates a row; new rows come last. */
    method Save(o: Outpoint, u: Utxo)
      requires Valid()
      modifies this
      ensures Valid() && rows == old(rows)[o := u]
      ensures order == old(order) + if o in old(rows) then [] else [o]
    {
      if o !in rows {
        assert o !in Elements(order);
        order := order + [o];
        assert order[..|order| - 1] == old(order);
      }
      rows := rows[o := u];
      assert Elements(order) == Elements(old(order)) + {o};
    }

    /** The UTXOs created by t. */
    method OfTransaction(t: TxId) returns (list: seq<Outpoint>)
      requires Valid()
      ensures forall o :: o in list <==> o in rows && o.txId == t
    {
      list := [];
      var i := 0;
      while i < |order|
        invariant 0 <= i <= |order| && forall o :: o in list <==> o in order[..i] && o.txId == t
      {
        if order[i].txId == t { list := list + [order[i]]; }
        i := i + 1;
        assert order[..i] == order[..i - 1] + [order[i - 1]];
      }
      assert order[..i] == order && forall o :: o in order <==> o in Elements(order);
    }

    /** The UTXOs whose draft column names d. */
    method HeldBy(d: DraftId) returns (list: seq<Outpoint>)
      requires Valid()
      ensures forall o :: o in list <==> o in rows && rows[o].draft == Some(d)
    {
      list := [];
      var i := 0;
      assert forall o :: o in order <==> o in Elements(order);
      while i < |order|
        invariant 0 <= i <= |order|
        invariant forall o :: o in list <==> o in order[..i] && o in rows && rows[o].draft == Some(d)
      {
        if rows[order[i]].draft == Some(d) { list := list + [order[i]]; }
        i := i + 1;
        assert order[..i] == order[..i - 1] + [order[i - 1]];
      }
      assert order[..i] == order;
    }

    /** The first page of the spendable UTXOs of x. */
    method GetSpendable(x: XpubId, pageSize: nat) returns (page: seq<Outpoint>)
      requires Valid() && pageSize > 0
      ensures var list := SpendableIn(order, rows, x);
        page == if |list| <= pageSize then list else list[..pageSize]
    {
      page := [];
      var i := 0;
      assert order[..0] == [];
      while i < |order| && |page| < pageSize
        invariant 0 <= i <= |order| && |page| <= pageSize
        invariant page == SpendableIn(order[..i], rows, x)
      {
        assert order[..i + 1][..i] == order[..i];
        assert order[i] in Elements(order);
        if Spendable(rows[order[i]], x) { page := page + [order[i]]; }
        i := i + 1;
      }
      SpendableInPrefix(order, rows, x, i);
      if i == |order| { assert order[..i] == order; }
    }

    /** Reserves one more UTXO, which may be reserved already. */
    method ReserveOne(d: DraftId, o: Outpoint, ghost rows0: map<Outpoint, Utxo>, ghost picked: seq<Outpoint>)
      returns (satoshis: nat)
      requires Valid() && o in rows0 && rows == Reserved(rows0, Elements(picked), d)
      modifies this
      ensures Valid() && order == old(order) && satoshis == rows0[o].satoshis
      ensures rows == Reserved(rows0, Elements(picked + [o]), d)
    {
      ReservedAgain(rows0, picked, o, d);
      satoshis := rows[o].satoshis;
      Save(o, rows[o].(draft := Some(d)));
    }

    method ReserveEach(d: DraftId, list: seq<Outpoint>)
      requires Valid() && forall o :: o in list ==> o in rows
      modifies this
      ensures Valid() && order == old(order) && rows == Reserved(old(rows), Elements(list), d)
    {
      var i := 0;
      ghost var taken: seq<Outpoint> := [];
      assert rows == Reserved(rows, Elements(taken), d);
      while i < |list|
        invariant 0 <= i <= |list| && taken == list[..i] && Valid() && order == old(order)
        invariant rows == Reserved(old(rows), Elements(taken), d)
      {
        var satoshis := ReserveOne(d, list[i], old(rows), taken);
        taken := taken + [list[i]];
        i := i + 1;
      }
    }

    /** All spendable UTXOs of x, without paging, are taken for draft d. */
    method ReserveAll(x: XpubId, d: DraftId) returns (list: seq<Outpoint>)
      requires Valid()
      modifies this
      ensures Valid() && order == old(order)
      ensures list == SpendableIn(order, old(rows), x) && rows == Reserved(old(rows), Elements(list), d)
      ensures Distinct(list) && forall o :: o in list ==> o in old(rows) && Spendable(old(rows)[o], x)
      ensures ListsFree(order, old(rows), x, list) && NowNames(old(rows), rows, list, d)
    {
      SpendableListsFree(order, rows, x);
      SpendableInMembers(order, rows, x);
      SpendableInLength(order, rows, x);
      list := GetSpendable(x, |order| + 1);
      ReserveEach(d, list);
    }

    /** Named UTXOs must exist, belong to x and be unspent; their draft column is not read. */
    method GetNamed(x: XpubId, from: seq<Outpoint>) returns (err: Option<Error>)
      ensures err == FromError(rows, x, from) && NamesRefused(rows, x, from, err)
    {
      var i := 0;
      while i < |from|
        invariant 0 <= i <= |from|
        invariant NamedError(rows, x, from) == NamedError(rows, x, from[i..])
        invariant forall j :: 0 <= j < i ==> from[j] in rows && rows[from[j]].xpub == x && rows[from[j]].spending.None?
      {
        if from[i] !in rows { return Some(ErrCouldNotFindUtxo); }
        if rows[from[i]].xpub != x || rows[from[i]].spending.Some? { return Some(ErrUtxoAlreadySpent); }
        i := i + 1;
      }
      err := if from == [] then Some(ErrMissingUTXOsSpendable) else None;
    }

    /** Reserves the first spendable UTXO. */
    method TakeOne(x: XpubId, d: DraftId, o: Outpoint, ghost picked: seq<Outpoint>, ghost list: seq<Outpoint>,
                   ghost rows0: map<Outpoint, Utxo>)
      returns (satoshis: nat)
      requires Valid() && Taken(rows0, rows, order, x, d, list, picked)
      requires SpendableIn(order, rows, x) != [] && SpendableIn(order, rows, x)[0] == o
      modifies this
      ensures Valid() && order == old(order) && Taken(rows0, rows, order, x, d, list, picked + [o])
      ensures SpendableIn(order, rows, x) == old(SpendableIn(order, rows, x))[1..]
      ensures o in rows0 && satoshis == rows0[o].satoshis
    {
      ghost var left := SpendableIn(order, rows, x);
      assert left == [o] + left[1..];
      TakeNext(rows0, rows, order, x, d, list, picked, o, left[1..]);
      satoshis := rows[o].satoshis;
      Save(o, rows[o].(draft := Some(d)));
    }

    /** Reserves the UTXOs of one page in order, and stops once the threshold is reached. */
    method ReservePage(x: XpubId, d: DraftId, satoshis: nat, inputFee: nat, page: seq<Outpoint>,
                       picked0: seq<Outpoint>, reserved0: nat, fees0: nat,
                       ghost list: seq<Outpoint>, ghost rows0: map<Outpoint, Utxo>)
      returns (picked: seq<Outpoint>, reserved: nat, feeNeeded: nat, reached: bool)
      requires Valid() && page <= SpendableIn(order, rows, x)
      requires Taken(rows0, rows, order, x, d, list, picked0)
      requires reserved0 == Satoshis(rows0, picked0) && fees0 == Fees(|picked0|, inputFee)
      requires Below(rows0, picked0, satoshis, inputFee, |picked0|)
      modifies this
      ensures Valid() && order == old(order)
      ensures Taken(rows0, rows, order, x, d, list, picked)
      ensures reserved == Satoshis(rows0, picked) && feeNeeded == Fees(|picked|, inputFee) && |picked| >= |picked0|
      ensures if reached then
          |picked| > 0 && reserved >= satoshis + Fees(|picked|, inputFee)
          && Below(rows0, picked, satoshis, inputFee, |picked| - 1)
        else
          |picked| == |picked0| + |page| && Below(rows0, picked, satoshis, inputFee, |picked|)
    {
      picked, reserved, feeNeeded := picked0, reserved0, fees0;
      var i := 0;
      while i < |page|
        invariant 0 <= i <= |page| && |picked| == |picked0| + i
        invariant Valid() && order == old(order)
        invariant page[i..] <= SpendableIn(order, rows, x)
        invariant Taken(rows0, rows, order, x, d, list, picked)
        invariant reserved == Satoshis(rows0, picked) && feeNeeded == Fees(|picked|, inputFee)
        invariant Below(rows0, picked, satoshis, inputFee, |picked|)
      {
        assert page[i] == page[i..][0] && page[i..][1..] == page[i + 1..];
        BelowNext(rows0, picked, page[i], satoshis, inputFee);
        var worth := TakeOne(x, d, page[i], picked, list, rows0);
        reserved := reserved + worth;
        picked := picked + [page[i]];
        feeNeeded := feeNeeded + inputFee;
        if reserved >= satoshis + feeNeeded { reached := true; return; }
        i := i + 1;
      }
      reached := false;
    }

    /**
     * Reserves page by page, asking for the first page again each time, until the threshold is
     * reached or nothing spendable is left.
     */
    method ReservePages(x: XpubId, d: DraftId, satoshis: nat, inputFee: nat, pageSize: nat, ghost list: seq<Outpoint>)
      returns (picked: seq<Outpoint>, reserved: nat)
      requires Valid() && list == SpendableIn(order, rows, x)
      modifies this
      ensures Valid() && order == old(order)
      ensures reserved == Satoshis(old(rows), picked) && rows == Reserved(old(rows), Elements(picked), d)
      ensures picked <= list && ShortestPrefix(old(rows), list, satoshis, inputFee, |picked|)
    {
      var size := if pageSize == 0 then DEFAULT_PAGE_SIZE else pageSize;
      var reached, feeNeeded := false, 0;
      picked, reserved := [], 0;
      assert rows == Reserved(old(rows), Elements(picked), d);
      while !reached
        invariant Valid() && order == old(order)
        invariant Taken(old(rows), rows, order, x, d, list, picked)
        invariant reserved == Satoshis(old(rows), picked) && feeNeeded == Fees(|picked|, inputFee)
        invariant if reached then
            |picked| > 0 && reserved >= satoshis + Fees(|picked|, inputFee)
            && Below(old(rows), picked, satoshis, inputFee, |picked| - 1)
          else
            Below(old(rows), picked, satoshis, inputFee, |picked|)
        decreases |SpendableIn(order, rows, x)|, !reached
      {
        var page := GetSpendable(x, size);
        if page == [] { break; }
        assert |list| == |picked| + |SpendableIn(order, rows, x)|;
        picked, reserved, feeNeeded, reached :=
          ReservePage(x, d, satoshis, inputFee, page, picked, reserved, feeNeeded, list, old(rows));
        assert |list| == |picked| + |SpendableIn(order, rows, x)|;
      }
      Settled(old(rows), rows, order, x, d, list, picked, satoshis, inputFee, reached);
    }

    /** Reserves page by page, and gives everything back if it is too little. */
    method TakeSpendable(x: XpubId, d: DraftId, satoshis: nat, inputFee: nat, pageSize: nat)
      returns (r: Result<seq<Outpoint>, Error>)
      requires Valid() && forall o :: o in rows ==> rows[o].draft != Some(d)
      modifies this
      ensures Valid() && order == old(order)
      ensures Answered(old(rows), SpendableIn(order, old(rows), x), satoshis, inputFee, r)
      ensures rows == if r.Success? then Reserved(old(rows), Elements(r.value), d) else old(rows)
      ensures r.Success? ==> Picked(old(rows), x, r.value)
    {
      ghost var list := SpendableIn(order, rows, x);
      var picked, reserved := ReservePages(x, d, satoshis, inputFee, pageSize, list);
      PrefixFacts(old(rows), order, x, d, list, picked, satoshis, inputFee);
      if reserved < satoshis {
        UnReserve(x, d);
        return Failure(ErrNotEnoughUtxos);
      }
      var repeated := HasRepeated(picked);
      if repeated { return Failure(ErrDuplicateUTXOs); }
      r := Success(picked);
    }

    /**
     * The error comes exactly when all free satoshis of x together are too few, and then nothing has
     * changed; otherwise the shortest sufficient prefix of the free UTXOs is reserved.
     */
    method ReserveSpendable(x: XpubId, d: DraftId, satoshis: nat, inputFee: nat, pageSize: nat)
      returns (r: Result<seq<Outpoint>, Error>)
      requires Valid() && forall o :: o in rows ==> rows[o].draft != Some(d)
      modifies this
      ensures Valid() && order == old(order)
      ensures Answered(old(rows), SpendableIn(order, old(rows), x), satoshis, inputFee, r)
      ensures rows == if r.Success? then Reserved(old(rows), Elements(r.value), d) else old(rows)
      ensures r.Success? ==>
        Distinct(r.value) && forall o :: o in r.value ==> o in old(rows) && Spendable(old(rows)[o], x)
      ensures var list := SpendableIn(order, old(rows), x);
        && ListsFree(order, old(rows), x, list)
        && FreeTaken(old(rows), rows, list, d, satoshis, inputFee, r)
    {
      ghost var rows0, list := rows, SpendableIn(order, rows, x);
      SpendableListsFree(order, rows, x);
      r := TakeSpendable(x, d, satoshis, inputFee, pageSize);
      AnsweredPays(rows0, rows, list, d, satoshis, inputFee, r);
    }

    /** Reserves the named UTXOs in the given order, in one pass, until the threshold is reached. */
    method ReserveList(d: DraftId, satoshis: nat, inputFee: nat, from: seq<Outpoint>)
      returns (picked: seq<Outpoint>, reserved: nat)
      requires Valid() && forall o :: o in from ==> o in rows
      modifies this
      ensures Valid() && order == old(order)
      ensures reserved == Satoshis(old(rows), picked) && rows == Reserved(old(rows), Elements(picked), d)
      ensures picked <= from && ShortestPrefix(old(rows), from, satoshis, inputFee, |picked|)
    {
      picked, reserved := [], 0;
      ghost var rows0 := rows;
      var feeNeeded, i := 0, 0;
      assert rows == Reserved(rows0, Elements(picked), d);
      while i < |from|
        invariant 0 <= i <= |from| && picked == from[..i] && Valid() && order == old(order)
        invariant rows == Reserved(rows0, Elements(picked), d)
        invariant reserved == Satoshis(rows0, picked) && feeNeeded == Fees(|picked|, inputFee)
        invariant Below(rows0, picked, satoshis, inputFee, |picked|)
      {
        var o := from[i];
        BelowNext(rows0, picked, o, satoshis, inputFee);
        var value := ReserveOne(d, o, rows0, picked);
        reserved := reserved + value;
        picked := picked + [o];
        feeNeeded := feeNeeded + inputFee;
        i := i + 1;
        if reserved >= satoshis + feeNeeded { break; }
      }
      BelowIsShortest(rows0, from, picked, satoshis, inputFee);
    }

    /** The path of an explicit list: what it takes from another draft is not given back on failure. */
    method TakeNamed(x: XpubId, d: DraftId, satoshis: nat, inputFee: nat, from: seq<Outpoint>)
      returns (r: Result<seq<Outpoint>, Error>, ghost picked: seq<Outpoint>)
      requires Valid()
      modifies this
      ensures Valid() && order == old(order)
      ensures NamedAnswer(old(rows), rows, x, d, satoshis, inputFee, from, r, picked)
      ensures NamesRefused(old(rows), x, from, FromError(old(rows), x, from))
    {
      picked := [];
      var err := GetNamed(x, from);
      if err.Some? { return Failure(err.value), []; }
      NamedAll(rows, x, from);
      var taken, reserved := ReserveList(d, satoshis, inputFee, from);
      picked := taken;
      if reserved < satoshis {
        UnReserve(x, d);
        return Failure(ErrNotEnoughUtxos), picked;
      }
      var repeated := HasRepeated(taken);
      if repeated { return Failure(ErrDuplicateUTXOs), picked; }
      r := Success(taken);
    }

    /** The same, as the rows show it. */
    method ReserveNamed(x: XpubId, d: DraftId, satoshis: nat, inputFee: nat, from: seq<Outpoint>)
      returns (r: Result<seq<Outpoint>, Error>, ghost picked: seq<Outpoint>)
      requires Valid()
      modifies this
      ensures Valid() && order == old(order)
      ensures NamedAnswer(old(rows), rows, x, d, satoshis, inputFee, from, r, picked)
      ensures var refused := FromError(old(rows), x, from);
        && NamesRefused(old(rows), x, from, refused)
        && if refused.Some? then r == Failure(refused.value) && rows == old(rows)
           else NamesTaken(old(rows), rows, x, d, satoshis, inputFee, from, r, picked)
    {
      ghost var before := rows;
      r, picked := TakeNamed(x, d, satoshis, inputFee, from);
      if FromError(before, x, from).None? { NamedTakes(before, rows, x, d, satoshis, inputFee, from, r, picked); }
    }

    /** All named UTXOs are taken for draft d, whatever draft holds them. */
    method ReserveAllNamed(x: XpubId, d: DraftId, from: seq<Outpoint>) returns (err: Option<Error>)
      requires Valid()
      modifies this
      ensures Valid() && order == old(order) && err == FromError(old(rows), x, from)
      ensures rows == if err.Some? then old(rows) else Reserved(old(rows), Elements(from), d)
      ensures err.None? ==> forall o :: o in from ==> o in old(rows)
      ensures NamesRefused(old(rows), x, from, err)
      ensures if err.Some? then rows == old(rows) else NowNames(old(rows), rows, from, d)
    {
      err := GetNamed(x, from);
      if err.Some? { return; }
      NamedAll(rows, x, from);
      ReserveEach(d, from);
    }

    /** Lifts the reservations that draft d holds on UTXOs of x. */
    method UnReserve(x: XpubId, d: DraftId)
      requires Valid()
      modifies this
      ensures Valid() && order == old(order)
      ensures rows == UnReserved(old(rows), x, d)
      ensures rows.Keys == old(rows).Keys && forall o :: o in rows ==>
        rows[o] == if old(rows)[o].xpub == x && old(rows)[o].draft == Some(d) then old(rows)[o].(draft := None)
                   else old(rows)[o]
    {
      var i := 0;
      while i < |order|
        invariant 0 <= i <= |order| && order == old(order) && rows.Keys == old(rows).Keys && Valid()
        invariant forall o :: o in rows ==>
          rows[o] == if o in order[..i] then UnReserved(old(rows), x, d)[o] else old(rows)[o]
      {
        assert order[i] in Elements(order);
        var u := rows[order[i]];
        if u.xpub == x && u.draft == Some(d) { Save(order[i], u.(draft := None)); }
        i := i + 1;
        assert order[..i] == order[..i - 1] + [order[i - 1]];
      }
      assert order[..i] == order;
      forall o | o in rows ensures rows[o] == UnReserved(old(rows), x, d)[o] {
        assert o in Elements(order);
      }
    }
  }

  const DEFAULT_PAGE_SIZE: nat := 25

  /** The reservation has taken `picked` off the front of the list; the rest is still spendable. */
  ghost predicate Taken(rows0: map<Outpoint, Utxo>, rows: map<Outpoint, Utxo>, order: seq<Outpoint>, x: XpubId,
                        d: DraftId, list: seq<Outpoint>, picked: seq<Outpoint>)
  {
    && picked + SpendableIn(order, rows, x) == list == SpendableIn(order, rows0, x)
    && rows == Reserved(rows0, Elements(picked), d)
  }

  /** No non-empty prefix of length up to n reaches the threshold. */
  ghost predicate Below(rows: map<Outpoint, Utxo>, list: seq<Outpoint>, satoshis: nat, inputFee: nat, n: nat) {
    n <= |list| && forall k: nat :: 0 < k <= n ==> !Reaches(rows, list, satoshis, inputFee, k)
  }

  lemma BelowNext(rows: map<Outpoint, Utxo>, picked: seq<Outpoint>, o: Outpoint, satoshis: nat, inputFee: nat)
    requires Below(rows, picked, satoshis, inputFee, |picked|)
    ensures Below(rows, picked + [o], satoshis, inputFee, |picked|)
    ensures Satoshis(rows, picked + [o]) == Satoshis(rows, picked) + if o in rows then rows[o].satoshis else 0
    ensures Below(rows, picked + [o], satoshis, inputFee, |picked| + 1)
       <==> Satoshis(rows, picked + [o]) < satoshis + Fees(|picked| + 1, inputFee)
  {
    var next := picked + [o];
    assert next[..|picked|] == picked && next[..|picked| + 1] == next;
    forall k: nat | 0 < k <= |picked| ensures !Reaches(rows, next, satoshis, inputFee, k) {
      assert next[..k] == picked[..k];
      assert !Reaches(rows, picked, satoshis, inputFee, k);
    }
    assert Reaches(rows, next, satoshis, inputFee, |picked| + 1)
      <==> Satoshis(rows, next) >= satoshis + Fees(|picked| + 1, inputFee);
  }

  lemma ReservedNext(rows0: map<Outpoint, Utxo>, picked: seq<Outpoint>, o: Outpoint, d: DraftId)
    requires o in rows0 && o !in picked
    ensures var rows := Reserved(rows0, Elements(picked), d);
      && rows[o] == rows0[o]
      && rows[o := rows[o].(draft := Some(d))] == Reserved(rows0, Elements(picked + [o]), d)
  {
    var rows := Reserved(rows0, Elements(picked), d);
    var rows' := Reserved(rows0, Elements(picked + [o]), d);
    forall p | p in rows0 ensures rows'[p] == rows[o := rows[o].(draft := Some(d))][p] {
      assert p in Elements(picked + [o]) <==> p in Elements(picked) || p == o;
    }
  }

  /** Taking the first spendable UTXO moves it from the rest of the list to the picked part. */
  lemma TakeNext(rows0: map<Outpoint, Utxo>, rows: map<Outpoint, Utxo>, order: seq<Outpoint>, x: XpubId,
                 d: DraftId, list: seq<Outpoint>, picked: seq<Outpoint>, o: Outpoint, rest: seq<Outpoint>)
    requires Distinct(order) && Taken(rows0, rows, order, x, d, list, picked)
    requires SpendableIn(order, rows, x) == [o] + rest
    ensures o in rows && o in rows0 && rows[o] == rows0[o]
    ensures var rows' := rows[o := rows[o].(draft := Some(d))];
      Taken(rows0, rows', order, x, d, list, picked + [o]) && SpendableIn(order, rows', x) == rest
  {
    assert o in rows && Spendable(rows[o], x) by {
      assert o in SpendableIn(order, rows, x);
      SpendableInMembers(order, rows, x);
    }
    assert o !in picked by { assert o in picked ==> o in Elements(picked); }
    ReservedNext(rows0, picked, o, d);
    ReserveFirst(order, rows, x, o, rest, rows[o].(draft := Some(d)));
    assert picked + ([o] + rest) == (picked + [o]) + rest;
  }

  /** A named UTXO may be taken twice, or from another draft. */
  lemma ReservedAgain(rows0: map<Outpoint, Utxo>, picked: seq<Outpoint>, o: Outpoint, d: DraftId)
    requires o in rows0
    ensures var rows := Reserved(rows0, Elements(picked), d);
      && rows[o].satoshis == rows0[o].satoshis
      && rows[o := rows[o].(draft := Some(d))] == Reserved(rows0, Elements(picked + [o]), d)
  {
    var rows := Reserved(rows0, Elements(picked), d);
    var rows' := Reserved(rows0, Elements(picked + [o]), d);
    forall p | p in rows0 ensures rows'[p] == rows[o := rows[o].(draft := Some(d))][p] {
      assert p in Elements(picked + [o]) <==> p in Elements(picked) || p == o;
    }
  }

  lemma {:induction false} NamedAll(rows: map<Outpoint, Utxo>, x: XpubId, from: seq<Outpoint>)
    requires NamedError(rows, x, from).None?
    ensures forall o :: o in from ==> o in rows && rows[o].xpub == x && rows[o].spending.None?
  {
    if from != [] { NamedAll(rows, x, from[1..]); }
  }

  lemma BelowIsShortest(rows: map<Outpoint, Utxo>, list: seq<Outpoint>, picked: seq<Outpoint>, satoshis: nat,
                        inputFee: nat)
    requires picked <= list && (list != [] ==> picked != [])
    requires picked != [] ==> Below(rows, picked, satoshis, inputFee, |picked| - 1)
    requires picked == list || Satoshis(rows, picked) >= satoshis + Fees(|picked|, inputFee)
    ensures ShortestPrefix(rows, list, satoshis, inputFee, |picked|)
  {
    assert list[..|picked|] == picked;
    forall k: nat | 0 < k < |picked| ensures !Reaches(rows, list, satoshis, inputFee, k) {
      assert list[..k] == picked[..k];
      assert !Reaches(rows, picked, satoshis, inputFee, k);
    }
  }

  /** What the loop leaves behind is a shortest prefix. */
  lemma Settled(rows0: map<Outpoint, Utxo>, rows: map<Outpoint, Utxo>, order: seq<Outpoint>, x: XpubId, d: DraftId,
                list: seq<Outpoint>, picked: seq<Outpoint>, satoshis: nat, inputFee: nat, reached: bool)
    requires Taken(rows0, rows, order, x, d, list, picked)
    requires if reached then
        |picked| > 0 && Satoshis(rows0, picked) >= satoshis + Fees(|picked|, inputFee)
        && Below(rows0, picked, satoshis, inputFee, |picked| - 1)
      else
        SpendableIn(order, rows, x) == [] && Below(rows0, picked, satoshis, inputFee, |picked|)
    ensures picked <= list && ShortestPrefix(rows0, list, satoshis, inputFee, |picked|)
  {
    if picked == [] { assert SpendableIn(order, rows, x) == list; }
    BelowIsShortest(rows0, list, picked, satoshis, inputFee);
  }

  /** Lifting the reservations of a fresh d restores the rows. */
  lemma GiveBack(rows0: map<Outpoint, Utxo>, x: XpubId, d: DraftId, picked: seq<Outpoint>)
    requires forall o :: o in rows0 ==> rows0[o].draft != Some(d)
    requires forall o :: o in picked ==> o in rows0 && Spendable(rows0[o], x)
    ensures UnReserved(Reserved(rows0, Elements(picked), d), x, d) == rows0
  {
  }

  /** A prefix of the spendable list has no repetition, is as sufficient as the list, and can be given back. */
  lemma PrefixFacts(rows0: map<Outpoint, Utxo>, order: seq<Outpoint>, x: XpubId, d: DraftId,
                    list: seq<Outpoint>, picked: seq<Outpoint>, satoshis: nat, inputFee: nat)
    requires Distinct(order) && list == SpendableIn(order, rows0, x) && picked <= list
    requires ShortestPrefix(rows0, list, satoshis, inputFee, |picked|)
    requires forall o :: o in rows0 ==> rows0[o].draft != Some(d)
    ensures Satoshis(rows0, picked) < satoshis <==> Satoshis(rows0, list) < satoshis
    ensures Distinct(picked) && forall o :: o in picked ==> o in rows0 && Spendable(rows0[o], x)
    ensures UnReserved(Reserved(rows0, Elements(picked), d), x, d) == rows0
  {
    assert list[..|picked|] == picked;
    ShortestPrefixEnough(rows0, list, satoshis, inputFee, |picked|);
    assert Distinct(list) && forall o :: o in list ==> o in rows0 && Spendable(rows0[o], x) by {
      SpendableInMembers(order, rows0, x);
    }
    DistinctPrefix(list, |picked|);
    assert forall o :: o in picked ==> o in list;
    GiveBack(rows0, x, d, picked);
  }

  method HasRepeated(list: seq<Outpoint>) returns (repeated: bool)
    ensures repeated <==> !Distinct(list)
  {
    var i := 0;
    while i < |list|
      invariant 0 <= i <= |list| && Distinct(list[..i])
    {
      if list[i] in list[..i] {
        if Distinct(list) { DistinctPrefix(list, i); }
        return true;
      }
      i := i + 1;
      assert list[..i][..i - 1] == list[..i - 1];
    }
    assert list[..i] == list;
    repeated := false;
  }

  function NamedError(rows: map<Outpoint, Utxo>, x: XpubId, from: seq<Outpoint>): Option<Error> {
    if from == [] then None
    else if from[0] !in rows then Some(ErrCouldNotFindUtxo)
    else if rows[from[0]].xpub != x || rows[from[0]].spending.Some? then Some(ErrUtxoAlreadySpent)
    else NamedError(rows, x, from[1..])
  }

  /** Distinct UTXOs that x may spend. */
  ghost predicate Picked(rows: map<Outpoint, Utxo>, x: XpubId, picked: seq<Outpoint>) {
    Distinct(picked) && forall o :: o in picked ==> o in rows && Spendable(rows[o], x)
  }

  function FromError(rows: map<Outpoint, Utxo>, x: XpubId, from: seq<Outpoint>): Option<Error> {
    if from == [] then Some(ErrMissingUTXOsSpendable) else NamedError(rows, x, from)
  }

  /**
   * The shortest sufficient prefix of the named UTXOs is taken; if they are too few, the draft lets go
   * of them, and if one is named twice, it keeps them.
   */
  ghost predicate NamedAnswer(rows: map<Outpoint, Utxo>, rows': map<Outpoint, Utxo>, x: XpubId, d: DraftId,
                              satoshis: nat, inputFee: nat, from: seq<Outpoint>, r: Result<seq<Outpoint>, Error>,
                              picked: seq<Outpoint>)
  {
    var refused := FromError(rows, x, from);
    if refused.Some? then r == Failure(refused.value) && rows' == rows
    else
      && picked <= from && ShortestPrefix(rows, from, satoshis, inputFee, |picked|)
      && if Satoshis(rows, picked) < satoshis then
           r == Failure(ErrNotEnoughUtxos) && rows' == UnReserved(Reserved(rows, Elements(picked), d), x, d)
         else
           && rows' == Reserved(rows, Elements(picked), d)
           && r == if Distinct(picked) then Success(picked) else Failure(ErrDuplicateUTXOs)
  }

  /** What a reservation answers and what it does to the rows; `list` is what is spendable. */
  ghost predicate Reservation(rows: map<Outpoint, Utxo>, rows': map<Outpoint, Utxo>, list: seq<Outpoint>, x: XpubId,
                              d: DraftId, satoshis: nat, inputFee: nat, from: Option<seq<Outpoint>>,
                              r: Result<seq<Outpoint>, Error>, picked: seq<Outpoint>)
  {
    if from.Some? then NamedAnswer(rows, rows', x, d, satoshis, inputFee, from.value, r, picked)
    else
      && Answered(rows, list, satoshis, inputFee, r)
      && rows' == (if r.Success? then Reserved(rows, Elements(r.value), d) else rows)
      && (r.Success? ==> Picked(rows, x, r.value))
  }

  /** The same without an amount: everything is taken. */
  ghost predicate TotalReservation(rows: map<Outpoint, Utxo>, rows': map<Outpoint, Utxo>, list: seq<Outpoint>,
                                   x: XpubId, d: DraftId, from: Option<seq<Outpoint>>, r: Result<seq<Outpoint>, Error>)
  {
    if from.Some? then
      var refused := FromError(rows, x, from.value);
      && r == (if refused.Some? then Failure(refused.value) else Success(from.value))
      && rows' == (if refused.Some? then rows else Reserved(rows, Elements(from.value), d))
    else
      && r == Success(list) && Picked(rows, x, list) && rows' == Reserved(rows, Elements(list), d)
  }

  function UnReserved(rows: map<Outpoint, Utxo>, x: XpubId, d: DraftId): map<Outpoint, Utxo> {
    map o | o in rows :: if rows[o].xpub == x && rows[o].draft == Some(d) then rows[o].(draft := None) else rows[o]
  }
}
