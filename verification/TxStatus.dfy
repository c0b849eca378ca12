/** The status column of a stored transaction: its writers, the sync job, and what holds over their runs. */
module TxStatus {
  import opened Common
  import opened Sums

  datatype Status = NoStatus | Created | Broadcasted | Mined | Reverted | Problematic

  /** The columns of a transaction that this module is about. NoStatus is a row older than the column. */
  datatype Row = Row(status: Status, path: Option<string>, blockHash: string, blockHeight: nat,
                     createdAt: int, updatedAt: int)

  /** What ARC says about a transaction. */
  datatype ArcStatus =
    | ArcUnknown | ArcQueued | ArcReceived | ArcStored | ArcAnnounced | ArcRequested | ArcSent | ArcAccepted
    | ArcOrphan | ArcSeen | ArcDoubleSpend | ArcRejected | ArcMined
  {
    predicate IsProblematic() { this in {ArcRejected, ArcDoubleSpend, ArcUnknown, ArcOrphan} }
  }

  /** The answer to a query; the path is the Merkle path if it can be parsed. */
  datatype Query =
    | Unreachable
    | QueryFailed
    | NotFound
    | Info(arc: ArcStatus, path: Option<string>, blockHash: string, blockHeight: int)

  /** The answer to a broadcast. */
  datatype Sending = Sent | Refused | SendFailed

  const TEN_MINUTES := 600
  const DAY := 86400

  // ----- writers on values ---------------------------------------------------------------------------

  function FromBroadcast(status: Status, arc: ArcStatus): Status {
    if arc == ArcMined then Mined else if arc.IsProblematic() then Problematic else status
  }

  function Old(row: Row, now: int): bool { row.updatedAt < now - DAY }

  /** The new status of a transaction that ARC does not know. */
  function UnknownStatus(row: Row, sending: Sending, now: int): Option<Status> {
    if Old(row, now) then Some(Problematic)
    else if row.status != Created then None
    else match sending
      case Sent => Some(Broadcasted)
      case Refused => Some(Problematic)
      case SendFailed => None
  }

  function WithStatus(row: Row, status: Option<Status>, now: int): Option<Row> {
    if status.None? || status.value == row.status then None
    else Some(row.(status := status.value, updatedAt := now))
  }

  /** What the sync job saves for a transaction, if anything. */
  function Synced(row: Row, query: Query, sending: Sending, now: int): Option<Row> {
    match query
    case Unreachable => None
    case QueryFailed => WithStatus(row, if Old(row, now) then Some(Problematic) else None, now)
    case NotFound => WithStatus(row, UnknownStatus(row, sending, now), now)
    case Info(arc, path, hash, height) =>
      var status := FromBroadcast(row.status, arc);
      if status == row.status then None
      else if status != Mined then Some(row.(status := status, updatedAt := now))
      else if path.None? || height < 0 then None
      else Some(row.(status := Mined, path := path, blockHash := hash, blockHeight := height, updatedAt := now))
  }

  /** ARC cannot be reached, or a mined transaction's height is negative and the job panics. */
  predicate Stops(row: Row, query: Query) {
    || query == Unreachable
    || (query.Info? && row.status != Mined && query.arc == ArcMined && query.path.Some? && query.blockHeight < 0)
  }

  // ----- what an answer does, column by column ---------------------------------------------------------

  /** The status is now `status`, written at `now` unless it was so before; nothing else has changed. */
  ghost predicate Becomes(row: Row, row': Row, status: Status, now: int) {
    row' == if row.status == status then row
            else Row(status, row.path, row.blockHash, row.blockHeight, row.createdAt, now)
  }

  /** ARC does not know the transaction: it is given up after a day, and sent again if it never was. */
  ghost predicate NotFoundEffect(row: Row, row': Row, sending: Sending, now: int) {
    if row.updatedAt < now - 86400 then Becomes(row, row', Problematic, now)
    else if row.status == Created && sending == Sent then Becomes(row, row', Broadcasted, now)
    else if row.status == Created && sending == Refused then Becomes(row, row', Problematic, now)
    else row' == row
  }

  /** ARC knows the transaction: mined with a path and a height, problematic, or on its way. */
  ghost predicate InfoEffect(row: Row, row': Row, arc: ArcStatus, path: Option<string>, hash: string, height: int,
                             now: int)
  {
    if arc == ArcMined then
      if row.status != Mined && path.Some? && height >= 0 then
        row' == Row(Mined, path, hash, height, row.createdAt, now)
      else row' == row
    else if arc == ArcRejected || arc == ArcDoubleSpend || arc == ArcUnknown || arc == ArcOrphan then
      Becomes(row, row', Problematic, now)
    else row' == row
  }

  /** What the sync job does to a record, by the answer it gets. */
  ghost predicate SyncEffect(row: Row, row': Row, query: Query, sending: Sending, now: int) {
    match query
    case Unreachable => row' == row
    case QueryFailed => if row.updatedAt < now - 86400 then Becomes(row, row', Problematic, now) else row' == row
    case NotFound => NotFoundEffect(row, row', sending, now)
    case Info(arc, path, hash, height) => InfoEffect(row, row', arc, path, hash, height, now)
  }

  /** The job cannot go on: ARC is out of reach, or a mined transaction has a negative height. */
  ghost predicate StopsAt(row: Row, query: Query) {
    match query
    case Unreachable => true
    case Info(arc, path, _, height) => arc == ArcMined && row.status != Mined && path.Some? && height < 0
    case _ => false
  }

  lemma SyncedEffect(row: Row, query: Query, sending: Sending, now: int)
    ensures var r := Synced(row, query, sending, now);
      SyncEffect(row, if r.Some? then r.value else row, query, sending, now)
    ensures Stops(row, query) <==> StopsAt(row, query)
  {
  }

  /** A change that a writer makes to its own copy of the row before saving all of it. */
  datatype Write =
    | BySync(query: Query, sending: Sending)
    | ByCallback(merklePath: string, arc: ArcStatus, blockHash: string, blockHeight: nat)
    | AfterBroadcast
    | AfterFailedBroadcast
    | AfterFailedNotification
    | AfterRevert

  function Written(row: Row, w: Write, now: int): Option<Row> {
    match w
    case BySync(query, sending) => Synced(row, query, sending, now)
    case ByCallback(path, arc, hash, height) =>
      Some(row.(path := Some(path), blockHash := hash, blockHeight := height, status := FromBroadcast(row.status, arc),
                updatedAt := now))
    case AfterBroadcast => Some(row.(status := Broadcasted, updatedAt := now))
    case AfterFailedBroadcast => Some(row.(updatedAt := now))
    case AfterFailedNotification => Some(row.(status := Problematic, updatedAt := now))
    case AfterRevert => Some(row.(status := Reverted, updatedAt := now))
  }

  /** The status and time are now these; path, hash, height and creation time are as they were. */
  ghost predicate Marked(row: Row, row': Option<Row>, status: Status, now: int) {
    row' == Some(Row(status, row.path, row.blockHash, row.blockHeight, row.createdAt, now))
  }

  /** The status that each writer after a recording, a notification or a revert leaves in its copy. */
  lemma WritesMark(row: Row, now: int)
    ensures Marked(row, Written(row, AfterBroadcast, now), Broadcasted, now)
    ensures Marked(row, Written(row, AfterFailedBroadcast, now), row.status, now)
    ensures Marked(row, Written(row, AfterFailedNotification, now), Problematic, now)
    ensures Marked(row, Written(row, AfterRevert, now), Reverted, now)
  {
  }

  /** How a row comes to be: recorded, received and broadcast, or an ancestor from a BEEF. */
  datatype Origin = FromOutgoing | FromIncoming | FromBeef(path: Option<string>)

  function NewRow(origin: Origin, now: int): Row {
    match origin
    case FromOutgoing => Row(Created, None, "", 0, now, now)
    case FromIncoming => Row(Broadcasted, None, "", 0, now, now)
    case FromBeef(path) => Row(if path.Some? then Mined else Created, path, "", 0, now, now)
  }

  // ----- a mined transaction has a path ------------------------------------------------------------------

  predicate HasPath(row: Row) { row.status == Mined ==> row.path.Some? }

  /** The rows, and the copies that writers have loaded and may save later, whatever happened since. */
  datatype Rows = Rows(rows: map<TxId, Row>, copies: map<nat, (TxId, Row)>)

  datatype Step =
    | Create(writer: nat, t: TxId, origin: Origin, now: int)
    | Load(writer: nat, t: TxId)
    | Save(writer: nat, write: Write, now: int)

  function Next(s: Rows, step: Step): Rows {
    match step
    case Create(writer, t, origin, now) =>
      if t in s.rows then s else
        var row := NewRow(origin, now);
        Rows(s.rows[t := row], s.copies[writer := (t, row)])
    case Load(writer, t) => if t in s.rows then s.(copies := s.copies[writer := (t, s.rows[t])]) else s
    case Save(writer, write, now) =>
      if writer !in s.copies then s else
        var t := s.copies[writer].0;
        var row := Written(s.copies[writer].1, write, now);
        if row.None? then s else Rows(s.rows[t := row.value], s.copies[writer := (t, row.value)])
  }

  function After(s: Rows, run: seq<Step>): Rows {
    if run == [] then s else Next(After(s, run[..|run| - 1]), run[|run| - 1])
  }

  ghost predicate PathsKept(s: Rows) {
    && (forall t :: t in s.rows ==> HasPath(s.rows[t]))
    && (forall w :: w in s.copies ==> HasPath(s.copies[w].1))
  }

  /** Every writer that saves MINED saves a path with it. */
  lemma WrittenHasPath(row: Row, w: Write, now: int)
    requires HasPath(row) && Written(row, w, now).Some?
    ensures HasPath(Written(row, w, now).value)
  {
  }

  /** Over every interleaving of the writers, stale copies included, a mined transaction has its path. */
  lemma {:induction false} RunKeepsPaths(s: Rows, run: seq<Step>)
    requires PathsKept(s)
    ensures PathsKept(After(s, run))
  {
    if run != [] {
      var before := After(s, run[..|run| - 1]);
      RunKeepsPaths(s, run[..|run| - 1]);
      match run[|run| - 1]
      case Save(w, write, now) =>
        if w in before.copies && Written(before.copies[w].1, write, now).Some? {
          WrittenHasPath(before.copies[w].1, write, now);
        }
      case Create(_, _, _, _) =>
      case Load(_, _) =>
    }
  }

  // ----- the sync job comes to an end ----------------------------------------------------------------------

  function Rank(status: Status): nat {
    match status
    case Created => 2
    case Broadcasted => 1
    case NoStatus => 1
    case _ => 0
  }

  /** What the sync job asks the datastore for; `delay` depends on whether ARC calls back. */
  predicate Selected(row: Row, now: int, delay: int) {
    || (row.status == Broadcasted && row.createdAt < now - delay)
    || (row.status == Created && row.createdAt < now - TEN_MINUTES)
    || row.status == NoStatus
  }

  /** Whatever the sync job saves is closer to the end. */
  lemma SyncLowersRank(row: Row, query: Query, sending: Sending, now: int, delay: int)
    requires Selected(row, now, delay) && Synced(row, query, sending, now).Some?
    ensures Rank(Synced(row, query, sending, now).value.status) < Rank(row.status)
  {
  }

  /** Among the other writers only a repeated broadcast takes a final status back. */
  lemma OthersRaise(row: Row, w: Write, now: int)
    requires !w.BySync? && Written(row, w, now).Some?
    ensures Rank(Written(row, w, now).value.status) > Rank(row.status) <==> w.AfterBroadcast? && Rank(row.status) == 0
  {
  }

  /** One record in the course of time: the sync job looks at it only if it is selected. */
  datatype Event = Event(write: Write, now: int, delay: int)

  function Applied(row: Row, e: Event): Row {
    if e.write.BySync? && !Selected(row, e.now, e.delay) then row
    else if Written(row, e.write, e.now).None? then row
    else Written(row, e.write, e.now).value
  }

  function AppliedAll(row: Row, events: seq<Event>): Row {
    if events == [] then row else Applied(AppliedAll(row, events[..|events| - 1]), events[|events| - 1])
  }

  /** How often the sync job saves the record. */
  function SyncSaves(row: Row, events: seq<Event>): nat {
    if events == [] then 0 else
      var before := AppliedAll(row, events[..|events| - 1]);
      var e := events[|events| - 1];
      SyncSaves(row, events[..|events| - 1])
      + if e.write.BySync? && Selected(before, e.now, e.delay) && Written(before, e.write, e.now).Some? then 1 else 0
  }

  /** How often another writer takes a final status back to BROADCASTED. */
  function Relapses(row: Row, events: seq<Event>): nat {
    if events == [] then 0 else
      var before := AppliedAll(row, events[..|events| - 1]);
      Relapses(row, events[..|events| - 1])
      + if events[|events| - 1].write.AfterBroadcast? && Rank(before.status) == 0 then 1 else 0
  }

  /**
   * The sync job saves a record at most as often as its rank says, plus once for every time another
   * writer takes a final status back: two saves at most for a CREATED transaction left to the job.
   */
  lemma {:induction false} SyncSavesBounded(row: Row, events: seq<Event>)
    ensures SyncSaves(row, events) + Rank(AppliedAll(row, events).status) <= Rank(row.status) + Relapses(row, events)
  {
    if events != [] {
      var n := |events| - 1;
      var before := AppliedAll(row, events[..n]);
      var e := events[n];
      SyncSavesBounded(row, events[..n]);
      if Written(before, e.write, e.now).Some? {
        if !e.write.BySync? {
          OthersRaise(before, e.write, e.now);
        } else if Selected(before, e.now, e.delay) {
          SyncLowersRank(before, e.write.query, e.write.sending, e.now, e.delay);
        }
      }
    }
  }

  lemma {:induction false} NoRelapse(row: Row, events: seq<Event>)
    requires forall i :: 0 <= i < |events| ==> events[i].write.BySync?
    ensures Relapses(row, events) == 0 && SyncSaves(row, events) <= 2
  {
    SyncSavesBounded(row, events);
    if events != [] { NoRelapse(row, events[..|events| - 1]); }
  }

  // ----- one run of the job --------------------------------------------------------------------------------

  /** The answers of the outside world, by transaction. */
  datatype Answers = Answers(query: TxId -> Query, sending: TxId -> Sending)

  function SyncedRow(rows: map<TxId, Row>, t: TxId, answers: Answers, now: int): map<TxId, Row> {
    if t !in rows then rows else
      var row := Synced(rows[t], answers.query(t), answers.sending(t), now);
      if row.None? then rows else rows[t := row.value]
  }

  /** One transaction after the other, until the job stops. */
  function SyncedAll(rows: map<TxId, Row>, ids: seq<TxId>, answers: Answers, now: int): map<TxId, Row> {
    if ids == [] then rows
    else if ids[0] in rows && Stops(rows[ids[0]], answers.query(ids[0])) then rows
    else SyncedAll(SyncedRow(rows, ids[0], answers, now), ids[1..], answers, now)
  }

  /** A run of the job leaves every record as it is, or saves it once, with a lower rank. */
  lemma {:induction false} SyncedAllLowers(rows: map<TxId, Row>, ids: seq<TxId>, answers: Answers, now: int, delay: int)
    requires forall i, j :: 0 <= i < j < |ids| ==> ids[i] != ids[j]
    requires forall i :: 0 <= i < |ids| ==> ids[i] in rows && Selected(rows[ids[i]], now, delay)
    ensures var rows' := SyncedAll(rows, ids, answers, now);
      && rows'.Keys == rows.Keys
      && forall t :: t in rows ==>
           || rows'[t] == rows[t]
           || (t in ids && Some(rows'[t]) == Synced(rows[t], answers.query(t), answers.sending(t), now)
               && Rank(rows'[t].status) < Rank(rows[t].status))
  {
    if ids != [] && !Stops(rows[ids[0]], answers.query(ids[0])) {
      var t := ids[0];
      var next := SyncedRow(rows, t, answers, now);
      if Synced(rows[t], answers.query(t), answers.sending(t), now).Some? {
        SyncLowersRank(rows[t], answers.query(t), answers.sending(t), now, delay);
      }
      assert t !in ids[1..];
      SyncedAllLowers(next, ids[1..], answers, now, delay);
    }
  }

  /** The job has gone on from the record of t, and has done with it what the answer for it asks for. */
  ghost predicate RowSynced(row: Row, row': Row, t: TxId, answers: Answers, now: int) {
    !StopsAt(row, answers.query(t)) && SyncEffect(row, row', answers.query(t), answers.sending(t), now)
  }

  /**
   * The first `done` records are synced, each on its own; the others stay; if there is a next one, it stops
   * the job.
   */
  ghost predicate JobEffect(rows: map<TxId, Row>, rows': map<TxId, Row>, ids: seq<TxId>, done: nat, answers: Answers,
                            now: int)
    requires forall i :: 0 <= i < |ids| ==> ids[i] in rows
  {
    && rows'.Keys == rows.Keys && done <= |ids|
    && (forall i :: 0 <= i < done ==> RowSynced(rows[ids[i]], rows'[ids[i]], ids[i], answers, now))
    && (forall t :: t in rows && t !in ids[..done] ==> rows'[t] == rows[t])
    && (done < |ids| ==> StopsAt(rows[ids[done]], answers.query(ids[done])))
  }

  lemma JobEffectNext(rows: map<TxId, Row>, next: map<TxId, Row>, rows': map<TxId, Row>, ids: seq<TxId>, done: nat,
                      answers: Answers, now: int)
    requires ids != [] && forall i, j :: 0 <= i < j < |ids| ==> ids[i] != ids[j]
    requires (forall i :: 0 <= i < |ids| ==> ids[i] in rows) && next.Keys == rows.Keys
    requires RowSynced(rows[ids[0]], next[ids[0]], ids[0], answers, now)
    requires forall t :: t in rows && t != ids[0] ==> next[t] == rows[t]
    requires JobEffect(next, rows', ids[1..], done, answers, now)
    ensures JobEffect(rows, rows', ids, done + 1, answers, now)
  {
    assert ids[..done + 1] == [ids[0]] + ids[1..][..done];
    assert ids[0] !in ids[1..][..done];
    forall i | 0 <= i < done + 1 ensures RowSynced(rows[ids[i]], rows'[ids[i]], ids[i], answers, now) {
      if i > 0 {
        assert ids[i] == ids[1..][i - 1] && ids[i] != ids[0];
        assert RowSynced(next[ids[i]], rows'[ids[i]], ids[i], answers, now);
      }
    }
    if done + 1 < |ids| { assert ids[done + 1] == ids[1..][done] && ids[done + 1] != ids[0]; }
  }

  lemma SyncedRowEffect(rows: map<TxId, Row>, t: TxId, answers: Answers, now: int)
    requires t in rows
    ensures var next := SyncedRow(rows, t, answers, now);
      && next.Keys == rows.Keys && (forall u :: u in rows && u != t ==> next[u] == rows[u])
      && SyncEffect(rows[t], next[t], answers.query(t), answers.sending(t), now)
    ensures Stops(rows[t], answers.query(t)) <==> StopsAt(rows[t], answers.query(t))
  {
    SyncedEffect(rows[t], answers.query(t), answers.sending(t), now);
  }

  lemma JobEffectNone(rows: map<TxId, Row>, ids: seq<TxId>, answers: Answers, now: int)
    requires forall i :: 0 <= i < |ids| ==> ids[i] in rows
    requires ids == [] || StopsAt(rows[ids[0]], answers.query(ids[0]))
    ensures JobEffect(rows, rows, ids, 0, answers, now)
  {
  }

  lemma {:induction false} SyncedAllEffect(rows: map<TxId, Row>, ids: seq<TxId>, answers: Answers, now: int)
    returns (done: nat)
    requires forall i, j :: 0 <= i < j < |ids| ==> ids[i] != ids[j]
    requires forall i :: 0 <= i < |ids| ==> ids[i] in rows
    ensures JobEffect(rows, SyncedAll(rows, ids, answers, now), ids, done, answers, now)
  {
    if ids != [] { SyncedRowEffect(rows, ids[0], answers, now); }
    if ids == [] || Stops(rows[ids[0]], answers.query(ids[0])) {
      JobEffectNone(rows, ids, answers, now);
      return 0;
    }
    var next := SyncedRow(rows, ids[0], answers, now);
    done := SyncedAllEffect(next, ids[1..], answers, now);
    JobEffectNext(rows, next, SyncedAll(rows, ids, answers, now), ids, done, answers, now);
    done := done + 1;
  }

  class Transactions {
    var order: seq<TxId>
    var rows: map<TxId, Row>

    ghost predicate Valid() reads this { Distinct(order) && Elements(order) == rows.Keys }

    constructor ()
      ensures Valid() && rows == map[]
    {
      order, rows := [], map[];
    }

    /** The ids of the rows to sync. */
    method Select(now: int, delay: int) returns (ids: seq<TxId>)
      requires Valid()
      ensures forall i, j :: 0 <= i < j < |ids| ==> ids[i] != ids[j]
      ensures forall t :: t in ids <==> t in rows && Selected(rows[t], now, delay)
      ensures forall t :: t in ids <==>
        t in rows && (rows[t].status == NoStatus
                      || (rows[t].status == Broadcasted && rows[t].createdAt < now - delay)
                      || (rows[t].status == Created && rows[t].createdAt < now - 600))
    {
      ids := [];
      var i := 0;
      DistinctIndices(order);
      assert forall t :: t in order <==> t in Elements(order);
      while i < |order|
        invariant 0 <= i <= |order|
        invariant forall j, k :: 0 <= j < k < |ids| ==> ids[j] != ids[k]
        invariant forall t :: t in ids <==> t in order[..i] && t in rows && Selected(rows[t], now, delay)
      {
        assert order[..i + 1] == order[..i] + [order[i]] && order[i] !in order[..i];
        if Selected(rows[order[i]], now, delay) { ids := ids + [order[i]]; }
        i := i + 1;
      }
      assert order[..i] == order;
    }

    /** Queries one transaction, and saves what has changed. */
    method SyncOne(t: TxId, answers: Answers, now: int) returns (stop: bool)
      requires Valid()
      modifies this`rows
      ensures Valid() && rows == SyncedRow(old(rows), t, answers, now)
      ensures stop <==> t in old(rows) && Stops(old(rows)[t], answers.query(t))
      ensures stop <==> t in old(rows) && StopsAt(old(rows)[t], answers.query(t))
      ensures rows.Keys == old(rows).Keys && forall u :: u in rows && u != t ==> rows[u] == old(rows)[u]
      ensures t in rows ==> SyncEffect(old(rows)[t], rows[t], answers.query(t), answers.sending(t), now)
    {
      if t !in rows { return false; }
      SyncedEffect(rows[t], answers.query(t), answers.sending(t), now);
      assert rows.Keys == Elements(order);
      var tx := rows[t];
      match answers.query(t)
      case Unreachable => return true;
      case QueryFailed =>
        if Old(tx, now) { UpdateStatus(t, Some(Problematic), now); }
        return false;
      case NotFound =>
        UpdateStatus(t, UnknownStatus(tx, answers.sending(t), now), now);
        return false;
      case Info(arc, path, hash, height) =>
        tx := tx.(status := FromBroadcast(tx.status, arc));
        if tx.status == rows[t].status { return false; }
        if tx.status == Mined {
          if path.None? { return false; }
          tx := tx.(path := path, blockHash := hash);
          if height < 0 { return true; }
          tx := tx.(blockHeight := height);
        }
        rows := rows[t := tx.(updatedAt := now)];
        return false;
    }

    method UpdateStatus(t: TxId, status: Option<Status>, now: int)
      requires Valid() && t in rows
      modifies this`rows
      ensures Valid()
      ensures var row := WithStatus(old(rows)[t], status, now);
        rows == if row.None? then old(rows) else old(rows)[t := row.value]
    {
      if status.None? || rows[t].status == status.value { return; }
      rows := rows[t := rows[t].(status := status.value, updatedAt := now)];
      assert rows.Keys == old(rows).Keys;
    }

    /**
     * The periodic job: the selected records are synced one after the other, up to the first at which it cannot go
     * on; `done` of them were looked at.
     */
    method ProcessSyncTransactions(answers: Answers, now: int, delay: int)
      returns (ghost ids: seq<TxId>, ghost done: nat)
      requires Valid()
      modifies this`rows
      ensures Valid() && rows == SyncedAll(old(rows), ids, answers, now)
      ensures forall t :: t in ids <==> t in old(rows) && Selected(old(rows)[t], now, delay)
      ensures forall t :: t in rows && rows[t] != old(rows)[t] ==> Rank(rows[t].status) < Rank(old(rows)[t].status)
      ensures forall i, j :: 0 <= i < j < |ids| ==> ids[i] != ids[j]
      ensures JobEffect(old(rows), rows, ids, done, answers, now)
    {
      var list := Select(now, delay);
      ids := list;
      done := SyncedAllEffect(rows, list, answers, now);
      SyncedAllLowers(rows, list, answers, now, delay);
      SyncAll(list, answers, now);
    }

    method SyncAll(list: seq<TxId>, answers: Answers, now: int)
      requires Valid()
      modifies this`rows
      ensures Valid() && rows == SyncedAll(old(rows), list, answers, now)
    {
      var i := 0;
      while i < |list|
        invariant 0 <= i <= |list| && Valid()
        invariant SyncedAll(old(rows), list, answers, now) == SyncedAll(rows, list[i..], answers, now)
      {
        assert list[i..][1..] == list[i + 1..];
        var stop := SyncOne(list[i], answers, now);
        if stop { return; }
        i := i + 1;
      }
    }

    /** ARC's callback: refused without a Merkle path that can be parsed, or with a negative height. */
    method HandleTxCallback(t: TxId, path: Option<string>, blockHash: string, height: int, arc: ArcStatus, now: int)
      returns (ok: bool)
      requires Valid()
      modifies this`rows
      ensures Valid() && ok == (path.Some? && t in old(rows) && height >= 0)
      ensures rows == if ok then
          old(rows)[t := Written(old(rows)[t], ByCallback(path.value, arc, blockHash, height), now).value]
        else old(rows)
      ensures ok ==>
        var status := if arc == ArcMined then Mined
          else if arc == ArcRejected || arc == ArcDoubleSpend || arc == ArcUnknown || arc == ArcOrphan then Problematic
          else old(rows)[t].status;
        rows == old(rows)[t := Row(status, path, blockHash, height, old(rows)[t].createdAt, now)]
    {
      if path.None? || t !in rows { return false; }
      var tx := rows[t].(blockHash := blockHash);
      if height < 0 { return false; }
      tx := tx.(blockHeight := height, path := path);
      tx := tx.(status := FromBroadcast(tx.status, arc));
      rows := rows[t := tx.(updatedAt := now)];
      assert rows.Keys == old(rows).Keys;
      ok := true;
    }
  }
}
