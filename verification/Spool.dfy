/** The durable spool: one table of captured events, changed only by whole transactions.
    The functions give the effect of each transaction; the class runs them in place. */
module Spool {
  import opened Text
  import opened Sorting
  import Rfc3339

  type EventId = string

  datatype Event = Event(eventId: EventId, body: string)

  datatype Status = Pending | Inflight | Acked | DeadLetter

  /** `serial` is the row's insertion number, the order SQLite's rowid gives. */
  datatype Row = Row(serial: nat, event: Event, createdAt: string, status: Status, attempts: nat,
                     nextRetryAt: int, lastError: string, inflightAt: int)

  datatype Table = Table(rows: seq<Row>, nextSerial: nat)

  /** A row as handed to an upload: `attempts` is the value before the claim counted itself. */
  datatype Claim = Claim(serial: nat, event: Event, attempts: nat)

  datatype EnqueueOutcome = Inserted | Duplicate

  /** What one UPDATE statement sets on the rows it selects by event id. */
  datatype Change =
    | ToInflight(now: int)
    | ToAcked
    | ToPending(retryAt: int, error: string)
    | ToDeadLetter(error: string)
    | Parked

  function ChangeRow(r: Row, change: Change): Row
  {
    match change
    case ToInflight(now) => r.(status := Inflight, attempts := r.attempts + 1, inflightAt := now)
    case ToAcked => r.(status := Acked, lastError := "", inflightAt := 0)
    case ToPending(retryAt, error) =>
      r.(status := Pending, nextRetryAt := retryAt, lastError := error, inflightAt := 0)
    case ToDeadLetter(error) => r.(status := DeadLetter, lastError := error, inflightAt := 0)
    case Parked => r.(status := DeadLetter, lastError := "pending_cap_exceeded")
  }

  function Update(rows: seq<Row>, ids: set<EventId>, change: Change): (u: seq<Row>)
  {
    seq(|rows|, i requires 0 <= i < |rows| =>
      if rows[i].event.eventId in ids then ChangeRow(rows[i], change) else rows[i])
  }

  function Ids(rows: seq<Row>): set<EventId>
  {
    set r | r in rows :: r.event.eventId
  }

  function EventIds(es: seq<Event>): set<EventId>
  {
    set e | e in es :: e.eventId
  }

  function IdSet(ids: seq<EventId>): set<EventId>
  {
    set id | id in ids
  }

  function RowIds(rows: seq<Row>): seq<EventId>
  {
    seq(|rows|, i requires 0 <= i < |rows| => rows[i].event.eventId)
  }

  // ---- insertion ----

  function FreshRow(serial: nat, e: Event, now: int): Row
  {
    Row(serial, e, Rfc3339.Format(now), Pending, 0, 0, "", 0)
  }

  function InsertEvent(t: Table, e: Event, now: int): Table
  {
    if e.eventId in Ids(t.rows) then t
    else Table(t.rows + [FreshRow(t.nextSerial, e, now)], t.nextSerial + 1)
  }

  function InsertOutcome(t: Table, e: Event): EnqueueOutcome
  {
    if e.eventId in Ids(t.rows) then Duplicate else Inserted
  }

  function InsertAll(t: Table, es: seq<Event>, now: int): Table
  {
    if es == [] then t else InsertEvent(InsertAll(t, es[..|es| - 1], now), es[|es| - 1], now)
  }

  function InsertOutcomes(t: Table, es: seq<Event>, now: int): (o: seq<EnqueueOutcome>)
    ensures |o| == |es|
  {
    if es == [] then []
    else
      var front := es[..|es| - 1];
      InsertOutcomes(t, front, now) + [InsertOutcome(InsertAll(t, front, now), es[|es| - 1])]
  }

  // ---- selection in age order ----

  /** ORDER BY created_at, rowid. */
  predicate NotYounger(a: Row, b: Row)
  {
    StrLt(a.createdAt, b.createdAt) || (a.createdAt == b.createdAt && a.serial <= b.serial)
  }

  predicate Due(r: Row, now: int)
  {
    r.status == Pending && r.nextRetryAt <= now
  }

  function DueRows(rows: seq<Row>, now: int): (d: seq<Row>)
  {
    if rows == [] then []
    else
      var front := DueRows(rows[..|rows| - 1], now);
      if Due(rows[|rows| - 1], now) then front + [rows[|rows| - 1]] else front
  }

  function PendingRows(rows: seq<Row>): (d: seq<Row>)
  {
    if rows == [] then []
    else
      var front := PendingRows(rows[..|rows| - 1]);
      if rows[|rows| - 1].status == Pending then front + [rows[|rows| - 1]] else front
  }

  function Oldest(rows: seq<Row>, limit: nat): seq<Row>
  {
    var sorted := Sort(rows, NotYounger);
    if |sorted| <= limit then sorted else sorted[..limit]
  }

  function Claims(rows: seq<Row>): seq<Claim>
  {
    seq(|rows|, i requires 0 <= i < |rows| => Claim(rows[i].serial, rows[i].event, rows[i].attempts))
  }

  function ClaimRows(rows: seq<Row>, now: int, limit: nat): seq<Row>
  {
    Update(rows, IdSet(RowIds(Oldest(DueRows(rows, now), limit))), ToInflight(now))
  }

  function ClaimedBatch(rows: seq<Row>, now: int, limit: nat): seq<Claim>
  {
    Claims(Oldest(DueRows(rows, now), limit))
  }

  // ---- recovery and bounds ----

  predicate Stale(r: Row, cutoff: int)
  {
    r.status == Inflight && r.inflightAt <= cutoff
  }

  function ReclaimRow(r: Row): Row
  {
    r.(status := Pending, inflightAt := 0,
       lastError := if r.lastError == "" then "reclaimed_after_crash" else r.lastError)
  }

  function ReclaimRows(rows: seq<Row>, cutoff: int): (u: seq<Row>)
  {
    seq(|rows|, i requires 0 <= i < |rows| =>
      if Stale(rows[i], cutoff) then ReclaimRow(rows[i]) else rows[i])
  }

  function StaleCount(rows: seq<Row>, cutoff: int): nat
  {
    if rows == [] then 0
    else StaleCount(rows[..|rows| - 1], cutoff) + if Stale(rows[|rows| - 1], cutoff) then 1 else 0
  }

  function ReclaimCutoff(now: int, olderThanSeconds: int): int
  {
    now - (if olderThanSeconds >= 0 then olderThanSeconds else 0)
  }

  predicate Prunable(r: Row, cutoff: string)
  {
    r.status == Acked && StrLt(r.createdAt, cutoff)
  }

  function PruneRows(rows: seq<Row>, cutoff: string): (u: seq<Row>)
  {
    if rows == [] then []
    else
      var front := PruneRows(rows[..|rows| - 1], cutoff);
      if Prunable(rows[|rows| - 1], cutoff) then front else front + [rows[|rows| - 1]]
  }

  function PruneCutoff(now: int, retentionDays: nat): string
  {
    Rfc3339.Format(now - retentionDays * 86400)
  }

  /** Parks the oldest pending rows beyond `maxPending`. */
  function CapRows(rows: seq<Row>, maxPending: nat): seq<Row>
  {
    var pending := PendingRows(rows);
    if maxPending == 0 || |pending| <= maxPending then rows
    else Update(rows, IdSet(RowIds(Oldest(pending, |pending| - maxPending))), Parked)
  }

  // ---- well-formed tables ----

  /** The primary key and the insertion order. */
  ghost predicate WellFormed(t: Table)
  {
    && (forall i, j :: 0 <= i < j < |t.rows| ==> t.rows[i].event.eventId != t.rows[j].event.eventId)
    && (forall i, j :: 0 <= i < j < |t.rows| ==> t.rows[i].serial < t.rows[j].serial)
    && (forall i :: 0 <= i < |t.rows| ==> t.rows[i].serial < t.nextSerial)
  }

  // ---- statement-level facts ----

  /** Running an idempotent UPDATE once per id is one UPDATE over all the ids. */
  lemma UpdateUnion(rows: seq<Row>, done: set<EventId>, more: set<EventId>, change: Change)
    requires change.ToInflight? ==> done !! more
    ensures Update(Update(rows, done, change), more, change) == Update(rows, done + more, change)
  {
  }

  lemma UpdateNone(rows: seq<Row>, change: Change)
    ensures Update(rows, {}, change) == rows
  {
  }

  lemma UpdateKeepsIds(rows: seq<Row>, ids: set<EventId>, change: Change)
    ensures Ids(Update(rows, ids, change)) == Ids(rows)
  {
    var u := Update(rows, ids, change);
    forall id ensures id in Ids(u) <==> id in Ids(rows) {
      if id in Ids(rows) {
        var r :| r in rows && r.event.eventId == id;
        var i :| 0 <= i < |rows| && rows[i] == r;
        assert u[i] in u && u[i].event.eventId == id;
      }
      if id in Ids(u) {
        var r :| r in u && r.event.eventId == id;
        var i :| 0 <= i < |u| && u[i] == r;
        assert rows[i] in rows && rows[i].event.eventId == id;
      }
    }
  }

  /** How many single-row UPDATE statements find their row. */
  function Hits(ids: seq<EventId>, present: set<EventId>): nat
  {
    if ids == [] then 0
    else Hits(ids[..|ids| - 1], present) + (if ids[|ids| - 1] in present then 1 else 0)
  }

  /** The spool file. Every method is one immediate transaction that commits. */
  class Store {
    var rows: seq<Row>
    var nextSerial: nat
    var cursors: map<(string, string), int>

    ghost predicate Valid()
      reads this
    {
      WellFormed(Contents())
    }

    ghost function Contents(): Table
      reads this
    {
      Table(rows, nextSerial)
    }

    constructor ()
      ensures Valid() && Contents() == Table([], 0) && cursors == map[]
    {
      rows, nextSerial, cursors := [], 0, map[];
    }

    method Enqueue(e: Event, now: int) returns (outcome: EnqueueOutcome)
      requires Valid()
      modifies this`rows, this`nextSerial
      ensures Valid()
      ensures Contents() == InsertEvent(old(Contents()), e, now)
      ensures outcome == InsertOutcome(old(Contents()), e)
    {
      InsertWellFormed(Contents(), e, now);
      if e.eventId in Ids(rows) {
        return Duplicate;
      }
      rows := rows + [FreshRow(nextSerial, e, now)];
      nextSerial := nextSerial + 1;
      return Inserted;
    }

    method EnqueueMany(events: seq<Event>, now: int) returns (outcomes: seq<EnqueueOutcome>)
      requires Valid()
      modifies this`rows, this`nextSerial
      ensures Valid()
      ensures Contents() == InsertAll(old(Contents()), events, now)
      ensures outcomes == InsertOutcomes(old(Contents()), events, now)
    {
      ghost var before := Contents();
      outcomes := [];
      for i := 0 to |events|
        invariant Valid()
        invariant Contents() == InsertAll(before, events[..i], now)
        invariant outcomes == InsertOutcomes(before, events[..i], now)
      {
        assert events[..i + 1][..i] == events[..i];
        var outcome := Enqueue(events[i], now);
        outcomes := outcomes + [outcome];
      }
      assert events[..|events|] == events;
    }

    method ClaimBatch(limit: nat, now: int) returns (batch: seq<Claim>)
      requires Valid()
      modifies this`rows
      ensures Valid()
      ensures rows == ClaimRows(old(rows), now, limit)
      ensures batch == ClaimedBatch(old(rows), now, limit)
    {
      ghost var before := rows;
      if limit == 0 {
        OldestNone(DueRows(rows, now));
        UpdateNone(rows, ToInflight(now));
        return [];
      }
      var due := Oldest(DueRows(rows, now), limit);
      DueDistinct(Contents(), now);
      OldestFacts(DueRows(rows, now), limit);
      UpdateNone(rows, ToInflight(now));
      for i := 0 to |due|
        invariant rows == Update(before, IdSet(RowIds(due)[..i]), ToInflight(now))
      {
        var id := due[i].event.eventId;
        NotEarlier(due, i);
        UpdateUnion(before, IdSet(RowIds(due)[..i]), {id}, ToInflight(now));
        IdSetPush(RowIds(due), i);
        rows := Update(rows, {id}, ToInflight(now));
      }
      assert RowIds(due)[..|due|] == RowIds(due);
      batch := Claims(due);
      UpdateWellFormed(Table(before, nextSerial), IdSet(RowIds(due)), ToInflight(now));
    }

    /** The three id-list updates share one shape: one UPDATE per listed id. */
    method UpdateEach(ids: seq<EventId>, change: Change) returns (updated: nat)
      requires Valid() && !change.ToInflight?
      modifies this`rows
      ensures Valid()
      ensures rows == Update(old(rows), IdSet(ids), change)
      ensures updated == Hits(ids, Ids(old(rows)))
    {
      ghost var before := rows;
      updated := 0;
      UpdateNone(rows, change);
      for i := 0 to |ids|
        invariant rows == Update(before, IdSet(ids[..i]), change)
        invariant updated == Hits(ids[..i], Ids(before))
      {
        UpdateUnion(before, IdSet(ids[..i]), {ids[i]}, change);
        UpdateKeepsIds(before, IdSet(ids[..i]), change);
        IdSetPush(ids, i);
        assert ids[..i + 1][..i] == ids[..i];
        if ids[i] in Ids(rows) {
          updated := updated + 1;
        }
        rows := Update(rows, {ids[i]}, change);
      }
      assert ids[..|ids|] == ids;
      UpdateWellFormed(Table(before, nextSerial), IdSet(ids), change);
    }

    method Ack(ids: seq<EventId>) returns (updated: nat)
      requires Valid()
      modifies this`rows
      ensures Valid()
      ensures rows == Update(old(rows), IdSet(ids), ToAcked)
      ensures updated == Hits(ids, Ids(old(rows)))
    {
      updated := UpdateEach(ids, ToAcked);
    }

    method Reschedule(ids: seq<EventId>, retryAt: int, error: string) returns (updated: nat)
      requires Valid()
      modifies this`rows
      ensures Valid()
      ensures rows == Update(old(rows), IdSet(ids), ToPending(retryAt, error))
      ensures updated == Hits(ids, Ids(old(rows)))
    {
      updated := UpdateEach(ids, ToPending(retryAt, error));
    }

    method Park(ids: seq<EventId>, error: string) returns (updated: nat)
      requires Valid()
      modifies this`rows
      ensures Valid()
      ensures rows == Update(old(rows), IdSet(ids), ToDeadLetter(error))
      ensures updated == Hits(ids, Ids(old(rows)))
    {
      updated := UpdateEach(ids, ToDeadLetter(error));
    }

    method ReclaimStaleInflight(olderThanSeconds: int, now: int) returns (reclaimed: nat)
      requires Valid()
      modifies this`rows
      ensures Valid()
      ensures rows == ReclaimRows(old(rows), ReclaimCutoff(now, olderThanSeconds))
      ensures reclaimed == StaleCount(old(rows), ReclaimCutoff(now, olderThanSeconds))
      ensures |PendingRows(rows)| == |PendingRows(old(rows))| + reclaimed
    {
      var cutoff := now - (if olderThanSeconds >= 0 then olderThanSeconds else 0);
      ReclaimWellFormed(Contents(), cutoff);
      ReclaimedPending(rows, cutoff);
      reclaimed := StaleCount(rows, cutoff);
      rows := ReclaimRows(rows, cutoff);
    }

    method PruneAcked(retentionDays: nat, now: int) returns (deleted: nat)
      requires Valid()
      modifies this`rows
      ensures Valid()
      ensures rows == if retentionDays == 0 then old(rows)
                      else PruneRows(old(rows), PruneCutoff(now, retentionDays))
      ensures deleted == |old(rows)| - |rows|
    {
      if retentionDays == 0 {
        return 0;
      }
      var cutoff := Rfc3339.Format(now - retentionDays * 86400);
      PruneWellFormed(Contents(), cutoff);
      deleted := |rows| - |PruneRows(rows, cutoff)|;
      rows := PruneRows(rows, cutoff);
    }

    method EnforcePendingCap(maxPending: nat) returns (parked: nat)
      requires Valid()
      modifies this`rows
      ensures Valid()
      ensures rows == CapRows(old(rows), maxPending)
      ensures parked == if maxPending == 0 || |PendingRows(old(rows))| <= maxPending then 0
                        else |PendingRows(old(rows))| - maxPending
    {
      if maxPending == 0 {
        return 0;
      }
      var pending := PendingRows(rows);
      if |pending| <= maxPending {
        return 0;
      }
      var excess := |pending| - maxPending;
      var ids := IdSet(RowIds(Oldest(pending, excess)));
      UpdateWellFormed(Contents(), ids, Parked);
      rows := Update(rows, ids, Parked);
      return excess;
    }

    method CursorGet(source: string, path: string) returns (cursor: int)
      ensures cursor == if (source, path) in cursors then cursors[(source, path)] else 0
    {
      cursor := if (source, path) in cursors then cursors[(source, path)] else 0;
    }

    method CursorSet(source: string, path: string, cursor: int)
      modifies this`cursors
      ensures cursors == old(cursors)[(source, path) := cursor]
    {
      cursors := cursors[(source, path) := cursor];
    }
  }

  // ---- facts the methods and the protocol rely on ----

  lemma IdSetPush(ids: seq<EventId>, i: nat)
    requires i < |ids|
    ensures IdSet(ids[..i + 1]) == IdSet(ids[..i]) + {ids[i]}
  {
    assert ids[..i + 1] == ids[..i] + [ids[i]];
  }

  lemma InIds(rows: seq<Row>, i: nat)
    requires i < |rows|
    ensures rows[i].event.eventId in Ids(rows)
  {
    assert rows[i] in rows;
  }

  lemma InsertWellFormed(t: Table, e: Event, now: int)
    requires WellFormed(t)
    ensures WellFormed(InsertEvent(t, e, now))
    ensures Ids(InsertEvent(t, e, now).rows) == Ids(t.rows) + {e.eventId}
    ensures t.rows <= InsertEvent(t, e, now).rows
  {
    if e.eventId !in Ids(t.rows) {
      forall i | 0 <= i < |t.rows| ensures t.rows[i].event.eventId != e.eventId {
        InIds(t.rows, i);
      }
      var u := t.rows + [FreshRow(t.nextSerial, e, now)];
      forall id ensures id in Ids(u) <==> id in Ids(t.rows) || id == e.eventId {
        if id == e.eventId { InIds(u, |t.rows|); }
      }
    }
  }

  lemma {:induction false} InsertAllWellFormed(t: Table, es: seq<Event>, now: int)
    requires WellFormed(t)
    ensures WellFormed(InsertAll(t, es, now))
    ensures Ids(InsertAll(t, es, now).rows) == Ids(t.rows) + EventIds(es)
    ensures t.rows <= InsertAll(t, es, now).rows
  {
    if es != [] {
      var front, last := es[..|es| - 1], es[|es| - 1];
      InsertAllWellFormed(t, front, now);
      InsertWellFormed(InsertAll(t, front, now), last, now);
      EventIdsPush(es);
    }
  }

  lemma EventIdsPush(es: seq<Event>)
    requires es != []
    ensures EventIds(es) == EventIds(es[..|es| - 1]) + {es[|es| - 1].eventId}
  {
    var front, last := es[..|es| - 1], es[|es| - 1];
    assert es == front + [last];
    assert last in es;
    forall id | id in EventIds(front) ensures id in EventIds(es) {
      var e :| e in front && e.eventId == id;
      assert e in es;
    }
  }

  lemma UpdateWellFormed(t: Table, ids: set<EventId>, change: Change)
    requires WellFormed(t)
    ensures WellFormed(t.(rows := Update(t.rows, ids, change)))
  {
  }

  lemma {:induction false} ReclaimedPending(rows: seq<Row>, cutoff: int)
    ensures |PendingRows(ReclaimRows(rows, cutoff))| == |PendingRows(rows)| + StaleCount(rows, cutoff)
  {
    if rows != [] {
      var front, u := rows[..|rows| - 1], ReclaimRows(rows, cutoff);
      ReclaimedPending(front, cutoff);
      assert u[..|u| - 1] == ReclaimRows(front, cutoff);
    }
  }

  lemma ReclaimWellFormed(t: Table, cutoff: int)
    requires WellFormed(t)
    ensures WellFormed(t.(rows := ReclaimRows(t.rows, cutoff)))
  {
  }

  lemma {:induction false} PruneElements(rows: seq<Row>, cutoff: string)
    ensures |PruneRows(rows, cutoff)| <= |rows|
    ensures forall r :: r in PruneRows(rows, cutoff) <==> r in rows && !Prunable(r, cutoff)
  {
    if rows != [] {
      PruneElements(rows[..|rows| - 1], cutoff);
      assert rows == rows[..|rows| - 1] + [rows[|rows| - 1]];
    }
  }

  lemma {:induction false} PruneWellFormed(t: Table, cutoff: string)
    requires WellFormed(t)
    ensures WellFormed(t.(rows := PruneRows(t.rows, cutoff)))
    ensures |PruneRows(t.rows, cutoff)| <= |t.rows|
    decreases |t.rows|
  {
    if t.rows != [] {
      var front, last := t.rows[..|t.rows| - 1], t.rows[|t.rows| - 1];
      PopWellFormed(t);
      PruneWellFormed(t.(rows := front), cutoff);
      PruneElements(front, cutoff);
      var kept := PruneRows(front, cutoff);
      forall i | 0 <= i < |kept| ensures Before(kept[i], last) {
        assert kept[i] in kept;
      }
      PushWellFormed(t.(rows := kept), last);
    }
  }

  lemma PopWellFormed(t: Table)
    requires WellFormed(t) && t.rows != []
    ensures WellFormed(t.(rows := t.rows[..|t.rows| - 1])) && t.rows[|t.rows| - 1].serial < t.nextSerial
    ensures AllBefore(t.rows[..|t.rows| - 1], t.rows[|t.rows| - 1])
  {
  }

  predicate Before(r: Row, q: Row)
  {
    r.event.eventId != q.event.eventId && r.serial < q.serial
  }

  ghost predicate AllBefore(rows: seq<Row>, q: Row)
  {
    forall r :: r in rows ==> Before(r, q)
  }

  lemma PushWellFormed(t: Table, last: Row)
    requires WellFormed(t) && last.serial < t.nextSerial
    requires forall i :: 0 <= i < |t.rows| ==> Before(t.rows[i], last)
    ensures WellFormed(t.(rows := t.rows + [last]))
  {
  }

  lemma {:induction false} DueElements(rows: seq<Row>, now: int)
    ensures forall r :: r in DueRows(rows, now) <==> r in rows && Due(r, now)
  {
    if rows != [] {
      DueElements(rows[..|rows| - 1], now);
      assert rows == rows[..|rows| - 1] + [rows[|rows| - 1]];
    }
  }

  lemma {:induction false} PendingElements(rows: seq<Row>)
    ensures forall r :: r in PendingRows(rows) <==> r in rows && r.status == Pending
  {
    if rows != [] {
      PendingElements(rows[..|rows| - 1]);
      assert rows == rows[..|rows| - 1] + [rows[|rows| - 1]];
    }
  }

  // ---- age order ----

  ghost predicate DistinctIds(rows: seq<Row>)
  {
    forall i, j :: 0 <= i < j < |rows| ==> rows[i].event.eventId != rows[j].event.eventId
  }

  lemma OldestNone(rows: seq<Row>)
    ensures Oldest(rows, 0) == []
  {
  }

  lemma NotEarlier(rows: seq<Row>, i: nat)
    requires DistinctIds(rows) && i < |rows|
    ensures rows[i].event.eventId !in IdSet(RowIds(rows)[..i])
  {
  }

  lemma {:induction false} DueDistinctRows(rows: seq<Row>, now: int)
    requires DistinctIds(rows)
    ensures DistinctIds(DueRows(rows, now))
  {
    if rows != [] {
      var front, last := rows[..|rows| - 1], rows[|rows| - 1];
      DueDistinctRows(front, now);
      DueElements(front, now);
      var due := DueRows(front, now);
      forall i | 0 <= i < |due| ensures due[i].event.eventId != last.event.eventId {
        assert due[i] in due;
        assert due[i] in front;
      }
    }
  }

  lemma DueDistinct(t: Table, now: int)
    requires WellFormed(t)
    ensures DistinctIds(DueRows(t.rows, now))
  {
    DueDistinctRows(t.rows, now);
  }

  lemma {:induction false} PendingDistinct(rows: seq<Row>)
    requires DistinctIds(rows)
    ensures DistinctIds(PendingRows(rows))
  {
    if rows != [] {
      var front, last := rows[..|rows| - 1], rows[|rows| - 1];
      PendingDistinct(front);
      PendingElements(front);
      var pending := PendingRows(front);
      forall i | 0 <= i < |pending| ensures pending[i].event.eventId != last.event.eventId {
        assert pending[i] in pending;
        assert pending[i] in front;
      }
    }
  }

  lemma {:induction false} InsertDistinct(x: Row, rows: seq<Row>)
    requires DistinctIds(rows) && forall r :: r in rows ==> r.event.eventId != x.event.eventId
    ensures DistinctIds(Insert(x, rows, NotYounger))
  {
    if rows != [] && !NotYounger(x, rows[0]) {
      InsertDistinct(x, rows[1..]);
      InsertElements(x, rows[1..], NotYounger);
      var tail := Insert(x, rows[1..], NotYounger);
      forall j | 0 <= j < |tail| ensures tail[j].event.eventId != rows[0].event.eventId {
        assert tail[j] in tail;
        assert rows[0] in rows;
      }
    }
  }

  lemma {:induction false} SortDistinct(rows: seq<Row>)
    requires DistinctIds(rows)
    ensures DistinctIds(Sort(rows, NotYounger))
  {
    if rows != [] {
      SortDistinct(rows[1..]);
      SortElements(rows[1..], NotYounger);
      forall r | r in Sort(rows[1..], NotYounger) ensures r.event.eventId != rows[0].event.eventId {
        assert r in rows[1..];
      }
      InsertDistinct(rows[0], Sort(rows[1..], NotYounger));
    }
  }

  lemma NotYoungerTransitive(x: Row, y: Row, z: Row)
    requires NotYounger(x, y) && NotYounger(y, z)
    ensures NotYounger(x, z)
  {
    if StrLt(x.createdAt, y.createdAt) && StrLt(y.createdAt, z.createdAt) {
      StrLtTransitive(x.createdAt, y.createdAt, z.createdAt);
    }
  }

  lemma NotYoungerTotal(dom: set<Row>)
    ensures TotalOrderOn(NotYounger, dom)
  {
    forall x, y | x in dom && y in dom ensures NotYounger(x, y) || NotYounger(y, x) {
      StrLtTotal(x.createdAt, y.createdAt);
    }
    forall x, y, z | x in dom && y in dom && z in dom && NotYounger(x, y) && NotYounger(y, z)
      ensures NotYounger(x, z)
    {
      NotYoungerTransitive(x, y, z);
    }
  }

  lemma TakenFirst(sorted: seq<Row>, k: nat, r: Row, q: Row)
    requires k <= |sorted| && SortedBy(NotYounger, sorted)
    requires r in sorted[..k] && q in sorted && q !in sorted[..k]
    ensures NotYounger(r, q)
  {
    var i :| 0 <= i < k && sorted[..k][i] == r;
    var j :| 0 <= j < |sorted| && sorted[j] == q;
    forall m | 0 <= m < k ensures sorted[m] != q {
      assert sorted[..k][m] == sorted[m];
    }
    assert sorted[i] == r && i < j;
  }

  lemma OldestIsPrefix(rows: seq<Row>, limit: nat) returns (sorted: seq<Row>, k: nat)
    requires DistinctIds(rows)
    ensures sorted == Sort(rows, NotYounger) && |sorted| == |rows|
    ensures k == (if |rows| <= limit then |rows| else limit) && Oldest(rows, limit) == sorted[..k]
    ensures SortedBy(NotYounger, sorted) && DistinctIds(sorted)
    ensures forall r :: r in sorted <==> r in rows
  {
    var dom := set r | r in rows;
    NotYoungerTotal(dom);
    SortSorted(rows, NotYounger, dom);
    SortDistinct(rows);
    SortElements(rows, NotYounger);
    sorted := Sort(rows, NotYounger);
    k := if |rows| <= limit then |rows| else limit;
  }

  /** A limited selection in age order: as many rows as the limit allows, each once, sorted, and
      no row left out is older than one taken. */
  lemma OldestFacts(rows: seq<Row>, limit: nat)
    requires DistinctIds(rows)
    ensures |Oldest(rows, limit)| == (if |rows| <= limit then |rows| else limit)
    ensures DistinctIds(Oldest(rows, limit)) && SortedBy(NotYounger, Oldest(rows, limit))
    ensures forall r :: r in Oldest(rows, limit) ==> r in rows
    ensures forall r, q :: r in Oldest(rows, limit) && q in rows && q !in Oldest(rows, limit) ==> NotYounger(r, q)
  {
    var sorted, k := OldestIsPrefix(rows, limit);
    forall r, q | r in sorted[..k] && q in rows && q !in sorted[..k] ensures NotYounger(r, q) {
      TakenFirst(sorted, k, r, q);
    }
  }
}
