/** What age order means for the spool: which rows a claim takes, which rows the pending cap
    parks, and that the stored timestamps order rows as the clock did. */
module SpoolAge {
  import opened Text
  import opened Sorting
  import opened Spool
  import Rfc3339

  lemma RowIdsMember(rows: seq<Row>, r: Row)
    requires r in rows
    ensures r.event.eventId in IdSet(RowIds(rows))
  {
    var i :| 0 <= i < |rows| && rows[i] == r;
    assert RowIds(rows)[i] == r.event.eventId;
  }

  lemma RowIdsWitness(rows: seq<Row>, id: EventId) returns (r: Row)
    requires id in IdSet(RowIds(rows))
    ensures r in rows && r.event.eventId == id
  {
    var i :| 0 <= i < |rows| && RowIds(rows)[i] == id;
    r := rows[i];
  }

  lemma SameIdSameRow(rows: seq<Row>, r: Row, q: Row)
    requires DistinctIds(rows) && r in rows && q in rows && r.event.eventId == q.event.eventId
    ensures r == q
  {
    var i :| 0 <= i < |rows| && rows[i] == r;
    var j :| 0 <= j < |rows| && rows[j] == q;
  }

  /** Selecting by id from a distinct table is selecting the rows themselves. */
  lemma TakenById(rows: seq<Row>, taken: seq<Row>, i: nat)
    requires DistinctIds(rows) && i < |rows|
    requires forall r :: r in taken ==> r in rows
    ensures rows[i].event.eventId in IdSet(RowIds(taken)) <==> rows[i] in taken
  {
    if rows[i] in taken {
      RowIdsMember(taken, rows[i]);
    }
    if rows[i].event.eventId in IdSet(RowIds(taken)) {
      var r := RowIdsWitness(taken, rows[i].event.eventId);
      SameIdSameRow(rows, r, rows[i]);
    }
  }

  /** No row left out is older than a row taken. */
  ghost predicate NoneOlder(taken: seq<Row>, candidates: seq<Row>)
  {
    forall r, q :: r in taken && q in candidates && q !in taken ==> NotYounger(r, q)
  }

  // ---- claims ----

  /** A claim moves exactly the oldest due rows to `inflight`, as many as the limit allows, and
      leaves every other row alone. */
  lemma ClaimTakesOldestDue(t: Table, now: int, limit: nat)
    requires WellFormed(t)
    ensures |ClaimedBatch(t.rows, now, limit)|
         == (if |DueRows(t.rows, now)| <= limit then |DueRows(t.rows, now)| else limit)
    ensures forall i :: 0 <= i < |t.rows| ==>
      ClaimRows(t.rows, now, limit)[i] ==
        if t.rows[i] in Oldest(DueRows(t.rows, now), limit)
        then ChangeRow(t.rows[i], ToInflight(now)) else t.rows[i]
    ensures forall r :: r in Oldest(DueRows(t.rows, now), limit) ==> r in t.rows && Due(r, now)
    ensures NoneOlder(Oldest(DueRows(t.rows, now), limit), DueRows(t.rows, now))
  {
    DueDistinct(t, now);
    DueElements(t.rows, now);
    OldestFacts(DueRows(t.rows, now), limit);
    var taken := Oldest(DueRows(t.rows, now), limit);
    forall i | 0 <= i < |t.rows|
      ensures t.rows[i].event.eventId in IdSet(RowIds(taken)) <==> t.rows[i] in taken
    {
      TakenById(t.rows, taken, i);
    }
  }

  /** The batch names each claimed row once, with the attempts it had before. */
  lemma BatchDescribesRows(t: Table, now: int, limit: nat, k: nat)
    requires WellFormed(t) && k < |ClaimedBatch(t.rows, now, limit)|
    ensures
      var c := ClaimedBatch(t.rows, now, limit)[k];
      exists i :: 0 <= i < |t.rows|
        && t.rows[i].serial == c.serial && t.rows[i].event == c.event && t.rows[i].attempts == c.attempts
        && Due(t.rows[i], now)
        && ClaimRows(t.rows, now, limit)[i] == ChangeRow(t.rows[i], ToInflight(now))
    ensures forall m :: 0 <= m < |ClaimedBatch(t.rows, now, limit)| && m != k ==>
      ClaimedBatch(t.rows, now, limit)[m].event.eventId != ClaimedBatch(t.rows, now, limit)[k].event.eventId
  {
    ClaimTakesOldestDue(t, now, limit);
    DueDistinct(t, now);
    OldestFacts(DueRows(t.rows, now), limit);
    var taken := Oldest(DueRows(t.rows, now), limit);
    assert taken[k] in taken;
    var i :| 0 <= i < |t.rows| && t.rows[i] == taken[k];
  }

  // ---- the pending cap ----

  function PendingIds(rows: seq<Row>): set<EventId>
  {
    IdSet(RowIds(PendingRows(rows)))
  }

  lemma {:induction false} DistinctCount(rows: seq<Row>)
    requires DistinctIds(rows)
    ensures |IdSet(RowIds(rows))| == |rows|
  {
    if rows == [] {
      assert IdSet(RowIds(rows)) == {};
    } else {
      var n := |rows| - 1;
      var front := rows[..n];
      DistinctCount(front);
      IdSetPush(RowIds(rows), n);
      assert RowIds(rows)[..n] == RowIds(front);
      assert RowIds(rows)[..n + 1] == RowIds(rows);
      NotEarlier(rows, n);
    }
  }

  lemma PendingIdsOf(rows: seq<Row>, id: EventId)
    ensures id in PendingIds(rows) <==> exists r :: r in rows && r.status == Pending && r.event.eventId == id
  {
    PendingElements(rows);
    if id in PendingIds(rows) {
      var r := RowIdsWitness(PendingRows(rows), id);
    }
    if r :| r in rows && r.status == Pending && r.event.eventId == id {
      RowIdsMember(PendingRows(rows), r);
    }
  }

  lemma ParkedNotPending(rows: seq<Row>, ids: set<EventId>)
    ensures PendingIds(Update(rows, ids, Parked)) == PendingIds(rows) - ids
  {
    var u := Update(rows, ids, Parked);
    forall id ensures id in PendingIds(u) <==> id in PendingIds(rows) && id !in ids {
      PendingIdsOf(rows, id);
      PendingIdsOf(u, id);
      if r :| r in u && r.status == Pending && r.event.eventId == id {
        var i :| 0 <= i < |u| && u[i] == r;
        assert rows[i] in rows && rows[i] == r;
      }
      if r :| r in rows && r.status == Pending && r.event.eventId == id && id !in ids {
        var i :| 0 <= i < |rows| && rows[i] == r;
        assert u[i] in u && u[i] == r;
      }
    }
  }

  lemma OldestPendingIds(rows: seq<Row>, excess: nat)
    requires DistinctIds(rows) && excess <= |PendingRows(rows)|
    ensures |IdSet(RowIds(Oldest(PendingRows(rows), excess)))| == excess
    ensures IdSet(RowIds(Oldest(PendingRows(rows), excess))) <= PendingIds(rows)
  {
    var pending := PendingRows(rows);
    PendingDistinct(rows);
    OldestFacts(pending, excess);
    var taken := Oldest(pending, excess);
    DistinctCount(taken);
    forall id | id in IdSet(RowIds(taken)) ensures id in PendingIds(rows) {
      var r := RowIdsWitness(taken, id);
      RowIdsMember(pending, r);
    }
  }

  /** After the cap exactly the excess has left `pending`; nothing is deleted. */
  lemma CapBoundsPending(t: Table, maxPending: nat)
    requires WellFormed(t) && maxPending > 0
    ensures |PendingRows(CapRows(t.rows, maxPending))|
         == (if |PendingRows(t.rows)| <= maxPending then |PendingRows(t.rows)| else maxPending)
    ensures Ids(CapRows(t.rows, maxPending)) == Ids(t.rows)
  {
    var pending := PendingRows(t.rows);
    if |pending| > maxPending {
      var ids := IdSet(RowIds(Oldest(pending, |pending| - maxPending)));
      OldestPendingIds(t.rows, |pending| - maxPending);
      ParkingCounts(t, ids);
      UpdateKeepsIds(t.rows, ids, Parked);
    }
  }

  lemma PendingCount(rows: seq<Row>)
    requires DistinctIds(rows)
    ensures |PendingRows(rows)| == |PendingIds(rows)|
  {
    PendingDistinct(rows);
    DistinctCount(PendingRows(rows));
  }

  lemma Fewer(a: set<EventId>, b: set<EventId>)
    requires b <= a
    ensures |a - b| == |a| - |b|
  {
  }

  /** Parking pending rows takes that many off the pending count. */
  lemma ParkingCounts(t: Table, ids: set<EventId>)
    requires WellFormed(t) && ids <= PendingIds(t.rows)
    ensures |PendingRows(Update(t.rows, ids, Parked))| == |PendingRows(t.rows)| - |ids|
  {
    UpdateWellFormed(t, ids, Parked);
    ParkedNotPending(t.rows, ids);
    PendingCount(t.rows);
    PendingCount(Update(t.rows, ids, Parked));
    Fewer(PendingIds(t.rows), ids);
  }

  /** The rows the cap parks. */
  function Excess(rows: seq<Row>, maxPending: nat): seq<Row>
  {
    var pending := PendingRows(rows);
    if maxPending == 0 || |pending| <= maxPending then [] else Oldest(pending, |pending| - maxPending)
  }

  /** The cap parks pending rows only, none of them younger than a pending row it leaves, and
      changes no other row. */
  lemma CapParksOldest(t: Table, maxPending: nat)
    requires WellFormed(t)
    ensures |CapRows(t.rows, maxPending)| == |t.rows|
    ensures forall i :: 0 <= i < |t.rows| ==>
      CapRows(t.rows, maxPending)[i] ==
        if t.rows[i] in Excess(t.rows, maxPending) then ChangeRow(t.rows[i], Parked) else t.rows[i]
    ensures forall r :: r in Excess(t.rows, maxPending) ==> r in t.rows && r.status == Pending
    ensures NoneOlder(Excess(t.rows, maxPending), PendingRows(t.rows))
  {
    var pending := PendingRows(t.rows);
    if maxPending > 0 && |pending| > maxPending {
      var taken := Excess(t.rows, maxPending);
      PendingDistinct(t.rows);
      PendingElements(t.rows);
      OldestFacts(pending, |pending| - maxPending);
      forall i | 0 <= i < |t.rows|
        ensures t.rows[i].event.eventId in IdSet(RowIds(taken)) <==> t.rows[i] in taken
      {
        TakenById(t.rows, taken, i);
      }
    }
  }

  // ---- timestamps and the clock ----

  /** The row was inserted when the clock read `at`, in a year printed with four digits. */
  predicate Stamped(r: Row, at: int)
  {
    r.createdAt == Rfc3339.Format(at) && 0 <= Rfc3339.YearOf(at) <= 9999
  }

  lemma InsertStamps(t: Table, e: Event, now: int)
    requires e.eventId !in Ids(t.rows) && 0 <= Rfc3339.YearOf(now) <= 9999
    ensures Stamped(InsertEvent(t, e, now).rows[|t.rows|], now)
  {
  }

  /** The rows were inserted at the given times, none after `now`, and the clock did not run back. */
  ghost predicate ClockRan(rows: seq<Row>, times: seq<int>, now: int)
  {
    && |times| == |rows|
    && (forall i :: 0 <= i < |rows| ==> Stamped(rows[i], times[i]) && times[i] <= now)
    && forall i, j :: 0 <= i < j < |rows| ==> times[i] <= times[j]
  }

  lemma InsertClockRan(t: Table, e: Event, times: seq<int>, before: int, now: int) returns (later: seq<int>)
    requires ClockRan(t.rows, times, before) && before <= now && 0 <= Rfc3339.YearOf(now) <= 9999
    ensures ClockRan(InsertEvent(t, e, now).rows, later, now)
  {
    hide Stamped;
    if e.eventId in Ids(t.rows) {
      later := times;
    } else {
      later := times + [now];
      InsertStamps(t, e, now);
    }
  }

  /** As long as the clock does not run back, the order of age, which claims and the cap follow, is the order of
      insertion, whatever batch is inserted next. */
  lemma InsertionOrderIsAge(t: Table, es: seq<Event>, times: seq<int>, before: int, now: int)
    returns (later: seq<int>)
    requires WellFormed(t) && ClockRan(t.rows, times, before) && before <= now && 0 <= Rfc3339.YearOf(now) <= 9999
    ensures ClockRan(InsertAll(t, es, now).rows, later, now)
    ensures var rows := InsertAll(t, es, now).rows;
            forall i, j :: 0 <= i < j < |rows| ==> NotYounger(rows[i], rows[j]) && !NotYounger(rows[j], rows[i])
  {
    later := InsertAllClockRan(t, es, times, before, now);
    InsertAllWellFormed(t, es, now);
    AgeFollowsClock(InsertAll(t, es, now), later, now);
  }

  lemma {:induction false} InsertAllClockRan(t: Table, es: seq<Event>, times: seq<int>, before: int, now: int)
    returns (later: seq<int>)
    requires ClockRan(t.rows, times, before) && before <= now && 0 <= Rfc3339.YearOf(now) <= 9999
    ensures ClockRan(InsertAll(t, es, now).rows, later, now)
  {
    if es == [] {
      later := times;
    } else {
      later := InsertAllClockRan(t, es[..|es| - 1], times, before, now);
      later := InsertClockRan(InsertAll(t, es[..|es| - 1], now), es[|es| - 1], later, now, now);
    }
  }

  lemma AgeFollowsClock(t: Table, times: seq<int>, now: int)
    requires WellFormed(t) && ClockRan(t.rows, times, now)
    ensures forall i, j :: 0 <= i < j < |t.rows| ==> NotYounger(t.rows[i], t.rows[j]) && !NotYounger(t.rows[j], t.rows[i])
  {
    forall i, j | 0 <= i < j < |t.rows| ensures NotYounger(t.rows[i], t.rows[j]) && !NotYounger(t.rows[j], t.rows[i]) {
      AgeIsClockOrder(t.rows[i], t.rows[j], times[i], times[j]);
      AgeIsClockOrder(t.rows[j], t.rows[i], times[j], times[i]);
    }
  }

  /** Age order is clock order, with the insertion order breaking ties. */
  lemma AgeIsClockOrder(a: Row, b: Row, at: int, bt: int)
    requires Stamped(a, at) && Stamped(b, bt)
    ensures NotYounger(a, b) <==> at < bt || (at == bt && a.serial <= b.serial)
  {
    Rfc3339.FormatOrder(at, bt);
    if a.createdAt == b.createdAt {
      Rfc3339.FormatInjective(at, bt);
    }
  }

  lemma PrunableByClock(r: Row, at: int, cutoff: int)
    requires Stamped(r, at) && 0 <= Rfc3339.YearOf(cutoff) <= 9999
    ensures Prunable(r, Rfc3339.Format(cutoff)) <==> r.status == Acked && at < cutoff
  {
    Rfc3339.FormatOrder(at, cutoff);
  }

  lemma PruneMember(rows: seq<Row>, cutoff: string, r: Row, deleted: bool)
    requires r in rows && (Prunable(r, cutoff) <==> deleted)
    ensures r !in PruneRows(rows, cutoff) <==> deleted
  {
    PruneElements(rows, cutoff);
  }

  /** Pruning deletes exactly the acknowledged rows inserted before the cutoff instant. */
  lemma PruneIsByClock(rows: seq<Row>, cutoff: int, r: Row, at: int)
    requires r in rows && Stamped(r, at) && 0 <= Rfc3339.YearOf(cutoff) <= 9999
    ensures r !in PruneRows(rows, Rfc3339.Format(cutoff)) <==> r.status == Acked && at < cutoff
  {
    PrunableByClock(r, at, cutoff);
    PruneMember(rows, Rfc3339.Format(cutoff), r, r.status == Acked && at < cutoff);
  }
}
