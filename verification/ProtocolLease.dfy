/** Lease exclusivity: while every drain finishes its batch within the reclaim window and the gateway
    speaks of ids of the batch without contradicting or taking back what it said, no event is in the
    hands of two drains, and `acked` and `dead_letter` are final. */
module ProtocolLease {
  import opened Spool
  import opened Drain
  import opened DrainFacts
  import opened Protocol
  import opened ProtocolSafety

  /** The age at which a drain pass takes back an `inflight` row. */
  const LEASE := 120

  // ---- the discipline ----

  /** The answer speaks of ids of the batch only. */
  ghost predicate WithinBatch(batch: seq<Claim>, a: Answer)
  {
    && IdSet(AckedIds(a)) <= IdSet(BatchIds(batch))
    && forall i :: 0 <= i < |a.rejected| ==>
         a.rejected[i].eventId == "" || a.rejected[i].eventId in IdSet(BatchIds(batch))
  }

  /** An id refused more than once is refused for good every time. */
  ghost predicate RepeatsForGood(rejected: seq<Rejected>)
  {
    forall i, j :: 0 <= i < j < |rejected| && rejected[i].eventId == rejected[j].eventId != "" ==>
      IsPermanentRejection(rejected[i].code) && IsPermanentRejection(rejected[j].code)
  }

  /** The answer speaks of ids of the batch, of none both as stored and as refused, and repeats only
      permanent refusals. */
  ghost predicate Orderly(batch: seq<Claim>, a: Answer)
  {
    && WithinBatch(batch, a)
    && (forall i :: 0 <= i < |a.rejected| ==>
          a.rejected[i].eventId == "" || a.rejected[i].eventId !in AckedIds(a))
    && RepeatsForGood(a.rejected)
  }

  function Since(p: Phase): int
    requires !p.Idle?
  {
    match p
    case Posting(_, since) => since
    case Settling(since, _) => since
  }

  predicate OpenWithin(limit: int, p: Phase, now: int)
  {
    p.Idle? || now < Since(p) + limit
  }

  predicate LeaseOpen(p: Phase, now: int)
  {
    OpenWithin(LEASE, p, now)
  }

  /** The clock runs forward and leaves no drain busy for `limit` seconds after its claim, stale rows are
      taken back only at lease age, and answers are orderly. */
  ghost predicate DisciplinedWithin(limit: int, w: World, s: Step)
  {
    match s
    case Tick(now) => w.now <= now && forall d :: d in w.drains ==> OpenWithin(limit, w.drains[d], now)
    case ReclaimStep(older) => older >= LEASE
    case ReplyStep(d, answer, _) => PhaseOf(w, d).Posting? ==> Orderly(PhaseOf(w, d).batch, answer)
    case _ => true
  }

  ghost predicate RunWithin(env: Env, limit: int, w: World, steps: seq<Step>)
  {
    forall k :: 0 <= k < |steps| ==> DisciplinedWithin(limit, Run(env, w, steps[..k]), steps[k])
  }

  ghost predicate Disciplined(w: World, s: Step)
  {
    DisciplinedWithin(LEASE, w, s)
  }

  ghost predicate DisciplinedRun(env: Env, steps: seq<Step>)
  {
    RunWithin(env, LEASE, Start, steps)
  }

  // ---- the invariant ----

  function TodoIds(todo: seq<Tx>): set<EventId>
  {
    set k, id | 0 <= k < |todo| && id in todo[k].ids :: id
  }

  /** The ids a drain may still write. */
  function Held(p: Phase): set<EventId>
  {
    match p
    case Idle => {}
    case Posting(batch, _) => IdSet(BatchIds(batch))
    case Settling(_, todo) => TodoIds(todo)
  }

  /** Every transaction of the list that names the id parks it. */
  ghost predicate OnlyParked(todo: seq<Tx>, id: EventId)
  {
    forall k :: 0 <= k < |todo| && id in IdSet(todo[k].ids) ==> todo[k].ParkTx?
  }

  /** An id is named twice only to be parked. */
  ghost predicate RepeatsPark(todo: seq<Tx>)
  {
    forall i, j, id :: 0 <= i < j < |todo| && id in IdSet(todo[i].ids) && id in IdSet(todo[j].ids) ==>
      todo[i].ParkTx? && todo[j].ParkTx?
  }

  ghost predicate DistinctBatch(batch: seq<Claim>)
  {
    forall i, j :: 0 <= i < j < |batch| ==> batch[i].event.eventId != batch[j].event.eventId
  }

  ghost predicate PhaseOrderly(p: Phase)
  {
    match p
    case Idle => true
    case Posting(batch, _) => DistinctBatch(batch)
    case Settling(_, todo) => RepeatsPark(todo)
  }

  /** The row is leased since the drain's claim, or is parked and the drain will only park it again. */
  ghost predicate HeldRow(p: Phase, r: Row)
  {
    && !p.Idle?
    && ((r.status == Inflight && r.inflightAt == Since(p))
        || (r.status == DeadLetter && p.Settling? && OnlyParked(p.todo, r.event.eventId)))
  }

  /** Every id the drain holds has its row, in that condition. */
  ghost predicate HoldsLease(p: Phase, rows: seq<Row>)
  {
    && Held(p) <= Ids(rows)
    && forall i :: 0 <= i < |rows| && rows[i].event.eventId in Held(p) ==> HeldRow(p, rows[i])
  }

  ghost predicate Exclusive(w: World)
  {
    forall d, e :: d in w.drains && e in w.drains && d != e ==> Held(w.drains[d]) !! Held(w.drains[e])
  }

  ghost predicate Leased(w: World)
  {
    && WellFormed(w.table)
    && (forall d :: d in w.drains ==>
          && PhaseOrderly(w.drains[d])
          && LeaseOpen(w.drains[d], w.now)
          && HoldsLease(w.drains[d], w.table.rows))
    && Exclusive(w)
  }

  // ---- what each table change does to a lease ----

  lemma LeaseFramed(p: Phase, rows: seq<Row>, u: seq<Row>)
    requires HoldsLease(p, rows) && Held(p) <= Ids(u)
    requires forall i :: 0 <= i < |u| && u[i].event.eventId in Held(p) ==> u[i] in rows
    ensures HoldsLease(p, u)
  {
    forall i | 0 <= i < |u| && u[i].event.eventId in Held(p) ensures HeldRow(p, u[i]) {
      var j :| 0 <= j < |rows| && rows[j] == u[i];
    }
  }

  lemma UpdateElsewhere(p: Phase, rows: seq<Row>, ids: set<EventId>, change: Change)
    requires HoldsLease(p, rows) && ids !! Held(p)
    ensures HoldsLease(p, Update(rows, ids, change))
  {
    UpdateKeepsIds(rows, ids, change);
  }

  lemma InsertKeepsLease(p: Phase, t: Table, e: Event, now: int)
    requires WellFormed(t) && HoldsLease(p, t.rows)
    ensures HoldsLease(p, InsertEvent(t, e, now).rows)
  {
    InsertWellFormed(t, e, now);
    var u := InsertEvent(t, e, now).rows;
    forall i | 0 <= i < |u| && u[i].event.eventId in Held(p) ensures u[i] in t.rows {
      assert i < |t.rows| ==> u[i] == t.rows[i];
    }
    LeaseFramed(p, t.rows, u);
  }

  lemma {:induction false} InsertAllKeepsLease(p: Phase, t: Table, es: seq<Event>, now: int)
    requires WellFormed(t) && HoldsLease(p, t.rows)
    ensures HoldsLease(p, InsertAll(t, es, now).rows)
  {
    if es != [] {
      InsertAllKeepsLease(p, t, es[..|es| - 1], now);
      InsertAllWellFormed(t, es[..|es| - 1], now);
      InsertKeepsLease(p, InsertAll(t, es[..|es| - 1], now), es[|es| - 1], now);
    }
  }

  lemma ReclaimKeepsLease(p: Phase, rows: seq<Row>, now: int, older: int)
    requires HoldsLease(p, rows) && LeaseOpen(p, now) && older >= LEASE
    ensures HoldsLease(p, ReclaimRows(rows, ReclaimCutoff(now, older)))
  {
    ReclaimKeepsIds(rows, ReclaimCutoff(now, older));
  }

  lemma PruneKeepsLease(p: Phase, t: Table, cutoff: string)
    requires WellFormed(t) && HoldsLease(p, t.rows)
    ensures HoldsLease(p, PruneRows(t.rows, cutoff))
  {
    PruneElements(t.rows, cutoff);
    var kept := PruneRows(t.rows, cutoff);
    forall id | id in Held(p) ensures id in Ids(kept) {
      var r :| r in t.rows && r.event.eventId == id;
      var i :| 0 <= i < |t.rows| && t.rows[i] == r;
      assert r in kept;
    }
    forall i | 0 <= i < |kept| && kept[i].event.eventId in Held(p) ensures kept[i] in t.rows {
      assert kept[i] in kept;
    }
    LeaseFramed(p, t.rows, kept);
  }

  /** Rows selected because they are pending are nobody's lease. */
  lemma PendingNotHeld(p: Phase, t: Table, taken: seq<Row>)
    requires WellFormed(t) && HoldsLease(p, t.rows)
    requires forall r :: r in taken ==> r in t.rows && r.status == Pending
    ensures IdSet(RowIds(taken)) !! Held(p)
  {
    forall id | id in IdSet(RowIds(taken)) ensures id !in Held(p) {
      var k :| 0 <= k < |taken| && RowIds(taken)[k] == id;
      assert taken[k] in taken;
      var i :| 0 <= i < |t.rows| && t.rows[i] == taken[k];
    }
  }

  lemma OldestPending(t: Table, maxPending: nat) returns (taken: seq<Row>)
    requires WellFormed(t)
    ensures CapRows(t.rows, maxPending) == Update(t.rows, IdSet(RowIds(taken)), Parked)
    ensures forall r :: r in taken ==> r in t.rows && r.status == Pending
  {
    var pending := PendingRows(t.rows);
    PendingElements(t.rows);
    if maxPending == 0 || |pending| <= maxPending {
      taken := [];
      assert IdSet(RowIds(taken)) == {};
      UpdateNone(t.rows, Parked);
    } else {
      PendingDistinct(t.rows);
      OldestFacts(pending, |pending| - maxPending);
      taken := Oldest(pending, |pending| - maxPending);
    }
  }

  lemma OldestDue(t: Table, now: int, limit: nat)
    requires WellFormed(t)
    ensures forall r :: r in Oldest(DueRows(t.rows, now), limit) ==> r in t.rows && r.status == Pending
    ensures DistinctIds(Oldest(DueRows(t.rows, now), limit))
  {
    DueElements(t.rows, now);
    DueDistinct(t, now);
    OldestFacts(DueRows(t.rows, now), limit);
  }

  lemma ClaimGivesLease(t: Table, now: int, limit: nat)
    requires WellFormed(t)
    ensures DistinctBatch(ClaimedBatch(t.rows, now, limit))
    ensures HoldsLease(Posting(ClaimedBatch(t.rows, now, limit), now), ClaimRows(t.rows, now, limit))
  {
    OldestDue(t, now, limit);
    var taken := Oldest(DueRows(t.rows, now), limit);
    var batch := ClaimedBatch(t.rows, now, limit);
    assert BatchIds(batch) == RowIds(taken);
    UpdateKeepsIds(t.rows, IdSet(RowIds(taken)), ToInflight(now));
    forall id | id in IdSet(RowIds(taken)) ensures id in Ids(t.rows) {
      var k :| 0 <= k < |taken| && RowIds(taken)[k] == id;
      assert taken[k] in taken;
    }
  }

  // ---- what the lists of transactions hold ----

  lemma TodoTouches(todo: seq<Tx>, id: EventId)
    ensures id in TodoIds(todo) <==> Touches(todo, id)
  {
    if Touches(todo, id) {
      var k :| 0 <= k < |todo| && id in IdSet(todo[k].ids);
    }
  }

  lemma RepeatsPush(txs: seq<Tx>, tx: Tx)
    requires RepeatsPark(txs)
    requires forall id :: id in IdSet(tx.ids) && Touches(txs, id) ==> tx.ParkTx? && OnlyParked(txs, id)
    ensures RepeatsPark(txs + [tx])
  {
    forall i, id | 0 <= i < |txs| && id in IdSet(txs[i].ids) && id in IdSet(tx.ids)
      ensures txs[i].ParkTx? && tx.ParkTx?
    {
      assert Touches(txs, id);
    }
  }

  lemma {:induction false} RefusedForGoodParks(
      env: Env, batch: seq<Claim>, rejected: seq<Rejected>, now: int, id: EventId)
    requires forall i :: 0 <= i < |rejected| && rejected[i].eventId == id ==> IsPermanentRejection(rejected[i].code)
    ensures OnlyParked(RejectedTxs(env, batch, rejected, now), id)
  {
    if rejected != [] {
      RefusedForGoodParks(env, batch, rejected[..|rejected| - 1], now, id);
      SingletonIds(rejected[|rejected| - 1].eventId);
    }
  }

  /** A further refusal meets earlier ones of the same id only if all of them park it. */
  lemma OneMoreParks(env: Env, batch: seq<Claim>, acked: seq<EventId>, front: seq<Rejected>, last: Rejected, now: int)
    requires last.eventId != "" && last.eventId !in acked && RepeatsForGood(front + [last])
    ensures Touches(UpToRefusals(env, batch, acked, front, now), last.eventId) ==>
      RejectedTx(env, batch, last, now).ParkTx? && OnlyParked(UpToRefusals(env, batch, acked, front, now), last.eventId)
  {
    var id, ack, txs := last.eventId, [AckTx(acked)], RejectedTxs(env, batch, front, now);
    TouchesConcat(ack, txs, id);
    RejectedTouches(env, batch, front, now, id);
    assert !Touches(ack, id);
    if id in RejectedIds(front) {
      forall i | 0 <= i < |front| && front[i].eventId == id
        ensures IsPermanentRejection(front[i].code) && IsPermanentRejection(last.code)
      {
        assert (front + [last])[i] == front[i] && (front + [last])[|front|] == last;
      }
      RefusedForGoodParks(env, batch, front, now, id);
      forall k | 0 <= k < |ack + txs| && id in IdSet((ack + txs)[k].ids) ensures (ack + txs)[k].ParkTx? {
        assert k > 0 && (ack + txs)[k] == txs[k - 1];
      }
    }
  }

  lemma {:induction false} RefusalsRepeat(
      env: Env, batch: seq<Claim>, acked: seq<EventId>, rejected: seq<Rejected>, now: int)
    requires forall i :: 0 <= i < |rejected| ==> rejected[i].eventId == "" || rejected[i].eventId !in acked
    requires RepeatsForGood(rejected)
    ensures RepeatsPark(UpToRefusals(env, batch, acked, rejected, now))
  {
    if rejected == [] {
      assert UpToRefusals(env, batch, acked, rejected, now) == [AckTx(acked)];
    } else {
      var front, last := rejected[..|rejected| - 1], rejected[|rejected| - 1];
      assert rejected == front + [last];
      RefusalsRepeat(env, batch, acked, front, now);
      var before := UpToRefusals(env, batch, acked, front, now);
      if last.eventId == "" {
        assert UpToRefusals(env, batch, acked, rejected, now) == before;
      } else {
        OneMoreParks(env, batch, acked, front, last, now);
        SingletonIds(last.eventId);
        RepeatsPush(before, RejectedTx(env, batch, last, now));
        assert UpToRefusals(env, batch, acked, rejected, now) == before + [RejectedTx(env, batch, last, now)];
      }
    }
  }

  /** Ids an answer leaves unmentioned are named by no earlier transaction of it. */
  lemma LeftoverUntouched(env: Env, batch: seq<Claim>, a: Answer, now: int, id: EventId)
    requires id in Unaccounted(batch, Mentioned(a))
    ensures !Touches(UpToRefusals(env, batch, AckedIds(a), a.rejected, now), id)
  {
    UnaccountedIds(batch, Mentioned(a), id);
    TouchesConcat([AckTx(AckedIds(a))], RejectedTxs(env, batch, a.rejected, now), id);
    RejectedTouches(env, batch, a.rejected, now, id);
    assert !Touches([AckTx(AckedIds(a))], id);
  }

  lemma OrderlyOutcome(env: Env, batch: seq<Claim>, a: Answer, now: int)
    requires Orderly(batch, a)
    ensures RepeatsPark(OutcomeTxs(env, batch, a, now))
    ensures TodoIds(OutcomeTxs(env, batch, a, now)) <= IdSet(BatchIds(batch))
  {
    var txs, left := UpToRefusals(env, batch, AckedIds(a), a.rejected, now), LeftoverTxs(env, batch, a, now);
    RefusalsRepeat(env, batch, AckedIds(a), a.rejected, now);
    assert OutcomeTxs(env, batch, a, now) == txs + left;
    if left != [] {
      assert left == [left[0]];
      forall id | id in IdSet(left[0].ids) ensures !Touches(txs, id) {
        LeftoverUntouched(env, batch, a, now, id);
      }
      RepeatsPush(txs, left[0]);
    } else {
      assert txs + left == txs;
    }
    forall id | id in TodoIds(OutcomeTxs(env, batch, a, now)) ensures id in IdSet(BatchIds(batch)) {
      TodoTouches(OutcomeTxs(env, batch, a, now), id);
      OutcomeTouches(env, batch, a, now, id);
      RejectedWithin(batch, a, id);
      assert id in AckedIds(a) ==> id in IdSet(AckedIds(a));
    }
  }

  lemma RejectedWithin(batch: seq<Claim>, a: Answer, id: EventId)
    requires Orderly(batch, a)
    ensures id != "" && id in RejectedIds(a.rejected) ==> id in IdSet(BatchIds(batch))
  {
    if id != "" && id in RejectedIds(a.rejected) {
      var r :| r in a.rejected && r.eventId == id;
      var i :| 0 <= i < |a.rejected| && a.rejected[i] == r;
    }
  }

  lemma {:induction false} RetryParkFromBatch(env: Env, error: TransportError, batch: seq<Claim>)
    requires DistinctBatch(batch)
    ensures forall id :: id in RetryIds(env, error, batch) ==> id !in ParkIds(env, error, batch)
  {
    if batch != [] {
      var front, last := batch[..|batch| - 1], batch[|batch| - 1];
      RetryParkFromBatch(env, error, front);
      RetryOrPark(env, error, front, last.event.eventId);
      assert last.event.eventId !in BatchIds(front);
    }
  }

  lemma OrderlyError(env: Env, batch: seq<Claim>, error: TransportError, now: int)
    requires DistinctBatch(batch)
    ensures RepeatsPark(ErrorTxs(env, batch, error, now))
    ensures TodoIds(ErrorTxs(env, batch, error, now)) <= IdSet(BatchIds(batch))
  {
    RetryParkFromBatch(env, error, batch);
    forall id | id in TodoIds(ErrorTxs(env, batch, error, now)) ensures id in IdSet(BatchIds(batch)) {
      TodoTouches(ErrorTxs(env, batch, error, now), id);
      ErrorTouches(env, batch, error, now, id);
    }
  }

  lemma RestOfTodo(todo: seq<Tx>)
    requires todo != [] && RepeatsPark(todo)
    ensures RepeatsPark(todo[1..])
    ensures TodoIds(todo[1..]) <= TodoIds(todo) && IdSet(todo[0].ids) <= TodoIds(todo)
    ensures forall id :: id in IdSet(todo[0].ids) && id in TodoIds(todo[1..]) ==>
      todo[0].ParkTx? && OnlyParked(todo[1..], id)
    ensures forall id :: OnlyParked(todo, id) ==> OnlyParked(todo[1..], id)
  {
    var rest := todo[1..];
    assert forall k :: 0 <= k < |rest| ==> rest[k] == todo[k + 1];
    forall id | id in TodoIds(rest) ensures id in TodoIds(todo) {
      var k :| 0 <= k < |rest| && id in rest[k].ids;
      assert rest[k] == todo[k + 1];
    }
    forall id | id in IdSet(todo[0].ids) && id in TodoIds(rest) ensures todo[0].ParkTx? && OnlyParked(rest, id) {
      var k :| 0 <= k < |rest| && id in rest[k].ids;
      assert id in IdSet(todo[k + 1].ids);
    }
  }

  // ---- one step ----

  lemma CaptureKeepsLeases(env: Env, w: World, s: Step)
    requires Leased(w) && (s.EnqueueStep? || s.EnqueueManyStep?)
    ensures Leased(Next(env, w, s))
  {
    if s.EnqueueStep? {
      InsertWellFormed(w.table, s.event, w.now);
      forall d | d in w.drains ensures HoldsLease(w.drains[d], InsertEvent(w.table, s.event, w.now).rows) {
        InsertKeepsLease(w.drains[d], w.table, s.event, w.now);
      }
    } else {
      InsertAllWellFormed(w.table, s.events, w.now);
      forall d | d in w.drains ensures HoldsLease(w.drains[d], InsertAll(w.table, s.events, w.now).rows) {
        InsertAllKeepsLease(w.drains[d], w.table, s.events, w.now);
      }
    }
  }

  lemma ReclaimKeepsLeases(env: Env, w: World, s: Step)
    requires Leased(w) && Disciplined(w, s) && s.ReclaimStep?
    ensures Leased(Next(env, w, s))
  {
    var cutoff := ReclaimCutoff(w.now, s.olderThanSeconds);
    ReclaimWellFormed(w.table, cutoff);
    forall d | d in w.drains ensures HoldsLease(w.drains[d], ReclaimRows(w.table.rows, cutoff)) {
      ReclaimKeepsLease(w.drains[d], w.table.rows, w.now, s.olderThanSeconds);
    }
  }

  lemma PruneKeepsLeases(env: Env, w: World, s: Step)
    requires Leased(w) && s.PruneStep?
    ensures Leased(Next(env, w, s))
  {
    if s.retentionDays != 0 {
      var cutoff := PruneCutoff(w.now, s.retentionDays);
      PruneWellFormed(w.table, cutoff);
      forall d | d in w.drains ensures HoldsLease(w.drains[d], PruneRows(w.table.rows, cutoff)) {
        PruneKeepsLease(w.drains[d], w.table, cutoff);
      }
    }
  }

  lemma CapKeepsLeases(env: Env, w: World, s: Step)
    requires Leased(w) && s.CapStep?
    ensures Leased(Next(env, w, s))
  {
    var taken := OldestPending(w.table, s.maxPending);
    UpdateWellFormed(w.table, IdSet(RowIds(taken)), Parked);
    forall d | d in w.drains ensures HoldsLease(w.drains[d], CapRows(w.table.rows, s.maxPending)) {
      PendingNotHeld(w.drains[d], w.table, taken);
      UpdateElsewhere(w.drains[d], w.table.rows, IdSet(RowIds(taken)), Parked);
    }
  }

  lemma ClaimKeepsLeases(env: Env, w: World, s: Step)
    requires Leased(w) && s.ClaimStep?
    ensures Leased(Next(env, w, s))
  {
    var batch := ClaimedBatch(w.table.rows, w.now, s.limit);
    if PhaseOf(w, s.drain).Idle? && batch != [] {
      var taken := Oldest(DueRows(w.table.rows, w.now), s.limit);
      var ids := IdSet(RowIds(taken));
      OldestDue(w.table, w.now, s.limit);
      ClaimGivesLease(w.table, w.now, s.limit);
      UpdateWellFormed(w.table, ids, ToInflight(w.now));
      assert BatchIds(batch) == RowIds(taken);
      forall d | d in w.drains && d != s.drain
        ensures HoldsLease(w.drains[d], ClaimRows(w.table.rows, w.now, s.limit))
        ensures Held(w.drains[d]) !! Held(Posting(batch, w.now))
      {
        PendingNotHeld(w.drains[d], w.table, taken);
        UpdateElsewhere(w.drains[d], w.table.rows, ids, ToInflight(w.now));
      }
    }
  }

  /** A drain that keeps its lease but holds fewer ids leaves the others alone. */
  lemma SmallerPhase(w: World, d: nat, p: Phase)
    requires Leased(w) && d in w.drains
    requires PhaseOrderly(p) && LeaseOpen(p, w.now) && Held(p) <= Held(w.drains[d])
    requires !p.Idle? ==> p.Settling? && !w.drains[d].Idle? && Since(p) == Since(w.drains[d])
    requires w.drains[d].Settling? && p.Settling? ==>
      forall id :: OnlyParked(w.drains[d].todo, id) ==> OnlyParked(p.todo, id)
    ensures Leased(w.(drains := w.drains[d := p]))
  {
    var q, rows := w.drains[d], w.table.rows;
    forall i | 0 <= i < |rows| && rows[i].event.eventId in Held(p) ensures HeldRow(p, rows[i]) {
      assert HeldRow(q, rows[i]);
    }
  }

  lemma ReplyKeepsLeases(env: Env, w: World, s: Step)
    requires Leased(w) && Disciplined(w, s) && (s.ReplyStep? || s.ErrorStep?)
    ensures Leased(Next(env, w, s))
  {
    hide OutcomeTxs, ErrorTxs, RetriedPairs, RepeatsPark, TodoIds, BatchIds, OnlyParked, WellFormed, HoldsLease;
    var phase := PhaseOf(w, s.drain);
    if phase.Posting? {
      if s.ReplyStep? {
        OrderlyOutcome(env, phase.batch, s.answer, s.at);
        SmallerPhase(w, s.drain, Settle(phase.since, OutcomeTxs(env, phase.batch, s.answer, s.at)));
      } else {
        OrderlyError(env, phase.batch, s.error, s.at);
        SmallerPhase(w, s.drain, Settle(phase.since, ErrorTxs(env, phase.batch, s.error, s.at)));
      }
    }
  }

  /** What the drain's own commit does to a row it still holds. */
  lemma OwnRowAfter(p: Phase, rest: Phase, r: Row, tx: Tx)
    requires p.Settling? && p.todo != [] && RepeatsPark(p.todo) && tx == p.todo[0] && HeldRow(p, r)
    requires rest == Settle(p.since, p.todo[1..]) && r.event.eventId in Held(rest)
    ensures r.event.eventId in Held(p)
    ensures HeldRow(rest, if r.event.eventId in IdSet(tx.ids) then ChangeRow(r, TxChange(tx)) else r)
  {
    RestOfTodo(p.todo);
  }

  lemma RestHeld(p: Phase, rest: Phase)
    requires p.Settling? && p.todo != [] && RepeatsPark(p.todo) && rest == Settle(p.since, p.todo[1..])
    ensures Held(rest) <= Held(p)
  {
    RestOfTodo(p.todo);
  }

  lemma CommitKeepsOwn(p: Phase, rest: Phase, rows: seq<Row>, tx: Tx)
    requires HoldsLease(p, rows) && p.Settling? && p.todo != [] && RepeatsPark(p.todo) && tx == p.todo[0]
    requires rest == Settle(p.since, p.todo[1..])
    ensures HoldsLease(rest, ApplyTx(rows, tx))
  {
    hide HeldRow, Held, RepeatsPark, Ids;
    RestHeld(p, rest);
    UpdateKeepsIds(rows, IdSet(tx.ids), TxChange(tx));
    var u := ApplyTx(rows, tx);
    forall i | 0 <= i < |u| && u[i].event.eventId in Held(rest) ensures HeldRow(rest, u[i]) {
      assert u[i].event == rows[i].event;
      OwnRowAfter(p, rest, rows[i], tx);
    }
  }

  lemma CommitKeepsLeases(env: Env, w: World, s: Step)
    requires Leased(w) && (s.CommitStep? || s.FailedCommitStep?)
    ensures Leased(Next(env, w, s))
  {
    var phase := PhaseOf(w, s.drain);
    if phase.Settling? && phase.todo != [] {
      var tx := phase.todo[0];
      var rest := Settle(phase.since, phase.todo[1..]);
      RestOfTodo(phase.todo);
      SmallerPhase(w, s.drain, rest);
      var v := w.(drains := w.drains[s.drain := rest]);
      UpdateWellFormed(w.table, IdSet(tx.ids), TxChange(tx));
      forall d | d in v.drains ensures HoldsLease(v.drains[d], ApplyTx(w.table.rows, tx)) {
        if d == s.drain {
          CommitKeepsOwn(phase, rest, w.table.rows, tx);
        } else {
          assert Held(w.drains[d]) !! Held(w.drains[s.drain]);
          UpdateElsewhere(v.drains[d], w.table.rows, IdSet(tx.ids), TxChange(tx));
        }
      }
    }
  }

  lemma StepKeepsLeases(env: Env, w: World, s: Step)
    requires Leased(w) && Disciplined(w, s)
    ensures Leased(Next(env, w, s))
  {
    if s.EnqueueStep? || s.EnqueueManyStep? {
      CaptureKeepsLeases(env, w, s);
    } else if s.ReclaimStep? {
      ReclaimKeepsLeases(env, w, s);
    } else if s.PruneStep? {
      PruneKeepsLeases(env, w, s);
    } else if s.CapStep? {
      CapKeepsLeases(env, w, s);
    } else if s.ClaimStep? {
      ClaimKeepsLeases(env, w, s);
    } else if s.ReplyStep? || s.ErrorStep? {
      ReplyKeepsLeases(env, w, s);
    } else if s.CommitStep? || s.FailedCommitStep? {
      CommitKeepsLeases(env, w, s);
    }
  }

  lemma DisciplinedPrefix(env: Env, steps: seq<Step>, k: nat)
    requires DisciplinedRun(env, steps) && k <= |steps|
    ensures DisciplinedRun(env, steps[..k])
  {
    forall j | 0 <= j < k ensures Disciplined(Run(env, Start, steps[..k][..j]), steps[..k][j]) {
      assert steps[..k][..j] == steps[..j];
    }
  }

  lemma {:induction false} RunIsLeased(env: Env, steps: seq<Step>)
    requires DisciplinedRun(env, steps)
    ensures Leased(Run(env, Start, steps))
  {
    if steps != [] {
      var n := |steps| - 1;
      DisciplinedPrefix(env, steps, n);
      RunIsLeased(env, steps[..n]);
      StepKeepsLeases(env, Run(env, Start, steps[..n]), steps[n]);
    }
  }

  ghost predicate LeasedRow(rows: seq<Row>, id: EventId, since: int)
  {
    exists r :: r in rows && r.event.eventId == id && r.status == Inflight && r.inflightAt == since
  }

  ghost predicate ParkedRow(rows: seq<Row>, id: EventId)
  {
    exists r :: r in rows && r.event.eventId == id && r.status == DeadLetter
  }

  /** Lease exclusivity: in every disciplined run no event is in the hands of two drains at once, and
      every event in a drain's hands has its row `inflight` under that drain's own lease, or is parked
      already and will only be parked again. */
  lemma NoEventHeldTwice(env: Env, steps: seq<Step>, d: nat, e: nat, id: EventId)
    requires DisciplinedRun(env, steps)
    requires id in Held(PhaseOf(Run(env, Start, steps), d))
    ensures id in Held(PhaseOf(Run(env, Start, steps), e)) ==> d == e
    ensures
      var w := Run(env, Start, steps);
      var p := PhaseOf(w, d);
      || LeasedRow(w.table.rows, id, Since(p))
      || (ParkedRow(w.table.rows, id) && p.Settling? && OnlyParked(p.todo, id))
  {
    RunIsLeased(env, steps);
    var w := Run(env, Start, steps);
    var r :| r in w.table.rows && r.event.eventId == id;
    var i :| 0 <= i < |w.table.rows| && w.table.rows[i] == r;
  }

  // ---- settled rows are final ----

  /** The row is in `rows` with the same status. */
  ghost predicate KeepsStatus(r: Row, rows: seq<Row>)
  {
    exists i :: 0 <= i < |rows| && rows[i].serial == r.serial && rows[i].event == r.event
      && rows[i].status == r.status
  }

  /** When rows change one by one, a row keeps its status if and only if its own place says so. */
  lemma StatusInPlace(t: Table, u: seq<Row>, i: nat)
    requires WellFormed(t) && i < |t.rows| && |u| == |t.rows|
    requires forall j :: 0 <= j < |u| ==> u[j].serial == t.rows[j].serial && u[j].event == t.rows[j].event
    ensures KeepsStatus(t.rows[i], u) <==> u[i].status == t.rows[i].status
  {
    if u[i].status == t.rows[i].status {
      assert u[i].serial == t.rows[i].serial;
    }
  }

  lemma UpdateStatus(t: Table, ids: set<EventId>, change: Change, i: nat)
    requires WellFormed(t) && i < |t.rows|
    ensures KeepsStatus(t.rows[i], Update(t.rows, ids, change))
       <==> t.rows[i].event.eventId !in ids || ChangeRow(t.rows[i], change).status == t.rows[i].status
  {
    StatusInPlace(t, Update(t.rows, ids, change), i);
  }

  lemma SettledNotTaken(t: Table, taken: seq<Row>, i: nat)
    requires WellFormed(t) && i < |t.rows| && SettledStatus(t.rows[i].status)
    requires forall r :: r in taken ==> r in t.rows && r.status == Pending
    ensures t.rows[i].event.eventId !in IdSet(RowIds(taken))
  {
    forall k | 0 <= k < |taken| ensures RowIds(taken)[k] != t.rows[i].event.eventId {
      assert taken[k] in taken;
      var j :| 0 <= j < |t.rows| && t.rows[j] == taken[k];
      assert j != i;
    }
  }

  /** The step is a commit that names the row with another target status. */
  predicate Overwrites(w: World, s: Step, r: Row)
  {
    && s.CommitStep?
    && var p := PhaseOf(w, s.drain);
       && p.Settling? && p.todo != []
       && r.event.eventId in IdSet(p.todo[0].ids)
       && ChangeRow(r, TxChange(p.todo[0])).status != r.status
  }

  predicate Deletes(w: World, s: Step, r: Row)
  {
    s.PruneStep? && s.retentionDays != 0 && Prunable(r, PruneCutoff(w.now, s.retentionDays))
  }

  lemma PruneStatus(t: Table, cutoff: string, i: nat)
    requires WellFormed(t) && i < |t.rows|
    ensures KeepsStatus(t.rows[i], PruneRows(t.rows, cutoff)) <==> !Prunable(t.rows[i], cutoff)
  {
    var r, kept := t.rows[i], PruneRows(t.rows, cutoff);
    PruneElements(t.rows, cutoff);
    if Prunable(r, cutoff) {
      forall k | 0 <= k < |kept| ensures kept[k].serial != r.serial {
        assert kept[k] in kept;
        var j :| 0 <= j < |t.rows| && t.rows[j] == kept[k];
      }
    } else {
      assert r in kept;
      var k :| 0 <= k < |kept| && kept[k] == r;
    }
  }

  lemma UpkeepSettled(env: Env, w: World, s: Step, i: nat)
    requires WellFormed(w.table) && i < |w.table.rows| && SettledStatus(w.table.rows[i].status)
    requires s.ReclaimStep? || s.PruneStep? || s.CapStep?
    ensures KeepsStatus(w.table.rows[i], Next(env, w, s).table.rows) <==> !Deletes(w, s, w.table.rows[i])
  {
    hide KeepsStatus, WellFormed, CapRows, Update, PruneRows;
    match s
    case ReclaimStep(older) => StatusInPlace(w.table, ReclaimRows(w.table.rows, ReclaimCutoff(w.now, older)), i);
    case PruneStep(days) =>
      PruneStatus(w.table, PruneCutoff(w.now, days), i);
      StatusInPlace(w.table, w.table.rows, i);
    case CapStep(maxPending) =>
      var taken := OldestPending(w.table, maxPending);
      SettledNotTaken(w.table, taken, i);
      UpdateStatus(w.table, IdSet(RowIds(taken)), Parked, i);
  }

  lemma CaptureSettled(env: Env, w: World, s: Step, i: nat)
    requires WellFormed(w.table) && i < |w.table.rows| && (s.EnqueueStep? || s.EnqueueManyStep?)
    ensures KeepsStatus(w.table.rows[i], Next(env, w, s).table.rows)
  {
    if s.EnqueueStep? {
      InsertWellFormed(w.table, s.event, w.now);
      assert InsertEvent(w.table, s.event, w.now).rows[i] == w.table.rows[i];
    } else {
      InsertAllWellFormed(w.table, s.events, w.now);
      assert InsertAll(w.table, s.events, w.now).rows[i] == w.table.rows[i];
    }
  }

  lemma ClaimSettled(env: Env, w: World, s: Step, i: nat)
    requires WellFormed(w.table) && i < |w.table.rows| && SettledStatus(w.table.rows[i].status) && s.ClaimStep?
    ensures KeepsStatus(w.table.rows[i], Next(env, w, s).table.rows)
  {
    OldestDue(w.table, w.now, s.limit);
    var taken := Oldest(DueRows(w.table.rows, w.now), s.limit);
    SettledNotTaken(w.table, taken, i);
    UpdateStatus(w.table, IdSet(RowIds(taken)), ToInflight(w.now), i);
    StatusInPlace(w.table, w.table.rows, i);
  }

  /** In any state whatever, a step changes the status of a settled row if and only if it is a commit that
      names the row with another target, and deletes the row if and only if it prunes it. */
  lemma SettledUnlessOverwritten(env: Env, w: World, s: Step, i: nat)
    requires WellFormed(w.table) && i < |w.table.rows| && SettledStatus(w.table.rows[i].status)
    ensures KeepsStatus(w.table.rows[i], Next(env, w, s).table.rows)
       <==> !Overwrites(w, s, w.table.rows[i]) && !Deletes(w, s, w.table.rows[i])
  {
    StatusInPlace(w.table, w.table.rows, i);
    if s.EnqueueStep? || s.EnqueueManyStep? {
      CaptureSettled(env, w, s, i);
    } else if s.ReclaimStep? || s.PruneStep? || s.CapStep? {
      UpkeepSettled(env, w, s, i);
    } else if s.ClaimStep? {
      ClaimSettled(env, w, s, i);
    } else if s.CommitStep? {
      var p := PhaseOf(w, s.drain);
      if p.Settling? && p.todo != [] {
        UpdateStatus(w.table, IdSet(p.todo[0].ids), TxChange(p.todo[0]), i);
      }
    }
  }

  /** A drain that holds its lease overwrites no settled row. */
  lemma LeasedNeverOverwrites(w: World, s: Step, i: nat)
    requires Leased(w) && i < |w.table.rows| && SettledStatus(w.table.rows[i].status)
    ensures !Overwrites(w, s, w.table.rows[i])
  {
    if s.CommitStep? && PhaseOf(w, s.drain).Settling? && PhaseOf(w, s.drain).todo != [] {
      var p, r := PhaseOf(w, s.drain), w.table.rows[i];
      RestOfTodo(p.todo);
      if r.event.eventId in IdSet(p.todo[0].ids) {
        assert HeldRow(p, r);
      }
    }
  }

  /** One disciplined step never changes the status of a settled row; the only thing that can happen
      to it is that pruning deletes it once acknowledged. */
  lemma SettledIsAbsorbing(env: Env, w: World, s: Step, i: nat)
    requires Leased(w) && i < |w.table.rows| && SettledStatus(w.table.rows[i].status)
    ensures KeepsStatus(w.table.rows[i], Next(env, w, s).table.rows)
         || (w.table.rows[i].status == Acked && s.PruneStep?)
  {
    SettledUnlessOverwritten(env, w, s, i);
    LeasedNeverOverwrites(w, s, i);
  }

  // ---- over whole runs ----

  ghost predicate Gone(serial: nat, t: Table)
  {
    serial < t.nextSerial && forall r :: r in t.rows ==> r.serial != serial
  }

  /** The row keeps its status, or it was acknowledged and pruned for good. */
  ghost predicate SettledForGood(r: Row, t: Table)
  {
    KeepsStatus(r, t.rows) || (r.status == Acked && Gone(r.serial, t))
  }

  lemma PointwiseKeepsGone(t: Table, rows: seq<Row>, serial: nat)
    requires Gone(serial, t)
    requires |rows| == |t.rows| && forall i :: 0 <= i < |rows| ==> rows[i].serial == t.rows[i].serial
    ensures Gone(serial, t.(rows := rows))
  {
    forall r | r in rows ensures r.serial != serial {
      var i :| 0 <= i < |rows| && rows[i] == r;
      assert t.rows[i] in t.rows;
    }
  }

  lemma UpdateKeepsGone(t: Table, ids: set<EventId>, change: Change, serial: nat)
    requires Gone(serial, t)
    ensures Gone(serial, t.(rows := Update(t.rows, ids, change)))
  {
    PointwiseKeepsGone(t, Update(t.rows, ids, change), serial);
  }

  lemma {:induction false} InsertAllKeepsGone(t: Table, es: seq<Event>, now: int, serial: nat)
    requires Gone(serial, t)
    ensures Gone(serial, InsertAll(t, es, now))
  {
    if es != [] {
      InsertAllKeepsGone(t, es[..|es| - 1], now, serial);
    }
  }

  lemma PruneKeepsGone(t: Table, cutoff: string, serial: nat)
    requires Gone(serial, t)
    ensures Gone(serial, t.(rows := PruneRows(t.rows, cutoff)))
  {
    PruneElements(t.rows, cutoff);
  }

  lemma UpkeepKeepsGone(env: Env, w: World, s: Step, serial: nat)
    requires Gone(serial, w.table) && (s.ReclaimStep? || s.PruneStep? || s.CapStep?)
    ensures Gone(serial, Next(env, w, s).table)
  {
    hide Gone, Update, CapRows;
    match s
    case ReclaimStep(older) =>
      PointwiseKeepsGone(w.table, ReclaimRows(w.table.rows, ReclaimCutoff(w.now, older)), serial);
    case PruneStep(days) => PruneKeepsGone(w.table, PruneCutoff(w.now, days), serial);
    case CapStep(maxPending) =>
      var ids := CapIds(w.table.rows, maxPending);
      UpdateKeepsGone(w.table, ids, Parked, serial);
  }

  /** A serial that has left the table never comes back. */
  lemma StepKeepsGone(env: Env, w: World, s: Step, serial: nat)
    requires Gone(serial, w.table)
    ensures Gone(serial, Next(env, w, s).table)
  {
    if s.EnqueueManyStep? {
      InsertAllKeepsGone(w.table, s.events, w.now, serial);
    } else if s.ReclaimStep? || s.PruneStep? || s.CapStep? {
      UpkeepKeepsGone(env, w, s, serial);
    } else if s.ClaimStep? {
      UpdateKeepsGone(w.table, IdSet(RowIds(Oldest(DueRows(w.table.rows, w.now), s.limit))), ToInflight(w.now), serial);
    } else if s.CommitStep? {
      var phase := PhaseOf(w, s.drain);
      if phase.Settling? && phase.todo != [] {
        UpdateKeepsGone(w.table, IdSet(phase.todo[0].ids), TxChange(phase.todo[0]), serial);
      }
    }
  }

  lemma PrunedRows(t: Table, cutoff: string, i: nat)
    requires WellFormed(t) && i < |t.rows|
    ensures KeepsStatus(t.rows[i], PruneRows(t.rows, cutoff))
         || Gone(t.rows[i].serial, t.(rows := PruneRows(t.rows, cutoff)))
  {
    var r, kept := t.rows[i], PruneRows(t.rows, cutoff);
    PruneElements(t.rows, cutoff);
    if r in kept {
      var j :| 0 <= j < |kept| && kept[j] == r;
    } else {
      forall q | q in kept ensures q.serial != r.serial {
        var j :| 0 <= j < |t.rows| && t.rows[j] == q;
      }
    }
  }

  lemma PrunedIsGone(env: Env, w: World, s: Step, i: nat)
    requires WellFormed(w.table) && s.PruneStep? && i < |w.table.rows|
    ensures KeepsStatus(w.table.rows[i], Next(env, w, s).table.rows)
         || Gone(w.table.rows[i].serial, Next(env, w, s).table)
  {
    StatusInPlace(w.table, w.table.rows, i);
    hide PruneRows, KeepsStatus, Gone, WellFormed;
    PrunedRows(w.table, PruneCutoff(w.now, s.retentionDays), i);
  }

  lemma StepKeepsSettled(env: Env, w: World, s: Step, r: Row)
    requires Leased(w) && Disciplined(w, s) && SettledStatus(r.status) && SettledForGood(r, w.table)
    ensures SettledForGood(r, Next(env, w, s).table)
  {
    if KeepsStatus(r, w.table.rows) {
      var i :| 0 <= i < |w.table.rows| && w.table.rows[i].serial == r.serial && w.table.rows[i].event == r.event
        && w.table.rows[i].status == r.status;
      SettledIsAbsorbing(env, w, s, i);
      if s.PruneStep? {
        PrunedIsGone(env, w, s, i);
      }
    } else {
      StepKeepsGone(env, w, s, r.serial);
    }
  }

  lemma SettledNow(t: Table, i: nat)
    requires i < |t.rows|
    ensures SettledForGood(t.rows[i], t)
  {
    assert KeepsStatus(t.rows[i], t.rows);
  }

  lemma {:induction false} SettledLater(env: Env, steps: seq<Step>, k: nat, r: Row)
    requires DisciplinedRun(env, steps) && k <= |steps| && SettledStatus(r.status)
    requires SettledForGood(r, Run(env, Start, steps[..k]).table)
    ensures SettledForGood(r, Run(env, Start, steps).table)
    decreases |steps|
  {
    hide Next, SettledForGood, Leased;
    if k == |steps| {
      assert steps[..k] == steps;
    } else {
      var n := |steps| - 1;
      DisciplinedPrefix(env, steps, n);
      TakeTwice(steps, k, n);
      SettledLater(env, steps[..n], k, r);
      RunIsLeased(env, steps[..n]);
      StepKeepsSettled(env, Run(env, Start, steps[..n]), steps[n], r);
    }
  }

  lemma TakeTwice<T>(s: seq<T>, k: nat, n: nat)
    requires k <= n <= |s|
    ensures s[..n][..k] == s[..k]
  {
  }

  /** In every disciplined run a row that is `dead_letter` at some moment is `dead_letter` at every
      later one, and a row that is `acked` stays `acked` until it is pruned, never to return. */
  lemma SettledStaysSettled(env: Env, steps: seq<Step>, k: nat, i: nat)
    requires DisciplinedRun(env, steps) && k <= |steps|
    requires i < |Run(env, Start, steps[..k]).table.rows|
    requires SettledStatus(Run(env, Start, steps[..k]).table.rows[i].status)
    ensures SettledForGood(Run(env, Start, steps[..k]).table.rows[i], Run(env, Start, steps).table)
  {
    var t := Run(env, Start, steps[..k]).table;
    SettledNow(t, i);
    SettledLater(env, steps, k, t.rows[i]);
  }
}
