/** No silent loss: in every interleaving an event id, once committed, is a spool row or is held by
    the gateway. */
module ProtocolSafety {
  import opened Spool
  import opened Drain
  import opened Protocol

  ghost predicate AckedAreHeld(rows: seq<Row>, gateway: set<EventId>)
  {
    forall i :: 0 <= i < |rows| && rows[i].status == Acked ==> rows[i].event.eventId in gateway
  }

  ghost predicate AcksAreHeld(todo: seq<Tx>, gateway: set<EventId>)
  {
    forall k :: 0 <= k < |todo| && todo[k].AckTx? ==> IdSet(todo[k].ids) <= gateway
  }

  ghost predicate Safe(w: World)
  {
    && WellFormed(w.table)
    && Ids(w.table.rows) <= w.committed
    && w.committed <= Ids(w.table.rows) + w.gateway
    && AckedAreHeld(w.table.rows, w.gateway)
    && (forall d :: d in w.drains && w.drains[d].Settling? ==> AcksAreHeld(w.drains[d].todo, w.gateway))
  }

  // ---- the effect of each kind of transaction ----

  lemma InsertKeepsHeld(t: Table, e: Event, now: int, gateway: set<EventId>)
    requires AckedAreHeld(t.rows, gateway)
    ensures AckedAreHeld(InsertEvent(t, e, now).rows, gateway)
  {
  }

  lemma {:induction false} InsertAllKeepsHeld(t: Table, es: seq<Event>, now: int, gateway: set<EventId>)
    requires AckedAreHeld(t.rows, gateway)
    ensures AckedAreHeld(InsertAll(t, es, now).rows, gateway)
  {
    if es != [] {
      InsertAllKeepsHeld(t, es[..|es| - 1], now, gateway);
      InsertKeepsHeld(InsertAll(t, es[..|es| - 1], now), es[|es| - 1], now, gateway);
    }
  }

  lemma UpdateKeepsHeld(rows: seq<Row>, ids: set<EventId>, change: Change, gateway: set<EventId>)
    requires AckedAreHeld(rows, gateway)
    requires change.ToAcked? ==> ids <= gateway
    ensures AckedAreHeld(Update(rows, ids, change), gateway)
  {
  }

  lemma PruneKeepsHeld(t: Table, cutoff: string, gateway: set<EventId>)
    requires WellFormed(t) && AckedAreHeld(t.rows, gateway)
    ensures AckedAreHeld(PruneRows(t.rows, cutoff), gateway)
    ensures Ids(PruneRows(t.rows, cutoff)) <= Ids(t.rows) <= Ids(PruneRows(t.rows, cutoff)) + gateway
  {
    PruneElements(t.rows, cutoff);
    var kept := PruneRows(t.rows, cutoff);
    forall i | 0 <= i < |kept| && kept[i].status == Acked ensures kept[i].event.eventId in gateway {
      assert kept[i] in kept;
      assert kept[i] in t.rows;
    }
    forall id | id in Ids(t.rows) ensures id in Ids(kept) + gateway {
      var r :| r in t.rows && r.event.eventId == id;
      if r in kept {
      } else {
        assert r.status == Acked;
      }
    }
  }

  lemma ReclaimKeepsIds(rows: seq<Row>, cutoff: int)
    ensures Ids(ReclaimRows(rows, cutoff)) == Ids(rows)
  {
    var u := ReclaimRows(rows, cutoff);
    forall id ensures id in Ids(u) <==> id in Ids(rows) {
      if id in Ids(rows) {
        var r :| r in rows && r.event.eventId == id;
        var i :| 0 <= i < |rows| && rows[i] == r;
        assert u[i] in u && u[i].event.eventId == id;
      }
      if id in Ids(u) {
        var r :| r in u && r.event.eventId == id;
        var i :| 0 <= i < |u| && u[i] == r;
        assert rows[i] in rows && rows[i].event.eventId == id;
      }
    }
  }

  lemma ReclaimKeepsHeld(rows: seq<Row>, cutoff: int, gateway: set<EventId>)
    requires AckedAreHeld(rows, gateway)
    ensures AckedAreHeld(ReclaimRows(rows, cutoff), gateway)
  {
  }

  lemma {:induction false} RejectedTxsNeverAck(env: Env, batch: seq<Claim>, rejected: seq<Rejected>, now: int)
    ensures forall k :: 0 <= k < |RejectedTxs(env, batch, rejected, now)| ==>
      !RejectedTxs(env, batch, rejected, now)[k].AckTx?
  {
    if rejected != [] {
      RejectedTxsNeverAck(env, batch, rejected[..|rejected| - 1], now);
    }
  }

  lemma OutcomeAcksHeld(env: Env, batch: seq<Claim>, a: Answer, now: int, gateway: set<EventId>)
    requires IdSet(AckedIds(a)) <= gateway
    ensures AcksAreHeld(OutcomeTxs(env, batch, a, now), gateway)
  {
    RejectedTxsNeverAck(env, batch, a.rejected, now);
  }

  // ---- one step, and every run ----

  lemma TableStepKeepsSafe(env: Env, w: World, s: Step)
    requires Safe(w)
    requires s.EnqueueStep? || s.EnqueueManyStep? || s.ReclaimStep? || s.PruneStep? || s.CapStep?
    ensures Safe(Next(env, w, s))
  {
    var t := w.table;
    match s
    case EnqueueStep(e) =>
      InsertWellFormed(t, e, w.now);
      InsertKeepsHeld(t, e, w.now, w.gateway);
    case EnqueueManyStep(es) =>
      InsertAllWellFormed(t, es, w.now);
      InsertAllKeepsHeld(t, es, w.now, w.gateway);
    case ReclaimStep(older) =>
      ReclaimWellFormed(t, ReclaimCutoff(w.now, older));
      ReclaimKeepsHeld(t.rows, ReclaimCutoff(w.now, older), w.gateway);
      ReclaimKeepsIds(t.rows, ReclaimCutoff(w.now, older));
    case PruneStep(days) =>
      if days != 0 {
        PruneWellFormed(t, PruneCutoff(w.now, days));
        PruneKeepsHeld(t, PruneCutoff(w.now, days), w.gateway);
      }
    case CapStep(maxPending) =>
      var ids := CapIds(t.rows, maxPending);
      UpdateWellFormed(t, ids, Parked);
      UpdateKeepsIds(t.rows, ids, Parked);
      UpdateKeepsHeld(t.rows, ids, Parked, w.gateway);
  }

  lemma CapIds(rows: seq<Row>, maxPending: nat) returns (ids: set<EventId>)
    ensures CapRows(rows, maxPending) == Update(rows, ids, Parked)
  {
    var pending := PendingRows(rows);
    if maxPending == 0 || |pending| <= maxPending {
      ids := {};
      UpdateNone(rows, Parked);
    } else {
      ids := IdSet(RowIds(Oldest(pending, |pending| - maxPending)));
    }
  }

  lemma ClaimKeepsSafe(env: Env, w: World, s: Step)
    requires Safe(w) && s.ClaimStep?
    ensures Safe(Next(env, w, s))
  {
    var ids := IdSet(RowIds(Oldest(DueRows(w.table.rows, w.now), s.limit)));
    UpdateWellFormed(w.table, ids, ToInflight(w.now));
    UpdateKeepsIds(w.table.rows, ids, ToInflight(w.now));
    UpdateKeepsHeld(w.table.rows, ids, ToInflight(w.now), w.gateway);
  }

  lemma CommitKeepsSafe(env: Env, w: World, s: Step)
    requires Safe(w) && (s.CommitStep? || s.FailedCommitStep?)
    ensures Safe(Next(env, w, s))
  {
    var phase := PhaseOf(w, s.drain);
    if phase.Settling? && phase.todo != [] {
      var tx := phase.todo[0];
      UpdateWellFormed(w.table, IdSet(tx.ids), TxChange(tx));
      UpdateKeepsIds(w.table.rows, IdSet(tx.ids), TxChange(tx));
      UpdateKeepsHeld(w.table.rows, IdSet(tx.ids), TxChange(tx), w.gateway);
    }
  }

  lemma ReplyKeepsSafe(env: Env, w: World, s: Step)
    requires Safe(w) && (s.ReplyStep? || s.ErrorStep?)
    ensures Safe(Next(env, w, s))
  {
    var phase := PhaseOf(w, s.drain);
    if phase.Posting? && s.ReplyStep? && Truthful(w, s.answer) {
      OutcomeAcksHeld(env, phase.batch, s.answer, s.at, w.gateway);
    }
  }

  lemma StepKeepsSafe(env: Env, w: World, s: Step)
    requires Safe(w)
    ensures Safe(Next(env, w, s))
  {
    if s.ClaimStep? {
      ClaimKeepsSafe(env, w, s);
    } else if s.CommitStep? || s.FailedCommitStep? {
      CommitKeepsSafe(env, w, s);
    } else if s.ReplyStep? || s.ErrorStep? {
      ReplyKeepsSafe(env, w, s);
    } else if s.EnqueueStep? || s.EnqueueManyStep? || s.ReclaimStep? || s.PruneStep? || s.CapStep? {
      TableStepKeepsSafe(env, w, s);
    }
  }

  lemma {:induction false} RunIsSafe(env: Env, steps: seq<Step>)
    ensures Safe(Run(env, Start, steps))
  {
    if steps != [] {
      RunIsSafe(env, steps[..|steps| - 1]);
      StepKeepsSafe(env, Run(env, Start, steps[..|steps| - 1]), steps[|steps| - 1]);
    }
  }

  /** The ids a step inserts into the spool. */
  function Captured(s: Step): set<EventId>
  {
    match s
    case EnqueueStep(e) => {e.eventId}
    case EnqueueManyStep(es) => EventIds(es)
    case _ => {}
  }

  lemma CommittedGrows(env: Env, w: World, s: Step)
    ensures Next(env, w, s).committed == w.committed + Captured(s)
    ensures w.gateway <= Next(env, w, s).gateway
  {
  }

  lemma {:induction false} CapturedIsCommitted(env: Env, steps: seq<Step>, k: nat)
    requires k < |steps|
    ensures Captured(steps[k]) <= Run(env, Start, steps).committed
  {
    hide Next, Captured;
    var n := |steps| - 1;
    CommittedGrows(env, Run(env, Start, steps[..n]), steps[n]);
    if k < n {
      CapturedIsCommitted(env, steps[..n], k);
    }
  }

  /** No silent loss: whatever hooks, watchers, drains, lost answers and crashes did in between, every
      id any step captured is at the end a spool row or held by the gateway, and every row marked
      `acked` is held by the gateway. */
  lemma NoSilentLoss(env: Env, steps: seq<Step>, k: nat)
    requires k < |steps|
    ensures
      var w := Run(env, Start, steps);
      && Captured(steps[k]) <= Ids(w.table.rows) + w.gateway
      && (forall i :: 0 <= i < |w.table.rows| && w.table.rows[i].status == Acked ==>
            w.table.rows[i].event.eventId in w.gateway)
  {
    RunIsSafe(env, steps);
    CapturedIsCommitted(env, steps, k);
  }

  // ---- only acknowledged rows are ever deleted ----

  /** The row is still there, with its event and its timestamp. */
  ghost predicate Survives(r: Row, rows: seq<Row>)
  {
    exists i :: 0 <= i < |rows| && rows[i].serial == r.serial && rows[i].event == r.event
      && rows[i].createdAt == r.createdAt
  }

  lemma UpdateSurvives(rows: seq<Row>, ids: set<EventId>, change: Change, i: nat)
    requires i < |rows|
    ensures Survives(rows[i], Update(rows, ids, change))
  {
    var u := Update(rows, ids, change);
    assert u[i].serial == rows[i].serial && u[i].event == rows[i].event && u[i].createdAt == rows[i].createdAt;
  }

  lemma PrefixSurvives(rows: seq<Row>, longer: seq<Row>, i: nat)
    requires rows <= longer && i < |rows|
    ensures Survives(rows[i], longer)
  {
    assert longer[i] == rows[i];
  }

  lemma ReclaimSurvives(rows: seq<Row>, cutoff: int, i: nat)
    requires i < |rows|
    ensures Survives(rows[i], ReclaimRows(rows, cutoff))
  {
    var u := ReclaimRows(rows, cutoff);
    assert u[i].serial == rows[i].serial && u[i].event == rows[i].event && u[i].createdAt == rows[i].createdAt;
  }

  /** A row disappears only in a pruning step, and only once it is acknowledged. */
  lemma OnlyAckedDeleted(env: Env, w: World, s: Step, i: nat)
    requires WellFormed(w.table) && i < |w.table.rows|
    ensures Survives(w.table.rows[i], Next(env, w, s).table.rows)
         || (s.PruneStep? && w.table.rows[i].status == Acked)
  {
    var rows := w.table.rows;
    if s.EnqueueStep? {
      InsertWellFormed(w.table, s.event, w.now);
      PrefixSurvives(rows, InsertEvent(w.table, s.event, w.now).rows, i);
    } else if s.EnqueueManyStep? {
      InsertAllWellFormed(w.table, s.events, w.now);
      PrefixSurvives(rows, InsertAll(w.table, s.events, w.now).rows, i);
    } else if s.ReclaimStep? {
      ReclaimSurvives(rows, ReclaimCutoff(w.now, s.olderThanSeconds), i);
    } else if s.PruneStep? {
      PruneSurvives(w, s, i);
    } else if s.CapStep? {
      var ids := CapIds(rows, s.maxPending);
      UpdateSurvives(rows, ids, Parked, i);
    } else {
      DrainStepSurvives(env, w, s, i);
    }
  }

  lemma PruneSurvives(w: World, s: Step, i: nat)
    requires s.PruneStep? && i < |w.table.rows|
    ensures w.table.rows[i].status == Acked || s.retentionDays == 0
         || Survives(w.table.rows[i], PruneRows(w.table.rows, PruneCutoff(w.now, s.retentionDays)))
    ensures Survives(w.table.rows[i], w.table.rows)
  {
    var cutoff := PruneCutoff(w.now, s.retentionDays);
    PruneElements(w.table.rows, cutoff);
    if w.table.rows[i].status != Acked {
      var kept := PruneRows(w.table.rows, cutoff);
      assert w.table.rows[i] in kept;
      var j :| 0 <= j < |kept| && kept[j] == w.table.rows[i];
    }
  }

  lemma DrainStepSurvives(env: Env, w: World, s: Step, i: nat)
    requires i < |w.table.rows|
    requires !s.EnqueueStep? && !s.EnqueueManyStep? && !s.ReclaimStep? && !s.PruneStep? && !s.CapStep?
    ensures Survives(w.table.rows[i], Next(env, w, s).table.rows)
  {
    var rows := w.table.rows;
    assert Survives(rows[i], rows);
    if s.ClaimStep? {
      UpdateSurvives(rows, IdSet(RowIds(Oldest(DueRows(rows, w.now), s.limit))), ToInflight(w.now), i);
    } else if s.CommitStep? {
      var phase := PhaseOf(w, s.drain);
      if phase.Settling? && phase.todo != [] {
        UpdateSurvives(rows, IdSet(phase.todo[0].ids), TxChange(phase.todo[0]), i);
      }
    }
  }
}
