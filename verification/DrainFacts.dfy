/** What one settled batch does to a row. */
module DrainFacts {
  import opened Backoff
  import opened Spool
  import opened Drain

  /** The row after the listed transactions: each one that names it changes it. */
  function RowAfter(r: Row, txs: seq<Tx>): Row
  {
    if txs == [] then r
    else
      var p := RowAfter(r, txs[..|txs| - 1]);
      var last := txs[|txs| - 1];
      if r.event.eventId in IdSet(last.ids) then ChangeRow(p, TxChange(last)) else p
  }

  lemma {:induction false} RowAfterKeepsEvent(r: Row, txs: seq<Tx>)
    ensures RowAfter(r, txs).event == r.event && RowAfter(r, txs).serial == r.serial
  {
    if txs != [] {
      RowAfterKeepsEvent(r, txs[..|txs| - 1]);
    }
  }

  /** The table after a list of transactions, row by row. */
  lemma {:induction false} RowsAfter(rows: seq<Row>, txs: seq<Tx>, i: nat)
    requires i < |rows|
    ensures |ApplyTxs(rows, txs)| == |rows| && ApplyTxs(rows, txs)[i] == RowAfter(rows[i], txs)
  {
    if txs != [] {
      RowsAfter(rows, txs[..|txs| - 1], i);
      RowAfterKeepsEvent(rows[i], txs[..|txs| - 1]);
    }
  }

  lemma RowAfterPush(r: Row, txs: seq<Tx>, tx: Tx)
    ensures RowAfter(r, txs + [tx])
         == if r.event.eventId in IdSet(tx.ids) then ChangeRow(RowAfter(r, txs), TxChange(tx)) else RowAfter(r, txs)
  {
    assert (txs + [tx])[..|txs|] == txs;
  }

  predicate Touches(txs: seq<Tx>, id: EventId)
  {
    exists k :: 0 <= k < |txs| && id in IdSet(txs[k].ids)
  }

  lemma TouchesPush(txs: seq<Tx>, tx: Tx, id: EventId)
    ensures Touches(txs + [tx], id) <==> Touches(txs, id) || id in IdSet(tx.ids)
  {
    if Touches(txs, id) {
      var k :| 0 <= k < |txs| && id in IdSet(txs[k].ids);
      assert (txs + [tx])[k] == txs[k];
    }
    if id in IdSet(tx.ids) {
      assert (txs + [tx])[|txs|] == tx;
    }
  }

  /** A row leaves `inflight` as soon as one transaction names it, and none returns it there. */
  lemma {:induction false} InflightUnlessTouched(r: Row, txs: seq<Tx>)
    ensures RowAfter(r, txs).status == Inflight <==> r.status == Inflight && !Touches(txs, r.event.eventId)
  {
    if txs != [] {
      var front, last := txs[..|txs| - 1], txs[|txs| - 1];
      InflightUnlessTouched(r, front);
      TouchesPush(front, last, r.event.eventId);
      assert txs == front + [last];
    }
  }

  lemma {:induction false} RejectedTouches(env: Env, batch: seq<Claim>, rejected: seq<Rejected>, now: int, id: EventId)
    ensures Touches(RejectedTxs(env, batch, rejected, now), id) <==> id != "" && id in RejectedIds(rejected)
  {
    if rejected != [] {
      var front, last := rejected[..|rejected| - 1], rejected[|rejected| - 1];
      RejectedTouches(env, batch, front, now, id);
      RejectedIdsPush(front, last);
      assert rejected == front + [last];
      if last.eventId != "" {
        TouchesPush(RejectedTxs(env, batch, front, now), RejectedTx(env, batch, last, now), id);
        SingletonIds(last.eventId);
      }
    }
  }

  lemma SingletonIds(id: EventId)
    ensures IdSet([id]) == {id}
  {
  }

  lemma RejectedIdsPush(front: seq<Rejected>, last: Rejected)
    ensures RejectedIds(front + [last]) == RejectedIds(front) + {last.eventId}
  {
    var all := front + [last];
    forall id ensures id in RejectedIds(all) <==> id in RejectedIds(front) || id == last.eventId {
      if id in RejectedIds(front) {
        var r :| r in front && r.eventId == id;
        assert r in all;
      }
      if id == last.eventId { assert last in all; }
    }
  }

  lemma {:induction false} UnaccountedIds(batch: seq<Claim>, mentioned: set<EventId>, id: EventId)
    ensures id in Unaccounted(batch, mentioned) <==> id in BatchIds(batch) && id !in mentioned
  {
    if batch != [] {
      UnaccountedIds(batch[..|batch| - 1], mentioned, id);
      assert BatchIds(batch) == BatchIds(batch[..|batch| - 1]) + [batch[|batch| - 1].event.eventId];
    }
  }

  lemma TouchesConcat(a: seq<Tx>, b: seq<Tx>, id: EventId)
    ensures Touches(a + b, id) <==> Touches(a, id) || Touches(b, id)
  {
    if Touches(a, id) {
      var k :| 0 <= k < |a| && id in IdSet(a[k].ids);
      assert (a + b)[k] == a[k];
    }
    if Touches(b, id) {
      var k :| 0 <= k < |b| && id in IdSet(b[k].ids);
      assert (a + b)[|a| + k] == b[k];
    }
  }

  /** Which ids an answer makes the drain write. */
  lemma OutcomeTouches(env: Env, batch: seq<Claim>, a: Answer, now: int, id: EventId)
    ensures Touches(OutcomeTxs(env, batch, a, now), id)
       <==> || id in AckedIds(a)
            || (id != "" && id in RejectedIds(a.rejected))
            || (id in BatchIds(batch) && id !in Mentioned(a))
  {
    RejectedTouches(env, batch, a.rejected, now, id);
    UnaccountedIds(batch, Mentioned(a), id);
    var ack, middle, left := [AckTx(AckedIds(a))], RejectedTxs(env, batch, a.rejected, now), LeftoverTxs(env, batch, a, now);
    TouchesConcat(ack, middle, id);
    TouchesConcat(ack + middle, left, id);
    assert Touches(ack, id) <==> id in AckedIds(a) by {
      assert ack[0].ids == AckedIds(a);
    }
    assert Touches(left, id) <==> id in Unaccounted(batch, Mentioned(a)) by {
      if left != [] { assert left[0].ids == Unaccounted(batch, Mentioned(a)); }
    }
  }

  // ---- batches close ----

  /** Whatever the gateway answers, no row of the batch stays `inflight`, except one with an empty
      event id when the answer refuses the batch as a whole and does not acknowledge that row.
      Captured events have ids of at least eight characters. */
  lemma AnswerClosesBatch(env: Env, batch: seq<Claim>, a: Answer, now: int, r: Row)
    requires r.event.eventId in BatchIds(batch) && r.status == Inflight
    ensures RowAfter(r, OutcomeTxs(env, batch, a, now)).status == Inflight
       <==> r.event.eventId == "" && "" in RejectedIds(a.rejected) && "" !in AckedIds(a)
  {
    InflightUnlessTouched(r, OutcomeTxs(env, batch, a, now));
    OutcomeTouches(env, batch, a, now, r.event.eventId);
  }

  lemma {:induction false} RetryOrPark(env: Env, error: TransportError, batch: seq<Claim>, id: EventId)
    ensures id in BatchIds(batch) <==> id in RetryIds(env, error, batch) || id in ParkIds(env, error, batch)
  {
    if batch != [] {
      RetryOrPark(env, error, batch[..|batch| - 1], id);
      assert BatchIds(batch) == BatchIds(batch[..|batch| - 1]) + [batch[|batch| - 1].event.eventId];
    }
  }

  lemma ErrorTouches(env: Env, batch: seq<Claim>, error: TransportError, now: int, id: EventId)
    ensures Touches(ErrorTxs(env, batch, error, now), id) <==> id in BatchIds(batch)
  {
    RetryOrPark(env, error, batch, id);
    var retry, park := RetryIds(env, error, batch), ParkIds(env, error, batch);
    var a, b := RetryTxs(env, retry, error.message, now), ParkTxs(park, error.message);
    TouchesConcat(a, b, id);
    assert Touches(a, id) <==> id in retry by {
      if a != [] { assert a[0].ids == retry; }
    }
    assert Touches(b, id) <==> id in park by {
      if b != [] { assert b[0].ids == park; }
    }
  }

  /** A transport error closes its batch without exception. */
  lemma ErrorClosesBatch(env: Env, batch: seq<Claim>, error: TransportError, now: int, r: Row)
    requires r.event.eventId in BatchIds(batch)
    ensures RowAfter(r, ErrorTxs(env, batch, error, now)).status != Inflight
  {
    InflightUnlessTouched(r, ErrorTxs(env, batch, error, now));
    ErrorTouches(env, batch, error, now, r.event.eventId);
  }

  // ---- settled rows stay settled ----

  predicate SettledStatus(s: Status)
  {
    s == Acked || s == DeadLetter
  }

  /** No transaction of the list moves the row out of `acked` or `dead_letter`. */
  ghost predicate KeepsSettled(r: Row, txs: seq<Tx>)
  {
    txs == [] ||
    (var front := txs[..|txs| - 1];
     && KeepsSettled(r, front)
     && (SettledStatus(RowAfter(r, front).status) ==> RowAfter(r, txs).status == RowAfter(r, front).status))
  }

  predicate RefusedForGood(r: Rejected, id: EventId)
  {
    r.eventId == id && IsPermanentRejection(r.code)
  }

  /** The answer does not contradict itself about `id`: acknowledged ids are not also refused,
      and a permanent refusal is not followed by a temporary one. */
  ghost predicate ConsistentAbout(acked: seq<EventId>, rejected: seq<Rejected>, id: EventId)
  {
    id == "" ||
    ((id in acked ==> id !in RejectedIds(rejected))
     && forall i, j :: 0 <= i < j < |rejected| && RefusedForGood(rejected[i], id) && rejected[j].eventId == id ==>
          IsPermanentRejection(rejected[j].code))
  }

  /** The status an id has after the acknowledgement and the refusals, when they are consistent. */
  function SettledAs(acked: seq<EventId>, rejected: seq<Rejected>, id: EventId): Status
  {
    if rejected == [] then (if id in acked then Acked else Inflight)
    else
      var last := rejected[|rejected| - 1];
      if last.eventId == id && id != "" then (if IsPermanentRejection(last.code) then DeadLetter else Pending)
      else SettledAs(acked, rejected[..|rejected| - 1], id)
  }

  lemma KeepsSettledPush(r: Row, txs: seq<Tx>, tx: Tx)
    ensures KeepsSettled(r, txs + [tx])
       <==> KeepsSettled(r, txs)
            && (r.event.eventId in IdSet(tx.ids) && SettledStatus(RowAfter(r, txs).status) ==>
                  ChangeRow(RowAfter(r, txs), TxChange(tx)).status == RowAfter(r, txs).status)
  {
    assert (txs + [tx])[..|txs|] == txs;
    RowAfterPush(r, txs, tx);
  }

  lemma {:induction false} SettledAsMeaning(acked: seq<EventId>, rejected: seq<Rejected>, id: EventId)
    requires id != ""
    ensures SettledAs(acked, rejected, id) == Inflight ==> id !in acked && id !in RejectedIds(rejected)
    ensures SettledAs(acked, rejected, id) == Acked ==> id in acked && id !in RejectedIds(rejected)
    ensures SettledAs(acked, rejected, id) in {DeadLetter, Pending} ==> id in RejectedIds(rejected)
    ensures SettledAs(acked, rejected, id) == DeadLetter ==>
      exists i :: 0 <= i < |rejected| && RefusedForGood(rejected[i], id)
  {
    if rejected != [] {
      var front, last := rejected[..|rejected| - 1], rejected[|rejected| - 1];
      SettledAsMeaning(acked, front, id);
      RejectedIdsPush(front, last);
      assert rejected == front + [last];
      if SettledAs(acked, rejected, id) == DeadLetter && last.eventId == id {
        assert RefusedForGood(rejected[|rejected| - 1], id);
      }
    }
  }

  lemma {:induction false} PendingMeansNeverForGood(acked: seq<EventId>, rejected: seq<Rejected>, id: EventId)
    requires id != "" && ConsistentAbout(acked, rejected, id) && SettledAs(acked, rejected, id) == Pending
    ensures forall i :: 0 <= i < |rejected| ==> !RefusedForGood(rejected[i], id)
  {
    var front, last := rejected[..|rejected| - 1], rejected[|rejected| - 1];
    assert rejected == front + [last];
    ConsistentPush(acked, front, last, id);
    if last.eventId != id {
      PendingMeansNeverForGood(acked, front, id);
    }
  }

  lemma ConsistentPush(acked: seq<EventId>, front: seq<Rejected>, last: Rejected, id: EventId)
    requires id != ""
    ensures ConsistentAbout(acked, front + [last], id)
       <==> ConsistentAbout(acked, front, id)
            && (last.eventId == id ==>
                  && id !in acked
                  && (IsPermanentRejection(last.code)
                      || forall i :: 0 <= i < |front| ==> !RefusedForGood(front[i], id)))
  {
    var all := front + [last];
    RejectedIdsPush(front, last);
    if ConsistentAbout(acked, all, id) {
      forall i, j | 0 <= i < j < |front| && RefusedForGood(front[i], id) && front[j].eventId == id
        ensures IsPermanentRejection(front[j].code)
      {
        assert all[i] == front[i] && all[j] == front[j];
      }
      if last.eventId == id && !IsPermanentRejection(last.code) {
        forall i | 0 <= i < |front| ensures !RefusedForGood(front[i], id) {
          assert all[i] == front[i] && all[|front|] == last;
        }
      }
    }
  }

  function UpToRefusals(env: Env, batch: seq<Claim>, acked: seq<EventId>, rejected: seq<Rejected>, now: int): seq<Tx>
  {
    [AckTx(acked)] + RejectedTxs(env, batch, rejected, now)
  }

  lemma AckKeeps(r: Row, acked: seq<EventId>)
    requires r.status == Inflight
    ensures KeepsSettled(r, [AckTx(acked)])
    ensures RowAfter(r, [AckTx(acked)]).status == (if r.event.eventId in acked then Acked else Inflight)
  {
    KeepsSettledPush(r, [], AckTx(acked));
    RowAfterPush(r, [], AckTx(acked));
    assert [] + [AckTx(acked)] == [AckTx(acked)];
  }

  lemma {:induction false} RefusalsKeepSettled(
      env: Env, batch: seq<Claim>, acked: seq<EventId>, rejected: seq<Rejected>, now: int, r: Row)
    requires r.status == Inflight && r.event.eventId != ""
    ensures KeepsSettled(r, UpToRefusals(env, batch, acked, rejected, now))
       <==> ConsistentAbout(acked, rejected, r.event.eventId)
    ensures ConsistentAbout(acked, rejected, r.event.eventId) ==>
      RowAfter(r, UpToRefusals(env, batch, acked, rejected, now)).status
        == SettledAs(acked, rejected, r.event.eventId)
  {
    var id := r.event.eventId;
    if rejected == [] {
      AckKeeps(r, acked);
      assert UpToRefusals(env, batch, acked, rejected, now) == [AckTx(acked)];
    } else {
      var front, last := rejected[..|rejected| - 1], rejected[|rejected| - 1];
      assert rejected == front + [last];
      RefusalsKeepSettled(env, batch, acked, front, now, r);
      ConsistentPush(acked, front, last, id);
      var before := UpToRefusals(env, batch, acked, front, now);
      if last.eventId == "" {
        assert UpToRefusals(env, batch, acked, rejected, now) == before;
      } else {
        var tx := RejectedTx(env, batch, last, now);
        assert UpToRefusals(env, batch, acked, rejected, now) == before + [tx];
        SingletonIds(last.eventId);
        KeepsSettledPush(r, before, tx);
        RowAfterPush(r, before, tx);
        if ConsistentAbout(acked, front, id) {
          OneMoreRefusal(acked, front, last, id);
        }
      }
    }
  }

  /** A further refusal of `id` changes a settled status exactly when it makes the answer inconsistent. */
  lemma OneMoreRefusal(acked: seq<EventId>, front: seq<Rejected>, last: Rejected, id: EventId)
    requires id != "" && ConsistentAbout(acked, front, id)
    ensures
      var p := SettledAs(acked, front, id);
      var q := if IsPermanentRejection(last.code) then DeadLetter else Pending;
      last.eventId == id ==>
        ((SettledStatus(p) ==> q == p)
         <==> id !in acked && (IsPermanentRejection(last.code)
                               || forall i :: 0 <= i < |front| ==> !RefusedForGood(front[i], id)))
  {
    SettledAsMeaning(acked, front, id);
    if SettledAs(acked, front, id) == Pending {
      PendingMeansNeverForGood(acked, front, id);
    }
    if SettledAs(acked, front, id) == Inflight {
      forall i | 0 <= i < |front| ensures !RefusedForGood(front[i], id) {
        assert front[i] in front;
      }
    }
  }

  /** While one drain settles its batch, a claimed row that becomes `acked` or `dead_letter` stays so
      exactly when the answer does not contradict itself about the row's id. */
  lemma AnswerKeepsSettled(env: Env, batch: seq<Claim>, a: Answer, now: int, r: Row)
    requires r.status == Inflight && r.event.eventId != ""
    ensures KeepsSettled(r, OutcomeTxs(env, batch, a, now))
       <==> ConsistentAbout(AckedIds(a), a.rejected, r.event.eventId)
  {
    var id := r.event.eventId;
    var txs := UpToRefusals(env, batch, AckedIds(a), a.rejected, now);
    RefusalsKeepSettled(env, batch, AckedIds(a), a.rejected, now, r);
    UnaccountedIds(batch, Mentioned(a), id);
    var left := LeftoverTxs(env, batch, a, now);
    if left == [] {
      assert OutcomeTxs(env, batch, a, now) == txs;
    } else {
      assert OutcomeTxs(env, batch, a, now) == txs + [left[0]];
      KeepsSettledPush(r, txs, left[0]);
      if id in Unaccounted(batch, Mentioned(a)) {
        assert id !in AckedIds(a) && id !in RejectedIds(a.rejected);
        UntouchedKeeps(env, batch, AckedIds(a), a.rejected, now, r);
      }
    }
  }

  lemma UntouchedKeeps(
      env: Env, batch: seq<Claim>, acked: seq<EventId>, rejected: seq<Rejected>, now: int, r: Row)
    requires r.status == Inflight && r.event.eventId != ""
    requires r.event.eventId !in acked && r.event.eventId !in RejectedIds(rejected)
    ensures RowAfter(r, UpToRefusals(env, batch, acked, rejected, now)).status == Inflight
  {
    var id := r.event.eventId;
    TouchesConcat([AckTx(acked)], RejectedTxs(env, batch, rejected, now), id);
    RejectedTouches(env, batch, rejected, now, id);
    assert !Touches([AckTx(acked)], id);
    InflightUnlessTouched(r, UpToRefusals(env, batch, acked, rejected, now));
  }
}
