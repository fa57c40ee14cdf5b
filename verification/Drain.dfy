/** One upload: what a drain does to the spool once the gateway has answered a batch, or failed
    to. Each answer turns into a list of transactions, run one after another. */
module Drain {
  import opened Backoff
  import opened Spool

  /** One refused event; an empty id refuses the whole batch. */
  datatype Rejected = Rejected(eventId: EventId, code: string, message: string)

  datatype Answer = Answer(accepted: seq<EventId>, duplicates: seq<EventId>, rejected: seq<Rejected>)

  datatype TransportError =
    | Unauthorized(message: string)
    | Disabled(message: string)
    | Http(status: nat, message: string)
    | Network(message: string)
    | Protocol(message: string)

  /** The configuration, and the 32-bit number the jitter reads from an event id's hash. */
  datatype Env = Env(config: Config, bucket: EventId -> nat)

  datatype Tx =
    | AckTx(ids: seq<EventId>)
    | RescheduleTx(ids: seq<EventId>, retryAt: int, error: string)
    | ParkTx(ids: seq<EventId>, error: string)

  datatype Report = Report(accepted: nat, duplicates: nat, rejectedPermanent: nat,
                           rescheduled: nat, deadLettered: nat)

  predicate Retryable(e: TransportError)
  {
    match e
    case Http(status, _) => status >= 500 || status == 408 || status == 429
    case _ => true
  }

  predicate IsPermanentRejection(code: string)
  {
    code in {"unsupported_schema_version", "invalid_payload", "missing_required_field",
             "invalid_event_type", "invalid_role", "content_too_large", "metadata_too_large",
             "event_id_conflict", "session_id_mismatch", "ingest_disabled"}
  }

  function AckedIds(a: Answer): seq<EventId>
  {
    a.accepted + a.duplicates
  }

  // ---- transactions ----

  function TxChange(tx: Tx): Change
  {
    match tx
    case AckTx(_) => ToAcked
    case RescheduleTx(_, retryAt, error) => ToPending(retryAt, error)
    case ParkTx(_, error) => ToDeadLetter(error)
  }

  function ApplyTx(rows: seq<Row>, tx: Tx): seq<Row>
  {
    Update(rows, IdSet(tx.ids), TxChange(tx))
  }

  function ApplyTxs(rows: seq<Row>, txs: seq<Tx>): seq<Row>
  {
    if txs == [] then rows else ApplyTx(ApplyTxs(rows, txs[..|txs| - 1]), txs[|txs| - 1])
  }

  /** The attempts the batch recorded for an id, 0 when it is not in the batch. */
  function AttemptsOf(batch: seq<Claim>, id: EventId): nat
  {
    if batch == [] then 0
    else if batch[|batch| - 1].event.eventId == id then batch[|batch| - 1].attempts
    else AttemptsOf(batch[..|batch| - 1], id)
  }

  function BatchIds(batch: seq<Claim>): seq<EventId>
  {
    seq(|batch|, i requires 0 <= i < |batch| => batch[i].event.eventId)
  }

  // ---- an answered batch ----

  function RetryAt(env: Env, batch: seq<Claim>, id: EventId, now: int): int
  {
    var attempt := (AttemptsOf(batch, id) % U32_LIMIT + 1) % U32_LIMIT;
    now + AsI64(Delay(env.config, attempt, env.bucket(id)))
  }

  function RejectionText(r: Rejected): string
  {
    r.code + ": " + r.message
  }

  function RejectedTx(env: Env, batch: seq<Claim>, r: Rejected, now: int): Tx
  {
    if IsPermanentRejection(r.code) then ParkTx([r.eventId], RejectionText(r))
    else RescheduleTx([r.eventId], RetryAt(env, batch, r.eventId, now), RejectionText(r))
  }

  function RejectedTxs(env: Env, batch: seq<Claim>, rejected: seq<Rejected>, now: int): seq<Tx>
  {
    if rejected == [] then []
    else
      var front := RejectedTxs(env, batch, rejected[..|rejected| - 1], now);
      var last := rejected[|rejected| - 1];
      if last.eventId == "" then front else front + [RejectedTx(env, batch, last, now)]
  }

  function RejectedIds(rejected: seq<Rejected>): set<EventId>
  {
    set r | r in rejected :: r.eventId
  }

  function Mentioned(a: Answer): set<EventId>
  {
    IdSet(AckedIds(a)) + RejectedIds(a.rejected)
  }

  function Unaccounted(batch: seq<Claim>, mentioned: set<EventId>): seq<EventId>
  {
    if batch == [] then []
    else
      var front := Unaccounted(batch[..|batch| - 1], mentioned);
      var id := batch[|batch| - 1].event.eventId;
      if id in mentioned then front else front + [id]
  }

  function LeftoverTxs(env: Env, batch: seq<Claim>, a: Answer, now: int): seq<Tx>
  {
    var ids := Unaccounted(batch, Mentioned(a));
    if ids == [] then []
    else [RescheduleTx(ids, now + AsI64(env.config.baseBackoff), "unaccounted_in_response")]
  }

  function OutcomeTxs(env: Env, batch: seq<Claim>, a: Answer, now: int): seq<Tx>
  {
    [AckTx(AckedIds(a))] + RejectedTxs(env, batch, a.rejected, now) + LeftoverTxs(env, batch, a, now)
  }

  // ---- a failed upload ----

  /** The attempt a transport error counts; the conversion to 32 bits wraps. */
  function CountedAttempt(c: Claim): nat
  {
    (c.attempts + 1) % U32_LIMIT
  }

  predicate Parks(env: Env, error: TransportError, c: Claim)
  {
    !Retryable(error) || CountedAttempt(c) >= env.config.maxAttempts
  }

  function RetryIds(env: Env, error: TransportError, batch: seq<Claim>): seq<EventId>
  {
    if batch == [] then []
    else
      var front := RetryIds(env, error, batch[..|batch| - 1]);
      var last := batch[|batch| - 1];
      if Parks(env, error, last) then front else front + [last.event.eventId]
  }

  function ParkIds(env: Env, error: TransportError, batch: seq<Claim>): seq<EventId>
  {
    if batch == [] then []
    else
      var front := ParkIds(env, error, batch[..|batch| - 1]);
      var last := batch[|batch| - 1];
      if Parks(env, error, last) then front + [last.event.eventId] else front
  }

  /** The longest first-attempt delay among the ids. */
  function LongestDelay(env: Env, ids: seq<EventId>): nat
    requires ids != []
  {
    var last := Delay(env.config, 1, env.bucket(ids[|ids| - 1]));
    if |ids| == 1 then last
    else
      var front := LongestDelay(env, ids[..|ids| - 1]);
      if last >= front then last else front
  }

  function RetryTxs(env: Env, retry: seq<EventId>, error: string, now: int): seq<Tx>
  {
    if retry == [] then [] else [RescheduleTx(retry, now + AsI64(LongestDelay(env, retry)), error)]
  }

  function ParkTxs(park: seq<EventId>, error: string): seq<Tx>
  {
    if park == [] then [] else [ParkTx(park, error)]
  }

  function ErrorTxs(env: Env, batch: seq<Claim>, error: TransportError, now: int): seq<Tx>
  {
    RetryTxs(env, RetryIds(env, error, batch), error.message, now)
    + ParkTxs(ParkIds(env, error, batch), error.message)
  }

  // ---- counters ----

  function TotalParked(txs: seq<Tx>): nat
  {
    if txs == [] then 0
    else TotalParked(txs[..|txs| - 1]) + (match txs[|txs| - 1] case ParkTx(ids, _) => |ids| case _ => 0)
  }

  function TotalRescheduled(txs: seq<Tx>): nat
  {
    if txs == [] then 0
    else TotalRescheduled(txs[..|txs| - 1])
         + (match txs[|txs| - 1] case RescheduleTx(ids, _, _) => |ids| case _ => 0)
  }

  function PermanentCount(rejected: seq<Rejected>): nat
  {
    if rejected == [] then 0
    else
      var last := rejected[|rejected| - 1];
      PermanentCount(rejected[..|rejected| - 1])
      + (if last.eventId == "" || IsPermanentRejection(last.code) then 1 else 0)
  }

  // ---- running the transactions in place ----

  lemma ApplyTxsPush(rows: seq<Row>, txs: seq<Tx>, tx: Tx)
    ensures ApplyTxs(rows, txs + [tx]) == ApplyTx(ApplyTxs(rows, txs), tx)
    ensures TotalParked(txs + [tx]) == TotalParked(txs) + (if tx.ParkTx? then |tx.ids| else 0)
    ensures TotalRescheduled(txs + [tx])
         == TotalRescheduled(txs) + (if tx.RescheduleTx? then |tx.ids| else 0)
  {
    assert (txs + [tx])[..|txs|] == txs;
  }

  lemma EmptyTxs(rows: seq<Row>)
    ensures ApplyTxs(rows, []) == rows && TotalParked([]) == 0 && TotalRescheduled([]) == 0
  {
  }

  /** The loop over the refused events: one transaction each, the batch-level refusals counted. */
  method SettleRejected(env: Env, store: Store, batch: seq<Claim>, rejected: seq<Rejected>, now: int,
                        report: Report, ghost before: seq<Row>, ghost done: seq<Tx>)
    returns (after: Report)
    requires store.Valid() && store.rows == ApplyTxs(before, done)
    modifies store`rows
    ensures store.Valid()
    ensures store.rows == ApplyTxs(before, done + RejectedTxs(env, batch, rejected, now))
    ensures after == report.(
      rejectedPermanent := report.rejectedPermanent + PermanentCount(rejected),
      deadLettered := after.deadLettered, rescheduled := after.rescheduled)
    ensures after.deadLettered + TotalParked(done)
         == report.deadLettered + TotalParked(done + RejectedTxs(env, batch, rejected, now))
    ensures after.rescheduled + TotalRescheduled(done)
         == report.rescheduled + TotalRescheduled(done + RejectedTxs(env, batch, rejected, now))
  {
    hide ApplyTxs, TotalParked, TotalRescheduled, RetryAt, IsPermanentRejection, RejectionText;
    after := report;
    ghost var txs := done;
    for i := 0 to |rejected|
      invariant store.Valid()
      invariant txs == done + RejectedTxs(env, batch, rejected[..i], now)
      invariant store.rows == ApplyTxs(before, txs)
      invariant after == report.(
        rejectedPermanent := report.rejectedPermanent + PermanentCount(rejected[..i]),
        deadLettered := after.deadLettered, rescheduled := after.rescheduled)
      invariant after.deadLettered + TotalParked(done) == report.deadLettered + TotalParked(txs)
      invariant after.rescheduled + TotalRescheduled(done) == report.rescheduled + TotalRescheduled(txs)
    {
      var r := rejected[i];
      assert rejected[..i + 1][..i] == rejected[..i];
      if r.eventId == "" {
        after := after.(rejectedPermanent := after.rejectedPermanent + 1);
        continue;
      }
      ApplyTxsPush(before, txs, RejectedTx(env, batch, r, now));
      if IsPermanentRejection(r.code) {
        var _ := store.Park([r.eventId], RejectionText(r));
        after := after.(rejectedPermanent := after.rejectedPermanent + 1,
                        deadLettered := after.deadLettered + 1);
      } else {
        var _ := store.Reschedule([r.eventId], RetryAt(env, batch, r.eventId, now), RejectionText(r));
        after := after.(rescheduled := after.rescheduled + 1);
      }
      txs := txs + [RejectedTx(env, batch, r, now)];
    }
    assert rejected[..|rejected|] == rejected;
  }

  method ApplyOutcome(env: Env, store: Store, batch: seq<Claim>, answer: Answer, now: int, report: Report)
    returns (after: Report)
    requires store.Valid()
    modifies store`rows
    ensures store.Valid()
    ensures store.rows == ApplyTxs(old(store.rows), OutcomeTxs(env, batch, answer, now))
    ensures after.accepted == report.accepted + |answer.accepted|
    ensures after.duplicates == report.duplicates + |answer.duplicates|
    ensures after.rejectedPermanent == report.rejectedPermanent + PermanentCount(answer.rejected)
    ensures after.deadLettered == report.deadLettered + TotalParked(OutcomeTxs(env, batch, answer, now))
    ensures after.rescheduled == report.rescheduled + TotalRescheduled(OutcomeTxs(env, batch, answer, now))
  {
    EmptyTxs(store.rows);
    hide ApplyTxs, TotalParked, TotalRescheduled, Unaccounted, PermanentCount, RejectedTxs, Mentioned, AckedIds;
    ghost var before := store.rows;
    ghost var txs := [AckTx(AckedIds(answer))];
    var _ := store.Ack(AckedIds(answer));
    after := report.(accepted := report.accepted + |answer.accepted|,
                     duplicates := report.duplicates + |answer.duplicates|);
    ApplyTxsPush(before, [], AckTx(AckedIds(answer)));
    assert [] + txs == txs;
    after := SettleRejected(env, store, batch, answer.rejected, now, after, before, txs);
    txs := txs + RejectedTxs(env, batch, answer.rejected, now);

    var unaccounted := Unaccounted(batch, Mentioned(answer));
    if unaccounted != [] {
      var retryAt := now + AsI64(env.config.baseBackoff);
      ApplyTxsPush(before, txs, RescheduleTx(unaccounted, retryAt, "unaccounted_in_response"));
      var _ := store.Reschedule(unaccounted, retryAt, "unaccounted_in_response");
      after := after.(rescheduled := after.rescheduled + |unaccounted|);
      txs := txs + [RescheduleTx(unaccounted, retryAt, "unaccounted_in_response")];
    }
    assert txs == OutcomeTxs(env, batch, answer, now);
  }

  /** The longest delay over the ids to retry, by a running maximum. */
  method MaximumDelay(env: Env, retry: seq<EventId>) returns (delay: nat)
    requires retry != []
    ensures delay == LongestDelay(env, retry)
    ensures forall id :: id in retry ==> Delay(env.config, 1, env.bucket(id)) <= delay
  {
    delay := Delay(env.config, 1, env.bucket(retry[0]));
    for i := 1 to |retry|
      invariant delay == LongestDelay(env, retry[..i])
      invariant forall j :: 0 <= j < i ==> Delay(env.config, 1, env.bucket(retry[j])) <= delay
    {
      assert retry[..i + 1][..i] == retry[..i];
      var next := Delay(env.config, 1, env.bucket(retry[i]));
      if next >= delay {
        delay := next;
      }
    }
    assert retry[..|retry|] == retry;
  }

  /** The ids to retry and the ids to park after a transport error. */
  method SplitBatch(env: Env, error: TransportError, batch: seq<Claim>)
    returns (retry: seq<EventId>, park: seq<EventId>)
    ensures retry == RetryIds(env, error, batch) && park == ParkIds(env, error, batch)
    ensures |retry| + |park| == |batch|
  {
    retry, park := [], [];
    for i := 0 to |batch|
      invariant retry == RetryIds(env, error, batch[..i])
      invariant park == ParkIds(env, error, batch[..i])
      invariant |retry| + |park| == i
    {
      assert batch[..i + 1][..i] == batch[..i];
      var attempt := (batch[i].attempts + 1) % U32_LIMIT;
      if !Retryable(error) || attempt >= env.config.maxAttempts {
        park := park + [batch[i].event.eventId];
      } else {
        retry := retry + [batch[i].event.eventId];
      }
    }
    assert batch[..|batch|] == batch;
  }

  method HandleTransportError(env: Env, store: Store, batch: seq<Claim>, error: TransportError, now: int,
                              report: Report)
    returns (after: Report)
    requires store.Valid()
    modifies store`rows
    ensures store.Valid()
    ensures store.rows == ApplyTxs(old(store.rows), ErrorTxs(env, batch, error, now))
    ensures after == report.(
      deadLettered := report.deadLettered + TotalParked(ErrorTxs(env, batch, error, now)),
      rescheduled := report.rescheduled + TotalRescheduled(ErrorTxs(env, batch, error, now)))
  {
    var retry, park := SplitBatch(env, error, batch);
    after := report;
    after := RetryLater(env, store, retry, error.message, now, after);
    after := ParkNow(store, park, error.message, after);
    ghost var first := RetryTxs(env, retry, error.message, now);
    ErrorTotals(old(store.rows), first, park, error.message);
  }

  lemma ErrorTotals(rows: seq<Row>, first: seq<Tx>, park: seq<EventId>, error: string)
    ensures ApplyTxs(rows, first + ParkTxs(park, error)) == ApplyTxs(ApplyTxs(rows, first), ParkTxs(park, error))
    ensures TotalParked(first + ParkTxs(park, error)) == TotalParked(first) + |park|
    ensures TotalRescheduled(first + ParkTxs(park, error)) == TotalRescheduled(first)
  {
    if park == [] {
      assert first + [] == first;
    } else {
      ApplyTxsPush(rows, first, ParkTx(park, error));
      SingleTx(ApplyTxs(rows, first), ParkTx(park, error));
    }
  }

  lemma SingleTx(rows: seq<Row>, tx: Tx)
    ensures ApplyTxs(rows, [tx]) == ApplyTx(rows, tx)
    ensures TotalParked([tx]) == (if tx.ParkTx? then |tx.ids| else 0)
    ensures TotalRescheduled([tx]) == (if tx.RescheduleTx? then |tx.ids| else 0)
  {
    ApplyTxsPush(rows, [], tx);
    assert [] + [tx] == [tx];
  }

  method RetryLater(env: Env, store: Store, retry: seq<EventId>, error: string, now: int, report: Report)
    returns (after: Report)
    requires store.Valid()
    modifies store`rows
    ensures store.Valid()
    ensures store.rows == ApplyTxs(old(store.rows), RetryTxs(env, retry, error, now))
    ensures after == report.(
      rescheduled := report.rescheduled + TotalRescheduled(RetryTxs(env, retry, error, now)))
    ensures TotalParked(RetryTxs(env, retry, error, now)) == 0
  {
    if retry == [] {
      return report;
    }
    var delay := MaximumDelay(env, retry);
    SingleTx(store.rows, RescheduleTx(retry, now + AsI64(delay), error));
    var _ := store.Reschedule(retry, now + AsI64(delay), error);
    after := report.(rescheduled := report.rescheduled + |retry|);
  }

  method ParkNow(store: Store, park: seq<EventId>, error: string, report: Report) returns (after: Report)
    requires store.Valid()
    modifies store`rows
    ensures store.Valid()
    ensures store.rows == ApplyTxs(old(store.rows), ParkTxs(park, error))
    ensures after == report.(deadLettered := report.deadLettered + |park|)
  {
    if park == [] {
      return report;
    }
    SingleTx(store.rows, ParkTx(park, error));
    var _ := store.Park(park, error);
    after := report.(deadLettered := report.deadLettered + |park|);
  }
}
