/** Where the guarantees of the upload protocol end: concrete runs outside the lease discipline. */
module ProtocolLimits {
  import opened Spool
  import opened Drain
  import opened DrainFacts
  import opened Protocol
  import opened ProtocolLease
  import opened Seqs

  lemma SingleClaim(r: Row, now: int)
    requires Due(r, now)
    ensures ClaimedBatch([r], now, 1) == [Claim(r.serial, r.event, r.attempts)]
    ensures ClaimRows([r], now, 1) == [ChangeRow(r, ToInflight(now))]
  {
    assert [r][..0] == [] && [r][0] == r;
    assert DueRows([r], now) == [r];
    assert [r][1..] == [];
    assert Oldest([r], 1) == [r];
    assert RowIds([r]) == [r.event.eventId];
  }

  /** The first drain is still waiting when its lease runs out; a second one uploads the event; the
      first then hears a permanent error. */
  function SlowDrainStart(e: Event): seq<Step>
  {
    [EnqueueStep(e), ClaimStep(1, 1), Tick(LEASE), ReclaimStep(LEASE), ClaimStep(2, 1)]
  }

  function SlowDrainMiddle(e: Event, at: int): seq<Step>
  {
    [GatewayStoresStep({e.eventId}), ReplyStep(2, Answer([e.eventId], [], []), at), CommitStep(2)]
  }

  function SlowDrainEnd(error: TransportError): seq<Step>
  {
    [ErrorStep(1, error, LEASE), CommitStep(1)]
  }

  lemma ClaimOne(env: Env, w: World, d: nat, r: Row)
    requires w.table.rows == [r] && Due(r, w.now) && PhaseOf(w, d) == Idle
    ensures
      var v := Next(env, w, ClaimStep(d, 1));
      && v.table.rows == [ChangeRow(r, ToInflight(w.now))] && v.now == w.now
      && v.drains == w.drains[d := Posting([Claim(r.serial, r.event, r.attempts)], w.now)]
  {
    SingleClaim(r, w.now);
  }

  lemma InsertFirst(t: Table, e: Event, now: int) returns (r: Row)
    requires t.rows == []
    ensures InsertEvent(t, e, now).rows == [r]
    ensures r.serial == t.nextSerial && r.event == e && r.attempts == 0 && Due(r, 0) && r.nextRetryAt == 0
  {
    r := FreshRow(t.nextSerial, e, now);
    assert e.eventId !in Ids(t.rows);
    JoinEmpty([r]);
  }

  lemma EnqueueOne(env: Env, w: World, e: Event) returns (r: Row)
    requires w.table.rows == [] && w.table.nextSerial == 0 && w.now == 0
    ensures Next(env, w, EnqueueStep(e)).table.rows == [r]
    ensures r.serial == 0 && r.event == e && r.attempts == 0 && Due(r, w.now)
    ensures Next(env, w, EnqueueStep(e)).now == w.now && Next(env, w, EnqueueStep(e)).drains == w.drains
  {
    r := InsertFirst(w.table, e, w.now);
  }

  lemma FirstClaim(env: Env, e: Event) returns (r: Row)
    ensures
      var w := Run(env, Start, [EnqueueStep(e), ClaimStep(1, 1)]);
      w.now == 0 && w.drains == map[1 := Posting([Claim(0, e, 0)], 0)] && w.table.rows == [r]
    ensures r.serial == 0 && r.event == e && r.attempts == 1 && r.status == Inflight && r.inflightAt == 0
    ensures r.nextRetryAt <= 0
  {
    var w1 := Next(env, Start, EnqueueStep(e));
    var newRow := EnqueueOne(env, Start, e);
    ClaimOne(env, w1, 1, newRow);
    RunTwo(env, Start, EnqueueStep(e), ClaimStep(1, 1));
    r := ChangeRow(newRow, ToInflight(0));
  }

  lemma ReclaimOne(env: Env, w: World, r: Row)
    requires w.table.rows == [r] && r.status == Inflight && r.inflightAt == 0
    ensures
      var v := Next(env, Next(env, w, Tick(LEASE)), ReclaimStep(LEASE));
      v.table.rows == [ReclaimRow(r)] && v.now == LEASE && v.drains == w.drains
  {
  }

  lemma SecondClaim(env: Env, e: Event)
    ensures
      var w := Run(env, Start, SlowDrainStart(e));
      && |w.table.rows| == 1 && w.table.rows[0].event == e
      && PhaseOf(w, 1) == Posting([Claim(0, e, 0)], 0)
      && PhaseOf(w, 2) == Posting([Claim(0, e, 1)], LEASE)
  {
    var r := FirstClaim(env, e);
    var first := [EnqueueStep(e), ClaimStep(1, 1)];
    var w := Run(env, Start, first);
    ReclaimOne(env, w, r);
    ClaimOne(env, Next(env, Next(env, w, Tick(LEASE)), ReclaimStep(LEASE)), 2, ReclaimRow(r));
    RunThree(env, w, Tick(LEASE), ReclaimStep(LEASE), ClaimStep(2, 1));
    RunAppend(env, Start, first, [Tick(LEASE), ReclaimStep(LEASE), ClaimStep(2, 1)]);
    assert SlowDrainStart(e) == first + [Tick(LEASE), ReclaimStep(LEASE), ClaimStep(2, 1)];
  }

  lemma AcksOnly(env: Env, batch: seq<Claim>, id: EventId, at: int)
    requires |batch| == 1 && batch[0].event.eventId == id
    ensures OutcomeTxs(env, batch, Answer([id], [], []), at) == [AckTx([id])]
  {
    var answer := Answer([id], [], []);
    assert AckedIds(answer) == [id];
    assert batch[..0] == [];
    assert id in Mentioned(answer) by {
      assert id in AckedIds(answer);
    }
    assert Unaccounted(batch, Mentioned(answer)) == [];
  }

  lemma SecondUploads(env: Env, w: World, e: Event, r: Row, at: int)
    requires w.table.rows == [r] && r.event == e
    requires PhaseOf(w, 2) == Posting([Claim(0, e, 1)], at)
    ensures
      var v := Run(env, w, SlowDrainMiddle(e, at));
      v.table.rows == [ChangeRow(r, ToAcked)] && PhaseOf(v, 1) == PhaseOf(w, 1)
  {
    hide Run, OutcomeTxs, LeftoverTxs, RejectedTxs;
    var answer := Answer([e.eventId], [], []);
    AcksOnly(env, [Claim(0, e, 1)], e.eventId, at);
    RunThree(env, w, GatewayStoresStep({e.eventId}), ReplyStep(2, answer, at), CommitStep(2));
  }

  lemma OnlyParks(env: Env, e: Event, error: TransportError)
    requires !Retryable(error)
    ensures RetryIds(env, error, [Claim(0, e, 0)]) == [] && ParkIds(env, error, [Claim(0, e, 0)]) == [e.eventId]
  {
    var batch := [Claim(0, e, 0)];
    assert batch[..0] == [];
    assert Parks(env, error, batch[0]);
    assert RetryIds(env, error, []) == [] && ParkIds(env, error, []) == [];
  }

  lemma FirstParks(env: Env, w: World, e: Event, r: Row, error: TransportError)
    requires w.table.rows == [r] && r.event == e && !Retryable(error)
    requires PhaseOf(w, 1) == Posting([Claim(0, e, 0)], 0)
    ensures Run(env, w, SlowDrainEnd(error)).table.rows == [ChangeRow(r, ToDeadLetter(error.message))]
  {
    var batch := [Claim(0, e, 0)];
    OnlyParks(env, e, error);
    assert ErrorTxs(env, batch, error, LEASE) == [ParkTx([e.eventId], error.message)];
    RunTwo(env, w, ErrorStep(1, error, LEASE), CommitStep(1));
  }

  /** A drain that outlives its lease moves an uploaded, acknowledged event to `dead_letter`: the
      updates have no guard on the current status. */
  lemma LateDrainOverwritesAck(env: Env, e: Event, error: TransportError)
    requires !Retryable(error)
    ensures
      var before := Run(env, Start, SlowDrainStart(e) + SlowDrainMiddle(e, LEASE)).table.rows;
      |before| == 1 && before[0].event == e && before[0].status == Acked
    ensures
      var after := Run(env, Start, SlowDrainStart(e) + SlowDrainMiddle(e, LEASE) + SlowDrainEnd(error)).table.rows;
      |after| == 1 && after[0].event == e && after[0].status == DeadLetter
    ensures
      var before := Run(env, Start, SlowDrainStart(e) + SlowDrainMiddle(e, LEASE)).table.rows;
      var after := Run(env, Start, SlowDrainStart(e) + SlowDrainMiddle(e, LEASE) + SlowDrainEnd(error)).table.rows;
      before[0].serial == after[0].serial
  {
    SecondClaim(env, e);
    var w := Run(env, Start, SlowDrainStart(e));
    assert w.table.rows == [w.table.rows[0]];
    SecondUploads(env, w, e, w.table.rows[0], LEASE);
    var v := Run(env, w, SlowDrainMiddle(e, LEASE));
    FirstParks(env, v, e, v.table.rows[0], error);
    RunAppend(env, Start, SlowDrainStart(e), SlowDrainMiddle(e, LEASE));
    RunAppend(env, Start, SlowDrainStart(e) + SlowDrainMiddle(e, LEASE), SlowDrainEnd(error));
  }

  // ---- how long a lease may last ----

  lemma WithinTwo(env: Env, limit: int, w: World, a: Step, b: Step)
    requires DisciplinedWithin(limit, w, a) && DisciplinedWithin(limit, Next(env, w, a), b)
    ensures RunWithin(env, limit, w, [a, b])
  {
    assert [a, b][..0] == [] && [a, b][..1] == [a];
    RunOne(env, w, a);
  }

  lemma WithinThree(env: Env, limit: int, w: World, a: Step, b: Step, c: Step)
    requires DisciplinedWithin(limit, w, a) && DisciplinedWithin(limit, Next(env, w, a), b)
    requires DisciplinedWithin(limit, Next(env, Next(env, w, a), b), c)
    ensures RunWithin(env, limit, w, [a, b, c])
  {
    WithinTwo(env, limit, w, a, b);
    RunTwo(env, w, a, b);
    WithinJoined(env, limit, w, [a, b], [c]);
    assert [a, b, c] == [a, b] + [c];
  }

  lemma WithinJoined(env: Env, limit: int, w: World, a: seq<Step>, b: seq<Step>)
    requires RunWithin(env, limit, w, a) && RunWithin(env, limit, Run(env, w, a), b)
    ensures RunWithin(env, limit, w, a + b)
  {
    forall k | 0 <= k < |a + b| ensures DisciplinedWithin(limit, Run(env, w, (a + b)[..k]), (a + b)[k]) {
      if k < |a| {
        assert (a + b)[..k] == a[..k];
      } else {
        assert (a + b)[..k] == a + b[..k - |a|];
        RunAppend(env, w, a, b[..k - |a|]);
      }
    }
  }

  lemma WaitWithin(env: Env, limit: int, w: World, batch: seq<Claim>)
    requires LEASE < limit && w.now == 0 && w.drains == map[1 := Posting(batch, 0)]
    ensures RunWithin(env, limit, w, [Tick(LEASE), ReclaimStep(LEASE), ClaimStep(2, 1)])
  {
    WithinThree(env, limit, w, Tick(LEASE), ReclaimStep(LEASE), ClaimStep(2, 1));
  }

  lemma FirstWithin(env: Env, limit: int, w: World, e: Event)
    ensures RunWithin(env, limit, w, [EnqueueStep(e), ClaimStep(1, 1)])
  {
    WithinTwo(env, limit, w, EnqueueStep(e), ClaimStep(1, 1));
  }

  lemma SlowStartWithin(env: Env, limit: int, e: Event)
    requires LEASE < limit
    ensures RunWithin(env, limit, Start, SlowDrainStart(e))
  {
    var _ := FirstClaim(env, e);
    FirstWithin(env, limit, Start, e);
    WaitWithin(env, limit, Run(env, Start, [EnqueueStep(e), ClaimStep(1, 1)]), [Claim(0, e, 0)]);
    WithinJoined(env, limit, Start, [EnqueueStep(e), ClaimStep(1, 1)], [Tick(LEASE), ReclaimStep(LEASE), ClaimStep(2, 1)]);
    assert SlowDrainStart(e) == [EnqueueStep(e), ClaimStep(1, 1)] + [Tick(LEASE), ReclaimStep(LEASE), ClaimStep(2, 1)];
  }

  lemma SlowMiddleWithin(env: Env, limit: int, w: World, e: Event, at: int)
    requires PhaseOf(w, 2) == Posting([Claim(0, e, 1)], at)
    ensures RunWithin(env, limit, w, SlowDrainMiddle(e, at))
  {
    var answer, batch := Answer([e.eventId], [], []), [Claim(0, e, 1)];
    assert BatchIds(batch) == [e.eventId] && AckedIds(answer) == [e.eventId];
    WithinThree(env, limit, w, GatewayStoresStep({e.eventId}), ReplyStep(2, answer, at), CommitStep(2));
  }

  lemma SlowRunWithin(env: Env, limit: int, e: Event, error: TransportError)
    requires LEASE < limit
    ensures RunWithin(env, limit, Start, SlowDrainStart(e) + SlowDrainMiddle(e, LEASE) + SlowDrainEnd(error))
  {
    var start, middle := SlowDrainStart(e), SlowDrainMiddle(e, LEASE);
    SlowStartWithin(env, limit, e);
    SecondClaim(env, e);
    SlowMiddleWithin(env, limit, Run(env, Start, start), e, LEASE);
    WithinJoined(env, limit, Start, start, middle);
    var v := Run(env, Start, start + middle);
    WithinTwo(env, limit, v, ErrorStep(1, error, LEASE), CommitStep(1));
    WithinJoined(env, limit, Start, start + middle, SlowDrainEnd(error));
  }

  /** Row `i` is settled after `k` steps. */
  ghost predicate SettledAt(env: Env, steps: seq<Step>, k: nat, i: nat)
  {
    && k <= |steps|
    && var rows := Run(env, Start, steps[..k]).table.rows;
       i < |rows| && SettledStatus(rows[i].status)
  }

  /** It is settled for good: at the end it has its status still, or was acknowledged and pruned. */
  ghost predicate StaysSettled(env: Env, steps: seq<Step>, k: nat, i: nat)
    requires SettledAt(env, steps, k, i)
  {
    SettledForGood(Run(env, Start, steps[..k]).table.rows[i], Run(env, Start, steps).table)
  }

  /** Settled rows stay settled in all runs whose drains are never busy for `limit` seconds. */
  ghost predicate AbsorbsWithin(env: Env, limit: int)
  {
    forall steps, k, i | RunWithin(env, limit, Start, steps) && SettledAt(env, steps, k, i) ::
      StaysSettled(env, steps, k, i)
  }

  lemma ShorterLease(env: Env, limit: int, steps: seq<Step>)
    requires limit <= LEASE && RunWithin(env, limit, Start, steps)
    ensures DisciplinedRun(env, steps)
  {
    forall k | 0 <= k < |steps| ensures Disciplined(Run(env, Start, steps[..k]), steps[k]) {
      assert DisciplinedWithin(limit, Run(env, Start, steps[..k]), steps[k]);
    }
  }

  lemma LongerLeaseFails(env: Env, limit: int)
    requires LEASE < limit
    ensures !AbsorbsWithin(env, limit)
  {
    var e, error := Event("", ""), Http(400, "");
    LateDrainOverwritesAck(env, e, error);
    SlowRunWithin(env, limit, e, error);
    Unsettled(env, SlowDrainStart(e) + SlowDrainMiddle(e, LEASE), SlowDrainEnd(error));
    var before := SlowDrainStart(e) + SlowDrainMiddle(e, LEASE);
    assert !StaysSettled(env, before + SlowDrainEnd(error), |before|, 0);
  }

  lemma Unsettled(env: Env, before: seq<Step>, later: seq<Step>)
    requires var rows := Run(env, Start, before).table.rows;
             |rows| == 1 && SettledStatus(rows[0].status)
    requires var rows, after := Run(env, Start, before).table.rows, Run(env, Start, before + later).table.rows;
             |after| == 1 && after[0].serial == rows[0].serial && after[0].status != rows[0].status
    ensures SettledAt(env, before + later, |before|, 0) && !StaysSettled(env, before + later, |before|, 0)
  {
    SplitAt(before, later);
    var rows, after := Run(env, Start, before).table.rows, Run(env, Start, before + later).table.rows;
    assert after[0] in after;
  }

  /** Settled rows stay settled in all runs whose drains finish within `limit` seconds of their claims
      if and only if the limit is at most the age at which rows are taken back. */
  lemma LeaseBoundIsExact(env: Env, limit: int)
    ensures AbsorbsWithin(env, limit) <==> limit <= LEASE
  {
    if limit <= LEASE {
      forall steps, k, i | RunWithin(env, limit, Start, steps) && SettledAt(env, steps, k, i)
        ensures StaysSettled(env, steps, k, i)
      {
        ShorterLease(env, limit, steps);
        SettledStaysSettled(env, steps, k, i);
      }
    } else {
      LongerLeaseFails(env, limit);
    }
  }

  // ---- an answer that takes a refusal back ----

  /** The same id, refused for now and then for good. */
  function TwiceRefused(id: EventId): Answer
  {
    Answer([], [], [Rejected(id, "", ""), Rejected(id, "invalid_payload", "")])
  }

  /** When the first refusal makes the event due again. */
  function RetryOf(env: Env, e: Event): int
  {
    RetryAt(env, [Claim(0, e, 0)], e.eventId, 0)
  }

  /** Between the two transactions of that answer a second drain claims the event. */
  function RefusedSteps(env: Env, e: Event): seq<Step>
  {
    [CommitStep(1), CommitStep(1)] + [Tick(RetryOf(env, e)), ClaimStep(2, 1), CommitStep(1)]
  }

  lemma TwoRefusals(env: Env, batch: seq<Claim>, a: Rejected, b: Rejected, at: int)
    requires a.eventId != "" && b.eventId != ""
    ensures RejectedTxs(env, batch, [a, b], at) == [RejectedTx(env, batch, a, at), RejectedTx(env, batch, b, at)]
  {
    assert [a, b][..1] == [a] && [a][..0] == [];
    assert RejectedTxs(env, batch, [a], at) == [RejectedTx(env, batch, a, at)];
  }

  lemma NoneUnaccounted(batch: seq<Claim>, answer: Answer)
    requires |batch| == 1 && |answer.rejected| > 0 && answer.rejected[0].eventId == batch[0].event.eventId
    ensures Unaccounted(batch, Mentioned(answer)) == []
  {
    assert batch[0].event.eventId in Mentioned(answer) by {
      assert answer.rejected[0] in answer.rejected;
    }
    assert batch[..0] == [];
  }

  lemma TwiceRefusedTxs(env: Env, e: Event) returns (texts: (string, string))
    requires e.eventId != ""
    ensures OutcomeTxs(env, [Claim(0, e, 0)], TwiceRefused(e.eventId), 0)
         == [AckTx([]), RescheduleTx([e.eventId], RetryOf(env, e), texts.0), ParkTx([e.eventId], texts.1)]
  {
    var batch, answer := [Claim(0, e, 0)], TwiceRefused(e.eventId);
    var a, b := answer.rejected[0], answer.rejected[1];
    texts := (RejectionText(a), RejectionText(b));
    TwoRefusals(env, batch, a, b, 0);
    NoneUnaccounted(batch, answer);
    assert !IsPermanentRejection(a.code) && IsPermanentRejection(b.code);
    assert AckedIds(answer) == [];
    assert RejectedTx(env, batch, a, 0) == RescheduleTx([e.eventId], RetryOf(env, e), texts.0);
    assert RejectedTx(env, batch, b, 0) == ParkTx([e.eventId], texts.1);
    assert answer.rejected == [a, b];
  }

  lemma RefusalReply(env: Env, w: World, e: Event, todo: seq<Tx>)
    requires PhaseOf(w, 1) == Posting([Claim(0, e, 0)], 0) && todo != []
    requires OutcomeTxs(env, [Claim(0, e, 0)], TwiceRefused(e.eventId), 0) == todo
    ensures Next(env, w, ReplyStep(1, TwiceRefused(e.eventId), 0)) == w.(drains := w.drains[1 := Settling(0, todo)])
  {
    assert AckedIds(TwiceRefused(e.eventId)) == [];
    assert Truthful(w, TwiceRefused(e.eventId));
  }

  lemma TwoRefusalCommits(env: Env, w: World, r: Row, at: int, text: string, park: Tx)
    requires w.table.rows == [r]
    requires PhaseOf(w, 1) == Settling(0, [AckTx([]), RescheduleTx([r.event.eventId], at, text), park])
    ensures
      var v := Run(env, w, [CommitStep(1), CommitStep(1)]);
      && v.table.rows == [ChangeRow(r, ToPending(at, text))] && v.now == w.now
      && v.drains == w.drains[1 := Settling(0, [park])]
  {
    var again := RescheduleTx([r.event.eventId], at, text);
    UpdateNone([r], ToAcked);
    assert IdSet([]) == {};
    SingletonIds(r.event.eventId);
    RunTwo(env, w, CommitStep(1), CommitStep(1));
    assert [AckTx([]), again, park][1..] == [again, park];
    assert [again, park][1..] == [park];
    assert Next(env, w, CommitStep(1)).drains == w.drains[1 := Settling(0, [again, park])];
  }

  lemma ClaimedMeanwhile(env: Env, w: World, r: Row, at: int, text: string)
    requires w.table.rows == [r] && Due(r, at) && PhaseOf(w, 2) == Idle
    requires PhaseOf(w, 1) == Settling(0, [ParkTx([r.event.eventId], text)])
    ensures
      var v := Run(env, w, [Tick(at), ClaimStep(2, 1), CommitStep(1)]);
      && |v.table.rows| == 1 && v.table.rows[0].event == r.event && v.table.rows[0].status == DeadLetter
      && PhaseOf(v, 2) == Posting([Claim(r.serial, r.event, r.attempts)], at)
  {
    hide Due, Run, ClaimedBatch, ClaimRows;
    ClaimOne(env, Next(env, w, Tick(at)), 2, r);
    SingletonIds(r.event.eventId);
    RunThree(env, w, Tick(at), ClaimStep(2, 1), CommitStep(1));
  }

  lemma RefusedAndClaimed(env: Env, w: World, e: Event, r: Row)
    requires e.eventId != "" && w.table.rows == [r] && w.now == 0 && w.drains == map[1 := Posting([Claim(0, e, 0)], 0)]
    requires r.serial == 0 && r.event == e && r.attempts == 1
    ensures
      var v := Run(env, Next(env, w, ReplyStep(1, TwiceRefused(e.eventId), 0)), RefusedSteps(env, e));
      && |v.table.rows| == 1 && v.table.rows[0].event == e && v.table.rows[0].status == DeadLetter
      && PhaseOf(v, 2) == Posting([Claim(0, e, 1)], RetryOf(env, e))
  {
    var at := RetryOf(env, e);
    var texts := TwiceRefusedTxs(env, e);
    var park := ParkTx([e.eventId], texts.1);
    RefusalReply(env, w, e, [AckTx([]), RescheduleTx([e.eventId], at, texts.0), park]);
    var u := Next(env, w, ReplyStep(1, TwiceRefused(e.eventId), 0));
    TwoRefusalCommits(env, u, r, at, texts.0, park);
    var v := Run(env, u, [CommitStep(1), CommitStep(1)]);
    ClaimedMeanwhile(env, v, ChangeRow(r, ToPending(at, texts.0)), at, texts.1);
    RunAppend(env, u, [CommitStep(1), CommitStep(1)], [Tick(at), ClaimStep(2, 1), CommitStep(1)]);
  }

  lemma ConsistentThough(id: EventId, other: EventId)
    ensures ConsistentAbout(AckedIds(TwiceRefused(id)), TwiceRefused(id).rejected, other)
  {
    assert AckedIds(TwiceRefused(id)) == [];
  }

  /** The first three parts of the run. */
  function RefusedStart(env: Env, e: Event): seq<Step>
  {
    [EnqueueStep(e), ClaimStep(1, 1)] + [ReplyStep(1, TwiceRefused(e.eventId), 0)] + RefusedSteps(env, e)
  }

  /** That an answer contradicts itself about no id does not suffice: one that refuses an id for now and
      then for good leaves the row to other drains in between, and a `dead_letter` row becomes `acked`. */
  lemma RefusedTwiceOverwrites(env: Env, e: Event)
    requires e.eventId != ""
    ensures forall id :: ConsistentAbout(AckedIds(TwiceRefused(e.eventId)), TwiceRefused(e.eventId).rejected, id)
    ensures
      var parked := Run(env, Start, RefusedStart(env, e)).table.rows;
      |parked| == 1 && parked[0].event == e && parked[0].status == DeadLetter
    ensures
      var after := Run(env, Start, RefusedStart(env, e) + SlowDrainMiddle(e, RetryOf(env, e))).table.rows;
      |after| == 1 && after[0].event == e && after[0].status == Acked
  {
    forall id ensures ConsistentAbout(AckedIds(TwiceRefused(e.eventId)), TwiceRefused(e.eventId).rejected, id) {
      ConsistentThough(e.eventId, id);
    }
    var first, reply := [EnqueueStep(e), ClaimStep(1, 1)], ReplyStep(1, TwiceRefused(e.eventId), 0);
    var r := FirstClaim(env, e);
    RefusedAndClaimed(env, Run(env, Start, first), e, r);
    RunAppend(env, Start, first, [reply]);
    RunOne(env, Run(env, Start, first), reply);
    RunAppend(env, Start, first + [reply], RefusedSteps(env, e));
    var v := Run(env, Start, RefusedStart(env, e));
    assert v.table.rows == [v.table.rows[0]];
    SecondUploads(env, v, e, v.table.rows[0], RetryOf(env, e));
    RunAppend(env, Start, RefusedStart(env, e), SlowDrainMiddle(e, RetryOf(env, e)));
  }

  lemma RefusedStepsWithin(env: Env, w: World, e: Event, r: Row)
    requires e.eventId != "" && w.table.rows == [r] && w.now == 0 && w.drains == map[1 := Posting([Claim(0, e, 0)], 0)]
    requires r.serial == 0 && r.event == e && r.attempts == 1 && 0 <= RetryOf(env, e) < LEASE
    ensures RunWithin(env, LEASE, Next(env, w, ReplyStep(1, TwiceRefused(e.eventId), 0)), RefusedSteps(env, e))
  {
    var at := RetryOf(env, e);
    var texts := TwiceRefusedTxs(env, e);
    var park := ParkTx([e.eventId], texts.1);
    RefusalReply(env, w, e, [AckTx([]), RescheduleTx([e.eventId], at, texts.0), park]);
    var u := Next(env, w, ReplyStep(1, TwiceRefused(e.eventId), 0));
    TwoRefusalCommits(env, u, r, at, texts.0, park);
    WithinTwo(env, LEASE, u, CommitStep(1), CommitStep(1));
    WithinThree(env, LEASE, Run(env, u, [CommitStep(1), CommitStep(1)]), Tick(at), ClaimStep(2, 1), CommitStep(1));
    WithinJoined(env, LEASE, u, [CommitStep(1), CommitStep(1)], [Tick(at), ClaimStep(2, 1), CommitStep(1)]);
  }

  /** While the retry delay is shorter than the lease, that one answer is the only step of the run that is
      not disciplined. */
  lemma OnlyTheAnswerIsToBlame(env: Env, e: Event)
    requires e.eventId != "" && 0 <= RetryOf(env, e) < LEASE
    ensures DisciplinedRun(env, [EnqueueStep(e), ClaimStep(1, 1)])
    ensures
      var w := Run(env, Start, [EnqueueStep(e), ClaimStep(1, 1)]);
      && w.drains == map[1 := Posting([Claim(0, e, 0)], 0)]
      && WithinBatch([Claim(0, e, 0)], TwiceRefused(e.eventId))
      && RunWithin(env, LEASE, Next(env, w, ReplyStep(1, TwiceRefused(e.eventId), 0)),
                   RefusedSteps(env, e) + SlowDrainMiddle(e, RetryOf(env, e)))
  {
    var r := FirstClaim(env, e);
    var w := Run(env, Start, [EnqueueStep(e), ClaimStep(1, 1)]);
    FirstWithin(env, LEASE, Start, e);
    RefusedStepsWithin(env, w, e, r);
    RefusedAndClaimed(env, w, e, r);
    assert BatchIds([Claim(0, e, 0)])[0] == e.eventId;
    var u := Next(env, w, ReplyStep(1, TwiceRefused(e.eventId), 0));
    SlowMiddleWithin(env, LEASE, Run(env, u, RefusedSteps(env, e)), e, RetryOf(env, e));
    WithinJoined(env, LEASE, u, RefusedSteps(env, e), SlowDrainMiddle(e, RetryOf(env, e)));
  }
}
