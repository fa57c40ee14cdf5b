/** One bounded drain pass, and the run of the protocol it performs. */
module DrainPass {
  import opened Spool
  import opened Drain
  import opened Protocol
  import opened SpoolAge

  datatype Reply = Answered(answer: Answer) | Failed(error: TransportError)

  /** What the clock and the network do during one round of the loop. */
  datatype Turn = Turn(claimAt: int, reply: Reply, settleAt: int)

  datatype Bounds = Bounds(retentionDays: nat, maxPending: nat, maxBatches: nat)

  const RECLAIM_SECONDS := 120

  function ReplyTxs(env: Env, batch: seq<Claim>, t: Turn): seq<Tx>
  {
    match t.reply
    case Answered(answer) => OutcomeTxs(env, batch, answer, t.settleAt)
    case Failed(error) => ErrorTxs(env, batch, error, t.settleAt)
  }

  predicate Stops(t: Turn)
  {
    t.reply.Failed? && !Retryable(t.reply.error)
  }

  /** The rows after one round. */
  function AfterRound(env: Env, rows: seq<Row>, t: Turn): seq<Row>
  {
    ApplyTxs(ClaimRows(rows, t.claimAt, env.config.batchSize),
             ReplyTxs(env, ClaimedBatch(rows, t.claimAt, env.config.batchSize), t))
  }

  /** The rows after the loop has taken the given turns. */
  function Rounds(env: Env, rows: seq<Row>, turns: seq<Turn>): seq<Row>
    decreases |turns|
  {
    if turns == [] then rows
    else
      var t := turns[0];
      var batch := ClaimedBatch(rows, t.claimAt, env.config.batchSize);
      if batch == [] then rows
      else
        var after := AfterRound(env, rows, t);
        if Stops(t) then after else Rounds(env, after, turns[1..])
  }

  /** The counters after one reply. */
  function Counted(env: Env, batch: seq<Claim>, t: Turn, r: Report): Report
  {
    var txs := ReplyTxs(env, batch, t);
    match t.reply
    case Answered(a) =>
      Report(r.accepted + |a.accepted|, r.duplicates + |a.duplicates|, r.rejectedPermanent + PermanentCount(a.rejected),
             r.rescheduled + TotalRescheduled(txs), r.deadLettered + TotalParked(txs))
    case Failed(_) =>
      r.(rescheduled := r.rescheduled + TotalRescheduled(txs), deadLettered := r.deadLettered + TotalParked(txs))
  }

  /** What a pass reports of its rounds; `spoolEmpty` is the reason given when nothing was due. */
  datatype PassReport = PassReport(batches: nat, counts: Report, spoolEmpty: bool)

  const NO_REPORT := PassReport(0, Report(0, 0, 0, 0, 0), false)

  function CountRound(env: Env, batch: seq<Claim>, t: Turn, r: PassReport): PassReport
  {
    r.(batches := r.batches + 1, counts := Counted(env, batch, t, r.counts))
  }

  function RoundsReport(env: Env, rows: seq<Row>, turns: seq<Turn>, r: PassReport): PassReport
    decreases |turns|
  {
    if turns == [] then r
    else
      var t := turns[0];
      var batch := ClaimedBatch(rows, t.claimAt, env.config.batchSize);
      if batch == [] then r.(spoolEmpty := true)
      else
        var counted := CountRound(env, batch, t, r);
        if Stops(t) then counted else RoundsReport(env, AfterRound(env, rows, t), turns[1..], counted)
  }

  function Upkeep(rows: seq<Row>, b: Bounds, now: int): seq<Row>
  {
    var reclaimed := ReclaimRows(rows, ReclaimCutoff(now, RECLAIM_SECONDS));
    var pruned := if b.retentionDays == 0 then reclaimed else PruneRows(reclaimed, PruneCutoff(now, b.retentionDays));
    CapRows(pruned, b.maxPending)
  }

  function Limit(b: Bounds): nat
  {
    if b.maxBatches >= 1 then b.maxBatches else 1
  }

  /** The reply to one batch, applied. */
  method SettleBatch(env: Env, store: Store, batch: seq<Claim>, turn: Turn, report: Report) returns (after: Report)
    requires store.Valid()
    modifies store`rows
    ensures store.Valid()
    ensures store.rows == ApplyTxs(old(store.rows), ReplyTxs(env, batch, turn))
    ensures after == Counted(env, batch, turn, report)
  {
    hide ApplyTxs, OutcomeTxs, ErrorTxs, TotalParked, TotalRescheduled, PermanentCount;
    match turn.reply {
      case Answered(answer) =>
        after := ApplyOutcome(env, store, batch, answer, turn.settleAt, report);
      case Failed(error) =>
        after := HandleTransportError(env, store, batch, error, turn.settleAt, report);
    }
  }

  lemma RoundUnfolds(env: Env, rows: seq<Row>, turns: seq<Turn>)
    requires turns != []
    ensures Rounds(env, rows, turns)
         == if ClaimedBatch(rows, turns[0].claimAt, env.config.batchSize) == [] then rows
            else if Stops(turns[0]) then AfterRound(env, rows, turns[0])
            else Rounds(env, AfterRound(env, rows, turns[0]), turns[1..])
  {
  }

  lemma ReportUnfolds(env: Env, rows: seq<Row>, turns: seq<Turn>, r: PassReport, batch: seq<Claim>)
    requires turns != [] && batch == ClaimedBatch(rows, turns[0].claimAt, env.config.batchSize)
    ensures RoundsReport(env, rows, turns, r)
         == if batch == [] then r.(spoolEmpty := true)
            else if Stops(turns[0]) then CountRound(env, batch, turns[0], r)
            else RoundsReport(env, AfterRound(env, rows, turns[0]), turns[1..], CountRound(env, batch, turns[0], r))
  {
  }

  lemma NothingClaimed(rows: seq<Row>, now: int, limit: nat)
    requires ClaimedBatch(rows, now, limit) == []
    ensures ClaimRows(rows, now, limit) == rows
  {
    assert |ClaimedBatch(rows, now, limit)| == |Oldest(DueRows(rows, now), limit)|;
    assert IdSet(RowIds(Oldest(DueRows(rows, now), limit))) == {};
    UpdateNone(rows, ToInflight(now));
  }

  /** What the upkeep at the head of a pass reports. */
  datatype UpkeepReport = UpkeepReport(reclaimed: nat, pruned: nat, parked: nat)

  method RunUpkeep(store: Store, b: Bounds, now: int) returns (report: UpkeepReport)
    requires store.Valid()
    modifies store`rows
    ensures store.Valid() && store.rows == Upkeep(old(store.rows), b, now)
    ensures report.pruned == |old(store.rows)| - |store.rows|
    ensures report.reclaimed == StaleCount(old(store.rows), ReclaimCutoff(now, RECLAIM_SECONDS))
    ensures b.maxPending != 0 ==> |PendingRows(store.rows)| <= b.maxPending
  {
    var reclaimed := store.ReclaimStaleInflight(RECLAIM_SECONDS, now);
    var pruned := store.PruneAcked(b.retentionDays, now);
    if b.maxPending != 0 {
      CapBoundsPending(store.Contents(), b.maxPending);
    }
    var parked := store.EnforcePendingCap(b.maxPending);
    report := UpkeepReport(reclaimed, pruned, parked);
  }

  /** `turns` scripts the network; a pass whose script runs out has been stopped from outside. */
  method DrainOnce(env: Env, store: Store, b: Bounds, start: int, turns: seq<Turn>)
    returns (report: PassReport, upkeep: UpkeepReport)
    requires store.Valid()
    modifies store`rows
    ensures store.Valid()
    ensures var script := if |turns| <= Limit(b) then turns else turns[..Limit(b)];
            && store.rows == Rounds(env, Upkeep(old(store.rows), b, start), script)
            && report == RoundsReport(env, Upkeep(old(store.rows), b, start), script, NO_REPORT)
    ensures report.batches <= Limit(b)
  {
    report := NO_REPORT;
    upkeep := RunUpkeep(store, b, start);
    var limit := if b.maxBatches >= 1 then b.maxBatches else 1;
    var script := if |turns| <= limit then turns else turns[..limit];
    ghost var clean := store.rows;
    var i := 0;
    while i < |script|
      invariant 0 <= i <= |script|
      invariant store.Valid() && report.batches == i
      invariant Rounds(env, store.rows, script[i..]) == Rounds(env, clean, script)
      invariant RoundsReport(env, store.rows, script[i..], report) == RoundsReport(env, clean, script, NO_REPORT)
    {
      var turn := script[i];
      DropNext(script, i);
      RoundUnfolds(env, store.rows, script[i..]);
      ghost var rows := store.rows;
      var batch := store.ClaimBatch(env.config.batchSize, turn.claimAt);
      ReportUnfolds(env, rows, script[i..], report, batch);
      if batch == [] {
        NothingClaimed(rows, turn.claimAt, env.config.batchSize);
        report := report.(spoolEmpty := true);
        return;
      }
      var counts := SettleBatch(env, store, batch, turn, report.counts);
      i, report := i + 1, report.(batches := report.batches + 1, counts := counts);
      if turn.reply.Failed? && !Retryable(turn.reply.error) {
        return;
      }
    }
  }

  lemma DropNext<T>(s: seq<T>, i: nat)
    requires i < |s|
    ensures s[i..] != [] && s[i..][0] == s[i] && s[i..][1..] == s[i + 1..]
  {
  }

  /** A failed upload counts every event of its batch once. */
  lemma FailureCountsBatch(env: Env, batch: seq<Claim>, t: Turn, r: Report)
    requires t.reply.Failed?
    ensures var c := Counted(env, batch, t, r);
            c.rescheduled + c.deadLettered == r.rescheduled + r.deadLettered + |batch|
  {
    SplitCounts(env, t.reply.error, batch);
    var retry, park := RetryIds(env, t.reply.error, batch), ParkIds(env, t.reply.error, batch);
    ErrorTotals([], RetryTxs(env, retry, t.reply.error.message, t.settleAt), park, t.reply.error.message);
    if retry != [] {
      SingleTx([], RetryTxs(env, retry, t.reply.error.message, t.settleAt)[0]);
    }
  }

  lemma {:induction false} SplitCounts(env: Env, error: TransportError, batch: seq<Claim>)
    ensures |RetryIds(env, error, batch)| + |ParkIds(env, error, batch)| == |batch|
  {
    if batch != [] {
      SplitCounts(env, error, batch[..|batch| - 1]);
    }
  }

  // ---- a pass is a run of the protocol ----

  lemma {:induction false} ApplyTxsHead(rows: seq<Row>, todo: seq<Tx>)
    requires todo != []
    ensures ApplyTxs(rows, todo) == ApplyTxs(ApplyTx(rows, todo[0]), todo[1..])
  {
    if |todo| == 1 {
      assert todo[..0] == [] && todo[1..] == [];
    } else {
      ApplyTxsHead(rows, todo[..|todo| - 1]);
      assert todo[..|todo| - 1][1..] == todo[1..][..|todo[1..]| - 1];
    }
  }

  function Commits(d: nat, n: nat): seq<Step>
  {
    if n == 0 then [] else [CommitStep(d)] + Commits(d, n - 1)
  }

  /** Committing everything a drain has left to do runs the whole list. */
  lemma {:induction false} CommitAll(env: Env, w: World, d: nat, since: int, todo: seq<Tx>)
    requires PhaseOf(w, d) == Settle(since, todo)
    ensures Run(env, w, Commits(d, |todo|)).table == w.table.(rows := ApplyTxs(w.table.rows, todo))
    ensures PhaseOf(Run(env, w, Commits(d, |todo|)), d) == Idle
    ensures Run(env, w, Commits(d, |todo|)).gateway == w.gateway
    decreases |todo|
  {
    if todo != [] {
      var v := Next(env, w, CommitStep(d));
      CommitAll(env, v, d, since, todo[1..]);
      RunAppend(env, w, [CommitStep(d)], Commits(d, |todo| - 1));
      RunOne(env, w, CommitStep(d));
      ApplyTxsHead(w.table.rows, todo);
    }
  }

  /** What the gateway has stored by the time it answers. */
  function StoredBy(t: Turn): set<EventId>
  {
    match t.reply
    case Answered(answer) => IdSet(AckedIds(answer))
    case Failed(_) => {}
  }

  /** The steps of one round: a truthful gateway stores the ids of its answer before it answers. */
  function RoundSteps(env: Env, d: nat, batch: seq<Claim>, t: Turn): seq<Step>
  {
    [Tick(t.claimAt), ClaimStep(d, env.config.batchSize)]
    + [GatewayStoresStep(StoredBy(t)), ReplyStepOf(d, t)]
    + Commits(d, |ReplyTxs(env, batch, t)|)
  }

  lemma ClaimAt(env: Env, w: World, d: nat, t: Turn)
    requires PhaseOf(w, d) == Idle
    requires ClaimedBatch(w.table.rows, t.claimAt, env.config.batchSize) != []
    ensures
      var v := Next(env, Next(env, w, Tick(t.claimAt)), ClaimStep(d, env.config.batchSize));
      && PhaseOf(v, d) == Posting(ClaimedBatch(w.table.rows, t.claimAt, env.config.batchSize), t.claimAt)
      && v.table.rows == ClaimRows(w.table.rows, t.claimAt, env.config.batchSize)
      && v.gateway == w.gateway
  {
  }

  function ReplyStepOf(d: nat, t: Turn): Step
  {
    match t.reply
    case Answered(answer) => ReplyStep(d, answer, t.settleAt)
    case Failed(error) => ErrorStep(d, error, t.settleAt)
  }

  lemma ReplyTo(env: Env, w: World, d: nat, batch: seq<Claim>, since: int, t: Turn)
    requires PhaseOf(w, d) == Posting(batch, since)
    requires t.reply.Answered? ==> IdSet(AckedIds(t.reply.answer)) <= w.gateway
    ensures
      var v := Next(env, w, ReplyStepOf(d, t));
      PhaseOf(v, d) == Settle(since, ReplyTxs(env, batch, t)) && v.table == w.table && v.gateway == w.gateway
  {
    match t.reply
    case Answered(answer) => AnswerTo(env, w, d, batch, since, answer, t.settleAt);
    case Failed(error) => ErrorTo(env, w, d, batch, since, error, t.settleAt);
  }

  lemma AnswerTo(env: Env, w: World, d: nat, batch: seq<Claim>, since: int, answer: Answer, at: int)
    requires PhaseOf(w, d) == Posting(batch, since) && Truthful(w, answer)
    ensures
      var v := Next(env, w, ReplyStep(d, answer, at));
      PhaseOf(v, d) == Settle(since, OutcomeTxs(env, batch, answer, at)) && v.table == w.table && v.gateway == w.gateway
  {
  }

  lemma ErrorTo(env: Env, w: World, d: nat, batch: seq<Claim>, since: int, error: TransportError, at: int)
    requires PhaseOf(w, d) == Posting(batch, since)
    ensures
      var v := Next(env, w, ErrorStep(d, error, at));
      PhaseOf(v, d) == Settle(since, ErrorTxs(env, batch, error, at)) && v.table == w.table && v.gateway == w.gateway
  {
  }

  /** One round of the loop, told the truth by the gateway, is a run of the protocol. */
  lemma RoundIsRun(env: Env, w: World, d: nat, t: Turn)
    requires PhaseOf(w, d) == Idle
    requires ClaimedBatch(w.table.rows, t.claimAt, env.config.batchSize) != []
    ensures
      var batch := ClaimedBatch(w.table.rows, t.claimAt, env.config.batchSize);
      var v := Run(env, w, RoundSteps(env, d, batch, t));
      && v.table.rows == ApplyTxs(ClaimRows(w.table.rows, t.claimAt, env.config.batchSize), ReplyTxs(env, batch, t))
      && PhaseOf(v, d) == Idle && v.gateway == w.gateway + StoredBy(t)
  {
    hide ClaimedBatch, ClaimRows, ReplyTxs, ApplyTxs, Run, Commits;
    var batch := ClaimedBatch(w.table.rows, t.claimAt, env.config.batchSize);
    var a, b := Tick(t.claimAt), ClaimStep(d, env.config.batchSize);
    var claimed := Next(env, Next(env, w, a), b);
    ClaimAt(env, w, d, t);
    RunTwo(env, w, a, b);
    var stored := Next(env, claimed, GatewayStoresStep(StoredBy(t)));
    ReplyTo(env, stored, d, batch, t.claimAt, t);
    RunTwo(env, claimed, GatewayStoresStep(StoredBy(t)), ReplyStepOf(d, t));
    RunAppend(env, w, [a, b], [GatewayStoresStep(StoredBy(t)), ReplyStepOf(d, t)]);
    CommitAll(env, Next(env, stored, ReplyStepOf(d, t)), d, t.claimAt, ReplyTxs(env, batch, t));
    RunAppend(env, w, [a, b] + [GatewayStoresStep(StoredBy(t)), ReplyStepOf(d, t)],
              Commits(d, |ReplyTxs(env, batch, t)|));
  }

  /** Every pass of the loop is a run of the protocol by one drain, so what holds of all runs holds
      of what `DrainOnce` does to the spool. */
  lemma {:induction false} RoundsAreRun(env: Env, w: World, d: nat, turns: seq<Turn>) returns (steps: seq<Step>)
    requires PhaseOf(w, d) == Idle
    ensures Run(env, w, steps).table.rows == Rounds(env, w.table.rows, turns)
    ensures PhaseOf(Run(env, w, steps), d) == Idle && w.gateway <= Run(env, w, steps).gateway
    decreases |turns|
  {
    if turns == [] {
      steps := [];
      return;
    }
    var t := turns[0];
    var batch := ClaimedBatch(w.table.rows, t.claimAt, env.config.batchSize);
    if batch == [] {
      steps := [];
      return;
    }
    steps := RoundSteps(env, d, batch, t);
    RoundIsRun(env, w, d, t);
    if !Stops(t) {
      var v := Run(env, w, steps);
      var rest := RoundsAreRun(env, v, d, turns[1..]);
      RunAppend(env, w, steps, rest);
      steps := steps + rest;
    }
  }

  /** Upkeep at the head of a pass is three protocol steps. */
  lemma UpkeepIsRun(env: Env, w: World, b: Bounds)
    ensures Run(env, w, [ReclaimStep(RECLAIM_SECONDS), PruneStep(b.retentionDays), CapStep(b.maxPending)]).table.rows
         == Upkeep(w.table.rows, b, w.now)
  {
    hide ReclaimRows, PruneRows, CapRows, Run;
    RunThree(env, w, ReclaimStep(RECLAIM_SECONDS), PruneStep(b.retentionDays), CapStep(b.maxPending));
  }

  /** A whole pass, upkeep and rounds, is a run of the protocol by one drain. */
  lemma PassIsRun(env: Env, w: World, d: nat, b: Bounds, start: int, turns: seq<Turn>) returns (steps: seq<Step>)
    requires PhaseOf(w, d) == Idle
    ensures Run(env, w, steps).table.rows == Rounds(env, Upkeep(w.table.rows, b, start), turns)
    ensures PhaseOf(Run(env, w, steps), d) == Idle && w.gateway <= Run(env, w, steps).gateway
  {
    var tick := [Tick(start)];
    var upkeep := [ReclaimStep(RECLAIM_SECONDS), PruneStep(b.retentionDays), CapStep(b.maxPending)];
    RunOne(env, w, Tick(start));
    var u := Run(env, w, tick);
    UpkeepIsRun(env, u, b);
    UpkeepTouchesTable(env, u, b);
    var v := Run(env, u, upkeep);
    var rest := RoundsAreRun(env, v, d, turns);
    RunAppend(env, w, tick, upkeep);
    RunAppend(env, w, tick + upkeep, rest);
    steps := tick + upkeep + rest;
  }

  lemma UpkeepTouchesTable(env: Env, w: World, b: Bounds)
    ensures
      var v := Run(env, w, [ReclaimStep(RECLAIM_SECONDS), PruneStep(b.retentionDays), CapStep(b.maxPending)]);
      v.drains == w.drains && v.gateway == w.gateway
  {
    RunThree(env, w, ReclaimStep(RECLAIM_SECONDS), PruneStep(b.retentionDays), CapStep(b.maxPending));
  }
}
