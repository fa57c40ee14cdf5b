/** The upload protocol as a state machine: capture hooks and watchers insert events, any number of
    drains upload them, the gateway stores what it receives, and anything may crash in between.
    One step is one committed transaction, one network event, or one movement of the clock. */
module Protocol {
  import opened Spool
  import opened Drain
  import opened Seqs

  /** What one drain is doing. `since` is the clock reading its claim used as lease start. */
  datatype Phase =
    | Idle
    | Posting(batch: seq<Claim>, since: int)
    | Settling(since: int, todo: seq<Tx>)

  /** `committed`, `claims` and `retries` record history: every event id ever inserted, every
      (row, attempts) pair ever claimed, and the pairs a transport error sent back for retry. */
  datatype World = World(
    now: int,
    table: Table,
    drains: map<nat, Phase>,
    gateway: set<EventId>,
    committed: set<EventId>,
    claims: set<(nat, nat)>,
    retries: seq<(nat, nat)>)

  datatype Step =
    | Tick(now: int)
    | EnqueueStep(event: Event)
    | EnqueueManyStep(events: seq<Event>)
    | ReclaimStep(olderThanSeconds: int)
    | PruneStep(retentionDays: nat)
    | CapStep(maxPending: nat)
    | ClaimStep(drain: nat, limit: nat)
    | GatewayStoresStep(ids: set<EventId>)
    | ReplyStep(drain: nat, answer: Answer, at: int)
    | ErrorStep(drain: nat, error: TransportError, at: int)
    | CommitStep(drain: nat)
    | FailedCommitStep(drain: nat)
    | CrashStep(drain: nat)

  const Start := World(0, Table([], 0), map[], {}, {}, {}, [])

  function PhaseOf(w: World, d: nat): Phase
  {
    if d in w.drains then w.drains[d] else Idle
  }

  function SetRows(w: World, rows: seq<Row>): World
  {
    w.(table := w.table.(rows := rows))
  }

  function Settle(since: int, todo: seq<Tx>): Phase
  {
    if todo == [] then Idle else Settling(since, todo)
  }

  function ClaimPairs(batch: seq<Claim>): set<(nat, nat)>
  {
    set c | c in batch :: (c.serial, c.attempts)
  }

  /** The claims a transport error sends back for another attempt. */
  function RetriedPairs(env: Env, error: TransportError, batch: seq<Claim>): seq<(nat, nat)>
  {
    if batch == [] then []
    else
      var front := RetriedPairs(env, error, batch[..|batch| - 1]);
      var last := batch[|batch| - 1];
      if Parks(env, error, last) then front else front + [(last.serial, last.attempts)]
  }

  /** The gateway reports as stored only ids it holds. */
  predicate Truthful(w: World, answer: Answer)
  {
    IdSet(AckedIds(answer)) <= w.gateway
  }

  /** The effect of a step; a step that is not enabled changes nothing. */
  function Next(env: Env, w: World, s: Step): World
  {
    match s
    case Tick(now) => w.(now := now)
    case EnqueueStep(e) =>
      w.(table := InsertEvent(w.table, e, w.now), committed := w.committed + {e.eventId})
    case EnqueueManyStep(es) =>
      w.(table := InsertAll(w.table, es, w.now), committed := w.committed + EventIds(es))
    case ReclaimStep(older) => SetRows(w, ReclaimRows(w.table.rows, ReclaimCutoff(w.now, older)))
    case PruneStep(days) =>
      if days == 0 then w else SetRows(w, PruneRows(w.table.rows, PruneCutoff(w.now, days)))
    case CapStep(maxPending) => SetRows(w, CapRows(w.table.rows, maxPending))
    case ClaimStep(d, limit) =>
      var batch := ClaimedBatch(w.table.rows, w.now, limit);
      if !PhaseOf(w, d).Idle? || batch == [] then w
      else
        SetRows(w, ClaimRows(w.table.rows, w.now, limit))
          .(drains := w.drains[d := Posting(batch, w.now)], claims := w.claims + ClaimPairs(batch))
    case GatewayStoresStep(ids) => w.(gateway := w.gateway + ids)
    case ReplyStep(d, answer, at) =>
      (match PhaseOf(w, d)
       case Posting(batch, since) =>
         if !Truthful(w, answer) then w
         else w.(drains := w.drains[d := Settle(since, OutcomeTxs(env, batch, answer, at))])
       case _ => w)
    case ErrorStep(d, error, at) =>
      (match PhaseOf(w, d)
       case Posting(batch, since) =>
         w.(drains := w.drains[d := Settle(since, ErrorTxs(env, batch, error, at))],
            retries := w.retries + RetriedPairs(env, error, batch))
       case _ => w)
    case CommitStep(d) =>
      (match PhaseOf(w, d)
       case Settling(since, todo) =>
         if todo == [] then w
         else SetRows(w, ApplyTx(w.table.rows, todo[0])).(drains := w.drains[d := Settle(since, todo[1..])])
       case _ => w)
    case FailedCommitStep(d) =>
      (match PhaseOf(w, d)
       case Settling(since, todo) =>
         if todo == [] then w else w.(drains := w.drains[d := Settle(since, todo[1..])])
       case _ => w)
    case CrashStep(d) => w.(drains := w.drains[d := Idle])
  }

  function Run(env: Env, w: World, steps: seq<Step>): World
  {
    if steps == [] then w else Next(env, Run(env, w, steps[..|steps| - 1]), steps[|steps| - 1])
  }

  // ---- runs in parts ----

  lemma {:induction false} RunAppend(env: Env, w: World, a: seq<Step>, b: seq<Step>)
    ensures Run(env, w, a + b) == Run(env, Run(env, w, a), b)
  {
    hide Next;
    if b == [] {
      JoinEmpty(a);
    } else {
      SplitLast(a, b);
      RunAppend(env, w, a, b[..|b| - 1]);
    }
  }

  lemma RunOne(env: Env, w: World, s: Step)
    ensures Run(env, w, [s]) == Next(env, w, s)
  {
    assert [s][..0] == [];
  }

  lemma RunTwo(env: Env, w: World, a: Step, b: Step)
    ensures Run(env, w, [a, b]) == Next(env, Next(env, w, a), b)
  {
    RunAppend(env, w, [a], [b]);
    assert [a] + [b] == [a, b];
    RunOne(env, w, a);
    RunOne(env, Next(env, w, a), b);
  }

  lemma RunThree(env: Env, w: World, a: Step, b: Step, c: Step)
    ensures Run(env, w, [a, b, c]) == Next(env, Next(env, Next(env, w, a), b), c)
  {
    RunAppend(env, w, [a, b], [c]);
    assert [a, b] + [c] == [a, b, c];
    RunTwo(env, w, a, b);
    RunOne(env, Next(env, Next(env, w, a), b), c);
  }
}
