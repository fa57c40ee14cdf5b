/** Transport errors send one row back for retry a bounded number of times, in every interleaving. */
module ProtocolRetries {
  import opened Backoff
  import opened Spool
  import opened Drain
  import opened Protocol
  import opened ProtocolSafety

  type Pair = (nat, nat)

  function Posted(p: Phase): seq<Claim>
  {
    match p
    case Posting(batch, _) => batch
    case _ => []
  }

  ghost predicate DistinctPairs(pairs: seq<Pair>)
  {
    forall i, j :: 0 <= i < j < |pairs| ==> pairs[i] != pairs[j]
  }

  ghost predicate DistinctSerials(batch: seq<Claim>)
  {
    forall i, j :: 0 <= i < j < |batch| ==> batch[i].serial != batch[j].serial
  }

  /** Each claim ever made used an attempts value its row has left behind. */
  ghost predicate ClaimsSpent(w: World)
  {
    && (forall p :: p in w.claims ==> p.0 < w.table.nextSerial)
    && (forall p, r :: p in w.claims && r in w.table.rows && r.serial == p.0 ==> p.1 < r.attempts)
  }

  /** The batches being posted are claims, and no two drains share a pair. */
  ghost predicate BatchesApart(drains: map<nat, Phase>, claims: set<Pair>)
  {
    && (forall d :: d in drains ==>
          DistinctSerials(Posted(drains[d])) && ClaimPairs(Posted(drains[d])) <= claims)
    && (forall d, e :: d in drains && e in drains && d != e ==>
          ClaimPairs(Posted(drains[d])) !! ClaimPairs(Posted(drains[e])))
  }

  /** The retried pairs are distinct claims within the limit, none of them still being posted. */
  ghost predicate RetriesLogged(env: Env, retries: seq<Pair>, claims: set<Pair>, drains: map<nat, Phase>)
  {
    && DistinctPairs(retries)
    && (forall k :: 0 <= k < |retries| ==>
          retries[k] in claims && (retries[k].1 + 1) % U32_LIMIT < env.config.maxAttempts)
    && (forall d, k :: d in drains && 0 <= k < |retries| ==> retries[k] !in ClaimPairs(Posted(drains[d])))
  }

  ghost predicate Counted(env: Env, w: World)
  {
    && WellFormed(w.table)
    && ClaimsSpent(w)
    && BatchesApart(w.drains, w.claims)
    && RetriesLogged(env, w.retries, w.claims, w.drains)
  }

  // ---- the log is what the drain writes ----

  /** The claims of a failed batch that are tried again. */
  function Retried(env: Env, error: TransportError, batch: seq<Claim>): seq<Claim>
  {
    if batch == [] then []
    else
      var front := Retried(env, error, batch[..|batch| - 1]);
      var last := batch[|batch| - 1];
      if Parks(env, error, last) then front else front + [last]
  }

  function PairsOf(claims: seq<Claim>): seq<Pair>
  {
    seq(|claims|, i requires 0 <= i < |claims| => (claims[i].serial, claims[i].attempts))
  }

  /** The ids a list of transactions reschedules, in order. */
  function Rescheduled(txs: seq<Tx>): seq<EventId>
  {
    if txs == [] then []
    else Rescheduled(txs[..|txs| - 1]) + (match txs[|txs| - 1] case RescheduleTx(ids, _, _) => ids case _ => [])
  }

  lemma {:induction false} RetriedClaims(env: Env, error: TransportError, batch: seq<Claim>)
    ensures RetriedPairs(env, error, batch) == PairsOf(Retried(env, error, batch))
    ensures RetryIds(env, error, batch) == BatchIds(Retried(env, error, batch))
    ensures forall c :: c in Retried(env, error, batch) <==> c in batch && !Parks(env, error, c)
  {
    if batch != [] {
      RetriedClaims(env, error, batch[..|batch| - 1]);
      assert batch == batch[..|batch| - 1] + [batch[|batch| - 1]];
    }
  }

  lemma RescheduledByError(env: Env, error: TransportError, batch: seq<Claim>, now: int)
    ensures Rescheduled(ErrorTxs(env, batch, error, now)) == RetryIds(env, error, batch)
  {
    var retry, park := RetryIds(env, error, batch), ParkIds(env, error, batch);
    var a, b := RetryTxs(env, retry, error.message, now), ParkTxs(park, error.message);
    assert Rescheduled(a) == retry by {
      if a != [] { assert a[..0] == []; }
    }
    if b != [] {
      assert (a + b)[..|a|] == a && (a + b)[|a|] == b[0];
    } else {
      assert a + b == a;
    }
  }

  /** The pairs a failed upload logs are, in order, the claims whose events its transactions reschedule: those
      of the batch that are not parked. */
  lemma LoggedAreRescheduled(env: Env, w: World, d: nat, error: TransportError, at: int)
    requires PhaseOf(w, d).Posting?
    ensures
      var batch := PhaseOf(w, d).batch;
      var claims := Retried(env, error, batch);
      && Next(env, w, ErrorStep(d, error, at)).retries == w.retries + PairsOf(claims)
      && Rescheduled(ErrorTxs(env, batch, error, at)) == BatchIds(claims)
      && forall c :: c in claims <==> c in batch && !Parks(env, error, c)
  {
    hide Retried, RetriedPairs, RetryIds, ErrorTxs, PairsOf, Rescheduled, BatchIds, Parks;
    RetriedClaims(env, error, PhaseOf(w, d).batch);
    RescheduledByError(env, error, PhaseOf(w, d).batch, at);
  }

  // ---- claims take new pairs ----

  lemma NewPairs(w: World, limit: nat)
    requires WellFormed(w.table) && ClaimsSpent(w)
    ensures
      var batch := ClaimedBatch(w.table.rows, w.now, limit);
      && DistinctSerials(batch) && ClaimPairs(batch) !! w.claims
  {
    var rows := w.table.rows;
    var taken := Oldest(DueRows(rows, w.now), limit);
    var batch := ClaimedBatch(rows, w.now, limit);
    DueDistinct(w.table, w.now);
    DueElements(rows, w.now);
    OldestFacts(DueRows(rows, w.now), limit);
    forall i, j | 0 <= i < j < |batch| ensures batch[i].serial != batch[j].serial {
      assert taken[i] in taken && taken[j] in taken;
      var x :| 0 <= x < |rows| && rows[x] == taken[i];
      var y :| 0 <= y < |rows| && rows[y] == taken[j];
      assert x != y;
    }
    forall p | p in ClaimPairs(batch) ensures p !in w.claims {
      var c :| c in batch && p == (c.serial, c.attempts);
      var k :| 0 <= k < |batch| && batch[k] == c;
      assert taken[k] in taken && taken[k].attempts == c.attempts;
    }
  }

  lemma ClaimedRowsLeaveBehind(w: World, limit: nat)
    requires WellFormed(w.table) && ClaimsSpent(w)
    ensures
      var batch := ClaimedBatch(w.table.rows, w.now, limit);
      var v := SetRows(w, ClaimRows(w.table.rows, w.now, limit)).(claims := w.claims + ClaimPairs(batch));
      ClaimsSpent(v)
  {
    var rows := w.table.rows;
    var taken := Oldest(DueRows(rows, w.now), limit);
    var batch := ClaimedBatch(rows, w.now, limit);
    var u := ClaimRows(rows, w.now, limit);
    DueDistinct(w.table, w.now);
    DueElements(rows, w.now);
    OldestFacts(DueRows(rows, w.now), limit);
    forall p | p in ClaimPairs(batch)
      ensures p.0 < w.table.nextSerial
      ensures forall r :: r in u && r.serial == p.0 ==> p.1 < r.attempts
    {
      var c :| c in batch && p == (c.serial, c.attempts);
      var k :| 0 <= k < |batch| && batch[k] == c;
      assert taken[k] in taken;
      var x :| 0 <= x < |rows| && rows[x] == taken[k];
      assert RowIds(taken)[k] == rows[x].event.eventId;
      forall r | r in u && r.serial == p.0 ensures p.1 < r.attempts {
        var y :| 0 <= y < |u| && u[y] == r;
        assert rows[y].serial == rows[x].serial;
        assert x == y;
      }
    }
    forall p, r | p in w.claims && r in u && r.serial == p.0 ensures p.1 < r.attempts {
      var y :| 0 <= y < |u| && u[y] == r;
      assert rows[y] in rows;
    }
  }

  // ---- table changes keep attempts ----

  lemma UpdateKeepsSpent(w: World, ids: set<EventId>, change: Change)
    requires ClaimsSpent(w)
    ensures ClaimsSpent(SetRows(w, Update(w.table.rows, ids, change)))
  {
    var u := Update(w.table.rows, ids, change);
    forall p, r | p in w.claims && r in u && r.serial == p.0 ensures p.1 < r.attempts {
      var y :| 0 <= y < |u| && u[y] == r;
      assert w.table.rows[y] in w.table.rows;
    }
  }

  lemma InsertKeepsSpent(w: World, e: Event)
    requires ClaimsSpent(w)
    ensures ClaimsSpent(w.(table := InsertEvent(w.table, e, w.now)))
    ensures ClaimsSpent(w.(table := InsertEvent(w.table, e, w.now), committed := w.committed + {e.eventId}))
  {
  }

  lemma SameTableSpent(w: World, v: World)
    requires ClaimsSpent(w) && v.table == w.table && v.claims == w.claims
    ensures ClaimsSpent(v)
  {
  }

  lemma {:induction false} InsertAllKeepsSpent(w: World, es: seq<Event>)
    requires ClaimsSpent(w)
    ensures ClaimsSpent(w.(table := InsertAll(w.table, es, w.now)))
    ensures w.table.nextSerial <= InsertAll(w.table, es, w.now).nextSerial
  {
    if es != [] {
      InsertAllKeepsSpent(w, es[..|es| - 1]);
    }
  }

  lemma TableStepSpent(env: Env, w: World, s: Step)
    requires WellFormed(w.table) && ClaimsSpent(w)
    requires s.EnqueueStep? || s.EnqueueManyStep? || s.ReclaimStep? || s.PruneStep? || s.CapStep?
    ensures WellFormed(Next(env, w, s).table) && ClaimsSpent(Next(env, w, s))
  {
    hide ClaimsSpent, WellFormed, InsertEvent, InsertAll, ReclaimRows, PruneRows, CapRows, Update;
    match s
    case EnqueueStep(e) =>
      InsertWellFormed(w.table, e, w.now);
      InsertKeepsSpent(w, e);
    case EnqueueManyStep(es) =>
      InsertAllWellFormed(w.table, es, w.now);
      InsertAllKeepsSpent(w, es);
      SameTableSpent(w.(table := InsertAll(w.table, es, w.now)), Next(env, w, s));
    case ReclaimStep(older) =>
      ReclaimWellFormed(w.table, ReclaimCutoff(w.now, older));
      ReclaimKeepsSpent(w, ReclaimCutoff(w.now, older));
    case PruneStep(days) =>
      PruneKeepsSpent(w, days);
      SameTableSpent(w, w);
    case CapStep(maxPending) =>
      var ids := CapIds(w.table.rows, maxPending);
      UpdateWellFormed(w.table, ids, Parked);
      UpdateKeepsSpent(w, ids, Parked);
  }

  lemma PruneKeepsSpent(w: World, days: nat)
    requires WellFormed(w.table) && ClaimsSpent(w)
    ensures WellFormed(SetRows(w, PruneRows(w.table.rows, PruneCutoff(w.now, days))).table)
    ensures ClaimsSpent(SetRows(w, PruneRows(w.table.rows, PruneCutoff(w.now, days))))
  {
    PruneWellFormed(w.table, PruneCutoff(w.now, days));
    PruneElements(w.table.rows, PruneCutoff(w.now, days));
  }

  lemma TableStepCounted(env: Env, w: World, s: Step)
    requires Counted(env, w)
    requires s.EnqueueStep? || s.EnqueueManyStep? || s.ReclaimStep? || s.PruneStep? || s.CapStep?
    ensures Counted(env, Next(env, w, s))
  {
    TableStepSpent(env, w, s);
    assert Next(env, w, s).drains == w.drains && Next(env, w, s).claims == w.claims;
    assert Next(env, w, s).retries == w.retries;
  }

  lemma ReclaimKeepsSpent(w: World, cutoff: int)
    requires ClaimsSpent(w)
    ensures ClaimsSpent(SetRows(w, ReclaimRows(w.table.rows, cutoff)))
  {
    var u := ReclaimRows(w.table.rows, cutoff);
    forall p, r | p in w.claims && r in u && r.serial == p.0 ensures p.1 < r.attempts {
      var y :| 0 <= y < |u| && u[y] == r;
      assert w.table.rows[y] in w.table.rows;
    }
  }

  lemma PostBatch(env: Env, w: World, d: nat, batch: seq<Claim>)
    requires BatchesApart(w.drains, w.claims) && RetriesLogged(env, w.retries, w.claims, w.drains)
    requires DistinctSerials(batch) && ClaimPairs(batch) !! w.claims
    ensures BatchesApart(w.drains[d := Posting(batch, w.now)], w.claims + ClaimPairs(batch))
    ensures RetriesLogged(env, w.retries, w.claims + ClaimPairs(batch), w.drains[d := Posting(batch, w.now)])
  {
    var drains := w.drains[d := Posting(batch, w.now)];
    forall x, e | x in drains && e in drains && x != e
      ensures ClaimPairs(Posted(drains[x])) !! ClaimPairs(Posted(drains[e]))
    {
      if x != d { assert ClaimPairs(Posted(w.drains[x])) <= w.claims; }
      if e != d { assert ClaimPairs(Posted(w.drains[e])) <= w.claims; }
    }
  }

  lemma ClaimCounted(env: Env, w: World, s: Step)
    requires Counted(env, w) && s.ClaimStep?
    ensures Counted(env, Next(env, w, s))
  {
    var batch := ClaimedBatch(w.table.rows, w.now, s.limit);
    if PhaseOf(w, s.drain).Idle? && batch != [] {
      NewPairs(w, s.limit);
      PostBatch(env, w, s.drain, batch);
      ClaimStepSpent(env, w, s);
    }
  }

  lemma ClaimStepSpent(env: Env, w: World, s: Step)
    requires WellFormed(w.table) && ClaimsSpent(w) && s.ClaimStep?
    ensures WellFormed(Next(env, w, s).table) && ClaimsSpent(Next(env, w, s))
  {
    ClaimedRowsLeaveBehind(w, s.limit);
    UpdateWellFormed(w.table, IdSet(RowIds(Oldest(DueRows(w.table.rows, w.now), s.limit))), ToInflight(w.now));
  }

  // ---- a transport error uses each posted pair once ----

  lemma {:induction false} RetriedFromBatch(env: Env, error: TransportError, batch: seq<Claim>)
    requires DistinctSerials(batch)
    ensures
      var pairs := RetriedPairs(env, error, batch);
      && DistinctPairs(pairs)
      && (forall k :: 0 <= k < |pairs| ==>
            pairs[k] in ClaimPairs(batch) && (pairs[k].1 + 1) % U32_LIMIT < env.config.maxAttempts)
  {
    if batch != [] {
      var front, last := batch[..|batch| - 1], batch[|batch| - 1];
      RetriedFromBatch(env, error, front);
      var pairs := RetriedPairs(env, error, front);
      forall k | 0 <= k < |pairs|
        ensures pairs[k] in ClaimPairs(batch) && pairs[k] != (last.serial, last.attempts)
      {
        var c :| c in front && pairs[k] == (c.serial, c.attempts);
        assert c in batch;
        var i :| 0 <= i < |front| && front[i] == c;
        assert batch[i].serial != batch[|batch| - 1].serial;
      }
      assert last in batch;
    }
  }

  /** A drain that stops posting frees its pairs. */
  lemma StopPosting(env: Env, retries: seq<Pair>, claims: set<Pair>, drains: map<nat, Phase>, d: nat, p: Phase)
    requires BatchesApart(drains, claims) && RetriesLogged(env, retries, claims, drains)
    requires Posted(p) == []
    ensures BatchesApart(drains[d := p], claims)
    ensures RetriesLogged(env, retries, claims, drains[d := p])
  {
  }

  lemma LogRetries(env: Env, retries: seq<Pair>, claims: set<Pair>, drains: map<nat, Phase>, d: nat, p: Phase,
                   error: TransportError)
    requires BatchesApart(drains, claims) && RetriesLogged(env, retries, claims, drains)
    requires d in drains && Posted(p) == []
    ensures RetriesLogged(env, retries + RetriedPairs(env, error, Posted(drains[d])), claims, drains[d := p])
  {
    var batch := Posted(drains[d]);
    RetriedFromBatch(env, error, batch);
    var pairs := RetriedPairs(env, error, batch);
    var all := retries + pairs;
    forall i, j | 0 <= i < j < |all| ensures all[i] != all[j] {
      if j < |retries| {
        assert retries[i] != retries[j];
      } else if i < |retries| {
        assert retries[i] !in ClaimPairs(batch);
        assert all[j] == pairs[j - |retries|];
      } else {
        assert pairs[i - |retries|] != pairs[j - |retries|];
      }
    }
    var after := drains[d := p];
    forall x, k | x in after && 0 <= k < |all| ensures all[k] !in ClaimPairs(Posted(after[x])) {
      if x != d {
        assert ClaimPairs(Posted(drains[x])) !! ClaimPairs(batch);
        if k >= |retries| { assert all[k] == pairs[k - |retries|]; }
      }
    }
    forall k | 0 <= k < |all|
      ensures all[k] in claims && (all[k].1 + 1) % U32_LIMIT < env.config.maxAttempts
    {
      if k >= |retries| { assert all[k] == pairs[k - |retries|]; }
    }
  }

  lemma ErrorCounted(env: Env, w: World, s: Step)
    requires Counted(env, w) && s.ErrorStep?
    ensures Counted(env, Next(env, w, s))
  {
    var phase := PhaseOf(w, s.drain);
    if phase.Posting? {
      var p := Settle(phase.since, ErrorTxs(env, phase.batch, s.error, s.at));
      StopPosting(env, w.retries, w.claims, w.drains, s.drain, p);
      LogRetries(env, w.retries, w.claims, w.drains, s.drain, p, s.error);
    }
  }

  /** The phase a settling step leaves its drain in. */
  lemma SettlingPhase(env: Env, w: World, s: Step) returns (p: Phase)
    requires s.ReplyStep? || s.CommitStep? || s.FailedCommitStep? || s.CrashStep?
    ensures Next(env, w, s).drains == w.drains || (Posted(p) == [] && Next(env, w, s).drains == w.drains[s.drain := p])
    ensures Next(env, w, s).claims == w.claims && Next(env, w, s).retries == w.retries
  {
    var v := Next(env, w, s);
    p := PhaseOf(v, s.drain);
  }

  lemma SettlingCounted(env: Env, w: World, s: Step)
    requires Counted(env, w)
    requires s.ReplyStep? || s.CommitStep? || s.FailedCommitStep? || s.CrashStep?
    ensures
      var v := Next(env, w, s);
      BatchesApart(v.drains, v.claims) && RetriesLogged(env, v.retries, v.claims, v.drains)
  {
    var p := SettlingPhase(env, w, s);
    if Posted(p) == [] {
      StopPosting(env, w.retries, w.claims, w.drains, s.drain, p);
    }
  }

  lemma SettlingSpent(env: Env, w: World, s: Step)
    requires WellFormed(w.table) && ClaimsSpent(w)
    requires s.ReplyStep? || s.CommitStep? || s.FailedCommitStep? || s.CrashStep?
    ensures WellFormed(Next(env, w, s).table) && ClaimsSpent(Next(env, w, s))
  {
    hide ClaimsSpent, WellFormed, Update, OutcomeTxs;
    var phase, v := PhaseOf(w, s.drain), Next(env, w, s);
    if s.CommitStep? && phase.Settling? && phase.todo != [] {
      UpdateWellFormed(w.table, IdSet(phase.todo[0].ids), TxChange(phase.todo[0]));
      UpdateKeepsSpent(w, IdSet(phase.todo[0].ids), TxChange(phase.todo[0]));
      SameTableSpent(SetRows(w, ApplyTx(w.table.rows, phase.todo[0])), v);
    } else {
      SameTableSpent(w, v);
    }
  }

  lemma {:induction false} RunIsCounted(env: Env, steps: seq<Step>)
    ensures Counted(env, Run(env, Start, steps))
  {
    if steps != [] {
      var w, s := Run(env, Start, steps[..|steps| - 1]), steps[|steps| - 1];
      RunIsCounted(env, steps[..|steps| - 1]);
      if s.ClaimStep? {
        ClaimCounted(env, w, s);
      } else if s.ErrorStep? {
        ErrorCounted(env, w, s);
      } else if s.EnqueueStep? || s.EnqueueManyStep? || s.ReclaimStep? || s.PruneStep? || s.CapStep? {
        TableStepCounted(env, w, s);
      } else if s.ReplyStep? || s.CommitStep? || s.FailedCommitStep? || s.CrashStep? {
        SettlingCounted(env, w, s);
        SettlingSpent(env, w, s);
      }
    }
  }

  // ---- counting ----

  /** How many retries of the row used an attempts value below `bound`. */
  function RetriesOf(retries: seq<Pair>, serial: nat, bound: nat): nat
  {
    if retries == [] then 0
    else
      var last := retries[|retries| - 1];
      RetriesOf(retries[..|retries| - 1], serial, bound) + (if last.0 == serial && last.1 < bound then 1 else 0)
  }

  function AttemptValues(retries: seq<Pair>, serial: nat, bound: nat): set<nat>
  {
    set p | p in retries && p.0 == serial && p.1 < bound :: p.1
  }

  lemma NewValue(pairs: seq<Pair>, p: Pair, bound: nat)
    requires forall k :: 0 <= k < |pairs| ==> pairs[k] != p
    ensures p.1 !in AttemptValues(pairs, p.0, bound)
  {
    forall q | q in pairs && q.0 == p.0 ensures q.1 != p.1 {
      assert q == (q.0, q.1) && p == (p.0, p.1);
    }
  }

  lemma {:induction false} RetriesCounted(retries: seq<Pair>, serial: nat, bound: nat)
    requires DistinctPairs(retries)
    ensures RetriesOf(retries, serial, bound) == |AttemptValues(retries, serial, bound)|
  {
    if retries != [] {
      var front, last := retries[..|retries| - 1], retries[|retries| - 1];
      RetriesCounted(front, serial, bound);
      var a, b := AttemptValues(front, serial, bound), AttemptValues(retries, serial, bound);
      assert retries == front + [last];
      if last.0 == serial && last.1 < bound {
        assert b == a + {last.1};
        forall k | 0 <= k < |front| ensures front[k] != last {
          assert front[k] == retries[k];
        }
        NewValue(front, last, bound);
      } else {
        assert b == a;
      }
    } else {
      assert AttemptValues(retries, serial, bound) == {};
    }
  }

  lemma {:induction false} BelowCount(s: set<nat>, n: nat)
    requires forall x :: x in s ==> x < n
    ensures |s| <= n
  {
    if n == 0 {
      assert s == {};
    } else {
      BelowCount(s - {n - 1}, n - 1);
    }
  }

  lemma ValuesBelow(retries: seq<Pair>, serial: nat, bound: nat, limit: nat)
    requires bound < U32_LIMIT
    requires forall k :: 0 <= k < |retries| ==> (retries[k].1 + 1) % U32_LIMIT < limit
    ensures forall x :: x in AttemptValues(retries, serial, bound) ==> x < limit - 1
  {
    forall x | x in AttemptValues(retries, serial, bound) ensures x < limit - 1 {
      var p :| p in retries && p.0 == serial && p.1 < bound && p.1 == x;
      var k :| 0 <= k < |retries| && retries[k] == p;
      assert (retries[k].1 + 1) % U32_LIMIT == x + 1;
    }
  }

  /** In every interleaving, transport errors send one row back at most `max_attempts - 1` times
      while its attempts counter, plus one, fits in 32 bits. */
  lemma RetriesAreBounded(env: Env, steps: seq<Step>, serial: nat)
    requires 1 <= env.config.maxAttempts < U32_LIMIT
    ensures RetriesOf(Run(env, Start, steps).retries, serial, U32_LIMIT - 1) <= env.config.maxAttempts - 1
  {
    var w := Run(env, Start, steps);
    RunIsCounted(env, steps);
    RetriesCounted(w.retries, serial, U32_LIMIT - 1);
    var values := AttemptValues(w.retries, serial, U32_LIMIT - 1);
    ValuesBelow(w.retries, serial, U32_LIMIT - 1, env.config.maxAttempts);
    BelowCount(values, env.config.maxAttempts - 1);
  }

  /** Beyond that the conversion wraps to attempt 0 and the row is retried again, whatever the limit. */
  lemma WrappedAttemptRetries(env: Env, c: Claim, error: TransportError)
    requires env.config.maxAttempts >= 1 && Retryable(error)
    requires c.attempts == U32_LIMIT - 1
    ensures !Parks(env, error, c)
  {
  }

  /** So a failed upload sends a row that was claimed 2^32 - 1 times before back to `pending`, whatever the limit. */
  lemma WrappedRowRetried(env: Env, w: World, d: nat, c: Claim, error: TransportError, at: int, i: nat)
    requires env.config.maxAttempts >= 1 && Retryable(error) && c.attempts == U32_LIMIT - 1
    requires PhaseOf(w, d).Posting? && PhaseOf(w, d).batch == [c]
    requires i < |w.table.rows| && w.table.rows[i].event == c.event
    ensures var rows := Next(env, Next(env, w, ErrorStep(d, error, at)), CommitStep(d)).table.rows;
            i < |rows| && rows[i].event == c.event && rows[i].status == Pending
  {
    WrappedAttemptRetries(env, c, error);
    OneRetried(env, error, c);
    var txs := ErrorTxs(env, [c], error, at);
    assert |txs| == 1 && txs[0].RescheduleTx? && txs[0].ids == [c.event.eventId];
  }

  lemma OneRetried(env: Env, error: TransportError, c: Claim)
    requires !Parks(env, error, c)
    ensures RetryIds(env, error, [c]) == [c.event.eventId] && ParkIds(env, error, [c]) == []
  {
    assert [c][..0] == [];
  }

  /** No two claims of a row ever see the same attempts value. */
  lemma ClaimsSeeNewAttempts(env: Env, steps: seq<Step>, limit: nat, k: nat)
    requires k < |ClaimedBatch(Run(env, Start, steps).table.rows, Run(env, Start, steps).now, limit)|
    ensures
      var w := Run(env, Start, steps);
      var c := ClaimedBatch(w.table.rows, w.now, limit)[k];
      (c.serial, c.attempts) !in w.claims
  {
    var w := Run(env, Start, steps);
    RunIsCounted(env, steps);
    NewPairs(w, limit);
    var batch := ClaimedBatch(w.table.rows, w.now, limit);
    assert batch[k] in batch;
    assert (batch[k].serial, batch[k].attempts) in ClaimPairs(batch);
  }
}
