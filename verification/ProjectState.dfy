/** The loop that fits a project-state payload into a token budget. */
module ProjectState {
  import opened Payload
  import opened Recall
  import opened Wrappers

  /** Proposals are kept as serialised. */
  datatype State = State(project: string, memoryCount: nat, recent: seq<Item>, nextActions: seq<string>,
                         pending: seq<string>, available: nat, budget: Budget)

  function ActionsJson(actions: seq<string>): string
  {
    if actions == [] then ""
    else if |actions| == 1 then JsonString(actions[0])
    else ActionsJson(actions[..|actions| - 1]) + "," + JsonString(actions[|actions| - 1])
  }

  function ProposalsJson(pending: seq<string>): string
  {
    if pending == [] then ""
    else if |pending| == 1 then pending[0]
    else ProposalsJson(pending[..|pending| - 1]) + "," + pending[|pending| - 1]
  }

  function Header(project: string): string
  {
    "{\"project\":" + JsonString(project) + ",\"memory_count\":"
  }

  function StateBody(recent: seq<Item>, actions: seq<string>, pending: seq<string>, available: nat, maxTokens: nat): string
  {
    ",\"recent\":[" + ItemsJson(recent) + "],\"next_actions\":[" + ActionsJson(actions) + "],\"pending_proposals\":["
    + ProposalsJson(pending) + "],\"available_memory_count\":" + Digits(available)
    + ",\"context_budget\":{\"max_tokens\":" + Digits(maxTokens) + ",\"estimated_tokens\":"
  }

  function StateJson(p: State): string
  {
    Text4(Header(p.project), p.memoryCount, StateBody(p.recent, p.nextActions, p.pending, p.available, p.budget.maxTokens),
          CounterText(p.budget.estimated, p.budget.truncated))
  }

  function StateEstimate(p: State): nat
  {
    Tokens(StateJson(p))
  }

  // ---- the loop as a function ----

  predicate Exhausted(p: State)
  {
    p.recent == [] && p.pending == [] && p.nextActions == [] && |p.project| <= 4
  }

  /** One turn: memories first, then proposals, then actions, then the project name. */
  function Smaller(p: State): State
    requires !Exhausted(p)
  {
    if p.recent != [] then p.(recent := FewerItems(p.recent))
    else if p.pending != [] then p.(pending := p.pending[..|p.pending| - 1])
    else if p.nextActions != [] then p.(nextActions := p.nextActions[..|p.nextActions| - 1])
    else p.(project := Abbreviated(p.project, Larger(4, |p.project| / 2)))
  }

  function Rest(p: State): nat
  {
    |p.pending| + |p.nextActions| + |p.project|
  }

  function FitState(est: State -> nat, p: State, limit: nat): State
    decreases |p.recent|, FirstSize(p.recent), Rest(p)
  {
    if est(p) <= limit || Exhausted(p) then p
    else
      if p.recent != [] then
        FewerItemsSmaller(p.recent);
        FitState(est, Smaller(p), limit)
      else FitState(est, Smaller(p), limit)
  }

  function StateOpened(p: State, maxTokens: nat): State
  {
    p.(available := |p.recent|, budget := Budget(maxTokens, 0, false))
  }

  function StateCounted(p: State): State
  {
    p.(memoryCount := |p.recent|)
  }

  function StateWithCounters(p: State, estimated: nat, truncated: bool): State
  {
    p.(budget := Budget(p.budget.maxTokens, estimated, truncated))
  }

  function EnforceState(est: State -> nat, p: State, maxTokens: nat): State
  {
    var fitted := FitState(est, StateOpened(p, maxTokens), EffectiveBudget(maxTokens));
    StateWithCounters(StateCounted(fitted), est(StateCounted(fitted)),
                      |fitted.recent| < |p.recent| || |fitted.nextActions| < |p.nextActions|
                      || |fitted.pending| < |p.pending| || AnyTruncated(fitted.recent))
  }

  // ---- the payload as it is changed in place ----

  class StatePayload {
    /** How a payload is measured. */
    const estimate: State -> nat
    var project: string
    var memoryCount: nat
    var recent: seq<Item>
    var nextActions: seq<string>
    var pending: seq<string>
    var available: nat
    var budget: Budget

    function Value(): State
      reads this
    {
      State(project, memoryCount, recent, nextActions, pending, available, budget)
    }

    constructor (measure: State -> nat, p: State)
      ensures estimate == measure && Value() == p
    {
      estimate := measure;
      project, memoryCount, recent, nextActions := p.project, p.memoryCount, p.recent, p.nextActions;
      pending, available, budget := p.pending, p.available, p.budget;
    }

    /** One turn of the loop; false when nothing is left to shorten. */
    method Shorten() returns (shortened: bool)
      modifies this
      ensures shortened <==> !Exhausted(old(Value()))
      ensures Value() == if shortened then Smaller(old(Value())) else old(Value())
    {
      if |recent| > 1 {
        recent := recent[..|recent| - 1];
        return true;
      }
      if recent != [] {
        var smaller := ShrinkItem(recent[0]);
        recent := if smaller.Some? then [smaller.value] else [];
        return true;
      }
      if pending != [] {
        pending := pending[..|pending| - 1];
        return true;
      }
      if nextActions != [] {
        nextActions := nextActions[..|nextActions| - 1];
        return true;
      }
      if |project| <= 4 {
        return false;
      }
      project := Abbreviated(project, Larger(4, |project| / 2));
      return true;
    }

    method Fit(limit: nat)
      modifies this
      ensures Value() == FitState(estimate, old(Value()), limit)
    {
      var tokens := estimate(Value());
      while tokens > limit
        invariant tokens == estimate(Value())
        invariant FitState(estimate, Value(), limit) == FitState(estimate, old(Value()), limit)
        decreases |recent|, FirstSize(recent), Rest(Value())
      {
        if recent != [] {
          FewerItemsSmaller(recent);
        }
        var shortened := Shorten();
        if !shortened {
          break;
        }
        tokens := estimate(Value());
      }
    }

    method Enforce(maxTokens: nat)
      modifies this
      ensures Value() == EnforceState(estimate, old(Value()), maxTokens)
    {
      var memories, actions, proposals := |recent|, |nextActions|, |pending|;
      available := memories;
      budget := Budget(maxTokens, 0, false);
      Fit(EffectiveBudget(maxTokens));
      FitStateKeeps(estimate, StateOpened(old(Value()), maxTokens), EffectiveBudget(maxTokens));
      memoryCount := |recent|;
      var tokens := estimate(Value());
      budget := Budget(budget.maxTokens, tokens, |recent| < memories || |nextActions| < actions || |pending| < proposals
                                                 || AnyTruncated(recent));
    }
  }

  method EnforceStateBudget(p: State, maxTokens: nat) returns (q: State)
    ensures q == EnforceState(StateEstimate, p, maxTokens)
  {
    var payload := new StatePayload(StateEstimate, p);
    payload.Enforce(maxTokens);
    q := payload.Value();
  }

  // ---- what fitting keeps ----

  /** Lists lose elements at their end only, and the memories go first, then the proposals, then the actions. */
  ghost predicate ShortenedFrom(q: State, p: State)
  {
    && KeptFrom(q.recent, p.recent)
    && q.pending <= p.pending && q.nextActions <= p.nextActions
    && (q.pending != p.pending ==> q.recent == [])
    && (q.nextActions != p.nextActions ==> q.recent == [] && q.pending == [])
    && (q.project != p.project ==> q.recent == [] && q.pending == [] && q.nextActions == [])
    && q.memoryCount == p.memoryCount && q.available == p.available && q.budget == p.budget
  }

  lemma SmallerShortens(q: State, p: State)
    requires ShortenedFrom(q, p) && !Exhausted(q)
    ensures ShortenedFrom(Smaller(q), p)
  {
    if q.recent != [] {
      FewerItemsKept(q.recent, p.recent);
    }
  }

  lemma {:induction false} FitShortens(est: State -> nat, q: State, p: State, limit: nat)
    requires ShortenedFrom(q, p)
    ensures ShortenedFrom(FitState(est, q, limit), p)
    ensures est(FitState(est, q, limit)) <= limit || Exhausted(FitState(est, q, limit))
    decreases |q.recent|, FirstSize(q.recent), Rest(q)
  {
    if est(q) > limit && !Exhausted(q) {
      if q.recent != [] { FewerItemsSmaller(q.recent); }
      SmallerShortens(q, p);
      FitShortens(est, Smaller(q), p, limit);
    }
  }

  lemma FitStateKeeps(est: State -> nat, p: State, limit: nat)
    ensures ShortenedFrom(FitState(est, p, limit), p)
    ensures est(FitState(est, p, limit)) <= limit || Exhausted(FitState(est, p, limit))
  {
    assert p.recent[..|p.recent|] == p.recent;
    FitShortens(est, p, p, limit);
  }

  // ---- the main result ----

  ghost predicate CheapStateCounters(est: State -> nat)
  {
    && (forall p: State :: |p.recent| <= p.memoryCount ==> est(StateCounted(p)) <= est(p))
    && (forall p: State, n: nat, cut: bool ::
          n < 100000 && p.budget.estimated == 0 && !p.budget.truncated ==> est(StateWithCounters(p, n, cut)) <= est(p) + 2)
  }

  lemma StateCountedCost(p: State)
    requires |p.recent| <= p.memoryCount
    ensures StateEstimate(StateCounted(p)) <= StateEstimate(p)
  {
    Text4Count(Header(p.project), |p.recent|, p.memoryCount,
               StateBody(p.recent, p.nextActions, p.pending, p.available, p.budget.maxTokens),
               CounterText(p.budget.estimated, p.budget.truncated));
  }

  lemma StateClosedCost(p: State, n: nat, cut: bool)
    requires n < 100000 && p.budget.estimated == 0 && !p.budget.truncated
    ensures StateEstimate(StateWithCounters(p, n, cut)) <= StateEstimate(p) + 2
  {
    var header := Header(p.project);
    var body := StateBody(p.recent, p.nextActions, p.pending, p.available, p.budget.maxTokens);
    Text4Counters(header, p.memoryCount, body, n, cut);
    assert StateJson(p) == Text4(header, p.memoryCount, body, CounterText(0, false));
    assert StateJson(StateWithCounters(p, n, cut)) == Text4(header, p.memoryCount, body, CounterText(n, cut));
  }

  lemma StateEstimateIsCheap()
    ensures CheapStateCounters(StateEstimate)
  {
    forall p: State | |p.recent| <= p.memoryCount ensures StateEstimate(StateCounted(p)) <= StateEstimate(p) {
      StateCountedCost(p);
    }
    forall p: State, n: nat, cut: bool | n < 100000 && p.budget.estimated == 0 && !p.budget.truncated
      ensures StateEstimate(StateWithCounters(p, n, cut)) <= StateEstimate(p) + 2
    {
      StateClosedCost(p, n, cut);
    }
  }

  lemma WithinStateBudget(est: State -> nat, p: State, maxTokens: nat)
    requires 100 <= maxTokens <= 20000 && p.memoryCount == |p.recent| && CheapStateCounters(est)
    ensures var q := EnforceState(est, p, maxTokens);
            && KeptFrom(q.recent, p.recent) && q.pending <= p.pending && q.nextActions <= p.nextActions
            && q.memoryCount == |q.recent| && q.available == |p.recent|
            && (est(q) <= maxTokens || Exhausted(q))
  {
    FitStateKeeps(est, StateOpened(p, maxTokens), EffectiveBudget(maxTokens));
  }

  /** Within the budgets that configuration admits: every list keeps a prefix, the counts are those of the
      memories kept and available, and the payload as returned is within the budget unless every list is
      empty and the project name is down to 4 characters. */
  lemma StateWithinBudget(p: State, maxTokens: nat)
    requires 100 <= maxTokens <= 20000 && p.memoryCount == |p.recent|
    ensures var q := EnforceState(StateEstimate, p, maxTokens);
            && KeptFrom(q.recent, p.recent) && q.pending <= p.pending && q.nextActions <= p.nextActions
            && q.memoryCount == |q.recent| && q.available == |p.recent|
            && (StateEstimate(q) <= maxTokens || Exhausted(q))
  {
    StateEstimateIsCheap();
    WithinStateBudget(StateEstimate, p, maxTokens);
  }

  /** A list is only touched when the ones before it are gone. */
  lemma DropOrder(est: State -> nat, p: State, maxTokens: nat)
    ensures var q := EnforceState(est, p, maxTokens);
            && (q.pending != p.pending ==> q.recent == [])
            && (q.nextActions != p.nextActions ==> q.recent == [] && q.pending == [])
            && (q.project != p.project ==> q.recent == [] && q.pending == [] && q.nextActions == [])
  {
    FitStateKeeps(est, StateOpened(p, maxTokens), EffectiveBudget(maxTokens));
  }

  /** The payload says it was truncated exactly when one of its lists was cut; a shortened project name alone
      is not reported. */
  lemma ListCutsAreReported(est: State -> nat, p: State, maxTokens: nat)
    requires !AnyTruncated(p.recent)
    ensures var q := EnforceState(est, p, maxTokens);
            q.budget.truncated <==> q.recent != p.recent || q.pending != p.pending || q.nextActions != p.nextActions
  {
    FitStateKeeps(est, StateOpened(p, maxTokens), EffectiveBudget(maxTokens));
    var q := EnforceState(est, p, maxTokens);
    if q.recent != p.recent && |q.recent| == |p.recent| {
      assert q.recent != p.recent[..|p.recent|];
      assert q.recent[0].truncated;
    }
    if |q.pending| == |p.pending| { assert q.pending == p.pending; }
    if |q.nextActions| == |p.nextActions| { assert q.nextActions == p.nextActions; }
  }
}
