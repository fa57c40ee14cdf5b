/** The two loops that fit a recall payload into a token budget. */
module Recall {
  import opened Payload
  import opened Text
  import opened Wrappers

  /** Tokens kept in reserve for the counters written last. */
  const RESERVE := 16

  datatype Budget = Budget(maxTokens: nat, estimated: nat, truncated: bool)

  /** `fixed` is the serialised fields between the project and the result count. */
  datatype Context = Context(query: string, rewritten: string, queryTruncated: bool, project: Option<string>, fixed: string,
                             resultCount: nat, results: seq<Item>, available: nat, budget: Budget)

  function Headers(query: string, rewritten: string, truncated: bool, project: Option<string>, fixed: string): string
  {
    "{\"query\":" + JsonString(query) + ",\"rewritten_query\":" + JsonString(rewritten)
    + ",\"query_truncated\":" + JsonBool(truncated) + ",\"project\":" + JsonOption(project) + fixed
    + ",\"result_count\":"
  }

  function Body(results: seq<Item>, available: nat, maxTokens: nat): string
  {
    ",\"results\":[" + ItemsJson(results) + "],\"available_result_count\":" + Digits(available)
    + ",\"context_budget\":{\"max_tokens\":" + Digits(maxTokens) + ",\"estimated_tokens\":"
  }

  function ContextJson(p: Context): string
  {
    Text4(Headers(p.query, p.rewritten, p.queryTruncated, p.project, p.fixed), p.resultCount,
          Body(p.results, p.available, p.budget.maxTokens), CounterText(p.budget.estimated, p.budget.truncated))
  }

  function Estimate(p: Context): nat
  {
    Tokens(ContextJson(p))
  }

  function EffectiveBudget(maxTokens: nat): nat
  {
    if maxTokens > RESERVE + 1 then maxTokens - RESERVE else 1
  }

  // ---- headers ----

  function ProjectText(project: Option<string>): string
  {
    if project.Some? then project.value else "None"
  }

  /** Shortens the longest of query, rewritten query and project, the earlier one on a tie. */
  function ShrinkHeaders(p: Context): Option<Context>
  {
    var project := ProjectText(p.project);
    if |project| > |p.query| && |project| > |p.rewritten| then
      if ShrinkHeader(project).None? then None else Some(p.(project := ShrinkHeader(project)))
    else if |p.rewritten| > |p.query| then
      if ShrinkHeader(p.rewritten).None? then None else Some(p.(rewritten := ShrinkHeader(p.rewritten).value))
    else if ShrinkHeader(p.query).None? then None
    else Some(p.(query := ShrinkHeader(p.query).value))
  }

  predicate HeadersShort(p: Context)
  {
    |p.query| <= 4 && |p.rewritten| <= 4 && |ProjectText(p.project)| <= 4
  }

  function HeaderLength(p: Context): nat
  {
    |p.query| + |p.rewritten| + |ProjectText(p.project)|
  }

  predicate SameButHeaders(q: Context, p: Context)
  {
    q == p.(query := q.query, rewritten := q.rewritten, project := q.project)
  }

  lemma ShrinkHeadersShortens(p: Context)
    ensures ShrinkHeaders(p).None? <==> HeadersShort(p)
    ensures ShrinkHeaders(p).Some? ==> HeaderLength(ShrinkHeaders(p).value) < HeaderLength(p)
    ensures ShrinkHeaders(p).Some? ==> SameButHeaders(ShrinkHeaders(p).value, p)
  {
  }

  // ---- the loops as functions ----

  function FirstSize(items: seq<Item>): nat
  {
    if items == [] then 0 else ItemSize(items[0])
  }

  /** One turn of fitting a list of items: drop the last of several, shrink the only one, or drop it. */
  function FewerItems(items: seq<Item>): seq<Item>
    requires items != []
  {
    if |items| > 1 then items[..|items| - 1]
    else if ShrinkItem(items[0]).Some? then [ShrinkItem(items[0]).value]
    else []
  }

  lemma FewerItemsSmaller(items: seq<Item>)
    requires items != []
    ensures var r := FewerItems(items);
            |r| < |items| || (|r| == |items| && FirstSize(r) < FirstSize(items))
  {
    if |items| == 1 { ShrinkItemSmaller(items[0]); }
  }

  function FitResults(est: Context -> nat, p: Context, budget: nat): Context
    decreases |p.results|, FirstSize(p.results)
  {
    if est(p) <= budget || p.results == [] then p
    else
      FewerItemsSmaller(p.results);
      FitResults(est, p.(results := FewerItems(p.results)), budget)
  }

  function FitHeaders(est: Context -> nat, p: Context, budget: nat): Context
    decreases HeaderLength(p)
  {
    if est(p) <= budget then p
    else
      ShrinkHeadersShortens(p);
      if ShrinkHeaders(p).None? then p else FitHeaders(est, ShrinkHeaders(p).value, budget)
  }

  function Opened(p: Context, maxTokens: nat): Context
  {
    p.(available := |p.results|, budget := Budget(maxTokens, 0, false))
  }

  function Fitted(est: Context -> nat, p: Context, maxTokens: nat): Context
  {
    FitHeaders(est, FitResults(est, Opened(p, maxTokens), EffectiveBudget(maxTokens)), EffectiveBudget(maxTokens))
  }

  predicate AnyTruncated(items: seq<Item>)
  {
    exists i :: 0 <= i < |items| && items[i].truncated
  }

  function Counted(p: Context): Context
  {
    p.(resultCount := |p.results|)
  }

  function WithCounters(p: Context, estimated: nat, truncated: bool): Context
  {
    p.(budget := Budget(p.budget.maxTokens, estimated, truncated))
  }

  /** The counters written at the end. */
  function Closed(est: Context -> nat, p: Context, headersCut: bool): Context
  {
    WithCounters(Counted(p), est(Counted(p)), |p.results| < p.available || AnyTruncated(p.results) || headersCut)
  }

  predicate HeadersCut(before: Context, after: Context)
  {
    before.queryTruncated || HeaderLength(after) < HeaderLength(before)
  }

  function EnforceContext(est: Context -> nat, p: Context, maxTokens: nat): Context
  {
    var fitted := Fitted(est, p, maxTokens);
    Closed(est, fitted, HeadersCut(p, fitted))
  }

  // ---- the payload as it is changed in place ----

  class ContextPayload {
    /** How a payload is measured. */
    const estimate: Context -> nat
    var query: string
    var rewritten: string
    var queryTruncated: bool
    var project: Option<string>
    var fixed: string
    var resultCount: nat
    var results: seq<Item>
    var available: nat
    var budget: Budget

    function Value(): Context
      reads this
    {
      Context(query, rewritten, queryTruncated, project, fixed, resultCount, results, available, budget)
    }

    constructor (measure: Context -> nat, p: Context)
      ensures estimate == measure && Value() == p
    {
      estimate := measure;
      query, rewritten, queryTruncated, project, fixed := p.query, p.rewritten, p.queryTruncated, p.project, p.fixed;
      resultCount, results, available, budget := p.resultCount, p.results, p.available, p.budget;
    }

    method ShrinkLongestHeader() returns (shrunk: bool)
      modifies this
      ensures shrunk <==> ShrinkHeaders(old(Value())).Some?
      ensures Value() == if shrunk then ShrinkHeaders(old(Value())).value else old(Value())
    {
      var text := ProjectText(project);
      if |text| > |query| && |text| > |rewritten| {
        if |text| <= 4 {
          return false;
        }
        project := Some(Abbreviated(text, Larger(4, |text| / 2)));
      } else if |rewritten| > |query| {
        if |rewritten| <= 4 {
          return false;
        }
        rewritten := Abbreviated(rewritten, Larger(4, |rewritten| / 2));
      } else {
        if |query| <= 4 {
          return false;
        }
        query := Abbreviated(query, Larger(4, |query| / 2));
      }
      return true;
    }

    method FitItems(limit: nat)
      modifies this
      ensures Value() == FitResults(estimate, old(Value()), limit)
    {
      var tokens := estimate(Value());
      while tokens > limit && results != []
        invariant tokens == estimate(Value())
        invariant FitResults(estimate, Value(), limit) == FitResults(estimate, old(Value()), limit)
        decreases |results|, FirstSize(results)
      {
        FewerItemsSmaller(results);
        if |results| > 1 {
          results := results[..|results| - 1];
        } else {
          var smaller := ShrinkItem(results[0]);
          results := if smaller.Some? then [smaller.value] else [];
        }
        tokens := estimate(Value());
      }
    }

    method FitHeaderTexts(limit: nat) returns (cut: bool)
      modifies this
      ensures Value() == FitHeaders(estimate, old(Value()), limit)
      ensures cut <==> HeaderLength(Value()) < HeaderLength(old(Value()))
    {
      cut := false;
      var tokens := estimate(Value());
      while tokens > limit
        invariant tokens == estimate(Value())
        invariant FitHeaders(estimate, Value(), limit) == FitHeaders(estimate, old(Value()), limit)
        invariant cut <==> HeaderLength(Value()) < HeaderLength(old(Value()))
        invariant HeaderLength(Value()) <= HeaderLength(old(Value()))
        decreases HeaderLength(Value())
      {
        ShrinkHeadersShortens(Value());
        var shrunk := ShrinkLongestHeader();
        if !shrunk {
          break;
        }
        cut := true;
        tokens := estimate(Value());
      }
    }

    method Enforce(maxTokens: nat)
      modifies this
      ensures Value() == EnforceContext(estimate, old(Value()), maxTokens)
    {
      available := |results|;
      budget := Budget(maxTokens, 0, false);
      FitItems(EffectiveBudget(maxTokens));
      FitKeepsHeaders(estimate, Opened(old(Value()), maxTokens), EffectiveBudget(maxTokens));
      var cut := FitHeaderTexts(EffectiveBudget(maxTokens));
      FitKeepsResults(estimate, FitResults(estimate, Opened(old(Value()), maxTokens), EffectiveBudget(maxTokens)),
                      EffectiveBudget(maxTokens));
      resultCount := |results|;
      var tokens := estimate(Value());
      budget := Budget(budget.maxTokens, tokens, |results| < available || AnyTruncated(results) || queryTruncated || cut);
    }
  }

  /** The budget enforced with the payload's own token estimate. */
  method EnforceRecallBudget(p: Context, maxTokens: nat) returns (q: Context)
    ensures q == EnforceContext(Estimate, p, maxTokens)
  {
    var payload := new ContextPayload(Estimate, p);
    payload.Enforce(maxTokens);
    q := payload.Value();
  }

  // ---- what fitting keeps ----

  lemma {:induction false} FitKeepsHeaders(est: Context -> nat, p: Context, budget: nat)
    ensures FitResults(est, p, budget) == p.(results := FitResults(est, p, budget).results)
    decreases |p.results|, FirstSize(p.results)
  {
    if est(p) > budget && p.results != [] {
      FewerItemsSmaller(p.results);
      FitKeepsHeaders(est, p.(results := FewerItems(p.results)), budget);
    }
  }

  lemma {:induction false} FitKeepsResults(est: Context -> nat, p: Context, budget: nat)
    ensures var q := FitHeaders(est, p, budget);
            && SameButHeaders(q, p)
            && HeaderLength(q) <= HeaderLength(p)
            && (HeaderLength(q) == HeaderLength(p) ==> q == p)
    decreases HeaderLength(p)
  {
    if est(p) > budget {
      ShrinkHeadersShortens(p);
      if ShrinkHeaders(p).Some? {
        FitKeepsResults(est, ShrinkHeaders(p).value, budget);
      }
    }
  }

  /** An item after some shrinking: the same memory, with the first of its claims. */
  predicate ShrunkFrom(r: Item, original: Item)
  {
    r.head == original.head && r.tail == original.tail && |r.claims| <= |original.claims|
    && |r.content| <= |original.content| && |r.summary| <= |original.summary|
    && (original.claims != [] ==> r.claims != [])
    && (r == original || r.truncated)
  }

  lemma ShrinkItemShrinks(r: Item, original: Item)
    requires ShrunkFrom(r, original) && ShrinkItem(r).Some?
    ensures ShrunkFrom(ShrinkItem(r).value, original)
  {
  }

  /** The kept items are the first ones of the ranking; only a single survivor may have been shrunk. */
  ghost predicate KeptFrom(items: seq<Item>, ranking: seq<Item>)
  {
    |items| <= |ranking|
    && (items == ranking[..|items|] || (|items| == 1 && ShrunkFrom(items[0], ranking[0])))
  }

  lemma FewerItemsKept(items: seq<Item>, ranking: seq<Item>)
    requires items != [] && KeptFrom(items, ranking)
    ensures KeptFrom(FewerItems(items), ranking)
  {
    if |items| > 1 {
      assert FewerItems(items) == ranking[..|items| - 1];
    } else if ShrinkItem(items[0]).Some? {
      assert items == ranking[..1] ==> items[0] == ranking[0];
      ShrinkItemShrinks(items[0], ranking[0]);
    } else {
      assert [] == ranking[..0];
    }
  }

  lemma {:induction false} FitKept(est: Context -> nat, p: Context, budget: nat, ranking: seq<Item>)
    requires KeptFrom(p.results, ranking)
    ensures KeptFrom(FitResults(est, p, budget).results, ranking)
    ensures est(FitResults(est, p, budget)) <= budget || FitResults(est, p, budget).results == []
    decreases |p.results|, FirstSize(p.results)
  {
    if est(p) > budget && p.results != [] {
      FewerItemsSmaller(p.results);
      FewerItemsKept(p.results, ranking);
      FitKept(est, p.(results := FewerItems(p.results)), budget, ranking);
    }
  }

  lemma {:induction false} HeadersFit(est: Context -> nat, p: Context, budget: nat)
    ensures est(FitHeaders(est, p, budget)) <= budget || HeadersShort(FitHeaders(est, p, budget))
    ensures est(p) <= budget ==> FitHeaders(est, p, budget) == p
    decreases HeaderLength(p)
  {
    if est(p) > budget {
      ShrinkHeadersShortens(p);
      if ShrinkHeaders(p).Some? {
        HeadersFit(est, ShrinkHeaders(p).value, budget);
      }
    }
  }

  // ---- the main results ----

  /** Correcting the count costs nothing, and writing the counters at most two tokens. */
  ghost predicate CheapCounters(est: Context -> nat)
  {
    && (forall p: Context :: |p.results| <= p.resultCount ==> est(Counted(p)) <= est(p))
    && (forall p: Context, n: nat, cut: bool ::
          n < 100000 && p.budget.estimated == 0 && !p.budget.truncated ==> est(WithCounters(p, n, cut)) <= est(p) + 2)
  }

  lemma EstimateCounted(p: Context)
    requires |p.results| <= p.resultCount
    ensures Estimate(Counted(p)) <= Estimate(p)
  {
    hide Headers, Body, CounterText, Tokens, Text4;
    Text4Count(Headers(p.query, p.rewritten, p.queryTruncated, p.project, p.fixed), |p.results|, p.resultCount,
               Body(p.results, p.available, p.budget.maxTokens), CounterText(p.budget.estimated, p.budget.truncated));
  }

  lemma EstimateClosed(p: Context, n: nat, cut: bool)
    requires n < 100000 && p.budget.estimated == 0 && !p.budget.truncated
    ensures Estimate(WithCounters(p, n, cut)) <= Estimate(p) + 2
  {
    var headers := Headers(p.query, p.rewritten, p.queryTruncated, p.project, p.fixed);
    var body := Body(p.results, p.available, p.budget.maxTokens);
    Text4Counters(headers, p.resultCount, body, n, cut);
    assert ContextJson(p) == Text4(headers, p.resultCount, body, CounterText(0, false));
    assert ContextJson(WithCounters(p, n, cut)) == Text4(headers, p.resultCount, body, CounterText(n, cut));
  }

  lemma EstimateIsCheap()
    ensures CheapCounters(Estimate)
  {
    forall p: Context | |p.results| <= p.resultCount ensures Estimate(Counted(p)) <= Estimate(p) {
      EstimateCounted(p);
    }
    forall p: Context, n: nat, cut: bool | n < 100000 && p.budget.estimated == 0 && !p.budget.truncated
      ensures Estimate(WithCounters(p, n, cut)) <= Estimate(p) + 2
    {
      EstimateClosed(p, n, cut);
    }
  }

  /** What is left after both loops, before the counters. */
  lemma FittedFacts(est: Context -> nat, p: Context, maxTokens: nat)
    ensures var f := Fitted(est, p, maxTokens);
            && KeptFrom(f.results, p.results)
            && f.resultCount == p.resultCount && f.available == |p.results| && f.budget == Budget(maxTokens, 0, false)
            && f.queryTruncated == p.queryTruncated && HeaderLength(f) <= HeaderLength(p)
            && (est(f) <= EffectiveBudget(maxTokens) || (f.results == [] && HeadersShort(f)))
  {
    var start, budget := Opened(p, maxTokens), EffectiveBudget(maxTokens);
    assert p.results[..|p.results|] == p.results;
    FitKeepsHeaders(est, start, budget);
    FitKept(est, start, budget, p.results);
    FitKeepsResults(est, FitResults(est, start, budget), budget);
    HeadersFit(est, FitResults(est, start, budget), budget);
  }

  lemma WithinBudget(est: Context -> nat, p: Context, maxTokens: nat)
    requires 100 <= maxTokens <= 20000 && p.resultCount == |p.results| && CheapCounters(est)
    ensures var q := EnforceContext(est, p, maxTokens);
            && KeptFrom(q.results, p.results)
            && q.resultCount == |q.results| && q.available == |p.results|
            && (est(q) <= maxTokens || (q.results == [] && HeadersShort(q)))
  {
    FittedFacts(est, p, maxTokens);
  }

  /** Within the budgets that configuration admits: the kept results are a prefix of the ranking, the counts
      say how many were kept and how many there were, and the payload as returned, counters included, is
      within the budget unless nothing is left to shorten. */
  lemma RecallWithinBudget(p: Context, maxTokens: nat)
    requires 100 <= maxTokens <= 20000 && p.resultCount == |p.results|
    ensures var q := EnforceContext(Estimate, p, maxTokens);
            && KeptFrom(q.results, p.results)
            && q.resultCount == |q.results| && q.available == |p.results|
            && (Estimate(q) <= maxTokens || (q.results == [] && HeadersShort(q)))
  {
    EstimateIsCheap();
    WithinBudget(Estimate, p, maxTokens);
  }

  /** The payload says it was truncated exactly when something was cut, by the loops or before. */
  lemma TruncationIsReported(est: Context -> nat, p: Context, maxTokens: nat)
    requires !AnyTruncated(p.results)
    ensures var q := EnforceContext(est, p, maxTokens);
            q.budget.truncated <==> q.results != p.results || p.queryTruncated || HeaderLength(q) < HeaderLength(p)
  {
    FittedFacts(est, p, maxTokens);
    var f := Fitted(est, p, maxTokens);
    if f.results != p.results && |f.results| == |p.results| {
      assert f.results != p.results[..|p.results|];
      assert f.results[0].truncated;
    }
    if f.results == p.results {
      assert !AnyTruncated(f.results);
    }
  }

  lemma {:induction false} FitNeverGrows(est: Context -> nat, p: Context, budget: nat)
    ensures var r := FitResults(est, p, budget).results;
            |r| < |p.results| || (|r| == |p.results| && FirstSize(r) <= FirstSize(p.results))
    decreases |p.results|, FirstSize(p.results)
  {
    if est(p) > budget && p.results != [] {
      FewerItemsSmaller(p.results);
      FitNeverGrows(est, p.(results := FewerItems(p.results)), budget);
    }
  }

  lemma {:induction false} DroppedWhenShort(est: Context -> nat, p: Context, budget: nat, first: Item) returns (it: Item)
    requires p.results != [] && ShrunkFrom(p.results[0], first) && FitResults(est, p, budget).results == []
    ensures ShrunkFrom(it, first) && ItemShort(it) && est(p.(results := [it])) > budget
    decreases |p.results|, FirstSize(p.results)
  {
    FewerItemsSmaller(p.results);
    if |p.results| > 1 {
      it := DroppedWhenShort(est, p.(results := FewerItems(p.results)), budget, first);
    } else if ShrinkItem(p.results[0]).Some? {
      ShrinkItemShrinks(p.results[0], first);
      it := DroppedWhenShort(est, p.(results := FewerItems(p.results)), budget, first);
    } else {
      it := p.results[0];
      ShrinkItemStops(it);
      assert p.(results := [it]) == p;
    }
  }

  /** A payload loses its last result only when even the first one, shortened as far as it can be, exceeds the
      budget on its own. */
  lemma AllDroppedOnlyWhenShort(est: Context -> nat, p: Context, maxTokens: nat) returns (it: Item)
    requires p.results != [] && EnforceContext(est, p, maxTokens).results == []
    ensures ShrunkFrom(it, p.results[0]) && ItemShort(it)
    ensures est(Opened(p, maxTokens).(results := [it])) > EffectiveBudget(maxTokens)
  {
    var start, budget := Opened(p, maxTokens), EffectiveBudget(maxTokens);
    FitKeepsResults(est, FitResults(est, start, budget), budget);
    it := DroppedWhenShort(est, start, budget, p.results[0]);
  }

  lemma OverBudgetIsCut(est: Context -> nat, start: Context, budget: nat)
    requires est(start) > budget && (start.results != [] || !HeadersShort(start))
    ensures var q := FitHeaders(est, FitResults(est, start, budget), budget);
            q.results != start.results || HeaderLength(q) < HeaderLength(start)
  {
    FitKeepsResults(est, FitResults(est, start, budget), budget);
    if start.results != [] {
      FewerItemsSmaller(start.results);
      FitNeverGrows(est, start.(results := FewerItems(start.results)), budget);
    } else {
      ShrinkHeadersShortens(start);
      FitKeepsResults(est, ShrinkHeaders(start).value, budget);
    }
  }

  /** A payload that fits is returned as it is. */
  lemma FittingIsKept(est: Context -> nat, p: Context, maxTokens: nat)
    requires est(Opened(p, maxTokens)) <= EffectiveBudget(maxTokens)
    ensures Fitted(est, p, maxTokens) == Opened(p, maxTokens)
  {
  }

  /** A payload comes back uncut if and only if it fits the budget less the reserve, or has nothing to cut. */
  lemma UncutIfItFits(est: Context -> nat, p: Context, maxTokens: nat)
    ensures
      var q := EnforceContext(est, p, maxTokens);
      (q.results == p.results && HeaderLength(q) == HeaderLength(p))
      <==> (est(Opened(p, maxTokens)) <= EffectiveBudget(maxTokens) || (p.results == [] && HeadersShort(p)))
  {
    var start, budget := Opened(p, maxTokens), EffectiveBudget(maxTokens);
    if est(start) > budget {
      if p.results == [] && HeadersShort(p) {
        ShrinkHeadersShortens(start);
      } else {
        OverBudgetIsCut(est, start, budget);
      }
    } else {
      FittingIsKept(est, p, maxTokens);
    }
  }
}
