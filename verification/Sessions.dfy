/** Listing the sessions of an export: conversations are merged over all shards, sorted, and turned into
    one reference per planned branch. */
module Sessions {
  import opened Branches
  import opened ConversationGraph
  import opened Sorting
  import opened Text
  import opened Wrappers

  const KEY_SEPARATOR := "#branch="

  /** A conversation as parsed. A field is `None` when it is absent or of another type than expected; `odd` is
      what the fields of another type hold. */
  datatype Conversation = Conversation(conversationId: Option<string>, id: Option<string>, mapping: Option<seq<Entry>>,
                                       current: Option<string>, title: Option<string>, createTime: Option<real>,
                                       updateTime: Option<real>, odd: string)

  /** An element of a shard; `None` when it is not an object. */
  type Element = Option<Conversation>

  datatype ExportError = DuplicateConversation(provider: string) | GraphCycle(provider: string)

  datatype Settings = Settings(branches: Env, timestamp: Option<real> -> string)

  datatype Ref = Ref(provider: string, title: string, updatedAt: string, branchId: string, snapshot: Snapshot)

  /** A dictionary in insertion order. */
  datatype Refs = Refs(order: seq<string>, byKey: map<string, Ref>)

  datatype Loaded = Loaded(all: seq<Conversation>, seen: map<string, Conversation>)

  function ProviderId(c: Conversation): string
  {
    if c.conversationId.Some? && !Blank(c.conversationId.value) then Strip(c.conversationId.value)
    else if c.id.Some? && !Blank(c.id.value) then Strip(c.id.value)
    else ""
  }

  // ---- merging shards ----

  /** The mapping as a dictionary, whose entries have no order. */
  function MappingValue(entries: seq<Entry>): map<NodeId, Value>
  {
    if entries == [] then map[]
    else MappingValue(entries[..|entries| - 1])[entries[|entries| - 1].0 := entries[|entries| - 1].1]
  }

  /** What two occurrences of one conversation are compared by. */
  datatype Content = Content(provider: string, mapping: Option<map<NodeId, Value>>, current: Option<string>,
                             title: Option<string>, createTime: Option<real>, updateTime: Option<real>, odd: string)

  function ContentOf(c: Conversation): Content
  {
    Content(ProviderId(c), if c.mapping.Some? then Some(MappingValue(c.mapping.value)) else None, c.current, c.title,
            c.createTime, c.updateTime, c.odd)
  }

  function LoadElement(st: Loaded, e: Element): Result<Loaded, ExportError>
  {
    if e.None? then Ok(st)
    else
      var c, p := e.value, ProviderId(e.value);
      if p == "" then Ok(st.(all := st.all + [c]))
      else if p in st.seen then
        if ContentOf(st.seen[p]) == ContentOf(c) then Ok(st) else Err(DuplicateConversation(p))
      else Ok(Loaded(st.all + [c], st.seen[p := c]))
  }

  function Load(elements: seq<Element>): Result<Loaded, ExportError>
  {
    if elements == [] then Ok(Loaded([], map[]))
    else
      var front := Load(elements[..|elements| - 1]);
      if front.Err? then front else LoadElement(front.value, elements[|elements| - 1])
  }

  function Flatten(shards: seq<seq<Element>>): seq<Element>
  {
    if shards == [] then [] else Flatten(shards[..|shards| - 1]) + shards[|shards| - 1]
  }

  lemma {:induction false} LoadFails(elements: seq<Element>, more: seq<Element>)
    requires Load(elements).Err?
    ensures Load(elements + more) == Load(elements)
  {
    if more == [] {
      assert elements + more == elements;
    } else {
      LoadFails(elements, more[..|more| - 1]);
      assert (elements + more)[..|elements + more| - 1] == elements + more[..|more| - 1];
    }
  }

  lemma LoadStep(earlier: seq<Element>, shard: seq<Element>, k: nat)
    requires k < |shard| && Load(earlier + shard[..k]).Ok?
    ensures Load(earlier + shard[..k + 1]) == LoadElement(Load(earlier + shard[..k]).value, shard[k])
  {
    var next := earlier + shard[..k + 1];
    assert next[..|next| - 1] == earlier + shard[..k];
  }

  lemma LoadStops(earlier: seq<Element>, shard: seq<Element>, k: nat)
    requires k <= |shard| && Load(earlier + shard[..k]).Err?
    ensures Load(earlier + shard) == Load(earlier + shard[..k])
  {
    hide Load;
    LoadFails(earlier + shard[..k], shard[k..]);
    assert earlier + shard[..k] + shard[k..] == earlier + shard;
  }

  method LoadShard(shard: seq<Element>, before: Loaded, ghost earlier: seq<Element>) returns (result: Result<Loaded, ExportError>)
    requires Load(earlier) == Ok(before)
    ensures result == Load(earlier + shard)
  {
    var st := before;
    assert earlier + shard[..0] == earlier;
    for k := 0 to |shard|
      invariant Load(earlier + shard[..k]) == Ok(st)
    {
      LoadStep(earlier, shard, k);
      var step := LoadElement(st, shard[k]);
      if step.Err? {
        LoadStops(earlier, shard, k + 1);
        return step;
      }
      st := step.value;
    }
    assert shard[..|shard|] == shard;
    return Ok(st);
  }

  /** How the conversations are divided into shards makes no difference. */
  method LoadConversations(shards: seq<seq<Element>>) returns (result: Result<Loaded, ExportError>)
    ensures result == Load(Flatten(shards))
  {
    var st := Loaded([], map[]);
    for k := 0 to |shards|
      invariant Load(Flatten(shards[..k])) == Ok(st)
    {
      assert shards[..k + 1][..k] == shards[..k];
      var next := LoadShard(shards[k], st, Flatten(shards[..k]));
      if next.Err? {
        FlattenSplit(shards, k + 1);
        LoadFails(Flatten(shards[..k + 1]), Flatten(shards[k + 1..]));
        return next;
      }
      st := next.value;
    }
    assert shards[..|shards|] == shards;
    return Ok(st);
  }

  lemma {:induction false} FlattenSplit(shards: seq<seq<Element>>, k: nat)
    requires k <= |shards|
    ensures Flatten(shards) == Flatten(shards[..k]) + Flatten(shards[k..])
    decreases |shards|
  {
    if k == |shards| {
      assert shards[..k] == shards;
    } else {
      var front := shards[..|shards| - 1];
      FlattenSplit(front, k);
      assert front[..k] == shards[..k];
      assert shards[k..][..|shards[k..]| - 1] == front[k..];
    }
  }

  // ---- references ----

  function SortTime(c: Conversation): real
  {
    if c.createTime.Some? then c.createTime.value else 0.0
  }

  predicate KeyLe(a: Conversation, b: Conversation)
  {
    SortTime(a) < SortTime(b) || (SortTime(a) == SortTime(b) && StrLe(ProviderId(a), ProviderId(b)))
  }

  function TitleOf(c: Conversation): string
  {
    if c.title.Some? && !Blank(c.title.value) then c.title.value
    else if ProviderId(c) != "" then ProviderId(c)
    else "Untitled"
  }

  function CurrentId(c: Conversation): NodeId
  {
    if c.current.Some? then c.current.value else ""
  }

  function Put(refs: Refs, key: string, r: Ref): Refs
  {
    Refs(if key in refs.byKey then refs.order else refs.order + [key], refs.byKey[key := r])
  }

  function RefOf(provider: string, title: string, updatedAt: string, p: Plan): Ref
  {
    Ref(provider, title, updatedAt, p.branchId, p.snapshot)
  }

  function PutPlans(refs: Refs, provider: string, title: string, updatedAt: string, plans: seq<Plan>): Refs
  {
    if plans == [] then refs
    else
      var p := plans[|plans| - 1];
      Put(PutPlans(refs, provider, title, updatedAt, plans[..|plans| - 1]), provider + KEY_SEPARATOR + p.branchId,
          RefOf(provider, title, updatedAt, p))
  }

  ghost function AddConversation(s: Settings, refs: Refs, c: Conversation): Result<Refs, ExportError>
  {
    var p := ProviderId(c);
    if p == "" || c.mapping.None? then Ok(refs)
    else
      var g := FromEntries(c.mapping.value);
      if !Acyclic(g.nodes) then Err(GraphCycle(p))
      else Ok(PutPlans(refs, p, TitleOf(c), s.timestamp(c.updateTime), PlansOf(s.branches, g, p, CurrentId(c))))
  }

  ghost function BuildRefs(s: Settings, convs: seq<Conversation>): Result<Refs, ExportError>
  {
    if convs == [] then Ok(Refs([], map[]))
    else
      var front := BuildRefs(s, convs[..|convs| - 1]);
      if front.Err? then front else AddConversation(s, front.value, convs[|convs| - 1])
  }

  /** The references in dictionary order. */
  function Values(refs: Refs, keys: seq<string>): seq<Ref>
  {
    if keys == [] then []
    else
      var k := keys[|keys| - 1];
      Values(refs, keys[..|keys| - 1]) + (if k in refs.byKey then [refs.byKey[k]] else [])
  }

  ghost function ListSessions(s: Settings, elements: seq<Element>): Result<seq<Ref>, ExportError>
  {
    var loaded := Load(elements);
    if loaded.Err? then Err(loaded.error)
    else
      var refs := BuildRefs(s, Sort(loaded.value.all, KeyLe));
      if refs.Err? then Err(refs.error) else Ok(Values(refs.value, refs.value.order))
  }

  lemma {:induction false} BuildRefsFails(s: Settings, convs: seq<Conversation>, more: seq<Conversation>)
    requires BuildRefs(s, convs).Err?
    ensures BuildRefs(s, convs + more) == BuildRefs(s, convs)
  {
    if more == [] {
      assert convs + more == convs;
    } else {
      BuildRefsFails(s, convs, more[..|more| - 1]);
      assert (convs + more)[..|convs + more| - 1] == convs + more[..|more| - 1];
    }
  }

  method AddPlans(refs: Refs, provider: string, title: string, updatedAt: string, plans: seq<Plan>) returns (after: Refs)
    ensures after == PutPlans(refs, provider, title, updatedAt, plans)
  {
    after := refs;
    for k := 0 to |plans|
      invariant after == PutPlans(refs, provider, title, updatedAt, plans[..k])
    {
      assert plans[..k + 1][..k] == plans[..k];
      after := Put(after, provider + KEY_SEPARATOR + plans[k].branchId, RefOf(provider, title, updatedAt, plans[k]));
    }
    assert plans[..|plans|] == plans;
  }

  method AddRefs(s: Settings, refs: Refs, c: Conversation) returns (result: Result<Refs, ExportError>)
    ensures result == AddConversation(s, refs, c)
  {
    var p := ProviderId(c);
    if p == "" || c.mapping.None? {
      return Ok(refs);
    }
    var plans := PlanBranches(s.branches, p, c.mapping.value, CurrentId(c));
    if plans.None? {
      return Err(GraphCycle(p));
    }
    var after := AddPlans(refs, p, TitleOf(c), s.timestamp(c.updateTime), plans.value);
    return Ok(after);
  }

  method MakeRefs(s: Settings, convs: seq<Conversation>) returns (result: Result<Refs, ExportError>)
    ensures result == BuildRefs(s, convs)
  {
    hide AddConversation;
    var refs := Refs([], map[]);
    for k := 0 to |convs|
      invariant BuildRefs(s, convs[..k]) == Ok(refs)
    {
      assert convs[..k + 1][..k] == convs[..k];
      var next := AddRefs(s, refs, convs[k]);
      if next.Err? {
        BuildRefsFails(s, convs[..k + 1], convs[k + 1..]);
        assert convs[..k + 1] + convs[k + 1..] == convs;
        return Err(next.error);
      }
      refs := next.value;
    }
    assert convs[..|convs|] == convs;
    return Ok(refs);
  }

  method List(s: Settings, shards: seq<seq<Element>>) returns (result: Result<seq<Ref>, ExportError>)
    ensures result == ListSessions(s, Flatten(shards))
  {
    var loaded := LoadConversations(shards);
    if loaded.Err? {
      return Err(loaded.error);
    }
    var refs := MakeRefs(s, Sort(loaded.value.all, KeyLe));
    if refs.Err? {
      return Err(refs.error);
    }
    return Ok(Values(refs.value, refs.value.order));
  }
}
