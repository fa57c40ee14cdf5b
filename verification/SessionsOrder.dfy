/** The sessions an export lists depend on which conversations it holds, not on how they are spread over
    shards, repeated, or internally ordered. */
module SessionsOrder {
  import opened Branches
  import opened ConversationGraph
  import opened Sessions
  import opened Sorting
  import opened Text
  import opened Wrappers

  // ---- graphs that differ in the order of children only ----

  /** The same nodes with the same existing children, in whatever order. */
  ghost predicate Alike(g: Nodes, h: Nodes)
  {
    g.Keys == h.Keys && forall n :: n in g ==> SameButChildren(g[n], h[n]) && SameChildren(g, g[n], h[n])
  }

  ghost predicate SameChildren(g: Nodes, a: Node, b: Node)
  {
    forall c :: c in g ==> (c in a.children <==> c in b.children)
  }

  lemma {:induction false} ChainAlike(g: Nodes, h: Nodes, n: NodeId, k: nat)
    requires Alike(g, h)
    ensures Chain(g, n, k) == Chain(h, n, k)
  {
    if k != 0 {
      ChainAlike(g, h, n, k - 1);
    }
  }

  lemma CycleAlike(g: Nodes, h: Nodes, n: NodeId)
    requires Alike(g, h) && EntersCycle(g, n)
    ensures EntersCycle(h, n)
  {
    var i: nat :| Chain(g, n, i).Some? && OnCycle(g, Chain(g, n, i).value);
    var x := Chain(g, n, i).value;
    var p: nat :| p > 0 && Chain(g, x, p) == Some(x);
    ChainAlike(g, h, n, i);
    ChainAlike(g, h, x, p);
    assert OnCycle(h, x);
  }

  lemma AcyclicAlike(g: Nodes, h: Nodes)
    requires Alike(g, h)
    ensures Acyclic(g) <==> Acyclic(h)
  {
    forall n | n in g ensures EntersCycle(g, n) <==> EntersCycle(h, n) {
      if EntersCycle(g, n) { CycleAlike(g, h, n); }
      if EntersCycle(h, n) { CycleAlike(h, g, n); }
    }
  }

  lemma {:induction false} PathFromAlike(g: Nodes, h: Nodes, current: Option<NodeId>, seen: set<NodeId>)
    requires Alike(g, h)
    ensures PathFrom(g, current, seen) == PathFrom(h, current, seen)
    decreases |g.Keys - seen|, if current.Some? && current.value !in g then 1 else 0
  {
    ParentAlike(g, h, if current.Some? then current.value else "");
    hide Alike, ParentOf;
    if current.Some? && current.value !in seen {
      Shrinks(g.Keys, seen, current.value);
      PathFromAlike(g, h, ParentOf(g, current.value), seen + {current.value});
    }
  }

  lemma ParentAlike(g: Nodes, h: Nodes, n: NodeId)
    requires Alike(g, h)
    ensures g.Keys == h.Keys && ParentOf(g, n) == ParentOf(h, n)
  {
  }

  lemma {:induction false} PathTextsAlike(g: Nodes, h: Nodes, path: seq<NodeId>)
    requires Alike(g, h)
    ensures VisibleSequence(g, path) == VisibleSequence(h, path)
    ensures PathParts(g, path) == PathParts(h, path)
    ensures SnapshotNodes(g, path) == SnapshotNodes(h, path)
  {
    if path != [] {
      PathTextsAlike(g, h, path[..|path| - 1]);
    }
  }

  lemma CandidateAlike(g: Nodes, h: Nodes, leaf: NodeId)
    requires Alike(g, h)
    ensures CandidateFor(g, leaf) == CandidateFor(h, leaf)
  {
    PathFromAlike(g, h, Some(leaf), {});
    PathTextsAlike(g, h, PathTo(g, leaf));
  }

  lemma {:induction false} LeafCandidatesAlike(g: Nodes, h: Nodes, leaves: seq<NodeId>, current: NodeId)
    requires Alike(g, h)
    ensures LeafCandidates(g, leaves, current) == LeafCandidates(h, leaves, current)
  {
    if leaves != [] {
      LeafCandidatesAlike(g, h, leaves[..|leaves| - 1], current);
      CandidateAlike(g, h, leaves[|leaves| - 1]);
    }
  }

  lemma PlanAlike(env: Env, g: Nodes, h: Nodes, provider: string, c: Candidate, first: bool, current: NodeId)
    requires Alike(g, h)
    ensures PlanFor(env, g, provider, c, first, current) == PlanFor(env, h, provider, c, first, current)
  {
    PathTextsAlike(g, h, c.path);
  }

  lemma {:induction false} PlansAlike(env: Env, g: Nodes, h: Nodes, provider: string, cands: seq<Candidate>, current: NodeId)
    requires Alike(g, h)
    ensures PlansFor(env, g, provider, cands, current) == PlansFor(env, h, provider, cands, current)
  {
    if cands != [] {
      PlansAlike(env, g, h, provider, cands[..|cands| - 1], current);
      PlanAlike(env, g, h, provider, cands[|cands| - 1], |cands| == 1, current);
    }
  }

  lemma ChildlessNode(g: Nodes, n: NodeId)
    requires n in g
    ensures ChildrenOf(g, n) == [] <==> forall c :: c in g ==> c !in g[n].children
  {
    ChildrenElements(g, n);
    if ChildrenOf(g, n) != [] {
      assert ChildrenOf(g, n)[0] in ChildrenOf(g, n);
    }
  }

  lemma {:induction false} ChildlessAlike(g: Nodes, h: Nodes, ids: seq<NodeId>)
    requires Alike(g, h) && forall i :: 0 <= i < |ids| ==> ids[i] in g
    ensures Childless(g, ids) == Childless(h, ids)
  {
    if ids != [] {
      ChildlessAlike(g, h, ids[..|ids| - 1]);
      ChildlessNode(g, ids[|ids| - 1]);
      ChildlessNode(h, ids[|ids| - 1]);
    }
  }

  /** Neither the order of the mapping's entries nor that of its children lists influences the plans. */
  lemma PlansIgnoreOrder(env: Env, g: Graph, h: Graph, provider: string, current: NodeId)
    requires Valid(g) && Valid(h) && Alike(g.nodes, h.nodes)
    ensures PlansOf(env, g, provider, current) == PlansOf(env, h, provider, current)
  {
    SortedIdsUnique(g, h);
    SortAscending(g.order);
    forall i | 0 <= i < |SortedIds(g)| ensures SortedIds(g)[i] in g.nodes {
      assert SortedIds(g)[i] in SortedIds(g);
    }
    ChildlessAlike(g.nodes, h.nodes, SortedIds(g));
    LeafCandidatesAlike(g.nodes, h.nodes, LeafIds(g), current);
    CandidateAlike(g.nodes, h.nodes, current);
    PlansAlike(env, g.nodes, h.nodes, provider, Candidates(g, current), current);
  }

  // ---- what a conversation contributes ----

  datatype CoreNode = CoreNode(id: Option<string>, parent: Option<NodeId>, message: Option<Message>, children: set<NodeId>)

  /** All of a conversation that its references can depend on. */
  datatype Core = Core(provider: string, nodes: Option<map<NodeId, CoreNode>>, current: NodeId, title: string, time: real,
                       updatedAt: string)

  function CoreNodes(g: Nodes): map<NodeId, CoreNode>
  {
    map n | n in g :: CoreNode(g[n].id, g[n].parent, g[n].message, set c | c in g[n].children && c in g)
  }

  function CoreOf(s: Settings, c: Conversation): Core
  {
    Core(ProviderId(c), if c.mapping.Some? then Some(CoreNodes(FromEntries(c.mapping.value).nodes)) else None,
         CurrentId(c), TitleOf(c), SortTime(c), s.timestamp(c.updateTime))
  }

  lemma CoreAlike(g: Nodes, h: Nodes)
    requires CoreNodes(g) == CoreNodes(h)
    ensures Alike(g, h)
  {
    assert g.Keys == CoreNodes(g).Keys && h.Keys == CoreNodes(h).Keys;
    forall n | n in g ensures SameButChildren(g[n], h[n]) && SameChildren(g, g[n], h[n]) {
      assert CoreNodes(g)[n] == CoreNodes(h)[n];
      forall c | c in g ensures c in g[n].children <==> c in h[n].children {
        assert c in g[n].children <==> c in CoreNodes(g)[n].children;
        assert c in h[n].children <==> c in CoreNodes(h)[n].children;
      }
    }
  }

  lemma AddSame(s: Settings, refs: Refs, a: Conversation, b: Conversation)
    requires CoreOf(s, a) == CoreOf(s, b)
    ensures AddConversation(s, refs, a) == AddConversation(s, refs, b)
  {
    if a.mapping.Some? {
      var g, h := FromEntries(a.mapping.value), FromEntries(b.mapping.value);
      CoreAlike(g.nodes, h.nodes);
      FromEntriesValid(a.mapping.value);
      FromEntriesValid(b.mapping.value);
      AcyclicAlike(g.nodes, h.nodes);
      PlansIgnoreOrder(s.branches, g, h, ProviderId(a), CurrentId(a));
    }
  }

  function Cores(s: Settings, convs: seq<Conversation>): (r: seq<Core>)
    ensures |r| == |convs|
  {
    if convs == [] then [] else Cores(s, convs[..|convs| - 1]) + [CoreOf(s, convs[|convs| - 1])]
  }

  lemma {:induction false} CoresAt(s: Settings, convs: seq<Conversation>, i: nat)
    requires i < |convs|
    ensures Cores(s, convs)[i] == CoreOf(s, convs[i])
  {
    if i < |convs| - 1 {
      CoresAt(s, convs[..|convs| - 1], i);
    }
  }

  lemma {:induction false} BuildSame(s: Settings, a: seq<Conversation>, b: seq<Conversation>)
    requires Cores(s, a) == Cores(s, b)
    ensures BuildRefs(s, a) == BuildRefs(s, b)
  {
    assert |a| == |b|;
    if a != [] {
      var n := |a| - 1;
      assert Cores(s, a)[..n] == Cores(s, a[..n]) && Cores(s, b)[..n] == Cores(s, b[..n]);
      BuildSame(s, a[..n], b[..n]);
      assert CoreOf(s, a[n]) == Cores(s, a)[n] == Cores(s, b)[n] == CoreOf(s, b[n]);
      if BuildRefs(s, a[..n]).Ok? {
        AddSame(s, BuildRefs(s, a[..n]).value, a[n], b[n]);
      }
    }
  }

  // ---- conversations without an id contribute nothing ----

  function Named(convs: seq<Conversation>): seq<Conversation>
  {
    if convs == [] then []
    else
      var front := Named(convs[..|convs| - 1]);
      if ProviderId(convs[|convs| - 1]) == "" then front else front + [convs[|convs| - 1]]
  }

  lemma {:induction false} BuildNamed(s: Settings, convs: seq<Conversation>)
    ensures BuildRefs(s, Named(convs)) == BuildRefs(s, convs)
  {
    if convs != [] {
      var front, last := convs[..|convs| - 1], convs[|convs| - 1];
      BuildNamed(s, front);
      if ProviderId(last) != "" {
        assert Named(convs)[..|Named(convs)| - 1] == Named(front);
      }
    }
  }

  lemma {:induction false} NamedCount(convs: seq<Conversation>, x: Conversation)
    ensures multiset(Named(convs))[x] == if ProviderId(x) == "" then 0 else multiset(convs)[x]
  {
    if convs != [] {
      NamedCount(convs[..|convs| - 1], x);
      assert convs == convs[..|convs| - 1] + [convs[|convs| - 1]];
    }
  }

  lemma NamedMembers(convs: seq<Conversation>)
    ensures forall x :: x in Named(convs) <==> x in convs && ProviderId(x) != ""
  {
    forall x ensures x in Named(convs) <==> x in convs && ProviderId(x) != "" {
      NamedCount(convs, x);
      assert x in Named(convs) <==> x in multiset(Named(convs));
      assert x in convs <==> x in multiset(convs);
    }
  }

  lemma NamedPermutation(a: seq<Conversation>, b: seq<Conversation>)
    requires multiset(a) == multiset(b)
    ensures multiset(Named(a)) == multiset(Named(b))
  {
    forall x ensures multiset(Named(a))[x] == multiset(Named(b))[x] {
      NamedCount(a, x);
      NamedCount(b, x);
    }
  }

  lemma {:induction false} NamedSorted(convs: seq<Conversation>)
    requires SortedBy(KeyLe, convs)
    ensures SortedBy(KeyLe, Named(convs))
  {
    if convs != [] {
      var front, last := convs[..|convs| - 1], convs[|convs| - 1];
      NamedSorted(front);
      NamedMembers(front);
      forall i | 0 <= i < |Named(front)| ensures KeyLe(Named(front)[i], last) {
        assert Named(front)[i] in front;
        var j :| 0 <= j < |front| && front[j] == Named(front)[i];
        assert convs[j] == front[j];
      }
    }
  }

  lemma KeyLeTotal(dom: set<Conversation>)
    ensures TotalOrderOn(KeyLe, dom)
  {
    forall x, y | x in dom && y in dom ensures KeyLe(x, y) || KeyLe(y, x) {
      StrLtTotal(ProviderId(x), ProviderId(y));
    }
    forall x, y, z | x in dom && y in dom && z in dom && KeyLe(x, y) && KeyLe(y, z) ensures KeyLe(x, z) {
      if StrLt(ProviderId(x), ProviderId(y)) && StrLt(ProviderId(y), ProviderId(z)) {
        StrLtTransitive(ProviderId(x), ProviderId(y), ProviderId(z));
      }
    }
  }

  // ---- the sorted order of distinct conversations is determined ----

  predicate CoreLe(a: Core, b: Core)
  {
    a.time < b.time || (a.time == b.time && StrLe(a.provider, b.provider))
  }

  /** Every conversation with an id occurs once, and no two of them share it. */
  ghost predicate NamedOnce(convs: seq<Conversation>)
  {
    Distinct(Named(convs))
    && forall x, y :: x in convs && y in convs && ProviderId(x) != "" && ProviderId(x) == ProviderId(y) ==> x == y
  }

  ghost predicate SameCores(s: Settings, a: seq<Conversation>, b: seq<Conversation>)
  {
    forall x :: x in Cores(s, a) <==> x in Cores(s, b)
  }

  /** The conversations with an id, in the order their references are built. */
  function Arranged(convs: seq<Conversation>): seq<Conversation>
  {
    Named(Sort(convs, KeyLe))
  }

  lemma ArrangedFacts(s: Settings, convs: seq<Conversation>)
    requires NamedOnce(convs)
    ensures multiset(Arranged(convs)) == multiset(Named(convs))
    ensures SortedBy(KeyLe, Arranged(convs))
    ensures DistinctProviders(Arranged(convs))
  {
    var dom := set x | x in convs;
    KeyLeTotal(dom);
    SortSorted(convs, KeyLe, dom);
    NamedSorted(Sort(convs, KeyLe));
    NamedPermutation(Sort(convs, KeyLe), convs);
    DistinctPermutation(Named(convs), Arranged(convs));
    SortElements(convs, KeyLe);
    NamedMembers(Sort(convs, KeyLe));
    var r := Arranged(convs);
    forall i, j | 0 <= i < j < |r| ensures ProviderId(r[i]) != ProviderId(r[j]) {
      assert r[i] in r && r[j] in r;
    }
  }

  ghost predicate DistinctProviders(convs: seq<Conversation>)
  {
    forall i, j :: 0 <= i < j < |convs| ==> ProviderId(convs[i]) != ProviderId(convs[j])
  }

  lemma CoresArranged(s: Settings, convs: seq<Conversation>)
    requires SortedBy(KeyLe, convs) && DistinctProviders(convs)
    ensures SortedBy(CoreLe, Cores(s, convs)) && Distinct(Cores(s, convs))
  {
    var r := Cores(s, convs);
    forall i, j | 0 <= i < j < |r| ensures CoreLe(r[i], r[j]) && r[i] != r[j] {
      CoresAt(s, convs, i);
      CoresAt(s, convs, j);
      assert KeyLe(convs[i], convs[j]);
    }
  }

  lemma CoreMember(s: Settings, convs: seq<Conversation>, x: Core)
    ensures x in Cores(s, convs) <==> exists c :: c in convs && CoreOf(s, c) == x
  {
    if x in Cores(s, convs) {
      var i :| 0 <= i < |Cores(s, convs)| && Cores(s, convs)[i] == x;
      CoresAt(s, convs, i);
      assert convs[i] in convs;
    }
    if c :| c in convs && CoreOf(s, c) == x {
      var i :| 0 <= i < |convs| && convs[i] == c;
      CoresAt(s, convs, i);
    }
  }

  lemma MembersCores(s: Settings, a: seq<Conversation>, b: seq<Conversation>)
    requires forall x :: x in a <==> x in b
    ensures SameCores(s, a, b)
  {
    forall x ensures x in Cores(s, a) <==> x in Cores(s, b) {
      CoreMember(s, a, x);
      CoreMember(s, b, x);
    }
  }

  lemma CoresAntisymmetric(s: Settings, convs: seq<Conversation>, dom: set<Core>)
    requires DistinctProviders(convs) && forall x :: x in dom ==> x in Cores(s, convs)
    ensures AntisymmetricOn(CoreLe, dom)
  {
    forall x, y | x in dom && y in dom && CoreLe(x, y) && CoreLe(y, x) ensures x == y {
      var i :| 0 <= i < |convs| && Cores(s, convs)[i] == x;
      var j :| 0 <= j < |convs| && Cores(s, convs)[j] == y;
      CoresAt(s, convs, i);
      CoresAt(s, convs, j);
      if StrLt(x.provider, y.provider) { StrLtAsymmetric(x.provider, y.provider); }
      assert ProviderId(convs[i]) == ProviderId(convs[j]);
      assert i == j;
    }
  }

  lemma SameArrangement(s: Settings, a: seq<Conversation>, b: seq<Conversation>)
    requires NamedOnce(a) && NamedOnce(b) && SameCores(s, Named(a), Named(b))
    ensures Cores(s, Arranged(a)) == Cores(s, Arranged(b))
  {
    ArrangedFacts(s, a);
    ArrangedFacts(s, b);
    SameElements(Arranged(a), Named(a));
    SameElements(Arranged(b), Named(b));
    MembersCores(s, Arranged(a), Named(a));
    MembersCores(s, Arranged(b), Named(b));
    CoresArranged(s, Arranged(a));
    CoresArranged(s, Arranged(b));
    SameMembers(Cores(s, Arranged(a)), Cores(s, Arranged(b)));
    var dom := set x | x in Cores(s, Arranged(a));
    CoresAntisymmetric(s, Arranged(a), dom);
    SortedUnique(Cores(s, Arranged(a)), Cores(s, Arranged(b)), CoreLe, dom);
  }

  lemma RefsSame(s: Settings, a: seq<Conversation>, b: seq<Conversation>)
    requires NamedOnce(a) && NamedOnce(b) && SameCores(s, Named(a), Named(b))
    ensures BuildRefs(s, Sort(a, KeyLe)) == BuildRefs(s, Sort(b, KeyLe))
  {
    SameArrangement(s, a, b);
    BuildSame(s, Arranged(a), Arranged(b));
    BuildNamed(s, Sort(a, KeyLe));
    BuildNamed(s, Sort(b, KeyLe));
  }

  // ---- what loading keeps ----

  predicate HasId(e: Element)
  {
    e.Some? && ProviderId(e.value) != ""
  }

  /** Occurrences of one conversation agree. */
  ghost predicate Consistent(elements: seq<Element>)
  {
    forall a, b | a in elements && b in elements && HasId(a) && HasId(b)
      :: ProviderId(a.value) == ProviderId(b.value) ==> ContentOf(a.value) == ContentOf(b.value)
  }

  /** `seen` holds one occurrence of every conversation with an id. */
  ghost predicate SeenFits(seen: map<string, Conversation>, elements: seq<Element>)
  {
    && (forall e :: e in elements && HasId(e) ==>
          ProviderId(e.value) in seen && ContentOf(seen[ProviderId(e.value)]) == ContentOf(e.value))
    && (forall p :: p in seen ==> p != "" && ProviderId(seen[p]) == p && Some(seen[p]) in elements)
  }

  /** The conversations with an id among `all` are those of `seen`, each once. */
  ghost predicate NamedFits(all: seq<Conversation>, seen: map<string, Conversation>)
  {
    && (forall c :: c in Named(all) <==> ProviderId(c) in seen && seen[ProviderId(c)] == c)
    && Distinct(Named(all))
  }

  ghost predicate Represents(st: Loaded, elements: seq<Element>)
  {
    SeenFits(st.seen, elements) && NamedFits(st.all, st.seen)
  }

  lemma NamedAppend(convs: seq<Conversation>, c: Conversation)
    ensures Named(convs + [c]) == if ProviderId(c) == "" then Named(convs) else Named(convs) + [c]
  {
    assert (convs + [c])[..|convs|] == convs;
  }

  lemma SeenGrows(seen: map<string, Conversation>, elements: seq<Element>, c: Conversation)
    requires SeenFits(seen, elements) && HasId(Some(c)) && ProviderId(c) !in seen
    ensures SeenFits(seen[ProviderId(c) := c], elements + [Some(c)])
  {
  }

  lemma SeenStays(seen: map<string, Conversation>, elements: seq<Element>, e: Element)
    requires SeenFits(seen, elements)
    requires HasId(e) ==> ProviderId(e.value) in seen && ContentOf(seen[ProviderId(e.value)]) == ContentOf(e.value)
    ensures SeenFits(seen, elements + [e])
  {
  }

  lemma NamedGrows(all: seq<Conversation>, seen: map<string, Conversation>, c: Conversation)
    requires NamedFits(all, seen) && ProviderId(c) != "" && ProviderId(c) !in seen
    ensures NamedFits(all + [c], seen[ProviderId(c) := c])
  {
    NamedAppend(all, c);
    forall x ensures x in Named(all + [c]) <==> x in Named(all) || x == c {
    }
  }

  lemma RepresentsStep(st: Loaded, elements: seq<Element>, e: Element)
    requires Represents(st, elements) && LoadElement(st, e).Ok?
    ensures Represents(LoadElement(st, e).value, elements + [e])
  {
    if HasId(e) && ProviderId(e.value) !in st.seen {
      SeenGrows(st.seen, elements, e.value);
      NamedGrows(st.all, st.seen, e.value);
    } else {
      SeenStays(st.seen, elements, e);
      if e.Some? { NamedAppend(st.all, e.value); }
    }
  }

  lemma {:induction false} LoadRepresents(elements: seq<Element>)
    requires Load(elements).Ok?
    ensures Represents(Load(elements).value, elements)
  {
    if elements != [] {
      var front := elements[..|elements| - 1];
      LoadRepresents(front);
      RepresentsStep(Load(front).value, front, elements[|elements| - 1]);
      assert elements == front + [elements[|elements| - 1]];
    }
  }

  /** An export loads exactly when its repeated conversations agree. */
  lemma {:induction false} LoadsWhenConsistent(elements: seq<Element>)
    ensures Load(elements).Ok? <==> Consistent(elements)
  {
    if elements != [] {
      var front, e := elements[..|elements| - 1], elements[|elements| - 1];
      assert elements == front + [e];
      LoadsWhenConsistent(front);
      if Load(front).Ok? {
        LoadRepresents(front);
        LastDecides(Load(front).value, front, e);
      } else {
        assert !Consistent(elements);
      }
    }
  }

  lemma LastDecides(st: Loaded, front: seq<Element>, e: Element)
    requires Represents(st, front) && Consistent(front)
    ensures LoadElement(st, e).Ok? <==> Consistent(front + [e])
  {
    if HasId(e) && ProviderId(e.value) in st.seen {
      var kept := Some(st.seen[ProviderId(e.value)]);
      assert kept in front && kept in front + [e] && e in front + [e];
    }
  }

  lemma RepresentsOnce(st: Loaded, elements: seq<Element>)
    requires Represents(st, elements)
    ensures NamedOnce(st.all)
  {
    NamedMembers(st.all);
    forall x, y | x in st.all && y in st.all && ProviderId(x) != "" && ProviderId(x) == ProviderId(y) ensures x == y {
      assert x in Named(st.all) && y in Named(st.all);
    }
  }

  /** A parsed object holds every key once. */
  predicate ParsedObject(entries: seq<Entry>)
  {
    forall i, j :: 0 <= i < j < |entries| ==> entries[i].0 != entries[j].0
  }

  ghost predicate Parsed(elements: seq<Element>)
  {
    forall e :: e in elements && e.Some? && e.value.mapping.Some? ==> ParsedObject(e.value.mapping.value)
  }

  lemma {:induction false} MappingKeys(entries: seq<Entry>)
    ensures forall n :: n in MappingValue(entries) ==> exists i :: 0 <= i < |entries| && entries[i].0 == n
  {
    if entries != [] {
      MappingKeys(entries[..|entries| - 1]);
    }
  }

  function ObjectsOf(values: map<NodeId, Value>): Nodes
  {
    map n | n in values && values[n].Object? :: values[n].node
  }

  /** The nodes built from a mapping are those of the dictionary. */
  lemma {:induction false} NodesOfMapping(entries: seq<Entry>)
    requires ParsedObject(entries)
    ensures FromEntries(entries).nodes == ObjectsOf(MappingValue(entries))
  {
    if entries != [] {
      var front := entries[..|entries| - 1];
      NodesOfMapping(front);
      MappingKeys(front);
    }
  }

  lemma ContentDecidesCore(s: Settings, a: Conversation, b: Conversation)
    requires ContentOf(a) == ContentOf(b)
    requires a.mapping.Some? ==> ParsedObject(a.mapping.value)
    requires b.mapping.Some? ==> ParsedObject(b.mapping.value)
    ensures CoreOf(s, a) == CoreOf(s, b)
  {
    if a.mapping.Some? {
      NodesOfMapping(a.mapping.value);
      NodesOfMapping(b.mapping.value);
    }
  }

  /** Some occurrence contributes this. */
  ghost predicate Holds(s: Settings, elements: seq<Element>, x: Core)
  {
    exists e :: e in elements && HasId(e) && CoreOf(s, e.value) == x
  }

  lemma LoadedCores(s: Settings, st: Loaded, elements: seq<Element>, x: Core)
    requires Parsed(elements) && Represents(st, elements)
    ensures x in Cores(s, Named(st.all)) <==> Holds(s, elements, x)
  {
    CoreMember(s, Named(st.all), x);
    if x in Cores(s, Named(st.all)) {
      var c :| c in Named(st.all) && CoreOf(s, c) == x;
      assert Some(c) in elements && HasId(Some(c));
    }
    if Holds(s, elements, x) {
      var e :| e in elements && HasId(e) && CoreOf(s, e.value) == x;
      var c := st.seen[ProviderId(e.value)];
      assert Some(c) in elements;
      ContentDecidesCore(s, c, e.value);
      assert c in Named(st.all);
    }
  }

  /** Two exports whose conversations contribute the same list the same sessions in the same order: it
      matters neither how conversations are spread over shards or repeated, nor how the entries of a
      mapping or the children of a node are ordered. */
  lemma SessionsIgnoreOrder(s: Settings, a: seq<seq<Element>>, b: seq<seq<Element>>)
    requires Parsed(Flatten(a)) && Parsed(Flatten(b)) && Consistent(Flatten(a)) && Consistent(Flatten(b))
    requires forall x :: Holds(s, Flatten(a), x) <==> Holds(s, Flatten(b), x)
    ensures ListSessions(s, Flatten(a)) == ListSessions(s, Flatten(b))
  {
    LoadsWhenConsistent(Flatten(a));
    LoadsWhenConsistent(Flatten(b));
    LoadRepresents(Flatten(a));
    LoadRepresents(Flatten(b));
    var p, q := Load(Flatten(a)).value, Load(Flatten(b)).value;
    RepresentsOnce(p, Flatten(a));
    RepresentsOnce(q, Flatten(b));
    forall x ensures x in Cores(s, Named(p.all)) <==> x in Cores(s, Named(q.all)) {
      LoadedCores(s, p, Flatten(a), x);
      LoadedCores(s, q, Flatten(b), x);
    }
    RefsSame(s, p.all, q.all);
  }

  // ---- whole contents ----

  ghost predicate HoldsContent(elements: seq<Element>, x: Content)
  {
    exists e :: e in elements && HasId(e) && ContentOf(e.value) == x
  }

  lemma ContentsDecideConsistency(a: seq<Element>, b: seq<Element>)
    requires forall x :: HoldsContent(a, x) ==> HoldsContent(b, x)
    requires Consistent(b)
    ensures Consistent(a)
  {
    forall d, e | d in a && e in a && HasId(d) && HasId(e) && ProviderId(d.value) == ProviderId(e.value)
      ensures ContentOf(d.value) == ContentOf(e.value)
    {
      assert HoldsContent(a, ContentOf(d.value)) && HoldsContent(a, ContentOf(e.value));
      var d' :| d' in b && HasId(d') && ContentOf(d'.value) == ContentOf(d.value);
      var e' :| e' in b && HasId(e') && ContentOf(e'.value) == ContentOf(e.value);
      assert ProviderId(d'.value) == ContentOf(d'.value).provider;
      assert ProviderId(e'.value) == ContentOf(e'.value).provider;
    }
  }

  lemma ContentsDecideCores(s: Settings, a: seq<Element>, b: seq<Element>, x: Core)
    requires Parsed(a) && Parsed(b) && Holds(s, a, x)
    requires forall y :: HoldsContent(a, y) ==> HoldsContent(b, y)
    ensures Holds(s, b, x)
  {
    var e :| e in a && HasId(e) && CoreOf(s, e.value) == x;
    assert HoldsContent(a, ContentOf(e.value));
    var f :| f in b && HasId(f) && ContentOf(f.value) == ContentOf(e.value);
    ContentDecidesCore(s, e.value, f.value);
  }

  /** Exports that hold the same conversations are both refused for contradicting repetitions, or list the
      same sessions. */
  lemma SameConversationsSameSessions(s: Settings, a: seq<seq<Element>>, b: seq<seq<Element>>)
    requires Parsed(Flatten(a)) && Parsed(Flatten(b))
    requires forall x :: HoldsContent(Flatten(a), x) <==> HoldsContent(Flatten(b), x)
    ensures Load(Flatten(a)).Ok? == Load(Flatten(b)).Ok?
    ensures Load(Flatten(a)).Ok? ==> ListSessions(s, Flatten(a)) == ListSessions(s, Flatten(b))
  {
    LoadsWhenConsistent(Flatten(a));
    LoadsWhenConsistent(Flatten(b));
    if Load(Flatten(b)).Ok? { ContentsDecideConsistency(Flatten(a), Flatten(b)); }
    if Load(Flatten(a)).Ok? {
      ContentsDecideConsistency(Flatten(b), Flatten(a));
      forall x ensures Holds(s, Flatten(a), x) <==> Holds(s, Flatten(b), x) {
        if Holds(s, Flatten(a), x) { ContentsDecideCores(s, Flatten(a), Flatten(b), x); }
        if Holds(s, Flatten(b), x) { ContentsDecideCores(s, Flatten(b), Flatten(a), x); }
      }
      SessionsIgnoreOrder(s, a, b);
    }
  }

  // ---- where the order of children does matter ----

  function Plain(parent: Option<NodeId>, children: seq<NodeId>): Node
  {
    Node(None, parent, children, None, "")
  }

  /** A root with the children x and y, listed in the given order. */
  function Tiny(children: seq<NodeId>): Conversation
  {
    Conversation(Some("c"), None, Some(TinyEntries(children)), None, None, None, None, "")
  }

  function TinyEntries(children: seq<NodeId>): seq<Entry>
  {
    [("r", Object(Plain(None, children))), ("x", Object(Plain(Some("r"), []))), ("y", Object(Plain(Some("r"), [])))]
  }

  lemma TinyNodes(children: seq<NodeId>)
    ensures MappingValue(TinyEntries(children))
         == map["r" := Object(Plain(None, children)), "x" := Object(Plain(Some("r"), [])), "y" := Object(Plain(Some("r"), []))]
    ensures FromEntries(TinyEntries(children)).nodes
         == map["r" := Plain(None, children), "x" := Plain(Some("r"), []), "y" := Plain(Some("r"), [])]
  {
    var e := TinyEntries(children);
    var two, one := e[..2], e[..1];
    assert two[..1] == one && one[..0] == [];
    assert MappingValue(one) == map["r" := Object(Plain(None, children))];
    assert MappingValue(two) == map["r" := Object(Plain(None, children)), "x" := Object(Plain(Some("r"), []))];
    assert FromEntries(one).nodes == map["r" := Plain(None, children)];
    assert FromEntries(two).nodes == map["r" := Plain(None, children), "x" := Plain(Some("r"), [])];
  }

  lemma TinyContents()
    ensures ContentOf(Tiny(["x", "y"])) != ContentOf(Tiny(["y", "x"]))
  {
    TinyNodes(["x", "y"]);
    TinyNodes(["y", "x"]);
    var m, n := MappingValue(TinyEntries(["x", "y"])), MappingValue(TinyEntries(["y", "x"]));
    assert m["r"].node.children[0] == "x" && n["r"].node.children[0] == "y";
  }

  lemma TinyCores(s: Settings)
    ensures CoreOf(s, Tiny(["x", "y"])) == CoreOf(s, Tiny(["y", "x"]))
  {
    hide MappingValue;
    TinyNodes(["x", "y"]);
    TinyNodes(["y", "x"]);
    var g := FromEntries(TinyEntries(["x", "y"])).nodes;
    var h := FromEntries(TinyEntries(["y", "x"])).nodes;
    assert CoreNodes(g).Keys == CoreNodes(h).Keys;
    forall n | n in CoreNodes(g) ensures CoreNodes(g)[n] == CoreNodes(h)[n] {
      assert n == "r" || n == "x" || n == "y";
      assert CoreNodes(g)[n].children == CoreNodes(h)[n].children;
    }
    assert CoreNodes(g) == CoreNodes(h);
  }

  /** What one occurrence holds. */
  lemma HoldsOne(s: Settings, c: Conversation, x: Core)
    requires HasId(Some(c))
    ensures Holds(s, [Some(c)], x) <==> CoreOf(s, c) == x
  {
    assert Some(c) in [Some(c)];
  }

  lemma ClashRefused(a: Conversation, b: Conversation)
    requires HasId(Some(a)) && ProviderId(a) == ProviderId(b) && ContentOf(a) != ContentOf(b)
    ensures Load([Some(a), Some(b)]).Err?
  {
    var both := [Some(a), Some(b)];
    assert both[0] in both && both[1] in both;
    LoadsWhenConsistent(both);
  }

  lemma AloneAccepted(c: Conversation)
    ensures Consistent([Some(c)]) && Load([Some(c)]).Ok?
  {
    LoadsWhenConsistent([Some(c)]);
  }

  lemma SameCoreSameSessions(s: Settings, a: Conversation, b: Conversation)
    requires HasId(Some(a)) && HasId(Some(b)) && CoreOf(s, a) == CoreOf(s, b)
    requires Parsed([Some(a)]) && Parsed([Some(b)])
    ensures ListSessions(s, [Some(a)]) == ListSessions(s, [Some(b)])
  {
    AloneAccepted(a);
    AloneAccepted(b);
    assert [[Some(a)]][..0] == [] && [[Some(b)]][..0] == [];
    assert Flatten([[Some(a)]]) == [Some(a)] && Flatten([[Some(b)]]) == [Some(b)];
    forall x ensures Holds(s, [Some(a)], x) <==> Holds(s, [Some(b)], x) {
      HoldsOne(s, a, x);
      HoldsOne(s, b, x);
    }
    SessionsIgnoreOrder(s, [[Some(a)]], [[Some(b)]]);
  }

  /** Two occurrences that contribute the same are each accepted alone, and list the same sessions, but
      together they are refused as soon as their contents differ in any way. */
  lemma RepetitionRefused(s: Settings, a: Conversation, b: Conversation)
    requires HasId(Some(a)) && HasId(Some(b)) && CoreOf(s, a) == CoreOf(s, b)
    requires Parsed([Some(a)]) && Parsed([Some(b)])
    ensures Load([Some(a)]).Ok? && Load([Some(b)]).Ok?
    ensures ListSessions(s, [Some(a)]) == ListSessions(s, [Some(b)])
    ensures Load([Some(a), Some(b)]).Ok? <==> ContentOf(a) == ContentOf(b)
  {
    AloneAccepted(a);
    AloneAccepted(b);
    SameCoreSameSessions(s, a, b);
    LoadsWhenConsistent([Some(a), Some(b)]);
    if ContentOf(a) != ContentOf(b) { ClashRefused(a, b); }
  }

  /** Reordering a children list is such a difference. */
  lemma ReorderedChildrenDiffer(s: Settings)
    ensures var a, b := Tiny(["x", "y"]), Tiny(["y", "x"]);
            HasId(Some(a)) && CoreOf(s, a) == CoreOf(s, b) && ContentOf(a) != ContentOf(b)
  {
    TinyContents();
    TinyCores(s);
  }
}
