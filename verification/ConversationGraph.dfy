/** The message graph of one exported conversation: nodes by id, each with a parent reference and a list
    of children, either of which may name nodes that do not exist. */
module ConversationGraph {
  import opened Sorting
  import opened Text
  import opened Wrappers

  type NodeId = string

  /** `text` is what content extraction yields; `canonical` is the part of the message a snapshot keeps. */
  datatype Message = Message(id: Option<string>, role: string, recipient: string, hidden: bool, text: string,
                             branchHint: Option<string>, threadHint: Option<string>, canonical: string)

  /** `other` is whatever else the node holds. */
  datatype Node = Node(id: Option<string>, parent: Option<NodeId>, children: seq<NodeId>, message: Option<Message>,
                       other: string)

  type Nodes = map<NodeId, Node>

  /** The nodes, and their ids in the order the export listed them. */
  datatype Graph = Graph(nodes: Nodes, order: seq<NodeId>)

  datatype Value = NotObject(json: string) | Object(node: Node)

  /** An entry of the exported mapping. */
  type Entry = (NodeId, Value)

  predicate Distinct<T(==)>(s: seq<T>)
  {
    forall i, j :: 0 <= i < j < |s| ==> s[i] != s[j]
  }

  ghost predicate Valid(g: Graph)
  {
    Distinct(g.order) && forall n :: n in g.order <==> n in g.nodes
  }

  // ---- building ----

  function AddEntry(g: Graph, e: Entry): Graph
  {
    match e.1
    case NotObject(_) => g
    case Object(node) => Graph(g.nodes[e.0 := node], if e.0 in g.nodes then g.order else g.order + [e.0])
  }

  function FromEntries(entries: seq<Entry>): Graph
  {
    if entries == [] then Graph(map[], []) else AddEntry(FromEntries(entries[..|entries| - 1]), entries[|entries| - 1])
  }

  lemma {:induction false} FromEntriesValid(entries: seq<Entry>)
    ensures Valid(FromEntries(entries))
  {
    if entries != [] {
      FromEntriesValid(entries[..|entries| - 1]);
    }
  }

  function SortedIds(g: Graph): seq<NodeId>
  {
    Sort(g.order, StrLe)
  }

  lemma StrLeTotal(dom: set<string>)
    ensures TotalOrderOn(StrLe, dom) && AntisymmetricOn(StrLe, dom)
  {
    forall x, y | x in dom && y in dom ensures StrLe(x, y) || StrLe(y, x) {
      StrLtTotal(x, y);
    }
    forall x, y, z | x in dom && y in dom && z in dom && StrLe(x, y) && StrLe(y, z) ensures StrLe(x, z) {
      if StrLt(x, y) && StrLt(y, z) { StrLtTransitive(x, y, z); }
    }
    forall x, y | x in dom && y in dom && StrLe(x, y) && StrLe(y, x) ensures x == y {
      if StrLt(x, y) { StrLtAsymmetric(x, y); }
    }
  }

  /** Strictly ascending. */
  ghost predicate Ascending(s: seq<string>)
  {
    forall i, j :: 0 <= i < j < |s| ==> StrLt(s[i], s[j])
  }

  /** Sorting a list of different strings makes it strictly ascending. */
  lemma SortAscending(s: seq<string>)
    requires Distinct(s)
    ensures Ascending(Sort(s, StrLe)) && Distinct(Sort(s, StrLe))
    ensures forall x :: x in Sort(s, StrLe) <==> x in s
  {
    var dom := set x | x in s;
    StrLeTotal(dom);
    SortSorted(s, StrLe, dom);
    SortElements(s, StrLe);
    DistinctPermutation(s, Sort(s, StrLe));
  }

  lemma {:induction false} CountAtMostOne<T(!new)>(s: seq<T>, x: T)
    requires Distinct(s)
    ensures multiset(s)[x] <= 1
  {
    if s != [] {
      assert s == [s[0]] + s[1..];
      CountAtMostOne(s[1..], x);
    }
  }

  lemma CountedTwice<T(!new)>(s: seq<T>, i: nat, j: nat)
    requires i < j < |s| && s[i] == s[j]
    ensures multiset(s)[s[i]] >= 2
  {
    assert s == s[..j] + [s[j]] + s[j + 1..];
    assert s[..j][i] == s[i];
  }

  lemma DistinctPermutation<T(!new)>(a: seq<T>, b: seq<T>)
    requires Distinct(a) && multiset(a) == multiset(b)
    ensures Distinct(b)
  {
    forall i, j | 0 <= i < j < |b| ensures b[i] != b[j] {
      CountAtMostOne(a, b[i]);
      if b[i] == b[j] {
        CountedTwice(b, i, j);
      }
    }
  }

  /** Lists of different elements with the same members are permutations of each other. */
  lemma SameMembers<T(!new)>(a: seq<T>, b: seq<T>)
    requires Distinct(a) && Distinct(b)
    requires forall x :: x in a <==> x in b
    ensures multiset(a) == multiset(b)
  {
    forall x ensures multiset(a)[x] == multiset(b)[x] {
      CountAtMostOne(a, x);
      CountAtMostOne(b, x);
      assert x in a <==> multiset(a)[x] > 0;
      assert x in b <==> multiset(b)[x] > 0;
    }
  }

  /** The sorted ids depend on the nodes alone, not on the order they were listed in. */
  lemma SortedIdsUnique(g: Graph, h: Graph)
    requires Valid(g) && Valid(h) && g.nodes.Keys == h.nodes.Keys
    ensures SortedIds(g) == SortedIds(h)
  {
    SameMembers(g.order, h.order);
    var dom := g.nodes.Keys;
    StrLeTotal(dom);
    SortSorted(g.order, StrLe, dom);
    SortSorted(h.order, StrLe, dom);
    SortElements(g.order, StrLe);
    SortedUnique(SortedIds(g), SortedIds(h), StrLe, dom);
  }

  // ---- parent chains ----

  /** The parent reference of a node, resolvable or not. */
  function Up(g: Nodes, n: NodeId): Option<NodeId>
  {
    if n in g then g[n].parent else None
  }

  /** What `k` steps up from `n` reach. */
  function Chain(g: Nodes, n: NodeId, k: nat): Option<NodeId>
  {
    if k == 0 then Some(n)
    else
      var below := Chain(g, n, k - 1);
      if below.None? then None else Up(g, below.value)
  }

  ghost predicate OnCycle(g: Nodes, n: NodeId)
  {
    exists p: nat :: p > 0 && Chain(g, n, p) == Some(n)
  }

  ghost predicate EntersCycle(g: Nodes, n: NodeId)
  {
    exists i: nat :: Chain(g, n, i).Some? && OnCycle(g, Chain(g, n, i).value)
  }

  ghost predicate Acyclic(g: Nodes)
  {
    forall n :: n in g ==> !EntersCycle(g, n)
  }

  lemma {:induction false} ChainAdd(g: Nodes, n: NodeId, i: nat, j: nat)
    requires Chain(g, n, i).Some?
    ensures Chain(g, n, i + j) == Chain(g, Chain(g, n, i).value, j)
  {
    if j != 0 {
      ChainAdd(g, n, i, j - 1);
      assert i + j - 1 == i + (j - 1);
    }
  }

  lemma {:induction false} ChainEnds(g: Nodes, n: NodeId, i: nat, j: nat)
    requires i <= j && Chain(g, n, i).None?
    ensures Chain(g, n, j).None?
  {
    if i < j {
      ChainEnds(g, n, i, j - 1);
    }
  }

  /** A cycle is met again after any number of steps. */
  lemma {:induction false} AroundAgain(g: Nodes, n: NodeId, p: nat, t: nat) returns (j: nat)
    requires p > 0 && Chain(g, n, p) == Some(n)
    ensures j >= t && Chain(g, n, j) == Some(n)
  {
    if t == 0 {
      j := 0;
    } else {
      var before := AroundAgain(g, n, p, t - 1);
      ChainAdd(g, n, before, p);
      j := before + p;
    }
  }

  lemma CycleNeverEnds(g: Nodes, n: NodeId, i: nat, x: NodeId, k: nat)
    requires Chain(g, n, i) == Some(x) && OnCycle(g, x)
    ensures Chain(g, n, k).Some?
  {
    var p: nat :| p > 0 && Chain(g, x, p) == Some(x);
    var j := AroundAgain(g, x, p, k);
    ChainAdd(g, n, i, j);
    if Chain(g, n, k).None? {
      ChainEnds(g, n, k, i + j);
    }
  }

  /** A chain that ends enters no cycle. */
  lemma EndedChain(g: Nodes, n: NodeId, k: nat)
    requires Chain(g, n, k).None?
    ensures !EntersCycle(g, n)
  {
    if EntersCycle(g, n) {
      var i: nat :| Chain(g, n, i).Some? && OnCycle(g, Chain(g, n, i).value);
      CycleNeverEnds(g, n, i, Chain(g, n, i).value, k);
    }
  }

  /** A chain that meets itself again enters a cycle. */
  lemma RepeatedChain(g: Nodes, n: NodeId, i: nat, k: nat)
    requires i < k && Chain(g, n, k).Some? && Chain(g, n, i) == Chain(g, n, k)
    ensures EntersCycle(g, n)
  {
    var x := Chain(g, n, i).value;
    ChainAdd(g, n, i, k - i);
    assert Chain(g, x, k - i) == Some(x);
    assert OnCycle(g, x);
  }

  /** Every id a chain from a node can reach. */
  function Universe(g: Nodes): set<NodeId>
  {
    g.Keys + set n | n in g && g[n].parent.Some? :: g[n].parent.value
  }

  lemma UpStays(g: Nodes, n: NodeId)
    ensures Up(g, n).Some? ==> Up(g, n).value in Universe(g)
  {
  }

  /** `trail` is what the first steps from `start` met, and `seen` its members. */
  ghost predicate Walked(g: Nodes, start: NodeId, trail: seq<NodeId>, seen: set<NodeId>)
  {
    (forall i :: 0 <= i < |trail| ==> Chain(g, start, i) == Some(trail[i])) && forall x :: x in seen <==> x in trail
  }

  lemma WalkOn(g: Nodes, start: NodeId, trail: seq<NodeId>, seen: set<NodeId>, current: NodeId)
    requires Walked(g, start, trail, seen) && Chain(g, start, |trail|) == Some(current)
    ensures Walked(g, start, trail + [current], seen + {current})
  {
  }

  lemma WalkEnds(g: Nodes, start: NodeId, trail: seq<NodeId>, seen: set<NodeId>, current: Option<NodeId>)
    requires Walked(g, start, trail, seen) && Chain(g, start, |trail|) == current
    requires current.None? || current.value in seen
    ensures current.Some? <==> EntersCycle(g, start)
  {
    if current.None? {
      EndedChain(g, start, |trail|);
    } else {
      var i :| 0 <= i < |trail| && trail[i] == current.value;
      RepeatedChain(g, start, i, |trail|);
    }
  }

  lemma Shrinks(all: set<NodeId>, seen: set<NodeId>, n: NodeId)
    ensures |all - (seen + {n})| <= |all - seen|
    ensures n in all && n !in seen ==> |all - (seen + {n})| < |all - seen|
  {
    if n in all && n !in seen {
      assert all - seen == (all - (seen + {n})) + {n};
    } else {
      assert all - (seen + {n}) == all - seen;
    }
  }

  ghost function CyclicNodes(g: Nodes): set<NodeId>
  {
    set n | n in g && EntersCycle(g, n)
  }

  /** The walk of one parent chain. It terminates because it only adds new ids of a finite universe. */
  method WalkChain(g: Nodes, start: NodeId) returns (repeats: bool)
    requires start in g
    ensures repeats <==> start in CyclicNodes(g)
  {
    var seen: set<NodeId> := {};
    var current := Some(start);
    ghost var trail: seq<NodeId> := [];
    ghost var all := Universe(g);
    while current.Some? && current.value !in seen
      invariant current == Chain(g, start, |trail|)
      invariant current.Some? ==> current.value in all
      invariant Walked(g, start, trail, seen)
      decreases |all - seen|
    {
      WalkOn(g, start, trail, seen, current.value);
      Shrinks(all, seen, current.value);
      UpStays(g, current.value);
      seen, trail := seen + {current.value}, trail + [current.value];
      current := if current.value in g then g[current.value].parent else None;
    }
    WalkEnds(g, start, trail, seen, current);
    repeats := current.Some?;
  }

  function Selected(ids: seq<NodeId>, chosen: set<NodeId>): seq<NodeId>
  {
    if ids == [] then []
    else
      var front := Selected(ids[..|ids| - 1], chosen);
      if ids[|ids| - 1] in chosen then front + [ids[|ids| - 1]] else front
  }

  lemma {:induction false} SelectedElements(ids: seq<NodeId>, chosen: set<NodeId>)
    ensures forall x :: x in Selected(ids, chosen) <==> x in ids && x in chosen
  {
    if ids != [] {
      SelectedElements(ids[..|ids| - 1], chosen);
      assert ids == ids[..|ids| - 1] + [ids[|ids| - 1]];
    }
  }

  ghost predicate AllBefore(ids: seq<NodeId>, bound: NodeId)
  {
    forall i :: 0 <= i < |ids| ==> StrLt(ids[i], bound)
  }

  lemma {:induction false} SelectedBefore(ids: seq<NodeId>, chosen: set<NodeId>, bound: NodeId)
    requires AllBefore(ids, bound)
    ensures AllBefore(Selected(ids, chosen), bound)
  {
    if ids != [] {
      SelectedBefore(ids[..|ids| - 1], chosen, bound);
    }
  }

  lemma {:induction false} SelectedAscending(ids: seq<NodeId>, chosen: set<NodeId>)
    requires Ascending(ids)
    ensures Ascending(Selected(ids, chosen))
  {
    if ids != [] {
      SelectedAscending(ids[..|ids| - 1], chosen);
      SelectedBefore(ids[..|ids| - 1], chosen, ids[|ids| - 1]);
    }
  }

  /** Exactly the nodes whose parent chain enters a cycle, in ascending order. */
  method DetectCycles(g: Graph) returns (cyclic: seq<NodeId>)
    requires Valid(g)
    ensures cyclic == Selected(SortedIds(g), CyclicNodes(g.nodes))
  {
    hide CyclicNodes;
    cyclic := [];
    var ids := SortedIds(g);
    SortAscending(g.order);
    for k := 0 to |ids|
      invariant cyclic == Selected(ids[..k], CyclicNodes(g.nodes))
    {
      assert ids[k] in ids;
      var repeats := WalkChain(g.nodes, ids[k]);
      assert ids[..k + 1][..k] == ids[..k];
      if repeats {
        cyclic := cyclic + [ids[k]];
      }
    }
    assert ids[..|ids|] == ids;
  }

  /** What cycle detection returns: precisely the nodes that enter a cycle, ascending, and nothing when
      the graph has no cycle. */
  lemma CyclesAreExact(g: Graph, cyclic: seq<NodeId>)
    requires Valid(g) && cyclic == Selected(SortedIds(g), CyclicNodes(g.nodes))
    ensures forall n :: n in cyclic <==> n in g.nodes && EntersCycle(g.nodes, n)
    ensures Ascending(cyclic)
    ensures cyclic == [] <==> Acyclic(g.nodes)
  {
    SortAscending(g.order);
    SelectedElements(SortedIds(g), CyclicNodes(g.nodes));
    SelectedAscending(SortedIds(g), CyclicNodes(g.nodes));
    NoCyclicNodes(g.nodes, cyclic);
  }

  lemma NoCyclicNodes(g: Nodes, cyclic: seq<NodeId>)
    requires forall n :: n in cyclic <==> n in CyclicNodes(g)
    ensures cyclic == [] <==> Acyclic(g)
  {
    if cyclic != [] {
      assert cyclic[0] in CyclicNodes(g);
    } else {
      forall n | n in g ensures !EntersCycle(g, n) {
        assert n !in CyclicNodes(g);
      }
    }
  }

  // ---- paths ----

  function ParentOf(g: Nodes, n: NodeId): Option<NodeId>
  {
    if n in g && g[n].parent.Some? && g[n].parent.value in g then g[n].parent else None
  }

  function PathFrom(g: Nodes, current: Option<NodeId>, seen: set<NodeId>): seq<NodeId>
    decreases |g.Keys - seen|, if current.Some? && current.value !in g then 1 else 0
  {
    if current.None? || current.value in seen then []
    else
      var n := current.value;
      Shrinks(g.Keys, seen, n);
      PathFrom(g, ParentOf(g, n), seen + {n}) + [n]
  }

  /** The ids from the top of a leaf's ancestry down to the leaf. */
  function PathTo(g: Nodes, leaf: NodeId): seq<NodeId>
  {
    PathFrom(g, Some(leaf), {})
  }

  function Reverse<T>(s: seq<T>): seq<T>
  {
    if s == [] then [] else [s[|s| - 1]] + Reverse(s[..|s| - 1])
  }

  lemma PathStep(g: Nodes, n: NodeId, seen: set<NodeId>, path: seq<NodeId>)
    requires n !in seen
    ensures PathFrom(g, Some(n), seen) + Reverse(path)
         == PathFrom(g, ParentOf(g, n), seen + {n}) + Reverse(path + [n])
  {
    assert (path + [n])[..|path|] == path;
  }

  method PathToLeaf(g: Nodes, leaf: NodeId) returns (path: seq<NodeId>)
    ensures path == PathTo(g, leaf)
  {
    path := [];
    var current := Some(leaf);
    var seen: set<NodeId> := {};
    while current.Some? && current.value !in seen
      invariant PathFrom(g, current, seen) + Reverse(path) == PathTo(g, leaf)
      decreases |g.Keys - seen|, if current.Some? && current.value !in g then 1 else 0
    {
      ghost var before, n := path, current.value;
      Shrinks(g.Keys, seen, n);
      PathStep(g, n, seen, before);
      seen := seen + {current.value};
      path := path + [current.value];
      current := ParentOf(g, current.value);
    }
    path := Reverse(path);
  }

  /** `path` is the whole ancestry of `leaf`: it starts at a node without a resolvable parent and each
      further node's parent is the one before it. */
  ghost predicate IsAncestry(g: Nodes, path: seq<NodeId>, leaf: NodeId)
  {
    path != [] && path[|path| - 1] == leaf && ParentOf(g, path[0]).None?
    && forall i :: 0 < i < |path| ==> ParentOf(g, path[i]) == Some(path[i - 1])
  }

  /** Every id in `seen` has `n` above it. */
  ghost predicate AllBelow(g: Nodes, seen: set<NodeId>, n: NodeId)
  {
    forall x :: x in seen ==> x in g && exists k: nat :: k > 0 && Chain(g, x, k) == Some(n)
  }

  lemma AllBelowParent(g: Nodes, seen: set<NodeId>, n: NodeId)
    requires AllBelow(g, seen, n) && n in g && ParentOf(g, n).Some?
    ensures AllBelow(g, seen + {n}, ParentOf(g, n).value)
  {
    var p := ParentOf(g, n).value;
    forall x | x in seen + {n} ensures exists k: nat :: k > 0 && Chain(g, x, k) == Some(p) {
      if x == n {
        assert Chain(g, n, 0) == Some(n);
        assert Chain(g, n, 1) == Some(p);
      } else {
        var k: nat :| k > 0 && Chain(g, x, k) == Some(n);
        assert Chain(g, x, k + 1) == Some(p);
      }
    }
  }

  lemma BackToStart(g: Nodes, n: NodeId, k: nat)
    requires k > 0 && Chain(g, n, k) == Some(n)
    ensures EntersCycle(g, n)
  {
    assert OnCycle(g, n);
    assert Chain(g, n, 0) == Some(n);
  }

  lemma NotAboveItself(g: Nodes, seen: set<NodeId>, n: NodeId)
    requires Acyclic(g) && AllBelow(g, seen, n)
    ensures n !in seen
  {
    if n in seen {
      var k: nat :| k > 0 && Chain(g, n, k) == Some(n);
      BackToStart(g, n, k);
    }
  }

  lemma ExtendAncestry(g: Nodes, path: seq<NodeId>, p: NodeId, n: NodeId)
    requires IsAncestry(g, path, p) && ParentOf(g, n) == Some(p)
    ensures IsAncestry(g, path + [n], n)
  {
    var longer := path + [n];
    forall i | 0 < i < |longer| ensures ParentOf(g, longer[i]) == Some(longer[i - 1]) {
      if i < |path| {
        assert ParentOf(g, path[i]) == Some(path[i - 1]);
      }
    }
  }

  ghost predicate Avoids(path: seq<NodeId>, seen: set<NodeId>)
  {
    Distinct(path) && forall x :: x in path ==> x !in seen
  }

  lemma {:induction false} PathFromComplete(g: Nodes, n: NodeId, seen: set<NodeId>)
    requires Acyclic(g) && AllBelow(g, seen, n) && (n in g || seen == {})
    ensures IsAncestry(g, PathFrom(g, Some(n), seen), n)
    ensures Avoids(PathFrom(g, Some(n), seen), seen)
    decreases |g.Keys - seen|
  {
    NotAboveItself(g, seen, n);
    var up := ParentOf(g, n);
    var rest := PathFrom(g, up, seen + {n});
    assert PathFrom(g, Some(n), seen) == rest + [n];
    if up.Some? {
      Shrinks(g.Keys, seen, n);
      AllBelowParent(g, seen, n);
      PathFromComplete(g, up.value, seen + {n});
      ExtendAncestry(g, rest, up.value, n);
    }
  }

  /** Without cycles the path is the complete ancestry and repeats no node. */
  lemma PathComplete(g: Nodes, leaf: NodeId)
    requires Acyclic(g)
    ensures IsAncestry(g, PathTo(g, leaf), leaf) && Distinct(PathTo(g, leaf))
  {
    PathFromComplete(g, leaf, {});
  }

  /** A node has only one complete ancestry. */
  lemma {:induction false} AncestryUnique(g: Nodes, p: seq<NodeId>, q: seq<NodeId>, leaf: NodeId)
    requires IsAncestry(g, p, leaf) && IsAncestry(g, q, leaf)
    ensures p == q
  {
    assert |p| > 1 ==> ParentOf(g, p[|p| - 1]) == Some(p[|p| - 2]);
    assert |q| > 1 ==> ParentOf(g, q[|q| - 1]) == Some(q[|q| - 2]);
    if |p| > 1 && |q| > 1 {
      AncestryUnique(g, p[..|p| - 1], q[..|q| - 1], p[|p| - 2]);
      assert p == p[..|p| - 1] + [leaf] && q == q[..|q| - 1] + [leaf];
    } else {
      assert p == [leaf] && q == [leaf];
    }
  }

  // ---- children and leaves ----

  function Resolvable(g: Nodes, ids: seq<NodeId>): seq<NodeId>
  {
    if ids == [] then []
    else
      var front := Resolvable(g, ids[..|ids| - 1]);
      if ids[|ids| - 1] in g then front + [ids[|ids| - 1]] else front
  }

  function ChildrenOf(g: Nodes, n: NodeId): seq<NodeId>
  {
    if n in g then Sort(Resolvable(g, g[n].children), StrLe) else []
  }

  function Childless(g: Nodes, ids: seq<NodeId>): seq<NodeId>
  {
    if ids == [] then []
    else
      var front := Childless(g, ids[..|ids| - 1]);
      if ChildrenOf(g, ids[|ids| - 1]) == [] then front + [ids[|ids| - 1]] else front
  }

  function LeafIds(g: Graph): seq<NodeId>
  {
    Childless(g.nodes, SortedIds(g))
  }

  lemma {:induction false} ResolvableElements(g: Nodes, ids: seq<NodeId>)
    ensures forall x :: x in Resolvable(g, ids) <==> x in ids && x in g
  {
    if ids != [] {
      ResolvableElements(g, ids[..|ids| - 1]);
      assert ids == ids[..|ids| - 1] + [ids[|ids| - 1]];
    }
  }

  lemma ChildrenElements(g: Nodes, n: NodeId)
    requires n in g
    ensures forall x :: x in ChildrenOf(g, n) <==> x in g[n].children && x in g
  {
    ResolvableElements(g, g[n].children);
    SortElements(Resolvable(g, g[n].children), StrLe);
  }

  lemma {:induction false} ChildlessElements(g: Nodes, ids: seq<NodeId>)
    requires Distinct(ids)
    ensures forall x :: x in Childless(g, ids) <==> x in ids && ChildrenOf(g, x) == []
    ensures Distinct(Childless(g, ids))
  {
    if ids != [] {
      ChildlessElements(g, ids[..|ids| - 1]);
      assert ids == ids[..|ids| - 1] + [ids[|ids| - 1]];
    }
  }

  lemma LeafElements(g: Graph)
    requires Valid(g)
    ensures forall x :: x in LeafIds(g) <==> x in g.nodes && ChildrenOf(g.nodes, x) == []
    ensures Distinct(LeafIds(g))
  {
    SortAscending(g.order);
    ChildlessElements(g.nodes, SortedIds(g));
  }

  // ---- references to nodes that do not exist ----

  /** Nodes whose parent does not exist, and child references that name no node. */
  datatype Dangling = Dangling(orphans: nat, unknownChildren: nat)

  function Missing(g: Nodes, ids: seq<NodeId>): nat
  {
    if ids == [] then 0
    else Missing(g, ids[..|ids| - 1]) + if ids[|ids| - 1] in g then 0 else 1
  }

  /** What one node adds: a node without a parent is passed over before its children are looked at. */
  function CountNode(g: Nodes, n: NodeId, d: Dangling): Dangling
  {
    if n !in g || g[n].parent.None? then d
    else
      Dangling(d.orphans + (if g[n].parent.value in g then 0 else 1), d.unknownChildren + Missing(g, g[n].children))
  }

  function CountNodes(g: Nodes, ids: seq<NodeId>): Dangling
  {
    if ids == [] then Dangling(0, 0)
    else CountNode(g, ids[|ids| - 1], CountNodes(g, ids[..|ids| - 1]))
  }

  lemma CountNone(g: Nodes, ids: seq<NodeId>)
    ensures ids[..0] == [] && CountNodes(g, ids[..0]) == Dangling(0, 0)
  {
  }

  lemma CountMore(g: Nodes, ids: seq<NodeId>, k: nat)
    requires k < |ids|
    ensures CountNodes(g, ids[..k + 1]) == CountNode(g, ids[k], CountNodes(g, ids[..k]))
  {
    assert ids[..k + 1][..k] == ids[..k] && ids[..k + 1][k] == ids[k];
  }

  lemma IdNamesNode(g: Graph, k: nat)
    requires Valid(g) && k < |SortedIds(g)|
    ensures SortedIds(g)[k] in g.nodes
  {
    SortAscending(g.order);
    assert SortedIds(g)[k] in SortedIds(g);
  }

  method CountDangling(g: Graph) returns (d: Dangling)
    requires Valid(g)
    ensures d == CountNodes(g.nodes, SortedIds(g))
  {
    var ids := SortedIds(g);
    CountNone(g.nodes, ids);
    hide SortedIds, Valid, Missing, CountNodes;
    var orphans, unknown := 0, 0;
    for k := 0 to |ids|
      invariant Dangling(orphans, unknown) == CountNodes(g.nodes, ids[..k])
    {
      CountMore(g.nodes, ids, k);
      IdNamesNode(g, k);
      var node := g.nodes[ids[k]];
      if node.parent.None? {
        continue;
      }
      if node.parent.value !in g.nodes {
        orphans := orphans + 1;
      }
      var missing := CountMissing(g.nodes, node.children);
      unknown := unknown + missing;
    }
    assert ids[..|ids|] == ids;
    d := Dangling(orphans, unknown);
  }

  method CountMissing(g: Nodes, ids: seq<NodeId>) returns (missing: nat)
    ensures missing == Missing(g, ids)
  {
    missing := 0;
    for j := 0 to |ids|
      invariant missing == Missing(g, ids[..j])
    {
      assert ids[..j + 1][..j] == ids[..j];
      if ids[j] !in g {
        missing := missing + 1;
      }
    }
    assert ids[..|ids|] == ids;
  }

  predicate Orphan(g: Nodes, n: NodeId)
  {
    n in g && g[n].parent.Some? && g[n].parent.value !in g
  }

  function Orphans(g: Nodes, ids: seq<NodeId>): set<NodeId>
  {
    set n | n in ids && Orphan(g, n)
  }

  lemma OrphansPush(g: Nodes, front: seq<NodeId>, last: NodeId)
    ensures Orphans(g, front + [last]) == Orphans(g, front) + if Orphan(g, last) then {last} else {}
    ensures last !in front ==> last !in Orphans(g, front)
  {
  }

  lemma NoOrphans(g: Nodes)
    ensures Orphans(g, []) == {}
  {
  }

  lemma LastCounted(g: Nodes, n: NodeId, d: Dangling)
    ensures CountNode(g, n, d).orphans == d.orphans + if Orphan(g, n) then 1 else 0
  {
  }

  lemma LastIsNew(ids: seq<NodeId>, front: seq<NodeId>, last: NodeId)
    requires Distinct(ids) && ids != [] && front == ids[..|ids| - 1] && last == ids[|ids| - 1]
    ensures ids == front + [last] && Distinct(front) && last !in front
  {
  }

  lemma {:induction false} OrphansCounted(g: Nodes, ids: seq<NodeId>)
    requires Distinct(ids)
    ensures CountNodes(g, ids).orphans == |Orphans(g, ids)|
  {
    hide Distinct, Orphans, Orphan;
    if ids == [] {
      NoOrphans(g);
    } else {
      var front, last := ids[..|ids| - 1], ids[|ids| - 1];
      LastIsNew(ids, front, last);
      OrphansCounted(g, front);
      OrphansPush(g, front, last);
      LastCounted(g, last, CountNodes(g, front));
    }
  }

  /** The dangling child references of all listed nodes, or of those without a parent. */
  function MissingBelow(g: Nodes, ids: seq<NodeId>, rootsOnly: bool): nat
  {
    if ids == [] then 0
    else
      var n := ids[|ids| - 1];
      MissingBelow(g, ids[..|ids| - 1], rootsOnly)
      + if n !in g || (rootsOnly && g[n].parent.Some?) then 0 else Missing(g, g[n].children)
  }

  lemma {:induction false} ChildrenCounted(g: Nodes, ids: seq<NodeId>)
    ensures MissingBelow(g, ids, false) == CountNodes(g, ids).unknownChildren + MissingBelow(g, ids, true)
  {
    if ids != [] {
      ChildrenCounted(g, ids[..|ids| - 1]);
    }
  }

  /** The orphan count is the number of nodes whose parent does not exist; the count of unknown children leaves
      out those of the nodes without a parent, and no others. */
  lemma DanglingCounts(g: Graph)
    requires Valid(g)
    ensures forall n :: n in SortedIds(g) <==> n in g.nodes
    ensures var d := CountNodes(g.nodes, SortedIds(g));
            && d.orphans == |Orphans(g.nodes, SortedIds(g))|
            && d.unknownChildren == MissingBelow(g.nodes, SortedIds(g), false) - MissingBelow(g.nodes, SortedIds(g), true)
  {
    SortAscending(g.order);
    OrphansCounted(g.nodes, SortedIds(g));
    ChildrenCounted(g.nodes, SortedIds(g));
  }

  /** Building refuses a mapping with a parent cycle, unless told to let it pass. */
  method Build(entries: seq<Entry>, failClosed: bool) returns (result: Option<Graph>, dangling: Dangling)
    ensures result == if failClosed && !Acyclic(FromEntries(entries).nodes) then None else Some(FromEntries(entries))
    ensures dangling == CountNodes(FromEntries(entries).nodes, SortedIds(FromEntries(entries)))
  {
    var g := Graph(map[], []);
    for k := 0 to |entries|
      invariant g == FromEntries(entries[..k])
    {
      assert entries[..k + 1][..k] == entries[..k];
      g := AddEntry(g, entries[k]);
    }
    assert entries[..|entries|] == entries;
    FromEntriesValid(entries);
    dangling := CountDangling(g);
    var cycles := DetectCycles(g);
    CyclesAreExact(g, cycles);
    result := if cycles != [] && failClosed then None else Some(g);
  }
}
