/** Branch planning: which root-to-leaf paths of a conversation graph become branches, under which ids,
    and with which snapshot. */
module Branches {
  import opened ConversationGraph
  import opened Sorting
  import opened Text
  import opened Wrappers

  const HASH_DOMAIN := "chatgpt-branch-v1"

  /** `shortHash` is the first 32 hexadecimal digits of SHA-256; `normalize` the message text normalisation. */
  datatype Env = Env(shortHash: string -> string, normalize: string -> string)

  datatype BranchKind = Primary | Alternate

  datatype SnapshotNode = SnapshotNode(id: string, parent: string, message: Option<string>)

  /** What a branch's canonical snapshot serialises. */
  datatype Snapshot = Snapshot(provider: string, branchId: string, nodes: seq<SnapshotNode>)

  datatype Plan = Plan(provider: string, branchId: string, kind: BranchKind, path: seq<NodeId>, snapshot: Snapshot)

  datatype Candidate = Candidate(leaf: NodeId, path: seq<NodeId>, visible: seq<(string, string)>)

  // ---- visible text ----

  function MessageOf(g: Nodes, n: NodeId): Option<Message>
  {
    if n in g then g[n].message else None
  }

  function VisibleText(message: Option<Message>): string
  {
    match message
    case None => ""
    case Some(m) =>
      if m.role !in {"user", "assistant"} then ""
      else if m.recipient !in {"", "all"} then ""
      else if m.hidden then ""
      else m.text
  }

  predicate HasVisibleText(g: Nodes, n: NodeId)
  {
    !Blank(VisibleText(MessageOf(g, n)))
  }

  function VisibleSequence(g: Nodes, path: seq<NodeId>): seq<(string, string)>
  {
    if path == [] then []
    else
      var front := VisibleSequence(g, path[..|path| - 1]);
      var last := path[|path| - 1];
      if HasVisibleText(g, last) && MessageOf(g, last).Some?
      then front + [(MessageOf(g, last).value.role, VisibleText(MessageOf(g, last)))]
      else front
  }

  // ---- branch ids ----

  function PathParts(g: Nodes, path: seq<NodeId>): seq<string>
  {
    if path == [] then []
    else
      var last := path[|path| - 1];
      var m := MessageOf(g, last);
      var messageId := if m.Some? && m.value.id.Some? then Strip(m.value.id.value) else "";
      PathParts(g, path[..|path| - 1]) + [if messageId != "" then messageId else last]
  }

  function SequenceLines(env: Env, visible: seq<(string, string)>): seq<string>
  {
    if visible == [] then []
    else
      var last := visible[|visible| - 1];
      SequenceLines(env, visible[..|visible| - 1]) + [last.0 + "\0" + env.normalize(last.1)]
  }

  function Hint(hint: Option<string>): Option<string>
  {
    if hint.Some? && !Blank(hint.value) then Some("provider-" + Strip(hint.value)) else None
  }

  predicate AnyNonEmpty(parts: seq<string>)
  {
    exists k :: 0 <= k < |parts| && parts[k] != ""
  }

  function BranchId(env: Env, g: Nodes, path: seq<NodeId>, visible: seq<(string, string)>): string
  {
    if path == [] then "branch-empty"
    else
      var leaf := path[|path| - 1];
      if !Blank(leaf) then leaf
      else
        var m := MessageOf(g, leaf);
        if m.Some? && Hint(m.value.branchHint).Some? then Hint(m.value.branchHint).value
        else if m.Some? && Hint(m.value.threadHint).Some? then Hint(m.value.threadHint).value
        else if AnyNonEmpty(PathParts(g, path)) then "path-" + env.shortHash(HASH_DOMAIN + "\0" + Join(PathParts(g, path), "\n"))
        else "content-" + env.shortHash(HASH_DOMAIN + "\0" + Join(SequenceLines(env, visible), "\n"))
  }

  // ---- snapshots ----

  function SnapshotNodes(g: Nodes, path: seq<NodeId>): seq<SnapshotNode>
  {
    if path == [] then []
    else
      var n := path[|path| - 1];
      var id := if n in g && g[n].id.Some? && g[n].id.value != "" then g[n].id.value else n;
      var parent := if Up(g, n).Some? then Up(g, n).value else "";
      var m := MessageOf(g, n);
      SnapshotNodes(g, path[..|path| - 1])
      + [SnapshotNode(id, parent, if m.Some? then Some(m.value.canonical) else None)]
  }

  function SnapshotOf(g: Nodes, provider: string, branchId: string, path: seq<NodeId>): Snapshot
  {
    Snapshot(provider, branchId, SnapshotNodes(g, path))
  }

  // ---- planning ----

  function CandidateFor(g: Nodes, leaf: NodeId): Candidate
  {
    Candidate(leaf, PathTo(g, leaf), VisibleSequence(g, PathTo(g, leaf)))
  }

  /** The leaves other than the current node that show any text. */
  function LeafCandidates(g: Nodes, leaves: seq<NodeId>, current: NodeId): seq<Candidate>
  {
    if leaves == [] then []
    else
      var front := LeafCandidates(g, leaves[..|leaves| - 1], current);
      var c := CandidateFor(g, leaves[|leaves| - 1]);
      if c.leaf == current || c.visible == [] then front else front + [c]
  }

  function CurrentCandidate(g: Nodes, current: NodeId): seq<Candidate>
  {
    if current != "" && current in g then [CandidateFor(g, current)] else []
  }

  function Candidates(g: Graph, current: NodeId): seq<Candidate>
  {
    CurrentCandidate(g.nodes, current) + LeafCandidates(g.nodes, LeafIds(g), current)
  }

  function PlanIds(plans: seq<Plan>): set<string>
  {
    set i | 0 <= i < |plans| :: plans[i].branchId
  }

  function PlanFor(env: Env, g: Nodes, provider: string, c: Candidate, first: bool, current: NodeId): Plan
  {
    var id := BranchId(env, g, c.path, c.visible);
    Plan(provider, id, if first && current != "" then Primary else Alternate, c.path, SnapshotOf(g, provider, id, c.path))
  }

  /** One plan per candidate, skipping branch ids already taken. */
  function PlansFor(env: Env, g: Nodes, provider: string, cands: seq<Candidate>, current: NodeId): seq<Plan>
  {
    if cands == [] then []
    else
      var front := PlansFor(env, g, provider, cands[..|cands| - 1], current);
      var p := PlanFor(env, g, provider, cands[|cands| - 1], |cands| == 1, current);
      if p.branchId in PlanIds(front) then front else front + [p]
  }

  predicate AnyPrimary(plans: seq<Plan>)
  {
    exists k :: 0 <= k < |plans| && plans[k].kind == Primary
  }

  function MarkPrimary(plans: seq<Plan>): seq<Plan>
  {
    if plans != [] && !AnyPrimary(plans) then plans[0 := plans[0].(kind := Primary)] else plans
  }

  function PlansOf(env: Env, g: Graph, provider: string, current: NodeId): seq<Plan>
  {
    MarkPrimary(PlansFor(env, g.nodes, provider, Candidates(g, current), current))
  }

  method CollectVisible(g: Nodes, path: seq<NodeId>) returns (visible: seq<(string, string)>)
    ensures visible == VisibleSequence(g, path)
  {
    hide MessageOf, Blank, VisibleText;
    visible := [];
    for k := 0 to |path|
      invariant visible == VisibleSequence(g, path[..k])
    {
      assert path[..k + 1][..k] == path[..k];
      var message := MessageOf(g, path[k]);
      var text := VisibleText(message);
      if !Blank(text) && message.Some? {
        visible := visible + [(message.value.role, text)];
      }
    }
    assert path[..|path|] == path;
  }

  method FindCandidate(g: Nodes, leaf: NodeId) returns (c: Candidate)
    ensures c == CandidateFor(g, leaf)
  {
    var path := PathToLeaf(g, leaf);
    var visible := CollectVisible(g, path);
    c := Candidate(leaf, path, visible);
  }

  method CollectLeaves(g: Nodes, leaves: seq<NodeId>, current: NodeId) returns (candidates: seq<Candidate>)
    ensures candidates == LeafCandidates(g, leaves, current)
  {
    candidates := [];
    for k := 0 to |leaves|
      invariant candidates == LeafCandidates(g, leaves[..k], current)
    {
      assert leaves[..k + 1][..k] == leaves[..k];
      LeafStep(g, leaves[..k + 1], current, CandidateFor(g, leaves[k]));
      if leaves[k] != current {
        var c := FindCandidate(g, leaves[k]);
        if c.visible != [] {
          candidates := candidates + [c];
        }
      }
    }
    assert leaves[..|leaves|] == leaves;
  }

  method CollectCandidates(g: Graph, current: NodeId) returns (candidates: seq<Candidate>)
    ensures candidates == Candidates(g, current)
  {
    candidates := [];
    if current != "" && current in g.nodes {
      var c := FindCandidate(g.nodes, current);
      candidates := [c];
    }
    var alternates := CollectLeaves(g.nodes, LeafIds(g), current);
    candidates := candidates + alternates;
  }

  lemma LeafStep(g: Nodes, leaves: seq<NodeId>, current: NodeId, c: Candidate)
    requires leaves != [] && c == CandidateFor(g, leaves[|leaves| - 1])
    ensures LeafCandidates(g, leaves, current)
         == if c.leaf != current && c.visible != [] then LeafCandidates(g, leaves[..|leaves| - 1], current) + [c]
            else LeafCandidates(g, leaves[..|leaves| - 1], current)
  {
  }

  method MakePlans(env: Env, g: Nodes, provider: string, candidates: seq<Candidate>, current: NodeId)
    returns (plans: seq<Plan>, primary: bool)
    ensures plans == PlansFor(env, g, provider, candidates, current)
    ensures primary <==> AnyPrimary(plans)
  {
    plans, primary := [], false;
    var seen: set<string> := {};
    for k := 0 to |candidates|
      invariant plans == PlansFor(env, g, provider, candidates[..k], current)
      invariant seen == PlanIds(plans)
      invariant primary <==> AnyPrimary(plans)
    {
      assert candidates[..k + 1][..k] == candidates[..k];
      var p := PlanFor(env, g, provider, candidates[k], k == 0, current);
      if p.branchId !in seen {
        PlanIdsAdd(plans, p);
        AnyPrimaryAdd(plans, p);
        seen := seen + {p.branchId};
        plans := plans + [p];
        primary := primary || p.kind == Primary;
      }
    }
    assert candidates[..|candidates|] == candidates;
  }

  /** `None` when the mapping has a parent cycle. */
  method PlanBranches(env: Env, provider: string, entries: seq<Entry>, current: NodeId) returns (plans: Option<seq<Plan>>)
    ensures var g := FromEntries(entries);
            plans == if Acyclic(g.nodes) then Some(PlansOf(env, g, provider, current)) else None
  {
    var built, _ := Build(entries, true);
    if built.None? {
      return None;
    }
    var g := built.value;
    var candidates := CollectCandidates(g, current);
    var made, primary := MakePlans(env, g.nodes, provider, candidates, current);
    if made != [] && !primary {
      made := made[0 := made[0].(kind := Primary)];
    }
    return Some(made);
  }

  lemma PlanIdsAdd(plans: seq<Plan>, p: Plan)
    ensures PlanIds(plans + [p]) == PlanIds(plans) + {p.branchId}
  {
    var all := plans + [p];
    forall x ensures x in PlanIds(all) <==> x in PlanIds(plans) + {p.branchId} {
      if x in PlanIds(plans) {
        var i :| 0 <= i < |plans| && plans[i].branchId == x;
        assert all[i].branchId == x;
      }
      assert all[|plans|] == p;
    }
  }

  lemma AnyPrimaryAdd(plans: seq<Plan>, p: Plan)
    ensures AnyPrimary(plans + [p]) <==> AnyPrimary(plans) || p.kind == Primary
  {
    var all := plans + [p];
    if AnyPrimary(plans) {
      var i :| 0 <= i < |plans| && plans[i].kind == Primary;
      assert all[i].kind == Primary;
    }
    assert all[|plans|] == p;
  }

  // ---- what every plan list satisfies ----

  ghost predicate DistinctIds(plans: seq<Plan>)
  {
    forall i, j :: 0 <= i < j < |plans| ==> plans[i].branchId != plans[j].branchId
  }

  /** Only the first plan can be primary. */
  ghost predicate FirstIsPrimary(plans: seq<Plan>, current: NodeId)
  {
    forall i :: 0 <= i < |plans| ==> (plans[i].kind == Primary <==> i == 0 && current != "")
  }

  lemma {:induction false} PlansForShape(env: Env, g: Nodes, provider: string, cands: seq<Candidate>, current: NodeId)
    ensures var plans := PlansFor(env, g, provider, cands, current);
            DistinctIds(plans) && FirstIsPrimary(plans, current) && (cands != [] <==> plans != [])
  {
    if cands != [] {
      var front := PlansFor(env, g, provider, cands[..|cands| - 1], current);
      PlansForShape(env, g, provider, cands[..|cands| - 1], current);
      forall i | 0 <= i < |front| ensures front[i].branchId in PlanIds(front) {
      }
    }
  }

  /** Branch ids are distinct and exactly the first plan is primary, for every graph and current node. */
  lemma OnePrimary(env: Env, g: Graph, provider: string, current: NodeId)
    ensures var plans := PlansOf(env, g, provider, current);
            && DistinctIds(plans)
            && forall i :: 0 <= i < |plans| ==> (plans[i].kind == Primary <==> i == 0)
  {
    PlansForShape(env, g.nodes, provider, Candidates(g, current), current);
  }

  // ---- no branch is dropped ----

  /** No node id is blank. */
  ghost predicate NamedNodes(g: Nodes)
  {
    forall n :: n in g ==> !Blank(n)
  }

  /** A listed child that exists names its lister as its parent. */
  ghost predicate ChildrenPointBack(g: Nodes)
  {
    forall n, c :: n in g && c in g[n].children && c in g ==> g[c].parent == Some(n)
  }

  lemma PathEnds(g: Nodes, leaf: NodeId)
    ensures PathTo(g, leaf) != [] && PathTo(g, leaf)[|PathTo(g, leaf)| - 1] == leaf
  {
  }

  lemma PathWithin(g: Nodes, leaf: NodeId)
    requires Acyclic(g) && leaf in g
    ensures forall x :: x in PathTo(g, leaf) ==> x in g
    ensures |PathTo(g, leaf)| <= |g|
  {
    PathComplete(g, leaf);
    var path := PathTo(g, leaf);
    forall i | 0 <= i < |path| ensures path[i] in g {
      assert i + 1 < |path| ==> ParentOf(g, path[i + 1]) == Some(path[i]);
    }
    DistinctBound(path, g.Keys);
  }

  lemma {:induction false} DistinctBound<T>(s: seq<T>, dom: set<T>)
    requires Distinct(s) && forall i :: 0 <= i < |s| ==> s[i] in dom
    ensures |s| <= |dom|
  {
    if s != [] {
      var last := s[|s| - 1];
      DistinctBound(s[..|s| - 1], dom - {last});
      assert dom == (dom - {last}) + {last};
    }
  }

  /** The path to a child that points back extends the path to its parent. */
  lemma PathToChild(g: Nodes, n: NodeId, c: NodeId)
    requires Acyclic(g) && ParentOf(g, c) == Some(n)
    ensures PathTo(g, c) == PathTo(g, n) + [c]
  {
    PathComplete(g, n);
    PathComplete(g, c);
    var longer := PathTo(g, n) + [c];
    ExtendAncestry(g, PathTo(g, n), n, c);
    AncestryUnique(g, longer, PathTo(g, c), c);
  }

  /** Below every node there is a leaf whose path passes through it. */
  lemma {:induction false} LeafBelow(g: Nodes, n: NodeId) returns (leaf: NodeId)
    requires Acyclic(g) && ChildrenPointBack(g) && n in g
    ensures leaf in g && ChildrenOf(g, leaf) == []
    ensures PathTo(g, n) <= PathTo(g, leaf)
    decreases |g| - |PathTo(g, n)|
  {
    PathEnds(g, n);
    if ChildrenOf(g, n) == [] {
      leaf := n;
    } else {
      ChildrenElements(g, n);
      var c := ChildrenOf(g, n)[0];
      assert c in ChildrenOf(g, n);
      PathToChild(g, n, c);
      PathWithin(g, c);
      leaf := LeafBelow(g, c);
    }
  }

  /** A path shows text when one of its nodes does. */
  lemma {:induction false} VisibleSomewhere(g: Nodes, path: seq<NodeId>, i: nat)
    requires i < |path| && HasVisibleText(g, path[i])
    ensures VisibleSequence(g, path) != []
  {
    if i < |path| - 1 {
      VisibleSomewhere(g, path[..|path| - 1], i);
    }
  }

  predicate NamedCandidate(g: Nodes, c: Candidate)
  {
    c == CandidateFor(g, c.leaf) && !Blank(c.leaf)
  }

  /** Candidates end in distinct named nodes, and their paths are the paths of those nodes. */
  ghost predicate Faithful(g: Nodes, cands: seq<Candidate>)
  {
    (forall i :: 0 <= i < |cands| ==> NamedCandidate(g, cands[i]))
    && forall i, j :: 0 <= i < j < |cands| ==> cands[i].leaf != cands[j].leaf
  }

  ghost predicate AllMatch(g: Nodes, provider: string, plans: seq<Plan>, cands: seq<Candidate>)
  {
    |plans| == |cands| && forall i :: 0 <= i < |cands| ==> PlanMatches(g, provider, plans[i], cands[i].leaf)
  }

  ghost predicate NoneEndsAt(cands: seq<Candidate>, leaf: NodeId)
  {
    forall i :: 0 <= i < |cands| ==> cands[i].leaf != leaf
  }

  lemma NamedPlan(env: Env, g: Nodes, provider: string, c: Candidate, first: bool, current: NodeId)
    requires NamedCandidate(g, c)
    ensures PlanMatches(g, provider, PlanFor(env, g, provider, c, first, current), c.leaf)
  {
    PathEnds(g, c.leaf);
  }

  lemma IdNotTaken(g: Nodes, provider: string, plans: seq<Plan>, cands: seq<Candidate>, leaf: NodeId)
    requires AllMatch(g, provider, plans, cands)
    requires NoneEndsAt(cands, leaf)
    ensures leaf !in PlanIds(plans)
  {
    forall i | 0 <= i < |plans| ensures plans[i].branchId != leaf {
      assert PlanMatches(g, provider, plans[i], cands[i].leaf);
    }
  }

  lemma AllMatchAdd(g: Nodes, provider: string, plans: seq<Plan>, cands: seq<Candidate>, p: Plan, c: Candidate)
    requires AllMatch(g, provider, plans, cands) && PlanMatches(g, provider, p, c.leaf)
    ensures AllMatch(g, provider, plans + [p], cands + [c])
  {
  }

  lemma FaithfulParts(g: Nodes, cands: seq<Candidate>)
    requires Faithful(g, cands) && cands != []
    ensures Faithful(g, cands[..|cands| - 1]) && NamedCandidate(g, cands[|cands| - 1])
    ensures NoneEndsAt(cands[..|cands| - 1], cands[|cands| - 1].leaf)
  {
  }

  lemma PlanAdded(env: Env, g: Nodes, provider: string, front: seq<Candidate>, c: Candidate, current: NodeId)
    requires var p := PlanFor(env, g, provider, c, front == [], current);
             p.branchId !in PlanIds(PlansFor(env, g, provider, front, current))
    ensures PlansFor(env, g, provider, front + [c], current)
         == PlansFor(env, g, provider, front, current) + [PlanFor(env, g, provider, c, front == [], current)]
  {
    assert (front + [c])[..|front|] == front;
  }

  /** With named leaves every candidate gets its plan, under its leaf's own id. */
  lemma {:induction false} EveryCandidatePlanned(env: Env, g: Nodes, provider: string, cands: seq<Candidate>, current: NodeId)
    requires Faithful(g, cands)
    ensures AllMatch(g, provider, PlansFor(env, g, provider, cands, current), cands)
  {
    hide Faithful, PathTo, SnapshotOf, PlanFor, NamedCandidate, NoneEndsAt;
    if cands != [] {
      var front, c := cands[..|cands| - 1], cands[|cands| - 1];
      FaithfulParts(g, cands);
      EveryCandidatePlanned(env, g, provider, front, current);
      NamedPlan(env, g, provider, c, front == [], current);
      IdNotTaken(g, provider, PlansFor(env, g, provider, front, current), front, c.leaf);
      PlanAdded(env, g, provider, front, c, current);
      AllMatchAdd(g, provider, PlansFor(env, g, provider, front, current), front,
                  PlanFor(env, g, provider, c, front == [], current), c);
      assert cands == front + [c];
    }
  }

  /** The plan is the branch that ends in `leaf`. */
  predicate PlanMatches(g: Nodes, provider: string, p: Plan, leaf: NodeId)
  {
    p.provider == provider && p.branchId == leaf && p.path == PathTo(g, leaf)
    && p.snapshot == SnapshotOf(g, provider, leaf, PathTo(g, leaf))
  }

  lemma {:induction false} LeafCandidatesEnd(g: Nodes, leaves: seq<NodeId>, current: NodeId)
    ensures EndIn(LeafCandidates(g, leaves, current), leaves, current)
  {
    if leaves != [] {
      var front := leaves[..|leaves| - 1];
      LeafCandidatesEnd(g, front, current);
      assert leaves == front + [leaves[|leaves| - 1]];
    }
  }

  lemma {:induction false} LeafCandidatesFaithful(g: Nodes, leaves: seq<NodeId>, current: NodeId)
    requires Distinct(leaves) && forall i :: 0 <= i < |leaves| ==> !Blank(leaves[i])
    ensures Faithful(g, LeafCandidates(g, leaves, current))
  {
    if leaves != [] {
      var front, last := leaves[..|leaves| - 1], leaves[|leaves| - 1];
      LeafCandidatesFaithful(g, front, current);
      LeafCandidatesEnd(g, front, current);
      LeafStep(g, leaves, current, CandidateFor(g, last));
      AppendFaithful(g, LeafCandidates(g, front, current), CandidateFor(g, last), front, current);
    }
  }

  lemma AppendFaithful(g: Nodes, cands: seq<Candidate>, c: Candidate, leaves: seq<NodeId>, current: NodeId)
    requires Faithful(g, cands) && NamedCandidate(g, c) && EndIn(cands, leaves, current) && c.leaf !in leaves
    ensures Faithful(g, cands + [c])
  {
  }

  ghost predicate EndIn(cands: seq<Candidate>, leaves: seq<NodeId>, current: NodeId)
  {
    forall i :: 0 <= i < |cands| ==> cands[i].leaf in leaves && cands[i].leaf != current
  }

  lemma {:induction false} LeafCandidateFound(g: Nodes, leaves: seq<NodeId>, current: NodeId, leaf: NodeId) returns (i: nat)
    requires leaf in leaves && leaf != current && CandidateFor(g, leaf).visible != []
    ensures i < |LeafCandidates(g, leaves, current)| && LeafCandidates(g, leaves, current)[i].leaf == leaf
  {
    var front := leaves[..|leaves| - 1];
    if leaves[|leaves| - 1] == leaf {
      i := |LeafCandidates(g, front, current)|;
    } else {
      assert leaves == front + [leaves[|leaves| - 1]];
      i := LeafCandidateFound(g, front, current, leaf);
    }
  }

  lemma CandidatesFaithful(g: Graph, current: NodeId)
    requires Valid(g) && NamedNodes(g.nodes)
    ensures Faithful(g.nodes, Candidates(g, current))
  {
    var leaves := LeafIds(g);
    LeafElements(g);
    forall i | 0 <= i < |leaves| ensures !Blank(leaves[i]) {
      assert leaves[i] in leaves;
    }
    LeafCandidatesFaithful(g.nodes, leaves, current);
    LeafCandidatesEnd(g.nodes, leaves, current);
    if current != "" && current in g.nodes {
      PrependFaithful(g.nodes, CandidateFor(g.nodes, current), LeafCandidates(g.nodes, leaves, current), leaves);
    }
  }

  lemma PrependFaithful(g: Nodes, c: Candidate, cands: seq<Candidate>, leaves: seq<NodeId>)
    requires Faithful(g, cands) && NamedCandidate(g, c) && EndIn(cands, leaves, c.leaf)
    ensures Faithful(g, [c] + cands)
  {
  }

  lemma LeafListed(g: Graph, leaf: NodeId)
    requires Valid(g) && leaf in g.nodes && ChildrenOf(g.nodes, leaf) == []
    ensures leaf in LeafIds(g)
  {
    LeafElements(g);
  }

  lemma ShiftIndex(head: seq<Candidate>, tail: seq<Candidate>, k: nat)
    requires k < |tail|
    ensures |head| + k < |head + tail| && (head + tail)[|head| + k] == tail[k]
  {
  }

  /** Where the candidate of a leaf other than the current node stands. */
  lemma LeafCandidateAt(g: Graph, current: NodeId, leaf: NodeId) returns (i: nat)
    requires leaf in LeafIds(g) && leaf != current && VisibleSequence(g.nodes, PathTo(g.nodes, leaf)) != []
    ensures i < |Candidates(g, current)| && Candidates(g, current)[i].leaf == leaf
  {
    var k := LeafCandidateFound(g.nodes, LeafIds(g), current, leaf);
    ShiftIndex(CurrentCandidate(g.nodes, current), LeafCandidates(g.nodes, LeafIds(g), current), k);
    i := |CurrentCandidate(g.nodes, current)| + k;
  }

  /** Every such end has its plan. */
  lemma CandidatePlanned(env: Env, g: Graph, provider: string, current: NodeId, leaf: NodeId) returns (i: nat)
    requires Valid(g) && NamedNodes(g.nodes) && leaf in g.nodes
    requires leaf == current || (ChildrenOf(g.nodes, leaf) == [] && VisibleSequence(g.nodes, PathTo(g.nodes, leaf)) != [])
    ensures i < |PlansOf(env, g, provider, current)|
    ensures PlanMatches(g.nodes, provider, PlansOf(env, g, provider, current)[i], leaf)
  {
    var cands := Candidates(g, current);
    CandidatesFaithful(g, current);
    assert !Blank(leaf);
    if leaf == current {
      i := 0;
    } else {
      LeafListed(g, leaf);
      i := LeafCandidateAt(g, current, leaf);
    }
    PlannedAt(env, g.nodes, provider, cands, current, i);
  }

  lemma PlannedAt(env: Env, g: Nodes, provider: string, cands: seq<Candidate>, current: NodeId, i: nat)
    requires Faithful(g, cands) && i < |cands|
    ensures var plans := MarkPrimary(PlansFor(env, g, provider, cands, current));
            i < |plans| && PlanMatches(g, provider, plans[i], cands[i].leaf)
  {
    EveryCandidatePlanned(env, g, provider, cands, current);
  }

  /** In an acyclic mapping with named nodes whose listed children point back, every node that shows text
      lies on the path of some planned branch. */
  lemma NoBranchDropped(env: Env, g: Graph, provider: string, current: NodeId, n: NodeId) returns (i: nat)
    requires Valid(g) && Acyclic(g.nodes) && NamedNodes(g.nodes) && ChildrenPointBack(g.nodes)
    requires n in g.nodes && HasVisibleText(g.nodes, n)
    ensures i < |PlansOf(env, g, provider, current)| && n in PlansOf(env, g, provider, current)[i].path
  {
    var leaf := LeafBelow(g.nodes, n);
    PathEnds(g.nodes, n);
    var path := PathTo(g.nodes, leaf);
    assert path[|PathTo(g.nodes, n)| - 1] == n;
    VisibleSomewhere(g.nodes, path, |PathTo(g.nodes, n)| - 1);
    i := CandidatePlanned(env, g, provider, current, leaf);
  }

  /** A terminal leaf whose path shows text gets exactly one plan. */
  lemma LeafPlannedOnce(env: Env, g: Graph, provider: string, current: NodeId, leaf: NodeId) returns (i: nat)
    requires Valid(g) && NamedNodes(g.nodes)
    requires leaf in g.nodes && ChildrenOf(g.nodes, leaf) == [] && VisibleSequence(g.nodes, PathTo(g.nodes, leaf)) != []
    ensures var plans := PlansOf(env, g, provider, current);
            && i < |plans| && PlanMatches(g.nodes, provider, plans[i], leaf)
            && forall j :: 0 <= j < |plans| && plans[j].branchId == leaf ==> j == i
  {
    i := CandidatePlanned(env, g, provider, current, leaf);
    OnePrimary(env, g, provider, current);
  }

  // ---- extending a conversation ----

  predicate SameButChildren(a: Node, b: Node)
  {
    a.parent == b.parent && a.message == b.message && a.id == b.id
  }

  /** The same nodes, and perhaps more; the old ones keep all but their children. */
  ghost predicate ExtendedBy(g: Nodes, h: Nodes)
  {
    forall n :: n in g ==> n in h && SameButChildren(g[n], h[n])
  }

  /** A path survives an extension exactly when its first node's dangling parent, if any, stays dangling. */
  lemma PathStable(g: Nodes, h: Nodes, leaf: NodeId)
    requires Acyclic(g) && Acyclic(h) && ExtendedBy(g, h) && leaf in g
    ensures PathTo(h, leaf) == PathTo(g, leaf) <==> ParentOf(h, PathTo(g, leaf)[0]).None?
  {
    PathComplete(g, leaf);
    PathComplete(h, leaf);
    PathWithin(g, leaf);
    var path := PathTo(g, leaf);
    if ParentOf(h, path[0]).None? {
      forall i | 0 < i < |path| ensures ParentOf(h, path[i]) == Some(path[i - 1]) {
        assert path[i] in g && path[i - 1] in g;
        assert ParentOf(g, path[i]) == Some(path[i - 1]);
      }
      AncestryUnique(h, path, PathTo(h, leaf), leaf);
    }
  }

  lemma {:induction false} SnapshotNodesStable(g: Nodes, h: Nodes, path: seq<NodeId>)
    requires ExtendedBy(g, h) && forall i :: 0 <= i < |path| ==> path[i] in g
    ensures SnapshotNodes(h, path) == SnapshotNodes(g, path)
    ensures VisibleSequence(h, path) == VisibleSequence(g, path)
  {
    if path != [] {
      SnapshotNodesStable(g, h, path[..|path| - 1]);
    }
  }

  /** Whatever is added to a conversation, a branch with visible text whose end is still terminal keeps its
      id, its path and its snapshot, as long as the top of its path is still the top. */
  lemma SnapshotStable(env: Env, g: Graph, h: Graph, provider: string, current: NodeId, later: NodeId, leaf: NodeId)
    returns (i: nat, j: nat)
    requires Valid(g) && Acyclic(g.nodes) && NamedNodes(g.nodes)
    requires Valid(h) && Acyclic(h.nodes) && NamedNodes(h.nodes) && ExtendedBy(g.nodes, h.nodes)
    requires leaf in g.nodes && ChildrenOf(g.nodes, leaf) == [] && ChildrenOf(h.nodes, leaf) == []
    requires VisibleSequence(g.nodes, PathTo(g.nodes, leaf)) != []
    requires ParentOf(h.nodes, PathTo(g.nodes, leaf)[0]).None?
    ensures var before, after := PlansOf(env, g, provider, current), PlansOf(env, h, provider, later);
            && i < |before| && j < |after|
            && before[i].branchId == leaf == after[j].branchId
            && after[j].path == before[i].path == PathTo(g.nodes, leaf)
            && after[j].snapshot == before[i].snapshot
  {
    PathStable(g.nodes, h.nodes, leaf);
    PathWithin(g.nodes, leaf);
    SnapshotNodesStable(g.nodes, h.nodes, PathTo(g.nodes, leaf));
    i := CandidatePlanned(env, g, provider, current, leaf);
    j := CandidatePlanned(env, h, provider, later, leaf);
  }
}
