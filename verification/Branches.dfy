/**
 * The conversation tree of services/dashboard/lib/branches.ts: message nodes stored by id,
 * each with its parent, its ordered children and the child the reader has selected.
 */
module Branches {
  import opened Wrappers
  import opened Sequences
  import opened ChatTypes

  /** Node ids are random strings in the source; only their equality matters. */
  type NodeId = nat

  datatype Grounding = Grounding(
    supported: Option<nat>, unsupported: Option<nat>, uncertain: Option<nat>, unverifiable: Option<nat>,
    pending: bool, unavailable: bool)

  datatype RunInfo = RunInfo(
    citations: seq<Citation>, toolEvents: seq<ToolEvent>, stopReason: StopReason, loopId: string,
    strategy: string, modelId: string, stepCount: nat, toolCallCount: nat,
    inputTokens: int, outputTokens: int)

  datatype Role = User | Assistant(run: RunInfo, grounding: Grounding)

  datatype Node = Node(
    id: NodeId, parent: Option<NodeId>, content: string,
    children: seq<NodeId>, selected: Option<NodeId>, role: Role)

  /**
   * `order` is the insertion order of the keys of `nodes`, which is the order in which
   * JavaScript enumerates them.
   */
  datatype Conversation = Conversation(
    order: seq<NodeId>, nodes: map<NodeId, Node>, roots: seq<NodeId>, selectedRoot: Option<NodeId>)

  const EMPTY_CONVERSATION := Conversation([], map[], [], None)

  datatype TreeError = MissingTarget | ParentMismatch | DuplicateId | MissingParent | NotSiblings

  type TreeResult = Result<Conversation, TreeError>

  // ---------- Well-formedness ----------

  /** The dictionary is keyed by node id and its key order lists every key once. */
  ghost predicate Keyed(c: Conversation)
  {
    && NoDup(c.order)
    && (forall id :: id in c.nodes <==> id in c.order)
    && (forall id :: id in c.nodes ==> c.nodes[id].id == id)
  }

  /** `id` was inserted after its parent and before the child it selects. */
  ghost predicate Ranked(c: Conversation, id: NodeId)
    requires id in c.nodes
  {
    var n := c.nodes[id];
    && (n.parent.Some? && n.parent.value in c.nodes ==> Pos(c.order, n.parent.value) < Pos(c.order, id))
    && (n.selected.Some? && n.selected.value in c.nodes ==> Pos(c.order, id) < Pos(c.order, n.selected.value))
  }

  /** No cycle of parents or of selections: all that the path walks need to terminate. */
  ghost predicate Acyclic(c: Conversation)
  {
    Keyed(c) && forall id {:trigger Ranked(c, id)} :: id in c.nodes ==> Ranked(c, id)
  }

  /** The children under a parent, or the top level. */
  function SiblingList(c: Conversation, parent: Option<NodeId>): seq<NodeId>
  {
    match parent
    case None => c.roots
    case Some(p) => if p in c.nodes then c.nodes[p].children else []
  }

  function SelectedUnder(c: Conversation, parent: Option<NodeId>): Option<NodeId>
  {
    match parent
    case None => c.selectedRoot
    case Some(p) => if p in c.nodes then c.nodes[p].selected else None
  }

  /** A parent slot that exists: the top level, or a stored node. */
  predicate Slot(c: Conversation, parent: Option<NodeId>)
  {
    parent.Some? ==> parent.value in c.nodes
  }

  /**
   * A node sits in the sibling list of its own parent; roots are user messages and an
   * assistant message answers a user message.
   */
  ghost predicate NodeOk(c: Conversation, id: NodeId)
    requires id in c.nodes
  {
    var n := c.nodes[id];
    && Slot(c, n.parent)
    && id in SiblingList(c, n.parent)
    && (n.parent.None? ==> n.role.User?)
    && (n.role.Assistant? && n.parent.Some? ==> c.nodes[n.parent.value].role.User?)
  }

  /**
   * A sibling list has no repeats and holds only nodes of that parent; its selection is
   * absent exactly when the list is empty, and otherwise is one of its members.
   */
  ghost predicate SlotOk(c: Conversation, p: Option<NodeId>)
  {
    var list := SiblingList(c, p);
    && NoDup(list)
    && (forall id :: id in list ==> id in c.nodes && c.nodes[id].parent == p)
    && match SelectedUnder(c, p)
       case None => list == []
       case Some(id) => id in list
  }

  ghost predicate WellFormed(c: Conversation)
  {
    && Acyclic(c)
    && (forall id {:trigger NodeOk(c, id)} :: id in c.nodes ==> NodeOk(c, id))
    && (forall p {:trigger SlotOk(c, p)} :: Slot(c, p) ==> SlotOk(c, p))
  }

  // ---------- The active path ----------

  /** The ids met when following selections from `from` down to a leaf. */
  ghost function PathFrom(c: Conversation, from: Option<NodeId>): (ids: seq<NodeId>)
    requires Acyclic(c)
    ensures forall id :: id in ids ==> id in c.nodes
    decreases if from.Some? then |c.order| - Pos(c.order, from.value) else 0
  {
    if from.None? || from.value !in c.nodes then []
    else
      assert Ranked(c, from.value);
      var next := c.nodes[from.value].selected;
      if next.Some? && next.value in c.nodes then [from.value] + PathFrom(c, next) else [from.value]
  }

  ghost function ActiveIds(c: Conversation): seq<NodeId>
    requires Acyclic(c)
  {
    PathFrom(c, c.selectedRoot)
  }

  /** `path` lists the records stored under `ids`. */
  ghost predicate Reads(c: Conversation, ids: seq<NodeId>, path: seq<Node>)
  {
    |path| == |ids| && forall i :: 0 <= i < |ids| ==> ids[i] in c.nodes && path[i] == c.nodes[ids[i]]
  }

  ghost function LastId(ids: seq<NodeId>): Option<NodeId>
  {
    if ids == [] then None else Some(ids[|ids| - 1])
  }

  lemma PathStep(c: Conversation, ids: seq<NodeId>, at: NodeId)
    requires Acyclic(c) && at in c.nodes
    ensures PathFrom(c, Some(at)) == [at] + PathFrom(c, c.nodes[at].selected)
    ensures ids + PathFrom(c, Some(at)) == (ids + [at]) + PathFrom(c, c.nodes[at].selected)
  {
  }

  /** Walk the selections from the root to the leaf. */
  method ActivePathNodes(c: Conversation) returns (path: seq<Node>)
    requires Acyclic(c)
    ensures Reads(c, ActiveIds(c), path)
  {
    path := [];
    var cur := c.selectedRoot;
    ghost var goal := ActiveIds(c);
    ghost var ids := [];
    assert ids + goal == goal;
    while cur.Some? && cur.value in c.nodes
      invariant Reads(c, ids, path)
      invariant goal == ids + PathFrom(c, cur)
      decreases if cur.Some? && cur.value in c.nodes then 1 + |c.order| - Pos(c.order, cur.value) else 0
    {
      PathStep(c, ids, cur.value);
      assert Ranked(c, cur.value);
      var node := c.nodes[cur.value];
      path := path + [node];
      ids := ids + [cur.value];
      cur := node.selected;
    }
    assert goal == ids;
  }

  /** The deepest visible node. */
  method ActiveLeaf(c: Conversation) returns (leaf: Option<Node>)
    requires Acyclic(c)
    ensures leaf.None? <==> ActiveIds(c) == []
    ensures leaf.Some? ==> leaf.value.id in c.nodes && LastId(ActiveIds(c)) == Some(leaf.value.id)
                           && leaf.value == c.nodes[leaf.value.id]
  {
    var path := ActivePathNodes(c);
    leaf := if |path| > 0 then Some(path[|path| - 1]) else None;
  }

  // ---------- Siblings ----------

  ghost function StoredOf(c: Conversation, ids: seq<NodeId>): seq<Node>
  {
    if ids == [] then []
    else
      var init := StoredOf(c, ids[..|ids| - 1]);
      var last := ids[|ids| - 1];
      if last in c.nodes then init + [c.nodes[last]] else init
  }

  method SiblingsOfNode(c: Conversation, id: NodeId) returns (siblings: seq<Node>)
    ensures id !in c.nodes ==> siblings == []
    ensures id in c.nodes ==> siblings == StoredOf(c, SiblingList(c, c.nodes[id].parent))
  {
    if id !in c.nodes {
      return [];
    }
    var ids := SiblingList(c, c.nodes[id].parent);
    siblings := [];
    for i := 0 to |ids|
      invariant siblings == StoredOf(c, ids[..i])
    {
      assert ids[..i + 1][..i] == ids[..i];
      if ids[i] in c.nodes {
        siblings := siblings + [c.nodes[ids[i]]];
      }
    }
    assert ids[..|ids|] == ids;
  }

  // ---------- History ----------

  function TurnOf(n: Node): Turn
  {
    Turn(if n.role.User? then SaidByUser else SaidByAssistant, n.content)
  }

  ghost function TurnsAt(c: Conversation, ids: seq<NodeId>): (turns: seq<Turn>)
    requires forall id :: id in ids ==> id in c.nodes
    ensures |turns| == |ids|
  {
    if ids == [] then []
    else TurnsAt(c, ids[..|ids| - 1]) + [TurnOf(c.nodes[ids[|ids| - 1]])]
  }

  ghost function IdsUpTo(c: Conversation, stop: Option<NodeId>): (ids: seq<NodeId>)
    requires Acyclic(c)
    ensures forall id :: id in ids ==> id in c.nodes
  {
    match stop
    case None => ActiveIds(c)
    case Some(x) =>
      BeforeStops(ActiveIds(c), x);
      Before(ActiveIds(c), x)
  }

  /** The visible turns above `stop`, or all of them. */
  ghost function History(c: Conversation, stop: Option<NodeId>): seq<Turn>
    requires Acyclic(c)
  {
    TurnsAt(c, IdsUpTo(c, stop))
  }

  method HistoryUpTo(c: Conversation, stop: Option<NodeId>) returns (turns: seq<Turn>)
    requires Acyclic(c)
    ensures turns == History(c, stop)
  {
    var path := ActivePathNodes(c);
    ghost var ids := ActiveIds(c);
    turns := [];
    var i := 0;
    while i < |path| && stop != Some(path[i].id)
      invariant 0 <= i <= |path|
      invariant turns == TurnsAt(c, ids[..i])
      invariant stop.Some? ==> stop.value !in ids[..i]
    {
      assert ids[..i + 1][..i] == ids[..i];
      turns := turns + [TurnOf(path[i])];
      i := i + 1;
    }
    BeforeAt(ids, stop, i);
  }

  lemma BeforeAt(ids: seq<NodeId>, stop: Option<NodeId>, i: nat)
    requires i <= |ids|
    requires stop.Some? ==> stop.value !in ids[..i]
    requires i < |ids| ==> stop == Some(ids[i])
    ensures ids[..i] == match stop case None => ids case Some(x) => Before(ids, x)
  {
    if stop.Some? {
      BeforeExtend(ids[..i], ids[i..], stop.value);
      assert ids == ids[..i] + ids[i..];
    }
  }

  // ---------- Mutators ----------

  /** Append `n` under `parent` and select it. */
  function AppendChildOf(c: Conversation, parent: Option<NodeId>, n: Node): TreeResult
  {
    if n.parent != parent then Err(ParentMismatch)
    else if n.id in c.nodes then Err(DuplicateId)
    else
      var order := c.order + [n.id];
      match parent
      case None =>
        Ok(Conversation(order, c.nodes[n.id := n], c.roots + [n.id], Some(n.id)))
      case Some(p) =>
        if p !in c.nodes then Err(MissingParent)
        else
          var grown := c.nodes[p].(children := c.nodes[p].children + [n.id], selected := Some(n.id));
          Ok(c.(order := order, nodes := c.nodes[n.id := n][p := grown]))
  }

  /** Append `n` as a sibling of `target`: the one primitive behind Edit and Retry. */
  function Fork(c: Conversation, target: NodeId, n: Node): TreeResult
  {
    if target !in c.nodes then Err(MissingTarget)
    else if n.parent != c.nodes[target].parent then Err(ParentMismatch)
    else AppendChildOf(c, c.nodes[target].parent, n)
  }

  function SwitchToSibling(c: Conversation, target: NodeId, sibling: NodeId): TreeResult
  {
    if target !in c.nodes || sibling !in c.nodes then Ok(c)
    else if c.nodes[target].parent != c.nodes[sibling].parent then Err(NotSiblings)
    else
      match c.nodes[target].parent
      case None => Ok(c.(selectedRoot := Some(sibling)))
      case Some(p) =>
        if p !in c.nodes then Ok(c)
        else Ok(c.(nodes := c.nodes[p := c.nodes[p].(selected := Some(sibling))]))
  }

  /** The ids from the root down to `id`; absent when a parent is missing on the way up. */
  ghost function AncestorChain(c: Conversation, id: NodeId): (chain: Option<seq<NodeId>>)
    requires Acyclic(c)
    ensures chain.Some? ==>
      |chain.value| > 0 && chain.value[|chain.value| - 1] == id && forall x :: x in chain.value ==> x in c.nodes
    decreases Pos(c.order, id)
  {
    if id !in c.nodes then None
    else
      assert Ranked(c, id);
      match c.nodes[id].parent
      case None => Some([id])
      case Some(p) =>
        if p !in c.nodes then None
        else
          match AncestorChain(c, p)
          case None => None
          case Some(above) => Some(above + [id])
  }

  /** The first `k` nodes of the chain each select their successor in the chain. */
  ghost function PointAlong(nodes: map<NodeId, Node>, chain: seq<NodeId>, k: nat): (pointed: map<NodeId, Node>)
    requires k < |chain|
    requires forall id :: id in chain ==> id in nodes
    ensures pointed.Keys == nodes.Keys
  {
    if k == 0 then nodes
    else
      var above := PointAlong(nodes, chain, k - 1);
      above[chain[k - 1] := above[chain[k - 1]].(selected := Some(chain[k]))]
  }

  ghost function PathSelected(c: Conversation, target: NodeId): Conversation
    requires Acyclic(c)
  {
    match AncestorChain(c, target)
    case None => c
    case Some(chain) => c.(nodes := PointAlong(c.nodes, chain, |chain| - 1), selectedRoot := Some(chain[0]))
  }

  /** Walk up the parents of `target`; `broken` when one of them is missing. */
  method CollectChain(c: Conversation, target: NodeId) returns (chain: seq<NodeId>, broken: bool)
    requires Acyclic(c)
    ensures AncestorChain(c, target) == if broken then None else Some(chain)
  {
    chain, broken := [], false;
    var cur := Some(target);
    ghost var goal := AncestorChain(c, target);
    if goal.Some? {
      assert goal.value + [] == goal.value;
    }
    while cur.Some?
      invariant cur.None? ==> goal == Some(chain)
      invariant cur.Some? ==> goal == Extended(AncestorChain(c, cur.value), chain)
      decreases if cur.Some? && cur.value in c.nodes then 1 + Pos(c.order, cur.value) else 0
    {
      if cur.value !in c.nodes {
        return chain, true;
      }
      var node := c.nodes[cur.value];
      assert Ranked(c, cur.value);
      ExtendedStep(c, node.id, chain);
      chain := [node.id] + chain;
      cur := node.parent;
    }
  }

  ghost function Extended(above: Option<seq<NodeId>>, chain: seq<NodeId>): Option<seq<NodeId>>
  {
    if above.None? then None else Some(above.value + chain)
  }

  lemma ExtendedStep(c: Conversation, id: NodeId, chain: seq<NodeId>)
    requires Acyclic(c) && id in c.nodes
    ensures Extended(AncestorChain(c, id), chain) ==
            match c.nodes[id].parent
            case None => Some([id] + chain)
            case Some(p) => Extended(AncestorChain(c, p), [id] + chain)
  {
    if c.nodes[id].parent.Some? {
      var above := AncestorChain(c, c.nodes[id].parent.value);
      if above.Some? {
        assert (above.value + [id]) + chain == above.value + ([id] + chain);
      }
    }
  }

  /** Overwrite the selections along a chain, from the top down. */
  method PointChain(nodes: map<NodeId, Node>, chain: seq<NodeId>) returns (pointed: map<NodeId, Node>)
    requires |chain| > 0
    requires forall id :: id in chain ==> id in nodes
    ensures pointed == PointAlong(nodes, chain, |chain| - 1)
  {
    pointed := nodes;
    for i := 0 to |chain| - 1
      invariant pointed == PointAlong(nodes, chain, i)
    {
      pointed := pointed[chain[i] := pointed[chain[i]].(selected := Some(chain[i + 1]))];
    }
  }

  /** Re-point the selections above `target` so that it becomes visible. */
  method SelectPathTo(c: Conversation, target: NodeId) returns (r: Conversation)
    requires Acyclic(c)
    ensures r == PathSelected(c, target)
  {
    var chain, broken := CollectChain(c, target);
    if broken {
      return c;
    }
    var nodes := PointChain(c.nodes, chain);
    r := c.(nodes := nodes, selectedRoot := Some(chain[0]));
  }

  // ---------- Node constructors ----------

  function MakeUserNode(id: NodeId, parent: Option<NodeId>, content: string): Node
  {
    Node(id, parent, content, [], None, User)
  }

  function MakeAssistantNode(id: NodeId, parent: NodeId, content: string, run: RunInfo, g: Grounding): Node
  {
    Node(id, Some(parent), content, [], None, Assistant(run, g))
  }

  // ---------- Late verdicts ----------

  datatype Patch = Patch(ran: bool, content: string,
                         supported: nat, unsupported: nat, uncertain: nat, unverifiable: nat)

  function PatchedNode(n: Node, p: Patch): Node
  {
    match n.role
    case User => n
    case Assistant(run, g) =>
      if p.ran then
        n.(content := p.content,
           role := Assistant(run, Grounding(Some(p.supported), Some(p.unsupported),
                                            Some(p.uncertain), Some(p.unverifiable), false, false)))
      else
        n.(role := Assistant(run, g.(pending := false, unavailable := true)))
  }

  /** Stamp late verdicts onto a settled assistant node; anything else is left alone. */
  function UpdateAssistantGrounding(c: Conversation, id: NodeId, p: Patch): Conversation
  {
    if id !in c.nodes || c.nodes[id].role.User? then c
    else c.(nodes := c.nodes[id := PatchedNode(c.nodes[id], p)])
  }
}
