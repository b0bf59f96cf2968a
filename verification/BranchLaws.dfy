/**
 * What the tree operations do to the shape of a conversation and to the path the reader sees.
 */
module BranchLaws {
  import opened Wrappers
  import opened Sequences
  import opened Branches

  // ---------- The active path ----------

  /** Without repeats, none inserted before the first, each selecting the next. */
  ghost predicate Linked(c: Conversation, ids: seq<NodeId>)
  {
    && NoDup(ids)
    && (forall i :: 0 <= i < |ids| ==> ids[i] in c.nodes && Pos(c.order, ids[0]) <= Pos(c.order, ids[i]))
    && (forall i :: 0 <= i < |ids| - 1 ==> c.nodes[ids[i]].selected == Some(ids[i + 1]))
  }

  lemma LinkedCons(c: Conversation, x: NodeId, rest: seq<NodeId>)
    requires x in c.nodes && rest != [] && Linked(c, rest)
    requires c.nodes[x].selected == Some(rest[0]) && Pos(c.order, x) < Pos(c.order, rest[0])
    ensures Linked(c, [x] + rest)
  {
    var ids := [x] + rest;
    assert forall i :: 0 < i < |ids| ==> ids[i] == rest[i - 1];
  }

  /** A path follows selections, never repeats a node, and descends in insertion order. */
  lemma {:induction false} PathLinks(c: Conversation, from: Option<NodeId>)
    requires Acyclic(c)
    ensures Linked(c, PathFrom(c, from))
    ensures from.Some? && from.value in c.nodes ==> PathFrom(c, from) != [] && PathFrom(c, from)[0] == from.value
    decreases if from.Some? then |c.order| - Pos(c.order, from.value) else 0
  {
    if from.Some? && from.value in c.nodes {
      assert Ranked(c, from.value);
      var next := c.nodes[from.value].selected;
      PathStep(c, [], from.value);
      if next.Some? && next.value in c.nodes {
        hide PathFrom, Linked;
        PathLinks(c, next);
        LinkedCons(c, from.value, PathFrom(c, next));
      }
    }
  }

  /** On a well-formed tree a path runs parent to child and stops only at a node without children. */
  lemma {:induction false} PathDescends(c: Conversation, from: NodeId)
    requires WellFormed(c) && from in c.nodes
    ensures var ids := PathFrom(c, Some(from));
            && ids != [] && ids[0] == from
            && (forall i :: 0 <= i < |ids| - 1 ==> c.nodes[ids[i + 1]].parent == Some(ids[i]))
            && c.nodes[ids[|ids| - 1]].children == []
    decreases |c.order| - Pos(c.order, from)
  {
    assert Ranked(c, from) && SlotOk(c, Some(from));
    PathStep(c, [], from);
    var next := c.nodes[from].selected;
    if next.Some? {
      hide NodeOk, SlotOk, PathFrom;
      PathDescends(c, next.value);
      DescendsCons(c, from, PathFrom(c, next));
    }
  }

  lemma DescendsCons(c: Conversation, x: NodeId, rest: seq<NodeId>)
    requires rest != [] && forall id :: id in rest ==> id in c.nodes
    requires c.nodes[rest[0]].parent == Some(x)
    requires forall i :: 0 <= i < |rest| - 1 ==> c.nodes[rest[i + 1]].parent == Some(rest[i])
    ensures var ids := [x] + rest;
            && ids[|ids| - 1] == rest[|rest| - 1]
            && forall i :: 0 <= i < |ids| - 1 ==> c.nodes[ids[i + 1]].parent == Some(ids[i])
  {
    var ids := [x] + rest;
    forall i | 0 <= i < |ids| - 1
      ensures c.nodes[ids[i + 1]].parent == Some(ids[i])
    {
      if i > 0 {
        assert ids[i] == rest[i - 1] && ids[i + 1] == rest[i - 1 + 1];
      }
    }
  }

  /**
   * The visible path of a well-formed tree: it starts at a root user message, goes from
   * parent to child without repeats, and ends at a true leaf; it is empty only when the
   * conversation has no top-level message.
   */
  lemma ActivePathShape(c: Conversation)
    requires WellFormed(c)
    ensures var ids := ActiveIds(c);
            && NoDup(ids)
            && (ids == [] <==> c.roots == [])
            && (ids != [] ==>
                  && ids[0] in c.roots && c.nodes[ids[0]].role.User?
                  && c.nodes[ids[|ids| - 1]].children == [])
            && (forall i :: 0 <= i < |ids| - 1 ==> c.nodes[ids[i + 1]].parent == Some(ids[i]))
  {
    assert SlotOk(c, None);
    PathLinks(c, c.selectedRoot);
    if c.selectedRoot.Some? {
      assert NodeOk(c, c.selectedRoot.value);
      PathDescends(c, c.selectedRoot.value);
    }
  }

  /** The root-to-node chain of a stored node: complete, parent to child, without repeats. */
  lemma {:induction false} ChainFacts(c: Conversation, id: NodeId)
    requires WellFormed(c) && id in c.nodes
    ensures AncestorChain(c, id).Some?
    ensures var chain := AncestorChain(c, id).value;
            && NoDup(chain)
            && chain[0] in c.roots && c.nodes[chain[0]].parent.None?
            && (forall i :: 0 <= i < |chain| ==> Pos(c.order, chain[i]) <= Pos(c.order, id))
            && (forall i :: 0 <= i < |chain| - 1 ==> c.nodes[chain[i + 1]].parent == Some(chain[i]))
    decreases Pos(c.order, id)
  {
    assert Ranked(c, id);
    assert NodeOk(c, id);
    if c.nodes[id].parent.Some? {
      ChainFacts(c, c.nodes[id].parent.value);
    }
  }

  /** The visible path through its k-th node is that node's ancestor chain. */
  lemma {:induction false} VisiblePrefixIsChain(c: Conversation, k: nat)
    requires WellFormed(c) && k < |ActiveIds(c)|
    ensures AncestorChain(c, ActiveIds(c)[k]) == Some(ActiveIds(c)[..k + 1])
  {
    var ids := ActiveIds(c);
    ActivePathShape(c);
    assert SlotOk(c, None);
    hide Acyclic, Ranked, NodeOk, SlotOk, PathFrom;
    if k == 0 {
      assert ids[..1] == [ids[0]];
    } else {
      VisiblePrefixIsChain(c, k - 1);
      assert c.nodes[ids[k - 1 + 1]].parent == Some(ids[k - 1]);
      assert ids[..k + 1] == ids[..k] + [ids[k]];
    }
  }

  // ---------- Changing one selection ----------

  /** `d` selects below every node of `c`, except perhaps `p`, what `c` selects. */
  ghost predicate SameSelectionsBut(c: Conversation, d: Conversation, p: Option<NodeId>)
  {
    forall id :: id in c.nodes && Some(id) != p ==> id in d.nodes && d.nodes[id].selected == c.nodes[id].selected
  }

  /** Paths that avoid `p` keep their ids; the others keep them through `p` and then follow its new selection. */
  lemma {:induction false} Repoint(c: Conversation, d: Conversation, p: NodeId, from: NodeId)
    requires WellFormed(c) && Acyclic(d)
    requires p in d.nodes && from in c.nodes
    requires SameSelectionsBut(c, d, Some(p))
    ensures var ids := PathFrom(c, Some(from));
            PathFrom(d, Some(from)) ==
            if p in ids then Through(ids, p) + PathFrom(d, d.nodes[p].selected) else ids
    decreases |c.order| - Pos(c.order, from)
  {
    assert Ranked(c, from) && SlotOk(c, Some(from));
    var next := c.nodes[from].selected;
    assert from != p ==> from in d.nodes && d.nodes[from].selected == next;
    hide NodeOk, SlotOk, SameSelectionsBut, Acyclic, PathFrom;
    if from != p && next.Some? {
      Repoint(c, d, p, next.value);
    }
    RepointStep(c, d, p, from);
  }

  lemma RepointStep(c: Conversation, d: Conversation, p: NodeId, from: NodeId)
    requires Acyclic(c) && Acyclic(d) && p in d.nodes && from in c.nodes
    requires from != p ==> from in d.nodes && d.nodes[from].selected == c.nodes[from].selected
    requires var next := c.nodes[from].selected;
             var rest := PathFrom(c, next);
             from != p ==>
               PathFrom(d, next) == if p in rest then Through(rest, p) + PathFrom(d, d.nodes[p].selected) else rest
    ensures var ids := PathFrom(c, Some(from));
            PathFrom(d, Some(from)) ==
            if p in ids then Through(ids, p) + PathFrom(d, d.nodes[p].selected) else ids
  {
    hide Acyclic, PathFrom, Through;
    var next := c.nodes[from].selected;
    PathStep(c, [], from);
    PathStep(d, [], if from == p then p else from);
    Reroute(from, p, PathFrom(c, next), PathFrom(d, next), PathFrom(d, d.nodes[p].selected));
  }

  lemma Reroute(x: NodeId, p: NodeId, rest: seq<NodeId>, rerouted: seq<NodeId>, below: seq<NodeId>)
    requires x != p ==> rerouted == if p in rest then Through(rest, p) + below else rest
    ensures p in [x] + rest ==> Through([x] + rest, p) + below == [x] + if x == p then below else rerouted
    ensures p !in [x] + rest ==> [x] + rest == [x] + rerouted
  {
    hide Through;
    ThroughCons(x, rest, p);
    assert [x] + Through(rest, p) + below == [x] + (Through(rest, p) + below);
    assert p in [x] + rest <==> x == p || p in rest;
  }

  lemma ThroughCons(x: NodeId, rest: seq<NodeId>, p: NodeId)
    ensures Through([x] + rest, p) == if x == p then [x] else [x] + Through(rest, p)
  {
    assert ([x] + rest)[1..] == rest;
  }

  /** Trees that agree on every selection show the same paths. */
  lemma {:induction false} SamePaths(c: Conversation, d: Conversation, from: Option<NodeId>)
    requires Acyclic(c) && Acyclic(d)
    requires SameSelectionsBut(c, d, None) && c.nodes.Keys == d.nodes.Keys
    ensures PathFrom(d, from) == PathFrom(c, from)
    decreases if from.Some? then |c.order| - Pos(c.order, from.value) else 0
  {
    if from.Some? && from.value in c.nodes {
      assert Ranked(c, from.value);
      SamePaths(c, d, c.nodes[from.value].selected);
    }
  }

  // ---------- Append and fork ----------

  /** A freshly built node that may be put under `parent`. */
  ghost predicate Insertable(c: Conversation, parent: Option<NodeId>, n: Node)
  {
    && Slot(c, parent)
    && n.parent == parent && n.id !in c.nodes
    && n.children == [] && n.selected == None
    && (parent.None? ==> n.role.User?)
    && (n.role.Assistant? && parent.Some? ==> c.nodes[parent.value].role.User?)
  }

  /** The three ways an append throws, and that it succeeds otherwise. */
  lemma AppendOutcome(c: Conversation, parent: Option<NodeId>, n: Node)
    ensures AppendChildOf(c, parent, n).Ok? <==> n.parent == parent && n.id !in c.nodes && Slot(c, parent)
    ensures AppendChildOf(c, parent, n) == Err(ParentMismatch) <==> n.parent != parent
    ensures AppendChildOf(c, parent, n) == Err(DuplicateId) <==> n.parent == parent && n.id in c.nodes
    ensures AppendChildOf(c, parent, n) == Err(MissingParent) <==>
            n.parent == parent && n.id !in c.nodes && !Slot(c, parent)
  {
  }

  lemma AppendAcyclic(c: Conversation, parent: Option<NodeId>, n: Node)
    requires WellFormed(c) && Insertable(c, parent, n)
    ensures Acyclic(AppendChildOf(c, parent, n).value)
  {
    var d := AppendChildOf(c, parent, n).value;
    forall id | id in d.nodes
      ensures Ranked(d, id)
    {
      PosAppend(c.order, id, n.id);
      if id == n.id {
        if parent.Some? {
          PosAppend(c.order, parent.value, n.id);
        }
      } else {
        assert Ranked(c, id) && NodeOk(c, id) && SlotOk(c, Some(id));
        if c.nodes[id].parent.Some? {
          PosAppend(c.order, c.nodes[id].parent.value, n.id);
        }
        if parent == Some(id) {
          PosAppend(c.order, n.id, n.id);
        } else if c.nodes[id].selected.Some? {
          PosAppend(c.order, c.nodes[id].selected.value, n.id);
        }
      }
    }
  }

  /** Exactly one sibling list grows, by one at its end; nothing else about other nodes changes. */
  lemma AppendFrame(c: Conversation, parent: Option<NodeId>, n: Node)
    requires WellFormed(c) && Insertable(c, parent, n)
    ensures var d := AppendChildOf(c, parent, n).value;
            && d.order == c.order + [n.id]
            && d.nodes.Keys == c.nodes.Keys + {n.id} && d.nodes[n.id] == n
            && SiblingList(d, parent) == SiblingList(c, parent) + [n.id]
            && SelectedUnder(d, parent) == Some(n.id)
            && (forall q :: Slot(c, q) && q != parent ==>
                  SiblingList(d, q) == SiblingList(c, q) && SelectedUnder(d, q) == SelectedUnder(c, q))
            && (forall id :: id in c.nodes && Some(id) != parent ==> d.nodes[id] == c.nodes[id])
            && (parent.Some? ==>
                  d.nodes[parent.value].(children := [], selected := None) ==
                  c.nodes[parent.value].(children := [], selected := None))
  {
  }

  lemma AppendSlot(c: Conversation, parent: Option<NodeId>, n: Node, q: Option<NodeId>)
    requires WellFormed(c) && Insertable(c, parent, n)
    requires Slot(AppendChildOf(c, parent, n).value, q)
    ensures SlotOk(AppendChildOf(c, parent, n).value, q)
  {
    var d := AppendChildOf(c, parent, n).value;
    if q == Some(n.id) {
      assert SiblingList(d, q) == [] && SelectedUnder(d, q) == None;
    } else {
      assert SlotOk(c, q);
      var list := SiblingList(c, q);
      assert forall id :: id in list ==> d.nodes[id].parent == q;
      if q == parent {
        assert n.id !in list;
        assert SiblingList(d, q) == list + [n.id];
      } else {
        assert SiblingList(d, q) == list;
      }
    }
  }

  lemma AppendNode(c: Conversation, parent: Option<NodeId>, n: Node, id: NodeId)
    requires WellFormed(c) && Insertable(c, parent, n)
    requires id in AppendChildOf(c, parent, n).value.nodes
    ensures NodeOk(AppendChildOf(c, parent, n).value, id)
  {
    if id != n.id {
      assert NodeOk(c, id);
    }
  }

  /** Appending keeps the tree well formed. */
  lemma AppendKeepsWellFormed(c: Conversation, parent: Option<NodeId>, n: Node)
    requires WellFormed(c) && Insertable(c, parent, n)
    ensures AppendChildOf(c, parent, n).Ok?
    ensures WellFormed(AppendChildOf(c, parent, n).value)
  {
    var d := AppendChildOf(c, parent, n).value;
    AppendAcyclic(c, parent, n);
    forall id | id in d.nodes ensures NodeOk(d, id) { AppendNode(c, parent, n, id); }
    forall q | Slot(d, q) ensures SlotOk(d, q) { AppendSlot(c, parent, n, q); }
  }

  /**
   * The new path after an append: through the parent and on to the new node when the parent
   * is visible (the top level always is), and unchanged otherwise.
   */
  lemma AppendActivePath(c: Conversation, parent: Option<NodeId>, n: Node)
    requires WellFormed(c) && Insertable(c, parent, n)
    requires WellFormed(AppendChildOf(c, parent, n).value)
    ensures ActiveIds(AppendChildOf(c, parent, n).value) ==
            match parent
            case None => [n.id]
            case Some(p) =>
              if p in ActiveIds(c) then Through(ActiveIds(c), p) + [n.id] else ActiveIds(c)
  {
    var d := AppendChildOf(c, parent, n).value;
    AppendFrame(c, parent, n);
    assert PathFrom(d, Some(n.id)) == [n.id];
    if parent.Some? && c.selectedRoot.Some? {
      assert SlotOk(c, None);
      Repoint(c, d, parent.value, c.selectedRoot.value);
    }
  }

  /** A fork throws exactly when the target is missing, the parents differ, or the id is taken. */
  lemma ForkOutcome(c: Conversation, target: NodeId, n: Node)
    requires WellFormed(c)
    ensures Fork(c, target, n).Ok? <==>
            target in c.nodes && n.parent == c.nodes[target].parent && n.id !in c.nodes
    ensures Fork(c, target, n).Ok? ==> Fork(c, target, n) == AppendChildOf(c, c.nodes[target].parent, n)
    ensures Fork(c, target, n) == Err(MissingTarget) <==> target !in c.nodes
    ensures Fork(c, target, n) == Err(ParentMismatch) <==> target in c.nodes && n.parent != c.nodes[target].parent
    ensures Fork(c, target, n) == Err(DuplicateId) <==>
            target in c.nodes && n.parent == c.nodes[target].parent && n.id in c.nodes
  {
    if target in c.nodes {
      assert NodeOk(c, target);
    }
  }

  /** A node is never below its own child. */
  lemma ParentNotBelow(c: Conversation, id: NodeId, p: NodeId)
    requires WellFormed(c) && id in c.nodes && c.nodes[id].parent == Some(p)
    ensures p in c.nodes && p !in PathFrom(c, Some(id))
  {
    assert NodeOk(c, id) && Ranked(c, id);
    PathLinks(c, Some(id));
  }

  /** A tree that only gained nodes shows the old paths from old nodes. */
  lemma {:induction false} SubPathsKept(c: Conversation, d: Conversation, from: NodeId)
    requires WellFormed(c) && Acyclic(d) && from in c.nodes
    requires SameSelectionsBut(c, d, None)
    ensures PathFrom(d, Some(from)) == PathFrom(c, Some(from))
    decreases |c.order| - Pos(c.order, from)
  {
    assert Ranked(c, from) && SlotOk(c, Some(from));
    PathStep(d, [], from);
    PathStep(c, [], from);
    if c.nodes[from].selected.Some? {
      SubPathsKept(c, d, c.nodes[from].selected.value);
    }
  }

  /** A fork leaves the old branch as it was: the target and the path below it are untouched. */
  lemma ForkKeepsOldBranch(c: Conversation, target: NodeId, n: Node)
    requires WellFormed(c) && target in c.nodes && Insertable(c, c.nodes[target].parent, n)
    ensures Fork(c, target, n).Ok? && WellFormed(Fork(c, target, n).value)
    ensures Fork(c, target, n).value.nodes[target] == c.nodes[target]
    ensures PathFrom(Fork(c, target, n).value, Some(target)) == PathFrom(c, Some(target))
  {
    var parent := c.nodes[target].parent;
    var d := Fork(c, target, n).value;
    AppendKeepsWellFormed(c, parent, n);
    match parent {
      case None => SubPathsKept(c, d, target);
      case Some(p) =>
        ParentNotBelow(c, target, p);
        Repoint(c, d, p, target);
    }
  }

  /** The tree after forking and switching back selects, among old nodes, what it selected before. */
  lemma ForkThenBackSelections(c: Conversation, target: NodeId, n: Node, was: NodeId)
    requires WellFormed(c) && target in c.nodes && Insertable(c, c.nodes[target].parent, n)
    requires SelectedUnder(c, c.nodes[target].parent) == Some(was) && was in c.nodes
    requires c.nodes[was].parent == c.nodes[target].parent
    requires WellFormed(Fork(c, target, n).value)
    ensures var back := SwitchToSibling(Fork(c, target, n).value, n.id, was);
            back.Ok? && SameSelectionsBut(c, back.value, None) && back.value.selectedRoot == c.selectedRoot
  {
    ForkOutcome(c, target, n);
  }

  /** Switching back to the child selected before the fork shows the old path again, here and below every node. */
  lemma ForkThenBack(c: Conversation, target: NodeId, n: Node, was: NodeId)
    requires WellFormed(c) && target in c.nodes && Insertable(c, c.nodes[target].parent, n)
    requires SelectedUnder(c, c.nodes[target].parent) == Some(was)
    ensures var d := Fork(c, target, n).value;
            var back := SwitchToSibling(d, n.id, was);
            && back.Ok? && WellFormed(back.value) && ActiveIds(back.value) == ActiveIds(c)
            && forall x :: x in c.nodes ==> PathFrom(back.value, Some(x)) == PathFrom(c, Some(x))
  {
    ForkKeepsOldBranch(c, target, n);
    var d := Fork(c, target, n).value;
    assert SlotOk(c, c.nodes[target].parent);
    AppendFrame(c, c.nodes[target].parent, n);
    assert was in c.nodes && d.nodes[was].parent == c.nodes[target].parent;
    ForkThenBackSelections(c, target, n, was);
    SwitchKeepsWellFormed(d, n.id, was);
    SomeRoot(c, target);
    var back := SwitchToSibling(d, n.id, was).value;
    forall x | x in c.nodes
      ensures PathFrom(back, Some(x)) == PathFrom(c, Some(x))
    {
      SubPathsKept(c, back, x);
    }
  }

  // ---------- Switching branches ----------

  /** `d` is `c` with other selections and other message contents, but the same tree. */
  ghost predicate SameShape(c: Conversation, d: Conversation)
  {
    && d.order == c.order && d.roots == c.roots && d.nodes.Keys == c.nodes.Keys
    && forall id :: id in c.nodes ==>
         && d.nodes[id].id == id
         && d.nodes[id].parent == c.nodes[id].parent
         && d.nodes[id].children == c.nodes[id].children
         && (d.nodes[id].role.User? <==> c.nodes[id].role.User?)
  }

  ghost predicate SelectionIn(d: Conversation, p: Option<NodeId>)
  {
    match SelectedUnder(d, p)
    case None => SiblingList(d, p) == []
    case Some(id) => id in SiblingList(d, p)
  }

  lemma SameShapeSlot(c: Conversation, d: Conversation, p: Option<NodeId>)
    requires WellFormed(c) && SameShape(c, d) && Slot(c, p)
    requires SelectionIn(d, p)
    ensures SlotOk(d, p)
  {
    assert SlotOk(c, p);
    assert SiblingList(d, p) == SiblingList(c, p);
  }

  lemma SameShapeNode(c: Conversation, d: Conversation, id: NodeId)
    requires WellFormed(c) && SameShape(c, d) && id in c.nodes
    requires SelectionIn(d, Some(id))
    ensures NodeOk(d, id) && Ranked(d, id)
  {
    assert NodeOk(c, id) && Ranked(c, id) && SlotOk(c, Some(id));
    if d.nodes[id].selected.Some? {
      assert Ranked(c, d.nodes[id].selected.value);
    }
  }

  /** Re-selecting within the sibling lists keeps a tree well formed. */
  lemma SameShapeKeepsWellFormed(c: Conversation, d: Conversation)
    requires WellFormed(c) && SameShape(c, d)
    requires forall p {:trigger SelectionIn(d, p)} :: Slot(c, p) ==> SelectionIn(d, p)
    ensures WellFormed(d)
  {
    forall id | id in d.nodes
      ensures NodeOk(d, id) && Ranked(d, id)
    {
      assert SelectionIn(d, Some(id));
      SameShapeNode(c, d, id);
    }
    forall p | Slot(d, p)
      ensures SlotOk(d, p)
    {
      assert SelectionIn(d, p);
      SameShapeSlot(c, d, p);
    }
  }

  lemma SwitchKeepsWellFormed(c: Conversation, target: NodeId, sibling: NodeId)
    requires WellFormed(c) && target in c.nodes && sibling in c.nodes
    requires c.nodes[target].parent == c.nodes[sibling].parent
    ensures SwitchToSibling(c, target, sibling).Ok?
    ensures WellFormed(SwitchToSibling(c, target, sibling).value)
  {
    var d := SwitchToSibling(c, target, sibling).value;
    assert NodeOk(c, sibling);
    forall q | Slot(c, q)
      ensures SelectionIn(d, q)
    {
      assert SlotOk(c, q);
    }
    SameShapeKeepsWellFormed(c, d);
  }

  /** A conversation with a node shows something. */
  lemma SomeRoot(c: Conversation, id: NodeId)
    requires WellFormed(c) && id in c.nodes
    ensures c.selectedRoot.Some? && c.selectedRoot.value in c.nodes
  {
    ChainFacts(c, id);
    assert SlotOk(c, None);
  }

  /** Switching moves the path at the fork only, onto whatever was selected below the sibling. */
  lemma SwitchActivePath(c: Conversation, target: NodeId, sibling: NodeId)
    requires WellFormed(c) && target in c.nodes && sibling in c.nodes
    requires c.nodes[target].parent == c.nodes[sibling].parent
    requires WellFormed(SwitchToSibling(c, target, sibling).value)
    ensures ActiveIds(SwitchToSibling(c, target, sibling).value) ==
            match c.nodes[target].parent
            case None => PathFrom(c, Some(sibling))
            case Some(p) =>
              if p in ActiveIds(c) then Through(ActiveIds(c), p) + PathFrom(c, Some(sibling)) else ActiveIds(c)
  {
    var d := SwitchToSibling(c, target, sibling).value;
    if c.nodes[target].parent.Some? {
      var p := c.nodes[target].parent.value;
      SomeRoot(c, target);
      ParentNotBelow(c, sibling, p);
      Repoint(c, d, p, sibling);
      Repoint(c, d, p, c.selectedRoot.value);
    } else {
      SamePaths(c, d, Some(sibling));
    }
  }

  /** Switching from a visible node shows the sibling where that node stood. */
  lemma SwitchLands(c: Conversation, target: NodeId, sibling: NodeId)
    requires WellFormed(c) && target in ActiveIds(c) && target in c.nodes && sibling in c.nodes
    requires c.nodes[target].parent == c.nodes[sibling].parent
    requires SwitchToSibling(c, target, sibling).Ok? && WellFormed(SwitchToSibling(c, target, sibling).value)
    ensures var path := ActiveIds(SwitchToSibling(c, target, sibling).value);
            sibling in path && Before(path, sibling) == Before(ActiveIds(c), target)
  {
    hide Acyclic, NodeOk, SlotOk, PathFrom, ActiveIds, Through, Before, SwitchToSibling;
    var d, above := SwitchToSibling(c, target, sibling).value, Before(ActiveIds(c), target);
    SwitchActivePath(c, target, sibling);
    VisibleNeighbours(c, target);
    PathStep(c, [], sibling);
    assert ActiveIds(d) == above + PathFrom(c, Some(sibling));
    ActivePathShape(d);
    assert ActiveIds(d)[|above|] == sibling;
    BeforeIsPrefix(ActiveIds(d), sibling);
    PosUnique(ActiveIds(d), |above|);
  }

  /** Switching away from the selected sibling and back restores the conversation exactly. */
  lemma SwitchBack(c: Conversation, target: NodeId, sibling: NodeId)
    requires WellFormed(c) && target in c.nodes && sibling in c.nodes
    requires c.nodes[target].parent == c.nodes[sibling].parent
    requires SelectedUnder(c, c.nodes[target].parent) == Some(target)
    ensures SwitchToSibling(SwitchToSibling(c, target, sibling).value, sibling, target) == Ok(c)
  {
    assert NodeOk(c, target);
    match c.nodes[target].parent {
      case None =>
      case Some(p) =>
        assert c.nodes == c.nodes[p := c.nodes[p].(selected := Some(sibling))][p := c.nodes[p]];
        ParentNotBelow(c, target, p);
        ParentNotBelow(c, sibling, p);
        PathStep(c, [], target);
        PathStep(c, [], sibling);
    }
  }

  // ---------- Surfacing a node ----------

  lemma {:induction false} PointAlongAt(nodes: map<NodeId, Node>, chain: seq<NodeId>, k: nat)
    requires k < |chain| && NoDup(chain)
    requires forall id :: id in chain ==> id in nodes
    ensures var d := PointAlong(nodes, chain, k);
            && (forall i :: 0 <= i < k ==> d[chain[i]] == nodes[chain[i]].(selected := Some(chain[i + 1])))
            && (forall id :: id in nodes && id !in chain[..k] ==> d[id] == nodes[id])
  {
    if k > 0 {
      PointAlongAt(nodes, chain, k - 1);
      assert chain[..k] == chain[..k - 1] + [chain[k - 1]];
    }
  }

  /** Only the selections above the target change, each to the next node of the chain. */
  lemma SurfaceFrame(c: Conversation, target: NodeId)
    requires WellFormed(c) && target in c.nodes
    ensures AncestorChain(c, target).Some?
    ensures var d := PathSelected(c, target);
            var chain := AncestorChain(c, target).value;
            && d.order == c.order && d.roots == c.roots && d.nodes.Keys == c.nodes.Keys
            && d.selectedRoot == Some(chain[0])
            && (forall i :: 0 <= i < |chain| - 1 ==>
                  d.nodes[chain[i]] == c.nodes[chain[i]].(selected := Some(chain[i + 1])))
            && (forall id :: id in c.nodes && id !in chain[..|chain| - 1] ==> d.nodes[id] == c.nodes[id])
            && d.nodes[target] == c.nodes[target]
  {
    ChainFacts(c, target);
    var chain := AncestorChain(c, target).value;
    PointAlongAt(c.nodes, chain, |chain| - 1);
  }

  lemma SurfaceSelection(c: Conversation, target: NodeId, id: NodeId)
    requires WellFormed(c) && target in c.nodes && id in c.nodes
    ensures SelectionIn(PathSelected(c, target), Some(id))
    ensures var n := PathSelected(c, target).nodes;
            id in n && n[id].(selected := None) == c.nodes[id].(selected := None)
  {
    SurfaceFrame(c, target);
    ChainFacts(c, target);
    assert SlotOk(c, Some(id));
    var chain := AncestorChain(c, target).value;
    if id in chain[..|chain| - 1] {
      var i := Pos(chain[..|chain| - 1], id);
      assert chain[i] == id && c.nodes[chain[i + 1]].parent == Some(id);
      assert NodeOk(c, chain[i + 1]);
    }
  }

  lemma SurfaceKeepsWellFormed(c: Conversation, target: NodeId)
    requires WellFormed(c)
    ensures WellFormed(PathSelected(c, target))
  {
    if target in c.nodes {
      var d := PathSelected(c, target);
      SurfaceFrame(c, target);
      ChainFacts(c, target);
      assert SelectionIn(d, None);
      forall id | id in c.nodes
        ensures SelectionIn(d, Some(id)) && d.nodes[id].(selected := None) == c.nodes[id].(selected := None)
      {
        SurfaceSelection(c, target, id);
      }
      assert forall q :: Slot(c, q) ==> q == None || (q.Some? && q.value in c.nodes);
      SameShapeKeepsWellFormed(c, d);
    }
  }

  /** Where each node of a chain selects the next, the walk runs down the chain and on. */
  lemma {:induction false} ChainWalk(d: Conversation, chain: seq<NodeId>, i: nat)
    requires Acyclic(d) && i < |chain|
    requires forall id :: id in chain ==> id in d.nodes
    requires forall k :: 0 <= k < |chain| - 1 ==> d.nodes[chain[k]].selected == Some(chain[k + 1])
    ensures PathFrom(d, Some(chain[i])) == chain[i..] + PathFrom(d, d.nodes[chain[|chain| - 1]].selected)
    decreases |chain| - i
  {
    PathStep(d, [], chain[i]);
    if i < |chain| - 1 {
      ChainWalk(d, chain, i + 1);
      assert chain[i..] == [chain[i]] + chain[i + 1..];
    } else {
      assert chain[i..] == [chain[i]];
    }
  }

  /** Below the target no selection changed. */
  lemma {:induction false} BelowUntouched(
      c: Conversation, d: Conversation, chain: seq<NodeId>, from: Option<NodeId>)
    requires WellFormed(c) && Acyclic(d) && d.nodes.Keys == c.nodes.Keys
    requires forall id :: id in c.nodes && id !in chain ==> d.nodes[id] == c.nodes[id]
    requires from.Some? && from.value in c.nodes ==>
               forall i :: 0 <= i < |chain| ==> Pos(c.order, chain[i]) < Pos(c.order, from.value)
    ensures PathFrom(d, from) == PathFrom(c, from)
    decreases if from.Some? then |c.order| - Pos(c.order, from.value) else 0
  {
    if from.Some? && from.value in c.nodes {
      assert Ranked(c, from.value);
      assert from.value !in chain;
      BelowUntouched(c, d, chain, c.nodes[from.value].selected);
    }
  }

  /**
   * Surfacing works from anywhere: the new path is the target's ancestor chain followed by
   * the path that was already selected below the target.
   */
  lemma SurfaceActivePath(c: Conversation, target: NodeId)
    requires WellFormed(c) && target in c.nodes
    ensures var d := PathSelected(c, target);
            && WellFormed(d)
            && AncestorChain(c, target).Some?
            && ActiveIds(d) == AncestorChain(c, target).value + PathFrom(c, c.nodes[target].selected)
            && target in ActiveIds(d)
  {
    var d := PathSelected(c, target);
    SurfaceKeepsWellFormed(c, target);
    SurfaceFrame(c, target);
    ChainFacts(c, target);
    var chain := AncestorChain(c, target).value;
    ChainWalk(d, chain, 0);
    assert Ranked(c, target);
    BelowUntouched(c, d, chain, c.nodes[target].selected);
    assert chain[0..] == chain;
    assert ActiveIds(d)[|chain| - 1] == target;
  }

  /** Surfacing a node that is already visible changes nothing at all. */
  lemma SurfaceVisible(c: Conversation, target: NodeId)
    requires WellFormed(c) && target in ActiveIds(c)
    ensures PathSelected(c, target) == c
  {
    var ids := ActiveIds(c);
    var k := Pos(ids, target);
    VisiblePrefixIsChain(c, k);
    SurfaceFrame(c, target);
    PathLinks(c, c.selectedRoot);
    var d := PathSelected(c, target);
    var chain := ids[..k + 1];
    forall id | id in c.nodes
      ensures d.nodes[id] == c.nodes[id]
    {
      if id in chain[..k] {
        var i := Pos(chain, id);
        assert chain[i] == id && chain[i + 1] == ids[i + 1];
        assert c.nodes[ids[i]].selected == Some(ids[i + 1]);
      }
    }
    assert d.nodes == c.nodes;
  }

  /** Surfacing twice is surfacing once. */
  lemma SurfaceIdempotent(c: Conversation, target: NodeId)
    requires WellFormed(c)
    ensures WellFormed(PathSelected(c, target))
    ensures PathSelected(PathSelected(c, target), target) == PathSelected(c, target)
  {
    SurfaceKeepsWellFormed(c, target);
    if target in c.nodes {
      SurfaceActivePath(c, target);
      SurfaceVisible(PathSelected(c, target), target);
    }
  }

  // ---------- History ----------

  /** Turns depend only on the roles and contents along the way. */
  lemma {:induction false} SameTurns(c: Conversation, d: Conversation, ids: seq<NodeId>)
    requires forall id :: id in ids ==> id in c.nodes && id in d.nodes && TurnOf(c.nodes[id]) == TurnOf(d.nodes[id])
    ensures TurnsAt(c, ids) == TurnsAt(d, ids)
  {
    if ids != [] {
      SameTurns(c, d, ids[..|ids| - 1]);
    }
  }

  lemma AppendKeepsTurns(c: Conversation, parent: Option<NodeId>, n: Node, ids: seq<NodeId>)
    requires WellFormed(c) && Insertable(c, parent, n)
    requires forall id :: id in ids ==> id in c.nodes
    ensures var d := AppendChildOf(c, parent, n).value;
            (forall id :: id in ids ==> id in d.nodes) && TurnsAt(d, ids) == TurnsAt(c, ids)
  {
    AppendFrame(c, parent, n);
    SameTurns(c, AppendChildOf(c, parent, n).value, ids);
  }

  /** A fresh turn hangs below the visible leaf and extends the visible path by itself. */
  lemma FreshTurnPath(c: Conversation, n: Node)
    requires WellFormed(c) && Insertable(c, LastId(ActiveIds(c)), n)
    ensures var d := AppendChildOf(c, LastId(ActiveIds(c)), n);
            d.Ok? && WellFormed(d.value) && ActiveIds(d.value) == ActiveIds(c) + [n.id]
  {
    var ids := ActiveIds(c);
    AppendKeepsWellFormed(c, LastId(ids), n);
    AppendActivePath(c, LastId(ids), n);
    PathLinks(c, c.selectedRoot);
    if ids != [] {
      ThroughLast(ids);
    }
  }

  lemma BeforeNew(ids: seq<NodeId>, x: NodeId)
    requires x !in ids
    ensures Before(ids + [x], x) == ids
  {
    BeforeExtend(ids, [x], x);
    assert Before([x], x) == [];
  }

  /** A fresh turn at the tip is recorded below exactly the context that was visible. */
  lemma FreshTurnHistory(c: Conversation, n: Node)
    requires WellFormed(c) && Insertable(c, LastId(ActiveIds(c)), n)
    ensures var d := AppendChildOf(c, LastId(ActiveIds(c)), n);
            d.Ok? && WellFormed(d.value) && History(d.value, Some(n.id)) == History(c, None)
  {
    FreshTurnPath(c, n);
    BeforeNew(ActiveIds(c), n.id);
    AppendKeepsTurns(c, LastId(ActiveIds(c)), n, ActiveIds(c));
  }

  lemma ThroughLast<T>(ids: seq<T>)
    requires ids != [] && NoDup(ids)
    ensures Through(ids, ids[|ids| - 1]) == ids
  {
    var x := ids[|ids| - 1];
    ThroughIsPrefix(ids, x);
    BeforeIsPrefix(ids, x);
    PosUnique(ids, |ids| - 1);
  }

  /** The context of an assistant answer appended below a visible question is the path through it. */
  lemma AnswerHistory(c: Conversation, p: NodeId, n: Node)
    requires WellFormed(c) && Insertable(c, Some(p), n) && p in ActiveIds(c)
    ensures var d := AppendChildOf(c, Some(p), n).value;
            && WellFormed(d)
            && ActiveIds(d) == Through(ActiveIds(c), p) + [n.id]
            && History(d, Some(n.id)) == History(c, Some(p)) + [TurnOf(c.nodes[p])]
  {
    AppendOutcome(c, Some(p), n);
    hide Acyclic, NodeOk, SlotOk, PathFrom, AppendChildOf, Through, Before;
    var ids := ActiveIds(c);
    var d := AppendChildOf(c, Some(p), n).value;
    AppendKeepsWellFormed(c, Some(p), n);
    AppendActivePath(c, Some(p), n);
    BeforeStops(ids, p);
    ThroughIsPrefix(ids, p);
    var up := Before(ids, p) + [p];
    assert n.id !in up;
    BeforeNew(up, n.id);
    AppendKeepsTurns(c, Some(p), n, up);
    assert up[..|up| - 1] == Before(ids, p);
  }

  /** In a well-formed tree the node above a visible node is visible, and no sibling of it is. */
  lemma VisibleNeighbours(c: Conversation, id: NodeId)
    requires WellFormed(c) && id in ActiveIds(c)
    ensures c.nodes[id].parent.Some? ==>
              c.nodes[id].parent.value in ActiveIds(c) &&
              Through(ActiveIds(c), c.nodes[id].parent.value) == Before(ActiveIds(c), id)
    ensures c.nodes[id].parent.None? ==> Before(ActiveIds(c), id) == []
  {
    var ids := ActiveIds(c);
    ActivePathShape(c);
    assert SlotOk(c, None);
    var k := Pos(ids, id);
    BeforeIsPrefix(ids, id);
    if k > 0 {
      assert c.nodes[ids[k - 1 + 1]].parent == Some(ids[k - 1]);
      ThroughIsPrefix(ids, ids[k - 1]);
      BeforeIsPrefix(ids, ids[k - 1]);
      PosUnique(ids, k - 1);
      assert ids[..k] == ids[..k - 1] + [ids[k - 1]];
    }
  }

  /** Edit: the new version is recorded below exactly the context the old version had. */
  lemma ForkHistory(c: Conversation, target: NodeId, n: Node)
    requires WellFormed(c) && target in ActiveIds(c) && Insertable(c, c.nodes[target].parent, n)
    ensures var d := Fork(c, target, n).value;
            && WellFormed(d)
            && ActiveIds(d) == Before(ActiveIds(c), target) + [n.id]
            && History(d, Some(n.id)) == History(c, Some(target))
  {
    var parent := c.nodes[target].parent;
    var d := Fork(c, target, n).value;
    var up := Before(ActiveIds(c), target);
    BeforeStops(ActiveIds(c), target);
    AppendKeepsWellFormed(c, parent, n);
    AppendActivePath(c, parent, n);
    VisibleNeighbours(c, target);
    BeforeNew(up, n.id);
    AppendKeepsTurns(c, parent, n, up);
  }

  /**
   * For an arbitrary target the two histories agree in exactly two cases: the target is
   * visible, or its parent exists and is not.
   */
  lemma ForkHistoryExactly(c: Conversation, target: NodeId, n: Node)
    requires WellFormed(c) && target in c.nodes && Insertable(c, c.nodes[target].parent, n)
    requires WellFormed(Fork(c, target, n).value)
    ensures History(Fork(c, target, n).value, Some(n.id)) == History(c, Some(target)) <==>
            (target in ActiveIds(c) ||
             (c.nodes[target].parent.Some? && c.nodes[target].parent.value !in ActiveIds(c)))
  {
    var ids := ActiveIds(c);
    var parent := c.nodes[target].parent;
    var d := Fork(c, target, n).value;
    if target in ids {
      ForkHistory(c, target, n);
    } else {
      BeforeStops(ids, target);
      AppendActivePath(c, parent, n);
      if parent.Some? && parent.value !in ids {
        BeforeStops(ids, n.id);
        AppendKeepsTurns(c, parent, n, ids);
      } else {
        HiddenForkIsShorter(c, target, n);
      }
    }
  }

  /** Forking at a hidden sibling of a visible node cuts the visible context short. */
  lemma HiddenForkIsShorter(c: Conversation, target: NodeId, n: Node)
    requires WellFormed(c) && target in c.nodes && Insertable(c, c.nodes[target].parent, n)
    requires WellFormed(Fork(c, target, n).value)
    requires target !in ActiveIds(c)
    requires c.nodes[target].parent.Some? ==> c.nodes[target].parent.value in ActiveIds(c)
    ensures |History(Fork(c, target, n).value, Some(n.id))| < |ActiveIds(c)|
  {
    assert NodeOk(c, target);
    hide Acyclic, NodeOk, SlotOk, PathFrom, Before, Through, AppendChildOf;
    var ids := ActiveIds(c);
    var parent := c.nodes[target].parent;
    AppendActivePath(c, parent, n);
    match parent {
      case None =>
        BeforeFirst(n.id);
        SomethingVisible(c, target);
      case Some(p) =>
        NotTheLeaf(c, target, p);
        ThroughIsPrefix(ids, p);
        BeforeStops(ids, p);
        BeforeNew(Through(ids, p), n.id);
    }
  }

  lemma BeforeFirst(x: NodeId)
    ensures Before([x], x) == []
  {
  }

  lemma SomethingVisible(c: Conversation, id: NodeId)
    requires WellFormed(c) && id in c.nodes
    ensures ActiveIds(c) != []
  {
    SomeRoot(c, id);
    PathStep(c, [], c.selectedRoot.value);
  }

  /** A visible node with a child is not the last of the path. */
  lemma NotTheLeaf(c: Conversation, child: NodeId, p: NodeId)
    requires WellFormed(c) && child in c.nodes && c.nodes[child].parent == Some(p) && p in ActiveIds(c)
    ensures |Through(ActiveIds(c), p)| < |ActiveIds(c)|
  {
    assert NodeOk(c, child) && SlotOk(c, Some(p));
    var next := c.nodes[p].selected;
    PathSplit(c, c.selectedRoot, p);
    PathStep(c, [], next.value);
    hide Acyclic, NodeOk, SlotOk, PathFrom, Through;
  }

  /** A path splits at any of its nodes into the part through it and the path selected below it. */
  lemma {:induction false} PathSplit(c: Conversation, from: Option<NodeId>, p: NodeId)
    requires Acyclic(c) && p in PathFrom(c, from)
    ensures PathFrom(c, from) == Through(PathFrom(c, from), p) + PathFrom(c, c.nodes[p].selected)
    decreases |c.order| - Pos(c.order, from.value)
  {
    assert Ranked(c, from.value);
    var rest := PathFrom(c, c.nodes[from.value].selected);
    PathStep(c, [], from.value);
    assert ([from.value] + rest)[1..] == rest;
    if from.value != p {
      PathSplit(c, c.nodes[from.value].selected, p);
      SplitUnder(from.value, rest, p, PathFrom(c, c.nodes[p].selected));
    }
  }

  lemma SplitUnder(x: NodeId, rest: seq<NodeId>, p: NodeId, below: seq<NodeId>)
    requires x != p && rest == Through(rest, p) + below
    ensures [x] + rest == Through([x] + rest, p) + below
  {
    assert ([x] + rest)[1..] == rest;
    assert [x] + (Through(rest, p) + below) == ([x] + Through(rest, p)) + below;
  }

  // ---------- Late verdicts ----------

  /** Patching keeps the tree, the paths and every other node; a missing or user node is left alone. */
  lemma PatchFrame(c: Conversation, id: NodeId, p: Patch)
    requires WellFormed(c)
    ensures var d := UpdateAssistantGrounding(c, id, p);
            && WellFormed(d) && SameShape(c, d) && ActiveIds(d) == ActiveIds(c)
            && (forall x :: x in c.nodes && x != id ==> d.nodes[x] == c.nodes[x])
            && (forall x :: x in c.nodes ==> d.nodes[x].selected == c.nodes[x].selected)
            && (id !in c.nodes || c.nodes[id].role.User? ==> d == c)
  {
    var d := UpdateAssistantGrounding(c, id, p);
    forall q | Slot(c, q)
      ensures SelectionIn(d, q)
    {
      assert SlotOk(c, q);
    }
    SameShapeKeepsWellFormed(c, d);
    SamePaths(c, d, c.selectedRoot);
  }

  /** A later patch that ran, or any patch after one that did not, erases the earlier one. */
  lemma PatchAbsorbs(n: Node, first: Patch, last: Patch)
    requires last.ran || !first.ran
    ensures PatchedNode(PatchedNode(n, first), last) == PatchedNode(n, last)
  {
  }

  /** On a raw assistant node those are the only cases in which the earlier patch leaves no mark. */
  lemma PatchAbsorbsExactly(n: Node, first: Patch, last: Patch)
    requires n.role.Assistant? && n.role.grounding.supported.None?
    ensures PatchedNode(PatchedNode(n, first), last) == PatchedNode(n, last) <==> last.ran || !first.ran
  {
  }

  lemma PatchCommutesWithAppend(c: Conversation, parent: Option<NodeId>, n: Node, id: NodeId, p: Patch)
    requires id != n.id
    ensures match AppendChildOf(c, parent, n)
            case Ok(d) =>
              AppendChildOf(UpdateAssistantGrounding(c, id, p), parent, n) == Ok(UpdateAssistantGrounding(d, id, p))
            case Err(e) => AppendChildOf(UpdateAssistantGrounding(c, id, p), parent, n) == Err(e)
  {
    var patched := UpdateAssistantGrounding(c, id, p);
    assert patched.nodes.Keys == c.nodes.Keys;
    if n.parent == parent && n.id !in c.nodes && Slot(c, parent) {
      var d := AppendChildOf(c, parent, n).value;
      var e := AppendChildOf(patched, parent, n).value;
      assert e.nodes == UpdateAssistantGrounding(d, id, p).nodes;
    }
  }

  lemma PatchCommutesWithFork(c: Conversation, target: NodeId, n: Node, id: NodeId, p: Patch)
    requires id != n.id
    ensures match Fork(c, target, n)
            case Ok(d) =>
              Fork(UpdateAssistantGrounding(c, id, p), target, n) == Ok(UpdateAssistantGrounding(d, id, p))
            case Err(e) => Fork(UpdateAssistantGrounding(c, id, p), target, n) == Err(e)
  {
    if target in c.nodes {
      PatchCommutesWithAppend(c, c.nodes[target].parent, n, id, p);
    }
  }

  lemma PatchCommutesWithSwitch(c: Conversation, target: NodeId, sibling: NodeId, id: NodeId, p: Patch)
    ensures match SwitchToSibling(c, target, sibling)
            case Ok(d) =>
              SwitchToSibling(UpdateAssistantGrounding(c, id, p), target, sibling) ==
              Ok(UpdateAssistantGrounding(d, id, p))
            case Err(e) => SwitchToSibling(UpdateAssistantGrounding(c, id, p), target, sibling) == Err(e)
  {
    var patched := UpdateAssistantGrounding(c, id, p);
    if target in c.nodes && sibling in c.nodes && c.nodes[target].parent == c.nodes[sibling].parent {
      var d := SwitchToSibling(c, target, sibling).value;
      var e := SwitchToSibling(patched, target, sibling).value;
      assert e.nodes == UpdateAssistantGrounding(d, id, p).nodes;
    }
  }

  lemma {:induction false} SameChains(c: Conversation, d: Conversation, x: NodeId)
    requires Acyclic(c) && Acyclic(d) && SameShape(c, d)
    ensures AncestorChain(d, x) == AncestorChain(c, x)
    decreases Pos(c.order, x)
  {
    if x in c.nodes {
      assert Ranked(c, x);
      if c.nodes[x].parent.Some? && c.nodes[x].parent.value in c.nodes {
        SameChains(c, d, c.nodes[x].parent.value);
      }
    }
  }

  lemma PatchCommutesWithSurface(c: Conversation, target: NodeId, id: NodeId, p: Patch)
    requires WellFormed(c)
    ensures WellFormed(UpdateAssistantGrounding(c, id, p))
    ensures PathSelected(UpdateAssistantGrounding(c, id, p), target) ==
            UpdateAssistantGrounding(PathSelected(c, target), id, p)
  {
    PatchFrame(c, id, p);
    var patched := UpdateAssistantGrounding(c, id, p);
    SameChains(c, patched, target);
    if target in c.nodes {
      ChainFacts(c, target);
      var chain := AncestorChain(c, target).value;
      PatchCommutesWithPointing(c, chain, |chain| - 1, id, p);
    }
  }

  lemma {:induction false} PatchCommutesWithPointing(
      c: Conversation, chain: seq<NodeId>, k: nat, id: NodeId, p: Patch)
    requires k < |chain| && forall x :: x in chain ==> x in c.nodes
    ensures var patched := UpdateAssistantGrounding(c, id, p);
            && patched.nodes.Keys == c.nodes.Keys
            && PointAlong(patched.nodes, chain, k) ==
               UpdateAssistantGrounding(c.(nodes := PointAlong(c.nodes, chain, k)), id, p).nodes
  {
    assert UpdateAssistantGrounding(c, id, p).nodes.Keys == c.nodes.Keys;
    if k > 0 {
      PatchCommutesWithPointing(c, chain, k - 1, id, p);
      PointKeepsRest(c.nodes, chain, k - 1, id);
      hide PatchedNode, PointAlong;
      var above := PointAlong(c.nodes, chain, k - 1);
      PointOne(c, chain, k, id, p);
      PatchPoint(c.(nodes := above), id, p, chain[k - 1], chain[k]);
    }
  }

  lemma PointOne(c: Conversation, chain: seq<NodeId>, k: nat, id: NodeId, p: Patch)
    requires 0 < k < |chain| && forall x :: x in chain ==> x in c.nodes
    ensures var patched := UpdateAssistantGrounding(c, id, p);
            && patched.nodes.Keys == c.nodes.Keys
            && PointAlong(c.nodes, chain, k) == PointTo(PointAlong(c.nodes, chain, k - 1), chain[k - 1], chain[k])
            && PointAlong(patched.nodes, chain, k) ==
               PointTo(PointAlong(patched.nodes, chain, k - 1), chain[k - 1], chain[k])
  {
  }

  function PointTo(nodes: map<NodeId, Node>, at: NodeId, next: NodeId): map<NodeId, Node>
    requires at in nodes
  {
    nodes[at := nodes[at].(selected := Some(next))]
  }

  lemma PatchPoint(c: Conversation, id: NodeId, p: Patch, at: NodeId, next: NodeId)
    requires at in c.nodes
    ensures at in UpdateAssistantGrounding(c, id, p).nodes
    ensures PointTo(UpdateAssistantGrounding(c, id, p).nodes, at, next) ==
            UpdateAssistantGrounding(c.(nodes := PointTo(c.nodes, at, next)), id, p).nodes
  {
    hide PatchedNode;
    PatchKeepsSelection(c.nodes[at], p, next);
  }

  lemma PatchKeepsSelection(n: Node, p: Patch, next: NodeId)
    ensures PatchedNode(n.(selected := Some(next)), p) == PatchedNode(n, p).(selected := Some(next))
    ensures n.(selected := Some(next)).role == n.role
  {
  }

  lemma {:induction false} PointKeepsRest(nodes: map<NodeId, Node>, chain: seq<NodeId>, k: nat, id: NodeId)
    requires k < |chain| && forall x :: x in chain ==> x in nodes
    ensures id in nodes ==>
      PointAlong(nodes, chain, k)[id].(selected := None) == nodes[id].(selected := None)
  {
    if k > 0 {
      PointKeepsRest(nodes, chain, k - 1, id);
    }
  }
}
