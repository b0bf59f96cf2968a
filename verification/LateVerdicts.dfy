/**
 * Verdicts that arrive after the answer was archived, batched into renders in every possible
 * way: when the batching can be seen, and when it cannot.
 */
module LateVerdicts {
  import opened Wrappers
  import opened ChatTypes
  import opened Branches
  import opened StreamSpec
  import opened ClientRun
  import opened ClientInvariant
  import opened ClientLaws

  function Partial(loop: string, v: Verdict): Event
  {
    GroundingPartial(loop, v)
  }

  /** The verdicts arrive in turn; `shown` says after which of them a render happens. */
  ghost function Listen(l: Local, loop: string, vs: seq<Verdict>, shown: seq<bool>, id: NodeId): Local
    requires |shown| == |vs|
  {
    if vs == [] then l
    else
      var k := |vs| - 1;
      var heard := Hear(Listen(l, loop, vs[..k], shown[..k], id), Partial(loop, vs[k]), id);
      if shown[k] then Show(heard) else heard
  }

  /** The answer's record after the renders so far. */
  function Rendered(n: Node, vs: seq<Verdict>, shown: seq<bool>): Node
    requires |shown| == |vs|
  {
    if vs == [] then n
    else
      var k := |vs| - 1;
      var before := Rendered(n, vs[..k], shown[..k]);
      if shown[k] then PatchedNode(before, VerdictPatch(vs[k])) else before
  }

  /** The last verdict ran, or none did. */
  ghost predicate SteadyVerdicts(vs: seq<Verdict>)
  {
    vs != [] ==> vs[|vs| - 1].ran || forall i :: 0 <= i < |vs| ==> !vs[i].ran
  }

  /** `x` is `n` with another text and other verdicts. */
  predicate SameAnswer(n: Node, x: Node)
  {
    n.role.Assistant? && x.role.Assistant? &&
    x == n.(content := x.content, role := Assistant(n.role.run, x.role.grounding))
  }

  ghost predicate CountsKept(n: Node, x: Node)
    requires n.role.Assistant? && x.role.Assistant?
  {
    x.content == n.content && SameCounts(x.role.grounding, n.role.grounding)
  }

  lemma {:induction false} RenderedShape(n: Node, vs: seq<Verdict>, shown: seq<bool>)
    requires |shown| == |vs| && n.role.Assistant?
    ensures SameAnswer(n, Rendered(n, vs, shown))
    ensures (forall i :: 0 <= i < |vs| ==> !vs[i].ran) ==> CountsKept(n, Rendered(n, vs, shown))
  {
    if vs != [] {
      RenderedShape(n, vs[..|vs| - 1], shown[..|vs| - 1]);
    }
  }

  /** Rendering after every verdict: counts show as soon as one of them ran, and stay. */
  lemma {:induction false} RenderedEagerly(n: Node, vs: seq<Verdict>, shown: seq<bool>)
    requires |shown| == |vs| && n.role.Assistant? && n.role.grounding.supported.None?
    requires forall i :: 0 <= i < |shown| ==> shown[i]
    ensures Rendered(n, vs, shown).role.Assistant?
    ensures Rendered(n, vs, shown).role.grounding.supported.Some? <==> exists i :: 0 <= i < |vs| && vs[i].ran
  {
    if vs != [] {
      var k := |vs| - 1;
      RenderedEagerly(n, vs[..k], shown[..k]);
      assert vs == vs[..k] + [vs[k]];
      assert (exists i :: 0 <= i < |vs| && vs[i].ran) <==> vs[k].ran || (exists i :: 0 <= i < k && vs[..k][i].ran);
    }
  }

  /** What a last verdict makes of two records of the same answer. */
  lemma LastWord(n: Node, x: Node, v: Verdict)
    requires SameAnswer(n, x)
    ensures v.ran || CountsKept(n, x) ==> PatchedNode(x, VerdictPatch(v)) == PatchedNode(n, VerdictPatch(v))
    ensures !v.ran && PatchedNode(x, VerdictPatch(v)) == PatchedNode(n, VerdictPatch(v)) ==> CountsKept(n, x)
  {
    var p := VerdictPatch(v);
    assert PatchedNode(x, p).role.Assistant? && PatchedNode(n, p).role.Assistant?;
  }

  /** A rendered state in which the answer is archived and its verdicts are still owed. */
  ghost predicate Waiting(l: Local, id: NodeId)
  {
    Inv(l) && !l.dirty && InFlight(l) && !Aborted(l) && StageOf(l).at.Late? && PatchesIn(l.trace) == [] && id !in l.used
  }

  ghost function WithRecord(c: Conversation, a: NodeId, n: Node): Conversation
  {
    c.(nodes := c.nodes[a := n])
  }

  /** `m` differs from `l` only in having heard verdicts, with `n` on record for the answer. */
  ghost predicate Listening(l: Local, m: Local, n: Node, id: NodeId)
    requires l.raw.Some? && l.s.tree.Some? && StageKnown(l)
  {
    && Inv(m) && InFlight(m) && !Aborted(m) && StageOf(m).at.Late? && StageOf(m) == StageOf(l)
    && m.used == l.used && m.raw == l.raw && Pending(m).None? && id !in m.used
    && m.s.tree == Some(WithRecord(Tree(l), l.raw.value.id, n))
  }

  /** Verdict `v` is on display, and rendered or not. */
  ghost predicate Displays(m: Local, v: Verdict, rendered: bool)
  {
    && StateOf(m.s.hook).patch.Some? && StateOf(m.s.hook).patch.value.patch == VerdictPatch(v)
    && (rendered <==> m.s.applied == Some(StateOf(m.s.hook).patch.value.serial))
    && (rendered ==> !m.dirty)
  }

  lemma HearOne(l: Local, m: Local, n: Node, id: NodeId, v: Verdict)
    requires l.raw.Some? && l.s.tree.Some? && StageKnown(l) && Listening(l, m, n, id)
    ensures var h := Hear(m, Partial(StageOf(l).loop, v), id);
            Listening(l, h, n, id) && Displays(h, v, false)
  {
    hide Inv, Hear;
    LateStep(m, v, id);
  }

  lemma ShowOne(l: Local, m: Local, n: Node, id: NodeId, v: Verdict)
    requires l.raw.Some? && l.s.tree.Some? && StageKnown(l) && Listening(l, m, n, id) && Displays(m, v, false)
    ensures Listening(l, Show(m), PatchedNode(n, VerdictPatch(v)), id) && Displays(Show(m), v, true)
  {
    hide Inv, Show, Acyclic, WellFormed, PatchedNode;
    var c, a := Tree(l), l.raw.value.id;
    Known(m);
    LateRender(m);
    ShowCleans(m);
    Known(Show(m));
    assert Tree(m).nodes[a] == n;
    PatchFindsItsAnswer(m);
    assert c.nodes[a := n][a := PatchedNode(n, VerdictPatch(v))] == c.nodes[a := PatchedNode(n, VerdictPatch(v))];
  }

  lemma ShowCleans(m: Local)
    requires Inv(m) && Inv(Show(m)) && Show(m).s.hook == m.s.hook
    ensures !Show(m).dirty
    ensures StateOf(m.s.hook).patch.Some? ==> Show(m).s.applied == Some(StateOf(m.s.hook).patch.value.serial)
  {
  }

  lemma {:induction false} ListenKeeps(l: Local, vs: seq<Verdict>, shown: seq<bool>, id: NodeId)
    requires Waiting(l, id) && |shown| == |vs|
    ensures l.raw.Some? && IsAnswer(Tree(l), l.raw.value.id)
    ensures var n := Tree(l).nodes[l.raw.value.id];
            var m := Listen(l, StageOf(l).loop, vs, shown, id);
            && Listening(l, m, Rendered(n, vs, shown), id)
            && (vs != [] ==> Displays(m, vs[|vs| - 1], shown[|vs| - 1]))
  {
    LateRaw(l);
    hide Inv, Hear, Show, PatchedNode, StageOf;
    var a := l.raw.value.id;
    if vs == [] {
      NothingPending(l);
      assert Tree(l).nodes[a := Tree(l).nodes[a]] == Tree(l).nodes;
    } else {
      var k := |vs| - 1;
      var m := Listen(l, StageOf(l).loop, vs[..k], shown[..k], id);
      ListenKeeps(l, vs[..k], shown[..k], id);
      var n := Rendered(Tree(l).nodes[a], vs[..k], shown[..k]);
      HearOne(l, m, n, id, vs[k]);
      if shown[k] {
        ShowOne(l, Hear(m, Partial(StageOf(l).loop, vs[k]), id), n, id, vs[k]);
      }
    }
  }

  lemma NothingPending(l: Local)
    requires Inv(l) && !l.dirty
    ensures Pending(l).None? && l.s.tree.Some?
  {
  }

  /** The tree after the verdicts and a closing render. */
  ghost function FinalTree(l: Local, vs: seq<Verdict>, shown: seq<bool>, id: NodeId): Option<Conversation>
    requires Waiting(l, id) && |shown| == |vs|
  {
    Show(Listen(l, StageOf(l).loop, vs, shown, id)).s.tree
  }

  /** Whatever was rendered before, the closing render lets the last verdict have the last word. */
  lemma FinalRecord(l: Local, vs: seq<Verdict>, shown: seq<bool>, id: NodeId)
    requires Waiting(l, id) && |shown| == |vs| && vs != []
    ensures l.raw.Some? && IsAnswer(Tree(l), l.raw.value.id)
    ensures var n := Tree(l).nodes[l.raw.value.id];
            var k := |vs| - 1;
            FinalTree(l, vs, shown, id) ==
            Some(WithRecord(Tree(l), l.raw.value.id,
                            PatchedNode(Rendered(n, vs[..k], shown[..k]), VerdictPatch(vs[k]))))
  {
    ListenKeeps(l, vs, shown, id);
    hide Inv, Hear, PatchedNode, StageOf;
    var k := |vs| - 1;
    var m := Listen(l, StageOf(l).loop, vs, shown, id);
    if shown[k] {
      RenderSettles(m);
    } else {
      ShowOne(l, m, Rendered(Tree(l).nodes[l.raw.value.id], vs, shown), id, vs[k]);
    }
  }

  ghost predicate BatchingInvisible(l: Local, vs: seq<Verdict>, id: NodeId)
    requires Waiting(l, id)
  {
    forall s, t {:trigger FinalTree(l, vs, s, id), FinalTree(l, vs, t, id)} ::
      |s| == |vs| && |t| == |vs| ==> FinalTree(l, vs, s, id) == FinalTree(l, vs, t, id)
  }

  /** Every batching of the verdicts into renders leaves the same tree exactly when the last one ran or none did. */
  lemma BatchingMattersExactly(l: Local, vs: seq<Verdict>, id: NodeId)
    requires Waiting(l, id)
    ensures BatchingInvisible(l, vs, id) <==> SteadyVerdicts(vs)
  {
    if vs == [] {
    } else if SteadyVerdicts(vs) {
      forall s, t | |s| == |vs| && |t| == |vs|
        ensures FinalTree(l, vs, s, id) == FinalTree(l, vs, t, id)
      {
        SteadyRecord(l, vs, s, id);
        SteadyRecord(l, vs, t, id);
      }
    } else {
      UnsteadyDiffers(l, vs, id);
    }
  }

  lemma SteadyRecord(l: Local, vs: seq<Verdict>, shown: seq<bool>, id: NodeId)
    requires Waiting(l, id) && |shown| == |vs| && vs != [] && SteadyVerdicts(vs)
    ensures l.raw.Some? && IsAnswer(Tree(l), l.raw.value.id)
    ensures FinalTree(l, vs, shown, id) ==
            Some(WithRecord(Tree(l), l.raw.value.id,
                            PatchedNode(Tree(l).nodes[l.raw.value.id], VerdictPatch(vs[|vs| - 1]))))
  {
    FinalRecord(l, vs, shown, id);
    hide Inv, FinalTree, Acyclic, WellFormed;
    var k, n := |vs| - 1, Tree(l).nodes[l.raw.value.id];
    RenderedShape(n, vs[..k], shown[..k]);
    LastWord(n, Rendered(n, vs[..k], shown[..k]), vs[k]);
  }

  /** Rendering after every verdict and rendering at the end only: the counts of a verdict that ran stay, or never show. */
  lemma UnsteadyDiffers(l: Local, vs: seq<Verdict>, id: NodeId)
    requires Waiting(l, id) && !SteadyVerdicts(vs)
    ensures !BatchingInvisible(l, vs, id)
  {
    LateRaw(l);
    var k, a := |vs| - 1, l.raw.value.id;
    var n := Tree(l).nodes[a];
    var always, never := seq(|vs|, _ => true), seq(|vs|, _ => false);
    FinalRecord(l, vs, always, id);
    FinalRecord(l, vs, never, id);
    hide Inv, FinalTree, WellFormed, Rendered, PatchedNode, StageOf;
    UnsteadyRecords(n, vs, always, never);
    var c, p := Tree(l), VerdictPatch(vs[k]);
    RecordsDiffer(c, a, PatchedNode(Rendered(n, vs[..k], always[..k]), p),
                  PatchedNode(Rendered(n, vs[..k], never[..k]), p));
    assert FinalTree(l, vs, always, id) != FinalTree(l, vs, never, id);
  }

  lemma RecordsDiffer(c: Conversation, a: NodeId, x: Node, y: Node)
    requires x != y
    ensures WithRecord(c, a, x) != WithRecord(c, a, y)
  {
    assert WithRecord(c, a, x).nodes[a] != WithRecord(c, a, y).nodes[a];
  }

  lemma UnsteadyRecords(n: Node, vs: seq<Verdict>, always: seq<bool>, never: seq<bool>)
    requires n.role.Assistant? && n.role.grounding.supported.None? && !SteadyVerdicts(vs)
    requires |always| == |vs| == |never|
    requires forall i :: 0 <= i < |vs| ==> always[i] && !never[i]
    ensures var k := |vs| - 1;
            PatchedNode(Rendered(n, vs[..k], always[..k]), VerdictPatch(vs[k])) !=
            PatchedNode(Rendered(n, vs[..k], never[..k]), VerdictPatch(vs[k]))
  {
    var k := |vs| - 1;
    RenderedEagerly(n, vs[..k], always[..k]);
    RenderedNever(n, vs[..k], never[..k]);
    RenderedShape(n, vs[..k], always[..k]);
    var i :| 0 <= i < |vs| && vs[i].ran;
    assert vs[..k][i].ran;
    LastWord(n, Rendered(n, vs[..k], always[..k]), vs[k]);
  }

  lemma {:induction false} RenderedNever(n: Node, vs: seq<Verdict>, shown: seq<bool>)
    requires |shown| == |vs| && forall i :: 0 <= i < |shown| ==> !shown[i]
    ensures Rendered(n, vs, shown) == n
  {
    if vs != [] {
      RenderedNever(n, vs[..|vs| - 1], shown[..|vs| - 1]);
    }
  }
}
