/** Every step of a conversation keeps the invariant. */
module ClientInvariant {
  import opened Wrappers
  import opened Text
  import opened ChatTypes
  import opened Branches
  import opened BranchLaws
  import opened StreamSpec
  import opened Trace
  import opened ClientRun

  // ---------- Steps that only rearrange the tree ----------

  /** Every old node keeps all but its children and selection, and every new node is a question. */
  ghost predicate Kept(c: Conversation, d: Conversation)
  {
    && (forall x :: x in c.nodes ==>
          x in d.nodes && d.nodes[x].(children := [], selected := None) == c.nodes[x].(children := [], selected := None))
    && (forall x :: x in d.nodes && x !in c.nodes ==> d.nodes[x].role.User?)
  }

  ghost function WithNewTree(l: Local, d: Conversation, used: set<NodeId>): Local
  {
    l.(s := l.s.(tree := Some(d)), used := used, dirty := true)
  }

  lemma KeptNode(n: Node, m: Node, p: Patch)
    requires n.(children := [], selected := None) == m.(children := [], selected := None)
    ensures PatchedNode(n, p) == n <==> PatchedNode(m, p) == m
    ensures n.content == m.content && n.role == m.role && n.parent == m.parent
  {
    assert n == m.(children := n.children, selected := n.selected);
  }

  lemma KeptVerdicts(l: Local, n: Node, m: Node)
    requires l.raw.Some? && VerdictsOn(l, n)
    requires n.(children := [], selected := None) == m.(children := [], selected := None)
    ensures VerdictsOn(l, m)
  {
    if StateOf(l.s.hook).patch.Some? {
      KeptNode(n, m, StateOf(l.s.hook).patch.value.patch);
    }
    assert m == n.(children := m.children, selected := m.selected);
  }

  lemma KeptOrigin(l: Local, d: Conversation, used: set<NodeId>)
    requires l.s.tree.Some? && OriginOk(l) && RunsOk(l) && Kept(Tree(l), d) && Pending(l).None?
    ensures OriginOk(WithNewTree(l, d, used)) && RunsOk(WithNewTree(l, d, used))
  {
    var m := WithNewTree(l, d, used);
    forall a
      ensures OriginAt(m, a)
    {
      assert OriginAt(l, a);
      if a in Tree(l).nodes {
        assert d.nodes[a].(children := [], selected := None) == Tree(l).nodes[a].(children := [], selected := None);
      }
    }
    forall x | x in Tree(l).nodes
      ensures x in d.nodes && d.nodes[x].role == Tree(l).nodes[x].role && d.nodes[x].parent == Tree(l).nodes[x].parent
    {
      assert d.nodes[x].(children := [], selected := None) == Tree(l).nodes[x].(children := [], selected := None);
    }
  }

  lemma KeptLoops(l: Local, d: Conversation, used: set<NodeId>)
    requires StageKnown(l) && l.s.tree.Some? && LoopsOk(l) && Kept(Tree(l), d)
    ensures LoopsOk(WithNewTree(l, d, used))
  {
    var m := WithNewTree(l, d, used);
    forall a | IsAnswer(d, a)
      ensures LoopFree(m, a)
    {
      assert a in Tree(l).nodes;
      assert d.nodes[a].(children := [], selected := None) == Tree(l).nodes[a].(children := [], selected := None);
      assert LoopFree(l, a);
    }
  }

  lemma KeptVerdictsOk(l: Local, d: Conversation, used: set<NodeId>)
    requires l.s.tree.Some? && VerdictsOk(l) && Kept(Tree(l), d)
    requires l.raw.Some? ==> l.raw.value.id in Tree(l).nodes
    ensures VerdictsOk(WithNewTree(l, d, used))
  {
    if l.raw.Some? {
      var id := l.raw.value.id;
      KeptVerdicts(l, Tree(l).nodes[id], d.nodes[id]);
      assert VerdictsOn(WithNewTree(l, d, used), d.nodes[id]);
    }
  }

  lemma KeptInv(l: Local, d: Conversation, used: set<NodeId>)
    requires Inv(l) && !l.dirty
    requires WellFormed(d) && Kept(Tree(l), d) && d.nodes.Keys <= used && l.used <= used
    ensures Inv(WithNewTree(l, d, used))
  {
    if l.raw.Some? {
      assert OriginAt(l, l.raw.value.id);
    }
    hide WellFormed, VerdictsOn, After, Kept, OriginOk, LoopsOk, VerdictsOk;
    KeptOrigin(l, d, used);
    KeptLoops(l, d, used);
    KeptVerdictsOk(l, d, used);
  }

  lemma AddUserInv(l: Local, parent: Option<NodeId>, content: string, id: NodeId)
    requires Inv(l) && !l.dirty && id !in l.used && Slot(Tree(l), parent)
    ensures Inv(AddUser(l, parent, content, id))
    ensures IsUser(Tree(AddUser(l, parent, content, id)), id)
    ensures Pending(AddUser(l, parent, content, id)).None?
  {
    var n := MakeUserNode(id, parent, content);
    AppendKeepsWellFormed(Tree(l), parent, n);
    AppendFrame(Tree(l), parent, n);
    var d := AppendChildOf(Tree(l), parent, n).value;
    assert Kept(Tree(l), d);
    KeptInv(l, d, l.used + {id});
    assert AddUser(l, parent, content, id) == WithNewTree(l, d, l.used + {id});
  }

  lemma SameShapeKept(c: Conversation, d: Conversation)
    requires d.nodes.Keys == c.nodes.Keys
    requires forall x :: x in c.nodes ==> d.nodes[x].(selected := None) == c.nodes[x].(selected := None)
    ensures Kept(c, d)
  {
    forall x | x in c.nodes
      ensures d.nodes[x].(children := [], selected := None) == c.nodes[x].(children := [], selected := None)
    {
      assert d.nodes[x] == c.nodes[x].(selected := d.nodes[x].selected);
    }
  }

  lemma SwitchInv(l: Local, current: NodeId, sibling: NodeId)
    requires Inv(l) && Enabled(l, Switch(current, sibling))
    ensures Inv(Do(l, Switch(current, sibling)))
  {
    var c := Tree(l);
    SwitchKeepsWellFormed(c, current, sibling);
    var d := SwitchToSibling(c, current, sibling).value;
    SameShapeKept(c, d);
    KeptInv(l, d, l.used);
    assert Do(l, Switch(current, sibling)) == WithNewTree(l, d, l.used);
  }

  lemma SurfaceInv(l: Local, target: NodeId)
    requires Inv(l) && Enabled(l, Surface(target))
    ensures Inv(Do(l, Surface(target)))
  {
    var c := Tree(l);
    var d := PathSelected(c, target);
    SurfaceKeepsWellFormed(c, target);
    if target in c.nodes {
      SurfaceFrame(c, target);
      forall x | x in c.nodes
        ensures d.nodes[x].(selected := None) == c.nodes[x].(selected := None)
      {
        SurfaceSelection(c, target, x);
      }
    }
    SameShapeKept(c, d);
    KeptInv(l, d, l.used);
    assert Do(l, Surface(target)) == WithNewTree(l, d, l.used);
  }

  // ---------- Starting a run ----------

  lemma StartOrigin(l: Local, question: string, p: NodeId)
    requires l.s.tree.Some? && OriginOk(l) && RunsOk(l) && IsUser(Tree(l), p) && Pending(l).None?
    requires Accepts(l.s.hook, question)
    ensures OriginOk(Start(l, question, p)) && RunsOk(Start(l, question, p))
  {
    var m := Start(l, question, p);
    forall a
      ensures OriginAt(m, a)
    {
      assert OriginAt(l, a);
    }
  }

  lemma StartLoops(l: Local, question: string, p: NodeId)
    requires StageKnown(l) && l.s.tree.Some? && LoopsOk(l) && Accepts(l.s.hook, question)
    ensures StageKnown(Start(l, question, p)) && LoopsOk(Start(l, question, p))
  {
    var m := Start(l, question, p);
    assert After(START, []) == Some(START);
    hide After, Accepts, Begin;
    forall a | IsAnswer(Tree(m), a)
      ensures LoopFree(m, a)
    {
      assert LoopFree(l, a);
    }
  }

  /** An accepted run starts with empty buffers, no events and nothing produced. */
  lemma StartClean(l: Local, question: string, p: NodeId)
    requires StageKnown(l) && l.s.tree.Some? && PatchOk(l) && Accepts(l.s.hook, question)
    ensures var m := Start(l, question, p);
            && StageKnown(m) && Pending(m).None? && FlightOk(m) && RawOk(m) && PatchOk(m) && VerdictsOk(m)
  {
    assert After(START, []) == Some(START);
    hide Accepts;
  }

  lemma StartInv(l: Local, question: string, p: NodeId)
    requires Inv(l) && IsUser(Tree(l), p) && Pending(l).None?
    ensures Inv(Start(l, question, p))
  {
    if Accepts(l.s.hook, question) {
      hide WellFormed, After, OriginOk, RunsOk, LoopsOk, FlightOk, RawOk, PatchOk, VerdictsOk;
      StartOrigin(l, question, p);
      StartLoops(l, question, p);
      StartClean(l, question, p);
    }
  }

  lemma SubmitInv(l: Local, q: string, id: NodeId)
    requires Inv(l) && Enabled(l, Submit(q, id))
    ensures Inv(Do(l, Submit(q, id)))
  {
    if Trim(q) != "" && !IsRunning(l.s) {
      var leaf := LastId(ActiveIds(Tree(l)));
      AddUserInv(l, leaf, Trim(q), id);
      StartInv(AddUser(l, leaf, Trim(q), id), Trim(q), id);
    }
  }

  lemma EditInv(l: Local, target: NodeId, q: string, id: NodeId)
    requires Inv(l) && Enabled(l, Edit(target, q, id))
    ensures Inv(Do(l, Edit(target, q, id)))
  {
    if !IsRunning(l.s) && target in Tree(l).nodes && Tree(l).nodes[target].role.User? && Trim(q) != "" {
      var parent := Tree(l).nodes[target].parent;
      assert NodeOk(Tree(l), target);
      AddUserInv(l, parent, Trim(q), id);
      StartInv(AddUser(l, parent, Trim(q), id), Trim(q), id);
    }
  }

  lemma RetryInv(l: Local, target: NodeId)
    requires Inv(l) && Enabled(l, Retry(target))
    ensures Inv(Do(l, Retry(target)))
  {
    if !IsRunning(l.s) && QuestionOf(Tree(l), target).Some? {
      var p := QuestionOf(Tree(l), target).value;
      StartInv(l, Tree(l).nodes[p].content, p);
    }
  }

  // ---------- Stopping and settling ----------

  lemma StopInv(l: Local)
    requires Inv(l) && Enabled(l, Stop)
    ensures Inv(Do(l, Stop))
  {
    var m := Do(l, Stop);
    forall a
      ensures OriginAt(m, a)
    {
      assert OriginAt(l, a);
    }
    forall a | IsAnswer(Tree(m), a)
      ensures LoopFree(m, a)
    {
      assert LoopFree(l, a);
    }
  }

  lemma WindOrigin(l: Local, ending: Ending, id: NodeId)
    requires l.s.tree.Some? && OriginOk(l) && PendingOk(l) && InFlight(l) && l.runs != []
    requires l.s.hook.parent == Some(l.runs[|l.runs| - 1].question)
    requires Aborted(l) ==> l.raw.None?
    requires id !in l.used && Tree(l).nodes.Keys <= l.used && l.s.archived <= l.used
    ensures OriginOk(Wind(l, ending, id)) && PendingOk(Wind(l, ending, id))
  {
    var m := Wind(l, ending, id);
    assert OriginAt(l, id);
    forall a
      ensures OriginAt(m, a)
    {
      assert OriginAt(l, a);
    }
  }

  lemma WindRest(l: Local, ending: Ending, id: NodeId)
    requires StageKnown(l) && l.s.tree.Some?
    requires LoopsOk(l) && PatchOk(l) && VerdictsOk(l) && InFlight(l)
    requires Aborted(l) ==> l.raw.None? && !HasAnswered(StageOf(l))
    requires id !in Tree(l).nodes
    ensures LoopsOk(Wind(l, ending, id)) && PatchOk(Wind(l, ending, id)) && VerdictsOk(Wind(l, ending, id))
  {
    hide After;
    var m := Wind(l, ending, id);
    forall a | IsAnswer(Tree(m), a)
      ensures LoopFree(m, a)
    {
      assert LoopFree(l, a);
    }
    if l.raw.Some? && l.raw.value.id in Tree(l).nodes {
      assert VerdictsOn(m, Tree(l).nodes[l.raw.value.id]);
    }
  }

  lemma WindRaw(l: Local, ending: Ending, id: NodeId)
    requires StageKnown(l) && RawOk(l) && (Aborted(l) ==> !HasAnswered(StageOf(l)))
    ensures RawOk(Wind(l, ending, id))
  {
  }

  lemma SettleInv(l: Local, ending: Ending, id: NodeId)
    requires Inv(l) && Enabled(l, Settle(ending, id))
    ensures Inv(Do(l, Settle(ending, id)))
  {
    hide WellFormed, VerdictsOn, After, LoopsOk, OriginOk, PatchOk, RawOk;
    WindRaw(l, ending, id);
    WindOrigin(l, ending, id);
    WindRest(l, ending, id);
  }

  // ---------- Receiving an event ----------

  lemma TraceStep(trace: seq<Event>, e: Event)
    requires Fits(trace) && Next(After(START, trace).value, e).Some?
    ensures Fits(trace + [e]) && After(START, trace + [e]) == Next(After(START, trace).value, e)
  {
    hide Next;
    assert (trace + [e])[..|trace|] == trace;
  }

  lemma FitsStep(trace: seq<Event>, e: Event)
    requires Fits(trace + [e])
    ensures Fits(trace) && Next(After(START, trace).value, e).Some?
  {
    assert (trace + [e])[..|trace|] == trace;
  }

  /** What each event adds to the sums over the trace. */
  lemma SumsStep(trace: seq<Event>, e: Event)
    ensures ToolsIn(trace + [e]) == if e.ToolCallCompleted? then ToolsIn(trace) + [e.tool] else ToolsIn(trace)
    ensures CitationsIn(trace + [e]) ==
            if e.ToolCallCompleted? && e.tool.citation.Some? then CitationsIn(trace) + [e.tool.citation.value]
            else CitationsIn(trace)
    ensures TextSince(trace + [e]) ==
            if e.StepStarted? || e.AnswerEvent? || e.ErrorEvent? then ""
            else if e.ModelDelta? then TextSince(trace) + e.text else TextSince(trace)
  {
    assert (trace + [e])[..|trace|] == trace;
  }

  lemma PatchesStep(trace: seq<Event>, e: Event)
    ensures PatchesIn(trace + [e]) == PatchesIn(trace) + PatchOf(e)
  {
    assert (trace + [e])[..|trace|] == trace;
  }

  lemma HearFlight(l: Local, e: Event, id: NodeId)
    requires StageKnown(l) && FlightOk(l) && InFlight(l) && !Aborted(l) && Next(StageOf(l), e).Some?
    ensures StageKnown(Hear(l, e, id)) && FlightOk(Hear(l, e, id))
  {
    hide After, Next, OnEvent, TextSince, ToolsIn, CitationsIn;
    TraceStep(l.trace, e);
    SumsStep(l.trace, e);
    PhaseMoves(StageOf(l), e);
    EventBuffers(l.s.hook, e, id);
  }

  lemma PhaseMoves(s: Stage, e: Event)
    requires Next(s, e).Some?
    ensures PhaseOf(Next(s, e).value) ==
            if e.ErrorEvent? then Errored else if e.AnswerEvent? then Finished else PhaseOf(s)
    ensures HasAnswered(Next(s, e).value) <==> HasAnswered(s) || e.AnswerEvent?
    ensures e.LoopStarted? ==> PhaseOf(s).Running?
  {
  }

  /** How an event changes the buffers and the display of an accepted run. */
  lemma EventBuffers(h: HookView, e: Event, id: NodeId)
    requires h.stream.Some? && h.answer == Some(StateOf(h).streamingAnswer) && h.tools == Some(StateOf(h).toolEvents)
    ensures var after := OnEvent(h, e, id);
            var s := StateOf(after);
            && after.controller == h.controller && after.parent == h.parent && after.stream.Some?
            && s.parentUserNode == StateOf(h).parentUserNode
            && s.phase == (if e.ErrorEvent? then Errored else if e.AnswerEvent? then Finished
                           else if e.LoopStarted? then Running else StateOf(h).phase)
            && s.streamingAnswer == (if e.StepStarted? || e.AnswerEvent? || e.ErrorEvent? then ""
                                     else if e.ModelDelta? then StateOf(h).streamingAnswer + e.text
                                     else StateOf(h).streamingAnswer)
            && after.answer == Some(s.streamingAnswer)
            && s.toolEvents == (if e.ToolCallCompleted? then StateOf(h).toolEvents + [e.tool] else StateOf(h).toolEvents)
            && after.tools == Some(s.toolEvents)
            && (!e.AnswerEvent? && h.citations == Some(StateOf(h).citations) ==> after.citations == Some(s.citations))
            && (!e.AnswerEvent? && h.citations.Some? ==>
                  after.citations == Some(if e.ToolCallCompleted? && e.tool.citation.Some?
                                          then h.citations.value + [e.tool.citation.value] else h.citations.value))
  {
    if e.ModelDelta? {
      assert StateOf(h).streamingAnswer + "" == StateOf(h).streamingAnswer;
    }
  }

  /** Patches come only after the answer, under the answer's loop id. */
  lemma PatchesFollowAnswer(s: Stage, e: Event)
    requires Next(s, e).Some?
    ensures PatchOf(e) != [] ==> HasAnswered(s) && (e.GroundingPartial? || e.GroundingCompleted?) && e.loopId == s.loop
    ensures HasAnswered(s) ==> HasAnswered(Next(s, e).value) && Next(s, e).value.loop == s.loop
  {
  }

  /** How an event changes the patch on display. */
  lemma EventPatch(h: HookView, e: Event, id: NodeId)
    ensures var after := OnEvent(h, e, id);
            if PatchOf(e) == [] then StateOf(after).patch == StateOf(h).patch && after.patches == h.patches
            else
              && after.patches == h.patches + 1
              && StateOf(after).patch.Some?
              && StateOf(after).patch.value.serial == h.patches
              && StateOf(after).patch.value.patch == PatchOf(e)[0]
              && (e.GroundingPartial? || e.GroundingCompleted?) && StateOf(after).patch.value.loopId == e.loopId
    ensures |PatchOf(e)| <= 1
  {
  }

  lemma EventCompletion(h: HookView, e: Event, id: NodeId)
    ensures StateOf(OnEvent(h, e, id)).completion ==
            if e.AnswerEvent? then Some(AnswerCompletion(h, e.answer, e.pending, id)) else StateOf(h).completion
  {
  }

  lemma HearPatch(l: Local, e: Event, id: NodeId)
    requires StageKnown(l) && PatchOk(l) && FlightOk(l) && InFlight(l) && Next(StageOf(l), e).Some?
    ensures StageKnown(Hear(l, e, id)) && PatchOk(Hear(l, e, id))
  {
    hide After, Next, PatchesIn, OnEvent, PatchOf, FinalAnswer;
    TraceStep(l.trace, e);
    PatchesStep(l.trace, e);
    AnsweredStays(StageOf(l), e);
    PatchesFollowAnswer(StageOf(l), e);
    EventPatch(l.s.hook, e, id);
    EventCompletion(l.s.hook, e, id);
    assert PatchesIn(l.trace) + [] == PatchesIn(l.trace);
  }

  /** After the answer no tool call is reported. */
  lemma ToolsBeforeAnswer(s: Stage, e: Event)
    requires Next(s, e).Some?
    ensures HasAnswered(s) ==> !e.ToolCallCompleted? && !e.AnswerEvent?
  {
  }

  lemma HearRaw(l: Local, e: Event, id: NodeId)
    requires StageKnown(l) && RawOk(l) && FlightOk(l) && InFlight(l) && !Aborted(l) && Next(StageOf(l), e).Some?
    ensures StageKnown(Hear(l, e, id)) && RawOk(Hear(l, e, id))
  {
    hide After, Next, OnEvent, FinalAnswer;
    TraceStep(l.trace, e);
    SumsStep(l.trace, e);
    AnswerStep(l.trace, e);
    AnsweredStays(StageOf(l), e);
    ToolsBeforeAnswer(StageOf(l), e);
    hide TextSince, ToolsIn, CitationsIn, AnswerIn;
  }

  lemma AnswerStep(trace: seq<Event>, e: Event)
    ensures AnswerIn(trace + [e]) == if e.AnswerEvent? then Some((e.answer, e.pending)) else AnswerIn(trace)
  {
    assert (trace + [e])[..|trace|] == trace;
  }

  /** How an event changes the loop id of a stream; an answer carries it. */
  lemma LoopMoves(s: Stage, e: Event)
    requires Next(s, e).Some?
    ensures Next(s, e).value.loop == if e.LoopStarted? then e.loopId else s.loop
    ensures e.LoopStarted? ==> s.at.Opening?
    ensures s.at.Opening? && !e.LoopStarted? ==> Next(s, e).value.at.Broken?
    ensures !s.at.Broken?
    ensures e.AnswerEvent? ==> e.answer.loopId == s.loop && !s.at.Opening?
  {
  }

  lemma HearLoops(l: Local, e: Event, id: NodeId)
    requires StageKnown(l) && l.s.tree.Some? && LoopsOk(l) && FlightOk(l) && InFlight(l) && !Aborted(l)
    requires Next(StageOf(l), e).Some? && id !in Tree(l).nodes
    requires e.LoopStarted? ==> e.loopId != "" && e.loopId !in l.loops
    ensures StageKnown(Hear(l, e, id)) && LoopsOk(Hear(l, e, id))
  {
    hide After, Next, OnEvent, FinalAnswer, TextSince, ToolsIn, CitationsIn;
    TraceStep(l.trace, e);
    AnsweredStays(StageOf(l), e);
    LoopMoves(StageOf(l), e);
    var m := Hear(l, e, id);
    assert !e.LoopStarted? ==> StageOf(m).loop == StageOf(l).loop;
    forall a | IsAnswer(Tree(m), a)
      ensures LoopFree(m, a)
    {
      assert LoopFree(l, a);
    }
  }

  lemma HearVerdicts(l: Local, e: Event, id: NodeId)
    requires StageKnown(l) && l.s.tree.Some? && VerdictsOk(l) && PatchOk(l) && id !in Tree(l).nodes
    ensures VerdictsOk(Hear(l, e, id))
  {
    hide After, OnEvent, PatchesIn, SameCounts, PatchedNode;
    PatchesStep(l.trace, e);
    EventPatch(l.s.hook, e, id);
    var m := Hear(l, e, id);
    var ps, more := PatchesIn(l.trace), PatchesIn(m.trace);
    assert forall i :: 0 <= i < |ps| ==> more[i] == ps[i];
    if !e.AnswerEvent? && l.raw.Some? && l.raw.value.id in Tree(l).nodes {
      assert VerdictsOn(l, Tree(l).nodes[l.raw.value.id]);
      assert VerdictsOn(m, Tree(l).nodes[l.raw.value.id]);
    }
  }

  lemma HearOrigin(l: Local, e: Event, id: NodeId)
    requires StageKnown(l) && l.s.tree.Some? && OriginOk(l) && PendingOk(l)
    requires e.AnswerEvent? ==>
               l.raw.None? && l.runs != [] && l.s.hook.parent == Some(l.runs[|l.runs| - 1].question)
    requires id !in l.used && Tree(l).nodes.Keys <= l.used && l.s.archived <= l.used
    ensures OriginOk(Hear(l, e, id)) && PendingOk(Hear(l, e, id))
  {
    EventCompletion(l.s.hook, e, id);
    hide After, OnEvent;
    var m := Hear(l, e, id);
    assert OriginAt(l, id);
    forall a
      ensures OriginAt(m, a)
    {
      assert OriginAt(l, a);
    }
  }

  lemma AnswerInFlight(l: Local, e: Event)
    requires StageKnown(l) && FlightOk(l) && InFlight(l) && Next(StageOf(l), e).Some?
    ensures e.AnswerEvent? ==>
              l.raw.None? && l.runs != [] && l.s.hook.parent == Some(l.runs[|l.runs| - 1].question)
  {
    AnsweredStays(StageOf(l), e);
  }

  lemma HearTree(l: Local, e: Event, id: NodeId)
    requires TreeOk(l) && RunsOk(l) && Fits(l.trace + [e])
    ensures TreeOk(Hear(l, e, id)) && RunsOk(Hear(l, e, id))
  {
    hide WellFormed, After, OnEvent;
  }

  lemma ReceiveInv(l: Local, e: Event, id: NodeId)
    requires Inv(l) && Enabled(l, Receive(e, id))
    ensures Inv(Do(l, Receive(e, id)))
  {
    hide WellFormed, After, Next, LoopsOk, OriginOk, PatchOk, VerdictsOk, RawOk, FlightOk, PendingOk, RunsOk, Hear,
      Acyclic, Fits;
    FitsStep(l.trace, e);
    AnswerInFlight(l, e);
    HearTree(l, e, id);
    HearFlight(l, e, id);
    HearPatch(l, e, id);
    HearRaw(l, e, id);
    HearLoops(l, e, id);
    HearVerdicts(l, e, id);
    HearOrigin(l, e, id);
  }

  // ---------- Rendering ----------

  ghost function Archived(l: Local): Local
  {
    l.(s := Archive(l.s))
  }

  /** The archive effect puts the pending answer below the question its run captured. */
  lemma ArchivePlaces(l: Local)
    requires Inv(l) && Pending(l).Some?
    ensures var k := Pending(l).value;
            var n := MakeAssistantNode(k.id, k.parent.value, k.content, k.run, k.grounding);
            && k.parent.Some? && Insertable(Tree(l), k.parent, n)
            && Archive(l.s) == l.s.(tree := Some(AppendChildOf(Tree(l), k.parent, n).value),
                                    archived := l.s.archived + {k.id}, hook := WithoutCompletion(l.s.hook))
            && AppendChildOf(Tree(l), k.parent, n).Ok?
            && WellFormed(AppendChildOf(Tree(l), k.parent, n).value)
  {
    var k := Pending(l).value;
    var n := MakeAssistantNode(k.id, k.parent.value, k.content, k.run, k.grounding);
    assert IsUser(Tree(l), l.runs[|l.runs| - 1].question);
    AppendKeepsWellFormed(Tree(l), k.parent, n);
  }

  lemma ArchiveOrigin(l: Local, d: Conversation, k: Completion, n: Node)
    requires l.s.tree.Some? && OriginOk(l) && RunsOk(l) && Pending(l) == Some(k) && l.raw == Some(k)
    requires k.id !in Tree(l).nodes && n.role.Assistant? && n.parent == k.parent
    requires l.runs != [] && k.parent == Some(l.runs[|l.runs| - 1].question)
    requires d.nodes.Keys == Tree(l).nodes.Keys + {k.id} && d.nodes[k.id] == n
    requires SameCores(Tree(l), d)
    requires Tree(Archived(l)) == d && Pending(Archived(l)).None?
    ensures OriginOk(Archived(l)) && RunsOk(Archived(l))
  {
    var m := Archived(l);
    forall a
      ensures OriginAt(m, a)
    {
      assert OriginAt(l, a);
    }
  }

  ghost predicate SameCores(c: Conversation, d: Conversation)
  {
    forall x :: x in c.nodes ==>
      && x in d.nodes && d.nodes[x].role == c.nodes[x].role && d.nodes[x].parent == c.nodes[x].parent
      && d.nodes[x].content == c.nodes[x].content
  }

  lemma AppendSameCores(c: Conversation, parent: Option<NodeId>, n: Node)
    requires WellFormed(c) && Insertable(c, parent, n)
    ensures SameCores(c, AppendChildOf(c, parent, n).value)
  {
    AppendFrame(c, parent, n);
    var d := AppendChildOf(c, parent, n).value;
    if parent.Some? {
      var p := parent.value;
      assert d.nodes[p].(children := [], selected := None) == c.nodes[p].(children := [], selected := None);
    }
  }

  lemma ArchiveLoops(l: Local, d: Conversation, k: Completion, n: Node)
    requires StageKnown(l) && l.s.tree.Some? && LoopsOk(l) && l.raw == Some(k)
    requires k.id !in Tree(l).nodes && n.role.Assistant? && n.role.run == k.run
    requires d.nodes.Keys == Tree(l).nodes.Keys + {k.id} && d.nodes[k.id] == n
    requires SameCores(Tree(l), d)
    requires Tree(Archived(l)) == d
    ensures LoopsOk(Archived(l))
  {
    hide After;
    var m := Archived(l);
    forall a | IsAnswer(d, a)
      ensures LoopFree(m, a)
    {
      if a != k.id {
        assert LoopFree(l, a);
      }
    }
  }

  lemma ArchiveHook(l: Local)
    requires StageKnown(l) && FlightOk(l) && PatchOk(l)
    ensures FlightOk(Archived(l)) && PatchOk(Archived(l))
  {
    hide After, PatchesIn, TextSince, ToolsIn, CitationsIn, ArchiveInto;
  }

  lemma GroundHook(l: Local)
    requires StageKnown(l) && FlightOk(l) && PatchOk(l) && Pending(l).None?
    ensures FlightOk(Grounded(l)) && PatchOk(Grounded(l)) && Pending(Grounded(l)).None?
  {
    hide After, PatchesIn, TextSince, ToolsIn, CitationsIn, GroundInto;
  }

  /** The account of what the run produced does not look at the tree. */
  lemma SameRunRaw(l: Local, m: Local)
    requires StageKnown(l) && RawOk(l) && m.trace == l.trace && m.raw == l.raw
    ensures RawOk(m)
  {
  }

  /** A freshly archived answer carries what the run produced. */
  lemma FirstVerdicts(l: Local, k: Completion, n: Node)
    requires StageKnown(l) && PatchOk(l) && l.raw == Some(k) && Pending(l) == Some(k) && l.s.hook.stream.Some?
    requires n.content == k.content && n.role == Assistant(k.run, k.grounding)
    ensures VerdictsOn(Archived(l), n)
  {
    hide After, PatchesIn;
  }

  lemma NothingToArchive(l: Local)
    requires Pending(l).None?
    ensures Archived(l) == l
  {
  }

  lemma ArchiveInv(l: Local)
    requires Inv(l)
    ensures Inv(Archived(l)) && Pending(Archived(l)).None?
  {
    hide WellFormed, After, LoopsOk, OriginOk, RunsOk, RawOk, FlightOk, PatchOk, Archive, AppendChildOf, SameCores,
      VerdictsOn;
    if Pending(l).None? {
      NothingToArchive(l);
    } else {
      ArchivePlaces(l);
      var k := Pending(l).value;
      var n := MakeAssistantNode(k.id, k.parent.value, k.content, k.run, k.grounding);
      AppendFrame(Tree(l), k.parent, n);
      AppendSameCores(Tree(l), k.parent, n);
      var d := AppendChildOf(Tree(l), k.parent, n).value;
      ArchiveHook(l);
      SameRunRaw(l, Archived(l));
      ArchiveOrigin(l, d, k, n);
      ArchiveLoops(l, d, k, n);
      FirstVerdicts(l, k, n);
    }
  }

  lemma {:induction false} FindUnique(c: Conversation, ids: seq<NodeId>, loopId: string, a: NodeId)
    requires a in ids && IsAnswerOf(c, a, loopId)
    requires forall x :: x in ids && IsAnswerOf(c, x, loopId) ==> x == a
    ensures FindByLoop(c, ids, loopId) == Some(a)
  {
    if ids[0] != a {
      FindUnique(c, ids[1..], loopId, a);
    }
  }

  /** The grounding effect finds exactly the answer of the run the patch belongs to. */
  lemma PatchFindsItsAnswer(l: Local)
    requires Inv(l) && Pending(l).None? && StateOf(l.s.hook).patch.Some?
    ensures l.raw.Some? && IsAnswer(Tree(l), l.raw.value.id)
    ensures FindByLoop(Tree(l), Tree(l).order, StateOf(l.s.hook).patch.value.loopId) == Some(l.raw.value.id)
  {
    var a := l.raw.value.id;
    assert OriginAt(l, a);
    assert VerdictsOn(l, Tree(l).nodes[a]);
    forall x | x in Tree(l).order && IsAnswerOf(Tree(l), x, StageOf(l).loop)
      ensures x == a
    {
      assert LoopFree(l, x);
    }
    FindUnique(Tree(l), Tree(l).order, StageOf(l).loop, a);
  }

  ghost function Grounded(l: Local): Local
  {
    l.(s := Ground(l.s), dirty := false)
  }

  lemma PatchTwice(n: Node, p: Patch)
    ensures PatchedNode(PatchedNode(n, p), p) == PatchedNode(n, p)
  {
  }

  lemma GroundedVerdicts(l: Local, n: Node)
    requires StageKnown(l) && PatchOk(l) && l.raw.Some? && VerdictsOn(l, n)
    requires StateOf(l.s.hook).patch.Some? && l.s.hook.stream.Some?
    requires l.s.tree.Some?
    ensures VerdictsOn(Grounded(l), PatchedNode(n, StateOf(l.s.hook).patch.value.patch))
  {
    hide After, PatchesIn;
    PatchTwice(n, StateOf(l.s.hook).patch.value.patch);
    assert StateOf(l.s.hook).patch.value.patch == PatchesIn(l.trace)[|PatchesIn(l.trace)| - 1];
  }

  lemma GroundedRest(l: Local, d: Conversation)
    requires StageKnown(l) && l.s.tree.Some? && LoopsOk(l) && OriginOk(l) && RunsOk(l)
    requires SameShape(Tree(l), d)
    requires forall x :: IsAnswer(Tree(l), x) ==> d.nodes[x].role.Assistant? && d.nodes[x].role.run == Tree(l).nodes[x].role.run
    requires Tree(Grounded(l)) == d
    ensures LoopsOk(Grounded(l)) && OriginOk(Grounded(l)) && RunsOk(Grounded(l))
  {
    hide After;
    var m := Grounded(l);
    forall a
      ensures OriginAt(m, a)
    {
      assert OriginAt(l, a);
    }
    forall x | IsAnswer(d, x)
      ensures LoopFree(m, x)
    {
      assert LoopFree(l, x);
    }
  }

  lemma GroundInv(l: Local)
    requires Inv(l) && Pending(l).None?
    ensures Inv(Grounded(l))
  {
    var shown := StateOf(l.s.hook).patch;
    SameRunRaw(l, Grounded(l));
    GroundHook(l);
    if shown.Some? && l.s.applied != Some(shown.value.serial) {
      PatchFindsItsAnswer(l);
      var a, p := l.raw.value.id, shown.value.patch;
      PatchFrame(Tree(l), a, p);
      var d := UpdateAssistantGrounding(Tree(l), a, p);
      assert Tree(Grounded(l)) == d && d.nodes[a] == PatchedNode(Tree(l).nodes[a], p);
      hide WellFormed, After, LoopsOk, OriginOk, RunsOk, RawOk, FlightOk, VerdictsOn, SameShape;
      GroundedVerdicts(l, Tree(l).nodes[a]);
      GroundedRest(l, d);
    } else {
      SameShapeSelf(Tree(l));
      hide WellFormed, After, LoopsOk, OriginOk, RunsOk, RawOk, FlightOk, SameShape;
      GroundedRest(l, Tree(l));
      if l.raw.Some? && l.raw.value.id in Tree(l).nodes {
        assert VerdictsOn(Grounded(l), Tree(l).nodes[l.raw.value.id]);
      }
    }
  }

  lemma SameShapeSelf(c: Conversation)
    requires WellFormed(c)
    ensures SameShape(c, c)
  {
  }

  lemma RenderInv(l: Local)
    requires Inv(l)
    ensures Inv(Do(l, Render))
  {
    ArchiveInv(l);
    GroundInv(Archived(l));
  }

  // ---------- All steps ----------

  lemma StepInv(l: Local, step: Step)
    requires Inv(l) && Enabled(l, step)
    ensures Inv(Do(l, step))
  {
    match step
    case Submit(q, id) => SubmitInv(l, q, id);
    case Edit(target, q, id) => EditInv(l, target, q, id);
    case Retry(target) => RetryInv(l, target);
    case Switch(current, sibling) => SwitchInv(l, current, sibling);
    case Surface(target) => SurfaceInv(l, target);
    case Stop => StopInv(l);
    case Receive(e, id) => ReceiveInv(l, e, id);
    case Settle(ending, id) => SettleInv(l, ending, id);
    case Render => RenderInv(l);
  }

  lemma FreshInv()
    ensures Inv(FRESH)
  {
    assert After(START, []) == Some(START);
    assert forall a :: OriginAt(FRESH, a);
    var c := EMPTY_CONVERSATION;
    assert SiblingList(c, None) == [];
    forall p | Slot(c, p)
      ensures SlotOk(c, p)
    {
      assert p == None;
    }
  }

  /** What the invariant says first. */
  lemma Known(l: Local)
    requires Inv(l)
    ensures HasTree(l) && StageKnown(l) && Tree(l).nodes.Keys <= l.used
    ensures Pending(l).Some? ==> l.dirty && l.raw == Pending(l)
  {
  }

  // ---------- Runs ----------

  /** A step taken; on a malformed state, which no run reaches, nothing happens. */
  ghost function Take(l: Local, step: Step): Local
  {
    if HasTree(l) && StageKnown(l) then Do(l, step) else l
  }

  ghost function Exec(l: Local, steps: seq<Step>): Local
  {
    if steps == [] then l else Take(Exec(l, steps[..|steps| - 1]), steps[|steps| - 1])
  }

  /** `steps` can be taken one after the other from `l`. */
  ghost predicate Legal(l: Local, steps: seq<Step>)
  {
    steps != [] ==>
      Legal(l, steps[..|steps| - 1]) && Enabled(Exec(l, steps[..|steps| - 1]), steps[|steps| - 1])
  }

  /** The invariant holds after every legal run. */
  lemma {:induction false} InvAlways(l: Local, steps: seq<Step>)
    requires Inv(l) && Legal(l, steps)
    ensures Inv(Exec(l, steps))
  {
    if steps != [] {
      InvAlways(l, steps[..|steps| - 1]);
      StepInv(Exec(l, steps[..|steps| - 1]), steps[|steps| - 1]);
    }
  }
}
