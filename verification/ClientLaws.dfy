/** What the reader can rely on, over every legal run of a conversation. */
module ClientLaws {
  import opened Wrappers
  import opened Sequences
  import opened Text
  import opened ChatTypes
  import opened Branches
  import opened BranchLaws
  import opened StreamSpec
  import opened Trace
  import opened ClientRun
  import opened ClientInvariant

  // ---------- Trees and answers ----------

  /** Every tree a conversation ever shows is well formed, and no update of it ever throws. */
  lemma ReachableTreesWellFormed(steps: seq<Step>)
    requires Legal(FRESH, steps)
    ensures var l := Exec(FRESH, steps);
            l.s.tree.Some? && WellFormed(l.s.tree.value) && !l.s.faulted
  {
    FreshInv();
    InvAlways(FRESH, steps);
  }

  /**
   * Every answer in the tree is the answer of one accepted submit and of no other, and hangs
   * below the question captured at that submit.
   */
  lemma AnswersBelongToRuns(steps: seq<Step>, a: NodeId, b: NodeId)
    requires Legal(FRESH, steps)
    ensures var l := Exec(FRESH, steps);
            && l.s.tree.Some?
            && (IsAnswer(Tree(l), a) ==>
                  && a in l.origin && l.origin[a] < |l.runs|
                  && Tree(l).nodes[a].parent == Some(l.runs[l.origin[a]].question))
            && (IsAnswer(Tree(l), a) && IsAnswer(Tree(l), b) && a != b ==>
                  a in l.origin && b in l.origin && l.origin[a] != l.origin[b])
  {
    FreshInv();
    InvAlways(FRESH, steps);
    var l := Exec(FRESH, steps);
    assert OriginAt(l, a) && OriginAt(l, b);
  }

  ghost function AnswerIds(c: Conversation): set<NodeId>
  {
    set a | a in c.nodes && c.nodes[a].role.Assistant?
  }

  lemma {:induction false} InjectionBound(ids: set<NodeId>, f: map<NodeId, nat>, n: nat)
    requires forall a :: a in ids ==> a in f && f[a] < n
    requires forall a, b :: a in ids && b in ids && a != b ==> f[a] != f[b]
    ensures |ids| <= n
    decreases n
  {
    if ids != {} {
      if a :| a in ids && f[a] == n - 1 {
        InjectionBound(ids - {a}, f, n - 1);
      } else {
        InjectionBound(ids, f, n - 1);
      }
    }
  }

  lemma AnswersBounded(l: Local)
    requires l.s.tree.Some? && OriginOk(l)
    ensures |AnswerIds(Tree(l))| <= |l.runs|
  {
    var ids := AnswerIds(Tree(l));
    forall a | a in ids
      ensures a in l.origin && l.origin[a] < |l.runs| && l.runs[l.origin[a]].answer == Some(a)
    {
      assert OriginAt(l, a);
    }
    InjectionBound(ids, l.origin, |l.runs|);
  }

  /** There are never more answers than accepted submits. */
  lemma NoMoreAnswersThanRuns(steps: seq<Step>)
    requires Legal(FRESH, steps)
    ensures var l := Exec(FRESH, steps);
            l.s.tree.Some? && |AnswerIds(Tree(l))| <= |l.runs|
  {
    FreshInv();
    InvAlways(FRESH, steps);
    AnswersBounded(Exec(FRESH, steps));
  }

  /** Rendering again changes nothing, however often the effects re-run. */
  lemma RenderSettles(l: Local)
    requires Inv(l) && !l.dirty
    ensures Flush(l.s) == l.s
    ensures Show(l) == l
  {
  }

  /**
   * A question sent while a run is on file is recorded but not answered: a submit starts a run
   * exactly when, besides not being shown as running, no controller is on file.
   */
  lemma SubmitAccepted(l: Local, q: string, id: NodeId)
    requires Inv(l) && Enabled(l, Submit(q, id))
    ensures var m := Do(l, Submit(q, id));
            && (|m.runs| == |l.runs| + 1 <==> Trim(q) != "" && !IsRunning(l.s) && !InFlight(l))
            && (m.runs == l.runs <==> Trim(q) == "" || IsRunning(l.s) || InFlight(l))
            && m.s.tree.Some?
            && (id in Tree(m).nodes <==> Trim(q) != "" && !IsRunning(l.s))
  {
    TrimTwice(q);
    if Trim(q) != "" && !IsRunning(l.s) {
      var leaf := LastId(ActiveIds(Tree(l)));
      AddUserInv(l, leaf, Trim(q), id);
      StartAccepted(l, leaf, Trim(q), id);
    }
  }

  lemma StartAccepted(l: Local, parent: Option<NodeId>, q: string, id: NodeId)
    requires l.s.tree.Some? && Trim(q) != ""
    ensures var m := Start(AddUser(l, parent, q, id), q, id);
            && m.runs == (if InFlight(l) then l.runs else l.runs + [Run(id, None)])
            && m.s.tree == AddUser(l, parent, q, id).s.tree
  {
    hide AppendChildOf;
  }

  lemma {:induction false} TrimStartStops(s: string)
    ensures TrimStart(s) == "" || !IsJsSpace(TrimStart(s)[0])
  {
    if s != "" && IsJsSpace(s[0]) {
      TrimStartStops(s[1..]);
    }
  }

  lemma {:induction false} TrimEndStops(s: string)
    ensures TrimEnd(s) <= s
    ensures TrimEnd(s) == "" || !IsJsSpace(TrimEnd(s)[|TrimEnd(s)| - 1])
  {
    if s != "" && IsJsSpace(s[|s| - 1]) {
      TrimEndStops(s[..|s| - 1]);
    }
  }

  /** Trimming twice is trimming once. */
  lemma TrimTwice(s: string)
    ensures Trim(Trim(s)) == Trim(s)
  {
    TrimStartStops(s);
    TrimEndStops(TrimStart(s));
  }

  // ---------- The partial answer and Stop ----------

  /** While a run is in flight the text on display is its buffer: all deltas since the latest step began. */
  lemma DisplayIsBuffer(l: Local)
    requires Inv(l) && InFlight(l)
    ensures Some(StateOf(l.s.hook).streamingAnswer) == l.s.hook.answer == Some(TextSince(l.trace))
    ensures Some(StateOf(l.s.hook).toolEvents) == l.s.hook.tools == Some(ToolsIn(l.trace))
    ensures !HasAnswered(StageOf(l)) ==> Some(StateOf(l.s.hook).citations) == l.s.hook.citations == Some(CitationsIn(l.trace))
  {
  }

  /** The sources named by tool calls, in order. */
  function SourcesOf(tools: seq<ToolEvent>): seq<Citation>
  {
    if tools == [] then []
    else (if tools[0].citation.Some? then [tools[0].citation.value] else []) + SourcesOf(tools[1..])
  }

  lemma {:induction false} SourcesMore(tools: seq<ToolEvent>, t: ToolEvent)
    ensures SourcesOf(tools + [t]) == SourcesOf(tools) + if t.citation.Some? then [t.citation.value] else []
  {
    if tools == [] {
      assert (tools + [t])[1..] == [];
    } else {
      assert (tools + [t])[1..] == tools[1..] + [t];
      SourcesMore(tools[1..], t);
    }
  }

  /** The citations gathered are the sources of the tool events shown. */
  lemma {:induction false} CitationsAreSources(trace: seq<Event>)
    ensures CitationsIn(trace) == SourcesOf(ToolsIn(trace))
  {
    if trace != [] {
      var init, e := trace[..|trace| - 1], trace[|trace| - 1];
      CitationsAreSources(init);
      if e.ToolCallCompleted? {
        SourcesMore(ToolsIn(init), e.tool);
      }
      assert ToolsIn(init) + [] == ToolsIn(init) && CitationsIn(init) + [] == CitationsIn(init);
    }
  }

  /** Every completed tool call of the run is shown, at its place. */
  lemma {:induction false} ToolsAt(trace: seq<Event>, i: nat)
    requires i < |trace| && trace[i].ToolCallCompleted?
    ensures |ToolsIn(trace[..i])| < |ToolsIn(trace)| && ToolsIn(trace)[|ToolsIn(trace[..i])|] == trace[i].tool
  {
    var init := trace[..|trace| - 1];
    if i < |trace| - 1 {
      ToolsAt(init, i);
      assert init[..i] == trace[..i];
    }
  }

  ghost function Deltas(events: seq<Event>): string
  {
    if events == [] then ""
    else Deltas(events[..|events| - 1]) + if events[|events| - 1].ModelDelta? then events[|events| - 1].text else ""
  }

  /** After a step has begun, the text since is the concatenation of the deltas that followed. */
  lemma {:induction false} TextSinceStep(before: seq<Event>, n: nat, after: seq<Event>)
    requires forall i :: 0 <= i < |after| ==> !after[i].StepStarted? && !after[i].AnswerEvent? && !after[i].ErrorEvent?
    ensures TextSince(before + [StepStarted(n)] + after) == Deltas(after)
  {
    var head := before + [StepStarted(n)];
    if after == [] {
      assert head + after == head;
    } else {
      assert (head + after)[..|head + after| - 1] == head + after[..|after| - 1];
      TextSinceStep(before, n, after[..|after| - 1]);
    }
  }

  /** Stop and the rejection that follows: the partial answer is pending. */
  lemma StopSettles(l: Local, message: string, id: NodeId)
    requires Inv(l) && Enabled(l, Stop) && InFlight(l) && id !in l.used
    ensures Inv(Halt(l)) && Enabled(Halt(l), Settle(StreamRejected(message), id))
    ensures var over := Wind(Halt(l), StreamRejected(message), id);
            && Inv(over) && Tree(over) == Tree(l) && over.runs != []
            && over.runs[|over.runs| - 1].question == l.runs[|l.runs| - 1].question
            && Pending(over) == Some(InterruptedCompletion(l.s.hook, id))
            && !InFlight(over) && StateOf(over.s.hook).phase == Finished
            && !HasAnswered(StageOf(over))
  {
    StopInv(l);
    SettleInv(Halt(l), StreamRejected(message), id);
  }

  /**
   * Stop, the rejection of the stream, and a render archive exactly the text on display, with
   * exactly the tool events completed so far, below the question being answered.
   */
  lemma StopArchivesPartial(l: Local, message: string, id: NodeId)
    requires Inv(l) && Enabled(l, Stop) && InFlight(l) && id !in l.used
    ensures var m := Show(Wind(Halt(l), StreamRejected(message), id));
            && Inv(m) && !InFlight(m) && StateOf(m.s.hook).phase == Finished && StateOf(m.s.hook).error.None?
            && IsAnswer(Tree(m), id)
            && Tree(m).nodes[id].parent == Some(l.runs[|l.runs| - 1].question)
            && Tree(m).nodes[id].content == StateOf(l.s.hook).streamingAnswer == TextSince(l.trace)
            && Tree(m).nodes[id].role.run.stopReason == StopInterrupted
            && Tree(m).nodes[id].role.run.toolEvents == StateOf(l.s.hook).toolEvents == ToolsIn(l.trace)
            && Tree(m).nodes[id].role.run.toolCallCount == |ToolsIn(l.trace)|
            && Tree(m).nodes[id].role.run.citations == CitationsIn(l.trace)
            && Tree(m).nodes[id].role.run.loopId == "" && Tree(m).nodes[id].role.run.stepCount == 0
            && Tree(m).nodes[id].role.grounding == Grounding(None, None, None, None, false, false)
  {
    StopSettles(l, message, id);
    DisplayIsBuffer(l);
    QuestionInFlight(l);
    CitedSoFar(l);
    var over := Wind(Halt(l), StreamRejected(message), id);
    hide Wind, Halt, WellFormed, After, TextSince, ToolsIn, CitationsIn;
    ShowArchives(over, InterruptedCompletion(l.s.hook, id));
  }

  lemma CitedSoFar(l: Local)
    requires Inv(l) && InFlight(l) && IsRunning(l.s)
    ensures l.s.hook.citations == Some(CitationsIn(l.trace))
  {
  }

  lemma QuestionInFlight(l: Local)
    requires Inv(l) && InFlight(l)
    ensures l.runs != [] && l.s.hook.parent == Some(l.runs[|l.runs| - 1].question)
  {
  }

  /** Rendering an interrupted run puts its partial answer in the tree, unpatched. */
  lemma ShowArchives(l: Local, k: Completion)
    requires Inv(l) && Pending(l) == Some(k) && !HasAnswered(StageOf(l))
    ensures Inv(Show(l)) && k.parent.Some?
    ensures Show(l).s.tree.Some? && k.id in Tree(Show(l)).nodes
    ensures Tree(Show(l)).nodes[k.id] == MakeAssistantNode(k.id, k.parent.value, k.content, k.run, k.grounding)
    ensures InFlight(Show(l)) == InFlight(l) && StateOf(Show(l).s.hook).phase == StateOf(l.s.hook).phase
  {
    hide Inv, WellFormed, After, Archive, Flush, StageOf;
    Known(l);
    RenderInv(l);
    Known(Show(l));
    ArchivedNode(l, k);
    NoPatchWithoutAnswer(l);
    PhaseKept(l.s);
  }

  /** Rendering does not touch the phase or the controller. */
  lemma PhaseKept(s: Slice)
    ensures StateOf(Flush(s).hook).phase == StateOf(s.hook).phase && Flush(s).hook.controller == s.hook.controller
  {
  }

  /** Where the pending completion ends up after the archive effect. */
  lemma ArchivedNode(l: Local, k: Completion)
    requires Inv(l) && Pending(l) == Some(k)
    ensures var s := Archive(l.s);
            && s.tree.Some? && k.id in s.tree.value.nodes && k.parent.Some?
            && s.tree.value.nodes[k.id] == MakeAssistantNode(k.id, k.parent.value, k.content, k.run, k.grounding)
  {
    ArchivePlaces(l);
    var n := MakeAssistantNode(k.id, k.parent.value, k.content, k.run, k.grounding);
    AppendFrame(Tree(l), k.parent, n);
  }

  /** A run that never answered has no patch to apply. */
  lemma NoPatchWithoutAnswer(l: Local)
    requires Inv(l) && !HasAnswered(StageOf(l))
    ensures StateOf(l.s.hook).patch.None?
    ensures Flush(l.s) == Archive(l.s)
  {
  }

  // ---------- A stream that ends too early ----------

  /** After a run is over the conversation still shows as running exactly when its stream closed early and cleanly. */
  lemma StillRunningExactly(l: Local, ending: Ending, id: NodeId)
    requires Inv(l) && Enabled(l, Settle(ending, id))
    ensures IsRunning(Do(l, Settle(ending, id)).s) <==>
            ending.StreamEnded? && !HasAnswered(StageOf(l)) && !StageOf(l).at.Broken?
  {
  }

  /** The composer is locked and no run is there to unlock it. */
  ghost predicate Stuck(l: Local)
  {
    IsRunning(l.s) && !InFlight(l)
  }

  /** Nothing the user or a render does gets a conversation out of that state. */
  lemma StuckForGood(l: Local, step: Step)
    requires Inv(l) && Stuck(l) && Enabled(l, step)
    ensures Stuck(Do(l, step)) && Do(l, step).runs == l.runs
  {
    match step
    case Render => PhaseKept(l.s);
    case _ =>
  }

  // ---------- Deleting a conversation ----------

  /**
   * Deleting a conversation drops its tree for good. Its stream entry is back after the rejection
   * of an aborted run exactly when a run was on file at the delete, and never after a clean end.
   */
  lemma DeletedRunLeavesEntry(s: Slice, message: string, id: NodeId)
    ensures var late := Flush(DeletedAndSettled(s, StreamRejected(message), id));
            && late.tree.None? && late.hook.controller.None?
            && (late.hook.stream.Some? <==> s.hook.controller.Some?)
            && (s.hook.controller.None? ==> late.hook == EMPTY_VIEW.(patches := s.hook.patches))
            && (late.hook.stream.Some? ==> StateOf(late.hook).phase == Finished && (id !in s.archived ==> StateOf(late.hook).completion.None?))
    ensures Flush(DeletedAndSettled(s, StreamEnded, id)).hook.stream.None?
  {
  }

  // ---------- Late verdicts ----------

  /** What the reader sees of an answer: its text and the four counts. */
  datatype Reading = Reading(content: string, supported: Option<nat>, unsupported: Option<nat>,
                             uncertain: Option<nat>, unverifiable: Option<nat>)

  function ReadingOf(n: Node): Reading
    requires n.role.Assistant?
  {
    var g := n.role.grounding;
    Reading(n.content, g.supported, g.unsupported, g.uncertain, g.unverifiable)
  }

  function PatchReading(p: Patch): Reading
  {
    Reading(p.content, Some(p.supported), Some(p.unsupported), Some(p.uncertain), Some(p.unverifiable))
  }

  function AnswerReading(a: AgentAnswer): Reading
  {
    Reading(a.content, a.supported, a.unsupported, a.uncertain, a.unverifiable)
  }

  /** The last verdict ran, or none did. */
  ghost predicate Steady(ps: seq<Patch>)
  {
    ps != [] ==> ps[|ps| - 1].ran || NoneRan(ps)
  }

  /** What a steady run's events say should be read. */
  ghost function Readout(trace: seq<Event>): Option<Reading>
  {
    match AnswerIn(trace)
    case None => None
    case Some((a, _)) =>
      var ps := PatchesIn(trace);
      Some(if ps != [] && ps[|ps| - 1].ran then PatchReading(ps[|ps| - 1]) else AnswerReading(a))
  }

  lemma AnsweredInTree(l: Local)
    requires Inv(l) && !l.dirty && HasAnswered(StageOf(l))
    ensures l.raw.Some? && l.runs != []
    ensures IsAnswer(Tree(l), l.raw.value.id)
    ensures Tree(l).nodes[l.raw.value.id].parent == Some(l.runs[|l.runs| - 1].question)
    ensures VerdictsOn(l, Tree(l).nodes[l.raw.value.id])
  {
    assert OriginAt(l, l.raw.value.id);
  }

  /** The archived answer of the latest run, on any rendered state. */
  ghost function LatestAnswer(l: Local): Node
    requires Inv(l) && !l.dirty && HasAnswered(StageOf(l))
  {
    AnsweredInTree(l);
    Tree(l).nodes[l.raw.value.id]
  }

  /**
   * Over every batching of events into renders: once rendered, the answer of an answered run
   * sits below its question and reads as its events say, if the last verdict ran or none did;
   * the pending mark is gone as soon as a verdict arrived, and the last verdict alone decides
   * whether the answer is marked unverifiable by the judge.
   */
  lemma AnswerReadsAsSent(l: Local)
    requires Inv(l) && !l.dirty && HasAnswered(StageOf(l))
    ensures var n := LatestAnswer(l);
            var ps := PatchesIn(l.trace);
            var (a, pending) := AnswerIn(l.trace).value;
            && n.role.Assistant? && l.runs != [] && n.parent == Some(l.runs[|l.runs| - 1].question)
            && (Steady(ps) ==> Some(ReadingOf(n)) == Readout(l.trace))
            && n.role.grounding.pending == (pending && ps == [])
            && n.role.grounding.unavailable == (ps != [] && !ps[|ps| - 1].ran)
            && n.role.run.toolEvents == ToolsIn(l.trace)
            && n.role.run.citations == (if a.citations != [] then a.citations else CitationsIn(l.trace))
            && n.role.run.stepCount == a.stepCount && n.role.run.toolCallCount == a.toolCallCount
            && n.role.run.inputTokens == a.inputTokens && n.role.run.outputTokens == a.outputTokens
            && n.role.run.stopReason == a.stopReason && n.role.run.loopId == a.loopId
            && n.role.run.strategy == "" && n.role.run.modelId == ""
  {
    AnsweredInTree(l);
    hide WellFormed, After, TextSince, FlightOk, LoopsOk, OriginOk;
    var n := LatestAnswer(l);
    assert VerdictsOn(l, n);
  }

  /** An answer whose verdicts are owed is archived without counts. */
  lemma LateRaw(l: Local)
    requires Inv(l) && !l.dirty && StageOf(l).at.Late? && PatchesIn(l.trace) == []
    ensures l.raw.Some? && IsAnswer(Tree(l), l.raw.value.id)
    ensures Tree(l).nodes[l.raw.value.id].role.grounding.supported.None?
  {
    AnsweredInTree(l);
    OwedHasNoVerdicts(l.trace);
  }

  lemma {:induction false} OwedHasNoVerdicts(trace: seq<Event>)
    requires Fits(trace) && (After(START, trace).value.at.Owed? || After(START, trace).value.at.Late?)
    ensures AnswerIn(trace).Some? && NoVerdicts(AnswerIn(trace).value.0)
  {
    if trace != [] && !trace[|trace| - 1].AnswerEvent? {
      OwedHasNoVerdicts(trace[..|trace| - 1]);
    }
  }

  /** One more late verdict keeps the stage and puts its patch on display. */
  lemma LateStep(l: Local, v: Verdict, id: NodeId)
    requires Inv(l) && InFlight(l) && !Aborted(l) && StageOf(l).at.Late? && id !in l.used && Pending(l).None?
    ensures var m := Hear(l, GroundingPartial(StageOf(l).loop, v), id);
            && Inv(m) && InFlight(m) && !Aborted(m) && StageOf(m) == StageOf(l)
            && m.used == l.used && m.raw == l.raw && m.s.tree == l.s.tree && Pending(m).None?
            && StateOf(m.s.hook).patch.Some? && StateOf(m.s.hook).patch.value.patch == VerdictPatch(v)
            && m.s.applied != Some(StateOf(m.s.hook).patch.value.serial)
  {
    hide Inv, WellFormed, After, OnEvent;
    Known(l);
    var e := GroundingPartial(StageOf(l).loop, v);
    TraceStep(l.trace, e);
    PatchNotApplied(l);
    ReceiveInv(l, e, id);
    EventPatch(l.s.hook, e, id);
    EventCompletion(l.s.hook, e, id);
    EventKeepsController(l.s.hook, e, id);
  }

  lemma PatchNotApplied(l: Local)
    requires Inv(l)
    ensures l.s.applied.Some? ==> l.s.applied.value < l.s.hook.patches
  {
  }

  lemma EventKeepsController(h: HookView, e: Event, id: NodeId)
    ensures OnEvent(h, e, id).controller == h.controller
  {
  }

  /** With the answer archived, a render applies the patch on display to it and nothing else. */
  lemma LateRender(l: Local)
    requires Inv(l) && Pending(l).None? && StateOf(l.s.hook).patch.Some?
    requires l.s.applied != Some(StateOf(l.s.hook).patch.value.serial)
    ensures var m := Show(l);
            && Inv(m) && l.raw.Some? && Pending(m).None?
            && m.s.tree == Some(UpdateAssistantGrounding(Tree(l), l.raw.value.id, StateOf(l.s.hook).patch.value.patch))
            && m.s.hook == l.s.hook && m.used == l.used && m.raw == l.raw && m.trace == l.trace
  {
    hide Inv, Show, FindByLoop, UpdateAssistantGrounding, WellFormed;
    Known(l);
    RenderInv(l);
    PatchFindsItsAnswer(l);
    ShowPatches(l, l.raw.value.id);
  }

  lemma ShowPatches(l: Local, a: NodeId)
    requires l.s.tree.Some? && Pending(l).None? && StateOf(l.s.hook).patch.Some?
    requires l.s.applied != Some(StateOf(l.s.hook).patch.value.serial)
    requires FindByLoop(Tree(l), Tree(l).order, StateOf(l.s.hook).patch.value.loopId) == Some(a)
    ensures var m := Show(l);
            && m.s.tree == Some(UpdateAssistantGrounding(Tree(l), a, StateOf(l.s.hook).patch.value.patch))
            && m.s.hook == l.s.hook && m.used == l.used && m.raw == l.raw && m.trace == l.trace
  {
    hide FindByLoop, UpdateAssistantGrounding;
  }

  // ---------- The view while a run is in flight ----------

  /**
   * The view hands over without a jump: if the question being answered is visible, the path
   * after archiving is what was shown while running, plus the answer; if the reader has moved
   * to another branch, nothing on screen moves.
   */
  lemma HandoverSmooth(l: Local, ended: Local)
    requires Inv(l) && InFlight(l) && IsRunning(l.s)
    requires Inv(ended) && Pending(ended).Some? && Tree(ended) == Tree(l) && ended.runs != []
    requires ended.runs[|ended.runs| - 1].question == l.runs[|l.runs| - 1].question
    ensures Inv(Show(ended))
    ensures if l.runs[|l.runs| - 1].question in ActiveIds(Tree(l))
            then ActiveIds(Tree(Show(ended))) == VisibleIds(l.s) + [Pending(ended).value.id]
            else ActiveIds(Tree(Show(ended))) == VisibleIds(l.s) == ActiveIds(Tree(l))
  {
    hide Acyclic, NodeOk, SlotOk, PathFrom, ActiveIds, Through, VisibleIds, Flush, RunsOk, PendingOk, FlightOk,
      OriginOk, RawOk, LoopsOk, PatchOk, VerdictsOk, IsRunning;
    RenderInv(ended);
    ShownPath(ended);
    RunningView(l);
    QuestionPending(ended);
    ThroughAbsent(ActiveIds(Tree(l)), l.runs[|l.runs| - 1].question);
  }

  lemma ThroughAbsent(ids: seq<NodeId>, x: NodeId)
    ensures x !in ids ==> Through(ids, x) == ids
  {
    ThroughIsPrefix(ids, x);
  }

  /** In particular when the answer arrives, wherever the reader has navigated in the meantime. */
  lemma HandoverOnAnswer(l: Local, a: AgentAnswer, pending: bool, id: NodeId)
    requires Inv(l) && Enabled(l, Receive(AnswerEvent(a, pending), id))
    ensures l.runs != [] && Inv(Show(Hear(l, AnswerEvent(a, pending), id)))
    ensures var path := ActiveIds(Tree(Show(Hear(l, AnswerEvent(a, pending), id))));
            if l.runs[|l.runs| - 1].question in ActiveIds(Tree(l))
            then path == VisibleIds(l.s) + [id]
            else path == VisibleIds(l.s) == ActiveIds(Tree(l))
  {
    hide Acyclic, NodeOk, SlotOk, PathFrom, ActiveIds, VisibleIds, Flush, RunsOk, PendingOk, OriginOk, RawOk, LoopsOk,
      PatchOk, VerdictsOk, After, FinalAnswer, Next, OnEvent;
    var e := AnswerEvent(a, pending);
    FitsStep(l.trace, e);
    AnsweredStays(StageOf(l), e);
    LoopMoves(StageOf(l), e);
    AnswerInFlight(l, e);
    ReceiveInv(l, e, id);
    EventCompletion(l.s.hook, e, id);
    HandoverSmooth(l, Hear(l, e, id));
  }

  lemma QuestionPending(l: Local)
    requires Inv(l) && Pending(l).Some?
    ensures l.runs != [] && Pending(l).value.parent == Some(l.runs[|l.runs| - 1].question)
  {
  }

  /** What is shown while a run is in flight: the path through its question, or all of it. */
  lemma RunningView(l: Local)
    requires Inv(l) && InFlight(l) && IsRunning(l.s)
    ensures l.runs != [] && VisibleIds(l.s) == Through(ActiveIds(Tree(l)), l.runs[|l.runs| - 1].question)
  {
  }

  /** The path after the pending answer has been archived and patched. */
  lemma ShownPath(l: Local)
    requires Inv(l) && Pending(l).Some? && Inv(Show(l))
    ensures var ids := ActiveIds(Tree(l));
            var k := Pending(l).value;
            && k.parent.Some?
            && ActiveIds(Tree(Show(l))) ==
               if k.parent.value in ids then Through(ids, k.parent.value) + [k.id] else ids
  {
    ArchiveInv(l);
    ArchivePlaces(l);
    var k := Pending(l).value;
    AppendActivePath(Tree(l), k.parent, MakeAssistantNode(k.id, k.parent.value, k.content, k.run, k.grounding));
    GroundKeepsPath(Archived(l));
  }

  lemma GroundKeepsPath(l: Local)
    requires Inv(l) && Pending(l).None?
    ensures Ground(l.s).tree.Some? && Acyclic(Ground(l.s).tree.value)
    ensures ActiveIds(Ground(l.s).tree.value) == ActiveIds(Tree(l))
  {
    var shown := StateOf(l.s.hook).patch;
    if shown.Some? && l.s.applied != Some(shown.value.serial) {
      PatchFindsItsAnswer(l);
      PatchFrame(Tree(l), l.raw.value.id, shown.value.patch);
    }
  }

  /**
   * Between the two lies one frame in which the run no longer counts as running and the answer
   * is not archived yet. It shows the same nodes exactly when the question is hidden or is the
   * visible leaf; during a retry it shows the older answer again.
   */
  lemma FrameBeforeArchive(l: Local, ended: Local)
    requires Inv(l) && InFlight(l) && IsRunning(l.s)
    requires Inv(ended) && !IsRunning(ended.s) && Tree(ended) == Tree(l)
    ensures var q := l.runs[|l.runs| - 1].question;
            VisibleIds(ended.s) == VisibleIds(l.s) <==>
            q !in ActiveIds(Tree(l)) || LastId(ActiveIds(Tree(l))) == Some(q)
  {
    hide NodeOk, SlotOk, PathFrom, Through, RunsOk, PendingOk, OriginOk, RawOk, LoopsOk, PatchOk, VerdictsOk, After;
    var ids := ActiveIds(Tree(l));
    var q := l.runs[|l.runs| - 1].question;
    RunningView(l);
    PathLinks(Tree(l), Tree(l).selectedRoot);
    ThroughIsPrefix(ids, q);
    if q in ids {
      BeforeIsPrefix(ids, q);
      if LastId(ids) == Some(q) {
        ThroughLast(ids);
      }
    }
  }

  // ---------- Navigation ----------

  /** Opening a search result shows the message, right below its own ancestors. */
  lemma SurfaceShows(l: Local, target: NodeId)
    requires Inv(l) && Enabled(l, Surface(target)) && target in Tree(l).nodes
    ensures var m := Do(l, Surface(target));
            && HasTree(m) && target in ActiveIds(Tree(m))
            && AncestorChain(Tree(l), target).Some? && AncestorChain(Tree(l), target).value <= ActiveIds(Tree(m))
            && Tree(m).nodes.Keys == Tree(l).nodes.Keys
  {
    SurfaceActivePath(Tree(l), target);
  }

  /** Switching branches on the visible path shows the alternative in the same context. */
  lemma SwitchShows(l: Local, current: NodeId, sibling: NodeId)
    requires Inv(l) && Enabled(l, Switch(current, sibling)) && current in ActiveIds(Tree(l))
    ensures var m := Do(l, Switch(current, sibling));
            && HasTree(m) && sibling in ActiveIds(Tree(m))
            && Before(ActiveIds(Tree(m)), sibling) == Before(ActiveIds(Tree(l)), current)
  {
    hide Inv, Acyclic, NodeOk, SlotOk, PathFrom, ActiveIds, Before, SwitchToSibling, After;
    Known(l);
    SwitchKeepsWellFormed(Tree(l), current, sibling);
    SwitchLands(Tree(l), current, sibling);
  }

  /** A run that is accepted shows its question at once, with nothing streamed yet. */
  lemma StartShowsQuestion(l: Local, question: string, parent: NodeId)
    requires Accepts(l.s.hook, question)
    ensures var s := StateOf(Start(l, question, parent).s.hook);
            && s.phase == Running && s.question == Trim(question) && s.parentUserNode == Some(parent)
            && s.streamingAnswer == "" && s.toolEvents == [] && s.citations == []
            && s.completion.None? && s.error.None? && s.patch.None?
  {
  }

  // ---------- The context sent is the context recorded ----------

  /** A fresh question is stored below exactly the history sent with it. */
  lemma SubmitContext(s: Slice, question: string, id: NodeId)
    requires s.tree.Some? && WellFormed(s.tree.value) && id !in s.tree.value.nodes
    requires Trim(question) != "" && !IsRunning(s)
    ensures var t := SubmitTurn(s, question, id);
            && t.tree.Some? && WellFormed(t.tree.value) && id in ActiveIds(t.tree.value)
            && History(t.tree.value, Some(id)) == History(s.tree.value, None)
  {
    hide Acyclic, NodeOk, SlotOk, PathFrom, AppendChildOf, History;
    var c := s.tree.value;
    var leaf := LastId(ActiveIds(c));
    FreshTurnHistory(c, MakeUserNode(id, leaf, Trim(question)));
    FreshTurnPath(c, MakeUserNode(id, leaf, Trim(question)));
  }

  /** An edited question that was visible is stored below exactly the history sent with it. */
  lemma EditContext(s: Slice, target: NodeId, question: string, id: NodeId)
    requires s.tree.Some? && WellFormed(s.tree.value) && id !in s.tree.value.nodes
    requires target in ActiveIds(s.tree.value) && s.tree.value.nodes[target].role.User?
    requires Trim(question) != "" && !IsRunning(s)
    ensures var t := EditTurn(s, target, question, id);
            && t.tree.Some? && WellFormed(t.tree.value) && id in ActiveIds(t.tree.value)
            && History(t.tree.value, Some(id)) == History(s.tree.value, Some(target))
  {
    var c := s.tree.value;
    assert NodeOk(c, target);
    var n := MakeUserNode(id, c.nodes[target].parent, Trim(question));
    hide Acyclic, NodeOk, SlotOk, PathFrom, Fork, History, Trim, EditTurn;
    ForkHistory(c, target, n);
    EditTree(s, target, question, id);
  }

  lemma EditTree(s: Slice, target: NodeId, question: string, id: NodeId)
    requires s.tree.Some? && target in s.tree.value.nodes && s.tree.value.nodes[target].role.User?
    requires Trim(question) != "" && !IsRunning(s)
    ensures EditTurn(s, target, question, id).tree ==
            WithTree(s, Fork(s.tree.value, target,
                             MakeUserNode(id, s.tree.value.nodes[target].parent, Trim(question)))).tree
  {
    hide Fork;
  }

  /**
   * A retry sends the path down to and including the question, and that is the context the new
   * answer is recorded in. The answer being retried is not part of it, and the question is: it
   * is the last turn sent, and the request asks it again.
   */
  lemma RetryContext(c: Conversation, target: NodeId, n: Node)
    requires WellFormed(c) && target in ActiveIds(c) && QuestionOf(c, target).Some?
    requires Insertable(c, QuestionOf(c, target), n)
    ensures var q := QuestionOf(c, target).value;
            var d := AppendChildOf(c, Some(q), n).value;
            && q in ActiveIds(c) && WellFormed(d) && n.id in ActiveIds(d)
            && History(d, Some(n.id)) == History(c, Some(target))
            && |History(c, Some(target))| > 0
            && History(c, Some(target)) == History(c, Some(q)) + [Turn(SaidByUser, c.nodes[q].content)]
            && target !in IdsUpTo(c, Some(target))
  {
    var q := QuestionOf(c, target).value;
    VisibleNeighbours(c, target);
    AnswerHistory(c, q, n);
    ThroughIsPrefix(ActiveIds(c), q);
    BeforeStops(ActiveIds(c), target);
    var ids := Before(ActiveIds(c), q) + [q];
    assert ids[..|ids| - 1] == Before(ActiveIds(c), q);
    BeforeStops(ActiveIds(c), q);
  }
}
