/**
 * One conversation over time: the user's actions, the events and the end of each run, and
 * renders, in any order that the dashboard and the event grammar allow.
 */
module ClientRun {
  import opened Wrappers
  import opened Text
  import opened ChatTypes
  import opened Branches
  import opened StreamSpec
  import opened Trace

  /** An accepted submit: the question it captured, and the answer it produced, if any. */
  datatype Run = Run(question: NodeId, answer: Option<NodeId>)

  /**
   * A conversation with the bookkeeping the properties speak about: `dirty` when something
   * changed since the last render; `used` the node ids drawn so far and `loops` the loop ids
   * seen; `trace` the events of the latest run; `runs` the accepted submits; `raw` what the
   * latest of them produced; `origin` the run behind each answer.
   */
  datatype Local = Local(
    s: Slice, dirty: bool, used: set<NodeId>, loops: set<string>,
    trace: seq<Event>, runs: seq<Run>, raw: Option<Completion>, origin: map<NodeId, nat>)

  const FRESH := Local(
    Slice(Some(EMPTY_CONVERSATION), false, EMPTY_VIEW, {}, None), false, {}, {}, [], [], None, map[])

  datatype Step =
    | Submit(question: string, id: NodeId)
    | Edit(target: NodeId, question: string, id: NodeId)
    | Retry(target: NodeId)
    | Switch(current: NodeId, sibling: NodeId)
    | Surface(target: NodeId)
    | Stop
    | Receive(event: Event, id: NodeId)
    | Settle(ending: Ending, id: NodeId)
    | Render

  ghost predicate HasTree(l: Local)
  {
    l.s.tree.Some? && WellFormed(l.s.tree.value)
  }

  ghost function Tree(l: Local): Conversation
    requires l.s.tree.Some?
  {
    l.s.tree.value
  }

  predicate InFlight(l: Local)
  {
    l.s.hook.controller.Some?
  }

  predicate Aborted(l: Local)
  {
    l.s.hook.controller == Some(true)
  }

  ghost predicate StageKnown(l: Local)
  {
    Fits(l.trace)
  }

  ghost function StageOf(l: Local): Stage
    requires StageKnown(l)
  {
    After(START, l.trace).value
  }

  /**
   * What may happen next. The user acts on a rendered state; Stop is offered while the run is
   * shown as running; the navigator offers siblings only; the server speaks the grammar, and
   * nothing is received after an abort; ids are drawn fresh.
   */
  ghost predicate Enabled(l: Local, step: Step)
  {
    match step
    case Submit(_, id) => !l.dirty && id !in l.used
    case Edit(_, _, id) => !l.dirty && id !in l.used
    case Retry(_) => !l.dirty
    case Switch(current, sibling) =>
      && !l.dirty && l.s.tree.Some?
      && current in Tree(l).nodes && sibling in Tree(l).nodes
      && Tree(l).nodes[current].parent == Tree(l).nodes[sibling].parent
    case Surface(_) => !l.dirty
    case Stop => !l.dirty && IsRunning(l.s)
    case Receive(e, id) =>
      && InFlight(l) && !Aborted(l) && id !in l.used
      && Fits(l.trace + [e])
      && (e.LoopStarted? ==> e.loopId != "" && e.loopId !in l.loops)
    case Settle(ending, id) => InFlight(l) && id !in l.used && (ending.StreamEnded? ==> !Aborted(l))
    case Render => true
  }

  ghost function AddUser(l: Local, parent: Option<NodeId>, content: string, id: NodeId): Local
    requires l.s.tree.Some?
  {
    l.(s := WithTree(l.s, AppendChildOf(Tree(l), parent, MakeUserNode(id, parent, content))),
       used := l.used + {id}, dirty := true)
  }

  ghost function Start(l: Local, question: string, parent: NodeId): Local
  {
    if Accepts(l.s.hook, question) then
      l.(s := l.s.(hook := Begin(l.s.hook, question, parent)), dirty := true,
         trace := [], runs := l.runs + [Run(parent, None)], raw := None)
    else l
  }

  /** The latest run has produced a completion. */
  ghost function Produced(l: Local, k: Completion): Local
  {
    if l.runs == [] then l
    else
      var last := |l.runs| - 1;
      l.(raw := Some(k), used := l.used + {k.id}, origin := l.origin[k.id := last],
         runs := l.runs[last := l.runs[last].(answer := Some(k.id))])
  }

  /** The Stop button: the run is aborted, its stream still has to notice. */
  function Halt(l: Local): Local
  {
    l.(s := l.s.(hook := OnStop(l.s.hook)))
  }

  /** A render with its effects. */
  function Show(l: Local): Local
  {
    l.(s := Flush(l.s), dirty := false)
  }

  /** The run's next event. */
  ghost function Hear(l: Local, e: Event, id: NodeId): Local
  {
    var heard := l.(s := l.s.(hook := OnEvent(l.s.hook, e, id)), dirty := true, trace := l.trace + [e],
                    loops := if e.LoopStarted? then l.loops + {e.loopId} else l.loops);
    if e.AnswerEvent? then Produced(heard, AnswerCompletion(l.s.hook, e.answer, e.pending, id)) else heard
  }

  /** The end of the run's stream. */
  ghost function Wind(l: Local, ending: Ending, id: NodeId): Local
  {
    var over := l.(s := l.s.(hook := OnSettle(l.s.hook, Aborted(l), ending, id)), dirty := true);
    if ending.StreamRejected? && Aborted(l) then Produced(over, InterruptedCompletion(l.s.hook, id)) else over
  }

  ghost function Do(l: Local, step: Step): Local
    requires HasTree(l) && StageKnown(l)
  {
    match step
    case Submit(q, id) =>
      if Trim(q) == "" || IsRunning(l.s) then l
      else Start(AddUser(l, LastId(ActiveIds(Tree(l))), Trim(q), id), Trim(q), id)
    case Edit(target, q, id) =>
      if IsRunning(l.s) || target !in Tree(l).nodes || !Tree(l).nodes[target].role.User? || Trim(q) == "" then l
      else Start(AddUser(l, Tree(l).nodes[target].parent, Trim(q), id), Trim(q), id)
    case Retry(target) =>
      if IsRunning(l.s) || QuestionOf(Tree(l), target).None? then l
      else
        var p := QuestionOf(Tree(l), target).value;
        Start(l, Tree(l).nodes[p].content, p)
    case Switch(current, sibling) => l.(s := SwitchTurn(l.s, current, sibling), dirty := true)
    case Surface(target) => l.(s := SurfaceTurn(l.s, target), dirty := true)
    case Stop => Halt(l)
    case Receive(e, id) => Hear(l, e, id)
    case Settle(ending, id) => Wind(l, ending, id)
    case Render => Show(l)
  }

  // ---------- What the events of a run add up to ----------

  /** The text streamed since the latest step began. */
  ghost function TextSince(trace: seq<Event>): string
  {
    if trace == [] then ""
    else
      var before := TextSince(trace[..|trace| - 1]);
      match trace[|trace| - 1]
      case StepStarted(_) => ""
      case AnswerEvent(_, _) => ""
      case ErrorEvent(_) => ""
      case ModelDelta(_, text) => before + text
      case _ => before
  }

  ghost function ToolsIn(trace: seq<Event>): seq<ToolEvent>
  {
    if trace == [] then []
    else
      var last := trace[|trace| - 1];
      ToolsIn(trace[..|trace| - 1]) + (if last.ToolCallCompleted? then [last.tool] else [])
  }

  ghost function CitationsIn(trace: seq<Event>): seq<Citation>
  {
    if trace == [] then []
    else
      var last := trace[|trace| - 1];
      CitationsIn(trace[..|trace| - 1]) +
      (if last.ToolCallCompleted? && last.tool.citation.Some? then [last.tool.citation.value] else [])
  }

  /** The patch that an event carries, if any. */
  ghost function PatchOf(e: Event): seq<Patch>
  {
    match e
    case GroundingPartial(_, v) => [VerdictPatch(v)]
    case GroundingCompleted(_, ran, sup, unsup, unc, unv, annotated) =>
      if annotated.Some? then [VerdictPatch(Verdict(ran, annotated.value, sup, unsup, unc, unv))] else []
    case _ => []
  }

  /** The verdicts that arrive after the answer, as patches. */
  ghost function PatchesIn(trace: seq<Event>): seq<Patch>
  {
    if trace == [] then [] else PatchesIn(trace[..|trace| - 1]) + PatchOf(trace[|trace| - 1])
  }

  /** The answer of the run and whether its verdicts are still owed. */
  ghost function AnswerIn(trace: seq<Event>): Option<(AgentAnswer, bool)>
  {
    if trace == [] then None
    else
      match trace[|trace| - 1]
      case AnswerEvent(a, pending) => Some((a, pending))
      case _ => AnswerIn(trace[..|trace| - 1])
  }

  ghost predicate NoneRan(ps: seq<Patch>)
  {
    forall i :: 0 <= i < |ps| ==> !ps[i].ran
  }

  // ---------- The invariant ----------

  function Pending(l: Local): Option<Completion>
  {
    StateOf(l.s.hook).completion
  }

  predicate IsUser(c: Conversation, id: NodeId)
  {
    id in c.nodes && c.nodes[id].role.User?
  }

  predicate IsAnswer(c: Conversation, id: NodeId)
  {
    id in c.nodes && c.nodes[id].role.Assistant?
  }

  /** The tree is well formed, no update ever threw, and every id in it has been drawn. */
  ghost predicate TreeOk(l: Local)
  {
    HasTree(l) && !l.s.faulted && Tree(l).nodes.Keys <= l.used && l.s.archived <= l.used && StageKnown(l)
  }

  /** Every accepted submit captured a question that is still there. */
  ghost predicate RunsOk(l: Local)
    requires l.s.tree.Some?
  {
    forall i :: 0 <= i < |l.runs| ==> IsUser(Tree(l), l.runs[i].question)
  }

  ghost predicate PendingOk(l: Local)
    requires l.s.tree.Some?
  {
    Pending(l).Some? ==>
      && l.dirty && l.raw == Pending(l)
      && Pending(l).value.id in l.used - Tree(l).nodes.Keys - l.s.archived
      && l.runs != [] && Pending(l).value.parent == Some(l.runs[|l.runs| - 1].question)
  }

  function PhaseOf(stage: Stage): Phase
  {
    if stage.at.Broken? then Errored else if HasAnswered(stage) then Finished else Running
  }

  /** While a run is in flight, what is shown and buffered is what its events add up to. */
  ghost predicate FlightOk(l: Local)
    requires StageKnown(l)
  {
    InFlight(l) ==>
      && l.runs != []
      && l.s.hook.parent == Some(l.runs[|l.runs| - 1].question)
      && l.s.hook.stream.Some?
      && StateOf(l.s.hook).parentUserNode == Some(l.runs[|l.runs| - 1].question)
      && StateOf(l.s.hook).phase == PhaseOf(StageOf(l))
      && l.s.hook.answer == Some(TextSince(l.trace))
      && StateOf(l.s.hook).streamingAnswer == TextSince(l.trace)
      && l.s.hook.tools == Some(ToolsIn(l.trace))
      && StateOf(l.s.hook).toolEvents == ToolsIn(l.trace)
      && (!HasAnswered(StageOf(l)) ==>
            l.s.hook.citations == Some(CitationsIn(l.trace)) && StateOf(l.s.hook).citations == CitationsIn(l.trace))
      && (l.raw.Some? <==> HasAnswered(StageOf(l)))
      && (Aborted(l) ==> !HasAnswered(StageOf(l)))
  }

  /**
   * An answer, archived or pending, is the answer of one run, and once archived it hangs below
   * that run's question.
   */
  ghost predicate OriginAt(l: Local, a: NodeId)
    requires l.s.tree.Some?
  {
    && (a in l.origin <==> IsAnswer(Tree(l), a) || (Pending(l).Some? && Pending(l).value.id == a))
    && (a in l.origin ==>
          && l.origin[a] < |l.runs| && l.runs[l.origin[a]].answer == Some(a)
          && (IsAnswer(Tree(l), a) ==> Tree(l).nodes[a].parent == Some(l.runs[l.origin[a]].question)))
  }

  ghost predicate OriginOk(l: Local)
    requires l.s.tree.Some?
  {
    && (forall a {:trigger OriginAt(l, a)} :: OriginAt(l, a))
    && (l.raw.Some? ==>
          && l.runs != [] && l.runs[|l.runs| - 1].answer == Some(l.raw.value.id)
          && l.raw.value.id in l.origin && l.origin[l.raw.value.id] == |l.runs| - 1)
    && (l.raw.None? && l.runs != [] ==> l.runs[|l.runs| - 1].answer.None?)
  }

  /** What an answered run produced: its answer, with the tool events and citations gathered on the way. */
  ghost predicate RawOk(l: Local)
    requires StageKnown(l)
  {
    (AnswerIn(l.trace).Some? <==> HasAnswered(StageOf(l))) &&
    (l.raw.Some? && HasAnswered(StageOf(l)) ==>
       var (a, pending) := AnswerIn(l.trace).value;
       var k := l.raw.value;
       && k.content == a.content
       && k.grounding == Grounding(a.supported, a.unsupported, a.uncertain, a.unverifiable, pending, false)
       && k.run == RunInfo(if a.citations != [] then a.citations else CitationsIn(l.trace), ToolsIn(l.trace),
                           a.stopReason, a.loopId, "", "", a.stepCount, a.toolCallCount, a.inputTokens, a.outputTokens))
  }

  ghost predicate LoopFree(l: Local, a: NodeId)
    requires StageKnown(l) && l.s.tree.Some? && IsAnswer(Tree(l), a)
  {
    var loop := Tree(l).nodes[a].role.run.loopId;
    && (loop == "" || loop in l.loops)
    && (loop != "" && loop == StageOf(l).loop ==> l.raw.Some? && l.raw.value.id == a)
  }

  /** Loop ids tell runs apart. */
  ghost predicate LoopsOk(l: Local)
    requires StageKnown(l) && l.s.tree.Some?
  {
    && (StageOf(l).loop == "" ==> StageOf(l).at.Opening? || StageOf(l).at.Broken?)
    && (StageOf(l).loop != "" ==> StageOf(l).loop in l.loops)
    && (l.raw.Some? ==> l.raw.value.run.loopId == if HasAnswered(StageOf(l)) then StageOf(l).loop else "")
    && (HasAnswered(StageOf(l)) ==> StageOf(l).loop != "" && l.raw.Some?)
    && (forall a {:trigger LoopFree(l, a)} :: IsAnswer(Tree(l), a) ==> LoopFree(l, a))
  }

  ghost function LastPatch(l: Local): Patch
    requires PatchesIn(l.trace) != []
  {
    PatchesIn(l.trace)[|PatchesIn(l.trace)| - 1]
  }

  /** The patch on display is the latest of the run, and rendering applies it. */
  ghost predicate PatchOk(l: Local)
    requires StageKnown(l)
  {
    var shown := StateOf(l.s.hook).patch;
    && (shown.None? <==> PatchesIn(l.trace) == [])
    && (shown.Some? ==>
          && shown.value.patch == LastPatch(l) && shown.value.loopId == StageOf(l).loop
          && shown.value.serial < l.s.hook.patches && HasAnswered(StageOf(l)))
    && (l.s.applied.Some? ==> l.s.applied.value < l.s.hook.patches)
    && (!l.dirty && shown.Some? ==> l.s.applied == Some(shown.value.serial))
    && (Pending(l).Some? && shown.Some? ==> l.s.applied != Some(shown.value.serial))
  }

  ghost predicate SameCounts(a: Grounding, b: Grounding)
  {
    a.supported == b.supported && a.unsupported == b.unsupported &&
    a.uncertain == b.uncertain && a.unverifiable == b.unverifiable
  }

  /** How the archived answer of the latest run relates to what the run produced and to its patches. */
  ghost predicate VerdictsOn(l: Local, n: Node)
    requires l.raw.Some?
  {
    && n.role.Assistant? && n.role.run == l.raw.value.run
    && (PatchesIn(l.trace) == [] ==> n.content == l.raw.value.content && n.role.grounding == l.raw.value.grounding)
    && (NoneRan(PatchesIn(l.trace)) ==>
          n.content == l.raw.value.content && SameCounts(n.role.grounding, l.raw.value.grounding))
    && (StateOf(l.s.hook).patch.Some? && l.s.applied == Some(StateOf(l.s.hook).patch.value.serial) ==>
          PatchedNode(n, StateOf(l.s.hook).patch.value.patch) == n)
  }

  ghost predicate VerdictsOk(l: Local)
    requires l.s.tree.Some?
  {
    l.raw.Some? && l.raw.value.id in Tree(l).nodes ==> VerdictsOn(l, Tree(l).nodes[l.raw.value.id])
  }

  ghost predicate Inv(l: Local)
  {
    TreeOk(l) && RunsOk(l) && PendingOk(l) && FlightOk(l) && OriginOk(l) && RawOk(l) && LoopsOk(l) && PatchOk(l) && VerdictsOk(l)
  }
}
