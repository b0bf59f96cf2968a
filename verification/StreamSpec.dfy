/**
 * What one conversation sees of the stream manager and of the shell: its stream state, its
 * working buffers, its tree, and the effect of every event, effect and user action on them.
 */
module StreamSpec {
  import opened Wrappers
  import opened Sequences
  import opened Text
  import opened ChatTypes
  import opened Branches

  datatype Phase = Idle | Running | Finished | Errored

  /** `serial` stands for the identity of the patch object: no two patches of a conversation share it. */
  datatype GroundingPatch = GroundingPatch(serial: nat, loopId: string, patch: Patch)

  /** The assistant half of a finished run, waiting to be archived. */
  datatype Completion = Completion(
    id: NodeId, parent: Option<NodeId>, content: string, run: RunInfo, grounding: Grounding)

  datatype StreamState = StreamState(
    phase: Phase,
    completion: Option<Completion>,
    toolEvents: seq<ToolEvent>,
    citations: seq<Citation>,
    error: Option<string>,
    question: string,
    streamingAnswer: string,
    parentUserNode: Option<NodeId>,
    patch: Option<GroundingPatch>)

  const NEUTRAL_STREAM := StreamState(Idle, None, [], [], None, "", "", None, None)

  /** How the awaited stream of a run ends. */
  datatype Ending = StreamEnded | StreamRejected(message: string)

  /**
   * One conversation's share of the stream manager. `controller` is the abort flag of the
   * controller on file, absent when no run is on file.
   */
  datatype HookView = HookView(
    stream: Option<StreamState>,
    controller: Option<bool>,
    answer: Option<string>,
    tools: Option<seq<ToolEvent>>,
    citations: Option<seq<Citation>>,
    parent: Option<NodeId>,
    patches: nat)

  const EMPTY_VIEW := HookView(None, None, None, None, None, None, 0)

  function OrElse<T>(o: Option<T>, default: T): T
  {
    if o.Some? then o.value else default
  }

  function StateOf(h: HookView): StreamState
  {
    OrElse(h.stream, NEUTRAL_STREAM)
  }

  // ---------- The stream manager ----------

  predicate Accepts(h: HookView, question: string)
  {
    h.controller.None? && Trim(question) != ""
  }

  function Begin(h: HookView, question: string, parent: NodeId): HookView
  {
    h.(controller := Some(false), answer := Some(""), tools := Some([]), citations := Some([]),
       parent := Some(parent),
       stream := Some(StreamState(Running, None, [], [], None, Trim(question), "", Some(parent), None)))
  }

  function AnswerCompletion(h: HookView, a: AgentAnswer, pending: bool, id: NodeId): Completion
  {
    Completion(
      id, h.parent, a.content,
      RunInfo(if a.citations != [] then a.citations else OrElse(h.citations, []),
              OrElse(h.tools, []), a.stopReason, a.loopId, "", "",
              a.stepCount, a.toolCallCount, a.inputTokens, a.outputTokens),
      Grounding(a.supported, a.unsupported, a.uncertain, a.unverifiable, pending, false))
  }

  function InterruptedCompletion(h: HookView, id: NodeId): Completion
  {
    var tools := OrElse(h.tools, []);
    Completion(
      id, h.parent, OrElse(h.answer, ""),
      RunInfo(OrElse(h.citations, []), tools, StopInterrupted, "", "", "", 0, |tools|, 0, 0),
      Grounding(None, None, None, None, false, false))
  }

  /** A verdict as a patch of the answer it judges. */
  function VerdictPatch(v: Verdict): Patch
  {
    Patch(v.ran, v.annotated, v.supported, v.unsupported, v.uncertain, v.unverifiable)
  }

  function WithPatch(h: HookView, loopId: string, p: Patch): HookView
  {
    h.(stream := Some(StateOf(h).(patch := Some(GroundingPatch(h.patches, loopId, p)))), patches := h.patches + 1)
  }

  /** `newId` is the random node id drawn when the event is an answer. */
  function OnEvent(h: HookView, e: Event, newId: NodeId): HookView
  {
    var s := StateOf(h);
    match e
    case LoopStarted(_) => h.(stream := Some(s.(phase := Running)))
    case StepStarted(_) => h.(answer := Some(""), stream := Some(s.(streamingAnswer := "")))
    case ModelDelta(_, text) =>
      if text == "" then h
      else
        var next := OrElse(h.answer, "") + text;
        h.(answer := Some(next), stream := Some(s.(streamingAnswer := next)))
    case ToolCallCompleted(tool) =>
      var tools := OrElse(h.tools, []) + [tool];
      var cites := if tool.citation.Some? then Some(OrElse(h.citations, []) + [tool.citation.value]) else h.citations;
      h.(tools := Some(tools), citations := cites,
         stream := Some(s.(toolEvents := tools, citations := OrElse(cites, []))))
    case GroundingPartial(loopId, v) =>
      WithPatch(h, loopId, VerdictPatch(v))
    case GroundingCompleted(loopId, ran, sup, unsup, unc, unv, annotated) =>
      if annotated.Some? then WithPatch(h, loopId, VerdictPatch(Verdict(ran, annotated.value, sup, unsup, unc, unv)))
      else if ran then h.(stream := Some(s))
      else h
    case AnswerEvent(a, pending) =>
      var done := AnswerCompletion(h, a, pending, newId);
      h.(citations := Some(done.run.citations), answer := Some(""),
         stream := Some(s.(completion := Some(done), citations := done.run.citations,
                           streamingAnswer := "", phase := Finished)))
    case ErrorEvent(detail) =>
      h.(answer := Some(""), stream := Some(s.(streamingAnswer := "", error := Some(detail), phase := Errored)))
    case _ => h.(stream := Some(s))
  }

  /** The end of a submitted run: the catch branch if the stream was rejected, then `finally`. */
  function OnSettle(h: HookView, aborted: bool, ending: Ending, newId: NodeId): HookView
  {
    var s := StateOf(h);
    var caught :=
      match ending
      case StreamEnded => h
      case StreamRejected(message) =>
        if aborted then
          h.(answer := Some(""),
             stream := Some(s.(completion := Some(InterruptedCompletion(h, newId)), streamingAnswer := "",
                               error := None, phase := Finished)))
        else h.(stream := Some(s.(error := Some(message), phase := Errored)));
    caught.(controller := None)
  }

  function OnStop(h: HookView): HookView
  {
    if h.controller.Some? then h.(controller := Some(true)) else h
  }

  function OnReset(h: HookView): HookView
  {
    HookView(None, None, None, None, None, None, h.patches)
  }

  function WithoutCompletion(h: HookView): HookView
  {
    if h.stream.Some? && h.stream.value.completion.Some?
    then h.(stream := Some(h.stream.value.(completion := None)))
    else h
  }

  // ---------- The shell ----------

  /**
   * One conversation's share of the shell. `tree` is absent when the conversation is not in
   * the list; `faulted` records that a state update of this conversation threw.
   */
  datatype Slice = Slice(
    tree: Option<Conversation>, faulted: bool, hook: HookView, archived: set<NodeId>, applied: Option<nat>)

  function WithTree(s: Slice, r: TreeResult): Slice
  {
    match r
    case Ok(c) => s.(tree := Some(c))
    case Err(_) => s.(faulted := true)
  }

  /** The updater that the archive effect queues. */
  function ArchiveInto(c: Conversation, k: Completion): TreeResult
  {
    if k.parent.None? || k.parent.value !in c.nodes || !c.nodes[k.parent.value].role.User? then Ok(c)
    else AppendChildOf(c, k.parent, MakeAssistantNode(k.id, k.parent.value, k.content, k.run, k.grounding))
  }

  function ArchiveTree(s: Slice, k: Completion): Slice
  {
    if s.tree.None? then s else WithTree(s, ArchiveInto(s.tree.value, k))
  }

  /** The archive effect, for one conversation. */
  function Archive(s: Slice): Slice
  {
    var done := StateOf(s.hook).completion;
    if s.hook.stream.None? || done.None? || done.value.id in s.archived then s
    else
      ArchiveTree(s, done.value).(archived := s.archived + {done.value.id}, hook := WithoutCompletion(s.hook))
  }

  predicate IsAnswerOf(c: Conversation, id: NodeId, loopId: string)
  {
    id in c.nodes && c.nodes[id].role.Assistant? && c.nodes[id].role.run.loopId == loopId
  }

  /** The first assistant node, in enumeration order, that carries the loop id. */
  function FindByLoop(c: Conversation, ids: seq<NodeId>, loopId: string): Option<NodeId>
  {
    if ids == [] then None
    else if IsAnswerOf(c, ids[0], loopId) then Some(ids[0])
    else FindByLoop(c, ids[1..], loopId)
  }

  /** The updater that the grounding effect queues. */
  function GroundInto(c: Conversation, p: GroundingPatch): Conversation
  {
    var found := FindByLoop(c, c.order, p.loopId);
    if found.None? then c else UpdateAssistantGrounding(c, found.value, p.patch)
  }

  function GroundTree(s: Slice, p: GroundingPatch): Slice
  {
    if s.tree.None? then s else s.(tree := Some(GroundInto(s.tree.value, p)))
  }

  /** The grounding effect, for one conversation. */
  function Ground(s: Slice): Slice
  {
    var p := StateOf(s.hook).patch;
    if s.hook.stream.None? || p.None? || s.applied == Some(p.value.serial) then s
    else GroundTree(s, p.value).(applied := Some(p.value.serial))
  }

  /** A render with its effects: first the archive effect, then the grounding effect. */
  function Flush(s: Slice): Slice
  {
    Ground(Archive(s))
  }

  function Submitted(s: Slice, question: string, parent: NodeId): Slice
  {
    if Accepts(s.hook, question) then s.(hook := Begin(s.hook, question, parent)) else s
  }

  predicate IsRunning(s: Slice)
  {
    StateOf(s.hook).phase.Running?
  }

  /** A fresh question below the visible leaf. */
  ghost function SubmitTurn(s: Slice, question: string, id: NodeId): Slice
    requires s.tree.Some? ==> Acyclic(s.tree.value)
  {
    if Trim(question) == "" || s.tree.None? || IsRunning(s) then s
    else
      var leaf := LastId(ActiveIds(s.tree.value));
      var grown := WithTree(s, AppendChildOf(s.tree.value, leaf, MakeUserNode(id, leaf, Trim(question))));
      Submitted(grown, Trim(question), id)
  }

  /** Another version of an earlier question. */
  function EditTurn(s: Slice, target: NodeId, question: string, id: NodeId): Slice
  {
    if s.tree.None? || IsRunning(s) || target !in s.tree.value.nodes
       || !s.tree.value.nodes[target].role.User? || Trim(question) == "" then s
    else
      var parent := s.tree.value.nodes[target].parent;
      var forked := WithTree(s, Fork(s.tree.value, target, MakeUserNode(id, parent, Trim(question))));
      Submitted(forked, Trim(question), id)
  }

  /** The user message an assistant message answers, when there is one. */
  function QuestionOf(c: Conversation, target: NodeId): Option<NodeId>
  {
    if target !in c.nodes || !c.nodes[target].role.Assistant? then None
    else
      var p := c.nodes[target].parent;
      if p.None? || p.value !in c.nodes || !c.nodes[p.value].role.User? then None else p
  }

  /** Another answer to an earlier question; its node is added when the run is archived. */
  function RetryTurn(s: Slice, target: NodeId): Slice
  {
    if s.tree.None? || IsRunning(s) || QuestionOf(s.tree.value, target).None? then s
    else
      var q := QuestionOf(s.tree.value, target).value;
      Submitted(s, s.tree.value.nodes[q].content, q)
  }

  function SwitchTurn(s: Slice, current: NodeId, sibling: NodeId): Slice
  {
    if s.tree.None? then s else WithTree(s, SwitchToSibling(s.tree.value, current, sibling))
  }

  ghost function SurfaceTurn(s: Slice, target: NodeId): Slice
    requires s.tree.Some? ==> Acyclic(s.tree.value)
  {
    if s.tree.None? then s else s.(tree := Some(PathSelected(s.tree.value, target)))
  }

  /** A conversation after it was deleted. */
  function Deleted(s: Slice): Slice
  {
    s.(tree := None, faulted := false, hook := OnReset(s.hook))
  }

  /** The same once the run that was on file at the delete, if any, has noticed that it was aborted. */
  function DeletedAndSettled(s: Slice, ending: Ending, newId: NodeId): Slice
  {
    if s.hook.controller.None? then Deleted(s)
    else Deleted(s).(hook := OnSettle(OnReset(s.hook), true, ending, newId))
  }

  // ---------- The thread view ----------

  /** The nodes shown: the path, cut after the question being answered while a run is in flight. */
  ghost function VisibleIds(s: Slice): seq<NodeId>
    requires s.tree.Some? ==> Acyclic(s.tree.value)
  {
    if s.tree.None? then []
    else
      var path := ActiveIds(s.tree.value);
      if !IsRunning(s) then path
      else if StateOf(s.hook).parentUserNode.None? then []
      else
        Through(path, StateOf(s.hook).parentUserNode.value)
  }
}
