/**
 * The stream manager of services/dashboard/hooks/use-conversation-streams.ts: dictionaries
 * keyed by conversation, updated in place by each event of each run.
 */
module ConversationStreams {
  import opened Wrappers
  import opened Text
  import opened ChatTypes
  import opened Branches
  import opened StreamSpec

  type ConvoId = nat

  class AbortController {
    var aborted: bool

    constructor ()
      ensures !aborted
    {
      aborted := false;
    }
  }

  function Lookup<T>(m: map<ConvoId, T>, k: ConvoId): Option<T>
  {
    if k in m then Some(m[k]) else None
  }

  class Streams {
    var streams: map<ConvoId, StreamState>
    var controllers: map<ConvoId, AbortController>
    var streamingAnswer: map<ConvoId, string>
    var toolEvents: map<ConvoId, seq<ToolEvent>>
    var citations: map<ConvoId, seq<Citation>>
    var parentUserNode: map<ConvoId, NodeId>
    var patchesMade: map<ConvoId, nat>

    /** No two conversations share a controller. */
    ghost predicate Valid()
      reads this
    {
      forall a, b :: a in controllers && b in controllers && a != b ==> controllers[a] != controllers[b]
    }

    /** What one conversation sees. */
    ghost function View(k: ConvoId): HookView
      reads this, if k in controllers then {controllers[k]} else {}
    {
      HookView(
        Lookup(streams, k),
        if k in controllers then Some(controllers[k].aborted) else None,
        Lookup(streamingAnswer, k), Lookup(toolEvents, k), Lookup(citations, k), Lookup(parentUserNode, k),
        OrElse(Lookup(patchesMade, k), 0))
    }

    constructor ()
      ensures Valid() && fresh(this)
      ensures forall k :: View(k) == EMPTY_VIEW
      ensures controllers == map[]
    {
      streams, controllers, streamingAnswer, toolEvents := map[], map[], map[], map[];
      citations, parentUserNode, patchesMade := map[], map[], map[];
    }

    /** Start a run unless one is on file; the controller of the new run is handed to its caller. */
    method Submit(k: ConvoId, question: string, parent: NodeId) returns (started: AbortController?)
      requires Valid()
      modifies this
      ensures Valid()
      ensures started != null <==> Accepts(old(View(k)), question)
      ensures started != null ==> fresh(started) && !started.aborted && controllers == old(controllers)[k := started]
      ensures started != null ==> k !in old(controllers)
      ensures started == null ==> controllers == old(controllers)
      ensures View(k) == if started != null then Begin(old(View(k)), question, parent) else old(View(k))
      ensures forall j :: j != k ==> View(j) == old(View(j))
    {
      if k in controllers {
        return null;
      }
      var trimmed := Trim(question);
      if trimmed == "" {
        return null;
      }
      started := new AbortController();
      controllers := controllers[k := started];
      streamingAnswer := streamingAnswer[k := ""];
      toolEvents := toolEvents[k := []];
      citations := citations[k := []];
      parentUserNode := parentUserNode[k := parent];
      streams := streams[k := StreamState(Running, None, [], [], None, trimmed, "", Some(parent), None)];
    }

    function Current(k: ConvoId): StreamState
      reads this
    {
      if k in streams then streams[k] else NEUTRAL_STREAM
    }

    method SetPatch(k: ConvoId, loopId: string, p: Patch)
      modifies this`streams, this`patchesMade
      ensures View(k) == WithPatch(old(View(k)), loopId, p)
      ensures forall j :: j != k ==> View(j) == old(View(j))
    {
      var serial := if k in patchesMade then patchesMade[k] else 0;
      streams := streams[k := Current(k).(patch := Some(GroundingPatch(serial, loopId, p)))];
      patchesMade := patchesMade[k := serial + 1];
    }

    /** One server-sent event of the run of conversation `k`. */
    method HandleEvent(k: ConvoId, e: Event, newId: NodeId)
      modifies this`streams, this`streamingAnswer, this`toolEvents, this`citations, this`patchesMade
      ensures View(k) == OnEvent(old(View(k)), e, newId)
      ensures forall j :: j != k ==> View(j) == old(View(j))
    {
      hide AnswerCompletion;
      match e {
        case LoopStarted(_) =>
          streams := streams[k := Current(k).(phase := Running)];
        case StepStarted(_) =>
          streamingAnswer := streamingAnswer[k := ""];
          streams := streams[k := Current(k).(streamingAnswer := "")];
        case ModelDelta(_, text) =>
          HandleDelta(k, text);
        case ToolCallCompleted(tool) =>
          HandleTool(k, tool);
        case GroundingPartial(loopId, v) =>
          SetPatch(k, loopId, VerdictPatch(v));
        case GroundingCompleted(loopId, ran, sup, unsup, unc, unv, annotated) =>
          HandleVerdicts(k, loopId, ran, sup, unsup, unc, unv, annotated);
        case AnswerEvent(a, pending) =>
          HandleAnswer(k, a, pending, newId);
        case ErrorEvent(detail) =>
          streamingAnswer := streamingAnswer[k := ""];
          streams := streams[k := Current(k).(streamingAnswer := "", error := Some(detail), phase := Errored)];
        case _ =>
          streams := streams[k := Current(k)];
      }
    }

    method HandleDelta(k: ConvoId, text: string)
      modifies this`streams, this`streamingAnswer
      ensures View(k) == OnEvent(old(View(k)), ModelDelta(0, text), 0)
      ensures forall j :: j != k ==> View(j) == old(View(j))
    {
      if text != "" {
        streamingAnswer := streamingAnswer[k := (if k in streamingAnswer then streamingAnswer[k] else "") + text];
        streams := streams[k := Current(k).(streamingAnswer := streamingAnswer[k])];
      }
    }

    /** `grounding.completed`: a patch when it carries text, and a touch of the status when the judge ran. */
    method HandleVerdicts(k: ConvoId, loopId: string, ran: bool, sup: nat, unsup: nat, unc: nat, unv: nat,
                          annotated: Option<string>)
      modifies this`streams, this`patchesMade
      ensures View(k) == OnEvent(old(View(k)), GroundingCompleted(loopId, ran, sup, unsup, unc, unv, annotated), 0)
      ensures forall j :: j != k ==> View(j) == old(View(j))
    {
      if annotated.Some? {
        SetPatch(k, loopId, VerdictPatch(Verdict(ran, annotated.value, sup, unsup, unc, unv)));
      }
      if ran {
        streams := streams[k := Current(k)];
      }
    }

    method HandleTool(k: ConvoId, tool: ToolEvent)
      modifies this`streams, this`toolEvents, this`citations
      ensures View(k) == OnEvent(old(View(k)), ToolCallCompleted(tool), 0)
      ensures forall j :: j != k ==> View(j) == old(View(j))
    {
      toolEvents := toolEvents[k := (if k in toolEvents then toolEvents[k] else []) + [tool]];
      if tool.citation.Some? {
        citations := citations[k := (if k in citations then citations[k] else []) + [tool.citation.value]];
      }
      streams := streams[k := Current(k).(toolEvents := toolEvents[k],
                                          citations := if k in citations then citations[k] else [])];
    }

    method HandleAnswer(k: ConvoId, a: AgentAnswer, pending: bool, newId: NodeId)
      modifies this`streams, this`streamingAnswer, this`citations
      ensures View(k) == OnEvent(old(View(k)), AnswerEvent(a, pending), newId)
      ensures forall j :: j != k ==> View(j) == old(View(j))
    {
      ghost var was := View(k);
      var finalCitations := if a.citations != [] then a.citations else if k in citations then citations[k] else [];
      var completed := Completion(
        newId, Lookup(parentUserNode, k), a.content,
        RunInfo(finalCitations, if k in toolEvents then toolEvents[k] else [], a.stopReason, a.loopId, "", "",
                a.stepCount, a.toolCallCount, a.inputTokens, a.outputTokens),
        Grounding(a.supported, a.unsupported, a.uncertain, a.unverifiable, pending, false));
      assert completed == AnswerCompletion(was, a, pending, newId);
      hide AnswerCompletion;
      citations := citations[k := finalCitations];
      streamingAnswer := streamingAnswer[k := ""];
      streams := streams[k := Current(k).(completion := Some(completed), citations := finalCitations,
                                          streamingAnswer := "", phase := Finished)];
    }

    /**
     * The stream of a run has ended. `controller` is the one `Submit` handed out for that run;
     * its entry is removed even if another controller has taken its place.
     */
    method Settle(k: ConvoId, controller: AbortController, ending: Ending, newId: NodeId)
      requires Valid()
      modifies this`streams, this`streamingAnswer, this`controllers
      ensures Valid() && controllers == old(controllers) - {k}
      ensures View(k) == OnSettle(old(View(k)), controller.aborted, ending, newId)
      ensures forall j :: j != k ==> View(j) == old(View(j))
    {
      match ending {
        case StreamEnded =>
        case StreamRejected(message) =>
          if controller.aborted {
            var tools := if k in toolEvents then toolEvents[k] else [];
            var interrupted := Completion(
              newId, Lookup(parentUserNode, k), if k in streamingAnswer then streamingAnswer[k] else "",
              RunInfo(if k in citations then citations[k] else [], tools, StopInterrupted, "", "", "",
                      0, |tools|, 0, 0),
              Grounding(None, None, None, None, false, false));
            streamingAnswer := streamingAnswer[k := ""];
            streams := streams[k := Current(k).(completion := Some(interrupted), streamingAnswer := "",
                                                error := None, phase := Finished)];
          } else {
            streams := streams[k := Current(k).(error := Some(message), phase := Errored)];
          }
      }
      controllers := controllers - {k};
    }

    /** Abort the run on file, if any; the rejection of its stream comes later. */
    method Stop(k: ConvoId)
      requires Valid()
      modifies if k in controllers then {controllers[k]} else {}
      ensures Valid()
      ensures View(k) == OnStop(old(View(k)))
      ensures forall j :: j != k ==> View(j) == old(View(j))
    {
      if k in controllers && !controllers[k].aborted {
        controllers[k].aborted := true;
      }
    }

    /** Forget a conversation, aborting its run first. */
    method Reset(k: ConvoId)
      requires Valid()
      modifies this, if k in controllers then {controllers[k]} else {}
      ensures Valid()
      ensures controllers == old(controllers) - {k}
      ensures k in old(controllers) ==> old(controllers)[k].aborted
      ensures View(k) == OnReset(old(View(k)))
      ensures forall j :: j != k ==> View(j) == old(View(j))
    {
      if k in controllers && !controllers[k].aborted {
        controllers[k].aborted := true;
      }
      controllers := controllers - {k};
      streamingAnswer := streamingAnswer - {k};
      toolEvents := toolEvents - {k};
      citations := citations - {k};
      parentUserNode := parentUserNode - {k};
      streams := streams - {k};
    }

    method ClearCompletion(k: ConvoId)
      modifies this`streams
      ensures View(k) == WithoutCompletion(old(View(k)))
      ensures streams.Keys == old(streams.Keys)
      ensures forall j :: j != k ==> View(j) == old(View(j))
      ensures forall j :: j in streams ==> streams[j].patch == old(streams)[j].patch
      ensures forall j :: j in streams && j != k ==> streams[j] == old(streams)[j]
    {
      if k in streams && streams[k].completion.Some? {
        streams := streams[k := streams[k].(completion := None)];
      }
    }

    /** The conversations shown as running: exactly those whose phase says so. */
    method RunningIds() returns (ids: set<ConvoId>)
      ensures forall k :: k in ids <==> StateOf(View(k)).phase.Running?
    {
      ids := {};
      var todo := streams.Keys;
      while todo != {}
        invariant todo <= streams.Keys
        invariant forall k :: k in ids <==> k in streams && k !in todo && streams[k].phase.Running?
        decreases |todo|
      {
        var k :| k in todo;
        if streams[k].phase.Running? {
          ids := ids + {k};
        }
        todo := todo - {k};
      }
    }
  }
}
