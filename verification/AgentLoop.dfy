/**
 * The plan-act-observe loop of services/server/wolf_server/agent/loop.py. The model, the tools,
 * the synthesis call and the grounding validator are oracles: a `World` fixes what each of them
 * does in one run, and nothing is assumed about it.
 */
module AgentLoop {
  import opened Wrappers
  import opened ChatTypes

  // ---------- The world outside the loop ----------

  /** `arguments` is the canonical JSON text of the call's arguments. */
  datatype ToolCall = ToolCall(id: string, name: string, arguments: string)

  datatype Reply = Reply(content: string, calls: seq<ToolCall>, inputTokens: int, outputTokens: int)

  datatype Failure = WolfFailure(message: string) | OtherFailure(kind: string)

  datatype StreamItem = Delta(text: string) | Done(reply: Reply)

  /** One call of the provider: a stream that may break off, or a blocking call. */
  datatype ModelCall =
    | Streamed(items: seq<StreamItem>, failure: Option<Failure>)
    | Blocking(result: Result<Reply, Failure>)

  /** A non-empty tool result. */
  datatype Payload = Payload(
    citation: Option<Citation>, citations: seq<Citation>, hits: seq<string>, body: string)

  datatype Dispatch = Dispatch(
    toolName: string, toolCallId: string, success: bool, result: Option<Payload>, error: Option<string>)

  /**
   * `model(i)` is what the i-th step's model call does, `tool(i, j)` what the j-th tool call of
   * that step does, `synthesis` what the re-prompt without tools does (absent when it fails),
   * and `judge` and `snapshots` what the validator reports.
   */
  datatype World = World(
    loopId: string,
    model: nat -> ModelCall,
    tool: (nat, nat) -> Dispatch,
    synthesis: Option<Reply>,
    judge: Verdict,
    snapshots: seq<Verdict>)
  {
    function ModelAt(step: nat): ModelCall
    {
      model(step)
    }

    function ToolAt(step: nat, j: nat): Dispatch
    {
      tool(step, j)
    }
  }

  datatype Config = Config(
    systemPrompt: string, stepBudget: int, stepBreaker: int, contextFitLimit: int,
    hasValidator: bool, mode: string, streaming: bool)

  const MAX_REDUNDANT_STREAK := 2
  const RUNBOOK := "query_runbook"
  const BLOCKING := "blocking"
  const DEFERRED := "deferred"
  const INCREMENTAL := "incremental"
  const EMPTY_ANSWER_FALLBACK :=
    "I gathered the data but wasn't" + " able to compose a summary on this attempt. " +
    "Please ask again or rephrase your question."

  datatype Nudge = SynthesisNudge | RedundantNudge | CheckpointNudge | ForcedNudge

  datatype ToolResult = ToolResult(callId: string, name: string, content: Option<Payload>, error: Option<string>)

  datatype Message =
    | SystemMsg(prompt: string)
    | UserMsg(text: string)
    | QuestionMsg(question: string, retry: bool)
    | NudgeMsg(nudge: Nudge)
    | AssistantMsg(content: string, calls: seq<ToolCall>)
    | ToolMsg(results: seq<ToolResult>)

  function CheckpointEvery(cfg: Config): nat
    ensures CheckpointEvery(cfg) >= 1
  {
    if cfg.stepBudget < 1 then 1 else cfg.stepBudget
  }

  // ---------- One model call ----------

  ghost function DeltaEvents(step: nat, items: seq<StreamItem>): seq<Event>
  {
    if items == [] then []
    else
      var last := items[|items| - 1];
      DeltaEvents(step, items[..|items| - 1]) +
      (if last.Delta? && last.text != "" then [ModelDelta(step, last.text)] else [])
  }

  ghost function LastDone(items: seq<StreamItem>): Option<Reply>
  {
    if items == [] then None
    else
      var last := items[|items| - 1];
      if last.Done? then Some(last.reply) else LastDone(items[..|items| - 1])
  }

  ghost function CallResult(call: ModelCall): Result<Reply, Failure>
  {
    match call
    case Blocking(result) => result
    case Streamed(items, failure) =>
      if failure.Some? then Err(failure.value)
      else if LastDone(items).Some? then Ok(LastDone(items).value)
      else Err(OtherFailure("RuntimeError"))
  }

  ghost function CallDeltas(step: nat, call: ModelCall): seq<Event>
  {
    if call.Streamed? then DeltaEvents(step, call.items) else []
  }

  /** `_chat_or_stream`: forward the deltas and hand back the assembled reply. */
  method ChatOrStream(call: ModelCall, step: nat, streaming: bool)
    returns (result: Result<Reply, Failure>, events: seq<Event>)
    ensures result == CallResult(call)
    ensures events == if streaming then CallDeltas(step, call) else []
  {
    events := [];
    match call {
      case Blocking(r) =>
        result := r;
      case Streamed(items, failure) =>
        var response: Option<Reply> := None;
        for i := 0 to |items|
          invariant response == LastDone(items[..i])
          invariant events == if streaming then DeltaEvents(step, items[..i]) else []
        {
          assert items[..i + 1][..i] == items[..i];
          match items[i] {
            case Delta(text) =>
              if text != "" && streaming {
                events := events + [ModelDelta(step, text)];
              }
            case Done(reply) =>
              response := Some(reply);
          }
        }
        assert items[..|items|] == items;
        if failure.Some? {
          result := Err(failure.value);
        } else if response.None? {
          result := Err(OtherFailure("RuntimeError"));
        } else {
          result := Ok(response.value);
        }
    }
  }

  // ---------- One step's tool calls ----------

  function Signature(call: ToolCall): string
  {
    call.name + ":" + call.arguments
  }

  ghost function SignatureSet(calls: seq<ToolCall>): set<string>
  {
    if calls == [] then {} else SignatureSet(calls[..|calls| - 1]) + {Signature(calls[|calls| - 1])}
  }

  /** A tool call together with what came of it. */
  datatype Executed = Executed(call: ToolCall, outcome: Dispatch)

  /** What the run has gathered for the answer and for the grounding validator. */
  datatype Evidence = Evidence(
    citations: seq<Citation>, results: seq<(string, Payload)>, chunks: seq<string>,
    failures: seq<(string, string)>)

  const NO_EVIDENCE := Evidence([], [], [], [])

  predicate Succeeded(d: Dispatch)
  {
    d.success && d.result.Some?
  }

  function ErrorText(d: Dispatch): string
  {
    if d.error.Some? && d.error.value != "" then d.error.value else "tool call failed"
  }

  function ResultFor(x: Executed): ToolResult
  {
    if Succeeded(x.outcome) then ToolResult(x.call.id, x.call.name, x.outcome.result, None)
    else ToolResult(x.call.id, x.call.name, None, Some(ErrorText(x.outcome)))
  }

  /** `_summarize_dispatch_result`. */
  function Summary(d: Dispatch): ToolEvent
  {
    ToolEvent(d.toolName, d.toolCallId, d.success,
              if d.result.Some? then d.result.value.citation else None,
              if d.error.Some? && d.error.value != "" then d.error else None)
  }

  ghost function CitationsOf(done: seq<Executed>): seq<Citation>
  {
    if done == [] then []
    else
      var d := done[|done| - 1].outcome;
      CitationsOf(done[..|done| - 1]) +
      (if !Succeeded(d) then []
       else (if d.result.value.citation.Some? then [d.result.value.citation.value] else []) + d.result.value.citations)
  }

  ghost function ResultsOf(done: seq<Executed>): seq<(string, Payload)>
  {
    if done == [] then []
    else
      var x := done[|done| - 1];
      ResultsOf(done[..|done| - 1]) +
      (if Succeeded(x.outcome) && x.call.name != RUNBOOK then [(x.call.name, x.outcome.result.value)] else [])
  }

  ghost function ChunksOf(done: seq<Executed>): seq<string>
  {
    if done == [] then []
    else
      var x := done[|done| - 1];
      ChunksOf(done[..|done| - 1]) +
      (if Succeeded(x.outcome) && x.call.name == RUNBOOK then x.outcome.result.value.hits else [])
  }

  ghost function FailuresOf(done: seq<Executed>): seq<(string, string)>
  {
    if done == [] then []
    else
      var x := done[|done| - 1];
      FailuresOf(done[..|done| - 1]) +
      (if Succeeded(x.outcome) then [] else [(x.call.name, ErrorText(x.outcome))])
  }

  ghost function EvidenceOf(done: seq<Executed>): Evidence
  {
    Evidence(CitationsOf(done), ResultsOf(done), ChunksOf(done), FailuresOf(done))
  }

  ghost function MessagesFor(done: seq<Executed>): seq<ToolResult>
  {
    if done == [] then [] else MessagesFor(done[..|done| - 1]) + [ResultFor(done[|done| - 1])]
  }

  function CallEvents(x: Executed): seq<Event>
  {
    [ToolCallStarted(x.call.name, x.call.id), ToolCallCompleted(Summary(x.outcome))]
  }

  ghost function ToolEvents(done: seq<Executed>): seq<Event>
  {
    if done == [] then []
    else
      var x := done[|done| - 1];
      ToolEvents(done[..|done| - 1]) + CallEvents(x)
  }

  /** The first `n` calls of a step, each with its outcome. */
  ghost function Outcomes(w: World, step: nat, calls: seq<ToolCall>, n: nat): (done: seq<Executed>)
    requires n <= |calls|
    ensures |done| == n
  {
    if n == 0 then [] else Outcomes(w, step, calls, n - 1) + [Executed(calls[n - 1], w.ToolAt(step, n - 1))]
  }

  /** Every call of the step repeats one made before the step. */
  ghost predicate Redundant(seen: set<string>, calls: seq<ToolCall>)
  {
    SignatureSet(calls) <= seen
  }

  /** File one outcome under the right kind of evidence. */
  method RecordOutcome(x: Executed, ev: Evidence, ghost before: seq<Executed>) returns (r: Evidence)
    requires ev == EvidenceOf(before)
    ensures r == EvidenceOf(before + [x])
  {
    assert (before + [x])[..|before|] == before;
    r := ev;
    var d := x.outcome;
    if d.success && d.result.Some? {
      var p := d.result.value;
      if p.citation.Some? {
        r := r.(citations := r.citations + [p.citation.value]);
      }
      r := r.(citations := r.citations + p.citations);
      assert r.citations == CitationsOf(before + [x]);
      if x.call.name == RUNBOOK {
        r := r.(chunks := r.chunks + p.hits);
      } else {
        r := r.(results := r.results + [(x.call.name, p)]);
      }
    } else {
      r := r.(failures := r.failures + [(x.call.name, ErrorText(d))]);
    }
  }

  /** The first `j` calls are counted, and `hasNew` tells whether one of them was new when counted. */
  ghost predicate Counted(calls: seq<ToolCall>, j: nat, seen: set<string>, counted: map<string, nat>, hasNew: bool)
    requires j <= |calls|
  {
    && counted.Keys == seen + SignatureSet(calls[..j])
    && (forall s :: s in counted ==> counted[s] > 0)
    && (hasNew <==> !Redundant(seen, calls[..j]))
  }

  /** Count one more call; a signature not counted before is new. */
  method CountCall(calls: seq<ToolCall>, j: nat, counted: map<string, nat>, hasNew: bool, ghost seen: set<string>)
    returns (r: map<string, nat>, anyNew: bool)
    requires j < |calls| && Counted(calls, j, seen, counted, hasNew)
    ensures Counted(calls, j + 1, seen, r, anyNew)
  {
    SignatureStep(seen, calls, j);
    hide SignatureSet, Redundant;
    var signature := Signature(calls[j]);
    var times := if signature in counted then counted[signature] else 0;
    anyNew := hasNew || times == 0;
    r := counted[signature := times + 1];
  }

  /** Run one tool call between its two events, and file what came of it. */
  method DispatchCall(w: World, step: nat, calls: seq<ToolCall>, j: nat, streaming: bool, ev: Evidence,
                      sofar: seq<ToolResult>, emitted: seq<Event>, ghost before: seq<Executed>)
    returns (gathered: Evidence, results: seq<ToolResult>, events: seq<Event>)
    requires j < |calls|
    requires ev == EvidenceOf(before + Outcomes(w, step, calls, j))
    requires sofar == MessagesFor(Outcomes(w, step, calls, j))
    requires emitted == if streaming then ToolEvents(Outcomes(w, step, calls, j)) else []
    ensures gathered == EvidenceOf(before + Outcomes(w, step, calls, j + 1))
    ensures results == MessagesFor(Outcomes(w, step, calls, j + 1))
    ensures events == if streaming then ToolEvents(Outcomes(w, step, calls, j + 1)) else []
  {
    var call := calls[j];
    events := emitted;
    if streaming {
      events := events + [ToolCallStarted(call.name, call.id)];
    }
    var outcome := w.ToolAt(step, j);
    if streaming {
      events := events + [ToolCallCompleted(Summary(outcome))];
    }
    var x := Executed(call, outcome);
    OutcomesNext(w, step, calls, j);
    OutcomeStep(before, Outcomes(w, step, calls, j), x);
    hide Outcomes, EvidenceOf, MessagesFor, ToolEvents;
    gathered := RecordOutcome(x, ev, before + Outcomes(w, step, calls, j));
    results := sofar + [ResultFor(x)];
  }

  /** The dispatch loop of one step. */
  method DispatchCalls(w: World, step: nat, calls: seq<ToolCall>, streaming: bool,
                       ev: Evidence, seen: map<string, nat>, ghost before: seq<Executed>)
    returns (gathered: Evidence, counted: map<string, nat>, hasNew: bool,
             results: seq<ToolResult>, events: seq<Event>)
    requires ev == EvidenceOf(before)
    requires forall s :: s in seen ==> seen[s] > 0
    ensures gathered == EvidenceOf(before + Outcomes(w, step, calls, |calls|))
    ensures Counted(calls, |calls|, seen.Keys, counted, hasNew)
    ensures results == MessagesFor(Outcomes(w, step, calls, |calls|))
    ensures events == if streaming then ToolEvents(Outcomes(w, step, calls, |calls|)) else []
  {
    gathered, counted, hasNew, results, events := ev, seen, false, [], [];
    NothingDispatched(w, step, calls, seen, before);
    hide Counted, Outcomes, EvidenceOf, MessagesFor, ToolEvents;
    for j := 0 to |calls|
      invariant gathered == EvidenceOf(before + Outcomes(w, step, calls, j))
      invariant Counted(calls, j, seen.Keys, counted, hasNew)
      invariant results == MessagesFor(Outcomes(w, step, calls, j))
      invariant events == if streaming then ToolEvents(Outcomes(w, step, calls, j)) else []
    {
      counted, hasNew := CountCall(calls, j, counted, hasNew, seen.Keys);
      gathered, results, events := DispatchCall(w, step, calls, j, streaming, gathered, results, events, before);
    }
  }

  lemma NothingDispatched(w: World, step: nat, calls: seq<ToolCall>, seen: map<string, nat>, before: seq<Executed>)
    requires forall s :: s in seen ==> seen[s] > 0
    ensures before + Outcomes(w, step, calls, 0) == before
    ensures Counted(calls, 0, seen.Keys, seen, false)
    ensures MessagesFor(Outcomes(w, step, calls, 0)) == [] && ToolEvents(Outcomes(w, step, calls, 0)) == []
  {
  }

  lemma OutcomesNext(w: World, step: nat, calls: seq<ToolCall>, j: nat)
    requires j < |calls|
    ensures Outcomes(w, step, calls, j + 1) == Outcomes(w, step, calls, j) + [Executed(calls[j], w.ToolAt(step, j))]
  {
  }

  lemma OutcomeStep(before: seq<Executed>, done: seq<Executed>, x: Executed)
    ensures (before + done) + [x] == before + (done + [x])
    ensures MessagesFor(done + [x]) == MessagesFor(done) + [ResultFor(x)]
    ensures ToolEvents(done + [x]) ==
            ToolEvents(done) + CallEvents(x)
  {
    assert (done + [x])[..|done|] == done;
  }

  /** A step has a new call exactly when one of its calls is new at the moment it is counted. */
  lemma SignatureStep(seen: set<string>, calls: seq<ToolCall>, j: nat)
    requires j < |calls|
    ensures seen + SignatureSet(calls[..j + 1]) == (seen + SignatureSet(calls[..j])) + {Signature(calls[j])}
    ensures !Redundant(seen, calls[..j + 1]) <==>
            !Redundant(seen, calls[..j]) || Signature(calls[j]) !in seen + SignatureSet(calls[..j])
  {
    assert calls[..j + 1][..j] == calls[..j];
  }
}
