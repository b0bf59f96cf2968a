/**
 * The values that travel between the agent loop and the dashboard: the agent's answer,
 * and the loop events of services/server/wolf_server/agent/events.py.
 */
module ChatTypes {
  import opened Wrappers

  datatype Citation = Citation(tool: string, reference: string)

  datatype ToolEvent = ToolEvent(
    name: string, callId: string, success: bool, citation: Option<Citation>, error: Option<string>)

  datatype StopReason = StopAnswer | StopLoopError | StopInterrupted

  datatype Speaker = SaidByUser | SaidByAssistant

  /** One turn of the linear history that a chat request carries. */
  datatype Turn = Turn(role: Speaker, content: string)

  /** What a run of the agent loop returns, and what its `answer` event carries. */
  datatype AgentAnswer = AgentAnswer(
    content: string, citations: seq<Citation>, stepCount: nat, toolCallCount: nat,
    inputTokens: int, outputTokens: int, stopReason: StopReason, loopId: string,
    supported: Option<nat>, unsupported: Option<nat>, uncertain: Option<nat>, unverifiable: Option<nat>)

  /** One outcome of the grounding validator. */
  datatype Verdict = Verdict(
    ran: bool, annotated: string, supported: nat, unsupported: nat, uncertain: nat, unverifiable: nat)

  datatype Event =
    | LoopStarted(loopId: string)
    | StepStarted(step: nat)
    | ModelDelta(step: nat, text: string)
    | ModelCallCompleted(step: nat, inputTokens: int, outputTokens: int, toolCallCount: nat)
    | ModelCallFailed(step: nat, detail: string)
    | ToolCallStarted(toolName: string, toolCallId: string)
    | ToolCallCompleted(tool: ToolEvent)
    | GroundingStarted(loopId: string)
    | GroundingPartial(loopId: string, verdict: Verdict)
    | GroundingCompleted(loopId: string, ran: bool, supported: nat, unsupported: nat, uncertain: nat,
                         unverifiable: nat, annotated: Option<string>)
    | AnswerEvent(answer: AgentAnswer, pending: bool)
    | ErrorEvent(detail: string)
}
