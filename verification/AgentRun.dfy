/**
 * One whole run of the agent loop. A run is described by its log, the tool steps it went
 * through; everything it sends, emits and returns is a function of that log.
 */
module AgentRun {
  import opened Wrappers
  import opened Text
  import opened ChatTypes
  import opened AgentLoop

  datatype Request = Request(question: string, retry: bool, history: seq<Turn>)

  /** A step that called tools: the model's reply and what came of its calls. */
  datatype ToolStep = ToolStep(reply: Reply, done: seq<Executed>)

  type Log = seq<ToolStep>

  datatype Outcome = Returned(answer: AgentAnswer) | Raised(failure: Failure)

  // ---------- The log ----------

  ghost function Init(log: Log): Log
    requires log != []
  {
    log[..|log| - 1]
  }

  ghost function Last(log: Log): ToolStep
    requires log != []
  {
    log[|log| - 1]
  }

  /** The signatures of all calls made so far. */
  ghost function Signatures(log: Log): set<string>
  {
    if log == [] then {} else Signatures(Init(log)) + SignatureSet(Last(log).reply.calls)
  }

  /** The last step only repeated earlier calls. */
  ghost predicate LastRedundant(log: Log)
  {
    log != [] && Redundant(Signatures(Init(log)), Last(log).reply.calls)
  }

  /** How many steps in a row, up to the last one, only repeated earlier calls. */
  ghost function Streak(log: Log): nat
  {
    if LastRedundant(log) then Streak(Init(log)) + 1 else 0
  }

  /** The guards after a tool step let the loop continue. */
  ghost predicate GoesOn(cfg: Config, log: Log)
  {
    log == [] ||
    (&& Streak(log) < MAX_REDUNDANT_STREAK
     && (cfg.stepBreaker > 0 ==> |log| < cfg.stepBreaker)
     && Last(log).reply.inputTokens < cfg.contextFitLimit)
  }

  /** The next step of the log is what the world makes of that step. */
  ghost predicate StepOf(w: World, step: nat, s: ToolStep)
  {
    && CallResult(w.ModelAt(step)) == Ok(s.reply)
    && s.reply.calls != []
    && s.done == Outcomes(w, step, s.reply.calls, |s.reply.calls|)
  }

  /** A log of this world under this configuration: no guard stopped the loop before its last step. */
  ghost predicate IsLog(w: World, cfg: Config, log: Log)
  {
    log != [] ==> IsLog(w, cfg, Init(log)) && GoesOn(cfg, Init(log)) && StepOf(w, |log| - 1, Last(log))
  }

  /** The run ends after this log: a guard stopped it, or the next model call brings no tool calls. */
  ghost predicate Ends(w: World, cfg: Config, log: Log)
  {
    || !GoesOn(cfg, log)
    || CallResult(w.ModelAt(|log|)).Err?
    || CallResult(w.ModelAt(|log|)).value.calls == []
  }

  ghost function ExecutedIn(log: Log): seq<Executed>
  {
    if log == [] then [] else ExecutedIn(Init(log)) + Last(log).done
  }

  ghost function TokensIn(log: Log): int
  {
    if log == [] then 0 else TokensIn(Init(log)) + Last(log).reply.inputTokens
  }

  ghost function TokensOut(log: Log): int
  {
    if log == [] then 0 else TokensOut(Init(log)) + Last(log).reply.outputTokens
  }

  // ---------- The transcript ----------

  ghost function HistoryMessages(history: seq<Turn>): seq<Message>
  {
    if history == [] then []
    else
      var last := history[|history| - 1];
      HistoryMessages(history[..|history| - 1]) +
      (if IsBlank(last.content) then []
       else if last.role.SaidByUser? then [UserMsg(last.content)] else [AssistantMsg(last.content, [])])
  }

  ghost function OpeningTranscript(cfg: Config, req: Request): seq<Message>
  {
    [SystemMsg(cfg.systemPrompt)] + HistoryMessages(req.history) + [QuestionMsg(req.question, req.retry)]
  }

  ghost function StepMessages(s: ToolStep): seq<Message>
  {
    [AssistantMsg(s.reply.content, s.reply.calls), ToolMsg(MessagesFor(s.done))]
  }

  ghost function RepeatNudge(log: Log): seq<Message>
  {
    if LastRedundant(log) && Streak(log) < MAX_REDUNDANT_STREAK then [NudgeMsg(RedundantNudge)] else []
  }

  ghost function Checkpoint(cfg: Config, log: Log): seq<Message>
  {
    if |log| % CheckpointEvery(cfg) == 0 then [NudgeMsg(CheckpointNudge)] else []
  }

  /** The messages when the next step begins. */
  ghost function Transcript(cfg: Config, req: Request, log: Log): seq<Message>
    decreases |log|, 1
  {
    if log == [] then OpeningTranscript(cfg, req)
    else StoppedTranscript(cfg, req, log) + Checkpoint(cfg, log)
  }

  /** The messages when a guard stops the loop after the last step. */
  ghost function StoppedTranscript(cfg: Config, req: Request, log: Log): seq<Message>
    requires log != []
    decreases |log|, 0
  {
    Transcript(cfg, req, Init(log)) + StepMessages(Last(log)) + RepeatNudge(log)
  }

  ghost function StepRequests(cfg: Config, req: Request, log: Log): seq<seq<Message>>
  {
    if log == [] then [] else StepRequests(cfg, req, Init(log)) + [Transcript(cfg, req, Init(log))]
  }

  // ---------- Events ----------

  ghost function StepEvents(w: World, step: nat, s: ToolStep): seq<Event>
  {
    [StepStarted(step)] + CallDeltas(step, w.ModelAt(step)) +
    [ModelCallCompleted(step, s.reply.inputTokens, s.reply.outputTokens, |s.reply.calls|)] +
    ToolEvents(s.done)
  }

  ghost function LogEvents(w: World, log: Log): seq<Event>
  {
    if log == [] then [LoopStarted(w.loopId)]
    else LogEvents(w, Init(log)) + StepEvents(w, |log| - 1, Last(log))
  }

  // ---------- The draft answer ----------

  function Draft(w: World, content: string, citations: seq<Citation>, steps: nat, calls: nat,
                 inTok: int, outTok: int, reason: StopReason): AgentAnswer
  {
    AgentAnswer(content, citations, steps, calls, inTok, outTok, reason, w.loopId, None, None, None, None)
  }

  /** The text of the last assistant message that has any. */
  ghost function LastAssistantText(messages: seq<Message>): string
  {
    if messages == [] then ""
    else
      var last := messages[|messages| - 1];
      if last.AssistantMsg? && last.content != "" then last.content
      else LastAssistantText(messages[..|messages| - 1])
  }

  ghost function SynthesisText(w: World): string
  {
    if w.synthesis.Some? then w.synthesis.value.content else ""
  }

  ghost function SynthesisTokensIn(w: World): int
  {
    if w.synthesis.Some? then w.synthesis.value.inputTokens else 0
  }

  ghost function SynthesisTokensOut(w: World): int
  {
    if w.synthesis.Some? then w.synthesis.value.outputTokens else 0
  }

  ghost function ForcedText(w: World, messages: seq<Message>): string
  {
    if !IsBlank(SynthesisText(w)) then SynthesisText(w)
    else if LastAssistantText(messages) != "" then LastAssistantText(messages)
    else EMPTY_ANSWER_FALLBACK
  }

  ghost function VolunteeredText(w: World, content: string): string
  {
    if !IsBlank(content) then content
    else if !IsBlank(SynthesisText(w)) then SynthesisText(w)
    else EMPTY_ANSWER_FALLBACK
  }

  /** A failed call's message to the analyst; its wording is not modelled. */
  function FailureMessage(f: Failure): string
  {
    match f
    case WolfFailure(message) => "Wolf couldn't complete this request: " + message
    case OtherFailure(kind) => "Wolf couldn't complete this request: " + kind
  }

  /** The detail of a failed call, for the event stream; its wording is not modelled. */
  function FailureDetail(f: Failure): string
  {
    match f
    case WolfFailure(message) => "WolfError: " + message
    case OtherFailure(kind) => kind
  }

  /** The synthesis call is made once, on a forced stop or when the model's answer is blank. */
  ghost predicate Synthesizes(w: World, cfg: Config, log: Log)
    requires Ends(w, cfg, log)
  {
    || !GoesOn(cfg, log)
    || (CallResult(w.ModelAt(|log|)).Ok? && IsBlank(CallResult(w.ModelAt(|log|)).value.content))
  }

  /** The answer before grounding, when the run returns one. */
  ghost function DraftAnswer(w: World, cfg: Config, req: Request, log: Log): AgentAnswer
    requires Ends(w, cfg, log)
  {
    var done := ExecutedIn(log);
    if !GoesOn(cfg, log) then
      Draft(w, ForcedText(w, StoppedTranscript(cfg, req, log)), CitationsOf(done), |log|, |done|,
            TokensIn(log) + SynthesisTokensIn(w), TokensOut(log) + SynthesisTokensOut(w), StopAnswer)
    else
      match CallResult(w.ModelAt(|log|))
      case Err(f) =>
        Draft(w, FailureMessage(f), CitationsOf(done), |log|, |done|, TokensIn(log), TokensOut(log), StopLoopError)
      case Ok(reply) =>
        var extra := if Synthesizes(w, cfg, log) then 1 else 0;
        Draft(w, VolunteeredText(w, reply.content), CitationsOf(done), |log| + 1, |done|,
              TokensIn(log) + reply.inputTokens + extra * SynthesisTokensIn(w),
              TokensOut(log) + reply.outputTokens + extra * SynthesisTokensOut(w), StopAnswer)
  }

  /** Events between the last tool step and the answer. */
  ghost function ClosingEvents(w: World, cfg: Config, log: Log): seq<Event>
    requires Ends(w, cfg, log)
  {
    if !GoesOn(cfg, log) then []
    else
      [StepStarted(|log|)] + CallDeltas(|log|, w.ModelAt(|log|)) +
      match CallResult(w.ModelAt(|log|))
      case Err(f) => [ModelCallFailed(|log|, FailureDetail(f))]
      case Ok(reply) => [ModelCallCompleted(|log|, reply.inputTokens, reply.outputTokens, 0)]
  }

  /** All requests sent to the model, in order, including the synthesis request. */
  ghost function AllRequests(w: World, cfg: Config, req: Request, log: Log): seq<seq<Message>>
    requires Ends(w, cfg, log)
  {
    if !GoesOn(cfg, log) then
      StepRequests(cfg, req, log) + [StoppedTranscript(cfg, req, log) + [NudgeMsg(ForcedNudge)]]
    else
      StepRequests(cfg, req, log) + [Transcript(cfg, req, log)] +
      (if Synthesizes(w, cfg, log) then
         [Transcript(cfg, req, log) +
          [AssistantMsg(CallResult(w.ModelAt(|log|)).value.content, []), NudgeMsg(SynthesisNudge)]]
       else [])
  }

  // ---------- Grounding ----------

  /** Streaming modes mean nothing without an event sink. */
  function EffectiveMode(cfg: Config): string
  {
    if cfg.streaming then cfg.mode else BLOCKING
  }

  predicate AnswersFirst(mode: string)
  {
    mode == DEFERRED || mode == INCREMENTAL
  }

  /** Whether the validator has something to judge and something to judge it by. */
  ghost predicate Grounds(cfg: Config, draft: AgentAnswer, failures: seq<(string, string)>)
  {
    cfg.hasValidator && !IsBlank(draft.content) && (draft.citations != [] || failures != [])
  }

  /** The verdict that counts: the single judgement, or the last snapshot if there is one. */
  ghost function FinalVerdict(w: World, mode: string): Option<Verdict>
  {
    if mode != INCREMENTAL then Some(w.judge)
    else if w.snapshots == [] then None
    else Some(w.snapshots[|w.snapshots| - 1])
  }

  function Annotated(a: AgentAnswer, v: Option<Verdict>): AgentAnswer
  {
    if v.Some? && v.value.ran then
      a.(content := v.value.annotated,
         supported := Some(v.value.supported), unsupported := Some(v.value.unsupported),
         uncertain := Some(v.value.uncertain), unverifiable := Some(v.value.unverifiable))
    else a
  }

  function CompletedEvent(loopId: string, v: Option<Verdict>, late: bool): Event
  {
    match v
    case None => GroundingCompleted(loopId, false, 0, 0, 0, 0, None)
    case Some(r) =>
      GroundingCompleted(loopId, r.ran, r.supported, r.unsupported, r.uncertain, r.unverifiable,
                         if late then Some(r.annotated) else None)
  }

  ghost function PartialEvents(loopId: string, snapshots: seq<Verdict>): seq<Event>
  {
    if snapshots == [] then []
    else
      PartialEvents(loopId, snapshots[..|snapshots| - 1]) +
      [GroundingPartial(loopId, snapshots[|snapshots| - 1])]
  }

  ghost function GroundingEvents(w: World, mode: string, a: AgentAnswer): seq<Event>
  {
    var v := FinalVerdict(w, mode);
    (if AnswersFirst(mode) then [AnswerEvent(a, true)] else []) +
    [GroundingStarted(a.loopId)] +
    (if mode == INCREMENTAL then PartialEvents(a.loopId, w.snapshots) else []) +
    [CompletedEvent(a.loopId, v, AnswersFirst(mode))] +
    (if mode == BLOCKING then [AnswerEvent(Annotated(a, v), false)] else [])
  }

  /** `_emit`: events go nowhere without a callback. */
  function Emit(cfg: Config, events: seq<Event>, e: Event): seq<Event>
  {
    if cfg.streaming then events + [e] else events
  }

  /** `_finalize_answer`: judge the answer and emit it, in the order the mode asks for. */
  method FinalizeAnswer(w: World, cfg: Config, draft: AgentAnswer, failures: seq<(string, string)>)
    returns (final: AgentAnswer, events: seq<Event>)
    ensures final == if Grounds(cfg, draft, failures) then Annotated(draft, FinalVerdict(w, EffectiveMode(cfg))) else draft
    ensures events ==
            if !cfg.streaming then []
            else if Grounds(cfg, draft, failures) then GroundingEvents(w, cfg.mode, draft)
            else [AnswerEvent(draft, false)]
  {
    hide IsBlank, PartialEvents;
    var mode := EffectiveMode(cfg);
    events := [];
    if !cfg.hasValidator || IsBlankText(draft.content) || (draft.citations == [] && failures == []) {
      return draft, Emit(cfg, events, AnswerEvent(draft, false));
    }
    if AnswersFirst(mode) {
      events := Emit(cfg, events, AnswerEvent(draft, true));
    }
    events := Emit(cfg, events, GroundingStarted(draft.loopId));
    var validation: Option<Verdict> := None;
    if mode == INCREMENTAL {
      var partials;
      validation, partials := JudgeInBatches(draft.loopId, w.snapshots);
      events := events + partials;
    } else {
      validation := Some(w.judge);
    }
    events := Emit(cfg, events, CompletedEvent(draft.loopId, validation, AnswersFirst(mode)));
    final := if validation.Some? && validation.value.ran then Annotated(draft, validation) else draft;
    if mode == BLOCKING {
      events := Emit(cfg, events, AnswerEvent(final, false));
    }
  }

  /** Incremental judging: one event per snapshot, the last snapshot counts. Only reached when streaming. */
  method JudgeInBatches(loopId: string, snapshots: seq<Verdict>)
    returns (validation: Option<Verdict>, events: seq<Event>)
    ensures validation == if snapshots == [] then None else Some(snapshots[|snapshots| - 1])
    ensures events == PartialEvents(loopId, snapshots)
  {
    validation, events := None, [];
    for i := 0 to |snapshots|
      invariant validation == if i == 0 then None else Some(snapshots[i - 1])
      invariant events == PartialEvents(loopId, snapshots[..i])
    {
      assert snapshots[..i + 1][..i] == snapshots[..i];
      validation := Some(snapshots[i]);
      events := events + [GroundingPartial(loopId, snapshots[i])];
    }
    assert snapshots[..|snapshots|] == snapshots;
  }

  /** Scan for a character that Python's `strip` would keep. */
  predicate IsBlankText(s: string)
    ensures IsBlankText(s) <==> IsBlank(s)
  {
    s == "" || (IsPySpace(s[0]) && (assert s == [s[0]] + s[1..]; IsBlankText(s[1..])))
  }

  // ---------- The run ----------

  ghost function RunOutcome(w: World, cfg: Config, req: Request, log: Log): Outcome
    requires Ends(w, cfg, log)
  {
    var draft := DraftAnswer(w, cfg, req, log);
    if Fails(w, cfg, log) then
      var f := CallResult(w.ModelAt(|log|)).error;
      if f.WolfFailure? && !cfg.streaming then Raised(f) else Returned(draft)
    else if Grounds(cfg, draft, FailuresOf(ExecutedIn(log))) then
      Returned(Annotated(draft, FinalVerdict(w, EffectiveMode(cfg))))
    else Returned(draft)
  }

  ghost predicate Fails(w: World, cfg: Config, log: Log)
  {
    GoesOn(cfg, log) && CallResult(w.ModelAt(|log|)).Err?
  }

  ghost function RunEvents(w: World, cfg: Config, req: Request, log: Log): seq<Event>
    requires Ends(w, cfg, log)
  {
    var draft := DraftAnswer(w, cfg, req, log);
    if !cfg.streaming then []
    else
      LogEvents(w, log) + ClosingEvents(w, cfg, log) +
      (if !Fails(w, cfg, log) && Grounds(cfg, draft, FailuresOf(ExecutedIn(log))) then GroundingEvents(w, cfg.mode, draft)
       else [AnswerEvent(draft, false)])
  }

  /** One more tool step extends every account by that step. */
  lemma LogStep(cfg: Config, log: Log, s: ToolStep)
    ensures var more := log + [s];
            && more != [] && Init(more) == log && Last(more) == s
            && Signatures(more) == Signatures(log) + SignatureSet(s.reply.calls)
            && (LastRedundant(more) <==> Redundant(Signatures(log), s.reply.calls))
            && Streak(more) == (if LastRedundant(more) then Streak(log) + 1 else 0)
            && ExecutedIn(more) == ExecutedIn(log) + s.done
            && TokensIn(more) == TokensIn(log) + s.reply.inputTokens
            && TokensOut(more) == TokensOut(log) + s.reply.outputTokens
  {
    assert (log + [s])[..|log|] == log;
  }

  /** `_synthesize_final`: one more request, without tools, that never raises. */
  method SynthesizeFinal(w: World, messages: seq<Message>, nudge: Nudge)
    returns (reply: Option<Reply>, prompted: seq<Message>)
    ensures reply == w.synthesis && prompted == messages + [NudgeMsg(nudge)]
  {
    prompted := messages + [NudgeMsg(nudge)];
    reply := w.synthesis;
  }

  /** Search the transcript backwards for assistant text. */
  method FindAssistantText(messages: seq<Message>) returns (text: string)
    ensures text == LastAssistantText(messages)
  {
    var i := |messages|;
    assert messages[..i] == messages;
    while i > 0
      invariant 0 <= i <= |messages|
      invariant LastAssistantText(messages) == LastAssistantText(messages[..i])
    {
      i := i - 1;
      assert messages[..i + 1][..i] == messages[..i];
      if messages[i].AssistantMsg? && messages[i].content != "" {
        return messages[i].content;
      }
    }
    text := "";
  }

  /** `_synthesized_stop`: compose the best answer from what has been gathered. */
  method SynthesizedStop(w: World, cfg: Config, messages: seq<Message>, steps: nat, toolCalls: nat,
                         inTok: int, outTok: int, ev: Evidence)
    returns (answer: AgentAnswer, events: seq<Event>, prompted: seq<Message>)
    ensures prompted == messages + [NudgeMsg(ForcedNudge)]
    ensures var draft := Draft(w, ForcedText(w, messages), ev.citations, steps, toolCalls,
                               inTok + SynthesisTokensIn(w), outTok + SynthesisTokensOut(w), StopAnswer);
            && answer == (if Grounds(cfg, draft, ev.failures) then Annotated(draft, FinalVerdict(w, EffectiveMode(cfg)))
                          else draft)
            && events == (if !cfg.streaming then []
                          else if Grounds(cfg, draft, ev.failures) then GroundingEvents(w, cfg.mode, draft)
                          else [AnswerEvent(draft, false)])
  {
    var forced;
    forced, prompted := SynthesizeFinal(w, messages, ForcedNudge);
    var totalIn, totalOut, content := inTok, outTok, "";
    if forced.Some? {
      totalIn := totalIn + forced.value.inputTokens;
      totalOut := totalOut + forced.value.outputTokens;
      content := forced.value.content;
    }
    if IsBlankText(content) {
      content := FindAssistantText(messages);
      if content == "" {
        content := EMPTY_ANSWER_FALLBACK;
      }
    }
    var draft := Draft(w, content, ev.citations, steps, toolCalls, totalIn, totalOut, StopAnswer);
    answer, events := FinalizeAnswer(w, cfg, draft, ev.failures);
  }

  /** The model replied without tool calls: recover a blank reply once, then finalize. */
  method VolunteeredStop(w: World, cfg: Config, messages: seq<Message>, reply: Reply, steps: nat,
                         toolCalls: nat, inTok: int, outTok: int, ev: Evidence)
    returns (answer: AgentAnswer, events: seq<Event>, asked: seq<seq<Message>>)
    ensures asked == if IsBlank(reply.content) then [messages + [NudgeMsg(SynthesisNudge)]] else []
    ensures var extra := if IsBlank(reply.content) then 1 else 0;
            var draft := Draft(w, VolunteeredText(w, reply.content), ev.citations, steps, toolCalls,
                               inTok + extra * SynthesisTokensIn(w), outTok + extra * SynthesisTokensOut(w), StopAnswer);
            && answer == (if Grounds(cfg, draft, ev.failures) then Annotated(draft, FinalVerdict(w, EffectiveMode(cfg)))
                          else draft)
            && events == (if !cfg.streaming then []
                          else if Grounds(cfg, draft, ev.failures) then GroundingEvents(w, cfg.mode, draft)
                          else [AnswerEvent(draft, false)])
  {
    var totalIn, totalOut, content := inTok, outTok, reply.content;
    asked := [];
    if IsBlankText(content) {
      var retry, prompted := SynthesizeFinal(w, messages, SynthesisNudge);
      asked := [prompted];
      if retry.Some? {
        totalIn := totalIn + retry.value.inputTokens;
        totalOut := totalOut + retry.value.outputTokens;
        if !IsBlankText(retry.value.content) {
          content := retry.value.content;
        }
      }
      if IsBlankText(content) {
        content := EMPTY_ANSWER_FALLBACK;
      }
    }
    var draft := Draft(w, content, ev.citations, steps, toolCalls, totalIn, totalOut, StopAnswer);
    answer, events := FinalizeAnswer(w, cfg, draft, ev.failures);
  }

  /** The messages a run starts from; blank turns of the history are dropped. */
  method OpeningMessages(cfg: Config, req: Request) returns (messages: seq<Message>)
    ensures messages == OpeningTranscript(cfg, req)
  {
    messages := [SystemMsg(cfg.systemPrompt)];
    for i := 0 to |req.history|
      invariant messages == [SystemMsg(cfg.systemPrompt)] + HistoryMessages(req.history[..i])
    {
      assert req.history[..i + 1][..i] == req.history[..i];
      var turn := req.history[i];
      if !IsBlankText(turn.content) {
        messages := messages +
          [if turn.role.SaidByUser? then UserMsg(turn.content) else AssistantMsg(turn.content, [])];
      }
    }
    assert req.history[..|req.history|] == req.history;
    messages := messages + [QuestionMsg(req.question, req.retry)];
  }

  /** A tool step extends the log, the transcript, the events and the requests. */
  lemma StepTaken(w: World, cfg: Config, req: Request, log: Log, s: ToolStep)
    requires IsLog(w, cfg, log) && GoesOn(cfg, log) && StepOf(w, |log|, s)
    ensures var more := log + [s];
            && more != [] && IsLog(w, cfg, more)
            && StoppedTranscript(cfg, req, more) ==
               Transcript(cfg, req, log) + [AssistantMsg(s.reply.content, s.reply.calls)] +
               [ToolMsg(MessagesFor(s.done))] + RepeatNudge(more)
            && Transcript(cfg, req, more) == StoppedTranscript(cfg, req, more) + Checkpoint(cfg, more)
            && StepRequests(cfg, req, more) == StepRequests(cfg, req, log) + [Transcript(cfg, req, log)]
  {
    assert Init(log + [s]) == log;
    assert Transcript(cfg, req, log) + StepMessages(s) ==
           Transcript(cfg, req, log) + [AssistantMsg(s.reply.content, s.reply.calls)] + [ToolMsg(MessagesFor(s.done))];
  }

  ghost function CalledEvents(w: World, step: nat, r: Reply): seq<Event>
  {
    [StepStarted(step)] + CallDeltas(step, w.ModelAt(step)) +
    [ModelCallCompleted(step, r.inputTokens, r.outputTokens, |r.calls|)]
  }

  lemma StepTold(w: World, log: Log, s: ToolStep)
    ensures LogEvents(w, log + [s]) == LogEvents(w, log) + CalledEvents(w, |log|, s.reply) + ToolEvents(s.done)
  {
    assert Init(log + [s]) == log;
    var called := CalledEvents(w, |log|, s.reply);
    assert StepEvents(w, |log|, s) == called + ToolEvents(s.done);
    assert LogEvents(w, log) + (called + ToolEvents(s.done)) == LogEvents(w, log) + called + ToolEvents(s.done);
  }

  /** How many more steps the loop can take, drawing on the signatures of `universe`. */
  ghost function Budget(universe: set<string>, log: Log): int
  {
    2 * |universe - Signatures(log)| + 1 - Streak(log)
  }

  /** A step with a new call uses up a signature; a redundant one uses up the streak. */
  lemma StepProgress(more: Log, universe: set<string>)
    requires more != [] && Signatures(Init(more)) <= universe && SignatureSet(Last(more).reply.calls) <= universe
    ensures Signatures(more) <= universe
    ensures Streak(Init(more)) < MAX_REDUNDANT_STREAK ==> Budget(universe, more) < Budget(universe, Init(more))
  {
    var log := Init(more);
    var was, now := universe - Signatures(log), universe - Signatures(more);
    assert now <= was;
    if !LastRedundant(more) {
      var novel :| novel in SignatureSet(Last(more).reply.calls) && novel !in Signatures(log);
      assert novel in was && novel !in now;
      SmallerSet(now, was, novel);
    } else {
      assert Signatures(more) == Signatures(log);
    }
  }

  lemma SmallerSet(a: set<string>, b: set<string>, x: string)
    requires a <= b && x in b && x !in a
    ensures |a| < |b|
  {
    assert a <= b - {x};
    SubsetSize(a, b - {x});
  }

  lemma {:induction false} SubsetSize(a: set<string>, b: set<string>)
    requires a <= b
    ensures |a| <= |b|
    decreases a
  {
    if a != {} {
      var x :| x in a;
      SubsetSize(a - {x}, b - {x});
    }
  }

  lemma EndedByFailure(w: World, cfg: Config, req: Request, log: Log)
    requires GoesOn(cfg, log) && CallResult(w.ModelAt(|log|)).Err?
    ensures Ends(w, cfg, log)
    ensures var f := CallResult(w.ModelAt(|log|)).error;
            var draft := Draft(w, FailureMessage(f), CitationsOf(ExecutedIn(log)), |log|, |ExecutedIn(log)|,
                               TokensIn(log), TokensOut(log), StopLoopError);
            && RunOutcome(w, cfg, req, log) == (if f.WolfFailure? && !cfg.streaming then Raised(f) else Returned(draft))
            && RunEvents(w, cfg, req, log) ==
               (if !cfg.streaming then []
                else LogEvents(w, log) + ([StepStarted(|log|)] + CallDeltas(|log|, w.ModelAt(|log|)) + []) +
                     [ModelCallFailed(|log|, FailureDetail(f)), AnswerEvent(draft, false)])
            && AllRequests(w, cfg, req, log) == StepRequests(cfg, req, log) + [Transcript(cfg, req, log)]
  {
    var f := CallResult(w.ModelAt(|log|)).error;
    var draft := DraftAnswer(w, cfg, req, log);
    var called := [StepStarted(|log|)] + CallDeltas(|log|, w.ModelAt(|log|));
    assert LogEvents(w, log) + (called + [ModelCallFailed(|log|, FailureDetail(f))]) + [AnswerEvent(draft, false)] ==
           LogEvents(w, log) + (called + []) + [ModelCallFailed(|log|, FailureDetail(f)), AnswerEvent(draft, false)];
  }

  lemma EndedByAnswer(w: World, cfg: Config, req: Request, log: Log,
                      answer: AgentAnswer, tail: seq<Event>, asked: seq<seq<Message>>)
    requires GoesOn(cfg, log) && CallResult(w.ModelAt(|log|)).Ok? && CallResult(w.ModelAt(|log|)).value.calls == []
    requires Ends(w, cfg, log)
    requires var draft := DraftAnswer(w, cfg, req, log);
             var failures := FailuresOf(ExecutedIn(log));
             && answer == (if Grounds(cfg, draft, failures) then Annotated(draft, FinalVerdict(w, EffectiveMode(cfg)))
                           else draft)
             && tail == (if !cfg.streaming then []
                         else if Grounds(cfg, draft, failures) then GroundingEvents(w, cfg.mode, draft)
                         else [AnswerEvent(draft, false)])
    requires var reply := CallResult(w.ModelAt(|log|)).value;
             asked == if IsBlank(reply.content)
                      then [Transcript(cfg, req, log) + [AssistantMsg(reply.content, [])] + [NudgeMsg(SynthesisNudge)]]
                      else []
    ensures RunOutcome(w, cfg, req, log) == Returned(answer)
    ensures var reply := CallResult(w.ModelAt(|log|)).value;
            RunEvents(w, cfg, req, log) ==
            if !cfg.streaming then []
            else LogEvents(w, log) +
                 ([StepStarted(|log|)] + CallDeltas(|log|, w.ModelAt(|log|)) +
                  [ModelCallCompleted(|log|, reply.inputTokens, reply.outputTokens, 0)]) + tail
    ensures AllRequests(w, cfg, req, log) == StepRequests(cfg, req, log) + [Transcript(cfg, req, log)] + asked
  {
    var reply := CallResult(w.ModelAt(|log|)).value;
    assert Transcript(cfg, req, log) + [AssistantMsg(reply.content, [])] + [NudgeMsg(SynthesisNudge)] ==
           Transcript(cfg, req, log) + [AssistantMsg(reply.content, []), NudgeMsg(SynthesisNudge)];
  }

  lemma EndedByGuard(w: World, cfg: Config, req: Request, log: Log, answer: AgentAnswer, tail: seq<Event>)
    requires !GoesOn(cfg, log)
    requires Ends(w, cfg, log)
    requires var draft := DraftAnswer(w, cfg, req, log);
             var failures := FailuresOf(ExecutedIn(log));
             && answer == (if Grounds(cfg, draft, failures) then Annotated(draft, FinalVerdict(w, EffectiveMode(cfg)))
                           else draft)
             && tail == (if !cfg.streaming then []
                         else if Grounds(cfg, draft, failures) then GroundingEvents(w, cfg.mode, draft)
                         else [AnswerEvent(draft, false)])
    ensures RunOutcome(w, cfg, req, log) == Returned(answer)
    ensures RunEvents(w, cfg, req, log) == if !cfg.streaming then [] else LogEvents(w, log) + tail
    ensures AllRequests(w, cfg, req, log) ==
            StepRequests(cfg, req, log) + [StoppedTranscript(cfg, req, log) + [NudgeMsg(ForcedNudge)]]
  {
    assert LogEvents(w, log) + [] == LogEvents(w, log);
  }

  /** Every model call of the world, at any step, names only signatures of `universe`. */
  ghost predicate DrawsFrom(w: World, universe: set<string>)
  {
    forall i: nat {:trigger w.ModelAt(i)} :: CallResult(w.ModelAt(i)).Ok? ==>
      SignatureSet(CallResult(w.ModelAt(i)).value.calls) <= universe
  }

  /** One model call with the events around it. */
  method OneCall(w: World, cfg: Config, step: nat) returns (result: Result<Reply, Failure>, events: seq<Event>)
    ensures result == CallResult(w.ModelAt(step))
    ensures events ==
            if !cfg.streaming then []
            else [StepStarted(step)] + CallDeltas(step, w.ModelAt(step)) +
                 match result
                 case Err(f) => []
                 case Ok(r) => [ModelCallCompleted(step, r.inputTokens, r.outputTokens, |r.calls|)]
  {
    events := Emit(cfg, [], StepStarted(step));
    var arrived;
    result, arrived := ChatOrStream(w.ModelAt(step), step, cfg.streaming);
    events := events + arrived;
    if result.Ok? {
      events := Emit(cfg, events, ModelCallCompleted(step, result.value.inputTokens, result.value.outputTokens, |result.value.calls|));
    }
  }

  /** `_fail_gracefully`, and the re-raise that replaces it when nobody is listening. */
  method FailGracefully(w: World, cfg: Config, f: Failure, step: nat, ev: Evidence, toolCalls: nat,
                        inTok: int, outTok: int, sofar: seq<Event>)
    returns (out: Outcome, events: seq<Event>)
    requires !cfg.streaming ==> sofar == []
    ensures var draft := Draft(w, FailureMessage(f), ev.citations, step, toolCalls, inTok, outTok, StopLoopError);
            && out == (if f.WolfFailure? && !cfg.streaming then Raised(f) else Returned(draft))
            && events == (if !cfg.streaming then []
                          else sofar + [ModelCallFailed(step, FailureDetail(f)), AnswerEvent(draft, false)])
  {
    if f.WolfFailure? && !cfg.streaming {
      return Raised(f), [];
    }
    events := Emit(cfg, sofar, ModelCallFailed(step, FailureDetail(f)));
    var answer := Draft(w, FailureMessage(f), ev.citations, step, toolCalls, inTok, outTok, StopLoopError);
    events := Emit(cfg, events, AnswerEvent(answer, false));
    out := Returned(answer);
  }

  /** The local variables of a run between steps. */
  datatype Progress = Progress(
    messages: seq<Message>, ev: Evidence, toolCalls: nat, inTok: int, outTok: int,
    signatures: map<string, nat>, streak: nat, events: seq<Event>, requests: seq<seq<Message>>)

  /** The accounts kept so far are those of the log. */
  ghost predicate Accounts(w: World, cfg: Config, log: Log, p: Progress)
  {
    && p.ev == EvidenceOf(ExecutedIn(log))
    && p.toolCalls == |ExecutedIn(log)|
    && p.inTok == TokensIn(log) && p.outTok == TokensOut(log)
    && p.signatures.Keys == Signatures(log) && (forall s :: s in p.signatures ==> p.signatures[s] > 0)
    && p.streak == Streak(log)
    && p.events == if cfg.streaming then LogEvents(w, log) else []
  }

  /** The state at the head of the loop. */
  ghost predicate AtHead(w: World, cfg: Config, req: Request, log: Log, p: Progress)
  {
    && IsLog(w, cfg, log) && GoesOn(cfg, log)
    && Accounts(w, cfg, log, p)
    && p.messages == Transcript(cfg, req, log)
    && p.requests == StepRequests(cfg, req, log)
  }

  /** The state right after a step's tool calls, before the guards. */
  ghost predicate AfterTools(w: World, cfg: Config, req: Request, log: Log, p: Progress)
  {
    && log != [] && IsLog(w, cfg, log)
    && Accounts(w, cfg, log, p)
    && p.messages + RepeatNudge(log) == StoppedTranscript(cfg, req, log)
    && p.requests == StepRequests(cfg, req, log)
  }

  ghost predicate Concludes(w: World, cfg: Config, req: Request, log: Log,
                            out: Outcome, events: seq<Event>, requests: seq<seq<Message>>)
  {
    && IsLog(w, cfg, log) && Ends(w, cfg, log)
    && out == RunOutcome(w, cfg, req, log)
    && events == (if out.Returned? then RunEvents(w, cfg, req, log) else [])
    && requests == AllRequests(w, cfg, req, log)
  }

  /** The part of a step that runs the tool calls of a reply. */
  method RunTools(w: World, cfg: Config, req: Request, step: nat, reply: Reply, p: Progress,
                  called: seq<Event>, ghost log: Log)
    returns (q: Progress, ghost more: Log)
    requires AtHead(w, cfg, req, log, p) && step == |log|
    requires CallResult(w.ModelAt(step)) == Ok(reply) && reply.calls != []
    requires called == if cfg.streaming then CalledEvents(w, step, reply) else []
    ensures |more| == |log| + 1 && Init(more) == log && Last(more).reply == reply
    ensures AfterTools(w, cfg, req, more, q)
  {
    hide IsLog, Transcript, StoppedTranscript, LogEvents, StepRequests, Streak, Signatures, ExecutedIn,
      TokensIn, TokensOut, RepeatNudge, GoesOn, EvidenceOf, LastRedundant, Redundant, SignatureSet,
      MessagesFor, ToolEvents, CalledEvents, Outcomes, CallResult;
    var ev, signatures, hasNew, results, told :=
      DispatchCalls(w, step, reply.calls, cfg.streaming, p.ev, p.signatures, ExecutedIn(log));
    assert reply.calls[..|reply.calls|] == reply.calls;
    ghost var s := ToolStep(reply, Outcomes(w, step, reply.calls, |reply.calls|));
    LogStep(cfg, log, s);
    StepTaken(w, cfg, req, log, s);
    StepTold(w, log, s);
    more := log + [s];
    q := Progress(
      p.messages + [AssistantMsg(reply.content, reply.calls)] + [ToolMsg(results)],
      ev, p.toolCalls + |reply.calls|, p.inTok + reply.inputTokens, p.outTok + reply.outputTokens,
      signatures, if hasNew then 0 else p.streak + 1, p.events + called + told, p.requests + [p.messages]);
  }

  /** The guards after a tool step: either a forced stop, or nudges and on to the next step. */
  method CheckGuards(w: World, cfg: Config, req: Request, p: Progress, reply: Reply, steps: nat, ghost log: Log)
    returns (stopped: bool, q: Progress, out: Outcome)
    requires AfterTools(w, cfg, req, log, p) && steps == |log| && reply == Last(log).reply
    ensures !stopped ==> AtHead(w, cfg, req, log, q)
    ensures stopped ==> Concludes(w, cfg, req, log, out, q.events, q.requests)
  {
    hide IsLog, LogEvents, StepRequests, Signatures, ExecutedIn, TokensIn, TokensOut, EvidenceOf, Concludes, RunOutcome,
      RunEvents, AllRequests, LastRedundant;
    q := p;
    if p.streak >= MAX_REDUNDANT_STREAK {
      assert RepeatNudge(log) == [];
      assert p.messages + [] == p.messages;
      out, q := ForceStop(w, cfg, req, q, steps, log);
      return true, q, out;
    }
    if p.streak > 0 {
      q := q.(messages := q.messages + [NudgeMsg(RedundantNudge)]);
    } else {
      assert p.messages + [] == p.messages;
    }
    assert q.messages == StoppedTranscript(cfg, req, log);
    if (cfg.stepBreaker > 0 && steps >= cfg.stepBreaker) || reply.inputTokens >= cfg.contextFitLimit {
      out, q := ForceStop(w, cfg, req, q, steps, log);
      return true, q, out;
    }
    if steps % CheckpointEvery(cfg) == 0 {
      q := q.(messages := q.messages + [NudgeMsg(CheckpointNudge)]);
    } else {
      assert q.messages + [] == q.messages;
    }
    out := Raised(OtherFailure(""));
    stopped := false;
  }

  method ForceStop(w: World, cfg: Config, req: Request, p: Progress, steps: nat, ghost log: Log)
    returns (out: Outcome, q: Progress)
    requires log != [] && IsLog(w, cfg, log) && !GoesOn(cfg, log) && steps == |log|
    requires Accounts(w, cfg, log, p) && p.requests == StepRequests(cfg, req, log)
    requires p.messages == StoppedTranscript(cfg, req, log)
    ensures Concludes(w, cfg, req, log, out, q.events, q.requests)
  {
    hide IsLog, Transcript, StoppedTranscript, LogEvents, StepRequests, Streak, Signatures, ExecutedIn,
      TokensIn, TokensOut, RunOutcome, RunEvents, AllRequests;
    var answer, tail, asked := SynthesizedStop(w, cfg, p.messages, steps, p.toolCalls, p.inTok, p.outTok, p.ev);
    EndedByGuard(w, cfg, req, log, answer, tail);
    out := Returned(answer);
    q := p.(events := p.events + tail, requests := p.requests + [asked]);
  }

  /** A step whose model call failed, or came back without tool calls: the run is over. */
  method Conclude(w: World, cfg: Config, req: Request, result: Result<Reply, Failure>, p: Progress,
                  called: seq<Event>, step: nat, ghost log: Log)
    returns (out: Outcome, events: seq<Event>, requests: seq<seq<Message>>)
    requires AtHead(w, cfg, req, log, p) && step == |log|
    requires result == CallResult(w.ModelAt(step)) && (result.Ok? ==> result.value.calls == [])
    requires called ==
             if !cfg.streaming then []
             else [StepStarted(step)] + CallDeltas(step, w.ModelAt(step)) +
                  match result
                  case Err(f) => []
                  case Ok(r) => [ModelCallCompleted(step, r.inputTokens, r.outputTokens, 0)]
    ensures Concludes(w, cfg, req, log, out, events, requests)
  {
    hide IsLog, Transcript, StoppedTranscript, LogEvents, StepRequests, Streak, Signatures, ExecutedIn,
      TokensIn, TokensOut, RunOutcome, RunEvents, AllRequests;
    requests := p.requests + [p.messages];
    events := p.events + called;
    match result {
      case Err(f) =>
        EndedByFailure(w, cfg, req, log);
        out, events := FailGracefully(w, cfg, f, step, p.ev, p.toolCalls, p.inTok, p.outTok, events);
      case Ok(reply) =>
        var answer, tail, asked :=
          VolunteeredStop(w, cfg, p.messages + [AssistantMsg(reply.content, [])], reply, step + 1, p.toolCalls,
                          p.inTok + reply.inputTokens, p.outTok + reply.outputTokens, p.ev);
        EndedByAnswer(w, cfg, req, log, answer, tail, asked);
        out, events, requests := Returned(answer), events + tail, requests + asked;
    }
  }

  lemma HeadStreak(w: World, cfg: Config, req: Request, log: Log, p: Progress, universe: set<string>)
    requires AtHead(w, cfg, req, log, p)
    ensures Streak(log) < MAX_REDUNDANT_STREAK && Budget(universe, log) >= 0
    ensures cfg.stepBreaker > 0 ==> |log| < cfg.stepBreaker
  {
  }

  lemma StartsAtHead(w: World, cfg: Config, req: Request, p: Progress)
    requires p == Progress(OpeningTranscript(cfg, req), NO_EVIDENCE, 0, 0, 0, map[], 0,
                           if cfg.streaming then [LoopStarted(w.loopId)] else [], [])
    ensures AtHead(w, cfg, req, [], p) && Signatures([]) == {}
  {
  }

  /**
   * `AgentLoop.run`. There is no step ceiling: the loop ends when the model answers or fails, or
   * a guard stops it. What it returns, emits and asks is determined by one log of the world. It
   * terminates under an operator's breaker, or when the ghost `universe` bounds the signatures
   * that the model ever uses; nothing else depends on either.
   */
  method Run(w: World, cfg: Config, req: Request, ghost universe: set<string>)
    returns (out: Outcome, events: seq<Event>, requests: seq<seq<Message>>)
    requires cfg.stepBreaker > 0 || DrawsFrom(w, universe)
    ensures exists log :: Concludes(w, cfg, req, log, out, events, requests)
  {
    hide IsLog, AtHead, Accounts, Transcript, StoppedTranscript, LogEvents, StepRequests, Signatures, ExecutedIn,
      TokensIn, TokensOut, RepeatNudge, EvidenceOf, Concludes, RunOutcome, RunEvents, AllRequests, CallResult,
      CallDeltas, GoesOn, SignatureSet, Streak, Budget, LastRedundant, AfterTools, OpeningTranscript;
    ghost var log: Log := [];
    var messages := OpeningMessages(cfg, req);
    var p := Progress(messages, NO_EVIDENCE, 0, 0, 0, map[], 0, Emit(cfg, [], LoopStarted(w.loopId)), []);
    StartsAtHead(w, cfg, req, p);
    var step := 0;
    while true
      invariant step == |log|
      invariant AtHead(w, cfg, req, log, p)
      invariant DrawsFrom(w, universe) ==> Signatures(log) <= universe
      decreases if cfg.stepBreaker > 0 then cfg.stepBreaker - step else Budget(universe, log)
    {
      HeadStreak(w, cfg, req, log, p, universe);
      var result, called := OneCall(w, cfg, step);
      if result.Err? || result.value.calls == [] {
        out, events, requests := Conclude(w, cfg, req, result, p, called, step, log);
        return;
      }
      p, log := RunTools(w, cfg, req, step, result.value, p, called, log);
      if DrawsFrom(w, universe) {
        StepProgress(log, universe);
      }
      step := step + 1;
      var stopped;
      stopped, p, out := CheckGuards(w, cfg, req, p, result.value, step, log);
      if stopped {
        return out, p.events, p.requests;
      }
    }
  }
}
