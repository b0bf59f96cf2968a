/** What a run streams, event by event, said of its log and of the world. */
module AgentEvents {
  import opened Wrappers
  import opened ChatTypes
  import opened AgentLoop
  import opened AgentRun
  import opened AgentLaws
  import opened AgentFacts
  import opened AgentConduct

  /** The text that a model call streams. */
  ghost function StreamedText(call: ModelCall): string
  {
    if call.Streamed? then TextOf(call.items) else ""
  }

  /** One model call on the stream: its announcement, its text, and how it ended. */
  ghost predicate ShowsCall(w: World, k: nat, ending: Event, events: seq<Event>)
  {
    && |events| >= 2 && events[0] == StepStarted(k) && events[|events| - 1] == ending
    && (forall i :: 0 < i < |events| - 1 ==> events[i].ModelDelta? && events[i].step == k)
    && TextSent(events[1..|events| - 1]) == StreamedText(w.model(k))
  }

  /** The tool calls of a step on the stream, each announced and then reported as it went. */
  ghost predicate ShowsTools(w: World, k: nat, calls: seq<ToolCall>, events: seq<Event>)
  {
    && |events| == 2 * |calls|
    && forall c :: 0 <= c < |calls| ==>
         && events[2 * c] == ToolCallStarted(calls[c].name, calls[c].id)
         && events[2 * c + 1].ToolCallCompleted? && Summarizes(w.tool(k, c), events[2 * c + 1].tool)
  }

  lemma DeltasShow(w: World, k: nat)
    ensures TextSent(CallDeltas(k, w.model(k))) == StreamedText(w.model(k))
    ensures forall i :: 0 <= i < |CallDeltas(k, w.model(k))| ==>
              CallDeltas(k, w.model(k))[i].ModelDelta? && CallDeltas(k, w.model(k))[i].step == k
  {
    if w.model(k).Streamed? {
      DeltasSpellTheText(k, w.model(k).items);
    }
  }

  lemma CallIsShown(w: World, k: nat, ending: Event)
    ensures ShowsCall(w, k, ending, [StepStarted(k)] + CallDeltas(k, w.model(k)) + [ending])
  {
    DeltasShow(w, k);
    hide CallDeltas, TextSent, StreamedText;
    var deltas := CallDeltas(k, w.model(k));
    var events := [StepStarted(k)] + deltas + [ending];
    assert events[1..|events| - 1] == deltas;
  }

  lemma ToolsAreShown(w: World, k: nat, s: ToolStep)
    requires StepOf(w, k, s)
    ensures ShowsTools(w, k, s.reply.calls, ToolEvents(s.done))
  {
    var n := |s.reply.calls|;
    ToolEventsAt(w, k, s.reply.calls, n, 0);
    hide ToolEvents, Summarizes, Outcomes;
    forall c: nat | c < n
      ensures var events := ToolEvents(s.done);
              && events[2 * c] == ToolCallStarted(s.reply.calls[c].name, s.reply.calls[c].id)
              && events[2 * c + 1].ToolCallCompleted? && Summarizes(w.tool(k, c), events[2 * c + 1].tool)
    {
      ToolEventsAt(w, k, s.reply.calls, n, c);
    }
  }

  /** A run's events begin with its loop id; then each tool step shows its call, with the tokens of the reply, and its tools. */
  lemma StepEventsExactly(w: World, cfg: Config, log: Log, i: nat)
    requires IsLog(w, cfg, log) && i < |log|
    ensures LogEvents(w, []) == [LoopStarted(w.loopId)]
    ensures var r := log[i].reply;
            exists call, tools ::
              && ShowsCall(w, i, ModelCallCompleted(i, r.inputTokens, r.outputTokens, |r.calls|), call)
              && ShowsTools(w, i, r.calls, tools)
              && LogEvents(w, log[..i + 1]) == LogEvents(w, log[..i]) + (call + tools)
  {
    PrefixGoesOn(w, cfg, log, i);
    var upto, r := log[..i + 1], log[i].reply;
    assert Init(upto) == log[..i] && Last(upto) == log[i];
    var ending := ModelCallCompleted(i, r.inputTokens, r.outputTokens, |r.calls|);
    CallIsShown(w, i, ending);
    ToolsAreShown(w, i, log[i]);
    hide ShowsCall, ShowsTools, CallDeltas, ToolEvents, StepOf, GoesOn;
    var call, tools := [StepStarted(i)] + CallDeltas(i, w.model(i)) + [ending], ToolEvents(log[i].done);
    assert LogEvents(w, upto) == LogEvents(w, log[..i]) + (call + tools);
  }

  /** Then comes the last model call, if it was no tool step: with the tokens of its reply, or how it failed. */
  lemma LastCallExactly(w: World, cfg: Config, log: Log)
    requires Ends(w, cfg, log)
    ensures Halted(cfg, log) ==> ClosingEvents(w, cfg, log) == []
    ensures !Halted(cfg, log) ==>
              var call, k := CallResult(w.model(|log|)), |log|;
              ShowsCall(w, k,
                        if call.Ok? then ModelCallCompleted(k, call.value.inputTokens, call.value.outputTokens, 0)
                        else ModelCallFailed(k, FailureDetail(call.error)),
                        ClosingEvents(w, cfg, log))
  {
    GoesOnExactly(cfg, log);
    hide ShowsCall, CallDeltas, Halted, GoesOn;
    if !Halted(cfg, log) {
      var call, k := CallResult(w.model(|log|)), |log|;
      var ending := if call.Ok? then ModelCallCompleted(k, call.value.inputTokens, call.value.outputTokens, 0)
                    else ModelCallFailed(k, FailureDetail(call.error));
      CallIsShown(w, k, ending);
      assert ClosingEvents(w, cfg, log) == [StepStarted(k)] + CallDeltas(k, w.model(k)) + [ending];
    }
  }

  /** What a run emits once its draft is there: the judging in the order its mode asks for, or the draft alone. */
  ghost function Tail(w: World, cfg: Config, req: Request, log: Log): seq<Event>
    requires Ends(w, cfg, log)
  {
    if Validates(w, cfg, req, log) then GroundingEvents(w, cfg.mode, DraftAnswer(w, cfg, req, log))
    else [AnswerEvent(DraftAnswer(w, cfg, req, log), false)]
  }

  lemma RunEventsParts(w: World, cfg: Config, req: Request, log: Log)
    requires Ends(w, cfg, log)
    ensures cfg.streaming ==> RunEvents(w, cfg, req, log) == LogEvents(w, log) + ClosingEvents(w, cfg, log) + Tail(w, cfg, req, log)
    ensures !cfg.streaming ==> RunEvents(w, cfg, req, log) == []
  {
    hide DraftAnswer, LogEvents, ClosingEvents, GroundingEvents;
  }

  /** The verdicts on the stream: what the validator said, and its text when the answer has gone out before. */
  function Completed(loop: string, v: Verdict, text: Option<string>): Event
  {
    GroundingCompleted(loop, v.ran, v.supported, v.unsupported, v.uncertain, v.unverifiable, text)
  }

  /** What a run that is judged emits after its last model call, mode by mode. */
  lemma JudgingExactly(w: World, cfg: Config, req: Request, log: Log)
    requires Ends(w, cfg, log) && cfg.streaming && Validates(w, cfg, req, log)
    ensures var tail, d, loop := Tail(w, cfg, req, log), DraftAnswer(w, cfg, req, log), w.loopId;
            && (cfg.mode == "blocking" ==>
                  RunOutcome(w, cfg, req, log).Returned? &&
                  tail == [GroundingStarted(loop), Completed(loop, w.judge, None),
                           AnswerEvent(RunOutcome(w, cfg, req, log).answer, false)])
            && (cfg.mode == "deferred" ==>
                  tail == [AnswerEvent(d, true), GroundingStarted(loop), Completed(loop, w.judge, Some(w.judge.annotated))])
            && (cfg.mode == "incremental" && w.snapshots == [] ==>
                  tail == [AnswerEvent(d, true), GroundingStarted(loop),
                           GroundingCompleted(loop, false, 0, 0, 0, 0, None)])
  {
    DraftLoop(w, cfg, req, log);
    hide DraftAnswer, LogEvents, ClosingEvents, CallResult, GoesOn, Ends;
  }

  lemma DraftLoop(w: World, cfg: Config, req: Request, log: Log)
    requires Ends(w, cfg, log)
    ensures DraftAnswer(w, cfg, req, log).loopId == w.loopId
  {
  }

  /** In incremental mode every snapshot is sent as it comes, and the last once more at the end. */
  lemma SnapshotsSentExactly(w: World, cfg: Config, req: Request, log: Log)
    requires Ends(w, cfg, log) && cfg.streaming && Validates(w, cfg, req, log)
    requires cfg.mode == "incremental" && w.snapshots != []
    ensures var tail, loop, n := Tail(w, cfg, req, log), w.loopId, |w.snapshots|;
            && |tail| == n + 3
            && tail[0] == AnswerEvent(DraftAnswer(w, cfg, req, log), true) && tail[1] == GroundingStarted(loop)
            && (forall i :: 0 <= i < n ==> tail[i + 2] == GroundingPartial(loop, w.snapshots[i]))
            && tail[n + 2] == Completed(loop, w.snapshots[n - 1], Some(w.snapshots[n - 1].annotated))
  {
    hide DraftAnswer, PartialEvents, GroundingEvents, Ends, Validates;
    DraftLoop(w, cfg, req, log);
    PartialsExactly(w.loopId, w.snapshots);
    var d, v := DraftAnswer(w, cfg, req, log), w.snapshots[|w.snapshots| - 1];
    var partials := PartialEvents(w.loopId, w.snapshots);
    IncrementalEvents(w, d);
    Framed([AnswerEvent(d, true), GroundingStarted(w.loopId)], partials, Completed(w.loopId, v, Some(v.annotated)));
  }

  lemma IncrementalEvents(w: World, d: AgentAnswer)
    requires w.snapshots != []
    ensures var v := w.snapshots[|w.snapshots| - 1];
            GroundingEvents(w, "incremental", d) ==
            [AnswerEvent(d, true), GroundingStarted(d.loopId)] + PartialEvents(d.loopId, w.snapshots) +
            [Completed(d.loopId, v, Some(v.annotated))]
  {
    hide PartialEvents;
  }

  lemma Framed(first: seq<Event>, middle: seq<Event>, last: Event)
    ensures var all, n, k := first + middle + [last], |first|, |middle|;
            && |all| == n + k + 1 && all[n + k] == last
            && (forall i :: 0 <= i < n ==> all[i] == first[i])
            && (forall i :: 0 <= i < k ==> all[i + n] == middle[i])
  {
  }

  lemma {:induction false} PartialsExactly(loop: string, vs: seq<Verdict>)
    ensures |PartialEvents(loop, vs)| == |vs|
    ensures forall i :: 0 <= i < |vs| ==> PartialEvents(loop, vs)[i] == GroundingPartial(loop, vs[i])
  {
    if vs != [] {
      PartialsExactly(loop, vs[..|vs| - 1]);
    }
  }
}
