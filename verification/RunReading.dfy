/** What the events of a server run say to a reader, compared with the answer the run returns. */
module RunReading {
  import opened Wrappers
  import opened ChatTypes
  import opened Branches
  import opened StreamSpec
  import opened Trace
  import opened AgentLoop
  import opened AgentRun
  import opened AgentLaws
  import opened AgentFacts
  import opened AgentConduct
  import opened AgentEvents
  import opened ClientRun
  import opened ClientInvariant
  import opened ClientLaws
  import opened LateVerdicts

  lemma {:induction false} PatchesConcat(a: seq<Event>, b: seq<Event>)
    ensures PatchesIn(a + b) == PatchesIn(a) + PatchesIn(b)
  {
    if b == [] {
      assert a + b == a;
    } else {
      var init, e := b[..|b| - 1], b[|b| - 1];
      assert a + b == (a + init) + [e] && b == init + [e];
      PatchesConcat(a, init);
      PatchesStep(a + init, e);
      PatchesStep(init, e);
    }
  }

  lemma {:induction false} AnswerConcat(a: seq<Event>, b: seq<Event>)
    ensures AnswerIn(a + b) == if AnswerIn(b).Some? then AnswerIn(b) else AnswerIn(a)
  {
    if b == [] {
      assert a + b == a;
    } else {
      var init, e := b[..|b| - 1], b[|b| - 1];
      assert a + b == (a + init) + [e] && b == init + [e];
      AnswerConcat(a, init);
      AnswerStep(a + init, e);
      AnswerStep(init, e);
    }
  }

  /** Before the answer there is nothing to read: no answer and no verdict meant for it. */
  lemma {:induction false} QuietBeforeAnswer(trace: seq<Event>)
    requires Fits(trace)
    ensures AnswerIn(trace).Some? <==> HasAnswered(After(START, trace).value)
    ensures !HasAnswered(After(START, trace).value) ==> PatchesIn(trace) == []
  {
    if trace != [] {
      var init, e := trace[..|trace| - 1], trace[|trace| - 1];
      QuietBeforeAnswer(init);
      AnsweredStays(After(START, init).value, e);
      PatchesFollowAnswer(After(START, init).value, e);
      assert trace == init + [e];
      PatchesStep(init, e);
    }
  }

  ghost function PatchesFor(vs: seq<Verdict>): (ps: seq<Patch>)
    ensures |ps| == |vs|
  {
    if vs == [] then [] else PatchesFor(vs[..|vs| - 1]) + [VerdictPatch(vs[|vs| - 1])]
  }

  lemma {:induction false} PatchesForAt(vs: seq<Verdict>)
    ensures forall i :: 0 <= i < |vs| ==> PatchesFor(vs)[i] == VerdictPatch(vs[i])
  {
    if vs != [] {
      PatchesForAt(vs[..|vs| - 1]);
    }
  }

  lemma {:induction false} PartialPatches(loop: string, vs: seq<Verdict>)
    ensures PatchesIn(PartialEvents(loop, vs)) == PatchesFor(vs)
    ensures AnswerIn(PartialEvents(loop, vs)).None?
  {
    if vs != [] {
      var init, v := vs[..|vs| - 1], vs[|vs| - 1];
      PartialPatches(loop, init);
      PatchesStep(PartialEvents(loop, init), GroundingPartial(loop, v));
      AnswerStep(PartialEvents(loop, init), GroundingPartial(loop, v));
    }
  }

  /** The verdicts sent after the answer: the last snapshot is sent once more when it is final. */
  ghost function VerdictsSent(w: World, mode: string): seq<Verdict>
  {
    if mode == DEFERRED then [w.judge]
    else if mode == INCREMENTAL && w.snapshots != [] then w.snapshots + [w.snapshots[|w.snapshots| - 1]]
    else []
  }

  /** What the grounding phase adds for the reader. */
  lemma GroundingReading(w: World, mode: string, a: AgentAnswer)
    requires KnownMode(mode)
    ensures PatchesIn(GroundingEvents(w, mode, a)) == PatchesFor(VerdictsSent(w, mode))
    ensures AnswerIn(GroundingEvents(w, mode, a)) ==
            Some(if AnswersFirst(mode) then (a, true) else (Annotated(a, FinalVerdict(w, mode)), false))
  {
    hide PatchesIn, AnswerIn, PartialEvents;
    var v := FinalVerdict(w, mode);
    var first, started := AnswerEvent(a, true), GroundingStarted(a.loopId);
    var done := CompletedEvent(a.loopId, v, AnswersFirst(mode));
    NothingHeard();
    if mode == BLOCKING {
      var final := AnswerEvent(Annotated(a, v), false);
      assert GroundingEvents(w, mode, a) == [] + [started] + [done] + [final];
      PatchesStep([], started);
      PatchesStep([] + [started], done);
      PatchesStep([] + [started] + [done], final);
      AnswerStep([] + [started] + [done], final);
    } else {
      var partials := if mode == INCREMENTAL then PartialEvents(a.loopId, w.snapshots) else [];
      var head := [] + [first] + [started];
      assert GroundingEvents(w, mode, a) == head + partials + [done];
      PatchesStep([], first);
      PatchesStep([] + [first], started);
      AnswerStep([], first);
      AnswerStep([] + [first], started);
      PartialPatches(a.loopId, w.snapshots);
      PatchesConcat(head, partials);
      AnswerConcat(head, partials);
      PatchesStep(head + partials, done);
      AnswerStep(head + partials, done);
      SentPatches(w, mode);
    }
  }

  lemma NothingHeard()
    ensures PatchesIn([]) == [] && AnswerIn([]).None?
  {
  }

  lemma SentPatches(w: World, mode: string)
    requires AnswersFirst(mode)
    ensures PatchesFor(VerdictsSent(w, mode)) ==
            (if mode == INCREMENTAL then PatchesFor(w.snapshots) else []) +
            PatchOf(CompletedEvent("", FinalVerdict(w, mode), true))
  {
    if mode == DEFERRED {
      assert [w.judge][..0] == [];
    } else if w.snapshots != [] {
      var all := VerdictsSent(w, mode);
      assert all[..|all| - 1] == w.snapshots;
    }
  }

  /** The answer event of a run and whether its verdicts are still owed, and the verdicts sent after it. */
  lemma RunTells(w: World, cfg: Config, req: Request, log: Log)
    requires IsLog(w, cfg, log) && Ends(w, cfg, log) && cfg.streaming && KnownMode(cfg.mode)
    ensures var events, draft := RunEvents(w, cfg, req, log), DraftAnswer(w, cfg, req, log);
            var judged := Validates(w, cfg, req, log);
            && PatchesIn(events) == PatchesFor(if judged then VerdictsSent(w, cfg.mode) else [])
            && AnswerIn(events) ==
               Some(if !judged then (draft, false)
                    else if AnswersFirst(cfg.mode) then (draft, true)
                    else (Annotated(draft, FinalVerdict(w, cfg.mode)), false))
  {
    hide LogEvents, ClosingEvents, DraftAnswer, Grounds, GroundingEvents, IsLog, FailuresOf, ExecutedIn, PatchesIn,
      AnswerIn;
    var head := LogEvents(w, log) + ClosingEvents(w, cfg, log);
    var draft := DraftAnswer(w, cfg, req, log);
    ClosingFits(w, cfg, log);
    QuietBeforeAnswer(head);
    if Validates(w, cfg, req, log) {
      GroundingReading(w, cfg.mode, draft);
      PatchesConcat(head, GroundingEvents(w, cfg.mode, draft));
      AnswerConcat(head, GroundingEvents(w, cfg.mode, draft));
    } else {
      PatchesStep(head, AnswerEvent(draft, false));
      AnswerStep(head, AnswerEvent(draft, false));
    }
  }

  /** The reader of a run can see how its verdicts were batched. */
  ghost predicate BatchingShows(w: World, cfg: Config, req: Request, log: Log)
    requires Ends(w, cfg, log)
  {
    Validates(w, cfg, req, log) && cfg.mode == INCREMENTAL && !SteadyVerdicts(w.snapshots)
  }

  /** Every snapshot of the incremental judge ran, as all those of the dashboard's own validator do. */
  ghost predicate AllRan(w: World)
  {
    forall i :: 0 <= i < |w.snapshots| ==> w.snapshots[i].ran
  }

  /** With such a validator nobody can see how verdicts were batched. */
  lemma RanMeansSteady(w: World, cfg: Config, req: Request, log: Log)
    requires Ends(w, cfg, log) && AllRan(w)
    ensures !BatchingShows(w, cfg, req, log)
  {
  }

  lemma SteadySent(w: World, mode: string)
    requires KnownMode(mode)
    ensures Steady(PatchesFor(VerdictsSent(w, mode))) <==> (mode == INCREMENTAL ==> SteadyVerdicts(w.snapshots))
  {
    var vs := VerdictsSent(w, mode);
    PatchesForAt(vs);
    if mode == INCREMENTAL && w.snapshots != [] {
      var k := |w.snapshots|;
      assert vs[k] == w.snapshots[k - 1];
      assert forall i :: 0 <= i < k ==> vs[i] == w.snapshots[i];
    }
  }

  /**
   * In all three modes the events carry the answer that the run returned: its text and verdict
   * counts are those of the answer event with the last verdict that counts, and its other
   * figures those of the answer event itself. The verdicts are steady unless the incremental
   * judge had one that ran before a last one that did not.
   */
  lemma RunReadsAsReturned(w: World, cfg: Config, req: Request, log: Log)
    requires IsLog(w, cfg, log) && Ends(w, cfg, log) && cfg.streaming && KnownMode(cfg.mode)
    ensures RunOutcome(w, cfg, req, log).Returned?
    ensures var events, a := RunEvents(w, cfg, req, log), RunOutcome(w, cfg, req, log).answer;
            && AnswerIn(events).Some?
            && var sent := AnswerIn(events).value.0;
               && Readout(events) == Some(AnswerReading(a))
               && sent.(content := a.content, supported := a.supported, unsupported := a.unsupported,
                        uncertain := a.uncertain, unverifiable := a.unverifiable) == a
               && (Steady(PatchesIn(events)) <==> !BatchingShows(w, cfg, req, log))
  {
    hide IsLog, Ends, DraftAnswer, Grounds, GroundingEvents, FailuresOf, ExecutedIn, PatchesIn, AnswerIn, CallResult,
      GoesOn, Steady, SteadyVerdicts, RunEvents, PatchesFor, After, VerdictsSent, FinalVerdict;
    RunSettles(w, cfg, req, log);
    RunTells(w, cfg, req, log);
    LastSent(w, cfg.mode);
    SteadySent(w, cfg.mode);
    PatchesForAt(VerdictsSent(w, cfg.mode));
    SteadyNothing();
  }

  lemma SteadyNothing()
    ensures Steady(PatchesFor([])) && PatchesFor([]) == []
  {
  }

  /** Whether the last verdict sent after the answer failed to run. */
  ghost predicate JudgeDidNotRun(w: World, cfg: Config, req: Request, log: Log)
    requires Ends(w, cfg, log)
  {
    && Validates(w, cfg, req, log)
    && (cfg.mode == DEFERRED || (cfg.mode == INCREMENTAL && w.snapshots != []))
    && !FinalVerdict(w, cfg.mode).value.ran
  }

  /** The incremental judge promised verdicts with the answer and produced none. */
  ghost predicate VerdictsNeverCome(w: World, cfg: Config, req: Request, log: Log)
    requires Ends(w, cfg, log)
  {
    Validates(w, cfg, req, log) && cfg.mode == INCREMENTAL && w.snapshots == []
  }

  /** Nothing is sent late in blocking mode, or when there is no snapshot; else the last is the verdict that counts. */
  lemma LastSent(w: World, mode: string)
    requires KnownMode(mode)
    ensures var vs := VerdictsSent(w, mode);
            && (vs == [] <==> mode == BLOCKING || (mode == INCREMENTAL && w.snapshots == []))
            && (vs != [] ==> FinalVerdict(w, mode) == Some(vs[|vs| - 1]))
            && (vs == [] && mode != BLOCKING ==> FinalVerdict(w, mode).None?)
  {
  }

  /** The marks that the events leave on the answer. */
  lemma RunMarks(w: World, cfg: Config, req: Request, log: Log)
    requires IsLog(w, cfg, log) && Ends(w, cfg, log) && cfg.streaming && KnownMode(cfg.mode)
    ensures var events := RunEvents(w, cfg, req, log);
            var ps := PatchesIn(events);
            && AnswerIn(events).Some?
            && ((AnswerIn(events).value.1 && ps == []) <==> VerdictsNeverCome(w, cfg, req, log))
            && ((ps != [] && !ps[|ps| - 1].ran) <==> JudgeDidNotRun(w, cfg, req, log))
  {
    hide IsLog, Ends, Validates, PatchesIn, AnswerIn, RunEvents, PatchesFor, VerdictsSent, FinalVerdict, DraftAnswer,
      Annotated;
    RunTells(w, cfg, req, log);
    LastSent(w, cfg.mode);
    PatchesForAt(VerdictsSent(w, cfg.mode));
  }

  lemma {:induction false} CountsAgree(events: seq<Event>)
    ensures |ToolsIn(events)| == CountTools(events)
  {
    if events != [] {
      CountsAgree(events[..|events| - 1]);
    }
  }

  // ---------- What the reader is shown of the tools ----------

  lemma {:induction false} ToolsConcat(a: seq<Event>, b: seq<Event>)
    ensures ToolsIn(a + b) == ToolsIn(a) + ToolsIn(b)
  {
    if b == [] {
      assert a + b == a;
    } else {
      var init, e := b[..|b| - 1], b[|b| - 1];
      assert a + b == (a + init) + [e] && b == init + [e];
      ToolsConcat(a, init);
      SumsStep(a + init, e);
      SumsStep(init, e);
      hide ToolsIn;
    }
  }

  predicate NoTool(events: seq<Event>)
  {
    forall i :: 0 <= i < |events| ==> !events[i].ToolCallCompleted?
  }

  lemma {:induction false} NoToolShown(events: seq<Event>)
    requires NoTool(events)
    ensures ToolsIn(events) == []
  {
    if events != [] {
      NoToolShown(events[..|events| - 1]);
    }
  }

  /** `tools` reports what came of the calls `done`, one for one. */
  ghost predicate Reports(done: seq<Executed>, tools: seq<ToolEvent>)
  {
    |tools| == |done| && forall j :: 0 <= j < |done| ==> Summarizes(done[j].outcome, tools[j])
  }

  lemma ReportsConcat(a: seq<Executed>, s: seq<ToolEvent>, b: seq<Executed>, t: seq<ToolEvent>)
    requires Reports(a, s) && Reports(b, t)
    ensures Reports(a + b, s + t)
  {
    hide Summarizes;
  }

  lemma OneMoreTool(done: seq<Executed>, x: Executed)
    ensures ToolsIn(ToolEvents(done + [x])) == ToolsIn(ToolEvents(done)) + [Summary(x.outcome)]
  {
    var e1, e2 := ToolCallStarted(x.call.name, x.call.id), ToolCallCompleted(Summary(x.outcome));
    assert (done + [x])[..|done|] == done;
    assert ToolEvents(done + [x]) == ToolEvents(done) + [e1] + [e2];
    hide ToolsIn, ToolEvents, Summary;
    SumsStep(ToolEvents(done), e1);
    SumsStep(ToolEvents(done) + [e1], e2);
  }

  lemma {:induction false} ToolEventsReport(done: seq<Executed>)
    ensures Reports(done, ToolsIn(ToolEvents(done)))
  {
    if done == [] {
      NothingShown();
    } else {
      var init, x := done[..|done| - 1], done[|done| - 1];
      ToolEventsReport(init);
      SummaryTells(x.outcome);
      OneReported(x);
      hide ToolsIn, ToolEvents, Summary, Summarizes, Reports;
      ReportsConcat(init, ToolsIn(ToolEvents(init)), [x], [Summary(x.outcome)]);
      OneMoreTool(init, x);
      assert done == init + [x];
    }
  }

  lemma NothingShown()
    ensures Reports([], ToolsIn(ToolEvents([])))
  {
  }

  lemma OneReported(x: Executed)
    requires Summarizes(x.outcome, Summary(x.outcome))
    ensures Reports([x], [Summary(x.outcome)])
  {
  }

  lemma NoToolConcat(a: seq<Event>, b: seq<Event>)
    requires NoTool(a) && NoTool(b)
    ensures NoTool(a + b)
  {
  }

  lemma DeltasQuiet(step: nat, call: ModelCall)
    ensures NoTool(CallDeltas(step, call))
  {
    if call.Streamed? {
      DeltasShowNoTool(step, call.items);
    }
  }

  lemma {:induction false} DeltasShowNoTool(step: nat, items: seq<StreamItem>)
    ensures NoTool(DeltaEvents(step, items))
  {
    if items != [] {
      DeltasShowNoTool(step, items[..|items| - 1]);
    }
  }

  lemma StepReports(w: World, k: nat, s: ToolStep)
    ensures Reports(s.done, ToolsIn(StepEvents(w, k, s)))
  {
    hide ToolsIn, ToolEvents, CallDeltas, Reports, NoTool;
    var deltas := CallDeltas(k, w.ModelAt(k));
    var completed := ModelCallCompleted(k, s.reply.inputTokens, s.reply.outputTokens, |s.reply.calls|);
    DeltasQuiet(k, w.ModelAt(k));
    OneQuiet(StepStarted(k));
    OneQuiet(completed);
    NoToolConcat([StepStarted(k)], deltas);
    NoToolConcat([StepStarted(k)] + deltas, [completed]);
    NoToolShown([StepStarted(k)] + deltas + [completed]);
    ToolEventsReport(s.done);
    ToolsConcat([StepStarted(k)] + deltas + [completed], ToolEvents(s.done));
    assert [] + ToolsIn(ToolEvents(s.done)) == ToolsIn(ToolEvents(s.done));
  }

  lemma OneQuiet(e: Event)
    ensures !e.ToolCallCompleted? ==> NoTool([e])
  {
  }

  lemma {:induction false} LogReports(w: World, cfg: Config, log: Log)
    requires IsLog(w, cfg, log)
    ensures Reports(ExecutedIn(log), ToolsIn(LogEvents(w, log)))
  {
    hide ToolsIn, StepEvents, Reports, NoTool, StepOf, GoesOn;
    if log == [] {
      OneQuiet(LoopStarted(w.loopId));
      NoToolShown(LogEvents(w, log));
      NothingReported();
    } else {
      var k, s := |log| - 1, Last(log);
      LogReports(w, cfg, Init(log));
      StepReports(w, k, s);
      ToolsConcat(LogEvents(w, Init(log)), StepEvents(w, k, s));
      ReportsConcat(ExecutedIn(Init(log)), ToolsIn(LogEvents(w, Init(log))), s.done, ToolsIn(StepEvents(w, k, s)));
    }
  }

  lemma NothingReported()
    ensures Reports([], [])
  {
  }

  lemma {:induction false} PartialsShowNoTool(loop: string, vs: seq<Verdict>)
    ensures NoTool(PartialEvents(loop, vs))
  {
    if vs != [] {
      PartialsShowNoTool(loop, vs[..|vs| - 1]);
    }
  }

  lemma ClosingShowsNoTool(w: World, cfg: Config, log: Log)
    requires Ends(w, cfg, log)
    ensures NoTool(ClosingEvents(w, cfg, log))
  {
    if GoesOn(cfg, log) {
      hide CallDeltas;
      var deltas := CallDeltas(|log|, w.ModelAt(|log|));
      DeltasQuiet(|log|, w.ModelAt(|log|));
      OneQuiet(StepStarted(|log|));
      NoToolConcat([StepStarted(|log|)], deltas);
      var events := ClosingEvents(w, cfg, log);
      var last := events[|events| - 1];
      assert events == [StepStarted(|log|)] + deltas + [last];
      OneQuiet(last);
      NoToolConcat([StepStarted(|log|)] + deltas, [last]);
    }
  }

  lemma JudgingShowsNoTool(w: World, mode: string, a: AgentAnswer)
    ensures NoTool(GroundingEvents(w, mode, a))
  {
    PartialsShowNoTool(a.loopId, w.snapshots);
    var first := if AnswersFirst(mode) then [AnswerEvent(a, true)] else [];
    var partials := if mode == INCREMENTAL then PartialEvents(a.loopId, w.snapshots) else [];
    var completed := CompletedEvent(a.loopId, FinalVerdict(w, mode), AnswersFirst(mode));
    var last := if mode == BLOCKING then [AnswerEvent(Annotated(a, FinalVerdict(w, mode)), false)] else [];
    assert NoTool(first) && NoTool(last) && NoTool([GroundingStarted(a.loopId)]) && NoTool([completed]) && NoTool(partials);
    hide NoTool, PartialEvents, FinalVerdict, AnswersFirst, Annotated, CompletedEvent;
    NoToolConcat(first, [GroundingStarted(a.loopId)]);
    NoToolConcat(first + [GroundingStarted(a.loopId)], partials);
    NoToolConcat(first + [GroundingStarted(a.loopId)] + partials, [completed]);
    NoToolConcat(first + [GroundingStarted(a.loopId)] + partials + [completed], last);
  }

  lemma TailShowsNoTool(w: World, cfg: Config, req: Request, log: Log)
    requires Ends(w, cfg, log)
    ensures NoTool(Tail(w, cfg, req, log))
  {
    hide DraftAnswer, Validates, GroundingEvents, Ends;
    JudgingShowsNoTool(w, cfg.mode, DraftAnswer(w, cfg, req, log));
    OneQuiet(AnswerEvent(DraftAnswer(w, cfg, req, log), false));
  }

  /** The events of a run report what came of each of its tool calls, in order. */
  lemma RunReports(w: World, cfg: Config, req: Request, log: Log)
    requires IsLog(w, cfg, log) && Ends(w, cfg, log) && cfg.streaming
    ensures Reports(ExecutedIn(log), ToolsIn(RunEvents(w, cfg, req, log)))
  {
    hide IsLog, Ends, ToolsIn, LogEvents, ClosingEvents, Reports, Tail, NoTool, RunEvents;
    LogReports(w, cfg, log);
    RunEventsParts(w, cfg, req, log);
    ClosingShowsNoTool(w, cfg, log);
    TailShowsNoTool(w, cfg, req, log);
    var logged, closing, tail := LogEvents(w, log), ClosingEvents(w, cfg, log), Tail(w, cfg, req, log);
    NoToolShown(closing);
    NoToolShown(tail);
    ToolsConcat(logged, closing);
    ToolsConcat(logged + closing, tail);
    assert ToolsIn(logged) + [] + [] == ToolsIn(logged);
  }

  // ---------- The text on display ----------

  lemma {:induction false} DeltasAreText(events: seq<Event>)
    ensures Deltas(events) == TextSent(events)
  {
    if events != [] {
      var init, e := events[..|events| - 1], events[|events| - 1];
      DeltasAreText(init);
      TextSentMore(init, e);
      assert events == init + [e];
    }
  }

  lemma ShownSince(before: seq<Event>, k: nat, deltas: seq<Event>, ending: Event)
    requires forall i :: 0 <= i < |deltas| ==> deltas[i].ModelDelta?
    requires ending.ModelCallCompleted? || ending.ModelCallFailed?
    ensures TextSince(before + ([StepStarted(k)] + deltas + [ending])) == TextSent(deltas)
  {
    hide TextSince, Deltas, TextSent;
    var after := deltas + [ending];
    TextSinceStep(before, k, after);
    DeltasAreText(after);
    TextSentMore(deltas, ending);
    assert TextSent(deltas) + "" == TextSent(deltas);
    assert before + ([StepStarted(k)] + deltas + [ending]) == before + [StepStarted(k)] + after;
  }

  /** When the last model call is over, what is on display is the text it streamed. */
  lemma StreamedTextShown(w: World, cfg: Config, log: Log)
    requires Ends(w, cfg, log) && !Halted(cfg, log)
    ensures TextSince(LogEvents(w, log) + ClosingEvents(w, cfg, log)) == StreamedText(w.model(|log|))
  {
    hide LogEvents, ClosingEvents, CallResult, Halted, StreamedText, TextSent, TextSince, Ends;
    LastCallExactly(w, cfg, log);
    var events := ClosingEvents(w, cfg, log);
    var n := |events|;
    SplitCall(events);
    ShownSince(LogEvents(w, log), |log|, events[1..n - 1], events[n - 1]);
  }

  lemma SplitCall(events: seq<Event>)
    requires |events| >= 2
    ensures events == [events[0]] + events[1..|events| - 1] + [events[|events| - 1]]
  {
  }
}
