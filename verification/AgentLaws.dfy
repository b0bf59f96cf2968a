/** What holds of every run of the agent loop, for every model, tool and validator behaviour. */
module AgentLaws {
  import opened Wrappers
  import opened Text
  import opened ChatTypes
  import opened AgentLoop
  import opened AgentRun
  import opened Trace

  // ---------- The bound hidden in the no-progress guard ----------

  lemma {:induction false} SignaturesFinite(w: World, cfg: Config, log: Log)
    requires IsLog(w, cfg, log) && log != []
    ensures |log| <= 2 * |Signatures(log)| - 1 + Streak(log)
    ensures Streak(log) <= MAX_REDUNDANT_STREAK
  {
    var before := Init(log);
    var calls := Last(log).reply.calls;
    assert Signature(calls[|calls| - 1]) in SignatureSet(calls);
    if before != [] {
      SignaturesFinite(w, cfg, before);
    }
    if LastRedundant(log) {
      assert Signatures(log) == Signatures(before);
    } else {
      var novel :| novel in SignatureSet(calls) && novel !in Signatures(before);
      SmallerSet(Signatures(before), Signatures(log), novel);
    }
  }

  /**
   * No step ceiling, and still a bound: a run that used K distinct tool calls reports at most
   * 2K + 1 steps, and never more than the operator's breaker when one is set.
   */
  lemma StepCountBounded(w: World, cfg: Config, req: Request, log: Log)
    requires IsLog(w, cfg, log) && Ends(w, cfg, log) && RunOutcome(w, cfg, req, log).Returned?
    ensures var a := RunOutcome(w, cfg, req, log).answer;
            && a.stepCount <= 2 * |Signatures(log)| + 1
            && (cfg.stepBreaker > 0 ==> a.stepCount <= cfg.stepBreaker)
  {
    if log != [] {
      SignaturesFinite(w, cfg, log);
    }
  }

  /** A model that draws on a finite stock of distinct calls cannot keep the loop going for longer. */
  lemma {:induction false} LogBounded(w: World, cfg: Config, log: Log, universe: set<string>)
    requires IsLog(w, cfg, log) && DrawsFrom(w, universe)
    ensures Signatures(log) <= universe
    ensures |log| <= 2 * |universe| + 1
  {
    if log != [] {
      LogBounded(w, cfg, Init(log), universe);
      assert CallResult(w.ModelAt(|log| - 1)).Ok?;
      SignaturesFinite(w, cfg, log);
      SubsetSize(Signatures(log), universe);
    }
  }

  /** The run of a world is determined: two complete logs are the same log. */
  lemma LogUnique(w: World, cfg: Config, a: Log, b: Log)
    requires IsLog(w, cfg, a) && IsLog(w, cfg, b) && |a| <= |b| && Ends(w, cfg, a)
    ensures a == b
  {
    assert b[..|b|] == b;
    PrefixIsLog(w, cfg, b, |a|);
    SameLength(w, cfg, a, b[..|a|]);
    if |a| < |b| {
      NotOverYet(w, cfg, b, |a|);
    }
  }

  lemma NotOverYet(w: World, cfg: Config, log: Log, k: nat)
    requires IsLog(w, cfg, log) && k < |log|
    ensures !Ends(w, cfg, log[..k])
  {
    var longer := log[..k + 1];
    PrefixIsLog(w, cfg, log, k + 1);
    assert Init(longer) == log[..k];
  }

  lemma {:induction false} PrefixIsLog(w: World, cfg: Config, log: Log, k: nat)
    requires IsLog(w, cfg, log) && k <= |log|
    ensures IsLog(w, cfg, log[..k])
  {
    if k < |log| {
      PrefixIsLog(w, cfg, Init(log), k);
      assert Init(log)[..k] == log[..k];
    } else {
      assert log[..k] == log;
    }
  }

  lemma {:induction false} SameLength(w: World, cfg: Config, a: Log, b: Log)
    requires IsLog(w, cfg, a) && IsLog(w, cfg, b) && |a| == |b|
    ensures a == b
  {
    if a != [] {
      SameLength(w, cfg, Init(a), Init(b));
      assert a == Init(a) + [Last(a)];
      assert b == Init(b) + [Last(b)];
    }
  }

  // ---------- Tool calls and their results in every request ----------

  ghost predicate Answers(calls: seq<ToolCall>, results: seq<ToolResult>)
  {
    |results| == |calls| &&
    forall j :: 0 <= j < |calls| ==> results[j].callId == calls[j].id && results[j].name == calls[j].name
  }

  ghost predicate CallsAnsweredAt(m: seq<Message>, i: nat)
    requires i < |m|
  {
    && (m[i].AssistantMsg? && m[i].calls != [] ==>
          i + 1 < |m| && m[i + 1].ToolMsg? && Answers(m[i].calls, m[i + 1].results))
    && (m[i].ToolMsg? ==> i > 0 && m[i - 1].AssistantMsg? && m[i - 1].calls != [])
  }

  /**
   * Every assistant message with tool calls is followed at once by the results of exactly
   * those calls, one for one and in order; and results appear nowhere else.
   */
  ghost predicate Paired(m: seq<Message>)
  {
    forall i {:trigger CallsAnsweredAt(m, i)} :: 0 <= i < |m| ==> CallsAnsweredAt(m, i)
  }

  lemma PairedConcat(a: seq<Message>, b: seq<Message>)
    requires Paired(a) && Paired(b)
    ensures Paired(a + b)
  {
    var m := a + b;
    forall i | 0 <= i < |m|
      ensures CallsAnsweredAt(m, i)
    {
      if i < |a| {
        assert CallsAnsweredAt(a, i);
      } else {
        assert CallsAnsweredAt(b, i - |a|);
      }
    }
  }

  ghost predicate Plain(msg: Message)
  {
    !msg.ToolMsg? && (msg.AssistantMsg? ==> msg.calls == [])
  }

  lemma PlainPaired(m: seq<Message>)
    requires forall i :: 0 <= i < |m| ==> Plain(m[i])
    ensures Paired(m)
  {
    forall i | 0 <= i < |m|
      ensures CallsAnsweredAt(m, i)
    {
      assert Plain(m[i]);
    }
  }

  lemma {:induction false} HistoryPlain(history: seq<Turn>)
    ensures forall i :: 0 <= i < |HistoryMessages(history)| ==> Plain(HistoryMessages(history)[i])
  {
    if history != [] {
      HistoryPlain(history[..|history| - 1]);
    }
  }

  lemma {:induction false} ResultsMatchCalls(w: World, step: nat, calls: seq<ToolCall>, n: nat)
    requires n <= |calls|
    ensures Answers(calls[..n], MessagesFor(Outcomes(w, step, calls, n)))
  {
    if n > 0 {
      ResultsMatchCalls(w, step, calls, n - 1);
      var done := Outcomes(w, step, calls, n - 1);
      assert Outcomes(w, step, calls, n)[..n - 1] == done;
      assert calls[..n] == calls[..n - 1] + [calls[n - 1]];
    }
  }

  lemma StepPaired(w: World, step: nat, s: ToolStep)
    requires StepOf(w, step, s)
    ensures Paired(StepMessages(s))
  {
    ResultsMatchCalls(w, step, s.reply.calls, |s.reply.calls|);
    assert s.reply.calls[..|s.reply.calls|] == s.reply.calls;
    var m := StepMessages(s);
    assert CallsAnsweredAt(m, 0) && CallsAnsweredAt(m, 1);
  }

  lemma {:induction false} TranscriptPaired(w: World, cfg: Config, req: Request, log: Log)
    requires IsLog(w, cfg, log)
    ensures Paired(Transcript(cfg, req, log))
    ensures log != [] ==> Paired(StoppedTranscript(cfg, req, log))
  {
    hide Paired, StepMessages, StepOf, GoesOn, CheckpointEvery;
    if log == [] {
      HistoryPlain(req.history);
      PlainPaired(OpeningTranscript(cfg, req));
    } else {
      TranscriptPaired(w, cfg, req, Init(log));
      StepPaired(w, |log| - 1, Last(log));
      PairedConcat(Transcript(cfg, req, Init(log)), StepMessages(Last(log)));
      PlainPaired(RepeatNudge(log));
      PairedConcat(Transcript(cfg, req, Init(log)) + StepMessages(Last(log)), RepeatNudge(log));
      PlainPaired(Checkpoint(cfg, log));
      PairedConcat(StoppedTranscript(cfg, req, log), Checkpoint(cfg, log));
    }
  }

  lemma {:induction false} StepRequestsPaired(w: World, cfg: Config, req: Request, log: Log)
    requires IsLog(w, cfg, log)
    ensures forall r :: r in StepRequests(cfg, req, log) ==> Paired(r)
  {
    if log != [] {
      StepRequestsPaired(w, cfg, req, Init(log));
      TranscriptPaired(w, cfg, req, Init(log));
    }
  }

  /** Every request of every run, forced syntheses included, pairs calls with results. */
  lemma EveryRequestPaired(w: World, cfg: Config, req: Request, log: Log)
    requires IsLog(w, cfg, log) && Ends(w, cfg, log)
    ensures forall r :: r in AllRequests(w, cfg, req, log) ==> Paired(r)
  {
    StepRequestsPaired(w, cfg, req, log);
    TranscriptPaired(w, cfg, req, log);
    if !GoesOn(cfg, log) {
      PlainPaired([NudgeMsg(ForcedNudge)]);
      PairedConcat(StoppedTranscript(cfg, req, log), [NudgeMsg(ForcedNudge)]);
    } else if Synthesizes(w, cfg, log) {
      var asked := [AssistantMsg(CallResult(w.ModelAt(|log|)).value.content, []), NudgeMsg(SynthesisNudge)];
      PlainPaired(asked);
      PairedConcat(Transcript(cfg, req, log), asked);
    }
  }

  // ---------- Accounts ----------

  /** Successful calls of the runbook tool, whose hits are filed as knowledge chunks. */
  ghost function RunbookSuccesses(done: seq<Executed>): nat
  {
    if done == [] then 0
    else
      var x := done[|done| - 1];
      RunbookSuccesses(done[..|done| - 1]) + if Succeeded(x.outcome) && x.call.name == RUNBOOK then 1 else 0
  }

  /** Every tool call is accounted for once: a result, a runbook hit list, or a failure. */
  lemma {:induction false} EvidenceBalances(done: seq<Executed>)
    ensures |done| == |ResultsOf(done)| + RunbookSuccesses(done) + |FailuresOf(done)|
  {
    if done != [] {
      EvidenceBalances(done[..|done| - 1]);
    }
  }

  /** The replies of all model calls that succeeded, the synthesis included. */
  ghost function Replies(w: World, cfg: Config, log: Log): seq<Reply>
    requires Ends(w, cfg, log)
  {
    StepReplies(log) + ClosingReply(w, cfg, log) + SynthesisReply(w, cfg, log)
  }

  /** The reply that ended the loop, if a reply did. */
  ghost function ClosingReply(w: World, cfg: Config, log: Log): seq<Reply>
  {
    if GoesOn(cfg, log) && CallResult(w.ModelAt(|log|)).Ok? then [CallResult(w.ModelAt(|log|)).value] else []
  }

  ghost function SynthesisReply(w: World, cfg: Config, log: Log): seq<Reply>
    requires Ends(w, cfg, log)
  {
    if Synthesizes(w, cfg, log) && w.synthesis.Some? then [w.synthesis.value] else []
  }

  ghost function StepReplies(log: Log): seq<Reply>
  {
    if log == [] then [] else StepReplies(Init(log)) + [Last(log).reply]
  }

  ghost function SumIn(replies: seq<Reply>): int
  {
    if replies == [] then 0 else SumIn(replies[..|replies| - 1]) + replies[|replies| - 1].inputTokens
  }

  ghost function SumOut(replies: seq<Reply>): int
  {
    if replies == [] then 0 else SumOut(replies[..|replies| - 1]) + replies[|replies| - 1].outputTokens
  }

  lemma {:induction false} SumConcat(a: seq<Reply>, b: seq<Reply>)
    ensures SumIn(a + b) == SumIn(a) + SumIn(b) && SumOut(a + b) == SumOut(a) + SumOut(b)
  {
    if b == [] {
      assert a + b == a;
    } else {
      assert (a + b)[..|a + b| - 1] == a + b[..|b| - 1];
      SumConcat(a, b[..|b| - 1]);
    }
  }

  lemma {:induction false} LogSums(log: Log)
    ensures TokensIn(log) == SumIn(StepReplies(log)) && TokensOut(log) == SumOut(StepReplies(log))
  {
    if log != [] {
      LogSums(Init(log));
      var init := StepReplies(Init(log));
      assert (init + [Last(log).reply])[..|init|] == init;
    }
  }

  lemma SumOne(r: Reply)
    ensures SumIn([r]) == r.inputTokens && SumOut([r]) == r.outputTokens
  {
    assert [r][..0] == [];
  }

  /** Grounding rewrites content and verdicts only. */
  lemma OutcomeOfDraft(w: World, cfg: Config, req: Request, log: Log)
    requires Ends(w, cfg, log) && RunOutcome(w, cfg, req, log).Returned?
    ensures var a := RunOutcome(w, cfg, req, log).answer;
            var d := DraftAnswer(w, cfg, req, log);
            && a.(content := d.content, supported := None, unsupported := None, uncertain := None, unverifiable := None)
               == d
            && NoVerdicts(d)
  {
  }

  /** The draft adds the last reply and the synthesis to what the log accounts for. */
  lemma DraftTokens(w: World, cfg: Config, req: Request, log: Log)
    requires Ends(w, cfg, log)
    ensures var d := DraftAnswer(w, cfg, req, log);
            var last, extra := ClosingReply(w, cfg, log), SynthesisReply(w, cfg, log);
            && d.inputTokens == TokensIn(log) + SumIn(last) + SumIn(extra)
            && d.outputTokens == TokensOut(log) + SumOut(last) + SumOut(extra)
  {
    hide StoppedTranscript, ForcedText, VolunteeredText, Streak, CallResult, CitationsOf, ExecutedIn, TokensIn, TokensOut,
      IsBlank, SumIn, SumOut;
    SumNone();
    if ClosingReply(w, cfg, log) != [] {
      SumOne(ClosingReply(w, cfg, log)[0]);
    }
    if SynthesisReply(w, cfg, log) != [] {
      SumOne(SynthesisReply(w, cfg, log)[0]);
    }
  }

  lemma SumNone()
    ensures SumIn([]) == 0 && SumOut([]) == 0
  {
  }

  /** The reported tokens are the sums over every successful model call, on every return path. */
  lemma TokensBalance(w: World, cfg: Config, req: Request, log: Log)
    requires IsLog(w, cfg, log) && Ends(w, cfg, log) && RunOutcome(w, cfg, req, log).Returned?
    ensures var a := RunOutcome(w, cfg, req, log).answer;
            && a.inputTokens == SumIn(Replies(w, cfg, log))
            && a.outputTokens == SumOut(Replies(w, cfg, log))
  {
    hide IsLog, Ends, RunOutcome, DraftAnswer, StepReplies, ClosingReply, SynthesisReply, SumIn, SumOut;
    OutcomeOfDraft(w, cfg, req, log);
    DraftTokens(w, cfg, req, log);
    LogSums(log);
    var steps, last := StepReplies(log), ClosingReply(w, cfg, log);
    SumConcat(steps, last);
    SumConcat(steps + last, SynthesisReply(w, cfg, log));
  }

  /** The reported tool calls are those executed, each of them a result, a runbook success or a failure. */
  lemma ToolCallsBalance(w: World, cfg: Config, req: Request, log: Log)
    requires IsLog(w, cfg, log) && Ends(w, cfg, log) && RunOutcome(w, cfg, req, log).Returned?
    ensures var done := ExecutedIn(log);
            RunOutcome(w, cfg, req, log).answer.toolCallCount ==
            |ResultsOf(done)| + RunbookSuccesses(done) + |FailuresOf(done)|
  {
    OutcomeOfDraft(w, cfg, req, log);
    EvidenceBalances(ExecutedIn(log));
  }

  // ---------- The answer's text ----------

  /** A forced stop always has something to say. */
  lemma ForcedTextNonEmpty(w: World, messages: seq<Message>)
    ensures ForcedText(w, messages) != ""
  {
  }

  /**
   * It may still be blank: exactly when the synthesis gave nothing readable and the last
   * assistant text of the transcript is whitespace.
   */
  lemma ForcedTextBlankExactly(w: World, messages: seq<Message>)
    ensures IsBlank(ForcedText(w, messages)) <==>
            IsBlank(SynthesisText(w)) && LastAssistantText(messages) != "" && IsBlank(LastAssistantText(messages))
  {
    FallbackReadable();
  }

  lemma FallbackReadable()
    ensures !IsBlank(EMPTY_ANSWER_FALLBACK)
  {
    assert EMPTY_ANSWER_FALLBACK[0] == 'I';
  }

  /** An answer the model volunteers is never blank. */
  lemma VolunteeredTextReadable(w: World, content: string)
    ensures !IsBlank(VolunteeredText(w, content))
  {
    FallbackReadable();
  }

  ghost predicate Wordless(log: Log)
  {
    forall i :: 0 <= i < |log| ==> log[i].reply.content == ""
  }

  /** The text of the latest tool step that came with any. */
  ghost function LastSpoken(log: Log): string
  {
    if log == [] then "" else if Last(log).reply.content != "" then Last(log).reply.content else LastSpoken(Init(log))
  }

  lemma {:induction false} SilentExactly(log: Log)
    ensures LastSpoken(log) == "" <==> Wordless(log)
  {
    if log != [] {
      SilentExactly(Init(log));
      assert Init(log) == log[..|log| - 1];
    }
  }

  lemma {:induction false} TextConcat(a: seq<Message>, b: seq<Message>)
    ensures LastAssistantText(a + b) == if LastAssistantText(b) != "" then LastAssistantText(b) else LastAssistantText(a)
  {
    if b == [] {
      assert a + b == a;
    } else {
      assert (a + b)[..|a + b| - 1] == a + b[..|b| - 1];
      TextConcat(a, b[..|b| - 1]);
    }
  }

  lemma NudgesSayNothing(m: seq<Message>)
    requires |m| <= 1 && forall i :: 0 <= i < |m| ==> m[i].NudgeMsg?
    ensures LastAssistantText(m) == ""
  {
    if m != [] {
      assert m[..|m| - 1] == [];
    }
  }

  lemma StepSays(s: ToolStep)
    ensures LastAssistantText(StepMessages(s)) == s.reply.content
  {
    var said, told := [AssistantMsg(s.reply.content, s.reply.calls)], [ToolMsg(MessagesFor(s.done))];
    assert StepMessages(s) == said + told;
    assert said[..0] == [] && told[..0] == [];
    TextConcat(said, told);
  }

  /** What the fallback finds in a transcript: the run's own latest words, or else an earlier answer. */
  ghost function FallbackText(req: Request, log: Log): string
  {
    if LastSpoken(log) != "" then LastSpoken(log) else LastAssistantText(HistoryMessages(req.history))
  }

  lemma {:induction false} TranscriptFallback(cfg: Config, req: Request, log: Log)
    ensures LastAssistantText(Transcript(cfg, req, log)) == FallbackText(req, log)
    ensures log != [] ==> LastAssistantText(StoppedTranscript(cfg, req, log)) == FallbackText(req, log)
  {
    if log == [] {
      var head, tail := [SystemMsg(cfg.systemPrompt)], [QuestionMsg(req.question, req.retry)];
      assert head[..0] == [] && tail[..0] == [];
      TextConcat(head, HistoryMessages(req.history));
      TextConcat(head + HistoryMessages(req.history), tail);
    } else {
      TranscriptFallback(cfg, req, Init(log));
      StepSays(Last(log));
      TextConcat(Transcript(cfg, req, Init(log)), StepMessages(Last(log)));
      NudgesSayNothing(RepeatNudge(log));
      TextConcat(Transcript(cfg, req, Init(log)) + StepMessages(Last(log)), RepeatNudge(log));
      NudgesSayNothing(Checkpoint(cfg, log));
      TextConcat(StoppedTranscript(cfg, req, log), Checkpoint(cfg, log));
    }
  }

  /**
   * Where the text of a forced stop comes from: the synthesis if it is readable; else this run's
   * latest words if any tool step came with text; else, and only else, an earlier answer.
   */
  lemma ForcedTextExactly(w: World, cfg: Config, req: Request, log: Log)
    requires log != []
    ensures var messages := StoppedTranscript(cfg, req, log);
            var earlier := LastAssistantText(HistoryMessages(req.history));
            && (!IsBlank(SynthesisText(w)) ==> ForcedText(w, messages) == SynthesisText(w))
            && (IsBlank(SynthesisText(w)) && !Wordless(log) ==> ForcedText(w, messages) == LastSpoken(log) != "")
            && (IsBlank(SynthesisText(w)) && Wordless(log) ==>
                  ForcedText(w, messages) == if earlier != "" then earlier else EMPTY_ANSWER_FALLBACK)
  {
    SilentExactly(log);
    TranscriptFallback(cfg, req, log);
  }

  // ---------- The event stream ----------

  predicate KnownMode(mode: string)
  {
    mode == BLOCKING || mode == DEFERRED || mode == INCREMENTAL
  }

  lemma {:induction false} DeltasKeepThinking(s: Stage, step: nat, items: seq<StreamItem>)
    requires s.at.Thinking? && s.step == step
    ensures After(s, DeltaEvents(step, items)) == Some(s)
  {
    AfterNone(s);
    if items != [] {
      var init, last := items[..|items| - 1], items[|items| - 1];
      DeltasKeepThinking(s, step, init);
      hide After;
      var more := if last.Delta? && last.text != "" then [ModelDelta(step, last.text)] else [];
      assert DeltaEvents(step, items) == DeltaEvents(step, init) + more;
      AfterConcat(s, DeltaEvents(step, init), more);
      if more != [] {
        AfterOne(s, more[0]);
      }
    }
  }

  lemma AfterOne(s: Stage, e: Event)
    ensures After(s, [e]) == Next(s, e)
  {
    assert [e][..0] == [];
  }

  lemma AfterNone(s: Stage)
    ensures After(s, []) == Some(s)
  {
  }

  /** Where the stream stands once `j` of `k` tool calls are over. */
  function ToolStage(s: Stage, k: nat, j: nat): Stage
    requires j <= k
  {
    s.(at := if j == k then Between else Calling(k - j), tools := s.tools + j)
  }

  lemma {:induction false} ToolsKeepGrammar(s: Stage, k: nat, done: seq<Executed>)
    requires k > 0 && s.at == Calling(k) && |done| <= k
    ensures After(s, ToolEvents(done)) == Some(ToolStage(s, k, |done|))
  {
    if done != [] {
      var init, x := done[..|done| - 1], done[|done| - 1];
      ToolsKeepGrammar(s, k, init);
      var pair := [ToolCallStarted(x.call.name, x.call.id), ToolCallCompleted(Summary(x.outcome))];
      AfterConcat(s, ToolEvents(init), pair);
      var t := ToolStage(s, k, |init|);
      assert pair == [pair[0]] + [pair[1]];
      AfterOne(t, pair[0]);
      AfterConcat(t, [pair[0]], [pair[1]]);
      AfterOne(Next(t, pair[0]).value, pair[1]);
    }
  }

  /** Where the stream stands between tool steps. */
  ghost function LogStage(w: World, log: Log): Stage
  {
    Stage(if log == [] then Ready else Between, w.loopId,
          if log == [] then 0 else |log| - 1, |ExecutedIn(log)|)
  }

  /** The first two parts of a step: its announcement and the streamed text. */
  lemma StepOpens(w: World, log: Log)
    ensures After(LogStage(w, log), [StepStarted(|log|)] + CallDeltas(|log|, w.ModelAt(|log|))) ==
            Some(LogStage(w, log).(at := Thinking, step := |log|))
  {
    var s := LogStage(w, log);
    AfterOne(s, StepStarted(|log|));
    var t := s.(at := Thinking, step := |log|);
    AfterConcat(s, [StepStarted(|log|)], CallDeltas(|log|, w.ModelAt(|log|)));
    if w.ModelAt(|log|).Streamed? {
      DeltasKeepThinking(t, |log|, w.ModelAt(|log|).items);
    }
  }

  lemma {:induction false} LogFits(w: World, cfg: Config, log: Log)
    requires IsLog(w, cfg, log)
    ensures After(START, LogEvents(w, log)) == Some(LogStage(w, log))
  {
    if log == [] {
      AfterOne(START, LoopStarted(w.loopId));
    } else {
      var before, s := Init(log), Last(log);
      LogFits(w, cfg, before);
      StepFits(w, before, s);
      AfterConcat(START, LogEvents(w, before), StepEvents(w, |before|, s));
    }
  }

  lemma StepFits(w: World, before: Log, s: ToolStep)
    requires StepOf(w, |before|, s)
    ensures After(LogStage(w, before), StepEvents(w, |before|, s)) == Some(LogStage(w, before + [s]))
  {
    hide After, CallDeltas, CallResult, Outcomes, ToolEvents;
    var n, k := |before|, |s.reply.calls|;
    assert |s.done| == k;
    var announced := [StepStarted(n)] + CallDeltas(n, w.ModelAt(n));
    var completed := [ModelCallCompleted(n, s.reply.inputTokens, s.reply.outputTokens, k)];
    StepOpens(w, before);
    var t := LogStage(w, before).(at := Thinking, step := n);
    AfterConcat(LogStage(w, before), announced, completed);
    AfterOne(t, completed[0]);
    AfterConcat(LogStage(w, before), announced + completed, ToolEvents(s.done));
    ToolsKeepGrammar(t.(at := Calling(k)), k, s.done);
    assert Init(before + [s]) == before;
  }

  /** The stream when only the answer and its grounding are still to come. */
  ghost function ClosingStage(w: World, cfg: Config, log: Log): Stage
    requires Ends(w, cfg, log)
  {
    var s := LogStage(w, log);
    if !GoesOn(cfg, log) then s
    else s.(at := if CallResult(w.ModelAt(|log|)).Err? then Failing else Closing, step := |log|)
  }

  lemma ClosingFits(w: World, cfg: Config, log: Log)
    requires IsLog(w, cfg, log) && Ends(w, cfg, log)
    ensures After(START, LogEvents(w, log) + ClosingEvents(w, cfg, log)) == Some(ClosingStage(w, cfg, log))
  {
    LogFits(w, cfg, log);
    AfterConcat(START, LogEvents(w, log), ClosingEvents(w, cfg, log));
    if GoesOn(cfg, log) {
      LastCallFits(w, cfg, log);
    }
  }

  lemma LastCallFits(w: World, cfg: Config, log: Log)
    requires GoesOn(cfg, log) && Ends(w, cfg, log)
    ensures After(LogStage(w, log), ClosingEvents(w, cfg, log)) == Some(ClosingStage(w, cfg, log))
  {
    hide CallResult, CallDeltas, Streak;
    StepOpens(w, log);
    var announced := [StepStarted(|log|)] + CallDeltas(|log|, w.ModelAt(|log|));
    var ending := match CallResult(w.ModelAt(|log|))
                  case Err(f) => ModelCallFailed(|log|, FailureDetail(f))
                  case Ok(r) => ModelCallCompleted(|log|, r.inputTokens, r.outputTokens, 0);
    AfterConcat(LogStage(w, log), announced, [ending]);
    AfterOne(LogStage(w, log).(at := Thinking, step := |log|), ending);
  }

  lemma {:induction false} PartialsFit(s: Stage, snapshots: seq<Verdict>)
    requires s.at.Late?
    ensures After(s, PartialEvents(s.loop, snapshots)) == Some(s)
  {
    if snapshots != [] {
      var init := snapshots[..|snapshots| - 1];
      PartialsFit(s, init);
      AfterConcat(s, PartialEvents(s.loop, init), [GroundingPartial(s.loop, snapshots[|init|])]);
      AfterOne(s, GroundingPartial(s.loop, snapshots[|init|]));
    }
  }

  /** Grounding a draft in one of the three modes settles the stream. */
  lemma GroundingFits(w: World, mode: string, s: Stage, a: AgentAnswer)
    requires KnownMode(mode) && (s.at.Closing? || s.at.Between?)
    requires FinalAnswer(s, a) && NoVerdicts(a)
    ensures After(s, GroundingEvents(w, mode, a)) == Some(s.(at := Settled))
  {
    hide After, FinalVerdict, PartialEvents;
    var v := FinalVerdict(w, mode);
    var done := CompletedEvent(a.loopId, v, AnswersFirst(mode));
    if mode == BLOCKING {
      var final := AnswerEvent(Annotated(a, v), false);
      assert GroundingEvents(w, mode, a) == [GroundingStarted(a.loopId)] + [done] + [final];
      AfterOne(s, GroundingStarted(a.loopId));
      AfterConcat(s, [GroundingStarted(a.loopId)], [done]);
      AfterOne(s.(at := Judging), done);
      AfterConcat(s, [GroundingStarted(a.loopId)] + [done], [final]);
      AfterOne(s.(at := Judged), final);
    } else {
      var partials := if mode == INCREMENTAL then PartialEvents(a.loopId, w.snapshots) else [];
      var started := [AnswerEvent(a, true)] + [GroundingStarted(a.loopId)];
      AfterNone(s.(at := Late));
      assert GroundingEvents(w, mode, a) == started + partials + [done];
      AfterOne(s, AnswerEvent(a, true));
      AfterConcat(s, [AnswerEvent(a, true)], [GroundingStarted(a.loopId)]);
      AfterOne(s.(at := Owed), GroundingStarted(a.loopId));
      AfterConcat(s, started, partials);
      PartialsFit(s.(at := Late), w.snapshots);
      AfterConcat(s, started + partials, [done]);
      AfterOne(s.(at := Late), done);
    }
  }

  lemma DraftFits(w: World, cfg: Config, req: Request, log: Log)
    requires IsLog(w, cfg, log) && Ends(w, cfg, log)
    ensures FinalAnswer(ClosingStage(w, cfg, log), DraftAnswer(w, cfg, req, log))
    ensures NoVerdicts(DraftAnswer(w, cfg, req, log))
  {
  }

  /**
   * Every streaming run, whatever the model, the tools and the validator do, emits a stream of
   * the one grammar and settles it.
   */
  lemma RunSettles(w: World, cfg: Config, req: Request, log: Log)
    requires IsLog(w, cfg, log) && Ends(w, cfg, log) && cfg.streaming && KnownMode(cfg.mode)
    ensures RunOutcome(w, cfg, req, log).Returned?
    ensures After(START, RunEvents(w, cfg, req, log)) == Some(ClosingStage(w, cfg, log).(at := Settled))
    ensures CountAnswers(RunEvents(w, cfg, req, log)) == 1
  {
    hide LogEvents, ClosingEvents, DraftAnswer, Grounds, GroundingEvents, IsLog, FailuresOf, ExecutedIn;
    var head := LogEvents(w, log) + ClosingEvents(w, cfg, log);
    var s := ClosingStage(w, cfg, log);
    var draft := DraftAnswer(w, cfg, req, log);
    ClosingFits(w, cfg, log);
    DraftFits(w, cfg, req, log);
    if Validates(w, cfg, req, log) {
      AfterConcat(START, head, GroundingEvents(w, cfg.mode, draft));
      GroundingFits(w, cfg.mode, s, draft);
    } else {
      AfterConcat(START, head, [AnswerEvent(draft, false)]);
      AfterOne(s, AnswerEvent(draft, false));
    }
    AnswersCounted(RunEvents(w, cfg, req, log));
  }

  /** The run reaches the validator. */
  ghost predicate Validates(w: World, cfg: Config, req: Request, log: Log)
    requires Ends(w, cfg, log)
  {
    !Fails(w, cfg, log) && Grounds(cfg, DraftAnswer(w, cfg, req, log), FailuresOf(ExecutedIn(log)))
  }

  /**
   * The single `answer` is tied to the mode: a mode outside the three known ones emits none
   * when there is something to ground, and one otherwise.
   */
  lemma AnswerEmittedExactly(w: World, cfg: Config, req: Request, log: Log)
    requires IsLog(w, cfg, log) && Ends(w, cfg, log) && cfg.streaming
    ensures CountAnswers(RunEvents(w, cfg, req, log)) ==
            if Validates(w, cfg, req, log) && !KnownMode(cfg.mode) then 0 else 1
  {
    if KnownMode(cfg.mode) {
      RunSettles(w, cfg, req, log);
    } else {
      UnknownMode(w, cfg, req, log);
      AnswersCounted(RunEvents(w, cfg, req, log));
    }
  }

  lemma UnknownMode(w: World, cfg: Config, req: Request, log: Log)
    requires IsLog(w, cfg, log) && Ends(w, cfg, log) && cfg.streaming && !KnownMode(cfg.mode)
    ensures After(START, RunEvents(w, cfg, req, log)) ==
            Some(ClosingStage(w, cfg, log).(at := if Validates(w, cfg, req, log) then Judged else Settled))
  {
    hide LogEvents, ClosingEvents, DraftAnswer, Grounds, IsLog, FailuresOf, ExecutedIn;
    var head := LogEvents(w, log) + ClosingEvents(w, cfg, log);
    var s := ClosingStage(w, cfg, log);
    var draft := DraftAnswer(w, cfg, req, log);
    ClosingFits(w, cfg, log);
    DraftFits(w, cfg, req, log);
    if Validates(w, cfg, req, log) {
      AfterConcat(START, head, GroundingEvents(w, cfg.mode, draft));
      JudgedOnly(w, cfg.mode, s, draft);
    } else {
      AfterConcat(START, head, [AnswerEvent(draft, false)]);
      AfterOne(s, AnswerEvent(draft, false));
    }
  }

  /** Outside the three modes the validator runs and nobody is told the answer. */
  lemma JudgedOnly(w: World, mode: string, s: Stage, a: AgentAnswer)
    requires !KnownMode(mode) && (s.at.Closing? || s.at.Between?) && a.loopId == s.loop
    ensures After(s, GroundingEvents(w, mode, a)) == Some(s.(at := Judged))
  {
    var done := CompletedEvent(a.loopId, FinalVerdict(w, mode), false);
    assert GroundingEvents(w, mode, a) == [GroundingStarted(a.loopId)] + [done];
    AfterOne(s, GroundingStarted(a.loopId));
    AfterConcat(s, [GroundingStarted(a.loopId)], [done]);
    AfterOne(s.(at := Judging), done);
  }

  /** The event stream shows as many steps as the model was asked for, and every tool call that counts. */
  lemma EventsMatchAccounts(w: World, cfg: Config, req: Request, log: Log)
    requires IsLog(w, cfg, log) && Ends(w, cfg, log) && cfg.streaming && KnownMode(cfg.mode)
    requires RunOutcome(w, cfg, req, log).Returned?
    ensures var a := RunOutcome(w, cfg, req, log).answer;
            var events := RunEvents(w, cfg, req, log);
            && CountTools(events) == a.toolCallCount
            && CountSteps(events) == a.stepCount + if Fails(w, cfg, log) then 1 else 0
  {
    RunSettles(w, cfg, req, log);
    StageCounts(RunEvents(w, cfg, req, log));
    OutcomeOfDraft(w, cfg, req, log);
  }
}
