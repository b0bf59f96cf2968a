/**
 * How the loop conducts a run, said of its log and of the world: when it stops, what every request
 * holds, and what the answer says.
 */
module AgentConduct {
  import opened Wrappers
  import opened Text
  import opened ChatTypes
  import opened AgentLoop
  import opened AgentRun
  import opened AgentLaws
  import opened AgentFacts

  // ---------- When the loop stops ----------

  /** The last step filled the context, reached the breaker, or was the second in a row to bring nothing new. */
  ghost predicate Halted(cfg: Config, log: Log)
  {
    && log != []
    && (|| log[|log| - 1].reply.inputTokens >= cfg.contextFitLimit
        || (cfg.stepBreaker > 0 && |log| >= cfg.stepBreaker)
        || StoodStill(log))
  }

  lemma GoesOnExactly(cfg: Config, log: Log)
    ensures GoesOn(cfg, log) <==> !Halted(cfg, log)
  {
    StreakExactly(log);
  }

  lemma {:induction false} PrefixGoesOn(w: World, cfg: Config, log: Log, i: nat)
    requires IsLog(w, cfg, log) && i < |log|
    ensures GoesOn(cfg, log[..i]) && StepOf(w, i, log[i])
  {
    if i < |log| - 1 {
      PrefixGoesOn(w, cfg, Init(log), i);
      assert Init(log)[..i] == log[..i];
    }
  }

  /** No step but the last filled the context, reached the breaker, or was the second in a row to bring nothing new. */
  lemma EarlierStepsPassed(w: World, cfg: Config, log: Log, i: nat)
    requires IsLog(w, cfg, log) && i < |log| - 1
    ensures log[i].reply.inputTokens < cfg.contextFitLimit
    ensures cfg.stepBreaker > 0 ==> i + 1 < cfg.stepBreaker
    ensures !StoodStill(log[..i + 1])
  {
    PrefixGoesOn(w, cfg, log, i + 1);
    GoesOnExactly(cfg, log[..i + 1]);
  }

  /**
   * A step that fills the context, reaches the breaker, or is the second in a row to bring nothing
   * new is the last: one more request, for a synthesis, and an answer that counts the steps taken.
   */
  lemma GuardStops(w: World, cfg: Config, req: Request, log: Log)
    requires IsLog(w, cfg, log) && log != []
    requires || log[|log| - 1].reply.inputTokens >= cfg.contextFitLimit
             || (cfg.stepBreaker > 0 && |log| >= cfg.stepBreaker)
             || StoodStill(log)
    ensures Ends(w, cfg, log)
    ensures DraftAnswer(w, cfg, req, log).stepCount == |log|
    ensures var asked := AllRequests(w, cfg, req, log);
            && |asked| == |log| + 1
            && asked[|log|] != [] && asked[|log|][|asked[|log|]| - 1] == NudgeMsg(ForcedNudge)
  {
    GoesOnExactly(cfg, log);
    RequestsCounted(cfg, req, log);
  }

  /** Any other step is followed by another model call, and an answer that comes of it counts that step too. */
  lemma NothingElseStops(w: World, cfg: Config, req: Request, log: Log)
    requires IsLog(w, cfg, log) && Ends(w, cfg, log)
    requires log != [] ==>
               && log[|log| - 1].reply.inputTokens < cfg.contextFitLimit
               && (cfg.stepBreaker > 0 ==> |log| < cfg.stepBreaker)
               && !StoodStill(log)
    ensures var asked := AllRequests(w, cfg, req, log);
            |asked| > |log| && asked[|log|] == Transcript(cfg, req, log)
    ensures var call := CallResult(w.model(|log|));
            && (call.Ok? ==> call.value.calls == [])
            && DraftAnswer(w, cfg, req, log).stepCount == |log| + if call.Ok? then 1 else 0
  {
    GoesOnExactly(cfg, log);
    RequestsCounted(cfg, req, log);
    hide Transcript;
  }

  lemma {:induction false} RequestsCounted(cfg: Config, req: Request, log: Log)
    ensures |StepRequests(cfg, req, log)| == |log|
    ensures forall i :: 0 <= i < |log| ==> StepRequests(cfg, req, log)[i] == Transcript(cfg, req, log[..i])
  {
    if log != [] {
      RequestsCounted(cfg, req, Init(log));
      assert forall i :: 0 <= i < |log| ==> Init(log)[..i] == log[..i];
    }
  }

  // ---------- What the model is shown ----------

  /** The turns that messages stand for. */
  function TurnsIn(messages: seq<Message>): seq<Turn>
  {
    if messages == [] then []
    else
      (match messages[0]
       case UserMsg(text) => [Turn(SaidByUser, text)]
       case AssistantMsg(content, _) => [Turn(SaidByAssistant, content)]
       case _ => []) + TurnsIn(messages[1..])
  }

  ghost function Readable(history: seq<Turn>): seq<Turn>
  {
    if history == [] then []
    else (if IsBlank(history[0].content) then [] else [history[0]]) + Readable(history[1..])
  }

  lemma {:induction false} TurnsInMore(messages: seq<Message>, m: Message)
    ensures TurnsIn(messages + [m]) == TurnsIn(messages) + TurnsIn([m])
  {
    if messages == [] {
      assert [] + [m] == [m];
    } else {
      assert (messages + [m])[1..] == messages[1..] + [m];
      TurnsInMore(messages[1..], m);
    }
  }

  lemma ReadableCons(t: Turn, history: seq<Turn>)
    ensures Readable([t] + history) == (if IsBlank(t.content) then [] else [t]) + Readable(history)
  {
    assert ([t] + history)[1..] == history;
  }

  lemma {:induction false} ReadableMore(history: seq<Turn>, t: Turn)
    ensures Readable(history + [t]) == Readable(history) + if IsBlank(t.content) then [] else [t]
  {
    var more := if IsBlank(t.content) then [] else [t];
    if history == [] {
      ReadableCons(t, []);
      assert history + [t] == [t] + [];
      assert more + [] == [] + more;
    } else {
      var first, rest := history[0], history[1..];
      ReadableMore(rest, t);
      hide Readable, IsBlank;
      ReadableCons(first, rest);
      ReadableCons(first, rest + [t]);
      assert history == [first] + rest && history + [t] == [first] + (rest + [t]);
    }
  }

  /** Messages that are nothing but what was said, without calls. */
  predicate OnlySaid(messages: seq<Message>)
  {
    forall i :: 0 <= i < |messages| ==>
      messages[i].UserMsg? || (messages[i].AssistantMsg? && messages[i].calls == [])
  }

  lemma {:induction false} HistoryReadsBack(history: seq<Turn>)
    ensures TurnsIn(HistoryMessages(history)) == Readable(history)
    ensures OnlySaid(HistoryMessages(history))
  {
    if history != [] {
      var init, t := history[..|history| - 1], history[|history| - 1];
      HistoryReadsBack(init);
      assert history == init + [t];
      ReadableMore(init, t);
      var m := if t.role.SaidByUser? then UserMsg(t.content) else AssistantMsg(t.content, []);
      TurnsInMore(HistoryMessages(init), m);
      assert TurnsIn([m]) == [t];
      assert HistoryMessages(init) + [] == HistoryMessages(init);
    }
  }

  /** Prompt, what was said so far, question. */
  ghost predicate Opens(cfg: Config, req: Request, messages: seq<Message>)
  {
    exists said ::
      && messages == [SystemMsg(cfg.systemPrompt)] + said + [QuestionMsg(req.question, req.retry)]
      && OnlySaid(said) && TurnsIn(said) == Readable(req.history)
  }

  lemma OpeningOpens(cfg: Config, req: Request)
    ensures Opens(cfg, req, OpeningTranscript(cfg, req))
  {
    HistoryReadsBack(req.history);
    assert OpeningTranscript(cfg, req) ==
           [SystemMsg(cfg.systemPrompt)] + HistoryMessages(req.history) + [QuestionMsg(req.question, req.retry)];
  }

  /** The first request holds the prompt, the readable turns of the history, in order and by the right speaker, and the question. */
  lemma FirstRequestExactly(w: World, cfg: Config, req: Request, log: Log)
    requires IsLog(w, cfg, log) && Ends(w, cfg, log)
    ensures AllRequests(w, cfg, req, log) != [] && Opens(cfg, req, AllRequests(w, cfg, req, log)[0])
  {
    OpeningOpens(cfg, req);
    RequestsCounted(cfg, req, log);
    assert log[..0] == [];
    assert Transcript(cfg, req, []) == OpeningTranscript(cfg, req);
    assert GoesOn(cfg, []);
  }

  /** The nudge after a step that only repeated calls, if the loop does not stop for it. */
  ghost function RepeatedNudge(log: Log, i: nat): seq<Message>
    requires i < |log|
  {
    if Repeats(log, i) && !StoodStill(log[..i + 1]) then [NudgeMsg(RedundantNudge)] else []
  }

  lemma RepeatNudgeExactly(log: Log)
    requires log != []
    ensures RepeatNudge(log) == RepeatedNudge(log, |log| - 1)
  {
    StreakExactly(log);
    RepeatsExactly(log);
    assert log[..|log|] == log;
  }

  lemma RepeatsPrefix(log: Log, i: nat)
    requires i < |log|
    ensures Repeats(log[..i + 1], i) <==> Repeats(log, i)
    decreases |log|
  {
    if i == |log| - 1 {
      assert log[..i + 1] == log;
    } else {
      RepeatsEarlier(log, i);
      RepeatsPrefix(Init(log), i);
      assert Init(log)[..i + 1] == log[..i + 1];
    }
  }

  /** What the messages of a step are: the reply with its calls, and what came of each call. */
  ghost predicate TellsStep(w: World, i: nat, s: ToolStep, messages: seq<Message>)
  {
    && |messages| == 2 && messages[0] == AssistantMsg(s.reply.content, s.reply.calls)
    && messages[1].ToolMsg? && Told(w, i, s.reply.calls, messages[1].results)
  }

  lemma StepIsTold(w: World, i: nat, s: ToolStep)
    requires StepOf(w, i, s)
    ensures TellsStep(w, i, s, StepMessages(s))
  {
    MessagesTell(w, i, s.reply.calls, |s.reply.calls|);
    assert s.reply.calls[..|s.reply.calls|] == s.reply.calls;
  }

  /** A checkpoint every so many steps, as many as the budget says and at least every step. */
  ghost function CheckpointNudges(cfg: Config, steps: nat): seq<Message>
  {
    if steps % (if cfg.stepBudget >= 1 then cfg.stepBudget else 1) == 0 then [NudgeMsg(CheckpointNudge)] else []
  }

  /** The request before and the request after the i-th tool step. */
  lemma RequestsAround(w: World, cfg: Config, req: Request, log: Log, i: nat)
    requires IsLog(w, cfg, log) && Ends(w, cfg, log) && i < |log|
    ensures var asked := AllRequests(w, cfg, req, log);
            && |asked| > i + 1 && asked[i] == Transcript(cfg, req, log[..i])
            && asked[i + 1] == if i + 1 == |log| && Halted(cfg, log)
                               then StoppedTranscript(cfg, req, log) + [NudgeMsg(ForcedNudge)]
                               else Transcript(cfg, req, log[..i + 1])
  {
    hide Transcript, StoppedTranscript, Halted, GoesOn;
    GoesOnExactly(cfg, log);
    RequestsCounted(cfg, req, log);
    assert log[..|log|] == log;
  }

  /**
   * Each request after a tool step is the one before it, then the reply with its calls, the result
   * of every call as the tools gave it, and the nudges that are due: for a repeat, and then for the
   * forced synthesis when the loop stops here, or for a checkpoint when it does not.
   */
  lemma NextRequestExactly(w: World, cfg: Config, req: Request, log: Log, i: nat)
    requires IsLog(w, cfg, log) && Ends(w, cfg, log) && i < |log|
    ensures CallResult(w.model(i)) == Ok(log[i].reply)
    ensures var asked := AllRequests(w, cfg, req, log);
            && |asked| > i + 1
            && exists told :: TellsStep(w, i, log[i], told) &&
                 asked[i + 1] == asked[i] + told + RepeatedNudge(log, i) +
                   if i + 1 == |log| && Halted(cfg, log) then [NudgeMsg(ForcedNudge)] else CheckpointNudges(cfg, i + 1)
  {
    hide IsLog, Ends, Transcript, StoppedTranscript, TellsStep, RepeatNudge, RepeatedNudge, StepMessages, Checkpoint,
      Halted, CheckpointNudges, AllRequests, StepRequests;
    PrefixGoesOn(w, cfg, log, i);
    StepIsTold(w, i, log[i]);
    var upto := log[..i + 1];
    assert upto != [] && Init(upto) == log[..i] && Last(upto) == log[i];
    RepeatNudgeExactly(upto);
    NudgePrefix(log, i);
    TranscriptStep(cfg, req, upto);
    assert i + 1 == |log| ==> upto == log;
    RequestsAround(w, cfg, req, log, i);
  }

  lemma NudgePrefix(log: Log, i: nat)
    requires i < |log|
    ensures RepeatedNudge(log[..i + 1], i) == RepeatedNudge(log, i)
  {
    RepeatsPrefix(log, i);
    assert log[..i + 1][..i + 1] == log[..i + 1];
  }

  lemma TranscriptStep(cfg: Config, req: Request, log: Log)
    requires log != []
    ensures StoppedTranscript(cfg, req, log) == Transcript(cfg, req, Init(log)) + StepMessages(Last(log)) + RepeatNudge(log)
    ensures Transcript(cfg, req, log) == StoppedTranscript(cfg, req, log) + CheckpointNudges(cfg, |log|)
  {
  }

  /** After a reply without calls there is one more request exactly when that reply is blank: it, and the ask for a synthesis. */
  lemma LastRequestExactly(w: World, cfg: Config, req: Request, log: Log)
    requires IsLog(w, cfg, log) && Ends(w, cfg, log) && GoesOn(cfg, log)
    ensures var asked, call := AllRequests(w, cfg, req, log), CallResult(w.model(|log|));
            if call.Ok? && IsBlank(call.value.content)
            then && |asked| == |log| + 2
                 && asked[|log| + 1] ==
                    asked[|log|] + [AssistantMsg(call.value.content, []), NudgeMsg(SynthesisNudge)]
            else |asked| == |log| + 1
  {
    RequestsCounted(cfg, req, log);
    hide Transcript, GoesOn, CallResult;
  }

  // ---------- What the answer says ----------

  /**
   * The answer a model volunteers is its own text. Only when that is blank is it the synthesis, and
   * only when that is missing or blank too is it the fallback.
   */
  lemma VolunteeredAnswerExactly(w: World, cfg: Config, req: Request, log: Log, reply: Reply)
    requires Ends(w, cfg, log) && GoesOn(cfg, log) && CallResult(w.model(|log|)) == Ok(reply)
    ensures reply.calls == []
    ensures var a := DraftAnswer(w, cfg, req, log);
            && a.content == (if !IsBlank(reply.content) then reply.content
                             else if w.synthesis.Some? && !IsBlank(w.synthesis.value.content)
                             then w.synthesis.value.content
                             else EMPTY_ANSWER_FALLBACK)
            && a.stepCount == |log| + 1 && a.stopReason == StopAnswer && a.loopId == w.loopId
  {
    hide CitationsOf, ExecutedIn, TokensIn, TokensOut, GoesOn;
    BlankIsBlank();
  }

  lemma BlankIsBlank()
    ensures IsBlank("")
  {
  }

  /** The i-th turn of the history is the last readable one that the assistant said. */
  ghost predicate LastAnswerOf(history: seq<Turn>, i: nat)
  {
    && i < |history| && history[i].role.SaidByAssistant? && !IsBlank(history[i].content)
    && forall j :: i < j < |history| ==> history[j].role.SaidByUser? || IsBlank(history[j].content)
  }

  lemma LastAnswerMore(history: seq<Turn>, t: Turn, i: nat)
    ensures LastAnswerOf(history + [t], i) <==>
            if t.role.SaidByAssistant? && !IsBlank(t.content) then i == |history| else LastAnswerOf(history, i)
  {
    var all := history + [t];
    assert all[|history|] == t;
    assert forall j :: 0 <= j < |history| ==> all[j] == history[j];
    hide IsBlank;
  }

  /** The earlier answer is the last readable assistant turn of the history, and the empty text when there is none. */
  lemma {:induction false} EarlierAnswerExactly(history: seq<Turn>)
    ensures forall i: nat :: LastAnswerOf(history, i) ==> LastAssistantText(HistoryMessages(history)) == history[i].content
    ensures (forall i: nat :: !LastAnswerOf(history, i)) ==> LastAssistantText(HistoryMessages(history)) == ""
  {
    if history != [] {
      var k := |history| - 1;
      var init, t := history[..k], history[k];
      EarlierAnswerExactly(init);
      assert history == init + [t];
      HistoryMore(init, t);
      forall i: nat
        ensures LastAnswerOf(history, i) <==>
                if t.role.SaidByAssistant? && !IsBlank(t.content) then i == k else LastAnswerOf(init, i)
      {
        LastAnswerMore(init, t, i);
      }
      LastTextMore(HistoryMessages(init), UserMsg(t.content));
      LastTextMore(HistoryMessages(init), AssistantMsg(t.content, []));
      BlankIsBlank();
      hide LastAssistantText, LastAnswerOf, HistoryMessages, IsBlank;
      if t.role.SaidByAssistant? && !IsBlank(t.content) {
        assert LastAnswerOf(history, k);
      }
    }
  }

  lemma HistoryMore(history: seq<Turn>, t: Turn)
    ensures HistoryMessages(history + [t]) ==
            if IsBlank(t.content) then HistoryMessages(history)
            else HistoryMessages(history) + [if t.role.SaidByUser? then UserMsg(t.content) else AssistantMsg(t.content, [])]
  {
    assert (history + [t])[..|history|] == history;
    assert HistoryMessages(history) + [] == HistoryMessages(history);
  }

  lemma LastTextMore(messages: seq<Message>, m: Message)
    ensures LastAssistantText(messages + [m]) ==
            if m.AssistantMsg? && m.content != "" then m.content else LastAssistantText(messages)
  {
    assert (messages + [m])[..|messages|] == messages;
  }

  /** A forced answer is the synthesis, else this run's latest words, else an earlier answer, else the fallback. */
  lemma ForcedAnswerExactly(w: World, cfg: Config, req: Request, log: Log)
    requires IsLog(w, cfg, log) && log != [] && !GoesOn(cfg, log)
    ensures Ends(w, cfg, log)
    ensures var a, earlier := DraftAnswer(w, cfg, req, log), LastAssistantText(HistoryMessages(req.history));
            && a.content == (if w.synthesis.Some? && !IsBlank(w.synthesis.value.content)
                             then w.synthesis.value.content
                             else if !Wordless(log) then LastSpoken(log)
                             else if earlier != "" then earlier
                             else EMPTY_ANSWER_FALLBACK)
            && a.stepCount == |log| && a.stopReason == StopAnswer && a.loopId == w.loopId
  {
    ForcedTextExactly(w, cfg, req, log);
    BlankIsBlank();
    hide CitationsOf, ExecutedIn, TokensIn, TokensOut, GoesOn, StoppedTranscript, Wordless, ForcedText;
  }

  /** When the model call fails the answer says so, and counts only the steps before it. */
  lemma FailedAnswerExactly(w: World, cfg: Config, req: Request, log: Log, f: Failure)
    requires Ends(w, cfg, log) && GoesOn(cfg, log) && CallResult(w.model(|log|)) == Err(f)
    ensures var a := DraftAnswer(w, cfg, req, log);
            && a.content == FailureMessage(f) && !IsBlank(a.content)
            && a.stepCount == |log| && a.stopReason == StopLoopError && a.loopId == w.loopId
    ensures RunOutcome(w, cfg, req, log) ==
            if f.WolfFailure? && !cfg.streaming then Raised(f) else Returned(DraftAnswer(w, cfg, req, log))
  {
    FailureIsReadable(f);
  }

  lemma FailureIsReadable(f: Failure)
    ensures !IsBlank(FailureMessage(f))
  {
    var text := FailureMessage(f);
    assert text[0] == 'W' && !IsPySpace('W');
  }

  // ---------- What grounding makes of it ----------

  /** The c-th call of step `i` went well and named a source. */
  ghost predicate CitedAt(w: World, log: Log, i: nat, c: nat)
  {
    i < |log| && c < |log[i].reply.calls| && CitedBy(w.tool(i, c)) != []
  }

  ghost predicate FailedAt(w: World, log: Log, i: nat, c: nat)
  {
    i < |log| && c < |log[i].reply.calls| && !(w.tool(i, c).success && w.tool(i, c).result.Some?)
  }

  /** The c-th call of step `i` gave back `d`. */
  ghost predicate Gave(w: World, log: Log, i: nat, c: nat, d: Dispatch)
  {
    i < |log| && c < |log[i].reply.calls| && w.tool(i, c) == d
  }

  ghost predicate CameOf(done: seq<Executed>, x: nat, d: Dispatch)
  {
    x < |done| && done[x].outcome == d
  }

  /** What the calls of a run gave back is what the tools gave. */
  lemma {:induction false} ExecutedExactly(w: World, cfg: Config, log: Log, d: Dispatch)
    requires IsLog(w, cfg, log)
    ensures (exists x: nat :: CameOf(ExecutedIn(log), x, d)) <==> exists i: nat, c: nat :: Gave(w, log, i, c, d)
  {
    if log != [] {
      var k, own := |log| - 1, Last(log).done;
      ExecutedExactly(w, cfg, Init(log), d);
      forall c: nat | c < |own|
        ensures own[c].outcome == w.tool(k, c)
      {
        OutcomesAt(w, k, Last(log).reply.calls, |own|, c);
      }
      hide IsLog, GoesOn, StepOf;
      if x: nat :| CameOf(ExecutedIn(log), x, d) {
        CameEarlier(w, log, x, d);
      }
      if i: nat, c: nat :| Gave(w, log, i, c, d) {
        GaveEarlier(w, log, i, c, d);
      }
    }
  }

  lemma CameEarlier(w: World, log: Log, x: nat, d: Dispatch)
    requires log != [] && CameOf(ExecutedIn(log), x, d) && |Last(log).done| == |Last(log).reply.calls|
    requires forall c: nat :: c < |Last(log).done| ==> Last(log).done[c].outcome == w.tool(|log| - 1, c)
    requires (exists y: nat :: CameOf(ExecutedIn(Init(log)), y, d)) ==> exists i: nat, c: nat :: Gave(w, Init(log), i, c, d)
    ensures exists i: nat, c: nat :: Gave(w, log, i, c, d)
  {
    var before := ExecutedIn(Init(log));
    if x < |before| {
      assert CameOf(before, x, d);
      var i: nat, c: nat :| Gave(w, Init(log), i, c, d);
      assert Gave(w, log, i, c, d);
    } else {
      assert Last(log).done[x - |before|].outcome == d;
      assert Gave(w, log, |log| - 1, x - |before|, d);
    }
  }

  lemma GaveEarlier(w: World, log: Log, i: nat, c: nat, d: Dispatch)
    requires log != [] && Gave(w, log, i, c, d) && |Last(log).done| == |Last(log).reply.calls|
    requires forall n: nat :: n < |Last(log).done| ==> Last(log).done[n].outcome == w.tool(|log| - 1, n)
    requires (exists j: nat, n: nat :: Gave(w, Init(log), j, n, d)) ==> exists y: nat :: CameOf(ExecutedIn(Init(log)), y, d)
    ensures exists x: nat :: CameOf(ExecutedIn(log), x, d)
  {
    var before := ExecutedIn(Init(log));
    if i == |log| - 1 {
      assert CameOf(ExecutedIn(log), |before| + c, d);
    } else {
      assert Gave(w, Init(log), i, c, d);
      var y: nat :| CameOf(before, y, d);
      assert CameOf(ExecutedIn(log), y, d);
    }
  }

  /** The calls of a run stand in the order of its steps, each with what its tool gave back. */
  lemma {:induction false} ExecutedAt(w: World, cfg: Config, log: Log, i: nat, c: nat)
    requires IsLog(w, cfg, log) && i < |log| && c < |log[i].reply.calls|
    ensures var at := |ExecutedIn(log[..i])| + c;
            at < |ExecutedIn(log)| && ExecutedIn(log)[at] == Executed(log[i].reply.calls[c], w.tool(i, c))
  {
    var k := |log| - 1;
    if i < k {
      ExecutedAt(w, cfg, Init(log), i, c);
      assert Init(log)[..i] == log[..i];
    } else {
      assert log[..i] == Init(log);
      OutcomesAt(w, k, Last(log).reply.calls, |Last(log).done|, c);
    }
  }

  /** The validator is asked exactly when there is one, the call did not fail, the draft can be read, and some call named a source or failed. */
  lemma ValidatesExactly(w: World, cfg: Config, req: Request, log: Log)
    requires IsLog(w, cfg, log) && Ends(w, cfg, log)
    ensures Validates(w, cfg, req, log) <==>
            && cfg.hasValidator
            && (Halted(cfg, log) || CallResult(w.model(|log|)).Ok?)
            && !IsBlank(DraftAnswer(w, cfg, req, log).content)
            && exists i: nat, c: nat :: CitedAt(w, log, i, c) || FailedAt(w, log, i, c)
  {
    GoesOnExactly(cfg, log);
    EvidenceSomewhere(w, cfg, log);
    DraftCites(w, cfg, req, log);
    hide IsLog, DraftAnswer, CitationsOf, FailuresOf, ExecutedIn, CitedAt, FailedAt, Halted, IsBlank;
  }

  lemma DraftCites(w: World, cfg: Config, req: Request, log: Log)
    requires Ends(w, cfg, log)
    ensures DraftAnswer(w, cfg, req, log).citations == CitationsOf(ExecutedIn(log))
  {
  }

  lemma EvidenceSomewhere(w: World, cfg: Config, log: Log)
    requires IsLog(w, cfg, log)
    ensures CitationsOf(ExecutedIn(log)) != [] || FailuresOf(ExecutedIn(log)) != [] <==>
            exists i: nat, c: nat :: CitedAt(w, log, i, c) || FailedAt(w, log, i, c)
  {
    var done := ExecutedIn(log);
    CitedExactly(done);
    FailedExactly(done);
    hide CitationsOf, FailuresOf, ExecutedIn, IsLog, CitedBy;
    if x: nat :| x < |done| && (CitedBy(done[x].outcome) != [] || !Went(done[x].outcome)) {
      var d := done[x].outcome;
      assert CameOf(ExecutedIn(log), x, d);
      ExecutedExactly(w, cfg, log, d);
      var i: nat, c: nat :| Gave(w, log, i, c, d);
      assert CitedAt(w, log, i, c) || FailedAt(w, log, i, c);
    }
    if i: nat, c: nat :| CitedAt(w, log, i, c) || FailedAt(w, log, i, c) {
      assert Gave(w, log, i, c, w.tool(i, c));
      ExecutedExactly(w, cfg, log, w.tool(i, c));
      var x: nat :| CameOf(done, x, w.tool(i, c));
      assert CitedBy(done[x].outcome) != [] || !Went(done[x].outcome);
    }
  }

  /** What the validator of a run says in the end. */
  ghost predicate Says(w: World, cfg: Config, v: Verdict)
  {
    if cfg.streaming && cfg.mode == "incremental" then w.snapshots != [] && w.snapshots[|w.snapshots| - 1] == v
    else v == w.judge
  }

  /** The answer returned is the draft, with the text and the counts of the verdict that ran, if one did. */
  lemma GroundedAnswerExactly(w: World, cfg: Config, req: Request, log: Log, v: Verdict)
    requires Ends(w, cfg, log) && RunOutcome(w, cfg, req, log).Returned?
    ensures var a, d := RunOutcome(w, cfg, req, log).answer, DraftAnswer(w, cfg, req, log);
            && (Validates(w, cfg, req, log) && Says(w, cfg, v) && v.ran ==>
                  a == d.(content := v.annotated, supported := Some(v.supported), unsupported := Some(v.unsupported),
                          uncertain := Some(v.uncertain), unverifiable := Some(v.unverifiable)))
            && (!Validates(w, cfg, req, log) || (Says(w, cfg, v) && !v.ran) ==> a == d)
            && (cfg.streaming && cfg.mode == "incremental" && w.snapshots == [] ==> a == d)
  {
  }
}
