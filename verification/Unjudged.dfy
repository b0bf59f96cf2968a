/**
 * Runs whose answer is grounded on nothing: when the loop hands the validator text to judge but no
 * evidence to judge it by, and what that does to the marks on the answer.
 */
module Unjudged {
  import opened Wrappers
  import opened Text
  import opened ChatTypes
  import opened AgentLoop
  import opened AgentRun
  import opened AgentLaws
  import opened RunReading

  /** Nothing that the validator builds its evidence from. */
  ghost predicate NoEvidence(done: seq<Executed>)
  {
    ResultsOf(done) == [] && ChunksOf(done) == [] && FailuresOf(done) == []
  }

  /** A lookup in the knowledge base that succeeded and found nothing. It still yields a citation. */
  predicate EmptyLookup(x: Executed)
  {
    Succeeded(x.outcome) && x.call.name == RUNBOOK && x.outcome.result.value.hits == []
  }

  ghost predicate OnlyEmptyLookups(done: seq<Executed>)
  {
    forall i :: 0 <= i < |done| ==> EmptyLookup(done[i])
  }

  /** There is no evidence exactly when every tool call was a lookup that found nothing. */
  lemma {:induction false} NoEvidenceExactly(done: seq<Executed>)
    ensures NoEvidence(done) <==> OnlyEmptyLookups(done)
  {
    if done != [] {
      var init, x := done[..|done| - 1], done[|done| - 1];
      NoEvidenceExactly(init);
      assert done == init + [x];
      assert OnlyEmptyLookups(done) <==> OnlyEmptyLookups(init) && EmptyLookup(x);
    }
  }

  /** The server's validator: without evidence it yields no snapshot and does not call its judge; otherwise it yields some. */
  ghost predicate NeedsEvidence(w: World, log: Log)
  {
    && (w.snapshots == [] <==> NoEvidence(ExecutedIn(log)))
    && (NoEvidence(ExecutedIn(log)) ==> !w.judge.ran)
  }

  /**
   * With such a validator the verdicts that an incremental run announces never come exactly when
   * every tool call of the run was a lookup that found nothing.
   */
  lemma VerdictsNeverComeExactly(w: World, cfg: Config, req: Request, log: Log)
    requires Ends(w, cfg, log) && NeedsEvidence(w, log)
    ensures VerdictsNeverCome(w, cfg, req, log) <==>
            Validates(w, cfg, req, log) && cfg.mode == INCREMENTAL && OnlyEmptyLookups(ExecutedIn(log))
  {
    NoEvidenceExactly(ExecutedIn(log));
  }

  /**
   * The same runs in deferred mode are marked as ones whose judge failed, though there was nothing
   * to judge and it was never asked.
   */
  lemma NothingToJudgeIsMarked(w: World, cfg: Config, req: Request, log: Log)
    requires Ends(w, cfg, log) && NeedsEvidence(w, log) && cfg.mode == DEFERRED
    requires Validates(w, cfg, req, log) && OnlyEmptyLookups(ExecutedIn(log))
    ensures JudgeDidNotRun(w, cfg, req, log)
  {
    NoEvidenceExactly(ExecutedIn(log));
  }

  // ---------- Such a run ----------

  const LOOKUP := ToolCall("call-1", RUNBOOK, "{}")
  const FOUND_NOTHING := Payload(Some(Citation(RUNBOOK, "")), [], [], "{}")

  function AskOnce(step: nat): ModelCall
  {
    Blocking(Ok(if step == 0 then Reply("", [LOOKUP], 0, 0) else Reply("hi", [], 0, 0)))
  }

  function FindNothing(step: nat, j: nat): Dispatch
  {
    Dispatch(RUNBOOK, "call-1", true, Some(FOUND_NOTHING), None)
  }

  /** A model that looks something up, finds nothing, and answers "hi". */
  function Greeter(loopId: string): World
  {
    World(loopId, AskOnce, FindNothing, None, Verdict(false, "hi", 0, 0, 0, 0), [])
  }

  function Streaming(mode: string): Config
  {
    Config("", 10, 0, 1, true, mode, true)
  }

  ghost function GreeterStep(loopId: string): ToolStep
  {
    ToolStep(Reply("", [LOOKUP], 0, 0), Outcomes(Greeter(loopId), 0, [LOOKUP], 1))
  }

  /** One lookup without hits, then an answer: in incremental mode its verdicts never come, in deferred mode it is marked unjudged. */
  lemma GreetingIsNeverJudged(loopId: string, req: Request, mode: string)
    requires AnswersFirst(mode)
    ensures var w, cfg, log := Greeter(loopId), Streaming(mode), [GreeterStep(loopId)];
            && IsLog(w, cfg, log) && Ends(w, cfg, log) && NeedsEvidence(w, log)
            && (mode == INCREMENTAL ==> VerdictsNeverCome(w, cfg, req, log))
            && (mode == DEFERRED ==> JudgeDidNotRun(w, cfg, req, log))
  {
    var w, cfg, s := Greeter(loopId), Streaming(mode), GreeterStep(loopId);
    var log := [] + [s];
    GreeterRuns(loopId, mode);
    LogStep(cfg, [], s);
    assert ExecutedIn(log) == [] + s.done;
    assert OnlyEmptyLookups(ExecutedIn(log));
    NoEvidenceExactly(ExecutedIn(log));
    LookupIsCited(s.done);
    HiIsReadable();
    assert log == [s];
    assert VolunteeredText(w, "hi") == "hi";
    assert DraftAnswer(w, cfg, req, log).content == "hi";
    VerdictsNeverComeExactly(w, cfg, req, log);
  }

  lemma HiIsReadable()
    ensures !IsBlank("hi")
  {
    var text := "hi";
    assert text[0] == 'h' && !IsPySpace('h');
  }

  lemma GreeterRuns(loopId: string, mode: string)
    ensures var w, cfg, log := Greeter(loopId), Streaming(mode), [GreeterStep(loopId)];
            && IsLog(w, cfg, log) && GoesOn(cfg, log) && Ends(w, cfg, log)
            && CallResult(w.ModelAt(|log|)) == Ok(Reply("hi", [], 0, 0))
            && GreeterStep(loopId).done == [Executed(LOOKUP, FindNothing(0, 0))]
  {
    var w, cfg, s := Greeter(loopId), Streaming(mode), GreeterStep(loopId);
    LogStep(cfg, [], s);
    assert [] + [s] == [s];
    assert [LOOKUP][..0] == [];
    assert Signature(LOOKUP) in SignatureSet(s.reply.calls);
    assert Outcomes(w, 0, [LOOKUP], 1) == Outcomes(w, 0, [LOOKUP], 0) + [Executed(LOOKUP, w.ToolAt(0, 0))];
  }

  lemma LookupIsCited(done: seq<Executed>)
    requires done == [Executed(LOOKUP, FindNothing(0, 0))]
    ensures CitationsOf(done) != []
  {
    assert done[..0] == [];
  }
}
