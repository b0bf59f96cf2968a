/**
 * Two models that drive the loop to its edges: one attains the bound of the no-progress guard for
 * every number of distinct calls, one makes a forced stop return an earlier answer.
 */
module AgentBound {
  import opened Wrappers
  import opened Text
  import opened ChatTypes
  import opened AgentLoop
  import opened AgentRun
  import opened AgentLaws

  /** Tool names of different lengths, so no two signatures agree. */
  function ToolName(j: nat): string
  {
    if j == 0 then "" else ToolName(j - 1) + "t"
  }

  function Call(j: nat): ToolCall
  {
    ToolCall("", ToolName(j), "")
  }

  lemma {:induction false} NameLength(j: nat)
    ensures |ToolName(j)| == j && |Signature(Call(j))| == j + 1
  {
    if j > 0 {
      NameLength(j - 1);
    }
  }

  /** Make each of `k` calls twice in a row, the last one three times. */
  function Pick(k: nat, step: nat): nat
    requires k >= 1
  {
    if step / 2 < k then step / 2 else k - 1
  }

  function Dawdler(k: nat, loopId: string): World
    requires k >= 1
  {
    World(loopId,
          (i: nat) => Blocking(Ok(Reply("", [Call(Pick(k, i))], 0, 0))),
          (i: nat, j: nat) => Dispatch("", "", false, None, None),
          None, Verdict(false, "", 0, 0, 0, 0), [])
  }

  const PATIENT := Config("", 1, 0, 1, false, BLOCKING, true)

  ghost function DawdlerStep(w: World, k: nat, i: nat): ToolStep
    requires k >= 1
  {
    ToolStep(Reply("", [Call(Pick(k, i))], 0, 0), Outcomes(w, i, [Call(Pick(k, i))], 1))
  }

  ghost function DawdlerLog(w: World, k: nat, n: nat): Log
    requires k >= 1
  {
    if n == 0 then [] else DawdlerLog(w, k, n - 1) + [DawdlerStep(w, k, n - 1)]
  }

  /** The signatures of the first `m` calls. */
  ghost function FirstSignatures(m: nat): set<string>
  {
    if m == 0 then {} else FirstSignatures(m - 1) + {Signature(Call(m - 1))}
  }

  lemma {:induction false} FirstSignaturesSize(m: nat)
    ensures |FirstSignatures(m)| == m
    ensures forall s :: s in FirstSignatures(m) ==> |s| <= m
  {
    if m > 0 {
      FirstSignaturesSize(m - 1);
      NameLength(m - 1);
    }
  }

  lemma {:induction false} CallKnown(m: nat, j: nat)
    requires j < m
    ensures Signature(Call(j)) in FirstSignatures(m)
  {
    if j < m - 1 {
      CallKnown(m - 1, j);
    }
  }

  function Half(k: nat, n: nat): nat
  {
    if n >= 2 * k then k else (n + 1) / 2
  }

  function StreakAt(k: nat, n: nat): nat
  {
    if n == 2 * k + 1 then 2 else if n > 0 && n % 2 == 0 then 1 else 0
  }

  /** A call is new on every even step but the last, and known on every other. */
  lemma PickIsNew(k: nat, n: nat)
    requires k >= 1 && n <= 2 * k
    ensures Pick(k, n) <= Half(k, n) && StreakAt(k, n) < 2
    ensures if Pick(k, n) == Half(k, n)
            then Half(k, n + 1) == Half(k, n) + 1 && StreakAt(k, n + 1) == 0
            else Half(k, n + 1) == Half(k, n) && StreakAt(k, n + 1) == StreakAt(k, n) + 1
  {
    var i := n / 2;
    assert n == 2 * i || n == 2 * i + 1;
  }

  lemma Untouched(k: nat)
    requires k >= 1
    ensures Half(k, 0) == 0 && StreakAt(k, 0) == 0 && Streak([]) == 0 && Signatures([]) == {}
  {
  }

  lemma DawdlerTakes(k: nat, loopId: string, i: nat)
    requires k >= 1
    ensures StepOf(Dawdler(k, loopId), i, DawdlerStep(Dawdler(k, loopId), k, i))
    ensures DawdlerStep(Dawdler(k, loopId), k, i).reply.inputTokens == 0
    ensures SignatureSet(DawdlerStep(Dawdler(k, loopId), k, i).reply.calls) == {Signature(Call(Pick(k, i)))}
  {
    assert [Call(Pick(k, i))][..0] == [];
  }

  /** What is known of the first `n` steps: half as many calls known, and every second step a repeat. */
  ghost predicate Progressed(k: nat, loopId: string, n: nat)
    requires k >= 1
  {
    var log := DawdlerLog(Dawdler(k, loopId), k, n);
    && |log| == n && IsLog(Dawdler(k, loopId), PATIENT, log)
    && Signatures(log) == FirstSignatures(Half(k, n))
    && Streak(log) == StreakAt(k, n)
    && (log != [] ==> Last(log).reply.inputTokens == 0)
  }

  lemma {:induction false} DawdlerProgress(k: nat, loopId: string, n: nat)
    requires k >= 1 && n <= 2 * k + 1
    ensures Progressed(k, loopId, n)
  {
    if n > 0 {
      DawdlerProgress(k, loopId, n - 1);
      DawdlerGoesOn(k, loopId, n - 1);
    } else {
      Untouched(k);
    }
  }

  lemma DawdlerGoesOn(k: nat, loopId: string, n: nat)
    requires k >= 1 && n <= 2 * k && Progressed(k, loopId, n)
    ensures Progressed(k, loopId, n + 1)
  {
    hide Dawdler, Outcomes, Signature, SignatureSet, ToolName, Pick, Half, GoesOn, StreakAt, Streak, Signatures,
      LastRedundant, DawdlerStep, StepOf;
    var w := Dawdler(k, loopId);
    var before, s := DawdlerLog(w, k, n), DawdlerStep(w, k, n);
    LogStep(PATIENT, before, s);
    DawdlerTakes(k, loopId, n);
    PickIsNew(k, n);
    NewOrKnown(Half(k, n), Pick(k, n));
    GoesOnSoFar(before);
  }

  /** A call is known exactly when it is among the first `m`. */
  lemma NewOrKnown(m: nat, j: nat)
    requires j <= m
    ensures Signature(Call(j)) in FirstSignatures(m) <==> j < m
    ensures j < m ==> FirstSignatures(m) + {Signature(Call(j))} == FirstSignatures(m)
  {
    FirstSignaturesSize(m);
    NameLength(j);
    if j < m {
      CallKnown(m, j);
    }
  }

  lemma GoesOnSoFar(log: Log)
    requires Streak(log) < MAX_REDUNDANT_STREAK && (log != [] ==> Last(log).reply.inputTokens == 0)
    ensures GoesOn(PATIENT, log)
  {
  }

  /** For every K there is a run that uses K distinct calls and reports 2K + 1 steps. */
  lemma BoundAttained(k: nat, loopId: string, req: Request)
    requires k >= 1
    ensures var w := Dawdler(k, loopId);
            var log := DawdlerLog(w, k, 2 * k + 1);
            && IsLog(w, PATIENT, log) && Ends(w, PATIENT, log)
            && |Signatures(log)| == k
            && RunOutcome(w, PATIENT, req, log).Returned?
            && RunOutcome(w, PATIENT, req, log).answer.stepCount == 2 * k + 1
  {
    DawdlerProgress(k, loopId, 2 * k + 1);
    FirstSignaturesSize(k);
  }

  // ---------- A forced stop that answers with an earlier answer ----------

  /** A model that repeats one call and says nothing, with no synthesis: the loop is stopped and returns the last answer of the history. */
  lemma EarlierAnswerReturned(loopId: string, question: string, earlier: string)
    requires !IsBlank(earlier)
    ensures var w := Dawdler(1, loopId);
            var req := Request(question, false, [Turn(SaidByUser, question), Turn(SaidByAssistant, earlier)]);
            var log := DawdlerLog(w, 1, 3);
            && IsLog(w, PATIENT, log) && Ends(w, PATIENT, log)
            && RunOutcome(w, PATIENT, req, log).Returned?
            && RunOutcome(w, PATIENT, req, log).answer.content == earlier
  {
    var w := Dawdler(1, loopId);
    var log := DawdlerLog(w, 1, 3);
    var history := [Turn(SaidByUser, question), Turn(SaidByAssistant, earlier)];
    var req := Request(question, false, history);
    DawdlerProgress(1, loopId, 3);
    DawdlerSaysNothing(w, 1, 3);
    TranscriptFallback(PATIENT, req, log);
    SilentExactly(log);
    LastTurnSpeaks(history[..1], earlier);
    assert history == history[..1] + [Turn(SaidByAssistant, earlier)];
  }

  lemma {:induction false} DawdlerSaysNothing(w: World, k: nat, n: nat)
    requires k >= 1
    ensures Wordless(DawdlerLog(w, k, n))
  {
    if n > 0 {
      DawdlerSaysNothing(w, k, n - 1);
    }
  }

  lemma LastTurnSpeaks(history: seq<Turn>, text: string)
    requires !IsBlank(text)
    ensures LastAssistantText(HistoryMessages(history + [Turn(SaidByAssistant, text)])) == text
  {
    var all := history + [Turn(SaidByAssistant, text)];
    assert all[..|all| - 1] == history;
    var messages := HistoryMessages(history) + [AssistantMsg(text, [])];
    assert HistoryMessages(all) == messages;
    assert messages[|messages| - 1] == AssistantMsg(text, []);
  }
}
