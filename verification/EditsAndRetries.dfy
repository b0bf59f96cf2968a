/** Whole turns that ask again: an edited question, and another answer to an old one. */
module EditsAndRetries {
  import opened Wrappers
  import opened Sequences
  import opened Text
  import opened ChatTypes
  import opened Branches
  import opened BranchLaws
  import opened StreamSpec
  import opened Trace
  import opened AgentLoop
  import opened AgentRun
  import opened AgentLaws
  import opened ClientRun
  import opened ClientInvariant
  import opened ClientLaws
  import opened RunReading
  import opened EndToEnd

  /** With `q` the last visible node but for an answer `id` below it: the context is that of `q`, `q`, and the answer. */
  lemma AnswerEndsHistory(c: Conversation, d: Conversation, q: NodeId, id: NodeId)
    requires WellFormed(c) && WellFormed(d) && KeepsTurns(c, d, id) && id !in c.nodes
    requires q in ActiveIds(c) && ActiveIds(d) == Through(ActiveIds(c), q) + [id]
    ensures id in d.nodes
    ensures History(d, None) == History(c, Some(q)) + [TurnOf(c.nodes[q])] + [TurnOf(d.nodes[id])]
  {
    hide Acyclic, NodeOk, SlotOk, PathFrom, Through, Before, TurnsAt;
    var ids := ActiveIds(c);
    ThroughIsPrefix(ids, q);
    BeforeStops(ids, q);
    var up := Before(ids, q);
    ActivePathKnown(d);
    assert ActiveIds(d)[|up| + 1] == id;
    forall x | x in up + [q]
      ensures x in c.nodes && x in d.nodes && TurnOf(c.nodes[x]) == TurnOf(d.nodes[x])
    {
      assert x in ids;
    }
    SameTurns(c, d, up + [q]);
    OneMoreTurn(c, up, q);
    OneMoreTurn(d, up + [q], id);
  }

  lemma ActivePathKnown(c: Conversation)
    requires Acyclic(c)
    ensures forall x :: x in ActiveIds(c) ==> x in c.nodes
  {
  }

  lemma OneMoreTurn(c: Conversation, ids: seq<NodeId>, x: NodeId)
    requires x in c.nodes && forall id :: id in ids ==> id in c.nodes
    ensures TurnsAt(c, ids + [x]) == TurnsAt(c, ids) + [TurnOf(c.nodes[x])]
  {
    assert (ids + [x])[..|ids|] == ids;
  }

  /** The answer to a visible question lands right below it, and ends the context of the next turn. */
  lemma AnswerLands(s: Local, w: World, cfg: Config, req: Request, log: Log, shown: seq<bool>, id: NodeId, spare: NodeId)
    requires IsLog(w, cfg, log) && Ends(w, cfg, log) && cfg.streaming && KnownMode(cfg.mode)
    requires Awaiting(s, w.loopId, id, spare) && |shown| == |RunEvents(w, cfg, req, log)|
    requires HasTree(s) && s.runs != [] && Question(s) in ActiveIds(Tree(s))
    ensures RunOutcome(w, cfg, req, log).Returned?
    ensures var m := Completed(s, RunEvents(w, cfg, req, log), shown, id, spare);
            var a, q := RunOutcome(w, cfg, req, log).answer, Question(s);
            && Inv(m) && !m.dirty && !InFlight(m) && !IsRunning(m.s) && |m.runs| == |s.runs|
            && ActiveIds(Tree(m)) == Through(ActiveIds(Tree(s)), q) + [id]
            && IsAnswer(Tree(m), id) && Tree(m).nodes[id].parent == Some(q)
            && (!BatchingShows(w, cfg, req, log) ==>
                  && ReadingOf(Tree(m).nodes[id]) == AnswerReading(a)
                  && History(Tree(m), None) ==
                     History(Tree(s), Some(q)) + [TurnOf(Tree(s).nodes[q])] + [Turn(SaidByAssistant, a.content)])
  {
    hide RunEvents, RunOutcome, After, IsLog, Ends, KeepsTurns, ActiveIds, PathFrom, StageOf, History, Completed,
      BatchingShows, Acyclic, SlotOk, NodeOk, Through, FlightOk, RawOk, LoopsOk, PatchOk, OriginOk, RunsOk, PendingOk,
      VerdictsOk;
    Known(s);
    TurnCompletes(s, w, cfg, req, log, shown, id, spare);
    var m := Completed(s, RunEvents(w, cfg, req, log), shown, id, spare);
    RunReachesReader(m, w, cfg, req, log);
    LatestIs(m, id);
    Known(m);
    AnswerEndsHistory(Tree(s), Tree(m), Question(s), id);
  }

  // ---------- An edit ----------

  /** An edited question replaces the old one on the path, in the same context. */
  lemma EditedQuestion(c: Conversation, target: NodeId, qid: NodeId, q: string)
    requires WellFormed(c) && target in ActiveIds(c) && c.nodes[target].role.User? && qid !in c.nodes
    ensures var d := AppendChildOf(c, c.nodes[target].parent, MakeUserNode(qid, c.nodes[target].parent, q));
            && d.Ok? && WellFormed(d.value) && qid in d.value.nodes
            && TurnOf(d.value.nodes[qid]) == Turn(SaidByUser, q)
            && ActiveIds(d.value) == Before(ActiveIds(c), target) + [qid]
            && Through(ActiveIds(d.value), qid) == ActiveIds(d.value)
            && History(d.value, Some(qid)) == History(c, Some(target))
  {
    assert NodeOk(c, target);
    var n := MakeUserNode(qid, c.nodes[target].parent, q);
    ForkOutcome(c, target, n);
    hide Acyclic, NodeOk, SlotOk, PathFrom, AppendChildOf, Through, Before, Fork;
    ForkHistory(c, target, n);
    AppendFrame(c, c.nodes[target].parent, n);
    var d := Fork(c, target, n).value;
    ActivePathShape(d);
    ThroughLast(Before(ActiveIds(c), target) + [qid]);
  }

  lemma EditMeans(l: Local, target: NodeId, q: string, qid: NodeId)
    requires HasTree(l) && StageKnown(l) && !IsRunning(l.s) && Trim(q) != ""
    requires target in Tree(l).nodes && Tree(l).nodes[target].role.User?
    ensures Do(l, Edit(target, q, qid)) ==
            Start(AddUser(l, Tree(l).nodes[target].parent, Trim(q), qid), Trim(q), qid)
  {
  }

  /** An edit of a visible question, accepted from an idle state, is awaited in the context of the old one. */
  lemma EditAwaits(l: Local, target: NodeId, q: string, qid: NodeId, loop: string, id: NodeId, spare: NodeId)
    requires Inv(l) && Enabled(l, Edit(target, q, qid)) && !IsRunning(l.s) && !InFlight(l) && Trim(q) != ""
    requires HasTree(l) && target in ActiveIds(Tree(l)) && Tree(l).nodes[target].role.User?
    requires id !in l.used + {qid} && spare !in l.used + {qid} && id != spare
    requires loop != "" && loop !in l.loops
    ensures var s := Do(l, Edit(target, q, qid));
            && Awaiting(s, loop, id, spare) && HasTree(s)
            && |s.runs| == |l.runs| + 1 && Question(s) == qid && qid in ActiveIds(Tree(s))
            && TurnOf(Tree(s).nodes[qid]) == Turn(SaidByUser, Trim(q))
            && Through(ActiveIds(Tree(s)), qid) == Before(ActiveIds(Tree(l)), target) + [qid]
            && History(Tree(s), Some(qid)) == History(Tree(l), Some(target))
  {
    hide Inv, Acyclic, NodeOk, SlotOk, PathFrom, History, AppendChildOf, Through, Start, AddUser, Do;
    Known(l);
    EditInv(l, target, q, qid);
    TrimTwice(q);
    EditMeans(l, target, q, qid);
    SubmitStarts(l, Tree(l).nodes[target].parent, Trim(q), qid);
    EditedQuestion(Tree(l), target, qid, Trim(q));
    Known(Do(l, Edit(target, q, qid)));
    assert ActiveIds(Tree(Do(l, Edit(target, q, qid))))[|Before(ActiveIds(Tree(l)), target)|] == qid;
  }

  /**
   * A whole edit. The path ends with the new version and its answer where the old version stood,
   * and the context of the next turn is the history above the old version, the new one, and the
   * answer the run returned.
   */
  lemma WholeEdit(l: Local, target: NodeId, q: string, qid: NodeId, w: World, cfg: Config, req: Request, log: Log,
                  shown: seq<bool>, id: NodeId, spare: NodeId)
    requires Inv(l) && Enabled(l, Edit(target, q, qid)) && !IsRunning(l.s) && !InFlight(l) && Trim(q) != ""
    requires HasTree(l) && target in ActiveIds(Tree(l)) && Tree(l).nodes[target].role.User?
    requires id !in l.used + {qid} && spare !in l.used + {qid} && id != spare
    requires w.loopId != "" && w.loopId !in l.loops
    requires IsLog(w, cfg, log) && Ends(w, cfg, log) && cfg.streaming && KnownMode(cfg.mode)
    requires |shown| == |RunEvents(w, cfg, req, log)|
    ensures RunOutcome(w, cfg, req, log).Returned?
    ensures var m := Completed(Do(l, Edit(target, q, qid)), RunEvents(w, cfg, req, log), shown, id, spare);
            var a := RunOutcome(w, cfg, req, log).answer;
            && Inv(m) && !m.dirty && !InFlight(m) && !IsRunning(m.s) && |m.runs| == |l.runs| + 1
            && ActiveIds(Tree(m)) == Before(ActiveIds(Tree(l)), target) + [qid] + [id]
            && IsAnswer(Tree(m), id) && Tree(m).nodes[id].parent == Some(qid)
            && (!BatchingShows(w, cfg, req, log) ==>
                  && ReadingOf(Tree(m).nodes[id]) == AnswerReading(a)
                  && History(Tree(m), None) ==
                     History(Tree(l), Some(target)) + [Turn(SaidByUser, Trim(q))] + [Turn(SaidByAssistant, a.content)])
  {
    hide Inv, RunEvents, RunOutcome, IsLog, Ends, Awaiting, Enabled, Completed, BatchingShows, History, ActiveIds, Do,
      Acyclic, NodeOk, SlotOk, Through, Before;
    Known(l);
    EditAwaits(l, target, q, qid, w.loopId, id, spare);
    AnswerLands(Do(l, Edit(target, q, qid)), w, cfg, req, log, shown, id, spare);
  }

  // ---------- A retry ----------

  /** The question of a visible answer is right above it. */
  lemma RetriedQuestion(c: Conversation, target: NodeId)
    requires WellFormed(c) && target in ActiveIds(c) && QuestionOf(c, target).Some?
    ensures var q := QuestionOf(c, target).value;
            && q in ActiveIds(c) && Through(ActiveIds(c), q) == Before(ActiveIds(c), target)
            && c.nodes[q].role.User?
            && History(c, Some(target)) == History(c, Some(q)) + [TurnOf(c.nodes[q])]
  {
    var q, ids := QuestionOf(c, target).value, ActiveIds(c);
    VisibleNeighbours(c, target);
    ThroughIsPrefix(ids, q);
    BeforeStops(ids, q);
    BeforeStops(ids, target);
    hide Acyclic, NodeOk, SlotOk, PathFrom, Through, Before;
    assert (Before(ids, q) + [q])[..|Before(ids, q)|] == Before(ids, q);
  }

  lemma RetryMeans(l: Local, target: NodeId)
    requires HasTree(l) && StageKnown(l) && !IsRunning(l.s) && QuestionOf(Tree(l), target).Some?
    ensures var q := QuestionOf(Tree(l), target).value;
            Do(l, Retry(target)) == Start(l, Tree(l).nodes[q].content, q)
  {
  }

  lemma RetryStarts(l: Local, question: string, p: NodeId)
    requires Trim(question) != "" && !InFlight(l)
    ensures var s := Start(l, question, p);
            && InFlight(s) && !Aborted(s) && s.trace == [] && s.used == l.used && s.loops == l.loops
            && s.runs == l.runs + [Run(p, None)] && s.s.tree == l.s.tree
  {
  }

  /**
   * A whole retry. The new answer stands where the old one stood, below the same question, and the
   * context of the next turn is the history sent, which ends with that question, and the answer.
   */
  lemma WholeRetry(l: Local, target: NodeId, w: World, cfg: Config, req: Request, log: Log,
                   shown: seq<bool>, id: NodeId, spare: NodeId)
    requires Inv(l) && Enabled(l, Retry(target)) && !IsRunning(l.s) && !InFlight(l)
    requires HasTree(l) && target in ActiveIds(Tree(l)) && QuestionOf(Tree(l), target).Some?
    requires Trim(Tree(l).nodes[QuestionOf(Tree(l), target).value].content) != ""
    requires id !in l.used && spare !in l.used && id != spare && w.loopId != "" && w.loopId !in l.loops
    requires IsLog(w, cfg, log) && Ends(w, cfg, log) && cfg.streaming && KnownMode(cfg.mode)
    requires |shown| == |RunEvents(w, cfg, req, log)|
    ensures RunOutcome(w, cfg, req, log).Returned?
    ensures var m := Completed(Do(l, Retry(target)), RunEvents(w, cfg, req, log), shown, id, spare);
            var a := RunOutcome(w, cfg, req, log).answer;
            && Inv(m) && !m.dirty && !InFlight(m) && !IsRunning(m.s) && |m.runs| == |l.runs| + 1
            && ActiveIds(Tree(m)) == Before(ActiveIds(Tree(l)), target) + [id]
            && IsAnswer(Tree(m), id) && Tree(m).nodes[id].parent == QuestionOf(Tree(l), target)
            && (!BatchingShows(w, cfg, req, log) ==>
                  && ReadingOf(Tree(m).nodes[id]) == AnswerReading(a)
                  && History(Tree(m), None) == History(Tree(l), Some(target)) + [Turn(SaidByAssistant, a.content)])
  {
    var q := QuestionOf(Tree(l), target).value;
    hide Inv, RunEvents, RunOutcome, IsLog, Ends, Completed, BatchingShows, History, ActiveIds, Do, Start,
      Acyclic, NodeOk, SlotOk, Through, Before, QuestionOf;
    Known(l);
    RetryInv(l, target);
    RetryMeans(l, target);
    RetryStarts(l, Tree(l).nodes[q].content, q);
    RetriedQuestion(Tree(l), target);
    AnswerLands(Do(l, Retry(target)), w, cfg, req, log, shown, id, spare);
  }
}
