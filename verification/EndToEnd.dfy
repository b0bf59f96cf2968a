/**
 * A whole chat turn, from the question to the archived answer: a run of the agent loop, its
 * events heard one by one with renders anywhere in between, and the tree that results.
 */
module EndToEnd {
  import opened Wrappers
  import opened Sequences
  import opened Text
  import opened ChatTypes
  import opened Branches
  import opened BranchLaws
  import opened StreamSpec
  import opened Trace
  import opened AgentLoop
  import opened AgentRun
  import opened AgentLaws
  import opened AgentFacts
  import opened AgentConduct
  import opened ClientRun
  import opened ClientInvariant
  import opened ClientLaws
  import opened RunReading

  // ---------- Any state that has consumed a run ----------

  /**
   * The three ways of grounding are the same to the reader. Once the events of a run are heard
   * and rendered, whatever happened in between, the archived answer reads as the answer the run
   * returned, unless the incremental judge withdrew after a verdict that ran; its tool events
   * are as many as its account says; it is marked as waiting for verdicts exactly when the
   * incremental judge produced none, and as unjudged exactly when its last late verdict did not run.
   */
  lemma RunReachesReader(l: Local, w: World, cfg: Config, req: Request, log: Log)
    requires IsLog(w, cfg, log) && Ends(w, cfg, log) && cfg.streaming && KnownMode(cfg.mode)
    requires Inv(l) && !l.dirty && l.trace == RunEvents(w, cfg, req, log)
    ensures RunOutcome(w, cfg, req, log).Returned? && HasAnswered(StageOf(l))
    ensures var a, n := RunOutcome(w, cfg, req, log).answer, LatestAnswer(l);
            && n.role.Assistant? && l.runs != [] && n.parent == Some(l.runs[|l.runs| - 1].question)
            && (!BatchingShows(w, cfg, req, log) ==> ReadingOf(n) == AnswerReading(a))
            && n.role.run.stepCount == a.stepCount
            && |n.role.run.toolEvents| == a.toolCallCount == n.role.run.toolCallCount
            && n.role.run.toolEvents == ToolsIn(RunEvents(w, cfg, req, log))
            && (a.citations != [] ==> n.role.run.citations == a.citations)
            && n.role.run.inputTokens == a.inputTokens && n.role.run.outputTokens == a.outputTokens
            && n.role.run.stopReason == a.stopReason && n.role.run.loopId == a.loopId
            && (n.role.grounding.pending <==> VerdictsNeverCome(w, cfg, req, log))
            && (n.role.grounding.unavailable <==> JudgeDidNotRun(w, cfg, req, log))
  {
    hide Inv, RunEvents, RunOutcome, StageOf, After, AnswerIn, PatchesIn, Readout, Validates, JudgeDidNotRun, BatchingShows,
      VerdictsNeverCome, LatestAnswer, AnswerReading, Steady, IsLog, Ends, Fits;
    RunAnswered(l, w, cfg, req, log);
    AnswerReadsAsSent(l);
    RunReadsAsReturned(w, cfg, req, log);
    RunMarks(w, cfg, req, log);
    EventsMatchAccounts(w, cfg, req, log);
    CountsAgree(l.trace);
  }

  /** The archived answer reports what came of each tool call of the run, in order. */
  lemma ReaderSeesTools(l: Local, w: World, cfg: Config, req: Request, log: Log, i: nat, c: nat)
    requires IsLog(w, cfg, log) && Ends(w, cfg, log) && cfg.streaming && KnownMode(cfg.mode)
    requires Inv(l) && !l.dirty && l.trace == RunEvents(w, cfg, req, log)
    requires i < |log| && c < |log[i].reply.calls|
    ensures HasAnswered(StageOf(l)) && LatestAnswer(l).role.Assistant?
    ensures var tools, at := LatestAnswer(l).role.run.toolEvents, |ExecutedIn(log[..i])| + c;
            at < |tools| && Summarizes(w.tool(i, c), tools[at])
  {
    hide Inv, RunEvents, RunOutcome, LatestAnswer, IsLog, Ends, StageOf, After, Summarizes, ExecutedIn, ToolsIn;
    RunReachesReader(l, w, cfg, req, log);
    RunReports(w, cfg, req, log);
    ExecutedAt(w, cfg, log, i, c);
  }

  /** Where every snapshot of the judge ran, the three ways of grounding read the same without exception. */
  lemma RanRunReachesReader(l: Local, w: World, cfg: Config, req: Request, log: Log)
    requires IsLog(w, cfg, log) && Ends(w, cfg, log) && cfg.streaming && KnownMode(cfg.mode) && AllRan(w)
    requires Inv(l) && !l.dirty && l.trace == RunEvents(w, cfg, req, log)
    ensures RunOutcome(w, cfg, req, log).Returned? && HasAnswered(StageOf(l))
    ensures LatestAnswer(l).role.Assistant?
    ensures ReadingOf(LatestAnswer(l)) == AnswerReading(RunOutcome(w, cfg, req, log).answer)
  {
    RanMeansSteady(w, cfg, req, log);
    hide Inv, RunEvents, RunOutcome, BatchingShows, LatestAnswer, IsLog, Ends, StageOf, After;
    RunReachesReader(l, w, cfg, req, log);
  }

  lemma RunAnswered(l: Local, w: World, cfg: Config, req: Request, log: Log)
    requires IsLog(w, cfg, log) && Ends(w, cfg, log) && cfg.streaming && KnownMode(cfg.mode)
    requires l.trace == RunEvents(w, cfg, req, log)
    ensures RunOutcome(w, cfg, req, log).Returned?
    ensures StageKnown(l) && HasAnswered(StageOf(l)) && !StageOf(l).at.Broken?
  {
    RunSettles(w, cfg, req, log);
  }

  // ---------- Hearing a run ----------

  /** A run has been accepted and none of its events has arrived; `id` and `spare` are the ids to be drawn. */
  ghost predicate Awaiting(l: Local, loop: string, id: NodeId, spare: NodeId)
  {
    && Inv(l) && InFlight(l) && !Aborted(l) && l.trace == []
    && id !in l.used && spare !in l.used && id != spare
    && loop != "" && loop !in l.loops
  }

  /** A run announces itself first, under its own loop id. */
  ghost predicate Announces(events: seq<Event>, loop: string)
  {
    events != [] ==> events[0] == LoopStarted(loop)
  }

  /** The events arrive in turn; `shown` says after which of them a render happens. */
  ghost function Heard(l: Local, events: seq<Event>, shown: seq<bool>, id: NodeId, spare: NodeId): Local
    requires |shown| == |events|
  {
    if events == [] then l
    else
      var k := |events| - 1;
      var m := Hear(Heard(l, events[..k], shown[..k], id, spare), events[k],
                    if events[k].AnswerEvent? then id else spare);
      if shown[k] then Show(m) else m
  }

  ghost function Question(l: Local): NodeId
    requires l.runs != []
  {
    l.runs[|l.runs| - 1].question
  }

  /** The path once the answer is archived. */
  ghost function PathAfter(l: Local, id: NodeId): seq<NodeId>
    requires HasTree(l) && l.runs != []
  {
    var path := ActiveIds(Tree(l));
    if Question(l) in path then Through(path, Question(l)) + [id] else path
  }

  /** Nothing but the answer `a` was added or reworded. */
  ghost predicate KeepsTurns(c: Conversation, d: Conversation, a: NodeId)
  {
    forall x :: x in c.nodes && x != a ==> x in d.nodes && TurnOf(d.nodes[x]) == TurnOf(c.nodes[x])
  }

  /** What stays true of a run being heard, whatever is rendered: `l` is where it began. */
  ghost predicate Hearing(l: Local, m: Local, events: seq<Event>, loop: string, id: NodeId)
    requires HasTree(l) && l.runs != []
  {
    && Inv(m) && InFlight(m) && !Aborted(m) && m.trace == events
    && m.runs != [] && |m.runs| == |l.runs| && Question(m) == Question(l)
    && m.used == l.used + (if HasAnswered(StageOf(m)) then {id} else {})
    && m.loops == l.loops + (if events == [] then {} else {loop})
    && (m.raw.Some? ==> m.raw.value.id == id)
    && KeepsTurns(Tree(l), Tree(m), id)
    && ActiveIds(Tree(m)) == if m.raw.Some? && Pending(m).None? then PathAfter(l, id) else ActiveIds(Tree(l))
  }

  lemma {:induction false} OpeningIsFirst(events: seq<Event>)
    requires Fits(events)
    ensures After(START, events).value.at.Opening? ==> events == []
  {
    if events != [] {
      OpeningIsFirst(events[..|events| - 1]);
    }
  }

  /** What hearing an event changes besides the stream state. */
  lemma HearEffects(m: Local, e: Event, i: NodeId)
    requires Inv(m) && Enabled(m, Receive(e, i))
    ensures var h := Hear(m, e, i);
            && Inv(h) && InFlight(h) && !Aborted(h) && h.trace == m.trace + [e] && h.s.tree == m.s.tree
            && m.runs != [] && |h.runs| == |m.runs| && Question(h) == Question(m)
            && h.used == m.used + (if e.AnswerEvent? then {i} else {})
            && h.loops == m.loops + (if e.LoopStarted? then {e.loopId} else {})
            && (HasAnswered(StageOf(h)) <==> HasAnswered(StageOf(m)) || e.AnswerEvent?)
            && (if e.AnswerEvent? then m.raw.None? && h.raw == Pending(h) && h.raw.Some? && h.raw.value.id == i
                else h.raw == m.raw && Pending(h) == Pending(m))
  {
    hide Inv, Hear, FinalAnswer, After;
    AnswerDue(m, e);
    HearFrame(m, e, i);
    ReceiveInv(m, e, i);
    StageMoves(m.trace, e);
  }

  lemma StageMoves(trace: seq<Event>, e: Event)
    requires Fits(trace + [e])
    ensures Fits(trace)
    ensures HasAnswered(After(START, trace + [e]).value) <==> HasAnswered(After(START, trace).value) || e.AnswerEvent?
    ensures e.AnswerEvent? ==> !HasAnswered(After(START, trace).value)
  {
    FitsStep(trace, e);
    TraceStep(trace, e);
    AnsweredStays(After(START, trace).value, e);
  }

  lemma AnswerDue(m: Local, e: Event)
    requires Inv(m) && InFlight(m) && Fits(m.trace + [e])
    ensures m.runs != [] && (e.AnswerEvent? ==> m.raw.None?)
  {
    FitsStep(m.trace, e);
    AnswerInFlight(m, e);
  }

  lemma HearFrame(m: Local, e: Event, i: NodeId)
    requires m.runs != []
    ensures var h := Hear(m, e, i);
            && h.s.hook.controller == m.s.hook.controller && h.trace == m.trace + [e] && h.s.tree == m.s.tree
            && |h.runs| == |m.runs| && Question(h) == Question(m)
            && h.used == m.used + (if e.AnswerEvent? then {i} else {})
            && h.loops == m.loops + (if e.LoopStarted? then {e.loopId} else {})
            && (if e.AnswerEvent? then h.raw == Pending(h) && h.raw.Some? && h.raw.value.id == i
                else h.raw == m.raw && Pending(h) == Pending(m))
  {
    EventCompletion(m.s.hook, e, i);
  }

  lemma HearingStep(l: Local, m: Local, events: seq<Event>, loop: string, id: NodeId, spare: NodeId, e: Event)
    requires Awaiting(l, loop, id, spare) && HasTree(l) && l.runs != []
    requires Hearing(l, m, events, loop, id) && Fits(events + [e]) && (e.LoopStarted? ==> e.loopId == loop)
    requires events == [] ==> e.LoopStarted?
    ensures Hearing(l, Hear(m, e, if e.AnswerEvent? then id else spare), events + [e], loop, id)
  {
    hide Inv, Hear, After, FinalAnswer, ActiveIds, PathAfter, KeepsTurns, HasTree;
    var i := if e.AnswerEvent? then id else spare;
    StageMoves(events, e);
    BeforeAnswer(m);
    if e.LoopStarted? {
      StartsOnce(m, e);
    }
    assert Enabled(m, Receive(e, i));
    HearEffects(m, e, i);
    BeforeAnswer(Hear(m, e, i));
  }

  lemma StartsOnce(m: Local, e: Event)
    requires Fits(m.trace) && Fits(m.trace + [e]) && e.LoopStarted?
    ensures m.trace == []
  {
    FitsStep(m.trace, e);
    OpeningIsFirst(m.trace);
  }

  lemma BeforeAnswer(m: Local)
    requires Inv(m) && InFlight(m)
    ensures m.raw.Some? <==> HasAnswered(StageOf(m))
    ensures m.s.tree.Some? && Acyclic(Tree(m))
  {
  }

  lemma ShowEffects(m: Local)
    requires Inv(m)
    ensures var s := Show(m);
            && Inv(s) && (InFlight(s) <==> InFlight(m)) && (Aborted(s) <==> Aborted(m)) && !s.dirty && Pending(s).None?
            && s.trace == m.trace && s.runs == m.runs && s.used == m.used && s.loops == m.loops && s.raw == m.raw
            && (IsRunning(s.s) <==> IsRunning(m.s))
  {
    hide Inv, Flush, Acyclic, NodeOk, SlotOk, After;
    RenderInv(m);
    PhaseKept(m.s);
    Known(Show(m));
  }

  /** A render moves the path only by archiving the pending answer. */
  lemma ShowMoves(m: Local)
    requires Inv(m) && Inv(Show(m))
    ensures Pending(m).Some? ==> m.runs != []
    ensures ActiveIds(Tree(Show(m))) ==
            if Pending(m).Some? then PathAfter(m, Pending(m).value.id) else ActiveIds(Tree(m))
  {
    hide Inv, Archive, Ground, Acyclic, PathFrom, NodeOk, SlotOk, Through;
    Known(m);
    Known(Show(m));
    if Pending(m).Some? {
      QuestionPending(m);
      ShownPath(m);
    } else {
      NothingToArchive(m);
      GroundKeepsPath(m);
    }
  }

  lemma ShowKeepsTurns(m: Local)
    requires Inv(m) && Inv(Show(m)) && m.raw.Some?
    ensures KeepsTurns(Tree(m), Tree(Show(m)), m.raw.value.id)
  {
    ArchiveInv(m);
    if Pending(m).Some? {
      ArchivePlaces(m);
      var k := Pending(m).value;
      AppendSameCores(Tree(m), k.parent, MakeAssistantNode(k.id, k.parent.value, k.content, k.run, k.grounding));
      CoresKeepTurns(Tree(m), Tree(Archived(m)), k.id);
    }
    GroundKeepsTurns(Archived(m));
  }

  lemma CoresKeepTurns(c: Conversation, d: Conversation, a: NodeId)
    requires SameCores(c, d)
    ensures KeepsTurns(c, d, a)
  {
  }

  lemma GroundKeepsTurns(m: Local)
    requires Inv(m) && Pending(m).None? && m.raw.Some?
    ensures Ground(m.s).tree.Some? && KeepsTurns(Tree(m), Ground(m.s).tree.value, m.raw.value.id)
  {
    var shown := StateOf(m.s.hook).patch;
    if shown.Some? && m.s.applied != Some(shown.value.serial) {
      PatchFindsItsAnswer(m);
      PatchFrame(Tree(m), m.raw.value.id, shown.value.patch);
    }
  }

  lemma HearingShow(l: Local, m: Local, events: seq<Event>, loop: string, id: NodeId)
    requires HasTree(l) && l.runs != [] && Hearing(l, m, events, loop, id)
    ensures Hearing(l, Show(m), events, loop, id)
  {
    hide Inv, Show, KeepsTurns, ActiveIds, PathFrom, Acyclic, WellFormed, After, PathAfter;
    Known(m);
    ShowEffects(m);
    ShowMoves(m);
    SameQuestion(l, m, m.raw);
    Known(Show(m));
    if m.raw.Some? {
      ShowKeepsTurns(m);
      TurnsChain(Tree(l), Tree(m), Tree(Show(m)), id);
    } else {
      QuietShow(m);
    }
  }

  /** Appending below the same question gives the same path, if the paths were the same. */
  lemma SameQuestion(l: Local, m: Local, k: Option<Completion>)
    requires HasTree(l) && HasTree(m) && l.runs != [] && m.runs != [] && Question(m) == Question(l)
    ensures k.Some? && ActiveIds(Tree(m)) == ActiveIds(Tree(l)) ==> PathAfter(m, k.value.id) == PathAfter(l, k.value.id)
  {
  }

  lemma TurnsChain(c: Conversation, d: Conversation, e: Conversation, a: NodeId)
    requires KeepsTurns(c, d, a) && KeepsTurns(d, e, a)
    ensures KeepsTurns(c, e, a)
  {
  }

  /** Rendering before the answer changes no tree. */
  lemma QuietShow(m: Local)
    requires Inv(m) && InFlight(m) && m.raw.None?
    ensures Show(m).s.tree == m.s.tree
  {
    Known(m);
    NoPatchWithoutAnswer(m);
  }

  /** From the acceptance of a run on, every event of the grammar can be heard, in any batching. */
  lemma {:induction false} HeardKeeps(
    l: Local, events: seq<Event>, shown: seq<bool>, loop: string, id: NodeId, spare: NodeId)
    requires Awaiting(l, loop, id, spare) && |shown| == |events|
    requires Fits(events) && Announces(events, loop) && HasTree(l) && l.runs != []
    ensures Hearing(l, Heard(l, events, shown, id, spare), events, loop, id)
  {
    hide Inv, Hearing, Awaiting, HasTree, Hear, Show, Fits, Announces, Heard;
    if events == [] {
      HeardNothing(l, id, spare);
      BeginsHearing(l, loop, id, spare);
    } else {
      var k := |events| - 1;
      LastCut(events, k, loop);
      HeardKeeps(l, events[..k], shown[..k], loop, id, spare);
      HeardOne(l, Heard(l, events[..k], shown[..k], id, spare), events[..k], events[k], shown[k], loop, id, spare);
      HeardLast(l, events, shown, id, spare);
    }
  }

  lemma HeardNothing(l: Local, id: NodeId, spare: NodeId)
    ensures Heard(l, [], [], id, spare) == l
  {
  }

  lemma HeardLast(l: Local, events: seq<Event>, shown: seq<bool>, id: NodeId, spare: NodeId)
    requires |shown| == |events| > 0
    ensures var k := |events| - 1;
            var h := Hear(Heard(l, events[..k], shown[..k], id, spare), events[k],
                          if events[k].AnswerEvent? then id else spare);
            Heard(l, events, shown, id, spare) == if shown[k] then Show(h) else h
  {
  }

  lemma LastCut(events: seq<Event>, k: nat, loop: string)
    requires Fits(events) && Announces(events, loop) && k == |events| - 1
    ensures Fits(events[..k]) && Announces(events[..k], loop) && events[..k] + [events[k]] == events
  {
    FitsPrefix(events, k);
  }

  lemma HeardOne(l: Local, m: Local, events: seq<Event>, e: Event, shown: bool, loop: string, id: NodeId, spare: NodeId)
    requires Awaiting(l, loop, id, spare) && HasTree(l) && l.runs != [] && Hearing(l, m, events, loop, id)
    requires Fits(events + [e]) && Announces(events + [e], loop)
    ensures var h := Hear(m, e, if e.AnswerEvent? then id else spare);
            Hearing(l, if shown then Show(h) else h, events + [e], loop, id)
  {
    hide Inv, Hearing, Awaiting, Hear, Show, After, Announces, Acyclic, WellFormed;
    AnnouncesOnce(events, e, loop);
    HearingStep(l, m, events, loop, id, spare, e);
    if shown {
      HearingShow(l, Hear(m, e, if e.AnswerEvent? then id else spare), events + [e], loop, id);
    }
  }

  lemma AnnouncesOnce(events: seq<Event>, e: Event, loop: string)
    requires Fits(events + [e]) && Announces(events + [e], loop)
    ensures Announces(events, loop)
    ensures if events == [] then e == LoopStarted(loop) else !e.LoopStarted?
  {
    FitsStep(events, e);
    OpeningIsFirst(events);
    assert events != [] ==> (events + [e])[0] == events[0];
  }

  lemma BeginsHearing(l: Local, loop: string, id: NodeId, spare: NodeId)
    requires Awaiting(l, loop, id, spare)
    ensures HasTree(l) && l.runs != [] && Hearing(l, l, [], loop, id)
  {
    assert After(START, []) == Some(START);
  }

  // ---------- The end of the turn ----------

  /** Hear everything, render, let the stream end, render. */
  ghost function Completed(l: Local, events: seq<Event>, shown: seq<bool>, id: NodeId, spare: NodeId): Local
    requires |shown| == |events|
  {
    Show(Wind(Show(Heard(l, events, shown, id, spare)), StreamEnded, spare))
  }

  lemma {:induction false} RunOpens(w: World, cfg: Config, log: Log)
    ensures LogEvents(w, log) != [] && LogEvents(w, log)[0] == LoopStarted(w.loopId)
  {
    if log != [] {
      RunOpens(w, cfg, Init(log));
    }
  }

  lemma RunAnnounces(w: World, cfg: Config, req: Request, log: Log)
    requires Ends(w, cfg, log) && cfg.streaming
    ensures Announces(RunEvents(w, cfg, req, log), w.loopId)
  {
    RunOpens(w, cfg, log);
  }

  /** The stream's end after an answer leaves the tree alone and the composer free. */
  lemma SettleAfterAnswer(m: Local, spare: NodeId)
    requires Inv(m) && InFlight(m) && !Aborted(m) && !m.dirty && spare !in m.used
    requires HasAnswered(StageOf(m)) && !StageOf(m).at.Broken?
    ensures var over := Wind(m, StreamEnded, spare);
            && Inv(over) && !InFlight(over) && !IsRunning(over.s) && over.s.tree == m.s.tree && Pending(over).None?
            && over.trace == m.trace && over.runs == m.runs && over.raw == m.raw && over.used == m.used
            && Show(over).s.tree == m.s.tree
  {
    hide Inv, After, WellFormed, Flush, StageOf, PhaseOf;
    AnsweredPhase(m);
    Known(m);
    SettleInv(m, StreamEnded, spare);
    RenderSettles(m);
    SameFlush(m.s, Wind(m, StreamEnded, spare).s);
  }

  lemma AnsweredPhase(m: Local)
    requires Inv(m) && InFlight(m) && HasAnswered(StageOf(m)) && !StageOf(m).at.Broken?
    ensures !IsRunning(m.s)
  {
  }

  /** A render does not look at the controller. */
  lemma SameFlush(s: Slice, t: Slice)
    requires t == s.(hook := s.hook.(controller := t.hook.controller))
    ensures Flush(t) == Flush(s).(hook := Flush(s).hook.(controller := t.hook.controller))
  {
  }

  /** A turn completed: where its answer sits, what the path is, and what it left alone. */
  lemma TurnCompletes(l: Local, w: World, cfg: Config, req: Request, log: Log,
                      shown: seq<bool>, id: NodeId, spare: NodeId)
    requires IsLog(w, cfg, log) && Ends(w, cfg, log) && cfg.streaming && KnownMode(cfg.mode)
    requires Awaiting(l, w.loopId, id, spare) && |shown| == |RunEvents(w, cfg, req, log)|
    ensures HasTree(l) && l.runs != []
    ensures var m := Completed(l, RunEvents(w, cfg, req, log), shown, id, spare);
            && Inv(m) && !m.dirty && !InFlight(m) && !IsRunning(m.s)
            && m.trace == RunEvents(w, cfg, req, log) && |m.runs| == |l.runs| && Question(m) == Question(l)
            && m.raw.Some? && m.raw.value.id == id
            && ActiveIds(Tree(m)) == PathAfter(l, id)
            && KeepsTurns(Tree(l), Tree(m), id)
  {
    hide Inv, RunEvents, RunOutcome, After, IsLog, Ends, KeepsTurns, ActiveIds, PathFrom, PathAfter, WellFormed, Acyclic,
      StageOf, Show, Hear, Wind, Announces;
    var events := RunEvents(w, cfg, req, log);
    RunAnnounces(w, cfg, req, log);
    RunSettles(w, cfg, req, log);
    BeginsHearing(l, w.loopId, id, spare);
    HeardKeeps(l, events, shown, w.loopId, id, spare);
    var h := Heard(l, events, shown, id, spare);
    HearingShow(l, h, events, w.loopId, id);
    var m := Show(h);
    ShowEffects(h);
    RunAnswered(m, w, cfg, req, log);
    BeforeAnswer(m);
    SettleAfterAnswer(m, spare);
    ShowEffects(Wind(m, StreamEnded, spare));
  }

  /** A fresh question extends the visible path, and the context of the turn after it. */
  lemma FreshQuestion(c: Conversation, qid: NodeId, q: string)
    requires WellFormed(c) && qid !in c.nodes
    ensures var d := AppendChildOf(c, LastId(ActiveIds(c)), MakeUserNode(qid, LastId(ActiveIds(c)), q));
            && d.Ok? && WellFormed(d.value)
            && ActiveIds(d.value) == ActiveIds(c) + [qid]
            && Through(ActiveIds(d.value), qid) == ActiveIds(d.value)
            && History(d.value, None) == History(c, None) + [Turn(SaidByUser, q)]
  {
    hide Acyclic, NodeOk, SlotOk, PathFrom, AppendChildOf, Through;
    var ids, n := ActiveIds(c), MakeUserNode(qid, LastId(ActiveIds(c)), q);
    FreshTurnPath(c, n);
    var d := AppendChildOf(c, LastId(ids), n).value;
    AppendKeepsTurns(c, LastId(ids), n, ids);
    AppendFrame(c, LastId(ids), n);
    ActivePathShape(d);
    ThroughLast(ids + [qid]);
    assert (ids + [qid])[..|ids|] == ids;
  }

  lemma SubmitStarts(l: Local, parent: Option<NodeId>, q: string, qid: NodeId)
    requires l.s.tree.Some? && Trim(q) != "" && !InFlight(l)
    ensures var m := Start(AddUser(l, parent, q, qid), q, qid);
            && InFlight(m) && !Aborted(m) && m.trace == [] && m.used == l.used + {qid} && m.loops == l.loops
            && m.runs == l.runs + [Run(qid, None)]
            && m.s.tree == WithTree(l.s, AppendChildOf(Tree(l), parent, MakeUserNode(qid, parent, q))).tree
  {
  }

  /** A question accepted from an idle state is awaited below everything said so far. */
  lemma SubmitAwaits(l: Local, q: string, qid: NodeId, loop: string, id: NodeId, spare: NodeId)
    requires Inv(l) && Enabled(l, Submit(q, qid)) && !IsRunning(l.s) && !InFlight(l) && Trim(q) != ""
    requires id !in l.used + {qid} && spare !in l.used + {qid} && id != spare
    requires loop != "" && loop !in l.loops
    ensures var m := Do(l, Submit(q, qid));
            && Awaiting(m, loop, id, spare) && HasTree(m)
            && |m.runs| == |l.runs| + 1 && Question(m) == qid
            && ActiveIds(Tree(m)) == ActiveIds(Tree(l)) + [qid]
            && History(Tree(m), None) == History(Tree(l), None) + [Turn(SaidByUser, Trim(q))]
            && PathAfter(m, id) == ActiveIds(Tree(l)) + [qid, id]
            && id !in Tree(m).nodes
  {
    hide Inv, Acyclic, NodeOk, SlotOk, PathFrom, ActiveIds, History, AppendChildOf, Through, Start, AddUser, Do;
    Known(l);
    SubmitInv(l, q, qid);
    TrimTwice(q);
    SubmitMeans(l, q, qid);
    SubmitStarts(l, LastId(ActiveIds(Tree(l))), Trim(q), qid);
    FreshQuestion(Tree(l), qid, Trim(q));
    Known(Do(l, Submit(q, qid)));
    assert (ActiveIds(Tree(l)) + [qid]) + [id] == ActiveIds(Tree(l)) + [qid, id];
  }

  lemma SubmitMeans(l: Local, q: string, qid: NodeId)
    requires HasTree(l) && StageKnown(l) && !IsRunning(l.s) && Trim(q) != ""
    ensures Do(l, Submit(q, qid)) == Start(AddUser(l, LastId(ActiveIds(Tree(l))), Trim(q), qid), Trim(q), qid)
  {
  }

  lemma LatestIs(l: Local, id: NodeId)
    requires Inv(l) && !l.dirty && HasAnswered(StageOf(l)) && l.raw.Some? && l.raw.value.id == id
    ensures IsAnswer(Tree(l), id) && LatestAnswer(l) == Tree(l).nodes[id]
  {
    AnsweredInTree(l);
  }

  /** The context after a completed turn: that of the state it began in, and the answer. */
  lemma AnswerExtendsHistory(c: Conversation, d: Conversation, id: NodeId)
    requires WellFormed(c) && WellFormed(d) && KeepsTurns(c, d, id) && id !in c.nodes
    requires ActiveIds(d) == ActiveIds(c) + [id]
    ensures id in d.nodes && History(d, None) == History(c, None) + [TurnOf(d.nodes[id])]
  {
    var ids := ActiveIds(c);
    assert ActiveIds(d)[|ids|] == id;
    forall x | x in ids
      ensures x in d.nodes && TurnOf(d.nodes[x]) == TurnOf(c.nodes[x])
    {
    }
    SameTurns(c, d, ids);
    assert (ids + [id])[..|ids|] == ids;
  }

  /**
   * One whole turn. From any rendered idle state, a question is accepted, the agent loop runs,
   * its events arrive with renders in any places, the stream ends. Then the visible path is the
   * old one with the question and one answer below it, the answer carries what the run returned,
   * and the context of the next turn is the old context, the question, and that answer.
   */
  lemma WholeTurn(l: Local, q: string, qid: NodeId, w: World, cfg: Config, req: Request, log: Log,
                  shown: seq<bool>, id: NodeId, spare: NodeId)
    requires Inv(l) && Enabled(l, Submit(q, qid)) && !IsRunning(l.s) && !InFlight(l) && Trim(q) != ""
    requires id !in l.used + {qid} && spare !in l.used + {qid} && id != spare
    requires w.loopId != "" && w.loopId !in l.loops
    requires IsLog(w, cfg, log) && Ends(w, cfg, log) && cfg.streaming && KnownMode(cfg.mode)
    requires |shown| == |RunEvents(w, cfg, req, log)|
    ensures RunOutcome(w, cfg, req, log).Returned?
    ensures HasTree(l)
    ensures var m := Completed(Do(l, Submit(q, qid)), RunEvents(w, cfg, req, log), shown, id, spare);
            var a := RunOutcome(w, cfg, req, log).answer;
            && Inv(m) && !m.dirty && !InFlight(m) && !IsRunning(m.s)
            && |m.runs| == |l.runs| + 1
            && ActiveIds(Tree(m)) == ActiveIds(Tree(l)) + [qid, id]
            && IsAnswer(Tree(m), id) && Tree(m).nodes[id].parent == Some(qid)
            && (!BatchingShows(w, cfg, req, log) ==>
                  && ReadingOf(Tree(m).nodes[id]) == AnswerReading(a)
                  && History(Tree(m), None) ==
                     History(Tree(l), None) + [Turn(SaidByUser, Trim(q)), Turn(SaidByAssistant, a.content)])
  {
    hide Inv, RunEvents, RunOutcome, After, IsLog, Ends, KeepsTurns, ActiveIds, PathFrom, PathAfter, StageOf, Start,
      AddUser, History, Completed, BatchingShows, Enabled, Awaiting, Acyclic, SlotOk, NodeOk, Do;
    Known(l);
    SubmitAwaits(l, q, qid, w.loopId, id, spare);
    var s := Do(l, Submit(q, qid));
    TurnCompletes(s, w, cfg, req, log, shown, id, spare);
    var m := Completed(s, RunEvents(w, cfg, req, log), shown, id, spare);
    RunReachesReader(m, w, cfg, req, log);
    LatestIs(m, id);
    Known(m);
    assert ActiveIds(Tree(l)) + [qid, id] == (ActiveIds(Tree(l)) + [qid]) + [id];
    AnswerExtendsHistory(Tree(s), Tree(m), id);
  }

  /**
   * A run whose stream is cut after its first `k` events. If the connection closes cleanly the
   * conversation goes on showing as running exactly when the answer was not among them; if it
   * breaks, or the endpoint reports a failure, the conversation shows an error.
   */
  lemma CutTurn(l: Local, w: World, cfg: Config, req: Request, log: Log, k: nat,
                shown: seq<bool>, id: NodeId, spare: NodeId, message: string)
    requires IsLog(w, cfg, log) && Ends(w, cfg, log) && cfg.streaming && KnownMode(cfg.mode)
    requires Awaiting(l, w.loopId, id, spare) && k <= |RunEvents(w, cfg, req, log)| && |shown| == k
    ensures var events := RunEvents(w, cfg, req, log)[..k];
            var h := Heard(l, events, shown, id, spare);
            && Inv(h) && h.trace == events && Enabled(h, Settle(StreamEnded, spare))
            && (IsRunning(Wind(h, StreamEnded, spare).s) <==> AnswerIn(events).None?)
            && StateOf(Wind(h, StreamRejected(message), spare).s.hook).phase == Errored
            && StateOf(Wind(h, StreamRejected(message), spare).s.hook).error == Some(message)
            && Enabled(h, Receive(ErrorEvent(message), spare))
            && StateOf(Hear(h, ErrorEvent(message), spare).s.hook).phase == Errored
            && StateOf(Hear(h, ErrorEvent(message), spare).s.hook).error == Some(message)
  {
    hide Inv, RunEvents, RunOutcome, IsLog, Ends, KeepsTurns, ActiveIds, PathFrom, PathAfter, Show, Hear, Wind,
      Acyclic, SlotOk, NodeOk, Heard, After, AnswerIn, Announces;
    var all := RunEvents(w, cfg, req, log);
    var events := all[..k];
    RunAnnounces(w, cfg, req, log);
    AnnouncesPrefix(all, k, w.loopId);
    RunSettles(w, cfg, req, log);
    CutUnbroken(all, k, message);
    BeginsHearing(l, w.loopId, id, spare);
    HeardKeeps(l, events, shown, w.loopId, id, spare);
    CutSettles(Heard(l, events, shown, id, spare), message, spare);
  }

  /** The three ways in which a run can end after the events heard so far. */
  lemma CutSettles(h: Local, message: string, spare: NodeId)
    requires Inv(h) && InFlight(h) && !Aborted(h) && spare !in h.used
    requires Fits(h.trace) && !After(START, h.trace).value.at.Broken? && Fits(h.trace + [ErrorEvent(message)])
    ensures Enabled(h, Settle(StreamEnded, spare))
    ensures IsRunning(Wind(h, StreamEnded, spare).s) <==> AnswerIn(h.trace).None?
    ensures StateOf(Wind(h, StreamRejected(message), spare).s.hook).phase == Errored
    ensures StateOf(Wind(h, StreamRejected(message), spare).s.hook).error == Some(message)
    ensures Enabled(h, Receive(ErrorEvent(message), spare))
    ensures StateOf(Hear(h, ErrorEvent(message), spare).s.hook).phase == Errored
    ensures StateOf(Hear(h, ErrorEvent(message), spare).s.hook).error == Some(message)
  {
    hide Inv, Hear, Wind, After, AnswerIn;
    Known(h);
    QuietBeforeAnswer(h.trace);
    StillRunningExactly(h, StreamEnded, spare);
    FailureShows(h, message, spare);
  }

  lemma AnnouncesPrefix(events: seq<Event>, k: nat, loop: string)
    requires Announces(events, loop) && k <= |events|
    ensures Announces(events[..k], loop)
  {
  }

  lemma CutUnbroken(all: seq<Event>, k: nat, message: string)
    requires Fits(all) && After(START, all).value.at.Settled? && k <= |all|
    ensures Fits(all[..k]) && !After(START, all[..k]).value.at.Broken?
    ensures Fits(all[..k] + [ErrorEvent(message)])
  {
    FitsPrefix(all, k);
    CutShortIsBroken(all, k, message);
    FitsStep(all[..k], ErrorEvent(message));
  }

  lemma FailureShows(h: Local, message: string, spare: NodeId)
    requires InFlight(h) && !Aborted(h)
    ensures StateOf(Wind(h, StreamRejected(message), spare).s.hook).phase == Errored
    ensures StateOf(Wind(h, StreamRejected(message), spare).s.hook).error == Some(message)
    ensures StateOf(Hear(h, ErrorEvent(message), spare).s.hook).phase == Errored
    ensures StateOf(Hear(h, ErrorEvent(message), spare).s.hook).error == Some(message)
  {
  }
}
