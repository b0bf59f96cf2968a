/**
 * A chat turn with the wire in it: the endpoint writes the run's events, the dashboard reads the
 * response in chunks, and hears what it reads.
 */
module OverTheWire {
  import opened Wrappers
  import opened Text
  import opened ChatTypes
  import opened Branches
  import opened StreamSpec
  import opened Trace
  import opened Sse
  import opened Wire
  import opened AgentLoop
  import opened AgentRun
  import opened AgentLaws
  import opened AgentConduct
  import opened ClientRun
  import opened ClientLaws
  import opened RunReading
  import opened EndToEnd

  /** The response to a run, as its endpoint writes it. */
  ghost function Response<D>(w: World, cfg: Config, req: Request, log: Log, f: Format<D>, codec: Codec<D>): string
    requires Ends(w, cfg, log)
  {
    Written(RunEvents(w, cfg, req, log), f, codec)
  }

  /** The events that the reader of `chunks` hands on. */
  ghost function ReadOff<D>(chunks: seq<string>, f: Format<D>, codec: Codec<D>): seq<Event>
  {
    Received(Deliver(Frames(Concat(chunks)), codec).events, f)
  }

  /** The wire format carries the end mark and every event of the run. */
  ghost predicate Speaks<D>(w: World, cfg: Config, req: Request, log: Log, f: Format<D>, codec: Codec<D>)
    requires Ends(w, cfg, log)
  {
    CarriesAll(f, codec, RunEvents(w, cfg, req, log)) && Writable((DONE, codec.absent), codec)
  }

  /**
   * One whole turn over the wire. A question is accepted from an idle state and sent with the
   * history of the visible path, which is what `ChatShell.Shell.HandleSubmit` hands over, and the
   * model's first request holds the readable turns of that history and the question. The
   * response is read in any chunking, with renders in any places, and closes. Then the path has
   * grown by question and answer, and the context of the next turn is the history sent, the
   * question sent, and the answer the run returned.
   */
  lemma TurnOverTheWire<D>(
    l: Local, q: string, qid: NodeId, w: World, cfg: Config, req: Request, log: Log,
    f: Format<D>, codec: Codec<D>, chunks: seq<string>, shown: seq<bool>, id: NodeId, spare: NodeId)
    requires Inv(l) && Enabled(l, Submit(q, qid)) && !IsRunning(l.s) && !InFlight(l) && Trim(q) != ""
    requires id !in l.used + {qid} && spare !in l.used + {qid} && id != spare
    requires w.loopId != "" && w.loopId !in l.loops
    requires IsLog(w, cfg, log) && Ends(w, cfg, log) && cfg.streaming && KnownMode(cfg.mode)
    requires HasTree(l) && req.history == History(Tree(l), None) && req.question == Trim(q)
    requires Speaks(w, cfg, req, log, f, codec) && Concat(chunks) == Response(w, cfg, req, log, f, codec)
    requires |shown| == |RunEvents(w, cfg, req, log)|
    ensures !Deliver(Frames(Concat(chunks)), codec).failed
    ensures ReadOff(chunks, f, codec) == RunEvents(w, cfg, req, log)
    ensures RunOutcome(w, cfg, req, log).Returned?
    ensures AllRequests(w, cfg, req, log) != []
    ensures exists said ::
      && AllRequests(w, cfg, req, log)[0] == [SystemMsg(cfg.systemPrompt)] + said + [QuestionMsg(Trim(q), req.retry)]
      && OnlySaid(said) && TurnsIn(said) == Readable(History(Tree(l), None))
    ensures var m := Completed(Do(l, Submit(q, qid)), ReadOff(chunks, f, codec), shown, id, spare);
            var a := RunOutcome(w, cfg, req, log).answer;
            && Inv(m) && !m.dirty && !InFlight(m) && !IsRunning(m.s) && |m.runs| == |l.runs| + 1
            && ActiveIds(Tree(m)) == ActiveIds(Tree(l)) + [qid, id]
            && IsAnswer(Tree(m), id) && Tree(m).nodes[id].parent == Some(qid)
            && (AllRan(w) || !BatchingShows(w, cfg, req, log) ==>
                  && ReadingOf(Tree(m).nodes[id]) == AnswerReading(a)
                  && History(Tree(m), None) ==
                     req.history + [Turn(SaidByUser, req.question), Turn(SaidByAssistant, a.content)])
  {
    hide Inv, RunEvents, RunOutcome, IsLog, Ends, Enabled, History, ActiveIds, Completed, Do, BatchingShows,
      Written, Deliver, Frames, Concat, After;
    var text := Response(w, cfg, req, log, f, codec);
    assert text[..|text|] == text;
    CutOnTheWire(RunEvents(w, cfg, req, log), f, codec, |text|, chunks);
    WholeTurn(l, q, qid, w, cfg, req, log, shown, id, spare);
    FirstRequestExactly(w, cfg, req, log);
    if AllRan(w) {
      RanMeansSteady(w, cfg, req, log);
    }
  }

  /** How many of the run's events are wholly written within the first `k` characters of the response. */
  ghost function WrittenBy<D>(w: World, cfg: Config, req: Request, log: Log, f: Format<D>, codec: Codec<D>, k: nat): (n: nat)
    requires Ends(w, cfg, log)
    ensures n <= |RunEvents(w, cfg, req, log)|
  {
    var events := RunEvents(w, cfg, req, log);
    var whole := WholeIn(Sent(events, f) + [(DONE, codec.absent)], codec, k);
    if whole < |events| then whole else |events|
  }

  /**
   * The response cut after any number of characters: what is heard are exactly the
   * events wholly written before the cut. If the connection closes cleanly the conversation goes on showing as running exactly
   * when the answer was not wholly written before the cut; if it breaks, an error shows.
   */
  lemma CutOverTheWire<D>(
    l: Local, w: World, cfg: Config, req: Request, log: Log, f: Format<D>, codec: Codec<D>,
    k: nat, chunks: seq<string>, shown: seq<bool>, id: NodeId, spare: NodeId, message: string)
    requires IsLog(w, cfg, log) && Ends(w, cfg, log) && cfg.streaming && KnownMode(cfg.mode)
    requires Awaiting(l, w.loopId, id, spare) && Speaks(w, cfg, req, log, f, codec)
    requires k <= |Response(w, cfg, req, log, f, codec)| && Concat(chunks) == Response(w, cfg, req, log, f, codec)[..k]
    requires |shown| == |ReadOff(chunks, f, codec)|
    ensures var events := ReadOff(chunks, f, codec);
            var h := Heard(l, events, shown, id, spare);
            && !Deliver(Frames(Concat(chunks)), codec).failed
            && events == RunEvents(w, cfg, req, log)[..WrittenBy(w, cfg, req, log, f, codec, k)]
            && Inv(h) && h.trace == events
            && (IsRunning(Wind(h, StreamEnded, spare).s) <==> AnswerIn(events).None?)
            && StateOf(Wind(h, StreamRejected(message), spare).s.hook).phase == Errored
            && StateOf(Wind(h, StreamRejected(message), spare).s.hook).error == Some(message)
  {
    hide Inv, RunEvents, IsLog, Ends, Awaiting, Heard, Wind, AnswerIn, Written, Deliver, Frames, Concat, After,
      Enabled, Hear;
    var all := RunEvents(w, cfg, req, log);
    CutOnTheWire(all, f, codec, k, chunks);
    var n := WrittenBy(w, cfg, req, log, f, codec, k);
    assert ReadOff(chunks, f, codec) == all[..n];
    CutTurn(l, w, cfg, req, log, n, shown, id, spare, message);
  }
}
