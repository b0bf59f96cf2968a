/**
 * Many conversations at once: the dashboard's objects, driven through any interleaving of user
 * actions, events, stream ends and renders, against each conversation on its own.
 */
module Interleaving {
  import opened Wrappers
  import opened Text
  import opened ChatTypes
  import opened Branches
  import opened StreamSpec
  import opened ConversationStreams
  import opened ChatShell
  import opened ClientRun
  import opened ClientInvariant

  /** What concerns one conversation; a render concerns all of them. */
  type Action = step: Step | !step.Render? witness Stop

  datatype Move = At(k: ConvoId, action: Action) | RenderAll | Delete(k: ConvoId)

  ghost predicate Gone(moves: seq<Move>, k: ConvoId)
  {
    exists i :: 0 <= i < |moves| && moves[i] == Delete(k)
  }

  /** What conversation `k` sees of an interleaved run until it is deleted: its own actions, and every render. */
  ghost function Share(moves: seq<Move>, k: ConvoId): seq<Step>
  {
    if moves == [] then []
    else
      var init := moves[..|moves| - 1];
      Share(init, k) + if Gone(init, k) then [] else ShareOf(moves[|moves| - 1], k)
  }

  ghost function ShareOf(move: Move, k: ConvoId): seq<Step>
  {
    match move
    case At(j, action) => if j == k then [action] else []
    case RenderAll => [Render]
    case Delete(_) => []
  }

  /**
   * What each conversation sees is a legal run of a fresh conversation; after its deletion all that
   * may still come in is the end of its stream.
   */
  ghost predicate Fair(moves: seq<Move>)
  {
    && (forall k {:trigger Share(moves, k)} :: Legal(FRESH, Share(moves, k)))
    && (forall i :: 0 <= i < |moves| && moves[i].At? && Gone(moves[..i], moves[i].k) ==> moves[i].action.Settle?)
  }

  const ABSENT := FRESH.s.(tree := None)

  /** The shell holds a conversation in state `l`; one that nothing was said in yet it does not hold at all. */
  predicate Holds(s: Slice, l: Slice)
  {
    s == l || (s == ABSENT && l == FRESH.s)
  }

  /** The steps are the shell's handlers and the stream manager's callbacks, seen from one conversation. */
  lemma StepsAreHandlers(l: Local, step: Step)
    requires HasTree(l) && StageKnown(l)
    ensures match step
            case Submit(q, id) => Do(l, step).s == SubmitTurn(l.s, q, id)
            case Edit(target, q, id) => Do(l, step).s == EditTurn(l.s, target, q, id)
            case Retry(target) => Do(l, step).s == RetryTurn(l.s, target)
            case Switch(current, sibling) => Do(l, step).s == SwitchTurn(l.s, current, sibling)
            case Surface(target) => Do(l, step).s == SurfaceTurn(l.s, target)
            case Stop => Do(l, step).s == l.s.(hook := OnStop(l.s.hook))
            case Receive(e, id) => Do(l, step).s == l.s.(hook := OnEvent(l.s.hook, e, id))
            case Settle(ending, id) => Do(l, step).s == l.s.(hook := OnSettle(l.s.hook, Aborted(l), ending, id))
            case Render => Do(l, step).s == Flush(l.s)
  {
    match step
    case Submit(q, id) =>
    case Edit(target, q, id) =>
      if target in Tree(l).nodes {
        assert Fork(Tree(l), target, MakeUserNode(id, Tree(l).nodes[target].parent, Trim(q))) ==
               AppendChildOf(Tree(l), Tree(l).nodes[target].parent, MakeUserNode(id, Tree(l).nodes[target].parent, Trim(q)));
      }
    case _ =>
  }

  // ---------- What is sent ----------

  predicate AsksSomething(step: Step)
  {
    step.Submit? || step.Edit? || step.Retry?
  }

  /** The history that goes with an accepted question: the visible path, above the message edited or retried. */
  ghost function HistorySent(l: Local, step: Step): seq<Turn>
    requires HasTree(l)
  {
    match step
    case Submit(_, _) => History(Tree(l), None)
    case Edit(target, _, _) => History(Tree(l), Some(target))
    case Retry(target) => History(Tree(l), Some(target))
    case _ => []
  }

  /** The request a step sends, if it starts a run. */
  ghost function AskedBy(l: Local, step: Step): seq<seq<Turn>>
  {
    if AsksSomething(step) && HasTree(l) && StageKnown(l) && |Do(l, step).runs| > |l.runs| then [HistorySent(l, step)] else []
  }

  /** The histories that a run of one conversation sends, in order. */
  ghost function AskedIn(steps: seq<Step>): seq<seq<Turn>>
  {
    if steps == [] then []
    else AskedIn(steps[..|steps| - 1]) + AskedBy(Exec(FRESH, steps[..|steps| - 1]), steps[|steps| - 1])
  }

  /** The histories among all those sent that were sent for conversation `k`. */
  function SentFor(sent: seq<(ConvoId, seq<Turn>)>, k: ConvoId): seq<seq<Turn>>
  {
    if sent == [] then []
    else
      var last := sent[|sent| - 1];
      SentFor(sent[..|sent| - 1], k) + if last.0 == k then [last.1] else []
  }

  /** A run was started exactly when a controller has come on file. */
  lemma StartedExactly(l: Local, step: Step)
    requires HasTree(l) && StageKnown(l) && AsksSomething(step)
    ensures |Do(l, step).runs| > |l.runs| <==> l.s.hook.controller.None? && Do(l, step).s.hook.controller.Some?
  {
    hide AppendChildOf, Acyclic, PathFrom;
  }

  lemma NothingVisible()
    ensures History(EMPTY_CONVERSATION, None) == []
  {
  }

  /** Of a conversation not created yet, only a question or a search result can mean anything. */
  lemma NothingToDo(l: Local, step: Step)
    requires HasTree(l) && StageKnown(l) && l.s == FRESH.s && Enabled(l, step)
    ensures match step
            case Edit(target, q, id) => Do(l, step).s == FRESH.s && EditTurn(ABSENT, target, q, id) == ABSENT
            case Retry(target) => Do(l, step).s == FRESH.s && RetryTurn(ABSENT, target) == ABSENT
            case Surface(target) => Do(l, step).s == FRESH.s && SurfaceTurn(ABSENT, target) == ABSENT
            case Render => Do(l, step).s == FRESH.s && Flush(ABSENT) == ABSENT
            case Switch(_, _) => false
            case Stop => false
            case Receive(_, _) => false
            case Settle(_, _) => false
            case Submit(q, id) =>
              Do(l, step).s == (if Trim(q) == "" then FRESH.s else SubmitTurn(ABSENT.(tree := Some(EMPTY_CONVERSATION)), q, id))
  {
    StepsAreHandlers(l, step);
  }

  // ---------- One move ----------

  function Taken(runs: map<ConvoId, AbortController>, k: ConvoId, started: AbortController?): map<ConvoId, AbortController>
  {
    if started == null then runs else runs[k := started]
  }

  /** Every controller on file is the one that its run's callback captured. */
  ghost predicate Captured(runs: map<ConvoId, AbortController>, controllers: map<ConvoId, AbortController>)
  {
    forall j :: j in controllers ==> j in runs && runs[j] == controllers[j]
  }

  /** A question, in an open conversation or, with none open, in a new one. */
  method AskFresh(shell: Shell, k: ConvoId, q: string, id: NodeId, ghost l: Local)
    returns (history: seq<Turn>, started: AbortController?)
    requires shell.hook.Valid()
    requires HasTree(l) && StageKnown(l) && Enabled(l, Submit(q, id)) && Holds(shell.SliceOf(k), l.s)
    modifies shell`conversations, shell.hook
    ensures shell.hook.Valid()
    ensures started != null ==> fresh(started)
    ensures shell.hook.controllers == Taken(old(shell.hook.controllers), k, started)
    ensures Holds(shell.SliceOf(k), Do(l, Submit(q, id)).s)
    ensures forall j :: j != k ==> shell.SliceOf(j) == old(shell.SliceOf(j))
    ensures AskedBy(l, Submit(q, id)) == if started == null then [] else [history]
  {
    StepsAreHandlers(l, Submit(q, id));
    StartedExactly(l, Submit(q, id));
    NothingVisible();
    if l.s == FRESH.s {
      NothingToDo(l, Submit(q, id));
    }
    assert Acyclic(Tree(l));
    hide WellFormed, SubmitTurn, Do, Acyclic, Enabled, History;
    if Find(shell.conversations, k).None? {
      history := [];
      started := shell.HandleSubmitNew(k, q, id);
    } else {
      history, started := shell.HandleSubmit(k, q, id);
    }
    assert (k in shell.hook.controllers) <==> shell.SliceOf(k).hook.controller.Some?;
  }

  /** Another version of a question, or another answer to one. */
  method AskAgain(shell: Shell, k: ConvoId, step: Step, ghost l: Local)
    returns (history: seq<Turn>, started: AbortController?)
    requires shell.hook.Valid() && (step.Edit? || step.Retry?)
    requires HasTree(l) && StageKnown(l) && Enabled(l, step) && Holds(shell.SliceOf(k), l.s)
    modifies shell`conversations, shell.hook
    ensures shell.hook.Valid()
    ensures started != null ==> fresh(started)
    ensures shell.hook.controllers == Taken(old(shell.hook.controllers), k, started)
    ensures Holds(shell.SliceOf(k), Do(l, step).s)
    ensures forall j :: j != k ==> shell.SliceOf(j) == old(shell.SliceOf(j))
    ensures AskedBy(l, step) == if started == null then [] else [history]
  {
    StepsAreHandlers(l, step);
    StartedExactly(l, step);
    if l.s == FRESH.s {
      NothingToDo(l, step);
    }
    assert Acyclic(Tree(l));
    hide WellFormed, EditTurn, RetryTurn, Do, Acyclic, Enabled, History;
    match step {
      case Edit(target, q, id) =>
        history, started := shell.HandleEditUserMessage(k, target, q, id);
      case Retry(target) =>
        history, started := shell.HandleRetryAssistant(k, target);
    }
    assert (k in shell.hook.controllers) <==> shell.SliceOf(k).hook.controller.Some?;
  }

  /** Everything that asks for nothing: navigation, Stop, events and the end of the stream. */
  method Handle(shell: Shell, runs: map<ConvoId, AbortController>, k: ConvoId, step: Action, ghost l: Local)
    returns (now: map<ConvoId, AbortController>)
    requires shell.hook.Valid() && Captured(runs, shell.hook.controllers) && !AsksSomething(step)
    requires HasTree(l) && StageKnown(l) && Enabled(l, step) && Holds(shell.SliceOf(k), l.s)
    modifies shell, shell.hook, set j | j in shell.hook.controllers :: shell.hook.controllers[j]
    ensures shell.hook.Valid() && Captured(now, shell.hook.controllers)
    ensures Holds(shell.SliceOf(k), Do(l, step).s)
    ensures forall j :: j != k ==> shell.SliceOf(j) == old(shell.SliceOf(j))
    ensures forall j :: j in now ==> j in runs && now[j] == runs[j]
  {
    StepsAreHandlers(l, step);
    if l.s == FRESH.s {
      NothingToDo(l, step);
    }
    assert Acyclic(Tree(l));
    hide WellFormed, SwitchTurn, SurfaceTurn, OnEvent, OnSettle, Do, Acyclic;
    now := runs;
    match step {
      case Switch(current, sibling) =>
        shell.HandleSwitchBranch(k, current, sibling);
      case Surface(target) =>
        shell.HandleSelectFromHistory(k, Some(target));
      case Stop =>
        shell.HandleStop(k);
      case Receive(e, id) =>
        shell.hook.HandleEvent(k, e, id);
      case Settle(ending, id) =>
        shell.hook.Settle(k, runs[k], ending, id);
        now := runs - {k};
      case _ =>
    }
  }

  /**
   * One action, by the handler or callback that performs it. `runs` are the controllers that the
   * outstanding callbacks captured when their runs were accepted; `sent` is what goes to the server.
   */
  method Perform(shell: Shell, runs: map<ConvoId, AbortController>, k: ConvoId, step: Action, ghost l: Local)
    returns (now: map<ConvoId, AbortController>, sent: seq<seq<Turn>>)
    requires shell.hook.Valid() && Captured(runs, shell.hook.controllers)
    requires HasTree(l) && StageKnown(l) && Enabled(l, step) && Holds(shell.SliceOf(k), l.s)
    modifies shell, shell.hook, set j | j in shell.hook.controllers :: shell.hook.controllers[j]
    ensures shell.hook.Valid() && Captured(now, shell.hook.controllers)
    ensures Holds(shell.SliceOf(k), Do(l, step).s)
    ensures forall j :: j != k ==> shell.SliceOf(j) == old(shell.SliceOf(j))
    ensures forall j :: j in now ==> now[j] in runs.Values || fresh(now[j])
    ensures sent == AskedBy(l, step)
  {
    hide WellFormed, Do, Enabled, Holds;
    now, sent := runs, [];
    if AsksSomething(step) {
      var history, started;
      if step.Submit? {
        history, started := AskFresh(shell, k, step.question, step.id, l);
      } else {
        history, started := AskAgain(shell, k, step, l);
      }
      if started != null {
        now, sent := runs[k := started], [history];
      }
    } else {
      now := Handle(shell, runs, k, step, l);
    }
  }

  // ---------- Whole interleavings ----------

  lemma FirstMoves(moves: seq<Move>, i: nat)
    requires i < |moves|
    ensures moves[..i + 1] == moves[..i] + [moves[i]] && moves[..i + 1][..i] == moves[..i]
  {
  }

  lemma GoneStep(moves: seq<Move>, next: Move, k: ConvoId)
    ensures Gone(moves + [next], k) <==> Gone(moves, k) || next == Delete(k)
  {
    var all := moves + [next];
    if d :| 0 <= d < |moves| && moves[d] == Delete(k) {
      assert all[d] == Delete(k);
    }
    if d :| 0 <= d < |all| && all[d] == Delete(k) {
      assert d < |moves| ==> moves[d] == Delete(k);
    }
    assert all[|moves|] == next;
  }

  lemma ShareStep(moves: seq<Move>, i: nat, k: ConvoId)
    requires i < |moves|
    ensures Share(moves[..i + 1], k) == Share(moves[..i], k) + if Gone(moves[..i], k) then [] else ShareOf(moves[i], k)
    ensures Gone(moves[..i + 1], k) <==> Gone(moves[..i], k) || moves[i] == Delete(k)
  {
    hide Gone, ShareOf;
    FirstMoves(moves, i);
    GoneStep(moves[..i], moves[i], k);
  }

  lemma {:induction false} LegalPrefix(l: Local, a: seq<Step>, b: seq<Step>)
    requires Legal(l, a + b)
    ensures Legal(l, a)
    decreases |b|
  {
    if b == [] {
      assert a + b == a;
    } else {
      assert (a + b)[..|a + b| - 1] == a + b[..|b| - 1];
      LegalPrefix(l, a, b[..|b| - 1]);
    }
  }

  lemma {:induction false} SharePrefix(moves: seq<Move>, i: nat, k: ConvoId)
    requires i <= |moves|
    ensures Share(moves[..i], k) <= Share(moves, k)
    decreases |moves| - i
  {
    if i < |moves| {
      ShareStep(moves, i, k);
      SharePrefix(moves, i + 1, k);
    } else {
      assert moves[..i] == moves;
    }
  }

  /** The state of conversation `k` after the first `i` moves, had there been no other conversation. */
  ghost function Alone(moves: seq<Move>, i: nat, k: ConvoId): Local
    requires i <= |moves|
  {
    Exec(FRESH, Share(moves[..i], k))
  }

  /** What the `i`-th move adds to the share of conversation `k`. */
  ghost function Mine(moves: seq<Move>, i: nat, k: ConvoId): seq<Step>
    requires i < |moves|
  {
    if Gone(moves[..i], k) then [] else ShareOf(moves[i], k)
  }

  /** One move takes a conversation one step further, if it concerns it and finds it. */
  lemma AloneStep(moves: seq<Move>, i: nat, k: ConvoId)
    requires Fair(moves) && i < |moves|
    ensures var l, next, mine := Alone(moves, i, k), Alone(moves, i + 1, k), Mine(moves, i, k);
            var before, after := AskedIn(Share(moves[..i], k)), AskedIn(Share(moves[..i + 1], k));
            && HasTree(l) && StageKnown(l)
            && (mine == [] ==> next == l && after == before)
            && (mine != [] ==>
                  |mine| == 1 && Enabled(l, mine[0]) && next == Do(l, mine[0]) && after == before + AskedBy(l, mine[0]))
  {
    hide Inv, HasTree, StageKnown, Enabled, Do, Gone, AskedBy, TreeOk;
    var before, mine := Share(moves[..i], k), Mine(moves, i, k);
    ShareStep(moves, i, k);
    SharePrefix(moves, i + 1, k);
    assert Share(moves, k) == (before + mine) + Share(moves, k)[|before + mine|..];
    LegalPrefix(FRESH, before + mine, Share(moves, k)[|before + mine|..]);
    LegalPrefix(FRESH, before, mine);
    FreshInv();
    InvAlways(FRESH, before);
    Known(Alone(moves, i, k));
    if mine == [] {
      assert before + mine == before;
    } else {
      OneMoreStep(before, mine[0]);
      assert mine == [mine[0]];
    }
  }

  lemma OneMoreStep(before: seq<Step>, step: Step)
    requires Legal(FRESH, before + [step])
    ensures Enabled(Exec(FRESH, before), step)
    ensures Exec(FRESH, before + [step]) == Take(Exec(FRESH, before), step)
    ensures AskedIn(before + [step]) == AskedIn(before) + AskedBy(Exec(FRESH, before), step)
  {
    assert (before + [step])[..|before|] == before;
    hide Enabled, AskedBy, Take;
  }

  /** What the shell holds of conversation `k` after `i` moves: what it would be alone, or, once deleted, no tree. */
  ghost predicate Kept(s: Slice, moves: seq<Move>, i: nat, k: ConvoId)
    requires i <= |moves|
  {
    if Gone(moves[..i], k) then s.tree.None? && !s.faulted else Holds(s, Alone(moves, i, k).s)
  }

  /** An action in a conversation that is still there. */
  method Act(shell: Shell, runs: map<ConvoId, AbortController>, moves: seq<Move>, i: nat)
    returns (now: map<ConvoId, AbortController>, sent: seq<seq<Turn>>)
    requires Fair(moves) && i < |moves| && moves[i].At? && !Gone(moves[..i], moves[i].k)
    requires shell.hook.Valid() && Captured(runs, shell.hook.controllers)
    requires forall k :: Kept(shell.SliceOf(k), moves, i, k)
    modifies shell, shell.hook, set j | j in shell.hook.controllers :: shell.hook.controllers[j]
    ensures shell.hook.Valid() && Captured(now, shell.hook.controllers)
    ensures forall k :: Kept(shell.SliceOf(k), moves, i + 1, k)
    ensures forall j :: j in now ==> now[j] in runs.Values || fresh(now[j])
    ensures forall k :: AskedIn(Share(moves[..i + 1], k)) ==
                        AskedIn(Share(moves[..i], k)) + if k == moves[i].k then sent else []
  {
    hide Alone, Do, Inv, HasTree, StageKnown, Enabled, Fair, Gone, Captured, AskedIn, AskedBy, Share, Holds;
    var k, action := moves[i].k, moves[i].action;
    AloneStep(moves, i, k);
    assert Kept(shell.SliceOf(k), moves, i, k);
    now, sent := Perform(shell, runs, k, action, Alone(moves, i, k));
    forall j
      ensures j != k ==> Alone(moves, i + 1, j) == Alone(moves, i, j)
      ensures Gone(moves[..i + 1], j) <==> Gone(moves[..i], j)
      ensures AskedIn(Share(moves[..i + 1], j)) == AskedIn(Share(moves[..i], j)) + if k == j then sent else []
    {
      AloneStep(moves, i, j);
      ShareStep(moves, i, j);
    }
    forall j
      ensures Kept(shell.SliceOf(j), moves, i + 1, j)
    {
      assert Kept(old(shell.SliceOf(j)), moves, i, j);
    }
  }

  /** What moves no conversation of its own: a render, a deletion, the late end of a deleted conversation's stream. */
  method Tidy(shell: Shell, runs: map<ConvoId, AbortController>, moves: seq<Move>, i: nat)
    returns (now: map<ConvoId, AbortController>)
    requires Fair(moves) && i < |moves| && (moves[i].At? ==> Gone(moves[..i], moves[i].k))
    requires shell.hook.Valid() && Captured(runs, shell.hook.controllers)
    requires forall k :: Kept(shell.SliceOf(k), moves, i, k)
    modifies shell, shell.hook, set j | j in shell.hook.controllers :: shell.hook.controllers[j]
    ensures shell.hook.Valid() && Captured(now, shell.hook.controllers)
    ensures forall k :: Kept(shell.SliceOf(k), moves, i + 1, k)
    ensures forall j :: j in now ==> now[j] in runs.Values
    ensures forall k :: AskedIn(Share(moves[..i + 1], k)) == AskedIn(Share(moves[..i], k))
  {
    hide Alone, Do, Inv, HasTree, StageKnown, Enabled, Flush, Gone, AskedIn, Share, Holds;
    now := runs;
    match moves[i] {
      case At(k, action) =>
        if k in runs && action.Settle? {
          shell.hook.Settle(k, runs[k], action.ending, action.id);
          now := runs - {k};
        }
      case RenderAll =>
        shell.Render();
      case Delete(k) =>
        shell.ConfirmDelete(k);
    }
    hide Fair;
    forall k
      ensures Kept(shell.SliceOf(k), moves, i + 1, k)
      ensures AskedIn(Share(moves[..i + 1], k)) == AskedIn(Share(moves[..i], k))
    {
      assert Kept(old(shell.SliceOf(k)), moves, i, k);
      AloneStep(moves, i, k);
      ShareStep(moves, i, k);
      if moves[i].RenderAll? {
        RenderKeeps(old(shell.SliceOf(k)), moves, i, k);
      }
    }
  }

  lemma RenderKeeps(s: Slice, moves: seq<Move>, i: nat, k: ConvoId)
    requires Fair(moves) && i < |moves| && moves[i].RenderAll? && Kept(s, moves, i, k)
    ensures Kept(Flush(s), moves, i + 1, k)
  {
    AloneStep(moves, i, k);
    ShareStep(moves, i, k);
    if Gone(moves[..i], k) {
      RenderWithoutTree(s);
    } else {
      RenderHolds(s, Alone(moves, i, k));
    }
  }

  lemma RenderWithoutTree(s: Slice)
    requires s.tree.None?
    ensures Flush(s).tree.None? && Flush(s).faulted == s.faulted
  {
  }

  lemma RenderHolds(s: Slice, l: Local)
    requires HasTree(l) && StageKnown(l) && Holds(s, l.s)
    ensures Holds(Flush(s), Do(l, Render).s)
  {
    StepsAreHandlers(l, Render);
    if l.s == FRESH.s {
      NothingToDo(l, Render);
    }
  }

  lemma AloneIsSafe(moves: seq<Move>, k: ConvoId)
    requires Fair(moves)
    ensures Alone(moves, |moves|, k) == Exec(FRESH, Share(moves, k)) && moves[..|moves|] == moves
    ensures HasTree(Alone(moves, |moves|, k)) && !Alone(moves, |moves|, k).s.faulted
  {
    assert moves[..|moves|] == moves;
    FreshInv();
    InvAlways(FRESH, Share(moves, k));
  }

  lemma NothingSaidYet(moves: seq<Move>, k: ConvoId)
    ensures Alone(moves, 0, k) == FRESH && !Gone(moves[..0], k) && AskedIn(Share(moves[..0], k)) == []
  {
  }

  function For(k: ConvoId, histories: seq<seq<Turn>>): (sent: seq<(ConvoId, seq<Turn>)>)
  {
    if histories == [] then [] else For(k, histories[..|histories| - 1]) + [(k, histories[|histories| - 1])]
  }

  lemma SentOne(sent: seq<(ConvoId, seq<Turn>)>, one: (ConvoId, seq<Turn>), j: ConvoId)
    ensures SentFor(sent + [one], j) == SentFor(sent, j) + if one.0 == j then [one.1] else []
  {
    assert (sent + [one])[..|sent|] == sent;
  }

  lemma SameOrder<T>(a: seq<T>, b: seq<T>)
    requires b != []
    ensures a + b[..|b| - 1] + [b[|b| - 1]] == a + b
  {
  }

  lemma {:induction false} SentMore(sent: seq<(ConvoId, seq<Turn>)>, k: ConvoId, histories: seq<seq<Turn>>, j: ConvoId)
    ensures SentFor(sent + For(k, histories), j) == SentFor(sent, j) + if j == k then histories else []
  {
    if histories == [] {
      assert sent + For(k, histories) == sent;
    } else {
      var init, last := histories[..|histories| - 1], histories[|histories| - 1];
      SentMore(sent, k, init, j);
      assert For(k, histories) == For(k, init) + [(k, last)];
      hide SentFor, For;
      SentOne(sent + For(k, init), (k, last), j);
      assert sent + (For(k, init) + [(k, last)]) == (sent + For(k, init)) + [(k, last)];
      SameOrder(SentFor(sent, j), histories);
    }
  }

  /**
   * The dashboard, driven through any interleaving of its conversations. Each conversation's tree,
   * stream state and buffers, as the shared dictionaries hold them, end up as if the others had
   * never been there, and so do the histories sent for it; a deleted one has no tree. So every
   * tree is well formed, and no update of any of them threw.
   */
  method Drive(moves: seq<Move>) returns (shell: Shell, sent: seq<(ConvoId, seq<Turn>)>)
    requires Fair(moves)
    ensures forall k :: !Gone(moves, k) ==> Holds(shell.SliceOf(k), Exec(FRESH, Share(moves, k)).s)
    ensures forall k :: Gone(moves, k) ==> shell.SliceOf(k).tree.None?
    ensures forall k :: SentFor(sent, k) == AskedIn(Share(moves, k))
    ensures forall k :: shell.SliceOf(k).tree.Some? ==> WellFormed(shell.SliceOf(k).tree.value)
    ensures forall k :: !shell.SliceOf(k).faulted
  {
    var hook := new Streams();
    shell := new Shell(hook);
    sent := [];
    var runs: map<ConvoId, AbortController> := map[];
    hide Alone, Fair, Inv, WellFormed, Exec, Share, Gone, AskedIn;
    forall k
      ensures Kept(shell.SliceOf(k), moves, 0, k) && AskedIn(Share(moves[..0], k)) == []
    {
      NothingSaidYet(moves, k);
    }
    for i := 0 to |moves|
      invariant fresh(shell) && fresh(shell.hook) && shell.hook.Valid()
      invariant Captured(runs, shell.hook.controllers) && forall j :: j in runs ==> fresh(runs[j])
      invariant forall k :: Kept(shell.SliceOf(k), moves, i, k)
      invariant forall k :: SentFor(sent, k) == AskedIn(Share(moves[..i], k))
    {
      if moves[i].At? && !IsDeleted(moves, i, moves[i].k) {
        var histories;
        runs, histories := Act(shell, runs, moves, i);
        forall k
          ensures SentFor(sent + For(moves[i].k, histories), k) == AskedIn(Share(moves[..i + 1], k))
        {
          SentMore(sent, moves[i].k, histories, k);
        }
        sent := sent + For(moves[i].k, histories);
      } else {
        runs := Tidy(shell, runs, moves, i);
      }
    }
    forall k
      ensures Alone(moves, |moves|, k) == Exec(FRESH, Share(moves, k)) && moves[..|moves|] == moves
      ensures HasTree(Alone(moves, |moves|, k)) && !Alone(moves, |moves|, k).s.faulted
      ensures Kept(shell.SliceOf(k), moves, |moves|, k)
    {
      AloneIsSafe(moves, k);
    }
  }

  predicate IsDeleted(moves: seq<Move>, i: nat, k: ConvoId)
    requires i <= |moves|
    ensures IsDeleted(moves, i, k) <==> Gone(moves[..i], k)
  {
    if i == 0 then false
    else
      ShareStep(moves, i - 1, k);
      moves[i - 1] == Delete(k) || IsDeleted(moves, i - 1, k)
  }

  /**
   * Deleting a conversation and rendering after the callback of its run, if one is out, has come
   * back: the entry of its stream is there again exactly when a run was on file.
   */
  method DeleteThenHearBack(shell: Shell, k: ConvoId, message: string, newId: NodeId)
    requires shell.hook.Valid()
    modifies shell, shell.hook, if k in shell.hook.controllers then {shell.hook.controllers[k]} else {}
    ensures k in shell.hook.streams <==> k in old(shell.hook.controllers)
    ensures shell.SliceOf(k).tree.None?
    ensures forall j :: j != k ==> shell.SliceOf(j) == Flush(old(shell.SliceOf(j)))
  {
    var run := Lookup(shell.hook.controllers, k);
    shell.ConfirmDelete(k);
    if run.Some? {
      shell.hook.Settle(k, run.value, StreamRejected(message), newId);
    }
    shell.Render();
    assert (shell.SliceOf(k).hook.stream.Some?) <==> k in shell.hook.streams;
  }
}
