/**
 * The grammar of the event stream that one run of the agent loop emits, as an automaton
 * over events. The dashboard's stream manager relies on it.
 */
module Trace {
  import opened Wrappers
  import opened ChatTypes

  datatype Point =
    | Opening                  // nothing emitted yet
    | Ready                    // loop.started seen, first step due
    | Thinking                 // a model call is in progress
    | Failing                  // the model call failed, its answer is due
    | Calling(left: nat)       // `left` tool calls still to announce
    | InTool(left: nat)        // one announced, `left` including it still to complete
    | Between                  // a step with tool calls is over
    | Closing                  // the model replied without tool calls
    | Judging | Judged         // blocking verdicts, answer still to come
    | Owed | Late              // answer sent, verdicts still to come
    | Settled
    | Broken(answered: bool)   // the endpoint reported a failure

  /** Where a stream stands: the loop it belongs to, its current step, and the tool calls completed. */
  datatype Stage = Stage(at: Point, loop: string, step: nat, tools: nat)

  const START := Stage(Opening, "", 0, 0)

  /** An answer that may end a run standing at `s`. */
  predicate FinalAnswer(s: Stage, a: AgentAnswer)
  {
    && a.loopId == s.loop
    && a.toolCallCount == s.tools
    && (if s.at.Failing? then a.stopReason.StopLoopError? && a.stepCount == s.step
        else a.stopReason.StopAnswer? && a.stepCount == s.step + 1)
  }

  predicate NoVerdicts(a: AgentAnswer)
  {
    a.supported.None? && a.unsupported.None? && a.uncertain.None? && a.unverifiable.None?
  }

  predicate HasAnswered(s: Stage)
  {
    s.at.Owed? || s.at.Late? || s.at.Settled? || (s.at.Broken? && s.at.answered)
  }

  function Next(s: Stage, e: Event): Option<Stage>
  {
    match e
    case ErrorEvent(_) =>
      if s.at.Broken? then None else Some(s.(at := Broken(HasAnswered(s))))
    case LoopStarted(id) =>
      if s.at.Opening? then Some(Stage(Ready, id, 0, 0)) else None
    case StepStarted(n) =>
      if s.at.Ready? && n == 0 then Some(s.(at := Thinking))
      else if s.at.Between? && n == s.step + 1 then Some(s.(at := Thinking, step := n))
      else None
    case ModelDelta(n, text) =>
      if s.at.Thinking? && n == s.step && text != "" then Some(s) else None
    case ModelCallFailed(n, _) =>
      if s.at.Thinking? && n == s.step then Some(s.(at := Failing)) else None
    case ModelCallCompleted(n, _, _, k) =>
      if s.at.Thinking? && n == s.step then Some(s.(at := if k == 0 then Closing else Calling(k))) else None
    case ToolCallStarted(_, _) =>
      if s.at.Calling? then Some(s.(at := InTool(s.at.left))) else None
    case ToolCallCompleted(_) =>
      if s.at.InTool? then
        Some(s.(at := if s.at.left <= 1 then Between else Calling(s.at.left - 1), tools := s.tools + 1))
      else None
    case GroundingStarted(id) =>
      if id != s.loop then None
      else if s.at.Closing? || s.at.Between? then Some(s.(at := Judging))
      else if s.at.Owed? then Some(s.(at := Late))
      else None
    case GroundingPartial(id, _) =>
      if s.at.Late? && id == s.loop then Some(s) else None
    case GroundingCompleted(id, _, _, _, _, _, annotated) =>
      if id != s.loop then None
      else if s.at.Judging? && annotated.None? then Some(s.(at := Judged))
      else if s.at.Late? then Some(s.(at := Settled))
      else None
    case AnswerEvent(a, pending) =>
      if !FinalAnswer(s, a) then None
      else if pending && (s.at.Closing? || s.at.Between?) && NoVerdicts(a) then Some(s.(at := Owed))
      else if !pending && (s.at.Closing? || s.at.Between? || s.at.Judged? || s.at.Failing?) then
        Some(s.(at := Settled))
      else None
  }

  /** Where the stream stands after `events`; absent when some event does not fit. */
  function After(s: Stage, events: seq<Event>): Option<Stage>
  {
    if events == [] then Some(s)
    else
      match After(s, events[..|events| - 1])
      case None => None
      case Some(t) => Next(t, events[|events| - 1])
  }

  /** An event stream that fits the grammar so far. */
  predicate Fits(events: seq<Event>)
  {
    After(START, events).Some?
  }

  lemma {:induction false} AfterConcat(s: Stage, a: seq<Event>, b: seq<Event>)
    requires After(s, a).Some?
    ensures After(s, a + b) == After(After(s, a).value, b)
  {
    if b == [] {
      assert a + b == a;
    } else {
      assert (a + b)[..|a + b| - 1] == a + b[..|b| - 1];
      AfterConcat(s, a, b[..|b| - 1]);
    }
  }

  /** The grammar is closed under cutting a stream short. */
  lemma {:induction false} FitsPrefix(events: seq<Event>, k: nat)
    requires Fits(events) && k <= |events|
    ensures Fits(events[..k])
  {
    if k < |events| {
      var init := events[..|events| - 1];
      FitsPrefix(init, k);
      assert init[..k] == events[..k];
    } else {
      assert events[..k] == events;
    }
  }

  /** What the endpoint sends when a run raises: whatever was emitted, then one error. */
  lemma CutShortIsBroken(events: seq<Event>, k: nat, detail: string)
    requires Fits(events) && k <= |events|
    requires After(START, events).value.at != Broken(true) && After(START, events).value.at != Broken(false)
    ensures Fits(events[..k] + [ErrorEvent(detail)])
    ensures After(START, events[..k] + [ErrorEvent(detail)]).value.at.Broken?
  {
    hide After, Next;
    FitsPrefix(events, k);
    var cut := events[..k];
    assert k == |events| ==> cut == events;
    if After(START, cut).value.at.Broken? {
      BrokenIsLast(events, k);
    }
    ErrorFits(cut, detail);
  }

  lemma ErrorFits(cut: seq<Event>, detail: string)
    requires Fits(cut) && !After(START, cut).value.at.Broken?
    ensures Fits(cut + [ErrorEvent(detail)])
    ensures After(START, cut + [ErrorEvent(detail)]).value.at.Broken?
  {
    assert (cut + [ErrorEvent(detail)])[..|cut|] == cut;
  }

  /** Nothing follows an error. */
  lemma {:induction false} BrokenIsLast(events: seq<Event>, k: nat)
    requires Fits(events) && k <= |events|
    requires After(START, events[..k]).Some? && After(START, events[..k]).value.at.Broken?
    ensures k == |events|
  {
    assert k < |events| ==> events[..k + 1][..k] == events[..k];
    if k < |events| {
      FitsPrefix(events, k + 1);
    }
  }

  /** Once answered, a stream stays answered. */
  lemma AnsweredStays(s: Stage, e: Event)
    requires Next(s, e).Some?
    ensures HasAnswered(s) ==> HasAnswered(Next(s, e).value)
    ensures e.AnswerEvent? ==> !HasAnswered(s) && HasAnswered(Next(s, e).value)
    ensures !e.AnswerEvent? ==> (HasAnswered(Next(s, e).value) <==> HasAnswered(s))
  {
  }

  function CountAnswers(events: seq<Event>): nat
  {
    if events == [] then 0
    else CountAnswers(events[..|events| - 1]) + (if events[|events| - 1].AnswerEvent? then 1 else 0)
  }

  function CountTools(events: seq<Event>): nat
  {
    if events == [] then 0
    else CountTools(events[..|events| - 1]) + (if events[|events| - 1].ToolCallCompleted? then 1 else 0)
  }

  function CountSteps(events: seq<Event>): nat
  {
    if events == [] then 0
    else CountSteps(events[..|events| - 1]) + (if events[|events| - 1].StepStarted? then 1 else 0)
  }

  /** A stream that fits carries an answer exactly when its stage says so, and never two. */
  lemma {:induction false} AnswersCounted(events: seq<Event>)
    requires Fits(events)
    ensures CountAnswers(events) == if HasAnswered(After(START, events).value) then 1 else 0
  {
    if events != [] {
      var init := events[..|events| - 1];
      AnswersCounted(init);
      AnsweredStays(After(START, init).value, events[|events| - 1]);
    }
  }

  /** The stage counts the completed tool calls and the steps. */
  lemma {:induction false} StageCounts(events: seq<Event>)
    requires Fits(events)
    ensures var s := After(START, events).value;
            && CountTools(events) == s.tools
            && (s.at.Opening? || s.at.Ready? ==> CountSteps(events) == 0)
            && (!s.at.Opening? && !s.at.Ready? && !s.at.Broken? ==> CountSteps(events) == s.step + 1)
            && (s.at.Broken? ==> CountSteps(events) == s.step + 1 || CountSteps(events) == s.step == 0)
  {
    if events != [] {
      StageCounts(events[..|events| - 1]);
    }
  }
}
