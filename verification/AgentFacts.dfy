/**
 * What a model call and a tool call contribute to a run, said of the world itself: the items of
 * the stream, the calls made, and what each tool gave back.
 */
module AgentFacts {
  import opened Wrappers
  import opened ChatTypes
  import opened AgentLoop
  import opened AgentRun

  // ---------- Model calls ----------

  /** The i-th item is the last reply of the stream. */
  predicate LastReply(items: seq<StreamItem>, i: nat, r: Reply)
  {
    i < |items| && items[i] == Done(r) && forall j :: i < j < |items| ==> !items[j].Done?
  }

  lemma {:induction false} LastDoneExactly(items: seq<StreamItem>, r: Reply)
    ensures LastDone(items) == Some(r) <==> exists i: nat :: LastReply(items, i, r)
    ensures LastDone(items).None? <==> forall i :: 0 <= i < |items| ==> !items[i].Done?
  {
    if items != [] {
      var k := |items| - 1;
      var init := items[..k];
      LastDoneExactly(init, r);
      if items[k].Done? {
        assert LastReply(items, k, items[k].reply);
      } else {
        assert forall i: nat :: LastReply(items, i, r) <==> LastReply(init, i, r);
      }
    }
  }

  /** A model call yields the last reply its stream delivered, if the stream did not break off. */
  lemma CallSucceedsExactly(call: ModelCall, r: Reply)
    ensures CallResult(call) == Ok(r) <==>
            match call
            case Blocking(result) => result == Ok(r)
            case Streamed(items, failure) => failure.None? && exists i: nat :: LastReply(items, i, r)
  {
    if call.Streamed? {
      LastDoneExactly(call.items, r);
    }
  }

  /** It fails with the failure that broke it off, or for want of a reply. */
  lemma CallFailsExactly(call: ModelCall, f: Failure)
    ensures CallResult(call) == Err(f) <==>
            match call
            case Blocking(result) => result == Err(f)
            case Streamed(items, failure) =>
              if failure.Some? then failure.value == f
              else f == OtherFailure("RuntimeError") && forall i :: 0 <= i < |items| ==> !items[i].Done?
  {
    if call.Streamed? {
      LastDoneExactly(call.items, Reply("", [], 0, 0));
    }
  }

  /** The text that a stream spells out. */
  ghost function TextOf(items: seq<StreamItem>): string
  {
    if items == [] then ""
    else if items[0].Delta? then items[0].text + TextOf(items[1..])
    else TextOf(items[1..])
  }

  ghost function TextSent(events: seq<Event>): string
  {
    if events == [] then ""
    else if events[0].ModelDelta? then events[0].text + TextSent(events[1..])
    else TextSent(events[1..])
  }

  lemma {:induction false} TextSentMore(events: seq<Event>, e: Event)
    ensures TextSent(events + [e]) == TextSent(events) + if e.ModelDelta? then e.text else ""
  {
    if events == [] {
      assert (events + [e])[1..] == [];
    } else {
      assert (events + [e])[1..] == events[1..] + [e];
      TextSentMore(events[1..], e);
    }
  }

  lemma {:induction false} TextOfMore(items: seq<StreamItem>, x: StreamItem)
    ensures TextOf(items + [x]) == TextOf(items) + if x.Delta? then x.text else ""
  {
    if items == [] {
      assert (items + [x])[1..] == [];
    } else {
      assert (items + [x])[1..] == items[1..] + [x];
      TextOfMore(items[1..], x);
    }
  }

  /** The deltas forwarded spell the text that the stream spelled, all of them under the step's number and none empty. */
  lemma {:induction false} DeltasSpellTheText(step: nat, items: seq<StreamItem>)
    ensures TextSent(DeltaEvents(step, items)) == TextOf(items)
    ensures forall e :: e in DeltaEvents(step, items) ==> e.ModelDelta? && e.step == step && e.text != ""
  {
    if items != [] {
      var init, x := items[..|items| - 1], items[|items| - 1];
      DeltasSpellTheText(step, init);
      assert items == init + [x];
      TextOfMore(init, x);
      TextSentMore(DeltaEvents(step, init), ModelDelta(step, if x.Delta? then x.text else ""));
      assert TextOf(init) + "" == TextOf(init);
      assert DeltaEvents(step, init) + [] == DeltaEvents(step, init);
    }
  }

  // ---------- Tool calls ----------

  lemma {:induction false} OutcomesAt(w: World, step: nat, calls: seq<ToolCall>, n: nat, j: nat)
    requires j < n <= |calls|
    ensures Outcomes(w, step, calls, n)[j] == Executed(calls[j], w.tool(step, j))
  {
    if j < n - 1 {
      OutcomesAt(w, step, calls, n - 1, j);
    }
  }

  /** The tool's own words, if it had any. */
  function ErrorOf(d: Dispatch): string
  {
    if d.error.None? || d.error.value == "" then "tool call failed" else d.error.value
  }

  /**
   * What the model is told of its calls: one result per call, under the call's id and name; the
   * tool's payload if it succeeded with one, and otherwise its error.
   */
  ghost predicate Told(w: World, step: nat, calls: seq<ToolCall>, results: seq<ToolResult>)
  {
    && |results| == |calls|
    && forall j :: 0 <= j < |calls| ==>
         var d, r := w.tool(step, j), results[j];
         && r.callId == calls[j].id && r.name == calls[j].name
         && (if d.success && d.result.Some? then r.content == d.result && r.error.None?
             else r.content.None? &&
                  r.error == Some(ErrorOf(d)))
  }

  lemma {:induction false} MessagesTell(w: World, step: nat, calls: seq<ToolCall>, n: nat)
    requires n <= |calls|
    ensures Told(w, step, calls[..n], MessagesFor(Outcomes(w, step, calls, n)))
  {
    if n > 0 {
      MessagesTell(w, step, calls, n - 1);
      var done := Outcomes(w, step, calls, n);
      assert done[..n - 1] == Outcomes(w, step, calls, n - 1);
      assert done[n - 1] == Executed(calls[n - 1], w.tool(step, n - 1));
    }
  }

  /** What the reader is shown of a call: the tool, how it went, and the source it names. */
  ghost predicate Summarizes(d: Dispatch, t: ToolEvent)
  {
    && t.name == d.toolName && t.callId == d.toolCallId && t.success == d.success
    && (t.citation.Some? <==> d.result.Some? && d.result.value.citation.Some?)
    && (t.citation.Some? ==> t.citation == d.result.value.citation)
    && (t.error.Some? <==> d.error.Some? && d.error.value != "")
    && (t.error.Some? ==> t.error == d.error)
  }

  lemma SummaryTells(d: Dispatch)
    ensures Summarizes(d, Summary(d))
  {
  }

  /** Every call is announced by name and id, and its end reported. */
  lemma {:induction false} ToolEventsAt(w: World, step: nat, calls: seq<ToolCall>, n: nat, j: nat)
    requires j < n <= |calls|
    ensures var events := ToolEvents(Outcomes(w, step, calls, n));
            && |events| == 2 * n
            && events[2 * j] == ToolCallStarted(calls[j].name, calls[j].id)
            && events[2 * j + 1].ToolCallCompleted? && Summarizes(w.tool(step, j), events[2 * j + 1].tool)
  {
    var done := Outcomes(w, step, calls, n);
    assert done[..n - 1] == Outcomes(w, step, calls, n - 1);
    assert done[n - 1] == Executed(calls[n - 1], w.tool(step, n - 1));
    if j < n - 1 {
      ToolEventsAt(w, step, calls, n - 1, j);
    } else if n > 1 {
      ToolEventsAt(w, step, calls, n - 1, 0);
    }
  }

  // ---------- Evidence ----------

  function CitedBy(d: Dispatch): seq<Citation>
  {
    if !d.success || d.result.None? then []
    else if d.result.value.citation.None? then d.result.value.citations
    else [d.result.value.citation.value] + d.result.value.citations
  }

  /**
   * What the i-th call adds to the evidence, at its place: its citations, and its payload, its hits
   * or its failure.
   */
  lemma {:induction false} EvidenceAt(done: seq<Executed>, i: nat)
    requires i < |done|
    ensures var before, call, d := done[..i], done[i].call, done[i].outcome;
            var went, lookup := d.success && d.result.Some?, call.name == "query_runbook";
            && CitationsOf(before) + CitedBy(d) <= CitationsOf(done)
            && ResultsOf(before) + (if went && !lookup then [(call.name, d.result.value)] else []) <= ResultsOf(done)
            && ChunksOf(before) + (if went && lookup then d.result.value.hits else []) <= ChunksOf(done)
            && |FailuresOf(before)| + (if went then 0 else 1) <= |FailuresOf(done)|
            && (!went ==> FailuresOf(done)[|FailuresOf(before)|] == (call.name, ErrorOf(d)))
  {
    var k := |done| - 1;
    CitationsStep(done);
    hide CitationsOf, CitedBy;
    if i < k {
      EvidenceAt(done[..k], i);
      assert done[..k][..i] == done[..i];
    }
  }

  predicate Went(d: Dispatch)
  {
    d.success && d.result.Some?
  }

  lemma CitationsStep(done: seq<Executed>)
    requires done != []
    ensures CitationsOf(done) == CitationsOf(done[..|done| - 1]) + CitedBy(done[|done| - 1].outcome)
  {
  }

  /** Nothing else is cited. */
  lemma {:induction false} CitationsExactly(done: seq<Executed>, c: Citation)
    ensures c in CitationsOf(done) <==> exists i :: 0 <= i < |done| && c in CitedBy(done[i].outcome)
  {
    if done != [] {
      var k := |done| - 1;
      CitationsExactly(done[..k], c);
      CitationsStep(done);
      hide CitationsOf, CitedBy;
      assert forall i :: 0 <= i < k ==> done[..k][i] == done[i];
    }
  }

  /** There is a citation exactly when some call that went well names a source. */
  lemma {:induction false} CitedExactly(done: seq<Executed>)
    ensures CitationsOf(done) != [] <==> exists i :: 0 <= i < |done| && CitedBy(done[i].outcome) != []
  {
    if done != [] {
      var k := |done| - 1;
      CitedExactly(done[..k]);
      CitationsStep(done);
      hide CitationsOf, CitedBy;
      assert forall i :: 0 <= i < k ==> done[..k][i] == done[i];
    }
  }

  /** There is a failure exactly when some call did not go well. */
  lemma {:induction false} FailedExactly(done: seq<Executed>)
    ensures FailuresOf(done) != [] <==> exists i :: 0 <= i < |done| && !Went(done[i].outcome)
  {
    if done != [] {
      var k := |done| - 1;
      FailedExactly(done[..k]);
      assert FailuresOf(done) != [] <==> FailuresOf(done[..k]) != [] || !Went(done[k].outcome);
      hide FailuresOf, Went;
      assert forall i :: 0 <= i < k ==> done[..k][i] == done[i];
    }
  }

  // ---------- Repeated calls ----------

  /** Two calls count as the same when name and arguments agree; names hold no colon. */
  lemma SignatureTells(a: ToolCall, b: ToolCall)
    requires ':' !in a.name && ':' !in b.name
    ensures Signature(a) == Signature(b) <==> a.name == b.name && a.arguments == b.arguments
  {
    var s, t := Signature(a), Signature(b);
    assert s[..|a.name|] == a.name && s[|a.name| + 1..] == a.arguments;
    assert t[..|b.name|] == b.name && t[|b.name| + 1..] == b.arguments;
    assert s[|a.name|] == ':' && t[|b.name|] == ':';
    if |a.name| < |b.name| {
      assert t[|a.name|] == b.name[|a.name|];
    } else if |b.name| < |a.name| {
      assert s[|b.name|] == a.name[|b.name|];
    }
  }

  lemma {:induction false} SignatureSetExactly(calls: seq<ToolCall>, s: string)
    ensures s in SignatureSet(calls) <==> exists i :: 0 <= i < |calls| && Signature(calls[i]) == s
  {
    if calls != [] {
      var k := |calls| - 1;
      SignatureSetExactly(calls[..k], s);
      assert forall i :: 0 <= i < k ==> calls[..k][i] == calls[i];
      assert Signature(calls[k]) == s ==> exists i :: 0 <= i < |calls| && Signature(calls[i]) == s;
    }
  }

  /** Some call of step `j` has this signature. */
  ghost predicate CalledAt(log: Log, j: nat, s: string)
    requires j < |log|
  {
    exists i :: 0 <= i < |log[j].reply.calls| && Signature(log[j].reply.calls[i]) == s
  }

  lemma {:induction false} SignaturesExactly(log: Log, s: string)
    ensures s in Signatures(log) <==> exists j: nat :: j < |log| && CalledAt(log, j, s)
  {
    if log != [] {
      var k := |log| - 1;
      SignaturesExactly(Init(log), s);
      SignatureSetExactly(Last(log).reply.calls, s);
      assert forall j: nat :: j < k ==> (CalledAt(Init(log), j, s) <==> CalledAt(log, j, s));
      assert CalledAt(log, k, s) <==> s in SignatureSet(Last(log).reply.calls);
    }
  }

  /** Every call of step `i` was made at an earlier step. */
  ghost predicate Repeats(log: Log, i: nat)
    requires i < |log|
  {
    forall c :: 0 <= c < |log[i].reply.calls| ==> CalledBefore(log, i, Signature(log[i].reply.calls[c]))
  }

  /** Some step before `i` made a call with this signature. */
  ghost predicate CalledBefore(log: Log, i: nat, s: string)
    requires i <= |log|
  {
    exists j: nat :: j < i && CalledAt(log, j, s)
  }

  lemma CalledEarlier(log: Log, i: nat, s: string)
    requires log != [] && i <= |log| - 1
    ensures CalledBefore(Init(log), i, s) <==> CalledBefore(log, i, s)
  {
    forall j: nat | j < i
      ensures CalledAt(Init(log), j, s) <==> CalledAt(log, j, s)
    {
      assert Init(log)[j] == log[j];
    }
  }

  lemma RepeatsExactly(log: Log)
    requires log != []
    ensures LastRedundant(log) <==> Repeats(log, |log| - 1)
  {
    var k, calls := |log| - 1, Last(log).reply.calls;
    forall s
      ensures s in Signatures(Init(log)) <==> CalledBefore(log, k, s)
    {
      SignaturesExactly(Init(log), s);
      CalledEarlier(log, k, s);
    }
    forall s
      ensures s in SignatureSet(calls) <==> exists c :: 0 <= c < |calls| && Signature(calls[c]) == s
    {
      SignatureSetExactly(calls, s);
    }
    hide Signatures, SignatureSet, CalledBefore;
    if Repeats(log, k) {
      forall s | s in SignatureSet(calls)
        ensures s in Signatures(Init(log))
      {
        var c :| 0 <= c < |calls| && Signature(calls[c]) == s;
      }
    }
  }

  lemma RepeatsEarlier(log: Log, i: nat)
    requires i < |log| - 1
    ensures Repeats(Init(log), i) <==> Repeats(log, i)
  {
    assert Init(log)[i] == log[i];
    forall s
      ensures CalledBefore(Init(log), i, s) <==> CalledBefore(log, i, s)
    {
      CalledEarlier(log, i, s);
    }
    hide CalledBefore;
  }

  /** The last two steps brought nothing new. */
  ghost predicate StoodStill(log: Log)
  {
    |log| >= 2 && Repeats(log, |log| - 1) && Repeats(log, |log| - 2)
  }

  lemma StreakExactly(log: Log)
    ensures Streak(log) >= 1 <==> log != [] && Repeats(log, |log| - 1)
    ensures Streak(log) >= 2 <==> StoodStill(log)
  {
    if log != [] {
      RepeatsExactly(log);
      if |log| >= 2 {
        RepeatsExactly(Init(log));
        RepeatsEarlier(log, |log| - 2);
      }
      hide Repeats;
      assert Streak(log) == if LastRedundant(log) then Streak(Init(log)) + 1 else 0;
      assert Streak(Init(log)) >= 1 <==> LastRedundant(Init(log));
    }
  }
}
