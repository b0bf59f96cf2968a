/**
 * Server-sent events as services/dashboard/lib/api.ts reads them: frames end at a blank line,
 * and the text may arrive cut into chunks anywhere. The format is that of sections 9.2.5 and
 * 9.2.6 of the WHATWG HTML Living Standard, restricted to LF line ends.
 */
module Sse {
  import opened Wrappers
  import opened Text

  // ---------- Text helpers ----------

  predicate SeparatorAt(s: string, i: nat)
  {
    i + 1 < |s| && s[i] == '\n' && s[i + 1] == '\n'
  }

  /** `s.indexOf("\n\n")`. */
  function IndexOfSeparator(s: string): (r: Option<nat>)
    ensures r.Some? ==> SeparatorAt(s, r.value) && forall j: nat :: j < r.value ==> !SeparatorAt(s, j)
    ensures r.None? ==> forall j: nat :: !SeparatorAt(s, j)
  {
    SeparatorFrom(s, 0)
  }

  function SeparatorFrom(s: string, from: nat): (r: Option<nat>)
    requires forall j: nat :: j < from ==> !SeparatorAt(s, j)
    ensures r.Some? ==> SeparatorAt(s, r.value) && forall j: nat :: j < r.value ==> !SeparatorAt(s, j)
    ensures r.None? ==> forall j: nat :: !SeparatorAt(s, j)
    decreases |s| - from
  {
    if from + 1 >= |s| then None
    else if SeparatorAt(s, from) then Some(from)
    else SeparatorFrom(s, from + 1)
  }

  /** `s.split("\n")`. */
  function SplitLines(s: string): (lines: seq<string>)
    ensures |lines| > 0
  {
    if s == "" then [""]
    else
      var rest := SplitLines(s[1..]);
      if s[0] == '\n' then [""] + rest else [[s[0]] + rest[0]] + rest[1..]
  }

  predicate StartsWith(s: string, p: string)
  {
    p <= s
  }

  function JoinLines(lines: seq<string>): string
  {
    if lines == [] then "" else if |lines| == 1 then lines[0] else lines[0] + "\n" + JoinLines(lines[1..])
  }

  // ---------- Frames ----------

  const EVENT_FIELD := "event:"
  const DATA_FIELD := "data:"
  const DONE := "done"

  /** How payloads are written and read as text; `absent` is what a frame without data carries. */
  datatype Codec<!D> = Codec(dump: D -> string, parse: string -> Option<D>, absent: D)
  {
    function Decode(text: string): Option<D>
    {
      parse(text)
    }
  }

  datatype Frame<D> = Ignored | Named(name: string, data: D) | Malformed

  /** The last event name among the lines. */
  ghost function NameIn(lines: seq<string>): Option<string>
  {
    if lines == [] then None
    else
      var last := lines[|lines| - 1];
      if StartsWith(last, EVENT_FIELD) then Some(Trim(last[|EVENT_FIELD|..])) else NameIn(lines[..|lines| - 1])
  }

  ghost function DataIn(lines: seq<string>): seq<string>
  {
    if lines == [] then []
    else
      var last := lines[|lines| - 1];
      DataIn(lines[..|lines| - 1]) +
      (if !StartsWith(last, EVENT_FIELD) && StartsWith(last, DATA_FIELD) then [Trim(last[|DATA_FIELD|..])] else [])
  }

  ghost function FrameOf<D>(frame: string, codec: Codec<D>): Frame<D>
  {
    var lines := SplitLines(frame);
    var name := NameIn(lines);
    if name.None? || name.value == "" then Ignored
    else if DataIn(lines) == [] then Named(name.value, codec.absent)
    else
      match codec.Decode(JoinLines(DataIn(lines)))
      case None => Malformed
      case Some(d) => Named(name.value, d)
  }

  /** `parseFrame`. */
  method ParseFrame<D>(frame: string, codec: Codec<D>) returns (r: Frame<D>)
    ensures r == FrameOf(frame, codec)
  {
    var name: Option<string> := None;
    var data: seq<string> := [];
    var lines := SplitLines(frame);
    for i := 0 to |lines|
      invariant name == NameIn(lines[..i]) && data == DataIn(lines[..i])
    {
      assert lines[..i + 1][..i] == lines[..i];
      if StartsWith(lines[i], EVENT_FIELD) {
        name := Some(Trim(lines[i][|EVENT_FIELD|..]));
      } else if StartsWith(lines[i], DATA_FIELD) {
        data := data + [Trim(lines[i][|DATA_FIELD|..])];
      }
    }
    assert lines[..|lines|] == lines;
    if name.None? || name.value == "" {
      return Ignored;
    }
    if |data| == 0 {
      return Named(name.value, codec.absent);
    }
    var decoded := codec.Decode(JoinLines(data));
    r := if decoded.None? then Malformed else Named(name.value, decoded.value);
  }

  // ---------- The whole stream ----------

  /** What a reader hands on: the events delivered, and whether a malformed payload stopped it. */
  datatype Delivery<D> = Delivery(events: seq<(string, D)>, failed: bool)

  /** The frames completed within `text`: the pieces before its successive leftmost blank lines. */
  ghost function Frames(text: string): seq<string>
    decreases |text|
  {
    match IndexOfSeparator(text)
    case None => []
    case Some(i) => [text[..i]] + Frames(text[i + 2..])
  }

  /** The unfinished tail after the last completed frame. */
  ghost function Tail(text: string): string
    decreases |text|
  {
    match IndexOfSeparator(text)
    case None => text
    case Some(i) => Tail(text[i + 2..])
  }

  /** Deliver frames in order; an empty name and `done` deliver nothing, a malformed payload stops everything. */
  ghost function Deliver<D>(frames: seq<string>, codec: Codec<D>): Delivery<D>
  {
    if frames == [] then Delivery([], false)
    else
      var before := Deliver(frames[..|frames| - 1], codec);
      if before.failed then before
      else
        match FrameOf(frames[|frames| - 1], codec)
        case Ignored => before
        case Malformed => Delivery(before.events, true)
        case Named(name, d) => if name == DONE then before else Delivery(before.events + [(name, d)], false)
  }

  ghost function Concat(chunks: seq<string>): string
  {
    if chunks == [] then "" else Concat(chunks[..|chunks| - 1]) + chunks[|chunks| - 1]
  }

  /** A blank line found early stays the leftmost one when more text follows. */
  lemma SeparatorStable(a: string, b: string)
    requires IndexOfSeparator(a).Some?
    ensures IndexOfSeparator(a + b) == IndexOfSeparator(a)
  {
    var i := IndexOfSeparator(a).value;
    assert SeparatorAt(a + b, i);
    forall j: nat | j < i
      ensures !SeparatorAt(a + b, j)
    {
      assert !SeparatorAt(a, j);
    }
  }

  /** Cutting the text anywhere: its frames are those of the first part, then those of the tail with the rest. */
  lemma {:induction false} FramesConcat(a: string, b: string)
    ensures Frames(a + b) == Frames(a) + Frames(Tail(a) + b)
    ensures Tail(a + b) == Tail(Tail(a) + b)
    decreases |a|
  {
    match IndexOfSeparator(a) {
      case None =>
      case Some(i) =>
        SeparatorStable(a, b);
        assert (a + b)[i + 2..] == a[i + 2..] + b;
        assert (a + b)[..i] == a[..i];
        FramesConcat(a[i + 2..], b);
    }
  }

  lemma {:induction false} DeliverConcat<D>(a: seq<string>, b: seq<string>, codec: Codec<D>)
    ensures Deliver(a, codec).failed ==> Deliver(a + b, codec) == Deliver(a, codec)
    decreases |b|
  {
    if b == [] {
      assert a + b == a;
    } else {
      assert (a + b)[..|a + b| - 1] == a + b[..|b| - 1];
      DeliverConcat(a, b[..|b| - 1], codec);
    }
  }

  /** The inner loop: take every completed frame off the buffer. */
  method DrainBuffer<D>(buffer: string, codec: Codec<D>, sofar: Delivery<D>, ghost seen: seq<string>)
    returns (rest: string, r: Delivery<D>)
    requires !sofar.failed && sofar == Deliver(seen, codec)
    ensures r == Deliver(seen + Frames(buffer), codec)
    ensures !r.failed ==> rest == Tail(buffer)
  {
    rest, r := buffer, sofar;
    ghost var frames := seen;
    assert seen + Frames(buffer) == frames + Frames(rest);
    while IndexOfSeparator(rest).Some?
      invariant !r.failed && r == Deliver(frames, codec)
      invariant seen + Frames(buffer) == frames + Frames(rest)
      invariant Tail(buffer) == Tail(rest)
      decreases |rest|
    {
      var i := IndexOfSeparator(rest).value;
      var frame := rest[..i];
      TakeFrame(frames, rest, i);
      rest := rest[i + 2..];
      var parsed := ParseFrame(frame, codec);
      assert (frames + [frame])[..|frames|] == frames;
      frames := frames + [frame];
      match parsed {
        case Ignored =>
        case Malformed =>
          r := Delivery(r.events, true);
          DeliverConcat(frames, Frames(rest), codec);
          return;
        case Named(name, d) =>
          if name != DONE {
            r := Delivery(r.events + [(name, d)], false);
          }
      }
    }
    assert frames + [] == frames;
  }

  lemma TakeFrame(frames: seq<string>, rest: string, i: nat)
    requires IndexOfSeparator(rest) == Some(i)
    ensures frames + Frames(rest) == (frames + [rest[..i]]) + Frames(rest[i + 2..])
    ensures Tail(rest) == Tail(rest[i + 2..])
  {
  }

  /**
   * `chatStream`: read chunk after chunk into a buffer. Whatever the chunking, it delivers what
   * cutting the whole text at its blank lines would deliver; the unfinished tail is dropped.
   */
  method ChatStream<D>(chunks: seq<string>, codec: Codec<D>) returns (r: Delivery<D>)
    ensures r == Deliver(Frames(Concat(chunks)), codec)
  {
    var buffer := "";
    r := Delivery([], false);
    for k := 0 to |chunks|
      invariant !r.failed && r == Deliver(Frames(Concat(chunks[..k])), codec)
      invariant buffer == Tail(Concat(chunks[..k]))
    {
      ghost var sofar := Concat(chunks[..k]);
      assert chunks[..k + 1][..k] == chunks[..k];
      FramesConcat(sofar, chunks[k]);
      buffer := buffer + chunks[k];
      buffer, r := DrainBuffer(buffer, codec, r, Frames(sofar));
      if r.failed {
        ghost var rest := Concat(chunks[k + 1..]);
        ConcatSplit(chunks, k + 1);
        FramesConcat(Concat(chunks[..k + 1]), rest);
        DeliverConcat(Frames(Concat(chunks[..k + 1])), Frames(Tail(Concat(chunks[..k + 1])) + rest), codec);
        return;
      }
    }
    assert chunks[..|chunks|] == chunks;
  }

  lemma {:induction false} ConcatSplit(chunks: seq<string>, k: nat)
    requires k <= |chunks|
    ensures Concat(chunks) == Concat(chunks[..k]) + Concat(chunks[k..])
    decreases |chunks| - k
  {
    if k == |chunks| {
      assert chunks[..k] == chunks && chunks[k..] == [];
    } else {
      var init, last := chunks[..|chunks| - 1], chunks[|chunks| - 1];
      ConcatSplit(init, k);
      assert init[..k] == chunks[..k];
      assert chunks[k..][..|chunks[k..]| - 1] == init[k..];
    }
  }

  // ---------- What a frame means, line by line ----------

  ghost predicate WholeLines(lines: seq<string>)
  {
    lines != [] && forall i :: 0 <= i < |lines| ==> '\n' !in lines[i]
  }

  lemma {:induction false} LinesReadBack(lines: seq<string>)
    requires WholeLines(lines)
    ensures SplitLines(JoinLines(lines)) == lines
  {
    LineEnds(lines[0], if |lines| > 1 then JoinLines(lines[1..]) else "");
    if |lines| > 1 {
      LinesReadBack(lines[1..]);
      hide SplitLines;
      assert JoinLines(lines) == lines[0] + "\n" + JoinLines(lines[1..]);
      assert lines == [lines[0]] + lines[1..];
    }
  }

  /** The i-th line is the last that names the event. */
  ghost predicate LastName(lines: seq<string>, i: nat)
  {
    i < |lines| && "event:" <= lines[i] && forall j :: i < j < |lines| ==> !("event:" <= lines[j])
  }

  /** What the data lines carry, in order. */
  ghost function DataTexts(lines: seq<string>): seq<string>
  {
    if lines == [] then []
    else if "data:" <= lines[0] then [Trim(lines[0][5..])] + DataTexts(lines[1..])
    else DataTexts(lines[1..])
  }

  lemma {:induction false} NameInExactly(lines: seq<string>, i: nat)
    requires LastName(lines, i)
    ensures NameIn(lines) == Some(Trim(lines[i][6..]))
  {
    if i < |lines| - 1 {
      NameInExactly(lines[..|lines| - 1], i);
    }
  }

  lemma {:induction false} NameInNone(lines: seq<string>)
    requires forall j :: 0 <= j < |lines| ==> !("event:" <= lines[j])
    ensures NameIn(lines).None?
  {
    if lines != [] {
      NameInNone(lines[..|lines| - 1]);
    }
  }

  lemma {:induction false} DataTextsMore(lines: seq<string>, last: string)
    ensures DataTexts(lines + [last]) == DataTexts(lines) + if "data:" <= last then [Trim(last[5..])] else []
  {
    if lines == [] {
      assert (lines + [last])[1..] == [];
    } else {
      assert (lines + [last])[1..] == lines[1..] + [last];
      DataTextsMore(lines[1..], last);
    }
  }

  lemma {:induction false} DataInExactly(lines: seq<string>)
    ensures DataIn(lines) == DataTexts(lines)
  {
    if lines != [] {
      var init, last := lines[..|lines| - 1], lines[|lines| - 1];
      DataInExactly(init);
      DataTextsMore(init, last);
      assert lines == init + [last];
      assert "data:" <= last ==> last[0] == 'd';
      assert "event:" <= last ==> last[0] == 'e';
    }
  }

  /**
   * A frame is called by the last of its names, and ignored without one; its payload is what its
   * data lines carry, joined by line ends, or the default when there are none.
   */
  lemma FrameExactly<D>(lines: seq<string>, codec: Codec<D>)
    requires WholeLines(lines)
    ensures (forall j :: 0 <= j < |lines| ==> !("event:" <= lines[j])) ==> FrameOf(JoinLines(lines), codec) == Ignored
    ensures forall i: nat :: LastName(lines, i) ==>
              var name, data := Trim(lines[i][6..]), DataTexts(lines);
              FrameOf(JoinLines(lines), codec) ==
              if name == "" then Ignored
              else if data == [] then Named(name, codec.absent)
              else if codec.parse(JoinLines(data)).None? then Malformed
              else Named(name, codec.parse(JoinLines(data)).value)
  {
    LinesReadBack(lines);
    DataInExactly(lines);
    if forall j :: 0 <= j < |lines| ==> !("event:" <= lines[j]) {
      NameInNone(lines);
    }
    forall i: nat | LastName(lines, i)
      ensures NameIn(lines) == Some(Trim(lines[i][6..]))
    {
      NameInExactly(lines, i);
    }
    assert forall text :: codec.Decode(text) == codec.parse(text);
  }

  /** Reading fails exactly at the first malformed frame, after everything before it was handed on. */
  lemma {:induction false} DeliverStopsExactly<D>(frames: seq<string>, codec: Codec<D>, k: nat)
    requires k < |frames| && FrameOf(frames[k], codec) == Malformed
    requires forall j :: 0 <= j < k ==> FrameOf(frames[j], codec) != Malformed
    ensures !Deliver(frames[..k], codec).failed
    ensures Deliver(frames, codec) == Delivery(Deliver(frames[..k], codec).events, true)
    decreases |frames|
  {
    if k == |frames| - 1 {
      NeverFails(frames[..k], codec);
    } else {
      DeliverStopsExactly(frames[..|frames| - 1], codec, k);
      assert frames[..|frames| - 1][..k] == frames[..k];
    }
  }

  lemma {:induction false} NeverFails<D>(frames: seq<string>, codec: Codec<D>)
    requires forall j :: 0 <= j < |frames| ==> FrameOf(frames[j], codec) != Malformed
    ensures !Deliver(frames, codec).failed
  {
    if frames != [] {
      NeverFails(frames[..|frames| - 1], codec);
    }
  }

  // ---------- What the server writes ----------

  /** `_sse_format`. */
  function Encode<D>(name: string, data: D, codec: Codec<D>): string
  {
    FrameText(name, data, codec) + "\n\n"
  }

  function FrameText<D>(name: string, data: D, codec: Codec<D>): string
  {
    EVENT_FIELD + " " + name + "\n" + (DATA_FIELD + " " + codec.dump(data))
  }

  ghost function EncodeAll<D>(events: seq<(string, D)>, codec: Codec<D>): string
  {
    if events == [] then ""
    else
      var last := events[|events| - 1];
      EncodeAll(events[..|events| - 1], codec) + Encode(last.0, last.1, codec)
  }

  ghost predicate OneLine(s: string)
  {
    '\n' !in s && Trim(s) == s
  }

  /** An event the wire format can carry: a one-line name, and a one-line payload text that parses back. */
  ghost predicate Writable<D>(e: (string, D), codec: Codec<D>)
  {
    && e.0 != "" && OneLine(e.0)
    && OneLine(codec.dump(e.1)) && codec.parse(codec.dump(e.1)) == Some(e.1)
  }

  ghost predicate AllWritable<D>(events: seq<(string, D)>, codec: Codec<D>)
  {
    forall e {:trigger Writable(e, codec)} :: e in events ==> Writable(e, codec)
  }

  /** The events other than `done`. */
  ghost function Undone<D>(events: seq<(string, D)>): seq<(string, D)>
  {
    if events == [] then []
    else
      var last := events[|events| - 1];
      Undone(events[..|events| - 1]) + (if last.0 == DONE then [] else [last])
  }

  lemma {:induction false} LineEnds(line: string, rest: string)
    requires '\n' !in line
    ensures SplitLines(line) == [line]
    ensures SplitLines(line + "\n" + rest) == [line] + SplitLines(rest)
  {
    var text := line + "\n" + rest;
    if line == "" {
      assert text[1..] == rest;
    } else {
      LineEnds(line[1..], rest);
      assert text[1..] == line[1..] + "\n" + rest;
      assert line == [line[0]] + line[1..];
    }
  }

  /** A written frame reads back as its event. */
  lemma FrameReadsBack<D>(e: (string, D), codec: Codec<D>)
    requires Writable(e, codec)
    ensures FrameOf(FrameText(e.0, e.1, codec), codec) == Named(e.0, e.1)
  {
    var first, second := EVENT_FIELD + " " + e.0, DATA_FIELD + " " + codec.dump(e.1);
    var lines := [first, second];
    FieldText(EVENT_FIELD, e.0);
    FieldText(DATA_FIELD, codec.dump(e.1));
    FieldsDiffer(first, second);
    assert '\n' !in first && '\n' !in second;
    FrameExactly(lines, codec);
    TwoLines(first, second);
    assert LastName(lines, 0);
    assert |EVENT_FIELD| == 6 && |DATA_FIELD| == 5;
    hide Trim, FrameOf, SplitLines, DataTexts, JoinLines;
    assert JoinLines(lines) == FrameText(e.0, e.1, codec);
    TwoLines(codec.dump(e.1), "");
  }

  lemma TwoLines(first: string, second: string)
    ensures JoinLines([first, second]) == first + "\n" + second && JoinLines([first]) == first
    ensures "data:" <= second && !("data:" <= first) ==> DataTexts([first, second]) == [Trim(second[5..])]
  {
    assert [first, second][1..] == [second] && [second][1..] == [];
    assert DataTexts([second]) == if "data:" <= second then [Trim(second[5..])] + [] else [];
  }

  lemma FieldText(field: string, text: string)
    ensures field <= field + " " + text && (field + " " + text)[|field|..] == " " + text
    ensures Trim((field + " " + text)[|field|..]) == Trim(text)
  {
    assert (field + " " + text)[|field|..] == " " + text;
    TrimSkipsSpace(text);
  }

  lemma FieldsDiffer(first: string, second: string)
    requires EVENT_FIELD <= first && DATA_FIELD <= second
    ensures !(DATA_FIELD <= first) && !(EVENT_FIELD <= second)
  {
    assert first[0] == 'e' && second[0] == 'd';
  }

  /** One written event is one frame; cut short, it is none. */
  lemma WrittenFrame<D>(e: (string, D), codec: Codec<D>, k: nat)
    requires Writable(e, codec) && k <= |Encode(e.0, e.1, codec)|
    ensures Frames(Encode(e.0, e.1, codec)) == [FrameText(e.0, e.1, codec)]
    ensures Tail(Encode(e.0, e.1, codec)) == ""
    ensures k < |Encode(e.0, e.1, codec)| ==> Frames(Encode(e.0, e.1, codec)[..k]) == []
  {
    var text, written := FrameText(e.0, e.1, codec), Encode(e.0, e.1, codec);
    var first, second := EVENT_FIELD + " " + e.0, DATA_FIELD + " " + codec.dump(e.1);
    assert text == first + "\n" + second;
    assert '\n' !in first && '\n' !in second;
    forall j: nat | j < |text|
      ensures !SeparatorAt(written, j)
    {
      if j < |first| {
        assert written[j] == first[j];
      } else if j == |first| {
        assert written[j + 1] == second[0];
      } else {
        assert written[j] == second[j - |first| - 1];
      }
    }
    assert SeparatorAt(written, |text|);
    assert written[..|text|] == text && written[|text| + 2..] == "";
    if k < |written| {
      assert forall j: nat :: SeparatorAt(written[..k], j) ==> SeparatorAt(written, j);
    }
  }

  /** How many events are wholly written within the first `k` characters. */
  ghost function WholeIn<D>(events: seq<(string, D)>, codec: Codec<D>, k: nat): (whole: nat)
    ensures whole <= |events|
    ensures |EncodeAll(events[..whole], codec)| <= k
    ensures whole < |events| ==> k < |EncodeAll(events[..whole + 1], codec)|
  {
    assert events[..|events|] == events;
    if events == [] || |EncodeAll(events, codec)| <= k then |events|
    else
      var init := events[..|events| - 1];
      var whole := WholeIn(init, codec, k);
      SamePrefix(events, whole);
      whole
  }

  lemma SamePrefix<T>(s: seq<T>, n: nat)
    requires n < |s|
    ensures s[..|s| - 1][..n] == s[..n]
    ensures n < |s| - 1 ==> s[..|s| - 1][..n + 1] == s[..n + 1]
    ensures n == |s| - 1 ==> s[..n + 1] == s
  {
  }

  /**
   * Write events, cut the text anywhere: the reader delivers exactly the events wholly written
   * before the cut, minus `done`, and never fails.
   */
  lemma {:induction false} CutDelivers<D>(events: seq<(string, D)>, codec: Codec<D>, k: nat)
    requires AllWritable(events, codec) && k <= |EncodeAll(events, codec)|
    ensures Deliver(Frames(EncodeAll(events, codec)[..k]), codec) ==
            Delivery(Undone(events[..WholeIn(events, codec, k)]), false)
    ensures k == |EncodeAll(events, codec)| ==> Tail(EncodeAll(events, codec)) == ""
  {
    hide Encode, FrameText, FrameOf, Frames, Tail, Deliver, Writable;
    var text := EncodeAll(events, codec);
    if events == [] {
      assert text[..k] == "";
      NothingWritten(codec);
    } else {
      var init, e := events[..|events| - 1], events[|events| - 1];
      var before, written := EncodeAll(init, codec), Encode(e.0, e.1, codec);
      assert Writable(e, codec);
      if k < |before| {
        CutDelivers(init, codec, k);
        assert text[..k] == before[..k];
        var whole := WholeIn(init, codec, k);
        assert init[..whole] == events[..whole];
      } else {
        CutDelivers(init, codec, |before|);
        assert before[..|before|] == before && init[..|init|] == init;
        var part := written[..k - |before|];
        assert text[..k] == before + part && "" + part == part;
        FramesConcat(before, part);
        WrittenFrame(e, codec, k - |before|);
        if k == |text| {
          assert events[..|events|] == events;
          assert part == written && text[..k] == text;
          DeliverOne(Frames(before), e, codec);
        } else {
          WholeOfInit(events, codec, k);
          assert Frames(before) + [] == Frames(before);
        }
      }
    }
  }

  lemma NothingWritten<D>(codec: Codec<D>)
    ensures Frames("") == [] && Tail("") == "" && Deliver([], codec) == Delivery([], false)
  {
  }

  lemma WholeOfInit<D>(events: seq<(string, D)>, codec: Codec<D>, k: nat)
    requires |events| > 0
    requires |EncodeAll(events[..|events| - 1], codec)| <= k < |EncodeAll(events, codec)|
    ensures WholeIn(events, codec, k) == |events| - 1
  {
  }

  lemma DeliverOne<D>(frames: seq<string>, e: (string, D), codec: Codec<D>)
    requires Writable(e, codec) && !Deliver(frames, codec).failed
    ensures Deliver(frames + [FrameText(e.0, e.1, codec)], codec) ==
            Delivery(Deliver(frames, codec).events + (if e.0 == DONE then [] else [e]), false)
  {
    FrameReadsBack(e, codec);
    var all := frames + [FrameText(e.0, e.1, codec)];
    assert all[..|all| - 1] == frames;
    var sofar := Deliver(frames, codec).events;
    assert sofar + [] == sofar;
  }

  /** Round trip: what the server wrote is what the reader hands on, minus `done`. */
  lemma RoundTrip<D>(events: seq<(string, D)>, codec: Codec<D>, chunks: seq<string>)
    requires AllWritable(events, codec) && Concat(chunks) == EncodeAll(events, codec)
    ensures Deliver(Frames(Concat(chunks)), codec) == Delivery(Undone(events), false)
  {
    var text := EncodeAll(events, codec);
    CutDelivers(events, codec, |text|);
    assert text[..|text|] == text && events[..|events|] == events;
  }
}
