/** Loop events on the wire: named frames out, the same events back in. */
module Wire {
  import opened ChatTypes
  import opened Sse

  /** How an event is named and turned into a payload, and how the reader rebuilds it. */
  datatype Format<!D> = Format(name: Event -> string, payload: Event -> D, rebuild: (string, D) -> Event)

  ghost function Framed<D>(e: Event, f: Format<D>): (string, D)
  {
    (f.name(e), f.payload(e))
  }

  /** The format carries the event: it can be written, is not the end mark, and reads back as itself. */
  ghost predicate Carries<D>(f: Format<D>, codec: Codec<D>, e: Event)
  {
    Writable(Framed(e, f), codec) && f.name(e) != DONE && f.rebuild(f.name(e), f.payload(e)) == e
  }

  ghost predicate CarriesAll<D>(f: Format<D>, codec: Codec<D>, events: seq<Event>)
  {
    forall i {:trigger events[i]} :: 0 <= i < |events| ==> Carries(f, codec, events[i])
  }

  ghost function Sent<D>(events: seq<Event>, f: Format<D>): (sent: seq<(string, D)>)
    ensures |sent| == |events|
  {
    if events == [] then [] else Sent(events[..|events| - 1], f) + [Framed(events[|events| - 1], f)]
  }

  ghost function Received<D>(frames: seq<(string, D)>, f: Format<D>): seq<Event>
  {
    if frames == [] then []
    else
      var last := frames[|frames| - 1];
      Received(frames[..|frames| - 1], f) + [f.rebuild(last.0, last.1)]
  }

  lemma {:induction false} SentPrefix<D>(events: seq<Event>, f: Format<D>, k: nat)
    requires k <= |events|
    ensures Sent(events, f)[..k] == Sent(events[..k], f)
  {
    if k == |events| {
      assert events[..k] == events;
    } else {
      var init := events[..|events| - 1];
      SentPrefix(init, f, k);
      assert init[..k] == events[..k];
    }
  }

  lemma {:induction false} SentIsWritable<D>(events: seq<Event>, f: Format<D>, codec: Codec<D>)
    requires CarriesAll(f, codec, events)
    ensures AllWritable(Sent(events, f), codec)
  {
    if events != [] {
      var init, e := events[..|events| - 1], events[|events| - 1];
      assert CarriesAll(f, codec, init);
      SentIsWritable(init, f, codec);
      assert Carries(f, codec, e);
      hide Writable, CarriesAll;
      assert Sent(events, f) == Sent(init, f) + [Framed(e, f)];
    }
  }

  /** What was sent comes back: nothing is filtered out, and every event is rebuilt. */
  lemma {:induction false} SentComesBack<D>(events: seq<Event>, f: Format<D>, codec: Codec<D>)
    requires CarriesAll(f, codec, events)
    ensures Undone(Sent(events, f)) == Sent(events, f)
    ensures Received(Sent(events, f), f) == events
  {
    hide Writable;
    if events != [] {
      var init, e := events[..|events| - 1], events[|events| - 1];
      assert CarriesAll(f, codec, init);
      SentComesBack(init, f, codec);
      assert Carries(f, codec, e);
      assert Sent(events, f)[..|init|] == Sent(init, f);
    }
  }

  /** What the endpoint writes: the events, then the end mark. */
  ghost function Written<D>(events: seq<Event>, f: Format<D>, codec: Codec<D>): string
  {
    EncodeAll(Sent(events, f) + [(DONE, codec.absent)], codec)
  }

  /**
   * The response text cut anywhere and delivered in any chunks: the reader hears a prefix of the
   * run's events, exactly those written in full, and all of them when the text is whole.
   */
  lemma CutOnTheWire<D>(events: seq<Event>, f: Format<D>, codec: Codec<D>, k: nat, chunks: seq<string>)
    requires CarriesAll(f, codec, events) && Writable((DONE, codec.absent), codec)
    requires k <= |Written(events, f, codec)| && Concat(chunks) == Written(events, f, codec)[..k]
    ensures var d := Deliver(Frames(Concat(chunks)), codec);
            var whole := WholeIn(Sent(events, f) + [(DONE, codec.absent)], codec, k);
            && !d.failed
            && Received(d.events, f) == events[..if whole < |events| then whole else |events|]
            && (k == |Written(events, f, codec)| ==> Received(d.events, f) == events)
  {
    hide Writable, Frames, Deliver, Carries, Framed;
    var all := Sent(events, f) + [(DONE, codec.absent)];
    var whole := WholeIn(all, codec, k);
    SentIsWritable(events, f, codec);
    CutDelivers(all, codec, k);
    var n := if whole < |events| then whole else |events|;
    UndonePrefix(events, f, codec, whole);
    assert CarriesAll(f, codec, events[..n]);
    SentComesBack(events[..n], f, codec);
    assert events[..|events|] == events;
    if k == |Written(events, f, codec)| {
      assert whole == |all|;
    }
  }

  lemma UndonePrefix<D>(events: seq<Event>, f: Format<D>, codec: Codec<D>, whole: nat)
    requires CarriesAll(f, codec, events) && whole <= |events| + 1
    ensures var n := if whole < |events| then whole else |events|;
            Undone((Sent(events, f) + [(DONE, codec.absent)])[..whole]) == Sent(events[..n], f)
  {
    var sent := Sent(events, f);
    var all := sent + [(DONE, codec.absent)];
    if whole <= |events| {
      assert all[..whole] == sent[..whole];
      SentPrefix(events, f, whole);
      assert CarriesAll(f, codec, events[..whole]);
      SentComesBack(events[..whole], f, codec);
    } else {
      assert all[..whole] == all && all[..|sent|] == sent && events[..|events|] == events;
      SentComesBack(events, f, codec);
    }
  }
}
