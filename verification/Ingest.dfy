/**
 * Batch ingest of knowledge chunks, as tools/seed_knowledge/__main__.py does it: skip what is
 * already stored, embed and commit the rest in batches. Any flush may raise.
 */
module Ingest {
  import opened Wrappers

  datatype Chunk = Chunk(content: string, organization: Option<nat>)

  /** The content hash, any function of the text. */
  datatype Hasher<!H> = Hasher(digest: string -> H)
  {
    function Of(c: Chunk): H
    {
      digest(c.content)
    }
  }

  /**
   * What can go wrong with a chunk: it is refused by the store's checks, or, at the `n`-th flush of
   * a run, its text cannot be embedded or its row not written. A failing call that concerns no
   * single chunk, the commit included, is one that fails for the last row.
   */
  datatype Faults = Faults(invalid: Chunk -> bool, unembeddable: (nat, Chunk) -> bool, unstorable: (nat, Chunk) -> bool)
  {
    predicate Invalid(c: Chunk)
    {
      invalid(c)
    }

    predicate Unembeddable(n: nat, c: Chunk)
    {
      unembeddable(n, c)
    }

    predicate Unstorable(n: nat, c: Chunk)
    {
      unstorable(n, c)
    }

    predicate Bad(n: nat, c: Chunk)
    {
      Invalid(c) || Unembeddable(n, c) || Unstorable(n, c)
    }
  }

  datatype Counts = Counts(inserted: nat, skipped: nat)

  function Flatten<T>(parts: seq<seq<T>>): seq<T>
  {
    if parts == [] then [] else Flatten(parts[..|parts| - 1]) + parts[|parts| - 1]
  }

  function Digests<H(==)>(chunks: seq<Chunk>, h: Hasher<H>): set<H>
  {
    set c | c in chunks :: h.Of(c)
  }

  /** `_existing_shared_hashes`: rows that belong to an organization are not looked at. */
  function SharedDigests<H(==)>(rows: seq<Chunk>, h: Hasher<H>): set<H>
  {
    set c | c in rows && c.organization.None? :: h.Of(c)
  }

  /** The knowledge table, as the list of its committed batches. */
  class Database {
    var commits: seq<seq<Chunk>>

    ghost function Rows(): seq<Chunk>
      reads this
    {
      Flatten(commits)
    }

    /**
     * `_flush_batch`, that is `upsert`: check every chunk, embed all the texts in one call, add the
     * rows one by one, and commit after the last. Anything may raise on the way; the rows added by
     * then are in no commit.
     */
    method Flush(batch: seq<Chunk>, n: nat, f: Faults) returns (ids: Option<nat>)
      modifies this
      ensures commits == if Sound(f, n, batch) && batch != [] then old(commits) + [batch] else old(commits)
      ensures ids == if Sound(f, n, batch) then Some(|batch|) else None
    {
      if batch == [] {
        return Some(0);
      }
      for i := 0 to |batch|
        invariant forall c :: c in batch[..i] ==> !f.Invalid(c)
      {
        if f.Invalid(batch[i]) {
          assert f.Bad(n, batch[i]);
          return None;
        }
      }
      for i := 0 to |batch|
        invariant forall c :: c in batch[..i] ==> !f.Unembeddable(n, c)
      {
        if f.Unembeddable(n, batch[i]) {
          assert f.Bad(n, batch[i]);
          return None;
        }
      }
      var staged: seq<Chunk> := [];
      for i := 0 to |batch|
        invariant staged == batch[..i]
        invariant forall c :: c in batch[..i] ==> !f.Unstorable(n, c)
      {
        if f.Unstorable(n, batch[i]) {
          assert f.Bad(n, batch[i]);
          return None;
        }
        staged := staged + [batch[i]];
      }
      assert batch[..|batch|] == batch;
      commits := commits + [staged];
      ids := Some(|staged|);
    }

    method ExistingSharedHashes<H(==)>(h: Hasher<H>) returns (hashes: set<H>)
      ensures hashes == SharedDigests(Rows(), h)
    {
      hashes := {};
      for i := 0 to |commits|
        invariant hashes == SharedDigests(Flatten(commits[..i]), h)
      {
        hashes := hashes + SharedDigests(commits[i], h);
        assert commits[..i + 1][..i] == commits[..i];
      }
      assert commits[..|commits|] == commits;
    }

    /**
     * `_ingest`: commit the new chunks in batches, up to the first batch that holds a bad chunk.
     * There the run raises; otherwise it reports what it inserted and skipped.
     */
    method Ingest<H(==)>(chunks: seq<Chunk>, batchSize: int, h: Hasher<H>, f: Faults) returns (r: Option<Counts>)
      modifies this
      ensures var news := News(SharedDigests(old(Rows()), h), chunks, h);
              var todo := Batches(news, Size(batchSize));
              && Leaves(old(commits), todo, f, commits)
              && r == if Leading(todo, f) == |todo| then Some(Counts(|news|, |chunks| - |news|)) else None
    {
      hide Flatten, Batches, News, Digests, SharedDigests, Sound, Leading, AllSound, Underway, Leaves;
      var existing := ExistingSharedHashes(h);
      var start := |commits|;
      ghost var seen, was, b := existing, commits, Size(batchSize);
      ghost var todo := Batches(News(seen, chunks, h), b);
      ghost var done: seq<Chunk> := [];
      var inserted, skipped, pending := 0, 0, [];
      NothingYet(seen, chunks, h, b, f);
      for k := 0 to |chunks|
        invariant Underway(seen, chunks, k, h, b, existing, done, pending) && |pending| < b
        invariant commits == was + Batches(done, b) && AllSound(Batches(done, b), f)
        invariant inserted == |done| && inserted + |pending| + skipped == k
      {
        OneMoreChunk(seen, chunks, k, h, b, existing, done, pending);
        var chunk := chunks[k];
        if h.Of(chunk) in existing {
          skipped := skipped + 1;
          continue;
        }
        existing := existing + {h.Of(chunk)};
        pending := pending + [chunk];
        if |pending| >= batchSize {
          BatchIsNext(seen, chunks, k + 1, h, b, existing, done, pending);
          OneMoreBatch(was, todo, Batches(done, b), pending, f);
          var ids := Flush(pending, |commits| - start, f);
          if ids.None? {
            return None;
          }
          inserted := inserted + ids.value;
          done := done + pending;
          pending := [];
        }
      }
      LastBatch(seen, chunks, h, b, existing, done, pending);
      if pending != [] {
        OneMoreBatch(was, todo, Batches(done, b), pending, f);
        var ids := Flush(pending, |commits| - start, f);
        if ids.None? {
          return None;
        }
        inserted := inserted + ids.value;
      }
      AllOfThem(was, todo, f);
      r := Some(Counts(inserted, skipped));
    }

    /**
     * Two runs over the same shared chunks, the second of which meets no bad chunk: whatever befell
     * the first, the table ends up with the commits of one clean run; and if nothing did, the
     * second run inserts nothing.
     */
    method IngestTwice<H(==)>(chunks: seq<Chunk>, batchSize: int, h: Hasher<H>, f: Faults, g: Faults)
      returns (first: Option<Counts>, second: Option<Counts>)
      requires AllShared(chunks) && Harmless(g, chunks)
      modifies this
      ensures commits == old(commits) + Batches(News(SharedDigests(old(Rows()), h), chunks, h), Size(batchSize))
      ensures second.Some? && (first.Some? ==> second.value == Counts(0, |chunks|))
    {
      hide Flatten, Batches, News, SharedDigests, Leading, AllShared, Harmless;
      ghost var rows, b := Rows(), Size(batchSize);
      ghost var todo := Batches(News(SharedDigests(rows, h), chunks, h), b);
      first := Ingest(chunks, batchSize, h, f);
      ghost var n := Leading(todo, f);
      FlattenAppend(old(commits), todo[..n]);
      second := Ingest(chunks, batchSize, h, g);
      ghost var rest := News(SharedDigests(rows + Flatten(todo[..n]), h), chunks, h);
      CleanRun(SharedDigests(rows + Flatten(todo[..n]), h), chunks, b, h, g);
      assert Batches(rest, b)[..|Batches(rest, b)|] == Batches(rest, b);
      if n < |todo| {
        ResumeCompletes(rows, chunks, b, h, n);
      } else {
        assert todo[..n] == todo;
        NothingLeft(rows, chunks, b, h);
      }
    }
  }

  /** No chunk of the `n`-th batch is bad. */
  ghost predicate Sound(f: Faults, n: nat, batch: seq<Chunk>)
  {
    forall c :: c in batch ==> !f.Bad(n, c)
  }

  /** How many batches come before the first that is not sound. */
  ghost function Leading(parts: seq<seq<Chunk>>, f: Faults): (n: nat)
    ensures n <= |parts|
  {
    if parts == [] then 0
    else
      var init := parts[..|parts| - 1];
      var n := Leading(init, f);
      if n == |init| && Sound(f, n, parts[n]) then n + 1 else n
  }

  ghost predicate AllSound(parts: seq<seq<Chunk>>, f: Faults)
  {
    forall i {:trigger parts[i]} :: 0 <= i < |parts| ==> Sound(f, i, parts[i])
  }

  lemma {:induction false} LeadingExactly(parts: seq<seq<Chunk>>, f: Faults)
    ensures AllSound(parts[..Leading(parts, f)], f)
    ensures Leading(parts, f) < |parts| ==> !Sound(f, Leading(parts, f), parts[Leading(parts, f)])
  {
    if parts != [] {
      var init := parts[..|parts| - 1];
      LeadingExactly(init, f);
      var n := Leading(init, f);
      assert n < |init| ==> init[n] == parts[n];
      assert init[..n] == parts[..n];
    }
  }

  /** The table after a run that found `was` and had `todo` to store. */
  ghost predicate Leaves(was: seq<seq<Chunk>>, todo: seq<seq<Chunk>>, f: Faults, now: seq<seq<Chunk>>)
  {
    now == was + todo[..Leading(todo, f)]
  }

  /** With everything before sound, the next batch decides whether the run gets past it. */
  lemma OneMoreBatch(was: seq<seq<Chunk>>, todo: seq<seq<Chunk>>, done: seq<seq<Chunk>>, next: seq<Chunk>, f: Faults)
    requires done + [next] <= todo && AllSound(done, f)
    ensures Sound(f, |done|, next) ==> AllSound(done + [next], f)
    ensures !Sound(f, |done|, next) ==> Leading(todo, f) < |todo| && Leaves(was, todo, f, was + done)
    ensures was + done + [next] == was + (done + [next])
  {
    hide Sound;
    LeadingExactly(todo, f);
    var n := Leading(todo, f);
    assert todo[|done|] == next;
    assert forall i {:trigger done[i]} :: 0 <= i < |done| ==> todo[i] == done[i];
    assert |done| < n ==> todo[..n][|done|] == next;
    assert todo[..|done|] == done;
  }

  lemma AllOfThem(was: seq<seq<Chunk>>, todo: seq<seq<Chunk>>, f: Faults)
    ensures AllSound(todo, f) ==> Leading(todo, f) == |todo| && Leaves(was, todo, f, was + todo)
  {
    LeadingExactly(todo, f);
    assert todo[..|todo|] == todo;
  }

  /** A batch size below one flushes every chunk on its own. */
  function Size(batchSize: int): (b: nat)
    ensures b >= 1
  {
    if batchSize < 1 then 1 else batchSize
  }

  /** The chunks whose hash is neither stored nor met earlier, in order. */
  ghost function News<H>(seen: set<H>, chunks: seq<Chunk>, h: Hasher<H>): (news: seq<Chunk>)
    ensures |news| <= |chunks|
  {
    if chunks == [] then []
    else
      var init, last := chunks[..|chunks| - 1], chunks[|chunks| - 1];
      if h.Of(last) in seen + Digests(init, h) then News(seen, init, h) else News(seen, init, h) + [last]
  }

  /** Cut into batches of `b`; the last may be shorter. */
  ghost function Batches<T>(s: seq<T>, b: nat): seq<seq<T>>
    requires b >= 1
  {
    if s == [] then [] else if |s| <= b then [s] else [s[..b]] + Batches(s[b..], b)
  }

  lemma DigestsGrow<H>(chunks: seq<Chunk>, last: Chunk, h: Hasher<H>)
    ensures Digests(chunks + [last], h) == Digests(chunks, h) + {h.Of(last)}
  {
  }

  lemma DigestsOf<H>(some: seq<Chunk>, chunks: seq<Chunk>, h: Hasher<H>)
    requires forall c :: c in some ==> c in chunks
    ensures forall c :: c in some ==> h.Of(c) in Digests(chunks, h)
  {
  }

  lemma NewsStep<H>(seen: set<H>, chunks: seq<Chunk>, k: nat, h: Hasher<H>)
    requires k < |chunks|
    ensures News(seen, chunks[..k + 1], h) ==
            if h.Of(chunks[k]) in seen + Digests(chunks[..k], h) then News(seen, chunks[..k], h)
            else News(seen, chunks[..k], h) + [chunks[k]]
    ensures Digests(chunks[..k + 1], h) == Digests(chunks[..k], h) + {h.Of(chunks[k])}
  {
    assert chunks[..k + 1][..k] == chunks[..k];
    assert chunks[..k + 1] == chunks[..k] + [chunks[k]];
    DigestsGrow(chunks[..k], chunks[k], h);
  }

  lemma {:induction false} NewsPrefix<H>(seen: set<H>, chunks: seq<Chunk>, k: nat, h: Hasher<H>)
    requires k <= |chunks|
    ensures News(seen, chunks[..k], h) <= News(seen, chunks, h)
    decreases |chunks| - k
  {
    if k < |chunks| {
      NewsStep(seen, chunks, k, h);
      NewsPrefix(seen, chunks, k + 1, h);
    } else {
      assert chunks[..k] == chunks;
    }
  }

  lemma {:induction false} BatchesAppend<T>(s: seq<T>, t: seq<T>, b: nat)
    requires b >= 1 && Full(|s|, b) && 0 < |t| <= b
    ensures Batches(s + t, b) == Batches(s, b) + [t]
  {
    if s == [] {
      assert s + t == t;
    } else {
      assert (s + t)[..b] == s[..b] && (s + t)[b..] == s[b..] + t;
      BatchesAppend(s[b..], t, b);
      if |s| == b {
        assert s[..b] == s && s[b..] == [];
        assert Batches(s[b..], b) == [];
      }
    }
  }

  /** `n` is a whole number of batches. */
  ghost predicate Full(n: nat, b: nat)
    requires b >= 1
  {
    n == 0 || (n >= b && Full(n - b, b))
  }

  lemma {:induction false} FullStep(n: nat, b: nat)
    requires b >= 1 && Full(n, b)
    ensures Full(n + b, b)
  {
    if n > 0 {
      FullStep(n - b, b);
    }
  }

  lemma {:induction false} BatchesPrefix<T>(s: seq<T>, t: seq<T>, b: nat)
    requires b >= 1 && Full(|s|, b)
    ensures Batches(s + t, b) == Batches(s, b) + Batches(t, b)
  {
    hide Batches;
    NoBatches<T>(b);
    if s == [] {
      assert s + t == t;
    } else {
      BatchesPrefix(s[b..], t, b);
      assert (s + t)[..b] == s[..b] && (s + t)[b..] == s[b..] + t;
      FirstBatch(s, b);
      FirstBatch(s + t, b);
      assert [s[..b]] + (Batches(s[b..], b) + Batches(t, b)) == ([s[..b]] + Batches(s[b..], b)) + Batches(t, b);
    }
  }

  lemma NoBatches<T>(b: nat)
    requires b >= 1
    ensures Batches<T>([], b) == []
  {
  }

  lemma FirstBatch<T>(s: seq<T>, b: nat)
    requires b >= 1 && |s| >= b
    ensures Batches(s, b) == [s[..b]] + Batches(s[b..], b)
  {
    if |s| == b {
      assert s[..b] == s && Batches(s[b..], b) == [];
    }
  }

  lemma NothingYet<H>(seen: set<H>, chunks: seq<Chunk>, h: Hasher<H>, b: nat, f: Faults)
    requires b >= 1
    ensures AllSound([], f) && Batches<Chunk>([], b) == []
    ensures Underway(seen, chunks, 0, h, b, seen, [], [])
  {
  }

  /** After `k` chunks: `existing` holds every hash met, `done` is in full batches, `pending` is to follow. */
  ghost predicate Underway<H>(seen: set<H>, chunks: seq<Chunk>, k: nat, h: Hasher<H>, b: nat, existing: set<H>,
                              done: seq<Chunk>, pending: seq<Chunk>)
    requires k <= |chunks| && b >= 1
  {
    && existing == seen + Digests(chunks[..k], h)
    && done + pending == News(seen, chunks[..k], h)
    && Full(|done|, b) && |pending| <= b
  }

  /** The next chunk is skipped if its hash was met, and joins the pending ones otherwise. */
  lemma OneMoreChunk<H>(seen: set<H>, chunks: seq<Chunk>, k: nat, h: Hasher<H>, b: nat, existing: set<H>,
                        done: seq<Chunk>, pending: seq<Chunk>)
    requires k < |chunks| && b >= 1 && Underway(seen, chunks, k, h, b, existing, done, pending) && |pending| < b
    ensures if h.Of(chunks[k]) in existing then Underway(seen, chunks, k + 1, h, b, existing, done, pending)
            else Underway(seen, chunks, k + 1, h, b, existing + {h.Of(chunks[k])}, done, pending + [chunks[k]])
  {
    hide News, Digests, Full;
    NewsStep(seen, chunks, k, h);
    assert done + (pending + [chunks[k]]) == (done + pending) + [chunks[k]];
  }

  /** A batch that fills up is the next one of all that there will be. */
  lemma BatchIsNext<H>(seen: set<H>, chunks: seq<Chunk>, k: nat, h: Hasher<H>, b: nat, existing: set<H>,
                       done: seq<Chunk>, pending: seq<Chunk>)
    requires k <= |chunks| && b >= 1 && Underway(seen, chunks, k, h, b, existing, done, pending) && |pending| == b
    ensures Underway(seen, chunks, k, h, b, existing, done + pending, [])
    ensures Batches(done + pending, b) == Batches(done, b) + [pending] <= Batches(News(seen, chunks, h), b)
  {
    hide Batches, News, Digests;
    var all, now := News(seen, chunks, h), done + pending;
    BatchesAppend(done, pending, b);
    FullStep(|done|, b);
    NewsPrefix(seen, chunks, k, h);
    BatchesPrefix(now, all[|now|..], b);
    assert all == now + all[|now|..];
    assert (done + pending) + [] == done + pending;
  }

  /** What is pending at the end is the last batch. */
  lemma LastBatch<H>(seen: set<H>, chunks: seq<Chunk>, h: Hasher<H>, b: nat, existing: set<H>,
                     done: seq<Chunk>, pending: seq<Chunk>)
    requires b >= 1 && Underway(seen, chunks, |chunks|, h, b, existing, done, pending)
    ensures |News(seen, chunks, h)| == |done| + |pending|
    ensures Batches(News(seen, chunks, h), b) == if pending == [] then Batches(done, b) else Batches(done, b) + [pending]
  {
    hide Batches, News, Digests;
    assert chunks[..|chunks|] == chunks;
    if pending != [] {
      BatchesAppend(done, pending, b);
    } else {
      assert done + [] == done;
    }
  }

  /** All batches but the last have `b` elements; the last has some, and at most as many. */
  ghost predicate FullButLast<T>(parts: seq<seq<T>>, b: nat)
  {
    && (forall i :: 0 <= i < |parts| - 1 ==> |parts[i]| == b)
    && (parts != [] ==> 0 < |parts[|parts| - 1]| <= b)
  }

  /** Batches concatenate to the input, all are full except that the last may be shorter, none is empty. */
  lemma {:induction false} BatchesShape<T>(s: seq<T>, b: nat)
    requires b >= 1
    ensures Flatten(Batches(s, b)) == s && FullButLast(Batches(s, b), b)
  {
    hide Batches, Flatten, FullButLast;
    if |s| > b {
      BatchesShape(s[b..], b);
      FirstBatch(s, b);
      var rest := Batches(s[b..], b);
      FlattenCons(s[..b], rest);
      assert s == s[..b] + s[b..];
      FlattenNothing<T>();
      ConsShape(s[..b], rest, b);
    } else {
      ShortShape(s, b);
    }
  }

  /** With a batch size of at least one, that is the size of the batches; below one, each chunk is a batch. */
  lemma BatchSizeKept(s: seq<Chunk>, batchSize: int)
    ensures batchSize >= 1 ==> FullButLast(Batches(s, Size(batchSize)), batchSize)
    ensures batchSize < 1 ==> forall part :: part in Batches(s, Size(batchSize)) ==> |part| == 1
  {
    BatchesShape(s, Size(batchSize));
  }

  lemma ShortShape<T>(s: seq<T>, b: nat)
    requires b >= 1 && |s| <= b
    ensures Flatten(Batches(s, b)) == s && FullButLast(Batches(s, b), b)
  {
    if s != [] {
      assert Batches(s, b) == [s] && [s][..0] == [] && Flatten([s]) == [] + s;
    }
  }

  lemma ConsShape<T>(first: seq<T>, rest: seq<seq<T>>, b: nat)
    requires |first| == b && rest != [] && FullButLast(rest, b)
    ensures FullButLast([first] + rest, b)
  {
    var all := [first] + rest;
    forall i | 0 <= i < |all| - 1
      ensures |all[i]| == b
    {
      if i > 0 {
        assert all[i] == rest[i - 1];
      }
    }
  }

  lemma FlattenNothing<T>()
    ensures Flatten<T>([]) == []
  {
  }

  lemma {:induction false} FlattenCons<T>(first: seq<T>, rest: seq<seq<T>>)
    ensures Flatten([first] + rest) == first + Flatten(rest)
  {
    if rest == [] {
      assert [first] + rest == [first] && [first][..0] == [];
      assert Flatten([first]) == [] + first;
    } else {
      var init, last := rest[..|rest| - 1], rest[|rest| - 1];
      var all := [first] + rest;
      assert all[..|all| - 1] == [first] + init && all[|all| - 1] == last;
      FlattenCons(first, init);
      assert first + Flatten(init) + last == first + (Flatten(init) + last);
    }
  }

  // ---------- What gets stored ----------

  /** One chunk per hash: nothing stored before, nothing twice, and afterwards every hash is there. */
  lemma {:induction false} NewsDistinct<H>(seen: set<H>, chunks: seq<Chunk>, h: Hasher<H>)
    ensures var news := News(seen, chunks, h);
            && (forall i, j :: 0 <= i < j < |news| ==> h.Of(news[i]) != h.Of(news[j]))
            && (forall c :: c in news ==> c in chunks && h.Of(c) !in seen)
            && seen + Digests(news, h) == seen + Digests(chunks, h)
  {
    if chunks != [] {
      var init, last := chunks[..|chunks| - 1], chunks[|chunks| - 1];
      NewsDistinct(seen, init, h);
      var before, news := News(seen, init, h), News(seen, chunks, h);
      assert chunks == init + [last];
      assert news == before || (news == before + [last] && h.Of(last) !in seen + Digests(init, h));
      assert news == before ==> h.Of(last) in seen + Digests(init, h);
      hide News, Digests;
      DigestsGrow(init, last, h);
      DigestsGrow(before, last, h);
      DigestsOf(before, init, h);
      forall i, j | 0 <= i < j < |news|
        ensures h.Of(news[i]) != h.Of(news[j])
      {
        assert news[i] == before[i];
        assert news[j] == if j < |before| then before[j] else last;
      }
    }
  }

  /** `i` is the first occurrence of its hash, and that hash is not stored. */
  ghost predicate FirstOfItsHash<H>(seen: set<H>, chunks: seq<Chunk>, i: nat, h: Hasher<H>)
    requires i < |chunks|
  {
    h.Of(chunks[i]) !in seen && forall j :: 0 <= j < i ==> h.Of(chunks[j]) != h.Of(chunks[i])
  }

  /** A chunk is inserted, at its place in the order, exactly when it is the first of a hash not stored. */
  lemma NewsAt<H>(seen: set<H>, chunks: seq<Chunk>, i: nat, h: Hasher<H>)
    requires i < |chunks|
    ensures var at, news := |News(seen, chunks[..i], h)|, News(seen, chunks, h);
            && at <= |news| && News(seen, chunks[..i], h) == news[..at]
            && News(seen, chunks[..i + 1], h) ==
               (if FirstOfItsHash(seen, chunks, i, h) then news[..at] + [chunks[i]] else news[..at])
            && (FirstOfItsHash(seen, chunks, i, h) ==> at < |news| && news[at] == chunks[i])
  {
    NewsStep(seen, chunks, i, h);
    NewsPrefix(seen, chunks, i, h);
    NewsPrefix(seen, chunks, i + 1, h);
    DigestMet(chunks, i, h);
  }

  lemma DigestMet<H>(chunks: seq<Chunk>, i: nat, h: Hasher<H>)
    requires i < |chunks|
    ensures h.Of(chunks[i]) in Digests(chunks[..i], h) <==>
            exists j :: 0 <= j < i && h.Of(chunks[j]) == h.Of(chunks[i])
  {
    if j :| 0 <= j < i && h.Of(chunks[j]) == h.Of(chunks[i]) {
      assert chunks[j] in chunks[..i];
    }
  }

  lemma NothingNew<H>(seen: set<H>, chunks: seq<Chunk>, h: Hasher<H>)
    ensures News(seen, chunks, h) == [] <==> Digests(chunks, h) <= seen
  {
    NewsDistinct(seen, chunks, h);
    var news := News(seen, chunks, h);
    if news != [] {
      assert news[0] in news && h.Of(news[0]) in Digests(chunks, h);
    } else {
      assert Digests(news, h) == {};
    }
  }

  /** Having stored the first `p` new chunks, what is still new is the rest. */
  lemma {:induction false} RestStaysNew<H>(seen: set<H>, chunks: seq<Chunk>, h: Hasher<H>, p: nat)
    requires p <= |News(seen, chunks, h)|
    ensures News(seen + Digests(News(seen, chunks, h)[..p], h), chunks, h) == News(seen, chunks, h)[p..]
  {
    if chunks != [] {
      var init, last := chunks[..|chunks| - 1], chunks[|chunks| - 1];
      var before, news := News(seen, init, h), News(seen, chunks, h);
      NewsDistinct(seen, init, h);
      if p <= |before| {
        RestStaysNew(seen, init, h, p);
        assert news[..p] == before[..p];
        forall c | c in before[..p]
          ensures h.Of(c) in Digests(init, h)
        {
        }
      } else {
        NewsDistinct(seen, chunks, h);
        assert news[..p] == news;
        NothingNew(seen + Digests(news, h), chunks, h);
      }
    }
  }

  ghost predicate AllShared(chunks: seq<Chunk>)
  {
    forall c :: c in chunks ==> c.organization.None?
  }

  lemma SharedAfter<H>(rows: seq<Chunk>, more: seq<Chunk>, h: Hasher<H>)
    ensures SharedDigests(rows + more, h) == SharedDigests(rows, h) + SharedDigests(more, h)
    ensures AllShared(more) ==> SharedDigests(more, h) == Digests(more, h)
  {
  }

  /**
   * A second run over the same chunks inserts nothing, exactly when everything the first run
   * inserted is shared: rows of an organization are not looked at again.
   */
  lemma SecondRunExactly<H>(rows: seq<Chunk>, chunks: seq<Chunk>, h: Hasher<H>)
    ensures var news := News(SharedDigests(rows, h), chunks, h);
            News(SharedDigests(rows + news, h), chunks, h) == [] <==> AllShared(news)
  {
    var seen := SharedDigests(rows, h);
    var news := News(seen, chunks, h);
    SharedAfter(rows, news, h);
    NewsDistinct(seen, chunks, h);
    NothingNew(SharedDigests(rows + news, h), chunks, h);
    hide News;
    if !AllShared(news) {
      var i :| 0 <= i < |news| && news[i].organization.Some?;
      PrivateUnseen(news, i, h);
      assert news[i] in news && h.Of(news[i]) in Digests(chunks, h);
    }
  }

  /** Where no two hashes agree, the hash of a private chunk is not among the shared ones. */
  lemma PrivateUnseen<H>(news: seq<Chunk>, i: nat, h: Hasher<H>)
    requires i < |news| && news[i].organization.Some?
    requires forall a, b :: 0 <= a < b < |news| ==> h.Of(news[a]) != h.Of(news[b])
    ensures h.Of(news[i]) !in SharedDigests(news, h)
  {
    forall c | c in news && c.organization.None?
      ensures h.Of(c) != h.Of(news[i])
    {
      var j :| 0 <= j < |news| && news[j] == c;
      assert j != i;
    }
  }

  /** A new chunk is stored by the run exactly when no chunk of its batch or of an earlier batch is bad. */
  lemma StoredExactly(news: seq<Chunk>, b: nat, f: Faults, p: nat)
    requires b >= 1 && p < |news|
    ensures var todo := Batches(news, b);
            var mine := BatchOf(p, b);
            && mine < |todo| && news[p] in todo[mine]
            && (mine < Leading(todo, f) <==> forall i :: 0 <= i <= mine ==> Sound(f, i, todo[i]))
  {
    var todo, mine := Batches(news, b), BatchOf(p, b);
    InItsBatch(news, b, p);
    LeadingExactly(todo, f);
    hide Sound, Batches, Leading;
    var n := Leading(todo, f);
    if mine < n {
      forall i | 0 <= i <= mine
        ensures Sound(f, i, todo[i])
      {
        assert todo[..n][i] == todo[i];
      }
    }
  }

  /** The number of the batch that the `p`-th new chunk is in. */
  function BatchOf(p: nat, b: nat): nat
    requires b >= 1
  {
    if p < b then 0 else 1 + BatchOf(p - b, b)
  }

  lemma {:induction false} InItsBatch<T>(s: seq<T>, b: nat, p: nat)
    requires b >= 1 && p < |s|
    ensures BatchOf(p, b) < |Batches(s, b)| && s[p] in Batches(s, b)[BatchOf(p, b)]
  {
    if |s| >= b {
      FirstBatch(s, b);
      if p < b {
        assert s[..b][p] == s[p];
      } else {
        InItsBatch(s[b..], b, p - b);
        assert s[b..][p - b] == s[p];
      }
    }
  }

  /** A good chunk is lost with a bad one of its batch; in a batch of its own it would have been stored. */
  lemma BadChunkRollsBackItsBatch(good: Chunk, bad: Chunk, f: Faults)
    requires !f.Bad(0, good) && f.Bad(0, bad)
    ensures Leading(Batches([good, bad], 2), f) == 0
    ensures Leading(Batches([good, bad], 1), f) >= 1 && good in Batches([good, bad], 1)[0]
  {
    var both := Batches([good, bad], 2);
    assert both == [[good, bad]];
    LeadingExactly(both, f);
    assert bad in both[0];
    FirstBatch([good, bad], 1);
    var apart := Batches([good, bad], 1);
    assert apart[0] == [good];
    LeadingExactly(apart, f);
    assert Sound(f, 0, apart[0]);
  }

  /**
   * Resuming: a run over shared chunks that raised at flush number `f`, then a run that does not,
   * leave the very same commits as one run that never raised.
   */
  lemma ResumeCompletes<H>(rows: seq<Chunk>, chunks: seq<Chunk>, b: nat, h: Hasher<H>, f: nat)
    requires b >= 1 && AllShared(chunks)
    requires f < |Batches(News(SharedDigests(rows, h), chunks, h), b)|
    ensures var todo := Batches(News(SharedDigests(rows, h), chunks, h), b);
            var kept := rows + Flatten(todo[..f]);
            todo[..f] + Batches(News(SharedDigests(kept, h), chunks, h), b) == todo
  {
    hide News, Batches, Flatten, Digests, SharedDigests;
    var seen := SharedDigests(rows, h);
    var news := News(seen, chunks, h);
    var todo := Batches(news, b);
    var kept := Flatten(todo[..f]);
    FirstBatches(news, b, f);
    PrefixShared(seen, chunks, h, kept);
    RestStaysNew(seen, chunks, h, |kept|);
    assert news[..|kept|] == kept;
    SharedAfter(rows, kept, h);
    assert todo[..f] + todo[f..] == todo;
  }

  lemma PrefixShared<H>(seen: set<H>, chunks: seq<Chunk>, h: Hasher<H>, kept: seq<Chunk>)
    requires AllShared(chunks) && kept <= News(seen, chunks, h)
    ensures AllShared(kept)
  {
    NewsDistinct(seen, chunks, h);
    assert forall c :: c in kept ==> c in News(seen, chunks, h);
  }

  /** No flush of `chunks` can go wrong. */
  ghost predicate Harmless(f: Faults, chunks: seq<Chunk>)
  {
    forall n: nat, c {:trigger f.Bad(n, c)} :: c in chunks ==> !f.Bad(n, c)
  }

  lemma {:induction false} InSomeBatch<T>(parts: seq<seq<T>>, i: nat, x: T)
    requires i < |parts| && x in parts[i]
    ensures x in Flatten(parts)
  {
    if i < |parts| - 1 {
      InSomeBatch(parts[..|parts| - 1], i, x);
    }
  }

  /** A run that meets no bad chunk gets through all its batches. */
  lemma CleanRun<H>(seen: set<H>, chunks: seq<Chunk>, b: nat, h: Hasher<H>, f: Faults)
    requires b >= 1 && Harmless(f, chunks)
    ensures Leading(Batches(News(seen, chunks, h), b), f) == |Batches(News(seen, chunks, h), b)|
  {
    var news := News(seen, chunks, h);
    var todo := Batches(news, b);
    BatchesShape(news, b);
    NewsDistinct(seen, chunks, h);
    hide News, Batches, Flatten, Leading;
    forall i | 0 <= i < |todo|
      ensures Sound(f, i, todo[i])
    {
      forall c | c in todo[i]
        ensures !f.Bad(i, c)
      {
        InSomeBatch(todo, i, c);
      }
    }
    AllOfThem([], todo, f);
  }

  /** Once everything new is stored, nothing is left to store. */
  lemma NothingLeft<H>(rows: seq<Chunk>, chunks: seq<Chunk>, b: nat, h: Hasher<H>)
    requires b >= 1 && AllShared(chunks)
    ensures var todo := Batches(News(SharedDigests(rows, h), chunks, h), b);
            var left := News(SharedDigests(rows + Flatten(todo), h), chunks, h);
            left == [] && Batches(left, b) == []
  {
    hide News, Flatten, SharedDigests, FullButLast;
    var news := News(SharedDigests(rows, h), chunks, h);
    BatchesShape(news, b);
    PrefixShared(SharedDigests(rows, h), chunks, h, news);
    SecondRunExactly(rows, chunks, h);
  }

  lemma FlattenOne<T>(parts: seq<seq<T>>, last: seq<T>)
    ensures Flatten(parts + [last]) == Flatten(parts) + last
  {
    assert (parts + [last])[..|parts|] == parts;
  }

  lemma {:induction false} FlattenAppend<T>(a: seq<seq<T>>, b: seq<seq<T>>)
    ensures Flatten(a + b) == Flatten(a) + Flatten(b)
  {
    if b == [] {
      assert a + b == a;
    } else {
      var init, last := b[..|b| - 1], b[|b| - 1];
      FlattenAppend(a, init);
      hide Flatten;
      FlattenOne(init, last);
      FlattenOne(a + init, last);
      assert b == init + [last] && a + b == (a + init) + [last];
    }
  }

  /** The first `f` batches, none of them last, are a prefix, and the others are the batches of the rest. */
  lemma {:induction false} FirstBatches<T>(s: seq<T>, b: nat, f: nat)
    requires b >= 1 && f < |Batches(s, b)|
    ensures Flatten(Batches(s, b)[..f]) <= s
    ensures Batches(s, b)[f..] == Batches(s[|Flatten(Batches(s, b)[..f])|..], b)
  {
    var parts := Batches(s, b);
    if f > 0 {
      FirstBatch(s, b);
      FirstBatches(s[b..], b, f - 1);
      var first, rest := s[..b], Batches(s[b..], b);
      hide Batches, Flatten;
      assert parts[..f] == [first] + rest[..f - 1];
      assert parts[f..] == rest[f - 1..];
      FlattenCons(first, rest[..f - 1]);
      PrefixCons(s, b, Flatten(rest[..f - 1]));
    } else {
      assert parts[..0] == [] && s[0..] == s;
    }
  }

  lemma PrefixCons<T>(s: seq<T>, b: nat, below: seq<T>)
    requires b <= |s| && below <= s[b..]
    ensures s[..b] + below <= s && s[|s[..b] + below|..] == s[b..][|below|..]
  {
    assert s == s[..b] + s[b..];
  }
}
