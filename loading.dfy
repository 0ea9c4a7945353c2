/** The chunk queue: `chunks_initializer` (short-chunk merge and the initial
    state), `next_chunk_preparer` and the loop guard `should_continue`. */
module Loading {
  import opened Wrappers
  import opened Text
  import opened States
  import opened Uuid

  /** Chunks shorter than this are merged into their predecessor. */
  const MinChunkLength := 500
  const ChunkSeparator := "\n\n"

  // ---------------------------------------------------------------------
  // Short-chunk merge
  // ---------------------------------------------------------------------

  /** The backward merge loop as a function of what is left: `prefix` holds
      the chunks not yet visited, `current` the chunk being grown and `acc`
      the chunks already emitted. */
  function Scan(prefix: seq<string>, current: string, acc: seq<string>): seq<string>
    decreases |prefix|
  {
    if prefix == [] then [current] + acc
    else
      var next := prefix[|prefix| - 1];
      if |current| < MinChunkLength then Scan(prefix[..|prefix| - 1], next + ChunkSeparator + current, acc)
      else Scan(prefix[..|prefix| - 1], next, [current] + acc)
  }

  /** The chunk texts `chunks_initializer` queues for the given input. */
  function MergedChunks(chunks: seq<string>): seq<string> {
    if chunks == [] then [] else Scan(chunks[..|chunks| - 1], chunks[|chunks| - 1], [])
  }

  lemma JoinCons(sep: string, x: string, b: seq<string>)
    ensures Join(sep, [x] + b) == if b == [] then x else x + sep + Join(sep, b)
  {
    assert ([x] + b)[1..] == b;
  }

  /** Fusing the first two parts with the separator leaves the join
      unchanged. */
  lemma JoinPair(sep: string, x: string, y: string, b: seq<string>)
    ensures Join(sep, [x, y] + b) == Join(sep, [x + sep + y] + b)
  {
    assert [x, y] + b == [x] + ([y] + b);
    JoinCons(sep, x, [y] + b);
    JoinCons(sep, y, b);
    JoinCons(sep, x + sep + y, b);
    if b != [] {
      ConcatAssoc(x + sep, y + sep, Join(sep, b));
      ConcatAssoc(x + sep, y, sep);
    }
  }

  /** Fusing two neighbours with the separator leaves the join unchanged. */
  lemma JoinFuse(sep: string, a: seq<string>, x: string, y: string, b: seq<string>)
    ensures Join(sep, a + [x, y] + b) == Join(sep, a + [x + sep + y] + b)
  {
    JoinPair(sep, x, y, b);
    ConcatAssoc(a, [x, y], b);
    ConcatAssoc(a, [x + sep + y], b);
    if a != [] {
      JoinAppend(sep, a, [x, y] + b);
      JoinAppend(sep, a, [x + sep + y] + b);
    } else {
      AppendEmpty([x, y] + b);
      AppendEmpty([x + sep + y] + b);
    }
  }

  lemma {:induction false} ScanProperties(prefix: seq<string>, current: string, acc: seq<string>)
    requires forall i :: 0 <= i < |acc| ==> |acc[i]| >= MinChunkLength
    ensures var r := Scan(prefix, current, acc);
      && 1 <= |r| <= |prefix| + 1 + |acc|
      && (forall i :: 1 <= i < |r| ==> |r[i]| >= MinChunkLength)
      && Join(ChunkSeparator, r) == Join(ChunkSeparator, prefix + [current] + acc)
    decreases |prefix|
  {
    if prefix == [] {
      assert prefix + [current] + acc == [current] + acc;
    } else {
      var rest := prefix[..|prefix| - 1];
      var next := prefix[|prefix| - 1];
      assert prefix == rest + [next];
      if |current| < MinChunkLength {
        ScanProperties(rest, next + ChunkSeparator + current, acc);
        JoinFuse(ChunkSeparator, rest, next, current, acc);
        assert prefix + [current] + acc == rest + [next, current] + acc;
      } else {
        ScanProperties(rest, next, [current] + acc);
        assert rest + [next] + ([current] + acc) == prefix + [current] + acc;
      }
    }
  }

  /** The merge keeps the text and its order (the separator-join of the
      output equals that of the input), never adds a chunk, leaves every
      chunk but the first at least `MinChunkLength` long, and is empty
      exactly when the input is. */
  lemma MergedChunksProperties(chunks: seq<string>)
    ensures var r := MergedChunks(chunks);
      && |r| <= |chunks|
      && (r == [] <==> chunks == [])
      && (forall i :: 1 <= i < |r| ==> |r[i]| >= MinChunkLength)
      && Join(ChunkSeparator, r) == Join(ChunkSeparator, chunks)
  {
    if chunks != [] {
      var p := chunks[..|chunks| - 1];
      ScanProperties(p, chunks[|chunks| - 1], []);
      assert p + [chunks[|chunks| - 1]] + [] == chunks;
    }
  }

  /** A long chunk followed by a short one: the short one is appended to it
      after a blank line, giving one chunk of 612 characters. */
  lemma MergeExample()
    ensures var long := seq(600, _ => 'a');
      var short := seq(10, _ => 'b');
      MergedChunks([long, short]) == [long + "\n\n" + short]
      && |MergedChunks([long, short])[0]| == 612
  {
    var long := seq(600, _ => 'a');
    var short := seq(10, _ => 'b');
    assert [long, short][..1] == [long];
    assert [long][..0] == [];
    assert |short| == 10 && |long| == 600;
    assert MergedChunks([long, short]) == Scan([long], short, []);
    assert Scan([long], short, []) == Scan([], long + ChunkSeparator + short, []);
  }

  /** A lone chunk is kept even when it is short. */
  lemma SingleShortChunk(c: string)
    ensures MergedChunks([c]) == [c]
  {
    assert [c][..0] == [];
  }

  /** The merge loop of `chunks_initializer`, walking the input backwards. */
  method MergeShortChunks(chunks: seq<string>) returns (merged: seq<string>)
    ensures merged == MergedChunks(chunks)
  {
    merged := [];
    if |chunks| > 0 {
      var current := chunks[|chunks| - 1];
      var i := |chunks| - 1;
      while i > 0
        invariant 0 <= i <= |chunks| - 1
        invariant Scan(chunks[..i], current, merged) == MergedChunks(chunks)
      {
        var next := chunks[i - 1];
        assert chunks[..i][..i - 1] == chunks[..i - 1];
        if |current| < MinChunkLength {
          current := next + ChunkSeparator + current;
        } else {
          merged := [current] + merged;
          current := next;
        }
        i := i - 1;
      }
      merged := [current] + merged;
    }
  }

  // ---------------------------------------------------------------------
  // The initial state
  // ---------------------------------------------------------------------

  function Contents(cs: seq<ChunkInfo>): seq<string> {
    seq(|cs|, i requires 0 <= i < |cs| => cs[i].content)
  }

  function ChunkIds(cs: seq<ChunkInfo>): seq<string> {
    seq(|cs|, i requires 0 <= i < |cs| => cs[i].chunkId)
  }

  /** Every chunk is queued as it was created: pending and not yet analysed. */
  lemma QueueSnoc(cs: seq<ChunkInfo>, c: ChunkInfo)
    ensures ChunkIds(cs + [c]) == ChunkIds(cs) + [c.chunkId]
    ensures Contents(cs + [c]) == Contents(cs) + [c.content]
  {
  }

  predicate AllPending(cs: seq<ChunkInfo>) {
    forall i :: 0 <= i < |cs| ==> cs[i].status == Pending && cs[i].analysis == None
  }

  /** Every chunk is filed: processed and carrying its analysis. */
  predicate AllFiled(cs: seq<ChunkInfo>) {
    forall i :: 0 <= i < |cs| ==> cs[i].status == Processed && cs[i].analysis.Some?
  }

  /** `chunks_initializer`: merges short chunks, gives each merged chunk a
      fresh id and builds a state whose only non-empty channel is the queue. */
  method ChunksInitializer(chunks: seq<string>, oracle: IdOracle) returns (state: RunState)
    requires oracle.Valid()
    modifies oracle
    ensures fresh(state) && oracle.Valid() && old(oracle.issued) <= oracle.issued
    ensures Contents(state.chunksQueue) == MergedChunks(chunks)
    ensures AllPending(state.chunksQueue)
    ensures NoDup(ChunkIds(state.chunksQueue))
    ensures forall id :: id in ChunkIds(state.chunksQueue) ==> id in oracle.issued && id !in old(oracle.issued)
    ensures state.metadata == EmptyMetadata && state.findings == [] && state.consolidatedFindings == []
    ensures state.currentChunk == None && state.processedChunks == []
  {
    var merged := MergeShortChunks(chunks);
    var queue: seq<ChunkInfo> := [];
    for i := 0 to |merged|
      invariant oracle.Valid()
      invariant old(oracle.issued) <= oracle.issued
      invariant Contents(queue) == merged[..i]
      invariant AllPending(queue)
      invariant NoDup(ChunkIds(queue))
      invariant forall id :: id in ChunkIds(queue) ==> id in oracle.issued && id !in old(oracle.issued)
    {
      var id := oracle.Fresh();
      var c := ChunkInfo(id, merged[i], Pending, None);
      QueueSnoc(queue, c);
      NoDupSnoc(ChunkIds(queue), id);
      PrefixSnoc(merged, i);
      queue := queue + [c];
    }
    assert merged[..|merged|] == merged;
    state := new RunState();
    state.chunksQueue := queue;
  }

  // ---------------------------------------------------------------------
  // Moving through the queue
  // ---------------------------------------------------------------------

  /** The chunks of a state in processing order: done, being processed, waiting. */
  function Lineup(s: Snapshot): seq<ChunkInfo> {
    s.processedChunks + (if s.currentChunk.Some? then [s.currentChunk.value] else []) + s.chunksQueue
  }

  /** `should_continue`: chunks remain to be analysed. */
  predicate ShouldContinue(s: Snapshot) {
    s.chunksQueue != [] || s.currentChunk.Some?
  }

  /** The state `next_chunk_preparer` leaves behind. */
  function Prepared(s: Snapshot): Snapshot {
    var processed := if s.currentChunk.Some? then s.processedChunks + [s.currentChunk.value.(status := Processed)] else s.processedChunks;
    if s.chunksQueue == [] then s.(processedChunks := processed, currentChunk := None)
    else s.(processedChunks := processed, currentChunk := Some(s.chunksQueue[0]), chunksQueue := s.chunksQueue[1..])
  }

  /** `next_chunk_preparer`: files the current chunk as processed and pops
      the head of the queue into its place. */
  method NextChunkPreparer(state: RunState)
    modifies state
    ensures state.Values() == Prepared(old(state.Values()))
  {
    if state.currentChunk.Some? {
      var done := state.currentChunk.value.(status := Processed);
      state.processedChunks := state.processedChunks + [done];
      state.currentChunk := None;
    }
    if |state.chunksQueue| > 0 {
      state.currentChunk := Some(state.chunksQueue[0]);
      state.chunksQueue := state.chunksQueue[1..];
    } else {
      state.currentChunk := None;
    }
  }

  /** The preparer conserves the lineup: the same chunks in the same order,
      the only change being that the chunk it files is marked processed.
      No other channel changes. */
  lemma PreparedConservesLineup(s: Snapshot)
    ensures var t := Prepared(s);
      && t.metadata == s.metadata && t.findings == s.findings
      && t.consolidatedFindings == s.consolidatedFindings
      && Lineup(t) == (if s.currentChunk.Some?
                       then Lineup(s)[|s.processedChunks| := s.currentChunk.value.(status := Processed)]
                       else Lineup(s))
  {
    var t := Prepared(s);
    if s.currentChunk.Some? {
      var k := |s.processedChunks|;
      var c := s.currentChunk.value;
      assert Lineup(s) == s.processedChunks + [c] + s.chunksQueue;
      if s.chunksQueue == [] {
        assert Lineup(t) == s.processedChunks + [c.(status := Processed)];
      } else {
        assert Lineup(t) == s.processedChunks + [c.(status := Processed)] + [s.chunksQueue[0]] + s.chunksQueue[1..];
        assert [s.chunksQueue[0]] + s.chunksQueue[1..] == s.chunksQueue;
      }
    } else if s.chunksQueue != [] {
      assert [s.chunksQueue[0]] + s.chunksQueue[1..] == s.chunksQueue;
    }
  }

  /** The queue is first-in first-out: its head becomes current and it
      shrinks by one; afterwards the guard holds exactly when a chunk was
      taken, so each queued chunk is analysed exactly once. */
  lemma PreparedPopsHead(s: Snapshot)
    ensures var t := Prepared(s);
      && (s.chunksQueue != [] ==> t.currentChunk == Some(s.chunksQueue[0]) && t.chunksQueue == s.chunksQueue[1..]
                                  && |t.chunksQueue| == |s.chunksQueue| - 1)
      && (s.chunksQueue == [] ==> t.currentChunk == None && t.chunksQueue == [])
      && (ShouldContinue(t) <==> t.currentChunk.Some?)
      && (ShouldContinue(t) <==> s.chunksQueue != [])
  {
  }
}
