/** The paper-scanner graph: `chunks_initializer`, then `next_chunk_preparer`;
    while chunks remain, `chunk_processor`, the routed branches and the
    `processing_sink` join, then the preparer again; finally
    `findings_consolidator`. Every superstep counts against the recursion
    limit. */
module Agent {
  import opened Wrappers
  import opened Text
  import opened FormatInstructions
  import opened States
  import opened MergeLaws
  import opened MetadataLaws
  import opened Uuid
  import opened Loading
  import opened Processing
  import opened FindingCreation
  import opened FindingUpdateNode
  import opened MetadataUpdate
  import opened FindingConsolidation
  import opened Markdown

  /** Why a run stops without a result. */
  datatype RunError =
    | DanglingFinding(id: string)   // an update directive names no stored finding
    | RecursionLimitReached         // the next superstep would exceed the limit
    | MissingDocument               // neither a PDF nor a markdown paper was given

  /** The chunk size and the step limit the workflow entry point uses. */
  const PaperChunkSize := 10000
  const PaperRecursionLimit := 200

  // ---------------------------------------------------------------------
  // Channel writes
  // ---------------------------------------------------------------------

  /** A node's partial update written to the channels: the two reducer
      channels merge it in, the others are not written. */
  function Applied(s: Snapshot, u: Update): Snapshot {
    s.(findings := if u.findings.Some? then Merged(s.findings, u.findings.value) else s.findings,
       metadata := if u.metadata.Some? then MergeMetadata(s.metadata, u.metadata.value) else s.metadata)
  }

  method ApplyUpdate(state: RunState, u: Update)
    modifies state
    ensures state.Values() == Applied(old(state.Values()), u)
  {
    if u.findings.Some? {
      var merged := MergeFindings(state.findings, u.findings.value);
      state.findings := merged;
    }
    if u.metadata.Some? {
      state.metadata := MergeMetadata(state.metadata, u.metadata.value);
    }
  }

  /** A node that returns the whole state writes every channel with the
      value it holds: the reducer channels merge their own value into
      themselves, the others are overwritten with what they already hold. */
  function SelfWritten(s: Snapshot): Snapshot {
    Applied(s, Update(Some(s.findings), Some(s.metadata)))
  }

  method WriteWholeState(state: RunState)
    modifies state
    ensures state.Values() == SelfWritten(old(state.Values()))
  {
    ApplyUpdate(state, Update(Some(state.findings), Some(state.metadata)));
  }

  /** Every id in `ids` was drawn from the oracle and is no chunk's id. */
  predicate FromOracle(ids: seq<string>, issued: set<string>, chunkIds: seq<string>) {
    forall id :: id in ids ==> id in issued && id !in chunkIds
  }

  /** The reducer channels between supersteps: a well-formed store whose
      ids were all drawn from the oracle and are no chunk's id, and a
      metadata dict with all five keys and no source ids. */
  predicate StoreInv(s: Snapshot, chunkIds: seq<string>, issued: set<string>) {
    && StoreOk(s.findings)
    && FromOracle(Ids(s.findings), issued, chunkIds)
    && Settled(s.metadata) && SourceIds(s.metadata) == []
  }

  /** Writing the whole state back is harmless once the reducer channels
      are in this shape. */
  lemma SelfWriteHarmless(s: Snapshot, chunkIds: seq<string>, issued: set<string>)
    requires StoreInv(s, chunkIds, issued)
    ensures SelfWritten(s) == s
  {
    SelfMergeIsIdentity(s.findings);
    MetadataSelfMerge(s.metadata);
  }

  lemma InIds(fs: seq<Finding>, f: Finding)
    requires f in fs
    ensures f.id in Ids(fs)
  {
    var j :| 0 <= j < |fs| && fs[j] == f;
    assert Ids(fs)[j] == f.id;
  }

  /** An update branch for a stored finding keeps the store in shape and
      its ids as they were. */
  lemma UpdateKeepsStore(s: Snapshot, chunk: ChunkInfo, f: Finding, whatToUpdate: string, llm: Collaborator,
                         chunkIds: seq<string>, issued: set<string>)
    requires StoreInv(s, chunkIds, issued)
    requires FindingOk(f) && f.id in Ids(s.findings)
    ensures var t := Applied(s, FindingUpdater(chunk, Some(f), whatToUpdate, llm).value);
      StoreInv(t, chunkIds, issued) && Ids(t.findings) == Ids(s.findings)
  {
    var d := FindingUpdater(chunk, Some(f), whatToUpdate, llm).value.findings.value[0];
    assert FindingUpdater(chunk, Some(f), whatToUpdate, llm).value.findings.value == [d];
    assert DeltaOk(d);
    MergePreservesStore(s.findings, [d]);
    MergeKeepsEveryId(s.findings, [d]);
    assert Ids([d]) == [d.id];
    DedupAbsorbs(Ids(s.findings), [d.id]);
  }

  /** A create branch appends one finding under the freshly drawn id. */
  lemma CreateKeepsStore(s: Snapshot, chunk: ChunkInfo, title: string, description: string, llm: Collaborator,
                         freshId: string, chunkIds: seq<string>, issued: set<string>)
    requires StoreInv(s, chunkIds, issued)
    requires freshId !in issued && (forall c :: c in chunkIds ==> c in issued)
    ensures var t := Applied(s, FindingCreator(chunk, title, description, llm, freshId));
      StoreInv(t, chunkIds, issued + {freshId}) && Ids(t.findings) == Ids(s.findings) + [freshId]
  {
    var u := FindingCreator(chunk, title, description, llm, freshId);
    var f := u.findings.value[0];
    CreatedFindingIsAppended(s.findings, chunk, title, description, llm, freshId);
    IdsSnoc(s.findings, f.(keywords := Some([])));
  }

  /** A metadata branch leaves the findings alone and the metadata settled
      without source ids. */
  lemma MetadataKeepsStore(s: Snapshot, m: AnalysisMetadata, chunkIds: seq<string>, issued: set<string>)
    requires StoreInv(s, chunkIds, issued)
    ensures var t := Applied(s, MetadataUpdater(m));
      StoreInv(t, chunkIds, issued) && t.findings == s.findings
  {
    MetadataDeltaMerge(s.metadata, m);
  }

  // ---------------------------------------------------------------------
  // The fan-out
  // ---------------------------------------------------------------------

  /** An update item the updater can act on: it carries a well-formed
      finding whose id is stored. */
  predicate Resolved(item: WorkItem, fs: seq<Finding>)
    requires item.UpdateItem?
  {
    item.finding.Some? && FindingOk(item.finding.value) && item.finding.value.id in Ids(fs)
  }

  /** Every update item the router emits carries a finding taken from the
      store it routed against (or `None`). */
  lemma RoutedFindingsAreStored(chunk: ChunkInfo, a: ChunkAnalysis, fs: seq<Finding>)
    ensures var r := RouteAsWritten(chunk, a, fs);
      forall i :: 0 <= i < |r| && r[i].UpdateItem? && r[i].finding.Some? ==> r[i].finding.value in fs
  {
    var r := RouteAsWritten(chunk, a, fs);
    var ups := a.findings.findingsUpdates;
    var news := a.findings.newFindings;
    forall i | 0 <= i < |r|
      ensures r[i].UpdateItem? && r[i].finding.Some? ==> r[i].finding.value in fs
    {
      if i < |ups| {
        assert r[i] == UpdateItems(chunk, fs, ups)[i];
        var found := SearchFindingById(fs, ups[i].id);
        if found.Some? {
          var j :| 0 <= j < |fs| && fs[j] == found.value && found.value.id == ups[i].id;
        }
      } else if i < |ups| + |news| {
        assert r[i] == CreateItems(chunk, news)[i - |ups|];
      }
    }
  }

  // ---------------------------------------------------------------------
  // The chunk channels
  // ---------------------------------------------------------------------

  /** The chunk channels between supersteps: the lineup holds the merged
      chunk texts under fixed ids; filed chunks are processed and carry
      their analysis, waiting ones are pending; and no chunk waits once
      there is no current chunk. */
  predicate ChunksInv(s: Snapshot, contents: seq<string>, chunkIds: seq<string>) {
    && Contents(Lineup(s)) == contents && ChunkIds(Lineup(s)) == chunkIds
    && AllFiled(s.processedChunks)
    && AllPending(s.chunksQueue)
    && (s.currentChunk.None? ==> s.chunksQueue == [])
  }

  /** Replacing a chunk by one with the same id and text keeps the texts
      and the ids of a lineup. */
  lemma SameChunkAt(l: seq<ChunkInfo>, k: nat, c: ChunkInfo)
    requires k < |l| && c.chunkId == l[k].chunkId && c.content == l[k].content
    ensures Contents(l[k := c]) == Contents(l) && ChunkIds(l[k := c]) == ChunkIds(l)
  {
  }

  /** The first preparer call takes the head of the fresh queue. */
  lemma FirstPreparerKeepsChunks(s: Snapshot, contents: seq<string>, chunkIds: seq<string>)
    requires s.currentChunk == None && s.processedChunks == [] && AllPending(s.chunksQueue)
    requires Contents(s.chunksQueue) == contents && ChunkIds(s.chunksQueue) == chunkIds
    ensures ChunksInv(Prepared(s), contents, chunkIds)
    ensures Prepared(s).processedChunks == []
  {
    PreparedConservesLineup(s);
    PreparedPopsHead(s);
    assert Lineup(s) == s.chunksQueue;
  }

  /** Analysing the current chunk and then filing it keeps the chunk
      channels in shape, files one more chunk and shrinks what is left. */
  lemma FilingKeepsChunks(s: Snapshot, t: Snapshot, llm: Collaborator, contents: seq<string>, chunkIds: seq<string>)
    requires ChunksInv(s, contents, chunkIds) && s.currentChunk.Some?
    requires t.chunksQueue == s.chunksQueue && t.processedChunks == s.processedChunks
    requires t.currentChunk == Analysed(s, llm).currentChunk
    ensures ChunksInv(Prepared(t), contents, chunkIds)
    ensures |Prepared(t).processedChunks| == |s.processedChunks| + 1
    ensures |Prepared(t).chunksQueue| + (if Prepared(t).currentChunk.Some? then 1 else 0) < |s.chunksQueue| + 1
  {
    var k := |s.processedChunks|;
    var c := s.currentChunk.value;
    var a := t.currentChunk.value;
    assert Lineup(s) == s.processedChunks + [c] + s.chunksQueue;
    assert Lineup(t) == s.processedChunks + [a] + s.chunksQueue;
    assert Lineup(t) == Lineup(s)[k := a];
    SameChunkAt(Lineup(s), k, a);
    PreparedConservesLineup(t);
    PreparedPopsHead(t);
    SameChunkAt(Lineup(t), k, a.(status := Processed));
    var p := Prepared(t).processedChunks;
    assert p == s.processedChunks + [a.(status := Processed)];
    if s.chunksQueue != [] {
      assert AllPending(s.chunksQueue[1..]) by {
        forall i | 0 <= i < |s.chunksQueue| - 1
          ensures s.chunksQueue[1..][i].status == Pending && s.chunksQueue[1..][i].analysis == None
        {
          assert s.chunksQueue[1..][i] == s.chunksQueue[i + 1];
        }
      }
    }
  }

  /** The state a finished run returns: every merged chunk was filed once,
      in order, processed and analysed; the store is well formed and its
      ids are no chunk's; the metadata has all five keys; and the
      consolidated list is the collaborator's answer for the final
      findings, each entry under an id used nowhere else (or empty when
      there are no findings). */
  predicate Finished(s: Snapshot, contents: seq<string>, llm: Collaborator) {
    && s.chunksQueue == [] && s.currentChunk == None
    && Contents(s.processedChunks) == contents
    && NoDup(ChunkIds(s.processedChunks))
    && AllFiled(s.processedChunks)
    && StoreOk(s.findings)
    && Apart(Ids(s.findings), ChunkIds(s.processedChunks))
    && Settled(s.metadata) && SourceIds(s.metadata) == []
    && (s.findings == [] ==> s.consolidatedFindings == [])
    && (s.findings != [] ==> Answers(s.consolidatedFindings, llm.consolidate(ConsolidationText(s.findings)).findings))
    && NoDup(EntryIds(s.consolidatedFindings))
    && Apart(EntryIds(s.consolidatedFindings), Ids(s.findings))
    && Apart(EntryIds(s.consolidatedFindings), ChunkIds(s.processedChunks))
  }

  /** No id of `ids` is in `others`. */
  predicate Apart(ids: seq<string>, others: seq<string>) {
    forall id :: id in ids ==> id !in others
  }

  /** The consolidated entries carry the collaborator's answer, entry by
      entry. */
  predicate Answers(cs: seq<ConsolidatedEntry>, result: seq<ConsolidatedFinding>) {
    && |cs| == |result|
    && forall i :: 0 <= i < |result| ==> Payload(cs[i]) == result[i]
  }

  /** What the consolidator leaves behind once every chunk is filed. */
  lemma ConsolidationFinishes(s: Snapshot, t: Snapshot, contents: seq<string>, chunkIds: seq<string>,
                              llm: Collaborator, issued: set<string>)
    requires s.chunksQueue == [] && s.currentChunk == None
    requires Contents(s.processedChunks) == contents && ChunkIds(s.processedChunks) == chunkIds
    requires AllFiled(s.processedChunks)
    requires NoDup(chunkIds) && forall c :: c in chunkIds ==> c in issued
    requires StoreInv(s, chunkIds, issued) && s.consolidatedFindings == []
    requires s.findings == [] ==> t == s
    requires s.findings != [] ==>
      var result := llm.consolidate(ConsolidationText(s.findings)).findings;
      var cs := t.consolidatedFindings;
      && t == s.(consolidatedFindings := cs)
      && |cs| == |result|
      && (forall i :: 0 <= i < |cs| ==> Payload(cs[i]) == result[i])
      && NoDup(EntryIds(cs))
      && (forall id :: id in EntryIds(cs) ==> id !in issued)
    ensures Finished(t, contents, llm)
  {
  }

  // ---------------------------------------------------------------------
  // What the rounds write
  // ---------------------------------------------------------------------

  /** How many ids a branch draws: one for a create item, none otherwise. */
  function Draws(item: WorkItem): nat {
    if item.CreateItem? then 1 else 0
  }

  /** How many ids the items draw together. */
  function CreateCount(items: seq<WorkItem>): nat {
    if items == [] then 0 else CreateCount(items[..|items| - 1]) + Draws(items[|items| - 1])
  }

  /** The write of one branch: the updater's delta, the creator's delta
      under the id it drew, the metadata delta, or nothing for the sink.
      The updater raises when its item carries no finding; such an item is
      never sent here. */
  function BranchStep(s: Snapshot, item: WorkItem, ids: seq<string>, llm: Collaborator): Snapshot
    requires |ids| == Draws(item)
  {
    match item
    case UpdateItem(chunk, finding, whatToUpdate) =>
      var r := FindingUpdater(chunk, finding, whatToUpdate, llm);
      if r.Success? then Applied(s, r.value) else s
    case CreateItem(chunk, title, description) => Applied(s, FindingCreator(chunk, title, description, llm, ids[0]))
    case MetadataItem(m) => Applied(s, MetadataUpdater(m))
    case SinkItem => s
  }

  /** The branches' writes one after another, in the order they were sent;
      the create items take the drawn ids in turn. */
  function Branched(s: Snapshot, items: seq<WorkItem>, ids: seq<string>, llm: Collaborator): Snapshot
    requires |ids| == CreateCount(items)
    decreases |items|
  {
    if items == [] then s
    else
      var last := items[|items| - 1];
      var m := |ids| - Draws(last);
      BranchStep(Branched(s, items[..|items| - 1], ids[..m], llm), last, ids[m..], llm)
  }

  /** The fold over one more item. */
  lemma BranchedSnoc(s: Snapshot, items: seq<WorkItem>, k: nat, ids: seq<string>, more: seq<string>, llm: Collaborator)
    requires k < |items| && |ids| == CreateCount(items[..k]) && |more| == Draws(items[k])
    ensures |ids + more| == CreateCount(items[..k + 1])
    ensures Branched(s, items[..k + 1], ids + more, llm) == BranchStep(Branched(s, items[..k], ids, llm), items[k], more, llm)
  {
    assert items[..k + 1][..k] == items[..k] && items[..k + 1][k] == items[k];
    assert (ids + more)[..|ids|] == ids && (ids + more)[|ids|..] == more;
  }

  /** The directives of the analysis the processor attaches to the current
      chunk. */
  function Directives(s: Snapshot, llm: Collaborator): seq<UpdateDirective>
    requires s.currentChunk.Some?
  {
    Analysed(s, llm).currentChunk.value.analysis.value.findings.findingsUpdates
  }

  /** The items the router sends for the current chunk once it is analysed. */
  function Plan(s: Snapshot, llm: Collaborator): seq<WorkItem>
    requires s.currentChunk.Some?
  {
    var c := Analysed(s, llm).currentChunk.value;
    RouteAsWritten(c, c.analysis.value, s.findings)
  }

  /** Every directive of the current chunk's analysis names a stored finding. */
  predicate Resolves(s: Snapshot, llm: Collaborator)
    requires s.currentChunk.Some?
  {
    AllResolve(s.findings, Directives(s, llm))
  }

  /** `id` is named by the first directive of the analysis that names no
      stored finding. */
  predicate FirstUnknown(s: Snapshot, llm: Collaborator, id: string)
    requires s.currentChunk.Some?
  {
    var ds := Directives(s, llm);
    exists k :: 0 <= k < |ds| && ds[k].id == id && SearchFindingById(s.findings, id).None?
                && AllResolve(s.findings, ds[..k])
  }

  /** One round of the loop: the current chunk is analysed against the
      stored findings, every branch the router sends for it writes its
      delta, and only then does the preparer file it and take the next. */
  function Round(s: Snapshot, ids: seq<string>, llm: Collaborator): Snapshot
    requires s.currentChunk.Some? && |ids| == CreateCount(Plan(s, llm))
  {
    Prepared(Branched(Analysed(s, llm), Plan(s, llm), ids, llm))
  }

  /** A round leads from `s` to `t`: the current chunk of `s` holds
      `content`, every directive of its analysis names a stored finding,
      and `t` is what the round leaves when its creators draw `ids`. */
  predicate Step(s: Snapshot, ids: seq<string>, t: Snapshot, content: string, llm: Collaborator) {
    && s.currentChunk.Some? && s.currentChunk.value.content == content
    && Resolves(s, llm)
    && |ids| == CreateCount(Plan(s, llm))
    && t == Round(s, ids, llm)
  }

  /** `trace` holds the state before each round and after the last one:
      round k analysed chunk k of `contents` and its creators drew
      `drawn[k]`. */
  predicate Rounds(trace: seq<Snapshot>, drawn: seq<seq<string>>, contents: seq<string>, llm: Collaborator) {
    && |trace| == |drawn| + 1 && |drawn| <= |contents|
    && forall k :: 0 <= k < |drawn| ==> StepAt(trace, drawn, contents, llm, k)
  }

  /** Round `k` of a trace is a step over chunk `k`. */
  predicate StepAt(trace: seq<Snapshot>, drawn: seq<seq<string>>, contents: seq<string>, llm: Collaborator, k: nat)
    requires k < |drawn| && |trace| == |drawn| + 1 && |drawn| <= |contents|
  {
    Step(trace[k], drawn[k], trace[k + 1], contents[k], llm)
  }

  /** A round from `s`, started at `steps` supersteps, stops at an unknown
      id: the limit left room for the processor, some directive of the
      analysis names no stored finding, and the error names the first. */
  predicate StopsAtUnknown(s: Snapshot, err: Option<RunError>, steps: nat, limit: nat, llm: Collaborator)
    requires s.currentChunk.Some?
  {
    err.Some? && err.value.DanglingFinding? && steps < limit && !Resolves(s, llm) && FirstUnknown(s, llm, err.value.id)
  }

  /** The branches of the current chunk of `s` are done and `t` holds
      their writes: every directive named a stored finding, the creators
      drew `ids`, the new findings are appended under them, the store stays
      in shape, and the chunk channels hold `s`'s with the analysis
      attached. */
  predicate BranchesDone(s: Snapshot, t: Snapshot, ids: seq<string>, chunkIds: seq<string>, issued: set<string>,
                         llm: Collaborator) {
    && s.currentChunk.Some?
    && Resolves(s, llm) && |ids| == CreateCount(Plan(s, llm))
    && t == Branched(Analysed(s, llm), Plan(s, llm), ids, llm)
    && Ids(t.findings) == Ids(s.findings) + ids
    && StoreInv(t, chunkIds, issued)
    && t.chunksQueue == s.chunksQueue && t.processedChunks == s.processedChunks
    && t.consolidatedFindings == s.consolidatedFindings
    && t.currentChunk == Analysed(s, llm).currentChunk
  }

  /** One round of the loop completed from `s` to `u` with both invariants
      kept: the round's step, the new ids appended to the store, and one
      more chunk filed. */
  predicate Advanced(s: Snapshot, u: Snapshot, ids: seq<string>, contents: seq<string>, chunkIds: seq<string>,
                     issued: set<string>, llm: Collaborator) {
    && |s.processedChunks| < |contents|
    && Step(s, ids, u, contents[|s.processedChunks|], llm)
    && Ids(u.findings) == Ids(s.findings) + ids
    && ChunksInv(u, contents, chunkIds) && StoreInv(u, chunkIds, issued)
    && u.consolidatedFindings == []
    && |u.processedChunks| == |s.processedChunks| + 1
    && |u.chunksQueue| + (if u.currentChunk.Some? then 1 else 0) < |s.chunksQueue| + 1
  }

  /** The ids drawn by all rounds, in the order they were drawn. */
  function Drawn(drawn: seq<seq<string>>): seq<string> {
    if drawn == [] then [] else Drawn(drawn[..|drawn| - 1]) + drawn[|drawn| - 1]
  }

  /** The metadata dict the initializer's whole-state write leaves: all
      five keys, nothing known. */
  const NoMetadata := PaperMetadata(Null, Null, Null, Null, Some([]))

  /** What a run over `contents` returns, in terms of its rounds: the rounds
      start from an empty store; a successful run went through one round
      per chunk and returns the findings, metadata and filed chunks the last
      round left, its findings being exactly those the creators made, in
      the order they were made; a run stopped by an unknown id stopped
      at the first round whose analysis named one. */
  predicate Explains(outcome: Result<Snapshot, RunError>, trace: seq<Snapshot>, drawn: seq<seq<string>>,
                     contents: seq<string>, llm: Collaborator) {
    || (outcome.Failure? && !outcome.error.DanglingFinding?)
    || (&& Rounds(trace, drawn, contents, llm)
        && trace[0].findings == [] && trace[0].metadata == NoMetadata && trace[0].processedChunks == []
        && (outcome.Success? ==>
              && |drawn| == |contents|
              && outcome.value.findings == trace[|drawn|].findings
              && outcome.value.metadata == trace[|drawn|].metadata
              && outcome.value.processedChunks == trace[|drawn|].processedChunks
              && Ids(outcome.value.findings) == Drawn(drawn))
        && (outcome.Failure? ==>
              && |drawn| < |contents|
              && trace[|drawn|].currentChunk.Some?
              && trace[|drawn|].currentChunk.value.content == contents[|drawn|]
              && !Resolves(trace[|drawn|], llm)
              && FirstUnknown(trace[|drawn|], llm, outcome.error.id)))
  }

  /** A run whose rounds covered every chunk, from an empty store, is
      explained by them once its result keeps what the last round left. */
  lemma RunExplained(u: Snapshot, trace: seq<Snapshot>, drawn: seq<seq<string>>, contents: seq<string>, llm: Collaborator)
    requires Rounds(trace, drawn, contents, llm) && |drawn| == |contents|
    requires trace[0].findings == [] && trace[0].metadata == NoMetadata && trace[0].processedChunks == []
    requires u.findings == trace[|drawn|].findings && u.metadata == trace[|drawn|].metadata
    requires u.processedChunks == trace[|drawn|].processedChunks
    requires Ids(u.findings) == Ids(trace[0].findings) + Drawn(drawn)
    ensures Explains(Success(u), trace, drawn, contents, llm)
  {
    assert Ids(trace[0].findings) == [];
  }

  /** A trace of rounds grows by one round. */
  lemma RoundsSnoc(trace: seq<Snapshot>, drawn: seq<seq<string>>, contents: seq<string>, llm: Collaborator,
                   ids: seq<string>, t: Snapshot)
    requires Rounds(trace, drawn, contents, llm) && |drawn| < |contents|
    requires Step(trace[|drawn|], ids, t, contents[|drawn|], llm)
    ensures Rounds(trace + [t], drawn + [ids], contents, llm)
    ensures Drawn(drawn + [ids]) == Drawn(drawn) + ids
  {
    var tr := trace + [t];
    var dr := drawn + [ids];
    forall k | 0 <= k < |dr|
      ensures StepAt(tr, dr, contents, llm, k)
    {
      if k < |drawn| {
        assert tr[k] == trace[k] && tr[k + 1] == trace[k + 1] && dr[k] == drawn[k];
        assert StepAt(tr, dr, contents, llm, k) == StepAt(trace, drawn, contents, llm, k);
      } else {
        assert k == |drawn|;
        assert tr[k] == trace[k] && tr[k + 1] == t && dr[k] == ids;
        assert StepAt(tr, dr, contents, llm, k) == Step(trace[|drawn|], ids, t, contents[|drawn|], llm);
      }
    }
    assert dr[..|dr| - 1] == drawn;
  }

  /** The current chunk of a state in shape is the next chunk of the paper. */
  lemma CurrentIsNext(s: Snapshot, contents: seq<string>, chunkIds: seq<string>)
    requires ChunksInv(s, contents, chunkIds) && s.currentChunk.Some?
    ensures |s.processedChunks| < |contents| && s.currentChunk.value.content == contents[|s.processedChunks|]
  {
    assert Lineup(s) == s.processedChunks + [s.currentChunk.value] + s.chunksQueue;
    assert Lineup(s)[|s.processedChunks|] == s.currentChunk.value;
    assert |Contents(Lineup(s))| == |Lineup(s)|;
  }

  class PaperScanner {
    /** The language model behind every prompt. */
    const llm: Collaborator
    /** `uuid4`. */
    const oracle: IdOracle

    constructor (llm: Collaborator)
      ensures this.llm == llm && fresh(oracle) && oracle.Valid()
    {
      this.llm := llm;
      oracle := new IdOracle();
    }

    /** The branches the router sent, applied one after another in the
        order they were sent. Each updater and creator writes a one-finding
        delta, the metadata updater a metadata delta, the sink nothing. */
    method RunBranches(state: RunState, items: seq<WorkItem>, ghost chunkIds: seq<string>)
      returns (ghost newIds: seq<string>)
      requires oracle.Valid()
      requires StoreInv(state.Values(), chunkIds, oracle.issued)
      requires forall c :: c in chunkIds ==> c in oracle.issued
      requires forall i :: 0 <= i < |items| && items[i].UpdateItem? ==> Resolved(items[i], state.findings)
      modifies state, oracle
      ensures oracle.Valid() && old(oracle.issued) <= oracle.issued
      ensures |newIds| == CreateCount(items)
      ensures state.Values() == Branched(old(state.Values()), items, newIds, llm)
      ensures NoDup(newIds) && forall id :: id in newIds ==> id in oracle.issued && id !in old(oracle.issued)
      ensures StoreInv(state.Values(), chunkIds, oracle.issued)
      ensures Ids(state.findings) == Ids(old(state.findings)) + newIds
      ensures forall id :: id in Ids(old(state.findings)) ==> id in Ids(state.findings)
      ensures state.chunksQueue == old(state.chunksQueue) && state.currentChunk == old(state.currentChunk)
      ensures state.processedChunks == old(state.processedChunks)
      ensures state.consolidatedFindings == old(state.consolidatedFindings)
    {
      ghost var s0 := state.Values();
      newIds := [];
      for k := 0 to |items|
        invariant oracle.Valid() && old(oracle.issued) <= oracle.issued
        invariant |newIds| == CreateCount(items[..k])
        invariant state.Values() == Branched(s0, items[..k], newIds, llm)
        invariant NoDup(newIds) && forall id :: id in newIds ==> id in oracle.issued && id !in old(oracle.issued)
        invariant StoreInv(state.Values(), chunkIds, oracle.issued)
        invariant forall c :: c in chunkIds ==> c in oracle.issued
        invariant Ids(state.findings) == Ids(s0.findings) + newIds
        invariant state.chunksQueue == s0.chunksQueue && state.currentChunk == s0.currentChunk
        invariant state.processedChunks == s0.processedChunks
        invariant state.consolidatedFindings == s0.consolidatedFindings
      {
        assert items[k].UpdateItem? ==> Resolved(items[k], state.findings) by {
          if items[k].UpdateItem? {
            assert Resolved(items[k], s0.findings);
          }
        }
        ghost var more := RunBranch(state, items[k], chunkIds);
        BranchedSnoc(s0, items, k, newIds, more, llm);
        ConcatAssoc(Ids(s0.findings), newIds, more);
        assert NoDup(newIds + more) by {
          if more != [] { NoDupSnoc(newIds, more[0]); assert more == [more[0]]; }
        }
        newIds := newIds + more;
      }
      assert items[..|items|] == items;
    }

    /** One branch the router sent: an updater, a creator (which draws a
        fresh id), the metadata updater or the sink, with its write. */
    method RunBranch(state: RunState, item: WorkItem, ghost chunkIds: seq<string>) returns (ghost ids: seq<string>)
      requires oracle.Valid()
      requires StoreInv(state.Values(), chunkIds, oracle.issued)
      requires forall c :: c in chunkIds ==> c in oracle.issued
      requires item.UpdateItem? ==> Resolved(item, state.findings)
      modifies state, oracle
      ensures oracle.Valid() && old(oracle.issued) <= oracle.issued
      ensures |ids| == Draws(item)
      ensures state.Values() == BranchStep(old(state.Values()), item, ids, llm)
      ensures forall id :: id in ids ==> id in oracle.issued && id !in old(oracle.issued)
      ensures StoreInv(state.Values(), chunkIds, oracle.issued)
      ensures Ids(state.findings) == Ids(old(state.findings)) + ids
      ensures state.chunksQueue == old(state.chunksQueue) && state.currentChunk == old(state.currentChunk)
      ensures state.processedChunks == old(state.processedChunks)
      ensures state.consolidatedFindings == old(state.consolidatedFindings)
    {
      ids := [];
      match item
      case UpdateItem(chunk, finding, whatToUpdate) =>
        var r := FindingUpdater(chunk, finding, whatToUpdate, llm);
        UpdateKeepsStore(state.Values(), chunk, finding.value, whatToUpdate, llm, chunkIds, oracle.issued);
        ApplyUpdate(state, r.value);
      case CreateItem(chunk, title, description) =>
        ghost var before := oracle.issued;
        var id := oracle.Fresh();
        CreateKeepsStore(state.Values(), chunk, title, description, llm, id, chunkIds, before);
        ApplyUpdate(state, FindingCreator(chunk, title, description, llm, id));
        ids := [id];
      case MetadataItem(m) =>
        MetadataKeepsStore(state.Values(), m, chunkIds, oracle.issued);
        ApplyUpdate(state, MetadataUpdater(m));
      case SinkItem =>
    }

    /** `chunks_initializer`, with its whole-state write: the queue holds
        the merged chunks under fresh ids, the store is empty and the
        metadata dict holds its five keys. */
    method Initialize(chunks: seq<string>) returns (state: RunState, ghost chunkIds: seq<string>)
      requires oracle.Valid()
      modifies oracle
      ensures fresh(state) && oracle.Valid() && old(oracle.issued) <= oracle.issued
      ensures Contents(state.chunksQueue) == MergedChunks(chunks) && ChunkIds(state.chunksQueue) == chunkIds
      ensures AllPending(state.chunksQueue) && state.currentChunk == None && state.processedChunks == []
      ensures NoDup(chunkIds) && forall c :: c in chunkIds ==> c in oracle.issued
      ensures StoreInv(state.Values(), chunkIds, oracle.issued)
      ensures state.consolidatedFindings == [] && state.findings == [] && state.metadata == NoMetadata
    {
      state := ChunksInitializer(chunks, oracle);
      WriteWholeState(state);
      assert state.metadata == NoMetadata by {
        assert SourceIds(EmptyMetadata) + SourceIds(EmptyMetadata) == [];
      }
      chunkIds := ChunkIds(state.chunksQueue);
    }

    /** `findings_consolidator`, with its whole-state write, ending the run. */
    method Consolidate(state: RunState, ghost contents: seq<string>, ghost chunkIds: seq<string>)
      requires oracle.Valid()
      requires state.chunksQueue == [] && state.currentChunk == None
      requires Contents(state.processedChunks) == contents && ChunkIds(state.processedChunks) == chunkIds
      requires AllFiled(state.processedChunks)
      requires NoDup(chunkIds) && forall c :: c in chunkIds ==> c in oracle.issued
      requires StoreInv(state.Values(), chunkIds, oracle.issued)
      requires state.consolidatedFindings == []
      modifies state, oracle
      ensures oracle.Valid()
      ensures Finished(state.Values(), contents, llm)
      ensures state.findings == old(state.findings) && state.metadata == old(state.metadata)
      ensures state.processedChunks == old(state.processedChunks)
    {
      ghost var s := state.Values();
      ghost var issued := oracle.issued;
      FindingsConsolidator(state, llm, oracle);
      ConsolidationFinishes(s, state.Values(), contents, chunkIds, llm, issued);
      assert StoreInv(state.Values(), chunkIds, oracle.issued);
      SelfWriteHarmless(state.Values(), chunkIds, oracle.issued);
      WriteWholeState(state);
    }

    /** One round of the chunk loop: `chunk_processor` (its router runs in
        the same superstep), the routed branches, the `processing_sink`
        join unless the sink was itself the only branch, then
        `next_chunk_preparer` with the whole-state write. A superstep is
        refused once `steps` has reached `limit`. A round files one more
        chunk and takes three or four supersteps. The router is the corrected
        `PostProcessingRouter`, so an unknown id stops the round here. */
    method ScanOne(state: RunState, steps: nat, limit: nat, ghost contents: seq<string>, ghost chunkIds: seq<string>)
      returns (err: Option<RunError>, after: nat, ghost newIds: seq<string>)
      requires oracle.Valid() && steps <= limit
      requires ChunksInv(state.Values(), contents, chunkIds) && ShouldContinue(state.Values())
      requires forall c :: c in chunkIds ==> c in oracle.issued
      requires StoreInv(state.Values(), chunkIds, oracle.issued)
      requires state.consolidatedFindings == []
      requires steps <= 4 * |state.processedChunks| + 2
      modifies state, oracle
      ensures oracle.Valid() && old(oracle.issued) <= oracle.issued
      ensures after <= limit
      ensures err.Some? ==> err.value != MissingDocument
      ensures err == Some(RecursionLimitReached) ==> limit < 4 * |contents| + 2
      ensures err.Some? && err.value.DanglingFinding? ==> StopsAtUnknown(old(state.Values()), err, steps, limit, llm)
      ensures !(err.Some? && err.value.DanglingFinding?) ==> steps < limit ==> Resolves(old(state.Values()), llm)
      ensures err.Some? || Advanced(old(state.Values()), state.Values(), newIds, contents, chunkIds, oracle.issued, llm)
      ensures err.None? ==>
        && NoDup(newIds) && (forall id :: id in newIds ==> id in oracle.issued && id !in old(oracle.issued))
        && steps + 3 <= after <= steps + 4
    {
      newIds := [];
      ghost var before := state.Values();
      assert |state.processedChunks| < |contents| by {
        assert |Contents(Lineup(before))| == |Lineup(before)|;
      }
      if steps == limit {
        return Some(RecursionLimitReached), steps, newIds;
      }
      after := steps + 1;
      ChunkProcessor(state, llm);
      AnalysedChangesOnlyAnalysis(before, llm);
      SelfWriteHarmless(state.Values(), chunkIds, oracle.issued);
      WriteWholeState(state);
      var routed := PostProcessingRouter(state);
      if routed.Failure? {
        return Some(DanglingFinding(routed.error.id)), after, newIds;
      }
      var items := routed.value;
      assert items == Plan(before, llm);
      if after == limit {
        return Some(RecursionLimitReached), after, newIds;
      }
      after := after + 1;
      var chunk := state.currentChunk.value;
      RoutedFindingsAreStored(chunk, chunk.analysis.value, state.findings);
      forall i | 0 <= i < |items| && items[i].UpdateItem?
        ensures Resolved(items[i], state.findings)
      {
        InIds(state.findings, items[i].finding.value);
      }
      newIds := RunBranches(state, items, chunkIds);
      if items != [SinkItem] {
        if after == limit {
          return Some(RecursionLimitReached), after, newIds;
        }
        after := after + 1;
      }
      // next_chunk_preparer
      if after == limit {
        return Some(RecursionLimitReached), after, newIds;
      }
      after := after + 1;
      FileChunk(state, before, newIds, contents, chunkIds, oracle.issued);
      err := None;
    }

    /** The `next_chunk_preparer` superstep after a chunk's branches are
        joined: the chunk is filed, the next one is taken, and the round
        is complete. */
    method FileChunk(state: RunState, ghost s: Snapshot, ghost ids: seq<string>, ghost contents: seq<string>,
                     ghost chunkIds: seq<string>, ghost issued: set<string>)
      requires ChunksInv(s, contents, chunkIds) && s.consolidatedFindings == []
      requires BranchesDone(s, state.Values(), ids, chunkIds, issued, llm)
      modifies state
      ensures Advanced(s, state.Values(), ids, contents, chunkIds, issued, llm)
    {
      ghost var t := state.Values();
      NextChunkPreparer(state);
      WriteWholeState(state);
      PrepareStep(s, t, state.Values(), ids, llm, contents, chunkIds, issued);
    }

    /** The loop of the graph: while `should_continue` holds, one chunk is
        analysed, its branches are joined and the preparer files it and
        takes the next. Each pass takes three or four supersteps. */
    method ScanChunks(state: RunState, steps: nat, limit: nat, ghost contents: seq<string>, ghost chunkIds: seq<string>)
      returns (err: Option<RunError>, after: nat, ghost trace: seq<Snapshot>, ghost drawn: seq<seq<string>>)
      requires oracle.Valid() && steps <= limit
      requires ChunksInv(state.Values(), contents, chunkIds) && state.processedChunks == [] && steps == 2
      requires NoDup(chunkIds) && forall c :: c in chunkIds ==> c in oracle.issued
      requires StoreInv(state.Values(), chunkIds, oracle.issued)
      requires state.consolidatedFindings == []
      modifies state, oracle
      ensures oracle.Valid() && old(oracle.issued) <= oracle.issued
      ensures after <= limit
      ensures err.Some? ==> err.value != MissingDocument
      ensures err == Some(RecursionLimitReached) ==> limit < 4 * |contents| + 2
      ensures Rounds(trace, drawn, contents, llm) && trace[0] == old(state.Values())
      ensures err.Some? && err.value.DanglingFinding? ==>
        && |drawn| < |contents|
        && trace[|drawn|].currentChunk.Some? && trace[|drawn|].currentChunk.value.content == contents[|drawn|]
        && !Resolves(trace[|drawn|], llm) && FirstUnknown(trace[|drawn|], llm, err.value.id)
      ensures err.None? ==>
        && |drawn| == |contents| && state.Values() == trace[|drawn|]
        && Ids(state.findings) == Ids(old(state.findings)) + Drawn(drawn)
      ensures err.None? ==>
        && state.chunksQueue == [] && state.currentChunk == None
        && Contents(state.processedChunks) == contents && ChunkIds(state.processedChunks) == chunkIds
        && AllFiled(state.processedChunks)
        && StoreInv(state.Values(), chunkIds, oracle.issued)
        && state.consolidatedFindings == []
        && 3 * |contents| + 2 <= after <= 4 * |contents| + 2
    {
      ghost var n := |contents|;
      after := steps;
      trace := [state.Values()];
      drawn := [];
      while ShouldContinue(state.Values())
        invariant oracle.Valid() && old(oracle.issued) <= oracle.issued
        invariant ChunksInv(state.Values(), contents, chunkIds)
        invariant forall c :: c in chunkIds ==> c in oracle.issued
        invariant StoreInv(state.Values(), chunkIds, oracle.issued)
        invariant state.consolidatedFindings == []
        invariant 3 * |state.processedChunks| + 2 <= after <= 4 * |state.processedChunks| + 2
        invariant after <= limit
        invariant Rounds(trace, drawn, contents, llm) && trace[0] == old(state.Values())
        invariant |drawn| == |state.processedChunks| && trace[|drawn|] == state.Values()
        invariant Ids(state.findings) == Ids(old(state.findings)) + Drawn(drawn)
        decreases |state.chunksQueue| + (if state.currentChunk.Some? then 1 else 0)
      {
        CurrentIsNext(state.Values(), contents, chunkIds);
        var e, next;
        ghost var ids;
        e, next, ids := ScanOne(state, after, limit, contents, chunkIds);
        if e.Some? {
          return e, next, trace, drawn;
        }
        assert Step(trace[|drawn|], ids, state.Values(), contents[|drawn|], llm);
        RoundsSnoc(trace, drawn, contents, llm, ids, state.Values());
        ConcatAssoc(Ids(old(state.findings)), Drawn(drawn), ids);
        trace := trace + [state.Values()];
        drawn := drawn + [ids];
        after := next;
      }
      assert Lineup(state.Values()) == state.processedChunks;
      assert |state.processedChunks| == n by {
        assert |Contents(state.processedChunks)| == |state.processedChunks|;
      }
      err := None;
    }

    /** After the current chunk is analysed, `next_chunk_preparer` and the
        whole-state write keep both invariants and file one more chunk. */
    lemma PrepareStep(s: Snapshot, t: Snapshot, u: Snapshot, ids: seq<string>, llm: Collaborator, contents: seq<string>,
                      chunkIds: seq<string>, issued: set<string>)
      requires ChunksInv(s, contents, chunkIds) && s.consolidatedFindings == []
      requires BranchesDone(s, t, ids, chunkIds, issued, llm)
      requires u == SelfWritten(Prepared(t))
      ensures Advanced(s, u, ids, contents, chunkIds, issued, llm)
    {
      FilingKeepsChunks(s, t, llm, contents, chunkIds);
      PreparedConservesLineup(t);
      SelfWriteHarmless(Prepared(t), chunkIds, issued);
      CurrentIsNext(s, contents, chunkIds);
    }

    /** `paper_summarization_agent.invoke({"chunks": chunks}, {"recursion_limit": limit})`.
        A run over n merged chunks takes between 3n + 3 and 4n + 3
        supersteps, so the limit stops it only when it is below 4n + 3. */
    method Run(chunks: seq<string>, recursionLimit: nat)
      returns (outcome: Result<Snapshot, RunError>, steps: nat, ghost trace: seq<Snapshot>, ghost drawn: seq<seq<string>>)
      requires oracle.Valid()
      modifies oracle
      ensures oracle.Valid()
      ensures steps <= recursionLimit
      ensures outcome.Failure? ==> outcome.error != MissingDocument
      ensures outcome == Failure(RecursionLimitReached) ==> recursionLimit < 4 * |MergedChunks(chunks)| + 3
      ensures Explains(outcome, trace, drawn, MergedChunks(chunks), llm)
      ensures outcome.Failure? || Finished(outcome.value, MergedChunks(chunks), llm)
      ensures outcome.Success? ==> 3 * |MergedChunks(chunks)| + 3 <= steps <= 4 * |MergedChunks(chunks)| + 3
    {
      ghost var contents := MergedChunks(chunks);
      ghost var n := |contents|;
      trace, drawn := [], [];
      steps := 0;
      // chunks_initializer
      if steps == recursionLimit {
        return Failure(RecursionLimitReached), steps, trace, drawn;
      }
      steps := steps + 1;
      var state, chunkIds := Initialize(chunks);
      // next_chunk_preparer
      if steps == recursionLimit {
        return Failure(RecursionLimitReached), steps, trace, drawn;
      }
      steps := steps + 1;
      FirstPreparerKeepsChunks(state.Values(), contents, chunkIds);
      PreparedConservesLineup(state.Values());
      NextChunkPreparer(state);
      SelfWriteHarmless(state.Values(), chunkIds, oracle.issued);
      WriteWholeState(state);
      ghost var start := state.Values();
      assert start.findings == [] && start.metadata == NoMetadata && start.processedChunks == [];
      var err, after;
      err, after, trace, drawn := ScanChunks(state, steps, recursionLimit, contents, chunkIds);
      if err.Some? {
        return Failure(err.value), after, trace, drawn;
      }
      steps := after;
      // findings_consolidator
      if steps == recursionLimit {
        return Failure(RecursionLimitReached), steps, trace, drawn;
      }
      steps := steps + 1;
      Consolidate(state, contents, chunkIds);
      outcome := Success(state.Values());
      RunExplained(state.Values(), trace, drawn, contents, llm);
    }

    /** `run_paper_scanner_v0`: a markdown paper, or else the markdown the
        converter produced for a PDF (`convertedPdf`, `None` when no PDF was
        given), is split into chunks of at most `PaperChunkSize` characters
        and scanned with a limit of `PaperRecursionLimit` supersteps. */
    method RunPaperScanner(markdownPaper: string, convertedPdf: Option<string>, splitter: string -> seq<string>)
      returns (outcome: Result<Snapshot, RunError>, ghost trace: seq<Snapshot>, ghost drawn: seq<seq<string>>)
      requires oracle.Valid()
      modifies oracle
      ensures oracle.Valid()
      ensures outcome == Failure(MissingDocument) <==> markdownPaper == [] && convertedPdf.None?
      ensures markdownPaper != [] || convertedPdf.Some? ==>
        var content := if markdownPaper != [] then markdownPaper else convertedPdf.value;
        var contents := MergedChunks(AllChunks(Sections(content), PaperChunkSize, splitter));
        && Explains(outcome, trace, drawn, contents, llm)
        && (outcome == Failure(RecursionLimitReached) ==> PaperRecursionLimit < 4 * |contents| + 3)
        && (outcome.Success? ==> Finished(outcome.value, contents, llm))
    {
      trace, drawn := [], [];
      if markdownPaper == [] && convertedPdf.None? {
        return Failure(MissingDocument), trace, drawn;
      }
      var content := if markdownPaper != [] then markdownPaper else convertedPdf.value;
      var chunks := MarkdownTextSplit(content, PaperChunkSize, splitter);
      var steps;
      outcome, steps, trace, drawn := Run(chunks, PaperRecursionLimit);
    }
  }
}
