/** The row `store_to_bigquery` builds from a finished run before handing it
    to the warehouse client. The client itself is outside the model; what it
    reports back is a parameter. */
module StoreRun {
  import opened Wrappers
  import opened States
  import opened Loading
  import opened FindingConsolidation
  import opened Agent
  import opened MergeLaws
  import opened FormatInstructions

  // ---------------------------------------------------------------------
  // Input and output records
  // ---------------------------------------------------------------------

  /** The state dict as `store_to_bigquery` reads it: `metadata` must be
      present, the three lists may be absent (`None`). */
  datatype StateDict = StateDict(
    metadata: PaperMetadata,
    findings: Option<seq<Finding>>,
    consolidatedFindings: Option<seq<ConsolidatedEntry>>,
    processedChunks: Option<seq<ChunkInfo>>)

  /** The state a graph run returns: every channel is present. */
  function AsDict(s: Snapshot): StateDict {
    StateDict(s.metadata, Some(s.findings), Some(s.consolidatedFindings), Some(s.processedChunks))
  }

  /** Facts about the run supplied by the caller, stored verbatim. */
  datatype RunMetadata = RunMetadata(
    startExecution: string,
    endExecution: string,
    status: string,
    userName: string,
    version: string)

  datatype MetadataRow = MetadataRow(
    title: Option<string>,
    authors: Option<seq<string>>,
    publicationDate: Option<string>,
    paperAbstract: Option<string>)

  datatype FindingRow = FindingRow(
    id: string,
    title: Option<string>,
    summary: Option<string>,
    methodology: Option<string>,
    sourceChunkIds: seq<string>)

  datatype ConsolidatedRow = ConsolidatedRow(
    id: string,
    title: string,
    summary: string,
    methodology: string,
    keywords: seq<string>)

  datatype ChunkRow = ChunkRow(chunkId: string, content: string)

  datatype Row = Row(
    metadata: MetadataRow,
    rawFindings: seq<FindingRow>,
    consolidatedFindings: seq<ConsolidatedRow>,
    chunks: seq<ChunkRow>,
    runMetadata: RunMetadata)

  // ---------------------------------------------------------------------
  // dict.get
  // ---------------------------------------------------------------------

  /** `d.get(k)`: an absent key and a stored `None` both read as `None`. */
  function Get<T>(s: Slot<T>): Option<T> {
    match s
    case Val(v) => Some(v)
    case _ => None
  }

  /** `d.get(k, default)`: only an absent key yields the default. */
  function GetOr<T>(s: Slot<T>, default: T): Option<T> {
    match s
    case Missing => Some(default)
    case Null => None
    case Val(v) => Some(v)
  }

  /** `state.get(k, [])` for the three list channels. */
  function Listed<T>(o: Option<seq<T>>): seq<T> {
    if o.Some? then o.value else []
  }

  // ---------------------------------------------------------------------
  // Building the row
  // ---------------------------------------------------------------------

  function MetadataRowOf(m: PaperMetadata): MetadataRow {
    MetadataRow(Get(m.title), GetOr(m.authors, []), Get(m.publicationDate), Get(m.paperAbstract))
  }

  function FindingRowOf(f: Finding): FindingRow {
    FindingRow(f.id, f.title, f.summary, f.methodology, f.sourceChunkIds)
  }

  function ConsolidatedRowOf(e: ConsolidatedEntry): ConsolidatedRow {
    ConsolidatedRow(e.id, e.title, e.summary, e.methodology, e.keywords)
  }

  function ChunkRowOf(c: ChunkInfo): ChunkRow {
    ChunkRow(c.chunkId, c.content)
  }

  function RowIds(rows: seq<FindingRow>): seq<string> {
    seq(|rows|, i requires 0 <= i < |rows| => rows[i].id)
  }

  function RowChunkIds(rows: seq<ChunkRow>): seq<string> {
    seq(|rows|, i requires 0 <= i < |rows| => rows[i].chunkId)
  }

  function RowContents(rows: seq<ChunkRow>): seq<string> {
    seq(|rows|, i requires 0 <= i < |rows| => rows[i].content)
  }

  /** The row: one entry per finding, consolidated finding and processed
      chunk, in the order the state lists them, and the run facts as given. */
  function StoredRow(state: StateDict, run: RunMetadata): (r: Row)
    ensures r.runMetadata == run
    ensures r.metadata == MetadataRowOf(state.metadata)
    ensures |r.rawFindings| == |Listed(state.findings)|
    ensures RowIds(r.rawFindings) == Ids(Listed(state.findings))
    ensures |r.consolidatedFindings| == |Listed(state.consolidatedFindings)|
    ensures RowChunkIds(r.chunks) == ChunkIds(Listed(state.processedChunks))
    ensures RowContents(r.chunks) == Contents(Listed(state.processedChunks))
  {
    var fs := Listed(state.findings);
    var cs := Listed(state.consolidatedFindings);
    var ps := Listed(state.processedChunks);
    Row(
      MetadataRowOf(state.metadata),
      seq(|fs|, i requires 0 <= i < |fs| => FindingRowOf(fs[i])),
      seq(|cs|, i requires 0 <= i < |cs| => ConsolidatedRowOf(cs[i])),
      seq(|ps|, i requires 0 <= i < |ps| => ChunkRowOf(ps[i])),
      run)
  }

  /** `store_to_bigquery`: builds the row and inserts it; `insertErrors` is
      what the client reported, and any error is raised. Its two cases are
      its definition; the content of the row is `StoredRow`'s. */
  function StoreToBigquery(state: StateDict, run: RunMetadata, insertErrors: seq<string>)
    : (r: Result<Row, seq<string>>)
    ensures r.Success? <==> insertErrors == []
    ensures r.Success? ==> r.value == StoredRow(state, run)
    ensures r.Failure? ==> r.error == insertErrors
  {
    if insertErrors != [] then Failure(insertErrors) else Success(StoredRow(state, run))
  }

  // ---------------------------------------------------------------------
  // Reading a row back
  // ---------------------------------------------------------------------

  /** A metadata dict rebuilt from its row (`None` is stored as `None`). */
  function MetadataFromRow(r: MetadataRow, sources: Option<seq<string>>): PaperMetadata {
    PaperMetadata(
      if r.title.Some? then Val(r.title.value) else Null,
      if r.authors.Some? then Val(r.authors.value) else Null,
      if r.publicationDate.Some? then Val(r.publicationDate.value) else Null,
      if r.paperAbstract.Some? then Val(r.paperAbstract.value) else Null,
      sources)
  }

  function FindingFromRow(r: FindingRow, keywords: Option<seq<string>>): Finding {
    Finding(r.id, r.title, r.summary, r.methodology, keywords, r.sourceChunkIds)
  }

  function EntryFromRow(r: ConsolidatedRow): ConsolidatedEntry {
    ConsolidatedEntry(r.id, r.title, r.summary, r.methodology, r.keywords)
  }

  // ---------------------------------------------------------------------
  // Properties
  // ---------------------------------------------------------------------

  /** A title, date or abstract is copied when set and `None` otherwise; the
      authors default to `[]` only when the key is absent. */
  lemma MetadataCopied(m: PaperMetadata)
    ensures var r := MetadataRowOf(m);
      && (r.title.Some? <==> m.title.Val?)
      && (m.title.Val? ==> r.title.value == m.title.value)
      && (r.publicationDate.Some? <==> m.publicationDate.Val?)
      && (m.publicationDate.Val? ==> r.publicationDate.value == m.publicationDate.value)
      && (r.paperAbstract.Some? <==> m.paperAbstract.Val?)
      && (m.paperAbstract.Val? ==> r.paperAbstract.value == m.paperAbstract.value)
      && (m.authors.Missing? ==> r.authors == Some([]))
      && (m.authors.Null? ==> r.authors == None)
      && (m.authors.Val? ==> r.authors == Some(m.authors.value))
  {
  }

  /** Every metadata dict the reducer has written holds all keys, so its row
      loses nothing but the source chunk ids. */
  lemma SettledMetadataRoundTrip(m: PaperMetadata)
    requires Settled(m)
    ensures MetadataFromRow(MetadataRowOf(m), m.sourceChunkIds) == m
  {
  }

  /** Without the settled keys the row cannot tell an absent title from a
      stored `None`. */
  lemma AbsentAndNullTitleAlike(m: PaperMetadata)
    requires m.title.Missing?
    ensures MetadataRowOf(m).title == MetadataRowOf(m.(title := Null)).title
    ensures m != m.(title := Null)
  {
  }

  /** The raw-finding rows and the findings' keywords give back the findings. */
  lemma FindingRowsRoundTrip(state: StateDict, run: RunMetadata)
    ensures var fs := Listed(state.findings);
      var rows := StoredRow(state, run).rawFindings;
      |rows| == |fs| &&
      forall i :: 0 <= i < |fs| ==> FindingFromRow(rows[i], fs[i].keywords) == fs[i]
  {
  }

  /** The consolidated rows give back the consolidated findings exactly. */
  lemma ConsolidatedRowsRoundTrip(state: StateDict, run: RunMetadata)
    ensures var cs := Listed(state.consolidatedFindings);
      var rows := StoredRow(state, run).consolidatedFindings;
      seq(|rows|, i requires 0 <= i < |rows| => EntryFromRow(rows[i])) == cs
  {
    var cs := Listed(state.consolidatedFindings);
    var rows := StoredRow(state, run).consolidatedFindings;
    assert forall i :: 0 <= i < |rows| ==> EntryFromRow(rows[i]) == cs[i];
  }

  /** The stored chunks are the processed chunks only: nothing still queued
      or in flight is written. */
  lemma ChunksFromProcessedOnly(s: Snapshot, run: RunMetadata)
    ensures var rows := StoredRow(AsDict(s), run).chunks;
      && RowChunkIds(rows) == ChunkIds(s.processedChunks)
      && RowContents(rows) == Contents(s.processedChunks)
      && StoredRow(AsDict(s), run) == StoredRow(AsDict(s.(chunksQueue := [], currentChunk := None)), run)
  {
  }

  /** Absent lists are stored as empty lists. */
  lemma AbsentListsAreEmpty(m: PaperMetadata, run: RunMetadata)
    ensures var r := StoredRow(StateDict(m, None, None, None), run);
      r.rawFindings == [] && r.consolidatedFindings == [] && r.chunks == []
  {
  }

  /** The row of a finished run: the chunk rows hold the whole paper in
      order under distinct ids, raw findings have distinct ids none of which
      is a chunk id, and the metadata authors are never the `[]` default. */
  lemma FinishedRunRow(s: Snapshot, contents: seq<string>, llm: Collaborator, run: RunMetadata)
    requires Finished(s, contents, llm)
    ensures var r := StoredRow(AsDict(s), run);
      && RowContents(r.chunks) == contents
      && NoDup(RowChunkIds(r.chunks))
      && NoDup(RowIds(r.rawFindings))
      && (forall id :: id in RowIds(r.rawFindings) ==> id !in RowChunkIds(r.chunks))
      && (r.metadata.authors.Some? <==> s.metadata.authors.Val?)
      && r.runMetadata == run
  {
  }
}
