/** The run state records and the two reducers the graph applies to its
    `findings` and `metadata` channels. */
module States {
  import opened Wrappers
  import opened FormatInstructions

  // ---------------------------------------------------------------------
  // Records
  // ---------------------------------------------------------------------

  datatype ChunkStatus = Pending | Processed | Failed

  /** One chunk of the paper; `analysis` is attached by the chunk processor. */
  datatype ChunkInfo = ChunkInfo(
    chunkId: string,
    content: string,
    status: ChunkStatus,
    analysis: Option<ChunkAnalysis>)

  /** A key of a Python dict: absent, present with `None`, or present with a value. */
  datatype Slot<+T> = Missing | Null | Val(value: T)

  /** Python truthiness of a string or list stored under a dict key. */
  predicate Truthy<T>(s: Slot<seq<T>>) {
    s.Val? && |s.value| > 0
  }

  /** Python truthiness of an optional string or list. */
  predicate Filled<T>(o: Option<seq<T>>) {
    o.Some? && |o.value| > 0
  }

  /** Paper-level metadata. The four paper fields are dict keys that may be
      absent; `sourceChunkIds` is `None` when the key is absent. */
  datatype PaperMetadata = PaperMetadata(
    title: Slot<string>,
    authors: Slot<seq<string>>,
    publicationDate: Slot<string>,
    paperAbstract: Slot<string>,
    sourceChunkIds: Option<seq<string>>)

  /** `PaperMetadata()`: an empty dict. */
  const EmptyMetadata := PaperMetadata(Missing, Missing, Missing, Missing, None)

  /** A finding, or a finding delta. Text fields are `None` when absent or
      `None`; `keywords` is `None` when the key is absent. */
  datatype Finding = Finding(
    id: string,
    title: Option<string>,
    summary: Option<string>,
    methodology: Option<string>,
    keywords: Option<seq<string>>,
    sourceChunkIds: seq<string>)

  /** A consolidated finding with the id the consolidator assigned to it. */
  datatype ConsolidatedEntry = ConsolidatedEntry(
    id: string,
    title: string,
    summary: string,
    methodology: string,
    keywords: seq<string>)

  /** The partial state a fan-out node returns: only the channels it writes. */
  datatype Update = Update(findings: Option<seq<Finding>>, metadata: Option<PaperMetadata>)

  /** The values held by the state channels at one point of a run. */
  datatype Snapshot = Snapshot(
    metadata: PaperMetadata,
    findings: seq<Finding>,
    consolidatedFindings: seq<ConsolidatedEntry>,
    chunksQueue: seq<ChunkInfo>,
    currentChunk: Option<ChunkInfo>,
    processedChunks: seq<ChunkInfo>)

  /** The mutable run state (`OverallState`), owned by the controller. */
  class RunState {
    var metadata: PaperMetadata
    var findings: seq<Finding>
    var consolidatedFindings: seq<ConsolidatedEntry>
    var chunksQueue: seq<ChunkInfo>
    var currentChunk: Option<ChunkInfo>
    var processedChunks: seq<ChunkInfo>

    /** `OverallState()`: every channel at its empty value. */
    constructor ()
      ensures metadata == EmptyMetadata && findings == [] && consolidatedFindings == []
      ensures chunksQueue == [] && currentChunk == None && processedChunks == []
    {
      metadata := EmptyMetadata;
      findings := [];
      consolidatedFindings := [];
      chunksQueue := [];
      currentChunk := None;
      processedChunks := [];
    }

    function Values(): Snapshot
      reads this
    {
      Snapshot(metadata, findings, consolidatedFindings, chunksQueue, currentChunk, processedChunks)
    }
  }

  // ---------------------------------------------------------------------
  // Duplicate-free lists (`list(set(...))`)
  // ---------------------------------------------------------------------

  predicate NoDup<T(==)>(s: seq<T>) {
    forall i, j :: 0 <= i < j < |s| ==> s[i] != s[j]
  }

  lemma NoDupSnoc<T>(s: seq<T>, x: T)
    requires NoDup(s) && x !in s
    ensures NoDup(s + [x])
  {
  }

  /** `list(set(s))`. Python leaves the order unspecified; the model keeps
      first occurrences in order. */
  function Dedup(s: seq<string>): (r: seq<string>)
    ensures NoDup(r)
    ensures forall x :: x in r <==> x in s
    ensures |r| <= |s|
  {
    if s == [] then []
    else
      var p := Dedup(s[..|s| - 1]);
      if s[|s| - 1] in p then p else p + [s[|s| - 1]]
  }

  /** Deduplicating a list extended by one element. */
  lemma DedupSnoc(s: seq<string>, x: string)
    ensures Dedup(s + [x]) == if x in Dedup(s) then Dedup(s) else Dedup(s) + [x]
  {
    assert (s + [x])[..|s|] == s;
  }

  /** A duplicate-free list is its own deduplication. */
  lemma {:induction false} DedupNoDup(s: seq<string>)
    requires NoDup(s)
    ensures Dedup(s) == s
    decreases |s|
  {
    if s != [] {
      var p := s[..|s| - 1];
      DedupNoDup(p);
      assert s[|s| - 1] !in p;
      assert p + [s[|s| - 1]] == s;
    }
  }

  /** Deduplicating a duplicate-free list extended by some of its own
      elements gives the list back. */
  lemma {:induction false} DedupAbsorbs(s: seq<string>, t: seq<string>)
    requires NoDup(s)
    requires forall x :: x in t ==> x in s
    ensures Dedup(s + t) == s
    decreases |t|
  {
    if t == [] {
      assert s + t == s;
      DedupNoDup(s);
    } else {
      var u := s + t;
      assert u[..|u| - 1] == s + t[..|t| - 1];
      DedupAbsorbs(s, t[..|t| - 1]);
      assert t[|t| - 1] in t;
    }
  }

  // ---------------------------------------------------------------------
  // merge_metadata
  // ---------------------------------------------------------------------

  function SourceIds(m: PaperMetadata): seq<string> {
    if m.sourceChunkIds.Some? then m.sourceChunkIds.value else []
  }

  /** `existing.get(k) if existing.get(k) else new.get(k)`, stored back
      under `k` (an absent key reads as `None`). */
  function Pick<T>(existing: Slot<seq<T>>, incoming: Slot<seq<T>>): Slot<seq<T>> {
    if Truthy(existing) then existing
    else if incoming.Missing? then Null
    else incoming
  }

  /** A metadata dict holding all five keys, as every merge result does. */
  predicate Settled(m: PaperMetadata) {
    !m.title.Missing? && !m.authors.Missing? && !m.publicationDate.Missing?
    && !m.paperAbstract.Missing? && m.sourceChunkIds.Some?
  }

  /** The reducer of the `metadata` channel: first writer wins per field. */
  function MergeMetadata(existing: PaperMetadata, incoming: PaperMetadata): (r: PaperMetadata)
    ensures Settled(r)
    ensures Truthy(existing.title) ==> r.title == existing.title
    ensures Truthy(existing.authors) ==> r.authors == existing.authors
    ensures Truthy(existing.publicationDate) ==> r.publicationDate == existing.publicationDate
    ensures Truthy(existing.paperAbstract) ==> r.paperAbstract == existing.paperAbstract
    ensures !Truthy(existing.title) && incoming.title.Val? ==> r.title == incoming.title
    ensures !Truthy(existing.authors) && incoming.authors.Val? ==> r.authors == incoming.authors
    ensures !Truthy(existing.publicationDate) && incoming.publicationDate.Val? ==> r.publicationDate == incoming.publicationDate
    ensures !Truthy(existing.paperAbstract) && incoming.paperAbstract.Val? ==> r.paperAbstract == incoming.paperAbstract
    ensures !Truthy(existing.title) && !incoming.title.Val? ==> r.title == Null
    ensures !Truthy(existing.authors) && !incoming.authors.Val? ==> r.authors == Null
    ensures !Truthy(existing.publicationDate) && !incoming.publicationDate.Val? ==> r.publicationDate == Null
    ensures !Truthy(existing.paperAbstract) && !incoming.paperAbstract.Val? ==> r.paperAbstract == Null
    ensures r.sourceChunkIds == Some(SourceIds(existing) + SourceIds(incoming))
  {
    PaperMetadata(
      Pick(existing.title, incoming.title),
      Pick(existing.authors, incoming.authors),
      Pick(existing.publicationDate, incoming.publicationDate),
      Pick(existing.paperAbstract, incoming.paperAbstract),
      Some(SourceIds(existing) + SourceIds(incoming)))
  }

  /** The channel value after a sequence of metadata writes. */
  function MergeAllMetadata(m: PaperMetadata, deltas: seq<PaperMetadata>): PaperMetadata
    decreases |deltas|
  {
    if deltas == [] then m else MergeAllMetadata(MergeMetadata(m, deltas[0]), deltas[1..])
  }

  // ---------------------------------------------------------------------
  // merge_findings
  // ---------------------------------------------------------------------

  function Ids(fs: seq<Finding>): seq<string> {
    seq(|fs|, i requires 0 <= i < |fs| => fs[i].id)
  }

  /** The id-keyed dict `merge_findings` builds: keys in insertion order. */
  datatype FindingTable = FindingTable(keys: seq<string>, entries: map<string, Finding>)

  predicate TableOk(t: FindingTable) {
    && NoDup(t.keys)
    && (forall k :: k in t.entries ==> k in t.keys)
    && (forall k :: k in t.keys ==> k in t.entries)
    && (forall k :: k in t.entries ==> t.entries[k].id == k)
  }

  /** `d[f["id"]] = f`: a new key goes last, an existing key keeps its place. */
  function Put(t: FindingTable, f: Finding): (r: FindingTable)
    requires TableOk(t)
    ensures TableOk(r)
  {
    FindingTable(if f.id in t.entries then t.keys else t.keys + [f.id], t.entries[f.id := f])
  }

  /** `{f["id"]: f for f in fs}`. */
  function Index(fs: seq<Finding>): (r: FindingTable)
    ensures TableOk(r)
  {
    if fs == [] then FindingTable([], map[]) else Put(Index(fs[..|fs| - 1]), fs[|fs| - 1])
  }

  /** A stored finding amended by a delta with the same id. */
  function Amend(stored: Finding, delta: Finding): Finding {
    Finding(
      stored.id,
      if Filled(delta.title) then delta.title else stored.title,
      if Filled(delta.summary) then delta.summary else stored.summary,
      if Filled(delta.methodology) then delta.methodology else stored.methodology,
      if delta.keywords.Some? && stored.keywords.Some? then Some(Dedup(stored.keywords.value + delta.keywords.value))
      else if delta.keywords.Some? then delta.keywords
      else stored.keywords,
      Dedup(stored.sourceChunkIds + delta.sourceChunkIds))
  }

  /** A delta inserted under a new id, with `keywords` defaulted to `[]`. */
  function WithKeywords(delta: Finding): Finding {
    if delta.keywords.None? then delta.(keywords := Some([])) else delta
  }

  /** One iteration of the `merge_findings` loop. */
  function Upsert(t: FindingTable, delta: Finding): (r: FindingTable)
    requires TableOk(t)
    ensures TableOk(r)
  {
    if delta.id in t.entries then
      FindingTable(t.keys, t.entries[delta.id := Amend(t.entries[delta.id], delta)])
    else
      Put(t, WithKeywords(delta))
  }

  function UpsertAll(t: FindingTable, deltas: seq<Finding>): (r: FindingTable)
    requires TableOk(t)
    ensures TableOk(r)
  {
    if deltas == [] then t else Upsert(UpsertAll(t, deltas[..|deltas| - 1]), deltas[|deltas| - 1])
  }

  /** `list(d.values())`: the entries in key order. */
  function Listing(t: FindingTable): (r: seq<Finding>)
    requires forall k :: k in t.keys ==> k in t.entries
    ensures |r| == |t.keys|
    ensures forall j :: 0 <= j < |t.keys| ==> r[j] == t.entries[t.keys[j]]
    decreases |t.keys|
  {
    if t.keys == [] then [] else [t.entries[t.keys[0]]] + Listing(FindingTable(t.keys[1..], t.entries))
  }

  /** The result of `merge_findings(existing, incoming)`. */
  function Merged(existing: seq<Finding>, incoming: seq<Finding>): seq<Finding> {
    Listing(UpsertAll(Index(existing), incoming))
  }

  /** The reducer of the `findings` channel: an id-keyed upsert. */
  method MergeFindings(existing: seq<Finding>, incoming: seq<Finding>) returns (merged: seq<Finding>)
    ensures merged == Merged(existing, incoming)
  {
    var table := Index(existing);
    for i := 0 to |incoming|
      invariant TableOk(table)
      invariant table == UpsertAll(Index(existing), incoming[..i])
    {
      var finding := incoming[i];
      UpsertAllStep(Index(existing), incoming, i);
      if finding.id in table.entries {
        var stored := table.entries[finding.id];
        var title, summary, methodology := stored.title, stored.summary, stored.methodology;
        if Filled(finding.title) { title := finding.title; }
        if Filled(finding.summary) { summary := finding.summary; }
        if Filled(finding.methodology) { methodology := finding.methodology; }
        var keywords := stored.keywords;
        if finding.keywords.Some? && stored.keywords.Some? {
          keywords := Some(Dedup(stored.keywords.value + finding.keywords.value));
        } else if finding.keywords.Some? {
          keywords := finding.keywords;
        }
        var sources := Dedup(stored.sourceChunkIds + finding.sourceChunkIds);
        var amended := Finding(stored.id, title, summary, methodology, keywords, sources);
        table := FindingTable(table.keys, table.entries[finding.id := amended]);
      } else {
        if finding.keywords.None? {
          finding := finding.(keywords := Some([]));
        }
        table := FindingTable(table.keys + [finding.id], table.entries[finding.id := finding]);
      }
    }
    assert incoming[..|incoming|] == incoming;
    merged := Listing(table);
  }

  /** One more delta is one more upsert. */
  lemma UpsertAllStep(t: FindingTable, ds: seq<Finding>, i: nat)
    requires TableOk(t) && i < |ds|
    ensures UpsertAll(t, ds[..i + 1]) == Upsert(UpsertAll(t, ds[..i]), ds[i])
  {
    assert ds[..i + 1][..i] == ds[..i];
  }
}
