/** Chunk analysis and routing: `chunk_processor` (the findings rendering
    and the attachment of the analysis), `search_finding_by_id` and
    `post_processing_router`. */
module Processing {
  import opened Wrappers
  import opened Text
  import opened FormatInstructions
  import opened States

  // ---------------------------------------------------------------------
  // Rendering the known findings for the discovery prompt
  // ---------------------------------------------------------------------

  /** An optional text inside an f-string: `None` prints as "None". */
  function Show(o: Option<string>): string {
    if o.Some? then o.value else "None"
  }

  function FindingBlock(f: Finding): string {
    "Id: " + f.id + "\nTitle: " + Show(f.title) + "\nSummary: " + Show(f.summary) + "\n\n"
  }

  /** `"".join(blocks)`, one block per finding in list order. */
  function RenderFindings(fs: seq<Finding>): string
    decreases |fs|
  {
    if fs == [] then "" else FindingBlock(fs[0]) + RenderFindings(fs[1..])
  }

  const NoFindingsYet := "No existing findings yet"

  /** The `existing_findings` prompt input. */
  function ExistingFindingsText(fs: seq<Finding>): (r: string)
    ensures fs == [] <==> r == NoFindingsYet
    ensures fs != [] ==> |r| >= 4 && r[..4] == "Id: "
  {
    if |fs| == 0 then NoFindingsYet
    else
      var r := RenderFindings(fs);
      assert r == FindingBlock(fs[0]) + RenderFindings(fs[1..]);
      assert r[..4] == "Id: ";
      assert NoFindingsYet[..4][0] == 'N';
      r
  }

  /** The rendering of a concatenation is the concatenation of the
      renderings. */
  lemma {:induction false} RenderAppend(a: seq<Finding>, b: seq<Finding>)
    ensures RenderFindings(a + b) == RenderFindings(a) + RenderFindings(b)
    decreases |a|
  {
    if a == [] {
      AppendEmpty(b);
    } else {
      TailOfAppend(a, b);
      RenderAppend(a[1..], b);
      ConcatAssoc(FindingBlock(a[0]), RenderFindings(a[1..]), RenderFindings(b));
    }
  }

  /** The rendering is block by block: finding `i` is rendered right after
      the findings before it and right before the findings after it. */
  lemma RenderFindingsAt(fs: seq<Finding>, i: nat)
    requires i < |fs|
    ensures RenderFindings(fs) == RenderFindings(fs[..i]) + FindingBlock(fs[i]) + RenderFindings(fs[i + 1..])
  {
    var rest := [fs[i]] + fs[i + 1..];
    SplitAround(fs, i);
    RenderAppend(fs[..i], rest);
    ConcatAssoc(RenderFindings(fs[..i]), FindingBlock(fs[i]), RenderFindings(fs[i + 1..]));
  }

  // ---------------------------------------------------------------------
  // chunk_processor
  // ---------------------------------------------------------------------

  /** The state after `chunk_processor`: the collaborator's analysis of the
      current chunk, given the rendered findings, is attached to it. */
  function Analysed(s: Snapshot, llm: Collaborator): Snapshot
    requires s.currentChunk.Some?
  {
    var c := s.currentChunk.value;
    s.(currentChunk := Some(c.(analysis := Some(llm.analyse(c.content, ExistingFindingsText(s.findings))))))
  }

  /** `chunk_processor`: analyses the current chunk and attaches the result. */
  method ChunkProcessor(state: RunState, llm: Collaborator)
    requires state.currentChunk.Some?
    modifies state
    ensures state.Values() == Analysed(old(state.Values()), llm)
  {
    var current := state.currentChunk.value;
    var existingFindings := ExistingFindingsText(state.findings);
    var analysis := llm.analyse(current.content, existingFindings);
    state.currentChunk := Some(current.(analysis := Some(analysis)));
  }

  /** The processor changes nothing but the analysis of the current chunk:
      its id, content and status, and every other channel, stay as they were. */
  lemma AnalysedChangesOnlyAnalysis(s: Snapshot, llm: Collaborator)
    requires s.currentChunk.Some?
    ensures var t := Analysed(s, llm);
      && t.metadata == s.metadata && t.findings == s.findings
      && t.consolidatedFindings == s.consolidatedFindings
      && t.chunksQueue == s.chunksQueue && t.processedChunks == s.processedChunks
      && t.currentChunk.Some? && t.currentChunk.value.analysis.Some?
      && t.currentChunk.value.(analysis := None) == s.currentChunk.value.(analysis := None)
  {
  }

  // ---------------------------------------------------------------------
  // search_finding_by_id
  // ---------------------------------------------------------------------

  /** The first finding with the given id, if any. */
  function SearchFindingById(fs: seq<Finding>, id: string): (r: Option<Finding>)
    ensures r.None? <==> forall j :: 0 <= j < |fs| ==> fs[j].id != id
    ensures r.Some? ==> exists i :: 0 <= i < |fs| && fs[i] == r.value && r.value.id == id
                                    && forall j :: 0 <= j < i ==> fs[j].id != id
    decreases |fs|
  {
    if fs == [] then None
    else if fs[0].id == id then Some(fs[0])
    else
      var r := SearchFindingById(fs[1..], id);
      assert r.Some? ==> exists i :: 0 <= i < |fs| && fs[i] == r.value && r.value.id == id
                                    && forall j :: 0 <= j < i ==> fs[j].id != id by {
        if r.Some? {
          var k :| 0 <= k < |fs[1..]| && fs[1..][k] == r.value && r.value.id == id
                    && forall j :: 0 <= j < k ==> fs[1..][j].id != id;
          assert fs[k + 1] == r.value;
          assert forall j :: 0 <= j < k + 1 ==> fs[j].id != id by {
            forall j | 0 <= j < k + 1 ensures fs[j].id != id {
              if j > 0 { assert fs[j] == fs[1..][j - 1]; }
            }
          }
        }
      }
      r
  }

  // ---------------------------------------------------------------------
  // post_processing_router
  // ---------------------------------------------------------------------

  /** One `Send` of the router: the node it targets and its payload. The
      sink's payload (the whole state) is irrelevant to the no-op join. */
  datatype WorkItem =
    | UpdateItem(chunk: ChunkInfo, finding: Option<Finding>, whatToUpdate: string)
    | CreateItem(chunk: ChunkInfo, title: string, description: string)
    | MetadataItem(metadata: AnalysisMetadata)
    | SinkItem

  /** `any(metadata.values())`: some value of the analysis metadata is
      truthy, the required `reasoning` string included. */
  predicate AnyMetadataValue(m: AnalysisMetadata) {
    |m.reasoning| > 0 || Filled(m.title) || Filled(m.authors)
    || Filled(m.publicationDate) || Filled(m.paperAbstract)
  }

  function UpdateItems(chunk: ChunkInfo, fs: seq<Finding>, ds: seq<UpdateDirective>): seq<WorkItem> {
    seq(|ds|, i requires 0 <= i < |ds| => UpdateItem(chunk, SearchFindingById(fs, ds[i].id), ds[i].whatToUpdate))
  }

  function CreateItems(chunk: ChunkInfo, ps: seq<NewFindingProposal>): seq<WorkItem> {
    seq(|ps|, i requires 0 <= i < |ps| => CreateItem(chunk, ps[i].title, ps[i].description))
  }

  /** The work items the router emits as written: the missing-id guard
      tests the directive instead of the looked-up finding, so an unknown
      id yields an update item carrying `None`. */
  function RouteAsWritten(chunk: ChunkInfo, a: ChunkAnalysis, fs: seq<Finding>): seq<WorkItem> {
    var items := UpdateItems(chunk, fs, a.findings.findingsUpdates)
      + CreateItems(chunk, a.findings.newFindings)
      + (if AnyMetadataValue(a.metadata) then [MetadataItem(a.metadata)] else []);
    if items == [] then [SinkItem] else items
  }

  /** The routing plan: one update item per directive in directive order,
      then one create item per proposal in proposal order, then the metadata
      item when some metadata value is truthy; the sink alone when there is
      nothing else, so there are max(1, updates + proposals + metadata) items. */
  lemma RouteShape(chunk: ChunkInfo, a: ChunkAnalysis, fs: seq<Finding>)
    ensures var r := RouteAsWritten(chunk, a, fs);
      var ups := a.findings.findingsUpdates;
      var news := a.findings.newFindings;
      var n := |ups| + |news| + (if AnyMetadataValue(a.metadata) then 1 else 0);
      && |r| == (if n == 0 then 1 else n)
      && (SinkItem in r <==> n == 0)
      && (forall i :: 0 <= i < |ups| ==> r[i] == UpdateItem(chunk, SearchFindingById(fs, ups[i].id), ups[i].whatToUpdate))
      && (forall j :: 0 <= j < |news| ==> r[|ups| + j] == CreateItem(chunk, news[j].title, news[j].description))
      && (AnyMetadataValue(a.metadata) ==> r[n - 1] == MetadataItem(a.metadata))
      && (MetadataItem(a.metadata) in r <==> AnyMetadataValue(a.metadata))
  {
    var r := RouteAsWritten(chunk, a, fs);
    var ups := a.findings.findingsUpdates;
    var news := a.findings.newFindings;
    var n := |ups| + |news| + (if AnyMetadataValue(a.metadata) then 1 else 0);
    if n > 0 {
      assert SinkItem !in r by {
        forall i | 0 <= i < |r| ensures r[i] != SinkItem {
          if i < |ups| {
            assert r[i] == UpdateItems(chunk, fs, ups)[i];
          } else if i < |ups| + |news| {
            assert r[i] == CreateItems(chunk, news)[i - |ups|];
          }
        }
      }
      if !AnyMetadataValue(a.metadata) {
        assert MetadataItem(a.metadata) !in r by {
          forall i | 0 <= i < |r| ensures r[i] != MetadataItem(a.metadata) {
            if i < |ups| {
              assert r[i] == UpdateItems(chunk, fs, ups)[i];
            } else {
              assert r[i] == CreateItems(chunk, news)[i - |ups|];
            }
          }
        }
      }
    }
  }

  /** A chunk whose metadata part has only a reasoning still sends a
      metadata item, which writes four `None`s. */
  lemma ReasoningAloneSendsMetadata(chunk: ChunkInfo, fs: seq<Finding>)
    ensures var m := AnalysisMetadata("no metadata in this chunk", None, None, None, None);
      var a := ChunkAnalysis(FindingsDetails("", [], []), m);
      RouteAsWritten(chunk, a, fs) == [MetadataItem(m)]
  {
  }

  /** An update directive naming an id no stored finding has passes the
      guard and produces an update item carrying `None`. */
  lemma UnknownIdSlipsThrough(chunk: ChunkInfo)
    ensures var stored := [Finding("Y", Some("t"), Some("s"), Some("m"), Some([]), [])];
      var a := ChunkAnalysis(FindingsDetails("", [UpdateDirective("X", "more detail")], []),
                             AnalysisMetadata("", None, None, None, None));
      RouteAsWritten(chunk, a, stored) == [UpdateItem(chunk, None, "more detail")]
  {
    var stored := [Finding("Y", Some("t"), Some("s"), Some("m"), Some([]), [])];
    assert SearchFindingById(stored, "X") == None;
  }

  /** Why routing can fail: a directive names an id that is not stored. */
  datatype RouteError = FindingNotFound(id: string)

  /** Every directive names a stored finding. */
  predicate AllResolve(fs: seq<Finding>, ds: seq<UpdateDirective>) {
    forall i :: 0 <= i < |ds| ==> SearchFindingById(fs, ds[i].id).Some?
  }

  /** `post_processing_router` with the guard on the looked-up finding, as
      its error message intends: an unknown id stops routing with an error
      naming the first such directive; otherwise the plan is the one above,
      and every update item carries the finding it amends. */
  method PostProcessingRouter(state: RunState) returns (r: Result<seq<WorkItem>, RouteError>)
    requires state.currentChunk.Some? && state.currentChunk.value.analysis.Some?
    ensures var chunk := state.currentChunk.value;
      var a := chunk.analysis.value;
      var ds := a.findings.findingsUpdates;
      && (r.Success? <==> AllResolve(state.findings, ds))
      && (r.Success? ==> r.value == RouteAsWritten(chunk, a, state.findings))
      && (r.Success? ==> forall i :: 0 <= i < |r.value| && r.value[i].UpdateItem? ==> r.value[i].finding.Some?)
      && (r.Failure? ==> exists k :: 0 <= k < |ds| && r.error == FindingNotFound(ds[k].id)
                          && SearchFindingById(state.findings, ds[k].id).None?
                          && AllResolve(state.findings, ds[..k]))
  {
    var chunk := state.currentChunk.value;
    var a := chunk.analysis.value;
    var ds := a.findings.findingsUpdates;
    var branches: seq<WorkItem> := [];
    for i := 0 to |ds|
      invariant branches == UpdateItems(chunk, state.findings, ds[..i])
      invariant AllResolve(state.findings, ds[..i])
    {
      var existing := SearchFindingById(state.findings, ds[i].id);
      if existing.None? {
        assert ds[..i + 1][..i] == ds[..i];
        return Failure(FindingNotFound(ds[i].id));
      }
      branches := branches + [UpdateItem(chunk, existing, ds[i].whatToUpdate)];
      assert ds[..i + 1][..i] == ds[..i];
    }
    assert ds[..|ds|] == ds;
    var ps := a.findings.newFindings;
    for j := 0 to |ps|
      invariant branches == UpdateItems(chunk, state.findings, ds) + CreateItems(chunk, ps[..j])
    {
      branches := branches + [CreateItem(chunk, ps[j].title, ps[j].description)];
    }
    assert ps[..|ps|] == ps;
    if AnyMetadataValue(a.metadata) {
      branches := branches + [MetadataItem(a.metadata)];
    }
    if |branches| == 0 {
      branches := branches + [SinkItem];
    }
    r := Success(branches);
  }
}
