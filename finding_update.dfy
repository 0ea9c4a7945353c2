/** `finding_updater`: turns an update directive into a findings delta. */
module FindingUpdateNode {
  import opened Wrappers
  import opened FormatInstructions
  import opened States
  import opened MergeLaws
  import opened Processing

  /** Why the updater stops: the finding it was handed is `None`, so
      rendering its fields fails. */
  datatype UpdaterError = NoFindingToUpdate

  /** The finding as the update prompt shows it. */
  function FindingAsText(f: Finding): string {
    "Title: " + Show(f.title) + "\nSummary: " + Show(f.summary) + "\nMethodology: " + Show(f.methodology)
  }

  /** `finding_updater`. The collaborator sees the rendered finding, the
      chunk text and the directive's `what_to_update`. */
  function FindingUpdater(chunk: ChunkInfo, finding: Option<Finding>, whatToUpdate: string,
                          llm: Collaborator): (r: Result<Update, UpdaterError>)
    ensures finding.None? <==> r.Failure?
    ensures r.Success? ==>
      var f := finding.value;
      var data := llm.update(FindingAsText(f), chunk.content, whatToUpdate);
      && r.value.metadata == None && r.value.findings.Some? && |r.value.findings.value| == 1
      && r.value.findings.value[0] == f.(title := data.title, summary := data.summary,
                                         methodology := data.methodology,
                                         sourceChunkIds := [chunk.chunkId])
  {
    if finding.None? then Failure(NoFindingToUpdate)
    else
      var f := finding.value;
      var data := llm.update(FindingAsText(f), chunk.content, whatToUpdate);
      Success(Update(Some([f.(title := data.title, summary := data.summary,
                              methodology := data.methodology,
                              sourceChunkIds := [chunk.chunkId])]), None))
  }

  /** Writing the updater's delta for stored finding `i` amends that finding
      alone: texts the collaborator left empty keep the stored text, the
      others replace it; the source ids gain exactly the chunk's id; the
      keywords stay as they were. */
  lemma UpdateDeltaMerge(existing: seq<Finding>, i: nat, chunk: ChunkInfo, whatToUpdate: string,
                         llm: Collaborator)
    requires StoreOk(existing) && i < |existing|
    ensures var r := FindingUpdater(chunk, Some(existing[i]), whatToUpdate, llm);
      var e := existing[i];
      var data := llm.update(FindingAsText(e), chunk.content, whatToUpdate);
      var m := Merged(existing, r.value.findings.value);
      && |m| == |existing|
      && (forall j :: 0 <= j < |existing| && j != i ==> m[j] == existing[j])
      && m[i].id == e.id && m[i].keywords == e.keywords
      && m[i].title == (if Filled(data.title) then data.title else e.title)
      && m[i].summary == (if Filled(data.summary) then data.summary else e.summary)
      && m[i].methodology == (if Filled(data.methodology) then data.methodology else e.methodology)
      && (forall c :: c in m[i].sourceChunkIds <==> c in e.sourceChunkIds || c == chunk.chunkId)
      && StoreOk(m)
  {
    var e := existing[i];
    var r := FindingUpdater(chunk, Some(e), whatToUpdate, llm);
    var d := r.value.findings.value[0];
    assert r.value.findings.value == [d];
    AmendStored(existing, i, d, chunk.chunkId);
    AmendStoredOk(existing, i, d, chunk.chunkId);
  }

  /** Merging a delta that carries a stored finding's id and keywords and
      one source chunk id. */
  lemma AmendStored(existing: seq<Finding>, i: nat, d: Finding, c: string)
    requires StoreOk(existing) && i < |existing|
    requires d.id == existing[i].id && d.keywords == existing[i].keywords && d.sourceChunkIds == [c]
    ensures var m := Merged(existing, [d]); var e := existing[i];
      && |m| == |existing|
      && (forall j :: 0 <= j < |existing| && j != i ==> m[j] == existing[j])
      && m[i].id == e.id && m[i].keywords == e.keywords
      && m[i].title == (if Filled(d.title) then d.title else e.title)
      && m[i].summary == (if Filled(d.summary) then d.summary else e.summary)
      && m[i].methodology == (if Filled(d.methodology) then d.methodology else e.methodology)
      && (forall x :: x in m[i].sourceChunkIds <==> x in e.sourceChunkIds || x == c)
  {
    var e := existing[i];
    assert Ids(existing)[i] == e.id;
    assert e in existing;
    AmendAt(existing, d, i);
    AmendFields(e, d, c);
  }

  /** The stored finding amended by such a delta. */
  lemma AmendFields(e: Finding, d: Finding, c: string)
    requires FindingOk(e) && d.keywords == e.keywords && d.sourceChunkIds == [c]
    ensures var a := Amend(e, d);
      && a.id == e.id && a.keywords == e.keywords
      && a.title == (if Filled(d.title) then d.title else e.title)
      && a.summary == (if Filled(d.summary) then d.summary else e.summary)
      && a.methodology == (if Filled(d.methodology) then d.methodology else e.methodology)
      && (forall x :: x in a.sourceChunkIds <==> x in e.sourceChunkIds || x == c)
  {
    DedupAbsorbs(e.keywords.value, e.keywords.value);
    assert forall x :: x in e.sourceChunkIds + [c] <==> x in e.sourceChunkIds || x == c;
  }

  /** The same merge keeps the store well formed. */
  lemma AmendStoredOk(existing: seq<Finding>, i: nat, d: Finding, c: string)
    requires StoreOk(existing) && i < |existing|
    requires d.keywords == existing[i].keywords && d.sourceChunkIds == [c]
    ensures StoreOk(Merged(existing, [d]))
  {
    assert existing[i] in existing;
    assert DeltaOk(d);
    MergePreservesStore(existing, [d]);
  }
}
