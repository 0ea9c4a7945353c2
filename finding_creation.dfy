/** `finding_creator`: turns a new-finding proposal into a findings delta. */
module FindingCreation {
  import opened Wrappers
  import opened FormatInstructions
  import opened States
  import opened MergeLaws

  /** The finding the creator writes: the collaborator's texts verbatim, the
      freshly drawn id, the processed chunk as its only source and no
      `keywords` key. */
  function NewFindingRecord(chunk: ChunkInfo, data: NewFinding, freshId: string): Finding {
    Finding(freshId, Some(data.title), Some(data.summary), Some(data.methodology), None, [chunk.chunkId])
  }

  /** `finding_creator`. The collaborator sees the chunk text, the proposal's
      description and its title; `freshId` is the `uuid4()` drawn for it. */
  function FindingCreator(chunk: ChunkInfo, title: string, description: string,
                          llm: Collaborator, freshId: string): (u: Update)
    ensures u.metadata == None && u.findings.Some? && |u.findings.value| == 1
    ensures var f := u.findings.value[0]; var data := llm.create(chunk.content, description, title);
      && f.id == freshId && f.sourceChunkIds == [chunk.chunkId] && f.keywords == None
      && f.title == Some(data.title) && f.summary == Some(data.summary)
      && f.methodology == Some(data.methodology)
  {
    Update(Some([NewFindingRecord(chunk, llm.create(chunk.content, description, title), freshId)]), None)
  }

  /** Writing the creator's delta into a store that does not hold the fresh
      id appends the new finding, with `keywords` defaulted to `[]`, and
      keeps the store well formed. */
  lemma CreatedFindingIsAppended(existing: seq<Finding>, chunk: ChunkInfo, title: string,
                                 description: string, llm: Collaborator, freshId: string)
    requires StoreOk(existing)
    requires freshId !in Ids(existing)
    ensures var u := FindingCreator(chunk, title, description, llm, freshId);
      var f := u.findings.value[0];
      && Merged(existing, u.findings.value) == existing + [f.(keywords := Some([]))]
      && StoreOk(Merged(existing, u.findings.value))
  {
    var u := FindingCreator(chunk, title, description, llm, freshId);
    var f := u.findings.value[0];
    assert u.findings.value == [f];
    MergeInsertsNew(existing, f);
    assert DeltaOk(f);
    MergePreservesStore(existing, [f]);
  }
}
