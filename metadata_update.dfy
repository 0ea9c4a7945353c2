/** `metadata_updater`: projects the analysis metadata onto a metadata delta. */
module MetadataUpdate {
  import opened Wrappers
  import opened FormatInstructions
  import opened States

  /** An optional field stored under its key: `None` stays `None`. */
  function Stored<T>(o: Option<T>): (s: Slot<T>)
    ensures s != Missing
    ensures o.Some? <==> s.Val?
    ensures o.Some? ==> s.value == o.value
  {
    if o.Some? then Val(o.value) else Null
  }

  /** `metadata_updater`: the four paper fields, without `reasoning` and
      without `source_chunks_ids`; nothing is written to `findings`. */
  function MetadataUpdater(m: AnalysisMetadata): (u: Update)
    ensures u.findings == None && u.metadata.Some?
    ensures u.metadata.value == PaperMetadata(Stored(m.title), Stored(m.authors),
                                              Stored(m.publicationDate), Stored(m.paperAbstract), None)
  {
    Update(None, Some(PaperMetadata(Stored(m.title), Stored(m.authors),
                                    Stored(m.publicationDate), Stored(m.paperAbstract), None)))
  }

  /** Writing the delta keeps the paper's source ids and every field already
      set; a field not yet set takes the analysis value, and one the
      analysis leaves `None` becomes `None`. */
  lemma MetadataDeltaMerge(existing: PaperMetadata, m: AnalysisMetadata)
    ensures var r := MergeMetadata(existing, MetadataUpdater(m).metadata.value);
      && SourceIds(r) == SourceIds(existing)
      && (Truthy(existing.title) ==> r.title == existing.title)
      && (!Truthy(existing.title) ==> r.title == Stored(m.title))
      && (Truthy(existing.authors) ==> r.authors == existing.authors)
      && (!Truthy(existing.authors) ==> r.authors == Stored(m.authors))
      && (Truthy(existing.publicationDate) ==> r.publicationDate == existing.publicationDate)
      && (!Truthy(existing.publicationDate) ==> r.publicationDate == Stored(m.publicationDate))
      && (Truthy(existing.paperAbstract) ==> r.paperAbstract == existing.paperAbstract)
      && (!Truthy(existing.paperAbstract) ==> r.paperAbstract == Stored(m.paperAbstract))
  {
    assert SourceIds(existing) + [] == SourceIds(existing);
  }
}
