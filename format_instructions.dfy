/** The structured records the extraction collaborator (the language model)
    returns to each node, and the collaborator itself as a bundle of
    uninterpreted total functions. */
module FormatInstructions {
  import opened Wrappers

  /** Paper metadata found in one chunk (`ChunkProcessorMetadata`): the
      reasoning is required, every paper field is optional and defaults to
      `None`. */
  datatype AnalysisMetadata = AnalysisMetadata(
    reasoning: string,
    title: Option<string>,
    authors: Option<seq<string>>,
    publicationDate: Option<string>,
    paperAbstract: Option<string>)

  /** A proposal for a finding that does not exist yet (`ChunkProcessorNewFinding`). */
  datatype NewFindingProposal = NewFindingProposal(title: string, description: string)

  /** A directive to amend an existing finding (`ChunkProcessorExistingFinding`). */
  datatype UpdateDirective = UpdateDirective(id: string, whatToUpdate: string)

  /** The findings part of an analysis (`FindingsDetails`). */
  datatype FindingsDetails = FindingsDetails(
    reasoning: string,
    findingsUpdates: seq<UpdateDirective>,
    newFindings: seq<NewFindingProposal>)

  /** The analysis of one chunk (`ChunkProcessorAnalysis`): findings plus metadata. */
  datatype ChunkAnalysis = ChunkAnalysis(findings: FindingsDetails, metadata: AnalysisMetadata)

  /** The creator's output (`NewFinding`): every field required. */
  datatype NewFinding = NewFinding(title: string, summary: string, methodology: string)

  /** The updater's output (`FindingUpdate`): every field optional; an empty
      or missing value means "keep the existing text". */
  datatype FindingUpdate = FindingUpdate(
    title: Option<string>,
    summary: Option<string>,
    methodology: Option<string>)

  /** One consolidated finding (`ConsilidatedFinding`); keywords default to `[]`. */
  datatype ConsolidatedFinding = ConsolidatedFinding(
    title: string,
    summary: string,
    methodology: string,
    keywords: seq<string>)

  /** The consolidator's output (`FindingsConsolidator`). */
  datatype FindingsConsolidation = FindingsConsolidation(findings: seq<ConsolidatedFinding>)

  /** The extraction collaborator, one uninterpreted function per prompt.
      Each takes the prompt's input parameters in the order the nodes pass
      them and returns an already validated record. */
  datatype Collaborator = Collaborator(
    /** discovery prompt: (chunk text, rendered existing findings) */
    analyse: (string, string) -> ChunkAnalysis,
    /** creation prompt: (chunk text, description, title) */
    create: (string, string, string) -> NewFinding,
    /** update prompt: (rendered finding, chunk text, what to update) */
    update: (string, string, string) -> FindingUpdate,
    /** consolidation prompt: (rendered findings) */
    consolidate: string -> FindingsConsolidation)
}
