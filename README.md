# Paper scanner: a Dafny model

This project models the paper-scanner workflow: a LangGraph agent that reads an academic paper in markdown, analyses it chunk by chunk with a language model, and keeps two results:

- a store of research findings;
- the paper's metadata (title, authors, publication date, abstract).

When every chunk has been read, it asks the model to consolidate the findings.

The model covers these parts of the workflow:

- **Records and reducers** (`states.py`):
  - `merge_findings` is the reducer of the `findings` channel. It is an id-keyed upsert. Non-empty texts overwrite. Keywords and source chunk ids become set unions.
  - `merge_metadata` is the reducer of the `metadata` channel. For each field, the first truthy value written wins. The source chunk ids are concatenated.
- **Chunk loading** (`loading.py`):
  - Short chunks are merged, walking the list backwards.
  - Chunk records get fresh ids.
  - The preparer is first in, first out, and the loop test decides when to stop.
- **Chunk processing** (`processing.py`):
  - Existing findings are rendered for the prompt.
  - A finding is looked up by id.
  - The router sends `Send` work items to the updater, the creator, the metadata updater or the sink.
- **Fan-out nodes**: the finding creator, the finding updater and the metadata updater. Each builds a one-finding or metadata delta.
- **The consolidator**: it renders the findings, asks for the consolidated list, and gives each entry a fresh id.
- **The graph** (`agent/__init__.py`), as a class with a step-counted loop:
  - Every node that returns the whole state writes it back through the reducers. This is a self-merge, and it is proved harmless under the store invariant.
  - Routed branches run one after another within a superstep.
  - Every superstep counts against the recursion limit.
  - A run over n merged chunks takes between 3n + 3 and 4n + 3 supersteps.
  - The entry point adds two things: the "PDF or markdown" check, and the 10000-character chunk size and limit of 200 steps.
- **Utilities**:
  - the markdown header splitter (the `^(#{1,6} .+)$` multiline match, sections and chunking);
  - the BigQuery row serialiser;
  - the newline-list output parser, which splits on the two characters backslash and `n`;
  - the MedPaLM message merger, reply extraction and per-character stream;
  - the `with_retries` attempt loop.

The language model appears as a `Collaborator`: one uninterpreted total function per prompt. `uuid4` appears as an `IdOracle` object that never issues the same id twice.

## Model

| member | source | states |
|---|---|---|
| States.Dedup | packages/workflows/paper_scanner/v0/agent/schemas/states.py:75-77 | `list(set(xs))`: no duplicates, exactly the elements of `xs`, never longer |
| States.DedupSnoc | packages/workflows/paper_scanner/v0/agent/schemas/states.py:75-77 | adding one element to the deduplicated list appends it exactly when it is new |
| States.DedupAbsorbs | packages/workflows/paper_scanner/v0/agent/schemas/states.py:83-85 | deduplicating a duplicate-free list extended with its own elements gives the list back |
| States.MergeMetadata | packages/workflows/paper_scanner/v0/agent/schemas/states.py:112-144 | a truthy existing field is kept; otherwise an incoming value is taken, and a field with no incoming value (None or absent) becomes None; the result holds all five keys; source ids are the concatenation |
| States.MergeFindings | packages/workflows/paper_scanner/v0/agent/schemas/states.py:52-94 | the in-place dict loop computes the specification `Merged(existing, new)` whose laws follow |
| MergeLaws.MergeKeepsEveryId | packages/workflows/paper_scanner/v0/agent/schemas/states.py:56-94 | the merged ids are the existing ids followed by the new ones, in first-seen order, each exactly once |
| MergeLaws.IndexListsBack | packages/workflows/paper_scanner/v0/agent/schemas/states.py:56-94 | building the dict from findings with distinct ids and listing its values gives the list back |
| MergeLaws.MergeAmendsExisting | packages/workflows/paper_scanner/v0/agent/schemas/states.py:59-85 | a delta for a stored id amends that finding in place: only non-empty texts replace, keywords and source ids become set unions, other findings are untouched |
| MergeLaws.MergeInsertsNew | packages/workflows/paper_scanner/v0/agent/schemas/states.py:86-91 | a delta with an unseen id is appended, with `keywords` defaulted to `[]` |
| MergeLaws.AmendTwice | packages/workflows/paper_scanner/v0/agent/schemas/states.py:59-85 | amending a well-formed finding twice with the same delta equals amending it once |
| MergeLaws.MergeSameDeltaTwice | packages/workflows/paper_scanner/v0/agent/schemas/states.py:56-94 | merging the same delta twice gives the same store as merging it once |
| MergeLaws.SelfMergeIsIdentity | packages/workflows/paper_scanner/v0/agent/schemas/states.py:56-94 | merging a well-formed store with itself changes nothing |
| MergeLaws.MergePreservesStore | packages/workflows/paper_scanner/v0/agent/schemas/states.py:56-94 | merging well-formed deltas into a well-formed store keeps ids distinct and keywords and sources duplicate-free |
| MetadataLaws.TruthyStays | packages/workflows/paper_scanner/v0/agent/schemas/states.py:118-137 | a truthy field survives any sequence of later writes |
| MetadataLaws.FirstTruthyWins | packages/workflows/paper_scanner/v0/agent/schemas/states.py:118-137 | starting from a falsy field, the first truthy value written is the one kept |
| MetadataLaws.MergeAllByField | packages/workflows/paper_scanner/v0/agent/schemas/states.py:112-144 | a sequence of metadata writes acts field by field, and the source ids are all the lists written, concatenated |
| MetadataLaws.FirstTitleWins | packages/workflows/paper_scanner/v0/agent/schemas/states.py:118-122 | over many writes, the first non-empty title written is the paper's title |
| MetadataLaws.SetFieldsStay | packages/workflows/paper_scanner/v0/agent/schemas/states.py:117-137 | every paper field already set is kept by all later writes |
| MetadataLaws.TitleExample | packages/workflows/paper_scanner/v0/agent/schemas/states.py:118-122 | titles "A" then "B" leave "A" |
| MetadataLaws.MetadataSelfMerge | packages/workflows/paper_scanner/v0/agent/schemas/states.py:112-144 | merging a complete metadata dict with itself keeps every paper field and doubles the source ids, so it is the identity exactly when those ids are empty |
| Loading.ScanProperties | packages/workflows/paper_scanner/v0/agent/nodes/chunk/loading.py:19-33 | the backward scan keeps the text joined by blank lines, adds no chunk, and leaves every chunk after the first at least 500 characters long |
| Loading.MergedChunksProperties | packages/workflows/paper_scanner/v0/agent/nodes/chunk/loading.py:17-33 | the merged chunks join to the same text, are no more numerous, are empty exactly when the input is, and only the first may be short |
| Loading.MergeExample | packages/workflows/paper_scanner/v0/agent/nodes/chunk/loading.py:25-27 | a 600-character chunk followed by a 10-character one gives one chunk of 612 characters |
| Loading.SingleShortChunk | packages/workflows/paper_scanner/v0/agent/nodes/chunk/loading.py:19-33 | a lone chunk is kept even when short |
| Loading.MergeShortChunks | packages/workflows/paper_scanner/v0/agent/nodes/chunk/loading.py:18-33 | the reverse loop with `insert(0, …)` computes `MergedChunks` |
| Loading.ChunksInitializer | packages/workflows/paper_scanner/v0/agent/nodes/chunk/loading.py:13-49 | the queue holds the merged chunks, pending, under distinct freshly issued ids; every other channel is empty |
| Loading.NextChunkPreparer | packages/workflows/paper_scanner/v0/agent/nodes/chunk/loading.py:53-67 | the in-place preparer computes `Prepared(old state)` |
| Loading.PreparedConservesLineup | packages/workflows/paper_scanner/v0/agent/nodes/chunk/loading.py:53-67 | processed, current and queued chunks stay the same chunks in the same order; only the filed chunk's status changes |
| Loading.PreparedPopsHead | packages/workflows/paper_scanner/v0/agent/nodes/chunk/loading.py:53-77 | the queue's head becomes current and the queue shrinks by one; `should_continue` then holds exactly when a chunk was taken |
| Processing.ExistingFindingsText | packages/workflows/paper_scanner/v0/agent/nodes/chunk/processing.py:22-29 | "No existing findings yet" exactly when there are no findings; otherwise the text starts with the first block's `Id: ` |
| Processing.RenderFindingsAt | packages/workflows/paper_scanner/v0/agent/nodes/chunk/processing.py:22-27 | the rendering is the blocks of the findings in order: finding i's block sits between the renderings of those before and after it |
| Processing.ChunkProcessor | packages/workflows/paper_scanner/v0/agent/nodes/chunk/processing.py:13-43 | the analysis of the current chunk, given the rendered findings, is attached to it |
| Processing.AnalysedChangesOnlyAnalysis | packages/workflows/paper_scanner/v0/agent/nodes/chunk/processing.py:13-43 | only the current chunk's analysis changes; its id, content, status and all other channels stay |
| Processing.SearchFindingById | packages/workflows/paper_scanner/v0/agent/nodes/chunk/processing.py:46-50 | None exactly when no finding has the id; otherwise the first finding with that id |
| Processing.RouteShape | packages/workflows/paper_scanner/v0/agent/nodes/chunk/processing.py:53-94 | update items in directive order, then create items in proposal order, then the metadata item when some metadata value is truthy; the sink alone exactly when there is nothing else |
| Processing.ReasoningAloneSendsMetadata | packages/workflows/paper_scanner/v0/agent/nodes/chunk/processing.py:86-89 | a non-empty reasoning alone makes `any(metadata.values())` true, so a metadata item is sent |
| Processing.UnknownIdSlipsThrough | packages/workflows/paper_scanner/v0/agent/nodes/chunk/processing.py:59-72 | as written, a directive naming an unknown id passes the guard and sends an update item carrying None |
| Processing.PostProcessingRouter | packages/workflows/paper_scanner/v0/agent/nodes/chunk/processing.py:53-94 | fails exactly when a directive names an unknown id, naming the first such directive; otherwise sends the plan of `RouteShape`, and every update item carries its finding |
| FindingCreation.FindingCreator | packages/workflows/paper_scanner/v0/agent/nodes/finding/creation.py:18-48 | a one-finding delta: fresh id, the model's texts verbatim, the chunk as its only source, no keywords key; no metadata write |
| FindingCreation.CreatedFindingIsAppended | packages/workflows/paper_scanner/v0/agent/nodes/finding/creation.py:37-46 | writing the delta appends the new finding, with keywords `[]`, and keeps the store well formed |
| FindingUpdateNode.FindingUpdater | packages/workflows/paper_scanner/v0/agent/nodes/finding/update.py:17-48 | fails exactly when handed no finding; otherwise a one-finding delta that copies the finding, takes the model's three texts and has the chunk as its only source |
| FindingUpdateNode.UpdateDeltaMerge | packages/workflows/paper_scanner/v0/agent/nodes/finding/update.py:36-46 | writing the delta amends only that finding: empty texts keep the stored text, the sources gain exactly the chunk id, the keywords stay |
| MetadataUpdate.MetadataUpdater | packages/workflows/paper_scanner/v0/agent/nodes/metadata/update.py:9-18 | a metadata delta with the four paper fields (None stays None), without reasoning or source ids |
| MetadataUpdate.MetadataDeltaMerge | packages/workflows/paper_scanner/v0/agent/nodes/metadata/update.py:9-18 | writing the delta keeps the source ids and every set field, and fills every unset field from the analysis |
| FindingConsolidation.ConsolidationText | packages/workflows/paper_scanner/v0/agent/nodes/finding/consolidation.py:24-29 | the rendering is empty exactly when there are no findings |
| FindingConsolidation.ConsolidationTextAppend | packages/workflows/paper_scanner/v0/agent/nodes/finding/consolidation.py:24-29 | the rendering of a concatenation is the concatenation of the renderings |
| FindingConsolidation.AssignIds | packages/workflows/paper_scanner/v0/agent/nodes/finding/consolidation.py:40-44 | one entry per consolidated finding, in order, payload unchanged, each under a distinct freshly issued id |
| FindingConsolidation.FindingsConsolidator | packages/workflows/paper_scanner/v0/agent/nodes/finding/consolidation.py:17-49 | no findings: the state is unchanged; otherwise only `consolidated_findings` is replaced by the model's list with fresh ids |
| Uuid.IdOracle.Fresh | packages/workflows/paper_scanner/v0/agent/nodes/chunk/loading.py:37 | each id drawn is new and is recorded as issued |
| Markdown.HashRunMaximal | packages/framework/text_splitters/markdown.py:6 | the leading `#` run is all `#` and is followed by a non-`#` character or the end |
| Markdown.HeaderLineMeaning | packages/framework/text_splitters/markdown.py:6 | a line matches `#{1,6} .+` exactly when it has 1 to 6 leading `#`, then a space, then at least one character |
| Markdown.LineEndFirstNewline | packages/framework/text_splitters/markdown.py:6-7 | the line end is the first newline after the start, or the end of the text |
| Markdown.HeaderStartsSound | packages/framework/text_splitters/markdown.py:6-7 | every match starts a line, its line is a header, and matches are in increasing order on distinct lines |
| Markdown.HeaderStartsComplete | packages/framework/text_splitters/markdown.py:6-7 | every header line of the text is a match |
| Markdown.SectionAt | packages/framework/text_splitters/markdown.py:10-15 | section j is (header j, the stripped text from header j up to the next header or the end) |
| Markdown.SplitMarkdownByHeaders | packages/framework/text_splitters/markdown.py:5-16 | the loop computes `Sections(content)` |
| Markdown.NoHeaderNoSections | packages/framework/text_splitters/markdown.py:5-16 | a text without header lines has no sections |
| Markdown.EveryHeaderOpensASection | packages/framework/text_splitters/markdown.py:7-15 | every header line heads some section |
| Markdown.BodyBeginsWithHeader | packages/framework/text_splitters/markdown.py:11-14 | each section's body begins with its header (less trailing spaces) |
| Markdown.SectionsExample | packages/framework/text_splitters/markdown.py:5-16 | text before the first header is dropped; "x\n# T\nb\n## S\nc" gives two sections |
| Markdown.MarkdownTextSplit | packages/framework/text_splitters/markdown.py:19-44 | the loop computes `AllChunks`: a section that fits is one chunk, a longer one is passed to the splitter |
| Markdown.FittingSectionsAreChunks | packages/framework/text_splitters/markdown.py:37-39 | when every section fits, the chunks are the section bodies |
| Markdown.AllChunksAppend | packages/framework/text_splitters/markdown.py:36-42 | chunking distributes over concatenation of section lists |
| Agent.ApplyUpdate | packages/workflows/paper_scanner/v0/agent/schemas/states.py:147-153 | a partial update is merged into `findings` and `metadata` by their reducers, and no other channel changes |
| Agent.WriteWholeState | packages/workflows/paper_scanner/v0/agent/schemas/states.py:147-153 | a node returning the whole state merges its own findings and metadata back in |
| Agent.SelfWriteHarmless | packages/workflows/paper_scanner/v0/agent/schemas/states.py:147-153 | under the store invariant, the whole-state write-back leaves the state unchanged |
| Agent.UpdateKeepsStore | packages/workflows/paper_scanner/v0/agent/nodes/finding/update.py:36-46 | an updater write keeps the store invariant and the list of ids |
| Agent.CreateKeepsStore | packages/workflows/paper_scanner/v0/agent/nodes/finding/creation.py:36-46 | a creator write with a fresh id keeps the store invariant and appends that id |
| Agent.MetadataKeepsStore | packages/workflows/paper_scanner/v0/agent/nodes/metadata/update.py:9-18 | a metadata write keeps the store invariant |
| Agent.RoutedFindingsAreStored | packages/workflows/paper_scanner/v0/agent/nodes/chunk/processing.py:59-72 | every update item that carries a finding carries a stored one |
| Agent.FirstPreparerKeepsChunks | packages/workflows/paper_scanner/v0/agent/nodes/chunk/loading.py:53-67 | the first preparer pass keeps the chunk lineup invariant |
| Agent.FilingKeepsChunks | packages/workflows/paper_scanner/v0/agent/nodes/chunk/loading.py:53-67 | filing an analysed chunk keeps the lineup invariant, adds one processed chunk and shrinks what is left |
| Agent.ConsolidationFinishes | packages/workflows/paper_scanner/v0/agent/nodes/finding/consolidation.py:17-49 | after the consolidator the run is `Finished` |
| Agent.PaperScanner.RunBranches | packages/workflows/paper_scanner/v0/agent/__init__.py:58-65 | the state after the routed branches is the fold `Branched` of the branch writes over the items in the order sent, with the creators drawing one fresh id each, distinct and never issued before; the finding ids become the old ids followed by the drawn ones; the store invariant holds and no chunk channel changes |
| Agent.PaperScanner.RunBranch | packages/workflows/paper_scanner/v0/agent/__init__.py:58-65 | one branch with its write: the state becomes `BranchStep` of the item, a creator draws exactly one fresh id and nothing else draws; ids are appended, the store invariant holds and no chunk channel changes |
| Agent.PaperScanner.ScanOne | packages/workflows/paper_scanner/v0/agent/__init__.py:53-66 | one round, with the corrected router: a dangling-id error is returned exactly when the limit left room for the processor and some directive of the analysis names no stored finding, and it names the first such directive; a success is one `Step` (the chunk analysed, the routed branches folded with the drawn ids, the preparer applied), appends the drawn ids to the finding ids, files one more chunk, keeps both invariants and takes 3 or 4 supersteps; a limit stop implies the limit is below 4n + 2 |
| Agent.PaperScanner.Initialize | packages/workflows/paper_scanner/v0/agent/__init__.py:51-52 | the initializer's state, written back, queues the merged chunks, pending, under fresh distinct ids; no chunk is current or filed, there are no findings or consolidated findings, and the metadata holds all five keys with nothing known |
| Agent.PaperScanner.Consolidate | packages/workflows/paper_scanner/v0/agent/__init__.py:56-67 | the consolidator ends the run in a `Finished` state and leaves the findings, the metadata and the filed chunks as they were |
| Agent.PaperScanner.ScanChunks | packages/workflows/paper_scanner/v0/agent/__init__.py:53-66 | the loop's rounds (each with the corrected router) form a trace of `Step`s from the entry state, one per chunk in order; on success the final state is the last one of the trace, every chunk is filed once, in order, analysed, the finding ids are the old ones followed by all drawn ids, and 3n to 4n further supersteps were taken; a dangling-id stop happens at the first round whose analysis names an unknown id, naming the first such directive; a limit stop implies the limit is below 4n + 2 |
| Agent.PaperScanner.FileChunk | packages/workflows/paper_scanner/v0/agent/__init__.py:66 | the `next_chunk_preparer` superstep after the join completes the round: the state is one `Step` further, one more chunk is filed and both invariants hold |
| Agent.PaperScanner.PrepareStep | packages/workflows/paper_scanner/v0/agent/nodes/chunk/loading.py:53-67 | the preparer and its whole-state write after a chunk's branches file that chunk and take the next, completing a `Step` and keeping both invariants |
| Agent.RoundsSnoc | packages/workflows/paper_scanner/v0/agent/__init__.py:53-66 | a trace of rounds extended by one more `Step` is a trace; the drawn ids grow by that round's ids |
| Agent.BranchedSnoc | packages/workflows/paper_scanner/v0/agent/__init__.py:58-65 | folding the branch writes over one more item applies that item's write to the fold so far |
| Agent.CurrentIsNext | packages/workflows/paper_scanner/v0/agent/nodes/chunk/loading.py:53-67 | under the lineup invariant, the current chunk is the next chunk of the paper, after the filed ones |
| Agent.RunExplained | packages/workflows/paper_scanner/v0/agent/__init__.py:53-67 | a run whose rounds covered every chunk from an empty store, and whose result keeps what the last round left, is explained by those rounds |
| Agent.PaperScanner.Run | packages/workflows/paper_scanner/v0/agent/__init__.py:37-70 | the outcome is `Explains`ed by its rounds (each with the corrected router) from an empty store: a success went through one round per merged chunk, returns the findings, metadata and filed chunks of the last round, whose finding ids are exactly the drawn ids in order, and is `Finished` after 3n + 3 to 4n + 3 supersteps; a dangling-id stop is at the first round whose analysis names an unknown id; a limit stop implies the limit is below 4n + 3 |
| Agent.PaperScanner.RunPaperScanner | packages/workflows/paper_scanner/v0/__init__.py:29-54 | fails with a missing document exactly when neither markdown nor a PDF is given; otherwise the outcome over the merged chunks of the markdown split at 10000 characters is `Explains`ed by its rounds (each with the corrected router) and `Finished` on success, and the limit of 200 stops it only when there are at least 50 merged chunks (200 < 4n + 3) |
| StoreRun.StoredRow | apps/paper_scanner_app/methods/store_run.py:35-76 | one row per finding, consolidated finding and processed chunk, in order, with ids and contents copied; run facts verbatim |
| StoreRun.StoreToBigquery | apps/paper_scanner_app/methods/store_run.py:35-84 | succeeds exactly when the insert reports no errors, and then stores that row |
| StoreRun.MetadataCopied | apps/paper_scanner_app/methods/store_run.py:36-41 | title, date and abstract are copied when set and None otherwise; authors default to `[]` only when the key is absent |
| StoreRun.SettledMetadataRoundTrip | apps/paper_scanner_app/methods/store_run.py:36-41 | the row of a reducer-written metadata dict gives the dict back, less its source ids |
| StoreRun.AbsentAndNullTitleAlike | apps/paper_scanner_app/methods/store_run.py:37 | an absent title and a stored None give the same row |
| StoreRun.FindingRowsRoundTrip | apps/paper_scanner_app/methods/store_run.py:42-51 | the raw-finding rows plus the findings' keywords give the findings back |
| StoreRun.ConsolidatedRowsRoundTrip | apps/paper_scanner_app/methods/store_run.py:52-61 | the consolidated rows give the consolidated findings back exactly |
| StoreRun.ChunksFromProcessedOnly | apps/paper_scanner_app/methods/store_run.py:62-68 | chunk rows are the processed chunks' ids and contents; the queue and current chunk do not affect the row |
| StoreRun.AbsentListsAreEmpty | apps/paper_scanner_app/methods/store_run.py:50-67 | absent lists are stored as empty lists |
| StoreRun.FinishedRunRow | apps/paper_scanner_app/methods/store_run.py:42-68 | for a finished run the chunk rows hold the whole paper in order under distinct ids, and raw finding ids are distinct and are not chunk ids |
| NewlineListParser.Split | packages/framework/output_parsers/new_line_list_output_parser.py:6 | at least one piece; the first piece is a prefix of the text |
| NewlineListParser.SplitJoin | packages/framework/output_parsers/new_line_list_output_parser.py:6 | joining the pieces with backslash-n gives the text back |
| NewlineListParser.SplitPiecesFree | packages/framework/output_parsers/new_line_list_output_parser.py:6 | no piece contains backslash-n |
| NewlineListParser.SplitCount | packages/framework/output_parsers/new_line_list_output_parser.py:6 | there is one more piece than there are separator occurrences |
| NewlineListParser.SplitFree | packages/framework/output_parsers/new_line_list_output_parser.py:6 | a text without the separator is a single piece |
| NewlineListParser.JoinSplit | packages/framework/output_parsers/new_line_list_output_parser.py:6 | splitting undoes joining pieces free of the separator |
| NewlineListParser.Parse | packages/framework/output_parsers/new_line_list_output_parser.py:6 | as many items as pieces of the stripped text, never none, each stripped |
| NewlineListParser.ParseShape | packages/framework/output_parsers/new_line_list_output_parser.py:6 | the item count is the separator count of the stripped text plus one; items are stripped pieces in text order, free of the separator |
| NewlineListParser.ParseEmpty | packages/framework/output_parsers/new_line_list_output_parser.py:6 | `""` parses to `[""]` |
| NewlineListParser.NewlineDoesNotSplit | packages/framework/output_parsers/new_line_list_output_parser.py:6 | a real newline character does not separate items |
| NewlineListParser.ParseJoin | packages/framework/output_parsers/new_line_list_output_parser.py:6 | stripped separator-free items written with backslash-n parse back to themselves |
| ChatMedPalm.MergeMessages | packages/framework/chat_model/custom/chat_med_palm.py:104-122 | fails exactly when some message is an AI message; otherwise one human message framing the system contents and the human contents, each joined with ". " in order |
| ChatMedPalm.ContentsAppend | packages/framework/chat_model/custom/chat_med_palm.py:108-112 | contents keep conversation order: the lists of a concatenation are the concatenated lists |
| ChatMedPalm.OtherMessageIgnored | packages/framework/chat_model/custom/chat_med_palm.py:108-114 | a message of another kind changes neither list |
| ChatMedPalm.SystemContentsMembers | packages/framework/chat_model/custom/chat_med_palm.py:108-110 | a text is in the system list exactly when some system message carries it |
| ChatMedPalm.PromptFraming | packages/framework/chat_model/custom/chat_med_palm.py:120-122 | the framed request determines both joined parts once the system part's length is known |
| ChatMedPalm.MergeExample | packages/framework/chat_model/custom/chat_med_palm.py:104-122 | two system messages, a human message and another kind give "your instructions:\n<be brief. cite>\nthe request:\n<hi>" |
| ChatMedPalm.ResponseContent | packages/framework/chat_model/custom/chat_med_palm.py:81-87 | "No response generated." without predictions; else the first prediction's content, or "" when it has none |
| ChatMedPalm.LaterPredictionsIgnored | packages/framework/chat_model/custom/chat_med_palm.py:81-85 | only the first prediction matters |
| ChatMedPalm.Stream | packages/framework/chat_model/custom/chat_med_palm.py:124-141 | one chunk per character, concatenating to the content; nothing for non-string content |
| WithRetries.WithRetries | packages/framework/utils/with_retries.py:16-57 | at most `max_retries` calls; the first successful call's value; after all fail, the last failure's text; "Max retries reached" without any call when `max_retries` ≤ 0; sleeps of 1, 2, … tenths, none after the last call |
| WithRetries.FirstSuccess | packages/framework/utils/with_retries.py:20-31 | the first attempt within the budget that returns in time, if any |
| WithRetries.OutcomeByFirstSuccess | packages/framework/utils/with_retries.py:20-57 | a run meeting the loop's contract returns the first success's value after exactly that many calls, or an error after all `max_retries` calls when none succeeds |
| WithRetries.LinearBackoff | packages/framework/utils/with_retries.py:43-55 | the delays add up to n(n+1)/2 tenths: linear, not exponential |
| WithRetries.TimeoutText | packages/framework/utils/with_retries.py:36-41 | a final timeout with a 30-second alarm reports "Timeout after 30 seconds" |
| WithRetries.NoAlarmNoTimeout | packages/framework/utils/with_retries.py:23-25 | with no timeout or a timeout of 0, no call is cut short |

## Left out

- The language model is an uninterpreted `Collaborator`. Prompt texts, retries inside the chains, and validation failures of its output are not modelled. A failed call would raise; the model only has total functions.
- PDF conversion (the local marker and the Marker API) is not modelled. `RunPaperScanner` receives the converted markdown as `convertedPdf`, or `None` when no PDF was given. An empty PDF buffer's truthiness is therefore not modelled.
- The library `MarkdownTextSplitter` appears as an uninterpreted `splitter` parameter. Chunk overlap is 0 throughout.
- The `uuid4` format is not modelled. Ids are strings the oracle promises never to repeat, and they are taken to be distinct from one another across kinds (chunk, finding, consolidated entry).
- Agent.PaperScanner.RunBranches: LangGraph runs the `Send` branches of one superstep in parallel and folds their writes in task order. The model applies them one after another in the order sent.
- States.MergeFindings: `merge_findings` updates the caller's finding dicts in place, through the aliasing of `existing.update`. The model returns new values, so that aliasing is not captured.
- States.Dedup: `list(set(…))` has an unspecified order in Python; the model keeps first-seen order. So the exact equalities proved about stores and lists (States.DedupSnoc, States.DedupAbsorbs, MergeLaws.MergeAmendsExisting, MergeLaws.AmendTwice, MergeLaws.MergeSameDeltaTwice, MergeLaws.SelfMergeIsIdentity, FindingUpdateNode.UpdateDeltaMerge, Agent.SelfWriteHarmless, and the states the rounds compute in Agent) hold in Python only up to the order within each finding's keyword and source-chunk lists.
- Agent.PaperScanner.Run: supersteps are counted as one for the initializer, one per preparer pass, one for the processor with its router, one for the branches, one for the join (skipped when the sink was the only branch) and one for the consolidator. LangGraph's exact off-by-one at the limit is not modelled. The error is raised when the next superstep would exceed the limit.
- Agent.PaperScanner.ScanOne, and with it Agent.PaperScanner.ScanChunks, Agent.PaperScanner.Run and Agent.PaperScanner.RunPaperScanner: the rounds use the corrected router `Processing.PostProcessingRouter` (see "## Findings"), so an unknown id stops the run with `DanglingFinding` in the processor's superstep. As written, the guard never fires. The update item is sent with `None`, and the run instead fails one superstep later in `finding_updater` (`update.py:23` subscripts `None`, a `TypeError`). That superstep also runs the creator branches and spends one more step of the recursion budget. The model does not capture that failure path.
- The `processing_sink` module is not part of this model. It is treated as a join that writes nothing.
- The retry loop's `signal.alarm` and `time.sleep` are recorded, not performed. A wrapped function that itself raises the module's `TimeoutError` is not distinguished from an alarm.
- BigQuery I/O is not modelled: the client, `insert_rows_json`, `retrieve_runs.py` and the table schema. The insert's reply is a parameter of `StoreToBigquery`.
- Logging calls are not modelled.
- The MedPaLM endpoint call, its request parameters and the raw-response metadata are not modelled. `str(msg.content)` of non-string contents is not modelled, since message contents are strings here.
- Streamlit UI, startup scripts, tests and the version map are not modelled.
- `PaperMetadata.authors` is declared as `str` in `states.py:30`, but the analysis record and the stored row use a list of strings. It is modelled as `seq<string>`.

## Findings

| source | as written | input that shows it | evidently intended | confidence | as-written member | corrected member |
|---|---|---|---|---|---|---|
| packages/workflows/paper_scanner/v0/agent/nodes/chunk/processing.py:61 | the missing-finding guard tests the directive (`if not finding`), which is always truthy, instead of the looked-up `existing_finding` | store holding only id "Y"; an update directive for id "X" | raise the "Finding with id X not found" error and send no update branch | high; not executed | Processing.UnknownIdSlipsThrough | Processing.PostProcessingRouter |
