# slide-creator, modelled in Dafny

slide-creator is a small web application for building slide presentations
with a language model. The server (Express and Prisma) holds projects,
source files, presentations and four kinds of "program" items: generation
prompts, system prompts, output formats and generation pipelines. It runs
one-shot generations and multi-step pipelines. The React client edits
presentations slide by slide and block by block, presents them and exports
them to PowerPoint.

This project models the core of both halves and proves what that core
promises.

Server modules:

- `PipelineSpec` (pipeline_spec.dfy) defines a pipeline run as functions.
  - Launch validation and the initial run record.
  - Prompt resolution: inline text wins over a named prompt.
  - The user message from the three kinds of step source.
  - Classification of a saved output as a presentation or a source file.
  - Output naming from a `{{word}}` template.
  - A per-step trace, and the run record after each step and at the end.
- `PipelineEngine` (pipeline_engine.dfy) holds the imperative side of the run.
  - `RunStore` is the run table.
  - `ExecutePipeline` is the `for` loop over the steps, with the `stepOutputs` map, `finalResourceId` and the `userContent +=` accumulation.
  - `UpdateStepStatus` changes one entry. Each state change is proved equal to the functional definition.
- `Placeholders` (placeholders.dfy) is the global `{{name}}` replacement the server uses twice: once for output-format variables and once for output-name templates. It is proved to be a single left-to-right pass.
- `ResolveVariables` (resolve_variables.dfy) holds the variable substitution and `FormatCache`, the 30-second format cache with its invalidation.
- `NameUniqueness` (check_name_unique.dfy) is the cross-kind name check over four name→id tables.
- `ProgramRoutes` (program_routes.dfy) holds the write rules of the output-format and generation-pipeline routes.
- `Generate` (generate.dfy) is the one-shot generation route.
- `ServerData` (server_data.dfy) holds the shared server data:
  - the JSON parse result as a datatype;
  - the source blocks of a user message;
  - `_format` stamping;
  - stored resources.

Client modules:

- `Types` (types.dfy) holds the client's datatypes, `isPresentation` and the theme presets.
- `SeqOps` (seqops.dfy) holds the insert, remove and move edits that the block canvas and the slide editor share.
- `SlideCanvas` (slide_canvas.dfy) holds the canvas's block and table updaters.
- `SlideEditor` (slide_editor.dfy) is the slide editor as a class holding the presentation and the selected slide.
- `PptxExport` (pptx_export.dfy) holds the export's inline-formatting parser, `hexToRgb` and the file name.
- `Folders` (folders.dfy) is the folder forest.
- `TreePanel` (tree_panel.dfy) holds the tree's drop guard, grouping, ordering and rename rules.
- `GenerateDialog` (generate_dialog.dfy) is the dialog's state, validation, default name and folder paths.
- `PresentationMode` (presentation_mode.dfy) is slide navigation in full-screen mode.
- `Store` (store.dfy) is the editor-target bookkeeping of the client store.
- `Common` (common.dfy) holds shared helpers: optional values and results, decimal rendering, zero padding, the compact timestamp, JavaScript slice indices and set toggling.

Parameters stand in for outside services:

- the language model is a function from the messages to a `Completion`;
- `JSON.parse` is a function from text to a `JsonParse`;
- the clock is the date fields, or a millisecond reading;
- new database ids are values;
- the browser's `confirm` answer is a value.

The database tables are maps and sequences. A class field stands for a route's module state, and so does a store field.

## Model

| member | source | states |
|---|---|---|
| Common.OrElse | server/src/routes/pipelineRuns.ts:249 | the logical-or fallback on an optional string: the value when it is present and non-empty, the fallback otherwise |
| Common.NatToString | server/src/routes/pipelineRuns.ts:165 | `String(n)` of a natural number is a non-empty string of decimal digits |
| Common.NatToStringRoundTrip | server/src/routes/pipelineRuns.ts:165 | the digits of `String(n)` read back as `n` |
| Common.NatToStringLength | server/src/routes/pipelineRuns.ts:218-219 | `String(n)` has one digit below 10, two below 100, three below 1000 and four below 10000 |
| Common.IntToString | server/src/routes/pipelineRuns.ts:165 | `String(i)` of any integer is non-empty |
| Common.RelativeIndex | client/src/components/SlideCanvas.tsx:175 | a slice index resolves into `0..length`, a negative one counting from the end, and an index already in range stays as it is |
| Common.JsSlice | client/src/components/SlideCanvas.tsx:175 | `slice(start, end)` with both bounds in range is the subsequence between them |
| Common.JsSliceFrom | client/src/components/SlideCanvas.tsx:57 | `slice(start)` with the start in range is the suffix from it |
| Folders.FindFrom | client/src/components/TreePanel.tsx:143 | the index of the first folder from a position on with the id, with no such folder before it, or -1 exactly when there is none |
| Folders.FindFromMoved | client/src/components/TreePanel.tsx:184 | moving a folder changes no id, so the index search finds the same position as before |
| Folders.MovedEdge | client/src/components/TreePanel.tsx:182-184 | after the guarded move, each folder's parent still ranks strictly below it under the lifted ranks |
| Placeholders.RunEnd | server/src/lib/resolveVariables.ts:25 | the greedy run of name characters starting at a position ends inside the text, not before the position |
| Placeholders.PlaceholderEnd | server/src/lib/resolveVariables.ts:25 | a match tried at a position ends with its `}}` inside the text and holds a non-empty name |
| Placeholders.StepNext | server/src/lib/resolveVariables.ts:25 | scanning resumes strictly after the position and never past the end of the text |
| PptxExport.TagFrom | client/src/lib/pptxExport.ts:10 | the alternative tried from the `k`-th on is one of the eight and not before the `k`-th |
| PipelineEngine.ResultsAfterNothing | server/src/routes/pipelineRuns.ts:117-122 | before any step has run, the step results are those the run was created with |
| PipelineEngine.CreatedSnoc | server/src/routes/pipelineRuns.ts:221-238 | one more step appends its saved resource, if any, to the resources created so far |
| PipelineEngine.CompletedRecord | server/src/routes/pipelineRuns.ts:263-271 | after the last step, marking the run completed with the final resource gives the run's final record |
| PipelineEngine.FailedRecord | server/src/routes/pipelineRuns.ts:247-258 | marking step `i` running, then failed, then the run failed gives the run's final record, and no later step changes it |
| PipelineEngine.DoneRecord | server/src/routes/pipelineRuns.ts:240-245 | marking step `i` running and then completed with its saved resource gives the record after step `i` |
| ServerData.SourcesTextLast | server/src/routes/generate.ts:34-37 | the source text of a list ends with the block of its last resource |
| ServerData.SourcesTextSnoc | server/src/routes/generate.ts:34-37 | the source text of a prefix one longer ends with that resource's block |
| NameUniqueness.KindIndex | server/src/lib/checkNameUnique.ts:3-8 | every kind of program item has its place in the checking order |
| TreePanel.SortedCons | client/src/components/TreePanel.tsx:191 | a folder in front of a sorted list whose first order is not smaller keeps the list sorted |
| TreePanel.FirstIndexAppend | client/src/components/TreePanel.tsx:304 | appending keeps the first occurrence of anything already present |
| TreePanel.DedupOrderAt | client/src/components/TreePanel.tsx:304 | of two distinct names in the deduplicated list, the earlier one occurs first in the input |
| TreePanel.SkipSpace | client/src/components/TreePanel.tsx:67 | the end of the white-space run from a position: all white space up to it and none at it |
| TreePanel.SkipSpaceBack | client/src/components/TreePanel.tsx:67 | the start of the white-space run ending at a position, stopping at the lower bound |
| SeqOps.ReplaceAt | client/src/components/SlideCanvas.tsx:40 | the positional `map` at an existing index keeps the length, puts the new element at that index and keeps every other element |
| SeqOps.InsertAfter | client/src/components/SlideEditor.tsx:70 | the slice-and-spread insertion after any integer index always yields one element more |
| SeqOps.InsertAfterInRange | client/src/components/SlideCanvas.tsx:57 | after an index from -1 to the last one, the new element sits right behind that index with the prefix before it and the tail after it unchanged |
| SeqOps.RemoveAt | client/src/components/SlideCanvas.tsx:65 | the index `filter` drops exactly one element when the index exists, each later element moving down by one, and changes nothing when it does not |
| SeqOps.RemoveAfterInsert | client/src/components/SlideEditor.tsx:70-79 | removing the element just inserted after an index gives the original sequence back |
| SeqOps.Move | client/src/components/SlideCanvas.tsx:73-75 | the two-splice move keeps the length and puts the moved element at the target index |
| SeqOps.MoveIsPermutation | client/src/components/SlideEditor.tsx:96-98 | the two-splice move is a permutation: the multiset of elements is unchanged |
| SeqOps.MoveAt | client/src/components/SlideCanvas.tsx:73-75 | after the move, elements strictly between the two indices shift by one towards the source index and every other element keeps its place |
| SeqOps.MoveBack | client/src/components/SlideEditor.tsx:93-102 | moving from the target back to the source undoes a move |
| Placeholders.Replacement | server/src/lib/resolveVariables.ts:25-27 | the callback gives the table's text for a known name, and for an unknown one the match itself (output-format variables) or the empty string (output-name templates) |
| Placeholders.RunEndRun | server/src/lib/resolveVariables.ts:25 | the greedy `[^}]+` or `\w+` run is made of name characters and stops at the first character that is not one |
| Placeholders.PlaceholderEndSpan | server/src/lib/resolveVariables.ts:25 | the pattern matches at a position exactly when `{{`, a non-empty run of name characters and `}}` start there, and the match ends at that `}}` |
| Placeholders.StepVerbatim | server/src/lib/resolveVariables.ts:25-27 | a position whose match is replaced by itself contributes exactly the text it consumes |
| Placeholders.VerbatimUnchanged | server/src/lib/resolveVariables.ts:25-27 | where every match is replaced by itself, the global replacement returns the text unchanged |
| Placeholders.NoOpeningUnchanged | server/src/lib/resolveVariables.ts:23 | text without `{{` has no match and comes back unchanged, which is why the early return does not change the result |
| Placeholders.AgreeingReplacers | server/src/routes/pipelineRuns.ts:39 | two callbacks that agree at every match from a position on give the same replacement |
| Placeholders.RunEndShift | server/src/routes/pipelineRuns.ts:39 | a run measured behind a prefix ends where it ends without the prefix, shifted by the prefix's length |
| Placeholders.PlaceholderEndShift | server/src/routes/pipelineRuns.ts:39 | whether and where a match starts at a position depends only on the text from there on |
| Placeholders.StepShift | server/src/routes/pipelineRuns.ts:39 | one scan step behind a prefix consumes and contributes what it does without the prefix |
| Placeholders.ReplaceFromStep | server/src/lib/resolveVariables.ts:25 | the scan is a sequence of steps: a match's replacement or one copied character, then the rest from where scanning resumes |
| Placeholders.ShiftStep | server/src/routes/pipelineRuns.ts:39 | if the rests after one step agree behind a prefix and without it, so do the scans from that step |
| Placeholders.ReplaceFromShift | server/src/routes/pipelineRuns.ts:39 | the replacement of a suffix does not depend on what precedes it: scanning resumes after each match and inserted text is never rescanned |
| Placeholders.RunEndUpTo | server/src/lib/resolveVariables.ts:25 | a run of name characters ending at a non-name character ends exactly there |
| Placeholders.LeadingPlaceholder | server/src/lib/resolveVariables.ts:25-27 | a leading `{{name}}` is handed to the callback whole, with its name, and the rest of the text is replaced on its own |
| Placeholders.LeadingChar | server/src/lib/resolveVariables.ts:25 | a leading character other than `{` is copied |
| Placeholders.PlainPrefix | server/src/lib/resolveVariables.ts:25 | a prefix without `{` is copied, and the rest is replaced on its own |
| Placeholders.TwoPlaceholders | server/src/routes/pipelineRuns.ts:39 | `{{a}}<sep>{{b}}` with a separator that opens no placeholder becomes the two replacements around the separator |
| ResolveVariables.PlainTextUnchanged | server/src/lib/resolveVariables.ts:23 | text without `{{` is unchanged by the replace, so the early return agrees with it |
| ResolveVariables.UnknownNamesUnchanged | server/src/lib/resolveVariables.ts:25-27 | text none of whose `{{name}}` placeholders names a known format comes back unchanged |
| ResolveVariables.NoFormatsUnchanged | server/src/lib/resolveVariables.ts:26 | with no output formats every placeholder stays verbatim |
| ResolveVariables.LeadingVariable | server/src/lib/resolveVariables.ts:25-27 | a leading `{{name}}` becomes the content of the format with exactly that name, stays verbatim if there is none, and the rest is replaced on its own |
| ResolveVariables.SinglePass | server/src/lib/resolveVariables.ts:25 | for every format name and every following text, `{{name}}` becomes exactly that format's content, never scanned again whatever placeholders it holds, followed by the replacement of the rest |
| ResolveVariables.FormatCache.constructor | server/src/lib/resolveVariables.ts:3-4 | the cache starts empty with timestamp 0 |
| ResolveVariables.FormatCache.LoadFormats | server/src/lib/resolveVariables.ts:7-16 | the cached map is returned and nothing changes iff it is present and `now - cacheTimestamp < 30000`; otherwise the table is returned and cached with timestamp `now` |
| ResolveVariables.FormatCache.Invalidate | server/src/lib/resolveVariables.ts:18-20 | the cache is dropped, so no time is fresh and the next load reads the table |
| ResolveVariables.FormatCache.Resolve | server/src/lib/resolveVariables.ts:22-28 | the result is the replace over the formats the cache serves at `now`; text without `{{` leaves the cache untouched |
| NameUniqueness.FirstConflict | server/src/lib/checkNameUnique.ts:25-29 | the index of the first table, in the given order, holding a record with that name whose id is not the excluded one, and no such table before it; none exactly when no table conflicts |
| NameUniqueness.CheckNameUnique | server/src/lib/checkNameUnique.ts:10-30 | the check passes exactly when none of the four tables holds a record with that name whose id differs from `excludeId`; a refusal's message is `Name "<name>" is already used by a <label>` for a table that holds such a record |
| NameUniqueness.FirstTableReported | server/src/lib/checkNameUnique.ts:3-8 | a refusal carries `Name "<name>" is already used by a <label>` for the first conflicting table in the order generation prompt, system prompt, output format, generation pipeline |
| NameUniqueness.KeepOwnName | server/src/lib/checkNameUnique.ts:26 | a record renamed to its own name passes when no other table holds that name, because its own id is excluded |
| NameUniqueness.GenerationPromptReportedFirst | server/src/lib/checkNameUnique.ts:18-27 | a name held by a generation prompt is always reported as a generation-prompt conflict, whatever the later tables hold |
| NameUniqueness.ExcludingOnlyRelaxes | server/src/lib/checkNameUnique.ts:26 | a name that passes with no exclusion also passes with any excluded id |
| PipelineSpec.NameReplacementValue | server/src/routes/pipelineRuns.ts:39 | the intended callback gives an own variable's value (`project`, `step`, `timestamp`) and the empty string for any other key |
| PipelineSpec.NameReplacementAsWrittenValue | server/src/routes/pipelineRuns.ts:39 | the callback as written gives an own variable's value, else the string form of a member every object inherits, else the empty string |
| PipelineSpec.ResolveOutputName | server/src/routes/pipelineRuns.ts:37-40 | a missing or empty template gives the fallback; a template with no `{{` is kept as it is |
| PipelineSpec.LeadingKey | server/src/routes/pipelineRuns.ts:39 | in the corrected own-property lookup, a leading `{{key}}` of word characters becomes the variable's value, or the empty string, and the rest is replaced on its own; for a key that objects do not inherit this is also the source's result |
| PipelineSpec.WithTemplate | server/src/routes/pipelineRuns.ts:38-39 | a non-empty template is always scanned for placeholders |
| PipelineSpec.InheritedKeyAsWritten | server/src/routes/pipelineRuns.ts:39 | as written, `{{key}}` naming an inherited member such as `toString` becomes that member's string form rather than the empty string |
| PipelineSpec.UnknownKeyIsEmpty | server/src/routes/pipelineRuns.ts:39 | with own-property lookup, a placeholder naming no variable becomes the empty string |
| PipelineSpec.ConstructorKey | server/src/routes/pipelineRuns.ts:39 | the template `{{constructor}}` gives `function Object() { [native code] }` as written and the empty string as intended |
| PipelineSpec.AsWrittenAgrees | server/src/routes/pipelineRuns.ts:37-40 | the corrected and the as-written `resolveOutputName` give the same name on every template none of whose placeholders names a member objects inherit, and on a missing or empty template |
| PipelineSpec.TwoKeyTemplate | server/src/routes/pipelineRuns.ts:39 | in the corrected own-property lookup, `{{a}}<sep>{{b}}` with a separator that opens no placeholder is the two values around the separator |
| PipelineSpec.ProjectStepTemplate | server/src/routes/pipelineRuns.ts:221-225 | the template `{{project}} - {{step}}` names the resource `<project> - <step>` |
| PipelineSpec.ResolvePrompt | server/src/routes/pipelineRuns.ts:128-150 | a non-empty inline prompt wins; else a named prompt gives its content or `<Kind> prompt not found: "<name>"`; with neither the step fails with `Step "<name>" has no <kind> prompt` |
| PipelineSpec.ProjectName | server/src/routes/pipelineRuns.ts:111 | the project's name, or `Project`, and never empty |
| PipelineSpec.SavedResource | server/src/routes/pipelineRuns.ts:201-236 | the saved resource is a presentation iff the reply parses to an object whose `slides` is an array; a presentation holds the reply with `_format` stamped and no text, anything else holds the raw reply as text; id, project and folder (`outputFolderId` or null) as given |
| PipelineSpec.SavedResourceName | server/src/routes/pipelineRuns.ts:217-225 | the name is the step's template resolved over project, step and compact timestamp, and `<project> - <step>` without a template; when no placeholder names an inherited member it is also the name the code as written gives |
| PipelineSpec.EvalStep | server/src/routes/pipelineRuns.ts:128-243 | a completed step has a non-empty reply, and it saved a resource with its own id iff `saveToProject` is set |
| PipelineSpec.StepSavesReply | server/src/routes/pipelineRuns.ts:201-238 | the resource a completed step saves is the one built from its reply |
| PipelineSpec.PromptFailureStopsStep | server/src/routes/pipelineRuns.ts:128-150 | the system prompt is resolved first; either prompt failing fails the step with that message before the model is called |
| PipelineSpec.RunTrace | server/src/routes/pipelineRuns.ts:117-261 | steps are tried in index order and the run stops at the first failure, whose index is the number of steps completed before it |
| PipelineSpec.TraceDone | server/src/routes/pipelineRuns.ts:190-245 | a step that completes extends the trace by its reply and its saved resource |
| PipelineSpec.TraceFailed | server/src/routes/pipelineRuns.ts:247-259 | a step that fails ends the trace with its index and message |
| PipelineSpec.TraceStable | server/src/routes/pipelineRuns.ts:259 | once a step has failed, no later step runs |
| PipelineSpec.StepsRunInOrder | server/src/routes/pipelineRuns.ts:117-196 | every completed step ran once, in index order, saw exactly the replies of the steps before it, and left a non-empty reply |
| PipelineSpec.SavedIds | server/src/routes/pipelineRuns.ts:227-238 | every resource a run saves carries the id given to its step |
| PipelineSpec.FailingStep | server/src/routes/pipelineRuns.ts:247-259 | the failing step failed on the replies of the steps before it |
| PipelineSpec.ForwardReferenceEmpty | server/src/routes/pipelineRuns.ts:161-167 | a `step_output` source naming the current or a later step, or a negative index, adds nothing |
| PipelineSpec.InitialResults | server/src/routes/pipelineRuns.ts:55-59 | one `pending` entry per step, with `stepIndex` i and that step's name |
| PipelineSpec.InitialRun | server/src/routes/pipelineRuns.ts:61-72 | the new run is `running` at step 0 with `totalSteps` the step count, the pending entries, and `outputFolderId` or null |
| PipelineSpec.UpdateResult | server/src/routes/pipelineRuns.ts:284-289 | only entry `k` changes: its status, and its resource id and error only when non-empty ones are given; an index out of range changes nothing |
| PipelineSpec.FinalResource | server/src/routes/pipelineRuns.ts:240-242 | the final resource, when there is one, is one the run saved |
| PipelineSpec.FinalResourceLast | server/src/routes/pipelineRuns.ts:240-242 | the final resource is the one saved by the last `isFinal` step that saved, and none iff no such step saved |
| PipelineSpec.RunIdsSet | server/src/routes/pipelineRuns.ts:238 | every resource a run saves carries a non-empty id |
| PipelineSpec.ResultsOfFailed | server/src/routes/pipelineRuns.ts:245-249 | after a failure at step f, the entries before f are completed with their resource ids and no error, entry f is failed with `err.message` or `Step failed`, the later ones are still pending |
| PipelineSpec.ResultsOfCompleted | server/src/routes/pipelineRuns.ts:245 | after a full run every entry is completed with the id of the resource its step saved |
| PipelineSpec.FailedRun | server/src/routes/pipelineRuns.ts:247-259 | a failed run ends `failed` at the failing step with `Step "<name>" failed: <message>`, `completedAt` set, no final resource, earlier entries completed and later ones pending |
| PipelineSpec.CompletedRun | server/src/routes/pipelineRuns.ts:263-271 | a full run ends `completed` with `completedAt` set, every entry completed, and the final resource of the last `isFinal` step that saved |
| PipelineEngine.AppendOutputs | server/src/routes/pipelineRuns.ts:168-172 | the loop appends one `=== OUTPUT FROM STEP "<name>" ===` block per captured reply, in ascending step order |
| PipelineEngine.AppendSource | server/src/routes/pipelineRuns.ts:156-173 | one source entry appends the launch resources' blocks, the named step's reply only if it was captured and is non-empty, or every captured reply |
| PipelineEngine.BuildUserContent | server/src/routes/pipelineRuns.ts:153-174 | the loop over a step's sources builds their blocks in the order the step lists them |
| PipelineEngine.ResultsAfterDone | server/src/routes/pipelineRuns.ts:245 | marking the next step running and then completed with its resource id is the result entries of the trace extended by that step |
| PipelineEngine.ResultsAfterFailed | server/src/routes/pipelineRuns.ts:249 | marking the next step running and then failed with `err.message` or `Step failed` is the result entries of the trace that records the failure |
| PipelineEngine.FinalResourceSnoc | server/src/routes/pipelineRuns.ts:240-242 | one more step moves the final resource to its own saved resource iff it is an `isFinal` step that saved |
| PipelineEngine.RunStore.constructor | server/src/routes/pipelineRuns.ts:61 | no runs and no resources |
| PipelineEngine.RunStore.Launch | server/src/routes/pipelineRuns.ts:43-72 | a missing pipeline gives 400 `Pipeline not found` and one without steps 400 `Pipeline has no steps`, both creating nothing; otherwise exactly the initial run is stored under the new id |
| PipelineEngine.RunStore.UpdateStepStatus | server/src/routes/pipelineRuns.ts:274-295 | a missing run is left alone; otherwise only its results change, by updating one entry |
| PipelineEngine.RunStore.RunStep | server/src/routes/pipelineRuns.ts:128-243 | one step's body computes exactly the specified outcome, leaves the runs alone and adds at most the resource it saved |
| PipelineEngine.RunStore.MarkRunning | server/src/routes/pipelineRuns.ts:121-126 | before anything is resolved, step i's entry becomes `running` and `currentStep` becomes i |
| PipelineEngine.RunStore.FinishFailed | server/src/routes/pipelineRuns.ts:247-258 | the failing entry gets the step's error, and the run becomes `failed` with `Step "<name>" failed: <message>` and `completedAt` |
| PipelineEngine.RunStore.FinishDone | server/src/routes/pipelineRuns.ts:245 | the entry becomes `completed` with the saved resource's id, if any |
| PipelineEngine.RunStore.ExecuteStep | server/src/routes/pipelineRuns.ts:117-260 | after one iteration the record is the specified progress after step i, or, for a failing step, the run's final failed record |
| PipelineEngine.RunStore.ExecutePipeline | server/src/routes/pipelineRuns.ts:97-272 | the run's record ends as the specified final record (with the properties of `PipelineSpec.FailedRun` and `PipelineSpec.CompletedRun`), and the resources the steps saved are appended in step order |
| ServerData.StampFormat | server/src/routes/generate.ts:77-79 | `_format` is set to `slidecreator/presentation/v1` only when it is absent or empty; an existing one, and whether `slides` is an array, are kept |
| ServerData.StampFormatIdempotent | server/src/routes/pipelineRuns.ts:213-215 | stamping twice is stamping once |
| ServerData.SourcesTextAppend | server/src/routes/generate.ts:34-37 | the source blocks of two lists of resources are the blocks of each, one after the other |
| ServerData.SourceBlockPosition | server/src/routes/generate.ts:34-37 | resource k's `=== SOURCE: <name> ===` block sits between the blocks of the resources before and after it |
| ServerData.AppendSources | server/src/routes/generate.ts:34-37 | the loop appends one `=== SOURCE: <name> ===\n<text>\n\n` block per resource, with `contentText` or else the pretty JSON |
| ServerData.FolderOrNull | server/src/routes/generate.ts:87 | the folder id when it is non-empty, and null otherwise (`outputFolderId` or null) |
| Generate.ValidateResponse | server/src/routes/generate.ts:54-75 | a reply is accepted iff it is non-empty and parses to an object whose `slides` is an array; an empty reply fails without raw text, an unparseable one and one without a `slides` array fail with `rawResponse` equal to the reply |
| Generate.ValidateResponseAsWritten | server/src/routes/generate.ts:69-96 | as written, a reply that parses to `null` throws on `data.slides` and the outer handler answers 500 without the raw text; every other reply is validated as above |
| Generate.NullReplyLosesRawText | server/src/routes/generate.ts:69-75 | the reply `null` is rejected without `rawResponse` as written, and with it as intended |
| Generate.HandleGenerate | server/src/routes/generate.ts:8-98 | a missing generation prompt is reported before a missing system prompt, both before the call; the user message is the source blocks then the resolved generation prompt and the system message the resolved system prompt; a failed call answers 500 with its message or `Generation failed`; any other reply is accepted iff acceptable, and then stored as a presentation with `_format` stamped, named `outputName` or the dated fallback, in `outputFolderId` or at the root; on every reply that does not parse to `null` the answer is the one the code as written gives |
| Generate.AcceptedIsMarkedPresentation | server/src/routes/generate.ts:77-85 | an accepted reply is stored with a `slides` array and a non-empty `_format`, and one that had a `_format` keeps it |
| ProgramRoutes.ContentTable | server/src/lib/resolveVariables.ts:13 | the map `loadFormats` builds has exactly the format names as keys, each mapped to its row's content |
| ProgramRoutes.FormatIndexInsert | server/src/routes/outputFormats.ts:22-24 | inserting a row under a fresh id and an unused name keeps the name index exact and adds exactly that name to the content table |
| ProgramRoutes.PipelineIndexInsert | server/src/routes/generationPipelines.ts:21-23 | inserting a pipeline under a fresh id and an unused name keeps the name index exact |
| ProgramRoutes.FormatIndexUpdate | server/src/routes/outputFormats.ts:49-52 | rewriting one row under a name no other row holds keeps the name index exact |
| ProgramRoutes.PipelineIndexUpdate | server/src/routes/generationPipelines.ts:47-50 | rewriting one pipeline under a name no other pipeline holds keeps the name index exact |
| ProgramRoutes.ProgramDb.constructor | server/src/routes/outputFormats.ts:6 | empty tables and an empty cache |
| ProgramRoutes.ProgramDb.CreateOutputFormat | server/src/routes/outputFormats.ts:17-30 | the name defaults to `New Format` and the content to the empty string; a name conflict answers 400 with the checker's message and writes nothing; otherwise exactly one row is added, the other tables are untouched and the cache is cleared |
| ProgramRoutes.ProgramDb.InsertFormat | server/src/routes/outputFormats.ts:22-25 | the insert adds exactly the row to the table and its name to the index, and clears the cache |
| ProgramRoutes.ProgramDb.PatchOutputFormat | server/src/routes/outputFormats.ts:42-58 | the name is checked, excluding the record's own id, only when supplied, and a conflict answers 400 and writes nothing; a missing record answers 400; otherwise only the supplied `name` and `content` change and the cache is cleared |
| ProgramRoutes.ProgramDb.UpdateFormat | server/src/routes/outputFormats.ts:49-53 | the update replaces exactly the one row, moves its index entry to the new name and clears the cache |
| ProgramRoutes.ProgramDb.DeleteOutputFormat | server/src/routes/outputFormats.ts:60-68 | deleting a missing row answers 500 and changes nothing; otherwise exactly that row and its name leave the tables and the cache is cleared |
| ProgramRoutes.ProgramDb.CreatePipeline | server/src/routes/generationPipelines.ts:16-28 | the name defaults to `New Pipeline` and the definition to `{steps: []}`; a conflict answers 400 and writes nothing; otherwise exactly one pipeline is added |
| ProgramRoutes.ProgramDb.PatchPipeline | server/src/routes/generationPipelines.ts:40-55 | the name is checked, excluding the pipeline's own id, only when supplied, and a conflict writes nothing; a missing pipeline answers 400; otherwise only the supplied `name` and `pipelineData` change |
| ProgramRoutes.ProgramDb.Resolve | server/src/lib/resolveVariables.ts:22-28 | because every format write clears the cache, placeholders are always resolved against the current format table |
| Types.MarkedIsPresentation | client/src/types/index.ts:176-178 | a `_format` starting with `slidecreator/presentation` makes a resource a presentation whatever its `resourceType` |
| Types.UnmarkedIsPresentation | client/src/types/index.ts:179 | without that marker a resource is a presentation iff it is declared `presentation` and has content, so an unmarked `source_file` never is one |
| Types.ThemePresetsShape | client/src/types/index.ts:137-166 | the presets are exactly `dark`, `light`, `warm` and `midnight`, all in `Inter` |
| PresentationMode.PresentationOf | client/src/components/PresentationMode.tsx:12-14 | there is a presentation iff the editor shows a resource with content, and then it is that content |
| PresentationMode.Advance | client/src/components/PresentationMode.tsx:27 | `Math.min(i + 1, n - 1)`: never past the last slide and at most one step on |
| PresentationMode.Back | client/src/components/PresentationMode.tsx:32 | `Math.max(i - 1, 0)`: never before the first slide and at most one step back |
| PresentationMode.AdvanceTimesValue | client/src/components/PresentationMode.tsx:23-27 | k forward presses from a slide reach slide i + k, or stay on the last slide once they reach it |
| PresentationMode.BackTimesValue | client/src/components/PresentationMode.tsx:29-32 | k backward presses reach slide i - k, or stay on the first slide once they reach it |
| PresentationMode.Presenter.constructor | client/src/components/PresentationMode.tsx:9-17 | the show starts on slide 0 with the notes hidden, and leaves presentation mode at once when there is no presentation |
| PresentationMode.Presenter.CurrentSlide | client/src/components/PresentationMode.tsx:63-64 | a slide is shown iff the index is inside the slides, and it is the slide at the index |
| PresentationMode.Presenter.KeyDown | client/src/components/PresentationMode.tsx:19-44 | without a presentation nothing changes; the right and down arrows and space advance, the left and up arrows go back, `Escape` leaves presentation mode, `n`/`N` toggle the notes; the index stays inside the slides |
| PresentationMode.Presenter.Click | client/src/components/PresentationMode.tsx:69-73 | a click that is not on a button advances, one on a button changes nothing |
| SlideCanvas.DefaultBlockShape | client/src/components/SlideCanvas.tsx:46-54 | the block `addBlock` creates has the requested type; a table has two headers and one row of two empty cells, a list one empty item |
| SlideCanvas.Blanks | client/src/components/SlideCanvas.tsx:157 | `new Array(n).fill('')` has `n` cells, all empty |
| SlideCanvas.AppendBlankCell | client/src/components/SlideCanvas.tsx:167 | every row gains exactly one empty cell at its end, and the number of rows is unchanged |
| SlideCanvas.DropLastCell | client/src/components/SlideCanvas.tsx:185 | every row loses its last cell (an empty row stays empty), and the number of rows is unchanged |
| SlideCanvas.ContentEditEffect | client/src/components/SlideCanvas.tsx:89-109 | an input event changes only the named field of a block of the matching type at the named item, header or cell, keeps the block type and the table's row count, and leaves the block unchanged for any other field, block type or missing row |
| SlideCanvas.TableRowRoundTrip | client/src/components/SlideCanvas.tsx:154-177 | adding a row and then removing one gives the table back |
| SlideCanvas.TableColumnRoundTrip | client/src/components/SlideCanvas.tsx:161-188 | adding a column and then removing one gives the table back |
| SlideCanvas.TableEditsKeepShape | client/src/components/SlideCanvas.tsx:89-188 | every block edit keeps a rectangular table rectangular, and the four table edits leave any other kind of block unchanged |
| SlideCanvas.TableRemovalGuards | client/src/components/SlideCanvas.tsx:154-188 | row removal stops at one row and column removal at one header; otherwise the last row or header goes; added rows have one blank cell per header and an added header is `Header <n+1>` |
| SlideCanvas.OpsKeepIdentity | client/src/components/SlideCanvas.tsx:36-140 | every slide updater of the canvas keeps the slide's id and notes, and only the title's input handler changes the title |
| SlideCanvas.EditBlockEffect | client/src/components/SlideCanvas.tsx:36-44 | `updateBlock` applies the edit to the block at the index and keeps the length and every other block |
| SlideCanvas.AddBlockEffect | client/src/components/SlideCanvas.tsx:46-59 | `addBlock` inserts exactly one default block right after `afterIndex`, and removing it gives the blocks back |
| SlideCanvas.DeleteBlockEffect | client/src/components/SlideCanvas.tsx:61-68 | `deleteBlock` does nothing on a slide of one block and otherwise removes exactly the block at the index, so a slide never loses its last block |
| SlideCanvas.MoveBlockEffect | client/src/components/SlideCanvas.tsx:70-79 | `moveBlock` ignores a target outside the slide; otherwise it permutes the blocks with the moved block at the target, and the reverse move restores them |
| SlideCanvas.ListEnterThenBackspace | client/src/components/SlideCanvas.tsx:118-139 | Enter inserts one empty item right after the current one and touches no other block; Backspace on that empty item restores the slide |
| SlideCanvas.ListBackspaceGuard | client/src/components/SlideCanvas.tsx:130-139 | Backspace removes an item only from an empty item of a list of more than one, so a list never becomes empty |
| SlideEditor.UpdateSlides | client/src/components/SlideEditor.tsx:51-59 | `updateSlide` replaces the slide at the index by its updated form, keeps every other slide and the length, and changes nothing for an index outside the presentation |
| SlideEditor.Editor.constructor | client/src/components/SlideEditor.tsx:15-16 | the editor starts on the given presentation with the first slide selected |
| SlideEditor.Editor.Load | client/src/components/SlideEditor.tsx:21-27 | opening another resource replaces the presentation and selects the first slide |
| SlideEditor.Editor.UpdateSlide | client/src/components/SlideEditor.tsx:51-59 | a canvas or notes update changes only the slide at the index and keeps the selection |
| SlideEditor.Editor.AddSlide | client/src/components/SlideEditor.tsx:61-73 | a `New Slide` with one `Click to edit` text block is inserted right after the selection and becomes selected; removing it gives the slides back |
| SlideEditor.Editor.DeleteSlide | client/src/components/SlideEditor.tsx:75-82 | nothing happens with one slide; otherwise the selected slide is removed and the previous one (or the first) is selected; at least one slide remains |
| SlideEditor.Editor.DuplicateSlide | client/src/components/SlideEditor.tsx:84-91 | a copy of the selected slide under a new id is inserted right after it and becomes selected |
| SlideEditor.Editor.MoveSlide | client/src/components/SlideEditor.tsx:93-102 | a target outside the presentation changes nothing; otherwise the slides are permuted with the moved slide at the target, which becomes selected |
| SlideEditor.Editor.SetTheme | client/src/components/SlideEditor.tsx:104-106 | only the theme is replaced |
| SlideEditor.Editor.Select | client/src/components/SlideEditor.tsx:188 | a thumbnail click selects that slide and changes nothing else |
| SlideEditor.DeleteKeepsSelection | client/src/components/SlideEditor.tsx:75-82 | after deleting from more than one slide the new selection points at a slide: the one before the deleted slide, or the new first slide |
| SlideEditor.NotesEditEffect | client/src/components/SlideEditor.tsx:232-234 | a notes edit sets the selected slide's notes and changes nothing else of any slide |
| PptxExport.LowerString | client/src/lib/pptxExport.ts:23 | `toLowerCase` on a match keeps its length and lowers each ASCII letter |
| PptxExport.AltShaped | client/src/lib/pptxExport.ts:10 | every alternative of the tag pattern starts with `<`, holds no other `<` and has at least three characters |
| PptxExport.TagFromFound | client/src/lib/pptxExport.ts:10 | the alternative picked is one of the eight and really matches at the position |
| PptxExport.AltSpan | client/src/lib/pptxExport.ts:10 | a matching alternative fits in the text and agrees with it character by character up to ASCII case |
| PptxExport.TagMatched | client/src/lib/pptxExport.ts:10 | a matched tag starts with `<`, holds no other `<`, is at least three characters long and fits in the text |
| PptxExport.TagsDisjoint | client/src/lib/pptxExport.ts:10 | no tag can start inside another, so resuming after a match skips no tag |
| PptxExport.NextTag | client/src/lib/pptxExport.ts:16 | `regex.exec` from `lastIndex` finds a position at or after it, inside the text, where a tag matches |
| PptxExport.NextTagGap | client/src/lib/pptxExport.ts:16 | the match found is the leftmost: no tag starts between `lastIndex` and it, nor anywhere after `lastIndex` when none is found |
| PptxExport.ScanRunsStep | client/src/lib/pptxExport.ts:16-29 | one pass of the loop: the text before the next tag becomes a run with the current flags when it is non-empty, and the scan goes on past the tag with the flags it sets |
| PptxExport.LowerSpan | client/src/lib/pptxExport.ts:23 | a stretch that matches a tag up to case lowers to that tag |
| PptxExport.MatchedTagText | client/src/lib/pptxExport.ts:23 | the lower-cased text of a match is the text of the alternative that matched |
| PptxExport.ApplyTag | client/src/lib/pptxExport.ts:24-27 | `<b>`/`<strong>` set bold, `</b>`/`</strong>` clear it, `<i>`/`<em>` set italic and `</i>`/`</em>` clear it, leaving the other flag unchanged |
| PptxExport.ScanIntoRuns | client/src/lib/pptxExport.ts:16-33 | the loop's accumulate-as-you-go form appends exactly the runs of the scan to what was pushed before |
| PptxExport.ScanIntoRunsStep | client/src/lib/pptxExport.ts:16-29 | the accumulate-as-you-go form agrees with the scan across one tag, given that it agrees past the tag |
| PptxExport.ScanIntoStep | client/src/lib/pptxExport.ts:17-28 | one pass of the loop moves `lastIndex` forward and leaves the final result of the scan unchanged |
| PptxExport.ScanFromStart | client/src/lib/pptxExport.ts:9-13 | from the start, with no runs pushed and both flags off, the loop's form is the scan |
| PptxExport.FlagsAfterMatch | client/src/lib/pptxExport.ts:23-27 | the flags after a match are those its tag sets, read from its lower-cased text |
| PptxExport.PushText | client/src/lib/pptxExport.ts:17-22 | the text between the previous match and this one becomes a run with the current flags exactly when it is not empty |
| PptxExport.PushMatch | client/src/lib/pptxExport.ts:16-28 | one iteration moves `lastIndex` strictly forward within the text and keeps the final result of the scan |
| PptxExport.ParseInlineFormatting | client/src/lib/pptxExport.ts:8-40 | the loop returns the runs of the scan, or a single run of the whole text with no options when the scan pushed none |
| PptxExport.TextsAppend | client/src/lib/pptxExport.ts:18-32 | the text of concatenated runs is the concatenation of their texts |
| PptxExport.StripPlain | client/src/lib/pptxExport.ts:19 | where no tag starts, stripping the tags copies the text |
| PptxExport.TextsSingle | client/src/lib/pptxExport.ts:32 | the text of one run is that run's text |
| PptxExport.ScanText | client/src/lib/pptxExport.ts:16-33 | the runs' texts, joined, are the input with every tag taken out, in order |
| PptxExport.ScanTextStep | client/src/lib/pptxExport.ts:17-28 | the text-preservation step across one tag |
| PptxExport.ScanRunsShape | client/src/lib/pptxExport.ts:17-33 | every run the loop pushes is non-empty and carries explicit bold and italic flags |
| PptxExport.ScanEmptyIff | client/src/lib/pptxExport.ts:35 | the loop pushes no run exactly when the input is nothing but tags, or empty |
| PptxExport.InlineRunsMeaning | client/src/lib/pptxExport.ts:8-40 | with text outside the tags, the result is non-empty styled runs joining to the input without its tags; otherwise one unstyled run of the whole input |
| PptxExport.FlagsAcrossPlain | client/src/lib/pptxExport.ts:24-27 | the flags only change at tags |
| PptxExport.FlagsAfterTag | client/src/lib/pptxExport.ts:24-28 | just past a tag, its own flag is what the tag says and the other flag is unchanged |
| PptxExport.RunStartsStep | client/src/lib/pptxExport.ts:17-28 | the starts of the runs across one tag: the current position when text precedes the tag, then the starts after it |
| PptxExport.FlagsToNextTag | client/src/lib/pptxExport.ts:16-28 | from the current position up to the next tag the flags stay as they are, and past it they change as that tag says |
| PptxExport.FaithfulCons | client/src/lib/pptxExport.ts:18-21 | a run copied from the input with the flags in force at its start, in front of such runs, gives such runs |
| PptxExport.ScanFlagsStep | client/src/lib/pptxExport.ts:16-29 | the faithfulness of the runs carries back across one tag |
| PptxExport.ScanFlags | client/src/lib/pptxExport.ts:8-33 | each run is a stretch of the input, bold (italic) exactly when the last bold (italic) tag before it opens; closers reset a flag and nesting is not counted |
| PptxExport.TagFromLower | client/src/lib/pptxExport.ts:10 | the alternative matched does not change when the text is lower-cased |
| PptxExport.TagCaseInsensitive | client/src/lib/pptxExport.ts:10 | with the `i` flag, tags are recognised whatever the case of their letters |
| PptxExport.IndexOf | client/src/lib/pptxExport.ts:5 | the index of the first occurrence of the character, or the length when there is none |
| PptxExport.HexToRgb | client/src/lib/pptxExport.ts:4-6 | a colour without `#` is unchanged, and one with a `#` loses exactly one character |
| PptxExport.HexToRgbFirstHash | client/src/lib/pptxExport.ts:5 | the character removed is the first `#`: the text before it and the text after it, later `#` included, are kept |
| PptxExport.ExportFileNameRule | client/src/lib/pptxExport.ts:79 | the file name always ends in `.pptx`; an existing `.pptx` extension in any letter case is replaced, never doubled, and applying the rule twice changes nothing |
| Common.Toggle | client/src/components/TreePanel.tsx:32-46 | toggling an id flips its membership and leaves every other id as it was |
| Common.ToggleTwice | client/src/components/TreePanel.tsx:32-46 | toggling the same id twice restores the set |
| Folders.Find | client/src/components/TreePanel.tsx:143 | `folders.find` by id: a found folder is listed and has that id; nothing is found iff no listed folder has it |
| Folders.Up | client/src/components/TreePanel.tsx:146 | the next folder of the walk is a listed folder whose id is the current folder's `parentId` |
| Folders.ClimbSnoc | client/src/components/TreePanel.tsx:144-147 | one more step of the walk is one parent lookup from where the walk was |
| Folders.ClimbPast | client/src/components/TreePanel.tsx:144 | once the walk has ended it stays ended |
| Folders.FindMember | client/src/components/TreePanel.tsx:143 | with unique ids, looking a listed folder up by its own id finds that folder |
| Folders.SubtreeClosed | client/src/components/TreePanel.tsx:145 | a folder whose parent is inside the subtree of x is inside it too |
| Folders.MoveFolder | client/src/components/TreePanel.tsx:184 | `folders.update(id, { parentId })` seen in the reloaded list: only the folder with that id changes, and only its `parentId` |
| Folders.FindMoved | client/src/components/TreePanel.tsx:184 | after a move, a lookup finds the same folder as before, with its new parent if it is the moved one |
| Folders.DropKeepsAcyclic | client/src/components/TreePanel.tsx:182-184 | re-parenting a folder under a target that is neither the folder nor inside its subtree leaves the forest without a parent cycle |
| TreePanel.IsDescendant | client/src/components/TreePanel.tsx:142-149 | the loop answers true iff the id is the `parentId` of some folder on the walk up from `folderId`, that is iff it is a strict ancestor of that folder |
| TreePanel.HandleDrop | client/src/components/TreePanel.tsx:171-188 | no payload, no call; a resource always moves to the target, null meaning the root; a folder moves unless the target is the folder itself or, if truthy, one of its descendants; a move that happens leaves the forest acyclic |
| TreePanel.FoldersWithParent | client/src/components/TreePanel.tsx:191 | the child folders are exactly those whose `parentId` is the parent |
| TreePanel.InsertByOrder | client/src/components/TreePanel.tsx:191 | inserting into folders sorted by `sortOrder` keeps them sorted and adds exactly that folder |
| TreePanel.SortByOrder | client/src/components/TreePanel.tsx:191 | the sort gives the same folders, each as often, ascending by `sortOrder` |
| TreePanel.ChildFoldersMeaning | client/src/components/TreePanel.tsx:190-191 | a parent's child folders are the folders with that `parentId`, each as often as listed, ascending by `sortOrder` |
| TreePanel.ChildResources | client/src/components/TreePanel.tsx:192 | the child resources are exactly those whose `folderId` is the parent |
| TreePanel.Ungrouped | client/src/components/TreePanel.tsx:303 | the ungrouped items are exactly those whose `folder` is falsy |
| TreePanel.Labels | client/src/components/TreePanel.tsx:304 | the labels are exactly the truthy `folder` values of the items |
| TreePanel.Dedup | client/src/components/TreePanel.tsx:304 | `[...new Set(s)]` holds the same values, each once |
| TreePanel.FirstIndex | client/src/components/TreePanel.tsx:304 | the index of the first occurrence of a value |
| TreePanel.DedupOrder | client/src/components/TreePanel.tsx:304 | the distinct values come in the order of their first occurrences |
| TreePanel.FolderItems | client/src/components/TreePanel.tsx:311 | a group holds exactly the items whose `folder` is that label |
| TreePanel.GroupingPartition | client/src/components/TreePanel.tsx:303-311 | the group labels are distinct and are exactly the truthy labels; an unlabelled item is among the ungrouped and in no group; a labelled item is in exactly the group of its label and not among the ungrouped |
| TreePanel.FolderNamesOrder | client/src/components/TreePanel.tsx:304 | the groups appear in the order of the first item carrying each label |
| TreePanel.Trim | client/src/components/TreePanel.tsx:67 | the trimmed text is no longer than the text and neither starts nor ends with white space |
| TreePanel.TrimBounds | client/src/components/TreePanel.tsx:67 | the trimmed text is the slice of the text left after cutting white space, and only white space, from both ends |
| TreePanel.TrimIdempotent | client/src/components/TreePanel.tsx:66-67 | trimming twice is trimming once |
| TreePanel.TrimBlank | client/src/components/TreePanel.tsx:66 | the trimmed text is empty iff the text is all white space |
| TreePanel.ProgramKindOf | client/src/components/TreePanel.tsx:55 | exactly the four tags `generation_prompt`, `system_prompt`, `output_format` and `generation_pipeline` are program resources |
| TreePanel.RenameCancels | client/src/components/TreePanel.tsx:66 | a blank name, or no id or type being renamed, ends the edit with no question and no call |
| TreePanel.RenameAsks | client/src/components/TreePanel.tsx:69-76 | confirmation is asked iff the item is one of the four program resources and the trimmed name differs from the original; a refusal makes no call |
| TreePanel.RenameStoresTrimmed | client/src/components/TreePanel.tsx:67-91 | any call renames the item being edited to the trimmed text, which is non-empty and already trimmed |
| TreePanel.RenameDispatch | client/src/components/TreePanel.tsx:78-91 | the call is the folder rename, the resource update or the program update for the item's type, and none for an unknown type or a refused confirmation |
| GenerateDialog.FirstId | client/src/components/GenerateDialog.tsx:25-26 | the first prompt's id, or the empty string when there are no prompts |
| GenerateDialog.ProjectName | client/src/components/GenerateDialog.tsx:32 | the name of the first project with the current id, or `Project` when there is none |
| Common.CompactTimestampLayout | server/src/routes/pipelineRuns.ts:217-219 | for a four-digit year the stamp is 15 characters `YYMMDD:HH:MM:SS`, with colons at 6, 9 and 12, every other character a digit, and each two-digit field reading back as the year modulo 100, the 1-based month, the day, hours, minutes and seconds |
| Common.Pad2Value | client/src/components/GenerateDialog.tsx:30 | `padStart(2, '0')` gives at least two digits, and below 100 exactly two that read back as the number |
| Common.YearSuffix | client/src/components/GenerateDialog.tsx:31 | `String(year).slice(2)` of a four-digit year is two digits reading back as the year modulo 100 |
| GenerateDialog.DefaultOutputNameLayout | client/src/components/GenerateDialog.tsx:29-33 | the proposed name is the project name, then ` - Presentation - Generated - `, then the 15-character stamp with its colons in place |
| GenerateDialog.SelectAll | client/src/components/GenerateDialog.tsx:48 | `selectAll` selects exactly the ids of the resources |
| GenerateDialog.HandleGenerateRules | client/src/components/GenerateDialog.tsx:51-73 | a missing prompt is reported iff either prompt id is empty, even with no source selected; the source message iff both prompts are chosen and no source is; otherwise the request carries the dialog's project, sources, prompts, folder and name |
| GenerateDialog.OpenedNeedsSources | client/src/components/GenerateDialog.tsx:22-59 | a freshly opened dialog asks for a source when both prompt lists have a first prompt, and for the prompts when either list is empty |
| GenerateDialog.FailureMessage | client/src/components/GenerateDialog.tsx:80 | the error's own message, or `Generation failed. Please try again.` when it is empty |
| GenerateDialog.Dialog.constructor | client/src/components/GenerateDialog.tsx:13-20 | closed, idle, with no selection, no error and the empty name |
| GenerateDialog.Dialog.Open | client/src/components/GenerateDialog.tsx:22-35 | opening resets the selection, picks the first prompts, clears template and folder, proposes the default name and clears the error |
| GenerateDialog.Dialog.ToggleSource | client/src/components/GenerateDialog.tsx:40-46 | only the selection changes, by toggling one id |
| GenerateDialog.Dialog.SetAllSources | client/src/components/GenerateDialog.tsx:48-49 | the selection becomes every resource id, or the empty set |
| GenerateDialog.Dialog.Generate | client/src/components/GenerateDialog.tsx:51-84 | an invalid dialog only shows its message and sends nothing; a valid one sends exactly its request, then on success shows the new resource and closes, on failure keeps open and shows the message; afterwards it is never generating |
| GenerateDialog.SlashCountConcat | client/src/components/GenerateDialog.tsx:94 | the slashes of a concatenation are those of its parts |
| GenerateDialog.GetFolderPath | client/src/components/GenerateDialog.tsx:89-95 | no folder or an unknown id gives the empty string; a listed folder's path ends with its name and is non-empty when the name is |
| GenerateDialog.FolderPathOfRoot | client/src/components/GenerateDialog.tsx:93-94 | a folder with no listed parent shows just its name |
| GenerateDialog.FolderPathOfChild | client/src/components/GenerateDialog.tsx:93-94 | a folder under a listed, named parent shows `<parentPath>/<name>` |
| GenerateDialog.FolderPathDepth | client/src/components/GenerateDialog.tsx:89-95 | with plain names, a folder with d ancestors has a path with exactly d slashes, one name per level |
| Store.WithContent | client/src/store/index.ts:287-289 | only the resources with that id change, and only their `contentJson`, which becomes the new data; the length is kept |
| Store.Retarget | client/src/store/index.ts:290-293 | the editor target changes only when it shows that resource, and then only its `contentJson` |
| Store.UpdateKeepsInSync | client/src/store/index.ts:285-295 | when the shown resource agreed with its list entry before an edit, it agrees after |
| Store.UpdateIdempotent | client/src/store/index.ts:285-295 | applying the same edit twice is applying it once, to the list and to the target |
| Store.FindImported | client/src/store/index.ts:60 | the first root folder named `Imported`, none iff there is no such folder |
| Store.EnsureImportedFolder | client/src/store/index.ts:59-64 | an existing root folder named `Imported` is reused; only when there is none is the newly created folder's id returned |
| Store.UploadFolder | client/src/store/index.ts:168-176 | an upload goes to the given folder, and without one to the `Imported` folder |
| Store.ImportedFolderReused | client/src/store/index.ts:59-64 | once an upload has created the `Imported` folder, later uploads reuse it |
| Store.AppStore.constructor | client/src/store/index.ts:67-75 | no projects, no current project, no folders or resources, nothing in the editor |
| Store.AppStore.SetCurrentProject | client/src/store/index.ts:84-87 | the current project becomes the id and the editor always closes |
| Store.AppStore.DeleteProject | client/src/store/index.ts:100-107 | deleting the current project clears it, its folders, its resources and the editor; deleting another leaves the workspace as it was |
| Store.AppStore.DeleteResource | client/src/store/index.ts:155-163 | the editor closes iff it showed that resource; nothing else changes |
| Store.AppStore.DeleteProgramItem | client/src/store/index.ts:206-213 | the editor closes iff it showed an item of that kind with that id (the same rule at lines 228-235, 250-257 and 272-279) |
| Store.AppStore.UpdatePresentationData | client/src/store/index.ts:285-295 | the list and the target get the new content as above, agreement between them is kept, and nothing else changes |
| Store.AppStore.CreateResourceTarget | client/src/store/index.ts:136-139 | without a current project the action fails with `No project selected`; otherwise it creates in the current project |

## Left out

- The language model, Prisma and HTTP are outside the model. Model replies, parse results, new ids and the clock are parameters. A database error is modelled only where a route turns it into a response (the "not found" of an update).
- Fire-and-forget execution of a pipeline run is left out: the run is one sequential method. Concurrency and the read-modify-write race of `updateStepStatus` are left out too.
- Clock reads are not modelled; the date fields or the millisecond reading are inputs. `toLocaleString` in the one-shot generate fallback name is an input string. The name keeps the prefix bytes exactly as the source file holds them.
- The layout arithmetic of `renderBlockToPptx` (client/src/lib/pptxExport.ts:82-191) is left out: it is floating point and calls PptxGenJS. So is the PptxGenJS deck built in `exportToPptx`. Only its file-name rule and colour conversion are modelled.
- The debounce timer of the slide editor is not modelled, because it only delays the save. DOM events, `contentEditable`, drag-and-drop `dataTransfer`, fullscreen effects and rendering are not modelled either. `confirm` answers are inputs and `alert` is a returned message.
- List reloads after a write are not modelled: `loadProjectData`, `loadProgramResources`, and the editor-target re-fetch in the update actions. They re-read the server.
- `handleDelete` and `handleDuplicate` of the tree panel are left out: they only call the server and reload.
- The `DELETE` route of generation pipelines and all `GET` routes are left out: they are plain reads and deletes without rules.
- The `slide_template` editor target of presentation mode is left out. It is not one of the `EditorTarget` variants the client's types declare.
- Request bodies of other shapes are outside the model; JSON values are a small datatype. Prisma's own error texts are left out except the update-not-found message.
- Generation-prompt and system-prompt writes are left out. They never check names, so cross-kind uniqueness is not a global invariant and is proved only per write.
- TreePanel.ChildFoldersMeaning: the order among folders of equal `sortOrder` is not fixed by the model. The proof covers a sorted permutation, not the stability of `Array.prototype.sort`.
- GenerateDialog.Dialog.Generate: the selected sources are a set. The order `Array.from` gives them is not modelled.
- TreePanel.IsDescendant requires an acyclic forest, given by a rank on the folder ids. On a cycle the source loops forever. The same holds for TreePanel.HandleDrop and GenerateDialog.GetFolderPath.
- TreePanel.HandleDrop assumes unique, non-empty folder ids, which database keys are. Only under that assumption does it prove that the drop keeps the forest acyclic.
- SeqOps.Move requires the source index to exist. Both callers pass the focused block or the selected slide, so `splice` never sees another one.
- PresentationMode.Presenter.Click requires a presentation. Without one the component renders nothing to click.
- SlideEditor.Editor.AddSlide, DeleteSlide, DuplicateSlide and MoveSlide require the selected slide to exist. Otherwise the editor renders nothing and its toolbar is not shown.
- GenerateDialog.Dialog.Generate requires that no generation is running. The button is disabled while one is.
- GenerateDialog.DefaultOutputName requires a four-digit year. That is what makes the timestamp fields two characters wide.
- Generate.HandleGenerate validates the reply with the corrected Generate.ValidateResponse of the Findings table. On a reply that parses to `null` the source answers 500 `Cannot read properties of null (reading 'slides')` without `rawResponse`; the model answers 500 `Invalid presentation structure: missing slides array` with the raw reply. On every other reply the two agree, as its ensures state.
- PipelineSpec.SavedResource names the resource with the corrected PipelineSpec.ResolveOutputName of the Findings table, and so do PipelineSpec.EvalStep, PipelineSpec.RunTrace and the engine's PipelineEngine.RunStore.RunStep and ExecutePipeline that build on it. On a template placeholder such as `{{constructor}}` or `{{toString}}` the source names the resource after the inherited member (`function Object() { [native code] }`); the model gives the empty string there.
- PipelineSpec.SavedResourceName states the corrected name. It equals the source's name only when no placeholder of the template names an inherited member (PipelineSpec.AsWrittenAgrees).
- SlideCanvas.SetItem and SlideCanvas.EditBlockContent take an item, header or cell index outside the list as no change. In the source `items[idx] = text` on the copy would extend the array; the canvas only passes indices of rendered items.
- ServerData.StampFormat holds `_format` as an optional string. A falsy value of another type (`0`, `false`, `null`) that `!data._format` would also overwrite cannot be represented.

## Findings

| source | as written | input that shows it | evidently intended | confidence | as-written member | corrected member |
|---|---|---|---|---|---|---|
| server/src/routes/generate.ts:69-70 | `data.slides` is read on whatever `JSON.parse` returned. For `null` the read throws, and the outer handler answers 500 with no raw text. | the model replies `null` | a reply without a `slides` array, `null` included, is a rejection carrying the raw reply | not executed | Generate.ValidateResponseAsWritten, Generate.NullReplyLosesRawText | Generate.ValidateResponse |
| server/src/routes/pipelineRuns.ts:39 | `vars[key]` on an object literal finds members inherited from `Object.prototype`, so such a key is not replaced by the empty string | the output-name template `{{constructor}}` gives `function Object() { [native code] }` | a key other than `project`, `step` and `timestamp` becomes the empty string | not executed | PipelineSpec.InheritedKeyAsWritten, PipelineSpec.ConstructorKey | PipelineSpec.ResolveOutputName, PipelineSpec.UnknownKeyIsEmpty |
