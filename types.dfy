/**
 * The shared record types of client/src/types/index.ts (which the server's
 * pipeline route redeclares for its steps and step results), the
 * structural presentation test and the four theme presets.
 */
module Types {
  import opened Common

  datatype Theme = Theme(
    backgroundColor: string,
    titleColor: string,
    accentColor: string,
    textColor: string,
    fontFamily: string)

  /** The `type` tag of a block, as the block toolbar names it. */
  datatype BlockType = TextType | BulletsType | NumberedType | TableType | QuoteType

  /** A slide block: exactly five variants. */
  datatype Block =
    | Text(content: string)
    | Bullets(items: seq<string>)
    | Numbered(items: seq<string>)
    | Table(headers: seq<string>, rows: seq<seq<string>>)
    | Quote(content: string)

  datatype Slide = Slide(id: string, title: string, blocks: seq<Block>, notes: string)

  /** Presentation content; `format` is the optional `_format` marker. */
  datatype PresentationData = PresentationData(
    format: Option<string>,
    title: string,
    theme: Theme,
    slides: seq<Slide>)

  datatype Project = Project(id: string, name: string)

  datatype Folder = Folder(
    id: string,
    projectId: string,
    parentId: Option<string>,
    name: string,
    sortOrder: int)

  datatype ResourceType = SourceFile | PresentationResource

  datatype Resource = Resource(
    id: string,
    projectId: string,
    folderId: Option<string>,
    name: string,
    resourceType: ResourceType,
    contentText: Option<string>,
    contentJson: Option<PresentationData>)

  /** The four kinds of named program resource. */
  datatype ProgramKind = GenerationPromptKind | SystemPromptKind | OutputFormatKind | GenerationPipelineKind

  /** A program resource as the tree shows it; only prompts carry a `folder` label. */
  datatype ProgramItem = ProgramItem(id: string, name: string, folder: Option<string>)

  datatype EditorTarget =
    | NoTarget
    | ResourceTarget(resource: Resource)
    | ProgramTarget(kind: ProgramKind, item: ProgramItem)

  /** Where a pipeline step's user message draws from: three variants, only one with a step index. */
  datatype StepSource = ProjectResources | StepOutput(step: int) | AllStepOutputs

  /**
   * A pipeline step. The optional strings are the JSON fields as stored;
   * `isFinal` absent reads as false.
   */
  datatype PipelineStep = PipelineStep(
    name: string,
    generationPrompt: Option<string>,
    generationPromptInline: Option<string>,
    systemPrompt: Option<string>,
    systemPromptInline: Option<string>,
    sources: seq<StepSource>,
    saveToProject: bool,
    outputNameTemplate: Option<string>,
    isFinal: bool)

  datatype PipelineDefinition = PipelineDefinition(steps: seq<PipelineStep>)

  datatype StepStatus = Pending | Running | Completed | Failed

  datatype StepResult = StepResult(
    stepIndex: int,
    stepName: string,
    status: StepStatus,
    resourceId: Option<string>,
    error: Option<string>)

  datatype RunStatus = RunRunning | RunCompleted | RunFailed

  /** The persisted run record; times are clock readings supplied from outside. */
  datatype PipelineRun = PipelineRun(
    id: string,
    pipelineId: string,
    projectId: string,
    status: RunStatus,
    currentStep: int,
    totalSteps: nat,
    stepResults: seq<StepResult>,
    outputFolderId: Option<string>,
    sourceResourceIds: seq<string>,
    finalResourceId: Option<string>,
    error: Option<string>,
    startedAt: int,
    completedAt: Option<int>)

  const PresentationFormatPrefix := "slidecreator/presentation"

  /** `json?._format?.startsWith('slidecreator/presentation')`. */
  predicate FormatMarked(r: Resource) {
    r.contentJson.Some? && r.contentJson.value.format.Some? &&
    StartsWith(r.contentJson.value.format.value, PresentationFormatPrefix)
  }

  /** `isPresentation`: the format marker decides first, then the declared type with non-null content. */
  predicate IsPresentation(r: Resource) {
    if FormatMarked(r) then true
    else r.resourceType == PresentationResource && r.contentJson.Some?
  }

  /** A format marker makes a resource a presentation whatever its declared type. */
  lemma MarkedIsPresentation(r: Resource)
    requires FormatMarked(r)
    ensures IsPresentation(r)
    ensures IsPresentation(r.(resourceType := SourceFile))
  {
  }

  /** Without the marker, a resource is a presentation iff it is declared one and has content. */
  lemma UnmarkedIsPresentation(r: Resource)
    requires !FormatMarked(r)
    ensures IsPresentation(r) <==> r.resourceType == PresentationResource && r.contentJson.Some?
    ensures r.resourceType == SourceFile ==> !IsPresentation(r)
  {
  }

  const ThemePresets: map<string, Theme> := map[
    "dark" := Theme("#1A1A2E", "#FFFFFF", "#4EC9B0", "#E0E0E0", "Inter"),
    "light" := Theme("#FFFFFF", "#1A1A2E", "#2563EB", "#374151", "Inter"),
    "warm" := Theme("#FFF8F0", "#3E2723", "#E67E22", "#4E342E", "Inter"),
    "midnight" := Theme("#0D1117", "#E6EDF3", "#58A6FF", "#8B949E", "Inter")
  ]

  lemma ThemePresetsShape()
    ensures ThemePresets.Keys == {"dark", "light", "warm", "midnight"}
    ensures forall k :: k in ThemePresets ==> ThemePresets[k].fontFamily == "Inter"
  {
  }
}
