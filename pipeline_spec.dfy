/**
 * What a pipeline run computes (server/src/routes/pipelineRuns.ts), as pure
 * functions: the output-name template, prompt resolution, the user message
 * of a step, the outcome of one step, the trace of a whole run (outputs
 * captured, resources saved, the failing step) and the run record it leaves
 * behind. The engine's methods are proved against these definitions.
 */
module PipelineSpec {
  import opened Common
  import opened Types
  import opened ServerData
  import opened Placeholders
  import opened ResolveVariables

  // ---------------------------------------------------------------------
  // Output names: `resolveOutputName`

  /** The variables object `{ project, step, timestamp }`. */
  datatype NameVars = NameVars(project: string, step: string, timestamp: string)

  /** The object's own properties. */
  function OwnVar(vars: NameVars, key: string): Option<string> {
    if key == "project" then Some(vars.project)
    else if key == "step" then Some(vars.step)
    else if key == "timestamp" then Some(vars.timestamp)
    else None
  }

  /**
   * The members every plain object inherits from `Object.prototype`, each
   * with the string `replace` makes of it: a native function's source text,
   * or `[object Object]` for the prototype itself.
   */
  const InheritedTable: map<string, string> := map[
    "constructor" := "function Object() { [native code] }",
    "__proto__" := "[object Object]",
    "hasOwnProperty" := "function hasOwnProperty() { [native code] }",
    "isPrototypeOf" := "function isPrototypeOf() { [native code] }",
    "propertyIsEnumerable" := "function propertyIsEnumerable() { [native code] }",
    "toString" := "function toString() { [native code] }",
    "valueOf" := "function valueOf() { [native code] }",
    "toLocaleString" := "function toLocaleString() { [native code] }",
    "__defineGetter__" := "function __defineGetter__() { [native code] }",
    "__defineSetter__" := "function __defineSetter__() { [native code] }",
    "__lookupGetter__" := "function __lookupGetter__() { [native code] }",
    "__lookupSetter__" := "function __lookupSetter__() { [native code] }"]

  /** What `vars[key]` yields for a key the object inherits rather than owns. */
  function InheritedMember(key: string): Option<string> {
    if key in InheritedTable then Some(InheritedTable[key]) else None
  }

  /** The own properties as a lookup table. */
  function OwnTable(vars: NameVars): map<string, string> {
    map["project" := vars.project, "step" := vars.step, "timestamp" := vars.timestamp]
  }

  /** `(_, key) => vars[key] || ''` as written: the lookup falls through to inherited members. */
  function NameReplacementAsWritten(vars: NameVars): Replacer {
    Replacer(InheritedTable + OwnTable(vars), false)
  }

  /** The intended replacement: an own variable's value, every other key the empty string. */
  function NameReplacement(vars: NameVars): Replacer {
    Replacer(OwnTable(vars), false)
  }

  /** The intended callback gives an own variable's value, and the empty string for any other key. */
  lemma NameReplacementValue(vars: NameVars, key: string, match_: string)
    ensures Replacement(NameReplacement(vars), key, match_) == OrElse(OwnVar(vars, key), "")
  {
  }

  /** The callback as written gives an own variable's value, else an inherited member's string form, else "". */
  lemma NameReplacementAsWrittenValue(vars: NameVars, key: string, match_: string)
    ensures Replacement(NameReplacementAsWritten(vars), key, match_) ==
      OrElse(if OwnVar(vars, key).Some? then OwnVar(vars, key) else InheritedMember(key), "")
  {
  }

  function ResolveOutputNameAsWritten(template: Option<string>, fallback: string, vars: NameVars): string {
    if !Truthy(template) then fallback else ReplaceAll(template.value, WordChar, NameReplacementAsWritten(vars))
  }

  /** `resolveOutputName` with own-property lookup; the rest of the engine uses this one. */
  function ResolveOutputName(template: Option<string>, fallback: string, vars: NameVars): (r: string)
    ensures !Truthy(template) ==> r == fallback
    ensures Truthy(template) && !Contains(template.value, "{{") ==> r == template.value
  {
    if !Truthy(template) then fallback
    else
      if !Contains(template.value, "{{") then
        Placeholders.NoOpeningUnchanged(template.value, WordChar, NameReplacement(vars));
        ReplaceAll(template.value, WordChar, NameReplacement(vars))
      else ReplaceAll(template.value, WordChar, NameReplacement(vars))
  }

  /** A leading `{{key}}` becomes the variable's value, or the empty string for any other key. */
  lemma LeadingKey(key: string, rest: string, fallback: string, vars: NameVars)
    requires key != [] && forall m :: 0 <= m < |key| ==> IsWordChar(key[m])
    ensures ResolveOutputName(Some("{{" + key + "}}" + rest), fallback, vars) ==
      OrElse(OwnVar(vars, key), "") + ReplaceAll(rest, WordChar, NameReplacement(vars))
  {
    LeadingPlaceholder(key, rest, WordChar, NameReplacement(vars));
    NameReplacementValue(vars, key, "{{" + key + "}}");
  }

  /** A non-empty template is scanned for placeholders. */
  lemma WithTemplate(template: string, fallback: string, vars: NameVars)
    requires template != ""
    ensures ResolveOutputName(Some(template), fallback, vars) == ReplaceAll(template, WordChar, NameReplacement(vars))
  {
  }

  /** `k` is a run of `\w` characters, so `{{k}}` is a placeholder. */
  predicate WordKey(k: string) {
    k != [] && forall m :: 0 <= m < |k| ==> IsWordChar(k[m])
  }

  /**
   * As written, a placeholder naming a member every object inherits is not
   * an unknown key: it is replaced by that member's string form.
   */
  lemma InheritedKeyAsWritten(key: string, fallback: string, vars: NameVars)
    requires WordKey(key) && OwnVar(vars, key).None? && InheritedMember(key).Some?
    ensures ResolveOutputNameAsWritten(Some("{{" + key + "}}"), fallback, vars) == InheritedMember(key).value
  {
    var repl := NameReplacementAsWritten(vars);
    LeadingPlaceholder(key, "", WordChar, repl);
    NameReplacementAsWrittenValue(vars, key, "{{" + key + "}}");
    assert "{{" + key + "}}" + "" == "{{" + key + "}}";
    Placeholders.NoOpeningUnchanged("", WordChar, repl);
  }

  /** With own-property lookup, a placeholder naming no variable becomes the empty string. */
  lemma UnknownKeyIsEmpty(key: string, fallback: string, vars: NameVars)
    requires WordKey(key) && OwnVar(vars, key).None?
    ensures ResolveOutputName(Some("{{" + key + "}}"), fallback, vars) == ""
  {
    var repl := NameReplacement(vars);
    WithTemplate("{{" + key + "}}", fallback, vars);
    LeadingPlaceholder(key, "", WordChar, repl);
    NameReplacementValue(vars, key, "{{" + key + "}}");
    assert "{{" + key + "}}" + "" == "{{" + key + "}}";
    Placeholders.NoOpeningUnchanged("", WordChar, repl);
  }

  /** The template `{{constructor}}`: the object's constructor as written, the empty string as intended. */
  lemma ConstructorKey(key: string, fallback: string, vars: NameVars)
    requires key == "constructor"
    ensures ResolveOutputNameAsWritten(Some("{{" + key + "}}"), fallback, vars) == "function Object() { [native code] }"
    ensures ResolveOutputName(Some("{{" + key + "}}"), fallback, vars) == ""
  {
    InheritedKeyAsWritten(key, fallback, vars);
    UnknownKeyIsEmpty(key, fallback, vars);
  }

  /** No placeholder of the template names a member that objects inherit. */
  predicate NoInheritedKeys(template: string) {
    forall i :: 0 <= i < |template| && PlaceholderEnd(template, i, WordChar).Some? ==>
      template[i + 2..PlaceholderEnd(template, i, WordChar).value] !in InheritedTable
  }

  /**
   * The intended lookup differs from the one as written only on inherited
   * keys: on every other template both give the same name.
   */
  lemma AsWrittenAgrees(template: Option<string>, fallback: string, vars: NameVars)
    requires Truthy(template) ==> NoInheritedKeys(template.value)
    ensures ResolveOutputNameAsWritten(template, fallback, vars) == ResolveOutputName(template, fallback, vars)
  {
    if Truthy(template) {
      var t := template.value;
      forall i | 0 <= i < |t|
        ensures StepText(t, i, WordChar, NameReplacementAsWritten(vars)) == StepText(t, i, WordChar, NameReplacement(vars))
      {
        if PlaceholderEnd(t, i, WordChar).Some? {
          var key := t[i + 2..PlaceholderEnd(t, i, WordChar).value];
          assert key !in InheritedTable;
        }
      }
      AgreeingReplacers(t, 0, WordChar, NameReplacementAsWritten(vars), NameReplacement(vars));
    }
  }

  /**
   * `{{a}}<sep>{{b}}`, with a separator that opens no placeholder, is the
   * two variables' values around the separator.
   */
  lemma TwoKeyTemplate(a: string, sep: string, b: string, fallback: string, vars: NameVars)
    requires WordKey(a) && WordKey(b)
    requires forall m :: 0 <= m < |sep| ==> sep[m] != '{'
    ensures ResolveOutputName(Some("{{" + a + "}}" + sep + "{{" + b + "}}"), fallback, vars) ==
      OrElse(OwnVar(vars, a), "") + sep + OrElse(OwnVar(vars, b), "")
  {
    TwoPlaceholders(a, sep, b, WordChar, NameReplacement(vars));
    NameReplacementValue(vars, a, "{{" + a + "}}");
    NameReplacementValue(vars, b, "{{" + b + "}}");
    WithTemplate("{{" + a + "}}" + sep + "{{" + b + "}}", fallback, vars);
  }

  /** `{{project}} - {{step}}` names the resource after the project and the step. */
  lemma ProjectStepTemplate(a: string, sep: string, b: string, fallback: string, vars: NameVars)
    requires a == "project" && sep == " - " && b == "step"
    ensures ResolveOutputName(Some("{{" + a + "}}" + sep + "{{" + b + "}}"), fallback, vars) ==
      vars.project + " - " + vars.step
  {
    TwoKeyTemplate(a, sep, b, fallback, vars);
  }

  // ---------------------------------------------------------------------
  // Prompts

  datatype PromptKind = SystemKind | GenerationKind

  function KindTitle(k: PromptKind): string {
    match k
    case SystemKind => "System"
    case GenerationKind => "Generation"
  }

  function KindLower(k: PromptKind): string {
    match k
    case SystemKind => "system"
    case GenerationKind => "generation"
  }

  /**
   * A step's prompt text: the inline text when non-empty, else the named
   * prompt's content; an unknown name or neither field is an error.
   */
  function ResolvePrompt(inline: Option<string>, named: Option<string>, table: map<string, string>,
                         kind: PromptKind, stepName: string): (r: Result<string, string>)
    ensures Truthy(inline) ==> r == Success(inline.value)
    ensures !Truthy(inline) && Truthy(named) ==> (r.Success? <==> named.value in table)
    ensures !Truthy(inline) && Truthy(named) && named.value in table ==> r.value == table[named.value]
    ensures !Truthy(inline) && Truthy(named) && named.value !in table ==>
      r.error == KindTitle(kind) + " prompt not found: \"" + named.value + "\""
    ensures !Truthy(inline) && !Truthy(named) ==>
      r == Failure("Step \"" + stepName + "\" has no " + KindLower(kind) + " prompt")
  {
    if Truthy(inline) then Success(inline.value)
    else if Truthy(named) then
      if named.value in table then Success(table[named.value])
      else Failure(KindTitle(kind) + " prompt not found: \"" + named.value + "\"")
    else Failure("Step \"" + stepName + "\" has no " + KindLower(kind) + " prompt")
  }

  // ---------------------------------------------------------------------
  // The user message

  /** `pipelineData.steps[stepIdx]?.name || \`Step ${stepIdx}\``. */
  function StepLabel(steps: seq<PipelineStep>, idx: int): string {
    if 0 <= idx < |steps| && steps[idx].name != "" then steps[idx].name else "Step " + IntToString(idx)
  }

  function OutputBlock(heading: string, output: string): string {
    "=== OUTPUT FROM STEP \"" + heading + "\" ===\n" + output + "\n\n"
  }

  /**
   * `stepOutputs.get(idx)`. Outputs are set for steps 0, 1, ... in order, so
   * the map's entries in insertion order are a sequence indexed by step.
   */
  function OutputOf(outputs: seq<string>, idx: int): Option<string> {
    if 0 <= idx < |outputs| then Some(outputs[idx]) else None
  }

  /** The blocks of the first `n` captured outputs, in ascending step order. */
  function OutputsUpTo(steps: seq<PipelineStep>, outputs: seq<string>, n: nat): string
    requires n <= |outputs|
  {
    if n == 0 then "" else OutputsUpTo(steps, outputs, n - 1) + OutputBlock(StepLabel(steps, n - 1), outputs[n - 1])
  }

  /** Every captured output, in ascending step order. */
  function AllOutputsText(steps: seq<PipelineStep>, outputs: seq<string>): string {
    OutputsUpTo(steps, outputs, |outputs|)
  }

  /** What one source entry adds to the user message. */
  function SourceText(steps: seq<PipelineStep>, sources: seq<SourceResource>, outputs: seq<string>, src: StepSource): string {
    match src
    case ProjectResources => SourcesText(sources)
    case StepOutput(k) => if Truthy(OutputOf(outputs, k)) then OutputBlock(StepLabel(steps, k), outputs[k]) else ""
    case AllStepOutputs => AllOutputsText(steps, outputs)
  }

  /** The contributions of the first `n` source entries, in the order the step lists them. */
  function SourcesUpTo(steps: seq<PipelineStep>, sources: seq<SourceResource>, outputs: seq<string>,
                       srcs: seq<StepSource>, n: nat): string
    requires n <= |srcs|
  {
    if n == 0 then ""
    else SourcesUpTo(steps, sources, outputs, srcs, n - 1) + SourceText(steps, sources, outputs, srcs[n - 1])
  }

  function StepSourcesText(steps: seq<PipelineStep>, sources: seq<SourceResource>, outputs: seq<string>,
                           srcs: seq<StepSource>): string {
    SourcesUpTo(steps, sources, outputs, srcs, |srcs|)
  }

  /** The message sent as `user`: the sources' blocks, then the resolved generation prompt. */
  function UserContent(steps: seq<PipelineStep>, sources: seq<SourceResource>, outputs: seq<string>,
                       srcs: seq<StepSource>, generationContent: string, formats: map<string, string>): string {
    StepSourcesText(steps, sources, outputs, srcs) + Substitute(generationContent, formats)
  }

  // ---------------------------------------------------------------------
  // One step

  /**
   * Everything a run depends on besides its record: the steps, the source
   * rows, the project, the prompt tables by name, the format table, the
   * generation call (on step index, system and user message), `JSON.parse`,
   * the clock reading at each step's save and the id of each step's resource.
   */
  datatype RunContext = RunContext(
    steps: seq<PipelineStep>,
    sources: seq<SourceResource>,
    projectId: string,
    projectName: string,
    outputFolderId: Option<string>,
    systemPrompts: map<string, string>,
    generationPrompts: map<string, string>,
    formats: map<string, string>,
    complete: (nat, string, string) -> Completion,
    parse: string -> JsonParse,
    clock: nat -> DateTime,
    resourceId: nat -> string)

  /** `project?.name || 'Project'`. */
  function ProjectName(name: Option<string>): (r: string)
    ensures r != ""
  {
    OrElse(name, "Project")
  }

  /** A non-null object whose `slides` is an array. */
  predicate IsPresentationReply(p: JsonParse) {
    p.Parsed? && p.value.JsonObject? && p.value.slidesIsArray
  }

  /** The resource a step with `saveToProject` creates from its reply. */
  function SavedResource(ctx: RunContext, i: nat, text: string): (r: StoredResource)
    requires i < |ctx.steps|
    ensures r.resourceType == PresentationResource <==> IsPresentationReply(ctx.parse(text))
    ensures IsPresentationReply(ctx.parse(text)) ==>
      r.contentJson == Some(StampFormat(ctx.parse(text).value)) && r.contentText == None
    ensures !IsPresentationReply(ctx.parse(text)) ==> r.contentJson == None && r.contentText == Some(text)
    ensures r.id == ctx.resourceId(i) && r.projectId == ctx.projectId && r.folderId == FolderOrNull(ctx.outputFolderId)
  {
    var step := ctx.steps[i];
    var parsed := ctx.parse(text);
    var isPresentation := IsPresentationReply(parsed);
    var vars := NameVars(ctx.projectName, step.name, CompactTimestamp(ctx.clock(i)));
    var name := ResolveOutputName(step.outputNameTemplate, ctx.projectName + " - " + step.name, vars);
    StoredResource(
      ctx.resourceId(i), name,
      if isPresentation then PresentationResource else SourceFile,
      if isPresentation then Some(StampFormat(parsed.value)) else None,
      if isPresentation then None else Some(text),
      ctx.projectId, FolderOrNull(ctx.outputFolderId))
  }

  /** The saved resource's name comes from the step's template, or `<project> - <step>` without one. */
  lemma SavedResourceName(ctx: RunContext, i: nat, text: string)
    requires i < |ctx.steps|
    ensures var step := ctx.steps[i];
      SavedResource(ctx, i, text).name ==
        ResolveOutputName(step.outputNameTemplate, ctx.projectName + " - " + step.name,
                          NameVars(ctx.projectName, step.name, CompactTimestamp(ctx.clock(i))))
    ensures !Truthy(ctx.steps[i].outputNameTemplate) ==>
      SavedResource(ctx, i, text).name == ctx.projectName + " - " + ctx.steps[i].name
    ensures var step := ctx.steps[i];
      (Truthy(step.outputNameTemplate) ==> NoInheritedKeys(step.outputNameTemplate.value)) ==>
        SavedResource(ctx, i, text).name ==
          ResolveOutputNameAsWritten(step.outputNameTemplate, ctx.projectName + " - " + step.name,
                                     NameVars(ctx.projectName, step.name, CompactTimestamp(ctx.clock(i))))
  {
    var step := ctx.steps[i];
    if Truthy(step.outputNameTemplate) ==> NoInheritedKeys(step.outputNameTemplate.value) {
      AsWrittenAgrees(step.outputNameTemplate, ctx.projectName + " - " + step.name,
                      NameVars(ctx.projectName, step.name, CompactTimestamp(ctx.clock(i))));
    }
  }

  /** A step throws with a (possibly empty) message, or finishes with its reply and the resource it saved. */
  datatype StepOutcome = StepFailed(message: Option<string>) | StepDone(output: string, saved: Option<StoredResource>)

  /**
   * Step `i`, run on the outputs the steps before it captured (the trace of
   * the run up to `i`).
   */
  function EvalStep(ctx: RunContext, i: nat): (o: StepOutcome)
    requires i < |ctx.steps|
    ensures o.StepDone? ==> o.output != "" && (o.saved.Some? <==> ctx.steps[i].saveToProject)
    ensures o.StepDone? && o.saved.Some? ==> o.saved.value.id == ctx.resourceId(i)
    decreases i, 2
  {
    var step := ctx.steps[i];
    match ResolvePrompt(step.systemPromptInline, step.systemPrompt, ctx.systemPrompts, SystemKind, step.name)
    case Failure(e) => StepFailed(Some(e))
    case Success(system) =>
      match ResolvePrompt(step.generationPromptInline, step.generationPrompt, ctx.generationPrompts, GenerationKind, step.name)
      case Failure(e) => StepFailed(Some(e))
      case Success(generation) =>
        var user := StepUserContent(ctx, i, generation);
        match ctx.complete(i, Substitute(system, ctx.formats), user)
        case CallFailed(m) => StepFailed(m)
        case Responded(c) =>
          if !Truthy(c) then StepFailed(Some("Empty response from OpenAI"))
          else StepDone(c.value, if step.saveToProject then Some(SavedResource(ctx, i, c.value)) else None)
  }

  /** Step `i`'s user message, built on the outputs of the steps before it. */
  function StepUserContent(ctx: RunContext, i: nat, generationContent: string): string
    requires i < |ctx.steps|
    decreases i, 1
  {
    UserContent(ctx.steps, ctx.sources, RunTrace(ctx, i).outputs, ctx.steps[i].sources, generationContent, ctx.formats)
  }

  /** The resource a completed step saves is the one built from its reply. */
  lemma StepSavesReply(ctx: RunContext, i: nat)
    requires i < |ctx.steps|
    ensures var o := EvalStep(ctx, i);
      o.StepDone? && o.saved.Some? ==> o.saved.value == SavedResource(ctx, i, o.output)
  {
  }

  /**
   * The system prompt is resolved before the generation prompt, and either
   * failing stops the step before the model is called.
   */
  lemma PromptFailureStopsStep(ctx: RunContext, i: nat)
    requires i < |ctx.steps|
    ensures var step := ctx.steps[i];
      var sys := ResolvePrompt(step.systemPromptInline, step.systemPrompt, ctx.systemPrompts, SystemKind, step.name);
      var gen := ResolvePrompt(step.generationPromptInline, step.generationPrompt, ctx.generationPrompts, GenerationKind, step.name);
      (sys.Failure? ==> EvalStep(ctx, i) == StepFailed(Some(sys.error))) &&
      (sys.Success? && gen.Failure? ==> EvalStep(ctx, i) == StepFailed(Some(gen.error)))
  {
  }

  // ---------------------------------------------------------------------
  // A whole run

  datatype StepFailure = StepFailure(index: nat, message: Option<string>)

  /** Outputs captured and resources saved by the steps that completed, and the failing step if any. */
  datatype Trace = Trace(outputs: seq<string>, saved: seq<Option<StoredResource>>, failure: Option<StepFailure>)

  /** The trace after trying steps `0..n-1` in order, stopping at the first failure. */
  function RunTrace(ctx: RunContext, n: nat): (t: Trace)
    requires n <= |ctx.steps|
    ensures |t.outputs| == |t.saved|
    ensures t.failure.None? ==> |t.outputs| == n
    ensures t.failure.Some? ==> t.failure.value.index == |t.outputs| < n
    decreases n, 0
  {
    if n == 0 then Trace([], [], None)
    else
      var t := RunTrace(ctx, n - 1);
      if t.failure.Some? then t
      else match EvalStep(ctx, n - 1)
        case StepFailed(m) => Trace(t.outputs, t.saved, Some(StepFailure(n - 1, m)))
        case StepDone(o, s) => Trace(t.outputs + [o], t.saved + [s], None)
  }

  /** A step that completes extends the trace by its output and saved resource. */
  lemma TraceDone(ctx: RunContext, i: nat, o: string, s: Option<StoredResource>)
    requires i < |ctx.steps| && RunTrace(ctx, i).failure.None?
    requires EvalStep(ctx, i) == StepDone(o, s)
    ensures RunTrace(ctx, i + 1) == Trace(RunTrace(ctx, i).outputs + [o], RunTrace(ctx, i).saved + [s], None)
  {
  }

  /** A step that fails ends the trace with its failure. */
  lemma TraceFailed(ctx: RunContext, i: nat, m: Option<string>)
    requires i < |ctx.steps| && RunTrace(ctx, i).failure.None?
    requires EvalStep(ctx, i) == StepFailed(m)
    ensures RunTrace(ctx, i + 1) == Trace(RunTrace(ctx, i).outputs, RunTrace(ctx, i).saved, Some(StepFailure(i, m)))
  {
  }

  /** Once a step has failed, trying more steps changes nothing. */
  lemma {:induction false} TraceStable(ctx: RunContext, n: nat, m: nat)
    requires n <= m <= |ctx.steps|
    requires RunTrace(ctx, n).failure.Some?
    ensures RunTrace(ctx, m) == RunTrace(ctx, n)
    decreases m - n
  {
    if m > n {
      TraceStable(ctx, n, m - 1);
    }
  }

  /**
   * Every completed step ran exactly once, in index order, seeing exactly
   * the outputs of the steps before it; its output is non-empty.
   */
  lemma {:induction false} StepsRunInOrder(ctx: RunContext, n: nat, k: nat)
    requires n <= |ctx.steps|
    requires k < |RunTrace(ctx, n).outputs|
    ensures var t := RunTrace(ctx, n);
      RunTrace(ctx, k) == Trace(t.outputs[..k], t.saved[..k], None) &&
      EvalStep(ctx, k) == StepDone(t.outputs[k], t.saved[k]) && t.outputs[k] != ""
  {
    var t := RunTrace(ctx, n);
    var p := RunTrace(ctx, n - 1);
    if p.failure.Some? {
      StepsRunInOrder(ctx, n - 1, k);
    } else if k < |p.outputs| {
      StepsRunInOrder(ctx, n - 1, k);
      assert t.outputs[..k] == p.outputs[..k];
      assert t.saved[..k] == p.saved[..k];
    } else {
      assert t.outputs[..k] == p.outputs;
      assert t.saved[..k] == p.saved;
    }
  }

  /** Every resource a run saves carries the id given to its step. */
  lemma {:induction false} SavedIds(ctx: RunContext, n: nat, k: nat)
    requires n <= |ctx.steps|
    requires k < |RunTrace(ctx, n).saved|
    ensures var t := RunTrace(ctx, n);
      t.saved[k].Some? ==> t.saved[k].value.id == ctx.resourceId(k)
  {
    var p := RunTrace(ctx, n - 1);
    if p.failure.Some? || k < |p.saved| {
      SavedIds(ctx, n - 1, k);
    }
  }

  /** The failing step failed on the outputs of the steps before it. */
  lemma {:induction false} FailingStep(ctx: RunContext, n: nat)
    requires n <= |ctx.steps|
    requires RunTrace(ctx, n).failure.Some?
    ensures var t := RunTrace(ctx, n);
      RunTrace(ctx, t.failure.value.index) == Trace(t.outputs, t.saved, None) &&
      EvalStep(ctx, t.failure.value.index) == StepFailed(t.failure.value.message)
  {
    if RunTrace(ctx, n - 1).failure.Some? {
      FailingStep(ctx, n - 1);
    }
  }

  /** A `step_output` source naming the current or a later step contributes nothing. */
  lemma ForwardReferenceEmpty(ctx: RunContext, i: nat, k: int)
    requires i <= |ctx.steps| && RunTrace(ctx, i).failure.None?
    requires k >= i || k < 0
    ensures SourceText(ctx.steps, ctx.sources, RunTrace(ctx, i).outputs, StepOutput(k)) == ""
  {
  }

  // ---------------------------------------------------------------------
  // The run record

  /** `stepResults.map((step, i) => ({ stepIndex: i, stepName: step.name, status: 'pending' }))`. */
  function InitialResults(steps: seq<PipelineStep>): (r: seq<StepResult>)
    ensures |r| == |steps|
    ensures forall i :: 0 <= i < |steps| ==> r[i] == StepResult(i, steps[i].name, Pending, None, None)
  {
    if steps == [] then []
    else InitialResults(steps[..|steps| - 1]) + [StepResult(|steps| - 1, steps[|steps| - 1].name, Pending, None, None)]
  }

  /** The record the launch creates. */
  function InitialRun(runId: string, pipelineId: string, projectId: string, steps: seq<PipelineStep>,
                      outputFolderId: Option<string>, sourceResourceIds: seq<string>, startedAt: int): (r: PipelineRun)
    ensures r.status == RunRunning && r.currentStep == 0 && r.totalSteps == |steps|
    ensures r.stepResults == InitialResults(steps)
    ensures r.outputFolderId == FolderOrNull(outputFolderId)
    ensures r.finalResourceId == None && r.error == None && r.completedAt == None
  {
    PipelineRun(runId, pipelineId, projectId, RunRunning, 0, |steps|, InitialResults(steps),
                FolderOrNull(outputFolderId), sourceResourceIds, None, None, startedAt, None)
  }

  /**
   * `updateStepStatus` on the results array: entry `k`, if there is one, takes
   * the status, and the resource id and error when they are non-empty.
   */
  function UpdateResult(results: seq<StepResult>, k: int, status: StepStatus,
                        resourceId: Option<string>, error: Option<string>): (r: seq<StepResult>)
    ensures |r| == |results|
    ensures forall j :: 0 <= j < |results| && j != k ==> r[j] == results[j]
    ensures 0 <= k < |results| ==>
      r[k].stepIndex == results[k].stepIndex && r[k].stepName == results[k].stepName && r[k].status == status &&
      r[k].resourceId == (if Truthy(resourceId) then resourceId else results[k].resourceId) &&
      r[k].error == (if Truthy(error) then error else results[k].error)
  {
    if 0 <= k < |results| then
      var e := results[k];
      var e1 := e.(status := status);
      var e2 := if Truthy(resourceId) then e1.(resourceId := resourceId) else e1;
      var e3 := if Truthy(error) then e2.(error := error) else e2;
      results[k := e3]
    else results
  }

  /** A completed entry: running, then completed with the saved resource's id. */
  function EntryDone(e: StepResult, saved: Option<StoredResource>): StepResult {
    var id := if saved.Some? then Some(saved.value.id) else None;
    e.(status := Completed, resourceId := if Truthy(id) then id else e.resourceId)
  }

  /** A failed entry: running, then failed with `err.message || 'Step failed'`. */
  function EntryFailed(e: StepResult, message: Option<string>): StepResult {
    e.(status := Failed, error := Some(OrElse(message, "Step failed")))
  }

  /** The results array after the steps of a trace. */
  function ResultsAfter(results: seq<StepResult>, t: Trace): seq<StepResult> {
    seq(|results|, k requires 0 <= k < |results| =>
      if k < |t.saved| then EntryDone(results[k], t.saved[k])
      else if t.failure.Some? && k == t.failure.value.index then EntryFailed(results[k], t.failure.value.message)
      else results[k])
  }

  /** The resources a run creates, in order. */
  function Created(saved: seq<Option<StoredResource>>): seq<StoredResource> {
    if saved == [] then []
    else Created(saved[..|saved| - 1]) + (if saved[|saved| - 1].Some? then [saved[|saved| - 1].value] else [])
  }

  /** Step `k` is an `isFinal` step that saved a resource. */
  predicate SavedFinal(steps: seq<PipelineStep>, saved: seq<Option<StoredResource>>, k: int) {
    0 <= k < |saved| && k < |steps| && steps[k].isFinal && saved[k].Some?
  }

  /** Step `k` is the last such step. */
  predicate LastSavedFinal(steps: seq<PipelineStep>, saved: seq<Option<StoredResource>>, k: int) {
    SavedFinal(steps, saved, k) && forall j :: k < j < |saved| ==> !SavedFinal(steps, saved, j)
  }

  /** The id of the resource saved by the last `isFinal` step that saved one. */
  function FinalResource(steps: seq<PipelineStep>, saved: seq<Option<StoredResource>>): (r: Option<string>)
    requires |saved| <= |steps|
    ensures r.Some? ==> exists k :: 0 <= k < |saved| && saved[k].Some? && r.value == saved[k].value.id
  {
    if saved == [] then None
    else
      var k := |saved| - 1;
      if steps[k].isFinal && saved[k].Some? then Some(saved[k].value.id)
      else FinalResource(steps, saved[..k])
  }

  /** The final resource is the one saved by the last `isFinal` step that saved, and none if no such step did. */
  lemma {:induction false} FinalResourceLast(steps: seq<PipelineStep>, saved: seq<Option<StoredResource>>)
    requires |saved| <= |steps|
    ensures FinalResource(steps, saved).None? <==> forall k :: 0 <= k < |saved| ==> !SavedFinal(steps, saved, k)
    ensures FinalResource(steps, saved).Some? ==>
      exists k :: LastSavedFinal(steps, saved, k) && FinalResource(steps, saved).value == saved[k].value.id
  {
    if saved != [] {
      var k := |saved| - 1;
      if steps[k].isFinal && saved[k].Some? {
        assert LastSavedFinal(steps, saved, k);
      } else {
        FinalResourceLast(steps, saved[..k]);
        var r := FinalResource(steps, saved[..k]);
        assert forall j :: 0 <= j < k ==> SavedFinal(steps, saved[..k], j) == SavedFinal(steps, saved, j);
        if r.Some? {
          var k0 :| LastSavedFinal(steps, saved[..k], k0) && r.value == saved[..k][k0].value.id;
          assert LastSavedFinal(steps, saved, k0);
        }
      }
    }
  }

  /** `Step "${step.name}" failed: ${err.message || 'Unknown error'}`. */
  function RunError(stepName: string, message: Option<string>): string {
    "Step \"" + stepName + "\" failed: " + OrElse(message, "Unknown error")
  }

  /** The record after steps `0..n-1` have completed. */
  function Progress(run0: PipelineRun, ctx: RunContext, n: nat): PipelineRun
    requires n <= |ctx.steps|
  {
    run0.(stepResults := ResultsAfter(run0.stepResults, RunTrace(ctx, n)),
          currentStep := if n == 0 then run0.currentStep else n - 1)
  }

  /** The record a run leaves behind, starting from `run0`. */
  function FinalRun(run0: PipelineRun, ctx: RunContext, completedAt: int): PipelineRun {
    var t := RunTrace(ctx, |ctx.steps|);
    var results := ResultsAfter(run0.stepResults, t);
    match t.failure
    case Some(f) =>
      run0.(stepResults := results, currentStep := f.index, status := RunFailed,
            error := Some(RunError(ctx.steps[f.index].name, f.message)), completedAt := Some(completedAt))
    case None =>
      run0.(stepResults := results, currentStep := if |ctx.steps| == 0 then run0.currentStep else |ctx.steps| - 1,
            status := RunCompleted, finalResourceId := FinalResource(ctx.steps, t.saved),
            completedAt := Some(completedAt))
  }

  /** Saved resources carry non-empty ids. */
  predicate IdsSet(saved: seq<Option<StoredResource>>) {
    forall k :: 0 <= k < |saved| && saved[k].Some? ==> saved[k].value.id != ""
  }

  /** Every saved resource of a run carries an id the store handed out. */
  lemma RunIdsSet(ctx: RunContext)
    requires forall i: nat :: ctx.resourceId(i) != ""
    ensures IdsSet(RunTrace(ctx, |ctx.steps|).saved)
  {
    var t := RunTrace(ctx, |ctx.steps|);
    forall k | 0 <= k < |t.saved| && t.saved[k].Some?
      ensures t.saved[k].value.id != ""
    {
      SavedIds(ctx, |ctx.steps|, k);
    }
  }

  /** The entries after a trace that stopped at a failure, starting from every step pending. */
  lemma ResultsOfFailed(steps: seq<PipelineStep>, t: Trace)
    requires t.failure.Some? && t.failure.value.index == |t.saved| < |steps| && IdsSet(t.saved)
    ensures var r := ResultsAfter(InitialResults(steps), t);
      var f := t.failure.value;
      |r| == |steps| &&
      (forall k :: 0 <= k < f.index ==>
        r[k].status == Completed &&
        r[k].resourceId == (if t.saved[k].Some? then Some(t.saved[k].value.id) else None) &&
        r[k].error == None) &&
      r[f.index] == StepResult(f.index, steps[f.index].name, Failed, None, Some(OrElse(f.message, "Step failed"))) &&
      (forall k :: f.index < k < |steps| ==> r[k] == StepResult(k, steps[k].name, Pending, None, None))
  {
  }

  /** The entries after a trace that ran every step, starting from every step pending. */
  lemma ResultsOfCompleted(steps: seq<PipelineStep>, t: Trace)
    requires t.failure.None? && |t.saved| == |steps| && IdsSet(t.saved)
    ensures var r := ResultsAfter(InitialResults(steps), t);
      |r| == |steps| &&
      forall k :: 0 <= k < |steps| ==>
        r[k].status == Completed &&
        r[k].resourceId == (if t.saved[k].Some? then Some(t.saved[k].value.id) else None)
  {
  }

  /**
   * A failed run: the steps before the failing one are completed with their
   * resources, the failing step carries the error, the later steps are still
   * pending, and the run is failed with the step's name in its error.
   */
  lemma FailedRun(run0: PipelineRun, ctx: RunContext, completedAt: int)
    requires run0.stepResults == InitialResults(ctx.steps) && run0.finalResourceId == None
    requires forall i: nat :: ctx.resourceId(i) != ""
    requires RunTrace(ctx, |ctx.steps|).failure.Some?
    ensures var t := RunTrace(ctx, |ctx.steps|);
      var f := t.failure.value;
      var r := FinalRun(run0, ctx, completedAt);
      r.status == RunFailed && r.currentStep == f.index && r.completedAt == Some(completedAt) &&
      r.error == Some(RunError(ctx.steps[f.index].name, f.message)) && r.finalResourceId == None &&
      (forall k :: 0 <= k < f.index ==>
        r.stepResults[k].status == Completed &&
        r.stepResults[k].resourceId == (if t.saved[k].Some? then Some(t.saved[k].value.id) else None) &&
        r.stepResults[k].error == None) &&
      r.stepResults[f.index] == StepResult(f.index, ctx.steps[f.index].name, Failed, None, Some(OrElse(f.message, "Step failed"))) &&
      (forall k :: f.index < k < |ctx.steps| ==> r.stepResults[k] == StepResult(k, ctx.steps[k].name, Pending, None, None))
  {
    RunIdsSet(ctx);
    ResultsOfFailed(ctx.steps, RunTrace(ctx, |ctx.steps|));
  }

  /**
   * A completed run: every step is completed with its resource, and the
   * final resource is the one saved by the last `isFinal` step that saved.
   */
  lemma CompletedRun(run0: PipelineRun, ctx: RunContext, completedAt: int)
    requires run0.stepResults == InitialResults(ctx.steps)
    requires forall i: nat :: ctx.resourceId(i) != ""
    requires RunTrace(ctx, |ctx.steps|).failure.None?
    ensures var t := RunTrace(ctx, |ctx.steps|);
      var r := FinalRun(run0, ctx, completedAt);
      r.status == RunCompleted && r.completedAt == Some(completedAt) && r.error == run0.error &&
      r.finalResourceId == FinalResource(ctx.steps, t.saved) &&
      (forall k :: 0 <= k < |ctx.steps| ==>
        r.stepResults[k].status == Completed &&
        r.stepResults[k].resourceId == (if t.saved[k].Some? then Some(t.saved[k].value.id) else None))
  {
    RunIdsSet(ctx);
    ResultsOfCompleted(ctx.steps, RunTrace(ctx, |ctx.steps|));
  }
}
