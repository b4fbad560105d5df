/**
 * The pipeline-run engine (server/src/routes/pipelineRuns.ts) as it changes
 * the store: launching a run, updating one step's status, and executing the
 * steps one after another. Each method is proved against the functions of
 * PipelineSpec, so the properties proved there hold of the records the
 * engine leaves behind.
 */
module PipelineEngine {
  import opened Common
  import opened Types
  import opened ServerData
  import opened ResolveVariables
  import opened PipelineSpec

  /** `for (const [stepIdx, output] of stepOutputs.entries()) userContent += ...`. */
  method AppendOutputs(acc: string, steps: seq<PipelineStep>, outputs: seq<string>) returns (out: string)
    ensures out == acc + AllOutputsText(steps, outputs)
  {
    out := acc;
    var j := 0;
    while j < |outputs|
      invariant 0 <= j <= |outputs|
      invariant out == acc + OutputsUpTo(steps, outputs, j)
    {
      ConcatAssoc(acc, OutputsUpTo(steps, outputs, j), OutputBlock(StepLabel(steps, j), outputs[j]));
      out := out + OutputBlock(StepLabel(steps, j), outputs[j]);
      j := j + 1;
    }
  }

  /** One pass of the loop over a step's sources. */
  method AppendSource(acc: string, steps: seq<PipelineStep>, sources: seq<SourceResource>, outputs: seq<string>,
                      src: StepSource) returns (out: string)
    ensures out == acc + SourceText(steps, sources, outputs, src)
  {
    match src {
      case ProjectResources =>
        out := AppendSources(acc, sources);
      case StepOutput(k) =>
        var output := OutputOf(outputs, k);
        out := acc;
        if Truthy(output) {
          out := out + OutputBlock(StepLabel(steps, k), output.value);
        }
      case AllStepOutputs =>
        out := AppendOutputs(acc, steps, outputs);
    }
  }

  /** `for (const source of step.sources) { ... }`: the sources part of the user message. */
  method BuildUserContent(steps: seq<PipelineStep>, sources: seq<SourceResource>, outputs: seq<string>,
                          srcs: seq<StepSource>) returns (userContent: string)
    ensures userContent == StepSourcesText(steps, sources, outputs, srcs)
  {
    userContent := "";
    var j := 0;
    while j < |srcs|
      invariant 0 <= j <= |srcs|
      invariant userContent == SourcesUpTo(steps, sources, outputs, srcs, j)
    {
      userContent := AppendSource(userContent, steps, sources, outputs, srcs[j]);
      j := j + 1;
    }
  }

  /** No step has run yet: the results are as they were. */
  lemma ResultsAfterNothing(results: seq<StepResult>)
    ensures ResultsAfter(results, Trace([], [], None)) == results
  {
  }

  /** Marking step `|t.saved|` running and then completed extends the trace by that step. */
  lemma ResultsAfterDone(results: seq<StepResult>, t: Trace, o: string, s: Option<StoredResource>)
    requires t.failure.None?
    ensures var k := |t.saved|;
      var id := if s.Some? then Some(s.value.id) else None;
      UpdateResult(UpdateResult(ResultsAfter(results, t), k, Running, None, None), k, Completed, id, None) ==
        ResultsAfter(results, Trace(t.outputs + [o], t.saved + [s], None))
  {
    var k := |t.saved|;
    var id := if s.Some? then Some(s.value.id) else None;
    var lhs := UpdateResult(UpdateResult(ResultsAfter(results, t), k, Running, None, None), k, Completed, id, None);
    var rhs := ResultsAfter(results, Trace(t.outputs + [o], t.saved + [s], None));
    forall j | 0 <= j < |results|
      ensures lhs[j] == rhs[j]
    {
      if j < k {
        assert (t.saved + [s])[j] == t.saved[j];
      }
    }
  }

  /** Marking step `|t.saved|` running and then failed records the failure in the trace. */
  lemma ResultsAfterFailed(results: seq<StepResult>, t: Trace, m: Option<string>)
    requires t.failure.None?
    ensures var k := |t.saved|;
      UpdateResult(UpdateResult(ResultsAfter(results, t), k, Running, None, None), k, Failed, None, Some(OrElse(m, "Step failed"))) ==
        ResultsAfter(results, Trace(t.outputs, t.saved, Some(StepFailure(k, m))))
  {
  }

  /** The resources created after one more step, appended to what the store held. */
  lemma CreatedSnoc(base: seq<StoredResource>, saved: seq<Option<StoredResource>>, s: Option<StoredResource>)
    ensures base + Created(saved + [s]) == base + Created(saved) + (if s.Some? then [s.value] else [])
  {
    assert (saved + [s])[..|saved|] == saved;
    var piece := if s.Some? then [s.value] else [];
    assert base + (Created(saved) + piece) == base + Created(saved) + piece;
  }

  lemma FinalResourceSnoc(steps: seq<PipelineStep>, saved: seq<Option<StoredResource>>, s: Option<StoredResource>)
    requires |saved| < |steps|
    ensures FinalResource(steps, saved + [s]) ==
      if steps[|saved|].isFinal && s.Some? then Some(s.value.id) else FinalResource(steps, saved)
  {
    assert (saved + [s])[..|saved|] == saved;
  }

  /** After the last step, the completed record is the run's final record. */
  lemma CompletedRecord(run0: PipelineRun, ctx: RunContext, outputs: seq<string>,
                        saved: seq<Option<StoredResource>>, completedAt: int)
    requires RunTrace(ctx, |ctx.steps|) == Trace(outputs, saved, None)
    ensures FinalRun(run0, ctx, completedAt) ==
      Progress(run0, ctx, |ctx.steps|).(status := RunCompleted, finalResourceId := FinalResource(ctx.steps, saved),
                                        completedAt := Some(completedAt))
  {
  }

  /** Marking step `i` running and then failed, then the run failed, gives the run's final record. */
  lemma FailedRecord(run0: PipelineRun, ctx: RunContext, i: nat, m: Option<string>, completedAt: int)
    requires i < |ctx.steps|
    requires RunTrace(ctx, i).failure.None?
    requires RunTrace(ctx, i + 1) == Trace(RunTrace(ctx, i).outputs, RunTrace(ctx, i).saved, Some(StepFailure(i, m)))
    ensures RunTrace(ctx, |ctx.steps|) == RunTrace(ctx, i + 1)
    ensures var st := Started(run0, ctx, i);
      FinalRun(run0, ctx, completedAt) ==
        st.(stepResults := UpdateResult(st.stepResults, i, Failed, None, Some(OrElse(m, "Step failed"))),
            status := RunFailed, error := Some(RunError(ctx.steps[i].name, m)), completedAt := Some(completedAt))
  {
    ResultsAfterFailed(run0.stepResults, RunTrace(ctx, i), m);
    TraceStable(ctx, i + 1, |ctx.steps|);
  }

  /** Marking step `i` running and then completed gives the record after step `i`. */
  lemma DoneRecord(run0: PipelineRun, ctx: RunContext, i: nat, text: string, saved: Option<StoredResource>)
    requires i < |ctx.steps|
    requires RunTrace(ctx, i).failure.None?
    requires RunTrace(ctx, i + 1) == Trace(RunTrace(ctx, i).outputs + [text], RunTrace(ctx, i).saved + [saved], None)
    ensures var st := Started(run0, ctx, i);
      var id := if saved.Some? then Some(saved.value.id) else None;
      Progress(run0, ctx, i + 1) == st.(stepResults := UpdateResult(st.stepResults, i, Completed, id, None))
  {
    ResultsAfterDone(run0.stepResults, RunTrace(ctx, i), text, saved);
  }

  /** The record while step `i` runs: its entry marked running and `currentStep` at `i`. */
  ghost function Started(run0: PipelineRun, ctx: RunContext, i: nat): PipelineRun
    requires i <= |ctx.steps|
  {
    var progress := Progress(run0, ctx, i);
    progress.(stepResults := UpdateResult(progress.stepResults, i, Running, None, None), currentStep := i)
  }

  /** The stored pipeline runs and resources. */
  class RunStore {
    var runs: map<string, PipelineRun>
    var resources: seq<StoredResource>

    constructor()
      ensures runs == map[] && resources == []
    {
      runs := map[];
      resources := [];
    }

    /**
     * POST /api/pipeline-runs up to its reply: the pipeline must exist and
     * have steps; the run is created running at step 0 with every step
     * pending. `runId` is the id the store assigns.
     */
    method Launch(runId: string, pipelineId: string, projectId: string, sourceResourceIds: seq<string>,
                  outputFolderId: Option<string>, pipelines: map<string, PipelineDefinition>, startedAt: int)
      returns (r: Result<PipelineRun, HttpError>)
      modifies this
      ensures resources == old(resources)
      ensures pipelineId !in pipelines ==> r == Failure(HttpError(400, "Pipeline not found")) && runs == old(runs)
      ensures pipelineId in pipelines && pipelines[pipelineId].steps == [] ==>
        r == Failure(HttpError(400, "Pipeline has no steps")) && runs == old(runs)
      ensures pipelineId in pipelines && pipelines[pipelineId].steps != [] ==>
        r == Success(InitialRun(runId, pipelineId, projectId, pipelines[pipelineId].steps, outputFolderId,
                                sourceResourceIds, startedAt)) &&
        runs == old(runs)[runId := r.value]
    {
      if pipelineId !in pipelines {
        return Failure(HttpError(400, "Pipeline not found"));
      }
      var steps := pipelines[pipelineId].steps;
      if |steps| == 0 {
        return Failure(HttpError(400, "Pipeline has no steps"));
      }
      var run := InitialRun(runId, pipelineId, projectId, steps, outputFolderId, sourceResourceIds, startedAt);
      runs := runs[runId := run];
      r := Success(run);
    }

    /**
     * `updateStepStatus`: a missing run is ignored; otherwise entry
     * `stepIndex`, when it exists, takes the new status and the non-empty
     * resource id and error, and nothing else changes.
     */
    method UpdateStepStatus(runId: string, stepIndex: int, status: StepStatus,
                            resourceId: Option<string>, error: Option<string>)
      modifies this
      ensures resources == old(resources)
      ensures runId !in old(runs) ==> runs == old(runs)
      ensures runId in old(runs) ==>
        runs == old(runs)[runId := old(runs)[runId].(stepResults :=
          UpdateResult(old(runs)[runId].stepResults, stepIndex, status, resourceId, error))]
    {
      if runId !in runs {
        return;
      }
      var run := runs[runId];
      var stepResults := run.stepResults;
      if 0 <= stepIndex < |stepResults| {
        var entry := stepResults[stepIndex].(status := status);
        if Truthy(resourceId) {
          entry := entry.(resourceId := resourceId);
        }
        if Truthy(error) {
          entry := entry.(error := error);
        }
        stepResults := stepResults[stepIndex := entry];
      }
      runs := runs[runId := run.(stepResults := stepResults)];
    }

    /**
     * The body of one step's `try` block after it is marked running: the
     * prompts, the user message, the call, the empty-reply check and the
     * save. `outputs` holds the earlier steps' replies.
     */
    method RunStep(ctx: RunContext, i: nat, outputs: seq<string>) returns (outcome: StepOutcome)
      requires i < |ctx.steps| && outputs == RunTrace(ctx, i).outputs
      modifies this
      ensures outcome == EvalStep(ctx, i)
      ensures runs == old(runs)
      ensures resources == old(resources) + (if outcome.StepDone? && outcome.saved.Some? then [outcome.saved.value] else [])
    {
      var step := ctx.steps[i];
      var system := ResolvePrompt(step.systemPromptInline, step.systemPrompt, ctx.systemPrompts, SystemKind, step.name);
      if system.Failure? {
        return StepFailed(Some(system.error));
      }
      var generation := ResolvePrompt(step.generationPromptInline, step.generationPrompt, ctx.generationPrompts,
                                      GenerationKind, step.name);
      if generation.Failure? {
        return StepFailed(Some(generation.error));
      }
      var userContent := BuildUserContent(ctx.steps, ctx.sources, outputs, step.sources);
      userContent := userContent + Substitute(generation.value, ctx.formats);
      assert userContent == StepUserContent(ctx, i, generation.value);
      var systemContent := Substitute(system.value, ctx.formats);
      var completion := ctx.complete(i, systemContent, userContent);
      if completion.CallFailed? {
        return StepFailed(completion.message);
      }
      var responseText := completion.content;
      if !Truthy(responseText) {
        return StepFailed(Some("Empty response from OpenAI"));
      }
      var saved: Option<StoredResource> := None;
      if step.saveToProject {
        var resource := SavedResource(ctx, i, responseText.value);
        resources := resources + [resource];
        saved := Some(resource);
      }
      outcome := StepDone(responseText.value, saved);
    }

    /** Step `i` marked running: its entry's status and the run's `currentStep`. */
    method MarkRunning(runId: string, i: nat, ghost st: PipelineRun, ghost base: map<string, PipelineRun>)
      requires runs == base[runId := st]
      modifies this
      ensures runs == base[runId := st.(stepResults := UpdateResult(st.stepResults, i, Running, None, None), currentStep := i)]
      ensures resources == old(resources)
    {
      UpdateStepStatus(runId, i, Running, None, None);
      runs := runs[runId := runs[runId].(currentStep := i)];
    }

    /**
     * A step that threw: its entry is marked failed with the error message,
     * and the run is marked failed with the step's name in its error.
     */
    method FinishFailed(runId: string, stepName: string, i: nat, m: Option<string>, completedAt: int,
                        ghost st: PipelineRun, ghost base: map<string, PipelineRun>)
      requires runs == base[runId := st]
      modifies this
      ensures runs == base[runId := st.(stepResults := UpdateResult(st.stepResults, i, Failed, None, Some(OrElse(m, "Step failed"))),
                                        status := RunFailed, error := Some(RunError(stepName, m)),
                                        completedAt := Some(completedAt))]
      ensures resources == old(resources)
    {
      UpdateStepStatus(runId, i, Failed, None, Some(OrElse(m, "Step failed")));
      var run := runs[runId];
      runs := runs[runId := run.(status := RunFailed, error := Some(RunError(stepName, m)), completedAt := Some(completedAt))];
    }

    /** A step that answered: its entry is marked completed with the saved resource's id. */
    method FinishDone(runId: string, i: nat, saved: Option<StoredResource>,
                      ghost st: PipelineRun, ghost base: map<string, PipelineRun>)
      requires runs == base[runId := st]
      modifies this
      ensures runs == base[runId := st.(stepResults :=
        UpdateResult(st.stepResults, i, Completed, if saved.Some? then Some(saved.value.id) else None, None))]
      ensures resources == old(resources)
    {
      var resourceId: Option<string> := None;
      if saved.Some? {
        resourceId := Some(saved.value.id);
      }
      UpdateStepStatus(runId, i, Completed, resourceId, None);
    }

    /**
     * One iteration of `executePipeline`'s loop: mark step `i` running, run
     * it, and mark it completed, or mark it and the run failed. `run0` is
     * the record the run started from and `base` the other runs.
     */
    method ExecuteStep(runId: string, ctx: RunContext, i: nat, stepOutputs: seq<string>, completedAt: int,
                       ghost run0: PipelineRun, ghost base: map<string, PipelineRun>)
      returns (outcome: StepOutcome)
      requires i < |ctx.steps|
      requires RunTrace(ctx, i).failure.None? && stepOutputs == RunTrace(ctx, i).outputs
      requires runs == base[runId := Progress(run0, ctx, i)]
      modifies this
      ensures outcome.StepFailed? ==>
        RunTrace(ctx, |ctx.steps|) == Trace(stepOutputs, RunTrace(ctx, i).saved, Some(StepFailure(i, outcome.message))) &&
        runs == base[runId := FinalRun(run0, ctx, completedAt)] && resources == old(resources)
      ensures outcome.StepDone? ==>
        RunTrace(ctx, i + 1) == Trace(stepOutputs + [outcome.output], RunTrace(ctx, i).saved + [outcome.saved], None) &&
        runs == base[runId := Progress(run0, ctx, i + 1)] &&
        resources == old(resources) + (if outcome.saved.Some? then [outcome.saved.value] else [])
    {
      MarkRunning(runId, i, Progress(run0, ctx, i), base);
      assert runs == base[runId := Started(run0, ctx, i)];
      ghost var started := runs;
      outcome := RunStep(ctx, i, stepOutputs);
      assert runs == started;
      ghost var created := resources;
      match outcome {
        case StepFailed(m) =>
          TraceFailed(ctx, i, m);
          FailedRecord(run0, ctx, i, m, completedAt);
          FinishFailed(runId, ctx.steps[i].name, i, m, completedAt, Started(run0, ctx, i), base);
        case StepDone(text, saved) =>
          TraceDone(ctx, i, text, saved);
          DoneRecord(run0, ctx, i, text, saved);
          FinishDone(runId, i, saved, Started(run0, ctx, i), base);
      }
      assert resources == created;
    }

    /**
     * `executePipeline`: the steps run in order; a step's failure marks it
     * and the run failed and stops the run; otherwise the run completes with
     * the last final step's resource. `completedAt` is the clock reading when
     * the run ends.
     */
    method ExecutePipeline(runId: string, ctx: RunContext, completedAt: int)
      requires runId in runs
      modifies this
      ensures runs == old(runs)[runId := FinalRun(old(runs)[runId], ctx, completedAt)]
      ensures resources == old(resources) + Created(RunTrace(ctx, |ctx.steps|).saved)
    {
      ghost var run0 := runs[runId];
      var stepOutputs: seq<string> := [];
      ghost var savedSoFar: seq<Option<StoredResource>> := [];
      var finalResourceId: Option<string> := None;
      ResultsAfterNothing(run0.stepResults);
      var i := 0;
      while i < |ctx.steps|
        invariant 0 <= i <= |ctx.steps|
        invariant RunTrace(ctx, i) == Trace(stepOutputs, savedSoFar, None)
        invariant runs == old(runs)[runId := Progress(run0, ctx, i)]
        invariant resources == old(resources) + Created(savedSoFar)
        invariant finalResourceId == FinalResource(ctx.steps, savedSoFar)
      {
        var outcome := ExecuteStep(runId, ctx, i, stepOutputs, completedAt, run0, old(runs));
        if outcome.StepFailed? {
          return;
        }
        CreatedSnoc(old(resources), savedSoFar, outcome.saved);
        FinalResourceSnoc(ctx.steps, savedSoFar, outcome.saved);
        stepOutputs := stepOutputs + [outcome.output];
        savedSoFar := savedSoFar + [outcome.saved];
        if outcome.saved.Some? && ctx.steps[i].isFinal {
          finalResourceId := Some(outcome.saved.value.id);
        }
        i := i + 1;
      }
      CompletedRecord(run0, ctx, stepOutputs, savedSoFar, completedAt);
      var run := runs[runId];
      runs := runs[runId := run.(status := RunCompleted, finalResourceId := finalResourceId,
                                 completedAt := Some(completedAt))];
    }
  }
}
