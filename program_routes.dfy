/**
 * The write routes of server/src/routes/outputFormats.ts and
 * server/src/routes/generationPipelines.ts over an in-memory model of the
 * program tables. Every table has a unique-name index (name to id); the
 * output-format and pipeline tables also hold their rows by id. Output-format
 * writes clear the format cache, which is what keeps the cache coherent with
 * the table.
 */
module ProgramRoutes {
  import opened Common
  import opened Types
  import opened ServerData
  import opened NameUniqueness
  import opened ResolveVariables

  datatype OutputFormat = OutputFormat(id: string, name: string, content: string)

  datatype GenerationPipeline = GenerationPipeline(id: string, name: string, pipelineData: PipelineDefinition)

  /** What the store reports when an update targets a missing id; its exact wording is not modelled. */
  const RecordToUpdateNotFound := "Record to update not found."

  /** `ids` is the unique-name index of `rows`: each name maps to a row with that name and back. */
  predicate FormatIndex(ids: map<string, string>, rows: map<string, OutputFormat>) {
    (forall n :: n in ids ==> ids[n] in rows && rows[ids[n]].name == n && rows[ids[n]].id == ids[n]) &&
    (forall id :: id in rows ==> rows[id].name in ids && ids[rows[id].name] == id)
  }

  predicate PipelineIndex(ids: map<string, string>, rows: map<string, GenerationPipeline>) {
    (forall n :: n in ids ==> ids[n] in rows && rows[ids[n]].name == n && rows[ids[n]].id == ids[n]) &&
    (forall id :: id in rows ==> rows[id].name in ids && ids[rows[id].name] == id)
  }

  /** Name to content, as `loadFormats` builds it from the rows. */
  function ContentTable(ids: map<string, string>, rows: map<string, OutputFormat>): (t: map<string, string>)
    requires FormatIndex(ids, rows)
    ensures t.Keys == ids.Keys
    ensures forall n :: n in ids ==> t[n] == rows[ids[n]].content
  {
    map n | n in ids :: rows[ids[n]].content
  }

  /** Adding a row under a fresh id and an unused name keeps the index exact and adds one table entry. */
  lemma FormatIndexInsert(ids: map<string, string>, rows: map<string, OutputFormat>, row: OutputFormat)
    requires FormatIndex(ids, rows) && row.id !in rows && row.name !in ids
    ensures FormatIndex(ids[row.name := row.id], rows[row.id := row])
    ensures ContentTable(ids[row.name := row.id], rows[row.id := row]) == ContentTable(ids, rows)[row.name := row.content]
  {
  }

  lemma PipelineIndexInsert(ids: map<string, string>, rows: map<string, GenerationPipeline>, row: GenerationPipeline)
    requires PipelineIndex(ids, rows) && row.id !in rows && row.name !in ids
    ensures PipelineIndex(ids[row.name := row.id], rows[row.id := row])
  {
  }

  /** Renaming or rewriting one indexed row keeps the index exact. */
  lemma FormatIndexUpdate(ids: map<string, string>, rows: map<string, OutputFormat>, id: string, row: OutputFormat)
    requires FormatIndex(ids, rows) && id in rows && row.id == id
    requires row.name !in ids || ids[row.name] == id
    ensures FormatIndex((ids - {rows[id].name})[row.name := id], rows[id := row])
  {
  }

  lemma PipelineIndexUpdate(ids: map<string, string>, rows: map<string, GenerationPipeline>, id: string, row: GenerationPipeline)
    requires PipelineIndex(ids, rows) && id in rows && row.id == id
    requires row.name !in ids || ids[row.name] == id
    ensures PipelineIndex((ids - {rows[id].name})[row.name := id], rows[id := row])
  {
  }

  class ProgramDb {
    var generationPromptNames: map<string, string>
    var systemPromptNames: map<string, string>
    var outputFormatIds: map<string, string>
    var outputFormats: map<string, OutputFormat>
    var pipelineIds: map<string, string>
    var pipelines: map<string, GenerationPipeline>
    const cache: FormatCache

    /**
     * The indexes are exact, and a cached format map, when present, is the
     * current output-format table.
     */
    predicate Valid()
      reads this, cache
    {
      FormatIndex(outputFormatIds, outputFormats) &&
      PipelineIndex(pipelineIds, pipelines) &&
      (cache.cached.Some? ==> cache.cached.value == FormatTable())
    }

    /** The map `loadFormats` builds from the rows: format name to content. */
    function FormatTable(): map<string, string>
      reads this
      requires FormatIndex(outputFormatIds, outputFormats)
    {
      ContentTable(outputFormatIds, outputFormats)
    }

    function Tables(): NameTables
      reads this
    {
      NameTables(generationPromptNames, systemPromptNames, outputFormatIds, pipelineIds)
    }

    constructor ()
      ensures Valid() && fresh(cache)
      ensures generationPromptNames == map[] && systemPromptNames == map[]
      ensures outputFormats == map[] && pipelines == map[]
    {
      generationPromptNames := map[];
      systemPromptNames := map[];
      outputFormatIds := map[];
      outputFormats := map[];
      pipelineIds := map[];
      pipelines := map[];
      cache := new FormatCache();
    }

    /** POST /api/output-formats. */
    method CreateOutputFormat(name: Option<string>, content: Option<string>, newId: string)
      returns (r: Result<OutputFormat, HttpError>)
      requires Valid() && newId !in outputFormats
      modifies this, cache
      ensures Valid()
      ensures var check := CheckNameUnique(old(Tables()), OrElse(name, "New Format"), None);
        check.Some? ==>
          r == Failure(HttpError(400, OrElse(check, "Failed to create output format"))) &&
          unchanged(this, cache)
      ensures var finalName := OrElse(name, "New Format");
        CheckNameUnique(old(Tables()), finalName, None).None? ==>
          r == Success(OutputFormat(newId, finalName, OrElse(content, ""))) &&
          outputFormats == old(outputFormats)[newId := r.value] &&
          outputFormatIds == old(outputFormatIds)[finalName := newId] &&
          FormatTable() == old(FormatTable())[finalName := OrElse(content, "")] &&
          cache.cached == None &&
          generationPromptNames == old(generationPromptNames) && systemPromptNames == old(systemPromptNames) &&
          pipelineIds == old(pipelineIds) && pipelines == old(pipelines)
    {
      var finalName := OrElse(name, "New Format");
      var check := CheckNameUnique(Tables(), finalName, None);
      if check.Some? {
        return Failure(HttpError(400, OrElse(check, "Failed to create output format")));
      }
      assert !ConflictIn(Tables(), OutputFormatKind, finalName, None);
      var row := OutputFormat(newId, finalName, OrElse(content, ""));
      InsertFormat(row);
      r := Success(row);
    }

    /** The store's insert of a new output-format row, and the cache cleared after it. */
    method InsertFormat(row: OutputFormat)
      requires Valid() && row.id !in outputFormats && row.name !in outputFormatIds
      modifies this, cache
      ensures Valid()
      ensures outputFormats == old(outputFormats)[row.id := row]
      ensures outputFormatIds == old(outputFormatIds)[row.name := row.id]
      ensures FormatTable() == old(FormatTable())[row.name := row.content]
      ensures cache.cached == None
      ensures generationPromptNames == old(generationPromptNames) && systemPromptNames == old(systemPromptNames)
      ensures pipelineIds == old(pipelineIds) && pipelines == old(pipelines)
    {
      FormatIndexInsert(outputFormatIds, outputFormats, row);
      cache.Invalidate();
      outputFormats := outputFormats[row.id := row];
      outputFormatIds := outputFormatIds[row.name := row.id];
    }

    /** PATCH /api/output-formats/:id: only the supplied fields change. */
    method PatchOutputFormat(id: string, name: Option<string>, content: Option<string>)
      returns (r: Result<OutputFormat, HttpError>)
      requires Valid()
      modifies this, cache
      ensures Valid()
      ensures name.Some? && CheckNameUnique(old(Tables()), name.value, Some(id)).Some? ==>
        r == Failure(HttpError(400, OrElse(CheckNameUnique(old(Tables()), name.value, Some(id)), "Failed to update output format"))) &&
        unchanged(this, cache)
      ensures (name.None? || CheckNameUnique(old(Tables()), name.value, Some(id)).None?) && id !in old(outputFormats) ==>
        r == Failure(HttpError(400, RecordToUpdateNotFound)) && unchanged(this, cache)
      ensures (name.None? || CheckNameUnique(old(Tables()), name.value, Some(id)).None?) && id in old(outputFormats) ==>
        var row := old(outputFormats)[id];
        var updated := OutputFormat(id, if name.Some? then name.value else row.name,
                                        if content.Some? then content.value else row.content);
        r == Success(updated) &&
        outputFormats == old(outputFormats)[id := updated] &&
        outputFormatIds == (old(outputFormatIds) - {row.name})[updated.name := id] &&
        cache.cached == None &&
        generationPromptNames == old(generationPromptNames) && systemPromptNames == old(systemPromptNames) &&
        pipelineIds == old(pipelineIds) && pipelines == old(pipelines)
    {
      if name.Some? {
        var check := CheckNameUnique(Tables(), name.value, Some(id));
        if check.Some? {
          return Failure(HttpError(400, OrElse(check, "Failed to update output format")));
        }
        assert !ConflictIn(Tables(), OutputFormatKind, name.value, Some(id));
      }
      if id !in outputFormats {
        return Failure(HttpError(400, RecordToUpdateNotFound));
      }
      var row := outputFormats[id];
      var updated := row;
      if name.Some? {
        updated := updated.(name := name.value);
      }
      if content.Some? {
        updated := updated.(content := content.value);
      }
      UpdateFormat(updated);
      r := Success(updated);
    }

    /** The store's update of an existing output-format row, and the cache cleared after it. */
    method UpdateFormat(row: OutputFormat)
      requires Valid() && row.id in outputFormats
      requires row.name !in outputFormatIds || outputFormatIds[row.name] == row.id
      modifies this, cache
      ensures Valid()
      ensures outputFormats == old(outputFormats)[row.id := row]
      ensures outputFormatIds == (old(outputFormatIds) - {old(outputFormats)[row.id].name})[row.name := row.id]
      ensures cache.cached == None
      ensures generationPromptNames == old(generationPromptNames) && systemPromptNames == old(systemPromptNames)
      ensures pipelineIds == old(pipelineIds) && pipelines == old(pipelines)
    {
      FormatIndexUpdate(outputFormatIds, outputFormats, row.id, row);
      outputFormatIds := (outputFormatIds - {outputFormats[row.id].name})[row.name := row.id];
      outputFormats := outputFormats[row.id := row];
      cache.Invalidate();
    }

    /** DELETE /api/output-formats/:id. */
    method DeleteOutputFormat(id: string) returns (r: Result<(), HttpError>)
      requires Valid()
      modifies this, cache
      ensures Valid()
      ensures id !in old(outputFormats) ==>
        r == Failure(HttpError(500, "Failed to delete output format")) && unchanged(this, cache)
      ensures id in old(outputFormats) ==>
        r == Success(()) &&
        outputFormats == old(outputFormats) - {id} &&
        outputFormatIds == old(outputFormatIds) - {old(outputFormats)[id].name} &&
        id !in outputFormats &&
        cache.cached == None &&
        generationPromptNames == old(generationPromptNames) && systemPromptNames == old(systemPromptNames) &&
        pipelineIds == old(pipelineIds) && pipelines == old(pipelines)
    {
      if id !in outputFormats {
        return Failure(HttpError(500, "Failed to delete output format"));
      }
      outputFormatIds := outputFormatIds - {outputFormats[id].name};
      outputFormats := outputFormats - {id};
      cache.Invalidate();
      r := Success(());
    }

    /** POST /api/generation-pipelines. */
    method CreatePipeline(name: Option<string>, pipelineData: Option<PipelineDefinition>, newId: string)
      returns (r: Result<GenerationPipeline, HttpError>)
      requires Valid() && newId !in pipelines
      modifies this
      ensures Valid()
      ensures var check := CheckNameUnique(old(Tables()), OrElse(name, "New Pipeline"), None);
        check.Some? ==>
          r == Failure(HttpError(400, OrElse(check, "Failed to create generation pipeline"))) &&
          unchanged(this)
      ensures var finalName := OrElse(name, "New Pipeline");
        CheckNameUnique(old(Tables()), finalName, None).None? ==>
          r == Success(GenerationPipeline(newId, finalName,
            if pipelineData.Some? then pipelineData.value else PipelineDefinition([]))) &&
          pipelines == old(pipelines)[newId := r.value] &&
          pipelineIds == old(pipelineIds)[finalName := newId] &&
          generationPromptNames == old(generationPromptNames) && systemPromptNames == old(systemPromptNames) &&
          outputFormatIds == old(outputFormatIds) && outputFormats == old(outputFormats)
    {
      var finalName := OrElse(name, "New Pipeline");
      var check := CheckNameUnique(Tables(), finalName, None);
      if check.Some? {
        return Failure(HttpError(400, OrElse(check, "Failed to create generation pipeline")));
      }
      assert !ConflictIn(Tables(), GenerationPipelineKind, finalName, None);
      var data := if pipelineData.Some? then pipelineData.value else PipelineDefinition([]);
      var row := GenerationPipeline(newId, finalName, data);
      PipelineIndexInsert(pipelineIds, pipelines, row);
      pipelines := pipelines[newId := row];
      pipelineIds := pipelineIds[finalName := newId];
      r := Success(row);
    }

    /** PATCH /api/generation-pipelines/:id: only the supplied fields change. */
    method PatchPipeline(id: string, name: Option<string>, pipelineData: Option<PipelineDefinition>)
      returns (r: Result<GenerationPipeline, HttpError>)
      requires Valid()
      modifies this
      ensures Valid()
      ensures name.Some? && CheckNameUnique(old(Tables()), name.value, Some(id)).Some? ==>
        r == Failure(HttpError(400, OrElse(CheckNameUnique(old(Tables()), name.value, Some(id)), "Failed to update generation pipeline"))) &&
        unchanged(this)
      ensures (name.None? || CheckNameUnique(old(Tables()), name.value, Some(id)).None?) && id !in old(pipelines) ==>
        r == Failure(HttpError(400, RecordToUpdateNotFound)) && unchanged(this)
      ensures (name.None? || CheckNameUnique(old(Tables()), name.value, Some(id)).None?) && id in old(pipelines) ==>
        var row := old(pipelines)[id];
        var updated := GenerationPipeline(id, if name.Some? then name.value else row.name,
                                              if pipelineData.Some? then pipelineData.value else row.pipelineData);
        r == Success(updated) &&
        pipelines == old(pipelines)[id := updated] &&
        pipelineIds == (old(pipelineIds) - {row.name})[updated.name := id] &&
        generationPromptNames == old(generationPromptNames) && systemPromptNames == old(systemPromptNames) &&
        outputFormatIds == old(outputFormatIds) && outputFormats == old(outputFormats)
    {
      if name.Some? {
        var check := CheckNameUnique(Tables(), name.value, Some(id));
        if check.Some? {
          return Failure(HttpError(400, OrElse(check, "Failed to update generation pipeline")));
        }
        assert !ConflictIn(Tables(), GenerationPipelineKind, name.value, Some(id));
      }
      if id !in pipelines {
        return Failure(HttpError(400, RecordToUpdateNotFound));
      }
      var row := pipelines[id];
      var updated := row;
      if name.Some? {
        updated := updated.(name := name.value);
      }
      if pipelineData.Some? {
        updated := updated.(pipelineData := pipelineData.value);
      }
      PipelineIndexUpdate(pipelineIds, pipelines, id, updated);
      pipelineIds := (pipelineIds - {row.name})[updated.name := id];
      pipelines := pipelines[id := updated];
      r := Success(updated);
    }

    /**
     * `resolveVariables` as the routes call it: because every output-format
     * write clears the cache, the formats it serves are always the current
     * table, fresh or not.
     */
    method Resolve(text: string, now: int) returns (r: string)
      requires Valid()
      modifies cache
      ensures Valid()
      ensures r == Substitute(text, FormatTable())
    {
      r := cache.Resolve(text, now, FormatTable());
    }
  }
}
