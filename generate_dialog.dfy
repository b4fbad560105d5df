/**
 * The generation dialog of client/src/components/GenerateDialog.tsx: the
 * state it resets to when opened, the selection of source files, the
 * validation `handleGenerate` performs before calling the server, and the
 * folder path shown for the output folder choice.
 */
module GenerateDialog {
  import opened Common
  import opened Types
  import opened Folders

  /** What the dialog holds between renders. */
  datatype DialogState = DialogState(
    selectedSourceIds: set<string>,
    generationPromptId: string,
    systemPromptId: string,
    slideTemplateId: Option<string>,
    outputFolderId: Option<string>,
    outputName: string)

  /** The body of the `api.generate` request. */
  datatype GenerateRequest = GenerateRequest(
    projectId: string,
    sourceResourceIds: set<string>,
    generationPromptId: string,
    systemPromptId: string,
    slideTemplateId: Option<string>,
    outputFolderId: Option<string>,
    outputName: string)

  const PromptError := "Please select a generation prompt and system prompt."
  const SourceError := "Please select at least one source file."
  const NameInfix := " - Presentation - Generated - "

  /** `list[0]?.id || ''`: the first id, or the empty string for an empty list. */
  function FirstId(ids: seq<string>): (r: string)
    ensures ids == [] ==> r == ""
    ensures ids != [] ==> r == ids[0]
  {
    if ids == [] then "" else ids[0]
  }

  /** `projects.find((p) => p.id === currentProjectId)?.name ?? 'Project'`. */
  function ProjectName(projects: seq<Project>, current: Option<string>): (r: string)
    ensures (exists p :: p in projects && Some(p.id) == current) ==>
      exists p :: p in projects && Some(p.id) == current && r == p.name
    ensures (forall p :: p in projects ==> Some(p.id) != current) ==> r == "Project"
    ensures projects != [] && Some(projects[0].id) == current ==> r == projects[0].name
  {
    if projects == [] then "Project"
    else if Some(projects[0].id) == current then projects[0].name
    else
      assert forall p :: p in projects <==> p == projects[0] || p in projects[1..];
      ProjectName(projects[1..], current)
  }

  /** The output name the dialog proposes: project name, a fixed infix, and the compact timestamp. */
  function DefaultOutputName(projects: seq<Project>, current: Option<string>, now: DateTime): string {
    ProjectName(projects, current) + NameInfix + CompactTimestamp(now)
  }

  /** The proposed name splits into the project name, the infix and a 15-character `YYMMDD:HH:MM:SS` stamp. */
  lemma DefaultOutputNameLayout(projects: seq<Project>, current: Option<string>, now: DateTime)
    requires ValidDate(now)
    ensures var n := ProjectName(projects, current);
      var r := DefaultOutputName(projects, current, now);
      |r| == |n| + 30 + 15 && r[..|n|] == n && r[|n|..|n| + 30] == NameInfix &&
      r[|n| + 30..] == CompactTimestamp(now) &&
      r[|n| + 36] == ':' && r[|n| + 39] == ':' && r[|n| + 42] == ':'
  {
    var n := ProjectName(projects, current);
    var t := CompactTimestamp(now);
    CompactTimestampLayout(now);
    var r := DefaultOutputName(projects, current, now);
    assert r == n + NameInfix + t;
    assert r[|n| + 30..] == t;
  }

  /** The state the dialog is put in each time it opens. */
  function Opened(generationPromptIds: seq<string>, systemPromptIds: seq<string>, projects: seq<Project>,
                  current: Option<string>, now: DateTime): DialogState {
    DialogState({}, FirstId(generationPromptIds), FirstId(systemPromptIds), None, None,
      DefaultOutputName(projects, current, now))
  }

  /** `selectAll`: every resource of the project. */
  function SelectAll(resources: seq<Resource>): (r: set<string>)
    ensures forall id :: id in r <==> exists x :: x in resources && x.id == id
  {
    set x | x in resources :: x.id
  }

  /** `handleGenerate`: the prompts are checked before the sources; a valid dialog becomes the request. */
  function HandleGenerate(projectId: string, d: DialogState): Result<GenerateRequest, string> {
    if d.generationPromptId == "" || d.systemPromptId == "" then Failure(PromptError)
    else if |d.selectedSourceIds| == 0 then Failure(SourceError)
    else Success(GenerateRequest(projectId, d.selectedSourceIds, d.generationPromptId, d.systemPromptId,
      d.slideTemplateId, d.outputFolderId, d.outputName))
  }

  /**
   * A request goes out exactly when both prompts and at least one source are
   * chosen, and then carries the dialog's choices; a missing prompt is
   * reported even when no source is selected either.
   */
  lemma HandleGenerateRules(projectId: string, d: DialogState)
    ensures var r := HandleGenerate(projectId, d);
      (r == Failure(PromptError) <==> d.generationPromptId == "" || d.systemPromptId == "") &&
      (r == Failure(SourceError) <==> d.generationPromptId != "" && d.systemPromptId != "" && d.selectedSourceIds == {}) &&
      (r.Success? <==> d.generationPromptId != "" && d.systemPromptId != "" && d.selectedSourceIds != {}) &&
      (r.Success? ==>
        r.value.projectId == projectId && r.value.sourceResourceIds == d.selectedSourceIds &&
        r.value.generationPromptId == d.generationPromptId && r.value.systemPromptId == d.systemPromptId &&
        r.value.outputName == d.outputName && r.value.outputFolderId == d.outputFolderId)
  {
    assert PromptError != SourceError;
  }

  /**
   * A freshly opened dialog cannot generate yet: with both prompt lists
   * non-empty it asks for a source, otherwise for the prompts.
   */
  lemma OpenedNeedsSources(projectId: string, genIds: seq<string>, sysIds: seq<string>, projects: seq<Project>,
                           current: Option<string>, now: DateTime)
    ensures var r := HandleGenerate(projectId, Opened(genIds, sysIds, projects, current, now));
      (genIds != [] && sysIds != [] && genIds[0] != "" && sysIds[0] != "" ==> r == Failure(SourceError)) &&
      (genIds == [] || sysIds == [] ==> r == Failure(PromptError))
  {
    assert |Opened(genIds, sysIds, projects, current, now).selectedSourceIds| == 0;
  }

  const GenerationFailed := "Generation failed. Please try again."

  /** The message `handleGenerate` shows for a failed call: the error's own, or a fallback when it has none. */
  function FailureMessage(m: string): (r: string)
    ensures r != ""
    ensures m != "" ==> r == m
  {
    if m != "" then m else GenerationFailed
  }

  /** The dialog's state and the store flag that shows it. */
  class Dialog {
    var open: bool
    var state: DialogState
    var error: string
    var generating: bool
    /** The generation requests sent to the server, oldest first. */
    var sent: seq<GenerateRequest>
    /** The resource the editor was switched to by the last successful generation. */
    var shown: Option<string>

    constructor()
      ensures !open && !generating && error == "" && sent == [] && shown == None
      ensures state == DialogState({}, "", "", None, None, "")
    {
      open := false;
      state := DialogState({}, "", "", None, None, "");
      error := "";
      generating := false;
      sent := [];
      shown := None;
    }

    /** The dialog opens: the effect that resets its fields. */
    method Open(genIds: seq<string>, sysIds: seq<string>, projects: seq<Project>, current: Option<string>, now: DateTime)
      modifies this
      ensures open && state == Opened(genIds, sysIds, projects, current, now) && error == ""
      ensures generating == old(generating) && sent == old(sent) && shown == old(shown)
    {
      open := true;
      state := Opened(genIds, sysIds, projects, current, now);
      error := "";
    }

    /** `toggleSource(id)`. */
    method ToggleSource(id: string)
      modifies this
      ensures state == old(state).(selectedSourceIds := Toggle(old(state.selectedSourceIds), id))
      ensures open == old(open) && error == old(error) && generating == old(generating) && sent == old(sent) && shown == old(shown)
    {
      state := state.(selectedSourceIds := Toggle(state.selectedSourceIds, id));
    }

    /** `selectAll` / `deselectAll`. */
    method SetAllSources(resources: seq<Resource>, all: bool)
      modifies this
      ensures state == old(state).(selectedSourceIds := if all then SelectAll(resources) else {})
      ensures open == old(open) && error == old(error) && generating == old(generating) && sent == old(sent) && shown == old(shown)
    {
      state := state.(selectedSourceIds := if all then SelectAll(resources) else {});
    }

    /**
     * `handleGenerate` for the current project, with `reply` the outcome of
     * the server call (the new resource's id, or the error's message). An
     * invalid dialog only shows the validation message; a valid one sends
     * its request, and then either closes on the generated resource or
     * shows why the call failed. The spinner is off afterwards either way.
     */
    method Generate(projectId: string, reply: Result<string, string>)
      requires !generating
      modifies this
      ensures state == old(state) && !generating
      ensures HandleGenerate(projectId, old(state)).Failure? ==>
        error == HandleGenerate(projectId, old(state)).error && sent == old(sent) && open == old(open) && shown == old(shown)
      ensures HandleGenerate(projectId, old(state)).Success? ==>
        sent == old(sent) + [HandleGenerate(projectId, old(state)).value] &&
        (reply.Success? ==> !open && shown == Some(reply.value) && error == "") &&
        (reply.Failure? ==> open == old(open) && shown == old(shown) && error == FailureMessage(reply.error))
    {
      var check := HandleGenerate(projectId, state);
      if check.Failure? {
        error := check.error;
        return;
      }
      generating := true;
      error := "";
      sent := sent + [check.value];
      match reply {
        case Success(id) =>
          shown := Some(id);
          open := false;
        case Failure(m) =>
          error := FailureMessage(m);
      }
      generating := false;
    }
  }

  /** The number of `/` characters in `s`. */
  function SlashCount(s: string): nat {
    if s == [] then 0 else (if s[0] == '/' then 1 else 0) + SlashCount(s[1..])
  }

  lemma {:induction false} SlashCountConcat(a: string, b: string)
    ensures SlashCount(a + b) == SlashCount(a) + SlashCount(b)
  {
    if a == [] {
      assert a + b == b;
    } else {
      assert (a + b)[0] == a[0] && (a + b)[1..] == a[1..] + b;
      SlashCountConcat(a[1..], b);
    }
  }

  /** How far `getFolderPath` may still recurse from `folderId`. */
  function PathMeasure(fs: seq<Folder>, folderId: Option<string>, rank: map<string, nat>): nat
    requires RankedBy(fs, rank)
  {
    if Truthy(folderId) && Find(fs, folderId.value).Some? then rank[Find(fs, folderId.value).value.id] + 1 else 0
  }

  /**
   * `getFolderPath(folderId)`: the names from the root down to the folder,
   * joined by `/`; the empty string for no folder or one that is not
   * listed. `rank` witnesses that the parent chain ends.
   */
  function GetFolderPath(fs: seq<Folder>, folderId: Option<string>, ghost rank: map<string, nat>): (r: string)
    requires RankedBy(fs, rank)
    ensures !Truthy(folderId) || Find(fs, folderId.value).None? ==> r == ""
    ensures Truthy(folderId) && Find(fs, folderId.value).Some? ==> EndsWith(r, Find(fs, folderId.value).value.name)
    ensures Truthy(folderId) && Find(fs, folderId.value).Some? && Find(fs, folderId.value).value.name != "" ==> r != ""
    decreases PathMeasure(fs, folderId, rank)
  {
    if !Truthy(folderId) then ""
    else match Find(fs, folderId.value)
      case None => ""
      case Some(folder) =>
        assert folder in fs;
        var parentPath := GetFolderPath(fs, folder.parentId, rank);
        if parentPath != "" then parentPath + "/" + folder.name else folder.name
  }

  /** Folder names as the path display needs them: non-empty, without `/`. */
  predicate PlainNames(fs: seq<Folder>) {
    forall f :: f in fs ==> f.name != "" && SlashCount(f.name) == 0
  }

  /** A folder without a listed parent shows just its name. */
  lemma FolderPathOfRoot(fs: seq<Folder>, rank: map<string, nat>, f: Folder)
    requires RankedBy(fs, rank) && UniqueIds(fs) && NonEmptyIds(fs) && f in fs
    requires Up(fs, f).None?
    ensures GetFolderPath(fs, Some(f.id), rank) == f.name
  {
    FindMember(fs, f);
    assert GetFolderPath(fs, f.parentId, rank) == "";
  }

  /** A folder under a listed, named parent shows the parent's path, `/`, and its own name. */
  lemma FolderPathOfChild(fs: seq<Folder>, rank: map<string, nat>, f: Folder)
    requires RankedBy(fs, rank) && UniqueIds(fs) && NonEmptyIds(fs) && f in fs
    requires Up(fs, f).Some? && Up(fs, f).value.name != ""
    ensures GetFolderPath(fs, Some(f.id), rank) == GetFolderPath(fs, Some(Up(fs, f).value.id), rank) + "/" + f.name
  {
    FindMember(fs, f);
    var p := Up(fs, f).value;
    FindMember(fs, p);
    assert GetFolderPath(fs, f.parentId, rank) != "";
  }

  /**
   * A folder with `d` ancestors has a path of `d + 1` names: `d` slashes.
   */
  lemma {:induction false} FolderPathDepth(fs: seq<Folder>, rank: map<string, nat>, f: Folder, d: nat)
    requires RankedBy(fs, rank) && UniqueIds(fs) && NonEmptyIds(fs) && PlainNames(fs) && f in fs
    requires Climb(fs, Some(f), d).Some? && Climb(fs, Some(f), d + 1).None?
    ensures SlashCount(GetFolderPath(fs, Some(f.id), rank)) == d
    decreases d
  {
    if d == 0 {
      assert Up(fs, f).None?;
      FolderPathOfRoot(fs, rank, f);
    } else {
      var p := Up(fs, f).value;
      assert Climb(fs, Some(p), d - 1) == Climb(fs, Some(f), d);
      assert Climb(fs, Some(p), d) == Climb(fs, Some(f), d + 1);
      FolderPathDepth(fs, rank, p, d - 1);
      FolderPathOfChild(fs, rank, f);
      var pp := GetFolderPath(fs, Some(p.id), rank);
      SlashCountConcat(pp, "/");
      SlashCountConcat(pp + "/", f.name);
    }
  }
}
