/**
 * The client store of client/src/store/index.ts: the current project, its
 * folders and resources, and the editor target, with the actions that keep
 * the target consistent when a project is switched or deleted, a resource
 * or program item is deleted, or a presentation is edited. The server calls
 * and list reloads these actions also make are not part of this model.
 */
module Store {
  import opened Common
  import opened Types

  /** The editor shows the resource with this id. */
  predicate ShowsResource(t: EditorTarget, id: string) {
    t.ResourceTarget? && t.resource.id == id
  }

  /** The editor shows the program item of this kind with this id. */
  predicate ShowsItem(t: EditorTarget, kind: ProgramKind, id: string) {
    t.ProgramTarget? && t.kind == kind && t.item.id == id
  }

  /** `resources.map((r) => r.id === resourceId ? { ...r, contentJson: data } : r)`. */
  function WithContent(rs: seq<Resource>, id: string, data: PresentationData): (r: seq<Resource>)
    ensures |r| == |rs|
    ensures forall i :: 0 <= i < |rs| && rs[i].id != id ==> r[i] == rs[i]
    ensures forall i :: 0 <= i < |rs| && rs[i].id == id ==>
      r[i].contentJson == Some(data) && r[i].(contentJson := rs[i].contentJson) == rs[i]
  {
    seq(|rs|, i requires 0 <= i < |rs| => if rs[i].id == id then rs[i].(contentJson := Some(data)) else rs[i])
  }

  /** The editor target after `updatePresentationData`: the shown resource gets the new content, any other target stays. */
  function Retarget(t: EditorTarget, id: string, data: PresentationData): (r: EditorTarget)
    ensures !ShowsResource(t, id) ==> r == t
    ensures ShowsResource(t, id) ==>
      ShowsResource(r, id) && r.resource.contentJson == Some(data) && r.resource.(contentJson := t.resource.contentJson) == t.resource
  {
    if ShowsResource(t, id) then ResourceTarget(t.resource.(contentJson := Some(data))) else t
  }

  /** The resource the editor shows has the content of its entry in the list. */
  predicate InSync(rs: seq<Resource>, t: EditorTarget) {
    t.ResourceTarget? ==> forall i :: 0 <= i < |rs| && rs[i].id == t.resource.id ==> rs[i].contentJson == t.resource.contentJson
  }

  /** An edit keeps the list and the editor in agreement. */
  lemma UpdateKeepsInSync(rs: seq<Resource>, t: EditorTarget, id: string, data: PresentationData)
    requires InSync(rs, t)
    ensures InSync(WithContent(rs, id, data), Retarget(t, id, data))
  {
  }

  /** Applying the same edit twice is applying it once. */
  lemma UpdateIdempotent(rs: seq<Resource>, t: EditorTarget, id: string, data: PresentationData)
    ensures WithContent(WithContent(rs, id, data), id, data) == WithContent(rs, id, data)
    ensures Retarget(Retarget(t, id, data), id, data) == Retarget(t, id, data)
  {
    var once := WithContent(rs, id, data);
    var twice := WithContent(once, id, data);
    forall i | 0 <= i < |rs|
      ensures twice[i] == once[i]
    {
      assert once[i].id == rs[i].id;
    }
  }

  /** `folders.find((f) => f.name === 'Imported' && f.parentId === null)`. */
  function FindImported(fs: seq<Folder>): (r: Option<Folder>)
    ensures r.Some? ==> r.value in fs && r.value.name == "Imported" && r.value.parentId.None?
    ensures r.None? <==> forall f :: f in fs ==> !(f.name == "Imported" && f.parentId.None?)
    ensures fs != [] && fs[0].name == "Imported" && fs[0].parentId.None? ==> r == Some(fs[0])
  {
    if fs == [] then None
    else if fs[0].name == "Imported" && fs[0].parentId.None? then Some(fs[0])
    else
      assert forall f :: f in fs <==> f == fs[0] || f in fs[1..];
      FindImported(fs[1..])
  }

  /**
   * `ensureImportedFolder`: the id of the root folder named `Imported` if
   * there is one; otherwise `created`, the id of the folder the server
   * creates under that name.
   */
  function EnsureImportedFolder(fs: seq<Folder>, created: string): (r: string)
    ensures (exists f :: f in fs && f.name == "Imported" && f.parentId.None?) ==>
      exists f :: f in fs && f.name == "Imported" && f.parentId.None? && r == f.id
    ensures (forall f :: f in fs ==> !(f.name == "Imported" && f.parentId.None?)) ==> r == created
  {
    match FindImported(fs)
    case Some(f) => f.id
    case None => created
  }

  /** The folder an upload goes to: the one given, or the `Imported` folder. */
  function UploadFolder(folderId: Option<string>, fs: seq<Folder>, created: string): (r: string)
    ensures folderId.Some? ==> r == folderId.value
    ensures folderId.None? ==> r == EnsureImportedFolder(fs, created)
  {
    if folderId.Some? then folderId.value else EnsureImportedFolder(fs, created)
  }

  /** Uploading twice without a folder reuses the folder the first upload created. */
  lemma ImportedFolderReused(fs: seq<Folder>, f: Folder, created: string, created2: string)
    requires f.name == "Imported" && f.parentId.None?
    requires forall g :: g in fs ==> !(g.name == "Imported" && g.parentId.None?)
    ensures EnsureImportedFolder(fs + [f], created2) == f.id
    ensures EnsureImportedFolder(fs, f.id) == f.id
  {
    assert forall g :: g in fs + [f] ==> g in fs || g == f;
    assert f in fs + [f];
  }

  class AppStore {
    var projects: seq<Project>
    var currentProjectId: Option<string>
    var folders: seq<Folder>
    var resources: seq<Resource>
    var editorTarget: EditorTarget

    constructor()
      ensures projects == [] && currentProjectId == None && folders == [] && resources == [] && editorTarget == NoTarget
    {
      projects := [];
      currentProjectId := None;
      folders := [];
      resources := [];
      editorTarget := NoTarget;
    }

    /** `setCurrentProject(id)`: the editor always closes. */
    method SetCurrentProject(id: Option<string>)
      modifies this
      ensures currentProjectId == id && editorTarget == NoTarget
      ensures projects == old(projects) && folders == old(folders) && resources == old(resources)
    {
      currentProjectId := id;
      editorTarget := NoTarget;
    }

    /** `deleteProject(id)`: deleting the current project empties the workspace; deleting another leaves it. */
    method DeleteProject(id: string)
      modifies this
      ensures projects == old(projects)
      ensures old(currentProjectId) == Some(id) ==>
        currentProjectId == None && folders == [] && resources == [] && editorTarget == NoTarget
      ensures old(currentProjectId) != Some(id) ==>
        currentProjectId == old(currentProjectId) && folders == old(folders) && resources == old(resources) &&
        editorTarget == old(editorTarget)
    {
      if currentProjectId == Some(id) {
        currentProjectId := None;
        folders := [];
        resources := [];
        editorTarget := NoTarget;
      }
    }

    /** `deleteResource(id)`: the editor closes exactly when it showed that resource. */
    method DeleteResource(id: string)
      modifies this
      ensures editorTarget == if ShowsResource(old(editorTarget), id) then NoTarget else old(editorTarget)
      ensures !ShowsResource(editorTarget, id)
      ensures projects == old(projects) && currentProjectId == old(currentProjectId)
      ensures folders == old(folders) && resources == old(resources)
    {
      if editorTarget.ResourceTarget? && editorTarget.resource.id == id {
        editorTarget := NoTarget;
      }
    }

    /** The four `delete…` program actions: the editor closes only when it showed that kind of item with that id. */
    method DeleteProgramItem(kind: ProgramKind, id: string)
      modifies this
      ensures editorTarget == if ShowsItem(old(editorTarget), kind, id) then NoTarget else old(editorTarget)
      ensures !ShowsItem(editorTarget, kind, id)
      ensures projects == old(projects) && currentProjectId == old(currentProjectId)
      ensures folders == old(folders) && resources == old(resources)
    {
      if editorTarget.ProgramTarget? && editorTarget.kind == kind && editorTarget.item.id == id {
        editorTarget := NoTarget;
      }
    }

    /** `updatePresentationData(resourceId, data)`: the list entry and, if shown, the editor get the new content. */
    method UpdatePresentationData(resourceId: string, data: PresentationData)
      modifies this
      ensures resources == WithContent(old(resources), resourceId, data)
      ensures editorTarget == Retarget(old(editorTarget), resourceId, data)
      ensures InSync(old(resources), old(editorTarget)) ==> InSync(resources, editorTarget)
      ensures projects == old(projects) && currentProjectId == old(currentProjectId) && folders == old(folders)
    {
      if InSync(resources, editorTarget) {
        UpdateKeepsInSync(resources, editorTarget, resourceId, data);
      }
      resources := WithContent(resources, resourceId, data);
      editorTarget := Retarget(editorTarget, resourceId, data);
    }

    /** `createResource`: refused without a current project; otherwise the project the resource is created in. */
    method CreateResourceTarget() returns (r: Result<string, string>)
      ensures !Truthy(currentProjectId) <==> r == Failure("No project selected")
      ensures r.Success? ==> Some(r.value) == currentProjectId && r.value != ""
    {
      if !Truthy(currentProjectId) {
        return Failure("No project selected");
      }
      return Success(currentProjectId.value);
    }
  }
}
