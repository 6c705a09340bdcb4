/** Downloads/notes/backend/project_files_routes.py: who may see and change a project, the
    project's files with a numbered history of earlier contents, and whole-project snapshots
    that can be restored. */
module ProjectFiles {
  import opened Common
  import opened Seqs
  import opened Strs
  import opened Store

  // ---------------------------------------------------------------- access

  /** The roles allowed to change a project's files. */
  predicate CanEdit(role: string) {
    role == LEADER || role == DEVELOPER || role == DESIGNER
  }

  /** What `check_project_access` hands back: the project and whether the caller is its owner
      or a member. */
  datatype Access = Access(project: Project, member: bool)

  /** The caller's role in the project, when they are a member. */
  function RoleIn(t: Tables, projectId: int, userId: int): (r: Option<string>)
    ensures r.Some? <==> Membership(t.members, projectId, userId).Some?
    ensures r.Some? ==> r.value == Membership(t.members, projectId, userId).value.val.role
  {
    match Membership(t.members, projectId, userId)
    case None => None
    case Some(m) => Some(m.val.role)
  }

  /** `check_project_access` as written: with `require_edit`, a caller who reaches the role test
      without a membership (a public project they do not belong to) makes Python read `role`
      off `None`, and the request ends in an unhandled error. */
  function CheckAccessAsWritten(t: Tables, projectId: int, userId: int, requireEdit: bool): (r: Result<Access>)
    ensures Lookup(t.projects, projectId).None? <==> r == Error(NOT_FOUND, "Project not found")
    ensures r.Error? && r.status == INTERNAL_SERVER_ERROR <==>
      Lookup(t.projects, projectId).Some? && Lookup(t.projects, projectId).value.ownerId != userId
      && Lookup(t.projects, projectId).value.isPublic && RoleIn(t, projectId, userId).None? && requireEdit
  {
    match Lookup(t.projects, projectId)
    case None => Error(NOT_FOUND, "Project not found")
    case Some(p) =>
      if p.ownerId == userId then Ok(Access(p, true))
      else
        var role := RoleIn(t, projectId, userId);
        if role.None? && !p.isPublic then Error(FORBIDDEN, "Access denied")
        else if requireEdit && role.None? then Error(INTERNAL_SERVER_ERROR, "'NoneType' object has no attribute 'role'")
        else if requireEdit && !CanEdit(role.value) then Error(FORBIDDEN, "Edit access denied")
        else Ok(Access(p, role.Some?))
  }

  /** `check_project_access` with the missing membership refused like a viewer's role. */
  function CheckAccess(t: Tables, projectId: int, userId: int, requireEdit: bool): (r: Result<Access>)
    ensures Lookup(t.projects, projectId).None? <==> r == Error(NOT_FOUND, "Project not found")
    ensures r.Error? ==> r.status == NOT_FOUND || r.status == FORBIDDEN
    ensures r.Ok? <==>
      var p := Lookup(t.projects, projectId);
      var role := RoleIn(t, projectId, userId);
      p.Some? && (p.value.ownerId == userId
                  || ((role.Some? || p.value.isPublic) && (!requireEdit || (role.Some? && CanEdit(role.value)))))
    ensures r.Ok? ==> r.value == Access(Lookup(t.projects, projectId).value,
                                        Lookup(t.projects, projectId).value.ownerId == userId || RoleIn(t, projectId, userId).Some?)
  {
    match Lookup(t.projects, projectId)
    case None => Error(NOT_FOUND, "Project not found")
    case Some(p) =>
      if p.ownerId == userId then Ok(Access(p, true))
      else
        var role := RoleIn(t, projectId, userId);
        if role.None? && !p.isPublic then Error(FORBIDDEN, "Access denied")
        else if requireEdit && (role.None? || !CanEdit(role.value)) then Error(FORBIDDEN, "Edit access denied")
        else Ok(Access(p, role.Some?))
  }

  /** The two checks differ only where the code as written fails: a non-member asking to edit a
      public project, who is refused with 403 once corrected. */
  lemma AccessAsWrittenCrashes(t: Tables, projectId: int, userId: int, requireEdit: bool)
    ensures CheckAccessAsWritten(t, projectId, userId, requireEdit) != CheckAccess(t, projectId, userId, requireEdit) <==>
      CheckAccessAsWritten(t, projectId, userId, requireEdit).Error?
      && CheckAccessAsWritten(t, projectId, userId, requireEdit).status == INTERNAL_SERVER_ERROR
    ensures (CheckAccessAsWritten(t, projectId, userId, requireEdit).Error?
             && CheckAccessAsWritten(t, projectId, userId, requireEdit).status == INTERNAL_SERVER_ERROR) ==>
      CheckAccess(t, projectId, userId, requireEdit) == Error(FORBIDDEN, "Edit access denied")
  {
  }

  /** A public project with no members, and a caller who does not own it. */
  function PublicProjectStore(): Tables {
    Tables([], [], [Row(1, Project("demo", None, true, None, 1))], [], [], [], [], [], [], [], [], 2, 0)
  }

  /** The input that shows the crash: user 2 asks to edit user 1's public project. */
  lemma AccessCrashExample()
    ensures CheckAccessAsWritten(PublicProjectStore(), 1, 2, true).Error?
    ensures CheckAccessAsWritten(PublicProjectStore(), 1, 2, true).status == INTERNAL_SERVER_ERROR
    ensures CheckAccess(PublicProjectStore(), 1, 2, true) == Error(FORBIDDEN, "Edit access denied")
    ensures CheckAccess(PublicProjectStore(), 1, 2, false).Ok?
  {
    assert Lookup(PublicProjectStore().projects, 1) == Some(Project("demo", None, true, None, 1));
  }

  /** Access depends only on the projects and members tables. */
  lemma AccessFrame(t: Tables, u: Tables, projectId: int, userId: int, requireEdit: bool)
    requires t.projects == u.projects && t.members == u.members
    ensures CheckAccess(t, projectId, userId, requireEdit) == CheckAccess(u, projectId, userId, requireEdit)
  {
  }

  /** Whoever may edit may also read. */
  lemma EditImpliesRead(t: Tables, projectId: int, userId: int)
    requires CheckAccess(t, projectId, userId, true).Ok?
    ensures CheckAccess(t, projectId, userId, false) == CheckAccess(t, projectId, userId, true)
  {
  }

  // ---------------------------------------------------------------- files

  /** The body of a create or update request. */
  datatype FileRequest = FileRequest(path: string, content: string, fileType: string)

  /** `project.files`, in table order. */
  function FilesOf(t: Tables, projectId: int): seq<Row<ProjectFile>> {
    Filter(t.files, InProject(projectId))
  }

  predicate PathTaken(t: Tables, projectId: int, path: string) {
    exists i :: 0 <= i < |t.files| && t.files[i].val.projectId == projectId && t.files[i].val.path == path
  }

  /** The file with this key, when it belongs to the project. */
  function FindFile(t: Tables, projectId: int, fileId: int): (r: Option<ProjectFile>)
    ensures r.Some? ==> fileId >= 0 && Row(fileId, r.value) in t.files && r.value.projectId == projectId
    ensures r.Some? <==> HasId(t.files, fileId) && Lookup(t.files, fileId).value.projectId == projectId
  {
    match Lookup(t.files, fileId)
    case None => None
    case Some(f) => if f.projectId == projectId then Some(f) else None
  }

  /** `get_project_files`. */
  function ListFiles(t: Tables, userId: int, projectId: int): (r: Result<seq<Row<ProjectFile>>>)
    ensures r.Ok? <==> CheckAccess(t, projectId, userId, false).Ok?
    ensures r.Ok? ==> forall x :: x in r.value <==> x in t.files && x.val.projectId == projectId
  {
    match CheckAccess(t, projectId, userId, false)
    case Error(s, m) => Error(s, m)
    case Ok(_) => Ok(FilesOf(t, projectId))
  }

  /** `get_project_file`. */
  function GetFile(t: Tables, userId: int, projectId: int, fileId: int): (r: Result<Row<ProjectFile>>)
    ensures r.Ok? <==> CheckAccess(t, projectId, userId, false).Ok? && FindFile(t, projectId, fileId).Some?
    ensures r.Ok? ==> r.value in t.files && r.value.id == fileId && r.value.val.projectId == projectId
    ensures CheckAccess(t, projectId, userId, false).Ok? && FindFile(t, projectId, fileId).None? ==>
      r == Error(NOT_FOUND, "File not found")
  {
    match CheckAccess(t, projectId, userId, false)
    case Error(s, m) => Error(s, m)
    case Ok(_) =>
      match FindFile(t, projectId, fileId)
      case None => Error(NOT_FOUND, "File not found")
      case Some(f) => Ok(Row(fileId, f))
  }

  /** The highest version number recorded for the file, if any (the first row of the query
      ordered by descending `version_number`). */
  function LatestVersion(vs: seq<Row<FileVersion>>, fileId: int): (r: Option<int>)
    ensures r.None? <==> forall i :: 0 <= i < |vs| ==> vs[i].val.fileId != Some(fileId)
    ensures r.Some? ==> exists i :: 0 <= i < |vs| && vs[i].val.fileId == Some(fileId) && vs[i].val.number == r.value
    ensures r.Some? ==> forall i :: 0 <= i < |vs| && vs[i].val.fileId == Some(fileId) ==> vs[i].val.number <= r.value
  {
    if vs == [] then None
    else
      var rest := LatestVersion(vs[..|vs| - 1], fileId);
      var last := vs[|vs| - 1];
      assert forall i :: 0 <= i < |vs| - 1 ==> vs[i] == vs[..|vs| - 1][i];
      if last.val.fileId != Some(fileId) then rest
      else if rest.Some? && rest.value >= last.val.number then rest
      else Some(last.val.number)
  }

  /** The number the next saved version of the file gets: one past the latest, or 1. */
  function NextVersion(vs: seq<Row<FileVersion>>, fileId: int): (r: int)
    ensures forall i :: 0 <= i < |vs| && vs[i].val.fileId == Some(fileId) ==> vs[i].val.number < r
    ensures (exists i :: 0 <= i < |vs| && vs[i].val.fileId == Some(fileId)) ==>
      exists i :: 0 <= i < |vs| && vs[i].val.fileId == Some(fileId) && vs[i].val.number == r - 1
    ensures (forall i :: 0 <= i < |vs| ==> vs[i].val.fileId != Some(fileId)) ==> r == 1
    ensures LatestVersion(vs, fileId).Some? ==> r == LatestVersion(vs, fileId).value + 1
  {
    match LatestVersion(vs, fileId)
    case None => 1
    case Some(n) => n + 1
  }

  /** The rows `create_project_file` adds: the file, its first version (naming the file by
      `versionFileId`) and a "file_create" activity. */
  function NewFile(t: Tables, userId: int, projectId: int, req: FileRequest, versionFileId: Option<int>): Tables {
    var t1 := AddFile(t, ProjectFile(projectId, req.path, req.content, req.fileType, userId));
    var t2 := AddVersion(t1, FileVersion(versionFileId, req.content, 1, userId, "Initial version"));
    LogActivity(t2, projectId, userId, "file_create", map["file_path" := Str(req.path), "file_type" := Str(req.fileType)])
  }

  /** The checks `create_project_file` makes before adding anything. */
  function CreateFileCheck(t: Tables, userId: int, projectId: int, req: FileRequest): (r: Result<bool>)
    ensures r.Ok? <==> CheckAccess(t, projectId, userId, true).Ok? && !PathTaken(t, projectId, req.path)
    ensures CheckAccess(t, projectId, userId, true).Ok? && PathTaken(t, projectId, req.path) ==>
      r == Error(BAD_REQUEST, "File already exists")
  {
    match CheckAccess(t, projectId, userId, true)
    case Error(s, m) => Error(s, m)
    case Ok(_) => if PathTaken(t, projectId, req.path) then Error(BAD_REQUEST, "File already exists") else Ok(true)
  }

  /** `create_project_file` as written: the initial version reads `db_file.id` before the
      session has flushed the file, so its `file_id` is NULL. */
  function CreateFileAsWritten(t: Tables, userId: int, projectId: int, req: FileRequest): (r: Step<Row<ProjectFile>>)
    ensures r.result.Ok? ==> |r.db.versions| == |t.versions| + 1 && r.db.versions[|t.versions|].val.fileId.None?
  {
    match CreateFileCheck(t, userId, projectId, req)
    case Error(s, m) => Step(t, Error(s, m))
    case Ok(_) =>
      Step(NewFile(t, userId, projectId, req, None), Ok(Row(t.nextId, ProjectFile(projectId, req.path, req.content, req.fileType, userId))))
  }

  /** `create_project_file` with the initial version attached to the new file. */
  function CreateFileSpec(t: Tables, userId: int, projectId: int, req: FileRequest): (r: Step<Row<ProjectFile>>)
    ensures r.result.Ok? <==> CreateFileCheck(t, userId, projectId, req).Ok?
    ensures r.result.Error? ==> r == Step(t, Error(CreateFileCheck(t, userId, projectId, req).status, CreateFileCheck(t, userId, projectId, req).detail))
    ensures r.result.Ok? ==>
      && r.result.value == Row(t.nextId, ProjectFile(projectId, req.path, req.content, req.fileType, userId))
      && r.db.files == t.files + [r.result.value]
      && r.db.versions == t.versions + [Row(t.nextId + 1, FileVersion(Some(t.nextId), req.content, 1, userId, "Initial version"))]
      && r.db == NewFile(t, userId, projectId, req, Some(t.nextId))
  {
    match CreateFileCheck(t, userId, projectId, req)
    case Error(s, m) => Step(t, Error(s, m))
    case Ok(_) =>
      Step(NewFile(t, userId, projectId, req, Some(t.nextId)), Ok(Row(t.nextId, ProjectFile(projectId, req.path, req.content, req.fileType, userId))))
  }

  lemma CreateFileConsistent(t: Tables, userId: int, projectId: int, req: FileRequest)
    requires Consistent(t)
    ensures Consistent(CreateFileSpec(t, userId, projectId, req).db)
  {
    if CreateFileCheck(t, userId, projectId, req).Ok? {
      var f := ProjectFile(projectId, req.path, req.content, req.fileType, userId);
      var t1 := AddFile(t, f);
      AddFileConsistent(t, f);
      AddVersionConsistent(t1, FileVersion(Some(t.nextId), req.content, 1, userId, "Initial version"));
      var t2 := AddVersion(t1, FileVersion(Some(t.nextId), req.content, 1, userId, "Initial version"));
      LogActivityConsistent(t2, projectId, userId, "file_create", map["file_path" := Str(req.path), "file_type" := Str(req.fileType)]);
    }
  }

  /** `get_file_versions`: the file's versions, newest first. */
  function FileVersions(t: Tables, userId: int, projectId: int, fileId: int): (r: Result<seq<Row<FileVersion>>>)
    ensures r.Ok? <==> CheckAccess(t, projectId, userId, false).Ok? && FindFile(t, projectId, fileId).Some?
    ensures CheckAccess(t, projectId, userId, false).Ok? && FindFile(t, projectId, fileId).None? ==>
      r == Error(NOT_FOUND, "File not found")
    ensures r.Ok? ==> forall x :: x in r.value <==> x in t.versions && x.val.fileId == Some(fileId)
  {
    match CheckAccess(t, projectId, userId, false)
    case Error(s, m) => Error(s, m)
    case Ok(_) =>
      if FindFile(t, projectId, fileId).None? then Error(NOT_FOUND, "File not found")
      else
        ReverseMembers(Filter(t.versions, OfFile(fileId)));
        Ok(Reverse(Filter(t.versions, OfFile(fileId))))
  }

  /** Versions are listed by strictly decreasing number. */
  lemma {:induction false} FileVersionsDescending(t: Tables, userId: int, projectId: int, fileId: int)
    requires VersionsIncrease(t.versions)
    requires FileVersions(t, userId, projectId, fileId).Ok?
    ensures var r := FileVersions(t, userId, projectId, fileId).value;
      forall i, j :: 0 <= i < j < |r| ==> r[i].val.number > r[j].val.number
  {
    var f := Filter(t.versions, OfFile(fileId));
    forall a, b | 0 <= a < b < |f| ensures f[a].val.number < f[b].val.number {
      FilterOrder(t.versions, OfFile(fileId), a, b);
    }
  }

  /** A freshly created file's history is exactly its initial version. */
  lemma {:induction false} CreatedFileHistory(t: Tables, userId: int, projectId: int, req: FileRequest)
    requires Consistent(t)
    requires CreateFileSpec(t, userId, projectId, req).result.Ok?
    ensures var r := CreateFileSpec(t, userId, projectId, req);
      FileVersions(r.db, userId, projectId, t.nextId)
        == Ok([Row(t.nextId + 1, FileVersion(Some(t.nextId), req.content, 1, userId, "Initial version"))])
  {
    var r := CreateFileSpec(t, userId, projectId, req);
    var v := Row(t.nextId + 1, FileVersion(Some(t.nextId), req.content, 1, userId, "Initial version"));
    NewFileHistory(t, userId, projectId, req, Some(t.nextId));
    FilterSingle(v, OfFile(t.nextId));
    assert Reverse([v]) == [v];
  }

  /** The same for the code as written: the new file has no history at all, because its
      initial version is not attached to it. */
  lemma {:induction false} CreatedFileHistoryAsWritten(t: Tables, userId: int, projectId: int, req: FileRequest)
    requires Consistent(t)
    requires CreateFileAsWritten(t, userId, projectId, req).result.Ok?
    ensures var r := CreateFileAsWritten(t, userId, projectId, req);
      FileVersions(r.db, userId, projectId, t.nextId) == Ok([])
  {
    var v := Row(t.nextId + 1, FileVersion(None, req.content, 1, userId, "Initial version"));
    NewFileHistory(t, userId, projectId, req, None);
    FilterSingle(v, OfFile(t.nextId));
  }

  /** After `NewFile` the new file can be read back, and its history is whatever the initial
      version contributes. */
  lemma {:induction false} NewFileHistory(t: Tables, userId: int, projectId: int, req: FileRequest, versionFileId: Option<int>)
    requires IdsBelow(t.files, t.nextId) && VersionsOfPastKeys(t.versions, t.nextId)
    requires CheckAccess(t, projectId, userId, true).Ok?
    ensures var u := NewFile(t, userId, projectId, req, versionFileId);
      var v := Row(t.nextId + 1, FileVersion(versionFileId, req.content, 1, userId, "Initial version"));
      FileVersions(u, userId, projectId, t.nextId) == Ok(Reverse(Filter([v], OfFile(t.nextId))))
  {
    var u := NewFile(t, userId, projectId, req, versionFileId);
    var f := ProjectFile(projectId, req.path, req.content, req.fileType, userId);
    var v := Row(t.nextId + 1, FileVersion(versionFileId, req.content, 1, userId, "Initial version"));
    assert u.files == t.files + [Row(t.nextId, f)];
    assert u.versions == t.versions + [v];
    NewFileFound(t.files, t.nextId, f);
    NewFileVersions(t.versions, t.nextId, v);
    AccessFrame(t, u, projectId, userId, false);
    EditImpliesRead(t, projectId, userId);
  }

  /** A row appended under a fresh key reads back by that key. */
  lemma {:induction false} NewFileFound(files: seq<Row<ProjectFile>>, next: nat, f: ProjectFile)
    requires IdsBelow(files, next)
    ensures Lookup(files + [Row(next, f)], next) == Some(f)
  {
    assert !HasId(files, next);
    LookupAppend(files, Row(next, f), next);
  }

  /** No version yet belongs to a key not handed out, so the history of the new key is what is
      appended. */
  lemma {:induction false} NewFileVersions(vs: seq<Row<FileVersion>>, next: nat, v: Row<FileVersion>)
    requires VersionsOfPastKeys(vs, next)
    ensures Filter(vs + [v], OfFile(next)) == Filter([v], OfFile(next))
  {
    assert forall i :: 0 <= i < |vs| ==> !OfFile(next)(vs[i]);
    NoneKept(vs, OfFile(next));
    FilterAppend(vs, [v], OfFile(next));
  }

  /** Saving the file's current content as its next version. */
  function SaveVersion(t: Tables, fileId: int, content: string, userId: int, summary: string): (r: Tables)
    ensures r == t.(versions := r.versions, nextId := t.nextId + 1)
    ensures |r.versions| == |t.versions| + 1 && r.versions[..|t.versions|] == t.versions
    ensures var v := r.versions[|t.versions|];
      && v.id == t.nextId && v.val == FileVersion(Some(fileId), content, v.val.number, userId, summary)
      && forall i :: 0 <= i < |t.versions| && t.versions[i].val.fileId == Some(fileId) ==> t.versions[i].val.number < v.val.number
  {
    AddVersion(t, FileVersion(Some(fileId), content, NextVersion(t.versions, fileId), userId, summary))
  }

  /** Writing new columns to the file row. */
  function WriteFile(t: Tables, fileId: int, f: ProjectFile): (r: Tables)
    ensures r == t.(files := r.files) && |r.files| == |t.files|
    ensures forall k :: Lookup(r.files, k) == (if k == fileId && HasId(t.files, fileId) then Some(f) else Lookup(t.files, k))
  {
    LookupSetValAll(t.files, fileId, f);
    t.(files := SetVal(t.files, fileId, f))
  }

  lemma SaveVersionConsistent(t: Tables, fileId: int, content: string, userId: int, summary: string)
    requires Consistent(t) && HasId(t.files, fileId)
    ensures Consistent(SaveVersion(t, fileId, content, userId, summary))
  {
    AddVersionConsistent(t, FileVersion(Some(fileId), content, NextVersion(t.versions, fileId), userId, summary));
  }

  lemma WriteFileConsistent(t: Tables, fileId: int, f: ProjectFile)
    requires Consistent(t)
    ensures Consistent(WriteFile(t, fileId, f))
  {
    KeyedSetVal(t.files, t.nextId, fileId, f);
  }

  /** Saving a version and writing the file, seen through the handlers' reads: the file reads
      back as written, and the saved version is the newest of its history. */
  lemma {:induction false} SaveAndWrite(t: Tables, projectId: int, fileId: int, content: string, userId: int, summary: string, f: ProjectFile)
    requires FindFile(t, projectId, fileId).Some? && f.projectId == projectId
    ensures var u := WriteFile(SaveVersion(t, fileId, content, userId, summary), fileId, f);
      && FindFile(u, projectId, fileId) == Some(f)
      && Filter(u.versions, OfFile(fileId)) == Filter(t.versions, OfFile(fileId))
           + [Row(t.nextId, FileVersion(Some(fileId), content, NextVersion(t.versions, fileId), userId, summary))]
  {
    var v := Row(t.nextId, FileVersion(Some(fileId), content, NextVersion(t.versions, fileId), userId, summary));
    LookupSetVal(t.files, fileId, f, fileId);
    FilterAppend(t.versions, [v], OfFile(fileId));
    FilterSingle(v, OfFile(fileId));
  }

  /** `update_project_file`: the current content is saved as the next version, then the request
      body replaces path, content and type. */
  function UpdateFileSpec(t: Tables, user: Row<User>, projectId: int, fileId: int, req: FileRequest): (r: Step<Row<ProjectFile>>)
    ensures r.result.Ok? <==> CheckAccess(t, projectId, user.id, true).Ok? && FindFile(t, projectId, fileId).Some?
    ensures r.result.Error? ==> r.db == t
    ensures CheckAccess(t, projectId, user.id, true).Ok? && FindFile(t, projectId, fileId).None? ==>
      r.result == Error(NOT_FOUND, "File not found")
    ensures r.result.Ok? ==>
      var f := FindFile(t, projectId, fileId).value;
      var updated := f.(path := req.path, content := req.content, fileType := req.fileType);
      && r.result.value == Row(fileId, updated)
      && r.db == LogActivity(WriteFile(SaveVersion(t, fileId, f.content, user.id, "Updated by " + user.val.email), fileId, updated),
                             projectId, user.id, "file_edit", map["file_path" := Str(req.path), "file_id" := Num(fileId)])
  {
    match CheckAccess(t, projectId, user.id, true)
    case Error(s, m) => Step(t, Error(s, m))
    case Ok(_) =>
      match FindFile(t, projectId, fileId)
      case None => Step(t, Error(NOT_FOUND, "File not found"))
      case Some(f) =>
        var updated := f.(path := req.path, content := req.content, fileType := req.fileType);
        var t1 := WriteFile(SaveVersion(t, fileId, f.content, user.id, "Updated by " + user.val.email), fileId, updated);
        Step(LogActivity(t1, projectId, user.id, "file_edit", map["file_path" := Str(req.path), "file_id" := Num(fileId)]), Ok(Row(fileId, updated)))
  }

  lemma UpdateFileConsistent(t: Tables, user: Row<User>, projectId: int, fileId: int, req: FileRequest)
    requires Consistent(t)
    ensures Consistent(UpdateFileSpec(t, user, projectId, fileId, req).db)
  {
    if UpdateFileSpec(t, user, projectId, fileId, req).result.Ok? {
      var f := FindFile(t, projectId, fileId).value;
      var updated := f.(path := req.path, content := req.content, fileType := req.fileType);
      var t1 := SaveVersion(t, fileId, f.content, user.id, "Updated by " + user.val.email);
      SaveVersionConsistent(t, fileId, f.content, user.id, "Updated by " + user.val.email);
      WriteFileConsistent(t1, fileId, updated);
      LogActivityConsistent(WriteFile(t1, fileId, updated), projectId, user.id, "file_edit", map["file_path" := Str(req.path), "file_id" := Num(fileId)]);
    }
  }

  /** After an update, the newest entry of the file's history holds the content it replaced,
      under a number above every earlier one. */
  lemma {:induction false} UpdateArchivesOldContent(t: Tables, user: Row<User>, projectId: int, fileId: int, req: FileRequest)
    requires UpdateFileSpec(t, user, projectId, fileId, req).result.Ok?
    ensures var r := UpdateFileSpec(t, user, projectId, fileId, req);
      var h := FileVersions(r.db, user.id, projectId, fileId);
      && h.Ok? && h.value != []
      && h.value[0].val.content == FindFile(t, projectId, fileId).value.content
      && forall x :: x in t.versions && x.val.fileId == Some(fileId) ==> x.val.number < h.value[0].val.number
  {
    var r := UpdateFileSpec(t, user, projectId, fileId, req);
    var f := FindFile(t, projectId, fileId).value;
    var updated := f.(path := req.path, content := req.content, fileType := req.fileType);
    SaveAndWrite(t, projectId, fileId, f.content, user.id, "Updated by " + user.val.email, updated);
    AccessFrame(t, r.db, projectId, user.id, false);
    EditImpliesRead(t, projectId, user.id);
  }

  /** `delete_project_file`: logs the deletion, then removes the file and its versions. */
  function DeleteFileSpec(t: Tables, userId: int, projectId: int, fileId: int): (r: Step<string>)
    ensures r.result.Ok? <==> CheckAccess(t, projectId, userId, true).Ok? && FindFile(t, projectId, fileId).Some?
    ensures r.result.Error? ==> r.db == t
    ensures r.db == t.(files := r.db.files, versions := r.db.versions, activities := r.db.activities, nextId := r.db.nextId)
    ensures r.result.Ok? ==> r.db.nextId == t.nextId + 1
    ensures CheckAccess(t, projectId, userId, true).Ok? && FindFile(t, projectId, fileId).None? ==>
      r.result == Error(NOT_FOUND, "File not found")
    ensures r.result.Ok? ==>
      && r.result.value == "File deleted successfully"
      && (forall x :: x in r.db.files <==> x in t.files && x.id != fileId)
      && (forall x :: x in r.db.versions <==> x in t.versions && x.val.fileId != Some(fileId))
      && r.db.activities == t.activities + [Row(t.nextId, Activity(projectId, userId, "file_delete",
           map["file_path" := Str(FindFile(t, projectId, fileId).value.path), "file_id" := Num(fileId)], t.clock))]
  {
    match CheckAccess(t, projectId, userId, true)
    case Error(s, m) => Step(t, Error(s, m))
    case Ok(_) =>
      match FindFile(t, projectId, fileId)
      case None => Step(t, Error(NOT_FOUND, "File not found"))
      case Some(f) =>
        var t1 := LogActivity(t, projectId, userId, "file_delete", map["file_path" := Str(f.path), "file_id" := Num(fileId)]);
        Step(DropFile(t1, fileId), Ok("File deleted successfully"))
  }

  /** The store stays consistent, and the deleted file can no longer be fetched. */
  lemma DeleteFileGone(t: Tables, userId: int, projectId: int, fileId: int)
    requires Consistent(t)
    ensures Consistent(DeleteFileSpec(t, userId, projectId, fileId).db)
    ensures var r := DeleteFileSpec(t, userId, projectId, fileId);
      r.result.Ok? ==> GetFile(r.db, userId, projectId, fileId) == Error(NOT_FOUND, "File not found")
  {
    var r := DeleteFileSpec(t, userId, projectId, fileId);
    if r.result.Ok? {
      var f := FindFile(t, projectId, fileId).value;
      var t1 := LogActivity(t, projectId, userId, "file_delete", map["file_path" := Str(f.path), "file_id" := Num(fileId)]);
      LogActivityConsistent(t, projectId, userId, "file_delete", map["file_path" := Str(f.path), "file_id" := Num(fileId)]);
      DropFileConsistent(t1, fileId);
      AccessFrame(t, r.db, projectId, userId, false);
      EditImpliesRead(t, projectId, userId);
      assert !HasId(r.db.files, fileId) by {
        forall i | 0 <= i < |r.db.files| ensures r.db.files[i].id != fileId {
          assert r.db.files[i] in r.db.files;
        }
      }
    }
  }

  /** The version with this key, when it belongs to the file. */
  function FindVersion(t: Tables, fileId: int, versionId: int): (r: Option<FileVersion>)
    ensures r.Some? ==> versionId >= 0 && Row(versionId, r.value) in t.versions && r.value.fileId == Some(fileId)
    ensures r.Some? <==> HasId(t.versions, versionId) && Lookup(t.versions, versionId).value.fileId == Some(fileId)
    ensures IdsIncreasing(t.versions) ==> forall i :: 0 <= i < |t.versions| && t.versions[i].id == versionId && t.versions[i].val.fileId == Some(fileId) ==>
      r == Some(t.versions[i].val)
  {
    LookupRows(t.versions);
    match Lookup(t.versions, versionId)
    case None => None
    case Some(v) => if v.fileId == Some(fileId) then Some(v) else None
  }

  /** `restore_file_version`: the current content is saved as the next version, then the chosen
      version's content becomes the file's; path and type stay. */
  function RestoreFileSpec(t: Tables, user: Row<User>, projectId: int, fileId: int, versionId: int): (r: Step<Row<ProjectFile>>)
    ensures r.result.Ok? <==>
      CheckAccess(t, projectId, user.id, true).Ok? && FindFile(t, projectId, fileId).Some? && FindVersion(t, fileId, versionId).Some?
    ensures r.result.Error? ==> r.db == t
    ensures (CheckAccess(t, projectId, user.id, true).Ok? && FindFile(t, projectId, fileId).Some?
             && FindVersion(t, fileId, versionId).None?) ==> r.result == Error(NOT_FOUND, "Version not found")
    ensures r.result.Ok? ==>
      var f := FindFile(t, projectId, fileId).value;
      var v := FindVersion(t, fileId, versionId).value;
      && r.result.value == Row(fileId, f.(content := v.content))
      && r.db == LogActivity(WriteFile(SaveVersion(t, fileId, f.content, user.id, "Restored from version " + IntToString(v.number)),
                                       fileId, f.(content := v.content)),
                             projectId, user.id, "file_restore", map["file_path" := Str(f.path), "version_id" := Num(versionId)])
  {
    match CheckAccess(t, projectId, user.id, true)
    case Error(s, m) => Step(t, Error(s, m))
    case Ok(_) =>
      match FindFile(t, projectId, fileId)
      case None => Step(t, Error(NOT_FOUND, "File not found"))
      case Some(f) =>
        match FindVersion(t, fileId, versionId)
        case None => Step(t, Error(NOT_FOUND, "Version not found"))
        case Some(v) =>
          var t1 := WriteFile(SaveVersion(t, fileId, f.content, user.id, "Restored from version " + IntToString(v.number)),
                              fileId, f.(content := v.content));
          Step(LogActivity(t1, projectId, user.id, "file_restore", map["file_path" := Str(f.path), "version_id" := Num(versionId)]),
               Ok(Row(fileId, f.(content := v.content))))
  }

  lemma RestoreFileConsistent(t: Tables, user: Row<User>, projectId: int, fileId: int, versionId: int)
    requires Consistent(t)
    ensures Consistent(RestoreFileSpec(t, user, projectId, fileId, versionId).db)
  {
    if RestoreFileSpec(t, user, projectId, fileId, versionId).result.Ok? {
      var f := FindFile(t, projectId, fileId).value;
      var v := FindVersion(t, fileId, versionId).value;
      var summary := "Restored from version " + IntToString(v.number);
      var t1 := SaveVersion(t, fileId, f.content, user.id, summary);
      SaveVersionConsistent(t, fileId, f.content, user.id, summary);
      WriteFileConsistent(t1, fileId, f.(content := v.content));
      LogActivityConsistent(WriteFile(t1, fileId, f.(content := v.content)), projectId, user.id, "file_restore",
                            map["file_path" := Str(f.path), "version_id" := Num(versionId)]);
    }
  }

  /** Restoring the version an update just saved brings the replaced content back. */
  lemma {:induction false} RestoreUndoesUpdate(t: Tables, user: Row<User>, projectId: int, fileId: int, req: FileRequest)
    requires Keyed(t.versions, t.nextId)
    requires UpdateFileSpec(t, user, projectId, fileId, req).result.Ok?
    ensures var r1 := UpdateFileSpec(t, user, projectId, fileId, req);
      var r2 := RestoreFileSpec(r1.db, user, projectId, fileId, t.nextId);
      r2.result.Ok? && r2.result.value.val.content == FindFile(t, projectId, fileId).value.content
  {
    var r1 := UpdateFileSpec(t, user, projectId, fileId, req);
    var f := FindFile(t, projectId, fileId).value;
    var updated := f.(path := req.path, content := req.content, fileType := req.fileType);
    var saved := Row(t.nextId, FileVersion(Some(fileId), f.content, NextVersion(t.versions, fileId), user.id, "Updated by " + user.val.email));
    SaveAndWrite(t, projectId, fileId, f.content, user.id, "Updated by " + user.val.email, updated);
    AccessFrame(t, r1.db, projectId, user.id, true);
    assert !HasId(t.versions, t.nextId);
    LookupAppend(t.versions, saved, t.nextId);
    assert FindVersion(r1.db, fileId, t.nextId) == Some(saved.val);
  }

  // ---------------------------------------------------------------- snapshots

  datatype SnapshotRequest = SnapshotRequest(name: string, description: Option<string>)

  /** The "files" list of a snapshot: path, content and type of each file. */
  function SnapshotFiles(fs: seq<Row<ProjectFile>>): (r: seq<SnapshotFile>)
    ensures |r| == |fs|
    ensures forall i :: 0 <= i < |fs| ==> r[i] == SnapshotFile(fs[i].val.path, fs[i].val.content, fs[i].val.fileType)
  {
    if fs == [] then [] else [SnapshotFile(fs[0].val.path, fs[0].val.content, fs[0].val.fileType)] + SnapshotFiles(fs[1..])
  }

  /** `create_project_version`: a snapshot of the project's files and settings. */
  function CreateSnapshotSpec(t: Tables, userId: int, projectId: int, req: SnapshotRequest): (r: Step<Row<Snapshot>>)
    ensures r.result.Ok? <==> CheckAccess(t, projectId, userId, true).Ok?
    ensures r.result.Error? ==> r.db == t
    ensures r.result.Ok? ==>
      && r.result.value.id == t.nextId
      && r.result.value.val == Snapshot(projectId, SnapshotFiles(FilesOf(t, projectId)),
                                        SettingsKey(Lookup(t.projects, projectId).value.settings),
                                        req.name, req.description, userId, t.clock)
      && r.db.snapshots == t.snapshots + [r.result.value]
      && r.db == LogActivity(AddSnapshot(t, r.result.value.val), projectId, userId, "version_create", map["version_name" := Str(req.name)])
  {
    match CheckAccess(t, projectId, userId, true)
    case Error(s, m) => Step(t, Error(s, m))
    case Ok(access) =>
      var snap := Snapshot(projectId, SnapshotFiles(FilesOf(t, projectId)), SettingsKey(access.project.settings),
                           req.name, req.description, userId, t.clock);
      Step(LogActivity(AddSnapshot(t, snap), projectId, userId, "version_create", map["version_name" := Str(req.name)]), Ok(Row(t.nextId, snap)))
  }

  lemma CreateSnapshotConsistent(t: Tables, userId: int, projectId: int, req: SnapshotRequest)
    requires Consistent(t)
    ensures Consistent(CreateSnapshotSpec(t, userId, projectId, req).db)
  {
    var r := CreateSnapshotSpec(t, userId, projectId, req);
    if r.result.Ok? {
      var snap := r.result.value.val;
      KeyedAdd(t.snapshots, t.nextId, snap);
      ChronologicalAdd(t.snapshots, (s: Snapshot) => s.createdAt, t.clock, t.nextId, snap);
      LogActivityConsistent(AddSnapshot(t, snap), projectId, userId, "version_create", map["version_name" := Str(req.name)]);
    }
  }

  function OfProject(projectId: int): Row<Snapshot> -> bool {
    (s: Row<Snapshot>) => s.val.projectId == projectId
  }

  /** `get_project_versions`: the project's snapshots, newest first. */
  function ListSnapshots(t: Tables, userId: int, projectId: int): (r: Result<seq<Row<Snapshot>>>)
    ensures r.Ok? <==> CheckAccess(t, projectId, userId, false).Ok?
    ensures r.Ok? ==> forall x :: x in r.value <==> x in t.snapshots && x.val.projectId == projectId
  {
    match CheckAccess(t, projectId, userId, false)
    case Error(s, m) => Error(s, m)
    case Ok(_) =>
      ReverseMembers(Filter(t.snapshots, OfProject(projectId)));
      Ok(Reverse(Filter(t.snapshots, OfProject(projectId))))
  }

  lemma {:induction false} ListSnapshotsNewestFirst(t: Tables, userId: int, projectId: int)
    requires Chronological(t.snapshots, (s: Snapshot) => s.createdAt, t.clock)
    requires ListSnapshots(t, userId, projectId).Ok?
    ensures var r := ListSnapshots(t, userId, projectId).value;
      forall i, j :: 0 <= i < j < |r| ==> r[i].val.createdAt >= r[j].val.createdAt
  {
    var key := (s: Row<Snapshot>) => s.val.createdAt;
    assert SortedBy(t.snapshots, key);
    FilterSorted(t.snapshots, OfProject(projectId), key);
    ReverseSorted(Filter(t.snapshots, OfProject(projectId)), key);
  }

  /** The snapshot with this key, when it belongs to the project. */
  function FindSnapshot(t: Tables, projectId: int, snapshotId: int): (r: Option<Snapshot>)
    ensures r.Some? ==> snapshotId >= 0 && Row(snapshotId, r.value) in t.snapshots && r.value.projectId == projectId
    ensures r.Some? <==> HasId(t.snapshots, snapshotId) && Lookup(t.snapshots, snapshotId).value.projectId == projectId
    ensures IdsIncreasing(t.snapshots) ==> forall i :: 0 <= i < |t.snapshots| && t.snapshots[i].id == snapshotId && t.snapshots[i].val.projectId == projectId ==>
      r == Some(t.snapshots[i].val)
  {
    LookupRows(t.snapshots);
    match Lookup(t.snapshots, snapshotId)
    case None => None
    case Some(s) => if s.projectId == projectId then Some(s) else None
  }

  /** Deleting the files with these keys, one after the other. */
  function DropFiles(t: Tables, ids: seq<int>): (r: Tables)
    ensures r == t.(files := r.files, versions := r.versions)
    ensures forall x :: x in r.files <==> x in t.files && x.id !in ids
    decreases |ids|
  {
    if ids == [] then t else DropFiles(DropFile(t, ids[0]), ids[1..])
  }

  lemma {:induction false} DropFilesConsistent(t: Tables, ids: seq<int>)
    requires Consistent(t)
    ensures Consistent(DropFiles(t, ids))
    decreases |ids|
  {
    if ids != [] {
      DropFileConsistent(t, ids[0]);
      DropFilesConsistent(DropFile(t, ids[0]), ids[1..]);
    }
  }

  /** The rows the snapshot's files become, keyed from `next` on. */
  function RestoredRows(next: nat, projectId: int, userId: int, fs: seq<SnapshotFile>): (r: seq<Row<ProjectFile>>)
    ensures |r| == |fs|
    ensures forall i :: 0 <= i < |fs| ==> r[i] == Row(next + i, ProjectFile(projectId, fs[i].path, fs[i].content, fs[i].fileType, userId))
    decreases |fs|
  {
    if fs == [] then []
    else
      var last := fs[|fs| - 1];
      RestoredRows(next, projectId, userId, fs[..|fs| - 1])
      + [Row(next + |fs| - 1, ProjectFile(projectId, last.path, last.content, last.fileType, userId))]
  }

  /** Adding the snapshot's files one after the other. */
  function AddFiles(t: Tables, projectId: int, userId: int, fs: seq<SnapshotFile>): (r: Tables)
    ensures r == t.(files := t.files + RestoredRows(t.nextId, projectId, userId, fs), nextId := t.nextId + |fs|)
  {
    if fs == [] then t
    else
      var last := fs[|fs| - 1];
      AddFile(AddFiles(t, projectId, userId, fs[..|fs| - 1]), ProjectFile(projectId, last.path, last.content, last.fileType, userId))
  }

  lemma {:induction false} AddFilesConsistent(t: Tables, projectId: int, userId: int, fs: seq<SnapshotFile>)
    requires Consistent(t)
    ensures Consistent(AddFiles(t, projectId, userId, fs))
  {
    if fs != [] {
      var last := fs[|fs| - 1];
      AddFilesConsistent(t, projectId, userId, fs[..|fs| - 1]);
      AddFileConsistent(AddFiles(t, projectId, userId, fs[..|fs| - 1]), ProjectFile(projectId, last.path, last.content, last.fileType, userId));
    }
  }

  /** The keys of some rows. */
  function Keys<T>(rows: seq<Row<T>>): (r: seq<int>)
    ensures |r| == |rows| && forall i :: 0 <= i < |rows| ==> r[i] == rows[i].id
  {
    if rows == [] then [] else [rows[0].id] + Keys(rows[1..])
  }

  /** The settings a snapshot puts back: only when it has the key. */
  function RestoreSettings(t: Tables, projectId: int, p: Project, entry: SettingsEntry): (r: Tables)
    ensures r == t.(projects := r.projects)
    ensures entry.NoSettingsKey? ==> r == t
    ensures entry.SettingsKey? ==>
      forall k :: Lookup(r.projects, k) == (if k == projectId && HasId(t.projects, projectId) then Some(p.(settings := entry.settings)) else Lookup(t.projects, k))
  {
    match entry
    case NoSettingsKey => t
    case SettingsKey(s) =>
      LookupSetValAll(t.projects, projectId, p.(settings := s));
      t.(projects := SetVal(t.projects, projectId, p.(settings := s)))
  }

  /** `restore_project_version`: every file of the project is deleted (with its history), the
      snapshot's files are recreated under the caller's name, and the settings come back when
      the snapshot holds them. */
  function RestoreSnapshotSpec(t: Tables, userId: int, projectId: int, snapshotId: int): (r: Step<string>)
    ensures r.result.Ok? <==> CheckAccess(t, projectId, userId, true).Ok? && FindSnapshot(t, projectId, snapshotId).Some?
    ensures r.result.Error? ==> r.db == t
    ensures CheckAccess(t, projectId, userId, true).Ok? && FindSnapshot(t, projectId, snapshotId).None? ==>
      r.result == Error(NOT_FOUND, "Version not found")
    ensures r.result.Ok? ==> r.result.value == "Project restored successfully"
  {
    match CheckAccess(t, projectId, userId, true)
    case Error(s, m) => Step(t, Error(s, m))
    case Ok(access) =>
      match FindSnapshot(t, projectId, snapshotId)
      case None => Step(t, Error(NOT_FOUND, "Version not found"))
      case Some(snap) =>
        var t1 := DropFiles(t, Keys(FilesOf(t, projectId)));
        var t2 := AddFiles(t1, projectId, userId, snap.files);
        var t3 := RestoreSettings(t2, projectId, access.project, snap.settings);
        Step(LogActivity(t3, projectId, userId, "version_restore", map["version_name" := Str(snap.name), "version_id" := Num(snapshotId)]),
             Ok("Project restored successfully"))
  }

  /** What a successful restore does beside the files: the settings come back only with a
      settings key, one "version_restore" activity is logged, and no other table changes. */
  lemma RestoreSnapshotEffect(t: Tables, userId: int, projectId: int, snapshotId: int)
    requires RestoreSnapshotSpec(t, userId, projectId, snapshotId).result.Ok?
    ensures var r := RestoreSnapshotSpec(t, userId, projectId, snapshotId);
      var snap := FindSnapshot(t, projectId, snapshotId).value;
      var p := Lookup(t.projects, projectId).value;
      && r.db == t.(files := r.db.files, versions := r.db.versions, projects := r.db.projects,
                    activities := r.db.activities, nextId := r.db.nextId)
      && r.db.nextId == t.nextId + |snap.files| + 1
      && r.db.activities == t.activities + [Row(t.nextId + |snap.files|, Activity(projectId, userId, "version_restore",
           map["version_name" := Str(snap.name), "version_id" := Num(snapshotId)], t.clock))]
      && (snap.settings.NoSettingsKey? ==> r.db.projects == t.projects)
      && (snap.settings.SettingsKey? ==>
            forall k :: Lookup(r.db.projects, k) == (if k == projectId then Some(p.(settings := snap.settings.settings)) else Lookup(t.projects, k)))
  {
    var access := CheckAccess(t, projectId, userId, true).value;
    var snap := FindSnapshot(t, projectId, snapshotId).value;
    var t3 := RestoreSettings(AddFiles(DropFiles(t, Keys(FilesOf(t, projectId))), projectId, userId, snap.files),
                              projectId, access.project, snap.settings);
    assert RestoreSnapshotSpec(t, userId, projectId, snapshotId).db ==
      LogActivity(t3, projectId, userId, "version_restore", map["version_name" := Str(snap.name), "version_id" := Num(snapshotId)]);
    RestoreSteps(t, Keys(FilesOf(t, projectId)), projectId, userId, snap.files, access.project, snap.settings);
  }

  /** Deleting files, adding the snapshot's and putting the settings back touch only the
      files, versions and projects, and hand out one key per added file. */
  lemma RestoreSteps(t: Tables, ids: seq<int>, projectId: int, userId: int, fs: seq<SnapshotFile>, p: Project, entry: SettingsEntry)
    ensures var t3 := RestoreSettings(AddFiles(DropFiles(t, ids), projectId, userId, fs), projectId, p, entry);
      && t3 == t.(files := t3.files, versions := t3.versions, projects := t3.projects, nextId := t.nextId + |fs|)
      && (entry.NoSettingsKey? ==> t3.projects == t.projects)
      && (entry.SettingsKey? ==>
            forall k :: Lookup(t3.projects, k) == (if k == projectId && HasId(t.projects, projectId) then Some(p.(settings := entry.settings)) else Lookup(t.projects, k)))
  {
    var t2 := AddFiles(DropFiles(t, ids), projectId, userId, fs);
    assert t2 == t.(files := t2.files, versions := t2.versions, nextId := t.nextId + |fs|);
  }

  lemma RestoreSnapshotConsistent(t: Tables, userId: int, projectId: int, snapshotId: int)
    requires Consistent(t)
    ensures Consistent(RestoreSnapshotSpec(t, userId, projectId, snapshotId).db)
  {
    var access := CheckAccess(t, projectId, userId, true);
    var snap := FindSnapshot(t, projectId, snapshotId);
    if access.Ok? && snap.Some? {
      var t3 := RestoreSettings(AddFiles(DropFiles(t, Keys(FilesOf(t, projectId))), projectId, userId, snap.value.files),
                                projectId, access.value.project, snap.value.settings);
      RestoreStepsConsistent(t, projectId, userId, snap.value.files, access.value.project, snap.value.settings);
      var data := map["version_name" := Str(snap.value.name), "version_id" := Num(snapshotId)];
      LogActivityConsistent(t3, projectId, userId, "version_restore", data);
      assert RestoreSnapshotSpec(t, userId, projectId, snapshotId).db == LogActivity(t3, projectId, userId, "version_restore", data);
    }
  }

  lemma RestoreStepsConsistent(t: Tables, projectId: int, userId: int, fs: seq<SnapshotFile>, p: Project, entry: SettingsEntry)
    requires Consistent(t)
    ensures Consistent(RestoreSettings(AddFiles(DropFiles(t, Keys(FilesOf(t, projectId))), projectId, userId, fs), projectId, p, entry))
  {
    var t1 := DropFiles(t, Keys(FilesOf(t, projectId)));
    DropFilesConsistent(t, Keys(FilesOf(t, projectId)));
    AddFilesConsistent(t1, projectId, userId, fs);
    RestoreSettingsConsistent(AddFiles(t1, projectId, userId, fs), projectId, p, entry);
  }

  lemma RestoreSettingsConsistent(t: Tables, projectId: int, p: Project, entry: SettingsEntry)
    requires Consistent(t)
    ensures Consistent(RestoreSettings(t, projectId, p, entry))
  {
    if entry.SettingsKey? {
      KeyedSetVal(t.projects, t.nextId, projectId, p.(settings := entry.settings));
    }
  }

  /** The files after a restore: the project's old files dropped, the snapshot's rows appended. */
  lemma RestoreSnapshotFiles(t: Tables, userId: int, projectId: int, snapshotId: int)
    requires RestoreSnapshotSpec(t, userId, projectId, snapshotId).result.Ok?
    ensures var t1 := DropFiles(t, Keys(FilesOf(t, projectId)));
      RestoreSnapshotSpec(t, userId, projectId, snapshotId).db.files
      == t1.files + RestoredRows(t1.nextId, projectId, userId, FindSnapshot(t, projectId, snapshotId).value.files)
  {
  }

  /** After a restore the project holds exactly the snapshot's files, in the snapshot's order,
      and every other project's files are untouched. */
  lemma {:induction false} RestoreSnapshotRoundTrip(t: Tables, userId: int, projectId: int, snapshotId: int)
    requires IdsIncreasing(t.files)
    requires RestoreSnapshotSpec(t, userId, projectId, snapshotId).result.Ok?
    ensures var r := RestoreSnapshotSpec(t, userId, projectId, snapshotId);
      && SnapshotFiles(FilesOf(r.db, projectId)) == FindSnapshot(t, projectId, snapshotId).value.files
      && forall x :: x in t.files && x.val.projectId != projectId ==> x in r.db.files
  {
    var snap := FindSnapshot(t, projectId, snapshotId).value;
    var t1 := DropFiles(t, Keys(FilesOf(t, projectId)));
    var added := RestoredRows(t1.nextId, projectId, userId, snap.files);
    var r := RestoreSnapshotSpec(t, userId, projectId, snapshotId);
    DropOwnedFiles(t, projectId);
    RestoreSnapshotFiles(t, userId, projectId, snapshotId);
    AllKept(added, InProject(projectId));
    FilterAppend(t1.files, added, InProject(projectId));
  }

  /** Deleting the keys of a project's files empties the project and spares every other project. */
  lemma DropOwnedFiles(t: Tables, projectId: int)
    requires IdsIncreasing(t.files)
    ensures var t1 := DropFiles(t, Keys(FilesOf(t, projectId)));
      && FilesOf(t1, projectId) == []
      && forall x :: x in t.files && x.val.projectId != projectId ==> x in t1.files
  {
    var kept := DropFiles(t, Keys(FilesOf(t, projectId))).files;
    OwnedKeys(t.files, projectId);
    NoneKept(kept, InProject(projectId));
  }

  /** The keys of a project's files are exactly the keys of the rows that belong to it. */
  lemma OwnedKeys(files: seq<Row<ProjectFile>>, projectId: int)
    requires IdsIncreasing(files)
    ensures var ids := Keys(Filter(files, InProject(projectId)));
      forall x :: x in files ==> (x.id in ids <==> x.val.projectId == projectId)
  {
    var owned := Filter(files, InProject(projectId));
    var ids := Keys(owned);
    forall x | x in files && x.val.projectId == projectId ensures x.id in ids {
      var k :| 0 <= k < |owned| && owned[k] == x;
      assert ids[k] == x.id;
    }
    IdsDistinct(files);
    forall x | x in files && x.val.projectId != projectId ensures x.id !in ids {
      forall k | 0 <= k < |ids| ensures ids[k] != x.id {
        assert owned[k] in files && owned[k] != x;
      }
    }
  }

  // ---------------------------------------------------------------- the handlers

  method CreateProjectFile(db: Db, user: Row<User>, projectId: int, req: FileRequest) returns (r: Result<Row<ProjectFile>>)
    modifies db
    ensures db.State() == CreateFileSpec(old(db.State()), user.id, projectId, req).db
    ensures r == CreateFileSpec(old(db.State()), user.id, projectId, req).result
  {
    var check := CreateFileCheck(db.State(), user.id, projectId, req);
    if check.Error? {
      return Error(check.status, check.detail);
    }
    var row := db.InsertFile(ProjectFile(projectId, req.path, req.content, req.fileType, user.id));
    db.InsertVersion(FileVersion(Some(row.id), req.content, 1, user.id, "Initial version"));
    db.Log(projectId, user.id, "file_create", map["file_path" := Str(req.path), "file_type" := Str(req.fileType)]);
    r := Ok(row);
  }

  method UpdateProjectFile(db: Db, user: Row<User>, projectId: int, fileId: int, req: FileRequest) returns (r: Result<Row<ProjectFile>>)
    modifies db
    ensures db.State() == UpdateFileSpec(old(db.State()), user, projectId, fileId, req).db
    ensures r == UpdateFileSpec(old(db.State()), user, projectId, fileId, req).result
  {
    var access := CheckAccess(db.State(), projectId, user.id, true);
    if access.Error? {
      return Error(access.status, access.detail);
    }
    var file := FindFile(db.State(), projectId, fileId);
    if file.None? {
      return Error(NOT_FOUND, "File not found");
    }
    var f := file.value;
    db.InsertVersion(FileVersion(Some(fileId), f.content, NextVersion(db.versions, fileId), user.id, "Updated by " + user.val.email));
    var updated := f.(path := req.path, content := req.content, fileType := req.fileType);
    db.files := SetVal(db.files, fileId, updated);
    db.Log(projectId, user.id, "file_edit", map["file_path" := Str(req.path), "file_id" := Num(fileId)]);
    r := Ok(Row(fileId, updated));
  }

  method DeleteProjectFile(db: Db, user: Row<User>, projectId: int, fileId: int) returns (r: Result<string>)
    modifies db
    ensures db.State() == DeleteFileSpec(old(db.State()), user.id, projectId, fileId).db
    ensures r == DeleteFileSpec(old(db.State()), user.id, projectId, fileId).result
  {
    var access := CheckAccess(db.State(), projectId, user.id, true);
    if access.Error? {
      return Error(access.status, access.detail);
    }
    var file := FindFile(db.State(), projectId, fileId);
    if file.None? {
      return Error(NOT_FOUND, "File not found");
    }
    db.Log(projectId, user.id, "file_delete", map["file_path" := Str(file.value.path), "file_id" := Num(fileId)]);
    db.DeleteFile(fileId);
    r := Ok("File deleted successfully");
  }

  method RestoreFileVersion(db: Db, user: Row<User>, projectId: int, fileId: int, versionId: int) returns (r: Result<Row<ProjectFile>>)
    modifies db
    ensures db.State() == RestoreFileSpec(old(db.State()), user, projectId, fileId, versionId).db
    ensures r == RestoreFileSpec(old(db.State()), user, projectId, fileId, versionId).result
  {
    var access := CheckAccess(db.State(), projectId, user.id, true);
    if access.Error? {
      return Error(access.status, access.detail);
    }
    var file := FindFile(db.State(), projectId, fileId);
    if file.None? {
      return Error(NOT_FOUND, "File not found");
    }
    var version := FindVersion(db.State(), fileId, versionId);
    if version.None? {
      return Error(NOT_FOUND, "Version not found");
    }
    var f, v := file.value, version.value;
    db.InsertVersion(FileVersion(Some(fileId), f.content, NextVersion(db.versions, fileId), user.id, "Restored from version " + IntToString(v.number)));
    db.files := SetVal(db.files, fileId, f.(content := v.content));
    db.Log(projectId, user.id, "file_restore", map["file_path" := Str(f.path), "version_id" := Num(versionId)]);
    r := Ok(Row(fileId, f.(content := v.content)));
  }

  method CreateProjectVersion(db: Db, user: Row<User>, projectId: int, req: SnapshotRequest) returns (r: Result<Row<Snapshot>>)
    modifies db
    ensures db.State() == CreateSnapshotSpec(old(db.State()), user.id, projectId, req).db
    ensures r == CreateSnapshotSpec(old(db.State()), user.id, projectId, req).result
  {
    var access := CheckAccess(db.State(), projectId, user.id, true);
    if access.Error? {
      return Error(access.status, access.detail);
    }
    var snap := Snapshot(projectId, SnapshotFiles(FilesOf(db.State(), projectId)), SettingsKey(access.value.project.settings),
                         req.name, req.description, user.id, db.clock);
    var row := db.InsertSnapshot(snap);
    db.Log(projectId, user.id, "version_create", map["version_name" := Str(req.name)]);
    r := Ok(row);
  }

  /** The loop deleting the project's files, one `db.delete` each. */
  method DeleteFiles(db: Db, doomed: seq<int>)
    modifies db
    ensures db.State() == DropFiles(old(db.State()), doomed)
  {
    ghost var t0 := db.State();
    var i := 0;
    while i < |doomed|
      invariant 0 <= i <= |doomed|
      invariant DropFiles(db.State(), doomed[i..]) == DropFiles(t0, doomed)
    {
      assert doomed[i..][1..] == doomed[i + 1..];
      db.DeleteFile(doomed[i]);
      i := i + 1;
    }
  }

  /** The loop recreating the snapshot's files, one `db.add` each. */
  method InsertFiles(db: Db, projectId: int, userId: int, fs: seq<SnapshotFile>)
    modifies db
    ensures db.State() == AddFiles(old(db.State()), projectId, userId, fs)
  {
    ghost var t0 := db.State();
    var j := 0;
    while j < |fs|
      invariant 0 <= j <= |fs|
      invariant db.State() == AddFiles(t0, projectId, userId, fs[..j])
    {
      assert fs[..j + 1][..j] == fs[..j];
      var row := db.InsertFile(ProjectFile(projectId, fs[j].path, fs[j].content, fs[j].fileType, userId));
      j := j + 1;
    }
    assert fs[..j] == fs;
  }

  method RestoreProjectVersion(db: Db, user: Row<User>, projectId: int, snapshotId: int) returns (r: Result<string>)
    modifies db
    ensures db.State() == RestoreSnapshotSpec(old(db.State()), user.id, projectId, snapshotId).db
    ensures r == RestoreSnapshotSpec(old(db.State()), user.id, projectId, snapshotId).result
  {
    var access := CheckAccess(db.State(), projectId, user.id, true);
    if access.Error? {
      return Error(access.status, access.detail);
    }
    var found := FindSnapshot(db.State(), projectId, snapshotId);
    if found.None? {
      return Error(NOT_FOUND, "Version not found");
    }
    var snap := found.value;
    DeleteFiles(db, Keys(FilesOf(db.State(), projectId)));
    InsertFiles(db, projectId, user.id, snap.files);
    SaveSettings(db, projectId, access.value.project, snap.settings);
    db.Log(projectId, user.id, "version_restore", map["version_name" := Str(snap.name), "version_id" := Num(snapshotId)]);
    r := Ok("Project restored successfully");
  }

  /** Writing the snapshot's settings back onto the project row, when the snapshot has them. */
  method SaveSettings(db: Db, projectId: int, p: Project, entry: SettingsEntry)
    modifies db
    ensures db.State() == RestoreSettings(old(db.State()), projectId, p, entry)
  {
    if entry.SettingsKey? {
      db.projects := SetVal(db.projects, projectId, p.(settings := entry.settings));
    }
  }
}
