/** The server's mutable world in one object: the remote store's folders and
    files, the staging directory, and the two upload tables. The handlers
    change it step by step, as the server does, and each is proved to end in
    the state and outcome its pure step in `Ingest` describes. */
module Server {
  import opened Common
  import opened Paths
  import opened Drive
  import opened Ingest

  /** Shifts a walk result that started `i` segments into the path. */
  function Offset(r: Resolution, i: nat): Resolution
  {
    match r
    case Resolved(id) => Resolved(id)
    case Missing(k) => Missing(k + i)
  }

  /** One turn of the walk: segment `i` is looked up under `current`, and the
      walk either stops there or goes on from the folder found. */
  lemma WalkTurn(folders: seq<FolderNode>, segs: seq<string>, i: nat, current: string)
    requires i < |segs|
    ensures var r := FindFolder(folders, segs[i], current);
      if Truthy(r) then
        Resolve(folders, segs[i..], current) == Offset(Resolve(folders, segs[i + 1..], r.value), 1) &&
        Queries(folders, segs[i..], current) == [Lookup(segs[i], current)] + Queries(folders, segs[i + 1..], r.value)
      else
        Resolve(folders, segs[i..], current) == Missing(0) &&
        Queries(folders, segs[i..], current) == [Lookup(segs[i], current)]
  {
    assert segs[i..][1..] == segs[i + 1..];
  }

  class Backend {
    var folders: seq<FolderNode>
    var files: seq<DriveFile>
    var staged: set<string>
    var papers: seq<PaperRow>
    var userUploads: seq<UserUploadRow>
    /** Every folder listing sent to the remote store, oldest first. */
    ghost var lookups: seq<Lookup>

    function State(): Store
      reads this
    {
      Store(folders, files, staged, papers, userUploads)
    }

    ghost predicate Valid()
      reads this
    {
      TitlesUnique(papers)
    }

    constructor (s: Store)
      requires TitlesUnique(s.papers)
      ensures Valid() && State() == s && lookups == []
    {
      folders, files, staged, papers, userUploads := s.folders, s.files, s.staged, s.papers, s.userUploads;
      lookups := [];
    }

    /** `findFolder(name, parent)`: one listing request, answered with the
        first folder whose name and parent match. */
    method ListFolder(name: string, parent: string) returns (folderId: Option<string>)
      modifies this`lookups
      ensures folderId == FindFolder(folders, name, parent)
      ensures lookups == old(lookups) + [Lookup(name, parent)]
    {
      lookups := lookups + [Lookup(name, parent)];
      var k := 0;
      while k < |folders| && !Matches(folders[k], name, parent)
        invariant 0 <= k <= |folders|
        invariant FirstMatch(folders, name, parent, k) == FirstMatch(folders, name, parent, 0)
      {
        k := k + 1;
      }
      folderId := if k < |folders| then Some(folders[k].id) else None;
    }

    /** `deleteTempFiles()`: unlink every entry of the staging directory. */
    method DeleteTempFiles()
      modifies this`staged
      ensures staged == {}
    {
      var listing := staged;
      while listing != {}
        invariant staged == listing
        decreases listing
      {
        var name :| name in listing;
        staged := staged - {name};
        listing := listing - {name};
      }
    }

    /** `findNestedFolder(path)`: walk the segments of `path` from the root,
        each under the folder found for the one before; on the first miss,
        empty the staging directory and answer null. */
    method FindNestedFolder(path: string) returns (folderId: Option<string>)
      modifies this`staged, this`lookups
      ensures (State(), folderId) == FindNested(old(State()), path)
      ensures lookups == old(lookups) + Queries(folders, Split(path), Root)
    {
      ghost var fs := folders;
      ghost var before := State();
      var folderNames := Split(path);
      var current := Root;
      var i := 0;
      ghost var trace: seq<Lookup> := [];
      while i < |folderNames|
        invariant 0 <= i <= |folderNames|
        invariant folders == fs && staged == old(staged)
        invariant lookups == old(lookups) + trace
        invariant Resolve(fs, folderNames, Root) == Offset(Resolve(fs, folderNames[i..], current), i)
        invariant Queries(fs, folderNames, Root) == trace + Queries(fs, folderNames[i..], current)
      {
        WalkTurn(fs, folderNames, i, current);
        var found := ListFolder(folderNames[i], current);
        ghost var turn := [Lookup(folderNames[i], current)];
        if !Truthy(found) {
          assert Resolve(fs, folderNames, Root) == Missing(i);
          ConcatAssoc(old(lookups), trace, turn);
          DeleteTempFiles();
          assert State() == before.(staged := {});
          return None;
        }
        ghost var rest := Resolve(fs, folderNames[i + 1..], found.value);
        assert Offset(Offset(rest, 1), i) == Offset(rest, i + 1);
        ConcatAssoc(trace, turn, Queries(fs, folderNames[i + 1..], found.value));
        ConcatAssoc(old(lookups), trace, turn);
        trace := trace + turn;
        current := found.value;
        i := i + 1;
      }
      assert folderNames[i..] == [];
      assert State() == before;
      return Some(current);
    }

    /** `createDriveFolder(name)`: a folder created directly under the root;
        `reply` is the id the store assigns, or None when the call throws. */
    method CreateDriveFolder(name: string, reply: Option<string>) returns (folderId: Option<string>)
      modifies this`folders
      ensures folderId == reply
      ensures folders == if reply.Some? then old(folders) + [FolderNode(reply.value, name, Root)] else old(folders)
    {
      folderId := reply;
      if reply.Some? {
        folders := folders + [FolderNode(reply.value, name, Root)];
      }
    }

    /** `uploadFileToDrive(filename, folderId)`: the staged file becomes one
        object in the folder; `reply` is its id, or None when the call throws. */
    method UploadFileToDrive(filename: string, folderId: string, reply: Option<string>) returns (fileId: Option<string>)
      modifies this`files
      ensures fileId == reply
      ensures files == if reply.Some? then old(files) + [DriveFile(reply.value, filename, folderId)] else old(files)
    {
      fileId := reply;
      if reply.Some? {
        files := files + [DriveFile(reply.value, filename, folderId)];
      }
    }

    /** POST /api/Profile/upload. */
    method UserUpload(req: UserUploadRequest, env: UserUploadEnv) returns (outcome: UserOutcome)
      requires Valid()
      modifies this
      ensures Valid()
      ensures Step(State(), outcome) == UserUploadStep(old(State()), req, env)
      ensures lookups == if req.file.Some? then old(lookups) + [Lookup(UserFolderName, Root)] else old(lookups)
    {
      if req.file.None? {
        return UserNoFile;
      }
      var file := req.file.value;
      var folderId := ListFolder(UserFolderName, Root);
      if !Truthy(folderId) {
        folderId := CreateDriveFolder(UserFolderName, env.createdFolderId);
        if folderId.None? {
          return UserFailed;
        }
      }
      var fileId := UploadFileToDrive(file, folderId.value, env.uploadedFileId);
      if fileId.None? {
        return UserFailed;
      }
      if fileId.value != "" {
        if !env.insertOk {
          return UserFailed;
        }
        userUploads := userUploads + [UserUploadRow(req.userid, req.renameFileback, ViewUrl(fileId.value))];
      }
      if file !in staged {
        return UserFailed;
      }
      staged := staged - {file};
      return UserUploaded(fileId.value);
    }

    /** POST /api/Admin/upload. */
    method AdminUpload(req: AdminUploadRequest, env: AdminUploadEnv) returns (outcome: AdminOutcome)
      requires Valid()
      modifies this
      ensures Valid()
      ensures Step(State(), outcome) == AdminUploadStep(old(State()), req, env)
      ensures lookups ==
        if req.file.Some? then old(lookups) + Queries(folders, Split(AdminFolderPath(req.attrs)), Root)
        else old(lookups)
    {
      AdminKeepsTitlesUnique(State(), req, env);
      if req.file.None? {
        return AdminNoFile;
      }
      var file := req.file.value;
      var path := AdminFolderPath(req.attrs);
      var folderId := FindNestedFolder(path);
      if folderId.None? {
        return FolderMissing(path);
      }
      var fileId := UploadFileToDrive(file, folderId.value, env.uploadedFileId);
      if fileId.None? {
        return AdminFailed;
      }
      if fileId.value == "" {
        return UploadNoId;
      }
      if HasTitle(papers, req.renameFileback) {
        return DuplicateTitle(req.renameFileback);
      }
      if !env.insertOk {
        return AdminFailed;
      }
      papers := papers + [PaperRowFor(req.attrs, req.renameFileback, fileId.value)];
      staged := staged - {file};
      return AdminUploaded(fileId.value);
    }
  }
}
