/** The two upload handlers as pure steps over one abstract state: the folder
    listing and file objects of the remote store, the staging directory, and
    the `papers` and `user_uploads` tables. What the external services answer
    (the id a created folder or file gets, whether a call threw, whether the
    insert succeeded) is an input of each step. */
module Ingest {
  import opened Common
  import opened Paths
  import opened Drive

  datatype PaperRow = PaperRow(
    departmentName: string, educationLevel: string, years: string, departmentYear: string,
    sem: int, midSem: int, title: string, url: string, semester: string)

  datatype UserUploadRow = UserUploadRow(userId: string, paperName: string, paperLink: string)

  datatype Store = Store(
    folders: seq<FolderNode>,
    files: seq<DriveFile>,
    staged: set<string>,
    papers: seq<PaperRow>,
    userUploads: seq<UserUploadRow>)

  /** A store and the outcome a handler reports after running on it. */
  datatype Step<O> = Step(store: Store, outcome: O)

  /** Folder every end-user upload goes to, directly under the root. */
  const UserFolderName := "User Uploads Files"

  /** First segment of every admin destination path. */
  const PapersRoot := "MPC Papers Pdf"

  /** Departments whose papers sit directly under the papers root. */
  const FlatDepartments: seq<string> := ["Elective", "Compulsory", "E&V"]

  predicate HasTitle(papers: seq<PaperRow>, title: string)
  {
    exists i :: 0 <= i < |papers| && papers[i].title == title
  }

  /** The remote store never hands out an empty id. */
  ghost predicate UsableIds(folders: seq<FolderNode>)
  {
    forall i :: 0 <= i < |folders| ==> folders[i].id != ""
  }

  /** The catalog-wide uniqueness the pre-insert title check protects. */
  ghost predicate TitlesUnique(papers: seq<PaperRow>)
  {
    forall i, j :: 0 <= i < j < |papers| ==> papers[i].title != papers[j].title
  }

  // ---------------------------------------------------------------------
  // Classification of an admin upload

  /** The classification fields of an admin upload, as the request names them. */
  datatype PaperAttrs = PaperAttrs(
    departmentName: string, educationLavel: string, session: string,
    dptyear: string, semormid: string, studentyear: string)

  /** The `(sem, midsem)` column values: exactly one of them is 1 when the
      term is "sem" or "midSem", both are 0 otherwise. */
  function TermFlags(semormid: string): (flags: (int, int))
    ensures flags.0 == 1 <==> semormid == "sem"
    ensures flags.1 == 1 <==> semormid == "midSem"
    ensures flags.0 in {0, 1} && flags.1 in {0, 1}
    ensures !(flags.0 == 1 && flags.1 == 1)
  {
    if semormid == "sem" then (1, 0)
    else if semormid == "midSem" then (0, 1)
    else (0, 0)
  }

  /** The destination segments, before they are joined into a path string. */
  function AdminSegments(a: PaperAttrs): (segs: seq<string>)
    ensures |segs| >= 2 && segs[0] == PapersRoot && segs[|segs| - 1] == a.departmentName
  {
    if a.departmentName in FlatDepartments then [PapersRoot, a.departmentName]
    else [PapersRoot, a.educationLavel, a.semormid, a.studentyear, a.dptyear, a.departmentName]
  }

  /** The destination path string handed to the nested lookup. */
  function AdminFolderPath(a: PaperAttrs): string
  {
    Join(AdminSegments(a))
  }

  /** The segments the nested lookup walks for an admin upload: for the three
      flat departments exactly the papers root and the department; for every
      other department the root, level, term, student year, department year
      and department, in that order. This holds whenever none of those
      attributes contains a `/`. */
  lemma AdminPathWalked(a: PaperAttrs)
    requires '/' !in a.departmentName
    requires a.departmentName !in FlatDepartments ==>
      '/' !in a.educationLavel && '/' !in a.semormid && '/' !in a.studentyear && '/' !in a.dptyear
    ensures a.departmentName in FlatDepartments ==>
      Split(AdminFolderPath(a)) == [PapersRoot, a.departmentName]
    ensures a.departmentName !in FlatDepartments ==>
      Split(AdminFolderPath(a)) ==
        [PapersRoot, a.educationLavel, a.semormid, a.studentyear, a.dptyear, a.departmentName]
  {
    var segs := AdminSegments(a);
    assert '/' !in PapersRoot;
    assert SlashFree(segs);
    SplitJoin(segs);
  }

  // ---------------------------------------------------------------------
  // findNestedFolder and deleteTempFiles

  /** `findNestedFolder(path)`: the id the walk from the root ends at; on the
      first missing segment the whole staging directory is emptied and the
      answer is null. */
  function FindNested(s: Store, path: string): (r: (Store, Option<string>))
    ensures r.1.Some? ==> r.0 == s
    ensures r.1.None? ==> r.0 == s.(staged := {})
  {
    match Resolve(s.folders, Split(path), Root)
    case Resolved(id) => (s, Some(id))
    case Missing(_) => (s.(staged := {}), None)
  }

  /** A found destination is always a usable id. */
  lemma FindNestedFound(s: Store, path: string)
    ensures FindNested(s, path).1.Some? ==> FindNested(s, path).1.value != ""
  {
    ResolveShape(s.folders, Split(path), Root);
  }

  // ---------------------------------------------------------------------
  // POST /api/Profile/upload

  datatype UserUploadRequest = UserUploadRequest(file: Option<string>, renameFileback: string, userid: string)

  /** Answers of the collaborators: the id a newly created folder gets (None:
      the creation threw), the id of the uploaded file (None: the upload
      threw), and whether the insert succeeded. */
  datatype UserUploadEnv = UserUploadEnv(createdFolderId: Option<string>, uploadedFileId: Option<string>, insertOk: bool)

  datatype UserOutcome = UserNoFile | UserFailed | UserUploaded(fileId: string)
  {
    function Status(): int
    {
      match this
      case UserNoFile => 400
      case UserFailed => 500
      case UserUploaded(_) => 200
    }
  }

  /** The upload folder id the handler uses: the one found under the root, or
      the one created for it. */
  function UserFolderId(s: Store, env: UserUploadEnv): Option<string>
  {
    var found := FindFolder(s.folders, UserFolderName, Root);
    if Truthy(found) then found
    else env.createdFolderId
  }

  function UserUploadStep(s: Store, req: UserUploadRequest, env: UserUploadEnv): (r: Step<UserOutcome>)
    ensures r.store.papers == s.papers
    ensures r.outcome.UserNoFile? <==> req.file.None?
    ensures req.file.None? ==> r.store == s
  {
    if req.file.None? then Step(s, UserNoFile)
    else
      var file := req.file.value;
      var found := FindFolder(s.folders, UserFolderName, Root);
      if !Truthy(found) && env.createdFolderId.None? then Step(s, UserFailed)
      else
        var folderId := UserFolderId(s, env).value;
        var s1 := if Truthy(found) then s
                  else s.(folders := s.folders + [FolderNode(folderId, UserFolderName, Root)]);
        if env.uploadedFileId.None? then Step(s1, UserFailed)
        else
          var fileId := env.uploadedFileId.value;
          var s2 := s1.(files := s1.files + [DriveFile(fileId, file, folderId)]);
          if fileId != "" && !env.insertOk then Step(s2, UserFailed)
          else
            var s3 := if fileId != "" then
                        s2.(userUploads := s2.userUploads + [UserUploadRow(req.userid, req.renameFileback, ViewUrl(fileId))])
                      else s2;
            if file !in s3.staged then Step(s3, UserFailed)
            else Step(s3.(staged := s3.staged - {file}), UserUploaded(fileId))
  }

  /** The upload folder is created only when the lookup under the root finds
      nothing usable, and then exactly one node is added; otherwise the
      folder listing is left alone. */
  lemma UserUploadCreatesFolderOnlyWhenMissing(s: Store, req: UserUploadRequest, env: UserUploadEnv)
    ensures var r := UserUploadStep(s, req, env);
      r.store.folders != s.folders ==>
        req.file.Some? && !Truthy(FindFolder(s.folders, UserFolderName, Root)) &&
        env.createdFolderId.Some? &&
        r.store.folders == s.folders + [FolderNode(env.createdFolderId.value, UserFolderName, Root)]
  {
  }

  /** After an upload that got past folder resolution, the lookup under the
      root answers with the folder id that upload used, so a second upload
      reuses it instead of creating another folder. */
  lemma {:induction false} UserUploadReusesFolder(s: Store, req: UserUploadRequest, env: UserUploadEnv)
    requires UsableIds(s.folders)
    requires req.file.Some?
    requires Truthy(UserFolderId(s, env))
    ensures var r := UserUploadStep(s, req, env);
      FindFolder(r.store.folders, UserFolderName, Root) == UserFolderId(s, env)
  {
    var found := FindFolder(s.folders, UserFolderName, Root);
    if !Truthy(found) {
      var n := FolderNode(env.createdFolderId.value, UserFolderName, Root);
      FindFolderAppend(s.folders, n, UserFolderName, Root);
    }
  }

  /** Two uploads in a row create the user folder at most once. */
  lemma {:induction false} SecondUserUploadCreatesNothing(s: Store, req1: UserUploadRequest, env1: UserUploadEnv,
                                                           req2: UserUploadRequest, env2: UserUploadEnv)
    requires UsableIds(s.folders)
    requires req1.file.Some? && Truthy(UserFolderId(s, env1))
    ensures var s1 := UserUploadStep(s, req1, env1).store;
      UserUploadStep(s1, req2, env2).store.folders == s1.folders &&
      (req2.file.Some? ==> UserFolderId(s1, env2) == UserFolderId(s, env1))
  {
    UserUploadReusesFolder(s, req1, env1);
  }

  /** A successful upload with a usable file id inserts exactly one row
      `(userid, renameFileback, view link)` and unlinks the staged file; the
      file becomes one object in the upload folder. */
  lemma UserUploadSuccess(s: Store, req: UserUploadRequest, env: UserUploadEnv)
    ensures var r := UserUploadStep(s, req, env);
      r.outcome.UserUploaded? && r.outcome.fileId != "" ==>
        r.store.userUploads ==
          s.userUploads + [UserUploadRow(req.userid, req.renameFileback, ViewUrl(r.outcome.fileId))] &&
        req.file.value in s.staged &&
        r.store.staged == s.staged - {req.file.value} &&
        r.store.files == s.files + [DriveFile(r.outcome.fileId, req.file.value, UserFolderId(s, env).value)]
  {
  }

  /** The staged file is unlinked only after the insert succeeded (or when the
      upload gave no usable id, so that no insert is attempted); every failure
      leaves the staging directory as it was. */
  lemma UserUploadUnlinksLast(s: Store, req: UserUploadRequest, env: UserUploadEnv)
    ensures var r := UserUploadStep(s, req, env);
      (r.store.staged != s.staged ==>
        r.outcome.UserUploaded? && (r.outcome.fileId != "" ==> env.insertOk) &&
        r.store.staged == s.staged - {req.file.value}) &&
      (!r.outcome.UserUploaded? ==> r.store.staged == s.staged)
  {
  }

  /** A failed insert adds no row, yet the uploaded object stays in the store. */
  lemma UserUploadInsertFailure(s: Store, req: UserUploadRequest, env: UserUploadEnv)
    requires req.file.Some? && Truthy(UserFolderId(s, env))
    requires env.uploadedFileId.Some? && env.uploadedFileId.value != "" && !env.insertOk
    ensures var r := UserUploadStep(s, req, env);
      r.outcome == UserFailed && r.store.userUploads == s.userUploads &&
      r.store.files == s.files + [DriveFile(env.uploadedFileId.value, req.file.value, UserFolderId(s, env).value)]
  {
  }

  /** The HTTP status each user upload ends with: 400 for no file, 200 when
      a folder was at hand, the upload answered, the insert (if attempted)
      succeeded and the staged file was there to unlink, 500 otherwise. */
  lemma UserStatus(s: Store, req: UserUploadRequest, env: UserUploadEnv)
    ensures var o := UserUploadStep(s, req, env).outcome;
      var id := env.uploadedFileId;
      (o.Status() == 400 <==> req.file.None?) &&
      (o.Status() == 200 <==>
        req.file.Some? && UserFolderId(s, env).Some? && id.Some? && (id.value != "" ==> env.insertOk) &&
        req.file.value in s.staged) &&
      (o.Status() == 500 <==> req.file.Some? && !(o.Status() == 200))
  {
  }

  // ---------------------------------------------------------------------
  // POST /api/Admin/upload

  datatype AdminUploadRequest = AdminUploadRequest(file: Option<string>, renameFileback: string, attrs: PaperAttrs)

  /** Answers of the collaborators: the id of the uploaded file (None: the
      upload threw) and whether the insert succeeded. */
  datatype AdminUploadEnv = AdminUploadEnv(uploadedFileId: Option<string>, insertOk: bool)

  datatype AdminOutcome =
    | AdminNoFile
    | FolderMissing(path: string)
    | UploadNoId
    | DuplicateTitle(title: string)
    | AdminFailed
    | AdminUploaded(fileId: string)
  {
    function Status(): int
    {
      match this
      case AdminNoFile => 400
      case FolderMissing(_) => 401
      case UploadNoId => 300
      case DuplicateTitle(_) => 400
      case AdminFailed => 500
      case AdminUploaded(_) => 200
    }
  }

  /** The `papers` row of a successful admin upload. */
  function PaperRowFor(a: PaperAttrs, title: string, fileId: string): (row: PaperRow)
    ensures row.years == a.session && row.departmentYear == a.studentyear && row.semester == a.dptyear
    ensures (row.sem, row.midSem) == TermFlags(a.semormid)
    ensures row.title == title && row.url == ViewUrl(fileId)
    ensures row.departmentName == a.departmentName && row.educationLevel == a.educationLavel
  {
    var flags := TermFlags(a.semormid);
    PaperRow(a.departmentName, a.educationLavel, a.session, a.studentyear,
             flags.0, flags.1, title, ViewUrl(fileId), a.dptyear)
  }

  function AdminUploadStep(s: Store, req: AdminUploadRequest, env: AdminUploadEnv): (r: Step<AdminOutcome>)
    ensures r.store.folders == s.folders && r.store.userUploads == s.userUploads
    ensures r.outcome.AdminNoFile? <==> req.file.None?
    ensures req.file.None? ==> r.store == s
  {
    if req.file.None? then Step(s, AdminNoFile)
    else
      var file := req.file.value;
      var path := AdminFolderPath(req.attrs);
      var (s1, folder) := FindNested(s, path);
      if folder.None? then Step(s1, FolderMissing(path))
      else if env.uploadedFileId.None? then Step(s1, AdminFailed)
      else
        var fileId := env.uploadedFileId.value;
        var s2 := s1.(files := s1.files + [DriveFile(fileId, file, folder.value)]);
        if fileId == "" then Step(s2, UploadNoId)
        else if HasTitle(s2.papers, req.renameFileback) then Step(s2, DuplicateTitle(req.renameFileback))
        else if !env.insertOk then Step(s2, AdminFailed)
        else
          var s3 := s2.(papers := s2.papers + [PaperRowFor(req.attrs, req.renameFileback, fileId)]);
          Step(s3.(staged := s3.staged - {file}), AdminUploaded(fileId))
  }

  /** A missing destination folder aborts before anything is uploaded or
      inserted, and leaves the staging directory empty. */
  lemma AdminMissingFolder(s: Store, req: AdminUploadRequest, env: AdminUploadEnv)
    requires req.file.Some?
    requires Resolve(s.folders, Split(AdminFolderPath(req.attrs)), Root).Missing?
    ensures AdminUploadStep(s, req, env) ==
      Step(s.(staged := {}), FolderMissing(AdminFolderPath(req.attrs)))
    ensures AdminUploadStep(s, req, env).outcome.Status() == 401
  {
  }

  /** A `papers` row is inserted only after the upload returned a usable id
      and no row already had the title; the row is then the one built from
      the request, appended once. */
  lemma AdminInsertOrdering(s: Store, req: AdminUploadRequest, env: AdminUploadEnv)
    ensures var r := AdminUploadStep(s, req, env);
      r.store.papers != s.papers ==>
        req.file.Some? &&
        FindNested(s, AdminFolderPath(req.attrs)).1.Some? &&
        env.uploadedFileId.Some? && env.uploadedFileId.value != "" &&
        !HasTitle(s.papers, req.renameFileback) && env.insertOk &&
        r.outcome == AdminUploaded(env.uploadedFileId.value) &&
        r.store.papers == s.papers + [PaperRowFor(req.attrs, req.renameFileback, env.uploadedFileId.value)]
  {
  }

  /** On a title collision no row is inserted, while the object just uploaded
      stays in the store and the staged file is not unlinked. */
  lemma AdminDuplicateTitle(s: Store, req: AdminUploadRequest, env: AdminUploadEnv)
    requires req.file.Some?
    requires FindNested(s, AdminFolderPath(req.attrs)).1.Some?
    requires env.uploadedFileId.Some? && env.uploadedFileId.value != ""
    requires HasTitle(s.papers, req.renameFileback)
    ensures var r := AdminUploadStep(s, req, env);
      var folderId := FindNested(s, AdminFolderPath(req.attrs)).1.value;
      r.outcome == DuplicateTitle(req.renameFileback) &&
      r.store == s.(files := s.files + [DriveFile(env.uploadedFileId.value, req.file.value, folderId)])
  {
  }

  /** A successful admin upload stores the file in the resolved folder,
      appends its row and unlinks the staged file; nothing else changes. */
  lemma AdminSuccess(s: Store, req: AdminUploadRequest, env: AdminUploadEnv)
    ensures var r := AdminUploadStep(s, req, env);
      r.outcome.AdminUploaded? ==>
        var folderId := FindNested(s, AdminFolderPath(req.attrs)).1.value;
        r.store == s.(files := s.files + [DriveFile(r.outcome.fileId, req.file.value, folderId)],
                      papers := s.papers + [PaperRowFor(req.attrs, req.renameFileback, r.outcome.fileId)],
                      staged := s.staged - {req.file.value})
  {
  }

  /** The HTTP status each admin upload ends with: 400 for no file or a
      taken title, 401 for a missing folder, 300 for an upload without an
      id, 500 when the upload or the insert threw, 200 otherwise. */
  lemma AdminStatus(s: Store, req: AdminUploadRequest, env: AdminUploadEnv)
    ensures var o := AdminUploadStep(s, req, env).outcome;
      var found := req.file.Some? && FindNested(s, AdminFolderPath(req.attrs)).1.Some?;
      var id := env.uploadedFileId;
      (o.Status() == 401 <==> req.file.Some? && !found) &&
      (o.Status() == 300 <==> found && id == Some("")) &&
      (o.Status() == 400 <==>
        req.file.None? || (found && Truthy(id) && HasTitle(s.papers, req.renameFileback))) &&
      (o.Status() == 500 <==>
        found && (id.None? || (Truthy(id) && !HasTitle(s.papers, req.renameFileback) && !env.insertOk))) &&
      (o.Status() == 200 <==>
        found && Truthy(id) && !HasTitle(s.papers, req.renameFileback) && env.insertOk)
  {
  }

  /** The pre-insert title check keeps catalog titles unique. */
  lemma {:induction false} AdminKeepsTitlesUnique(s: Store, req: AdminUploadRequest, env: AdminUploadEnv)
    requires TitlesUnique(s.papers)
    ensures TitlesUnique(AdminUploadStep(s, req, env).store.papers)
  {
    var r := AdminUploadStep(s, req, env);
    if r.store.papers != s.papers {
      AdminInsertOrdering(s, req, env);
      var p := r.store.papers;
      forall i, j | 0 <= i < j < |p| ensures p[i].title != p[j].title {
        if j == |s.papers| {
          assert p[j].title == req.renameFileback;
          assert p[i] == s.papers[i];
        } else {
          assert p[i] == s.papers[i] && p[j] == s.papers[j];
        }
      }
    }
  }
}
