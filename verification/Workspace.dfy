/**
 The file operations of one session workspace: `write_file`, `edit_file`, uploads, and the
 operations that only look. They run one after another under the session's lock, with no
 command running beside them. Before an operation takes that lock it may look for expired
 workspaces, and so may operations of other sessions in between: any of them removes this
 workspace when it has not been used for long enough.

 What the file system and the session do is input: every call that can fail says whether
 it does. What fails because of what is in the workspace follows from its directory tree.
 */
module Workspace {
  import opened Options
  import opened Paths
  import opened Replacement
  import opened WorkspaceFiles

  /** The file that `lockSession` creates or empties each time it prepares a workspace. */
  const MARKER := ".veadk-last-used"

  /** The directories that it makes. */
  const SUBDIRECTORIES: seq<Location> := [["skills"], ["uploads"], ["outputs"], ["tmp"]]

  datatype Config = Config(maxFile: nat, maxWorkspace: nat, skills: set<Name>)

  datatype Error =
    | FileTooLarge | WorkspaceError | InvalidPath | QuotaExceeded | InvalidFileType | WriteError
    | FileNotFound | ReadError | BinaryFile | InvalidReplacement | TextNotFound | TextNotUnique

  datatype Outcome = Written(path: string, data: string) | Looked | Scanned | Failed(error: Error)

  datatype Io = Io(
    running: bool,     // the runtime is open
    expiry: Expiry,    // what a scan for expired workspaces does to this one, if it is due
    swept: bool,       // whether that scan goes through as far as other workspaces are concerned
    session: bool,     // the session is not closing and its workspace can be opened
    made: Limit,       // how many of its directories can be made
    linked: bool,      // its skills can be linked
    touched: bool,     // the marker file can be opened for writing
    released: bool,    // and closed again
    read: bool,
    utf8: bool,        // the file that is edited is valid UTF-8
    parents: Limit,    // how many directories on the way to the target can be made
    inspected: bool,   // the target can be looked at
    sized: bool,       // the workspace can be measured
    temp: Name,        // the random name of the temporary file
    partial: string,   // what has been written to it when writing fails
    stored: bool)      // it can be written and renamed

  datatype Op =
    | WriteFile(requested: string, content: string, io: Io)
    | EditFile(requested: string, oldText: string, newText: string, all: bool, io: Io)
    | WriteUpload(name: string, data: string, io: Io)
    | Look(io: Io)
    | OtherScans(io: Io)   // an operation of another session, as far as it concerns this workspace

  /******* What an operation does *******/

  predicate MarkerUsable(files: Files) {
    [MARKER] in files ==> files[[MARKER]].Regular?
  }

  /** Whether the scan for expired workspaces goes through, and the files afterwards. */
  function Swept(files: Files, io: Io): (bool, Files) {
    var left := Left(files, io.expiry);
    (io.swept && (io.expiry.Expired? ==> left == map[]), left)
  }

  /** Whether the session can be locked up to opening the marker file, and the files by then. */
  function Prepared(files: Files, io: Io): (bool, Files) {
    if !io.running then (false, files)
    else
      var (swept, left) := Swept(files, io);
      if !swept || !io.session then (false, left)
      else
        var (ok, made) := MakeAll(left, SUBDIRECTORIES, io.made);
        (ok && io.linked && MarkerUsable(made) && io.touched, made)
  }

  /** Whether the session could be locked, and the files afterwards. */
  function Locked(files: Files, io: Io): (bool, Files) {
    var (ready, made) := Prepared(files, io);
    if !ready then (false, made) else (io.released, made[[MARKER] := Regular("")])
  }

  ghost predicate Fits(c: Config, files: Files, at: Location, size: nat) {
    Size(files) - SizeAt(files, at) + size <= c.maxWorkspace
  }

  /** Why `atomicWrite` fails once the way to the target is there, if it does. */
  ghost function Refusal(c: Config, files: Files, at: Location, size: nat, io: Io): Option<Error>
    requires at != []
  {
    if !io.inspected then Some(WriteError)
    else if at in files && !files[at].Regular? then Some(InvalidFileType)
    else if !io.sized then Some(WriteError)
    else if !Fits(c, files, at, size) then Some(QuotaExceeded)
    else if Parent(at) + [io.temp] in files || !io.stored then Some(WriteError)
    else None
  }

  ghost function Store(c: Config, files: Files, path: string, data: string, io: Io): (Files, Outcome) {
    var at := Split(path, '/');
    var (ok, made) := MakeAll(files, Ancestors(at), io.parents);
    var refusal := if ok then Refusal(c, made, at, |data|, io) else Some(WriteError);
    if refusal.Some? then (made, Failed(refusal.value)) else (made[at := Regular(data)], Written(path, data))
  }

  /** What the edit tool makes of a file. */
  function Edited(c: Config, content: string, op: Op): Outcome
    requires op.EditFile? && op.oldText != ""
  {
    var count := Count(content, op.oldText);
    if !op.io.utf8 || '\0' in content then Failed(BinaryFile)
    else if count == 0 then Failed(TextNotFound)
    else if count > 1 && !op.all then Failed(TextNotUnique)
    else
      var updated := Replace(content, op.oldText, op.newText, if op.all then count else 1);
      if |updated| > c.maxFile then Failed(FileTooLarge) else Written("", updated)
  }

  /** Reading the file at a place and editing it; the outcome still lacks the path. */
  function ReadAndEdited(c: Config, files: Files, at: Location, op: Op): Outcome
    requires op.EditFile? && op.oldText != ""
  {
    if Blocked(files, at) then Failed(ReadError)
    else if at !in files then Failed(FileNotFound)
    else if !files[at].Regular? then Failed(InvalidFileType)
    else if |files[at].data| > c.maxFile then Failed(FileTooLarge)
    else if !op.io.read then Failed(ReadError)
    else Edited(c, files[at].data, op)
  }

  ghost function Perform(c: Config, files: Files, op: Op): (Files, Outcome) {
    var (locked, files') := Locked(files, op.io);
    match op
    case WriteFile(requested, content, io) =>
      if |content| > c.maxFile then (files, Failed(FileTooLarge))
      else if !locked then (files', Failed(WorkspaceError))
      else
        var target := ResolveToolPath(requested, true, c.skills);
        if !target.InWorkspace? then (files', Failed(InvalidPath))
        else Store(c, files', target.path, content, io)
    case EditFile(requested, oldText, newText, all, io) =>
      if oldText == newText || oldText == "" then (files, Failed(InvalidReplacement))
      else if !locked then (files', Failed(WorkspaceError))
      else
        var target := ResolveToolPath(requested, true, c.skills);
        if !target.InWorkspace? then (files', Failed(InvalidPath))
        else
          var edited := ReadAndEdited(c, files', Split(target.path, '/'), op);
          if edited.Written? then Store(c, files', target.path, edited.data, io) else (files', edited)
    case WriteUpload(name, data, io) =>
      var target := ScopedPath("uploads", name);
      if target.None? then (files, Failed(InvalidPath))
      else if !io.read then (files, Failed(ReadError))
      else if |data| > c.maxFile then (files, Failed(FileTooLarge))
      else if !locked then (files', Failed(WorkspaceError))
      else Store(c, files', target.value, data, io)
    case Look(_) => if locked then (files', Looked) else (files', Failed(WorkspaceError))
    case OtherScans(io) => (if io.running then Left(files, io.expiry) else files, Scanned)
  }

  /******* The operations on a workspace in place *******/

  class LocalWorkspace {
    const config: Config
    var files: Files

    constructor (config: Config, files: Files)
      ensures this.config == config && this.files == files
    {
      this.config, this.files := config, files;
    }

    /** `MkdirAll`, for a list of directories. */
    method MakeDirectories(dirs: seq<Location>, limit: Limit) returns (ok: bool)
      modifies this
      ensures (ok, files) == MakeAll(old(files), dirs, limit)
    {
      var left := limit;
      for i := 0 to |dirs|
        invariant MakeAll(files, dirs[i..], left) == MakeAll(old(files), dirs, limit)
      {
        assert dirs[i..][1..] == dirs[i + 1..];
        if left == Some(0) || (dirs[i] in files && !files[dirs[i]].Directory?) {
          return false;
        }
        files := files[dirs[i] := Directory];
        left := Spent(left);
      }
      ok := true;
    }

    /** `maybeCleanupExpired`, as far as this workspace is concerned. */
    method Sweep(io: Io) returns (ok: bool)
      modifies this
      ensures (ok, files) == Swept(old(files), io)
    {
      files := Left(files, io.expiry);
      ok := io.swept && (io.expiry.Expired? ==> files == map[]);
    }

    /** `lockSession`, as far as files are concerned. */
    method Lock(io: Io) returns (ok: bool)
      modifies this
      ensures (ok, files) == Locked(old(files), io)
    {
      if !io.running {
        return false;
      }
      var swept := Sweep(io);
      if !swept || !io.session {
        return false;
      }
      var made := MakeDirectories(SUBDIRECTORIES, io.made);
      if !made || !io.linked {
        return false;
      }
      if ([MARKER] in files && !files[[MARKER]].Regular?) || !io.touched {
        return false;
      }
      files := files[[MARKER] := Regular("")];
      ok := io.released;
    }

    /** Write a temporary file and rename it over the target; remove it when that fails. */
    method AtomicWrite(path: string, data: string, io: Io) returns (r: Outcome)
      modifies this
      ensures (files, r) == Store(config, old(files), path, data, io)
    {
      var at := Split(path, '/');
      var made := MakeDirectories(Ancestors(at), io.parents);
      if !made {
        return Failed(WriteError);
      }
      r := ReplaceFile(at, path, data, io);
    }

    /** The part of it that follows making the directories on the way. */
    method ReplaceFile(at: Location, path: string, data: string, io: Io) returns (r: Outcome)
      requires at != []
      modifies this
      ensures var refusal := Refusal(config, old(files), at, |data|, io);
              if refusal.Some? then files == old(files) && r == Failed(refusal.value)
              else files == old(files)[at := Regular(data)] && r == Written(path, data)
    {
      if !io.inspected {
        return Failed(WriteError);
      }
      if at in files && !files[at].Regular? {
        return Failed(InvalidFileType);
      }
      if !io.sized {
        return Failed(WriteError);
      }
      var current := Measure(files);
      var oldSize := if at in files then EntrySize(files[at]) else 0;
      if current - oldSize + |data| > config.maxWorkspace {
        return Failed(QuotaExceeded);
      }
      var temp := Parent(at) + [io.temp];
      if temp in files {
        return Failed(WriteError);
      }
      files := files[temp := Regular("")];
      if !io.stored {
        files := files[temp := Regular(io.partial)];
        files := files - {temp};
        assert files == old(files);
        return Failed(WriteError);
      }
      files := files[temp := Regular(data)];
      files := (files - {temp})[at := Regular(data)];
      assert files == old(files)[at := Regular(data)];
      r := Written(path, data);
    }

    method Write(requested: string, content: string, io: Io) returns (r: Outcome)
      modifies this
      ensures (files, r) == Perform(config, old(files), WriteFile(requested, content, io))
    {
      if |content| > config.maxFile {
        return Failed(FileTooLarge);
      }
      var locked := Lock(io);
      if !locked {
        return Failed(WorkspaceError);
      }
      var target := ResolveToolPath(requested, true, config.skills);
      if !target.InWorkspace? {
        return Failed(InvalidPath);
      }
      r := AtomicWrite(target.path, content, io);
    }

    method Edit(requested: string, oldText: string, newText: string, all: bool, io: Io) returns (r: Outcome)
      modifies this
      ensures (files, r) == Perform(config, old(files), EditFile(requested, oldText, newText, all, io))
    {
      if oldText == newText || oldText == "" {
        return Failed(InvalidReplacement);
      }
      var locked := Lock(io);
      if !locked {
        return Failed(WorkspaceError);
      }
      var target := ResolveToolPath(requested, true, config.skills);
      if !target.InWorkspace? {
        return Failed(InvalidPath);
      }
      var at := Split(target.path, '/');
      if Blocked(files, at) {
        return Failed(ReadError);
      }
      if at !in files {
        return Failed(FileNotFound);
      }
      if !files[at].Regular? {
        return Failed(InvalidFileType);
      }
      var content := files[at].data;
      if |content| > config.maxFile {
        return Failed(FileTooLarge);
      }
      if !io.read {
        return Failed(ReadError);
      }
      if !io.utf8 || '\0' in content {
        return Failed(BinaryFile);
      }
      var count := Count(content, oldText);
      if count == 0 {
        return Failed(TextNotFound);
      }
      if count > 1 && !all {
        return Failed(TextNotUnique);
      }
      var updated := Replace(content, oldText, newText, if all then count else 1);
      if |updated| > config.maxFile {
        return Failed(FileTooLarge);
      }
      r := AtomicWrite(target.path, updated, io);
    }

    method Upload(name: string, data: string, io: Io) returns (r: Outcome)
      modifies this
      ensures (files, r) == Perform(config, old(files), WriteUpload(name, data, io))
    {
      var target := ScopedPath("uploads", name);
      if target.None? {
        return Failed(InvalidPath);
      }
      if !io.read {
        return Failed(ReadError);
      }
      if |data| > config.maxFile {
        return Failed(FileTooLarge);
      }
      var locked := Lock(io);
      if !locked {
        return Failed(WorkspaceError);
      }
      r := AtomicWrite(target.value, data, io);
    }
  }

  /******* What becomes of the files *******/

  /** The place that an operation asks to write to, if it may. */
  function Target(op: Op): (at: Option<Location>)
    ensures at.Some? ==> at.value != []
  {
    match op
    case Look(_) => None
    case OtherScans(_) => None
    case WriteUpload(name, _, _) =>
      var place := Place(Normalized(name));
      if place.None? then None else Some(["uploads"] + place.value)
    case _ =>
      var place := Place(Normalized(op.requested));
      if place.None? || place.value[0] == "skills" then None else place
  }

  /** The one path that a request may write to. */
  lemma WriteTarget(requested: string, skills: set<Name>)
    ensures var place := Place(Normalized(requested));
            ResolveToolPath(requested, true, skills)
            == if place.Some? && place.value[0] != "skills" then InWorkspace(Join(place.value, '/')) else Rejected
    ensures ResolveToolPath(requested, true, skills).InWorkspace? ==>
              Split(ResolveToolPath(requested, true, skills).path, '/') == Place(Normalized(requested)).value
  {
    ToolPathExactly(requested, true, skills);
    hide ResolveToolPath, Place, Normalized;
  }

  lemma UploadTarget(name: string)
    ensures var place := Place(Normalized(name));
            ScopedPath("uploads", name)
            == if place.Some? then Some(Join(["uploads"] + place.value, '/')) else None
    ensures ScopedPath("uploads", name).Some? ==>
              Split(ScopedPath("uploads", name).value, '/') == ["uploads"] + Place(Normalized(name)).value
  {
    ScopedPathExactly("uploads", name);
    hide ScopedPath, Place, Normalized, AreNames;
  }

  /** Nothing in the workspace keeps the session from being prepared. */
  predicate Preparable(files: Files) {
    (forall d <- SUBDIRECTORIES :: d in files ==> files[d].Directory?) && MarkerUsable(files)
  }

  /** What is left of the files when the scan, if the operation comes to it, has been at them. */
  function Found(files: Files, io: Io): Files {
    if io.running then Left(files, io.expiry) else files
  }

  /** The scan goes through: it finds nothing of this workspace to remove, or removes it whole. */
  predicate SweepsWell(files: Files, io: Io) {
    io.running && io.swept && (io.expiry.Expired? ==> Left(files, io.expiry) == map[])
  }

  lemma PreparedExactly(files: Files, io: Io)
    ensures Prepared(files, io).0 <==>
            && SweepsWell(files, io) && io.session && (io.made.Some? ==> 4 <= io.made.value) && io.linked && io.touched
            && Preparable(Found(files, io))
    ensures Adds(Found(files, io), Prepared(files, io).1, SUBDIRECTORIES)
    ensures Size(Prepared(files, io).1) == Size(Found(files, io))
    ensures Prepared(files, io).0 ==>
              forall d <- SUBDIRECTORIES :: d in Prepared(files, io).1 && Prepared(files, io).1[d].Directory?
  {
    MakeAllExactly(Left(files, io.expiry), SUBDIRECTORIES, io.made);
    hide MakeAll, Size, Left;
    assert [MARKER] !in SUBDIRECTORIES;
  }

  /** Making directories leaves all files as they are. */
  lemma AddsNoFile(files: Files, files': Files, dirs: seq<Location>, at: Location)
    requires Adds(files, files', dirs)
    ensures FileAt(files', at) == FileAt(files, at)
  {
  }

  /** Of the files that expiry leaves, preparing a session empties the marker, and keeps the others as they are. */
  lemma FilesAfterLock(files: Files, io: Io, at: Location)
    ensures FileAt(Locked(files, io).1, at) ==
            if Prepared(files, io).0 && at == [MARKER] then Some("") else FileAt(Found(files, io), at)
  {
    PreparedExactly(files, io);
    AddsNoFile(Found(files, io), Prepared(files, io).1, SUBDIRECTORIES, at);
    hide Prepared, Found;
  }

  /** A write replaces the content of its target, and does nothing else to files. */
  lemma FilesAfterStore(c: Config, files: Files, path: string, data: string, io: Io, at: Location)
    ensures var (files', r) := Store(c, files, path, data, io);
            && (r.Written? ==> r == Written(path, data))
            && FileAt(files', at) == if r.Written? && at == Split(path, '/') then Some(data) else FileAt(files, at)
  {
    var dirs := Ancestors(Split(path, '/'));
    MakeAllExactly(files, dirs, io.parents);
    AddsNoFile(files, MakeAll(files, dirs, io.parents).1, dirs, at);
    hide MakeAll, Refusal, Ancestors, Split;
  }

  /** The checks that come before the session is locked. */
  predicate PassesEarlyChecks(c: Config, op: Op) {
    match op
    case WriteFile(_, content, _) => |content| <= c.maxFile
    case EditFile(_, oldText, newText, _, _) => oldText != newText && oldText != ""
    case WriteUpload(_, data, io) => Target(op).Some? && io.read && |data| <= c.maxFile
    case _ => true
  }

  /** The operation comes to open the marker file. */
  predicate OpensMarker(c: Config, files: Files, op: Op) {
    && !op.OtherScans? && PassesEarlyChecks(c, op) && SweepsWell(files, op.io) && op.io.session
    && (op.io.made.Some? ==> 4 <= op.io.made.value) && op.io.linked && op.io.touched && Preparable(Found(files, op.io))
  }

  /** The operation comes to scan for expired workspaces, and this one has expired. */
  predicate FindsExpired(c: Config, op: Op) {
    PassesEarlyChecks(c, op) && op.io.running && op.io.expiry.Expired?
  }

  /** The file at a place before the operation, unless it goes with the expired workspace. */
  function Kept(c: Config, files: Files, op: Op, at: Location): Option<string> {
    if FindsExpired(c, op) && !Survives(files, op.io.expiry, at) then None else FileAt(files, at)
  }

  lemma KeptIsFound(c: Config, files: Files, op: Op, at: Location)
    ensures Kept(c, files, op, at) == FileAt(if PassesEarlyChecks(c, op) then Found(files, op.io) else files, at)
  {
    LeftExactly(files, op.io.expiry, at);
    hide Left, FileAt, PassesEarlyChecks;
  }

  /**
   The whole effect on files: a write installs exactly its content at the place that was
   asked for, opening the marker empties it, an expired workspace goes as far as it can be
   removed, and nothing else happens to any file.
   */
  lemma FilesAfter(c: Config, files: Files, op: Op, at: Location)
    ensures var (files', r) := Perform(c, files, op);
            && (r.Written? ==> Target(op) == Some(Split(r.path, '/')))
            && FileAt(files', at) ==
               if r.Written? && Target(op) == Some(at) then Some(r.data)
               else if OpensMarker(c, files, op) && at == [MARKER] then Some("")
               else Kept(c, files, op, at)
  {
    PreparedExactly(files, op.io);
    KeptIsFound(c, files, op, at);
    FilesAfterLock(files, op.io, at);
    var files1 := Locked(files, op.io).1;
    hide Prepared, Preparable, Kept, SweepsWell, Left, Store, FileAt, Normalized, Place, ResolveToolPath, ScopedPath;
    hide Split, ReadAndEdited;
    match op
    case WriteFile(requested, content, io) =>
      WriteTarget(requested, c.skills);
      var target := ResolveToolPath(requested, true, c.skills);
      if target.InWorkspace? {
        FilesAfterStore(c, files1, target.path, content, io, at);
      }
    case EditFile(requested, oldText, _, _, io) =>
      WriteTarget(requested, c.skills);
      var target := ResolveToolPath(requested, true, c.skills);
      if target.InWorkspace? && oldText != "" {
        var edited := ReadAndEdited(c, files1, Split(target.path, '/'), op);
        if edited.Written? {
          FilesAfterStore(c, files1, target.path, edited.data, io, at);
        }
      }
    case WriteUpload(name, data, io) =>
      UploadTarget(name);
      if ScopedPath("uploads", name).Some? {
        FilesAfterStore(c, files1, ScopedPath("uploads", name).value, data, io, at);
      }
    case _ =>
  }

  /** The content that a write or an upload reports is the one that was asked for. */
  lemma StoresWhatWasAsked(c: Config, files: Files, op: Op)
    requires Perform(c, files, op).1.Written?
    ensures op.WriteFile? ==> Perform(c, files, op).1.data == op.content
    ensures op.WriteUpload? ==> Perform(c, files, op).1.data == op.data
  {
    hide Locked, ResolveToolPath, ScopedPath, Refusal, MakeAll, ReadAndEdited, Left;
  }

  /** No file differs, except perhaps the one at `except`. */
  ghost predicate SameFiles(files: Files, files': Files, except: Option<Location>) {
    forall at: Location :: Some(at) != except ==> FileAt(files', at) == FileAt(files, at)
  }

  predicate MarkerIsEmpty(files: Files) {
    FileAt(files, [MARKER]) == Some("")
  }

  /** No file but the marker and the one at `except` is there to go with an expired workspace. */
  ghost predicate NothingToLose(files: Files, except: Option<Location>) {
    forall at: Location :: FileAt(files, at).Some? ==> at == [MARKER] || Some(at) == except
  }

  /**
   A write changes no other file exactly if it was asked to go to the marker file, or finds
   that file in place and empty, and no other file goes with an expired workspace.
   */
  lemma OtherFilesChangeExactly(c: Config, files: Files, op: Op)
    requires Perform(c, files, op).1.Written?
    ensures SameFiles(files, Perform(c, files, op).0, Target(op))
            <==> && (Target(op) == Some([MARKER]) || MarkerIsEmpty(files))
                 && (op.io.expiry.Expired? ==> NothingToLose(files, Target(op)))
  {
    WrittenOpensMarker(c, files, op);
    EffectOnFiles(c, files, op);
    forall at: Location ensures Kept(c, files, op, at) == if op.io.expiry.Expired? then None else FileAt(files, at) {
      KeptByOpener(c, files, op, at);
    }
    hide Perform, OpensMarker, Target, FileAt, Kept;
  }

  /** An operation that comes to open the marker has nothing left of an expired workspace. */
  lemma KeptByOpener(c: Config, files: Files, op: Op, at: Location)
    requires OpensMarker(c, files, op)
    ensures Kept(c, files, op, at) == if op.io.expiry.Expired? then None else FileAt(files, at)
  {
    LeftExactly(files, op.io.expiry, at);
    hide Left, Preparable;
  }

  /**
   An operation that does not write changes no file exactly if it is refused before it opens
   the marker file, or finds that file in place and empty, and every file but the marker
   survives when it finds the workspace expired.
   */
  lemma NothingChangesExactly(c: Config, files: Files, op: Op)
    requires !Perform(c, files, op).1.Written?
    ensures SameFiles(files, Perform(c, files, op).0, None)
            <==> && (OpensMarker(c, files, op) ==> MarkerIsEmpty(files))
                 && (FindsExpired(c, op) ==> forall at: Location :: FileAt(files, at).Some? ==>
                       Survives(files, op.io.expiry, at) || (OpensMarker(c, files, op) && at == [MARKER]))
  {
    EffectOnFiles(c, files, op);
    hide Perform, OpensMarker, Target, FileAt, FindsExpired;
  }

  lemma WrittenOpensMarker(c: Config, files: Files, op: Op)
    requires Perform(c, files, op).1.Written?
    ensures OpensMarker(c, files, op)
  {
    PreparedExactly(files, op.io);
    if op.WriteUpload? {
      UploadTarget(op.name);
    }
    hide Prepared, Preparable, SweepsWell, Found, Left, Store, ResolveToolPath, ScopedPath, ReadAndEdited;
  }

  lemma EffectOnFiles(c: Config, files: Files, op: Op)
    ensures var (files', r) := Perform(c, files, op);
            forall at: Location :: FileAt(files', at) ==
              if r.Written? && Target(op) == Some(at) then Some(r.data)
              else if OpensMarker(c, files, op) && at == [MARKER] then Some("")
              else Kept(c, files, op, at)
  {
    hide Perform, OpensMarker, Target, FileAt, Kept;
    forall at: Location
      ensures var (files', r) := Perform(c, files, op);
              FileAt(files', at) ==
              if r.Written? && Target(op) == Some(at) then Some(r.data)
              else if OpensMarker(c, files, op) && at == [MARKER] then Some("")
              else Kept(c, files, op, at)
    {
      FilesAfter(c, files, op, at);
    }
  }

  /******* When an operation succeeds *******/

  /** Nothing goes wrong that has nothing to do with the request or the workspace. */
  predicate Faultless(io: Io) {
    && io.running && io.swept && (io.expiry.Expired? ==> io.expiry.stuck == {})
    && io.session && io.made.None? && io.linked && io.touched && io.released && io.read && io.utf8
    && io.parents.None? && io.inspected && io.sized && io.stored
  }

  /** The random name of the temporary file occurs nowhere else. */
  ghost predicate Fresh(temp: Name, files: Files, target: Option<Location>) {
    && (forall at <- files :: temp !in at) && (target.Some? ==> temp !in target.value)
    && temp != MARKER && [temp] !in SUBDIRECTORIES
  }

  /** What the prepared workspace must allow for content of this size to be written to a place. */
  ghost predicate Accepts(c: Config, files: Files, at: Location, size: nat) {
    !Blocked(files, at) && (at in files ==> files[at].Regular?) && Fits(c, files, at, size)
  }

  lemma StoreSucceedsExactly(c: Config, files: Files, path: string, data: string, io: Io)
    requires Faultless(io) && forall at <- files :: io.temp !in at
    requires io.temp !in Split(path, '/')
    ensures Store(c, files, path, data, io).1.Written? <==> Accepts(c, files, Split(path, '/'), |data|)
  {
    var at := Split(path, '/');
    var dirs := Ancestors(at);
    var made := MakeAll(files, dirs, io.parents).1;
    MakeAllExactly(files, dirs, io.parents);
    AncestorsFree(files, at);
    assert at !in dirs;
    hide MakeAll, Size, Split, Blocked;
    var temp := Parent(at) + [io.temp];
    assert io.temp == temp[|temp| - 1] && io.temp in temp;
    assert forall d <- dirs :: forall n <- d :: n in at;
    assert temp !in made;
  }

  lemma LockedWithoutFaults(files: Files, io: Io)
    requires Faultless(io)
    ensures Locked(files, io).0 <==> io.expiry.Expired? || Preparable(files)
    ensures forall at <- Locked(files, io).1 :: at in files || at == [MARKER] || at in SUBDIRECTORIES
  {
    PreparedExactly(files, io);
    LeftExactly(files, io.expiry, []);
    assert Preparable(map[]);
    hide Prepared, Preparable;
  }

  lemma TempStaysFresh(files: Files, target: Option<Location>, io: Io)
    requires Faultless(io) && Fresh(io.temp, files, target)
    ensures forall at <- Locked(files, io).1 :: io.temp !in at
    ensures target.Some? ==> io.temp !in target.value
  {
    LockedWithoutFaults(files, io);
    hide Locked, Faultless;
  }

  /**
   Without faults `write_file` succeeds exactly for content within the limits at a place
   outside of the skills that is neither a directory nor below a file.
   */
  lemma WriteSucceedsExactly(c: Config, files: Files, requested: string, content: string, io: Io)
    requires Faultless(io) && Fresh(io.temp, files, Target(WriteFile(requested, content, io)))
    ensures var target := Target(WriteFile(requested, content, io));
            Perform(c, files, WriteFile(requested, content, io)).1.Written? <==>
            && target.Some? && |content| <= c.maxFile && (io.expiry.Expired? || Preparable(files))
            && Accepts(c, Locked(files, io).1, target.value, |content|)
  {
    LockedWithoutFaults(files, io);
    TempStaysFresh(files, Target(WriteFile(requested, content, io)), io);
    WriteTarget(requested, c.skills);
    var target := ResolveToolPath(requested, true, c.skills);
    hide Locked, Preparable, ResolveToolPath, Place, Normalized, Accepts, Store, Split, Fresh, Faultless;
    if target.InWorkspace? {
      StoreSucceedsExactly(c, Locked(files, io).1, target.path, content, io);
    }
  }

  /** An operation on a workspace that has expired does what it would do on one that was never used. */
  lemma ExpiredStartsOver(c: Config, files: Files, op: Op)
    requires FindsExpired(c, op) && op.io.expiry.stuck == {}
    ensures Perform(c, files, op) == Perform(c, map[], op)
  {
    LeftExactly(files, op.io.expiry, []);
    LeftExactly(map[], op.io.expiry, []);
    hide Left, Survives;
    assert Locked(files, op.io) == Locked(map[], op.io);
    hide Locked, Store, ResolveToolPath, ScopedPath, ReadAndEdited;
    if op.WriteUpload? {
      UploadTarget(op.name);
    }
  }

  /** The same for uploads, which go to the requested place below `uploads`. */
  lemma UploadSucceedsExactly(c: Config, files: Files, name: string, data: string, io: Io)
    requires Faultless(io) && Fresh(io.temp, files, Target(WriteUpload(name, data, io)))
    ensures var target := Target(WriteUpload(name, data, io));
            Perform(c, files, WriteUpload(name, data, io)).1.Written? <==>
            && target.Some? && |data| <= c.maxFile && (io.expiry.Expired? || Preparable(files))
            && Accepts(c, Locked(files, io).1, target.value, |data|)
  {
    LockedWithoutFaults(files, io);
    TempStaysFresh(files, Target(WriteUpload(name, data, io)), io);
    UploadTarget(name);
    var target := ScopedPath("uploads", name);
    assert io.read;
    hide Locked, Preparable, ScopedPath, Place, Normalized, Accepts, Store, Split, Fresh, Faultless;
    if target.Some? {
      StoreSucceedsExactly(c, Locked(files, io).1, target.value, data, io);
    }
  }

  lemma DirectoryIsRefused(c: Config, files: Files, path: string, data: string, io: Io)
    requires io.inspected && |Split(path, '/')| == 1
    requires Split(path, '/') in files && files[Split(path, '/')].Directory?
    ensures Store(c, files, path, data, io).1 == Failed(InvalidFileType)
  {
    assert Ancestors(Split(path, '/')) == [];
    hide Split, Fits;
  }

  /** The directories of the session cannot be written over, whatever else is in the workspace. */
  lemma SubdirectoriesAreRefused(c: Config, files: Files, name: Name, content: string, io: Io)
    requires [name] in SUBDIRECTORIES && IsPlain(name) && name != "skills" && |content| <= c.maxFile
    requires Faultless(io) && Preparable(files)
    ensures Perform(c, files, WriteFile(name, content, io)).1 == Failed(InvalidFileType)
  {
    LockedWithoutFaults(files, io);
    PreparedExactly(files, io);
    PlainNameResolves(name, c.skills);
    PlainSplits(name);
    var files1 := Locked(files, io).1;
    assert [name] in files1 && files1[[name]].Directory?;
    hide Locked, Prepared, Preparable, ResolveToolPath, Split, IsPlain, Store;
    DirectoryIsRefused(c, files1, name, content, io);
  }

  /** What an edit needs of the file's content: text within the limits that has the old string, and clearly so. */
  ghost predicate Editable(c: Config, content: string, oldText: string, all: bool) {
    && |content| <= c.maxFile && '\0' !in content
    && if all then Appears(content, oldText) else OneSeparateOccurrence(content, oldText)
  }

  function Replacements(content: string, oldText: string, all: bool): nat
    requires oldText != ""
  {
    if all then Count(content, oldText) else 1
  }

  lemma EditedExactly(c: Config, files: Files, at: Location, op: Op)
    requires op.EditFile? && op.oldText != "" && op.io.utf8 && op.io.read
    ensures var edited := ReadAndEdited(c, files, at, op);
            && (edited.Written? <==>
                  && !Blocked(files, at) && at in files && files[at].Regular?
                  && Editable(c, files[at].data, op.oldText, op.all)
                  && var n := Replacements(files[at].data, op.oldText, op.all);
                     |Replace(files[at].data, op.oldText, op.newText, n)| <= c.maxFile)
            && (edited.Written? ==>
                  var n := Replacements(files[at].data, op.oldText, op.all);
                  edited.data == Replace(files[at].data, op.oldText, op.newText, n))
  {
    hide Count, Replace, Appears, OneSeparateOccurrence, Blocked;
    if at in files && files[at].Regular? {
      CountsNoneExactly(files[at].data, op.oldText);
      CountsOneExactly(files[at].data, op.oldText);
    }
  }

  /** The file at a place can be edited, and there is room for the result. */
  ghost predicate AcceptsEdit(c: Config, files: Files, at: Location, oldText: string, newText: string, all: bool)
    requires oldText != ""
  {
    && at in files && files[at].Regular? && Editable(c, files[at].data, oldText, all)
    && var size := |Replace(files[at].data, oldText, newText, Replacements(files[at].data, oldText, all))|;
       size <= c.maxFile && Accepts(c, files, at, size)
  }

  lemma StoreEditedExactly(c: Config, files: Files, path: string, op: Op)
    requires op.EditFile? && op.oldText != "" && Faultless(op.io) && forall at <- files :: op.io.temp !in at
    requires op.io.temp !in Split(path, '/')
    ensures var at := Split(path, '/');
            var edited := ReadAndEdited(c, files, at, op);
            edited.Written? && Store(c, files, path, edited.data, op.io).1.Written?
            <==> AcceptsEdit(c, files, at, op.oldText, op.newText, op.all)
  {
    var at := Split(path, '/');
    EditedExactly(c, files, at, op);
    hide Split, ReadAndEdited, Store, Replace, Replacements, Editable, Fits;
    if ReadAndEdited(c, files, at, op).Written? {
      StoreSucceedsExactly(c, files, path, ReadAndEdited(c, files, at, op).data, op.io);
    }
  }

  /** In a workspace that has just been made there is nothing to edit. */
  lemma NothingToEdit(c: Config, files: Files, at: Location, op: Op)
    requires op.EditFile? && op.oldText != "" && Faultless(op.io) && op.io.expiry.Expired?
    ensures !AcceptsEdit(c, Locked(files, op.io).1, at, op.oldText, op.newText, op.all)
  {
    LeftExactly(files, op.io.expiry, at);
    FilesAfterLock(files, op.io, at);
    assert FileAt(Locked(files, op.io).1, at) in {None, Some("")};
    assert !Appears("", op.oldText) && !OneSeparateOccurrence("", op.oldText);
    hide Locked, Left, Replace, Replacements, Accepts;
  }

  /**
   Without faults, exactly the edits of editable files whose result is within the limits
   succeed, in workspaces that have not expired.
   */
  lemma EditSucceedsExactly(
    c: Config, files: Files, requested: string, oldText: string, newText: string, all: bool, io: Io)
    requires Faultless(io) && oldText != "" && oldText != newText
    requires Fresh(io.temp, files, Target(EditFile(requested, oldText, newText, all, io)))
    ensures var target := Target(EditFile(requested, oldText, newText, all, io));
            Perform(c, files, EditFile(requested, oldText, newText, all, io)).1.Written? <==>
            && target.Some? && io.expiry.Unexpired? && Preparable(files)
            && AcceptsEdit(c, Locked(files, io).1, target.value, oldText, newText, all)
  {
    LockedWithoutFaults(files, io);
    WriteTarget(requested, c.skills);
    var op := EditFile(requested, oldText, newText, all, io);
    var target := ResolveToolPath(requested, true, c.skills);
    hide Locked, Preparable, ResolveToolPath, Place, Normalized, Store, Split, ReadAndEdited, AcceptsEdit;
    if target.InWorkspace? {
      StoreEditedExactly(c, Locked(files, io).1, target.path, op);
      if io.expiry.Expired? {
        NothingToEdit(c, files, Split(target.path, '/'), op);
      }
    }
  }

  /** Where a write goes: below the workspace, never to a skill, uploads to `uploads`. */
  lemma WritesGoWhereTheyMay(c: Config, files: Files, op: Op)
    requires Perform(c, files, op).1.Written?
    ensures var at := Split(Perform(c, files, op).1.path, '/');
            && AreNames(at) && at[0] != "skills" && Target(op) == Some(at)
            && (op.WriteUpload? ==> |at| > 1 && at[0] == "uploads")
  {
    FilesAfter(c, files, op, [MARKER]);
    if op.WriteUpload? {
      ScopedPathExactly("uploads", op.name);
    } else if !op.Look? {
      ToolPathExactly(op.requested, true, c.skills);
    }
    hide Perform, Normalized, FileAt, OpensMarker;
  }

  /**
   An edit that succeeds found the file to be pieces of text around occurrences of the old
   string, and leaves the same pieces around as many copies of the new one.
   */
  lemma EditMeaning(c: Config, files: Files, op: Op)
    requires op.EditFile?
    ensures var (files', r) := Perform(c, files, op);
            r.Written? ==>
            && Target(op).Some? && FileAt(files, Target(op).value).Some?
            && var content := FileAt(files, Target(op).value).value;
               var n := Replacements(content, op.oldText, op.all);
               var pieces := Pieces(content, op.oldText, n);
               && content == Interleave(pieces, op.oldText) && r.data == Interleave(pieces, op.newText)
               && |pieces| == n + 1 >= 2
               && (op.all ==> forall piece <- pieces, i: nat :: !OccursAt(piece, op.oldText, i))
               && (!op.all ==> OneSeparateOccurrence(content, op.oldText))
  {
    if Perform(c, files, op).1.Written? {
      var content := EditedContent(c, files, op);
      var n := Replacements(content, op.oldText, op.all);
      ReplaceMeaning(content, op.oldText, op.newText, n);
      CountsOneExactly(content, op.oldText);
      if op.all {
        forall piece <- Pieces(content, op.oldText, n), i: nat ensures !OccursAt(piece, op.oldText, i) {
          PiecesAreFree(content, op.oldText, piece, i);
        }
      }
    }
    hide Perform, FileAt, Target, Count, Pieces, Interleave, Replace, OneSeparateOccurrence, OccursAt;
  }

  lemma EditReads(c: Config, files: Files, at: Location, op: Op)
    requires op.EditFile? && op.oldText != "" && ReadAndEdited(c, files, at, op).Written?
    ensures FileAt(files, at).Some?
    ensures var content := FileAt(files, at).value;
            var n := Replacements(content, op.oldText, op.all);
            1 <= n <= Count(content, op.oldText)
            && (op.all || Count(content, op.oldText) == 1)
            && ReadAndEdited(c, files, at, op).data == Replace(content, op.oldText, op.newText, n)
  {
    hide Count, Replace, Blocked;
  }

  /** What a successful edit read was in the file before the operation: the marker, emptied, has nothing to replace. */
  lemma EditedContent(c: Config, files: Files, op: Op) returns (content: string)
    requires op.EditFile? && Perform(c, files, op).1.Written?
    ensures op.oldText != "" && Target(op).Some? && FileAt(files, Target(op).value) == Some(content)
    ensures var n := Replacements(content, op.oldText, op.all);
            1 <= n <= Count(content, op.oldText)
            && (op.all || Count(content, op.oldText) == 1)
            && Perform(c, files, op).1.data == Replace(content, op.oldText, op.newText, n)
  {
    WriteTarget(op.requested, c.skills);
    var path := ResolveToolPath(op.requested, true, c.skills).path;
    var at := Split(path, '/');
    var files1 := Locked(files, op.io).1;
    FilesAfterLock(files, op.io, at);
    LeftExactly(files, op.io.expiry, at);
    EditReads(c, files1, at, op);
    content := FileAt(files1, at).value;
    FilesAfterStore(c, files1, path, ReadAndEdited(c, files1, at, op).data, op.io, at);
    assert Count("", op.oldText) == 0;
    hide Locked, Store, ResolveToolPath, Place, Normalized, Split, Count, Replace, ReadAndEdited, FileAt, Left;
  }

  /******* The quota and the tree *******/

  lemma StoreKeepsQuota(c: Config, files: Files, path: string, data: string, io: Io)
    ensures var (files', r) := Store(c, files, path, data, io);
            if r.Written? then Size(files') <= c.maxWorkspace else Size(files') == Size(files)
  {
    var dirs := Ancestors(Split(path, '/'));
    MakeAllExactly(files, dirs, io.parents);
    SizeWith(MakeAll(files, dirs, io.parents).1, Split(path, '/'), Regular(data));
    hide MakeAll, Ancestors, Split, Size;
  }

  lemma LockKeepsQuota(files: Files, io: Io)
    ensures Size(Locked(files, io).1) <= Size(files)
  {
    PreparedExactly(files, io);
    LeftIsSmaller(files, io.expiry);
    SizeWith(Prepared(files, io).1, [MARKER], Regular(""));
    hide Prepared, Size, Left;
  }

  /** The path and the content that an operation stores, once its session is locked. */
  lemma PerformStores(c: Config, files: Files, op: Op) returns (path: string, data: string)
    ensures var (files1, files') := (Locked(files, op.io).1, Perform(c, files, op).0);
            || files' in {files, files1, Found(files, op.io)}
            || (Locked(files, op.io).0 && files' == Store(c, files1, path, data, op.io).0)
  {
    var files1 := Locked(files, op.io).1;
    hide Locked, Store, ResolveToolPath, ScopedPath;
    path, data := "", "";
    match op
    case WriteFile(requested, content, _) =>
      var target := ResolveToolPath(requested, true, c.skills);
      if target.InWorkspace? {
        path, data := target.path, content;
      }
    case EditFile(requested, oldText, _, _, _) =>
      var target := ResolveToolPath(requested, true, c.skills);
      if target.InWorkspace? && oldText != "" {
        var edited := ReadAndEdited(c, files1, Split(target.path, '/'), op);
        if edited.Written? {
          path, data := target.path, edited.data;
        }
      }
    case WriteUpload(name, content, _) =>
      var target := ScopedPath("uploads", name);
      if target.Some? {
        path, data := target.value, content;
      }
    case _ =>
  }

  /** An operation never takes a workspace over its quota, nor further over it. */
  lemma QuotaKept(c: Config, files: Files, op: Op)
    ensures Size(Perform(c, files, op).0) <= Size(files) || Size(Perform(c, files, op).0) <= c.maxWorkspace
  {
    LockKeepsQuota(files, op.io);
    LeftIsSmaller(files, op.io.expiry);
    var path, data := PerformStores(c, files, op);
    StoreKeepsQuota(c, Locked(files, op.io).1, path, data, op.io);
    hide Perform, Locked, Store, Size, Left;
  }

  lemma LockKeepsTree(files: Files, io: Io)
    requires Tree(files)
    ensures Tree(Locked(files, io).1)
  {
    LeftIsTree(files, io.expiry);
    MakeAllKeepsTree(Left(files, io.expiry), SUBDIRECTORIES, io.made);
    hide MakeAll, Left;
    if Prepared(files, io).0 {
      StoreKeepsTree(Prepared(files, io).1, [MARKER], "");
    }
    hide Tree;
  }

  lemma StoreIntoTree(c: Config, files: Files, path: string, data: string, io: Io)
    requires Tree(files)
    ensures Tree(Store(c, files, path, data, io).0)
  {
    var at := Split(path, '/');
    var dirs := Ancestors(at);
    forall i: nat | i < |dirs| ensures ParentFirst(files, dirs, i) {
      assert i > 0 ==> at[..i + 1][..i] == at[..i];
    }
    MakeAllKeepsTree(files, dirs, io.parents);
    MakeAllExactly(files, dirs, io.parents);
    var (ok, made) := MakeAll(files, dirs, io.parents);
    if |at| > 1 {
      assert dirs[|dirs| - 1] == Parent(at) && dirs[|dirs| - 1] in dirs;
    }
    hide MakeAll, Split, Size, Tree, Ancestors;
    if Store(c, files, path, data, io).1.Written? {
      StoreKeepsTree(made, at, data);
    }
  }

  /** Every operation keeps the directory tree a tree. */
  lemma TreeKept(c: Config, files: Files, op: Op)
    requires Tree(files)
    ensures Tree(Perform(c, files, op).0)
  {
    LockKeepsTree(files, op.io);
    LeftIsTree(files, op.io.expiry);
    var path, data := PerformStores(c, files, op);
    StoreIntoTree(c, Locked(files, op.io).1, path, data, op.io);
    hide Perform, Locked, Store, Tree;
  }

  /** Once the session's directories and marker are there, a write leaves them in place. */
  lemma StoreKeepsPreparable(c: Config, files: Files, path: string, data: string, io: Io)
    requires forall d <- SUBDIRECTORIES :: d in files && files[d].Directory?
    requires [MARKER] in files && files[[MARKER]].Regular?
    ensures Preparable(Store(c, files, path, data, io).0)
  {
    MakeAllExactly(files, Ancestors(Split(path, '/')), io.parents);
    hide MakeAll, Split, Size, Ancestors, Fits;
  }

  lemma LeftKeepsPreparable(files: Files, io: Io)
    requires Preparable(files)
    ensures Preparable(Found(files, io))
  {
    hide Survives;
  }

  lemma LockKeepsPreparable(files: Files, io: Io)
    requires Preparable(files)
    ensures Preparable(Locked(files, io).1)
    ensures Locked(files, io).0 ==>
              && (forall d <- SUBDIRECTORIES :: d in Locked(files, io).1 && Locked(files, io).1[d].Directory?)
              && [MARKER] in Locked(files, io).1 && Locked(files, io).1[[MARKER]].Regular?
  {
    PreparedExactly(files, io);
    LeftKeepsPreparable(files, io);
    assert [MARKER] !in SUBDIRECTORIES;
    hide Prepared, Size, Found;
  }

  /** No operation gets in the way of preparing the session again. */
  lemma PreparableKept(c: Config, files: Files, op: Op)
    requires Preparable(files)
    ensures Preparable(Perform(c, files, op).0)
  {
    LockKeepsPreparable(files, op.io);
    LeftKeepsPreparable(files, op.io);
    var path, data := PerformStores(c, files, op);
    var files1 := Locked(files, op.io).1;
    hide Perform, Locked, Store, Preparable, Found;
    if && (forall d <- SUBDIRECTORIES :: d in files1 && files1[d].Directory?)
       && [MARKER] in files1
       && files1[[MARKER]].Regular? {
      StoreKeepsPreparable(c, files1, path, data, op.io);
    }
  }

  /******* Whole runs *******/

  ghost function Run(c: Config, files: Files, ops: seq<Op>): Files {
    if ops == [] then files else Perform(c, Run(c, files, ops[..|ops| - 1]), ops[|ops| - 1]).0
  }

  lemma {:induction false} RunKeepsQuota(c: Config, files: Files, ops: seq<Op>)
    requires Size(files) <= c.maxWorkspace
    ensures Size(Run(c, files, ops)) <= c.maxWorkspace
  {
    if ops != [] {
      RunKeepsQuota(c, files, ops[..|ops| - 1]);
      QuotaKept(c, Run(c, files, ops[..|ops| - 1]), ops[|ops| - 1]);
    }
    hide Perform, Size;
  }

  /**
   From a new session on, every run of operations leaves a tree, in which no file lies below
   a file, and a workspace that can be prepared again.
   */
  lemma {:induction false} RunKeepsTree(c: Config, ops: seq<Op>)
    ensures Tree(Run(c, map[], ops)) && Preparable(Run(c, map[], ops))
  {
    if ops != [] {
      RunKeepsTree(c, ops[..|ops| - 1]);
      TreeKept(c, Run(c, map[], ops[..|ops| - 1]), ops[|ops| - 1]);
      PreparableKept(c, Run(c, map[], ops[..|ops| - 1]), ops[|ops| - 1]);
    }
    hide Perform;
  }

  /**
   What is in the file at a place after the writes that reported success, in order. It is
   nothing again when an operation finds the workspace expired and can remove the file.
   */
  ghost function Latest(c: Config, files: Files, ops: seq<Op>, at: Location): Option<string> {
    if ops == [] then FileAt(files, at)
    else
      var before, op := Run(c, files, ops[..|ops| - 1]), ops[|ops| - 1];
      var r := Perform(c, before, op).1;
      if r.Written? && Target(op) == Some(at) then Some(r.data)
      else if FindsExpired(c, op) && !Survives(before, op.io.expiry, at) then None
      else Latest(c, files, ops[..|ops| - 1], at)
  }

  /**
   Except for the marker, every file holds what the last successful write to it reported, or
   its first content, as long as its workspace has not expired since.
   */
  lemma {:induction false} LastWriteWins(c: Config, files: Files, ops: seq<Op>, at: Location)
    requires at != [MARKER]
    ensures FileAt(Run(c, files, ops), at) == Latest(c, files, ops, at)
  {
    if ops != [] {
      LastWriteWins(c, files, ops[..|ops| - 1], at);
      FilesAfter(c, Run(c, files, ops[..|ops| - 1]), ops[|ops| - 1], at);
    }
    hide Perform, Target, OpensMarker, FileAt, FindsExpired, Survives;
  }

  lemma MarkerIsPlain()
    ensures IsPlain(MARKER) && MARKER != "skills" && [MARKER] !in SUBDIRECTORIES
  {
    assert |MARKER| == 16 && MARKER[0] == '.' && MARKER[1] == 'v' && MARKER[15] == 'd';
  }

  lemma PlainIsTarget(name: Name, content: string, io: Io)
    requires IsPlain(name) && name != "skills"
    ensures Target(WriteFile(name, content, io)) == Some([name])
  {
    PlainIsNormal(name);
    PlainPlace(name);
    hide IsPlain, Normalized, Place;
  }

  lemma NewIsPreparable()
    ensures Preparable(map[])
  {
  }

  lemma NewSessionAccepts(c: Config, name: Name, size: nat, io: Io)
    requires size <= c.maxWorkspace && Faultless(io) && [name] !in SUBDIRECTORIES
    requires io.temp != MARKER && io.temp != name && [io.temp] !in SUBDIRECTORIES
    ensures Preparable(map[]) && Fresh(io.temp, map[], Some([name]))
    ensures Accepts(c, Locked(map[], io).1, [name], size)
  {
    LockKeepsQuota(map[], io);
    FilesAfterLock(map[], io, [name]);
    LeftExactly(map[], io.expiry, [name]);
    PreparedExactly(map[], io);
    LockedWithoutFaults(map[], io);
    assert Size(map[]) == 0;
    hide Prepared, Size, Left;
  }

  /** Content within the limits can be written to a plain name in a new session, be it the marker's. */
  lemma NewFileIsWritten(c: Config, name: Name, content: string, io: Io)
    requires IsPlain(name) && name != "skills" && [name] !in SUBDIRECTORIES
    requires |content| <= c.maxFile && |content| <= c.maxWorkspace
    requires Faultless(io) && io.temp != MARKER && io.temp != name && [io.temp] !in SUBDIRECTORIES
    ensures var (files, r) := Perform(c, map[], WriteFile(name, content, io));
            r.Written? && r.data == content && FileAt(files, [name]) == Some(content)
  {
    PlainIsTarget(name, content, io);
    NewSessionAccepts(c, name, |content|, io);
    hide Accepts, Target, Locked, OpensMarker, Preparable, Fresh, Faultless, FileAt, Perform, Kept, IsPlain;
    WriteSucceedsExactly(c, map[], name, content, io);
    StoresWhatWasAsked(c, map[], WriteFile(name, content, io));
    FilesAfter(c, map[], WriteFile(name, content, io), [name]);
  }

  lemma LookWithoutFaults(c: Config, files: Files, io: Io)
    requires Faultless(io) && (io.expiry.Expired? || Preparable(files))
    ensures Perform(c, files, Look(io)).1 == Looked
    ensures FileAt(Perform(c, files, Look(io)).0, [MARKER]) == Some("")
  {
    LockedWithoutFaults(files, io);
    PreparedExactly(files, io);
    FilesAfterLock(files, io, [MARKER]);
    hide Preparable, FileAt, Prepared;
  }

  /** A caller can write to the marker, and the next operation, even one that only looks, empties it. */
  lemma MarkerContentIsLost(c: Config, content: string, io: Io, next: Io)
    requires content != "" && |content| <= c.maxFile && |content| <= c.maxWorkspace
    requires Faultless(io) && io.temp != MARKER && [io.temp] !in SUBDIRECTORIES && Faultless(next)
    ensures var (files1, r1) := Perform(c, map[], WriteFile(MARKER, content, io));
            var (files2, r2) := Perform(c, files1, Look(next));
            && r1.Written? && FileAt(files1, [MARKER]) == Some(content)
            && r2 == Looked && FileAt(files2, [MARKER]) == Some("")
  {
    hide Perform, Locked, Preparable, FileAt, Faultless, IsPlain;
    MarkerIsPlain();
    NewIsPreparable();
    NewFileIsWritten(c, MARKER, content, io);
    PreparableKept(c, map[], WriteFile(MARKER, content, io));
    LookWithoutFaults(c, Perform(c, map[], WriteFile(MARKER, content, io)).0, next);
  }

  /** A caller writes a file, the workspace expires, and the next operation, even one that only looks, removes it. */
  lemma ExpiryLosesFile(c: Config, name: Name, content: string, io: Io, next: Io)
    requires IsPlain(name) && name != "skills" && [name] !in SUBDIRECTORIES && name != MARKER
    requires |content| <= c.maxFile && |content| <= c.maxWorkspace
    requires Faultless(io) && io.temp != MARKER && io.temp != name && [io.temp] !in SUBDIRECTORIES
    requires Faultless(next) && next.expiry.Expired?
    ensures var (files1, r1) := Perform(c, map[], WriteFile(name, content, io));
            var (files2, r2) := Perform(c, files1, Look(next));
            && r1.Written? && FileAt(files1, [name]) == Some(content)
            && r2 == Looked && FileAt(files2, [name]) == None
  {
    NewFileIsWritten(c, name, content, io);
    var files1 := Perform(c, map[], WriteFile(name, content, io)).0;
    assert Kept(c, files1, Look(next), [name]) == None;
    hide Perform, Locked, FileAt, Kept, Faultless, OpensMarker;
    FilesAfter(c, files1, Look(next), [name]);
    LookWithoutFaults(c, files1, next);
  }
}
