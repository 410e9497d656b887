/** The older Google Drive class, addressed by file identifiers. Its cache is written
    unconditionally, commands are keyed by `file_id` (defaulting to the root), and
    `getinfo` is the bare `get_file_info` reply. The reply of a call that raised is
    None. */
module GoogleDriveBackup {
  import opened Values
  import GoogleDrive

  /** `createfile(title, parent_id)`: no parent means the root; a given parent must
      exist (PathError otherwise). The result is the parent the file is created in. */
  function CreateFileParent(root: string, parentId: Option<string>, parentExists: bool): (r: Result<string>)
    ensures parentId.None? ==> r == Ok(root)
    ensures parentId.Some? ==> (r.Ok? <==> parentExists)
    ensures parentId.Some? && r.Ok? ==> r.value == parentId.value
    ensures r.Err? ==> r.error == PathError
  {
    match parentId
    case None => Ok(root)
    case Some(p) => if parentExists then Ok(p) else Err(PathError)
  }

  /** `exists(file_id)`: `getinfo` did not raise. */
  function Exists(info: Option<Value>): (r: bool)
    ensures r <==> IsDirAt(info) != Err(PathError)
  {
    info.Some?
  }

  /** `isdir(file_id)`: a raising `getinfo` becomes PathError; otherwise the metadata's
      "mimeType" is the folder type. */
  function IsDirAt(info: Option<Value>): (r: Result<bool>)
    ensures info.None? ==> r == Err(PathError)
    ensures info.Some? ==> r == GoogleDrive.IsFolder(info.value)
  {
    match info
    case None => Err(PathError)
    case Some(v) => GoogleDrive.IsFolder(v)
  }

  /** `isfile(file_id)`: the negation of `isdir` on the same metadata. */
  function IsFileAt(info: Option<Value>): (r: Result<bool>)
    ensures r.Ok? == IsDirAt(info).Ok?
    ensures r.Ok? ==> r.value == !IsDirAt(info).value
    ensures r.Err? ==> r.error == IsDirAt(info).error
  {
    match info
    case None => Err(PathError)
    case Some(v) => GoogleDrive.IsNotFolder(v)
  }

  /** `rename(src, dst)`: refuses when either side is the root. The command it then
      issues, 'file_rename', is not one `_cloud_command` knows, so it answers None
      and nothing is renamed. */
  function Rename(root: string, src: string, dst: string): (r: Result<Value>)
    ensures r.Ok? <==> src != root && dst != root
    ensures r.Ok? ==> r.value == Null
    ensures r.Err? ==> r.error == UnsupportedError
  {
    if src == root || dst == root then Err(UnsupportedError) else Ok(Null)
  }

  /** The identifier `remove(path)` deletes, as written: after refusing the root it
      passes `path=`, but `file_delete` reads `file_id`, which then defaults to the
      root. */
  function RemoveTargetAsWritten(root: string, path: string): (r: Result<string>)
    ensures r.Ok? <==> path != root
    ensures r.Ok? ==> r.value == root
    ensures r.Err? ==> r.error == UnsupportedError
  {
    if path == root then Err(UnsupportedError) else Ok(root)
  }

  /** Removing any file other than the root deletes the root instead. */
  lemma RemoveDeletesRoot(root: string, path: string)
    requires path != root
    ensures RemoveTargetAsWritten(root, path) == Ok(root)
    ensures RemoveTargetAsWritten(root, path) != RemoveTarget(root, path)
  {
  }

  /** The identifier `remove(path)` evidently intends to delete: the path itself, never
      the root. */
  function RemoveTarget(root: string, path: string): (r: Result<string>)
    ensures r.Ok? <==> path != root
    ensures r.Ok? ==> r.value == path && r.value != root
    ensures r.Err? ==> r.error == UnsupportedError
  {
    if path == root then Err(UnsupportedError) else Ok(path)
  }

  /** `removedir(path)` as written: the directory test (PathError), then the root
      refusal, then `remove(path, False)`, which deletes what `RemoveTargetAsWritten`
      names: the root. */
  function RemoveDir(root: string, path: string, isDir: Result<bool>): (r: Result<string>)
    ensures isDir.Err? ==> r == Err(isDir.error)
    ensures isDir == Ok(false) ==> r == Err(PathError)
    ensures isDir == Ok(true) ==> r == RemoveTargetAsWritten(root, path)
    ensures r.Ok? <==> isDir == Ok(true) && path != root
  {
    match isDir
    case Err(e) => Err(e)
    case Ok(d) => if !d then Err(PathError) else RemoveTargetAsWritten(root, path)
  }

  /** Removing any directory other than the root deletes the root instead. */
  lemma RemoveDirDeletesRoot(root: string, path: string)
    requires path != root
    ensures RemoveDir(root, path, Ok(true)) == Ok(root)
    ensures RemoveDir(root, path, Ok(true)) != RemoveDirIntended(root, path, Ok(true))
  {
  }

  /** `removedir(path)` as evidently intended: the same guards, then the intended
      `remove`, so a success deletes the directory itself and never the root. */
  function RemoveDirIntended(root: string, path: string, isDir: Result<bool>): (r: Result<string>)
    ensures isDir.Err? ==> r == Err(isDir.error)
    ensures isDir == Ok(false) ==> r == Err(PathError)
    ensures isDir == Ok(true) ==> r == RemoveTarget(root, path)
    ensures r.Ok? <==> isDir == Ok(true) && path != root
    ensures r.Ok? ==> r.value == path && r.value != root
  {
    match isDir
    case Err(e) => Err(e)
    case Ok(d) => if !d then Err(PathError) else RemoveTarget(root, path)
  }

  /** The commands of `_cloud_command` that leave the cache alone; `Unknown` stands for
      a command name no branch matches ('file_rename', 'get_url'). */
  datatype Query =
    | ListDir
    | GetFileInfo
    | CreateNewFile
    | FileCreateFolder
    | FileDelete
    | FileMove
    | Unknown

  class GoogleDriveBackupFS {
    const root: string
    var cachedFiles: map<string, Meta>

    /** `root` is the caller's root, or the "rootFolderId" the about() call answered. */
    constructor (root: Option<string>, aboutRootFolderId: string)
      ensures this.root == root.GetOr(aboutRootFolderId) && cachedFiles == map[]
    {
      this.root := root.GetOr(aboutRootFolderId);
      cachedFiles := map[];
    }

    /** Pass-through commands answer the provider's reply; `file_move` calls a
        `self.client` the class never sets (AttributeError); an unknown command
        answers None. */
    method Command(cmd: Query, reply: Value) returns (r: Result<Value>)
      ensures cmd == FileMove ==> r == Err(AttributeError)
      ensures cmd == Unknown ==> r == Ok(Null)
      ensures cmd != FileMove && cmd != Unknown ==> r == Ok(reply)
    {
      match cmd
      case FileMove => r := Err(AttributeError);
      case Unknown => r := Ok(Null);
      case _ => r := Ok(reply);
    }

    /** `get_file`: the key is `file_id` or the root. A hit uses the stored entry without
        a fetch; a miss fetches and always stores under the fetched "id". */
    method GetFile(fileId: Option<string>, fetched: Meta) returns (f: Result<Meta>, didFetch: bool)
      modifies this
      ensures var key := fileId.GetOr(root);
        if key in old(cachedFiles) then
          f == Ok(old(cachedFiles)[key]) && !didFetch && cachedFiles == old(cachedFiles)
        else
          didFetch &&
          match IdOf(fetched)
          case Err(e) => f == Err(e) && cachedFiles == old(cachedFiles)
          case Ok(id) => f == Ok(fetched) && cachedFiles == old(cachedFiles)[id := fetched]
    {
      var key := fileId.GetOr(root);
      if key in cachedFiles {
        return Ok(cachedFiles[key]), false;
      }
      var id := IdOf(fetched);
      if id.Err? {
        return Err(id.error), true;
      }
      cachedFiles := cachedFiles[id.value := fetched];
      f, didFetch := Ok(fetched), true;
    }

    /** `update_file`: the upload body is the cached entry, or None on a miss (nothing
        is fetched); the provider's answer is always stored under `file_id`, and the
        command answers None. */
    method UpdateFile(fileId: Option<string>, updated: Meta) returns (r: Value, body: Option<Meta>)
      modifies this
      ensures var key := fileId.GetOr(root);
        && r == Null
        && body == (if key in old(cachedFiles) then Some(old(cachedFiles)[key]) else None)
        && cachedFiles == old(cachedFiles)[key := updated]
    {
      var key := fileId.GetOr(root);
      body := if key in cachedFiles then Some(cachedFiles[key]) else None;
      cachedFiles := cachedFiles[key := updated];
      r := Null;
    }
  }

  /** Whatever the cache held, an update followed by a read of the same identifier is a
      hit on the updated metadata: no fetch happens. */
  method UpdateThenGet(fs: GoogleDriveBackupFS, fileId: string, updated: Meta, fetched: Meta)
    returns (f: Result<Meta>, didFetch: bool)
    modifies fs
    ensures f == Ok(updated) && !didFetch
    ensures fs.cachedFiles == old(fs.cachedFiles)[fileId := updated]
  {
    var _, _ := fs.UpdateFile(Some(fileId), updated);
    f, didFetch := fs.GetFile(Some(fileId), fetched);
  }
}
