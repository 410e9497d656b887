/** The Google Drive file system: objects are addressed by Drive identifiers, paths
    handed in by pyfs are normalised to identifiers, and an optional per-instance cache
    `cachedFiles` maps identifiers to file metadata. Every SDK call is replaced by the
    reply it returned, passed in as a parameter. */
module GoogleDrive {
  import opened Values
  import opened Resolution

  /** The MIME type Drive gives to folders. */
  const FolderMime: string := "application/vnd.google-apps.folder"

  /** The path `_cloud_command` works on: a missing path means the root, one leading
      "/" is dropped, and what is then empty means the root again. Indexing the first
      character of an empty path raises IndexError. */
  function Normalise(root: string, path: Option<string>): (r: Result<string>)
    ensures var p := path.GetOr(root);
      && (p == "" ==> r == Err(IndexError))
      && (p == "/" ==> r == Ok(root))
      && (|p| > 1 && p[0] == '/' ==> r == Ok(p[1..]))
      && (p != "" && p[0] != '/' ==> r == Ok(p))
  {
    var p := path.GetOr(root);
    if |p| == 0 then Err(IndexError)
    else
      var q := if p[0] == '/' then p[1..] else p;
      if |q| == 0 then Ok(root) else Ok(q)
  }

  /** An identifier reaches the provider unchanged whether or not pyfs put a "/" in
      front of it, and a missing path is the root itself. */
  lemma NormaliseIdentifier(root: string, id: string)
    requires id != "" && id[0] != '/'
    requires root != "" && root[0] != '/'
    ensures Normalise(root, Some("/" + id)) == Normalise(root, Some(id)) == Ok(id)
    ensures Normalise(root, None) == Ok(root)
    ensures Normalise(root, Some("/")) == Ok(root)
  {
    assert ("/" + id)[1..] == id;
  }

  /** `_isdir(info)`: the object is a folder. */
  function IsFolder(info: Value): (r: Result<bool>)
    ensures r.Ok? <==> info.Dict? && "mimeType" in info.fields
    ensures r.Ok? ==> (r.value <==> info.fields["mimeType"] == Str(FolderMime))
  {
    match Index(info, "mimeType")
    case Err(e) => Err(e)
    case Ok(m) => Ok(m == Str(FolderMime))
  }

  /** `_isfile(info)`: the complement of `_isdir` on the same metadata. */
  function IsNotFolder(info: Value): (r: Result<bool>)
    ensures r.Ok? == IsFolder(info).Ok?
    ensures r.Ok? ==> r.value == !IsFolder(info).value
    ensures r.Err? ==> r.error == IsFolder(info).error
  {
    match Index(info, "mimeType")
    case Err(e) => Err(e)
    case Ok(m) => Ok(m != Str(FolderMime))
  }

  /** `getinfo(path)`, given what `get_file_info` answers (None when the SDK raised):
      missing or falsy metadata raises PathError. */
  function GetInfo(info: Option<Value>): (r: Result<Value>)
    ensures r.Ok? <==> info.Some? && Truthy(info.value)
    ensures r.Ok? ==> r.value == info.value
    ensures r.Err? ==> r.error == PathError
  {
    match info
    case None => Err(PathError)
    case Some(v) => if Truthy(v) then Ok(v) else Err(PathError)
  }

  /** `isdir(path)`: "/" is a directory without asking; otherwise any failure to get
      the metadata becomes PathError, and metadata without "mimeType" raises KeyError. */
  function IsDirAt(path: string, info: Option<Value>): (r: Result<bool>)
    ensures path == "/" ==> r == Ok(true)
    ensures path != "/" && GetInfo(info).Err? ==> r == Err(PathError)
    ensures path != "/" && GetInfo(info).Ok? ==> r == IsFolder(info.value)
  {
    if path == "/" then Ok(true)
    else
      match GetInfo(info)
      case Err(_) => Err(PathError)
      case Ok(v) => IsFolder(v)
  }

  /** `isfile(path)` as written: it evaluates `_isfile(info)` but has no `return`, so
      on every path that does not raise it returns None. */
  function IsFileAtAsWritten(path: string, info: Option<Value>): (r: Result<Value>)
    ensures r.Ok? ==> r.value == Null
    ensures r.Ok? <==> GetInfo(info).Ok? && IsNotFolder(info.value).Ok?
  {
    match GetInfo(info)
    case Err(_) => Err(PathError)
    case Ok(v) =>
      match IsNotFolder(v)
      case Err(e) => Err(e)
      case Ok(_) => Ok(Null)
  }

  /** `isfile` as written fails exactly when the intended one does, and for every
      regular file it answers None, which `movedir` reads as false, so its "src is a
      file" refusal never fires. */
  lemma IsFileAtAsWrittenFalsy(path: string, info: Option<Value>)
    ensures IsFileAtAsWritten(path, info).Ok? <==> IsFileAt(path, info).Ok?
    ensures IsFileAt(path, info) == Ok(true) ==>
      IsFileAtAsWritten(path, info) == Ok(Null) && !Truthy(IsFileAtAsWritten(path, info).value)
  {
  }

  /** One such regular file. */
  lemma PlainFileIsFalsy(path: string)
    ensures var file := Dict(map["mimeType" := Str("text/plain")]);
      IsFileAt(path, Some(file)) == Ok(true) && IsFileAtAsWritten(path, Some(file)) == Ok(Null)
  {
    var file := Dict(map["mimeType" := Str("text/plain")]);
    assert Str("text/plain") != Str(FolderMime);
    assert "mimeType" in file.fields;
  }

  /** `isfile(path)` as evidently intended: it returns `_isfile(info)`. */
  function IsFileAt(path: string, info: Option<Value>): (r: Result<bool>)
    ensures GetInfo(info).Err? ==> r == Err(PathError)
    ensures GetInfo(info).Ok? ==> r == IsNotFolder(info.value)
  {
    match GetInfo(info)
    case Err(_) => Err(PathError)
    case Ok(v) => IsNotFolder(v)
  }

  /** Away from "/", `isfile` and `isdir` agree on failure and answer oppositely
      otherwise. */
  lemma IsFileAtComplement(path: string, info: Option<Value>)
    requires path != "/"
    ensures IsFileAt(path, info).Ok? == IsDirAt(path, info).Ok?
    ensures IsFileAt(path, info).Ok? ==> IsFileAt(path, info).value == !IsDirAt(path, info).value
  {
  }

  /** `remove(path)`: the root is refused (UnsupportedError) before the directory test
      (PathError); otherwise `file_delete` runs on the normalised path, returned here. */
  function Remove(root: string, path: string, isDir: Result<bool>): (r: Result<string>)
    ensures path == root ==> r == Err(UnsupportedError)
    ensures path != root && isDir.Err? ==> r == Err(isDir.error)
    ensures path != root && isDir == Ok(true) ==> r == Err(PathError)
    ensures path != root && isDir == Ok(false) ==> r == Normalise(root, Some(path))
  {
    if path == root then Err(UnsupportedError)
    else
      match isDir
      case Err(e) => Err(e)
      case Ok(d) => if d then Err(PathError) else Normalise(root, Some(path))
  }

  /** `removedir(path)`: the directory test (PathError) comes before the root refusal
      (UnsupportedError), the reverse of `remove`. */
  function RemoveDir(root: string, path: string, isDir: Result<bool>): (r: Result<string>)
    ensures isDir.Err? ==> r == Err(isDir.error)
    ensures isDir == Ok(false) ==> r == Err(PathError)
    ensures isDir == Ok(true) && path == root ==> r == Err(UnsupportedError)
    ensures isDir == Ok(true) && path != root ==> r == Normalise(root, Some(path))
  {
    match isDir
    case Err(e) => Err(e)
    case Ok(d) =>
      if !d then Err(PathError)
      else if path == root then Err(UnsupportedError)
      else Normalise(root, Some(path))
  }

  /** `removedir("/")` is not refused: `isdir("/")` is true without a request, "/" is
      not the root identifier, and `file_delete` normalises "/" to the root, which is
      therefore deleted. */
  lemma RemoveDirSlashDeletesRoot(root: string)
    requires root != "/"
    ensures RemoveDir(root, "/", IsDirAt("/", None)) == Ok(root)
  {
  }

  /** The root given as a non-directory shows the opposite guard order of the two. */
  lemma RootGuardOrder(root: string)
    ensures Remove(root, root, Ok(false)) == Err(UnsupportedError)
    ensures RemoveDir(root, root, Ok(false)) == Err(PathError)
  {
  }

  /** The `[{"id": dst}]` list `_move` puts under "parents". */
  function ParentsOf(dst: string): Value {
    List([Dict(map["id" := Str(dst)])])
  }

  /** The patch body `_move` builds, as written. `srcInfo` and `dstInfo` are what
      `exists` answered (the metadata, or False). The guard uses `or`, so it only
      refuses when both are missing; with one missing, `_isfile(False)` or
      `False['parents'] = ...` raises TypeError instead, while an empty `{}` source
      passes and is patched. */
  function MovePatchAsWritten(dst: string, srcInfo: Value, dstInfo: Value): (r: Result<Meta>)
    ensures r == Err(PathError) <==>
      (!Truthy(srcInfo) && !Truthy(dstInfo)) || ((Truthy(srcInfo) || Truthy(dstInfo)) && IsNotFolder(dstInfo) == Ok(true))
    ensures r.Ok? <==> (Truthy(srcInfo) || Truthy(dstInfo)) && IsFolder(dstInfo) == Ok(true) && srcInfo.Dict?
    ensures r.Ok? ==> r.value == srcInfo.fields["parents" := ParentsOf(dst)]
  {
    if !(Truthy(srcInfo) || Truthy(dstInfo)) then Err(PathError)
    else
      match IsNotFolder(dstInfo)
      case Err(e) => Err(e)
      case Ok(isFile) =>
        if isFile then Err(PathError)
        else if srcInfo.Dict? then Ok(srcInfo.fields["parents" := ParentsOf(dst)])
        else Err(TypeError)
  }

  /** Moving an existing source into a missing destination raises TypeError, not the
      PathError the guard's message promises and the intended guard raises. */
  lemma MoveMissingDestination(dst: string, srcInfo: Value)
    requires Truthy(srcInfo)
    ensures MovePatchAsWritten(dst, srcInfo, Bool(false)) == Err(TypeError)
    ensures MovePatch(dst, srcInfo, Bool(false)) == Err(PathError)
  {
  }

  /** Moving a missing source into an existing folder raises TypeError at the patch
      step, again instead of PathError. */
  lemma MoveMissingSource(dst: string, dstInfo: Value)
    requires Truthy(dstInfo) && IsFolder(dstInfo) == Ok(true)
    ensures MovePatchAsWritten(dst, Bool(false), dstInfo) == Err(TypeError)
    ensures MovePatch(dst, Bool(false), dstInfo) == Err(PathError)
  {
  }

  /** When both sides exist the written guard and the intended one agree. */
  lemma MovePatchAgrees(dst: string, srcInfo: Value, dstInfo: Value)
    requires Truthy(srcInfo) && Truthy(dstInfo)
    ensures MovePatchAsWritten(dst, srcInfo, dstInfo) == MovePatch(dst, srcInfo, dstInfo)
  {
  }

  /** The patch body `_move` evidently intends: PathError unless both the source and
      the destination exist, PathError when the destination is not a folder, and
      otherwise the source metadata with "parents" replaced by exactly `[{"id": dst}]`
      and every other field kept. */
  function MovePatch(dst: string, srcInfo: Value, dstInfo: Value): (r: Result<Meta>)
    ensures !Truthy(srcInfo) || !Truthy(dstInfo) ==> r == Err(PathError)
    ensures r.Ok? ==> srcInfo.Dict? && IsFolder(dstInfo) == Ok(true)
    ensures r.Ok? ==> r.value.Keys == srcInfo.fields.Keys + {"parents"}
    ensures r.Ok? ==> r.value["parents"] == List([Dict(map["id" := Str(dst)])])
    ensures r.Ok? ==> forall k :: k in srcInfo.fields && k != "parents" ==> r.value[k] == srcInfo.fields[k]
    ensures Truthy(srcInfo) && srcInfo.Dict? && Truthy(dstInfo) && IsFolder(dstInfo) == Ok(true) ==> r.Ok?
  {
    if !(Truthy(srcInfo) && Truthy(dstInfo)) then Err(PathError)
    else
      match IsNotFolder(dstInfo)
      case Err(e) => Err(e)
      case Ok(isFile) =>
        if isFile then Err(PathError)
        else if srcInfo.Dict? then Ok(srcInfo.fields["parents" := ParentsOf(dst)])
        else Err(TypeError)
  }

  /** The commands of `_cloud_command` that pass the provider's reply through without
      touching the cache. */
  datatype Query =
    | ListDir
    | ListDirWithInfo
    | GetFileInfo
    | CreateNewFile
    | FileCreateFolder
    | FileDelete
    | CopyFile

  class GoogleDriveFS {
    const root: string
    const caching: bool
    var cachedFiles: map<string, Meta>

    /** With caching off the cache is, and stays, empty. */
    ghost predicate Valid()
      reads this
    {
      !caching ==> cachedFiles == map[]
    }

    /** `root` is the caller's root, or the "rootFolderId" the about() call answered. */
    constructor (root: Option<string>, aboutRootFolderId: string, caching: bool)
      ensures Valid()
      ensures this.root == root.GetOr(aboutRootFolderId) && this.caching == caching
      ensures cachedFiles == map[]
    {
      this.root := root.GetOr(aboutRootFolderId);
      this.caching := caching;
      cachedFiles := map[];
    }

    /** The pass-through commands: after normalising the path they return the
        provider's reply and leave the cache alone. */
    method Command(cmd: Query, path: Option<string>, reply: Value) returns (r: Result<Value>)
      ensures Normalise(root, path).Err? ==> r == Err(Normalise(root, path).error)
      ensures Normalise(root, path).Ok? ==> r == Ok(reply)
    {
      var key := Normalise(root, path);
      if key.Err? {
        return Err(key.error);
      }
      r := Ok(reply);
    }

    /** `get_file`: a cached entry is used as is and nothing is fetched; on a miss the
        fetched metadata is used and, only with caching on, stored under its own "id".
        `f` is the metadata whose "downloadUrl" is then downloaded. */
    method GetFile(path: Option<string>, fetched: Meta) returns (f: Result<Meta>, didFetch: bool)
      requires Valid()
      modifies this
      ensures Valid()
      ensures match Normalise(root, path)
        case Err(e) => f == Err(e) && !didFetch && cachedFiles == old(cachedFiles)
        case Ok(key) =>
          if key in old(cachedFiles) then
            f == Ok(old(cachedFiles)[key]) && !didFetch && cachedFiles == old(cachedFiles)
          else
            didFetch &&
            if !caching then f == Ok(fetched) && cachedFiles == old(cachedFiles)
            else match IdOf(fetched)
              case Err(e) => f == Err(e) && cachedFiles == old(cachedFiles)
              case Ok(id) => f == Ok(fetched) && cachedFiles == old(cachedFiles)[id := fetched]
    {
      var key := Normalise(root, path);
      if key.Err? {
        return Err(key.error), false;
      }
      if key.value in cachedFiles {
        return Ok(cachedFiles[key.value]), false;
      }
      didFetch := true;
      if caching {
        var id := IdOf(fetched);
        if id.Err? {
          return Err(id.error), true;
        }
        cachedFiles := cachedFiles[id.value := fetched];
      }
      f := Ok(fetched);
    }

    /** `file_rename`: the metadata cached under the normalised path, or else the
        metadata fetched by `fileId`, is sent with its title replaced; the provider's
        answer is returned and, with caching on, stored under the normalised path (not
        under `fileId`). */
    method FileRename(path: Option<string>, fileId: string, title: string, fetched: Meta, updated: Meta)
      returns (r: Result<Meta>, body: Meta, didFetch: bool)
      requires Valid()
      modifies this
      ensures Valid()
      ensures match Normalise(root, path)
        case Err(e) => r == Err(e) && !didFetch && cachedFiles == old(cachedFiles)
        case Ok(key) =>
          && r == Ok(updated)
          && didFetch == (key !in old(cachedFiles))
          && body == (if didFetch then fetched else old(cachedFiles)[key])["title" := Str(title)]
          && cachedFiles == if caching then old(cachedFiles)[key := updated] else old(cachedFiles)
    {
      var key := Normalise(root, path);
      if key.Err? {
        return Err(key.error), map[], false;
      }
      didFetch := key.value !in cachedFiles;
      var f := if didFetch then fetched else cachedFiles[key.value];
      body := f["title" := Str(title)];
      if caching {
        cachedFiles := cachedFiles[key.value := updated];
      }
      r := Ok(updated);
    }

    /** `update_file`: the cached metadata under the normalised path, or else the
        metadata fetched for it, is the body of the content upload; the answer is
        returned and, with caching on, stored under the normalised path. */
    method UpdateFile(path: Option<string>, fetched: Meta, updated: Meta)
      returns (r: Result<Meta>, body: Meta, didFetch: bool)
      requires Valid()
      modifies this
      ensures Valid()
      ensures match Normalise(root, path)
        case Err(e) => r == Err(e) && !didFetch && cachedFiles == old(cachedFiles)
        case Ok(key) =>
          && r == Ok(updated)
          && didFetch == (key !in old(cachedFiles))
          && body == (if didFetch then fetched else old(cachedFiles)[key])
          && cachedFiles == if caching then old(cachedFiles)[key := updated] else old(cachedFiles)
    {
      var key := Normalise(root, path);
      if key.Err? {
        return Err(key.error), map[], false;
      }
      didFetch := key.value !in cachedFiles;
      body := if didFetch then fetched else cachedFiles[key.value];
      if caching {
        cachedFiles := cachedFiles[key.value := updated];
      }
      r := Ok(updated);
    }

    /** `update_file_info`: the patch answer is returned and, with caching on, stored
        under the normalised path. */
    method UpdateFileInfo(path: Option<string>, updated: Meta) returns (r: Result<Meta>)
      requires Valid()
      modifies this
      ensures Valid()
      ensures match Normalise(root, path)
        case Err(e) => r == Err(e) && cachedFiles == old(cachedFiles)
        case Ok(key) =>
          r == Ok(updated) &&
          cachedFiles == if caching then old(cachedFiles)[key := updated] else old(cachedFiles)
    {
      var key := Normalise(root, path);
      if key.Err? {
        return Err(key.error);
      }
      if caching {
        cachedFiles := cachedFiles[key.value := updated];
      }
      r := Ok(updated);
    }

    /** `rename(src, dst)`: the root is refused; otherwise `file_rename` runs with no
        path, so the body sent is the entry cached under the normalised root (or the
        metadata fetched for `src`) retitled `dst`, and the answer is cached under the
        normalised root, not under `src`. */
    method Rename(src: string, dst: string, fetched: Meta, updated: Meta) returns (r: Result<Meta>, body: Meta)
      requires Valid()
      modifies this
      ensures Valid()
      ensures src == root ==> r == Err(UnsupportedError) && cachedFiles == old(cachedFiles)
      ensures src != root ==> match Normalise(root, None)
        case Err(e) => r == Err(e) && cachedFiles == old(cachedFiles)
        case Ok(key) =>
          && r == Ok(updated)
          && body == (if key in old(cachedFiles) then old(cachedFiles)[key] else fetched)["title" := Str(dst)]
          && cachedFiles == if caching then old(cachedFiles)[key := updated] else old(cachedFiles)
    {
      if src == root {
        return Err(UnsupportedError), map[];
      }
      var didFetch;
      r, body, didFetch := FileRename(None, src, dst, fetched, updated);
    }

    /** `_move(src, dst)` as written: the patch body is built (see MovePatchAsWritten)
        and sent with `update_file_info` on the source, whose answer is cached under
        `src`. */
    method Move(src: string, dst: string, srcInfo: Value, dstInfo: Value, updated: Meta)
      returns (r: Result<Meta>, patch: Result<Meta>)
      requires Valid()
      modifies this
      ensures Valid()
      ensures patch == MovePatchAsWritten(dst, srcInfo, dstInfo)
      ensures patch.Err? ==> r == Err(patch.error) && cachedFiles == old(cachedFiles)
      ensures patch.Ok? ==> match Normalise(root, Some(src))
        case Err(e) => r == Err(e) && cachedFiles == old(cachedFiles)
        case Ok(key) =>
          r == Ok(updated) &&
          cachedFiles == if caching then old(cachedFiles)[key := updated] else old(cachedFiles)
    {
      patch := MovePatchAsWritten(dst, srcInfo, dstInfo);
      if patch.Err? {
        return Err(patch.error), patch;
      }
      r := UpdateFileInfo(Some(src), updated);
    }
  }

  /** A client of the class: with caching off, no sequence of commands ever puts an
      entry into the cache, and a repeated `get_file` fetches again. */
  method UncachedSession(root: string, path: string, fetched: Meta, updated: Meta) returns (fs: GoogleDriveFS)
    ensures fs.cachedFiles == map[]
  {
    fs := new GoogleDriveFS(Some(root), "", false);
    var f, didFetch := fs.GetFile(Some(path), fetched);
    var u, body, d2 := fs.UpdateFile(Some(path), fetched, updated);
    var i := fs.UpdateFileInfo(Some(path), updated);
    var n, nb := fs.Rename(path + "x", "title", fetched, updated);
    var f2, again := fs.GetFile(Some(path), fetched);
    assert path != "" ==> again;
  }
}
