/** The SkyDrive file system. Its cache code is the Google Drive one without path
    normalisation: the raw path (or the root when none is given) is the cache key.
    Parent/title resolution for `createfile` and `makedir` is the one in Resolution;
    directory listings are read with Listing ("items", "id"). */
module SkyDrive {
  import opened Values

  /** The root used when the caller gives none. */
  const DefaultRoot: string := "me/skydrive"

  /** `getinfo(path)`: PathError unless `exists(path)`; then the `info(path)` answer. */
  function GetInfo(exists_: bool, info: Value): (r: Result<Value>)
    ensures r.Ok? <==> exists_
    ensures r.Ok? ==> r.value == info
    ensures r.Err? ==> r.error == PathError
  {
    if exists_ then Ok(info) else Err(PathError)
  }

  /** `isdir(path)`: the info's "type" is "folder"; a failed `getinfo` becomes PathError. */
  function IsDirAt(exists_: bool, info: Value): (r: Result<bool>)
    ensures !exists_ ==> r == Err(PathError)
    ensures exists_ ==> r.Ok? == Index(info, "type").Ok?
    ensures r.Ok? ==> (r.value <==> info.fields["type"] == Str("folder"))
  {
    match GetInfo(exists_, info)
    case Err(_) => Err(PathError)
    case Ok(v) =>
      match Index(v, "type")
      case Err(e) => Err(e)
      case Ok(t) => Ok(t == Str("folder"))
  }

  /** `isfile(path)`: the negation of `isdir` on the same info. */
  function IsFileAt(exists_: bool, info: Value): (r: Result<bool>)
    ensures r.Ok? == IsDirAt(exists_, info).Ok?
    ensures r.Ok? ==> r.value == !IsDirAt(exists_, info).value
    ensures r.Err? ==> r.error == IsDirAt(exists_, info).error
  {
    match GetInfo(exists_, info)
    case Err(_) => Err(PathError)
    case Ok(v) =>
      match Index(v, "type")
      case Err(e) => Err(e)
      case Ok(t) => Ok(t != Str("folder"))
  }

  /** `remove(path)`: the root is refused (UnsupportedError) before the directory test
      (PathError); otherwise the path itself is deleted. */
  function Remove(root: string, path: string, isDir: Result<bool>): (r: Result<string>)
    ensures path == root ==> r == Err(UnsupportedError)
    ensures path != root && isDir.Err? ==> r == Err(isDir.error)
    ensures path != root && isDir == Ok(true) ==> r == Err(PathError)
    ensures r.Ok? <==> path != root && isDir == Ok(false)
    ensures r.Ok? ==> r.value == path
  {
    if path == root then Err(UnsupportedError)
    else
      match isDir
      case Err(e) => Err(e)
      case Ok(d) => if d then Err(PathError) else Ok(path)
  }

  /** `removedir(path)`: the directory test (PathError) comes before the root refusal
      (UnsupportedError). */
  function RemoveDir(root: string, path: string, isDir: Result<bool>): (r: Result<string>)
    ensures isDir.Err? ==> r == Err(isDir.error)
    ensures isDir == Ok(false) ==> r == Err(PathError)
    ensures isDir == Ok(true) && path == root ==> r == Err(UnsupportedError)
    ensures r.Ok? <==> path != root && isDir == Ok(true)
    ensures r.Ok? ==> r.value == path
  {
    match isDir
    case Err(e) => Err(e)
    case Ok(d) =>
      if !d then Err(PathError)
      else if path == root then Err(UnsupportedError)
      else Ok(path)
  }

  /** `rename(src, dst)`: the root is refused; otherwise `info_update(src, {"name": dst})`
      is issued, returned here as its two arguments. */
  function Rename(root: string, src: string, dst: string): (r: Result<(string, Meta)>)
    ensures r.Ok? <==> src != root
    ensures r.Ok? ==> r.value == (src, map["name" := Str(dst)])
    ensures r.Err? ==> r.error == UnsupportedError
  {
    if src == root then Err(UnsupportedError) else Ok((src, map["name" := Str(dst)]))
  }

  /** The commands of `_cloud_command` that leave the cache alone. */
  datatype Query =
    | ListDir
    | ListDirWithInfo
    | GetFileInfo
    | CreateNewFile
    | FileCreateFolder
    | FileDelete
    | FileMove

  class SkyDriveFS {
    const root: string
    const caching: bool
    var cachedFiles: map<string, Meta>

    /** With caching off the cache is, and stays, empty. */
    ghost predicate Valid()
      reads this
    {
      !caching ==> cachedFiles == map[]
    }

    /** The root defaults to "me/skydrive". */
    constructor (root: Option<string>, caching: bool)
      ensures Valid()
      ensures this.root == (if root.Some? then root.value else DefaultRoot)
      ensures this.caching == caching && cachedFiles == map[]
    {
      this.root := root.GetOr(DefaultRoot);
      this.caching := caching;
      cachedFiles := map[];
    }

    /** The pass-through commands return the provider's reply; `file_move` calls a
        `self.client` the class never sets, which raises AttributeError. */
    method Command(cmd: Query, reply: Value) returns (r: Result<Value>)
      ensures cmd == FileMove ==> r == Err(AttributeError)
      ensures cmd != FileMove ==> r == Ok(reply)
    {
      if cmd == FileMove {
        return Err(AttributeError);
      }
      r := Ok(reply);
    }

    /** `get_file`: the raw path is the key. A cached entry is used and nothing is
        fetched; on a miss the fetched metadata is used and, only with caching on,
        stored under its own "id". */
    method GetFile(path: Option<string>, fetched: Meta) returns (f: Result<Meta>, didFetch: bool)
      requires Valid()
      modifies this
      ensures Valid()
      ensures var key := path.GetOr(root);
        if key in old(cachedFiles) then
          f == Ok(old(cachedFiles)[key]) && !didFetch && cachedFiles == old(cachedFiles)
        else
          didFetch &&
          if !caching then f == Ok(fetched) && cachedFiles == old(cachedFiles)
          else match IdOf(fetched)
            case Err(e) => f == Err(e) && cachedFiles == old(cachedFiles)
            case Ok(id) => f == Ok(fetched) && cachedFiles == old(cachedFiles)[id := fetched]
    {
      var key := path.GetOr(root);
      if key in cachedFiles {
        return Ok(cachedFiles[key]), false;
      }
      didFetch := true;
      if caching {
        var id := IdOf(fetched);
        if id.Err? {
          return Err(id.error), true;
        }
        cachedFiles := cachedFiles[id.value := fetched];
      }
      f := Ok(fetched);
    }

    /** `file_rename`: the entry cached under the raw path, or else the metadata fetched
        by `fileId`, is sent with its title replaced; the answer is stored under the raw
        path when caching. */
    method FileRename(path: Option<string>, fileId: string, title: string, fetched: Meta, updated: Meta)
      returns (r: Meta, body: Meta, didFetch: bool)
      requires Valid()
      modifies this
      ensures Valid()
      ensures var key := path.GetOr(root);
        && r == updated
        && didFetch == (key !in old(cachedFiles))
        && body == (if didFetch then fetched else old(cachedFiles)[key])["title" := Str(title)]
        && cachedFiles == if caching then old(cachedFiles)[key := updated] else old(cachedFiles)
    {
      var key := path.GetOr(root);
      didFetch := key !in cachedFiles;
      var f := if didFetch then fetched else cachedFiles[key];
      body := f["title" := Str(title)];
      if caching {
        cachedFiles := cachedFiles[key := updated];
      }
      r := updated;
    }

    /** `update_file`: on a miss the metadata is fetched and used as the upload body but
        not stored; only the provider's answer is stored, under the raw path, and only
        when caching. */
    method UpdateFile(path: Option<string>, fetched: Meta, updated: Meta)
      returns (r: Meta, body: Meta, didFetch: bool)
      requires Valid()
      modifies this
      ensures Valid()
      ensures var key := path.GetOr(root);
        && r == updated
        && didFetch == (key !in old(cachedFiles))
        && body == (if didFetch then fetched else old(cachedFiles)[key])
        && cachedFiles == if caching then old(cachedFiles)[key := updated] else old(cachedFiles)
    {
      var key := path.GetOr(root);
      didFetch := key !in cachedFiles;
      body := if didFetch then fetched else cachedFiles[key];
      if caching {
        cachedFiles := cachedFiles[key := updated];
      }
      r := updated;
    }
  }
}
