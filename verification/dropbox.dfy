/** The Dropbox file system, addressed by paths. Its root is whatever the caller gave,
    possibly nothing (None), and `is_root(path)` compares the path with it. Existence
    and the metadata the provider answers are oracles passed in. */
module Dropbox {
  import opened Values
  import Listing
  import Resolution

  /** `is_root(path)`: the path equals the root; with no root, no path does. */
  predicate IsRoot(root: Option<string>, path: string) {
    root == Some(path)
  }

  /** `createfile(path, wipe)`, checked in order: the root is refused (PathError); an
      existing path without `wipe` is refused (PathError); an existing directory is
      refused (UnsupportedError), where `isDir` is what `isdir(path)` answers or raises
      and Python's truthiness decides. Otherwise the path is uploaded with empty
      content and overwrite on, and the path is the result. */
  function CreateFileGuard(root: Option<string>, path: string, wipe: bool, present: bool, isDir: Result<Value>)
    : (r: Result<string>)
    ensures IsRoot(root, path) ==> r == Err(PathError)
    ensures !IsRoot(root, path) && present && !wipe ==> r == Err(PathError)
    ensures !IsRoot(root, path) && present && wipe && isDir.Err? ==> r == Err(isDir.error)
    ensures !IsRoot(root, path) && present && wipe && isDir.Ok? && Truthy(isDir.value) ==>
      r == Err(UnsupportedError)
    ensures r.Ok? <==>
      !IsRoot(root, path) && (!present || (wipe && isDir.Ok? && !Truthy(isDir.value)))
    ensures r.Ok? ==> r.value == path
  {
    if IsRoot(root, path) then Err(PathError)
    else if present && !wipe then Err(PathError)
    else if present then
      match isDir
      case Err(e) => Err(e)
      case Ok(d) => if Truthy(d) then Err(UnsupportedError) else Ok(path)
    else Ok(path)
  }

  /** `makedir(path, recursive, allow_recreate)`, checked in order: the root, a failing
      `_checkRecursive`, and an existing path without `allow_recreate` are all refused
      with UnsupportedError. Otherwise `create_folder` is issued on the path. */
  function MakeDirGuard(root: Option<string>, path: string, recursive: bool, allowRecreate: bool,
                        present: string -> bool): (r: Result<string>)
    ensures r.Ok? <==>
      && !IsRoot(root, path)
      && Resolution.CheckRecursive(recursive, path, present)
      && (allowRecreate || !present(path))
    ensures r.Ok? ==> r.value == path
    ensures r.Err? ==> r.error == UnsupportedError
  {
    if IsRoot(root, path) then Err(UnsupportedError)
    else if !Resolution.CheckRecursive(recursive, path, present) then Err(UnsupportedError)
    else if !allowRecreate && present(path) then Err(UnsupportedError)
    else Ok(path)
  }

  /** A non-recursive `makedir` of `p/t` whose parent `p` is missing is refused even when
      `t` itself could be created. */
  lemma MakeDirNeedsParent(root: Option<string>, p: string, t: string, allowRecreate: bool,
                           present: string -> bool)
    requires '/' !in t
    requires !IsRoot(root, p + "/" + t)
    ensures MakeDirGuard(root, p + "/" + t, false, allowRecreate, present).Ok? <==>
      present(p) && (allowRecreate || !present(p + "/" + t))
  {
    Resolution.CheckRecursiveSpec(false, p, t, present);
  }

  /** `getinfo(path)`: the metadata with the "contents" key deleted, when present;
      `has_key` on anything but a dictionary raises AttributeError. */
  method GetInfo(metadata: Value) returns (r: Result<Value>)
    ensures r.Ok? <==> metadata.Dict?
    ensures r.Err? ==> r.error == AttributeError
    ensures r.Ok? ==> r.value.Dict? && r.value.fields.Keys == metadata.fields.Keys - {"contents"}
    ensures r.Ok? ==> forall k :: k in r.value.fields ==> r.value.fields[k] == metadata.fields[k]
  {
    if !metadata.Dict? {
      return Err(AttributeError);
    }
    var fields := metadata.fields;
    if "contents" in fields {
      fields := fields - {"contents"};
    }
    r := Ok(Dict(fields));
  }

  /** `isdir(path)`: a failing `getinfo` becomes PathError; otherwise the metadata's
      "is_dir" value as it is. */
  function IsDir(info: Result<Value>): (r: Result<Value>)
    ensures info.Err? ==> r == Err(PathError)
    ensures info.Ok? ==> r == Index(info.value, "is_dir")
  {
    match info
    case Err(_) => Err(PathError)
    case Ok(v) => Index(v, "is_dir")
  }

  /** `isfile(path)`: `not info['is_dir']`, the Boolean negation of `isdir` on the same
      metadata. */
  function IsFile(info: Result<Value>): (r: Result<Value>)
    ensures r.Ok? == IsDir(info).Ok?
    ensures r.Ok? ==> r == Ok(Bool(!Truthy(IsDir(info).value)))
    ensures r.Err? ==> r.error == IsDir(info).error
  {
    match IsDir(info)
    case Err(e) => Err(e)
    case Ok(d) => Ok(Bool(!Truthy(d)))
  }

  /** `rename(src, dst)`: refused when either side is the root; otherwise `file_move`
      from `src` to `dst` is issued. */
  function Rename(root: Option<string>, src: string, dst: string): (r: Result<(string, string)>)
    ensures r.Ok? <==> !IsRoot(root, src) && !IsRoot(root, dst)
    ensures r.Ok? ==> r.value == (src, dst)
    ensures r.Err? ==> r.error == UnsupportedError
  {
    if IsRoot(root, src) || IsRoot(root, dst) then Err(UnsupportedError) else Ok((src, dst))
  }

  /** `remove(path)`: the root is refused; otherwise `file_delete` runs on the path. */
  function Remove(root: Option<string>, path: string): (r: Result<string>)
    ensures r.Ok? <==> !IsRoot(root, path)
    ensures r.Ok? ==> r.value == path
    ensures r.Err? ==> r.error == UnsupportedError
  {
    if IsRoot(root, path) then Err(UnsupportedError) else Ok(path)
  }

  /** `removedir(path)`: not a directory (by truthiness of `isdir`) is PathError, then
      the root is refused, then `remove`. */
  function RemoveDir(root: Option<string>, path: string, isDir: Result<Value>): (r: Result<string>)
    ensures isDir.Err? ==> r == Err(isDir.error)
    ensures isDir.Ok? && !Truthy(isDir.value) ==> r == Err(PathError)
    ensures isDir.Ok? && Truthy(isDir.value) ==> r == Remove(root, path)
    ensures r.Ok? <==> isDir.Ok? && Truthy(isDir.value) && !IsRoot(root, path)
  {
    match isDir
    case Err(e) => Err(e)
    case Ok(d) => if !Truthy(d) then Err(PathError) else Remove(root, path)
  }

  /** The commands `_cloud_command` knows; `Unknown` stands for any other name. */
  datatype Query =
    | Metadata
    | CreateFolder
    | FileDelete
    | FileMove
    | FileRename
    | PutFile
    | Unknown

  /** `_cloud_command(cmd, path=...)`: the path defaults to "/"; a known command answers
      the client's reply for that path, an unknown one answers None. */
  method Command(cmd: Query, path: Option<string>, reply: Value) returns (r: Value, target: string)
    ensures target == path.GetOr("/")
    ensures path.None? ==> target == "/"
    ensures r == (if cmd == Unknown then Null else reply)
  {
    target := path.GetOr("/");
    if cmd == Unknown {
      return Null, target;
    }
    r := reply;
  }

  /** `_get_dir_list_from_service`: the "path" of every "contents" entry, in order. */
  method DirListing(metadata: Value) returns (r: Result<seq<Value>>)
    ensures r == Listing.DirListSpec(metadata, "contents", "path")
  {
    r := Listing.DirList(metadata, "contents", "path");
  }

  /** The `getinfo(p)` helper of `listdirinfo`: the first "contents" entry whose "path"
      is `p`, else `{}`. */
  method LookupPath(metadata: Value, p: Value) returns (r: Result<Value>)
    ensures r == Listing.LookupSpec(metadata, "contents", "path", p)
  {
    r := Listing.LookupInfo(metadata, "contents", "path", p);
  }
}
