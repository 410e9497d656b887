/** How the identifier-addressed file systems (Google Drive and SkyDrive) turn a
    "/"-separated path into a parent identifier and a title for `createfile` and
    `makedir`, and the `_checkRecursive` test of the path-addressed ones (Dropbox and
    the older Google Drive class). Existence checks on the remote are oracles passed
    in as values. */
module Resolution {
  import opened Values
  import opened Strings

  /** The folder a new object goes into, and its title. */
  datatype Target = Target(parent: string, title: string)

  /** The (parent, title) pair `createfile` picks. `parentExists` is what
      `exists(parts[0])` answers; it is only consulted for a two-segment path. */
  function CreateTarget(root: string, path: string, parentExists: bool): (r: Result<Target>)
    ensures r.Ok? ==> '/' !in r.value.title
    ensures r.Ok? && r.value.parent != root ==> '/' !in r.value.parent && r.value.parent != ""
    ensures r.Err? ==> r.error == IndexError || (r.error == PathError && !parentExists)
  {
    var parts := Split(path, "/");
    SplitPiecesFree(path, "/");
    if parts[0] == "" then
      if |parts| < 2 then Err(IndexError)
      else
        ContainsChar(parts[1], '/');
        Ok(Target(root, parts[1]))
    else if |parts| == 2 then
      ContainsChar(parts[0], '/');
      ContainsChar(parts[1], '/');
      if parentExists then Ok(Target(parts[0], parts[1])) else Err(PathError)
    else
      ContainsChar(parts[0], '/');
      Ok(Target(root, parts[0]))
  }

  /** A path with a leading "/" names its first segment as a title under the root;
      anything after a further "/" is ignored. */
  lemma CreateTargetRooted(root: string, t: string, tail: string, parentExists: bool)
    requires '/' !in t
    requires tail == "" || tail[0] == '/'
    ensures CreateTarget(root, "/" + t + tail, parentExists) == Ok(Target(root, t))
  {
    Regroup("/", t, tail);
    LeadingSlash(t + tail);
    FirstSegment(t, tail);
  }

  /** A leading "/" makes the first piece empty. */
  lemma LeadingSlash(s: string)
    ensures Split("/" + s, "/") == [""] + Split(s, "/")
  {
    assert "/" + s == "" + ['/'] + s;
    SplitCons("", '/', s);
  }

  /** The first piece of `t + tail` is `t` when `tail` is empty or starts with "/". */
  lemma FirstSegment(t: string, tail: string)
    requires '/' !in t
    requires tail == "" || tail[0] == '/'
    ensures Split(t + tail, "/")[0] == t
  {
    if tail == "" {
      assert t + tail == t;
      NoCharNoSep(t, '/');
      SplitNoSep(t, "/");
    } else {
      assert t + tail == t + ['/'] + tail[1..];
      SplitCons(t, '/', tail[1..]);
    }
  }

  /** `parent/title` names an existing parent, or raises PathError. */
  lemma CreateTargetUnderParent(root: string, p: string, t: string, parentExists: bool)
    requires p != "" && '/' !in p && '/' !in t
    ensures CreateTarget(root, p + "/" + t, parentExists) ==
      if parentExists then Ok(Target(p, t)) else Err(PathError)
  {
    SplitCons(p, '/', t);
    NoCharNoSep(t, '/');
    SplitNoSep(t, "/");
  }

  /** A bare title goes under the root. */
  lemma CreateTargetBare(root: string, t: string, parentExists: bool)
    requires t != "" && '/' !in t
    ensures CreateTarget(root, t, parentExists) == Ok(Target(root, t))
  {
    NoCharNoSep(t, '/');
    SplitNoSep(t, "/");
  }

  /** A path with a non-empty first segment and two or more "/" puts its first segment,
      as a title, under the root: the rest of the path is ignored and nothing is checked. */
  lemma CreateTargetDeep(root: string, p: string, a: string, b: string, parentExists: bool)
    requires p != "" && '/' !in p && '/' !in a
    ensures CreateTarget(root, p + "/" + a + "/" + b, parentExists) == Ok(Target(root, p))
  {
    assert p + "/" + a + "/" + b == p + ['/'] + (a + ['/'] + b);
    SplitCons(p, '/', a + ['/'] + b);
    SplitCons(a, '/', b);
  }

  /** The empty path has no title: `parts[1]` raises IndexError. */
  lemma CreateTargetEmpty(root: string, parentExists: bool)
    ensures CreateTarget(root, "", parentExists) == Err(IndexError)
  {
    NoCharNoSep("", '/');
    SplitNoSep("", "/");
  }

  /** One folder-creation request: the parent identifier (a reply's "id" for chained
      requests) and the title. */
  datatype FolderRequest = FolderRequest(parent: Value, title: string)

  /** What `makedir` decides to do before contacting the provider: one folder, or a
      chain of folders each created inside the previous one. */
  datatype Plan = Single(request: FolderRequest) | Chain(first: Value, titles: seq<string>)

  /** The branch structure of `makedir`. `parentExists` answers `exists(parts[0])`,
      asked only when the first segment is non-empty and there are two or more. */
  function MakeDirPlan(root: string, path: string, recursive: bool, parentExists: bool): (r: Result<Plan>)
    ensures r.Err? ==> r.error == PathError || r.error == UnsupportedError
    ensures r.Ok? && r.value.Chain? ==> recursive && |r.value.titles| >= 2
    ensures r.Ok? && r.value.Chain? ==> forall k :: 0 <= k < |r.value.titles| ==> '/' !in r.value.titles[k]
    ensures r.Ok? && r.value.Single? ==> '/' !in r.value.request.title
  {
    var parts := Split(path, "/");
    SplitPiecesFree(path, "/");
    if parts[0] != "" && |parts| >= 2 && !parentExists then Err(PathError)
    else
      var parent := if parts[0] == "" then root else parts[0];
      if |parts| > 2 then
        if recursive then
          assert forall k :: 0 <= k < |parts| - 1 ==> parts[1..][k] == parts[k + 1];
          forall k | 0 <= k < |parts| - 1 ensures '/' !in parts[1..][k] {
            ContainsChar(parts[k + 1], '/');
          }
          Ok(Chain(Str(parent), parts[1..]))
        else Err(UnsupportedError)
      else if |parts| == 1 then
        ContainsChar(parts[0], '/');
        Ok(Single(FolderRequest(Str(root), parts[0])))
      else
        ContainsChar(parts[1], '/');
        Ok(Single(FolderRequest(Str(parent), parts[1])))
  }

  /** A one- or two-segment path under the root ("t" or "/t") creates one folder there. */
  lemma MakeDirRooted(root: string, t: string, leading: bool, recursive: bool, parentExists: bool)
    requires '/' !in t
    ensures MakeDirPlan(root, if leading then "/" + t else t, recursive, parentExists) ==
      Ok(Single(FolderRequest(Str(root), t)))
  {
    NoCharNoSep(t, '/');
    SplitNoSep(t, "/");
    if leading {
      SplitCons("", '/', t);
      assert "/" + t == "" + ['/'] + t;
    }
  }

  /** `parent/title` creates one folder in an existing parent, or raises PathError. */
  lemma MakeDirUnderParent(root: string, p: string, t: string, recursive: bool, parentExists: bool)
    requires p != "" && '/' !in p && '/' !in t
    ensures MakeDirPlan(root, p + "/" + t, recursive, parentExists) ==
      if parentExists then Ok(Single(FolderRequest(Str(p), t))) else Err(PathError)
  {
    SplitCons(p, '/', t);
    NoCharNoSep(t, '/');
    SplitNoSep(t, "/");
  }

  /** `start/t1/.../tn` with n >= 2 (start empty meaning the root) creates the chain
      t1, ..., tn when `recursive`, and raises UnsupportedError otherwise; a non-empty
      start must exist first. */
  lemma MakeDirNested(root: string, start: string, ts: seq<string>, recursive: bool, parentExists: bool)
    requires '/' !in start
    requires |ts| >= 2 && forall k :: 0 <= k < |ts| ==> '/' !in ts[k]
    ensures MakeDirPlan(root, start + "/" + Join(ts, "/"), recursive, parentExists) ==
      if start != "" && !parentExists then Err(PathError)
      else if !recursive then Err(UnsupportedError)
      else Ok(Chain(Str(if start == "" then root else start), ts))
  {
    SplitCons(start, '/', Join(ts, "/"));
    SplitJoin(ts, '/');
    assert ([start] + ts)[1..] == ts;
  }

  /** `requests` and `err` are what creating the folders `titles` one inside the other
      produces, starting in `first`: the i-th request goes into the folder whose "id"
      the (i-1)-th reply carries, and a reply without a usable "id" stops the chain
      with that error. */
  predicate ChainIssued(first: Value, titles: seq<string>, replies: seq<Value>,
                        requests: seq<FolderRequest>, err: Option<Error>)
    requires |replies| >= |titles|
  {
    && 1 <= |requests| <= |titles|
    && requests[0].parent == first
    && (forall i :: 0 <= i < |requests| ==> requests[i].title == titles[i])
    && (forall i :: 0 < i < |requests| ==> Index(replies[i - 1], "id") == Ok(requests[i].parent))
    && (err.None? ==> |requests| == |titles| && Index(replies[|titles| - 1], "id").Ok?)
    && (err.Some? ==> Index(replies[|requests| - 1], "id") == Err(err.value))
  }

  /** The `for i in range(len(parts) - 1)` loop of recursive `makedir`. */
  method CreateChain(first: Value, titles: seq<string>, replies: seq<Value>)
    returns (requests: seq<FolderRequest>, err: Option<Error>)
    requires 1 <= |titles| <= |replies|
    ensures ChainIssued(first, titles, replies, requests, err)
  {
    var parent := first;
    requests := [];
    var i := 0;
    while i < |titles|
      invariant 0 <= i <= |titles| && |requests| == i
      invariant i == 0 ==> parent == first
      invariant i > 0 ==> requests[0].parent == first && Index(replies[i - 1], "id") == Ok(parent)
      invariant forall k :: 0 <= k < i ==> requests[k].title == titles[k]
      invariant forall k :: 0 < k < i ==> Index(replies[k - 1], "id") == Ok(requests[k].parent)
    {
      requests := requests + [FolderRequest(parent, titles[i])];
      var id := Index(replies[i], "id");
      if id.Err? {
        return requests, Some(id.error);
      }
      parent := id.value;
      i := i + 1;
    }
    err := None;
  }

  /** The requests `makedir` issues and the error it ends with, if any. `replies[i]` is
      the provider's answer to the i-th folder creation. */
  method MakeDir(root: string, path: string, recursive: bool, parentExists: bool, replies: seq<Value>)
    returns (requests: seq<FolderRequest>, err: Option<Error>)
    requires |replies| >= |Split(path, "/")| - 1
    ensures MakeDirPlan(root, path, recursive, parentExists).Err? ==>
      requests == [] && err == Some(MakeDirPlan(root, path, recursive, parentExists).error)
    ensures MakeDirPlan(root, path, recursive, parentExists).Ok? ==>
      match MakeDirPlan(root, path, recursive, parentExists).value
      case Single(q) => requests == [q] && err == None
      case Chain(first, titles) => |replies| >= |titles| && ChainIssued(first, titles, replies, requests, err)
  {
    var plan := MakeDirPlan(root, path, recursive, parentExists);
    if plan.Err? {
      return [], Some(plan.error);
    }
    match plan.value
    case Single(q) =>
      return [q], None;
    case Chain(first, titles) =>
      assert titles == Split(path, "/")[1..];
      requests, err := CreateChain(first, titles, replies);
  }

  /** "/".join(path.split("/")[:-1]): the path with its last segment removed. */
  function ParentPath(path: string): string {
    var parts := Split(path, "/");
    Join(parts[..|parts| - 1], "/")
  }

  /** The parent path is everything before the last "/", or "" when there is none. */
  lemma ParentPathSpec(p: string, t: string)
    requires '/' !in t
    ensures ParentPath(p + "/" + t) == p
    ensures '/' !in p ==> ParentPath(p) == ""
  {
    SplitSnoc(p, '/', t);
    var parts := Split(p + "/" + t, "/");
    assert parts[..|parts| - 1] == Split(p, "/");
    JoinSplit(p, "/");
    if '/' !in p {
      NoCharNoSep(p, '/');
      SplitNoSep(p, "/");
    }
  }

  /** `_checkRecursive(recursive, path)`: the folder may be created when its parent path
      exists or creation is recursive. Under Python 2 `parts < 3` compares a list with
      an int, which is always false, so its early return is never taken. */
  function CheckRecursive(recursive: bool, path: string, present: string -> bool): bool {
    if present(ParentPath(path)) then true
    else recursive
  }

  /** `_checkRecursive` on `p/t` asks only whether `p` exists. */
  lemma CheckRecursiveSpec(recursive: bool, p: string, t: string, present: string -> bool)
    requires '/' !in t
    ensures CheckRecursive(recursive, p + "/" + t, present) == (present(p) || recursive)
    ensures '/' !in p ==> CheckRecursive(recursive, p, present) == (present("") || recursive)
  {
    ParentPathSpec(p, t);
  }
}
