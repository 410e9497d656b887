/** `CloudServiceFactory.get_fs(uri, user)`: a URI "service://root" picks the file
    system class and the user's stored credentials for that service. Building the
    Dropbox file system (its OAuth flow) is not part of this model: the result names
    the class and the arguments it is built with. */
module ServiceFactory {
  import opened Values
  import opened Strings

  const Sep: string := "://"

  /** The file system `get_fs` builds, with the root and credentials it passes. */
  datatype Filesystem =
    | DropboxFs(root: Option<string>, credentials: Value)
    | GoogleDriveFs(root: Option<string>, credentials: Value)
    | SkyDriveFs(root: Option<string>, credentials: Value)

  /** `dict.get(key, {})` on a value that must be a dictionary. */
  function GetOrEmpty(d: Value, key: string): (r: Result<Value>)
    ensures r.Ok? <==> d.Dict?
    ensures r.Err? ==> r.error == AttributeError
    ensures r.Ok? ==> r.value == if key in d.fields then d.fields[key] else Dict(map[])
  {
    if !d.Dict? then Err(AttributeError)
    else if key in d.fields then Ok(d.fields[key]) else Ok(Dict(map[]))
  }

  /** `user["cloudutils_settings"][service]`, defaulting to `{}` at each level; `.get`
      on a user or settings value that is not a dictionary raises AttributeError. */
  function Credentials(service: string, user: Value): (r: Result<Value>)
    ensures user.Dict? && "cloudutils_settings" !in user.fields ==> r == Ok(Dict(map[]))
    ensures user.Dict? && "cloudutils_settings" in user.fields ==>
      var settings := user.fields["cloudutils_settings"];
      && (r.Ok? <==> settings.Dict?)
      && (settings.Dict? && service in settings.fields ==> r == Ok(settings.fields[service]))
      && (settings.Dict? && service !in settings.fields ==> r == Ok(Dict(map[])))
    ensures !user.Dict? ==> r.Err?
    ensures r.Err? ==> r.error == AttributeError
  {
    match GetOrEmpty(user, "cloudutils_settings")
    case Err(e) => Err(e)
    case Ok(settings) => GetOrEmpty(settings, service)
  }

  /** The if-chain of `get_fs` once the URI is split: only Dropbox receives the root;
      Google Drive and SkyDrive are built with no root; any other name gives None.
      The credentials are looked up before the chain, whatever the name. */
  function Dispatch(service: string, root: string, user: Value): (r: Result<Option<Filesystem>>)
    ensures Credentials(service, user).Err? ==> r == Err(Credentials(service, user).error)
    ensures Credentials(service, user).Ok? ==> r.Ok?
    ensures r.Ok? && r.value.Some? ==> r.value.value.credentials == Credentials(service, user).value
    ensures r.Ok? ==> (r.value.Some? <==> service in {"dropbox", "google_drive", "sky_drive"})
    ensures r.Ok? && service == "dropbox" ==> r.value.value.DropboxFs? && r.value.value.root == Some(root)
    ensures r.Ok? && service == "google_drive" ==> r.value.value.GoogleDriveFs? && r.value.value.root.None?
    ensures r.Ok? && service == "sky_drive" ==> r.value.value.SkyDriveFs? && r.value.value.root.None?
  {
    match Credentials(service, user)
    case Err(e) => Err(e)
    case Ok(c) =>
      if service == "dropbox" then Ok(Some(DropboxFs(Some(root), c)))
      else if service == "google_drive" then Ok(Some(GoogleDriveFs(None, c)))
      else if service == "sky_drive" then Ok(Some(SkyDriveFs(None, c)))
      else Ok(None)
  }

  /** `get_fs(uri, user)`: the service name is the first "://"-piece and the root the
      second; a URI without "://" has no second piece and raises IndexError before the
      user is looked at. */
  function GetFs(uri: string, user: Value): (r: Result<Option<Filesystem>>)
    ensures (r.Err? && r.error == IndexError) <==> !Contains(uri, Sep)
  {
    var parts := Split(uri, Sep);
    if |parts| < 2 then Err(IndexError)
    else Dispatch(parts[0], parts[1], user)
  }

  /** "://" cannot overlap itself, so in `a + "://" + b` with no "://" inside `a` the
      first occurrence is the one after `a`. */
  lemma SplitAfterFree(a: string, b: string)
    requires !Contains(a, Sep)
    ensures Split(a + Sep + b, Sep) == [a] + Split(b, Sep)
  {
    var s := a + Sep + b;
    assert SepAt(s, Sep, |a|) by {
      assert s[|a|..|a| + 3] == Sep;
    }
    forall j: nat | j < |a| ensures !SepAt(s, Sep, j) {
      if j + 3 <= |a| {
        assert s[j..j + 3] == a[j..j + 3];
        assert !SepAt(a, Sep, j);
      } else if j + 1 == |a| {
        assert s[j..j + 3][1] == s[|a|] == ':';
        assert s[j..j + 3][1] != Sep[1];
      } else {
        assert s[j..j + 3][2] == s[|a|] == ':';
        assert s[j..j + 3][2] != Sep[2];
      }
    }
    assert FirstSep(s, Sep) == Some(|a|);
    assert s[..|a|] == a;
    assert s[|a| + 3..] == b;
  }

  /** The first piece of `root + rest` is `root` when `rest` is empty or starts with
      "://". */
  lemma FirstPiece(root: string, rest: string)
    requires !Contains(root, Sep)
    requires rest == [] || (|rest| >= 3 && rest[..3] == Sep)
    ensures Split(root + rest, Sep)[0] == root
  {
    if rest == [] {
      assert root + rest == root;
      SplitNoSep(root, Sep);
    } else {
      assert rest == Sep + rest[3..];
      assert root + rest == root + Sep + rest[3..];
      SplitAfterFree(root, rest[3..]);
    }
  }

  /** A URI "service://root" followed by nothing or by a further "://..." is dispatched
      on `service` with `root`; whatever follows a second "://" is dropped. */
  lemma GetFsParses(service: string, root: string, rest: string, user: Value)
    requires !Contains(service, Sep) && !Contains(root, Sep)
    requires rest == [] || (|rest| >= 3 && rest[..3] == Sep)
    ensures GetFs(service + Sep + root + rest, user) == Dispatch(service, root, user)
  {
    var uri := service + Sep + root + rest;
    assert uri == service + Sep + (root + rest);
    SplitAfterFree(service, root + rest);
    FirstPiece(root, rest);
  }

  /** Any service name other than the three known ones gives None once the
      credentials look-up succeeds; the look-up is still made and its error is the
      result. */
  lemma UnknownService(service: string, root: string, user: Value)
    requires !Contains(service, Sep)
    requires service != "dropbox" && service != "google_drive" && service != "sky_drive"
    ensures GetFs(service + Sep + root, user).Ok? <==> Credentials(service, user).Ok?
    ensures GetFs(service + Sep + root, user).Ok? ==> GetFs(service + Sep + root, user).value.None?
  {
    SplitAfterFree(service, root);
  }
}
