/** Reading directory listings returned by the providers: the identifier list built by
    every `_get_dir_list_from_service`, and the first-match lookup inside every
    `listdirinfo`. Google Drive and SkyDrive list entries under "items" and name them
    by "id"; Dropbox lists them under "contents" and names them by "path". */
module Listing {
  import opened Values

  /** The elements a `for one in v` loop hands to a body that starts with
      `one[<string key>]`. A list hands over its elements. An empty string or dictionary
      runs the body zero times. A non-empty string or dictionary hands over strings,
      which cannot be indexed by a string key (TypeError), and any other value is not
      iterable (TypeError). */
  function LoopItems(v: Value): (r: Result<seq<Value>>)
    ensures v.List? ==> r == Ok(v.elems)
    ensures r.Ok? <==> v.List? || v == Str("") || v == Dict(map[])
    ensures r.Err? ==> r.error == TypeError
    ensures r.Ok? && !v.List? ==> r.value == []
  {
    match v
    case List(xs) => Ok(xs)
    case _ => if v == Str("") || v == Dict(map[]) then Ok([]) else Err(TypeError)
  }

  /** `[one[field] for one in items]`, evaluated left to right: the first entry that is
      not a dictionary, or lacks the field, decides the error. */
  function Project(items: seq<Value>, field: string): Result<seq<Value>>
    decreases |items|
  {
    if items == [] then Ok([])
    else
      match Project(items[..|items| - 1], field)
      case Err(e) => Err(e)
      case Ok(vs) =>
        match Index(items[|items| - 1], field)
        case Err(e) => Err(e)
        case Ok(v) => Ok(vs + [v])
  }

  /** Projection keeps order and length, and fails exactly at the first bad entry. */
  lemma {:induction false} ProjectSpec(items: seq<Value>, field: string)
    ensures Project(items, field).Ok? <==> forall k :: 0 <= k < |items| ==> Index(items[k], field).Ok?
    ensures Project(items, field).Ok? ==>
      |Project(items, field).value| == |items| &&
      forall k :: 0 <= k < |items| ==> Project(items, field).value[k] == items[k].fields[field]
    ensures Project(items, field).Err? ==>
      exists k :: 0 <= k < |items| && Index(items[k], field) == Err(Project(items, field).error) &&
        forall j :: 0 <= j < k ==> Index(items[j], field).Ok?
    decreases |items|
  {
    if items != [] {
      var n := |items| - 1;
      var init := items[..n];
      ProjectSpec(init, field);
      assert forall k :: 0 <= k < n ==> init[k] == items[k];
      match Project(init, field)
      case Err(e) =>
        var k :| 0 <= k < |init| && Index(init[k], field) == Err(e) &&
          forall j :: 0 <= j < k ==> Index(init[j], field).Ok?;
        assert Index(items[k], field) == Err(e);
      case Ok(vs) =>
        match Index(items[n], field)
        case Err(e) =>
        case Ok(v) =>
          assert Project(items, field) == Ok(vs + [v]);
    }
  }

  /** What `_get_dir_list_from_service(metadata)` returns: `[]` for falsy metadata or
      metadata without `listKey`, otherwise `one[field]` for every listed entry, in
      order. `has_key` on a truthy non-dictionary raises AttributeError. */
  function DirListSpec(metadata: Value, listKey: string, field: string): Result<seq<Value>> {
    if !Truthy(metadata) then Ok([])
    else if !metadata.Dict? then Err(AttributeError)
    else if listKey !in metadata.fields then Ok([])
    else
      match LoopItems(metadata.fields[listKey])
      case Err(e) => Err(e)
      case Ok(items) => Project(items, field)
  }

  /** The append loop of `_get_dir_list_from_service`. */
  method DirList(metadata: Value, listKey: string, field: string) returns (r: Result<seq<Value>>)
    ensures r == DirListSpec(metadata, listKey, field)
  {
    if !Truthy(metadata) {
      return Ok([]);
    }
    if !metadata.Dict? {
      return Err(AttributeError);
    }
    if listKey !in metadata.fields {
      return Ok([]);
    }
    var items := LoopItems(metadata.fields[listKey]);
    if items.Err? {
      return Err(items.error);
    }
    var xs := items.value;
    var flist: seq<Value> := [];
    var i := 0;
    while i < |xs|
      invariant 0 <= i <= |xs|
      invariant Project(xs[..i], field) == Ok(flist)
    {
      assert xs[..i + 1][..i] == xs[..i];
      var one := Index(xs[i], field);
      if one.Err? {
        assert Project(xs[..i + 1], field) == Err(one.error);
        ProjectPrefixErr(xs, field, i + 1);
        return Err(one.error);
      }
      flist := flist + [one.value];
      i := i + 1;
    }
    assert xs[..i] == xs;
    r := Ok(flist);
  }

  /** Once a prefix fails, the whole projection fails with the same error. */
  lemma {:induction false} ProjectPrefixErr(items: seq<Value>, field: string, n: nat)
    requires n <= |items|
    requires Project(items[..n], field).Err?
    ensures Project(items, field) == Project(items[..n], field)
    decreases |items| - n
  {
    if n < |items| {
      var m := |items[..n + 1]| - 1;
      assert items[..n + 1][..m] == items[..n];
      assert Project(items[..n + 1], field) == Project(items[..n], field);
      ProjectPrefixErr(items, field, n + 1);
    } else {
      assert items[..n] == items;
    }
  }

  /** The first entry whose `field` equals `p`, scanning left to right; `{}` when none
      does. Entries before the match are indexed too and may raise. */
  function FirstMatch(items: seq<Value>, field: string, p: Value): Result<Value>
    decreases |items|
  {
    if items == [] then Ok(Dict(map[]))
    else
      match Index(items[0], field)
      case Err(e) => Err(e)
      case Ok(v) => if v == p then Ok(items[0]) else FirstMatch(items[1..], field, p)
  }

  /** Every entry of `items` is a dictionary holding `field`. */
  predicate WellFormed(items: seq<Value>, field: string) {
    forall k :: 0 <= k < |items| ==> Index(items[k], field).Ok?
  }

  /** On a well-formed listing with no entry whose `field` is `p`, the lookup gives `{}`. */
  lemma {:induction false} FirstMatchAbsent(items: seq<Value>, field: string, p: Value)
    requires WellFormed(items, field)
    requires forall k :: 0 <= k < |items| ==> Index(items[k], field).value != p
    ensures FirstMatch(items, field, p) == Ok(Dict(map[]))
    decreases |items|
  {
    if items != [] {
      assert Index(items[0], field).Ok? && Index(items[0], field).value != p;
      forall k | 0 <= k < |items| - 1
        ensures Index(items[1..][k], field).Ok? && Index(items[1..][k], field).value != p
      {
        assert items[1..][k] == items[k + 1];
      }
      FirstMatchAbsent(items[1..], field, p);
    }
  }

  /** On a well-formed listing the lookup returns the leftmost entry whose `field` is `p`. */
  lemma {:induction false} FirstMatchLeftmost(items: seq<Value>, field: string, p: Value, k: nat)
    requires WellFormed(items, field)
    requires k < |items| && Index(items[k], field).value == p
    requires forall j :: 0 <= j < k ==> Index(items[j], field).value != p
    ensures FirstMatch(items, field, p) == Ok(items[k])
    decreases k
  {
    if k > 0 {
      assert Index(items[0], field).Ok? && Index(items[0], field).value != p;
      forall j | 0 <= j < |items| - 1 ensures Index(items[1..][j], field).Ok? {
        assert items[1..][j] == items[j + 1];
      }
      forall j | 0 <= j < k - 1 ensures Index(items[1..][j], field).value != p {
        assert items[1..][j] == items[j + 1];
      }
      assert items[1..][k - 1] == items[k];
      FirstMatchLeftmost(items[1..], field, p, k - 1);
    }
  }

  /** What the `getinfo(p)` helper inside `listdirinfo` returns for a listing reply:
      `has_key` on a non-dictionary raises AttributeError, a reply without `listKey`
      gives `{}`. */
  function LookupSpec(metadata: Value, listKey: string, field: string, p: Value): Result<Value> {
    if !metadata.Dict? then Err(AttributeError)
    else if listKey !in metadata.fields then Ok(Dict(map[]))
    else
      match LoopItems(metadata.fields[listKey])
      case Err(e) => Err(e)
      case Ok(items) => FirstMatch(items, field, p)
  }

  /** The early-returning scan of the `getinfo(p)` helper inside `listdirinfo`. */
  method LookupInfo(metadata: Value, listKey: string, field: string, p: Value) returns (r: Result<Value>)
    ensures r == LookupSpec(metadata, listKey, field, p)
  {
    if !metadata.Dict? {
      return Err(AttributeError);
    }
    if listKey !in metadata.fields {
      return Ok(Dict(map[]));
    }
    var items := LoopItems(metadata.fields[listKey]);
    if items.Err? {
      return Err(items.error);
    }
    var contents := items.value;
    var i := 0;
    while i < |contents|
      invariant 0 <= i <= |contents|
      invariant FirstMatch(contents[i..], field, p) == FirstMatch(contents, field, p)
    {
      assert contents[i..][1..] == contents[i + 1..];
      var one := Index(contents[i], field);
      if one.Err? {
        return Err(one.error);
      }
      if one.value == p {
        return Ok(contents[i]);
      }
      i := i + 1;
    }
    r := Ok(Dict(map[]));
  }
}
