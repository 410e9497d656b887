/** Python's `str.split(sep)` and `sep.join(parts)` on a non-empty separator, with the
    round trip between them. Paths and URIs are parsed with these. */
module Strings {
  import opened Values

  /** `sep` occurs in `s` starting at index `i`. */
  predicate SepAt(s: string, sep: string, i: nat) {
    i + |sep| <= |s| && s[i..i + |sep|] == sep
  }

  /** Dropping the first character shifts every occurrence one place to the left. */
  lemma SepAtShift(s: string, sep: string, j: nat)
    requires |s| >= 1
    ensures SepAt(s, sep, j + 1) == SepAt(s[1..], sep, j)
  {
    if j + 1 + |sep| <= |s| {
      assert s[1..][j..j + |sep|] == s[j + 1..j + 1 + |sep|];
    }
  }

  /** The index of the leftmost occurrence of `sep` in `s`, if any. */
  function FirstSep(s: string, sep: string): (r: Option<nat>)
    requires sep != ""
    ensures r.Some? ==> SepAt(s, sep, r.value)
    ensures r.Some? ==> forall j: nat :: j < r.value ==> !SepAt(s, sep, j)
    ensures r.None? ==> forall j: nat :: !SepAt(s, sep, j)
    decreases |s|
  {
    if |s| < |sep| then None
    else if s[..|sep|] == sep then Some(0)
    else
      match FirstSep(s[1..], sep)
      case None =>
        assert forall j: nat :: !SepAt(s, sep, j) by {
          forall j: nat ensures !SepAt(s, sep, j) {
            if j > 0 { SepAtShift(s, sep, j - 1); }
          }
        }
        None
      case Some(i) =>
        SepAtShift(s, sep, i);
        assert forall j: nat :: j < i + 1 ==> !SepAt(s, sep, j) by {
          forall j: nat | j < i + 1 ensures !SepAt(s, sep, j) {
            if j > 0 { SepAtShift(s, sep, j - 1); }
          }
        }
        Some(i + 1)
  }

  /** `sep` occurs somewhere in `s`. */
  predicate Contains(s: string, sep: string)
    requires sep != ""
  {
    FirstSep(s, sep).Some?
  }

  /** `s.split(sep)`: the pieces between the leftmost non-overlapping occurrences. */
  function Split(s: string, sep: string): (parts: seq<string>)
    requires sep != ""
    ensures |parts| >= 1
    decreases |s|
  {
    match FirstSep(s, sep)
    case None => [s]
    case Some(i) => [s[..i]] + Split(s[i + |sep|..], sep)
  }

  /** `sep.join(parts)`. */
  function Join(parts: seq<string>, sep: string): string {
    if |parts| == 0 then ""
    else if |parts| == 1 then parts[0]
    else parts[0] + sep + Join(parts[1..], sep)
  }

  /** Joining the pieces of a split gives the original string back. */
  lemma {:induction false} JoinSplit(s: string, sep: string)
    requires sep != ""
    ensures Join(Split(s, sep), sep) == s
    decreases |s|
  {
    match FirstSep(s, sep)
    case None =>
    case Some(i) =>
      var rest := s[i + |sep|..];
      JoinSplit(rest, sep);
      JoinCons(s[..i], Split(rest, sep), sep);
      SepDecomp(s, sep, i);
  }

  /** An occurrence of the separator cuts the string into prefix, separator, rest. */
  lemma SepDecomp(s: string, sep: string, i: nat)
    requires SepAt(s, sep, i)
    ensures s == s[..i] + sep + s[i + |sep|..]
  {
    assert s == s[..i] + s[i..i + |sep|] + s[i + |sep|..];
  }

  /** Joining a piece in front of at least one more piece puts the separator between. */
  lemma JoinCons(head: string, tail: seq<string>, sep: string)
    requires |tail| >= 1
    ensures Join([head] + tail, sep) == head + sep + Join(tail, sep)
  {
    assert ([head] + tail)[1..] == tail;
  }

  /** No piece of a split contains the separator. For a separator that cannot overlap
      itself (a single character, or "://"), this together with JoinSplit determines
      the split. */
  lemma {:induction false} SplitPiecesFree(s: string, sep: string)
    requires sep != ""
    ensures forall k :: 0 <= k < |Split(s, sep)| ==> !Contains(Split(s, sep)[k], sep)
    decreases |s|
  {
    match FirstSep(s, sep)
    case None =>
    case Some(i) =>
      var rest := s[i + |sep|..];
      SplitPiecesFree(rest, sep);
      PrefixFree(s, sep, i);
  }

  /** A prefix ending before the first occurrence does not contain the separator. */
  lemma PrefixFree(s: string, sep: string, i: nat)
    requires sep != "" && i <= |s|
    requires forall j: nat :: j < i ==> !SepAt(s, sep, j)
    ensures !Contains(s[..i], sep)
  {
    forall j: nat ensures !SepAt(s[..i], sep, j) {
      if j + |sep| <= i {
        assert !SepAt(s, sep, j);
        assert s[..i][j..j + |sep|] == s[j..j + |sep|];
      }
    }
  }

  /** A string without the separator splits into itself alone. */
  lemma SplitNoSep(s: string, sep: string)
    requires sep != ""
    requires !Contains(s, sep)
    ensures Split(s, sep) == [s]
  {
  }

  /** A single-character separator that does not occur in `s`. */
  lemma NoCharNoSep(s: string, c: char)
    requires c !in s
    ensures !Contains(s, [c])
  {
    forall j: nat | j + 1 <= |s| ensures !SepAt(s, [c], j) {
      assert s[j..j + 1] == [s[j]];
    }
  }

  /** Splitting `a + c + b` on the character `c`, where `c` does not occur in `a`,
      yields `a` followed by the pieces of `b`. */
  lemma SplitCons(a: string, c: char, b: string)
    requires c !in a
    ensures Split(a + [c] + b, [c]) == [a] + Split(b, [c])
  {
    var s := a + [c] + b;
    assert SepAt(s, [c], |a|);
    forall j: nat | j < |a| ensures !SepAt(s, [c], j) {
      assert s[j] == a[j];
    }
    assert FirstSep(s, [c]) == Some(|a|);
    assert s[..|a|] == a;
    assert s[|a| + 1..] == b;
  }

  /** Joining a sequence extended by one piece appends the separator and that piece. */
  lemma {:induction false} JoinSnoc(parts: seq<string>, sep: string, last: string)
    requires |parts| >= 1
    ensures Join(parts + [last], sep) == Join(parts, sep) + sep + last
    decreases |parts|
  {
    if |parts| == 1 {
      assert (parts + [last])[1..] == [last];
    } else {
      JoinSnoc(parts[1..], sep, last);
      assert (parts + [last])[1..] == parts[1..] + [last];
    }
  }

  /** A single character occurs as a separator exactly when it occurs in the string. */
  lemma ContainsChar(s: string, c: char)
    ensures Contains(s, [c]) <==> c in s
  {
    if c in s {
      var j :| 0 <= j < |s| && s[j] == c;
      assert s[j..j + 1] == [c];
      assert SepAt(s, [c], j);
    } else {
      NoCharNoSep(s, c);
    }
  }

  /** Splitting the join of pieces free of the separator character gives the pieces
      back: the other half of the round trip. */
  lemma {:induction false} SplitJoin(ts: seq<string>, c: char)
    requires |ts| >= 1
    requires forall k :: 0 <= k < |ts| ==> c !in ts[k]
    ensures Split(Join(ts, [c]), [c]) == ts
    decreases |ts|
  {
    if |ts| == 1 {
      NoCharNoSep(ts[0], c);
      SplitNoSep(ts[0], [c]);
    } else {
      SplitCons(ts[0], c, Join(ts[1..], [c]));
      SplitJoin(ts[1..], c);
      assert ts == [ts[0]] + ts[1..];
    }
  }

  /** The leftmost occurrence of a character: it is at `i`, and not before. */
  lemma FirstCharBefore(p: string, c: char, i: nat)
    requires SepAt(p, [c], i)
    requires forall j: nat :: j < i ==> !SepAt(p, [c], j)
    ensures i < |p| && p[i] == c && forall j :: 0 <= j < i ==> p[j] != c
  {
    assert p[i..i + 1] == [c];
    forall j | 0 <= j < i ensures p[j] != c {
      assert !SepAt(p, [c], j);
      assert p[j..j + 1] == [p[j]];
    }
  }

  /** A string is its prefix, the character at `i`, and its suffix; the prefix lacks
      that character when no earlier position holds it. */
  lemma CharDecomp(p: string, i: nat)
    requires i < |p| && forall j :: 0 <= j < i ==> p[j] != p[i]
    ensures p[i] !in p[..i] && p == p[..i] + [p[i]] + p[i + 1..]
  {
  }

  /** Appending a separator character and a piece free of it adds that piece at the end
      of the split. */
  lemma {:induction false} SplitSnoc(p: string, c: char, t: string)
    requires c !in t
    ensures Split(p + [c] + t, [c]) == Split(p, [c]) + [t]
    decreases |p|
  {
    var first := FirstSep(p, [c]);
    if first.None? {
      ContainsChar(p, c);
      SplitPair(p, c, t);
    } else {
      var i := first.value;
      FirstCharBefore(p, c, i);
      CharDecomp(p, i);
      var a, b := p[..i], p[i + 1..];
      SplitSnoc(b, c, t);
      SplitSnocStep(a, b, c, t);
    }
  }

  /** Two pieces free of the separator character split apart. */
  lemma SplitPair(a: string, c: char, t: string)
    requires c !in a && c !in t
    ensures Split(a + [c] + t, [c]) == Split(a, [c]) + [t]
  {
    NoCharNoSep(a, c);
    SplitNoSep(a, [c]);
    NoCharNoSep(t, c);
    SplitNoSep(t, [c]);
    SplitCons(a, c, t);
  }

  /** The inductive step of SplitSnoc: a leading piece free of the separator character
      is put in front on both sides. */
  lemma SplitSnocStep(a: string, b: string, c: char, t: string)
    requires c !in a
    requires Split(b + [c] + t, [c]) == Split(b, [c]) + [t]
    ensures Split(a + [c] + b + [c] + t, [c]) == Split(a + [c] + b, [c]) + [t]
  {
    SplitConsLong(a, b, c, t);
    SplitCons(a, c, b);
    Regroup([a], Split(b, [c]), [t]);
  }

  /** SplitCons with the remainder written out as `b + c + t`. */
  lemma SplitConsLong(a: string, b: string, c: char, t: string)
    requires c !in a
    ensures Split(a + [c] + b + [c] + t, [c]) == [a] + Split(b + [c] + t, [c])
  {
    TwoSeps(a, b, c, t);
    SplitCons(a, c, b + [c] + t);
  }

  /** `a + c + b + c + t` regrouped after the first separator. */
  lemma TwoSeps(a: string, b: string, c: char, t: string)
    ensures a + [c] + b + [c] + t == a + [c] + (b + [c] + t)
  {
    Regroup(a + [c], b + [c], t);
  }

  /** Concatenation is associative. */
  lemma Regroup<T>(x: seq<T>, y: seq<T>, z: seq<T>)
    ensures x + y + z == x + (y + z)
  {
  }
}
