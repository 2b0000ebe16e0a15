/**
  The Python string operations the servers use (str.find, str.split with a
  separator, str.join, str.replace(old, ""), str.startswith, str.strip()),
  over Dafny strings.
*/
module Text {
  import opened Common

  /** `pat` occurs in `s` starting at index `j`. */
  predicate OccursAt(s: string, pat: string, j: int)
  {
    0 <= j && j + |pat| <= |s| && s[j..j + |pat|] == pat
  }

  lemma OccursShift(s: string, pat: string)
    requires |s| > 0
    ensures forall j :: 1 <= j ==> (OccursAt(s, pat, j) <==> OccursAt(s[1..], pat, j - 1))
  {
    forall j | 1 <= j
      ensures OccursAt(s, pat, j) <==> OccursAt(s[1..], pat, j - 1)
    {
      if j + |pat| <= |s| {
        var a, b := s[j..j + |pat|], s[1..][j - 1..j - 1 + |pat|];
        assert |a| == |b| && forall t :: 0 <= t < |a| ==> a[t] == b[t];
        assert a == b;
      }
    }
  }

  /** The leftmost occurrence of `pat` in `s` (Python's `s.find(pat)`, None standing for -1). */
  function IndexOf(s: string, pat: string): (r: Option<nat>)
    ensures r.Some? ==> OccursAt(s, pat, r.value)
    ensures r.Some? ==> forall j :: 0 <= j < r.value ==> !OccursAt(s, pat, j)
    ensures r.None? ==> forall j :: !OccursAt(s, pat, j)
    decreases |s|
  {
    if |s| < |pat| then None
    else if s[..|pat|] == pat then Some(0)
    else
      OccursShift(s, pat);
      match IndexOf(s[1..], pat)
      case None => None
      case Some(i) => Some(i + 1)
  }

  /** The leftmost occurrence is the one with no occurrence before it. */
  lemma IndexOfLeftmost(s: string, pat: string, j: nat)
    requires OccursAt(s, pat, j) && forall k :: 0 <= k < j ==> !OccursAt(s, pat, k)
    ensures IndexOf(s, pat) == Some(j)
  {
    var r := IndexOf(s, pat);
    assert r.Some?;
    assert !(r.value < j) && !(j < r.value);
  }

  /** A prefix without the first character of `pat` holds no occurrence of `pat`, even one running past its end. */
  lemma NoOccurrenceInPrefix(p: string, s: string, pat: string)
    requires pat != [] && pat[0] !in p
    ensures forall j :: 0 <= j < |p| ==> !OccursAt(p + s, pat, j)
  {
    var ps := p + s;
    forall j | 0 <= j < |p|
      ensures !OccursAt(ps, pat, j)
    {
      if j + |pat| <= |ps| {
        assert ps[j..j + |pat|][0] == p[j];
      }
    }
  }

  /** Past a prefix, the occurrences in `p + s` are those in `s`, shifted. */
  lemma OccurrenceAfterPrefix(p: string, s: string, pat: string)
    ensures forall j :: |p| <= j ==> (OccursAt(p + s, pat, j) <==> OccursAt(s, pat, j - |p|))
  {
    var ps := p + s;
    forall j | |p| <= j
      ensures OccursAt(ps, pat, j) <==> OccursAt(s, pat, j - |p|)
    {
      if j + |pat| <= |ps| {
        assert ps[j..j + |pat|] == s[j - |p|..j - |p| + |pat|];
      }
    }
  }

  /** A prefix without the first character of `pat` only shifts the occurrences of `pat`. */
  lemma {:induction false} IndexOfAfterPrefix(p: string, s: string, pat: string)
    requires pat != [] && pat[0] !in p
    ensures IndexOf(p + s, pat) == match IndexOf(s, pat) case None => None case Some(i) => Some(i + |p|)
  {
    NoOccurrenceInPrefix(p, s, pat);
    OccurrenceAfterPrefix(p, s, pat);
    match IndexOf(s, pat)
    case None =>
    case Some(i) =>
      IndexOfLeftmost(p + s, pat, i + |p|);
  }

  /** Python's `pat in s`. */
  predicate Contains(s: string, pat: string)
  {
    IndexOf(s, pat).Some?
  }

  /** Python's `s.startswith(prefix)`. */
  predicate StartsWith(s: string, prefix: string)
  {
    |prefix| <= |s| && s[..|prefix|] == prefix
  }

  /** Python's `sep.join(parts)` for a non-empty list. */
  function Join(parts: seq<string>, sep: string): string
    requires |parts| >= 1
    decreases |parts|
  {
    if |parts| == 1 then parts[0] else parts[0] + sep + Join(parts[1..], sep)
  }

  lemma JoinFour(a: string, b: string, c: string, d: string, sep: string)
    ensures Join([a, b, c, d], sep) == a + sep + b + sep + c + sep + d
  {
    var parts := [a, b, c, d];
    assert parts[1..] == [b, c, d] && parts[1..][1..] == [c, d] && parts[1..][1..][1..] == [d];
    assert Join([c, d], sep) == c + sep + d;
    assert Join([b, c, d], sep) == b + sep + (c + sep + d);
  }

  lemma PrefixBeforeFirst(s: string, sep: string, i: nat)
    requires sep != [] && IndexOf(s, sep) == Some(i)
    ensures !Contains(s[..i], sep)
  {
    forall k | 0 <= k
      ensures OccursAt(s[..i], sep, k) ==> OccursAt(s, sep, k) && k < i
    {
      if k + |sep| <= i {
        assert s[..i][k..k + |sep|] == s[k..k + |sep|];
      }
    }
  }

  /**
    Python's `s.split(sep)` for a non-empty separator: the pieces between the
    leftmost non-overlapping occurrences of `sep`. Joining the pieces gives `s`
    back, and no piece contains the separator.
  */
  function Split(s: string, sep: string): (parts: seq<string>)
    requires sep != []
    ensures |parts| >= 1
    ensures Join(parts, sep) == s
    ensures forall i :: 0 <= i < |parts| ==> !Contains(parts[i], sep)
    decreases |s|
  {
    match IndexOf(s, sep)
    case None => [s]
    case Some(i) =>
      PrefixBeforeFirst(s, sep, i);
      var rest := Split(s[i + |sep|..], sep);
      assert ([s[..i]] + rest)[1..] == rest;
      [s[..i]] + rest
  }

  /** The split at the leftmost occurrence: the piece before it, then the split of what follows it. */
  lemma SplitAt(s: string, sep: string, i: nat)
    requires sep != [] && IndexOf(s, sep) == Some(i)
    ensures Split(s, sep) == [s[..i]] + Split(s[i + |sep|..], sep)
  {
  }

  /** Splitting gives a single piece exactly when the separator does not occur. */
  lemma SplitSingle(s: string, sep: string)
    requires sep != []
    ensures |Split(s, sep)| == 1 <==> !Contains(s, sep)
  {
    if Contains(s, sep) {
      SplitAt(s, sep, IndexOf(s, sep).value);
    }
  }

  /** No proper suffix of `sep` is also a prefix of it, so two occurrences never overlap. */
  predicate BorderFree(sep: string)
  {
    forall k :: 0 < k < |sep| ==> sep[k..] != sep[..|sep| - k]
  }

  /** When `p` does not contain a border-free `sep`, the first occurrence in `p + sep + rest` is the one after `p`. */
  lemma FirstOccurrence(p: string, sep: string, rest: string)
    requires sep != [] && BorderFree(sep) && !Contains(p, sep)
    ensures IndexOf(p + sep + rest, sep) == Some(|p|)
  {
    var s := p + sep + rest;
    assert s[|p|..|p| + |sep|] == sep;
    assert OccursAt(s, sep, |p|);
    forall j | 0 <= j < |p|
      ensures !OccursAt(s, sep, j)
    {
      if j + |sep| <= |p| {
        assert s[j..j + |sep|] == p[j..j + |sep|];
        assert !OccursAt(p, sep, j);
      } else if j + |sep| <= |s| {
        var k := |p| - j;
        assert sep[k..] != sep[..|sep| - k];
        var t :| 0 <= t < |sep| - k && sep[k..][t] != sep[..|sep| - k][t];
        assert s[j..j + |sep|][k + t] == s[|p| + t] == sep[t];
        assert s[j..j + |sep|][k + t] != sep[k + t];
      }
    }
    var r := IndexOf(s, sep);
    assert r.Some?;
    assert !(r.value < |p|) && !(|p| < r.value);
  }

  /** Splitting a joined list gives the list back when no element contains the (border-free) separator. */
  lemma {:induction false} SplitOfJoin(parts: seq<string>, sep: string)
    requires sep != [] && BorderFree(sep) && |parts| >= 1
    requires forall i :: 0 <= i < |parts| ==> !Contains(parts[i], sep)
    ensures Split(Join(parts, sep), sep) == parts
    decreases |parts|
  {
    if |parts| > 1 {
      var rest := Join(parts[1..], sep);
      var s := parts[0] + sep + rest;
      FirstOccurrence(parts[0], sep, rest);
      SplitAt(s, sep, |parts[0]|);
      assert s[..|parts[0]|] == parts[0];
      assert s[|parts[0]| + |sep|..] == rest;
      SplitOfJoin(parts[1..], sep);
      assert [parts[0]] + parts[1..] == parts;
    }
  }

  /** A string without the first character of `pat` does not contain `pat`. */
  lemma NoFirstCharNotContains(s: string, pat: string)
    requires pat != [] && pat[0] !in s
    ensures !Contains(s, pat)
  {
    forall j | 0 <= j && j + |pat| <= |s|
      ensures s[j..j + |pat|][0] == s[j] && s[j] != pat[0]
    {
    }
  }

  /** A one-character pattern occurs exactly when the character does. */
  lemma ContainsChar(s: string, c: char)
    ensures Contains(s, [c]) <==> c in s
  {
    if c in s {
      var j :| 0 <= j < |s| && s[j] == c;
      assert s[j..j + 1] == [c];
      assert OccursAt(s, [c], j);
    } else {
      NoFirstCharNotContains(s, [c]);
    }
  }

  /** Joining pieces free of `c` with the separator `c` puts one `c` between each pair. */
  lemma {:induction false} JoinCharCount(parts: seq<string>, c: char)
    requires |parts| >= 1
    requires forall i :: 0 <= i < |parts| ==> c !in parts[i]
    ensures multiset(Join(parts, [c]))[c] == |parts| - 1
    decreases |parts|
  {
    if |parts| > 1 {
      JoinCharCount(parts[1..], c);
      var rest := Join(parts[1..], [c]);
      assert multiset(parts[0] + [c] + rest) == multiset(parts[0]) + multiset([c]) + multiset(rest);
    }
  }

  /** Splitting on a single character gives one more piece than there are occurrences of it. */
  lemma SplitCharCount(s: string, c: char)
    ensures |Split(s, [c])| == multiset(s)[c] + 1
  {
    var parts := Split(s, [c]);
    forall i | 0 <= i < |parts|
      ensures c !in parts[i]
    {
      ContainsChar(parts[i], c);
    }
    JoinCharCount(parts, c);
  }

  /** The separator ", " has no border, so `split(", ")` inverts `", ".join`. */
  lemma CommaSpaceBorderFree()
    ensures BorderFree(", ")
  {
    assert ", "[1..][0] == ' ' && ", "[..1][0] == ',';
  }

  /** Removing a label from the front of a text that holds no other copy of it leaves the text. */
  lemma RemoveLeadingLabel(name: string, x: string)
    requires name != [] && !Contains(x, name)
    ensures RemoveAll(name + x, name) == x
  {
    var s := name + x;
    assert s[..|name|] == name && s[|name|..] == x && s[..0] == [];
    IndexOfLeftmost(s, name, 0);
    RemoveAllAtFirst(s, name, 0);
  }

  /** A two-character pattern can only straddle `a + b` at the seam. */
  lemma ConcatNotContains(a: string, b: string, pat: string)
    requires |pat| == 2 && !Contains(a, pat) && !Contains(b, pat)
    requires a == [] || b == [] || a[|a| - 1] != pat[0] || b[0] != pat[1]
    ensures !Contains(a + b, pat)
  {
    var s := a + b;
    forall j | 0 <= j && j + 2 <= |s|
      ensures !OccursAt(s, pat, j)
    {
      if j + 2 <= |a| {
        assert s[j..j + 2] == a[j..j + 2];
        assert !OccursAt(a, pat, j);
      } else if j >= |a| {
        assert s[j..j + 2] == b[j - |a|..j - |a| + 2];
        assert !OccursAt(b, pat, j - |a|);
      } else {
        assert s[j..j + 2] == [a[|a| - 1], b[0]];
      }
    }
  }

  /** Python's `s.replace(pat, "")`: scanning left to right, every occurrence not overlapping an earlier removed one is dropped. */
  function RemoveAll(s: string, pat: string): (r: string)
    requires pat != []
    ensures |r| <= |s|
    ensures !Contains(s, pat) ==> r == s
    decreases |s|
  {
    if |s| < |pat| then s
    else if s[..|pat|] == pat then
      assert OccursAt(s, pat, 0);
      RemoveAll(s[|pat|..], pat)
    else
      OccursShift(s, pat);
      assert !Contains(s, pat) ==> !Contains(s[1..], pat);
      [s[0]] + RemoveAll(s[1..], pat)
  }

  /** A stretch holding no occurrence of `pat` is kept as it is, and the scan goes on after it. */
  lemma {:induction false} RemoveAllKeepsStretch(s: string, pat: string, i: nat)
    requires pat != [] && i <= |s|
    requires forall j :: 0 <= j < i ==> !OccursAt(s, pat, j)
    ensures RemoveAll(s, pat) == s[..i] + RemoveAll(s[i..], pat)
    decreases i
  {
    if i > 0 {
      var t, r := s[1..], RemoveAll(s[i..], pat);
      RemoveAllNoMatchHead(s, pat);
      NoOccurrenceShift(s, pat, i);
      RemoveAllKeepsStretch(t, pat, i - 1);
      ConsSlices(s, i, r);
    }
  }

  /** Without an occurrence at the start, the scan keeps the first character. */
  lemma {:induction false} RemoveAllNoMatchHead(s: string, pat: string)
    requires pat != [] && s != [] && !OccursAt(s, pat, 0)
    ensures RemoveAll(s, pat) == [s[0]] + RemoveAll(s[1..], pat)
  {
    if |s| >= |pat| {
      assert s[..|pat|] != pat;
    }
  }

  lemma {:induction false} NoOccurrenceShift(s: string, pat: string, i: nat)
    requires 0 < i <= |s| && forall j :: 0 <= j < i ==> !OccursAt(s, pat, j)
    ensures forall j :: 0 <= j < i - 1 ==> !OccursAt(s[1..], pat, j)
  {
    var t := s[1..];
    forall j | 0 <= j < i - 1
      ensures !OccursAt(t, pat, j)
    {
      assert !OccursAt(s, pat, j + 1);
      if j + |pat| <= |t| {
        assert t[j..j + |pat|] == s[j + 1..j + 1 + |pat|];
      }
    }
  }

  lemma {:induction false} ConsSlices(s: string, i: nat, r: string)
    requires 0 < i <= |s|
    ensures s[1..][i - 1..] == s[i..]
    ensures [s[0]] + (s[1..][..i - 1] + r) == s[..i] + r
  {
    assert [s[0]] + s[1..][..i - 1] == s[..i];
  }

  /** Up to the leftmost occurrence the text is kept; the occurrence is dropped and the scan goes on after it. */
  lemma {:induction false} RemoveAllAtFirst(s: string, pat: string, i: nat)
    requires pat != [] && IndexOf(s, pat) == Some(i)
    ensures RemoveAll(s, pat) == s[..i] + RemoveAll(s[i + |pat|..], pat)
  {
    RemoveAllKeepsStretch(s, pat, i);
    var t := s[i..];
    assert t[..|pat|] == pat;
    assert t[|pat|..] == s[i + |pat|..];
  }

  /** `s.replace(pat, "")` is `"".join(s.split(pat))`: every piece between the occurrences kept, every occurrence dropped. */
  lemma {:induction false} RemoveAllIsJoinSplit(s: string, pat: string)
    requires pat != []
    ensures RemoveAll(s, pat) == Join(Split(s, pat), "")
    decreases |s|
  {
    match IndexOf(s, pat)
    case None =>
    case Some(i) =>
      var rest := Split(s[i + |pat|..], pat);
      calc {
        RemoveAll(s, pat);
        == { RemoveAllAtFirst(s, pat, i); }
        s[..i] + RemoveAll(s[i + |pat|..], pat);
        == { RemoveAllIsJoinSplit(s[i + |pat|..], pat); }
        s[..i] + Join(rest, "");
        == { JoinCons(s[..i], rest); }
        Join([s[..i]] + rest, "");
        == { SplitAt(s, pat, i); }
        Join(Split(s, pat), "");
      }
  }

  lemma {:induction false} JoinCons(head: string, rest: seq<string>)
    requires |rest| >= 1
    ensures Join([head] + rest, "") == head + Join(rest, "")
  {
    var parts := [head] + rest;
    assert parts[0] == head && parts[1..] == rest;
    assert Join(parts, "") == head + "" + Join(rest, "");
    assert head + "" == head;
  }

  /** A text that does not start with the first character of `pat` keeps its first character. */
  lemma RemoveAllKeepsHead(s: string, pat: string)
    requires pat != [] && s != [] && s[0] != pat[0]
    ensures RemoveAll(s, pat) == [s[0]] + RemoveAll(s[1..], pat)
  {
    if |s| >= |pat| {
      assert s[..|pat|][0] != pat[0];
    }
  }

  /** A prefix without the first character of `pat` survives `replace(pat, "")` untouched. */
  lemma {:induction false} RemoveAllAfterPrefix(p: string, s: string, pat: string)
    requires pat != [] && pat[0] !in p
    ensures RemoveAll(p + s, pat) == p + RemoveAll(s, pat)
    decreases |p|
  {
    if p == [] {
      assert p + s == s;
    } else {
      var ps, r := p + s, RemoveAll(s, pat);
      calc {
        RemoveAll(ps, pat);
        == { RemoveAllKeepsHead(ps, pat); }
        [p[0]] + RemoveAll(ps[1..], pat);
        == { assert ps[1..] == p[1..] + s; }
        [p[0]] + RemoveAll(p[1..] + s, pat);
        == { RemoveAllAfterPrefix(p[1..], s, pat); }
        [p[0]] + (p[1..] + r);
        == { assert [p[0]] + p[1..] == p; }
        p + r;
      }
    }
  }

  /** The first piece of a split starts with any prefix free of the separator's first character. */
  lemma {:induction false} SplitHeadAfterPrefix(p: string, s: string, sep: string)
    requires sep != [] && sep[0] !in p
    ensures StartsWith(Split(p + s, sep)[0], p)
  {
    IndexOfAfterPrefix(p, s, sep);
  }

  /** The ASCII characters Python's str.strip() removes. */
  predicate IsSpace(c: char)
  {
    c == ' ' || c == '\t' || c == '\n' || c == '\r' || c == '\U{0B}' || c == '\U{0C}'
    || c == '\U{1C}' || c == '\U{1D}' || c == '\U{1E}' || c == '\U{1F}'
  }

  /** Python's `s.lstrip()`: the white space at the front removed. */
  function TrimStart(s: string): (r: string)
    ensures |r| <= |s| && r == s[|s| - |r|..]
    ensures forall k :: 0 <= k < |s| - |r| ==> IsSpace(s[k])
    ensures r == [] || !IsSpace(r[0])
    decreases |s|
  {
    if s != [] && IsSpace(s[0]) then TrimStart(s[1..]) else s
  }

  /** Python's `s.rstrip()`: the white space at the end removed. */
  function TrimEnd(s: string): (r: string)
    ensures |r| <= |s| && r == s[..|r|]
    ensures forall k :: |r| <= k < |s| ==> IsSpace(s[k])
    ensures r == [] || !IsSpace(r[|r| - 1])
    decreases |s|
  {
    if s != [] && IsSpace(s[|s| - 1]) then TrimEnd(s[..|s| - 1]) else s
  }

  /** `r` is what remains of `s` once the white space before index `i` and after `r` is cut off. */
  predicate StrippedAt(s: string, r: string, i: int)
  {
    0 <= i <= |s| - |r| && r == s[i..i + |r|]
    && (forall k :: 0 <= k < i ==> IsSpace(s[k]))
    && (forall k :: i + |r| <= k < |s| ==> IsSpace(s[k]))
  }

  /** Cutting white space off the front, then off the end, leaves `s` stripped at the first cut. */
  lemma {:induction false} TrimsStrip(s: string, t: string, r: string)
    requires |t| <= |s| && t == s[|s| - |t|..] && forall k :: 0 <= k < |s| - |t| ==> IsSpace(s[k])
    requires |r| <= |t| && r == t[..|r|] && forall k :: |r| <= k < |t| ==> IsSpace(t[k])
    ensures StrippedAt(s, r, |s| - |t|)
  {
    var i := |s| - |t|;
    assert r == s[i..i + |r|];
    SpaceAfterShift(s, i, |r|);
  }

  /** White space past `n` in the tail `s[i..]` is white space past `i + n` in `s`. */
  lemma {:induction false} SpaceAfterShift(s: string, i: nat, n: nat)
    requires i + n <= |s| && forall k :: n <= k < |s| - i ==> IsSpace(s[i..][k])
    ensures forall k :: i + n <= k < |s| ==> IsSpace(s[k])
  {
    forall k | i + n <= k < |s|
      ensures IsSpace(s[k])
    {
      assert s[k] == s[i..][k - i];
    }
  }

  /**
    Python's `s.strip()`: the slice of `s` left once the white space at both
    ends is removed. Everything cut off is white space, and the result neither
    starts nor ends with white space, which fixes it uniquely.
  */
  function Strip(s: string): (r: string)
    ensures exists i :: StrippedAt(s, r, i)
    ensures r == [] || (!IsSpace(r[0]) && !IsSpace(r[|r| - 1]))
    ensures (s == [] || (!IsSpace(s[0]) && !IsSpace(s[|s| - 1]))) ==> r == s
  {
    var t := TrimStart(s);
    var r := TrimEnd(t);
    assert r != [] ==> r[0] == t[0];
    TrimsStrip(s, t, r);
    r
  }

  /** A character that is not white space lies inside every stripped slice. */
  lemma NonSpaceInside(s: string, r: string, i: nat, k: nat)
    requires StrippedAt(s, r, i) && k < |s| && !IsSpace(s[k])
    ensures i <= k < i + |r|
  {
  }

  /** Two stripped slices of `s` with no white space at their ends are the same. */
  lemma SlicesAgree(s: string, a: string, i: nat, b: string, j: nat)
    requires StrippedAt(s, a, i) && a != [] && !IsSpace(a[0]) && !IsSpace(a[|a| - 1])
    requires StrippedAt(s, b, j) && (b == [] || (!IsSpace(b[0]) && !IsSpace(b[|b| - 1])))
    ensures a == b
  {
    assert s[i] == a[0] && s[i + |a| - 1] == a[|a| - 1];
    NonSpaceInside(s, b, j, i);
    NonSpaceInside(s, b, j, i + |a| - 1);
    assert s[j] == b[0] && s[j + |b| - 1] == b[|b| - 1];
    NonSpaceInside(s, a, i, j);
    NonSpaceInside(s, a, i, j + |b| - 1);
  }

  /** The contract of `Strip` pins it down: any slice cut that way, with no white space at its ends, is `Strip(s)`. */
  lemma StripUnique(s: string, r: string, i: nat)
    requires StrippedAt(s, r, i)
    requires r == [] || (!IsSpace(r[0]) && !IsSpace(r[|r| - 1]))
    ensures r == Strip(s)
  {
    var r' := Strip(s);
    var i' :| StrippedAt(s, r', i');
    if r != [] {
      SlicesAgree(s, r, i, r', i');
    } else if r' != [] {
      SlicesAgree(s, r', i', r, i);
    }
  }

  /** `" ab ".strip()` is `"ab"`. */
  lemma StripExample()
    ensures Strip(" ab ") == "ab"
  {
    StripUnique(" ab ", "ab", 1);
  }
}
