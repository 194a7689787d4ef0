/** The glob tool's matcher: patterns of path segments where `**` stands for any number of them.
    Matching one segment is the standard library's and a parameter here. */
module Glob {

  /** Whether a segment matches a pattern part; a malformed part matches nothing. */
  type Segment = (string, string) -> bool

  const STARS: string := "**"

  // ---- what it means to match ----

  function Concat(pieces: seq<seq<string>>): seq<string> {
    if pieces == [] then [] else pieces[0] + Concat(pieces[1..])
  }

  ghost predicate FitsOne(seg: Segment, part: string, piece: seq<string>) {
    part == STARS || (|piece| == 1 && seg(part, piece[0]))
  }

  /** The pieces are matched by the parts of the pattern, one by one. */
  ghost predicate Fits(seg: Segment, pattern: seq<string>, pieces: seq<seq<string>>) {
    |pieces| == |pattern| && forall k :: 0 <= k < |pattern| ==> FitsOne(seg, pattern[k], pieces[k])
  }

  /** The path falls into pieces that fit the pattern. */
  ghost predicate Matches(seg: Segment, pattern: seq<string>, path: seq<string>) {
    exists pieces :: Fits(seg, pattern, pieces) && Concat(pieces) == path
  }

  lemma {:induction false} ConcatAppends(xs: seq<seq<string>>, ys: seq<seq<string>>)
    ensures Concat(xs + ys) == Concat(xs) + Concat(ys)
  {
    if xs == [] {
      assert xs + ys == ys;
    } else {
      ConcatAppends(xs[1..], ys);
      assert (xs + ys)[1..] == xs[1..] + ys;
    }
  }

  lemma ConcatOne(x: seq<string>)
    ensures Concat([x]) == x
  {
    assert [x][1..] == [];
  }

  // ---- patterns put together ----

  lemma MatchesJoin(seg: Segment, p: seq<string>, q: seq<string>, path: seq<string>, i: nat)
    requires i <= |path| && Matches(seg, p, path[..i]) && Matches(seg, q, path[i..])
    ensures Matches(seg, p + q, path)
  {
    var xs :| Fits(seg, p, xs) && Concat(xs) == path[..i];
    var ys :| Fits(seg, q, ys) && Concat(ys) == path[i..];
    ConcatAppends(xs, ys);
    assert path == path[..i] + path[i..];
    assert Fits(seg, p + q, xs + ys);
  }

  lemma MatchesSplit(seg: Segment, p: seq<string>, q: seq<string>, path: seq<string>) returns (i: nat)
    requires Matches(seg, p + q, path)
    ensures i <= |path| && Matches(seg, p, path[..i]) && Matches(seg, q, path[i..])
  {
    var zs :| Fits(seg, p + q, zs) && Concat(zs) == path;
    var xs, ys := zs[..|p|], zs[|p|..];
    assert zs == xs + ys;
    ConcatAppends(xs, ys);
    i := |Concat(xs)|;
    assert path[..i] == Concat(xs) && path[i..] == Concat(ys);
    assert Fits(seg, p, xs) by {
      forall k | 0 <= k < |p| ensures FitsOne(seg, p[k], xs[k]) {
        assert FitsOne(seg, (p + q)[k], zs[k]);
      }
    }
    assert Fits(seg, q, ys) by {
      forall k | 0 <= k < |q| ensures FitsOne(seg, q[k], ys[k]) {
        assert FitsOne(seg, (p + q)[|p| + k], zs[|p| + k]);
      }
    }
  }

  /** A pattern of two parts matches exactly the paths of a match of each. */
  lemma MatchesConcat(seg: Segment, p: seq<string>, q: seq<string>, path: seq<string>)
    ensures Matches(seg, p + q, path)
       <==> exists i :: 0 <= i <= |path| && Matches(seg, p, path[..i]) && Matches(seg, q, path[i..])
  {
    if Matches(seg, p + q, path) {
      var i := MatchesSplit(seg, p, q, path);
    }
    forall i | 0 <= i <= |path| && Matches(seg, p, path[..i]) && Matches(seg, q, path[i..])
      ensures Matches(seg, p + q, path)
    {
      MatchesJoin(seg, p, q, path, i);
    }
  }

  // ---- single parts ----

  lemma MatchesNothing(seg: Segment, path: seq<string>)
    ensures Matches(seg, [], path) <==> path == []
  {
    if path == [] {
      var none: seq<seq<string>> := [];
      assert Fits(seg, [], none) && Concat(none) == path;
    }
  }

  lemma MatchesOne(seg: Segment, part: string, path: seq<string>)
    ensures Matches(seg, [part], path) <==> FitsOne(seg, part, path)
  {
    if FitsOne(seg, part, path) {
      ConcatOne(path);
      assert Fits(seg, [part], [path]);
    }
    forall pieces | Fits(seg, [part], pieces) && Concat(pieces) == path ensures FitsOne(seg, part, path) {
      ConcatOne(pieces[0]);
      assert pieces == [pieces[0]];
      assert FitsOne(seg, [part][0], pieces[0]);
    }
  }

  /** Stars in front match whatever number of segments the rest leaves over. */
  lemma MatchesStars(seg: Segment, pattern: seq<string>, path: seq<string>)
    requires pattern != [] && pattern[0] == STARS
    ensures Matches(seg, pattern, path) <==> exists i :: 0 <= i <= |path| && Matches(seg, pattern[1..], path[i..])
  {
    assert pattern == [STARS] + pattern[1..];
    MatchesConcat(seg, [STARS], pattern[1..], path);
    forall i | 0 <= i <= |path| ensures Matches(seg, [STARS], path[..i]) {
      MatchesOne(seg, STARS, path[..i]);
    }
  }

  lemma MatchesSegment(seg: Segment, pattern: seq<string>, path: seq<string>)
    requires pattern != [] && pattern[0] != STARS
    ensures Matches(seg, pattern, path)
       <==> path != [] && seg(pattern[0], path[0]) && Matches(seg, pattern[1..], path[1..])
  {
    assert pattern == [pattern[0]] + pattern[1..];
    MatchesConcat(seg, [pattern[0]], pattern[1..], path);
    forall i | 0 <= i <= |path|
      ensures Matches(seg, [pattern[0]], path[..i]) <==> i == 1 && seg(pattern[0], path[0])
    {
      MatchesOne(seg, pattern[0], path[..i]);
    }
  }

  /** Stars next to stars add nothing. */
  lemma StarsCollapse(seg: Segment, p: seq<string>, q: seq<string>, path: seq<string>)
    ensures Matches(seg, p + [STARS] + ([STARS] + q), path) <==> Matches(seg, p + ([STARS] + q), path)
  {
    var one, two := [STARS] + q, [STARS] + ([STARS] + q);
    assert p + [STARS] + ([STARS] + q) == p + two;
    assert one[1..] == q && two[1..] == one;
    forall s: seq<string> ensures Matches(seg, one, s) <==> Matches(seg, two, s) {
      StarsAbsorb(seg, one, two, s);
    }
    MatchesConcat(seg, p, one, path);
    MatchesConcat(seg, p, two, path);
  }

  lemma StarsAbsorb(seg: Segment, one: seq<string>, two: seq<string>, s: seq<string>)
    requires one != [] && one[0] == STARS && two == [STARS] + one
    ensures Matches(seg, one, s) <==> Matches(seg, two, s)
  {
    assert two[1..] == one;
    MatchesStars(seg, one, s);
    MatchesStars(seg, two, s);
    assert s[0..] == s;
    forall i | 0 <= i <= |s| && Matches(seg, one, s[i..]) ensures Matches(seg, one, s) {
      MatchesStars(seg, one, s[i..]);
      var j :| 0 <= j <= |s[i..]| && Matches(seg, one[1..], s[i..][j..]);
      assert s[i..][j..] == s[i + j..];
    }
  }

  // ---- the matcher ----

  /** Returns true exactly when the path matches the pattern. */
  method MatchParts(seg: Segment, pattern: seq<string>, path: seq<string>) returns (ok: bool)
    ensures ok <==> Matches(seg, pattern, path)
    decreases |pattern|
  {
    var pat, rest := pattern, path;
    while |pat| > 0
      invariant |pat| <= |pattern|
      invariant Matches(seg, pat, rest) <==> Matches(seg, pattern, path)
    {
      if pat[0] == STARS {
        MatchesStars(seg, pat, rest);
        pat := pat[1..];
        if |pat| == 0 {
          MatchesNothing(seg, rest[|rest|..]);
          return true;
        }
        for i := 0 to |rest| + 1
          invariant forall j :: 0 <= j < i && j <= |rest| ==> !Matches(seg, pat, rest[j..])
        {
          var found := MatchParts(seg, pat, rest[i..]);
          if found {
            return true;
          }
        }
        return false;
      }
      MatchesSegment(seg, pat, rest);
      if |rest| == 0 {
        return false;
      }
      var matched := seg(pat[0], rest[0]);
      if !matched {
        return false;
      }
      pat, rest := pat[1..], rest[1..];
    }
    MatchesNothing(seg, rest);
    ok := |rest| == 0;
  }

  // ---- paths ----

  function SlashAt(p: string): (i: nat)
    ensures i <= |p| && '/' !in p[..i] && (i < |p| ==> p[i] == '/')
  {
    if p == [] || p[0] == '/' then 0
    else
      assert p[..1 + SlashAt(p[1..])] == [p[0]] + p[1..][..SlashAt(p[1..])];
      1 + SlashAt(p[1..])
  }

  /** The parts between slashes, empty ones included. */
  function Split(p: string): seq<string> {
    var i := SlashAt(p);
    if i == |p| then [p] else [p[..i]] + Split(p[i + 1..])
  }

  function Kept(parts: seq<string>): seq<string> {
    if parts == [] then []
    else
      var last := parts[|parts| - 1];
      Kept(parts[..|parts| - 1]) + (if last != "" then [last] else [])
  }

  /** The segments of a path. */
  function Segments(p: string): seq<string> {
    Kept(Split(p))
  }

  method SplitPath(p: string) returns (result: seq<string>)
    ensures result == Segments(p)
  {
    var parts := Split(p);
    result := [];
    for i := 0 to |parts|
      invariant result == Kept(parts[..i])
    {
      if parts[i] != "" {
        result := result + [parts[i]];
      }
      assert parts[..i + 1][..i] == parts[..i];
    }
    assert parts[..|parts|] == parts;
  }

  lemma {:induction false} KeptAppends(xs: seq<string>, ys: seq<string>)
    ensures Kept(xs + ys) == Kept(xs) + Kept(ys)
  {
    if ys == [] {
      assert xs + ys == xs;
    } else {
      KeptAppends(xs, ys[..|ys| - 1]);
      assert (xs + ys)[..|xs + ys| - 1] == xs + ys[..|ys| - 1];
    }
  }

  lemma {:induction false} SplitAtSlash(a: string, b: string)
    ensures Split(a + "/" + b) == Split(a) + Split(b)
    decreases |a|
  {
    var whole := a + "/" + b;
    var i := SlashAt(a);
    SlashFirst(a, "/" + b);
    assert whole == a + ("/" + b);
    assert whole[..i] == a[..i];
    if i == |a| {
      assert whole[i + 1..] == b;
    } else {
      assert whole[i + 1..] == a[i + 1..] + "/" + b;
      SplitAtSlash(a[i + 1..], b);
    }
  }

  lemma {:induction false} SlashFirst(a: string, b: string)
    requires b != [] && b[0] == '/'
    ensures SlashAt(a + b) == SlashAt(a)
  {
    if a == [] {
      assert a + b == b;
    } else if a[0] != '/' {
      SlashFirst(a[1..], b);
      assert (a + b)[1..] == a[1..] + b;
    }
  }

  /** A slash between two paths puts their segments one behind the other. */
  lemma SegmentsJoin(a: string, b: string)
    ensures Segments(a + "/" + b) == Segments(a) + Segments(b)
  {
    SplitAtSlash(a, b);
    KeptAppends(Split(a), Split(b));
  }

  predicate IsSegment(s: string) {
    s != "" && '/' !in s
  }

  lemma KeptOne(x: string)
    ensures Kept([x]) == if x != "" then [x] else []
  {
    assert [x][..0] == [];
  }

  lemma {:induction false} KeptAreSegments(p: string)
    ensures forall s :: s in Segments(p) ==> IsSegment(s)
    decreases |p|
  {
    var i := SlashAt(p);
    KeptOne(p[..i]);
    if i < |p| {
      KeptAppends([p[..i]], Split(p[i + 1..]));
      KeptAreSegments(p[i + 1..]);
      assert Segments(p) == Kept([p[..i]]) + Segments(p[i + 1..]);
    } else {
      assert p == p[..i];
    }
  }

  lemma OneSegment(s: string)
    requires IsSegment(s)
    ensures Segments(s) == [s]
  {
    assert SlashAt(s) == |s|;
    KeptOne(s);
  }

  function Join(segments: seq<string>): string {
    if segments == [] then ""
    else if |segments| == 1 then segments[0]
    else segments[0] + "/" + Join(segments[1..])
  }

  /** Any segments joined by slashes are split into those segments again. */
  lemma {:induction false} SplitUndoesJoin(segments: seq<string>)
    requires forall s :: s in segments ==> IsSegment(s)
    ensures Segments(Join(segments)) == segments
  {
    if |segments| == 1 {
      OneSegment(segments[0]);
    } else if |segments| > 1 {
      OneSegment(segments[0]);
      SplitUndoesJoin(segments[1..]);
      SegmentsJoin(segments[0], Join(segments[1..]));
    } else {
      assert Split("") == [""];
      KeptOne("");
    }
  }

  // ---- whole patterns ----

  method GlobMatch(seg: Segment, pattern: string, path: string) returns (ok: bool)
    ensures ok <==> Matches(seg, Segments(pattern), Segments(path))
  {
    var patParts := SplitPath(pattern);
    var pathParts := SplitPath(path);
    ok := MatchParts(seg, patParts, pathParts);
  }

  /** A pattern with a slash in it matches a path exactly when its two sides match the two
      sides of some cut of the path. */
  lemma GlobAtSlash(seg: Segment, p: string, q: string, path: string)
    ensures Matches(seg, Segments(p + "/" + q), Segments(path))
       <==> exists i :: 0 <= i <= |Segments(path)|
                     && Matches(seg, Segments(p), Segments(path)[..i]) && Matches(seg, Segments(q), Segments(path)[i..])
  {
    SegmentsJoin(p, q);
    MatchesConcat(seg, Segments(p), Segments(q), Segments(path));
  }
}
