/** Glob patterns: normalization to "anywhere below the root", and matching by segments. */
module Glob {

  const GLOBSTAR := "**"

  // ----- Meaning -----

  /** A globstar stands for any number of segments, every other pattern segment for one segment that
      `one` accepts. */
  predicate Matches(one: (string, string) -> bool, pattern: seq<string>, path: seq<string>)
    decreases |pattern|
  {
    if pattern == [] then path == []
    else if pattern[0] == GLOBSTAR then exists k :: 0 <= k <= |path| && Matches(one, pattern[1..], path[k..])
    else path != [] && one(pattern[0], path[0]) && Matches(one, pattern[1..], path[1..])
  }

  /** Reading a pattern from its end: a final globstar absorbs any tail. */
  lemma {:induction false} StarLast(one: (string, string) -> bool, pattern: seq<string>, path: seq<string>)
    ensures Matches(one, pattern + [GLOBSTAR], path) <==>
              exists k :: 0 <= k <= |path| && Matches(one, pattern, path[..k])
    decreases |pattern|
  {
    var longer := pattern + [GLOBSTAR];
    if pattern == [] {
      assert longer[1..] == [] && Matches(one, longer[1..], path[|path|..]);
      assert Matches(one, pattern, path[..0]);
    } else {
      var rest := pattern[1..];
      assert longer[1..] == rest + [GLOBSTAR];
      if Matches(one, longer, path) {
        var a :| 0 <= a <= |path| && Matches(one, rest + [GLOBSTAR], path[a..]) && (pattern[0] == GLOBSTAR || a == 1);
        StarLast(one, rest, path[a..]);
        var b :| 0 <= b <= |path| - a && Matches(one, rest, path[a..][..b]);
        assert path[a..][..b] == path[..a + b][a..];
        assert Matches(one, pattern, path[..a + b]);
      }
      if k :| 0 <= k <= |path| && Matches(one, pattern, path[..k]) {
        var a :| 0 <= a <= k && Matches(one, rest, path[..k][a..]) && (pattern[0] == GLOBSTAR || a == 1);
        assert path[..k][a..] == path[a..][..k - a];
        StarLast(one, rest, path[a..]);
        assert Matches(one, longer[1..], path[a..]);
      }
    }
  }

  lemma {:induction false} OneLastNeeds(one: (string, string) -> bool, pattern: seq<string>, seg: string,
                                        path: seq<string>)
    requires seg != GLOBSTAR && Matches(one, pattern + [seg], path)
    ensures path != [] && one(seg, path[|path| - 1]) && Matches(one, pattern, path[..|path| - 1])
    decreases |pattern|
  {
    var longer := pattern + [seg];
    if pattern == [] {
      assert longer[1..] == [];
    } else {
      var rest := pattern[1..];
      assert longer[1..] == rest + [seg];
      var a :| 0 <= a <= |path| && Matches(one, rest + [seg], path[a..]) && (pattern[0] == GLOBSTAR || a == 1);
      OneLastNeeds(one, rest, seg, path[a..]);
      FrontOfTail(path, a);
    }
  }

  lemma {:induction false} OneLastSuffices(one: (string, string) -> bool, pattern: seq<string>, seg: string,
                                           path: seq<string>)
    requires seg != GLOBSTAR
    requires path != [] && one(seg, path[|path| - 1]) && Matches(one, pattern, path[..|path| - 1])
    ensures Matches(one, pattern + [seg], path)
    decreases |pattern|
  {
    var longer := pattern + [seg];
    if pattern == [] {
      assert longer[1..] == [];
    } else {
      var rest := pattern[1..];
      assert longer[1..] == rest + [seg];
      var a :| 0 <= a < |path| && Matches(one, rest, path[..|path| - 1][a..]) && (pattern[0] == GLOBSTAR || a == 1);
      FrontOfTail(path, a);
      OneLastSuffices(one, rest, seg, path[a..]);
      assert Matches(one, longer[1..], path[a..]);
    }
  }

  /** Reading a pattern from its end: any other final segment takes the last path segment. */
  lemma OneLast(one: (string, string) -> bool, pattern: seq<string>, seg: string, path: seq<string>)
    requires seg != GLOBSTAR
    ensures Matches(one, pattern + [seg], path) <==>
              path != [] && one(seg, path[|path| - 1]) && Matches(one, pattern, path[..|path| - 1])
  {
    if Matches(one, pattern + [seg], path) {
      OneLastNeeds(one, pattern, seg, path);
    } else if path != [] && one(seg, path[|path| - 1]) && Matches(one, pattern, path[..|path| - 1]) {
      OneLastSuffices(one, pattern, seg, path);
    }
  }

  lemma FrontOfTail(path: seq<string>, a: nat)
    requires a <= |path|
    ensures a < |path| ==>
              path[a..][..|path[a..]| - 1] == path[..|path| - 1][a..] && path[a..][|path[a..]| - 1] == path[|path| - 1]
  {
  }

  /** The two-row table: `prev` says which prefixes of the path the pattern read so far matches. */
  method MatchSegments(one: (string, string) -> bool, pattern: seq<string>, path: seq<string>) returns (ok: bool)
    ensures ok == Matches(one, pattern, path)
  {
    var n := |path|;
    var prev := new bool[n + 1](_ => false);
    var curr := new bool[n + 1](_ => false);
    prev[0] := true;
    for i := 0 to |pattern|
      invariant prev != curr && prev.Length == curr.Length == n + 1
      invariant fresh(prev) && fresh(curr)
      invariant forall j :: 0 <= j <= n ==> prev[j] == Matches(one, pattern[..i], path[..j])
    {
      var seg := pattern[i];
      ghost var before, after := pattern[..i], pattern[..i + 1];
      assert after == before + [seg];
      var isGlobstar := seg == GLOBSTAR;
      curr[0] := isGlobstar && prev[0];
      FirstColumn(one, before, seg, path);
      for j := 1 to n + 1
        invariant forall k :: 0 <= k <= n ==> prev[k] == Matches(one, before, path[..k])
        invariant forall k :: 0 <= k < j ==> curr[k] == Matches(one, after, path[..k])
      {
        NextColumn(one, before, seg, path, j);
        if isGlobstar {
          curr[j] := prev[j] || curr[j - 1];
        } else {
          var matched := one(seg, path[j - 1]);
          curr[j] := matched && prev[j - 1];
        }
      }
      prev, curr := curr, prev;
    }
    assert pattern[..|pattern|] == pattern && path[..n] == path;
    return prev[n];
  }

  lemma FirstColumn(one: (string, string) -> bool, before: seq<string>, seg: string, path: seq<string>)
    ensures Matches(one, before + [seg], path[..0]) <==> seg == GLOBSTAR && Matches(one, before, path[..0])
  {
    hide Matches;
    if seg == GLOBSTAR {
      StarLast(one, before, path[..0]);
      assert path[..0][..0] == path[..0];
    } else {
      OneLast(one, before, seg, path[..0]);
    }
  }

  lemma NextColumn(one: (string, string) -> bool, before: seq<string>, seg: string, path: seq<string>, j: nat)
    requires 0 < j <= |path|
    ensures Matches(one, before + [seg], path[..j]) <==>
              if seg == GLOBSTAR then Matches(one, before, path[..j]) || Matches(one, before + [seg], path[..j - 1])
              else one(seg, path[j - 1]) && Matches(one, before, path[..j - 1])
  {
    hide Matches;
    if seg == GLOBSTAR {
      var whole, shorter := path[..j], path[..j - 1];
      StarLast(one, before, whole);
      StarLast(one, before, shorter);
      assert whole[..j] == whole && forall k :: 0 <= k < j ==> whole[..k] == shorter[..k];
      if Matches(one, before + [seg], whole) {
        var k :| 0 <= k <= j && Matches(one, before, whole[..k]);
        assert k < j ==> Matches(one, before, shorter[..k]);
      }
      if Matches(one, before, whole) {
        assert Matches(one, before, whole[..j]);
      }
      if Matches(one, before + [seg], shorter) {
        var k :| 0 <= k < j && Matches(one, before, shorter[..k]);
        assert Matches(one, before, whole[..k]);
      }
    } else {
      OneLast(one, before, seg, path[..j]);
      assert path[..j][..j - 1] == path[..j - 1];
    }
  }

  // ----- Strings and segments -----

  function Split(s: string): (segs: seq<string>)
    ensures segs != []
  {
    if s == "" then [""]
    else if s[0] == '/' then [""] + Split(s[1..])
    else
      var rest := Split(s[1..]);
      [[s[0]] + rest[0]] + rest[1..]
  }

  function Join(segs: seq<string>): string {
    if segs == [] then ""
    else if |segs| == 1 then segs[0]
    else segs[0] + "/" + Join(segs[1..])
  }

  predicate Plain(seg: string) {
    '/' !in seg
  }

  predicate AllPlain(segs: seq<string>) {
    forall i :: 0 <= i < |segs| ==> Plain(segs[i])
  }

  lemma {:induction false} SplitPlain(s: string)
    ensures AllPlain(Split(s))
  {
    if s != "" {
      SplitPlain(s[1..]);
    }
  }

  lemma {:induction false} SplitAt(seg: string, rest: string)
    requires Plain(seg)
    ensures Split(seg) == [seg]
    ensures Split(seg + "/" + rest) == [seg] + Split(rest)
  {
    if seg == "" {
      assert (seg + "/" + rest)[1..] == rest;
    } else {
      SplitAt(seg[1..], rest);
      assert (seg + "/" + rest)[1..] == seg[1..] + "/" + rest;
      assert [seg[0]] + seg[1..] == seg;
    }
  }

  lemma {:induction false} SplitJoin(segs: seq<string>)
    requires segs != [] && AllPlain(segs)
    ensures Split(Join(segs)) == segs
  {
    SplitAt(segs[0], Join(segs[1..]));
    if |segs| > 1 {
      SplitJoin(segs[1..]);
    }
  }

  lemma {:induction false} JoinSplit(s: string)
    ensures Join(Split(s)) == s
  {
    if s != "" {
      JoinSplit(s[1..]);
      var rest := Split(s[1..]);
      if s[0] == '/' {
        assert Split(s)[1..] == rest;
      } else {
        assert Split(s)[1..] == rest[1..];
      }
    }
  }

  // ----- Normalization -----

  function TrimPrefix(s: string, prefix: string): string {
    if prefix <= s then s[|prefix|..] else s
  }

  function NonEmpty(segs: seq<string>): (kept: seq<string>)
    ensures forall seg :: seg in kept ==> seg != ""
  {
    if segs == [] then []
    else NonEmpty(segs[..|segs| - 1]) + if segs[|segs| - 1] != "" then [segs[|segs| - 1]] else []
  }

  /** What a pattern asks for: leading "." and empty segments that something follows are dropped,
      then every empty segment. */
  function Core(segs: seq<string>): (kept: seq<string>)
    ensures forall seg :: seg in kept ==> seg != ""
  {
    if |segs| > 1 && (segs[0] == "" || segs[0] == ".") then Core(segs[1..]) else NonEmpty(segs)
  }

  /** The normal form: the core, below any directory unless it says so itself. */
  function Normal(segs: seq<string>): seq<string> {
    var core := Core(segs);
    if core != [] && core[0] == GLOBSTAR then core else [GLOBSTAR] + core
  }

  function Normalized(pattern: string): string {
    Join(Normal(Split(pattern)))
  }

  method NormalizeGlobPattern(input: string) returns (r: string)
    ensures r == Normalized(input)
    ensures Split(r) == Normal(Split(input))
  {
    hide Split, Join, Core, NonEmpty, AllPlain;
    var pattern := input;
    while true
      invariant Core(Split(pattern)) == Core(Split(input))
      decreases |pattern|
    {
      var trimmed := TrimPrefix(pattern, "./");
      TrimKeepsCore(pattern, ".");
      TrimKeepsCore(trimmed, "");
      trimmed := TrimPrefix(trimmed, "/");
      if trimmed == pattern {
        break;
      }
      pattern := trimmed;
    }
    TrimmedCore(pattern);
    var nonEmpty := DropEmpty(Split(pattern));
    CorePlain(input);
    NormalPlain(input);
    pattern := Join(nonEmpty);
    JoinedShape(nonEmpty);
    assert [GLOBSTAR] + [] == [GLOBSTAR];
    if pattern == "" || pattern == "**" {
      return "**";
    }
    if "**/" <= pattern {
      return pattern;
    }
    return "**/" + pattern;
  }

  method DropEmpty(segs: seq<string>) returns (nonEmpty: seq<string>)
    ensures nonEmpty == NonEmpty(segs)
  {
    nonEmpty := [];
    for i := 0 to |segs|
      invariant nonEmpty == NonEmpty(segs[..i])
    {
      assert segs[..i + 1][..i] == segs[..i];
      if segs[i] != "" {
        nonEmpty := nonEmpty + [segs[i]];
      }
    }
    assert segs[..|segs|] == segs;
  }

  lemma TrimKeepsCore(s: string, dot: string)
    requires dot == "." || dot == ""
    ensures Core(Split(TrimPrefix(s, dot + "/"))) == Core(Split(s))
  {
    if dot + "/" <= s {
      var rest := s[|dot| + 1..];
      assert s == dot + "/" + rest;
      SplitAt(dot, rest);
      assert Split(s)[1..] == Split(rest);
    }
  }

  /** What begins with a dot or an empty segment can be trimmed. */
  lemma Leading(s: string)
    ensures |Split(s)| > 1 && Split(s)[0] == "." ==> "./" <= s
    ensures |Split(s)| > 1 && Split(s)[0] == "" ==> "/" <= s
  {
    JoinSplit(s);
    var segs := Split(s);
    assert |segs| > 1 ==> s == segs[0] + "/" + Join(segs[1..]);
  }

  /** Once nothing can be trimmed, only empty segments are left to drop. */
  lemma TrimmedCore(s: string)
    requires TrimPrefix(TrimPrefix(s, "./"), "/") == s
    ensures Core(Split(s)) == NonEmpty(Split(s))
  {
    Leading(s);
  }

  lemma {:induction false} NonEmptyPlain(segs: seq<string>)
    requires AllPlain(segs)
    ensures AllPlain(NonEmpty(segs))
  {
    if segs != [] {
      NonEmptyPlain(segs[..|segs| - 1]);
    }
  }

  lemma {:induction false} CoreOfPlain(segs: seq<string>)
    requires AllPlain(segs)
    ensures AllPlain(Core(segs))
  {
    if |segs| > 1 && (segs[0] == "" || segs[0] == ".") {
      CoreOfPlain(segs[1..]);
    } else {
      NonEmptyPlain(segs);
    }
  }

  lemma CorePlain(s: string)
    ensures AllPlain(Core(Split(s)))
  {
    SplitPlain(s);
    CoreOfPlain(Split(s));
  }

  lemma NormalPlain(s: string)
    ensures AllPlain(Normal(Split(s))) && Split(Join(Normal(Split(s)))) == Normal(Split(s))
  {
    CorePlain(s);
    SplitJoin(Normal(Split(s)));
  }

  /** What the text of a joined core says about its segments. */
  lemma JoinedShape(core: seq<string>)
    requires AllPlain(core) && forall seg :: seg in core ==> seg != ""
    ensures Join(core) == "" <==> core == []
    ensures Join(core) == "**" <==> core == [GLOBSTAR]
    ensures "**/" <= Join(core) <==> |core| > 1 && core[0] == GLOBSTAR
    ensures core != [] ==> "**/" + Join(core) == Join([GLOBSTAR] + core)
    ensures Join([GLOBSTAR]) == GLOBSTAR
  {
    hide Split;
    if core != [] {
      SplitJoin(core);
      SplitAt("", "");
      SplitAt(GLOBSTAR, "");
      assert core[0] in core;
      JoinedUnder(core);
      JoinBelow(core);
    }
  }

  lemma JoinedUnder(core: seq<string>)
    requires AllPlain(core) && core != []
    ensures "**/" <= Join(core) <==> |core| > 1 && core[0] == GLOBSTAR
  {
    hide Split;
    SplitJoin(core);
    if "**/" <= Join(core) {
      Under(Join(core));
    }
  }

  lemma Under(s: string)
    requires "**/" <= s
    ensures |Split(s)| > 1 && Split(s)[0] == GLOBSTAR
  {
    hide Split;
    SplitAt(GLOBSTAR, s[3..]);
    assert s == GLOBSTAR + "/" + s[3..];
  }

  lemma JoinBelow(core: seq<string>)
    requires core != []
    ensures "**/" + Join(core) == Join([GLOBSTAR] + core)
  {
    assert ([GLOBSTAR] + core)[1..] == core;
  }

  /** Normalizing again changes nothing, and no empty segment reaches the matcher. */
  lemma NormalForm(pattern: string)
    ensures Normalized(Normalized(pattern)) == Normalized(pattern)
    ensures forall seg :: seg in Split(Normalized(pattern)) ==> seg != ""
  {
    hide Split, Join, AllPlain;
    NormalPlain(pattern);
    KeepsAll(Normal(Split(pattern)));
  }

  lemma {:induction false} KeepsAll(segs: seq<string>)
    requires forall seg :: seg in segs ==> seg != ""
    ensures NonEmpty(segs) == segs
  {
    if segs != [] {
      var front := segs[..|segs| - 1];
      forall seg | seg in front ensures seg != "" {
        assert seg in segs;
      }
      KeepsAll(front);
      assert segs[|segs| - 1] in segs;
    }
  }

  /** A normalized pattern matches a path exactly when its core matches the path from some segment
      on: patterns apply anywhere below the root. */
  lemma AnywhereBelow(one: (string, string) -> bool, pattern: string, path: seq<string>)
    ensures Matches(one, Split(Normalized(pattern)), path) <==>
              exists k :: 0 <= k <= |path| && Matches(one, Core(Split(pattern)), path[k..])
  {
    var core := Core(Split(pattern));
    NormalPlain(pattern);
    if core != [] && core[0] == GLOBSTAR {
      GlobstarAbsorbs(one, core, path);
    } else {
      assert ([GLOBSTAR] + core)[1..] == core;
    }
  }

  lemma GlobstarAbsorbs(one: (string, string) -> bool, core: seq<string>, path: seq<string>)
    requires core != [] && core[0] == GLOBSTAR
    ensures Matches(one, core, path) <==> exists k :: 0 <= k <= |path| && Matches(one, core, path[k..])
  {
    assert path[0..] == path;
    if Matches(one, core, path) {
      assert Matches(one, core, path[0..]);
    }
    forall k | 0 <= k <= |path| && Matches(one, core, path[k..]) ensures Matches(one, core, path) {
      var a :| 0 <= a <= |path[k..]| && Matches(one, core[1..], path[k..][a..]);
      assert path[k..][a..] == path[k + a..];
    }
  }
}
