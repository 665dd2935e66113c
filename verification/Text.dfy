/** White space and argument normalization. */
module Text {

  predicate IsSpace(c: char) {
    || '\U{0009}' <= c <= '\U{000D}' || c == ' ' || c == '\U{0085}' || c == '\U{00A0}'
    || c == '\U{1680}' || '\U{2000}' <= c <= '\U{200A}' || c == '\U{2028}' || c == '\U{2029}'
    || c == '\U{202F}' || c == '\U{205F}' || c == '\U{3000}'
  }

  /** Nothing but white space. */
  predicate Blank(s: string) {
    forall i :: 0 <= i < |s| ==> IsSpace(s[i])
  }

  /** The white space of the Unicode standard, one by one. */
  lemma SpacesAre(c: char)
    ensures IsSpace(c) <==>
              c in "\t\n\U{000B}\U{000C}\r \U{0085}\U{00A0}\U{1680}\U{2000}\U{2001}\U{2002}\U{2003}\U{2004}\U{2005}"
                   + "\U{2006}\U{2007}\U{2008}\U{2009}\U{200A}\U{2028}\U{2029}\U{202F}\U{205F}\U{3000}"
  {
  }

  function TrimLeft(s: string): string {
    if s != "" && IsSpace(s[0]) then TrimLeft(s[1..]) else s
  }

  function TrimRight(s: string): string {
    if s != "" && IsSpace(s[|s| - 1]) then TrimRight(s[..|s| - 1]) else s
  }

  function TrimSpace(s: string): string {
    TrimRight(TrimLeft(s))
  }

  lemma {:induction false} LeftTrimmed(s: string) returns (i: nat)
    ensures i <= |s| && TrimLeft(s) == s[i..] && Blank(s[..i]) && (i < |s| ==> !IsSpace(s[i]))
  {
    if s != "" && IsSpace(s[0]) {
      var n := LeftTrimmed(s[1..]);
      i := n + 1;
      assert s[..i] == [s[0]] + s[1..][..n];
    } else {
      i := 0;
    }
  }

  lemma {:induction false} RightTrimmed(s: string) returns (j: nat)
    ensures j <= |s| && TrimRight(s) == s[..j] && Blank(s[j..]) && (j > 0 ==> !IsSpace(s[j - 1]))
  {
    if s != "" && IsSpace(s[|s| - 1]) {
      j := RightTrimmed(s[..|s| - 1]);
      assert s[j..] == s[..|s| - 1][j..] + [s[|s| - 1]];
    } else {
      j := |s|;
    }
  }

  /** Trimming takes white space away on both sides and nothing else, and as much as there is. */
  lemma TrimMeans(s: string) returns (i: nat, j: nat)
    ensures i <= j <= |s| && TrimSpace(s) == s[i..j] && Blank(s[..i]) && Blank(s[j..])
    ensures if i < j then !IsSpace(s[i]) && !IsSpace(s[j - 1]) else Blank(s)
  {
    i := LeftTrimmed(s);
    var n := RightTrimmed(s[i..]);
    j := i + n;
    assert s[i..][..n] == s[i..j] && s[i..][n..] == s[j..];
    if i == j {
      assert s == s[..i] + s[j..];
    }
  }

  /** Only blank text is trimmed away. */
  lemma BlankMeans(s: string)
    ensures TrimSpace(s) == "" <==> Blank(s)
  {
    var i, j := TrimMeans(s);
  }

  /** Trimmed arguments, with an empty object standing for no arguments at all. */
  function NormalizeArgs(raw: string): string {
    if TrimSpace(raw) == "" then "{}" else TrimSpace(raw)
  }

  /** Blank arguments become an empty object, any others lose the white space around them. */
  lemma NormalizeMeans(raw: string) returns (i: nat, j: nat)
    ensures i <= j <= |raw| && Blank(raw[..i]) && Blank(raw[j..])
    ensures if Blank(raw) then NormalizeArgs(raw) == "{}"
            else i < j && NormalizeArgs(raw) == raw[i..j] && !IsSpace(raw[i]) && !IsSpace(raw[j - 1])
  {
    i, j := TrimMeans(raw);
    BlankMeans(raw);
  }
}
