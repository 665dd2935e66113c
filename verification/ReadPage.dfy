/** Pagination of the read tool: pages of whole lines under a byte ceiling, and the hints that lead
    from one page to the next. Text is a sequence of bytes. */
module ReadPage {
  import opened Wrappers

  const READ_MAX_LINES: nat := 2000
  const READ_MAX_BYTES: nat := 120000

  /** The lines of a text, each with its newline; what follows the last newline is a line too. */
  function SplitAfter(text: string): (lines: seq<string>)
    ensures lines != []
  {
    if text == "" then [""]
    else if text[0] == '\n' then ["\n"] + SplitAfter(text[1..])
    else
      var rest := SplitAfter(text[1..]);
      [[text[0]] + rest[0]] + rest[1..]
  }

  function Concat(lines: seq<string>): string {
    if lines == [] then "" else lines[0] + Concat(lines[1..])
  }

  function Bytes(lines: seq<string>): nat {
    |Concat(lines)|
  }

  lemma {:induction false} ConcatAppend(a: seq<string>, b: seq<string>)
    ensures Concat(a + b) == Concat(a) + Concat(b)
  {
    if a == [] {
      assert a + b == b;
    } else {
      ConcatAppend(a[1..], b);
      assert (a + b)[1..] == a[1..] + b;
      var head, first, second := a[0], Concat(a[1..]), Concat(b);
      assert head + (first + second) == (head + first) + second;
    }
  }

  /** Text without a newline. */
  predicate Unbroken(s: string) {
    forall i :: 0 <= i < |s| ==> s[i] != '\n'
  }

  /** Splitting loses nothing. */
  lemma {:induction false} SplitKeepsAll(text: string)
    ensures Concat(SplitAfter(text)) == text
  {
    if text != "" {
      SplitKeepsAll(text[1..]);
      var rest := SplitAfter(text[1..]);
      assert SplitAfter(text)[1..] == if text[0] == '\n' then rest else rest[1..];
    }
  }

  /** The line ends with its only newline. */
  predicate Whole(line: string) {
    line != "" && line[|line| - 1] == '\n' && Unbroken(line[..|line| - 1])
  }

  /** Every line but the last ends with its only newline, and the last has none. */
  lemma {:induction false} SplitAtNewlines(text: string)
    ensures var lines := SplitAfter(text);
            && Unbroken(lines[|lines| - 1])
            && forall i :: 0 <= i < |lines| - 1 ==> Whole(lines[i])
  {
    hide Whole;
    if text != "" {
      SplitAtNewlines(text[1..]);
      var rest := SplitAfter(text[1..]);
      if text[0] == '\n' {
        assert Whole("\n") by {
          Longer('\n', "");
        }
      } else {
        Longer(text[0], rest[0]);
      }
    }
  }

  lemma Longer(c: char, line: string)
    ensures Whole(['\n'])
    ensures c != '\n' && Whole(line) ==> Whole([c] + line)
    ensures c != '\n' && Unbroken(line) ==> Unbroken([c] + line)
  {
    var longer := [c] + line;
    assert line != "" ==> longer[..|longer| - 1] == [c] + line[..|line| - 1];
  }

  /** What a page says about itself besides its text. */
  datatype Hint =
    | NoHint
    | Showing(first: nat, last: nat, total: nat, next: nat)
    | CutLine(line: nat, length: nat, following: Option<nat>)

  datatype Page = Page(body: string, hint: Hint)

  /** The number of real lines: an empty last line is an artifact of the final newline. */
  function LogicalEnd(lines: seq<string>): nat {
    if lines != [] && lines[|lines| - 1] == "" then |lines| - 1 else |lines|
  }

  function Start(lines: seq<string>, offset: int): (start: nat)
    ensures start <= |lines|
  {
    var start := if offset > 0 then offset - 1 else 0;
    if start > |lines| then |lines| else start
  }

  function End(lines: seq<string>, start: nat, limit: int): (end: nat)
    requires start <= |lines|
    ensures start <= end <= |lines|
    ensures start < |lines| ==> start < end
  {
    var page := if limit > 0 then limit else READ_MAX_LINES;
    if page < |lines| - start then start + page else |lines|
  }

  /** `cut` is where a page that starts at `start` ends: as many whole lines as the ceiling allows. */
  ghost predicate LongestFit(lines: seq<string>, start: nat, end: nat, cut: nat)
    requires start <= end <= |lines|
  {
    && start <= cut <= end
    && Bytes(lines[start..cut]) <= READ_MAX_BYTES
    && (cut < end ==> Bytes(lines[start..cut + 1]) > READ_MAX_BYTES)
  }

  lemma BytesSnoc(lines: seq<string>, start: nat, i: nat)
    requires start <= i < |lines|
    ensures Concat(lines[start..i + 1]) == Concat(lines[start..i]) + lines[i]
  {
    ConcatAppend(lines[start..i], [lines[i]]);
    assert lines[start..i + 1] == lines[start..i] + [lines[i]];
    assert Concat([lines[i]]) == lines[i] + Concat([]);
  }

  lemma {:induction false} BytesGrow(lines: seq<string>, start: nat, i: nat, j: nat)
    requires start <= i <= j <= |lines|
    ensures Bytes(lines[start..i]) <= Bytes(lines[start..j])
  {
    if i < j {
      BytesGrow(lines, start, i, j - 1);
      BytesSnoc(lines, start, j - 1);
    }
  }

  lemma FitsOnce(lines: seq<string>, start: nat, end: nat, a: nat, b: nat)
    requires start <= end <= |lines|
    requires LongestFit(lines, start, end, a) && LongestFit(lines, start, end, b)
    ensures a == b
  {
    if a < b {
      BytesGrow(lines, start, a + 1, b);
    } else if b < a {
      BytesGrow(lines, start, b + 1, a);
    }
  }

  /** The hint of a page of whole lines. */
  function PageHint(lines: seq<string>, start: nat, cut: nat, limit: int): Hint {
    var logicalEnd := LogicalEnd(lines);
    if limit <= 0 && start < cut < logicalEnd then Showing(start + 1, cut, logicalEnd, cut + 1) else NoHint
  }

  /** Everything a page of the lines from `start` to `end` promises: at most one of its lines is cut, and
      only when it alone is over the ceiling; otherwise the page is the longest run of whole lines that
      fits. */
  ghost predicate LinesFit(lines: seq<string>, start: nat, end: nat, limit: int, page: Page)
    requires start <= end <= |lines|
  {
    if start < |lines| && |lines[start]| > READ_MAX_BYTES then
      && page.body == lines[start][..READ_MAX_BYTES]
      && page.hint
         == CutLine(start + 1, |lines[start]|, if start + 1 < LogicalEnd(lines) then Some(start + 2) else None)
    else
      exists cut: nat ::
        && LongestFit(lines, start, end, cut)
        && page.body == Concat(lines[start..cut])
        && page.hint == PageHint(lines, start, cut, limit)
  }

  ghost predicate PageFits(text: string, offset: int, limit: int, page: Page) {
    var lines := SplitAfter(text);
    var start := Start(lines, offset);
    LinesFit(lines, start, End(lines, start, limit), limit, page)
  }

  /** What a page promises leaves no choice. */
  lemma PageUnique(text: string, offset: int, limit: int, a: Page, b: Page)
    requires PageFits(text, offset, limit, a) && PageFits(text, offset, limit, b)
    ensures a == b
  {
    hide SplitAfter, Concat, Bytes;
    var lines := SplitAfter(text);
    var start := Start(lines, offset);
    var end := End(lines, start, limit);
    if start == |lines| || |lines[start]| <= READ_MAX_BYTES {
      var i: nat :| LongestFit(lines, start, end, i) && a.body == Concat(lines[start..i])
                    && a.hint == PageHint(lines, start, i, limit);
      var j: nat :| LongestFit(lines, start, end, j) && b.body == Concat(lines[start..j])
                    && b.hint == PageHint(lines, start, j, limit);
      FitsOnce(lines, start, end, i, j);
    }
  }

  /** The page of `text` that starts at line `offset`, of at most `limit` lines when it is positive. */
  method ReadPage(text: string, offset: int, limit: int) returns (page: Page)
    ensures PageFits(text, offset, limit, page)
    ensures |page.body| <= 120000
  {
    hide SplitAfter, Concat, Bytes;
    var lines := SplitAfter(text);
    var totalLines := |lines|;
    var logicalEnd := totalLines;
    if totalLines > 0 && lines[totalLines - 1] == "" {
      logicalEnd := totalLines - 1;
    }
    var start := 0;
    if offset > 0 {
      start := offset - 1;
    }
    if start > totalLines {
      start := totalLines;
    }
    var size := READ_MAX_LINES;
    if limit > 0 {
      size := limit;
    }
    var end := totalLines;
    if size < totalLines - start {
      end := start + size;
    }
    page := OnePage(lines, start, end, logicalEnd, limit);
  }

  method OnePage(lines: seq<string>, start: nat, end: nat, logicalEnd: nat, limit: int) returns (page: Page)
    requires start <= end <= |lines| && (start < |lines| ==> start < end) && logicalEnd == LogicalEnd(lines)
    ensures LinesFit(lines, start, end, limit, page) && |page.body| <= READ_MAX_BYTES
  {
    hide Concat, Bytes, LogicalEnd;
    var cappedEnd, byteCapped := FitLines(lines, start, end);
    if cappedEnd == start && !byteCapped {
      NothingFits(lines, start, end);
      return Page("", NoHint);
    }
    if byteCapped {
      if cappedEnd < logicalEnd {
        page := Page(lines[start][..READ_MAX_BYTES], CutLine(start + 1, |lines[start]|, Some(cappedEnd + 1)));
      } else {
        page := Page(lines[start][..READ_MAX_BYTES], CutLine(start + 1, |lines[start]|, None));
      }
    } else {
      WholeLines(lines, start, end, cappedEnd);
      page := Page(Concat(lines[start..cappedEnd]), NoHint);
      if limit <= 0 && cappedEnd < logicalEnd {
        page := page.(hint := Showing(start + 1, cappedEnd, logicalEnd, cappedEnd + 1));
      }
    }
  }

  /** Walks the lines of a page up to the byte ceiling. */
  method FitLines(lines: seq<string>, start: nat, end: nat) returns (cappedEnd: nat, byteCapped: bool)
    requires start <= end <= |lines|
    ensures byteCapped <==> start < end && |lines[start]| > READ_MAX_BYTES
    ensures if byteCapped then cappedEnd == start + 1 else LongestFit(lines, start, end, cappedEnd)
  {
    hide Concat;
    byteCapped := false;
    var byteCount := 0;
    cappedEnd := start;
    NoBytes(lines, start);
    for i := start to end
      invariant cappedEnd == i && !byteCapped
      invariant byteCount == Bytes(lines[start..i]) <= READ_MAX_BYTES
      invariant i > start ==> |lines[start]| <= READ_MAX_BYTES
    {
      var lineLen := |lines[i]|;
      BytesSnoc(lines, start, i);
      if i == start && lineLen > READ_MAX_BYTES {
        cappedEnd := i + 1;
        byteCapped := true;
        break;
      }
      if byteCount + lineLen > READ_MAX_BYTES {
        break;
      }
      byteCount := byteCount + lineLen;
      cappedEnd := i + 1;
    }
  }

  lemma NoBytes(lines: seq<string>, start: nat)
    requires start <= |lines|
    ensures Bytes(lines[start..start]) == 0
  {
  }

  /** A page that is not cut short by its first line has at least one line, unless it starts at the end. */
  lemma NothingFits(lines: seq<string>, start: nat, end: nat)
    requires start <= end <= |lines| && LongestFit(lines, start, end, start)
    requires start < end ==> |lines[start]| <= READ_MAX_BYTES
    ensures start == end && Concat(lines[start..start]) == ""
  {
    if start < end {
      BytesSnoc(lines, start, start);
    }
  }

  lemma WholeLines(lines: seq<string>, start: nat, end: nat, cut: nat)
    requires start <= end <= |lines| && LongestFit(lines, start, end, cut)
    ensures |Concat(lines[start..cut])| <= READ_MAX_BYTES
  {
  }

  // ----- Following the hints -----

  /** The offset a hint offers. */
  function Next(hint: Hint): Option<nat> {
    match hint
    case NoHint => None
    case Showing(_, _, _, next) => Some(next)
    case CutLine(_, _, following) => following
  }

  /** `pages` were read one after the other, without a limit, each at the offset the previous hint
      offered; the last one may offer another. */
  ghost predicate Walks(text: string, offset: int, pages: seq<Page>)
    decreases |pages|
  {
    && pages != []
    && PageFits(text, offset, 0, pages[0])
    && (|pages| > 1 ==> Next(pages[0].hint).Some? && Walks(text, Next(pages[0].hint).value, pages[1..]))
  }

  /** The walk went on until a page offered no further one. */
  ghost predicate Follows(text: string, offset: int, pages: seq<Page>) {
    Walks(text, offset, pages) && Next(pages[|pages| - 1].hint).None?
  }

  function Bodies(pages: seq<Page>): string {
    if pages == [] then "" else pages[0].body + Bodies(pages[1..])
  }

  function Shortened(line: string): string {
    if |line| > READ_MAX_BYTES then line[..READ_MAX_BYTES] else line
  }

  function AllShortened(lines: seq<string>): string {
    if lines == [] then "" else Shortened(lines[0]) + AllShortened(lines[1..])
  }

  lemma {:induction false} ShortenedAppend(a: seq<string>, b: seq<string>)
    ensures AllShortened(a + b) == AllShortened(a) + AllShortened(b)
  {
    hide Shortened;
    if a == [] {
      assert a + b == b;
    } else {
      ShortenedAppend(a[1..], b);
      assert (a + b)[1..] == a[1..] + b;
      var head, first, second := Shortened(a[0]), AllShortened(a[1..]), AllShortened(b);
      assert AllShortened(a + b) == head + (first + second);
      assert head + (first + second) == (head + first) + second;
    }
  }

  /** Lines that fit together fit one by one. */
  lemma {:induction false} ShortenedFits(lines: seq<string>)
    requires forall line :: line in lines ==> |line| <= READ_MAX_BYTES
    ensures AllShortened(lines) == Concat(lines)
  {
    if lines != [] {
      ShortenedFits(lines[1..]);
    }
  }

  lemma {:induction false} LineInConcat(lines: seq<string>, i: nat)
    requires i < |lines|
    ensures |lines[i]| <= |Concat(lines)|
  {
    if i > 0 {
      LineInConcat(lines[1..], i - 1);
    }
  }

  lemma FittingLines(lines: seq<string>)
    requires Bytes(lines) <= READ_MAX_BYTES
    ensures AllShortened(lines) == Concat(lines)
  {
    forall line | line in lines ensures |line| <= READ_MAX_BYTES {
      var i :| 0 <= i < |lines| && lines[i] == line;
      LineInConcat(lines, i);
    }
    ShortenedFits(lines);
  }

  /** One page of a walk: where it ends, what it contributes, and whether the walk goes on. */
  lemma PageCovers(text: string, offset: nat, page: Page) returns (cut: nat)
    requires PageFits(text, offset, 0, page)
    requires 0 < offset <= |SplitAfter(text)|
    ensures var lines := SplitAfter(text);
            && offset - 1 < cut <= |lines|
            && page.body == AllShortened(lines[offset - 1..cut])
            && (Next(page.hint).Some? ==> Next(page.hint).value == cut + 1 && cut < |lines|)
            && (Next(page.hint).None? ==> LogicalEnd(lines) <= cut)
  {
    hide SplitAfter, Concat;
    var lines := SplitAfter(text);
    var start := Start(lines, offset);
    var end := End(lines, start, 0);
    if |lines[start]| > READ_MAX_BYTES {
      cut := start + 1;
      assert lines[start..cut] == [lines[start]];
      assert AllShortened([lines[start]]) == Shortened(lines[start]) + AllShortened([]);
    } else {
      cut :| LongestFit(lines, start, end, cut) && page.body == Concat(lines[start..cut])
             && page.hint == PageHint(lines, start, cut, 0);
      if cut == start {
        NothingFits(lines, start, end);
      }
      FittingLines(lines[start..cut]);
    }
  }

  /** Following the hints gives the rest of the text, each line cut to the ceiling. */
  lemma {:induction false} FollowingReads(text: string, offset: nat, pages: seq<Page>)
    requires Follows(text, offset, pages) && 0 < offset <= |SplitAfter(text)|
    ensures Bodies(pages) == AllShortened(SplitAfter(text)[offset - 1..])
    decreases |pages|
  {
    hide SplitAfter, PageFits, AllShortened, LogicalEnd;
    var lines := SplitAfter(text);
    var cut := PageCovers(text, offset, pages[0]);
    assert lines[offset - 1..] == lines[offset - 1..cut] + lines[cut..];
    ShortenedAppend(lines[offset - 1..cut], lines[cut..]);
    if |pages| > 1 {
      FollowingReads(text, cut + 1, pages[1..]);
    } else {
      assert pages[1..] == [];
      LogicallyEmpty(lines, cut);
      assert Bodies(pages[1..]) == "";
    }
  }

  /** Nothing is left after the last real line. */
  lemma LogicallyEmpty(lines: seq<string>, cut: nat)
    requires LogicalEnd(lines) <= cut <= |lines|
    ensures AllShortened(lines[cut..]) == ""
  {
    if cut < |lines| {
      assert lines[cut..] == [""];
      assert AllShortened([""]) == Shortened("") + AllShortened([]);
    }
  }

  /** No walk, finished or not, has more pages than there are lines left. */
  lemma {:induction false} WalkBounded(text: string, offset: nat, walk: seq<Page>)
    requires Walks(text, offset, walk) && 0 < offset <= |SplitAfter(text)|
    ensures |walk| <= |SplitAfter(text)| - offset + 1
    decreases |walk|
  {
    hide SplitAfter, PageFits;
    if |walk| > 1 {
      var cut := PageCovers(text, offset, walk[0]);
      WalkBounded(text, cut + 1, walk[1..]);
    }
  }

  /** A walk cannot differ from the finished one; it can only stop earlier. */
  lemma {:induction false} WalkOnce(text: string, offset: int, walk: seq<Page>, pages: seq<Page>)
    requires Walks(text, offset, walk) && Follows(text, offset, pages)
    ensures walk <= pages
    decreases |walk|
  {
    hide PageFits;
    PageUnique(text, offset, 0, walk[0], pages[0]);
    if |walk| > 1 {
      WalkOnce(text, Next(walk[0].hint).value, walk[1..], pages[1..]);
    }
  }

  /** Following the hints always ends: from any line there is one finished walk, it has no more pages
      than there are lines left, and every other walk is the beginning of it. */
  lemma {:induction false} FollowingEnds(text: string, offset: nat) returns (pages: seq<Page>)
    requires 0 < offset <= |SplitAfter(text)|
    ensures Follows(text, offset, pages) && |pages| <= |SplitAfter(text)| - offset + 1
    ensures forall walk :: Walks(text, offset, walk) ==> walk <= pages
  {
    hide SplitAfter, PageFits, Walks;
    pages := FinishedWalk(text, offset);
    WalkBounded(text, offset, pages);
    forall walk | Walks(text, offset, walk) ensures walk <= pages {
      WalkOnce(text, offset, walk, pages);
    }
  }

  lemma {:induction false} FinishedWalk(text: string, offset: nat) returns (pages: seq<Page>)
    requires 0 < offset <= |SplitAfter(text)|
    ensures Follows(text, offset, pages)
    decreases |SplitAfter(text)| - offset
  {
    hide SplitAfter, PageFits;
    var page := SomePage(text, offset);
    var cut := PageCovers(text, offset, page);
    if Next(page.hint).Some? {
      var rest := FinishedWalk(text, cut + 1);
      pages := [page] + rest;
      assert pages[1..] == rest;
    } else {
      pages := [page];
    }
  }

  lemma SomePage(text: string, offset: int) returns (page: Page)
    ensures PageFits(text, offset, 0, page)
  {
    hide SplitAfter, Concat;
    var lines := SplitAfter(text);
    var start := Start(lines, offset);
    var end, logicalEnd := End(lines, start, 0), LogicalEnd(lines);
    if start < |lines| && |lines[start]| > READ_MAX_BYTES {
      page := Page(lines[start][..READ_MAX_BYTES],
                   CutLine(start + 1, |lines[start]|, if start + 1 < logicalEnd then Some(start + 2) else None));
    } else {
      var cut := SomeFit(lines, start, end, end);
      page := Page(Concat(lines[start..cut]), PageHint(lines, start, cut, 0));
    }
  }

  lemma {:induction false} SomeFit(lines: seq<string>, start: nat, end: nat, at: nat) returns (cut: nat)
    requires start <= at <= end <= |lines|
    requires at < end ==> Bytes(lines[start..at + 1]) > READ_MAX_BYTES
    ensures LongestFit(lines, start, end, cut)
  {
    hide Concat;
    if Bytes(lines[start..at]) <= READ_MAX_BYTES {
      cut := at;
    } else {
      NoBytes(lines, start);
      cut := SomeFit(lines, start, end, at - 1);
    }
  }

  /** Read from the first line on, the pages put together are the text with every line cut to the
      ceiling: exactly the text when no line is longer. */
  lemma HintsRebuildText(text: string, pages: seq<Page>)
    requires Follows(text, 1, pages)
    ensures Bodies(pages) == AllShortened(SplitAfter(text))
    ensures (forall line :: line in SplitAfter(text) ==> |line| <= READ_MAX_BYTES) ==> Bodies(pages) == text
  {
    var lines := SplitAfter(text);
    assert lines[0..] == lines;
    FollowingReads(text, 1, pages);
    SplitKeepsAll(text);
    if forall line :: line in lines ==> |line| <= READ_MAX_BYTES {
      ShortenedFits(lines);
    }
  }

  /** With an explicit limit the requested lines are shown in full exactly when they fit under the
      ceiling; a page that stops short of them gives no hint, unless its first line was cut. */
  lemma LimitedPage(text: string, offset: int, limit: int, page: Page)
    requires PageFits(text, offset, limit, page) && limit > 0
    ensures var lines := SplitAfter(text);
            var start := Start(lines, offset);
            var asked := lines[start..End(lines, start, limit)];
            && (page.body == Concat(asked) && page.hint.NoHint? <==> Bytes(asked) <= READ_MAX_BYTES)
            && (page.hint.NoHint? <==> start == |lines| || |lines[start]| <= READ_MAX_BYTES)
  {
    hide SplitAfter, Concat;
    var lines := SplitAfter(text);
    var start := Start(lines, offset);
    var end := End(lines, start, limit);
    if start < |lines| && |lines[start]| > READ_MAX_BYTES {
      LineInConcat(lines[start..end], 0);
    } else {
      var cut: nat :| LongestFit(lines, start, end, cut) && page.body == Concat(lines[start..cut]) && page.hint.NoHint?;
      if cut < end {
        BytesGrow(lines, start, cut + 1, end);
      }
    }
  }

  /** A line of `n` letters. */
  function Line(n: nat): (line: string)
    ensures |line| == n + 1
  {
    seq(n, _ => 'a') + "\n"
  }

  lemma {:induction false} SplitLine(line: string, rest: string)
    requires line != "" && line[|line| - 1] == '\n' && forall i :: 0 <= i < |line| - 1 ==> line[i] != '\n'
    ensures SplitAfter(line + rest) == [line] + SplitAfter(rest)
    decreases |line|
  {
    assert (line + rest)[1..] == line[1..] + rest;
    if |line| > 1 {
      SplitLine(line[1..], rest);
      assert [line[0]] + line[1..] == line;
      assert SplitAfter((line + rest)[1..])[1..] == SplitAfter(rest);
    } else {
      assert line == "\n" && line[1..] + rest == rest;
    }
  }

  /** Two lines of 70000 bytes, asked for with a limit of two: the page holds only the first, and says
      nothing about the second. */
  lemma LimitedStopsShort(page: Page)
    requires PageFits(Line(69999) + Line(69999), 1, 2, page)
    ensures page == Page(Line(69999), NoHint)
    ensures SplitAfter(Line(69999) + Line(69999)) == [Line(69999), Line(69999), ""]
  {
    hide PageFits;
    var line := Line(69999);
    SplitLine(line, line);
    SplitLine(line, "");
    assert line + "" == line;
    TwoLongLines(line, page);
  }

  lemma TwoLongLines(line: string, page: Page)
    requires |line| == 70000 && SplitAfter(line + line) == [line, line, ""]
    requires PageFits(line + line, 1, 2, page)
    ensures page == Page(line, NoHint)
  {
    hide SplitAfter;
    var lines := SplitAfter(line + line);
    assert lines[0..1] == [line] && lines[0..2] == [line, line];
    assert Concat([line]) == line + Concat([]) && Concat([line, line]) == line + Concat([line]);
    assert LongestFit(lines, 0, 2, 1);
    PageUnique(line + line, 1, 2, page, Page(line, NoHint));
  }
}
