/** Reading a streamed reply: frames in, one response and a run of deltas out. */
module Stream {
  import opened Wrappers
  import opened Details
  import opened Tokens
  import Strings = Text

  /** One fragment of a streamed tool call. */
  datatype CallPart = CallPart(index: int, id: string, typ: string, name: string, args: string)

  datatype Choice = Choice(
    finishReason: string, content: string, reasoning: string, reasoningContent: string,
    details: seq<Fragment>, calls: seq<CallPart>)

  datatype Chunk = Chunk(model: string, provider: string, usage: Option<Usage>, choices: seq<Choice>)

  /** What decoding a payload yields. */
  datatype Decoded = Undecodable | InBandError(message: string) | Decoded(chunk: Chunk)

  datatype ScanError = LineTooLong | ReadFailed

  datatype StreamError = DecodeFailed | EndpointError(message: string) | Scan(error: ScanError) | Truncated

  datatype Call = Call(id: string, typ: string, name: string, arguments: string)

  datatype Reply = Reply(
    content: string, reasoning: string, model: string, provider: string, finishReason: string,
    usage: Usage, details: Option<seq<Fragment>>, calls: seq<Call>)

  datatype Parsed = Failed(error: StreamError) | Complete(reply: Reply)

  datatype Delta =
    | ContentDelta(text: string)
    | ReasoningDelta(text: string)
    | CallDelta(index: int, id: string, name: string, args: string)
    | Reset

  const NO_USAGE: Usage := Usage(0, 0, 0, None, 0, 0)

  // ----- Lines -----

  datatype Frame = Skip | Done | Payload(decoded: Decoded)

  /** What one line of the stream is: only `data:` lines carry anything. */
  function FrameOf(decode: string -> Decoded, line: string): Frame {
    if !("data:" <= line) then Skip
    else
      var payload := Strings.TrimSpace(line[5..]);
      if payload == "[DONE]" then Done else Payload(decode(payload))
  }

  predicate Stops(frame: Frame) {
    frame.Done? || (frame.Payload? && !frame.decoded.Decoded?)
  }

  /** The position of the first line that ends the stream, or the number of lines. */
  function StopAt(decode: string -> Decoded, lines: seq<string>): (n: nat)
    ensures n <= |lines|
    ensures forall i :: 0 <= i < n ==> !Stops(FrameOf(decode, lines[i]))
    ensures n < |lines| ==> Stops(FrameOf(decode, lines[n]))
  {
    if lines == [] then 0
    else
      var n := StopAt(decode, lines[..|lines| - 1]);
      if n < |lines| - 1 || Stops(FrameOf(decode, lines[|lines| - 1])) then n else |lines|
  }

  /** The chunks of lines that do not end the stream. */
  function Chunks(decode: string -> Decoded, lines: seq<string>): seq<Chunk> {
    if lines == [] then []
    else
      var frame := FrameOf(decode, lines[|lines| - 1]);
      Chunks(decode, lines[..|lines| - 1])
      + if frame.Payload? && frame.decoded.Decoded? then [frame.decoded.chunk] else []
  }

  // ----- Projections -----

  function Choices(chunks: seq<Chunk>): seq<Choice> {
    if chunks == [] then [] else Choices(chunks[..|chunks| - 1]) + chunks[|chunks| - 1].choices
  }

  function Contents(choices: seq<Choice>): string {
    if choices == [] then "" else Contents(choices[..|choices| - 1]) + choices[|choices| - 1].content
  }

  function ReasoningOf(ch: Choice): string {
    if ch.reasoning == "" then ch.reasoningContent else ch.reasoning
  }

  function Reasonings(choices: seq<Choice>): string {
    if choices == [] then "" else Reasonings(choices[..|choices| - 1]) + ReasoningOf(choices[|choices| - 1])
  }

  function Fragments(choices: seq<Choice>): seq<Fragment> {
    if choices == [] then [] else Fragments(choices[..|choices| - 1]) + choices[|choices| - 1].details
  }

  function Parts(choices: seq<Choice>): seq<CallPart> {
    if choices == [] then [] else Parts(choices[..|choices| - 1]) + choices[|choices| - 1].calls
  }

  function FinishReasons(choices: seq<Choice>): (rs: seq<string>)
    ensures |rs| == |choices|
  {
    seq(|choices|, i requires 0 <= i < |choices| => choices[i].finishReason)
  }

  function Models(chunks: seq<Chunk>): (ms: seq<string>)
    ensures |ms| == |chunks|
  {
    seq(|chunks|, i requires 0 <= i < |chunks| => chunks[i].model)
  }

  function Providers(chunks: seq<Chunk>): (ps: seq<string>)
    ensures |ps| == |chunks|
  {
    seq(|chunks|, i requires 0 <= i < |chunks| => chunks[i].provider)
  }

  function LastUsage(chunks: seq<Chunk>): Usage {
    if chunks == [] then NO_USAGE
    else if chunks[|chunks| - 1].usage.Some? then chunks[|chunks| - 1].usage.value
    else LastUsage(chunks[..|chunks| - 1])
  }

  /** The last string that is not empty. */
  function LastNonEmpty(ss: seq<string>): string {
    if ss == [] then ""
    else if ss[|ss| - 1] != "" then ss[|ss| - 1]
    else LastNonEmpty(ss[..|ss| - 1])
  }

  lemma LastSnoc(ss: seq<string>, s: string)
    ensures LastNonEmpty(ss + [s]) == if s != "" then s else LastNonEmpty(ss)
  {
    assert (ss + [s])[..|ss|] == ss;
  }

  /** The string found is the last one that is not empty; none is found exactly when all are. */
  lemma {:induction false} LatestMeans(ss: seq<string>)
    ensures LastNonEmpty(ss) == "" <==> forall i :: 0 <= i < |ss| ==> ss[i] == ""
    ensures LastNonEmpty(ss) != "" ==>
              exists i :: 0 <= i < |ss| && ss[i] == LastNonEmpty(ss) && forall j :: i < j < |ss| ==> ss[j] == ""
  {
    if ss != [] && ss[|ss| - 1] == "" {
      var front := ss[..|ss| - 1];
      LatestMeans(front);
      if LastNonEmpty(ss) != "" {
        var i :| 0 <= i < |front| && front[i] == LastNonEmpty(ss) && forall j :: i < j < |front| ==> front[j] == "";
        assert ss[i] == LastNonEmpty(ss) && forall j :: i < j < |ss| ==> ss[j] == "";
      }
    }
  }

  // ----- Tool calls, projected by index -----

  /** The parts of one call. */
  function Mine(parts: seq<CallPart>, index: int): seq<CallPart> {
    if parts == [] then []
    else Mine(parts[..|parts| - 1], index) + if parts[|parts| - 1].index == index then [parts[|parts| - 1]] else []
  }

  function Ids(parts: seq<CallPart>): (ss: seq<string>)
    ensures |ss| == |parts|
  {
    seq(|parts|, i requires 0 <= i < |parts| => parts[i].id)
  }

  function Names(parts: seq<CallPart>): (ss: seq<string>)
    ensures |ss| == |parts|
  {
    seq(|parts|, i requires 0 <= i < |parts| => parts[i].name)
  }

  function Types(parts: seq<CallPart>): (ss: seq<string>)
    ensures |ss| == |parts|
  {
    seq(|parts|, i requires 0 <= i < |parts| => parts[i].typ)
  }

  function ArgsText(parts: seq<CallPart>): string {
    if parts == [] then "" else ArgsText(parts[..|parts| - 1]) + parts[|parts| - 1].args
  }

  /** What a listener knows of one call. */
  datatype CallView = CallView(id: string, name: string, args: string)

  const UNSEEN := CallView("", "", "")

  function ViewOfCall(parts: seq<CallPart>, index: int): CallView {
    var mine := Mine(parts, index);
    CallView(LastNonEmpty(Ids(mine)), LastNonEmpty(Names(mine)), ArgsText(mine))
  }

  function TypeOfCall(parts: seq<CallPart>, index: int): string {
    LastNonEmpty(Types(Mine(parts, index)))
  }

  lemma MineSnoc(parts: seq<CallPart>, p: CallPart, index: int)
    ensures Mine(parts + [p], index) == Mine(parts, index) + if p.index == index then [p] else []
  {
    assert (parts + [p])[..|parts|] == parts;
  }

  lemma ViewSnoc(parts: seq<CallPart>, p: CallPart, index: int)
    ensures var was, typ := ViewOfCall(parts, index), TypeOfCall(parts, index);
            && ViewOfCall(parts + [p], index)
               == (if p.index != index then was
                   else CallView(if p.id != "" then p.id else was.id, if p.name != "" then p.name else was.name,
                                 was.args + p.args))
            && TypeOfCall(parts + [p], index) == if p.index == index && p.typ != "" then p.typ else typ
  {
    hide LastNonEmpty, Mine;
    var mine := Mine(parts, index);
    MineSnoc(parts, p, index);
    if p.index == index {
      assert Ids(mine + [p]) == Ids(mine) + [p.id];
      assert Names(mine + [p]) == Names(mine) + [p.name];
      assert Types(mine + [p]) == Types(mine) + [p.typ];
      assert (mine + [p])[..|mine|] == mine;
      LastSnoc(Ids(mine), p.id);
      LastSnoc(Names(mine), p.name);
      LastSnoc(Types(mine), p.typ);
    } else {
      assert mine + [] == mine;
    }
  }

  /** The indexes of the calls, in order of first appearance. */
  function FirstSeen(parts: seq<CallPart>): seq<int> {
    if parts == [] then []
    else
      var before, index := FirstSeen(parts[..|parts| - 1]), parts[|parts| - 1].index;
      if index in before then before else before + [index]
  }

  lemma SeenSnoc(parts: seq<CallPart>, p: CallPart)
    ensures FirstSeen(parts + [p])
         == if p.index in FirstSeen(parts) then FirstSeen(parts) else FirstSeen(parts) + [p.index]
  {
    assert (parts + [p])[..|parts|] == parts;
  }

  /** Every index is listed once, exactly the indexes of some part are, and those of earlier parts
      come first. */
  lemma {:induction false} FirstSeenMeans(parts: seq<CallPart>)
    ensures var seen := FirstSeen(parts);
            && (forall a, b :: 0 <= a < b < |seen| ==> seen[a] != seen[b])
            && (forall i :: i in seen <==> exists k :: 0 <= k < |parts| && parts[k].index == i)
            && (forall n :: 0 <= n <= |parts| ==> FirstSeen(parts[..n]) <= seen)
  {
    if parts == [] {
      assert parts[..0] == [];
    } else {
      var front, last := parts[..|parts| - 1], parts[|parts| - 1];
      FirstSeenMeans(front);
      assert parts == front + [last];
      forall n | 0 <= n <= |parts| ensures FirstSeen(parts[..n]) <= FirstSeen(parts) {
        if n < |parts| {
          assert parts[..n] == front[..n];
        } else {
          assert parts[..n] == parts;
        }
      }
    }
  }

  function CallAt(parts: seq<CallPart>, index: int): Call {
    var v, typ := ViewOfCall(parts, index), TypeOfCall(parts, index);
    Call(v.id, if typ == "" then "function" else typ, v.name, v.args)
  }

  function Calls(parts: seq<CallPart>): (calls: seq<Call>)
    ensures |calls| == |FirstSeen(parts)|
  {
    var order := FirstSeen(parts);
    seq(|order|, k requires 0 <= k < |order| => CallAt(parts, order[k]))
  }

  /** Parts of two calls already under way can arrive in either order. */
  lemma {:induction false} PartsCommute(before: seq<CallPart>, p: CallPart, q: CallPart, after: seq<CallPart>)
    requires p.index != q.index && p.index in FirstSeen(before) && q.index in FirstSeen(before)
    ensures Calls(before + [p, q] + after) == Calls(before + [q, p] + after)
  {
    SeenCommutes(before, p, q, after);
    forall index ensures CallAt(before + [p, q] + after, index) == CallAt(before + [q, p] + after, index) {
      MineCommutes(before, p, q, after, index);
    }
  }

  lemma {:induction false} SeenCommutes(before: seq<CallPart>, p: CallPart, q: CallPart, after: seq<CallPart>)
    requires p.index in FirstSeen(before) && q.index in FirstSeen(before)
    ensures FirstSeen(before + [p, q] + after) == FirstSeen(before + [q, p] + after)
  {
    hide FirstSeen;
    if after == [] {
      SeenSnoc(before, p);
      SeenSnoc(before + [p], q);
      SeenSnoc(before, q);
      SeenSnoc(before + [q], p);
      assert before + [p, q] + [] == (before + [p]) + [q] && before + [q, p] + [] == (before + [q]) + [p];
    } else {
      var front, last := after[..|after| - 1], after[|after| - 1];
      SeenCommutes(before, p, q, front);
      SeenSnoc(before + [p, q] + front, last);
      SeenSnoc(before + [q, p] + front, last);
      assert before + [p, q] + after == (before + [p, q] + front) + [last];
      assert before + [q, p] + after == (before + [q, p] + front) + [last];
    }
  }

  lemma {:induction false} MineCommutes(before: seq<CallPart>, p: CallPart, q: CallPart, after: seq<CallPart>,
                                        index: int)
    requires p.index != q.index
    ensures Mine(before + [p, q] + after, index) == Mine(before + [q, p] + after, index)
  {
    hide Mine;
    if after == [] {
      MineSnoc(before, p, index);
      MineSnoc(before + [p], q, index);
      MineSnoc(before, q, index);
      MineSnoc(before + [q], p, index);
      assert before + [p, q] + [] == (before + [p]) + [q] && before + [q, p] + [] == (before + [q]) + [p];
    } else {
      var front, last := after[..|after| - 1], after[|after| - 1];
      MineCommutes(before, p, q, front, index);
      MineSnoc(before + [p, q] + front, last, index);
      MineSnoc(before + [q, p] + front, last, index);
      assert before + [p, q] + after == (before + [p, q] + front) + [last];
      assert before + [q, p] + after == (before + [q, p] + front) + [last];
    }
  }

  // ----- The reply as a function of the lines -----

  function DetailsOf(frags: seq<Fragment>): Option<seq<Fragment>> {
    var entries := Assemble(frags).entries;
    if entries == [] then None else Some(RenderedAll(entries))
  }

  function ReplyOf(chunks: seq<Chunk>): Reply {
    var choices := Choices(chunks);
    Reply(Contents(choices), Reasonings(choices), LastNonEmpty(Models(chunks)), LastNonEmpty(Providers(chunks)),
          LastNonEmpty(FinishReasons(choices)), LastUsage(chunks), DetailsOf(Fragments(choices)), Calls(Parts(choices)))
  }

  /** The verdict on a stream: a bad frame first, then the scanner, then truncation. */
  function Verdict(decode: string -> Decoded, lines: seq<string>, scan: Option<ScanError>): Parsed {
    var n := StopAt(decode, lines);
    var reply := ReplyOf(Chunks(decode, lines[..n]));
    var stop := if n < |lines| then FrameOf(decode, lines[n]) else Skip;
    match stop
    case Payload(Undecodable) => Failed(DecodeFailed)
    case Payload(InBandError(message)) => Failed(EndpointError(message))
    case _ =>
      if scan.Some? then Failed(Scan(scan.value))
      else if !stop.Done? && reply.finishReason == "" then Failed(Truncated)
      else Complete(reply)
  }

  lemma {:induction false} FinishMeans(choices: seq<Choice>)
    ensures LastNonEmpty(FinishReasons(choices)) != "" <==>
              exists i :: 0 <= i < |choices| && choices[i].finishReason != ""
  {
    if choices != [] {
      var front, last := choices[..|choices| - 1], choices[|choices| - 1];
      FinishMeans(front);
      LastSnoc(FinishReasons(front), last.finishReason);
      assert FinishReasons(choices) == FinishReasons(front) + [last.finishReason];
    }
  }

  /** Every line up to `n` is passed over or decodes to a chunk. */
  ghost predicate Clean(decode: string -> Decoded, lines: seq<string>, n: nat)
    requires n <= |lines|
  {
    forall i :: 0 <= i < n ==>
      var frame := FrameOf(decode, lines[i]);
      frame.Skip? || (frame.Payload? && frame.decoded.Decoded?)
  }

  lemma StopsClean(decode: string -> Decoded, lines: seq<string>)
    ensures Clean(decode, lines, StopAt(decode, lines))
  {
  }

  lemma CleanStops(decode: string -> Decoded, lines: seq<string>, n: nat)
    requires n <= |lines| && Clean(decode, lines, n) && (n < |lines| ==> FrameOf(decode, lines[n]).Done?)
    ensures StopAt(decode, lines) == n
  {
    hide FrameOf;
  }

  /** Some choice of the stream gave a finish reason. */
  ghost predicate Finished(choices: seq<Choice>) {
    exists i :: 0 <= i < |choices| && choices[i].finishReason != ""
  }

  /** A stream is complete exactly when nothing failed while it was read and it either came to its end
      marker, or to its end after some choice had given a finish reason; no line before is bad. */
  lemma CompleteExactly(decode: string -> Decoded, lines: seq<string>, scan: Option<ScanError>)
    ensures Verdict(decode, lines, scan).Complete? <==>
              && scan.None?
              && (|| (exists n :: 0 <= n < |lines| && Clean(decode, lines, n) && FrameOf(decode, lines[n]).Done?)
                  || (Clean(decode, lines, |lines|) && Finished(Choices(Chunks(decode, lines)))))
  {
    hide FrameOf, Choices, Chunks, Contents, Reasonings, Calls, DetailsOf, LastUsage, StopAt, Clean, LastNonEmpty,
         FinishReasons;
    var n := StopAt(decode, lines);
    StopsClean(decode, lines);
    FinishMeans(Choices(Chunks(decode, lines[..n])));
    if m: nat :| m < |lines| && Clean(decode, lines, m) && FrameOf(decode, lines[m]).Done? {
      CleanStops(decode, lines, m);
    } else if Clean(decode, lines, |lines|) {
      CleanStops(decode, lines, |lines|);
    }
    if n == |lines| {
      assert lines[..n] == lines;
    }
  }

  // ----- What a listener builds -----

  datatype View = View(content: string, reasoning: string, calls: map<int, CallView>)

  const NOTHING := View("", "", map[])

  function SeenCall(v: View, index: int): CallView {
    if index in v.calls then v.calls[index] else UNSEEN
  }

  function Hear(v: View, d: Delta): View {
    match d
    case ContentDelta(text) => v.(content := v.content + text)
    case ReasoningDelta(text) => v.(reasoning := v.reasoning + text)
    case CallDelta(index, id, name, args) =>
      v.(calls := v.calls[index := CallView(id, name, SeenCall(v, index).args + args)])
    case Reset => NOTHING
  }

  function HearAll(v: View, ds: seq<Delta>): View {
    if ds == [] then v else Hear(HearAll(v, ds[..|ds| - 1]), ds[|ds| - 1])
  }

  lemma HearSnoc(v: View, ds: seq<Delta>, d: Delta)
    ensures HearAll(v, ds + [d]) == Hear(HearAll(v, ds), d)
  {
    assert (ds + [d])[..|ds|] == ds;
  }

  lemma {:induction false} HearOn(v: View, a: seq<Delta>, b: seq<Delta>)
    ensures HearAll(v, a + b) == HearAll(HearAll(v, a), b)
  {
    hide Hear;
    if b == [] {
      assert a + b == a;
    } else {
      HearOn(v, a, b[..|b| - 1]);
      assert a + b == (a + b[..|b| - 1]) + [b[|b| - 1]];
      HearSnoc(v, a + b[..|b| - 1], b[|b| - 1]);
    }
  }

  /** The view is exactly what these choices amount to. */
  ghost predicate Shows(v: View, choices: seq<Choice>) {
    && v.content == Contents(choices)
    && v.reasoning == Reasonings(choices)
    && forall index :: SeenCall(v, index) == ViewOfCall(Parts(choices), index)
  }

  /** A listener's view and a reply agree: text, reasoning and, call by call, id, name and arguments. */
  ghost predicate Rebuilds(v: View, order: seq<int>, reply: Reply) {
    && v.content == reply.content && v.reasoning == reply.reasoning
    && |order| == |reply.calls|
    && (forall a, b :: 0 <= a < b < |order| ==> order[a] != order[b])
    && (forall k :: 0 <= k < |order| ==>
          SeenCall(v, order[k]) == CallView(reply.calls[k].id, reply.calls[k].name, reply.calls[k].arguments))
    && (forall index :: index !in order ==> SeenCall(v, index) == UNSEEN)
  }

  lemma ShownRebuilds(v: View, chunks: seq<Chunk>)
    requires Shows(v, Choices(chunks))
    ensures Rebuilds(v, FirstSeen(Parts(Choices(chunks))), ReplyOf(chunks))
  {
    hide Contents, Reasonings, ViewOfCall, Parts, FirstSeen;
    var parts := Parts(Choices(chunks));
    FirstSeenMeans(parts);
    forall index | index !in FirstSeen(parts) ensures ViewOfCall(parts, index) == UNSEEN {
      UnseenCall(parts, index);
    }
  }

  lemma {:induction false} UnseenCall(parts: seq<CallPart>, index: int)
    requires index !in FirstSeen(parts)
    ensures Mine(parts, index) == [] && ViewOfCall(parts, index) == UNSEEN
  {
    if parts != [] {
      UnseenCall(parts[..|parts| - 1], index);
    }
  }

  // ----- Reading -----

  /** The latest id, type and name of a call. */
  datatype Pending = Pending(id: string, typ: string, name: string)

  /** The tool calls read so far: their latest labels, their arguments, and their order. */
  datatype Assembly = Assembly(acc: map<int, Pending>, args: map<int, string>, order: seq<int>)

  function ArgsAt(a: Assembly, index: int): string {
    if index in a.args then a.args[index] else ""
  }

  ghost predicate TracksCall(a: Assembly, parts: seq<CallPart>, index: int)
    requires index in a.acc
  {
    var cur := a.acc[index];
    CallView(cur.id, cur.name, ArgsAt(a, index)) == ViewOfCall(parts, index) && cur.typ == TypeOfCall(parts, index)
  }

  ghost predicate Tracks(a: Assembly, parts: seq<CallPart>) {
    && a.order == FirstSeen(parts)
    && (forall index :: index in a.acc <==> index in a.order)
    && (forall index :: index in a.args ==> index in a.acc)
    && (forall index :: index in a.acc ==> TracksCall(a, parts, index))
  }

  /** A listener, if there is one, has seen of the calls what there was to see. */
  ghost predicate Follows(sink: bool, v: View, parts: seq<CallPart>) {
    sink ==> forall index :: SeenCall(v, index) == ViewOfCall(parts, index)
  }

  predicate NoReset(ds: seq<Delta>) {
    forall k :: 0 <= k < |ds| ==> !ds[k].Reset?
  }

  ghost predicate SameText(v: View, w: View) {
    v.content == w.content && v.reasoning == w.reasoning
  }

  lemma ViewsSnoc(parts: seq<CallPart>, p: CallPart)
    ensures forall index :: index != p.index ==>
              && ViewOfCall(parts + [p], index) == ViewOfCall(parts, index)
              && TypeOfCall(parts + [p], index) == TypeOfCall(parts, index)
    ensures var was := ViewOfCall(parts, p.index);
            ViewOfCall(parts + [p], p.index)
            == CallView(if p.id != "" then p.id else was.id, if p.name != "" then p.name else was.name,
                        was.args + p.args)
    ensures TypeOfCall(parts + [p], p.index) == if p.typ != "" then p.typ else TypeOfCall(parts, p.index)
  {
    hide ViewOfCall, TypeOfCall;
    ViewSnoc(parts, p, p.index);
    forall index | index != p.index
      ensures ViewOfCall(parts + [p], index) == ViewOfCall(parts, index)
              && TypeOfCall(parts + [p], index) == TypeOfCall(parts, index)
    {
      ViewSnoc(parts, p, index);
    }
  }

  lemma NewCall(parts: seq<CallPart>, index: int)
    ensures index !in FirstSeen(parts) ==> ViewOfCall(parts, index) == UNSEEN && TypeOfCall(parts, index) == ""
  {
    if index !in FirstSeen(parts) {
      UnseenCall(parts, index);
    }
  }

  function Known(a: Assembly, index: int): Pending {
    if index in a.acc then a.acc[index] else Pending("", "", "")
  }

  function Relabelled(cur: Pending, p: CallPart): Pending {
    Pending(if p.id != "" then p.id else cur.id, if p.typ != "" then p.typ else cur.typ,
            if p.name != "" then p.name else cur.name)
  }

  predicate News(cur: Pending, p: CallPart) {
    p.args != "" || (p.id != "" && p.id != cur.id) || (p.name != "" && p.name != cur.name)
  }

  lemma KnownMeans(a: Assembly, parts: seq<CallPart>, index: int)
    requires Tracks(a, parts)
    ensures var cur := Known(a, index);
            && ViewOfCall(parts, index) == CallView(cur.id, cur.name, ArgsAt(a, index))
            && TypeOfCall(parts, index) == cur.typ
  {
    hide ViewOfCall, TypeOfCall, FirstSeen;
    NewCall(parts, index);
    if index in a.acc {
      assert TracksCall(a, parts, index);
    }
  }

  lemma PartTracked(a: Assembly, b: Assembly, parts: seq<CallPart>, p: CallPart)
    requires Tracks(a, parts)
    requires b.acc == a.acc[p.index := Relabelled(Known(a, p.index), p)]
    requires b.args == if p.args != "" then a.args[p.index := ArgsAt(a, p.index) + p.args] else a.args
    requires b.order == if p.index in a.acc then a.order else a.order + [p.index]
    ensures Tracks(b, parts + [p])
  {
    hide ViewOfCall, TypeOfCall, FirstSeen;
    SeenSnoc(parts, p);
    ViewsSnoc(parts, p);
    KnownMeans(a, parts, p.index);
    forall index | index in b.acc ensures TracksCall(b, parts + [p], index) {
      if index != p.index {
        assert TracksCall(a, parts, index);
      } else {
        assert ArgsAt(b, index) == ArgsAt(a, index) + p.args;
      }
    }
  }

  /** Hearing a part's delta brings the listener up to date; without news there is nothing to hear. */
  lemma PartHeard(a: Assembly, parts: seq<CallPart>, p: CallPart, v: View)
    requires Tracks(a, parts) && Follows(true, v, parts)
    ensures var cur := Known(a, p.index);
            var next := Relabelled(cur, p);
            Follows(true, if News(cur, p) then Hear(v, CallDelta(p.index, next.id, next.name, p.args)) else v,
                    parts + [p])
  {
    hide ViewOfCall, TypeOfCall, Tracks;
    ViewsSnoc(parts, p);
    KnownMeans(a, parts, p.index);
  }

  lemma HearOne(v: View, d: Delta)
    ensures HearAll(v, [d]) == Hear(v, d)
    ensures HearAll(v, []) == v && NoReset([])
  {
    assert [d][..0] == [];
  }

  /** Takes one tool-call part. Only a new id, a new name or an argument fragment is worth a delta. */
  method TakePart(p: CallPart, a: Assembly, sink: bool, ghost parts: seq<CallPart>, ghost v: View)
    returns (b: Assembly, deltas: seq<Delta>)
    requires Tracks(a, parts) && Follows(sink, v, parts)
    ensures Tracks(b, parts + [p]) && Follows(sink, HearAll(v, deltas), parts + [p])
    ensures SameText(v, HearAll(v, deltas)) && (!sink ==> deltas == []) && NoReset(deltas)
  {
    hide ViewOfCall, Tracks, ArgsAt, HearAll;
    b, deltas := a, [];
    var cur := Pending("", "", "");
    if p.index in b.acc {
      cur := b.acc[p.index];
    } else {
      b := b.(order := b.order + [p.index]);
    }
    var changed := p.args != "" || (p.id != "" && p.id != cur.id) || (p.name != "" && p.name != cur.name);
    if p.id != "" {
      cur := cur.(id := p.id);
    }
    if p.typ != "" {
      cur := cur.(typ := p.typ);
    }
    if p.name != "" {
      cur := cur.(name := p.name);
    }
    b := b.(acc := b.acc[p.index := cur]);
    if p.args != "" {
      var before := ArgsAt(a, p.index);
      b := b.(args := b.args[p.index := before + p.args]);
    }
    if sink && changed {
      deltas := [CallDelta(p.index, cur.id, cur.name, p.args)];
    }
    PartTracked(a, b, parts, p);
    HearOne(v, CallDelta(p.index, cur.id, cur.name, p.args));
    if sink {
      PartHeard(a, parts, p, v);
    }
  }

  /** Takes the tool-call parts of one choice. */
  method TakeParts(ps: seq<CallPart>, a: Assembly, sink: bool, ghost parts: seq<CallPart>, ghost v: View)
    returns (b: Assembly, deltas: seq<Delta>)
    requires Tracks(a, parts) && Follows(sink, v, parts)
    ensures Tracks(b, parts + ps) && Follows(sink, HearAll(v, deltas), parts + ps)
    ensures SameText(v, HearAll(v, deltas)) && (!sink ==> deltas == []) && NoReset(deltas)
  {
    hide Tracks, Follows, HearAll;
    b, deltas := a, [];
    HearOne(v, Reset);
    assert parts + ps[..0] == parts;
    for i := 0 to |ps|
      invariant Tracks(b, parts + ps[..i]) && Follows(sink, HearAll(v, deltas), parts + ps[..i])
      invariant SameText(v, HearAll(v, deltas)) && (!sink ==> deltas == []) && NoReset(deltas)
    {
      var more;
      b, more := TakePart(ps[i], b, sink, parts + ps[..i], HearAll(v, deltas));
      HearOn(v, deltas, more);
      deltas := deltas + more;
      assert parts + ps[..i + 1] == parts + ps[..i] + [ps[i]];
    }
    assert ps[..|ps|] == ps;
  }

  /** What has been read of the choices so far. */
  datatype Reading = Reading(content: string, reasoning: string, finishReason: string, calls: Assembly)

  ghost predicate Reads(r: Reading, choices: seq<Choice>) {
    && r.content == Contents(choices) && r.reasoning == Reasonings(choices)
    && r.finishReason == LastNonEmpty(FinishReasons(choices))
    && Tracks(r.calls, Parts(choices))
  }

  ghost predicate Shown(sink: bool, v: View, choices: seq<Choice>) {
    sink ==> Shows(v, choices)
  }

  lemma ChoicesSnoc(choices: seq<Choice>, ch: Choice)
    ensures Contents(choices + [ch]) == Contents(choices) + ch.content
    ensures Reasonings(choices + [ch]) == Reasonings(choices) + ReasoningOf(ch)
    ensures Fragments(choices + [ch]) == Fragments(choices) + ch.details
    ensures Parts(choices + [ch]) == Parts(choices) + ch.calls
    ensures LastNonEmpty(FinishReasons(choices + [ch]))
         == if ch.finishReason != "" then ch.finishReason else LastNonEmpty(FinishReasons(choices))
  {
    assert (choices + [ch])[..|choices|] == choices;
    assert FinishReasons(choices + [ch]) == FinishReasons(choices) + [ch.finishReason];
    LastSnoc(FinishReasons(choices), ch.finishReason);
  }

  /** Takes the finish reason and the text of one choice, with its fallback field for reasoning. */
  method TakeText(ch: Choice, r: Reading, sink: bool, ghost v: View) returns (next: Reading, deltas: seq<Delta>)
    ensures next == r.(finishReason := if ch.finishReason != "" then ch.finishReason else r.finishReason,
                       content := r.content + ch.content, reasoning := r.reasoning + ReasoningOf(ch))
    ensures sink ==>
              HearAll(v, deltas) == v.(content := v.content + ch.content, reasoning := v.reasoning + ReasoningOf(ch))
    ensures (!sink ==> deltas == []) && NoReset(deltas)
  {
    hide HearAll;
    next, deltas := r, [];
    HearOne(v, Reset);
    if ch.finishReason != "" {
      next := next.(finishReason := ch.finishReason);
    }
    if ch.content != "" {
      next := next.(content := next.content + ch.content);
      if sink {
        HearSnoc(v, deltas, ContentDelta(ch.content));
        deltas := deltas + [ContentDelta(ch.content)];
      }
    }
    var reasoning := ch.reasoning;
    if reasoning == "" {
      reasoning := ch.reasoningContent;
    }
    if reasoning != "" {
      next := next.(reasoning := next.reasoning + reasoning);
      if sink {
        HearSnoc(v, deltas, ReasoningDelta(reasoning));
        deltas := deltas + [ReasoningDelta(reasoning)];
      }
    }
  }

  /** Takes one choice but for its reasoning details. */
  method TakeChoice(ch: Choice, r: Reading, sink: bool, ghost choices: seq<Choice>, ghost v: View)
    returns (next: Reading, deltas: seq<Delta>)
    requires Reads(r, choices) && Shown(sink, v, choices)
    ensures Reads(next, choices + [ch]) && Shown(sink, HearAll(v, deltas), choices + [ch])
    ensures (!sink ==> deltas == []) && NoReset(deltas)
  {
    hide Reads, Shows, Tracks, Follows, HearAll, NoReset, Parts, ReasoningOf;
    next, deltas := TakeText(ch, r, sink, v);
    ghost var heard := HearAll(v, deltas);
    ChoiceFollowed(r, choices, sink, v, heard);
    var calls, more := TakeParts(ch.calls, next.calls, sink, Parts(choices), heard);
    HearOn(v, deltas, more);
    NoResetJoins(deltas, more);
    deltas := deltas + more;
    next := next.(calls := calls);
    ChoiceRead(r, next, choices, ch);
    if sink {
      ChoiceShown(v, HearAll(v, deltas), choices, ch);
    }
  }

  /** Text does not change what is known of the calls. */
  lemma ChoiceFollowed(r: Reading, choices: seq<Choice>, sink: bool, v: View, heard: View)
    requires Reads(r, choices) && Shown(sink, v, choices) && (sink ==> heard.calls == v.calls)
    ensures Tracks(r.calls, Parts(choices)) && Follows(sink, heard, Parts(choices))
  {
    hide Tracks, Parts, ViewOfCall, Contents, Reasonings;
    SameCalls(v, heard);
  }

  lemma ChoiceRead(r: Reading, next: Reading, choices: seq<Choice>, ch: Choice)
    requires Reads(r, choices) && Tracks(next.calls, Parts(choices) + ch.calls)
    requires next.content == r.content + ch.content && next.reasoning == r.reasoning + ReasoningOf(ch)
    requires next.finishReason == if ch.finishReason != "" then ch.finishReason else r.finishReason
    ensures Reads(next, choices + [ch])
  {
    hide Tracks, Parts, Contents, Reasonings, LastNonEmpty, FinishReasons, ReasoningOf;
    ChoicesSnoc(choices, ch);
  }

  lemma ChoiceShown(v: View, w: View, choices: seq<Choice>, ch: Choice)
    requires Shows(v, choices) && Follows(true, w, Parts(choices) + ch.calls)
    requires w.content == v.content + ch.content && w.reasoning == v.reasoning + ReasoningOf(ch)
    ensures Shows(w, choices + [ch])
  {
    hide Parts, Contents, Reasonings, ViewOfCall, ReasoningOf;
    ChoicesSnoc(choices, ch);
  }

  lemma SameCalls(v: View, w: View)
    ensures v.calls == w.calls ==> forall index :: SeenCall(w, index) == SeenCall(v, index)
  {
  }

  /** The accumulator holds the reasoning details of these choices. */
  ghost predicate Gathered(details: Accumulator, choices: seq<Choice>)
    reads details, details.Repr
  {
    details.Valid() && details.State() == Assemble(Fragments(choices))
  }

  /** Takes the reasoning details of one choice. */
  method TakeDetails(details: Accumulator, ch: Choice, ghost choices: seq<Choice>)
    requires Gathered(details, choices)
    modifies details.Repr
    ensures Gathered(details, choices + [ch]) && fresh(details.Repr - old(details.Repr))
  {
    hide Grown, Assemble, Fragments, Newest, Details.Accumulator.Sound;
    ghost var before := Fragments(choices);
    assert before + ch.details[..0] == before;
    for i := 0 to |ch.details|
      invariant details.Valid() && details.State() == Assemble(before + ch.details[..i])
      invariant fresh(details.Repr - old(details.Repr))
    {
      details.Add(ch.details[i]);
      AssembleSnoc(before + ch.details[..i], ch.details[i]);
      assert before + ch.details[..i + 1] == before + ch.details[..i] + [ch.details[i]];
    }
    assert ch.details[..|ch.details|] == ch.details;
    ChoicesSnoc(choices, ch);
  }

  lemma NoResetJoins(a: seq<Delta>, b: seq<Delta>)
    requires NoReset(a) && NoReset(b)
    ensures NoReset(a + b)
  {
  }

  /** Takes the choices of one chunk. */
  method TakeChoices(chs: seq<Choice>, r: Reading, details: Accumulator, sink: bool, ghost choices: seq<Choice>,
                     ghost v: View)
    returns (next: Reading, deltas: seq<Delta>)
    requires Reads(r, choices) && Shown(sink, v, choices) && Gathered(details, choices)
    modifies details.Repr
    ensures Reads(next, choices + chs) && Shown(sink, HearAll(v, deltas), choices + chs)
    ensures (!sink ==> deltas == []) && NoReset(deltas)
    ensures Gathered(details, choices + chs) && fresh(details.Repr - old(details.Repr))
  {
    hide Reads, Shown, HearAll, Gathered, NoReset;
    next, deltas := r, [];
    HearOne(v, Reset);
    assert choices + chs[..0] == choices;
    for i := 0 to |chs|
      invariant Reads(next, choices + chs[..i]) && Shown(sink, HearAll(v, deltas), choices + chs[..i])
      invariant (!sink ==> deltas == []) && NoReset(deltas)
      invariant Gathered(details, choices + chs[..i]) && fresh(details.Repr - old(details.Repr))
    {
      ghost var sofar := choices + chs[..i];
      var more;
      next, more := TakeChoice(chs[i], next, sink, sofar, HearAll(v, deltas));
      HearOn(v, deltas, more);
      NoResetJoins(deltas, more);
      deltas := deltas + more;
      TakeDetails(details, chs[i], sofar);
      assert choices + chs[..i + 1] == sofar + [chs[i]];
    }
    assert chs[..|chs|] == chs;
  }

  /** What has been read of a stream. */
  datatype Header = Header(model: string, provider: string, usage: Usage)

  ghost predicate HeaderReads(h: Header, chunks: seq<Chunk>) {
    && h.model == LastNonEmpty(Models(chunks)) && h.provider == LastNonEmpty(Providers(chunks))
    && h.usage == LastUsage(chunks)
  }

  lemma ChunksSnoc(chunks: seq<Chunk>, c: Chunk)
    ensures Choices(chunks + [c]) == Choices(chunks) + c.choices
    ensures LastNonEmpty(Models(chunks + [c])) == if c.model != "" then c.model else LastNonEmpty(Models(chunks))
    ensures LastNonEmpty(Providers(chunks + [c]))
         == if c.provider != "" then c.provider else LastNonEmpty(Providers(chunks))
    ensures LastUsage(chunks + [c]) == if c.usage.Some? then c.usage.value else LastUsage(chunks)
  {
    assert (chunks + [c])[..|chunks|] == chunks;
    assert Models(chunks + [c]) == Models(chunks) + [c.model];
    assert Providers(chunks + [c]) == Providers(chunks) + [c.provider];
    LastSnoc(Models(chunks), c.model);
    LastSnoc(Providers(chunks), c.provider);
  }

  /** The lines before the one that ends the stream. */
  function Consumed(decode: string -> Decoded, lines: seq<string>): seq<Chunk> {
    Chunks(decode, lines[..StopAt(decode, lines)])
  }

  /** Nothing before line `i` ended the stream, and these chunks were read. */
  ghost predicate Reached(decode: string -> Decoded, lines: seq<string>, i: nat, chunks: seq<Chunk>)
    requires i <= |lines|
  {
    && (forall k :: 0 <= k < i ==> !Stops(FrameOf(decode, lines[k])))
    && chunks == Chunks(decode, lines[..i])
  }

  lemma StopsHere(decode: string -> Decoded, lines: seq<string>, i: nat, chunks: seq<Chunk>)
    requires i <= |lines| && Reached(decode, lines, i, chunks)
    requires i < |lines| ==> Stops(FrameOf(decode, lines[i]))
    ensures StopAt(decode, lines) == i && Consumed(decode, lines) == chunks
  {
  }

  lemma ReadsOn(decode: string -> Decoded, lines: seq<string>, i: nat, chunks: seq<Chunk>)
    requires i < |lines| && Reached(decode, lines, i, chunks)
    ensures var frame := FrameOf(decode, lines[i]);
            && (frame.Skip? ==> Reached(decode, lines, i + 1, chunks))
            && (frame.Payload? && frame.decoded.Decoded? ==>
                  Reached(decode, lines, i + 1, chunks + [frame.decoded.chunk]))
  {
    hide FrameOf;
    assert lines[..i + 1][..i] == lines[..i];
    assert chunks + [] == chunks;
  }

  lemma Unread(decode: string -> Decoded, lines: seq<string>)
    ensures Reached(decode, lines, 0, []) && HeaderReads(Header("", "", NO_USAGE), [])
    ensures Reads(Reading("", "", "", Assembly(map[], map[], [])), Choices([]))
    ensures Shows(NOTHING, Choices([])) && Fragments(Choices([])) == []
  {
  }

  /** Takes one chunk. */
  method TakeChunk(c: Chunk, r: Reading, h: Header, details: Accumulator, sink: bool, ghost chunks: seq<Chunk>,
                   ghost v: View)
    returns (next: Reading, header: Header, deltas: seq<Delta>)
    requires Reads(r, Choices(chunks)) && HeaderReads(h, chunks) && Shown(sink, v, Choices(chunks))
    requires Gathered(details, Choices(chunks))
    modifies details.Repr
    ensures Reads(next, Choices(chunks + [c])) && HeaderReads(header, chunks + [c])
    ensures Shown(sink, HearAll(v, deltas), Choices(chunks + [c])) && (!sink ==> deltas == []) && NoReset(deltas)
    ensures Gathered(details, Choices(chunks + [c])) && fresh(details.Repr - old(details.Repr))
  {
    hide Reads, Shown, HearAll, Gathered, NoReset, Choices, LastNonEmpty, Models, Providers, LastUsage;
    ChunksSnoc(chunks, c);
    header := h;
    if c.model != "" {
      header := header.(model := c.model);
    }
    if c.provider != "" {
      header := header.(provider := c.provider);
    }
    if c.usage.Some? {
      header := header.(usage := c.usage.value);
    }
    next, deltas := TakeChoices(c.choices, r, details, sink, Choices(chunks), v);
  }

  /** Reads a stream to its end or to the first line that stops it. */
  method ParseStream(lines: seq<string>, scan: Option<ScanError>, decode: string -> Decoded, sink: bool)
    returns (r: Parsed, deltas: seq<Delta>)
    ensures r == Verdict(decode, lines, scan)
    ensures (!sink ==> deltas == []) && NoReset(deltas)
    ensures sink ==> Shows(HearAll(NOTHING, deltas), Choices(Consumed(decode, lines)))
  {
    hide Reads, HeaderReads, Shows, HearAll, Gathered, NoReset, Choices, Chunks, StopAt, ReplyOf, Strings.TrimSpace;
    deltas := [];
    var reading, header := Reading("", "", "", Assembly(map[], map[], [])), Header("", "", NO_USAGE);
    var details := new Accumulator();
    ghost var chunks: seq<Chunk> := [];
    Unread(decode, lines);
    HearOne(NOTHING, Reset);
    Empty(details);
    var sawDone := false;
    var i := 0;
    while i < |lines|
      invariant i <= |lines| && Reached(decode, lines, i, chunks) && !sawDone
      invariant Reads(reading, Choices(chunks)) && HeaderReads(header, chunks)
      invariant Shown(sink, HearAll(NOTHING, deltas), Choices(chunks)) && (!sink ==> deltas == []) && NoReset(deltas)
      invariant Gathered(details, Choices(chunks)) && fresh(details.Repr)
    {
      var line := lines[i];
      ReadsOn(decode, lines, i, chunks);
      if line == "" || line[0] == ':' || !("data:" <= line) {
        i := i + 1;
        continue;
      }
      var payload := Strings.TrimSpace(line[5..]);
      if payload == "[DONE]" {
        sawDone := true;
        break;
      }
      match decode(payload) {
        case Undecodable =>
          StopsHere(decode, lines, i, chunks);
          return Failed(DecodeFailed), deltas;
        case InBandError(message) =>
          StopsHere(decode, lines, i, chunks);
          return Failed(EndpointError(message)), deltas;
        case Decoded(chunk) =>
          var more;
          reading, header, more := TakeChunk(chunk, reading, header, details, sink, chunks, HearAll(NOTHING, deltas));
          HearOn(NOTHING, deltas, more);
          NoResetJoins(deltas, more);
          deltas := deltas + more;
          chunks := chunks + [chunk];
      }
      i := i + 1;
    }
    StopsHere(decode, lines, i, chunks);
    FinishReasonOf(reading, header, chunks);
    if scan.Some? {
      return Failed(Scan(scan.value)), deltas;
    }
    if !sawDone && reading.finishReason == "" {
      return Failed(Truncated), deltas;
    }
    var reply := Assembled(reading, header, details, chunks);
    return Complete(reply), deltas;
  }

  lemma Empty(details: Accumulator)
    requires details.Valid() && details.State() == Assemble([])
    ensures Gathered(details, Choices([]))
  {
  }

  lemma FinishReasonOf(r: Reading, h: Header, chunks: seq<Chunk>)
    requires Reads(r, Choices(chunks))
    ensures ReplyOf(chunks).finishReason == r.finishReason
  {
  }

  /** The reply, once the stream is complete. */
  method Assembled(r: Reading, h: Header, details: Accumulator, ghost chunks: seq<Chunk>) returns (reply: Reply)
    requires Reads(r, Choices(chunks)) && HeaderReads(h, chunks) && Gathered(details, Choices(chunks))
    ensures reply == ReplyOf(chunks)
  {
    hide Assemble, Fragments, Choices, Contents, Reasonings, Parts, LastNonEmpty, FinishReasons, Models, Providers,
         LastUsage, RenderedAll, Newest, Details.Accumulator.Sound;
    var blocks := details.Assembled();
    var calls := AssembledCalls(r.calls, Parts(Choices(chunks)));
    reply := Reply(r.content, r.reasoning, h.model, h.provider, r.finishReason, h.usage, blocks, calls);
  }

  method AssembledCalls(a: Assembly, ghost parts: seq<CallPart>) returns (calls: seq<Call>)
    requires Tracks(a, parts)
    ensures calls == Calls(parts)
  {
    hide FirstSeen, ViewOfCall, TypeOfCall;
    calls := [];
    for k := 0 to |a.order|
      invariant |calls| == k && forall j :: 0 <= j < k ==> calls[j] == CallAt(parts, a.order[j])
    {
      var index := a.order[k];
      assert TracksCall(a, parts, index);
      var cur := a.acc[index];
      var typ := cur.typ;
      if typ == "" {
        typ := "function";
      }
      calls := calls + [Call(cur.id, typ, cur.name, ArgsAt(a, index))];
    }
  }

  /** The indexes of the calls in the part of the stream that was read, in order of first appearance. */
  function CallOrder(decode: string -> Decoded, lines: seq<string>): seq<int> {
    FirstSeen(Parts(Choices(Consumed(decode, lines))))
  }

  /** When a stream completes, what its listener built is what it returns: its k-th call is the one the
      listener saw under the k-th index of the stream. */
  lemma ListenerAgrees(decode: string -> Decoded, lines: seq<string>, scan: Option<ScanError>, v: View)
    requires Verdict(decode, lines, scan).Complete? && Shows(v, Choices(Consumed(decode, lines)))
    ensures Rebuilds(v, CallOrder(decode, lines), Verdict(decode, lines, scan).reply)
  {
    hide Shows, Rebuilds, ReplyOf, StopAt, FrameOf, Chunks;
    ShownRebuilds(v, Consumed(decode, lines));
  }
}
