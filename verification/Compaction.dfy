/** In-window compaction: when it fires, where it cuts the history, and what it leaves. */
module Compaction {
  import opened Messages

  const RESERVED_HEADROOM_TOKENS: int := 8192
  const SUMMARY_HEADER := "[Earlier conversation, summarized]\n"

  /** Conversion of a fraction of the window to a token count: rounds toward zero. */
  function Truncate(x: real): int {
    if x >= 0.0 then x.Floor else -((-x).Floor)
  }

  function EffectiveThreshold(window: int, threshold: real): int {
    var eff := Truncate(threshold * (window as real));
    var floor := window - RESERVED_HEADROOM_TOKENS;
    if floor > 0 && floor < eff then floor else eff
  }

  /** The prompt is at or past `x` tokens, of which a fraction of a token does not count. */
  ghost predicate Reaches(prompt: int, x: real) {
    if x >= 0.0 then prompt as real > x - 1.0 else prompt as real >= x
  }

  lemma TruncateReaches(x: real, prompt: int)
    ensures prompt >= Truncate(x) <==> Reaches(prompt, x)
  {
    if x >= 0.0 {
      FloorReaches(x, prompt);
    } else {
      FloorReaches(-x, -prompt);
    }
  }

  lemma FloorReaches(x: real, n: int)
    ensures n >= x.Floor <==> n as real > x - 1.0
    ensures n <= x.Floor <==> n as real <= x
  {
  }

  /** Compaction fires at the configured fraction of the window and, in a window larger than the
      reserve, also once no more than the reserved tokens remain; a smaller window keeps the
      fraction alone. */
  lemma FiresExactly(window: int, threshold: real, prompt: int)
    ensures prompt >= EffectiveThreshold(window, threshold) <==>
              || Reaches(prompt, threshold * (window as real))
              || (window > 8192 && window - prompt <= 8192)
  {
    TruncateReaches(threshold * (window as real), prompt);
  }

  /** The threshold as its comment has it: the smaller of the fraction and the window less the reserve. */
  function DocumentedThreshold(window: int, threshold: real): int {
    var eff, floor := Truncate(threshold * (window as real)), window - RESERVED_HEADROOM_TOKENS;
    if floor < eff then floor else eff
  }

  /** The code's threshold is the documented one exactly in a window larger than the reserve, or where the
      fraction is the smaller of the two anyway. In a larger window it fires with exactly the reserve left,
      not only with less. */
  lemma DocumentedExactly(window: int, threshold: real)
    ensures EffectiveThreshold(window, threshold) == DocumentedThreshold(window, threshold) <==>
              || window > RESERVED_HEADROOM_TOKENS
              || Truncate(threshold * (window as real)) <= window - RESERVED_HEADROOM_TOKENS
    ensures window > RESERVED_HEADROOM_TOKENS ==>
              EffectiveThreshold(window, threshold) <= window - RESERVED_HEADROOM_TOKENS
    ensures EffectiveThreshold(8000, 0.5) == 4000 && DocumentedThreshold(8000, 0.5) == -192
    ensures EffectiveThreshold(10000, 0.85) == 10000 - RESERVED_HEADROOM_TOKENS
  {
    assert 0.5 * (8000 as real) == 4000.0 && 0.85 * (10000 as real) == 8500.0;
  }

  function SysCount(ms: seq<Message>): (n: nat)
    ensures n <= |ms|
  {
    if ms != [] && ms[0].role == System then 1 else 0
  }

  predicate Dangling(m: Message) {
    m.role == Assistant && m.calls != []
  }

  function WalkBack(ms: seq<Message>, sys: nat, b: nat): (r: nat)
    requires sys <= b <= |ms|
    ensures sys <= r <= b
  {
    if b > sys && b < |ms| && ms[b].role == Tool then WalkBack(ms, sys, b - 1) else b
  }

  lemma {:induction false} WalkBackPassesTools(ms: seq<Message>, sys: nat, b: nat)
    requires sys <= b <= |ms|
    ensures var r := WalkBack(ms, sys, b);
            && (forall i :: r < i <= b && i < |ms| ==> ms[i].role == Tool)
            && (r < b ==> b < |ms|)
            && (r == sys || r == |ms| || ms[r].role != Tool)
  {
    if b > sys && b < |ms| && ms[b].role == Tool {
      WalkBackPassesTools(ms, sys, b - 1);
    }
  }

  function Snap(ms: seq<Message>, sys: nat, b: nat): (r: nat)
    requires sys <= b <= |ms|
    ensures sys <= r <= b
  {
    var c := WalkBack(ms, sys, b);
    if c > sys && Dangling(ms[c - 1]) then c - 1 else c
  }

  /** The walk back from `limit` over tool messages ends at `c`. */
  ghost predicate WalksTo(ms: seq<Message>, sys: nat, limit: int, c: nat) {
    && sys <= c <= limit <= |ms| && (c < limit ==> limit < |ms|)
    && (forall i :: c < i <= limit && i < |ms| ==> ms[i].role == Tool)
    && (c == sys || c == |ms| || ms[c].role != Tool)
  }

  lemma {:induction false} WalkEnds(ms: seq<Message>, sys: nat, limit: nat, c: nat)
    requires sys <= limit <= |ms|
    ensures WalksTo(ms, sys, limit, c) <==> c == WalkBack(ms, sys, limit)
  {
    if limit > sys && limit < |ms| && ms[limit].role == Tool {
      WalkEnds(ms, sys, limit - 1, c);
    }
  }

  /** Any history, closed or not, is split at `b` to keep the wanted tail: where the walk back from the
      tail ends, or one message earlier when that message makes calls; something is left before it. */
  ghost predicate SplitsAt(ms: seq<Message>, keepRecent: int, b: nat) {
    var sys := if ms != [] && ms[0].role == System then 1 else 0;
    var limit := |ms| - if keepRecent < 0 then 0 else keepRecent;
    && limit - sys >= 2 && sys < b <= |ms|
    && (|| (WalksTo(ms, sys, limit, b) && !(ms[b - 1].role == Assistant && ms[b - 1].calls != []))
        || (WalksTo(ms, sys, limit, b + 1) && ms[b].role == Assistant && ms[b].calls != []))
  }

  datatype Plan = TooFew | NothingLeft | Cut(at: nat)

  function Clamp(keepRecent: int): nat {
    if keepRecent < 0 then 0 else keepRecent
  }

  function PlanFor(ms: seq<Message>, keepRecent: int): (plan: Plan)
    ensures plan.Cut? ==> SysCount(ms) < plan.at <= |ms| - Clamp(keepRecent)
  {
    var sys, keep := SysCount(ms), Clamp(keepRecent);
    if |ms| - sys - keep <= 1 then TooFew
    else
      var b := Snap(ms, sys, |ms| - keep);
      if b == sys then NothingLeft else Cut(b)
  }

  lemma PlanSplits(ms: seq<Message>, keepRecent: int, b: nat)
    ensures PlanFor(ms, keepRecent) == Cut(b) <==> SplitsAt(ms, keepRecent, b)
  {
    hide WalkBack, WalksTo;
    var sys, limit := SysCount(ms), |ms| - Clamp(keepRecent);
    if limit - sys >= 2 {
      WalkEnds(ms, sys, limit, b);
      WalkEnds(ms, sys, limit, b + 1);
    }
  }

  /** A plan refuses a history exactly when fewer than two messages lie between the system prompt and the
      wanted tail, and otherwise cuts it exactly where it splits. */
  lemma PlanExactly(ms: seq<Message>, keepRecent: int)
    ensures var sys := if ms != [] && ms[0].role == System then 1 else 0;
            PlanFor(ms, keepRecent).TooFew? <==> |ms| - sys - (if keepRecent < 0 then 0 else keepRecent) < 2
    ensures PlanFor(ms, keepRecent).Cut? <==> exists b: nat :: SplitsAt(ms, keepRecent, b)
    ensures forall b: nat :: SplitsAt(ms, keepRecent, b) <==> PlanFor(ms, keepRecent) == Cut(b)
  {
    hide SplitsAt;
    forall b: nat ensures SplitsAt(ms, keepRecent, b) <==> PlanFor(ms, keepRecent) == Cut(b) {
      PlanSplits(ms, keepRecent, b);
    }
    if PlanFor(ms, keepRecent).Cut? {
      assert SplitsAt(ms, keepRecent, PlanFor(ms, keepRecent).at);
    }
  }

  /** Computes the cut the way the harness does: clamp, check, walk back, pull in a dangling call. */
  method PlanCut(ms: seq<Message>, keepRecent: int) returns (plan: Plan)
    ensures plan == PlanFor(ms, keepRecent)
    ensures var sys := if ms != [] && ms[0].role == System then 1 else 0;
            plan.TooFew? <==> |ms| - sys - (if keepRecent < 0 then 0 else keepRecent) < 2
    ensures plan.Cut? <==> exists b: nat :: SplitsAt(ms, keepRecent, b)
    ensures forall b: nat :: SplitsAt(ms, keepRecent, b) <==> plan == Cut(b)
  {
    hide SplitsAt;
    PlanExactly(ms, keepRecent);
    var keep := keepRecent;
    if keep < 0 {
      keep := 0;
    }
    var sysCount := 0;
    if |ms| > 0 && ms[0].role == System {
      sysCount := 1;
    }
    if |ms| - sysCount - keep <= 1 {
      return TooFew;
    }
    var b := |ms| - keep;
    while b > sysCount && b < |ms| && ms[b].role == Tool
      invariant sysCount <= b <= |ms| - keep
      invariant WalkBack(ms, sysCount, b) == WalkBack(ms, sysCount, |ms| - keep)
    {
      b := b - 1;
    }
    if b > sysCount && ms[b - 1].role == Assistant && |ms[b - 1].calls| > 0 {
      b := b - 1;
    }
    if b == sysCount {
      return NothingLeft;
    }
    return Cut(b);
  }

  /** `b` is the last place at or before `limit` where the history may be cut. */
  ghost predicate LastCutPoint(ms: seq<Message>, limit: nat, b: nat)
    requires limit <= |ms|
  {
    && b <= limit
    && Closed(ms[..b])
    && forall c :: b < c <= limit ==> !Closed(ms[..c])
  }

  lemma SysPartClosed(ms: seq<Message>)
    requires Closed(ms)
    ensures Closed(ms[..SysCount(ms)])
    ensures SysCount(ms) < |ms| ==> ms[SysCount(ms)].role != Tool
  {
    CutPoints(ms, 0);
    CutPoints(ms, SysCount(ms));
    ClosedIffSettled(ms[..0]);
    if SysCount(ms) == 1 {
      assert ms[..1] == [ms[0]];
      OwedSnoc([], ms[0]);
      assert [] + [ms[0]] == [ms[0]];
      ClosedIffSettled(ms[..1]);
    }
  }

  lemma DanglingNotClosed(ms: seq<Message>)
    requires ms != []
    ensures Dangling(ms[|ms| - 1]) ==> !Closed(ms)
  {
    assert Closed(ms) ==> Answered(ms, |ms| - 1);
  }

  /** On a closed history the walk alone finds the last cut point that keeps the requested tail:
      the rescue of a dangling assistant never fires. */
  lemma SnapOnClosed(ms: seq<Message>, limit: nat)
    requires Closed(ms) && SysCount(ms) <= limit <= |ms|
    ensures var b := Snap(ms, SysCount(ms), limit);
            b == WalkBack(ms, SysCount(ms), limit) && LastCutPoint(ms, limit, b)
  {
    hide Closed;
    var sys := SysCount(ms);
    SysPartClosed(ms);
    var b := WalkBack(ms, sys, limit);
    WalkBackPassesTools(ms, sys, limit);
    CutPoints(ms, b);
    if b > sys {
      DanglingNotClosed(ms[..b]);
    }
    forall c | b < c <= limit ensures !Closed(ms[..c]) {
      CutPoints(ms, c);
    }
  }

  /** On a closed history a cut divides it into closed parts and keeps at least the requested tail. */
  lemma CutOnClosed(ms: seq<Message>, keepRecent: int)
    requires Closed(ms) && PlanFor(ms, keepRecent).Cut?
    ensures var b := PlanFor(ms, keepRecent).at;
            && SysCount(ms) < b <= |ms| - Clamp(keepRecent)
            && LastCutPoint(ms, |ms| - Clamp(keepRecent), b)
            && Closed(ms[..SysCount(ms)])
            && Closed(ms[SysCount(ms)..b])
            && Closed(ms[b..])
  {
    hide Closed, Snap, WalkBack;
    var sys, b := SysCount(ms), PlanFor(ms, keepRecent).at;
    SnapOnClosed(ms, |ms| - Clamp(keepRecent));
    SysPartClosed(ms);
    CutPoints(ms, b);
    var older := ms[..b];
    assert older[..sys] == ms[..sys] && older[sys..] == ms[sys..b];
    CutPoints(older, sys);
  }

  /** A closed history is cut exactly when at least two messages lie between the system prompt and the
      wanted tail and it can be cut somewhere after the first and not after the last of them. */
  lemma PlanOnClosed(ms: seq<Message>, keepRecent: int)
    requires Closed(ms)
    ensures var sys := if ms != [] && ms[0].role == System then 1 else 0;
            var limit := |ms| - if keepRecent < 0 then 0 else keepRecent;
            && (PlanFor(ms, keepRecent).Cut? <==>
                  limit - sys >= 2 && exists c :: sys < c <= limit && Closed(ms[..c]))
            && forall b :: 0 <= b <= |ms| ==>
                 (PlanFor(ms, keepRecent) == Cut(b) <==>
                    limit - sys >= 2 && sys < b <= limit && LastCutPoint(ms, limit, b))
  {
    hide Closed, Snap, WalkBack;
    var sys, limit := SysCount(ms), |ms| - Clamp(keepRecent);
    if limit - sys >= 2 {
      SnapOnClosed(ms, limit);
      if PlanFor(ms, keepRecent).Cut? {
        assert Closed(ms[..PlanFor(ms, keepRecent).at]);
      }
    }
  }

  /** There is a cut that leaves at least two messages to summarize. */
  ghost predicate CanShorten(ms: seq<Message>, keepRecent: int) {
    var sys := if ms != [] && ms[0].role == System then 1 else 0;
    exists b: nat :: sys + 2 <= b && SplitsAt(ms, keepRecent, b)
  }

  /** For a closed history: some cut point keeps the wanted tail and leaves at least two messages. */
  lemma CanShortenClosed(ms: seq<Message>, keepRecent: int)
    requires Closed(ms)
    ensures var sys := if ms != [] && ms[0].role == System then 1 else 0;
            var limit := |ms| - if keepRecent < 0 then 0 else keepRecent;
            CanShorten(ms, keepRecent) <==> exists c :: sys + 2 <= c <= limit && Closed(ms[..c])
  {
    hide Closed, SplitsAt;
    var sys := if ms != [] && ms[0].role == System then 1 else 0;
    var limit := |ms| - if keepRecent < 0 then 0 else keepRecent;
    PlanExactly(ms, keepRecent);
    PlanOnClosed(ms, keepRecent);
    if CanShorten(ms, keepRecent) {
      var b: nat :| sys + 2 <= b && SplitsAt(ms, keepRecent, b);
      assert PlanFor(ms, keepRecent) == Cut(b);
      assert LastCutPoint(ms, limit, b);
      assert Closed(ms[..b]);
    }
    if c :| sys + 2 <= c <= limit && Closed(ms[..c]) {
      var b := PlanFor(ms, keepRecent).at;
      assert SplitsAt(ms, keepRecent, b) && LastCutPoint(ms, limit, b) && b >= c;
    }
  }

  function Summary(text: string): Message {
    UserText(SUMMARY_HEADER + text)
  }

  /** The history a cut at `b` leaves behind. */
  function Compacted(ms: seq<Message>, b: nat, text: string): seq<Message>
    requires SysCount(ms) <= b <= |ms|
  {
    ms[..SysCount(ms)] + [Summary(text)] + ms[b..]
  }

  /** A history is shortened exactly when at least two messages were summarized; the kept tail is
      verbatim, and a user message with the summary comes first after the system prompt. */
  lemma CompactedShape(ms: seq<Message>, b: nat, text: string)
    requires SysCount(ms) <= b <= |ms|
    ensures var out := Compacted(ms, b, text);
            && |out| == |ms| - |ms[SysCount(ms)..b]| + 1
            && (|out| < |ms| <==> |ms[SysCount(ms)..b]| >= 2)
            && SysCount(out) == SysCount(ms)
            && out[..SysCount(out)] == ms[..SysCount(ms)]
            && out[SysCount(out)]
               == Message(User, "[Earlier conversation, summarized]\n" + text, [], [], "", NoDetails, "")
            && out[SysCount(out) + 1..] == ms[b..]
  {
  }

  lemma ConsClosed(m: Message, rest: seq<Message>)
    requires Closed(rest) && m.role != Tool && Requested(m) == []
    ensures Closed([m] + rest)
  {
    OwedSnoc([], m);
    assert [] + [m] == [m];
    ClosedIffSettled(rest);
    OwedAppend([m], rest);
    ClosedIffSettled([m] + rest);
  }

  lemma AppendClosed(a: seq<Message>, b: seq<Message>)
    requires Closed(a) && Closed(b)
    ensures Closed(a + b)
  {
    ClosedIffSettled(a);
    ClosedIffSettled(b);
    OwedAppend(a, b);
    ClosedIffSettled(a + b);
  }

  lemma CompactedClosed(ms: seq<Message>, keepRecent: int, text: string)
    requires Closed(ms) && PlanFor(ms, keepRecent).Cut?
    ensures Closed(Compacted(ms, PlanFor(ms, keepRecent).at, text))
  {
    var b := PlanFor(ms, keepRecent).at;
    CutOnClosed(ms, keepRecent);
    ConsClosed(Summary(text), ms[b..]);
    AppendClosed(ms[..SysCount(ms)], [Summary(text)] + ms[b..]);
    assert Compacted(ms, b, text) == ms[..SysCount(ms)] + ([Summary(text)] + ms[b..]);
  }
}
