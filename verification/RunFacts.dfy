/** What the log of any run says: why runs stop as incapable or on empty replies, when nudges are
    given, and that compaction is tried before the context limit ends a run. */
module RunFacts {
  import opened Wrappers
  import opened Compaction
  import opened Messages
  import opened Session
  import opened TurnLog
  import opened Transcript
  import Text

  /** How many of the last flags are set in a row. */
  function Trailing(flags: seq<bool>): (n: nat)
    ensures n <= |flags|
  {
    if flags == [] || !flags[|flags| - 1] then 0 else 1 + Trailing(flags[..|flags| - 1])
  }

  lemma {:induction false} TrailingMeans(flags: seq<bool>)
    ensures var n := Trailing(flags);
            && (forall i :: |flags| - n <= i < |flags| ==> flags[i])
            && (n < |flags| ==> !flags[|flags| - n - 1])
  {
    if flags != [] && flags[|flags| - 1] {
      TrailingMeans(flags[..|flags| - 1]);
    }
  }

  lemma TrailingSnoc(flags: seq<bool>, b: bool)
    ensures Trailing(flags + [b]) == if b then Trailing(flags) + 1 else 0
  {
    assert (flags + [b])[..|flags|] == flags;
  }

  // ----- The unproductive streak -----

  /** The verdicts of every tool-calling turn, in order. */
  function Batches(log: seq<Record>): seq<seq<Verdict>> {
    if log == [] then []
    else
      var shape := log[|log| - 1].shape;
      Batches(log[..|log| - 1]) + if shape.Batch? then [shape.verdicts] else []
  }

  function Unproductive(batches: seq<seq<Verdict>>): (flags: seq<bool>)
    ensures |flags| == |batches|
  {
    seq(|batches|, i requires 0 <= i < |batches| => !Capable(batches[i]))
  }

  function AllRawArgs(batches: seq<seq<Verdict>>): (args: seq<seq<string>>)
    ensures |args| == |batches|
  {
    seq(|batches|, i requires 0 <= i < |batches| => RawArgs(batches[i]))
  }

  lemma BatchesSnoc(log: seq<Record>, r: Record)
    ensures Batches(log + [r]) == Batches(log) + if r.shape.Batch? then [r.shape.verdicts] else []
  {
    assert (log + [r])[..|log|] == log;
  }

  lemma UnproductiveSnoc(batches: seq<seq<Verdict>>, vs: seq<Verdict>)
    ensures Trailing(Unproductive(batches + [vs])) == if Capable(vs) then 0 else Trailing(Unproductive(batches)) + 1
  {
    assert Unproductive(batches + [vs]) == Unproductive(batches) + [!Capable(vs)];
    TrailingSnoc(Unproductive(batches), !Capable(vs));
  }

  lemma Times(a: nat, b: nat, t: nat)
    requires a < b
    ensures a * t + t <= b * t
  {
    assert b * t == (a + 1) * t + (b - a - 1) * t;
  }

  lemma Remainder(n: nat, q: nat, r: nat, t: nat)
    requires n == q * t + r && r < t
    ensures n % t == r
  {
    var q', r' := n / t, n % t;
    assert n == q' * t + r';
    if q < q' {
      Times(q, q', t);
    } else if q' < q {
      Times(q', q, t);
    }
  }

  lemma NextRemainder(n: nat, t: nat)
    requires t > 0
    ensures (n + 1) % t == if n % t + 1 >= t then 0 else n % t + 1
    ensures n < t ==> n % t == n
  {
    var q, r := n / t, n % t;
    assert n == q * t + r;
    if r + 1 >= t {
      assert n + 1 == (q + 1) * t;
      Remainder(n + 1, q + 1, 0, t);
    } else {
      Remainder(n + 1, q, r + 1, t);
    }
    if n < t {
      Remainder(n, 0, n, t);
    }
  }

  /** The remembered streak holds the failed arguments of the last tool-calling turns, none of which
      had a capable call, up to the last time it reached the threshold. */
  lemma {:induction false} StreakMeans(log: seq<Record>, threshold: nat)
    requires threshold > 0
    ensures var k, batches := |Streak(log, threshold)|, Batches(log);
            && k == Trailing(Unproductive(batches)) % threshold
            && k <= |batches|
            && Streak(log, threshold) == AllRawArgs(batches[|batches| - k..])
  {
    if log != [] {
      var past, r := log[..|log| - 1], log[|log| - 1];
      assert log == past + [r];
      StreakMeans(past, threshold);
      if r.shape.Batch? {
        StreakStep(Batches(past), Streak(past, threshold), r.shape, threshold);
        BatchesSnoc(past, r);
      } else {
        BatchesSnoc(past, r);
        assert Batches(log) == Batches(past);
      }
    } else {
      assert AllRawArgs([]) == [];
    }
  }

  lemma StreakStep(batches: seq<seq<Verdict>>, streak: seq<seq<string>>, shape: Shape, threshold: nat)
    requires threshold > 0 && shape.Batch?
    requires |streak| == Trailing(Unproductive(batches)) % threshold && |streak| <= |batches|
    requires streak == AllRawArgs(batches[|batches| - |streak|..])
    ensures var after, next := batches + [shape.verdicts], NextStreak(streak, shape, threshold);
            && |next| == Trailing(Unproductive(after)) % threshold
            && |next| <= |after|
            && next == AllRawArgs(after[|after| - |next|..])
  {
    hide Capable, RawArgs, Trailing, Unproductive, AllRawArgs;
    UnproductiveSnoc(batches, shape.verdicts);
    NextRemainder(Trailing(Unproductive(batches)), threshold);
    NextRemainder(0, threshold);
    WindowSlides(batches, |streak|, shape.verdicts);
  }

  lemma WindowSlides(batches: seq<seq<Verdict>>, k: nat, vs: seq<Verdict>)
    requires k <= |batches|
    ensures var after := batches + [vs];
            && AllRawArgs(after[|after| - (k + 1)..]) == AllRawArgs(batches[|batches| - k..]) + [RawArgs(vs)]
            && AllRawArgs(after[|after|..]) == []
  {
    hide RawArgs;
    var after := batches + [vs];
    assert after[|after| - (k + 1)..] == batches[|batches| - k..] + [vs];
  }

  /** A turn completes a streak exactly when the number of tool-calling turns in a row without a
      capable call, this one included, is a multiple of the threshold. */
  lemma TripsExactly(past: seq<Record>, r: Record, threshold: nat)
    requires threshold > 0
    ensures Trips(past, r.shape, threshold) <==>
              && r.shape.Batch? && !Capable(r.shape.verdicts)
              && Trailing(Unproductive(Batches(past + [r]))) % threshold == 0
  {
    StreakMeans(past, threshold);
    BatchesSnoc(past, r);
    if r.shape.Batch? {
      UnproductiveSnoc(Batches(past), r.shape.verdicts);
      NextRemainder(Trailing(Unproductive(Batches(past))), threshold);
    }
  }

  /** While a run that is not interactive goes on, fewer tool-calling turns than the threshold have
      gone by in a row without a capable call. */
  lemma {:induction false} StreakBounded(cfg: Config, log: seq<Record>)
    requires Ongoing(cfg, log) && !cfg.interactive
    ensures Trailing(Unproductive(Batches(log))) < IncapableLimit(cfg)
  {
    if log != [] {
      var past, r := log[..|log| - 1], log[|log| - 1];
      assert log == past + [r];
      StreakBounded(cfg, past);
      TripsExactly(past, r, IncapableLimit(cfg));
      BatchesSnoc(past, r);
      NextRemainder(Trailing(Unproductive(Batches(past))), IncapableLimit(cfg));
      if r.shape.Batch? {
        UnproductiveSnoc(Batches(past), r.shape.verdicts);
      } else {
        assert Batches(past) + [] == Batches(past);
      }
    }
  }

  /** A run that is not interactive stops as incapable exactly when its last `threshold` tool-calling
      turns had no capable call, and this is the first time that happens; the diagnosed arguments are
      those of these turns. */
  lemma IncapableExactly(cfg: Config, past: seq<Record>, r: Record)
    requires Ongoing(cfg, past) && !cfg.interactive
    ensures Trips(past, r.shape, IncapableLimit(cfg)) <==>
              r.shape.Batch? && Trailing(Unproductive(Batches(past + [r]))) == IncapableLimit(cfg)
    ensures Trips(past, r.shape, IncapableLimit(cfg)) ==>
              var batches := Batches(past + [r]);
              && |batches| >= IncapableLimit(cfg)
              && Streak(past, IncapableLimit(cfg)) + [RawArgs(r.shape.verdicts)]
                 == AllRawArgs(batches[|batches| - IncapableLimit(cfg)..])
  {
    var t := IncapableLimit(cfg);
    hide Capable, RawArgs, Batches, Ongoing, Streak, IncapableLimit;
    StreakBounded(cfg, past);
    StreakMeans(past, t);
    BatchesSnoc(past, r);
    if r.shape.Batch? {
      var before, n := Batches(past), Trailing(Unproductive(Batches(past)));
      UnproductiveSnoc(before, r.shape.verdicts);
      NextRemainder(n, t);
      if Trips(past, r.shape, t) {
        WindowSlides(before, t - 1, r.shape.verdicts);
      }
    }
  }

  // ----- The unproductive streak as documented -----

  /** Some call of the batch was executed successfully. */
  predicate Succeeded(vs: seq<Verdict>) {
    exists v :: v in vs && v.Ran?
  }

  /** Some call of the batch was executed and failed. */
  predicate Failed(vs: seq<Verdict>) {
    exists v :: v in vs && v.Refused?
  }

  /** Every call of the batch failed to parse. */
  predicate Unparsed(vs: seq<Verdict>) {
    forall v :: v in vs ==> v.BadArgs?
  }

  /** Some call of the batch names an unknown tool or was not dispatched. */
  predicate Missed(vs: seq<Verdict>) {
    exists v :: v in vs && (v.Unknown? || !Dispatched(v))
  }

  /** Turns in which no call was executed successfully. */
  function Unsuccessful(batches: seq<seq<Verdict>>): (flags: seq<bool>)
    ensures |flags| == |batches|
  {
    seq(|batches|, i requires 0 <= i < |batches| => !Succeeded(batches[i]))
  }

  /** Turns in which every call failed to parse. */
  function AllUnparsed(batches: seq<seq<Verdict>>): (flags: seq<bool>)
    ensures |flags| == |batches|
  {
    seq(|batches|, i requires 0 <= i < |batches| => Unparsed(batches[i]))
  }

  /** Of two lists of flags, one within the other, the trailing runs are equally long exactly when the
      smaller list holds throughout the longer run. */
  lemma {:induction false} TrailingWithin(fewer: seq<bool>, more: seq<bool>)
    requires |fewer| == |more| && forall i :: 0 <= i < |more| && fewer[i] ==> more[i]
    ensures Trailing(fewer) <= Trailing(more)
    ensures Trailing(fewer) == Trailing(more) <==>
              forall i :: |more| - Trailing(more) <= i < |more| ==> fewer[i]
  {
    TrailingMeans(more);
    if more != [] && more[|more| - 1] {
      var f, m := fewer[..|fewer| - 1], more[..|more| - 1];
      TrailingWithin(f, m);
      assert Trailing(more) == 1 + Trailing(m);
      assert forall i :: 0 <= i < |m| ==> f[i] == fewer[i];
      assert (forall i :: |more| - Trailing(more) <= i < |more| ==> fewer[i]) <==>
               fewer[|m|] && forall i :: |m| - Trailing(m) <= i < |m| ==> f[i];
    }
  }

  /** The documentation counts the turns in a row without a successful execution. The code counts
      at most as many, and exactly as many if and only if in none of them a call was executed and failed. */
  lemma SuccessStreakExactly(batches: seq<seq<Verdict>>)
    ensures var documented := Trailing(Unsuccessful(batches));
            && Trailing(Unproductive(batches)) <= documented
            && (Trailing(Unproductive(batches)) == documented <==>
                  forall i :: |batches| - documented <= i < |batches| ==> !Failed(batches[i]))
  {
    hide Trailing;
    forall i | 0 <= i < |batches| ensures Capable(batches[i]) <==> Succeeded(batches[i]) || Failed(batches[i]) {
      CapableMeans(batches[i]);
    }
    var fewer, more := Unproductive(batches), Unsuccessful(batches);
    TrailingWithin(fewer, more);
    TrailingMeans(more);
    forall i | |more| - Trailing(more) <= i < |more| ensures fewer[i] <==> !Failed(batches[i]) {
      assert more[i];
    }
  }

  /** A comment in the code counts the turns in a row in which every call failed to parse. The code counts
      at least as many, and exactly as many if and only if none of its turns holds a call of an unknown
      tool or one that was not dispatched. */
  lemma ParseStreakExactly(batches: seq<seq<Verdict>>)
    ensures var counted := Trailing(Unproductive(batches));
            && Trailing(AllUnparsed(batches)) <= counted
            && (Trailing(AllUnparsed(batches)) == counted <==>
                  forall i :: |batches| - counted <= i < |batches| ==> !Missed(batches[i]))
  {
    hide Trailing;
    forall i | 0 <= i < |batches|
      ensures Unparsed(batches[i]) ==> !Capable(batches[i])
      ensures !Capable(batches[i]) ==> (Unparsed(batches[i]) <==> !Missed(batches[i]))
    {
      CapableMeans(batches[i]);
    }
    var fewer, more := AllUnparsed(batches), Unproductive(batches);
    TrailingWithin(fewer, more);
    TrailingMeans(more);
    forall i | |more| - Trailing(more) <= i < |more| ensures fewer[i] <==> !Missed(batches[i]) {
      assert more[i];
    }
  }

  // ----- Empty replies -----

  /** How many turns in a row ended in an empty reply, counted anew by a turn that compacted. */
  function EmptyRun(log: seq<Record>): nat {
    if log == [] || !log[|log| - 1].shape.EmptyReply? then 0
    else if log[|log| - 1].attempt.Shrank? then 1
    else 1 + EmptyRun(log[..|log| - 1])
  }

  lemma {:induction false} EmptyStreakMeans(cfg: Config, log: seq<Record>)
    requires Ongoing(cfg, log)
    ensures EmptyStreak(log) == EmptyRun(log) % (MAX_EMPTY_RESPONSE_RETRIES + 1)
    ensures !cfg.interactive ==> EmptyRun(log) <= MAX_EMPTY_RESPONSE_RETRIES
  {
    if log != [] {
      EmptyStreakMeans(cfg, log[..|log| - 1]);
    }
  }

  /** The empty-reply error is raised exactly by every third empty reply in a row, counted from the last
      compaction; the two turns before it ended in empty replies too. */
  lemma GivesUpExactly(cfg: Config, past: seq<Record>, attempt: Attempt, shape: Shape)
    requires Ongoing(cfg, past)
    ensures GivesUp(past, attempt, shape) <==>
              && shape.EmptyReply? && !attempt.Shrank?
              && EmptyRun(past) % (MAX_EMPTY_RESPONSE_RETRIES + 1) == MAX_EMPTY_RESPONSE_RETRIES
    ensures GivesUp(past, attempt, shape) ==>
              && |past| >= 2
              && past[|past| - 1].shape.EmptyReply? && !past[|past| - 1].attempt.Shrank?
              && past[|past| - 2].shape.EmptyReply?
  {
    EmptyStreakMeans(cfg, past);
    if |past| >= 2 {
      var before := past[..|past| - 1];
      assert before[..|before| - 1] == past[..|past| - 2];
    }
  }

  /** In a run that is not interactive this is the third empty reply in a row, with no compaction since
      the first of them. */
  lemma ThirdEmptyReplyFails(cfg: Config, past: seq<Record>, attempt: Attempt, shape: Shape)
    requires Ongoing(cfg, past) && !cfg.interactive
    ensures GivesUp(past, attempt, shape) <==>
              && shape.EmptyReply? && !attempt.Shrank?
              && |past| >= 2
              && past[|past| - 1].shape.EmptyReply? && !past[|past| - 1].attempt.Shrank?
              && past[|past| - 2].shape.EmptyReply?
    ensures GivesUp(past, attempt, shape) && |past| >= 3 && past[|past| - 3].shape.EmptyReply? ==>
              past[|past| - 2].attempt.Shrank?
  {
    EmptyStreakMeans(cfg, past);
    if |past| >= 2 {
      var before := past[..|past| - 1];
      assert before[..|before| - 1] == past[..|past| - 2];
    }
  }

  // ----- Nudges -----

  predicate WrapUpTurn(cfg: Config, i: nat) {
    !cfg.interactive && cfg.wrapUpTurns > 0 && TurnLimit(cfg) - i == cfg.wrapUpTurns
  }

  lemma {:induction false} WrapUpsCounted(cfg: Config, world: World, log: seq<Record>)
    requires LogFits(cfg, world, log)
    ensures WrapUps(log) > 0 <==> exists i :: 0 <= i < |log| && WrapUpTurn(cfg, i)
    ensures forall i :: 0 <= i < |log| ==> (log[i].nudge.WrapUp? <==> WrapUpTurn(cfg, i))
  {
    hide Settles, Plays, BatchHints, SingleStreak, TurnLimit, MayStart, Usages, Judged, Written, Conversation, Streak,
         EmptyStreak, Kept, Afterwards, Before, Cost, SummaryUsages, ReplyUsages, Decisions, NextStreak, Asked, Calls,
         CapReached;
    if log != [] {
      var past, r := log[..|log| - 1], log[|log| - 1];
      WrapUpsCounted(cfg, world, past);
      assert WrapUpTurn(cfg, |past|) ==> WrapUps(past) == 0;
      assert r.nudge.WrapUp? <==> WrapUpTurn(cfg, |past|);
    }
  }

  /** The wrap-up nudge is given in exactly one turn: the one that starts with `wrapUpTurns` left. */
  lemma WrapUpExactly(cfg: Config, world: World, log: seq<Record>, i: nat)
    requires LogFits(cfg, world, log) && i < |log|
    ensures log[i].nudge.WrapUp? <==>
              && !cfg.interactive && cfg.wrapUpTurns > 0
              && i + cfg.wrapUpTurns == (if cfg.maxTurns > 0 then cfg.maxTurns else 30)
  {
    WrapUpsCounted(cfg, world, log);
    assert log[i].nudge.WrapUp? <==> WrapUpTurn(cfg, i);
  }

  lemma {:induction false} HintsCounted(cfg: Config, world: World, log: seq<Record>, i: nat)
    requires LogFits(cfg, world, log) && i < |log| && log[i].nudge.BatchHint?
    ensures BatchHints(log) > 0
    ensures WrapUps(log[..i]) == 0 && BatchHints(log[..i]) == 0
    ensures cfg.batchNudgeTurns > 0 && log[i].nudge.streak == SingleStreak(log[..i]) >= cfg.batchNudgeTurns
  {
    if i < |log| - 1 {
      assert log[..|log| - 1][..i] == log[..i];
      HintsCounted(cfg, world, log[..|log| - 1], i);
    }
  }

  lemma {:induction false} NudgeCounts(log: seq<Record>)
    ensures WrapUps(log) == 0 && BatchHints(log) == 0 <==> forall i :: 0 <= i < |log| ==> log[i].nudge.NoNudge?
  {
    if log != [] {
      NudgeCounts(log[..|log| - 1]);
    }
  }

  /** The batching hint is given exactly in the first turn that starts after the configured number of
      single-lookup turns, unless that turn gets the wrap-up nudge or some turn before it got a nudge. */
  lemma BatchHintExactly(cfg: Config, world: World, log: seq<Record>, i: nat)
    requires LogFits(cfg, world, log) && i < |log|
    ensures log[i].nudge.BatchHint? <==>
              && cfg.batchNudgeTurns > 0 && SingleStreak(log[..i]) >= cfg.batchNudgeTurns
              && (forall j :: 0 <= j < i ==> log[j].nudge.NoNudge?)
              && !log[i].nudge.WrapUp?
    ensures log[i].nudge.BatchHint? ==> log[i].nudge.streak == SingleStreak(log[..i])
  {
    hide Settles, Plays, MayStart, WrapUps, BatchHints, SingleStreak, TurnLimit;
    RecordsFit(cfg, world, log, i);
    NudgeCounts(log[..i]);
  }

  /** The batching hint is given at most once, never after the wrap-up nudge, and only after the
      configured number of single-lookup turns. */
  lemma BatchHintOnce(cfg: Config, world: World, log: seq<Record>, i: nat, j: nat)
    requires LogFits(cfg, world, log) && i < j < |log| && log[j].nudge.BatchHint?
    ensures log[i].nudge.NoNudge?
    ensures cfg.batchNudgeTurns > 0 && SingleStreak(log[..j]) >= cfg.batchNudgeTurns
  {
    HintsCounted(cfg, world, log, j);
    NudgesSeen(log[..j], i);
  }

  lemma {:induction false} NudgesSeen(log: seq<Record>, i: nat)
    requires i < |log|
    ensures log[i].nudge.WrapUp? ==> WrapUps(log) > 0
    ensures log[i].nudge.BatchHint? ==> BatchHints(log) > 0
  {
    if i < |log| - 1 {
      NudgesSeen(log[..|log| - 1], i);
    }
  }

  predicate SingleLookup(shape: Shape) {
    shape.Batch? && |shape.resp.calls| == 1 && UsedLookup(shape.verdicts)
  }

  /** Turns that leave the count of single lookups as it is. */
  predicate Quiet(shape: Shape) {
    shape.CallFailed? || shape.EmptyReply? || shape.CutOff?
  }

  /** The count as documented: every other kind of turn starts it over. */
  function DocumentedStreak(log: seq<Record>): nat {
    if log == [] || !SingleLookup(log[|log| - 1].shape) then 0 else 1 + DocumentedStreak(log[..|log| - 1])
  }

  /** A failed call or an empty reply came after a lookup of the current streak. */
  ghost predicate Disturbed(log: seq<Record>) {
    exists i, j :: 0 <= i < j < |log| && DisturbedAt(log, i, j)
  }

  ghost predicate DisturbedAt(log: seq<Record>, i: nat, j: nat)
    requires i < j < |log|
  {
    && SingleLookup(log[i].shape) && Quiet(log[j].shape)
    && forall k :: i <= k < |log| ==> SingleLookup(log[k].shape) || Quiet(log[k].shape)
  }

  /** The first lookup of a non-empty streak. */
  lemma {:induction false} StreakStart(log: seq<Record>) returns (i: nat)
    requires SingleStreak(log) > 0
    ensures i < |log| && SingleLookup(log[i].shape)
    ensures forall k :: i <= k < |log| ==> SingleLookup(log[k].shape) || Quiet(log[k].shape)
  {
    var past, last := log[..|log| - 1], log[|log| - 1];
    if SingleStreak(past) > 0 {
      i := StreakStart(past);
      assert log[i] == past[i];
      forall k | i <= k < |log| ensures SingleLookup(log[k].shape) || Quiet(log[k].shape) {
        if k < |past| {
          assert log[k] == past[k];
        }
      }
    } else {
      i := |log| - 1;
    }
  }

  lemma {:induction false} StreakPositive(log: seq<Record>, i: nat)
    requires i < |log| && SingleLookup(log[i].shape)
    requires forall k :: i <= k < |log| ==> SingleLookup(log[k].shape) || Quiet(log[k].shape)
    ensures SingleStreak(log) > 0
  {
    if i < |log| - 1 {
      var past := log[..|log| - 1];
      forall k | i <= k < |past| ensures SingleLookup(past[k].shape) || Quiet(past[k].shape) {
        assert past[k] == log[k];
      }
      StreakPositive(past, i);
      assert SingleLookup(log[|log| - 1].shape) || Quiet(log[|log| - 1].shape);
    }
  }

  /** The count differs from the documented one exactly when a failed call or an empty reply came
      after a lookup of the current streak, and is then larger. */
  lemma {:induction false} SingleStreakExactly(log: seq<Record>)
    ensures SingleStreak(log) >= DocumentedStreak(log)
    ensures SingleStreak(log) == DocumentedStreak(log) <==> !Disturbed(log)
  {
    if log != [] {
      var past, last := log[..|log| - 1], log[|log| - 1];
      SingleStreakExactly(past);
      if SingleLookup(last.shape) {
        DisturbanceCarries(log);
      } else if Quiet(last.shape) {
        QuietDisturbs(log);
      } else {
        forall i, j | 0 <= i < j < |log| ensures !DisturbedAt(log, i, j) {
        }
      }
    }
  }

  lemma DisturbanceCarries(log: seq<Record>)
    requires log != [] && SingleLookup(log[|log| - 1].shape)
    ensures Disturbed(log) <==> Disturbed(log[..|log| - 1])
  {
    var past := log[..|log| - 1];
    if Disturbed(log) {
      var i, j :| 0 <= i < j < |log| && DisturbedAt(log, i, j);
      assert DisturbedAt(past, i, j);
    }
    if Disturbed(past) {
      var i, j :| 0 <= i < j < |past| && DisturbedAt(past, i, j);
      forall k | i <= k < |log| ensures SingleLookup(log[k].shape) || Quiet(log[k].shape) {
        if k < |past| {
          assert log[k] == past[k];
        }
      }
      assert DisturbedAt(log, i, j);
    }
  }

  lemma QuietDisturbs(log: seq<Record>)
    requires log != [] && Quiet(log[|log| - 1].shape)
    ensures Disturbed(log) <==> SingleStreak(log[..|log| - 1]) > 0
  {
    var past := log[..|log| - 1];
    if SingleStreak(past) > 0 {
      var i := StreakStart(past);
      forall k | i <= k < |log| ensures SingleLookup(log[k].shape) || Quiet(log[k].shape) {
        if k < |past| {
          assert log[k] == past[k];
        }
      }
      assert DisturbedAt(log, i, |log| - 1);
    }
    if Disturbed(log) {
      var i, j :| 0 <= i < j < |log| && DisturbedAt(log, i, j);
      forall k | i <= k < |past| ensures SingleLookup(past[k].shape) || Quiet(past[k].shape) {
        assert past[k] == log[k];
      }
      StreakPositive(past, i);
    }
  }

  /** Two lookups with an empty reply between them count as two, not as one. */
  lemma EmptyReplyKeepsCount(first: Record, empty: Record, second: Record)
    requires SingleLookup(first.shape) && empty.shape.EmptyReply? && SingleLookup(second.shape)
    ensures SingleStreak([first, empty, second]) == 2 && DocumentedStreak([first, empty, second]) == 1
    ensures Disturbed([first, empty, second])
  {
    var log := [first, empty, second];
    assert log[..2][..1] == [first] && log[..2] == [first, empty] && [first][..0] == [];
    assert SingleStreak([first]) == 1;
    assert SingleStreak([first, empty]) == 1;
    assert DisturbedAt(log, 0, 1);
  }

  // ----- The context limit -----

  lemma {:induction false} RecordsFit(cfg: Config, world: World, log: seq<Record>, i: nat)
    requires LogFits(cfg, world, log) && i < |log|
    ensures RecordFits(cfg, world, log[..i], log[i])
  {
    hide RecordFits;
    if i < |log| - 1 {
      RecordsFit(cfg, world, log[..|log| - 1], i);
      assert log[..|log| - 1][..i] == log[..i];
    }
  }

  /** The reply does not end the run: it makes calls, somebody is listening, or it is empty. */
  ghost predicate Unfinished(cfg: Config, resp: Response) {
    || resp.calls != [] || cfg.inbox
    || (Text.Blank(resp.content) && Text.Blank(resp.reasoning))
  }

  /** The reply's prompt filled the configured fraction of the window, or no more than the reserved tokens
      of a window larger than the reserve were left. */
  ghost predicate CompactionDue(cfg: Config, resp: Response) {
    && cfg.contextWindow > 0 && cfg.compaction.Some? && Unfinished(cfg, resp)
    && var window, prompt := cfg.contextWindow, resp.usage.promptTokens;
       || Reaches(prompt, cfg.compaction.value.threshold * (window as real))
       || (window > 8192 && window - prompt <= 8192)
  }

  /** The reply's prompt filled 85 percent of the window, and compaction, if configured, is due too. */
  ghost predicate LimitReached(cfg: Config, resp: Response) {
    && cfg.contextWindow > 0 && Unfinished(cfg, resp)
    && Reaches(resp.usage.promptTokens, 0.85 * (cfg.contextWindow as real))
    && (cfg.compaction.Some? ==> CompactionDue(cfg, resp))
  }

  lemma EmptyMeans(cfg: Config, resp: Response)
    ensures IsEmptyResponse(resp) <==> resp.calls == [] && Text.Blank(resp.content) && Text.Blank(resp.reasoning)
    ensures IsFinal(cfg, resp) <==> !Unfinished(cfg, resp)
  {
    hide Text.TrimSpace, Text.Blank;
    Text.BlankMeans(resp.content);
    Text.BlankMeans(resp.reasoning);
  }

  /** Compaction is tried, and the hard stop reached, exactly as the fractions and the reserve say. */
  lemma LimitsMean(cfg: Config, resp: Response)
    ensures MustCompact(cfg, resp) <==> CompactionDue(cfg, resp)
    ensures Guarded(cfg, resp) && resp.usage.promptTokens >= HardStop(cfg) <==> LimitReached(cfg, resp)
  {
    hide IsEmptyResponse, IsFinal, Unfinished, Truncate, EffectiveThreshold;
    EmptyMeans(cfg, resp);
    TruncateReaches(0.85 * (cfg.contextWindow as real), resp.usage.promptTokens);
    if cfg.compaction.Some? {
      FiresExactly(cfg.contextWindow, cfg.compaction.value.threshold, resp.usage.promptTokens);
    }
  }

  /** Asked the `k`-th time, the summarizer shortens this conversation: it answers, and at least two
      messages give way to the summary. */
  ghost predicate Shortens(world: World, ms: seq<Message>, keep: int, k: nat) {
    world.summarizer(k).Summarized? && CanShorten(ms, keep)
  }

  /** The same of a closed conversation: it can be cut after two messages or more, keeping the wanted tail. */
  ghost predicate ShortensClosed(world: World, ms: seq<Message>, keep: int, k: nat) {
    var sys := if ms != [] && ms[0].role == System then 1 else 0;
    && world.summarizer(k).Summarized?
    && exists c :: sys + 2 <= c <= |ms| - (if keep < 0 then 0 else keep) && Closed(ms[..c])
  }

  /** An attempt shortens the conversation or leaves it as it is. */
  lemma AttemptedMeans(world: World, ms: seq<Message>, keep: int, k: nat)
    ensures var (attempt, out) := Attempted(world, ms, keep, k);
            && (attempt.Shrank? <==> Shortens(world, ms, keep, k))
            && (if attempt.Shrank? then |out| < |ms| else out == ms)
            && attempt != NotTried
    ensures Closed(ms) ==> (Shortens(world, ms, keep, k) <==> ShortensClosed(world, ms, keep, k))
  {
    hide PlanFor, SplitsAt, Closed;
    var plan := PlanFor(ms, keep);
    PlanExactly(ms, keep);
    if plan.Cut? && world.summarizer(k).Summarized? {
      CompactedShape(ms, plan.at, world.summarizer(k).resp.content);
    }
    if Closed(ms) {
      CanShortenClosed(ms, keep);
    }
  }

  /** The conversation this turn put to the model can be shortened. */
  ghost predicate TurnShortens(cfg: Config, world: World, past: seq<Record>, r: Record) {
    Shortens(world, Asked(cfg, world, past, StageOf(r)), KeepRecent(cfg), End(past).summaries)
  }

  lemma TurnShortensClosed(cfg: Config, world: World, log: seq<Record>, i: nat)
    requires LogFits(cfg, world, log) && i < |log| && Closed(cfg.history)
    ensures var past, r := log[..i], log[i];
            TurnShortens(cfg, world, past, r) <==>
              ShortensClosed(world, Asked(cfg, world, past, StageOf(r)), KeepRecent(cfg), End(past).summaries)
  {
    hide Closed, Shortens, ShortensClosed, LogFits, Asked, Conversation;
    PrefixFits(cfg, world, log, i);
    ConversationClosed(cfg, world, log[..i], StageOf(log[i]));
    AttemptedMeans(world, Asked(cfg, world, log[..i], StageOf(log[i])), KeepRecent(cfg), End(log[..i]).summaries);
  }

  lemma {:induction false} PrefixFits(cfg: Config, world: World, log: seq<Record>, i: nat)
    requires LogFits(cfg, world, log) && i <= |log|
    ensures LogFits(cfg, world, log[..i])
  {
    hide RecordFits;
    if i < |log| {
      PrefixFits(cfg, world, log[..|log| - 1], i);
      assert log[..|log| - 1][..i] == log[..i];
    } else {
      assert log[..i] == log;
    }
  }

  /** How compaction went in a turn, and what its reply had to do with it. */
  lemma TurnAttempts(cfg: Config, world: World, past: seq<Record>, r: Record)
    requires RecordFits(cfg, world, past, r)
    ensures var asked := Asked(cfg, world, past, StageOf(r));
            r.attempt.NotTried? || r.attempt == Attempted(world, asked, KeepRecent(cfg), End(past).summaries).0
    ensures if r.shape.CallFailed? then r.attempt.NotTried?
            else (r.attempt.NotTried? <==> !MustCompact(cfg, r.shape.resp))
                 && (r.shape.CutOff? <==> MustStop(cfg, r.shape.resp, r.attempt))
  {
    hide MustCompact, MustStop, IsEmptyResponse, BatchFits, NudgeDue, InputPlays, ToolsPlay, Calls, Receives,
         MayStart, Waiting, Opened, Asked, Attempted;
  }

  /** A turn compacted exactly when its reply reached the threshold and the conversation could be
      shortened. */
  lemma {:induction false} ShrankExactly(cfg: Config, world: World, log: seq<Record>, i: nat)
    requires LogFits(cfg, world, log) && i < |log|
    ensures var past, r := log[..i], log[i];
            && (r.attempt.Shrank? <==>
                  && !r.shape.CallFailed? && CompactionDue(cfg, r.shape.resp)
                  && TurnShortens(cfg, world, past, r))
            && (Closed(cfg.history) ==>
                  (TurnShortens(cfg, world, past, r) <==>
                     ShortensClosed(world, Asked(cfg, world, past, StageOf(r)), KeepRecent(cfg), End(past).summaries)))
  {
    hide CompactAt, IsFinal, Asked, Attempted, Shortens, ShortensClosed, CompactionDue, Closed, RecordFits;
    RecordsFit(cfg, world, log, i);
    TurnAttempts(cfg, world, log[..i], log[i]);
    AttemptedMeans(world, Asked(cfg, world, log[..i], StageOf(log[i])), KeepRecent(cfg), End(log[..i]).summaries);
    if !log[i].shape.CallFailed? {
      LimitsMean(cfg, log[i].shape.resp);
    }
    if Closed(cfg.history) {
      TurnShortensClosed(cfg, world, log, i);
    }
  }

  /** The turn's reply was cut off exactly when its prompt had reached the hard stop and the conversation
      it was asked could not be shortened; the final reply of a run is never cut off. */
  lemma {:induction false} LimitExactly(cfg: Config, world: World, log: seq<Record>, i: nat)
    requires LogFits(cfg, world, log) && i < |log| && !log[i].shape.CallFailed?
    ensures var past, r := log[..i], log[i];
            && (r.shape.CutOff? <==>
                  && LimitReached(cfg, r.shape.resp)
                  && !(cfg.compaction.Some? && TurnShortens(cfg, world, past, r)))
            && (Closed(cfg.history) ==>
                  (TurnShortens(cfg, world, past, r) <==>
                     ShortensClosed(world, Asked(cfg, world, past, StageOf(r)), KeepRecent(cfg), End(past).summaries)))
  {
    hide CompactAt, IsFinal, Asked, Attempted, Shortens, ShortensClosed, LimitReached, HardStop, Closed, RecordFits;
    RecordsFit(cfg, world, log, i);
    TurnAttempts(cfg, world, log[..i], log[i]);
    AttemptedMeans(world, Asked(cfg, world, log[..i], StageOf(log[i])), KeepRecent(cfg), End(log[..i]).summaries);
    LimitsMean(cfg, log[i].shape.resp);
    HardStopLast(cfg);
    if Closed(cfg.history) {
      TurnShortensClosed(cfg, world, log, i);
    }
  }

  lemma HardStopLast(cfg: Config)
    ensures cfg.compaction.Some? ==> HardStop(cfg) >= CompactAt(cfg)
  {
  }

  /** With compaction configured, a turn that stopped at the context limit had tried it in vain: the
      conversation after it is the one the model was asked, which could not be shortened. */
  lemma {:induction false} LimitAfterCompaction(cfg: Config, world: World, log: seq<Record>, i: nat)
    requires LogFits(cfg, world, log) && i < |log| && log[i].shape.CutOff?
    ensures LimitReached(cfg, log[i].shape.resp)
    ensures var asked := Asked(cfg, world, log[..i], StageOf(log[i]));
            && Conversation(cfg, world, log[..i + 1]) == asked
            && (cfg.compaction.Some? ==>
                  && (log[i].attempt, asked) == Attempted(world, asked, KeepRecent(cfg), End(log[..i]).summaries)
                  && !TurnShortens(cfg, world, log[..i], log[i]))
  {
    hide HardStop, CompactAt, IsFinal, Asked, Attempted, Shortens, LimitReached, Guarded, Conversation, RecordFits;
    RecordsFit(cfg, world, log, i);
    TurnAttempts(cfg, world, log[..i], log[i]);
    assert log[..i + 1] == log[..i] + [log[i]];
    LogSnoc(cfg, world, log[..i], log[i]);
    var asked := Asked(cfg, world, log[..i], StageOf(log[i]));
    AttemptedMeans(world, asked, KeepRecent(cfg), End(log[..i]).summaries);
    LimitsMean(cfg, log[i].shape.resp);
    HardStopLast(cfg);
    assert asked + [] == asked;
  }

  /** Every call answered in a turn was one the model made, judged by registry and arguments alone,
      and the dispatched calls of the turn come before the skipped ones. */
  lemma {:induction false} TurnBatchesFit(cfg: Config, world: World, log: seq<Record>, i: nat)
    requires LogFits(cfg, world, log) && i < |log| && log[i].shape.Batch?
    ensures var calls, vs := log[i].shape.resp.calls, log[i].shape.verdicts;
            && |vs| == |calls|
            && (forall k :: 0 <= k < |vs| && vs[k].Unknown? ==> Lookup(world.registry, calls[k].name).None?)
            && (forall k :: 0 <= k < |vs| && vs[k].BadArgs? ==> !world.parses(calls[k].arguments))
            && (forall k :: 0 <= k < |vs| && Executed(vs[k]) ==>
                  world.parses(calls[k].arguments) && Lookup(world.registry, calls[k].name) == Some(vs[k].tool))
            && (forall j, k :: 0 <= j < k < |vs| && Dispatched(vs[k]) ==> Dispatched(vs[j]) && !Terminates(vs[j]))
  {
    hide HardStop, CompactAt, IsFinal, Plays, NudgeDue;
    RecordsFit(cfg, world, log, i);
    DispatchedPrefix(world, log[i].shape.resp.calls, log[i].shape.verdicts);
  }

  // ----- The inbox during a batch -----

  function DispatchedCount(vs: seq<Verdict>): nat {
    if vs == [] then 0 else DispatchedCount(vs[..|vs| - 1]) + if Dispatched(vs[|vs| - 1]) then 1 else 0
  }

  /** In a batch the inbox is looked at after every dispatched call but the last; also after that one when
      it was interrupted, which is how it was noticed. Without an inbox it is never looked at. */
  lemma PollsExactly(cfg: Config, world: World, calls: seq<ToolCall>, vs: seq<Verdict>)
    requires BatchFits(world, calls, vs) && |vs| == |calls| && vs != []
    ensures Polls(cfg, |calls|, vs)
         == if !cfg.inbox then 0 else DispatchedCount(vs) - (if Interrupted(vs) then 0 else 1)
  {
    hide Polls, DispatchedCount, Interrupted, Fits;
    if !cfg.inbox {
      NeverPolled(cfg, |calls|, vs);
    } else {
      var d := FirstUndispatched(world, calls, vs);
      PollsOf(cfg, |calls|, vs, d, |vs|);
      assert vs[..|vs|] == vs;
    }
  }

  lemma {:induction false} NeverPolled(cfg: Config, n: nat, vs: seq<Verdict>)
    requires !cfg.inbox
    ensures Polls(cfg, n, vs) == 0
  {
  }

  /** The dispatched calls are the first `d`; only the last of them may have ended the run. */
  ghost predicate SplitBy(vs: seq<Verdict>, d: nat) {
    && 0 < d <= |vs|
    && (forall i :: 0 <= i < |vs| ==> (Dispatched(vs[i]) <==> i < d))
    && (forall i :: 0 <= i < d - 1 ==> !Terminates(vs[i]))
    && (d < |vs| ==> (Terminates(vs[d - 1]) <==> !Interrupted(vs)))
    && (d == |vs| ==> !Interrupted(vs))
  }

  lemma FirstUndispatched(world: World, calls: seq<ToolCall>, vs: seq<Verdict>) returns (d: nat)
    requires BatchFits(world, calls, vs) && vs != []
    ensures SplitBy(vs, d)
  {
    hide Fits;
    d := 1;
    while d < |vs| && Dispatched(vs[d])
      invariant 0 < d <= |vs| && forall i :: 0 <= i < d ==> Dispatched(vs[i])
    {
      d := d + 1;
    }
    DispatchedPrefix(world, calls, vs);
    assert Dispatched(vs[d - 1]);
    if d < |vs| && vs[d].PastEnd? {
      var i :| 0 <= i < d && Terminates(vs[i]);
      assert i == d - 1;
      forall j | 0 <= j < |vs| ensures !vs[j].Interjected? {
        assert j < d ==> Dispatched(vs[j]);
      }
    } else if d < |vs| {
      assert vs[d] in vs;
    }
    assert !Interrupted(vs) <==> forall j :: 0 <= j < |vs| ==> !vs[j].Interjected?;
  }

  lemma {:induction false} PollsOf(cfg: Config, n: nat, vs: seq<Verdict>, d: nat, k: nat)
    requires cfg.inbox && SplitBy(vs, d) && k <= |vs| == n
    ensures DispatchedCount(vs[..k]) == if k < d then k else d
    ensures Polls(cfg, n, vs[..k]) == if k < d then k else if Interrupted(vs) then d else d - 1
  {
    hide Interrupted;
    if k > 0 {
      PollsOf(cfg, n, vs, d, k - 1);
      assert vs[..k][..k - 1] == vs[..k - 1];
    }
  }

  // ----- The outside world -----

  /** Between the turn before and this one the scripts are read forward. */
  lemma TurnReads(cfg: Config, world: World, past: seq<Record>, r: Record)
    requires RecordFits(cfg, world, past, r)
    ensures var from, to, shape := End(past), r.to, r.shape;
            && from.streams < to.streams <= from.streams + 2 && from.summaries <= to.summaries <= from.summaries + 1
            && from.executions <= to.executions
            && (shape.CallFailed? <==> !world.model(to.streams - 1).Reply?)
            && (!shape.CallFailed? ==> world.model(to.streams - 1) == Reply(shape.resp))
            && (shape.Batch? ==> to.executions == from.executions + Executions(shape.verdicts))
  {
    hide Settles, NudgeDue, InputPlays, Asked, Attempted, PlanFor, Played, Waiting;
  }

  lemma TurnHears(cfg: Config, world: World, past: seq<Record>, r: Record)
    requires RecordFits(cfg, world, past, r)
    ensures End(past).drains <= r.to.drains && End(past).waits <= r.to.waits <= End(past).waits + 1
  {
    hide Settles, NudgeDue, ToolsPlay, AttemptPlays, Receives, Calls, Asked, Polls, Stash, Trips, GivesUp, Waiting;
  }

  /** The scripts are read forward only. Turn `i` ends with the answer to its last model call, at most
      two calls and one summary after the turn before it, and every execution reports its tool. */
  lemma {:induction false} ScriptsInOrder(cfg: Config, world: World, log: seq<Record>, i: nat)
    requires LogFits(cfg, world, log) && i < |log|
    ensures var from, to, shape := End(log[..i]), log[i].to, log[i].shape;
            && from.streams < to.streams <= from.streams + 2 && from.summaries <= to.summaries <= from.summaries + 1
            && from.executions <= to.executions && from.drains <= to.drains && from.waits <= to.waits <= from.waits + 1
            && (shape.CallFailed? <==> !world.model(to.streams - 1).Reply?)
            && (!shape.CallFailed? ==> world.model(to.streams - 1) == Reply(shape.resp))
            && (shape.Batch? ==> to.executions == from.executions + Executions(shape.verdicts))
            && to.streams <= 2 * (i + 1) && to.summaries <= i + 1
  {
    hide RecordFits, LogFits, Executions;
    RecordsFit(cfg, world, log, i);
    TurnReads(cfg, world, log[..i], log[i]);
    TurnHears(cfg, world, log[..i], log[i]);
    if i > 0 {
      ScriptsInOrder(cfg, world, log, i - 1);
    }
  }

  /** Everything a stretch of drains gave, in order. */
  function Drained(world: World, from: nat, to: nat): seq<UserMessage> {
    if from >= to then [] else Drained(world, from, to - 1) + world.drain(to - 1)
  }

  /** Everything a stretch of waits gave, in order. */
  function Awaited(world: World, from: nat, to: nat): seq<UserMessage> {
    if from >= to then [] else Awaited(world, from, to - 1) + Arrived(world.wait(to - 1))
  }

  /** Everything the inbox gave during a log, in the order it was asked. */
  function Given(world: World, log: seq<Record>): seq<UserMessage> {
    if log == [] then []
    else
      var past, to := log[..|log| - 1], log[|log| - 1].to;
      Given(world, past) + Drained(world, End(past).drains, to.drains) + Awaited(world, End(past).waits, to.waits)
  }

  lemma {:induction false} DrainedStash(world: World, from: nat, polls: nat)
    requires FoundNothing(world, from, polls)
    ensures Drained(world, from, from + polls) == Stash(world, from, polls)
  {
    if polls > 1 {
      DrainedStash(world, from, polls - 1);
      assert world.drain(from + polls - 2) == [];
    } else if polls == 1 {
      assert Drained(world, from, from) == [];
    }
  }

  lemma {:induction false} DrainedOn(world: World, a: nat, b: nat, c: nat)
    requires a <= b <= c
    ensures Drained(world, a, c) == Drained(world, a, b) + Drained(world, b, c)
  {
    if b < c {
      DrainedOn(world, a, b, c - 1);
    }
  }

  lemma AwaitedOnce(world: World, from: nat, to: nat, blocks: bool, after: seq<UserMessage>)
    requires Listened(world, from, to, blocks, after)
    ensures Awaited(world, from, to) == after
  {
    assert Awaited(world, from, from) == [];
  }

  lemma EndedUninterrupted(world: World, calls: seq<ToolCall>, vs: seq<Verdict>)
    requires BatchFits(world, calls, vs) && Ended(vs)
    ensures !Interrupted(vs)
  {
    var v :| v in vs && Terminates(v);
    var i :| 0 <= i < |vs| && vs[i] == v;
    forall w | w in vs ensures !w.Interjected? {
      var j :| 0 <= j < |vs| && vs[j] == w;
    }
  }

  /** The messages a stop as incapable leaves undelivered. */
  function LeftBehind(cfg: Config, world: World, past: seq<Record>, shape: Shape): seq<UserMessage> {
    if shape.Batch? && !cfg.interactive && Trips(past, shape, IncapableLimit(cfg)) then
      Stash(world, Opened(cfg, End(past)).drains, Polls(cfg, |shape.resp.calls|, shape.verdicts))
    else []
  }

  lemma TurnDelivers(cfg: Config, world: World, past: seq<Record>, r: Record)
    requires RecordFits(cfg, world, past, r)
             && !(r.shape.Batch? && Ended(r.shape.verdicts) && Trips(past, r.shape, IncapableLimit(cfg)))
    ensures var d := Opened(cfg, End(past)).drains;
            && Drained(world, End(past).drains, d) == r.opening
            && After(r.shape) + LeftBehind(cfg, world, past, r.shape)
              == Drained(world, d, r.to.drains) + Awaited(world, End(past).waits, r.to.waits)
  {
    hide RecordFits, BatchFits, Trips, GivesUp, Polls, Ended, Stash, FoundNothing, EmptyStreak, Streak;
    TurnInput(cfg, world, past, r);
    var from, to := End(past), r.to;
    var d := Opened(cfg, from).drains;
    assert Drained(world, from.drains, from.drains) == [] && Drained(world, d, d) == [];
    match r.shape {
      case CallFailed(after) => AwaitedOnce(world, from.waits, to.waits, cfg.interactive, after);
      case EmptyReply(_, after) =>
        AwaitedOnce(world, from.waits, to.waits, cfg.interactive && GivesUp(past, r.attempt, r.shape), after);
      case CutOff(_) => assert Awaited(world, from.waits, from.waits) == [];
      case Spoke(_, after) => SpokeDelivers(cfg, world, past, r);
      case Batch(_, _, _) => BatchDelivers(cfg, world, past, r);
    }
  }

  /** What a turn took from the inbox. */
  lemma TurnInput(cfg: Config, world: World, past: seq<Record>, r: Record)
    requires RecordFits(cfg, world, past, r)
    ensures r.opening == Waiting(cfg, world, End(past).drains)
    ensures InputPlays(cfg, world, past, Opened(cfg, End(past)), r.to, r.attempt, r.shape)
    ensures r.shape.Batch? ==> BatchFits(world, r.shape.resp.calls, r.shape.verdicts)
  {
    hide MustCompact, MustStop, IsEmptyResponse, BatchFits, NudgeDue, InputPlays, ToolsPlay, AttemptPlays, Calls,
         Receives, MayStart, Waiting, Opened;
  }

  lemma SpokeDelivers(cfg: Config, world: World, past: seq<Record>, r: Record)
    requires r.shape.Spoke? && InputPlays(cfg, world, past, Opened(cfg, End(past)), r.to, r.attempt, r.shape)
    ensures After(r.shape)
            == Drained(world, Opened(cfg, End(past)).drains, r.to.drains) + Awaited(world, End(past).waits, r.to.waits)
  {
    var d, w := Opened(cfg, End(past)).drains, End(past).waits;
    assert Drained(world, d, d) == [] && Awaited(world, w, w) == [];
    if r.to.waits == w + 1 {
      AwaitedOnce(world, w, r.to.waits, true, r.shape.after);
    }
  }

  lemma BatchDelivers(cfg: Config, world: World, past: seq<Record>, r: Record)
    requires r.shape.Batch? && BatchInput(cfg, world, past, Opened(cfg, End(past)), r.to, r.shape)
    requires BatchFits(world, r.shape.resp.calls, r.shape.verdicts)
    requires !(Ended(r.shape.verdicts) && Trips(past, r.shape, IncapableLimit(cfg)))
    ensures After(r.shape) + LeftBehind(cfg, world, past, r.shape)
         == Drained(world, Opened(cfg, End(past)).drains, r.to.drains) + Awaited(world, End(past).waits, r.to.waits)
  {
    hide Trips, Polls, BatchFits, Ended, Interrupted;
    var d, w := Opened(cfg, End(past)).drains, End(past).waits;
    DrainedStash(world, d, Polls(cfg, |r.shape.resp.calls|, r.shape.verdicts));
    assert Awaited(world, w, w) == [];
    if Ended(r.shape.verdicts) {
      EndedUninterrupted(world, r.shape.resp.calls, r.shape.verdicts);
    }
    if r.to.waits == w + 1 {
      AwaitedOnce(world, w, r.to.waits, true, r.shape.after);
    }
  }

  /** Every message the inbox gave is delivered exactly once and in order; only a stop as incapable
      leaves the stash of its last batch behind. */
  lemma {:induction false} InboxConserved(cfg: Config, world: World, log: seq<Record>, r: Record)
    requires LogFits(cfg, world, log + [r]) && Ongoing(cfg, log)
    ensures Given(world, log + [r]) == Heard(log + [r]) + LeftBehind(cfg, world, log, r.shape)
    decreases |log|
  {
    hide RecordFits, Trips, LeftBehind, After, Drained, Awaited, Ends, MayStart, Usages, Judged, Written,
         Conversation, Streak, EmptyStreak, SingleStreak, Kept, Afterwards, Before, Cost, SummaryUsages, ReplyUsages,
         Decisions, NextStreak, Asked, Calls, CapReached;
    LogSnoc(cfg, world, log, r);
    assert (log + [r])[..|log|] == log;
    TurnInOrder(cfg, world, log, r);
    Joins(Heard(log), Drained(world, End(log).drains, r.to.drains), Awaited(world, End(log).waits, r.to.waits),
          r.opening, After(r.shape), LeftBehind(cfg, world, log, r.shape));
    if log == [] {
      assert Given(world, log) == [] && Heard(log) == [];
    } else {
      var past, last := log[..|log| - 1], log[|log| - 1];
      assert log == past + [last];
      InboxConserved(cfg, world, past, last);
      NothingLeft(cfg, world, past, last);
      assert Heard(log) + [] == Heard(log);
    }
  }

  lemma Joins(h: seq<UserMessage>, d: seq<UserMessage>, w: seq<UserMessage>, o: seq<UserMessage>,
              a: seq<UserMessage>, l: seq<UserMessage>)
    requires d + w == o + a + l
    ensures h + d + w == h + o + a + l
  {
    assert h + d + w == h + (d + w);
  }

  lemma NothingLeft(cfg: Config, world: World, past: seq<Record>, last: Record)
    requires !Ends(cfg, past, last)
    ensures LeftBehind(cfg, world, past, last.shape) == []
  {
  }

  lemma TurnInOrder(cfg: Config, world: World, past: seq<Record>, r: Record)
    requires RecordFits(cfg, world, past, r)
    ensures Drained(world, End(past).drains, r.to.drains) + Awaited(world, End(past).waits, r.to.waits)
         == r.opening + After(r.shape) + LeftBehind(cfg, world, past, r.shape)
  {
    hide RecordFits, Trips, LeftBehind, Drained, Awaited, Opened;
    EndedNeverTrips(past, r.shape, IncapableLimit(cfg));
    TurnDelivers(cfg, world, past, r);
    DrainsGrow(cfg, world, past, r);
    var d := Opened(cfg, End(past)).drains;
    DrainedOn(world, End(past).drains, d, r.to.drains);
    Regroup(r.opening, Drained(world, d, r.to.drains), Awaited(world, End(past).waits, r.to.waits), After(r.shape),
            LeftBehind(cfg, world, past, r.shape));
  }

  lemma Regroup(o: seq<UserMessage>, d: seq<UserMessage>, w: seq<UserMessage>, a: seq<UserMessage>,
                l: seq<UserMessage>)
    requires a + l == d + w
    ensures (o + d) + w == o + a + l
  {
    assert (o + d) + w == o + (d + w);
  }

  lemma DrainsGrow(cfg: Config, world: World, past: seq<Record>, r: Record)
    requires RecordFits(cfg, world, past, r)
    ensures r.to.drains >= Opened(cfg, End(past)).drains >= End(past).drains
  {
    hide Settles, NudgeDue, Calls, Receives, ToolsPlay, AttemptPlays, MayStart, Trips, Polls, Stash, GivesUp;
  }
}
