/** The scripts decide a run: of two logs that fit the same configuration and the same scripts, one is
    the beginning of the other. */
module Determined {
  import opened Wrappers
  import opened Messages
  import opened Compaction
  import opened Session
  import opened TurnLog

  // ----- The verdicts of a batch -----

  lemma {:induction false} PlayedAt(world: World, from: nat, vs: seq<Verdict>, i: nat)
    requires Played(world, from, vs) && i < |vs|
    ensures Reports(world.execute(from + Executions(vs[..i])), vs[i])
  {
    if i < |vs| - 1 {
      PlayedAt(world, from, vs[..|vs| - 1], i);
      assert vs[..|vs| - 1][..i] == vs[..i];
    }
  }

  lemma {:induction false} PollsGrow(cfg: Config, n: nat, vs: seq<Verdict>, k: nat)
    requires k <= |vs|
    ensures Polls(cfg, n, vs[..k]) <= Polls(cfg, n, vs)
    ensures (forall j :: k <= j < |vs| ==> !Dispatched(vs[j])) ==> Polls(cfg, n, vs[..k]) == Polls(cfg, n, vs)
  {
    if k < |vs| {
      PollsGrow(cfg, n, vs[..|vs| - 1], k);
      assert vs[..|vs| - 1][..k] == vs[..k];
    } else {
      assert vs[..k] == vs;
    }
  }

  /** What the inbox answered during a batch: every poll but the last found nothing, and the last one
      found something exactly when the batch was interrupted. */
  ghost predicate Polled(cfg: Config, world: World, d: nat, vs: seq<Verdict>) {
    var polls := Polls(cfg, |vs|, vs);
    FoundNothing(world, d, polls) && (Stash(world, d, polls) != [] <==> Interrupted(vs))
  }

  /** Two batches that agreed so far are interrupted at the same place. */
  lemma InterruptedAlike(cfg: Config, world: World, d: nat, calls: seq<ToolCall>, vs: seq<Verdict>, ws: seq<Verdict>,
                         i: nat)
    requires BatchFits(world, calls, vs) && BatchFits(world, calls, ws) && |vs| == |ws| == |calls|
    requires Polled(cfg, world, d, vs) && Polled(cfg, world, d, ws)
    requires i < |vs| && vs[..i] == ws[..i] && vs[i].Interjected?
    ensures ws[i].Interjected?
  {
    hide Polls, Stash;
    forall j | 0 <= j < i ensures ws[j] == vs[j] {
      assert vs[j] == vs[..i][j] && ws[j] == ws[..i][j];
    }
    assert vs[i] in vs;
    var p := Polls(cfg, |vs|, vs[..i]);
    PollsGrow(cfg, |vs|, vs, i);
    PollsGrow(cfg, |vs|, ws, i);
    FoundEarlier(world, d, p, Polls(cfg, |vs|, ws));
    var j := SomeInterjected(ws);
    if i + 1 < |ws| {
      PollsNext(cfg, |vs|, ws, i);
      PollsGrow(cfg, |vs|, ws, i + 1);
    }
  }

  lemma SomeInterjected(vs: seq<Verdict>) returns (j: nat)
    requires Interrupted(vs)
    ensures j < |vs| && vs[j].Interjected?
  {
    var v :| v in vs && v.Interjected?;
    j :| 0 <= j < |vs| && vs[j] == v;
  }

  lemma PollsNext(cfg: Config, n: nat, vs: seq<Verdict>, i: nat)
    requires i + 1 < n && i < |vs|
    ensures cfg.inbox && Dispatched(vs[i]) && !Terminates(vs[i]) ==>
              Polls(cfg, n, vs[..i + 1]) == Polls(cfg, n, vs[..i]) + 1
    ensures !cfg.inbox ==> Polls(cfg, n, vs[..i]) == 0
  {
    assert vs[..i + 1][..i] == vs[..i];
  }

  /** The first poll that finds something is the last one made. */
  lemma FoundEarlier(world: World, d: nat, p: nat, q: nat)
    requires Stash(world, d, p) != [] && p <= q && FoundNothing(world, d, q)
    ensures p == q && p > 0
  {
  }

  /** The verdicts of a batch are decided by the scripts. */
  lemma {:induction false} VerdictsAlike(cfg: Config, world: World, e: nat, d: nat, calls: seq<ToolCall>,
                                         vs: seq<Verdict>, ws: seq<Verdict>, k: nat)
    requires BatchFits(world, calls, vs) && BatchFits(world, calls, ws) && |vs| == |ws| == |calls|
    requires Played(world, e, vs) && Played(world, e, ws)
    requires Polled(cfg, world, d, vs) && Polled(cfg, world, d, ws)
    requires k <= |vs|
    ensures vs[..k] == ws[..k]
  {
    hide Polled, Played, Executions;
    if k > 0 {
      var i := k - 1;
      VerdictsAlike(cfg, world, e, d, calls, vs, ws, i);
      forall j | 0 <= j < i ensures vs[j] == ws[j] {
        assert vs[j] == vs[..i][j] && ws[j] == ws[..i][j];
      }
      PlayedAt(world, e, vs, i);
      PlayedAt(world, e, ws, i);
      if vs[i].Interjected? {
        InterruptedAlike(cfg, world, d, calls, vs, ws, i);
      }
      if ws[i].Interjected? {
        InterruptedAlike(cfg, world, d, calls, ws, vs, i);
      }
      if Dispatched(vs[i]) && Dispatched(ws[i]) {
        VerdictAlike(world, calls[i], world.execute(e + Executions(vs[..i])), vs[i], ws[i]);
      }
      assert vs[..k] == vs[..i] + [vs[i]] && ws[..k] == ws[..i] + [ws[i]];
    }
  }

  lemma VerdictAlike(world: World, call: ToolCall, outcome: ToolOutcome, v: Verdict, w: Verdict)
    requires Fits(world, call, v) && Fits(world, call, w) && Reports(outcome, v) && Reports(outcome, w)
    requires Dispatched(v) && Dispatched(w)
    ensures v == w
  {
  }

  // ----- A turn -----

  /** The scripts decide the opening of a turn, its nudge, what the model is asked and what it answers. */
  lemma AnswerAlike(cfg: Config, world: World, past: seq<Record>, r: Record, s: Record)
    requires RecordFits(cfg, world, past, r) && RecordFits(cfg, world, past, s)
    ensures r.opening == s.opening && r.nudge == s.nudge && r.to.streams == s.to.streams
    ensures Asked(cfg, world, past, StageOf(r)) == Asked(cfg, world, past, StageOf(s))
    ensures r.shape.CallFailed? <==> s.shape.CallFailed?
    ensures !r.shape.CallFailed? ==> r.shape.resp == s.shape.resp
  {
    hide Settles, NudgeDue, InputPlays, ToolsPlay, AttemptPlays, Calls, Conversation, Waiting, NudgeMessages;
  }

  /** They decide how compaction goes. */
  lemma AttemptAlike(cfg: Config, world: World, past: seq<Record>, r: Record, s: Record)
    requires RecordFits(cfg, world, past, r) && RecordFits(cfg, world, past, s)
    ensures r.attempt == s.attempt && r.to.summaries == s.to.summaries
  {
    hide NudgeDue, InputPlays, ToolsPlay, Calls, Receives, Asked, Waiting, MustCompact, MustStop, IsEmptyResponse,
         BatchFits;
    AnswerAlike(cfg, world, past, r, s);
    AttemptedTried(world, Asked(cfg, world, past, StageOf(r)), KeepRecent(cfg), End(past).summaries);
  }

  lemma AttemptedTried(world: World, ms: seq<Message>, keep: int, k: nat)
    ensures Attempted(world, ms, keep, k).0 != NotTried
  {
    hide PlanFor;
  }

  /** The kind of the turn, as the reply and the compaction decide it. */
  lemma KindAlike(cfg: Config, world: World, past: seq<Record>, r: Record, s: Record)
    requires RecordFits(cfg, world, past, r) && RecordFits(cfg, world, past, s)
    ensures r.shape.CutOff? <==> s.shape.CutOff?
    ensures r.shape.EmptyReply? <==> s.shape.EmptyReply?
    ensures r.shape.Spoke? <==> s.shape.Spoke?
    ensures r.shape.Batch? <==> s.shape.Batch?
    ensures r.shape.Batch? ==> r.shape.verdicts == s.shape.verdicts
  {
    hide NudgeDue, InputPlays, ToolsPlay, AttemptPlays, Calls, Receives, Asked, Waiting, MustCompact, MustStop,
         BatchFits;
    AnswerAlike(cfg, world, past, r, s);
    AttemptAlike(cfg, world, past, r, s);
    if r.shape.Batch? && s.shape.Batch? {
      BatchAlike(cfg, world, past, r, s);
    }
  }

  lemma BatchAlike(cfg: Config, world: World, past: seq<Record>, r: Record, s: Record)
    requires RecordFits(cfg, world, past, r) && RecordFits(cfg, world, past, s)
    requires r.shape.Batch? && s.shape.Batch? && r.shape.resp == s.shape.resp
    ensures r.shape.verdicts == s.shape.verdicts
  {
    hide NudgeDue, AttemptPlays, Calls, Receives, Asked, Waiting, MustCompact, MustStop, BatchFits, Polls, Trips,
         Executions, Ended;
    var vs, ws := r.shape.verdicts, s.shape.verdicts;
    VerdictsAlike(cfg, world, End(past).executions, Opened(cfg, End(past)).drains, r.shape.resp.calls, vs, ws, |vs|);
    assert vs[..|vs|] == vs && ws[..|vs|] == ws;
  }

  /** They decide the whole turn. */
  lemma TurnAlike(cfg: Config, world: World, past: seq<Record>, r: Record, s: Record)
    requires RecordFits(cfg, world, past, r) && RecordFits(cfg, world, past, s)
    ensures r == s
  {
    hide NudgeDue, Settles, AttemptPlays, Calls, Receives, Asked, Waiting, Polls, Executions, Ended, Played,
         FoundNothing, Stash, Capable, Streak, EmptyStreak;
    AnswerAlike(cfg, world, past, r, s);
    AttemptAlike(cfg, world, past, r, s);
    KindAlike(cfg, world, past, r, s);
    ListensAlike(world, End(past).waits, r.to.waits, s.to.waits, After(r.shape), After(s.shape));
  }

  lemma ListensAlike(world: World, from: nat, a: nat, b: nat, heard: seq<UserMessage>, told: seq<UserMessage>)
    ensures forall blocks :: Listened(world, from, a, blocks, heard) && Listened(world, from, b, blocks, told) ==>
              a == b && heard == told
  {
  }

  /** Of two logs that fit the same scripts one is the beginning of the other: nothing a run does is left
      open by its configuration and by what the outside answers. */
  lemma {:induction false} LogDetermined(cfg: Config, world: World, a: seq<Record>, b: seq<Record>)
    requires LogFits(cfg, world, a) && LogFits(cfg, world, b) && |a| <= |b|
    ensures a <= b
    decreases |b|
  {
    hide RecordFits;
    if a == [] {
    } else if |a| < |b| {
      LogDetermined(cfg, world, a, b[..|b| - 1]);
    } else {
      LogDetermined(cfg, world, a[..|a| - 1], b[..|b| - 1]);
      assert a[..|a| - 1] == b[..|b| - 1];
      TurnAlike(cfg, world, a[..|a| - 1], a[|a| - 1], b[|b| - 1]);
      assert a == a[..|a| - 1] + [a[|a| - 1]] && b == b[..|b| - 1] + [b[|b| - 1]];
    }
  }

  /** A turn that ended one run ends every run over the same scripts that gets that far. */
  lemma EndAlike(cfg: Config, world: World, a: seq<Record>, b: seq<Record>)
    requires LogFits(cfg, world, a) && LogFits(cfg, world, b)
    requires a != [] && Ends(cfg, a[..|a| - 1], a[|a| - 1]) && b != [] && Ongoing(cfg, b[..|b| - 1])
    requires |a| <= |b|
    ensures a == b
  {
    hide LogFits, Ends;
    LogDetermined(cfg, world, a, b);
    if |a| < |b| {
      assert b[..|b| - 1][..|a|] == a;
      OngoingUpTo(cfg, b[..|b| - 1], |a|);
    }
  }

  lemma {:induction false} OngoingUpTo(cfg: Config, log: seq<Record>, n: nat)
    requires Ongoing(cfg, log) && n <= |log|
    ensures Ongoing(cfg, log[..n])
  {
    hide Ends;
    if n < |log| {
      OngoingUpTo(cfg, log[..|log| - 1], n);
      assert log[..|log| - 1][..n] == log[..n];
    } else {
      assert log[..n] == log;
    }
  }
}
