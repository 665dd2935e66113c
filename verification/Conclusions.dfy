/** What a completed run says about its log: when each stop is reached, stated over every log that fits
    the scripts and every result its contract allows, and that the scripts decide the stop. */
module Conclusions {
  import opened Wrappers
  import opened Session
  import opened TurnLog
  import opened RunSpec
  import opened RunFacts
  import opened Incapable
  import opened AgentLoop
  import Determined
  import Events
  import Messages
  import Tokens

  // ----- The last turn -----

  /** The turn waited for the human and was answered this way. */
  predicate Waited(world: World, past: seq<Record>, r: Record, outcome: WaitOutcome) {
    r.to.waits > End(past).waits && world.wait(r.to.waits - 1) == outcome
  }

  lemma OnlyBatchesTrip(past: seq<Record>, attempt: Attempt, shape: Shape, threshold: nat)
    ensures Trips(past, shape, threshold) ==> shape.Batch?
    ensures GivesUp(past, attempt, shape) ==> shape.EmptyReply?
  {
  }

  /** A turn waits at most once, what it then hears is what the wait gave, and a turn that ends the run
      for another reason does not wait. */
  lemma WaitsOnce(cfg: Config, world: World, past: seq<Record>, r: Record)
    requires RecordFits(cfg, world, past, r)
    ensures r.to.waits > End(past).waits ==> After(r.shape) == Arrived(world.wait(r.to.waits - 1))
    ensures r.shape.CutOff? || (r.shape.Spoke? && !cfg.inbox) || (r.shape.Batch? && Ended(r.shape.verdicts)) ==>
              r.to.waits == End(past).waits
    ensures !cfg.interactive && (r.shape.CallFailed? || GivesUp(past, r.attempt, r.shape)
                                 || Trips(past, r.shape, IncapableLimit(cfg))) ==>
              r.to.waits == End(past).waits
  {
    hide MayStart, NudgeDue, Settles, Calls, Receives, AttemptPlays, ToolsPlay, Asked, Ended, Trips, Polls, Stash,
         EmptyStreak, Waiting;
    OnlyBatchesTrip(past, r.attempt, r.shape, IncapableLimit(cfg));
  }

  lemma LastTurn(cfg: Config, world: World, log: seq<Record>)
    requires LogFits(cfg, world, log) && log != []
    ensures RecordFits(cfg, world, log[..|log| - 1], log[|log| - 1])
  {
    hide RecordFits;
  }

  /** The reason the last turn gives, case by case. */
  lemma LastReason(cfg: Config, world: World, past: seq<Record>, r: Record)
    requires RecordFits(cfg, world, past, r) && Ends(cfg, past, r)
    ensures var reason := EndReason(world, End(past), r);
            && (reason.ContextLimit? <==> r.shape.CutOff?)
            && (reason.Canceled? <==> Waited(world, past, r, WaitError))
            && (reason.Done? <==>
                  || Waited(world, past, r, InboxClosed)
                  || (r.shape.Spoke? && !cfg.inbox) || (r.shape.Batch? && Ended(r.shape.verdicts)))
            && (reason.Incapable? <==> !cfg.interactive && Trips(past, r.shape, IncapableLimit(cfg)))
            && (reason.Error? <==>
                  !cfg.interactive && (r.shape.CallFailed? || GivesUp(past, r.attempt, r.shape)))
  {
    hide RecordFits, Ended, GivesUp, Trips, IncapableLimit;
    WaitsOnce(cfg, world, past, r);
    EndedNeverTrips(past, r.shape, IncapableLimit(cfg));
    OnlyBatchesTrip(past, r.attempt, r.shape, IncapableLimit(cfg));
  }

  /** A turn that does any of this ended the run. */
  lemma TurnEnds(cfg: Config, world: World, past: seq<Record>, r: Record)
    requires RecordFits(cfg, world, past, r)
    ensures Ends(cfg, past, r) <==>
              || r.shape.CutOff? || Waited(world, past, r, WaitError) || Waited(world, past, r, InboxClosed)
              || (r.shape.Spoke? && !cfg.inbox) || (r.shape.Batch? && Ended(r.shape.verdicts))
              || (!cfg.interactive && (r.shape.CallFailed? || GivesUp(past, r.attempt, r.shape)
                                       || Trips(past, r.shape, IncapableLimit(cfg))))
  {
    hide RecordFits, Ended, GivesUp, Trips, IncapableLimit;
    WaitsOnce(cfg, world, past, r);
  }

  /** The log of a stopped run and its reason: its last turn ended it, or it stopped between two turns. */
  lemma Reasons(cfg: Config, world: World, log: seq<Record>)
    requires LogFits(cfg, world, log) && !StopReason(cfg, world, log).Unset?
    requires log != [] ==> Ongoing(cfg, log[..|log| - 1])
    ensures if log != [] && Ends(cfg, log[..|log| - 1], log[|log| - 1])
            then StopReason(cfg, world, log) == EndReason(world, End(log[..|log| - 1]), log[|log| - 1])
            else Ongoing(cfg, log)
                 && StopReason(cfg, world, log)
                    == (if !AtLimit(cfg, log) then MaxCost
                        else if Graced(cfg, world, log).args.Some? then Done else MaxTurns)
                 && (AtLimit(cfg, log) || CapReached(cfg, Cost(world, log)))
  {
    hide LogFits, Ends, EndReason, Graced, CapReached, Cost, TurnLimit;
  }

  // ----- Stops -----

  /** A run stopped as incapable exactly when its last `threshold` tool-calling turns had no capable call
      for the first time; the diagnosis is that of the arguments these turns failed on. */
  lemma IncapableStop(cfg: Config, world: World, log: seq<Record>, res: Result, judged: seq<Decision>,
                      err: Option<RunError>)
    requires LogFits(cfg, world, log) && ContractFits(cfg, world, log, res, judged, err)
    ensures res.reason.Incapable? <==>
              && !cfg.interactive && log != [] && log[|log| - 1].shape.Batch?
              && Trailing(Unproductive(Batches(log)))
                 == (if cfg.incapableThreshold > 0 then cfg.incapableThreshold else 3)
    ensures res.reason.Incapable? ==>
              var batches, limit := Batches(log), if cfg.incapableThreshold > 0 then cfg.incapableThreshold else 3;
              && |batches| >= limit
              && DetailFits(AllRawArgs(batches[|batches| - limit..]), world.concatenated, res.incapableDetail)
  {
    hide LogFits, RecordFits, Ongoing, Ends, EndReason, StopReason, StopError, Graced, Batches, Unproductive,
         AllRawArgs, Trailing, DetailFits, Trips, EndedLast, Ended, Streak, RawArgs, NoTerminal, EndedBy, GivesUp,
         RunsOf, Waited, TerminalArgs, AtLimit;
    Reasons(cfg, world, log);
    if log != [] {
      var past, last := log[..|log| - 1], log[|log| - 1];
      assert log == past + [last];
      LastTurn(cfg, world, log);
      TurnEnds(cfg, world, past, last);
      if Ends(cfg, past, last) {
        LastReason(cfg, world, past, last);
      }
      if !cfg.interactive {
        IncapableExactly(cfg, past, last);
      }
    }
  }

  /** A run failed on empty replies exactly when it is not interactive and its last three replies were
      empty, with no compaction since the first of them; it failed on a model call exactly when it is not
      interactive and its last call failed. */
  lemma FailureStop(cfg: Config, world: World, log: seq<Record>, res: Result, judged: seq<Decision>,
                    err: Option<RunError>)
    requires LogFits(cfg, world, log) && ContractFits(cfg, world, log, res, judged, err)
    ensures err == Some(EmptyResponse) <==>
              && !cfg.interactive && |log| >= 3
              && (forall i :: |log| - 3 <= i < |log| ==> log[i].shape.EmptyReply?)
              && (forall i :: |log| - 2 <= i < |log| ==> !log[i].attempt.Shrank?)
    ensures err == Some(Transport) <==> !cfg.interactive && log != [] && log[|log| - 1].shape.CallFailed?
  {
    hide LogFits, RecordFits, Ongoing, Ends, EndReason, StopReason, Graced, IncapableLimit, DetailFits, Trips,
         EndedLast, Ended, Streak, RawArgs, NoTerminal, EndedBy, GivesUp, RunsOf, Waited, TerminalArgs, AtLimit;
    Reasons(cfg, world, log);
    if log != [] {
      var past, last := log[..|log| - 1], log[|log| - 1];
      LastTurn(cfg, world, log);
      TurnEnds(cfg, world, past, last);
      OnlyBatchesTrip(past, last.attempt, last.shape, IncapableLimit(cfg));
      if Ends(cfg, past, last) {
        LastReason(cfg, world, past, last);
      }
      if !cfg.interactive {
        ThirdEmptyReplyFails(cfg, past, last.attempt, last.shape);
      }
      if |log| >= 3 {
        var n := |log|;
        assert past[|past| - 1] == log[n - 2] && past[|past| - 2] == log[n - 3];
        assert (forall i :: n - 3 <= i < n ==> log[i].shape.EmptyReply?) <==>
                 log[n - 3].shape.EmptyReply? && log[n - 2].shape.EmptyReply? && log[n - 1].shape.EmptyReply?;
        assert (forall i :: n - 2 <= i < n ==> !log[i].attempt.Shrank?) <==>
                 !log[n - 2].attempt.Shrank? && !log[n - 1].attempt.Shrank?;
      }
    }
  }

  /** A run stopped at the context limit exactly when the last reply was not final, its prompt had
      reached the hard stop, and the conversation it answered could not be shortened; that conversation
      is what the run leaves. No earlier turn was cut off. */
  lemma LimitStop(cfg: Config, world: World, log: seq<Record>, res: Result, judged: seq<Decision>,
                  err: Option<RunError>)
    requires LogFits(cfg, world, log) && ContractFits(cfg, world, log, res, judged, err)
    ensures res.reason.ContextLimit? <==>
              && log != []
              && var past, last := log[..|log| - 1], log[|log| - 1];
                 && !last.shape.CallFailed?
                 && LimitReached(cfg, last.shape.resp)
                 && !(cfg.compaction.Some? && TurnShortens(cfg, world, past, last))
    ensures log != [] && Messages.Closed(cfg.history) ==>
              var past, last := log[..|log| - 1], log[|log| - 1];
              (TurnShortens(cfg, world, past, last) <==>
                 ShortensClosed(world, Asked(cfg, world, past, StageOf(last)), KeepRecent(cfg), End(past).summaries))
    ensures res.reason.ContextLimit? ==>
              Conversation(cfg, world, log) == Asked(cfg, world, log[..|log| - 1], StageOf(log[|log| - 1]))
  {
    hide LogFits, RecordFits, Ongoing, Ends, EndReason, StopReason, StopError, Graced, IncapableLimit, DetailFits,
         Trips, EndedLast, Ended, Streak, RawArgs, NoTerminal, EndedBy, GivesUp, RunsOf, Waited, TerminalArgs,
         AtLimit, LimitReached, TurnShortens, ShortensClosed, Asked, Conversation, Messages.Closed;
    Reasons(cfg, world, log);
    if log != [] {
      var past, last := log[..|log| - 1], log[|log| - 1];
      LastTurn(cfg, world, log);
      TurnEnds(cfg, world, past, last);
      if Ends(cfg, past, last) {
        LastReason(cfg, world, past, last);
      }
      if !last.shape.CallFailed? {
        LimitExactly(cfg, world, log, |log| - 1);
      }
      if Messages.Closed(cfg.history) {
        TurnShortensClosed(cfg, world, log, |log| - 1);
      }
      if last.shape.CutOff? {
        LimitAfterCompaction(cfg, world, log, |log| - 1);
        assert log[..|log|] == log;
      }
    }
  }

  /** Every message the inbox gave was delivered once and in order, except that a stop as incapable
      leaves the stash of its last batch behind. */
  lemma InboxStop(cfg: Config, world: World, log: seq<Record>, res: Result, judged: seq<Decision>,
                  err: Option<RunError>)
    requires LogFits(cfg, world, log) && ContractFits(cfg, world, log, res, judged, err)
    ensures var left := if log == [] then [] else LeftBehind(cfg, world, log[..|log| - 1], log[|log| - 1].shape);
            && Given(world, log) == Heard(log) + left
            && (left != [] ==> res.reason.Incapable?)
  {
    hide LogFits, RecordFits, Ongoing, Ends, EndReason, StopReason, StopError, Graced, IncapableLimit, DetailFits,
         Trips, EndedLast, Ended, Streak, RawArgs, NoTerminal, EndedBy, GivesUp, RunsOf, Waited, TerminalArgs,
         AtLimit;
    Reasons(cfg, world, log);
    if log != [] {
      var past, last := log[..|log| - 1], log[|log| - 1];
      assert log == past + [last];
      LastTurn(cfg, world, log);
      TurnEnds(cfg, world, past, last);
      if Ends(cfg, past, last) {
        LastReason(cfg, world, past, last);
      }
      InboxConserved(cfg, world, past, last);
    }
  }

  /** A run is completed exactly when a terminal tool succeeded in its last turn or, at the turn limit, in
      the grace call, when its last reply made no calls and nobody is listening, or when its last turn
      waited and found the inbox closed. */
  lemma DoneStop(cfg: Config, world: World, log: seq<Record>, res: Result, judged: seq<Decision>,
                 err: Option<RunError>)
    requires LogFits(cfg, world, log) && ContractFits(cfg, world, log, res, judged, err)
    ensures res.completed <==>
              || EndedLast(log)
              || (AtLimit(cfg, log) && Graced(cfg, world, log).args.Some?)
              || (log != [] && log[|log| - 1].shape.Spoke? && !cfg.inbox)
              || (log != [] && Waited(world, log[..|log| - 1], log[|log| - 1], InboxClosed))
    ensures res.completionArgs.Some? <==> EndedLast(log) || Graced(cfg, world, log).args.Some?
  {
    hide LogFits, RecordFits, Ongoing, Ends, EndReason, StopReason, StopError, GraceCalled, IncapableLimit,
         DetailFits, Trips, Ended, Streak, RawArgs, NoTerminal, EndedBy, GivesUp, RunsOf, Waited, CapReached, Cost,
         Offered, TurnLimit;
    Reasons(cfg, world, log);
    if log != [] {
      var past, last := log[..|log| - 1], log[|log| - 1];
      LastTurn(cfg, world, log);
      TurnEnds(cfg, world, past, last);
      if Ends(cfg, past, last) {
        LastReason(cfg, world, past, last);
        assert log == past + [last];
        NotGraced(cfg, world, past, last);
      } else {
        OngoingNotEnded(cfg, log);
      }
    }
  }

  /** A run was canceled exactly when its last turn waited and the wait failed; no earlier wait had failed
      or found the inbox closed. */
  lemma CanceledStop(cfg: Config, world: World, log: seq<Record>, res: Result, judged: seq<Decision>,
                     err: Option<RunError>)
    requires LogFits(cfg, world, log) && ContractFits(cfg, world, log, res, judged, err)
    ensures res.reason.Canceled? <==> log != [] && Waited(world, log[..|log| - 1], log[|log| - 1], WaitError)
    ensures err == Some(WaitFailed) <==> res.reason.Canceled?
    ensures forall i :: 0 <= i < |log| - 1 ==>
              !Waited(world, log[..i], log[i], WaitError) && !Waited(world, log[..i], log[i], InboxClosed)
  {
    hide LogFits, RecordFits, Ongoing, Ends, EndReason, StopReason, Graced, IncapableLimit, DetailFits, Trips,
         EndedLast, Ended, Streak, RawArgs, NoTerminal, EndedBy, GivesUp, RunsOf, Waited, TerminalArgs, AtLimit;
    Reasons(cfg, world, log);
    if log != [] {
      var past, last := log[..|log| - 1], log[|log| - 1];
      LastTurn(cfg, world, log);
      TurnEnds(cfg, world, past, last);
      if Ends(cfg, past, last) {
        LastReason(cfg, world, past, last);
      }
      forall i | 0 <= i < |log| - 1
        ensures !Waited(world, log[..i], log[i], WaitError) && !Waited(world, log[..i], log[i], InboxClosed)
      {
        RecordsFit(cfg, world, log, i);
        TurnEnds(cfg, world, log[..i], log[i]);
        OngoingThroughout(cfg, past, i);
        assert past[..i] == log[..i];
      }
    }
  }

  lemma {:induction false} OngoingThroughout(cfg: Config, log: seq<Record>, i: nat)
    requires Ongoing(cfg, log) && i < |log|
    ensures !Ends(cfg, log[..i], log[i])
  {
    hide Ends;
    if i < |log| - 1 {
      OngoingThroughout(cfg, log[..|log| - 1], i);
      assert log[..|log| - 1][..i] == log[..i];
    }
  }

  /** A run that is not interactive took its turns: as many as configured, or thirty. */
  ghost predicate TurnsUsed(cfg: Config, log: seq<Record>) {
    !cfg.interactive && |log| >= if cfg.maxTurns > 0 then cfg.maxTurns else 30
  }

  /** The calls that were answered cost as much as the cap allows, if there is a cap. */
  ghost predicate CostAtCap(cfg: Config, world: World, log: seq<Record>) {
    cfg.maxCost > 0 && Tokens.Sum(Tokens.Each(Usages(world, log), (u: Tokens.Usage) => u.cost)) >= cfg.maxCost
  }

  lemma CapsMean(cfg: Config, world: World, log: seq<Record>)
    ensures AtLimit(cfg, log) <==> Ongoing(cfg, log) && TurnsUsed(cfg, log)
    ensures CapReached(cfg, Cost(world, log)) <==> CostAtCap(cfg, world, log)
  {
    hide Ongoing, Usages, Tokens.Spent, Tokens.Sum, Tokens.Each;
    Tokens.SpentMeans(Usages(world, log));
  }

  /** Between two turns a run stops for cost exactly when the calls of its log have reached the cap and
      turns are left, and for lack of turns exactly when they are used up and no grace call completed it.
      No turn of the log was started at the cap. */
  lemma CapStop(cfg: Config, world: World, log: seq<Record>, res: Result, judged: seq<Decision>,
                err: Option<RunError>)
    requires LogFits(cfg, world, log) && ContractFits(cfg, world, log, res, judged, err)
    ensures res.reason.MaxCost? <==> Ongoing(cfg, log) && !TurnsUsed(cfg, log)
    ensures res.reason.MaxCost? ==> CostAtCap(cfg, world, log)
    ensures res.reason.MaxTurns? <==>
              Ongoing(cfg, log) && TurnsUsed(cfg, log) && Graced(cfg, world, log).args.None?
    ensures forall i :: 0 <= i < |log| ==> !CostAtCap(cfg, world, log[..i])
  {
    hide LogFits, Ongoing, Ends, StopReason, StopError, Graced, IncapableLimit, DetailFits, Trips, EndedLast, Ended,
         Streak, RawArgs, NoTerminal, EndedBy, GivesUp, RunsOf, TerminalArgs, CapReached, Cost, Unanswered, TurnLimit,
         AtLimit, TurnsUsed, CostAtCap;
    Reasons(cfg, world, log);
    CapsMean(cfg, world, log);
    if log != [] {
      OngoingSnoc(cfg, log[..|log| - 1], log[|log| - 1]);
      assert log[..|log| - 1] + [log[|log| - 1]] == log;
    }
    forall i | 0 <= i < |log| ensures !CostAtCap(cfg, world, log[..i]) {
      CapsMean(cfg, world, log[..i]);
      RecordsFit(cfg, world, log, i);
    }
  }

  // ----- The scripts decide the stop -----

  /** Two stopped runs over the same scripts have the same log, reason and error. */
  lemma StopsAlike(cfg: Config, world: World, a: seq<Record>, b: seq<Record>, resA: Result, resB: Result,
                   judgedA: seq<Decision>, judgedB: seq<Decision>, errA: Option<RunError>, errB: Option<RunError>)
    requires LogFits(cfg, world, a) && ContractFits(cfg, world, a, resA, judgedA, errA)
    requires LogFits(cfg, world, b) && ContractFits(cfg, world, b, resB, judgedB, errB)
    ensures a == b && resA.reason == resB.reason && errA == errB && resA.completed == resB.completed
  {
    hide LogFits, StopReason, StopError, Ongoing, DetailFits, EndedLast, TerminalArgs, Graced, RunsOf, EndedBy,
         NoTerminal, Streak, RawArgs;
    if |a| <= |b| {
      StopsFirst(cfg, world, a, b);
    } else {
      StopsFirst(cfg, world, b, a);
    }
  }

  /** A run cannot stop where another one over the same scripts went on. */
  lemma StopsFirst(cfg: Config, world: World, a: seq<Record>, b: seq<Record>)
    requires LogFits(cfg, world, a) && LogFits(cfg, world, b) && |a| <= |b|
    requires !StopReason(cfg, world, a).Unset? && (b != [] ==> Ongoing(cfg, b[..|b| - 1]))
    ensures a == b
  {
    hide LogFits, Ongoing, Ends, EndReason, Graced, CapReached, Cost, TurnLimit, Settles, Plays, NudgeDue;
    Determined.LogDetermined(cfg, world, a, b);
    if |a| < |b| {
      RecordsFit(cfg, world, b, |a|);
      assert b[..|a|] == a;
      Determined.OngoingUpTo(cfg, b[..|b| - 1], |a|);
      assert b[..|b| - 1][..|a|] == a;
      OngoingNotEnded(cfg, a);
    }
  }

  /** Two harnesses that ran to a stop over the same configuration and scripts left the same
      conversation, delivered the same messages, sent the same requests, reported the same tool calls,
      spent the same and stopped for the same reason. */
  lemma RunsAlike(g: Harness, h: Harness, errG: Option<RunError>, errH: Option<RunError>)
    requires g.cfg == h.cfg && g.world == h.world
    requires g.Sound() && g.Contract(errG) && h.Sound() && h.Contract(errH)
    ensures g.log == h.log && g.msgs == h.msgs && g.full == h.full && g.delivered == h.delivered
    ensures Posts(g.requests) == Posts(h.requests) && g.Here() == h.Here()
    ensures Events.ToolEvents(g.events) == Events.ToolEvents(h.events)
    ensures g.res.reason == h.res.reason && g.res.completed == h.res.completed && g.res.turns == h.res.turns
    ensures g.res.totals == h.res.totals && CountsOf(g.res) == CountsOf(h.res) && errG == errH
  {
    hide Window, BooksFit, ContractFits, LogFits, Posts, Posted, Usages, Judged, Graced, Conversation, Written, Heard,
         End, RequestFits, Messages.Closed, Events.ToolEvents, Events.ViewOf, Events.PairWord, WordOf, Tally,
         Tokens.Spent, Tokens.WireTokens;
    StopsAlike(g.cfg, g.world, g.log, h.log, g.res, h.res, g.judged, h.judged, errG, errH);
  }
}
