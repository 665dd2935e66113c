/** Runs in which the code and its documentation come apart, as logs that fit their scripts: a count of
    single lookups that survives an empty reply, a streak of failed executions that stops nothing, and
    a stop as incapable of a model whose arguments all parse. */
module SampleRun {
  import opened Wrappers
  import opened Messages
  import opened Replay
  import opened RunFacts
  import opened RunSpec
  import opened Session
  import opened Tokens
  import opened TurnLog

  const READER := ToolInfo("read", "", false, true)

  /** No inbox, no limits but the default ones, no nudges. */
  const PLAIN := Config(Absent, "", "", [], [], 0, 0, 0, None, false, false, 0, 0, "", 0, "", false, false)

  function CallOf(k: nat): ToolCall {
    ToolCall(if k == 0 then "a" else if k == 1 then "b" else "c", "read", "{}")
  }

  function ReplyWith(calls: seq<ToolCall>): Response {
    Response("", "", NoDetails, calls, "", "", Usage(0, 0, 0, None, 0, 0))
  }

  /** A world in which the model calls the reader every time, except that its `quiet`-th reply is empty. */
  function Outside(quiet: nat, registry: seq<ToolInfo>, outcome: ToolOutcome): World {
    World((k: nat) => Reply(ReplyWith(if k == quiet then [] else [CallOf(k)])),
          _ => SummaryFailed, _ => outcome, _ => [], _ => InboxClosed, registry,
          _ => true, _ => false, s => s, s => s, (name, arguments) => name, _ => "", _ => "", _ => "")
  }

  /** The `k`-th turn: its one call got the verdict `v`. */
  function CallTurn(k: nat, v: Verdict, executions: nat): Record {
    Record([], NoNudge, NotTried, Batch(ReplyWith([CallOf(k)]), [v], []), Cursor(k + 1, 0, executions, 0, 0))
  }

  function EmptyTurn(k: nat, executions: nat): Record {
    Record([], NoNudge, NotTried, EmptyReply(ReplyWith([]), []), Cursor(k + 1, 0, executions, 0, 0))
  }

  lemma {:induction false} NoPolls(cfg: Config, n: nat, vs: seq<Verdict>)
    requires !cfg.inbox
    ensures Polls(cfg, n, vs) == 0
  {
  }

  lemma {:induction false} PlainStarts(world: World, past: seq<Record>)
    requires |past| < DEFAULT_MAX_TURNS
    ensures NudgeDue(PLAIN, past) == NoNudge && MayStart(PLAIN, world, past)
  {
    hide Cost;
  }

  lemma {:induction false} CallTurnFits(world: World, past: seq<Record>, v: Verdict, executions: nat)
    requires |past| < DEFAULT_MAX_TURNS && End(past) == Cursor(|past|, 0, executions, 0, 0)
    requires world.model(|past|) == Reply(ReplyWith([CallOf(|past|)]))
    requires Fits(world, CallOf(|past|), v) && Dispatched(v) && Reports(world.execute(executions), v)
    ensures var after := if Executed(v) then executions + 1 else executions;
            RecordFits(PLAIN, world, past, CallTurn(|past|, v, after))
  {
    hide Asked, NudgeDue, MayStart, Fits, Reports;
    PlainStarts(world, past);
    var vs := [v];
    var r := CallTurn(|past|, v, if Executed(v) then executions + 1 else executions);
    assert vs[..0] == [];
    assert Executions(vs) == (if Executed(v) then 1 else 0) && Played(world, executions, vs);
    NoPolls(PLAIN, 1, vs);
    assert !Interrupted(vs);
    assert BatchFits(world, r.shape.resp.calls, vs);
    assert !IsFinal(PLAIN, r.shape.resp) && !IsEmptyResponse(r.shape.resp);
  }

  lemma {:induction false} EmptyTurnFits(world: World, past: seq<Record>, executions: nat)
    requires |past| < DEFAULT_MAX_TURNS && End(past) == Cursor(|past|, 0, executions, 0, 0)
    requires world.model(|past|) == Reply(ReplyWith([])) && EmptyStreak(past) == 0
    ensures RecordFits(PLAIN, world, past, EmptyTurn(|past|, executions))
  {
    hide Asked, NudgeDue, MayStart;
    PlainStarts(world, past);
  }

  // ----- The count of single lookups -----

  /** A lookup, an empty reply and another lookup count as two single lookups in a row. */
  lemma {:induction false} DocumentationDiffers()
    ensures var v := Ran(READER, "", []);
            var log := [CallTurn(0, v, 1), EmptyTurn(1, 1), CallTurn(2, v, 2)];
            && LogFits(PLAIN, Outside(1, [READER], Output("", [])), log)
            && SingleStreak(log) == 2 && DocumentedStreak(log) == 1
  {
    hide RecordFits, Outside, LogFits;
    var world, v := Outside(1, [READER], Output("", [])), Ran(READER, "", []);
    var a, b, c := CallTurn(0, v, 1), EmptyTurn(1, 1), CallTurn(2, v, 2);
    ReaderFits(1, Output("", []));
    CallTurnFits(world, [], v, 0);
    EmptyTurnFits(world, [a], 1);
    CallTurnFits(world, [a, b], v, 1);
    ThreeTurns(world, a, b, c);
    UsesReader(v);
    EmptyReplyKeepsCount(a, b, c);
  }

  lemma {:induction false} UsesReader(v: Verdict)
    requires Executed(v) && v.tool == READER
    ensures UsedLookup([v]) && Capable([v])
  {
    assert [v][..0] == [];
  }

  /** What this world answers. */
  lemma {:induction false} ReaderFits(quiet: nat, outcome: ToolOutcome)
    ensures var world := Outside(quiet, [READER], outcome);
            && (forall k: nat :: world.model(k) == Reply(ReplyWith(if k == quiet then [] else [CallOf(k)])))
            && forall k: nat :: Fits(world, CallOf(k), Verdicted(world, READER, 0))
                                && Reports(world.execute(k), Verdicted(world, READER, 0))
                                && Verdicted(world, READER, 0)
                                   == (if outcome.Output? then Ran(READER, outcome.text, outcome.images)
                                       else Refused(READER, outcome.message))
  {
    assert Lookup([READER], "read") == Some(READER);
  }

  lemma {:induction false} ThreeTurns(world: World, a: Record, b: Record, c: Record)
    requires RecordFits(PLAIN, world, [], a) && RecordFits(PLAIN, world, [a], b) && RecordFits(PLAIN, world, [a, b], c)
    ensures LogFits(PLAIN, world, [a, b, c])
  {
    hide RecordFits, Written, Conversation, Streak, Usages, Judged;
    assert LogFits(PLAIN, world, []);
    LogSnoc(PLAIN, world, [], a);
    LogSnoc(PLAIN, world, [a], b);
    LogSnoc(PLAIN, world, [a, b], c);
    assert [] + [a] == [a] && [a] + [b] == [a, b] && [a, b] + [c] == [a, b, c];
  }

  // ----- The unproductive streak -----

  /** Three turns in which nothing is executed successfully: the documented count reaches the threshold,
      but the run goes on, because a call that fails is no sign of an incapable model. */
  lemma {:induction false} FailuresGoOn()
    ensures var v := Refused(READER, "no");
            var log := [CallTurn(0, v, 1), CallTurn(1, v, 2), CallTurn(2, v, 3)];
            && LogFits(PLAIN, Outside(9, [READER], ToolError("no")), log)
            && Trailing(Unsuccessful(Batches(log))) == 3 == IncapableLimit(PLAIN)
            && Trailing(Unproductive(Batches(log))) == 0 && Ongoing(PLAIN, log)
  {
    hide RecordFits, Outside, LogFits, Trailing, Ongoing;
    var world, v := Outside(9, [READER], ToolError("no")), Refused(READER, "no");
    var a, b, c := CallTurn(0, v, 1), CallTurn(1, v, 2), CallTurn(2, v, 3);
    ReaderFits(9, ToolError("no"));
    CallTurnFits(world, [], v, 0);
    CallTurnFits(world, [a], v, 1);
    CallTurnFits(world, [a, b], v, 2);
    ThreeTurns(world, a, b, c);
    UsesReader(v);
    ThreeBatches(a, b, c);
    assert Unsuccessful([[v], [v], [v]]) == [true, true, true];
    assert Unproductive([[v], [v], [v]]) == [false, false, false];
    ThreeFlags(true);
    ThreeFlags(false);
    CapableGoesOn(a, b, c, v);
  }

  /** Three turns whose only call names an unknown tool stop the run as incapable, although all of their
      arguments parse. */
  lemma {:induction false} UnknownToolsStop()
    ensures var log := [CallTurn(0, Unknown, 0), CallTurn(1, Unknown, 0), CallTurn(2, Unknown, 0)];
            var world := Outside(9, [], ToolError("no"));
            && LogFits(PLAIN, world, log) && (forall arguments :: world.parses(arguments))
            && Trailing(AllUnparsed(Batches(log))) == 0
            && Trailing(Unproductive(Batches(log))) == 3 == IncapableLimit(PLAIN)
            && Ongoing(PLAIN, log[..2]) && StopReason(PLAIN, world, log).Incapable?
  {
    hide RecordFits, LogFits, Trailing, Ongoing, StopReason;
    var world := Outside(9, [], ToolError("no"));
    var a, b, c := CallTurn(0, Unknown, 0), CallTurn(1, Unknown, 0), CallTurn(2, Unknown, 0);
    assert Lookup(world.registry, "read").None?;
    CallTurnFits(world, [], Unknown, 0);
    CallTurnFits(world, [a], Unknown, 0);
    CallTurnFits(world, [a, b], Unknown, 0);
    ThreeTurns(world, a, b, c);
    ThreeBatches(a, b, c);
    var vs := [Unknown];
    assert vs[..0] == [] && !Capable(vs) && Unknown in vs;
    assert AllUnparsed([vs, vs, vs]) == [false, false, false] && Unproductive([vs, vs, vs]) == [true, true, true];
    ThreeFlags(true);
    ThreeFlags(false);
    ThirdTrips(world, a, b, c);
  }

  lemma {:induction false} ThreeBatches(a: Record, b: Record, c: Record)
    requires a.shape.Batch? && b.shape.Batch? && c.shape.Batch?
    ensures Batches([a, b, c]) == [a.shape.verdicts, b.shape.verdicts, c.shape.verdicts]
  {
    assert Batches([]) == [];
    BatchesSnoc([], a);
    BatchesSnoc([a], b);
    BatchesSnoc([a, b], c);
    assert [] + [a] == [a] && [a] + [b] == [a, b] && [a, b] + [c] == [a, b, c];
  }

  lemma {:induction false} ThreeFlags(flag: bool)
    ensures Trailing([flag, flag, flag]) == if flag then 3 else 0
  {
    TrailingSnoc([], flag);
    TrailingSnoc([flag], flag);
    TrailingSnoc([flag, flag], flag);
    assert [] + [flag] == [flag] && [flag] + [flag] == [flag, flag] && [flag, flag] + [flag] == [flag, flag, flag];
  }

  lemma {:induction false} BatchEnds(past: seq<Record>, r: Record)
    requires r.shape.Batch? && !Ended(r.shape.verdicts) && r.to.waits == 0
    ensures Ends(PLAIN, past, r) <==> Trips(past, r.shape, 3)
  {
    hide Ended, Trips, End;
  }

  predicate PlainBatch(r: Record, v: Verdict) {
    r.shape.Batch? && r.shape.verdicts == [v] && r.to.waits == 0
  }

  lemma {:induction false} CapableGoesOn(a: Record, b: Record, c: Record, v: Verdict)
    requires PlainBatch(a, v) && PlainBatch(b, v) && PlainBatch(c, v) && Executed(v) && !Terminates(v)
    ensures Ongoing(PLAIN, [a, b, c])
  {
    hide Ends, Streak;
    UsesVerdict(v);
    BatchEnds([], a);
    BatchEnds([a], b);
    BatchEnds([a, b], c);
    OngoingSnoc(PLAIN, [], a);
    OngoingSnoc(PLAIN, [a], b);
    OngoingSnoc(PLAIN, [a, b], c);
    assert [] + [a] == [a] && [a] + [b] == [a, b] && [a, b] + [c] == [a, b, c];
  }

  lemma {:induction false} UsesVerdict(v: Verdict)
    requires !Terminates(v)
    ensures Capable([v]) <==> Executed(v)
    ensures !Ended([v])
  {
    assert [v][..0] == [];
  }

  lemma {:induction false} ThirdTrips(world: World, a: Record, b: Record, c: Record)
    requires PlainBatch(a, Unknown) && PlainBatch(b, Unknown) && PlainBatch(c, Unknown) && !Unanswered(b.to, c)
    ensures Ongoing(PLAIN, [a, b, c][..2]) && StopReason(PLAIN, world, [a, b, c]).Incapable?
  {
    hide Graced, Cost, Ends, Capable, Ended, Unanswered, RawArgs;
    UsesVerdict(Unknown);
    assert [] + [a] == [a] && [a] + [b] == [a, b] && [a, b, c][..2] == [a, b];
    assert [a][..0] == [] && [a, b][..1] == [a];
    assert |Streak([], 3)| == 0;
    assert |Streak([a], 3)| == 1;
    assert |Streak([a, b], 3)| == 2;
    BatchEnds([], a);
    BatchEnds([a], b);
    BatchEnds([a, b], c);
    OngoingSnoc(PLAIN, [], a);
    OngoingSnoc(PLAIN, [a], b);
  }
}
