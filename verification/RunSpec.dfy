/** What a run is worth to the outside, as a function of its log: the requests it makes, the tool
    events it reports, the last call after the turn limit, and the reason it stops for. */
module RunSpec {
  import opened Wrappers
  import opened Compaction
  import opened Messages
  import opened Replay
  import opened Session
  import opened Tokens
  import opened TurnLog
  import Events
  import Text

  datatype Reason = Unset | Done | MaxTurns | MaxCost | ContextLimit | Incapable | Error | Canceled

  datatype RunError = Misconfigured | Transport | EmptyResponse | WaitFailed

  // ----- Requests -----

  datatype Kind = Turn | Grace | Summarize

  /** A request as the client gets it, and what it was sent for. */
  datatype Post = Post(kind: Kind, request: Request, pin: string, retry: bool)

  /** What one model call sends: the pinned request and, when a 400 answered a request that carried a
      pin or reasoning, the same conversation without either. */
  ghost function ModelPosts(cfg: Config, kind: Kind, live: seq<Message>, first: ModelOutcome): (posts: seq<Post>)
    ensures |posts| == Calls(cfg, first, live)
  {
    var req := Request(live, cfg.routing);
    var (sent, pin) := Pinned(req);
    [Post(kind, sent, pin, false)]
    + if Calls(cfg, first, live) == 2 then [Post(kind, Unpinned(req), "", true)] else []
  }

  /** The request for a summary of what a cut of `ms` drops. */
  function SummaryRequest(cfg: Config, ms: seq<Message>): Request {
    var plan := PlanFor(ms, KeepRecent(cfg));
    var older := if plan.Cut? then ms[SysCount(ms)..plan.at] else [];
    Request([SystemText(COMPACTION_PROMPT)] + Bare(older), cfg.routing)
  }

  function SummaryPosts(cfg: Config, ms: seq<Message>, from: nat, to: nat): seq<Post> {
    if from < to then [Post(Summarize, SummaryRequest(cfg, ms), "", false)] else []
  }

  /** Every request of a log: in each turn the model call, then the call for a summary, if any. */
  ghost function Posted(cfg: Config, world: World, log: seq<Record>): seq<Post> {
    if log == [] then []
    else
      var past, r := log[..|log| - 1], log[|log| - 1];
      Posted(cfg, world, past) + TurnPosts(cfg, world, past, StageOf(r), r.to.summaries)
  }

  ghost function TurnPosts(cfg: Config, world: World, past: seq<Record>, t: Stage, summaries: nat): seq<Post> {
    var asked, from := Asked(cfg, world, past, t), End(past);
    ModelPosts(cfg, Turn, asked, world.model(from.streams)) + SummaryPosts(cfg, asked, from.summaries, summaries)
  }

  lemma PostedSnoc(cfg: Config, world: World, log: seq<Record>, r: Record)
    ensures Posted(cfg, world, log + [r])
         == Posted(cfg, world, log) + TurnPosts(cfg, world, log, StageOf(r), r.to.summaries)
  {
    hide TurnPosts;
    assert (log + [r])[..|log|] == log;
  }

  // ----- Tool calls -----

  function AnswerKind(v: Verdict): Events.Answer {
    match v
    case Unknown => Events.Erred
    case BadArgs(_) => Events.Repaired
    case Refused(_, _) => Events.Erred
    case Ran(_, _, _) => Events.Succeeded
    case Interjected => Events.Skipped
    case PastEnd => Events.Skipped
  }

  /** The tool events of a list of decisions: each call, whether it was dispatched, and its answer. */
  function WordOf(ds: seq<Decision>): seq<Events.Event> {
    if ds == [] then []
    else
      var d := ds[|ds| - 1];
      WordOf(ds[..|ds| - 1])
      + [Events.ToolCallEvent(d.id, Dispatched(d.verdict)), Events.ToolAnswerEvent(d.id, AnswerKind(d.verdict))]
  }

  datatype Counts = Counts(calls: nat, failures: nat, repairs: nat)

  /** Dispatched calls, and among them those that failed and those that could not be parsed. */
  function Tally(ds: seq<Decision>): Counts {
    if ds == [] then Counts(0, 0, 0)
    else Counted(Tally(ds[..|ds| - 1]), ds[|ds| - 1].verdict)
  }

  function Counted(c: Counts, v: Verdict): Counts {
    match AnswerKind(v)
    case Succeeded => c.(calls := c.calls + 1)
    case Erred => c.(calls := c.calls + 1, failures := c.failures + 1)
    case Repaired => c.(calls := c.calls + 1, repairs := c.repairs + 1)
    case Skipped => c
  }

  /** How many of the decisions gave such a verdict. */
  function HowMany(ds: seq<Decision>, of: Verdict -> bool): nat {
    if ds == [] then 0 else HowMany(ds[..|ds| - 1], of) + if of(ds[|ds| - 1].verdict) then 1 else 0
  }

  /** The counts of a run: dispatched calls, those of an unknown tool or that failed, those whose arguments
      did not parse. */
  lemma {:induction false} TallyMeans(ds: seq<Decision>)
    ensures Tally(ds)
         == Counts(HowMany(ds, (v: Verdict) => !v.Interjected? && !v.PastEnd?),
                   HowMany(ds, (v: Verdict) => v.Unknown? || v.Refused?), HowMany(ds, (v: Verdict) => v.BadArgs?))
  {
    if ds != [] {
      TallyMeans(ds[..|ds| - 1]);
    }
  }

  /** A tool execution. */
  datatype Execution = Execution(terminal: bool, ok: bool)

  function RunsOf(ds: seq<Decision>): seq<Execution> {
    if ds == [] then []
    else
      var v := ds[|ds| - 1].verdict;
      RunsOf(ds[..|ds| - 1]) + if Executed(v) then [Execution(v.tool.terminal, v.Ran?)] else []
  }

  lemma DecisionsSnoc(ds: seq<Decision>, d: Decision)
    ensures WordOf(ds + [d])
         == WordOf(ds) + [Events.ToolCallEvent(d.id, Dispatched(d.verdict)),
                          Events.ToolAnswerEvent(d.id, AnswerKind(d.verdict))]
    ensures Tally(ds + [d]) == Counted(Tally(ds), d.verdict)
    ensures RunsOf(ds + [d])
         == RunsOf(ds) + if Executed(d.verdict) then [Execution(d.verdict.tool.terminal, d.verdict.Ran?)] else []
  {
    assert (ds + [d])[..|ds|] == ds;
  }

  lemma DecidedSnoc(calls: seq<ToolCall>, vs: seq<Verdict>, v: Verdict)
    requires |vs| < |calls|
    ensures Decided(calls, vs + [v]) == Decided(calls, vs) + [Decision(calls[|vs|].id, v)]
  {
  }

  ghost predicate NoTerminal(runs: seq<Execution>) {
    forall e :: e in runs ==> !(e.terminal && e.ok)
  }

  /** The last execution, and only it, is the success of a terminal tool. */
  ghost predicate EndedBy(runs: seq<Execution>) {
    runs != [] && runs[|runs| - 1].terminal && runs[|runs| - 1].ok && NoTerminal(runs[..|runs| - 1])
  }

  // ----- The call after the turn limit -----

  /** The turns a run may take are used up, and none of them ended it. */
  ghost predicate AtLimit(cfg: Config, log: seq<Record>) {
    !cfg.interactive && |log| >= TurnLimit(cfg) && Ongoing(cfg, log)
  }

  /** One more call is made when it is asked for, affordable and there is a terminal tool to offer. */
  ghost predicate GraceDue(cfg: Config, world: World, log: seq<Record>) {
    && cfg.graceTurn && AtLimit(cfg, log)
    && !CapReached(cfg, Cost(world, log)) && Offered(world.registry) != []
  }

  function ToolNames(tools: seq<ToolInfo>): (names: seq<string>)
    ensures |names| == |tools|
  {
    seq(|tools|, i requires 0 <= i < |tools| => tools[i].name)
  }

  /** The conversation a grace call sends. */
  function GraceText(world: World, ms: seq<Message>): seq<Message> {
    ms + [UserText(world.graceText(ToolNames(Offered(world.registry))))]
  }

  predicate IsCandidate(world: World, tc: ToolCall) {
    && Lookup(world.registry, tc.name).Some? && Lookup(world.registry, tc.name).value.terminal
    && world.parses(tc.arguments)
  }

  /** The calls of a grace reply that are tried: those of a terminal tool whose arguments parse. */
  function Candidates(world: World, calls: seq<ToolCall>): (tried: seq<ToolCall>)
    ensures forall tc :: tc in tried ==> tc in calls && IsCandidate(world, tc)
  {
    if calls == [] then []
    else (if IsCandidate(world, calls[0]) then [calls[0]] else []) + Candidates(world, calls[1..])
  }

  /** What comes of executing a tool for the `k`-th time. */
  function Verdicted(world: World, tool: ToolInfo, k: nat): Verdict {
    match world.execute(k)
    case Output(text, images) => Ran(tool, text, images)
    case ToolError(message) => Refused(tool, message)
  }

  /** The candidates run in order up to the first success. */
  function Tries(world: World, calls: seq<ToolCall>, from: nat): seq<Decision>
    requires forall tc :: tc in calls ==> IsCandidate(world, tc)
  {
    if calls == [] then []
    else
      assert IsCandidate(world, calls[0]);
      var v := Verdicted(world, Lookup(world.registry, calls[0].name).value, from);
      [Decision(calls[0].id, v)] + if v.Ran? then [] else Tries(world, calls[1..], from + 1)
  }

  /** The arguments of the candidate that succeeded. */
  function TriedArgs(world: World, calls: seq<ToolCall>, from: nat): Option<string>
    requires forall tc :: tc in calls ==> IsCandidate(world, tc)
  {
    if calls == [] then None
    else if world.execute(from).Output? then Some(Text.NormalizeArgs(calls[0].arguments))
    else TriedArgs(world, calls[1..], from + 1)
  }

  /** A call of the grace reply is tried exactly when the last registration of its name is terminal and its
      arguments parse. */
  lemma {:induction false} CandidatesMean(world: World, calls: seq<ToolCall>)
    ensures forall tc :: tc in Candidates(world, calls) <==>
              && tc in calls && world.parses(tc.arguments)
              && exists tool: ToolInfo :: tool.terminal && Lookup(world.registry, tc.name) == Some(tool)
  {
    if calls != [] {
      CandidatesMean(world, calls[1..]);
      assert calls == [calls[0]] + calls[1..];
    }
  }

  /** The decision is that of this call, which succeeded exactly when its tool, run for the `k`-th time,
      gave an output. */
  ghost predicate TriedAs(world: World, tc: ToolCall, k: nat, d: Decision) {
    && d.id == tc.id
    && (d.verdict.Ran? <==> world.execute(k).Output?)
    && (d.verdict.Refused? <==> world.execute(k).ToolError?)
  }

  /** The first calls were tried one after the other, and only the last of them may have succeeded. */
  ghost predicate TriedInOrder(world: World, calls: seq<ToolCall>, from: nat, ds: seq<Decision>) {
    && |ds| <= |calls|
    && (forall k :: 0 <= k < |ds| ==> TriedAs(world, calls[k], from + k, ds[k]))
    && (forall k :: 0 <= k < |ds| - 1 ==> ds[k].verdict.Refused?)
  }

  lemma TriedFirst(world: World, calls: seq<ToolCall>, from: nat, ds: seq<Decision>)
    requires calls != [] && ds != [] && TriedAs(world, calls[0], from, ds[0])
    requires |ds| > 1 ==> ds[0].verdict.Refused?
    requires TriedInOrder(world, calls[1..], from + 1, ds[1..])
    ensures TriedInOrder(world, calls, from, ds)
  {
    forall k | 0 <= k < |ds| ensures TriedAs(world, calls[k], from + k, ds[k]) {
      if k > 0 {
        assert TriedAs(world, calls[1..][k - 1], from + 1 + (k - 1), ds[1..][k - 1]);
      }
    }
    forall k | 0 <= k < |ds| - 1 ensures ds[k].verdict.Refused? {
      assert k > 0 ==> ds[k] == ds[1..][k - 1];
    }
  }

  /** The candidates are executed one after the other until one succeeds; its arguments complete the run. */
  lemma {:induction false} TriesMean(world: World, calls: seq<ToolCall>, from: nat)
    requires forall tc :: tc in calls ==> IsCandidate(world, tc)
    ensures var ds := Tries(world, calls, from);
            var done := ds != [] && ds[|ds| - 1].verdict.Ran?;
            && TriedInOrder(world, calls, from, ds) && (|ds| < |calls| ==> done)
            && TriedArgs(world, calls, from)
               == if done then Some(Text.NormalizeArgs(calls[|ds| - 1].arguments)) else None
  {
    hide TriedInOrder, Text.NormalizeArgs, Lookup;
    if calls == [] {
      NothingTried(world, calls, from);
    } else {
      var ds, rest := Tries(world, calls, from), Tries(world, calls[1..], from + 1);
      assert IsCandidate(world, calls[0]);
      if world.execute(from).ToolError? {
        TriesMean(world, calls[1..], from + 1);
        assert ds[1..] == rest;
      } else {
        NothingTried(world, calls[1..], from + 1);
        assert ds[1..] == [];
      }
      TriedFirst(world, calls, from, ds);
    }
  }

  lemma NothingTried(world: World, calls: seq<ToolCall>, from: nat)
    ensures TriedInOrder(world, calls, from, [])
  {
  }

  /** What the call after the turn limit adds to a run. */
  datatype Extra = Extra(
    streams: nat, usages: seq<Usage>, posts: seq<Post>, decisions: seq<Decision>, args: Option<string>)

  function OutcomeUsages(outcome: ModelOutcome): seq<Usage> {
    if outcome.Reply? then [outcome.resp.usage] else []
  }

  /** Where the model's script stands after one model call from `from` on. */
  ghost function Called(cfg: Config, world: World, live: seq<Message>, from: nat): (to: nat)
    ensures from < to <= from + 2
  {
    from + Calls(cfg, world.model(from), live)
  }

  /** The grace call: sent once, and once more when it was rejected; then the reply's candidates. */
  ghost function GraceCalled(cfg: Config, world: World, live: seq<Message>, from: Cursor): Extra {
    var first := Called(cfg, world, live, from.streams);
    var again := world.model(first - 1).Rejected?;
    var last := if again then Called(cfg, world, live, first) else first;
    var outcome := world.model(last - 1);
    var tried := if outcome.Reply? then Candidates(world, outcome.resp.calls) else [];
    Extra(last, OutcomeUsages(outcome),
          ModelPosts(cfg, Grace, live, world.model(from.streams))
          + if again then ModelPosts(cfg, Grace, live, world.model(first)) else [],
          Tries(world, tried, from.executions), TriedArgs(world, tried, from.executions))
  }

  ghost function Graced(cfg: Config, world: World, log: seq<Record>): Extra {
    if GraceDue(cfg, world, log) then
      GraceCalled(cfg, world, GraceText(world, Conversation(cfg, world, log)), End(log))
    else Extra(End(log).streams, [], [], [], None)
  }

  // ----- Why a run stops -----

  /** The reason a turn that ends the run gives. */
  function EndReason(world: World, from: Cursor, r: Record): Reason {
    if r.shape.CutOff? then ContextLimit
    else if Unanswered(from, r) then (if world.wait(r.to.waits - 1).InboxClosed? then Done else Canceled)
    else
      match r.shape
      case Spoke(_, _) => Done
      case Batch(_, verdicts, _) => if Ended(verdicts) then Done else Incapable
      case _ => Error
  }

  /** The reason for which a run stops after these turns, and none while it goes on. */
  ghost function StopReason(cfg: Config, world: World, log: seq<Record>): Reason {
    if log != [] && Ends(cfg, log[..|log| - 1], log[|log| - 1]) then
      EndReason(world, End(log[..|log| - 1]), log[|log| - 1])
    else if !cfg.interactive && |log| >= TurnLimit(cfg) then
      if Graced(cfg, world, log).args.Some? then Done else MaxTurns
    else if CapReached(cfg, Cost(world, log)) then MaxCost
    else Unset
  }

  /** The error that comes with a reason. */
  function StopError(log: seq<Record>, reason: Reason): Option<RunError> {
    if reason.Canceled? then Some(WaitFailed)
    else if reason.Error? then Some(if log != [] && log[|log| - 1].shape.EmptyReply? then EmptyResponse else Transport)
    else None
  }
}
