/** The agent loop: model call, tool dispatch, repeat. */
module AgentLoop {
  import opened Wrappers
  import opened Messages
  import opened Tokens
  import opened Replay
  import opened Compaction
  import opened Session
  import opened TurnLog
  import opened RunSpec
  import opened Incapable
  import Events
  import Text
  import Transcript

  datatype Result = Result(
    completed: bool, reason: Reason, turns: nat, totals: Totals,
    toolCallCount: nat, toolCallFailures: nat, repairCount: nat,
    modelUsed: string, incapableDetail: string, output: string, completionArgs: Option<string>)

  datatype Flow = Continue | Stop(err: Option<RunError>)

  /** The state a request is sent in: the conversation, everything ever added to it, what stands for
      the part that was cut, the cost so far, and the human messages delivered and obtained. */
  datatype Moment = Moment(
    conversation: seq<Message>, full: seq<Message>, cut: nat, summary: seq<Message>, cost: int,
    delivered: seq<UserMessage>, obtained: seq<UserMessage>)

  /** A request handed to the client, with the messages it was made from and the pin it was given. */
  datatype Sent = Sent(kind: Kind, request: Request, live: seq<Message>, pin: string, retry: bool, at: Moment)

  datatype CompactOutcome = CompactError | Made(messages: seq<Message>, at: nat, resp: Response)

  datatype BatchResult = BatchResult(
    verdicts: seq<Verdict>, pending: seq<UserMessage>, images: seq<string>,
    capable: bool, failedArgs: seq<string>, readOnly: bool,
    terminated: bool, completionArgs: Option<string>)

  datatype Awaited = Resumed | Closing | Cancelling

  /** A turn sends the conversation of the moment, a grace call adds one user message to it, and a
      summarize call sends the part of it that a cut would drop, without reasoning. */
  ghost predicate MadeFrom(cfg: Config, s: Sent) {
    match s.kind
    case Turn => s.live == s.at.conversation
    case Grace => exists text :: s.live == s.at.conversation + [Message(User, text, [], [], "", NoDetails, "")]
    case Summarize =>
      && s.live == s.at.conversation && cfg.compaction.Some?
      && exists b: nat ::
           SplitsAt(s.live, cfg.compaction.value.keepRecent, b) && AsksSummary(s.request.messages, s.live, b)
  }

  /** The request asks for a summary of what a cut at `b` drops, with all it says but its reasoning. */
  ghost predicate AsksSummary(sent: seq<Message>, ms: seq<Message>, b: nat) {
    var sys := if ms != [] && ms[0].role == System then 1 else 0;
    && sys <= b <= |ms| && sent != []
    && sent[0] == Message(System, COMPACTION_PROMPT, [], [], "", NoDetails, "")
    && SameButDetails(sent[1..], ms[sys..b]) && Silent(sent)
  }

  /** A turn or grace request says what the conversation it was made from says, message by message: as it
      is without a pin, with only the pin's reasoning under one, and without any when it is the retry. */
  ghost predicate SaysAll(s: Sent) {
    && SameButDetails(s.request.messages, s.live)
    && if s.retry then Silent(s.request.messages)
       else if s.pin == "" then s.request.messages == s.live
       else OnlyPinSpeaks(s.request.messages, s.live, s.pin)
  }

  /** What every request satisfies; `sound` says that the run started from a closed history. */
  ghost predicate RequestFits(cfg: Config, sound: bool, s: Sent) {
    && (sound ==> Settled(s.request.messages))
    && (!cfg.replayReasoning || s.kind == Summarize || s.retry ==> Silent(s.request.messages))
    && s.at.delivered == s.at.obtained
    && Window(cfg, s.at.full, s.at.cut, s.at.summary, s.at.conversation)
    && MadeFrom(cfg, s)
    && match s.kind
       case Summarize =>
         s.pin == "" && !s.retry && s.request.routing == cfg.routing
       case _ =>
         && !CapReached(cfg, s.at.cost) && SaysAll(s)
         && if s.retry then s.request == Unpinned(Request(s.live, cfg.routing)) && s.pin == ""
            else (s.request, s.pin) == Pinned(Request(s.live, cfg.routing))
  }

  /** A moment at which a turn or grace request made from `live` may be sent. */
  ghost predicate MaySend(cfg: Config, sound: bool, kind: Kind, live: seq<Message>, at: Moment) {
    && kind != Summarize && !CapReached(cfg, at.cost)
    && (sound ==> Settled(live))
    && (!cfg.replayReasoning ==> Silent(live))
    && at.delivered == at.obtained
    && Window(cfg, at.full, at.cut, at.summary, at.conversation)
    && if kind == Turn then live == at.conversation
       else exists text :: live == at.conversation + [Message(User, text, [], [], "", NoDetails, "")]
  }

  /** What one model call of a run sends: the pinned request and, when a 400 answered a request that
      carried a pin or reasoning, the same conversation without either. */
  ghost function Sends(cfg: Config, kind: Kind, live: seq<Message>, at: Moment, first: ModelOutcome): seq<Sent> {
    var req := Request(live, cfg.routing);
    var (sent, pin) := Pinned(req);
    [Sent(kind, sent, live, pin, false, at)]
    + if Calls(cfg, first, live) == 2
      then [Sent(kind, Unpinned(req), live, "", true, at)] else []
  }

  function PostOf(s: Sent): Post {
    Post(s.kind, s.request, s.pin, s.retry)
  }

  /** The requests as the client got them. */
  function Posts(requests: seq<Sent>): (posts: seq<Post>)
    ensures |posts| == |requests|
  {
    seq(|requests|, i requires 0 <= i < |requests| => PostOf(requests[i]))
  }

  lemma SendsPosted(cfg: Config, requests: seq<Sent>, kind: Kind, live: seq<Message>, at: Moment, first: ModelOutcome)
    ensures Posts(requests + Sends(cfg, kind, live, at, first)) == Posts(requests) + ModelPosts(cfg, kind, live, first)
  {
  }

  lemma SendsSayAll(cfg: Config, kind: Kind, live: seq<Message>, at: Moment, first: ModelOutcome)
    ensures forall s :: s in Sends(cfg, kind, live, at, first) ==> SaysAll(s)
  {
    hide Pinned, Unpinned, OnlyPinSpeaks, SameButDetails, Silent, Calls;
    var req := Request(live, cfg.routing);
    PinningKeeps(req);
    PinnedSays(req);
    UnpinnedKeeps(req);
  }

  lemma PinnedSays(req: Request)
    ensures var (sent, pin) := Pinned(req); SameButDetails(sent.messages, req.messages)
  {
    hide PinOf;
    PinningKeeps(req);
  }

  lemma PinnedFits(cfg: Config, sound: bool, kind: Kind, live: seq<Message>, at: Moment)
    requires MaySend(cfg, sound, kind, live, at)
    ensures var (sent, pin) := Pinned(Request(live, cfg.routing));
            RequestFits(cfg, sound, Sent(kind, sent, live, pin, false, at))
  {
    hide PinOf, PinnedRouting, Pinnable, OwedAt, Window;
    var req := Request(live, cfg.routing);
    var sent := Pinned(req).0.messages;
    PinningKeeps(req);
    ShapeKeepsClosed(sent, live);
    assert Silent(live) ==> Silent(sent);
  }

  lemma RetryFits(cfg: Config, sound: bool, kind: Kind, live: seq<Message>, at: Moment)
    requires MaySend(cfg, sound, kind, live, at)
    ensures RequestFits(cfg, sound, Sent(kind, Unpinned(Request(live, cfg.routing)), live, "", true, at))
  {
    hide OwedAt, Window;
    UnpinnedKeeps(Request(live, cfg.routing));
    ShapeKeepsClosed(Bare(live), live);
  }

  lemma SendsFit(cfg: Config, sound: bool, kind: Kind, live: seq<Message>, at: Moment, first: ModelOutcome)
    requires MaySend(cfg, sound, kind, live, at)
    ensures forall s :: s in Sends(cfg, kind, live, at, first) ==> RequestFits(cfg, sound, s)
  {
    hide RequestFits, Pinned, MaySend;
    PinnedFits(cfg, sound, kind, live, at);
    RetryFits(cfg, sound, kind, live, at);
  }

  function Label(um: UserMessage): (string, nat) {
    (um.id, |um.content|)
  }

  function Labels(ums: seq<UserMessage>): (ls: seq<(string, nat)>)
    ensures |ls| == |ums|
  {
    seq(|ums|, i requires 0 <= i < |ums| => Label(ums[i]))
  }

  /** The live conversation `ms` is the system prompt, at most one summary, and a verbatim suffix of
      `full`, everything ever added; without replay it carries no reasoning details of any form. */
  ghost predicate Window(cfg: Config, full: seq<Message>, cut: nat, summary: seq<Message>, ms: seq<Message>) {
    && full != []
    && SysCount(full) <= cut <= |full|
    && |summary| <= 1
    && (forall m :: m in summary ==> m.role == User)
    && (summary == [] ==> cut == SysCount(full))
    && ms == full[..SysCount(full)] + summary + full[cut..]
    && (!cfg.replayReasoning ==> Silent(ms))
  }

  lemma WindowGrows(cfg: Config, full: seq<Message>, cut: nat, summary: seq<Message>, ms: seq<Message>, m: Message)
    requires Window(cfg, full, cut, summary, ms) && (!cfg.replayReasoning ==> m.details.NoDetails?)
    ensures Window(cfg, full + [m], cut, summary, ms + [m])
  {
    assert (full + [m])[..SysCount(full)] == full[..SysCount(full)];
    assert (full + [m])[cut..] == full[cut..] + [m];
  }

  /** Compaction moves the start of the verbatim suffix forward and replaces the summary. */
  lemma WindowMoves(cfg: Config, full: seq<Message>, cut: nat, summary: seq<Message>, ms: seq<Message>, b: nat,
                    text: string)
    requires Window(cfg, full, cut, summary, ms)
    requires SysCount(ms) + 1 <= b <= |ms|
    ensures var cut' := cut + (b - SysCount(ms) - |summary|);
            && |full| - cut' == |ms| - b
            && (|Compacted(ms, b, text)| < |ms| ==> cut' > cut)
            && Window(cfg, full, cut', [Summary(text)], Compacted(ms, b, text))
  {
    var sys := SysCount(full);
    assert SysCount(ms) == sys by {
      if sys == 0 && summary == [] {
        assert ms == full;
      }
    }
    assert ms[..sys] == full[..sys];
    assert ms[b..] == full[cut + (b - sys - |summary|)..];
    CompactedShape(ms, b, text);
  }

  /** The event stream agrees with the result, with what was delivered and with what was decided: every
      tool call on it is answered, its counts are the result's counters, its usage events add up to the
      totals, its user_input events are the delivered messages, and its tool events and the counters are
      those of the decisions. */
  ghost predicate BooksFit(v: Events.View, res: Result, delivered: seq<UserMessage>, judged: seq<Decision>) {
    && v.paired && v.open.None?
    && v.dispatched == res.toolCallCount
    && v.erred == res.toolCallFailures
    && v.repaired == res.repairCount
    && v.spent == res.totals
    && v.heard == Labels(delivered)
    && v.word == WordOf(judged)
    && CountsOf(res) == Tally(judged)
  }

  function CountsOf(res: Result): Counts {
    Counts(res.toolCallCount, res.toolCallFailures, res.repairCount)
  }

  lemma HeardFits(v: Events.View, res: Result, delivered: seq<UserMessage>, judged: seq<Decision>, um: UserMessage)
    requires BooksFit(v, res, delivered, judged)
    ensures BooksFit(Events.Step(v, Events.UserInput(um.id, |um.content|)), res, delivered + [um], judged)
  {
    assert Labels(delivered + [um]) == Labels(delivered) + [Label(um)];
  }

  lemma CountersDecide(v: Events.View, before: Result, after: Result, delivered: seq<UserMessage>,
                       judged: seq<Decision>)
    requires BooksFit(v, before, delivered, judged)
    requires after == before.(completed := after.completed, reason := after.reason, modelUsed := after.modelUsed,
                              incapableDetail := after.incapableDetail, output := after.output,
                              completionArgs := after.completionArgs, turns := after.turns)
    ensures BooksFit(v, after, delivered, judged)
  {
  }

  function Paying(res: Result, usage: Usage): Result {
    res.(totals := Plus(res.totals, Charge(usage)))
  }

  lemma PaymentFits(v: Events.View, res: Result, delivered: seq<UserMessage>, judged: seq<Decision>, usage: Usage)
    requires BooksFit(v, res, delivered, judged)
    ensures BooksFit(Events.Step(v, Events.UsageEvent(Charge(usage), usage.promptTokens)), Paying(res, usage),
                     delivered, judged)
  {
  }

  /** What one tool call adds to the counters. */
  function Counting(res: Result, answer: Events.Answer): Result {
    match answer
    case Succeeded => res.(toolCallCount := res.toolCallCount + 1)
    case Erred => res.(toolCallCount := res.toolCallCount + 1, toolCallFailures := res.toolCallFailures + 1)
    case Repaired => res.(toolCallCount := res.toolCallCount + 1, repairCount := res.repairCount + 1)
    case Skipped => res
  }

  /** What a batch adds to the counters. */
  function CountingAll(res: Result, vs: seq<Verdict>): Result {
    if vs == [] then res else Counting(CountingAll(res, vs[..|vs| - 1]), AnswerKind(vs[|vs| - 1]))
  }

  lemma CountingSnoc(res: Result, vs: seq<Verdict>, v: Verdict)
    ensures CountingAll(res, vs + [v]) == Counting(CountingAll(res, vs), AnswerKind(v))
  {
    assert (vs + [v])[..|vs|] == vs;
  }

  lemma {:induction false} CountingKeeps(res: Result, vs: seq<Verdict>)
    ensures var r := CountingAll(res, vs);
            r == res.(toolCallCount := r.toolCallCount, toolCallFailures := r.toolCallFailures,
                      repairCount := r.repairCount)
  {
    if vs != [] {
      CountingKeeps(res, vs[..|vs| - 1]);
    }
  }

  function Reported(v: Events.View, id: string, answer: Events.Answer): Events.View {
    Events.Step(Events.Step(v, Events.ToolCallEvent(id, answer != Events.Skipped)), Events.ToolAnswerEvent(id, answer))
  }

  lemma AnswerFits(v: Events.View, res: Result, delivered: seq<UserMessage>, judged: seq<Decision>, id: string,
                   verdict: Verdict)
    requires BooksFit(v, res, delivered, judged)
    ensures BooksFit(Reported(v, id, AnswerKind(verdict)), Counting(res, AnswerKind(verdict)), delivered,
                     judged + [Decision(id, verdict)])
  {
    DecisionsSnoc(judged, Decision(id, verdict));
  }

  lemma EitherEnded(runs: seq<Execution>)
    ensures !(NoTerminal(runs) && EndedBy(runs))
  {
  }

  lemma RunsSnoc(runs: seq<Execution>, e: Execution)
    requires NoTerminal(runs)
    ensures if e.terminal && e.ok then EndedBy(runs + [e]) else NoTerminal(runs + [e])
  {
    assert (runs + [e])[..|runs|] == runs;
  }

  lemma RunsDecided(judged: seq<Decision>, d: Decision)
    requires NoTerminal(RunsOf(judged))
    ensures if Terminates(d.verdict) then EndedBy(RunsOf(judged + [d])) else NoTerminal(RunsOf(judged + [d]))
  {
    hide NoTerminal, EndedBy, RunsOf, WordOf, Tally;
    DecisionsSnoc(judged, d);
    if Executed(d.verdict) {
      RunsSnoc(RunsOf(judged), Execution(d.verdict.tool.terminal, d.verdict.Ran?));
    } else {
      assert RunsOf(judged) + [] == RunsOf(judged);
    }
  }

  /** The last turn of the log ended with the success of a terminal tool. */
  ghost predicate EndedLast(log: seq<Record>) {
    log != [] && log[|log| - 1].shape.Batch? && Ended(log[|log| - 1].shape.verdicts)
  }

  /** The completion arguments are the normalized arguments of the terminal call that succeeded. */
  ghost predicate TerminalArgs(calls: seq<ToolCall>, vs: seq<Verdict>, args: Option<string>) {
    && |vs| <= |calls|
    && exists i :: 0 <= i < |vs| && Terminates(vs[i]) && args == Some(Text.NormalizeArgs(calls[i].arguments))
  }

  lemma TerminalArgsSnoc(calls: seq<ToolCall>, vs: seq<Verdict>, v: Verdict, args: Option<string>)
    requires |vs| < |calls|
    ensures TerminalArgs(calls, vs, args) ==> TerminalArgs(calls, vs + [v], args)
    ensures Terminates(v) && args == Some(Text.NormalizeArgs(calls[|vs|].arguments)) ==>
              TerminalArgs(calls, vs + [v], args)
  {
    var next := vs + [v];
    assert forall i :: 0 <= i < |vs| ==> next[i] == vs[i];
    assert next[|vs|] == v;
  }

  /** Which exits are possible: the turns of the log give the reason and the error, every turn but the
      last one left the run going, and the completion arguments are those of the one terminal call that
      succeeded, in the last batch or in the grace call. */
  ghost predicate ContractFits(
    cfg: Config, world: World, log: seq<Record>, res: Result, judged: seq<Decision>, err: Option<RunError>) {
    && res.reason == StopReason(cfg, world, log) && !res.reason.Unset?
    && err == StopError(log, res.reason)
    && (log != [] ==> Ongoing(cfg, log[..|log| - 1]))
    && (res.completed <==> res.reason.Done?)
    && (res.completionArgs.Some? <==> EndedBy(RunsOf(judged)))
    && (res.completionArgs.None? <==> NoTerminal(RunsOf(judged)))
    && (if EndedLast(log)
        then TerminalArgs(log[|log| - 1].shape.resp.calls, log[|log| - 1].shape.verdicts, res.completionArgs)
        else res.completionArgs == Graced(cfg, world, log).args)
    && (if res.reason.Incapable?
        then log != [] && log[|log| - 1].shape.Batch?
             && DetailFits(Streak(log[..|log| - 1], IncapableLimit(cfg)) + [RawArgs(log[|log| - 1].shape.verdicts)],
                           world.concatenated, res.incapableDetail)
        else res.incapableDetail == "")
  }

  lemma OngoingNotEnded(cfg: Config, log: seq<Record>)
    requires Ongoing(cfg, log)
    ensures !EndedLast(log)
    ensures log != [] ==> Ongoing(cfg, log[..|log| - 1]) && !Ends(cfg, log[..|log| - 1], log[|log| - 1])
  {
  }

  /** A stop at the top of the loop, or after it. */
  lemma PlainContract(cfg: Config, world: World, log: seq<Record>, res: Result, judged: seq<Decision>)
    requires Ongoing(cfg, log) && !res.completed
    requires res.completionArgs.None? && NoTerminal(RunsOf(judged)) && res.incapableDetail == ""
    requires if AtLimit(cfg, log) then res.reason.MaxTurns? && Graced(cfg, world, log).args.None?
             else res.reason.MaxCost? && CapReached(cfg, Cost(world, log))
    ensures ContractFits(cfg, world, log, res, judged, None)
  {
    hide NoTerminal, EndedBy, Ongoing, DetailFits, TerminalArgs, CapReached, TurnLimit, Ends, GraceCalled, RunsOf,
         Cost, Offered;
    EitherEnded(RunsOf(judged));
    OngoingNotEnded(cfg, log);
  }

  /** A stop after a turn that ended the run. */
  lemma EndContract(cfg: Config, world: World, past: seq<Record>, last: Record, res: Result, judged: seq<Decision>,
                    err: Option<RunError>)
    requires Ongoing(cfg, past) && Ends(cfg, past, last)
    requires res.reason == EndReason(world, End(past), last) && err == StopError([last], res.reason)
    requires res.completed <==> res.reason.Done?
    requires if last.shape.Batch? && Ended(last.shape.verdicts)
             then EndedBy(RunsOf(judged))
                  && TerminalArgs(last.shape.resp.calls, last.shape.verdicts, res.completionArgs)
             else NoTerminal(RunsOf(judged)) && res.completionArgs.None?
    requires if res.reason.Incapable?
             then last.shape.Batch?
                  && DetailFits(Streak(past, IncapableLimit(cfg)) + [RawArgs(last.shape.verdicts)],
                                world.concatenated, res.incapableDetail)
             else res.incapableDetail == ""
    ensures ContractFits(cfg, world, past + [last], res, judged, err)
  {
    hide NoTerminal, EndedBy, DetailFits, Ends, RunsOf, Streak, RawArgs, Ended, IncapableLimit, Unanswered, TurnLimit,
         CapReached, Cost, GraceCalled;
    var log := past + [last];
    assert log[..|past|] == past;
    EitherEnded(RunsOf(judged));
    NotGraced(cfg, world, past, last);
  }

  /** No grace call follows a turn that ended the run. */
  lemma NotGraced(cfg: Config, world: World, past: seq<Record>, last: Record)
    requires Ends(cfg, past, last)
    ensures !AtLimit(cfg, past + [last])
    ensures Graced(cfg, world, past + [last]) == Extra(last.to.streams, [], [], [], None)
  {
    hide Ends, GraceCalled, TurnLimit, CapReached, Cost, Offered;
    OngoingSnoc(cfg, past, last);
    assert !GraceDue(cfg, world, past + [last]);
  }

  lemma NoGrace(cfg: Config, world: World, log: seq<Record>)
    requires !GraceDue(cfg, world, log)
    ensures Graced(cfg, world, log) == Extra(End(log).streams, [], [], [], None)
  {
  }

  lemma GraceContract(cfg: Config, world: World, log: seq<Record>, res: Result, judged: seq<Decision>)
    requires AtLimit(cfg, log) && EndedBy(RunsOf(judged))
    requires res.completed && res.reason.Done? && res.incapableDetail == ""
    requires res.completionArgs.Some? && res.completionArgs == Graced(cfg, world, log).args
    ensures ContractFits(cfg, world, log, res, judged, None)
  {
    hide NoTerminal, EndedBy, Ongoing, DetailFits, TerminalArgs, CapReached, TurnLimit, Ends, GraceCalled, RunsOf,
         Cost, Offered;
    EitherEnded(RunsOf(judged));
    OngoingNotEnded(cfg, log);
  }

  // ----- The conversation during a turn -----

  /** What was ever written and what is kept of it: the log, the opening and the nudge of the turn,
      shortened if the turn compacted, and then `said`. */
  ghost predicate Holds(cfg: Config, world: World, log: seq<Record>, t: Stage, summaries: nat,
                        full: seq<Message>, msgs: seq<Message>, said: seq<Message>) {
    && full == Written(cfg, world, log) + Before(cfg, world, t.opening, t.nudge) + said
    && msgs == Kept(cfg, world, log, t) + said
    && AttemptPlays(cfg, world, log, t, summaries)
  }

  lemma HoldsMeans(cfg: Config, world: World, log: seq<Record>, t: Stage, summaries: nat,
                   full: seq<Message>, msgs: seq<Message>, said: seq<Message>)
    requires Holds(cfg, world, log, t, summaries, full, msgs, said)
    ensures full == Written(cfg, world, log) + Before(cfg, world, t.opening, t.nudge) + said
    ensures msgs == Kept(cfg, world, log, t) + said
    ensures AttemptPlays(cfg, world, log, t, summaries)
  {
  }

  lemma HoldsMore(cfg: Config, world: World, log: seq<Record>, t: Stage, summaries: nat,
                  full: seq<Message>, msgs: seq<Message>, said: seq<Message>, more: seq<Message>, total: seq<Message>)
    requires Holds(cfg, world, log, t, summaries, full, msgs, said) && total == said + more
    ensures Holds(cfg, world, log, t, summaries, full + more, msgs + more, total)
  {
    hide Written, Before, Kept, AttemptPlays;
  }

  lemma OpensHolds(cfg: Config, world: World, log: seq<Record>, t: Stage, full: seq<Message>, msgs: seq<Message>)
    requires full == Written(cfg, world, log) + UserTexts(t.opening) + NudgeMessages(cfg, world, t.nudge)
    requires msgs == Conversation(cfg, world, log) + UserTexts(t.opening) + NudgeMessages(cfg, world, t.nudge)
    requires t.attempt.NotTried?
    ensures Holds(cfg, world, log, t, End(log).summaries, full, msgs, [])
    ensures msgs == Asked(cfg, world, log, t)
  {
    hide Written, Conversation, UserTexts, NudgeMessages, End;
  }

  lemma CompactsHolds(cfg: Config, world: World, log: seq<Record>, t: Stage, summaries: nat, full: seq<Message>,
                      msgs: seq<Message>, attempt: Attempt, msgs': seq<Message>, summaries': nat)
    requires Holds(cfg, world, log, t, summaries, full, msgs, []) && t.attempt.NotTried?
    requires if attempt.NotTried? then msgs' == msgs && summaries' == summaries
             else (attempt, msgs') == Attempted(world, msgs, KeepRecent(cfg), summaries)
                  && summaries' == summaries + if PlanFor(msgs, KeepRecent(cfg)).Cut? then 1 else 0
    ensures Holds(cfg, world, log, t.(attempt := attempt), summaries', full, msgs', [])
    ensures Asked(cfg, world, log, t) == Asked(cfg, world, log, t.(attempt := attempt)) == msgs
  {
    hide Written, Conversation, Before, End, Attempted, PlanFor, KeepRecent;
    assert msgs + [] == msgs && msgs' + [] == msgs';
    assert msgs == Asked(cfg, world, log, t) == Asked(cfg, world, log, t.(attempt := attempt));
  }

  /** A summary adds its usage and its request to those of the model call. */
  lemma SummaryBilled(cfg: Config, world: World, log: seq<Record>, t: Stage, t': Stage, paid: seq<Usage>,
                      outcome: ModelOutcome, posts: seq<Post>, summaries: nat)
    requires Asked(cfg, world, log, t) == Asked(cfg, world, log, t')
    requires paid == Usages(world, log) + OutcomeUsages(outcome)
                     + SummaryUsages(world, End(log).summaries, End(log).summaries)
    requires posts == Posted(cfg, world, log) + TurnPosts(cfg, world, log, t, End(log).summaries)
    ensures paid + SummaryUsages(world, End(log).summaries, summaries)
         == Usages(world, log) + OutcomeUsages(outcome) + SummaryUsages(world, End(log).summaries, summaries)
    ensures posts + SummaryPosts(cfg, Asked(cfg, world, log, t), End(log).summaries, summaries)
         == Posted(cfg, world, log) + TurnPosts(cfg, world, log, t', summaries)
  {
    hide Usages, OutcomeUsages, Posted, Asked, ModelPosts;
  }

  /** The state of one run. The ghost fields are its history: nothing the run decides depends on them. */
  class Harness {
    const cfg: Config
    const world: World
    ghost const sound: bool  // the seeded history is closed

    var msgs: seq<Message>
    var res: Result
    var unproductive: nat
    var failedArgsWindow: seq<seq<string>>
    var nudged: bool
    var emptyRun: nat
    var batchNudged: bool
    var singleBatchTurns: nat
    var events: seq<Events.Event>

    // How far each script of the outside world has been read.
    var streams: nat
    var summaries: nat
    var executions: nat
    var drains: nat
    var waits: nat

    ghost var full: seq<Message>          // every message ever added, never shortened
    ghost var cut: nat                    // where the verbatim part of `msgs` starts in `full`
    ghost var summary: seq<Message>       // the summary standing for what was cut, if any
    ghost var log: seq<Record>
    ghost var obtained: seq<UserMessage>  // every human message drained or waited for
    ghost var delivered: seq<UserMessage> // those added to the conversation
    ghost var requests: seq<Sent>
    ghost var replies: seq<Usage>         // usage of every successful call
    ghost var judged: seq<Decision>       // every tool call answered, and what became of it

    // ----- Invariants -----

    ghost predicate Chat()
      reads `msgs, `full, `cut, `summary
    {
      Window(cfg, full, cut, summary, msgs)
    }

    /** Starting from a closed history, the conversation owes exactly the answers to `ids`. */
    ghost predicate Owing(ids: seq<string>)
      reads `msgs
    {
      sound ==> Owed(msgs) == Owes(ids)
    }

    ghost predicate Books()
      reads `res, `events, `delivered, `judged
    {
      BooksFit(Events.ViewOf(events), res, delivered, judged)
    }

    /** The tool executions so far. */
    ghost function Runs(): seq<Execution>
      reads `judged
    {
      RunsOf(judged)
    }

    /** The totals are the sum over all successful calls. */
    ghost predicate Paid()
      reads `res, `replies
    {
      Spent(replies) == res.totals
    }

    ghost predicate RequestsFit()
      reads `requests
    {
      forall s :: s in requests ==> RequestFits(cfg, sound, s)
    }

    ghost predicate Live()
      reads `res, `judged
    {
      && res.reason.Unset? && !res.completed && res.completionArgs.None? && res.incapableDetail == ""
      && NoTerminal(Runs())
    }

    /** What the run remembers is what the log says; a compaction in the current turn has already
        restarted the count of empty replies. */
    ghost predicate Memory(attempt: Attempt)
      reads `unproductive, `failedArgsWindow, `emptyRun, `singleBatchTurns, `log
    {
      && unproductive == |failedArgsWindow| < IncapableLimit(cfg)
      && failedArgsWindow == Streak(log, IncapableLimit(cfg))
      && EmptyStreak(log) <= MAX_EMPTY_RESPONSE_RETRIES
      && emptyRun == (if attempt.Shrank? then 0 else EmptyStreak(log))
      && singleBatchTurns == SingleStreak(log)
    }

    ghost predicate NudgesKept(nudge: Nudge)
      reads `nudged, `batchNudged, `log
    {
      && WrapUps(log) + (if nudge.WrapUp? then 1 else 0) == (if nudged then 1 else 0)
      && BatchHints(log) + (if nudge.BatchHint? then 1 else 0) == (if batchNudged then 1 else 0)
    }

    ghost predicate LogKept()
      reads `log
    {
      LogFits(cfg, world, log)
    }

    /** Every usage paid for, every request and every tool call is one of the log's. */
    ghost predicate Ledger()
      reads `log, `replies, `requests, `judged
    {
      && replies == Usages(world, log)
      && Posts(requests) == Posted(cfg, world, log)
      && judged == Judged(log)
    }

    /** The same with what the grace call added. */
    ghost predicate LedgerWith(extra: Extra)
      reads `log, `replies, `requests, `judged, `streams, `summaries, `executions, `drains, `waits
    {
      && replies == Usages(world, log) + extra.usages
      && Posts(requests) == Posted(cfg, world, log) + extra.posts
      && judged == Judged(log) + extra.decisions
      && Here() == End(log).(streams := extra.streams, executions := End(log).executions + |extra.decisions|)
    }

    lemma NothingMore(extra: Extra)
      requires Ledger() && Here() == End(log) && extra == Extra(End(log).streams, [], [], [], None)
      ensures LedgerWith(extra)
    {
      hide Usages, Posted, Judged, End;
    }

    ghost predicate Always()
      reads this
    {
      && Chat() && Books() && Paid() && RequestsFit() && LogKept()
      && (cfg.interactive ==> cfg.inbox)
    }

    /** The state at the top of every turn. */
    ghost predicate LoopTop()
      reads this
    {
      && Always() && Owing([]) && Live() && Memory(NotTried) && NudgesKept(NoNudge)
      && full == Written(cfg, world, log) && msgs == Conversation(cfg, world, log)
      && delivered == obtained == Heard(log)
      && Ledger() && Ongoing(cfg, log)
      && res.turns == |log|
      && (!cfg.interactive ==> res.turns <= TurnLimit(cfg))
      && streams <= 2 * res.turns && summaries <= res.turns
      && Here() == End(log)
    }

    /** How far the scripts have been read. */
    ghost function Here(): Cursor
      reads `streams, `summaries, `executions, `drains, `waits
    {
      Cursor(streams, summaries, executions, drains, waits)
    }

    /** The tool calls decided since the log. */
    ghost predicate Decides(ds: seq<Decision>)
      reads `judged, `log
    {
      judged == Judged(log) + ds
    }

    /** Since its start the turn read its opening and `polls` more drains, and decided `ds` with `execs`
        executions. */
    ghost predicate Inputs(t: Stage, polls: nat, execs: nat, ds: seq<Decision>)
      reads `executions, `drains, `waits, `judged, `log
    {
      && Decides(ds)
      && t.opening == Waiting(cfg, world, End(log).drains)
      && drains == Opened(cfg, End(log)).drains + polls
      && executions == End(log).executions + execs
      && waits == End(log).waits
    }

    /** The model answered this to the conversation of the turn, which was all that was sent and paid for
        beside a summary. */
    ghost predicate ModelCalled(t: Stage, outcome: ModelOutcome)
      reads `streams, `summaries, `replies, `requests, `log
    {
      && replies
         == Usages(world, log) + OutcomeUsages(outcome) + SummaryUsages(world, End(log).summaries, summaries)
      && Posts(requests) == Posted(cfg, world, log) + TurnPosts(cfg, world, log, t, summaries)
      && streams == End(log).streams + Calls(cfg, world.model(End(log).streams), Asked(cfg, world, log, t))
      && world.model(streams - 1) == outcome
    }

    /** The model call of the turn failed. */
    ghost predicate Lost(t: Stage)
      reads `streams, `summaries, `replies, `requests, `log
    {
      && streams > 0 && !world.model(streams - 1).Reply?
      && ModelCalled(t, world.model(streams - 1))
    }

    /** What a turn leaves alone from its model call to its end. */
    ghost predicate Context(t: Stage, turns: nat, totals: Totals)
      reads `log, `nudged, `batchNudged, `requests, `replies, `streams, `summaries
    {
      && RequestsFit() && LogKept() && NudgesKept(t.nudge)
      && Spent(replies) == totals
      && (cfg.interactive ==> cfg.inbox)
      && t.nudge == NudgeDue(cfg, log)
      && (!cfg.inbox ==> t.opening == [])
      && Ongoing(cfg, log) && MayStart(cfg, world, log)
      && turns == |log| + 1
      && (!cfg.interactive ==> turns <= TurnLimit(cfg))
      && streams <= 2 * turns && summaries <= turns
    }

    /** What a turn has written and delivered: its opening and nudge, then `said` and `heard`. The
        conversation holds the same, after a compaction that went as `attempt` says. */
    ghost predicate Wrote(t: Stage, said: seq<Message>, heard: seq<UserMessage>)
      reads `log, `full, `msgs, `summaries, `delivered
    {
      && Holds(cfg, world, log, t, summaries, full, msgs, said)
      && delivered == Heard(log) + t.opening + heard
    }

    ghost predicate Talk()
      reads `msgs, `full, `cut, `summary, `res, `events, `delivered, `judged
    {
      Chat() && Owing([]) && Books()
    }

    /** The state of a turn once its opening messages were added, up to what its reply adds. */
    ghost predicate MidTurn(t: Stage)
      reads this
    {
      && Talk() && Live() && Context(t, res.turns, res.totals)
      && Wrote(t, [], []) && delivered == obtained
      && Memory(t.attempt)
      && (t.attempt.NotTried? ==> summaries < res.turns)
      && Inputs(t, 0, 0, [])
    }

    /** The batch result speaks about its verdicts. */
    ghost predicate BatchReported(resp: Response, b: BatchResult) {
      && |b.verdicts| == |resp.calls| && BatchFits(world, resp.calls, b.verdicts)
      && b.capable == Capable(b.verdicts) && b.readOnly == UsedLookup(b.verdicts)
      && b.failedArgs == RawArgs(b.verdicts) && b.images == Images(b.verdicts)
      && b.terminated == Ended(b.verdicts)
      && (b.terminated ==> b.pending == [] && TerminalArgs(resp.calls, b.verdicts, b.completionArgs))
      && (!cfg.inbox ==> b.pending == [])
    }

    /** The verdicts and the stash of the batch are what the scripts answered from `from` on. */
    ghost predicate BatchHeard(from: Cursor, resp: Response, b: BatchResult) {
      var polls := Polls(cfg, |resp.calls|, b.verdicts);
      && Played(world, from.executions, b.verdicts)
      && FoundNothing(world, from.drains, polls)
      && b.pending == Stash(world, from.drains, polls)
      && (b.pending != [] <==> Interrupted(b.verdicts))
    }

    /** The state of a turn whose batch was answered. */
    ghost predicate BatchAnswered(t: Stage, resp: Response, b: BatchResult)
      reads `msgs, `full, `cut, `summary, `res, `events, `delivered, `obtained, `log, `nudged, `batchNudged,
            `requests, `replies, `streams, `summaries, `executions, `drains, `waits, `emptyRun, `judged
    {
      && Talk() && Context(t, res.turns, res.totals)
      && res.reason.Unset? && !res.completed && res.completionArgs.None? && res.incapableDetail == ""
      && BatchReported(resp, b) && Reviewed(t, resp) && !IsEmptyResponse(resp) && resp.calls != []
      && Wrote(t, [AssistantMessage(cfg, resp)] + Answers(world, resp.calls, b.verdicts), [])
      && obtained == delivered + b.pending
      && Inputs(t, Polls(cfg, |resp.calls|, b.verdicts), Executions(b.verdicts), Decided(resp.calls, b.verdicts))
      && BatchHeard(Opened(cfg, End(log)), resp, b)
      && emptyRun == 0
    }

    /** What the run remembers once the turn is over. */
    ghost predicate MemoryNext(attempt: Attempt, shape: Shape)
      reads `unproductive, `failedArgsWindow, `emptyRun, `singleBatchTurns, `log
    {
      && unproductive == |failedArgsWindow| < IncapableLimit(cfg)
      && failedArgsWindow == NextStreak(Streak(log, IncapableLimit(cfg)), shape, IncapableLimit(cfg))
      && emptyRun == NextEmpty(EmptyStreak(log), attempt, shape) <= MAX_EMPTY_RESPONSE_RETRIES
      && singleBatchTurns == NextSingle(SingleStreak(log), shape)
    }

    /** What is known of a reply that the limits let through. */
    ghost predicate WithinLimits(resp: Response, attempt: Attempt) {
      && (attempt != NotTried <==> MustCompact(cfg, resp))
      && !MustStop(cfg, resp, attempt)
    }

    ghost predicate Reviewed(t: Stage, resp: Response)
      reads `streams, `summaries, `replies, `requests, `log
    {
      ModelCalled(t, Reply(resp)) && WithinLimits(resp, t.attempt)
    }

    ghost predicate Contract(err: Option<RunError>)
      reads `res, `judged, `log
    {
      ContractFits(cfg, world, log, res, judged, err)
    }

    /** The state in which a run has stopped. */
    ghost predicate Stopped(err: Option<RunError>)
      reads this
    {
      && Always() && Owing([]) && Contract(err) && LedgerWith(Graced(cfg, world, log))
      && full == Written(cfg, world, log) && msgs == Conversation(cfg, world, log)
      && delivered == Heard(log)
      && delivered <= obtained
      && (delivered != obtained ==> res.reason.Incapable? && !cfg.interactive)
      && res.turns == |log|
      && (!cfg.interactive ==> res.turns <= TurnLimit(cfg))
      && streams <= 2 * res.turns + (if cfg.graceTurn && !cfg.interactive then 4 else 0)
      && summaries <= res.turns
    }

    ghost predicate Outcome(flow: Flow)
      reads this
    {
      match flow
      case Continue => LoopTop()
      case Stop(err) => Stopped(err)
    }

    // ----- The outside world -----

    method Emit(e: Events.Event)
      modifies `events
      ensures events == old(events) + [e]
      ensures Events.ViewOf(events) == Events.Step(old(Events.ViewOf(events)), e)
    {
      events := events + [e];
      Events.ViewSnoc(old(events), e);
    }

    /** Emits an event the books do not count. */
    method Note(e: Events.Event)
      requires Books() && Events.Uncounted(e)
      modifies `events
      ensures Books()
      ensures events == old(events) + [e]
    {
      Emit(e);
    }

    /** What a request sent now can be judged by. */
    ghost function Now(): Moment
      reads `msgs, `full, `cut, `summary, `res, `delivered, `obtained
    {
      Moment(msgs, full, cut, summary, res.totals.cost, delivered, obtained)
    }

    method SendStream(request: Request, ghost kind: Kind, ghost live: seq<Message>, ghost pin: string,
                      ghost retry: bool)
      returns (outcome: ModelOutcome)
      modifies `streams, `requests, `replies
      ensures outcome == world.model(old(streams)) && streams == old(streams) + 1
      ensures requests == old(requests) + [Sent(kind, request, live, pin, retry, Now())]
      ensures replies == old(replies) + if outcome.Reply? then [outcome.resp.usage] else []
    {
      outcome := world.model(streams);
      streams := streams + 1;
      requests := requests + [Sent(kind, request, live, pin, retry, Now())];
      replies := replies + if outcome.Reply? then [outcome.resp.usage] else [];
    }

    method Send(request: Request) returns (outcome: SummaryOutcome)
      requires RequestsFit() && RequestFits(cfg, sound, Sent(Summarize, request, msgs, "", false, Now()))
      modifies `summaries, `requests, `replies
      ensures RequestsFit()
      ensures outcome == world.summarizer(old(summaries)) && summaries == old(summaries) + 1
      ensures requests == old(requests) + [Sent(Summarize, request, msgs, "", false, Now())]
      ensures replies == old(replies) + if outcome.Summarized? then [outcome.resp.usage] else []
    {
      outcome := world.summarizer(summaries);
      summaries := summaries + 1;
      requests := requests + [Sent(Summarize, request, msgs, "", false, Now())];
      replies := replies + if outcome.Summarized? then [outcome.resp.usage] else [];
    }

    method Execute(tool: ToolInfo) returns (outcome: ToolOutcome)
      modifies `executions
      ensures outcome == world.execute(old(executions)) && executions == old(executions) + 1
    {
      outcome := world.execute(executions);
      executions := executions + 1;
    }

    method Drain() returns (ums: seq<UserMessage>)
      modifies `drains, `obtained
      ensures ums == world.drain(old(drains)) && drains == old(drains) + 1
      ensures obtained == old(obtained) + ums
    {
      ums := world.drain(drains);
      drains := drains + 1;
      obtained := obtained + ums;
    }

    method Wait() returns (outcome: WaitOutcome)
      modifies `waits, `obtained
      ensures outcome == world.wait(old(waits)) && waits == old(waits) + 1
      ensures obtained == old(obtained) + if outcome.Input? then [outcome.message] else []
    {
      outcome := world.wait(waits);
      waits := waits + 1;
      obtained := obtained + if outcome.Input? then [outcome.message] else [];
    }

    // ----- Writing to the conversation -----

    method Append(m: Message)
      requires Chat() && (!cfg.replayReasoning ==> m.details.NoDetails?)
      modifies `msgs, `full
      ensures Chat()
      ensures msgs == old(msgs) + [m] && full == old(full) + [m]
      ensures Owed(msgs) == Settle(old(Owed(msgs)), m)
    {
      hide Window;
      WindowGrows(cfg, full, cut, summary, msgs, m);
      OwedSnoc(msgs, m);
      msgs := msgs + [m];
      full := full + [m];
    }

    method Hear(um: UserMessage)
      requires Chat() && Owing([]) && Books()
      modifies `events, `msgs, `full, `delivered
      ensures Chat() && Owing([]) && Books()
      ensures full == old(full) + [Message(User, um.content, [], [], "", NoDetails, "")]
      ensures msgs == old(msgs) + [Message(User, um.content, [], [], "", NoDetails, "")]
      ensures delivered == old(delivered) + [um]
    {
      hide Window, BooksFit, Events.ViewOf, OwedAt;
      HeardFits(Events.ViewOf(events), res, delivered, judged, um);
      Emit(Events.UserInput(um.id, |um.content|));
      Append(UserText(um.content));
      delivered := delivered + [um];
    }

    method HearAll(ums: seq<UserMessage>)
      requires Chat() && Owing([]) && Books()
      modifies `events, `msgs, `full, `delivered
      ensures Chat() && Owing([]) && Books()
      ensures full == old(full) + UserTexts(ums)
      ensures msgs == old(msgs) + UserTexts(ums)
      ensures delivered == old(delivered) + ums
    {
      hide Window, BooksFit, Owed;
      for i := 0 to |ums|
        invariant Chat() && Owing([]) && Books()
        invariant full == old(full) + UserTexts(ums[..i]) && msgs == old(msgs) + UserTexts(ums[..i])
        invariant delivered == old(delivered) + ums[..i]
      {
        Hear(ums[i]);
        assert ums[..i + 1] == ums[..i] + [ums[i]];
        assert UserTexts(ums[..i + 1]) == UserTexts(ums[..i]) + [UserText(ums[i].content)];
      }
      assert ums[..|ums|] == ums;
    }

    method DrainInbox() returns (ums: seq<UserMessage>)
      requires Chat() && Owing([]) && Books() && delivered == obtained
      modifies `events, `msgs, `full, `delivered, `drains, `obtained
      ensures Chat() && Owing([]) && Books() && delivered == obtained
      ensures ums == Waiting(cfg, world, old(drains)) && drains == old(drains) + if cfg.inbox then 1 else 0
      ensures !cfg.inbox ==> ums == []
      ensures full == old(full) + UserTexts(ums)
      ensures msgs == old(msgs) + UserTexts(ums)
      ensures delivered == old(delivered) + ums
    {
      hide Window, BooksFit, Owed;
      if !cfg.inbox {
        ums := [];
        assert full == full + UserTexts(ums) && msgs == msgs + UserTexts(ums);
        return;
      }
      ums := Drain();
      HearAll(ums);
    }

    /** Blocks for the next human message after a stop that does not end the run. */
    method AwaitNext() returns (outcome: Awaited, after: seq<UserMessage>)
      requires Chat() && Owing([]) && Books() && delivered == obtained
      modifies `events, `msgs, `full, `delivered, `waits, `obtained
      ensures Chat() && Owing([]) && Books() && delivered == obtained
      ensures |after| <= 1 && (outcome.Resumed? <==> after != [])
      ensures outcome.Closing? <==> world.wait(old(waits)).InboxClosed?
      ensures outcome.Cancelling? <==> world.wait(old(waits)).WaitError?
      ensures !outcome.Resumed? ==> Told(outcome)
      ensures waits == old(waits) + 1
      ensures Listened(world, old(waits), waits, true, after)
      ensures full == old(full) + UserTexts(after)
      ensures msgs == old(msgs) + UserTexts(after)
      ensures delivered == old(delivered) + after
    {
      hide Window, BooksFit, Owed;
      Note(Events.StateChange(Events.AwaitingHuman));
      var waited := Wait();
      match waited {
        case InboxClosed =>
          outcome, after := Closing, [];
          assert full == full + UserTexts([]) && msgs == msgs + UserTexts([]);
        case WaitError =>
          outcome, after := Cancelling, [];
          assert full == full + UserTexts([]) && msgs == msgs + UserTexts([]);
        case Input(um) =>
          outcome, after := Resumed, [um];
          Hear(um);
          assert UserTexts([um]) == [UserText(um.content)];
      }
    }

    // ----- Model calls -----

    /** Sends a turn or grace request, pinned to the provider of the newest reasoning. A 400 on a
        request that carried a pin or reasoning is retried once without either. */
    method SendModel(kind: Kind, live: seq<Message>) returns (outcome: ModelOutcome)
      modifies `events, `requests, `replies, `streams
      requires Books()
      ensures var sends := Sends(cfg, kind, live, Now(), world.model(old(streams)));
              requests == old(requests) + sends && streams == old(streams) + |sends|
      ensures forall s :: s in requests[|old(requests)|..] ==> SaysAll(s) && s.live == live
      ensures streams == old(streams) + Calls(cfg, world.model(old(streams)), live)
      ensures outcome == world.model(streams - 1)
      ensures replies == old(replies) + if outcome.Reply? then [outcome.resp.usage] else []
      ensures Books()
    {
      hide Now, Books, HasReasoningDetails, Events.Uncounted, Pinned, CarriesReasoning, BooksFit, SaysAll;
      SendsSayAll(cfg, kind, live, Now(), world.model(streams));
      var req := Request(live, cfg.routing);
      var sent, pin := ReplayRequest(req);
      Note(Events.ModelRequest(res.turns, pin, |live|));
      outcome := SendStream(sent, kind, live, pin, false);
      if !outcome.Rejected? {
        return;
      }
      var carries := AnyReasoning(sent.messages);
      if pin == "" && !carries {
        return;
      }
      outcome := Resend(kind, live);
    }

    /** The second request after a 400: no reasoning, and the consumer's own routing. */
    method Resend(kind: Kind, live: seq<Message>) returns (outcome: ModelOutcome)
      requires Books()
      modifies `events, `requests, `replies, `streams
      ensures outcome == world.model(old(streams)) && streams == old(streams) + 1
      ensures requests == old(requests) + [Sent(kind, Unpinned(Request(live, cfg.routing)), live, "", true, Now())]
      ensures replies == old(replies) + if outcome.Reply? then [outcome.resp.usage] else []
      ensures Books()
    {
      hide Now, BooksFit, Events.ViewOf;
      Note(Events.StateChange(Events.ReplayDropped));
      var bare := WithoutReasoning(live);
      Note(Events.ModelRequest(res.turns, "", |live|));
      outcome := SendStream(Request(bare, cfg.routing), kind, live, "", true);
    }

    /** A model call made when it is allowed sends only requests that fit. */
    method Call(kind: Kind, live: seq<Message>) returns (outcome: ModelOutcome)
      requires MaySend(cfg, sound, kind, live, Now())
      requires Books() && RequestsFit()
      modifies `events, `requests, `replies, `streams
      ensures RequestsFit()
      ensures requests == old(requests) + Sends(cfg, kind, live, Now(), world.model(old(streams)))
      ensures Posts(requests) == Posts(old(requests)) + ModelPosts(cfg, kind, live, world.model(old(streams)))
      ensures streams == Called(cfg, world, live, old(streams))
      ensures outcome == world.model(streams - 1)
      ensures replies == old(replies) + OutcomeUsages(outcome)
      ensures Books()
    {
      hide MaySend, RequestFits, BooksFit, Posts, Calls, ModelPosts;
      SendsPosted(cfg, requests, kind, live, Now(), world.model(streams));
      SendsFit(cfg, sound, kind, live, Now(), world.model(streams));
      outcome := SendModel(kind, live);
    }

    /** Adds a reply, the one call not yet paid for, to the totals and reports it. */
    method Account(usage: Usage)
      requires Books() && Spent(replies) == Plus(res.totals, Charge(usage))
      modifies `res, `events
      ensures Books() && Paid()
      ensures res == Paying(old(res), usage)
    {
      hide BooksFit, Spent;
      PaymentFits(Events.ViewOf(events), res, delivered, judged, usage);
      var prompt, cacheRead, cacheCreation := SplitUsage(usage);
      var spent := Totals(usage.cost, prompt, usage.completionTokens, cacheRead, cacheCreation);
      res := res.(totals := Plus(res.totals, spent));
      Emit(Events.UsageEvent(spent, usage.promptTokens));
    }

    /** Asks for a summary of the older part of the conversation; changes nothing yet. */
    method Compact(keepRecent: int) returns (outcome: CompactOutcome)
      requires cfg.compaction.Some? && keepRecent == cfg.compaction.value.keepRecent
      requires Chat() && Owing([]) && RequestsFit() && delivered == obtained
      modifies `requests, `replies, `summaries
      ensures RequestsFit()
      ensures summaries == old(summaries) + if PlanFor(msgs, keepRecent).Cut? then 1 else 0
      ensures old(requests) <= requests
      ensures outcome.Made? <==> PlanFor(msgs, keepRecent).Cut? && world.summarizer(old(summaries)).Summarized?
      ensures outcome.CompactError? ==> replies == old(replies)
      ensures Posts(requests) == Posts(old(requests)) + SummaryPosts(cfg, msgs, old(summaries), summaries)
      ensures outcome.Made? ==>
                && outcome.resp == world.summarizer(old(summaries)).resp && outcome.at == PlanFor(msgs, keepRecent).at
                && replies == old(replies) + [outcome.resp.usage]
                && SysCount(msgs) < outcome.at <= |msgs| - Clamp(keepRecent)
                && outcome.messages == Compacted(msgs, outcome.at, outcome.resp.content)
                && (sound ==> Settled(outcome.messages))
    {
      hide Window, RequestFits, Owed, Closed, Bare, PlanFor, Compacted;
      var plan := PlanCut(msgs, keepRecent);
      if !plan.Cut? {
        return CompactError;
      }
      var b := plan.at;
      var sysCount := SysCount(msgs);
      var older := msgs[sysCount..b];
      var bare := WithoutReasoning(older);
      var messages := [SystemText(COMPACTION_PROMPT)] + bare;
      SummaryFits(keepRecent, bare);
      var sent := Send(Request(messages, cfg.routing));
      if sent.SummaryFailed? {
        return CompactError;
      }
      outcome := Made(Compacted(msgs, b, sent.resp.content), b, sent.resp);
      if sound {
        ClosedIffSettled(msgs);
        CompactedClosed(msgs, keepRecent, sent.resp.content);
        ClosedIffSettled(outcome.messages);
      }
    }

    lemma SummaryRequestClosed(keepRecent: int, bare: seq<Message>)
      requires Owing([]) && PlanFor(msgs, keepRecent).Cut?
      requires SysCount(msgs) <= PlanFor(msgs, keepRecent).at <= |msgs|
      requires bare == Bare(msgs[SysCount(msgs)..PlanFor(msgs, keepRecent).at])
      ensures sound ==> Settled([SystemText(COMPACTION_PROMPT)] + bare)
      ensures Silent([SystemText(COMPACTION_PROMPT)] + bare)
      ensures AsksSummary([SystemText(COMPACTION_PROMPT)] + bare, msgs, PlanFor(msgs, keepRecent).at)
    {
      hide Owed, Closed, PlanFor, Bare;
      var older := msgs[SysCount(msgs)..PlanFor(msgs, keepRecent).at];
      assert ([SystemText(COMPACTION_PROMPT)] + bare)[1..] == bare;
      if sound {
        ClosedIffSettled(msgs);
        CutOnClosed(msgs, keepRecent);
        ShapeKeepsClosed(bare, older);
        ConsClosed(SystemText(COMPACTION_PROMPT), bare);
        ClosedIffSettled([SystemText(COMPACTION_PROMPT)] + bare);
      }
    }

    /** The summarize request of a conversation that can be cut fits. */
    lemma SummaryFits(keepRecent: int, bare: seq<Message>)
      requires cfg.compaction.Some? && keepRecent == cfg.compaction.value.keepRecent
      requires Chat() && Owing([]) && delivered == obtained && PlanFor(msgs, keepRecent).Cut?
      requires SysCount(msgs) <= PlanFor(msgs, keepRecent).at <= |msgs|
      requires bare == Bare(msgs[SysCount(msgs)..PlanFor(msgs, keepRecent).at])
      ensures RequestFits(cfg, sound,
                          Sent(Summarize, Request([SystemText(COMPACTION_PROMPT)] + bare, cfg.routing), msgs, "",
                               false, Now()))
    {
      hide Window, Owed, PlanFor, Silent, Bare, SysCount, SplitsAt, AsksSummary;
      SummaryRequestClosed(keepRecent, bare);
      PlanExactly(msgs, keepRecent);
      assert SplitsAt(msgs, keepRecent, PlanFor(msgs, keepRecent).at);
    }

    /** Compacts when the reply's prompt reached the threshold. */
    method TryCompact(resp: Response) returns (attempt: Attempt)
      requires Chat() && Owing([]) && Books() && Paid() && RequestsFit() && delivered == obtained
      modifies `msgs, `cut, `summary, `events, `requests, `replies, `summaries, `res, `emptyRun
      ensures Chat() && Owing([]) && Books() && Paid() && RequestsFit()
      ensures res == old(res).(totals := res.totals)
      ensures attempt != NotTried <==> MustCompact(cfg, resp)
      ensures if attempt.NotTried? then msgs == old(msgs) && summaries == old(summaries)
              else (attempt, msgs) == Attempted(world, old(msgs), KeepRecent(cfg), old(summaries))
                   && summaries == old(summaries) + if PlanFor(old(msgs), KeepRecent(cfg)).Cut? then 1 else 0
      ensures old(requests) <= requests
      ensures Posts(requests) == Posts(old(requests)) + SummaryPosts(cfg, old(msgs), old(summaries), summaries)
      ensures replies == old(replies) + SummaryUsages(world, old(summaries), summaries)
      ensures attempt.Shrank? ==> |msgs| < |old(msgs)| && cut > old(cut) && emptyRun == 0
      ensures !attempt.Shrank? ==> msgs == old(msgs) && emptyRun == old(emptyRun)
    {
      attempt := NotTried;
      if cfg.contextWindow > 0 && !IsFinal(cfg, resp) {
        if cfg.compaction.Some? {
          if resp.usage.promptTokens >= CompactAt(cfg) {
            attempt := CompactNow(cfg.compaction.value.keepRecent);
          }
        }
      }
    }

    /** One compaction attempt. The history is replaced only by a shorter one, which keeps
        at least the last `keep` messages verbatim; a summarize call that replied is paid for either way. */
    method CompactNow(keep: int) returns (attempt: Attempt)
      requires cfg.compaction.Some? && keep == cfg.compaction.value.keepRecent
      requires Chat() && Owing([]) && Books() && Paid() && RequestsFit() && delivered == obtained
      modifies `msgs, `cut, `summary, `events, `requests, `replies, `summaries, `res, `emptyRun
      ensures Chat() && Owing([]) && Books() && Paid() && RequestsFit()
      ensures res == old(res).(totals := res.totals)
      ensures attempt != NotTried && summaries == old(summaries) + if PlanFor(old(msgs), keep).Cut? then 1 else 0
      ensures (attempt, msgs) == Attempted(world, old(msgs), keep, old(summaries))
      ensures old(requests) <= requests
      ensures Posts(requests) == Posts(old(requests)) + SummaryPosts(cfg, old(msgs), old(summaries), summaries)
      ensures replies == old(replies) + SummaryUsages(world, old(summaries), summaries)
      ensures attempt.Shrank? ==>
                && |msgs| < |old(msgs)| && cut > old(cut) && emptyRun == 0
                && |summary| == 1 && cut + Clamp(keep) <= |full|
      ensures !attempt.Shrank? ==>
                msgs == old(msgs) && cut == old(cut) && summary == old(summary) && emptyRun == old(emptyRun)
    {
      hide Window, BooksFit, RequestFits, Owed, Spent, Plus, Charge, Compacted, SysCount, PlanFor, SummaryPosts,
           Events.ViewOf;
      var made := Compact(keep);
      if made.CompactError? {
        Note(Events.StateChange(Events.CompactionFailed));
        return Errored;
      }
      SpentSnoc(old(replies), made.resp.usage);
      attempt := Adopt(keep, made);
    }

    /** Pays for a summary and, when it makes the history shorter, installs it. */
    method Adopt(keep: int, made: CompactOutcome) returns (attempt: Attempt)
      requires made.Made? && Spent(replies) == Plus(res.totals, Charge(made.resp.usage))
      requires Chat() && Owing([]) && Books()
      requires SysCount(msgs) < made.at <= |msgs| - Clamp(keep)
      requires made.messages == Compacted(msgs, made.at, made.resp.content)
      requires sound ==> Settled(made.messages)
      modifies `msgs, `cut, `summary, `events, `res, `emptyRun
      ensures Chat() && Owing([]) && Books() && Paid()
      ensures res == old(res).(totals := res.totals)
      ensures (attempt, msgs) == if |made.messages| < |old(msgs)| then (Shrank, made.messages) else (Stuck, old(msgs))
      ensures attempt.Shrank? ==>
                && |msgs| < |old(msgs)| && cut > old(cut) && emptyRun == 0
                && |summary| == 1 && cut + Clamp(keep) <= |full|
      ensures !attempt.Shrank? ==>
                msgs == old(msgs) && cut == old(cut) && summary == old(summary) && emptyRun == old(emptyRun)
    {
      hide Window, BooksFit, Owed, Spent, Plus, Charge, Compacted, SysCount;
      var shrank := |made.messages| < |msgs|;
      if shrank {
        Note(Events.StateChange(Events.Compacted(made.at - SysCount(msgs))));
      }
      Account(made.resp.usage);
      if shrank {
        Replace(keep, made);
        emptyRun := 0;
        return Shrank;
      }
      Note(Events.StateChange(Events.CompactionFailed));
      return Stuck;
    }

    /** Installs a shorter history. */
    method Replace(keep: int, made: CompactOutcome)
      requires Chat() && made.Made? && |made.messages| < |msgs|
      requires SysCount(msgs) < made.at <= |msgs| - Clamp(keep)
      requires made.messages == Compacted(msgs, made.at, made.resp.content)
      requires sound ==> Settled(made.messages)
      modifies `msgs, `cut, `summary
      ensures Chat() && Owing([])
      ensures msgs == made.messages
      ensures |summary| == 1 && cut > old(cut) && cut + Clamp(keep) <= |full|
    {
      hide Window;
      WindowMoves(cfg, full, cut, summary, msgs, made.at, made.resp.content);
      cut := cut + (made.at - SysCount(msgs) - |summary|);
      summary := [Summary(made.resp.content)];
      msgs := made.messages;
    }

    // ----- Tool calls -----

    /** Runs a known tool with arguments that parsed. */
    method RunTool(tool: ToolInfo) returns (v: Verdict)
      modifies `executions
      ensures v == Verdicted(world, tool, old(executions)) && executions == old(executions) + 1
    {
      var out := Execute(tool);
      match out {
        case ToolError(message) => v := Refused(tool, message);
        case Output(text, images) => v := Ran(tool, text, images);
      }
    }

    /** Decides one call: an unknown tool, arguments that do not parse, or an execution. */
    method Judge(tc: ToolCall) returns (v: Verdict)
      modifies `executions
      ensures Fits(world, tc, v) && Dispatched(v)
      ensures executions == old(executions) + (if Executed(v) then 1 else 0)
      ensures Reports(world.execute(old(executions)), v)
    {
      var tool := Lookup(world.registry, tc.name);
      if tool.None? {
        return Unknown;
      }
      if !world.parses(tc.arguments) {
        return BadArgs(tc.arguments);
      }
      v := RunTool(tool.value);
    }

    /** Dispatches one call and answers it, whatever comes of it. */
    method DispatchCall(tc: ToolCall) returns (v: Verdict)
      requires Chat() && Books() && NoTerminal(Runs())
      modifies `msgs, `full, `events, `res, `executions, `judged
      ensures Chat() && Books()
      ensures Fits(world, tc, v) && Dispatched(v)
      ensures msgs == old(msgs) + [Answer(world, tc, v)] && full == old(full) + [Answer(world, tc, v)]
      ensures Transcript.Relays(world, tc, v, msgs[|old(msgs)|])
      ensures res == Counting(old(res), AnswerKind(v))
      ensures judged == old(judged) + [Decision(tc.id, v)]
      ensures executions == old(executions) + (if Executed(v) then 1 else 0)
      ensures Reports(world.execute(old(executions)), v)
      ensures if Terminates(v) then EndedBy(Runs()) else NoTerminal(Runs())
    {
      hide Fits, Reports, EndedBy, NoTerminal, Answer, Counting, AnswerKind, Window, BooksFit, RunsOf, Terminates,
           Events.ViewOf, Events.Step, Owed;
      ghost var view := Events.ViewOf(events);
      res := res.(toolCallCount := res.toolCallCount + 1);
      Emit(Events.ToolCallEvent(tc.id, true));
      v := Judge(tc);
      RunsDecided(judged, Decision(tc.id, v));
      AnswerCall(tc, v, view, old(res));
    }

    /** Counts, reports and records the outcome of a call that was dispatched in the state `before`. */
    method AnswerCall(tc: ToolCall, v: Verdict, ghost view: Events.View, ghost before: Result)
      requires Chat() && Dispatched(v) && BooksFit(view, before, delivered, judged)
      requires Events.ViewOf(events) == Events.Step(view, Events.ToolCallEvent(tc.id, true))
      requires res == before.(toolCallCount := before.toolCallCount + 1)
      modifies `msgs, `full, `events, `res, `judged
      ensures Chat() && Books()
      ensures msgs == old(msgs) + [Answer(world, tc, v)] && full == old(full) + [Answer(world, tc, v)]
      ensures Transcript.Relays(world, tc, v, msgs[|old(msgs)|])
      ensures res == Counting(before, AnswerKind(v))
      ensures judged == old(judged) + [Decision(tc.id, v)]
    {
      hide Answer, Window, BooksFit, Events.ViewOf, Events.Step, Owed;
      AnswerFits(view, before, delivered, judged, tc.id, v);
      AnswersPlainly(tc, v);
      if v.Unknown? || v.Refused? {
        res := res.(toolCallFailures := res.toolCallFailures + 1);
      } else if v.BadArgs? {
        res := res.(repairCount := res.repairCount + 1);
      }
      Append(Answer(world, tc, v));
      Emit(Events.ToolAnswerEvent(tc.id, AnswerKind(v)));
      judged := judged + [Decision(tc.id, v)];
    }

    lemma AnswersPlainly(tc: ToolCall, v: Verdict)
      ensures Answer(world, tc, v).details.NoDetails? && Transcript.Relays(world, tc, v, Answer(world, tc, v))
    {
      Transcript.AnswerRelays(world, tc, v);
    }

    /** Answers a call that is never dispatched. */
    method SkipCall(tc: ToolCall, v: Verdict)
      requires Chat() && Books() && !Dispatched(v)
      modifies `msgs, `full, `events, `judged
      ensures Chat() && Books()
      ensures msgs == old(msgs) + [Answer(world, tc, v)] && full == old(full) + [Answer(world, tc, v)]
      ensures Transcript.Relays(world, tc, v, msgs[|old(msgs)|])
      ensures judged == old(judged) + [Decision(tc.id, v)] && Runs() == old(Runs())
    {
      hide Window, BooksFit, Events.ViewOf, Events.Step, Owed, Answer, Transcript.Relays, Calls, Labels;
      ghost var view := Events.ViewOf(events);
      AnswerFits(view, res, delivered, judged, tc.id, v);
      AnswersPlainly(tc, v);
      DecisionsSnoc(judged, Decision(tc.id, v));
      Emit(Events.ToolCallEvent(tc.id, false));
      Emit(Events.ToolAnswerEvent(tc.id, Events.Skipped));
      Append(Answer(world, tc, v));
      judged := judged + [Decision(tc.id, v)];
    }

    /** Deals with the next call of a batch: skips it when the batch was interrupted or has ended, and
        otherwise dispatches it and looks whether the human interjected. */
    method NextCall(tc: ToolCall, last: bool, interrupted: bool, terminated: bool)
      returns (v: Verdict, more: seq<UserMessage>)
      requires Chat() && Books()
      requires !interrupted && !terminated ==> NoTerminal(Runs())
      modifies `msgs, `full, `events, `res, `executions, `judged, `drains, `obtained
      ensures Chat() && Books()
      ensures if interrupted then v == Interjected
              else if terminated then v == PastEnd else Fits(world, tc, v) && Dispatched(v)
      ensures msgs == old(msgs) + [Answer(world, tc, v)] && full == old(full) + [Answer(world, tc, v)]
      ensures Transcript.Relays(world, tc, v, msgs[|old(msgs)|])
      ensures res == Counting(old(res), AnswerKind(v))
      ensures executions == old(executions) + (if Executed(v) then 1 else 0)
      ensures Reports(world.execute(old(executions)), v)
      ensures if cfg.inbox && !last && Dispatched(v) && !Terminates(v)
              then more == world.drain(old(drains)) && drains == old(drains) + 1
              else more == [] && drains == old(drains)
      ensures obtained == old(obtained) + more
      ensures judged == old(judged) + [Decision(tc.id, v)]
      ensures if interrupted || terminated then Runs() == old(Runs())
              else if Terminates(v) then EndedBy(Runs()) else NoTerminal(Runs())
    {
      hide Window, BooksFit, Answer, Fits, EndedBy, NoTerminal, Events.ViewOf, RunsOf;
      more := [];
      if interrupted {
        v := Interjected;
        SkipCall(tc, v);
      } else if terminated {
        v := PastEnd;
        SkipCall(tc, v);
      } else {
        v := DispatchCall(tc);
        if cfg.inbox && !Terminates(v) && !last {
          more := Drain();
        }
      }
    }

    /** Walks a batch: dispatches its calls in order until a terminal tool succeeds or a human
        interjects, and answers every remaining call. */
    method RunBatch(calls: seq<ToolCall>) returns (b: BatchResult)
      requires Chat() && Books() && NoTerminal(Runs()) && delivered == obtained
      requires calls != []
      modifies `msgs, `full, `events, `res, `executions, `judged, `drains, `obtained
      ensures Chat() && Books()
      ensures |b.verdicts| == |calls| && BatchFits(world, calls, b.verdicts)
      ensures msgs == old(msgs) + Answers(world, calls, b.verdicts)
      ensures full == old(full) + Answers(world, calls, b.verdicts)
      ensures Transcript.RelaysAll(world, calls, b.verdicts, msgs[|old(msgs)|..])
      ensures res == CountingAll(old(res), b.verdicts)
      ensures judged == old(judged) + Decided(calls, b.verdicts)
      ensures obtained == delivered + b.pending
      ensures drains == old(drains) + Polls(cfg, |calls|, b.verdicts)
      ensures executions == old(executions) + Executions(b.verdicts)
      ensures Played(world, old(executions), b.verdicts)
      ensures var polls := Polls(cfg, |calls|, b.verdicts);
              FoundNothing(world, old(drains), polls) && b.pending == Stash(world, old(drains), polls)
      ensures b.pending != [] <==> Interrupted(b.verdicts)
      ensures !cfg.inbox ==> b.pending == []
      ensures b.terminated ==> b.pending == []
      ensures b.capable == Capable(b.verdicts) && b.readOnly == UsedLookup(b.verdicts)
      ensures b.failedArgs == RawArgs(b.verdicts) && b.images == Images(b.verdicts)
      ensures b.terminated == Ended(b.verdicts)
      ensures if b.terminated then EndedBy(Runs()) else NoTerminal(Runs())
      ensures if b.terminated then TerminalArgs(calls, b.verdicts, b.completionArgs) else b.completionArgs.None?
    {
      hide Window, BooksFit, BatchFits, EndedBy, NoTerminal, Capable, UsedLookup, RawArgs, Images, CountingAll,
           Answer, Answers, Fits, TerminalArgs, Ended, Tallied, Walked, Counting, AnswerKind, Consulted, Interrupted,
           Played, Polls, Executions, FoundNothing, Stash, Reports, Events.ViewOf, RunsOf, Decided, Transcript.Relays,
           Transcript.RelaysAll, Transcript.Tells, Verdicted;
      var interrupted := false;
      var pending: seq<UserMessage> := [];
      var verdicts: seq<Verdict> := [];
      var images: seq<string> := [];
      var failedArgs: seq<string> := [];
      var capable, readOnly, terminated := false, false, false;
      var completionArgs: Option<string> := None;
      EmptyBatch(calls, msgs, full, res);
      for i := 0 to |calls|
        invariant |verdicts| == i
        invariant Chat() && Books()
        invariant Walked(calls, verdicts, old(msgs), msgs, old(full), full, old(res), res)
        invariant Consulted(|calls|, verdicts, old(drains), drains, old(executions), executions, pending)
        invariant interrupted && i == |calls| ==> Interrupted(verdicts)
        invariant obtained == delivered + pending
        invariant interrupted <==> pending != []
        invariant !cfg.inbox ==> pending == []
        invariant interrupted ==> !terminated && i > 0
        invariant !interrupted ==> !Interrupted(verdicts)
        invariant Tallied(verdicts, images, capable, failedArgs, readOnly, terminated)
        invariant judged == old(judged) + Decided(calls, verdicts)
        invariant if terminated then EndedBy(Runs()) else NoTerminal(Runs())
        invariant if terminated then TerminalArgs(calls, verdicts, completionArgs) else completionArgs.None?
      {
        var tc := calls[i];
        ghost var tally := (images, capable, failedArgs, readOnly, terminated);
        ghost var ms, all, counted := msgs, full, res;
        ghost var drained, executed, stash := drains, executions, pending;
        var v, more := NextCall(tc, i == |calls| - 1, interrupted, terminated);
        TallyMeans(verdicts, images, capable, failedArgs, readOnly, terminated);
        WalkNext(calls, verdicts, v, interrupted, old(msgs), ms, old(full), all, old(res), counted);
        if Executed(v) {
          capable := true;
          if CountsAsLookup(v.tool) {
            readOnly := true;
          }
        }
        if v.BadArgs? {
          failedArgs := failedArgs + [v.raw];
        }
        if v.Ran? {
          images := images + v.images;
          if v.tool.terminal {
            terminated := true;
            completionArgs := Some(Text.NormalizeArgs(tc.arguments));
          }
        }
        if |more| > 0 {
          interrupted := true;
          pending := more;
        }
        TerminalArgsSnoc(calls, verdicts, v, completionArgs);
        TallySnoc(verdicts, tally.0, tally.1, tally.2, tally.3, tally.4, v);
        ConsultsNext(|calls|, verdicts, v, old(drains), drained, old(executions), executed, stash);
        InterruptedSnoc(verdicts, v);
        DecidedSnoc(calls, verdicts, v);
        verdicts := verdicts + [v];
      }
      ConsultedMeans(|calls|, verdicts, old(drains), drains, old(executions), executions, pending);
      TallyMeans(verdicts, images, capable, failedArgs, readOnly, terminated);
      WalkMeans(calls, verdicts, old(msgs), msgs, old(full), full, old(res), res);
      Transcript.AnswersRelay(world, calls, verdicts);
      b := BatchResult(verdicts, pending, images, capable, failedArgs, readOnly, terminated, completionArgs);
    }

    /** What a walk over a batch has written and counted once `vs` were decided. */
    ghost predicate Walked(calls: seq<ToolCall>, vs: seq<Verdict>, ms: seq<Message>, ms': seq<Message>,
                           all: seq<Message>, all': seq<Message>, counted: Result, counted': Result) {
      && BatchFits(world, calls, vs)
      && ms' == ms + Answers(world, calls, vs) && all' == all + Answers(world, calls, vs)
      && counted' == CountingAll(counted, vs)
    }

    lemma WalkMeans(calls: seq<ToolCall>, vs: seq<Verdict>, ms: seq<Message>, ms': seq<Message>,
                    all: seq<Message>, all': seq<Message>, counted: Result, counted': Result)
      requires Walked(calls, vs, ms, ms', all, all', counted, counted')
      ensures |vs| <= |calls| && BatchFits(world, calls, vs)
      ensures ms' == ms + Answers(world, calls, vs) && all' == all + Answers(world, calls, vs)
      ensures counted' == CountingAll(counted, vs)
    {
    }

    lemma WalkSnoc(calls: seq<ToolCall>, vs: seq<Verdict>, v: Verdict, ms: seq<Message>, ms': seq<Message>,
                   all: seq<Message>, all': seq<Message>, counted: Result, counted': Result)
      requires Walked(calls, vs, ms, ms', all, all', counted, counted') && |vs| < |calls|
      requires BatchFits(world, calls, vs + [v])
      ensures var a := Answer(world, calls[|vs|], v);
              Walked(calls, vs + [v], ms, ms' + [a], all, all' + [a], counted, Counting(counted', AnswerKind(v)))
    {
      hide BatchFits, Answers, Answer, Counting, CountingAll, AnswerKind;
      AnswersSnoc(world, calls, vs, v);
      CountingSnoc(counted, vs, v);
    }

    lemma WalkDispatches(calls: seq<ToolCall>, vs: seq<Verdict>, v: Verdict, ms: seq<Message>, ms': seq<Message>,
                         all: seq<Message>, all': seq<Message>, counted: Result, counted': Result)
      requires Walked(calls, vs, ms, ms', all, all', counted, counted') && |vs| < |calls|
      requires Fits(world, calls[|vs|], v) && Dispatched(v) && !Ended(vs) && !Interrupted(vs)
      ensures var a := Answer(world, calls[|vs|], v);
              Walked(calls, vs + [v], ms, ms' + [a], all, all' + [a], counted, Counting(counted', AnswerKind(v)))
    {
      hide BatchFits, Answers, Answer, Counting, CountingAll, AnswerKind, Fits, Ended;
      assert forall w :: w in vs ==> !w.Interjected?;
      BatchDispatches(world, calls, vs, v);
      WalkSnoc(calls, vs, v, ms, ms', all, all', counted, counted');
    }

    lemma WalkSkips(calls: seq<ToolCall>, vs: seq<Verdict>, v: Verdict, ms: seq<Message>, ms': seq<Message>,
                    all: seq<Message>, all': seq<Message>, counted: Result, counted': Result)
      requires Walked(calls, vs, ms, ms', all, all', counted, counted') && 0 < |vs| < |calls|
      requires if Ended(vs) then v == PastEnd else v == Interjected
      ensures var a := Answer(world, calls[|vs|], v);
              Walked(calls, vs + [v], ms, ms' + [a], all, all' + [a], counted, Counting(counted', AnswerKind(v)))
    {
      hide BatchFits, Answers, Answer, CountingAll, Ended;
      BatchSkips(world, calls, vs, v);
      WalkSnoc(calls, vs, v, ms, ms', all, all', counted, counted');
    }

    lemma WalkNext(calls: seq<ToolCall>, vs: seq<Verdict>, v: Verdict, interrupted: bool, ms: seq<Message>,
                   ms': seq<Message>, all: seq<Message>, all': seq<Message>, counted: Result, counted': Result)
      requires Walked(calls, vs, ms, ms', all, all', counted, counted') && |vs| < |calls|
      requires interrupted ==> vs != [] && !Ended(vs)
      requires !interrupted ==> !Interrupted(vs)
      requires if interrupted then v == Interjected
               else if Ended(vs) then v == PastEnd else Fits(world, calls[|vs|], v) && Dispatched(v)
      ensures var a := Answer(world, calls[|vs|], v);
              Walked(calls, vs + [v], ms, ms' + [a], all, all' + [a], counted, Counting(counted', AnswerKind(v)))
    {
      hide Walked, Answer, Counting, AnswerKind, Fits, Interrupted;
      if interrupted || Ended(vs) {
        WalkSkips(calls, vs, v, ms, ms', all, all', counted, counted');
      } else {
        WalkDispatches(calls, vs, v, ms, ms', all, all', counted, counted');
      }
    }

    lemma EmptyBatch(calls: seq<ToolCall>, ms: seq<Message>, all: seq<Message>, counted: Result)
      ensures Walked(calls, [], ms, ms, all, all, counted, counted) && Tallied([], [], false, [], false, false)
      ensures Consulted(|calls|, [], drains, drains, executions, executions, []) && !Interrupted([])
      ensures judged == judged + Decided(calls, [])
    {
    }

    /** What a walk over a batch of `n` calls has asked of the tools and the inbox once `vs` were decided. */
    ghost predicate Consulted(n: nat, vs: seq<Verdict>, d: nat, d': nat, e: nat, e': nat, pending: seq<UserMessage>) {
      && d' == d + Polls(cfg, n, vs) && e' == e + Executions(vs)
      && Played(world, e, vs)
      && FoundNothing(world, d, Polls(cfg, n, vs)) && pending == Stash(world, d, Polls(cfg, n, vs))
    }

    lemma ConsultedMeans(n: nat, vs: seq<Verdict>, d: nat, d': nat, e: nat, e': nat, pending: seq<UserMessage>)
      requires Consulted(n, vs, d, d', e, e', pending)
      ensures d' == d + Polls(cfg, n, vs) && e' == e + Executions(vs) && Played(world, e, vs)
      ensures FoundNothing(world, d, Polls(cfg, n, vs)) && pending == Stash(world, d, Polls(cfg, n, vs))
    {
    }

    lemma ConsultsNext(n: nat, vs: seq<Verdict>, v: Verdict, d: nat, d': nat, e: nat, e': nat,
                       pending: seq<UserMessage>)
      requires Consulted(n, vs, d, d', e, e', pending) && Reports(world.execute(e'), v)
      requires Dispatched(v) ==> pending == []
      ensures var polls := cfg.inbox && |vs| + 1 < n && Dispatched(v) && !Terminates(v);
              Consulted(n, vs + [v], d, if polls then d' + 1 else d', e, if Executed(v) then e' + 1 else e',
                        if polls then world.drain(d') else pending)
    {
      assert (vs + [v])[..|vs|] == vs;
    }

    lemma InterruptedSnoc(vs: seq<Verdict>, v: Verdict)
      ensures Interrupted(vs + [v]) <==> Interrupted(vs) || v.Interjected?
    {
      assert forall w :: w in vs + [v] <==> w in vs || w == v;
    }

    /** What the walk over a batch keeps track of. */
    ghost predicate Tallied(vs: seq<Verdict>, images: seq<string>, capable: bool, failedArgs: seq<string>,
                            readOnly: bool, terminated: bool) {
      && capable == Capable(vs) && readOnly == UsedLookup(vs)
      && failedArgs == RawArgs(vs) && images == Images(vs)
      && terminated == Ended(vs)
    }

    lemma TallyMeans(vs: seq<Verdict>, images: seq<string>, capable: bool, failedArgs: seq<string>, readOnly: bool,
                     terminated: bool)
      requires Tallied(vs, images, capable, failedArgs, readOnly, terminated)
      ensures capable == Capable(vs) && readOnly == UsedLookup(vs)
      ensures failedArgs == RawArgs(vs) && images == Images(vs)
      ensures terminated == Ended(vs) && (terminated ==> vs != [])
    {
    }

    lemma TallySnoc(vs: seq<Verdict>, images: seq<string>, capable: bool, failedArgs: seq<string>, readOnly: bool,
                    terminated: bool, v: Verdict)
      requires Tallied(vs, images, capable, failedArgs, readOnly, terminated)
      ensures Tallied(vs + [v], if v.Ran? then images + v.images else images, capable || Executed(v),
                      if v.BadArgs? then failedArgs + [v.raw] else failedArgs,
                      readOnly || (Executed(v) && CountsAsLookup(v.tool)), terminated || Terminates(v))
    {
      VerdictsSnoc(vs, v);
    }

    // ----- Turns -----

    /** Adds the nudge that is due, if any. */
    method GiveNudge() returns (nudge: Nudge)
      requires Chat() && Owing([]) && Books() && Memory(NotTried) && NudgesKept(NoNudge) && res.turns == |log|
      modifies `msgs, `full, `events, `nudged, `batchNudged
      ensures Chat() && Owing([]) && Books() && NudgesKept(nudge)
      ensures nudge == NudgeDue(cfg, log)
      ensures full == old(full) + NudgeMessages(cfg, world, nudge)
      ensures msgs == old(msgs) + NudgeMessages(cfg, world, nudge)
    {
      hide TurnLimit, IncapableLimit, Window, BooksFit, Owed, SingleStreak, WrapUps, BatchHints, Streak, EmptyStreak,
           Events.ViewOf;
      if !cfg.interactive && cfg.wrapUpTurns > 0 && !nudged && TurnLimit(cfg) - res.turns == cfg.wrapUpTurns {
        nudged := true;
        var text := cfg.wrapUpMessage;
        if text == "" {
          text := world.wrapUpText(cfg.wrapUpTurns);
        }
        Append(UserText(text));
        Note(Events.StateChange(Events.WrapUpNudge));
        return WrapUp(cfg.wrapUpTurns);
      }
      if cfg.batchNudgeTurns > 0 && !batchNudged && !nudged && singleBatchTurns >= cfg.batchNudgeTurns {
        batchNudged := true;
        var text := cfg.batchNudgeMessage;
        if text == "" {
          text := world.batchText(singleBatchTurns);
        }
        Append(UserText(text));
        Note(Events.StateChange(Events.BatchNudge));
        return BatchHint(singleBatchTurns);
      }
      return NoNudge;
    }

    /** Ends a turn on a failed call or on empty replies: an interactive run waits for the next human
        message instead of stopping. */
    method FailTurn(err: RunError) returns (flow: Flow, after: seq<UserMessage>)
      requires Chat() && Owing([]) && Books() && delivered == obtained
      requires err != WaitFailed
      modifies `events, `msgs, `full, `delivered, `waits, `obtained, `res, `emptyRun
      ensures Chat() && Owing([]) && Books() && delivered == obtained
      ensures emptyRun == 0
      ensures |after| <= 1 && delivered == old(delivered) + after
      ensures full == old(full) + UserTexts(after) && msgs == old(msgs) + UserTexts(after)
      ensures Listened(world, old(waits), waits, cfg.interactive, after)
      ensures cfg.interactive && flow.Stop? ==>
                waits > 0 && world.wait(waits - 1) == if flow.err.None? then InboxClosed else WaitError
      ensures !cfg.interactive ==> flow == Stop(Some(err))
      ensures cfg.interactive ==> flow == Continue || flow == Stop(None) || flow == Stop(Some(WaitFailed))
      ensures flow.Continue? <==> after != []
      ensures flow.Continue? ==> res == old(res)
      ensures flow.Stop? ==> res == old(res).(completed := res.completed, reason := res.reason)
      ensures flow == Stop(None) ==> res.completed && res.reason.Done?
      ensures flow.Stop? && flow.err.Some? ==>
                res.completed == old(res.completed) && res.reason == if cfg.interactive then Canceled else Error
    {
      hide Window, BooksFit, Owed;
      Note(Events.ErrorEvent);
      emptyRun := 0;
      if cfg.interactive {
        var outcome;
        outcome, after := AwaitNext();
        match outcome {
          case Resumed => return Continue, after;
          case Closing =>
            Finish();
            return Stop(None), after;
          case Cancelling =>
            Close(res.(reason := Canceled));
            return Stop(Some(WaitFailed)), after;
        }
      }
      Close(res.(reason := Error));
      return Stop(Some(err)), [];
    }

    /** Replaces what the result says beside its counters and totals. */
    method Close(next: Result)
      requires Books()
      requires next == res.(completed := next.completed, reason := next.reason, modelUsed := next.modelUsed,
                            incapableDetail := next.incapableDetail, output := next.output,
                            completionArgs := next.completionArgs, turns := next.turns)
      modifies `res
      ensures Books() && res == next
    {
      hide BooksFit, Events.ViewOf;
      CountersDecide(Events.ViewOf(events), res, next, delivered, judged);
      res := next;
    }

    /** Marks the run as completed. */
    method Finish()
      requires Books()
      modifies `res, `events
      ensures Books() && res == old(res).(completed := true, reason := Done)
    {
      hide BooksFit;
      Close(res.(completed := true, reason := Done));
      Note(Events.StateChange(Events.StopDone));
    }

    // ----- The end of a turn -----

    /** The record of a turn that ends here with `shape`. */
    ghost function Entry(t: Stage, shape: Shape): Record
      reads `streams, `summaries, `executions, `drains, `waits
    {
      Record(t.opening, t.nudge, t.attempt, shape, Here())
    }

    /** The turn ends here with `shape`. */
    ghost predicate Ready(t: Stage, shape: Shape)
      reads this
    {
      && Talk() && Context(t, res.turns, res.totals)
      && Settles(cfg, world, log, t.attempt, shape)
      && Plays(cfg, world, log, Entry(t, shape)) && Billed(t, shape)
      && Wrote(t, Afterwards(cfg, world, shape), After(shape))
    }

    /** What was paid for, sent and decided is what the log and the turn say. */
    ghost predicate Billed(t: Stage, shape: Shape)
      reads `log, `replies, `requests, `judged, `summaries
    {
      && replies == Usages(world, log) + ReplyUsages(shape) + SummaryUsages(world, End(log).summaries, summaries)
      && Posts(requests) == Posted(cfg, world, log) + TurnPosts(cfg, world, log, t, summaries)
      && Decides(Decisions(shape))
    }

    /** The turn that ended here with `shape` is all that was added to the log. */
    ghost predicate Logged(past: seq<Record>, t: Stage, shape: Shape)
      reads `log, `streams, `summaries, `executions, `drains, `waits
    {
      log == past + [Entry(t, shape)]
    }

    /** Everything the outside was asked in the turn is accounted for. */
    lemma Accounts(t: Stage, shape: Shape)
      requires t.opening == Waiting(cfg, world, End(log).drains)
      requires AttemptPlays(cfg, world, log, t, summaries)
      requires if shape.CallFailed? then Lost(t) else ModelCalled(t, Reply(shape.resp))
      requires ToolsPlay(world, End(log).executions, executions, shape)
      requires InputPlays(cfg, world, log, Opened(cfg, End(log)), Here(), t.attempt, shape)
      requires Decides(Decisions(shape))
      ensures Plays(cfg, world, log, Entry(t, shape)) && Billed(t, shape)
    {
      hide AttemptPlays, ToolsPlay, InputPlays, Asked, Usages, SummaryUsages, Posts, Posted, TurnPosts, Judged,
           Decisions;
    }

    /** Logs a turn after which the run goes on. */
    ghost method GoOn(t: Stage, shape: Shape)
      requires Ready(t, shape) && Live() && delivered == obtained
      requires MemoryNext(t.attempt, shape)
      requires !Ends(cfg, log, Entry(t, shape))
      modifies `log
      ensures Logged(old(log), t, shape)
      ensures LoopTop()
    {
      hide Window, BooksFit, RequestFits, Owed, Spent, LogFits, Written, Conversation, Kept, Before, Afterwards,
           Heard, Streak, EmptyStreak, SingleStreak, WrapUps, BatchHints, Ongoing, NoTerminal, NextStreak, NextEmpty,
           NextSingle, NudgeDue, Settles, Ends, TurnLimit, Plays, AttemptPlays, MayStart, Usages, SummaryUsages,
           Posts, Posted, TurnPosts, Judged, Decisions;
      var r := Entry(t, shape);
      LogSnoc(cfg, world, log, r);
      PostedAlike(t, shape);
      OngoingSnoc(cfg, log, r);
      HoldsMeans(cfg, world, log, t, summaries, full, msgs, Afterwards(cfg, world, shape));
      log := log + [r];
    }

    /** Logs the last turn of a run. */
    ghost method Halt(t: Stage, shape: Shape, err: Option<RunError>)
      requires Ready(t, shape)
      requires ContractFits(cfg, world, log + [Entry(t, shape)], res, judged, err) && Ends(cfg, log, Entry(t, shape))
      requires delivered <= obtained && (delivered != obtained ==> res.reason.Incapable? && !cfg.interactive)
      modifies `log
      ensures Logged(old(log), t, shape)
      ensures Stopped(err)
    {
      hide Window, BooksFit, RequestFits, Owed, Spent, LogFits, Written, Conversation, Kept, Before, Afterwards,
           Heard, Streak, EmptyStreak, SingleStreak, WrapUps, BatchHints, Ongoing, NoTerminal, NudgeDue, Settles,
           ContractFits, TurnLimit, Plays, AttemptPlays, Ends, MayStart, Usages, SummaryUsages, Posts, Posted,
           TurnPosts, Judged, Decisions, Graced;
      var r := Entry(t, shape);
      LogSnoc(cfg, world, log, r);
      PostedAlike(t, shape);
      NotGraced(cfg, world, log, r);
      HoldsMeans(cfg, world, log, t, summaries, full, msgs, Afterwards(cfg, world, shape));
      log := log + [r];
      NothingMore(Graced(cfg, world, log));
    }

    /** The requests of the turn are those its record stands for. */
    lemma PostedAlike(t: Stage, shape: Shape)
      requires Billed(t, shape)
      ensures Posts(requests) == Posted(cfg, world, log + [Entry(t, shape)])
    {
      hide Posts, Posted, TurnPosts, Usages, Judged, Decisions;
      PostedSnoc(cfg, world, log, Entry(t, shape));
    }

    lemma HeardMore(base: seq<UserMessage>, more: seq<UserMessage>)
      ensures base + [] + more == base + more && base + more + [] == base + more
    {
    }

    lemma NoUserTexts()
      ensures UserTexts([]) == []
    {
    }

    /** What a turn delivered is the tail of what was delivered. */
    lemma Tail(base: seq<UserMessage>, more: seq<UserMessage>)
      ensures (base + more)[|base|..] == more && base <= base + more
    {
    }

    lemma ContextMeans(t: Stage)
      requires Context(t, res.turns, res.totals)
      ensures Ongoing(cfg, log) && (cfg.interactive ==> cfg.inbox)
    {
    }

    // ----- Turns that fail -----

    /** A failed model call. */
    method HandleFailure(ghost t: Stage) returns (flow: Flow)
      requires MidTurn(t) && t.attempt.NotTried? && Lost(t)
      modifies `msgs, `full, `events, `res, `waits, `obtained, `delivered, `log, `emptyRun
      ensures res.turns == old(res.turns)
      ensures old(delivered) <= delivered && Logged(old(log), t, CallFailed(delivered[|old(delivered)|..]))
      ensures !cfg.interactive ==> flow == Stop(Some(Transport)) && res.reason.Error? && msgs == old(msgs)
      ensures cfg.interactive ==> (flow.Continue? <==> delivered != old(delivered))
      ensures Outcome(flow)
    {
      hide Outcome, Talk, Context, Wrote, Inputs, Live, Lost, Streak, EmptyStreak, SingleStreak, NoTerminal;
      flow := Fail(Transport, t, CallFailed([]));
    }

    /** The turn cannot be settled: `shape` is a failed call or the reply that was one empty reply too
        many. */
    method Fail(err: RunError, ghost t: Stage, ghost shape: Shape) returns (flow: Flow)
      requires Talk() && Live() && Context(t, res.turns, res.totals) && Wrote(t, [], []) && delivered == obtained
      requires StreaksKept() && Failing(err, t, shape) && Inputs(t, 0, 0, []) && err != WaitFailed
      modifies `msgs, `full, `events, `res, `waits, `obtained, `delivered, `log, `emptyRun
      ensures res.turns == old(res.turns)
      ensures old(delivered) <= delivered && Logged(old(log), t, Followed(shape, delivered[|old(delivered)|..]))
      ensures !cfg.interactive ==> flow == Stop(Some(err)) && res.reason.Error? && msgs == old(msgs)
      ensures cfg.interactive ==> (flow.Continue? <==> delivered != old(delivered))
      ensures Outcome(flow)
    {
      hide Window, BooksFit, RequestsFit, Owed, Context, Holds, Heard, NoTerminal, UserTexts, Outcome, Listened,
           StreaksKept, Failing, Followed, Waiting, Opened, Plays;
      ghost var ms, all, told := msgs, full, delivered;
      var after;
      flow, after := FailTurn(err);
      Tail(told, after);
      NoUserTexts();
      HoldsMore(cfg, world, log, t, summaries, all, ms, [], UserTexts(after), UserTexts(after));
      HeardMore(Heard(log) + t.opening, after);
      LogFailure(err, flow, t, shape, after);
    }

    /** The streaks that a failed turn leaves alone. */
    ghost predicate StreaksKept()
      reads `unproductive, `failedArgsWindow, `singleBatchTurns, `log
    {
      && unproductive == |failedArgsWindow| < IncapableLimit(cfg)
      && failedArgsWindow == Streak(log, IncapableLimit(cfg))
      && singleBatchTurns == SingleStreak(log)
    }

    /** Logs a failed turn, which goes on or stops as `flow` says. */
    ghost method LogFailure(err: RunError, flow: Flow, t: Stage, shape: Shape, after: seq<UserMessage>)
      requires Talk() && Context(t, res.turns, res.totals) && delivered == obtained && NoTerminal(Runs())
      requires Wrote(t, UserTexts(after), after) && |after| <= 1 && Decides([])
      requires flow.Continue? <==> after != []
      requires StreaksKept() && emptyRun == 0 && Failing(err, t, shape)
      requires t.opening == Waiting(cfg, world, End(log).drains)
      requires drains == Opened(cfg, End(log)).drains && executions == End(log).executions
      requires Listened(world, End(log).waits, waits, cfg.interactive, after)
      requires res.completionArgs.None? && res.incapableDetail == ""
      requires match flow
               case Continue => cfg.interactive && res.reason.Unset? && !res.completed
               case Stop(None) => cfg.interactive && res.reason.Done? && res.completed && Told(Closing)
               case Stop(Some(e)) =>
                 && !res.completed
                 && if cfg.interactive then e == WaitFailed && res.reason.Canceled? && Told(Cancelling)
                    else e == err && res.reason.Error?
      modifies `log
      ensures Logged(old(log), t, Followed(shape, after))
      ensures Outcome(flow)
    {
      hide Window, BooksFit, RequestsFit, Owed, Context, Heard, Streak, EmptyStreak, SingleStreak, Ongoing,
           NoTerminal, ContractFits, UserTexts, GivesUp, LoopTop, Stopped, Plays, Failing, Followed, Ready, Ends,
           Listened, NextStreak, NextEmpty, NextSingle, Talk, Holds, Waiting, Opened, Runs, EndReason, Unanswered;
      var last := Followed(shape, after);
      FailureReady(err, t, shape, after);
      ContextMeans(t);
      if flow.Continue? {
        GoOn(t, last);
      } else {
        FailureStops(Entry(t, last), flow.err);
        Halt(t, last, flow.err);
      }
    }

    /** The failed turn can be logged, with the message that followed it. */
    lemma FailureReady(err: RunError, t: Stage, shape: Shape, after: seq<UserMessage>)
      requires Talk() && Context(t, res.turns, res.totals)
      requires Wrote(t, UserTexts(after), after) && |after| <= 1 && Failing(err, t, shape) && Decides([])
      requires t.opening == Waiting(cfg, world, End(log).drains)
      requires drains == Opened(cfg, End(log)).drains && executions == End(log).executions
      requires Listened(world, End(log).waits, waits, cfg.interactive, after)
      ensures Ready(t, Followed(shape, after))
      ensures var last := Followed(shape, after);
              && (last.CallFailed? || GivesUp(log, t.attempt, last))
              && (last.CallFailed? <==> err == Transport) && (err == Transport || err == EmptyResponse)
              && NextEmpty(EmptyStreak(log), t.attempt, last) == 0
              && (cfg.interactive && after != [] ==> !Ends(cfg, log, Entry(t, last)))
              && (Unanswered(End(log), Entry(t, last)) <==> cfg.interactive && after == [])
              && NextStreak(Streak(log, IncapableLimit(cfg)), last, IncapableLimit(cfg))
                == Streak(log, IncapableLimit(cfg))
              && NextSingle(SingleStreak(log), last) == SingleStreak(log)
    {
      hide Window, BooksFit, RequestsFit, Owed, Context, Holds, Heard, Streak, EmptyStreak, SingleStreak, Ongoing,
           MustCompact, MustStop, IsEmptyResponse, UserTexts, GivesUp, Plays, Settles;
      ContextMeans(t);
      HoldsMeans(cfg, world, log, t, summaries, full, msgs, UserTexts(after));
      FailureAccounts(err, t, shape, after);
      FailureSettles(err, t, shape, after);
    }

    lemma FailureStops(last: Record, err: Option<RunError>)
      requires Ongoing(cfg, log) && last.to == Here()
      requires last.shape.CallFailed? || GivesUp(log, last.attempt, last.shape)
      requires Unanswered(End(log), last) <==> cfg.interactive
      requires res.completionArgs.None? && NoTerminal(Runs()) && res.incapableDetail == ""
      requires if cfg.interactive then
                 if err.None? then res.reason.Done? && res.completed && Told(Closing)
                 else err == Some(WaitFailed) && res.reason.Canceled? && !res.completed && Told(Cancelling)
               else
                 && res.reason.Error? && !res.completed
                 && err == Some(if last.shape.CallFailed? then Transport else EmptyResponse)
      ensures ContractFits(cfg, world, log + [last], res, judged, err) && Ends(cfg, log, last)
    {
      hide Ongoing, NoTerminal, ContractFits, RunsOf, EmptyStreak, Unanswered;
      EndContract(cfg, world, log, last, res, judged, err);
    }

    /** The same failure, with the human message that answered it. */
    ghost function Followed(shape: Shape, after: seq<UserMessage>): Shape {
      match shape
      case CallFailed(_) => CallFailed(after)
      case EmptyReply(resp, _) => EmptyReply(resp, after)
      case _ => shape
    }

    ghost predicate Failing(err: RunError, t: Stage, shape: Shape)
      reads `log, `streams, `summaries, `replies, `requests
    {
      match shape
      case CallFailed(_) => err == Transport && t.attempt.NotTried? && Lost(t)
      case EmptyReply(resp, _) =>
        err == EmptyResponse && GivesUp(log, t.attempt, shape) && Reviewed(t, resp) && IsEmptyResponse(resp)
      case _ => false
    }

    lemma FailureSettles(err: RunError, t: Stage, shape: Shape, after: seq<UserMessage>)
      requires Failing(err, t, shape)
      requires |after| <= 1 && (!cfg.inbox || !cfg.interactive ==> after == [])
      ensures Settles(cfg, world, log, t.attempt, Followed(shape, after))
      ensures shape.EmptyReply? ==> GivesUp(log, t.attempt, Followed(shape, after))
      ensures NextEmpty(EmptyStreak(log), t.attempt, Followed(shape, after)) == 0
    {
      hide MustCompact, MustStop, IsEmptyResponse, Asked;
    }

    /** A failed turn is accounted for. */
    lemma FailureAccounts(err: RunError, t: Stage, shape: Shape, after: seq<UserMessage>)
      requires Failing(err, t, shape) && AttemptPlays(cfg, world, log, t, summaries) && Decides([])
      requires t.opening == Waiting(cfg, world, End(log).drains)
      requires drains == Opened(cfg, End(log)).drains && executions == End(log).executions
      requires Listened(world, End(log).waits, waits, cfg.interactive, after)
      ensures Plays(cfg, world, log, Entry(t, Followed(shape, after))) && Billed(t, Followed(shape, after))
    {
      hide Listened, MustCompact, MustStop, IsEmptyResponse, AttemptPlays, Asked, Plays, Usages, Posts, Posted,
           TurnPosts, Judged;
      Accounts(t, Followed(shape, after));
    }

    /** An empty reply is retried twice in a row before the turn fails. */
    method HandleEmpty(resp: Response, ghost t: Stage) returns (flow: Flow)
      requires MidTurn(t) && Reviewed(t, resp) && IsEmptyResponse(resp)
      modifies `msgs, `full, `events, `res, `waits, `obtained, `delivered, `log, `emptyRun
      ensures res.turns == old(res.turns)
      ensures old(delivered) <= delivered && Logged(old(log), t, EmptyReply(resp, delivered[|old(delivered)|..]))
      ensures old(emptyRun) < MAX_EMPTY_RESPONSE_RETRIES ==>
                flow == Continue && msgs == old(msgs) && delivered == old(delivered)
      ensures old(emptyRun) >= MAX_EMPTY_RESPONSE_RETRIES ==>
                if cfg.interactive then flow.Continue? <==> delivered != old(delivered)
                else flow == Stop(Some(EmptyResponse)) && res.reason.Error? && msgs == old(msgs)
      ensures Outcome(flow)
    {
      hide Window, BooksFit, RequestsFit, Owed, Context, Holds, Heard, Streak, EmptyStreak, SingleStreak, NoTerminal,
           WithinLimits, IsEmptyResponse, LoopTop, Stopped, ModelCalled, Inputs;
      emptyRun := emptyRun + 1;
      if emptyRun <= MAX_EMPTY_RESPONSE_RETRIES {
        RetryEmpty(resp, t);
        Tail(delivered, []);
        HeardMore(delivered, []);
        flow := Continue;
      } else {
        flow := Fail(EmptyResponse, t, EmptyReply(resp, []));
      }
    }

    method RetryEmpty(resp: Response, ghost t: Stage)
      requires Talk() && Live() && Context(t, res.turns, res.totals) && Wrote(t, [], []) && delivered == obtained
      requires MemoryNext(t.attempt, EmptyReply(resp, [])) && emptyRun > 0
      requires Reviewed(t, resp) && IsEmptyResponse(resp) && Inputs(t, 0, 0, [])
      modifies `events, `log
      ensures Logged(old(log), t, EmptyReply(resp, []))
      ensures LoopTop()
    {
      hide Window, BooksFit, RequestsFit, Owed, Context, Wrote, NoTerminal, IsEmptyResponse, MemoryNext, LoopTop,
           Ready, Ends, Reviewed, Inputs, Events.ViewOf;
      Note(Events.StateChange(Events.EmptyRetry(emptyRun)));
      RetryReady(resp, t);
      GoOn(t, EmptyReply(resp, []));
    }

    lemma RetryReady(resp: Response, t: Stage)
      requires Talk() && Context(t, res.turns, res.totals) && Wrote(t, [], [])
      requires MemoryNext(t.attempt, EmptyReply(resp, [])) && emptyRun > 0
      requires Reviewed(t, resp) && IsEmptyResponse(resp) && Inputs(t, 0, 0, [])
      ensures Ready(t, EmptyReply(resp, [])) && !Ends(cfg, log, Entry(t, EmptyReply(resp, [])))
    {
      hide Talk, Context, Holds, Heard, MustCompact, MustStop, IsEmptyResponse, UserTexts, MemoryNext, GivesUp, Plays,
           ModelCalled, Kept, Usages, TurnPosts, Billed, Before, Written, AttemptPlays;
      NoUserTexts();
      NotGivingUp(resp, t.attempt);
      HoldsMeans(cfg, world, log, t, summaries, full, msgs, []);
      Accounts(t, EmptyReply(resp, []));
    }

    lemma NotGivingUp(resp: Response, attempt: Attempt)
      requires MemoryNext(attempt, EmptyReply(resp, [])) && emptyRun > 0
      ensures !GivesUp(log, attempt, EmptyReply(resp, []))
    {
    }

    // ----- Turns without tool calls -----

    /** Adds the reply to the conversation. */
    method SayReply(resp: Response, ghost t: Stage)
      requires Chat() && Owing([]) && Wrote(t, [], [])
      modifies `msgs, `full, `emptyRun
      ensures Chat() && Owing(Ids(resp.calls)) && Wrote(t, [AssistantMessage(cfg, resp)], [])
      ensures emptyRun == 0 && msgs == old(msgs) + [AssistantMessage(cfg, resp)]
      ensures Transcript.Speaks(cfg, resp, AssistantMessage(cfg, resp))
    {
      hide Window, Owed, Holds, Heard, AssistantMessage, Settle, Waiting;
      emptyRun := 0;
      SpeaksQuietly(msgs, resp);
      Transcript.ReplySpeaks(cfg, resp);
      HoldsMore(cfg, world, log, t, summaries, full, msgs, [], [AssistantMessage(cfg, resp)],
                [AssistantMessage(cfg, resp)]);
      Append(AssistantMessage(cfg, resp));
    }

    lemma SpeaksQuietly(ms: seq<Message>, resp: Response)
      ensures !cfg.replayReasoning ==> AssistantMessage(cfg, resp).details.NoDetails?
      ensures Owed(ms) == Owes([]) ==> Settle(Owed(ms), AssistantMessage(cfg, resp)) == Owes(Ids(resp.calls))
      ensures [] + [AssistantMessage(cfg, resp)] == [AssistantMessage(cfg, resp)]
    {
    }

    /** A reply without tool calls: it ends a run that has no inbox, and otherwise waits for the next
        human message. */
    method HandleSpoken(resp: Response, ghost t: Stage) returns (flow: Flow)
      requires MidTurn(t) && Reviewed(t, resp) && !IsEmptyResponse(resp) && resp.calls == []
      modifies `msgs, `full, `events, `res, `drains, `waits, `obtained, `delivered, `log, `emptyRun, `singleBatchTurns
      ensures res.turns == old(res.turns)
      ensures old(delivered) <= delivered && Logged(old(log), t, Spoke(resp, delivered[|old(delivered)|..]))
      ensures msgs == old(msgs) + [AssistantMessage(cfg, resp)] + UserTexts(delivered[|old(delivered)|..])
      ensures !cfg.inbox ==> flow == Stop(None) && res.reason.Done? && res.completed && delivered == old(delivered)
      ensures cfg.inbox ==> (flow.Continue? <==> delivered != old(delivered))
      ensures Outcome(flow)
    {
      hide Window, BooksFit, RequestsFit, Owed, Context, Holds, Heard, Streak, EmptyStreak, SingleStreak, NoTerminal,
           Outcome, Reviewed, Inputs, AssistantMessage, UserTexts, IsEmptyResponse;
      SayReply(resp, t);
      singleBatchTurns := 0;
      if !cfg.inbox {
        Tail(delivered, []);
        HeardMore(delivered, []);
        flow := EndSpoken(resp, t);
      } else {
        flow := ListenAfter(resp, t);
      }
    }

    /** The final answer of a run without an inbox. */
    method EndSpoken(resp: Response, ghost t: Stage) returns (flow: Flow)
      requires Talk() && Live() && Context(t, res.turns, res.totals) && delivered == obtained
      requires Wrote(t, [AssistantMessage(cfg, resp)], []) && Inputs(t, 0, 0, [])
      requires Reviewed(t, resp) && !IsEmptyResponse(resp) && resp.calls == [] && !cfg.inbox
      modifies `res, `events, `log
      ensures res.turns == old(res.turns)
      ensures Logged(old(log), t, Spoke(resp, []))
      ensures msgs == old(msgs) + UserTexts([])
      ensures flow == Stop(None) && res.reason.Done? && res.completed
      ensures Outcome(flow)
    {
      hide Window, BooksFit, RequestsFit, Owed, Context, Holds, Heard, NoTerminal, ContractFits, LoopTop, Stopped,
           MustCompact, MustStop, IsEmptyResponse, AssistantMessage, UserTexts, Plays, AttemptPlays, Conversation,
           Asked, Kept, End, Seed, Bare, Events.ViewOf, SysCount, CarriesReasoning, Written, TurnPosts, Judged;
      Finish();
      NoUserTexts();
      ContextMeans(t);
      HoldsMeans(cfg, world, log, t, summaries, full, msgs, [AssistantMessage(cfg, resp)]);
      assert [AssistantMessage(cfg, resp)] + [] == [AssistantMessage(cfg, resp)];
      Accounts(t, Spoke(resp, []));
      EndContract(cfg, world, log, Entry(t, Spoke(resp, [])), res, judged, None);
      Halt(t, Spoke(resp, []), None);
      return Stop(None);
    }

    /** Takes the human messages already waiting, or blocks for one. */
    method NextInput() returns (outcome: Awaited, after: seq<UserMessage>)
      requires Talk() && delivered == obtained
      modifies `events, `msgs, `full, `delivered, `waits, `drains, `obtained
      ensures Talk() && delivered == obtained
      ensures outcome.Resumed? <==> after != []
      ensures drains == old(drains) + 1
      ensures if world.drain(old(drains)) != [] then after == world.drain(old(drains)) && waits == old(waits)
              else Listened(world, old(waits), waits, true, after)
      ensures !outcome.Resumed? ==> Told(outcome) && waits > old(waits)
      ensures full == old(full) + UserTexts(after)
      ensures msgs == old(msgs) + UserTexts(after)
      ensures delivered == old(delivered) + after
    {
      hide Window, BooksFit, Owed, UserTexts;
      after := Drain();
      if |after| > 0 {
        HearAll(after);
        return Resumed, after;
      }
      outcome, after := AwaitNext();
    }

    /** The last wait told the run to stop this way. */
    ghost predicate Told(outcome: Awaited)
      reads `waits
    {
      waits > 0 && world.wait(waits - 1) == if outcome.Closing? then InboxClosed else WaitError
    }

    method ListenAfter(resp: Response, ghost t: Stage) returns (flow: Flow)
      requires Talk() && Live() && Context(t, res.turns, res.totals) && delivered == obtained
      requires Wrote(t, [AssistantMessage(cfg, resp)], []) && Inputs(t, 0, 0, [])
      requires Reviewed(t, resp) && !IsEmptyResponse(resp) && resp.calls == [] && cfg.inbox
      requires unproductive == |failedArgsWindow| < IncapableLimit(cfg) && emptyRun == 0 && singleBatchTurns == 0
      requires failedArgsWindow == Streak(log, IncapableLimit(cfg))
      modifies `msgs, `full, `events, `res, `drains, `waits, `obtained, `delivered, `log
      ensures res.turns == old(res.turns)
      ensures old(delivered) <= delivered && Logged(old(log), t, Spoke(resp, delivered[|old(delivered)|..]))
      ensures msgs == old(msgs) + UserTexts(delivered[|old(delivered)|..])
      ensures flow.Continue? <==> delivered != old(delivered)
      ensures Outcome(flow)
    {
      hide Window, BooksFit, RequestsFit, Owed, Context, Holds, Heard, NoTerminal, Outcome, MustCompact, MustStop,
           IsEmptyResponse, AssistantMessage, UserTexts, Plays, AttemptPlays, Streak, Listened, Told,
           Events.Uncounted, Reviewed, ModelCalled, Asked, Conversation, Kept, Seed, Bare, End, Events.ViewOf,
           SysCount, CarriesReasoning, Calls, TurnPosts, SummaryUsages, Ready, Decided;
      ghost var ms, all, told := msgs, full, delivered;
      var outcome, after := NextInput();
      if outcome.Cancelling? {
        Note(Events.StateChange(Events.StopCanceled));
      }
      Tail(told, after);
      HeardMore(Heard(log) + t.opening, after);
      HoldsMore(cfg, world, log, t, summaries, all, ms, [AssistantMessage(cfg, resp)], UserTexts(after),
                [AssistantMessage(cfg, resp)] + UserTexts(after));
      SpokenReady(resp, t, after);
      flow := Conclude(outcome, t, Spoke(resp, after));
    }

    lemma SpokenReady(resp: Response, t: Stage, after: seq<UserMessage>)
      requires Talk() && Context(t, res.turns, res.totals)
      requires Wrote(t, [AssistantMessage(cfg, resp)] + UserTexts(after), after)
      requires Reviewed(t, resp) && !IsEmptyResponse(resp) && resp.calls == [] && cfg.inbox
      requires t.opening == Waiting(cfg, world, End(log).drains)
      requires drains == Opened(cfg, End(log)).drains + 1 && executions == End(log).executions && Decides([])
      requires var found := world.drain(Opened(cfg, End(log)).drains);
               if found != [] then after == found && waits == End(log).waits
               else Listened(world, End(log).waits, waits, true, after)
      ensures Ready(t, Spoke(resp, after))
      ensures after != [] ==> !Ends(cfg, log, Entry(t, Spoke(resp, after)))
    {
      hide Window, BooksFit, RequestsFit, Owed, Context, Heard, MustCompact, MustStop, IsEmptyResponse,
           AssistantMessage, UserTexts, Plays, AttemptPlays, Listened, Asked, Conversation, Kept, Written, Before,
           Usages, Posts, Posted, TurnPosts, SummaryUsages, Judged, MayStart, Cost, Ongoing, Events.ViewOf, SysCount,
           RunsOf, End, Seed, Holds;
      HoldsMeans(cfg, world, log, t, summaries, full, msgs, [AssistantMessage(cfg, resp)] + UserTexts(after));
      Accounts(t, Spoke(resp, after));
    }

    /** Acts on what the human did: goes on, completes the run when the inbox closed, or cancels it. */
    method Conclude(outcome: Awaited, ghost t: Stage, ghost shape: Shape) returns (flow: Flow)
      requires Ready(t, shape) && Live() && delivered == obtained
      requires MemoryNext(t.attempt, shape) && !shape.CutOff?
      requires if outcome.Resumed? then !Ends(cfg, log, Entry(t, shape))
               else Told(outcome) && Unanswered(End(log), Entry(t, shape))
      requires shape.Batch? ==> !Ended(shape.verdicts)
      modifies `res, `events, `log
      ensures res.turns == old(res.turns)
      ensures Logged(old(log), t, shape)
      ensures flow.Continue? <==> outcome.Resumed?
      ensures Outcome(flow)
    {
      hide Plays, LoopTop, Stopped, Window, BooksFit, RequestsFit, Owed, Context, NoTerminal, ContractFits, Wrote,
           Settles, MemoryNext, Ends, Usages, Posts, Posted, TurnPosts, SummaryUsages, ModelPosts, RunsOf, Judged,
           Billed, MayStart, Cost, Unanswered, Decides, Calls, Conversation, Kept, Asked, Written, Before,
           AttemptPlays, StageOf, WrapUps, BatchHints, SysCount, End, Seed, Bare, Events.ViewOf, NextStreak,
           NextEmpty, Called, GraceText, KeepRecent;
      match outcome {
        case Resumed =>
          GoOn(t, shape);
          return Continue;
        case Closing =>
          Finish();
          Leave(t, shape, None);
          return Stop(None);
        case Cancelling =>
          Close(res.(reason := Canceled));
          Leave(t, shape, Some(WaitFailed));
          return Stop(Some(WaitFailed));
      }
    }

    /** Logs the last turn of a run that the human ended. */
    ghost method Leave(t: Stage, shape: Shape, err: Option<RunError>)
      requires Ready(t, shape) && delivered == obtained && Unanswered(End(log), Entry(t, shape)) && !shape.CutOff?
      requires shape.Batch? ==> !Ended(shape.verdicts)
      requires res.completionArgs.None? && NoTerminal(Runs()) && res.incapableDetail == ""
      requires if err.None? then res.reason.Done? && res.completed && Told(Closing)
               else err == Some(WaitFailed) && res.reason.Canceled? && !res.completed && Told(Cancelling)
      modifies `log
      ensures Logged(old(log), t, shape)
      ensures Stopped(err)
    {
      hide Plays, Stopped, Talk, Context, NoTerminal, ContractFits, Wrote, Settles, Billed, RunsOf, Ended, Unanswered,
           DetailFits, EndReason, StopError, Ends;
      ContextMeans(t);
      HumanEnded(Entry(t, shape), err);
      EndContract(cfg, world, log, Entry(t, shape), res, judged, err);
      Halt(t, shape, err);
    }

    /** The human ended the run in this turn. */
    lemma HumanEnded(r: Record, err: Option<RunError>)
      requires Unanswered(End(log), r) && !r.shape.CutOff? && r.to.waits == waits
      requires if err.None? then Told(Closing) else err == Some(WaitFailed) && Told(Cancelling)
      ensures EndReason(world, End(log), r) == (if err.None? then Done else Canceled)
      ensures StopError([r], EndReason(world, End(log), r)) == err && Ends(cfg, log, r)
    {
      hide Unanswered, Ended, GivesUp, Trips;
    }

    // ----- Turns with tool calls -----

    /** A reply with tool calls. */
    method HandleBatch(resp: Response, ghost t: Stage) returns (flow: Flow)
      requires MidTurn(t) && Reviewed(t, resp) && !IsEmptyResponse(resp) && resp.calls != []
      modifies `msgs, `full, `events, `res, `judged, `executions, `drains, `waits, `obtained, `delivered, `log,
               `unproductive, `failedArgsWindow, `emptyRun, `singleBatchTurns
      ensures res.turns == old(res.turns)
      ensures |log| == |old(log)| + 1 && LastShape().Batch?
      ensures Logged(old(log), t, Batch(resp, LastShape().verdicts, LastShape().after))
      ensures Ended(LastShape().verdicts) ==> flow == Stop(None) && res.reason.Done? && res.completionArgs.Some?
      ensures Outcome(flow)
    {
      hide Outcome, Talk, Context, Wrote, Live, BatchAnswered, BatchReported, Streak, EmptyStreak, SingleStreak,
           Reviewed, IsEmptyResponse, NoTerminal, EndedBy, Ended;
      var b := AnswerBatch(resp, t);
      BatchReportMeans(resp, b);
      if b.terminated {
        flow := EndBatch(resp, b, t);
      } else {
        flow := WeighBatch(resp, b, t);
      }
    }

    /** The shape of the newest turn. */
    ghost function LastShape(): Shape
      requires log != []
      reads `log
    {
      log[|log| - 1].shape
    }

    lemma BatchReportMeans(resp: Response, b: BatchResult)
      requires BatchReported(resp, b)
      ensures b.terminated == Ended(b.verdicts) && b.capable == Capable(b.verdicts)
      ensures b.terminated ==> b.pending == [] && b.completionArgs.Some?
    {
    }

    /** Adds the reply and the answers to all its calls. */
    method AnswerBatch(resp: Response, ghost t: Stage) returns (b: BatchResult)
      requires Talk() && Live() && Context(t, res.turns, res.totals) && Wrote(t, [], []) && delivered == obtained
      requires Reviewed(t, resp) && !IsEmptyResponse(resp) && resp.calls != [] && Inputs(t, 0, 0, [])
      modifies `msgs, `full, `events, `res, `executions, `judged, `drains, `obtained, `emptyRun
      ensures BatchAnswered(t, resp, b) && BatchReported(resp, b)
      ensures if b.terminated then EndedBy(Runs()) else Live()
      ensures emptyRun == 0 && res.turns == old(res.turns)
      ensures |b.verdicts| == |resp.calls|
      ensures msgs == old(msgs) + [AssistantMessage(cfg, resp)] + Answers(world, resp.calls, b.verdicts)
      ensures Transcript.Speaks(cfg, resp, msgs[|old(msgs)|])
      ensures Transcript.RelaysAll(world, resp.calls, b.verdicts, msgs[|old(msgs)| + 1..])
    {
      hide Reviewed, ModelCalled, BatchHeard, Polls, Executions, Played, FoundNothing, Stash, Interrupted, Window,
           BooksFit, RequestsFit, Owed, Context, Holds, Heard, NoTerminal, EndedBy, IsEmptyResponse, AssistantMessage,
           Answers, BatchFits, Capable, UsedLookup, RawArgs, Images, Ended, TerminalArgs, CountingAll, Waiting,
           RunsOf, Decided, Calls, Conversation, Kept, Asked, Written, Before, AttemptPlays, Cost, Usages, Posts,
           Posted, Judged, TurnPosts, SummaryUsages, MayStart, StageOf, WrapUps, BatchHints, SysCount, End, Seed,
           Bare, Events.ViewOf, Unanswered, NextStreak, NextEmpty, Called, ModelPosts, GraceText, KeepRecent,
           Transcript.Speaks, Transcript.RelaysAll;
      SayReply(resp, t);
      ghost var asked, all, before := msgs, full, res;
      b := RunBatch(resp.calls);
      AllAnswered(asked, resp.calls, b.verdicts);
      CountingKeeps(before, b.verdicts);
      HoldsMore(cfg, world, log, t, summaries, all, asked, [AssistantMessage(cfg, resp)],
                Answers(world, resp.calls, b.verdicts),
                [AssistantMessage(cfg, resp)] + Answers(world, resp.calls, b.verdicts));
      BatchHears(Opened(cfg, End(log)), resp, b);
    }

    lemma BatchHears(from: Cursor, resp: Response, b: BatchResult)
      requires var polls := Polls(cfg, |resp.calls|, b.verdicts);
               FoundNothing(world, from.drains, polls) && b.pending == Stash(world, from.drains, polls)
      requires Played(world, from.executions, b.verdicts) && (b.pending != [] <==> Interrupted(b.verdicts))
      ensures BatchHeard(from, resp, b)
    {
    }

    lemma AllAnswered(ms: seq<Message>, calls: seq<ToolCall>, vs: seq<Verdict>)
      requires |vs| == |calls|
      ensures Owed(ms) == Owes(Ids(calls)) ==> Owed(ms + Answers(world, calls, vs)) == Owes([])
    {
      hide Owed, Answers;
      if Owed(ms) == Owes(Ids(calls)) {
        AnswersSettle(ms, world, calls, vs);
        assert Ids(calls)[|vs|..] == [];
      }
    }

    /** A batch turn whose images, if any, and last human messages were added can be logged. */
    lemma BatchReady(resp: Response, b: BatchResult, t: Stage, after: seq<UserMessage>)
      requires Talk() && Context(t, res.turns, res.totals)
      requires BatchReported(resp, b) && Reviewed(t, resp) && !IsEmptyResponse(resp) && resp.calls != []
      requires Wrote(t, Afterwards(cfg, world, Batch(resp, b.verdicts, after)), after) && (!cfg.inbox ==> after == [])
      requires BatchHeard(Opened(cfg, End(log)), resp, b)
      requires t.opening == Waiting(cfg, world, End(log).drains)
      requires drains == Opened(cfg, End(log)).drains + Polls(cfg, |resp.calls|, b.verdicts)
      requires executions == End(log).executions + Executions(b.verdicts)
      requires |b.verdicts| == |resp.calls| && Decides(Decided(resp.calls, b.verdicts))
      requires BatchEnds(b, after)
      ensures Ready(t, Batch(resp, b.verdicts, after))
    {
      hide Window, BooksFit, RequestsFit, Owed, Context, Heard, IsEmptyResponse, Afterwards, Plays, Settles,
           BatchHeard, BatchEnds, Polls, Executions, BatchFits, Capable, UsedLookup, RawArgs, Images, Ended,
           TerminalArgs;
      HoldsMeans(cfg, world, log, t, summaries, full, msgs, Afterwards(cfg, world, Batch(resp, b.verdicts, after)));
      BatchSettles(resp, b, t.attempt, after);
      BatchAccounts(resp, b, t, after);
    }

    /** Where the last human messages of a batch turn came from. */
    ghost predicate BatchEnds(b: BatchResult, after: seq<UserMessage>)
      reads `log, `waits
    {
      var full := !Capable(b.verdicts) && |Streak(log, IncapableLimit(cfg))| + 1 >= IncapableLimit(cfg);
      if Ended(b.verdicts) || (full && !cfg.interactive) then Listened(world, End(log).waits, waits, false, after)
      else if full && b.pending == [] then Listened(world, End(log).waits, waits, true, after)
      else after == b.pending && waits == End(log).waits
    }

    lemma BatchAccounts(resp: Response, b: BatchResult, t: Stage, after: seq<UserMessage>)
      requires ModelCalled(t, Reply(resp)) && AttemptPlays(cfg, world, log, t, summaries)
      requires BatchHeard(Opened(cfg, End(log)), resp, b)
      requires t.opening == Waiting(cfg, world, End(log).drains)
      requires drains == Opened(cfg, End(log)).drains + Polls(cfg, |resp.calls|, b.verdicts)
      requires executions == End(log).executions + Executions(b.verdicts)
      requires |b.verdicts| == |resp.calls| && Decides(Decided(resp.calls, b.verdicts))
      requires BatchEnds(b, after)
      ensures Plays(cfg, world, log, Entry(t, Batch(resp, b.verdicts, after)))
      ensures Billed(t, Batch(resp, b.verdicts, after))
    {
      hide Polls, Executions, Played, FoundNothing, Stash, Interrupted, Ended, AttemptPlays, Asked, Plays, Streak,
           Capable, Decided, Usages, Judged, Posted, Waiting;
      Accounts(t, Batch(resp, b.verdicts, after));
    }

    lemma BatchSettles(resp: Response, b: BatchResult, attempt: Attempt, after: seq<UserMessage>)
      requires BatchReported(resp, b) && WithinLimits(resp, attempt) && !IsEmptyResponse(resp) && resp.calls != []
      requires !cfg.inbox ==> after == []
      ensures Settles(cfg, world, log, attempt, Batch(resp, b.verdicts, after))
    {
      hide MustCompact, MustStop, IsEmptyResponse, BatchFits, Capable, UsedLookup, RawArgs, Images, Ended,
           TerminalArgs;
    }

    lemma BatchMeans(t: Stage, resp: Response, b: BatchResult)
      requires BatchAnswered(t, resp, b)
      ensures Talk() && Context(t, res.turns, res.totals)
      ensures BatchReported(resp, b) && Reviewed(t, resp) && !IsEmptyResponse(resp) && resp.calls != []
      ensures BatchHeard(Opened(cfg, End(log)), resp, b)
      ensures Inputs(t, Polls(cfg, |resp.calls|, b.verdicts), Executions(b.verdicts), Decided(resp.calls, b.verdicts))
      ensures Wrote(t, [AssistantMessage(cfg, resp)] + Answers(world, resp.calls, b.verdicts), [])
      ensures obtained == delivered + b.pending && emptyRun == 0
    {
    }

    /** Nothing is added after the answers of a batch that surfaced no images. */
    lemma BatchSilent(resp: Response, vs: seq<Verdict>, after: seq<UserMessage>)
      requires |vs| == |resp.calls| && ImageMessages(vs) == []
      ensures Afterwards(cfg, world, Batch(resp, vs, after))
           == [AssistantMessage(cfg, resp)] + Answers(world, resp.calls, vs) + UserTexts(after)
      ensures [AssistantMessage(cfg, resp)] + Answers(world, resp.calls, vs) + UserTexts([])
           == [AssistantMessage(cfg, resp)] + Answers(world, resp.calls, vs)
    {
      hide Answers, ImageMessages, AssistantMessage;
    }

    /** A terminal tool succeeded: the run is complete. */
    method EndBatch(resp: Response, b: BatchResult, ghost t: Stage) returns (flow: Flow)
      requires BatchAnswered(t, resp, b) && b.terminated && EndedBy(Runs())
      modifies `res, `events, `log
      ensures res.turns == old(res.turns)
      ensures flow == Stop(None) && res.completed && res.reason.Done? && res.completionArgs == b.completionArgs
      ensures Logged(old(log), t, Batch(resp, b.verdicts, []))
      ensures Outcome(flow)
    {
      hide Window, BooksFit, RequestsFit, Owed, Context, Holds, Heard, EndedBy, ContractFits, Stopped, LoopTop,
           IsEmptyResponse, AssistantMessage, UserTexts, Answers, BatchFits, Capable, UsedLookup, RawArgs, Images,
           Ended, TerminalArgs, ImageMessages, Afterwards, BatchHeard, Reviewed, Polls, Executions, Listened, Waiting,
           Conversation, Usages, Billed, Decides, Calls, Asked, Plays, Events.ViewOf;
      Close(res.(completionArgs := b.completionArgs));
      Finish();
      ContextMeans(t);
      EndedSilently(b.verdicts);
      BatchSilent(resp, b.verdicts, []);
      EndedListens(b);
      BatchReady(resp, b, t, []);
      EndContract(cfg, world, log, Entry(t, Batch(resp, b.verdicts, [])), res, judged, None);
      Halt(t, Batch(resp, b.verdicts, []), None);
      return Stop(None);
    }

    lemma EndedSilently(vs: seq<Verdict>)
      ensures Ended(vs) ==> ImageMessages(vs) == []
    {
    }

    lemma EndedListens(b: BatchResult)
      requires Ended(b.verdicts) && waits == End(log).waits
      ensures BatchEnds(b, [])
    {
    }

    /** A batch after which the run may go on: the streaks are updated, and an unproductive streak
        that reached its threshold is dealt with. */
    method WeighBatch(resp: Response, b: BatchResult, ghost t: Stage) returns (flow: Flow)
      requires BatchAnswered(t, resp, b) && BatchReported(resp, b) && !b.terminated && Live() && emptyRun == 0
      requires StreaksKept()
      modifies `msgs, `full, `events, `res, `waits, `obtained, `delivered, `log, `unproductive, `failedArgsWindow,
               `singleBatchTurns
      ensures res.turns == old(res.turns)
      ensures |log| == |old(log)| + 1 && LastShape().Batch?
      ensures Logged(old(log), t, Batch(resp, b.verdicts, LastShape().after))
      ensures if b.capable || old(unproductive) + 1 < IncapableLimit(cfg)
              then flow == Continue && LastShape().after == b.pending
              else Tripped(b, flow)
      ensures Outcome(flow)
    {
      hide Outcome, BatchAnswered, Streak, SingleStreak, Capable, UsedLookup, RawArgs, Images, Ended, TerminalArgs,
           BatchFits, Tripped, Live;
      if |resp.calls| == 1 && b.readOnly {
        singleBatchTurns := singleBatchTurns + 1;
      } else {
        singleBatchTurns := 0;
      }
      if b.capable {
        unproductive := 0;
        failedArgsWindow := [];
      } else {
        unproductive := unproductive + 1;
        failedArgsWindow := failedArgsWindow + [b.failedArgs];
        if unproductive >= IncapableLimit(cfg) {
          flow := Trip(resp, b, t);
          return;
        }
      }
      flow := DeliverBatch(resp, b, t);
    }

    /** How a full unproductive streak is dealt with. A run that is not interactive stops as incapable;
        an interactive one starts the count over and goes on with what the human said, during the batch
        or after it. */
    ghost predicate Tripped(b: BatchResult, flow: Flow)
      requires log != [] && LastShape().Batch?
      reads `log, `res, `unproductive, `failedArgsWindow
    {
      if !cfg.interactive then flow == Stop(None) && res.reason.Incapable? && LastShape().after == []
      else
        && unproductive == 0 && failedArgsWindow == []
        && (b.pending != [] ==> LastShape().after == b.pending)
        && (flow.Continue? <==> LastShape().after != [])
    }

    /** Delivers the images the tools surfaced, then what the human said meanwhile. */
    method DeliverBatch(resp: Response, b: BatchResult, ghost t: Stage) returns (flow: Flow)
      requires BatchAnswered(t, resp, b) && !b.terminated && Live()
      requires Trips(log, Batch(resp, b.verdicts, b.pending), IncapableLimit(cfg)) ==>
                 cfg.interactive && b.pending != []
      requires MemoryNext(t.attempt, Batch(resp, b.verdicts, b.pending))
      modifies `msgs, `full, `events, `delivered, `log
      ensures msgs == old(msgs) + ImageMessages(b.verdicts) + UserTexts(b.pending)
      ensures delivered == old(delivered) + b.pending
      ensures Logged(old(log), t, Batch(resp, b.verdicts, b.pending))
      ensures flow == Continue
      ensures Outcome(flow)
    {
      hide BatchAnswered, Window, BooksFit, RequestsFit, Owed, Context, Holds, Heard, NoTerminal, LoopTop,
           IsEmptyResponse, AssistantMessage, UserTexts, Answers, BatchFits, Capable, UsedLookup, RawArgs, Images,
           Ended, TerminalArgs, ImageMessages, BatchHeard, Reviewed, Polls, Executions, Waiting, MemoryNext, Trips,
           BatchEnds, Ends, ModelCalled, End, Events.ViewOf, Calls, Conversation, Kept, Asked, Written, Before,
           AttemptPlays, RunsOf, Cost, Usages, Posts, Posted, Judged, TurnPosts, SummaryUsages, MayStart, StageOf,
           WrapUps, BatchHints, SysCount, Seed, Bare, Unanswered, NextStreak, NextEmpty, GraceText, Ready, Decides;
      BatchMeans(t, resp, b);
      ghost var ms, all := msgs, full;
      DeliverImages(b);
      HearAll(b.pending);
      DeliveredHolds(resp, b, t, all, ms);
      HeardMore(Heard(log) + t.opening, b.pending);
      PendingEnds(resp, b);
      BatchReady(resp, b, t, b.pending);
      GoesOn(resp, b, t, b.pending);
      GoOn(t, Batch(resp, b.verdicts, b.pending));
      return Continue;
    }

    lemma DeliveredHolds(resp: Response, b: BatchResult, t: Stage, all: seq<Message>, ms: seq<Message>)
      requires |b.verdicts| == |resp.calls|
      requires Holds(cfg, world, log, t, summaries, all, ms,
                     [AssistantMessage(cfg, resp)] + Answers(world, resp.calls, b.verdicts))
      requires full == all + ImageMessages(b.verdicts) + UserTexts(b.pending)
      requires msgs == ms + ImageMessages(b.verdicts) + UserTexts(b.pending)
      ensures Holds(cfg, world, log, t, summaries, full, msgs,
                    Afterwards(cfg, world, Batch(resp, b.verdicts, b.pending)))
    {
      hide Holds, AssistantMessage, Answers, ImageMessages, UserTexts;
      var said := [AssistantMessage(cfg, resp)] + Answers(world, resp.calls, b.verdicts);
      var images := ImageMessages(b.verdicts);
      HoldsMore(cfg, world, log, t, summaries, all, ms, said, images, said + images);
      HoldsMore(cfg, world, log, t, summaries, all + images, ms + images, said + images, UserTexts(b.pending),
                said + images + UserTexts(b.pending));
    }

    lemma PendingEnds(resp: Response, b: BatchResult)
      requires !Ended(b.verdicts) && waits == End(log).waits
      requires Trips(log, Batch(resp, b.verdicts, b.pending), IncapableLimit(cfg)) ==>
                 cfg.interactive && b.pending != []
      ensures BatchEnds(b, b.pending)
    {
    }

    lemma GoesOn(resp: Response, b: BatchResult, t: Stage, after: seq<UserMessage>)
      requires !Ended(b.verdicts)
      requires Trips(log, Batch(resp, b.verdicts, after), IncapableLimit(cfg)) ==> cfg.interactive
      requires after != [] || waits == End(log).waits
      ensures !Ends(cfg, log, Entry(t, Batch(resp, b.verdicts, after)))
    {
    }

    method DeliverImages(b: BatchResult)
      requires Talk() && b.images == Images(b.verdicts) && !Ended(b.verdicts)
      modifies `msgs, `full, `events
      ensures Talk()
      ensures full == old(full) + ImageMessages(b.verdicts) && msgs == old(msgs) + ImageMessages(b.verdicts)
    {
      hide Window, BooksFit, Owed, Images, Ended, ImageMessages;
      ImagesWritten(b);
      if |b.images| > 0 {
        Append(ImageMessage(b.images));
        Note(Events.StateChange(Events.ToolImages(|b.images|)));
      } else {
        assert full == full + [] && msgs == msgs + [];
      }
    }

    lemma ImagesWritten(b: BatchResult)
      requires b.images == Images(b.verdicts) && !Ended(b.verdicts)
      ensures ImageMessages(b.verdicts) == if |b.images| > 0 then [ImageMessage(b.images)] else []
      ensures !HasReasoningDetails(ImageMessage(b.images))
      ensures Settle(Owes([]), ImageMessage(b.images)) == Owes([])
    {
    }

    method Diagnose() returns (pattern: Pattern)
      ensures DetailFits(failedArgsWindow, world.concatenated, Detail(pattern))
    {
      pattern := ClassifyIncapable(failedArgsWindow, world.concatenated);
    }

    /** The unproductive streak reached its threshold: an interactive run starts the count over and
        takes the next human message; any other run stops as incapable. */
    method Trip(resp: Response, b: BatchResult, ghost t: Stage) returns (flow: Flow)
      requires BatchAnswered(t, resp, b) && BatchReported(resp, b) && !b.terminated && !b.capable && Live()
      requires failedArgsWindow == Streak(log, IncapableLimit(cfg)) + [b.failedArgs]
      requires |failedArgsWindow| >= IncapableLimit(cfg) && emptyRun == 0
      requires singleBatchTurns == NextSingle(SingleStreak(log), Batch(resp, b.verdicts, []))
      modifies `msgs, `full, `events, `res, `waits, `obtained, `delivered, `log, `unproductive, `failedArgsWindow
      ensures res.turns == old(res.turns)
      ensures |log| == |old(log)| + 1 && LastShape().Batch?
      ensures Logged(old(log), t, Batch(resp, b.verdicts, LastShape().after))
      ensures Tripped(b, flow)
      ensures Outcome(flow)
    {
      hide BatchAnswered, Outcome, Live, Streak, SingleStreak, NextSingle, DetailFits, Detail, Capable, UsedLookup,
           RawArgs, Images, Ended, TerminalArgs, BatchFits;
      var pattern := Diagnose();
      ReportTrip(resp, b, t);
      if cfg.interactive {
        Restarts(resp, b, b.pending);
        unproductive := 0;
        failedArgsWindow := [];
        if |b.pending| > 0 {
          flow := DeliverBatch(resp, b, t);
        } else {
          flow := Recover(resp, b, t);
        }
      } else {
        flow := Declare(resp, b, pattern, t);
      }
    }

    method ReportTrip(resp: Response, b: BatchResult, ghost t: Stage)
      requires BatchAnswered(t, resp, b)
      modifies `events
      ensures BatchAnswered(t, resp, b)
    {
      hide Window, BooksFit, Owed, Context, Wrote, BatchReported, Reviewed, IsEmptyResponse;
      Note(Events.ErrorEvent);
    }

    lemma Restarts(resp: Response, b: BatchResult, after: seq<UserMessage>)
      requires !Capable(b.verdicts) && b.images == Images(b.verdicts)
      requires |Streak(log, IncapableLimit(cfg))| + 1 >= IncapableLimit(cfg)
      ensures var shape := Batch(resp, b.verdicts, after);
              && NextStreak(Streak(log, IncapableLimit(cfg)), shape, IncapableLimit(cfg)) == []
              && NextSingle(SingleStreak(log), shape) == NextSingle(SingleStreak(log), Batch(resp, b.verdicts, []))
              && Trips(log, shape, IncapableLimit(cfg))
      ensures b.images == [] && ImageMessages(b.verdicts) == []
    {
      NoImagesWithoutCapability(b.verdicts);
    }

    /** An interactive run waits for the human after an unproductive streak. */
    method Recover(resp: Response, b: BatchResult, ghost t: Stage) returns (flow: Flow)
      requires BatchAnswered(t, resp, b) && !b.terminated && !b.capable && Live()
      requires cfg.interactive && b.pending == []
      requires |Streak(log, IncapableLimit(cfg))| + 1 >= IncapableLimit(cfg)
      requires unproductive == 0 && failedArgsWindow == []
      requires singleBatchTurns == NextSingle(SingleStreak(log), Batch(resp, b.verdicts, []))
      modifies `msgs, `full, `events, `res, `waits, `obtained, `delivered, `log
      ensures res.turns == old(res.turns)
      ensures |log| == |old(log)| + 1 && LastShape().Batch?
      ensures Logged(old(log), t, Batch(resp, b.verdicts, LastShape().after))
      ensures delivered == old(delivered) + LastShape().after
      ensures flow.Continue? <==> LastShape().after != []
      ensures Outcome(flow)
    {
      hide BatchAnswered, Window, BooksFit, RequestsFit, Owed, Context, Holds, Heard, Streak, EmptyStreak,
           SingleStreak, NoTerminal, LoopTop, Stopped, IsEmptyResponse, AssistantMessage, UserTexts, Answers,
           BatchFits, Capable, UsedLookup, RawArgs, Images, Ended, TerminalArgs, ImageMessages, NextStreak,
           NextSingle, Trips, Afterwards, BatchHeard, Reviewed, Polls, Executions, Waiting, Listened, BatchEnds, Ends,
           Asked, End, Kept, AttemptPlays, RunsOf, Cost, Usages, Ready, Judged, Events.ViewOf, Inputs;
      BatchMeans(t, resp, b);
      ghost var ms, all := msgs, full;
      HeardMore(delivered, []);
      var outcome, after := AwaitNext();
      HeardMore(Heard(log) + t.opening, after);
      WaitingReady(resp, b, t, all, ms, after);
      flow := Conclude(outcome, t, Batch(resp, b.verdicts, after));
    }

    /** After an unproductive streak and a wait the turn can be logged. */
    lemma WaitingReady(resp: Response, b: BatchResult, t: Stage, all: seq<Message>, ms: seq<Message>,
                       after: seq<UserMessage>)
      requires Talk() && Context(t, res.turns, res.totals)
      requires BatchReported(resp, b) && Reviewed(t, resp) && !IsEmptyResponse(resp) && resp.calls != []
      requires BatchHeard(Opened(cfg, End(log)), resp, b)
      requires Holds(cfg, world, log, t, summaries, all, ms,
                     [AssistantMessage(cfg, resp)] + Answers(world, resp.calls, b.verdicts))
      requires full == all + UserTexts(after) && msgs == ms + UserTexts(after)
      requires delivered == Heard(log) + t.opening + after
      requires t.opening == Waiting(cfg, world, End(log).drains)
      requires drains == Opened(cfg, End(log)).drains + Polls(cfg, |resp.calls|, b.verdicts)
      requires executions == End(log).executions + Executions(b.verdicts)
      requires Decides(Decided(resp.calls, b.verdicts))
      requires cfg.interactive && !Ended(b.verdicts) && !Capable(b.verdicts) && b.pending == []
      requires |Streak(log, IncapableLimit(cfg))| + 1 >= IncapableLimit(cfg)
      requires Listened(world, End(log).waits, waits, true, after)
      ensures Ready(t, Batch(resp, b.verdicts, after))
      ensures after != [] ==> !Ends(cfg, log, Entry(t, Batch(resp, b.verdicts, after)))
      ensures NextStreak(Streak(log, IncapableLimit(cfg)), Batch(resp, b.verdicts, after), IncapableLimit(cfg)) == []
      ensures NextSingle(SingleStreak(log), Batch(resp, b.verdicts, after))
           == NextSingle(SingleStreak(log), Batch(resp, b.verdicts, []))
    {
      hide Window, BooksFit, RequestsFit, Owed, Context, Holds, Heard, Streak, EmptyStreak, SingleStreak,
           IsEmptyResponse, AssistantMessage, UserTexts, Answers, BatchFits, Capable, UsedLookup, RawArgs, Images,
           Ended, TerminalArgs, ImageMessages, NextStreak, NextSingle, Trips, Afterwards, BatchHeard, Reviewed, Polls,
           Executions, Waiting, Listened, BatchEnds, Ends, Asked, End, Kept, AttemptPlays, RunsOf, Cost, Usages,
           Ready;
      Restarts(resp, b, after);
      BatchSilent(resp, b.verdicts, after);
      HoldsMore(cfg, world, log, t, summaries, all, ms,
                [AssistantMessage(cfg, resp)] + Answers(world, resp.calls, b.verdicts),
                UserTexts(after), Afterwards(cfg, world, Batch(resp, b.verdicts, after)));
      ContextMeans(t);
      WaitingEnds(b, after);
      BatchReady(resp, b, t, after);
      if after != [] {
        GoesOn(resp, b, t, after);
      }
    }

    lemma WaitingEnds(b: BatchResult, after: seq<UserMessage>)
      requires !Ended(b.verdicts) && !Capable(b.verdicts) && b.pending == []
      requires |Streak(log, IncapableLimit(cfg))| + 1 >= IncapableLimit(cfg)
      requires Listened(world, End(log).waits, waits, cfg.interactive, after)
      ensures BatchEnds(b, after)
    {
    }

    /** A run that is not interactive stops as incapable. */
    method Declare(resp: Response, b: BatchResult, pattern: Pattern, ghost t: Stage) returns (flow: Flow)
      requires BatchAnswered(t, resp, b) && !b.terminated && !b.capable && Live() && !cfg.interactive
      requires |Streak(log, IncapableLimit(cfg))| + 1 >= IncapableLimit(cfg)
      requires DetailFits(Streak(log, IncapableLimit(cfg)) + [b.failedArgs], world.concatenated, Detail(pattern))
      modifies `res, `log
      ensures res.turns == old(res.turns)
      ensures flow == Stop(None) && res.reason.Incapable? && res.incapableDetail == Detail(pattern)
      ensures Logged(old(log), t, Batch(resp, b.verdicts, []))
      ensures Outcome(flow)
    {
      hide BatchAnswered, Detail, DetailFits, Window, BooksFit, RequestsFit, Owed, Context, Holds, Heard, Streak,
           SingleStreak, NoTerminal, LoopTop, Stopped, ContractFits, IsEmptyResponse, AssistantMessage, UserTexts,
           Answers, BatchFits, Capable, UsedLookup, RawArgs, Images, Ended, TerminalArgs, ImageMessages, NextStreak,
           NextSingle, Trips, Afterwards, BatchHeard, Reviewed, Polls, Executions, Waiting, BatchEnds, Calls, Kept,
           Ready, Decided, Decides;
      BatchMeans(t, resp, b);
      Restarts(resp, b, []);
      Close(res.(reason := Incapable, incapableDetail := Detail(pattern)));
      ContextMeans(t);
      BatchSilent(resp, b.verdicts, []);
      StopEnds(b);
      BatchReady(resp, b, t, []);
      EndContract(cfg, world, log, Entry(t, Batch(resp, b.verdicts, [])), res, judged, None);
      Halt(t, Batch(resp, b.verdicts, []), None);
      return Stop(None);
    }

    lemma StopEnds(b: BatchResult)
      requires !cfg.interactive && !Capable(b.verdicts) && waits == End(log).waits
      requires |Streak(log, IncapableLimit(cfg))| + 1 >= IncapableLimit(cfg)
      ensures BatchEnds(b, [])
    {
    }

    // ----- One turn -----

    /** One turn was added to the log: it opened as `t` did, and its reply, if any, is `resp`. */
    ghost predicate Took(past: seq<Record>, t: Stage, outcome: ModelOutcome)
      reads `log
    {
      && |log| == |past| + 1 && past <= log
      && Newest().opening == t.opening && Newest().nudge == t.nudge
      && Receives(outcome, Newest().shape)
    }

    ghost function Newest(): Record
      requires log != []
      reads `log
    {
      log[|log| - 1]
    }

    /** How a reply is settled: the limits come first, then emptiness, then content; only a reply that
        reached the threshold was compacted, and a final one never was. */
    ghost predicate Sorted(resp: Response, r: Record, flow: Flow)
      reads `res
    {
      && (r.attempt != NotTried <==> MustCompact(cfg, resp))
      && (IsFinal(cfg, resp) ==> r.attempt.NotTried? && flow == Stop(None) && res.reason.Done?)
      && if MustStop(cfg, resp, r.attempt) then r.shape.CutOff? && flow == Stop(None) && res.reason.ContextLimit?
         else if IsEmptyResponse(resp) then r.shape.EmptyReply?
         else if resp.calls == [] then r.shape.Spoke?
         else r.shape.Batch?
    }

    /** Settles a reply: compaction and the context limit first, then its content. */
    method TakeReply(resp: Response, ghost t: Stage) returns (flow: Flow)
      requires MidTurn(t) && t.attempt.NotTried? && ModelCalled(t, Reply(resp))
      modifies `msgs, `full, `cut, `summary, `events, `res, `requests, `replies, `summaries, `judged, `executions,
               `drains, `waits, `obtained, `delivered, `log, `unproductive, `failedArgsWindow, `emptyRun,
               `singleBatchTurns
      ensures res.turns == old(res.turns)
      ensures old(requests) <= requests
      ensures Took(old(log), t, Reply(resp)) && Sorted(resp, Newest(), flow)
      ensures Outcome(flow)
    {
      hide Outcome, Context, Holds, Live, MustCompact, MustStop, IsEmptyResponse, IsFinal, ModelCalled, Inputs, Talk,
           Memory, Waiting, Opened, Heard;
      var attempt := Compacts(resp, t);
      ghost var t' := t.(attempt := attempt);
      FinalGoesOn(resp, attempt);
      if Guarded(cfg, resp) && !attempt.Shrank? && resp.usage.promptTokens >= HardStop(cfg) {
        flow := CutShort(resp, t');
      } else if IsEmptyResponse(resp) {
        flow := HandleEmpty(resp, t');
      } else if |resp.calls| == 0 {
        flow := HandleSpoken(resp, t');
      } else {
        flow := HandleBatch(resp, t');
      }
    }

    lemma FinalGoesOn(resp: Response, attempt: Attempt)
      ensures IsFinal(cfg, resp) ==>
                !IsEmptyResponse(resp) && resp.calls == [] && !cfg.inbox
                && !MustCompact(cfg, resp) && !MustStop(cfg, resp, attempt)
      ensures MustStop(cfg, resp, attempt) <==>
                Guarded(cfg, resp) && attempt != Shrank && resp.usage.promptTokens >= HardStop(cfg)
    {
    }

    /** The compaction step of a turn. */
    method Compacts(resp: Response, ghost t: Stage) returns (attempt: Attempt)
      requires MidTurn(t) && t.attempt.NotTried? && ModelCalled(t, Reply(resp))
      modifies `msgs, `cut, `summary, `events, `requests, `replies, `summaries, `res, `emptyRun
      ensures res.turns == old(res.turns)
      ensures old(requests) <= requests
      ensures attempt != NotTried <==> MustCompact(cfg, resp)
      ensures MidTurn(t.(attempt := attempt)) && ModelCalled(t.(attempt := attempt), Reply(resp))
    {
      hide Window, BooksFit, RequestFits, Owed, Spent, LogFits, NudgesKept, NudgeDue, Ongoing, TurnLimit, NoTerminal,
           Streak, EmptyStreak, SingleStreak, IncapableLimit, Holds, Heard, Waiting, Opened, MustCompact, Attempted,
           PlanFor, Asked, Kept, Usages, Posts, Posted, TurnPosts, SummaryPosts, SummaryUsages, MayStart, ModelCalled,
           Calls, End, Conversation, Written, Before, AttemptPlays, RunsOf, Cost, KeepRecent, StageOf, WrapUps,
           BatchHints, LogKept, Decides, Called, OutcomeUsages, SysCount, Owing, Chat, Books, Events.ViewOf;
      ghost var ms, asked := msgs, summaries;
      CallMeans(t, Reply(resp));
      ghost var paid, posts := replies, Posts(requests);
      HoldsMeans(cfg, world, log, t, summaries, full, msgs, []);
      attempt := TryCompact(resp);
      CompactsHolds(cfg, world, log, t, asked, full, ms, attempt, msgs, summaries);
      CallStands(t, t.(attempt := attempt), Reply(resp), paid, posts);
    }

    lemma CallMeans(t: Stage, outcome: ModelOutcome)
      requires ModelCalled(t, outcome)
      ensures streams == Called(cfg, world, Asked(cfg, world, log, t), End(log).streams)
      ensures world.model(streams - 1) == outcome && (!outcome.Reply? ==> Lost(t))
      ensures replies
           == Usages(world, log) + OutcomeUsages(outcome) + SummaryUsages(world, End(log).summaries, summaries)
      ensures Posts(requests) == Posted(cfg, world, log) + TurnPosts(cfg, world, log, t, summaries)
    {
      hide Calls, Asked, Usages, Posts, Posted, TurnPosts;
    }

    /** A summary leaves the model call of the turn as it was. */
    lemma CallStands(t: Stage, t': Stage, outcome: ModelOutcome, paid: seq<Usage>, posts: seq<Post>)
      requires Asked(cfg, world, log, t) == Asked(cfg, world, log, t')
      requires streams == Called(cfg, world, Asked(cfg, world, log, t), End(log).streams)
      requires world.model(streams - 1) == outcome
      requires paid == Usages(world, log) + OutcomeUsages(outcome)
                       + SummaryUsages(world, End(log).summaries, End(log).summaries)
      requires posts == Posted(cfg, world, log) + TurnPosts(cfg, world, log, t, End(log).summaries)
      requires replies == paid + SummaryUsages(world, End(log).summaries, summaries)
      requires Posts(requests)
            == posts + SummaryPosts(cfg, Asked(cfg, world, log, t), End(log).summaries, summaries)
      ensures ModelCalled(t', outcome)
    {
      hide Calls, Asked, Usages, Posts, Posted, TurnPosts, SummaryPosts, SummaryUsages, OutcomeUsages, End;
      SummaryBilled(cfg, world, log, t, t', paid, outcome, posts, summaries);
    }

    /** The prompt reached the hard stop: the reply is not added to the conversation. */
    method CutShort(resp: Response, ghost t: Stage) returns (flow: Flow)
      requires MidTurn(t) && ModelCalled(t, Reply(resp))
      requires (t.attempt != NotTried <==> MustCompact(cfg, resp)) && MustStop(cfg, resp, t.attempt)
      modifies `res, `events, `log
      ensures res.turns == old(res.turns)
      ensures flow == Stop(None) && res.reason.ContextLimit? && !res.completed
      ensures Logged(old(log), t, CutOff(resp))
      ensures Outcome(flow)
    {
      hide Stopped, LoopTop, Window, BooksFit, RequestsFit, Owed, Context, Holds, Heard, NoTerminal, MustCompact,
           MustStop, IsEmptyResponse, ContractFits, Plays, ModelCalled, Memory, Events.ViewOf, TurnPosts,
           SummaryUsages, Judged;
      Close(res.(reason := ContextLimit));
      Note(Events.ContextLimitEvent(resp.usage.promptTokens));
      CutReady(resp, t);
      ContextMeans(t);
      EndContract(cfg, world, log, Entry(t, CutOff(resp)), res, judged, None);
      Halt(t, CutOff(resp), None);
      return Stop(None);
    }

    lemma CutReady(resp: Response, t: Stage)
      requires Talk() && Context(t, res.turns, res.totals) && Wrote(t, [], []) && Inputs(t, 0, 0, [])
      requires ModelCalled(t, Reply(resp))
      requires (t.attempt != NotTried <==> MustCompact(cfg, resp)) && MustStop(cfg, resp, t.attempt)
      ensures Ready(t, CutOff(resp))
    {
      hide Talk, Context, Heard, MustCompact, MustStop, IsEmptyResponse, Plays, AttemptPlays, ModelCalled, Written,
           Before, Kept;
      HoldsMeans(cfg, world, log, t, summaries, full, msgs, []);
      Accounts(t, CutOff(resp));
    }

    /** One iteration of the loop. At the cost cap it stops before it asks anything; otherwise exactly one
        turn is logged, and its first request is the conversation at that point of the log, pinned. */
    method TakeTurn() returns (flow: Flow)
      requires LoopTop() && (!cfg.interactive ==> res.turns < TurnLimit(cfg))
      modifies this
      ensures old(CapReached(cfg, res.totals.cost)) ==>
                && flow == Stop(None) && res.reason.MaxCost? && res.turns == old(res.turns)
                && log == old(log) && msgs == old(msgs) && requests == old(requests)
      ensures !old(CapReached(cfg, res.totals.cost)) ==>
                && res.turns == old(res.turns) + 1
                && |log| == |old(log)| + 1 && old(log) <= log
                && Asks(old(log), old(requests), StageOf(Newest()))
      ensures Outcome(flow)
    {
      hide LoopTop, MidTurn, Stopped, CapReached, Asks, Asked, Receives, Calls, End, Waiting, NudgeDue, TurnLimit;
      if CapReached(cfg, res.totals.cost) {
        StopForCost();
        flow := Stop(None);
      } else {
        var t := OpenTurn();
        flow := Consult(t);
        AskedAlike(old(log), old(requests), t, StageOf(Newest()));
      }
    }

    /** The first request sent since then is the conversation the turn puts to the model, pinned. */
    ghost predicate Asks(past: seq<Record>, before: seq<Sent>, t: Stage)
      reads `requests
    {
      && |before| < |requests| && before <= requests
      && var s := requests[|before|];
         && s.kind == Turn && !s.retry && s.live == Asked(cfg, world, past, t)
         && (s.request, s.pin) == Pinned(Request(s.live, cfg.routing))
    }

    lemma AskedAlike(past: seq<Record>, before: seq<Sent>, t: Stage, t': Stage)
      requires Asks(past, before, t) && t.opening == t'.opening && t.nudge == t'.nudge
      ensures Asks(past, before, t')
    {
    }

    method StopForCost()
      requires LoopTop() && CapReached(cfg, res.totals.cost) && (!cfg.interactive ==> res.turns < TurnLimit(cfg))
      modifies `res, `events
      ensures Stopped(None) && res.turns == old(res.turns) && res.reason.MaxCost?
    {
      hide Window, BooksFit, RequestFits, Owed, Spent, LogFits, Written, Conversation, Heard, Streak, EmptyStreak,
           SingleStreak, WrapUps, BatchHints, Ongoing, NoTerminal, EndedBy, ContractFits, NudgesKept, Memory,
           TurnLimit, CapReached, Usages, Posts, Posted, Judged, Graced, RunsOf;
      Close(res.(reason := MaxCost));
      Note(Events.StateChange(Events.StopMaxCost));
      NoGrace(cfg, world, log);
      PlainContract(cfg, world, log, res, judged);
      NothingMore(Graced(cfg, world, log));
    }

    /** Opens a turn: waiting human messages, the nudge that is due, the turn count. */
    method OpenTurn() returns (ghost t: Stage)
      requires LoopTop() && (!cfg.interactive ==> res.turns < TurnLimit(cfg)) && !CapReached(cfg, res.totals.cost)
      modifies `msgs, `full, `events, `delivered, `drains, `obtained, `nudged, `batchNudged, `res
      ensures MidTurn(t) && t.attempt.NotTried?
      ensures t.opening == Waiting(cfg, world, old(drains)) && t.nudge == NudgeDue(cfg, log)
      ensures msgs == Asked(cfg, world, log, t)
      ensures res.turns == old(res.turns) + 1 && res.totals == old(res.totals) && streams + 2 <= 2 * res.turns
      ensures Here().(drains := 0) == End(log).(drains := 0) && Ledger()
    {
      hide Window, BooksFit, RequestsFit, Owed, Spent, LogFits, Written, Conversation, Heard, Streak, EmptyStreak,
           SingleStreak, WrapUps, BatchHints, Ongoing, UserTexts, NudgeMessages, NudgeDue, NoTerminal, NudgesKept,
           Memory, TurnLimit, Holds, Asked, End, Events.ViewOf, Usages, Posts, Posted, Judged, CapReached, RunsOf,
           MayStart, Cost, MidTurn, Waiting, Runs;
      AffordsTurn();
      t := BeginTurn();
      Close(res.(turns := res.turns + 1));
      assert Decides([]);
      TurnStands(t);
    }

    /** Adds the waiting human messages and the nudge that is due. */
    method BeginTurn() returns (ghost t: Stage)
      requires Talk() && delivered == obtained == Heard(log) && res.turns == |log|
      requires Memory(NotTried) && NudgesKept(NoNudge)
      requires full == Written(cfg, world, log) && msgs == Conversation(cfg, world, log)
      modifies `msgs, `full, `events, `delivered, `drains, `obtained, `nudged, `batchNudged
      ensures Talk() && delivered == obtained && delivered == Heard(log) + t.opening + [] && NudgesKept(t.nudge)
      ensures t.attempt.NotTried? && t.nudge == NudgeDue(cfg, log)
      ensures t.opening == Waiting(cfg, world, old(drains)) && (!cfg.inbox ==> t.opening == [])
      ensures drains == old(drains) + if cfg.inbox then 1 else 0
      ensures Holds(cfg, world, log, t, End(log).summaries, full, msgs, []) && msgs == Asked(cfg, world, log, t)
    {
      hide Window, BooksFit, Owed, Written, Conversation, Heard, Streak, EmptyStreak, SingleStreak, WrapUps,
           BatchHints, UserTexts, NudgeMessages, NudgeDue, NudgesKept, Memory, TurnLimit, Holds, Asked, End,
           Events.ViewOf, Waiting;
      var opening := DrainInbox();
      var nudge := GiveNudge();
      t := Stage(opening, nudge, NotTried);
      OpensHolds(cfg, world, log, t, full, msgs);
      HeardMore(Heard(log), opening);
    }

    /** The state a turn is in from its opening until its reply is settled. */
    lemma TurnStands(t: Stage)
      requires Talk() && Live() && RequestsFit() && LogKept() && Paid() && NudgesKept(t.nudge) && Memory(NotTried)
      requires cfg.interactive ==> cfg.inbox
      requires t.attempt.NotTried? && t.nudge == NudgeDue(cfg, log) && (!cfg.inbox ==> t.opening == [])
      requires Ongoing(cfg, log) && MayStart(cfg, world, log) && Decides([])
      requires res.turns == |log| + 1 && (!cfg.interactive ==> res.turns <= TurnLimit(cfg))
      requires streams <= 2 * res.turns && summaries <= |log|
      requires Holds(cfg, world, log, t, summaries, full, msgs, []) && delivered == obtained
      requires delivered == Heard(log) + t.opening + []
      requires t.opening == Waiting(cfg, world, End(log).drains)
      requires drains == Opened(cfg, End(log)).drains && executions == End(log).executions && waits == End(log).waits
      ensures MidTurn(t)
    {
      hide Talk, Live, RequestsFit, LogKept, NudgesKept, Memory, NudgeDue, Ongoing, MayStart, TurnLimit, Holds, Heard,
           Waiting, End, Judged, Spent;
    }

    lemma MidTurnMeans(t: Stage)
      requires MidTurn(t) && t.attempt.NotTried?
      ensures Talk() && Live() && RequestsFit() && LogKept() && Paid() && NudgesKept(t.nudge) && Memory(NotTried)
      ensures cfg.interactive ==> cfg.inbox
      ensures t.nudge == NudgeDue(cfg, log) && (!cfg.inbox ==> t.opening == [])
      ensures Ongoing(cfg, log) && MayStart(cfg, world, log) && Decides([])
      ensures res.turns == |log| + 1 && (!cfg.interactive ==> res.turns <= TurnLimit(cfg))
      ensures summaries <= |log|
      ensures Holds(cfg, world, log, t, summaries, full, msgs, []) && delivered == obtained
      ensures delivered == Heard(log) + t.opening + []
      ensures t.opening == Waiting(cfg, world, End(log).drains)
      ensures drains == Opened(cfg, End(log)).drains && executions == End(log).executions && waits == End(log).waits
    {
      hide Talk, Live, RequestsFit, LogKept, NudgesKept, Memory, NudgeDue, Ongoing, MayStart, TurnLimit, Holds, Heard,
           Waiting, End, Judged, Spent;
    }

    /** The log allows another turn. */
    lemma AffordsTurn()
      requires Paid() && Ledger() && !CapReached(cfg, res.totals.cost)
      requires res.turns == |log| && (!cfg.interactive ==> res.turns < TurnLimit(cfg))
      ensures MayStart(cfg, world, log)
    {
      hide Spent, Usages, Posts, Posted, Judged, CapReached, TurnLimit;
    }

    /** The model call of a turn and what follows it. */
    method Consult(ghost t: Stage) returns (flow: Flow)
      requires MidTurn(t) && t.attempt.NotTried? && msgs == Asked(cfg, world, log, t)
      requires streams + 2 <= 2 * res.turns
      requires Here().(drains := 0) == End(log).(drains := 0) && Ledger()
      requires !CapReached(cfg, res.totals.cost)
      modifies `msgs, `full, `cut, `summary, `events, `res, `requests, `replies, `streams, `summaries, `judged,
               `executions, `drains, `waits, `obtained, `delivered, `log, `unproductive, `failedArgsWindow, `emptyRun,
               `singleBatchTurns
      ensures res.turns == old(res.turns)
      ensures Asks(old(log), old(requests), t)
      ensures Took(old(log), t, world.model(old(streams) + Calls(cfg, world.model(old(streams)), old(msgs)) - 1))
      ensures Outcome(flow)
    {
      hide MidTurn, NudgesKept, Memory, RequestsFit, Window, BooksFit, RequestFits, Owed, Spent, LogFits, Written,
           Heard, Streak, EmptyStreak, SingleStreak, WrapUps, BatchHints, Ongoing, NudgeDue, NoTerminal, CapReached,
           MaySend, Holds, Asked, Calls, Outcome, Pinned, Sorted, IncapableLimit, TurnLimit, Waiting, Opened, Bare,
           End, LogKept, ModelCalled, Lost, Usages, Posts, Posted, Judged, TurnPosts, SummaryUsages, MayStart, RunsOf,
           Events.ViewOf;
      MidTurnMeans(t);
      var outcome := Ask(t);
      CallMeans(t, outcome);
      if !outcome.Reply? {
        assert replies == old(replies);
        TurnStands(t);
        flow := HandleFailure(t);
      } else {
        Receive(outcome.resp, old(replies));
        TurnStands(t);
        flow := TakeReply(outcome.resp, t);
      }
    }

    /** Sends the conversation of the turn. */
    method Ask(ghost t: Stage) returns (outcome: ModelOutcome)
      requires Chat() && Owing([]) && Books() && RequestsFit() && delivered == obtained
      requires msgs == Asked(cfg, world, log, t) && Ledger()
      requires streams == End(log).streams && summaries == End(log).summaries
      requires !CapReached(cfg, res.totals.cost)
      modifies `events, `requests, `replies, `streams
      ensures RequestsFit() && Books()
      ensures Asks(log, old(requests), t)
      ensures ModelCalled(t, outcome)
      ensures streams == old(streams) + Calls(cfg, world.model(old(streams)), msgs)
      ensures replies == old(replies) + OutcomeUsages(outcome)
    {
      hide Window, BooksFit, RequestFits, Owed, CapReached, MaySend, Asked, Calls, Pinned, End, Usages, Posts, Posted,
           ModelPosts;
      TurnLive();
      outcome := Call(Turn, msgs);
      NoSummary(outcome, t);
    }

    /** No summary has been asked for yet. */
    lemma NoSummary(outcome: ModelOutcome, t: Stage)
      ensures Usages(world, log) + OutcomeUsages(outcome)
              + SummaryUsages(world, End(log).summaries, End(log).summaries)
           == Usages(world, log) + OutcomeUsages(outcome)
      ensures TurnPosts(cfg, world, log, t, End(log).summaries)
           == ModelPosts(cfg, Turn, Asked(cfg, world, log, t), world.model(End(log).streams))
    {
      hide Usages, OutcomeUsages, Asked, ModelPosts;
    }

    lemma TurnLive()
      requires Chat() && Owing([]) && delivered == obtained && !CapReached(cfg, res.totals.cost)
      ensures MaySend(cfg, sound, Turn, msgs, Now())
    {
    }

    /** Reports and accounts for a reply. */
    method Receive(resp: Response, ghost paid: seq<Usage>)
      requires Books() && Spent(paid) == res.totals && replies == paid + [resp.usage]
      modifies `res, `events
      ensures Books() && Paid()
      ensures res == Paying(old(res), resp.usage).(
                       modelUsed := if resp.model != "" then resp.model else old(res).modelUsed, output := resp.content)
    {
      hide BooksFit, Spent, Plus, Charge;
      SpentSnoc(paid, resp.usage);
      Close(res.(modelUsed := if resp.model != "" then resp.model else res.modelUsed, output := resp.content));
      if resp.reasoning != "" {
        Note(Events.Thinking(res.turns));
      }
      Note(Events.ModelResponse(res.turns, |resp.calls|));
      Account(resp.usage);
    }

    // ----- The grace call -----

    /** Everything but the conversation that a grace call must keep. */
    ghost predicate GraceReady()
      reads this
    {
      && Books() && Paid() && RequestsFit() && Live() && delivered == obtained
    }

    /** One grace request, accounted for when it is answered. Turns are not counted. */
    method SendTurn(live: seq<Message>) returns (outcome: ModelOutcome)
      requires GraceReady() && MaySend(cfg, sound, Grace, live, Now())
      modifies `events, `requests, `replies, `streams, `res
      ensures GraceReady()
      ensures streams == Called(cfg, world, live, old(streams)) && outcome == world.model(streams - 1)
      ensures replies == old(replies) + OutcomeUsages(outcome)
      ensures Posts(requests) == Posts(old(requests)) + ModelPosts(cfg, Grace, live, world.model(old(streams)))
      ensures res == old(res).(totals := res.totals, modelUsed := res.modelUsed, output := res.output)
      ensures !outcome.Reply? ==> res == old(res)
    {
      hide BooksFit, RequestFits, Spent, NoTerminal, Owed, Plus, Charge, SysCount, Calls, ModelPosts, Posts, Pinned;
      outcome := Call(Grace, live);
      if outcome.Reply? {
        Receive(outcome.resp, old(replies));
      } else {
        assert replies == old(replies);
      }
    }

    /** The single call after the turn limit: only terminal tools are offered, and only the success of
        one of them completes the run. The conversation of the run is left as it is. */
    method GraceFinish() returns (done: bool)
      requires GraceReady() && Chat() && Owing([]) && !CapReached(cfg, res.totals.cost)
      modifies `events, `requests, `replies, `streams, `res, `executions, `judged
      ensures Books() && Paid() && RequestsFit()
      ensures old(streams) <= streams <= old(streams) + 4
      ensures Offered(world.registry) == [] ==>
                && !done && streams == old(streams) && executions == old(executions) && res == old(res)
                && replies == old(replies) && requests == old(requests) && judged == old(judged)
      ensures Offered(world.registry) != [] ==>
                && streams > old(streams)
                && Adds(old(Here()), old(replies), old(requests), old(judged), GraceText(world, msgs), done)
      ensures res.turns == old(res.turns)
      ensures !done ==> Live()
      ensures done ==> Finished()
    {
      hide Adds, Offered, GraceReady, Chat, Owing, CapReached, Live, Books, Paid, RequestsFit, Finished;
      var schemas, names := TerminalSchemas(world.registry);
      if |names| == 0 {
        GraceKeeps();
        return false;
      }
      assert names == ToolNames(Offered(world.registry));
      done := GraceCall(names);
    }

    /** The grace call of `live` added exactly what it does to a run that stood there before. */
    ghost predicate Adds(from: Cursor, paid: seq<Usage>, sent: seq<Sent>, judged': seq<Decision>, live: seq<Message>,
                         done: bool)
      reads `streams, `executions, `replies, `requests, `judged, `res
    {
      var extra := GraceCalled(cfg, world, live, from);
      && streams == extra.streams && executions == from.executions + |extra.decisions|
      && replies == paid + extra.usages && Posts(requests) == Posts(sent) + extra.posts
      && judged == judged' + extra.decisions
      && (done <==> extra.args.Some?)
      && (done ==> res.completionArgs == extra.args)
    }

    /** The run was completed by a terminal tool. */
    ghost predicate Finished()
      reads `res, `judged
    {
      res.completed && res.reason.Done? && res.completionArgs.Some? && res.incapableDetail == "" && EndedBy(Runs())
    }

    lemma GraceKeeps()
      requires GraceReady()
      ensures Books() && Paid() && RequestsFit() && Live()
    {
      hide BooksFit, RequestFits, Spent, NoTerminal;
    }

    method GraceCall(names: seq<string>) returns (done: bool)
      requires GraceReady() && Chat() && Owing([]) && !CapReached(cfg, res.totals.cost)
      requires names == ToolNames(Offered(world.registry))
      modifies `events, `requests, `replies, `streams, `res, `executions, `judged
      ensures res.turns == old(res.turns)
      ensures old(streams) < streams <= old(streams) + 4
      ensures Adds(old(Here()), old(replies), old(requests), old(judged), GraceText(world, msgs), done)
      ensures Books() && Paid() && RequestsFit()
      ensures !done ==> Live()
      ensures done ==> Finished()
    {
      hide MaySend, Now, CapReached, Candidates, BooksFit, RequestFits, Spent, NoTerminal, EndedBy, Window, Owed,
           Called, ModelPosts, Posts, Tries, TriedArgs, RunsOf, Offered, ToolNames, Adds, GraceCalled, Books, Paid,
           RequestsFit, Live, Finished, Events.ViewOf, SysCount, Silent;
      Note(Events.StateChange(Events.GraceTurn));
      GraceLive(world.graceText(names));
      ghost var from, paid, sent, decided := Here(), replies, requests, judged;
      var outcome := SendGrace(msgs + [UserText(world.graceText(names))]);
      if !outcome.Reply? {
        NothingTried(executions);
        AddsUp(from, paid, sent, decided, GraceText(world, msgs), false);
        GraceKeeps();
        return false;
      }
      done := TryTerminals(outcome.resp.calls);
      AddsUp(from, paid, sent, decided, GraceText(world, msgs), done);
    }

    lemma AddsUp(from: Cursor, paid: seq<Usage>, sent: seq<Sent>, decided: seq<Decision>, live: seq<Message>,
                 done: bool)
      requires var extra := GraceCalled(cfg, world, live, from);
               && streams == extra.streams && replies == paid + extra.usages
               && Posts(requests) == Posts(sent) + extra.posts
      requires streams > 0
      requires var outcome := world.model(streams - 1);
               var tried := if outcome.Reply? then Candidates(world, outcome.resp.calls) else [];
               && judged == decided + Tries(world, tried, from.executions)
               && executions == from.executions + |Tries(world, tried, from.executions)|
               && (done <==> TriedArgs(world, tried, from.executions).Some?)
               && (done ==> res.completionArgs == TriedArgs(world, tried, from.executions))
      ensures Adds(from, paid, sent, decided, live, done)
    {
      hide Candidates, Tries, TriedArgs, Called, ModelPosts, Posts;
    }

    lemma NothingTried(from: nat)
      ensures Candidates(world, []) == [] && Tries(world, [], from) == [] && TriedArgs(world, [], from).None?
    {
    }

    /** Sends the grace request, and once more when it was rejected, which forcing a tool may cause. */
    method SendGrace(live: seq<Message>) returns (outcome: ModelOutcome)
      requires GraceReady() && MaySend(cfg, sound, Grace, live, Now())
      modifies `events, `requests, `replies, `streams, `res
      ensures GraceReady()
      ensures var extra := GraceCalled(cfg, world, live, old(Here()));
              && streams == extra.streams && replies == old(replies) + extra.usages
              && Posts(requests) == Posts(old(requests)) + extra.posts
      ensures old(streams) < streams <= old(streams) + 4
      ensures outcome == world.model(streams - 1)
      ensures res == old(res).(totals := res.totals, modelUsed := res.modelUsed, output := res.output)
    {
      hide GraceReady, Posts, ModelPosts, Called, Tries, TriedArgs, Candidates, Calls, Conversation, Kept, Asked,
           Written, Before, AttemptPlays, RunsOf, Cost, Usages, Posted, Judged, TurnPosts, SummaryUsages, MayStart,
           StageOf, WrapUps, BatchHints, SysCount, End, Seed, Bare, Events.ViewOf, Unanswered, NextStreak, NextEmpty,
           GraceText, KeepRecent;
      outcome := SendTurn(live);
      if outcome.Rejected? {
        assert Now() == old(Now());
        outcome := SendTurn(live);
      }
    }

    lemma GraceLive(text: string)
      requires Chat() && Owing([]) && delivered == obtained && !CapReached(cfg, res.totals.cost)
      ensures MaySend(cfg, sound, Grace, msgs + [UserText(text)], Now())
    {
      OwedSnoc(msgs, UserText(text));
    }

    /** Runs the terminal calls of the grace reply until one succeeds; every other call is ignored. */
    method TryTerminals(calls: seq<ToolCall>) returns (done: bool)
      requires GraceReady()
      modifies `events, `res, `executions, `judged
      ensures Books() && Paid() && RequestsFit()
      ensures res.turns == old(res.turns)
      ensures !done ==> Live()
      ensures done ==> Finished()
      ensures var tried := Candidates(world, calls);
              && judged == old(judged) + Tries(world, tried, old(executions))
              && executions == old(executions) + |Tries(world, tried, old(executions))|
              && (done <==> TriedArgs(world, tried, old(executions)).Some?)
              && (done ==> res.completionArgs == TriedArgs(world, tried, old(executions)))
    {
      hide BooksFit, RequestFits, Spent, NoTerminal, EndedBy, Lookup, RunsOf, Finished, Candidates, Tries, TriedArgs,
           Verdicted, Remaining, Books, Paid, RequestsFit, Live, Text.NormalizeArgs, Events.ViewOf;
      ghost var ds: seq<Decision> := [];
      NoneTried(calls, executions);
      for i := 0 to |calls|
        invariant GraceReady()
        invariant res.turns == old(res.turns)
        invariant judged == old(judged) + ds && executions == old(executions) + |ds|
        invariant Remaining(calls, i, old(executions), ds)
      {
        var tc := calls[i];
        TriesNext(calls, i, old(executions), ds);
        var tool := Lookup(world.registry, tc.name);
        if tool.Some? && tool.value.terminal && world.parses(tc.arguments) {
          ds := ds + [Decision(tc.id, Verdicted(world, tool.value, executions))];
          done := TryTerminal(tc, tool.value);
          if done {
            return;
          }
        }
      }
      AllTried(calls, old(executions), ds);
      GraceKeeps();
      done := false;
    }

    /** After the first `i` calls, which gave `ds`, the rest decides what is still to come. */
    ghost predicate Remaining(calls: seq<ToolCall>, i: nat, from: nat, ds: seq<Decision>)
      requires i <= |calls|
    {
      var all, rest := Candidates(world, calls), Candidates(world, calls[i..]);
      && Tries(world, all, from) == ds + Tries(world, rest, from + |ds|)
      && TriedArgs(world, all, from) == TriedArgs(world, rest, from + |ds|)
    }

    lemma NoneTried(calls: seq<ToolCall>, from: nat)
      ensures Remaining(calls, 0, from, [])
    {
      assert calls[0..] == calls;
    }

    lemma AllTried(calls: seq<ToolCall>, from: nat, ds: seq<Decision>)
      requires Remaining(calls, |calls|, from, ds)
      ensures Tries(world, Candidates(world, calls), from) == ds
      ensures TriedArgs(world, Candidates(world, calls), from).None?
    {
      assert calls[|calls|..] == [];
      NothingTried(from + |ds|);
    }

    lemma TriesNext(calls: seq<ToolCall>, i: nat, from: nat, ds: seq<Decision>)
      requires i < |calls| && Remaining(calls, i, from, ds)
      ensures if IsCandidate(world, calls[i]) then
                var v := Verdicted(world, Lookup(world.registry, calls[i].name).value, from + |ds|);
                var more := ds + [Decision(calls[i].id, v)];
                if v.Ran? then
                  && Tries(world, Candidates(world, calls), from) == more
                  && TriedArgs(world, Candidates(world, calls), from) == Some(Text.NormalizeArgs(calls[i].arguments))
                else Remaining(calls, i + 1, from, more)
              else Remaining(calls, i + 1, from, ds)
    {
      hide Candidates, Tries, TriedArgs, Verdicted, Lookup, Text.NormalizeArgs;
      CandidatesNext(calls, i);
      if IsCandidate(world, calls[i]) {
        TryFirst(calls[i], Candidates(world, calls[i + 1..]), from + |ds|);
      }
    }

    lemma CandidatesNext(calls: seq<ToolCall>, i: nat)
      requires i < |calls|
      ensures Candidates(world, calls[i..])
           == if IsCandidate(world, calls[i]) then [calls[i]] + Candidates(world, calls[i + 1..])
              else Candidates(world, calls[i + 1..])
    {
      assert calls[i..][0] == calls[i] && calls[i..][1..] == calls[i + 1..];
    }

    lemma TryFirst(tc: ToolCall, rest: seq<ToolCall>, from: nat)
      requires IsCandidate(world, tc) && forall c :: c in rest ==> IsCandidate(world, c)
      ensures var v := Verdicted(world, Lookup(world.registry, tc.name).value, from);
              && Tries(world, [tc] + rest, from)
                 == [Decision(tc.id, v)] + (if v.Ran? then [] else Tries(world, rest, from + 1))
              && TriedArgs(world, [tc] + rest, from)
                 == (if v.Ran? then Some(Text.NormalizeArgs(tc.arguments)) else TriedArgs(world, rest, from + 1))
    {
      assert ([tc] + rest)[1..] == rest;
    }

    method TryTerminal(tc: ToolCall, tool: ToolInfo) returns (done: bool)
      requires GraceReady() && tool.terminal
      modifies `events, `res, `executions, `judged
      ensures Books() && Paid()
      ensures res.turns == old(res.turns) && res.totals == old(res.totals)
      ensures executions == old(executions) + 1
      ensures judged == old(judged) + [Decision(tc.id, Verdicted(world, tool, old(executions)))]
      ensures done <==> Verdicted(world, tool, old(executions)).Ran?
      ensures !done ==> Live()
      ensures done ==> Finished() && res.completionArgs == Some(Text.NormalizeArgs(tc.arguments))
    {
      hide BooksFit, RequestFits, Spent, NoTerminal, EndedBy, Events.ViewOf, Events.Step, RunsOf;
      ghost var view := Events.ViewOf(events);
      res := res.(toolCallCount := res.toolCallCount + 1);
      Emit(Events.ToolCallEvent(tc.id, true));
      var v := RunTool(tool);
      AnswerFits(view, old(res), delivered, judged, tc.id, v);
      RunsDecided(judged, Decision(tc.id, v));
      judged := judged + [Decision(tc.id, v)];
      if v.Refused? {
        res := res.(toolCallFailures := res.toolCallFailures + 1);
        Emit(Events.ToolAnswerEvent(tc.id, Events.Erred));
        return false;
      }
      Emit(Events.ToolAnswerEvent(tc.id, Events.Succeeded));
      Close(res.(completed := true, reason := Done, completionArgs := Some(Text.NormalizeArgs(tc.arguments))));
      Note(Events.StateChange(Events.StopDone));
      return true;
    }

    // ----- The run -----

    constructor (cfg: Config, world: World)
      ensures this.cfg == cfg && this.world == world && sound == Closed(cfg.history)
      ensures Pristine()
    {
      this.cfg, this.world, this.sound := cfg, world, Closed(cfg.history);
      msgs, events, failedArgsWindow := [], [], [];
      res := Result(false, Unset, 0, ZERO, 0, 0, 0, "", "", "", None);
      unproductive, emptyRun, singleBatchTurns := 0, 0, 0;
      nudged, batchNudged := false, false;
      streams, summaries, executions, drains, waits := 0, 0, 0, 0, 0;
      full, cut, summary, log := [], 0, [], [];
      obtained, delivered, requests, replies, judged := [], [], [], [], [];
    }

    /** The state before a run. */
    ghost predicate Pristine()
      reads this
    {
      Blank() && msgs == [] && full == [] && cut == 0
    }

    /** Nothing was sent, heard, counted or logged yet. */
    ghost predicate Blank()
      reads `events, `failedArgsWindow, `res, `unproductive, `emptyRun, `singleBatchTurns, `nudged, `batchNudged,
            `streams, `summaries, `executions, `drains, `waits, `summary, `log, `obtained, `delivered, `requests,
            `replies, `judged
    {
      && sound == Closed(cfg.history)
      && events == [] && failedArgsWindow == []
      && res == Result(false, Unset, 0, ZERO, 0, 0, 0, "", "", "", None)
      && unproductive == emptyRun == singleBatchTurns == 0
      && !nudged && !batchNudged
      && Here() == ORIGIN
      && summary == [] && log == []
      && obtained == delivered == [] && requests == [] && replies == [] && judged == []
    }

    /** The conversation a run starts from. */
    method SeedMessages() returns (ms: seq<Message>)
      ensures ms == Seed(cfg) && Transcript.Starts(cfg, ms)
    {
      Transcript.SeedStarts(cfg);
      hide SystemText, SeedMessage, Bare;
      ms := [];
      if cfg.systemPrompt != "" {
        ms := ms + [SystemText(cfg.systemPrompt)];
      }
      if cfg.replayReasoning {
        ms := ms + cfg.history;
      } else {
        var bare := WithoutReasoning(cfg.history);
        ms := ms + bare;
      }
      ms := ms + [SeedMessage(cfg)];
    }

    method Start()
      requires Pristine() && (cfg.interactive ==> cfg.inbox)
      modifies `msgs, `full, `cut
      ensures LoopTop()
    {
      hide Blank, LoopTop, Seed, SysCount;
      msgs := SeedMessages();
      full := msgs;
      cut := SysCount(msgs);
      Begun();
    }

    lemma Begun()
      requires Blank() && full == msgs == Seed(cfg) && cut == SysCount(msgs) && (cfg.interactive ==> cfg.inbox)
      ensures LoopTop()
    {
      hide RequestFits, LogFits, Written, Heard, Streak, EmptyStreak, SingleStreak, WrapUps, BatchHints, Ongoing,
           IncapableLimit, TurnLimit, Seed, SysCount, Closed, Chat, Books, Paid, Owing;
      EmptyLog();
      BegunTalk();
    }

    lemma BegunTalk()
      requires Blank() && full == msgs == Seed(cfg) && cut == SysCount(msgs)
      ensures Chat() && Owing([]) && Books() && Paid()
    {
      hide Window, BooksFit, Owed, Spent, Events.ViewOf, Seed, SysCount, Closed;
      SeedFits();
      BlankFits();
    }

    lemma SeedFits()
      ensures Window(cfg, Seed(cfg), SysCount(Seed(cfg)), [], Seed(cfg))
      ensures Closed(cfg.history) ==> Owed(Seed(cfg)) == Owes([])
    {
      var ms := Seed(cfg);
      assert ms[..SysCount(ms)] + [] + ms[SysCount(ms)..] == ms;
      if Closed(cfg.history) {
        SeedClosed(cfg);
        ClosedIffSettled(ms);
      }
    }

    lemma BlankFits()
      ensures BooksFit(Events.ViewOf([]), Result(false, Unset, 0, ZERO, 0, 0, 0, "", "", "", None), [], [])
      ensures Spent([]) == ZERO
    {
    }

    lemma EmptyLog()
      ensures LogFits(cfg, world, []) && Written(cfg, world, []) == Seed(cfg) && Heard([]) == []
      ensures Streak([], IncapableLimit(cfg)) == [] && EmptyStreak([]) == 0 && SingleStreak([]) == 0
      ensures WrapUps([]) == 0 && BatchHints([]) == 0 && Ongoing(cfg, [])
      ensures Usages(world, []) == [] && Posted(cfg, world, []) == [] && Judged([]) == [] && RunsOf([]) == []
      ensures IncapableLimit(cfg) > 0 && (!cfg.interactive ==> TurnLimit(cfg) > 0)
    {
    }

    /** What holds of every request of a run. */
    ghost predicate RequestsSound()
      reads `requests
    {
      && (forall s :: s in requests && Closed(cfg.history) ==> Closed(s.request.messages))
      && (forall s :: s in requests ==> RequestFits(cfg, sound, s) && PinHonoured(s.request, s.pin))
    }

    /** The accounts of a run are those of its log: what was paid for, sent, decided, counted and
        reported. */
    ghost predicate AccountsSound()
      reads `log, `replies, `requests, `judged, `streams, `summaries, `executions, `drains, `waits, `res, `events
    {
      var extra := Graced(cfg, world, log);
      var usages, decisions := Usages(world, log) + extra.usages, Judged(log) + extra.decisions;
      && LedgerWith(extra)
      && res.totals == Spent(usages) == Events.ViewOf(events).spent
      && res.totals.prompt + res.totals.read + res.totals.creation == WireTokens(usages)
      && CountsOf(res) == Tally(decisions)
      && Events.ToolEvents(events) == WordOf(decisions)
    }

    /** What holds of a run at its end and after every completed turn. */
    ghost predicate Sound()
      reads this
    {
      && (Closed(cfg.history) ==> Closed(msgs))
      && RequestsSound() && Chat() && Books() && LogKept() && AccountsSound()
      && Events.PairWord(Events.ToolEvents(events))
      && res.toolCallCount == Events.ViewOf(events).succeeded + res.toolCallFailures + res.repairCount
      && full == Written(cfg, world, log) && msgs == Conversation(cfg, world, log)
      && Transcript.Transcribed(cfg, world, log)
      && delivered == Heard(log) && delivered <= obtained
      && (delivered != obtained ==> res.reason.Incapable? && !cfg.interactive)
      && res.turns == |log|
      && (!cfg.interactive ==> res.turns <= TurnLimit(cfg))
      && streams + summaries <= 3 * res.turns + (if cfg.graceTurn && !cfg.interactive then 4 else 0)
    }

    lemma AccountsKept()
      requires Books() && Paid() && LedgerWith(Graced(cfg, world, log))
      ensures AccountsSound()
    {
      hide Spent, WireTokens, Events.ToolEvents, Events.ViewOf, Graced, Usages, Judged, Posts, Posted, End, Tally,
           WordOf;
      Events.PairedStream(events);
      TokensConserved(replies);
    }

    lemma AlwaysSound()
      requires Always() && Owing([]) && LedgerWith(Graced(cfg, world, log))
      requires sound == Closed(cfg.history)
      requires full == Written(cfg, world, log) && msgs == Conversation(cfg, world, log)
      requires delivered == Heard(log) && delivered <= obtained
      requires delivered != obtained ==> res.reason.Incapable? && !cfg.interactive
      requires res.turns == |log| && (!cfg.interactive ==> res.turns <= TurnLimit(cfg))
      requires streams <= 2 * res.turns + (if cfg.graceTurn && !cfg.interactive then 4 else 0)
      requires summaries <= res.turns
      ensures Sound()
    {
      hide Window, LogFits, Written, Heard, Owed, Spent, WireTokens, Events.PairWord, Events.ToolEvents,
           Events.ViewOf, Pinned, PinHonoured, Closed, TurnLimit, Conversation, LedgerWith, Graced, AccountsSound,
           WordOf, Tally;
      ClosedIffSettled(msgs);
      forall s | s in requests ensures PinHonoured(s.request, s.pin) && (sound ==> Closed(s.request.messages)) {
        RequestHonoursPin(s);
        ClosedIffSettled(s.request.messages);
      }
      Events.PairedStream(events);
      Transcript.LogTranscribed(cfg, world, log);
      AccountsKept();
    }

    lemma RequestHonoursPin(s: Sent)
      requires RequestFits(cfg, sound, s)
      ensures PinHonoured(s.request, s.pin)
    {
      PinningKeeps(Request(s.live, cfg.routing));
    }

    /** Drives the agent loop. A run that is not interactive always stops; an interactive one is
        followed for up to `budget` turns, so what is stated holds after any number of turns. */
    method Run(budget: nat) returns (flow: Flow)
      requires Pristine()
      modifies this
      ensures cfg.interactive && !cfg.inbox ==>
                flow == Stop(Some(Misconfigured)) && msgs == [] && requests == [] && res == old(res)
      ensures !(cfg.interactive && !cfg.inbox) ==> Sound()
      ensures !(cfg.interactive && !cfg.inbox) && flow.Stop? ==> Contract(flow.err)
      ensures flow.Continue? ==> cfg.interactive && LoopTop() && res.turns >= budget
    {
      hide Window, BooksFit, RequestFits, Owed, Spent, LogFits, Written, Heard, Streak, EmptyStreak, SingleStreak,
           WrapUps, BatchHints, Ongoing, NoTerminal, EndedBy, TerminalArgs, EndedLast, Closed, WireTokens,
           PinHonoured, TurnLimit, IncapableLimit, Events.ViewOf, Events.PairWord, Events.ToolEvents, Contract, Sound;
      if cfg.interactive && !cfg.inbox {
        return Stop(Some(Misconfigured));
      }
      Start();
      flow := Continue;
      while flow.Continue? && res.turns < (if cfg.interactive then budget else TurnLimit(cfg))
        invariant Outcome(flow) && sound == Closed(cfg.history)
        invariant cfg.interactive ==> cfg.inbox
        decreases (if cfg.interactive then budget else TurnLimit(cfg)) - res.turns, if flow.Continue? then 1 else 0
      {
        flow := TakeTurn();
      }
      if flow.Continue? && !cfg.interactive {
        flow := FinishRun();
      }
      if flow.Continue? {
        GoingOn();
      }
      AlwaysSound();
    }

    lemma GoingOn()
      requires LoopTop() && cfg.interactive
      ensures LedgerWith(Graced(cfg, world, log))
    {
      hide Window, BooksFit, RequestFits, Owed, LogFits, Written, Conversation, Heard, Ongoing, NoTerminal, TurnLimit,
           CapReached, Offered, Posts, Posted, Judged, RunsOf, GraceCalled, Graced, End, Memory, NudgesKept;
      NoGrace(cfg, world, log);
      NothingMore(Graced(cfg, world, log));
    }

    /** The turn limit was reached. */
    method FinishRun() returns (flow: Flow)
      requires LoopTop() && !cfg.interactive && res.turns >= TurnLimit(cfg)
      modifies this
      ensures streams > old(streams) <==>
                cfg.graceTurn && old(!CapReached(cfg, res.totals.cost)) && Offered(world.registry) != []
      ensures log == old(log) && msgs == old(msgs) && flow == Stop(None)
      ensures if Graced(cfg, world, log).args.Some? then res.reason.Done? else res.reason.MaxTurns?
      ensures Stopped(None)
    {
      hide Outcome, Window, BooksFit, RequestFits, Owed, Spent, LogFits, Written, Conversation, Heard, Streak,
           EmptyStreak, SingleStreak, WrapUps, BatchHints, Ongoing, NoTerminal, EndedBy, ContractFits, TurnLimit,
           EndedLast, CapReached, Offered, Usages, Posts, Posted, Judged, RunsOf, GraceCalled, Graced, GraceText, End,
           Finished, Adds, LedgerWith;
      if cfg.graceTurn && !CapReached(cfg, res.totals.cost) {
        ghost var from, sent := Here(), requests;
        var done := GraceFinish();
        GraceLedger(from, sent, done);
        if done {
          FinishedMeans();
          GraceContract(cfg, world, log, res, judged);
          return Stop(None);
        }
      } else {
        GraceNotDue();
      }
      StopAtLimit();
      return Stop(None);
    }

    lemma GraceNotDue()
      requires LoopTop() && !(cfg.graceTurn && !CapReached(cfg, res.totals.cost))
      ensures LedgerWith(Graced(cfg, world, log)) && Graced(cfg, world, log).args.None?
    {
      hide Window, BooksFit, RequestFits, Owed, LogFits, Written, Conversation, Heard, Ongoing, NoTerminal, TurnLimit,
           CapReached, Offered, Posts, Posted, Judged, RunsOf, GraceCalled, Graced, End, Memory, NudgesKept;
      NoGrace(cfg, world, log);
      NothingMore(Graced(cfg, world, log));
    }

    /** What the grace call added is what the log says it adds. */
    lemma GraceLedger(from: Cursor, sent: seq<Sent>, done: bool)
      requires from == End(log) && Posts(sent) == Posted(cfg, world, log) && msgs == Conversation(cfg, world, log)
      requires AtLimit(cfg, log) && cfg.graceTurn && !CapReached(cfg, Cost(world, log))
      requires summaries == from.summaries && drains == from.drains && waits == from.waits
      requires if Offered(world.registry) == [] then
                 !done && Ledger() && Here() == End(log)
               else
                 Adds(from, Usages(world, log), sent, Judged(log), GraceText(world, msgs), done)
      ensures LedgerWith(Graced(cfg, world, log))
      ensures done <==> Graced(cfg, world, log).args.Some?
      ensures done && Offered(world.registry) != [] ==> res.completionArgs == Graced(cfg, world, log).args
    {
      hide AtLimit, CapReached, Cost, Offered, Usages, Posts, Posted, Judged, Conversation, End, GraceCalled,
           GraceText;
      if Offered(world.registry) == [] {
        NoGrace(cfg, world, log);
        NothingMore(Graced(cfg, world, log));
      }
    }

    lemma FinishedMeans()
      requires Finished()
      ensures res.completed && res.reason.Done? && res.completionArgs.Some? && res.incapableDetail == ""
      ensures EndedBy(RunsOf(judged))
    {
    }

    /** The state after the last turn and a grace call that did not complete the run. */
    ghost predicate LoopOver()
      reads this
    {
      && Always() && Owing([]) && Live() && AtLimit(cfg, log)
      && LedgerWith(Graced(cfg, world, log)) && Graced(cfg, world, log).args.None?
      && full == Written(cfg, world, log) && msgs == Conversation(cfg, world, log)
      && delivered == obtained == Heard(log)
      && res.turns == |log| == TurnLimit(cfg)
      && streams <= 2 * res.turns + (if cfg.graceTurn then 4 else 0) && summaries <= res.turns
    }

    method StopAtLimit()
      requires LoopOver() && !cfg.interactive
      modifies `res, `events
      ensures Stopped(None) && res.reason.MaxTurns?
    {
      hide Window, BooksFit, RequestFits, Owed, Spent, LogFits, Written, Conversation, Heard, Ongoing, NoTerminal,
           EndedBy, ContractFits, TurnLimit, EndedLast, Usages, Posts, Posted, Judged, RunsOf, Graced, End, AtLimit;
      Close(res.(reason := MaxTurns));
      Note(Events.StateChange(Events.StopMaxTurns));
      AtLimitMeans();
      PlainContract(cfg, world, log, res, judged);
    }

    lemma AtLimitMeans()
      requires AtLimit(cfg, log)
      ensures Ongoing(cfg, log)
    {
    }
  }
}
