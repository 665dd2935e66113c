/** The log of a run, turn by turn: what each turn received and how it was settled. Everything a
    run remembers from turn to turn, and the conversation it writes, is a function of this log. */
module TurnLog {
  import opened Wrappers
  import opened Compaction
  import opened Messages
  import opened Replay
  import opened Session
  import opened Tokens

  // ----- One tool call -----

  datatype Verdict =
    | Unknown
    | BadArgs(raw: string)
    | Refused(tool: ToolInfo, message: string)
    | Ran(tool: ToolInfo, text: string, images: seq<string>)
    | Interjected
    | PastEnd

  predicate Dispatched(v: Verdict) {
    !v.Interjected? && !v.PastEnd?
  }

  predicate Executed(v: Verdict) {
    v.Refused? || v.Ran?
  }

  predicate Terminates(v: Verdict) {
    v.Ran? && v.tool.terminal
  }

  /** The verdict is one the call can get: only success, its output and its images are open. */
  predicate Fits(world: World, call: ToolCall, v: Verdict) {
    match v
    case Unknown => Lookup(world.registry, call.name).None?
    case BadArgs(raw) =>
      Lookup(world.registry, call.name).Some? && !world.parses(call.arguments) && raw == call.arguments
    case Refused(tool, _) => Lookup(world.registry, call.name) == Some(tool) && world.parses(call.arguments)
    case Ran(tool, _, _) => Lookup(world.registry, call.name) == Some(tool) && world.parses(call.arguments)
    case Interjected => true
    case PastEnd => true
  }

  function Answer(world: World, call: ToolCall, v: Verdict): Message {
    ToolResult(call.id,
               match v
               case Unknown => world.unknownText(call.name)
               case BadArgs(_) => world.repairText(call.name, call.arguments)
               case Refused(_, message) => world.present("tool error: " + message)
               case Ran(_, text, _) => world.present(text)
               case Interjected => INTERJECTED_RESULT
               case PastEnd => POST_TERMINAL_RESULT)
  }

  // ----- One batch -----

  function Answers(world: World, calls: seq<ToolCall>, vs: seq<Verdict>): (ms: seq<Message>)
    requires |vs| <= |calls|
    ensures |ms| == |vs|
  {
    seq(|vs|, i requires 0 <= i < |vs| => Answer(world, calls[i], vs[i]))
  }

  function Capable(vs: seq<Verdict>): bool {
    vs != [] && (Capable(vs[..|vs| - 1]) || Executed(vs[|vs| - 1]))
  }

  function UsedLookup(vs: seq<Verdict>): bool {
    vs != [] && (UsedLookup(vs[..|vs| - 1]) || (Executed(vs[|vs| - 1]) && CountsAsLookup(vs[|vs| - 1].tool)))
  }

  function RawArgs(vs: seq<Verdict>): seq<string> {
    if vs == [] then []
    else RawArgs(vs[..|vs| - 1]) + if vs[|vs| - 1].BadArgs? then [vs[|vs| - 1].raw] else []
  }

  function Images(vs: seq<Verdict>): seq<string> {
    if vs == [] then []
    else Images(vs[..|vs| - 1]) + if vs[|vs| - 1].Ran? then vs[|vs| - 1].images else []
  }

  predicate Ended(vs: seq<Verdict>) {
    exists v :: v in vs && Terminates(v)
  }

  /** A batch is dispatched in order up to the first success of a terminal tool or to an
      interjection; what follows is answered without being dispatched. */
  ghost predicate BatchFits(world: World, calls: seq<ToolCall>, vs: seq<Verdict>) {
    && |vs| <= |calls|
    && (forall i :: 0 <= i < |vs| ==> Fits(world, calls[i], vs[i]))
    && (forall i, j :: 0 <= i < j < |vs| && Terminates(vs[i]) ==> vs[j].PastEnd?)
    && (forall i, j :: 0 <= i < j < |vs| && vs[i].Interjected? ==> vs[j].Interjected?)
    && (forall j :: 0 <= j < |vs| && vs[j].PastEnd? ==> exists i :: 0 <= i < j && Terminates(vs[i]))
    && (vs != [] ==> Dispatched(vs[0]))
  }

  lemma {:induction false} CapableMeans(vs: seq<Verdict>)
    ensures Capable(vs) <==> exists v :: v in vs && (v.Refused? || v.Ran?)
  {
    if vs != [] {
      var front, last := vs[..|vs| - 1], vs[|vs| - 1];
      CapableMeans(front);
      assert vs == front + [last];
    }
  }

  /** A batch used a lookup exactly when it executed a read-only tool that is not terminal. */
  lemma {:induction false} LookupMeans(vs: seq<Verdict>)
    ensures UsedLookup(vs) <==> exists v :: v in vs && (v.Refused? || v.Ran?) && v.tool.readOnly && !v.tool.terminal
  {
    if vs != [] {
      var front, last := vs[..|vs| - 1], vs[|vs| - 1];
      LookupMeans(front);
      assert vs == front + [last];
    }
  }

  lemma {:induction false} RawArgsMeans(vs: seq<Verdict>)
    ensures forall raw :: raw in RawArgs(vs) <==> BadArgs(raw) in vs
  {
    if vs != [] {
      var front, last := vs[..|vs| - 1], vs[|vs| - 1];
      RawArgsMeans(front);
      assert vs == front + [last];
    }
  }

  /** The images of a batch are those of its successful executions, in call order. */
  lemma {:induction false} ImagesMean(a: seq<Verdict>, v: Verdict, b: seq<Verdict>)
    ensures Images(a + [v] + b) == Images(a) + (if v.Ran? then v.images else []) + Images(b)
  {
    var all := a + [v] + b;
    if b == [] {
      assert all[..|all| - 1] == a;
    } else {
      var front, last := b[..|b| - 1], b[|b| - 1];
      var more := if last.Ran? then last.images else [];
      ImagesMean(a, v, front);
      assert all[..|all| - 1] == a + [v] + front && all[|all| - 1] == last;
      var before := Images(a) + (if v.Ran? then v.images else []);
      assert (before + Images(front)) + more == before + (Images(front) + more);
    }
  }

  /** The dispatched calls of a batch form a prefix of it, at most one terminal tool succeeds, and
      it is the last one dispatched. */
  lemma DispatchedPrefix(world: World, calls: seq<ToolCall>, vs: seq<Verdict>)
    requires BatchFits(world, calls, vs)
    ensures forall i, j :: 0 <= i < j < |vs| && Dispatched(vs[j]) ==> Dispatched(vs[i]) && !Terminates(vs[i])
  {
  }

  /** A batch without a capable call produced no images. */
  lemma {:induction false} NoImagesWithoutCapability(vs: seq<Verdict>)
    requires !Capable(vs)
    ensures Images(vs) == []
  {
    if vs != [] {
      NoImagesWithoutCapability(vs[..|vs| - 1]);
    }
  }

  /** The answers given so far pay the debts of the batch in order. */
  lemma {:induction false} AnswersSettle(ms: seq<Message>, world: World, calls: seq<ToolCall>, vs: seq<Verdict>)
    requires |vs| <= |calls| && Owed(ms) == Owes(Ids(calls))
    ensures Owed(ms + Answers(world, calls, vs)) == Owes(Ids(calls)[|vs|..])
  {
    hide Owed, Answer;
    if vs == [] {
      assert ms + Answers(world, calls, vs) == ms;
    } else {
      var front, last := vs[..|vs| - 1], Answer(world, calls[|vs| - 1], vs[|vs| - 1]);
      var paid := ms + Answers(world, calls, front);
      AnswersSettle(ms, world, calls, front);
      assert ms + Answers(world, calls, vs) == paid + [last];
      OwedSnoc(paid, last);
      AnswerPays(world, calls[|vs| - 1], vs[|vs| - 1]);
      DebtShrinks(Ids(calls), |vs| - 1, last);
    }
  }

  lemma AnswerPays(world: World, call: ToolCall, v: Verdict)
    ensures Answer(world, call, v).role == Tool && Answer(world, call, v).callId == call.id
  {
  }

  lemma DebtShrinks(ids: seq<string>, k: nat, m: Message)
    requires k < |ids| && m.role == Tool && m.callId == ids[k]
    ensures Settle(Owes(ids[k..]), m) == Owes(ids[k + 1..])
  {
    assert ids[k..][1..] == ids[k + 1..];
  }

  // ----- One turn -----

  datatype Attempt = NotTried | Errored | Stuck | Shrank

  datatype Nudge = NoNudge | WrapUp(left: nat) | BatchHint(streak: nat)

  datatype Shape =
    | CallFailed(after: seq<UserMessage>)
    | EmptyReply(resp: Response, after: seq<UserMessage>)
    | CutOff(resp: Response)
    | Spoke(resp: Response, after: seq<UserMessage>)
    | Batch(resp: Response, verdicts: seq<Verdict>, after: seq<UserMessage>)

  /** How far the scripts of the outside world have been read. */
  datatype Cursor = Cursor(streams: nat, summaries: nat, executions: nat, drains: nat, waits: nat)

  const ORIGIN := Cursor(0, 0, 0, 0, 0)

  /** One turn, and how far the scripts had been read at its end. */
  datatype Record = Record(opening: seq<UserMessage>, nudge: Nudge, attempt: Attempt, shape: Shape, to: Cursor)

  /** A turn before its reply: its opening messages, its nudge, and how compaction went. */
  datatype Stage = Stage(opening: seq<UserMessage>, nudge: Nudge, attempt: Attempt)

  function StageOf(r: Record): Stage {
    Stage(r.opening, r.nudge, r.attempt)
  }

  function End(log: seq<Record>): Cursor {
    if log == [] then ORIGIN else log[|log| - 1].to
  }

  function After(s: Shape): seq<UserMessage> {
    if s.CutOff? then [] else s.after
  }

  /** The limits are looked at for every reply but a final one. */
  predicate Guarded(cfg: Config, resp: Response) {
    cfg.contextWindow > 0 && !IsFinal(cfg, resp)
  }

  predicate MustCompact(cfg: Config, resp: Response) {
    Guarded(cfg, resp) && cfg.compaction.Some? && resp.usage.promptTokens >= CompactAt(cfg)
  }

  predicate MustStop(cfg: Config, resp: Response, attempt: Attempt) {
    Guarded(cfg, resp) && attempt != Shrank && resp.usage.promptTokens >= HardStop(cfg)
  }

  /** How a reply is settled is decided by the reply and by how compaction went. */
  ghost predicate ShapeFits(cfg: Config, world: World, attempt: Attempt, s: Shape) {
    if s.CallFailed? then attempt == NotTried && |s.after| <= 1
    else
      && (attempt != NotTried <==> MustCompact(cfg, s.resp))
      && (s.CutOff? <==> MustStop(cfg, s.resp, attempt))
      && match s
         case CutOff(_) => true
         case EmptyReply(resp, after) => IsEmptyResponse(resp) && |after| <= 1
         case Spoke(resp, _) => !IsEmptyResponse(resp) && resp.calls == []
         case Batch(resp, verdicts, _) =>
           resp.calls != [] && |verdicts| == |resp.calls| && BatchFits(world, resp.calls, verdicts)
  }

  function UserTexts(ums: seq<UserMessage>): (ms: seq<Message>)
    ensures |ms| == |ums|
  {
    seq(|ums|, i requires 0 <= i < |ums| => UserText(ums[i].content))
  }

  function NudgeMessages(cfg: Config, world: World, n: Nudge): seq<Message> {
    match n
    case NoNudge => []
    case WrapUp(left) => [UserText(if cfg.wrapUpMessage != "" then cfg.wrapUpMessage else world.wrapUpText(left))]
    case BatchHint(streak) =>
      [UserText(if cfg.batchNudgeMessage != "" then cfg.batchNudgeMessage else world.batchText(streak))]
  }

  function ImageMessages(vs: seq<Verdict>): seq<Message> {
    if Ended(vs) || Images(vs) == [] then [] else [ImageMessage(Images(vs))]
  }

  /** The messages a turn adds before its model call. */
  function Before(cfg: Config, world: World, opening: seq<UserMessage>, nudge: Nudge): seq<Message> {
    UserTexts(opening) + NudgeMessages(cfg, world, nudge)
  }

  /** The messages a turn adds after its model call: the reply, its answers, the images the tools
      surfaced, and last the human messages that arrived meanwhile. */
  function Afterwards(cfg: Config, world: World, s: Shape): seq<Message> {
    match s
    case CallFailed(after) => UserTexts(after)
    case EmptyReply(_, after) => UserTexts(after)
    case CutOff(_) => []
    case Spoke(resp, after) => [AssistantMessage(cfg, resp)] + UserTexts(after)
    case Batch(resp, verdicts, after) =>
      [AssistantMessage(cfg, resp)]
      + (if |verdicts| <= |resp.calls| then Answers(world, resp.calls, verdicts) else [])
      + ImageMessages(verdicts)
      + UserTexts(after)
  }

  function Written(cfg: Config, world: World, log: seq<Record>): seq<Message> {
    if log == [] then Seed(cfg)
    else
      var r := log[|log| - 1];
      Written(cfg, world, log[..|log| - 1]) + Before(cfg, world, r.opening, r.nudge) + Afterwards(cfg, world, r.shape)
  }

  /** Every human message the log delivered, in order. */
  function Heard(log: seq<Record>): seq<UserMessage> {
    if log == [] then []
    else Heard(log[..|log| - 1]) + log[|log| - 1].opening + After(log[|log| - 1].shape)
  }

  /** A tool call and what became of it. */
  datatype Decision = Decision(id: string, verdict: Verdict)

  function Decided(calls: seq<ToolCall>, vs: seq<Verdict>): (ds: seq<Decision>)
    requires |vs| <= |calls|
    ensures |ds| == |vs|
  {
    seq(|vs|, i requires 0 <= i < |vs| => Decision(calls[i].id, vs[i]))
  }

  function Decisions(s: Shape): seq<Decision> {
    if s.Batch? && |s.verdicts| <= |s.resp.calls| then Decided(s.resp.calls, s.verdicts) else []
  }

  /** Every tool call of the log, in order, and what became of it. */
  function Judged(log: seq<Record>): seq<Decision> {
    if log == [] then [] else Judged(log[..|log| - 1]) + Decisions(log[|log| - 1].shape)
  }

  // ----- What a log costs -----

  /** What the summarizer was paid for between two readings of its script, at most one apart. */
  function SummaryUsages(world: World, from: nat, to: nat): seq<Usage> {
    if from < to && world.summarizer(from).Summarized? then [world.summarizer(from).resp.usage] else []
  }

  function ReplyUsages(s: Shape): seq<Usage> {
    if s.CallFailed? then [] else [s.resp.usage]
  }

  /** The usage of every call that was answered, in order: in each turn the reply, then the summary. */
  function Usages(world: World, log: seq<Record>): seq<Usage> {
    if log == [] then []
    else
      var past, r := log[..|log| - 1], log[|log| - 1];
      Usages(world, past) + ReplyUsages(r.shape) + SummaryUsages(world, End(past).summaries, r.to.summaries)
  }

  ghost function Cost(world: World, log: seq<Record>): int {
    Spent(Usages(world, log)).cost
  }

  /** A turn may start after `past`: the cost cap is not reached and turns are left. */
  ghost predicate MayStart(cfg: Config, world: World, past: seq<Record>) {
    !CapReached(cfg, Cost(world, past)) && (!cfg.interactive ==> |past| < TurnLimit(cfg))
  }

  // ----- What a run remembers -----

  /** The unproductive streak, oldest turn first: the arguments that failed to parse in each turn of
      it. Reaching the threshold starts it over. */
  function Streak(log: seq<Record>, threshold: nat): seq<seq<string>> {
    if log == [] then []
    else NextStreak(Streak(log[..|log| - 1], threshold), log[|log| - 1].shape, threshold)
  }

  function NextStreak(s: seq<seq<string>>, shape: Shape, threshold: nat): seq<seq<string>> {
    if !shape.Batch? then s
    else if Capable(shape.verdicts) then []
    else if |s| + 1 >= threshold then []
    else s + [RawArgs(shape.verdicts)]
  }

  /** Whether a turn completed a full streak. */
  predicate Trips(past: seq<Record>, shape: Shape, threshold: nat) {
    shape.Batch? && !Capable(shape.verdicts) && |Streak(past, threshold)| + 1 >= threshold
  }

  function NextEmpty(n: nat, attempt: Attempt, shape: Shape): nat {
    match shape
    case EmptyReply(_, _) =>
      var m := (if attempt == Shrank then 0 else n) + 1;
      if m > MAX_EMPTY_RESPONSE_RETRIES then 0 else m
    case CutOff(_) => n
    case _ => 0
  }

  /** Consecutive empty replies still being retried. */
  function EmptyStreak(log: seq<Record>): nat {
    if log == [] then 0
    else NextEmpty(EmptyStreak(log[..|log| - 1]), log[|log| - 1].attempt, log[|log| - 1].shape)
  }

  predicate GivesUp(past: seq<Record>, attempt: Attempt, shape: Shape) {
    shape.EmptyReply? && attempt != Shrank && EmptyStreak(past) == MAX_EMPTY_RESPONSE_RETRIES
  }

  function NextSingle(n: nat, shape: Shape): nat {
    match shape
    case Spoke(_, _) => 0
    case Batch(resp, verdicts, _) => if |resp.calls| == 1 && UsedLookup(verdicts) then n + 1 else 0
    case _ => n
  }

  /** Consecutive turns that spent a whole call on one read-only lookup. A failed call and an empty
      reply leave the count alone. */
  function SingleStreak(log: seq<Record>): nat {
    if log == [] then 0 else NextSingle(SingleStreak(log[..|log| - 1]), log[|log| - 1].shape)
  }

  function WrapUps(log: seq<Record>): nat {
    if log == [] then 0 else WrapUps(log[..|log| - 1]) + if log[|log| - 1].nudge.WrapUp? then 1 else 0
  }

  function BatchHints(log: seq<Record>): nat {
    if log == [] then 0 else BatchHints(log[..|log| - 1]) + if log[|log| - 1].nudge.BatchHint? then 1 else 0
  }

  /** The nudge owed at the start of the turn that follows `past`. */
  function NudgeDue(cfg: Config, past: seq<Record>): Nudge {
    if !cfg.interactive && cfg.wrapUpTurns > 0 && WrapUps(past) == 0 && TurnLimit(cfg) - |past| == cfg.wrapUpTurns
    then WrapUp(cfg.wrapUpTurns)
    else if cfg.batchNudgeTurns > 0 && BatchHints(past) == 0 && WrapUps(past) == 0
            && SingleStreak(past) >= cfg.batchNudgeTurns
    then BatchHint(SingleStreak(past))
    else NoNudge
  }

  /** A turn that can follow `past`, apart from its opening. */
  ghost predicate Settles(cfg: Config, world: World, past: seq<Record>, attempt: Attempt, s: Shape) {
    && (!cfg.inbox ==> After(s) == [])
    && (s.CallFailed? && !cfg.interactive ==> s.after == [])
    && (s.EmptyReply? && !(cfg.interactive && GivesUp(past, attempt, s)) ==> s.after == [])
    && ShapeFits(cfg, world, attempt, s)
  }

  // ----- What the outside answered -----

  /** Whether a rejected request is sent again: it carried a pin or reasoning. */
  ghost predicate Resends(req: Request) {
    var (sent, pin) := Pinned(req);
    pin != "" || CarriesReasoning(sent.messages)
  }

  /** How many requests one model call takes: a second one when the first was rejected and is sent again. */
  ghost function Calls(cfg: Config, first: ModelOutcome, live: seq<Message>): (n: nat)
    ensures 1 <= n <= 2
  {
    if first.Rejected? && Resends(Request(live, cfg.routing)) then 2 else 1
  }

  predicate Receives(outcome: ModelOutcome, s: Shape) {
    match outcome
    case Reply(resp) => !s.CallFailed? && s.resp == resp
    case _ => s.CallFailed?
  }

  // ----- The live conversation -----

  function KeepRecent(cfg: Config): int {
    if cfg.compaction.Some? then cfg.compaction.value.keepRecent else 0
  }

  /** How an attempt to compact `ms` goes when the summarizer is asked the `k`-th time, and the history
      it leaves. */
  function Attempted(world: World, ms: seq<Message>, keep: int, k: nat): (Attempt, seq<Message>) {
    var plan := PlanFor(ms, keep);
    if !plan.Cut? || world.summarizer(k).SummaryFailed? then (Errored, ms)
    else
      var out := Compacted(ms, plan.at, world.summarizer(k).resp.content);
      if |out| < |ms| then (Shrank, out) else (Stuck, ms)
  }

  /** The conversation after the turns of a log: what they wrote, shortened where they compacted. */
  function Conversation(cfg: Config, world: World, log: seq<Record>): seq<Message>
    decreases |log|, 0
  {
    if log == [] then Seed(cfg)
    else
      var past, r := log[..|log| - 1], log[|log| - 1];
      Kept(cfg, world, past, StageOf(r)) + Afterwards(cfg, world, r.shape)
  }

  /** The conversation the turn after `past` puts to the model. */
  function Asked(cfg: Config, world: World, past: seq<Record>, t: Stage): seq<Message>
    decreases |past|, 1
  {
    Conversation(cfg, world, past) + Before(cfg, world, t.opening, t.nudge)
  }

  /** What compaction leaves of it before the turn adds its reply. */
  function Kept(cfg: Config, world: World, past: seq<Record>, t: Stage): seq<Message>
    decreases |past|, 2
  {
    if t.attempt.NotTried? then Asked(cfg, world, past, t)
    else Attempted(world, Asked(cfg, world, past, t), KeepRecent(cfg), End(past).summaries).1
  }

  /** An attempt at compaction goes as the conversation and the summarizer decide; the summarizer is
      asked once when there is something to summarize. */
  predicate AttemptPlays(cfg: Config, world: World, past: seq<Record>, t: Stage, to: nat) {
    var asked, from := Asked(cfg, world, past, t), End(past).summaries;
    if t.attempt.NotTried? then to == from
    else
      && t.attempt == Attempted(world, asked, KeepRecent(cfg), from).0
      && to == from + if PlanFor(asked, KeepRecent(cfg)).Cut? then 1 else 0
  }

  // ----- Tools and the inbox -----

  function Executions(vs: seq<Verdict>): nat {
    if vs == [] then 0 else Executions(vs[..|vs| - 1]) + if Executed(vs[|vs| - 1]) then 1 else 0
  }

  predicate Reports(outcome: ToolOutcome, v: Verdict) {
    match v
    case Refused(_, message) => outcome == ToolError(message)
    case Ran(_, text, images) => outcome == Output(text, images)
    case _ => true
  }

  /** Every execution of a batch reports what the tool did, in order. */
  predicate Played(world: World, from: nat, vs: seq<Verdict>) {
    vs == [] ||
    (var front, last := vs[..|vs| - 1], vs[|vs| - 1];
     Played(world, from, front) && Reports(world.execute(from + Executions(front)), last))
  }

  predicate ToolsPlay(world: World, from: nat, to: nat, s: Shape) {
    if s.Batch? then to == from + Executions(s.verdicts) && Played(world, from, s.verdicts) else to == from
  }

  /** How often the inbox is looked at in a batch of `n` calls of which these were decided: after every
      dispatched call that has one after it and did not end the run. */
  function Polls(cfg: Config, n: nat, vs: seq<Verdict>): nat {
    if !cfg.inbox || vs == [] then 0
    else
      var last := vs[|vs| - 1];
      Polls(cfg, n, vs[..|vs| - 1]) + if |vs| < n && Dispatched(last) && !Terminates(last) then 1 else 0
  }

  /** The last poll of a batch stashes what it finds; the polls before it found nothing. */
  ghost predicate FoundNothing(world: World, from: nat, polls: nat) {
    forall d: nat :: from <= d && d + 1 < from + polls ==> world.drain(d) == []
  }

  function Stash(world: World, from: nat, polls: nat): seq<UserMessage> {
    if polls > 0 then world.drain(from + polls - 1) else []
  }

  predicate Interrupted(vs: seq<Verdict>) {
    exists v :: v in vs && v.Interjected?
  }

  function Waiting(cfg: Config, world: World, drains: nat): seq<UserMessage> {
    if cfg.inbox then world.drain(drains) else []
  }

  function Arrived(outcome: WaitOutcome): seq<UserMessage> {
    if outcome.Input? then [outcome.message] else []
  }

  /** The run waited for the human, or did not. */
  predicate Listened(world: World, from: nat, to: nat, blocks: bool, after: seq<UserMessage>) {
    if blocks then to == from + 1 && after == Arrived(world.wait(from)) else to == from && after == []
  }

  /** A batch's interjections are delivered, except that a full unproductive streak stops a run that is
      not interactive and makes any other wait for the human when there were none. */
  ghost predicate BatchInput(cfg: Config, world: World, past: seq<Record>, from: Cursor, to: Cursor, s: Shape)
    requires s.Batch?
  {
    var polls := Polls(cfg, |s.resp.calls|, s.verdicts);
    var pending := Stash(world, from.drains, polls);
    var trips := Trips(past, s, IncapableLimit(cfg));
    && to.drains == from.drains + polls
    && FoundNothing(world, from.drains, polls)
    && (pending != [] <==> Interrupted(s.verdicts))
    && if Ended(s.verdicts) || (trips && !cfg.interactive) then Listened(world, from.waits, to.waits, false, s.after)
       else if trips && pending == [] then Listened(world, from.waits, to.waits, true, s.after)
       else s.after == pending && to.waits == from.waits
  }

  /** Where the human messages of the rest of a turn come from; `from` is read after its opening. */
  ghost predicate InputPlays(cfg: Config, world: World, past: seq<Record>, from: Cursor, to: Cursor,
                             attempt: Attempt, s: Shape) {
    match s
    case CallFailed(after) => to.drains == from.drains && Listened(world, from.waits, to.waits, cfg.interactive, after)
    case EmptyReply(_, after) =>
      && to.drains == from.drains
      && Listened(world, from.waits, to.waits, cfg.interactive && GivesUp(past, attempt, s), after)
    case CutOff(_) => to.drains == from.drains && to.waits == from.waits
    case Spoke(_, after) =>
      if !cfg.inbox then to.drains == from.drains && Listened(world, from.waits, to.waits, false, after)
      else
        && to.drains == from.drains + 1
        && if world.drain(from.drains) != [] then after == world.drain(from.drains) && to.waits == from.waits
           else Listened(world, from.waits, to.waits, true, after)
    case Batch(_, _, _) => BatchInput(cfg, world, past, from, to, s)
  }

  function Opened(cfg: Config, at: Cursor): Cursor {
    at.(drains := at.drains + if cfg.inbox then 1 else 0)
  }

  /** A turn is exactly what the scripts answer from where the turns before it had read them. */
  ghost predicate Plays(cfg: Config, world: World, past: seq<Record>, r: Record) {
    var from, to := End(past), r.to;
    && r.opening == Waiting(cfg, world, from.drains)
    && to.streams == from.streams + Calls(cfg, world.model(from.streams), Asked(cfg, world, past, StageOf(r)))
    && Receives(world.model(to.streams - 1), r.shape)
    && AttemptPlays(cfg, world, past, StageOf(r), to.summaries)
    && ToolsPlay(world, from.executions, to.executions, r.shape)
    && InputPlays(cfg, world, past, Opened(cfg, from), to, r.attempt, r.shape)
  }

  ghost predicate RecordFits(cfg: Config, world: World, past: seq<Record>, r: Record) {
    && MayStart(cfg, world, past)
    && r.nudge == NudgeDue(cfg, past)
    && (!cfg.inbox ==> r.opening == [])
    && Settles(cfg, world, past, r.attempt, r.shape)
    && Plays(cfg, world, past, r)
  }

  /** Every turn of the log is one the run can take after the turns before it. */
  ghost predicate LogFits(cfg: Config, world: World, log: seq<Record>) {
    log == [] || (LogFits(cfg, world, log[..|log| - 1]) && RecordFits(cfg, world, log[..|log| - 1], log[|log| - 1]))
  }

  lemma LogSnoc(cfg: Config, world: World, log: seq<Record>, r: Record)
    ensures LogFits(cfg, world, log + [r]) <==> LogFits(cfg, world, log) && RecordFits(cfg, world, log, r)
    ensures Written(cfg, world, log + [r])
         == Written(cfg, world, log) + Before(cfg, world, r.opening, r.nudge) + Afterwards(cfg, world, r.shape)
    ensures Conversation(cfg, world, log + [r])
         == Kept(cfg, world, log, StageOf(r)) + Afterwards(cfg, world, r.shape)
    ensures Heard(log + [r]) == Heard(log) + r.opening + After(r.shape)
    ensures End(log + [r]) == r.to
    ensures Judged(log + [r]) == Judged(log) + Decisions(r.shape)
    ensures Usages(world, log + [r])
         == Usages(world, log) + ReplyUsages(r.shape) + SummaryUsages(world, End(log).summaries, r.to.summaries)
    ensures Streak(log + [r], IncapableLimit(cfg))
            == NextStreak(Streak(log, IncapableLimit(cfg)), r.shape, IncapableLimit(cfg))
    ensures EmptyStreak(log + [r]) == NextEmpty(EmptyStreak(log), r.attempt, r.shape)
    ensures SingleStreak(log + [r]) == NextSingle(SingleStreak(log), r.shape)
    ensures WrapUps(log + [r]) == WrapUps(log) + if r.nudge.WrapUp? then 1 else 0
    ensures BatchHints(log + [r]) == BatchHints(log) + if r.nudge.BatchHint? then 1 else 0
  {
    assert (log + [r])[..|log|] == log;
  }

  // ----- When a run must stop -----

  /** The turn waited for the human and nothing came: the inbox was closed or the wait failed. */
  predicate Unanswered(from: Cursor, r: Record) {
    r.to.waits > from.waits && After(r.shape) == []
  }

  /** A turn after which the run cannot go on. */
  ghost predicate Ends(cfg: Config, past: seq<Record>, r: Record) {
    || r.shape.CutOff?
    || Unanswered(End(past), r)
    || (r.shape.Spoke? && !cfg.inbox)
    || (r.shape.Batch? && Ended(r.shape.verdicts))
    || (!cfg.interactive &&
        (r.shape.CallFailed? || GivesUp(past, r.attempt, r.shape) || Trips(past, r.shape, IncapableLimit(cfg))))
  }

  /** No turn of the log ended the run. */
  ghost predicate Ongoing(cfg: Config, log: seq<Record>) {
    log == [] || (Ongoing(cfg, log[..|log| - 1]) && !Ends(cfg, log[..|log| - 1], log[|log| - 1]))
  }

  /** A batch in which a terminal tool succeeded is capable, so it never completes a streak. */
  lemma EndedNeverTrips(past: seq<Record>, shape: Shape, threshold: nat)
    ensures !(shape.Batch? && Ended(shape.verdicts) && Trips(past, shape, threshold))
  {
    if shape.Batch? && Ended(shape.verdicts) {
      CapableMeans(shape.verdicts);
    }
  }

  lemma OngoingSnoc(cfg: Config, log: seq<Record>, r: Record)
    ensures Ongoing(cfg, log + [r]) <==> Ongoing(cfg, log) && !Ends(cfg, log, r)
  {
    assert (log + [r])[..|log|] == log;
  }

  lemma VerdictsSnoc(vs: seq<Verdict>, v: Verdict)
    ensures Capable(vs + [v]) <==> Capable(vs) || Executed(v)
    ensures UsedLookup(vs + [v]) <==> UsedLookup(vs) || (Executed(v) && CountsAsLookup(v.tool))
    ensures RawArgs(vs + [v]) == RawArgs(vs) + if v.BadArgs? then [v.raw] else []
    ensures Images(vs + [v]) == Images(vs) + if v.Ran? then v.images else []
    ensures Ended(vs + [v]) <==> Ended(vs) || Terminates(v)
  {
    assert (vs + [v])[..|vs|] == vs;
    if Ended(vs) {
      var w :| w in vs && Terminates(w);
      assert w in vs + [v];
    }
    if Terminates(v) {
      assert v in vs + [v];
    }
  }

  lemma AnswersSnoc(world: World, calls: seq<ToolCall>, vs: seq<Verdict>, v: Verdict)
    requires |vs| < |calls|
    ensures Answers(world, calls, vs + [v]) == Answers(world, calls, vs) + [Answer(world, calls[|vs|], v)]
  {
  }

  /** Dispatching the next call of a batch that is still open. */
  lemma BatchDispatches(world: World, calls: seq<ToolCall>, vs: seq<Verdict>, v: Verdict)
    requires BatchFits(world, calls, vs) && |vs| < |calls| && Fits(world, calls[|vs|], v) && Dispatched(v)
    requires !Ended(vs) && forall w :: w in vs ==> !w.Interjected?
    ensures BatchFits(world, calls, vs + [v])
  {
    forall i | 0 <= i < |vs| ensures !Terminates(vs[i]) && !vs[i].Interjected? && !vs[i].PastEnd? {
      assert vs[i] in vs;
    }
  }

  /** Answering the next call of a batch that was interrupted or has ended. */
  lemma BatchSkips(world: World, calls: seq<ToolCall>, vs: seq<Verdict>, v: Verdict)
    requires BatchFits(world, calls, vs) && 0 < |vs| < |calls|
    requires if Ended(vs) then v == PastEnd else v == Interjected
    ensures BatchFits(world, calls, vs + [v])
  {
    var next := vs + [v];
    if Ended(vs) {
      var w :| w in vs && Terminates(w);
      var k :| 0 <= k < |vs| && vs[k] == w;
      PastEndSkips(world, calls, vs, k);
    } else {
      forall i | 0 <= i < |vs| ensures !Terminates(vs[i]) && !vs[i].PastEnd? {
        assert vs[i] in vs;
      }
    }
  }

  lemma PastEndSkips(world: World, calls: seq<ToolCall>, vs: seq<Verdict>, k: nat)
    requires BatchFits(world, calls, vs) && k < |vs| < |calls| && Terminates(vs[k])
    ensures BatchFits(world, calls, vs + [PastEnd])
  {
    var next := vs + [PastEnd];
    assert Terminates(next[k]);
    forall j | 0 <= j < |next| && next[j].PastEnd? ensures exists i :: 0 <= i < j && Terminates(next[i]) {
      if j < |vs| {
        var i :| 0 <= i < j && Terminates(vs[i]);
        assert Terminates(next[i]);
      }
    }
  }
}
