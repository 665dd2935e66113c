/** What the messages of a conversation say, message by message and field by field: how a run starts, what
    each turn adds, and what compaction leaves. */
module Transcript {
  import opened Wrappers
  import opened Compaction
  import opened Messages
  import opened Replay
  import opened Session
  import opened TurnLog

  // ----- One message -----

  /** The text that tells the model what became of a call. */
  ghost predicate Tells(world: World, call: ToolCall, v: Verdict, text: string) {
    match v
    case Unknown => text == world.unknownText(call.name)
    case BadArgs(_) => text == world.repairText(call.name, call.arguments)
    case Refused(_, message) => text == world.present("tool error: " + message)
    case Ran(_, output, _) => text == world.present(output)
    case Interjected => text == "skipped: user interjected"
    case PastEnd => text == "unexecuted: an earlier call in this batch ended the run"
  }

  /** The message answers this call with that text; "(no output)" stands for an empty one. */
  ghost predicate Relays(world: World, call: ToolCall, v: Verdict, m: Message) {
    && m == Message(Tool, m.content, [], [], call.id, NoDetails, "")
    && if Tells(world, call, v, "") then m.content == "(no output)" else Tells(world, call, v, m.content)
  }

  /** One answer per call, in call order. */
  ghost predicate RelaysAll(world: World, calls: seq<ToolCall>, vs: seq<Verdict>, ms: seq<Message>) {
    && |ms| == |vs| == |calls|
    && forall i :: 0 <= i < |ms| ==> Relays(world, calls[i], vs[i], ms[i])
  }

  /** A user message with this text and nothing else. */
  ghost predicate Says(m: Message, text: string) {
    m == Message(User, text, [], [], "", NoDetails, "")
  }

  /** The human messages, in order. */
  ghost predicate SayAll(ms: seq<Message>, ums: seq<UserMessage>) {
    && |ms| == |ums|
    && forall i :: 0 <= i < |ms| ==> Says(ms[i], ums[i].content)
  }

  /** The assistant message of a reply: its text and its calls; its reasoning, with the provider it came
      from, only when replay is on. */
  ghost predicate Speaks(cfg: Config, resp: Response, m: Message) {
    var kept := cfg.replayReasoning && !resp.details.NoDetails?;
    m == Message(Assistant, resp.content, [], resp.calls, "", if kept then resp.details else NoDetails,
                 if kept then resp.provider else "")
  }

  /** The images of a batch in one user message, when it has any and did not end the run. */
  ghost predicate ShowsImages(vs: seq<Verdict>, ms: seq<Message>) {
    if (exists v :: v in vs && v.Ran? && v.tool.terminal) || Images(vs) == [] then ms == []
    else ms == [Message(User, "Images returned by the preceding tool call(s):", Images(vs), [], "", NoDetails, "")]
  }

  // ----- One turn -----

  /** What a turn adds before its model call: the messages that were waiting, and the nudge. */
  ghost predicate Opens(cfg: Config, world: World, opening: seq<UserMessage>, nudge: Nudge, ms: seq<Message>) {
    && |ms| == |opening| + (if nudge.NoNudge? then 0 else 1)
    && SayAll(ms[..|opening|], opening)
    && match nudge
       case NoNudge => true
       case WrapUp(left) =>
         Says(ms[|opening|], if cfg.wrapUpMessage == "" then world.wrapUpText(left) else cfg.wrapUpMessage)
       case BatchHint(streak) =>
         Says(ms[|opening|], if cfg.batchNudgeMessage == "" then world.batchText(streak) else cfg.batchNudgeMessage)
  }

  /** What a turn adds after its model call: the reply, the answers, the images, the human messages. */
  ghost predicate Adds(cfg: Config, world: World, s: Shape, ms: seq<Message>) {
    match s
    case CallFailed(after) => SayAll(ms, after)
    case EmptyReply(_, after) => SayAll(ms, after)
    case CutOff(_) => ms == []
    case Spoke(resp, after) => ms != [] && Speaks(cfg, resp, ms[0]) && SayAll(ms[1..], after)
    case Batch(resp, vs, after) =>
      var answered, shown := 1 + |resp.calls|, |ms| - |after|;
      && answered <= shown
      && Speaks(cfg, resp, ms[0])
      && RelaysAll(world, resp.calls, vs, ms[1..answered])
      && ShowsImages(vs, ms[answered..shown])
      && SayAll(ms[shown..], after)
  }

  /** What compaction leaves: the system prompt, a user message with the summary, and the messages from
      the cut on. */
  ghost predicate Shortened(ms: seq<Message>, keep: int, text: string, out: seq<Message>) {
    exists b: nat :: SplitsAt(ms, keep, b) && LeftFrom(ms, b, text, out)
  }

  ghost predicate LeftFrom(ms: seq<Message>, b: nat, text: string, out: seq<Message>) {
    var sys := if ms != [] && ms[0].role == System then 1 else 0;
    && b <= |ms|
    && out == ms[..sys]
              + [Message(User, "[Earlier conversation, summarized]\n" + text, [], [], "", NoDetails, "")]
              + ms[b..]
  }

  /** The conversation a run starts from: system prompt, history, task. */
  ghost predicate Starts(cfg: Config, ms: seq<Message>) {
    var sys := if cfg.systemPrompt == "" then 0 else 1;
    && |ms| == sys + |cfg.history| + 1
    && (sys == 1 ==> ms[0] == Message(System, cfg.systemPrompt, [], [], "", NoDetails, ""))
    && (if cfg.replayReasoning then ms[sys..|ms| - 1] == cfg.history
        else SameButDetails(ms[sys..|ms| - 1], cfg.history) && Silent(ms[sys..|ms| - 1]))
    && ms[|ms| - 1] == Message(User, cfg.task, cfg.taskImages, [], "", NoDetails, "")
  }

  /** The turn `r` after `past`, as the conversation shows it: what it opens with follows the conversation,
      which is then left alone or shortened, and what it adds comes last. Everything ever written gains the
      same messages. */
  ghost predicate TurnShown(cfg: Config, world: World, past: seq<Record>, r: Record) {
    var had, asked := Conversation(cfg, world, past), Asked(cfg, world, past, StageOf(r));
    var kept, has := Kept(cfg, world, past, StageOf(r)), Conversation(cfg, world, past + [r]);
    && had <= asked && Opens(cfg, world, r.opening, r.nudge, asked[|had|..])
    && (if r.attempt.Shrank?
        then var k := End(past).summaries;
             world.summarizer(k).Summarized?
             && Shortened(asked, KeepRecent(cfg), world.summarizer(k).resp.content, kept)
        else kept == asked)
    && kept <= has && Adds(cfg, world, r.shape, has[|kept|..])
    && Written(cfg, world, past + [r]) == Written(cfg, world, past) + asked[|had|..] + has[|kept|..]
  }

  /** The conversation of a log starts as a run does and shows every turn of it. */
  ghost predicate Transcribed(cfg: Config, world: World, log: seq<Record>) {
    && Starts(cfg, Conversation(cfg, world, [])) && Starts(cfg, Written(cfg, world, []))
    && forall i :: 0 <= i < |log| ==> TurnShown(cfg, world, log[..i], log[i])
  }

  // ----- What is written says this -----

  lemma AnswerRelays(world: World, call: ToolCall, v: Verdict)
    ensures Relays(world, call, v, Answer(world, call, v))
  {
  }

  lemma AnswersRelay(world: World, calls: seq<ToolCall>, vs: seq<Verdict>)
    requires |vs| == |calls|
    ensures RelaysAll(world, calls, vs, Answers(world, calls, vs))
  {
    hide Answer, Relays;
    forall i | 0 <= i < |vs| ensures Relays(world, calls[i], vs[i], Answers(world, calls, vs)[i]) {
      AnswerRelays(world, calls[i], vs[i]);
    }
  }

  lemma ReplySpeaks(cfg: Config, resp: Response)
    ensures Speaks(cfg, resp, AssistantMessage(cfg, resp))
  {
  }

  lemma TextsSay(ums: seq<UserMessage>)
    ensures SayAll(UserTexts(ums), ums)
  {
  }

  lemma ImagesShow(vs: seq<Verdict>)
    ensures ShowsImages(vs, ImageMessages(vs))
  {
    assert Ended(vs) <==> exists v :: v in vs && v.Ran? && v.tool.terminal;
  }

  lemma BeforeOpens(cfg: Config, world: World, opening: seq<UserMessage>, nudge: Nudge)
    ensures Opens(cfg, world, opening, nudge, Before(cfg, world, opening, nudge))
  {
    TextsSay(opening);
    assert Before(cfg, world, opening, nudge)[..|opening|] == UserTexts(opening);
  }

  lemma AfterwardsAdds(cfg: Config, world: World, s: Shape)
    requires s.Batch? ==> |s.verdicts| == |s.resp.calls|
    ensures Adds(cfg, world, s, Afterwards(cfg, world, s))
  {
    hide Speaks, AssistantMessage, ShowsImages, ImageMessages, RelaysAll, Answers, SayAll, UserTexts;
    TextsSay(After(s));
    match s {
      case Spoke(resp, after) =>
        ReplySpeaks(cfg, resp);
        assert Afterwards(cfg, world, s)[1..] == UserTexts(after);
      case Batch(resp, vs, after) =>
        var ms, answered := Afterwards(cfg, world, s), 1 + |vs|;
        ReplySpeaks(cfg, resp);
        AnswersRelay(world, resp.calls, vs);
        ImagesShow(vs);
        assert ms[1..answered] == Answers(world, resp.calls, vs);
        assert ms[answered..|ms| - |after|] == ImageMessages(vs);
        assert ms[|ms| - |after|..] == UserTexts(after);
      case _ =>
    }
  }

  /** An attempt shortens the conversation to what its cut leaves. */
  lemma AttemptShortens(world: World, ms: seq<Message>, keep: int, k: nat)
    ensures var (attempt, out) := Attempted(world, ms, keep, k);
            if attempt.Shrank?
            then world.summarizer(k).Summarized? && Shortened(ms, keep, world.summarizer(k).resp.content, out)
            else out == ms
  {
    hide PlanFor, SplitsAt;
    var plan := PlanFor(ms, keep);
    PlanExactly(ms, keep);
    if plan.Cut? && world.summarizer(k).Summarized? {
      var text := world.summarizer(k).resp.content;
      CompactedShape(ms, plan.at, text);
      assert SplitsAt(ms, keep, plan.at) && LeftFrom(ms, plan.at, text, Compacted(ms, plan.at, text));
    }
  }

  lemma SeedStarts(cfg: Config)
    ensures Starts(cfg, Seed(cfg))
  {
    var ms, past := Seed(cfg), if cfg.replayReasoning then cfg.history else Bare(cfg.history);
    assert ms[|SystemPart(cfg)|..|ms| - 1] == past;
  }

  lemma TurnShows(cfg: Config, world: World, past: seq<Record>, r: Record)
    requires RecordFits(cfg, world, past, r)
    ensures TurnShown(cfg, world, past, r)
  {
    hide Conversation, Written, Attempted, MayStart, NudgeDue, Opens, Adds, Shortened, InputPlays, ToolsPlay,
         Receives, Calls, Before, Afterwards, Waiting, BatchFits, MustCompact, MustStop, IsEmptyResponse;
    var asked := Asked(cfg, world, past, StageOf(r));
    BeforeOpens(cfg, world, r.opening, r.nudge);
    AfterwardsAdds(cfg, world, r.shape);
    AttemptShortens(world, asked, KeepRecent(cfg), End(past).summaries);
    LogSnoc(cfg, world, past, r);
  }

  /** The conversation of every log that fits its scripts, from the seed on. */
  lemma {:induction false} LogTranscribed(cfg: Config, world: World, log: seq<Record>)
    requires LogFits(cfg, world, log)
    ensures Transcribed(cfg, world, log)
  {
    hide RecordFits, TurnShown, Starts;
    if log == [] {
      SeedStarts(cfg);
    } else {
      var past, last := log[..|log| - 1], log[|log| - 1];
      LogTranscribed(cfg, world, past);
      TurnShows(cfg, world, past, last);
      forall i | 0 <= i < |log| ensures TurnShown(cfg, world, log[..i], log[i]) {
        assert i < |past| ==> past[..i] == log[..i] && past[i] == log[i];
      }
    }
  }

  // ----- A conversation stays closed -----

  lemma UsersClosed(ms: seq<Message>)
    requires forall i :: 0 <= i < |ms| ==> ms[i].role == User
    ensures Closed(ms)
  {
  }

  lemma GroupClosed(cfg: Config, world: World, resp: Response, vs: seq<Verdict>)
    requires |vs| == |resp.calls|
    ensures Closed([AssistantMessage(cfg, resp)] + Answers(world, resp.calls, vs))
  {
    hide Answers;
    var m := AssistantMessage(cfg, resp);
    OwedSnoc([], m);
    assert [] + [m] == [m];
    AnswersSettle([m], world, resp.calls, vs);
    ClosedIffSettled([m] + Answers(world, resp.calls, vs));
  }

  lemma BeforeClosed(cfg: Config, world: World, opening: seq<UserMessage>, nudge: Nudge)
    ensures Closed(Before(cfg, world, opening, nudge))
  {
    hide Closed;
    UsersClosed(Before(cfg, world, opening, nudge));
  }

  lemma AfterwardsClosed(cfg: Config, world: World, s: Shape)
    requires s.Batch? ==> |s.verdicts| == |s.resp.calls|
    requires s.Spoke? ==> s.resp.calls == []
    ensures Closed(Afterwards(cfg, world, s))
  {
    hide Closed, AssistantMessage, Answers;
    UsersClosed(UserTexts(After(s)));
    match s {
      case Spoke(resp, after) =>
        GroupClosed(cfg, world, resp, []);
        assert [AssistantMessage(cfg, resp)] + Answers(world, resp.calls, []) == [AssistantMessage(cfg, resp)];
        AppendClosed([AssistantMessage(cfg, resp)], UserTexts(after));
      case Batch(resp, vs, after) =>
        var group := [AssistantMessage(cfg, resp)] + Answers(world, resp.calls, vs);
        GroupClosed(cfg, world, resp, vs);
        UsersClosed(ImageMessages(vs));
        AppendClosed(group, ImageMessages(vs));
        AppendClosed(group + ImageMessages(vs), UserTexts(after));
      case _ =>
        UsersClosed([]);
    }
  }

  lemma AttemptedClosed(world: World, ms: seq<Message>, keep: int, k: nat)
    requires Closed(ms)
    ensures Closed(Attempted(world, ms, keep, k).1)
  {
    hide Closed, PlanFor, Compacted;
    if PlanFor(ms, keep).Cut? && world.summarizer(k).Summarized? {
      CompactedClosed(ms, keep, world.summarizer(k).resp.content);
    }
  }

  /** From a closed history every conversation of a log is closed, and so is what each turn asks. */
  lemma {:induction false} ConversationClosed(cfg: Config, world: World, log: seq<Record>, t: Stage)
    requires LogFits(cfg, world, log) && Closed(cfg.history)
    ensures Closed(Conversation(cfg, world, log)) && Closed(Asked(cfg, world, log, t))
  {
    hide Closed, RecordFits, Before, Afterwards, Attempted, Seed;
    if log == [] {
      SeedClosed(cfg);
    } else {
      var past, r := log[..|log| - 1], log[|log| - 1];
      ConversationClosed(cfg, world, past, StageOf(r));
      ShapeSized(cfg, world, past, r);
      AttemptedClosed(world, Asked(cfg, world, past, StageOf(r)), KeepRecent(cfg), End(past).summaries);
      AfterwardsClosed(cfg, world, r.shape);
      AppendClosed(Kept(cfg, world, past, StageOf(r)), Afterwards(cfg, world, r.shape));
    }
    BeforeClosed(cfg, world, t.opening, t.nudge);
    AppendClosed(Conversation(cfg, world, log), Before(cfg, world, t.opening, t.nudge));
  }

  lemma ShapeSized(cfg: Config, world: World, past: seq<Record>, r: Record)
    requires RecordFits(cfg, world, past, r)
    ensures r.shape.Batch? ==> |r.shape.verdicts| == |r.shape.resp.calls|
    ensures r.shape.Spoke? ==> r.shape.resp.calls == []
  {
    hide MayStart, NudgeDue, Plays, BatchFits, MustCompact, MustStop;
  }
}
