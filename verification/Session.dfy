/** What a run is given: its configuration, and the answers of everything outside it. */
module Session {
  import opened Wrappers
  import opened Messages
  import opened Tokens
  import opened Replay
  import opened Compaction
  import Text

  const DEFAULT_MAX_TURNS: nat := 30
  const DEFAULT_INCAPABLE_THRESHOLD: nat := 3
  const MAX_EMPTY_RESPONSE_RETRIES: nat := 2
  const CONTEXT_LIMIT_THRESHOLD: real := 0.85
  const COMPACTION_PROMPT :=
    "Summarize the conversation so far into a compact briefing for continuing the work. "
    + "Preserve: decisions made, files/paths touched, commands run and their outcomes, "
    + "and the current state/next step. "
    + "Omit pleasantries. Output only the briefing."
  const INTERJECTED_RESULT := "skipped: user interjected"
  const POST_TERMINAL_RESULT := "unexecuted: an earlier call in this batch ended the run"
  const TOOL_IMAGE_PREAMBLE := "Images returned by the preceding tool call(s):"

  datatype UserMessage = UserMessage(content: string, id: string)

  datatype Response = Response(
    content: string, reasoning: string, details: Details, calls: seq<ToolCall>,
    model: string, provider: string, usage: Usage)

  /** A model call replies, is rejected with status 400, or fails in another way. */
  datatype ModelOutcome = Reply(resp: Response) | Rejected | Failed

  datatype SummaryOutcome = Summarized(resp: Response) | SummaryFailed

  datatype ToolOutcome = Output(text: string, images: seq<string>) | ToolError(message: string)

  datatype WaitOutcome = Input(message: UserMessage) | InboxClosed | WaitError

  datatype ToolInfo = ToolInfo(name: string, schema: string, terminal: bool, readOnly: bool)

  datatype CompactionSetting = CompactionSetting(threshold: real, keepRecent: int)

  datatype Config = Config(
    routing: Routing, systemPrompt: string, task: string, taskImages: seq<string>, history: seq<Message>,
    maxTurns: int, maxCost: int, contextWindow: int, compaction: Option<CompactionSetting>,
    inbox: bool, interactive: bool, incapableThreshold: int,
    wrapUpTurns: int, wrapUpMessage: string, batchNudgeTurns: int, batchNudgeMessage: string,
    graceTurn: bool, replayReasoning: bool)

  /** The answers of the outside world, each as a script: the k-th answer of the model, of the
      summarizer, of a tool execution, of a drain and of a wait. A run consults each script in
      order, so a statement about all scripts is a statement about all behaviours outside. */
  datatype World = World(
    model: nat -> ModelOutcome,
    summarizer: nat -> SummaryOutcome,
    execute: nat -> ToolOutcome,
    drain: nat -> seq<UserMessage>,
    wait: nat -> WaitOutcome,
    registry: seq<ToolInfo>,
    parses: string -> bool,
    concatenated: string -> bool,
    present: string -> string,
    unknownText: string -> string,
    repairText: (string, string) -> string,
    wrapUpText: nat -> string,
    batchText: nat -> string,
    graceText: seq<string> -> string)

  /** The tool a name stands for: of several registrations the last one counts. */
  function Lookup(registry: seq<ToolInfo>, name: string): (r: Option<ToolInfo>)
    ensures r.Some? ==> r.value in registry && r.value.name == name
    ensures r.None? <==> forall t :: t in registry ==> t.name != name
  {
    if registry == [] then None
    else if registry[|registry| - 1].name == name then Some(registry[|registry| - 1])
    else Lookup(registry[..|registry| - 1], name)
  }

  lemma {:induction false} LastRegistered(registry: seq<ToolInfo>, name: string) returns (i: nat)
    requires Lookup(registry, name).Some?
    ensures i < |registry| && registry[i] == Lookup(registry, name).value
    ensures registry[i].name == name && forall j :: i < j < |registry| ==> registry[j].name != name
  {
    i := |registry| - 1;
    if registry[i].name != name {
      i := LastRegistered(registry[..|registry| - 1], name);
    }
  }

  /** The registered names, each at the place of its first registration. */
  function Order(registry: seq<ToolInfo>): (names: seq<string>)
    ensures forall name :: name in names <==> Lookup(registry, name).Some?
    ensures forall i, j :: 0 <= i < j < |names| ==> names[i] != names[j]
  {
    if registry == [] then []
    else
      var front, last := Order(registry[..|registry| - 1]), registry[|registry| - 1];
      if last.name in front then front else front + [last.name]
  }

  /** The registered tools, each once. */
  function All(registry: seq<ToolInfo>): (tools: seq<ToolInfo>)
    ensures |tools| == |Order(registry)|
    ensures forall i :: 0 <= i < |tools| ==> Lookup(registry, Order(registry)[i]) == Some(tools[i])
  {
    var names := Order(registry);
    seq(|names|, i requires 0 <= i < |names| => assert names[i] in names; Lookup(registry, names[i]).value)
  }

  function Terminals(tools: seq<ToolInfo>): seq<ToolInfo> {
    if tools == [] then []
    else
      var last := tools[|tools| - 1];
      Terminals(tools[..|tools| - 1]) + if last.terminal then [last] else []
  }

  /** The tools a grace call offers. */
  function Offered(registry: seq<ToolInfo>): seq<ToolInfo> {
    Terminals(All(registry))
  }

  lemma {:induction false} TerminalsMeans(tools: seq<ToolInfo>)
    ensures forall t :: t in Terminals(tools) <==> t in tools && t.terminal
    ensures (forall i, j :: 0 <= i < j < |tools| ==> tools[i] != tools[j]) ==>
              forall i, j :: 0 <= i < j < |Terminals(tools)| ==> Terminals(tools)[i] != Terminals(tools)[j]
  {
    if tools != [] {
      var front, last := tools[..|tools| - 1], tools[|tools| - 1];
      TerminalsMeans(front);
      assert tools == front + [last];
      if forall i, j :: 0 <= i < j < |tools| ==> tools[i] != tools[j] {
        assert forall i :: 0 <= i < |front| ==> tools[i] != last;
        assert last !in front;
      }
    }
  }

  /** The tools offered are exactly those that are terminal by the last registration of their name,
      each once. */
  lemma OffersTerminals(registry: seq<ToolInfo>)
    ensures forall t :: t in Offered(registry) <==> t.terminal && Lookup(registry, t.name) == Some(t)
    ensures forall i, j :: 0 <= i < j < |Offered(registry)| ==> Offered(registry)[i] != Offered(registry)[j]
  {
    var tools, names := All(registry), Order(registry);
    TerminalsMeans(tools);
    forall i | 0 <= i < |tools| ensures tools[i].name == names[i] {
    }
    forall t: ToolInfo | t.terminal && Lookup(registry, t.name) == Some(t) ensures t in tools {
      var i :| 0 <= i < |names| && names[i] == t.name;
      assert tools[i] == t;
    }
  }

  method TerminalSchemas(registry: seq<ToolInfo>) returns (schemas: seq<string>, names: seq<string>)
    ensures |schemas| == |names| == |Offered(registry)|
    ensures forall i :: 0 <= i < |names| ==>
              schemas[i] == Offered(registry)[i].schema && names[i] == Offered(registry)[i].name
  {
    hide Lookup, Order, All;
    schemas, names := [], [];
    var tools := All(registry);
    for i := 0 to |tools|
      invariant |schemas| == |names| == |Terminals(tools[..i])|
      invariant forall k :: 0 <= k < |names| ==>
                  schemas[k] == Terminals(tools[..i])[k].schema && names[k] == Terminals(tools[..i])[k].name
    {
      assert tools[..i + 1][..i] == tools[..i];
      if tools[i].terminal {
        schemas := schemas + [tools[i].schema];
        names := names + [tools[i].name];
      }
    }
    assert tools[..|tools|] == tools;
  }

  predicate CountsAsLookup(t: ToolInfo) {
    !t.terminal && t.readOnly
  }

  /** The turn cap of a run that is not interactive. */
  function TurnLimit(cfg: Config): int {
    if cfg.maxTurns <= 0 && !cfg.interactive then DEFAULT_MAX_TURNS else cfg.maxTurns
  }

  function IncapableLimit(cfg: Config): (n: nat)
    ensures n > 0
  {
    if cfg.incapableThreshold <= 0 then DEFAULT_INCAPABLE_THRESHOLD else cfg.incapableThreshold
  }

  predicate CapReached(cfg: Config, cost: int) {
    cfg.maxCost > 0 && cost >= cfg.maxCost
  }

  predicate IsEmptyResponse(resp: Response) {
    Text.TrimSpace(resp.content) == "" && resp.calls == [] && Text.TrimSpace(resp.reasoning) == ""
  }

  /** A final reply ends the run: nothing follows it, so it neither compacts nor hits the limit. */
  predicate IsFinal(cfg: Config, resp: Response) {
    !IsEmptyResponse(resp) && resp.calls == [] && !cfg.inbox
  }

  function CompactAt(cfg: Config): int
    requires cfg.compaction.Some?
  {
    EffectiveThreshold(cfg.contextWindow, cfg.compaction.value.threshold)
  }

  /** The prompt size at which a run stops; compaction, when configured, always comes first. */
  function HardStop(cfg: Config): (limit: int)
    ensures cfg.compaction.Some? ==> limit >= CompactAt(cfg)
  {
    var fraction := Truncate(CONTEXT_LIMIT_THRESHOLD * (cfg.contextWindow as real));
    if cfg.compaction.Some? && CompactAt(cfg) > fraction then CompactAt(cfg) else fraction
  }

  function SeedMessage(cfg: Config): Message {
    UserText(cfg.task).(images := cfg.taskImages)
  }

  function SystemPart(cfg: Config): seq<Message> {
    if cfg.systemPrompt != "" then [SystemText(cfg.systemPrompt)] else []
  }

  /** The conversation a run starts from. */
  function Seed(cfg: Config): seq<Message> {
    SystemPart(cfg) + (if cfg.replayReasoning then cfg.history else Bare(cfg.history)) + [SeedMessage(cfg)]
  }

  /** The assistant message recorded for a reply: reasoning is kept, with its provider, only when
      replay is on. */
  function AssistantMessage(cfg: Config, resp: Response): Message {
    var m := Message(Assistant, resp.content, [], resp.calls, "", NoDetails, "");
    if !cfg.replayReasoning then m
    else if resp.details.NoDetails? then m
    else m.(details := resp.details, provider := resp.provider)
  }

  function ImageMessage(images: seq<string>): Message {
    UserText(TOOL_IMAGE_PREAMBLE).(images := images)
  }

  lemma SeedClosed(cfg: Config)
    requires Closed(cfg.history)
    ensures Closed(Seed(cfg))
  {
    hide Closed, Bare;
    var system, past := SystemPart(cfg), if cfg.replayReasoning then cfg.history else Bare(cfg.history);
    PastClosed(cfg.history);
    if system != [] {
      ConsClosed(SystemText(cfg.systemPrompt), past);
      assert system + past == [SystemText(cfg.systemPrompt)] + past;
    } else {
      assert system + past == past;
    }
    TaskClosed(cfg);
    AppendClosed(system + past, [SeedMessage(cfg)]);
  }

  lemma PastClosed(history: seq<Message>)
    requires Closed(history)
    ensures Closed(Bare(history))
  {
    ShapeKeepsClosed(history, Bare(history));
  }

  lemma TaskClosed(cfg: Config)
    ensures Closed([SeedMessage(cfg)])
  {
  }
}
