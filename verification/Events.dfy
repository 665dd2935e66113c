/** The event stream of a run and what can be read off it. */
module Events {
  import opened Wrappers
  import opened Tokens

  datatype Answer = Succeeded | Erred | Repaired | Skipped

  datatype Change =
    | AwaitingHuman | StopDone | StopMaxCost | StopMaxTurns | StopCanceled
    | WrapUpNudge | BatchNudge | Compacted(summarized: nat) | CompactionFailed
    | EmptyRetry(retry: nat) | ToolImages(count: nat) | GraceTurn | ReplayDropped

  datatype Event =
    | ErrorEvent
    | StateChange(change: Change)
    | ModelRequest(turn: nat, pin: string, messages: nat)
    | Thinking(turn: nat)
    | ModelResponse(turn: nat, calls: nat)
    | UsageEvent(spent: Totals, wirePrompt: int)
    | ToolCallEvent(id: string, dispatched: bool)
    | ToolAnswerEvent(id: string, answer: Answer)
    | UserInput(id: string, length: nat)
    | ContextLimitEvent(prompt: int)

  /** A tool call not yet answered on the stream. */
  datatype OpenCall = OpenCall(id: string, dispatched: bool)

  /** Everything the properties of a run read off its stream. */
  datatype View = View(
    paired: bool, open: Option<OpenCall>,
    dispatched: nat, succeeded: nat, erred: nat, repaired: nat, skipped: nat,
    spent: Totals, heard: seq<(string, nat)>, word: seq<Event>)

  const BLANK := View(true, None, 0, 0, 0, 0, 0, ZERO, [], [])

  predicate IsToolEvent(e: Event) {
    e.ToolCallEvent? || e.ToolAnswerEvent?
  }

  function Answered(v: View, answer: Answer): View {
    match answer
    case Succeeded => v.(succeeded := v.succeeded + 1, open := None)
    case Erred => v.(erred := v.erred + 1, open := None)
    case Repaired => v.(repaired := v.repaired + 1, open := None)
    case Skipped => v.(skipped := v.skipped + 1, open := None)
  }

  function Step(v: View, e: Event): View {
    if IsToolEvent(e) then Read(v, e).(word := v.word + [e]) else Read(v, e)
  }

  function Read(v: View, e: Event): View {
    match e
    case UsageEvent(spent, _) => v.(spent := Plus(v.spent, spent))
    case UserInput(id, length) => v.(heard := v.heard + [(id, length)])
    case ToolCallEvent(id, dispatched) =>
      if v.open.Some? then v.(paired := false)
      else v.(open := Some(OpenCall(id, dispatched)), dispatched := v.dispatched + if dispatched then 1 else 0)
    case ToolAnswerEvent(id, answer) =>
      if v.open.None? || v.open.value.id != id || (v.open.value.dispatched <==> answer.Skipped?)
      then v.(paired := false)
      else Answered(v, answer)
    case _ => v
  }

  /** Events that no count is read from. */
  predicate Uncounted(e: Event) {
    !e.UsageEvent? && !e.UserInput? && !e.ToolCallEvent? && !e.ToolAnswerEvent?
  }

  function ViewOf(events: seq<Event>): View {
    if events == [] then BLANK else Step(ViewOf(events[..|events| - 1]), events[|events| - 1])
  }

  lemma ViewSnoc(events: seq<Event>, e: Event)
    ensures ViewOf(events + [e]) == Step(ViewOf(events), e)
  {
    assert (events + [e])[..|events|] == events;
  }

  function ToolEvents(events: seq<Event>): seq<Event> {
    if events == [] then []
    else ToolEvents(events[..|events| - 1]) + if IsToolEvent(events[|events| - 1]) then [events[|events| - 1]] else []
  }

  /** A word of (call, answer) pairs: ids match, and exactly the undispatched calls are skipped. */
  ghost predicate PairWord(word: seq<Event>) {
    word == [] ||
    (|word| >= 2 &&
     var call, answer := word[|word| - 2], word[|word| - 1];
     && call.ToolCallEvent? && answer.ToolAnswerEvent?
     && call.id == answer.id && (call.dispatched <==> !answer.answer.Skipped?)
     && PairWord(word[..|word| - 2]))
  }

  /** What a view says about the word of tool events it was read from. */
  ghost predicate Agrees(v: View, word: seq<Event>) {
    v.paired ==>
      && (v.open.None? ==> PairWord(word))
      && (v.open.Some? ==>
            && word != []
            && PairWord(word[..|word| - 1])
            && word[|word| - 1] == ToolCallEvent(v.open.value.id, v.open.value.dispatched))
      && v.dispatched == v.succeeded + v.erred + v.repaired + (if v.open.Some? && v.open.value.dispatched then 1 else 0)
  }

  lemma AgreesOnCall(v: View, word: seq<Event>, e: Event)
    requires Agrees(v, word) && e.ToolCallEvent?
    ensures Agrees(Step(v, e), word + [e])
  {
    if v.open.None? && v.paired {
      var next := word + [e];
      assert next[..|next| - 1] == word && next[|next| - 1] == e;
    }
  }

  lemma AgreesOnAnswer(v: View, word: seq<Event>, e: Event)
    requires Agrees(v, word) && e.ToolAnswerEvent?
    ensures Agrees(Step(v, e), word + [e])
  {
    if Step(v, e).paired {
      assert (word + [e])[..|word + [e]| - 2] == word[..|word| - 1];
    }
  }

  /** A stream whose view is paired with nothing open projects to a word of pairs, and every
      dispatched call was answered by exactly one success, error or repair. */
  lemma {:induction false} PairedStream(events: seq<Event>)
    ensures Agrees(ViewOf(events), ToolEvents(events))
    ensures ViewOf(events).word == ToolEvents(events)
  {
    if events != [] {
      var front, last := events[..|events| - 1], events[|events| - 1];
      PairedStream(front);
      var v, w := ViewOf(front), ToolEvents(front);
      if last.ToolCallEvent? {
        AgreesOnCall(v, w, last);
      } else if last.ToolAnswerEvent? {
        AgreesOnAnswer(v, w, last);
      } else {
        assert ToolEvents(events) == w;
      }
    }
  }
}
