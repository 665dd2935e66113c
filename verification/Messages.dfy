/** Chat messages and the pairing discipline between tool calls and tool results. */
module Messages {

  datatype Role = System | User | Assistant | Tool | OtherRole(name: string)

  /** `reasoning_details` of a message: nil, something that is not a non-empty JSON array,
      or a non-empty array, which is the only form that is ever sent. */
  datatype Details = NoDetails | Unreplayable(raw: string) | Blocks(raw: string)

  datatype ToolCall = ToolCall(id: string, name: string, arguments: string)

  datatype Message = Message(
    role: Role, content: string, images: seq<string>, calls: seq<ToolCall>, callId: string,
    details: Details, provider: string)

  predicate HasReasoningDetails(m: Message) {
    m.details.Blocks?
  }

  function UserText(content: string): Message {
    Message(User, content, [], [], "", NoDetails, "")
  }

  function SystemText(content: string): Message {
    Message(System, content, [], [], "", NoDetails, "")
  }

  /** An empty result text is replaced, so a tool message never carries empty content. */
  function ToolResult(id: string, content: string): Message {
    Message(Tool, if content == "" then "(no output)" else content, [], [], id, NoDetails, "")
  }

  function Ids(calls: seq<ToolCall>): (ids: seq<string>)
    ensures |ids| == |calls| && forall i :: 0 <= i < |calls| ==> ids[i] == calls[i].id
  {
    seq(|calls|, i requires 0 <= i < |calls| => calls[i].id)
  }

  /** The calls a message obliges the following messages to answer. */
  function Requested(m: Message): seq<ToolCall> {
    if m.role == Assistant then m.calls else []
  }

  // ----- Closed histories, declaratively -----

  /** The messages after `i`, up to `k` of them, answer its calls one by one and in call order. */
  ghost predicate AnswersUpTo(ms: seq<Message>, i: nat, k: nat)
    requires i < |ms| && k <= |Requested(ms[i])|
  {
    && i + k < |ms|
    && forall j :: i < j <= i + k ==> ms[j].role == Tool && ms[j].callId == Requested(ms[i])[j - i - 1].id
  }

  /** Message `i` is followed immediately by one tool message per call it makes, in call order. */
  ghost predicate Answered(ms: seq<Message>, i: nat)
    requires i < |ms|
  {
    AnswersUpTo(ms, i, |Requested(ms[i])|)
  }

  /** Tool message `j` answers a call of the assistant message `i` that owns its group. */
  ghost predicate Owns(ms: seq<Message>, i: nat, j: nat)
    requires j < |ms|
  {
    i < j <= i + |Requested(ms[i])|
  }

  ghost predicate Closed(ms: seq<Message>) {
    && (forall i :: 0 <= i < |ms| ==> Answered(ms, i))
    && (forall j :: 0 <= j < |ms| && ms[j].role == Tool ==> exists i: nat :: Owns(ms, i, j))
  }

  /** Message `j` is the tool message due at its place to the calls of assistant message `i`. */
  ghost predicate AnswersCall(ms: seq<Message>, i: nat, j: nat)
    requires i < |ms| && j < |ms|
  {
    && ms[i].role == Assistant && 0 <= j - i - 1 < |ms[i].calls|
    && ms[j].role == Tool && ms[j].callId == ms[i].calls[j - i - 1].id
  }

  /** The answers to the calls of message `i` follow it at once, in call order. */
  ghost predicate AnsweredAtOnce(ms: seq<Message>, i: nat)
    requires i < |ms|
  {
    ms[i].role == Assistant ==>
      && i + |ms[i].calls| < |ms|
      && forall j :: i < j <= i + |ms[i].calls| ==> AnswersCall(ms, i, j)
  }

  /** A history is closed exactly when every call of an assistant message is answered at once, and every
      tool message answers such a call. */
  lemma ClosedMeans(ms: seq<Message>)
    ensures Closed(ms) <==>
              && (forall i :: 0 <= i < |ms| ==> AnsweredAtOnce(ms, i))
              && (forall j :: 0 <= j < |ms| && ms[j].role == Tool ==>
                    exists i :: 0 <= i < |ms| && AnswersCall(ms, i, j))
  {
    forall i | 0 <= i < |ms| ensures Answered(ms, i) <==> AnsweredAtOnce(ms, i) {
      AnsweredMeans(ms, i);
    }
    if Closed(ms) {
      forall j | 0 <= j < |ms| && ms[j].role == Tool ensures exists i :: 0 <= i < |ms| && AnswersCall(ms, i, j) {
        var i: nat :| Owns(ms, i, j);
        assert AnsweredAtOnce(ms, i);
        assert AnswersCall(ms, i, j);
      }
    }
    forall i, j | 0 <= i < |ms| && 0 <= j < |ms| && AnswersCall(ms, i, j) ensures Owns(ms, i, j) {
    }
  }

  lemma AnsweredMeans(ms: seq<Message>, i: nat)
    requires i < |ms|
    ensures Answered(ms, i) <==> AnsweredAtOnce(ms, i)
  {
    if AnsweredAtOnce(ms, i) && ms[i].role == Assistant {
      forall j | i < j <= i + |ms[i].calls| ensures ms[j].role == Tool && ms[j].callId == ms[i].calls[j - i - 1].id {
        assert AnswersCall(ms, i, j);
      }
    }
  }

  // ----- The same discipline, read left to right -----

  /** What the messages read so far still owe: answers to `ids`, or the pairing is beyond repair. */
  datatype Debt = Broken | Owes(ids: seq<string>)

  function Settle(d: Debt, m: Message): Debt {
    match d
    case Broken => Broken
    case Owes(ids) =>
      if ids == [] then
        if m.role == Tool then Broken else Owes(Ids(Requested(m)))
      else if m.role == Tool && m.callId == ids[0] then Owes(ids[1..])
      else Broken
  }

  function OwedAt(ms: seq<Message>, c: nat): Debt
    requires c <= |ms|
  {
    if c == 0 then Owes([]) else Settle(OwedAt(ms, c - 1), ms[c - 1])
  }

  function Owed(ms: seq<Message>): Debt {
    OwedAt(ms, |ms|)
  }

  predicate Settled(ms: seq<Message>) {
    Owed(ms) == Owes([])
  }

  /** Messages that differ only in what pairing does not look at. */
  ghost predicate SameShape(a: seq<Message>, b: seq<Message>) {
    && |a| == |b|
    && forall i :: 0 <= i < |a| ==> a[i].role == b[i].role && a[i].calls == b[i].calls && a[i].callId == b[i].callId
  }

  lemma {:induction false} ShapeDecides(a: seq<Message>, b: seq<Message>, c: nat)
    requires c <= |a| && c <= |b| && SameShape(a[..c], b[..c])
    ensures OwedAt(a, c) == OwedAt(b, c)
  {
    if c > 0 {
      assert forall i :: 0 <= i < c - 1 ==> a[..c][i] == a[..c - 1][i] && b[..c][i] == b[..c - 1][i];
      ShapeDecides(a, b, c - 1);
      assert a[..c][c - 1].role == b[..c][c - 1].role;
    }
  }

  lemma OwedPrefix(ms: seq<Message>, c: nat)
    requires c <= |ms|
    ensures Owed(ms[..c]) == OwedAt(ms, c)
  {
    assert ms[..c][..c] == ms[..c];
    ShapeDecides(ms[..c], ms, c);
  }

  lemma OwedSnoc(ms: seq<Message>, m: Message)
    ensures Owed(ms + [m]) == Settle(Owed(ms), m)
  {
    assert (ms + [m])[..|ms|] == ms;
    OwedPrefix(ms + [m], |ms|);
  }

  /** Reading on from a settled point does not depend on what came before it. */
  lemma {:induction false} OwedOnward(ms: seq<Message>, c: nat, k: nat)
    requires c + k <= |ms|
    ensures OwedAt(ms, c) == Owes([]) ==> OwedAt(ms, c + k) == OwedAt(ms[c..], k)
    ensures OwedAt(ms, c) == Broken ==> OwedAt(ms, c + k) == Broken
  {
    if k > 0 {
      OwedOnward(ms, c, k - 1);
      assert ms[c..][k - 1] == ms[c + k - 1];
    }
  }

  lemma OwedAppend(a: seq<Message>, b: seq<Message>)
    requires Owed(a) == Owes([])
    ensures Owed(a + b) == Owed(b)
  {
    assert (a + b)[..|a|] == a && (a + b)[|a|..] == b;
    OwedPrefix(a + b, |a|);
    OwedOnward(a + b, |a|, |b|);
  }

  lemma PrefixNotBroken(ms: seq<Message>, c: nat)
    requires c <= |ms| && Owed(ms) != Broken
    ensures OwedAt(ms, c) != Broken
  {
    OwedOnward(ms, c, |ms| - c);
  }

  /** One more answer to the group opened at `i`. */
  lemma AnswerTaken(ms: seq<Message>, i: nat, k: nat)
    requires i < |ms| && k < |Requested(ms[i])| && AnswersUpTo(ms, i, k)
    requires OwedAt(ms, i + 1 + k) == Owes(Ids(Requested(ms[i]))[k..])
    requires i + 1 + k < |ms| && OwedAt(ms, i + 2 + k) != Broken
    ensures AnswersUpTo(ms, i, k + 1)
    ensures OwedAt(ms, i + 2 + k) == Owes(Ids(Requested(ms[i]))[k + 1..])
  {
    var ids := Ids(Requested(ms[i]));
    assert ids[k..][0] == ids[k] && ids[k..][1..] == ids[k + 1..];
  }

  /** A debt at position `c` names the message that incurred it and the answers given since. */
  lemma {:induction false} DebtSource(ms: seq<Message>, c: nat) returns (i: nat)
    requires c <= |ms| && OwedAt(ms, c).Owes? && OwedAt(ms, c).ids != []
    ensures i < c && OwedAt(ms, i) == Owes([])
    ensures c - 1 - i < |Requested(ms[i])| && AnswersUpTo(ms, i, c - 1 - i)
    ensures OwedAt(ms, c) == Owes(Ids(Requested(ms[i]))[c - 1 - i..])
  {
    hide Ids, Requested, OwedAt, AnswersUpTo;
    DebtOpens(ms, c);
    if OwedAt(ms, c - 1) == Owes([]) {
      i := c - 1;
    } else {
      i := DebtSource(ms, c - 1);
      AnswerTaken(ms, i, c - 2 - i);
    }
  }

  /** A debt was incurred by the last message or was there before it. */
  lemma DebtOpens(ms: seq<Message>, c: nat)
    requires c <= |ms| && OwedAt(ms, c).Owes? && OwedAt(ms, c).ids != []
    ensures c > 0 && OwedAt(ms, c - 1).Owes?
    ensures OwedAt(ms, c - 1) == Owes([]) ==>
              && Requested(ms[c - 1]) != [] && AnswersUpTo(ms, c - 1, 0)
              && OwedAt(ms, c) == Owes(Ids(Requested(ms[c - 1]))[0..])
  {
  }

  /** From a settled point, a message followed by its answers settles again. */
  lemma {:induction false} GroupSettles(ms: seq<Message>, i: nat, k: nat)
    requires i < |ms| && OwedAt(ms, i) == Owes([]) && ms[i].role != Tool
    requires k <= |Requested(ms[i])| && AnswersUpTo(ms, i, k)
    ensures OwedAt(ms, i + 1 + k) == Owes(Ids(Requested(ms[i]))[k..])
  {
    if k > 0 {
      GroupSettles(ms, i, k - 1);
      assert ms[i + k].role == Tool;
      var ids := Ids(Requested(ms[i]));
      assert ids[k - 1..][0] == ids[k - 1] && ids[k - 1..][1..] == ids[k..];
    }
  }

  /** In a settled history the debts of message `i` are paid at once. */
  lemma {:induction false} AnswersFollow(ms: seq<Message>, i: nat, k: nat)
    requires Owed(ms) == Owes([]) && i < |ms| && OwedAt(ms, i) == Owes([]) && ms[i].role != Tool
    requires k <= |Requested(ms[i])|
    ensures AnswersUpTo(ms, i, k) && OwedAt(ms, i + 1 + k) == Owes(Ids(Requested(ms[i]))[k..])
  {
    hide Ids, Requested;
    if k > 0 {
      AnswersFollow(ms, i, k - 1);
      PrefixNotBroken(ms, i + 1 + k - 1);
      if i + k < |ms| {
        PrefixNotBroken(ms, i + 1 + k);
        AnswerTaken(ms, i, k - 1);
      }
    }
  }

  lemma SettledIsClosed(ms: seq<Message>)
    requires Owed(ms) == Owes([])
    ensures Closed(ms)
  {
    forall i | 0 <= i < |ms| ensures Answered(ms, i) {
      PrefixNotBroken(ms, i);
      PrefixNotBroken(ms, i + 1);
      if Requested(ms[i]) != [] {
        AnswersFollow(ms, i, |Requested(ms[i])|);
      }
    }
    forall j | 0 <= j < |ms| && ms[j].role == Tool ensures exists i: nat :: Owns(ms, i, j) {
      PrefixNotBroken(ms, j);
      PrefixNotBroken(ms, j + 1);
      var i := DebtSource(ms, j);
      assert Owns(ms, i, j);
    }
  }

  /** The group holding tool message `j` ends there when the next message is not a tool message. */
  lemma GroupEnd(ms: seq<Message>, j: nat) returns (i: nat)
    requires Closed(ms) && j < |ms| && ms[j].role == Tool
    requires j + 1 < |ms| ==> ms[j + 1].role != Tool
    ensures i < j && ms[i].role != Tool && j == i + |Requested(ms[i])| && AnswersUpTo(ms, i, j - i)
  {
    i :| Owns(ms, i, j);
    assert Answered(ms, i);
  }

  /** A message that neither answers nor is answered requests nothing. */
  lemma RequestsNothing(ms: seq<Message>, i: nat)
    requires Closed(ms) && i < |ms| && (i + 1 < |ms| ==> ms[i + 1].role != Tool)
    ensures Requested(ms[i]) == []
  {
    assert Answered(ms, i);
  }

  lemma {:induction false} ClosedSettles(ms: seq<Message>, c: nat)
    requires Closed(ms) && c <= |ms|
    requires c < |ms| ==> ms[c].role != Tool
    ensures OwedAt(ms, c) == Owes([])
  {
    hide Closed, AnswersUpTo, Requested;
    if c == 0 {
    } else if ms[c - 1].role == Tool {
      var i := GroupEnd(ms, c - 1);
      ClosedSettles(ms, i);
      GroupSettles(ms, i, c - 1 - i);
    } else {
      ClosedSettles(ms, c - 1);
      RequestsNothing(ms, c - 1);
    }
  }

  /** The left-to-right reading accepts exactly the closed histories. */
  lemma ClosedIffSettled(ms: seq<Message>)
    ensures Closed(ms) <==> Owed(ms) == Owes([])
  {
    if Closed(ms) {
      ClosedSettles(ms, |ms|);
    }
    if Owed(ms) == Owes([]) {
      SettledIsClosed(ms);
    }
  }

  /** A closed history may be cut exactly before a non-tool message and at its end;
      both halves are then closed. */
  lemma CutPoints(ms: seq<Message>, c: nat)
    requires Closed(ms) && c <= |ms|
    ensures Closed(ms[..c]) <==> c == |ms| || ms[c].role != Tool
    ensures Closed(ms[..c]) ==> Closed(ms[c..])
  {
    hide Closed, Requested;
    ClosedIffSettled(ms);
    ClosedIffSettled(ms[..c]);
    ClosedIffSettled(ms[c..]);
    OwedPrefix(ms, c);
    OwedOnward(ms, c, |ms| - c);
    if c < |ms| {
      PrefixNotBroken(ms, c + 1);
      if ms[c].role != Tool {
        ClosedSettles(ms, c);
      }
    }
  }

  /** Pairing survives any change that keeps roles, calls and call ids. */
  lemma ShapeKeepsClosed(a: seq<Message>, b: seq<Message>)
    requires SameShape(a, b)
    ensures Owed(a) == Owed(b)
    ensures Closed(a) <==> Closed(b)
  {
    assert a[..|a|] == a && b[..|b|] == b;
    ShapeDecides(a, b, |a|);
    ClosedIffSettled(a);
    ClosedIffSettled(b);
  }
}
