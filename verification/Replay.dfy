/** Replay of signed reasoning: which provider a request is pinned to, and what it carries. */
module Replay {
  import opened Messages

  /** A value inside the routing object: a list of names, JSON null, or anything else. */
  datatype Route = Names(names: seq<string>) | NullRoute | NotNames(raw: string)

  /** The consumer's routing: absent (or null), not an object, or an object. */
  datatype Routing = Absent | NotObject(raw: string) | Object(keys: map<string, Route>)

  datatype Request = Request(messages: seq<Message>, routing: Routing)

  // ----- What a request carries -----

  function WithoutDetails(m: Message): Message {
    m.(details := NoDetails)
  }

  function Bare(ms: seq<Message>): (r: seq<Message>)
    ensures |r| == |ms|
    ensures forall i :: 0 <= i < |ms| ==> r[i] == WithoutDetails(ms[i])
  {
    seq(|ms|, i requires 0 <= i < |ms| => WithoutDetails(ms[i]))
  }

  function OnlyFrom(ms: seq<Message>, pin: string): (r: seq<Message>)
    ensures |r| == |ms|
    ensures forall i :: 0 <= i < |ms| ==> r[i] == if ms[i].provider == pin then ms[i] else WithoutDetails(ms[i])
  {
    seq(|ms|, i requires 0 <= i < |ms| => if ms[i].provider == pin then ms[i] else WithoutDetails(ms[i]))
  }

  /** The messages agree in everything but their reasoning details. */
  ghost predicate SameButDetails(a: seq<Message>, b: seq<Message>) {
    && |a| == |b|
    && forall i :: 0 <= i < |a| ==> a[i].(details := b[i].details) == b[i]
  }

  /** No message carries details of any form. */
  ghost predicate Silent(ms: seq<Message>) {
    forall i :: 0 <= i < |ms| ==> ms[i].details.NoDetails?
  }

  /** Messages of `pin` are kept whole, and only they keep their details. */
  ghost predicate OnlyPinSpeaks(sent: seq<Message>, ms: seq<Message>, pin: string) {
    && SameButDetails(sent, ms)
    && forall i :: 0 <= i < |ms| ==> if ms[i].provider == pin then sent[i] == ms[i] else sent[i].details.NoDetails?
  }

  method WithoutReasoning(ms: seq<Message>) returns (out: seq<Message>)
    ensures out == Bare(ms)
    ensures SameButDetails(out, ms) && Silent(out)
  {
    out := ms;
    var i := 0;
    while i < |out|
      invariant 0 <= i <= |out| == |ms|
      invariant forall k :: 0 <= k < |ms| ==> out[k] == if k < i then WithoutDetails(ms[k]) else ms[k]
    {
      out := out[i := WithoutDetails(out[i])];
      i := i + 1;
    }
  }

  method WithoutForeignReasoning(ms: seq<Message>, pin: string) returns (out: seq<Message>)
    ensures out == OnlyFrom(ms, pin)
    ensures OnlyPinSpeaks(out, ms, pin)
  {
    out := ms;
    var i := 0;
    while i < |out|
      invariant 0 <= i <= |out| == |ms|
      invariant forall k :: 0 <= k < i ==> out[k] == OnlyFrom(ms, pin)[k]
      invariant forall k :: i <= k < |ms| ==> out[k] == ms[k]
    {
      if out[i].provider != pin {
        out := out[i := WithoutDetails(out[i])];
      }
      i := i + 1;
    }
  }

  ghost predicate CarriesReasoning(ms: seq<Message>) {
    exists i :: 0 <= i < |ms| && ms[i].details.Blocks?
  }

  method AnyReasoning(ms: seq<Message>) returns (found: bool)
    ensures found <==> CarriesReasoning(ms)
  {
    found := false;
    for i := 0 to |ms|
      invariant found <==> exists k :: 0 <= k < i && ms[k].details.Blocks?
    {
      if HasReasoningDetails(ms[i]) {
        found := true;
      }
    }
  }

  /** `i` is the newest message still carrying reasoning. */
  ghost predicate Newest(ms: seq<Message>, i: nat) {
    && i < |ms| && ms[i].details.Blocks?
    && forall k :: i < k < |ms| ==> !ms[k].details.Blocks?
  }

  function PinOf(ms: seq<Message>): string {
    if ms == [] then ""
    else if HasReasoningDetails(ms[|ms| - 1]) then ms[|ms| - 1].provider
    else PinOf(ms[..|ms| - 1])
  }

  /** The pin is the provider of the newest reasoning, and empty exactly when there is none or its
      provider is unknown. */
  lemma {:induction false} PinIsNewest(ms: seq<Message>)
    ensures forall i: nat :: Newest(ms, i) ==> PinOf(ms) == ms[i].provider
    ensures PinOf(ms) != "" ==> exists i: nat :: Newest(ms, i)
  {
    if ms == [] {
    } else if HasReasoningDetails(ms[|ms| - 1]) {
      assert Newest(ms, |ms| - 1);
    } else {
      var p := ms[..|ms| - 1];
      PinIsNewest(p);
      forall i: nat | Newest(ms, i) ensures PinOf(ms) == ms[i].provider {
        assert Newest(p, i);
      }
      if PinOf(ms) != "" {
        var i: nat :| Newest(p, i);
        assert Newest(ms, i);
      }
    }
  }

  method ReplayPin(ms: seq<Message>) returns (pin: string)
    ensures pin == PinOf(ms)
  {
    var i := |ms| - 1;
    assert ms[..|ms|] == ms;
    while i >= 0
      invariant -1 <= i < |ms|
      invariant PinOf(ms) == PinOf(ms[..i + 1])
    {
      if HasReasoningDetails(ms[i]) {
        return ms[i].provider;
      }
      assert ms[..i + 1][..i] == ms[..i];
      i := i - 1;
    }
    pin := "";
  }

  // ----- Where a request is sent -----

  function Others(order: seq<string>, pin: string): seq<string> {
    if order == [] then []
    else Others(order[..|order| - 1], pin) + if order[|order| - 1] != pin then [order[|order| - 1]] else []
  }

  function Keys(raw: Routing): map<string, Route> {
    if raw.Object? then raw.keys else map[]
  }

  predicate AllowsPin(keys: map<string, Route>, pin: string) {
    && ("only" in keys ==> keys["only"].NullRoute? || (keys["only"].Names? && pin in keys["only"].names))
    && ("ignore" in keys ==> keys["ignore"].NullRoute? || (keys["ignore"].Names? && pin !in keys["ignore"].names))
    && ("order" in keys ==> !keys["order"].NotNames?)
  }

  function ConsumerOrder(keys: map<string, Route>): seq<string> {
    if "order" in keys && keys["order"].Names? then keys["order"].names else []
  }

  predicate Pinnable(raw: Routing, pin: string) {
    !raw.NotObject? && AllowsPin(Keys(raw), pin)
  }

  function PinnedRouting(raw: Routing, pin: string): Routing {
    Object(Keys(raw)["order" := Names([pin] + Others(ConsumerOrder(Keys(raw)), pin))])
  }

  /** Puts the pin first in the order; the consumer's own restrictions win over it. */
  method PinProvider(raw: Routing, pin: string) returns (routing: Routing, ok: bool)
    ensures ok <==> Pinnable(raw, pin)
    ensures routing == if ok then PinnedRouting(raw, pin) else raw
  {
    var obj: map<string, Route> := map[];
    if raw.NotObject? {
      return raw, false;
    }
    if raw.Object? {
      obj := raw.keys;
    }
    if "only" in obj {
      var only := obj["only"];
      if only.NotNames? || (only.Names? && pin !in only.names) {
        return raw, false;
      }
    }
    if "ignore" in obj {
      var ignore := obj["ignore"];
      if ignore.NotNames? || (ignore.Names? && pin in ignore.names) {
        return raw, false;
      }
    }
    var order: seq<string> := [];
    if "order" in obj {
      if obj["order"].NotNames? {
        return raw, false;
      }
      if obj["order"].Names? {
        order := obj["order"].names;
      }
    }
    var merged := [pin];
    for i := 0 to |order|
      invariant merged == [pin] + Others(order[..i], pin)
    {
      assert order[..i + 1][..i] == order[..i];
      if order[i] != pin {
        merged := merged + [order[i]];
      }
    }
    assert order[..|order|] == order;
    return Object(obj["order" := Names(merged)]), true;
  }

  function Pinned(req: Request): (Request, string) {
    var pin := PinOf(req.messages);
    if pin == "" || !Pinnable(req.routing, pin) then (req, "")
    else (Request(OnlyFrom(req.messages, pin), PinnedRouting(req.routing, pin)), pin)
  }

  method ReplayRequest(req: Request) returns (sent: Request, pin: string)
    ensures (sent, pin) == Pinned(req)
    ensures pin == "" ==> sent == req
    ensures pin != "" ==> OnlyPinSpeaks(sent.messages, req.messages, pin)
  {
    pin := ReplayPin(req.messages);
    if pin == "" {
      return req, "";
    }
    var routing, ok := PinProvider(req.routing, pin);
    if !ok {
      return req, "";
    }
    var messages := WithoutForeignReasoning(req.messages, pin);
    return Request(messages, routing), pin;
  }

  // ----- What pinning promises -----

  /** A request sent with pin `pin`: only that provider's reasoning, routed to it first. */
  ghost predicate PinHonoured(sent: Request, pin: string) {
    pin != "" ==>
      && (forall i :: 0 <= i < |sent.messages| && sent.messages[i].details.Blocks? ==>
            sent.messages[i].provider == pin)
      && sent.routing.Object?
      && "order" in sent.routing.keys
      && sent.routing.keys["order"].Names?
      && sent.routing.keys["order"].names != []
      && sent.routing.keys["order"].names[0] == pin
  }

  lemma {:induction false} OthersKeepsOrder(order: seq<string>, pin: string)
    ensures pin !in Others(order, pin)
    ensures multiset(Others(order, pin)) == multiset(order)[pin := 0]
    ensures pin !in order ==> Others(order, pin) == order
  {
    if order != [] {
      var front, last := order[..|order| - 1], order[|order| - 1];
      OthersKeepsOrder(front, pin);
      assert order == front + [last];
    }
  }

  /** Without a pin a request is sent as it is. With one, messages of the pinned provider are sent whole,
      the newest reasoning among them, every other message loses its details and nothing else, and no
      routing key but `order` changes. */
  lemma PinningKeeps(req: Request)
    ensures var (sent, pin) := Pinned(req);
            && PinHonoured(sent, pin)
            && (pin == "" ==> sent == req)
            && (pin != "" ==> OnlyPinSpeaks(sent.messages, req.messages, pin))
            && SameShape(sent.messages, req.messages)
            && (forall i: nat :: Newest(req.messages, i) ==> sent.messages[i] == req.messages[i])
            && (pin != "" ==>
                  && Keys(sent.routing) - {"order"} == Keys(req.routing) - {"order"}
                  && Keys(sent.routing)["order"].names == [pin] + Others(ConsumerOrder(Keys(req.routing)), pin))
  {
    PinIsNewest(req.messages);
  }

  /** A request is pinned exactly when its newest reasoning has a known provider and the consumer's routing,
      if any, is an object whose `only`, `ignore` and `order` are lists or null, the first naming the
      provider and the second not. */
  lemma PinnedExactly(req: Request)
    ensures Pinned(req).1 != "" <==>
              exists i: nat :: Newest(req.messages, i) && req.messages[i].provider != ""
                               && Permits(req.routing, req.messages[i].provider)
  {
    PinIsNewest(req.messages);
  }

  /** The consumer's routing leaves room for a pin. */
  ghost predicate Permits(raw: Routing, pin: string) {
    match raw
    case Absent => true
    case NotObject(_) => false
    case Object(keys) =>
      && (forall key :: key in {"only", "ignore", "order"} && key in keys ==> keys[key].NullRoute? || keys[key].Names?)
      && ("only" in keys && keys["only"].Names? ==> pin in keys["only"].names)
      && ("ignore" in keys && keys["ignore"].Names? ==> pin !in keys["ignore"].names)
  }

  lemma {:induction false} OthersOfMerged(order: seq<string>, pin: string)
    ensures Others([pin] + order, pin) == Others(order, pin)
  {
    if order != [] {
      assert ([pin] + order)[..|order|] == [pin] + order[..|order| - 1];
      OthersOfMerged(order[..|order| - 1], pin);
    } else {
      assert ([pin] + order)[..0] == [];
    }
  }

  lemma PinStays(ms: seq<Message>)
    requires PinOf(ms) != ""
    ensures PinOf(OnlyFrom(ms, PinOf(ms))) == PinOf(ms)
  {
    PinIsNewest(ms);
    var i: nat :| Newest(ms, i);
    var out := OnlyFrom(ms, PinOf(ms));
    PinIsNewest(out);
    assert Newest(out, i);
  }

  lemma {:induction false} OthersStays(order: seq<string>, pin: string)
    ensures Others([pin] + Others(order, pin), pin) == Others(order, pin)
  {
    OthersKeepsOrder(order, pin);
    OthersOfMerged(Others(order, pin), pin);
    OthersKeepsOrder(Others(order, pin), pin);
  }

  lemma RoutingStays(raw: Routing, pin: string)
    requires Pinnable(raw, pin)
    ensures Pinnable(PinnedRouting(raw, pin), pin)
    ensures PinnedRouting(PinnedRouting(raw, pin), pin) == PinnedRouting(raw, pin)
  {
    var keys := Keys(raw);
    var merged := [pin] + Others(ConsumerOrder(keys), pin);
    var again := keys["order" := Names(merged)];
    OthersStays(ConsumerOrder(keys), pin);
    assert Keys(PinnedRouting(raw, pin)) == again;
    assert ConsumerOrder(again) == merged;
    assert again["order" := Names(merged)] == again;
    assert AllowsPin(again, pin) by {
      assert "only" in again <==> "only" in keys;
      assert "ignore" in again <==> "ignore" in keys;
    }
  }

  lemma MessagesStay(ms: seq<Message>, pin: string)
    ensures OnlyFrom(OnlyFrom(ms, pin), pin) == OnlyFrom(ms, pin)
  {
  }

  /** Pinning a pinned request changes nothing. */
  lemma PinningIdempotent(req: Request)
    ensures Pinned(Pinned(req).0) == Pinned(req)
  {
    var pin := PinOf(req.messages);
    if pin != "" && Pinnable(req.routing, pin) {
      PinStays(req.messages);
      RoutingStays(req.routing, pin);
      MessagesStay(req.messages, pin);
    }
  }

  /** The request a 400 is retried with: no reasoning at all and the consumer's own routing. */
  function Unpinned(req: Request): Request {
    Request(Bare(req.messages), req.routing)
  }

  /** The retry says what the request said, message by message, but for the reasoning. */
  lemma UnpinnedKeeps(req: Request)
    ensures SameButDetails(Unpinned(req).messages, req.messages) && Unpinned(req).routing == req.routing
    ensures SameShape(Unpinned(req).messages, req.messages)
    ensures Silent(Unpinned(req).messages) && !CarriesReasoning(Unpinned(req).messages)
  {
  }
}
