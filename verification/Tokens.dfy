/** Token usage of one model call, its three disjoint buckets, and running totals. */
module Tokens {
  import opened Wrappers

  datatype PromptDetails = PromptDetails(cached: int, written: int)

  /** Usage as it arrives on the wire. Cost is counted in the smallest unit of account. */
  datatype Usage = Usage(
    promptTokens: int, completionTokens: int, cost: int,
    details: Option<PromptDetails>, shimRead: int, shimCreation: int)

  datatype Buckets = Buckets(prompt: int, read: int, creation: int)

  function Min(a: int, b: int): int {
    if a < b then a else b
  }

  function Positive(a: int): int {
    if a > 0 then a else 0
  }

  /** What the subset-shaped detail takes out of the `available` prompt tokens. */
  function Carved(shim: int, reported: int, available: int): int {
    if shim <= 0 && reported > 0 then Min(reported, available) else 0
  }

  function CachedTokens(u: Usage): int {
    if u.details.Some? then u.details.value.cached else 0
  }

  function WrittenTokens(u: Usage): int {
    if u.details.Some? then u.details.value.written else 0
  }

  function BucketsOf(u: Usage): Buckets {
    var read := Carved(u.shimRead, CachedTokens(u), u.promptTokens);
    var creation := Carved(u.shimCreation, WrittenTokens(u), u.promptTokens - read);
    Buckets(u.promptTokens - read - creation, Positive(u.shimRead) + read, Positive(u.shimCreation) + creation)
  }

  /** Splits the wire count step by step. The three buckets add up to the wire prompt plus the shim
      fields for every input, and none is negative when the wire prompt is not. */
  method SplitUsage(u: Usage) returns (prompt: int, cacheRead: int, cacheCreation: int)
    ensures Buckets(prompt, cacheRead, cacheCreation) == BucketsOf(u)
    ensures prompt + cacheRead + cacheCreation == u.promptTokens + Positive(u.shimRead) + Positive(u.shimCreation)
    ensures u.promptTokens >= 0 ==> prompt >= 0 && cacheRead >= 0 && cacheCreation >= 0
    ensures u.shimRead > 0 ==> cacheRead == u.shimRead
    ensures u.shimCreation > 0 ==> cacheCreation == u.shimCreation
    ensures u.shimRead <= 0 ==>
              if u.details.None? || u.details.value.cached <= 0 then cacheRead == 0
              else if u.details.value.cached <= u.promptTokens then cacheRead == u.details.value.cached
              else cacheRead == u.promptTokens
    ensures u.shimCreation <= 0 ==>
              var left := u.promptTokens - if u.shimRead > 0 then 0 else cacheRead;
              if u.details.None? || u.details.value.written <= 0 then cacheCreation == 0
              else if u.details.value.written <= left then cacheCreation == u.details.value.written
              else cacheCreation == left
  {
    prompt, cacheRead, cacheCreation := u.promptTokens, 0, 0;
    if u.shimRead > 0 {
      cacheRead := u.shimRead;
    } else if u.details.Some? && u.details.value.cached > 0 {
      cacheRead := Min(u.details.value.cached, prompt);
      prompt := prompt - cacheRead;
    }
    if u.shimCreation > 0 {
      cacheCreation := u.shimCreation;
    } else if u.details.Some? && u.details.value.written > 0 {
      cacheCreation := Min(u.details.value.written, prompt);
      prompt := prompt - cacheCreation;
    }
  }

  datatype Totals = Totals(cost: int, prompt: int, completion: int, read: int, creation: int)

  const ZERO := Totals(0, 0, 0, 0, 0)

  function Plus(a: Totals, b: Totals): Totals {
    Totals(a.cost + b.cost, a.prompt + b.prompt, a.completion + b.completion, a.read + b.read, a.creation + b.creation)
  }

  /** What one successful call adds to the totals. */
  function Charge(u: Usage): Totals {
    var b := BucketsOf(u);
    Totals(u.cost, b.prompt, u.completionTokens, b.read, b.creation)
  }

  /** The sum over a list of successful calls. */
  ghost function Spent(calls: seq<Usage>): Totals {
    if calls == [] then ZERO else Plus(Spent(calls[..|calls| - 1]), Charge(calls[|calls| - 1]))
  }

  lemma SpentSnoc(calls: seq<Usage>, u: Usage)
    ensures Spent(calls + [u]) == Plus(Spent(calls), Charge(u))
  {
    assert (calls + [u])[..|calls|] == calls;
  }

  ghost function Sum(ns: seq<int>): int {
    if ns == [] then 0 else Sum(ns[..|ns| - 1]) + ns[|ns| - 1]
  }

  /** One number of every call, in order. */
  ghost function Each(calls: seq<Usage>, field: Usage -> int): (ns: seq<int>)
    ensures |ns| == |calls| && forall i :: 0 <= i < |calls| ==> ns[i] == field(calls[i])
  {
    seq(|calls|, i requires 0 <= i < |calls| => field(calls[i]))
  }

  /** Each total is the sum of what the calls add to it. */
  lemma {:induction false} SpentMeans(calls: seq<Usage>)
    ensures var t := Spent(calls);
            && t.cost == Sum(Each(calls, (u: Usage) => u.cost))
            && t.completion == Sum(Each(calls, (u: Usage) => u.completionTokens))
            && t.prompt == Sum(Each(calls, (u: Usage) => BucketsOf(u).prompt))
            && t.read == Sum(Each(calls, (u: Usage) => BucketsOf(u).read))
            && t.creation == Sum(Each(calls, (u: Usage) => BucketsOf(u).creation))
  {
    if calls != [] {
      var front, last := calls[..|calls| - 1], calls[|calls| - 1];
      SpentMeans(front);
      EachSnoc(front, last, (u: Usage) => u.cost);
      EachSnoc(front, last, (u: Usage) => u.completionTokens);
      EachSnoc(front, last, (u: Usage) => BucketsOf(u).prompt);
      EachSnoc(front, last, (u: Usage) => BucketsOf(u).read);
      EachSnoc(front, last, (u: Usage) => BucketsOf(u).creation);
      assert calls == front + [last];
    }
  }

  lemma EachSnoc(calls: seq<Usage>, u: Usage, field: Usage -> int)
    ensures Sum(Each(calls + [u], field)) == Sum(Each(calls, field)) + field(u)
  {
    var ns := Each(calls + [u], field);
    assert ns[..|calls|] == Each(calls, field);
  }

  ghost function WireTokens(calls: seq<Usage>): int {
    if calls == [] then 0
    else
      var u := calls[|calls| - 1];
      WireTokens(calls[..|calls| - 1]) + u.promptTokens + Positive(u.shimRead) + Positive(u.shimCreation)
  }

  /** Over any list of calls the three token totals add up to the wire prompts plus the shim fields:
      normalizing neither loses nor invents an input token. */
  lemma {:induction false} TokensConserved(calls: seq<Usage>)
    ensures var t := Spent(calls); t.prompt + t.read + t.creation == WireTokens(calls)
  {
    if calls != [] {
      TokensConserved(calls[..|calls| - 1]);
    }
  }
}
