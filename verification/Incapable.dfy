/** Classifying a streak of turns whose tool-call arguments never parsed. */
module Incapable {

  datatype Pattern = NoPattern | ConcatenatedObjects | IdenticalPayload

  const CONCATENATED_DETAIL :=
    "suspected upstream gateway defect: tool-call arguments arrived as concatenated JSON objects"
  const IDENTICAL_DETAIL :=
    "suspected upstream gateway defect: identical tool-call arguments arrived on every turn"

  function Detail(p: Pattern): string {
    match p
    case NoPattern => ""
    case ConcatenatedObjects => CONCATENATED_DETAIL
    case IdenticalPayload => IDENTICAL_DETAIL
  }

  /** `payload` is one of the raw argument strings retained by the window. */
  ghost predicate Retained(window: seq<seq<string>>, payload: string) {
    exists turn :: turn in window && payload in turn
  }

  method EveryPayloadMatches(window: seq<seq<string>>, pred: string -> bool) returns (all: bool)
    ensures all <==> forall payload :: Retained(window, payload) ==> pred(payload)
  {
    for i := 0 to |window|
      invariant forall turn, payload :: turn in window[..i] && payload in turn ==> pred(payload)
    {
      var turn := window[i];
      for j := 0 to |turn|
        invariant forall payload :: payload in turn[..j] ==> pred(payload)
      {
        if !pred(turn[j]) {
          assert turn in window && turn[j] in turn;
          assert Retained(window, turn[j]);
          return false;
        }
        assert turn[..j + 1] == turn[..j] + [turn[j]];
      }
      assert turn[..|turn|] == turn;
      assert window[..i + 1] == window[..i] + [turn];
    }
    assert window[..|window|] == window;
    return true;
  }

  /** Every turn of the window retained at least one payload. */
  ghost predicate Evidence(window: seq<seq<string>>) {
    window != [] && forall turn :: turn in window ==> turn != []
  }

  ghost predicate AllEqual(window: seq<seq<string>>) {
    forall p, q :: Retained(window, p) && Retained(window, q) ==> p == q
  }

  /** `detail` names a defect exactly when the retained payloads show it. */
  ghost predicate DetailFits(window: seq<seq<string>>, concatenated: string -> bool, detail: string) {
    var allConcatenated := forall p :: Retained(window, p) ==> concatenated(p);
    detail ==
      if Evidence(window) && allConcatenated then CONCATENATED_DETAIL
      else if Evidence(window) && |window| >= 2 && AllEqual(window) then IDENTICAL_DETAIL
      else ""
  }

  /** Names a defect exactly when the evidence supports it: concatenated objects first, then one
      payload repeated over at least two turns. `concatenated` says whether a raw string decodes as
      two or more JSON values. */
  method ClassifyIncapable(window: seq<seq<string>>, concatenated: string -> bool) returns (pattern: Pattern)
    ensures pattern == ConcatenatedObjects <==>
              Evidence(window) && forall p :: Retained(window, p) ==> concatenated(p)
    ensures pattern == IdenticalPayload <==>
              && Evidence(window) && |window| >= 2 && AllEqual(window)
              && !(forall p :: Retained(window, p) ==> concatenated(p))
  {
    if |window| == 0 {
      return NoPattern;
    }
    for i := 0 to |window|
      invariant forall turn :: turn in window[..i] ==> turn != []
    {
      if |window[i]| == 0 {
        assert window[i] in window;
        return NoPattern;
      }
      assert window[..i + 1] == window[..i] + [window[i]];
    }
    assert window[..|window|] == window;
    var all := EveryPayloadMatches(window, concatenated);
    if all {
      return ConcatenatedObjects;
    }
    if |window| < 2 {
      return NoPattern;
    }
    assert window[0] in window;
    var first := window[0][0];
    assert first in window[0];
    assert Retained(window, first);
    var same := EveryPayloadMatches(window, payload => payload == first);
    if same {
      return IdenticalPayload;
    }
    return NoPattern;
  }
}
