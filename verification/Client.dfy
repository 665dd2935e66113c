/** The endpoint client: retries around connecting, and a streamed call replayed as a whole when it
    fails while being read. The wire, the waiting and cancellation are scripts of the outside world. */
module Client {
  import opened Wrappers
  import opened Stream

  datatype HttpReply = HttpReply(status: int, oversize: bool, lines: seq<string>, scan: Option<ScanError>)

  datatype Posted = ConnectFailed | Answered(reply: HttpReply)

  /** What the outside world answers to the n-th post, wait and look at the context. */
  datatype Wire = Wire(
    post: nat -> Posted, sleeps: nat -> bool, cancelled: nat -> bool, decode: string -> Decoded)

  datatype ClientError = SleepInterrupted | Unconnected | BodyTooLarge | Status(code: int) | Broken(error: StreamError)

  const NO_REPLY: Reply := Reply("", "", "", "", "", NO_USAGE, None, [])

  predicate Retryable(status: int) {
    status == 429 || status == 500 || status == 502 || status == 503 || status == 504
  }

  class Client {
    const maxRetries: int
    const wire: Wire
    var posts: nat
    var waits: nat
    var looks: nat

    constructor (maxRetries: int, wire: Wire)
      ensures this.maxRetries == maxRetries && this.wire == wire && posts == waits == looks == 0
    {
      this.maxRetries, this.wire := maxRetries, wire;
      posts, waits, looks := 0, 0, 0;
    }

    /** How often one request is tried. */
    function Attempts(): (n: nat)
    {
      if maxRetries + 1 > 0 then maxRetries + 1 else 0
    }

    method Post() returns (posted: Posted)
      modifies `posts
      ensures posts == old(posts) + 1 && posted == wire.post(old(posts))
    {
      posted := wire.post(posts);
      posts := posts + 1;
    }

    /** Waits before a retry; false when the context ended first. */
    method Sleep() returns (ok: bool)
      modifies `waits
      ensures waits == old(waits) + 1 && ok == wire.sleeps(old(waits))
    {
      ok := wire.sleeps(waits);
      waits := waits + 1;
    }

    method Cancelled() returns (over: bool)
      modifies `looks
      ensures looks == old(looks) + 1 && over == wire.cancelled(old(looks))
    {
      over := wire.cancelled(looks);
      looks := looks + 1;
    }

    /** The post found no connection or a status that is worth another try. */
    ghost predicate Retried(k: nat)
    {
      wire.post(k).ConnectFailed? || wire.post(k).reply.status in {429, 500, 502, 503, 504}
    }

    ghost predicate AllRetried(first: nat, last: nat)
    {
      forall k :: first <= k < last ==> Retried(k)
    }

    /** No wait from `first` up to `last` was interrupted. */
    ghost predicate Slept(first: nat, last: nat)
    {
      forall k :: first <= k < last ==> wire.sleeps(k)
    }

    /** Exactly one wait lies between two posts. A wait that was interrupted is the last one, after the
        last post. */
    ghost predicate Paced(posts0: nat, posts1: nat, waits0: nat, waits1: nat, interrupted: bool)
    {
      if interrupted then
        posts1 > posts0 && waits1 - waits0 == posts1 - posts0 && Slept(waits0, waits1 - 1) && !wire.sleeps(waits1 - 1)
      else
        waits1 - waits0 == (if posts1 > posts0 then posts1 - posts0 - 1 else 0) && Slept(waits0, waits1)
    }

    /** Connects, retrying transport errors and retryable statuses before any body is read. The result
        is the first reply that may not be retried or the reply to the last attempt; an interrupted wait
        gives up. Neither a reply nor an error comes back exactly when the policy allows no attempt at all. */
    method DoWithRetry() returns (reply: Option<HttpReply>, err: Option<ClientError>)
      modifies `posts, `waits
      ensures !(reply.Some? && err.Some?)
      ensures reply.None? && err.None? <==> maxRetries < 0
      ensures old(posts) <= posts <= old(posts) + Attempts() && (posts == old(posts) <==> maxRetries < 0)
      ensures reply.Some? ==>
                && wire.post(posts - 1) == Answered(reply.value)
                && AllRetried(old(posts), posts - 1)
                && (!Retried(posts - 1) || posts == old(posts) + Attempts())
      ensures err == Some(Unconnected) ==>
                posts == old(posts) + Attempts() && wire.post(posts - 1).ConnectFailed? && AllRetried(old(posts), posts)
      ensures err == Some(SleepInterrupted) ==> posts < old(posts) + Attempts() && AllRetried(old(posts), posts)
      ensures err.Some? ==> err.value == Unconnected || err.value == SleepInterrupted
      ensures Paced(old(posts), posts, old(waits), waits, err == Some(SleepInterrupted))
    {
      var attempts := maxRetries + 1;
      var lastErr: Option<ClientError> := None;
      var attempt := 0;
      while attempt < attempts
        invariant 0 <= attempt && (attempt > 0 ==> attempt <= attempts)
        invariant posts == old(posts) + attempt
        invariant Paced(old(posts), posts, old(waits), waits, false)
        invariant AllRetried(old(posts), posts)
        invariant lastErr.Some? ==> lastErr.value == Unconnected
        invariant attempt == attempts && attempts > 0 ==> lastErr.Some? && wire.post(posts - 1).ConnectFailed?
        invariant attempt == 0 ==> lastErr.None?
      {
        if attempt > 0 {
          var slept := Sleep();
          if !slept {
            return None, Some(SleepInterrupted);
          }
        }
        var posted := Post();
        attempt := attempt + 1;
        if posted.ConnectFailed? {
          lastErr := Some(Unconnected);
          continue;
        }
        if attempt < attempts && Retryable(posted.reply.status) {
          continue;
        }
        return Some(posted.reply), None;
      }
      return None, lastErr;
    }

    /** A wait, and then posts that keep the pace. */
    lemma PacedOn(posts0: nat, posts1: nat, posts2: nat, waits0: nat, waits1: nat, waits2: nat, interrupted: bool)
      requires posts0 < posts1 < posts2 && waits1 + 1 <= waits2 && wire.sleeps(waits1)
      requires Paced(posts0, posts1, waits0, waits1, false)
      requires Paced(posts1, posts2, waits1 + 1, waits2, interrupted)
      ensures Paced(posts0, posts2, waits0, waits2, interrupted)
    {
    }

    lemma Interrupted(posts0: nat, posts1: nat, waits0: nat, waits1: nat)
      requires Paced(posts0, posts1, waits0, waits1, false) && posts1 > posts0 && !wire.sleeps(waits1)
      ensures Paced(posts0, posts1, waits0, waits1 + 1, true)
    {
    }

    lemma WaitFailed(posts0: nat, posts1: nat, waits0: nat, waits1: nat, interrupted: bool)
      requires Paced(posts0, posts1, waits0, waits1, interrupted)
      ensures interrupted ==> waits1 > 0 && !wire.sleeps(waits1 - 1)
    {
    }

    /** Connects for the first time, or again after a wait. */
    method Connect(again: bool, ghost posts0: nat, ghost waits0: nat)
      returns (reply: Option<HttpReply>, err: Option<ClientError>)
      requires maxRetries >= 0 && Paced(posts0, posts, waits0, waits, false)
      requires if again then posts0 < posts else posts0 == posts && waits0 == waits
      modifies `posts, `waits
      ensures reply.None? <==> err.Some?
      ensures posts0 < posts && old(posts) <= posts <= old(posts) + Attempts()
      ensures reply.Some? ==>
                && old(posts) < posts && wire.post(posts - 1) == Answered(reply.value)
                && AllRetried(old(posts), posts - 1)
                && (!Retried(posts - 1) || posts == old(posts) + Attempts())
      ensures err == Some(Unconnected) ==>
                posts == old(posts) + Attempts() && wire.post(posts - 1).ConnectFailed? && AllRetried(old(posts), posts)
      ensures err == Some(SleepInterrupted) ==>
                && posts < old(posts) + Attempts() && AllRetried(old(posts), posts)
                && waits > 0 && !wire.sleeps(waits - 1)
      ensures err.Some? ==> err.value == Unconnected || err.value == SleepInterrupted
      ensures Paced(posts0, posts, waits0, waits, err == Some(SleepInterrupted))
    {
      hide Retried, Paced, Slept;
      if again {
        var slept := Sleep();
        if !slept {
          Interrupted(posts0, posts, waits0, old(waits));
          return None, Some(SleepInterrupted);
        }
      }
      reply, err := DoWithRetry();
      if again {
        PacedOn(posts0, old(posts), posts, waits0, old(waits), waits, err == Some(SleepInterrupted));
      }
      WaitFailed(posts0, posts, waits0, waits, err == Some(SleepInterrupted));
    }

    // ----- A streamed call -----

    ghost predicate Opened(k: nat)
    {
      wire.post(k).Answered? && wire.post(k).reply.status == 200
    }

    /** What reading the body of a post came to. */
    ghost function Outcome(k: nat): Parsed
      requires Opened(k)
    {
      Verdict(wire.decode, wire.post(k).reply.lines, wire.post(k).reply.scan)
    }

    /** The body of this post broke while it was read. */
    ghost predicate Broke(k: nat)
    {
      Opened(k) && Outcome(k).Failed?
    }

    /** From `first` up to `last` the posts in `broken`, in this order, are those whose bodies broke, and
        every other post could be retried. */
    ghost predicate OnlyBroke(broken: seq<nat>, first: nat, last: nat)
    {
      && (forall j :: 0 <= j < |broken| ==> first <= broken[j] < last && Broke(broken[j]))
      && (forall i, j :: 0 <= i < j < |broken| ==> broken[i] < broken[j])
      && (forall k :: first <= k < last && k !in broken ==> Retried(k))
    }

    /** No look at the context from `first` up to `last` found it over. */
    ghost predicate Live(first: nat, last: nat)
    {
      forall k :: first <= k < last ==> !wire.cancelled(k)
    }

    /** The body of this post gave the reply, and a listener has built it. */
    ghost predicate Returned(k: nat, reply: Reply, sink: bool, deltas: seq<Delta>)
    {
      && Opened(k) && Outcome(k) == Complete(reply)
      && (sink ==> Rebuilds(HearAll(NOTHING, deltas), CallOrder(wire.decode, wire.post(k).reply.lines), reply))
    }

    /** The first post after the last body that broke. */
    ghost function Since(broken: seq<nat>, first: nat): nat
    {
      if broken == [] then first else broken[|broken| - 1] + 1
    }

    /** How a streamed call that made the posts from `first` up to `last` and looked at the context from
        `looks0` up to `looks1` may end: bodies broke one after another, the context was found live after
        each of them, and fewer broke than attempts are allowed; what came last decides the outcome. */
    ghost predicate Replayed(broken: seq<nat>, first: nat, last: nat, looks0: nat, looks1: nat,
                             err: Option<ClientError>)
    {
      && last > first && looks1 == looks0 + |broken|
      && if err.Some? && err.value.Broken? then
           && OnlyBroke(broken, first, last) && broken != [] && broken[|broken| - 1] == last - 1
           && Outcome(last - 1) == Parsed.Failed(err.value.error)
           && |broken| <= Attempts() && Live(looks0, looks1 - 1)
           && (wire.cancelled(looks1 - 1) || |broken| == Attempts())
         else
           && |broken| < Attempts() && Live(looks0, looks1)
           && EndsWith(broken, first, last, err)
    }

    /** The posts after the last body that broke, when it was replayed or none broke. */
    ghost predicate EndsWith(broken: seq<nat>, first: nat, last: nat, err: Option<ClientError>)
      requires last > first
    {
      var tries := last - Since(broken, first);
      match err
      case None => OnlyBroke(broken, first, last - 1) && Opened(last - 1) && Outcome(last - 1).Complete?
      case Some(SleepInterrupted) => OnlyBroke(broken, first, last) && tries < Attempts()
      case Some(Unconnected) =>
        OnlyBroke(broken, first, last) && wire.post(last - 1).ConnectFailed? && tries == Attempts()
      case Some(Broken(_)) => false
      case Some(refused) =>
        && OnlyBroke(broken, first, last - 1) && wire.post(last - 1).Answered? && !Opened(last - 1)
        && (!Retried(last - 1) || tries == Attempts())
        && var reply := wire.post(last - 1).reply;
           refused == if reply.oversize then BodyTooLarge else Status(reply.status)
    }

    lemma BrokeOn(broken: seq<nat>, first: nat, middle: nat, last: nat)
      requires OnlyBroke(broken, first, middle) && AllRetried(middle, last) && middle <= last
      ensures OnlyBroke(broken, first, last)
    {
    }

    lemma BreaksOff(k: nat)
      requires Opened(k) && Outcome(k).Failed?
      ensures Broke(k)
    {
    }

    lemma BrokeNext(broken: seq<nat>, first: nat, k: nat, reply: HttpReply)
      requires OnlyBroke(broken, first, k) && first <= k
      requires wire.post(k) == Answered(reply) && reply.status == 200
      requires Verdict(wire.decode, reply.lines, reply.scan).Failed?
      ensures OnlyBroke(broken + [k], first, k + 1)
      ensures Opened(k) && Outcome(k) == Verdict(wire.decode, reply.lines, reply.scan)
    {
      hide Broke, Retried, Verdict;
      BreaksOff(k);
      var more := broken + [k];
      assert more[|broken|] == k;
      forall i | first <= i < k + 1 && i !in more ensures Retried(i) {
        assert i !in broken;
      }
    }

    /** What the caller has been told so far stands for what it may keep. */
    ghost predicate Heard(sink: bool, deltas: seq<Delta>, delivered: bool) {
      && (!sink ==> deltas == [] && !delivered)
      && (!delivered ==> HearAll(NOTHING, deltas) == NOTHING)
      && (delivered ==> deltas != [] && !deltas[|deltas| - 1].Reset?)
      && Resets(deltas)
    }

    /** A reset never comes first, nor right after another reset. */
    ghost predicate Resets(deltas: seq<Delta>) {
      forall k :: 0 <= k < |deltas| && deltas[k].Reset? ==> k > 0 && !deltas[k - 1].Reset?
    }

    /** One streamed call. A stream that fails while being read is replayed from the start, after a
        reset when something of it had been delivered, as long as attempts are left and the context is
        live; a failure to connect or a refusal is final. When a reply comes back, the listener has built
        exactly that reply. */
    method SendStream(sink: bool)
      returns (reply: Reply, err: Option<ClientError>, deltas: seq<Delta>, ghost broken: seq<nat>)
      modifies this
      ensures err.Some? ==> reply == NO_REPLY
      ensures posts <= old(posts) + Attempts() * Attempts()
      ensures maxRetries < 0 ==>
                && reply == NO_REPLY && err.None? && deltas == [] && broken == []
                && posts == old(posts) && waits == old(waits) && looks == old(looks)
      ensures maxRetries >= 0 ==> Replayed(broken, old(posts), posts, old(looks), looks, err)
      ensures maxRetries >= 0 ==> Paced(old(posts), posts, old(waits), waits, err == Some(SleepInterrupted))
      ensures err == Some(SleepInterrupted) ==> !wire.sleeps(waits - 1)
      ensures err.None? && maxRetries >= 0 ==> posts > 0 && Returned(posts - 1, reply, sink, deltas)
      ensures Resets(deltas) && (!sink ==> deltas == [])
    {
      hide HearAll, Verdict, Rebuilds, Heard, CallOrder, Retried, Paced, OnlyBroke, Replayed, Live, EndsWith, Slept,
           Broke, Resets, AllRetried;
      Silence(sink);
      Starts(posts, waits, looks);
      var attempts := maxRetries + 1;
      var lastErr: Option<ClientError> := None;
      var delivered := false;
      deltas, broken := [], [];
      var attempt := 0;
      while attempt < attempts
        invariant 0 <= attempt == |broken| && (attempt > 0 ==> attempt <= attempts)
        invariant old(posts) <= posts <= old(posts) + attempt * Attempts()
        invariant attempt > 0 ==>
                    && posts > old(posts) && broken[attempt - 1] == posts - 1 && Opened(posts - 1)
                    && lastErr.Some? && lastErr.value.Broken?
                    && Outcome(posts - 1) == Parsed.Failed(lastErr.value.error)
        invariant attempt == 0 ==> lastErr.None? && posts == old(posts) && waits == old(waits) && deltas == []
        invariant OnlyBroke(broken, old(posts), posts) && looks == old(looks) + attempt && Live(old(looks), looks)
        invariant Paced(old(posts), posts, old(waits), waits, false)
        invariant Heard(sink, deltas, delivered)
      {
        Budget(attempt, attempts);
        HeardMeans(sink, deltas, delivered);
        ghost var posted := posts;
        var hr, failed := Connect(attempt > 0, old(posts), old(waits));
        BrokeOn(broken, old(posts), posted, if failed.Some? then posts else posts - 1);
        if failed.Some? {
          GaveUp(broken, old(posts), posted, posts, old(looks), looks, failed.value);
          return NO_REPLY, failed, deltas, broken;
        }
        if hr.value.status != 200 {
          Refused(broken, old(posts), posted, posts, old(looks), looks, hr.value);
          if hr.value.oversize {
            return NO_REPLY, Some(BodyTooLarge), deltas, broken;
          }
          return NO_REPLY, Some(Status(hr.value.status)), deltas, broken;
        }
        var parsed;
        parsed, deltas, delivered := Read(hr.value, sink, deltas, delivered);
        HeardMeans(sink, deltas, delivered);
        if parsed.Complete? {
          Completed(broken, old(posts), posts, old(looks), looks, hr.value);
          return parsed.reply, None, deltas, broken;
        }
        BrokeNext(broken, old(posts), posts - 1, hr.value);
        broken := broken + [posts - 1];
        var over := Cancelled();
        if over {
          EndsBroken(broken, old(posts), posts, old(looks), looks, parsed.error);
          return NO_REPLY, Some(Broken(parsed.error)), deltas, broken;
        }
        LiveOn(old(looks), looks);
        lastErr := Some(Broken(parsed.error));
        attempt := attempt + 1;
      }
      HeardMeans(sink, deltas, delivered);
      if lastErr.Some? {
        StaysLive(old(looks), looks);
        EndsBroken(broken, old(posts), posts, old(looks), looks, lastErr.value.error);
      }
      return NO_REPLY, lastErr, deltas, broken;
    }

    /** What holds after some bodies broke and before the next one is read. */
    ghost predicate Ready(broken: seq<nat>, looks0: nat, looks1: nat)
    {
      looks1 == looks0 + |broken| && |broken| < Attempts() && Live(looks0, looks1)
    }

    lemma GaveUp(broken: seq<nat>, first: nat, since: nat, last: nat, looks0: nat, looks1: nat, err: ClientError)
      requires Ready(broken, looks0, looks1) && OnlyBroke(broken, first, last) && last > first
      requires since == Since(broken, first)
      requires err == Unconnected ==> last == since + Attempts() && wire.post(last - 1).ConnectFailed?
      requires err == SleepInterrupted ==> last < since + Attempts()
      requires err == Unconnected || err == SleepInterrupted
      ensures Replayed(broken, first, last, looks0, looks1, Some(err))
    {
      hide OnlyBroke, Live, Since;
    }

    lemma Refused(broken: seq<nat>, first: nat, since: nat, last: nat, looks0: nat, looks1: nat, reply: HttpReply)
      requires Ready(broken, looks0, looks1) && last > first && OnlyBroke(broken, first, last - 1)
      requires since == Since(broken, first) && wire.post(last - 1) == Answered(reply) && reply.status != 200
      requires !Retried(last - 1) || last == since + Attempts()
      ensures Replayed(broken, first, last, looks0, looks1,
                       Some(if reply.oversize then BodyTooLarge else Status(reply.status)))
    {
      hide OnlyBroke, Live, Since, Retried;
    }

    lemma Completed(broken: seq<nat>, first: nat, last: nat, looks0: nat, looks1: nat, reply: HttpReply)
      requires Ready(broken, looks0, looks1) && last > first && OnlyBroke(broken, first, last - 1)
      requires wire.post(last - 1) == Answered(reply) && reply.status == 200
      requires Verdict(wire.decode, reply.lines, reply.scan).Complete?
      ensures Replayed(broken, first, last, looks0, looks1, None)
    {
      hide OnlyBroke, Live, Verdict;
    }

    lemma EndsBroken(broken: seq<nat>, first: nat, last: nat, looks0: nat, looks1: nat, error: StreamError)
      requires last > first && looks1 == looks0 + |broken| && OnlyBroke(broken, first, last)
      requires broken != [] && broken[|broken| - 1] == last - 1 && Opened(last - 1)
      requires Outcome(last - 1) == Parsed.Failed(error) && |broken| <= Attempts() && Live(looks0, looks1 - 1)
      requires wire.cancelled(looks1 - 1) || |broken| == Attempts()
      ensures Replayed(broken, first, last, looks0, looks1, Some(Broken(error)))
    {
      hide OnlyBroke, Live, Verdict;
    }

    lemma LiveOn(first: nat, last: nat)
      requires last > first && Live(first, last - 1) && !wire.cancelled(last - 1)
      ensures Live(first, last)
    {
    }

    lemma StaysLive(first: nat, last: nat)
      requires Live(first, last) && last > first
      ensures Live(first, last - 1)
    {
    }

    lemma Starts(posts: nat, waits: nat, looks: nat)
      ensures Paced(posts, posts, waits, waits, false) && OnlyBroke([], posts, posts) && Live(looks, looks)
    {
    }

    /** Reads one body, after a reset when an earlier one had delivered something. */
    method Read(hr: HttpReply, sink: bool, before: seq<Delta>, told: bool)
      returns (parsed: Parsed, deltas: seq<Delta>, delivered: bool)
      requires Heard(sink, before, told)
      ensures Heard(sink, deltas, delivered)
      ensures parsed == Verdict(wire.decode, hr.lines, hr.scan)
      ensures sink && parsed.Complete? ==>
                Rebuilds(HearAll(NOTHING, deltas), CallOrder(wire.decode, hr.lines), parsed.reply)
    {
      hide HearAll, Verdict, Rebuilds, Shows, CallOrder;
      deltas, delivered := before, told;
      if delivered {
        Voided(deltas);
        deltas := deltas + [Reset];
        delivered := false;
      }
      var more;
      parsed, more := ParseStream(hr.lines, hr.scan, wire.decode, sink);
      HearOn(NOTHING, deltas, more);
      HearOne(NOTHING, Reset);
      deltas := deltas + more;
      delivered := delivered || |more| > 0;
      if sink && parsed.Complete? {
        ListenerAgrees(wire.decode, hr.lines, hr.scan, HearAll(NOTHING, deltas));
      }
    }

    lemma Silence(sink: bool)
      ensures Heard(sink, [], false)
    {
    }

    lemma HeardMeans(sink: bool, deltas: seq<Delta>, delivered: bool)
      requires Heard(sink, deltas, delivered)
      ensures Resets(deltas) && (!sink ==> deltas == [])
    {
    }

    lemma Voided(deltas: seq<Delta>)
      ensures HearAll(NOTHING, deltas + [Reset]) == NOTHING
    {
      HearSnoc(NOTHING, deltas, Reset);
    }

    lemma Budget(attempt: nat, attempts: nat)
      requires attempt < attempts
      ensures (attempt + 1) * attempts == attempt * attempts + attempts
              && (attempt + 1) * attempts <= attempts * attempts
    {
    }
  }
}
