/**
 * The sliding-window rate limiter of the submission pipeline (`checkRateLimit`),
 * as pure functions of the stored timestamp list and the current time.
 * The imperative version over the browser's storage is `Uplink.CheckRateLimit`.
 *
 * The stored entry is `Some(history)` when it reads as a list of millisecond
 * timestamps (a missing entry reads as the empty list) and `None` when reading
 * or parsing it throws, in which case the check fails open.
 */
module RateLimit {
  import opened Wrappers

  /** RATE_LIMIT_DURATION: one hour, in milliseconds. */
  const Window: int := 60 * 60 * 1000
  /** RATE_LIMIT_MAX_REQUESTS. */
  const MaxRequests: nat := 3

  /** A timestamp still counts at time `now` when it is less than one window old. */
  predicate Live(t: int, now: int) {
    now - t < Window
  }

  /** `history.filter(timestamp => now - timestamp < RATE_LIMIT_DURATION)`. */
  function Prune(history: seq<int>, now: int): (kept: seq<int>)
    ensures |kept| <= |history|
    ensures forall t :: t in kept <==> t in history && Live(t, now)
  {
    if history == [] then []
    else (if Live(history[0], now) then [history[0]] else []) + Prune(history[1..], now)
  }

  /** At most `MaxRequests` stamps are kept, none of them stale at `now`. */
  predicate Bounded(stored: Option<seq<int>>, now: int) {
    stored.Some? ==> |stored.value| <= MaxRequests && forall t :: t in stored.value ==> Live(t, now)
  }

  /** The result of one check: whether the submission may go on, and the stored entry afterwards. */
  datatype Verdict = Verdict(admitted: bool, stored: Option<seq<int>>)

  /**
   * `checkRateLimit` at time `now`. `persisted` says whether writing the entry back
   * succeeds; when it throws, the check still admits (fail open) and the entry keeps
   * its old value.
   */
  function Check(stored: Option<seq<int>>, now: int, persisted: bool): (v: Verdict)
    ensures stored.None? ==> v.admitted && v.stored == stored
    ensures stored.Some? ==> (v.admitted <==> |Prune(stored.value, now)| < MaxRequests)
    ensures !v.admitted || !persisted ==> v.stored == stored
    ensures stored.Some? && v.admitted && persisted ==> v.stored == Some(Prune(stored.value, now) + [now])
    ensures v.stored != stored ==> Bounded(v.stored, now)
  {
    match stored
    case None => Verdict(true, stored)
    case Some(h) =>
      var history := Prune(h, now);
      if |history| >= MaxRequests then Verdict(false, stored)
      else Verdict(true, if persisted then Some(history + [now]) else stored)
  }

  /** A stamp exactly one window old no longer counts; one a millisecond younger still does. */
  lemma WindowEdge(history: seq<int>, now: int)
    ensures now - Window !in Prune(history, now)
    ensures now - Window + 1 in history ==> now - Window + 1 in Prune(history, now)
  {
  }

  /** Pruning drops nothing exactly when every stored stamp is still live. */
  lemma {:induction false} PruneDropsNothingIffAllLive(history: seq<int>, now: int)
    ensures |Prune(history, now)| == |history| <==> (forall t :: t in history ==> Live(t, now))
  {
    if history != [] {
      PruneDropsNothingIffAllLive(history[1..], now);
      assert history == [history[0]] + history[1..];
    }
  }

  /** Pruning a list whose stamps are all live changes nothing. */
  lemma {:induction false} PruneKeepsLive(history: seq<int>, now: int)
    requires forall t :: t in history ==> Live(t, now)
    ensures Prune(history, now) == history
  {
    if history != [] {
      assert history[0] in history;
      PruneKeepsLive(history[1..], now);
      assert history == [history[0]] + history[1..];
    }
  }

  /** The stored entry never grows beyond `MaxRequests` stamps, whatever the clock does. */
  lemma CheckKeepsEntrySmall(stored: Option<seq<int>>, now: int, persisted: bool)
    requires stored.Some? ==> |stored.value| <= MaxRequests
    ensures var after := Check(stored, now, persisted).stored;
      after.Some? ==> |after.value| <= MaxRequests
  {
  }

  /** Checks at the successive `times`, every write succeeding: whether each was admitted. */
  function Replay(stored: Option<seq<int>>, times: seq<int>): (admits: seq<bool>)
    ensures |admits| == |times|
    decreases |times|
  {
    if times == [] then []
    else
      var v := Check(stored, times[0], true);
      [v.admitted] + Replay(v.stored, times[1..])
  }

  lemma ReplayHead(stored: Option<seq<int>>, times: seq<int>)
    requires times != []
    ensures var v := Check(stored, times[0], true);
      Replay(stored, times) == [v.admitted] + Replay(v.stored, times[1..])
  {
  }

  lemma {:induction false} ReplayWithinWindow(prev: seq<int>, times: seq<int>, lo: int)
    requires |prev| <= MaxRequests
    requires forall t :: t in prev + times ==> lo <= t < lo + Window
    ensures forall k :: 0 <= k < |times| ==> Replay(Some(prev), times)[k] == (|prev| + k < MaxRequests)
    decreases |times|
  {
    if times != [] {
      var now := times[0];
      assert now in prev + times;
      forall t | t in prev ensures Live(t, now) {
        assert t in prev + times;
      }
      PruneKeepsLive(prev, now);
      var v := Check(Some(prev), now, true);
      var next := if |prev| < MaxRequests then prev + [now] else prev;
      assert v.stored == Some(next);
      forall t | t in next + times[1..] ensures lo <= t < lo + Window {
        assert t in prev + times;
      }
      ReplayWithinWindow(next, times[1..], lo);
    }
  }

  /**
   * Submissions all made within one window, starting from an empty (or just
   * purged) entry: exactly the first `MaxRequests` are admitted and every later
   * one is throttled.
   */
  lemma ThrottleAfterMax(times: seq<int>, lo: int)
    requires forall t :: t in times ==> lo <= t < lo + Window
    ensures forall k :: 0 <= k < |times| ==> Replay(Some([]), times)[k] == (k < MaxRequests)
  {
    assert [] + times == times;
    ReplayWithinWindow([], times, lo);
  }
}
