/** The sliding-window limiter (apps/api/src/rate_limit.rs:69-91): pruned queues, one per key,
    refine a full log of the accepted attempts. Times are monotonic-clock nanoseconds. */
module RateLimit {

  const WINDOW: int := 60_000_000_000
  const MAX_KEYS: int := 10_000

  /** A client address; only equality of keys matters. */
  type Key = string

  type Queues = map<Key, seq<int>>

  datatype Attempt = Attempt(key: Key, time: int)

  // ---- the queues ----

  function QueueOf(queues: Queues, key: Key): seq<int> {
    if key in queues then queues[key] else []
  }

  /** What is left after popping the front while it is outside the window. */
  function Pruned(queue: seq<int>, cutoff: int): seq<int> {
    if queue != [] && queue[0] <= cutoff then Pruned(queue[1..], cutoff) else queue
  }

  predicate Live(queue: seq<int>, cutoff: int) {
    queue != [] && queue[|queue| - 1] > cutoff
  }

  function Retained(queues: Queues, cutoff: int): Queues {
    map key | key in queues && Live(queues[key], cutoff) :: queues[key]
  }

  /** The queue of a request's key as the request finds it. */
  function Front(queues: Queues, request: Attempt): seq<int> {
    Pruned(QueueOf(queues, request.key), request.time - WINDOW)
  }

  /** Too many keys make the limiter forget the idle ones. */
  function Evicted(queues: Queues, cutoff: int): Queues {
    if |queues| > MAX_KEYS then Retained(queues, cutoff) else queues
  }

  function Check(queues: Queues, limit: nat, request: Attempt): (Queues, bool) {
    var cutoff := request.time - WINDOW;
    var queue := Front(queues, request);
    if |queue| >= limit then (queues[request.key := queue], false)
    else (Evicted(queues[request.key := queue + [request.time]], cutoff), true)
  }

  class LoginRateLimiter {
    var attempts: Queues
    const limit: nat

    constructor (limit: nat)
      ensures attempts == map[] && this.limit == limit
    {
      attempts := map[];
      this.limit := limit;
    }

    method CheckKey(key: Key, now: int) returns (accepted: bool)
      modifies this
      ensures (attempts, accepted) == Check(old(attempts), limit, Attempt(key, now))
    {
      var cutoff := now - WINDOW;
      var entries := QueueOf(attempts, key);
      while entries != [] && entries[0] <= cutoff
        invariant Pruned(entries, cutoff) == Front(old(attempts), Attempt(key, now))
        decreases |entries|
      {
        entries := entries[1..];
      }
      attempts := attempts[key := entries];
      if |entries| >= limit {
        return false;
      }
      attempts := attempts[key := entries + [now]];
      assert attempts == old(attempts)[key := entries + [now]];
      if |attempts| > MAX_KEYS {
        Retain(cutoff);
      }
      return true;
    }

    /** Drop every queue whose newest entry is outside the window. */
    method Retain(cutoff: int)
      modifies this
      ensures attempts == Retained(old(attempts), cutoff)
    {
      var todo := attempts.Keys;
      while todo != {}
        invariant todo <= attempts.Keys <= old(attempts).Keys
        invariant forall k :: k in attempts ==> attempts[k] == old(attempts)[k]
        invariant forall k :: k in old(attempts) && k !in todo ==>
                    (k in attempts <==> Live(old(attempts)[k], cutoff))
        decreases todo
      {
        var key: Key :| key in todo;
        if !Live(attempts[key], cutoff) {
          attempts := attempts - {key};
        }
        todo := todo - {key};
      }
    }
  }

  // ---- the full log ----

  /** The accepted times of one key, oldest first. */
  function TimesOf(log: seq<Attempt>, key: Key): seq<int> {
    if log == [] then []
    else
      var last := log[|log| - 1];
      TimesOf(log[..|log| - 1], key) + (if last.key == key then [last.time] else [])
  }

  function Since(times: seq<int>, cutoff: int): seq<int> {
    if times == [] then []
    else
      var last := times[|times| - 1];
      Since(times[..|times| - 1], cutoff) + (if last > cutoff then [last] else [])
  }

  /** The logged attempts of a request's key inside the window that ends with the request. */
  function Recent(log: seq<Attempt>, request: Attempt): seq<int> {
    Since(TimesOf(log, request.key), request.time - WINDOW)
  }

  function CheckLog(log: seq<Attempt>, limit: nat, request: Attempt): (seq<Attempt>, bool) {
    if |Recent(log, request)| >= limit then (log, false)
    else (log + [request], true)
  }

  ghost predicate Sorted(times: seq<int>) {
    forall i, j :: 0 <= i < j < |times| ==> times[i] <= times[j]
  }

  ghost predicate Bounded(times: seq<int>, now: int) {
    forall i :: 0 <= i < |times| ==> times[i] <= now
  }

  lemma {:induction false} SinceOfLater(times: seq<int>, cutoff: int)
    requires forall i :: 0 <= i < |times| ==> times[i] > cutoff
    ensures Since(times, cutoff) == times
    decreases |times|
  {
    if times != [] {
      SinceOfLater(times[..|times| - 1], cutoff);
      assert times == times[..|times| - 1] + [times[|times| - 1]];
    }
  }

  lemma {:induction false} SinceOfEarlier(times: seq<int>, cutoff: int)
    requires Bounded(times, cutoff)
    ensures Since(times, cutoff) == []
    decreases |times|
  {
    if times != [] {
      SinceOfEarlier(times[..|times| - 1], cutoff);
    }
  }

  lemma SinceOfPush(times: seq<int>, time: int, cutoff: int)
    ensures Since(times + [time], cutoff) == Since(times, cutoff) + (if time > cutoff then [time] else [])
  {
    assert (times + [time])[..|times|] == times;
  }

  lemma {:induction false} SinceOfPop(times: seq<int>, cutoff: int)
    requires times != [] && times[0] <= cutoff
    ensures Since(times[1..], cutoff) == Since(times, cutoff)
    decreases |times|
  {
    var front := times[..|times| - 1];
    if front != [] {
      SinceOfPop(front, cutoff);
      assert times[1..][..|times| - 2] == front[1..];
    }
  }

  /** Popping from the front of a sorted queue is filtering it. */
  lemma {:induction false} PrunedIsSince(queue: seq<int>, cutoff: int)
    requires Sorted(queue)
    ensures Pruned(queue, cutoff) == Since(queue, cutoff)
    decreases |queue|
  {
    if queue != [] {
      if queue[0] <= cutoff {
        PrunedIsSince(queue[1..], cutoff);
        SinceOfPop(queue, cutoff);
      } else {
        SinceOfLater(queue, cutoff);
      }
    }
  }

  /** Later filters do not see what was popped. */
  lemma {:induction false} SinceOfPruned(queue: seq<int>, cutoff: int, later: int)
    requires cutoff <= later
    ensures Since(Pruned(queue, cutoff), later) == Since(queue, later)
    decreases |queue|
  {
    if queue != [] && queue[0] <= cutoff {
      SinceOfPruned(queue[1..], cutoff, later);
      SinceOfPop(queue, later);
    }
  }

  lemma {:induction false} PrunedStaysSorted(queue: seq<int>, cutoff: int, now: int)
    requires Sorted(queue) && Bounded(queue, now)
    ensures Sorted(Pruned(queue, cutoff)) && Bounded(Pruned(queue, cutoff), now)
    decreases |queue|
  {
    if queue != [] && queue[0] <= cutoff {
      PrunedStaysSorted(queue[1..], cutoff, now);
    }
  }

  /** The queues know everything the log says about the window at `now` and later ones. */
  ghost predicate Agree(queues: Queues, log: seq<Attempt>, now: int) {
    forall key :: AgreeOn(queues, log, key, now)
  }

  ghost predicate AgreeOn(queues: Queues, log: seq<Attempt>, key: Key, now: int) {
    KeyAgrees(QueueOf(queues, key), TimesOf(log, key), now)
  }

  ghost predicate KeyAgrees(queue: seq<int>, times: seq<int>, now: int) {
    && Sorted(queue) && Bounded(queue, now)
    && forall cutoff :: cutoff >= now - WINDOW ==> SameSince(queue, times, cutoff)
  }

  ghost predicate SameSince(queue: seq<int>, times: seq<int>, cutoff: int) {
    Since(queue, cutoff) == Since(times, cutoff)
  }

  lemma AgreesLater(queue: seq<int>, times: seq<int>, now: int, later: int)
    requires KeyAgrees(queue, times, now) && now <= later
    ensures KeyAgrees(queue, times, later)
  {
  }

  lemma AgreesPruned(queue: seq<int>, times: seq<int>, now: int)
    requires KeyAgrees(queue, times, now)
    ensures KeyAgrees(Pruned(queue, now - WINDOW), times, now)
    ensures Pruned(queue, now - WINDOW) == Since(times, now - WINDOW)
  {
    var pruned := Pruned(queue, now - WINDOW);
    forall cutoff | cutoff >= now - WINDOW
      ensures SameSince(pruned, times, cutoff)
    {
      assert SameSince(queue, times, cutoff);
      SinceOfPruned(queue, now - WINDOW, cutoff);
    }
    assert SameSince(queue, times, now - WINDOW);
    PrunedIsSince(queue, now - WINDOW);
    PrunedStaysSorted(queue, now - WINDOW, now);
  }

  lemma AgreesPushed(queue: seq<int>, times: seq<int>, now: int)
    requires KeyAgrees(queue, times, now)
    ensures KeyAgrees(queue + [now], times + [now], now)
  {
    forall cutoff | cutoff >= now - WINDOW
      ensures SameSince(queue + [now], times + [now], cutoff)
    {
      assert SameSince(queue, times, cutoff);
      SinceOfPush(queue, now, cutoff);
      SinceOfPush(times, now, cutoff);
    }
  }

  /** A queue that is not live may be forgotten. */
  lemma AgreesEvicted(queue: seq<int>, times: seq<int>, now: int)
    requires KeyAgrees(queue, times, now) && !Live(queue, now - WINDOW)
    ensures KeyAgrees([], times, now)
  {
    var none: seq<int> := [];
    forall cutoff | cutoff >= now - WINDOW
      ensures SameSince(none, times, cutoff)
    {
      assert SameSince(queue, times, cutoff);
      SinceOfEarlier(queue, cutoff);
    }
  }

  lemma TimesOfPush(log: seq<Attempt>, request: Attempt, key: Key)
    ensures TimesOf(log + [request], key) ==
              if request.key == key then TimesOf(log, key) + [request.time] else TimesOf(log, key)
  {
    assert (log + [request])[..|log|] == log;
  }

  lemma OwnQueueAgrees(queue: seq<int>, times: seq<int>, now: int, later: int)
    requires KeyAgrees(queue, times, now) && now <= later
    ensures KeyAgrees(Pruned(queue, later - WINDOW), times, later)
    ensures KeyAgrees(Pruned(queue, later - WINDOW) + [later], times + [later], later)
  {
    AgreesLater(queue, times, now, later);
    AgreesPruned(queue, times, later);
    AgreesPushed(Pruned(queue, later - WINDOW), times, later);
  }

  lemma AgreesAfterEviction(queues: Queues, times: seq<int>, now: int, key: Key)
    requires KeyAgrees(QueueOf(queues, key), times, now)
    ensures KeyAgrees(QueueOf(Evicted(queues, now - WINDOW), key), times, now)
  {
    if !Live(QueueOf(queues, key), now - WINDOW) {
      AgreesEvicted(QueueOf(queues, key), times, now);
    }
  }

  lemma SameQueue(queue: seq<int>, times: seq<int>, now: int, later: int)
    requires KeyAgrees(queue, times, now) && now <= later
    ensures Pruned(queue, later - WINDOW) == Since(times, later - WINDOW)
  {
    AgreesLater(queue, times, now, later);
    AgreesPruned(queue, times, later);
  }

  /** A rejected request prunes its own queue. */
  lemma AgreeAfterRejection(queues: Queues, log: seq<Attempt>, request: Attempt, queue: seq<int>, now: int)
    requires Agree(queues, log, now) && now <= request.time
    requires KeyAgrees(queue, TimesOf(log, request.key), request.time)
    ensures Agree(queues[request.key := queue], log, request.time)
  {
    var after := queues[request.key := queue];
    forall key
      ensures AgreeOn(after, log, key, request.time)
    {
      if key != request.key {
        assert AgreeOn(queues, log, key, now);
        AgreesLater(QueueOf(queues, key), TimesOf(log, key), now, request.time);
      }
    }
  }

  /** An accepted one also appends to it, and may forget other queues. */
  lemma AgreeAfterAcceptance(queues: Queues, log: seq<Attempt>, request: Attempt, queue: seq<int>, now: int)
    requires Agree(queues, log, now) && now <= request.time
    requires KeyAgrees(queue, TimesOf(log, request.key) + [request.time], request.time)
    ensures Agree(Evicted(queues[request.key := queue], request.time - WINDOW), log + [request], request.time)
  {
    var after := queues[request.key := queue];
    var log' := log + [request];
    var left := Evicted(after, request.time - WINDOW);
    forall key
      ensures AgreeOn(left, log', key, request.time)
    {
      TimesOfPush(log, request, key);
      if key != request.key {
        assert AgreeOn(queues, log, key, now);
        AgreesLater(QueueOf(queues, key), TimesOf(log, key), now, request.time);
      }
      AgreesAfterEviction(after, TimesOf(log', key), request.time, key);
    }
  }

  lemma FrontIsRecent(queues: Queues, log: seq<Attempt>, request: Attempt, now: int)
    requires AgreeOn(queues, log, request.key, now) && now <= request.time
    ensures Front(queues, request) == Recent(log, request)
  {
    SameQueue(QueueOf(queues, request.key), TimesOf(log, request.key), now, request.time);
  }

  lemma FrontAgrees(queues: Queues, log: seq<Attempt>, request: Attempt, now: int)
    requires AgreeOn(queues, log, request.key, now) && now <= request.time
    ensures KeyAgrees(Front(queues, request), TimesOf(log, request.key), request.time)
    ensures KeyAgrees(Front(queues, request) + [request.time], TimesOf(log, request.key) + [request.time], request.time)
  {
    OwnQueueAgrees(QueueOf(queues, request.key), TimesOf(log, request.key), now, request.time);
  }

  /** One request: the same decision, and agreement afterwards. */
  lemma CheckRefinesLog(queues: Queues, log: seq<Attempt>, limit: nat, request: Attempt, now: int)
    requires Agree(queues, log, now) && now <= request.time
    ensures Check(queues, limit, request).1 == CheckLog(log, limit, request).1
    ensures Agree(Check(queues, limit, request).0, CheckLog(log, limit, request).0, request.time)
  {
    assert AgreeOn(queues, log, request.key, now);
    FrontIsRecent(queues, log, request, now);
    FrontAgrees(queues, log, request, now);
    if |Front(queues, request)| < limit {
      AgreeAfterAcceptance(queues, log, request, Front(queues, request) + [request.time], now);
    } else {
      AgreeAfterRejection(queues, log, request, Front(queues, request), now);
    }
  }

  // ---- whole histories ----

  predicate Monotone(requests: seq<Attempt>, now: int) {
    requests == [] || (now <= requests[0].time && Monotone(requests[1..], requests[0].time))
  }

  function Decisions(queues: Queues, limit: nat, requests: seq<Attempt>): seq<bool>
    decreases |requests|
  {
    if requests == [] then []
    else
      var (after, accepted) := Check(queues, limit, requests[0]);
      [accepted] + Decisions(after, limit, requests[1..])
  }

  function LogDecisions(log: seq<Attempt>, limit: nat, requests: seq<Attempt>): seq<bool>
    decreases |requests|
  {
    if requests == [] then []
    else
      var (after, accepted) := CheckLog(log, limit, requests[0]);
      [accepted] + LogDecisions(after, limit, requests[1..])
  }

  function LogAfter(log: seq<Attempt>, limit: nat, requests: seq<Attempt>): seq<Attempt>
    decreases |requests|
  {
    if requests == [] then log else LogAfter(CheckLog(log, limit, requests[0]).0, limit, requests[1..])
  }

  lemma {:induction false} DecisionsAgree(queues: Queues, log: seq<Attempt>, limit: nat, requests: seq<Attempt>, now: int)
    requires Agree(queues, log, now) && Monotone(requests, now)
    ensures Decisions(queues, limit, requests) == LogDecisions(log, limit, requests)
    decreases |requests|
  {
    if requests != [] {
      CheckRefinesLog(queues, log, limit, requests[0], now);
      DecisionsAgree(Check(queues, limit, requests[0]).0, CheckLog(log, limit, requests[0]).0, limit,
                     requests[1..], requests[0].time);
    }
  }

  /** The limiter decides every history of requests exactly as the full log does: neither
      pruning a queue nor evicting one ever changes a decision. */
  lemma LimiterRefinesLog(limit: nat, requests: seq<Attempt>, start: int)
    requires Monotone(requests, start)
    ensures Decisions(map[], limit, requests) == LogDecisions([], limit, requests)
  {
    DecisionsAgree(map[], [], limit, requests, start);
  }

  /** The accepted times of a window that opens just after `from`. */
  function InWindow(times: seq<int>, from: int): seq<int> {
    if times == [] then []
    else
      var last := times[|times| - 1];
      InWindow(times[..|times| - 1], from) + (if from < last <= from + WINDOW then [last] else [])
  }

  ghost predicate NeverExceeds(log: seq<Attempt>, limit: nat, now: int) {
    forall key :: Bounded(TimesOf(log, key), now) && forall from :: |InWindow(TimesOf(log, key), from)| <= limit
  }

  lemma {:induction false} WindowOfPast(times: seq<int>, from: int, now: int)
    requires Bounded(times, now) && now <= from + WINDOW
    ensures InWindow(times, from) == Since(times, from)
    decreases |times|
  {
    if times != [] {
      WindowOfPast(times[..|times| - 1], from, now);
    }
  }

  lemma {:induction false} SinceShrinks(times: seq<int>, cutoff: int, later: int)
    requires cutoff <= later
    ensures |Since(times, later)| <= |Since(times, cutoff)|
    decreases |times|
  {
    if times != [] {
      SinceShrinks(times[..|times| - 1], cutoff, later);
    }
  }

  lemma WindowOfPush(times: seq<int>, time: int, from: int, limit: nat)
    requires Bounded(times, time) && |Since(times, time - WINDOW)| < limit
    requires |InWindow(times, from)| <= limit
    ensures |InWindow(times + [time], from)| <= limit
  {
    assert (times + [time])[..|times + [time]| - 1] == times;
    if from < time <= from + WINDOW {
      WindowOfPast(times, from, time);
      SinceShrinks(times, time - WINDOW, from);
    }
  }

  lemma CheckKeepsLimit(log: seq<Attempt>, limit: nat, request: Attempt, now: int)
    requires NeverExceeds(log, limit, now) && now <= request.time
    ensures NeverExceeds(CheckLog(log, limit, request).0, limit, request.time)
  {
    var (log', accepted) := CheckLog(log, limit, request);
    forall key
      ensures Bounded(TimesOf(log', key), request.time)
      ensures forall from :: |InWindow(TimesOf(log', key), from)| <= limit
    {
      var times := TimesOf(log, key);
      TimesOfPush(log, request, key);
      assert Bounded(times, now);
      if accepted && key == request.key {
        forall from
          ensures |InWindow(times + [request.time], from)| <= limit
        {
          WindowOfPush(times, request.time, from, limit);
        }
      }
    }
  }

  /** At most `limit` attempts of a key are accepted in any sixty seconds of any history. */
  lemma {:induction false} AtMostLimitPerWindow(log: seq<Attempt>, limit: nat, requests: seq<Attempt>, now: int, key: Key, from: int)
    requires NeverExceeds(log, limit, now) && Monotone(requests, now)
    ensures |InWindow(TimesOf(LogAfter(log, limit, requests), key), from)| <= limit
    decreases |requests|
  {
    if requests != [] {
      CheckKeepsLimit(log, limit, requests[0], now);
      AtMostLimitPerWindow(CheckLog(log, limit, requests[0]).0, limit, requests[1..], requests[0].time, key, from);
    }
  }

  /** A rejection means that the sixty seconds up to the request hold exactly `limit` attempts. */
  lemma RejectionMeansFull(log: seq<Attempt>, limit: nat, request: Attempt, now: int)
    requires NeverExceeds(log, limit, now) && now <= request.time
    ensures !CheckLog(log, limit, request).1 <==>
              |InWindow(TimesOf(log, request.key), request.time - WINDOW)| == limit
  {
    WindowOfPast(TimesOf(log, request.key), request.time - WINDOW, request.time);
  }

  // ---- the limiter itself ----

  /** The requests that were accepted, in order. */
  function Accepted(requests: seq<Attempt>, decisions: seq<bool>): seq<Attempt>
    requires |decisions| == |requests|
    decreases |requests|
  {
    if requests == [] then []
    else (if decisions[0] then [requests[0]] else []) + Accepted(requests[1..], decisions[1..])
  }

  lemma {:induction false} OneDecisionEach(queues: Queues, limit: nat, requests: seq<Attempt>)
    ensures |Decisions(queues, limit, requests)| == |requests|
    decreases |requests|
  {
    if requests != [] {
      OneDecisionEach(Check(queues, limit, requests[0]).0, limit, requests[1..]);
    }
  }

  /** The requests that the limiter accepts, from its start. */
  function AcceptedBy(limit: nat, requests: seq<Attempt>): seq<Attempt> {
    OneDecisionEach(map[], limit, requests);
    Accepted(requests, Decisions(map[], limit, requests))
  }

  lemma {:induction false} LogIsAccepted(log: seq<Attempt>, limit: nat, requests: seq<Attempt>)
    ensures |LogDecisions(log, limit, requests)| == |requests|
    ensures LogAfter(log, limit, requests) == log + Accepted(requests, LogDecisions(log, limit, requests))
    decreases |requests|
  {
    if requests != [] {
      LogIsAccepted(CheckLog(log, limit, requests[0]).0, limit, requests[1..]);
      var rest := LogDecisions(CheckLog(log, limit, requests[0]).0, limit, requests[1..]);
      assert LogDecisions(log, limit, requests)[1..] == rest;
    }
  }

  lemma AcceptedIsLog(limit: nat, requests: seq<Attempt>, start: int)
    requires Monotone(requests, start)
    ensures AcceptedBy(limit, requests) == LogAfter([], limit, requests)
  {
    LimiterRefinesLog(limit, requests, start);
    LogIsAccepted([], limit, requests);
  }

  lemma EmptyNeverExceeds(limit: nat, now: int)
    ensures NeverExceeds([], limit, now)
  {
  }

  /** Whatever the history, the limiter accepts at most `limit` attempts of a key in any sixty
      seconds. */
  lemma LimiterNeverExceeds(limit: nat, requests: seq<Attempt>, start: int, key: Key, from: int)
    requires Monotone(requests, start)
    ensures |InWindow(TimesOf(AcceptedBy(limit, requests), key), from)| <= limit
  {
    AcceptedIsLog(limit, requests, start);
    EmptyNeverExceeds(limit, start);
    AtMostLimitPerWindow([], limit, requests, start, key, from);
  }

  // ---- one decision of a history ----

  function LastTime(requests: seq<Attempt>, start: int): int {
    if requests == [] then start else requests[|requests| - 1].time
  }

  lemma {:induction false} NeverExceedsAfter(log: seq<Attempt>, limit: nat, requests: seq<Attempt>, now: int)
    requires NeverExceeds(log, limit, now) && Monotone(requests, now)
    ensures NeverExceeds(LogAfter(log, limit, requests), limit, LastTime(requests, now))
    decreases |requests|
  {
    if requests != [] {
      CheckKeepsLimit(log, limit, requests[0], now);
      NeverExceedsAfter(CheckLog(log, limit, requests[0]).0, limit, requests[1..], requests[0].time);
    }
  }

  lemma {:induction false} MonotonePrefix(requests: seq<Attempt>, start: int, i: nat)
    requires Monotone(requests, start) && i < |requests|
    ensures Monotone(requests[..i], start) && LastTime(requests[..i], start) <= requests[i].time
    decreases i
  {
    if i > 0 {
      assert requests[..i][1..] == requests[1..][..i - 1];
      MonotonePrefix(requests[1..], requests[0].time, i - 1);
    }
  }

  lemma {:induction false} DecisionAt(log: seq<Attempt>, limit: nat, requests: seq<Attempt>, i: nat)
    requires i < |requests|
    ensures |LogDecisions(log, limit, requests)| == |requests|
    ensures LogDecisions(log, limit, requests)[i] == CheckLog(LogAfter(log, limit, requests[..i]), limit, requests[i]).1
    decreases i
  {
    LogIsAccepted(log, limit, requests);
    if i > 0 {
      assert requests[..i][1..] == requests[1..][..i - 1];
      DecisionAt(CheckLog(log, limit, requests[0]).0, limit, requests[1..], i - 1);
    }
  }

  /** The limiter rejects a request exactly when the sixty seconds up to it already hold `limit`
      attempts that it accepted. */
  lemma LimiterRejectsExactlyWhenFull(limit: nat, requests: seq<Attempt>, start: int, i: nat)
    requires Monotone(requests, start) && i < |requests|
    ensures |Decisions(map[], limit, requests)| == |requests|
    ensures !Decisions(map[], limit, requests)[i] <==>
              |InWindow(TimesOf(AcceptedBy(limit, requests[..i]), requests[i].key), requests[i].time - WINDOW)| == limit
  {
    OneDecisionEach(map[], limit, requests);
    LimiterRefinesLog(limit, requests, start);
    DecisionAt([], limit, requests, i);
    MonotonePrefix(requests, start, i);
    AcceptedIsLog(limit, requests[..i], start);
    EmptyNeverExceeds(limit, start);
    NeverExceedsAfter([], limit, requests[..i], start);
    RejectionMeansFull(LogAfter([], limit, requests[..i]), limit, requests[i], LastTime(requests[..i], start));
  }
}
