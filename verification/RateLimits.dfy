/** The two rate limiters, over timed runs: a fixed window that lets almost twice the limit
    through across a boundary, and a shared counter whose expiry every hit renews. */
module RateLimits {
  import opened Prelude

  const WINDOW: real := 60.0

  /** One caller's counter, and when it is forgotten. */
  datatype Counter = Counter(count: nat, expires: real)

  datatype Decision = Decision(allowed: bool, limit: nat, remaining: nat, retryAfter: nat)

  const UNSEEN := Counter(0, 0.0)

  // ------------------------------------------------------------ process-local counters

  /** A fixed window: the expiry is set by the first hit and kept. */
  function Hit(c: Counter, now: real, limit: nat): (Counter, Decision) {
    var open := if now >= c.expires then Counter(0, now + WINDOW) else c;
    var used := open.count + 1;
    (Counter(used, open.expires),
     Decision(used <= limit, limit, Max(0, limit - used), if used > limit then Seconds(open.expires - now) + 1 else 0))
  }

  /** `int()` of a waiting time that is never negative. */
  function Seconds(wait: real): nat {
    if wait < 0.0 then 0 else wait.Floor
  }

  class InMemoryRateLimiter {
    var counts: map<string, Counter>

    function CounterOf(key: string): Counter
      reads this
    {
      if key in counts then counts[key] else UNSEEN
    }

    constructor ()
      ensures counts == map[]
    {
      counts := map[];
    }

    method Record(key: string, now: real, limit: nat) returns (d: Decision)
      modifies this
      ensures (CounterOf(key), d) == Hit(old(CounterOf(key)), now, limit)
      ensures forall other :: other != key ==> CounterOf(other) == old(CounterOf(other))
    {
      var count, expires := 0, 0.0;
      if key in counts {
        count, expires := counts[key].count, counts[key].expires;
      }
      if now >= expires {
        count, expires := 0, now + WINDOW;
      }
      count := count + 1;
      counts := counts[key := Counter(count, expires)];
      d := Decision(count <= limit, limit, Max(0, limit - count),
                    if count > limit then Seconds(expires - now) + 1 else 0);
    }
  }

  // ------------------------------------------------------------ shared counters

  /** The counter as the store keeps it: gone at its expiry, which every hit renews. */
  function SharedHit(c: Counter, now: real, limit: nat): (Counter, Decision) {
    var used := if now >= c.expires then 1 else c.count + 1;
    (Counter(used, now + WINDOW), Decision(used <= limit, limit, Max(0, limit - used), if used > limit then 60 else 0))
  }

  const THRESHOLD := 3
  const COOLDOWN: real := 10.0

  /** The breaker in front of the store. */
  datatype Breaker = Breaker(failures: nat, skipUntil: real)

  function Pass(limit: nat): Decision {
    Decision(true, limit, limit, 0)
  }

  /** A call that began at `begun` has failed: the pause counts from its beginning. */
  function Failed(b: Breaker, begun: real): Breaker {
    var failures := b.failures + 1;
    Breaker(failures, if failures >= THRESHOLD then begun + COOLDOWN else b.skipUntil)
  }

  /** One request that no other overlaps: what the counter and the breaker become, whether the
      store was called, and the answer. */
  function Guarded(c: Counter, b: Breaker, now: real, limit: nat, reachable: bool): (Counter, Breaker, bool, Decision) {
    if now < b.skipUntil then (c, b, false, Pass(limit))
    else if !reachable then (c, Failed(b, now), true, Pass(limit))
    else
      var (next, d) := SharedHit(c, now, limit);
      (next, Breaker(0, b.skipUntil), true, d)
  }

  class RedisRateLimiter {
    /** The store, as far as this limiter's keys go. */
    var counts: map<string, Counter>
    var consecutiveFailures: nat
    var skipUntil: real

    function CounterOf(key: string): Counter
      reads this
    {
      if key in counts then counts[key] else UNSEEN
    }

    function Guard(): Breaker
      reads this
    {
      Breaker(consecutiveFailures, skipUntil)
    }

    constructor ()
      ensures counts == map[] && Guard() == Breaker(0, 0.0)
    {
      counts, consecutiveFailures, skipUntil := map[], 0, 0.0;
    }

    /** Before the store is awaited: whether it is called at all. */
    method Begins(now: real) returns (calls: bool)
      ensures calls <==> now >= skipUntil
    {
      calls := now >= skipUntil;
    }

    /** After a call that began at `begun` was awaited in vain. */
    method NoteFailure(begun: real)
      modifies this`consecutiveFailures, this`skipUntil
      ensures Guard() == Failed(old(Guard()), begun)
    {
      consecutiveFailures := consecutiveFailures + 1;
      if consecutiveFailures >= THRESHOLD {
        skipUntil := begun + COOLDOWN;
      }
    }

    method Record(key: string, now: real, limit: nat, reachable: bool) returns (called: bool, d: Decision)
      modifies this
      ensures (CounterOf(key), Guard(), called, d) == Guarded(old(CounterOf(key)), old(Guard()), now, limit, reachable)
      ensures forall other :: other != key ==> CounterOf(other) == old(CounterOf(other))
    {
      called := Begins(now);
      if !called {
        return false, Pass(limit);
      }
      if !reachable {
        NoteFailure(now);
        return true, Pass(limit);
      }
      // INCR and EXPIRE in one pipeline; a key past its expiry is not there any more.
      var c := CounterOf(key);
      var used := if now >= c.expires then 1 else c.count + 1;
      counts := counts[key := Counter(used, now + WINDOW)];
      consecutiveFailures := 0;
      d := Decision(used <= limit, limit, Max(0, limit - used), if used > limit then 60 else 0);
    }
  }

  // ------------------------------------------------------------ timed runs

  /** Hits of one caller, in order; the clock starts at or after zero. */
  predicate Timed(times: seq<real>) {
    && (forall i :: 0 <= i < |times| ==> times[i] >= 0.0)
    && (forall i, j :: 0 <= i < j < |times| ==> times[i] <= times[j])
  }

  /** The counter after a run, and how many hits in [from, from + 60) were allowed. */
  function Tally(times: seq<real>, limit: nat, from: real): (Counter, nat) {
    if times == [] then (UNSEEN, 0)
    else
      var (c, n) := Tally(times[..|times| - 1], limit, from);
      var now := times[|times| - 1];
      var (next, d) := Hit(c, now, limit);
      (next, if d.allowed && from <= now < from + WINDOW then n + 1 else n)
  }

  function SharedTally(times: seq<real>, limit: nat, from: real): (Counter, nat) {
    if times == [] then (UNSEEN, 0)
    else
      var (c, n) := SharedTally(times[..|times| - 1], limit, from);
      var now := times[|times| - 1];
      var (next, d) := SharedHit(c, now, limit);
      (next, if d.allowed && from <= now < from + WINDOW then n + 1 else n)
  }

  function Ceiling(limit: nat): nat {
    if limit == 0 then 0 else 2 * limit - 1
  }

  /** Where the current window started decides how much of the interval it can still fill. */
  ghost predicate WithinWindow(c: Counter, n: nat, limit: nat, from: real, last: real) {
    var start := c.expires - WINDOW;
    && c.count >= 1 && start <= last < c.expires
    && (limit == 0 ==> n == 0)
    && (last < from ==> n == 0)
    && (limit > 0 && start < from ==> n <= Min(c.count, limit) - 1)
    && (limit > 0 && from <= start < from + WINDOW ==> n <= limit - 1 + Min(c.count, limit))
    && n <= Ceiling(limit)
  }

  lemma {:induction false} WindowsOverlapTwice(times: seq<real>, limit: nat, from: real)
    requires Timed(times) && times != []
    ensures var (c, n) := Tally(times, limit, from);
            WithinWindow(c, n, limit, from, times[|times| - 1])
  {
    var front := times[..|times| - 1];
    if front != [] {
      WindowsOverlapTwice(front, limit, from);
      assert front[|front| - 1] <= times[|times| - 1];
    }
  }

  /** Any minute sees at most one hit less than twice the limit: two windows reach into it,
      and the first hit of the earlier one lies before it. */
  lemma AnyMinuteIsBounded(times: seq<real>, limit: nat, from: real)
    requires Timed(times)
    ensures Tally(times, limit, from).1 <= Ceiling(limit) <= 2 * limit
  {
    if times != [] {
      WindowsOverlapTwice(times, limit, from);
    }
  }

  function Repeat(t: real, n: nat): seq<real> {
    seq(n, _ => t)
  }

  /** Hits at one moment use up what is left of the window. */
  lemma {:induction false} Burst(times: seq<real>, t: real, n: nat, limit: nat, from: real)
    requires from <= t < from + WINDOW && t < Tally(times, limit, from).0.expires
    requires Tally(times, limit, from).0.count + n <= limit
    ensures var (c, allowed) := Tally(times, limit, from);
            Tally(times + Repeat(t, n), limit, from) == (Counter(c.count + n, c.expires), allowed + n)
    decreases n
  {
    if n == 0 {
      assert times + Repeat(t, 0) == times;
    } else {
      Burst(times, t, n - 1, limit, from);
      var all := times + Repeat(t, n);
      assert all[..|all| - 1] == times + Repeat(t, n - 1);
      assert all[|all| - 1] == t;
    }
  }

  /** The bound is met for every limit: one hit, a burst at the end of its window, and a burst
      at the start of the next. */
  lemma BoundIsMet(limit: nat)
    requires limit > 0
    ensures var times := [0.0] + Repeat(59.0, limit - 1) + [60.0] + Repeat(60.0, limit - 1);
            Timed(times) && Tally(times, limit, 1.0).1 == Ceiling(limit)
  {
    assert [0.0][..0] == [];
    assert Tally([0.0], limit, 1.0) == (Counter(1, 60.0), 0);
    var first := [0.0] + Repeat(59.0, limit - 1);
    Burst([0.0], 59.0, limit - 1, limit, 1.0);
    var second := first + [60.0];
    assert second[..|second| - 1] == first;
    assert Tally(second, limit, 1.0) == (Counter(1, 120.0), limit);
    Burst(second, 60.0, limit - 1, limit, 1.0);
  }

  /** Waiting as long as a refusal says is enough, and never a second too long. */
  lemma WaitingIsEnough(c: Counter, now: real, limit: nat, later: real)
    requires limit > 0
    ensures var (next, d) := Hit(c, now, limit);
            !d.allowed ==>
              && (later >= now + d.retryAfter as real ==> Hit(next, later, limit).1.allowed)
              && next.expires < now + d.retryAfter as real <= next.expires + 1.0
              && (now <= later < next.expires ==> !Hit(next, later, limit).1.allowed)
  {
  }

  /** More hits at the same moment. */
  function Again(c: Counter, now: real, limit: nat, more: nat): Counter {
    if more == 0 then c else Hit(Again(c, now, limit, more - 1), now, limit).0
  }

  function SharedAgain(c: Counter, now: real, limit: nat, more: nat): Counter {
    if more == 0 then c else SharedHit(SharedAgain(c, now, limit, more - 1), now, limit).0
  }

  /** An answer announces exactly how many more hits pass at that moment, and a wait when it
      refuses. */
  lemma {:induction false} RemainingIsExact(c: Counter, now: real, limit: nat, more: nat)
    ensures var (next, d) := Hit(c, now, limit);
            && d.limit == limit && (d.retryAfter == 0 <==> d.allowed)
            && (Hit(Again(next, now, limit, more), now, limit).1.allowed <==> more < d.remaining)
  {
    HitsAtOnce(Hit(c, now, limit).0, now, limit, more);
  }

  lemma {:induction false} HitsAtOnce(c: Counter, now: real, limit: nat, more: nat)
    requires now < c.expires
    ensures Again(c, now, limit, more) == Counter(c.count + more, c.expires)
  {
    if more > 0 {
      HitsAtOnce(c, now, limit, more - 1);
    }
  }

  lemma {:induction false} SharedRemainingIsExact(c: Counter, now: real, limit: nat, more: nat)
    ensures var (next, d) := SharedHit(c, now, limit);
            && d.limit == limit && d.retryAfter == (if d.allowed then 0 else 60)
            && (SharedHit(SharedAgain(next, now, limit, more), now, limit).1.allowed <==> more < d.remaining)
  {
    SharedHitsAtOnce(SharedHit(c, now, limit).0, now, limit, more);
  }

  lemma {:induction false} SharedHitsAtOnce(c: Counter, now: real, limit: nat, more: nat)
    requires c.expires == now + WINDOW
    ensures SharedAgain(c, now, limit, more) == Counter(c.count + more, c.expires)
  {
    if more > 0 {
      SharedHitsAtOnce(c, now, limit, more - 1);
    }
  }

  /** A caller that the shared counter refused passes again exactly after a minute of silence. */
  lemma SilenceIsNeeded(c: Counter, now: real, limit: nat, later: real)
    requires limit > 0 && later >= now
    ensures var (next, d) := SharedHit(c, now, limit);
            !d.allowed ==> (SharedHit(next, later, limit).1.allowed <==> later >= now + 60.0)
  {
  }

  /** While the store answers, hits less than a minute apart share one counter. */
  ghost predicate WithinShared(c: Counter, n: nat, limit: nat, from: real, last: real) {
    && c.expires == last + WINDOW
    && (last < from ==> n == 0)
    && (from <= last < from + WINDOW ==> n <= c.count)
    && n <= limit
  }

  lemma {:induction false} SharedNeverOverlaps(times: seq<real>, limit: nat, from: real)
    requires Timed(times) && times != []
    ensures var (c, n) := SharedTally(times, limit, from);
            WithinShared(c, n, limit, from, times[|times| - 1])
  {
    var front := times[..|times| - 1];
    if front != [] {
      SharedNeverOverlaps(front, limit, from);
      assert front[|front| - 1] <= times[|times| - 1];
    }
  }

  /** While the store answers, no minute sees more than the limit. */
  lemma SharedMinuteIsBounded(times: seq<real>, limit: nat, from: real)
    requires Timed(times)
    ensures SharedTally(times, limit, from).1 <= limit
  {
    if times != [] {
      SharedNeverOverlaps(times, limit, from);
    }
  }

  /** And that many pass, for every limit. */
  lemma {:induction false} SharedBoundIsMet(limit: nat, n: nat)
    requires n <= limit
    ensures Timed(Repeat(0.0, n)) && SharedTally(Repeat(0.0, n), limit, 0.0).1 == n
    ensures n > 0 ==> SharedTally(Repeat(0.0, n), limit, 0.0).0 == Counter(n, WINDOW)
  {
    if n > 0 {
      SharedBoundIsMet(limit, n - 1);
      assert Repeat(0.0, n)[..n - 1] == Repeat(0.0, n - 1);
    }
  }

  /** The price: a caller that never pauses for a minute gets the limit once and then nothing,
      however long it goes on. */
  lemma {:induction false} NoPauseNoMore(times: seq<real>, limit: nat, from: real)
    requires Timed(times) && times != []
    requires forall i :: 0 <= i < |times| - 1 ==> times[i + 1] < times[i] + WINDOW
    ensures SharedTally(times, limit, from).0 == Counter(|times|, times[|times| - 1] + WINDOW)
    ensures forall later :: times[|times| - 1] <= later < times[|times| - 1] + WINDOW ==>
              (SharedHit(SharedTally(times, limit, from).0, later, limit).1.allowed <==> |times| < limit)
  {
    var front := times[..|times| - 1];
    if front != [] {
      forall i | 0 <= i < |front| - 1 ensures front[i + 1] < front[i] + WINDOW {
        assert times[i + 1] < times[i] + WINDOW;
      }
      NoPauseNoMore(front, limit, from);
      assert times[|times| - 2 + 1] < times[|times| - 2] + WINDOW;
    }
  }

  /** So the two are not the same limiter: a hit every half minute is refused for good by one
      and allowed in every window by the other. */
  lemma NotEquivalent()
    ensures var times := [0.0, 30.0, 60.0];
            && Timed(times)
            && Tally(times, 1, 60.0).1 == 1 && SharedTally(times, 1, 60.0).1 == 0
  {
    var times := [0.0, 30.0, 60.0];
    assert times[..2] == [0.0, 30.0] && times[..2][..1] == [0.0] && [0.0][..0] == [];
    assert Tally([0.0], 1, 60.0).0 == Counter(1, 60.0);
    assert Tally([0.0, 30.0], 1, 60.0) == (Counter(2, 60.0), 0);
    assert SharedTally([0.0], 1, 60.0).0 == Counter(1, 60.0);
    assert SharedTally([0.0, 30.0], 1, 60.0) == (Counter(2, 90.0), 0);
  }

  // ------------------------------------------------------------ an outage

  /** One request of an outage: when, and whether the store could be reached. */
  datatype Request = Request(now: real, reachable: bool)

  /** How many of these requests called the store. */
  function Calls(c: Counter, b: Breaker, requests: seq<Request>, limit: nat): nat
    decreases |requests|
  {
    if requests == [] then 0
    else
      var (next, guard, called, _) := Guarded(c, b, requests[0].now, limit, requests[0].reachable);
      (if called then 1 else 0) + Calls(next, guard, requests[1..], limit)
  }

  /** During an outage at most three of the requests of any ten seconds wait for the store if
      none begins before the one before it has failed; the others pass without calling it. */
  lemma {:induction false} OutageStaysFast(c: Counter, b: Breaker, requests: seq<Request>, limit: nat, until: real)
    requires forall i :: 0 <= i < |requests| ==> !requests[i].reachable && requests[i].now < until
    requires forall i, j :: 0 <= i < j < |requests| ==> requests[i].now <= requests[j].now
    requires requests != [] ==> until <= requests[0].now + COOLDOWN
    ensures Calls(c, b, requests, limit) <= Max(THRESHOLD - b.failures, 1)
    ensures requests != [] && requests[0].now >= b.skipUntil ==>
              Calls(c, b, requests, limit) == Min(|requests|, Max(THRESHOLD - b.failures, 1))
    decreases |requests|
  {
    if requests != [] {
      var (next, guard, called, d) := Guarded(c, b, requests[0].now, limit, false);
      var rest := requests[1..];
      assert rest != [] ==> rest[0] == requests[1] && requests[0].now <= requests[1].now;
      if called && guard.failures >= THRESHOLD {
        AllSkipped(next, guard, rest, limit);
      } else {
        OutageStaysFast(next, guard, rest, limit, until);
      }
    }
  }

  lemma {:induction false} AllSkipped(c: Counter, b: Breaker, requests: seq<Request>, limit: nat)
    requires forall i :: 0 <= i < |requests| ==> requests[i].now < b.skipUntil
    ensures Calls(c, b, requests, limit) == 0
    decreases |requests|
  {
    if requests != [] {
      AllSkipped(c, b, requests[1..], limit);
    }
  }

  /** A serial run of one caller: its counter, the breaker, and the requests that called the
      store. */
  function Serve(requests: seq<Request>, limit: nat): (Counter, Breaker, seq<Request>) {
    if requests == [] then (UNSEEN, Breaker(0, 0.0), [])
    else
      var (c, b, calls) := Serve(requests[..|requests| - 1], limit);
      var r := requests[|requests| - 1];
      var (next, guard, called, _) := Guarded(c, b, r.now, limit, r.reachable);
      (next, guard, if called then calls + [r] else calls)
  }

  predicate Clocked(requests: seq<Request>) {
    && (forall i :: 0 <= i < |requests| ==> requests[i].now >= 0.0)
    && (forall i, j :: 0 <= i < j < |requests| ==> requests[i].now <= requests[j].now)
  }

  predicate LastFailed(calls: seq<Request>, n: nat) {
    n <= |calls| && forall i :: |calls| - n <= i < |calls| ==> !calls[i].reachable
  }

  function Reached(calls: seq<Request>): seq<real> {
    if calls == [] then []
    else
      var last := calls[|calls| - 1];
      Reached(calls[..|calls| - 1]) + (if last.reachable then [last.now] else [])
  }

  /** The breaker counts the failures since the last success, and pauses ten seconds from the
      last of three. */
  ghost predicate Follows(b: Breaker, calls: seq<Request>) {
    && LastFailed(calls, b.failures) && !LastFailed(calls, b.failures + 1)
    && (calls == [] ==> b.skipUntil == 0.0)
    && (calls != [] ==>
          if b.failures >= 3 then b.skipUntil == calls[|calls| - 1].now + 10.0
          else b.skipUntil <= calls[|calls| - 1].now)
  }

  lemma {:induction false} BreakerFollows(requests: seq<Request>, limit: nat)
    requires Clocked(requests)
    ensures var (c, b, calls) := Serve(requests, limit);
            && Follows(b, calls)
            && c == SharedTally(Reached(calls), limit, 0.0).0
            && (calls != [] ==> requests != [] && 0.0 <= calls[|calls| - 1].now <= requests[|requests| - 1].now)
  {
    if requests == [] {
      assert LastFailed([], 0);
    } else {
      hide Follows, SharedHit;
      var front := requests[..|requests| - 1];
      BreakerFollows(front, limit);
      var (c, b, calls) := Serve(front, limit);
      var r := requests[|requests| - 1];
      assert front != [] ==> front[|front| - 1].now <= r.now;
      if r.now >= b.skipUntil {
        OneMoreCall(b, calls, r);
        var times := Reached(calls);
        assert (calls + [r])[..|calls|] == calls && (times + [r.now])[..|times|] == times;
        assert Reached(calls + [r]) == if r.reachable then times + [r.now] else times;
      }
    }
  }

  lemma FewerFailed(calls: seq<Request>, n: nat, m: nat)
    requires m <= n
    ensures LastFailed(calls, n) ==> LastFailed(calls, m)
  {
  }

  lemma FailuresFollow(b: Breaker, calls: seq<Request>, n: nat)
    requires Follows(b, calls)
    ensures LastFailed(calls, n) <==> n <= b.failures
  {
    if n <= b.failures {
      FewerFailed(calls, b.failures, n);
    } else {
      FewerFailed(calls, n, b.failures + 1);
    }
  }

  lemma OneMoreCall(b: Breaker, calls: seq<Request>, r: Request)
    requires Follows(b, calls) && b.skipUntil <= r.now && 0.0 <= r.now
    ensures Follows(if r.reachable then Breaker(0, b.skipUntil) else Failed(b, r.now), calls + [r])
  {
    var all := calls + [r];
    assert all[|calls|] == r;
    if r.reachable {
      assert LastFailed(all, 0) && !LastFailed(all, 1);
    } else {
      OneMoreFailed(calls, r, b.failures);
      OneMoreFailed(calls, r, b.failures + 1);
    }
  }

  lemma OneMoreFailed(calls: seq<Request>, r: Request, n: nat)
    requires !r.reachable
    ensures LastFailed(calls + [r], n + 1) <==> LastFailed(calls, n)
  {
    var all := calls + [r];
    assert forall i :: 0 <= i < |calls| ==> all[i] == calls[i];
  }

  /** The store is left alone exactly for ten seconds after three calls in a row have failed;
      a request that does not reach it passes and leaves its counter as it was, and one that
      does is counted with all that reached it before. */
  lemma StoreIsSkippedIff(requests: seq<Request>, r: Request, limit: nat)
    requires Clocked(requests + [r])
    ensures var (c, b, calls) := Serve(requests, limit);
            var (next, guard, called, d) := Guarded(c, b, r.now, limit, r.reachable);
            && (!called <==> LastFailed(calls, 3) && r.now < calls[|calls| - 1].now + 10.0)
            && (!called || !r.reachable ==> next == c && d == Decision(true, limit, limit, 0))
            && c == SharedTally(Reached(calls), limit, 0.0).0
            && (called && r.reachable ==> (next, d) == SharedHit(c, r.now, limit))
  {
    var all := requests + [r];
    assert forall i :: 0 <= i < |requests| ==> requests[i] == all[i];
    assert all[|requests|] == r;
    assert requests != [] ==> requests[|requests| - 1].now <= r.now;
    BreakerFollows(requests, limit);
    var (c, b, calls) := Serve(requests, limit);
    FailuresFollow(b, calls, 3);
  }

  // ------------------------------------------------------------ an outage, with requests that overlap

  /** The breaker, and when each request that is waiting for the store began. */
  datatype Line = Line(breaker: Breaker, waiting: seq<real>)

  /** A request begins, or the `i`-th of those waiting finds that the store is gone. */
  datatype Turn = Begins(now: real) | Fails(i: nat)

  /** What becomes of the line, and whether the store was called. */
  function Take(l: Line, turn: Turn): (Line, bool) {
    match turn
    case Begins(now) =>
      if now < l.breaker.skipUntil then (l, false) else (l.(waiting := l.waiting + [now]), true)
    case Fails(i) =>
      if i >= |l.waiting| then (l, false)
      else (Line(Failed(l.breaker, l.waiting[i]), l.waiting[..i] + l.waiting[i + 1..]), false)
  }

  function After(l: Line, turns: seq<Turn>): Line
    decreases |turns|
  {
    if turns == [] then l else After(Take(l, turns[0]).0, turns[1..])
  }

  /** How many of the requests that begin in these turns wait for the store. */
  function Waits(l: Line, turns: seq<Turn>): nat
    decreases |turns|
  {
    if turns == [] then 0
    else
      var (next, called) := Take(l, turns[0]);
      (if called then 1 else 0) + Waits(next, turns[1..])
  }

  /** Ten seconds of an outage from `from` on, with at most `atOnce` requests waiting. */
  predicate TenSeconds(l: Line, turns: seq<Turn>, atOnce: nat, from: real)
    decreases |turns|
  {
    && |l.waiting| <= atOnce
    && (turns != [] ==>
          && (turns[0].Begins? ==> from <= turns[0].now < from + COOLDOWN)
          && TenSeconds(Take(l, turns[0]).0, turns[1..], atOnce, from))
  }

  /** Of those waiting, how many began before. */
  function Older(waiting: seq<real>, from: real): (n: nat)
    ensures n <= |waiting|
  {
    if waiting == [] then 0 else (if waiting[0] < from then 1 else 0) + Older(waiting[1..], from)
  }

  lemma {:induction false} OlderAppend(a: seq<real>, b: seq<real>, from: real)
    ensures Older(a + b, from) == Older(a, from) + Older(b, from)
  {
    if a == [] {
      assert a + b == b;
    } else {
      assert (a + b)[1..] == a[1..] + b;
      OlderAppend(a[1..], b, from);
    }
  }

  lemma OlderWithout(waiting: seq<real>, i: nat, from: real)
    requires i < |waiting|
    ensures Older(waiting[..i] + waiting[i + 1..], from)
            == Older(waiting, from) - (if waiting[i] < from then 1 else 0)
  {
    var one := [waiting[i]];
    assert one[1..] == [];
    assert waiting == waiting[..i] + (one + waiting[i + 1..]);
    OlderAppend(waiting[..i], one + waiting[i + 1..], from);
    OlderAppend(one, waiting[i + 1..], from);
    OlderAppend(waiting[..i], waiting[i + 1..], from);
  }

  /** Each call that began before can cut the pause short once, and let as many requests
      through as then find room. */
  function Reopened(atOnce: nat, older: nat): nat
    requires older <= atOnce
  {
    if older == 0 then 0 else (atOnce - older + 1) + Reopened(atOnce, older - 1)
  }

  /** The most that may still wait: those there is room for, one for each failure short of the
      third, and what calls from before can let through. */
  function Allowance(l: Line, atOnce: nat, from: real): nat
    requires |l.waiting| <= atOnce
  {
    (if l.breaker.skipUntil >= from + COOLDOWN then 0
     else atOnce - |l.waiting| + Max(THRESHOLD - 1 - l.breaker.failures, 0))
    + Reopened(atOnce, Older(l.waiting, from))
  }

  lemma TurnSpends(l: Line, turn: Turn, atOnce: nat, from: real)
    requires |l.waiting| <= atOnce && |Take(l, turn).0.waiting| <= atOnce
    requires turn.Begins? ==> from <= turn.now < from + COOLDOWN
    ensures var (next, called) := Take(l, turn);
            (if called then 1 else 0) + Allowance(next, atOnce, from) <= Allowance(l, atOnce, from)
  {
    match turn
    case Begins(now) =>
      assert [now][1..] == [];
      OlderAppend(l.waiting, [now], from);
    case Fails(i) =>
      if i < |l.waiting| {
        OlderWithout(l.waiting, i, from);
      }
  }

  /** In any ten seconds of an outage the requests that wait for the store are at most those
      that may wait at once and two more, plus what calls begun earlier let through by
      failing late. */
  lemma {:induction false} OutageIsBounded(l: Line, turns: seq<Turn>, atOnce: nat, from: real)
    requires TenSeconds(l, turns, atOnce, from)
    ensures Waits(l, turns) <= Allowance(l, atOnce, from)
    ensures l.waiting == [] ==> Waits(l, turns) <= atOnce + THRESHOLD - 1
    decreases |turns|
  {
    if turns != [] {
      OutageIsBounded(Take(l, turns[0]).0, turns[1..], atOnce, from);
      TurnSpends(l, turns[0], atOnce, from);
    }
  }

  // ------------------------------------------------------------ and the bound is met

  function Begin(now: real, n: nat): seq<Turn> {
    seq(n, _ => Begins(now))
  }

  lemma {:induction false} TurnsAppend(l: Line, a: seq<Turn>, b: seq<Turn>)
    ensures After(l, a + b) == After(After(l, a), b)
    ensures Waits(l, a + b) == Waits(l, a) + Waits(After(l, a), b)
    decreases |a|
  {
    if a == [] {
      assert a + b == b;
    } else {
      assert (a + b)[1..] == a[1..] + b;
      TurnsAppend(Take(l, a[0]).0, a[1..], b);
    }
  }

  lemma {:induction false} TenSecondsAppend(l: Line, a: seq<Turn>, b: seq<Turn>, atOnce: nat, from: real)
    requires TenSeconds(l, a, atOnce, from) && TenSeconds(After(l, a), b, atOnce, from)
    ensures TenSeconds(l, a + b, atOnce, from)
    decreases |a|
  {
    if a == [] {
      assert a + b == b;
    } else {
      assert (a + b)[1..] == a[1..] + b;
      TenSecondsAppend(Take(l, a[0]).0, a[1..], b, atOnce, from);
    }
  }

  /** Until the pause begins everybody waits. */
  lemma {:induction false} AllWait(l: Line, now: real, n: nat, atOnce: nat, from: real)
    requires now >= l.breaker.skipUntil && from <= now < from + COOLDOWN && |l.waiting| + n <= atOnce
    ensures TenSeconds(l, Begin(now, n), atOnce, from)
    ensures Waits(l, Begin(now, n)) == n
    ensures After(l, Begin(now, n)) == l.(waiting := l.waiting + Repeat(now, n))
    decreases n
  {
    if n == 0 {
      assert l.waiting + Repeat(now, 0) == l.waiting;
    } else {
      var next := Take(l, Begins(now)).0;
      assert Begin(now, n)[1..] == Begin(now, n - 1);
      AllWait(next, now, n - 1, atOnce, from);
      assert l.waiting + [now] + Repeat(now, n - 1) == l.waiting + Repeat(now, n);
    }
  }

  /** The bound is reached for every number of requests at once: two that fail, and then a
      burst before the third failure. Requests that overlap are not held to three. */
  lemma OutageBoundIsMet(now: real, atOnce: nat)
    requires atOnce > 0
    ensures var l := Line(Breaker(0, now), []);
            var turns := [Begins(now), Fails(0), Begins(now), Fails(0)] + Begin(now, atOnce);
            TenSeconds(l, turns, atOnce, now) && Waits(l, turns) == atOnce + THRESHOLD - 1
  {
    var l := Line(Breaker(0, now), []);
    var two := [Begins(now), Fails(0), Begins(now), Fails(0)];
    var l1 := Line(Breaker(0, now), [now]);
    var l2 := Line(Breaker(1, now), []);
    var l3 := Line(Breaker(1, now), [now]);
    var l4 := Line(Breaker(2, now), []);
    assert [] + [now] == [now] && [now][..0] + [now][1..] == [];
    assert Take(l, two[0]) == (l1, true) && Take(l1, two[1]) == (l2, false);
    assert Take(l2, two[2]) == (l3, true) && Take(l3, two[3]) == (l4, false);
    TurnsAre(l, l1, l2, l3, l4, two, atOnce, now);
    AllWait(l4, now, atOnce, atOnce, now);
    TurnsAppend(l, two, Begin(now, atOnce));
    TenSecondsAppend(l, two, Begin(now, atOnce), atOnce, now);
  }

  lemma TurnsAre(l: Line, l1: Line, l2: Line, l3: Line, l4: Line, four: seq<Turn>, atOnce: nat, from: real)
    requires |four| == 4 && Take(l, four[0]) == (l1, true) && Take(l1, four[1]) == (l2, false)
    requires Take(l2, four[2]) == (l3, true) && Take(l3, four[3]) == (l4, false)
    requires |l.waiting| <= atOnce && |l1.waiting| <= atOnce && |l2.waiting| <= atOnce
    requires |l3.waiting| <= atOnce && |l4.waiting| <= atOnce
    requires forall i :: 0 <= i < 4 && four[i].Begins? ==> from <= four[i].now < from + COOLDOWN
    ensures After(l, four) == l4 && Waits(l, four) == 2 && TenSeconds(l, four, atOnce, from)
  {
    var three, two, one := four[1..], four[1..][1..], four[1..][1..][1..];
    assert three[0] == four[1] && two[0] == four[2] && one[0] == four[3] && one[1..] == [];
    hide Take;
    assert After(l3, one) == l4 && Waits(l3, one) == 0 && TenSeconds(l3, one, atOnce, from);
    assert After(l2, two) == l4 && Waits(l2, two) == 1 && TenSeconds(l2, two, atOnce, from);
    assert After(l1, three) == l4 && Waits(l1, three) == 1 && TenSeconds(l1, three, atOnce, from);
  }

  /** Calls that fail late cut the pause short: with `older` begun before, all of them as late
      as may be, the whole allowance is spent. */
  function LateFailures(late: real, atOnce: nat, older: nat): seq<Turn>
    requires older <= atOnce
  {
    Begin(late, atOnce - older) + Fail(older, atOnce - older)
    + (if older == 0 then [] else [Fails(0)] + LateFailures(late, atOnce, older - 1))
  }

  function Fail(i: nat, n: nat): seq<Turn> {
    seq(n, _ => Fails(i))
  }

  lemma {:induction false} YoungFail(l: Line, older: seq<real>, late: real, n: nat, atOnce: nat, from: real)
    requires l.waiting == older + Repeat(late, n) && |l.waiting| <= atOnce && l.breaker.failures >= THRESHOLD - 1
    ensures var turns := Fail(|older|, n);
            && TenSeconds(l, turns, atOnce, from) && Waits(l, turns) == 0
            && After(l, turns).waiting == older && After(l, turns).breaker.failures >= THRESHOLD - 1
            && (n == 0 ==> After(l, turns) == l)
    decreases n
  {
    if n == 0 {
      assert older + Repeat(late, 0) == older;
    } else {
      var k := |older|;
      var next := Take(l, Fails(k)).0;
      assert l.waiting[..k] == older && l.waiting[k + 1..] == Repeat(late, n - 1);
      assert Fail(k, n)[1..] == Fail(k, n - 1);
      YoungFail(next, older, late, n - 1, atOnce, from);
    }
  }

  /** One round: as many begin as there is room for, and fail before those that began earlier. */
  lemma YoungRound(l: Line, early: real, late: real, atOnce: nat, older: nat, from: real)
    requires older <= atOnce && l.waiting == Repeat(early, older) && l.breaker.failures >= THRESHOLD - 1
    requires from <= late < from + COOLDOWN && l.breaker.skipUntil <= late
    ensures var turns := Begin(late, atOnce - older) + Fail(older, atOnce - older);
            && TenSeconds(l, turns, atOnce, from) && Waits(l, turns) == atOnce - older
            && After(l, turns).waiting == l.waiting && After(l, turns).breaker.failures >= THRESHOLD - 1
            && (older == atOnce ==> After(l, turns) == l)
  {
    var young := atOnce - older;
    AllWait(l, late, young, atOnce, from);
    YoungFail(After(l, Begin(late, young)), l.waiting, late, young, atOnce, from);
    TurnsAppend(l, Begin(late, young), Fail(older, young));
    TenSecondsAppend(l, Begin(late, young), Fail(older, young), atOnce, from);
    if young == 0 {
      assert l.waiting + Repeat(late, 0) == l.waiting;
    }
  }

  lemma {:induction false} LateFailuresSpendAll(l: Line, early: real, late: real, atOnce: nat, older: nat, from: real)
    requires older <= atOnce && l.waiting == Repeat(early, older) && l.breaker.failures >= THRESHOLD - 1
    requires early < from <= late < from + COOLDOWN && early + COOLDOWN <= late && l.breaker.skipUntil <= late
    ensures var turns := LateFailures(late, atOnce, older);
            TenSeconds(l, turns, atOnce, from) && Waits(l, turns) == Allowance(l, atOnce, from)
    decreases older
  {
    hide TenSeconds, Waits, After, Take, Begin, Fail, Older, Repeat;
    YoungRound(l, early, late, atOnce, older, from);
    AllOlder(early, older, from);
    RepeatHas(early, older);
    var first := Begin(late, atOnce - older) + Fail(older, atOnce - older);
    var failed := After(l, first);
    if older == 0 {
      assert first + [] == first;
    } else {
      var rest := LateFailures(late, atOnce, older - 1);
      OlderFails(failed, early, older, atOnce, from, rest);
      AllOlder(early, older - 1, from);
      RepeatHas(early, older - 1);
      var next := Line(Failed(failed.breaker, early), Repeat(early, older - 1));
      LateFailuresSpendAll(next, early, late, atOnce, older - 1, from);
      TurnsAppend(l, first, [Fails(0)] + rest);
      TenSecondsAppend(l, first, [Fails(0)] + rest, atOnce, from);
    }
  }

  lemma OlderFails(l: Line, early: real, older: nat, atOnce: nat, from: real, rest: seq<Turn>)
    requires 0 < older <= atOnce && l.waiting == Repeat(early, older)
    ensures var next := Line(Failed(l.breaker, early), Repeat(early, older - 1));
            && Waits(l, [Fails(0)] + rest) == Waits(next, rest)
            && (TenSeconds(next, rest, atOnce, from) ==> TenSeconds(l, [Fails(0)] + rest, atOnce, from))
  {
    assert l.waiting[..0] + l.waiting[1..] == Repeat(early, older - 1);
    assert ([Fails(0)] + rest)[1..] == rest;
  }

  lemma RepeatHas(t: real, n: nat)
    ensures |Repeat(t, n)| == n
  {
  }

  lemma {:induction false} AllOlder(early: real, n: nat, from: real)
    requires early < from
    ensures Older(Repeat(early, n), from) == n
  {
    if n > 0 {
      assert Repeat(early, n)[1..] == Repeat(early, n - 1);
      AllOlder(early, n - 1, from);
    }
  }
}
