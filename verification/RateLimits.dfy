/** The strict sliding window shared by both rate limiters.
    Time is a real number read from a clock that does not go back. */
module RateLimits {
  import opened Wrappers

  // ---------------------------------------------------------------- reference: remember every grant

  /** How many of the times lie in (after, upTo]. */
  function CountIn(times: seq<real>, after: real, upTo: real): nat {
    if times == [] then 0
    else
      var last := times[|times| - 1];
      CountIn(times[..|times| - 1], after, upTo) + (if after < last <= upTo then 1 else 0)
  }

  /** How many of the times lie in [from, before). */
  function CountFrom(times: seq<real>, from: real, before: real): nat {
    if times == [] then 0
    else
      var last := times[|times| - 1];
      CountFrom(times[..|times| - 1], from, before) + (if from <= last < before then 1 else 0)
  }

  /** How many of the times lie in the window that ends with now. */
  function Recent(times: seq<real>, window: real, now: real): nat {
    CountIn(times, now - window, now)
  }

  function Step(limit: nat, window: real, grants: seq<real>, now: real): seq<real> {
    if Recent(grants, window, now) < limit then grants + [now] else grants
  }

  /** The grants of a limiter that never forgets one: an attempt is granted if fewer than `limit`
      grants lie in the window that ends with it. */
  function Granted(limit: nat, window: real, attempts: seq<real>): seq<real> {
    if attempts == [] then []
    else Step(limit, window, Granted(limit, window, attempts[..|attempts| - 1]), attempts[|attempts| - 1])
  }

  predicate Ascending(times: seq<real>) {
    forall i, j :: 0 <= i < j < |times| ==> times[i] <= times[j]
  }

  predicate AllUpTo(times: seq<real>, now: real) {
    forall i :: 0 <= i < |times| ==> times[i] <= now
  }

  /** A grant comes at least a window after the grant `limit` places before it. */
  predicate Spaced(limit: nat, window: real, grants: seq<real>) {
    forall i :: 0 <= i && i + limit < |grants| ==> grants[i] + window <= grants[i + limit]
  }

  /** In a sequence that ascends up to `now` the recent times are a suffix. */
  lemma {:induction false} CountSuffix(times: seq<real>, after: real, now: real, k: nat)
    requires k <= |times| && AllUpTo(times, now)
    requires forall i :: 0 <= i < k ==> times[i] <= after
    requires forall i :: k <= i < |times| ==> after < times[i]
    ensures CountIn(times, after, now) == |times| - k
    decreases |times|
  {
    if |times| > k {
      CountSuffix(times[..|times| - 1], after, now, k);
    } else if times != [] {
      CountSuffix(times[..|times| - 1], after, now, k - 1);
    }
  }

  /** Where the recent times begin. */
  lemma {:induction false} RecentFrom(times: seq<real>, after: real) returns (k: nat)
    requires Ascending(times)
    ensures k <= |times|
    ensures forall i :: 0 <= i < k ==> times[i] <= after
    ensures forall i :: k <= i < |times| ==> after < times[i]
  {
    if times == [] || times[0] > after {
      k := 0;
    } else {
      k := RecentFrom(times[1..], after);
      forall i | 0 <= i < k + 1
        ensures times[i] <= after
      {
        if i > 0 {
          assert times[i] == times[1..][i - 1];
        }
      }
      forall i | k + 1 <= i < |times|
        ensures after < times[i]
      {
        assert times[i] == times[1..][i - 1];
      }
      k := k + 1;
    }
  }

  lemma StepKeepsSpaced(limit: nat, window: real, g: seq<real>, now: real)
    requires limit > 0 && window > 0.0 && Ascending(g) && Spaced(limit, window, g) && AllUpTo(g, now)
    ensures var h := Step(limit, window, g, now); Ascending(h) && Spaced(limit, window, h) && AllUpTo(h, now)
  {
    hide CountIn;
    var k := RecentFrom(g, now - window);
    CountSuffix(g, now - window, now, k);
    var h := g + [now];
    if |g| - k < limit {
      forall i | 0 <= i && i + limit < |h|
        ensures h[i] + window <= h[i + limit]
      {
        if i + limit == |g| {
          assert i < k;
        }
      }
    }
  }

  lemma {:induction false} GrantsAreSpaced(limit: nat, window: real, attempts: seq<real>)
    requires limit > 0 && window > 0.0 && Ascending(attempts)
    ensures var g := Granted(limit, window, attempts);
            && Ascending(g) && Spaced(limit, window, g)
            && (attempts == [] ==> g == []) && (attempts != [] ==> AllUpTo(g, attempts[|attempts| - 1]))
  {
    hide Step, Spaced;
    if attempts == [] {
      assert Spaced(limit, window, []) by { NothingSpaced(limit, window); }
    } else {
      var init, now := attempts[..|attempts| - 1], attempts[|attempts| - 1];
      GrantsAreSpaced(limit, window, init);
      StepKeepsSpaced(limit, window, Granted(limit, window, init), now);
    }
  }

  lemma NothingSpaced(limit: nat, window: real)
    ensures Spaced(limit, window, [])
  {
  }

  lemma {:induction false} CountFromSplit(a: seq<real>, b: seq<real>, from: real, before: real)
    ensures CountFrom(a + b, from, before) == CountFrom(a, from, before) + CountFrom(b, from, before)
  {
    if b == [] {
      assert a + b == a;
    } else {
      CountFromSplit(a, b[..|b| - 1], from, before);
      assert (a + b)[..|a + b| - 1] == a + b[..|b| - 1];
    }
  }

  lemma {:induction false} CountFromBounds(times: seq<real>, from: real, before: real)
    ensures CountFrom(times, from, before) <= |times|
    ensures (forall i :: 0 <= i < |times| ==> times[i] < from) ==> CountFrom(times, from, before) == 0
  {
    if times != [] {
      CountFromBounds(times[..|times| - 1], from, before);
    }
  }

  predicate WithinLimit(limit: nat, window: real, grants: seq<real>, from: real) {
    CountFrom(grants, from, from + window) <= limit
  }

  /** Spaced grants: no half-open window of length `window` holds more than `limit` of them. */
  lemma {:induction false} WindowBound(limit: nat, window: real, grants: seq<real>, from: real)
    requires Ascending(grants) && Spaced(limit, window, grants)
    ensures WithinLimit(limit, window, grants, from)
  {
    CountFromBounds(grants, from, from + window);
    if |grants| > limit {
      var last := grants[|grants| - 1];
      if from <= last < from + window {
        LastWindow(limit, window, grants, from);
      } else {
        WindowBound(limit, window, grants[..|grants| - 1], from);
      }
    }
  }

  /** A window that reaches the last grant. */
  lemma LastWindow(limit: nat, window: real, grants: seq<real>, from: real)
    requires Ascending(grants) && Spaced(limit, window, grants) && |grants| > limit
    requires grants[|grants| - 1] < from + window
    ensures WithinLimit(limit, window, grants, from)
  {
    hide CountFrom;
    var n := |grants| - limit;
    var early, recent := grants[..n], grants[n..];
    assert grants[n - 1] + window <= grants[n - 1 + limit];
    assert forall i :: 0 <= i < n ==> early[i] <= grants[n - 1];
    assert grants == early + recent;
    CountFromSplit(early, recent, from, from + window);
    CountFromBounds(early, from, from + window);
    CountFromBounds(recent, from, from + window);
  }

  /** The promise of the limiter, for every interleaving of acquirers. */
  lemma AtMostLimitPerWindow(limit: nat, window: real, attempts: seq<real>, from: real)
    requires limit > 0 && window > 0.0 && Ascending(attempts)
    ensures WithinLimit(limit, window, Granted(limit, window, attempts), from)
  {
    hide WithinLimit, Spaced, Granted;
    GrantsAreSpaced(limit, window, attempts);
    WindowBound(limit, window, Granted(limit, window, attempts), from);
  }

  // ---------------------------------------------------------------- intervals that include both ends

  /** How many of the times lie in [from, to]. */
  function CountWithin(times: seq<real>, from: real, to: real): nat {
    if times == [] then 0
    else
      var last := times[|times| - 1];
      CountWithin(times[..|times| - 1], from, to) + (if from <= last <= to then 1 else 0)
  }

  /** Two grants, `limit` places apart, stand on the two ends of the interval. */
  ghost predicate OnBothEnds(limit: nat, window: real, grants: seq<real>, from: real) {
    exists i :: 0 <= i && i + limit < |grants| && Ends(limit, window, grants, from, i)
  }

  predicate Ends(limit: nat, window: real, grants: seq<real>, from: real, i: nat)
    requires i + limit < |grants|
  {
    grants[i] == from && grants[i + limit] == from + window
  }

  /** In a sequence that ascends, the times within an interval are consecutive. */
  lemma {:induction false} CountBetween(times: seq<real>, from: real, to: real) returns (lo: nat, hi: nat)
    requires Ascending(times)
    ensures lo <= hi <= |times| && CountWithin(times, from, to) == hi - lo
    ensures forall i :: lo <= i < hi ==> from <= times[i] <= to
    ensures forall i :: 0 <= i < lo ==> times[i] < from
    ensures forall i :: hi <= i < |times| ==> times[i] > to || times[i] < from
  {
    if times == [] {
      lo, hi := 0, 0;
    } else {
      lo, hi := CountBetween(times[..|times| - 1], from, to);
      lo, hi := OneMoreBetween(times, from, to, lo, hi);
    }
  }

  lemma OneMoreBetween(times: seq<real>, from: real, to: real, before: nat, after: nat) returns (lo: nat, hi: nat)
    requires times != [] && Ascending(times)
    requires var init := times[..|times| - 1];
             && before <= after <= |init| && CountWithin(init, from, to) == after - before
             && (forall i :: before <= i < after ==> from <= init[i] <= to)
             && (forall i :: 0 <= i < before ==> init[i] < from)
             && (forall i :: after <= i < |init| ==> init[i] > to || init[i] < from)
    ensures lo <= hi <= |times| && CountWithin(times, from, to) == hi - lo
    ensures forall i :: lo <= i < hi ==> from <= times[i] <= to
    ensures forall i :: 0 <= i < lo ==> times[i] < from
    ensures forall i :: hi <= i < |times| ==> times[i] > to || times[i] < from
  {
    lo, hi := before, after;
    var n, last := |times| - 1, times[|times| - 1];
    if from <= last <= to {
      assert forall i :: after <= i < n ==> times[i] < from;
      if lo == hi {
        lo, hi := n, |times|;
      } else {
        assert times[lo] <= times[n - 1] <= last;
        hi := |times|;
      }
    } else if lo == hi {
      lo := if last < from then |times| else lo;
      hi := lo;
    }
  }

  /** An interval with both its ends holds more than `limit` grants exactly when two grants `limit`
      places apart stand on its ends. */
  lemma ClosedWindow(limit: nat, window: real, grants: seq<real>, from: real)
    requires limit > 0 && window > 0.0 && Ascending(grants) && Spaced(limit, window, grants)
    ensures CountWithin(grants, from, from + window) > limit <==> OnBothEnds(limit, window, grants, from)
  {
    hide CountWithin;
    var lo, hi := CountBetween(grants, from, from + window);
    if hi - lo > limit {
      assert grants[lo] + window <= grants[lo + limit];
      assert Ends(limit, window, grants, from, lo);
    }
    if OnBothEnds(limit, window, grants, from) {
      var i :| 0 <= i && i + limit < |grants| && Ends(limit, window, grants, from, i);
      assert lo <= i && i + limit < hi;
    }
  }

  /** What the documentation promises for any interval, and when it is kept. */
  lemma AnyIntervalPromise(limit: nat, window: real, attempts: seq<real>, from: real)
    requires limit > 0 && window > 0.0 && Ascending(attempts)
    ensures var grants := Granted(limit, window, attempts);
            CountWithin(grants, from, from + window) <= limit <==> !OnBothEnds(limit, window, grants, from)
  {
    hide Spaced, Granted, OnBothEnds, CountWithin;
    GrantsAreSpaced(limit, window, attempts);
    ClosedWindow(limit, window, Granted(limit, window, attempts), from);
  }

  function Burst(limit: nat, from: real): seq<real> {
    seq(limit, _ => from)
  }

  lemma {:induction false} BurstIsGranted(limit: nat, window: real, from: real, n: nat)
    requires window > 0.0 && n <= limit
    ensures Granted(limit, window, Burst(n, from)) == Burst(n, from)
    ensures CountIn(Burst(n, from), from - window, from) == n && CountIn(Burst(n, from), from, from + window) == 0
  {
    if n > 0 {
      assert Burst(n, from)[..n - 1] == Burst(n - 1, from);
      BurstIsGranted(limit, window, from, n - 1);
      assert Burst(n, from) == Burst(n - 1, from) + [from];
    }
  }

  /** It fails for every limit and window: `limit` attempts at once and one more a window later are
      all granted. */
  lemma PromiseFails(limit: nat, window: real, from: real)
    requires limit > 0 && window > 0.0
    ensures var attempts := Burst(limit, from) + [from + window];
            && Ascending(attempts) && Granted(limit, window, attempts) == attempts
            && CountWithin(attempts, from, from + window) == limit + 1
  {
    hide CountIn, Granted, CountWithin, Ascending, Burst;
    BurstAscends(limit, window, from);
    BurstIsGranted(limit, window, from, limit);
    OneGrantMore(limit, window, Burst(limit, from), from + window);
    BurstIsWithin(limit, from, from + window);
    OneMoreWithin(Burst(limit, from), from + window, from, from + window);
  }

  lemma BurstAscends(limit: nat, window: real, from: real)
    requires window > 0.0
    ensures Ascending(Burst(limit, from) + [from + window]) && |Burst(limit, from)| == limit && from + window - window == from
  {
  }

  lemma OneGrantMore(limit: nat, window: real, attempts: seq<real>, now: real)
    requires Granted(limit, window, attempts) == attempts && CountIn(attempts, now - window, now) == 0 && limit > 0
    ensures Granted(limit, window, attempts + [now]) == attempts + [now]
  {
    hide CountIn;
    assert (attempts + [now])[..|attempts|] == attempts;
  }

  lemma OneMoreWithin(times: seq<real>, now: real, from: real, to: real)
    requires from <= now <= to
    ensures CountWithin(times + [now], from, to) == CountWithin(times, from, to) + 1
  {
    assert (times + [now])[..|times|] == times;
  }

  lemma {:induction false} BurstIsWithin(n: nat, from: real, to: real)
    requires from <= to
    ensures CountWithin(Burst(n, from), from, to) == n
  {
    if n > 0 {
      assert Burst(n, from)[..n - 1] == Burst(n - 1, from);
      BurstIsWithin(n - 1, from, to);
    }
  }

  // ---------------------------------------------------------------- the limiter

  class SlidingWindowLimiter {
    const rateLimit: nat
    const rateWindow: real
    /** The grants that may still matter. */
    var times: seq<real>
    ghost var grants: seq<real>
    ghost var clock: real

    ghost predicate Valid()
      reads this
    {
      Remembers(rateLimit, rateWindow, times, grants, clock)
    }

    constructor (rateLimit: nat, rateWindow: real, ghost start: real)
      requires 0 < rateLimit && 0.0 < rateWindow
      ensures Valid() && grants == [] && this.rateLimit == rateLimit && this.rateWindow == rateWindow
      ensures clock == start
    {
      this.rateLimit, this.rateWindow := rateLimit, rateWindow;
      times, grants, clock := [], [], start;
    }

    /** A non-positive limit or window is refused. */
    static method Create(rateLimit: int, rateWindow: real, ghost start: real) returns (limiter: SlidingWindowLimiter?)
      ensures limiter == null <==> rateLimit <= 0 || rateWindow <= 0.0
      ensures limiter != null ==> fresh(limiter) && limiter.Valid() && limiter.grants == []
                                  && limiter.rateLimit == rateLimit && limiter.rateWindow == rateWindow && limiter.clock == start
    {
      if rateLimit <= 0 || rateWindow <= 0.0 {
        return null;
      }
      limiter := new SlidingWindowLimiter(rateLimit, rateWindow, start);
    }

    /** Forgets the grants that have left the window; the ones kept are the recent ones. */
    method DropExpired(now: real)
      requires Valid() && clock <= now
      modifies `times
      ensures Remembers(rateLimit, rateWindow, times, grants, now)
      ensures Recent(grants, rateWindow, now) == |times|
      ensures times != [] ==> now - rateWindow < times[0]
    {
      hide CountIn, Recent, Remembers;
      var cutoff := now - rateWindow;
      RemembersFacts(rateLimit, rateWindow, times, grants, clock, now);
      while times != [] && times[0] <= cutoff
        invariant |times| <= |old(times)| && times == grants[|grants| - |times|..]
        invariant forall i :: 0 <= i < |grants| - |times| ==> grants[i] <= cutoff
        decreases |times|
      {
        times := times[1..];
      }
      RemembersRest(rateLimit, rateWindow, times, grants, now);
    }

    /** One pass under the lock. Forgetting expired grants changes no decision, and waiting for
        `waitTime` is enough unless somebody else is granted meanwhile. */
    method Attempt(now: real) returns (granted: bool, waitTime: real)
      requires Valid() && clock <= now
      modifies this
      ensures Valid() && clock == now
      ensures grants == Step(rateLimit, rateWindow, old(grants), now)
      ensures granted <==> Recent(old(grants), rateWindow, now) < rateLimit
      ensures !granted ==> Recent(grants, rateWindow, now) == rateLimit && waitTime > 0.0
      ensures !granted ==> forall later :: now + waitTime <= later ==> Recent(grants, rateWindow, later) < rateLimit
    {
      hide Recent, Remembers;
      DropExpired(now);
      waitTime := 0.0;
      clock := now;
      RememberNow(rateLimit, rateWindow, times, grants, now);
      granted := |times| < rateLimit;
      if granted {
        times := times + [now];
        grants := grants + [now];
        return;
      }
      var oldest := times[0];
      waitTime := if oldest + rateWindow - now > 0.0 then oldest + rateWindow - now else 0.0;
      forall later | now + waitTime <= later
        ensures Recent(grants, rateWindow, later) < rateLimit
      {
        FewerLater(rateLimit, rateWindow, times, grants, now, later);
      }
    }
  }

  /** `times` is what is left of the grants after some that had left the window were forgotten. */
  ghost predicate Remembers(limit: nat, window: real, times: seq<real>, grants: seq<real>, clock: real) {
    && 0 < limit && 0.0 < window
    && |times| <= |grants| && times == grants[|grants| - |times|..]
    && Ascending(grants) && AllUpTo(grants, clock)
    && |times| <= limit
    && (forall i :: 0 <= i < |grants| - |times| ==> grants[i] <= clock - window)
  }

  lemma RemembersFacts(limit: nat, window: real, times: seq<real>, grants: seq<real>, clock: real, now: real)
    requires Remembers(limit, window, times, grants, clock) && clock <= now
    ensures 0 < limit && 0.0 < window && |times| <= limit
    ensures |times| <= |grants| && times == grants[|grants| - |times|..] && Ascending(grants) && AllUpTo(grants, now)
    ensures forall i :: 0 <= i < |grants| - |times| ==> grants[i] <= now - window
  {
  }

  lemma RemembersRest(limit: nat, window: real, times: seq<real>, grants: seq<real>, now: real)
    requires 0 < limit && 0.0 < window && |times| <= limit
    requires |times| <= |grants| && times == grants[|grants| - |times|..] && Ascending(grants) && AllUpTo(grants, now)
    requires forall i :: 0 <= i < |grants| - |times| ==> grants[i] <= now - window
    requires times != [] ==> now - window < times[0]
    ensures Remembers(limit, window, times, grants, now) && Recent(grants, window, now) == |times|
  {
    hide CountIn;
    var k := |grants| - |times|;
    assert times != [] ==> grants[k] == times[0];
    CountSuffix(grants, now - window, now, k);
  }

  lemma RememberNow(limit: nat, window: real, times: seq<real>, grants: seq<real>, now: real)
    requires Remembers(limit, window, times, grants, now)
    ensures |times| <= limit && 0 < limit
    ensures |times| < limit ==> Remembers(limit, window, times + [now], grants + [now], now)
  {
  }

  /** Once the oldest remembered grant has left the window there is room again. */
  lemma FewerLater(limit: nat, window: real, times: seq<real>, grants: seq<real>, now: real, later: real)
    requires Remembers(limit, window, times, grants, now) && times != []
    requires now <= later && times[0] <= later - window
    ensures Recent(grants, window, later) < limit
  {
    hide CountIn;
    var k := |grants| - |times|;
    var m := RecentFrom(grants, later - window);
    CountSuffix(grants, later - window, later, m);
    assert grants[k] == times[0];
  }

  /** A run of the limiter over any sequence of attempts, by whichever acquirers; None if the
      limiter cannot be made. */
  method RunAttempts(rateLimit: int, rateWindow: real, attempts: seq<real>) returns (grants: Option<seq<real>>)
    requires Ascending(attempts)
    ensures grants == if rateLimit <= 0 || rateWindow <= 0.0 then None else Some(Granted(rateLimit, rateWindow, attempts))
    ensures grants.Some? ==> forall from :: WithinLimit(rateLimit, rateWindow, grants.value, from)
  {
    hide Step, WithinLimit;
    var limiter := SlidingWindowLimiter.Create(rateLimit, rateWindow, if attempts == [] then 0.0 else attempts[0]);
    if limiter == null {
      return None;
    }
    var granted := [];
    for n := 0 to |attempts|
      invariant limiter.Valid() && fresh(limiter) && limiter.rateLimit == rateLimit && limiter.rateWindow == rateWindow
      invariant attempts != [] ==> limiter.clock == attempts[if n > 0 then n - 1 else 0]
      invariant limiter.grants == granted == Granted(rateLimit, rateWindow, attempts[..n])
    {
      StepGrows(rateLimit, rateWindow, granted, attempts[n]);
      var ok, _ := limiter.Attempt(attempts[n]);
      if ok {
        granted := granted + [attempts[n]];
      }
      assert attempts[..n + 1][..n] == attempts[..n];
    }
    assert attempts[..|attempts|] == attempts;
    forall from
      ensures WithinLimit(rateLimit, rateWindow, granted, from)
    {
      AtMostLimitPerWindow(rateLimit, rateWindow, attempts, from);
    }
    grants := Some(granted);
  }

  lemma StepGrows(limit: nat, window: real, grants: seq<real>, now: real)
    ensures Step(limit, window, grants, now) == if Recent(grants, window, now) < limit then grants + [now] else grants
  {
  }
}
