/** Requests that wait for the limiter and retry when they are turned away, among other requests that
    do the same. */
module Retries {
  import opened Wrappers
  import opened RateLimits

  datatype Outcome<T> = Value(value: T) | RateLimited(message: string) | OtherError(message: string)
  datatype Result<T> = Returned(value: T) | Raised(message: string) | NothingTried | Unfinished

  function Pow2(n: nat): nat {
    if n == 0 then 1 else 2 * Pow2(n - 1)
  }

  function Min(x: real, y: real): real {
    if x <= y then x else y
  }

  function Max(x: real, y: real): real {
    if x <= y then y else x
  }

  /** The backoff before the retry that follows attempt n, without jitter. */
  function Backoff(base: real, cap: real, n: nat): real {
    Min(Grown(base, n), cap)
  }

  function Grown(base: real, n: nat): real {
    base * Pow2(n) as real
  }

  function Sum(xs: seq<real>): real {
    if xs == [] then 0.0 else Sum(xs[..|xs| - 1]) + xs[|xs| - 1]
  }

  /** The first attempt that was not turned away, or n if all were. */
  function FirstSettled<T>(outcome: nat -> Outcome<T>, n: nat): (r: nat)
    ensures r <= n
    ensures forall i: nat :: i < r ==> outcome(i).RateLimited?
    ensures r < n ==> !outcome(r).RateLimited?
  {
    if n == 0 then 0
    else
      var r := FirstSettled(outcome, n - 1);
      if r < n - 1 || !outcome(n - 1).RateLimited? then r else n
  }

  lemma DoublingStep(base: real, n: nat)
    ensures base * (Pow2(n) - 1) as real + base * Pow2(n) as real == base * (Pow2(n + 1) - 1) as real
    ensures Pow2(n) > 0
  {
    if n > 0 {
      DoublingStep(base, n - 1);
    }
  }

  /** Total backoff of n retries: bounded both by doubling and by the cap. */
  ghost predicate Budget(sleeps: seq<real>, base: real, cap: real, jitter: real) {
    var n := |sleeps|;
    && Sum(sleeps) <= base * (Pow2(n) - 1) as real + n as real * jitter
    && Sum(sleeps) <= n as real * cap + n as real * jitter
  }

  lemma OneMore(n: nat, x: real)
    ensures (n + 1) as real * x == n as real * x + x
  {
  }

  lemma BackoffBounds(base: real, cap: real, n: nat)
    ensures Backoff(base, cap, n) <= base * Pow2(n) as real && Backoff(base, cap, n) <= cap
  {
  }

  lemma BudgetStep(sleeps: seq<real>, base: real, cap: real, jitter: real, delay: real)
    requires Budget(sleeps, base, cap, jitter)
    requires delay <= Backoff(base, cap, |sleeps|) + jitter
    ensures Budget(sleeps + [delay], base, cap, jitter)
  {
    hide Backoff;
    var n := |sleeps|;
    BackoffBounds(base, cap, n);
    DoublingStep(base, n);
    OneMore(n, cap);
    OneMore(n, jitter);
    assert (sleeps + [delay])[..n] == sleeps;
  }

  lemma {:induction false} BudgetIsKept(sleeps: seq<real>, roll: nat -> real, base: real, cap: real, most: real)
    requires forall i :: 0 <= i < |sleeps| ==> sleeps[i] == Backoff(base, cap, i) + roll(i)
    requires forall i: nat :: roll(i) <= most
    ensures Budget(sleeps, base, cap, most)
  {
    hide Backoff, Budget;
    if sleeps == [] {
      NoSleepYet(base, cap, most);
    } else {
      var n := |sleeps| - 1;
      BudgetIsKept(sleeps[..n], roll, base, cap, most);
      BudgetStep(sleeps[..n], base, cap, most, sleeps[n]);
      assert sleeps[..n] + [sleeps[n]] == sleeps;
    }
  }

  lemma NoSleepYet(base: real, cap: real, jitter: real)
    ensures Budget([], base, cap, jitter)
  {
    assert base * 0.0 == 0.0;
  }

  // ---------------------------------------------------------------- the delays themselves

  predicate Lesser(r: real, x: real, y: real) {
    r <= x && r <= y && (r == x || r == y)
  }

  /** Jitter aside, the first delay is the base and each later one twice the one before, up to the cap. */
  ghost predicate Doubling(sleeps: seq<real>, roll: nat -> real, base: real, cap: real) {
    forall i :: 0 <= i < |sleeps| ==>
      Lesser(sleeps[i] - roll(i), cap, if i == 0 then base else 2.0 * (sleeps[i - 1] - roll(i - 1)))
  }

  /** Of n delays the first k are not capped and the others are. */
  predicate CappedFrom(base: real, cap: real, n: nat, k: nat) {
    k <= n && (k > 0 ==> Grown(base, k - 1) <= cap) && (k < n ==> cap <= Grown(base, k))
  }

  function Rolls(roll: nat -> real, n: nat): real {
    if n == 0 then 0.0 else Rolls(roll, n - 1) + roll(n - 1)
  }

  /** k delays that double, and n - k that are capped. */
  function Total(base: real, cap: real, n: nat, k: nat): real {
    base * (Pow2(k) - 1) as real + (n - k) as real * cap
  }

  /** The whole backoff is spent: doubling up to the cap, and the cap from then on. */
  ghost predicate Spent(sleeps: seq<real>, roll: nat -> real, base: real, cap: real) {
    forall k: nat :: CappedFrom(base, cap, |sleeps|, k) ==>
      Sum(sleeps) == Total(base, cap, |sleeps|, k) + Rolls(roll, |sleeps|)
  }

  lemma TwiceTheBase(base: real, n: nat)
    ensures Grown(base, 0) == base && Grown(base, n + 1) == 2.0 * Grown(base, n)
    ensures base >= 0.0 ==> Grown(base, n) >= 0.0
  {
    assert base * 1.0 == base && Pow2(n + 1) == 2 * Pow2(n);
    if n > 0 {
      TwiceTheBase(base, n - 1);
    }
  }

  lemma DelaysDouble(sleeps: seq<real>, roll: nat -> real, base: real, cap: real)
    requires cap >= 0.0 && forall i :: 0 <= i < |sleeps| ==> sleeps[i] == Backoff(base, cap, i) + roll(i)
    ensures Doubling(sleeps, roll, base, cap)
  {
    hide Backoff, Lesser;
    forall i | 0 <= i < |sleeps|
      ensures Lesser(sleeps[i] - roll(i), cap, if i == 0 then base else 2.0 * (sleeps[i - 1] - roll(i - 1)))
    {
      DelayAgain(base, cap, i);
    }
  }

  lemma DelayAgain(base: real, cap: real, i: nat)
    requires cap >= 0.0
    ensures Lesser(Backoff(base, cap, i), cap, if i == 0 then base else 2.0 * Backoff(base, cap, i - 1))
  {
    hide Grown;
    TwiceTheBase(base, if i == 0 then 0 else i - 1);
    if i > 0 {
      TwiceOrCapped(Grown(base, i - 1), cap);
    }
  }

  lemma TwiceOrCapped(x: real, cap: real)
    requires cap >= 0.0
    ensures Lesser(Min(2.0 * x, cap), cap, 2.0 * Min(x, cap))
  {
  }

  lemma {:induction false} BackoffIsSpent(sleeps: seq<real>, roll: nat -> real, base: real, cap: real, k: nat)
    requires base >= 0.0 && CappedFrom(base, cap, |sleeps|, k)
    requires forall i :: 0 <= i < |sleeps| ==> sleeps[i] == Backoff(base, cap, i) + roll(i)
    ensures Sum(sleeps) == Total(base, cap, |sleeps|, k) + Rolls(roll, |sleeps|)
  {
    hide Backoff, Grown, CappedFrom, Total;
    TotalNext(base, cap, 0, k);
    if sleeps == [] {
      assert k == 0 by { CappedWithin(base, cap, 0, k); }
    } else {
      var n := |sleeps| - 1;
      var before := if k <= n then k else n;
      LastDelay(base, cap, n, k);
      CappedWithin(base, cap, n + 1, k);
      BackoffIsSpent(sleeps[..n], roll, base, cap, before);
      TotalNext(base, cap, n, k);
    }
  }

  lemma CappedWithin(base: real, cap: real, n: nat, k: nat)
    requires CappedFrom(base, cap, n, k)
    ensures k <= n
  {
  }

  lemma TotalNext(base: real, cap: real, n: nat, k: nat)
    ensures Total(base, cap, 0, 0) == 0.0
    ensures k <= n ==> Total(base, cap, n + 1, k) == Total(base, cap, n, k) + cap
    ensures Total(base, cap, n + 1, n + 1) == Total(base, cap, n, n) + Grown(base, n)
  {
    if k <= n {
      OneMore(n - k, cap);
    }
    DoublingStep(base, n);
    assert base * 0.0 == 0.0;
  }

  lemma LastDelay(base: real, cap: real, n: nat, k: nat)
    requires base >= 0.0 && CappedFrom(base, cap, n + 1, k)
    ensures if k <= n then CappedFrom(base, cap, n, k) && Backoff(base, cap, n) == cap
            else CappedFrom(base, cap, n, n) && Backoff(base, cap, n) == Grown(base, n)
  {
    hide Grown, Min;
    if k <= n {
      GrowsFrom(base, k, n);
      LeastOf(Grown(base, n), cap);
    } else {
      LeastOf(Grown(base, n), cap);
      if n > 0 {
        TwiceTheBase(base, n - 1);
      }
    }
  }

  lemma LeastOf(x: real, cap: real)
    ensures cap <= x ==> Min(x, cap) == cap
    ensures x <= cap ==> Min(x, cap) == x
  {
  }

  lemma GrowsFrom(base: real, k: nat, n: nat)
    requires base >= 0.0 && k <= n
    ensures Grown(base, k) <= Grown(base, n)
  {
    hide Grown;
    if k < n {
      GrowsFrom(base, k, n - 1);
      TwiceTheBase(base, n - 1);
    }
  }

  lemma AllIsSpent(sleeps: seq<real>, roll: nat -> real, base: real, cap: real)
    requires base >= 0.0 && forall i :: 0 <= i < |sleeps| ==> sleeps[i] == Backoff(base, cap, i) + roll(i)
    ensures Spent(sleeps, roll, base, cap)
  {
    hide Backoff, CappedFrom, Rolls, Sum;
    forall k: nat | CappedFrom(base, cap, |sleeps|, k)
      ensures Sum(sleeps) == Total(base, cap, |sleeps|, k) + Rolls(roll, |sleeps|)
    {
      BackoffIsSpent(sleeps, roll, base, cap, k);
    }
  }

  // ---------------------------------------------------------------- turns

  /** Whose coroutine runs next and when: this request's, another's at the limiter, or one that blocks
      all requests for a while. */
  datatype Turn = Mine(at: real) | Other(at: real) | Block(at: real, until: real)

  predicate InTime(turns: seq<Turn>) {
    forall i, j :: 0 <= i < j < |turns| ==> turns[i].at <= turns[j].at
  }

  /** The grants after these turns if this request takes none. */
  function Others(limit: nat, window: real, grants: seq<real>, turns: seq<Turn>): seq<real> {
    if turns == [] then grants
    else
      var before, last := Others(limit, window, grants, turns[..|turns| - 1]), turns[|turns| - 1];
      if last.Other? then Step(limit, window, before, last.at) else before
  }

  /** The block in force after these turns. */
  function InForce(block: real, turns: seq<Turn>): real {
    if turns == [] then block
    else if turns[|turns| - 1].Block? then turns[|turns| - 1].until
    else InForce(block, turns[..|turns| - 1])
  }

  lemma TurnsNext(limit: nat, window: real, grants: seq<real>, block: real, turns: seq<Turn>, from: nat, n: nat)
    requires from <= n < |turns|
    ensures var before := Others(limit, window, grants, turns[from..n]);
            Others(limit, window, grants, turns[from..n + 1]) == if turns[n].Other? then Step(limit, window, before, turns[n].at) else before
    ensures InForce(block, turns[from..n + 1]) == if turns[n].Block? then turns[n].until else InForce(block, turns[from..n])
  {
    assert turns[from..n + 1][..n - from] == turns[from..n];
  }

  lemma NoTurns(limit: nat, window: real, grants: seq<real>, block: real, turns: seq<Turn>, n: nat)
    requires n <= |turns|
    ensures Others(limit, window, grants, turns[n..n]) == grants && InForce(block, turns[n..n]) == block
  {
  }

  /** The grants after all turns if this request takes the slots at these places. */
  function Played(limit: nat, window: real, grants: seq<real>, turns: seq<Turn>, takes: seq<nat>): seq<real>
    decreases |takes|
  {
    if takes == [] || takes[|takes| - 1] >= |turns| then Others(limit, window, grants, turns)
    else
      var last := takes[|takes| - 1];
      Others(limit, window, Played(limit, window, grants, turns[..last], takes[..|takes| - 1]) + [turns[last].at], turns[last + 1..])
  }

  // ---------------------------------------------------------------- waiting

  /** Where waiting that began at turn n is over: the first turn of this request, once it may run, at
      which there is room in the window. */
  predicate FirstRoom(limit: nat, window: real, grants: seq<real>, turns: seq<Turn>, n: nat, notBefore: real, at: nat)
    requires at < |turns|
  {
    && n <= at && turns[at].Mine? && turns[at].at >= notBefore
    && Recent(Others(limit, window, grants, turns[n..at]), window, turns[at].at) < limit
    && NoRoom(limit, window, grants, turns, n, notBefore, at)
  }

  predicate NoRoom(limit: nat, window: real, grants: seq<real>, turns: seq<Turn>, n: nat, notBefore: real, to: nat)
    requires to <= |turns|
  {
    forall k :: n <= k < to && turns[k].Mine? && turns[k].at >= notBefore ==>
      Recent(Others(limit, window, grants, turns[n..k]), window, turns[k].at) >= limit
  }

  /** The request has no turn in between at which it may run. */
  predicate Idle(turns: seq<Turn>, from: nat, to: nat, notBefore: real)
    requires to <= |turns|
  {
    forall k :: from <= k < to && turns[k].Mine? ==> turns[k].at < notBefore
  }

  /** Its first turn at which it may run. */
  predicate FirstOwn(turns: seq<Turn>, from: nat, notBefore: real, at: nat) {
    from <= at < |turns| && turns[at].Mine? && turns[at].at >= notBefore && Idle(turns, from, at, notBefore)
  }

  lemma Joined(limit: nat, window: real, grants: seq<real>, turns: seq<Turn>, n: nat, from: nat, next: nat)
    requires n <= from <= next <= |turns|
    ensures Others(limit, window, Others(limit, window, grants, turns[n..from]), turns[from..next]) == Others(limit, window, grants, turns[n..next])
  {
    OthersConcat(limit, window, grants, turns[n..from], turns[from..next]);
    assert turns[n..from] + turns[from..next] == turns[n..next];
  }

  class GlobalRateLimiter {
    const window: SlidingWindowLimiter
    var blockedUntil: real

    ghost predicate Valid()
      reads this, window
    {
      window.Valid()
    }

    ghost predicate At(turns: seq<Turn>, n: nat)
      reads this, window
    {
      Valid() && InTime(turns) && n <= |turns| && (n < |turns| ==> window.clock <= turns[n].at)
    }

    constructor (window: SlidingWindowLimiter)
      requires window.Valid()
      ensures Valid() && this.window == window && blockedUntil == 0.0
    {
      this.window := window;
      blockedUntil := 0.0;
    }

    /** `set_blocked` */
    method SetBlocked(now: real, seconds: real)
      requires Valid()
      modifies `blockedUntil
      ensures Valid() && blockedUntil == now + seconds
    {
      blockedUntil := now + seconds;
    }

    /** One turn in which this request takes nothing. */
    method Pass(turns: seq<Turn>, n: nat)
      requires At(turns, n) && n < |turns|
      modifies `blockedUntil, window
      ensures At(turns, n + 1)
      ensures window.grants == if turns[n].Other? then Step(window.rateLimit, window.rateWindow, old(window.grants), turns[n].at) else old(window.grants)
      ensures blockedUntil == if turns[n].Block? then turns[n].until else old(blockedUntil)
    {
      hide Remembers, Step;
      match turns[n] {
        case Mine(_) =>
        case Other(at) =>
          var _, _ := window.Attempt(at);
        case Block(_, until) =>
          blockedUntil := until;
      }
    }

    /** Sleeps until this request runs again, not before the given time. */
    method Await(turns: seq<Turn>, n: nat, notBefore: real) returns (found: bool, next: nat)
      requires At(turns, n)
      modifies `blockedUntil, window
      ensures At(turns, next) && n <= next
      ensures window.grants == Others(window.rateLimit, window.rateWindow, old(window.grants), turns[n..next])
      ensures blockedUntil == InForce(old(blockedUntil), turns[n..next])
      ensures if found then n < next && FirstOwn(turns, n, notBefore, next - 1)
              else next == |turns| && Idle(turns, n, next, notBefore)
    {
      hide Others, InForce, Step, Remembers, InTime;
      found, next := false, n;
      NoTurns(window.rateLimit, window.rateWindow, window.grants, blockedUntil, turns, n);
      while next < |turns| && !found
        invariant At(turns, next) && n <= next
        invariant window.grants == Others(window.rateLimit, window.rateWindow, old(window.grants), turns[n..next])
        invariant blockedUntil == InForce(old(blockedUntil), turns[n..next])
        invariant if found then n < next && FirstOwn(turns, n, notBefore, next - 1) else Idle(turns, n, next, notBefore)
        decreases |turns| - next, !found
      {
        TurnsNext(window.rateLimit, window.rateWindow, old(window.grants), old(blockedUntil), turns, n, next);
        Pass(turns, next);
        found := turns[next].Mine? && turns[next].at >= notBefore;
        next := next + 1;
      }
    }

    /** `_acquire_proactive_slot`: tries at every turn of its own until it is granted, whatever others
        are granted meanwhile; false if the turns end first. */
    method Acquire(turns: seq<Turn>, n: nat, notBefore: real) returns (granted: bool, next: nat)
      requires At(turns, n)
      modifies `blockedUntil, window
      ensures At(turns, next) && n <= next
      ensures granted ==> n < next
                          && window.grants == Others(window.rateLimit, window.rateWindow, old(window.grants), turns[n..next - 1]) + [turns[next - 1].at]
                          && FirstRoom(window.rateLimit, window.rateWindow, old(window.grants), turns, n, notBefore, next - 1)
      ensures !granted ==> next == |turns|
                           && window.grants == Others(window.rateLimit, window.rateWindow, old(window.grants), turns[n..next])
                           && NoRoom(window.rateLimit, window.rateWindow, old(window.grants), turns, n, notBefore, next)
    {
      hide Others, InForce, Step, Recent, Remembers, InTime;
      granted, next := false, n;
      NoTurns(window.rateLimit, window.rateWindow, window.grants, blockedUntil, turns, n);
      while !granted && next < |turns|
        invariant At(turns, next) && n <= next
        invariant !granted ==> window.grants == Others(window.rateLimit, window.rateWindow, old(window.grants), turns[n..next])
                               && NoRoom(window.rateLimit, window.rateWindow, old(window.grants), turns, n, notBefore, next)
        invariant granted ==>
                    && n < next
                    && window.grants == Others(window.rateLimit, window.rateWindow, old(window.grants), turns[n..next - 1]) + [turns[next - 1].at]
                    && FirstRoom(window.rateLimit, window.rateWindow, old(window.grants), turns, n, notBefore, next - 1)
        decreases |turns| - next, !granted
      {
        TurnsNext(window.rateLimit, window.rateWindow, old(window.grants), old(blockedUntil), turns, n, next);
        if turns[next].Mine? && turns[next].at >= notBefore {
          granted := TryNow(turns, next);
        } else {
          Pass(turns, next);
        }
        next := next + 1;
      }
    }

    /** `wait_if_blocked`: looks at the block, sleeps it out if there is one, and takes a slot. */
    method WaitIfBlocked(turns: seq<Turn>, n: nat, wake: real) returns (looked: bool, granted: bool, look: nat, next: nat)
      requires At(turns, n)
      modifies `blockedUntil, window
      ensures At(turns, next) && n <= next && (!granted ==> next == |turns|)
      ensures !granted ==> window.grants == Others(window.rateLimit, window.rateWindow, old(window.grants), turns[n..next])
      ensures if looked then look < next && FirstOwn(turns, n, wake, look) else Idle(turns, n, |turns|, wake)
      ensures looked && !granted ==>
                NoRoom(window.rateLimit, window.rateWindow, Others(window.rateLimit, window.rateWindow, old(window.grants), turns[n..look + 1]),
                       turns, look + 1, InForce(old(blockedUntil), turns[n..look + 1]), |turns|)
      ensures granted ==>
                && looked && look < next - 1 && turns[next - 1].Mine?
                && var before := Others(window.rateLimit, window.rateWindow, old(window.grants), turns[n..look + 1]);
                   && FirstRoom(window.rateLimit, window.rateWindow, before, turns, look + 1, InForce(old(blockedUntil), turns[n..look + 1]), next - 1)
                   && window.grants == Others(window.rateLimit, window.rateWindow, before, turns[look + 1..next - 1]) + [turns[next - 1].at]
    {
      hide Others, InForce, Recent, Valid, NoRoom, InTime, Idle;
      granted, look := false, n;
      looked, next := Await(turns, n, wake);
      if !looked {
        return;
      }
      look := next - 1;
      ghost var from := next;
      granted, next := Acquire(turns, next, blockedUntil);
      Joined(window.rateLimit, window.rateWindow, old(window.grants), turns, n, from, next);
    }

    /** One pass of that loop. */
    method TryNow(turns: seq<Turn>, n: nat) returns (granted: bool)
      requires At(turns, n) && n < |turns|
      modifies window
      ensures At(turns, n + 1)
      ensures granted <==> Recent(old(window.grants), window.rateWindow, turns[n].at) < window.rateLimit
      ensures window.grants == if granted then old(window.grants) + [turns[n].at] else old(window.grants)
    {
      hide Remembers, Recent;
      var ok, _ := window.Attempt(turns[n].at);
      granted := ok;
    }
  }

  datatype Act = Slot(at: real) | Call(n: nat) | Sleep(delay: real)

  /** Every call right after a slot of its own, and a sleep between a call and the next slot. */
  function Schedule(slots: seq<real>, sleeps: seq<real>): seq<Act> {
    if slots == [] then []
    else
      var n := |slots| - 1;
      Schedule(slots[..n], sleeps) + [Slot(slots[n]), Call(n)] + if n < |sleeps| then [Sleep(sleeps[n])] else []
  }

  lemma ScheduleNext(slots: seq<real>, sleeps: seq<real>, at: real)
    requires |sleeps| == |slots|
    ensures Schedule(slots + [at], sleeps) == Schedule(slots, sleeps) + [Slot(at), Call(|slots|)]
  {
    assert (slots + [at])[..|slots|] == slots;
  }

  lemma {:induction false} SleepNext(slots: seq<real>, sleeps: seq<real>, delay: real)
    requires |slots| == |sleeps| + 1
    ensures Schedule(slots, sleeps + [delay]) == Schedule(slots, sleeps) + [Sleep(delay)]
  {
    SameSchedule(slots[..|sleeps|], sleeps, delay);
  }

  lemma {:induction false} SameSchedule(slots: seq<real>, sleeps: seq<real>, delay: real)
    requires |slots| <= |sleeps|
    ensures Schedule(slots, sleeps + [delay]) == Schedule(slots, sleeps)
  {
    if slots != [] {
      SameSchedule(slots[..|slots| - 1], sleeps, delay);
    }
  }

  // ---------------------------------------------------------------- retrying

  /** Where, among all turns, the tries of one request took place: a look at the block, the slot taken,
      the call's coming back; and how long it slept after that. */
  datatype Tries = Tries(looks: seq<nat>, takes: seq<nat>, ends: seq<nat>, sleeps: seq<real>)

  /** Look, slot, end, look, slot, end, ..., all before turn n. */
  predicate Placed(turns: seq<Turn>, t: Tries, n: nat) {
    && n <= |turns| && |t.sleeps| <= |t.ends| <= |t.takes| <= |t.looks| <= |t.sleeps| + 1
    && (forall i :: 0 <= i < |t.looks| ==> t.looks[i] < n && turns[t.looks[i]].Mine?)
    && (forall i :: 0 <= i < |t.takes| ==> t.looks[i] < t.takes[i] < n && turns[t.takes[i]].Mine?)
    && (forall i :: 0 <= i < |t.ends| ==> t.takes[i] < t.ends[i] < n && turns[t.ends[i]].Mine?)
    && (forall i :: 0 <= i < |t.looks| - 1 ==> t.ends[i] < t.looks[i + 1])
  }

  /** The block that the i-th look finds: the last one set by anybody, the request itself included. */
  function Found(block: real, turns: seq<Turn>, t: Tries, n: nat, i: nat): real
    requires Placed(turns, t, n) && i < |t.looks|
  {
    if i == 0 then InForce(block, turns[..t.looks[0]])
    else
      var back := t.ends[i - 1];
      assert back < t.looks[i - 1 + 1];
      InForce(turns[back].at + t.sleeps[i - 1], turns[back + 1..t.looks[i]])
  }

  /** The i-th slot is the first of the request's own turns after its look at which it may run and there
      is room, with all that others are granted meanwhile. */
  predicate Took(limit: nat, window: real, grants: seq<real>, block: real, turns: seq<Turn>, t: Tries, n: nat, i: nat)
    requires Placed(turns, t, n) && i < |t.takes|
  {
    var from := t.looks[i] + 1;
    FirstRoom(limit, window, Played(limit, window, grants, turns[..from], t.takes[..i]), turns, from, Found(block, turns, t, n, i), t.takes[i])
  }

  /** Where the request starts to wait for its i-th look, and until when it sleeps. */
  function Since(turns: seq<Turn>, t: Tries, n: nat, i: nat): (nat, real)
    requires Placed(turns, t, n) && i <= |t.sleeps|
  {
    if i > 0 then (t.ends[i - 1] + 1, turns[t.ends[i - 1]].at + t.sleeps[i - 1])
    else (0, if turns == [] then 0.0 else turns[0].at)
  }

  /** It looks at its first turn after its sleep. */
  predicate LookedFirst(turns: seq<Turn>, t: Tries, n: nat, i: nat)
    requires Placed(turns, t, n) && i < |t.looks|
  {
    var (from, wake) := Since(turns, t, n, i);
    FirstOwn(turns, from, wake, t.looks[i])
  }

  /** Its call comes back at its first turn after the slot. */
  predicate EndedFirst(turns: seq<Turn>, t: Tries, n: nat, i: nat)
    requires Placed(turns, t, n) && i < |t.ends|
  {
    FirstOwn(turns, t.takes[i] + 1, turns[t.takes[i]].at, t.ends[i])
  }

  predicate Prompt(turns: seq<Turn>, t: Tries, n: nat)
    requires Placed(turns, t, n)
  {
    && (forall i :: 0 <= i < |t.looks| ==> LookedFirst(turns, t, n, i))
    && (forall i :: 0 <= i < |t.ends| ==> EndedFirst(turns, t, n, i))
  }

  /** It looks and comes back as it should, and takes each slot as it should. */
  predicate Story(limit: nat, window: real, grants: seq<real>, block: real, turns: seq<Turn>, t: Tries, n: nat) {
    && Placed(turns, t, n)
    && Prompt(turns, t, n)
    && (forall i :: 0 <= i < |t.takes| ==> Took(limit, window, grants, block, turns, t, n, i))
  }

  /** All turns are over and the request still waits: it sleeps or has no turn of its own, or there is no
      room at any of them, or its call is out. */
  predicate Stuck(limit: nat, window: real, grants: seq<real>, block: real, turns: seq<Turn>, t: Tries)
    requires Placed(turns, t, |turns|)
  {
    var i := |t.sleeps|;
    && |t.ends| == i
    && if |t.looks| == i then
         var (from, wake) := Since(turns, t, |turns|, i);
         Idle(turns, from, |turns|, wake)
       else if |t.takes| == i then
         var from := t.looks[i] + 1;
         NoRoom(limit, window, Played(limit, window, grants, turns[..from], t.takes), turns, from, Found(block, turns, t, |turns|, i), |turns|)
       else
         Idle(turns, t.takes[i] + 1, |turns|, turns[t.takes[i]].at)
  }

  /** No try is under way, and no turn after the last one has been looked at. */
  predicate Over(t: Tries, used: nat) {
    |t.looks| == |t.takes| == |t.ends| && used == if t.ends == [] then 0 else t.ends[|t.ends| - 1] + 1
  }

  predicate Extends(t: Tries, u: Tries) {
    t.looks <= u.looks && t.takes <= u.takes && t.ends <= u.ends && t.sleeps <= u.sleeps
  }

  /** What has been done stays as it is. */
  lemma FoundStays(block: real, turns: seq<Turn>, t: Tries, n: nat, u: Tries, m: nat, i: nat)
    requires Placed(turns, t, n) && Placed(turns, u, m) && Extends(t, u) && i < |t.looks|
    ensures Found(block, turns, u, m, i) == Found(block, turns, t, n, i)
  {
    hide InForce;
    assert t.looks[i] == u.looks[i] && t.looks[0] == u.looks[0];
    if i > 0 {
      assert t.ends[i - 1] == u.ends[i - 1] && t.sleeps[i - 1] == u.sleeps[i - 1];
    }
  }

  lemma SinceStays(turns: seq<Turn>, t: Tries, n: nat, u: Tries, m: nat, i: nat)
    requires Placed(turns, t, n) && Placed(turns, u, m) && Extends(t, u) && i <= |t.sleeps|
    ensures Since(turns, u, m, i) == Since(turns, t, n, i)
  {
    if i > 0 {
      assert t.ends[i - 1] == u.ends[i - 1] && t.sleeps[i - 1] == u.sleeps[i - 1];
    }
  }

  lemma LookStays(turns: seq<Turn>, t: Tries, n: nat, u: Tries, m: nat, i: nat)
    requires Placed(turns, t, n) && Placed(turns, u, m) && Extends(t, u) && i < |t.looks| && LookedFirst(turns, t, n, i)
    ensures i < |u.looks| && LookedFirst(turns, u, m, i)
  {
    SinceStays(turns, t, n, u, m, i);
    hide Since, FirstOwn;
    assert t.looks[i] == u.looks[i];
  }

  lemma EndStays(turns: seq<Turn>, t: Tries, n: nat, u: Tries, m: nat, i: nat)
    requires Placed(turns, t, n) && Placed(turns, u, m) && Extends(t, u) && i < |t.ends| && EndedFirst(turns, t, n, i)
    ensures i < |u.ends| && EndedFirst(turns, u, m, i)
  {
    hide FirstOwn;
    assert t.ends[i] == u.ends[i] && t.takes[i] == u.takes[i];
  }

  /** What was prompt stays so, and so is what comes next. */
  lemma PromptMore(turns: seq<Turn>, t: Tries, n: nat, u: Tries, m: nat)
    requires Placed(turns, t, n) && Placed(turns, u, m) && Extends(t, u) && Prompt(turns, t, n)
    requires |u.looks| > |t.looks| ==> |u.looks| == |t.looks| + 1 && LookedFirst(turns, u, m, |t.looks|)
    requires |u.ends| > |t.ends| ==> |u.ends| == |t.ends| + 1 && EndedFirst(turns, u, m, |t.ends|)
    ensures Prompt(turns, u, m)
  {
    hide LookedFirst, EndedFirst, Placed, Extends;
    forall i | 0 <= i < |u.looks|
      ensures LookedFirst(turns, u, m, i)
    {
      if i < |t.looks| {
        LookStays(turns, t, n, u, m, i);
      }
    }
    forall i | 0 <= i < |u.ends|
      ensures EndedFirst(turns, u, m, i)
    {
      if i < |t.ends| {
        EndStays(turns, t, n, u, m, i);
      }
    }
  }

  lemma SamePlaces(turns: seq<Turn>, t: Tries, n: nat, u: Tries, m: nat, i: nat)
    requires Placed(turns, t, n) && Placed(turns, u, m) && Extends(t, u) && i < |t.takes|
    ensures i < |t.looks| && i < |u.looks| && i < |u.takes| && t.looks[i] < n <= |turns| && u.takes[i] < |turns|
    ensures t.looks[i] == u.looks[i] && t.takes[i] == u.takes[i] && t.takes[..i] == u.takes[..i]
  {
  }

  lemma TookStays(limit: nat, window: real, grants: seq<real>, block: real, turns: seq<Turn>, t: Tries, n: nat, u: Tries, m: nat, i: nat)
    requires Placed(turns, t, n) && Placed(turns, u, m) && Extends(t, u) && i < |t.takes|
    requires Took(limit, window, grants, block, turns, t, n, i)
    ensures Took(limit, window, grants, block, turns, u, m, i)
  {
    hide FirstRoom, Played, Found, Extends, Placed, InForce;
    SamePlaces(turns, t, n, u, m, i);
    FoundStays(block, turns, t, n, u, m, i);
  }

  lemma AllStay(limit: nat, window: real, grants: seq<real>, block: real, turns: seq<Turn>, t: Tries, n: nat, u: Tries, m: nat)
    requires Story(limit, window, grants, block, turns, t, n) && Placed(turns, u, m) && Extends(t, u)
    ensures forall i :: 0 <= i < |t.takes| ==> Took(limit, window, grants, block, turns, u, m, i)
  {
    forall i | 0 <= i < |t.takes|
      ensures Took(limit, window, grants, block, turns, u, m, i)
    {
      TookStays(limit, window, grants, block, turns, t, n, u, m, i);
    }
  }

  lemma Looked(limit: nat, window: real, grants: seq<real>, block: real, turns: seq<Turn>, t: Tries, n: nat, look: nat)
    requires Story(limit, window, grants, block, turns, t, n) && |t.looks| == |t.sleeps| && n <= look
    requires FirstOwn(turns, Since(turns, t, n, |t.sleeps|).0, Since(turns, t, n, |t.sleeps|).1, look)
    ensures Story(limit, window, grants, block, turns, t.(looks := t.looks + [look]), look + 1)
  {
    hide Took, Placed, Prompt, Extends, Since, Idle;
    var u := t.(looks := t.looks + [look]);
    LookIsPlaced(turns, t, n, look);
    LookIsFirst(turns, t, n, u, look);
    PromptMore(turns, t, n, u, look + 1);
    AllStay(limit, window, grants, block, turns, t, n, u, look + 1);
  }

  lemma LookIsPlaced(turns: seq<Turn>, t: Tries, n: nat, look: nat)
    requires Placed(turns, t, n) && |t.looks| == |t.sleeps| && n <= look < |turns| && turns[look].Mine?
    ensures var u := t.(looks := t.looks + [look]); Extends(t, u) && Placed(turns, u, look + 1)
  {
    PlacedLook(turns, t, n, look);
  }

  lemma LookIsFirst(turns: seq<Turn>, t: Tries, n: nat, u: Tries, look: nat)
    requires Placed(turns, t, n) && Placed(turns, u, look + 1) && Extends(t, u) && |t.looks| == |t.sleeps|
    requires |u.looks| == |t.looks| + 1 && u.looks[|t.looks|] == look
    requires FirstOwn(turns, Since(turns, t, n, |t.sleeps|).0, Since(turns, t, n, |t.sleeps|).1, look)
    ensures LookedFirst(turns, u, look + 1, |t.looks|)
  {
    hide Placed, Extends, Since, FirstOwn;
    SinceStays(turns, t, n, u, look + 1, |t.sleeps|);
  }

  lemma Taken(limit: nat, window: real, grants: seq<real>, block: real, turns: seq<Turn>, t: Tries, n: nat, take: nat)
    requires Story(limit, window, grants, block, turns, t, n) && |t.looks| == |t.takes| + 1 && n <= take < |turns|
    requires n == t.looks[|t.takes|] + 1
    requires turns[take].Mine? && FirstRoom(limit, window, Played(limit, window, grants, turns[..n], t.takes), turns, n, Found(block, turns, t, n, |t.takes|), take)
    ensures Story(limit, window, grants, block, turns, t.(takes := t.takes + [take]), take + 1)
  {
    hide Played, Found, FirstRoom, Took, Placed, Extends, InForce, Prompt;
    var u, i := t.(takes := t.takes + [take]), |t.takes|;
    PlacedTake(turns, t, n, take);
    FoundStays(block, turns, t, n, u, take + 1, i);
    PromptMore(turns, t, n, u, take + 1);
    AllStay(limit, window, grants, block, turns, t, n, u, take + 1);
    LastTook(limit, window, grants, block, turns, u, take + 1, i);
  }

  lemma PlacedTake(turns: seq<Turn>, t: Tries, n: nat, take: nat)
    requires Placed(turns, t, n) && |t.looks| == |t.takes| + 1 && n <= take < |turns| && turns[take].Mine?
    ensures var u := t.(takes := t.takes + [take]);
            Placed(turns, u, take + 1) && Extends(t, u) && u.takes[..|t.takes|] == t.takes && u.takes[|t.takes|] == take
  {
  }

  lemma LastTook(limit: nat, window: real, grants: seq<real>, block: real, turns: seq<Turn>, u: Tries, m: nat, i: nat)
    requires Placed(turns, u, m) && i < |u.takes|
    requires var from := u.looks[i] + 1;
             FirstRoom(limit, window, Played(limit, window, grants, turns[..from], u.takes[..i]), turns, from, Found(block, turns, u, m, i), u.takes[i])
    ensures Took(limit, window, grants, block, turns, u, m, i)
  {
    hide Played, Found, FirstRoom;
  }

  lemma Ended(limit: nat, window: real, grants: seq<real>, block: real, turns: seq<Turn>, t: Tries, n: nat, end: nat)
    requires Story(limit, window, grants, block, turns, t, n) && |t.takes| == |t.ends| + 1
    requires n == t.takes[|t.ends|] + 1 && FirstOwn(turns, n, turns[n - 1].at, end)
    ensures Story(limit, window, grants, block, turns, t.(ends := t.ends + [end]), end + 1)
  {
    hide Took, Placed, Prompt, Extends, Idle;
    var u := t.(ends := t.ends + [end]);
    PlacedEnd(turns, t, n, end);
    EndIsFirst(turns, u, end, |t.ends|);
    PromptMore(turns, t, n, u, end + 1);
    AllStay(limit, window, grants, block, turns, t, n, u, end + 1);
  }

  lemma PlacedEnd(turns: seq<Turn>, t: Tries, n: nat, end: nat)
    requires Placed(turns, t, n) && |t.takes| == |t.ends| + 1 && n <= end < |turns| && turns[end].Mine?
    ensures var u := t.(ends := t.ends + [end]); Extends(t, u) && Placed(turns, u, end + 1)
  {
  }

  lemma EndIsFirst(turns: seq<Turn>, u: Tries, end: nat, i: nat)
    requires Placed(turns, u, end + 1) && i < |u.ends| && u.ends[i] == end && FirstOwn(turns, u.takes[i] + 1, turns[u.takes[i]].at, end)
    ensures EndedFirst(turns, u, end + 1, i)
  {
  }

  lemma Slept(limit: nat, window: real, grants: seq<real>, block: real, turns: seq<Turn>, t: Tries, n: nat, delay: real)
    requires Story(limit, window, grants, block, turns, t, n) && |t.ends| == |t.sleeps| + 1
    ensures Story(limit, window, grants, block, turns, t.(sleeps := t.sleeps + [delay]), n)
  {
    hide Took, Placed, Prompt, Extends;
    var u := t.(sleeps := t.sleeps + [delay]);
    PlacedSleep(turns, t, n, delay);
    PromptMore(turns, t, n, u, n);
    AllStay(limit, window, grants, block, turns, t, n, u, n);
  }

  lemma PlacedSleep(turns: seq<Turn>, t: Tries, n: nat, delay: real)
    requires Placed(turns, t, n) && |t.ends| == |t.sleeps| + 1
    ensures var u := t.(sleeps := t.sleeps + [delay]); Extends(t, u) && Placed(turns, u, n)
  {
  }

  lemma {:induction false} OthersConcat(limit: nat, window: real, grants: seq<real>, a: seq<Turn>, b: seq<Turn>)
    ensures Others(limit, window, grants, a + b) == Others(limit, window, Others(limit, window, grants, a), b)
  {
    hide Step;
    if b == [] {
      assert a + b == a;
    } else {
      OthersConcat(limit, window, grants, a, b[..|b| - 1]);
      assert (a + b)[..|a + b| - 1] == a + b[..|b| - 1];
    }
  }

  /** Turns in which the request takes nothing. */
  lemma PlayedMore(limit: nat, window: real, grants: seq<real>, turns: seq<Turn>, takes: seq<nat>, n: nat, m: nat)
    requires n <= m <= |turns| && (takes != [] ==> takes[|takes| - 1] < n)
    ensures Played(limit, window, grants, turns[..m], takes) == Others(limit, window, Played(limit, window, grants, turns[..n], takes), turns[n..m])
  {
    hide Others;
    if takes == [] {
      OthersConcat(limit, window, grants, turns[..n], turns[n..m]);
      assert turns[..n] + turns[n..m] == turns[..m];
    } else {
      var last := takes[|takes| - 1];
      var own := Played(limit, window, grants, turns[..last], takes[..|takes| - 1]) + [turns[last].at];
      OthersConcat(limit, window, own, turns[last + 1..n], turns[n..m]);
      assert turns[last + 1..n] + turns[n..m] == turns[last + 1..m];
      assert turns[..n][..last] == turns[..last] == turns[..m][..last];
      assert turns[..n][last + 1..] == turns[last + 1..n] && turns[..m][last + 1..] == turns[last + 1..m];
    }
  }

  /** A turn in which it takes a slot. */
  lemma PlayedTake(limit: nat, window: real, grants: seq<real>, turns: seq<Turn>, takes: seq<nat>, take: nat)
    requires take < |turns|
    ensures Played(limit, window, grants, turns[..take + 1], takes + [take])
            == Played(limit, window, grants, turns[..take], takes) + [turns[take].at]
  {
    var all := takes + [take];
    assert all[..|all| - 1] == takes && turns[..take + 1][..take] == turns[..take] && turns[..take + 1][take + 1..] == [];
  }

  /** The block found by a look that comes after waiting from the last end on. */
  lemma FoundIs(block: real, turns: seq<Turn>, t: Tries, n: nat, look: nat)
    requires Placed(turns, t, n) && |t.looks| == |t.sleeps| && n <= look < |turns| && turns[look].Mine?
    requires n == if t.ends == [] then 0 else t.ends[|t.ends| - 1] + 1
    ensures var u := t.(looks := t.looks + [look]);
            && Placed(turns, u, look + 1)
            && Found(block, turns, u, look + 1, |t.looks|)
               == InForce(if t.ends == [] then block else turns[t.ends[|t.ends| - 1]].at + t.sleeps[|t.sleeps| - 1], turns[n..look + 1])
  {
    hide InForce, Placed, Others;
    var u := t.(looks := t.looks + [look]);
    PlacedLook(turns, t, n, look);
    TurnsNext(0, 0.0, [], block, turns, n, look);
    LastFound(block, turns, u, look + 1, |t.looks|);
    if t.ends == [] {
      assert turns[..look] == turns[0..look];
    } else {
      TurnsNext(0, 0.0, [], turns[t.ends[|t.ends| - 1]].at + t.sleeps[|t.sleeps| - 1], turns, n, look);
    }
  }

  lemma PlacedLook(turns: seq<Turn>, t: Tries, n: nat, look: nat)
    requires Placed(turns, t, n) && |t.looks| == |t.sleeps| && n <= look < |turns| && turns[look].Mine?
    ensures var u := t.(looks := t.looks + [look]);
            Placed(turns, u, look + 1) && |u.ends| == |u.sleeps| == |u.looks| - 1 && u.looks[|t.looks|] == look
    ensures t.ends != [] ==> |t.ends| == |t.sleeps| && t.ends[|t.ends| - 1] < n
  {
  }

  lemma LastFound(block: real, turns: seq<Turn>, u: Tries, m: nat, i: nat)
    requires Placed(turns, u, m) && i < |u.looks|
    ensures i == 0 ==> Found(block, turns, u, m, i) == InForce(block, turns[..u.looks[0]])
    ensures i > 0 ==>
              && i - 1 < |u.ends| && i - 1 < |u.sleeps| && u.ends[i - 1] < u.looks[i] <= |turns|
              && Found(block, turns, u, m, i) == InForce(turns[u.ends[i - 1]].at + u.sleeps[i - 1], turns[u.ends[i - 1] + 1..u.looks[i]])
  {
    hide InForce;
    if i > 0 {
      assert u.ends[i - 1] < u.looks[i - 1 + 1];
    }
  }

  lemma NothingYet(limit: nat, window: real, grants: seq<real>, block: real, turns: seq<Turn>)
    ensures Kept(limit, window, grants, block, turns, Tries([], [], [], []), 0, grants)
    ensures Between(turns, Tries([], [], [], []), 0, block, block, if turns == [] then 0.0 else turns[0].at)
  {
  }

  function Times(turns: seq<Turn>, places: seq<nat>): seq<real>
    requires forall i :: 0 <= i < |places| ==> places[i] < |turns|
  {
    seq(|places|, i requires 0 <= i < |places| => turns[places[i]].at)
  }

  lemma NoScheduleYet(turns: seq<Turn>)
    ensures Logged(turns, Tries([], [], [], []), [])
  {
  }

  lemma TimesNext(turns: seq<Turn>, places: seq<nat>, place: nat)
    requires (forall i :: 0 <= i < |places| ==> places[i] < |turns|) && place < |turns|
    ensures Times(turns, places + [place]) == Times(turns, places) + [turns[place].at]
  {
  }

  lemma Later(limit: nat, window: real, grants: seq<real>, block: real, turns: seq<Turn>, t: Tries, n: nat, m: nat)
    requires Story(limit, window, grants, block, turns, t, n) && n <= m <= |turns|
    ensures Story(limit, window, grants, block, turns, t, m)
  {
    assert Placed(turns, t, m) && Extends(t, t);
    hide Took, Placed, Prompt, Extends, Found, Played, InForce, FirstRoom;
    PromptMore(turns, t, n, t, m);
    AllStay(limit, window, grants, block, turns, t, n, t, m);
  }

  /** Before the request takes a slot again. */
  lemma NothingTaken(limit: nat, window: real, grants: seq<real>, block: real, turns: seq<Turn>, t: Tries, n: nat, m: nat)
    requires Story(limit, window, grants, block, turns, t, n) && n <= m <= |turns|
    ensures Played(limit, window, grants, turns[..m], t.takes) == Others(limit, window, Played(limit, window, grants, turns[..n], t.takes), turns[n..m])
    ensures Story(limit, window, grants, block, turns, t, m)
  {
    Later(limit, window, grants, block, turns, t, n, m);
    PlayedMore(limit, window, grants, turns, t.takes, n, m) by { hide Took; }
  }

  lemma TryLooked(limit: nat, window: real, grants: seq<real>, block: real, turns: seq<Turn>, t: Tries, n: nat, look: nat)
    requires Story(limit, window, grants, block, turns, t, n) && |t.looks| == |t.sleeps| == |t.ends|
    requires n == Since(turns, t, n, |t.sleeps|).0 && FirstOwn(turns, n, Since(turns, t, n, |t.sleeps|).1, look)
    ensures var u := t.(looks := t.looks + [look]);
            && Story(limit, window, grants, block, turns, u, look + 1) && Placed(turns, u, look + 1)
            && Found(block, turns, u, look + 1, |t.looks|)
               == InForce(if t.ends == [] then block else turns[t.ends[|t.ends| - 1]].at + t.sleeps[|t.sleeps| - 1], turns[n..look + 1])
  {
    hide Took, Found, InForce, Prompt, Idle;
    Looked(limit, window, grants, block, turns, t, n, look);
    FoundIs(block, turns, t, n, look);
  }

  /** The slot taken after the look, and the grants then. */
  lemma TryTaken(limit: nat, window: real, grants: seq<real>, block: real, turns: seq<Turn>, t: Tries, n: nat, take: nat)
    requires Story(limit, window, grants, block, turns, t, n) && |t.looks| == |t.takes| + 1 && n == t.looks[|t.takes|] + 1 <= take < |turns|
    requires turns[take].Mine? && FirstRoom(limit, window, Played(limit, window, grants, turns[..n], t.takes), turns, n, Found(block, turns, t, n, |t.takes|), take)
    ensures Story(limit, window, grants, block, turns, t.(takes := t.takes + [take]), take + 1)
    ensures Played(limit, window, grants, turns[..take + 1], t.takes + [take])
            == Others(limit, window, Played(limit, window, grants, turns[..n], t.takes), turns[n..take]) + [turns[take].at]
  {
    Taken(limit, window, grants, block, turns, t, n, take);
    PlayedTake(limit, window, grants, turns, t.takes, take);
    NothingTaken(limit, window, grants, block, turns, t, n, take);
  }

  /** What calls are made and what comes back. */
  ghost predicate Outcomes<T>(outcome: nat -> Outcome<T>, maxRetries: int, result: Result<T>, slots: nat, sleeps: nat) {
    if maxRetries < 0 then result == NothingTried && slots == 0 && sleeps == 0
    else
      var settled := FirstSettled(outcome, maxRetries + 1);
      if result.Unfinished? then sleeps <= slots <= sleeps + 1 && sleeps <= settled && sleeps <= maxRetries
      else
        && slots == (if settled <= maxRetries then settled + 1 else maxRetries + 1) && sleeps == slots - 1
        && result == match outcome(slots - 1)
                     case Value(v) => Returned(v)
                     case RateLimited(message) => Raised(message)
                     case OtherError(message) => Raised(message)
  }

  /** The account of a request. It ends with a result, or when all turns are over and the request is stuck. */
  ghost predicate Account<T>(limit: nat, window: real, grants: seq<real>, block: real, turns: seq<Turn>, outcome: nat -> Outcome<T>, maxRetries: int,
                             result: Result<T>, t: Tries, used: nat) {
    && Story(limit, window, grants, block, turns, t, used)
    && Outcomes(outcome, maxRetries, result, |t.takes|, |t.sleeps|)
    && if result.Unfinished? then used == |turns| && Stuck(limit, window, grants, block, turns, t) else Over(t, used)
  }

  /** So far the request and the others have done this. */
  ghost predicate Kept(limit: nat, window: real, grants: seq<real>, block: real, turns: seq<Turn>, t: Tries, n: nat, now: seq<real>) {
    Story(limit, window, grants, block, turns, t, n) && now == Played(limit, window, grants, turns[..n], t.takes)
  }

  /** All tries so far are over, and the request has slept after each. */
  predicate Between(turns: seq<Turn>, t: Tries, n: nat, block: real, blockedUntil: real, wake: real) {
    && |t.looks| == |t.takes| == |t.ends| == |t.sleeps| && n <= |turns|
    && if t.ends == [] then n == 0 && blockedUntil == block && wake == (if turns == [] then 0.0 else turns[0].at)
       else
         var last := t.ends[|t.ends| - 1];
         n == last + 1 && blockedUntil == wake == turns[last].at + t.sleeps[|t.sleeps| - 1]
  }

  lemma KeptLooked(limit: nat, window: real, grants: seq<real>, block: real, turns: seq<Turn>, t: Tries, n: nat, now: seq<real>,
                   blockedUntil: real, wake: real, look: nat)
    requires Kept(limit, window, grants, block, turns, t, n, now) && Between(turns, t, n, block, blockedUntil, wake)
    requires FirstOwn(turns, n, wake, look)
    ensures var u := t.(looks := t.looks + [look]);
            && Kept(limit, window, grants, block, turns, u, look + 1, Others(limit, window, now, turns[n..look + 1]))
            && Placed(turns, u, look + 1) && Found(block, turns, u, look + 1, |t.looks|) == InForce(blockedUntil, turns[n..look + 1])
  {
    hide Took, Found, InForce, Others, Played, Prompt, Idle;
    TryLooked(limit, window, grants, block, turns, t, n, look);
    NothingTaken(limit, window, grants, block, turns, t, n, look + 1);
  }

  lemma KeptTaken(limit: nat, window: real, grants: seq<real>, block: real, turns: seq<Turn>, t: Tries, n: nat, now: seq<real>, room: real, take: nat)
    requires Kept(limit, window, grants, block, turns, t, n, now) && Placed(turns, t, n)
    requires |t.looks| == |t.takes| + 1 && n == t.looks[|t.takes|] + 1 <= take < |turns|
    requires room == Found(block, turns, t, n, |t.takes|) && FirstRoom(limit, window, now, turns, n, room, take)
    ensures Kept(limit, window, grants, block, turns, t.(takes := t.takes + [take]), take + 1,
                 Others(limit, window, now, turns[n..take]) + [turns[take].at])
  {
    assert turns[take].Mine?;
    hide Took, Found, InForce, Others, Played, FirstRoom;
    TryTaken(limit, window, grants, block, turns, t, n, take);
  }

  lemma KeptLater(limit: nat, window: real, grants: seq<real>, block: real, turns: seq<Turn>, t: Tries, n: nat, now: seq<real>, m: nat)
    requires Kept(limit, window, grants, block, turns, t, n, now) && n <= m <= |turns|
    ensures Kept(limit, window, grants, block, turns, t, m, Others(limit, window, now, turns[n..m]))
  {
    hide Took, Others, Played;
    NothingTaken(limit, window, grants, block, turns, t, n, m);
  }

  lemma KeptEnded(limit: nat, window: real, grants: seq<real>, block: real, turns: seq<Turn>, t: Tries, n: nat, now: seq<real>, m: nat)
    requires Kept(limit, window, grants, block, turns, t, n, now) && |t.takes| == |t.ends| + 1 && n < m <= |turns|
    requires n == t.takes[|t.ends|] + 1 && FirstOwn(turns, n, turns[n - 1].at, m - 1)
    ensures Kept(limit, window, grants, block, turns, t.(ends := t.ends + [m - 1]), m, Others(limit, window, now, turns[n..m]))
  {
    hide Took, Others, Played, Prompt, FirstOwn;
    NothingTaken(limit, window, grants, block, turns, t, n, m);
    Ended(limit, window, grants, block, turns, t, n, m - 1);
  }

  lemma KeptSlept(limit: nat, window: real, grants: seq<real>, block: real, turns: seq<Turn>, t: Tries, n: nat, now: seq<real>, delay: real)
    requires Kept(limit, window, grants, block, turns, t, n, now) && |t.ends| == |t.sleeps| + 1
    ensures Kept(limit, window, grants, block, turns, t.(sleeps := t.sleeps + [delay]), n, now)
  {
    hide Took, Played;
    Slept(limit, window, grants, block, turns, t, n, delay);
  }

  lemma StuckAsleep(limit: nat, window: real, grants: seq<real>, block: real, turns: seq<Turn>, t: Tries, n: nat, blockedUntil: real, wake: real,
                    now: seq<real>)
    requires Between(turns, t, n, block, blockedUntil, wake) && Idle(turns, n, |turns|, wake)
    requires Kept(limit, window, grants, block, turns, t, |turns|, now)
    ensures Placed(turns, t, |turns|) && Stuck(limit, window, grants, block, turns, t)
  {
    hide Idle, Took, Prompt, Played;
  }

  lemma StuckWaiting(limit: nat, window: real, grants: seq<real>, block: real, turns: seq<Turn>, t: Tries, n: nat, since: seq<real>, room: real,
                     now: seq<real>)
    requires Kept(limit, window, grants, block, turns, t, n, since) && Kept(limit, window, grants, block, turns, t, |turns|, now)
    requires |t.looks| == |t.sleeps| + 1 && |t.takes| == |t.sleeps| && n == t.looks[|t.takes|] + 1
    requires Placed(turns, t, n) && room == Found(block, turns, t, n, |t.takes|)
    requires NoRoom(limit, window, since, turns, n, room, |turns|)
    ensures Placed(turns, t, |turns|) && Stuck(limit, window, grants, block, turns, t)
  {
    hide NoRoom, Took, Prompt, Played, Found;
    FoundStays(block, turns, t, n, t, |turns|, |t.takes|);
  }

  lemma StuckCalling(limit: nat, window: real, grants: seq<real>, block: real, turns: seq<Turn>, t: Tries, n: nat, now: seq<real>)
    requires Kept(limit, window, grants, block, turns, t, |turns|, now)
    requires |t.takes| == |t.sleeps| + 1 && |t.ends| == |t.sleeps| && n == t.takes[|t.sleeps|] + 1
    requires 0 < n <= |turns| && Idle(turns, n, |turns|, turns[n - 1].at)
    ensures Placed(turns, t, |turns|) && Stuck(limit, window, grants, block, turns, t)
  {
    hide Idle, Took, Prompt, Played;
  }

  /** One try: a slot, and the call. */
  method TryOnce(limiter: GlobalRateLimiter, turns: seq<Turn>, t: Tries, n: nat, wake: real, ghost grants: seq<real>, ghost block: real)
    returns (back: bool, u: Tries, next: nat)
    requires limiter.At(turns, n) && Between(turns, t, n, block, limiter.blockedUntil, wake)
    requires Kept(limiter.window.rateLimit, limiter.window.rateWindow, grants, block, turns, t, n, limiter.window.grants)
    modifies limiter`blockedUntil, limiter.window
    ensures limiter.At(turns, next) && n <= next
    ensures Kept(limiter.window.rateLimit, limiter.window.rateWindow, grants, block, turns, u, next, limiter.window.grants)
    ensures u.sleeps == t.sleeps && |u.looks| <= |t.looks| + 1
    ensures u.takes == t.takes || (|u.takes| == |t.takes| + 1 && u.takes[..|t.takes|] == t.takes && u.takes[|t.takes|] < |turns|)
    ensures back ==> next > 0 && |u.looks| == |u.takes| == |u.ends| == |t.ends| + 1 && u.ends[|t.ends|] == next - 1
    ensures !back ==> u.ends == t.ends && next == |turns| && Placed(turns, u, next)
                      && Stuck(limiter.window.rateLimit, limiter.window.rateWindow, grants, block, turns, u)
  {
    hide Kept, Placed, Stuck, Idle, NoRoom, Played, Others, InForce, FirstRoom, Found, GlobalRateLimiter.Valid, InTime;
    ghost var limit, window, before, blocked := limiter.window.rateLimit, limiter.window.rateWindow, limiter.window.grants, limiter.blockedUntil;
    var looked, granted, look;
    looked, granted, look, next := limiter.WaitIfBlocked(turns, n, wake);
    back, u := false, t;
    if !looked {
      KeptLater(limit, window, grants, block, turns, t, n, before, next);
      StuckAsleep(limit, window, grants, block, turns, t, n, blocked, wake, limiter.window.grants);
      return;
    }
    KeptLooked(limit, window, grants, block, turns, t, n, before, blocked, wake, look);
    u := t.(looks := t.looks + [look]);
    ghost var since := Others(limit, window, before, turns[n..look + 1]);
    if !granted {
      KeptLater(limit, window, grants, block, turns, u, look + 1, since, next);
      Joined(limit, window, before, turns, n, look + 1, next);
      StuckWaiting(limit, window, grants, block, turns, u, look + 1, since, InForce(blocked, turns[n..look + 1]), limiter.window.grants);
      return;
    }
    KeptTaken(limit, window, grants, block, turns, u, look + 1, since, InForce(blocked, turns[n..look + 1]), next - 1);
    u := u.(takes := u.takes + [next - 1]);
    var from := next;
    ghost var own := limiter.window.grants;
    back, next := limiter.Await(turns, from, turns[from - 1].at);
    if back {
      KeptEnded(limit, window, grants, block, turns, u, from, own, next);
      u := u.(ends := u.ends + [next - 1]);
    } else {
      KeptLater(limit, window, grants, block, turns, u, from, own, next);
      StuckCalling(limit, window, grants, block, turns, u, from, limiter.window.grants);
    }
  }

  lemma KeptFacts(limit: nat, window: real, grants: seq<real>, block: real, turns: seq<Turn>, t: Tries, n: nat, now: seq<real>)
    requires Kept(limit, window, grants, block, turns, t, n, now)
    ensures n <= |turns| && forall i :: 0 <= i < |t.takes| ==> t.takes[i] < |turns|
    ensures |t.sleeps| <= |t.ends| <= |t.takes| <= |t.looks| <= |t.sleeps| + 1
  {
  }

  lemma Lengths(turns: seq<Turn>, t: Tries, n: nat, block: real, blockedUntil: real, wake: real)
    requires Between(turns, t, n, block, blockedUntil, wake)
    ensures |t.looks| == |t.takes| == |t.ends| == |t.sleeps| && Over(t, n)
  {
  }

  /** Turned away, and asleep until the next try. */
  lemma NextTry(turns: seq<Turn>, t: Tries, n: nat, block: real, delay: real)
    requires |t.looks| == |t.takes| == |t.ends| == |t.sleeps| + 1 && 0 < n <= |turns| && t.ends[|t.sleeps|] == n - 1
    ensures Between(turns, t.(sleeps := t.sleeps + [delay]), n, block, turns[n - 1].at + delay, turns[n - 1].at + delay)
  {
  }

  /** The log lists every slot, call and sleep. */
  ghost predicate Logged(turns: seq<Turn>, t: Tries, acts: seq<Act>) {
    (forall i :: 0 <= i < |t.takes| ==> t.takes[i] < |turns|) && acts == Schedule(Times(turns, t.takes), t.sleeps)
  }

  lemma LoggedTake(turns: seq<Turn>, t: Tries, u: Tries, acts: seq<Act>)
    requires Logged(turns, t, acts) && u.sleeps == t.sleeps && |t.takes| == |t.sleeps|
    requires u.takes == t.takes || (|u.takes| == |t.takes| + 1 && u.takes[..|t.takes|] == t.takes && u.takes[|t.takes|] < |turns|)
    ensures if |u.takes| == |t.takes| then Logged(turns, u, acts)
            else Logged(turns, u, acts + [Slot(turns[u.takes[|t.takes|]].at), Call(|t.takes|)])
  {
    if u.takes != t.takes {
      var take := u.takes[|t.takes|];
      assert u.takes == t.takes + [take];
      TimesNext(turns, t.takes, take);
      ScheduleNext(Times(turns, t.takes), t.sleeps, turns[take].at);
    }
  }

  lemma LoggedSleep(turns: seq<Turn>, t: Tries, acts: seq<Act>, delay: real)
    requires Logged(turns, t, acts) && |t.takes| == |t.sleeps| + 1
    ensures Logged(turns, t.(sleeps := t.sleeps + [delay]), acts + [Sleep(delay)])
  {
    SleepNext(Times(turns, t.takes), t.sleeps, delay);
  }

  lemma NoneLeft(t: Tries, used: nat)
    requires |t.looks| == |t.takes| == |t.ends| > 0 && used > 0 && t.ends[|t.ends| - 1] == used - 1
    ensures Over(t, used)
  {
  }

  lemma NothingIsTried<T>(outcome: nat -> Outcome<T>, maxRetries: int)
    requires maxRetries < 0
    ensures Outcomes(outcome, maxRetries, NothingTried, 0, 0)
  {
  }

  lemma NothingComesBack<T>(outcome: nat -> Outcome<T>, maxRetries: int, slots: nat, sleeps: nat)
    requires 0 <= sleeps <= maxRetries && sleeps <= slots <= sleeps + 1 && forall i: nat :: i < sleeps ==> outcome(i).RateLimited?
    ensures Outcomes(outcome, maxRetries, Unfinished, slots, sleeps)
  {
  }

  lemma CallComesBack<T>(outcome: nat -> Outcome<T>, maxRetries: int, result: Result<T>, attempt: nat)
    requires attempt <= maxRetries && forall i: nat :: i < attempt ==> outcome(i).RateLimited?
    requires outcome(attempt).RateLimited? ==> attempt == maxRetries
    requires result == match outcome(attempt)
                       case Value(v) => Returned(v)
                       case RateLimited(message) => Raised(message)
                       case OtherError(message) => Raised(message)
    ensures Outcomes(outcome, maxRetries, result, attempt + 1, attempt)
  {
    var settled := FirstSettled(outcome, maxRetries + 1);
    assert outcome(attempt).RateLimited? || settled == attempt;
  }

  /** Turned away: all requests are blocked for the delay, and this one sleeps. */
  method FallAsleep(limiter: GlobalRateLimiter, turns: seq<Turn>, t: Tries, used: nat, delay: real, acts: seq<Act>,
                    ghost grants: seq<real>, ghost block: real) returns (u: Tries, more: seq<Act>, wake: real)
    requires limiter.At(turns, used) && |t.looks| == |t.takes| == |t.ends| == |t.sleeps| + 1
    requires 0 < used && t.ends[|t.sleeps|] == used - 1 && Logged(turns, t, acts)
    requires Kept(limiter.window.rateLimit, limiter.window.rateWindow, grants, block, turns, t, used, limiter.window.grants)
    modifies limiter`blockedUntil
    ensures limiter.At(turns, used) && u == t.(sleeps := t.sleeps + [delay]) && Logged(turns, u, more)
    ensures Kept(limiter.window.rateLimit, limiter.window.rateWindow, grants, block, turns, u, used, limiter.window.grants)
    ensures Between(turns, u, used, block, limiter.blockedUntil, wake)
  {
    hide Kept, Between, GlobalRateLimiter.Valid, InTime, Logged;
    KeptSlept(limiter.window.rateLimit, limiter.window.rateWindow, grants, block, turns, t, used, limiter.window.grants, delay);
    NextTry(turns, t, used, block, delay);
    LoggedSleep(turns, t, acts, delay);
    limiter.SetBlocked(turns[used - 1].at, delay);
    wake := turns[used - 1].at + delay;
    u := t.(sleeps := t.sleeps + [delay]);
    more := acts + [Sleep(delay)];
  }

  /** `outcome(i)` is what the i-th call does and `roll(i)` the jitter drawn after it. If the turns end
      while the request waits or its call is out, so does the account. */
  method ExecuteWithRetry<T>(limiter: GlobalRateLimiter, turns: seq<Turn>, outcome: nat -> Outcome<T>,
                                   maxRetries: int, base: real, cap: real, jitter: real, roll: nat -> real)
    returns (result: Result<T>, acts: seq<Act>, t: Tries, used: nat)
    requires limiter.At(turns, 0)
    requires forall i: nat :: Min(0.0, jitter) <= roll(i) <= Max(0.0, jitter)
    modifies limiter`blockedUntil, limiter.window
    ensures limiter.At(turns, used)
    ensures Story(limiter.window.rateLimit, limiter.window.rateWindow, old(limiter.window.grants), old(limiter.blockedUntil), turns, t, used)
    ensures limiter.window.grants == Played(limiter.window.rateLimit, limiter.window.rateWindow, old(limiter.window.grants), turns[..used], t.takes)
    ensures Logged(turns, t, acts)
    ensures Account(limiter.window.rateLimit, limiter.window.rateWindow, old(limiter.window.grants), old(limiter.blockedUntil), turns, outcome, maxRetries,
                    result, t, used)
    ensures forall i :: 0 <= i < |t.sleeps| ==> t.sleeps[i] == Backoff(base, cap, i) + roll(i)
    ensures Budget(t.sleeps, base, cap, Max(0.0, jitter))
    ensures cap >= 0.0 ==> Doubling(t.sleeps, roll, base, cap)
    ensures base >= 0.0 ==> Spent(t.sleeps, roll, base, cap)
  {
    hide Doubling, Spent, Budget, Backoff, Min, Max, Schedule, Kept, Between, GlobalRateLimiter.Valid, InTime, Story, Played, Outcomes, FirstSettled, Stuck, Placed, Logged, Over;
    ghost var limit, window, grants, block := limiter.window.rateLimit, limiter.window.rateWindow, limiter.window.grants, limiter.blockedUntil;
    acts, t, used := [], Tries([], [], [], []), 0;
    var wake := if turns == [] then 0.0 else turns[0].at;
    NoScheduleYet(turns);
    NothingYet(limit, window, grants, block, turns);
    result := NothingTried;
    var attempt := 0;
    while attempt < 1 + maxRetries
      invariant 0 <= attempt && (if maxRetries >= 0 then attempt <= maxRetries else attempt == 0)
      invariant |t.sleeps| == attempt && limiter.At(turns, used) && Between(turns, t, used, block, limiter.blockedUntil, wake)
      invariant Kept(limit, window, grants, block, turns, t, used, limiter.window.grants)
      invariant Logged(turns, t, acts)
      invariant forall i: nat :: i < attempt ==> outcome(i).RateLimited?
      invariant maxRetries < 0 ==> result == NothingTried
      invariant forall i :: 0 <= i < |t.sleeps| ==> t.sleeps[i] == Backoff(base, cap, i) + roll(i)
    {
      Lengths(turns, t, used, block, limiter.blockedUntil, wake);
      var back, u;
      back, u, used := TryOnce(limiter, turns, t, used, wake, grants, block);
      KeptFacts(limit, window, grants, block, turns, u, used, limiter.window.grants);
      LoggedTake(turns, t, u, acts);
      if |u.takes| > |t.takes| {
        acts := acts + [Slot(turns[u.takes[attempt]].at), Call(attempt)];
      }
      t := u;
      if !back {
        result := Unfinished;
        NothingComesBack(outcome, maxRetries, |t.takes|, |t.sleeps|);
        break;
      }
      if !outcome(attempt).RateLimited? || attempt >= maxRetries {
        result := match outcome(attempt)
                  case Value(v) => Returned(v)
                  case RateLimited(message) => Raised(message)
                  case OtherError(message) => Raised(message);
        CallComesBack(outcome, maxRetries, result, attempt);
        NoneLeft(t, used);
        break;
      }
      var delay := Backoff(base, cap, attempt) + roll(attempt);
      t, acts, wake := FallAsleep(limiter, turns, t, used, delay, acts, grants, block);
      attempt := attempt + 1;
    }
    if maxRetries < 0 {
      Lengths(turns, t, used, block, limiter.blockedUntil, wake);
      NothingIsTried(outcome, maxRetries);
    }
    KeptIs(limit, window, grants, block, turns, t, used, limiter.window.grants);
    SleepsAre(t.sleeps, roll, base, cap, jitter);
  }

  lemma SleepsAre(sleeps: seq<real>, roll: nat -> real, base: real, cap: real, jitter: real)
    requires forall i :: 0 <= i < |sleeps| ==> sleeps[i] == Backoff(base, cap, i) + roll(i)
    requires forall i: nat :: Min(0.0, jitter) <= roll(i) <= Max(0.0, jitter)
    ensures Budget(sleeps, base, cap, Max(0.0, jitter))
    ensures cap >= 0.0 ==> Doubling(sleeps, roll, base, cap)
    ensures base >= 0.0 ==> Spent(sleeps, roll, base, cap)
  {
    hide Backoff, Doubling, Spent, Budget, Min, Max;
    BudgetIsKept(sleeps, roll, base, cap, Max(0.0, jitter));
    if cap >= 0.0 {
      DelaysDouble(sleeps, roll, base, cap);
    }
    if base >= 0.0 {
      AllIsSpent(sleeps, roll, base, cap);
    }
  }

  lemma KeptIs(limit: nat, window: real, grants: seq<real>, block: real, turns: seq<Turn>, t: Tries, n: nat, now: seq<real>)
    requires Kept(limit, window, grants, block, turns, t, n, now)
    ensures n <= |turns| && forall i :: 0 <= i < |t.takes| ==> t.takes[i] < |turns|
    ensures Story(limit, window, grants, block, turns, t, n) && Placed(turns, t, n) && now == Played(limit, window, grants, turns[..n], t.takes)
  {
  }

  // ---------------------------------------------------------------- nothing else can happen

  lemma OneFirst(turns: seq<Turn>, from: nat, notBefore: real, a: nat, b: nat)
    requires FirstOwn(turns, from, notBefore, a) && FirstOwn(turns, from, notBefore, b)
    ensures a == b
  {
  }

  lemma OneRoom(limit: nat, window: real, grants: seq<real>, turns: seq<Turn>, n: nat, notBefore: real, a: nat, b: nat)
    requires a < |turns| && FirstRoom(limit, window, grants, turns, n, notBefore, a)
    requires b < |turns| && FirstRoom(limit, window, grants, turns, n, notBefore, b)
    ensures a == b
  {
    hide Others, Recent;
  }

  /** Two accounts that agree on the first i tries. */
  predicate Agree(t: Tries, u: Tries, i: nat) {
    && i <= |t.looks| && i <= |u.looks| && t.looks[..i] == u.looks[..i] && i <= |t.takes| && i <= |u.takes| && t.takes[..i] == u.takes[..i]
    && i <= |t.ends| && i <= |u.ends| && t.ends[..i] == u.ends[..i] && i <= |t.sleeps| && i <= |u.sleeps| && t.sleeps[..i] == u.sleeps[..i]
  }

  lemma SameSince(turns: seq<Turn>, t: Tries, n: nat, u: Tries, m: nat, i: nat)
    requires Placed(turns, t, n) && Placed(turns, u, m) && Agree(t, u, i)
    ensures Since(turns, t, n, i) == Since(turns, u, m, i)
  {
    if i > 0 {
      assert t.ends[i - 1] == t.ends[..i][i - 1] == u.ends[i - 1];
      assert t.sleeps[i - 1] == t.sleeps[..i][i - 1] == u.sleeps[i - 1];
    }
  }

  lemma SameFound(block: real, turns: seq<Turn>, t: Tries, n: nat, u: Tries, m: nat, i: nat)
    requires Placed(turns, t, n) && Placed(turns, u, m) && Agree(t, u, i)
    requires i < |t.looks| && i < |u.looks| && t.looks[i] == u.looks[i]
    ensures Found(block, turns, t, n, i) == Found(block, turns, u, m, i)
  {
    hide InForce;
    if i > 0 {
      assert t.ends[i - 1] == t.ends[..i][i - 1] == u.ends[i - 1];
      assert t.sleeps[i - 1] == t.sleeps[..i][i - 1] == u.sleeps[i - 1];
    }
  }

  lemma SameLook(limit: nat, window: real, grants: seq<real>, block: real, turns: seq<Turn>, t: Tries, n: nat, u: Tries, m: nat, i: nat)
    requires Story(limit, window, grants, block, turns, t, n) && Story(limit, window, grants, block, turns, u, m) && Agree(t, u, i)
    requires i < |t.looks| && i < |u.looks|
    ensures t.looks[i] == u.looks[i] && Found(block, turns, t, n, i) == Found(block, turns, u, m, i)
  {
    assert LookedFirst(turns, t, n, i) && LookedFirst(turns, u, m, i);
    hide Took, Since, FirstOwn, Found, Placed;
    SameSince(turns, t, n, u, m, i);
    OneFirst(turns, Since(turns, t, n, i).0, Since(turns, t, n, i).1, t.looks[i], u.looks[i]);
    SameFound(block, turns, t, n, u, m, i);
  }

  lemma SameTake(limit: nat, window: real, grants: seq<real>, block: real, turns: seq<Turn>, t: Tries, n: nat, u: Tries, m: nat, i: nat)
    requires Story(limit, window, grants, block, turns, t, n) && Story(limit, window, grants, block, turns, u, m) && Agree(t, u, i)
    requires i < |t.takes| && i < |u.takes|
    ensures t.takes[i] == u.takes[i]
  {
    assert Took(limit, window, grants, block, turns, t, n, i) && Took(limit, window, grants, block, turns, u, m, i);
    assert t.takes[..i] == u.takes[..i];
    assert Placed(turns, t, n) && Placed(turns, u, m) && i < |t.looks| && i < |u.looks|;
    SameLook(limit, window, grants, block, turns, t, n, u, m, i);
    hide Story, Agree;
    OneTake(limit, window, grants, block, turns, t, n, u, m, i);
  }

  lemma OneTake(limit: nat, window: real, grants: seq<real>, block: real, turns: seq<Turn>, t: Tries, n: nat, u: Tries, m: nat, i: nat)
    requires Placed(turns, t, n) && Placed(turns, u, m) && i < |t.takes| && i < |u.takes|
    requires Took(limit, window, grants, block, turns, t, n, i) && Took(limit, window, grants, block, turns, u, m, i)
    requires i < |t.looks| && i < |u.looks| && t.looks[i] == u.looks[i] && t.takes[..i] == u.takes[..i]
    requires Found(block, turns, t, n, i) == Found(block, turns, u, m, i)
    ensures t.takes[i] == u.takes[i]
  {
    hide FirstRoom, Found, Played;
    var from := t.looks[i] + 1;
    OneRoom(limit, window, Played(limit, window, grants, turns[..from], t.takes[..i]), turns, from, Found(block, turns, t, n, i), t.takes[i], u.takes[i]);
  }

  lemma SameEnd(limit: nat, window: real, grants: seq<real>, block: real, turns: seq<Turn>, t: Tries, n: nat, u: Tries, m: nat, i: nat)
    requires Story(limit, window, grants, block, turns, t, n) && Story(limit, window, grants, block, turns, u, m) && Agree(t, u, i)
    requires i < |t.ends| && i < |u.ends|
    ensures t.ends[i] == u.ends[i]
  {
    assert EndedFirst(turns, t, n, i) && EndedFirst(turns, u, m, i);
    hide Took, FirstOwn, LookedFirst;
    SameTake(limit, window, grants, block, turns, t, n, u, m, i);
    OneFirst(turns, t.takes[i] + 1, turns[t.takes[i]].at, t.ends[i], u.ends[i]);
  }

  /** Among the same turns, with the same sleeps, tries cannot go differently. */
  lemma {:induction false} OneStory(limit: nat, window: real, grants: seq<real>, block: real, turns: seq<Turn>, t: Tries, n: nat, u: Tries, m: nat, i: nat)
    requires Story(limit, window, grants, block, turns, t, n) && Story(limit, window, grants, block, turns, u, m)
    requires i <= |t.sleeps| && i <= |u.sleeps| && t.sleeps[..i] == u.sleeps[..i]
    ensures Agree(t, u, i)
  {
    hide Story, Agree;
    AgreeNothing(t, u);
    StoryBounds(limit, window, grants, block, turns, t, n);
    StoryBounds(limit, window, grants, block, turns, u, m);
    if i > 0 {
      assert t.sleeps[..i - 1] == t.sleeps[..i][..i - 1] == u.sleeps[..i - 1];
      OneStory(limit, window, grants, block, turns, t, n, u, m, i - 1);
      SameLook(limit, window, grants, block, turns, t, n, u, m, i - 1);
      SameTake(limit, window, grants, block, turns, t, n, u, m, i - 1);
      SameEnd(limit, window, grants, block, turns, t, n, u, m, i - 1);
      AgreeNext(t, u, i - 1);
    }
  }

  lemma AgreeNothing(t: Tries, u: Tries)
    ensures Agree(t, u, 0)
  {
  }

  lemma AgreeNext(t: Tries, u: Tries, i: nat)
    requires Agree(t, u, i) && i < |t.looks| && i < |u.looks| && i < |t.takes| && i < |u.takes| && i < |t.ends| && i < |u.ends|
    requires i < |t.sleeps| && i < |u.sleeps| && t.sleeps[..i + 1] == u.sleeps[..i + 1]
    requires t.looks[i] == u.looks[i] && t.takes[i] == u.takes[i] && t.ends[i] == u.ends[i]
    ensures Agree(t, u, i + 1)
  {
    assert t.looks[..i + 1] == t.looks[..i] + [t.looks[i]] && u.looks[..i + 1] == u.looks[..i] + [u.looks[i]];
    assert t.takes[..i + 1] == t.takes[..i] + [t.takes[i]] && u.takes[..i + 1] == u.takes[..i] + [u.takes[i]];
    assert t.ends[..i + 1] == t.ends[..i] + [t.ends[i]] && u.ends[..i + 1] == u.ends[..i] + [u.ends[i]];
  }

  lemma StoryBounds(limit: nat, window: real, grants: seq<real>, block: real, turns: seq<Turn>, t: Tries, n: nat)
    requires Story(limit, window, grants, block, turns, t, n)
    ensures Placed(turns, t, n) && |t.sleeps| <= |t.ends| <= |t.takes| <= |t.looks| <= |t.sleeps| + 1
  {
  }

  /** A request that is stuck has come as far as it could. */
  lemma StuckIsTheEnd(limit: nat, window: real, grants: seq<real>, block: real, turns: seq<Turn>, t: Tries, u: Tries, m: nat)
    requires Story(limit, window, grants, block, turns, t, |turns|) && Stuck(limit, window, grants, block, turns, t)
    requires Story(limit, window, grants, block, turns, u, m)
    requires t.sleeps <= u.sleeps || u.sleeps <= t.sleeps
    ensures |u.looks| <= |t.looks| && |u.takes| <= |t.takes| && |u.ends| <= |t.ends| && |u.sleeps| <= |t.sleeps|
  {
    var i := |t.sleeps|;
    hide Took, Prompt;
    if |u.sleeps| >= i {
      assert t.sleeps[..i] == u.sleeps[..i];
      OneStory(limit, window, grants, block, turns, t, |turns|, u, m, i);
      if |t.looks| == i {
        NoLookLeft(limit, window, grants, block, turns, t, u, m);
      } else if |t.takes| == i {
        NoSlotLeft(limit, window, grants, block, turns, t, u, m);
      } else {
        NoEndLeft(limit, window, grants, block, turns, t, u, m);
      }
    }
  }

  lemma NoLookLeft(limit: nat, window: real, grants: seq<real>, block: real, turns: seq<Turn>, t: Tries, u: Tries, m: nat)
    requires Story(limit, window, grants, block, turns, t, |turns|) && Stuck(limit, window, grants, block, turns, t)
    requires Story(limit, window, grants, block, turns, u, m) && Agree(t, u, |t.sleeps|) && |t.looks| == |t.sleeps|
    ensures |u.looks| <= |t.looks|
  {
    var i := |t.sleeps|;
    SameSince(turns, t, |turns|, u, m, i);
    OneLookMore(turns, u, m, i);
    hide Took, Since, Prompt;
  }

  lemma OneLookMore(turns: seq<Turn>, u: Tries, m: nat, i: nat)
    requires Placed(turns, u, m) && Prompt(turns, u, m) && i <= |u.sleeps|
    ensures i < |u.looks| ==> FirstOwn(turns, Since(turns, u, m, i).0, Since(turns, u, m, i).1, u.looks[i])
  {
    hide Since, FirstOwn;
    assert i < |u.looks| ==> LookedFirst(turns, u, m, i);
  }

  lemma NoSlotLeft(limit: nat, window: real, grants: seq<real>, block: real, turns: seq<Turn>, t: Tries, u: Tries, m: nat)
    requires Story(limit, window, grants, block, turns, t, |turns|) && Stuck(limit, window, grants, block, turns, t)
    requires Story(limit, window, grants, block, turns, u, m) && Agree(t, u, |t.sleeps|) && |t.looks| > |t.sleeps| == |t.takes|
    ensures |u.takes| <= |t.takes|
  {
    var i := |t.sleeps|;
    hide Prompt, Found, Played, Others, Recent;
    assert t.takes == t.takes[..i] == u.takes[..i];
    if |u.takes| > i {
      assert Took(limit, window, grants, block, turns, u, m, i);
      SameLook(limit, window, grants, block, turns, t, |turns|, u, m, i);
    }
  }

  lemma NoEndLeft(limit: nat, window: real, grants: seq<real>, block: real, turns: seq<Turn>, t: Tries, u: Tries, m: nat)
    requires Story(limit, window, grants, block, turns, t, |turns|) && Stuck(limit, window, grants, block, turns, t)
    requires Story(limit, window, grants, block, turns, u, m) && Agree(t, u, |t.sleeps|) && |t.takes| > |t.sleeps|
    ensures |u.ends| <= |t.ends|
  {
    var i := |t.sleeps|;
    hide Took, LookedFirst;
    if |u.ends| > i {
      assert EndedFirst(turns, u, m, i);
      SameTake(limit, window, grants, block, turns, t, |turns|, u, m, i);
    }
  }

  /** With the same turns, outcomes and sleeps there is only one account: a request can give up at no
      other place, can leave out no try, and can return nothing else. */
  lemma OnlyAccount<T>(limit: nat, window: real, grants: seq<real>, block: real, turns: seq<Turn>, outcome: nat -> Outcome<T>, maxRetries: int,
                       delay: nat -> real, a: Result<T>, t: Tries, n: nat, b: Result<T>, u: Tries, m: nat)
    requires Account(limit, window, grants, block, turns, outcome, maxRetries, a, t, n)
    requires Account(limit, window, grants, block, turns, outcome, maxRetries, b, u, m)
    requires (forall i :: 0 <= i < |t.sleeps| ==> t.sleeps[i] == delay(i)) && forall i :: 0 <= i < |u.sleeps| ==> u.sleeps[i] == delay(i)
    ensures a == b && t == u && n == m
  {
    hide Story, Stuck, Outcomes, Placed;
    StoryBounds(limit, window, grants, block, turns, t, n);
    StoryBounds(limit, window, grants, block, turns, u, m);
    SameDelays(delay, t.sleeps, u.sleeps);
    if a.Unfinished? {
      StuckIsTheEnd(limit, window, grants, block, turns, t, u, m);
      StuckBounds(limit, window, grants, block, turns, t);
    }
    if b.Unfinished? {
      StuckIsTheEnd(limit, window, grants, block, turns, u, t, n);
      StuckBounds(limit, window, grants, block, turns, u);
    }
    SameEnding(outcome, maxRetries, a, |t.takes|, |t.sleeps|, |t.ends|, b, |u.takes|, |u.sleeps|, |u.ends|);
    SameTries(limit, window, grants, block, turns, t, n, u, m);
  }

  lemma SameEnding<T>(outcome: nat -> Outcome<T>, maxRetries: int, a: Result<T>, takes: nat, sleeps: nat, ends: nat,
                      b: Result<T>, takes': nat, sleeps': nat, ends': nat)
    requires Outcomes(outcome, maxRetries, a, takes, sleeps) && Outcomes(outcome, maxRetries, b, takes', sleeps')
    requires if a.Unfinished? then ends == sleeps && takes' <= takes && ends' <= ends && sleeps' <= sleeps else ends == takes
    requires if b.Unfinished? then ends' == sleeps' && takes <= takes' && ends <= ends' && sleeps <= sleeps' else ends' == takes'
    ensures a == b && takes == takes' && sleeps == sleeps' && ends == ends'
  {
    hide FirstSettled;
  }

  lemma StuckBounds(limit: nat, window: real, grants: seq<real>, block: real, turns: seq<Turn>, t: Tries)
    requires Placed(turns, t, |turns|) && Stuck(limit, window, grants, block, turns, t)
    ensures |t.ends| == |t.sleeps|
  {
  }

  lemma SameDelays(delay: nat -> real, a: seq<real>, b: seq<real>)
    requires (forall i :: 0 <= i < |a| ==> a[i] == delay(i)) && forall i :: 0 <= i < |b| ==> b[i] == delay(i)
    ensures a <= b || b <= a
    ensures |a| == |b| ==> a == b
  {
    if |a| <= |b| {
      assert a == b[..|a|];
    } else {
      assert b == a[..|b|];
    }
  }

  lemma SameTries(limit: nat, window: real, grants: seq<real>, block: real, turns: seq<Turn>, t: Tries, n: nat, u: Tries, m: nat)
    requires Story(limit, window, grants, block, turns, t, n) && Story(limit, window, grants, block, turns, u, m)
    requires t.sleeps == u.sleeps && |t.takes| == |u.takes| && |t.ends| == |u.ends| && |t.looks| == |u.looks|
    ensures t == u
  {
    var i := |t.sleeps|;
    StoryBounds(limit, window, grants, block, turns, t, n);
    hide Story, Placed;
    OneStory(limit, window, grants, block, turns, t, n, u, m, i);
    if |t.looks| > i {
      SameLook(limit, window, grants, block, turns, t, n, u, m, i);
    }
    if |t.takes| > i {
      SameTake(limit, window, grants, block, turns, t, n, u, m, i);
    }
    if |t.ends| > i {
      SameEnd(limit, window, grants, block, turns, t, n, u, m, i);
    }
    SameOneMore(t.looks, u.looks, i);
    SameOneMore(t.takes, u.takes, i);
    SameOneMore(t.ends, u.ends, i);
  }

  lemma SameOneMore(a: seq<nat>, b: seq<nat>, i: nat)
    requires i <= |a| == |b| <= i + 1 && a[..i] == b[..i] && (|a| > i ==> a[i] == b[i])
    ensures a == b
  {
    assert a == a[..i] + a[i..] && b == b[..i] + b[i..];
  }

  // ---------------------------------------------------------------- what follows for every run

  /** A slot comes no earlier than the one before it plus the sleep in between, and no earlier than the
      end of the block found on the way. */
  lemma SlotsAreApart(limit: nat, window: real, grants: seq<real>, block: real, turns: seq<Turn>, t: Tries, n: nat, i: nat)
    requires InTime(turns) && Story(limit, window, grants, block, turns, t, n) && i < |t.takes|
    ensures turns[t.takes[i]].at >= Found(block, turns, t, n, i)
    ensures i > 0 ==> turns[t.takes[i]].at >= turns[t.takes[i - 1]].at + t.sleeps[i - 1]
  {
    hide Found, Played, Recent, NoRoom, Idle;
    assert Took(limit, window, grants, block, turns, t, n, i);
    if i > 0 {
      assert t.takes[i - 1] < t.ends[i - 1] < t.looks[i - 1 + 1] < t.takes[i];
      assert LookedFirst(turns, t, n, i);
    }
  }

  /** All of a is in b, in the same order. */
  predicate Within(a: seq<real>, b: seq<real>) {
    a == [] || (b != [] && (Within(a, b[..|b| - 1]) || (a[|a| - 1] == b[|b| - 1] && Within(a[..|a| - 1], b[..|b| - 1]))))
  }

  lemma {:induction false} OthersGrow(limit: nat, window: real, grants: seq<real>, turns: seq<Turn>, own: seq<real>, k: nat)
    requires k <= |grants| && Within(own, grants[k..])
    ensures var g := Others(limit, window, grants, turns); grants <= g && Within(own, g[k..])
  {
    hide Recent;
    if turns != [] {
      OthersGrow(limit, window, grants, turns[..|turns| - 1], own, k);
      var g, at := Others(limit, window, grants, turns[..|turns| - 1]), turns[|turns| - 1].at;
      assert (g + [at])[k..][..|(g + [at])[k..]| - 1] == g[k..];
    }
  }

  /** The request's own slots lie among the new grants, those of others in between. */
  lemma {:induction false} OwnLieAmong(limit: nat, window: real, grants: seq<real>, turns: seq<Turn>, takes: seq<nat>, n: nat)
    requires n <= |turns| && Ordered(takes, n)
    ensures var g := Played(limit, window, grants, turns[..n], takes); grants <= g && Within(Times(turns, takes), g[|grants|..])
    decreases |takes|
  {
    hide Others, Within, Played;
    if takes == [] {
      NoneTaken(limit, window, grants, turns[..n]);
      assert Times(turns, takes) == [];
      OthersGrow(limit, window, grants, turns[..n], [], |grants|);
    } else {
      var last, init := takes[|takes| - 1], takes[..|takes| - 1];
      OwnLieAmong(limit, window, grants, turns, init, last);
      var g := Played(limit, window, grants, turns[..last], init);
      TimesNext(turns, init, last);
      OneTakenMore(g, |grants|, Times(turns, init), turns[last].at);
      PlayedSplit(limit, window, grants, turns, takes, n);
      assert takes == init + [last];
      OthersGrow(limit, window, g + [turns[last].at], turns[last + 1..n], Times(turns, takes), |grants|);
    }
  }

  lemma NoneTaken(limit: nat, window: real, grants: seq<real>, turns: seq<Turn>)
    ensures Played(limit, window, grants, turns, []) == Others(limit, window, grants, turns)
    ensures grants[|grants|..] == [] && Within([], grants[|grants|..])
  {
  }

  lemma OneTakenMore(g: seq<real>, k: nat, own: seq<real>, at: real)
    requires k <= |g| && Within(own, g[k..])
    ensures Within(own + [at], (g + [at])[k..])
  {
    assert (g + [at])[k..] == g[k..] + [at];
    WithinNext(own, g[k..], at);
  }

  /** Up to the last slot, the slot, and the turns behind it. */
  lemma PlayedSplit(limit: nat, window: real, grants: seq<real>, turns: seq<Turn>, takes: seq<nat>, n: nat)
    requires n <= |turns| && takes != [] && takes[|takes| - 1] < n
    ensures var last, init := takes[|takes| - 1], takes[..|takes| - 1];
            Played(limit, window, grants, turns[..n], takes)
            == Others(limit, window, Played(limit, window, grants, turns[..last], init) + [turns[last].at], turns[last + 1..n])
  {
    hide Others;
    var last := takes[|takes| - 1];
    assert turns[..n][..last] == turns[..last] && turns[..n][last + 1..] == turns[last + 1..n];
  }

  lemma WithinNext(a: seq<real>, b: seq<real>, x: real)
    requires Within(a, b)
    ensures Within(a + [x], b + [x])
  {
    assert (a + [x])[..|a|] == a && (b + [x])[..|b|] == b;
  }

  predicate Ordered(takes: seq<nat>, n: nat) {
    (forall i :: 0 <= i < |takes| ==> takes[i] < n) && forall i, j :: 0 <= i < j < |takes| ==> takes[i] < takes[j]
  }

  lemma {:induction false} OthersKeepSpaced(limit: nat, window: real, grants: seq<real>, turns: seq<Turn>, now: real)
    requires limit > 0 && window > 0.0 && InTime(turns) && Ascending(grants) && Spaced(limit, window, grants)
    requires AllUpTo(grants, now) && forall i :: 0 <= i < |turns| ==> now <= turns[i].at
    ensures var g := Others(limit, window, grants, turns);
            Ascending(g) && Spaced(limit, window, g) && AllUpTo(g, if turns == [] then now else turns[|turns| - 1].at)
  {
    hide Step, Spaced;
    if turns != [] {
      OthersKeepSpaced(limit, window, grants, turns[..|turns| - 1], now);
      StepKeepsSpaced(limit, window, Others(limit, window, grants, turns[..|turns| - 1]), turns[|turns| - 1].at);
    }
  }

  /** With everybody's grants in between, a grant still comes a window after the one `limit` places before. */
  lemma {:induction false} RetriesKeepSpaced(limit: nat, window: real, grants: seq<real>, block: real, turns: seq<Turn>, t: Tries, n: nat, i: nat, m: nat, now: real)
    requires limit > 0 && window > 0.0 && InTime(turns) && Ascending(grants) && Spaced(limit, window, grants)
    requires AllUpTo(grants, now) && forall j :: 0 <= j < |turns| ==> now <= turns[j].at
    requires Story(limit, window, grants, block, turns, t, n) && i <= |t.takes| && m <= |turns| && (i > 0 ==> t.takes[i - 1] < m)
    ensures var g := Played(limit, window, grants, turns[..m], t.takes[..i]);
            Ascending(g) && Spaced(limit, window, g) && AllUpTo(g, if m == 0 then now else turns[m - 1].at)
    decreases i
  {
    hide Others, Played, Spaced, Ascending, AllUpTo, InTime, Story;
    InOrder(limit, window, grants, block, turns, t, n, i);
    if i == 0 {
      assert t.takes[..0] == [];
      NoneTaken(limit, window, grants, turns[..m]);
      PartInTime(turns, 0, m);
      assert turns[0..m] == turns[..m];
      OthersKeepSpaced(limit, window, grants, turns[..m], now);
    } else {
      var take, before := t.takes[i - 1], t.takes[..i - 1];
      RetriesKeepSpaced(limit, window, grants, block, turns, t, n, i - 1, take, now);
      var g := Played(limit, window, grants, turns[..take], before);
      RoomWhenTaken(limit, window, grants, block, turns, t, n, i - 1);
      assert t.takes[..i][..i - 1] == before;
      PlayedSplit(limit, window, grants, turns, t.takes[..i], m);
      PartInTime(turns, take + 1, m);
      OneSlotSpaced(limit, window, g, turns, take, m, if take == 0 then now else turns[take - 1].at);
    }
  }

  /** The slot, and the others' grants behind it. */
  lemma OneSlotSpaced(limit: nat, window: real, g: seq<real>, turns: seq<Turn>, take: nat, m: nat, now: real)
    requires limit > 0 && window > 0.0 && take < m <= |turns| && InTime(turns) && InTime(turns[take + 1..m]) && now <= turns[take].at
    requires Ascending(g) && Spaced(limit, window, g) && AllUpTo(g, now)
    requires Step(limit, window, g, turns[take].at) == g + [turns[take].at]
    ensures var h := Others(limit, window, g + [turns[take].at], turns[take + 1..m]);
            Ascending(h) && Spaced(limit, window, h) && AllUpTo(h, turns[m - 1].at)
  {
    UpToLater(g, now, turns[take].at);
    hide Others, Spaced, Ascending, AllUpTo, Step;
    StepKeepsSpaced(limit, window, g, turns[take].at);
    OthersKeepSpaced(limit, window, g + [turns[take].at], turns[take + 1..m], turns[take].at);
  }

  lemma PartInTime(turns: seq<Turn>, from: nat, to: nat)
    requires InTime(turns) && from <= to <= |turns|
    ensures InTime(turns[from..to]) && (0 < from < |turns| ==> turns[from - 1].at <= turns[from].at)
    ensures 1 < from ==> turns[from - 2].at <= turns[from - 1].at
  {
  }

  lemma InOrder(limit: nat, window: real, grants: seq<real>, block: real, turns: seq<Turn>, t: Tries, n: nat, i: nat)
    requires Story(limit, window, grants, block, turns, t, n) && i <= |t.takes|
    ensures i > 0 ==> t.takes[i - 1] < |turns|
    ensures i > 1 ==> t.takes[i - 2] < t.takes[i - 1]
  {
    hide Took;
    if i > 1 {
      assert t.takes[i - 2] < t.ends[i - 2] < t.looks[i - 2 + 1] < t.takes[i - 1];
    }
  }

  lemma UpToLater(g: seq<real>, now: real, later: real)
    requires AllUpTo(g, now) && now <= later
    ensures AllUpTo(g, later)
  {
  }

  /** The request itself takes a slot by the rule that binds everybody. */
  lemma RoomWhenTaken(limit: nat, window: real, grants: seq<real>, block: real, turns: seq<Turn>, t: Tries, n: nat, i: nat)
    requires Story(limit, window, grants, block, turns, t, n) && i < |t.takes|
    ensures var g, at := Played(limit, window, grants, turns[..t.takes[i]], t.takes[..i]), turns[t.takes[i]].at;
            Step(limit, window, g, at) == g + [at]
  {
    hide Others, Played, Found, Recent, NoRoom, Placed, Took, Prompt;
    TakenWhenRoom(limit, window, grants, block, turns, t, n, i);
    PlayedMore(limit, window, grants, turns, t.takes[..i], t.looks[i] + 1, t.takes[i]);
  }

  lemma TakenWhenRoom(limit: nat, window: real, grants: seq<real>, block: real, turns: seq<Turn>, t: Tries, n: nat, i: nat)
    requires Placed(turns, t, n) && i < |t.takes| && Took(limit, window, grants, block, turns, t, n, i)
    ensures i < |t.looks| && t.looks[i] < t.takes[i] < |turns| && (i > 0 ==> t.takes[i - 1] < t.looks[i])
    ensures var from := t.looks[i] + 1;
            Recent(Others(limit, window, Played(limit, window, grants, turns[..from], t.takes[..i]), turns[from..t.takes[i]]), window, turns[t.takes[i]].at) < limit
  {
    hide Others, Played, Found, Recent, NoRoom;
    if i > 0 {
      assert t.takes[i - 1] < t.ends[i - 1] < t.looks[i - 1 + 1];
    }
  }
}
