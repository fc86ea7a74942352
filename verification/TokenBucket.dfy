/** Token buckets over real time: the arithmetic both rate limiters share, and the blocking
    TokenBucket of packages/extractors/extractors/ratelimit.py. */
module TokenBucket {

  type Time = real

  datatype Bucket = Bucket(rate: real, capacity: real, tokens: real, last: Time)

  datatype Call = Call(now: Time, want: real)

  predicate Sane(b: Bucket) {
    b.rate >= 0.0 && 0.0 <= b.tokens <= b.capacity
  }

  function Max(a: real, b: real): real {
    if a >= b then a else b
  }

  function Min(a: real, b: real): real {
    if a <= b then a else b
  }

  function Earned(elapsed: real, rate: real): real {
    elapsed * rate
  }

  /** Refilling forgets nothing but what overflows; a clock that went back adds nothing. */
  function Refill(b: Bucket, now: Time): Bucket {
    b.(tokens := Min(b.capacity, b.tokens + Earned(Max(0.0, now - b.last), b.rate)), last := now)
  }

  function Take(b: Bucket, c: Call): (Bucket, bool) {
    var r := Refill(b, c.now);
    if r.tokens >= c.want then (r.(tokens := r.tokens - c.want), true) else (r, false)
  }

  function After(b: Bucket, calls: seq<Call>): Bucket {
    if calls == [] then b else Take(After(b, calls[..|calls| - 1]), calls[|calls| - 1]).0
  }

  /** Tokens handed out over a run of calls. */
  function Granted(b: Bucket, calls: seq<Call>): real {
    if calls == [] then 0.0
    else
      var init, c := calls[..|calls| - 1], calls[|calls| - 1];
      Granted(b, init) + if Take(After(b, init), c).1 then c.want else 0.0
  }

  /** How far the clock moved up between the first call and the last. */
  function Climb(calls: seq<Call>): real {
    if |calls| <= 1 then 0.0
    else Climb(calls[..|calls| - 1]) + Max(0.0, calls[|calls| - 1].now - calls[|calls| - 2].now)
  }

  ghost predicate Wants(calls: seq<Call>) {
    forall c <- calls :: c.want >= 0.0
  }

  ghost predicate NeverBack(calls: seq<Call>) {
    forall i, j :: 0 <= i < j < |calls| ==> calls[i].now <= calls[j].now
  }

  lemma {:induction false} TimesRate(elapsed: real, rate: real)
    requires elapsed >= 0.0 && rate >= 0.0
    ensures Earned(elapsed, rate) >= 0.0
  {
  }

  lemma {:induction false} TakeIsSane(b: Bucket, c: Call)
    requires Sane(b) && c.want >= 0.0
    ensures var (u, ok) := Take(b, c);
            && Sane(u) && u.rate == b.rate && u.capacity == b.capacity && u.last == c.now
            && u.tokens + (if ok then c.want else 0.0) <= b.capacity
            && u.tokens + (if ok then c.want else 0.0) <= b.tokens + Earned(Max(0.0, c.now - b.last), b.rate)
            && (ok <==> c.want <= Refill(b, c.now).tokens)
  {
    TimesRate(Max(0.0, c.now - b.last), b.rate);
  }

  lemma {:induction false} RunIsSane(b: Bucket, calls: seq<Call>)
    requires Sane(b) && Wants(calls)
    ensures Sane(After(b, calls)) && After(b, calls).rate == b.rate && After(b, calls).capacity == b.capacity
    ensures calls != [] ==> After(b, calls).last == calls[|calls| - 1].now
  {
    if calls != [] {
      RunIsSane(b, calls[..|calls| - 1]);
      assert calls[|calls| - 1] in calls;
      TakeIsSane(After(b, calls[..|calls| - 1]), calls[|calls| - 1]);
    }
  }

  /** What the clock's movement after the first call adds. */
  function Inflow(rate: real, calls: seq<Call>): real {
    if |calls| <= 1 then 0.0
    else Inflow(rate, calls[..|calls| - 1]) + Earned(Max(0.0, calls[|calls| - 1].now - calls[|calls| - 2].now), rate)
  }

  lemma {:induction false} Distribute(a: real, b: real, k: real)
    ensures Earned(a + b, k) == Earned(a, k) + Earned(b, k)
  {
  }

  lemma {:induction false} InflowIsClimb(rate: real, calls: seq<Call>)
    ensures Inflow(rate, calls) == Earned(Climb(calls), rate)
  {
    if |calls| > 1 {
      var init := calls[..|calls| - 1];
      InflowIsClimb(rate, init);
      Distribute(Climb(init), Max(0.0, calls[|calls| - 1].now - calls[|calls| - 2].now), rate);
    }
  }

  lemma {:induction false} GrantsFlowIn(b: Bucket, calls: seq<Call>)
    requires Sane(b) && Wants(calls) && calls != []
    ensures Granted(b, calls) + After(b, calls).tokens <= b.capacity + Inflow(b.rate, calls)
  {
    var n := |calls| - 1;
    var init, c := calls[..n], calls[n];
    assert c in calls;
    RunIsSane(b, init);
    TakeIsSane(After(b, init), c);
    if n > 0 {
      GrantsFlowIn(b, init);
      var up := Max(0.0, c.now - init[n - 1].now);
      assert Inflow(b.rate, calls) == Inflow(b.rate, init) + Earned(up, b.rate);
      assert After(b, init).last == init[n - 1].now && After(b, init).rate == b.rate;
    }
  }

  /** What was handed out plus what is left never exceeds a full bucket and what the clock added
      since the first call, whatever the clock does. */
  lemma {:induction false} GrantsAreFunded(b: Bucket, calls: seq<Call>)
    requires Sane(b) && Wants(calls) && calls != []
    ensures Granted(b, calls) + After(b, calls).tokens <= b.capacity + Earned(Climb(calls), b.rate)
  {
    GrantsFlowIn(b, calls);
    InflowIsClimb(b.rate, calls);
  }

  lemma {:induction false} ClimbOfMonotone(calls: seq<Call>)
    requires NeverBack(calls) && calls != []
    ensures Climb(calls) == calls[|calls| - 1].now - calls[0].now
  {
    if |calls| > 1 { ClimbOfMonotone(calls[..|calls| - 1]); }
  }

  lemma {:induction false} RunJoins(b: Bucket, first: seq<Call>, second: seq<Call>)
    ensures After(b, first + second) == After(After(b, first), second)
    ensures Granted(b, first + second) == Granted(b, first) + Granted(After(b, first), second)
  {
    if second == [] {
      assert first + second == first;
    } else {
      assert (first + second)[..|first + second| - 1] == first + second[..|second| - 1];
      RunJoins(b, first, second[..|second| - 1]);
    }
  }

  lemma {:induction false} WindowFromHere(b: Bucket, window: seq<Call>)
    requires Sane(b) && Wants(window) && NeverBack(window) && window != []
    ensures Granted(b, window) <= b.capacity + Earned(window[|window| - 1].now - window[0].now, b.rate)
  {
    GrantsAreFunded(b, window);
    RunIsSane(b, window);
    ClimbOfMonotone(window);
  }

  /** The sliding-window bound: in any run with a clock that never goes back, the calls of any
      window hand out at most capacity + rate * (t2 - t1). */
  lemma {:induction false} WindowBound(b: Bucket, before: seq<Call>, window: seq<Call>)
    requires Sane(b) && Wants(before) && Wants(window) && NeverBack(window) && window != []
    ensures Granted(b, before + window) - Granted(b, before)
         <= b.capacity + Earned(window[|window| - 1].now - window[0].now, b.rate)
  {
    RunJoins(b, before, window);
    RunIsSane(b, before);
    WindowFromHere(After(b, before), window);
  }

  /** The calls are made at these clock readings. */
  ghost predicate ReadAt(calls: seq<Call>, times: seq<Time>) {
    |calls| == |times| && forall k :: 0 <= k < |calls| ==> calls[k].now == times[k]
  }

  ghost predicate BoundedIn(b: Bucket, calls: seq<Call>, lo: nat, hi: nat)
    requires lo < hi <= |calls|
  {
    Granted(b, calls[..hi]) - Granted(b, calls[..lo]) <= b.capacity + Earned(calls[hi - 1].now - calls[lo].now, b.rate)
  }

  /** Every window of the run keeps the bound. */
  ghost predicate Bounded(b: Bucket, calls: seq<Call>) {
    forall lo, hi :: 0 <= lo < hi <= |calls| ==> BoundedIn(b, calls, lo, hi)
  }

  lemma {:induction false} WindowOf(b: Bucket, before: seq<Call>, window: seq<Call>, calls: seq<Call>)
    requires Sane(b) && Wants(before) && Wants(window) && NeverBack(window) && window != []
    requires before + window <= calls
    ensures BoundedIn(b, calls, |before|, |before + window|)
  {
    WindowBound(b, before, window);
    var all := before + window;
    assert calls[..|all|] == all && calls[..|before|] == before;
    assert all[|before|] == window[0] && all[|all| - 1] == window[|window| - 1];
  }

  lemma {:induction false} ForwardIsBounded(b: Bucket, calls: seq<Call>, lo: nat, hi: nat)
    requires Sane(b) && Wants(calls) && NeverBack(calls) && lo < hi <= |calls|
    ensures BoundedIn(b, calls, lo, hi)
  {
    assert calls[0..lo] + calls[lo..hi] == calls[..hi];
    WindowOf(b, calls[0..lo], calls[lo..hi], calls);
  }

  /** One call for a full bucket, at the i-th reading, among calls for nothing. */
  function OneBigCall(b: Bucket, times: seq<Time>, i: nat): (r: seq<Call>)
  {
    seq(|times|, k requires 0 <= k < |times| => Call(times[k], if k == i then b.capacity else 0.0))
  }

  lemma {:induction false} BigCallIsGranted(b: Bucket, times: seq<Time>, i: nat, n: nat)
    requires Sane(b) && b.tokens == b.capacity && i < |times| && n <= |times|
    ensures var calls := OneBigCall(b, times, i)[..n];
            && Sane(After(b, calls)) && After(b, calls).rate == b.rate && After(b, calls).capacity == b.capacity
            && Granted(b, calls) == (if i < n then b.capacity else 0.0)
            && (n <= i ==> After(b, calls).tokens == b.capacity)
  {
    if n > 0 {
      var all := OneBigCall(b, times, i);
      BigCallIsGranted(b, times, i, n - 1);
      assert all[..n] == all[..n - 1] + [all[n - 1]];
      var before := After(b, all[..n - 1]);
      TakeIsSane(before, all[n - 1]);
      TimesRate(Max(0.0, all[n - 1].now - before.last), b.rate);
    }
  }

  lemma {:induction false} BackwardWindow(b: Bucket, times: seq<Time>, i: nat, j: nat)
    requires Sane(b) && b.rate > 0.0 && b.tokens == b.capacity && i < j < |times| && times[j] < times[i]
    ensures !BoundedIn(b, OneBigCall(b, times, i), i, j + 1)
  {
    BigCallIsGranted(b, times, i, i);
    BigCallIsGranted(b, times, i, j + 1);
    NegativeProduct(times[j] - times[i], b.rate);
    var calls := OneBigCall(b, times, i);
    assert calls[j].now - calls[i].now == times[j] - times[i];
    assert Earned(calls[j].now - calls[i].now, b.rate) < 0.0;
  }

  /** The window bound is the clock's: from a full bucket, every window of every run of calls at
      these readings keeps it if and only if the readings never go back. */
  lemma {:induction false} BoundedExactlyByForwardClocks(b: Bucket, times: seq<Time>)
    requires Sane(b) && b.rate > 0.0 && b.tokens == b.capacity
    ensures (forall calls :: ReadAt(calls, times) && Wants(calls) ==> Bounded(b, calls))
            <==> forall i, j :: 0 <= i < j < |times| ==> times[i] <= times[j]
  {
    if i, j :| 0 <= i < j < |times| && times[j] < times[i] {
      var calls := OneBigCall(b, times, i);
      BackwardWindow(b, times, i, j);
      assert ReadAt(calls, times) && Wants(calls) && !Bounded(b, calls);
    } else {
      forall calls | ReadAt(calls, times) && Wants(calls)
        ensures Bounded(b, calls)
      {
        forall lo, hi | 0 <= lo < hi <= |calls|
          ensures BoundedIn(b, calls, lo, hi)
        {
          ForwardIsBounded(b, calls, lo, hi);
        }
      }
    }
  }

  // ---- the blocking bucket ----------------------------------------------------

  /** time.monotonic and time.sleep: time passes between any two readings, and a sleep lasts at
      least as long as asked. */
  class Clock {
    var now: Time

    constructor (start: Time)
      ensures now == start
    {
      now := start;
    }

    method Read() returns (t: Time)
      modifies this
      ensures old(now) <= now == t
    {
      var passed: real :| passed >= 0.0;
      now := now + passed;
      t := now;
    }

    method Sleep(d: real)
      requires d >= 0.0
      modifies this
      ensures now >= old(now) + d
    {
      var late: real :| late >= 0.0;
      now := now + d + late;
    }
  }

  /** Waiting does not lose tokens: a failed take followed by a later one is that later take. */
  lemma {:induction false} WaitingIsOneTake(b: Bucket, first: Call, second: Call)
    requires Sane(b) && b.last <= first.now <= second.now && first.want == second.want && first.want <= b.capacity
    requires !Take(b, first).1
    ensures Take(Take(b, first).0, second) == Take(b, second)
  {
    var e1, e2 := first.now - b.last, second.now - first.now;
    assert Max(0.0, e1) == e1 && Max(0.0, e2) == e2 && Max(0.0, second.now - b.last) == e1 + e2;
    Distribute(e1, e2, b.rate);
    TimesRate(e1, b.rate);
    TimesRate(e2, b.rate);
  }

  /** Sleeping out the deficit is enough. */
  lemma {:induction false} DeficitIsSleptOut(b: Bucket, want: real, now: Time)
    requires Sane(b) && b.rate > 0.0 && b.tokens < want <= b.capacity
    requires now >= b.last + (want - b.tokens) / b.rate
    ensures Take(b, Call(now, want)).1
  {
    var d := (want - b.tokens) / b.rate;
    assert d * b.rate == want - b.tokens;
    var more := now - b.last - d;
    assert (d + more) * b.rate == d * b.rate + more * b.rate;
    TimesRate(more, b.rate);
    if d < 0.0 { NegativeProduct(d, b.rate); }
  }

  class TokenBucket {
    const rate: real
    const capacity: real
    const clock: Clock
    var tokens: real
    var last: Time

    ghost function View(): Bucket
      reads this
    {
      Bucket(rate, capacity, tokens, last)
    }

    ghost predicate Valid()
      reads this, clock
    {
      rate > 0.0 && Sane(View()) && last <= clock.now
    }

    /** The source raises unless the rate is positive. */
    constructor (ratePerMinute: real, capacity: real, clock: Clock)
      requires ratePerMinute > 0.0 && capacity >= 0.0
      modifies clock
      ensures Valid() && this.clock == clock && View() == Bucket(ratePerMinute / 60.0, capacity, capacity, clock.now)
    {
      this.rate, this.capacity, this.clock := ratePerMinute / 60.0, capacity, clock;
      this.tokens := capacity;
      var t := clock.Read();
      this.last := t;
    }

    /** `_refill_and_take`: the deficit, or none. */
    method RefillAndTake(want: real) returns (taken: bool, deficit: real)
      requires Valid() && want >= 0.0
      modifies this, clock
      ensures Valid() && clock.now >= old(clock.now)
      ensures (View(), taken) == Take(old(View()), Call(clock.now, want))
      ensures !taken ==> deficit == want - tokens > 0.0
    {
      ghost var b := View();
      var now := clock.Read();
      TakeIsSane(b, Call(now, want));
      var elapsed := Max(0.0, now - last);
      last := now;
      tokens := Min(capacity, tokens + Earned(elapsed, rate));
      if tokens >= want {
        tokens := tokens - want;
        return true, 0.0;
      }
      taken, deficit := false, want - tokens;
    }

    /** Without contention: at most two attempts, and the same as one take at the time the call
        returns. False is the ValueError for more than a full bucket. */
    method Acquire(want: real) returns (ok: bool, attempts: nat)
      requires Valid() && want >= 0.0
      modifies this, clock
      ensures ok <==> want <= capacity
      ensures ok ==> 1 <= attempts <= 2 && Valid() && (View(), true) == Take(old(View()), Call(last, want))
      ensures !ok ==> View() == old(View()) && clock.now == old(clock.now)
    {
      attempts := 0;
      if want > capacity { return false, attempts; }
      ghost var b := View();
      while true
        invariant Valid() && attempts <= 1
        invariant attempts == 0 ==> View() == b
        invariant attempts == 1 ==>
            && b.last <= last && (View(), false) == Take(b, Call(last, want))
            && clock.now >= last + (want - tokens) / rate
        decreases 1 - attempts
      {
        ghost var v := View();
        var taken, deficit := RefillAndTake(want);
        if attempts == 1 {
          DeficitIsSleptOut(v, want, last);
          WaitingIsOneTake(b, Call(v.last, want), Call(last, want));
        }
        attempts := attempts + 1;
        if taken { return true, attempts; }
        PositiveRatio(deficit, rate);
        clock.Sleep(deficit / rate);
      }
    }
  }

  lemma {:induction false} PositiveRatio(a: real, b: real)
    requires a > 0.0 && b > 0.0
    ensures a / b >= 0.0
  {
    var q := a / b;
    assert q * b == a;
    if q < 0.0 { NegativeProduct(q, b); }
  }

  lemma {:induction false} NegativeProduct(q: real, b: real)
    requires q < 0.0 && b > 0.0
    ensures q * b < 0.0
  {
  }
}
