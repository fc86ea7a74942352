/** The per-caller, non-blocking rate limiter of the API (apps/api/api/ratelimit.py). */
module RateLimiter {
  import opened TokenBucket

  datatype Request = Request(key: string, now: Time)

  /** One caller's requests, as calls for one token each. */
  function CallsOf(history: seq<Request>, key: string): seq<Call> {
    if history == [] then []
    else CallsOf(history[..|history| - 1], key)
         + if history[|history| - 1].key == key then [Call(history[|history| - 1].now, 1.0)] else []
  }

  function Full(rate: real, capacity: real, now: Time): Bucket {
    Bucket(rate, capacity, capacity, now)
  }

  /** A bucket fed these calls and no others, created at the first of them. */
  function Lone(rate: real, capacity: real, calls: seq<Call>): Bucket
    requires calls != []
  {
    After(Full(rate, capacity, calls[0].now), calls)
  }

  /** What that bucket answers to the last of the calls. */
  function LoneAnswer(rate: real, capacity: real, calls: seq<Call>): bool
    requires calls != []
  {
    Take(After(Full(rate, capacity, calls[0].now), calls[..|calls| - 1]), calls[|calls| - 1]).1
  }

  lemma {:induction false} CallsGrow(history: seq<Request>, r: Request, key: string)
    ensures CallsOf(history + [r], key)
            == if r.key == key then CallsOf(history, key) + [Call(r.now, 1.0)] else CallsOf(history, key)
  {
    assert (history + [r])[..|history|] == history;
  }

  lemma {:induction false} CallsJoin(a: seq<Request>, b: seq<Request>, key: string)
    ensures CallsOf(a + b, key) == CallsOf(a, key) + CallsOf(b, key)
  {
    if b == [] {
      assert a + b == a;
    } else {
      assert (a + b)[..|a + b| - 1] == a + b[..|b| - 1];
      CallsJoin(a, b[..|b| - 1], key);
    }
  }

  /** A full bucket is as good at any earlier time. */
  lemma {:induction false} CreationTimeDoesNotMatter(rate: real, capacity: real, created: Time, c: Call)
    requires rate >= 0.0 && capacity >= 0.0 && created <= c.now
    ensures Take(Full(rate, capacity, created), c) == Take(Full(rate, capacity, c.now), c)
  {
    TimesRate(c.now - created, rate);
    TimesRate(0.0, rate);
  }

  /** One more call to a lone bucket; its first call finds a full one, whenever it was made. */
  lemma {:induction false} LoneGrows(rate: real, capacity: real, calls: seq<Call>, created: Time, c: Call)
    requires rate >= 0.0 && capacity >= 0.0 && created <= c.now
    ensures var b := if calls == [] then Full(rate, capacity, created) else Lone(rate, capacity, calls);
            Take(b, c) == (Lone(rate, capacity, calls + [c]), LoneAnswer(rate, capacity, calls + [c]))
  {
    assert (calls + [c])[..|calls|] == calls;
    if calls == [] { CreationTimeDoesNotMatter(rate, capacity, created, c); }
  }

  class LimiterBucket {
    const rate: real
    const capacity: real
    var tokens: real
    var last: Time
    ghost const created: Time
    ghost var calls: seq<Call>

    ghost function View(): Bucket
      reads this
    {
      Bucket(rate, capacity, tokens, last)
    }

    ghost predicate Valid()
      reads this
    {
      && rate >= 0.0 && capacity >= 0.0
      && View() == if calls == [] then Full(rate, capacity, created) else Lone(rate, capacity, calls)
    }

    constructor (ratePerMinute: real, capacity: real, now: Time)
      requires ratePerMinute >= 0.0 && capacity >= 0.0
      ensures Valid() && calls == [] && created == now && rate == ratePerMinute / 60.0 && this.capacity == capacity
    {
      this.rate, this.capacity := ratePerMinute / 60.0, capacity;
      this.tokens, this.last := capacity, now;
      this.created, this.calls := now, [];
    }

    method TryAcquire(now: Time) returns (ok: bool)
      requires Valid() && (calls == [] ==> created <= now)
      modifies this
      ensures Valid() && calls == old(calls) + [Call(now, 1.0)]
      ensures (View(), ok) == Take(old(View()), Call(now, 1.0))
      ensures ok == LoneAnswer(rate, capacity, calls)
    {
      LoneGrows(rate, capacity, calls, if calls == [] then created else now, Call(now, 1.0));
      var elapsed := Max(0.0, now - last);
      last := now;
      tokens := Min(capacity, tokens + Earned(elapsed, rate));
      ok := tokens >= 1.0;
      if ok { tokens := tokens - 1.0; }
      calls := calls + [Call(now, 1.0)];
    }
  }

  class RateLimiter {
    const ratePerMinute: real
    const capacity: real
    var buckets: map<string, LimiterBucket>
    ghost var repr: set<LimiterBucket>      // every bucket in the map
    ghost var history: seq<Request>

    /** Each caller's bucket is the lone bucket of that caller's calls. */
    ghost predicate Valid()
      reads this, repr
    {
      ratePerMinute >= 0.0 && capacity >= 0.0 && Separate() && forall k :: Kept(k)
    }

    ghost predicate Separate()
      reads this
    {
      && (forall k :: k in buckets ==> buckets[k] in repr)
      && (forall k, l :: k in buckets && l in buckets && k != l ==> buckets[k] != buckets[l])
    }

    ghost predicate Kept(key: string)
      reads this, repr
    {
      if key !in buckets then CallsOf(history, key) == []
      else
        var b := buckets[key];
        && b in repr && b.Valid() && b.rate == ratePerMinute / 60.0 && b.capacity == capacity
        && b.calls == CallsOf(history, key) && b.calls != []
    }

    constructor (ratePerMinute: real, capacity: real)
      requires ratePerMinute >= 0.0 && capacity >= 0.0
      ensures Valid() && history == [] && this.ratePerMinute == ratePerMinute && this.capacity == capacity
    {
      this.ratePerMinute, this.capacity := ratePerMinute, capacity;
      buckets, repr, history := map[], {}, [];
    }

    /** The caller's bucket, a full one if there was none. */
    method BucketFor(key: string, created: Time) returns (bucket: LimiterBucket)
      requires Valid()
      modifies this`buckets, this`repr
      ensures repr == old(repr) + {bucket}
      ensures Separate() && key in buckets && buckets[key] == bucket && bucket.Valid()
      ensures buckets.Keys == old(buckets.Keys) + {key}
              && (key !in old(buckets) ==> fresh(bucket) && bucket.created == created)
      ensures forall k :: k in old(buckets) ==> buckets[k] == old(buckets[k])
      ensures forall k :: k in old(buckets) && k != key ==> buckets[k] != bucket
      ensures bucket.rate == ratePerMinute / 60.0 && bucket.capacity == capacity
              && bucket.calls == CallsOf(history, key)
      ensures bucket.calls == [] ==> bucket.created == created
    {
      assert Kept(key);
      if key in buckets {
        bucket := buckets[key];
      } else {
        bucket := new LimiterBucket(ratePerMinute, capacity, created);
        buckets, repr := buckets[key := bucket], repr + {bucket};
      }
    }

    /** The answer a lone bucket would give; `created` is the clock when a new bucket reads it. */
    method Check(key: string, created: Time, now: Time) returns (ok: bool)
      requires Valid() && created <= now
      modifies this, repr
      ensures Valid() && fresh(repr - old(repr)) && history == old(history) + [Request(key, now)]
      ensures CallsOf(history, key) == old(CallsOf(history, key)) + [Call(now, 1.0)]
      ensures ok == LoneAnswer(ratePerMinute / 60.0, capacity, CallsOf(history, key))
      ensures forall k :: k in old(buckets) ==> k in buckets && buckets[k] == old(buckets[k])
      ensures forall k :: k in old(buckets) && k != key ==> buckets[k].View() == old(buckets[k].View())
    {
      var bucket := BucketFor(key, created);
      ok := bucket.TryAcquire(now);
      history := history + [Request(key, now)];
      CallsGrow(old(history), Request(key, now), key);
      forall k
        ensures Kept(k)
      {
        if k != key {
          assert old(Kept(k));
          CallsGrow(old(history), Request(key, now), k);
        }
      }
    }
  }

  /** Requests of other callers change nothing for `key`. */
  lemma {:induction false} OthersDoNotCount(history: seq<Request>, key: string, others: seq<Request>)
    requires forall r <- others :: r.key != key
    ensures CallsOf(history + others, key) == CallsOf(history, key)
  {
    if others == [] {
      assert history + others == history;
    } else {
      var n := |others| - 1;
      OthersDoNotCount(history, key, others[..n]);
      CallsGrow(history + others[..n], others[n], key);
      assert history + others == history + others[..n] + [others[n]];
    }
  }

  lemma {:induction false} OneTokenCalls(history: seq<Request>, key: string)
    requires forall i, j :: 0 <= i < j < |history| ==> history[i].now <= history[j].now
    ensures NeverBack(CallsOf(history, key)) && Wants(CallsOf(history, key))
    ensures forall c <- CallsOf(history, key) :: c.want == 1.0 && c.now <= history[|history| - 1].now
  {
    if history != [] { OneTokenCalls(history[..|history| - 1], key); }
  }

  /** Requests answered with yes, of a lone bucket's calls. */
  function GrantsOf(rate: real, capacity: real, calls: seq<Call>): real {
    if calls == [] then 0.0 else Granted(Full(rate, capacity, calls[0].now), calls)
  }

  lemma {:induction false} WindowOfCalls(rate: real, capacity: real, first: seq<Call>, calls: seq<Call>)
    requires rate >= 0.0 && capacity >= 0.0 && calls != [] && Wants(first) && Wants(calls) && NeverBack(calls)
    ensures GrantsOf(rate, capacity, first + calls)
         <= GrantsOf(rate, capacity, first) + capacity + Earned(calls[|calls| - 1].now - calls[0].now, rate)
  {
    if first == [] {
      assert first + calls == calls;
      WindowFromHere(Full(rate, capacity, calls[0].now), calls);
    } else {
      WindowBound(Full(rate, capacity, first[0].now), first, calls);
    }
  }

  /** For every interleaving of callers, what one caller gets within any window of requests is at
      most capacity + rate * (its last request there - its first). */
  lemma {:induction false} WindowPerCaller(rate: real, capacity: real, before: seq<Request>, window: seq<Request>,
          key: string)
    requires rate >= 0.0 && capacity >= 0.0 && CallsOf(window, key) != []
    requires forall i, j :: 0 <= i < j < |window| ==> window[i].now <= window[j].now
    ensures var calls := CallsOf(window, key);
            GrantsOf(rate, capacity, CallsOf(before + window, key))
            <= GrantsOf(rate, capacity, CallsOf(before, key)) + capacity
                + Earned(calls[|calls| - 1].now - calls[0].now, rate)
  {
    CallsJoin(before, window, key);
    OneTokenCalls(window, key);
    AllWantOne(before, key);
    WindowOfCalls(rate, capacity, CallsOf(before, key), CallsOf(window, key));
  }

  lemma {:induction false} AllWantOne(history: seq<Request>, key: string)
    ensures Wants(CallsOf(history, key))
  {
    if history != [] { AllWantOne(history[..|history| - 1], key); }
  }
}
