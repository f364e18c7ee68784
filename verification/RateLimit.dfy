/**
 The in-memory rate limiters: a log of recent admissions and a token bucket, per key.
 Clock readings and tokens are reals, so rounding is not modelled.
 */
module RateLimit {

  /* ---- the two limiters as they run ---- */

  class RateLimiter {
    var hits: map<string, seq<real>>
    var buckets: map<string, Bucket>

    constructor ()
      ensures hits == map[] && buckets == map[]
    {
      hits, buckets := map[], map[];
    }

    // rate_limit.allow
    method Allow(key: string, limit: int, windowSeconds: real, now: real) returns (ok: bool)
      modifies this`hits
      ensures var q := if key in old(hits) then old(hits)[key] else [];
              (hits, ok) == (old(hits)[key := LogStep(q, now, limit, windowSeconds).0],
                             LogStep(q, now, limit, windowSeconds).1)
    {
      var q := if key in hits then hits[key] else [];
      ghost var q0 := q;
      while |q| > 0 && now - q[0] > windowSeconds
        invariant Expire(q, now, windowSeconds) == Expire(q0, now, windowSeconds)
        decreases |q|
      {
        q := q[1..];
      }
      if |q| >= limit {
        hits := hits[key := q];
        return false;
      }
      hits := hits[key := q + [now]];
      return true;
    }

    // rate_limit.allow_token_bucket
    method AllowTokenBucket(key: string, capacity: int, refill: real, now: real) returns (ok: bool)
      modifies this`buckets
      ensures var b := if key in old(buckets) then old(buckets)[key] else Bucket(capacity as real, now);
              (buckets, ok) == (old(buckets)[key := BucketStep(b, now, capacity, refill).0],
                                BucketStep(b, now, capacity, refill).1)
    {
      var b := if key in buckets then buckets[key] else Bucket(capacity as real, now);
      var elapsed := if now - b.last > 0.0 then now - b.last else 0.0;
      var tokens := b.tokens + elapsed * refill;
      if tokens > capacity as real {
        tokens := capacity as real;
      }
      assert elapsed == MaxReal(0.0, now - b.last);
      assert tokens == MinReal(capacity as real, b.tokens + MaxReal(0.0, now - b.last) * refill);
      if tokens < 1.0 {
        buckets := buckets[key := Bucket(tokens, now)];
        return false;
      }
      buckets := buckets[key := Bucket(tokens - 1.0, now)];
      return true;
    }
  }

  /* ---- one call ---- */

  // The queue without the readings that left the window, oldest first.
  function Expire(q: seq<real>, now: real, window: real): seq<real> {
    if q != [] && now - q[0] > window then Expire(q[1..], now, window) else q
  }

  function LogStep(q: seq<real>, now: real, limit: int, window: real): (seq<real>, bool) {
    var live := Expire(q, now, window);
    if |live| >= limit then (live, false) else (live + [now], true)
  }

  datatype Bucket = Bucket(tokens: real, last: real)

  function MinReal(a: real, b: real): real { if a <= b then a else b }

  function MaxReal(a: real, b: real): real { if a >= b then a else b }

  function BucketStep(b: Bucket, now: real, capacity: int, refill: real): (Bucket, bool) {
    var tokens := MinReal(capacity as real, b.tokens + MaxReal(0.0, now - b.last) * refill);
    if tokens < 1.0 then (Bucket(tokens, now), false) else (Bucket(tokens - 1.0, now), true)
  }

  /* ---- histories of one key ---- */

  ghost predicate Ascending(times: seq<real>) {
    forall i, j :: 0 <= i < j < |times| ==> times[i] <= times[j]
  }

  predicate AtLeast(times: seq<real>, lo: real) {
    forall i :: 0 <= i < |times| ==> times[i] >= lo
  }

  predicate AtMost(times: seq<real>, hi: real) {
    forall i :: 0 <= i < |times| ==> times[i] <= hi
  }

  predicate AllBefore(times: seq<real>, lo: real) {
    forall i :: 0 <= i < |times| ==> times[i] < lo
  }

  // The queue, and all admissions so far, after calls at the given times.
  function Queue(times: seq<real>, limit: int, window: real): seq<real> {
    if times == [] then []
    else LogStep(Queue(times[..|times| - 1], limit, window), times[|times| - 1], limit, window).0
  }

  function Admitted(times: seq<real>, limit: int, window: real): seq<real> {
    if times == [] then []
    else
      var front, now := times[..|times| - 1], times[|times| - 1];
      Admitted(front, limit, window)
      + (if LogStep(Queue(front, limit, window), now, limit, window).1 then [now] else [])
  }

  // The admissions at or after `lo`, and those inside the closed interval [lo, hi].
  function From(times: seq<real>, lo: real): seq<real> {
    if times == [] then []
    else (if times[0] >= lo then [times[0]] else []) + From(times[1..], lo)
  }

  function Within(times: seq<real>, lo: real, hi: real): seq<real> {
    if times == [] then []
    else (if lo <= times[0] <= hi then [times[0]] else []) + Within(times[1..], lo, hi)
  }

  // The limiter written naively: keep every admission, count those in the window.
  function NaiveAdmitted(times: seq<real>, limit: int, window: real): seq<real> {
    if times == [] then []
    else
      var before, now := NaiveAdmitted(times[..|times| - 1], limit, window), times[|times| - 1];
      if |Within(before, now - window, now)| < limit then before + [now] else before
  }

  lemma FromNext(times: seq<real>, lo: real)
    requires times != []
    ensures From(times, lo) == (if times[0] >= lo then [times[0]] else []) + From(times[1..], lo)
  {
  }

  lemma WithinNext(times: seq<real>, lo: real, hi: real)
    requires times != []
    ensures Within(times, lo, hi) == (if lo <= times[0] <= hi then [times[0]] else []) + Within(times[1..], lo, hi)
  {
  }

  lemma {:induction false} FromSplit(a: seq<real>, b: seq<real>, lo: real)
    ensures From(a + b, lo) == From(a, lo) + From(b, lo)
  {
    if a == [] {
      assert a + b == b;
    } else {
      assert (a + b)[1..] == a[1..] + b && (a + b)[0] == a[0];
      FromSplit(a[1..], b, lo);
      FromNext(a, lo);
      FromNext(a + b, lo);
      hide From;
    }
  }

  lemma {:induction false} WithinSplit(a: seq<real>, b: seq<real>, lo: real, hi: real)
    ensures Within(a + b, lo, hi) == Within(a, lo, hi) + Within(b, lo, hi)
  {
    if a == [] {
      assert a + b == b;
    } else {
      assert (a + b)[1..] == a[1..] + b && (a + b)[0] == a[0];
      WithinSplit(a[1..], b, lo, hi);
      WithinNext(a, lo, hi);
      WithinNext(a + b, lo, hi);
      hide Within;
    }
  }

  lemma {:induction false} FromFrom(times: seq<real>, lo: real, later: real)
    requires lo <= later
    ensures From(From(times, lo), later) == From(times, later)
  {
    if times != [] {
      FromFrom(times[1..], lo, later);
      FromSplit(if times[0] >= lo then [times[0]] else [], From(times[1..], lo), later);
    }
  }

  lemma {:induction false} FromAll(times: seq<real>, lo: real)
    requires AtLeast(times, lo)
    ensures From(times, lo) == times
  {
    if times != [] {
      FromAll(times[1..], lo);
    }
  }

  lemma {:induction false} ExpireIsFrom(q: seq<real>, now: real, window: real)
    requires Ascending(q)
    ensures Expire(q, now, window) == From(q, now - window)
  {
    if q != [] {
      if now - q[0] > window {
        ExpireIsFrom(q[1..], now, window);
      } else {
        FromAll(q, now - window);
      }
    }
  }

  lemma {:induction false} WithinIsFrom(times: seq<real>, lo: real, hi: real)
    requires AtMost(times, hi)
    ensures Within(times, lo, hi) == From(times, lo)
  {
    if times != [] {
      WithinIsFrom(times[1..], lo, hi);
    }
  }

  lemma {:induction false} WithinAtMostFrom(times: seq<real>, lo: real, hi: real, earlier: real)
    requires earlier <= lo
    ensures |Within(times, lo, hi)| <= |From(times, earlier)|
  {
    if times != [] {
      WithinAtMostFrom(times[1..], lo, hi, earlier);
    }
  }

  lemma {:induction false} FromAscends(times: seq<real>, lo: real)
    requires Ascending(times)
    ensures Ascending(From(times, lo))
    ensures times != [] ==> AtLeast(From(times, lo), times[0])
  {
    if times != [] {
      FromAscends(times[1..], lo);
    }
  }

  // Admissions happen in call order.
  lemma {:induction false} AdmittedAscends(times: seq<real>, limit: int, window: real)
    requires Ascending(times)
    ensures Ascending(Admitted(times, limit, window))
    ensures if times == [] then Admitted(times, limit, window) == []
            else AtMost(Admitted(times, limit, window), times[|times| - 1])
  {
    if times != [] {
      AdmittedAscends(times[..|times| - 1], limit, window);
    }
  }

  /** After every call the queue is exactly the admissions still inside the window. */
  lemma {:induction false} QueueIsWindow(times: seq<real>, limit: int, window: real)
    requires Ascending(times) && times != [] && window >= 0.0
    ensures Queue(times, limit, window) == From(Admitted(times, limit, window), times[|times| - 1] - window)
    decreases |times|, 0
  {
    var front, now := times[..|times| - 1], times[|times| - 1];
    LiveQueue(front, now, limit, window);
    var before := Admitted(front, limit, window);
    if LogStep(Queue(front, limit, window), now, limit, window).1 {
      FromSplit(before, [now], now - window);
    } else {
      assert before + [] == before;
    }
  }

  // What a call at `now` finds after expiry.
  lemma {:induction false} LiveQueue(front: seq<real>, now: real, limit: int, window: real)
    requires Ascending(front + [now]) && window >= 0.0
    ensures Expire(Queue(front, limit, window), now, window) == From(Admitted(front, limit, window), now - window)
    decreases |front|, 1
  {
    assert forall i :: 0 <= i < |front| ==> (front + [now])[i] == front[i];
    if front != [] {
      var last := front[|front| - 1];
      assert (front + [now])[|front| - 1] <= (front + [now])[|front|];
      assert front[..|front| - 1] + [last] == front;
      QueueIsWindow(front, limit, window);
      AdmittedAscends(front, limit, window);
      FromAscends(Admitted(front, limit, window), last - window);
      ExpireIsFrom(Queue(front, limit, window), now, window);
      FromFrom(Admitted(front, limit, window), last - window, now - window);
    }
  }

  /** The queue admits the same calls as the naive limiter that forgets nothing. */
  lemma {:induction false} QueueRefinesNaive(times: seq<real>, limit: int, window: real)
    requires Ascending(times) && window >= 0.0
    ensures Admitted(times, limit, window) == NaiveAdmitted(times, limit, window)
  {
    if times != [] {
      var front, now := times[..|times| - 1], times[|times| - 1];
      QueueRefinesNaive(front, limit, window);
      SameTest(front, now, limit, window);
      hide Ascending, Queue, LogStep, Within;
    }
  }

  // The live queue and the naive count decide alike.
  lemma SameTest(front: seq<real>, now: real, limit: int, window: real)
    requires Ascending(front + [now]) && window >= 0.0
    ensures LogStep(Queue(front, limit, window), now, limit, window).1
            <==> |Within(Admitted(front, limit, window), now - window, now)| < limit
  {
    hide Queue, Admitted, From, Within, Ascending, AtMost;
    AscendsInFront(front, now);
    LiveQueue(front, now, limit, window);
    AdmittedAscends(front, limit, window);
    AtMostLater(Admitted(front, limit, window), if front == [] then now else front[|front| - 1], now);
    WithinIsFrom(Admitted(front, limit, window), now - window, now);
  }

  lemma AscendsInFront(front: seq<real>, now: real)
    requires Ascending(front + [now])
    ensures Ascending(front) && (front != [] ==> front[|front| - 1] <= now)
  {
    var all := front + [now];
    assert forall i :: 0 <= i < |front| ==> all[i] == front[i];
    if front != [] { assert all[|front| - 1] <= all[|front|]; }
  }

  lemma AtMostLater(times: seq<real>, hi: real, later: real)
    requires hi <= later && (times == [] || AtMost(times, hi))
    ensures AtMost(times, later)
  {
  }

  /** No closed window of the configured length ever holds more than `limit` admissions. */
  lemma {:induction false} WindowBound(times: seq<real>, limit: int, window: real, start: real)
    requires Ascending(times) && window >= 0.0
    ensures |Within(Admitted(times, limit, window), start, start + window)| <= if limit > 0 then limit else 0
  {
    if times != [] {
      var front, now := times[..|times| - 1], times[|times| - 1];
      var before := Admitted(front, limit, window);
      assert front + [now] == times;
      WindowBound(front, limit, window, start);
      if LogStep(Queue(front, limit, window), now, limit, window).1 {
        WithinSplit(before, [now], start, start + window);
        if start <= now <= start + window {
          LiveQueue(front, now, limit, window);
          WithinAtMostFrom(before, start, start + window, now - window);
        }
      } else {
        assert before + [] == before;
      }
    }
  }

  /* ---- the token bucket ---- */

  // Bucket and answer after each call at the given times; a key's first call finds it full.
  function BucketRun(times: seq<real>, capacity: int, refill: real): (results: seq<(Bucket, bool)>)
    ensures |results| == |times|
  {
    if times == [] then []
    else
      var earlier, now := BucketRun(times[..|times| - 1], capacity, refill), times[|times| - 1];
      var b := if earlier == [] then Bucket(capacity as real, now) else earlier[|earlier| - 1].0;
      earlier + [BucketStep(b, now, capacity, refill)]
  }

  // The admitted calls made in the closed interval [s, t].
  function AdmittedIn(times: seq<real>, results: seq<(Bucket, bool)>, s: real, t: real): nat
    requires |times| == |results|
  {
    if times == [] then 0
    else
      var n := |times| - 1;
      AdmittedIn(times[..n], results[..n], s, t) + (if results[n].1 && s <= times[n] <= t then 1 else 0)
  }

  lemma BucketRunFront(times: seq<real>, capacity: int, refill: real)
    requires times != []
    ensures var results, n := BucketRun(times, capacity, refill), |times| - 1;
            && results[..n] == BucketRun(times[..n], capacity, refill)
            && results[n] == BucketStep(if n == 0 then Bucket(capacity as real, times[0])
                                        else BucketRun(times[..n], capacity, refill)[n - 1].0,
                                        times[n], capacity, refill)
  {
  }

  function Spent(result: (Bucket, bool)): real {
    result.0.tokens + if result.1 then 1.0 else 0.0
  }

  // What one call leaves and spends: never more than a full bucket, never more than the
  // bucket held plus the refill since its last call.
  lemma StepSpends(b: Bucket, now: real, capacity: int, refill: real)
    requires b.last <= now && capacity >= 0 && refill >= 0.0 && b.tokens >= 0.0
    ensures var after := BucketStep(b, now, capacity, refill);
            && Spent(after) <= capacity as real
            && Spent(after) <= b.tokens + (Refilled(now, refill) - Refilled(b.last, refill))
            && 0.0 <= after.0.tokens <= capacity as real
            && after.0.last == now
  {
  }

  // Tokens that a refill rate yields from time zero to time `t`.
  function Refilled(t: real, refill: real): real {
    t * refill
  }

  lemma Stretch(a: real, b: real, refill: real)
    ensures a * refill + b * refill == (a + b) * refill
  {
  }

  lemma Longer(a: real, b: real, refill: real)
    requires a <= b && refill >= 0.0
    ensures Refilled(a, refill) <= Refilled(b, refill)
  {
  }

  /** Stored tokens never leave [0, capacity]. */
  lemma {:induction false} TokensInRange(times: seq<real>, capacity: int, refill: real, i: nat)
    requires Ascending(times) && i < |times| && capacity >= 0 && refill >= 0.0
    ensures var results := BucketRun(times, capacity, refill);
            && 0.0 <= results[i].0.tokens <= capacity as real
            && results[i].0.last == times[i]
            && Spent(results[i]) <= capacity as real
            && (i > 0 ==> Spent(results[i]) <= results[i - 1].0.tokens
                                               + (Refilled(times[i], refill) - Refilled(times[i - 1], refill)))
    decreases |times|
  {
    hide BucketStep, Refilled;
    var n := |times| - 1;
    BucketRunFront(times, capacity, refill);
    if i < n {
      TokensInRange(times[..n], capacity, refill, i);
    } else if i > 0 {
      TokensInRange(times[..n], capacity, refill, i - 1);
      StepSpends(BucketRun(times[..n], capacity, refill)[n - 1].0, times[n], capacity, refill);
    } else {
      StepSpends(Bucket(capacity as real, times[0]), times[0], capacity, refill);
    }
  }

  // `level` is refilled time: spending is bounded by what a full bucket holds and by how
  // far the level rose.
  ghost predicate Metered(results: seq<(Bucket, bool)>, level: seq<real>, full: real) {
    && |results| == |level|
    && (forall i :: 0 <= i < |results| ==> 0.0 <= results[i].0.tokens && Spent(results[i]) <= full)
    && (forall i :: 0 < i < |results| ==> Spent(results[i]) <= results[i - 1].0.tokens + (level[i] - level[i - 1]))
  }

  // Admissions since `s` plus the tokens left never exceed a full bucket plus its refill.
  lemma {:induction false} Potential(times: seq<real>, results: seq<(Bucket, bool)>, level: seq<real>, full: real,
                                     s: real, t: real, base: real)
    requires Ascending(times) && |times| == |results| > 0 && Metered(results, level, full)
    requires s <= times[|times| - 1] <= t
    requires forall i :: 0 <= i < |times| && times[i] >= s ==> level[i] >= base
    ensures AdmittedIn(times, results, s, t) as real + results[|results| - 1].0.tokens
            <= full + (level[|level| - 1] - base)
    decreases |times|
  {
    var n := |times| - 1;
    if n > 0 && times[n - 1] >= s {
      Potential(times[..n], results[..n], level[..n], full, s, t, base);
    } else {
      NoneAdmittedBefore(times[..n], results[..n], s, t);
    }
  }

  lemma {:induction false} NoneAdmittedBefore(times: seq<real>, results: seq<(Bucket, bool)>, s: real, t: real)
    requires |times| == |results| && AllBefore(times, s)
    ensures AdmittedIn(times, results, s, t) == 0
  {
    if times != [] {
      var n := |times| - 1;
      NoneAdmittedBefore(times[..n], results[..n], s, t);
    }
  }

  // Refilled time of each call.
  function Levels(times: seq<real>, refill: real): (level: seq<real>)
    ensures |level| == |times| && forall i :: 0 <= i < |times| ==> level[i] == Refilled(times[i], refill)
  {
    seq(|times|, i requires 0 <= i < |times| => Refilled(times[i], refill))
  }

  lemma RunIsMetered(times: seq<real>, capacity: int, refill: real)
    requires Ascending(times) && capacity >= 0 && refill >= 0.0
    ensures Metered(BucketRun(times, capacity, refill), Levels(times, refill), capacity as real)
  {
    hide BucketStep, BucketRun, Refilled;
    forall i | 0 <= i < |times|
      ensures var results := BucketRun(times, capacity, refill);
              0.0 <= results[i].0.tokens && Spent(results[i]) <= capacity as real
      ensures var results, level := BucketRun(times, capacity, refill), Levels(times, refill);
              i > 0 ==> Spent(results[i]) <= results[i - 1].0.tokens + (level[i] - level[i - 1])
    {
      TokensInRange(times, capacity, refill, i);
    }
  }

  // A run whose last call lies in [s, t].
  lemma BoundAtLastCall(times: seq<real>, capacity: int, refill: real, s: real, t: real)
    requires Ascending(times) && times != [] && capacity >= 0 && refill >= 0.0
    requires s <= times[|times| - 1] <= t
    ensures AdmittedIn(times, BucketRun(times, capacity, refill), s, t) as real
            <= capacity as real + (Refilled(t, refill) - Refilled(s, refill))
  {
    hide BucketStep, BucketRun, Refilled;
    var n := |times| - 1;
    var level := Levels(times, refill);
    RunIsMetered(times, capacity, refill);
    forall i | 0 <= i < |times| && times[i] >= s
      ensures level[i] >= Refilled(s, refill)
    {
      Longer(s, times[i], refill);
    }
    Longer(times[n], t, refill);
    Potential(times, BucketRun(times, capacity, refill), level, capacity as real, s, t, Refilled(s, refill));
  }

  lemma {:induction false} BoundByRefill(times: seq<real>, capacity: int, refill: real, s: real, t: real)
    requires Ascending(times) && capacity >= 0 && refill >= 0.0 && s <= t
    ensures AdmittedIn(times, BucketRun(times, capacity, refill), s, t) as real
            <= capacity as real + (Refilled(t, refill) - Refilled(s, refill))
    decreases |times|
  {
    hide BucketStep, Refilled;
    Longer(s, t, refill);
    if times != [] {
      var n := |times| - 1;
      BucketRunFront(times, capacity, refill);
      if times[n] > t {
        BoundByRefill(times[..n], capacity, refill, s, t);
      } else if times[n] < s {
        NoneAdmittedBefore(times, BucketRun(times, capacity, refill), s, t);
      } else {
        BoundAtLastCall(times, capacity, refill, s, t);
      }
    }
  }

  /** In any interval [s, t] a key is admitted at most capacity + refill * (t - s) times. */
  lemma BucketBound(times: seq<real>, capacity: int, refill: real, s: real, t: real)
    requires Ascending(times) && capacity >= 0 && refill >= 0.0 && s <= t
    ensures AdmittedIn(times, BucketRun(times, capacity, refill), s, t) as real
            <= capacity as real + refill * (t - s)
  {
    hide BucketStep, BucketRun, AdmittedIn;
    BoundByRefill(times, capacity, refill, s, t);
    Stretch(s, t - s, refill);
  }

  // How many of the calls j, ..., n - 1 were admitted.
  function AdmittedBetween(results: seq<(Bucket, bool)>, j: nat, n: nat): nat
    requires n <= |results|
    decreases n
  {
    if n <= j then 0 else AdmittedBetween(results, j, n - 1) + (if results[n - 1].1 then 1 else 0)
  }

  // The interval from call j to the last call still has room for `x` after the admissions in it.
  ghost predicate RoomSince(times: seq<real>, results: seq<(Bucket, bool)>, capacity: int, refill: real, j: nat,
                            x: real)
    requires j < |times| == |results|
  {
    AdmittedBetween(results, j, |times|) as real + x
    <= capacity as real + (Refilled(times[|times| - 1], refill) - Refilled(times[j], refill))
  }

  // What one call at or after the last leaves, against a threshold.
  lemma StepLeaves(b: Bucket, now: real, capacity: int, refill: real, x: real)
    requires b.last <= now
    ensures var after := BucketStep(b, now, capacity, refill);
            var spent := if after.1 then 1.0 else 0.0;
            && after.0.last == now
            && (after.0.tokens >= x <==>
                  && x + spent <= capacity as real
                  && b.tokens >= x + spent - (Refilled(now, refill) - Refilled(b.last, refill)))
            && (after.1 <==> 1.0 <= capacity as real
                             && b.tokens >= 1.0 - (Refilled(now, refill) - Refilled(b.last, refill)))
  {
    assert (now - b.last) * refill == now * refill - b.last * refill;
  }

  lemma BetweenFront(results: seq<(Bucket, bool)>, j: nat, n: nat, m: nat)
    requires n <= m <= |results|
    ensures AdmittedBetween(results[..m], j, n) == AdmittedBetween(results, j, n)
  {
  }

  lemma RoomNext(times: seq<real>, results: seq<(Bucket, bool)>, capacity: int, refill: real, j: nat, x: real,
                 prior: real)
    requires j < |times| - 1 && |times| == |results|
    requires prior == x + (if results[|times| - 1].1 then 1.0 else 0.0)
                      - (Refilled(times[|times| - 1], refill) - Refilled(times[|times| - 2], refill))
    ensures RoomSince(times, results, capacity, refill, j, x)
            <==> RoomSince(times[..|times| - 1], results[..|times| - 1], capacity, refill, j, prior)
  {
    BetweenFront(results, j, |times| - 1, |times| - 1);
    hide Refilled;
  }

  lemma RoomNow(times: seq<real>, results: seq<(Bucket, bool)>, capacity: int, refill: real, x: real)
    requires times != [] && |times| == |results|
    ensures var k := |times| - 1;
            RoomSince(times, results, capacity, refill, k, x)
            <==> x + (if results[k].1 then 1.0 else 0.0) <= capacity as real
  {
    var k := |times| - 1;
    assert AdmittedBetween(results, k, k) == 0;
  }

  ghost predicate RoomEverywhere(times: seq<real>, results: seq<(Bucket, bool)>, capacity: int, refill: real, x: real)
    requires |times| == |results|
  {
    forall j: nat :: j < |times| ==> RoomSince(times, results, capacity, refill, j, x)
  }

  lemma RoomEverywhereNext(times: seq<real>, results: seq<(Bucket, bool)>, capacity: int, refill: real, x: real,
                           prior: real)
    requires |times| == |results| > 1
    requires prior == x + (if results[|times| - 1].1 then 1.0 else 0.0)
                      - (Refilled(times[|times| - 1], refill) - Refilled(times[|times| - 2], refill))
    ensures var k := |times| - 1;
            RoomEverywhere(times, results, capacity, refill, x)
            <==> && x + (if results[k].1 then 1.0 else 0.0) <= capacity as real
                 && RoomEverywhere(times[..k], results[..k], capacity, refill, prior)
  {
    var k := |times| - 1;
    RoomNow(times, results, capacity, refill, x);
    hide RoomSince, Refilled;
    var front, earlier := times[..k], results[..k];
    forall j: nat | j < k
      ensures RoomSince(times, results, capacity, refill, j, x)
              <==> RoomSince(front, earlier, capacity, refill, j, prior)
    {
      RoomNext(times, results, capacity, refill, j, x, prior);
    }
    assert RoomEverywhere(times, results, capacity, refill, x) ==>
        RoomSince(times, results, capacity, refill, k, x);
  }

  // The tokens after the last call are the least room that any interval ending there has left.
  lemma {:induction false} TokensAreLeastRoom(times: seq<real>, capacity: int, refill: real, x: real)
    requires Ascending(times) && times != []
    ensures var results, k := BucketRun(times, capacity, refill), |times| - 1;
            && results[k].0.last == times[k]
            && (results[k].0.tokens >= x <==> RoomEverywhere(times, results, capacity, refill, x))
    decreases |times|
  {
    var results, k := BucketRun(times, capacity, refill), |times| - 1;
    BucketRunFront(times, capacity, refill);
    hide BucketStep, BucketRun, Refilled, RoomSince;
    if k == 0 {
      StepLeaves(Bucket(capacity as real, times[0]), times[0], capacity, refill, x);
      RoomNow(times, results, capacity, refill, x);
    } else {
      hide RoomEverywhere;
      var spent := if results[k].1 then 1.0 else 0.0;
      var rise := Refilled(times[k], refill) - Refilled(times[k - 1], refill);
      TokensAreLeastRoom(times[..k], capacity, refill, x + spent - rise);
      StepLeaves(results[k - 1].0, times[k], capacity, refill, x);
      RoomEverywhereNext(times, results, capacity, refill, x, x + spent - rise);
    }
  }

  // The interval from call j to call n has room for call n.
  ghost predicate AllowsCall(times: seq<real>, results: seq<(Bucket, bool)>, capacity: int, refill: real, j: nat,
                             n: nat)
    requires j < n < |times| == |results|
  {
    AdmittedBetween(results, j, n) as real + 1.0 <= capacity as real + refill * (times[n] - times[j])
  }

  /** A call is admitted exactly when every interval that it ends would still hold, with it, at most
      capacity + refill * length admissions: the bucket refuses nothing that its bound allows. */
  lemma BucketAdmitsExactly(times: seq<real>, capacity: int, refill: real)
    requires Ascending(times) && times != []
    ensures var results, n := BucketRun(times, capacity, refill), |times| - 1;
            results[n].1 <==>
              1 <= capacity && forall j: nat :: j < n ==> AllowsCall(times, results, capacity, refill, j, n)
  {
    var results, n := BucketRun(times, capacity, refill), |times| - 1;
    hide BucketStep, BucketRun, Refilled, AllowsCall, RoomSince;
    BucketRunFront(times, capacity, refill);
    if n == 0 {
      StepLeaves(Bucket(capacity as real, times[0]), times[0], capacity, refill, 0.0);
    } else {
      var need := 1.0 - (Refilled(times[n], refill) - Refilled(times[n - 1], refill));
      var front, earlier := times[..n], results[..n];
      TokensAreLeastRoom(front, capacity, refill, need);
      StepLeaves(results[n - 1].0, times[n], capacity, refill, 0.0);
      forall j: nat | j < n
        ensures RoomSince(front, earlier, capacity, refill, j, need)
                <==> AllowsCall(times, results, capacity, refill, j, n)
      {
        RoomAt(times, results, capacity, refill, j, need);
      }
    }
  }

  // Room for one more at the last call, in the words of the intervals that it ends.
  lemma RoomAt(times: seq<real>, results: seq<(Bucket, bool)>, capacity: int, refill: real, j: nat, need: real)
    requires j < |times| - 1 && |times| == |results|
    requires need == 1.0 - (Refilled(times[|times| - 1], refill) - Refilled(times[|times| - 2], refill))
    ensures var n := |times| - 1;
            RoomSince(times[..n], results[..n], capacity, refill, j, need)
            <==> AllowsCall(times, results, capacity, refill, j, n)
  {
    var n := |times| - 1;
    BetweenFront(results, j, n, n);
    RefilledBetween(times[j], times[n], refill);
    hide Refilled, AdmittedBetween;
  }

  lemma RefilledBetween(a: real, b: real, refill: real)
    ensures Refilled(b, refill) - Refilled(a, refill) == refill * (b - a)
  {
  }

  /* ---- interleaved keys ---- */

  datatype Call = Call(key: string, now: real)
  datatype Quota = Quota(limit: int, window: real)

  function TimesOf(calls: seq<Call>, key: string): seq<real> {
    if calls == [] then []
    else
      var call := calls[|calls| - 1];
      TimesOf(calls[..|calls| - 1], key) + (if call.key == key then [call.now] else [])
  }

  function Lookup<T>(m: map<string, T>, key: string, default: T): T {
    if key in m then m[key] else default
  }

  // The table of queues after calls for any keys, each under its own quota.
  function HitsAfter(calls: seq<Call>, quota: string -> Quota): map<string, seq<real>> {
    if calls == [] then map[]
    else
      var hits, call := HitsAfter(calls[..|calls| - 1], quota), calls[|calls| - 1];
      var q := quota(call.key);
      hits[call.key := LogStep(Lookup(hits, call.key, []), call.now, q.limit, q.window).0]
  }

  function BucketsAfter(calls: seq<Call>, capacity: string -> int, refill: string -> real): map<string, Bucket> {
    if calls == [] then map[]
    else
      var buckets, call := BucketsAfter(calls[..|calls| - 1], capacity, refill), calls[|calls| - 1];
      var full := Bucket(capacity(call.key) as real, call.now);
      buckets[call.key :=
        BucketStep(Lookup(buckets, call.key, full), call.now, capacity(call.key), refill(call.key)).0]
  }

  /** Calls for other keys never change what a key's queue holds. */
  lemma {:induction false} KeysAreIndependent(calls: seq<Call>, quota: string -> Quota, key: string)
    ensures Lookup(HitsAfter(calls, quota), key, []) == Queue(TimesOf(calls, key), quota(key).limit, quota(key).window)
  {
    if calls != [] {
      var front, call := calls[..|calls| - 1], calls[|calls| - 1];
      KeysAreIndependent(front, quota, key);
      if call.key == key {
        var times := TimesOf(front, key);
        assert (times + [call.now])[..|times|] == times;
      } else {
        assert TimesOf(front, key) + [] == TimesOf(front, key);
      }
    }
  }

  /** Calls for other keys never change what a key's bucket holds. */
  lemma {:induction false} BucketsAreIndependent(calls: seq<Call>, capacity: string -> int,
                                                refill: string -> real, key: string)
    ensures var times, buckets := TimesOf(calls, key), BucketsAfter(calls, capacity, refill);
            && (key in buckets <==> times != [])
            && (times != [] ==> buckets[key] == BucketRun(times, capacity(key), refill(key))[|times| - 1].0)
  {
    if calls != [] {
      var front, call := calls[..|calls| - 1], calls[|calls| - 1];
      BucketsAreIndependent(front, capacity, refill, key);
      if call.key == key {
        var times := TimesOf(front, key) + [call.now];
        assert times[..|times| - 1] == TimesOf(front, key);
        BucketRunFront(times, capacity(key), refill(key));
      } else {
        assert TimesOf(front, key) + [] == TimesOf(front, key);
      }
    }
  }

  /* ---- the answers to interleaved calls ---- */

  // The calls of one key that were answered true, in a sequence of calls for any keys.
  function LogAdmits(calls: seq<Call>, quota: string -> Quota, key: string): seq<real> {
    if calls == [] then []
    else
      var front, call, q := calls[..|calls| - 1], calls[|calls| - 1], quota(key);
      LogAdmits(front, quota, key)
      + (if call.key == key && LogStep(Lookup(HitsAfter(front, quota), key, []), call.now, q.limit, q.window).1
         then [call.now] else [])
  }

  // How many calls of one key inside [s, t] the bucket answered true.
  function BucketAdmits(calls: seq<Call>, capacity: string -> int, refill: string -> real, key: string,
                        s: real, t: real): nat {
    if calls == [] then 0
    else
      var front, call := calls[..|calls| - 1], calls[|calls| - 1];
      var b := Lookup(BucketsAfter(front, capacity, refill), key, Bucket(capacity(key) as real, call.now));
      BucketAdmits(front, capacity, refill, key, s, t)
      + (if call.key == key && BucketStep(b, call.now, capacity(key), refill(key)).1 && s <= call.now <= t
         then 1 else 0)
  }

  // One clock for all keys.
  ghost predicate InOrder(calls: seq<Call>) {
    forall i, j :: 0 <= i < j < |calls| ==> calls[i].now <= calls[j].now
  }

  lemma {:induction false} TimesAscend(calls: seq<Call>, key: string)
    requires InOrder(calls)
    ensures Ascending(TimesOf(calls, key))
    ensures calls != [] ==> AtMost(TimesOf(calls, key), calls[|calls| - 1].now)
  {
    if calls != [] {
      var front := calls[..|calls| - 1];
      TimesAscend(front, key);
      assert front != [] ==> front[|front| - 1].now <= calls[|calls| - 1].now;
    }
  }

  lemma {:induction false} LogAdmitsOwn(calls: seq<Call>, quota: string -> Quota, key: string)
    ensures LogAdmits(calls, quota, key) == Admitted(TimesOf(calls, key), quota(key).limit, quota(key).window)
  {
    if calls != [] {
      var front, call := calls[..|calls| - 1], calls[|calls| - 1];
      LogAdmitsOwn(front, quota, key);
      KeysAreIndependent(front, quota, key);
      var times := TimesOf(front, key);
      if call.key == key {
        assert (times + [call.now])[..|times|] == times;
      } else {
        assert times + [] == times;
      }
    }
  }

  lemma AdmittedInNext(times: seq<real>, now: real, capacity: int, refill: real, s: real, t: real)
    ensures var all := times + [now];
            var b := if times == [] then Bucket(capacity as real, now)
                     else BucketRun(times, capacity, refill)[|times| - 1].0;
            AdmittedIn(all, BucketRun(all, capacity, refill), s, t)
            == AdmittedIn(times, BucketRun(times, capacity, refill), s, t)
               + (if BucketStep(b, now, capacity, refill).1 && s <= now <= t then 1 else 0)
  {
    var all := times + [now];
    BucketRunFront(all, capacity, refill);
    assert all[..|times|] == times;
    hide BucketStep, BucketRun;
  }

  lemma {:induction false} BucketAdmitsOwn(calls: seq<Call>, capacity: string -> int, refill: string -> real,
                                          key: string, s: real, t: real)
    ensures var times := TimesOf(calls, key);
            BucketAdmits(calls, capacity, refill, key, s, t)
            == AdmittedIn(times, BucketRun(times, capacity(key), refill(key)), s, t)
  {
    if calls != [] {
      var front, call := calls[..|calls| - 1], calls[|calls| - 1];
      var times := TimesOf(front, key);
      BucketAdmitsOwn(front, capacity, refill, key, s, t);
      BucketsAreIndependent(front, capacity, refill, key);
      hide BucketStep, BucketRun, BucketsAfter, AdmittedIn;
      if call.key == key {
        AdmittedInNext(times, call.now, capacity(key), refill(key), s, t);
      } else {
        assert times + [] == times;
      }
    }
  }

  /** However calls for other keys are interleaved, each under its own quota, no closed window holds
      more than its limit of one key's calls answered true. */
  lemma InterleavedWindowBound(calls: seq<Call>, quota: string -> Quota, key: string, start: real)
    requires InOrder(calls) && quota(key).window >= 0.0
    ensures var q := quota(key);
            |Within(LogAdmits(calls, quota, key), start, start + q.window)| <= if q.limit > 0 then q.limit else 0
  {
    TimesAscend(calls, key);
    LogAdmitsOwn(calls, quota, key);
    WindowBound(TimesOf(calls, key), quota(key).limit, quota(key).window, start);
  }

  /** However calls for other keys are interleaved, in any interval [s, t] at most
      capacity + refill * (t - s) calls of one key are answered true. */
  lemma InterleavedBucketBound(calls: seq<Call>, capacity: string -> int, refill: string -> real, key: string,
                               s: real, t: real)
    requires InOrder(calls) && capacity(key) >= 0 && refill(key) >= 0.0 && s <= t
    ensures BucketAdmits(calls, capacity, refill, key, s, t) as real <= capacity(key) as real + refill(key) * (t - s)
  {
    hide *;
    TimesAscend(calls, key);
    BucketAdmitsOwn(calls, capacity, refill, key, s, t);
    BucketBound(TimesOf(calls, key), capacity(key), refill(key), s, t);
  }
}
