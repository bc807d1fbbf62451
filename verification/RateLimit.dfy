/**
 * Fixed-window request limits: what each aligned window admits, and what that means for
 * any sliding interval.
 */
module RateLimit {
  type Time = int

  datatype LimitPolicy = LimitPolicy(requests: nat, window: nat)

  datatype Arrival = Arrival(subject: string, category: string, at: Time)

  datatype Window = Window(subject: string, category: string, start: Time)

  type Counters = map<Window, nat>

  /** floor(epoch / window) * window */
  function WindowStart(at: Time, window: nat): Time
    requires window > 0
  {
    at / window * window
  }

  function WindowOf(a: Arrival, policy: LimitPolicy): Window
    requires policy.window > 0
  {
    Window(a.subject, a.category, WindowStart(a.at, policy.window))
  }

  function CountIn(counters: Counters, w: Window): nat {
    if w in counters then counters[w] else 0
  }

  class PostgresRateLimiter {
    var counters: Counters

    constructor ()
      ensures counters == map[]
    {
      counters := map[];
    }

    method Allow(a: Arrival, policy: LimitPolicy) returns (allowed: bool)
      requires policy.window > 0
      modifies this
      ensures var w := WindowOf(a, policy);
              && counters == old(counters)[w := CountIn(old(counters), w) + 1]
              && (allowed <==> CountIn(old(counters), w) < policy.requests)
    {
      var w := WindowOf(a, policy);
      var count := 1;
      if w in counters {
        count := counters[w] + 1;
      }
      counters := counters[w := count];
      return count <= policy.requests;
    }
  }

  /** Counters after a list of arrivals, in whatever order their clocks read. */
  function After(arrivals: seq<Arrival>, policy: LimitPolicy): Counters
    requires policy.window > 0
  {
    if arrivals == [] then map[]
    else
      var counters, w := After(arrivals[..|arrivals| - 1], policy), WindowOf(arrivals[|arrivals| - 1], policy);
      counters[w := CountIn(counters, w) + 1]
  }

  /** The i-th arrival is admitted. */
  predicate Admitted(arrivals: seq<Arrival>, i: nat, policy: LimitPolicy)
    requires policy.window > 0 && i < |arrivals|
  {
    CountIn(After(arrivals[..i], policy), WindowOf(arrivals[i], policy)) < policy.requests
  }

  function ArrivalsIn(arrivals: seq<Arrival>, policy: LimitPolicy, w: Window): nat
    requires policy.window > 0
  {
    if arrivals == [] then 0
    else
      ArrivalsIn(arrivals[..|arrivals| - 1], policy, w) +
      if WindowOf(arrivals[|arrivals| - 1], policy) == w then 1 else 0
  }

  /** Admitted arrivals of one subject and category with lo <= at < hi. */
  function AdmittedBetween(
    arrivals: seq<Arrival>, policy: LimitPolicy, subject: string, category: string, lo: Time, hi: Time): nat
    requires policy.window > 0
  {
    if arrivals == [] then 0
    else
      var n := |arrivals| - 1;
      var last := arrivals[n];
      AdmittedBetween(arrivals[..n], policy, subject, category, lo, hi)
        + if last.subject == subject && last.category == category && lo <= last.at < hi && Admitted(arrivals, n, policy)
          then 1 else 0
  }

  lemma {:induction false} CountersCountArrivals(arrivals: seq<Arrival>, policy: LimitPolicy, w: Window)
    requires policy.window > 0
    ensures CountIn(After(arrivals, policy), w) == ArrivalsIn(arrivals, policy, w)
  {
    if arrivals != [] {
      var earlier, last := arrivals[..|arrivals| - 1], arrivals[|arrivals| - 1];
      CountersCountArrivals(earlier, policy, w);
      CountersCountArrivals(earlier, policy, WindowOf(last, policy));
    }
  }

  /** A time lies in the window that starts at k * window exactly when that is its window's start. */
  lemma InWindow(at: Time, k: int, window: nat)
    requires window > 0
    ensures k * window <= at < (k + 1) * window <==> WindowStart(at, window) == k * window
  {
    var q, r := at / window, at % window;
    assert at == q * window + r;
    assert (k + 1) * window == k * window + window;
    if k < q {
      Scale(k + 1, q, window);
    } else if q < k {
      Scale(q + 1, k, window);
      assert (q + 1) * window == q * window + window;
    }
  }

  lemma Scale(a: int, b: int, w: nat)
    requires a <= b
    ensures a * w <= b * w
  {
  }

  function Min(a: nat, b: nat): nat {
    if a <= b then a else b
  }

  /** Every aligned window admits exactly the smaller of its arrivals and the quota, in any order of arrival. */
  lemma {:induction false} WindowAdmitsExactly(
    arrivals: seq<Arrival>, policy: LimitPolicy, subject: string, category: string, k: int)
    requires policy.window > 0
    ensures AdmittedBetween(arrivals, policy, subject, category, k * policy.window, (k + 1) * policy.window)
         == Min(ArrivalsIn(arrivals, policy, Window(subject, category, k * policy.window)), policy.requests)
  {
    if arrivals != [] {
      var n := |arrivals| - 1;
      var last := arrivals[n];
      WindowAdmitsExactly(arrivals[..n], policy, subject, category, k);
      InWindow(last.at, k, policy.window);
      CountersCountArrivals(arrivals[..n], policy, WindowOf(last, policy));
    }
  }

  lemma {:induction false} IntervalsAdd(
    arrivals: seq<Arrival>, policy: LimitPolicy, subject: string, category: string, a: Time, b: Time, c: Time)
    requires policy.window > 0 && a <= b <= c
    ensures AdmittedBetween(arrivals, policy, subject, category, a, c)
         == AdmittedBetween(arrivals, policy, subject, category, a, b) +
            AdmittedBetween(arrivals, policy, subject, category, b, c)
  {
    if arrivals != [] {
      IntervalsAdd(arrivals[..|arrivals| - 1], policy, subject, category, a, b, c);
    }
  }

  lemma {:induction false} WindowsBound(
    arrivals: seq<Arrival>, policy: LimitPolicy, subject: string, category: string, k: int, n: nat)
    requires policy.window > 0
    ensures AdmittedBetween(arrivals, policy, subject, category, k * policy.window, (k + n) * policy.window)
         <= n * policy.requests
    decreases n
  {
    var w := policy.window;
    if n == 0 {
      IntervalsAdd(arrivals, policy, subject, category, k * w, k * w, k * w);
    } else {
      WindowsBound(arrivals, policy, subject, category, k, n - 1);
      WindowAdmitsExactly(arrivals, policy, subject, category, k + n - 1);
      Scale(k, k + n - 1, w);
      Scale(k + n - 1, k + n, w);
      assert k + n - 1 + 1 == k + n && k + (n - 1) == k + n - 1;
      IntervalsAdd(arrivals, policy, subject, category, k * w, (k + n - 1) * w, (k + n) * w);
      assert n * policy.requests == (n - 1) * policy.requests + policy.requests;
    }
  }

  function CeilDiv(length: nat, window: nat): nat
    requires window > 0
  {
    (length + window - 1) / window
  }

  /** How many aligned windows an interval of the given length can touch. */
  lemma WindowsTouched(lo: Time, length: nat, window: nat) returns (k: int, n: nat)
    requires window > 0 && length > 0
    ensures k * window <= lo && lo + length <= (k + n) * window
    ensures n <= CeilDiv(length, window) + 1
  {
    k := lo / window;
    var r := lo % window;
    assert lo == k * window + r;
    n := (r + length - 1) / window + 1;
    var m := (r + length - 1) % window;
    assert r + length - 1 == (n - 1) * window + m;
    assert (k + n) * window == k * window + (n - 1) * window + window;
    DivMonotone(r + length - 1, length + window - 1, window);
  }

  lemma DivMonotone(a: nat, b: nat, w: nat)
    requires w > 0 && a <= b
    ensures a / w <= b / w
  {
    var p, q := a / w, b / w;
    assert a == p * w + a % w && b == q * w + b % w && (q + 1) * w == q * w + w;
    if q < p {
      Scale(q + 1, p, w);
    }
  }

  /** In any interval of a length, at most quota times one more than the windows that length spans is admitted. */
  lemma SlidingBound(
    arrivals: seq<Arrival>, policy: LimitPolicy, subject: string, category: string, lo: Time, length: nat)
    requires policy.window > 0
    ensures AdmittedBetween(arrivals, policy, subject, category, lo, lo + length)
         <= (CeilDiv(length, policy.window) + 1) * policy.requests
  {
    if length == 0 {
      IntervalsAdd(arrivals, policy, subject, category, lo, lo, lo);
    } else {
      var k, n := WindowsTouched(lo, length, policy.window);
      WindowsBound(arrivals, policy, subject, category, k, n);
      IntervalsAdd(arrivals, policy, subject, category, k * policy.window, lo, (k + n) * policy.window);
      IntervalsAdd(arrivals, policy, subject, category, lo, lo + length, (k + n) * policy.window);
      Scale(n, CeilDiv(length, policy.window) + 1, policy.requests);
    }
  }

  /** In any interval as long as the window, at most twice the quota. */
  lemma TwiceTheQuota(arrivals: seq<Arrival>, policy: LimitPolicy, subject: string, category: string, lo: Time)
    requires policy.window > 0
    ensures AdmittedBetween(arrivals, policy, subject, category, lo, lo + policy.window) <= 2 * policy.requests
  {
    SlidingBound(arrivals, policy, subject, category, lo, policy.window);
    var w := policy.window;
    assert w + w - 1 == 1 * w + (w - 1);
    QuotientIs(w + w - 1, 1, w - 1, w);
  }

  lemma QuotientIs(a: nat, q: nat, r: nat, w: nat)
    requires w > 0 && a == q * w + r && r < w
    ensures a / w == q
  {
    var p := a / w;
    assert a == p * w + a % w && (p + 1) * w == p * w + w && (q + 1) * w == q * w + w;
    if p < q {
      Scale(p + 1, q, w);
    } else if q < p {
      Scale(q + 1, p, w);
    }
  }

  function Repeat(a: Arrival, n: nat): seq<Arrival> {
    seq(n, _ => a)
  }

  /** The bound is met: a full quota at the end of one window and another at the start of the next. */
  lemma TwiceTheQuotaIsReached(policy: LimitPolicy, subject: string, category: string)
    requires policy.window > 1
    ensures var w := policy.window;
            var arrivals :=
              Repeat(Arrival(subject, category, w - 1), policy.requests) +
              Repeat(Arrival(subject, category, w), policy.requests);
            AdmittedBetween(arrivals, policy, subject, category, w - 1, w - 1 + w) >= 2 * policy.requests
  {
    var w := policy.window;
    var late, early := Arrival(subject, category, w - 1), Arrival(subject, category, w);
    var first, second := Repeat(late, policy.requests), Repeat(early, policy.requests);
    var arrivals := first + second;
    QuotientIs(w - 1, 0, w - 1, w);
    QuotientIs(w, 1, 0, w);
    RepeatCounts(late, policy.requests, policy, Window(subject, category, 0));
    RepeatCounts(late, policy.requests, policy, Window(subject, category, w));
    ConcatCounts(first, early, policy.requests, policy, Window(subject, category, 0));
    ConcatCounts(first, early, policy.requests, policy, Window(subject, category, w));
    WindowAdmitsExactly(arrivals, policy, subject, category, 0);
    WindowAdmitsExactly(arrivals, policy, subject, category, 1);
    NothingBetween(arrivals, policy, subject, category, 0, w - 1);
    NothingBetween(arrivals, policy, subject, category, 2 * w - 1, 2 * w);
    IntervalsAdd(arrivals, policy, subject, category, 0, w - 1, w);
    IntervalsAdd(arrivals, policy, subject, category, w, 2 * w - 1, 2 * w);
    IntervalsAdd(arrivals, policy, subject, category, w - 1, w, 2 * w - 1);
  }

  lemma {:induction false} NothingBetween(
    arrivals: seq<Arrival>, policy: LimitPolicy, subject: string, category: string, lo: Time, hi: Time)
    requires policy.window > 0 && forall a :: a in arrivals ==> !(lo <= a.at < hi)
    ensures AdmittedBetween(arrivals, policy, subject, category, lo, hi) == 0
  {
    if arrivals != [] {
      assert arrivals[|arrivals| - 1] in arrivals;
      NothingBetween(arrivals[..|arrivals| - 1], policy, subject, category, lo, hi);
    }
  }

  lemma {:induction false} RepeatCounts(a: Arrival, n: nat, policy: LimitPolicy, w: Window)
    requires policy.window > 0
    ensures ArrivalsIn(Repeat(a, n), policy, w) == if WindowOf(a, policy) == w then n else 0
  {
    if n > 0 {
      assert Repeat(a, n)[..n - 1] == Repeat(a, n - 1);
      RepeatCounts(a, n - 1, policy, w);
    }
  }

  lemma {:induction false} ConcatCounts(first: seq<Arrival>, a: Arrival, n: nat, policy: LimitPolicy, w: Window)
    requires policy.window > 0
    ensures ArrivalsIn(first + Repeat(a, n), policy, w)
         == ArrivalsIn(first, policy, w) + if WindowOf(a, policy) == w then n else 0
  {
    if n == 0 {
      assert first + Repeat(a, 0) == first;
    } else {
      var all := first + Repeat(a, n);
      assert all[..|all| - 1] == first + Repeat(a, n - 1);
      ConcatCounts(first, a, n - 1, policy, w);
    }
  }
}
