/**
 The shadow pacer of video subscribes: one token bucket a rate. It answers how long each subscribe would
 have waited, which is shown to be the least wait that keeps the rate.

 Times are nanoseconds since the zero time, durations are nanoseconds.
 */
module SubscribePacer {
  const SECOND: nat := 1_000_000_000

  datatype Bucket = Bucket(rate: real, interval: nat, burst: nat, nextAt: nat)

  function Max(a: int, b: int): int { if a < b then b else a }

  /** When the token of a subscribe at `now` becomes free. */
  function TakeAt(b: Bucket, now: nat): nat { Max(b.nextAt, now) }

  function Delay(b: Bucket, now: nat): nat { Max(TakeAt(b, now) - now - b.burst, 0) }

  function Taken(b: Bucket, now: nat): Bucket { b.(nextAt := TakeAt(b, now) + b.interval) }

  // ---------------------------------------------------------------------------------------
  // The pacer
  // ---------------------------------------------------------------------------------------

  function Insert(r: real, rates: seq<real>): (s: seq<real>)
    ensures multiset(s) == multiset([r]) + multiset(rates)
    ensures forall x :: x in s <==> x == r || x in rates
  {
    if rates == [] then [r]
    else if r <= rates[0] then [r] + rates
    else
      assert rates == [rates[0]] + rates[1..];
      [rates[0]] + Insert(r, rates[1..])
  }

  function Sort(rates: seq<real>): (s: seq<real>)
    ensures multiset(s) == multiset(rates)
  {
    if rates == [] then []
    else
      assert rates == [rates[0]] + rates[1..];
      Insert(rates[0], Sort(rates[1..]))
  }

  predicate Ascending(rates: seq<real>) { forall i, j :: 0 <= i < j < |rates| ==> rates[i] <= rates[j] }

  lemma {:induction false} InsertAscends(r: real, rates: seq<real>)
    requires Ascending(rates)
    ensures Ascending(Insert(r, rates))
  {
    if rates != [] && r > rates[0] {
      InsertAscends(r, rates[1..]);
      var s := Insert(r, rates[1..]);
      forall k | 0 <= k < |s|
        ensures rates[0] <= s[k]
      {
        assert s[k] in s;
      }
    }
  }

  lemma {:induction false} SortAscends(rates: seq<real>)
    ensures Ascending(Sort(rates))
  {
    if rates != [] {
      SortAscends(rates[1..]);
      InsertAscends(rates[0], Sort(rates[1..]));
    }
  }

  /** The bucket of a rate: it refills `rate` tokens a second and holds a second's worth beyond the first. */
  function NewBucket(rate: real): Bucket
    requires rate > 0.0
  {
    var interval := (SECOND as real / rate).Floor;
    Bucket(rate, interval, Max(SECOND - interval, 0), 0)
  }

  /** A token takes a second divided by the rate, in whole nanoseconds. */
  predicate RefillsAt(interval: nat, rate: real)
    requires rate > 0.0
  {
    interval as real <= 1_000_000_000.0 / rate < interval as real + 1.0
  }

  /** Only one interval refills at a rate: that of its bucket, which is new, and bursts for the rest of a second. */
  lemma BucketRefillsAtRate(rate: real, interval: nat)
    requires rate > 0.0
    ensures RefillsAt(interval, rate) <==> interval == NewBucket(rate).interval
    ensures NewBucket(rate).rate == rate && NewBucket(rate).nextAt == 0
    ensures NewBucket(rate).burst == if NewBucket(rate).interval <= SECOND then SECOND - NewBucket(rate).interval else 0
  {
  }

  predicate StrictlyAscending(bs: seq<Bucket>) { forall i, j :: 0 <= i < j < |bs| ==> bs[i].rate < bs[j].rate }

  /** One new bucket for each positive rate given, in ascending order, and no other. */
  ghost predicate BucketsFor(bs: seq<Bucket>, rates: seq<real>) {
    && StrictlyAscending(bs)
    && (forall i :: 0 <= i < |bs| ==> bs[i].rate > 0.0 && bs[i].rate in rates && bs[i] == NewBucket(bs[i].rate))
    && (forall r :: r in rates && r > 0.0 ==> NewBucket(r) in bs)
  }

  lemma SkipKeeps(bs: seq<Bucket>, seen: seq<real>, r: real)
    requires BucketsFor(bs, seen) && (r <= 0.0 || r in seen)
    ensures BucketsFor(bs, seen + [r])
  {
  }

  lemma AddKeeps(bs: seq<Bucket>, seen: seq<real>, r: real)
    requires BucketsFor(bs, seen) && r > 0.0 && forall x :: x in seen ==> x < r
    ensures BucketsFor(bs + [NewBucket(r)], seen + [r])
  {
    var bs' := bs + [NewBucket(r)];
    assert bs'[|bs|] == NewBucket(r);
    assert forall x :: x in bs ==> x in bs';
  }

  /** The loop over the sorted rates, skipping what is not positive and what equals its predecessor. */
  method MakeBuckets(rates: seq<real>) returns (bs: seq<Bucket>)
    ensures BucketsFor(bs, rates)
  {
    var sorted := Sort(rates);
    SortAscends(rates);
    bs := [];
    for i := 0 to |sorted|
      invariant BucketsFor(bs, sorted[..i])
    {
      var rate := sorted[i];
      assert sorted[..i + 1] == sorted[..i] + [rate];
      if rate <= 0.0 || (i > 0 && rate == sorted[i - 1]) {
        assert i > 0 && rate == sorted[i - 1] ==> rate in sorted[..i];
        SkipKeeps(bs, sorted[..i], rate);
      } else {
        AddKeeps(bs, sorted[..i], rate);
        bs := bs + [NewBucket(rate)];
      }
    }
    assert sorted[..|sorted|] == sorted;
    SameRates(bs, rates);
  }

  lemma SameRates(bs: seq<Bucket>, rates: seq<real>)
    requires BucketsFor(bs, Sort(rates))
    ensures BucketsFor(bs, rates)
  {
    assert forall r :: r in rates <==> r in multiset(Sort(rates));
  }

  /** NewSubscribePacer: no pacer when no rate is positive. */
  method NewSubscribePacer(rates: seq<real>) returns (p: Pacer?)
    ensures p == null <==> forall r :: r in rates ==> r <= 0.0
    ensures p != null ==> fresh(p) && fresh(p.buckets) && BucketsFor(p.buckets[..], rates)
  {
    var bs := MakeBuckets(rates);
    if |bs| == 0 {
      p := null;
    } else {
      assert bs[0].rate in rates;
      p := new Pacer(bs);
    }
  }

  predicate Tells(delays: map<real, nat>, b: Bucket, now: nat) { b.rate in delays && delays[b.rate] == Delay(b, now) }

  predicate HasRate(b: Bucket, rate: real) { b.rate == rate }

  /** The delays are those of the first `n` buckets, under their rates, and nothing else. */
  ghost predicate DelaysOf(delays: map<real, nat>, bs: seq<Bucket>, n: nat, now: nat)
    requires n <= |bs|
  {
    && (forall k :: 0 <= k < n ==> Tells(delays, bs[k], now))
    && (forall r :: r in delays ==> exists k :: 0 <= k < n && HasRate(bs[k], r))
  }

  lemma OneMoreDelay(delays: map<real, nat>, bs: seq<Bucket>, i: nat, now: nat)
    requires i < |bs| && StrictlyAscending(bs) && DelaysOf(delays, bs, i, now)
    ensures DelaysOf(delays[bs[i].rate := Delay(bs[i], now)], bs, i + 1, now)
  {
    var delays' := delays[bs[i].rate := Delay(bs[i], now)];
    forall r | r in delays'
      ensures exists k :: 0 <= k < i + 1 && HasRate(bs[k], r)
    {
      if r == bs[i].rate {
        assert HasRate(bs[i], r);
      }
    }
  }

  /** A token taken from each of the first `n` buckets. */
  function FirstTaken(bs: seq<Bucket>, n: nat, now: nat): (r: seq<Bucket>)
    ensures |r| == |bs| && (StrictlyAscending(bs) ==> StrictlyAscending(r))
  {
    seq(|bs|, k requires 0 <= k < |bs| => if k < n then Taken(bs[k], now) else bs[k])
  }

  class Pacer {
    const buckets: array<Bucket>

    constructor (bs: seq<Bucket>)
      ensures fresh(buckets) && buckets[..] == bs
    {
      buckets := new Bucket[|bs|](i requires 0 <= i < |bs| => bs[i]);
    }

    /** Takes a token from every bucket, and tells by rate how long it would have had to be waited for. */
    method Delays(now: nat) returns (delays: map<real, nat>)
      requires StrictlyAscending(buckets[..])
      modifies buckets
      ensures StrictlyAscending(buckets[..])
      ensures buckets[..] == FirstTaken(old(buckets[..]), buckets.Length, now)
      ensures DelaysOf(delays, old(buckets[..]), buckets.Length, now)
    {
      ghost var was := buckets[..];
      delays := map[];
      for i := 0 to buckets.Length
        invariant buckets[..] == FirstTaken(was, i, now)
        invariant DelaysOf(delays, was, i, now)
      {
        var b := buckets[i];
        assert b == buckets[..][i] == was[i];
        var takeAt := b.nextAt;
        if takeAt < now {
          takeAt := now;
        }
        OneMoreDelay(delays, was, i, now);
        var delay := Max(takeAt - now - b.burst, 0);
        assert delay == Delay(was[i], now);
        delays := delays[b.rate := delay];
        buckets[i] := b.(nextAt := takeAt + b.interval);
      }
    }
  }

  // ---------------------------------------------------------------------------------------
  // A bucket over all its subscribes
  // ---------------------------------------------------------------------------------------

  function After(b: Bucket, nows: seq<nat>): (r: Bucket)
    ensures r.interval == b.interval && r.burst == b.burst
  {
    if nows == [] then b else Taken(After(b, nows[..|nows| - 1]), nows[|nows| - 1])
  }

  /** When the k-th subscribe starts, if it waits as long as it is told to. */
  function Start(b: Bucket, nows: seq<nat>, k: nat): nat
    requires k < |nows|
  {
    nows[k] + Delay(After(b, nows[..k]), nows[k])
  }

  function Starts(b: Bucket, nows: seq<nat>): seq<nat> {
    seq(|nows|, k requires 0 <= k < |nows| => Start(b, nows, k))
  }

  /** Any two starts are as far apart as the tokens between them take to refill, less the burst. */
  predicate Paced(xs: seq<int>, interval: nat, burst: nat) {
    forall i, j :: 0 <= i < j < |xs| ==> xs[j] - xs[i] >= (j - i) * interval - burst
  }

  /** Nothing starts before it is asked for. */
  predicate NotEarly(xs: seq<int>, nows: seq<nat>) {
    |xs| == |nows| && forall k :: 0 <= k < |xs| ==> xs[k] >= nows[k]
  }

  lemma AfterNext(b: Bucket, nows: seq<nat>, k: nat)
    requires k < |nows|
    ensures After(b, nows[..k + 1]) == Taken(After(b, nows[..k]), nows[k])
  {
    assert nows[..k + 1][..k] == nows[..k];
  }

  lemma OneFurther(k: nat, interval: nat)
    ensures (k + 1) * interval == k * interval + interval
  {
  }

  /** Tokens are an interval apart. */
  lemma {:induction false} TokensApart(b: Bucket, nows: seq<nat>, i: nat, j: nat)
    requires i <= j < |nows|
    ensures TakeAt(After(b, nows[..j]), nows[j]) >= TakeAt(After(b, nows[..i]), nows[i]) + (j - i) * b.interval
    decreases j
  {
    if i < j {
      TokensApart(b, nows, i, j - 1);
      AfterNext(b, nows, j - 1);
      OneFurther(j - 1 - i, b.interval);
    }
  }

  lemma StartsArePaced(b: Bucket, nows: seq<nat>)
    ensures Paced(Starts(b, nows), b.interval, b.burst) && NotEarly(Starts(b, nows), nows)
  {
    var xs := Starts(b, nows);
    forall i, j | 0 <= i < j < |xs|
      ensures xs[j] - xs[i] >= (j - i) * b.interval - b.burst
    {
      TokensApart(b, nows, i, j);
    }
  }

  /** What held a token back: an earlier subscribe (or this one), and the tokens taken since. */
  lemma {:induction false} TokenHeldBy(b: Bucket, nows: seq<nat>, j: nat) returns (i: nat)
    requires j < |nows| && b.nextAt == 0
    ensures i <= j && TakeAt(After(b, nows[..j]), nows[j]) == nows[i] + (j - i) * b.interval
  {
    if j == 0 || After(b, nows[..j]).nextAt <= nows[j] {
      i := j;
    } else {
      i := TokenHeldBy(b, nows, j - 1);
      AfterNext(b, nows, j - 1);
      OneFurther(j - 1 - i, b.interval);
    }
  }

  /**
   The starts of a fresh bucket are the earliest that keep its pace: they keep it, and no schedule that
   keeps it starts any subscribe earlier; whatever the order of the clock readings.
   */
  lemma LeastSchedule(b: Bucket, nows: seq<nat>, xs: seq<int>)
    requires b.nextAt == 0
    ensures Paced(Starts(b, nows), b.interval, b.burst) && NotEarly(Starts(b, nows), nows)
    ensures Paced(xs, b.interval, b.burst) && NotEarly(xs, nows) ==> forall k ::
        0 <= k < |nows| ==> Starts(b, nows)[k] <= xs[k]
  {
    StartsArePaced(b, nows);
    if Paced(xs, b.interval, b.burst) && NotEarly(xs, nows) {
      forall k | 0 <= k < |nows|
        ensures Starts(b, nows)[k] <= xs[k]
      {
        var i := TokenHeldBy(b, nows, k);
        if i < k {
          assert xs[k] - xs[i] >= (k - i) * b.interval - b.burst;
        }
      }
    }
  }

  // ---------------------------------------------------------------------------------------
  // Consequences of the pace
  // ---------------------------------------------------------------------------------------

  /** The subscribes that start in the closed window of length `w` from `t`. */
  function InWindow(xs: seq<int>, t: int, w: nat): set<nat> { set k: nat | k < |xs| && t <= xs[k] <= t + w }

  lemma {:induction false} SpanBounds(s: set<nat>, lo: nat, hi: nat)
    requires lo <= hi && forall k :: k in s ==> lo <= k <= hi
    ensures |s| <= hi - lo + 1
    decreases hi - lo
  {
    if lo == hi {
      if s != {} {
        assert s == {lo};
      }
    } else {
      SpanBounds(s - {hi}, lo, hi - 1);
      assert s <= s - {hi} + {hi};
      if hi in s {
        assert |s| == |s - {hi}| + 1;
      } else {
        assert s - {hi} == s;
      }
    }
  }

  lemma {:induction false} Extremes(s: set<nat>) returns (lo: nat, hi: nat)
    requires s != {}
    ensures lo in s && hi in s && forall k :: k in s ==> lo <= k <= hi
  {
    var x :| x in s;
    if s == {x} {
      lo, hi := x, x;
    } else {
      assert s == s - {x} + {x};
      lo, hi := Extremes(s - {x});
      assert forall k :: k in s ==> k == x || k in s - {x};
      lo, hi := if x < lo then x else lo, if x > hi then x else hi;
    }
  }

  lemma Below(a: int, interval: nat)
    requires interval > 0 && a * interval < interval
    ensures a <= 0
  {
  }

  lemma Quotient(n: nat, interval: nat, total: nat)
    requires interval > 0 && n * interval <= total
    ensures n <= total / interval
  {
    var q := total / interval;
    assert (n - q) * interval == n * interval - q * interval;
    assert (n - q) * interval < interval;
    Below(n - q, interval);
  }

  lemma SpanOfWindow(xs: seq<int>, interval: nat, burst: nat, t: int, w: nat, lo: nat, hi: nat)
    requires interval > 0 && Paced(xs, interval, burst)
    requires lo in InWindow(xs, t, w) && hi in InWindow(xs, t, w) && lo <= hi
    ensures hi - lo <= (w + burst) / interval
  {
    if lo < hi {
      assert xs[hi] - xs[lo] >= (hi - lo) * interval - burst;
      Quotient(hi - lo, interval, w + burst);
    }
  }

  lemma PacedWindow(xs: seq<int>, interval: nat, burst: nat, t: int, w: nat)
    requires interval > 0 && Paced(xs, interval, burst)
    ensures |InWindow(xs, t, w)| <= (w + burst) / interval + 1
  {
    var s := InWindow(xs, t, w);
    if s != {} {
      var lo, hi := Extremes(s);
      SpanBounds(s, lo, hi);
      SpanOfWindow(xs, interval, burst, t, w, lo, hi);
    }
  }

  /** In any window of length `w` at most (w + burst) / interval + 1 subscribes start. */
  lemma WindowBound(b: Bucket, nows: seq<nat>, t: int, w: nat)
    requires b.interval > 0
    ensures |InWindow(Starts(b, nows), t, w)| <= (w + b.burst) / b.interval + 1
  {
    StartsArePaced(b, nows);
    PacedWindow(Starts(b, nows), b.interval, b.burst, t, w);
  }

  /** Subscribes asked for together queue up behind the first. */
  lemma {:induction false} TogetherQueue(b: Bucket, nows: seq<nat>, now: nat, k: nat)
    requires b.nextAt == 0 && k < |nows| && forall i :: 0 <= i < |nows| ==> nows[i] == now
    ensures TakeAt(After(b, nows[..k]), now) == now + k * b.interval
  {
    if k > 0 {
      TogetherQueue(b, nows, now, k - 1);
      AfterNext(b, nows, k - 1);
      OneFurther(k - 1, b.interval);
    }
  }

  lemma Fits(k: nat, interval: nat, total: nat)
    requires 0 < interval
    ensures (k + 1) * interval <= total <==> k < total / interval
  {
    if (k + 1) * interval <= total {
      Quotient(k + 1, interval, total);
    } else {
      Quotient(total / interval, interval, total);
      NotMore(total / interval, k + 1, interval);
    }
  }

  lemma NotMore(a: nat, b: nat, interval: nat)
    requires a * interval < b * interval
    ensures a < b
  {
  }

  lemma AtLeastOne(k: nat, interval: nat)
    requires k > 0
    ensures k * interval >= interval
  {
  }

  /**
   Of subscribes asked for together, a second's worth starts at once and the rest wait; at a rate below one a
   second that is the first alone, and at one above a billion nobody waits.
   */
  lemma OneSecondAtOnce(rate: real, interval: nat, nows: seq<nat>, now: nat, k: nat)
    requires rate > 0.0 && k < |nows| && forall i :: 0 <= i < |nows| ==> nows[i] == now
    requires RefillsAt(interval, rate)
    ensures Start(NewBucket(rate), nows, k) == now
            <==> interval == 0 || k == 0 || (interval <= SECOND && k < SECOND / interval)
  {
    var b := NewBucket(rate);
    BucketRefillsAtRate(rate, interval);
    TogetherQueue(b, nows, now, k);
    if b.interval > 0 {
      Fits(k, b.interval, SECOND);
      OneFurther(k, b.interval);
      if k > 0 {
        AtLeastOne(k, b.interval);
      }
    }
  }
}
