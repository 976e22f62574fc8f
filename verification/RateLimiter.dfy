/** The sliding-window limiter of src/execution/router.py: prune, test, reserve. */
module RateLimiter {
  import opened Prelude
  import opened Risk

  /** The mutable limiter state: timestamps of recent reservations and a lifetime count. */
  datatype RateState = RateState(second: seq<real>, minute: seq<real>, dailyCount: int)

  datatype Caps = Caps(perSecond: int, perMinute: int, perDay: int)

  /** The timestamps strictly after `cutoff`, in order. */
  function Recent(ts: seq<real>, cutoff: real): seq<real> {
    if ts == [] then []
    else
      var n := |ts| - 1;
      Recent(ts[..n], cutoff) + if ts[n] > cutoff then [ts[n]] else []
  }

  function Pruned(r: RateState, now: real): RateState {
    r.(second := Recent(r.second, now - 1.0), minute := Recent(r.minute, now - 60.0))
  }

  predicate Limited(r: RateState, caps: Caps) {
    |r.second| >= caps.perSecond || |r.minute| >= caps.perMinute || r.dailyCount >= caps.perDay
  }

  function Reserved(r: RateState, now: real): RateState {
    RateState(r.second + [now], r.minute + [now], r.dailyCount + 1)
  }

  // ---------------------------------------------------------------- pruning loses nothing that matters

  lemma {:induction false} RecentCounts(ts: seq<real>, cutoff: real)
    ensures |Recent(ts, cutoff)| == CountAfter(ts, cutoff)
  {
    if ts != [] {
      RecentCounts(ts[..|ts| - 1], cutoff);
    }
  }

  /** Pruning twice is pruning once at the later time. */
  lemma {:induction false} RecentTwice(ts: seq<real>, early: real, late: real)
    requires early <= late
    ensures Recent(Recent(ts, early), late) == Recent(ts, late)
  {
    if ts != [] {
      var n := |ts| - 1;
      RecentTwice(ts[..n], early, late);
      var rest := Recent(ts[..n], early);
      if ts[n] > early {
        assert (rest + [ts[n]])[..|rest|] == rest;
      } else {
        assert Recent(ts, early) == rest;
        assert Recent(ts, late) == Recent(ts[..n], late);
      }
    }
  }

  lemma {:induction false} CountAfterAntitone(ts: seq<real>, low: real, high: real)
    requires low <= high
    ensures CountAfter(ts, high) <= CountAfter(ts, low)
  {
    if ts != [] {
      CountAfterAntitone(ts[..|ts| - 1], low, high);
    }
  }

  /** The limiter's lists are the full history of reservations seen through two windows. */
  predicate Faithful(r: RateState, accepted: seq<real>, asOf: real) {
    r.second == Recent(accepted, asOf - 1.0) && r.minute == Recent(accepted, asOf - 60.0)
  }

  /** Pruning keeps the lists faithful, and the decision on them is the decision one would take by
      counting over a list that is never pruned. */
  lemma PruneFaithful(r: RateState, caps: Caps, accepted: seq<real>, asOf: real, now: real)
    requires Faithful(r, accepted, asOf) && asOf <= now
    ensures Faithful(Pruned(r, now), accepted, now)
    ensures Limited(Pruned(r, now), caps) <==>
      || CountAfter(accepted, now - 1.0) >= caps.perSecond
      || CountAfter(accepted, now - 60.0) >= caps.perMinute
      || r.dailyCount >= caps.perDay
  {
    RecentTwice(accepted, asOf - 1.0, now - 1.0);
    RecentTwice(accepted, asOf - 60.0, now - 60.0);
    RecentCounts(accepted, now - 1.0);
    RecentCounts(accepted, now - 60.0);
  }

  /** A reservation made at or after the pruning time keeps them faithful. */
  lemma ReserveFaithful(r: RateState, accepted: seq<real>, asOf: real, now: real)
    requires Faithful(r, accepted, asOf) && asOf <= now
    ensures Faithful(Reserved(r, now), accepted + [now], asOf)
  {
    assert (accepted + [now])[..|accepted|] == accepted;
  }

  // ---------------------------------------------------------------- the window bound

  /** Every accepted instant had fewer than `cap` accepted ones in the `width` before it. */
  predicate Spaced(accepted: seq<real>, width: real, cap: int) {
    accepted != [] ==>
      var n := |accepted| - 1;
      Spaced(accepted[..n], width, cap) && CountAfter(accepted[..n], accepted[n] - width) < cap
  }

  /** The reservation may be stamped later than the pruning: the spacing still holds. */
  lemma ReserveSpaced(accepted: seq<real>, width: real, cap: int, pruned: real, now: real)
    requires Spaced(accepted, width, cap) && CountAfter(accepted, pruned - width) < cap && pruned <= now
    ensures Spaced(accepted + [now], width, cap)
  {
    CountAfterAntitone(accepted, pruned - width, now - width);
    assert (accepted + [now])[..|accepted|] == accepted;
  }

  /** How many of the instants satisfy `window`. */
  function CountIn(ts: seq<real>, window: real -> bool): nat {
    if ts == [] then 0
    else CountIn(ts[..|ts| - 1], window) + (if window(ts[|ts| - 1]) then 1 else 0)
  }

  lemma {:induction false} CountInAtMostAfter(ts: seq<real>, window: real -> bool, cutoff: real)
    requires forall t :: window(t) ==> t > cutoff
    ensures CountIn(ts, window) <= CountAfter(ts, cutoff)
  {
    if ts != [] {
      CountInAtMostAfter(ts[..|ts| - 1], window, cutoff);
    }
  }

  /** In a spaced history no set of instants pairwise less than `width` apart holds more than `cap`. */
  lemma {:induction false} SpacedBoundsWindow(accepted: seq<real>, width: real, cap: int, window: real -> bool)
    requires Spaced(accepted, width, cap)
    requires forall s, t :: window(s) && window(t) ==> t - s < width
    ensures CountIn(accepted, window) <= MaxInt(0, cap)
  {
    if accepted != [] {
      var n := |accepted| - 1;
      var last := accepted[n];
      if window(last) {
        forall t | window(t) ensures t > last - width {
          assert window(last) && window(t);
        }
        CountInAtMostAfter(accepted[..n], window, last - width);
      } else {
        SpacedBoundsWindow(accepted[..n], width, cap, window);
      }
    }
  }

  /** Both kinds of half-open interval are bounded ... */
  lemma HalfOpenBounded(accepted: seq<real>, width: real, cap: int, start: real)
    requires Spaced(accepted, width, cap)
    ensures CountIn(accepted, t => start <= t < start + width) <= MaxInt(0, cap)
    ensures CountIn(accepted, t => start < t <= start + width) <= MaxInt(0, cap)
  {
    SpacedBoundsWindow(accepted, width, cap, t => start <= t < start + width);
    SpacedBoundsWindow(accepted, width, cap, t => start < t <= start + width);
  }

  lemma {:induction false} CountInCovered(ts: seq<real>, window: real -> bool, a: real -> bool, b: real -> bool)
    requires forall t :: window(t) ==> a(t) || b(t)
    ensures CountIn(ts, window) <= CountIn(ts, a) + CountIn(ts, b)
  {
    if ts != [] {
      CountInCovered(ts[..|ts| - 1], window, a, b);
    }
  }

  /** ... and the closed interval, which is both of them together, by twice the cap. */
  lemma ClosedBounded(accepted: seq<real>, width: real, cap: int, start: real)
    requires Spaced(accepted, width, cap) && width > 0.0
    ensures CountIn(accepted, t => start <= t <= start + width) <= 2 * MaxInt(0, cap)
  {
    HalfOpenBounded(accepted, width, cap, start);
    CountInCovered(accepted, t => start <= t <= start + width, t => start <= t < start + width,
                   t => start < t <= start + width);
  }

  lemma {:induction false} CountInAtMost(ts: seq<real>, window: real -> bool)
    ensures CountIn(ts, window) <= |ts|
    ensures (forall i :: 0 <= i < |ts| ==> window(ts[i])) ==> CountIn(ts, window) == |ts|
  {
    if ts != [] {
      CountInAtMost(ts[..|ts| - 1], window);
    }
  }

  /** Instants that are not after the cutoff do not count. */
  lemma {:induction false} CountAfterSkips(ts: seq<real>, cutoff: real, m: nat)
    requires m <= |ts| && forall i :: 0 <= i < m ==> ts[i] <= cutoff
    ensures CountAfter(ts, cutoff) <= |ts| - m
  {
    if ts != [] {
      var n := |ts| - 1;
      CountAfterSkips(ts[..n], cutoff, MinInt(m, n));
    }
  }

  // ---------------------------------------------------------------- both windows together

  /** The histories that prune, test and reserve can produce: spaced in both windows, within the daily cap. */
  predicate Permitted(caps: Caps, ts: seq<real>) {
    Spaced(ts, 1.0, caps.perSecond) && Spaced(ts, 60.0, caps.perMinute) && |ts| <= MaxInt(0, caps.perDay)
  }

  /** The most that a closed second and a closed minute can hold. */
  function ClosedSecond(caps: Caps): int {
    MaxInt(0, MinInt(2 * caps.perSecond, MinInt(caps.perMinute, caps.perDay)))
  }

  function ClosedMinute(caps: Caps): int {
    MaxInt(0, MinInt(MinInt(caps.perMinute, 60 * caps.perSecond) + MinInt(caps.perMinute, caps.perSecond),
                     caps.perDay))
  }

  lemma {:induction false} SecondsBounded(ts: seq<real>, cap: int, start: real, n: nat)
    requires Spaced(ts, 1.0, cap)
    ensures CountIn(ts, t => start <= t < start + n as real) <= n * MaxInt(0, cap)
  {
    hide Spaced, CountIn;
    if n == 0 {
      NoneIn(ts, t => start <= t < start + n as real);
    } else {
      SecondsBounded(ts, cap, start, n - 1);
      var last := start + (n - 1) as real;
      SpacedBoundsWindow(ts, 1.0, cap, t => last <= t < last + 1.0);
      CountInCovered(ts, t => start <= t < start + n as real, t => start <= t < start + (n - 1) as real,
                     t => last <= t < last + 1.0);
    }
  }

  lemma {:induction false} NoneIn(ts: seq<real>, window: real -> bool)
    requires forall t :: !window(t)
    ensures CountIn(ts, window) == 0
  {
    if ts != [] {
      NoneIn(ts[..|ts| - 1], window);
    }
  }

  lemma ClosedSecondBounded(caps: Caps, ts: seq<real>, start: real)
    requires Permitted(caps, ts)
    ensures CountIn(ts, t => start <= t <= start + 1.0) <= ClosedSecond(caps)
  {
    var window := (t: real) => start <= t <= start + 1.0;
    ClosedBounded(ts, 1.0, caps.perSecond, start);
    SpacedBoundsWindow(ts, 60.0, caps.perMinute, window);
    CountInAtMost(ts, window);
  }

  lemma ClosedMinuteBounded(caps: Caps, ts: seq<real>, start: real)
    requires Permitted(caps, ts)
    ensures CountIn(ts, t => start <= t <= start + 60.0) <= ClosedMinute(caps)
  {
    hide Spaced, CountIn;
    var window, open, end :=
      (t: real) => start <= t <= start + 60.0, (t: real) => start <= t < start + 60.0, (t: real) => t == start + 60.0;
    SecondsBounded(ts, caps.perSecond, start, 60);
    SpacedBoundsWindow(ts, 60.0, caps.perMinute, open);
    SpacedBoundsWindow(ts, 60.0, caps.perMinute, end);
    SpacedBoundsWindow(ts, 1.0, caps.perSecond, end);
    assert forall t :: open(t) == (start <= t < start + 60 as real);
    CountInCovered(ts, open, t => start <= t < start + 60 as real, t => false);
    NoneIn(ts, t => false);
    CountInCovered(ts, window, open, end);
    CountInAtMost(ts, window);
  }

  // ---------------------------------------------------------------- histories that fill a closed window

  /** `full` instants from `start` on, `burst` of them in each second, and then `burst` more at `start + width`. */
  function BurstAt(burst: nat, full: nat, width: real, start: real, i: nat): real
    requires burst > 0
  {
    if i < full then start + (i / burst) as real else start + width
  }

  function Bursts(burst: nat, full: nat, width: real, start: real, k: nat): (ts: seq<real>)
    requires burst > 0
    ensures |ts| == k && forall i :: 0 <= i < k ==> ts[i] == BurstAt(burst, full, width, start, i)
  {
    seq(k, i requires 0 <= i < k => BurstAt(burst, full, width, start, i))
  }

  /** The last burst comes when all but the seconds before it are past. */
  predicate BurstsFit(burst: nat, full: nat, width: real) {
    && 0 < burst <= full && ((width == 1.0 && full == burst) || (width == 60.0 && full <= 60 * burst))
  }

  lemma QuotientBelow(i: nat, j: nat, n: nat)
    requires n > 0 && i < j * n
    ensures i / n < j
  {
    assert i == i / n * n + i % n;
    ProductMonotone(i / n, j, n);
  }

  lemma ProductMonotone(a: nat, b: nat, n: nat)
    ensures a >= b ==> a * n >= b * n
  {
  }

  lemma SecondsPast(burst: nat, full: nat, width: real, start: real, i: nat)
    requires BurstsFit(burst, full, width) && i < full
    ensures start <= BurstAt(burst, full, width, start, i) <= start + width - 1.0
  {
    QuotientBelow(i, if width == 1.0 then 1 else 60, burst);
  }

  /** Within a second and within a minute before the i-th instant there are fewer than `burst` and `full`. */
  lemma BurstGaps(burst: nat, full: nat, width: real, start: real, i: nat)
    requires BurstsFit(burst, full, width) && i < full + burst
    ensures var ts, now := Bursts(burst, full, width, start, i), BurstAt(burst, full, width, start, i);
      CountAfter(ts, now - 1.0) < burst && (width == 60.0 ==> CountAfter(ts, now - 60.0) < full)
  {
    hide CountAfter;
    var ts, now := Bursts(burst, full, width, start, i), BurstAt(burst, full, width, start, i);
    if i < full {
      var past := i / burst * burst;
      assert i == past + i % burst;
      forall j | 0 <= j < past ensures ts[j] <= now - 1.0 {
        QuotientBelow(j, i / burst, burst);
      }
      CountAfterSkips(ts, now - 1.0, past);
      CountAfterSkips(ts, now - 60.0, 0);
    } else {
      forall j | 0 <= j < full ensures ts[j] <= now - 1.0 {
        SecondsPast(burst, full, width, start, j);
      }
      CountAfterSkips(ts, now - 1.0, full);
      if width == 60.0 {
        forall j | 0 <= j < burst ensures ts[j] <= now - 60.0 {
          QuotientBelow(j, 1, burst);
        }
        CountAfterSkips(ts, now - 60.0, burst);
      }
    }
  }

  /** Caps that let `k` instants of two such bursts through. */
  predicate BurstsAllowed(caps: Caps, burst: nat, full: nat, width: real, k: nat) {
    && BurstsFit(burst, full, width) && k <= full + burst
    && burst <= caps.perSecond && k <= caps.perDay
    && if width == 60.0 then full <= caps.perMinute else k <= caps.perMinute
  }

  lemma {:induction false} BurstsPermitted(caps: Caps, burst: nat, full: nat, width: real, start: real, k: nat)
    requires BurstsAllowed(caps, burst, full, width, k)
    ensures Permitted(caps, Bursts(burst, full, width, start, k))
  {
    if k > 0 {
      hide CountAfter, BurstAt;
      var ts := Bursts(burst, full, width, start, k);
      assert ts[..k - 1] == Bursts(burst, full, width, start, k - 1);
      BurstsPermitted(caps, burst, full, width, start, k - 1);
      BurstGaps(burst, full, width, start, k - 1);
      CountAfterSkips(ts[..k - 1], ts[k - 1] - 60.0, 0);
    }
  }

  /** They come in order, from `start` on, and none after `start + width`. */
  lemma BurstsInOrder(burst: nat, full: nat, width: real, start: real, k: nat)
    requires BurstsFit(burst, full, width)
    ensures var ts := Bursts(burst, full, width, start, k);
      && (forall i, j :: 0 <= i < j < k ==> ts[i] <= ts[j])
      && (forall i :: 0 <= i < k ==> start <= ts[i] <= start + width)
      && CountIn(ts, t => start <= t <= start + width) == k
  {
    var ts := Bursts(burst, full, width, start, k);
    forall i | 0 <= i < k ensures start <= ts[i] <= start + width && (i < full ==> ts[i] <= start + width - 1.0) {
      if i < full {
        SecondsPast(burst, full, width, start, i);
      }
    }
    forall i, j | 0 <= i < j < k ensures ts[i] <= ts[j] {
      if j < full {
        QuotientMonotone(i, j, burst);
      }
    }
    CountInAtMost(ts, t => start <= t <= start + width);
  }

  lemma QuotientMonotone(i: nat, j: nat, n: nat)
    requires n > 0 && i <= j
    ensures i / n <= j / n
  {
    assert j == j / n * n + j % n;
    assert (j / n + 1) * n == j / n * n + n;
    QuotientBelow(i, j / n + 1, n);
  }
}
