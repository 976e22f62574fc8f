/**
 Recency, expiry and capacity in src/data/cache.py.

 A cache is a list of slots, least recently touched first.  It is compared with a history that never
 evicts anything: the live instruments are those both among the most recently touched and touched within
 the time to live.
 */
module CacheEviction {
  import opened Prelude
  import opened CandleMerge

  datatype Slot = Slot(token: int, touched: real, candles: seq<Candle>)

  /** Limits of a cache: time to live, number of instruments, candles per instrument. */
  datatype Bounds = Bounds(ttl: real, maxInstruments: int, maxCandles: int)

  predicate Expired(s: Slot, now: real, ttl: real) {
    now - s.touched > ttl
  }

  function Unexpired(v: seq<Slot>, now: real, ttl: real): seq<Slot> {
    if v == [] then []
    else
      var n := |v| - 1;
      Unexpired(v[..n], now, ttl) + if Expired(v[n], now, ttl) then [] else [v[n]]
  }

  /** What is left after an expiry check: the slots touched no longer ago than the time to live. */
  lemma {:induction false} UnexpiredMeaning(v: seq<Slot>, now: real, ttl: real)
    ensures forall s :: s in Unexpired(v, now, ttl) <==> s in v && now - s.touched <= ttl
  {
    if v != [] {
      var n := |v| - 1;
      UnexpiredMeaning(v[..n], now, ttl);
      assert v == v[..n] + [v[n]];
    }
  }

  function Without(v: seq<Slot>, token: int): seq<Slot> {
    if v == [] then []
    else
      var n := |v| - 1;
      Without(v[..n], token) + if v[n].token == token then [] else [v[n]]
  }

  /** The position of a token, or the length of the list. */
  function IndexOf(v: seq<Slot>, token: int): (i: nat)
    ensures i <= |v|
    ensures i < |v| ==> v[i].token == token
    ensures forall j :: 0 <= j < i ==> v[j].token != token
  {
    if v == [] then 0 else if v[0].token == token then 0 else 1 + IndexOf(v[1..], token)
  }

  predicate Has(v: seq<Slot>, token: int) {
    IndexOf(v, token) < |v|
  }

  function CandlesOf(v: seq<Slot>, token: int): seq<Candle> {
    if Has(v, token) then v[IndexOf(v, token)].candles else []
  }

  /** Drops the oldest slots beyond the limit. */
  function Capped(v: seq<Slot>, limit: int): seq<Slot> {
    if |v| <= limit then v else if limit <= 0 then [] else v[|v| - limit..]
  }

  function Touched(v: seq<Slot>, s: Slot): seq<Slot> {
    Without(v, s.token) + [s]
  }

  /** `get`, on the list of slots: expiry at `t1`, the touch at `t2`. */
  function GetSlots(v: seq<Slot>, b: Bounds, token: int, t1: real, t2: real): seq<Slot> {
    var e := Unexpired(v, t1, b.ttl);
    if Has(e, token) then Touched(e, Slot(token, t2, CandlesOf(e, token))) else e
  }

  /** `put`, on the list of slots. */
  function PutSlots(v: seq<Slot>, b: Bounds, token: int, batch: seq<Candle>, t1: real, t2: real): seq<Slot> {
    var e := Unexpired(v, t1, b.ttl);
    Capped(Touched(e, Slot(token, t2, PutCandles(CandlesOf(e, token), batch, b.maxCandles))), b.maxInstruments)
  }

  /** After a hit and after a put the instrument is the most recent one, touched at the second clock reading; a miss
      moves nothing. */
  lemma AccessTouches(v: seq<Slot>, b: Bounds, token: int, batch: seq<Candle>, t1: real, t2: real)
    ensures var e, got := Unexpired(v, t1, b.ttl), GetSlots(v, b, token, t1, t2);
      var put := PutSlots(v, b, token, batch, t1, t2);
      && (!Has(e, token) ==> got == e)
      && (Has(e, token) ==> got != [] && got[|got| - 1] == Slot(token, t2, CandlesOf(e, token)))
      && (b.maxInstruments >= 1 ==>
            && put != []
            && put[|put| - 1] == Slot(token, t2, PutCandles(CandlesOf(e, token), batch, b.maxCandles)))
  {
    hide Unexpired, Without, PutCandles, CandlesOf, Has;
  }

  // ---------------------------------------------------------------- list facts

  predicate Distinct(v: seq<Slot>) {
    forall i, j :: 0 <= i < j < |v| ==> v[i].token != v[j].token
  }

  predicate Ordered(v: seq<Slot>, clock: real) {
    && (forall i, j :: 0 <= i < j < |v| ==> v[i].touched <= v[j].touched)
    && (forall i :: 0 <= i < |v| ==> v[i].touched <= clock)
  }

  lemma {:induction false} WithoutAt(v: seq<Slot>, k: nat)
    requires Distinct(v) && k < |v|
    ensures Without(v, v[k].token) == v[..k] + v[k + 1..]
  {
    var n := |v| - 1;
    if k == n {
      WithoutNone(v[..n], v[k].token);
    } else {
      WithoutAt(v[..n], k);
      assert v[..n][k + 1..] + [v[n]] == v[k + 1..];
      assert v[..n][..k] == v[..k];
    }
  }

  lemma {:induction false} WithoutNone(v: seq<Slot>, token: int)
    requires forall i :: 0 <= i < |v| ==> v[i].token != token
    ensures Without(v, token) == v
  {
    if v != [] {
      var n := |v| - 1;
      WithoutNone(v[..n], token);
      assert v == v[..n] + [v[n]];
    }
  }

  /** The first `k` slots have expired and no other. */
  predicate ExpiredPrefix(v: seq<Slot>, k: nat, now: real, ttl: real) {
    k <= |v| && forall i :: 0 <= i < |v| ==> (Expired(v[i], now, ttl) <==> i < k)
  }

  /** In a list ordered by touch time, what has expired is a prefix. */
  lemma {:induction false} UnexpiredSuffix(v: seq<Slot>, clock: real, now: real, ttl: real) returns (k: nat)
    requires Ordered(v, clock)
    ensures ExpiredPrefix(v, k, now, ttl) && Unexpired(v, now, ttl) == v[k..]
  {
    if v == [] {
      k := 0;
    } else {
      var n := |v| - 1;
      k := UnexpiredSuffix(v[..n], clock, now, ttl);
      forall i | 0 <= i < n ensures Expired(v[i], now, ttl) <==> i < k {
        assert v[..n][i] == v[i];
      }
      if Expired(v[n], now, ttl) {
        AllExpired(v, now, ttl);
        k := |v|;
      } else {
        assert v[..n][k..] + [v[n]] == v[k..];
      }
    }
  }

  lemma {:induction false} AllExpired(v: seq<Slot>, now: real, ttl: real)
    requires forall i :: 0 <= i < |v| ==> Expired(v[i], now, ttl)
    ensures Unexpired(v, now, ttl) == []
  {
    if v != [] {
      AllExpired(v[..|v| - 1], now, ttl);
    }
  }

  lemma ExpiredPrefixOfSuffix(h: seq<Slot>, k: nat, d: nat, j: nat, now: real, ttl: real)
    requires d <= |h| && ExpiredPrefix(h, k, now, ttl) && ExpiredPrefix(h[d..], j, now, ttl)
    ensures d + j == MaxInt(d, k)
  {
    hide Expired;
    assert j > 0 ==> h[d..][j - 1] == h[d + j - 1];
    assert j < |h| - d ==> h[d..][j] == h[d + j];
  }

  // ---------------------------------------------------------------- cache against history

  /** The instruments that should be cached: touched within the time to live and among the most recent. */
  function Live(h: seq<Slot>, b: Bounds, now: real): seq<Slot> {
    Capped(Unexpired(h, now, b.ttl), b.maxInstruments)
  }

  /** An instrument is live exactly when its last touch lies within the time to live and fewer than the limit of
      instruments were touched after it. */
  lemma LiveIff(h: seq<Slot>, b: Bounds, clock: real, now: real, token: int)
    requires Distinct(h) && Ordered(h, clock)
    ensures Has(Live(h, b, now), token) <==>
      exists i :: 0 <= i < |h| && h[i].token == token && now - h[i].touched <= b.ttl && |h| - 1 - i < b.maxInstruments
  {
    hide Unexpired, IndexOf, Distinct, Ordered;
    var k := UnexpiredSuffix(h, clock, now, b.ttl);
    var live := Live(h, b, now);
    var d := |h| - |live|;
    assert live == h[d..];
    if Has(live, token) {
      var i := d + IndexOf(live, token);
      assert h[i] == live[IndexOf(live, token)];
    }
    if i :| 0 <= i < |h| && h[i].token == token && now - h[i].touched <= b.ttl && |h| - 1 - i < b.maxInstruments {
      assert !Expired(h[i], now, b.ttl);
      assert live[i - d] == h[i];
    }
  }

  /** The cache is the newest part of the history; what it lacks is beyond capacity or has expired. */
  predicate Covers(v: seq<Slot>, h: seq<Slot>, b: Bounds, clock: real) {
    && Distinct(h) && Ordered(h, clock)
    && |v| <= |h| && |v| <= b.maxInstruments && v == h[|h| - |v|..]
    && (|v| < |h| && |v| < b.maxInstruments ==> Expired(h[|h| - |v| - 1], clock, b.ttl))
  }

  /** Whenever it evicts, the cache holds exactly the live part of the history. */
  lemma EvictIsLive(v: seq<Slot>, h: seq<Slot>, b: Bounds, clock: real, now: real)
    requires Covers(v, h, b, clock) && clock <= now
    ensures Unexpired(v, now, b.ttl) == Live(h, b, now)
    ensures Covers(Unexpired(v, now, b.ttl), h, b, now)
  {
    hide Distinct, Expired, Unexpired;
    var d := |h| - |v|;
    var k := UnexpiredSuffix(h, clock, now, b.ttl);
    SuffixOrdered(h, d, clock);
    var j := UnexpiredSuffix(v, clock, now, b.ttl);
    ExpiredPrefixOfSuffix(h, k, d, j, now, b.ttl);
    if d > 0 && |v| < b.maxInstruments {
      StaysExpired(h[d - 1], clock, now, b.ttl);
    }
    assert v[j..] == h[d + j..];
    LaterOrdered(h, clock, now);
  }

  lemma SuffixOrdered(h: seq<Slot>, d: nat, clock: real)
    requires d <= |h| && Ordered(h, clock)
    ensures Ordered(h[d..], clock)
  {
  }

  lemma LaterOrdered(h: seq<Slot>, clock: real, now: real)
    requires Ordered(h, clock) && clock <= now
    ensures Ordered(h, now)
  {
  }

  lemma StaysExpired(s: Slot, clock: real, now: real, ttl: real)
    requires Expired(s, clock, ttl) && clock <= now
    ensures Expired(s, now, ttl)
  {
  }

  /** Touching moves a slot to the end. */
  lemma MovedToEnd(h: seq<Slot>, k: nat, clock: real, s: Slot)
    requires Distinct(h) && Ordered(h, clock) && k < |h| && h[k].token == s.token && clock <= s.touched
    ensures var t := Touched(h, s);
      t == h[..k] + h[k + 1..] + [s] && |t| == |h| && Distinct(t) && Ordered(t, s.touched)
  {
    hide Distinct, Ordered, Without;
    WithoutAt(h, k);
    RemovedOrdered(h, k, clock);
    AppendedOrdered(h[..k] + h[k + 1..], clock, s);
  }

  /** Touching an instrument that is cached. */
  lemma TouchCovers(v: seq<Slot>, h: seq<Slot>, b: Bounds, clock: real, s: Slot)
    requires Covers(v, h, b, clock) && Has(v, s.token) && clock <= s.touched
    ensures Covers(Touched(v, s), Touched(h, s), b, s.touched)
  {
    hide Distinct, Ordered, Touched, Expired, IndexOf;
    var d, k := |h| - |v|, IndexOf(v, s.token);
    assert v[k] == h[d + k];
    SuffixDistinct(h, d);
    SuffixOrdered(h, d, clock);
    MovedToEnd(v, k, clock, s);
    MovedToEnd(h, d + k, clock, s);
    RemovedSuffix(v, h, d, k, s);
    LaterCovers(v, h, b, clock, s.touched);
  }

  lemma RemovedSuffix(v: seq<Slot>, h: seq<Slot>, d: nat, k: nat, s: Slot)
    requires d <= |h| && v == h[d..] && k < |v|
    ensures var g := h[..d + k] + h[d + k + 1..] + [s];
      v[..k] + v[k + 1..] + [s] == g[d..] && (d > 0 ==> g[d - 1] == h[d - 1])
  {
    var w, g := v[..k] + v[k + 1..], h[..d + k] + h[d + k + 1..];
    assert w == g[d..];
    assert w + [s] == (g + [s])[d..];
  }

  lemma SuffixDistinct(h: seq<Slot>, d: nat)
    requires d <= |h| && Distinct(h)
    ensures Distinct(h[d..])
  {
  }

  lemma AppendedOrdered(g: seq<Slot>, clock: real, s: Slot)
    requires Distinct(g) && Ordered(g, clock) && clock <= s.touched
    requires forall i :: 0 <= i < |g| ==> g[i].token != s.token
    ensures Distinct(g + [s]) && Ordered(g + [s], s.touched)
  {
  }

  lemma RemovedOrdered(h: seq<Slot>, k: nat, clock: real)
    requires Distinct(h) && Ordered(h, clock) && k < |h|
    ensures var g := h[..k] + h[k + 1..];
      Distinct(g) && Ordered(g, clock) && forall i :: 0 <= i < |g| ==> g[i].token != h[k].token
  {
  }

  lemma InSuffix(h: seq<Slot>, d: nat, p: nat)
    requires d <= |h|
    ensures d <= p < |h| ==> Has(h[d..], h[p].token)
  {
    if d <= p < |h| {
      assert h[d..][p - d] == h[p];
    }
  }

  /** Caching an instrument that is not cached, whether or not the history knows it. */
  lemma InsertCovers(v: seq<Slot>, h: seq<Slot>, b: Bounds, clock: real, s: Slot)
    requires Covers(v, h, b, clock) && !Has(v, s.token) && clock <= s.touched
    ensures Covers(Capped(Touched(v, s), b.maxInstruments), Touched(h, s), b, s.touched)
  {
    hide Distinct, Ordered, Without, Capped, Expired, IndexOf;
    var d, p := |h| - |v|, IndexOf(h, s.token);
    WithoutNone(v, s.token);
    InSuffix(h, d, p);
    if p < |h| {
      InsertKnown(v, h, b, clock, s, p);
    } else {
      WithoutNone(h, s.token);
      InsertNew(v, h, h, b, clock, s);
    }
  }

  lemma InsertKnown(v: seq<Slot>, h: seq<Slot>, b: Bounds, clock: real, s: Slot, p: nat)
    requires Covers(v, h, b, clock) && clock <= s.touched
    requires p < |h| - |v| && h[p].token == s.token
    ensures Covers(Capped(v + [s], b.maxInstruments), Without(h, s.token) + [s], b, s.touched)
  {
    hide Distinct, Ordered, Without, Capped, Expired;
    WithoutAt(h, p);
    RemovedOrdered(h, p, clock);
    var g := h[..p] + h[p + 1..];
    assert v == g[|g| - |v|..];
    OlderThan(h, clock, |h| - |v|, p);
    InsertNew(v, h, g, b, clock, s);
  }

  /** Dropping an older slot moves only older ones up. */
  lemma OlderThan(h: seq<Slot>, clock: real, d: nat, p: nat)
    requires Ordered(h, clock) && p < d <= |h|
    ensures d >= 2 ==> (h[..p] + h[p + 1..])[d - 2].touched <= h[d - 1].touched
  {
  }

  /** `g` is the history without the instrument about to be added. */
  lemma InsertNew(v: seq<Slot>, h: seq<Slot>, g: seq<Slot>, b: Bounds, clock: real, s: Slot)
    requires Covers(v, h, b, clock) && clock <= s.touched
    requires Distinct(g) && Ordered(g, clock) && |v| <= |g| && v == g[|g| - |v|..]
    requires forall i :: 0 <= i < |g| ==> g[i].token != s.token
    requires |v| < |g| ==> |v| < |h| && g[|g| - |v| - 1].touched <= h[|h| - |v| - 1].touched
    ensures Covers(Capped(v + [s], b.maxInstruments), g + [s], b, s.touched)
  {
    hide Distinct, Ordered;
    var w := Capped(v + [s], b.maxInstruments);
    var c := |g| - |v|;
    assert v + [s] == (g + [s])[c..];
    assert w == (g + [s])[|g| + 1 - |w|..];
    AppendedOrdered(g, clock, s);
    assert c > 0 ==> (g + [s])[c - 1] == g[c - 1];
  }

  // ---------------------------------------------------------------- whole runs

  datatype Op =
    | Get(token: int, toEvict: Delay, toTouch: Delay)
    | Put(token: int, batch: seq<Candle>, toEvict: Delay, toTouch: Delay)
    | ClearOne(token: int)
    | ClearAll

  datatype CacheState = CacheState(clock: real, slots: seq<Slot>)

  function Apply(b: Bounds, c: CacheState, op: Op): CacheState {
    match op
    case Get(token, d, e) => CacheState(c.clock + d + e, GetSlots(c.slots, b, token, c.clock + d, c.clock + d + e))
    case Put(token, batch, d, e) =>
      CacheState(c.clock + d + e, PutSlots(c.slots, b, token, batch, c.clock + d, c.clock + d + e))
    case ClearOne(token) => CacheState(c.clock, Without(c.slots, token))
    case ClearAll => CacheState(c.clock, [])
  }

  function ApplyAll(b: Bounds, c: CacheState, ops: seq<Op>): CacheState {
    if ops == [] then c else Apply(b, ApplyAll(b, c, ops[..|ops| - 1]), ops[|ops| - 1])
  }

  /** The history: its slots hold every candle put since the instrument last became live, unmerged and
      untruncated.  A touch moves an instrument to the end; nothing is ever evicted.  Only clearing an
      instrument makes it forget: that instrument, and all that was beyond capacity at that moment, so that
      the freed place is not taken by an instrument the cache has long dropped. */
  function Noted(b: Bounds, c: CacheState, op: Op): CacheState {
    match op
    case Get(token, d, e) =>
      var live := Live(c.slots, b, c.clock + d);
      CacheState(c.clock + d + e,
                 if Has(live, token)
                 then Touched(c.slots, Slot(token, c.clock + d + e, CandlesOf(live, token))) else c.slots)
    case Put(token, batch, d, e) =>
      var live := Live(c.slots, b, c.clock + d);
      CacheState(c.clock + d + e,
                 Touched(c.slots, Slot(token, c.clock + d + e, CandlesOf(live, token) + batch)))
    case ClearOne(token) => CacheState(c.clock, Without(Capped(c.slots, b.maxInstruments), token))
    case ClearAll => CacheState(c.clock, [])
  }

  function NotedAll(b: Bounds, c: CacheState, ops: seq<Op>): CacheState {
    if ops == [] then c else Noted(b, NotedAll(b, c, ops[..|ops| - 1]), ops[|ops| - 1])
  }

  /** What the cache shows for a slot of the history: later candles override, the newest are kept. */
  function Shown(s: Slot, n: int): Slot {
    s.(candles := Newest(PlaceAll([], s.candles), n))
  }

  function ShownAll(h: seq<Slot>, n: int): seq<Slot> {
    seq(|h|, i requires 0 <= i < |h| => Shown(h[i], n))
  }

  lemma ShownSnoc(h: seq<Slot>, n: int)
    requires h != []
    ensures ShownAll(h, n) == ShownAll(h[..|h| - 1], n) + [Shown(h[|h| - 1], n)]
    ensures ShownAll(h, n)[..|h| - 1] == ShownAll(h[..|h| - 1], n)
  {
  }

  lemma {:induction false} ShownWithout(h: seq<Slot>, token: int, n: int)
    ensures Without(ShownAll(h, n), token) == ShownAll(Without(h, token), n)
  {
    if h != [] {
      ShownSnoc(h, n);
      ShownWithout(h[..|h| - 1], token, n);
    }
  }

  lemma {:induction false} ShownUnexpired(h: seq<Slot>, now: real, ttl: real, n: int)
    ensures Unexpired(ShownAll(h, n), now, ttl) == ShownAll(Unexpired(h, now, ttl), n)
  {
    if h != [] {
      ShownSnoc(h, n);
      ShownUnexpired(h[..|h| - 1], now, ttl, n);
    }
  }

  lemma ShownLive(h: seq<Slot>, b: Bounds, now: real, n: int)
    ensures Live(ShownAll(h, n), b, now) == ShownAll(Live(h, b, now), n)
  {
    ShownUnexpired(h, now, b.ttl, n);
  }

  lemma {:induction false} ShownIndex(h: seq<Slot>, token: int, n: int)
    ensures IndexOf(ShownAll(h, n), token) == IndexOf(h, token)
  {
    if h != [] && h[0].token != token {
      ShownIndex(h[1..], token, n);
      assert ShownAll(h, n)[1..] == ShownAll(h[1..], n);
    }
  }

  lemma ShownTouched(h: seq<Slot>, s: Slot, n: int)
    ensures Touched(ShownAll(h, n), Shown(s, n)) == ShownAll(Touched(h, s), n)
  {
    ShownWithout(h, s.token, n);
    ShownSnoc(Without(h, s.token) + [s], n);
    assert (Without(h, s.token) + [s])[..|Without(h, s.token)|] == Without(h, s.token);
  }

  /** The cache agrees with a history at one moment. */
  predicate Refines(c: CacheState, h: CacheState, b: Bounds) {
    c.clock == h.clock && Covers(c.slots, ShownAll(h.slots, b.maxCandles), b, c.clock)
  }

  lemma LookupShown(c: CacheState, h: CacheState, b: Bounds, now: real, token: int)
    requires Refines(c, h, b) && c.clock <= now
    ensures var e, live := Unexpired(c.slots, now, b.ttl), Live(h.slots, b, now);
      && Has(e, token) == Has(live, token)
      && (Has(e, token) ==> CandlesOf(e, token) == Newest(PlaceAll([], CandlesOf(live, token)), b.maxCandles))
      && Covers(e, ShownAll(h.slots, b.maxCandles), b, now)
      && e == ShownAll(live, b.maxCandles)
  {
    EvictIsLive(c.slots, ShownAll(h.slots, b.maxCandles), b, c.clock, now);
    ShownLive(h.slots, b, now, b.maxCandles);
    ShownIndex(Live(h.slots, b, now), token, b.maxCandles);
  }

  lemma GetRefines(c: CacheState, h: CacheState, b: Bounds, op: Op)
    requires Refines(c, h, b) && op.Get?
    ensures Refines(Apply(b, c, op), Noted(b, h, op), b)
  {
    hide Covers, Unexpired, Live, IndexOf, Without, Newest, PlaceAll;
    var t1 := c.clock + op.toEvict;
    var t2 := t1 + op.toTouch;
    LookupShown(c, h, b, t1, op.token);
    var e, live := Unexpired(c.slots, t1, b.ttl), Live(h.slots, b, t1);
    if Has(e, op.token) {
      var s := Slot(op.token, t2, CandlesOf(live, op.token));
      ShownTouched(h.slots, s, b.maxCandles);
      TouchCovers(e, ShownAll(h.slots, b.maxCandles), b, t1, Shown(s, b.maxCandles));
    } else {
      LaterCovers(e, ShownAll(h.slots, b.maxCandles), b, t1, t2);
    }
  }

  lemma LaterCovers(v: seq<Slot>, h: seq<Slot>, b: Bounds, clock: real, now: real)
    requires Covers(v, h, b, clock) && clock <= now
    ensures Covers(v, h, b, now)
  {
  }

  lemma PutRefines(c: CacheState, h: CacheState, b: Bounds, op: Op)
    requires Refines(c, h, b) && op.Put? && b.maxCandles >= 0
    ensures Refines(Apply(b, c, op), Noted(b, h, op), b)
  {
    hide Covers, Unexpired, Live, IndexOf, Capped, Newest, PlaceAll, Touched, CandlesOf, Has;
    var t1 := c.clock + op.toEvict;
    var t2 := t1 + op.toTouch;
    LookupShown(c, h, b, t1, op.token);
    var e, live := Unexpired(c.slots, t1, b.ttl), Live(h.slots, b, t1);
    var log := CandlesOf(live, op.token);
    var s := Slot(op.token, t2, log + op.batch);
    NoCandles(e, op.token);
    NoCandles(live, op.token);
    PutOnLog(CandlesOf(e, op.token), log, op.batch, b.maxCandles);
    ShownTouched(h.slots, s, b.maxCandles);
    PutCovers(e, ShownAll(h.slots, b.maxCandles), b, t1, Shown(s, b.maxCandles));
  }

  lemma NoCandles(v: seq<Slot>, token: int)
    ensures !Has(v, token) ==> CandlesOf(v, token) == []
    ensures forall n :: Newest(PlaceAll([], []), n) == []
  {
  }

  /** Touching a cached instrument, or caching a new one. */
  lemma PutCovers(v: seq<Slot>, h: seq<Slot>, b: Bounds, clock: real, s: Slot)
    requires Covers(v, h, b, clock) && clock <= s.touched
    ensures Covers(Capped(Touched(v, s), b.maxInstruments), Touched(h, s), b, s.touched)
  {
    hide Covers, Touched, Capped;
    if Has(v, s.token) {
      TouchCovers(v, h, b, clock, s);
      CoversCapped(Touched(v, s), Touched(h, s), b, s.touched);
    } else {
      InsertCovers(v, h, b, clock, s);
    }
  }

  lemma CoversCapped(v: seq<Slot>, h: seq<Slot>, b: Bounds, clock: real)
    requires Covers(v, h, b, clock)
    ensures Capped(v, b.maxInstruments) == v
  {
  }

  /** Putting a batch on what is shown is showing the longer log. */
  lemma PutOnLog(shown: seq<Candle>, log: seq<Candle>, batch: seq<Candle>, n: int)
    requires n >= 0 && shown == Newest(PlaceAll([], log), n)
    ensures PutCandles(shown, batch, n) == Newest(PlaceAll([], log + batch), n)
  {
    PutsComposeIff(n);
    assert Ascending([]);
    assert shown == PutCandles([], log, n);
  }

  /** Over every run on a clock that does not run backwards, the evicting cache refines the history that
      never evicts. */
  lemma {:induction false} CacheRefinesHistory(b: Bounds, c: CacheState, h: CacheState, ops: seq<Op>)
    requires b.maxInstruments >= 0 && b.maxCandles >= 0 && Refines(c, h, b)
    ensures Refines(ApplyAll(b, c, ops), NotedAll(b, h, ops), b)
  {
    if ops != [] {
      hide Refines, Apply, Noted;
      var init, op := ops[..|ops| - 1], ops[|ops| - 1];
      CacheRefinesHistory(b, c, h, init);
      var c', h' := ApplyAll(b, c, init), NotedAll(b, h, init);
      match op
      case Get(_, _, _) => GetRefines(c', h', b, op);
      case Put(_, _, _, _) => PutRefines(c', h', b, op);
      case ClearOne(token) => ClearOneRefines(c', h', b, token);
      case ClearAll => ClearRefines(c', h', b);
    }
  }

  lemma ClearOneRefines(c: CacheState, h: CacheState, b: Bounds, token: int)
    requires Refines(c, h, b) && b.maxInstruments >= 0
    ensures Refines(Apply(b, c, ClearOne(token)), Noted(b, h, ClearOne(token)), b)
  {
    hide Covers, Without, Shown;
    var recent := Capped(h.slots, b.maxInstruments);
    ShownWithout(recent, token, b.maxCandles);
    assert ShownAll(recent, b.maxCandles) == Capped(ShownAll(h.slots, b.maxCandles), b.maxInstruments);
    RecentCovers(c.slots, ShownAll(h.slots, b.maxCandles), b, c.clock);
    ClearCovers(c.slots, ShownAll(recent, b.maxCandles), b, c.clock, token);
  }

  /** The cache is also the newest part of the history within capacity. */
  lemma RecentCovers(v: seq<Slot>, h: seq<Slot>, b: Bounds, clock: real)
    requires Covers(v, h, b, clock) && b.maxInstruments >= 0
    ensures Covers(v, Capped(h, b.maxInstruments), b, clock)
  {
    hide Distinct, Ordered, Expired;
    var d := |h| - |Capped(h, b.maxInstruments)|;
    SuffixDistinct(h, d);
    SuffixOrdered(h, d, clock);
    assert Capped(h, b.maxInstruments) == h[d..];
  }

  /** Removing one instrument from a history within capacity and from its cache. */
  lemma ClearCovers(v: seq<Slot>, h: seq<Slot>, b: Bounds, clock: real, token: int)
    requires Covers(v, h, b, clock) && |h| <= b.maxInstruments
    ensures Covers(Without(v, token), Without(h, token), b, clock)
  {
    hide Distinct, Ordered, Without, IndexOf, Expired;
    var d, p := |h| - |v|, IndexOf(h, token);
    NotBefore(h, d, token);
    if p == |h| {
      WithoutNone(h, token);
      WithoutNone(v, token);
    } else {
      WithoutAt(h, p);
      RemovedOrdered(h, p, clock);
      if p < d {
        OnlyAt(h, d, p, token);
        WithoutNone(v, token);
        ClearedBefore(v, h, b, clock, p);
      } else {
        SuffixDistinct(h, d);
        assert v[p - d] == h[p];
        WithoutAt(v, p - d);
        ClearedWithin(v, h, b, clock, p);
      }
    }
  }

  lemma ClearedBefore(v: seq<Slot>, h: seq<Slot>, b: Bounds, clock: real, p: nat)
    requires Covers(v, h, b, clock) && |h| <= b.maxInstruments && p < |h| - |v|
    requires var g := h[..p] + h[p + 1..]; Distinct(g) && Ordered(g, clock)
    ensures Covers(v, h[..p] + h[p + 1..], b, clock)
  {
    var g, d := h[..p] + h[p + 1..], |h| - |v|;
    OlderThan(h, clock, d, p);
    hide Distinct, Ordered;
    assert v == g[|g| - |v|..];
    assert d >= 2 ==> g[|g| - |v| - 1] == g[d - 2];
  }

  lemma ClearedWithin(v: seq<Slot>, h: seq<Slot>, b: Bounds, clock: real, p: nat)
    requires Covers(v, h, b, clock) && |h| <= b.maxInstruments && |h| - |v| <= p < |h|
    requires var g := h[..p] + h[p + 1..]; Distinct(g) && Ordered(g, clock)
    ensures var k := p - (|h| - |v|); Covers(v[..k] + v[k + 1..], h[..p] + h[p + 1..], b, clock)
  {
    hide Distinct, Ordered, Expired;
    var g, d := h[..p] + h[p + 1..], |h| - |v|;
    var w := v[..p - d] + v[p - d + 1..];
    assert w == g[d..];
    assert d > 0 ==> g[d - 1] == h[d - 1];
  }

  lemma NotBefore(h: seq<Slot>, d: nat, token: int)
    requires d <= |h|
    ensures IndexOf(h, token) == |h| ==> forall i :: 0 <= i < |h| - d ==> h[d..][i].token != token
  {
  }

  lemma OnlyAt(h: seq<Slot>, d: nat, p: nat, token: int)
    requires Distinct(h) && p < d <= |h| && h[p].token == token
    ensures forall i :: 0 <= i < |h| - d ==> h[d..][i].token != token
  {
  }

  lemma ClearRefines(c: CacheState, h: CacheState, b: Bounds)
    requires Refines(c, h, b)
    ensures Refines(Apply(b, c, ClearAll), Noted(b, h, ClearAll), b)
  {
  }

  /** So after eviction at any later time the cache holds exactly the live instruments of the history, in
      order, each with its candles overridden by timestamp and cut to the newest. */
  lemma CachedAreTheLive(b: Bounds, clock: real, ops: seq<Op>, now: real, token: int)
    requires b.maxInstruments >= 0 && b.maxCandles >= 0
    requires ApplyAll(b, CacheState(clock, []), ops).clock <= now
    ensures var e := Unexpired(ApplyAll(b, CacheState(clock, []), ops).slots, now, b.ttl);
      var live := Live(NotedAll(b, CacheState(clock, []), ops).slots, b, now);
      && |e| == |live| && (forall i :: 0 <= i < |e| ==> e[i] == Shown(live[i], b.maxCandles))
      && (Has(e, token) <==> Has(live, token))
  {
    var c := CacheState(clock, []);
    CacheRefinesHistory(b, c, c, ops);
    LookupShown(ApplyAll(b, c, ops), NotedAll(b, c, ops), b, now, token);
  }
}
