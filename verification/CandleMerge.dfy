/** How src/data/cache.py merges, sorts and truncates the candles of one instrument. */
module CandleMerge {

  /** One bar; the timestamp is in whole time units. */
  datatype Candle = Candle(timestamp: int, open: real, high: real, low: real, close: real, volume: int)

  ghost predicate Ascending(l: seq<Candle>) {
    forall i, j :: 0 <= i < j < |l| ==> l[i].timestamp < l[j].timestamp
  }

  // ---------------------------------------------------------------- the simple form

  /** Puts one candle into an ascending list; a candle with the same timestamp is replaced. */
  function Place(l: seq<Candle>, c: Candle): seq<Candle> {
    if l == [] || c.timestamp < l[0].timestamp then [c] + l
    else if c.timestamp == l[0].timestamp then [c] + l[1..]
    else [l[0]] + Place(l[1..], c)
  }

  function PlaceAll(l: seq<Candle>, cs: seq<Candle>): seq<Candle> {
    if cs == [] then l else Place(PlaceAll(l, cs[..|cs| - 1]), cs[|cs| - 1])
  }

  /** `existing[-n:]` when the list is longer than `n`: the newest `n` for a positive `n`, everything for
      zero, and all but the oldest `-n` for a negative one. */
  function Newest(l: seq<Candle>, n: int): seq<Candle> {
    if |l| <= n then l
    else if n > 0 then l[|l| - n..]
    else if -n <= |l| then l[-n..]
    else []
  }

  /** A positive limit leaves the newest, zero leaves everything, and a negative one drops that many of the oldest. */
  lemma NewestMeaning(l: seq<Candle>, n: int)
    ensures n >= 1 ==> |Newest(l, n)| <= n && Newest(l, n) == l[|l| - |Newest(l, n)|..]
    ensures n >= 1 && |l| >= n ==> |Newest(l, n)| == n
    ensures n == 0 || (n >= 1 && |l| <= n) ==> Newest(l, n) == l
    ensures n < 0 ==> l[|l| - |Newest(l, n)|..] == Newest(l, n) && |Newest(l, n)| == if -n <= |l| then |l| + n else 0
  {
  }

  /** The candles of an instrument after one `put`. */
  function PutCandles(l: seq<Candle>, batch: seq<Candle>, n: int): seq<Candle> {
    Newest(PlaceAll(l, batch), n)
  }

  /** The tail of an ascending list is the list without its first candle. */
  lemma TailElements(l: seq<Candle>, x: Candle)
    requires Ascending(l) && l != []
    ensures x in l[1..] <==> x in l && x.timestamp != l[0].timestamp
    ensures x in l[1..] ==> x.timestamp > l[0].timestamp
    ensures x in l && x.timestamp == l[0].timestamp ==> x == l[0]
  {
    if x in l[1..] {
      var i :| 0 <= i < |l[1..]| && l[1..][i] == x;
      assert l[i + 1] == x;
    }
    if x in l {
      var i :| 0 <= i < |l| && l[i] == x;
      if i > 0 {
        assert l[1..][i - 1] == x;
      }
    }
  }

  lemma ConsAscending(c: Candle, l: seq<Candle>)
    requires Ascending(l) && forall x :: x in l ==> c.timestamp < x.timestamp
    ensures Ascending([c] + l)
  {
    var r := [c] + l;
    forall i, j | 0 <= i < j < |r| ensures r[i].timestamp < r[j].timestamp {
      assert r[j] == l[j - 1] && l[j - 1] in l;
    }
  }

  lemma {:induction false} PlaceKeeps(l: seq<Candle>, c: Candle)
    requires Ascending(l)
    ensures Ascending(Place(l, c))
    ensures forall x :: x in Place(l, c) <==> x == c || (x in l && x.timestamp != c.timestamp)
    ensures |l| <= |Place(l, c)| <= |l| + 1
  {
    if l != [] {
      forall x
        ensures x in l[1..] <==> x in l && x.timestamp != l[0].timestamp
        ensures x in l[1..] ==> x.timestamp > l[0].timestamp
        ensures x in l && x.timestamp == l[0].timestamp ==> x == l[0]
      {
        TailElements(l, x);
      }
      if c.timestamp < l[0].timestamp {
        ConsAscending(c, l);
      } else if c.timestamp == l[0].timestamp {
        ConsAscending(c, l[1..]);
      } else {
        PlaceKeeps(l[1..], c);
        ConsAscending(l[0], Place(l[1..], c));
      }
    }
  }

  lemma {:induction false} PlaceAllKeeps(l: seq<Candle>, cs: seq<Candle>)
    requires Ascending(l)
    ensures Ascending(PlaceAll(l, cs)) && |l| <= |PlaceAll(l, cs)|
  {
    if cs != [] {
      PlaceAllKeeps(l, cs[..|cs| - 1]);
      PlaceKeeps(PlaceAll(l, cs[..|cs| - 1]), cs[|cs| - 1]);
    }
  }

  /** `c` is the last candle of `cs` to carry its timestamp. */
  ghost predicate LatestOf(cs: seq<Candle>, c: Candle) {
    exists i :: 0 <= i < |cs| && cs[i] == c && forall j :: i < j < |cs| ==> cs[j].timestamp != c.timestamp
  }

  lemma LatestSnoc(cs: seq<Candle>, last: Candle, c: Candle)
    ensures LatestOf(cs + [last], c) <==> c == last || (LatestOf(cs, c) && c.timestamp != last.timestamp)
  {
    var all, n := cs + [last], |cs|;
    if c == last {
      assert all[n] == c;
    } else if LatestOf(cs, c) && c.timestamp != last.timestamp {
      var i :| 0 <= i < n && cs[i] == c && forall j :: i < j < n ==> cs[j].timestamp != c.timestamp;
      assert all[i] == c;
    } else if LatestOf(all, c) {
      var i :| 0 <= i < |all| && all[i] == c && forall j :: i < j < |all| ==> all[j].timestamp != c.timestamp;
      assert i < n && cs[i] == c && all[n] == last;
      forall j | i < j < n ensures cs[j].timestamp != c.timestamp {
        assert all[j] == cs[j];
      }
    }
  }

  /** What placing means: ascending, and for every timestamp exactly the last candle that carried it. */
  lemma {:induction false} PlaceAllMeaning(cs: seq<Candle>)
    ensures Ascending(PlaceAll([], cs))
    ensures forall c :: c in PlaceAll([], cs) <==> LatestOf(cs, c)
  {
    if cs != [] {
      hide LatestOf, Ascending;
      var n := |cs| - 1;
      PlaceAllMeaning(cs[..n]);
      PlaceKeeps(PlaceAll([], cs[..n]), cs[n]);
      assert cs == cs[..n] + [cs[n]];
      forall c ensures c in PlaceAll([], cs) <==> LatestOf(cs, c) {
        LatestSnoc(cs[..n], cs[n], c);
      }
    } else {
      assert PlaceAll([], cs) == [];
    }
  }

  // ---------------------------------------------------------------- truncation is a homomorphism

  lemma NewestTail(x: Candle, l: seq<Candle>, n: int)
    requires n >= 1 && |l| >= n
    ensures Newest([x] + l, n) == Newest(l, n)
  {
  }

  /** A candle that truncation dropped can never come back among the newest `n`. */
  lemma {:induction false} TruncateBeforePlace(l: seq<Candle>, c: Candle, n: int)
    requires n >= 1 && Ascending(l)
    ensures Newest(Place(Newest(l, n), c), n) == Newest(Place(l, c), n)
  {
    hide Newest, Ascending, Place;
    NewestShort(l, n);
    if |l| > n {
      assert l == [l[0]] + l[1..];
      PlaceCases(l, c);
      NewestTail(l[0], l[1..], n);
      TruncateBeforePlace(l[1..], c, n);
      PlaceKeeps(l[1..], c);
      if c.timestamp < l[0].timestamp {
        NewestTail(c, l, n);
        NewestTail(c, l[1..], n);
      } else if c.timestamp > l[0].timestamp {
        NewestTail(l[0], Place(l[1..], c), n);
      }
    }
  }

  lemma NewestShort(l: seq<Candle>, n: int)
    ensures |l| <= n ==> Newest(l, n) == l
  {
  }

  /** Placing into a list and into its tail. */
  lemma PlaceCases(l: seq<Candle>, c: Candle)
    requires Ascending(l) && l != []
    ensures Ascending(l[1..])
    ensures c.timestamp <= l[0].timestamp ==> Place(l[1..], c) == [c] + l[1..]
    ensures c.timestamp < l[0].timestamp ==> Place(l, c) == [c] + l
    ensures c.timestamp == l[0].timestamp ==> Place(l, c) == [c] + l[1..]
    ensures c.timestamp > l[0].timestamp ==> Place(l, c) == [l[0]] + Place(l[1..], c)
  {
  }

  lemma {:induction false} TruncateBeforePlaceAll(l: seq<Candle>, cs: seq<Candle>, n: int)
    requires n >= 0 && Ascending(l)
    ensures Newest(PlaceAll(Newest(l, n), cs), n) == Newest(PlaceAll(l, cs), n)
  {
    if n > 0 && cs != [] {
      var c, init := cs[|cs| - 1], cs[..|cs| - 1];
      TruncateBeforePlaceAll(l, init, n);
      PlaceAllKeeps(l, init);
      PlaceAllKeeps(Newest(l, n), init);
      TruncateBeforePlace(PlaceAll(l, init), c, n);
      TruncateBeforePlace(PlaceAll(Newest(l, n), init), c, n);
    }
  }

  lemma {:induction false} PlaceAllAppend(l: seq<Candle>, a: seq<Candle>, b: seq<Candle>)
    ensures PlaceAll(l, a + b) == PlaceAll(PlaceAll(l, a), b)
  {
    if b == [] {
      assert a + b == a;
    } else {
      PlaceAllAppend(l, a, b[..|b| - 1]);
      assert (a + b)[..|a + b| - 1] == a + b[..|b| - 1];
    }
  }

  /** Two puts in a row are one put of both batches. */
  ghost predicate PutsCompose(n: int) {
    forall l, a, b :: Ascending(l) ==> PutCandles(PutCandles(l, a, n), b, n) == PutCandles(l, a + b, n)
  }

  function Bars(k: nat): seq<Candle> {
    seq(k, i requires 0 <= i < k => Candle(i, 1.0, 1.0, 1.0, 1.0, 1))
  }

  lemma {:induction false} BarsStay(k: nat)
    ensures PlaceAll([], Bars(k)) == Bars(k)
  {
    if k > 0 {
      BarsStay(k - 1);
      assert Bars(k)[..k - 1] == Bars(k - 1);
      PlaceAtEnd(Bars(k - 1), Bars(k)[k - 1]);
      assert Bars(k) == Bars(k - 1) + [Bars(k)[k - 1]];
    }
  }

  lemma {:induction false} PlaceAtEnd(l: seq<Candle>, c: Candle)
    requires forall i :: 0 <= i < |l| ==> l[i].timestamp < c.timestamp
    ensures Place(l, c) == l + [c]
  {
    if l != [] {
      PlaceAtEnd(l[1..], c);
      assert l == [l[0]] + l[1..];
    }
  }

  /** Puts compose exactly when the candle limit is not negative; a limit of zero keeps everything, and a
      negative one drops candles again at every put. */
  lemma PutsComposeIff(n: int)
    ensures PutsCompose(n) <==> n >= 0
  {
    if n >= 0 {
      forall l, a, b | Ascending(l) ensures PutCandles(PutCandles(l, a, n), b, n) == PutCandles(l, a + b, n) {
        PlaceAllAppend(l, a, b);
        PlaceAllKeeps(l, a);
        TruncateBeforePlaceAll(PlaceAll(l, a), b, n);
      }
    } else {
      var k := -n + 1;
      BarsStay(k);
      assert Bars(k) + [] == Bars(k);
      assert Ascending([]);
      assert |PutCandles(PutCandles([], Bars(k), n), [], n)| == 0 && |PutCandles([], Bars(k) + [], n)| == 1;
    }
  }

  /** At most `n` candles are stored, whatever was stored before and whatever is put. */
  ghost predicate StoresAtMost(n: int) {
    forall l, batch :: Ascending(l) ==> |PutCandles(l, batch, n)| <= n
  }

  /** The candle limit is one exactly when it is positive. */
  lemma StoresAtMostIff(n: int)
    ensures StoresAtMost(n) <==> n >= 1
  {
    if n < 1 {
      assert Ascending([]);
      assert |PutCandles([], Bars(1), n)| > n;
    }
  }

  /** With a limit of zero nothing is ever dropped: the store is all that was put, and it only grows. */
  lemma ZeroLimitKeepsAll(batches: seq<seq<Candle>>, batch: seq<Candle>)
    ensures PutRun([], batches, 0) == PlaceAll([], Joined(batches))
    ensures |PutRun([], batches, 0)| <= |PutRun([], batches + [batch], 0)|
  {
    PutRunMeaning(batches, 0);
    assert Ascending([]);
    PlaceAllKeeps([], Joined(batches));
    PlaceAllKeeps(PutRun([], batches, 0), batch);
    assert (batches + [batch])[..|batches|] == batches;
  }

  function PutRun(l: seq<Candle>, batches: seq<seq<Candle>>, n: int): seq<Candle> {
    if batches == [] then l
    else PutCandles(PutRun(l, batches[..|batches| - 1], n), batches[|batches| - 1], n)
  }

  function Joined(batches: seq<seq<Candle>>): seq<Candle> {
    if batches == [] then [] else Joined(batches[..|batches| - 1]) + batches[|batches| - 1]
  }

  /** So any run of puts is: override by timestamp, later wins, then keep the newest. */
  lemma {:induction false} PutRunMeaning(batches: seq<seq<Candle>>, n: int)
    requires n >= 0
    ensures PutRun([], batches, n) == Newest(PlaceAll([], Joined(batches)), n)
  {
    if batches != [] {
      var init := batches[..|batches| - 1];
      PutRunMeaning(init, n);
      PutsComposeIff(n);
      assert Ascending([]);
      assert PutCandles(PutCandles([], Joined(init), n), batches[|batches| - 1], n)
          == PutCandles([], Joined(batches), n);
    }
  }

  // ---------------------------------------------------------------- the form the code uses

  /** Stable insertion by timestamp. */
  function InsertByTime(l: seq<Candle>, c: Candle): seq<Candle> {
    if l == [] || c.timestamp < l[0].timestamp then [c] + l else [l[0]] + InsertByTime(l[1..], c)
  }

  /** The library's sort by timestamp. */
  function SortByTime(s: seq<Candle>): seq<Candle> {
    if s == [] then [] else InsertByTime(SortByTime(s[..|s| - 1]), s[|s| - 1])
  }

  ghost predicate NonDescending(l: seq<Candle>) {
    forall i, j :: 0 <= i < j < |l| ==> l[i].timestamp <= l[j].timestamp
  }

  lemma {:induction false} InsertKeepsAll(l: seq<Candle>, c: Candle)
    ensures multiset(InsertByTime(l, c)) == multiset(l) + multiset{c}
  {
    if l != [] && c.timestamp >= l[0].timestamp {
      InsertKeepsAll(l[1..], c);
      assert l == [l[0]] + l[1..];
    }
  }

  lemma {:induction false} InsertSorts(l: seq<Candle>, c: Candle)
    requires NonDescending(l)
    ensures NonDescending(InsertByTime(l, c))
  {
    if l != [] && c.timestamp >= l[0].timestamp {
      InsertSorts(l[1..], c);
      var rest := InsertByTime(l[1..], c);
      InsertKeepsAll(l[1..], c);
      forall j | 0 <= j < |rest| ensures l[0].timestamp <= rest[j].timestamp {
        assert rest[j] in multiset(rest);
        assert rest[j] == c || rest[j] in l[1..];
      }
    }
  }

  lemma {:induction false} SortSorts(s: seq<Candle>)
    ensures NonDescending(SortByTime(s)) && multiset(SortByTime(s)) == multiset(s)
  {
    if s != [] {
      SortSorts(s[..|s| - 1]);
      InsertSorts(SortByTime(s[..|s| - 1]), s[|s| - 1]);
      InsertKeepsAll(SortByTime(s[..|s| - 1]), s[|s| - 1]);
      assert s == s[..|s| - 1] + [s[|s| - 1]];
    }
  }

  ghost predicate DistinctTimes(s: seq<Candle>) {
    forall i, j :: 0 <= i < j < |s| ==> s[i].timestamp != s[j].timestamp
  }

  lemma {:induction false} SortDistinct(s: seq<Candle>)
    requires DistinctTimes(s)
    ensures Ascending(SortByTime(s)) && forall x :: x in SortByTime(s) <==> x in s
  {
    SortSorts(s);
    var r := SortByTime(s);
    forall x ensures x in r <==> x in s {
      assert x in r <==> x in multiset(r);
      assert x in s <==> x in multiset(s);
    }
    if s != [] {
      var n := |s| - 1;
      SortDistinct(s[..n]);
      InsertDistinct(SortByTime(s[..n]), s[n]);
    }
  }

  lemma {:induction false} InsertDistinct(l: seq<Candle>, c: Candle)
    requires Ascending(l) && forall x :: x in l ==> x.timestamp != c.timestamp
    ensures InsertByTime(l, c) == Place(l, c) && Ascending(InsertByTime(l, c))
  {
    PlaceKeeps(l, c);
    if l != [] {
      InsertDistinct(l[1..], c);
    }
  }

  /** An ascending list is determined by its elements. */
  lemma {:induction false} AscendingUnique(a: seq<Candle>, b: seq<Candle>)
    requires Ascending(a) && Ascending(b) && forall x :: x in a <==> x in b
    ensures a == b
  {
    assert a != [] ==> a[0] in a && a[0] in b;
    assert b != [] ==> b[0] in b && b[0] in a;
    if a != [] {
      assert a[0] == b[0];
      forall x ensures x in a[1..] <==> x in b[1..] {
        TailElements(a, x);
        TailElements(b, x);
      }
      AscendingUnique(a[1..], b[1..]);
      assert a == [a[0]] + a[1..] && b == [b[0]] + b[1..];
    }
  }

  /** `index` finds each timestamp of `list` at its one position. */
  ghost predicate Indexes(index: map<int, nat>, list: seq<Candle>) {
    && (forall t :: t in index ==> index[t] < |list| && list[index[t]].timestamp == t)
    && (forall i :: 0 <= i < |list| ==> list[i].timestamp in index && index[list[i].timestamp] == i)
  }

  /** One turn of the merge loop, timestamp known: overwriting, then sorting, is placing into the sorted list. */
  lemma MergeOverwrites(list: seq<Candle>, index: map<int, nat>, c: Candle)
    requires Indexes(index, list) && c.timestamp in index
    ensures Indexes(index, list[index[c.timestamp] := c])
    ensures SortByTime(list[index[c.timestamp] := c]) == Place(SortByTime(list), c)
  {
    hide SortByTime, Place, Ascending;
    var i := index[c.timestamp];
    var updated := list[i := c];
    assert Indexes(index, updated);
    assert DistinctTimes(list) && DistinctTimes(updated);
    hide Indexes, DistinctTimes;
    SortDistinct(list);
    SortDistinct(updated);
    PlaceKeeps(SortByTime(list), c);
    forall x ensures x in SortByTime(updated) <==> x in Place(SortByTime(list), c) {
      UpdatedElements(list, i, c, x);
    }
    AscendingUnique(SortByTime(updated), Place(SortByTime(list), c));
  }

  /** One turn of the merge loop, timestamp new. */
  lemma MergeAppends(list: seq<Candle>, index: map<int, nat>, c: Candle)
    requires Indexes(index, list) && c.timestamp !in index
    ensures Indexes(index[c.timestamp := |list|], list + [c])
    ensures SortByTime(list + [c]) == Place(SortByTime(list), c)
  {
    hide SortByTime, Place, Ascending;
    var longer := list + [c];
    assert Indexes(index[c.timestamp := |list|], longer);
    assert DistinctTimes(list) && DistinctTimes(longer);
    assert forall x :: x in list ==> x.timestamp != c.timestamp;
    hide Indexes, DistinctTimes;
    SortDistinct(list);
    SortDistinct(longer);
    PlaceKeeps(SortByTime(list), c);
    assert forall x :: x in longer <==> x == c || x in list;
    AscendingUnique(SortByTime(longer), Place(SortByTime(list), c));
  }

  lemma UpdatedElements(list: seq<Candle>, i: nat, c: Candle, x: Candle)
    requires i < |list| && DistinctTimes(list) && list[i].timestamp == c.timestamp
    ensures x in list[i := c] <==> x == c || (x in list && x.timestamp != c.timestamp)
  {
    if x in list && x.timestamp != c.timestamp {
      var j :| 0 <= j < |list| && list[j] == x;
      assert list[i := c][j] == x;
    }
    assert list[i := c][i] == c;
  }

  /** A list that is already ascending is its own sorted form, and its own placed form. */
  lemma AscendingIsFixed(l: seq<Candle>)
    requires Ascending(l)
    ensures SortByTime(l) == l && PlaceAll([], l) == l
  {
    SortDistinct(l);
    AscendingUnique(SortByTime(l), l);
    PlaceAllMeaning(l);
    forall c ensures c in PlaceAll([], l) <==> c in l {
      if c in l {
        var i :| 0 <= i < |l| && l[i] == c;
        assert LatestOf(l, c);
      }
    }
    AscendingUnique(PlaceAll([], l), l);
  }

  lemma NewestAscending(l: seq<Candle>, n: int)
    requires Ascending(l)
    ensures Ascending(Newest(l, n))
  {
  }

  /** `{c.timestamp: i for i, c in enumerate(list)}`. */
  method IndexTimes(list: seq<Candle>) returns (index: map<int, nat>)
    requires Ascending(list)
    ensures Indexes(index, list)
  {
    index := map[];
    for i := 0 to |list|
      invariant Indexes(index, list[..i])
    {
      index := index[list[i].timestamp := i];
    }
    assert list[..|list|] == list;
  }

  /** The merge as written: an index over the existing list, overwrite or append, sort, truncate. */
  method Merge(existing: seq<Candle>, candles: seq<Candle>, maxCandles: int) returns (r: seq<Candle>)
    requires Ascending(existing)
    ensures r == PutCandles(existing, candles, maxCandles)
    ensures Ascending(r)
  {
    hide Ascending, SortByTime, Place;
    var list := existing;
    var index: map<int, nat> := IndexTimes(existing);
    AscendingIsFixed(existing);
    for i := 0 to |candles|
      invariant Indexes(index, list)
      invariant SortByTime(list) == PlaceAll(existing, candles[..i])
    {
      assert candles[..i + 1][..i] == candles[..i];
      if candles[i].timestamp in index {
        MergeOverwrites(list, index, candles[i]);
        list := list[index[candles[i].timestamp] := candles[i]];
      } else {
        MergeAppends(list, index, candles[i]);
        list := list + [candles[i]];
        index := index[candles[i].timestamp := |list| - 1];
      }
    }
    assert candles[..|candles|] == candles;
    PlaceAllKeeps(existing, candles);
    NewestAscending(PlaceAll(existing, candles), maxCandles);
    r := SortByTime(list);
    if |r| > maxCandles {
      if maxCandles > 0 {
        r := r[|r| - maxCandles..];
      } else if -maxCandles <= |r| {
        r := r[-maxCandles..];
      } else {
        r := [];
      }
    }
  }
}
