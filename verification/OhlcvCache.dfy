/** The candle cache of src/data/cache.py: an ordered dictionary, a table of access times, and their loops. */
module Caches {
  import opened Prelude
  import opened CandleMerge
  import opened CacheEviction

  /** The keys of an ordered dictionary after `pop`. */
  function Drop(order: seq<int>, token: int): seq<int> {
    if order == [] then []
    else
      var n := |order| - 1;
      Drop(order[..n], token) + if order[n] == token then [] else [order[n]]
  }

  predicate Tracked(order: seq<int>, data: map<int, seq<Candle>>, access: map<int, real>) {
    && (forall i, j :: 0 <= i < j < |order| ==> order[i] != order[j])
    && (forall i :: 0 <= i < |order| ==> order[i] in data && order[i] in access)
  }

  /** The slots the three structures stand for. */
  function Slots(order: seq<int>, data: map<int, seq<Candle>>, access: map<int, real>): (v: seq<Slot>)
    requires Tracked(order, data, access)
    ensures |v| == |order|
    ensures forall i :: 0 <= i < |v| ==> v[i] == Slot(order[i], access[order[i]], data[order[i]])
  {
    seq(|order|, i requires 0 <= i < |order| => Slot(order[i], access[order[i]], data[order[i]]))
  }

  lemma SlotsSnoc(order: seq<int>, data: map<int, seq<Candle>>, access: map<int, real>)
    requires Tracked(order, data, access) && order != []
    ensures Tracked(order[..|order| - 1], data, access)
    ensures Slots(order, data, access)[..|order| - 1] == Slots(order[..|order| - 1], data, access)
  {
  }

  /** Popping a key is removing its slot. */
  lemma {:induction false} DropIsWithout(order: seq<int>, data: map<int, seq<Candle>>, access: map<int, real>,
                                         token: int)
    requires Tracked(order, data, access)
    ensures var rest := Drop(order, token);
      && Tracked(rest, data, access) && Slots(rest, data, access) == Without(Slots(order, data, access), token)
      && (forall t :: t in rest <==> t in order && t != token)
  {
    if order != [] {
      var n := |order| - 1;
      SlotsSnoc(order, data, access);
      DropIsWithout(order[..n], data, access, token);
      assert order == order[..n] + [order[n]];
      assert order[n] !in order[..n];
    }
  }

  /** Slots depend only on the entries of the keys in order. */
  lemma SlotsFrame(order: seq<int>, data: map<int, seq<Candle>>, access: map<int, real>,
                   data': map<int, seq<Candle>>, access': map<int, real>)
    requires Tracked(order, data, access)
    requires forall t :: t in order ==> t in data' && t in access' && data'[t] == data[t] && access'[t] == access[t]
    ensures Tracked(order, data', access') && Slots(order, data', access') == Slots(order, data, access)
  {
  }

  function WithoutSet(v: seq<Slot>, tokens: set<int>): seq<Slot> {
    if v == [] then []
    else
      var n := |v| - 1;
      WithoutSet(v[..n], tokens) + if v[n].token in tokens then [] else [v[n]]
  }

  lemma {:induction false} WithoutSetMore(v: seq<Slot>, tokens: set<int>, token: int)
    ensures Without(WithoutSet(v, tokens), token) == WithoutSet(v, tokens + {token})
  {
    if v != [] {
      var n := |v| - 1;
      WithoutSetMore(v[..n], tokens, token);
      var rest := WithoutSet(v[..n], tokens);
      if v[n].token !in tokens {
        assert (rest + [v[n]])[..|rest|] == rest;
      } else {
        assert WithoutSet(v, tokens) == rest;
      }
    }
  }

  lemma {:induction false} WithoutNothing(v: seq<Slot>)
    ensures WithoutSet(v, {}) == v
  {
    if v != [] {
      WithoutNothing(v[..|v| - 1]);
    }
  }

  lemma {:induction false} WithoutExpired(v: seq<Slot>, tokens: set<int>, now: real, ttl: real)
    requires forall i :: 0 <= i < |v| ==> (v[i].token in tokens <==> Expired(v[i], now, ttl))
    ensures WithoutSet(v, tokens) == Unexpired(v, now, ttl)
  {
    if v != [] {
      WithoutExpired(v[..|v| - 1], tokens, now, ttl);
    }
  }

  lemma HasToken(order: seq<int>, data: map<int, seq<Candle>>, access: map<int, real>, token: int)
    requires Tracked(order, data, access)
    ensures Has(Slots(order, data, access), token) <==> token in order
    ensures token in order ==> CandlesOf(Slots(order, data, access), token) == data[token]
  {
    var v := Slots(order, data, access);
    if token in order {
      var i :| 0 <= i < |order| && order[i] == token;
      assert v[i].token == token;
    }
  }

  /** `[c for c in candles if c.timestamp >= since]`, or everything. */
  function Since(candles: seq<Candle>, since: Option<int>): seq<Candle> {
    if since.None? || candles == [] then candles
    else
      var n := |candles| - 1;
      Since(candles[..n], since) + if candles[n].timestamp >= since.value then [candles[n]] else []
  }

  /** The answer of a lookup: every cached candle from `since` on and no other, in the cached order. */
  lemma {:induction false} SinceMeaning(candles: seq<Candle>, since: Option<int>)
    ensures forall c :: c in Since(candles, since) <==>
      c in candles && (since.Some? ==> c.timestamp >= since.value)
    ensures Ascending(candles) ==> Ascending(Since(candles, since))
  {
    if since.Some? && candles != [] {
      var n := |candles| - 1;
      SinceMeaning(candles[..n], since);
      assert candles == candles[..n] + [candles[n]];
      if Ascending(candles) {
        var rest := Since(candles[..n], since);
        forall c | c in rest ensures c.timestamp < candles[n].timestamp {
          assert c in candles[..n];
        }
      }
    }
  }

  class OhlcvCache {
    const bounds: Bounds
    var order: seq<int>
    var data: map<int, seq<Candle>>
    var lastAccess: map<int, real>

    ghost predicate Valid()
      reads this
    {
      && Tracked(order, data, lastAccess)
      && (forall t :: t in data ==> t in order) && (forall t :: t in lastAccess ==> t in order)
      && (forall t :: t in data ==> Ascending(data[t]))
    }

    ghost function View(): seq<Slot>
      requires Valid()
      reads this
    {
      Slots(order, data, lastAccess)
    }

    constructor (bounds: Bounds)
      ensures Valid() && View() == [] && this.bounds == bounds
    {
      this.bounds := bounds;
      order, data, lastAccess := [], map[], map[];
    }

    /** `pop` from both dictionaries. */
    method Pop(token: int)
      requires Valid()
      modifies this
      ensures Valid() && View() == Without(old(View()), token)
      ensures forall t :: t in order <==> t in old(order) && t != token
    {
      DropIsWithout(order, data, lastAccess, token);
      SlotsFrame(Drop(order, token), data, lastAccess, data - {token}, lastAccess - {token});
      order := Drop(order, token);
      data := data - {token};
      lastAccess := lastAccess - {token};
    }

    method EvictExpired(now: real)
      requires Valid()
      modifies this
      ensures Valid() && View() == Unexpired(old(View()), now, bounds.ttl)
      ensures forall s :: s in View() <==> s in old(View()) && now - s.touched <= bounds.ttl
    {
      ghost var v := View();
      var expired := CollectExpired(now);
      PopAll(expired);
      WithoutExpired(v, (set t | t in expired), now, bounds.ttl);
      UnexpiredMeaning(v, now, bounds.ttl);
    }

    method CollectExpired(now: real) returns (expired: seq<int>)
      requires Valid()
      ensures forall i :: 0 <= i < |order| ==> (order[i] in expired <==> Expired(View()[i], now, bounds.ttl))
    {
      expired := [];
      for i := 0 to |order|
        invariant forall j :: 0 <= j < i ==> (order[j] in expired <==> Expired(View()[j], now, bounds.ttl))
        invariant forall j :: i <= j < |order| ==> order[j] !in expired
      {
        if now - lastAccess[order[i]] > bounds.ttl {
          expired := expired + [order[i]];
        }
      }
    }

    method PopAll(tokens: seq<int>)
      requires Valid()
      modifies this
      ensures Valid() && View() == WithoutSet(old(View()), set t | t in tokens)
    {
      hide Without, WithoutSet, Slots, Tracked, Ascending;
      ghost var v := View();
      ghost var gone: set<int> := {};
      WithoutNothing(v);
      for i := 0 to |tokens|
        invariant Valid() && View() == WithoutSet(v, gone)
        invariant forall t :: t in gone <==> t in tokens[..i]
      {
        WithoutSetMore(v, gone, tokens[i]);
        Pop(tokens[i]);
        gone := gone + {tokens[i]};
      }
      assert tokens[..|tokens|] == tokens;
      assert forall t :: t in gone <==> t in tokens;
      assert gone == (set t | t in tokens);
    }

    /** Records an access and moves the instrument to the recent end. */
    method Touch(token: int, candles: seq<Candle>, now: real)
      requires Valid() && Ascending(candles)
      modifies this
      ensures Valid() && View() == Touched(old(View()), Slot(token, now, candles))
    {
      hide Without, Drop, Ascending;
      DropIsWithout(order, data, lastAccess, token);
      var rest := Drop(order, token);
      SlotsFrame(rest, data, lastAccess, data[token := candles], lastAccess[token := now]);
      data := data[token := candles];
      lastAccess := lastAccess[token := now];
      order := rest + [token];
      assert View() == Slots(rest, data, lastAccess) + [Slot(token, now, candles)];
    }

    method Get(token: int, since: Option<int>, t1: real, t2: real) returns (r: seq<Candle>)
      requires Valid()
      modifies this
      ensures Valid() && View() == GetSlots(old(View()), bounds, token, t1, t2)
      ensures r == Since(CandlesOf(Unexpired(old(View()), t1, bounds.ttl), token), since)
    {
      EvictExpired(t1);
      HasToken(order, data, lastAccess, token);
      if token !in data {
        return [];
      }
      var candles := data[token];
      Touch(token, candles, t2);
      r := Since(candles, since);
    }

    /** `put`; popping from an empty dictionary, possible only under a negative limit, raises. */
    method Put(token: int, candles: seq<Candle>, t1: real, t2: real) returns (raised: bool)
      requires Valid()
      modifies this
      ensures Valid() && View() == PutSlots(old(View()), bounds, token, candles, t1, t2)
      ensures raised <==> bounds.maxInstruments < 0
    {
      EvictExpired(t1);
      HasToken(order, data, lastAccess, token);
      var existing := if token in data then data[token] else [];
      var merged := Merge(existing, candles, bounds.maxCandles);
      Touch(token, merged, t2);
      raised := EnforceMaxInstruments();
    }

    method EnforceMaxInstruments() returns (raised: bool)
      requires Valid()
      modifies this
      ensures Valid() && View() == Capped(old(View()), bounds.maxInstruments)
      ensures var v, m := old(View()), MaxInt(0, bounds.maxInstruments);
        View() == v[MaxInt(0, |v| - m)..]
      ensures raised <==> bounds.maxInstruments < 0
    {
      ghost var v := View();
      ghost var k := 0;
      while |order| > bounds.maxInstruments
        invariant Valid() && k <= |v| && View() == v[k..]
        invariant k > 0 ==> |order| >= bounds.maxInstruments
        decreases |order|
      {
        if order == [] {
          return true;
        }
        PopFirst();
        k := k + 1;
      }
      return false;
    }

    /** `popitem(last=False)`. */
    method PopFirst()
      requires Valid() && order != []
      modifies this
      ensures Valid() && View() == old(View())[1..]
    {
      WithoutAt(View(), 0);
      Pop(order[0]);
    }

    method Latest(token: int, t1: real, t2: real) returns (r: Option<Candle>)
      requires Valid()
      modifies this
      ensures Valid() && View() == GetSlots(old(View()), bounds, token, t1, t2)
      ensures var all := CandlesOf(Unexpired(old(View()), t1, bounds.ttl), token);
        r == (if all == [] then None else Some(all[|all| - 1]))
    {
      hide GetSlots, Without, Unexpired, CandlesOf, Has;
      var candles := Get(token, None, t1, t2);
      if |candles| == 0 {
        return None;
      }
      return Some(candles[|candles| - 1]);
    }

    method Clear(token: Option<int>)
      requires Valid()
      modifies this
      ensures Valid() && View() == match token
                                   case Some(t) => Without(old(View()), t)
                                   case None => []
    {
      if token.Some? {
        Pop(token.value);
      } else {
        order, data, lastAccess := [], map[], map[];
      }
    }
  }
}
