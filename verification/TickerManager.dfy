/** The capped subscription table of src/data/ticker.py. */
module Tickers {

  /** The table of subscribed tokens and the results reported, after a prefix of the tokens. */
  datatype Progress = Progress(table: map<int, int>, results: map<int, bool>)

  /** One turn of the subscription loop; `accepts` says whether the connection takes the token. */
  function Turn(p: Progress, token: int, accepts: bool, cap: int): Progress {
    if token in p.table then p.(results := p.results[token := true])
    else if |p.table| >= cap || !accepts then p.(results := p.results[token := false])
    else Progress(p.table[token := 0], p.results[token := true])
  }

  function Turns(table: map<int, int>, tokens: seq<int>, accepts: seq<bool>, cap: int): Progress
    requires |accepts| == |tokens|
  {
    if tokens == [] then Progress(table, map[])
    else
      var n := |tokens| - 1;
      Turn(Turns(table, tokens[..n], accepts[..n], cap), tokens[n], accepts[n], cap)
  }

  /** For every list of tokens, with repeats, and every pattern of failures: a token is reported subscribed
      exactly when it is in the table afterwards; nothing leaves the table; only requested tokens enter it,
      and it never grows past the cap. */
  lemma {:induction false} SubscribeMeaning(table: map<int, int>, tokens: seq<int>, accepts: seq<bool>, cap: int)
    requires |accepts| == |tokens|
    ensures var p := Turns(table, tokens, accepts, cap);
      && (forall t :: t in p.results <==> t in tokens)
      && (forall t :: t in tokens ==> (p.results[t] <==> t in p.table))
      && (forall t :: t in table ==> t in p.table && p.table[t] == table[t])
      && (forall t :: t in p.table && t !in table ==> t in tokens && p.table[t] == 0)
      && (|p.table| <= cap || p.table == table)
  {
    if tokens != [] {
      hide Turn;
      var n := |tokens| - 1;
      SubscribeMeaning(table, tokens[..n], accepts[..n], cap);
      TurnMeaning(Turns(table, tokens[..n], accepts[..n], cap), tokens[n], accepts[n], cap);
      Longer(Turns(table, tokens[..n], accepts[..n], cap).table, tokens[n]);
      assert forall t :: t in tokens <==> t in tokens[..n] || t == tokens[n] by {
        assert tokens == tokens[..n] + [tokens[n]];
      }
    }
  }

  lemma TurnMeaning(p: Progress, token: int, accepts: bool, cap: int)
    ensures var q := Turn(p, token, accepts, cap);
      && q.results.Keys == p.results.Keys + {token} && (q.results[token] <==> token in q.table)
      && (forall t :: t in p.results && t != token ==> q.results[t] == p.results[t])
      && q.table == if token !in p.table && accepts && |p.table| < cap then p.table[token := 0] else p.table
  {
  }

  lemma Longer(table: map<int, int>, token: int)
    ensures token !in table ==> |table[token := 0]| == |table| + 1
  {
    assert table[token := 0].Keys == table.Keys + {token};
  }

  /** No token is turned away while there is room and the connection takes it. */
  lemma {:induction false} RefusedOnlyForCause(table: map<int, int>, tokens: seq<int>, accepts: seq<bool>, cap: int,
                                               t: int)
    requires |accepts| == |tokens| && t in tokens && t !in Turns(table, tokens, accepts, cap).table
    ensures |Turns(table, tokens, accepts, cap).table| >= cap
      || forall i :: 0 <= i < |tokens| && tokens[i] == t ==> !accepts[i]
  {
    hide Turn;
    var n := |tokens| - 1;
    TurnMeaning(Turns(table, tokens[..n], accepts[..n], cap), tokens[n], accepts[n], cap);
    Longer(Turns(table, tokens[..n], accepts[..n], cap).table, tokens[n]);
    if t in tokens[..n] {
      RefusedOnlyForCause(table, tokens[..n], accepts[..n], cap, t);
    }
  }

  /** The connection takes the i-th token, and there is room when its turn comes. */
  predicate Taken(table: map<int, int>, tokens: seq<int>, accepts: seq<bool>, cap: int, i: nat)
    requires |accepts| == |tokens| && i < |tokens|
  {
    accepts[i] && |Turns(table, tokens[..i], accepts[..i], cap).table| < cap
  }

  /** Who is subscribed in the end, exactly: whoever was before, and every token that was taken at one of its
      turns. */
  lemma {:induction false} SubscribedIff(table: map<int, int>, tokens: seq<int>, accepts: seq<bool>, cap: int, t: int)
    requires |accepts| == |tokens|
    ensures t in Turns(table, tokens, accepts, cap).table <==>
      t in table || exists i :: 0 <= i < |tokens| && tokens[i] == t && Taken(table, tokens, accepts, cap, i)
  {
    if tokens != [] {
      hide Turn;
      var n := |tokens| - 1;
      SubscribedIff(table, tokens[..n], accepts[..n], cap, t);
      TurnMeaning(Turns(table, tokens[..n], accepts[..n], cap), tokens[n], accepts[n], cap);
      forall i | 0 <= i < n
        ensures Taken(table, tokens[..n], accepts[..n], cap, i) <==> Taken(table, tokens, accepts, cap, i)
      {
        assert tokens[..n][..i] == tokens[..i] && accepts[..n][..i] == accepts[..i];
      }
      TakenSnoc(table, tokens, accepts, cap, t);
    }
  }

  lemma TakenSnoc(table: map<int, int>, tokens: seq<int>, accepts: seq<bool>, cap: int, t: int)
    requires |accepts| == |tokens| > 0
    requires var n := |tokens| - 1; forall i :: 0 <= i < n ==>
      (Taken(table, tokens[..n], accepts[..n], cap, i) <==> Taken(table, tokens, accepts, cap, i))
    ensures var n := |tokens| - 1;
      (exists i :: 0 <= i < |tokens| && tokens[i] == t && Taken(table, tokens, accepts, cap, i)) <==>
        || (exists i :: 0 <= i < n && tokens[..n][i] == t && Taken(table, tokens[..n], accepts[..n], cap, i))
        || (tokens[n] == t && Taken(table, tokens, accepts, cap, n))
  {
    hide Taken;
    var n := |tokens| - 1;
    if i :| 0 <= i < |tokens| && tokens[i] == t && Taken(table, tokens, accepts, cap, i) {
      assert i < n ==> tokens[..n][i] == t;
    }
    if i :| 0 <= i < n && tokens[..n][i] == t && Taken(table, tokens[..n], accepts[..n], cap, i) {
      assert tokens[i] == t;
    }
  }

  class TickerManager {
    const cap: int
    var connected: bool  // at least one ticker connection exists
    var subscriptions: map<int, int>

    constructor (cap: int)
      ensures this.cap == cap && !connected && subscriptions == map[]
    {
      this.cap := cap;
      connected, subscriptions := false, map[];
    }

    method Subscribe(tokens: seq<int>, accepts: seq<bool>) returns (results: map<int, bool>)
      requires |accepts| == |tokens|
      modifies this
      ensures connected == old(connected)
      ensures connected ==> Progress(subscriptions, results) == Turns(old(subscriptions), tokens, accepts, cap)
      ensures !connected ==> subscriptions == old(subscriptions) && results == map t | t in tokens :: false
    {
      results := map[];
      if !connected {
        for i := 0 to |tokens|
          invariant results == map t | t in tokens[..i] :: false
          invariant connected == old(connected) && subscriptions == old(subscriptions)
        {
          results := results[tokens[i] := false];
        }
        assert tokens[..|tokens|] == tokens;
        return;
      }
      var currentSubs := |subscriptions|;
      for i := 0 to |tokens|
        invariant connected && currentSubs == |subscriptions|
        invariant Progress(subscriptions, results) == Turns(old(subscriptions), tokens[..i], accepts[..i], cap)
      {
        assert tokens[..i + 1][..i] == tokens[..i] && accepts[..i + 1][..i] == accepts[..i];
        var token := tokens[i];
        if token in subscriptions {
          results := results[token := true];
        } else if currentSubs >= cap {
          results := results[token := false];
        } else if accepts[i] {
          assert subscriptions[token := 0].Keys == subscriptions.Keys + {token};
          subscriptions := subscriptions[token := 0];
          currentSubs := currentSubs + 1;
          results := results[token := true];
        } else {
          results := results[token := false];
        }
      }
      assert tokens[..|tokens|] == tokens && accepts[..|accepts|] == accepts;
    }

    /** `refused` says whether the connection's own unsubscribe call raises; it precedes every removal. */
    method Unsubscribe(tokens: seq<int>, refused: bool) returns (raised: bool)
      modifies this
      ensures connected == old(connected) && (raised <==> connected && refused)
      ensures subscriptions ==
        if connected && !refused then old(subscriptions) - (set t | t in tokens) else old(subscriptions)
    {
      if !connected {
        return false;
      }
      if refused {
        return true;
      }
      for i := 0 to |tokens|
        invariant connected && subscriptions == old(subscriptions) - (set t | t in tokens[..i])
      {
        subscriptions := subscriptions - {tokens[i]};
      }
      assert tokens[..|tokens|] == tokens;
      return false;
    }
  }
}
