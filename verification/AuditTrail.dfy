/**
 The append-only audit trail of src/risk/audit.py: a hash chain and its verifier loop.

 The digest (SHA-256, section 6.2 of FIPS 180-4, over the JSON text of the payload) is an
 arbitrary function here.  Nothing is assumed about it: where the chain's protection rests on
 collision resistance, the theorem hands back the collision instead.
 */
module AuditTrails {
  datatype EventType =
    | OrderPlaced | OrderConfirmed | OrderPartialFill | OrderFilled | OrderCancelled
    | OrderRejected | OrderModified | KillSwitchActivated | KillSwitchDeactivated
    | RiskCheckPassed | RiskCheckFailed | SessionStart | SessionEnd | ConfigChange

  /** A serialized value of an entry's data dictionary; a decimal is written as text before it is stored. */
  datatype Field = Text(text: string) | Number(number: int) | Names(names: seq<string>)

  /** How numbers are written: `decimal` is the text of an amount, `percent` that of a ratio. */
  datatype Notation = Notation(decimal: real -> string, percent: real -> string)

  type Data = map<string, Field>

  /** What the checksum of an entry covers; different payloads have different JSON texts. */
  datatype Payload = Payload(
    eventType: EventType, data: Data, strategyId: string, orderId: string,
    prevChecksum: string, timestamp: int)

  type Digest = Payload -> string

  datatype Entry = Entry(payload: Payload, checksum: string)

  const GENESIS := "GENESIS"

  function LastChecksum(es: seq<Entry>): string {
    if es == [] then GENESIS else es[|es| - 1].checksum
  }

  /** The entry that `record` appends to `es`. */
  function NewEntry(h: Digest, es: seq<Entry>, t: EventType, data: Data, strategyId: string, orderId: string,
                    timestamp: int): Entry
  {
    var p := Payload(t, data, strategyId, orderId, LastChecksum(es), timestamp);
    Entry(p, h(p))
  }

  function Recorded(h: Digest, es: seq<Entry>, t: EventType, data: Data, strategyId: string, orderId: string,
                    timestamp: int): seq<Entry>
  {
    es + [NewEntry(h, es, t, data, strategyId, orderId, timestamp)]
  }

  predicate Verifies(h: Digest, e: Entry) {
    h(e.payload) == e.checksum
  }

  /** The chain, read from its newest entry back to the genesis marker. */
  predicate Chained(h: Digest, es: seq<Entry>) {
    es != [] ==>
      var n := |es| - 1;
      Chained(h, es[..n]) && Verifies(h, es[n]) && es[n].payload.prevChecksum == LastChecksum(es[..n])
  }

  /** How many entries of one type a trail holds. */
  function CountOf(es: seq<Entry>, t: EventType): nat {
    if es == [] then 0
    else CountOf(es[..|es| - 1], t) + (if es[|es| - 1].payload.eventType == t then 1 else 0)
  }

  class AuditTrail {
    const digest: Digest
    var entries: seq<Entry>

    constructor (digest: Digest)
      ensures this.digest == digest && entries == [] && Chained(digest, entries)
    {
      this.digest := digest;
      entries := [];
    }

    method Record(t: EventType, data: Data, strategyId: string, orderId: string, timestamp: int) returns (e: Entry)
      modifies this
      ensures entries == Recorded(digest, old(entries), t, data, strategyId, orderId, timestamp)
      ensures entries == old(entries) + [e] && e.checksum == digest(e.payload)
      ensures e.payload.eventType == t && e.payload.data == data && e.payload.timestamp == timestamp
      ensures e.payload.strategyId == strategyId && e.payload.orderId == orderId
      ensures e.payload.prevChecksum ==
        if old(entries) == [] then "GENESIS" else old(entries)[|old(entries)| - 1].checksum
      ensures Chained(digest, entries) <==> Chained(digest, old(entries))
      ensures forall k :: CountOf(entries, k) == CountOf(old(entries), k) + if k == t then 1 else 0
    {
      var prev := GENESIS;
      if |entries| > 0 {
        prev := entries[|entries| - 1].checksum;
      }
      var p := Payload(t, data, strategyId, orderId, prev, timestamp);
      e := Entry(p, digest(p));
      entries := entries + [e];
      RecordKeepsChain(digest, old(entries), t, data, strategyId, orderId, timestamp);
    }

    /** The verifier loop with its three early exits decides exactly the recursive chain predicate. */
    method VerifyChain() returns (ok: bool)
      ensures ok <==> Chained(digest, entries)
      ensures ok <==> forall i :: 0 <= i < |entries| ==> InPlace(digest, entries, i)
    {
      ChainedByIndex(digest, entries);
      var i := 0;
      while i < |entries|
        invariant i <= |entries|
        invariant Chained(digest, entries[..i])
      {
        assert entries[..i + 1][..i] == entries[..i];
        if digest(entries[i].payload) != entries[i].checksum {
          BrokenPrefix(digest, entries, i + 1);
          return false;
        }
        if i == 0 {
          if entries[i].payload.prevChecksum != GENESIS {
            BrokenPrefix(digest, entries, i + 1);
            return false;
          }
        } else if entries[i].payload.prevChecksum != entries[i - 1].checksum {
          BrokenPrefix(digest, entries, i + 1);
          return false;
        }
        i := i + 1;
      }
      assert entries[..i] == entries;
      return true;
    }
  }

  /** Recording neither repairs nor breaks a chain, and counts exactly once. */
  lemma RecordKeepsChain(h: Digest, es: seq<Entry>, t: EventType, data: Data, strategyId: string, orderId: string,
                         timestamp: int)
    ensures var es' := Recorded(h, es, t, data, strategyId, orderId, timestamp);
      && (Chained(h, es') <==> Chained(h, es))
      && forall k :: CountOf(es', k) == CountOf(es, k) + if k == t then 1 else 0
  {
    var es' := Recorded(h, es, t, data, strategyId, orderId, timestamp);
    assert es'[..|es|] == es;
  }

  /** Cutting entries off the end is not detected: every prefix of a good chain is a good chain. */
  lemma {:induction false} ChainPrefix(h: Digest, es: seq<Entry>, n: nat)
    requires n <= |es| && Chained(h, es)
    ensures Chained(h, es[..n])
  {
    if n < |es| {
      ChainPrefix(h, es[..|es| - 1], n);
      assert es[..|es| - 1][..n] == es[..n];
    } else {
      assert es[..n] == es;
    }
  }

  lemma BrokenPrefix(h: Digest, es: seq<Entry>, n: nat)
    requires n <= |es| && !Chained(h, es[..n])
    ensures !Chained(h, es)
  {
    if Chained(h, es) {
      ChainPrefix(h, es, n);
    }
  }

  /** Entry `i` has the checksum of its own payload, and names the checksum of the entry before it or, at the
      front, the genesis marker. */
  predicate InPlace(h: Digest, es: seq<Entry>, i: nat)
    requires i < |es|
  {
    && es[i].checksum == h(es[i].payload)
    && es[i].payload.prevChecksum == if i == 0 then "GENESIS" else es[i - 1].checksum
  }

  /** The chain predicate, index by index. */
  lemma {:induction false} ChainedByIndex(h: Digest, es: seq<Entry>)
    ensures Chained(h, es) <==> forall i :: 0 <= i < |es| ==> InPlace(h, es, i)
  {
    if es != [] {
      var n := |es| - 1;
      ChainedByIndex(h, es[..n]);
      forall i | 0 <= i < n ensures InPlace(h, es[..n], i) <==> InPlace(h, es, i) {
      }
      assert Chained(h, es) <==> Chained(h, es[..n]) && InPlace(h, es, n);
      if Chained(h, es[..n]) && InPlace(h, es, n) {
        forall i | 0 <= i < |es| ensures InPlace(h, es, i) {
          assert i < n ==> InPlace(h, es[..n], i);
        }
      }
    }
  }

  /** Why two good chains with the same last checksum look the same. */
  datatype Evidence =
    | Same
    | Collision(p: Payload, q: Payload)
    | GenesisPreimage(p: Payload)

  /** Walks both chains backwards in step until they differ. */
  function Compare(a: seq<Entry>, b: seq<Entry>): Evidence {
    if a == [] && b == [] then Same
    else if a == [] then GenesisPreimage(b[|b| - 1].payload)
    else if b == [] then GenesisPreimage(a[|a| - 1].payload)
    else
      var x, y := a[|a| - 1].payload, b[|b| - 1].payload;
      if x != y then Collision(x, y) else Compare(a[..|a| - 1], b[..|b| - 1])
  }

  /** The last checksum binds the whole history: two verified chains that agree on it are equal entry by
      entry, or the walk above finds two payloads with one digest, or a payload whose digest is the
      genesis marker. */
  lemma {:induction false} LastChecksumBinds(h: Digest, a: seq<Entry>, b: seq<Entry>)
    requires Chained(h, a) && Chained(h, b) && LastChecksum(a) == LastChecksum(b)
    ensures match Compare(a, b)
      case Same => a == b
      case Collision(p, q) => p != q && h(p) == h(q)
      case GenesisPreimage(p) => h(p) == GENESIS
  {
    if a != [] && b != [] && a[|a| - 1].payload == b[|b| - 1].payload {
      LastChecksumBinds(h, a[..|a| - 1], b[..|b| - 1]);
      assert a == a[..|a| - 1] + [a[|a| - 1]];
      assert b == b[..|b| - 1] + [b[|b| - 1]];
    }
  }

  /** Replacing one entry goes unnoticed exactly when the replacement is itself consistent, keeps the
      link behind it, and (unless it is the newest entry) reproduces the checksum the next entry names. */
  lemma SingleEdit(h: Digest, es: seq<Entry>, i: nat, e: Entry)
    requires Chained(h, es) && i < |es|
    ensures Chained(h, es[i := e]) <==>
      && Verifies(h, e)
      && e.payload.prevChecksum == es[i].payload.prevChecksum
      && (i + 1 < |es| ==> e.checksum == es[i].checksum)
  {
    var es' := es[i := e];
    ChainedByIndex(h, es);
    ChainedByIndex(h, es');
    assert InPlace(h, es, i);
    assert InPlace(h, es', i) <==> Verifies(h, e) && e.payload.prevChecksum == es[i].payload.prevChecksum;
    forall j | 0 <= j < |es| && j != i && j != i + 1 ensures InPlace(h, es', j) {
      assert InPlace(h, es, j);
    }
    if i + 1 < |es| {
      assert InPlace(h, es, i + 1);
      var j := i + 1;
      assert es'[j] == es[j] && (InPlace(h, es', j) <==> e.checksum == es[i].checksum);
    }
  }

  /** `e` with a longer strategy identifier, and the checksum that belongs to it. */
  function Forged(h: Digest, e: Entry): Entry {
    var p := e.payload.(strategyId := e.payload.strategyId + "x");
    Entry(p, h(p))
  }

  /** So the newest entry can always be replaced by a different one without notice. */
  lemma NewestCanBeForged(h: Digest, es: seq<Entry>)
    requires Chained(h, es) && es != []
    ensures var n := |es| - 1; Forged(h, es[n]) != es[n] && Chained(h, es[n := Forged(h, es[n])])
  {
    var e := es[|es| - 1];
    assert |Forged(h, e).payload.strategyId| == |e.payload.strategyId| + 1;
    SingleEdit(h, es, |es| - 1, Forged(h, e));
  }

  /** Tampering with any entry but the newest breaks the chain, or is a collision of the digest. */
  lemma TamperingNeedsCollision(h: Digest, es: seq<Entry>, i: nat, e: Entry)
    requires Chained(h, es) && i + 1 < |es| && e != es[i] && Chained(h, es[i := e])
    ensures e.payload != es[i].payload && h(e.payload) == h(es[i].payload)
  {
    SingleEdit(h, es, i, e);
    ChainedByIndex(h, es);
    assert InPlace(h, es, i);
  }
}
