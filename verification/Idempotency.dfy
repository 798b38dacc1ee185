/** Claimed keys with an expiry, the cadence lock built on them, and the spacing of winning claims. */
module Idempotency {
  import opened Base

  // --- Keys of the wired service ---

  function TxKey(txId: string): string { "tx:" + txId }

  function AggKey(batchId: nat): string { "agg:" + IdText(batchId) }

  function HedgeKey(batchId: nat): string { "hedge:" + IdText(batchId) }

  function CadenceKey(assetPair: string): string { "cadence:" + assetPair }

  /** Transaction and cadence keys determine their subject, and the four kinds of key never meet. */
  lemma KeysApart(t: string, u: string, p: string, q: string, b: nat)
    ensures TxKey(t) == TxKey(u) ==> t == u
    ensures CadenceKey(p) == CadenceKey(q) ==> p == q
    ensures TxKey(t) !in {CadenceKey(p), AggKey(b), HedgeKey(b)}
    ensures CadenceKey(p) !in {AggKey(b), HedgeKey(b)}
    ensures forall c: nat :: AggKey(b) != HedgeKey(c)
  {
    assert forall c: nat :: HedgeKey(c)[0] == 'h';
    assert TxKey(t)[3..] == t && TxKey(u)[3..] == u;
    assert CadenceKey(p)[8..] == p && CadenceKey(q)[8..] == q;
    assert TxKey(t)[0] == 't' && CadenceKey(p)[0] == 'c' && AggKey(b)[0] == 'a' && HedgeKey(b)[0] == 'h';
  }

  /** Submission keys determine their batch. */
  lemma AggKeyInjective(b: nat, c: nat)
    requires AggKey(b) == AggKey(c)
    ensures b == c
  {
    assert AggKey(b)[4..] == IdText(b) && AggKey(c)[4..] == IdText(c);
    IdTextInjective(b, c);
  }

  // --- CheckAndMark ---

  type Seen = map<string, Time>

  predicate Held(seen: Seen, key: string, now: Time) {
    key in seen && seen[key] > now
  }

  function Marked(seen: Seen, key: string, ttl: Time, now: Time): Seen {
    if Held(seen, key, now) then seen else seen[key := now + ttl]
  }

  class MemStore {
    var seen: Seen

    constructor ()
      ensures seen == map[]
    {
      seen := map[];
    }

    method CheckAndMark(key: string, ttl: Time, now: Time) returns (claimed: bool)
      modifies this
      ensures claimed == !Held(old(seen), key, now)
      ensures seen == Marked(old(seen), key, ttl, now)
    {
      if key in seen && seen[key] > now {
        return false;
      }
      seen := seen[key := now + ttl];
      return true;
    }
  }

  class CadenceLock {
    const store: MemStore
    const ttl: Time

    constructor (store: MemStore, ttl: Time)
      ensures this.store == store && this.ttl == ttl
    {
      this.store, this.ttl := store, ttl;
    }

    method Acquire(assetPair: string, now: Time) returns (acquired: bool)
      modifies store
      ensures acquired == !Held(old(store.seen), CadenceKey(assetPair), now)
      ensures store.seen == Marked(old(store.seen), CadenceKey(assetPair), ttl, now)
    {
      acquired := store.CheckAndMark(CadenceKey(assetPair), ttl, now);
    }
  }

  // --- Winning claims over a run ---

  datatype Claim = Claim(key: string, ttl: Time, at: Time)

  /** The log of winning claims after one call; the log is a history variable. */
  function Logged(log: seq<Claim>, seen: Seen, key: string, ttl: Time, now: Time): seq<Claim> {
    if Held(seen, key, now) then log else log + [Claim(key, ttl, now)]
  }

  /** Two wins of one key are at least the first one's lifetime apart. */
  ghost predicate Spaced(log: seq<Claim>) {
    forall i, j :: 0 <= i < j < |log| && log[i].key == log[j].key ==> log[j].at >= log[i].at + log[i].ttl
  }

  /** Every logged claim has expired or is covered by the key's current expiry. */
  ghost predicate Covered(log: seq<Claim>, seen: Seen) {
    forall i :: 0 <= i < |log| ==> log[i].key in seen && seen[log[i].key] >= log[i].at + log[i].ttl
  }

  /** One more call of CheckAndMark, winning or not, keeps the wins spaced. */
  lemma ClaimsStaySpaced(log: seq<Claim>, seen: Seen, key: string, ttl: Time, now: Time)
    requires Spaced(log) && Covered(log, seen) && ttl >= 0
    ensures Spaced(Logged(log, seen, key, ttl, now))
    ensures Covered(Logged(log, seen, key, ttl, now), Marked(seen, key, ttl, now))
  {
    if !Held(seen, key, now) {
      forall i | 0 <= i < |log| && log[i].key == key
        ensures now >= log[i].at + log[i].ttl
      {
        assert seen[log[i].key] >= log[i].at + log[i].ttl;
      }
    }
  }

  /** One call of CheckAndMark. */
  datatype Attempt = Attempt(key: string, ttl: Time, at: Time)

  function SeenAfter(tries: seq<Attempt>): Seen {
    if tries == [] then map[]
    else var t := tries[|tries| - 1]; Marked(SeenAfter(tries[..|tries| - 1]), t.key, t.ttl, t.at)
  }

  /** The claims won over a run of calls. */
  function Wins(tries: seq<Attempt>): seq<Claim> {
    if tries == [] then []
    else
      var t, rest := tries[|tries| - 1], tries[..|tries| - 1];
      Logged(Wins(rest), SeenAfter(rest), t.key, t.ttl, t.at)
  }

  /** Some claim of the key won so far has not expired. */
  ghost predicate Alive(log: seq<Claim>, key: string, now: Time) {
    exists i :: 0 <= i < |log| && log[i].key == key && log[i].at + log[i].ttl > now
  }

  ghost predicate Backed(log: seq<Claim>, seen: Seen) {
    forall k :: k in seen ==> exists i :: 0 <= i < |log| && log[i].key == k && seen[k] == log[i].at + log[i].ttl
  }

  lemma BackedStep(log: seq<Claim>, seen: Seen, key: string, ttl: Time, now: Time)
    requires Backed(log, seen)
    ensures Backed(Logged(log, seen, key, ttl, now), Marked(seen, key, ttl, now))
  {
    var log', seen' := Logged(log, seen, key, ttl, now), Marked(seen, key, ttl, now);
    forall k | k in seen'
      ensures exists i :: 0 <= i < |log'| && log'[i].key == k && seen'[k] == log'[i].at + log'[i].ttl
    {
      if !Held(seen, key, now) && k == key {
        assert log'[|log|] == Claim(key, ttl, now);
      } else {
        var i :| 0 <= i < |log| && log[i].key == k && seen[k] == log[i].at + log[i].ttl;
        assert log'[i] == log[i];
      }
    }
  }

  lemma {:induction false} WinsCovered(tries: seq<Attempt>)
    requires forall i :: 0 <= i < |tries| ==> tries[i].ttl >= 0
    ensures Spaced(Wins(tries)) && Covered(Wins(tries), SeenAfter(tries)) && Backed(Wins(tries), SeenAfter(tries))
  {
    if tries != [] {
      var t, rest := tries[|tries| - 1], tries[..|tries| - 1];
      WinsCovered(rest);
      ClaimsStaySpaced(Wins(rest), SeenAfter(rest), t.key, t.ttl, t.at);
      BackedStep(Wins(rest), SeenAfter(rest), t.key, t.ttl, t.at);
    }
  }

  /** Over any run of calls the wins of a key are spaced by their lifetimes, and the next call wins exactly when every
      earlier win of its key has expired. */
  lemma WinsAreSpaced(tries: seq<Attempt>, next: Attempt)
    requires forall i :: 0 <= i < |tries| ==> tries[i].ttl >= 0
    ensures Spaced(Wins(tries))
    ensures Wins(tries + [next])
         == if Alive(Wins(tries), next.key, next.at) then Wins(tries)
            else Wins(tries) + [Claim(next.key, next.ttl, next.at)]
  {
    WinsCovered(tries);
    assert (tries + [next])[..|tries|] == tries;
    var log, seen := Wins(tries), SeenAfter(tries);
    HeldIffAlive(log, seen, next.key, next.at);
  }

  lemma HeldIffAlive(log: seq<Claim>, seen: Seen, key: string, now: Time)
    requires Covered(log, seen) && Backed(log, seen)
    ensures Held(seen, key, now) <==> Alive(log, key, now)
  {
    if Held(seen, key, now) {
      var i :| 0 <= i < |log| && log[i].key == key && seen[key] == log[i].at + log[i].ttl;
      assert log[i].at + log[i].ttl > now;
    }
  }
}
