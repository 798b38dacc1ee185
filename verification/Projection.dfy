/** The rolling demand window: a cache compacted in place, measured against the full history. */
module Projection {
  import opened Base

  datatype Sample = Sample(at: Time, notional: Decimal)

  /** The samples strictly after the cutoff, in order. */
  function Kept(s: seq<Sample>, cutoff: Time): seq<Sample> {
    if s == [] then []
    else
      var last := s[|s| - 1];
      if last.at > cutoff then Kept(s[..|s| - 1], cutoff) + [last] else Kept(s[..|s| - 1], cutoff)
  }

  function Total(s: seq<Sample>): Decimal {
    if s == [] then 0.0 else Total(s[..|s| - 1]) + s[|s| - 1].notional
  }

  lemma KeptAppend(s: seq<Sample>, x: Sample, cutoff: Time)
    ensures Kept(s + [x], cutoff) == if x.at > cutoff then Kept(s, cutoff) + [x] else Kept(s, cutoff)
  {
    assert (s + [x])[..|s|] == s;
  }

  // --- The window against the history ---

  datatype Op = Observe(asset: string, x: Sample) | Query(asset: string, now: Time)

  function TimeOf(op: Op): Time {
    if op.Observe? then op.x.at else op.now
  }

  /** What one operation does to the cache of one asset. */
  function Stepped(window: Time, c: seq<Sample>, op: Op, asset: string): seq<Sample> {
    if op.asset != asset then c
    else if op.Observe? then Kept(c + [op.x], op.x.at - window)
    else Kept(c, op.now - window)
  }

  /** The cache of one asset after a run. */
  function Cache(window: Time, ops: seq<Op>, asset: string): seq<Sample> {
    if ops == [] then []
    else Stepped(window, Cache(window, ops[..|ops| - 1], asset), ops[|ops| - 1], asset)
  }

  lemma CacheStepsWith(window: Time, ops: seq<Op>, op: Op)
    ensures forall a :: Cache(window, ops + [op], a) == Stepped(window, Cache(window, ops, a), op, a)
  {
    assert (ops + [op])[..|ops|] == ops;
  }

  /** Everything ever observed for the asset. */
  function History(ops: seq<Op>, asset: string): seq<Sample> {
    if ops == [] then []
    else
      var last := ops[|ops| - 1];
      var h := History(ops[..|ops| - 1], asset);
      if last.Observe? && last.asset == asset then h + [last.x] else h
  }

  /** What a query of the cache answers. */
  function DemandAfter(window: Time, ops: seq<Op>, asset: string, now: Time): Decimal {
    Total(Cache(window, ops + [Query(asset, now)], asset))
  }

  /** No operation on the asset lies after now. */
  ghost predicate Current(ops: seq<Op>, asset: string, now: Time) {
    forall i :: 0 <= i < |ops| && ops[i].asset == asset ==> TimeOf(ops[i]) <= now
  }

  /** The sum of everything observed for the asset after the cutoff. */
  function Observed(ops: seq<Op>, asset: string, cutoff: Time): Decimal {
    if ops == [] then 0.0
    else
      var op := ops[|ops| - 1];
      Observed(ops[..|ops| - 1], asset, cutoff)
      + if op.Observe? && op.asset == asset && op.x.at > cutoff then op.x.notional else 0.0
  }

  lemma {:induction false} WindowSum(ops: seq<Op>, asset: string, cutoff: Time)
    ensures Total(Kept(History(ops, asset), cutoff)) == Observed(ops, asset, cutoff)
  {
    if ops != [] {
      var rest, op := ops[..|ops| - 1], ops[|ops| - 1];
      WindowSum(rest, asset, cutoff);
      if op.Observe? && op.asset == asset {
        KeptAppend(History(rest, asset), op.x, cutoff);
      }
    }
  }

  // --- Exactly when the window is complete ---

  /** Every sample after the cutoff lies in the window of every operation made since it was observed. */
  ghost predicate NothingEvicted(window: Time, ops: seq<Op>, asset: string, cutoff: Time) {
    forall i, j :: 0 <= i <= j < |ops| && Sampled(ops[i], asset, cutoff) && ops[j].asset == asset ==>
      ops[i].x.at > TimeOf(ops[j]) - window
  }

  predicate Sampled(op: Op, asset: string, cutoff: Time) {
    op.Observe? && op.asset == asset && op.x.at > cutoff
  }

  ghost predicate Complete(window: Time, ops: seq<Op>, asset: string, cutoff: Time) {
    Kept(Cache(window, ops, asset), cutoff) == Kept(History(ops, asset), cutoff)
  }

  /** The samples after one cutoff all lie after a later one as well. */
  ghost predicate AllPast(s: seq<Sample>, early: Time, late: Time) {
    forall k :: 0 <= k < |s| && s[k].at > early ==> s[k].at > late
  }

  lemma AllPastAppend(s: seq<Sample>, x: Sample, early: Time, late: Time)
    ensures AllPast(s + [x], early, late) <==> AllPast(s, early, late) && (x.at > early ==> x.at > late)
  {
    assert (s + [x])[|s|] == x && forall k :: 0 <= k < |s| ==> (s + [x])[k] == s[k];
    if AllPast(s + [x], early, late) {
      forall k | 0 <= k < |s| && s[k].at > early
        ensures s[k].at > late
      {
        assert (s + [x])[k].at > early;
      }
    }
  }

  /** A later cutoff keeps no more, and as many only when it keeps the same. */
  lemma {:induction false} LaterKeepsFewer(s: seq<Sample>, early: Time, late: Time)
    requires early <= late
    ensures |Kept(s, late)| <= |Kept(s, early)|
    ensures |Kept(s, late)| == |Kept(s, early)| ==> Kept(s, late) == Kept(s, early)
    ensures Kept(s, late) == Kept(s, early) <==> AllPast(s, early, late)
  {
    if s != [] {
      var n := |s| - 1;
      LaterKeepsFewer(s[..n], early, late);
      assert s == s[..n] + [s[n]];
      AllPastAppend(s[..n], s[n], early, late);
      if s[n].at > early && s[n].at <= late {
        assert |Kept(s, late)| < |Kept(s, early)|;
      }
    }
  }

  lemma {:induction false} EvictThenKeep(s: seq<Sample>, a: Time, b: Time)
    ensures Kept(Kept(s, a), b) == Kept(s, Max(a, b))
  {
    if s != [] {
      var n := |s| - 1;
      EvictThenKeep(s[..n], a, b);
      KeptAppend(Kept(s[..n], a), s[n], b);
    }
  }

  lemma EvictAppended(c: seq<Sample>, x: Sample, early: Time, cutoff: Time)
    ensures var late := Max(early, cutoff);
            Kept(Kept(c + [x], early), cutoff) == Kept(c, late) + (if x.at > late then [x] else [])
  {
    EvictThenKeep(c + [x], early, cutoff);
    KeptAppend(c, x, Max(early, cutoff));
  }

  /** What the cache and the history keep once an operation on the asset is made. */
  lemma StepKept(window: Time, rest: seq<Op>, op: Op, asset: string, cutoff: Time)
    requires op.asset == asset
    ensures var c, h := Cache(window, rest, asset), History(rest, asset);
            var late := Max(TimeOf(op) - window, cutoff);
            && Kept(Cache(window, rest + [op], asset), cutoff)
               == Kept(c, late) + (if op.Observe? && op.x.at > late then [op.x] else [])
            && Kept(History(rest + [op], asset), cutoff)
               == Kept(h, cutoff) + (if op.Observe? && op.x.at > cutoff then [op.x] else [])
  {
    hide Kept;
    assert (rest + [op])[..|rest|] == rest;
    var c, h, early := Cache(window, rest, asset), History(rest, asset), TimeOf(op) - window;
    if op.Observe? {
      EvictAppended(c, op.x, early, cutoff);
      KeptAppend(h, op.x, cutoff);
    } else {
      EvictThenKeep(c, early, cutoff);
    }
  }

  lemma OtherAsset(window: Time, rest: seq<Op>, op: Op, asset: string)
    requires op.asset != asset
    ensures Cache(window, rest + [op], asset) == Cache(window, rest, asset)
    ensures History(rest + [op], asset) == History(rest, asset)
  {
    assert (rest + [op])[..|rest|] == rest;
  }

  /** The cache never keeps more than the history. */
  lemma {:induction false} CacheKeepsFewer(window: Time, ops: seq<Op>, asset: string, cutoff: Time)
    ensures |Kept(Cache(window, ops, asset), cutoff)| <= |Kept(History(ops, asset), cutoff)|
    decreases |ops|
  {
    hide Cache, History, Kept;
    if ops == [] {
      NothingKept(window, asset, cutoff);
    } else {
      var rest, op := ops[..|ops| - 1], ops[|ops| - 1];
      assert ops == rest + [op];
      CacheKeepsFewer(window, rest, asset, cutoff);
      if op.asset == asset {
        var late := Max(TimeOf(op) - window, cutoff);
        CacheKeepsFewer(window, rest, asset, late);
        LaterKeepsFewer(History(rest, asset), cutoff, late);
        StepKept(window, rest, op, asset, cutoff);
      } else {
        OtherAsset(window, rest, op, asset);
      }
    }
  }

  lemma NothingKept(window: Time, asset: string, cutoff: Time)
    ensures Kept(Cache(window, [], asset), cutoff) == [] && Kept(History([], asset), cutoff) == []
  {
  }

  lemma SameLast(a: seq<Sample>, b: seq<Sample>, x: Sample)
    ensures a + [x] == b + [x] <==> a == b
  {
    if a + [x] == b + [x] {
      assert a == (a + [x])[..|a|] == (b + [x])[..|b|] == b;
    }
  }

  /** An operation keeps the window complete exactly when it was, beyond the new cutoff, and nothing lies in between. */
  lemma StepComplete(window: Time, rest: seq<Op>, op: Op, asset: string, cutoff: Time)
    requires op.asset == asset
    ensures var late := Max(TimeOf(op) - window, cutoff);
            Complete(window, rest + [op], asset, cutoff) <==>
              && Complete(window, rest, asset, late)
              && AllPast(History(rest, asset), cutoff, late)
              && (Sampled(op, asset, cutoff) ==> window > 0)
  {
    hide Cache, History, Kept;
    var late := Max(TimeOf(op) - window, cutoff);
    var kc, kh := Kept(Cache(window, rest, asset), late), Kept(History(rest, asset), cutoff);
    StepKept(window, rest, op, asset, cutoff);
    CacheKeepsFewer(window, rest, asset, late);
    LaterKeepsFewer(History(rest, asset), cutoff, late);
    assert |kc| <= |Kept(History(rest, asset), late)| <= |kh|;
    if op.Observe? && cutoff < op.x.at <= late {
      assert |Kept(Cache(window, rest + [op], asset), cutoff)| < |Kept(History(rest + [op], asset), cutoff)|;
    } else if op.Observe? && op.x.at > late {
      SameLast(kc, kh, op.x);
    } else {
      assert kc + [] == kc && kh + [] == kh;
    }
  }

  /** The samples of an asset after the cutoff all lie after a later one as well. */
  ghost predicate NoneBetween(ops: seq<Op>, asset: string, cutoff: Time, late: Time) {
    forall i :: 0 <= i < |ops| && Sampled(ops[i], asset, cutoff) ==> ops[i].x.at > late
  }

  lemma NoneBetweenStep(rest: seq<Op>, op: Op, asset: string, cutoff: Time, late: Time)
    ensures NoneBetween(rest + [op], asset, cutoff, late) <==>
              NoneBetween(rest, asset, cutoff, late) && (Sampled(op, asset, cutoff) ==> op.x.at > late)
  {
    var ops := rest + [op];
    assert ops[|rest|] == op && forall i :: 0 <= i < |rest| ==> ops[i] == rest[i];
    if NoneBetween(ops, asset, cutoff, late) {
      forall i | 0 <= i < |rest| && Sampled(rest[i], asset, cutoff)
        ensures rest[i].x.at > late
      {
        assert Sampled(ops[i], asset, cutoff);
      }
    }
  }

  lemma {:induction false} HistoryElements(ops: seq<Op>, asset: string, cutoff: Time, late: Time)
    ensures AllPast(History(ops, asset), cutoff, late) <==> NoneBetween(ops, asset, cutoff, late)
  {
    if ops != [] {
      var rest, op := ops[..|ops| - 1], ops[|ops| - 1];
      assert ops == rest + [op];
      HistoryElements(rest, asset, cutoff, late);
      NoneBetweenStep(rest, op, asset, cutoff, late);
      if op.Observe? && op.asset == asset {
        AllPastAppend(History(rest, asset), op.x, cutoff, late);
      }
    }
  }

  lemma NothingEvictedStep(window: Time, rest: seq<Op>, op: Op, asset: string, cutoff: Time)
    ensures NothingEvicted(window, rest + [op], asset, cutoff) <==>
              && NothingEvicted(window, rest, asset, cutoff)
              && (op.asset == asset ==> NoneBetween(rest, asset, cutoff, TimeOf(op) - window))
              && (Sampled(op, asset, cutoff) ==> window > 0)
  {
    var ops, n := rest + [op], |rest|;
    assert ops[n] == op && forall i :: 0 <= i < n ==> ops[i] == rest[i];
    if NothingEvicted(window, ops, asset, cutoff) {
      forall i, j | 0 <= i <= j < n && Sampled(rest[i], asset, cutoff) && rest[j].asset == asset
        ensures rest[i].x.at > TimeOf(rest[j]) - window
      {
        assert Sampled(ops[i], asset, cutoff) && ops[j].asset == asset;
      }
      forall i | 0 <= i < n && Sampled(rest[i], asset, cutoff) && op.asset == asset
        ensures rest[i].x.at > TimeOf(op) - window
      {
        assert Sampled(ops[i], asset, cutoff) && ops[n].asset == asset;
      }
    }
  }

  lemma NothingEvictedBeyond(window: Time, ops: seq<Op>, asset: string, cutoff: Time, late: Time)
    requires cutoff <= late && NoneBetween(ops, asset, cutoff, late)
    ensures NothingEvicted(window, ops, asset, cutoff) <==> NothingEvicted(window, ops, asset, late)
  {
    assert forall i :: 0 <= i < |ops| ==> (Sampled(ops[i], asset, cutoff) <==> Sampled(ops[i], asset, late));
  }

  /** The cache holds the whole window exactly when no operation so far has passed one of its samples. */
  lemma {:induction false} WindowCompleteIff(window: Time, ops: seq<Op>, asset: string, cutoff: Time)
    ensures Complete(window, ops, asset, cutoff) <==> NothingEvicted(window, ops, asset, cutoff)
    decreases |ops|
  {
    if ops != [] {
      var rest, op := ops[..|ops| - 1], ops[|ops| - 1];
      assert ops == rest + [op];
      NothingEvictedStep(window, rest, op, asset, cutoff);
      hide Complete, NothingEvicted;
      if op.asset == asset {
        var late := Max(TimeOf(op) - window, cutoff);
        WindowCompleteIff(window, rest, asset, late);
        StepComplete(window, rest, op, asset, cutoff);
        HistoryElements(rest, asset, cutoff, late);
        if NoneBetween(rest, asset, cutoff, late) {
          NothingEvictedBeyond(window, rest, asset, cutoff, late);
        }
        assert NoneBetween(rest, asset, cutoff, TimeOf(op) - window) <==> NoneBetween(rest, asset, cutoff, late);
      } else {
        WindowCompleteIff(window, rest, asset, cutoff);
        OtherAssetComplete(window, rest, op, asset, cutoff);
      }
    }
  }

  lemma OtherAssetComplete(window: Time, rest: seq<Op>, op: Op, asset: string, cutoff: Time)
    requires op.asset != asset
    ensures Complete(window, rest + [op], asset, cutoff) <==> Complete(window, rest, asset, cutoff)
  {
    OtherAsset(window, rest, op, asset);
  }

  /** A query keeps exactly the window of the full history if and only if nothing of it was evicted before. */
  lemma QueryExactIff(window: Time, ops: seq<Op>, asset: string, now: Time)
    ensures Cache(window, ops + [Query(asset, now)], asset) == Kept(History(ops, asset), now - window)
       <==> NothingEvicted(window, ops, asset, now - window)
  {
    assert (ops + [Query(asset, now)])[..|ops|] == ops;
    WindowCompleteIff(window, ops, asset, now - window);
  }

  /** The cache agrees with the history beyond every cutoff that no earlier operation has passed. */
  lemma CacheMatchesHistory(window: Time, ops: seq<Op>, asset: string, cutoff: Time)
    requires forall i :: 0 <= i < |ops| && ops[i].asset == asset ==> TimeOf(ops[i]) - window <= cutoff
    ensures Kept(Cache(window, ops, asset), cutoff) == Kept(History(ops, asset), cutoff)
  {
    WindowCompleteIff(window, ops, asset, cutoff);
  }

  /** A query no earlier than anything before it sums exactly the window of the full history. */
  lemma DemandIsWindowOfHistory(window: Time, ops: seq<Op>, asset: string, now: Time)
    requires Current(ops, asset, now)
    ensures Cache(window, ops + [Query(asset, now)], asset) == Kept(History(ops, asset), now - window)
  {
    QueryExactIff(window, ops, asset, now);
  }

  lemma DemandOfCurrent(window: Time, ops: seq<Op>, asset: string, now: Time)
    ensures Current(ops, asset, now) ==>
      DemandAfter(window, ops, asset, now) == Observed(ops, asset, now - window)
  {
    if Current(ops, asset, now) {
      DemandIsWindowOfHistory(window, ops, asset, now);
      WindowSum(ops, asset, now - window);
    }
  }

  lemma TwoObserved(window: Time, asset: string, x: Sample, y: Sample)
    ensures var ops := [Observe(asset, x), Observe(asset, y)];
            && Cache(window, ops, asset) == Kept(Kept([x], x.at - window) + [y], y.at - window)
            && History(ops, asset) == [x, y]
  {
    hide Kept;
    CacheStepsWith(window, [], Observe(asset, x));
    CacheStepsWith(window, [Observe(asset, x)], Observe(asset, y));
    HistoryStepsWith([], Observe(asset, x), asset);
    HistoryStepsWith([Observe(asset, x)], Observe(asset, y), asset);
    hide Cache, History;
    NothingObserved(window, asset);
    assert [] + [Observe(asset, x)] == [Observe(asset, x)] && [] + [x] == [x] && [x] + [y] == [x, y];
    assert [Observe(asset, x)] + [Observe(asset, y)] == [Observe(asset, x), Observe(asset, y)];
  }

  lemma NothingObserved(window: Time, asset: string)
    ensures Cache(window, [], asset) == [] && History([], asset) == []
  {
  }

  lemma HistoryStepsWith(ops: seq<Op>, op: Op, asset: string)
    ensures History(ops + [op], asset) == History(ops, asset) + if op.Observe? && op.asset == asset then [op.x] else []
  {
    assert (ops + [op])[..|ops|] == ops;
  }

  lemma KeptOfTwo(x: Sample, y: Sample, cutoff: Time)
    ensures Kept([x], cutoff) == if x.at > cutoff then [x] else []
    ensures Kept([x, y], cutoff) == Kept([x], cutoff) + if y.at > cutoff then [y] else []
  {
    KeptAppend([], x, cutoff);
    KeptAppend([x], y, cutoff);
    assert [] + [x] == [x] && [x] + [y] == [x, y];
  }

  lemma TotalOfTwo(x: Sample, y: Sample)
    ensures Total([x]) == x.notional && Total([x, y]) == x.notional + y.notional
  {
    assert [x][..0] == [] && [x, y][..1] == [x];
  }

  /** With a clock that runs back the window can lose samples: one at 85 is evicted by one at 100. */
  lemma EarlierQueryLosesSamples()
    ensures var ops := [Observe("BTC", Sample(85, 1.0)), Observe("BTC", Sample(100, 1.0))];
            && Total(Cache(10, ops + [Query("BTC", 94)], "BTC")) == 1.0
            && Total(Kept(History(ops, "BTC"), 94 - 10)) == 2.0
  {
    hide Cache, History, Kept, Total;
    var x, y := Sample(85, 1.0), Sample(100, 1.0);
    TwoObserved(10, "BTC", x, y);
    CacheStepsWith(10, [Observe("BTC", x), Observe("BTC", y)], Query("BTC", 94));
    KeptOfTwo(x, y, 75);
    KeptOfTwo(x, y, 90);
    KeptOfTwo(y, y, 84);
    KeptOfTwo(x, y, 84);
    TotalOfTwo(x, y);
    TotalOfTwo(y, y);
    assert [x] + [y] == [x, y] && [] + [y] == [y];
  }

  // --- The model ---

  /** A Go slice: a backing array and the length in use. */
  datatype Slice = Slice(buf: array<Sample>, len: nat)

  class Model {
    const window: Time
    var samples: map<string, Slice>
    ghost var ops: seq<Op>

    ghost function Buffers(): set<array<Sample>> reads this`samples {
      set a | a in samples :: samples[a].buf
    }

    /** Slices fit their arrays and no two assets share one. */
    ghost predicate Shape() reads this`samples {
      && (forall a :: a in samples ==> samples[a].len <= samples[a].buf.Length)
      && (forall a, b :: a in samples && b in samples && a != b ==> samples[a].buf != samples[b].buf)
    }

    ghost function Cached(asset: string): seq<Sample>
      requires Shape()
      reads this`samples, Buffers()
    {
      if asset in samples then samples[asset].buf[..samples[asset].len] else []
    }

    /** The cache is the one that the operations made so far leave behind. */
    ghost predicate Valid() reads this, Buffers() {
      Shape() && forall a :: Cached(a) == Cache(window, ops, a)
    }

    constructor (window: Time)
      ensures Valid() && this.window == window && Buffers() == {} && ops == []
    {
      this.window, this.samples, this.ops := window, map[], [];
    }

    /** Observe; a zero time stands for now. */
    method Observe(asset: string, notional: Decimal, at: Option<Time>, now: Time)
      requires Valid()
      modifies this, Buffers()
      ensures Valid() && fresh(Buffers() - old(Buffers()))
      ensures ops == old(ops) + [Op.Observe(asset, Sample(if at.Some? then at.value else now, notional))]
    {
      hide Kept, Stepped, History;
      var x := Sample(if at.Some? then at.value else now, notional);
      Record(asset, x);
      CacheStepsWith(window, ops, Op.Observe(asset, x));
      ops := ops + [Op.Observe(asset, x)];
    }

    method Record(asset: string, x: Sample)
      requires Shape()
      modifies this`samples, Buffers()
      ensures Shape() && fresh(Buffers() - old(Buffers()))
      ensures forall a :: Cached(a) == Stepped(window, old(Cached(a)), Op.Observe(asset, x), a)
    {
      AddSample(asset, x);
      Evict(asset, x.at);
    }

    /** The cached sum; when no earlier operation on the asset lies after now, the window of all ever observed. */
    method ProjectedDemand(asset: string, now: Time) returns (demand: Decimal)
      requires Valid()
      modifies this, Buffers()
      ensures Valid() && fresh(Buffers() - old(Buffers()))
      ensures ops == old(ops) + [Query(asset, now)] && demand == DemandAfter(window, old(ops), asset, now)
      ensures Current(old(ops), asset, now) ==> demand == Observed(old(ops), asset, now - window)
    {
      hide Kept, Stepped, History, Current;
      demand := EvictAndSum(asset, now);
      CacheStepsWith(window, ops, Query(asset, now));
      ops := ops + [Query(asset, now)];
      DemandOfCurrent(window, old(ops), asset, now);
    }

    method EvictAndSum(asset: string, now: Time) returns (demand: Decimal)
      requires Shape()
      modifies this`samples, Buffers()
      ensures Shape() && fresh(Buffers() - old(Buffers()))
      ensures forall a :: Cached(a) == Stepped(window, old(Cached(a)), Query(asset, now), a)
      ensures demand == Total(Cached(asset))
    {
      Evict(asset, now);
      demand := CachedTotal(asset);
    }

    method CachedTotal(asset: string) returns (total: Decimal)
      requires Shape()
      ensures total == Total(Cached(asset))
    {
      total := 0.0;
      if asset !in samples {
        return;
      }
      var s := samples[asset];
      for i := 0 to s.len
        invariant total == Total(s.buf[..i])
      {
        assert s.buf[..i + 1][..i] == s.buf[..i];
        total := total + s.buf[i].notional;
      }
    }

    method AddSample(asset: string, x: Sample)
      requires Shape()
      modifies this`samples, Buffers()
      ensures Shape() && fresh(Buffers() - old(Buffers()))
      ensures Cached(asset) == old(Cached(asset)) + [x]
      ensures forall a :: a != asset ==> Cached(a) == old(Cached(a))
    {
      var slice: Slice;
      if asset in samples {
        slice := samples[asset];
      } else {
        var none := new Sample[0];
        slice := Slice(none, 0);
      }
      slice := Append(slice, x);
      samples := samples[asset := slice];
    }

    /** append: in place while there is room, otherwise into a larger array. */
    method Append(s: Slice, x: Sample) returns (r: Slice)
      requires s.len <= s.buf.Length
      modifies s.buf
      ensures r.len == s.len + 1 <= r.buf.Length
      ensures r.buf == s.buf || fresh(r.buf)
      ensures r.buf[..r.len] == old(s.buf[..s.len]) + [x]
    {
      if s.len < s.buf.Length {
        s.buf[s.len] := x;
        return Slice(s.buf, s.len + 1);
      }
      var bigger := new Sample[2 * s.len + 1];
      for i := 0 to s.len
        invariant bigger[..i] == s.buf[..i] && s.buf[..] == old(s.buf[..])
      {
        bigger[i] := s.buf[i];
      }
      bigger[s.len] := x;
      return Slice(bigger, s.len + 1);
    }

    /** evictLocked: the kept samples move to the front of the array that is being read. */
    method Evict(asset: string, now: Time)
      requires Shape()
      modifies this`samples, Buffers()
      ensures Shape() && fresh(Buffers() - old(Buffers()))
      ensures Cached(asset) == Kept(old(Cached(asset)), now - window)
      ensures forall a :: a != asset ==> Cached(a) == old(Cached(a))
    {
      if asset !in samples {
        return;
      }
      var s := samples[asset];
      var kept := Compact(s.buf, s.len, now - window);
      samples := samples[asset := Slice(s.buf, kept)];
    }

    method Compact(buf: array<Sample>, n: nat, cutoff: Time) returns (kept: nat)
      requires n <= buf.Length
      modifies buf
      ensures kept <= n && buf[..kept] == Kept(old(buf[..n]), cutoff)
    {
      ghost var was := buf[..n];
      kept := 0;
      for i := 0 to n
        invariant kept <= i && buf[..kept] == Kept(was[..i], cutoff)
        invariant forall k :: i <= k < n ==> buf[k] == was[k]
      {
        assert buf[i] == was[i] && was[..i + 1] == was[..i] + [was[i]];
        KeptAppend(was[..i], was[i], cutoff);
        if buf[i].at > cutoff {
          buf[kept] := buf[i];
          kept := kept + 1;
        }
      }
      assert was[..n] == was;
    }
  }
}
