/** How long a batch can stay open when the scheduler ticks on time. */
module Latency {
  import opened Base
  import opened Records
  import opened Configuration
  import opened Memstore
  import opened Idempotency
  import opened Pipeline
  import opened Runs
  import Pairs

  /** A batch waits for its interval and for the cadence lock of its pair to lapse. */
  function Bound(cfg: Config, assetPair: string): Time {
    Max(BatchIntervalDuration(cfg, assetPair), CadenceTtl(cfg))
  }

  // --- What a close touches ---

  ghost predicate OnlyBatch(w: World, w': World, id: nat) {
    && |w'.batches| == |w.batches|
    && (forall j :: 0 <= j < |w.batches| && j != id ==> w'.batches[j] == w.batches[j])
    && (id < |w.batches| ==>
          && w'.batches[id].assetPair == w.batches[id].assetPair
          && w'.batches[id].openedAt == w.batches[id].openedAt)
  }

  ghost predicate LocksKept(seen: Seen, seen': Seen) {
    forall p :: CadenceKey(p) in seen' ==> CadenceKey(p) in seen && seen'[CadenceKey(p)] == seen[CadenceKey(p)]
  }

  lemma SubmissionLocks(seen: Seen, seen': Seen, id: nat)
    requires OnlySubmissionKeys(seen, seen', id)
    ensures LocksKept(seen, seen')
  {
    forall p | CadenceKey(p) in seen'
      ensures CadenceKey(p) in seen && seen'[CadenceKey(p)] == seen[CadenceKey(p)]
    {
      KeysApart("", "", p, p, id);
    }
  }

  lemma SubmittedTouches(cfg: Config, w: World, id: nat, now: Time, env: SubmitEnv)
    requires BatchIds(w.batches)
    ensures var w' := Submitted(cfg, w, id, now, env);
            && OnlyBatch(w, w', id) && LocksKept(w.seen, w'.seen)
            && (id < |w.batches| ==> w'.batches[id].closedAt == w.batches[id].closedAt)
            && (id < |w.batches| ==> (w'.batches[id].status == Open <==> w.batches[id].status == Open))
  {
    var w' := Submitted(cfg, w, id, now, env);
    SubmitEffect(cfg, w, id, now, env);
    if w' != w {
      SubmissionLocks(w.seen, w'.seen, id);
    }
  }

  /** An open batch is closed now; nothing else moves. */
  lemma ClosedTouches(cfg: Config, w: World, id: nat, now: Time, env: SubmitEnv)
    requires BatchIds(w.batches)
    ensures var w' := ClosedBatch(cfg, w, id, now, env);
            && OnlyBatch(w, w', id) && LocksKept(w.seen, w'.seen)
            && (if id < |w.batches| && w.batches[id].status == Open
                then w'.batches[id].status != Open
                     && w'.batches[id].closedAt
                        == (if w.batches[id].closedAt == None then Some(now) else w.batches[id].closedAt)
                else w' == w)
  {
    if id < |w.batches| && w.batches[id].status == Open {
      var w1 := JustClosed(w, id, now);
      SubmittedTouches(cfg, w1, id, now, env);
    }
  }

  // --- Locks and times ---

  /** No cadence lock outlives the clock, or the open batch of its pair, by more than its lifetime. */
  ghost predicate LocksOk(cfg: Config, w: World, clock: Time) {
    && (forall p :: CadenceKey(p) in w.seen ==> w.seen[CadenceKey(p)] <= clock + CadenceTtl(cfg))
    && (forall b ::
          0 <= b < |w.batches| && w.batches[b].status == Open && CadenceKey(w.batches[b].assetPair) in w.seen ==>
            w.seen[CadenceKey(w.batches[b].assetPair)] <= w.batches[b].openedAt + CadenceTtl(cfg))
  }

  ghost predicate OpenOk(w: World) {
    forall b :: 0 <= b < |w.batches| && w.batches[b].status == Open ==> w.batches[b].closedAt == None
  }

  /** Open batches were young at the last tick; closed ones closed in time. */
  ghost predicate Timely(cfg: Config, w: World, lastTick: Time, period: Time) {
    && (forall b :: 0 <= b < |w.batches| && w.batches[b].status == Open ==>
          lastTick - w.batches[b].openedAt < Bound(cfg, w.batches[b].assetPair))
    && (forall b :: 0 <= b < |w.batches| && w.batches[b].status != Open ==>
          w.batches[b].closedAt.Some?
          && w.batches[b].closedAt.value - w.batches[b].openedAt < Bound(cfg, w.batches[b].assetPair) + period)
  }

  ghost predicate LatencyOk(cfg: Config, w: World, clock: Time, lastTick: Time, period: Time) {
    LocksOk(cfg, w, clock) && OpenOk(w) && Timely(cfg, w, lastTick, period)
  }

  /** A step that touches at most one batch, perhaps closing it now, and no cadence lock. */
  lemma TouchKeepsLatency(
      cfg: Config, w: World, w': World, id: nat, clock: Time, now: Time, lastTick: Time, period: Time)
    requires LatencyOk(cfg, w, clock, lastTick, period) && clock <= now && now - lastTick <= period
    requires OnlyBatch(w, w', id) && LocksKept(w.seen, w'.seen)
    requires id < |w.batches| && w.batches[id].status == Open ==>
      w'.batches[id].status != Open && w'.batches[id].closedAt == Some(now)
    requires id < |w.batches| && w.batches[id].status != Open ==>
      w'.batches[id].status != Open && w'.batches[id].closedAt == w.batches[id].closedAt
    ensures LatencyOk(cfg, w', now, lastTick, period)
  {
  }

  // --- One tick ---

  /** The guard under which a tick closes an open batch. */
  ghost predicate TickCloses(cfg: Config, w: World, b: Batch, now: Time, env: TickEnv) {
    && (Full(cfg, b.assetPair, SumFor(w.members, b.id)) || Aged(cfg, b.assetPair, now - b.openedAt))
    && !env.lockDown
    && !(CadenceKey(b.assetPair) in w.seen && w.seen[CadenceKey(b.assetPair)] > now)
  }

  /** The sum reaches the pair's positive threshold. */
  ghost predicate Full(cfg: Config, assetPair: string, sum: Decimal) {
    var threshold :=
      if assetPair in cfg.batchThresholdOverrides && cfg.batchThresholdOverrides[assetPair] > 0.0
      then cfg.batchThresholdOverrides[assetPair] else cfg.batchSizeThresholdUSD;
    threshold > 0.0 && sum >= threshold
  }

  /** The age reaches the pair's positive interval. */
  ghost predicate Aged(cfg: Config, assetPair: string, age: Time) {
    var seconds :=
      if assetPair in cfg.batchIntervalOverrides && cfg.batchIntervalOverrides[assetPair] > 0
      then cfg.batchIntervalOverrides[assetPair] else cfg.batchIntervalSeconds;
    seconds > 0 && age >= seconds * 1_000_000_000
  }

  lemma TickedOneTouches(cfg: Config, w: World, b: Batch, now: Time, env: TickEnv)
    requires WorldOk(w) && b.id < |w.batches| && w.batches[b.id] == b && b.status == Open
    ensures var w' := TickedOne(cfg, w, b, now, env);
            && OnlyBatch(w, w', b.id) && SameIntake(w, w')
            && LocksKept(if TickCloses(cfg, w, b, now, env)
                         then Marked(w.seen, CadenceKey(b.assetPair), CadenceTtl(cfg), now) else w.seen, w'.seen)
            && (w'.batches[b.id].status != Open <==> TickCloses(cfg, w, b, now, env))
            && (if TickCloses(cfg, w, b, now, env)
                then w'.batches[b.id].closedAt == (if b.closedAt == None then Some(now) else b.closedAt)
                else w' == w)
  {
    TickedOneKeeps(cfg, w, b, now, env);
    ClosedTouches(cfg, WithLock(cfg, w, b.assetPair, now), b.id, now, env.submit);
  }

  /** An aged batch finds its lock lapsed. */
  lemma AgedBatchCloses(cfg: Config, w: World, b: Batch, clock: Time, now: Time, env: TickEnv)
    requires LocksOk(cfg, w, clock) && cfg.batchIntervalSeconds > 0
    requires b.id < |w.batches| && w.batches[b.id] == b && b.status == Open
    requires now - b.openedAt >= Bound(cfg, b.assetPair) && !env.lockDown
    ensures TickCloses(cfg, w, b, now, env)
  {
  }

  lemma LockKeepsLatency(cfg: Config, w: World, w': World, b: Batch, now: Time, lastTick: Time, period: Time)
    requires WorldOk(w) && LatencyOk(cfg, w, now, lastTick, period) && now - lastTick <= period
    requires b.id < |w.batches| && w.batches[b.id] == b && b.status == Open
    requires OnlyBatch(w, w', b.id) && w'.batches[b.id].status != Open && w'.batches[b.id].closedAt == Some(now)
    requires LocksKept(Marked(w.seen, CadenceKey(b.assetPair), CadenceTtl(cfg), now), w'.seen)
    ensures LatencyOk(cfg, w', now, lastTick, period)
  {
    forall p | CadenceKey(p) in w'.seen
      ensures CadenceKey(p) in w.seen || p == b.assetPair
      ensures w'.seen[CadenceKey(p)] == now + CadenceTtl(cfg)
           || (CadenceKey(p) in w.seen && w'.seen[CadenceKey(p)] == w.seen[CadenceKey(p)])
      ensures p != b.assetPair ==> CadenceKey(p) in w.seen && w'.seen[CadenceKey(p)] == w.seen[CadenceKey(p)]
    {
      KeysApart("", "", p, b.assetPair, 0);
    }
    forall j | 0 <= j < |w'.batches| && w'.batches[j].status == Open
      ensures w'.batches[j].assetPair != b.assetPair
    {
      assert w.batches[j] == w'.batches[j];
    }
  }

  /** The state of a pass over the listing: later entries untouched, earlier aged ones closed. */
  ghost predicate PassOk(
      cfg: Config, w: World, w0: World, open: seq<Batch>, n: nat, now: Time, lastTick: Time, period: Time)
    requires n <= |open|
  {
    && WorldOk(w) && LatencyOk(cfg, w, now, lastTick, period)
    && w.members == w0.members && |w.batches| == |w0.batches|
    && (forall k :: n <= k < |open| ==> open[k].id < |w.batches| && w.batches[open[k].id] == open[k])
    && (forall j :: 0 <= j < |w.batches| && w.batches[j].status == Open ==> w.batches[j] == w0.batches[j])
    && (forall k :: 0 <= k < n && now - open[k].openedAt >= Bound(cfg, open[k].assetPair) ==>
          open[k].id < |w.batches| && w.batches[open[k].id].status != Open)
  }

  ghost predicate Listing(open: seq<Batch>) {
    && (forall k :: 0 <= k < |open| ==> open[k].status == Open)
    && (forall k, l :: 0 <= k < l < |open| ==> open[k].id != open[l].id)
  }

  lemma PassStep(cfg: Config, w: World, w0: World, open: seq<Batch>, n: nat, now: Time, env: TickEnv,
                 lastTick: Time, period: Time)
    requires n < |open| && Listing(open) && cfg.batchIntervalSeconds > 0
    requires PassOk(cfg, w, w0, open, n, now, lastTick, period) && now - lastTick <= period && !env.lockDown
    ensures PassOk(cfg, TickedOne(cfg, w, open[n], now, env), w0, open, n + 1, now, lastTick, period)
  {
    hide TickedOne, WorldOk;
    var b := open[n];
    var w' := TickedOne(cfg, w, b, now, env);
    TickedOneKeeps(cfg, w, b, now, env);
    TickedOneTouches(cfg, w, b, now, env);
    if TickCloses(cfg, w, b, now, env) {
      LockKeepsLatency(cfg, w, w', b, now, lastTick, period);
    }
    if now - b.openedAt >= Bound(cfg, b.assetPair) {
      AgedBatchCloses(cfg, w, b, now, now, env);
    }
  }

  lemma {:induction false} PassKeeps(cfg: Config, w: World, open: seq<Batch>, n: nat, now: Time, envs: nat -> TickEnv,
                                     lastTick: Time, period: Time)
    requires n <= |open| && Listing(open) && cfg.batchIntervalSeconds > 0
    requires PassOk(cfg, w, w, open, 0, now, lastTick, period) && now - lastTick <= period
    requires forall i: nat :: !envs(i).lockDown
    ensures PassOk(cfg, TickedUpTo(cfg, w, open, n, now, envs), w, open, n, now, lastTick, period)
  {
    hide PassOk, TickedOne;
    if n > 0 {
      PassKeeps(cfg, w, open, n - 1, now, envs, lastTick, period);
      var w1 := TickedUpTo(cfg, w, open, n - 1, now, envs);
      PassStep(cfg, w1, w, open, n - 1, now, envs(open[n - 1].id), lastTick, period);
    }
  }

  lemma {:induction false} OpenRowsListed(rows: seq<Batch>)
    requires BatchIds(rows)
    ensures var open := OpenRows(rows);
            && Listing(open)
            && (forall k :: 0 <= k < |open| ==> open[k].id < |rows| && rows[open[k].id] == open[k])
            && (forall j :: 0 <= j < |rows| && rows[j].status == Open ==> rows[j] in open)
  {
    if rows != [] {
      var rest, b := rows[..|rows| - 1], rows[|rows| - 1];
      OpenRowsListed(rest);
      assert rows == rest + [b];
      if b.status == Open {
        ListingGrows(rest, OpenRows(rest), b);
      }
    }
  }

  lemma ListingGrows(rows: seq<Batch>, open: seq<Batch>, b: Batch)
    requires Listing(open) && b.status == Open && b.id == |rows|
    requires forall k :: 0 <= k < |open| ==> open[k].id < |rows| && rows[open[k].id] == open[k]
    ensures Listing(open + [b])
    ensures forall k :: 0 <= k < |open + [b]| ==>
      (open + [b])[k].id <= |rows| && (rows + [b])[(open + [b])[k].id] == (open + [b])[k]
  {
  }

  lemma PassDone(cfg: Config, w': World, w: World, open: seq<Batch>, now: Time, lastTick: Time, period: Time)
    requires PassOk(cfg, w', w, open, |open|, now, lastTick, period)
    requires forall k :: 0 <= k < |open| ==> open[k].id < |w.batches| && w.batches[open[k].id] == open[k]
    requires forall j :: 0 <= j < |w.batches| && w.batches[j].status == Open ==> w.batches[j] in open
    requires BatchIds(w.batches)
    ensures LatencyOk(cfg, w', now, now, period)
  {
    forall j | 0 <= j < |w'.batches| && w'.batches[j].status == Open
      ensures now - w'.batches[j].openedAt < Bound(cfg, w'.batches[j].assetPair)
    {
      assert w.batches[j] == w'.batches[j] && w.batches[j] in open;
      var k :| 0 <= k < |open| && open[k] == w.batches[j];
      assert open[k].id == j;
    }
  }

  /** After a tick every batch still open is younger than its bound. */
  lemma TickKeepsLatency(
      cfg: Config, w: World, clock: Time, now: Time, lastTick: Time, period: Time, envs: nat -> TickEnv)
    requires WorldOk(w) && LatencyOk(cfg, w, clock, lastTick, period) && cfg.batchIntervalSeconds > 0
    requires clock <= now && now - lastTick <= period && (forall i: nat :: !envs(i).lockDown)
    ensures LatencyOk(cfg, Ticked(cfg, w, now, envs), now, now, period)
  {
    hide TickedUpTo, OpenRows;
    var open := OpenRows(w.batches);
    OpenRowsListed(w.batches);
    PassKeeps(cfg, w, open, |open|, now, envs, lastTick, period);
    PassDone(cfg, TickedUpTo(cfg, w, open, |open|, now, envs), w, open, now, lastTick, period);
  }

  lemma HandledLocks(w: World, ev: TxEvent, now: Time)
    requires TxClaimsOk(w)
    ensures LocksKept(w.seen, Handled(w, ev, now).seen)
  {
    HandledEffect(w, ev, now);
    var seen' := Handled(w, ev, now).seen;
    forall p | CadenceKey(p) in seen'
      ensures CadenceKey(p) in w.seen && seen'[CadenceKey(p)] == w.seen[CadenceKey(p)]
    {
      KeysApart(ev.txId, "", p, p, 0);
    }
  }

  /** A batch joined or newly opened now, no cadence lock taken. */
  lemma JoinKeepsLatency(
      cfg: Config, w: World, w': World, id: nat, clock: Time, now: Time, lastTick: Time, period: Time)
    requires LatencyOk(cfg, w, clock, lastTick, period) && cfg.batchIntervalSeconds > 0
    requires clock <= now && lastTick <= now && LocksKept(w.seen, w'.seen)
    requires forall b :: 0 <= b < |w'.batches| && b != id ==> b < |w.batches| && w'.batches[b] == w.batches[b]
    requires id < |w'.batches| && w'.batches[id].status == Open
    requires if id < |w.batches| then w.batches[id] == w'.batches[id].(notionalUSD := w.batches[id].notionalUSD)
             else w'.batches[id].openedAt == now && w'.batches[id].closedAt == None
    ensures LatencyOk(cfg, w', now, lastTick, period)
  {
  }

  lemma HandledKeepsLatency(cfg: Config, w: World, ev: TxEvent, clock: Time, now: Time, lastTick: Time, period: Time)
    requires WorldOk(w) && LatencyOk(cfg, w, clock, lastTick, period) && cfg.batchIntervalSeconds > 0
    requires clock <= now && lastTick <= now
    ensures LatencyOk(cfg, Handled(w, ev, now), now, lastTick, period)
  {
    hide Handled, Joined, LatencyOk, LocksKept, TxKey;
    HandledLocks(w, ev, now);
    HandledEffect(w, ev, now);
    if WellFormed(ev) && ev.txId !in w.byTx {
      JoinedEffect(w, ev, now);
      JoinedBatches(w, ev, now);
      JoinKeepsLatency(cfg, w, Handled(w, ev, now), FindOpen(w.batches, PairOf(ev)), clock, now, lastTick, period);
    } else {
      SameBatchesLatency(cfg, w, Handled(w, ev, now), clock, now, lastTick, period);
    }
  }

  lemma SameBatchesLatency(cfg: Config, w: World, w': World, clock: Time, now: Time, lastTick: Time, period: Time)
    requires LatencyOk(cfg, w, clock, lastTick, period) && clock <= now
    requires w'.batches == w.batches && LocksKept(w.seen, w'.seen)
    ensures LatencyOk(cfg, w', now, lastTick, period)
  {
    hide CadenceKey;
  }

  // --- Whole runs ---

  /** The clock never runs back, no tick is overdue, and the lock store answers every tick. */
  ghost predicate Punctual(cfg: Config, start: Time, acts: seq<Timed>, period: Time) {
    acts != [] ==>
      var rest, t := acts[..|acts| - 1], acts[|acts| - 1];
      var s := Run(cfg, start, rest);
      && Punctual(cfg, start, rest, period)
      && s.clock <= t.at <= s.lastTick + period
      && (t.act.Tick? ==> forall i: nat :: !t.act.envs(i).lockDown)
  }

  lemma StepKeepsLatency(cfg: Config, s: Sys, t: Timed, period: Time)
    requires Inv(s) && LatencyOk(cfg, s.w, s.clock, s.lastTick, period) && cfg.batchIntervalSeconds > 0
    requires s.lastTick <= s.clock <= t.at <= s.lastTick + period
    requires t.act.Tick? ==> forall i: nat :: !t.act.envs(i).lockDown
    ensures LatencyOk(cfg, Step(cfg, s, t).w, t.at, Step(cfg, s, t).lastTick, period)
  {
    hide Handled, TickedUpTo, ClosedBatch, Submitted, LatencyOk, WorldOk, HistoryOk;
    var w' := Step(cfg, s, t).w;
    match t.act {
      case Event(ev) => HandledKeepsLatency(cfg, s.w, ev, s.clock, t.at, s.lastTick, period);
      case Tick(envs) => TickKeepsLatency(cfg, s.w, s.clock, t.at, s.lastTick, period, envs);
      case Close(id, env) => ClosedKeepsLatency(cfg, s.w, id, s.clock, t.at, s.lastTick, period, env);
      case Submit(id, env) =>
        SubmittedKeepsLatency(cfg, s.w, id, s.clock, t.at, s.lastTick, period, env);
      case _ => AsideKeepsLatency(cfg, s.w, w', s.clock, t.at, s.lastTick, period);
    }
  }

  lemma ClosedKeepsLatency(
      cfg: Config, w: World, id: nat, clock: Time, now: Time, lastTick: Time, period: Time, env: SubmitEnv)
    requires WorldOk(w) && LatencyOk(cfg, w, clock, lastTick, period) && clock <= now && now - lastTick <= period
    ensures LatencyOk(cfg, ClosedBatch(cfg, w, id, now, env), now, lastTick, period)
  {
    hide ClosedBatch, LocksOk, Timely, CadenceKey;
    ClosedTouches(cfg, w, id, now, env);
    TouchKeepsLatency(cfg, w, ClosedBatch(cfg, w, id, now, env), id, clock, now, lastTick, period);
  }

  lemma AsideKeepsLatency(cfg: Config, w: World, w': World, clock: Time, now: Time, lastTick: Time, period: Time)
    requires LatencyOk(cfg, w, clock, lastTick, period) && clock <= now
    requires w'.batches == w.batches && forall k :: k in w'.seen ==> k in w.seen && w'.seen[k] == w.seen[k]
    ensures LatencyOk(cfg, w', now, lastTick, period)
  {
    hide CadenceKey;
  }

  lemma SubmittedKeepsLatency(
      cfg: Config, w: World, id: nat, clock: Time, now: Time, lastTick: Time, period: Time, env: SubmitEnv)
    requires WorldOk(w) && LatencyOk(cfg, w, clock, lastTick, period) && clock <= now
    ensures LatencyOk(cfg, Submitted(cfg, w, id, now, env), now, lastTick, period)
  {
    hide Submitted;
    SubmittedTouches(cfg, w, id, now, env);
    if id < |w.batches| && w.batches[id].status == Open {
      SubmitEffect(cfg, w, id, now, env);
    }
  }

  lemma {:induction false} RunLatency(cfg: Config, start: Time, acts: seq<Timed>, period: Time)
    requires cfg.batchIntervalSeconds > 0 && Punctual(cfg, start, acts, period)
    ensures var s := Run(cfg, start, acts);
            LatencyOk(cfg, s.w, s.clock, s.lastTick, period) && s.lastTick <= s.clock
  {
    hide Apply;
    if acts != [] {
      var rest := acts[..|acts| - 1];
      RunLatency(cfg, start, rest, period);
      RunKeeps(cfg, start, rest);
      StepKeepsLatency(cfg, Run(cfg, start, rest), acts[|acts| - 1], period);
    }
  }

  /** With ticks at most a period apart, no batch is ever open for its bound plus a period. */
  lemma BoundedCloseLatency(cfg: Config, start: Time, acts: seq<Timed>, period: Time, id: nat, now: Time)
    requires cfg.batchIntervalSeconds > 0 && Punctual(cfg, start, acts, period)
    requires id < |Run(cfg, start, acts).w.batches|
    ensures var s := Run(cfg, start, acts);
            var b := s.w.batches[id];
            var limit := Bound(cfg, b.assetPair) + period;
            && (b.status != Open ==> b.closedAt.Some? && b.closedAt.value - b.openedAt < limit)
            && (b.status == Open && now <= s.lastTick + period ==> now - b.openedAt < limit)
  {
    RunLatency(cfg, start, acts, period);
  }

  /** A pair whose interval covers the lock's lifetime closes within its interval and a quarter of the default one. */
  lemma BoundOfLongIntervals(cfg: Config, assetPair: string)
    requires cfg.batchIntervalSeconds > 0 && BatchIntervalFor(cfg, assetPair) >= cfg.batchIntervalSeconds
    ensures Bound(cfg, assetPair) + TickPeriod(cfg)
         <= BatchIntervalDuration(cfg, assetPair) + BatchIntervalDuration(cfg, assetPair) / 4
    ensures Bound(cfg, assetPair) == BatchIntervalDuration(cfg, assetPair)
  {
  }

  // --- Intervals shorter than the lock ---

  const CALM := TickEnv(false, SubmitEnv(false, None, false, None))

  /** The tick of a service whose only open batch is b. */
  lemma TickOfOne(cfg: Config, w: World, b: Batch, now: Time, envs: nat -> TickEnv)
    requires WorldOk(w) && b.id < |w.batches| && w.batches[b.id] == b && b.status == Open
    requires forall j :: 0 <= j < |w.batches| && j != b.id ==> w.batches[j].status != Open
    ensures Ticked(cfg, w, now, envs) == TickedOne(cfg, w, b, now, envs(b.id))
  {
    var open := OpenRows(w.batches);
    OpenRowsListed(w.batches);
    assert |open| > 1 ==> open[0].id != open[1].id;
    assert b in open;
    forall k | 0 <= k < |open|
      ensures open[k] == b
    {
      assert w.batches[open[k].id] == open[k];
    }
    assert |open| == 1;
    assert TickedUpTo(cfg, w, open, 0, now, envs) == w;
  }

  /** A tick that closes a batch leaves its cadence lock held for the lock's lifetime. */
  lemma CloseLeavesLock(cfg: Config, w: World, b: Batch, now: Time, env: TickEnv)
    requires WorldOk(w) && b.id < |w.batches| && w.batches[b.id] == b && b.status == Open
    requires TickCloses(cfg, w, b, now, env)
    ensures var w' := TickedOne(cfg, w, b, now, env);
            CadenceKey(b.assetPair) in w'.seen && w'.seen[CadenceKey(b.assetPair)] >= now + CadenceTtl(cfg)
  {
    hide Submitted, CadenceKey, SumFor, WorldOk;
    var w1 := WithLock(cfg, w, b.assetPair, now);
    var w2 := JustClosed(w1, b.id, now);
    LockKeeps(cfg, w, b.assetPair, now);
    JustClosedKeeps(w1, b.id, now);
    assert BatchIds(w2.batches) by {
      BatchIdsOf(w2);
    }
    SubmitEffect(cfg, w2, b.id, now, env.submit);
  }

  /** A transaction of a pair without an open batch opens one now. */
  lemma FreshJoin(w: World, ev: TxEvent, now: Time)
    requires WorldOk(w) && WellFormed(ev) && ev.txId !in w.byTx && FindOpen(w.batches, PairOf(ev)) == |w.batches|
    ensures var w' := Handled(w, ev, now);
            var n := |w.batches|;
            && |w'.batches| == n + 1 && w'.batches[..n] == w.batches
            && w'.batches[n].status == Open && w'.batches[n].openedAt == now && w'.batches[n].assetPair == PairOf(ev)
            && w'.byTx == w.byTx + {ev.txId}
            && (forall k :: k in w.seen ==> k in w'.seen && w'.seen[k] >= w.seen[k])
            && LocksKept(w.seen, w'.seen)
  {
    HandledEffect(w, ev, now);
    HandledLocks(w, ev, now);
    JoinedEffect(w, ev, now);
    JoinedBatches(w, ev, now);
  }

  /** An event of the pair that books the given amount. */
  function Sample(txId: string, asset: string, fiat: string, amount: Decimal): TxEvent {
    TxEvent(txId, amount, asset, fiat, amount, "")
  }

  /** A first transaction that fills its batch, and the tick that closes it at once. */
  lemma FirstRound(cfg: Config, w0: World, ev: TxEvent)
    requires WorldOk(w0) && w0.batches == [] && w0.members == [] && w0.byTx == {} && CadenceKey(PairOf(ev)) !in w0.seen
    requires WellFormed(ev) && 0.0 < BatchThresholdFor(cfg, PairOf(ev)) <= BookedNotional(ev)
    ensures var w := Ticked(cfg, Handled(w0, ev, 0), 0, _ => CALM);
            && WorldOk(w) && |w.batches| == 1 && w.batches[0].status != Open && w.byTx == {ev.txId}
            && CadenceKey(PairOf(ev)) in w.seen && w.seen[CadenceKey(PairOf(ev))] >= CadenceTtl(cfg)
  {
    hide Handled, Joined, Ticked, TickedOne, TxKey;
    FreshJoin(w0, ev, 0);
    HandledWorldOk(w0, ev, 0);
    HandledEffect(w0, ev, 0);
    JoinedEffect(w0, ev, 0);
    var w := Handled(w0, ev, 0);
    SumOfOne(MembershipFor(ev, 0));
    assert w.members == [MembershipFor(ev, 0)];
    FullBatchCloses(cfg, w, w.batches[0]);
  }

  lemma FullBatchCloses(cfg: Config, w: World, b: Batch)
    requires WorldOk(w) && w.batches == [b] && b.status == Open && CadenceKey(b.assetPair) !in w.seen
    requires 0.0 < BatchThresholdFor(cfg, b.assetPair) <= SumFor(w.members, 0)
    ensures var w' := Ticked(cfg, w, 0, _ => CALM);
            && WorldOk(w') && |w'.batches| == 1 && w'.batches[0].status != Open && SameIntake(w, w')
            && CadenceKey(b.assetPair) in w'.seen && w'.seen[CadenceKey(b.assetPair)] >= CadenceTtl(cfg)
  {
    hide Ticked, TickedOne;
    assert w.batches[0] == b && b.id == 0;
    TickOfOne(cfg, w, b, 0, _ => CALM);
    TickedOneKeeps(cfg, w, b, 0, CALM);
    TickedOneTouches(cfg, w, b, 0, CALM);
    CloseLeavesLock(cfg, w, b, 0, CALM);
  }

  /** While the lock of the only open batch is held, ticks change nothing. */
  lemma BlockedTick(cfg: Config, w: World, b: Batch, now: Time)
    requires WorldOk(w) && b.id < |w.batches| && w.batches[b.id] == b && b.status == Open
    requires forall j :: 0 <= j < |w.batches| && j != b.id ==> w.batches[j].status != Open
    requires CadenceKey(b.assetPair) in w.seen && w.seen[CadenceKey(b.assetPair)] > now
    ensures Ticked(cfg, w, now, _ => CALM) == w
  {
    hide Ticked, ClosedBatch;
    TickOfOne(cfg, w, b, now, _ => CALM);
  }

  /** A second batch of the pair is open since the beginning, and the pair's lock is held until then. */
  ghost predicate SecondWaits(w: World, pair: string, until: Time) {
    && WorldOk(w) && |w.batches| == 2
    && w.batches[0].status != Open && w.batches[1].status == Open && w.batches[1].openedAt == 0
    && w.batches[1].assetPair == pair && w.batches[1].id == 1
    && CadenceKey(pair) in w.seen && w.seen[CadenceKey(pair)] >= until
  }

  lemma SecondRound(cfg: Config, w: World, ev: TxEvent, until: Time)
    requires WorldOk(w) && WellFormed(ev) && ev.txId !in w.byTx
    requires |w.batches| == 1 && w.batches[0].status != Open
    requires CadenceKey(PairOf(ev)) in w.seen && w.seen[CadenceKey(PairOf(ev))] >= until
    ensures SecondWaits(Handled(w, ev, 0), PairOf(ev), until)
  {
    hide Handled, TxKey;
    HandledWorldOk(w, ev, 0);
    FreshJoin(w, ev, 0);
    var w1 := Handled(w, ev, 0);
    assert w1.batches[0] == w1.batches[..1][0];
  }

  // --- Building a punctual run step by step ---

  lemma Extend(cfg: Config, acts: seq<Timed>, t: Timed, period: Time)
    requires Punctual(cfg, 0, acts, period)
    requires Run(cfg, 0, acts).clock <= t.at <= Run(cfg, 0, acts).lastTick + period
    requires t.act.Tick? ==> forall i: nat :: !t.act.envs(i).lockDown
    ensures Punctual(cfg, 0, acts + [t], period) && Run(cfg, 0, acts + [t]) == Step(cfg, Run(cfg, 0, acts), t)
  {
    hide Step;
    assert (acts + [t])[..|acts|] == acts;
  }

  /** One more tick while the lock is held. */
  lemma TickAgain(
      cfg: Config, acts: seq<Timed>, pair: string, until: Time, period: Time, at: Time) returns (more: seq<Timed>)
    requires Punctual(cfg, 0, acts, period) && SecondWaits(Run(cfg, 0, acts).w, pair, until)
    requires Run(cfg, 0, acts).clock <= at <= Run(cfg, 0, acts).lastTick + period && at < until
    ensures Punctual(cfg, 0, more, period)
    ensures Run(cfg, 0, more).w == Run(cfg, 0, acts).w && Run(cfg, 0, more).clock == Run(cfg, 0, more).lastTick == at
  {
    hide Punctual, Ticked, Run;
    var t := Timed(at, Tick(_ => CALM));
    more := acts + [t];
    Extend(cfg, acts, t, period);
    BlockedTick(cfg, Run(cfg, 0, acts).w, Run(cfg, 0, acts).w.batches[1], at);
  }

  lemma OpeningWorld(cfg: Config, asset: string, fiat: string, full: Decimal)
    requires asset != "" && 0.0 < BatchThresholdFor(cfg, Pairs.Join(asset, fiat)) <= full
    ensures var w := Ticked(cfg, Handled(EMPTY, Sample("a", asset, fiat, full), 0), 0, _ => CALM);
            SecondWaits(Handled(w, Sample("b", asset, fiat, full), 0), Pairs.Join(asset, fiat), CadenceTtl(cfg))
  {
    hide Handled, Ticked, SecondWaits, WorldOk, CadenceKey;
    var x, y := Sample("a", asset, fiat, full), Sample("b", asset, fiat, full);
    EmptyWorldOk(EMPTY);
    FirstRound(cfg, EMPTY, x);
    SecondRound(cfg, Ticked(cfg, Handled(EMPTY, x, 0), 0, _ => CALM), y, CadenceTtl(cfg));
  }

  lemma NothingYet(cfg: Config, period: Time)
    ensures Run(cfg, 0, []) == Sys(EMPTY, 0, 0, []) && Punctual(cfg, 0, [], period)
  {
  }

  lemma OpeningRounds(cfg: Config, asset: string, fiat: string) returns (acts: seq<Timed>)
    requires asset != "" && cfg.batchIntervalSeconds > 0 && cfg.batchSizeThresholdUSD > 0.0
    ensures Punctual(cfg, 0, acts, TickPeriod(cfg))
    ensures var s := Run(cfg, 0, acts);
            SecondWaits(s.w, Pairs.Join(asset, fiat), CadenceTtl(cfg)) && s.clock == s.lastTick == 0
  {
    hide Handled, Ticked, SecondWaits, Punctual, Run;
    var full := BatchThresholdFor(cfg, Pairs.Join(asset, fiat));
    var a, c := Timed(0, Event(Sample("a", asset, fiat, full))), Timed(0, Event(Sample("b", asset, fiat, full)));
    var b := Timed(0, Tick(_ => CALM));
    NothingYet(cfg, TickPeriod(cfg));
    Extend(cfg, [], a, TickPeriod(cfg));
    Extend(cfg, [] + [a], b, TickPeriod(cfg));
    Extend(cfg, [] + [a] + [b], c, TickPeriod(cfg));
    acts := [] + [a] + [b] + [c];
    OpeningWorld(cfg, asset, fiat, full);
  }

  /** Ticks a quarter of the default interval apart, and a last one before the lock lapses, pass over a batch that has
      been open all the time. */
  lemma TicksPassOver(cfg: Config, asset: string, fiat: string, last: Time) returns (acts: seq<Timed>)
    requires asset != "" && cfg.batchIntervalSeconds > 0 && cfg.batchSizeThresholdUSD > 0.0
    requires 3 * TickPeriod(cfg) <= last < CadenceTtl(cfg)
    ensures Punctual(cfg, 0, acts, TickPeriod(cfg))
    ensures var s := Run(cfg, 0, acts);
            SecondWaits(s.w, Pairs.Join(asset, fiat), CadenceTtl(cfg)) && s.clock == s.lastTick == last
  {
    hide Punctual, Run, SecondWaits;
    var q, pair := TickPeriod(cfg), Pairs.Join(asset, fiat);
    acts := OpeningRounds(cfg, asset, fiat);
    acts := TickAgain(cfg, acts, pair, CadenceTtl(cfg), q, q);
    acts := TickAgain(cfg, acts, pair, CadenceTtl(cfg), q, 2 * q);
    acts := TickAgain(cfg, acts, pair, CadenceTtl(cfg), q, 3 * q);
    acts := TickAgain(cfg, acts, pair, CadenceTtl(cfg), q, last);
  }

  /** Up to the moment the next tick is due, no batch of the pair is open for the limit, and none was. */
  ghost predicate ClosesWithin(cfg: Config, s: Sys, assetPair: string, limit: Time, period: Time) {
    forall b :: 0 <= b < |s.w.batches| && s.w.batches[b].assetPair == assetPair ==>
      if s.w.batches[b].status == Open then s.lastTick + period - s.w.batches[b].openedAt < limit
      else s.w.batches[b].closedAt.Some? && s.w.batches[b].closedAt.value - s.w.batches[b].openedAt < limit
  }

  /** Every batch of the pair closes within its interval and one tick period, in every run with ticks on time. */
  ghost predicate ClosesOnInterval(cfg: Config, assetPair: string) {
    forall start, acts :: Punctual(cfg, start, acts, TickPeriod(cfg)) ==>
      ClosesWithin(cfg, Run(cfg, start, acts), assetPair,
                   BatchIntervalDuration(cfg, assetPair) + TickPeriod(cfg), TickPeriod(cfg))
  }

  lemma LongIntervalsClose(cfg: Config, assetPair: string, start: Time, acts: seq<Timed>)
    requires cfg.batchIntervalSeconds > 0 && BatchIntervalFor(cfg, assetPair) >= cfg.batchIntervalSeconds
    requires Punctual(cfg, start, acts, TickPeriod(cfg))
    ensures ClosesWithin(cfg, Run(cfg, start, acts), assetPair,
                         BatchIntervalDuration(cfg, assetPair) + TickPeriod(cfg), TickPeriod(cfg))
  {
    hide Punctual, Run;
    var s := Run(cfg, start, acts);
    forall b | 0 <= b < |s.w.batches| && s.w.batches[b].assetPair == assetPair
      ensures if s.w.batches[b].status == Open
              then s.lastTick + TickPeriod(cfg) - s.w.batches[b].openedAt
                   < BatchIntervalDuration(cfg, assetPair) + TickPeriod(cfg)
              else s.w.batches[b].closedAt.Some?
                   && s.w.batches[b].closedAt.value - s.w.batches[b].openedAt
                      < BatchIntervalDuration(cfg, assetPair) + TickPeriod(cfg)
    {
      BoundedCloseLatency(cfg, start, acts, TickPeriod(cfg), b, s.lastTick + TickPeriod(cfg));
    }
  }

  /** Under the settings Build leaves, the interval of a pair bounds how long its batches stay open exactly when it is
      at least the default interval. */
  lemma IntervalBoundsIff(cfg: Config, asset: string, fiat: string)
    requires asset != "" && cfg.batchIntervalSeconds > 0 && cfg.batchSizeThresholdUSD > 0.0
    ensures var pair := Pairs.Join(asset, fiat);
            ClosesOnInterval(cfg, pair) <==> BatchIntervalFor(cfg, pair) >= cfg.batchIntervalSeconds
  {
    hide Punctual, Run, WorldOk;
    var pair, q := Pairs.Join(asset, fiat), TickPeriod(cfg);
    if BatchIntervalFor(cfg, pair) >= cfg.batchIntervalSeconds {
      forall start, acts | Punctual(cfg, start, acts, q)
        ensures ClosesWithin(cfg, Run(cfg, start, acts), pair, BatchIntervalDuration(cfg, pair) + q, q)
      {
        LongIntervalsClose(cfg, pair, start, acts);
      }
    } else {
      var acts := TicksPassOver(cfg, asset, fiat, CadenceTtl(cfg) - 1);
      var s := Run(cfg, 0, acts);
      assert s.lastTick + q - s.w.batches[1].openedAt >= BatchIntervalDuration(cfg, pair) + q;
      assert !ClosesWithin(cfg, s, pair, BatchIntervalDuration(cfg, pair) + q, q);
    }
  }
}
