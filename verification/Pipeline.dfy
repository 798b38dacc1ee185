/** The state of the wired service and what each handler does to it, callbacks included. */
module Pipeline {
  import opened Base
  import opened Records
  import opened Configuration
  import opened Memstore
  import opened Idempotency
  import FloatTable
  import FloatTracker
  import Ledger
  import Pairs

  datatype TxEvent = TxEvent(
    txId: string, amount: Decimal, asset: string, fiatCurrency: string, notionalUSD: Decimal, userId: string)

  /** A request that reached liquidity routing or FX hedging, and whether it was answered without error. */
  datatype Call =
    | AggregateCall(batchId: nat, notional: Decimal, key: string, ok: bool)
    | ExposureCall(batchId: nat, fiat: string, notional: Decimal, key: string, ok: bool)

  datatype World = World(
    batches: seq<Batch>,
    members: seq<Membership>,
    byTx: set<string>,
    orders: seq<AggregateOrder>,
    floats: seq<FloatPosition>,
    outbox: seq<OutboxEntry>,
    outboxSeen: set<string>,
    seen: Seen,
    calls: seq<Call>)

  const EMPTY := World([], [], {}, [], [], [], {}, map[], [])

  /** Batches sit at their identifiers and no two OPEN ones share a pair. */
  ghost predicate BatchesOk(w: World) {
    && BatchIds(w.batches)
    && (forall i, j :: 0 <= i < j < |w.batches| && w.batches[i].status == Open && w.batches[j].status == Open ==>
          w.batches[i].assetPair != w.batches[j].assetPair)
  }

  predicate IsSettled(w: World, id: nat) {
    id < |w.batches| && w.batches[id].status == Settled
  }

  datatype Fill = Fill(price: Decimal, total: Decimal, routes: seq<VenueRoute>)

  /** What the downstream services answer during one submission; None is an error. */
  datatype SubmitEnv = SubmitEnv(aggDown: bool, fill: Option<Fill>, hedgeDown: bool, hedged: Option<Decimal>)

  // --- Outbox events ---

  function BatchPayload(
      a: Aggregate, e: EventType, batchId: nat, notional: Decimal, asset: string, fiat: string): Payload {
    Payload(a, e, Some(batchId), notional, asset, fiat, "")
  }

  function Emitted(w: World, p: Payload, id: nat): World {
    var key := Ledger.Key(p.aggregate, p.eventType, IdText(id));
    w.(outbox := Ledger.Appended(w.outbox, w.outboxSeen, key, p), outboxSeen := w.outboxSeen + {key})
  }

  // --- Consumer ---

  predicate WellFormed(ev: TxEvent) {
    ev.txId != "" && ev.asset != ""
  }

  function PairOf(ev: TxEvent): string {
    Pairs.Join(ev.asset, ev.fiatCurrency)
  }

  /** The amount booked for a transaction: its notional, or its amount when the notional is zero. */
  function BookedNotional(ev: TxEvent): Decimal {
    if ev.notionalUSD == 0.0 then ev.amount else ev.notionalUSD
  }

  function MembershipFor(ev: TxEvent, batchId: nat): Membership {
    Membership(batchId, ev.txId, ev.amount, ev.asset, ev.fiatCurrency, BookedNotional(ev), ev.userId)
  }

  function OpenPayload(batchId: nat): Payload {
    BatchPayload(AggBatch, EvBatchOpen, batchId, 0.0, "", "")
  }

  /** The claimed and unknown transaction joins the open batch of its pair. */
  function Joined(w: World, ev: TxEvent, now: Time): World {
    var id := FindOpen(w.batches, PairOf(ev));
    var batches := WithOpenBatch(w.batches, PairOf(ev), now);
    var isNew := MembersOf(w.members, id) == [];
    var members := w.members + [MembershipFor(ev, id)];
    var w1 := w.(batches := batches, members := members, byTx := w.byTx + {ev.txId});
    var w2 := if isNew then Emitted(w1, OpenPayload(id), id) else w1;
    w2.(batches := WithNotional(w2.batches, id, SumFor(members, id)))
  }

  function Handled(w: World, ev: TxEvent, now: Time): World {
    if !WellFormed(ev) || Held(w.seen, TxKey(ev.txId), now) then w
    else
      var w1 := w.(seen := Marked(w.seen, TxKey(ev.txId), DAY, now));
      if ev.txId in w.byTx then w1 else Joined(w1, ev, now)
  }

  // --- Fill callback ---

  function Tracked(cfg: Config, w: World, o: AggregateOrder, fiat: string, asset: string, now: Time): World {
    Emitted(w.(floats := FloatTable.Added(w.floats, FloatTracker.FillPosition(cfg, o, fiat, asset, now))),
            FloatTracker.AdjustPayload(o.batchId, o.notionalUSD, fiat), o.batchId)
  }

  /** An unreachable idempotency store lets the submission go ahead. */
  function Hedged(w: World, o: AggregateOrder, fiat: string, now: Time, env: SubmitEnv): World {
    var key := HedgeKey(o.batchId);
    if !env.hedgeDown && Held(w.seen, key, now) then w
    else
      var w1 := if env.hedgeDown then w else w.(seen := Marked(w.seen, key, DAY, now));
      if o.notionalUSD <= 0.0 then w1
      else
        var w2 := w1.(calls := w1.calls + [ExposureCall(o.batchId, fiat, o.notionalUSD, key, env.hedged.Some?)]);
        if env.hedged.None? then w2
        else w2.(orders := WithSettled(w2.orders, o.batchId, env.hedged.value, now))
  }

  function ExecutePayload(b: Batch, o: AggregateOrder): Payload {
    BatchPayload(AggAggregate, EvAggregateExec, b.id, o.notionalUSD,
                 Pairs.CryptoOf(b.assetPair), Pairs.FiatOf(b.assetPair))
  }

  function Filled(cfg: Config, w: World, b: Batch, o: AggregateOrder, now: Time, env: SubmitEnv): World {
    var fiat, asset := Pairs.FiatOf(b.assetPair), Pairs.CryptoOf(b.assetPair);
    var w1 := Tracked(cfg, w, o, fiat, asset, now);
    var w2 := Hedged(w1, o, fiat, now, env);
    var w3 := w2.(batches := WithStatus(w2.batches, b.id, Executing, Settled, None, now).0);
    Emitted(w3, ExecutePayload(b, o), b.id)
  }

  // --- Executor ---

  /** After the order exists and is not settled: claim, submit, record the fill. */
  function Executed(cfg: Config, w: World, b: Batch, now: Time, env: SubmitEnv): World {
    var key := AggKey(b.id);
    var w1 := w.(batches := WithStatus(w.batches, b.id, Closed, Executing, None, now).0);
    if !env.aggDown && Held(w1.seen, key, now) then w1
    else
      var w2 := if env.aggDown then w1 else w1.(seen := Marked(w1.seen, key, DAY, now));
      var w3 := w2.(calls := w2.calls + [AggregateCall(b.id, b.notionalUSD, key, env.fill.Some?)]);
      if env.fill.None? || !HasOrder(w3.orders, b.id) then w3
      else
        var f := env.fill.value;
        var w4 := w3.(orders := WithFill(w3.orders, b.id, f.price, f.total, f.routes));
        Filled(cfg, w4, b, w4.orders[FindOrder(w3.orders, b.id)], now, env)
  }

  predicate Submittable(b: Batch) {
    b.status == Closed || b.status == Executing
  }

  function Submitted(cfg: Config, w: World, id: nat, now: Time, env: SubmitEnv): World {
    if id >= |w.batches| || !Submittable(w.batches[id]) then w
    else
      var b := w.batches[id];
      var w1 := w.(orders := WithOrder(w.orders, id, b.assetPair, b.notionalUSD));
      if HasOrder(w1.orders, id) && OrderOf(w1.orders, id).status == OrderSettled then w1
      else Executed(cfg, w1, b, now, env)
  }

  // --- Scheduler ---

  function ClosePayload(b: Batch): Payload {
    BatchPayload(AggBatch, EvBatchClose, b.id, b.notionalUSD, "", "")
  }

  /** close: freeze the sum, announce the close and submit the batch. */
  function ClosedBatch(cfg: Config, w: World, id: nat, now: Time, env: SubmitEnv): World {
    if id >= |w.batches| || w.batches[id].status != Open then w
    else
      var w1 := w.(batches := WithStatus(w.batches, id, Open, Closed, Some(SumFor(w.members, id)), now).0);
      var w2 := Emitted(w1, ClosePayload(w1.batches[id]), id);
      Submitted(cfg, w2, id, now, env)
  }

  datatype CloseReason = Keep | BySize | ByTime

  function ShouldClose(cfg: Config, members: seq<Membership>, b: Batch, now: Time): CloseReason {
    var threshold, interval := BatchThresholdFor(cfg, b.assetPair), BatchIntervalDuration(cfg, b.assetPair);
    if threshold > 0.0 && SumFor(members, b.id) >= threshold then BySize
    else if interval > 0 && now - b.openedAt >= interval then ByTime
    else Keep
  }

  /** What happens downstream while one listed batch is looked at. */
  datatype TickEnv = TickEnv(lockDown: bool, submit: SubmitEnv)

  function TickedOne(cfg: Config, w: World, b: Batch, now: Time, env: TickEnv): World {
    if ShouldClose(cfg, w.members, b, now) == Keep || env.lockDown then w
    else
      var key := CadenceKey(b.assetPair);
      if Held(w.seen, key, now) then w
      else ClosedBatch(cfg, w.(seen := Marked(w.seen, key, CadenceTtl(cfg), now)), b.id, now, env.submit)
  }

  /** The first n batches of the listing were looked at. */
  function TickedUpTo(cfg: Config, w: World, open: seq<Batch>, n: nat, now: Time, envs: nat -> TickEnv): World
    requires n <= |open|
  {
    if n == 0 then w
    else TickedOne(cfg, TickedUpTo(cfg, w, open, n - 1, now, envs), open[n - 1], now, envs(open[n - 1].id))
  }

  function Ticked(cfg: Config, w: World, now: Time, envs: nat -> TickEnv): World {
    var open := OpenRows(w.batches);
    TickedUpTo(cfg, w, open, |open|, now, envs)
  }
}
