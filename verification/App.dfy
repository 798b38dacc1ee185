/** The handlers as the composition root wires them, each proved to make its step of the pipeline. */
module App {
  import opened Base
  import opened Records
  import opened Configuration
  import opened Memstore
  import opened Idempotency
  import opened Pipeline
  import FloatTable
  import FloatTracker
  import Funding
  import Latency
  import Ledger
  import Pairs
  import Projection

  /** Liquidity routing and FX hedging, reduced to the requests they received. */
  class Market {
    var calls: seq<Call>

    constructor ()
      ensures calls == []
    {
      calls := [];
    }

    method SubmitAggregate(
        batchId: nat, notional: Decimal, key: string, answer: Option<Fill>) returns (fill: Option<Fill>)
      modifies this
      ensures fill == answer && calls == old(calls) + [AggregateCall(batchId, notional, key, answer.Some?)]
    {
      calls := calls + [AggregateCall(batchId, notional, key, answer.Some?)];
      fill := answer;
    }

    method SubmitExposure(batchId: nat, fiat: string, notional: Decimal, key: string, answer: Option<Decimal>)
      returns (hedged: Option<Decimal>)
      modifies this
      ensures hedged == answer && calls == old(calls) + [ExposureCall(batchId, fiat, notional, key, answer.Some?)]
    {
      calls := calls + [ExposureCall(batchId, fiat, notional, key, answer.Some?)];
      hedged := answer;
    }
  }

  /** All in-memory stores together with the idempotency store and the downstream services. */
  class All {
    const batch: BatchStore
    const membership: MembershipStore
    const order: AggregateOrderStore
    const floats: FloatTable.FloatStore
    const outbox: Ledger.OutboxStore
    const idem: MemStore
    const market: Market

    ghost predicate Valid()
      reads batch, floats, outbox
    {
      batch.Valid() && floats.Valid() && outbox.Valid()
    }

    ghost function View(): World
      reads batch, membership, order, floats, outbox, idem, market
    {
      World(batch.rows, membership.rows, membership.byTx, order.rows, floats.rows, outbox.rows, outbox.seen,
            idem.seen, market.calls)
    }

    constructor ()
      ensures Valid() && View() == EMPTY
      ensures fresh({batch, membership, order, floats, outbox, idem, market})
    {
      batch := new BatchStore();
      membership := new MembershipStore();
      order := new AggregateOrderStore();
      floats := new FloatTable.FloatStore();
      outbox := new Ledger.OutboxStore();
      idem := new MemStore();
      market := new Market();
    }
  }

  class Hedger {
    const all: All

    constructor (all: All)
      ensures this.all == all
    {
      this.all := all;
    }

    /** The order after hedging; None when the exposure could not be placed. */
    method OnAggregateFill(
        o: AggregateOrder, fiat: string, now: Time, env: SubmitEnv) returns (r: Option<AggregateOrder>)
      requires all.Valid()
      modifies all.idem, all.market, all.order
      ensures all.Valid() && all.View() == Hedged(old(all.View()), o, fiat, now, env)
    {
      var key := HedgeKey(o.batchId);
      if !env.hedgeDown {
        var claimed := all.idem.CheckAndMark(key, DAY, now);
        if !claimed {
          return Some(o);
        }
      }
      var exposure := o.notionalUSD;
      if !(exposure > 0.0) {
        return Some(o);
      }
      var hedged := all.market.SubmitExposure(o.batchId, fiat, exposure, key, env.hedged);
      if hedged.None? {
        return None;
      }
      r := all.order.SettleOrder(o.batchId, hedged.value, now);
    }
  }

  datatype SubmitError = UnknownBatch | NotClosed | NoFill | UnknownOrder

  class Executor {
    const all: All
    const emitter: Ledger.Emitter
    const tracker: FloatTracker.Tracker
    const hedger: Hedger

    predicate Wired() {
      && emitter.outbox == all.outbox
      && tracker.floats == all.floats
      && tracker.emitter == emitter
      && hedger.all == all
    }

    constructor (cfg: Config, all: All, emitter: Ledger.Emitter)
      requires emitter.outbox == all.outbox
      ensures Wired() && this.all == all && this.emitter == emitter && tracker.cfg == cfg
    {
      this.all, this.emitter := all, emitter;
      tracker := new FloatTracker.Tracker(cfg, all.floats, emitter);
      hedger := new Hedger(all);
    }

    /** The OnFill callback. */
    method OnFill(b: Batch, o: AggregateOrder, now: Time, env: SubmitEnv)
      requires Wired() && all.Valid() && o.batchId == b.id
      modifies all.batch, all.order, all.floats, all.outbox, all.idem, all.market
      ensures all.Valid() && all.View() == Filled(tracker.cfg, old(all.View()), b, o, now, env)
    {
      hide Ledger.Key;
      var fiat := Pairs.FiatOfPair(b.assetPair);
      var asset := Pairs.CryptoOfPair(b.assetPair);
      tracker.OnAggregateFill(o, fiat, asset, now);
      var _ := hedger.OnAggregateFill(o, fiat, now, env);
      var _ := all.batch.UpdateBatchStatus(b.id, Executing, Settled, None, now);
      emitter.Append(AggAggregate, EvAggregateExec, Ledger.Key(AggAggregate, EvAggregateExec, IdText(b.id)),
                     ExecutePayload(b, o));
    }

    /** The order returned is the batch's row as the call leaves it. */
    method SubmitBatch(id: nat, now: Time, env: SubmitEnv) returns (r: Result<AggregateOrder, SubmitError>)
      requires Wired() && all.Valid()
      modifies all.batch, all.order, all.floats, all.outbox, all.idem, all.market
      ensures all.Valid() && all.View() == Submitted(tracker.cfg, old(all.View()), id, now, env)
      ensures r == Err(UnknownBatch) <==> id >= |old(all.View()).batches|
      ensures r == Err(NotClosed) <==>
        id < |old(all.View()).batches| && old(all.View()).batches[id].status !in {Closed, Executing}
      ensures r == Err(NoFill) <==> env.fill.None? && Asks(old(all.View()), id, now, env)
      ensures r.Ok? ==> HasOrder(all.order.rows, id) && r.value == OrderOf(all.order.rows, id)
      ensures r != Err(UnknownOrder)
    {
      hide Executed, AggKey, Held, NewOrder;
      var found := all.batch.GetBatch(id);
      if found.None? {
        return Err(UnknownBatch);
      }
      var b := found.value;
      if b.status != Closed && b.status != Executing {
        return Err(NotClosed);
      }
      var o := all.order.CreateOrder(b.id, b.assetPair, b.notionalUSD);
      if o.status == OrderSettled {
        return Ok(o);
      }
      r := Execute(b, now, env);
    }

    /** The second half of SubmitBatch, from the EXECUTING transition on. */
    method Execute(b: Batch, now: Time, env: SubmitEnv) returns (r: Result<AggregateOrder, SubmitError>)
      requires Wired() && all.Valid() && HasOrder(all.order.rows, b.id)
      modifies all.batch, all.order, all.floats, all.outbox, all.idem, all.market
      ensures all.Valid() && all.View() == Executed(tracker.cfg, old(all.View()), b, now, env)
      ensures r.Ok? ==> HasOrder(all.order.rows, b.id) && r.value == OrderOf(all.order.rows, b.id)
      ensures r.Err? ==> r == Err(NoFill)
      ensures r == Err(NoFill) <==> env.fill.None? && (env.aggDown || !Held(old(all.idem.seen), AggKey(b.id), now))
    {
      hide Filled, AggKey;
      var _ := all.batch.UpdateBatchStatus(b.id, Closed, Executing, None, now);
      var key := AggKey(b.id);
      if !env.aggDown {
        var claimed := all.idem.CheckAndMark(key, DAY, now);
        if !claimed {
          var existing := all.order.GetOrderByBatch(b.id);
          return if existing.Some? then Ok(existing.value) else Err(UnknownOrder);
        }
      }
      var fill := all.market.SubmitAggregate(b.id, b.notionalUSD, key, env.fill);
      if fill.None? {
        return Err(NoFill);
      }
      var routes := [];
      for i := 0 to |fill.value.routes|
        invariant routes == fill.value.routes[..i]
      {
        var v := fill.value.routes[i];
        routes := routes + [VenueRoute(v.venue, v.share, v.price)];
      }
      assert routes == fill.value.routes;
      var updated := all.order.UpdateOrderFill(b.id, fill.value.price, fill.value.total, routes);
      if updated.None? {
        return Err(UnknownOrder);
      }
      ghost var w := all.View();
      FindOrderStable(old(all.order.rows), w.orders, b.id, 0);
      OnFill(b, updated.value, now, env);
      FilledKeepsOrder(tracker.cfg, w, b, updated.value, now, env);
      return Ok(OrderOf(all.order.rows, b.id));
    }
  }

  /** The batch may be submitted, its order is not settled, and its claim is free or cannot be checked. */
  predicate Asks(w: World, id: nat, now: Time, env: SubmitEnv) {
    && id < |w.batches| && Submittable(w.batches[id])
    && !(HasOrder(w.orders, id) && OrderOf(w.orders, id).status == OrderSettled)
    && (env.aggDown || !Held(w.seen, AggKey(id), now))
  }

  lemma FilledKeepsOrder(cfg: Config, w: World, b: Batch, o: AggregateOrder, now: Time, env: SubmitEnv)
    requires HasOrder(w.orders, b.id) && o.batchId == b.id
    ensures HasOrder(Filled(cfg, w, b, o, now, env).orders, b.id)
  {
    hide HedgeKey, Ledger.Key, Pairs.FiatOf, Pairs.CryptoOf, FloatTable.Added, WithStatus;
    if env.hedged.Some? {
      FindOrderStable(w.orders, WithSettled(w.orders, b.id, env.hedged.value, now), b.id, 0);
    }
  }

  datatype CloseError = NoSuchBatch | NotOpen

  class Scheduler {
    const cfg: Config
    const all: All
    const lock: CadenceLock
    const emitter: Ledger.Emitter
    const executor: Executor

    predicate Wired() {
      && executor.Wired() && executor.all == all && executor.tracker.cfg == cfg
      && emitter.outbox == all.outbox
      && lock.store == all.idem && lock.ttl == CadenceTtl(cfg)
    }

    constructor (cfg: Config, all: All, emitter: Ledger.Emitter, executor: Executor)
      requires executor.Wired() && executor.all == all && executor.tracker.cfg == cfg && emitter.outbox == all.outbox
      ensures Wired() && this.cfg == cfg && this.all == all && this.emitter == emitter && this.executor == executor
    {
      this.cfg, this.all, this.emitter, this.executor := cfg, all, emitter, executor;
      lock := new CadenceLock(all.idem, CadenceTtl(cfg));
    }

    method ShouldCloseNow(b: Batch, now: Time) returns (reason: CloseReason)
      ensures reason == ShouldClose(cfg, all.membership.rows, b, now)
      ensures reason == BySize <==> Latency.Full(cfg, b.assetPair, SumFor(all.membership.rows, b.id))
      ensures reason == ByTime <==> reason != BySize && Latency.Aged(cfg, b.assetPair, now - b.openedAt)
    {
      var sum := all.membership.SumNotional(b.id);
      var threshold := BatchThresholdFor(cfg, b.assetPair);
      if threshold > 0.0 && sum >= threshold {
        return BySize;
      }
      var interval := BatchIntervalDuration(cfg, b.assetPair);
      if interval > 0 && now - b.openedAt >= interval {
        return ByTime;
      }
      return Keep;
    }

    /** CloseBatch and the scheduler's own close. */
    method CloseBatch(id: nat, now: Time, env: SubmitEnv) returns (r: Result<Batch, CloseError>)
      requires Wired() && all.Valid()
      modifies all.batch, all.order, all.floats, all.outbox, all.idem, all.market
      ensures all.Valid() && all.View() == ClosedBatch(cfg, old(all.View()), id, now, env)
      ensures var w := old(all.View());
              && (r == Err(NoSuchBatch) <==> id >= |w.batches|)
              && (r == Err(NotOpen) <==> id < |w.batches| && w.batches[id].status != Open)
              && (r.Ok? ==> r.value.status == Closed && r.value.notionalUSD == SumFor(w.members, id))
    {
      var found := all.batch.GetBatch(id);
      if found.None? {
        return Err(NoSuchBatch);
      }
      if found.value.status != Open {
        return Err(NotOpen);
      }
      var sum := all.membership.SumNotional(id);
      var update := all.batch.UpdateBatchStatus(id, Open, Closed, Some(sum), now);
      var b := update.batch;
      OnClose(b, now, env);
      return Ok(b);
    }

    /** The OnClose callback. */
    method OnClose(b: Batch, now: Time, env: SubmitEnv)
      requires Wired() && all.Valid()
      modifies all.batch, all.order, all.floats, all.outbox, all.idem, all.market
      ensures all.Valid()
      ensures all.View() == Submitted(cfg, Emitted(old(all.View()), ClosePayload(b), b.id), b.id, now, env)
    {
      emitter.Append(AggBatch, EvBatchClose, Ledger.Key(AggBatch, EvBatchClose, IdText(b.id)), ClosePayload(b));
      var _ := executor.SubmitBatch(b.id, now, env);
    }

    method TickBatch(b: Batch, now: Time, env: TickEnv)
      requires Wired() && all.Valid()
      modifies all.batch, all.order, all.floats, all.outbox, all.idem, all.market
      ensures all.Valid() && all.View() == TickedOne(cfg, old(all.View()), b, now, env)
    {
      var reason := ShouldCloseNow(b, now);
      if reason == Keep || env.lockDown {
        return;
      }
      var acquired := lock.Acquire(b.assetPair, now);
      if !acquired {
        return;
      }
      var _ := CloseBatch(b.id, now, env.submit);
    }

    method Tick(now: Time, envs: nat -> TickEnv)
      requires Wired() && all.Valid()
      modifies all.batch, all.order, all.floats, all.outbox, all.idem, all.market
      ensures all.Valid() && all.View() == Ticked(cfg, old(all.View()), now, envs)
    {
      var open := all.batch.ListOpenBatches();
      for i := 0 to |open|
        invariant all.Valid() && all.View() == TickedUpTo(cfg, old(all.View()), open, i, now, envs)
      {
        TickBatch(open[i], now, envs(open[i].id));
      }
    }
  }

  class Consumer {
    const all: All
    const emitter: Ledger.Emitter

    predicate Wired() {
      emitter.outbox == all.outbox
    }

    constructor (all: All, emitter: Ledger.Emitter)
      requires emitter.outbox == all.outbox
      ensures Wired() && this.all == all && this.emitter == emitter
    {
      this.all, this.emitter := all, emitter;
    }

    /** An event met by an idempotency store that cannot answer is dropped. */
    method Handle(ev: TxEvent, now: Time, idemDown: bool)
      requires Wired() && all.Valid()
      modifies all.batch, all.membership, all.outbox, all.idem
      ensures all.Valid()
      ensures all.View() == if idemDown then old(all.View()) else Handled(old(all.View()), ev, now)
    {
      hide Ledger.Key, TxKey, SumFor, MembersOf, FindOpen;
      if ev.txId == "" || ev.asset == "" {
        return;
      }
      var assetPair := ev.asset + "/" + ev.fiatCurrency;
      if idemDown {
        return;
      }
      var claimed := all.idem.CheckAndMark(TxKey(ev.txId), DAY, now);
      if !claimed {
        return;
      }
      var exists_ := all.membership.ExistsByTxID(ev.txId);
      if exists_ {
        return;
      }
      var b := all.batch.OpenBatch(assetPair, now);
      var existing := all.membership.ListMemberships(b.id);
      var isNew := |existing| == 0;
      var notional := ev.notionalUSD;
      if notional == 0.0 {
        notional := ev.amount;
      }
      var _ := all.membership.AddMembership(
        Membership(b.id, ev.txId, ev.amount, ev.asset, ev.fiatCurrency, notional, ev.userId));
      if isNew {
        emitter.Append(AggBatch, EvBatchOpen, Ledger.Key(AggBatch, EvBatchOpen, IdText(b.id)), OpenPayload(b.id));
      }
      var sum := all.membership.SumNotional(b.id);
      var _ := all.batch.SetBatchNotional(b.id, sum);
    }
  }

  const PROJECTION_WINDOW: Time := 300 * SECOND

  /** The composition root over the in-memory stores. */
  class Server {
    const cfg: Config
    const all: All
    const emitter: Ledger.Emitter
    const consumer: Consumer
    const scheduler: Scheduler
    const executor: Executor
    const funding: Funding.Manager

    /** Every component works on the same stores, claims and emitter, under the same configuration. */
    ghost predicate Wired()
      reads all.batch, all.floats, all.outbox, funding.funding, funding.rebalance, funding.emitter.outbox
      reads funding.projection, funding.projection.Buffers()
    {
      && all.Valid() && emitter.outbox == all.outbox && emitter.clients == Ledger.Clients(true, true)
      && consumer.Wired() && consumer.all == all && consumer.emitter == emitter
      && scheduler.Wired() && scheduler.all == all && scheduler.cfg == cfg && scheduler.emitter == emitter
      && scheduler.executor == executor && executor.emitter == emitter
      && funding.Valid() && funding.cfg == cfg && funding.idem == all.idem && funding.emitter == emitter
    }

    /** Build applies the configuration defaults and starts with empty tables and an empty demand window. */
    constructor Build(config: Config)
      ensures Wired() && cfg == Defaulted(config) && all.View() == EMPTY
      ensures funding.View() == Funding.START && funding.projection.window == PROJECTION_WINDOW
      ensures emitter.downstream.posts == [] && emitter.downstream.emissions == []
    {
      var c := Defaulted(config);
      var stores := new All();
      var downstream := new Ledger.Downstream();
      var e := new Ledger.Emitter(stores.outbox, Ledger.Clients(true, true), downstream);
      var demand := new Projection.Model(PROJECTION_WINDOW);
      var fund := new Funding.Manager(c, stores.idem, demand, e);
      var exec := new Executor(c, stores, e);
      var sched := new Scheduler(c, stores, e, exec);
      var cons := new Consumer(stores, e);
      cfg, all, emitter, executor, scheduler, consumer, funding := c, stores, e, exec, sched, cons, fund;
    }
  }
}
