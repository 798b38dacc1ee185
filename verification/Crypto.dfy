/** The crypto side of the float: what the fills bought is what the table says is held. */
module Crypto {
  import opened Base
  import opened Records
  import opened Configuration
  import opened Memstore
  import opened Idempotency
  import opened Pipeline
  import opened Runs
  import FloatTable
  import Failures
  import Pairs
  import Refinement

  ghost predicate Counts(batches: seq<Batch>, o: AggregateOrder, fiat: string) {
    && o.batchId < |batches| && batches[o.batchId].status == Settled
    && Pairs.FiatOf(batches[o.batchId].assetPair) == fiat
  }

  /** What the orders of settled batches bought, for one fiat side. */
  ghost function Bought(batches: seq<Batch>, orders: seq<AggregateOrder>, fiat: string): seq<Decimal> {
    seq(|orders|, i requires 0 <= i < |orders| =>
      if Counts(batches, orders[i], fiat) then orders[i].totalFilled else 0.0)
  }

  ghost predicate CryptoOk(w: World, fiat: string) {
    FloatTable.LongOf(w.floats, fiat) == Sum(Bought(w.batches, w.orders, fiat))
  }

  /** Batches that are as settled as before, and orders that only gained unsettled ones. */
  ghost predicate SameBought(w: World, w': World) {
    && w'.floats == w.floats && |w.batches| <= |w'.batches| && |w.orders| <= |w'.orders|
    && (forall b :: 0 <= b < |w.batches| ==>
          w'.batches[b].assetPair == w.batches[b].assetPair
          && (w'.batches[b].status == Settled <==> w.batches[b].status == Settled))
    && (forall i :: 0 <= i < |w.orders| ==> w'.orders[i] == w.orders[i] && w.orders[i].batchId < |w.batches|)
    && (forall i :: |w.orders| <= i < |w'.orders| ==>
          w'.orders[i].batchId < |w'.batches| && w'.batches[w'.orders[i].batchId].status != Settled)
  }

  lemma {:induction false} SumPadded(xs: seq<Decimal>, ys: seq<Decimal>)
    requires |xs| <= |ys| && ys[..|xs|] == xs && forall i :: |xs| <= i < |ys| ==> ys[i] == 0.0
    ensures Sum(ys) == Sum(xs)
    decreases |ys|
  {
    if |ys| == |xs| {
      assert ys[..|xs|] == ys;
    } else {
      SumPadded(xs, ys[..|ys| - 1]);
    }
  }

  lemma SameBoughtKeeps(w: World, w': World, fiat: string)
    requires CryptoOk(w, fiat) && SameBought(w, w')
    ensures CryptoOk(w', fiat)
  {
    var xs, ys := Bought(w.batches, w.orders, fiat), Bought(w'.batches, w'.orders, fiat);
    forall i | 0 <= i < |xs|
      ensures ys[i] == xs[i]
    {
      assert w'.orders[i] == w.orders[i];
    }
    assert ys[..|xs|] == xs;
    SumPadded(xs, ys);
  }

  lemma UnfilledBought(w: World, w': World, id: nat)
    requires OrdersOk(w) && id < |w.batches| && Submittable(w.batches[id]) && Unfilled(w, w', id)
    ensures SameBought(w, w')
  {
  }

  lemma CreatedBought(w: World, id: nat, fiat: string)
    requires OrdersOk(w) && CryptoOk(w, fiat) && id < |w.batches| && Submittable(w.batches[id])
    ensures CryptoOk(w.(orders := WithOrder(w.orders, id, w.batches[id].assetPair, w.batches[id].notionalUSD)), fiat)
  {
    hide CryptoOk;
    var w0 := w.(orders := WithOrder(w.orders, id, w.batches[id].assetPair, w.batches[id].notionalUSD));
    assert SameBought(w, w0);
    SameBoughtKeeps(w, w0, fiat);
  }

  /** The order of a batch that was not settled starts to count. */
  lemma FilledBought(w: World, w': World, id: nat, fiat: string)
    requires OrdersOk(w) && CryptoOk(w, fiat) && id < |w.batches| && Submittable(w.batches[id]) && FilledOnce(w, w', id)
    ensures CryptoOk(w', fiat)
  {
    hide CalledOnce, OnlySubmissionKeys, AdjustEvent, ExecuteEvent, Emitted, OrdersOk, Counts, SameIntake, Pairs.FiatOf;
    var b := w.batches[id];
    var created := WithOrder(w.orders, id, b.assetPair, b.notionalUSD);
    var k, total := FindOrder(created, id), OrderOf(w'.orders, id).totalFilled;
    FindOrderStable(created, w'.orders, id, 0);
    CreatedBought(w, id, fiat);
    CreatedIsUnique(w, id);
    FillCounts(w.(orders := created), w', id, k, fiat);
    SumUpdate(Bought(w.batches, created, fiat), k, if Pairs.FiatOf(b.assetPair) == fiat then total else 0.0);
    var notional := OrderOf(created, id).notionalUSD;
    var due :| w'.floats == FloatTable.Added(w.floats, FloatFor(b, notional, total, due));
    FloatTable.AddRaisesLong(w.floats, FloatFor(b, notional, total, due), fiat);
  }

  lemma CreatedIsUnique(w: World, id: nat)
    requires OrdersOk(w) && id < |w.batches|
    ensures var created := WithOrder(w.orders, id, w.batches[id].assetPair, w.batches[id].notionalUSD);
            && HasOrder(created, id)
            && (forall i :: 0 <= i < |created| && i != FindOrder(created, id) ==> created[i].batchId != id)
            && (forall i :: 0 <= i < |created| ==> created[i].batchId < |w.batches|)
  {
    CreatedOrderFound(w.orders, id, w.batches[id].assetPair, w.batches[id].notionalUSD);
  }

  lemma FillCounts(w: World, w': World, id: nat, k: nat, fiat: string)
    requires id < |w.batches| && w.batches[id].status != Settled && w'.batches == Advanced(w.batches, id, Settled)
    requires SameOrders(w.orders, w'.orders, id) && k < |w.orders| && w.orders[k].batchId == id
    requires forall i :: 0 <= i < |w.orders| && i != k ==> w.orders[i].batchId != id
    ensures Bought(w'.batches, w'.orders, fiat)
         == Bought(w.batches, w.orders, fiat)[
              k := if Pairs.FiatOf(w.batches[id].assetPair) == fiat then w'.orders[k].totalFilled else 0.0]
    ensures Bought(w.batches, w.orders, fiat)[k] == 0.0
  {
    hide Pairs.FiatOf;
    var xs, ys := Bought(w.batches, w.orders, fiat), Bought(w'.batches, w'.orders, fiat);
    forall i | 0 <= i < |xs| && i != k
      ensures ys[i] == xs[i]
    {
      assert w'.orders[i] == w.orders[i];
    }
  }

  lemma SubmittedCrypto(cfg: Config, w: World, id: nat, now: Time, env: SubmitEnv, fiat: string)
    requires WorldOk(w) && CryptoOk(w, fiat)
    ensures CryptoOk(Submitted(cfg, w, id, now, env), fiat)
  {
    hide Submitted, CryptoOk;
    var w' := Submitted(cfg, w, id, now, env);
    SubmitEffect(cfg, w, id, now, env);
    if w' == w {
    } else if Unfilled(w, w', id) {
      UnfilledBought(w, w', id);
      SameBoughtKeeps(w, w', fiat);
    } else {
      FilledBought(w, w', id, fiat);
    }
  }

  lemma ClosedCrypto(cfg: Config, w: World, id: nat, now: Time, env: SubmitEnv, fiat: string)
    requires WorldOk(w) && CryptoOk(w, fiat)
    ensures CryptoOk(ClosedBatch(cfg, w, id, now, env), fiat)
  {
    hide Submitted, CryptoOk;
    if id < |w.batches| && w.batches[id].status == Open {
      var w1 := JustClosed(w, id, now);
      JustClosedKeeps(w, id, now);
      SameBoughtKeeps(w, w1, fiat);
      SubmittedCrypto(cfg, w1, id, now, env, fiat);
    }
  }

  lemma TickedOneCrypto(cfg: Config, w: World, b: Batch, now: Time, env: TickEnv, fiat: string)
    requires WorldOk(w) && CryptoOk(w, fiat)
    ensures CryptoOk(TickedOne(cfg, w, b, now, env), fiat)
  {
    hide ClosedBatch;
    var w1 := WithLock(cfg, w, b.assetPair, now);
    LockKeeps(cfg, w, b.assetPair, now);
    ClosedCrypto(cfg, w1, b.id, now, env.submit, fiat);
  }

  lemma {:induction false} TickedCrypto(
    cfg: Config, w: World, open: seq<Batch>, n: nat, now: Time, envs: nat -> TickEnv, fiat: string)
    requires WorldOk(w) && CryptoOk(w, fiat) && n <= |open|
    ensures CryptoOk(TickedUpTo(cfg, w, open, n, now, envs), fiat)
  {
    hide TickedOne, WorldOk, CryptoOk;
    if n > 0 {
      var w1, b := TickedUpTo(cfg, w, open, n - 1, now, envs), open[n - 1];
      TickedCrypto(cfg, w, open, n - 1, now, envs, fiat);
      TickedKeeps(cfg, w, open, n - 1, now, envs);
      TickedOneCrypto(cfg, w1, b, now, envs(b.id), fiat);
    }
  }

  lemma HandledCrypto(w: World, ev: TxEvent, now: Time, fiat: string)
    requires WorldOk(w) && CryptoOk(w, fiat)
    ensures CryptoOk(Handled(w, ev, now), fiat)
  {
    hide Handled, Joined, CryptoOk;
    HandledEffect(w, ev, now);
    if WellFormed(ev) && ev.txId !in w.byTx {
      JoinedEffect(w, ev, now);
      JoinedBatches(w, ev, now);
    }
    SameBoughtKeeps(w, Handled(w, ev, now), fiat);
  }

  lemma StepCrypto(cfg: Config, s: Sys, t: Timed, fiat: string)
    requires Inv(s) && CryptoOk(s.w, fiat)
    ensures CryptoOk(Step(cfg, s, t).w, fiat)
  {
    hide Handled, TickedUpTo, ClosedBatch, Submitted, WorldOk, HistoryOk;
    match t.act {
      case Event(ev) => HandledCrypto(s.w, ev, t.at, fiat);
      case Tick(envs) => TickedCrypto(cfg, s.w, OpenRows(s.w.batches), |OpenRows(s.w.batches)|, t.at, envs, fiat);
      case Close(id, env) => ClosedCrypto(cfg, s.w, id, t.at, env, fiat);
      case Submit(id, env) => SubmittedCrypto(cfg, s.w, id, t.at, env, fiat);
      case Sweep => FloatTable.SweepKeepsLong(s.w.floats, t.at, fiat);
      case _ =>
    }
  }

  /** After any run the crypto held against a fiat side is what the orders of its settled batches bought. */
  lemma {:induction false} CryptoHeldIsBought(cfg: Config, start: Time, acts: seq<Timed>, fiat: string)
    ensures CryptoOk(Run(cfg, start, acts).w, fiat)
  {
    hide Step, Inv;
    if acts != [] {
      CryptoHeldIsBought(cfg, start, acts[..|acts| - 1], fiat);
      RunKeeps(cfg, start, acts[..|acts| - 1]);
      StepCrypto(cfg, Run(cfg, start, acts[..|acts| - 1]), acts[|acts| - 1], fiat);
    }
  }

  // --- What one answered submission writes ---

  /** The order after a fill carries the answer and the batch's notional, and the request asked for that notional. */
  lemma FillIsRecorded(cfg: Config, w: World, id: nat, now: Time, env: SubmitEnv)
    requires WorldOk(w) && id < |w.batches| && w.batches[id].status in {Closed, Executing}
    requires Failures.Unclaimed(w, id, now, env) && env.fill.Some?
    ensures var w', f, b := Submitted(cfg, w, id, now, env), env.fill.value, w.batches[id];
            && HasOrder(w'.orders, id)
            && var o := OrderOf(w'.orders, id);
               && o.notionalUSD == b.notionalUSD
               && o.fillPrice == f.price && o.totalFilled == f.total && o.venueRoutes == f.routes
               && |w'.calls| > |w.calls|
               && w'.calls[|w.calls|] == AggregateCall(id, b.notionalUSD, AggKey(id), true)
               && w'.batches == Advanced(w.batches, id, Settled)
  {
    hide Executed, Filled, AggKey;
    var b, f := w.batches[id], env.fill.value;
    var created := WithOrder(w.orders, id, b.assetPair, b.notionalUSD);
    Failures.OrderNotSettled(w, id);
    CreatedOrderFound(w.orders, id, b.assetPair, b.notionalUSD);
    CreatedNotional(w, id);
    var w1 := w.(orders := created);
    var w2 := w1.(batches := WithStatus(w.batches, id, Closed, Executing, None, now).0,
                  seen := if env.aggDown then w.seen else Marked(w.seen, AggKey(id), DAY, now));
    Failures.ClaimThenPlace(cfg, w1, w2, b, now, env);
    PlacedFills(cfg, w2, b, now, env);
  }

  lemma CreatedNotional(w: World, id: nat)
    requires OrdersOk(w) && id < |w.batches|
    ensures var created := WithOrder(w.orders, id, w.batches[id].assetPair, w.batches[id].notionalUSD);
            HasOrder(created, id) && OrderOf(created, id).notionalUSD == w.batches[id].notionalUSD
  {
    CreatedOrderFound(w.orders, id, w.batches[id].assetPair, w.batches[id].notionalUSD);
  }

  lemma PlacedFills(cfg: Config, w: World, b: Batch, now: Time, env: SubmitEnv)
    requires HasOrder(w.orders, b.id) && b.id < |w.batches| && w.batches[b.id].status == Executing && env.fill.Some?
    ensures var w', f := Refinement.Placed(cfg, w, b, now, env), env.fill.value;
            && HasOrder(w'.orders, b.id)
            && var o := OrderOf(w'.orders, b.id);
               && o.notionalUSD == OrderOf(w.orders, b.id).notionalUSD
               && o.fillPrice == f.price && o.totalFilled == f.total && o.venueRoutes == f.routes
               && |w'.calls| > |w.calls|
               && w'.calls[|w.calls|] == AggregateCall(b.id, b.notionalUSD, AggKey(b.id), true)
               && w'.batches == Advanced(w.batches, b.id, Settled)
  {
    hide Filled, AggKey, HedgeKey;
    var f := env.fill.value;
    var w4 := w.(calls := w.calls + [AggregateCall(b.id, b.notionalUSD, AggKey(b.id), true)],
                 orders := WithFill(w.orders, b.id, f.price, f.total, f.routes));
    var k := FindOrder(w.orders, b.id);
    FillEffect(cfg, w4, b, w4.orders[k], now, env);
    var w' := Filled(cfg, w4, b, w4.orders[k], now, env);
    assert w' == Refinement.Placed(cfg, w, b, now, env);
    FindOrderStable(w.orders, w'.orders, b.id, 0);
  }
}
