/** What the service asks of liquidity routing and FX hedging, and what its order rows hold, field by field. */
module Requests {
  import opened Base
  import opened Records
  import opened Configuration
  import opened Memstore
  import opened Idempotency
  import opened Pipeline
  import opened Runs
  import opened Steps
  import Pairs

  /** The request is for a batch past OPEN, for that batch's notional, in its fiat currency, under its key. */
  ghost predicate CallMatches(batches: seq<Batch>, c: Call) {
    && c.batchId < |batches| && batches[c.batchId].status != Open
    && c.notional == batches[c.batchId].notionalUSD
    && (c.AggregateCall? ==> c.key == "agg:" + IdText(c.batchId))
    && (c.ExposureCall? ==> c.key == "hedge:" + IdText(c.batchId)
                            && c.fiat == Pairs.FiatOf(batches[c.batchId].assetPair))
  }

  /** The order has its position as identifier and the pair and notional of its batch. */
  ghost predicate OrderMatches(w: World, i: nat)
    requires i < |w.orders|
  {
    var o := w.orders[i];
    && o.id == i && o.batchId < |w.batches| && w.batches[o.batchId].status != Open
    && o.assetPair == w.batches[o.batchId].assetPair && o.notionalUSD == w.batches[o.batchId].notionalUSD
  }

  ghost predicate AllMatch(w: World) {
    && (forall i :: 0 <= i < |w.calls| ==> CallMatches(w.batches, w.calls[i]))
    && (forall i :: 0 <= i < |w.orders| ==> OrderMatches(w, i))
  }

  /** Batches past OPEN keep what requests and orders say about them. */
  ghost predicate Frozen(batches: seq<Batch>, batches': seq<Batch>) {
    && |batches| <= |batches'|
    && forall b :: 0 <= b < |batches| && batches[b].status != Open ==>
         && batches'[b].status != Open && batches'[b].notionalUSD == batches[b].notionalUSD
         && batches'[b].assetPair == batches[b].assetPair
  }

  lemma FrozenMatch(w: World, w': World)
    requires AllMatch(w) && Frozen(w.batches, w'.batches) && w'.calls == w.calls && w'.orders == w.orders
    ensures AllMatch(w')
  {
    hide Pairs.FiatOf, IdText;
    forall i | 0 <= i < |w'.calls|
      ensures CallMatches(w'.batches, w'.calls[i])
    {
      assert CallMatches(w.batches, w.calls[i]);
    }
    forall i | 0 <= i < |w'.orders|
      ensures OrderMatches(w', i)
    {
      assert OrderMatches(w, i);
    }
  }

  lemma OutcomeMatches(w: World, w': World, id: nat)
    requires WorldOk(w) && AllMatch(w) && SubmitOutcome(w, w', id)
    ensures AllMatch(w')
  {
    hide OnlySubmissionKeys, CalledOnce, AdjustEvent, ExecuteEvent, Emitted, Pairs.FiatOf, IdText;
    if w' != w {
      var b := w.batches[id];
      var created := WithOrder(w.orders, id, b.assetPair, b.notionalUSD);
      CreatedMatches(w, id);
      assert Frozen(w.batches, w'.batches);
      CallsMatch(w, w', id, if Unfilled(w, w', id) then b.notionalUSD else OrderOf(created, id).notionalUSD);
      OrdersMatch(w, w', created, id);
    }
  }

  lemma CreatedMatches(w: World, id: nat)
    requires WorldOk(w) && AllMatch(w) && id < |w.batches| && Submittable(w.batches[id])
    ensures var b := w.batches[id];
            var created := WithOrder(w.orders, id, b.assetPair, b.notionalUSD);
            && HasOrder(created, id) && OrderOf(created, id).notionalUSD == b.notionalUSD
            && (forall i :: 0 <= i < |created| ==> OrderMatches(w.(orders := created), i))
  {
    var b := w.batches[id];
    var created := WithOrder(w.orders, id, b.assetPair, b.notionalUSD);
    CreatedOrderFound(w.orders, id, b.assetPair, b.notionalUSD);
    forall i | 0 <= i < |created|
      ensures OrderMatches(w.(orders := created), i)
    {
      if i < |w.orders| {
        assert OrderMatches(w, i);
      }
    }
    assert OrderMatches(w.(orders := created), FindOrder(created, id));
  }

  lemma CallsMatch(w: World, w': World, id: nat, notional: Decimal)
    requires AllMatch(w) && id < |w.batches| && w.batches[id].id == id && w.batches[id].status != Open
    requires Frozen(w.batches, w'.batches) && notional == w.batches[id].notionalUSD
    requires NewRequests(w.calls, w'.calls, w.batches[id], notional)
    ensures forall i :: 0 <= i < |w'.calls| ==> CallMatches(w'.batches, w'.calls[i])
  {
    hide Pairs.FiatOf, IdText;
    forall i | 0 <= i < |w'.calls|
      ensures CallMatches(w'.batches, w'.calls[i])
    {
      if i < |w.calls| {
        assert w'.calls[i] == w.calls[i] && CallMatches(w.batches, w.calls[i]);
      } else {
        assert RequestFor(w'.calls[i], w.batches[id], notional);
      }
    }
  }

  lemma OrdersMatch(w: World, w': World, created: seq<AggregateOrder>, id: nat)
    requires forall i :: 0 <= i < |created| ==> OrderMatches(w.(orders := created), i)
    requires Frozen(w.batches, w'.batches)
    requires w'.orders == created || SameOrders(created, w'.orders, id)
    ensures forall i :: 0 <= i < |w'.orders| ==> OrderMatches(w', i)
  {
    forall i | 0 <= i < |w'.orders|
      ensures OrderMatches(w', i)
    {
      assert OrderMatches(w.(orders := created), i);
    }
  }

  lemma HandledFrozen(w: World, ev: TxEvent, now: Time)
    requires WorldOk(w)
    ensures var w' := Handled(w, ev, now);
            Frozen(w.batches, w'.batches) && w'.calls == w.calls && w'.orders == w.orders
  {
    hide Handled, Joined, TxKey;
    HandledEffect(w, ev, now);
    if WellFormed(ev) && ev.txId !in w.byTx {
      JoinedEffect(w, ev, now);
      JoinedBatches(w, ev, now);
    }
  }

  lemma ElementaryMatches(cfg: Config, w: World, w': World, now: Time)
    requires WorldOk(w) && AllMatch(w) && Elementary(cfg, w, w', now)
    ensures AllMatch(w')
  {
    hide Handled, Submitted, AllMatch, WorldOk, Frozen, CadenceKey, SumFor;
    if ev :| w' == Handled(w, ev, now) {
      HandledFrozen(w, ev, now);
      FrozenMatch(w, w');
    } else if pair :| w' == WithLock(cfg, w, pair, now) {
      SameFrozen(w.batches);
      FrozenMatch(w, w');
    } else if id: nat :| id < |w.batches| && w.batches[id].status == Open && w' == JustClosed(w, id, now) {
      ClosedFrozen(w, id, now);
      FrozenMatch(w, w');
    } else {
      var id, env :| w' == Submitted(cfg, w, id, now, env);
      BatchIdsOf(w);
      SubmitEffect(cfg, w, id, now, env);
      OutcomeMatches(w, w', id);
    }
  }

  lemma SameFrozen(batches: seq<Batch>)
    ensures Frozen(batches, batches)
  {
  }

  lemma ClosedFrozen(w: World, id: nat, now: Time)
    requires id < |w.batches| && w.batches[id].status == Open
    ensures Frozen(w.batches, JustClosed(w, id, now).batches)
    ensures JustClosed(w, id, now).calls == w.calls && JustClosed(w, id, now).orders == w.orders
  {
    hide SumFor;
  }

  lemma StepMatches(cfg: Config, s: Sys, t: Timed)
    requires Inv(s) && AllMatch(s.w)
    ensures AllMatch(Step(cfg, s, t).w)
  {
    hide Handled, Ticked, ClosedBatch, Submitted, AllMatch, Inv, Elementary, WorldOk;
    if Handler(t.act) {
      var P := (w: World) => AllMatch(w);
      forall w, w' | WorldOk(w) && P(w) && Elementary(cfg, w, w', t.at)
        ensures P(w')
      {
        ElementaryMatches(cfg, w, w', t.at);
      }
      StepHas(cfg, s, t, P);
    } else {
      SameFrozen(s.w.batches);
      FrozenMatch(s.w, Step(cfg, s, t).w);
    }
  }

  /** After any run every request was made for the notional of its batch, in the fiat currency of its pair and under its
      key, and every order holds its batch's pair and notional. */
  lemma {:induction false} RequestsMatchBatches(cfg: Config, start: Time, acts: seq<Timed>)
    ensures AllMatch(Run(cfg, start, acts).w)
  {
    hide Step, Inv, AllMatch;
    if acts == [] {
      NothingMatches();
    } else {
      RequestsMatchBatches(cfg, start, acts[..|acts| - 1]);
      RunKeeps(cfg, start, acts[..|acts| - 1]);
      StepMatches(cfg, Run(cfg, start, acts[..|acts| - 1]), acts[|acts| - 1]);
    }
  }

  lemma NothingMatches()
    ensures AllMatch(EMPTY)
  {
  }
}
