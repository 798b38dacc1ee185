/** Runs of the wired service, one handler at a time, and what every run keeps. */
module Runs {
  import opened Base
  import opened Records
  import opened Configuration
  import opened Memstore
  import opened Idempotency
  import opened Pipeline
  import FloatTable
  import Ledger
  import Pairs

  /** Forget is an idempotency store that loses keys; Funded and Rebalanced share the outbox. */
  datatype Action =
    | Event(ev: TxEvent)
    | Tick(envs: nat -> TickEnv)
    | Close(id: nat, env: SubmitEnv)
    | Submit(id: nat, env: SubmitEnv)
    | Sweep
    | Dispatch(limit: int, fates: Ledger.Fates)
    | Forget(keys: set<string>)
    | Funded(asset: string, amount: Decimal, requestId: nat)
    | Rebalanced(asset: string, amount: Decimal, jobId: nat)

  datatype Timed = Timed(at: Time, act: Action)

  /** The service, its clock and last tick, and the history of handled events. */
  datatype Sys = Sys(w: World, clock: Time, lastTick: Time, handled: seq<TxEvent>)

  function Apply(cfg: Config, w: World, now: Time, a: Action): World {
    match a
    case Event(ev) => Handled(w, ev, now)
    case Tick(envs) => Ticked(cfg, w, now, envs)
    case Close(id, env) => ClosedBatch(cfg, w, id, now, env)
    case Submit(id, env) => Submitted(cfg, w, id, now, env)
    case Sweep => w.(floats := FloatTable.Swept(w.floats, now))
    case Dispatch(limit, fates) =>
      w.(outbox := Ledger.Dispatched(Ledger.Clients(true, true), w.outbox, limit, fates, now, |w.outbox|))
    case Forget(keys) => w.(seen := w.seen - keys)
    case Funded(asset, amount, id) => Emitted(w, Payload(AggFunding, EvFunding, None, amount, asset, "", ""), id)
    case Rebalanced(asset, amount, id) =>
      Emitted(w, Payload(AggRebalance, EvRebalance, None, amount, asset, "", ""), id)
  }

  function Step(cfg: Config, s: Sys, t: Timed): Sys {
    Sys(Apply(cfg, s.w, t.at, t.act), t.at,
        if t.act.Tick? then t.at else s.lastTick,
        if t.act.Event? then s.handled + [t.act.ev] else s.handled)
  }

  function Run(cfg: Config, start: Time, acts: seq<Timed>): Sys {
    if acts == [] then Sys(EMPTY, start, start, [])
    else Step(cfg, Run(cfg, start, acts[..|acts| - 1]), acts[|acts| - 1])
  }

  // --- History ---

  ghost predicate Knows(evs: seq<TxEvent>, txId: string) {
    exists i :: 0 <= i < |evs| && evs[i].txId == txId
  }

  /** The first occurrence of each well-formed transaction, in order. */
  ghost function Firsts(handled: seq<TxEvent>): seq<TxEvent> {
    if handled == [] then []
    else
      var f, ev := Firsts(handled[..|handled| - 1]), handled[|handled| - 1];
      if ev.txId != "" && ev.asset != "" && !Knows(f, ev.txId) then f + [ev] else f
  }

  // --- Core invariants ---

  ghost predicate Populated(members: seq<Membership>, id: nat) {
    exists i :: 0 <= i < |members| && members[i].batchId == id
  }

  ghost predicate MembersOk(w: World) {
    && (forall i :: 0 <= i < |w.members| ==>
          w.members[i].batchId < |w.batches|
          && w.batches[w.members[i].batchId].assetPair == Pairs.Join(w.members[i].asset, w.members[i].fiatCurrency))
    && (forall b: nat :: b < |w.batches| ==> Populated(w.members, b))
  }

  ghost predicate NotionalsOk(w: World) {
    forall b :: 0 <= b < |w.batches| ==> w.batches[b].notionalUSD == SumFor(w.members, b)
  }

  ghost predicate OrdersOk(w: World) {
    && (forall i :: 0 <= i < |w.orders| ==>
          && w.orders[i].batchId < |w.batches|
          && Rank(w.batches[w.orders[i].batchId].status) >= 2
          && w.orders[i].notionalUSD == w.batches[w.orders[i].batchId].notionalUSD
          && (w.orders[i].status == OrderSettled ==> w.batches[w.orders[i].batchId].status == Settled))
    && (forall i, j :: 0 <= i < j < |w.orders| ==> w.orders[i].batchId != w.orders[j].batchId)
    && (forall b: nat :: b < |w.batches| && Rank(w.batches[b].status) >= 2 ==> HasOrder(w.orders, b))
  }

  /** A claimed transaction key belongs to a recorded transaction. */
  ghost predicate TxClaimsOk(w: World) {
    forall t :: TxKey(t) in w.seen ==> t in w.byTx
  }

  /** The rows are the first occurrences, in order, and byTx is exactly their identifiers. */
  ghost predicate HistoryOk(w: World, handled: seq<TxEvent>) {
    var f := Firsts(handled);
    && |w.members| == |f|
    && (forall i :: 0 <= i < |f| ==> w.members[i] == MembershipFor(f[i], w.members[i].batchId))
    && (forall t :: t in w.byTx <==> Knows(f, t))
  }

  ghost predicate WorldOk(w: World) {
    BatchesOk(w) && MembersOk(w) && NotionalsOk(w) && OrdersOk(w) && TxClaimsOk(w)
  }

  ghost predicate Inv(s: Sys) {
    WorldOk(s.w) && HistoryOk(s.w, s.handled)
  }

  lemma BatchIdsOf(w: World)
    requires WorldOk(w)
    ensures BatchIds(w.batches)
  {
  }

  // --- What a submission changes ---

  /** Only the submission keys of the batch may be claimed anew, and no claim is shortened. */
  ghost predicate OnlySubmissionKeys(seen: Seen, seen': Seen, id: nat) {
    && (forall k :: k in seen' ==> (k in seen && seen'[k] == seen[k]) || k == AggKey(id) || k == HedgeKey(id))
    && (forall k :: k in seen ==> k in seen' && seen'[k] >= seen[k])
  }

  ghost predicate SameIntake(w: World, w': World) {
    w'.members == w.members && w'.byTx == w.byTx
  }

  function Advanced(batches: seq<Batch>, id: nat, st: BatchStatus): seq<Batch>
    requires id < |batches|
  {
    batches[id := batches[id].(status := st)]
  }

  /** A request for the batch: its notional under its submission key, or the order's notional in the pair's fiat under
      its hedge key. */
  ghost predicate RequestFor(c: Call, b: Batch, notional: Decimal) {
    match c
    case AggregateCall(batchId, usd, key, _) => batchId == b.id && usd == b.notionalUSD && key == AggKey(b.id)
    case ExposureCall(batchId, fiat, usd, key, _) =>
      batchId == b.id && fiat == Pairs.FiatOf(b.assetPair) && usd == notional && key == HedgeKey(b.id)
  }

  ghost predicate NewRequests(calls: seq<Call>, calls': seq<Call>, b: Batch, notional: Decimal) {
    calls <= calls' && forall i :: |calls| <= i < |calls'| ==> RequestFor(calls'[i], b, notional)
  }

  /** The order exists, the batch is EXECUTING and nothing was filled. */
  ghost predicate Unfilled(w: World, w': World, id: nat)
    requires id < |w.batches|
  {
    && SameIntake(w, w') && OnlySubmissionKeys(w.seen, w'.seen, id)
    && w'.batches == Advanced(w.batches, id, Executing)
    && w'.orders == WithOrder(w.orders, id, w.batches[id].assetPair, w.batches[id].notionalUSD)
    && w'.floats == w.floats && w'.outbox == w.outbox && w'.outboxSeen == w.outboxSeen
    && (w'.calls == w.calls
        || (exists key :: w'.calls == w.calls + [AggregateCall(id, w.batches[id].notionalUSD, key, false)]))
    && NewRequests(w.calls, w'.calls, w.batches[id], w.batches[id].notionalUSD)
  }

  /** Orders that differ from the created ones at most in the fill and settlement of the batch's order. */
  ghost predicate SameOrders(orders: seq<AggregateOrder>, orders': seq<AggregateOrder>, id: nat) {
    && |orders'| == |orders|
    && (forall i :: 0 <= i < |orders| ==>
          && orders'[i].batchId == orders[i].batchId
          && orders'[i].notionalUSD == orders[i].notionalUSD
          && orders'[i].id == orders[i].id && orders'[i].assetPair == orders[i].assetPair
          && (orders[i].batchId != id ==> orders'[i] == orders[i]))
  }

  /** Orders that differ at most in their settlement. */
  ghost predicate SameFills(orders: seq<AggregateOrder>, orders': seq<AggregateOrder>) {
    && |orders'| == |orders|
    && (forall i :: 0 <= i < |orders| ==>
          && orders'[i].fillPrice == orders[i].fillPrice
          && orders'[i].totalFilled == orders[i].totalFilled
          && orders'[i].venueRoutes == orders[i].venueRoutes)
  }

  /** The batch was filled: one order, one float increment, two events, one liquidity and at most one hedge request. */
  ghost predicate FilledOnce(w: World, w': World, id: nat)
    requires id < |w.batches|
  {
    var b := w.batches[id];
    var created := WithOrder(w.orders, id, b.assetPair, b.notionalUSD);
    && SameIntake(w, w') && OnlySubmissionKeys(w.seen, w'.seen, id)
    && w'.batches == Advanced(w.batches, id, Settled)
    && SameOrders(created, w'.orders, id)
    && HasOrder(created, id) && HasOrder(w'.orders, id)
    && (exists due ::
          w'.floats == FloatTable.Added(
            w.floats, FloatFor(b, OrderOf(created, id).notionalUSD, OrderOf(w'.orders, id).totalFilled, due)))
    && (var p, q := AdjustEvent(b, OrderOf(created, id).notionalUSD), ExecuteEvent(b, OrderOf(created, id).notionalUSD);
        var e1 := Emitted(w, p, id); var e2 := Emitted(e1, q, id);
        w'.outbox == e2.outbox && w'.outboxSeen == e2.outboxSeen)
    && CalledOnce(w.calls, w'.calls, id)
    && NewRequests(w.calls, w'.calls, b, OrderOf(created, id).notionalUSD)
  }

  predicate FillCall(c: Call, id: nat) {
    c.AggregateCall? && c.batchId == id && c.ok
  }

  predicate HedgeCall(c: Call, id: nat) {
    c.ExposureCall? && c.batchId == id
  }

  /** One answered liquidity request, then at most one hedge request. */
  ghost predicate CalledOnce(calls: seq<Call>, calls': seq<Call>, id: nat) {
    exists c :: FillCall(c, id)
      && (calls' == calls + [c] || (exists h :: HedgeCall(h, id) && calls' == calls + [c] + [h]))
  }

  function FloatFor(b: Batch, notional: Decimal, total: Decimal, due: Time): FloatPosition {
    FloatPosition(0, Pairs.FiatOf(b.assetPair), notional, total, Pairs.CryptoOf(b.assetPair),
                  Some(due), false, Some(b.id))
  }

  function AdjustEvent(b: Batch, notional: Decimal): Payload {
    Payload(AggFloat, EvFloatAdjust, Some(b.id), notional, "", Pairs.FiatOf(b.assetPair), "")
  }

  function ExecuteEvent(b: Batch, notional: Decimal): Payload {
    BatchPayload(AggAggregate, EvAggregateExec, b.id, notional, Pairs.CryptoOf(b.assetPair), Pairs.FiatOf(b.assetPair))
  }

  ghost predicate SubmitOutcome(w: World, w': World, id: nat) {
    || w' == w
    || (id < |w.batches| && Submittable(w.batches[id]) && (Unfilled(w, w', id) || FilledOnce(w, w', id)))
  }

  /** A batch settled now adds a position that falls due after the settlement days of its currency. */
  ghost predicate FloatsDue(cfg: Config, w: World, w': World, id: nat, now: Time) {
    if id < |w.batches| && w.batches[id].status != Settled && IsSettled(w', id) then
      var fiat := Pairs.FiatOf(w.batches[id].assetPair);
      exists p: FloatPosition ::
        && w'.floats == FloatTable.Added(w.floats, p) && p.fiatCurrency == fiat && !p.settled
        && p.settlementDueAt == Some(now + SettlementDaysFor(cfg, fiat) * DAY)
    else w'.floats == w.floats
  }

  /** Every submission is a no-op, an unfilled attempt or exactly one fill. */
  lemma SubmitEffect(cfg: Config, w: World, id: nat, now: Time, env: SubmitEnv)
    requires BatchIds(w.batches)
    ensures SubmitOutcome(w, Submitted(cfg, w, id, now, env), id)
    ensures FloatsDue(cfg, w, Submitted(cfg, w, id, now, env), id, now)
  {
    var w' := Submitted(cfg, w, id, now, env);
    if id < |w.batches| && Submittable(w.batches[id]) {
      var b := w.batches[id];
      var created := WithOrder(w.orders, id, b.assetPair, b.notionalUSD);
      CreatedOrderFound(w.orders, id, b.assetPair, b.notionalUSD);
      if OrderOf(created, id).status != OrderSettled {
        ExecuteEffect(cfg, w, w.(orders := created), id, now, env);
      }
    }
  }

  lemma CreatedOrderFound(orders: seq<AggregateOrder>, id: nat, assetPair: string, notional: Decimal)
    ensures HasOrder(WithOrder(orders, id, assetPair, notional), id)
    ensures OrderOf(WithOrder(orders, id, assetPair, notional), id).batchId == id
  {
    var created := WithOrder(orders, id, assetPair, notional);
    if !HasOrder(orders, id) {
      assert created[|orders|].batchId == id;
    }
  }

  lemma ExecuteEffect(cfg: Config, w: World, w0: World, id: nat, now: Time, env: SubmitEnv)
    requires BatchIds(w.batches) && id < |w.batches| && Submittable(w.batches[id])
    requires w0 == w.(orders := WithOrder(w.orders, id, w.batches[id].assetPair, w.batches[id].notionalUSD))
    requires HasOrder(w0.orders, id)
    ensures var w' := Executed(cfg, w0, w.batches[id], now, env);
            (Unfilled(w, w', id) || FilledOnce(w, w', id)) && FloatsDue(cfg, w, w', id, now)
  {
    var b, key := w.batches[id], AggKey(id);
    var executing := Advanced(w.batches, id, Executing);
    assert WithStatus(w.batches, id, Closed, Executing, None, now).0 == executing;
    var w1 := w0.(batches := executing);
    if env.aggDown || !Held(w.seen, key, now) {
      var w2 := if env.aggDown then w1 else w1.(seen := Marked(w1.seen, key, DAY, now));
      var w3 := w2.(calls := w2.calls + [AggregateCall(id, b.notionalUSD, key, env.fill.Some?)]);
      if env.fill.Some? {
        var f := env.fill.value;
        var w4 := w3.(orders := WithFill(w3.orders, id, f.price, f.total, f.routes));
        FilledEffect(cfg, w, w4, id, now, env);
      }
    }
  }

  lemma SubmissionKeysCompose(a: Seen, b: Seen, c: Seen, id: nat)
    requires OnlySubmissionKeys(a, b, id) && OnlySubmissionKeys(b, c, id)
    ensures OnlySubmissionKeys(a, c, id)
  {
  }

  lemma PositionDue(cfg: Config, w: World, w': World, id: nat, now: Time, p: FloatPosition)
    requires id < |w.batches| && w.batches[id].status != Settled && IsSettled(w', id)
    requires w'.floats == FloatTable.Added(w.floats, p) && !p.settled
    requires p.fiatCurrency == Pairs.FiatOf(w.batches[id].assetPair)
    requires p.settlementDueAt == Some(now + SettlementDaysFor(cfg, p.fiatCurrency) * DAY)
    ensures FloatsDue(cfg, w, w', id, now)
  {
    hide FloatTable.Added, Pairs.FiatOf, SettlementDaysFor;
  }

  lemma FilledEffect(cfg: Config, w: World, w4: World, id: nat, now: Time, env: SubmitEnv)
    requires id < |w.batches| && w.batches[id].id == id && Submittable(w.batches[id])
    requires w4.batches == Advanced(w.batches, id, Executing) && OnlySubmissionKeys(w.seen, w4.seen, id)
    requires SameIntake(w, w4) && w4.floats == w.floats && w4.outbox == w.outbox && w4.outboxSeen == w.outboxSeen
    requires exists c ::
      FillCall(c, id) && RequestFor(c, w.batches[id], w.batches[id].notionalUSD) && w4.calls == w.calls + [c]
    requires var created := WithOrder(w.orders, id, w.batches[id].assetPair, w.batches[id].notionalUSD);
             HasOrder(created, id)
             && exists price, total, routes :: w4.orders == WithFill(created, id, price, total, routes)
    ensures var created := WithOrder(w.orders, id, w.batches[id].assetPair, w.batches[id].notionalUSD);
            var w' := Filled(cfg, w4, w.batches[id], w4.orders[FindOrder(created, id)], now, env);
            FilledOnce(w, w', id) && FloatsDue(cfg, w, w', id, now)
  {
    hide Filled, Ledger.Key, AggKey, HedgeKey, FloatsDue, FloatTable.Added, Pairs.FiatOf, Pairs.CryptoOf;
    var b := w.batches[id];
    var created := WithOrder(w.orders, id, b.assetPair, b.notionalUSD);
    var o := w4.orders[FindOrder(created, id)];
    var w' := Filled(cfg, w4, b, o, now, env);
    FillEffect(cfg, w4, b, o, now, env);
    SubmissionKeysCompose(w.seen, w4.seen, w'.seen, id);
    assert SameOrders(created, w4.orders, id);
    assert w'.batches == Advanced(w.batches, id, Settled);
    var due := now + SettlementDaysFor(cfg, Pairs.FiatOf(b.assetPair)) * DAY;
    var p := FloatFor(b, o.notionalUSD, o.totalFilled, due);
    assert w'.floats == FloatTable.Added(w.floats, p);
    PositionDue(cfg, w, w', id, now, p);
    FindOrderStable(created, w'.orders, id, 0);
    assert OrderOf(w'.orders, id).totalFilled == o.totalFilled;
  }

  lemma HedgeEffect(w: World, o: AggregateOrder, fiat: string, now: Time, env: SubmitEnv)
    ensures var w' := Hedged(w, o, fiat, now, env);
            && OnlySubmissionKeys(w.seen, w'.seen, o.batchId)
            && SameOrders(w.orders, w'.orders, o.batchId) && SameFills(w.orders, w'.orders)
            && w' == w.(seen := w'.seen, orders := w'.orders, calls := w'.calls)
            && (w'.calls == w.calls
                || w'.calls == w.calls
                   + [ExposureCall(o.batchId, fiat, o.notionalUSD, HedgeKey(o.batchId), env.hedged.Some?)])
            && (w'.calls == w.calls
                || (exists c :: HedgeCall(c, o.batchId) && w'.calls == w.calls + [c]))
  {
    var w' := Hedged(w, o, fiat, now, env);
    if w'.calls != w.calls {
      var c := ExposureCall(o.batchId, fiat, o.notionalUSD, HedgeKey(o.batchId), env.hedged.Some?);
      assert HedgeCall(c, o.batchId) && w'.calls == w.calls + [c];
    }
  }

  /** The fill callback from an EXECUTING batch. */
  lemma FillEffect(cfg: Config, w: World, b: Batch, o: AggregateOrder, now: Time, env: SubmitEnv)
    requires b.id < |w.batches| && w.batches[b.id].status == Executing && o.batchId == b.id
    ensures var w' := Filled(cfg, w, b, o, now, env);
            && SameIntake(w, w') && OnlySubmissionKeys(w.seen, w'.seen, b.id)
            && w'.batches == Advanced(w.batches, b.id, Settled)
            && SameOrders(w.orders, w'.orders, b.id) && SameFills(w.orders, w'.orders)
            && w'.floats == FloatTable.Added(w.floats, FloatFor(b, o.notionalUSD, o.totalFilled,
                 now + SettlementDaysFor(cfg, Pairs.FiatOf(b.assetPair)) * DAY))
            && (var e1 := Emitted(w, AdjustEvent(b, o.notionalUSD), b.id);
                var e2 := Emitted(e1, ExecuteEvent(b, o.notionalUSD), b.id);
                w'.outbox == e2.outbox && w'.outboxSeen == e2.outboxSeen)
            && NewRequests(w.calls, w'.calls, b, o.notionalUSD)
            && (w'.calls == w.calls
                || (exists c :: HedgeCall(c, b.id) && w'.calls == w.calls + [c]))
  {
    hide Ledger.Key, AggKey, HedgeKey;
    var fiat, asset := Pairs.FiatOf(b.assetPair), Pairs.CryptoOf(b.assetPair);
    var w1 := Tracked(cfg, w, o, fiat, asset, now);
    HedgeEffect(w1, o, fiat, now, env);
  }

  // --- Each action keeps the core invariants ---

  lemma HasOrderKept(orders: seq<AggregateOrder>, orders': seq<AggregateOrder>, b: nat)
    requires HasOrder(orders, b) && |orders| <= |orders'|
    requires forall i :: 0 <= i < |orders| ==> orders'[i].batchId == orders[i].batchId
    ensures HasOrder(orders', b)
  {
    FindOrderStable(orders, orders', b, 0);
  }

  /** Claiming the submission keys of a batch claims no transaction. */
  lemma SubmissionClaimsKeep(w: World, w': World, id: nat)
    requires TxClaimsOk(w) && SameIntake(w, w') && OnlySubmissionKeys(w.seen, w'.seen, id)
    ensures TxClaimsOk(w')
  {
    forall t | TxKey(t) in w'.seen
      ensures t in w'.byTx
    {
      KeysApart(t, t, "", "", id);
    }
  }

  lemma AdvancedKeeps(w: World, w': World, id: nat, st: BatchStatus)
    requires WorldOk(w) && id < |w.batches| && Rank(st) >= Rank(w.batches[id].status) && st != Open
    requires SameIntake(w, w') && w'.batches == Advanced(w.batches, id, st)
    ensures BatchesOk(w') && MembersOk(w') && NotionalsOk(w')
  {
  }

  lemma OrdersAdvance(w: World, w': World, id: nat, st: BatchStatus)
    requires WorldOk(w) && id < |w.batches| && Submittable(w.batches[id]) && (st == Executing || st == Settled)
    requires w'.batches == Advanced(w.batches, id, st)
    requires SameOrders(WithOrder(w.orders, id, w.batches[id].assetPair, w.batches[id].notionalUSD), w'.orders, id)
    requires st == Executing ==>
      w'.orders == WithOrder(w.orders, id, w.batches[id].assetPair, w.batches[id].notionalUSD)
    ensures OrdersOk(w')
  {
    var created := WithOrder(w.orders, id, w.batches[id].assetPair, w.batches[id].notionalUSD);
    CreatedOrders(w, id);
    forall b: nat | b < |w'.batches| && Rank(w'.batches[b].status) >= 2
      ensures HasOrder(w'.orders, b)
    {
      if b != id {
        HasOrderKept(w.orders, created, b);
      }
      HasOrderKept(created, w'.orders, b);
    }
    forall i | 0 <= i < |w'.orders|
      ensures w'.orders[i].batchId < |w'.batches|
      ensures Rank(w'.batches[w'.orders[i].batchId].status) >= 2
      ensures w'.orders[i].notionalUSD == w'.batches[w'.orders[i].batchId].notionalUSD
      ensures w'.orders[i].status == OrderSettled ==> w'.batches[w'.orders[i].batchId].status == Settled
    {
      assert w'.orders[i].batchId == created[i].batchId && w'.orders[i].notionalUSD == created[i].notionalUSD;
    }
  }

  /** The order table after CreateOrder. */
  lemma CreatedOrders(w: World, id: nat)
    requires OrdersOk(w) && id < |w.batches| && Submittable(w.batches[id])
    ensures var created := WithOrder(w.orders, id, w.batches[id].assetPair, w.batches[id].notionalUSD);
            && HasOrder(created, id)
            && |w.orders| <= |created| && (forall i :: 0 <= i < |w.orders| ==> created[i] == w.orders[i])
            && (forall i, j :: 0 <= i < j < |created| ==> created[i].batchId != created[j].batchId)
            && (forall i :: 0 <= i < |created| ==>
                  && created[i].batchId < |w.batches|
                  && created[i].notionalUSD == w.batches[created[i].batchId].notionalUSD
                  && (created[i].batchId != id ==> Rank(w.batches[created[i].batchId].status) >= 2)
                  && (created[i].status == OrderSettled ==> w.batches[created[i].batchId].status == Settled))
  {
    CreatedOrderFound(w.orders, id, w.batches[id].assetPair, w.batches[id].notionalUSD);
  }

  lemma SubmittedKeeps(cfg: Config, w: World, id: nat, now: Time, env: SubmitEnv)
    requires WorldOk(w)
    ensures WorldOk(Submitted(cfg, w, id, now, env)) && SameIntake(w, Submitted(cfg, w, id, now, env))
  {
    hide Submitted, FloatsDue, NewRequests, CalledOnce, Emitted, AdjustEvent, ExecuteEvent, FloatFor;
    var w' := Submitted(cfg, w, id, now, env);
    SubmitEffect(cfg, w, id, now, env);
    if w' != w {
      var st := if Unfilled(w, w', id) then Executing else Settled;
      SubmissionClaimsKeep(w, w', id);
      AdvancedKeeps(w, w', id, st);
      OrdersAdvance(w, w', id, st);
    }
  }

  /** The close itself: the batch is CLOSED and announced. */
  function JustClosed(w: World, id: nat, now: Time): World
    requires id < |w.batches|
  {
    var w1 := w.(batches := WithStatus(w.batches, id, Open, Closed, Some(SumFor(w.members, id)), now).0);
    Emitted(w1, ClosePayload(w1.batches[id]), id)
  }

  lemma JustClosedKeeps(w: World, id: nat, now: Time)
    requires WorldOk(w) && id < |w.batches| && w.batches[id].status == Open
    ensures WorldOk(JustClosed(w, id, now)) && SameIntake(w, JustClosed(w, id, now))
  {
    hide TxKey, Ledger.Key, SumFor;
    var w' := JustClosed(w, id, now);
    assert w'.orders == w.orders && w'.seen == w.seen;
    assert forall b :: 0 <= b < |w.batches| && b != id ==> w'.batches[b] == w.batches[b];
    JustClosedOrders(w, w', id);
  }

  lemma JustClosedOrders(w: World, w': World, id: nat)
    requires OrdersOk(w) && id < |w.batches| && w.batches[id].status == Open && |w'.batches| == |w.batches|
    requires w'.orders == w.orders && w'.batches[id].status == Closed
    requires forall b :: 0 <= b < |w.batches| && b != id ==> w'.batches[b] == w.batches[b]
    ensures OrdersOk(w')
  {
  }

  lemma ClosedKeeps(cfg: Config, w: World, id: nat, now: Time, env: SubmitEnv)
    requires WorldOk(w)
    ensures WorldOk(ClosedBatch(cfg, w, id, now, env)) && SameIntake(w, ClosedBatch(cfg, w, id, now, env))
  {
    if id < |w.batches| && w.batches[id].status == Open {
      JustClosedKeeps(w, id, now);
      SubmittedKeeps(cfg, JustClosed(w, id, now), id, now, env);
    }
  }

  /** The world in which the tick closes a batch: the cadence lock of its pair is held. */
  function WithLock(cfg: Config, w: World, assetPair: string, now: Time): World {
    w.(seen := Marked(w.seen, CadenceKey(assetPair), CadenceTtl(cfg), now))
  }

  lemma LockKeeps(cfg: Config, w: World, assetPair: string, now: Time)
    requires WorldOk(w)
    ensures WorldOk(WithLock(cfg, w, assetPair, now))
  {
    var w' := WithLock(cfg, w, assetPair, now);
    forall t | TxKey(t) in w'.seen
      ensures t in w'.byTx
    {
      KeysApart(t, t, assetPair, "", 0);
    }
  }

  lemma TickedOneKeeps(cfg: Config, w: World, b: Batch, now: Time, env: TickEnv)
    requires WorldOk(w)
    ensures WorldOk(TickedOne(cfg, w, b, now, env)) && SameIntake(w, TickedOne(cfg, w, b, now, env))
  {
    LockKeeps(cfg, w, b.assetPair, now);
    ClosedKeeps(cfg, WithLock(cfg, w, b.assetPair, now), b.id, now, env.submit);
  }

  lemma {:induction false} TickedKeeps(
    cfg: Config, w: World, open: seq<Batch>, n: nat, now: Time, envs: nat -> TickEnv)
    requires WorldOk(w) && n <= |open|
    ensures WorldOk(TickedUpTo(cfg, w, open, n, now, envs))
    ensures SameIntake(w, TickedUpTo(cfg, w, open, n, now, envs))
  {
    hide TickedOne, WorldOk;
    if n > 0 {
      TickedKeeps(cfg, w, open, n - 1, now, envs);
      TickedOneKeeps(cfg, TickedUpTo(cfg, w, open, n - 1, now, envs), open[n - 1], now, envs(open[n - 1].id));
    }
  }

  /** What joining a batch changes. */
  lemma JoinedEffect(w: World, ev: TxEvent, now: Time)
    requires BatchesOk(w) && MembersOk(w)
    ensures var w' := Joined(w, ev, now);
            var id := FindOpen(w.batches, PairOf(ev));
            var fresh_ := id == |w.batches|;
            && w'.members == w.members + [MembershipFor(ev, id)] && w'.byTx == w.byTx + {ev.txId}
            && w'.batches == WithNotional(WithOpenBatch(w.batches, PairOf(ev), now), id, SumFor(w'.members, id))
            && w' == w.(batches := w'.batches, members := w'.members, byTx := w'.byTx,
                        outbox := if fresh_ then Emitted(w, OpenPayload(id), id).outbox else w.outbox,
                        outboxSeen := if fresh_ then Emitted(w, OpenPayload(id), id).outboxSeen else w.outboxSeen)
  {
    var id := FindOpen(w.batches, PairOf(ev));
    var mine := MembersOf(w.members, id);
    if id < |w.batches| {
      assert Populated(w.members, id);
      var i :| 0 <= i < |w.members| && w.members[i].batchId == id;
      assert w.members[i] in mine;
    } else {
      MembersOfNobody(w.members, id);
    }
  }

  lemma JoinedBatches(w: World, ev: TxEvent, now: Time)
    requires WorldOk(w)
    ensures var w' := Joined(w, ev, now);
            var id := FindOpen(w.batches, PairOf(ev));
            && BatchesOk(w') && |w.batches| <= |w'.batches| && id < |w'.batches|
            && (forall b :: 0 <= b < |w'.batches| && b != id ==> b < |w.batches| && w'.batches[b] == w.batches[b])
            && w'.batches[id].assetPair == PairOf(ev) && w'.batches[id].status == Open
            && (id < |w.batches| ==> w'.batches[id] == w.batches[id].(notionalUSD := w'.batches[id].notionalUSD))
            && w'.batches[id].notionalUSD == SumFor(w'.members, id)
  {
    JoinedEffect(w, ev, now);
  }

  lemma JoinedKeeps(w: World, ev: TxEvent, now: Time)
    requires WorldOk(w)
    ensures WorldOk(Joined(w, ev, now))
  {
    var w' := Joined(w, ev, now);
    var id := FindOpen(w.batches, PairOf(ev));
    JoinedEffect(w, ev, now);
    JoinedBatches(w, ev, now);
    MembersGrow(w, w', MembershipFor(ev, id));
    OrdersIgnoreOpen(w, w', id);
  }

  lemma MembersGrow(w: World, w': World, m: Membership)
    requires MembersOk(w) && NotionalsOk(w)
    requires w'.members == w.members + [m] && m.batchId < |w'.batches| && |w.batches| <= |w'.batches|
    requires forall b :: 0 <= b < |w'.batches| && b != m.batchId ==> b < |w.batches| && w'.batches[b] == w.batches[b]
    requires m.batchId < |w.batches| ==> w'.batches[m.batchId].assetPair == w.batches[m.batchId].assetPair
    requires w'.batches[m.batchId].assetPair == Pairs.Join(m.asset, m.fiatCurrency)
    requires w'.batches[m.batchId].notionalUSD == SumFor(w'.members, m.batchId)
    ensures MembersOk(w') && NotionalsOk(w')
  {
    forall b: nat | b < |w'.batches|
      ensures Populated(w'.members, b) && w'.batches[b].notionalUSD == SumFor(w'.members, b)
    {
      SumForAppend(w.members, m, b);
      if b == m.batchId {
        assert w'.members[|w.members|].batchId == b;
      } else {
        var x := w'.batches[b];
        assert w'.batches[b] == w.batches[b] && Populated(w.members, b);
        var i :| 0 <= i < |w.members| && w.members[i].batchId == b;
        assert w'.members[i].batchId == b;
      }
    }
  }

  lemma OrdersIgnoreOpen(w: World, w': World, id: nat)
    requires OrdersOk(w) && w'.orders == w.orders && |w.batches| <= |w'.batches| && id < |w'.batches|
    requires forall b :: 0 <= b < |w'.batches| && b != id ==> b < |w.batches| && w'.batches[b] == w.batches[b]
    requires w'.batches[id].status == Open && (id < |w.batches| ==> w.batches[id].status == Open)
    ensures OrdersOk(w')
  {
  }

  lemma {:induction false} MembersOfNobody(rows: seq<Membership>, batchId: nat)
    requires forall i :: 0 <= i < |rows| ==> rows[i].batchId != batchId
    ensures MembersOf(rows, batchId) == []
  {
    if rows != [] {
      MembersOfNobody(rows[..|rows| - 1], batchId);
    }
  }

  /** An event of an unknown transaction joins; any other leaves the tables alone. */
  lemma HandledEffect(w: World, ev: TxEvent, now: Time)
    requires TxClaimsOk(w)
    ensures var w' := Handled(w, ev, now);
            && w'.seen == (if WellFormed(ev) then Marked(w.seen, TxKey(ev.txId), DAY, now) else w.seen)
            && w' == (if WellFormed(ev) && ev.txId !in w.byTx then Joined(w, ev, now) else w).(seen := w'.seen)
  {
  }

  lemma HandledWorldOk(w: World, ev: TxEvent, now: Time)
    requires WorldOk(w)
    ensures WorldOk(Handled(w, ev, now))
  {
    var w' := Handled(w, ev, now);
    HandledEffect(w, ev, now);
    forall t | TxKey(t) in w'.seen
      ensures t in w.byTx || t == ev.txId
    {
      KeysApart(t, ev.txId, "", "", 0);
    }
    if WellFormed(ev) && ev.txId !in w.byTx {
      JoinedKeeps(w, ev, now);
      JoinedEffect(w, ev, now);
      OthersKeep(Joined(w, ev, now), w');
    } else {
      OthersKeep(w, w');
    }
  }

  lemma HandledKeeps(w: World, ev: TxEvent, now: Time, handled: seq<TxEvent>)
    requires WorldOk(w) && HistoryOk(w, handled)
    ensures WorldOk(Handled(w, ev, now)) && HistoryOk(Handled(w, ev, now), handled + [ev])
  {
    HandledWorldOk(w, ev, now);
    HandledEffect(w, ev, now);
    if WellFormed(ev) && ev.txId !in w.byTx {
      JoinedEffect(w, ev, now);
    }
    HistoryGrows(w, Handled(w, ev, now), ev, handled);
  }

  lemma HistoryGrows(w: World, w': World, ev: TxEvent, handled: seq<TxEvent>)
    requires HistoryOk(w, handled)
    requires if WellFormed(ev) && ev.txId !in w.byTx
             then w'.byTx == w.byTx + {ev.txId} && exists id :: w'.members == w.members + [MembershipFor(ev, id)]
             else SameIntake(w, w')
    ensures HistoryOk(w', handled + [ev])
  {
    assert (handled + [ev])[..|handled|] == handled;
    KnowsAppend(Firsts(handled), ev);
  }

  /** Changes outside the batch, membership and order tables, with claims only of known transactions. */
  lemma OthersKeep(w: World, w': World)
    requires BatchesOk(w) && MembersOk(w) && NotionalsOk(w) && OrdersOk(w)
    requires SameIntake(w, w') && w'.batches == w.batches && w'.orders == w.orders
    requires TxClaimsOk(w')
    ensures WorldOk(w')
  {
  }

  lemma KnowsAppend(evs: seq<TxEvent>, ev: TxEvent)
    ensures forall t :: Knows(evs + [ev], t) <==> Knows(evs, t) || t == ev.txId
  {
    forall t
      ensures Knows(evs + [ev], t) <==> Knows(evs, t) || t == ev.txId
    {
      if Knows(evs, t) {
        var i :| 0 <= i < |evs| && evs[i].txId == t;
        assert (evs + [ev])[i].txId == t;
      }
      assert (evs + [ev])[|evs|] == ev;
    }
  }

  lemma SameIntakeHistory(w: World, w': World, handled: seq<TxEvent>)
    requires HistoryOk(w, handled) && SameIntake(w, w')
    ensures HistoryOk(w', handled)
  {
  }

  /** A change of the float table or the outbox, or a loss of claims. */
  lemma AsideKeeps(w: World, w': World)
    requires WorldOk(w) && SameIntake(w, w') && w'.batches == w.batches && w'.orders == w.orders
    requires forall k :: k in w'.seen ==> k in w.seen
    ensures WorldOk(w')
  {
    hide TxKey;
    OthersKeep(w, w');
  }

  lemma StepKeeps(cfg: Config, s: Sys, t: Timed)
    requires Inv(s)
    ensures Inv(Step(cfg, s, t))
  {
    hide Handled, TickedUpTo, ClosedBatch, Submitted, WorldOk, HistoryOk;
    match t.act {
      case Event(ev) => HandledKeeps(s.w, ev, t.at, s.handled);
      case Tick(envs) => TickedKeeps(cfg, s.w, OpenRows(s.w.batches), |OpenRows(s.w.batches)|, t.at, envs);
      case Close(id, env) => ClosedKeeps(cfg, s.w, id, t.at, env);
      case Submit(id, env) => SubmittedKeeps(cfg, s.w, id, t.at, env);
      case _ => AsideKeeps(s.w, Step(cfg, s, t).w);
    }
    if !t.act.Event? {
      SameIntakeHistory(s.w, Step(cfg, s, t).w, s.handled);
    }
  }

  lemma EmptyKeeps(start: Time)
    ensures Inv(Sys(EMPTY, start, start, []))
  {
    EmptyWorldOk(EMPTY);
  }

  lemma EmptyWorldOk(w: World)
    requires w.batches == [] && w.members == [] && w.orders == [] && w.byTx == {} && w.seen == map[]
    ensures WorldOk(w) && HistoryOk(w, [])
  {
    hide TxKey;
    assert forall t :: !Knows([], t);
  }

  /** Every reachable state satisfies the core invariants. */
  lemma {:induction false} RunKeeps(cfg: Config, start: Time, acts: seq<Timed>)
    ensures Inv(Run(cfg, start, acts))
  {
    hide Step, Inv;
    if acts == [] {
      EmptyKeeps(start);
    } else {
      RunKeeps(cfg, start, acts[..|acts| - 1]);
      StepKeeps(cfg, Run(cfg, start, acts[..|acts| - 1]), acts[|acts| - 1]);
    }
  }
}
