/** The batch-related outbox entries are exactly the ones the batch statuses call for. */
module AuditTrail {
  import opened Base
  import opened Records
  import opened Configuration
  import opened Memstore
  import opened Pipeline
  import opened Runs
  import FloatTable
  import Ledger
  import Pairs

  predicate BatchEvent(e: EventType) {
    e != EvFunding && e != EvRebalance
  }

  function AggregateOf(e: EventType): Aggregate {
    match e
    case EvBatchOpen => AggBatch
    case EvBatchClose => AggBatch
    case EvAggregateExec => AggAggregate
    case EvFloatAdjust => AggFloat
    case EvFunding => AggFunding
    case EvRebalance => AggRebalance
  }

  function EventKey(e: EventType, id: nat): string {
    Ledger.Key(AggregateOf(e), e, IdText(id))
  }

  /** Which events a batch in a given status must have left behind. */
  predicate Due(e: EventType, st: BatchStatus) {
    match e
    case EvBatchOpen => true
    case EvBatchClose => st != Open
    case EvFloatAdjust => st == Settled
    case EvAggregateExec => st == Settled
    case EvFunding => false
    case EvRebalance => false
  }

  /** The content of a due event. */
  function EventOf(e: EventType, b: Batch): Payload {
    match e
    case EvBatchOpen => OpenPayload(b.id)
    case EvBatchClose => ClosePayload(b)
    case EvFloatAdjust => AdjustEvent(b, b.notionalUSD)
    case _ => ExecuteEvent(b, b.notionalUSD)
  }

  ghost predicate HasKey(outbox: seq<OutboxEntry>, key: string) {
    exists i :: 0 <= i < |outbox| && outbox[i].dedupKey == key
  }

  ghost predicate KeysOk(outbox: seq<OutboxEntry>, seen: set<string>) {
    && (forall i :: 0 <= i < |outbox| ==> outbox[i].dedupKey in seen)
    && (forall k :: k in seen ==> HasKey(outbox, k))
    && (forall i, j :: 0 <= i < j < |outbox| ==> outbox[i].dedupKey != outbox[j].dedupKey)
  }

  /** A funding or rebalancing entry. */
  ghost predicate CapitalRow(r: OutboxEntry) {
    !BatchEvent(r.payload.eventType) && exists n: nat :: r.dedupKey == EventKey(r.payload.eventType, n)
  }

  /** An entry for a due event of a batch. */
  ghost predicate BatchRow(batches: seq<Batch>, r: OutboxEntry) {
    exists b: nat :: b < |batches| && RowFor(batches[b], r)
  }

  ghost predicate RowFor(b: Batch, r: OutboxEntry) {
    && BatchEvent(r.payload.eventType)
    && Due(r.payload.eventType, b.status)
    && r.dedupKey == EventKey(r.payload.eventType, b.id)
    && r.payload == EventOf(r.payload.eventType, b)
  }

  ghost predicate RowsOk(batches: seq<Batch>, outbox: seq<OutboxEntry>) {
    forall i :: 0 <= i < |outbox| ==> CapitalRow(outbox[i]) || BatchRow(batches, outbox[i])
  }

  ghost predicate Complete(batches: seq<Batch>, seen: set<string>) {
    forall b, e :: 0 <= b < |batches| && Due(e, batches[b].status) ==> EventKey(e, b) in seen
  }

  ghost predicate AuditOk(w: World) {
    && BatchIds(w.batches)
    && KeysOk(w.outbox, w.outboxSeen)
    && RowsOk(w.batches, w.outbox)
    && Complete(w.batches, w.outboxSeen)
  }

  lemma EventKeyInjective(e: EventType, m: nat, e': EventType, n: nat)
    requires EventKey(e, m) == EventKey(e', n)
    ensures e == e' && m == n
  {
    Ledger.KeyInjective(AggregateOf(e), e, m, AggregateOf(e'), e', n);
  }

  /** A batch event that is not due has not been emitted. */
  lemma NotDueNotEmitted(batches: seq<Batch>, outbox: seq<OutboxEntry>, e: EventType, id: nat)
    requires BatchIds(batches) && RowsOk(batches, outbox)
    requires BatchEvent(e) && !(id < |batches| && Due(e, batches[id].status))
    ensures !HasKey(outbox, EventKey(e, id))
  {
    forall i | 0 <= i < |outbox|
      ensures outbox[i].dedupKey != EventKey(e, id)
    {
      var r := outbox[i];
      if r.dedupKey == EventKey(e, id) {
        if CapitalRow(r) {
          var n: nat :| r.dedupKey == EventKey(r.payload.eventType, n);
          EventKeyInjective(r.payload.eventType, n, e, id);
        } else {
          var b: nat :| b < |batches| && RowFor(batches[b], r);
          EventKeyInjective(r.payload.eventType, b, e, id);
        }
      }
    }
  }

  /** Batches that moved forward, with closed notionals kept. */
  ghost predicate Forward(batches: seq<Batch>, batches': seq<Batch>) {
    && |batches| <= |batches'|
    && (forall b :: 0 <= b < |batches| ==>
          && batches'[b].id == batches[b].id
          && batches'[b].assetPair == batches[b].assetPair
          && Rank(batches'[b].status) >= Rank(batches[b].status)
          && (batches[b].status != Open ==> batches'[b].notionalUSD == batches[b].notionalUSD))
  }

  lemma RowsStayOk(batches: seq<Batch>, batches': seq<Batch>, outbox: seq<OutboxEntry>)
    requires RowsOk(batches, outbox) && Forward(batches, batches')
    ensures RowsOk(batches', outbox)
  {
    forall i | 0 <= i < |outbox|
      ensures CapitalRow(outbox[i]) || BatchRow(batches', outbox[i])
    {
      if !CapitalRow(outbox[i]) {
        var b: nat :| b < |batches| && RowFor(batches[b], outbox[i]);
        RowStays(batches[b], batches'[b], outbox[i]);
      }
    }
  }

  lemma RowStays(b: Batch, b': Batch, r: OutboxEntry)
    requires RowFor(b, r) && b'.id == b.id && b'.assetPair == b.assetPair && Rank(b'.status) >= Rank(b.status)
    requires b.status != Open ==> b'.notionalUSD == b.notionalUSD
    ensures RowFor(b', r)
  {
    match r.payload.eventType {
      case EvBatchOpen =>
      case EvBatchClose =>
      case EvFloatAdjust =>
      case EvAggregateExec =>
    }
  }

  /** Appending an entry under a new key keeps the key table exact. */
  lemma AppendKeepsKeys(outbox: seq<OutboxEntry>, seen: set<string>, key: string, p: Payload)
    requires KeysOk(outbox, seen)
    ensures KeysOk(Ledger.Appended(outbox, seen, key, p), seen + {key})
    ensures key in seen <==> HasKey(outbox, key)
  {
    var outbox' := Ledger.Appended(outbox, seen, key, p);
    forall k | k in seen + {key}
      ensures HasKey(outbox', k)
    {
      if k in seen {
        assert HasKey(outbox, k);
        var i :| 0 <= i < |outbox| && outbox[i].dedupKey == k;
        assert outbox'[i].dedupKey == k;
      } else {
        assert outbox'[|outbox|].dedupKey == k;
      }
    }
  }

  /** Emitting the one event that became due. */
  lemma EmitDue(batches: seq<Batch>, outbox: seq<OutboxEntry>, seen: set<string>, batches': seq<Batch>,
                id: nat, e: EventType)
    requires BatchIds(batches) && BatchIds(batches') && Forward(batches, batches') && id < |batches'|
    requires KeysOk(outbox, seen) && RowsOk(batches, outbox)
    requires BatchEvent(e) && !(id < |batches| && Due(e, batches[id].status)) && Due(e, batches'[id].status)
    ensures var key := EventKey(e, id);
            var outbox' := Ledger.Appended(outbox, seen, key, EventOf(e, batches'[id]));
            && outbox' == outbox + [OutboxEntry(|outbox|, key, EventOf(e, batches'[id]), None)]
            && KeysOk(outbox', seen + {key}) && RowsOk(batches', outbox')
  {
    var key := EventKey(e, id);
    AppendKeepsKeys(outbox, seen, key, EventOf(e, batches'[id]));
    NotDueNotEmitted(batches, outbox, e, id);
    RowsStayOk(batches, batches', outbox);
    var r := OutboxEntry(|outbox|, key, EventOf(e, batches'[id]), None);
    EventOfKind(e, batches'[id]);
    assert RowFor(batches'[id], r);
  }

  lemma EventOfKind(e: EventType, b: Batch)
    requires BatchEvent(e)
    ensures EventOf(e, b).eventType == e && EventOf(e, b).aggregate == AggregateOf(e)
  {
    match e {
      case EvBatchOpen =>
      case EvBatchClose =>
      case EvFloatAdjust =>
      case EvAggregateExec =>
    }
  }

  lemma OutcomeAudit(w: World, w': World, id: nat)
    requires OrdersOk(w) && AuditOk(w) && SubmitOutcome(w, w', id)
    ensures AuditOk(w')
  {
    hide OrdersOk, EventKey, CalledOnce;
    if w' == w {
    } else if Unfilled(w, w', id) {
      RowsStayOk(w.batches, w'.batches, w.outbox);
    } else {
      CreatedOrders(w, id);
      FillAudit(w, w', id);
    }
  }

  lemma FillAudit(w: World, w': World, id: nat)
    requires AuditOk(w) && id < |w.batches| && Submittable(w.batches[id]) && FilledOnce(w, w', id)
    requires OrderOf(WithOrder(w.orders, id, w.batches[id].assetPair, w.batches[id].notionalUSD), id).notionalUSD
          == w.batches[id].notionalUSD
    ensures AuditOk(w')
  {
    var b := w.batches[id];
    var settled := Advanced(w.batches, id, Settled);
    var adjust, execute := EventOf(EvFloatAdjust, settled[id]), EventOf(EvAggregateExec, settled[id]);
    assert adjust == AdjustEvent(b, b.notionalUSD) && execute == ExecuteEvent(b, b.notionalUSD);
    EmitTwo(w.batches, w.outbox, w.outboxSeen, settled, id);
    var e1 := Emitted(w, adjust, id);
    var e2 := Emitted(e1, execute, id);
    assert w'.outbox == e2.outbox && w'.outboxSeen == e2.outboxSeen;
    assert w'.outboxSeen == w.outboxSeen + {EventKey(EvFloatAdjust, id)} + {EventKey(EvAggregateExec, id)};
    CompleteAfterFill(w.batches, w.outboxSeen, w'.outboxSeen, id);
  }

  lemma EmitTwo(batches: seq<Batch>, outbox: seq<OutboxEntry>, seen: set<string>, settled: seq<Batch>, id: nat)
    requires BatchIds(batches) && id < |batches| && batches[id].status != Settled && batches[id].status != Open
    requires settled == Advanced(batches, id, Settled) && KeysOk(outbox, seen) && RowsOk(batches, outbox)
    ensures var k1, k2 := EventKey(EvFloatAdjust, id), EventKey(EvAggregateExec, id);
            var o1 := Ledger.Appended(outbox, seen, k1, EventOf(EvFloatAdjust, settled[id]));
            var o2 := Ledger.Appended(o1, seen + {k1}, k2, EventOf(EvAggregateExec, settled[id]));
            KeysOk(o2, seen + {k1} + {k2}) && RowsOk(settled, o2)
  {
    hide Ledger.Key;
    var k1, k2 := EventKey(EvFloatAdjust, id), EventKey(EvAggregateExec, id);
    var o1 := Ledger.Appended(outbox, seen, k1, EventOf(EvFloatAdjust, settled[id]));
    EmitDue(batches, outbox, seen, settled, id, EvFloatAdjust);
    NotDueNotEmitted(batches, outbox, EvAggregateExec, id);
    if k1 == k2 {
      EventKeyInjective(EvFloatAdjust, id, EvAggregateExec, id);
    }
    AppendKeepsKeys(outbox, seen, k2, EventOf(EvAggregateExec, settled[id]));
    AppendKeepsKeys(o1, seen + {k1}, k2, EventOf(EvAggregateExec, settled[id]));
    var r := OutboxEntry(|o1|, k2, EventOf(EvAggregateExec, settled[id]), None);
    EventOfKind(EvAggregateExec, settled[id]);
    assert RowFor(settled[id], r);
  }

  lemma CompleteAfterFill(batches: seq<Batch>, seen: set<string>, seen': set<string>, id: nat)
    requires Complete(batches, seen) && id < |batches| && batches[id].status != Open
    requires seen' == seen + {EventKey(EvFloatAdjust, id)} + {EventKey(EvAggregateExec, id)}
    ensures Complete(Advanced(batches, id, Settled), seen')
  {
    forall b, e | 0 <= b < |batches| && Due(e, Advanced(batches, id, Settled)[b].status)
      ensures EventKey(e, b) in seen'
    {
      if b == id && (e == EvFloatAdjust || e == EvAggregateExec) {
      } else {
        assert Due(e, batches[b].status);
      }
    }
  }

  lemma SubmittedAudit(cfg: Config, w: World, id: nat, now: Time, env: SubmitEnv)
    requires WorldOk(w) && AuditOk(w)
    ensures AuditOk(Submitted(cfg, w, id, now, env))
  {
    SubmitEffect(cfg, w, id, now, env);
    OutcomeAudit(w, Submitted(cfg, w, id, now, env), id);
  }

  lemma JustClosedAudit(w: World, id: nat, now: Time)
    requires WorldOk(w) && AuditOk(w) && id < |w.batches| && w.batches[id].status == Open
    ensures AuditOk(JustClosed(w, id, now))
  {
    var w' := JustClosed(w, id, now);
    EmitDue(w.batches, w.outbox, w.outboxSeen, w'.batches, id, EvBatchClose);
    forall b, e | 0 <= b < |w'.batches| && Due(e, w'.batches[b].status)
      ensures EventKey(e, b) in w'.outboxSeen
    {
      if b == id && e == EvBatchClose {
      } else {
        assert Due(e, w.batches[b].status);
      }
    }
  }

  lemma ClosedAudit(cfg: Config, w: World, id: nat, now: Time, env: SubmitEnv)
    requires WorldOk(w) && AuditOk(w)
    ensures AuditOk(ClosedBatch(cfg, w, id, now, env))
  {
    if id < |w.batches| && w.batches[id].status == Open {
      JustClosedKeeps(w, id, now);
      JustClosedAudit(w, id, now);
      SubmittedAudit(cfg, JustClosed(w, id, now), id, now, env);
    }
  }

  lemma TickedOneAudit(cfg: Config, w: World, b: Batch, now: Time, env: TickEnv)
    requires WorldOk(w) && AuditOk(w)
    ensures AuditOk(TickedOne(cfg, w, b, now, env))
  {
    LockKeeps(cfg, w, b.assetPair, now);
    ClosedAudit(cfg, WithLock(cfg, w, b.assetPair, now), b.id, now, env.submit);
  }

  lemma {:induction false} TickedAudit(
    cfg: Config, w: World, open: seq<Batch>, n: nat, now: Time, envs: nat -> TickEnv)
    requires WorldOk(w) && AuditOk(w) && n <= |open|
    ensures WorldAudited(TickedUpTo(cfg, w, open, n, now, envs))
  {
    hide TickedOne, WorldOk;
    if n > 0 {
      var w1, b := TickedUpTo(cfg, w, open, n - 1, now, envs), open[n - 1];
      TickedAudit(cfg, w, open, n - 1, now, envs);
      TickedOneAudited(cfg, w1, b, now, envs(b.id));
    }
  }

  ghost predicate WorldAudited(w: World) {
    WorldOk(w) && AuditOk(w)
  }

  lemma TickedOneAudited(cfg: Config, w: World, b: Batch, now: Time, env: TickEnv)
    requires WorldAudited(w)
    ensures WorldAudited(TickedOne(cfg, w, b, now, env))
  {
    TickedOneKeeps(cfg, w, b, now, env);
    TickedOneAudit(cfg, w, b, now, env);
  }

  lemma JoinedAudit(w: World, ev: TxEvent, now: Time)
    requires WorldOk(w) && AuditOk(w)
    ensures AuditOk(Joined(w, ev, now))
  {
    var w' := Joined(w, ev, now);
    var id := FindOpen(w.batches, PairOf(ev));
    JoinedEffect(w, ev, now);
    JoinedBatches(w, ev, now);
    if id < |w.batches| {
      RowsStayOk(w.batches, w'.batches, w.outbox);
    } else {
      EmitDue(w.batches, w.outbox, w.outboxSeen, w'.batches, id, EvBatchOpen);
    }
    forall b, e | 0 <= b < |w'.batches| && Due(e, w'.batches[b].status)
      ensures EventKey(e, b) in w'.outboxSeen
    {
      if b == id && e == EvBatchOpen && id == |w.batches| {
      } else {
        assert b < |w.batches| && Due(e, w.batches[b].status);
      }
    }
  }

  lemma CapitalAudit(w: World, p: Payload, id: nat)
    requires AuditOk(w) && !BatchEvent(p.eventType) && p.aggregate == AggregateOf(p.eventType)
    ensures AuditOk(Emitted(w, p, id))
  {
    var key := EventKey(p.eventType, id);
    AppendKeepsKeys(w.outbox, w.outboxSeen, key, p);
    assert CapitalRow(OutboxEntry(|w.outbox|, key, p, None));
  }

  lemma DispatchAudit(w: World, w': World)
    requires AuditOk(w) && w'.batches == w.batches && w'.outboxSeen == w.outboxSeen && |w'.outbox| == |w.outbox|
    requires forall i :: 0 <= i < |w.outbox| ==>
      w'.outbox[i].dedupKey == w.outbox[i].dedupKey && w'.outbox[i].payload == w.outbox[i].payload
    ensures AuditOk(w')
  {
    forall k | k in w.outboxSeen
      ensures HasKey(w'.outbox, k)
    {
      assert HasKey(w.outbox, k);
      var i :| 0 <= i < |w.outbox| && w.outbox[i].dedupKey == k;
      assert w'.outbox[i].dedupKey == k;
    }
    forall i | 0 <= i < |w'.outbox|
      ensures CapitalRow(w'.outbox[i]) || BatchRow(w.batches, w'.outbox[i])
    {
      if CapitalRow(w.outbox[i]) {
        var n: nat :| w.outbox[i].dedupKey == EventKey(w.outbox[i].payload.eventType, n);
        assert w'.outbox[i].dedupKey == EventKey(w'.outbox[i].payload.eventType, n);
      } else {
        var b: nat :| b < |w.batches| && RowFor(w.batches[b], w.outbox[i]);
        assert RowFor(w.batches[b], w'.outbox[i]);
      }
    }
  }

  lemma HandledAudit(w: World, ev: TxEvent, now: Time)
    requires WorldOk(w) && AuditOk(w)
    ensures AuditOk(Handled(w, ev, now))
  {
    HandledEffect(w, ev, now);
    if WellFormed(ev) && ev.txId !in w.byTx {
      JoinedAudit(w, ev, now);
    }
  }

  lemma SameTablesAudit(w: World, w': World)
    requires AuditOk(w) && w'.batches == w.batches && w'.outbox == w.outbox && w'.outboxSeen == w.outboxSeen
    ensures AuditOk(w')
  {
  }

  lemma OtherAudit(cfg: Config, w: World, now: Time, a: Action)
    requires AuditOk(w) && (a.Sweep? || a.Dispatch? || a.Forget? || a.Funded? || a.Rebalanced?)
    ensures AuditOk(Apply(cfg, w, now, a))
  {
    hide AuditOk, Ledger.Listed, Ledger.Delivered, Emitted, FloatTable.Swept;
    match a {
      case Dispatch(_, _) => DispatchAudit(w, Apply(cfg, w, now, a));
      case Funded(asset, amount, id) =>
        CapitalAudit(w, Payload(AggFunding, EvFunding, None, amount, asset, "", ""), id);
      case Rebalanced(asset, amount, id) =>
        CapitalAudit(w, Payload(AggRebalance, EvRebalance, None, amount, asset, "", ""), id);
      case _ => SameTablesAudit(w, Apply(cfg, w, now, a));
    }
  }

  lemma StepAudit(cfg: Config, s: Sys, t: Timed)
    requires Inv(s) && AuditOk(s.w)
    ensures AuditOk(Step(cfg, s, t).w)
  {
    hide Handled, TickedUpTo, ClosedBatch, Submitted, AuditOk;
    match t.act {
      case Event(ev) => HandledAudit(s.w, ev, t.at);
      case Tick(envs) => TickedAudit(cfg, s.w, OpenRows(s.w.batches), |OpenRows(s.w.batches)|, t.at, envs);
      case Close(id, env) => ClosedAudit(cfg, s.w, id, t.at, env);
      case Submit(id, env) => SubmittedAudit(cfg, s.w, id, t.at, env);
      case _ => OtherAudit(cfg, s.w, t.at, t.act);
    }
  }

  lemma {:induction false} RunAudit(cfg: Config, start: Time, acts: seq<Timed>)
    ensures AuditOk(Run(cfg, start, acts).w)
  {
    hide Step, Inv;
    if acts != [] {
      RunAudit(cfg, start, acts[..|acts| - 1]);
      RunKeeps(cfg, start, acts[..|acts| - 1]);
      StepAudit(cfg, Run(cfg, start, acts[..|acts| - 1]), acts[|acts| - 1]);
    }
  }

  /** The payload tells the event of the batch: its notional, and the sides of its pair where the event has them. */
  ghost predicate Describes(p: Payload, e: EventType, b: Batch) {
    && p.eventType == e && p.batchId == Some(b.id) && p.detail == ""
    && match e
       case EvBatchOpen => p.aggregate == AggBatch && p.notionalUSD == 0.0 && p.asset == "" && p.fiatCurrency == ""
       case EvBatchClose =>
         p.aggregate == AggBatch && p.notionalUSD == b.notionalUSD && p.asset == "" && p.fiatCurrency == ""
       case EvFloatAdjust =>
         && p.aggregate == AggFloat && p.notionalUSD == b.notionalUSD
         && p.asset == "" && p.fiatCurrency == Pairs.FiatOf(b.assetPair)
       case EvAggregateExec =>
         && p.aggregate == AggAggregate && p.notionalUSD == b.notionalUSD
         && p.asset == Pairs.CryptoOf(b.assetPair) && p.fiatCurrency == Pairs.FiatOf(b.assetPair)
       case _ => false
  }

  lemma EventDescribes(e: EventType, b: Batch)
    requires BatchEvent(e)
    ensures Describes(EventOf(e, b), e, b)
  {
  }

  ghost predicate Recorded(outbox: seq<OutboxEntry>, key: string, e: EventType, b: Batch) {
    exists i :: 0 <= i < |outbox| && outbox[i].dedupKey == key && Describes(outbox[i].payload, e, b)
  }

  /** A batch event is in the outbox exactly when the batch's status calls for it, once, with that batch's data; every
      other entry is a funding or rebalancing entry under a key of its own kind. */
  lemma AuditComplete(cfg: Config, start: Time, acts: seq<Timed>, e: EventType, id: nat)
    requires BatchEvent(e)
    ensures var w := Run(cfg, start, acts).w;
            && (HasKey(w.outbox, EventKey(e, id)) <==> id < |w.batches| && Due(e, w.batches[id].status))
            && (HasKey(w.outbox, EventKey(e, id)) ==> Recorded(w.outbox, EventKey(e, id), e, w.batches[id]))
            && (forall i, j :: 0 <= i < j < |w.outbox| ==> w.outbox[i].dedupKey != w.outbox[j].dedupKey)
            && RowsOk(w.batches, w.outbox)
  {
    RunAudit(cfg, start, acts);
    var w := Run(cfg, start, acts).w;
    if id < |w.batches| && Due(e, w.batches[id].status) {
      assert EventKey(e, id) in w.outboxSeen;
      var i :| 0 <= i < |w.outbox| && w.outbox[i].dedupKey == EventKey(e, id);
      RowContent(w, i, e, id);
      EventDescribes(e, w.batches[id]);
    } else {
      NotDueNotEmitted(w.batches, w.outbox, e, id);
    }
  }

  lemma RowContent(w: World, i: nat, e: EventType, id: nat)
    requires AuditOk(w) && i < |w.outbox| && w.outbox[i].dedupKey == EventKey(e, id) && BatchEvent(e)
    ensures id < |w.batches| && Due(e, w.batches[id].status) && w.outbox[i].payload == EventOf(e, w.batches[id])
  {
    var r := w.outbox[i];
    if CapitalRow(r) {
      var n: nat :| r.dedupKey == EventKey(r.payload.eventType, n);
      EventKeyInjective(r.payload.eventType, n, e, id);
      assert false;
    }
    var b: nat :| b < |w.batches| && RowFor(w.batches[b], r);
    EventKeyInjective(r.payload.eventType, b, e, id);
  }
}
