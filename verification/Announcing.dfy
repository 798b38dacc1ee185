/** The audit trail under interleaving: every batch event has its outbox entry, or a thread is about to write it. */
module Announcing {
  import opened Base
  import opened Records
  import opened Configuration
  import opened Memstore
  import opened Idempotency
  import opened Pipeline
  import opened Threads
  import opened AuditTrail
  import Concurrency
  import FloatTable
  import FloatTracker
  import Interleaving
  import Ledger
  import Pairs

  // --- Events of the threads ---

  /** The move that writes the event's entry. */
  predicate Emits(t: Thread, e: EventType, b: nat) {
    match e
    case EvBatchOpen => t.HAnnounce? && t.b == b
    case EvBatchClose => t.CAnnounce? && t.copy.id == b
    case EvFloatAdjust => t.SAdjust? && t.copy.id == b
    case EvAggregateExec => t.SAnnounce? && t.copy.id == b
    case EvFunding => false
    case EvRebalance => false
  }

  ghost predicate HasRow(members: seq<Membership>, b: nat) {
    exists i :: 0 <= i < |members| && members[i].batchId == b
  }

  /** The tables show that the event is due. */
  ghost predicate Owed(s: Sys, e: EventType, b: nat) {
    match e
    case EvBatchOpen => HasRow(s.w.members, b)
    case EvBatchClose => b in s.closes
    case EvFloatAdjust => IsSettled(s.w, b)
    case EvAggregateExec => IsSettled(s.w, b)
    case EvFunding => false
    case EvRebalance => false
  }

  /** What must have happened before the event may be written. */
  ghost predicate Earned(s: Sys, e: EventType, b: nat) {
    match e
    case EvBatchOpen => b < |s.w.batches|
    case EvBatchClose => b in s.closes
    case EvFloatAdjust => b in s.fills
    case EvAggregateExec => b in s.fills
    case EvFunding => true
    case EvRebalance => true
  }

  ghost predicate About(s: Sys, e: EventType, b: nat) {
    exists x :: x in s.threads && Emits(s.threads[x], e, b)
  }

  predicate PastAdjust(t: Thread) {
    t.GClaim? || t.GSubmit? || t.GSettle? || t.SSettle? || t.SAnnounce?
  }

  /** What a thread knows about the entries written so far. */
  ghost predicate Knows(w: World, t: Thread) {
    && (t.HAdd? && !t.isNew ==> HasRow(w.members, t.b))
    && (t.HAnnounce? ==> t.b < |w.batches|)
    && (PastAdjust(t) ==> HasKey(w.outbox, EventKey(EvFloatAdjust, t.copy.id)))
  }

  ghost predicate SeenOk(w: World) {
    forall k :: k in w.outboxSeen ==> HasKey(w.outbox, k)
  }

  ghost predicate TrailOk(s: Sys) {
    && SeenOk(s.w)
    && (forall e, b: nat :: Owed(s, e, b) ==> HasKey(s.w.outbox, EventKey(e, b)) || About(s, e, b))
    && (forall e, b: nat :: BatchEvent(e) && HasKey(s.w.outbox, EventKey(e, b)) ==> Earned(s, e, b))
    && (forall x :: x in s.threads ==> Knows(s.w, s.threads[x]))
  }

  /** Outside the threads entries are marked and foreign entries are added, none is lost and none is for a batch. */
  ghost predicate OutboxKept(w: World, a: Action) {
    a.Outside? ==>
      && (forall k :: HasKey(w.outbox, k) ==> HasKey(a.outbox, k))
      && (forall k :: k in a.outboxSeen ==> HasKey(a.outbox, k))
      && (forall e, b: nat :: BatchEvent(e) && HasKey(a.outbox, EventKey(e, b)) ==> HasKey(w.outbox, EventKey(e, b)))
  }

  ghost predicate OutboxOnly(cfg: Config, s: Sys, acts: seq<Action>)
    decreases |acts|
  {
    acts != [] ==> OutboxKept(s.w, acts[0]) && OutboxOnly(cfg, Step(cfg, s, acts[0]), acts[1..])
  }

  // --- One move ---

  /** The entries after a move are those before it, and the one the move writes. */
  ghost predicate Wrote(w: World, w': World, t: Thread) {
    && SeenOk(w')
    && (forall k :: HasKey(w.outbox, k) ==> HasKey(w'.outbox, k))
    && (forall k :: HasKey(w'.outbox, k) && !HasKey(w.outbox, k) ==>
          exists e, b: nat :: Emits(t, e, b) && k == EventKey(e, b))
    && (forall e, b: nat :: Emits(t, e, b) ==> HasKey(w'.outbox, EventKey(e, b)))
  }

  lemma EmittedKeys(w: World, p: Payload, id: nat)
    requires SeenOk(w) && p.aggregate == AggregateOf(p.eventType)
    ensures var w' := Emitted(w, p, id);
            SeenOk(w') && forall k :: HasKey(w'.outbox, k) <==> HasKey(w.outbox, k) || k == EventKey(p.eventType, id)
  {
    hide Ledger.Key;
    var w', key := Emitted(w, p, id), EventKey(p.eventType, id);
    if key !in w.outboxSeen {
      assert w'.outbox[|w.outbox|].dedupKey == key;
    }
    forall k
      ensures HasKey(w'.outbox, k) <==> HasKey(w.outbox, k) || k == key
    {
      if HasKey(w.outbox, k) {
        var i :| 0 <= i < |w.outbox| && w.outbox[i].dedupKey == k;
        assert w'.outbox[i].dedupKey == k;
      }
    }
  }

  /** The entry a thread writes at its announcing move. */
  lemma WroteOne(w: World, w': World, t: Thread, e: EventType, b: nat, p: Payload)
    requires SeenOk(w) && p.eventType == e && p.aggregate == AggregateOf(e) && Emits(t, e, b)
    requires w'.outbox == Emitted(w, p, b).outbox && w'.outboxSeen == Emitted(w, p, b).outboxSeen
    ensures Wrote(w, w', t)
  {
    hide Emitted, EventKey;
    EmittedKeys(w, p, b);
    assert forall k :: HasKey(w'.outbox, k) <==> HasKey(Emitted(w, p, b).outbox, k);
    forall e', b': nat | Emits(t, e', b')
      ensures e' == e && b' == b
    {
    }
  }

  lemma WroteNothing(w: World, w': World, t: Thread)
    requires SeenOk(w) && w'.outbox == w.outbox && w'.outboxSeen == w.outboxSeen
    requires !t.HAnnounce? && !t.CAnnounce? && !t.SAdjust? && !t.SAnnounce?
    ensures Wrote(w, w', t)
  {
    hide EventKey;
    assert forall e, b: nat :: !Emits(t, e, b);
  }

  predicate Announces(t: Thread) {
    t.HAnnounce? || t.CAnnounce? || t.SAdjust? || t.SAnnounce?
  }

  lemma QuietOutbox(cfg: Config, s: Sys, t: Thread, now: Time, c: Choice)
    requires !Announces(t)
    ensures var w' := Move(cfg, s, t, now, c).0.w; w'.outbox == s.w.outbox && w'.outboxSeen == s.w.outboxSeen
  {
    hide Handle, Close, Submit, Settle;
    if Handling(t) {
      QuietHandle(s, t, now, c);
    } else if Closing(t) {
      QuietClose(s, t, now);
    } else if Placing(t) {
      QuietSubmit(cfg, s, t, now, c);
    } else if Settling(t) {
      QuietSettle(cfg, s, t, now, c);
    }
  }

  lemma QuietHandle(s: Sys, t: Thread, now: Time, c: Choice)
    requires Handling(t) && !Announces(t)
    ensures var w' := Handle(s, t, now, c).0.w; w'.outbox == s.w.outbox && w'.outboxSeen == s.w.outboxSeen
  {
    hide TxKey, Held, WithOpenBatch, WithNotional, SumFor, MembersOf, FindOpen;
  }

  lemma QuietClose(s: Sys, t: Thread, now: Time)
    requires Closing(t) && !Announces(t)
    ensures var w' := Close(s, t, now).0.w; w'.outbox == s.w.outbox && w'.outboxSeen == s.w.outboxSeen
  {
    hide WithStatus, SumFor;
  }

  lemma QuietSubmit(cfg: Config, s: Sys, t: Thread, now: Time, c: Choice)
    requires Placing(t)
    ensures var w' := Submit(cfg, s, t, now, c).0.w; w'.outbox == s.w.outbox && w'.outboxSeen == s.w.outboxSeen
  {
    hide AggKey, Held, WithOrder, WithStatus, WithFill, HasOrder, OrderOf;
  }

  lemma QuietSettle(cfg: Config, s: Sys, t: Thread, now: Time, c: Choice)
    requires Settling(t) && !Announces(t)
    ensures var w' := Settle(cfg, s, t, now, c).0.w; w'.outbox == s.w.outbox && w'.outboxSeen == s.w.outboxSeen
  {
    hide HedgeKey, Held, Pairs.FiatOf, Pairs.CryptoOf, WithStatus, WithSettled, HasOrder, OrderOf, Emitted;
    hide FloatTracker.FillPosition, FloatTable.Added;
  }

  /** A thread that announces knows that its batch has an order where it needs one. */
  ghost predicate Ordered(w: World, t: Thread) {
    t.SAdjust? || t.SAnnounce? ==> HasOrder(w.orders, t.copy.id)
  }

  lemma AnnouncingMove(cfg: Config, s: Sys, t: Thread, now: Time, c: Choice)
    requires SeenOk(s.w) && Announces(t) && Ordered(s.w, t)
    ensures Wrote(s.w, Move(cfg, s, t, now, c).0.w, t)
  {
    hide Emitted, SeenOk, Wrote, Pairs.FiatOf, Pairs.CryptoOf;
    var w' := Move(cfg, s, t, now, c).0.w;
    if t.HAnnounce? {
      WroteOne(s.w, w', t, EvBatchOpen, t.b, OpenPayload(t.b));
    } else if t.CAnnounce? {
      WroteOne(s.w, w', t, EvBatchClose, t.copy.id, ClosePayload(t.copy));
    } else {
      var o := OrderOf(s.w.orders, t.copy.id);
      if t.SAdjust? {
        var p := FloatTracker.AdjustPayload(t.copy.id, o.notionalUSD, Pairs.FiatOf(t.copy.assetPair));
        WroteOne(s.w, w', t, EvFloatAdjust, t.copy.id, p);
      } else {
        WroteOne(s.w, w', t, EvAggregateExec, t.copy.id, ExecutePayload(t.copy, o));
      }
    }
  }

  lemma MoveWrites(cfg: Config, s: Sys, t: Thread, now: Time, c: Choice)
    requires SeenOk(s.w) && Ordered(s.w, t)
    ensures Wrote(s.w, Move(cfg, s, t, now, c).0.w, t)
  {
    hide Move, SeenOk, Wrote, Ordered;
    if Announces(t) {
      AnnouncingMove(cfg, s, t, now, c);
    } else {
      QuietOutbox(cfg, s, t, now, c);
      WroteNothing(s.w, Move(cfg, s, t, now, c).0.w, t);
    }
  }

  /** An event becomes due by the move before its entry is written, or after. */
  ghost predicate Raises(s: Sys, t: Thread, s': Sys, t': Thread) {
    && (forall b: nat :: HasRow(s'.w.members, b) && !HasRow(s.w.members, b) ==> Emits(t', EvBatchOpen, b))
    && (forall b: nat :: b in s'.closes && b !in s.closes ==> Emits(t', EvBatchClose, b))
    && (forall b: nat :: IsSettled(s'.w, b) && !IsSettled(s.w, b) ==>
          t.SSettle? && t.copy.id == b && Emits(t', EvAggregateExec, b))
  }

  ghost predicate Learns(s: Sys, t: Thread, s': Sys, t': Thread) {
    && (t'.HAdd? && !t'.isNew ==> HasRow(s'.w.members, t'.b))
    && (t'.HAnnounce? ==> t.HAdd? && t'.b == t.b)
    && (PastAdjust(t') ==> (PastAdjust(t) || t.SAdjust?) && t'.copy == t.copy)
  }

  lemma AddRaises(s: Sys, t: Thread, now: Time, c: Choice)
    requires t.HAdd? && Knows(s.w, t)
    ensures var (s', t') := Handle(s, t, now, c); Raises(s, t, s', t') && Learns(s, t, s', t')
  {
    hide EventKey, HasKey;
    var (s', t') := Handle(s, t, now, c);
    assert forall i :: 0 <= i < |s.w.members| ==> s'.w.members[i] == s.w.members[i];
    forall b: nat | HasRow(s'.w.members, b) && !HasRow(s.w.members, b)
      ensures b == t.b && t.isNew
    {
      var i :| 0 <= i < |s'.w.members| && s'.w.members[i].batchId == b;
      assert i >= |s.w.members|;
    }
  }

  lemma ListLearns(s: Sys, t: Thread, now: Time, c: Choice)
    requires t.HList?
    ensures var (s', t') := Handle(s, t, now, c); Raises(s, t, s', t') && Learns(s, t, s', t')
  {
    if MembersOf(s.w.members, t.b) != [] {
      var m := MembersOf(s.w.members, t.b)[0];
      assert m in MembersOf(s.w.members, t.b);
      var i :| 0 <= i < |s.w.members| && s.w.members[i] == m;
      assert s.w.members[i].batchId == t.b;
    }
  }

  lemma HandleRaises(s: Sys, t: Thread, now: Time, c: Choice)
    requires Handling(t) && Knows(s.w, t)
    ensures var (s', t') := Handle(s, t, now, c); Raises(s, t, s', t') && Learns(s, t, s', t')
  {
    if t.HList? {
      ListLearns(s, t, now, c);
    } else if t.HAdd? {
      AddRaises(s, t, now, c);
    } else {
      hide TxKey, Held, Ledger.Key, FindOpen, SumFor, EventKey, HasRow, HasKey;
      var (s', t') := Handle(s, t, now, c);
      SameSettled(s.w, s'.w, t);
    }
  }

  lemma SameSettled(w: World, w': World, t: Thread)
    requires |w'.batches| >= |w.batches|
    requires forall b :: 0 <= b < |w.batches| ==> w'.batches[b].status == w.batches[b].status
    requires forall b :: |w.batches| <= b < |w'.batches| ==> w'.batches[b].status == Open
    ensures forall b: nat :: IsSettled(w', b) ==> IsSettled(w, b)
  {
  }

  lemma CloseRaises(s: Sys, t: Thread, now: Time)
    requires Closing(t) && BatchesOk(s.w)
    ensures var (s', t') := Close(s, t, now); Raises(s, t, s', t') && Learns(s, t, s', t')
  {
    hide Ledger.Key, SumFor, EventKey;
  }

  lemma SubmitRaises(cfg: Config, s: Sys, t: Thread, now: Time, c: Choice)
    requires Placing(t)
    ensures var (s', t') := Submit(cfg, s, t, now, c); Raises(s, t, s', t') && Learns(s, t, s', t')
  {
    hide AggKey, Held, WithOrder, WithFill, HasOrder, OrderOf, EventKey;
  }

  lemma SettleRaises(cfg: Config, s: Sys, t: Thread, now: Time, c: Choice)
    requires Settling(t)
    ensures var (s', t') := Settle(cfg, s, t, now, c); Raises(s, t, s', t') && Learns(s, t, s', t')
  {
    hide HedgeKey, Held, Pairs.FiatOf, Pairs.CryptoOf, WithSettled, HasOrder, OrderOf, Ledger.Key, EventKey;
    hide FloatTracker.FillPosition, FloatTable.Added;
  }

  lemma MoveRaises(cfg: Config, s: Sys, t: Thread, now: Time, c: Choice)
    requires BatchesOk(s.w) && Knows(s.w, t)
    ensures var (s', t') := Move(cfg, s, t, now, c); Raises(s, t, s', t') && Learns(s, t, s', t')
  {
    hide Handle, Close, Submit, Settle, BatchesOk, Knows;
    if Handling(t) {
      HandleRaises(s, t, now, c);
    } else if Closing(t) {
      CloseRaises(s, t, now);
    } else if Placing(t) {
      SubmitRaises(cfg, s, t, now, c);
    } else if Settling(t) {
      SettleRaises(cfg, s, t, now, c);
    }
  }

  // --- One step ---

  lemma OwedStays(s: Sys, m: Sys, tid: nat, t': Thread, e: EventType, b: nat)
    requires TrailOk(s) && tid in s.threads && Wrote(s.w, m.w, s.threads[tid])
    requires Raises(s, s.threads[tid], m, t') && Owed(m.(threads := s.threads[tid := t']), e, b)
    ensures var s' := m.(threads := s.threads[tid := t']); HasKey(s'.w.outbox, EventKey(e, b)) || About(s', e, b)
  {
    hide EventKey, SeenOk;
    var s' := m.(threads := s.threads[tid := t']);
    if Owed(s, e, b) {
      if !HasKey(s.w.outbox, EventKey(e, b)) {
        var x :| x in s.threads && Emits(s.threads[x], e, b);
        if x != tid {
          assert s'.threads[x] == s.threads[x];
        }
      }
    } else {
      assert s'.threads[tid] == t' && Knows(s.w, s.threads[tid]);
    }
  }

  lemma EarnedStays(s: Sys, m: Sys, tid: nat, t': Thread, e: EventType, b: nat)
    requires Interleaving.Inv(s) && Interleaving.Grows(s, m) && TrailOk(s) && tid in s.threads
    requires Wrote(s.w, m.w, s.threads[tid]) && BatchEvent(e) && HasKey(m.w.outbox, EventKey(e, b))
    ensures Earned(m.(threads := s.threads[tid := t']), e, b)
  {
    hide EventKey, SeenOk, HasKey, About, Owed, BatchesOk, Interleaving.NotionalsOk, Interleaving.MembersOk;
    hide Interleaving.OrdersOk, Interleaving.HistoryOk;
    var t := s.threads[tid];
    if HasKey(s.w.outbox, EventKey(e, b)) {
      assert Earned(s, e, b);
      EarnedGrows(s, m, e, b);
    } else {
      var e', b' :| Emits(s.threads[tid], e', b') && EventKey(e, b) == EventKey(e', b');
      EventKeyInjective(e, b, e', b');
      assert Knows(s.w, t) && Interleaving.ThreadOk(s, t);
      EmitterEarned(s, t, e, b);
      EarnedGrows(s, m, e, b);
    }
  }

  lemma EarnedGrows(s: Sys, m: Sys, e: EventType, b: nat)
    requires Interleaving.Grows(s, m) && Earned(s, e, b)
    ensures Earned(m, e, b)
  {
    assert b in s.closes ==> b in m.closes;
    assert b in s.fills ==> b in m.fills;
  }

  lemma EmitterEarned(s: Sys, t: Thread, e: EventType, b: nat)
    requires Interleaving.HistoryOk(s) && Interleaving.ThreadOk(s, t) && Knows(s.w, t) && Emits(t, e, b)
    ensures Earned(s, e, b)
  {
    hide EventKey, HasKey, HasRow;
  }

  lemma KnowsStays(s: Sys, m: Sys, tid: nat, t': Thread, x: nat)
    requires TrailOk(s) && tid in s.threads && Interleaving.Grows(s, m)
    requires Wrote(s.w, m.w, s.threads[tid]) && Learns(s, s.threads[tid], m, t')
    requires Interleaving.ThreadOk(s, s.threads[tid]) && x in s.threads[tid := t']
    ensures Knows(m.w, s.threads[tid := t'][x])
  {
    hide EventKey, SeenOk;
    var t := s.threads[tid];
    assert forall b: nat :: HasRow(s.w.members, b) ==> HasRow(m.w.members, b) by {
      RowsStay(s.w.members, m.w.members);
    }
    if x == tid {
      assert Knows(s.w, t);
      if t.SAdjust? {
        assert Emits(t, EvFloatAdjust, t.copy.id);
      }
    } else {
      assert Knows(s.w, s.threads[x]);
    }
  }

  lemma RowsStay(members: seq<Membership>, members': seq<Membership>)
    requires members <= members'
    ensures forall b: nat :: HasRow(members, b) ==> HasRow(members', b)
  {
    forall b: nat | HasRow(members, b)
      ensures HasRow(members', b)
    {
      var i :| 0 <= i < |members| && members[i].batchId == b;
      assert members'[i].batchId == b;
    }
  }

  lemma AdvanceTrail(cfg: Config, s: Sys, tid: nat, now: Time, c: Choice)
    requires Interleaving.Inv(s) && TrailOk(s) && tid in s.threads
    ensures TrailOk(Step(cfg, s, Advance(tid, now, c)))
  {
    hide Move, EventKey, Owed, Earned, About, Knows, Wrote, Raises, Learns, Interleaving.Grows, Interleaving.ThreadOk;
    var t := s.threads[tid];
    var m := Move(cfg, s, t, now, c);
    KnowsOrder(s, tid);
    MoveWrites(cfg, s, t, now, c);
    MoveRaises(cfg, s, t, now, c);
    Interleaving.MoveKeeps(cfg, s, t, now, c);
    Interleaving.MoveLeavesThreads(cfg, s, t, now, c);
    var s' := m.0.(threads := s.threads[tid := m.1]);
    assert s' == Step(cfg, s, Advance(tid, now, c));
    forall e, b: nat | Owed(s', e, b)
      ensures HasKey(s'.w.outbox, EventKey(e, b)) || About(s', e, b)
    {
      OwedStays(s, m.0, tid, m.1, e, b);
    }
    forall e, b: nat | BatchEvent(e) && HasKey(s'.w.outbox, EventKey(e, b))
      ensures Earned(s', e, b)
    {
      EarnedStays(s, m.0, tid, m.1, e, b);
    }
    forall x | x in s'.threads
      ensures Knows(s'.w, s'.threads[x])
    {
      KnowsStays(s, m.0, tid, m.1, x);
    }
    WroteSeen(s.w, m.0.w, t);
  }

  lemma WroteSeen(w: World, w': World, t: Thread)
    requires Wrote(w, w', t)
    ensures SeenOk(w')
  {
  }

  lemma KnowsOrder(s: Sys, tid: nat)
    requires Interleaving.Inv(s) && tid in s.threads
    ensures Ordered(s.w, s.threads[tid])
  {
    hide BatchesOk, Interleaving.NotionalsOk, Interleaving.MembersOk, Interleaving.HistoryOk, HasOrder;
    assert Interleaving.ThreadOk(s, s.threads[tid]);
  }

  lemma OutsideTrail(s: Sys, s': Sys)
    requires TrailOk(s) && s'.w.members == s.w.members && s'.w.batches == s.w.batches
    requires s'.closes == s.closes && s'.fills == s.fills && SeenOk(s'.w)
    requires forall k :: HasKey(s.w.outbox, k) ==> HasKey(s'.w.outbox, k)
    requires forall e, b: nat ::
      BatchEvent(e) && HasKey(s'.w.outbox, EventKey(e, b)) ==> HasKey(s.w.outbox, EventKey(e, b))
    requires forall x :: x in s.threads ==> x in s'.threads && s'.threads[x] == s.threads[x]
    requires forall x :: x in s'.threads && x !in s.threads ==> Starting(s'.threads[x])
    ensures TrailOk(s')
  {
    hide EventKey, HasKey, HasRow;
    forall e, b: nat | Owed(s', e, b)
      ensures HasKey(s'.w.outbox, EventKey(e, b)) || About(s', e, b)
    {
      assert Owed(s, e, b);
      if !HasKey(s.w.outbox, EventKey(e, b)) {
        var x :| x in s.threads && Emits(s.threads[x], e, b);
        assert s'.threads[x] == s.threads[x];
      }
    }
    forall e, b: nat | BatchEvent(e) && HasKey(s'.w.outbox, EventKey(e, b))
      ensures Earned(s', e, b)
    {
      assert Earned(s, e, b);
    }
    forall x | x in s'.threads
      ensures Knows(s'.w, s'.threads[x])
    {
      if x in s.threads {
        assert Knows(s.w, s.threads[x]);
      }
    }
  }

  lemma StepTrail(cfg: Config, s: Sys, a: Action)
    requires Interleaving.Inv(s) && TrailOk(s) && OutboxKept(s.w, a)
    ensures TrailOk(Step(cfg, s, a))
  {
    if a.Advance? && a.tid in s.threads {
      hide TrailOk, Interleaving.Inv;
      AdvanceTrail(cfg, s, a.tid, a.now, a.c);
    } else {
      hide Move, EventKey, Interleaving.Inv, Owed, Earned, About, Knows;
      OutsideTrail(s, Step(cfg, s, a));
    }
  }

  lemma {:induction false} RunTrail(cfg: Config, s: Sys, acts: seq<Action>)
    requires Interleaving.Inv(s) && TrailOk(s) && OutboxOnly(cfg, s, acts)
    ensures TrailOk(Run(cfg, s, acts))
    decreases |acts|
  {
    hide Step, TrailOk, OutboxKept, Interleaving.Inv;
    if acts != [] {
      Interleaving.StepKeeps(cfg, s, acts[0]);
      StepTrail(cfg, s, acts[0]);
      RunTrail(cfg, Step(cfg, s, acts[0]), acts[1..]);
    }
  }

  /** What a dispatcher pass and a foreign entry do is within these limits. */
  lemma PassesAreKept(
      w: World, c: Ledger.Clients, limit: int, fates: Ledger.Fates, now: Time, floats: seq<FloatPosition>)
    requires SeenOk(w)
    ensures OutboxKept(w, Outside(floats, Ledger.Dispatched(c, w.outbox, limit, fates, now, |w.outbox|), w.outboxSeen))
  {
    hide EventKey, Ledger.Listed, Ledger.Delivered;
    var rows := Ledger.Dispatched(c, w.outbox, limit, fates, now, |w.outbox|);
    forall k
      ensures HasKey(rows, k) <==> HasKey(w.outbox, k)
    {
      SameKeys(w.outbox, rows, k);
    }
  }

  lemma SameKeys(rows: seq<OutboxEntry>, rows': seq<OutboxEntry>, k: string)
    requires |rows'| == |rows| && forall i :: 0 <= i < |rows| ==> rows'[i].dedupKey == rows[i].dedupKey
    ensures HasKey(rows', k) <==> HasKey(rows, k)
  {
    if HasKey(rows, k) {
      var i :| 0 <= i < |rows| && rows[i].dedupKey == k;
      assert rows'[i].dedupKey == k;
    }
  }

  lemma ForeignEntryIsKept(w: World, p: Payload, id: nat, floats: seq<FloatPosition>)
    requires SeenOk(w) && !BatchEvent(p.eventType) && p.aggregate == AggregateOf(p.eventType)
    ensures OutboxKept(w, Outside(floats, Emitted(w, p, id).outbox, Emitted(w, p, id).outboxSeen))
  {
    hide EventKey, Emitted;
    EmittedKeys(w, p, id);
    forall e, b: nat | BatchEvent(e) && EventKey(e, b) == EventKey(p.eventType, id)
      ensures false
    {
      EventKeyInjective(e, b, p.eventType, id);
    }
  }

  lemma StartTrail()
    ensures TrailOk(START)
  {
  }

  /** Under any interleaving every batch that has a row, was closed or is settled has its entries, or a thread is about
      to write them; and no entry is written for a batch that was not opened, closed or filled. */
  lemma TrailComplete(cfg: Config, acts: seq<Action>, e: EventType, b: nat)
    requires OutboxOnly(cfg, START, acts) && BatchEvent(e)
    ensures var s := Run(cfg, START, acts);
            && (Owed(s, e, b) ==> HasKey(s.w.outbox, EventKey(e, b)) || About(s, e, b))
            && (HasKey(s.w.outbox, EventKey(e, b)) ==> Earned(s, e, b))
  {
    hide Run, OutboxOnly, Owed, Earned, About, Interleaving.Inv;
    Concurrency.Reachable(cfg, []);
    NothingRun(cfg);
    StartTrail();
    RunTrail(cfg, START, acts);
  }

  lemma NothingRun(cfg: Config)
    ensures Run(cfg, START, []) == START
  {
  }
}
