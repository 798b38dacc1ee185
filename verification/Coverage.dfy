/** What the orders cover: every notional remembers how many membership rows the sum behind it had read. */
module Coverage {
  import opened Base
  import opened Records
  import opened Configuration
  import opened Memstore
  import opened Idempotency
  import opened Pipeline
  import opened Threads
  import Concurrency
  import Interleaving
  import Ledger
  import Pairs
  import Simulation

  // --- Rows read, carried along a run ---

  /** The length of the membership table when a sum was read: for the sum or copy a thread holds, the notional of each
      batch and the notional of each order. */
  datatype Reads = Reads(held: map<nat, nat>, batches: seq<nat>, orders: seq<nat>)

  const NO_READS := Reads(map[], [], [])

  function HeldBy(h: Reads, tid: nat): nat {
    if tid in h.held then h.held[tid] else 0
  }

  /** What one move of a thread reads and writes. */
  function MoveReads(w: World, h: Reads, tid: nat, t: Thread): Reads {
    match t
    case HOpen(ev) =>
      if FindOpen(w.batches, PairOf(ev)) < |w.batches| then h else h.(batches := h.batches + [|w.members|])
    case HSum(_) => h.(held := h.held[tid := |w.members|])
    case HSet(b, _) => if b < |h.batches| then h.(batches := h.batches[b := HeldBy(h, tid)]) else h
    case CSum(_) => h.(held := h.held[tid := |w.members|])
    case CUpdate(b, _) =>
      if b < |w.batches| && b < |h.batches| && w.batches[b].status == Open
      then h.(batches := h.batches[b := HeldBy(h, tid)]) else h
    case SGet(b) => if b < |h.batches| then h.(held := h.held[tid := h.batches[b]]) else h
    case SCreate(copy) => if HasOrder(w.orders, copy.id) then h else h.(orders := h.orders + [HeldBy(h, tid)])
    case _ => h
  }

  function StepReads(s: Sys, h: Reads, a: Action): Reads {
    if a.Advance? && a.tid in s.threads then MoveReads(s.w, h, a.tid, s.threads[a.tid]) else h
  }

  function RunReads(cfg: Config, s: Sys, h: Reads, acts: seq<Action>): Reads
    decreases |acts|
  {
    if acts == [] then h else RunReads(cfg, Step(cfg, s, acts[0]), StepReads(s, h, acts[0]), acts[1..])
  }

  // --- Every notional is the sum of the rows read ---

  /** The value is the batch's notional over the first k rows. */
  ghost predicate SumOfRead(members: seq<Membership>, b: nat, v: Decimal, k: nat) {
    k <= |members| && SumFor(members[..k], b) == v
  }

  ghost predicate BatchReads(w: World, h: Reads) {
    |h.batches| == |w.batches|
    && forall b :: 0 <= b < |w.batches| ==> SumOfRead(w.members, b, w.batches[b].notionalUSD, h.batches[b])
  }

  ghost predicate OrderReads(w: World, h: Reads) {
    |h.orders| == |w.orders|
    && forall i :: 0 <= i < |w.orders| ==>
         SumOfRead(w.members, w.orders[i].batchId, w.orders[i].notionalUSD, h.orders[i])
  }

  ghost predicate ThreadReads(w: World, t: Thread, k: nat) {
    && (t.HSet? || t.CUpdate? ==> SumOfRead(w.members, t.b, t.sum, k))
    && (t.SCreate? ==> SumOfRead(w.members, t.copy.id, t.copy.notionalUSD, k))
  }

  ghost predicate ReadsOk(s: Sys, h: Reads) {
    && BatchReads(s.w, h) && OrderReads(s.w, h)
    && (forall x :: x in s.threads ==> ThreadReads(s.w, s.threads[x], HeldBy(h, x)))
  }

  lemma SumOfReadGrows(members: seq<Membership>, members': seq<Membership>, b: nat, v: Decimal, k: nat)
    requires SumOfRead(members, b, v, k) && members <= members'
    ensures SumOfRead(members', b, v, k)
  {
    assert members'[..k] == members[..k];
  }

  lemma WholeTableRead(members: seq<Membership>, b: nat)
    ensures SumOfRead(members, b, SumFor(members, b), |members|)
  {
    assert members[..|members|] == members;
  }

  /** Notionals are as before; rows may have been added. */
  ghost predicate SameNotionals(w: World, w': World) {
    && w.members <= w'.members && |w'.batches| == |w.batches| && |w'.orders| == |w.orders|
    && (forall b :: 0 <= b < |w.batches| ==> w'.batches[b].notionalUSD == w.batches[b].notionalUSD)
    && (forall i :: 0 <= i < |w.orders| ==>
          w'.orders[i].batchId == w.orders[i].batchId && w'.orders[i].notionalUSD == w.orders[i].notionalUSD)
  }

  lemma SameNotionalsKeep(w: World, w': World, h: Reads)
    requires BatchReads(w, h) && OrderReads(w, h) && SameNotionals(w, w')
    ensures BatchReads(w', h) && OrderReads(w', h)
  {
    forall b | 0 <= b < |w.batches|
      ensures SumOfRead(w'.members, b, w'.batches[b].notionalUSD, h.batches[b])
    {
      SumOfReadGrows(w.members, w'.members, b, w.batches[b].notionalUSD, h.batches[b]);
    }
    forall i | 0 <= i < |w.orders|
      ensures SumOfRead(w'.members, w'.orders[i].batchId, w'.orders[i].notionalUSD, h.orders[i])
    {
      SumOfReadGrows(w.members, w'.members, w.orders[i].batchId, w.orders[i].notionalUSD, h.orders[i]);
    }
  }

  predicate Writes(t: Thread) {
    t.HOpen? || t.HSet? || t.CUpdate? || t.SCreate?
  }

  lemma QuietMove(cfg: Config, s: Sys, t: Thread, now: Time, c: Choice)
    requires !Writes(t)
    ensures SameNotionals(s.w, Move(cfg, s, t, now, c).0.w)
  {
    hide Handle, Close, Submit, Settle, SameNotionals;
    if t.Done? {
      SameAsBefore(s.w);
    } else if Handling(t) || Closing(t) {
      QuietIntake(cfg, s, t, now, c);
    } else if Settling(t) {
      QuietSettle(cfg, s, t, now, c);
    } else {
      QuietSubmit(cfg, s, t, now, c);
    }
  }

  lemma QuietIntake(cfg: Config, s: Sys, t: Thread, now: Time, c: Choice)
    requires (Handling(t) || Closing(t)) && !Writes(t)
    ensures SameNotionals(s.w, Move(cfg, s, t, now, c).0.w)
  {
    hide TxKey, Held, Submit, Settle, Ledger.Key, SumFor, MembersOf;
  }

  lemma SameAsBefore(w: World)
    ensures SameNotionals(w, w)
  {
  }

  lemma QuietSubmit(cfg: Config, s: Sys, t: Thread, now: Time, c: Choice)
    requires t.SGet? || t.SCheck? || t.SExec? || t.SClaim? || t.SSubmit? || t.SFill?
    ensures SameNotionals(s.w, Submit(cfg, s, t, now, c).0.w)
  {
    hide AggKey, Held;
  }

  lemma QuietSettle(cfg: Config, s: Sys, t: Thread, now: Time, c: Choice)
    requires Settling(t)
    ensures SameNotionals(s.w, Settle(cfg, s, t, now, c).0.w)
  {
    hide HedgeKey, Held, Pairs.FiatOf, Pairs.CryptoOf;
  }

  lemma OpenRead(w: World, w': World, h: Reads, tid: nat, ev: TxEvent, now: Time)
    requires BatchReads(w, h) && OrderReads(w, h) && Interleaving.MembersOk(w)
    requires w' == w.(batches := WithOpenBatch(w.batches, PairOf(ev), now))
    ensures BatchReads(w', MoveReads(w, h, tid, HOpen(ev))) && OrderReads(w', MoveReads(w, h, tid, HOpen(ev)))
  {
    SumForNobody(w.members, |w.batches|);
    WholeTableRead(w.members, |w.batches|);
  }

  lemma SetRead(w: World, w': World, h: Reads, tid: nat, b: nat, sum: Decimal)
    requires BatchReads(w, h) && OrderReads(w, h) && SumOfRead(w.members, b, sum, HeldBy(h, tid))
    requires w' == w.(batches := WithNotional(w.batches, b, sum))
    ensures BatchReads(w', MoveReads(w, h, tid, HSet(b, sum))) && OrderReads(w', MoveReads(w, h, tid, HSet(b, sum)))
  {
  }

  lemma UpdateRead(w: World, w': World, h: Reads, tid: nat, b: nat, sum: Decimal, now: Time)
    requires BatchReads(w, h) && OrderReads(w, h) && SumOfRead(w.members, b, sum, HeldBy(h, tid))
    requires w' == w.(batches := WithStatus(w.batches, b, Open, Closed, Some(sum), now).0)
    ensures BatchReads(w', MoveReads(w, h, tid, CUpdate(b, sum)))
    ensures OrderReads(w', MoveReads(w, h, tid, CUpdate(b, sum)))
  {
  }

  lemma CreateRead(w: World, w': World, h: Reads, tid: nat, copy: Batch)
    requires BatchReads(w, h) && OrderReads(w, h) && SumOfRead(w.members, copy.id, copy.notionalUSD, HeldBy(h, tid))
    requires w' == w.(orders := WithOrder(w.orders, copy.id, copy.assetPair, copy.notionalUSD))
    ensures BatchReads(w', MoveReads(w, h, tid, SCreate(copy))) && OrderReads(w', MoveReads(w, h, tid, SCreate(copy)))
  {
  }

  lemma MoveKeepsReads(cfg: Config, s: Sys, h: Reads, tid: nat, t: Thread, now: Time, c: Choice)
    requires BatchReads(s.w, h) && OrderReads(s.w, h) && ThreadReads(s.w, t, HeldBy(h, tid))
    requires Interleaving.MembersOk(s.w)
    ensures var w', h' := Move(cfg, s, t, now, c).0.w, MoveReads(s.w, h, tid, t);
            BatchReads(w', h') && OrderReads(w', h') && s.w.members <= w'.members
  {
    hide Move, BatchReads, OrderReads, SumOfRead, MoveReads, Interleaving.MembersOk;
    hide WithOpenBatch, WithNotional, WithStatus;
    var w' := Move(cfg, s, t, now, c).0.w;
    WritingMove(cfg, s, t, now, c);
    match t {
      case HOpen(ev) => OpenRead(s.w, w', h, tid, ev, now);
      case HSet(b, sum) => SetRead(s.w, w', h, tid, b, sum);
      case CUpdate(b, sum) => UpdateRead(s.w, w', h, tid, b, sum, now);
      case SCreate(copy) => CreateRead(s.w, w', h, tid, copy);
      case _ => QuietMoveReads(cfg, s, h, tid, t, now, c);
    }
  }

  lemma QuietMoveReads(cfg: Config, s: Sys, h: Reads, tid: nat, t: Thread, now: Time, c: Choice)
    requires !Writes(t) && BatchReads(s.w, h) && OrderReads(s.w, h)
    ensures var w', h' := Move(cfg, s, t, now, c).0.w, MoveReads(s.w, h, tid, t);
            BatchReads(w', h') && OrderReads(w', h') && s.w.members <= w'.members
  {
    hide Move, BatchReads, OrderReads, MoveReads;
    QuietMove(cfg, s, t, now, c);
    SameNotionalsKeep(s.w, Move(cfg, s, t, now, c).0.w, h);
    HeldOnly(s.w, h, tid, t, Move(cfg, s, t, now, c).0.w);
  }

  lemma WritingMove(cfg: Config, s: Sys, t: Thread, now: Time, c: Choice)
    ensures var w' := Move(cfg, s, t, now, c).0.w;
            match t
            case HOpen(ev) => w' == s.w.(batches := WithOpenBatch(s.w.batches, PairOf(ev), now))
            case HSet(b, sum) => w' == s.w.(batches := WithNotional(s.w.batches, b, sum))
            case CUpdate(b, sum) => w' == s.w.(batches := WithStatus(s.w.batches, b, Open, Closed, Some(sum), now).0)
            case SCreate(copy) => w' == s.w.(orders := WithOrder(s.w.orders, copy.id, copy.assetPair, copy.notionalUSD))
            case _ => true
  {
    hide Settle, WithOpenBatch, WithNotional, WithOrder, PairOf, TxKey, AggKey;
  }

  /** Other moves at most change what the thread holds. */
  lemma HeldOnly(w: World, h: Reads, tid: nat, t: Thread, w': World)
    requires !Writes(t) && BatchReads(w', h) && OrderReads(w', h)
    ensures BatchReads(w', MoveReads(w, h, tid, t)) && OrderReads(w', MoveReads(w, h, tid, t))
  {
  }

  predicate Holds(t: Thread) {
    t.HSet? || t.CUpdate? || t.SCreate?
  }

  /** A thread comes to hold a sum or a copy by reading it. */
  lemma StartsHolding(cfg: Config, s: Sys, t: Thread, now: Time, c: Choice)
    ensures var (s', t') := Move(cfg, s, t, now, c);
            && (Holds(t') ==> s' == s)
            && (t'.HSet? ==> t.HSum? && t'.b == t.b && t'.sum == SumFor(s.w.members, t.b))
            && (t'.CUpdate? ==> t.CSum? && t'.b == t.b && t'.sum == SumFor(s.w.members, t.b))
            && (t'.SCreate? ==> t.SGet? && t.b < |s.w.batches| && t'.copy == s.w.batches[t.b])
  {
    hide Handle, Close, Submit, Settle;
    if Settling(t) {
      Interleaving.SettleMoveThread(cfg, s, t, now, c);
    } else if Placing(t) {
      SubmitHolds(cfg, s, t, now, c);
    } else if Handling(t) {
      HandleHolds(s, t, now, c);
    } else if Closing(t) {
      CloseHolds(s, t, now);
    }
  }

  lemma HandleHolds(s: Sys, t: Thread, now: Time, c: Choice)
    requires Handling(t)
    ensures var (s', t') := Handle(s, t, now, c);
            Holds(t') ==> t'.HSet? && s' == s && t.HSum? && t'.b == t.b && t'.sum == SumFor(s.w.members, t.b)
  {
    hide TxKey, Held, Emitted, WithOpenBatch, WithNotional, MembersOf, SumFor, FindOpen;
  }

  lemma CloseHolds(s: Sys, t: Thread, now: Time)
    requires Closing(t)
    ensures var (s', t') := Close(s, t, now);
            Holds(t') ==> t'.CUpdate? && s' == s && t.CSum? && t'.b == t.b && t'.sum == SumFor(s.w.members, t.b)
  {
    hide Emitted, WithStatus, SumFor;
  }

  lemma SubmitHolds(cfg: Config, s: Sys, t: Thread, now: Time, c: Choice)
    requires Placing(t)
    ensures var (s', t') := Submit(cfg, s, t, now, c);
            && (Holds(t') ==> t'.SCreate? && s' == s && t.SGet? && t.b < |s.w.batches| && t'.copy == s.w.batches[t.b])
  {
    hide AggKey, Held, WithOrder, WithStatus, WithFill, HasOrder, OrderOf;
  }

  lemma MoveHolds(cfg: Config, s: Sys, h: Reads, tid: nat, t: Thread, now: Time, c: Choice)
    requires BatchReads(s.w, h) && BatchesOk(s.w)
    ensures var (s', t') := Move(cfg, s, t, now, c);
            ThreadReads(s'.w, t', HeldBy(MoveReads(s.w, h, tid, t), tid))
  {
    hide Move;
    StartsHolding(cfg, s, t, now, c);
    if t.HSum? || t.CSum? {
      WholeTableRead(s.w.members, t.b);
    }
  }

  lemma StepKeepsReads(cfg: Config, s: Sys, h: Reads, a: Action)
    requires Interleaving.Inv(s) && ReadsOk(s, h)
    ensures ReadsOk(Step(cfg, s, a), StepReads(s, h, a))
  {
    if a.Advance? && a.tid in s.threads {
      var t := s.threads[a.tid];
      var m := Move(cfg, s, t, a.now, a.c);
      MoveKeepsReads(cfg, s, h, a.tid, t, a.now, a.c);
      MoveHolds(cfg, s, h, a.tid, t, a.now, a.c);
      Interleaving.MoveLeavesThreads(cfg, s, t, a.now, a.c);
      OthersHold(s, h, a.tid, m.0, m.1);
    }
  }

  lemma OthersHold(s: Sys, h: Reads, tid: nat, m: Sys, t': Thread)
    requires tid in s.threads && ReadsOk(s, h) && m.threads == s.threads && s.w.members <= m.w.members
    requires var h' := MoveReads(s.w, h, tid, s.threads[tid]);
             BatchReads(m.w, h') && OrderReads(m.w, h') && ThreadReads(m.w, t', HeldBy(h', tid))
    ensures ReadsOk(m.(threads := m.threads[tid := t']), MoveReads(s.w, h, tid, s.threads[tid]))
  {
    hide BatchReads, OrderReads;
    var h' := MoveReads(s.w, h, tid, s.threads[tid]);
    forall x | x in s.threads && x != tid
      ensures ThreadReads(m.w, s.threads[x], HeldBy(h', x))
    {
      var t, k := s.threads[x], HeldBy(h, x);
      assert HeldBy(h', x) == k && ThreadReads(s.w, t, k);
      if t.HSet? || t.CUpdate? {
        SumOfReadGrows(s.w.members, m.w.members, t.b, t.sum, k);
      } else if t.SCreate? {
        SumOfReadGrows(s.w.members, m.w.members, t.copy.id, t.copy.notionalUSD, k);
      }
    }
  }

  lemma {:induction false} RunKeepsReads(cfg: Config, s: Sys, h: Reads, acts: seq<Action>)
    requires Interleaving.Inv(s) && ReadsOk(s, h)
    ensures ReadsOk(Run(cfg, s, acts), RunReads(cfg, s, h, acts))
    decreases |acts|
  {
    hide Step, StepReads, ReadsOk, Interleaving.Inv;
    if acts != [] {
      Interleaving.StepKeeps(cfg, s, acts[0]);
      StepKeepsReads(cfg, s, h, acts[0]);
      RunKeepsReads(cfg, Step(cfg, s, acts[0]), StepReads(s, h, acts[0]), acts[1..]);
    }
  }

  lemma ReadsReachable(cfg: Config, acts: seq<Action>)
    ensures Interleaving.Inv(Run(cfg, START, acts))
    ensures ReadsOk(Run(cfg, START, acts), RunReads(cfg, START, NO_READS, acts))
  {
    hide Interleaving.Inv;
    Concurrency.Reachable(cfg, []);
    Concurrency.Reachable(cfg, acts);
    assert Run(cfg, START, []) == START;
    RunKeepsReads(cfg, START, NO_READS, acts);
  }

  // --- Exactly which rows an order covers ---

  ghost predicate RowsBefore(members: seq<Membership>, b: nat, k: nat) {
    k <= |members| && forall i :: k <= i < |members| ==> members[i].batchId != b
  }

  ghost predicate Positive(members: seq<Membership>) {
    forall i :: 0 <= i < |members| ==> members[i].notionalUSD > 0.0
  }

  lemma {:induction false} LaterRowsAdd(members: seq<Membership>, b: nat, k: nat)
    requires k <= |members| && Positive(members)
    ensures SumFor(members[..k], b) <= SumFor(members, b)
    ensures SumFor(members[..k], b) == SumFor(members, b) <==> RowsBefore(members, b, k)
  {
    if k == |members| {
      assert members[..k] == members;
    } else {
      var rest := members[..|members| - 1];
      LaterRowsAdd(rest, b, k);
      assert rest[..k] == members[..k];
      if RowsBefore(rest, b, k) && members[|members| - 1].batchId != b {
        assert RowsBefore(members, b, k);
      }
    }
  }

  lemma {:induction false} SumForSplit(members: seq<Membership>, b: nat, k: nat)
    requires k <= |members|
    ensures SumFor(members, b) == SumFor(members[..k], b) + SumFor(members[k..], b)
  {
    if k == |members| {
      assert members[..k] == members && members[k..] == [];
    } else {
      var rest := members[..|members| - 1];
      SumForSplit(rest, b, k);
      assert rest[..k] == members[..k] && members[k..][..|members[k..]| - 1] == rest[k..];
    }
  }

  /** An order carries exactly the rows of its batch that had been recorded when the sum behind it was read: it is short
      by the rows recorded after that read. With positive amounts it covers the batch exactly when there are none. */
  lemma OrderCoversRowsRead(cfg: Config, acts: seq<Action>, i: nat)
    requires i < |Run(cfg, START, acts).w.orders|
    ensures var w, h := Run(cfg, START, acts).w, RunReads(cfg, START, NO_READS, acts);
            var o := w.orders[i];
            && i < |h.orders| && h.orders[i] <= |w.members|
            && o.notionalUSD == SumFor(w.members[..h.orders[i]], o.batchId)
            && SumFor(w.members, o.batchId) - o.notionalUSD == SumFor(w.members[h.orders[i]..], o.batchId)
            && (Positive(w.members) ==>
                  (o.notionalUSD == SumFor(w.members, o.batchId) <==> RowsBefore(w.members, o.batchId, h.orders[i])))
  {
    hide Run, RunReads;
    ReadsReachable(cfg, acts);
    var w, h := Run(cfg, START, acts).w, RunReads(cfg, START, NO_READS, acts);
    SumForSplit(w.members, w.orders[i].batchId, h.orders[i]);
    if Positive(w.members) {
      LaterRowsAdd(w.members, w.orders[i].batchId, h.orders[i]);
    }
  }

  /** The read behind an order is made before the order exists and never again: every row of the batch recorded since
      is missing from it, in every continuation. */
  lemma LaterRowsMissed(cfg: Config, acts: seq<Action>, more: seq<Action>, i: nat)
    requires i < |Run(cfg, START, acts).w.orders|
    ensures var w, w' := Run(cfg, START, acts).w, Run(cfg, Run(cfg, START, acts), more).w;
            var h := RunReads(cfg, START, NO_READS, acts);
            && i < |h.orders| && h.orders[i] <= |w.members| <= |w'.members| && i < |w'.orders|
            && w'.orders[i].batchId == w.orders[i].batchId
            && SumFor(w'.members, w'.orders[i].batchId) - w'.orders[i].notionalUSD
               == SumFor(w'.members[h.orders[i]..], w'.orders[i].batchId)
  {
    hide Run, RunReads;
    ReadsReachable(cfg, acts);
    Concurrency.NothingMovesBack(cfg, acts, more);
    var w, w' := Run(cfg, START, acts).w, Run(cfg, Run(cfg, START, acts), more).w;
    var k, b := RunReads(cfg, START, NO_READS, acts).orders[i], w.orders[i].batchId;
    assert w'.members[..k] == w.members[..k];
    SumForSplit(w'.members, b, k);
  }

  // --- When an order covers its batch for good ---

  ghost predicate Covers(w: World, i: nat) {
    i < |w.orders| && w.orders[i].notionalUSD == SumFor(w.members, w.orders[i].batchId)
  }

  ghost predicate CoversForGood(cfg: Config, s: Sys, i: nat) {
    forall more :: Covers(Run(cfg, s, more).w, i)
  }

  /** A consumer is about to record an amount in the batch. */
  predicate Adding(t: Thread, b: nat, byTx: set<string>) {
    (t.HList? || t.HAdd?) && t.b == b && t.ev.txId !in byTx && BookedNotional(t.ev) != 0.0
  }

  ghost predicate NobodyAdds(s: Sys, b: nat) {
    forall x :: x in s.threads ==> !Adding(s.threads[x], b, s.w.byTx)
  }

  /** The batch is no longer OPEN and nobody is about to add to it. */
  ghost predicate Finished(s: Sys, b: nat) {
    b < |s.w.batches| && s.w.batches[b].status != Open && NobodyAdds(s, b)
  }

  /** What a move does to the rows of a batch that is not OPEN. */
  lemma MoveAddsNothing(cfg: Config, s: Sys, t: Thread, now: Time, c: Choice, b: nat)
    requires b < |s.w.batches| && s.w.batches[b].status != Open && !Adding(t, b, s.w.byTx)
    ensures var (s', t') := Move(cfg, s, t, now, c);
            && SumFor(s'.w.members, b) == SumFor(s.w.members, b) && s.w.byTx <= s'.w.byTx
            && !Adding(t', b, s'.w.byTx)
  {
    hide Submit, Settle, Close, Handle, SumFor;
    if t.Done? {
    } else if Closing(t) {
      CloseAddsNothing(s, t, now);
    } else if Settling(t) {
      SettleAddsNothing(cfg, s, t, now, c);
    } else if Placing(t) {
      SubmitAddsNothing(cfg, s, t, now, c);
    } else {
      HandleAddsNothing(s, t, now, c, b);
    }
  }

  lemma HandleAddsNothing(s: Sys, t: Thread, now: Time, c: Choice, b: nat)
    requires Handling(t)
    requires b < |s.w.batches| && s.w.batches[b].status != Open && !Adding(t, b, s.w.byTx)
    ensures var (s', t') := Handle(s, t, now, c);
            && SumFor(s'.w.members, b) == SumFor(s.w.members, b) && s.w.byTx <= s'.w.byTx
            && !Adding(t', b, s'.w.byTx)
  {
    hide TxKey, Held, SumFor, WithOpenBatch, WithNotional, MembersOf, PairOf, Ledger.Key;
    if t.HAdd? {
      SumForAppend(s.w.members, MembershipFor(t.ev, t.b), b);
    }
  }

  lemma CloseAddsNothing(s: Sys, t: Thread, now: Time)
    requires Closing(t)
    ensures var (s', t') := Close(s, t, now);
            s'.w.members == s.w.members && s'.w.byTx == s.w.byTx && !t'.HList? && !t'.HAdd?
  {
  }

  lemma SubmitAddsNothing(cfg: Config, s: Sys, t: Thread, now: Time, c: Choice)
    requires Placing(t)
    ensures var (s', t') := Submit(cfg, s, t, now, c);
            s'.w.members == s.w.members && s'.w.byTx == s.w.byTx && !t'.HList? && !t'.HAdd?
  {
    hide AggKey, Held, WithOrder, WithStatus, WithFill, HasOrder, OrderOf;
  }

  lemma SettleAddsNothing(cfg: Config, s: Sys, t: Thread, now: Time, c: Choice)
    requires Settling(t)
    ensures var (s', t') := Settle(cfg, s, t, now, c);
            s'.w.members == s.w.members && s'.w.byTx == s.w.byTx && !t'.HList? && !t'.HAdd?
  {
    hide HedgeKey, Held, Pairs.FiatOf, Pairs.CryptoOf, WithStatus, WithSettled, HasOrder, OrderOf;
  }

  lemma StepAddsNothing(cfg: Config, s: Sys, a: Action, b: nat)
    requires Interleaving.Inv(s) && Finished(s, b)
    ensures Finished(Step(cfg, s, a), b) && SumFor(Step(cfg, s, a).w.members, b) == SumFor(s.w.members, b)
  {
    hide Move, SumFor;
    Interleaving.StepKeeps(cfg, s, a);
    if a.Advance? && a.tid in s.threads {
      MoveAddsNothing(cfg, s, s.threads[a.tid], a.now, a.c, b);
      Interleaving.MoveLeavesThreads(cfg, s, s.threads[a.tid], a.now, a.c);
    }
  }

  lemma {:induction false} RunAddsNothing(cfg: Config, s: Sys, acts: seq<Action>, b: nat)
    requires Interleaving.Inv(s) && Finished(s, b)
    ensures SumFor(Run(cfg, s, acts).w.members, b) == SumFor(s.w.members, b)
    decreases |acts|
  {
    hide Step, Finished, SumFor;
    if acts != [] {
      Interleaving.StepKeeps(cfg, s, acts[0]);
      StepAddsNothing(cfg, s, acts[0], b);
      RunAddsNothing(cfg, Step(cfg, s, acts[0]), acts[1..], b);
    }
  }

  /** A thread about to add an amount adds it within two moves. */
  lemma AdderAdds(cfg: Config, s: Sys, tid: nat, b: nat) returns (acts: seq<Action>)
    requires tid in s.threads && Adding(s.threads[tid], b, s.w.byTx)
    ensures SumFor(Run(cfg, s, acts).w.members, b) == SumFor(s.w.members, b) + BookedNotional(s.threads[tid].ev)
  {
    var t, c := s.threads[tid], Choice(false, Simulation.CALM);
    var a := Advance(tid, 0, c);
    SumForAppend(s.w.members, MembershipFor(t.ev, b), b);
    var s1 := Step(cfg, s, a);
    if t.HAdd? {
      acts := [a];
    } else {
      acts := [a] + [a];
      Simulation.RunSplit(cfg, s, [a], [a]);
      Simulation.RunOne(cfg, s1, a);
    }
    Simulation.RunOne(cfg, s, a);
  }

  /** An order covers its batch in every continuation exactly when it covers it now and no consumer that found the batch
      open is still about to add an amount to it. */
  lemma CoversForGoodIff(cfg: Config, acts: seq<Action>, i: nat)
    requires i < |Run(cfg, START, acts).w.orders|
    ensures var s := Run(cfg, START, acts);
            CoversForGood(cfg, s, i) <==> Covers(s.w, i) && NobodyAdds(s, s.w.orders[i].batchId)
  {
    hide Interleaving.Inv, Run, NobodyAdds, CoversForGood;
    Concurrency.Reachable(cfg, acts);
    var s := Run(cfg, START, acts);
    if Covers(s.w, i) && NobodyAdds(s, s.w.orders[i].batchId) {
      CoversForGoodIf(cfg, s, i);
    }
    if CoversForGood(cfg, s, i) {
      CoversForGoodOnlyIf(cfg, s, i);
    }
  }

  lemma CoversForGoodIf(cfg: Config, s: Sys, i: nat)
    requires Interleaving.Inv(s) && i < |s.w.orders| && Covers(s.w, i) && NobodyAdds(s, s.w.orders[i].batchId)
    ensures CoversForGood(cfg, s, i)
  {
    hide Interleaving.Inv, Interleaving.Grows, NobodyAdds, Run, SumFor;
    OrderedIsClosed(s, i);
    forall more
      ensures Covers(Run(cfg, s, more).w, i)
    {
      Interleaving.RunKeeps(cfg, s, more);
      RunAddsNothing(cfg, s, more, s.w.orders[i].batchId);
      OrderKept(s, Run(cfg, s, more), i);
    }
  }

  lemma OrderKept(s: Sys, s': Sys, i: nat)
    requires Interleaving.Grows(s, s') && i < |s.w.orders|
    ensures i < |s'.w.orders| && s'.w.orders[i].batchId == s.w.orders[i].batchId
            && s'.w.orders[i].notionalUSD == s.w.orders[i].notionalUSD
  {
  }

  lemma OrderedIsClosed(s: Sys, i: nat)
    requires Interleaving.Inv(s) && i < |s.w.orders|
    ensures s.w.orders[i].batchId < |s.w.batches| && s.w.batches[s.w.orders[i].batchId].status != Open
  {
  }

  lemma CoversForGoodOnlyIf(cfg: Config, s: Sys, i: nat)
    requires Interleaving.Inv(s) && i < |s.w.orders| && CoversForGood(cfg, s, i)
    ensures Covers(s.w, i) && NobodyAdds(s, s.w.orders[i].batchId)
  {
    hide Interleaving.Inv, Interleaving.Grows, SumFor;
    var b := s.w.orders[i].batchId;
    assert Run(cfg, s, []) == s;
    assert Covers(Run(cfg, s, []).w, i);
    if !NobodyAdds(s, b) {
      var x :| x in s.threads && Adding(s.threads[x], b, s.w.byTx);
      var more := AdderAdds(cfg, s, x, b);
      assert Covers(Run(cfg, s, more).w, i);
      Interleaving.RunKeeps(cfg, s, more);
      OrderKept(s, Run(cfg, s, more), i);
      assert false;
    }
  }

  // --- A close that loses nothing ---

  /** A consumer between finding the batch and writing its notional. */
  predicate Joining(t: Thread, b: nat) {
    (t.HList? || t.HAdd? || t.HAnnounce? || t.HSum? || t.HSet?) && t.b == b
  }

  /** The batch is past OPEN, and its rows, its notional and its orders agree on one value. */
  ghost predicate Agreed(w: World, b: nat, v: Decimal) {
    && b < |w.batches| && w.batches[b].status != Open && w.batches[b].notionalUSD == v && SumFor(w.members, b) == v
    && forall i :: 0 <= i < |w.orders| && w.orders[i].batchId == b ==> w.orders[i].notionalUSD == v
  }

  ghost predicate AgreedThread(t: Thread, b: nat, v: Decimal) {
    !Joining(t, b) && (t.SCreate? && t.copy.id == b ==> t.copy.notionalUSD == v)
  }

  ghost predicate Sealed(s: Sys, b: nat, v: Decimal) {
    Agreed(s.w, b, v) && forall x :: x in s.threads ==> AgreedThread(s.threads[x], b, v)
  }

  lemma MoveKeepsAgreed(cfg: Config, s: Sys, t: Thread, now: Time, c: Choice, b: nat, v: Decimal)
    requires Agreed(s.w, b, v) && AgreedThread(t, b, v)
    requires var w' := Move(cfg, s, t, now, c).0.w; b < |w'.batches| && w'.batches[b].status != Open
    ensures Agreed(Move(cfg, s, t, now, c).0.w, b, v)
  {
    hide Move, SumFor;
    var w' := Move(cfg, s, t, now, c).0.w;
    MoveAddsNothing(cfg, s, t, now, c, b);
    WritingMove(cfg, s, t, now, c);
    if !Writes(t) {
      QuietMove(cfg, s, t, now, c);
    }
  }

  lemma MoveKeepsAgreedThread(cfg: Config, s: Sys, t: Thread, now: Time, c: Choice, b: nat, v: Decimal)
    requires BatchesOk(s.w) && Agreed(s.w, b, v) && AgreedThread(t, b, v)
    ensures AgreedThread(Move(cfg, s, t, now, c).1, b, v)
  {
    hide Move, SumFor;
    StartsHolding(cfg, s, t, now, c);
    NeverJoins(cfg, s, t, now, c, b);
  }

  /** Only an OPEN batch is joined. */
  lemma NeverJoins(cfg: Config, s: Sys, t: Thread, now: Time, c: Choice, b: nat)
    requires b < |s.w.batches| && s.w.batches[b].status != Open && !Joining(t, b)
    ensures !Joining(Move(cfg, s, t, now, c).1, b)
  {
    hide Handle, Close, Submit, Settle;
    if Settling(t) {
      Interleaving.SettleMoveThread(cfg, s, t, now, c);
    } else if Placing(t) {
      SubmitNeverJoins(cfg, s, t, now, c, b);
    } else if Handling(t) {
      HandleNeverJoins(s, t, now, c, b);
    } else if Closing(t) {
      CloseNeverJoins(s, t, now, b);
    }
  }

  lemma HandleNeverJoins(s: Sys, t: Thread, now: Time, c: Choice, b: nat)
    requires b < |s.w.batches| && s.w.batches[b].status != Open && !Joining(t, b) && Handling(t)
    ensures !Joining(Handle(s, t, now, c).1, b)
  {
    hide TxKey, Held, Emitted, WithOpenBatch, WithNotional, MembersOf, SumFor;
  }

  lemma CloseNeverJoins(s: Sys, t: Thread, now: Time, b: nat)
    requires Closing(t)
    ensures !Joining(Close(s, t, now).1, b)
  {
    hide Emitted, WithStatus, SumFor;
  }

  lemma SubmitNeverJoins(cfg: Config, s: Sys, t: Thread, now: Time, c: Choice, b: nat)
    requires Placing(t)
    ensures !Joining(Submit(cfg, s, t, now, c).1, b)
  {
    hide AggKey, Held, WithOrder, WithStatus, WithFill, HasOrder, OrderOf;
  }

  lemma StepKeepsSealed(cfg: Config, s: Sys, a: Action, b: nat, v: Decimal)
    requires Interleaving.Inv(s) && Sealed(s, b, v)
    ensures Sealed(Step(cfg, s, a), b, v)
  {
    hide Move, SumFor;
    Interleaving.StepKeeps(cfg, s, a);
    if a.Advance? && a.tid in s.threads {
      MoveKeepsAgreed(cfg, s, s.threads[a.tid], a.now, a.c, b, v);
      MoveKeepsAgreedThread(cfg, s, s.threads[a.tid], a.now, a.c, b, v);
      Interleaving.MoveLeavesThreads(cfg, s, s.threads[a.tid], a.now, a.c);
    }
  }

  lemma {:induction false} RunKeepsSealed(cfg: Config, s: Sys, acts: seq<Action>, b: nat, v: Decimal)
    requires Interleaving.Inv(s) && Sealed(s, b, v)
    ensures Sealed(Run(cfg, s, acts), b, v)
    decreases |acts|
  {
    hide Step, Sealed, Interleaving.Inv;
    if acts != [] {
      Interleaving.StepKeeps(cfg, s, acts[0]);
      StepKeepsSealed(cfg, s, acts[0], b, v);
      RunKeepsSealed(cfg, Step(cfg, s, acts[0]), acts[1..], b, v);
    }
  }

  /** A thread is about to close an OPEN batch, no consumer is between finding that batch and writing its notional, and
      no row was added to it since the closing thread read its sum. */
  ghost predicate CleanClose(s: Sys, h: Reads, tid: nat, b: nat) {
    && tid in s.threads && s.threads[tid].CUpdate? && s.threads[tid].b == b
    && b < |s.w.batches| && s.w.batches[b].status == Open
    && (forall x :: x in s.threads ==> !Joining(s.threads[x], b))
    && RowsBefore(s.w.members, b, HeldBy(h, tid))
  }

  lemma {:induction false} RowsReadAreAll(members: seq<Membership>, b: nat, k: nat)
    requires RowsBefore(members, b, k)
    ensures SumFor(members[..k], b) == SumFor(members, b)
  {
    if k == |members| {
      assert members[..k] == members;
    } else {
      var rest := members[..|members| - 1];
      RowsReadAreAll(rest, b, k);
      assert rest[..k] == members[..k];
    }
  }

  lemma CleanCloseSeals(cfg: Config, s: Sys, h: Reads, tid: nat, now: Time, c: Choice, b: nat)
    requires Interleaving.Inv(s) && ReadsOk(s, h) && CleanClose(s, h, tid, b)
    ensures var s' := Step(cfg, s, Advance(tid, now, c)); Sealed(s', b, SumFor(s.w.members, b))
  {
    hide Settle, Submit, Handle, SumFor;
    RowsReadAreAll(s.w.members, b, HeldBy(h, tid));
    assert ThreadReads(s.w, s.threads[tid], HeldBy(h, tid));
    forall x | x in s.threads && s.threads[x].SCreate?
      ensures s.threads[x].copy.id != b
    {
      assert Interleaving.ThreadOk(s, s.threads[x]);
    }
  }

  /** After a clean close the batch's notional and every order of it equal the sum of its rows, whatever follows. */
  lemma CleanCloseCovers(cfg: Config, acts: seq<Action>, tid: nat, now: Time, c: Choice, b: nat, more: seq<Action>)
    requires CleanClose(Run(cfg, START, acts), RunReads(cfg, START, NO_READS, acts), tid, b)
    ensures var s := Run(cfg, Step(cfg, Run(cfg, START, acts), Advance(tid, now, c)), more);
            Agreed(s.w, b, SumFor(Run(cfg, START, acts).w.members, b))
  {
    hide Step, Run, RunReads, CleanClose, Interleaving.Inv, ReadsOk;
    ReadsReachable(cfg, acts);
    var s, h := Run(cfg, START, acts), RunReads(cfg, START, NO_READS, acts);
    CleanCloseSeals(cfg, s, h, tid, now, c, b);
    Interleaving.StepKeeps(cfg, s, Advance(tid, now, c));
    RunKeepsSealed(cfg, Step(cfg, s, Advance(tid, now, c)), more, b, SumFor(s.w.members, b));
  }
}
