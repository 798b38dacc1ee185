/** A transaction that finds its batch open may be recorded after the batch has closed; no order ever covers it. */
module Straggler {
  import opened Base
  import opened Records
  import opened Configuration
  import opened Memstore
  import opened Idempotency
  import opened Pipeline
  import opened Threads
  import Concurrency
  import Refinement
  import opened Failures
  import Runs
  import Simulation

  // --- Composing runs ---

  lemma Spawned(cfg: Config, acts: seq<Action>, t: Thread) returns (acts': seq<Action>, tid: nat)
    requires Starting(t)
    ensures var s := Run(cfg, START, acts);
            tid !in s.threads && Run(cfg, START, acts') == s.(threads := s.threads[tid := t])
  {
    var s := Run(cfg, START, acts);
    tid := Simulation.FreshTid(s.threads.Keys);
    acts' := acts + [Spawn(tid, t)];
    Simulation.RunSplit(cfg, START, acts, [Spawn(tid, t)]);
    Simulation.RunOne(cfg, s, Spawn(tid, t));
  }

  lemma Moved(cfg: Config, acts: seq<Action>, tid: nat, now: Time, c: Choice, n: nat) returns (acts': seq<Action>)
    requires tid in Run(cfg, START, acts).threads
    ensures var s := Run(cfg, START, acts);
            var r := Solo(cfg, s, s.threads[tid], now, c, n);
            Run(cfg, START, acts') == r.0.(threads := s.threads[tid := r.1])
  {
    acts' := acts + Refinement.Moves(tid, now, c, n);
    Simulation.RunSplit(cfg, START, acts, Refinement.Moves(tid, now, c, n));
    Refinement.SoloIsRun(cfg, Run(cfg, START, acts), tid, now, c, n);
  }

  // --- The tables along the way ---

  /** Only the first transaction is recorded, in the open batch 0. */
  ghost predicate FirstRecorded(w: World, e1: TxEvent, now: Time) {
    && w.batches == [Batch(0, PairOf(e1), Open, BookedNotional(e1), now, None)]
    && w.members == [MembershipFor(e1, 0)] && w.byTx == {e1.txId}
    && w.orders == [] && w.calls == [] && AggKey(0) !in w.seen
  }

  lemma FirstHandled(e1: TxEvent, now: Time)
    requires WellFormed(e1)
    ensures FirstRecorded(Handled(EMPTY, e1, now), e1, now)
    ensures Handled(EMPTY, e1, now).seen == map[TxKey(e1.txId) := now + DAY]
  {
    SumOfOne(MembershipFor(e1, 0));
    KeysApart(e1.txId, e1.txId, "", "", 0);
  }

  lemma SumOfTwo(m: Membership, n: Membership)
    requires m.batchId == n.batchId
    ensures SumFor([m] + [n], m.batchId) == m.notionalUSD + n.notionalUSD
  {
    SumOfOne(m);
    assert ([m] + [n])[..1] == [m];
  }

  /** The second consumer has looked up the open batch and is about to record its transaction. */
  lemma SecondFindsBatch(cfg: Config, s: Sys, e1: TxEvent, e2: TxEvent, now: Time, c: Choice)
    requires WellFormed(e2) && PairOf(e2) == PairOf(e1) && e1.txId != e2.txId && !c.down
    requires FirstRecorded(s.w, e1, now) && s.w.seen == map[TxKey(e1.txId) := now + DAY]
    ensures var r := Solo(cfg, s, HClaim(e2), now, c, 3); FirstRecorded(r.0.w, e1, now) && r.1 == HList(e2, 0)
  {
    KeysApart(e1.txId, e2.txId, "", "", 0);
    KeysApart(e2.txId, e2.txId, "", "", 0);
    var s1 := Claimed(s, TxKey(e2.txId), now);
    assert Move(cfg, s, HClaim(e2), now, c) == (s1, HExists(e2));
    assert Move(cfg, s1, HExists(e2), now, c) == (s1, HOpen(e2));
    assert Move(cfg, s1, HOpen(e2), now, c) == (s1, HList(e2, 0));
    assert Solo(cfg, s, HClaim(e2), now, c, 0) == (s, HClaim(e2));
    assert Solo(cfg, s, HClaim(e2), now, c, 1) == (s1, HExists(e2));
    assert Solo(cfg, s, HClaim(e2), now, c, 2) == (s1, HOpen(e2));
  }

  /** The batch has been closed, ordered and settled for the first transaction alone. */
  ghost predicate ClosedWithout(w: World, e1: TxEvent) {
    && |w.batches| == 1 && w.batches[0].status == Settled && w.batches[0].id == 0
    && |w.orders| == 1 && w.orders[0].batchId == 0 && w.orders[0].notionalUSD == BookedNotional(e1)
    && w.members == [MembershipFor(e1, 0)] && w.byTx == {e1.txId}
  }

  /** A first submission that the idempotency store cannot veto and liquidity answers fills the batch. */
  lemma FirstSubmissionFills(cfg: Config, w: World, id: nat, now: Time, env: SubmitEnv)
    requires BatchIds(w.batches) && id < |w.batches| && Submittable(w.batches[id])
    requires w.orders == [] && w.calls == [] && Unclaimed(w, id, now, env) && env.fill.Some?
    ensures Runs.FilledOnce(w, Submitted(cfg, w, id, now, env), id)
  {
    var b, w' := w.batches[id], Submitted(cfg, w, id, now, env);
    Runs.SubmitEffect(cfg, w, id, now, env);
    SubmissionCalls(cfg, w, b, now, env);
  }

  lemma SubmissionCalls(cfg: Config, w: World, b: Batch, now: Time, env: SubmitEnv)
    requires BatchIds(w.batches) && b.id < |w.batches| && w.batches[b.id] == b && Submittable(b)
    requires w.orders == [] && w.calls == [] && Unclaimed(w, b.id, now, env) && env.fill.Some?
    ensures var calls := Submitted(cfg, w, b.id, now, env).calls; |calls| > 0 && Runs.FillCall(calls[0], b.id)
  {
    var w1 := w.(orders := WithOrder([], b.id, b.assetPair, b.notionalUSD));
    assert w1.orders == [NewOrder(0, b.id, b.assetPair, b.notionalUSD)] && FindOrder(w1.orders, b.id) == 0;
    ExecutionCalls(cfg, w1, b, now, env);
  }

  lemma ExecutionCalls(cfg: Config, w: World, b: Batch, now: Time, env: SubmitEnv)
    requires b.id < |w.batches| && w.batches[b.id] == b && Submittable(b)
    requires HasOrder(w.orders, b.id) && w.calls == [] && Unclaimed(w, b.id, now, env) && env.fill.Some?
    ensures var calls := Executed(cfg, w, b, now, env).calls; |calls| > 0 && Runs.FillCall(calls[0], b.id)
  {
    var f := env.fill.value;
    var w4 := w.(
      batches := Runs.Advanced(w.batches, b.id, Executing),
      seen := if env.aggDown then w.seen else Marked(w.seen, AggKey(b.id), DAY, now),
      calls := [AggregateCall(b.id, b.notionalUSD, AggKey(b.id), true)],
      orders := WithFill(w.orders, b.id, f.price, f.total, f.routes));
    var o := w4.orders[FindOrder(w.orders, b.id)];
    ExecutedFills(cfg, w, w4, b, now, env);
    Runs.FillEffect(cfg, w4, b, o, now, env);
  }

  lemma ExecutedFills(cfg: Config, w: World, w4: World, b: Batch, now: Time, env: SubmitEnv)
    requires b.id < |w.batches| && w.batches[b.id] == b && Submittable(b)
    requires HasOrder(w.orders, b.id) && w.calls == [] && Unclaimed(w, b.id, now, env) && env.fill.Some?
    requires var f := env.fill.value;
             w4 == w.(batches := Runs.Advanced(w.batches, b.id, Executing),
                      seen := if env.aggDown then w.seen else Marked(w.seen, AggKey(b.id), DAY, now),
                      calls := [AggregateCall(b.id, b.notionalUSD, AggKey(b.id), true)],
                      orders := WithFill(w.orders, b.id, f.price, f.total, f.routes))
    ensures Executed(cfg, w, b, now, env) == Filled(cfg, w4, b, w4.orders[FindOrder(w.orders, b.id)], now, env)
  {
    var w2 := w.(batches := w4.batches, seen := w4.seen);
    assert WithStatus(w.batches, b.id, Closed, Executing, None, now).0 == w2.batches;
    ClaimThenPlace(cfg, w, w2, b, now, env);
    assert w2.calls + [AggregateCall(b.id, b.notionalUSD, AggKey(b.id), true)] == w4.calls;
  }

  lemma CloseOrdersFirst(cfg: Config, w: World, e1: TxEvent, now: Time, env: SubmitEnv)
    requires FirstRecorded(w, e1, now) && env.fill.Some?
    ensures ClosedWithout(ClosedBatch(cfg, w, 0, now, env), e1)
  {
    var j := Runs.JustClosed(w, 0, now);
    SumOfOne(MembershipFor(e1, 0));
    assert j.batches[0].notionalUSD == BookedNotional(e1);
    FirstSubmissionFills(cfg, j, 0, now, env);
    var created := WithOrder(j.orders, 0, j.batches[0].assetPair, j.batches[0].notionalUSD);
    assert created == [NewOrder(0, 0, j.batches[0].assetPair, BookedNotional(e1))];
  }

  /** The batch is settled, both transactions are booked in it, and its order covers the first one only. */
  ghost predicate Lost(w: World, e1: TxEvent, e2: TxEvent) {
    && |w.batches| == 1 && w.batches[0].status == Settled
    && w.members == [MembershipFor(e1, 0), MembershipFor(e2, 0)]
    && w.batches[0].notionalUSD == BookedNotional(e1) + BookedNotional(e2)
    && |w.orders| == 1 && w.orders[0].batchId == 0 && w.orders[0].notionalUSD == BookedNotional(e1)
  }

  /** The second consumer finishes. */
  lemma SecondIsRecorded(cfg: Config, s: Sys, e1: TxEvent, e2: TxEvent, now: Time, c: Choice)
    requires ClosedWithout(s.w, e1) && e1.txId != e2.txId
    ensures var r := Solo(cfg, s, HList(e2, 0), now, c, 4); Lost(r.0.w, e1, e2)
  {
    var m, n := MembershipFor(e1, 0), MembershipFor(e2, 0);
    SumOfOne(m);
    SumOfTwo(m, n);
    var s1 := s.(w := s.w.(members := s.w.members + [n], byTx := s.w.byTx + {e2.txId}));
    var end := s1.w.(batches := WithNotional(s1.w.batches, 0, SumFor(s1.w.members, 0)));
    Refinement.SumAndSet(cfg, s1, 0, now, c, 2);
    ListThenAdd(cfg, s, e2, now, c, end);
    hide Solo, SumFor;
    assert Lost(end, e1, e2);
  }

  lemma ListThenAdd(cfg: Config, s: Sys, ev: TxEvent, now: Time, c: Choice, end: World)
    requires ev.txId !in s.w.byTx && MembersOf(s.w.members, 0) != []
    requires var s1 := s.(w := s.w.(members := s.w.members + [MembershipFor(ev, 0)], byTx := s.w.byTx + {ev.txId}));
             Refinement.Ends(cfg, s1, HSum(0), now, c, 2, end)
    ensures Refinement.Ends(cfg, s, HList(ev, 0), now, c, 4, end)
  {
    hide Refinement.Ends, MembersOf;
    var s1 := s.(w := s.w.(members := s.w.members + [MembershipFor(ev, 0)], byTx := s.w.byTx + {ev.txId}));
    Refinement.EndsAfterMove(cfg, s, HAdd(ev, 0, false), s1, HSum(0), now, c, 3, end);
    Refinement.EndsAfterMove(cfg, s, HList(ev, 0), s, HAdd(ev, 0, false), now, c, 4, end);
  }

  /** For any two transactions of one pair there is an interleaving that loses the second from its batch's order. */
  lemma LateRecordIsLost(cfg: Config, e1: TxEvent, e2: TxEvent, now: Time, fill: Fill) returns (acts: seq<Action>)
    requires WellFormed(e1) && WellFormed(e2) && PairOf(e1) == PairOf(e2) && e1.txId != e2.txId
    ensures Lost(Run(cfg, START, acts).w, e1, e2)
  {
    var c := Choice(false, SubmitEnv(false, Some(fill), false, None));
    assert Run(cfg, START, []) == START;
    var a0, first := Spawned(cfg, [], HClaim(e1));
    var a1 := Moved(cfg, a0, first, now, c, 8);
    Refinement.HandleIsAtomic(cfg, Run(cfg, START, a0), e1, now, c);
    FirstHandled(e1, now);
    var a2, second := Spawned(cfg, a1, HClaim(e2));
    var a3 := Moved(cfg, a2, second, now, c, 3);
    SecondFindsBatch(cfg, Run(cfg, START, a2), e1, e2, now, c);
    var a4, closer := Spawned(cfg, a3, CGet(0));
    var a5 := Moved(cfg, a4, closer, now, c, 18);
    Refinement.CloseIsAtomic(cfg, Run(cfg, START, a4), 0, now, c);
    CloseOrdersFirst(cfg, Run(cfg, START, a4).w, e1, now, c.env);
    acts := Moved(cfg, a5, second, now, c, 4);
    SecondIsRecorded(cfg, Run(cfg, START, a5), e1, e2, now, c);
  }

  /** And nothing that happens later makes up for it. */
  lemma LostForGood(cfg: Config, acts: seq<Action>, more: seq<Action>, e1: TxEvent, e2: TxEvent)
    requires Lost(Run(cfg, START, acts).w, e1, e2)
    ensures var s := Run(cfg, Run(cfg, START, acts), more);
            && |s.w.batches| > 0 && s.w.batches[0].status == Settled
            && |s.w.members| > 1 && s.w.members[1] == MembershipFor(e2, 0)
            && (forall i :: 0 <= i < |s.w.orders| && s.w.orders[i].batchId == 0 ==>
                  s.w.orders[i].notionalUSD == BookedNotional(e1))
  {
    Concurrency.NothingMovesBack(cfg, acts, more);
    Simulation.RunSplit(cfg, START, acts, more);
    Concurrency.Reachable(cfg, acts + more);
    assert Run(cfg, START, acts).w.members[1] == MembershipFor(e2, 0);
  }
}
