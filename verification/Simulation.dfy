/** Every handler-by-handler run is an interleaving of store calls, so what holds under interleaving holds there too. */
module Simulation {
  import opened Base
  import opened Records
  import opened Configuration
  import opened Memstore
  import opened Idempotency
  import opened Pipeline
  import opened Threads
  import Concurrency
  import Refinement
  import Runs

  /** Some interleaving of threads, started from nothing, ends in these stores. */
  ghost predicate Reached(cfg: Config, w: World) {
    exists acts :: Run(cfg, START, acts).w == w
  }

  lemma {:induction false} RunSplit(cfg: Config, s: Sys, a: seq<Action>, b: seq<Action>)
    ensures Run(cfg, s, a + b) == Run(cfg, Run(cfg, s, a), b)
    decreases |a|
  {
    if a == [] {
      assert a + b == b;
    } else {
      assert (a + b)[0] == a[0] && (a + b)[1..] == a[1..] + b;
      RunSplit(cfg, Step(cfg, s, a[0]), a[1..], b);
    }
  }

  lemma RunOne(cfg: Config, s: Sys, a: Action)
    ensures Run(cfg, s, [a]) == Step(cfg, s, a)
  {
    assert [a][0] == a && [a][1..] == [];
    assert Run(cfg, Step(cfg, s, a), []) == Step(cfg, s, a);
  }

  lemma {:induction false} FreshTid(used: set<nat>) returns (tid: nat)
    ensures forall x :: x in used ==> x < tid
    decreases |used|
  {
    if used == {} {
      tid := 0;
    } else {
      var x :| x in used;
      var t := FreshTid(used - {x});
      tid := if x >= t then x + 1 else t;
      forall y | y in used
        ensures y < tid
      {
        assert y == x || y in used - {x};
      }
    }
  }

  lemma ReachedStep(cfg: Config, w: World, a: Action, w': World)
    requires Reached(cfg, w) && !a.Spawn? && !a.Advance?
    requires forall s: Sys :: s.w == w ==> Step(cfg, s, a).w == w'
    ensures Reached(cfg, w')
  {
    var acts :| Run(cfg, START, acts).w == w;
    RunSplit(cfg, START, acts, [a]);
    RunOne(cfg, Run(cfg, START, acts), a);
  }

  lemma ReachedForgets(cfg: Config, w: World, seen: Seen)
    requires Reached(cfg, w)
    ensures Reached(cfg, w.(seen := seen))
  {
    ReachedStep(cfg, w, Tamper(seen), w.(seen := seen));
  }

  lemma ReachedOutside(cfg: Config, w: World, w': World)
    requires Reached(cfg, w) && w' == w.(floats := w'.floats, outbox := w'.outbox, outboxSeen := w'.outboxSeen)
    ensures Reached(cfg, w')
  {
    ReachedStep(cfg, w, Outside(w'.floats, w'.outbox, w'.outboxSeen), w');
  }

  /** A thread that ends when left alone may be started and run from every reached state. */
  lemma SpawnedThreadEnds(cfg: Config, acts: seq<Action>, t: Thread, now: Time, c: Choice, n: nat, w: World)
    requires Starting(t) && Refinement.Ends(cfg, Run(cfg, START, acts), t, now, c, n, w)
    ensures Reached(cfg, w)
  {
    hide Move;
    var s := Run(cfg, START, acts);
    var tid := FreshTid(s.threads.Keys);
    var s1 := Step(cfg, s, Spawn(tid, t));
    var moves := Refinement.Moves(tid, now, c, n);
    Refinement.SoloIsRun(cfg, s1, tid, now, c, n);
    Refinement.SoloIgnoresThreads(cfg, s, t, now, c, n, s1.threads);
    RunOne(cfg, s, Spawn(tid, t));
    RunSplit(cfg, START, acts, [Spawn(tid, t)]);
    RunSplit(cfg, START, acts + [Spawn(tid, t)], moves);
    assert Run(cfg, START, acts + [Spawn(tid, t)] + moves).w == w;
  }

  const CALM := SubmitEnv(false, None, false, None)

  lemma ReachedHandled(cfg: Config, w: World, ev: TxEvent, now: Time)
    requires Reached(cfg, w)
    ensures Reached(cfg, Handled(w, ev, now))
  {
    var acts :| Run(cfg, START, acts).w == w;
    var c := Choice(false, CALM);
    Refinement.HandleIsAtomic(cfg, Run(cfg, START, acts), ev, now, c);
    SpawnedThreadEnds(cfg, acts, HClaim(ev), now, c, 8, Handled(w, ev, now));
  }

  lemma ReachedSubmitted(cfg: Config, w: World, id: nat, now: Time, env: SubmitEnv)
    requires Reached(cfg, w)
    ensures Reached(cfg, Submitted(cfg, w, id, now, env))
  {
    hide Submitted, Refinement.Ends, Run;
    var acts :| Run(cfg, START, acts).w == w;
    var c := Choice(false, env);
    Concurrency.Reachable(cfg, acts);
    Refinement.SubmitIsAtomic(cfg, Run(cfg, START, acts), id, now, c, 14);
    SpawnedThreadEnds(cfg, acts, SGet(id), now, c, 14, Submitted(cfg, w, id, now, env));
  }

  lemma ReachedClosed(cfg: Config, w: World, id: nat, now: Time, env: SubmitEnv)
    requires Reached(cfg, w)
    ensures Reached(cfg, ClosedBatch(cfg, w, id, now, env))
  {
    hide ClosedBatch, Refinement.Ends, Run;
    var acts :| Run(cfg, START, acts).w == w;
    var c := Choice(false, env);
    Concurrency.Reachable(cfg, acts);
    Refinement.CloseIsAtomic(cfg, Run(cfg, START, acts), id, now, c);
    SpawnedThreadEnds(cfg, acts, CGet(id), now, c, 18, ClosedBatch(cfg, w, id, now, env));
  }

  lemma ReachedTickedOne(cfg: Config, w: World, b: Batch, now: Time, env: TickEnv)
    requires Reached(cfg, w)
    ensures Reached(cfg, TickedOne(cfg, w, b, now, env))
  {
    if ShouldClose(cfg, w.members, b, now) != Keep && !env.lockDown && !Held(w.seen, CadenceKey(b.assetPair), now) {
      var w1 := w.(seen := Marked(w.seen, CadenceKey(b.assetPair), CadenceTtl(cfg), now));
      ReachedForgets(cfg, w, w1.seen);
      ReachedClosed(cfg, w1, b.id, now, env.submit);
    }
  }

  lemma {:induction false} ReachedTicked(
      cfg: Config, w: World, open: seq<Batch>, n: nat, now: Time, envs: nat -> TickEnv)
    requires Reached(cfg, w) && n <= |open|
    ensures Reached(cfg, TickedUpTo(cfg, w, open, n, now, envs))
  {
    hide TickedOne, Reached;
    if n > 0 {
      ReachedTicked(cfg, w, open, n - 1, now, envs);
      ReachedTickedOne(cfg, TickedUpTo(cfg, w, open, n - 1, now, envs), open[n - 1], now, envs(open[n - 1].id));
    }
  }

  lemma ReachedApply(cfg: Config, w: World, now: Time, a: Runs.Action)
    requires Reached(cfg, w)
    ensures Reached(cfg, Runs.Apply(cfg, w, now, a))
  {
    hide Reached, Handled, Submitted, TickedUpTo;
    match a {
      case Event(ev) => ReachedHandled(cfg, w, ev, now);
      case Tick(envs) => ReachedTicked(cfg, w, OpenRows(w.batches), |OpenRows(w.batches)|, now, envs);
      case Close(id, env) => ReachedClosed(cfg, w, id, now, env);
      case Submit(id, env) => ReachedSubmitted(cfg, w, id, now, env);
      case Forget(keys) => ReachedForgets(cfg, w, w.seen - keys);
      case Sweep => ReachedOutside(cfg, w, Runs.Apply(cfg, w, now, a));
      case Dispatch(_, _) => ReachedOutside(cfg, w, Runs.Apply(cfg, w, now, a));
      case Funded(_, _, _) => ReachedOutside(cfg, w, Runs.Apply(cfg, w, now, a));
      case Rebalanced(_, _, _) => ReachedOutside(cfg, w, Runs.Apply(cfg, w, now, a));
    }
  }

  /** The stores of every atomic run are the stores of some interleaving. */
  lemma {:induction false} AtomicRunsInterleave(cfg: Config, start: Time, acts: seq<Runs.Timed>)
    ensures Reached(cfg, Runs.Run(cfg, start, acts).w)
  {
    if acts == [] {
      assert Run(cfg, START, []).w == EMPTY;
    } else {
      AtomicRunsInterleave(cfg, start, acts[..|acts| - 1]);
      var t := acts[|acts| - 1];
      ReachedApply(cfg, Runs.Run(cfg, start, acts[..|acts| - 1]).w, t.at, t.act);
    }
  }
}
