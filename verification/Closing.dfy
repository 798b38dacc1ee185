/** No batch is closed early: a tick closes a batch only when it is full or old enough. */
module Closing {
  import opened Base
  import opened Records
  import opened Configuration
  import opened Memstore
  import opened Idempotency
  import opened Pipeline
  import opened Runs
  import opened Latency

  /** The batch left OPEN when its rows had reached its pair's threshold, or at its pair's interval or later. */
  ghost predicate ClosedInTime(cfg: Config, b: Batch) {
    && b.closedAt.Some?
    && (Full(cfg, b.assetPair, b.notionalUSD) || Aged(cfg, b.assetPair, b.closedAt.value - b.openedAt))
  }

  /** Closed batches were closed in time and OPEN ones carry no closing time. */
  ghost predicate NoneEarly(cfg: Config, w: World) {
    forall b :: 0 <= b < |w.batches| ==>
      if w.batches[b].status == Open then w.batches[b].closedAt == None else ClosedInTime(cfg, w.batches[b])
  }

  lemma HandledNoneEarly(cfg: Config, w: World, ev: TxEvent, now: Time)
    requires WorldOk(w) && NoneEarly(cfg, w)
    ensures NoneEarly(cfg, Handled(w, ev, now))
  {
    hide Handled, Joined, ClosedInTime;
    HandledEffect(w, ev, now);
    if WellFormed(ev) && ev.txId !in w.byTx {
      JoinedEffect(w, ev, now);
      JoinedBatches(w, ev, now);
    }
  }

  lemma SubmittedNoneEarly(cfg: Config, w: World, id: nat, now: Time, env: SubmitEnv)
    requires WorldOk(w) && NoneEarly(cfg, w)
    ensures NoneEarly(cfg, Submitted(cfg, w, id, now, env))
  {
    hide Submitted, WorldOk, Full, Aged;
    BatchIdsOf(w);
    SubmitEffect(cfg, w, id, now, env);
    var w' := Submitted(cfg, w, id, now, env);
    if w' != w {
      AdvancedNoneEarly(cfg, w, w', id, if Unfilled(w, w', id) then Executing else Settled);
    }
  }

  lemma AdvancedNoneEarly(cfg: Config, w: World, w': World, id: nat, st: BatchStatus)
    requires NoneEarly(cfg, w) && id < |w.batches| && w.batches[id].status != Open && st != Open
    requires w'.batches == Advanced(w.batches, id, st)
    ensures NoneEarly(cfg, w')
  {
    hide Full, Aged;
  }

  /** The close a tick makes records the sum and the time that justified it. */
  lemma TickedOneNoneEarly(cfg: Config, w: World, b: Batch, now: Time, env: TickEnv)
    requires WorldOk(w) && NoneEarly(cfg, w)
    requires b.id < |w.batches| && w.batches[b.id] == b && b.status == Open
    ensures NoneEarly(cfg, TickedOne(cfg, w, b, now, env))
  {
    hide TickedOne, ClosedInTime, Full, Aged, CadenceKey;
    var w' := TickedOne(cfg, w, b, now, env);
    TickedOneKeeps(cfg, w, b, now, env);
    TickedOneTouches(cfg, w, b, now, env);
    if TickCloses(cfg, w, b, now, env) {
      assert w'.batches[b.id].notionalUSD == SumFor(w.members, b.id);
      JustifiedClose(cfg, w, w'.batches[b.id], b, now, env);
    }
  }

  lemma JustifiedClose(cfg: Config, w: World, b': Batch, b: Batch, now: Time, env: TickEnv)
    requires TickCloses(cfg, w, b, now, env) && b'.assetPair == b.assetPair && b'.openedAt == b.openedAt
    requires b'.notionalUSD == SumFor(w.members, b.id) && b'.closedAt == Some(now)
    ensures ClosedInTime(cfg, b')
  {
  }

  /** The rest of the listing is as it was listed. */
  ghost predicate Fresh(w: World, open: seq<Batch>, n: nat) {
    forall k :: n <= k < |open| ==> open[k].id < |w.batches| && w.batches[open[k].id] == open[k]
  }

  lemma {:induction false} TickedNoneEarly(
      cfg: Config, w: World, open: seq<Batch>, n: nat, now: Time, envs: nat -> TickEnv)
    requires WorldOk(w) && NoneEarly(cfg, w) && n <= |open| && Listing(open) && Fresh(w, open, 0)
    ensures var w' := TickedUpTo(cfg, w, open, n, now, envs); NoneEarly(cfg, w') && Fresh(w', open, n)
  {
    hide TickedOne, WorldOk, NoneEarly, TickCloses, LocksKept, SameIntake, CadenceKey;
    if n > 0 {
      var w1, b := TickedUpTo(cfg, w, open, n - 1, now, envs), open[n - 1];
      TickedNoneEarly(cfg, w, open, n - 1, now, envs);
      TickedKeeps(cfg, w, open, n - 1, now, envs);
      TickedOneNoneEarly(cfg, w1, b, now, envs(b.id));
      TickedOneTouches(cfg, w1, b, now, envs(b.id));
    }
  }

  lemma TickNoneEarly(cfg: Config, w: World, now: Time, envs: nat -> TickEnv)
    requires WorldOk(w) && NoneEarly(cfg, w)
    ensures NoneEarly(cfg, Ticked(cfg, w, now, envs))
  {
    hide TickedUpTo, WorldOk, NoneEarly, OpenRows;
    BatchIdsOf(w);
    OpenRowsListed(w.batches);
    TickedNoneEarly(cfg, w, OpenRows(w.batches), |OpenRows(w.batches)|, now, envs);
  }

  lemma StepNoneEarly(cfg: Config, s: Sys, t: Timed)
    requires Inv(s) && NoneEarly(cfg, s.w) && !t.act.Close?
    ensures NoneEarly(cfg, Step(cfg, s, t).w)
  {
    hide Handled, Ticked, Submitted, WorldOk, HistoryOk, ClosedInTime;
    match t.act {
      case Event(ev) => HandledNoneEarly(cfg, s.w, ev, t.at);
      case Tick(envs) => TickNoneEarly(cfg, s.w, t.at, envs);
      case Submit(id, env) => SubmittedNoneEarly(cfg, s.w, id, t.at, env);
      case _ =>
    }
  }

  /** Without manual closes, a batch that left OPEN had rows summing to at least its pair's positive threshold when it
      did, or had been open for at least its pair's positive interval. */
  lemma {:induction false} NoEarlyClose(cfg: Config, start: Time, acts: seq<Timed>)
    requires forall i :: 0 <= i < |acts| ==> !acts[i].act.Close?
    ensures NoneEarly(cfg, Run(cfg, start, acts).w)
  {
    hide Step, Inv, NoneEarly;
    if acts == [] {
      NothingEarly(cfg);
    } else {
      NoEarlyClose(cfg, start, acts[..|acts| - 1]);
      RunKeeps(cfg, start, acts[..|acts| - 1]);
      StepNoneEarly(cfg, Run(cfg, start, acts[..|acts| - 1]), acts[|acts| - 1]);
    }
  }

  lemma NothingEarly(cfg: Config)
    ensures NoneEarly(cfg, EMPTY)
  {
  }
}
