/** An induction principle for runs of whole handlers: what every elementary change keeps, every step keeps. */
module Steps {
  import opened Base
  import opened Records
  import opened Configuration
  import opened Memstore
  import opened Pipeline
  import opened Runs

  /** The changes that handlers are made of: an event, a cadence lock, a close, a submission. */
  ghost predicate Elementary(cfg: Config, w: World, w': World, now: Time) {
    || (exists ev :: w' == Handled(w, ev, now))
    || (exists pair :: w' == WithLock(cfg, w, pair, now))
    || (exists id: nat :: id < |w.batches| && w.batches[id].status == Open && w' == JustClosed(w, id, now))
    || (exists id, env :: w' == Submitted(cfg, w, id, now, env))
  }

  /** P survives every elementary change made now. */
  ghost predicate Kept(cfg: Config, now: Time, P: World -> bool) {
    forall w, w' :: WorldOk(w) && P(w) && Elementary(cfg, w, w', now) ==> P(w')
  }

  predicate Handler(a: Action) {
    a.Event? || a.Tick? || a.Close? || a.Submit?
  }

  lemma SubmittedHas(cfg: Config, w: World, id: nat, now: Time, env: SubmitEnv, P: World -> bool)
    requires WorldOk(w) && P(w) && Kept(cfg, now, P)
    ensures P(Submitted(cfg, w, id, now, env))
  {
    hide WorldOk, Submitted, Handled, WithLock, JustClosed;
    assert Elementary(cfg, w, Submitted(cfg, w, id, now, env), now);
  }

  lemma ClosedHas(cfg: Config, w: World, id: nat, now: Time, env: SubmitEnv, P: World -> bool)
    requires WorldOk(w) && P(w) && Kept(cfg, now, P)
    ensures P(ClosedBatch(cfg, w, id, now, env))
  {
    hide WorldOk, Submitted, Handled, WithLock, Kept;
    if id < |w.batches| && w.batches[id].status == Open {
      JustClosedKeeps(w, id, now);
      JustClosedHas(cfg, w, id, now, P);
      SubmittedHas(cfg, JustClosed(w, id, now), id, now, env, P);
    }
  }

  lemma JustClosedHas(cfg: Config, w: World, id: nat, now: Time, P: World -> bool)
    requires WorldOk(w) && P(w) && Kept(cfg, now, P) && id < |w.batches| && w.batches[id].status == Open
    ensures P(JustClosed(w, id, now))
  {
    hide WorldOk, Submitted, Handled, WithLock, JustClosed;
    assert Elementary(cfg, w, JustClosed(w, id, now), now);
  }

  lemma LockHas(cfg: Config, w: World, pair: string, now: Time, P: World -> bool)
    requires WorldOk(w) && P(w) && Kept(cfg, now, P)
    ensures P(WithLock(cfg, w, pair, now))
  {
    hide WorldOk, Submitted, Handled, WithLock, JustClosed;
    assert Elementary(cfg, w, WithLock(cfg, w, pair, now), now);
  }

  lemma HandledHas(cfg: Config, w: World, ev: TxEvent, now: Time, P: World -> bool)
    requires WorldOk(w) && P(w) && Kept(cfg, now, P)
    ensures P(Handled(w, ev, now))
  {
    hide WorldOk, Submitted, Handled, WithLock, JustClosed;
    assert Elementary(cfg, w, Handled(w, ev, now), now);
  }

  lemma TickedOneHas(cfg: Config, w: World, b: Batch, now: Time, env: TickEnv, P: World -> bool)
    requires WorldOk(w) && P(w) && Kept(cfg, now, P)
    ensures P(TickedOne(cfg, w, b, now, env))
  {
    hide WorldOk, ClosedBatch, Kept;
    LockKeeps(cfg, w, b.assetPair, now);
    LockHas(cfg, w, b.assetPair, now, P);
    ClosedHas(cfg, WithLock(cfg, w, b.assetPair, now), b.id, now, env.submit, P);
  }

  lemma {:induction false} TickedHas(
      cfg: Config, w: World, open: seq<Batch>, n: nat, now: Time, envs: nat -> TickEnv, P: World -> bool)
    requires WorldOk(w) && P(w) && Kept(cfg, now, P) && n <= |open|
    ensures P(TickedUpTo(cfg, w, open, n, now, envs))
  {
    hide WorldOk, TickedOne, Kept;
    if n > 0 {
      TickedHas(cfg, w, open, n - 1, now, envs, P);
      TickedKeeps(cfg, w, open, n - 1, now, envs);
      TickedOneHas(cfg, TickedUpTo(cfg, w, open, n - 1, now, envs), open[n - 1], now, envs(open[n - 1].id), P);
    }
  }

  /** One step of a handler keeps what every elementary change at its time keeps. */
  lemma StepHas(cfg: Config, s: Sys, t: Timed, P: World -> bool)
    requires Inv(s) && Handler(t.act) && P(s.w) && Kept(cfg, t.at, P)
    ensures P(Step(cfg, s, t).w)
  {
    hide Handled, TickedUpTo, ClosedBatch, Submitted, WorldOk, HistoryOk, Kept;
    match t.act {
      case Event(ev) => HandledHas(cfg, s.w, ev, t.at, P);
      case Tick(envs) => TickedHas(cfg, s.w, OpenRows(s.w.batches), |OpenRows(s.w.batches)|, t.at, envs, P);
      case Close(id, env) => ClosedHas(cfg, s.w, id, t.at, env, P);
      case Submit(id, env) => SubmittedHas(cfg, s.w, id, t.at, env, P);
    }
  }

  lemma RunStep(cfg: Config, start: Time, acts: seq<Timed>, t: Timed)
    ensures Run(cfg, start, acts + [t]) == Step(cfg, Run(cfg, start, acts), t)
  {
    hide Step;
    assert (acts + [t])[..|acts|] == acts;
  }
}
