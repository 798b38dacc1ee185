/** When a batch opens and closes: its times are those of the steps that opened and closed it. */
module Lifetimes {
  import opened Base
  import opened Records
  import opened Configuration
  import opened Memstore
  import opened Pipeline
  import opened Runs
  import opened Steps

  /** New batches opened now, batches that left OPEN closed now, and no other time changed. */
  ghost predicate TimesKept(before: seq<Batch>, after: seq<Batch>, now: Time) {
    && |before| <= |after|
    && (forall b :: 0 <= b < |before| ==>
          && after[b].openedAt == before[b].openedAt && after[b].assetPair == before[b].assetPair
          && (before[b].status != Open ==> after[b].status != Open)
          && after[b].closedAt
             == if before[b].status == Open && after[b].status != Open then Some(now) else before[b].closedAt)
    && (forall b :: |before| <= b < |after| ==> after[b].openedAt == now)
  }

  ghost predicate OpenUnclosed(batches: seq<Batch>) {
    forall b :: 0 <= b < |batches| && batches[b].status == Open ==> batches[b].closedAt == None
  }

  /** All a step may do to the batches of a reachable state. */
  ghost predicate Timely(before: seq<Batch>, after: seq<Batch>, now: Time) {
    TimesKept(before, after, now) && OpenUnclosed(after)
  }

  lemma TimelyAgain(a: seq<Batch>, b: seq<Batch>, c: seq<Batch>, now: Time)
    requires Timely(a, b, now) && Timely(b, c, now)
    ensures Timely(a, c, now)
  {
  }

  lemma HandledTimely(w: World, ev: TxEvent, now: Time)
    requires WorldOk(w) && OpenUnclosed(w.batches)
    ensures Timely(w.batches, Handled(w, ev, now).batches, now)
  {
    hide Handled, Joined, SumFor;
    HandledEffect(w, ev, now);
    if WellFormed(ev) && ev.txId !in w.byTx {
      JoinedEffect(w, ev, now);
      JoinedBatches(w, ev, now);
    }
  }

  lemma JustClosedTimely(w: World, id: nat, now: Time)
    requires WorldOk(w) && OpenUnclosed(w.batches) && id < |w.batches| && w.batches[id].status == Open
    ensures Timely(w.batches, JustClosed(w, id, now).batches, now)
  {
    hide SumFor;
  }

  lemma SubmittedTimely(cfg: Config, w: World, id: nat, now: Time, env: SubmitEnv)
    requires WorldOk(w) && OpenUnclosed(w.batches)
    ensures Timely(w.batches, Submitted(cfg, w, id, now, env).batches, now)
  {
    hide Submitted, OnlySubmissionKeys, SameOrders, CalledOnce, Emitted, NewRequests, FloatsDue, WithOrder;
    hide MembersOk, NotionalsOk, OrdersOk, TxClaimsOk, FloatFor, AdjustEvent, ExecuteEvent, HasOrder, OrderOf;
    BatchIdsOf(w);
    SubmitEffect(cfg, w, id, now, env);
  }

  lemma ElementaryTimely(cfg: Config, w: World, w': World, now: Time)
    requires WorldOk(w) && OpenUnclosed(w.batches) && Elementary(cfg, w, w', now)
    ensures Timely(w.batches, w'.batches, now)
  {
    hide Handled, Submitted, JustClosed, WorldOk;
    if ev :| w' == Handled(w, ev, now) {
      HandledTimely(w, ev, now);
    } else if pair :| w' == WithLock(cfg, w, pair, now) {
    } else if id: nat :| id < |w.batches| && w.batches[id].status == Open && w' == JustClosed(w, id, now) {
      JustClosedTimely(w, id, now);
    } else {
      var id, env :| w' == Submitted(cfg, w, id, now, env);
      SubmittedTimely(cfg, w, id, now, env);
    }
  }

  lemma StepTimely(cfg: Config, s: Sys, t: Timed)
    requires Inv(s) && OpenUnclosed(s.w.batches)
    ensures Timely(s.w.batches, Step(cfg, s, t).w.batches, t.at)
  {
    hide Handled, Ticked, ClosedBatch, Submitted, Inv, Elementary, WorldOk, OpenUnclosed;
    if Handler(t.act) {
      var P := (w: World) => Timely(s.w.batches, w.batches, t.at);
      forall w, w' | WorldOk(w) && P(w) && Elementary(cfg, w, w', t.at)
        ensures P(w')
      {
        ElementaryTimely(cfg, w, w', t.at);
        TimelyAgain(s.w.batches, w.batches, w'.batches, t.at);
      }
      StepHas(cfg, s, t, P);
    }
  }

  lemma {:induction false} RunUnclosed(cfg: Config, start: Time, acts: seq<Timed>)
    ensures OpenUnclosed(Run(cfg, start, acts).w.batches)
  {
    hide Step, Inv, TimesKept;
    if acts != [] {
      RunUnclosed(cfg, start, acts[..|acts| - 1]);
      RunKeeps(cfg, start, acts[..|acts| - 1]);
      StepTimely(cfg, Run(cfg, start, acts[..|acts| - 1]), acts[|acts| - 1]);
    }
  }

  /** After any run every step gives the batches it opens and the batches it closes its own time, and changes no other
      opening or closing time and no pair. */
  lemma BatchTimes(cfg: Config, start: Time, acts: seq<Timed>, t: Timed)
    ensures TimesKept(Run(cfg, start, acts).w.batches, Run(cfg, start, acts + [t]).w.batches, t.at)
  {
    hide Run, Step, Inv, TimesKept;
    RunUnclosed(cfg, start, acts);
    RunKeeps(cfg, start, acts);
    RunStep(cfg, start, acts, t);
    StepTimely(cfg, Run(cfg, start, acts), t);
  }
}
