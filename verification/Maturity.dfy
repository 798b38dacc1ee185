/** Float is settled when it is due, and not before: the settlement days run from the last fill. */
module Maturity {
  import opened Base
  import opened Records
  import opened Configuration
  import opened Memstore
  import opened Pipeline
  import opened Runs
  import opened Steps
  import Failures
  import FloatTable
  import Pairs

  /** The currency has an unsettled row that falls due no earlier. */
  ghost predicate Waits(floats: seq<FloatPosition>, fiat: string, until: Time) {
    exists i :: 0 <= i < |floats| && floats[i].fiatCurrency == fiat && !floats[i].settled
      && floats[i].settlementDueAt.Some? && floats[i].settlementDueAt.value >= until
  }

  lemma AddedWaits(floats: seq<FloatPosition>, p: FloatPosition, fiat: string, until: Time)
    requires p.settlementDueAt.Some? && !p.settled
    requires p.fiatCurrency == fiat ==> p.settlementDueAt.value >= until
    requires Waits(floats, fiat, until) || p.fiatCurrency == fiat
    ensures Waits(FloatTable.Added(floats, p), fiat, until)
  {
    var floats', k := FloatTable.Added(floats, p), FloatTable.FindUnsettled(floats, p.fiatCurrency);
    if p.fiatCurrency == fiat {
      assert floats'[k].fiatCurrency == fiat && !floats'[k].settled && floats'[k].settlementDueAt == p.settlementDueAt;
    } else {
      var i :| 0 <= i < |floats| && floats[i].fiatCurrency == fiat && !floats[i].settled
        && floats[i].settlementDueAt.Some? && floats[i].settlementDueAt.value >= until;
      assert floats'[i] == floats[i];
    }
  }

  lemma SweptWaits(floats: seq<FloatPosition>, now: Time, fiat: string, until: Time)
    requires Waits(floats, fiat, until) && now < until
    ensures Waits(FloatTable.Swept(floats, now), fiat, until)
  {
    var i :| 0 <= i < |floats| && floats[i].fiatCurrency == fiat && !floats[i].settled
      && floats[i].settlementDueAt.Some? && floats[i].settlementDueAt.value >= until;
    FloatTable.SweepSettlesDue(floats, now, i);
  }

  /** The time until which a fill of the pair made then stays outstanding. */
  function DueTime(cfg: Config, pair: string, at: Time): Time {
    at + SettlementDaysFor(cfg, Pairs.FiatOf(pair)) * DAY
  }

  /** Once the batch is settled, its currency waits. */
  ghost predicate WaitsOnceSettled(w: World, id: nat, pair: string, until: Time) {
    && id < |w.batches| && w.batches[id].assetPair == pair
    && (IsSettled(w, id) ==> Waits(w.floats, Pairs.FiatOf(pair), until))
  }

  lemma OutcomeWaits(
      cfg: Config, w: World, w': World, j: nat, now: Time, id: nat, pair: string, from: Time)
    requires WaitsOnceSettled(w, id, pair, DueTime(cfg, pair, from))
    requires SubmitOutcome(w, w', j) && FloatsDue(cfg, w, w', j, now) && from <= now
    ensures WaitsOnceSettled(w', id, pair, DueTime(cfg, pair, from))
  {
    hide OnlySubmissionKeys, CalledOnce, NewRequests, Emitted, FloatFor, SettlementDaysFor, FloatTable.Added;
    hide SameOrders, Waits, Pairs.FiatOf;
    if w' != w && IsSettled(w', j) && !IsSettled(w, j) {
      var fiat, other := Pairs.FiatOf(pair), Pairs.FiatOf(w.batches[j].assetPair);
      var p: FloatPosition :|
        && w'.floats == FloatTable.Added(w.floats, p) && p.fiatCurrency == other && !p.settled
        && p.settlementDueAt == Some(now + SettlementDaysFor(cfg, other) * DAY);
      if IsSettled(w', id) {
        AddedWaits(w.floats, p, fiat, DueTime(cfg, pair, from));
      }
    }
  }

  lemma HandledWaits(w: World, ev: TxEvent, now: Time, id: nat, pair: string, until: Time)
    requires WorldOk(w) && WaitsOnceSettled(w, id, pair, until)
    ensures WaitsOnceSettled(Handled(w, ev, now), id, pair, until)
  {
    hide Handled, Joined, Waits;
    HandledEffect(w, ev, now);
    if WellFormed(ev) && ev.txId !in w.byTx {
      JoinedEffect(w, ev, now);
      JoinedBatches(w, ev, now);
    }
  }

  lemma ElementaryWaits(cfg: Config, w: World, w': World, now: Time, id: nat, pair: string, from: Time)
    requires WorldOk(w) && WaitsOnceSettled(w, id, pair, DueTime(cfg, pair, from))
    requires Elementary(cfg, w, w', now) && from <= now
    ensures WaitsOnceSettled(w', id, pair, DueTime(cfg, pair, from))
  {
    hide Handled, Submitted, WorldOk, Waits, SumFor;
    var until := DueTime(cfg, pair, from);
    if ev :| w' == Handled(w, ev, now) {
      HandledWaits(w, ev, now, id, pair, until);
    } else if key :| w' == WithLock(cfg, w, key, now) {
    } else if j: nat :| j < |w.batches| && w.batches[j].status == Open && w' == JustClosed(w, j, now) {
    } else {
      var j, env :| w' == Submitted(cfg, w, j, now, env);
      BatchIdsOf(w);
      SubmitEffect(cfg, w, j, now, env);
      OutcomeWaits(cfg, w, w', j, now, id, pair, from);
    }
  }

  lemma StepWaits(cfg: Config, s: Sys, t: Timed, id: nat, pair: string, from: Time)
    requires Inv(s) && WaitsOnceSettled(s.w, id, pair, DueTime(cfg, pair, from))
    requires from <= t.at && (t.act.Sweep? ==> t.at < DueTime(cfg, pair, from))
    ensures WaitsOnceSettled(Step(cfg, s, t).w, id, pair, DueTime(cfg, pair, from))
  {
    hide Handled, Ticked, ClosedBatch, Submitted, Inv, Elementary, WorldOk, Waits, FloatTable.Swept;
    var until := DueTime(cfg, pair, from);
    if Handler(t.act) {
      var P := (w: World) => WaitsOnceSettled(w, id, pair, until);
      forall w, w' | WorldOk(w) && P(w) && Elementary(cfg, w, w', t.at)
        ensures P(w')
      {
        ElementaryWaits(cfg, w, w', t.at, id, pair, from);
      }
      StepHas(cfg, s, t, P);
    } else if t.act.Sweep? && IsSettled(s.w, id) {
      SweptWaits(s.w.floats, t.at, Pairs.FiatOf(pair), until);
    }
  }

  lemma {:induction false} RunWaits(
      cfg: Config, start: Time, acts: seq<Timed>, more: seq<Timed>, id: nat, pair: string, from: Time)
    requires WaitsOnceSettled(Run(cfg, start, acts).w, id, pair, DueTime(cfg, pair, from))
    requires forall i :: 0 <= i < |more| ==>
      from <= more[i].at < DueTime(cfg, pair, from)
    ensures WaitsOnceSettled(
              Run(cfg, start, acts + more).w, id, pair, DueTime(cfg, pair, from))
  {
    hide Step, Inv, WaitsOnceSettled, DueTime;
    if more == [] {
      assert acts + more == acts;
    } else {
      var front, t := more[..|more| - 1], more[|more| - 1];
      assert more == front + [t];
      RunWaits(cfg, start, acts, front, id, pair, from);
      assert (acts + more)[..|acts + more| - 1] == acts + front;
      RunKeeps(cfg, start, acts + front);
      StepWaits(cfg, Run(cfg, start, acts + front), t, id, pair, from);
    }
  }

  /** From the step that settles a batch on, no sweep settles its currency before the settlement days have passed: over
      every later run within them the currency has an unsettled row due no earlier than their end. */
  lemma FillStaysOutstanding(
      cfg: Config, start: Time, acts: seq<Timed>, t: Timed, more: seq<Timed>, id: nat, pair: string)
    requires var w := Run(cfg, start, acts).w;
             id < |w.batches| && w.batches[id].assetPair == pair && !IsSettled(w, id)
    requires IsSettled(Run(cfg, start, acts + [t]).w, id)
    requires forall i :: 0 <= i < |more| ==> t.at <= more[i].at < DueTime(cfg, pair, t.at)
    ensures Waits(Run(cfg, start, acts + [t] + more).w.floats, Pairs.FiatOf(pair), DueTime(cfg, pair, t.at))
  {
    hide Run, Step, Inv, Waits;
    RunKeeps(cfg, start, acts);
    RunStep(cfg, start, acts, t);
    NotSwept(cfg, Run(cfg, start, acts), t, id);
    StepWaits(cfg, Run(cfg, start, acts), t, id, pair, t.at);
    RunWaits(cfg, start, acts + [t], more, id, pair, t.at);
    StillSettled(cfg, start, acts + [t], more, id);
  }

  lemma NotSwept(cfg: Config, s: Sys, t: Timed, id: nat)
    requires !IsSettled(s.w, id) && IsSettled(Step(cfg, s, t).w, id)
    ensures !t.act.Sweep?
  {
  }

  lemma StillSettled(cfg: Config, start: Time, acts: seq<Timed>, more: seq<Timed>, id: nat)
    requires IsSettled(Run(cfg, start, acts).w, id)
    ensures IsSettled(Run(cfg, start, acts + more).w, id)
  {
    hide Run;
    Failures.SettlementIsFinal(cfg, start, acts, more);
  }
}
