/** What failed downstream calls leave behind, and when they are repeated. */
module Failures {
  import opened Base
  import opened Records
  import opened Configuration
  import opened Memstore
  import opened Idempotency
  import opened Pipeline
  import opened Runs
  import opened Latency
  import Pairs
  import Refinement

  /** The idempotency store lets the batch's submission go ahead. */
  predicate Unclaimed(w: World, id: nat, now: Time, env: SubmitEnv) {
    env.aggDown || !Held(w.seen, AggKey(id), now)
  }

  lemma ClaimThenPlace(cfg: Config, w: World, w2: World, b: Batch, now: Time, env: SubmitEnv)
    requires HasOrder(w.orders, b.id) && Unclaimed(w, b.id, now, env)
    requires w2 == w.(batches := WithStatus(w.batches, b.id, Closed, Executing, None, now).0,
                      seen := if env.aggDown then w.seen else Marked(w.seen, AggKey(b.id), DAY, now))
    ensures Executed(cfg, w, b, now, env) == Refinement.Placed(cfg, w2, b, now, env)
  {
    hide WithStatus, Filled, AggKey;
  }

  /** Once let through, the request is made, answered or not. */
  lemma PlacementAsks(cfg: Config, w: World, b: Batch, now: Time, env: SubmitEnv)
    requires HasOrder(w.orders, b.id) && b.id < |w.batches| && w.batches[b.id].status == Executing
    ensures |Refinement.Placed(cfg, w, b, now, env).calls| > |w.calls|
  {
    hide Filled, AggKey, HedgeKey;
    if env.fill.Some? {
      var f := env.fill.value;
      var w4 := w.(calls := w.calls + [AggregateCall(b.id, b.notionalUSD, AggKey(b.id), true)],
                   orders := WithFill(w.orders, b.id, f.price, f.total, f.routes));
      var o := w4.orders[FindOrder(w.orders, b.id)];
      FillEffect(cfg, w4, b, o, now, env);
      assert Refinement.Placed(cfg, w, b, now, env) == Filled(cfg, w4, b, o, now, env);
    }
  }

  lemma ExecutionAsks(cfg: Config, w: World, b: Batch, now: Time, env: SubmitEnv)
    requires HasOrder(w.orders, b.id) && b.id < |w.batches| && w.batches[b.id] == b && Submittable(b)
    ensures Executed(cfg, w, b, now, env).calls != w.calls <==> Unclaimed(w, b.id, now, env)
  {
    hide Filled, AggKey;
    if Unclaimed(w, b.id, now, env) {
      var w2 := w.(batches := WithStatus(w.batches, b.id, Closed, Executing, None, now).0,
                   seen := if env.aggDown then w.seen else Marked(w.seen, AggKey(b.id), DAY, now));
      ClaimThenPlace(cfg, w, w2, b, now, env);
      PlacementAsks(cfg, w2, b, now, env);
    }
  }

  /** A submission of a batch that may be submitted reaches liquidity exactly when its claim is free. */
  lemma SubmissionAsks(cfg: Config, w: World, id: nat, now: Time, env: SubmitEnv)
    requires WorldOk(w) && id < |w.batches| && w.batches[id].status in {Closed, Executing}
    ensures Submitted(cfg, w, id, now, env).calls != w.calls <==> Unclaimed(w, id, now, env)
  {
    hide Executed, AggKey;
    var b := w.batches[id];
    var w1 := w.(orders := WithOrder(w.orders, id, b.assetPair, b.notionalUSD));
    CreatedOrderFound(w.orders, id, b.assetPair, b.notionalUSD);
    OrderNotSettled(w, id);
    ExecutionAsks(cfg, w1, b, now, env);
  }

  lemma OrderNotSettled(w: World, id: nat)
    requires WorldOk(w) && id < |w.batches| && Submittable(w.batches[id])
    ensures var rows := WithOrder(w.orders, id, w.batches[id].assetPair, w.batches[id].notionalUSD);
            HasOrder(rows, id) && OrderOf(rows, id).status != OrderSettled
  {
    CreatedOrderFound(w.orders, id, w.batches[id].assetPair, w.batches[id].notionalUSD);
  }

  /** What a failed liquidity call leaves behind: the batch is EXECUTING and its claim is held for a day. */
  lemma FailureKeepsClaim(cfg: Config, w: World, id: nat, now: Time, env: SubmitEnv)
    requires WorldOk(w) && id < |w.batches| && Submittable(w.batches[id])
    requires !env.aggDown && !Held(w.seen, AggKey(id), now) && env.fill.None?
    ensures var w1 := Submitted(cfg, w, id, now, env);
            && WorldOk(w1) && id < |w1.batches| && w1.batches[id].status == Executing
            && AggKey(id) in w1.seen && w1.seen[AggKey(id)] == now + DAY
  {
    hide AggKey, Filled;
    SubmittedKeeps(cfg, w, id, now, env);
    OrderNotSettled(w, id);
    var b := w.batches[id];
    var w1 := w.(orders := WithOrder(w.orders, id, b.assetPair, b.notionalUSD));
    assert Submitted(cfg, w, id, now, env) == Executed(cfg, w1, b, now, env);
  }

  /** After a failed liquidity call a retry reaches liquidity exactly when a day has passed or the idempotency store
      cannot be asked. */
  lemma RetryWaitsADay(cfg: Config, w: World, id: nat, now: Time, env: SubmitEnv, later: Time, again: SubmitEnv)
    requires WorldOk(w) && id < |w.batches| && Submittable(w.batches[id])
    requires !env.aggDown && !Held(w.seen, AggKey(id), now) && env.fill.None?
    ensures var w1 := Submitted(cfg, w, id, now, env);
            Submitted(cfg, w1, id, later, again).calls != w1.calls <==> again.aggDown || later >= now + DAY
  {
    hide Submitted, AggKey, WorldOk;
    FailureKeepsClaim(cfg, w, id, now, env);
    SubmissionAsks(cfg, Submitted(cfg, w, id, now, env), id, later, again);
  }

  // --- Over whole runs ---

  /** Requests to liquidity routing made for the batch. */
  function Requests(calls: seq<Call>, id: nat): nat {
    if calls == [] then 0
    else
      var c := calls[|calls| - 1];
      Requests(calls[..|calls| - 1], id) + if c.AggregateCall? && c.batchId == id then 1 else 0
  }

  lemma RequestsAppend(calls: seq<Call>, c: Call, id: nat)
    ensures Requests(calls + [c], id) == Requests(calls, id) + if c.AggregateCall? && c.batchId == id then 1 else 0
  {
    assert (calls + [c])[..|calls|] == calls;
  }

  /** The batch is as it was and nothing was asked for it. */
  ghost predicate Spared(w: World, w': World, id: nat) {
    && id < |w.batches| <= |w'.batches| && w'.batches[id] == w.batches[id]
    && Requests(w'.calls, id) == Requests(w.calls, id)
  }

  ghost predicate KeepsClaim(w: World, w': World, id: nat) {
    AggKey(id) in w.seen ==> AggKey(id) in w'.seen && w'.seen[AggKey(id)] >= w.seen[AggKey(id)]
  }

  lemma OtherSubmission(cfg: Config, w: World, j: nat, now: Time, env: SubmitEnv, id: nat)
    requires WorldOk(w) && id < |w.batches| && j != id
    ensures var w' := Submitted(cfg, w, j, now, env); Spared(w, w', id) && KeepsClaim(w, w', id)
  {
    hide Submitted, WorldOk, AggKey;
    var w' := Submitted(cfg, w, j, now, env);
    BatchIdsOf(w);
    SubmitEffect(cfg, w, j, now, env);
    OutcomeRequests(w, w', j, id);
  }

  lemma OutcomeRequests(w: World, w': World, j: nat, id: nat)
    requires SubmitOutcome(w, w', j) && j != id
    ensures Requests(w'.calls, id) == Requests(w.calls, id)
  {
    hide SameIntake, OnlySubmissionKeys, SameOrders;
    if w' != w && Unfilled(w, w', j) && w'.calls != w.calls {
      var key :| w'.calls == w.calls + [AggregateCall(j, w.batches[j].notionalUSD, key, false)];
      RequestsAppend(w.calls, AggregateCall(j, w.batches[j].notionalUSD, key, false), id);
    } else if w' != w && FilledOnce(w, w', j) {
      FillRequests(w.calls, w'.calls, j, id);
    }
  }

  lemma FillRequests(calls: seq<Call>, calls': seq<Call>, j: nat, id: nat)
    requires CalledOnce(calls, calls', j) && j != id
    ensures Requests(calls', id) == Requests(calls, id)
  {
    var c :| FillCall(c, j) && (calls' == calls + [c] || (exists h :: HedgeCall(h, j) && calls' == calls + [c] + [h]));
    RequestsAppend(calls, c, id);
    if calls' != calls + [c] {
      var h :| HedgeCall(h, j) && calls' == calls + [c] + [h];
      RequestsAppend(calls + [c], h, id);
    }
  }

  /** A close leaves every batch alone that is not OPEN. */
  lemma CloseSpares(cfg: Config, w: World, j: nat, now: Time, env: SubmitEnv, id: nat)
    requires WorldOk(w) && id < |w.batches| && w.batches[id].status != Open
    ensures var w' := ClosedBatch(cfg, w, j, now, env); Spared(w, w', id) && KeepsClaim(w, w', id)
  {
    hide Submitted, WorldOk, AggKey;
    if j < |w.batches| && w.batches[j].status == Open {
      JustClosedKeeps(w, j, now);
      OtherSubmission(cfg, JustClosed(w, j, now), j, now, env, id);
    }
  }

  lemma TickedOneSpares(cfg: Config, w: World, b: Batch, now: Time, env: TickEnv, id: nat)
    requires WorldOk(w) && id < |w.batches| && w.batches[id].status != Open
    ensures var w' := TickedOne(cfg, w, b, now, env); Spared(w, w', id) && KeepsClaim(w, w', id)
  {
    hide ClosedBatch, WorldOk, AggKey, CadenceKey;
    KeysApart("", "", b.assetPair, b.assetPair, id);
    LockKeeps(cfg, w, b.assetPair, now);
    CloseSpares(cfg, WithLock(cfg, w, b.assetPair, now), b.id, now, env.submit, id);
  }

  lemma {:induction false} TickedSpares(
    cfg: Config, w: World, open: seq<Batch>, n: nat, now: Time, envs: nat -> TickEnv, id: nat)
    requires WorldOk(w) && id < |w.batches| && w.batches[id].status != Open && n <= |open|
    ensures var w' := TickedUpTo(cfg, w, open, n, now, envs); Spared(w, w', id) && KeepsClaim(w, w', id)
  {
    hide TickedOne, WorldOk, AggKey, Requests;
    if n > 0 {
      TickedSpares(cfg, w, open, n - 1, now, envs, id);
      TickedKeeps(cfg, w, open, n - 1, now, envs);
      TickedOneSpares(cfg, TickedUpTo(cfg, w, open, n - 1, now, envs), open[n - 1], now, envs(open[n - 1].id), id);
    }
  }

  lemma HandledSpares(w: World, ev: TxEvent, now: Time, id: nat)
    requires WorldOk(w) && id < |w.batches| && w.batches[id].status != Open
    ensures var w' := Handled(w, ev, now); Spared(w, w', id) && KeepsClaim(w, w', id)
  {
    hide Handled, Joined, AggKey, TxKey;
    KeysApart(ev.txId, ev.txId, "", "", id);
    HandledEffect(w, ev, now);
    if WellFormed(ev) && ev.txId !in w.byTx {
      JoinedEffect(w, ev, now);
      JoinedBatches(w, ev, now);
    }
  }

  /** Every step but a submission of the batch itself leaves a batch alone that is not OPEN. */
  lemma StepSpares(cfg: Config, s: Sys, t: Timed, id: nat)
    requires Inv(s) && id < |s.w.batches| && s.w.batches[id].status != Open
    requires !(t.act.Submit? && t.act.id == id)
    ensures Spared(s.w, Step(cfg, s, t).w, id)
    ensures !(t.act.Forget? && AggKey(id) in t.act.keys) ==> KeepsClaim(s.w, Step(cfg, s, t).w, id)
  {
    hide Handled, TickedUpTo, ClosedBatch, Submitted, WorldOk, HistoryOk, AggKey, Requests;
    match t.act {
      case Event(ev) => HandledSpares(s.w, ev, t.at, id);
      case Tick(envs) => TickedSpares(cfg, s.w, OpenRows(s.w.batches), |OpenRows(s.w.batches)|, t.at, envs, id);
      case Close(j, env) => CloseSpares(cfg, s.w, j, t.at, env, id);
      case Submit(j, env) => OtherSubmission(cfg, s.w, j, t.at, env, id);
      case _ =>
    }
  }

  /** Nothing in the wired service submits a batch but its close, so a batch past it is never submitted again. */
  lemma {:induction false} OnlyClosesSubmit(cfg: Config, start: Time, acts: seq<Timed>, more: seq<Timed>, id: nat)
    requires id < |Run(cfg, start, acts).w.batches| && Run(cfg, start, acts).w.batches[id].status != Open
    requires forall i :: 0 <= i < |more| ==> !more[i].act.Submit?
    ensures Spared(Run(cfg, start, acts).w, Run(cfg, start, acts + more).w, id)
  {
    hide Step, Inv, Requests;
    if more == [] {
      assert acts + more == acts;
    } else {
      var front, t := more[..|more| - 1], more[|more| - 1];
      assert more == front + [t];
      OnlyClosesSubmit(cfg, start, acts, front, id);
      assert (acts + more)[..|acts + more| - 1] == acts + front;
      RunKeeps(cfg, start, acts + front);
      StepSpares(cfg, Run(cfg, start, acts + front), t, id);
    }
  }

  /** The batch waits for a fill and its claim is held at least until then. */
  ghost predicate Barred(w: World, id: nat, until: Time) {
    && id < |w.batches| && w.batches[id].status == Executing
    && AggKey(id) in w.seen && w.seen[AggKey(id)] >= until
  }

  /** The idempotency store answers every submission and does not lose the batch's claim. */
  ghost predicate Answered(a: Action, id: nat) {
    match a
    case Tick(envs) => forall i: nat :: !envs(i).submit.aggDown
    case Close(_, env) => !env.aggDown
    case Submit(_, env) => !env.aggDown
    case Forget(keys) => AggKey(id) !in keys
    case _ => true
  }

  lemma BarredSubmission(cfg: Config, w: World, id: nat, now: Time, env: SubmitEnv, until: Time)
    requires WorldOk(w) && Barred(w, id, until) && now < until && !env.aggDown
    ensures var w' := Submitted(cfg, w, id, now, env);
            Barred(w', id, until) && Requests(w'.calls, id) == Requests(w.calls, id)
  {
    hide Submitted, WorldOk, AggKey, Requests;
    var w' := Submitted(cfg, w, id, now, env);
    BatchIdsOf(w);
    SubmissionAsks(cfg, w, id, now, env);
    SubmitEffect(cfg, w, id, now, env);
  }

  lemma StepBarred(cfg: Config, s: Sys, t: Timed, id: nat, until: Time)
    requires Inv(s) && Barred(s.w, id, until) && t.at < until && Answered(t.act, id)
    ensures Barred(Step(cfg, s, t).w, id, until) && Requests(Step(cfg, s, t).w.calls, id) == Requests(s.w.calls, id)
  {
    hide Handled, Ticked, ClosedBatch, Submitted, WorldOk, HistoryOk, AggKey, Requests;
    if t.act.Submit? && t.act.id == id {
      BarredSubmission(cfg, s.w, id, t.at, t.act.env, until);
    } else {
      StepSpares(cfg, s, t, id);
    }
  }

  /** While the claim is held nothing is asked for the batch, whoever tries. */
  lemma {:induction false} BarredUntil(
    cfg: Config, start: Time, acts: seq<Timed>, more: seq<Timed>, id: nat, until: Time)
    requires Barred(Run(cfg, start, acts).w, id, until)
    requires forall i :: 0 <= i < |more| ==> more[i].at < until && Answered(more[i].act, id)
    ensures var w, w' := Run(cfg, start, acts).w, Run(cfg, start, acts + more).w;
            Barred(w', id, until) && Requests(w'.calls, id) == Requests(w.calls, id)
  {
    hide Step, Inv, Barred, Answered, Requests;
    if more == [] {
      assert acts + more == acts;
    } else {
      var front, t := more[..|more| - 1], more[|more| - 1];
      assert more == front + [t];
      BarredUntil(cfg, start, acts, front, id, until);
      assert (acts + more)[..|acts + more| - 1] == acts + front;
      RunKeeps(cfg, start, acts + front);
      StepBarred(cfg, Run(cfg, start, acts + front), t, id, until);
    }
  }

  /** Liquidity refuses the request made under a fresh claim of the batch's key. */
  ghost predicate RefusedBy(w: World, id: nat, now: Time, env: SubmitEnv) {
    env.fill.None? && !env.aggDown && !Held(w.seen, AggKey(id), now)
  }

  /** A tick, close or submission submits the batch and liquidity refuses it. */
  ghost predicate Refused(cfg: Config, w: World, t: Timed, id: nat) {
    id < |w.batches|
    && match t.act
       case Tick(envs) =>
         w.batches[id].status == Open && TickCloses(cfg, w, w.batches[id], t.at, envs(id))
         && RefusedBy(w, id, t.at, envs(id).submit)
       case Close(b, env) => b == id && w.batches[id].status == Open && RefusedBy(w, id, t.at, env)
       case Submit(b, env) => b == id && Submittable(w.batches[id]) && RefusedBy(w, id, t.at, env)
       case _ => false
  }

  lemma CloseRefusalBars(cfg: Config, w: World, id: nat, now: Time, env: SubmitEnv)
    requires WorldOk(w) && id < |w.batches| && w.batches[id].status == Open && RefusedBy(w, id, now, env)
    ensures Barred(ClosedBatch(cfg, w, id, now, env), id, now + DAY)
  {
    hide Submitted, WorldOk, AggKey;
    JustClosedKeeps(w, id, now);
    FailureKeepsClaim(cfg, JustClosed(w, id, now), id, now, env);
  }

  /** The batch, its rows, its submission key and its pair's lock are as before. */
  ghost predicate Untouched(w: World, w': World, id: nat)
    requires id < |w.batches|
  {
    && WorldOk(w') && |w'.batches| == |w.batches| && w'.batches[id] == w.batches[id] && w'.members == w.members
    && SameKey(w.seen, w'.seen, AggKey(id)) && SameKey(w.seen, w'.seen, CadenceKey(w.batches[id].assetPair))
  }

  ghost predicate SameKey(seen: Seen, seen': Seen, key: string) {
    (key in seen <==> key in seen') && (key in seen ==> seen'[key] == seen[key])
  }

  /** The submission of one batch claims nothing of another. */
  lemma OtherKeys(seen: Seen, seen': Seen, j: nat, id: nat, pair: string)
    requires OnlySubmissionKeys(seen, seen', j) && j != id
    ensures SameKey(seen, seen', AggKey(id)) && SameKey(seen, seen', CadenceKey(pair))
  {
    hide AggKey, HedgeKey, CadenceKey;
    KeysApart("", "", pair, pair, j);
    KeysApart("", "", pair, pair, id);
    if AggKey(id) == AggKey(j) {
      AggKeyInjective(id, j);
    }
  }

  lemma SubmissionUntouched(cfg: Config, w: World, j: nat, now: Time, env: SubmitEnv, id: nat)
    requires WorldOk(w) && id < |w.batches| && j != id
    ensures Untouched(w, Submitted(cfg, w, j, now, env), id)
  {
    hide Submitted, WorldOk, AggKey, CadenceKey;
    var w' := Submitted(cfg, w, j, now, env);
    BatchIdsOf(w);
    SubmittedKeeps(cfg, w, j, now, env);
    SubmitEffect(cfg, w, j, now, env);
    if w' != w {
      OtherKeys(w.seen, w'.seen, j, id, w.batches[id].assetPair);
    }
  }

  lemma UntouchedTrans(a: World, b: World, c: World, id: nat)
    requires id < |a.batches| && Untouched(a, b, id) && Untouched(b, c, id)
    ensures Untouched(a, c, id)
  {
    hide WorldOk, AggKey, CadenceKey;
  }

  lemma LockUntouched(cfg: Config, w: World, pair: string, now: Time, id: nat)
    requires WorldOk(w) && id < |w.batches| && w.batches[id].assetPair != pair
    ensures Untouched(w, WithLock(cfg, w, pair, now), id)
  {
    hide WorldOk, AggKey, CadenceKey;
    LockKeeps(cfg, w, pair, now);
    KeysApart("", "", pair, w.batches[id].assetPair, id);
  }

  lemma JustClosedUntouched(w: World, j: nat, now: Time, id: nat)
    requires WorldOk(w) && id < |w.batches| && j < |w.batches| && w.batches[j].status == Open && j != id
    ensures Untouched(w, JustClosed(w, j, now), id)
  {
    hide WorldOk, AggKey, CadenceKey;
    JustClosedKeeps(w, j, now);
  }

  /** Looking at a batch of another pair leaves this one alone. */
  lemma TickedOneUntouched(cfg: Config, w: World, x: Batch, now: Time, env: TickEnv, id: nat)
    requires WorldOk(w) && id < |w.batches| && x.id != id && x.assetPair != w.batches[id].assetPair
    ensures Untouched(w, TickedOne(cfg, w, x, now, env), id)
  {
    hide Submitted, WorldOk, Untouched;
    SelfUntouched(w, id);
    var w1 := WithLock(cfg, w, x.assetPair, now);
    LockUntouched(cfg, w, x.assetPair, now, id);
    WorldOfUntouched(w, w1, id);
    if x.id < |w1.batches| && w1.batches[x.id].status == Open {
      var w2 := JustClosed(w1, x.id, now);
      JustClosedUntouched(w1, x.id, now, id);
      WorldOfUntouched(w1, w2, id);
      SubmissionUntouched(cfg, w2, x.id, now, env.submit, id);
      UntouchedTrans(w1, w2, Submitted(cfg, w2, x.id, now, env.submit), id);
      UntouchedTrans(w, w1, Submitted(cfg, w2, x.id, now, env.submit), id);
    }
  }

  lemma SelfUntouched(w: World, id: nat)
    requires WorldOk(w) && id < |w.batches|
    ensures Untouched(w, w, id)
  {
  }

  lemma WorldOfUntouched(w: World, w': World, id: nat)
    requires id < |w.batches| && Untouched(w, w', id)
    ensures WorldOk(w') && |w'.batches| == |w.batches| && w'.batches[id] == w.batches[id]
  {
  }

  /** Until the pass comes to a batch, it is untouched. */
  lemma {:induction false} PassUntouched(
    cfg: Config, w: World, open: seq<Batch>, n: nat, k: nat, now: Time, envs: nat -> TickEnv, id: nat)
    requires WorldOk(w) && n <= k < |open| && id < |w.batches|
    requires forall j :: 0 <= j < k ==> open[j].id != id && open[j].assetPair != w.batches[id].assetPair
    ensures Untouched(w, TickedUpTo(cfg, w, open, n, now, envs), id)
  {
    hide TickedOne, WorldOk, Untouched;
    if n == 0 {
      SelfUntouched(w, id);
    } else {
      var w1, x := TickedUpTo(cfg, w, open, n - 1, now, envs), open[n - 1];
      PassUntouched(cfg, w, open, n - 1, k, now, envs, id);
      WorldOfUntouched(w, w1, id);
      TickedOneUntouched(cfg, w1, x, now, envs(x.id), id);
      UntouchedTrans(w, w1, TickedOne(cfg, w1, x, now, envs(x.id)), id);
    }
  }

  /** Once barred, a batch stays so for the rest of the pass. */
  lemma {:induction false} PassBarred(
    cfg: Config, w: World, open: seq<Batch>, m: nat, n: nat, now: Time, envs: nat -> TickEnv, id: nat, until: Time)
    requires WorldOk(w) && m <= n <= |open| && Barred(TickedUpTo(cfg, w, open, m, now, envs), id, until)
    ensures Barred(TickedUpTo(cfg, w, open, n, now, envs), id, until)
  {
    hide TickedOne, WorldOk, AggKey, Requests;
    if m < n {
      PassBarred(cfg, w, open, m, n - 1, now, envs, id, until);
      TickedKeeps(cfg, w, open, n - 1, now, envs);
      var x := open[n - 1];
      TickedOneSpares(cfg, TickedUpTo(cfg, w, open, n - 1, now, envs), x, now, envs(x.id), id);
    }
  }

  lemma ClosingTickBars(cfg: Config, w: World, w1: World, b: Batch, now: Time, env: TickEnv)
    requires b.id < |w.batches| && w.batches[b.id] == b && b.status == Open && Untouched(w, w1, b.id)
    requires TickCloses(cfg, w, b, now, env) && RefusedBy(w, b.id, now, env.submit)
    ensures Barred(TickedOne(cfg, w1, b, now, env), b.id, now + DAY)
  {
    hide ClosedBatch, WorldOk, AggKey, CadenceKey, Barred;
    KeysApart("", "", b.assetPair, b.assetPair, b.id);
    LockKeeps(cfg, w1, b.assetPair, now);
    CloseRefusalBars(cfg, WithLock(cfg, w1, b.assetPair, now), b.id, now, env.submit);
  }

  /** Where the listing has the batch; the batches before it are of other pairs. */
  lemma ListedAt(w: World, id: nat) returns (k: nat)
    requires WorldOk(w) && id < |w.batches| && w.batches[id].status == Open
    ensures var open := OpenRows(w.batches);
            && k < |open| && open[k] == w.batches[id] && w.batches[id].id == id
            && (forall j :: 0 <= j < k ==> open[j].id != id && open[j].assetPair != w.batches[id].assetPair)
  {
    hide MembersOk, NotionalsOk, OrdersOk, TxClaimsOk, OpenRows;
    var open, b := OpenRows(w.batches), w.batches[id];
    OpenRowsListed(w.batches);
    k :| 0 <= k < |open| && open[k] == b;
    forall j | 0 <= j < k
      ensures open[j].id != id && open[j].assetPair != b.assetPair
    {
      assert w.batches[open[j].id] == open[j] && open[j].status == Open;
    }
  }

  lemma TickRefusalBars(cfg: Config, w: World, now: Time, envs: nat -> TickEnv, id: nat)
    requires WorldOk(w) && id < |w.batches| && w.batches[id].status == Open
    requires TickCloses(cfg, w, w.batches[id], now, envs(id)) && RefusedBy(w, id, now, envs(id).submit)
    ensures Barred(Ticked(cfg, w, now, envs), id, now + DAY)
  {
    hide TickedUpTo, TickedOne, TickCloses, RefusedBy, Barred, Untouched, CadenceKey, WorldOk, OpenRows;
    var open, b := OpenRows(w.batches), w.batches[id];
    var k := ListedAt(w, id);
    PassUntouched(cfg, w, open, k, k, now, envs, id);
    ClosingTickBars(cfg, w, TickedUpTo(cfg, w, open, k, now, envs), b, now, envs(id));
    OneMore(cfg, w, open, k, now, envs);
    PassBarred(cfg, w, open, k + 1, |open|, now, envs, id, now + DAY);
  }

  lemma OneMore(cfg: Config, w: World, open: seq<Batch>, n: nat, now: Time, envs: nat -> TickEnv)
    requires n < |open|
    ensures TickedUpTo(cfg, w, open, n + 1, now, envs)
         == TickedOne(cfg, TickedUpTo(cfg, w, open, n, now, envs), open[n], now, envs(open[n].id))
  {
    hide TickedOne;
  }

  lemma RefusalBars(cfg: Config, s: Sys, t: Timed, id: nat)
    requires Inv(s) && Refused(cfg, s.w, t, id)
    ensures Barred(Step(cfg, s, t).w, id, t.at + DAY)
  {
    hide Handled, Ticked, ClosedBatch, Submitted, WorldOk, HistoryOk, AggKey, TickCloses;
    match t.act {
      case Tick(envs) => TickRefusalBars(cfg, s.w, t.at, envs, id);
      case Close(_, env) => CloseRefusalBars(cfg, s.w, id, t.at, env);
      case Submit(_, env) => FailureKeepsClaim(cfg, s.w, id, t.at, env);
    }
  }

  /** After a refused submission, met by a tick, a close or a retry, no run of less than a day asks liquidity for the
      batch again, and the batch stays EXECUTING; the first submission after that does ask, by SubmissionAsks. */
  lemma RefusedForADay(cfg: Config, start: Time, acts: seq<Timed>, t: Timed, more: seq<Timed>, id: nat)
    requires Refused(cfg, Run(cfg, start, acts).w, t, id)
    requires forall i :: 0 <= i < |more| ==> more[i].at < t.at + DAY && Answered(more[i].act, id)
    ensures var w, w' := Run(cfg, start, acts + [t]).w, Run(cfg, start, acts + [t] + more).w;
            && Requests(w'.calls, id) == Requests(w.calls, id)
            && id < |w'.batches| && w'.batches[id].status == Executing
  {
    hide Step, Inv, Refused, Answered, Requests;
    RunKeeps(cfg, start, acts);
    assert (acts + [t])[..|acts|] == acts;
    RefusalBars(cfg, Run(cfg, start, acts), t, id);
    BarredUntil(cfg, start, acts + [t], more, id, t.at + DAY);
  }

  // --- Hedging ---

  /** Filling settles the batch whatever the hedger meets; its order is settled exactly when the exposure is placed. */
  lemma OrderSettlesWhenHedged(cfg: Config, w: World, b: Batch, now: Time, env: SubmitEnv)
    requires b.id < |w.batches| && w.batches[b.id].status == Executing
    requires HasOrder(w.orders, b.id) && OrderOf(w.orders, b.id).status != OrderSettled
    ensures var o := OrderOf(w.orders, b.id);
            var w' := Filled(cfg, w, b, o, now, env);
            && b.id < |w'.batches| && w'.batches[b.id].status == Settled && HasOrder(w'.orders, b.id)
            && (OrderOf(w'.orders, b.id).status == OrderSettled <==>
                  (env.hedgeDown || !Held(w.seen, HedgeKey(b.id), now)) && o.notionalUSD > 0.0 && env.hedged.Some?)
            && (OrderOf(w'.orders, b.id).status == OrderSettled ==>
                  && env.hedged == Some(OrderOf(w'.orders, b.id).hedgedNotional)
                  && OrderOf(w'.orders, b.id).settledAt == Some(now))
  {
    hide Emitted, HedgeKey, Pairs.FiatOf, Pairs.CryptoOf;
    var o := OrderOf(w.orders, b.id);
    var fiat, asset := Pairs.FiatOf(b.assetPair), Pairs.CryptoOf(b.assetPair);
    FillEffect(cfg, w, b, o, now, env);
    TrackedTouches(cfg, w, o, fiat, asset, now);
    HedgedOrder(Tracked(cfg, w, o, fiat, asset, now), o, fiat, now, env);
    FilledOrders(cfg, w, b, o, now, env);
  }

  lemma TrackedTouches(cfg: Config, w: World, o: AggregateOrder, fiat: string, asset: string, now: Time)
    ensures var w1 := Tracked(cfg, w, o, fiat, asset, now); w1.orders == w.orders && w1.seen == w.seen
  {
  }

  lemma FilledOrders(cfg: Config, w: World, b: Batch, o: AggregateOrder, now: Time, env: SubmitEnv)
    ensures var fiat, asset := Pairs.FiatOf(b.assetPair), Pairs.CryptoOf(b.assetPair);
            Filled(cfg, w, b, o, now, env).orders
            == Hedged(Tracked(cfg, w, o, fiat, asset, now), o, fiat, now, env).orders
  {
    hide Hedged, Tracked, WithStatus;
  }

  lemma HedgedOrder(w: World, o: AggregateOrder, fiat: string, now: Time, env: SubmitEnv)
    requires HasOrder(w.orders, o.batchId) && o == OrderOf(w.orders, o.batchId) && o.status != OrderSettled
    ensures var w' := Hedged(w, o, fiat, now, env);
            HasOrder(w'.orders, o.batchId)
            && (OrderOf(w'.orders, o.batchId).status == OrderSettled <==>
                  (env.hedgeDown || !Held(w.seen, HedgeKey(o.batchId), now)) && o.notionalUSD > 0.0 && env.hedged.Some?)
            && (OrderOf(w'.orders, o.batchId).status == OrderSettled ==>
                  && env.hedged == Some(OrderOf(w'.orders, o.batchId).hedgedNotional)
                  && OrderOf(w'.orders, o.batchId).settledAt == Some(now))
  {
    hide HedgeKey;
    if env.hedged.Some? {
      FindOrderStable(w.orders, WithSettled(w.orders, o.batchId, env.hedged.value, now), o.batchId, 0);
    }
  }

  // --- Nothing is retried after settlement ---

  /** Settled batches stay settled and their orders as they are. */
  ghost predicate Frozen(w: World, w': World) {
    && |w.batches| <= |w'.batches| && |w.orders| <= |w'.orders|
    && (forall b :: 0 <= b < |w.batches| && w.batches[b].status == Settled ==> w'.batches[b] == w.batches[b])
    && (forall i :: 0 <= i < |w.orders| && IsSettled(w, w.orders[i].batchId) ==> w'.orders[i] == w.orders[i])
  }

  lemma FrozenTrans(a: World, b: World, c: World)
    requires Frozen(a, b) && Frozen(b, c)
    ensures Frozen(a, c)
  {
    forall i | 0 <= i < |a.orders| && IsSettled(a, a.orders[i].batchId)
      ensures c.orders[i] == a.orders[i]
    {
      assert b.batches[a.orders[i].batchId] == a.batches[a.orders[i].batchId];
    }
  }

  lemma SubmittedFreezes(cfg: Config, w: World, id: nat, now: Time, env: SubmitEnv)
    requires WorldOk(w)
    ensures Frozen(w, Submitted(cfg, w, id, now, env))
  {
    hide Submitted;
    SubmitEffect(cfg, w, id, now, env);
    OutcomeFreezes(w, Submitted(cfg, w, id, now, env), id);
  }

  lemma OutcomeFreezes(w: World, w': World, id: nat)
    requires SubmitOutcome(w, w', id)
    ensures Frozen(w, w')
  {
    if w' != w {
      var created := WithOrder(w.orders, id, w.batches[id].assetPair, w.batches[id].notionalUSD);
      assert forall i :: 0 <= i < |w.orders| ==> created[i] == w.orders[i];
    }
  }

  lemma ClosedFreezes(cfg: Config, w: World, id: nat, now: Time, env: SubmitEnv)
    requires WorldOk(w)
    ensures Frozen(w, ClosedBatch(cfg, w, id, now, env))
  {
    hide Submitted, WorldOk;
    if id < |w.batches| && w.batches[id].status == Open {
      var w1 := JustClosed(w, id, now);
      JustClosedKeeps(w, id, now);
      SubmittedFreezes(cfg, w1, id, now, env);
      FrozenTrans(w, w1, Submitted(cfg, w1, id, now, env));
    }
  }

  lemma TickedOneFreezes(cfg: Config, w: World, b: Batch, now: Time, env: TickEnv)
    requires WorldOk(w)
    ensures Frozen(w, TickedOne(cfg, w, b, now, env))
  {
    hide ClosedBatch, WorldOk;
    var w1 := WithLock(cfg, w, b.assetPair, now);
    LockKeeps(cfg, w, b.assetPair, now);
    ClosedFreezes(cfg, w1, b.id, now, env.submit);
    FrozenTrans(w, w1, ClosedBatch(cfg, w1, b.id, now, env.submit));
  }

  lemma {:induction false} TickedFreezes(
      cfg: Config, w: World, open: seq<Batch>, n: nat, now: Time, envs: nat -> TickEnv)
    requires WorldOk(w) && n <= |open|
    ensures Frozen(w, TickedUpTo(cfg, w, open, n, now, envs))
  {
    hide TickedOne, WorldOk;
    if n > 0 {
      var w1, b := TickedUpTo(cfg, w, open, n - 1, now, envs), open[n - 1];
      TickedFreezes(cfg, w, open, n - 1, now, envs);
      TickedKeeps(cfg, w, open, n - 1, now, envs);
      TickedOneFreezes(cfg, w1, b, now, envs(b.id));
      FrozenTrans(w, w1, TickedOne(cfg, w1, b, now, envs(b.id)));
    }
  }

  lemma HandledFreezes(w: World, ev: TxEvent, now: Time)
    requires WorldOk(w)
    ensures Frozen(w, Handled(w, ev, now))
  {
    hide Handled, Joined;
    HandledEffect(w, ev, now);
    if WellFormed(ev) && ev.txId !in w.byTx {
      JoinedEffect(w, ev, now);
      JoinedBatches(w, ev, now);
    }
  }

  lemma StepFreezes(cfg: Config, s: Sys, t: Timed)
    requires Inv(s)
    ensures Frozen(s.w, Step(cfg, s, t).w)
  {
    hide Handled, TickedUpTo, ClosedBatch, Submitted, WorldOk, HistoryOk;
    match t.act {
      case Event(ev) => HandledFreezes(s.w, ev, t.at);
      case Tick(envs) => TickedFreezes(cfg, s.w, OpenRows(s.w.batches), |OpenRows(s.w.batches)|, t.at, envs);
      case Close(id, env) => ClosedFreezes(cfg, s.w, id, t.at, env);
      case Submit(id, env) => SubmittedFreezes(cfg, s.w, id, t.at, env);
      case _ =>
    }
  }

  /** Whatever happens later, a settled batch and its order stay as they are: a hedge that failed is never repeated. */
  lemma {:induction false} SettlementIsFinal(cfg: Config, start: Time, acts: seq<Timed>, more: seq<Timed>)
    ensures Frozen(Run(cfg, start, acts).w, Run(cfg, start, acts + more).w)
  {
    hide Step, Inv, Frozen;
    if more == [] {
      assert acts + more == acts;
      FrozenSame(Run(cfg, start, acts).w);
    } else {
      var front, t := more[..|more| - 1], more[|more| - 1];
      SettlementIsFinal(cfg, start, acts, front);
      assert (acts + more)[..|acts + more| - 1] == acts + front;
      RunKeeps(cfg, start, acts + front);
      StepFreezes(cfg, Run(cfg, start, acts + front), t);
      FrozenTrans(Run(cfg, start, acts).w, Run(cfg, start, acts + front).w, Run(cfg, start, acts + more).w);
    }
  }

  lemma FrozenSame(w: World)
    ensures Frozen(w, w)
  {
  }
}
