/** The handler steps are what undisturbed threads do: every atomic run is one of the interleavings. */
module Refinement {
  import opened Base
  import opened Records
  import opened Configuration
  import opened Memstore
  import opened Idempotency
  import opened Pipeline
  import opened Threads
  import FloatTable
  import FloatTracker
  import Ledger
  import Pairs

  lemma SoloFront(cfg: Config, s: Sys, t: Thread, now: Time, c: Choice, n: nat)
    requires n > 0
    ensures var m := Move(cfg, s, t, now, c);
            Solo(cfg, s, t, now, c, n) == Solo(cfg, m.0, m.1, now, c, n - 1)
  {
    hide Move;
    SoloSplit(cfg, s, t, now, c, 1, n - 1);
    assert Solo(cfg, s, t, now, c, 1) == Move(cfg, s, t, now, c) by {
      assert Solo(cfg, s, t, now, c, 0) == (s, t);
    }
  }

  lemma {:induction false} DoneStays(cfg: Config, s: Sys, now: Time, c: Choice, n: nat)
    ensures Solo(cfg, s, Done, now, c, n) == (s, Done)
  {
    if n > 0 {
      DoneStays(cfg, s, now, c, n - 1);
    }
  }

  /** The thread ends after at most n moves with the stores in state w. */
  ghost predicate Ends(cfg: Config, s: Sys, t: Thread, now: Time, c: Choice, n: nat, w: World) {
    var r := Solo(cfg, s, t, now, c, n);
    r.0.w == w && r.1 == Done
  }

  lemma EndsNow(cfg: Config, s: Sys, now: Time, c: Choice, n: nat)
    ensures Ends(cfg, s, Done, now, c, n, s.w)
  {
    DoneStays(cfg, s, now, c, n);
  }

  lemma EndsAfterMove(cfg: Config, s: Sys, t: Thread, s': Sys, t': Thread, now: Time, c: Choice, n: nat, w: World)
    requires n > 0 && Move(cfg, s, t, now, c) == (s', t') && Ends(cfg, s', t', now, c, n - 1, w)
    ensures Ends(cfg, s, t, now, c, n, w)
  {
    SoloFront(cfg, s, t, now, c, n);
  }

  // --- handle ---

  lemma SumAndSet(cfg: Config, s: Sys, b: nat, now: Time, c: Choice, n: nat)
    requires n >= 2
    ensures Ends(cfg, s, HSum(b), now, c, n, s.w.(batches := WithNotional(s.w.batches, b, SumFor(s.w.members, b))))
  {
    var sum := SumFor(s.w.members, b);
    var s2 := s.(w := s.w.(batches := WithNotional(s.w.batches, b, sum)));
    EndsNow(cfg, s2, now, c, n - 2);
    EndsAfterMove(cfg, s, HSet(b, sum), s2, Done, now, c, n - 1, s2.w);
    EndsAfterMove(cfg, s, HSum(b), s, HSet(b, sum), now, c, n, s2.w);
  }

  lemma OpenAndJoin(cfg: Config, s: Sys, ev: TxEvent, now: Time, c: Choice, n: nat)
    requires n >= 6 && ev.txId !in s.w.byTx
    ensures Ends(cfg, s, HOpen(ev), now, c, n, Joined(s.w, ev, now))
  {
    hide Ends, Ledger.Key, PairOf, SumFor, MembersOf;
    var b := FindOpen(s.w.batches, PairOf(ev));
    var isNew := MembersOf(s.w.members, b) == [];
    var s1 := s.(w := s.w.(batches := WithOpenBatch(s.w.batches, PairOf(ev), now)));
    var s2 := s1.(w := s1.w.(members := s1.w.members + [MembershipFor(ev, b)], byTx := s1.w.byTx + {ev.txId}));
    var end := Joined(s.w, ev, now);
    if isNew {
      var s3 := s2.(w := Emitted(s2.w, OpenPayload(b), b));
      SumAndSet(cfg, s3, b, now, c, n - 4);
      EndsAfterMove(cfg, s2, HAnnounce(b), s3, HSum(b), now, c, n - 3, end);
      EndsAfterMove(cfg, s1, HAdd(ev, b, isNew), s2, HAnnounce(b), now, c, n - 2, end);
    } else {
      SumAndSet(cfg, s2, b, now, c, n - 3);
      EndsAfterMove(cfg, s1, HAdd(ev, b, isNew), s2, HSum(b), now, c, n - 2, end);
    }
    EndsAfterMove(cfg, s1, HList(ev, b), s1, HAdd(ev, b, isNew), now, c, n - 1, end);
    EndsAfterMove(cfg, s, HOpen(ev), s1, HList(ev, b), now, c, n, end);
  }

  /** A consumer thread left alone makes exactly the handler's step. */
  lemma HandleIsAtomic(cfg: Config, s: Sys, ev: TxEvent, now: Time, c: Choice)
    requires !c.down
    ensures Ends(cfg, s, HClaim(ev), now, c, 8, Handled(s.w, ev, now))
  {
    var end := Handled(s.w, ev, now);
    if !WellFormed(ev) || Held(s.w.seen, TxKey(ev.txId), now) {
      EndsNow(cfg, s, now, c, 7);
      EndsAfterMove(cfg, s, HClaim(ev), s, Done, now, c, 8, end);
    } else {
      var s1 := Claimed(s, TxKey(ev.txId), now);
      if ev.txId in s.w.byTx {
        EndsNow(cfg, s1, now, c, 6);
        EndsAfterMove(cfg, s1, HExists(ev), s1, Done, now, c, 7, end);
      } else {
        OpenAndJoin(cfg, s1, ev, now, c, 6);
        EndsAfterMove(cfg, s1, HExists(ev), s1, HOpen(ev), now, c, 7, end);
      }
      EndsAfterMove(cfg, s, HClaim(ev), s1, HExists(ev), now, c, 8, end);
    }
  }

  // --- SubmitBatch and close ---

  /** The closing moves of a fill, from whatever the hedger left behind. */
  function Concluded(w: World, b: Batch, o: AggregateOrder, now: Time): World {
    Emitted(w.(batches := WithStatus(w.batches, b.id, Executing, Settled, None, now).0), ExecutePayload(b, o), b.id)
  }

  lemma SettleAndAnnounce(cfg: Config, s: Sys, b: Batch, now: Time, c: Choice, n: nat)
    requires n >= 2 && HasOrder(s.w.orders, b.id)
    ensures Ends(cfg, s, SSettle(b), now, c, n, Concluded(s.w, b, OrderOf(s.w.orders, b.id), now))
  {
    hide Ends, Ledger.Key;
    var s1 := s.(w := s.w.(batches := WithStatus(s.w.batches, b.id, Executing, Settled, None, now).0));
    var s2 := s1.(w := Emitted(s1.w, ExecutePayload(b, OrderOf(s.w.orders, b.id)), b.id));
    EndsNow(cfg, s2, now, c, n - 2);
    EndsAfterMove(cfg, s1, SAnnounce(b), s2, Done, now, c, n - 1, s2.w);
    EndsAfterMove(cfg, s, SSettle(b), s1, SAnnounce(b), now, c, n, s2.w);
  }

  lemma SettledRowKeepsOrder(rows: seq<AggregateOrder>, b: nat, hedged: Decimal, now: Time)
    requires HasOrder(rows, b)
    ensures var rows' := WithSettled(rows, b, hedged, now);
            HasOrder(rows', b) && OrderOf(rows', b).notionalUSD == OrderOf(rows, b).notionalUSD
            && OrderOf(rows', b).batchId == b
  {
    FindOrderStable(rows, WithSettled(rows, b, hedged, now), b, 0);
  }

  lemma HedgeThenSettle(cfg: Config, s: Sys, b: Batch, now: Time, c: Choice, n: nat)
    requires n >= 5 && HasOrder(s.w.orders, b.id)
    ensures var o := OrderOf(s.w.orders, b.id);
            Ends(cfg, s, GClaim(b), now, c, n,
                 Concluded(Hedged(s.w, o, Pairs.FiatOf(b.assetPair), now, c.env), b, o, now))
  {
    hide Ends, HedgeKey, Ledger.Key;
    var o, key, fiat := OrderOf(s.w.orders, b.id), HedgeKey(b.id), Pairs.FiatOf(b.assetPair);
    var end := Concluded(Hedged(s.w, o, fiat, now, c.env), b, o, now);
    if !c.env.hedgeDown && Held(s.w.seen, key, now) {
      SettleAndAnnounce(cfg, s, b, now, c, n - 1);
      EndsAfterMove(cfg, s, GClaim(b), s, SSettle(b), now, c, n, end);
    } else {
      var s1 := if c.env.hedgeDown then s else Claimed(s, key, now);
      var claim := if c.env.hedgeDown then None else Some(|s.claims|);
      HedgeSubmitThenSettle(cfg, s1, b, claim, now, c, n - 1);
      EndsAfterMove(cfg, s, GClaim(b), s1, GSubmit(b, claim), now, c, n, end);
    }
  }

  /** What the hedger does once it may submit. */
  function Exposed(w: World, o: AggregateOrder, b: Batch, now: Time, env: SubmitEnv): World {
    if o.notionalUSD <= 0.0 then w
    else
      var w2 := w.(calls := w.calls
                   + [ExposureCall(b.id, Pairs.FiatOf(b.assetPair), o.notionalUSD, HedgeKey(b.id), env.hedged.Some?)]);
      if env.hedged.None? then w2 else w2.(orders := WithSettled(w2.orders, b.id, env.hedged.value, now))
  }

  lemma HedgedRowThenSettle(
    cfg: Config, s: Sys, b: Batch, o: AggregateOrder, hedged: Decimal, now: Time, c: Choice, n: nat)
    requires n >= 3 && HasOrder(s.w.orders, b.id) && o == OrderOf(s.w.orders, b.id)
    ensures Ends(cfg, s, GSettle(b, hedged), now, c, n,
                 Concluded(s.w.(orders := WithSettled(s.w.orders, b.id, hedged, now)), b, o, now))
  {
    var s2 := s.(w := s.w.(orders := WithSettled(s.w.orders, b.id, hedged, now)));
    SettledRowKeepsOrder(s.w.orders, b.id, hedged, now);
    SettleAndAnnounce(cfg, s2, b, now, c, n - 1);
    assert ExecutePayload(b, OrderOf(s2.w.orders, b.id)) == ExecutePayload(b, o);
    EndsAfterMove(cfg, s, GSettle(b, hedged), s2, SSettle(b), now, c, n, Concluded(s2.w, b, o, now));
  }

  lemma GSubmitMove(cfg: Config, s: Sys, b: Batch, claim: Option<nat>, now: Time, c: Choice)
    requires HasOrder(s.w.orders, b.id) && OrderOf(s.w.orders, b.id).notionalUSD > 0.0
    ensures var call := ExposureCall(b.id, Pairs.FiatOf(b.assetPair), OrderOf(s.w.orders, b.id).notionalUSD,
                                     HedgeKey(b.id), c.env.hedged.Some?);
            var s1 := s.(w := s.w.(calls := s.w.calls + [call]),
                         requests := s.requests + [Request(HedgeKey(b.id), claim)]);
            var t1 := if c.env.hedged.None? then SSettle(b) else GSettle(b, c.env.hedged.value);
            Move(cfg, s, GSubmit(b, claim), now, c) == (s1, t1)
  {}

  lemma HedgeSubmitThenSettle(cfg: Config, s: Sys, b: Batch, claim: Option<nat>, now: Time, c: Choice, n: nat)
    requires n >= 4 && HasOrder(s.w.orders, b.id)
    ensures var o := OrderOf(s.w.orders, b.id);
            Ends(cfg, s, GSubmit(b, claim), now, c, n, Concluded(Exposed(s.w, o, b, now, c.env), b, o, now))
  {
    hide Ends, HedgeKey, Concluded;
    var o := OrderOf(s.w.orders, b.id);
    var end := Concluded(Exposed(s.w, o, b, now, c.env), b, o, now);
    if o.notionalUSD <= 0.0 {
      SettleAndAnnounce(cfg, s, b, now, c, n - 1);
      EndsAfterMove(cfg, s, GSubmit(b, claim), s, SSettle(b), now, c, n, end);
    } else {
      var call := ExposureCall(b.id, Pairs.FiatOf(b.assetPair), o.notionalUSD, HedgeKey(b.id), c.env.hedged.Some?);
      var s1 := s.(w := s.w.(calls := s.w.calls + [call]),
                   requests := s.requests + [Request(HedgeKey(b.id), claim)]);
      var t1 := if c.env.hedged.None? then SSettle(b) else GSettle(b, c.env.hedged.value);
      GSubmitMove(cfg, s, b, claim, now, c);
      if c.env.hedged.None? {
        SettleAndAnnounce(cfg, s1, b, now, c, n - 1);
      } else {
        HedgedRowThenSettle(cfg, s1, b, o, c.env.hedged.value, now, c, n - 1);
      }
      EndsAfterMove(cfg, s, GSubmit(b, claim), s1, t1, now, c, n, end);
    }
  }

  lemma FillCallback(cfg: Config, s: Sys, b: Batch, now: Time, c: Choice, n: nat)
    requires n >= 7 && HasOrder(s.w.orders, b.id)
    ensures Ends(cfg, s, SFloat(b), now, c, n, Filled(cfg, s.w, b, OrderOf(s.w.orders, b.id), now, c.env))
  {
    hide Ends, Hedged, Ledger.Key, HedgeKey;
    var o := OrderOf(s.w.orders, b.id);
    var fiat, asset := Pairs.FiatOf(b.assetPair), Pairs.CryptoOf(b.assetPair);
    var p := FloatTracker.FillPosition(cfg, o, fiat, asset, now);
    var s1 := s.(w := s.w.(floats := FloatTable.Added(s.w.floats, p)));
    var s2 := s1.(w := Emitted(s1.w, FloatTracker.AdjustPayload(b.id, o.notionalUSD, fiat), b.id));
    var end := Filled(cfg, s.w, b, o, now, c.env);
    HedgeThenSettle(cfg, s2, b, now, c, n - 2);
    EndsAfterMove(cfg, s1, SAdjust(b), s2, GClaim(b), now, c, n - 1, end);
    EndsAfterMove(cfg, s, SFloat(b), s1, SAdjust(b), now, c, n, end);
  }

  lemma ExecuteIsAtomic(cfg: Config, s: Sys, b: Batch, now: Time, c: Choice, n: nat)
    requires n >= 11 && HasOrder(s.w.orders, b.id)
    ensures Ends(cfg, s, SExec(b), now, c, n, Executed(cfg, s.w, b, now, c.env))
  {
    hide Ends, Filled, AggKey;
    var key, end := AggKey(b.id), Executed(cfg, s.w, b, now, c.env);
    var s1 := s.(w := s.w.(batches := WithStatus(s.w.batches, b.id, Closed, Executing, None, now).0));
    if !c.env.aggDown && Held(s1.w.seen, key, now) {
      EndsNow(cfg, s1, now, c, n - 2);
      EndsAfterMove(cfg, s1, SClaim(b), s1, Done, now, c, n - 1, end);
    } else {
      var s2 := if c.env.aggDown then s1 else Claimed(s1, key, now);
      var claim := if c.env.aggDown then None else Some(|s1.claims|);
      SubmitAndFill(cfg, s2, b, claim, now, c, n - 2);
      EndsAfterMove(cfg, s1, SClaim(b), s2, SSubmit(b, claim), now, c, n - 1, end);
    }
    EndsAfterMove(cfg, s, SExec(b), s1, SClaim(b), now, c, n, end);
  }

  /** What the executor does once it may submit. */
  function Placed(cfg: Config, w: World, b: Batch, now: Time, env: SubmitEnv): World
    requires HasOrder(w.orders, b.id)
  {
    var w3 := w.(calls := w.calls + [AggregateCall(b.id, b.notionalUSD, AggKey(b.id), env.fill.Some?)]);
    if env.fill.None? then w3
    else
      var f := env.fill.value;
      var w4 := w3.(orders := WithFill(w3.orders, b.id, f.price, f.total, f.routes));
      Filled(cfg, w4, b, w4.orders[FindOrder(w3.orders, b.id)], now, env)
  }

  lemma SubmitAndFill(cfg: Config, s: Sys, b: Batch, claim: Option<nat>, now: Time, c: Choice, n: nat)
    requires n >= 9 && HasOrder(s.w.orders, b.id)
    ensures Ends(cfg, s, SSubmit(b, claim), now, c, n, Placed(cfg, s.w, b, now, c.env))
  {
    hide Filled, Ends, AggKey;
    var end := Placed(cfg, s.w, b, now, c.env);
    var call := AggregateCall(b.id, b.notionalUSD, AggKey(b.id), c.env.fill.Some?);
    var s1 := s.(w := s.w.(calls := s.w.calls + [call]), requests := s.requests + [Request(AggKey(b.id), claim)]);
    if c.env.fill.None? {
      EndsNow(cfg, s1, now, c, n - 1);
      EndsAfterMove(cfg, s, SSubmit(b, claim), s1, Done, now, c, n, end);
    } else {
      var f := c.env.fill.value;
      var s2 := s1.(w := s1.w.(orders := WithFill(s1.w.orders, b.id, f.price, f.total, f.routes)),
                    fills := s1.fills + [b.id]);
      FindOrderStable(s1.w.orders, s2.w.orders, b.id, 0);
      FillCallback(cfg, s2, b, now, c, n - 2);
      EndsAfterMove(cfg, s1, SFill(b, f), s2, SFloat(b), now, c, n - 1, end);
      EndsAfterMove(cfg, s, SSubmit(b, claim), s1, SFill(b, f), now, c, n, end);
    }
  }

  /** A submitting thread left alone makes exactly the executor's step. */
  lemma SubmitIsAtomic(cfg: Config, s: Sys, b: nat, now: Time, c: Choice, n: nat)
    requires n >= 14 && (b < |s.w.batches| ==> s.w.batches[b].id == b)
    ensures Ends(cfg, s, SGet(b), now, c, n, Submitted(cfg, s.w, b, now, c.env))
  {
    hide Executed, WithOrder, HasOrder, Solo;
    var end := Submitted(cfg, s.w, b, now, c.env);
    if b >= |s.w.batches| || !Submittable(s.w.batches[b]) {
      EndsNow(cfg, s, now, c, n - 1);
      EndsAfterMove(cfg, s, SGet(b), s, Done, now, c, n, end);
    } else {
      var copy := s.w.batches[b];
      CreateAndCheck(cfg, s, copy, now, c, n - 1);
      EndsAfterMove(cfg, s, SGet(b), s, SCreate(copy), now, c, n, end);
    }
  }

  lemma CreatedRow(rows: seq<AggregateOrder>, b: nat, pair: string, notional: Decimal)
    ensures HasOrder(WithOrder(rows, b, pair, notional), b)
    ensures HasOrder(rows, b) ==> WithOrder(rows, b, pair, notional) == rows
    ensures !HasOrder(rows, b) ==> OrderOf(WithOrder(rows, b, pair, notional), b).status == OrderExecuting
  {
    if !HasOrder(rows, b) {
      assert WithOrder(rows, b, pair, notional)[|rows|].batchId == b;
    }
  }

  lemma CheckThenExecute(
      cfg: Config, s: Sys, copy: Batch, created: bool, status: OrderStatus, now: Time, c: Choice, n: nat)
    requires n >= 12 && HasOrder(s.w.orders, copy.id) && status == OrderOf(s.w.orders, copy.id).status
    ensures Ends(cfg, s, SCheck(copy, created, status), now, c, n,
                 if status == OrderSettled then s.w else Executed(cfg, s.w, copy, now, c.env))
  {
    hide Executed, Ends;
    if status == OrderSettled {
      EndsNow(cfg, s, now, c, n - 1);
      EndsAfterMove(cfg, s, SCheck(copy, created, status), s, Done, now, c, n, s.w);
    } else {
      ExecuteIsAtomic(cfg, s, copy, now, c, n - 1);
      var end := Executed(cfg, s.w, copy, now, c.env);
      EndsAfterMove(cfg, s, SCheck(copy, created, status), s, SExec(copy), now, c, n, end);
    }
  }

  lemma CreateAndCheck(cfg: Config, s: Sys, copy: Batch, now: Time, c: Choice, n: nat)
    requires n >= 13 && copy.id < |s.w.batches| && s.w.batches[copy.id] == copy && Submittable(copy)
    ensures Ends(cfg, s, SCreate(copy), now, c, n, Submitted(cfg, s.w, copy.id, now, c.env))
  {
    hide Ends, Executed;
    var b, end := copy.id, Submitted(cfg, s.w, copy.id, now, c.env);
    var created := !HasOrder(s.w.orders, b);
    var s1 := s.(w := s.w.(orders := WithOrder(s.w.orders, b, copy.assetPair, copy.notionalUSD)));
    CreatedRow(s.w.orders, b, copy.assetPair, copy.notionalUSD);
    var status := OrderOf(s1.w.orders, b).status;
    CheckThenExecute(cfg, s1, copy, created, status, now, c, n - 1);
    EndsAfterMove(cfg, s, SCreate(copy), s1, SCheck(copy, created, status), now, c, n, end);
  }

  lemma AnnounceAndSubmit(cfg: Config, s: Sys, copy: Batch, now: Time, c: Choice)
    requires copy.id < |s.w.batches| && s.w.batches[copy.id].id == copy.id
    ensures Ends(cfg, s, CAnnounce(copy), now, c, 15,
                 Submitted(cfg, Emitted(s.w, ClosePayload(copy), copy.id), copy.id, now, c.env))
  {
    var s2 := s.(w := Emitted(s.w, ClosePayload(copy), copy.id));
    SubmitIsAtomic(cfg, s2, copy.id, now, c, 14);
    EndsAfterMove(cfg, s, CAnnounce(copy), s2, SGet(copy.id), now, c, 15, Submitted(cfg, s2.w, copy.id, now, c.env));
  }

  lemma UpdateMove(cfg: Config, s: Sys, b: nat, sum: Decimal, now: Time, c: Choice)
    requires b < |s.w.batches| && s.w.batches[b].status == Open
    ensures var rows := WithStatus(s.w.batches, b, Open, Closed, Some(sum), now).0;
            |rows| == |s.w.batches| && rows[b].id == s.w.batches[b].id
            && Move(cfg, s, CUpdate(b, sum), now, c)
               == (s.(w := s.w.(batches := rows), closes := s.closes + [b]), CAnnounce(rows[b]))
  {}

  lemma UpdateAnnounceSubmit(cfg: Config, s: Sys, b: nat, now: Time, c: Choice)
    requires b < |s.w.batches| && s.w.batches[b].status == Open && s.w.batches[b].id == b
    ensures Ends(cfg, s, CUpdate(b, SumFor(s.w.members, b)), now, c, 16, ClosedBatch(cfg, s.w, b, now, c.env))
  {
    var sum, end := SumFor(s.w.members, b), ClosedBatch(cfg, s.w, b, now, c.env);
    var rows := WithStatus(s.w.batches, b, Open, Closed, Some(sum), now).0;
    var s1 := s.(w := s.w.(batches := rows), closes := s.closes + [b]);
    UpdateMove(cfg, s, b, sum, now, c);
    AnnounceAndSubmit(cfg, s1, rows[b], now, c);
    EndsAfterMove(cfg, s, CUpdate(b, sum), s1, CAnnounce(rows[b]), now, c, 16, end);
  }

  lemma ReadThenUpdate(cfg: Config, s: Sys, b: nat, now: Time, c: Choice, w: World)
    requires b < |s.w.batches| && s.w.batches[b].status == Open
    requires Ends(cfg, s, CUpdate(b, SumFor(s.w.members, b)), now, c, 16, w)
    ensures Ends(cfg, s, CGet(b), now, c, 18, w)
  {
    EndsAfterMove(cfg, s, CSum(b), s, CUpdate(b, SumFor(s.w.members, b)), now, c, 17, w);
    EndsAfterMove(cfg, s, CGet(b), s, CSum(b), now, c, 18, w);
  }

  /** A closing thread left alone makes exactly the scheduler's step. */
  lemma CloseIsAtomic(cfg: Config, s: Sys, b: nat, now: Time, c: Choice)
    requires b < |s.w.batches| ==> s.w.batches[b].id == b
    ensures Ends(cfg, s, CGet(b), now, c, 18, ClosedBatch(cfg, s.w, b, now, c.env))
  {
    if b < |s.w.batches| && s.w.batches[b].status == Open {
      UpdateAnnounceSubmit(cfg, s, b, now, c);
      ReadThenUpdate(cfg, s, b, now, c, ClosedBatch(cfg, s.w, b, now, c.env));
    } else {
      EndsNow(cfg, s, now, c, 17);
      EndsAfterMove(cfg, s, CGet(b), s, Done, now, c, 18, s.w);
    }
  }

  // --- Solo moves are runs ---

  function Moves(tid: nat, now: Time, c: Choice, n: nat): seq<Action> {
    seq(n, _ => Advance(tid, now, c))
  }

  lemma HandleIgnoresThreads(s: Sys, t: Thread, now: Time, c: Choice, threads: map<nat, Thread>)
    requires Handling(t)
    ensures var m, k := Handle(s, t, now, c), Handle(s.(threads := threads), t, now, c);
            k == (m.0.(threads := threads), m.1)
  {
    hide TxKey, Held, Emitted, WithOpenBatch, WithNotional, SumFor, MembersOf, FindOpen;
  }

  lemma CloseIgnoresThreads(s: Sys, t: Thread, now: Time, threads: map<nat, Thread>)
    requires Closing(t)
    ensures var m, k := Close(s, t, now), Close(s.(threads := threads), t, now); k == (m.0.(threads := threads), m.1)
  {
    hide Emitted, WithStatus, SumFor;
  }

  lemma SubmitIgnoresThreads(cfg: Config, s: Sys, t: Thread, now: Time, c: Choice, threads: map<nat, Thread>)
    requires Placing(t)
    ensures var m, k := Submit(cfg, s, t, now, c), Submit(cfg, s.(threads := threads), t, now, c);
            k == (m.0.(threads := threads), m.1)
  {
    hide AggKey, Held, WithOrder, WithStatus, WithFill;
  }

  lemma SettleIgnoresThreads(cfg: Config, s: Sys, t: Thread, now: Time, c: Choice, threads: map<nat, Thread>)
    requires Settling(t)
    ensures var m, k := Settle(cfg, s, t, now, c), Settle(cfg, s.(threads := threads), t, now, c);
            k == (m.0.(threads := threads), m.1)
  {
    hide Emitted, Pairs.FiatOf, Pairs.CryptoOf, HedgeKey, Held, WithStatus, WithSettled;
    hide FloatTable.Added, FloatTracker.FillPosition, FloatTracker.AdjustPayload;
  }

  lemma MoveIgnoresThreads(cfg: Config, s: Sys, t: Thread, now: Time, c: Choice, threads: map<nat, Thread>)
    ensures var m, k := Move(cfg, s, t, now, c), Move(cfg, s.(threads := threads), t, now, c);
            k == (m.0.(threads := threads), m.1)
  {
    hide Handle, Close, Submit, Settle;
    if Handling(t) {
      HandleIgnoresThreads(s, t, now, c, threads);
    } else if Closing(t) {
      CloseIgnoresThreads(s, t, now, threads);
    } else if Placing(t) {
      SubmitIgnoresThreads(cfg, s, t, now, c, threads);
    } else if Settling(t) {
      SettleIgnoresThreads(cfg, s, t, now, c, threads);
    }
  }

  /** Moving one thread n times in a row is a run of the machine. */
  lemma {:induction false} SoloIsRun(cfg: Config, s: Sys, tid: nat, now: Time, c: Choice, n: nat)
    requires tid in s.threads
    ensures var r := Solo(cfg, s, s.threads[tid], now, c, n);
            Run(cfg, s, Moves(tid, now, c, n)) == r.0.(threads := s.threads[tid := r.1])
    decreases n
  {
    if n == 0 {
      assert s.threads[tid := s.threads[tid]] == s.threads;
    } else {
      var t := s.threads[tid];
      var m := Move(cfg, s, t, now, c);
      var s1 := m.0.(threads := s.threads[tid := m.1]);
      MoveIgnoresThreads(cfg, s, t, now, c, s.threads);
      assert Moves(tid, now, c, n)[1..] == Moves(tid, now, c, n - 1);
      assert Step(cfg, s, Advance(tid, now, c)) == s1;
      SoloIsRun(cfg, s1, tid, now, c, n - 1);
      SoloFront(cfg, s, t, now, c, n);
      SoloIgnoresThreads(cfg, m.0, m.1, now, c, n - 1, s1.threads);
      var t' := Solo(cfg, s1, m.1, now, c, n - 1).1;
      assert s1.threads[tid := t'] == s.threads[tid := t'];
    }
  }

  lemma {:induction false} SoloIgnoresThreads(
    cfg: Config, s: Sys, t: Thread, now: Time, c: Choice, n: nat, threads: map<nat, Thread>)
    ensures var r, k := Solo(cfg, s, t, now, c, n), Solo(cfg, s.(threads := threads), t, now, c, n);
            k == (r.0.(threads := threads), r.1)
  {
    if n > 0 {
      SoloIgnoresThreads(cfg, s, t, now, c, n - 1, threads);
      var r := Solo(cfg, s, t, now, c, n - 1);
      MoveIgnoresThreads(cfg, r.0, r.1, now, c, threads);
    }
  }
}
