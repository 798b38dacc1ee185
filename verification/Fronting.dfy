/** The float under interleaving: what was fronted never exceeds what was accepted. */
module Fronting {
  import opened Base
  import opened Records
  import opened Configuration
  import opened Memstore
  import opened Idempotency
  import opened Pipeline
  import opened Threads
  import opened Concurrency
  import FloatTable
  import FloatTracker
  import Interleaving
  import Ledger
  import Pairs

  // --- What was fronted ---

  /** The batch whose fill this step books in the float table. */
  function FrontedBy(s: Sys, a: Action): seq<nat> {
    if a.Advance? && a.tid in s.threads && s.threads[a.tid].SFloat? && HasOrder(s.w.orders, s.threads[a.tid].copy.id)
    then [s.threads[a.tid].copy.id] else []
  }

  /** The batches booked over a run, in order. */
  function Fronted(cfg: Config, s: Sys, acts: seq<Action>): seq<nat>
    decreases |acts|
  {
    if acts == [] then [] else FrontedBy(s, acts[0]) + Fronted(cfg, Step(cfg, s, acts[0]), acts[1..])
  }

  /** Rows differ at most in being flagged as settled: one SettleFloat, a whole sweep, or nothing. */
  ghost predicate FlagsOnly(rows: seq<FloatPosition>, rows': seq<FloatPosition>) {
    && |rows'| == |rows|
    && forall i :: 0 <= i < |rows| ==> rows'[i] == rows[i] || rows'[i] == rows[i].(settled := true)
  }

  lemma {:induction false} FlagsKeepShort(rows: seq<FloatPosition>, rows': seq<FloatPosition>, fiat: string)
    requires FlagsOnly(rows, rows')
    ensures FloatTable.ShortOf(rows', fiat) == FloatTable.ShortOf(rows, fiat)
  {
    if rows != [] {
      FlagsKeepShort(rows[..|rows| - 1], rows'[..|rows| - 1], fiat);
    }
  }

  /** Outside the threads the float table is only swept, row by row between the steps of the threads. */
  ghost predicate SweepsOnly(cfg: Config, s: Sys, acts: seq<Action>)
    decreases |acts|
  {
    acts != [] ==>
      && (acts[0].Outside? ==> FlagsOnly(s.w.floats, acts[0].floats))
      && SweepsOnly(cfg, Step(cfg, s, acts[0]), acts[1..])
  }

  /** The run takes less than a day. */
  ghost predicate WithinDay(acts: seq<Action>, from: Time) {
    forall i :: 0 <= i < |acts| && acts[i].Advance? ==> from <= acts[i].now < from + DAY
  }

  ghost predicate OfFiat(batches: seq<Batch>, b: nat, fiat: string) {
    b < |batches| && Pairs.FiatOf(batches[b].assetPair) == fiat
  }

  ghost function Front(w: World, b: nat, fiat: string): Decimal {
    if OfFiat(w.batches, b, fiat) && HasOrder(w.orders, b) then OrderOf(w.orders, b).notionalUSD else 0.0
  }

  /** The order notionals of the booked batches of one fiat side. */
  ghost function Fronts(w: World, log: seq<nat>, fiat: string): seq<Decimal> {
    seq(|log|, i requires 0 <= i < |log| => Front(w, log[i], fiat))
  }

  // --- The float is what was fronted ---

  predicate InSubmit(t: Thread) {
    t.SCreate? || t.SCheck? || t.SExec? || t.SClaim? || t.SSubmit? || t.SFill? || Settling(t)
  }

  ghost predicate PairKept(w: World, t: Thread) {
    InSubmit(t) ==> t.copy.id < |w.batches| && t.copy.assetPair == w.batches[t.copy.id].assetPair
  }

  ghost predicate FrontedOk(s: Sys, log: seq<nat>, fiat: string) {
    && FloatTable.ShortOf(s.w.floats, fiat) == Sum(Fronts(s.w, log, fiat))
    && (forall i :: 0 <= i < |log| ==> log[i] < |s.w.batches| && HasOrder(s.w.orders, log[i]))
    && (forall x :: x in s.threads ==> PairKept(s.w, s.threads[x]))
  }

  /** A copy is read once and kept. */
  lemma CopyKept(cfg: Config, s: Sys, t: Thread, now: Time, c: Choice)
    ensures var t' := Move(cfg, s, t, now, c).1;
            InSubmit(t') ==>
              || (InSubmit(t) && t'.copy == t.copy)
              || (t.SGet? && t.b < |s.w.batches| && t'.copy == s.w.batches[t.b])
  {
    hide Handle, Close, Submit, Settle;
    if Settling(t) {
      Interleaving.SettleMoveThread(cfg, s, t, now, c);
    } else if Placing(t) {
      SubmitCopyKept(cfg, s, t, now, c);
    } else if !t.Done? {
      IntakeFills(cfg, s, t, now, c);
    }
  }

  /** Consumers and closers book nothing and come to hold no copy to submit. */
  lemma IntakeFills(cfg: Config, s: Sys, t: Thread, now: Time, c: Choice)
    requires Handling(t) || Closing(t)
    ensures var (s', t') := Move(cfg, s, t, now, c);
            && s'.w.floats == s.w.floats && !InSubmit(t')
            && (t.HClaim? || s'.w.seen == s.w.seen)
  {
    hide Handle, Close;
    if Handling(t) {
      HandleFills(s, t, now, c);
    } else {
      CloseFills(s, t, now);
    }
  }

  lemma HandleFills(s: Sys, t: Thread, now: Time, c: Choice)
    requires Handling(t)
    ensures var (s', t') := Handle(s, t, now, c);
            s'.w.floats == s.w.floats && !InSubmit(t') && (t.HClaim? || s'.w.seen == s.w.seen)
  {
    hide TxKey, Held, Ledger.Key, WithOpenBatch, WithNotional, SumFor, MembersOf, FindOpen;
  }

  lemma CloseFills(s: Sys, t: Thread, now: Time)
    requires Closing(t)
    ensures var (s', t') := Close(s, t, now); s'.w.floats == s.w.floats && !InSubmit(t') && s'.w.seen == s.w.seen
  {
    hide Ledger.Key, WithStatus, SumFor;
  }

  lemma SubmitCopyKept(cfg: Config, s: Sys, t: Thread, now: Time, c: Choice)
    requires Placing(t)
    ensures var t' := Submit(cfg, s, t, now, c).1;
            InSubmit(t') ==>
              || (InSubmit(t) && t'.copy == t.copy)
              || (t.SGet? && t.b < |s.w.batches| && t'.copy == s.w.batches[t.b])
  {
    hide AggKey, Held, WithOrder, WithStatus, WithFill, HasOrder, OrderOf;
  }

  /** The position the fill of the copied batch adds. */
  function FillOf(cfg: Config, w: World, copy: Batch, now: Time): FloatPosition
    requires HasOrder(w.orders, copy.id)
  {
    FloatTracker.FillPosition(
      cfg, OrderOf(w.orders, copy.id), Pairs.FiatOf(copy.assetPair), Pairs.CryptoOf(copy.assetPair), now)
  }

  lemma FloatMove(cfg: Config, s: Sys, t: Thread, now: Time, c: Choice)
    ensures var w' := Move(cfg, s, t, now, c).0.w;
            if t.SFloat? && HasOrder(s.w.orders, t.copy.id)
            then w'.floats == FloatTable.Added(s.w.floats, FillOf(cfg, s.w, t.copy, now))
            else w'.floats == s.w.floats
  {
    hide Handle, Close, Submit, Settle, HasOrder, FillOf, FloatTable.Added;
    if Settling(t) {
      SettleFloat(cfg, s, t, now, c);
    } else if Placing(t) {
      SubmitFloat(cfg, s, t, now, c);
    } else if !t.Done? {
      IntakeFills(cfg, s, t, now, c);
    }
  }

  lemma SubmitFloat(cfg: Config, s: Sys, t: Thread, now: Time, c: Choice)
    requires Placing(t)
    ensures Submit(cfg, s, t, now, c).0.w.floats == s.w.floats
  {
    hide AggKey, Held, WithOrder, WithStatus, WithFill, HasOrder, OrderOf;
  }

  lemma SettleFloat(cfg: Config, s: Sys, t: Thread, now: Time, c: Choice)
    requires Settling(t)
    ensures var w' := Settle(cfg, s, t, now, c).0.w;
            if t.SFloat? && HasOrder(s.w.orders, t.copy.id)
            then w'.floats == FloatTable.Added(s.w.floats, FillOf(cfg, s.w, t.copy, now))
            else w'.floats == s.w.floats
  {
    hide HedgeKey, Held, Pairs.FiatOf, Pairs.CryptoOf, WithStatus, WithSettled, HasOrder, OrderOf, Ledger.Key;
    hide FloatTracker.FillPosition, FloatTable.Added;
  }

  lemma FrontKept(s: Sys, s': Sys, b: nat, fiat: string)
    requires Interleaving.Grows(s, s') && b < |s.w.batches| && HasOrder(s.w.orders, b)
    ensures b < |s'.w.batches| && HasOrder(s'.w.orders, b) && Front(s'.w, b, fiat) == Front(s.w, b, fiat)
  {
    hide Pairs.FiatOf;
    FindOrderStable(s.w.orders, s'.w.orders[..|s.w.orders|], b, 0);
    FindOrderInPrefix(s.w.orders, s'.w.orders, b);
  }

  lemma FindOrderInPrefix(rows: seq<AggregateOrder>, rows': seq<AggregateOrder>, b: nat)
    requires HasOrder(rows, b) && |rows| <= |rows'|
    requires forall i :: 0 <= i < |rows| ==> rows'[i].batchId == rows[i].batchId
    ensures HasOrder(rows', b) && FindOrder(rows', b) == FindOrder(rows, b)
  {
    FindOrderStable(rows, rows', b, 0);
  }

  lemma FrontsKept(s: Sys, s': Sys, log: seq<nat>, fiat: string)
    requires Interleaving.Grows(s, s')
    requires forall i :: 0 <= i < |log| ==> log[i] < |s.w.batches| && HasOrder(s.w.orders, log[i])
    ensures Fronts(s'.w, log, fiat) == Fronts(s.w, log, fiat)
    ensures forall i :: 0 <= i < |log| ==> log[i] < |s'.w.batches| && HasOrder(s'.w.orders, log[i])
  {
    hide Front, HasOrder;
    forall i | 0 <= i < |log|
      ensures Front(s'.w, log[i], fiat) == Front(s.w, log[i], fiat) && HasOrder(s'.w.orders, log[i])
    {
      FrontKept(s, s', log[i], fiat);
    }
  }

  lemma MoveFronts(cfg: Config, s: Sys, t: Thread, now: Time, c: Choice, log: seq<nat>, fiat: string)
    requires FloatTable.ShortOf(s.w.floats, fiat) == Sum(Fronts(s.w, log, fiat)) && PairKept(s.w, t)
    requires forall i :: 0 <= i < |log| ==> log[i] < |s.w.batches| && HasOrder(s.w.orders, log[i])
    requires Interleaving.Grows(s, Move(cfg, s, t, now, c).0)
    ensures var s' := Move(cfg, s, t, now, c).0;
            var log' := if t.SFloat? && HasOrder(s.w.orders, t.copy.id) then log + [t.copy.id] else log;
            && FloatTable.ShortOf(s'.w.floats, fiat) == Sum(Fronts(s'.w, log', fiat))
            && (forall i :: 0 <= i < |log'| ==> log'[i] < |s'.w.batches| && HasOrder(s'.w.orders, log'[i]))
  {
    hide Move, Pairs.FiatOf, Pairs.CryptoOf, HasOrder, Interleaving.Grows;
    var s' := Move(cfg, s, t, now, c).0;
    FloatMove(cfg, s, t, now, c);
    FrontsKept(s, s', log, fiat);
    if t.SFloat? && HasOrder(s.w.orders, t.copy.id) {
      var b := t.copy.id;
      var p := FillOf(cfg, s.w, t.copy, now);
      FloatTable.AddRaisesShort(s.w.floats, p, fiat);
      FrontKept(s, s', b, fiat);
      assert Fronts(s'.w, log + [b], fiat) == Fronts(s'.w, log, fiat) + [Front(s'.w, b, fiat)];
      SumAppend(Fronts(s'.w, log, fiat), Front(s'.w, b, fiat));
    }
  }

  lemma PairsKept(s: Sys, m: Sys, s': Sys, tid: nat, t': Thread)
    requires Interleaving.Grows(s, m) && tid in s.threads && s' == m.(threads := s.threads[tid := t'])
    requires forall x :: x in s.threads ==> PairKept(s.w, s.threads[x])
    requires PairKept(m.w, t')
    ensures forall x :: x in s'.threads ==> PairKept(s'.w, s'.threads[x])
  {
    forall x | x in s'.threads
      ensures PairKept(s'.w, s'.threads[x])
    {
      if x != tid {
        assert PairKept(s.w, s.threads[x]);
      }
    }
  }

  lemma MovePair(cfg: Config, s: Sys, t: Thread, now: Time, c: Choice)
    requires BatchesOk(s.w) && PairKept(s.w, t) && Interleaving.Grows(s, Move(cfg, s, t, now, c).0)
    ensures PairKept(Move(cfg, s, t, now, c).0.w, Move(cfg, s, t, now, c).1)
  {
    hide Move;
    CopyKept(cfg, s, t, now, c);
  }

  lemma AdvanceFronts(cfg: Config, s: Sys, tid: nat, now: Time, c: Choice, log: seq<nat>, fiat: string)
    requires Interleaving.Inv(s) && FrontedOk(s, log, fiat) && tid in s.threads
    ensures FrontedOk(Step(cfg, s, Advance(tid, now, c)), log + FrontedBy(s, Advance(tid, now, c)), fiat)
  {
    hide Move, HasOrder, Front, Interleaving.Grows, PairKept;
    var t, s' := s.threads[tid], Step(cfg, s, Advance(tid, now, c));
    var m := Move(cfg, s, t, now, c);
    Interleaving.MoveKeeps(cfg, s, t, now, c);
    Interleaving.MoveLeavesThreads(cfg, s, t, now, c);
    MoveFronts(cfg, s, t, now, c, log, fiat);
    MovePair(cfg, s, t, now, c);
    PairsKept(s, m.0, s', tid, m.1);
    assert log + [] == log;
    SameTablesFronts(m.0.w, s'.w, log + FrontedBy(s, Advance(tid, now, c)), fiat);
  }

  lemma StepFronts(cfg: Config, s: Sys, a: Action, log: seq<nat>, fiat: string)
    requires Interleaving.Inv(s) && FrontedOk(s, log, fiat) && SweepsOnly(cfg, s, [a])
    ensures FrontedOk(Step(cfg, s, a), log + FrontedBy(s, a), fiat)
  {
    assert [a][0] == a;
    if a.Advance? && a.tid in s.threads {
      hide FrontedOk, Interleaving.Inv;
      AdvanceFronts(cfg, s, a.tid, a.now, a.c, log, fiat);
    } else {
      hide Move, HasOrder, Front, Interleaving.Inv;
      assert log + FrontedBy(s, a) == log;
      if a.Outside? {
        FlagsKeepShort(s.w.floats, a.floats, fiat);
      }
      SameTablesFronts(s.w, Step(cfg, s, a).w, log, fiat);
    }
  }

  lemma SameTablesFronts(w: World, w': World, log: seq<nat>, fiat: string)
    requires w'.batches == w.batches && w'.orders == w.orders
    ensures Fronts(w', log, fiat) == Fronts(w, log, fiat)
  {
    assert forall b :: Front(w', b, fiat) == Front(w, b, fiat);
  }

  lemma {:induction false} RunFronts(cfg: Config, s: Sys, acts: seq<Action>, log: seq<nat>, fiat: string)
    requires Interleaving.Inv(s) && FrontedOk(s, log, fiat) && SweepsOnly(cfg, s, acts)
    ensures FrontedOk(Run(cfg, s, acts), log + Fronted(cfg, s, acts), fiat)
    decreases |acts|
  {
    hide Step, FrontedOk, FrontedBy, Interleaving.Inv;
    if acts == [] {
      assert log + [] == log;
    } else {
      Interleaving.StepKeeps(cfg, s, acts[0]);
      OneSweepOnly(cfg, s, acts);
      StepFronts(cfg, s, acts[0], log, fiat);
      var s1 := Step(cfg, s, acts[0]);
      RunFronts(cfg, s1, acts[1..], log + FrontedBy(s, acts[0]), fiat);
      assert log + FrontedBy(s, acts[0]) + Fronted(cfg, s1, acts[1..]) == log + Fronted(cfg, s, acts);
    }
  }

  lemma OneSweepOnly(cfg: Config, s: Sys, acts: seq<Action>)
    requires acts != [] && SweepsOnly(cfg, s, acts)
    ensures SweepsOnly(cfg, s, [acts[0]])
  {
    assert [acts[0]][0] == acts[0] && [acts[0]][1..] == [];
    assert SweepsOnly(cfg, Step(cfg, s, acts[0]), []);
  }

  /** The short amount is the sum of the order notionals of the fills booked, however threads and sweeps interleave. */
  lemma FloatIsFronted(cfg: Config, acts: seq<Action>, fiat: string)
    requires SweepsOnly(cfg, START, acts)
    ensures var s := Run(cfg, START, acts);
            FloatTable.ShortOf(s.w.floats, fiat) == Sum(Fronts(s.w, Fronted(cfg, START, acts), fiat))
  {
    hide Interleaving.Inv;
    Reachable(cfg, []);
    assert Run(cfg, START, []) == START;
    RunFronts(cfg, START, acts, [], fiat);
    assert [] + Fronted(cfg, START, acts) == Fronted(cfg, START, acts);
  }

  // --- Within a day each batch is fronted once ---

  predicate Filling(t: Thread) {
    t.SSubmit? || t.SFill? || t.SFloat?
  }

  /** Fillers and booked batches hold the claim of their batch, and no two share one. */
  ghost predicate TokensOk(s: Sys, log: seq<nat>) {
    && (forall x :: x in s.threads && Filling(s.threads[x]) ==>
          AggKey(s.threads[x].copy.id) in s.w.seen && s.threads[x].copy.id !in log)
    && (forall x, y :: x in s.threads && y in s.threads && x != y && Filling(s.threads[x]) && Filling(s.threads[y]) ==>
          s.threads[x].copy.id != s.threads[y].copy.id)
    && (forall i :: 0 <= i < |log| ==> AggKey(log[i]) in s.w.seen)
    && (forall i, j :: 0 <= i < j < |log| ==> log[i] != log[j])
  }

  ghost predicate LateExpiry(seen: Seen, until: Time) {
    forall k :: k in seen ==> seen[k] >= until
  }

  /** How one move treats fillers and claims when every claim made so far is still alive. */
  ghost predicate TokenMove(s: Sys, t: Thread, s': Sys, t': Thread, until: Time) {
    && LateExpiry(s'.w.seen, until) && (forall k :: k in s.w.seen ==> k in s'.w.seen)
    && (Filling(t') ==> || (Filling(t) && !t.SFloat? && t'.copy == t.copy)
                        || (AggKey(t'.copy.id) !in s.w.seen && AggKey(t'.copy.id) in s'.w.seen))
  }

  lemma MoveTokens(cfg: Config, s: Sys, t: Thread, now: Time, c: Choice, from: Time)
    requires LateExpiry(s.w.seen, from + DAY) && from <= now < from + DAY && !c.down && !c.env.aggDown
    requires !c.env.hedgeDown
    ensures var (s', t') := Move(cfg, s, t, now, c); TokenMove(s, t, s', t', from + DAY)
  {
    hide Handle, Close, Submit, Settle;
    if Settling(t) {
      SettleTokens(cfg, s, t, now, c, from);
    } else if Placing(t) {
      SubmitTokens(cfg, s, t, now, c, from);
    } else if Handling(t) {
      HandleTokens(s, t, now, c, from);
    } else if Closing(t) {
      IntakeFills(cfg, s, t, now, c);
    }
  }

  lemma HandleTokens(s: Sys, t: Thread, now: Time, c: Choice, from: Time)
    requires Handling(t) && LateExpiry(s.w.seen, from + DAY) && from <= now < from + DAY
    ensures var (s', t') := Handle(s, t, now, c); TokenMove(s, t, s', t', from + DAY)
  {
    hide TxKey, AggKey, Ledger.Key, WithOpenBatch, WithNotional, SumFor, MembersOf, FindOpen;
  }

  lemma SubmitTokens(cfg: Config, s: Sys, t: Thread, now: Time, c: Choice, from: Time)
    requires Placing(t)
    requires LateExpiry(s.w.seen, from + DAY) && from <= now < from + DAY && !c.env.aggDown
    ensures var (s', t') := Submit(cfg, s, t, now, c); TokenMove(s, t, s', t', from + DAY)
  {
    hide AggKey, WithOrder, WithStatus, WithFill, HasOrder, OrderOf;
  }

  lemma SettleTokens(cfg: Config, s: Sys, t: Thread, now: Time, c: Choice, from: Time)
    requires Settling(t) && LateExpiry(s.w.seen, from + DAY) && from <= now < from + DAY
    ensures var (s', t') := Settle(cfg, s, t, now, c); TokenMove(s, t, s', t', from + DAY)
  {
    hide AggKey, HedgeKey, Pairs.FiatOf, Pairs.CryptoOf, WithStatus, WithSettled, HasOrder, OrderOf, Ledger.Key;
  }

  lemma ThreadTokens(s: Sys, m: Sys, tid: nat, t': Thread, log: seq<nat>, until: Time)
    requires TokensOk(s, log) && tid in s.threads && TokenMove(s, s.threads[tid], m, t', until)
    ensures var threads := s.threads[tid := t'];
            && (forall x :: x in threads && Filling(threads[x]) ==>
                  AggKey(threads[x].copy.id) in m.w.seen && threads[x].copy.id !in log)
            && (forall x, y :: x in threads && y in threads && x != y && Filling(threads[x]) && Filling(threads[y]) ==>
                  threads[x].copy.id != threads[y].copy.id)
  {
    hide AggKey, LateExpiry;
    if Filling(t') {
      BookedIsClaimed(s, log, t'.copy.id);
    }
  }

  lemma BookedIsClaimed(s: Sys, log: seq<nat>, b: nat)
    requires TokensOk(s, log)
    ensures b in log ==> AggKey(b) in s.w.seen
  {
  }

  lemma TokensMove(s: Sys, m: Sys, tid: nat, t': Thread, log: seq<nat>, until: Time)
    requires TokensOk(s, log) && tid in s.threads && TokenMove(s, s.threads[tid], m, t', until)
    ensures var t := s.threads[tid];
            var log' := if t.SFloat? && HasOrder(s.w.orders, t.copy.id) then log + [t.copy.id] else log;
            TokensOk(m.(threads := s.threads[tid := t']), log')
  {
    hide AggKey, HasOrder, LateExpiry;
    ThreadTokens(s, m, tid, t', log, until);
    var t := s.threads[tid];
    if t.SFloat? && HasOrder(s.w.orders, t.copy.id) {
      BookedTokens(s, m, tid, t', log, until);
    }
  }

  lemma BookedTokens(s: Sys, m: Sys, tid: nat, t': Thread, log: seq<nat>, until: Time)
    requires TokensOk(s, log) && tid in s.threads && s.threads[tid].SFloat?
    requires TokenMove(s, s.threads[tid], m, t', until)
    ensures TokensOk(m.(threads := s.threads[tid := t']), log + [s.threads[tid].copy.id])
  {
    hide AggKey, LateExpiry;
    ThreadTokens(s, m, tid, t', log, until);
    var b, log', threads := s.threads[tid].copy.id, log + [s.threads[tid].copy.id], s.threads[tid := t'];
    assert forall i :: 0 <= i < |log| ==> log'[i] == log[i] && log[i] in log;
    assert log'[|log|] == b && AggKey(b) in s.w.seen;
    forall x | x in threads && Filling(threads[x])
      ensures threads[x].copy.id !in log'
    {
      assert threads[x].copy.id !in log;
      if x == tid {
        assert AggKey(t'.copy.id) !in s.w.seen;
      }
    }
  }

  lemma StepTokens(cfg: Config, s: Sys, a: Action, log: seq<nat>, from: Time)
    requires TokensOk(s, log) && LateExpiry(s.w.seen, from + DAY) && Reliable([a]) && WithinDay([a], from)
    ensures TokensOk(Step(cfg, s, a), log + FrontedBy(s, a)) && LateExpiry(Step(cfg, s, a).w.seen, from + DAY)
  {
    hide Move, AggKey, HasOrder;
    assert [a][0] == a && log + [] == log;
    if a.Advance? && a.tid in s.threads {
      var t := s.threads[a.tid];
      var m := Move(cfg, s, t, a.now, a.c);
      MoveTokens(cfg, s, t, a.now, a.c, from);
      Interleaving.MoveLeavesThreads(cfg, s, t, a.now, a.c);
      TokensMove(s, m.0, a.tid, m.1, log, from + DAY);
    }
  }

  lemma {:induction false} RunTokens(cfg: Config, s: Sys, acts: seq<Action>, log: seq<nat>, from: Time)
    requires TokensOk(s, log) && LateExpiry(s.w.seen, from + DAY) && Reliable(acts) && WithinDay(acts, from)
    ensures TokensOk(Run(cfg, s, acts), log + Fronted(cfg, s, acts))
    decreases |acts|
  {
    hide Step, TokensOk, FrontedBy, LateExpiry;
    if acts == [] {
      assert log + [] == log;
    } else {
      assert [acts[0]][0] == acts[0];
      StepTokens(cfg, s, acts[0], log, from);
      var s1 := Step(cfg, s, acts[0]);
      RunTokens(cfg, s1, acts[1..], log + FrontedBy(s, acts[0]), from);
      assert log + FrontedBy(s, acts[0]) + Fronted(cfg, s1, acts[1..]) == log + Fronted(cfg, s, acts);
    }
  }

  /** With an idempotency store that answers, no batch is fronted twice within a day. */
  lemma FrontedOnce(cfg: Config, acts: seq<Action>, from: Time)
    requires Reliable(acts) && WithinDay(acts, from)
    ensures var log := Fronted(cfg, START, acts); forall i, j :: 0 <= i < j < |log| ==> log[i] != log[j]
  {
    RunTokens(cfg, START, acts, [], from);
    assert [] + Fronted(cfg, START, acts) == Fronted(cfg, START, acts);
  }

  // --- The float against the accepted transactions ---

  /** The accepted amounts of one fiat side. */
  ghost function Accepted(members: seq<Membership>, fiat: string): seq<Decimal> {
    seq(|members|, i requires 0 <= i < |members| =>
      if Pairs.FiatOf(Pairs.Join(members[i].asset, members[i].fiatCurrency)) == fiat
      then members[i].notionalUSD else 0.0)
  }

  ghost predicate Placed(members: seq<Membership>, batches: seq<Batch>) {
    forall i :: 0 <= i < |members| ==>
      members[i].batchId < |batches|
      && batches[members[i].batchId].assetPair == Pairs.Join(members[i].asset, members[i].fiatCurrency)
  }

  ghost function Shared(members: seq<Membership>, batches: seq<Batch>, log: seq<nat>, fiat: string): seq<Decimal> {
    seq(|log|, i requires 0 <= i < |log| => if OfFiat(batches, log[i], fiat) then SumFor(members, log[i]) else 0.0)
  }

  /** Distinct batches share out the rows of their fiat side. */
  lemma {:induction false} BatchesShareRows(members: seq<Membership>, batches: seq<Batch>, log: seq<nat>, fiat: string)
    requires NonNegative(members) && Placed(members, batches)
    requires forall i, j :: 0 <= i < j < |log| ==> log[i] != log[j]
    ensures Sum(Shared(members, batches, log, fiat)) <= Sum(Accepted(members, fiat))
  {
    hide Pairs.FiatOf, Pairs.Join;
    if members == [] {
      AllZero(Shared(members, batches, log, fiat));
    } else {
      var rest, m := members[..|members| - 1], members[|members| - 1];
      BatchesShareRows(rest, batches, log, fiat);
      assert Accepted(members, fiat)[..|rest|] == Accepted(rest, fiat);
      LastRowShared(rest, m, batches, log, fiat);
      assert members == rest + [m];
    }
  }

  lemma LastRowShared(rest: seq<Membership>, m: Membership, batches: seq<Batch>, log: seq<nat>, fiat: string)
    requires m.notionalUSD >= 0.0 && forall i, j :: 0 <= i < j < |log| ==> log[i] != log[j]
    ensures Sum(Shared(rest + [m], batches, log, fiat))
         <= Sum(Shared(rest, batches, log, fiat)) + if OfFiat(batches, m.batchId, fiat) then m.notionalUSD else 0.0
  {
    hide OfFiat, SumFor;
    var xs, ys := Shared(rest, batches, log, fiat), Shared(rest + [m], batches, log, fiat);
    forall i | 0 <= i < |log|
      ensures log[i] != m.batchId ==> ys[i] == xs[i]
      ensures log[i] == m.batchId && OfFiat(batches, m.batchId, fiat) ==> ys[i] == xs[i] + m.notionalUSD
      ensures log[i] == m.batchId && !OfFiat(batches, m.batchId, fiat) ==> ys[i] == xs[i]
    {
      SumForAppend(rest, m, log[i]);
    }
    if i :| 0 <= i < |log| && log[i] == m.batchId && OfFiat(batches, m.batchId, fiat) {
      assert ys == xs[i := xs[i] + m.notionalUSD];
      SumUpdate(xs, i, xs[i] + m.notionalUSD);
    } else {
      assert ys == xs;
    }
  }

  lemma FrontsBelowRows(s: Sys, log: seq<nat>, fiat: string)
    requires Interleaving.OrdersOk(s.w) && NonNegative(s.w.members)
    ensures Sum(Fronts(s.w, log, fiat)) <= Sum(Shared(s.w.members, s.w.batches, log, fiat))
  {
    hide Pairs.FiatOf;
    var xs, ys := Fronts(s.w, log, fiat), Shared(s.w.members, s.w.batches, log, fiat);
    forall i | 0 <= i < |log|
      ensures xs[i] <= ys[i]
    {
      FrontBelowRows(s, log[i], fiat);
    }
    SumPointwise(xs, ys);
  }

  lemma FrontBelowRows(s: Sys, b: nat, fiat: string)
    requires Interleaving.OrdersOk(s.w) && NonNegative(s.w.members)
    ensures Front(s.w, b, fiat) <= if OfFiat(s.w.batches, b, fiat) then SumFor(s.w.members, b) else 0.0
  {
    hide OfFiat;
    PrefixBelowWhole(s.w.members, 0, b);
    assert s.w.members[..0] == [];
    if HasOrder(s.w.orders, b) {
      var i := FindOrder(s.w.orders, b);
      var k :| 0 <= k <= |s.w.members| && SumFor(s.w.members[..k], s.w.orders[i].batchId) == s.w.orders[i].notionalUSD;
      PrefixBelowWhole(s.w.members, k, b);
    }
  }

  lemma FloatBelowAccepted(cfg: Config, acts: seq<Action>, fiat: string)
    requires SweepsOnly(cfg, START, acts) && NonNegative(Run(cfg, START, acts).w.members)
    requires var log := Fronted(cfg, START, acts); forall i, j :: 0 <= i < j < |log| ==> log[i] != log[j]
    ensures var w := Run(cfg, START, acts).w;
            FloatTable.ShortOf(w.floats, fiat) <= Sum(Accepted(w.members, fiat))
  {
    hide Run, Fronted, SweepsOnly, Pairs.FiatOf, Pairs.Join;
    var s, log := Run(cfg, START, acts), Fronted(cfg, START, acts);
    Reachable(cfg, acts);
    FloatIsFronted(cfg, acts, fiat);
    FrontsBelowRows(s, log, fiat);
    BatchesShareRows(s.w.members, s.w.batches, log, fiat);
  }

  /** Within a day, over an idempotency store that answers, the amount fronted against a fiat side never exceeds the
      transactions accepted for it, whoever resubmits batches and under any interleaving. */
  lemma FloatWithinDay(cfg: Config, acts: seq<Action>, from: Time, fiat: string)
    requires SweepsOnly(cfg, START, acts) && Reliable(acts) && WithinDay(acts, from)
    requires NonNegative(Run(cfg, START, acts).w.members)
    ensures var w := Run(cfg, START, acts).w;
            FloatTable.ShortOf(w.floats, fiat) <= Sum(Accepted(w.members, fiat))
  {
    hide Run, Fronted, SweepsOnly;
    FrontedOnce(cfg, acts, from);
    FloatBelowAccepted(cfg, acts, fiat);
  }
}
