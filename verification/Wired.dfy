/** The wired service, in which a batch is submitted only by its close: every batch is carried to its fill once. */
module Wired {
  import opened Base
  import opened Configuration
  import opened Memstore
  import opened Idempotency
  import opened Pipeline
  import opened Threads
  import opened Concurrency
  import opened Fronting
  import FloatTable
  import FloatTracker
  import Interleaving
  import Ledger
  import Pairs

  /** Consumers and closers start; a submission only follows its close. */
  ghost predicate OnlyCloses(acts: seq<Action>) {
    forall i :: 0 <= i < |acts| && acts[i].Spawn? ==> acts[i].t.HClaim? || acts[i].t.CGet?
  }

  /** A thread on its way from the close of a batch to the end of its fill. */
  predicate Carrying(t: Thread) {
    t.CAnnounce? || t.SGet? || InSubmit(t)
  }

  function BatchOf(t: Thread): nat
    requires Carrying(t)
  {
    if t.SGet? then t.b else t.copy.id
  }

  /** How far the thread has come on that way. */
  function Stage(t: Thread): nat
    requires Carrying(t)
  {
    match t
    case CAnnounce(_) => 0
    case SGet(_) => 1
    case SCreate(_) => 2
    case SCheck(_, _, _) => 3
    case SExec(_) => 4
    case SClaim(_) => 5
    case SSubmit(_, _) => ASKING
    case SFill(_, _) => 7
    case SFloat(_) => BOOKING
    case SAdjust(_) => 9
    case GClaim(_) => 10
    case GSubmit(_, _) => HEDGING
    case GSettle(_, _) => 12
    case SSettle(_) => 13
    case SAnnounce(_) => 14
  }

  const ASKING := 6
  const BOOKING := 8
  const HEDGING := 11

  /** Whoever carries the batch has passed the stage. */
  ghost predicate Past(s: Sys, b: nat, stage: nat) {
    && b in s.closes
    && forall x :: x in s.threads && Carrying(s.threads[x]) && BatchOf(s.threads[x]) == b ==>
         Stage(s.threads[x]) > stage
  }

  predicate SameRequest(c: Call, d: Call) {
    c.AggregateCall? == d.AggregateCall? && c.batchId == d.batchId
  }

  function StageOf(c: Call): nat {
    if c.AggregateCall? then ASKING else HEDGING
  }

  /** Carriers hold different closed batches, and what was asked or booked for a batch lies behind its carrier. */
  ghost predicate CarriedOk(s: Sys, log: seq<nat>) {
    && (forall x :: x in s.threads && Carrying(s.threads[x]) ==> BatchOf(s.threads[x]) in s.closes)
    && (forall x, y ::
          x in s.threads && y in s.threads && x != y && Carrying(s.threads[x]) && Carrying(s.threads[y]) ==>
            BatchOf(s.threads[x]) != BatchOf(s.threads[y]))
    && (forall i :: 0 <= i < |log| ==> Past(s, log[i], BOOKING))
    && (forall i :: 0 <= i < |s.w.calls| ==> Past(s, s.w.calls[i].batchId, StageOf(s.w.calls[i])))
    && (forall i, j :: 0 <= i < j < |log| ==> log[i] != log[j])
    && (forall i, j :: 0 <= i < j < |s.w.calls| ==> !SameRequest(s.w.calls[i], s.w.calls[j]))
  }

  /** A carrier keeps its batch and moves on; only a successful close makes a new one. */
  ghost predicate MoveCarries(s: Sys, t: Thread, s': Sys, t': Thread) {
    && s.closes <= s'.closes
    && (Carrying(t') ==>
          || (Carrying(t) && BatchOf(t') == BatchOf(t) && Stage(t') > Stage(t))
          || (BatchOf(t') !in s.closes && BatchOf(t') in s'.closes))
    && (s'.w.calls == s.w.calls
        || (Carrying(t) && |s'.w.calls| == |s.w.calls| + 1 && s'.w.calls[..|s.w.calls|] == s.w.calls
            && var c := s'.w.calls[|s.w.calls|]; c.batchId == BatchOf(t) && StageOf(c) == Stage(t)))
  }

  lemma CloseCarries(s: Sys, t: Thread, now: Time)
    requires Closing(t) && BatchesOk(s.w) && Interleaving.HistoryOk(s)
    ensures var (s', t') := Close(s, t, now); MoveCarries(s, t, s', t')
  {
    hide Ledger.Key, SumFor;
  }

  lemma QuietHandle(s: Sys, t: Thread, now: Time, c: Choice)
    requires Handling(t)
    ensures var s' := Handle(s, t, now, c).0; s'.closes == s.closes && s'.w.calls == s.w.calls
  {
    hide TxKey, Held, Ledger.Key, WithOpenBatch, WithNotional, SumFor, MembersOf, FindOpen;
  }

  lemma HandleCarries(s: Sys, t: Thread, now: Time, c: Choice)
    requires Handling(t)
    ensures var (s', t') := Handle(s, t, now, c); MoveCarries(s, t, s', t')
  {
    hide TxKey, Held, Emitted, WithOpenBatch, WithNotional, SumFor, MembersOf, FindOpen;
    QuietHandle(s, t, now, c);
  }

  lemma SubmitCarries(cfg: Config, s: Sys, t: Thread, now: Time, c: Choice)
    requires Placing(t) && BatchesOk(s.w)
    ensures var (s', t') := Submit(cfg, s, t, now, c); MoveCarries(s, t, s', t')
  {
    hide AggKey, Held, WithOrder, WithStatus, WithFill, HasOrder, OrderOf;
  }

  lemma SettleCarries(cfg: Config, s: Sys, t: Thread, now: Time, c: Choice)
    requires Settling(t)
    ensures var (s', t') := Settle(cfg, s, t, now, c); MoveCarries(s, t, s', t')
  {
    hide HedgeKey, Held, Pairs.FiatOf, Pairs.CryptoOf, WithStatus, WithSettled, HasOrder, OrderOf, Ledger.Key;
    hide FloatTracker.FillPosition, FloatTable.Added;
  }

  lemma MoveOfCarrier(cfg: Config, s: Sys, t: Thread, now: Time, c: Choice)
    requires BatchesOk(s.w) && Interleaving.HistoryOk(s)
    ensures var (s', t') := Move(cfg, s, t, now, c); MoveCarries(s, t, s', t')
  {
    hide Handle, Close, Submit, Settle, BatchesOk, Interleaving.HistoryOk;
    if Settling(t) {
      SettleCarries(cfg, s, t, now, c);
    } else if Placing(t) {
      SubmitCarries(cfg, s, t, now, c);
    } else if Handling(t) {
      HandleCarries(s, t, now, c);
    } else if Closing(t) {
      CloseCarries(s, t, now);
    }
  }

  /** What lies behind every carrier stays behind. */
  lemma PastStays(s: Sys, m: Sys, tid: nat, t': Thread, b: nat, stage: nat)
    requires tid in s.threads && MoveCarries(s, s.threads[tid], m, t') && Past(s, b, stage)
    ensures Past(m.(threads := s.threads[tid := t']), b, stage)
  {
    assert b in s.closes ==> b in m.closes;
  }

  /** What a carrier does at its stage lies behind it afterwards, and was not done before. */
  lemma StageDone(s: Sys, m: Sys, tid: nat, t': Thread, log: seq<nat>)
    requires CarriedOk(s, log) && tid in s.threads && Carrying(s.threads[tid])
    requires MoveCarries(s, s.threads[tid], m, t')
    ensures Past(m.(threads := s.threads[tid := t']), BatchOf(s.threads[tid]), Stage(s.threads[tid]))
    ensures !Past(s, BatchOf(s.threads[tid]), Stage(s.threads[tid]))
  {
    hide Stage, StageOf;
    var t := s.threads[tid];
    assert BatchOf(t) in s.closes && BatchOf(t) in m.closes;
  }

  lemma CarriersMove(s: Sys, m: Sys, tid: nat, t': Thread, log: seq<nat>)
    requires CarriedOk(s, log) && tid in s.threads && MoveCarries(s, s.threads[tid], m, t')
    ensures var threads := s.threads[tid := t'];
            && (forall x :: x in threads && Carrying(threads[x]) ==> BatchOf(threads[x]) in m.closes)
            && (forall x, y ::
                  x in threads && y in threads && x != y && Carrying(threads[x]) && Carrying(threads[y]) ==>
                    BatchOf(threads[x]) != BatchOf(threads[y]))
  {
    hide Stage, StageOf, Past;
    assert forall b :: b in s.closes ==> b in m.closes;
  }

  lemma CallsMove(s: Sys, m: Sys, tid: nat, t': Thread, log: seq<nat>)
    requires CarriedOk(s, log) && tid in s.threads && MoveCarries(s, s.threads[tid], m, t')
    ensures var s' := m.(threads := s.threads[tid := t']);
            && (forall i :: 0 <= i < |m.w.calls| ==> Past(s', m.w.calls[i].batchId, StageOf(m.w.calls[i])))
            && (forall i, j :: 0 <= i < j < |m.w.calls| ==> !SameRequest(m.w.calls[i], m.w.calls[j]))
  {
    hide Past, Stage, BatchOf;
    var s', n := m.(threads := s.threads[tid := t']), |s.w.calls|;
    forall i | 0 <= i < n
      ensures m.w.calls[i] == s.w.calls[i] && Past(s', s.w.calls[i].batchId, StageOf(s.w.calls[i]))
    {
      assert m.w.calls[..n][i] == m.w.calls[i];
      PastStays(s, m, tid, t', s.w.calls[i].batchId, StageOf(s.w.calls[i]));
    }
    if m.w.calls != s.w.calls {
      StageDone(s, m, tid, t', log);
      forall i | 0 <= i < n
        ensures !SameRequest(m.w.calls[i], m.w.calls[n])
      {
        assert Past(s, s.w.calls[i].batchId, StageOf(s.w.calls[i]));
      }
    }
  }

  lemma LogMove(s: Sys, m: Sys, tid: nat, t': Thread, log: seq<nat>)
    requires CarriedOk(s, log) && tid in s.threads && MoveCarries(s, s.threads[tid], m, t')
    ensures var s', log' := m.(threads := s.threads[tid := t']), log + Booked(s, s.threads[tid]);
            && (forall i :: 0 <= i < |log'| ==> Past(s', log'[i], BOOKING))
            && (forall i, j :: 0 <= i < j < |log'| ==> log'[i] != log'[j])
  {
    hide Past, HasOrder;
    forall i | 0 <= i < |log|
      ensures Past(m.(threads := s.threads[tid := t']), log[i], BOOKING)
    {
      PastStays(s, m, tid, t', log[i], BOOKING);
    }
    if Booked(s, s.threads[tid]) != [] {
      StageDone(s, m, tid, t', log);
      assert forall i :: 0 <= i < |log| ==> Past(s, log[i], BOOKING);
    }
  }

  function Booked(s: Sys, t: Thread): seq<nat> {
    if t.SFloat? && HasOrder(s.w.orders, t.copy.id) then [t.copy.id] else []
  }

  lemma CarriedMove(s: Sys, m: Sys, tid: nat, t': Thread, log: seq<nat>)
    requires CarriedOk(s, log) && tid in s.threads && MoveCarries(s, s.threads[tid], m, t')
    ensures CarriedOk(m.(threads := s.threads[tid := t']), log + Booked(s, s.threads[tid]))
  {
    CarriersMove(s, m, tid, t', log);
    CallsMove(s, m, tid, t', log);
    LogMove(s, m, tid, t', log);
    hide MoveCarries, Past, StageOf, Booked;
  }

  lemma StepCarried(cfg: Config, s: Sys, a: Action, log: seq<nat>)
    requires Interleaving.Inv(s) && CarriedOk(s, log) && OnlyCloses([a])
    ensures CarriedOk(Step(cfg, s, a), log + FrontedBy(s, a))
  {
    assert [a][0] == a && log + [] == log;
    if a.Advance? && a.tid in s.threads {
      hide Move, HasOrder, MoveCarries, CarriedOk;
      var t := s.threads[a.tid];
      var m := Move(cfg, s, t, a.now, a.c);
      MoveOfCarrier(cfg, s, t, a.now, a.c);
      Interleaving.MoveLeavesThreads(cfg, s, t, a.now, a.c);
      CarriedMove(s, m.0, a.tid, m.1, log);
    } else {
      hide Move, CarriedOk;
      OthersCarried(s, Step(cfg, s, a), log);
    }
  }

  /** Threads that carry nothing may start, and the environment may act. */
  lemma OthersCarried(s: Sys, s': Sys, log: seq<nat>)
    requires CarriedOk(s, log) && s'.closes == s.closes && s'.w.calls == s.w.calls
    requires forall x :: x in s'.threads && Carrying(s'.threads[x]) ==> x in s.threads && s.threads[x] == s'.threads[x]
    ensures CarriedOk(s', log)
  {
    hide Stage, StageOf;
    forall b, stage | Past(s, b, stage)
      ensures Past(s', b, stage)
    {
    }
  }

  lemma {:induction false} RunCarried(cfg: Config, s: Sys, acts: seq<Action>, log: seq<nat>)
    requires Interleaving.Inv(s) && CarriedOk(s, log) && OnlyCloses(acts)
    ensures CarriedOk(Run(cfg, s, acts), log + Fronted(cfg, s, acts))
    decreases |acts|
  {
    hide Step, CarriedOk, FrontedBy, Interleaving.Inv;
    if acts == [] {
      assert log + [] == log;
    } else {
      assert [acts[0]][0] == acts[0];
      Interleaving.StepKeeps(cfg, s, acts[0]);
      StepCarried(cfg, s, acts[0], log);
      var s1 := Step(cfg, s, acts[0]);
      RunCarried(cfg, s1, acts[1..], log + FrontedBy(s, acts[0]));
      assert log + FrontedBy(s, acts[0]) + Fronted(cfg, s1, acts[1..]) == log + Fronted(cfg, s, acts);
    }
  }

  lemma Carried(cfg: Config, acts: seq<Action>)
    requires OnlyCloses(acts)
    ensures CarriedOk(Run(cfg, START, acts), Fronted(cfg, START, acts))
  {
    hide Interleaving.Inv;
    Reachable(cfg, []);
    assert Run(cfg, START, []) == START;
    RunCarried(cfg, START, acts, []);
    assert [] + Fronted(cfg, START, acts) == Fronted(cfg, START, acts);
  }

  /** When only closes submit, each batch is asked of liquidity at most once, hedged at most once and booked at most
      once, for ever, whatever the idempotency store answers, forgets or forges. */
  lemma EachBatchOnce(cfg: Config, acts: seq<Action>)
    requires OnlyCloses(acts)
    ensures var calls, log := Run(cfg, START, acts).w.calls, Fronted(cfg, START, acts);
            && (forall i, j :: 0 <= i < j < |calls| ==> !SameRequest(calls[i], calls[j]))
            && (forall i, j :: 0 <= i < j < |log| ==> log[i] != log[j])
  {
    hide Run, Fronted;
    Carried(cfg, acts);
  }

  /** In the wired service the amount fronted against a fiat side never exceeds the transactions accepted for it, over
      any interleaving of any length and any idempotency store. */
  lemma FloatNeverExceedsAccepted(cfg: Config, acts: seq<Action>, fiat: string)
    requires SweepsOnly(cfg, START, acts) && OnlyCloses(acts)
    requires NonNegative(Run(cfg, START, acts).w.members)
    ensures var w := Run(cfg, START, acts).w;
            FloatTable.ShortOf(w.floats, fiat) <= Sum(Accepted(w.members, fiat))
  {
    hide Run, Fronted, SweepsOnly;
    EachBatchOnce(cfg, acts);
    FloatBelowAccepted(cfg, acts, fiat);
  }
}
