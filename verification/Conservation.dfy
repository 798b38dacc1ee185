/** Every accepted transaction is counted once: in an unsettled batch or in the recorded float. */
module Conservation {
  import opened Base
  import opened Records
  import opened Configuration
  import opened Memstore
  import opened Pipeline
  import opened Runs
  import FloatTable
  import Pairs

  // --- Amounts per fiat currency ---

  function Share(b: Batch, fiat: string): Decimal {
    if Pairs.FiatOf(b.assetPair) == fiat then b.notionalUSD else 0.0
  }

  function Shares(batches: seq<Batch>, fiat: string): seq<Decimal> {
    seq(|batches|, i requires 0 <= i < |batches| => Share(batches[i], fiat))
  }

  function SettledShares(batches: seq<Batch>, fiat: string): seq<Decimal> {
    seq(|batches|, i requires 0 <= i < |batches| =>
      if batches[i].status == Settled then Share(batches[i], fiat) else 0.0)
  }

  function UnsettledShares(batches: seq<Batch>, fiat: string): seq<Decimal> {
    seq(|batches|, i requires 0 <= i < |batches| =>
      if batches[i].status != Settled then Share(batches[i], fiat) else 0.0)
  }

  /** What the events booked for one fiat side of the pair: each its notional, or its amount without one. */
  function Booked(evs: seq<TxEvent>, fiat: string): seq<Decimal> {
    seq(|evs|, i requires 0 <= i < |evs| =>
      if Pairs.FiatOf(evs[i].asset + "/" + evs[i].fiatCurrency) != fiat then 0.0
      else if evs[i].notionalUSD == 0.0 then evs[i].amount
      else evs[i].notionalUSD)
  }

  /** What the events booked for one fiat currency, as the events name it. */
  function BookedIn(evs: seq<TxEvent>, fiat: string): seq<Decimal> {
    seq(|evs|, i requires 0 <= i < |evs| =>
      if evs[i].fiatCurrency != fiat then 0.0
      else if evs[i].notionalUSD == 0.0 then evs[i].amount
      else evs[i].notionalUSD)
  }

  /** The recorded float is the notional of the settled batches. */
  ghost predicate FloatOk(w: World, fiat: string) {
    FloatTable.ShortOf(w.floats, fiat) == Sum(SettledShares(w.batches, fiat))
  }

  /** The batches hold exactly what the accepted events booked. */
  ghost predicate IntakeOk(w: World, handled: seq<TxEvent>, fiat: string) {
    Sum(Shares(w.batches, fiat)) == Sum(Booked(Firsts(handled), fiat))
  }

  lemma SharesAdvance(batches: seq<Batch>, id: nat, st: BatchStatus, fiat: string)
    requires id < |batches| && batches[id].status != Settled
    ensures Shares(Advanced(batches, id, st), fiat) == Shares(batches, fiat)
    ensures SettledShares(Advanced(batches, id, st), fiat)
         == if st == Settled then SettledShares(batches, fiat)[id := Share(batches[id], fiat)]
            else SettledShares(batches, fiat)
  {
  }

  lemma OutcomeMoney(w: World, w': World, id: nat, fiat: string)
    requires OrdersOk(w) && FloatOk(w, fiat) && SubmitOutcome(w, w', id)
    ensures FloatOk(w', fiat) && Shares(w'.batches, fiat) == Shares(w.batches, fiat)
  {
    if w' == w {
    } else if Unfilled(w, w', id) {
      SharesAdvance(w.batches, id, Executing, fiat);
    } else {
      var b := w.batches[id];
      SharesAdvance(w.batches, id, Settled, fiat);
      CreatedOrders(w, id);
      var notional := OrderOf(WithOrder(w.orders, id, b.assetPair, b.notionalUSD), id).notionalUSD;
      assert notional == b.notionalUSD;
      var total := OrderOf(w'.orders, id).totalFilled;
      var due :| w'.floats == FloatTable.Added(w.floats, FloatFor(b, notional, total, due));
      FloatTable.AddRaisesShort(w.floats, FloatFor(b, notional, total, due), fiat);
      SumUpdate(SettledShares(w.batches, fiat), id, Share(b, fiat));
    }
  }

  lemma SubmittedMoney(cfg: Config, w: World, id: nat, now: Time, env: SubmitEnv, fiat: string)
    requires WorldOk(w) && FloatOk(w, fiat)
    ensures var w' := Submitted(cfg, w, id, now, env);
            FloatOk(w', fiat) && Shares(w'.batches, fiat) == Shares(w.batches, fiat)
  {
    SubmitEffect(cfg, w, id, now, env);
    OutcomeMoney(w, Submitted(cfg, w, id, now, env), id, fiat);
  }

  lemma ClosedMoney(cfg: Config, w: World, id: nat, now: Time, env: SubmitEnv, fiat: string)
    requires WorldOk(w) && FloatOk(w, fiat)
    ensures var w' := ClosedBatch(cfg, w, id, now, env);
            FloatOk(w', fiat) && Shares(w'.batches, fiat) == Shares(w.batches, fiat)
  {
    if id < |w.batches| && w.batches[id].status == Open {
      var w1 := JustClosed(w, id, now);
      JustClosedKeeps(w, id, now);
      assert SettledShares(w1.batches, fiat) == SettledShares(w.batches, fiat);
      assert Shares(w1.batches, fiat) == Shares(w.batches, fiat);
      SubmittedMoney(cfg, w1, id, now, env, fiat);
    }
  }

  lemma {:induction false} TickedMoney(
    cfg: Config, w: World, open: seq<Batch>, n: nat, now: Time, envs: nat -> TickEnv, fiat: string)
    requires WorldOk(w) && FloatOk(w, fiat) && n <= |open|
    ensures var w' := TickedUpTo(cfg, w, open, n, now, envs);
            FloatOk(w', fiat) && Shares(w'.batches, fiat) == Shares(w.batches, fiat)
  {
    hide TickedOne, WorldOk, FloatOk;
    if n > 0 {
      var w1, b := TickedUpTo(cfg, w, open, n - 1, now, envs), open[n - 1];
      TickedMoney(cfg, w, open, n - 1, now, envs, fiat);
      TickedKeeps(cfg, w, open, n - 1, now, envs);
      TickedOneMoney(cfg, w1, b, now, envs(b.id), fiat);
    }
  }

  lemma TickedOneMoney(cfg: Config, w: World, b: Batch, now: Time, env: TickEnv, fiat: string)
    requires WorldOk(w) && FloatOk(w, fiat)
    ensures var w' := TickedOne(cfg, w, b, now, env);
            FloatOk(w', fiat) && Shares(w'.batches, fiat) == Shares(w.batches, fiat)
  {
    LockKeeps(cfg, w, b.assetPair, now);
    ClosedMoney(cfg, WithLock(cfg, w, b.assetPair, now), b.id, now, env.submit, fiat);
  }

  /** One batch joined: its share grows, or a first share is added. */
  lemma SharesJoin(batches: seq<Batch>, batches': seq<Batch>, id: nat, fiat: string)
    requires id < |batches'| && batches'[id].status == Open && (id < |batches| ==> batches[id].status == Open)
    requires |batches'| == if id < |batches| then |batches| else |batches| + 1
    requires forall b :: 0 <= b < |batches'| && b != id ==> b < |batches| && batches'[b] == batches[b]
    ensures Sum(SettledShares(batches', fiat)) == Sum(SettledShares(batches, fiat))
    ensures Sum(Shares(batches', fiat)) == Sum(Shares(batches, fiat)) + Share(batches'[id], fiat)
      - if id < |batches| then Share(batches[id], fiat) else 0.0
  {
    var share := Share(batches'[id], fiat);
    if id < |batches| {
      assert Shares(batches', fiat) == Shares(batches, fiat)[id := share];
      SumUpdate(Shares(batches, fiat), id, share);
      assert SettledShares(batches', fiat) == SettledShares(batches, fiat);
    } else {
      assert Shares(batches', fiat) == Shares(batches, fiat) + [share];
      SumAppend(Shares(batches, fiat), share);
      assert SettledShares(batches', fiat) == SettledShares(batches, fiat) + [0.0];
      SumAppend(SettledShares(batches, fiat), 0.0);
    }
  }

  lemma JoinedMoney(w: World, ev: TxEvent, now: Time, fiat: string)
    requires WorldOk(w) && FloatOk(w, fiat)
    ensures var w' := Joined(w, ev, now);
            && FloatOk(w', fiat)
            && Sum(Shares(w'.batches, fiat)) == Sum(Shares(w.batches, fiat))
               + if Pairs.FiatOf(PairOf(ev)) == fiat then BookedNotional(ev) else 0.0
  {
    var w' := Joined(w, ev, now);
    var id := FindOpen(w.batches, PairOf(ev));
    JoinedEffect(w, ev, now);
    JoinedBatches(w, ev, now);
    SumForAppend(w.members, MembershipFor(ev, id), id);
    SharesJoin(w.batches, w'.batches, id, fiat);
    if id >= |w.batches| {
      NobodySumsToZero(w, id);
    }
  }

  lemma NobodySumsToZero(w: World, id: nat)
    requires MembersOk(w) && id >= |w.batches|
    ensures SumFor(w.members, id) == 0.0
  {
    SumForNobody(w.members, id);
  }

  lemma BookedGrows(handled: seq<TxEvent>, ev: TxEvent, fiat: string)
    ensures Sum(Booked(Firsts(handled + [ev]), fiat)) == Sum(Booked(Firsts(handled), fiat))
      + if WellFormed(ev) && !Knows(Firsts(handled), ev.txId) && Pairs.FiatOf(PairOf(ev)) == fiat
        then BookedNotional(ev) else 0.0
  {
    var f := Firsts(handled);
    assert (handled + [ev])[..|handled|] == handled;
    if WellFormed(ev) && !Knows(f, ev.txId) {
      var x := if Pairs.FiatOf(PairOf(ev)) == fiat then BookedNotional(ev) else 0.0;
      assert Booked(f + [ev], fiat) == Booked(f, fiat) + [x];
      SumAppend(Booked(f, fiat), x);
    }
  }

  lemma HandledMoney(w: World, ev: TxEvent, now: Time, handled: seq<TxEvent>, fiat: string)
    requires WorldOk(w) && HistoryOk(w, handled) && FloatOk(w, fiat) && IntakeOk(w, handled, fiat)
    ensures FloatOk(Handled(w, ev, now), fiat) && IntakeOk(Handled(w, ev, now), handled + [ev], fiat)
  {
    HandledEffect(w, ev, now);
    BookedGrows(handled, ev, fiat);
    if WellFormed(ev) && ev.txId !in w.byTx {
      JoinedMoney(w, ev, now, fiat);
    }
  }

  lemma StepMoney(cfg: Config, s: Sys, t: Timed, fiat: string)
    requires Inv(s) && FloatOk(s.w, fiat) && IntakeOk(s.w, s.handled, fiat)
    ensures FloatOk(Step(cfg, s, t).w, fiat) && IntakeOk(Step(cfg, s, t).w, Step(cfg, s, t).handled, fiat)
  {
    hide Handled, TickedUpTo, ClosedBatch, Submitted;
    match t.act {
      case Event(ev) =>
        HandledMoney(s.w, ev, t.at, s.handled, fiat);
      case Tick(envs) => TickedMoney(cfg, s.w, OpenRows(s.w.batches), |OpenRows(s.w.batches)|, t.at, envs, fiat);
      case Close(id, env) => ClosedMoney(cfg, s.w, id, t.at, env, fiat);
      case Submit(id, env) => SubmittedMoney(cfg, s.w, id, t.at, env, fiat);
      case Sweep => FloatTable.SweepKeepsShort(s.w.floats, t.at, fiat);
      case _ =>
    }
  }

  lemma {:induction false} RunMoney(cfg: Config, start: Time, acts: seq<Timed>, fiat: string)
    ensures var s := Run(cfg, start, acts); FloatOk(s.w, fiat) && IntakeOk(s.w, s.handled, fiat)
  {
    hide Step, Inv;
    if acts != [] {
      RunMoney(cfg, start, acts[..|acts| - 1], fiat);
      RunKeeps(cfg, start, acts[..|acts| - 1]);
      StepMoney(cfg, Run(cfg, start, acts[..|acts| - 1]), acts[|acts| - 1], fiat);
    }
  }

  /** What the accepted events booked on a fiat side is in its unsettled batches or in its recorded float. */
  ghost predicate Conserved(s: Sys, fiat: string) {
    Sum(Booked(Firsts(s.handled), fiat))
    == Sum(UnsettledShares(s.w.batches, fiat)) + FloatTable.ShortOf(s.w.floats, fiat)
  }

  /** After any run nothing accepted is lost or counted twice. */
  lemma EndToEnd(cfg: Config, start: Time, acts: seq<Timed>, fiat: string)
    ensures Conserved(Run(cfg, start, acts), fiat)
  {
    RunMoney(cfg, start, acts, fiat);
    var b := Run(cfg, start, acts).w.batches;
    SumOfSums(UnsettledShares(b, fiat), SettledShares(b, fiat), Shares(b, fiat));
  }

  /** With assets free of '/', the fiat side of a pair is the currency the event names. */
  lemma EndToEndByCurrency(cfg: Config, start: Time, acts: seq<Timed>, fiat: string)
    requires forall i :: 0 <= i < |Firsts(Run(cfg, start, acts).handled)| ==>
      '/' !in Firsts(Run(cfg, start, acts).handled)[i].asset
    ensures var s := Run(cfg, start, acts);
            Sum(BookedIn(Firsts(s.handled), fiat))
              == Sum(UnsettledShares(s.w.batches, fiat)) + FloatTable.ShortOf(s.w.floats, fiat)
  {
    EndToEnd(cfg, start, acts, fiat);
    var f := Firsts(Run(cfg, start, acts).handled);
    forall i | 0 <= i < |f|
      ensures BookedIn(f, fiat)[i] == Booked(f, fiat)[i]
    {
      Pairs.SplitJoin(f[i].asset, f[i].fiatCurrency);
    }
    assert BookedIn(f, fiat) == Booked(f, fiat);
  }

  /** A slash in the asset moves the fiat side: an event in USD is then booked under another currency. */
  lemma SlashMisfiles(ev: TxEvent)
    ensures Pairs.FiatOf(PairOf(ev)) == ev.fiatCurrency <==> '/' !in ev.asset
  {
    Pairs.SplitJoin(ev.asset, ev.fiatCurrency);
  }

  // --- Exactly-once membership ---

  lemma {:induction false} FirstsAreDistinct(handled: seq<TxEvent>)
    ensures var f := Firsts(handled);
            && (forall i :: 0 <= i < |f| ==> WellFormed(f[i]) && f[i] in handled)
            && (forall i, j :: 0 <= i < j < |f| ==> f[i].txId != f[j].txId)
            && (forall e :: e in handled && WellFormed(e) ==> Knows(f, e.txId))
  {
    if handled != [] {
      var rest, ev := handled[..|handled| - 1], handled[|handled| - 1];
      FirstsAreDistinct(rest);
      assert handled == rest + [ev];
      KnowsAppend(Firsts(rest), ev);
    }
  }

  /** The rows are exactly the well-formed transactions handled, once each, with the first event's data. */
  ghost predicate RowsAreFirsts(members: seq<Membership>, handled: seq<TxEvent>) {
    && (forall i, j :: 0 <= i < j < |members| ==> members[i].txId != members[j].txId)
    && (forall e :: e in handled && WellFormed(e) ==> exists i :: 0 <= i < |members| && members[i].txId == e.txId)
    && (forall i :: 0 <= i < |members| ==> RecordsFirst(members[i], handled))
  }

  /** The row carries the data of the first event of its transaction. */
  ghost predicate RecordsFirst(m: Membership, handled: seq<TxEvent>) {
    exists k :: 0 <= k < |handled| && FirstOf(handled, k) && TakenFrom(m, handled[k])
  }

  /** Field by field: the notional is the event's own, or its amount when the event carries none. */
  ghost predicate TakenFrom(m: Membership, ev: TxEvent) {
    && m.txId == ev.txId && m.amount == ev.amount && m.asset == ev.asset && m.fiatCurrency == ev.fiatCurrency
    && m.userId == ev.userId
    && (ev.notionalUSD != 0.0 ==> m.notionalUSD == ev.notionalUSD)
    && (ev.notionalUSD == 0.0 ==> m.notionalUSD == ev.amount)
  }

  /** No earlier well-formed event has the transaction of event k. */
  ghost predicate FirstOf(handled: seq<TxEvent>, k: nat)
    requires k < |handled|
  {
    WellFormed(handled[k]) && forall j :: 0 <= j < k && WellFormed(handled[j]) ==> handled[j].txId != handled[k].txId
  }

  ghost predicate ComesFirst(handled: seq<TxEvent>, e: TxEvent) {
    exists k :: 0 <= k < |handled| && FirstOf(handled, k) && handled[k] == e
  }

  lemma ComesFirstGrows(rest: seq<TxEvent>, ev: TxEvent, e: TxEvent)
    requires ComesFirst(rest, e)
    ensures ComesFirst(rest + [ev], e)
  {
    var k :| 0 <= k < |rest| && FirstOf(rest, k) && rest[k] == e;
    assert (rest + [ev])[k] == e;
    assert FirstOf(rest + [ev], k);
  }

  lemma NewcomerIsFirst(rest: seq<TxEvent>, ev: TxEvent)
    requires WellFormed(ev) && forall e :: e in rest && WellFormed(e) ==> e.txId != ev.txId
    ensures ComesFirst(rest + [ev], ev)
  {
    assert forall j :: 0 <= j < |rest| ==> (rest + [ev])[j] in rest;
    assert FirstOf(rest + [ev], |rest|);
  }

  lemma {:induction false} FirstsComeFirst(handled: seq<TxEvent>)
    ensures forall i :: 0 <= i < |Firsts(handled)| ==> ComesFirst(handled, Firsts(handled)[i])
  {
    if handled != [] {
      var rest, ev := handled[..|handled| - 1], handled[|handled| - 1];
      assert handled == rest + [ev];
      FirstsComeFirst(rest);
      forall i | 0 <= i < |Firsts(handled)|
        ensures ComesFirst(handled, Firsts(handled)[i])
      {
        if i < |Firsts(rest)| {
          ComesFirstGrows(rest, ev, Firsts(rest)[i]);
        } else {
          FirstsAreDistinct(rest);
          NewcomerIsFirst(rest, ev);
        }
      }
    }
  }

  lemma MembersAreFirsts(members: seq<Membership>, handled: seq<TxEvent>)
    requires |members| == |Firsts(handled)|
    requires forall i :: 0 <= i < |members| ==> members[i] == MembershipFor(Firsts(handled)[i], members[i].batchId)
    ensures RowsAreFirsts(members, handled)
  {
    var f := Firsts(handled);
    FirstsAreDistinct(handled);
    FirstsComeFirst(handled);
    forall e | e in handled && WellFormed(e)
      ensures exists i :: 0 <= i < |members| && members[i].txId == e.txId
    {
      var i :| 0 <= i < |f| && f[i].txId == e.txId;
      assert members[i].txId == e.txId;
    }
    forall i | 0 <= i < |members|
      ensures RecordsFirst(members[i], handled)
    {
      assert ComesFirst(handled, f[i]);
      var k :| 0 <= k < |handled| && FirstOf(handled, k) && handled[k] == f[i];
      assert TakenFrom(members[i], handled[k]);
    }
    RowsDiffer(members, f);
  }

  lemma RowsDiffer(members: seq<Membership>, f: seq<TxEvent>)
    requires |members| == |f| && forall i, j :: 0 <= i < j < |f| ==> f[i].txId != f[j].txId
    requires forall i :: 0 <= i < |members| ==> members[i] == MembershipFor(f[i], members[i].batchId)
    ensures forall i, j :: 0 <= i < j < |members| ==> members[i].txId != members[j].txId
  {
    forall i, j | 0 <= i < j < |members|
      ensures members[i].txId != members[j].txId
    {
      assert members[i].txId == f[i].txId && members[j].txId == f[j].txId;
    }
  }

  /** Exactly-once membership: one row per handled transaction, in a batch of its own pair. */
  lemma MembershipExactlyOnce(cfg: Config, start: Time, acts: seq<Timed>)
    ensures var s := Run(cfg, start, acts); RowsAreFirsts(s.w.members, s.handled) && MembersOk(s.w)
  {
    RunKeeps(cfg, start, acts);
    var s := Run(cfg, start, acts);
    MembersAreFirsts(s.w.members, s.handled);
  }

  /** The first event with a transaction and an asset has its row, with its own data, in a batch of its own pair. */
  lemma FirstEventIsRecorded(cfg: Config, start: Time, acts: seq<Timed>, k: nat)
    requires var handled := Run(cfg, start, acts).handled;
             && k < |handled| && handled[k].txId != "" && handled[k].asset != ""
             && (forall j :: 0 <= j < k && handled[j].txId != "" && handled[j].asset != "" ==>
                   handled[j].txId != handled[k].txId)
    ensures var s := Run(cfg, start, acts);
            var ev := s.handled[k];
            exists i :: 0 <= i < |s.w.members| && TakenFrom(s.w.members[i], ev)
              && s.w.members[i].batchId < |s.w.batches|
              && s.w.batches[s.w.members[i].batchId].assetPair == ev.asset + "/" + ev.fiatCurrency
  {
    hide Run;
    MembershipExactlyOnce(cfg, start, acts);
    var s := Run(cfg, start, acts);
    var ev := s.handled[k];
    assert ev in s.handled && WellFormed(ev);
    var i :| 0 <= i < |s.w.members| && s.w.members[i].txId == ev.txId;
    assert RecordsFirst(s.w.members[i], s.handled);
    var k' :| 0 <= k' < |s.handled| && FirstOf(s.handled, k') && TakenFrom(s.w.members[i], s.handled[k']);
    assert k' == k;
  }

  // --- One fill per batch ---

  function Fills(calls: seq<Call>, id: nat): nat {
    if calls == [] then 0
    else Fills(calls[..|calls| - 1], id) + if FillCall(calls[|calls| - 1], id) then 1 else 0
  }

  function Hedges(calls: seq<Call>, id: nat): nat {
    if calls == [] then 0
    else Hedges(calls[..|calls| - 1], id) + if HedgeCall(calls[|calls| - 1], id) then 1 else 0
  }

  lemma CallAppend(calls: seq<Call>, c: Call, id: nat)
    ensures Fills(calls + [c], id) == Fills(calls, id) + if FillCall(c, id) then 1 else 0
    ensures Hedges(calls + [c], id) == Hedges(calls, id) + if HedgeCall(c, id) then 1 else 0
  {
    assert (calls + [c])[..|calls|] == calls;
  }

  /** A batch was filled once if it is settled and never otherwise; only a filled batch was hedged, once at most. */
  ghost predicate CallsOk(w: World, id: nat) {
    && Fills(w.calls, id) == (if IsSettled(w, id) then 1 else 0)
    && Hedges(w.calls, id) <= Fills(w.calls, id)
  }

  lemma OutcomeCalls(w: World, w': World, id: nat, b: nat)
    requires CallsOk(w, b) && SubmitOutcome(w, w', id)
    ensures CallsOk(w', b)
  {
    hide SameIntake, OnlySubmissionKeys, SameOrders, Emitted, AdjustEvent, ExecuteEvent, FloatFor, CalledOnce;
    if w' == w {
    } else if Unfilled(w, w', id) {
      if w'.calls != w.calls {
        var key :| w'.calls == w.calls + [AggregateCall(id, w.batches[id].notionalUSD, key, false)];
        CallAppend(w.calls, AggregateCall(id, w.batches[id].notionalUSD, key, false), b);
      }
    } else {
      CallsGrow(w.calls, w'.calls, id, b);
    }
  }

  lemma CallsGrow(calls: seq<Call>, calls': seq<Call>, id: nat, b: nat)
    requires CalledOnce(calls, calls', id)
    ensures Fills(calls', b) == Fills(calls, b) + if b == id then 1 else 0
    ensures Hedges(calls', b) <= Hedges(calls, b) + if b == id then 1 else 0
  {
    var c :| && FillCall(c, id)
             && (calls' == calls + [c] || (exists h :: HedgeCall(h, id) && calls' == calls + [c] + [h]));
    CallAppend(calls, c, b);
    if calls' != calls + [c] {
      var h :| HedgeCall(h, id) && calls' == calls + [c] + [h];
      CallAppend(calls + [c], h, b);
    }
  }

  lemma SubmittedCalls(cfg: Config, w: World, id: nat, now: Time, env: SubmitEnv, b: nat)
    requires WorldOk(w) && CallsOk(w, b)
    ensures CallsOk(Submitted(cfg, w, id, now, env), b)
  {
    SubmitEffect(cfg, w, id, now, env);
    OutcomeCalls(w, Submitted(cfg, w, id, now, env), id, b);
  }

  lemma ClosedCalls(cfg: Config, w: World, id: nat, now: Time, env: SubmitEnv, b: nat)
    requires WorldOk(w) && CallsOk(w, b)
    ensures CallsOk(ClosedBatch(cfg, w, id, now, env), b)
  {
    if id < |w.batches| && w.batches[id].status == Open {
      JustClosedKeeps(w, id, now);
      SubmittedCalls(cfg, JustClosed(w, id, now), id, now, env, b);
    }
  }

  lemma {:induction false} TickedCalls(
    cfg: Config, w: World, open: seq<Batch>, n: nat, now: Time, envs: nat -> TickEnv, b: nat)
    requires WorldOk(w) && CallsOk(w, b) && n <= |open|
    ensures CallsOk(TickedUpTo(cfg, w, open, n, now, envs), b)
  {
    hide TickedOne, WorldOk, CallsOk;
    if n > 0 {
      var w1, x := TickedUpTo(cfg, w, open, n - 1, now, envs), open[n - 1];
      TickedCalls(cfg, w, open, n - 1, now, envs, b);
      TickedKeeps(cfg, w, open, n - 1, now, envs);
      TickedOneCalls(cfg, w1, x, now, envs(x.id), b);
    }
  }

  lemma TickedOneCalls(cfg: Config, w: World, x: Batch, now: Time, env: TickEnv, b: nat)
    requires WorldOk(w) && CallsOk(w, b)
    ensures CallsOk(TickedOne(cfg, w, x, now, env), b)
  {
    LockKeeps(cfg, w, x.assetPair, now);
    ClosedCalls(cfg, WithLock(cfg, w, x.assetPair, now), x.id, now, env.submit, b);
  }

  lemma HandledCalls(w: World, ev: TxEvent, now: Time, b: nat)
    requires WorldOk(w) && CallsOk(w, b)
    ensures CallsOk(Handled(w, ev, now), b)
  {
    hide Handled, Joined, Fills, Hedges;
    HandledEffect(w, ev, now);
    if WellFormed(ev) && ev.txId !in w.byTx {
      JoinedEffect(w, ev, now);
      JoinedBatches(w, ev, now);
    }
  }

  lemma StepCalls(cfg: Config, s: Sys, t: Timed, b: nat)
    requires Inv(s) && CallsOk(s.w, b)
    ensures CallsOk(Step(cfg, s, t).w, b)
  {
    hide Handled, TickedUpTo, ClosedBatch, Submitted, WorldOk, HistoryOk, Fills, Hedges;
    match t.act {
      case Event(ev) => HandledCalls(s.w, ev, t.at, b);
      case Tick(envs) => TickedCalls(cfg, s.w, OpenRows(s.w.batches), |OpenRows(s.w.batches)|, t.at, envs, b);
      case Close(id, env) => ClosedCalls(cfg, s.w, id, t.at, env, b);
      case Submit(id, env) => SubmittedCalls(cfg, s.w, id, t.at, env, b);
      case _ =>
    }
  }

  /** However often a batch is resubmitted, it is filled at most once and hedged at most once. */
  lemma {:induction false} OneFillPerBatch(cfg: Config, start: Time, acts: seq<Timed>, id: nat)
    ensures var w := Run(cfg, start, acts).w;
            && Fills(w.calls, id) <= 1
            && (Fills(w.calls, id) == 1 <==> IsSettled(w, id))
            && Hedges(w.calls, id) <= Fills(w.calls, id)
  {
    hide Step, Inv;
    if acts != [] {
      OneFillPerBatch(cfg, start, acts[..|acts| - 1], id);
      RunKeeps(cfg, start, acts[..|acts| - 1]);
      StepCalls(cfg, Run(cfg, start, acts[..|acts| - 1]), acts[|acts| - 1], id);
    }
  }
}
