/** Results over every interleaving: lifecycle, bounded orders, exactly-once rows and spaced submissions. */
module Concurrency {
  import opened Base
  import opened Records
  import opened Configuration
  import opened Memstore
  import opened Idempotency
  import opened Threads
  import opened Interleaving
  import Pairs

  lemma EmptyIsOk(s: Sys)
    requires s.w.batches == [] && s.w.members == [] && s.w.byTx == {} && s.w.orders == []
    requires s.threads == map[] && s.closes == [] && s.fills == []
    ensures Inv(s)
  {
  }

  lemma Reachable(cfg: Config, acts: seq<Action>)
    ensures Inv(Run(cfg, START, acts))
  {
    EmptyIsOk(START);
    RunKeeps(cfg, START, acts);
  }

  // --- Lifecycle ---

  /** How batches, orders, close announcements and fills go together in every reachable state. */
  lemma LifecycleCoupling(cfg: Config, acts: seq<Action>, b: nat)
    requires b < |Run(cfg, START, acts).w.batches|
    ensures var s := Run(cfg, START, acts);
            var st := s.w.batches[b].status;
            && (forall c :: 0 <= c < |s.w.batches| && c != b && st == Open && s.w.batches[c].status == Open ==>
                  s.w.batches[c].assetPair != s.w.batches[b].assetPair)
            && (b in s.closes <==> st != Open)
            && (forall i, j :: 0 <= i < j < |s.closes| ==> s.closes[i] != s.closes[j])
            && (HasOrder(s.w.orders, b) ==> st != Open)
            && (Rank(st) >= 2 ==> HasOrder(s.w.orders, b))
            && (HasOrder(s.w.orders, b) && OrderOf(s.w.orders, b).status == OrderSettled ==> Rank(st) >= 2)
            && (forall i, j :: 0 <= i < j < |s.w.orders| ==> s.w.orders[i].batchId != s.w.orders[j].batchId)
            && (st == Settled ==> b in s.fills)
  {
    Reachable(cfg, acts);
    var s := Run(cfg, START, acts);
    if HasOrder(s.w.orders, b) {
      assert s.w.orders[FindOrder(s.w.orders, b)].batchId == b;
    }
  }

  /** Whatever happens next, no batch moves back, no stored row changes and no close or fill is taken back. */
  lemma NothingMovesBack(cfg: Config, acts: seq<Action>, more: seq<Action>)
    ensures Grows(Run(cfg, START, acts), Run(cfg, Run(cfg, START, acts), more))
  {
    Reachable(cfg, acts);
    RunKeeps(cfg, Run(cfg, START, acts), more);
  }

  /** Rows are unique per transaction, byTx is exactly their set, and every row is in a batch of its pair. */
  lemma RowsAreUnique(cfg: Config, acts: seq<Action>)
    ensures var w := Run(cfg, START, acts).w;
            && (forall i, j :: 0 <= i < j < |w.members| ==> w.members[i].txId != w.members[j].txId)
            && w.byTx == (set m | m in w.members :: m.txId)
            && (forall i :: 0 <= i < |w.members| ==>
                  w.members[i].batchId < |w.batches|
                  && w.batches[w.members[i].batchId].assetPair
                     == Pairs.Join(w.members[i].asset, w.members[i].fiatCurrency))
  {
    Reachable(cfg, acts);
    var w := Run(cfg, START, acts).w;
    forall t
      ensures t in w.byTx <==> t in (set m | m in w.members :: m.txId)
    {
      if t in w.byTx {
        var i :| 0 <= i < |w.members| && w.members[i].txId == t;
        assert w.members[i] in w.members;
      }
    }
  }

  // --- Orders against accepted transactions ---

  function Notionals(members: seq<Membership>): seq<Decimal> {
    seq(|members|, i requires 0 <= i < |members| => members[i].notionalUSD)
  }

  function OrderNotionals(orders: seq<AggregateOrder>): seq<Decimal> {
    seq(|orders|, i requires 0 <= i < |orders| => orders[i].notionalUSD)
  }

  function SumsFor(members: seq<Membership>, orders: seq<AggregateOrder>): seq<Decimal> {
    seq(|orders|, i requires 0 <= i < |orders| => SumFor(members, orders[i].batchId))
  }

  ghost predicate NonNegative(members: seq<Membership>) {
    forall i :: 0 <= i < |members| ==> members[i].notionalUSD >= 0.0
  }

  lemma {:induction false} PrefixBelowWhole(members: seq<Membership>, k: nat, b: nat)
    requires k <= |members| && NonNegative(members)
    ensures SumFor(members[..k], b) <= SumFor(members, b)
  {
    if k == |members| {
      assert members[..k] == members;
    } else {
      var rest := members[..|members| - 1];
      PrefixBelowWhole(rest, k, b);
      assert rest[..k] == members[..k];
    }
  }

  /** Batches of distinct orders share out the rows. */
  lemma {:induction false} OrdersShareRows(members: seq<Membership>, orders: seq<AggregateOrder>)
    requires NonNegative(members)
    requires forall i, j :: 0 <= i < j < |orders| ==> orders[i].batchId != orders[j].batchId
    ensures Sum(SumsFor(members, orders)) <= Sum(Notionals(members))
  {
    if members == [] {
      AllZero(SumsFor(members, orders));
    } else {
      var rest, m := members[..|members| - 1], members[|members| - 1];
      OrdersShareRows(rest, orders);
      assert Notionals(members)[..|rest|] == Notionals(rest);
      if i :| 0 <= i < |orders| && orders[i].batchId == m.batchId {
        var x := SumFor(rest, m.batchId) + m.notionalUSD;
        assert SumsFor(members, orders) == SumsFor(rest, orders)[i := x];
        SumUpdate(SumsFor(rest, orders), i, x);
      } else {
        assert SumsFor(members, orders) == SumsFor(rest, orders);
      }
    }
  }

  lemma {:induction false} AllZero(xs: seq<Decimal>)
    requires forall i :: 0 <= i < |xs| ==> xs[i] == 0.0
    ensures Sum(xs) == 0.0
  {
    if xs != [] {
      AllZero(xs[..|xs| - 1]);
    }
  }

  /** Under any interleaving the orders never total more than the accepted transactions. */
  lemma OrdersNeverExceedAccepted(cfg: Config, acts: seq<Action>)
    requires NonNegative(Run(cfg, START, acts).w.members)
    ensures var w := Run(cfg, START, acts).w; Sum(OrderNotionals(w.orders)) <= Sum(Notionals(w.members))
  {
    Reachable(cfg, acts);
    var w := Run(cfg, START, acts).w;
    forall i | 0 <= i < |w.orders|
      ensures OrderNotionals(w.orders)[i] <= SumsFor(w.members, w.orders)[i]
    {
      var k :| 0 <= k <= |w.members| && SumFor(w.members[..k], w.orders[i].batchId) == w.orders[i].notionalUSD;
      PrefixBelowWhole(w.members, k, w.orders[i].batchId);
    }
    SumPointwise(OrderNotionals(w.orders), SumsFor(w.members, w.orders));
    OrdersShareRows(w.members, w.orders);
  }

  /** Every stored or in-flight notional is the batch's sum at some moment of the past, whoever wrote it last. */
  lemma NotionalsArePrefixSums(cfg: Config, acts: seq<Action>)
    ensures var w := Run(cfg, START, acts).w;
            && (forall b :: 0 <= b < |w.batches| ==> PrefixSum(w.members, b, w.batches[b].notionalUSD))
            && (forall i :: 0 <= i < |w.orders| ==> PrefixSum(w.members, w.orders[i].batchId, w.orders[i].notionalUSD))
            && (forall x :: x in Run(cfg, START, acts).threads ==>
                  var t := Run(cfg, START, acts).threads[x];
                  t.HSet? || t.CUpdate? ==> PrefixSum(w.members, t.b, t.sum))
  {
    Reachable(cfg, acts);
  }

  // --- Claims and submissions with the in-memory idempotency store ---

  /** No key is lost or forged and every claim is answered. */
  ghost predicate Reliable(acts: seq<Action>) {
    forall i :: 0 <= i < |acts| ==>
      && !acts[i].Tamper?
      && (acts[i].Advance? ==> !acts[i].c.down && !acts[i].c.env.aggDown && !acts[i].c.env.hedgeDown)
  }

  ghost predicate ClaimsOk(s: Sys) {
    && Spaced(s.claims) && Covered(s.claims, s.w.seen)
    && (forall i :: 0 <= i < |s.claims| ==> s.claims[i].ttl == DAY)
  }

  predicate Submitting(t: Thread) {
    t.SSubmit? || t.GSubmit?
  }

  function SubmissionKey(t: Thread): string
    requires Submitting(t)
  {
    if t.SSubmit? then AggKey(t.copy.id) else HedgeKey(t.copy.id)
  }

  ghost predicate Owned(claims: seq<Claim>, claim: Option<nat>, key: string) {
    claim.Some? && claim.value < |claims| && claims[claim.value].key == key
  }

  /** Requests and threads about to make one own pairwise different winning claims of their own key. */
  ghost predicate OwnOk(s: Sys) {
    && (forall x :: x in s.threads && Submitting(s.threads[x]) ==>
          Owned(s.claims, s.threads[x].claim, SubmissionKey(s.threads[x])))
    && (forall x, y ::
          x in s.threads && y in s.threads && x != y && Submitting(s.threads[x]) && Submitting(s.threads[y]) ==>
            s.threads[x].claim != s.threads[y].claim)
    && (forall i :: 0 <= i < |s.requests| ==> Owned(s.claims, s.requests[i].claim, s.requests[i].key))
    && (forall i, j :: 0 <= i < j < |s.requests| ==> s.requests[i].claim != s.requests[j].claim)
    && (forall i, x :: 0 <= i < |s.requests| && x in s.threads && Submitting(s.threads[x]) ==>
          s.requests[i].claim != s.threads[x].claim)
  }

  /** How one move treats claims and requests. */
  ghost predicate MoveClaims(s: Sys, t: Thread, s': Sys, t': Thread) {
    && ClaimsOk(s') && s.claims <= s'.claims
    && (Submitting(t') ==>
          Owned(s'.claims, t'.claim, SubmissionKey(t')) && t'.claim == Some(|s.claims|))
    && (s'.requests == s.requests
        || (Submitting(t) && s'.requests == s.requests + [Request(SubmissionKey(t), t.claim)]))
  }

  lemma HandleClaims(s: Sys, t: Thread, now: Time, c: Choice)
    requires ClaimsOk(s)
    requires Handling(t)
    ensures var (s', t') := Handle(s, t, now, c); MoveClaims(s, t, s', t')
  {
    if t.HClaim? {
      ClaimsStaySpaced(s.claims, s.w.seen, TxKey(t.ev.txId), DAY, now);
    }
  }

  lemma SubmitClaims(cfg: Config, s: Sys, t: Thread, now: Time, c: Choice)
    requires ClaimsOk(s) && !c.env.aggDown
    requires Placing(t)
    ensures var (s', t') := Submit(cfg, s, t, now, c); MoveClaims(s, t, s', t')
  {
    if t.SClaim? {
      ClaimsStaySpaced(s.claims, s.w.seen, AggKey(t.copy.id), DAY, now);
    }
  }

  lemma SettleClaims(cfg: Config, s: Sys, t: Thread, now: Time, c: Choice)
    requires ClaimsOk(s) && !c.env.hedgeDown && Settling(t)
    ensures var (s', t') := Settle(cfg, s, t, now, c); MoveClaims(s, t, s', t')
  {
    hide Pairs.FiatOf, Pairs.CryptoOf, HedgeKey, AggKey;
    if t.GClaim? {
      ClaimsStaySpaced(s.claims, s.w.seen, HedgeKey(t.copy.id), DAY, now);
    }
  }

  lemma CloseClaims(cfg: Config, s: Sys, t: Thread, now: Time, c: Choice)
    requires ClaimsOk(s) && (t.Done? || Closing(t))
    ensures var (s', t') := Move(cfg, s, t, now, c); MoveClaims(s, t, s', t')
  {
    hide WithStatus, SumFor, Spaced;
  }

  lemma MoveKeepsClaims(cfg: Config, s: Sys, t: Thread, now: Time, c: Choice)
    requires ClaimsOk(s) && !c.down && !c.env.aggDown && !c.env.hedgeDown
    ensures var (s', t') := Move(cfg, s, t, now, c); MoveClaims(s, t, s', t')
  {
    hide Handle, Close, Submit, Settle, MoveClaims;
    if t.Done? || Closing(t) {
      CloseClaims(cfg, s, t, now, c);
    } else if Settling(t) {
      SettleClaims(cfg, s, t, now, c);
    } else if Placing(t) {
      SubmitClaims(cfg, s, t, now, c);
    } else {
      HandleClaims(s, t, now, c);
    }
  }

  lemma ThreadsStayOwned(s: Sys, m: Sys, tid: nat, t': Thread)
    requires OwnOk(s) && tid in s.threads && MoveClaims(s, s.threads[tid], m, t')
    ensures var threads := s.threads[tid := t'];
            && (forall x :: x in threads && Submitting(threads[x]) ==>
                  Owned(m.claims, threads[x].claim, SubmissionKey(threads[x])))
            && (forall x, y ::
                  x in threads && y in threads && x != y && Submitting(threads[x]) && Submitting(threads[y]) ==>
                    threads[x].claim != threads[y].claim)
  {
    hide ClaimsOk, AggKey, HedgeKey;
  }

  lemma RequestsStayOwned(s: Sys, m: Sys, tid: nat, t': Thread)
    requires OwnOk(s) && tid in s.threads && MoveClaims(s, s.threads[tid], m, t')
    ensures var threads := s.threads[tid := t'];
            && (forall i :: 0 <= i < |m.requests| ==> Owned(m.claims, m.requests[i].claim, m.requests[i].key))
            && (forall i, j :: 0 <= i < j < |m.requests| ==> m.requests[i].claim != m.requests[j].claim)
            && (forall i, x :: 0 <= i < |m.requests| && x in threads && Submitting(threads[x]) ==>
                  m.requests[i].claim != threads[x].claim)
  {
    hide ClaimsOk, AggKey, HedgeKey;
    assert forall i :: 0 <= i < |s.requests| ==> m.requests[i] == s.requests[i];
  }

  lemma OwnershipMoves(s: Sys, m: Sys, s': Sys, tid: nat, t': Thread)
    requires OwnOk(s) && tid in s.threads && MoveClaims(s, s.threads[tid], m, t')
    requires s' == m.(threads := s.threads[tid := t'])
    ensures OwnOk(s')
  {
    ThreadsStayOwned(s, m, tid, t');
    RequestsStayOwned(s, m, tid, t');
    hide ClaimsOk, MoveClaims, Owned, SubmissionKey;
  }

  lemma StepKeepsClaims(cfg: Config, s: Sys, a: Action)
    requires ClaimsOk(s) && OwnOk(s) && Reliable([a])
    ensures ClaimsOk(Step(cfg, s, a)) && OwnOk(Step(cfg, s, a))
  {
    hide Move;
    assert [a][0] == a;
    if a.Advance? && a.tid in s.threads {
      var m := Move(cfg, s, s.threads[a.tid], a.now, a.c);
      MoveKeepsClaims(cfg, s, s.threads[a.tid], a.now, a.c);
      MoveLeavesThreads(cfg, s, s.threads[a.tid], a.now, a.c);
      OwnershipMoves(s, m.0, m.0.(threads := s.threads[a.tid := m.1]), a.tid, m.1);
    }
  }

  lemma {:induction false} RunKeepsClaims(cfg: Config, s: Sys, acts: seq<Action>)
    requires ClaimsOk(s) && OwnOk(s) && Reliable(acts)
    ensures ClaimsOk(Run(cfg, s, acts)) && OwnOk(Run(cfg, s, acts))
    decreases |acts|
  {
    if acts != [] {
      StepKeepsClaims(cfg, s, acts[0]);
      RunKeepsClaims(cfg, Step(cfg, s, acts[0]), acts[1..]);
    }
  }

  /** Each request consumes its own winning claim, so two requests under one key were claimed a day apart. */
  lemma SubmissionsAreSpaced(cfg: Config, acts: seq<Action>, i: nat, j: nat)
    requires Reliable(acts)
    requires var r := Run(cfg, START, acts).requests; i < |r| && j < |r| && i != j && r[i].key == r[j].key
    ensures var s := Run(cfg, START, acts);
            var x, y := s.requests[i].claim, s.requests[j].claim;
            && x.Some? && y.Some? && x.value < |s.claims| && y.value < |s.claims| && x != y
            && s.claims[x.value].key == s.claims[y.value].key == s.requests[i].key
            && (s.claims[x.value].at - s.claims[y.value].at >= DAY
                || s.claims[y.value].at - s.claims[x.value].at >= DAY)
  {
    RunKeepsClaims(cfg, START, acts);
  }
}
