/** What every interleaving of the threads keeps, with an idempotency store that may answer anything. */
module Interleaving {
  import opened Base
  import opened Records
  import opened Configuration
  import opened Memstore
  import opened Idempotency
  import opened Pipeline
  import opened Threads
  import Pairs

  // --- Invariants ---

  /** The value is the batch's notional over some prefix of the membership rows. */
  ghost predicate PrefixSum(members: seq<Membership>, b: nat, v: Decimal) {
    exists k :: 0 <= k <= |members| && SumFor(members[..k], b) == v
  }

  ghost predicate NotionalsOk(w: World) {
    forall b :: 0 <= b < |w.batches| ==> PrefixSum(w.members, b, w.batches[b].notionalUSD)
  }

  ghost predicate MembersOk(w: World) {
    && (forall i, j :: 0 <= i < j < |w.members| ==> w.members[i].txId != w.members[j].txId)
    && (forall i :: 0 <= i < |w.members| ==> w.members[i].txId in w.byTx)
    && (forall t :: t in w.byTx ==> exists i :: 0 <= i < |w.members| && w.members[i].txId == t)
    && (forall i :: 0 <= i < |w.members| ==>
          w.members[i].batchId < |w.batches|
          && w.batches[w.members[i].batchId].assetPair == Pairs.Join(w.members[i].asset, w.members[i].fiatCurrency))
  }

  ghost predicate OrdersOk(w: World) {
    && (forall i, j :: 0 <= i < j < |w.orders| ==> w.orders[i].batchId != w.orders[j].batchId)
    && (forall i :: 0 <= i < |w.orders| ==>
          && w.orders[i].batchId < |w.batches|
          && w.batches[w.orders[i].batchId].status != Open
          && (w.orders[i].status == OrderSettled ==> Rank(w.batches[w.orders[i].batchId].status) >= 2)
          && PrefixSum(w.members, w.orders[i].batchId, w.orders[i].notionalUSD))
    && (forall b: nat :: b < |w.batches| && Rank(w.batches[b].status) >= 2 ==> HasOrder(w.orders, b))
  }

  /** A batch is announced closed once, when it leaves OPEN; a settled batch has a recorded fill. */
  ghost predicate HistoryOk(s: Sys) {
    && (forall i, j :: 0 <= i < j < |s.closes| ==> s.closes[i] != s.closes[j])
    && (forall b: nat :: b in s.closes <==> b < |s.w.batches| && s.w.batches[b].status != Open)
    && (forall b: nat :: b < |s.w.batches| && s.w.batches[b].status == Settled ==> b in s.fills)
  }

  ghost predicate AtLeast(w: World, b: nat, rank: nat) {
    b < |w.batches| && Rank(w.batches[b].status) >= rank
  }

  ghost predicate JoinsPair(w: World, b: nat, ev: TxEvent) {
    b < |w.batches| && w.batches[b].assetPair == PairOf(ev)
  }

  /** What a thread knows at its program point, whatever the others did since. */
  ghost predicate ThreadOk(s: Sys, t: Thread) {
    match t
    case HList(ev, b) => JoinsPair(s.w, b, ev)
    case HAdd(ev, b, _) => JoinsPair(s.w, b, ev)
    case HSet(b, sum) => PrefixSum(s.w.members, b, sum)
    case CSum(b) => b < |s.w.batches|
    case CUpdate(b, sum) => b < |s.w.batches| && PrefixSum(s.w.members, b, sum)
    case CAnnounce(copy) => AtLeast(s.w, copy.id, 1)
    case SCreate(copy) => AtLeast(s.w, copy.id, 1) && PrefixSum(s.w.members, copy.id, copy.notionalUSD)
    case SCheck(copy, _, _) => AtLeast(s.w, copy.id, 1) && HasOrder(s.w.orders, copy.id)
    case SExec(copy) => AtLeast(s.w, copy.id, 1) && HasOrder(s.w.orders, copy.id)
    case SClaim(copy) => AtLeast(s.w, copy.id, 2)
    case SSubmit(copy, _) => AtLeast(s.w, copy.id, 2)
    case SFill(copy, _) => AtLeast(s.w, copy.id, 2)
    case SFloat(copy) => AtLeast(s.w, copy.id, 2) && copy.id in s.fills
    case SAdjust(copy) => AtLeast(s.w, copy.id, 2) && copy.id in s.fills
    case GClaim(copy) => AtLeast(s.w, copy.id, 2) && copy.id in s.fills
    case GSubmit(copy, _) => AtLeast(s.w, copy.id, 2) && copy.id in s.fills
    case GSettle(copy, _) => AtLeast(s.w, copy.id, 2) && copy.id in s.fills
    case SSettle(copy) => AtLeast(s.w, copy.id, 2) && copy.id in s.fills
    case SAnnounce(copy) => AtLeast(s.w, copy.id, 2) && copy.id in s.fills
    case _ => true
  }

  ghost predicate TablesOk(s: Sys) {
    BatchesOk(s.w) && NotionalsOk(s.w) && MembersOk(s.w) && OrdersOk(s.w) && HistoryOk(s)
  }

  ghost predicate Inv(s: Sys) {
    TablesOk(s) && forall tid :: tid in s.threads ==> ThreadOk(s, s.threads[tid])
  }

  /** Rows are only appended, batches only move forward, orders and fills stay. */
  ghost predicate Grows(s: Sys, s': Sys) {
    && s.w.members <= s'.w.members
    && |s.w.batches| <= |s'.w.batches|
    && (forall b :: 0 <= b < |s.w.batches| ==>
          && s'.w.batches[b].id == s.w.batches[b].id
          && s'.w.batches[b].assetPair == s.w.batches[b].assetPair
          && Rank(s'.w.batches[b].status) >= Rank(s.w.batches[b].status))
    && |s.w.orders| <= |s'.w.orders|
    && (forall i :: 0 <= i < |s.w.orders| ==>
          s'.w.orders[i].batchId == s.w.orders[i].batchId && s'.w.orders[i].notionalUSD == s.w.orders[i].notionalUSD)
    && s.fills <= s'.fills && s.closes <= s'.closes
  }

  lemma PrefixSumGrows(members: seq<Membership>, members': seq<Membership>, b: nat, v: Decimal)
    requires PrefixSum(members, b, v) && members <= members'
    ensures PrefixSum(members', b, v)
  {
    var k :| 0 <= k <= |members| && SumFor(members[..k], b) == v;
    assert members'[..k] == members[..k];
  }

  lemma WholeSum(members: seq<Membership>, b: nat)
    ensures PrefixSum(members, b, SumFor(members, b)) && PrefixSum(members, b, 0.0)
  {
    assert members[..|members|] == members;
    assert SumFor(members[..0], b) == 0.0;
  }

  lemma GrowsTrans(a: Sys, b: Sys, c: Sys)
    requires Grows(a, b) && Grows(b, c)
    ensures Grows(a, c)
  {
  }

  lemma HasOrderGrows(s: Sys, s': Sys, b: nat)
    requires Grows(s, s') && HasOrder(s.w.orders, b)
    ensures HasOrder(s'.w.orders, b)
  {
    FindOrderStable(s.w.orders, s'.w.orders, b, 0);
  }

  /** Other threads' knowledge survives every growth. */
  lemma ThreadOkGrows(s: Sys, s': Sys, t: Thread)
    requires ThreadOk(s, t) && Grows(s, s')
    ensures ThreadOk(s', t)
  {
    match t {
      case HSet(b, sum) => PrefixSumGrows(s.w.members, s'.w.members, b, sum);
      case CUpdate(b, sum) => PrefixSumGrows(s.w.members, s'.w.members, b, sum);
      case SCreate(copy) => PrefixSumGrows(s.w.members, s'.w.members, copy.id, copy.notionalUSD);
      case SCheck(copy, _, _) => HasOrderGrows(s, s', copy.id);
      case SExec(copy) => HasOrderGrows(s, s', copy.id);
      case _ =>
    }
  }

  // --- Single store calls ---

  /** Nothing in the four tables or the histories changed. */
  ghost predicate SameTables(s: Sys, s': Sys) {
    && s'.w.batches == s.w.batches && s'.w.members == s.w.members && s'.w.byTx == s.w.byTx && s'.w.orders == s.w.orders
    && s'.closes == s.closes && s'.fills == s.fills
  }

  lemma SameTablesKeep(s: Sys, s': Sys)
    requires TablesOk(s) && SameTables(s, s')
    ensures TablesOk(s') && Grows(s, s')
  {
  }

  /** A change of the batch table alone. */
  lemma BatchChangeKeeps(s: Sys, s': Sys)
    requires MembersOk(s.w) && OrdersOk(s.w) && Grows(s, s')
    requires s'.w.members == s.w.members && s'.w.byTx == s.w.byTx && s'.w.orders == s.w.orders
    requires forall b: nat :: b < |s'.w.batches| && Rank(s'.w.batches[b].status) >= 2 ==> HasOrder(s.w.orders, b)
    ensures MembersOk(s'.w) && OrdersOk(s'.w)
  {
    BatchChangeKeepsMembers(s, s');
    BatchChangeKeepsOrders(s, s');
  }

  lemma BatchChangeKeepsMembers(s: Sys, s': Sys)
    requires MembersOk(s.w) && Grows(s, s') && s'.w.members == s.w.members && s'.w.byTx == s.w.byTx
    ensures MembersOk(s'.w)
  {
  }

  lemma BatchChangeKeepsOrders(s: Sys, s': Sys)
    requires OrdersOk(s.w) && Grows(s, s') && s'.w.members == s.w.members && s'.w.orders == s.w.orders
    requires forall b: nat :: b < |s'.w.batches| && Rank(s'.w.batches[b].status) >= 2 ==> HasOrder(s.w.orders, b)
    ensures OrdersOk(s'.w)
  {
  }

  lemma OpenKeepsBatches(w: World, w': World, pair: string, now: Time)
    requires BatchesOk(w) && NotionalsOk(w) && w'.members == w.members
    requires w'.batches == WithOpenBatch(w.batches, pair, now)
    ensures BatchesOk(w') && NotionalsOk(w')
    ensures var b := FindOpen(w.batches, pair); b < |w'.batches| && w'.batches[b].assetPair == pair
    ensures |w.batches| <= |w'.batches| && w'.batches[..|w.batches|] == w.batches
    ensures forall i :: |w.batches| <= i < |w'.batches| ==> w'.batches[i].status == Open
  {
    WholeSum(w.members, |w.batches|);
  }

  lemma OpenKeeps(s: Sys, s': Sys, ev: TxEvent, now: Time)
    requires TablesOk(s)
    requires s' == s.(w := s.w.(batches := WithOpenBatch(s.w.batches, PairOf(ev), now)))
    ensures TablesOk(s') && Grows(s, s') && JoinsPair(s'.w, FindOpen(s.w.batches, PairOf(ev)), ev)
  {
    OpenKeepsBatches(s.w, s'.w, PairOf(ev), now);
    assert forall i :: 0 <= i < |s.w.batches| ==> s'.w.batches[i] == s'.w.batches[..|s.w.batches|][i];
    BatchChangeKeeps(s, s');
  }

  lemma AddKeepsIndex(w: World, w': World, m: Membership)
    requires MembersOk(w) && m.txId !in w.byTx
    requires w'.members == w.members + [m] && w'.byTx == w.byTx + {m.txId}
    ensures forall i :: 0 <= i < |w'.members| ==> w'.members[i].txId in w'.byTx
    ensures forall t :: t in w'.byTx ==> exists i :: 0 <= i < |w'.members| && w'.members[i].txId == t
  {
    forall t | t in w'.byTx
      ensures exists i :: 0 <= i < |w'.members| && w'.members[i].txId == t
    {
      if t in w.byTx {
        var i :| 0 <= i < |w.members| && w.members[i].txId == t;
        assert w'.members[i].txId == t;
      } else {
        assert w'.members[|w.members|].txId == t;
      }
    }
  }

  lemma AddKeepsMembers(w: World, w': World, ev: TxEvent, b: nat)
    requires MembersOk(w) && JoinsPair(w, b, ev) && ev.txId !in w.byTx
    requires w' == w.(members := w.members + [MembershipFor(ev, b)], byTx := w.byTx + {ev.txId})
    ensures MembersOk(w')
  {
    hide Pairs.Join;
    AddKeepsIndex(w, w', MembershipFor(ev, b));
    assert PairOf(ev) == Pairs.Join(ev.asset, ev.fiatCurrency);
  }

  lemma AddKeepsSums(w: World, w': World)
    requires NotionalsOk(w) && OrdersOk(w) && w.members <= w'.members
    requires w' == w.(members := w'.members, byTx := w'.byTx)
    ensures NotionalsOk(w') && OrdersOk(w')
  {
    forall i | 0 <= i < |w.batches|
      ensures PrefixSum(w'.members, i, w.batches[i].notionalUSD)
    {
      PrefixSumGrows(w.members, w'.members, i, w.batches[i].notionalUSD);
    }
    forall i | 0 <= i < |w.orders|
      ensures PrefixSum(w'.members, w.orders[i].batchId, w.orders[i].notionalUSD)
    {
      PrefixSumGrows(w.members, w'.members, w.orders[i].batchId, w.orders[i].notionalUSD);
    }
  }

  lemma AddKeeps(s: Sys, s': Sys, ev: TxEvent, b: nat)
    requires TablesOk(s) && JoinsPair(s.w, b, ev) && ev.txId !in s.w.byTx
    requires s' == s.(w := s.w.(members := s.w.members + [MembershipFor(ev, b)], byTx := s.w.byTx + {ev.txId}))
    ensures TablesOk(s') && Grows(s, s')
  {
    AddKeepsMembers(s.w, s'.w, ev, b);
    AddKeepsSums(s.w, s'.w);
  }

  lemma SetNotionalKeeps(s: Sys, s': Sys, b: nat, sum: Decimal)
    requires TablesOk(s) && PrefixSum(s.w.members, b, sum)
    requires s' == s.(w := s.w.(batches := WithNotional(s.w.batches, b, sum)))
    ensures TablesOk(s') && Grows(s, s')
  {
    SetNotionalBatches(s.w, s'.w, b, sum);
    BatchChangeKeeps(s, s');
  }

  lemma SetNotionalBatches(w: World, w': World, b: nat, sum: Decimal)
    requires BatchesOk(w) && NotionalsOk(w) && PrefixSum(w.members, b, sum)
    requires w'.members == w.members && w'.batches == WithNotional(w.batches, b, sum)
    ensures BatchesOk(w') && NotionalsOk(w')
    ensures |w'.batches| == |w.batches|
    ensures forall i :: 0 <= i < |w.batches| ==>
      w'.batches[i] == w.batches[i].(notionalUSD := w'.batches[i].notionalUSD)
  {
  }

  lemma CloseKeepsHistory(s: Sys, s': Sys, b: nat)
    requires HistoryOk(s) && b < |s.w.batches| && s.w.batches[b].status == Open
    requires s'.closes == s.closes + [b] && s'.fills == s.fills && |s'.w.batches| == |s.w.batches|
    requires s'.w.batches[b].status == Closed
    requires forall i :: 0 <= i < |s.w.batches| && i != b ==> s'.w.batches[i] == s.w.batches[i]
    ensures HistoryOk(s')
  {
    assert b !in s.closes;
    forall x: nat
      ensures x in s'.closes <==> x < |s'.w.batches| && s'.w.batches[x].status != Open
    {
      assert x in s'.closes <==> x in s.closes || x == b;
    }
  }

  lemma CloseKeeps(s: Sys, s': Sys, b: nat, sum: Decimal, now: Time)
    requires TablesOk(s) && b < |s.w.batches| && s.w.batches[b].status == Open && PrefixSum(s.w.members, b, sum)
    requires s' == s.(w := s.w.(batches := WithStatus(s.w.batches, b, Open, Closed, Some(sum), now).0),
                      closes := s.closes + [b])
    ensures TablesOk(s') && Grows(s, s')
  {
    CloseRow(s.w.batches, s'.w.batches, b, sum, now);
    hide WithStatus, BatchesOk, NotionalsOk, MembersOk, OrdersOk, HistoryOk, Grows;
    CloseKeepsHistory(s, s', b);
    OneRowChanges(s, s', b);
    OrderedElsewhere(s, b);
    BatchChangeKeeps(s, s');
  }

  lemma CloseRow(rows: seq<Batch>, rows': seq<Batch>, b: nat, sum: Decimal, now: Time)
    requires b < |rows| && rows[b].status == Open && rows' == WithStatus(rows, b, Open, Closed, Some(sum), now).0
    ensures |rows'| == |rows| && forall i :: 0 <= i < |rows| && i != b ==> rows'[i] == rows[i]
    ensures rows'[b] == rows[b].(status := Closed, notionalUSD := sum, closedAt := rows'[b].closedAt)
  {
  }

  lemma SameButOrders(s: Sys, s': Sys)
    requires TablesOk(s) && s' == s.(w := s.w.(orders := s'.w.orders))
    ensures BatchesOk(s'.w) && NotionalsOk(s'.w) && MembersOk(s'.w) && HistoryOk(s')
  {
  }

  lemma CreateKeeps(s: Sys, s': Sys, copy: Batch)
    requires TablesOk(s) && AtLeast(s.w, copy.id, 1) && PrefixSum(s.w.members, copy.id, copy.notionalUSD)
    requires s' == s.(w := s.w.(orders := WithOrder(s.w.orders, copy.id, copy.assetPair, copy.notionalUSD)))
    ensures TablesOk(s') && Grows(s, s') && HasOrder(s'.w.orders, copy.id)
  {
    hide MembersOk, BatchesOk, NotionalsOk, HistoryOk, OrdersOk;
    SameButOrders(s, s');
    CreateKeepsOrders(s, s', copy);
  }

  lemma CreateKeepsOrders(s: Sys, s': Sys, copy: Batch)
    requires OrdersOk(s.w) && AtLeast(s.w, copy.id, 1) && PrefixSum(s.w.members, copy.id, copy.notionalUSD)
    requires s' == s.(w := s.w.(orders := WithOrder(s.w.orders, copy.id, copy.assetPair, copy.notionalUSD)))
    ensures OrdersOk(s'.w) && HasOrder(s'.w.orders, copy.id)
  {
    if !HasOrder(s.w.orders, copy.id) {
      assert s'.w.orders[|s.w.orders|].batchId == copy.id;
      forall b: nat | b < |s.w.batches| && Rank(s.w.batches[b].status) >= 2
        ensures HasOrder(s'.w.orders, b)
      {
        HasOrderGrows(s, s', b);
      }
    }
  }

  /** CLOSED to EXECUTING, or EXECUTING to SETTLED once filled; a batch elsewhere stays. */
  lemma AdvanceKeeps(s: Sys, s': Sys, b: nat, from: BatchStatus, to: BatchStatus, now: Time)
    requires TablesOk(s) && b < |s.w.batches|
    requires (from == Closed && to == Executing) || (from == Executing && to == Settled && b in s.fills)
    requires HasOrder(s.w.orders, b)
    requires s' == s.(w := s.w.(batches := WithStatus(s.w.batches, b, from, to, None, now).0))
    ensures TablesOk(s') && Grows(s, s')
    ensures to == Executing && Rank(s.w.batches[b].status) >= 1 ==> Rank(s'.w.batches[b].status) >= 2
  {
    hide WithStatus, MembersOk, BatchesOk, NotionalsOk, HistoryOk, Grows;
    StatusStep(s.w.batches, s'.w.batches, b, from, to, now);
    AdvanceHistory(s, s', b, from, to);
    OneRowChanges(s, s', b);
    OrderedElsewhere(s, b);
    BatchChangeKeeps(s, s');
  }

  /** One batch row moved forward, keeping its identity, with a notional that some prefix of the rows adds up to. */
  lemma OneRowChanges(s: Sys, s': Sys, b: nat)
    requires BatchesOk(s.w) && NotionalsOk(s.w) && b < |s.w.batches| == |s'.w.batches|
    requires forall i :: 0 <= i < |s.w.batches| && i != b ==> s'.w.batches[i] == s.w.batches[i]
    requires s'.w.batches[b].id == s.w.batches[b].id && s'.w.batches[b].assetPair == s.w.batches[b].assetPair
    requires Rank(s'.w.batches[b].status) >= Rank(s.w.batches[b].status)
    requires s'.w.members == s.w.members && s'.w.orders == s.w.orders && s.closes <= s'.closes && s'.fills == s.fills
    requires || PrefixSum(s.w.members, b, s'.w.batches[b].notionalUSD)
             || s'.w.batches[b].notionalUSD == s.w.batches[b].notionalUSD
    ensures BatchesOk(s'.w) && NotionalsOk(s'.w) && Grows(s, s')
  {
    hide PrefixSum;
  }

  lemma OrderedElsewhere(s: Sys, b: nat)
    requires OrdersOk(s.w)
    ensures forall x: nat :: x < |s.w.batches| && x != b && Rank(s.w.batches[x].status) >= 2 ==> HasOrder(s.w.orders, x)
  {
  }

  lemma StatusStep(rows: seq<Batch>, rows': seq<Batch>, b: nat, from: BatchStatus, to: BatchStatus, now: Time)
    requires b < |rows| && CanTransitionTo(from, to) && rows' == WithStatus(rows, b, from, to, None, now).0
    ensures |rows'| == |rows| && forall i :: 0 <= i < |rows| && i != b ==> rows'[i] == rows[i]
    ensures rows'[b] == rows[b].(status := rows'[b].status, closedAt := rows'[b].closedAt)
    ensures rows'[b].status == if rows[b].status == from then to else rows[b].status
  {
  }

  lemma AdvanceHistory(s: Sys, s': Sys, b: nat, from: BatchStatus, to: BatchStatus)
    requires HistoryOk(s) && b < |s.w.batches| == |s'.w.batches| && s'.closes == s.closes && s'.fills == s.fills
    requires from != Open && to != Open && (to == Settled ==> b in s.fills)
    requires forall i :: 0 <= i < |s.w.batches| && i != b ==> s'.w.batches[i] == s.w.batches[i]
    requires s'.w.batches[b].status == if s.w.batches[b].status == from then to else s.w.batches[b].status
    ensures HistoryOk(s')
  {
  }

  /** Rewriting the order of a batch whose row keeps its batch and notional. */
  lemma RewriteOrderKeeps(s: Sys, s': Sys, b: nat)
    requires TablesOk(s) && AtLeast(s.w, b, 2)
    requires s'.w.batches == s.w.batches && s'.w.members == s.w.members && s'.w.byTx == s.w.byTx
    requires s'.closes == s.closes
    requires s.fills <= s'.fills && |s'.w.orders| == |s.w.orders|
    requires forall i :: 0 <= i < |s.w.orders| ==>
      && s'.w.orders[i].batchId == s.w.orders[i].batchId && s'.w.orders[i].notionalUSD == s.w.orders[i].notionalUSD
      && (s'.w.orders[i].status == s.w.orders[i].status || s.w.orders[i].batchId == b)
    ensures TablesOk(s') && Grows(s, s')
  {
    assert Grows(s, s');
    forall x: nat | x < |s.w.batches| && Rank(s.w.batches[x].status) >= 2
      ensures HasOrder(s'.w.orders, x)
    {
      HasOrderGrows(s, s', x);
    }
  }

  // --- Moves ---

  lemma HandleKeeps(s: Sys, t: Thread, now: Time, c: Choice)
    requires TablesOk(s) && ThreadOk(s, t)
    requires Handling(t)
    ensures var (s', t') := Handle(s, t, now, c); TablesOk(s') && Grows(s, s') && ThreadOk(s', t')
  {
    hide TablesOk, Grows, TxKey, Emitted, Held, WithNotional, WithOpenBatch, SumFor, MembersOf, MembershipFor;
    var (s', t') := Handle(s, t, now, c);
    match t {
      case HOpen(ev) => OpenKeeps(s, s', ev, now);
      case HAdd(ev, b, _) =>
        if ev.txId in s.w.byTx {
          SameTablesKeep(s, s');
        } else {
          AddKeeps(s, s', ev, b);
        }
      case HSum(b) =>
        SameTablesKeep(s, s');
        WholeSum(s.w.members, b);
      case HSet(b, sum) => SetNotionalKeeps(s, s', b, sum);
      case _ => QuietHandleKeeps(s, t, now, c);
    }
  }

  lemma QuietHandleKeeps(s: Sys, t: Thread, now: Time, c: Choice)
    requires TablesOk(s) && ThreadOk(s, t) && (t.HClaim? || t.HExists? || t.HList? || t.HAnnounce?)
    ensures var (s', t') := Handle(s, t, now, c); TablesOk(s') && Grows(s, s') && ThreadOk(s', t')
  {
    hide TablesOk, Grows, TxKey, Held, MembersOf, Ledger.Key;
    SameTablesKeep(s, Handle(s, t, now, c).0);
  }

  lemma CloseMoveKeeps(s: Sys, t: Thread, now: Time)
    requires TablesOk(s) && ThreadOk(s, t) && Closing(t)
    ensures var (s', t') := Close(s, t, now); TablesOk(s') && Grows(s, s') && ThreadOk(s', t')
  {
    hide NotionalsOk, MembersOk, OrdersOk, HistoryOk, Grows, WithStatus, SumFor, Emitted;
    if t.CUpdate? {
      UpdateMoveKeeps(s, t.b, t.sum, now);
      return;
    }
    CloseTables(s, t, now);
    var (s', t') := Close(s, t, now);
    match t {
      case CSum(b) =>
        SameTablesKeep(s, s');
        WholeSum(s.w.members, b);
      case _ => SameTablesKeep(s, s');
    }
  }

  lemma CloseTables(s: Sys, t: Thread, now: Time)
    requires Closing(t) && !t.CUpdate?
    ensures SameTables(s, Close(s, t, now).0)
  {
    hide Ledger.Key;
  }

  lemma UpdateMoveKeeps(s: Sys, b: nat, sum: Decimal, now: Time)
    requires TablesOk(s) && ThreadOk(s, CUpdate(b, sum))
    ensures var (s', t') := Close(s, CUpdate(b, sum), now); TablesOk(s') && Grows(s, s') && ThreadOk(s', t')
  {
    hide NotionalsOk, MembersOk, OrdersOk, HistoryOk, Grows;
    var s' := Close(s, CUpdate(b, sum), now).0;
    if s.w.batches[b].status == Open {
      CloseKeeps(s, s', b, sum, now);
      assert s.w.batches[b].id == b;
    } else {
      SameTablesKeep(s, s');
    }
  }

  lemma SubmitMoveKeeps(cfg: Config, s: Sys, t: Thread, now: Time, c: Choice)
    requires TablesOk(s) && ThreadOk(s, t)
    requires Placing(t)
    ensures var (s', t') := Submit(cfg, s, t, now, c); TablesOk(s') && Grows(s, s') && ThreadOk(s', t')
  {
    hide Submit, TablesOk, Grows;
    match t {
      case SGet(b) => GetMoveKeeps(cfg, s, b, now, c);
      case SCreate(copy) => CreateMoveKeeps(cfg, s, copy, now, c);
      case SExec(copy) => ExecMoveKeeps(cfg, s, copy, now, c);
      case SFill(copy, f) => FillMoveKeeps(cfg, s, copy, f, now, c);
      case _ => QuietSubmitKeeps(cfg, s, t, now, c);
    }
  }

  lemma GetMoveKeeps(cfg: Config, s: Sys, b: nat, now: Time, c: Choice)
    requires TablesOk(s)
    ensures var (s', t') := Submit(cfg, s, SGet(b), now, c); TablesOk(s') && Grows(s, s') && ThreadOk(s', t')
  {
    hide TablesOk, Grows;
    SameTablesKeep(s, s);
    GetMoveReads(cfg, s, b, now, c);
  }

  lemma GetMoveReads(cfg: Config, s: Sys, b: nat, now: Time, c: Choice)
    requires TablesOk(s)
    ensures var (s', t') := Submit(cfg, s, SGet(b), now, c); s' == s && ThreadOk(s, t')
  {
    hide MembersOk, OrdersOk, HistoryOk, PrefixSum;
    if b < |s.w.batches| {
      assert s.w.batches[b].id == b;
    }
  }

  lemma CreateMoveKeeps(cfg: Config, s: Sys, copy: Batch, now: Time, c: Choice)
    requires TablesOk(s) && ThreadOk(s, SCreate(copy))
    ensures var (s', t') := Submit(cfg, s, SCreate(copy), now, c); TablesOk(s') && Grows(s, s') && ThreadOk(s', t')
  {
    CreateKeeps(s, Submit(cfg, s, SCreate(copy), now, c).0, copy);
  }

  lemma ExecMoveKeeps(cfg: Config, s: Sys, copy: Batch, now: Time, c: Choice)
    requires TablesOk(s) && ThreadOk(s, SExec(copy))
    ensures var (s', t') := Submit(cfg, s, SExec(copy), now, c); TablesOk(s') && Grows(s, s') && ThreadOk(s', t')
  {
    AdvanceKeeps(s, Submit(cfg, s, SExec(copy), now, c).0, copy.id, Closed, Executing, now);
  }

  lemma QuietSubmitKeeps(cfg: Config, s: Sys, t: Thread, now: Time, c: Choice)
    requires TablesOk(s) && ThreadOk(s, t) && (t.SCheck? || t.SClaim? || t.SSubmit?)
    ensures var (s', t') := Submit(cfg, s, t, now, c); TablesOk(s') && Grows(s, s') && ThreadOk(s', t')
  {
    hide TablesOk, Grows, Submit, SameTables;
    QuietSubmitTables(cfg, s, t, now, c);
    SameTablesKeep(s, Submit(cfg, s, t, now, c).0);
    QuietSubmitThread(cfg, s, t, now, c);
  }

  lemma QuietSubmitTables(cfg: Config, s: Sys, t: Thread, now: Time, c: Choice)
    requires t.SCheck? || t.SClaim? || t.SSubmit?
    ensures SameTables(s, Submit(cfg, s, t, now, c).0)
  {
    hide AggKey, Held, HasOrder, OrderOf;
  }

  lemma QuietSubmitThread(cfg: Config, s: Sys, t: Thread, now: Time, c: Choice)
    requires ThreadOk(s, t) && (t.SCheck? || t.SClaim? || t.SSubmit?)
    ensures var (s', t') := Submit(cfg, s, t, now, c); ThreadOk(s', t')
  {
    hide AggKey, Held, HasOrder, OrderOf;
  }

  lemma FillMoveKeeps(cfg: Config, s: Sys, copy: Batch, f: Fill, now: Time, c: Choice)
    requires TablesOk(s) && AtLeast(s.w, copy.id, 2)
    ensures var (s', t') := Submit(cfg, s, SFill(copy, f), now, c); TablesOk(s') && Grows(s, s') && ThreadOk(s', t')
  {
    var s' := Submit(cfg, s, SFill(copy, f), now, c).0;
    if HasOrder(s.w.orders, copy.id) {
      RewriteOrderKeeps(s, s', copy.id);
    } else {
      SameTablesKeep(s, s');
    }
  }

  /** Between fill and settlement a thread stays with its batch. */
  lemma SettleMoveThread(cfg: Config, s: Sys, t: Thread, now: Time, c: Choice)
    requires Settling(t)
    ensures var t' := Settle(cfg, s, t, now, c).1; t'.Done? || (Settling(t') && t'.copy == t.copy)
  {
  }

  lemma SettlingKnows(s: Sys, t: Thread)
    requires Settling(t)
    ensures ThreadOk(s, t) <==> AtLeast(s.w, t.copy.id, 2) && t.copy.id in s.fills
  {
  }

  lemma SettleMoveTables(cfg: Config, s: Sys, t: Thread, now: Time, c: Choice)
    requires TablesOk(s) && Settling(t) && AtLeast(s.w, t.copy.id, 2) && t.copy.id in s.fills
    ensures var s' := Settle(cfg, s, t, now, c).0; TablesOk(s') && Grows(s, s')
  {
    var s' := Settle(cfg, s, t, now, c).0;
    if t.GSettle? {
      RewriteOrderKeeps(s, s', t.copy.id);
    } else if t.SSettle? {
      AdvanceKeeps(s, s', t.copy.id, Executing, Settled, now);
    } else {
      QuietSettle(cfg, s, t, now, c);
      SameTablesKeep(s, s');
    }
  }

  lemma QuietSettle(cfg: Config, s: Sys, t: Thread, now: Time, c: Choice)
    requires Settling(t) && !t.GSettle? && !t.SSettle?
    ensures SameTables(s, Settle(cfg, s, t, now, c).0)
  {
  }

  lemma SettleMoveKeeps(cfg: Config, s: Sys, t: Thread, now: Time, c: Choice)
    requires TablesOk(s) && ThreadOk(s, t) && Settling(t)
    ensures var (s', t') := Settle(cfg, s, t, now, c); TablesOk(s') && Grows(s, s') && ThreadOk(s', t')
  {
    var r := Settle(cfg, s, t, now, c);
    SettlingKnows(s, t);
    SettleMoveTables(cfg, s, t, now, c);
    SettleMoveThread(cfg, s, t, now, c);
    if !r.1.Done? {
      SettlingKnows(r.0, r.1);
    }
  }

  lemma MoveKeeps(cfg: Config, s: Sys, t: Thread, now: Time, c: Choice)
    requires TablesOk(s) && ThreadOk(s, t)
    ensures var (s', t') := Move(cfg, s, t, now, c); TablesOk(s') && Grows(s, s') && ThreadOk(s', t')
  {
    hide TablesOk, Grows, ThreadOk, Handle, Close, Submit, Settle;
    if t.Done? {
      SameTablesKeep(s, s);
    } else if Handling(t) {
      HandleKeeps(s, t, now, c);
    } else if Closing(t) {
      CloseMoveKeeps(s, t, now);
    } else if Placing(t) {
      SubmitMoveKeeps(cfg, s, t, now, c);
    } else {
      SettleMoveKeeps(cfg, s, t, now, c);
    }
  }

  lemma StepKeeps(cfg: Config, s: Sys, a: Action)
    requires Inv(s)
    ensures Inv(Step(cfg, s, a)) && Grows(s, Step(cfg, s, a))
  {
    match a {
      case Spawn(tid, t) => SpawnKeeps(s, Step(cfg, s, a), tid, t);
      case Advance(tid, now, c) => AdvanceThreadKeeps(cfg, s, tid, now, c);
      case Tamper(seen) => SpawnKeeps(s, Step(cfg, s, a), 0, Done);
      case Outside(_, _, _) => SpawnKeeps(s, Step(cfg, s, a), 0, Done);
    }
  }

  lemma AdvanceThreadKeeps(cfg: Config, s: Sys, tid: nat, now: Time, c: Choice)
    requires Inv(s)
    ensures Inv(Step(cfg, s, Advance(tid, now, c))) && Grows(s, Step(cfg, s, Advance(tid, now, c)))
  {
    if tid in s.threads {
      var m := Move(cfg, s, s.threads[tid], now, c);
      MoveKeeps(cfg, s, s.threads[tid], now, c);
      MoveLeavesThreads(cfg, s, s.threads[tid], now, c);
      OthersKeep(s, m.0, m.0.(threads := m.0.threads[tid := m.1]), tid, m.1);
    } else {
      SameTablesKeep(s, s);
    }
  }

  lemma MoveLeavesThreads(cfg: Config, s: Sys, t: Thread, now: Time, c: Choice)
    ensures Move(cfg, s, t, now, c).0.threads == s.threads
  {
    hide Handle, Close, Submit, Settle;
    if Settling(t) {
      SettleLeavesThreads(cfg, s, t, now, c);
    } else if Placing(t) {
      SubmitLeavesThreads(cfg, s, t, now, c);
    } else if Handling(t) {
      HandleLeavesThreads(s, t, now, c);
    } else if Closing(t) {
      CloseLeavesThreads(s, t, now);
    }
  }

  lemma HandleLeavesThreads(s: Sys, t: Thread, now: Time, c: Choice)
    requires Handling(t)
    ensures Handle(s, t, now, c).0.threads == s.threads
  {
    hide TxKey, Held, Emitted, WithOpenBatch, WithNotional, SumFor, MembersOf;
  }

  lemma CloseLeavesThreads(s: Sys, t: Thread, now: Time)
    requires Closing(t)
    ensures Close(s, t, now).0.threads == s.threads
  {
    hide Emitted, WithStatus, SumFor;
  }

  lemma SubmitLeavesThreads(cfg: Config, s: Sys, t: Thread, now: Time, c: Choice)
    requires Placing(t)
    ensures Submit(cfg, s, t, now, c).0.threads == s.threads
  {
    hide AggKey, WithStatus, WithOrder, WithFill, Held;
  }

  lemma SettleLeavesThreads(cfg: Config, s: Sys, t: Thread, now: Time, c: Choice)
    requires Settling(t)
    ensures Settle(cfg, s, t, now, c).0.threads == s.threads
  {
    hide Emitted, Pairs.FiatOf, Pairs.CryptoOf, HedgeKey, WithStatus, WithSettled, FloatTable.Added, Held;
  }

  lemma SpawnKeeps(s: Sys, s': Sys, tid: nat, t: Thread)
    requires Inv(s) && SameTables(s, s')
    requires s'.threads == s.threads || ((Starting(t) || t.Done?) && s'.threads == s.threads[tid := t])
    ensures Inv(s') && Grows(s, s')
  {
    SameTablesKeep(s, s');
    forall x | x in s'.threads
      ensures ThreadOk(s', s'.threads[x])
    {
      if x in s.threads && s'.threads[x] == s.threads[x] {
        ThreadOkGrows(s, s', s.threads[x]);
      }
    }
  }

  lemma OthersKeep(s: Sys, m: Sys, s': Sys, tid: nat, t': Thread)
    requires Inv(s) && TablesOk(m) && Grows(s, m) && ThreadOk(m, t')
    requires m.threads == s.threads && s' == m.(threads := m.threads[tid := t'])
    ensures Inv(s') && Grows(s, s')
  {
    SameTablesKeep(m, s');
    GrowsTrans(s, m, s');
    forall x | x in s'.threads
      ensures ThreadOk(s', s'.threads[x])
    {
      if x == tid {
        ThreadOkGrows(m, s', t');
      } else {
        ThreadOkGrows(s, s', s.threads[x]);
      }
    }
  }

  /** Every run keeps the invariants and only moves forward, from any state that satisfies them. */
  lemma {:induction false} RunKeeps(cfg: Config, s: Sys, acts: seq<Action>)
    requires Inv(s)
    ensures Inv(Run(cfg, s, acts)) && Grows(s, Run(cfg, s, acts))
    decreases |acts|
  {
    if acts == [] {
      SameTablesKeep(s, s);
    } else {
      var s1 := Step(cfg, s, acts[0]);
      StepKeeps(cfg, s, acts[0]);
      RunKeeps(cfg, s1, acts[1..]);
      GrowsTrans(s, s1, Run(cfg, s1, acts[1..]));
    }
  }
}
