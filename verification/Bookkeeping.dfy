/** The wired service and its dispatcher end to end: what the ledger and the audit log are told about each batch. */
module Bookkeeping {
  import opened Base
  import opened Records
  import opened Configuration
  import opened Pipeline
  import opened Runs
  import opened Steps
  import AuditTrail
  import Delivery
  import Idempotency
  import Ledger
  import Memstore
  import Pairs

  const BOTH := Ledger.Clients(true, true)

  /** What the ledger was asked during a run, in order. */
  function Posts(cfg: Config, start: Time, acts: seq<Timed>): seq<Ledger.Posting> {
    if acts == [] then []
    else
      var n := |acts| - 1;
      var rows := Run(cfg, start, acts[..n]).w.outbox;
      Posts(cfg, start, acts[..n])
      + if acts[n].act.Dispatch?
        then Ledger.PostsMade(BOTH, rows, acts[n].act.limit, acts[n].act.fates, |rows|) else []
  }

  /** What the audit log was asked during a run, in order. */
  function Emissions(cfg: Config, start: Time, acts: seq<Timed>): seq<Ledger.Emission> {
    if acts == [] then []
    else
      var n := |acts| - 1;
      var rows := Run(cfg, start, acts[..n]).w.outbox;
      Emissions(cfg, start, acts[..n])
      + if acts[n].act.Dispatch?
        then Ledger.EmissionsMade(BOTH, rows, acts[n].act.limit, acts[n].act.fates, |rows|) else []
  }

  /** The outbox of the service as the dispatcher sees it. */
  function Outbox(cfg: Config, start: Time, acts: seq<Timed>): Delivery.State {
    var w := Run(cfg, start, acts).w;
    Delivery.State(w.outbox, w.outboxSeen, Posts(cfg, start, acts), Emissions(cfg, start, acts))
  }

  // --- Handlers only append entries that wait ---

  ghost predicate Extends(rows: seq<OutboxEntry>, rows': seq<OutboxEntry>) {
    rows <= rows' && forall i :: |rows| <= i < |rows'| ==> Ledger.Pending(rows'[i])
  }

  lemma ExtendsAgain(a: seq<OutboxEntry>, b: seq<OutboxEntry>, c: seq<OutboxEntry>)
    requires Extends(a, b) && Extends(b, c)
    ensures Extends(a, c)
  {
  }

  lemma EmittedExtends(w: World, p: Payload, id: nat)
    ensures Extends(w.outbox, Emitted(w, p, id).outbox)
  {
    hide Ledger.Key;
  }

  lemma HandledExtends(w: World, ev: TxEvent, now: Time)
    requires WorldOk(w)
    ensures Extends(w.outbox, Handled(w, ev, now).outbox)
  {
    hide Handled, Joined, Idempotency.TxKey, Emitted;
    HandledEffect(w, ev, now);
    if WellFormed(ev) && ev.txId !in w.byTx {
      var id := Memstore.FindOpen(w.batches, PairOf(ev));
      JoinedEffect(w, ev, now);
      EmittedExtends(w, OpenPayload(id), id);
    }
  }

  lemma SubmittedExtends(cfg: Config, w: World, id: nat, now: Time, env: SubmitEnv)
    requires WorldOk(w)
    ensures Extends(w.outbox, Submitted(cfg, w, id, now, env).outbox)
  {
    hide Submitted, Emitted, FloatsDue, OnlySubmissionKeys, CalledOnce, NewRequests, Memstore.WithOrder;
    BatchIdsOf(w);
    var w' := Submitted(cfg, w, id, now, env);
    SubmitEffect(cfg, w, id, now, env);
    if id < |w.batches| && FilledOnce(w, w', id) {
      var b := w.batches[id];
      var created := Memstore.WithOrder(w.orders, id, b.assetPair, b.notionalUSD);
      FillExtends(w, b, Memstore.OrderOf(created, id).notionalUSD, id);
    }
  }

  lemma FillExtends(w: World, b: Batch, notional: Decimal, id: nat)
    ensures var e1 := Emitted(w, AdjustEvent(b, notional), id);
            Extends(w.outbox, Emitted(e1, ExecuteEvent(b, notional), id).outbox)
  {
    hide Emitted;
    var e1 := Emitted(w, AdjustEvent(b, notional), id);
    EmittedExtends(w, AdjustEvent(b, notional), id);
    EmittedExtends(e1, ExecuteEvent(b, notional), id);
    ExtendsAgain(w.outbox, e1.outbox, Emitted(e1, ExecuteEvent(b, notional), id).outbox);
  }

  lemma JustClosedExtends(w: World, id: nat, now: Time)
    requires id < |w.batches| && w.batches[id].status == Open
    ensures Extends(w.outbox, JustClosed(w, id, now).outbox)
  {
    hide Memstore.SumFor, Ledger.Key;
  }

  lemma ElementaryExtends(cfg: Config, w: World, w': World, now: Time)
    requires WorldOk(w) && Elementary(cfg, w, w', now)
    ensures Extends(w.outbox, w'.outbox)
  {
    hide Handled, Submitted, WorldOk, JustClosed, Extends, Idempotency.CadenceKey;
    if ev :| w' == Handled(w, ev, now) {
      HandledExtends(w, ev, now);
    } else if pair :| w' == WithLock(cfg, w, pair, now) {
      assert w'.outbox == w.outbox;
      SameExtends(w.outbox);
    } else if id: nat :| id < |w.batches| && w.batches[id].status == Open && w' == JustClosed(w, id, now) {
      JustClosedExtends(w, id, now);
    } else {
      var id, env :| w' == Submitted(cfg, w, id, now, env);
      SubmittedExtends(cfg, w, id, now, env);
    }
  }

  lemma SameExtends(rows: seq<OutboxEntry>)
    ensures Extends(rows, rows)
  {
  }

  lemma StepExtends(cfg: Config, s: Sys, t: Timed)
    requires Inv(s) && !t.act.Dispatch?
    ensures Extends(s.w.outbox, Step(cfg, s, t).w.outbox)
  {
    hide Handled, Ticked, ClosedBatch, Submitted, Extends, Inv, Elementary, WorldOk, Emitted;
    SameExtends(s.w.outbox);
    if Handler(t.act) {
      var P := (w: World) => Extends(s.w.outbox, w.outbox);
      forall w, w' | WorldOk(w) && P(w) && Elementary(cfg, w, w', t.at)
        ensures P(w')
      {
        ElementaryExtends(cfg, w, w', t.at);
        ExtendsAgain(s.w.outbox, w.outbox, w'.outbox);
      }
      StepHas(cfg, s, t, P);
    } else if t.act.Funded? {
      EmittedExtends(s.w, Payload(AggFunding, EvFunding, None, t.act.amount, t.act.asset, "", ""), t.act.requestId);
    } else if t.act.Rebalanced? {
      EmittedExtends(s.w, Payload(AggRebalance, EvRebalance, None, t.act.amount, t.act.asset, "", ""), t.act.jobId);
    }
  }

  // --- The delivery chain of the wired service ---

  lemma ChainExtends(s: Delivery.State, s': Delivery.State)
    requires Delivery.ChainOk(BOTH, s) && Extends(s.rows, s'.rows) && Delivery.KeysOk(s')
    requires s'.posts == s.posts && s'.emissions == s.emissions
    ensures Delivery.ChainOk(BOTH, s')
  {
    hide Delivery.HasRow, Delivery.HasRowFor, Delivery.PostAccepted, Delivery.AuditAccepted;
    Delivery.RowsKept(s.rows, s'.rows);
  }

  lemma StepChains(cfg: Config, start: Time, acts: seq<Timed>)
    requires acts != [] && Delivery.ChainOk(BOTH, Outbox(cfg, start, acts[..|acts| - 1]))
    ensures Delivery.ChainOk(BOTH, Outbox(cfg, start, acts))
  {
    hide Delivery.ChainOk, AuditTrail.AuditOk, Inv, Extends, Handled, Ticked, ClosedBatch, Submitted, Emitted;
    hide Ledger.PostsMade, Ledger.EmissionsMade, Ledger.Dispatched;
    var n := |acts| - 1;
    var s, s', t := Outbox(cfg, start, acts[..n]), Outbox(cfg, start, acts), acts[n];
    if t.act.Dispatch? {
      Delivery.StepKeepsChain(BOTH, s, Delivery.Act.Dispatch(t.act.limit, t.act.fates, t.at));
      assert s' == Delivery.Step(BOTH, s, Delivery.Act.Dispatch(t.act.limit, t.act.fates, t.at));
    } else {
      RunKeeps(cfg, start, acts[..n]);
      StepExtends(cfg, Run(cfg, start, acts[..n]), t);
      KeysOfRun(cfg, start, acts);
      ChainExtends(s, s');
    }
  }

  lemma KeysOfRun(cfg: Config, start: Time, acts: seq<Timed>)
    ensures Delivery.KeysOk(Outbox(cfg, start, acts))
  {
    hide Run, AuditTrail.RowsOk, AuditTrail.Complete;
    AuditTrail.RunAudit(cfg, start, acts);
  }

  lemma {:induction false} RunChains(cfg: Config, start: Time, acts: seq<Timed>)
    ensures Delivery.ChainOk(BOTH, Outbox(cfg, start, acts))
  {
    hide Delivery.ChainOk, Outbox;
    if acts == [] {
      NothingChained(cfg, start);
    } else {
      RunChains(cfg, start, acts[..|acts| - 1]);
      StepChains(cfg, start, acts);
    }
  }

  lemma NothingChained(cfg: Config, start: Time)
    ensures Delivery.ChainOk(BOTH, Outbox(cfg, start, []))
  {
  }

  // --- What they are told ---

  /** The posting tells the event of the batch, field by field. */
  ghost predicate PostTells(c: Ledger.LedgerPost, e: EventType, b: Batch) {
    && c.eventType == e && c.batchId == Some(b.id)
    && match e
       case EvBatchOpen => c.aggregate == AggBatch && c.notionalUSD == 0.0 && c.asset == "" && c.fiatCurrency == ""
       case EvBatchClose =>
         c.aggregate == AggBatch && c.notionalUSD == b.notionalUSD && c.asset == "" && c.fiatCurrency == ""
       case EvFloatAdjust =>
         && c.aggregate == AggFloat && c.notionalUSD == b.notionalUSD
         && c.asset == "" && c.fiatCurrency == Pairs.FiatOf(b.assetPair)
       case EvAggregateExec =>
         && c.aggregate == AggAggregate && c.notionalUSD == b.notionalUSD
         && c.asset == Pairs.CryptoOf(b.assetPair) && c.fiatCurrency == Pairs.FiatOf(b.assetPair)
       case _ => false
  }

  /** The status of a batch of which this event is told. */
  predicate Reached(e: EventType, st: BatchStatus) {
    match e
    case EvBatchOpen => true
    case EvBatchClose => st != Open
    case _ => st == Settled
  }

  lemma RowTells(cfg: Config, start: Time, acts: seq<Timed>, i: nat, e: EventType, id: nat)
    requires AuditTrail.BatchEvent(e)
    requires var w := Run(cfg, start, acts).w;
             i < |w.outbox| && w.outbox[i].dedupKey == AuditTrail.EventKey(e, id)
    ensures var w := Run(cfg, start, acts).w;
            && id < |w.batches| && w.batches[id].id == id && Reached(e, w.batches[id].status)
            && AuditTrail.Describes(w.outbox[i].payload, e, w.batches[id])
  {
    hide Run, AuditTrail.EventKey, AuditTrail.KeysOk, AuditTrail.RowsOk, AuditTrail.Complete;
    AuditTrail.RunAudit(cfg, start, acts);
    var w := Run(cfg, start, acts).w;
    AuditTrail.RowContent(w, i, e, id);
    AuditTrail.EventDescribes(e, w.batches[id]);
  }

  /** Over every run: whatever is posted or audited under the key of a batch event tells that event of that batch, and
      the batch had got that far. */
  lemma BatchEventsAreTold(cfg: Config, start: Time, acts: seq<Timed>, e: EventType, id: nat)
    requires AuditTrail.BatchEvent(e)
    ensures var b, key := Run(cfg, start, acts).w.batches, AuditTrail.EventKey(e, id);
            var posts, emissions := Posts(cfg, start, acts), Emissions(cfg, start, acts);
            && (forall j :: 0 <= j < |posts| && posts[j].key == key ==>
                  id < |b| && b[id].id == id && Reached(e, b[id].status) && PostTells(posts[j].content, e, b[id]))
            && (forall j :: 0 <= j < |emissions| && emissions[j].key == key ==>
                  && id < |b| && Reached(e, b[id].status)
                  && emissions[j].content.eventType == e && emissions[j].content.batchId == Some(id)
                  && emissions[j].content.detail == "")
  {
    hide Run, Posts, Emissions, AuditTrail.EventKey, AuditTrail.Describes, Reached, AuditTrail.BatchEvent;
    hide Delivery.Carries, Delivery.Tells, PostTells, Delivery.EmittedOk, Delivery.KeysOk;
    var s, key := Outbox(cfg, start, acts), AuditTrail.EventKey(e, id);
    RunChains(cfg, start, acts);
    forall j | 0 <= j < |s.posts| && s.posts[j].key == key
      ensures var b := Run(cfg, start, acts).w.batches;
              id < |b| && b[id].id == id && Reached(e, b[id].status) && PostTells(s.posts[j].content, e, b[id])
    {
      assert Delivery.HasRow(s.rows, key, s.posts[j].content);
      var i :|
        0 <= i < |s.rows| && s.rows[i].dedupKey == key && Delivery.Carries(s.posts[j].content, s.rows[i].payload);
      RowTells(cfg, start, acts, i, e, id);
      PostCarries(s.posts[j].content, s.rows[i].payload, e, Run(cfg, start, acts).w.batches[id]);
    }
    forall j | 0 <= j < |s.emissions| && s.emissions[j].key == key
      ensures var b, c := Run(cfg, start, acts).w.batches, s.emissions[j].content;
              id < |b| && Reached(e, b[id].status) && c.eventType == e && c.batchId == Some(id) && c.detail == ""
    {
      assert Delivery.HasRowFor(s.rows, key, s.emissions[j].content);
      var i :|
        0 <= i < |s.rows| && s.rows[i].dedupKey == key && Delivery.Tells(s.emissions[j].content, s.rows[i].payload);
      RowTells(cfg, start, acts, i, e, id);
      AuditCarries(s.emissions[j].content, s.rows[i].payload, e, Run(cfg, start, acts).w.batches[id]);
    }
  }

  lemma PostCarries(c: Ledger.LedgerPost, p: Payload, e: EventType, b: Batch)
    requires Delivery.Carries(c, p) && AuditTrail.Describes(p, e, b)
    ensures PostTells(c, e, b)
  {
    hide Pairs.FiatOf, Pairs.CryptoOf;
  }

  lemma AuditCarries(c: Ledger.AuditEvent, p: Payload, e: EventType, b: Batch)
    requires Delivery.Tells(c, p) && AuditTrail.Describes(p, e, b)
    ensures c.eventType == e && c.batchId == Some(b.id) && c.detail == ""
  {
    hide Pairs.FiatOf, Pairs.CryptoOf;
  }

  /** The ledger's book holds under the key of a batch event exactly what that event tells, and it does so from the
      moment the event's entry is marked emitted. */
  lemma LedgerKnowsBatch(cfg: Config, start: Time, acts: seq<Timed>, e: EventType, id: nat)
    requires AuditTrail.BatchEvent(e)
    ensures var w, book, key :=
              Run(cfg, start, acts).w, Delivery.Book(Posts(cfg, start, acts)), AuditTrail.EventKey(e, id);
            && (key in book ==>
                  && id < |w.batches| && w.batches[id].id == id && Reached(e, w.batches[id].status)
                  && PostTells(book[key], e, w.batches[id]))
            && (forall i :: 0 <= i < |w.outbox| && w.outbox[i].dedupKey == key && w.outbox[i].emittedAt.Some? ==>
                  key in book)
  {
    hide Run, Posts, Emissions, AuditTrail.EventKey, Reached, AuditTrail.BatchEvent, PostTells, Delivery.Book;
    hide Delivery.EmissionsOk, Delivery.KeysOk;
    var s, key := Outbox(cfg, start, acts), AuditTrail.EventKey(e, id);
    RunChains(cfg, start, acts);
    BatchEventsAreTold(cfg, start, acts, e, id);
    BookedFrom(s.posts);
    if key in Delivery.Book(s.posts) {
      assert PostedAs(s.posts, key, Delivery.Book(s.posts)[key]);
    }
    forall i | 0 <= i < |s.rows| && s.rows[i].dedupKey == key && s.rows[i].emittedAt.Some?
      ensures key in Delivery.Book(s.posts)
    {
      assert Delivery.PostAccepted(s.posts, key);
      var j :| 0 <= j < |s.posts| && s.posts[j].key == key && s.posts[j].reply == Ledger.Accepted;
      assert s.posts[j] in s.posts;
    }
  }

  ghost predicate PostedAs(posts: seq<Ledger.Posting>, key: string, content: Ledger.LedgerPost) {
    exists j :: 0 <= j < |posts| && posts[j].key == key && posts[j].content == content
  }

  /** What the book holds was posted, and what was not rejected is in the book. */
  lemma {:induction false} BookedFrom(posts: seq<Ledger.Posting>)
    ensures var book := Delivery.Book(posts);
            && (forall k :: k in book ==> PostedAs(posts, k, book[k]))
            && (forall p :: p in posts && p.reply != Ledger.Rejected ==> p.key in book)
  {
    if posts != [] {
      var n := |posts| - 1;
      assert posts == posts[..n] + [posts[n]];
      BookedFrom(posts[..n]);
      forall k | k in Delivery.Book(posts)
        ensures PostedAs(posts, k, Delivery.Book(posts)[k])
      {
        if k in Delivery.Book(posts[..n]) {
          var j :| 0 <= j < n && posts[..n][j].key == k && posts[..n][j].content == Delivery.Book(posts[..n])[k];
          assert posts[j].key == k;
        } else {
          assert posts[n].key == k;
        }
      }
    }
  }
}
