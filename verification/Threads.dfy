/** The service at the granularity of single store calls: any number of goroutines, interleaved freely. */
module Threads {
  import opened Base
  import opened Records
  import opened Configuration
  import opened Memstore
  import opened Idempotency
  import opened Pipeline
  import FloatTable
  import FloatTracker
  import Pairs

  /** Program points of Consumer.handle (H), Scheduler.close (C), SubmitBatch (S) and the hedger (G).
      A batch held by a thread is the copy it read; its order is read through the shared row. */
  datatype Thread =
    | HClaim(ev: TxEvent)
    | HExists(ev: TxEvent)
    | HOpen(ev: TxEvent)
    | HList(ev: TxEvent, b: nat)
    | HAdd(ev: TxEvent, b: nat, isNew: bool)
    | HAnnounce(b: nat)
    | HSum(b: nat)
    | HSet(b: nat, sum: Decimal)
    | CGet(b: nat)
    | CSum(b: nat)
    | CUpdate(b: nat, sum: Decimal)
    | CAnnounce(copy: Batch)
    | SGet(b: nat)
    | SCreate(copy: Batch)
    | SCheck(copy: Batch, created: bool, status: OrderStatus)
    | SExec(copy: Batch)
    | SClaim(copy: Batch)
    | SSubmit(copy: Batch, claim: Option<nat>)
    | SFill(copy: Batch, fill: Fill)
    | SFloat(copy: Batch)
    | SAdjust(copy: Batch)
    | GClaim(copy: Batch)
    | GSubmit(copy: Batch, claim: Option<nat>)
    | GSettle(copy: Batch, hedged: Decimal)
    | SSettle(copy: Batch)
    | SAnnounce(copy: Batch)
    | Done

  predicate Handling(t: Thread) {
    t.HClaim? || t.HExists? || t.HOpen? || t.HList? || t.HAdd? || t.HAnnounce? || t.HSum? || t.HSet?
  }

  predicate Closing(t: Thread) {
    t.CGet? || t.CSum? || t.CUpdate? || t.CAnnounce?
  }

  predicate Placing(t: Thread) {
    t.SGet? || t.SCreate? || t.SCheck? || t.SExec? || t.SClaim? || t.SSubmit? || t.SFill?
  }

  predicate Settling(t: Thread) {
    t.SFloat? || t.SAdjust? || t.GClaim? || t.GSubmit? || t.GSettle? || t.SSettle? || t.SAnnounce?
  }

  /** A request to liquidity routing or FX hedging, with the winning claim it was made under. */
  datatype Request = Request(key: string, claim: Option<nat>)

  /** The stores and threads; closes, fills, claims and requests are history. */
  datatype Sys = Sys(
    w: World,
    threads: map<nat, Thread>,
    closes: seq<nat>,
    fills: seq<nat>,
    claims: seq<Claim>,
    requests: seq<Request>)

  const START := Sys(EMPTY, map[], [], [], [], [])

  /** What the idempotency store and the downstream services answer to one step. */
  datatype Choice = Choice(down: bool, env: SubmitEnv)

  function Claimed(s: Sys, key: string, now: Time): Sys {
    s.(w := s.w.(seen := Marked(s.w.seen, key, DAY, now)), claims := Logged(s.claims, s.w.seen, key, DAY, now))
  }

  function Handle(s: Sys, t: Thread, now: Time, c: Choice): (Sys, Thread)
    requires Handling(t)
  {
    match t
    case HClaim(ev) =>
      if !WellFormed(ev) || c.down || Held(s.w.seen, TxKey(ev.txId), now) then (s, Done)
      else (Claimed(s, TxKey(ev.txId), now), HExists(ev))
    case HExists(ev) => if ev.txId in s.w.byTx then (s, Done) else (s, HOpen(ev))
    case HOpen(ev) =>
      (s.(w := s.w.(batches := WithOpenBatch(s.w.batches, PairOf(ev), now))),
       HList(ev, FindOpen(s.w.batches, PairOf(ev))))
    case HList(ev, b) => (s, HAdd(ev, b, MembersOf(s.w.members, b) == []))
    case HAdd(ev, b, isNew) =>
      var next := if isNew then HAnnounce(b) else HSum(b);
      if ev.txId in s.w.byTx then (s, next)
      else (s.(w := s.w.(members := s.w.members + [MembershipFor(ev, b)], byTx := s.w.byTx + {ev.txId})), next)
    case HAnnounce(b) => (s.(w := Emitted(s.w, OpenPayload(b), b)), HSum(b))
    case HSum(b) => (s, HSet(b, SumFor(s.w.members, b)))
    case HSet(b, sum) => (s.(w := s.w.(batches := WithNotional(s.w.batches, b, sum))), Done)
  }

  function Close(s: Sys, t: Thread, now: Time): (Sys, Thread)
    requires Closing(t)
  {
    match t
    case CGet(b) => if b >= |s.w.batches| || s.w.batches[b].status != Open then (s, Done) else (s, CSum(b))
    case CSum(b) => (s, CUpdate(b, SumFor(s.w.members, b)))
    case CUpdate(b, sum) =>
      var (rows, u) := WithStatus(s.w.batches, b, Open, Closed, Some(sum), now);
      if u.Updated? then (s.(w := s.w.(batches := rows), closes := s.closes + [b]), CAnnounce(u.batch)) else (s, Done)
    case CAnnounce(copy) => (s.(w := Emitted(s.w, ClosePayload(copy), copy.id)), SGet(copy.id))
  }

  function Submit(cfg: Config, s: Sys, t: Thread, now: Time, c: Choice): (Sys, Thread)
    requires Placing(t)
  {
    match t
    case SGet(b) =>
      if b >= |s.w.batches| || !Submittable(s.w.batches[b]) then (s, Done) else (s, SCreate(s.w.batches[b]))
    case SCreate(copy) =>
      var rows := WithOrder(s.w.orders, copy.id, copy.assetPair, copy.notionalUSD);
      var created := !HasOrder(s.w.orders, copy.id);
      (s.(w := s.w.(orders := rows)),
       SCheck(copy, created, if created then OrderExecuting else OrderOf(s.w.orders, copy.id).status))
    case SCheck(copy, created, status) =>
      var live := if created && HasOrder(s.w.orders, copy.id) then OrderOf(s.w.orders, copy.id).status else status;
      if live == OrderSettled then (s, Done) else (s, SExec(copy))
    case SExec(copy) =>
      (s.(w := s.w.(batches := WithStatus(s.w.batches, copy.id, Closed, Executing, None, now).0)), SClaim(copy))
    case SClaim(copy) =>
      if c.env.aggDown then (s, SSubmit(copy, None))
      else if Held(s.w.seen, AggKey(copy.id), now) then (s, Done)
      else (Claimed(s, AggKey(copy.id), now), SSubmit(copy, Some(|s.claims|)))
    case SSubmit(copy, claim) =>
      (s.(w := s.w.(calls := s.w.calls + [AggregateCall(copy.id, copy.notionalUSD, AggKey(copy.id), c.env.fill.Some?)]),
          requests := s.requests + [Request(AggKey(copy.id), claim)]),
       if c.env.fill.None? then Done else SFill(copy, c.env.fill.value))
    case SFill(copy, f) =>
      if !HasOrder(s.w.orders, copy.id) then (s, Done)
      else
        (s.(w := s.w.(orders := WithFill(s.w.orders, copy.id, f.price, f.total, f.routes)),
            fills := s.fills + [copy.id]),
         SFloat(copy))
  }

  function Settle(cfg: Config, s: Sys, t: Thread, now: Time, c: Choice): (Sys, Thread)
    requires Settling(t)
  {
    if !HasOrder(s.w.orders, t.copy.id) then (s, Done)
    else
      var o := OrderOf(s.w.orders, t.copy.id);
      var fiat, asset := Pairs.FiatOf(t.copy.assetPair), Pairs.CryptoOf(t.copy.assetPair);
      match t
      case SFloat(copy) =>
        (s.(w := s.w.(floats := FloatTable.Added(s.w.floats, FloatTracker.FillPosition(cfg, o, fiat, asset, now)))),
         SAdjust(copy))
      case SAdjust(copy) =>
        (s.(w := Emitted(s.w, FloatTracker.AdjustPayload(copy.id, o.notionalUSD, fiat), copy.id)), GClaim(copy))
      case GClaim(copy) =>
        if c.env.hedgeDown then (s, GSubmit(copy, None))
        else if Held(s.w.seen, HedgeKey(copy.id), now) then (s, SSettle(copy))
        else (Claimed(s, HedgeKey(copy.id), now), GSubmit(copy, Some(|s.claims|)))
      case GSubmit(copy, claim) =>
        if o.notionalUSD <= 0.0 then (s, SSettle(copy))
        else
          (s.(w := s.w.(calls := s.w.calls
                        + [ExposureCall(copy.id, fiat, o.notionalUSD, HedgeKey(copy.id), c.env.hedged.Some?)]),
              requests := s.requests + [Request(HedgeKey(copy.id), claim)]),
           if c.env.hedged.None? then SSettle(copy) else GSettle(copy, c.env.hedged.value))
      case GSettle(copy, hedged) =>
        (s.(w := s.w.(orders := WithSettled(s.w.orders, copy.id, hedged, now))), SSettle(copy))
      case SSettle(copy) =>
        (s.(w := s.w.(batches := WithStatus(s.w.batches, copy.id, Executing, Settled, None, now).0)), SAnnounce(copy))
      case SAnnounce(copy) => (s.(w := Emitted(s.w, ExecutePayload(copy, o), copy.id)), Done)
  }

  /** One store call of one thread. */
  function Move(cfg: Config, s: Sys, t: Thread, now: Time, c: Choice): (Sys, Thread) {
    if t.Done? then (s, Done)
    else if Handling(t)
    then Handle(s, t, now, c)
    else if Closing(t) then Close(s, t, now)
    else if Placing(t)
    then Submit(cfg, s, t, now, c)
    else Settle(cfg, s, t, now, c)
  }

  predicate Starting(t: Thread) {
    t.HClaim? || t.CGet? || t.SGet?
  }

  /** Tamper is an idempotency store whose keys appear and vanish at will; Outside is the sweep, the dispatcher and
      the funding manager, which touch only the float and outbox tables. */
  datatype Action =
    | Spawn(tid: nat, t: Thread)
    | Advance(tid: nat, now: Time, c: Choice)
    | Tamper(seen: Seen)
    | Outside(floats: seq<FloatPosition>, outbox: seq<OutboxEntry>, outboxSeen: set<string>)

  function Step(cfg: Config, s: Sys, a: Action): Sys {
    match a
    case Spawn(tid, t) => if Starting(t) && tid !in s.threads then s.(threads := s.threads[tid := t]) else s
    case Advance(tid, now, c) =>
      if tid !in s.threads then s
      else
        var (s', t') := Move(cfg, s, s.threads[tid], now, c);
        s'.(threads := s'.threads[tid := t'])
    case Tamper(seen) => s.(w := s.w.(seen := seen))
    case Outside(floats, outbox, outboxSeen) =>
      s.(w := s.w.(floats := floats, outbox := outbox, outboxSeen := outboxSeen))
  }

  function Run(cfg: Config, s: Sys, acts: seq<Action>): Sys
    decreases |acts|
  {
    if acts == [] then s else Run(cfg, Step(cfg, s, acts[0]), acts[1..])
  }

  // --- Undisturbed threads make the handlers' steps ---

  /** A thread moves n times while no other runs. */
  function Solo(cfg: Config, s: Sys, t: Thread, now: Time, c: Choice, n: nat): (Sys, Thread) {
    if n == 0 then (s, t)
    else
      var (s', t') := Solo(cfg, s, t, now, c, n - 1);
      Move(cfg, s', t', now, c)
  }

  lemma {:induction false} SoloSplit(cfg: Config, s: Sys, t: Thread, now: Time, c: Choice, m: nat, n: nat)
    ensures Solo(cfg, s, t, now, c, m + n)
         == var (s', t') := Solo(cfg, s, t, now, c, m); Solo(cfg, s', t', now, c, n)
  {
    if n > 0 {
      SoloSplit(cfg, s, t, now, c, m, n - 1);
    }
  }
}
