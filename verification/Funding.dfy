/** Hot-wallet funding: the request handlers, the rebalance check and the two stores they write. */
module Funding {
  import opened Base
  import opened Records
  import opened Configuration
  import opened Idempotency
  import opened Projection
  import Ledger

  /** The policy ceiling for one request. */
  const MAX_FUNDING_AMOUNT: Decimal := 10_000_000.0

  datatype MoveStatus = MovePending | MoveExecuting | MoveCompleted | MoveRejected

  datatype FundingRequest = FundingRequest(
    id: nat, walletId: string, asset: string, amount: Decimal, status: MoveStatus, sourceVenue: string,
    completedAt: Option<Time>)

  datatype RebalancingJob = RebalancingJob(
    id: nat, fromRef: string, toRef: string, asset: string, amount: Decimal, status: MoveStatus, reason: string,
    completedAt: Option<Time>)

  datatype FundingError = InvalidAmount | PolicyViolation | WalletFailed | UnknownRow

  predicate Final(s: MoveStatus) {
    s == MoveCompleted || s == MoveRejected
  }

  function Outcome(ok: bool): MoveStatus {
    if ok then MoveCompleted else MoveRejected
  }

  // --- Stores ---

  class FundingStore {
    var rows: seq<FundingRequest>

    ghost predicate Valid() reads this {
      forall i :: 0 <= i < |rows| ==> rows[i].id == i
    }

    constructor ()
      ensures Valid() && rows == []
    {
      rows := [];
    }

    method CreateFunding(f: FundingRequest) returns (r: FundingRequest)
      requires Valid()
      modifies this
      ensures Valid() && r == f.(id := |old(rows)|) && rows == old(rows) + [r]
    {
      r := f.(id := |rows|);
      rows := rows + [r];
    }

    method UpdateFundingStatus(id: nat, status: MoveStatus, now: Time) returns (found: bool)
      requires Valid()
      modifies this
      ensures Valid() && found == (id < |old(rows)|)
      ensures !found ==> rows == old(rows)
      ensures found ==> rows == old(rows)[id := old(rows)[id].(
          status := status, completedAt := if Final(status) then Some(now) else old(rows)[id].completedAt)]
    {
      for i := 0 to |rows|
        invariant rows == old(rows) && i <= id
      {
        if rows[i].id == id {
          var r := rows[i].(status := status);
          rows := rows[i := if Final(status) then r.(completedAt := Some(now)) else r];
          return true;
        }
      }
      return false;
    }
  }

  class RebalancingStore {
    var rows: seq<RebalancingJob>

    ghost predicate Valid() reads this {
      forall i :: 0 <= i < |rows| ==> rows[i].id == i
    }

    constructor ()
      ensures Valid() && rows == []
    {
      rows := [];
    }

    method CreateJob(j: RebalancingJob) returns (r: RebalancingJob)
      requires Valid()
      modifies this
      ensures Valid() && r == j.(id := |old(rows)|) && rows == old(rows) + [r]
    {
      r := j.(id := |rows|);
      rows := rows + [r];
    }

    method UpdateJobStatus(id: nat, status: MoveStatus, now: Time) returns (found: bool)
      requires Valid()
      modifies this
      ensures Valid() && found == (id < |old(rows)|)
      ensures !found ==> rows == old(rows)
      ensures found ==> rows == old(rows)[id := old(rows)[id].(
          status := status, completedAt := if Final(status) then Some(now) else old(rows)[id].completedAt)]
    {
      for i := 0 to |rows|
        invariant rows == old(rows) && i <= id
      {
        if rows[i].id == id {
          var r := rows[i].(status := status);
          rows := rows[i := if Final(status) then r.(completedAt := Some(now)) else r];
          return true;
        }
      }
      return false;
    }
  }

  /** A move asked of wallet management, and whether it was answered without error. */
  datatype Move = Move(walletId: string, asset: string, amount: Decimal, source: string, key: string, ok: bool)

  class Wallet {
    var moves: seq<Move>

    constructor ()
      ensures moves == []
    {
      moves := [];
    }

    method Fund(walletId: string, asset: string, amount: Decimal, source: string, key: string, answer: bool)
      returns (ok: bool)
      modifies this
      ensures ok == answer && moves == old(moves) + [Move(walletId, asset, amount, source, key, answer)]
    {
      moves := moves + [Move(walletId, asset, amount, source, key, answer)];
      ok := answer;
    }
  }

  // --- What each handler does ---

  datatype Books = Books(
    funding: seq<FundingRequest>, jobs: seq<RebalancingJob>, moves: seq<Move>,
    outbox: seq<OutboxEntry>, outboxSeen: set<string>, seen: Seen, ops: seq<Op>)

  const START := Books([], [], [], [], {}, map[], [])

  function FundKey(id: nat): string {
    "fund:" + IdText(id)
  }

  function RebalanceKey(id: nat): string {
    "rebal:" + IdText(id)
  }

  function FundingPayload(asset: string, amount: Decimal): Payload {
    Payload(AggFunding, EvFunding, None, amount, asset, "", "")
  }

  function RebalancePayload(asset: string, amount: Decimal): Payload {
    Payload(AggRebalance, EvRebalance, None, amount, asset, "", "")
  }

  function Noted(b: Books, p: Payload, id: nat): Books {
    var key := Ledger.Key(p.aggregate, p.eventType, IdText(id));
    b.(outbox := Ledger.Appended(b.outbox, b.outboxSeen, key, p), outboxSeen := b.outboxSeen + {key})
  }

  predicate WithinPolicy(amount: Decimal) {
    0.0 < amount <= MAX_FUNDING_AMOUNT
  }

  /** The row, its announcement and its move. */
  function Persisted(
      b: Books, walletId: string, asset: string, amount: Decimal, source: string, ok: bool, now: Time): Books {
    var id := |b.funding|;
    Noted(b, FundingPayload(asset, amount), id).(
      funding := b.funding + [FundingRequest(id, walletId, asset, amount, Outcome(ok), source, Some(now))],
      moves := b.moves + [Move(walletId, asset, amount, source, FundKey(id), ok)],
      seen := Marked(b.seen, FundKey(id), DAY, now))
  }

  function Requested(
      b: Books, walletId: string, asset: string, amount: Decimal, source: string, ok: bool, now: Time): Books {
    if !WithinPolicy(amount) then b
    else Persisted(b.(ops := b.ops + [Query(asset, now)]), walletId, asset, amount, source, ok, now)
  }

  function Rebalanced(b: Books, fromRef: string, toRef: string, asset: string, amount: Decimal, reason: string,
                      ok: bool, now: Time): Books
  {
    if !WithinPolicy(amount) then b
    else
      var id := |b.jobs|;
      Noted(b, RebalancePayload(asset, amount), id).(
        jobs := b.jobs + [RebalancingJob(id, fromRef, toRef, asset, amount, Outcome(ok), reason, Some(now))],
        moves := b.moves + [Move(toRef, asset, amount, fromRef, RebalanceKey(id), ok)],
        seen := Marked(b.seen, RebalanceKey(id), DAY, now))
  }

  /** The amount by which demand exceeds a configured target, cut to the ceiling. */
  function TopUp(target: Decimal, demand: Decimal): (amount: Option<Decimal>)
    ensures amount.Some? <==> target > 0.0 && demand > target
    ensures amount.Some? ==> WithinPolicy(amount.value) && amount.value <= demand - target
    ensures amount.Some? ==> amount.value == demand - target || amount.value == MAX_FUNDING_AMOUNT
  {
    if target <= 0.0 || demand <= target then None
    else Some(if demand - target > MAX_FUNDING_AMOUNT then MAX_FUNDING_AMOUNT else demand - target)
  }

  const LOOP_SOURCE := "rebalance-loop"

  function Checked(cfg: Config, window: Time, b: Books, asset: string, walletId: string, ok: bool, now: Time): Books {
    var target := HotWalletTargetFor(cfg, asset);
    if target <= 0.0 then b
    else
      var b1 := b.(ops := b.ops + [Query(asset, now)]);
      var amount := TopUp(target, DemandAfter(window, b.ops, asset, now));
      if amount.None? then b1 else Requested(b1, walletId, asset, amount.value, LOOP_SOURCE, ok, now)
  }

  class Manager {
    const cfg: Config
    const funding: FundingStore
    const rebalance: RebalancingStore
    const wallet: Wallet
    const idem: MemStore
    const projection: Model
    const emitter: Ledger.Emitter

    ghost predicate Valid()
      reads funding, rebalance, emitter.outbox, projection, projection.Buffers()
    {
      funding.Valid() && rebalance.Valid() && emitter.outbox.Valid() && projection.Valid()
    }

    ghost function View(): Books
      reads funding, rebalance, wallet, emitter.outbox, idem, projection`ops
    {
      Books(funding.rows, rebalance.rows, wallet.moves,
            emitter.outbox.rows, emitter.outbox.seen, idem.seen, projection.ops)
    }

    constructor (cfg: Config, idem: MemStore, projection: Model, emitter: Ledger.Emitter)
      requires projection.Valid() && emitter.outbox.Valid()
      ensures Valid() && this.cfg == cfg && this.idem == idem && this.projection == projection
      ensures this.emitter == emitter
      ensures fresh({funding, rebalance, wallet}) && funding.rows == [] && rebalance.rows == [] && wallet.moves == []
    {
      this.cfg, this.idem, this.projection, this.emitter := cfg, idem, projection, emitter;
      funding := new FundingStore();
      rebalance := new RebalancingStore();
      wallet := new Wallet();
    }

    method CreateFundingRequest(
        walletId: string, asset: string, amount: Decimal, source: string, walletOk: bool, now: Time)
      returns (r: Result<FundingRequest, FundingError>)
      requires Valid()
      modifies funding, wallet, idem, emitter.outbox, projection, projection.Buffers()
      ensures Valid() && fresh(projection.Buffers() - old(projection.Buffers()))
      ensures View() == Requested(old(View()), walletId, asset, amount, source, walletOk, now)
      ensures r == if amount <= 0.0 then Err(InvalidAmount)
                   else if amount > MAX_FUNDING_AMOUNT then Err(PolicyViolation)
                   else Ok(funding.rows[|funding.rows| - 1])
    {
      hide Persisted, DemandAfter, Observed, Current;
      if !(amount > 0.0) {
        return Err(InvalidAmount);
      }
      if amount > MAX_FUNDING_AMOUNT {
        return Err(PolicyViolation);
      }
      var _ := projection.ProjectedDemand(asset, now);
      var fr := PersistAndExecute(FundingRequest(0, walletId, asset, amount, MovePending, source, None), walletOk, now);
      return Ok(fr);
    }

    method PersistAndExecute(f: FundingRequest, walletOk: bool, now: Time) returns (fr: FundingRequest)
      requires Valid() && f.completedAt == None
      modifies funding, wallet, idem, emitter.outbox
      ensures Valid() && View() == Persisted(old(View()), f.walletId, f.asset, f.amount, f.sourceVenue, walletOk, now)
      ensures fr == funding.rows[|funding.rows| - 1]
    {
      var row := funding.CreateFunding(f);
      OnFunding(row);
      ExecuteFunding(row, walletOk, now);
      fr := funding.rows[row.id];
    }

    method OnFunding(fr: FundingRequest)
      requires Valid()
      modifies emitter.outbox
      ensures Valid() && View() == Noted(old(View()), FundingPayload(fr.asset, fr.amount), fr.id)
    {
      emitter.Append(AggFunding, EvFunding, Ledger.Key(AggFunding, EvFunding, IdText(fr.id)),
                     FundingPayload(fr.asset, fr.amount));
    }

    /** Execution by wallet management; a lost claim is only logged. */
    method ExecuteFunding(fr: FundingRequest, walletOk: bool, now: Time)
      requires Valid() && fr.id < |funding.rows| && funding.rows[fr.id] == fr
      modifies funding, wallet, idem
      ensures Valid() && View() == old(View()).(
          funding := old(funding.rows)[fr.id := fr.(status := Outcome(walletOk), completedAt := Some(now))],
          moves := old(wallet.moves)
                   + [Move(fr.walletId, fr.asset, fr.amount, fr.sourceVenue, FundKey(fr.id), walletOk)],
          seen := Marked(old(idem.seen), FundKey(fr.id), DAY, now))
    {
      hide FundKey;
      var key := FundKey(fr.id);
      var _ := idem.CheckAndMark(key, DAY, now);
      var ok := wallet.Fund(fr.walletId, fr.asset, fr.amount, fr.sourceVenue, key, walletOk);
      if !ok {
        var _ := funding.UpdateFundingStatus(fr.id, MoveRejected, now);
        return;
      }
      var found := funding.UpdateFundingStatus(fr.id, MoveCompleted, now);
      if !found {
        assert false;
      }
    }

    method Rebalance(
        fromRef: string, toRef: string, asset: string, amount: Decimal, reason: string, walletOk: bool, now: Time)
      returns (job: Option<RebalancingJob>, error: Option<FundingError>)
      requires Valid()
      modifies rebalance, wallet, idem, emitter.outbox
      ensures Valid() && View() == Rebalanced(old(View()), fromRef, toRef, asset, amount, reason, walletOk, now)
      ensures error == if amount <= 0.0 then Some(InvalidAmount)
                       else if amount > MAX_FUNDING_AMOUNT then Some(PolicyViolation)
                       else if walletOk then None else Some(WalletFailed)
      ensures job == if WithinPolicy(amount) then Some(rebalance.rows[|rebalance.rows| - 1]) else None
    {
      if !(amount > 0.0) {
        return None, Some(InvalidAmount);
      }
      if amount > MAX_FUNDING_AMOUNT {
        return None, Some(PolicyViolation);
      }
      var j := rebalance.CreateJob(RebalancingJob(0, fromRef, toRef, asset, amount, MovePending, reason, None));
      OnRebalance(j);
      error := ExecuteJob(j, walletOk, now);
      job := Some(rebalance.rows[j.id]);
    }

    method OnRebalance(j: RebalancingJob)
      requires Valid()
      modifies emitter.outbox
      ensures Valid() && View() == Noted(old(View()), RebalancePayload(j.asset, j.amount), j.id)
    {
      emitter.Append(AggRebalance, EvRebalance, Ledger.Key(AggRebalance, EvRebalance, IdText(j.id)),
                     RebalancePayload(j.asset, j.amount));
    }

    method ExecuteJob(j: RebalancingJob, walletOk: bool, now: Time) returns (error: Option<FundingError>)
      requires Valid() && j.id < |rebalance.rows| && rebalance.rows[j.id] == j
      modifies rebalance, wallet, idem
      ensures error == if walletOk then None else Some(WalletFailed)
      ensures Valid() && View() == old(View()).(
          jobs := old(rebalance.rows)[j.id := j.(status := Outcome(walletOk), completedAt := Some(now))],
          moves := old(wallet.moves) + [Move(j.toRef, j.asset, j.amount, j.fromRef, RebalanceKey(j.id), walletOk)],
          seen := Marked(old(idem.seen), RebalanceKey(j.id), DAY, now))
    {
      hide RebalanceKey;
      var key := RebalanceKey(j.id);
      var _ := idem.CheckAndMark(key, DAY, now);
      var ok := wallet.Fund(j.toRef, j.asset, j.amount, j.fromRef, key, walletOk);
      if !ok {
        var _ := rebalance.UpdateJobStatus(j.id, MoveRejected, now);
        return Some(WalletFailed);
      }
      var found := rebalance.UpdateJobStatus(j.id, MoveCompleted, now);
      if !found {
        assert false;
      }
      return None;
    }

    method CheckAndRebalance(asset: string, walletId: string, walletOk: bool, now: Time)
      requires Valid()
      modifies funding, wallet, idem, emitter.outbox, projection, projection.Buffers()
      ensures Valid() && fresh(projection.Buffers() - old(projection.Buffers()))
      ensures View() == Checked(cfg, projection.window, old(View()), asset, walletId, walletOk, now)
    {
      hide Requested, DemandAfter;
      var target := HotWalletTargetFor(cfg, asset);
      if target <= 0.0 {
        return;
      }
      var demand := projection.ProjectedDemand(asset, now);
      var shortfall := demand - target;
      if !(shortfall > 0.0) {
        return;
      }
      if shortfall > MAX_FUNDING_AMOUNT {
        shortfall := MAX_FUNDING_AMOUNT;
      }
      var _ := CreateFundingRequest(walletId, asset, shortfall, LOOP_SOURCE, walletOk, now);
    }
  }

  // --- The rebalance check against the demand history ---

  /** Everything observed for the asset within the window that ends now. */
  function WindowDemand(window: Time, ops: seq<Op>, asset: string, now: Time): Decimal {
    Observed(ops, asset, now - window)
  }

  /** One request of exactly the capped shortfall, never refused by policy, or nothing at all. */
  lemma CheckFundsShortfall(cfg: Config, window: Time, b: Books, asset: string, walletId: string, ok: bool, now: Time)
    requires Current(b.ops, asset, now)
    ensures var target, demand := HotWalletTargetFor(cfg, asset), WindowDemand(window, b.ops, asset, now);
            var b', over := Checked(cfg, window, b, asset, walletId, ok, now), demand - target;
            if target > 0.0 && over > 0.0
            then |b'.funding| == |b.funding| + 1 && b'.funding[..|b.funding|] == b.funding
                 && var r := b'.funding[|b.funding|];
                    && r.amount == (if over < MAX_FUNDING_AMOUNT then over else MAX_FUNDING_AMOUNT)
                    && r.asset == asset && r.walletId == walletId && r.status == Outcome(ok)
            else b'.funding == b.funding && b'.moves == b.moves
  {
    DemandOfCurrent(window, b.ops, asset, now);
  }

  lemma CheckKeepsDemand(
      cfg: Config, window: Time, b: Books, asset: string, walletId: string, ok: bool, now: Time, later: Time)
    requires Current(b.ops, asset, now) && now <= later
    ensures var b' := Checked(cfg, window, b, asset, walletId, ok, now);
            Current(b'.ops, asset, later) && SameSums(b.ops, b'.ops, asset)
  {
    hide DemandAfter;
    var q := Query(asset, now);
    QuerySums(b.ops, asset, now);
    QuerySums(b.ops + [q], asset, now);
  }

  ghost predicate SameSums(ops: seq<Op>, ops': seq<Op>, asset: string) {
    forall cutoff :: Observed(ops', asset, cutoff) == Observed(ops, asset, cutoff)
  }

  /** A query observes nothing. */
  lemma QuerySums(ops: seq<Op>, asset: string, now: Time)
    ensures SameSums(ops, ops + [Query(asset, now)], asset)
  {
    assert (ops + [Query(asset, now)])[..|ops|] == ops;
  }

  function RowTotal(rows: seq<FundingRequest>): Decimal {
    if rows == [] then 0.0 else RowTotal(rows[..|rows| - 1]) + rows[|rows| - 1].amount
  }

  /** What one check adds to the requested total. */
  function Added(target: Decimal, demand: Decimal): Decimal {
    match TopUp(target, demand) case None => 0.0 case Some(x) => x
  }

  lemma CheckAdds(cfg: Config, window: Time, b: Books, asset: string, walletId: string, ok: bool, now: Time)
    requires Current(b.ops, asset, now)
    ensures RowTotal(Checked(cfg, window, b, asset, walletId, ok, now).funding)
         == RowTotal(b.funding) + Added(HotWalletTargetFor(cfg, asset), WindowDemand(window, b.ops, asset, now))
  {
    DemandOfCurrent(window, b.ops, asset, now);
    var b' := Checked(cfg, window, b, asset, walletId, ok, now);
    if |b'.funding| > |b.funding| {
      assert b'.funding[..|b.funding|] == b.funding;
    }
  }

  /** One check of the rebalance loop, and whether wallet management carries it out. */
  datatype LoopCheck = LoopCheck(at: Time, ok: bool)

  function CheckedAll(
      cfg: Config, window: Time, b: Books, asset: string, walletId: string, checks: seq<LoopCheck>): Books {
    if checks == [] then b
    else
      var n := |checks| - 1;
      Checked(cfg, window, CheckedAll(cfg, window, b, asset, walletId, checks[..n]),
              asset, walletId, checks[n].ok, checks[n].at)
  }

  /** The checks follow each other and all see the demand of the first moment. */
  ghost predicate SameDemand(window: Time, ops: seq<Op>, asset: string, from: Time, checks: seq<LoopCheck>) {
    && (forall i :: 0 <= i < |checks| ==>
          && from <= checks[i].at
          && WindowDemand(window, ops, asset, checks[i].at) == WindowDemand(window, ops, asset, from))
    && (forall i, j :: 0 <= i < j < |checks| ==> checks[i].at <= checks[j].at)
  }

  function LastTime(from: Time, checks: seq<LoopCheck>): Time {
    if checks == [] then from else checks[|checks| - 1].at
  }

  function Times(n: nat, x: Decimal): Decimal {
    if n == 0 then 0.0 else Times(n - 1, x) + x
  }

  lemma {:induction false} ChecksAdd(
    cfg: Config, window: Time, b: Books, asset: string, walletId: string, from: Time, checks: seq<LoopCheck>)
    requires Current(b.ops, asset, from) && SameDemand(window, b.ops, asset, from, checks)
    ensures var b' := CheckedAll(cfg, window, b, asset, walletId, checks);
            && Current(b'.ops, asset, LastTime(from, checks)) && SameSums(b.ops, b'.ops, asset)
            && RowTotal(b'.funding) == RowTotal(b.funding)
               + Times(|checks|, Added(HotWalletTargetFor(cfg, asset), WindowDemand(window, b.ops, asset, from)))
  {
    hide Checked, Observed;
    if checks != [] {
      var n := |checks| - 1;
      ChecksAdd(cfg, window, b, asset, walletId, from, checks[..n]);
      var b1 := CheckedAll(cfg, window, b, asset, walletId, checks[..n]);
      CurrentLater(b1.ops, asset, LastTime(from, checks[..n]), checks[n].at);
      CheckKeepsDemand(cfg, window, b1, asset, walletId, checks[n].ok, checks[n].at, checks[n].at);
      CheckAdds(cfg, window, b1, asset, walletId, checks[n].ok, checks[n].at);
    }
  }

  lemma CurrentLater(ops: seq<Op>, asset: string, now: Time, later: Time)
    requires Current(ops, asset, now) && now <= later
    ensures Current(ops, asset, later)
  {
  }

  /** Adding an amount n times stays within a whole exactly when the amount is that large only once. */
  lemma {:induction false} TimesBounds(n: nat, x: Decimal, over: Decimal)
    requires 0.0 < x <= over && (x == over || x == MAX_FUNDING_AMOUNT)
    requires x == over ==> over <= MAX_FUNDING_AMOUNT
    ensures n >= 2 ==> (Times(n, x) <= over <==> over >= Times(n, MAX_FUNDING_AMOUNT))
    ensures n >= 2 && x < MAX_FUNDING_AMOUNT ==> Times(n, x) > over && over < Times(n, MAX_FUNDING_AMOUNT)
    ensures Times(n, x) >= 0.0 && Times(n, MAX_FUNDING_AMOUNT) >= Times(n, x)
  {
    if n > 0 {
      TimesBounds(n - 1, x, over);
      assert Times(1, x) == x && Times(1, MAX_FUNDING_AMOUNT) == MAX_FUNDING_AMOUNT;
    }
  }

  /** The loop forgets what it has requested. Any number of checks over one window, two or more, stay within the
      shortfall exactly when there is none, or when it is at least that many times the ceiling. */
  lemma RepeatedChecksOverfund(
    cfg: Config, window: Time, b: Books, asset: string, walletId: string, from: Time, checks: seq<LoopCheck>)
    requires Current(b.ops, asset, from) && SameDemand(window, b.ops, asset, from, checks) && |checks| >= 2
    ensures var target, demand := HotWalletTargetFor(cfg, asset), WindowDemand(window, b.ops, asset, from);
            var b' := CheckedAll(cfg, window, b, asset, walletId, checks);
            var requested := RowTotal(b'.funding) - RowTotal(b.funding);
            var shortfall := if demand > target then demand - target else 0.0;
            requested <= shortfall <==>
              target <= 0.0 || demand <= target || demand - target >= Times(|checks|, MAX_FUNDING_AMOUNT)
  {
    ChecksAdd(cfg, window, b, asset, walletId, from, checks);
    var target, demand := HotWalletTargetFor(cfg, asset), WindowDemand(window, b.ops, asset, from);
    if target > 0.0 && demand > target {
      TimesBounds(|checks|, Added(target, demand), demand - target);
    } else {
      TimesZero(|checks|);
    }
  }

  lemma {:induction false} TimesZero(n: nat)
    ensures Times(n, 0.0) == 0.0
  {
    if n > 0 {
      TimesZero(n - 1);
    }
  }

  // --- Runs ---

  datatype Action =
    | Observation(asset: string, x: Sample)
    | Fund(walletId: string, asset: string, amount: Decimal, source: string, ok: bool)
    | Job(fromRef: string, toRef: string, asset: string, amount: Decimal, reason: string, ok: bool)
    | Check(asset: string, walletId: string, ok: bool)

  datatype Timed = Timed(at: Time, act: Action)

  function Step(cfg: Config, window: Time, b: Books, t: Timed): Books {
    match t.act
    case Observation(asset, x) => b.(ops := b.ops + [Op.Observe(asset, x)])
    case Fund(walletId, asset, amount, source, ok) => Requested(b, walletId, asset, amount, source, ok, t.at)
    case Job(fromRef, toRef, asset, amount, reason, ok) =>
      Rebalanced(b, fromRef, toRef, asset, amount, reason, ok, t.at)
    case Check(asset, walletId, ok) => Checked(cfg, window, b, asset, walletId, ok, t.at)
  }

  function Run(cfg: Config, window: Time, acts: seq<Timed>): Books {
    if acts == [] then START else Step(cfg, window, Run(cfg, window, acts[..|acts| - 1]), acts[|acts| - 1])
  }

  function MovedTotal(moves: seq<Move>): Decimal {
    if moves == [] then 0.0
    else MovedTotal(moves[..|moves| - 1]) + if moves[|moves| - 1].ok then moves[|moves| - 1].amount else 0.0
  }

  function FundedTotal(rows: seq<FundingRequest>): Decimal {
    if rows == [] then 0.0
    else FundedTotal(rows[..|rows| - 1])
         + if rows[|rows| - 1].status == MoveCompleted then rows[|rows| - 1].amount else 0.0
  }

  function JobTotal(rows: seq<RebalancingJob>): Decimal {
    if rows == [] then 0.0
    else JobTotal(rows[..|rows| - 1])
         + if rows[|rows| - 1].status == MoveCompleted then rows[|rows| - 1].amount else 0.0
  }

  ghost predicate RowsOk(b: Books) {
    && (forall i :: 0 <= i < |b.funding| ==>
          var r := b.funding[i];
          && r.id == i && 0.0 < r.amount <= 10_000_000.0
          && r.status in {MoveCompleted, MoveRejected} && r.completedAt.Some?)
    && (forall i :: 0 <= i < |b.jobs| ==>
          var r := b.jobs[i];
          && r.id == i && 0.0 < r.amount <= 10_000_000.0
          && r.status in {MoveCompleted, MoveRejected} && r.completedAt.Some?)
  }

  /** Every move belongs to a row of its own, which records its amount and outcome. */
  ghost predicate MovesOk(b: Books) {
    && (forall i :: 0 <= i < |b.moves| ==> Recorded(b, b.moves[i]))
    && (forall i, j :: 0 <= i < j < |b.moves| ==> b.moves[i].key != b.moves[j].key)
    && |b.moves| == |b.funding| + |b.jobs|
    && MovedTotal(b.moves) == FundedTotal(b.funding) + JobTotal(b.jobs)
  }

  /** The move carries out the funding request: into its wallet, out of its source. */
  ghost predicate ByFunding(b: Books, m: Move, k: nat) {
    && k < |b.funding| && m.key == "fund:" + IdText(k)
    && m.walletId == b.funding[k].walletId && m.source == b.funding[k].sourceVenue
    && m.asset == b.funding[k].asset && m.amount == b.funding[k].amount
    && b.funding[k].status == (if m.ok then MoveCompleted else MoveRejected)
  }

  /** The move carries out the job: to where it leads, out of where it comes from. */
  ghost predicate ByJob(b: Books, m: Move, k: nat) {
    && k < |b.jobs| && m.key == "rebal:" + IdText(k)
    && m.walletId == b.jobs[k].toRef && m.source == b.jobs[k].fromRef
    && m.asset == b.jobs[k].asset && m.amount == b.jobs[k].amount
    && b.jobs[k].status == (if m.ok then MoveCompleted else MoveRejected)
  }

  ghost predicate Recorded(b: Books, m: Move) {
    (exists k: nat :: ByFunding(b, m, k)) || (exists k: nat :: ByJob(b, m, k))
  }

  /** The row an outbox entry announces. */
  datatype Source = FundingRow(k: nat) | JobRow(k: nat)

  function KeyOf(src: Source): string {
    match src
    case FundingRow(k) => Ledger.Key(AggFunding, EvFunding, IdText(k))
    case JobRow(k) => Ledger.Key(AggRebalance, EvRebalance, IdText(k))
  }

  predicate Exists(b: Books, src: Source) {
    match src
    case FundingRow(k) => k < |b.funding|
    case JobRow(k) => k < |b.jobs|
  }

  function PayloadOf(b: Books, src: Source): Payload
    requires Exists(b, src)
  {
    match src
    case FundingRow(k) => FundingPayload(b.funding[k].asset, b.funding[k].amount)
    case JobRow(k) => RebalancePayload(b.jobs[k].asset, b.jobs[k].amount)
  }

  ghost predicate EntryFor(b: Books, e: OutboxEntry, src: Source) {
    && Exists(b, src) && e.dedupKey == KeyOf(src)
    && match src
       case FundingRow(k) =>
         e.payload == Payload(AggFunding, EvFunding, None, b.funding[k].amount, b.funding[k].asset, "", "")
       case JobRow(k) =>
         e.payload == Payload(AggRebalance, EvRebalance, None, b.jobs[k].amount, b.jobs[k].asset, "", "")
  }

  ghost predicate Announced(b: Books, src: Source) {
    exists i :: 0 <= i < |b.outbox| && EntryFor(b, b.outbox[i], src)
  }

  ghost predicate Sourced(b: Books, e: OutboxEntry) {
    exists src :: EntryFor(b, e, src)
  }

  ghost predicate Keyed(b: Books, key: string) {
    exists src :: Exists(b, src) && key == KeyOf(src)
  }

  /** The outbox holds one entry per row, with that row's key and content, and nothing else. */
  ghost predicate Audited(b: Books) {
    && |b.outbox| == |b.funding| + |b.jobs|
    && (forall src :: Exists(b, src) ==> Announced(b, src))
    && (forall i :: 0 <= i < |b.outbox| ==> Sourced(b, b.outbox[i]))
    && (forall i, j :: 0 <= i < j < |b.outbox| ==> b.outbox[i].dedupKey != b.outbox[j].dedupKey)
    && (forall key :: key in b.outboxSeen ==> Keyed(b, key))
  }

  lemma KeyOfInjective(s: Source, t: Source)
    requires KeyOf(s) == KeyOf(t)
    ensures s == t
  {
    var a, e := if s.FundingRow? then AggFunding else AggRebalance, if s.FundingRow? then EvFunding else EvRebalance;
    var a', e' := if t.FundingRow? then AggFunding else AggRebalance, if t.FundingRow? then EvFunding else EvRebalance;
    Ledger.KeyInjective(a, e, s.k, a', e', t.k);
  }

  /** One row and its entry were added. */
  ghost predicate EntryAdded(b: Books, b': Books, src: Source) {
    && !Exists(b, src) && Exists(b', src)
    && b.funding <= b'.funding && b.jobs <= b'.jobs && |b'.funding| + |b'.jobs| == |b.funding| + |b.jobs| + 1
    && b'.outbox == Ledger.Appended(b.outbox, b.outboxSeen, KeyOf(src), PayloadOf(b', src))
    && b'.outboxSeen == b.outboxSeen + {KeyOf(src)}
  }

  lemma OldOrNew(b: Books, b': Books, src: Source, t: Source)
    requires EntryAdded(b, b', src) && Exists(b', t)
    ensures t == src || (Exists(b, t) && PayloadOf(b, t) == PayloadOf(b', t))
  {
  }

  lemma EntryKept(b: Books, b': Books, src: Source, e: OutboxEntry, t: Source)
    requires EntryAdded(b, b', src) && EntryFor(b, e, t)
    ensures EntryFor(b', e, t) && e.dedupKey != KeyOf(src)
  {
    hide KeyOf;
    if KeyOf(t) == KeyOf(src) {
      KeyOfInjective(t, src);
    }
  }

  lemma SourceOf(b: Books, i: nat) returns (src: Source)
    requires Audited(b) && i < |b.outbox|
    ensures EntryFor(b, b.outbox[i], src)
  {
    assert Sourced(b, b.outbox[i]);
    src :| EntryFor(b, b.outbox[i], src);
  }

  lemma AuditGrows(b: Books, b': Books, src: Source)
    requires Audited(b) && EntryAdded(b, b', src)
    ensures Audited(b')
  {
    hide KeyOf, Announced;
    var key, n := KeyOf(src), |b.outbox|;
    if key in b.outboxSeen {
      assert Keyed(b, key);
      var t :| Exists(b, t) && key == KeyOf(t);
      KeyOfInjective(src, t);
      assert false;
    }
    assert b'.outbox == b.outbox + [OutboxEntry(n, key, PayloadOf(b', src), None)];
    forall i | 0 <= i < n
      ensures Sourced(b', b'.outbox[i]) && b'.outbox[i].dedupKey != key
    {
      var t := SourceOf(b, i);
      EntryKept(b, b', src, b.outbox[i], t);
      assert EntryFor(b', b'.outbox[i], t);
    }
    assert EntryFor(b', b'.outbox[n], src);
    forall t | Exists(b', t)
      ensures Announced(b', t)
    {
      AnnouncedStays(b, b', src, t);
    }
    forall k | k in b'.outboxSeen
      ensures Keyed(b', k)
    {
      if k != key {
        assert Keyed(b, k);
        var t :| Exists(b, t) && k == KeyOf(t);
        assert Exists(b', t);
      }
    }
  }

  lemma AnnouncedStays(b: Books, b': Books, src: Source, t: Source)
    requires EntryAdded(b, b', src)
    requires b'.outbox == b.outbox + [OutboxEntry(|b.outbox|, KeyOf(src), PayloadOf(b', src), None)]
    requires Exists(b', t) && (Exists(b, t) ==> Announced(b, t))
    ensures Announced(b', t)
  {
    hide KeyOf;
    OldOrNew(b, b', src, t);
    if t == src {
      assert EntryFor(b', b'.outbox[|b.outbox|], src);
    } else {
      var i :| 0 <= i < |b.outbox| && EntryFor(b, b.outbox[i], t);
      EntryKept(b, b', src, b.outbox[i], t);
      assert EntryFor(b', b'.outbox[i], t);
    }
  }

  lemma MoveKeysApart(k: nat, n: nat)
    ensures FundKey(k) != RebalanceKey(n)
    ensures FundKey(k) == FundKey(n) ==> k == n
    ensures RebalanceKey(k) == RebalanceKey(n) ==> k == n
  {
    assert FundKey(k)[0] == 'f' && RebalanceKey(n)[0] == 'r';
    if FundKey(k) == FundKey(n) {
      assert FundKey(k)[5..] == IdText(k) && FundKey(n)[5..] == IdText(n);
      IdTextInjective(k, n);
    }
    if RebalanceKey(k) == RebalanceKey(n) {
      assert RebalanceKey(k)[6..] == IdText(k) && RebalanceKey(n)[6..] == IdText(n);
      IdTextInjective(k, n);
    }
  }

  lemma RecordedStays(b: Books, b': Books, m: Move)
    requires b.funding <= b'.funding && b.jobs <= b'.jobs && Recorded(b, m)
    ensures Recorded(b', m)
  {
    if k: nat :| ByFunding(b, m, k) {
      assert ByFunding(b', m, k);
    } else {
      var k: nat :| ByJob(b, m, k);
      assert ByJob(b', m, k);
    }
  }

  /** A key minted for a new row was never used before. */
  lemma MintedKeyIsNew(b: Books, m: Move)
    requires Recorded(b, m)
    ensures m.key != FundKey(|b.funding|) && m.key != RebalanceKey(|b.jobs|)
  {
    if k: nat :| ByFunding(b, m, k) {
      MoveKeysApart(k, |b.funding|);
      MoveKeysApart(k, |b.jobs|);
    } else {
      var k: nat :| ByJob(b, m, k);
      MoveKeysApart(|b.funding|, k);
      MoveKeysApart(|b.jobs|, k);
    }
  }

  lemma MoveAdded(b: Books, b': Books, m: Move)
    requires MovesOk(b) && b.funding <= b'.funding && b.jobs <= b'.jobs && b'.moves == b.moves + [m]
    requires |b'.funding| + |b'.jobs| == |b.funding| + |b.jobs| + 1
    requires Recorded(b', m) && (m.key == FundKey(|b.funding|) || m.key == RebalanceKey(|b.jobs|))
    requires FundedTotal(b'.funding) + JobTotal(b'.jobs)
          == FundedTotal(b.funding) + JobTotal(b.jobs) + if m.ok then m.amount else 0.0
    ensures MovesOk(b')
  {
    var n := |b.moves|;
    assert b'.moves[..n] == b.moves;
    forall i | 0 <= i < n
      ensures Recorded(b', b'.moves[i]) && b'.moves[i].key != m.key
    {
      assert b'.moves[i] == b.moves[i];
      RecordedStays(b, b', b.moves[i]);
      MintedKeyIsNew(b, b.moves[i]);
    }
  }

  /** What a new row brings with it. */
  ghost predicate RowAdded(b: Books, b': Books, m: Move) {
    && b.funding <= b'.funding && b.jobs <= b'.jobs && b'.moves == b.moves + [m]
    && WithinPolicy(m.amount)
  }

  ghost predicate FundingAdded(b: Books, b': Books, m: Move) {
    var n := |b.funding|;
    && RowAdded(b, b', m) && b'.jobs == b.jobs && |b'.funding| == n + 1
    && b'.funding[n].id == n && b'.funding[n].completedAt.Some? && ByFunding(b', m, n)
    && EntryAdded(b, b', FundingRow(n))
  }

  ghost predicate JobAdded(b: Books, b': Books, m: Move) {
    var n := |b.jobs|;
    && RowAdded(b, b', m) && b'.funding == b.funding && |b'.jobs| == n + 1
    && b'.jobs[n].id == n && b'.jobs[n].completedAt.Some? && ByJob(b', m, n)
    && EntryAdded(b, b', JobRow(n))
  }

  lemma FundingAddedKeeps(b: Books, b': Books, m: Move)
    requires RowsOk(b) && MovesOk(b) && Audited(b) && FundingAdded(b, b', m)
    ensures RowsOk(b') && MovesOk(b') && Audited(b')
  {
    hide RowsOk, MovesOk, Audited;
    FundingRowsKeep(b, b', m);
    FundingMovesKeep(b, b', m);
    AuditGrows(b, b', FundingRow(|b.funding|));
  }

  lemma FundingRowsKeep(b: Books, b': Books, m: Move)
    requires RowsOk(b) && FundingAdded(b, b', m)
    ensures RowsOk(b')
  {
  }

  lemma FundingMovesKeep(b: Books, b': Books, m: Move)
    requires MovesOk(b) && FundingAdded(b, b', m)
    ensures MovesOk(b')
  {
    FundingTotalGrows(b, b', m);
    MoveAdded(b, b', m);
  }

  lemma FundingTotalGrows(b: Books, b': Books, m: Move)
    requires FundingAdded(b, b', m)
    ensures FundedTotal(b'.funding) == FundedTotal(b.funding) + if m.ok then m.amount else 0.0
    ensures Recorded(b', m)
  {
    assert b'.funding[..|b.funding|] == b.funding;
  }

  lemma JobAddedKeeps(b: Books, b': Books, m: Move)
    requires RowsOk(b) && MovesOk(b) && Audited(b) && JobAdded(b, b', m)
    ensures RowsOk(b') && MovesOk(b') && Audited(b')
  {
    hide RowsOk, MovesOk, Audited;
    JobRowsKeep(b, b', m);
    JobMovesKeep(b, b', m);
    AuditGrows(b, b', JobRow(|b.jobs|));
  }

  lemma JobRowsKeep(b: Books, b': Books, m: Move)
    requires RowsOk(b) && JobAdded(b, b', m)
    ensures RowsOk(b')
  {
  }

  lemma JobMovesKeep(b: Books, b': Books, m: Move)
    requires MovesOk(b) && JobAdded(b, b', m)
    ensures MovesOk(b')
  {
    JobTotalGrows(b, b', m);
    MoveAdded(b, b', m);
  }

  lemma JobTotalGrows(b: Books, b': Books, m: Move)
    requires JobAdded(b, b', m)
    ensures JobTotal(b'.jobs) == JobTotal(b.jobs) + if m.ok then m.amount else 0.0
    ensures Recorded(b', m)
  {
    assert b'.jobs[..|b.jobs|] == b.jobs;
  }

  lemma RequestKeeps(b: Books, walletId: string, asset: string, amount: Decimal, source: string, ok: bool, now: Time)
    requires RowsOk(b) && MovesOk(b) && Audited(b) && WithinPolicy(amount)
    ensures var b' := Requested(b, walletId, asset, amount, source, ok, now); RowsOk(b') && MovesOk(b') && Audited(b')
  {
    var b' := Requested(b, walletId, asset, amount, source, ok, now);
    RequestAdds(b, walletId, asset, amount, source, ok, now);
    FundingAddedKeeps(b, b', b'.moves[|b.moves|]);
  }

  lemma RequestAdds(b: Books, walletId: string, asset: string, amount: Decimal, source: string, ok: bool, now: Time)
    requires WithinPolicy(amount)
    ensures var b' := Requested(b, walletId, asset, amount, source, ok, now);
            |b'.moves| == |b.moves| + 1 && FundingAdded(b, b', b'.moves[|b.moves|])
  {
  }

  lemma JobKeeps(
      b: Books, fromRef: string, toRef: string, asset: string, amount: Decimal, reason: string, ok: bool, now: Time)
    requires RowsOk(b) && MovesOk(b) && Audited(b) && WithinPolicy(amount)
    ensures var b' := Rebalanced(b, fromRef, toRef, asset, amount, reason, ok, now);
            RowsOk(b') && MovesOk(b') && Audited(b')
  {
    var b' := Rebalanced(b, fromRef, toRef, asset, amount, reason, ok, now);
    JobAdds(b, fromRef, toRef, asset, amount, reason, ok, now);
    JobAddedKeeps(b, b', b'.moves[|b.moves|]);
  }

  lemma JobAdds(
      b: Books, fromRef: string, toRef: string, asset: string, amount: Decimal, reason: string, ok: bool, now: Time)
    requires WithinPolicy(amount)
    ensures var b' := Rebalanced(b, fromRef, toRef, asset, amount, reason, ok, now);
            |b'.moves| == |b.moves| + 1 && JobAdded(b, b', b'.moves[|b.moves|])
  {
  }

  lemma QueryKeeps(b: Books, ops: seq<Op>)
    requires RowsOk(b) && MovesOk(b) && Audited(b)
    ensures RowsOk(b.(ops := ops)) && MovesOk(b.(ops := ops)) && Audited(b.(ops := ops))
  {
    var b' := b.(ops := ops);
    SameAudit(b, b');
    forall i | 0 <= i < |b.moves|
      ensures Recorded(b', b'.moves[i])
    {
      RecordedStays(b, b', b.moves[i]);
    }
  }

  lemma SameEntry(b: Books, b': Books, e: OutboxEntry, src: Source)
    requires b' == b.(ops := b'.ops)
    ensures EntryFor(b', e, src) <==> EntryFor(b, e, src)
  {
    hide KeyOf;
  }

  lemma SameAudit(b: Books, b': Books)
    requires Audited(b) && b' == b.(ops := b'.ops)
    ensures Audited(b')
  {
    hide KeyOf, EntryFor;
    forall src | Exists(b', src)
      ensures Announced(b', src)
    {
      assert Announced(b, src);
      var i :| 0 <= i < |b.outbox| && EntryFor(b, b.outbox[i], src);
      SameEntry(b, b', b.outbox[i], src);
    }
    forall i | 0 <= i < |b'.outbox|
      ensures Sourced(b', b'.outbox[i])
    {
      var src := SourceOf(b, i);
      SameEntry(b, b', b.outbox[i], src);
    }
    forall key | key in b'.outboxSeen
      ensures Keyed(b', key)
    {
      assert Keyed(b, key);
      var src :| Exists(b, src) && key == KeyOf(src);
      assert Exists(b', src);
    }
  }

  ghost predicate BooksOk(b: Books) {
    RowsOk(b) && MovesOk(b) && Audited(b)
  }

  /** Over every run: each row is within policy and finished, each move has a row and a key of its own, the amounts
      moved are the amounts completed, and each row is in the outbox. */
  lemma {:induction false} FundingBooksBalance(cfg: Config, window: Time, acts: seq<Timed>)
    ensures BooksOk(Run(cfg, window, acts))
  {
    hide Step;
    if acts != [] {
      FundingBooksBalance(cfg, window, acts[..|acts| - 1]);
      StepBalances(cfg, window, Run(cfg, window, acts[..|acts| - 1]), acts[|acts| - 1]);
    }
  }

  lemma StepBalances(cfg: Config, window: Time, b: Books, t: Timed)
    requires BooksOk(b)
    ensures BooksOk(Step(cfg, window, b, t))
  {
    hide RowsOk, MovesOk, Audited, Checked;
    match t.act {
      case Observation(asset, x) => QueryKeeps(b, b.ops + [Op.Observe(asset, x)]);
      case Fund(walletId, asset, amount, source, ok) =>
        if WithinPolicy(amount) {
          RequestKeeps(b, walletId, asset, amount, source, ok, t.at);
        }
      case Job(fromRef, toRef, asset, amount, reason, ok) =>
        if WithinPolicy(amount) {
          JobKeeps(b, fromRef, toRef, asset, amount, reason, ok, t.at);
        }
      case Check(asset, walletId, ok) => CheckKeeps(cfg, window, b, asset, walletId, ok, t.at);
    }
  }

  lemma CheckKeeps(cfg: Config, window: Time, b: Books, asset: string, walletId: string, ok: bool, now: Time)
    requires RowsOk(b) && MovesOk(b) && Audited(b)
    ensures var b' := Checked(cfg, window, b, asset, walletId, ok, now); RowsOk(b') && MovesOk(b') && Audited(b')
  {
    hide Requested;
    var b1 := b.(ops := b.ops + [Query(asset, now)]);
    QueryKeeps(b, b1.ops);
    var amount := TopUp(HotWalletTargetFor(cfg, asset), DemandAfter(window, b.ops, asset, now));
    if amount.Some? {
      RequestKeeps(b1, walletId, asset, amount.value, LOOP_SOURCE, ok, now);
    }
  }
}
