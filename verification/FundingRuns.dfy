/** The funding rows, jobs and moves of a run are the accepted requests, in order, field by field. */
module FundingRuns {
  import opened Base
  import opened Configuration
  import opened Funding
  import opened Projection

  /** An accepted request: capital for one wallet or venue, out of another. */
  datatype Wanted = Wanted(
    job: bool, to: string, from: string, asset: string, amount: Decimal, reason: string, ok: bool, at: Time)

  /** What an action asks for: a funding request or a job with an amount in (0, 10000000], or the capped shortfall of a
      check on a configured target. */
  function AskedBy(cfg: Config, window: Time, ops: seq<Op>, t: Timed): Option<Wanted> {
    match t.act
    case Observation(_, _) => None
    case Fund(walletId, asset, amount, source, ok) =>
      if 0.0 < amount <= 10_000_000.0 then Some(Wanted(false, walletId, source, asset, amount, "", ok, t.at)) else None
    case Job(fromRef, toRef, asset, amount, reason, ok) =>
      if 0.0 < amount <= 10_000_000.0 then Some(Wanted(true, toRef, fromRef, asset, amount, reason, ok, t.at)) else None
    case Check(asset, walletId, ok) =>
      var target, demand := HotWalletTargetFor(cfg, asset), DemandAfter(window, ops, asset, t.at);
      if target <= 0.0 || demand <= target then None
      else
        var amount := if demand - target > 10_000_000.0 then 10_000_000.0 else demand - target;
        Some(Wanted(false, walletId, "rebalance-loop", asset, amount, "", ok, t.at))
  }

  /** The accepted requests of a run, in order. */
  function Asked(cfg: Config, window: Time, acts: seq<Timed>): seq<Wanted> {
    if acts == [] then []
    else
      var n := |acts| - 1;
      Asked(cfg, window, acts[..n])
      + match AskedBy(cfg, window, Run(cfg, window, acts[..n]).ops, acts[n])
        case None => []
        case Some(x) => [x]
  }

  function OfKind(asked: seq<Wanted>, job: bool): seq<Wanted> {
    if asked == [] then []
    else OfKind(asked[..|asked| - 1], job) + if asked[|asked| - 1].job == job then [asked[|asked| - 1]] else []
  }

  ghost predicate RowIs(r: FundingRequest, x: Wanted) {
    && r.walletId == x.to && r.sourceVenue == x.from && r.asset == x.asset && r.amount == x.amount
    && r.status == (if x.ok then MoveCompleted else MoveRejected) && r.completedAt == Some(x.at)
  }

  ghost predicate JobIs(j: RebalancingJob, x: Wanted) {
    && j.toRef == x.to && j.fromRef == x.from && j.asset == x.asset && j.amount == x.amount && j.reason == x.reason
    && j.status == (if x.ok then MoveCompleted else MoveRejected) && j.completedAt == Some(x.at)
  }

  ghost predicate MoveIs(m: Move, x: Wanted) {
    m.walletId == x.to && m.source == x.from && m.asset == x.asset && m.amount == x.amount && m.ok == x.ok
  }

  ghost predicate CarriedOut(b: Books, asked: seq<Wanted>) {
    var funding, jobs := OfKind(asked, false), OfKind(asked, true);
    && |b.funding| == |funding| && (forall i :: 0 <= i < |funding| ==> RowIs(b.funding[i], funding[i]))
    && |b.jobs| == |jobs| && (forall i :: 0 <= i < |jobs| ==> JobIs(b.jobs[i], jobs[i]))
    && |b.moves| == |asked| && (forall i :: 0 <= i < |asked| ==> MoveIs(b.moves[i], asked[i]))
  }

  /** A request adds its row or its job, and its move. */
  ghost predicate Fulfilled(b: Books, b': Books, x: Wanted) {
    && |b'.moves| == |b.moves| + 1 && b.moves <= b'.moves && MoveIs(b'.moves[|b.moves|], x)
    && if x.job
       then b'.funding == b.funding && |b'.jobs| == |b.jobs| + 1 && b.jobs <= b'.jobs && JobIs(b'.jobs[|b.jobs|], x)
       else b'.jobs == b.jobs && |b'.funding| == |b.funding| + 1 && b.funding <= b'.funding
            && RowIs(b'.funding[|b.funding|], x)
  }

  lemma StepFulfils(cfg: Config, window: Time, b: Books, t: Timed)
    ensures match AskedBy(cfg, window, b.ops, t)
            case Some(x) => Fulfilled(b, Step(cfg, window, b, t), x)
            case None =>
              var b' := Step(cfg, window, b, t);
              b'.funding == b.funding && b'.jobs == b.jobs && b'.moves == b.moves
  {
    hide DemandAfter, HotWalletTargetFor, FundKey, RebalanceKey;
  }

  lemma FulfilledExtends(b: Books, b': Books, asked: seq<Wanted>, x: Wanted)
    requires CarriedOut(b, asked) && Fulfilled(b, b', x)
    ensures CarriedOut(b', asked + [x])
  {
    assert (asked + [x])[..|asked|] == asked;
  }

  /** Over every run the funding rows, the jobs and the moves are the accepted requests, each in order: a job's move
      leads to its toRef out of its fromRef, a funding request's to its wallet out of its source. */
  lemma {:induction false} RequestsCarriedOut(cfg: Config, window: Time, acts: seq<Timed>)
    ensures CarriedOut(Run(cfg, window, acts), Asked(cfg, window, acts))
  {
    hide Step, AskedBy, CarriedOut, Fulfilled;
    if acts == [] {
      NothingAsked();
    } else {
      var n := |acts| - 1;
      var b := Run(cfg, window, acts[..n]);
      RequestsCarriedOut(cfg, window, acts[..n]);
      StepFulfils(cfg, window, b, acts[n]);
      match AskedBy(cfg, window, b.ops, acts[n]) {
        case Some(x) => FulfilledExtends(b, Run(cfg, window, acts), Asked(cfg, window, acts[..n]), x);
        case None =>
          Unchanged(b, Run(cfg, window, acts), Asked(cfg, window, acts[..n]));
          assert Asked(cfg, window, acts) == Asked(cfg, window, acts[..n]);
      }
    }
  }

  lemma Unchanged(b: Books, b': Books, asked: seq<Wanted>)
    requires CarriedOut(b, asked) && b'.funding == b.funding && b'.jobs == b.jobs && b'.moves == b.moves
    ensures CarriedOut(b', asked)
  {
  }

  lemma NothingAsked()
    ensures CarriedOut(START, [])
  {
  }
}
