/** The float tracker over the in-memory float store. */
module FloatTracker {
  import opened Base
  import opened Records
  import opened Configuration
  import opened FloatTable
  import Ledger

  /** The position one fill adds; it falls due after the currency's settlement days. */
  function FillPosition(cfg: Config, o: AggregateOrder, fiat: string, asset: string, now: Time): FloatPosition {
    FloatPosition(0, fiat, o.notionalUSD, o.totalFilled, asset,
                  Some(now + SettlementDaysFor(cfg, fiat) * DAY), false, Some(o.batchId))
  }

  function AdjustPayload(batchId: nat, notional: Decimal, fiat: string): Payload {
    Payload(AggFloat, EvFloatAdjust, Some(batchId), notional, "", fiat, "")
  }

  class Tracker {
    const cfg: Config
    const floats: FloatStore
    const emitter: Ledger.Emitter

    constructor (cfg: Config, floats: FloatStore, emitter: Ledger.Emitter)
      ensures this.cfg == cfg && this.floats == floats && this.emitter == emitter
    {
      this.cfg, this.floats, this.emitter := cfg, floats, emitter;
    }

    method OnAggregateFill(o: AggregateOrder, fiat: string, asset: string, now: Time)
      requires floats.Valid() && emitter.outbox.Valid()
      modifies floats, emitter.outbox
      ensures floats.Valid() && emitter.outbox.Valid()
      ensures floats.rows == Added(old(floats.rows), FillPosition(cfg, o, fiat, asset, now))
      ensures var key := Ledger.Key(AggFloat, EvFloatAdjust, IdText(o.batchId));
              && emitter.outbox.rows == Ledger.Appended(old(emitter.outbox.rows), old(emitter.outbox.seen), key,
                                                        AdjustPayload(o.batchId, o.notionalUSD, fiat))
              && emitter.outbox.seen == old(emitter.outbox.seen) + {key}
    {
      var days := SettlementDaysFor(cfg, fiat);
      floats.AddFloat(FloatPosition(0, fiat, o.notionalUSD, o.totalFilled, asset,
                                    Some(now + days * DAY), false, Some(o.batchId)));
      emitter.Append(AggFloat, EvFloatAdjust, Ledger.Key(AggFloat, EvFloatAdjust, IdText(o.batchId)),
                     AdjustPayload(o.batchId, o.notionalUSD, fiat));
    }

    method SweepMatured(now: Time) returns (swept: nat)
      requires floats.Valid()
      modifies floats
      ensures floats.Valid() && floats.rows == Swept(old(floats.rows), now)
      ensures |floats.rows| == |old(floats.rows)|
      ensures forall i :: 0 <= i < |floats.rows| ==>
        var r := old(floats.rows)[i];
        floats.rows[i] == r.(settled := r.settled || (r.settlementDueAt.Some? && r.settlementDueAt.value <= now))
      ensures swept == |DueRows(old(floats.rows), now)|
    {
      hide MaturedRows;
      ghost var rows := floats.rows;
      var matured := floats.ListMaturedFloat(now);
      swept := 0;
      for j := 0 to |matured|
        invariant floats.Valid() && |floats.rows| == |rows| && swept == j
        invariant forall i :: 0 <= i < |rows| ==>
          floats.rows[i] == if rows[i] in matured[..j] then rows[i].(settled := true) else rows[i]
      {
        assert matured[j] in matured;
        assert matured[..j + 1] == matured[..j] + [matured[j]];
        var found := floats.SettleFloat(matured[j].id);
        if !found {
          assert false;
        }
        swept := swept + 1;
      }
      assert matured[..|matured|] == matured;
      assert floats.rows == Swept(rows, now);
      MaturedAreDue(rows, now);
      forall i | 0 <= i < |rows|
        ensures var r := rows[i];
                floats.rows[i]
                == r.(settled := r.settled || (r.settlementDueAt.Some? && r.settlementDueAt.value <= now))
      {
        SweepSettlesDue(rows, now, i);
      }
    }
  }

  lemma {:induction false} MaturedInOrder(rows: seq<FloatPosition>, now: Time)
    requires forall i :: 0 <= i < |rows| ==> rows[i].id == i
    ensures var m := MaturedRows(rows, now); forall i, j :: 0 <= i < j < |m| ==> m[i].id < m[j].id
  {
    if rows != [] {
      var rest := rows[..|rows| - 1];
      MaturedInOrder(rest, now);
      forall i | 0 <= i < |MaturedRows(rest, now)|
        ensures MaturedRows(rest, now)[i].id < |rest|
      {
        assert MaturedRows(rest, now)[i] in MaturedRows(rest, now);
      }
    }
  }

  /** A sweep settles at most one row of each currency. */
  lemma SweepsOnePerCurrency(rows: seq<FloatPosition>, now: Time, i: nat, j: nat)
    requires Shaped(rows) && i < j < |MaturedRows(rows, now)|
    ensures var m := MaturedRows(rows, now); m[i].fiatCurrency != m[j].fiatCurrency
  {
    MaturedInOrder(rows, now);
    var m := MaturedRows(rows, now);
    assert m[i] in m && m[j] in m;
  }
}
