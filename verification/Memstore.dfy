/** The in-memory batch, membership and order stores, each specified by functions on its rows. */
module Memstore {
  import opened Base
  import opened Records

  // --- Batch table ---

  predicate OpenFor(b: Batch, assetPair: string) {
    b.assetPair == assetPair && b.status == Open
  }

  /** First row from k on that is OPEN for the pair, or the table length. */
  function FindOpen(rows: seq<Batch>, assetPair: string, k: nat := 0): (i: nat)
    requires k <= |rows|
    ensures k <= i <= |rows|
    ensures forall j :: k <= j < i ==> !OpenFor(rows[j], assetPair)
    ensures i < |rows| ==> OpenFor(rows[i], assetPair)
    decreases |rows| - k
  {
    if k == |rows| || OpenFor(rows[k], assetPair) then k else FindOpen(rows, assetPair, k + 1)
  }

  function NewBatch(id: nat, assetPair: string, now: Time): Batch {
    Batch(id, assetPair, Open, 0.0, now, None)
  }

  function WithOpenBatch(rows: seq<Batch>, assetPair: string, now: Time): seq<Batch> {
    if FindOpen(rows, assetPair) < |rows| then rows else rows + [NewBatch(|rows|, assetPair, now)]
  }

  datatype Update = Missing | Unmatched | Refused | Updated(batch: Batch)

  /** UpdateBatchStatus; the only mutator ever passed sets the notional. */
  function WithStatus(rows: seq<Batch>, id: nat, from: BatchStatus, to: BatchStatus,
                      notional: Option<Decimal>, now: Time): (seq<Batch>, Update)
  {
    if id >= |rows| then (rows, Missing)
    else if rows[id].status != from then (rows, Unmatched)
    else if !CanTransitionTo(from, to) then (rows, Refused)
    else
      var b := rows[id].(
        status := to,
        closedAt := if to == Closed && rows[id].closedAt == None then Some(now) else rows[id].closedAt,
        notionalUSD := if notional.Some? then notional.value else rows[id].notionalUSD);
      (rows[id := b], Updated(b))
  }

  function WithNotional(rows: seq<Batch>, id: nat, notional: Decimal): seq<Batch> {
    if id < |rows| then rows[id := rows[id].(notionalUSD := notional)] else rows
  }

  /** Copies of the OPEN rows; identifiers are time ordered, so sorting them keeps the row order. */
  function OpenRows(rows: seq<Batch>): (open: seq<Batch>)
    ensures forall b :: b in open <==> b in rows && b.status == Open
  {
    if rows == [] then []
    else
      var b := rows[|rows| - 1];
      assert rows == rows[..|rows| - 1] + [b];
      OpenRows(rows[..|rows| - 1]) + if b.status == Open then [b] else []
  }

  class BatchStore {
    var rows: seq<Batch>

    ghost predicate Valid() reads this {
      BatchIds(rows)
    }

    constructor ()
      ensures rows == []
    {
      rows := [];
    }

    method OpenBatch(assetPair: string, now: Time) returns (b: Batch)
      requires Valid()
      modifies this
      ensures Valid()
      ensures rows == WithOpenBatch(old(rows), assetPair, now)
      ensures b == rows[FindOpen(old(rows), assetPair)]
      ensures b.assetPair == assetPair && b.status == Open
      ensures rows == old(rows)
              || (rows == old(rows) + [b] && b == Batch(|old(rows)|, assetPair, Open, 0.0, now, None)
                  && forall i :: 0 <= i < |old(rows)| && old(rows)[i].assetPair == assetPair ==>
                       old(rows)[i].status != Open)
    {
      for i := 0 to |rows|
        invariant unchanged(this)
        invariant FindOpen(rows, assetPair) == FindOpen(rows, assetPair, i)
      {
        if OpenFor(rows[i], assetPair) {
          return rows[i];
        }
      }
      b := NewBatch(|rows|, assetPair, now);
      rows := rows + [b];
    }

    method GetBatch(id: nat) returns (r: Option<Batch>)
      requires Valid()
      ensures r == if id < |rows| then Some(rows[id]) else None
    {
      for i := 0 to |rows|
        invariant id >= i
      {
        if rows[i].id == id {
          return Some(rows[i]);
        }
      }
      return None;
    }

    method ListOpenBatches() returns (open: seq<Batch>)
      requires Valid()
      ensures open == OpenRows(rows)
    {
      open := [];
      for i := 0 to |rows|
        invariant open == OpenRows(rows[..i])
      {
        assert rows[..i + 1][..i] == rows[..i];
        if rows[i].status == Open {
          open := open + [rows[i]];
        }
      }
      assert rows[..|rows|] == rows;
    }

    method UpdateBatchStatus(id: nat, from: BatchStatus, to: BatchStatus, notional: Option<Decimal>, now: Time)
      returns (u: Update)
      requires Valid()
      modifies this
      ensures Valid()
      ensures (rows, u) == WithStatus(old(rows), id, from, to, notional, now)
    {
      for i := 0 to |rows|
        invariant unchanged(this) && id >= i
      {
        if rows[i].id == id {
          var b := rows[i];
          if b.status != from {
            return Unmatched;
          }
          if !CanTransitionTo(from, to) {
            return Refused;
          }
          b := b.(status := to);
          if to == Closed && b.closedAt == None {
            b := b.(closedAt := Some(now));
          }
          if notional.Some? {
            b := b.(notionalUSD := notional.value);
          }
          rows := rows[i := b];
          return Updated(b);
        }
      }
      return Missing;
    }

    method SetBatchNotional(id: nat, notional: Decimal) returns (found: bool)
      requires Valid()
      modifies this
      ensures Valid()
      ensures rows == WithNotional(old(rows), id, notional) && found == (id < |rows|)
    {
      for i := 0 to |rows|
        invariant unchanged(this) && id >= i
      {
        if rows[i].id == id {
          rows := rows[i := rows[i].(notionalUSD := notional)];
          return true;
        }
      }
      return false;
    }
  }

  // --- Membership table ---

  function MembersOf(rows: seq<Membership>, batchId: nat): (members: seq<Membership>)
    ensures forall m :: m in members <==> m in rows && m.batchId == batchId
  {
    if rows == [] then []
    else
      var m := rows[|rows| - 1];
      assert rows == rows[..|rows| - 1] + [m];
      MembersOf(rows[..|rows| - 1], batchId) + if m.batchId == batchId then [m] else []
  }

  /** SumNotional: the notional of the rows that belong to the batch. */
  function SumFor(rows: seq<Membership>, batchId: nat): Decimal {
    if rows == [] then 0.0
    else
      var m := rows[|rows| - 1];
      SumFor(rows[..|rows| - 1], batchId) + if m.batchId == batchId then m.notionalUSD else 0.0
  }

  lemma SumForAppend(rows: seq<Membership>, m: Membership, batchId: nat)
    ensures SumFor(rows + [m], batchId)
         == SumFor(rows, batchId) + if m.batchId == batchId then m.notionalUSD else 0.0
  {
    assert (rows + [m])[..|rows|] == rows;
  }

  lemma SumOfOne(m: Membership)
    ensures SumFor([m], m.batchId) == m.notionalUSD && MembersOf([m], m.batchId) == [m]
  {
    assert [m][..0] == [];
  }

  lemma {:induction false} SumForNobody(rows: seq<Membership>, batchId: nat)
    requires forall m :: m in rows ==> m.batchId != batchId
    ensures SumFor(rows, batchId) == 0.0
  {
    if rows != [] {
      SumForNobody(rows[..|rows| - 1], batchId);
    }
  }

  class MembershipStore {
    var rows: seq<Membership>
    var byTx: set<string>

    constructor ()
      ensures rows == [] && byTx == {}
    {
      rows, byTx := [], {};
    }

    method AddMembership(m: Membership) returns (added: bool)
      modifies this
      ensures added == (m.txId !in old(byTx))
      ensures rows == if added then old(rows) + [m] else old(rows)
      ensures byTx == old(byTx) + {m.txId}
    {
      if m.txId in byTx {
        return false;
      }
      byTx := byTx + {m.txId};
      rows := rows + [m];
      return true;
    }

    method ListMemberships(batchId: nat) returns (members: seq<Membership>)
      ensures members == MembersOf(rows, batchId)
    {
      members := [];
      for i := 0 to |rows|
        invariant members == MembersOf(rows[..i], batchId)
      {
        assert rows[..i + 1][..i] == rows[..i];
        if rows[i].batchId == batchId {
          members := members + [rows[i]];
        }
      }
      assert rows[..|rows|] == rows;
    }

    method SumNotional(batchId: nat) returns (sum: Decimal)
      ensures sum == SumFor(rows, batchId)
    {
      sum := 0.0;
      for i := 0 to |rows|
        invariant sum == SumFor(rows[..i], batchId)
      {
        assert rows[..i + 1][..i] == rows[..i];
        if rows[i].batchId == batchId {
          sum := sum + rows[i].notionalUSD;
        }
      }
      assert rows[..|rows|] == rows;
    }

    method ExistsByTxID(txId: string) returns (exists_: bool)
      ensures exists_ == (txId in byTx)
    {
      return txId in byTx;
    }
  }

  // --- Order table ---

  /** First order from k on of the batch, or the table length. */
  function FindOrder(rows: seq<AggregateOrder>, batchId: nat, k: nat := 0): (i: nat)
    requires k <= |rows|
    ensures k <= i <= |rows|
    ensures forall j :: k <= j < i ==> rows[j].batchId != batchId
    ensures i < |rows| ==> rows[i].batchId == batchId
    decreases |rows| - k
  {
    if k == |rows| || rows[k].batchId == batchId then k else FindOrder(rows, batchId, k + 1)
  }

  predicate HasOrder(rows: seq<AggregateOrder>, batchId: nat) {
    FindOrder(rows, batchId) < |rows|
  }

  function OrderOf(rows: seq<AggregateOrder>, batchId: nat): AggregateOrder
    requires HasOrder(rows, batchId)
  {
    rows[FindOrder(rows, batchId)]
  }

  function NewOrder(id: nat, batchId: nat, assetPair: string, notional: Decimal): AggregateOrder {
    AggregateOrder(id, batchId, assetPair, notional, [], 0.0, 0.0, 0.0, OrderExecuting, None)
  }

  function WithOrder(
      rows: seq<AggregateOrder>, batchId: nat, assetPair: string, notional: Decimal): seq<AggregateOrder> {
    if HasOrder(rows, batchId) then rows else rows + [NewOrder(|rows|, batchId, assetPair, notional)]
  }

  function WithFill(rows: seq<AggregateOrder>, batchId: nat, price: Decimal, total: Decimal,
                    routes: seq<VenueRoute>): seq<AggregateOrder>
  {
    if HasOrder(rows, batchId)
    then rows[FindOrder(rows, batchId) :=
              OrderOf(rows, batchId).(fillPrice := price, totalFilled := total, venueRoutes := routes)]
    else rows
  }

  function WithSettled(rows: seq<AggregateOrder>, batchId: nat, hedged: Decimal, now: Time): seq<AggregateOrder> {
    if HasOrder(rows, batchId)
    then rows[FindOrder(rows, batchId) :=
              OrderOf(rows, batchId).(status := OrderSettled, hedgedNotional := hedged, settledAt := Some(now))]
    else rows
  }

  /** Rows that keep their batches keep every lookup. */
  lemma {:induction false} FindOrderStable(rows: seq<AggregateOrder>, rows': seq<AggregateOrder>, batchId: nat, k: nat)
    requires k <= |rows| <= |rows'|
    requires forall i :: 0 <= i < |rows| ==> rows[i].batchId == rows'[i].batchId
    requires |rows| == |rows'| || FindOrder(rows, batchId, k) < |rows|
    ensures FindOrder(rows', batchId, k) == FindOrder(rows, batchId, k)
    decreases |rows| - k
  {
    if k < |rows| && rows[k].batchId != batchId {
      FindOrderStable(rows, rows', batchId, k + 1);
    }
  }

  class AggregateOrderStore {
    var rows: seq<AggregateOrder>

    constructor ()
      ensures rows == []
    {
      rows := [];
    }

    method CreateOrder(batchId: nat, assetPair: string, notional: Decimal) returns (o: AggregateOrder)
      modifies this
      ensures rows == WithOrder(old(rows), batchId, assetPair, notional)
      ensures HasOrder(rows, batchId) && o == OrderOf(rows, batchId)
      ensures HasOrder(old(rows), batchId) ==> rows == old(rows)
      ensures !HasOrder(old(rows), batchId) ==>
        && rows == old(rows) + [o]
        && o == AggregateOrder(|old(rows)|, batchId, assetPair, notional, [], 0.0, 0.0, 0.0, OrderExecuting, None)
    {
      for i := 0 to |rows|
        invariant unchanged(this)
        invariant FindOrder(rows, batchId) == FindOrder(rows, batchId, i)
      {
        if rows[i].batchId == batchId {
          return rows[i];
        }
      }
      o := NewOrder(|rows|, batchId, assetPair, notional);
      rows := rows + [o];
      assert rows[|rows| - 1].batchId == batchId;
    }

    method GetOrderByBatch(batchId: nat) returns (r: Option<AggregateOrder>)
      ensures r == if HasOrder(rows, batchId) then Some(OrderOf(rows, batchId)) else None
    {
      for i := 0 to |rows|
        invariant FindOrder(rows, batchId) == FindOrder(rows, batchId, i)
      {
        if rows[i].batchId == batchId {
          return Some(rows[i]);
        }
      }
      return None;
    }

    method UpdateOrderFill(batchId: nat, price: Decimal, total: Decimal, routes: seq<VenueRoute>)
      returns (r: Option<AggregateOrder>)
      modifies this
      ensures rows == WithFill(old(rows), batchId, price, total, routes)
      ensures r == if HasOrder(old(rows), batchId) then Some(rows[FindOrder(old(rows), batchId)]) else None
    {
      for i := 0 to |rows|
        invariant unchanged(this)
        invariant FindOrder(rows, batchId) == FindOrder(rows, batchId, i)
      {
        if rows[i].batchId == batchId {
          rows := rows[i := rows[i].(fillPrice := price, totalFilled := total, venueRoutes := routes)];
          return Some(rows[i]);
        }
      }
      return None;
    }

    method SettleOrder(batchId: nat, hedged: Decimal, now: Time) returns (r: Option<AggregateOrder>)
      modifies this
      ensures rows == WithSettled(old(rows), batchId, hedged, now)
      ensures r == if HasOrder(old(rows), batchId) then Some(rows[FindOrder(old(rows), batchId)]) else None
    {
      for i := 0 to |rows|
        invariant unchanged(this)
        invariant FindOrder(rows, batchId) == FindOrder(rows, batchId, i)
      {
        if rows[i].batchId == batchId {
          rows := rows[i := rows[i].(status := OrderSettled, hedgedNotional := hedged, settledAt := Some(now))];
          return Some(rows[i]);
        }
      }
      return None;
    }
  }
}
