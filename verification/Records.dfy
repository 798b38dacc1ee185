/** Record types and the batch lifecycle. A zero time.Time is None. */
module Records {
  import opened Base

  datatype BatchStatus = Open | Closed | Executing | Settled

  predicate CanTransitionTo(s: BatchStatus, t: BatchStatus) {
    match s
    case Open => t == Closed
    case Closed => t == Executing
    case Executing => t == Settled
    case Settled => false
  }

  /** Position in the lifecycle. */
  function Rank(s: BatchStatus): nat {
    match s
    case Open => 0
    case Closed => 1
    case Executing => 2
    case Settled => 3
  }

  /** The allowed moves are exactly OPEN to CLOSED, CLOSED to EXECUTING and EXECUTING to SETTLED. */
  lemma AllowedMoves(s: BatchStatus, t: BatchStatus)
    ensures CanTransitionTo(s, t) <==> (s, t) in {(Open, Closed), (Closed, Executing), (Executing, Settled)}
  {
  }

  datatype Batch = Batch(
    id: nat, assetPair: string, status: BatchStatus, notionalUSD: Decimal, openedAt: Time, closedAt: Option<Time>)

  datatype Membership = Membership(
    batchId: nat, txId: string, amount: Decimal, asset: string, fiatCurrency: string,
    notionalUSD: Decimal, userId: string)

  datatype OrderStatus = OrderExecuting | OrderSettled

  datatype VenueRoute = VenueRoute(venue: string, share: Decimal, price: Decimal)

  datatype AggregateOrder = AggregateOrder(
    id: nat, batchId: nat, assetPair: string, notionalUSD: Decimal, venueRoutes: seq<VenueRoute>,
    fillPrice: Decimal, totalFilled: Decimal, hedgedNotional: Decimal, status: OrderStatus, settledAt: Option<Time>)

  datatype FloatPosition = FloatPosition(
    id: nat, fiatCurrency: string, shortFiatAmount: Decimal, longCryptoAmount: Decimal, longCryptoAsset: string,
    settlementDueAt: Option<Time>, settled: bool, batchId: Option<nat>)

  datatype Aggregate = AggBatch | AggAggregate | AggFunding | AggFloat | AggRebalance

  datatype EventType = EvBatchOpen | EvBatchClose | EvAggregateExec | EvFunding | EvFloatAdjust | EvRebalance

  /** JSON encoding is the identity here: the payload is stored as the value it encodes. */
  datatype Payload = Payload(
    aggregate: Aggregate, eventType: EventType, batchId: Option<nat>, notionalUSD: Decimal,
    asset: string, fiatCurrency: string, detail: string)

  datatype OutboxEntry = OutboxEntry(id: nat, dedupKey: string, payload: Payload, emittedAt: Option<Time>)

  /** A store that mints the next position as identifier keeps every row at its own position. */
  ghost predicate BatchIds(rows: seq<Batch>) {
    forall i :: 0 <= i < |rows| ==> rows[i].id == i
  }
}
