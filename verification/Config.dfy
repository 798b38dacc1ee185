/** Per-pair batch policy and per-currency settlement days. */
module Configuration {
  import opened Base

  datatype Config = Config(
    batchIntervalSeconds: int,
    batchSizeThresholdUSD: Decimal,
    batchIntervalOverrides: map<string, int>,
    batchThresholdOverrides: map<string, Decimal>,
    settlementDays: map<string, int>,
    hotWalletTargets: map<string, Decimal>)

  /** Build replaces a non-positive interval or threshold by its default. */
  function Defaulted(c: Config): (r: Config)
    ensures r.batchIntervalSeconds > 0 && r.batchSizeThresholdUSD > 0.0
    ensures c.batchIntervalSeconds > 0 ==> r.batchIntervalSeconds == c.batchIntervalSeconds
    ensures c.batchSizeThresholdUSD > 0.0 ==> r.batchSizeThresholdUSD == c.batchSizeThresholdUSD
    ensures c.batchIntervalSeconds <= 0 ==> r.batchIntervalSeconds == 30
    ensures c.batchSizeThresholdUSD <= 0.0 ==> r.batchSizeThresholdUSD == 50000.0
    ensures r.batchIntervalOverrides == c.batchIntervalOverrides
    ensures r.batchThresholdOverrides == c.batchThresholdOverrides
    ensures r.settlementDays == c.settlementDays && r.hotWalletTargets == c.hotWalletTargets
  {
    c.(batchIntervalSeconds := if c.batchIntervalSeconds <= 0 then 30 else c.batchIntervalSeconds,
       batchSizeThresholdUSD := if c.batchSizeThresholdUSD <= 0.0 then 50000.0 else c.batchSizeThresholdUSD)
  }

  /** strings.ToUpper on ASCII letters. */
  function ToUpper(s: string): (r: string)
    ensures |r| == |s|
    ensures forall i :: 0 <= i < |s| ==>
      if 'a' <= s[i] <= 'z' then s[i] as int - r[i] as int == 'a' as int - 'A' as int else r[i] == s[i]
  {
    seq(|s|, i requires 0 <= i < |s| => if 'a' <= s[i] <= 'z' then (s[i] as int - 32) as char else s[i])
  }

  /** A positive setting of the currency, in any case of letters; two days in every other case. */
  function SettlementDaysFor(c: Config, fiat: string): (days: int)
    ensures days > 0
    ensures ToUpper(fiat) in c.settlementDays && c.settlementDays[ToUpper(fiat)] > 0 ==>
      days == c.settlementDays[ToUpper(fiat)]
    ensures ToUpper(fiat) !in c.settlementDays || c.settlementDays[ToUpper(fiat)] <= 0 ==> days == 2
  {
    var u := ToUpper(fiat);
    if u in c.settlementDays && c.settlementDays[u] > 0 then c.settlementDays[u] else 2
  }

  function BatchIntervalFor(c: Config, assetPair: string): (seconds: int)
    ensures c.batchIntervalSeconds > 0 ==> seconds > 0
    ensures assetPair in c.batchIntervalOverrides && c.batchIntervalOverrides[assetPair] > 0 ==>
      seconds == c.batchIntervalOverrides[assetPair]
    ensures !(assetPair in c.batchIntervalOverrides && c.batchIntervalOverrides[assetPair] > 0) ==>
      seconds == c.batchIntervalSeconds
  {
    if assetPair in c.batchIntervalOverrides && c.batchIntervalOverrides[assetPair] > 0
    then c.batchIntervalOverrides[assetPair] else c.batchIntervalSeconds
  }

  function BatchIntervalDuration(c: Config, assetPair: string): Time {
    BatchIntervalFor(c, assetPair) * SECOND
  }

  function BatchThresholdFor(c: Config, assetPair: string): (usd: Decimal)
    ensures c.batchSizeThresholdUSD > 0.0 ==> usd > 0.0
    ensures assetPair in c.batchThresholdOverrides && c.batchThresholdOverrides[assetPair] > 0.0 ==>
      usd == c.batchThresholdOverrides[assetPair]
    ensures !(assetPair in c.batchThresholdOverrides && c.batchThresholdOverrides[assetPair] > 0.0) ==>
      usd == c.batchSizeThresholdUSD
  {
    if assetPair in c.batchThresholdOverrides && c.batchThresholdOverrides[assetPair] > 0.0
    then c.batchThresholdOverrides[assetPair] else c.batchSizeThresholdUSD
  }

  /** The target set for the asset, in any case of letters, and none otherwise. */
  function HotWalletTargetFor(c: Config, asset: string): (target: Decimal)
    ensures ToUpper(asset) in c.hotWalletTargets ==> target == c.hotWalletTargets[ToUpper(asset)]
    ensures ToUpper(asset) !in c.hotWalletTargets ==> target == 0.0
  {
    var u := ToUpper(asset);
    if u in c.hotWalletTargets then c.hotWalletTargets[u] else 0.0
  }

  /** The cadence lock is held for one default interval. */
  function CadenceTtl(c: Config): Time {
    c.batchIntervalSeconds * SECOND
  }

  /** The scheduler ticks four times per default interval. */
  function TickPeriod(c: Config): Time {
    CadenceTtl(c) / 4
  }
}
