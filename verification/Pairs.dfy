/** Asset pairs: the consumer joins asset and fiat, the fill callback splits them again. */
module Pairs {

  function Join(asset: string, fiat: string): string {
    asset + "/" + fiat
  }

  /** Position of the first '/', or the length when there is none. */
  function Slash(p: string): (i: nat)
    ensures i <= |p|
    ensures '/' !in p[..i]
    ensures i < |p| ==> p[i] == '/'
  {
    SlashFrom(p, 0)
  }

  function SlashFrom(p: string, k: nat): (i: nat)
    requires k <= |p|
    requires '/' !in p[..k]
    ensures k <= i <= |p|
    ensures '/' !in p[..i]
    ensures i < |p| ==> p[i] == '/'
    decreases |p| - k
  {
    if k == |p| || p[k] == '/' then k else SlashFrom(p, k + 1)
  }

  function FiatOf(p: string): string {
    var i := Slash(p);
    if i < |p| then p[i + 1..] else "USD"
  }

  function CryptoOf(p: string): string {
    p[..Slash(p)]
  }

  /** fiatOf: the scan returns what follows the first '/', "USD" without one. */
  method FiatOfPair(assetPair: string) returns (fiat: string)
    ensures fiat == FiatOf(assetPair)
  {
    for i := 0 to |assetPair|
      invariant '/' !in assetPair[..i]
    {
      if assetPair[i] == '/' {
        SlashIsFirst(assetPair, i);
        return assetPair[i + 1..];
      }
    }
    return "USD";
  }

  /** cryptoOf: the scan returns what precedes the first '/', the whole pair without one. */
  method CryptoOfPair(assetPair: string) returns (asset: string)
    ensures asset == CryptoOf(assetPair)
  {
    for i := 0 to |assetPair|
      invariant '/' !in assetPair[..i]
    {
      if assetPair[i] == '/' {
        SlashIsFirst(assetPair, i);
        return assetPair[..i];
      }
    }
    return assetPair;
  }

  lemma SlashIsFirst(p: string, i: nat)
    requires i < |p| && p[i] == '/' && '/' !in p[..i]
    ensures Slash(p) == i
  {
    var j := Slash(p);
    assert forall k :: 0 <= k < i ==> p[k] == p[..i][k] != '/';
    assert forall k :: 0 <= k < j ==> p[k] == p[..j][k] != '/';
  }

  /** Splitting undoes joining exactly when the asset holds no '/'. */
  lemma SplitJoin(asset: string, fiat: string)
    ensures FiatOf(Join(asset, fiat)) == fiat <==> '/' !in asset
    ensures CryptoOf(Join(asset, fiat)) == asset <==> '/' !in asset
  {
    var p := Join(asset, fiat);
    var i := Slash(asset);
    assert p[..i] == asset[..i];
    SlashIsFirst(p, i);
    if i < |asset| {
      assert asset[i] in asset;
      assert |FiatOf(p)| > |fiat| && |CryptoOf(p)| < |asset|;
    } else {
      assert asset[..i] == asset;
      assert p[i + 1..] == fiat;
    }
  }

  /** Joining undoes splitting for every pair with a '/'; without one the default fiat is added. */
  lemma JoinSplit(p: string)
    ensures Join(CryptoOf(p), FiatOf(p)) == if '/' in p then p else p + "/USD"
  {
    var i := Slash(p);
    if i < |p| {
      assert p == p[..i] + ["/"[0]] + p[i + 1..];
    } else {
      assert p[..i] == p;
    }
  }
}
