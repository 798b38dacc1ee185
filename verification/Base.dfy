/** Shared vocabulary: exact amounts, instants, minted identifiers and sums. */
module Base {

  /** Decimal amounts are exact, so the reals contain every one of them. */
  type Decimal = real

  /** An instant or a duration in nanoseconds. */
  type Time = int

  const SECOND: Time := 1_000_000_000
  const DAY: Time := 86_400 * SECOND

  datatype Option<+T> = None | Some(value: T)

  datatype Result<+T, +E> = Ok(value: T) | Err(error: E)

  function Max(a: int, b: int): int {
    if a >= b then a else b
  }

  // --- Identifiers ---

  /** A UUID is the number of rows its store minted before it; its text is that numeral. */
  function IdText(n: nat): (t: string)
    ensures |t| > 0
  {
    if n < 10 then [Digit(n)] else IdText(n / 10) + [Digit(n % 10)]
  }

  function Digit(d: nat): char
    requires d < 10
  {
    ('0' as int + d) as char
  }

  lemma {:induction false} IdTextInjective(m: nat, n: nat)
    requires IdText(m) == IdText(n)
    ensures m == n
  {
    var s, t := IdText(m), IdText(n);
    assert s[|s| - 1] == Digit(m % 10) && t[|t| - 1] == Digit(n % 10);
    if m >= 10 && n >= 10 {
      assert IdText(m / 10) == s[..|s| - 1] == t[..|t| - 1] == IdText(n / 10);
      IdTextInjective(m / 10, n / 10);
    }
  }

  // --- Sums ---

  function Sum(xs: seq<Decimal>): Decimal {
    if xs == [] then 0.0 else Sum(xs[..|xs| - 1]) + xs[|xs| - 1]
  }

  lemma SumAppend(xs: seq<Decimal>, x: Decimal)
    ensures Sum(xs + [x]) == Sum(xs) + x
  {
    assert (xs + [x])[..|xs|] == xs;
  }

  lemma {:induction false} SumUpdate(xs: seq<Decimal>, i: nat, x: Decimal)
    requires i < |xs|
    ensures Sum(xs[i := x]) == Sum(xs) - xs[i] + x
  {
    var n := |xs| - 1;
    if i == n {
      assert xs[i := x][..n] == xs[..n];
    } else {
      SumUpdate(xs[..n], i, x);
      assert xs[i := x][..n] == xs[..n][i := x];
    }
  }

  lemma {:induction false} SumPointwise(xs: seq<Decimal>, ys: seq<Decimal>)
    requires |xs| == |ys|
    requires forall i :: 0 <= i < |xs| ==> xs[i] <= ys[i]
    ensures Sum(xs) <= Sum(ys)
  {
    if xs != [] {
      SumPointwise(xs[..|xs| - 1], ys[..|ys| - 1]);
    }
  }

  lemma {:induction false} SumOfSums(xs: seq<Decimal>, ys: seq<Decimal>, zs: seq<Decimal>)
    requires |xs| == |ys| == |zs|
    requires forall i :: 0 <= i < |xs| ==> zs[i] == xs[i] + ys[i]
    ensures Sum(zs) == Sum(xs) + Sum(ys)
  {
    if xs != [] {
      var n := |xs| - 1;
      SumOfSums(xs[..n], ys[..n], zs[..n]);
    }
  }
}
