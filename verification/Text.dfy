/** Lexicographic order on strings and sorting by it. */
module Text {

  predicate Before(a: string, b: string) {
    if a == [] then b != []
    else b != [] && (a[0] < b[0] || (a[0] == b[0] && Before(a[1..], b[1..])))
  }

  /** The texts part at k: a ends there and b does not, or the first differing characters decide. */
  ghost predicate PartAt(a: string, b: string, k: nat) {
    k <= |a| && k < |b| && a[..k] == b[..k] && (k == |a| || a[k] < b[k])
  }

  lemma {:induction false} BeforeIff(a: string, b: string)
    ensures Before(a, b) <==> exists k: nat :: PartAt(a, b, k)
  {
    if a == [] || b == [] || a[0] != b[0] {
      assert Before(a, b) ==> PartAt(a, b, 0);
      assert a != [] && b != [] ==> forall k: nat :: PartAt(a, b, k) && k > 0 ==> a[0] == a[..k][0] == b[..k][0];
    } else {
      BeforeIff(a[1..], b[1..]);
      if Before(a, b) {
        var k: nat :| PartAt(a[1..], b[1..], k);
        assert a[..k + 1] == [a[0]] + a[1..][..k] && b[..k + 1] == [b[0]] + b[1..][..k];
        assert PartAt(a, b, k + 1);
      }
      if k: nat :| PartAt(a, b, k) {
        assert k > 0;
        assert a[1..][..k - 1] == a[..k][1..] && b[1..][..k - 1] == b[..k][1..];
        assert PartAt(a[1..], b[1..], k - 1);
      }
    }
  }

  lemma {:induction false} BeforeTotal(a: string, b: string)
    ensures a == b || Before(a, b) || Before(b, a)
    ensures !(Before(a, b) && (a == b || Before(b, a)))
  {
    if a != [] && b != [] {
      BeforeTotal(a[1..], b[1..]);
      assert a == [a[0]] + a[1..] && b == [b[0]] + b[1..];
    }
  }

  lemma {:induction false} BeforeTransitive(a: string, b: string, c: string)
    requires Before(a, b) && Before(b, c)
    ensures Before(a, c)
  {
    if a != [] && a[0] == b[0] == c[0] {
      BeforeTransitive(a[1..], b[1..], c[1..]);
    }
  }

  ghost predicate Ascending(s: seq<string>) {
    forall i, j :: 0 <= i < j < |s| ==> Before(s[i], s[j])
  }

  /** sort.Strings on distinct strings. */
  method SortStrings(s: seq<string>) returns (r: seq<string>)
    requires forall i, j :: 0 <= i < j < |s| ==> s[i] != s[j]
    ensures Ascending(r) && (forall x :: x in r <==> x in s)
  {
    r := [];
    for i := 0 to |s|
      invariant Ascending(r) && (forall x :: x in r <==> x in s[..i])
    {
      assert s[..i + 1] == s[..i] + [s[i]];
      assert s[i] !in s[..i];
      r := Insert(r, s[i]);
    }
    assert s[..|s|] == s;
  }

  method Insert(s: seq<string>, x: string) returns (r: seq<string>)
    requires Ascending(s) && x !in s
    ensures Ascending(r) && (forall y :: y in r <==> y == x || y in s)
  {
    var k := 0;
    while k < |s| && Before(s[k], x)
      invariant k <= |s| && (forall i :: 0 <= i < k ==> Before(s[i], x))
    {
      k := k + 1;
    }
    if k < |s| {
      BeforeTotal(s[k], x);
      assert s[k] in s;
      forall j | k < j < |s|
        ensures Before(x, s[j])
      {
        BeforeTransitive(x, s[k], s[j]);
      }
    }
    r := s[..k] + [x] + s[k..];
    assert s == s[..k] + s[k..];
  }
}
