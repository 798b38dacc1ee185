/** The in-memory float store: fills accumulate in the open row of their currency. */
module FloatTable {
  import opened Base
  import opened Records
  import opened Text

  /** First unsettled row of the currency from k on, or the table length. */
  function FindUnsettled(rows: seq<FloatPosition>, fiat: string, k: nat := 0): (i: nat)
    requires k <= |rows|
    ensures k <= i <= |rows|
    ensures forall j :: k <= j < i ==> rows[j].fiatCurrency == fiat ==> rows[j].settled
    ensures i < |rows| ==> rows[i].fiatCurrency == fiat && !rows[i].settled
    decreases |rows| - k
  {
    if k == |rows| || (rows[k].fiatCurrency == fiat && !rows[k].settled) then k else FindUnsettled(rows, fiat, k + 1)
  }

  function Accumulated(r: FloatPosition, p: FloatPosition): FloatPosition {
    r.(shortFiatAmount := r.shortFiatAmount + p.shortFiatAmount,
       longCryptoAmount := r.longCryptoAmount + p.longCryptoAmount,
       longCryptoAsset := if p.longCryptoAsset != "" then p.longCryptoAsset else r.longCryptoAsset,
       settlementDueAt := if p.settlementDueAt.Some? then p.settlementDueAt else r.settlementDueAt)
  }

  function Added(rows: seq<FloatPosition>, p: FloatPosition): seq<FloatPosition> {
    var i := FindUnsettled(rows, p.fiatCurrency);
    if i < |rows| then rows[i := Accumulated(rows[i], p)] else rows + [p.(id := |rows|)]
  }

  function Flagged(rows: seq<FloatPosition>, id: nat): seq<FloatPosition> {
    if id < |rows| then rows[id := rows[id].(settled := true)] else rows
  }

  predicate Matured(r: FloatPosition, before: Time) {
    !r.settled && r.settlementDueAt.Some? && r.settlementDueAt.value <= before
  }

  function MaturedRows(rows: seq<FloatPosition>, before: Time): (out: seq<FloatPosition>)
    ensures forall r :: r in out <==> r in rows && Matured(r, before)
  {
    if rows == [] then []
    else
      var r := rows[|rows| - 1];
      assert rows == rows[..|rows| - 1] + [r];
      MaturedRows(rows[..|rows| - 1], before) + if Matured(r, before) then [r] else []
  }

  /** The table after every row due by now was settled. */
  function Swept(rows: seq<FloatPosition>, now: Time): (r: seq<FloatPosition>)
    ensures |r| == |rows|
    ensures forall i :: 0 <= i < |r| ==> !Matured(r[i], now)
  {
    seq(|rows|, i requires 0 <= i < |rows| => if Matured(rows[i], now) then rows[i].(settled := true) else rows[i])
  }

  /** A sweep settles exactly the rows that are due, and changes nothing else. */
  lemma SweepSettlesDue(rows: seq<FloatPosition>, now: Time, i: nat)
    requires i < |rows|
    ensures var r, r' := rows[i], Swept(rows, now)[i];
            && r' == r.(settled := r'.settled)
            && (r'.settled <==> r.settled || (r.settlementDueAt.Some? && r.settlementDueAt.value <= now))
  {
  }

  /** The unsettled rows whose due time has come. */
  ghost function DueRows(rows: seq<FloatPosition>, now: Time): set<nat> {
    set i: nat | i < |rows|
                 && !rows[i].settled && rows[i].settlementDueAt.Some? && rows[i].settlementDueAt.value <= now
  }

  lemma {:induction false} MaturedAreDue(rows: seq<FloatPosition>, now: Time)
    ensures |MaturedRows(rows, now)| == |DueRows(rows, now)|
  {
    if rows != [] {
      var rest := rows[..|rows| - 1];
      MaturedAreDue(rest, now);
      if |rows| - 1 in DueRows(rows, now) {
        assert DueRows(rows, now) == DueRows(rest, now) + {|rows| - 1};
      } else {
        assert DueRows(rows, now) == DueRows(rest, now);
      }
    }
  }

  // --- What the table says about one currency ---

  function ShortOf(rows: seq<FloatPosition>, fiat: string): Decimal {
    if rows == [] then 0.0
    else
      var r := rows[|rows| - 1];
      ShortOf(rows[..|rows| - 1], fiat) + if r.fiatCurrency == fiat then r.shortFiatAmount else 0.0
  }

  function LongOf(rows: seq<FloatPosition>, fiat: string): Decimal {
    if rows == [] then 0.0
    else
      var r := rows[|rows| - 1];
      LongOf(rows[..|rows| - 1], fiat) + if r.fiatCurrency == fiat then r.longCryptoAmount else 0.0
  }

  /** The zero time precedes every instant. */
  function Later(a: Option<Time>, b: Option<Time>): Option<Time> {
    if b.Some? && (a.None? || b.value > a.value) then b else a
  }

  function DueOf(rows: seq<FloatPosition>, fiat: string): Option<Time> {
    if rows == [] then None
    else
      var r := rows[|rows| - 1];
      var due := DueOf(rows[..|rows| - 1], fiat);
      if r.fiatCurrency == fiat then Later(due, r.settlementDueAt) else due
  }

  /** The due time is the latest of the currency's rows. */
  lemma {:induction false} DueIsLatest(rows: seq<FloatPosition>, fiat: string)
    ensures var due := DueOf(rows, fiat);
            && (forall i :: 0 <= i < |rows| && rows[i].fiatCurrency == fiat && rows[i].settlementDueAt.Some? ==>
                  due.Some? && rows[i].settlementDueAt.value <= due.value)
            && (due.Some? ==> exists i :: 0 <= i < |rows| && rows[i].fiatCurrency == fiat
                                && rows[i].settlementDueAt == due)
  {
    if rows != [] {
      var n := |rows| - 1;
      DueIsLatest(rows[..n], fiat);
      if rows[n].fiatCurrency == fiat && DueOf(rows, fiat) == rows[n].settlementDueAt {
      } else if i :| 0 <= i < n && rows[..n][i].fiatCurrency == fiat
                     && rows[..n][i].settlementDueAt == DueOf(rows, fiat) {
        assert rows[i].fiatCurrency == fiat && rows[i].settlementDueAt == DueOf(rows, fiat);
      }
    }
  }

  ghost predicate Mentioned(rows: seq<FloatPosition>, fiat: string) {
    exists i :: 0 <= i < |rows| && rows[i].fiatCurrency == fiat
  }

  /** The crypto asset of the currency's first row. */
  function FirstAsset(rows: seq<FloatPosition>, fiat: string): string {
    if rows == [] then ""
    else
      var r, rest := rows[|rows| - 1], rows[..|rows| - 1];
      if r.fiatCurrency == fiat && !HasRow(rest, fiat) then r.longCryptoAsset else FirstAsset(rest, fiat)
  }

  /** The crypto asset of the currency's last row that names one. */
  function LastAsset(rows: seq<FloatPosition>, fiat: string): string {
    if rows == [] then ""
    else
      var r, rest := rows[|rows| - 1], rows[..|rows| - 1];
      if r.fiatCurrency == fiat && r.longCryptoAsset != "" then r.longCryptoAsset else LastAsset(rest, fiat)
  }

  predicate HasRow(rows: seq<FloatPosition>, fiat: string)
    ensures HasRow(rows, fiat) <==> Mentioned(rows, fiat)
  {
    rows != [] && (rows[|rows| - 1].fiatCurrency == fiat || HasRow(rows[..|rows| - 1], fiat))
  }

  datatype Position = Position(fiatCurrency: string, asset: string, short: Decimal, long: Decimal, due: Option<Time>)

  /** GetFloat names the asset of the first row. */
  function PositionOf(rows: seq<FloatPosition>, fiat: string): Position {
    Position(fiat, FirstAsset(rows, fiat), ShortOf(rows, fiat), LongOf(rows, fiat), DueOf(rows, fiat))
  }

  /** ListFloat names the latest asset and is otherwise GetFloat. */
  function ListedPosition(rows: seq<FloatPosition>, fiat: string): Position {
    PositionOf(rows, fiat).(asset := LastAsset(rows, fiat))
  }

  function Plus(p: Position, r: FloatPosition): Position {
    p.(short := p.short + r.shortFiatAmount,
       long := p.long + r.longCryptoAmount,
       due := Later(p.due, r.settlementDueAt))
  }

  /** Plus, and the row's asset if it names one. */
  function PlusListed(p: Position, r: FloatPosition): Position {
    Plus(p, r).(asset := if r.longCryptoAsset != "" then r.longCryptoAsset else p.asset)
  }

  function Blank(fiat: string): Position {
    Position(fiat, "", 0.0, 0.0, None)
  }

  lemma PositionStep(rows: seq<FloatPosition>, i: nat, fiat: string)
    requires i < |rows|
    ensures var r, p := rows[i], PositionOf(rows[..i], fiat);
            PositionOf(rows[..i + 1], fiat)
            == if r.fiatCurrency != fiat then p
               else Plus(if HasRow(rows[..i], fiat) then p else p.(asset := r.longCryptoAsset), r)
    ensures var r, p := rows[i], ListedPosition(rows[..i], fiat);
            ListedPosition(rows[..i + 1], fiat) == if r.fiatCurrency == fiat then PlusListed(p, r) else p
    ensures HasRow(rows[..i + 1], fiat) <==> HasRow(rows[..i], fiat) || rows[i].fiatCurrency == fiat
  {
    assert rows[..i + 1][..i] == rows[..i];
  }

  class FloatStore {
    var rows: seq<FloatPosition>

    ghost predicate Valid() reads this {
      Shaped(rows)
    }

    constructor ()
      ensures Valid() && rows == []
    {
      rows := [];
    }

    method AddFloat(p: FloatPosition)
      requires Valid() && !p.settled
      modifies this
      ensures Valid() && rows == Added(old(rows), p)
    {
      for i := 0 to |rows|
        invariant unchanged(this)
        invariant FindUnsettled(rows, p.fiatCurrency) == FindUnsettled(rows, p.fiatCurrency, i)
      {
        if rows[i].fiatCurrency == p.fiatCurrency && !rows[i].settled {
          var r := rows[i];
          r := r.(shortFiatAmount := r.shortFiatAmount + p.shortFiatAmount);
          r := r.(longCryptoAmount := r.longCryptoAmount + p.longCryptoAmount);
          if p.longCryptoAsset != "" {
            r := r.(longCryptoAsset := p.longCryptoAsset);
          }
          if p.settlementDueAt.Some? {
            r := r.(settlementDueAt := p.settlementDueAt);
          }
          AddKeepsShape(rows, p);
          rows := rows[i := r];
          return;
        }
      }
      AddKeepsShape(rows, p);
      rows := rows + [p.(id := |rows|)];
    }

    method GetFloat(fiat: string) returns (p: Position)
      ensures p == PositionOf(rows, fiat)
    {
      p := Blank(fiat);
      var found := false;
      for i := 0 to |rows|
        invariant p == PositionOf(rows[..i], fiat) && found == HasRow(rows[..i], fiat)
      {
        PositionStep(rows, i, fiat);
        if rows[i].fiatCurrency != fiat {
          continue;
        }
        if !found {
          found, p := true, p.(asset := rows[i].longCryptoAsset);
        }
        p := Plus(p, rows[i]);
      }
      assert rows[..|rows|] == rows;
    }

    /** One entry per currency, in order of currency, each the position GetFloat returns but for the latest asset. */
    method ListFloat() returns (out: seq<Position>)
      ensures forall i :: 0 <= i < |out| ==> out[i] == ListedPosition(rows, out[i].fiatCurrency)
      ensures forall i :: 0 <= i < |out| ==> Mentioned(rows, out[i].fiatCurrency)
      ensures forall f :: Mentioned(rows, f) ==> exists i :: 0 <= i < |out| && out[i].fiatCurrency == f
      ensures forall i, j :: 0 <= i < j < |out| ==> Before(out[i].fiatCurrency, out[j].fiatCurrency)
    {
      var byCcy, order := Grouped();
      order := SortStrings(order);
      out := [];
      for i := 0 to |order|
        invariant |out| == i && (forall k :: 0 <= k < i ==> out[k] == ListedPosition(rows, order[k]))
      {
        assert order[i] in order;
        out := out + [byCcy[order[i]]];
      }
      forall f | Mentioned(rows, f)
        ensures exists i :: 0 <= i < |out| && out[i].fiatCurrency == f
      {
        var i :| 0 <= i < |order| && order[i] == f;
        assert out[i].fiatCurrency == f;
      }
      forall i | 0 <= i < |out|
        ensures Mentioned(rows, out[i].fiatCurrency)
      {
        assert order[i] in order;
      }
    }

    /** The first loop of ListFloat: positions by currency, and the currencies in order of appearance. */
    method Grouped() returns (byCcy: map<string, Position>, order: seq<string>)
      ensures forall f :: f in order <==> f in byCcy
      ensures forall k, l :: 0 <= k < l < |order| ==> order[k] != order[l]
      ensures forall f :: f in byCcy <==> Mentioned(rows, f)
      ensures forall f :: f in byCcy ==> byCcy[f] == ListedPosition(rows, f)
    {
      byCcy, order := map[], [];
      for i := 0 to |rows|
        invariant forall f :: f in order <==> f in byCcy
        invariant forall k, l :: 0 <= k < l < |order| ==> order[k] != order[l]
        invariant GroupedUpTo(rows[..i], byCcy)
      {
        hide GroupedUpTo, Mentioned, ListedPosition;
        var r := rows[i];
        GroupStep(rows, i, byCcy);
        var agg := Position(r.fiatCurrency, r.longCryptoAsset, 0.0, 0.0, None);
        if r.fiatCurrency in byCcy {
          agg := byCcy[r.fiatCurrency];
        } else {
          order := order + [r.fiatCurrency];
        }
        byCcy := byCcy[r.fiatCurrency := PlusListed(agg, r)];
      }
      assert rows[..|rows|] == rows;
    }

    method ListMaturedFloat(before: Time) returns (out: seq<FloatPosition>)
      ensures out == MaturedRows(rows, before)
      ensures forall r :: r in out <==>
        r in rows && !r.settled && r.settlementDueAt.Some? && r.settlementDueAt.value <= before
    {
      out := [];
      for i := 0 to |rows|
        invariant out == MaturedRows(rows[..i], before)
      {
        assert rows[..i + 1][..i] == rows[..i];
        if rows[i].settled || rows[i].settlementDueAt.None? {
          continue;
        }
        if rows[i].settlementDueAt.value <= before {
          out := out + [rows[i]];
        }
      }
      assert rows[..|rows|] == rows;
    }

    method SettleFloat(id: nat) returns (found: bool)
      requires Valid()
      modifies this
      ensures Valid() && rows == Flagged(old(rows), id) && found == (id < |rows|)
    {
      for i := 0 to |rows|
        invariant unchanged(this) && id >= i
      {
        if rows[i].id == id {
          rows := rows[i := rows[i].(settled := true)];
          return true;
        }
      }
      return false;
    }
  }

  ghost predicate GroupedUpTo(rows: seq<FloatPosition>, byCcy: map<string, Position>) {
    && (forall f :: f in byCcy <==> Mentioned(rows, f))
    && (forall f :: f in byCcy ==> byCcy[f] == ListedPosition(rows, f))
  }

  /** Reading one more row touches only its own currency. */
  lemma GroupStep(rows: seq<FloatPosition>, i: nat, byCcy: map<string, Position>)
    requires i < |rows| && GroupedUpTo(rows[..i], byCcy)
    ensures var r := rows[i];
            var f := r.fiatCurrency;
            var agg := if f in byCcy then byCcy[f] else Position(f, r.longCryptoAsset, 0.0, 0.0, None);
            GroupedUpTo(rows[..i + 1], byCcy[f := PlusListed(agg, r)])
  {
    var r := rows[i];
    var f := r.fiatCurrency;
    var agg := if f in byCcy then byCcy[f] else Position(f, r.longCryptoAsset, 0.0, 0.0, None);
    var next := byCcy[f := PlusListed(agg, r)];
    if f !in byCcy {
      UnmentionedIsBlank(rows[..i], f);
    }
    forall g
      ensures g in next <==> Mentioned(rows[..i + 1], g)
      ensures g in next ==> next[g] == ListedPosition(rows[..i + 1], g)
    {
      hide Mentioned;
      PositionStep(rows, i, g);
    }
  }

  lemma {:induction false} UnmentionedIsBlank(rows: seq<FloatPosition>, fiat: string)
    requires !Mentioned(rows, fiat)
    ensures ListedPosition(rows, fiat) == Blank(fiat)
  {
    if rows != [] {
      var rest := rows[..|rows| - 1];
      assert rows[|rows| - 1].fiatCurrency != fiat;
      assert forall i :: 0 <= i < |rest| ==> rest[i] == rows[i];
      UnmentionedIsBlank(rest, fiat);
      assert !HasRow(rest, fiat);
    }
  }

  // --- The shape of the table ---

  /** A row followed by another of its currency is settled: the unsettled one is unique and last. */
  ghost predicate Shaped(rows: seq<FloatPosition>) {
    && (forall i :: 0 <= i < |rows| ==> rows[i].id == i)
    && (forall i, j :: 0 <= i < j < |rows| && rows[i].fiatCurrency == rows[j].fiatCurrency ==> rows[i].settled)
  }

  lemma AddKeepsShape(rows: seq<FloatPosition>, p: FloatPosition)
    requires Shaped(rows)
    ensures Shaped(Added(rows, p))
  {
  }

  lemma {:induction false} ShortUpdate(rows: seq<FloatPosition>, i: nat, r: FloatPosition, fiat: string)
    requires i < |rows| && r.fiatCurrency == rows[i].fiatCurrency
    ensures ShortOf(rows[i := r], fiat)
         == ShortOf(rows, fiat) + if r.fiatCurrency == fiat then r.shortFiatAmount - rows[i].shortFiatAmount else 0.0
  {
    var n := |rows| - 1;
    if i == n {
      assert rows[i := r][..n] == rows[..n];
    } else {
      ShortUpdate(rows[..n], i, r, fiat);
      assert rows[i := r][..n] == rows[..n][i := r];
    }
  }

  /** A fill raises its own currency's short amount by its notional and no other. */
  lemma AddRaisesShort(rows: seq<FloatPosition>, p: FloatPosition, fiat: string)
    ensures ShortOf(Added(rows, p), fiat)
         == ShortOf(rows, fiat) + if p.fiatCurrency == fiat then p.shortFiatAmount else 0.0
  {
    var i := FindUnsettled(rows, p.fiatCurrency);
    if i < |rows| {
      ShortUpdate(rows, i, Accumulated(rows[i], p), fiat);
    } else {
      assert Added(rows, p)[..|rows|] == rows;
    }
  }

  lemma {:induction false} LongUpdate(rows: seq<FloatPosition>, i: nat, r: FloatPosition, fiat: string)
    requires i < |rows| && r.fiatCurrency == rows[i].fiatCurrency
    ensures LongOf(rows[i := r], fiat)
         == LongOf(rows, fiat) + if r.fiatCurrency == fiat then r.longCryptoAmount - rows[i].longCryptoAmount else 0.0
  {
    var n := |rows| - 1;
    if i == n {
      assert rows[i := r][..n] == rows[..n];
    } else {
      LongUpdate(rows[..n], i, r, fiat);
      assert rows[i := r][..n] == rows[..n][i := r];
    }
  }

  /** A fill raises its own currency's long amount by the crypto bought and no other. */
  lemma AddRaisesLong(rows: seq<FloatPosition>, p: FloatPosition, fiat: string)
    ensures LongOf(Added(rows, p), fiat)
         == LongOf(rows, fiat) + if p.fiatCurrency == fiat then p.longCryptoAmount else 0.0
  {
    var i := FindUnsettled(rows, p.fiatCurrency);
    if i < |rows| {
      LongUpdate(rows, i, Accumulated(rows[i], p), fiat);
    } else {
      assert Added(rows, p)[..|rows|] == rows;
    }
  }

  lemma {:induction false} SweepKeepsLong(rows: seq<FloatPosition>, now: Time, fiat: string)
    ensures LongOf(Swept(rows, now), fiat) == LongOf(rows, fiat)
  {
    if rows != [] {
      var n := |rows| - 1;
      SweepKeepsLong(rows[..n], now, fiat);
      assert Swept(rows, now)[..n] == Swept(rows[..n], now);
    }
  }

  /** Sweeping only sets flags: no recorded amount changes. */
  lemma {:induction false} SweepKeepsShort(rows: seq<FloatPosition>, now: Time, fiat: string)
    ensures ShortOf(Swept(rows, now), fiat) == ShortOf(rows, fiat)
  {
    if rows != [] {
      var n := |rows| - 1;
      SweepKeepsShort(rows[..n], now, fiat);
      assert Swept(rows, now)[..n] == Swept(rows[..n], now);
    }
  }

  datatype Op = Add(p: FloatPosition) | Settle(id: nat)

  function Apply(rows: seq<FloatPosition>, op: Op): seq<FloatPosition> {
    match op
    case Add(p) => Added(rows, p.(settled := false))
    case Settle(id) => Flagged(rows, id)
  }

  function Run(rows: seq<FloatPosition>, ops: seq<Op>): seq<FloatPosition>
    decreases |ops|
  {
    if ops == [] then rows else Run(Apply(rows, ops[0]), ops[1..])
  }

  /** After any run each currency has at most one unsettled row, its last; settled rows never change again. */
  lemma {:induction false} TableShape(rows: seq<FloatPosition>, ops: seq<Op>)
    requires Shaped(rows)
    ensures var rows' := Run(rows, ops);
            && Shaped(rows')
            && |rows| <= |rows'|
            && (forall i :: 0 <= i < |rows| && rows[i].settled ==> rows'[i] == rows[i])
    decreases |ops|
  {
    if ops != [] {
      if ops[0].Add? {
        AddKeepsShape(rows, ops[0].p.(settled := false));
      }
      TableShape(Apply(rows, ops[0]), ops[1..]);
    }
  }

  // --- The asset the two views name ---

  /** The asset of the currency's latest addition that names one. */
  function LatestAsset(ops: seq<Op>, fiat: string): string {
    if ops == [] then ""
    else
      var op := ops[|ops| - 1];
      if op.Add? && op.p.fiatCurrency == fiat && op.p.longCryptoAsset != "" then op.p.longCryptoAsset
      else LatestAsset(ops[..|ops| - 1], fiat)
  }

  lemma {:induction false} RunAppend(rows: seq<FloatPosition>, ops: seq<Op>, op: Op)
    ensures Run(rows, ops + [op]) == Apply(Run(rows, ops), op)
    decreases |ops|
  {
    if ops == [] {
      assert ops + [op] == [op] && [op][1..] == [];
      assert Run(Apply(rows, op), []) == Apply(rows, op);
    } else {
      assert (ops + [op])[0] == ops[0] && (ops + [op])[1..] == ops[1..] + [op];
      RunAppend(Apply(rows, ops[0]), ops[1..], op);
    }
  }

  /** Rewriting a currency's last row decides the asset, unless the new row names none. */
  lemma {:induction false} LastAssetUpdate(rows: seq<FloatPosition>, i: nat, r: FloatPosition, fiat: string)
    requires i < |rows| && r.fiatCurrency == rows[i].fiatCurrency
    requires forall j :: i < j < |rows| ==> rows[j].fiatCurrency != r.fiatCurrency
    requires r.longCryptoAsset == "" ==> rows[i].longCryptoAsset == ""
    ensures LastAsset(rows[i := r], fiat)
         == if r.fiatCurrency == fiat && r.longCryptoAsset != "" then r.longCryptoAsset else LastAsset(rows, fiat)
  {
    var n := |rows| - 1;
    if i == n {
      assert rows[i := r][..n] == rows[..n];
    } else {
      LastAssetUpdate(rows[..n], i, r, fiat);
      assert rows[i := r][..n] == rows[..n][i := r];
    }
  }

  lemma {:induction false} LastAssetFlagged(rows: seq<FloatPosition>, id: nat, fiat: string)
    ensures LastAsset(Flagged(rows, id), fiat) == LastAsset(rows, fiat)
  {
    if id < |rows| {
      var n := |rows| - 1;
      if id < n {
        LastAssetFlagged(rows[..n], id, fiat);
        assert Flagged(rows, id)[..n] == Flagged(rows[..n], id);
      } else {
        assert Flagged(rows, id)[..n] == rows[..n];
      }
    }
  }

  lemma LastAssetAdded(rows: seq<FloatPosition>, p: FloatPosition, fiat: string)
    requires Shaped(rows)
    ensures LastAsset(Added(rows, p), fiat)
         == if p.fiatCurrency == fiat && p.longCryptoAsset != "" then p.longCryptoAsset else LastAsset(rows, fiat)
  {
    var i := FindUnsettled(rows, p.fiatCurrency);
    if i < |rows| {
      LastAssetUpdate(rows, i, Accumulated(rows[i], p), fiat);
      LastAssetIs(rows, i);
    } else {
      assert Added(rows, p)[..|rows|] == rows;
    }
  }

  lemma {:induction false} LastAssetIs(rows: seq<FloatPosition>, i: nat)
    requires i < |rows| && forall j :: i < j < |rows| ==> rows[j].fiatCurrency != rows[i].fiatCurrency
    ensures rows[i].longCryptoAsset != "" ==> LastAsset(rows, rows[i].fiatCurrency) == rows[i].longCryptoAsset
  {
    if i < |rows| - 1 {
      LastAssetIs(rows[..|rows| - 1], i);
    }
  }

  // --- When the two views name the same asset ---

  /** No row of the currency has been settled. */
  ghost predicate NoneSettled(rows: seq<FloatPosition>, fiat: string) {
    forall i :: 0 <= i < |rows| && rows[i].fiatCurrency == fiat ==> !rows[i].settled
  }

  /** The asset of the latest addition naming one that was made before the currency's first settlement. */
  ghost function EarlyAsset(ops: seq<Op>, fiat: string): string {
    if ops == [] then ""
    else
      var op, rest := ops[|ops| - 1], ops[..|ops| - 1];
      if op.Add? && op.p.fiatCurrency == fiat && op.p.longCryptoAsset != "" && NoneSettled(Run([], rest), fiat)
      then op.p.longCryptoAsset else EarlyAsset(rest, fiat)
  }

  /** The asset of the first row is the one GetFloat names. */
  lemma {:induction false} FirstAssetIs(rows: seq<FloatPosition>, i: nat)
    requires i < |rows| && forall j :: 0 <= j < i ==> rows[j].fiatCurrency != rows[i].fiatCurrency
    ensures FirstAsset(rows, rows[i].fiatCurrency) == rows[i].longCryptoAsset
  {
    var n := |rows| - 1;
    if i < n {
      assert Mentioned(rows[..n], rows[i].fiatCurrency) by {
        assert rows[..n][i] == rows[i];
      }
      FirstAssetIs(rows[..n], i);
    } else {
      assert forall j :: 0 <= j < n ==> rows[..n][j] == rows[j];
    }
  }

  lemma {:induction false} NoFirstAsset(rows: seq<FloatPosition>, fiat: string)
    requires forall j :: 0 <= j < |rows| ==> rows[j].fiatCurrency != fiat
    ensures FirstAsset(rows, fiat) == ""
  {
    if rows != [] {
      NoFirstAsset(rows[..|rows| - 1], fiat);
    }
  }

  /** First row of the currency, or the table length. */
  lemma FirstRow(rows: seq<FloatPosition>, fiat: string) returns (i: nat)
    ensures i <= |rows| && (forall j :: 0 <= j < i ==> rows[j].fiatCurrency != fiat)
    ensures i < |rows| ==> rows[i].fiatCurrency == fiat
  {
    i := 0;
    while i < |rows| && rows[i].fiatCurrency != fiat
      invariant i <= |rows| && forall j :: 0 <= j < i ==> rows[j].fiatCurrency != fiat
    {
      i := i + 1;
    }
  }

  /** The first row changes its asset only while it is the unsettled one. */
  lemma FirstAssetAdded(rows: seq<FloatPosition>, p: FloatPosition, fiat: string)
    requires Shaped(rows)
    ensures FirstAsset(Added(rows, p), fiat)
         == if p.fiatCurrency == fiat && p.longCryptoAsset != "" && NoneSettled(rows, fiat) then p.longCryptoAsset
            else FirstAsset(rows, fiat)
  {
    hide FirstAsset;
    var rows' := Added(rows, p);
    var i := FirstRow(rows, fiat);
    if i == |rows| {
      NoFirstAsset(rows, fiat);
      if p.fiatCurrency == fiat {
        FirstAssetIs(rows', i);
      } else {
        NoFirstAsset(rows', fiat);
      }
    } else {
      FirstAssetIs(rows, i);
      FirstAssetIs(rows', i);
    }
  }

  lemma FirstAssetFlagged(rows: seq<FloatPosition>, id: nat, fiat: string)
    ensures FirstAsset(Flagged(rows, id), fiat) == FirstAsset(rows, fiat)
  {
    hide FirstAsset;
    var i := FirstRow(rows, fiat);
    if i == |rows| {
      NoFirstAsset(rows, fiat);
      NoFirstAsset(Flagged(rows, id), fiat);
    } else {
      FirstAssetIs(rows, i);
      FirstAssetIs(Flagged(rows, id), i);
    }
  }

  lemma {:induction false} FirstAssetIsEarly(ops: seq<Op>, fiat: string)
    ensures FirstAsset(Run([], ops), fiat) == EarlyAsset(ops, fiat)
  {
    if ops != [] {
      var rest, op := ops[..|ops| - 1], ops[|ops| - 1];
      FirstAssetIsEarly(rest, fiat);
      TableShape([], rest);
      RunAppend([], rest, op);
      assert ops == rest + [op];
      match op {
        case Add(p) => FirstAssetAdded(Run([], rest), p.(settled := false), fiat);
        case Settle(id) => FirstAssetFlagged(Run([], rest), id, fiat);
      }
    }
  }

  lemma {:induction false} LastAssetIsLatest(ops: seq<Op>, fiat: string)
    ensures LastAsset(Run([], ops), fiat) == LatestAsset(ops, fiat)
  {
    if ops != [] {
      var rest, op := ops[..|ops| - 1], ops[|ops| - 1];
      LastAssetIsLatest(rest, fiat);
      TableShape([], rest);
      RunAppend([], rest, op);
      assert ops == rest + [op];
      match op {
        case Add(p) => LastAssetAdded(Run([], rest), p.(settled := false), fiat);
        case Settle(id) => LastAssetFlagged(Run([], rest), id, fiat);
      }
    }
  }

  /** Over any additions and settlements ListFloat names the currency's latest asset and GetFloat the latest one from
      before its first settlement; in everything else they agree, so they agree exactly while those two are the same. */
  lemma ViewsAgreeIff(ops: seq<Op>, fiat: string)
    ensures var rows := Run([], ops);
            && ListedPosition(rows, fiat) == PositionOf(rows, fiat).(asset := LatestAsset(ops, fiat))
            && PositionOf(rows, fiat).asset == EarlyAsset(ops, fiat)
            && (ListedPosition(rows, fiat) == PositionOf(rows, fiat)
                <==> EarlyAsset(ops, fiat) == LatestAsset(ops, fiat))
  {
    FirstAssetIsEarly(ops, fiat);
    LastAssetIsLatest(ops, fiat);
  }

  function Bought(fiat: string, asset: string): FloatPosition {
    FloatPosition(0, fiat, 1.0, 1.0, asset, None, false, None)
  }

  /** Another asset bought after a settlement makes the views differ. */
  lemma ViewsDiffer()
    ensures var ops := [Add(Bought("USD", "BTC")), Settle(0), Add(Bought("USD", "ETH"))];
            PositionOf(Run([], ops), "USD").asset == "BTC" && ListedPosition(Run([], ops), "USD").asset == "ETH"
  {
    var a, b, c := Add(Bought("USD", "BTC")), Settle(0), Add(Bought("USD", "ETH"));
    assert [a, b, c] == [] + [a] + [b] + [c];
    RunAppend([], [], a);
    RunAppend([], [] + [a], b);
    RunAppend([], [] + [a] + [b], c);
    assert Run([], []) == [];
    var r, s := Bought("USD", "BTC"), Bought("USD", "ETH");
    assert Run([], [] + [a]) == [r];
    assert Run([], [] + [a] + [b]) == [r.(settled := true)];
    var rows := [r.(settled := true), s.(id := 1)];
    assert Run([], [a, b, c]) == rows;
    FirstAssetIs(rows, 0);
    LastAssetIs(rows, 1);
  }
}
