/** The Postgres float table: settling zeroes the amounts, and every statement is one transaction. */
module PgFloat {
  import opened Base
  import opened Records
  import opened FloatTable

  /** The row SELECT ... FOR UPDATE finds is incremented, otherwise a row is inserted. */
  function PgAdded(rows: seq<FloatPosition>, p: FloatPosition): seq<FloatPosition> {
    var i := FindUnsettled(rows, p.fiatCurrency);
    if i < |rows| then
      rows[i := rows[i].(shortFiatAmount := rows[i].shortFiatAmount + p.shortFiatAmount,
                         longCryptoAmount := rows[i].longCryptoAmount + p.longCryptoAmount,
                         longCryptoAsset := p.longCryptoAsset,
                         settlementDueAt := p.settlementDueAt)]
    else rows + [p.(id := |rows|, settled := false)]
  }

  function PgSettled(rows: seq<FloatPosition>, id: nat): seq<FloatPosition> {
    if id < |rows| then rows[id := Zeroed(rows[id])] else rows
  }

  function Zeroed(r: FloatPosition): FloatPosition {
    r.(settled := true, shortFiatAmount := 0.0, longCryptoAmount := 0.0)
  }

  /** A zero due time is stored as year one, so it is due at once. */
  predicate PgMatured(r: FloatPosition, before: Time) {
    !r.settled && (r.settlementDueAt.Some? ==> r.settlementDueAt.value <= before)
  }

  function PgMaturedRows(rows: seq<FloatPosition>, before: Time): (out: seq<FloatPosition>)
    ensures forall r :: r in out <==> r in rows && PgMatured(r, before)
  {
    if rows == [] then []
    else
      var r := rows[|rows| - 1];
      assert rows == rows[..|rows| - 1] + [r];
      PgMaturedRows(rows[..|rows| - 1], before) + if PgMatured(r, before) then [r] else []
  }

  function PgSwept(rows: seq<FloatPosition>, now: Time): (r: seq<FloatPosition>)
    ensures |r| == |rows|
  {
    seq(|rows|, i requires 0 <= i < |rows| => if PgMatured(rows[i], now) then Zeroed(rows[i]) else rows[i])
  }

  /** The unsettled rows whose due time has come or is missing. */
  ghost function PgDue(rows: seq<FloatPosition>, now: Time): set<nat> {
    set i: nat | i < |rows|
                 && !rows[i].settled && (rows[i].settlementDueAt.Some? ==> rows[i].settlementDueAt.value <= now)
  }

  lemma {:induction false} PgMaturedAreDue(rows: seq<FloatPosition>, now: Time)
    ensures |PgMaturedRows(rows, now)| == |PgDue(rows, now)|
  {
    if rows != [] {
      var rest, r := rows[..|rows| - 1], rows[|rows| - 1];
      PgMaturedAreDue(rest, now);
      if |rows| - 1 in PgDue(rows, now) {
        assert PgDue(rows, now) == PgDue(rest, now) + {|rows| - 1};
      } else {
        assert PgDue(rows, now) == PgDue(rest, now);
      }
    }
  }

  /** A sweep settles exactly the rows that are due, at zero, and changes nothing else. */
  lemma PgSweepSettlesDue(rows: seq<FloatPosition>, now: Time, i: nat)
    requires i < |rows|
    ensures var r, r' := rows[i], PgSwept(rows, now)[i];
            r' == if !r.settled && (r.settlementDueAt.Some? ==> r.settlementDueAt.value <= now)
                  then r.(settled := true, shortFiatAmount := 0.0, longCryptoAmount := 0.0) else r
  {
  }

  class PgFloatStore {
    var rows: seq<FloatPosition>

    ghost predicate Valid() reads this {
      Shaped(rows)
    }

    constructor ()
      ensures Valid() && rows == []
    {
      rows := [];
    }

    method AddFloat(p: FloatPosition)
      requires Valid()
      modifies this
      ensures Valid() && rows == PgAdded(old(rows), p)
    {
      var i := FindUnsettled(rows, p.fiatCurrency);
      if i < |rows| {
        var r := rows[i];
        rows := rows[i := r.(shortFiatAmount := r.shortFiatAmount + p.shortFiatAmount,
                             longCryptoAmount := r.longCryptoAmount + p.longCryptoAmount,
                             longCryptoAsset := p.longCryptoAsset,
                             settlementDueAt := p.settlementDueAt)];
      } else {
        rows := rows + [p.(id := |rows|, settled := false)];
      }
    }

    /** An unknown id updates no row and then fails to read one back. */
    method SettleFloat(id: nat) returns (found: bool)
      requires Valid()
      modifies this
      ensures Valid() && rows == PgSettled(old(rows), id) && found == (id < |rows|)
    {
      if id < |rows| {
        rows := rows[id := Zeroed(rows[id])];
      }
      found := id < |rows|;
    }

    /** SweepMatured run as one transaction without store errors. */
    method SweepMatured(now: Time) returns (swept: nat)
      requires Valid()
      modifies this
      ensures Valid() && rows == PgSwept(old(rows), now) && |rows| == |old(rows)|
      ensures forall i :: 0 <= i < |rows| ==>
        var r := old(rows)[i];
        rows[i] == if !r.settled && (r.settlementDueAt.Some? ==> r.settlementDueAt.value <= now)
                   then r.(settled := true, shortFiatAmount := 0.0, longCryptoAmount := 0.0) else r
      ensures PgDue(rows, now) == {} && swept == |PgDue(old(rows), now)|
    {
      hide PgMaturedRows;
      ghost var before := rows;
      var matured := PgMaturedRows(rows, now);
      swept := 0;
      for j := 0 to |matured|
        invariant Valid() && |rows| == |before| && swept == j
        invariant forall i :: 0 <= i < |before| ==>
          rows[i] == if before[i] in matured[..j] then Zeroed(before[i]) else before[i]
      {
        assert matured[j] in matured;
        assert matured[..j + 1] == matured[..j] + [matured[j]];
        var found := SettleFloat(matured[j].id);
        if !found {
          assert false;
        }
        swept := swept + 1;
      }
      assert matured[..|matured|] == matured;
      assert rows == PgSwept(before, now);
      PgMaturedAreDue(before, now);
      forall i | 0 <= i < |before|
        ensures var r := before[i];
                rows[i] == if !r.settled && (r.settlementDueAt.Some? ==> r.settlementDueAt.value <= now)
                           then r.(settled := true, shortFiatAmount := 0.0, longCryptoAmount := 0.0) else r
      {
        PgSweepSettlesDue(before, now, i);
      }
    }
  }

  /** An addition leaves its currency an unsettled row with its asset and due time, and raises the currency's amounts by
      its own; no other row and no other currency's amount changes. */
  lemma AddFields(rows: seq<FloatPosition>, p: FloatPosition, fiat: string)
    ensures var rows' := PgAdded(rows, p);
            && (exists i :: 0 <= i < |rows'| && rows'[i].fiatCurrency == p.fiatCurrency && !rows'[i].settled
                  && rows'[i].longCryptoAsset == p.longCryptoAsset && rows'[i].settlementDueAt == p.settlementDueAt
                  && forall j :: 0 <= j < |rows| && j != i ==> rows'[j] == rows[j])
            && ShortOf(rows', fiat) == ShortOf(rows, fiat) + (if p.fiatCurrency == fiat then p.shortFiatAmount else 0.0)
            && LongOf(rows', fiat) == LongOf(rows, fiat) + (if p.fiatCurrency == fiat then p.longCryptoAmount else 0.0)
  {
    var rows', i := PgAdded(rows, p), FindUnsettled(rows, p.fiatCurrency);
    assert rows'[i].fiatCurrency == p.fiatCurrency && !rows'[i].settled;
    if i < |rows| {
      ShortUpdate(rows, i, rows'[i], fiat);
      LongUpdate(rows, i, rows'[i], fiat);
    } else {
      assert rows'[..|rows|] == rows;
    }
  }

  /** A sweep settles at most one row of each currency. */
  lemma {:induction false} SweepTakesOnePerCurrency(rows: seq<FloatPosition>, now: Time)
    requires Shaped(rows)
    ensures var m := PgMaturedRows(rows, now);
            forall i, j :: 0 <= i < j < |m| ==> m[i].fiatCurrency != m[j].fiatCurrency
  {
    if rows != [] {
      var rest, last := rows[..|rows| - 1], rows[|rows| - 1];
      SweepTakesOnePerCurrency(rest, now);
      forall i | 0 <= i < |PgMaturedRows(rest, now)|
        ensures PgMaturedRows(rest, now)[i].fiatCurrency != last.fiatCurrency
      {
        assert PgMaturedRows(rest, now)[i] in PgMaturedRows(rest, now);
      }
    }
  }

  // --- Outstanding float over a run ---

  function Apply(rows: seq<FloatPosition>, op: Op): seq<FloatPosition> {
    match op
    case Add(p) => PgAdded(rows, p)
    case Settle(id) => PgSettled(rows, id)
  }

  function Run(ops: seq<Op>): seq<FloatPosition> {
    if ops == [] then [] else Apply(Run(ops[..|ops| - 1]), ops[|ops| - 1])
  }

  /** Everything ever added for the currency. */
  function Fronted(ops: seq<Op>, fiat: string): Decimal {
    if ops == [] then 0.0
    else
      var op := ops[|ops| - 1];
      Fronted(ops[..|ops| - 1], fiat)
      + if op.Add? && op.p.fiatCurrency == fiat then op.p.shortFiatAmount else 0.0
  }

  /** What the settlements of a run took off the currency. */
  function Repaid(ops: seq<Op>, fiat: string): Decimal {
    if ops == [] then 0.0
    else
      var op, rows := ops[|ops| - 1], Run(ops[..|ops| - 1]);
      Repaid(ops[..|ops| - 1], fiat)
      + if op.Settle? && op.id < |rows| && rows[op.id].fiatCurrency == fiat then rows[op.id].shortFiatAmount else 0.0
  }

  /** The outstanding amount and what was repaid add up to what was fronted. */
  lemma {:induction false} OutstandingFloat(ops: seq<Op>, fiat: string)
    ensures ShortOf(Run(ops), fiat) + Repaid(ops, fiat) == Fronted(ops, fiat)
  {
    if ops != [] {
      OutstandingFloat(ops[..|ops| - 1], fiat);
      StepShort(Run(ops[..|ops| - 1]), ops[|ops| - 1], fiat);
    }
  }

  lemma StepShort(rows: seq<FloatPosition>, op: Op, fiat: string)
    ensures ShortOf(Apply(rows, op), fiat) == ShortOf(rows, fiat)
      + (if op.Add? && op.p.fiatCurrency == fiat then op.p.shortFiatAmount else 0.0)
      - (if op.Settle? && op.id < |rows| && rows[op.id].fiatCurrency == fiat then rows[op.id].shortFiatAmount else 0.0)
  {
    match op {
      case Add(p) =>
        var i := FindUnsettled(rows, p.fiatCurrency);
        if i < |rows| {
          ShortUpdate(rows, i, PgAdded(rows, p)[i], fiat);
        } else {
          assert PgAdded(rows, p)[..|rows|] == rows;
        }
      case Settle(id) =>
        if id < |rows| {
          ShortUpdate(rows, id, Zeroed(rows[id]), fiat);
        }
    }
  }

  /** A settled row stays settled, at zero and otherwise unchanged, whatever follows. */
  lemma {:induction false} SettledStays(ops: seq<Op>, more: seq<Op>)
    ensures var rows, rows' := Run(ops), Run(ops + more);
            && |rows| <= |rows'|
            && (forall i :: 0 <= i < |rows| && rows[i].settled ==>
                  && rows'[i] == rows[i] && rows'[i].shortFiatAmount == 0.0 && rows'[i].longCryptoAmount == 0.0
                  && PgSettled(rows', i) == rows')
  {
    SettledForGood(ops);
    if more == [] {
      assert ops + more == ops;
    } else {
      var front, op := more[..|more| - 1], more[|more| - 1];
      SettledStays(ops, front);
      assert (ops + more)[..|ops + more| - 1] == ops + front;
      SettledForGood(ops + front);
      SettledForGood(ops + more);
      SettledRowsKept(Run(ops + front), op);
    }
  }

  lemma SettledRowsKept(rows: seq<FloatPosition>, op: Op)
    requires SettledAreZero(rows) && forall i :: 0 <= i < |rows| && rows[i].settled ==> PgSettled(rows, i) == rows
    ensures var rows' := Apply(rows, op);
            |rows| <= |rows'| && forall i :: 0 <= i < |rows| && rows[i].settled ==> rows'[i] == rows[i]
  {
  }

  /** Settled rows hold nothing, so settling one again changes nothing. */
  lemma {:induction false} SettledForGood(ops: seq<Op>)
    ensures Shaped(Run(ops))
    ensures forall i :: 0 <= i < |Run(ops)| && Run(ops)[i].settled ==>
      Run(ops)[i].shortFiatAmount == 0.0 && Run(ops)[i].longCryptoAmount == 0.0
    ensures forall i :: 0 <= i < |Run(ops)| && Run(ops)[i].settled ==> PgSettled(Run(ops), i) == Run(ops)
    decreases |ops|
  {
    if ops == [] {
    } else {
      SettledForGood(ops[..|ops| - 1]);
      SettledStep(Run(ops[..|ops| - 1]), ops[|ops| - 1]);
    }
  }

  ghost predicate SettledAreZero(rows: seq<FloatPosition>) {
    forall i :: 0 <= i < |rows| && rows[i].settled ==> rows[i].shortFiatAmount == 0.0 && rows[i].longCryptoAmount == 0.0
  }

  lemma SettledStep(rows: seq<FloatPosition>, op: Op)
    requires Shaped(rows) && SettledAreZero(rows)
    ensures Shaped(Apply(rows, op)) && SettledAreZero(Apply(rows, op))
  {
  }
}
