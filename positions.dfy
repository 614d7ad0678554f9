/**
 * The position record shared by every part of the margin engine, and the
 * folds over lists of records that the engine's aggregates are built from.
 *
 * Quantities, prices and balances are exact reals: the string rounding the
 * source applies for display is not part of the model.
 */
module Positions {

  datatype Option<T> = None | Some(value: T)

  datatype Direction = Long | Short

  datatype MarginType = Cross | Isolated

  /** The two field tests the source uses to decide that a record is closed:
      the boolean `closed` flag, or a `status` field equal to 'closed'. */
  datatype ClosedTest = ClosedFlag | StatusField

  /** Which utilities file a pipeline is built from: CalculationUtils.js
      (Base) or CalculationUtils_Version25.js (V25). */
  datatype Version = Base | V25

  /** Extra data a synthetic merged record carries about its group. */
  datatype MergeInfo = MergeInfo(
    longQuantity: real,
    longValue: real,
    shortQuantity: real,
    shortValue: real,
    netQuantity: real,
    originalPositions: seq<Position>)

  /** One position record. `statusClosed` stands for the record's `status`
      field being the string 'closed'; no routine of the engine sets it. */
  datatype Position = Position(
    symbol: string,
    direction: Direction,
    marginType: MarginType,
    entryPrice: real,
    quantity: real,
    currentPrice: real,
    leverage: real,
    closed: bool,
    statusClosed: bool,
    positionValue: real,
    margin: real,
    openFee: real,
    closeFee: real,
    maintenanceMargin: real,
    unrealizedPnl: real,
    realizedPnl: Option<real>,
    closePrice: Option<real>,
    dex: Option<real>,
    liquidationPrice: Option<real>,
    isMerged: bool,
    mergeInfo: Option<MergeInfo>)

  predicate IsClosed(test: ClosedTest, p: Position) {
    match test
    case ClosedFlag => p.closed
    case StatusField => p.statusClosed
  }

  /** isPositionClosed: the `closed === true` test, the ClosedFlag case of
      IsClosed. */
  predicate IsPositionClosed(p: Position) {
    p.closed
  }

  /** The closed test a version's calculateAllDEX and calculateUnrealizedPnL use. */
  function DexTest(v: Version): ClosedTest {
    match v
    case Base => StatusField
    case V25 => ClosedFlag
  }

  /** Price move in the position's favour: up for a long, down for a short. */
  function Delta(d: Direction, entry: real, price: real): (r: real)
    ensures d == Long ==> r == price - entry
    ensures d == Short ==> r == -(price - entry)
  {
    if d == Long then price - entry else entry - price
  }

  /** Division; where the source would divide by zero (giving Infinity or
      NaN) the model yields 0. */
  function Quotient(a: real, b: real): (q: real)
    ensures b != 0.0 ==> q * b == a
    ensures b == 0.0 ==> q == 0.0
  {
    if b == 0.0 then 0.0 else a / b
  }

  function Abs(x: real): (r: real)
    ensures r >= 0.0 && (r == x || r == -x)
  {
    if x < 0.0 then -x else x
  }

  /** The `reduce((sum, p) => sum + f(p), 0)` fold. */
  function SumBy(ps: seq<Position>, f: Position -> real): real {
    if ps == [] then 0.0 else f(ps[0]) + SumBy(ps[1..], f)
  }

  lemma {:induction false} SumByAppend(ps: seq<Position>, p: Position, f: Position -> real)
    ensures SumBy(ps + [p], f) == SumBy(ps, f) + f(p)
  {
    if ps != [] {
      assert (ps + [p])[1..] == ps[1..] + [p];
      SumByAppend(ps[1..], p, f);
    }
  }

  /** Replacing one record changes a fold by exactly that record's difference. */
  lemma {:induction false} SumByUpdate(ps: seq<Position>, i: nat, q: Position, f: Position -> real)
    requires i < |ps|
    ensures SumBy(ps[i := q], f) == SumBy(ps, f) - f(ps[i]) + f(q)
  {
    if i > 0 {
      assert ps[i := q][1..] == ps[1..][i - 1 := q];
      SumByUpdate(ps[1..], i - 1, q, f);
    } else {
      assert ps[i := q][1..] == ps[1..];
    }
  }

  /** Two lists that agree, record by record, on what `f` reads fold to the same sum. */
  lemma {:induction false} SumByCongruent(a: seq<Position>, b: seq<Position>, f: Position -> real)
    requires |a| == |b|
    requires forall i :: 0 <= i < |a| ==> f(a[i]) == f(b[i])
    ensures SumBy(a, f) == SumBy(b, f)
  {
    if a != [] {
      assert f(a[0]) == f(b[0]);
      SumByCongruent(a[1..], b[1..], f);
    }
  }

  /** The fold is linear: the sum of differences is the difference of sums. */
  lemma {:induction false} SumByDifference(ps: seq<Position>, f: Position -> real, g: Position -> real, h: Position -> real)
    requires forall p :: h(p) == f(p) - g(p)
    ensures SumBy(ps, h) == SumBy(ps, f) - SumBy(ps, g)
  {
    if ps != [] {
      SumByDifference(ps[1..], f, g, h);
    }
  }

  /** Sum over every record except the one at index `i` (the `p !== pos`
      test of calculateAllDEX, with index identity for object identity). */
  function SumExcept(ps: seq<Position>, i: int, f: Position -> real): real {
    if ps == [] then 0.0
    else (if i == 0 then 0.0 else f(ps[0])) + SumExcept(ps[1..], i - 1, f)
  }

  lemma {:induction false} SumExceptPlusOwn(ps: seq<Position>, i: nat, f: Position -> real)
    requires i < |ps|
    ensures SumExcept(ps, i, f) + f(ps[i]) == SumBy(ps, f)
  {
    if i == 0 {
      SumExceptNone(ps[1..], -1, f);
    } else {
      SumExceptPlusOwn(ps[1..], i - 1, f);
    }
  }

  lemma {:induction false} SumExceptNone(ps: seq<Position>, i: int, f: Position -> real)
    requires i < 0
    ensures SumExcept(ps, i, f) == SumBy(ps, f)
  {
    if ps != [] {
      SumExceptNone(ps[1..], i - 1, f);
    }
  }

  /** `positions.filter(p => !closed(p))` under the given test. */
  function Active(test: ClosedTest, ps: seq<Position>): (r: seq<Position>)
    ensures |r| <= |ps|
    ensures forall i :: 0 <= i < |r| ==> !IsClosed(test, r[i])
  {
    if ps == [] then []
    else if IsClosed(test, ps[0]) then Active(test, ps[1..])
    else [ps[0]] + Active(test, ps[1..])
  }

  /** The filter keeps exactly the records the test finds open. */
  lemma {:induction false} ActiveMembers(test: ClosedTest, ps: seq<Position>)
    ensures forall p :: p in Active(test, ps) <==> p in ps && !IsClosed(test, p)
  {
    if ps != [] {
      ActiveMembers(test, ps[1..]);
      assert ps == [ps[0]] + ps[1..];
    }
  }

  /** Replacing one record by another the test judges alike changes a fold
      over the filtered list by that record's difference, or not at all when
      the test drops both. */
  lemma {:induction false} ActiveSumUpdate(test: ClosedTest, ps: seq<Position>, i: nat, q: Position,
                                           f: Position -> real)
    requires i < |ps| && IsClosed(test, q) == IsClosed(test, ps[i])
    ensures SumBy(Active(test, ps[i := q]), f)
         == SumBy(Active(test, ps), f) + (if IsClosed(test, q) then 0.0 else f(q) - f(ps[i]))
  {
    if i == 0 {
      assert ps[i := q][1..] == ps[1..];
    } else {
      assert ps[i := q][1..] == ps[1..][i - 1 := q];
      ActiveSumUpdate(test, ps[1..], i - 1, q, f);
    }
  }

  /** A list none of whose records is closed passes the filter whole. */
  lemma {:induction false} ActiveOfOpen(test: ClosedTest, ps: seq<Position>)
    requires forall i :: 0 <= i < |ps| ==> !IsClosed(test, ps[i])
    ensures Active(test, ps) == ps
  {
    if ps != [] {
      ActiveOfOpen(test, ps[1..]);
    }
  }

  /** The filter keeps one record per open input. */
  lemma {:induction false} ActiveLength(test: ClosedTest, ps: seq<Position>)
    ensures |Active(test, ps)| == CountOpen(test, ps)
  {
    if ps != [] {
      ActiveLength(test, ps[1..]);
    }
  }

  /** Number of records the test finds open. */
  function CountOpen(test: ClosedTest, ps: seq<Position>): nat {
    if ps == [] then 0 else (if IsClosed(test, ps[0]) then 0 else 1) + CountOpen(test, ps[1..])
  }
}
