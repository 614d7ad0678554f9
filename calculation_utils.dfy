/**
 * CalculationUtils.js: valuation at the mark price, the account-wide free
 * margin ("DEX") of each open position, liquidation prices and the account
 * summary.
 *
 * calculateAllDEX is written once, over the closed test it uses: this file's
 * version tests `status === 'closed'` (StatusField) and
 * CalculationUtils_Version25.js tests `closed` (ClosedFlag). The liquidation
 * and account functions of both files test the boolean `closed` flag and are
 * otherwise the same text, so they are defined here once.
 */
module CalculationUtils {
  import opened Positions

  /** calculateUnrealizedPnL: nothing once `status` is 'closed'; otherwise the
      favourable price move times quantity times contract value. */
  function UnrealizedPnL(pos: Position, contractValue: real): (r: real)
    ensures pos.statusClosed ==> r == 0.0
    ensures !pos.statusClosed && pos.quantity * contractValue > 0.0 ==>
      (r > 0.0 <==> Delta(pos.direction, pos.entryPrice, pos.currentPrice) > 0.0)
  {
    if pos.statusClosed then 0.0
    else Delta(pos.direction, pos.entryPrice, pos.currentPrice) * pos.quantity * contractValue
  }

  /** A long and a short of the same size at the same prices have opposite P&L. */
  lemma LongShortOpposite(pos: Position, contractValue: real)
    ensures UnrealizedPnL(pos.(direction := Long), contractValue)
         == -UnrealizedPnL(pos.(direction := Short), contractValue)
  {
  }

  /** calculatePositionValues: revalue an open record at the given mark price.
      Value, margin and maintenance margin follow the mark price; the open fee
      and every other field are left as they were. A closed record (by the
      `closed` flag) comes back unchanged. `feeRate` is unused. */
  function PositionValues(pos: Position, currentPrice: real, contractValue: real,
                          feeRate: real, maintenanceMarginRate: real): (r: Position)
    ensures IsPositionClosed(pos) ==> r == pos
    ensures !IsPositionClosed(pos) ==>
      && r.currentPrice == currentPrice
      && r.positionValue == pos.quantity * contractValue * currentPrice
      && (pos.leverage != 0.0 ==> r.margin * pos.leverage == r.positionValue)
      && r.maintenanceMargin == r.positionValue * maintenanceMarginRate
      && r.unrealizedPnl == UnrealizedPnL(r.(statusClosed := false), contractValue)
      && r.(currentPrice := pos.currentPrice, positionValue := pos.positionValue,
            margin := pos.margin, maintenanceMargin := pos.maintenanceMargin,
            unrealizedPnl := pos.unrealizedPnl) == pos
  {
    if IsPositionClosed(pos) then pos
    else
      var positionValue := pos.quantity * contractValue * currentPrice;
      var margin := Quotient(positionValue, pos.leverage);
      var maintenanceMargin := pos.quantity * currentPrice * contractValue * maintenanceMarginRate;
      var delta := Delta(pos.direction, pos.entryPrice, currentPrice);
      pos.(currentPrice := currentPrice, positionValue := positionValue, margin := margin,
           maintenanceMargin := maintenanceMargin,
           unrealizedPnl := delta * pos.quantity * contractValue)
  }

  /** Revaluing twice at the same prices is revaluing once. */
  lemma PositionValuesIdempotent(pos: Position, currentPrice: real, contractValue: real,
                                 feeRate: real, maintenanceMarginRate: real)
    ensures var once := PositionValues(pos, currentPrice, contractValue, feeRate, maintenanceMarginRate);
      PositionValues(once, currentPrice, contractValue, feeRate, maintenanceMarginRate) == once
  {
  }

  /** Valuation neither reads nor writes a record's dex and liquidation price. */
  lemma PositionValuesIgnoresDex(pos: Position, dex: Option<real>, liquidationPrice: Option<real>,
                                 currentPrice: real, contractValue: real, feeRate: real,
                                 maintenanceMarginRate: real)
    ensures PositionValues(pos.(dex := dex, liquidationPrice := liquidationPrice), currentPrice,
                           contractValue, feeRate, maintenanceMarginRate)
         == PositionValues(pos, currentPrice, contractValue, feeRate, maintenanceMarginRate)
              .(dex := dex, liquidationPrice := liquidationPrice)
  {
  }

  // The per-record terms of the DEX sums.
  function MaintenanceOf(p: Position): real { p.maintenanceMargin }
  function OpenFeeOf(p: Position): real { p.openFee }
  function IsolatedMarginOf(p: Position): real { if p.marginType == Isolated then p.margin else 0.0 }
  function UnrealizedOf(p: Position): real { p.unrealizedPnl }

  /** The account-wide pool: balance less every listed record's maintenance
      margin and open fee and every isolated margin, plus all floating P&L. */
  function DexPool(active: seq<Position>, currentBalance: real): real {
    currentBalance - SumBy(active, MaintenanceOf) - SumBy(active, OpenFeeOf)
      - SumBy(active, IsolatedMarginOf) + SumBy(active, UnrealizedOf)
  }

  lemma {:induction false} OthersPlusOwn(active: seq<Position>)
    ensures forall i :: 0 <= i < |active| ==>
      SumExcept(active, i, UnrealizedOf) + UnrealizedOf(active[i]) == SumBy(active, UnrealizedOf)
  {
    forall i | 0 <= i < |active|
      ensures SumExcept(active, i, UnrealizedOf) + UnrealizedOf(active[i]) == SumBy(active, UnrealizedOf)
    {
      SumExceptPlusOwn(active, i, UnrealizedOf);
    }
  }

  /** calculateAllDEX: keep the records the test finds open, in order, and give
      each the common pool less its own unrealized P&L, that is, plus the
      unrealized P&L of every other kept record. */
  function AllDex(test: ClosedTest, positions: seq<Position>, currentBalance: real): (r: seq<Position>)
    ensures |r| == |Active(test, positions)|
    ensures forall i :: 0 <= i < |r| ==> r[i] == Active(test, positions)[i].(dex := r[i].dex)
    ensures forall i :: 0 <= i < |r| ==>
      r[i].dex == Some(DexPool(Active(test, positions), currentBalance) - r[i].unrealizedPnl)
  {
    var active := Active(test, positions);
    var totalMaintenanceMargin := SumBy(active, MaintenanceOf);
    var totalFees := SumBy(active, OpenFeeOf);
    var totalIsolatedMargin := SumBy(active, IsolatedMarginOf);
    OthersPlusOwn(active);
    seq(|active|, i requires 0 <= i < |active| =>
      active[i].(dex := Some(currentBalance - totalMaintenanceMargin - totalFees
                             - totalIsolatedMargin + SumExcept(active, i, UnrealizedOf))))
  }

  /** dex + own unrealized P&L is one account-wide figure for every output record. */
  lemma DexPlusOwnPnlConstant(test: ClosedTest, positions: seq<Position>, currentBalance: real, i: int, j: int)
    requires 0 <= i < |AllDex(test, positions, currentBalance)|
    requires 0 <= j < |AllDex(test, positions, currentBalance)|
    ensures var r := AllDex(test, positions, currentBalance);
      r[i].dex.value + r[i].unrealizedPnl == r[j].dex.value + r[j].unrealizedPnl
  {
  }

  /** Every output record is an open input record with its dex set. */
  lemma AllDexFromOpen(test: ClosedTest, positions: seq<Position>, currentBalance: real)
    ensures var r := AllDex(test, positions, currentBalance);
      forall i :: 0 <= i < |r| ==>
        exists p :: p in positions && !IsClosed(test, p) && r[i] == p.(dex := r[i].dex)
  {
    var r := AllDex(test, positions, currentBalance);
    var active := Active(test, positions);
    ActiveMembers(test, positions);
    forall i | 0 <= i < |r|
      ensures exists p :: p in positions && !IsClosed(test, p) && r[i] == p.(dex := r[i].dex)
    {
      var p := active[i];
      assert p in active;
      assert p in positions && !IsClosed(test, p);
      assert r[i] == p.(dex := r[i].dex);
    }
  }

  /** Every open input record comes out with its dex set. */
  lemma AllDexKeepsOpen(test: ClosedTest, positions: seq<Position>, currentBalance: real, q: Position)
    requires q in positions && !IsClosed(test, q)
    ensures var r := AllDex(test, positions, currentBalance);
      exists i :: 0 <= i < |r| && r[i] == q.(dex := r[i].dex)
  {
    var r := AllDex(test, positions, currentBalance);
    var active := Active(test, positions);
    ActiveMembers(test, positions);
    assert q in active;
    var i :| 0 <= i < |active| && active[i] == q;
    assert r[i] == q.(dex := r[i].dex);
  }

  /** Liquidation price of one record from its dex: for a long the price at
      which the position value has fallen by dex, for a short risen by dex. */
  function LiquidationPrice(pos: Position, contractValue: real): (r: Option<real>)
    ensures pos.dex.None? ==> r.None?
    ensures pos.dex.Some? && pos.quantity * contractValue != 0.0 ==>
      r.Some? && r.value * (pos.quantity * contractValue)
                == if pos.direction == Long then pos.positionValue - pos.dex.value
                   else pos.positionValue + pos.dex.value
  {
    match pos.dex
    case None => None
    case Some(dex) =>
      if pos.direction == Long then Some(Quotient(pos.positionValue - dex, pos.quantity * contractValue))
      else Some(Quotient(pos.positionValue + dex, pos.quantity * contractValue))
  }

  /** calculateLiquidationPrices: same length and order; a closed record is
      returned as it was; an open one changes in its liquidation price only. */
  function LiquidationPrices(positionsWithDex: seq<Position>, contractValue: real): (r: seq<Position>)
    ensures |r| == |positionsWithDex|
    ensures forall i :: 0 <= i < |r| ==>
      r[i].(liquidationPrice := positionsWithDex[i].liquidationPrice) == positionsWithDex[i]
    ensures forall i :: 0 <= i < |r| && IsPositionClosed(positionsWithDex[i]) ==> r[i] == positionsWithDex[i]
    ensures forall i :: 0 <= i < |r| && !IsPositionClosed(positionsWithDex[i]) ==>
      r[i].liquidationPrice == LiquidationPrice(positionsWithDex[i], contractValue)
  {
    seq(|positionsWithDex|, i requires 0 <= i < |positionsWithDex| =>
      var pos := positionsWithDex[i];
      if IsPositionClosed(pos) then pos
      else pos.(liquidationPrice := LiquidationPrice(pos, contractValue)))
  }

  /** Computing liquidation prices a second time changes nothing. */
  lemma LiquidationPricesIdempotent(ps: seq<Position>, contractValue: real)
    ensures LiquidationPrices(LiquidationPrices(ps, contractValue), contractValue)
         == LiquidationPrices(ps, contractValue)
  {
    var once := LiquidationPrices(ps, contractValue);
    var twice := LiquidationPrices(once, contractValue);
    forall i | 0 <= i < |ps| ensures twice[i] == once[i] {
      if !IsPositionClosed(ps[i]) {
        LiquidationPriceIgnoresItself(ps[i], once[i].liquidationPrice, contractValue);
      }
    }
  }

  lemma LiquidationPriceIgnoresItself(pos: Position, x: Option<real>, contractValue: real)
    ensures LiquidationPrice(pos.(liquidationPrice := x), contractValue) == LiquidationPrice(pos, contractValue)
  {
  }

  // The per-record terms of the account summary.
  function OpenCrossMarginOf(p: Position): real {
    if p.marginType == Cross && !IsPositionClosed(p) then p.margin else 0.0
  }
  function OpenIsolatedMarginOf(p: Position): real {
    if p.marginType == Isolated && !IsPositionClosed(p) then p.margin else 0.0
  }
  function CloseFeeOf(p: Position): real {
    if IsPositionClosed(p) then p.closeFee else 0.0
  }
  function OpenUnrealizedOf(p: Position): real {
    if !IsPositionClosed(p) then p.unrealizedPnl else 0.0
  }
  function RealizedOf(p: Position): real {
    if IsPositionClosed(p) && p.realizedPnl.Some? then p.realizedPnl.value else 0.0
  }

  datatype AccountInfo = AccountInfo(
    totalMarginCross: real,
    totalMarginIsolated: real,
    totalMargin: real,
    totalOpenFee: real,
    totalCloseFee: real,
    totalFee: real,
    totalUnrealizedPnl: real,
    totalRealizedPnl: real,
    availableBalance: real)

  /** calculateAccountInfo: margin in use is the margin of open records of
      either type, and what is left of the balance after it is available; fees
      are every record's open fee plus the close fees of closed records.
      `initialBalance` is unused. */
  function CalculateAccountInfo(positions: seq<Position>, initialBalance: real, currentBalance: real): (r: AccountInfo)
    ensures r.totalMargin == r.totalMarginCross + r.totalMarginIsolated
    ensures r.availableBalance == currentBalance - r.totalMargin
    ensures r.totalFee == r.totalOpenFee + r.totalCloseFee
    ensures r.totalMarginCross == SumBy(positions, OpenCrossMarginOf)
    ensures r.totalMarginIsolated == SumBy(positions, OpenIsolatedMarginOf)
    ensures r.totalOpenFee == SumBy(positions, OpenFeeOf)
    ensures r.totalCloseFee == SumBy(positions, CloseFeeOf)
    ensures r.totalUnrealizedPnl == SumBy(positions, OpenUnrealizedOf)
    ensures r.totalRealizedPnl == SumBy(positions, RealizedOf)
  {
    var totalMarginCross := SumBy(positions, OpenCrossMarginOf);
    var totalMarginIsolated := SumBy(positions, OpenIsolatedMarginOf);
    var totalMargin := totalMarginCross + totalMarginIsolated;
    var totalOpenFee := SumBy(positions, OpenFeeOf);
    var totalCloseFee := SumBy(positions, CloseFeeOf);
    AccountInfo(totalMarginCross, totalMarginIsolated, totalMargin, totalOpenFee, totalCloseFee,
                totalOpenFee + totalCloseFee, SumBy(positions, OpenUnrealizedOf),
                SumBy(positions, RealizedOf), currentBalance - totalMargin)
  }

  /** Adding a closed record to the list leaves margin in use, available
      balance and unrealized P&L as they were. */
  lemma {:induction false} ClosedRecordsHoldNoMargin(positions: seq<Position>, p: Position,
                                                     initialBalance: real, currentBalance: real)
    requires IsPositionClosed(p)
    ensures var before := CalculateAccountInfo(positions, initialBalance, currentBalance);
      var after := CalculateAccountInfo(positions + [p], initialBalance, currentBalance);
      after.totalMargin == before.totalMargin && after.availableBalance == before.availableBalance
      && after.totalUnrealizedPnl == before.totalUnrealizedPnl
  {
    SumByAppend(positions, p, OpenCrossMarginOf);
    SumByAppend(positions, p, OpenIsolatedMarginOf);
    SumByAppend(positions, p, OpenUnrealizedOf);
  }
}
