/**
 * CalculationUtils_Version25.js: the variant that values a position at its
 * entry price and recomputes its open fee on every pass, and that tests the
 * boolean `closed` flag everywhere.
 *
 * Its calculateAllDEX is CalculationUtils.AllDex(ClosedFlag, ...); its
 * calculateLiquidationPrices and calculateAccountInfo read as the ones of
 * CalculationUtils.js (whose isPositionClosed is the same `closed` test), so
 * this module proves their properties for this version rather than defining
 * them twice.
 */
module CalculationUtils25 {
  import opened Positions
  import CalculationUtils

  /** calculateUnrealizedPnL: nothing once `closed`; otherwise the favourable
      price move times quantity times contract value. */
  function UnrealizedPnL(pos: Position, contractValue: real): (r: real)
    ensures pos.closed ==> r == 0.0
    ensures !pos.closed && pos.quantity * contractValue > 0.0 ==>
      (r > 0.0 <==> Delta(pos.direction, pos.entryPrice, pos.currentPrice) > 0.0)
  {
    if pos.closed then 0.0
    else Delta(pos.direction, pos.entryPrice, pos.currentPrice) * pos.quantity * contractValue
  }

  lemma LongShortOpposite(pos: Position, contractValue: real)
    ensures UnrealizedPnL(pos.(direction := Long), contractValue)
         == -UnrealizedPnL(pos.(direction := Short), contractValue)
  {
  }

  /** calculatePositionValues: value, margin, open fee and maintenance margin
      all come from the entry price; only the current price and the unrealized
      P&L follow the market. A closed record comes back unchanged. */
  function PositionValues(pos: Position, currentPrice: real, contractValue: real,
                          feeRate: real, maintenanceMarginRate: real): (r: Position)
    ensures pos.closed ==> r == pos
    ensures !pos.closed ==>
      && r.currentPrice == currentPrice
      && r.positionValue == pos.quantity * contractValue * pos.entryPrice
      && (pos.leverage != 0.0 ==> r.margin * pos.leverage == r.positionValue)
      && r.openFee == r.positionValue * feeRate
      && r.maintenanceMargin == r.positionValue * maintenanceMarginRate
      && r.unrealizedPnl == UnrealizedPnL(r, contractValue)
      && r.(currentPrice := pos.currentPrice, positionValue := pos.positionValue,
            margin := pos.margin, openFee := pos.openFee,
            maintenanceMargin := pos.maintenanceMargin,
            unrealizedPnl := pos.unrealizedPnl) == pos
  {
    if pos.closed then pos
    else
      var positionValue := pos.quantity * contractValue * pos.entryPrice;
      var margin := Quotient(positionValue, pos.leverage);
      var openFee := positionValue * feeRate;
      var maintenanceMargin := pos.quantity * pos.entryPrice * contractValue * maintenanceMarginRate;
      var delta := Delta(pos.direction, pos.entryPrice, currentPrice);
      pos.(currentPrice := currentPrice, positionValue := positionValue, margin := margin,
           openFee := openFee, maintenanceMargin := maintenanceMargin,
           unrealizedPnl := delta * pos.quantity * contractValue)
  }

  /** Valuation neither reads nor writes a record's dex and liquidation price. */
  lemma PositionValuesIgnoresDex(pos: Position, dex: Option<real>, liquidationPrice: Option<real>,
                                 currentPrice: real, contractValue: real, feeRate: real,
                                 maintenanceMarginRate: real)
    ensures PositionValues(pos.(dex := dex, liquidationPrice := liquidationPrice), currentPrice,
                           contractValue, feeRate, maintenanceMarginRate)
         == PositionValues(pos, currentPrice, contractValue, feeRate, maintenanceMarginRate)
              .(dex := dex, liquidationPrice := liquidationPrice)
  {
  }

  /** A new market price moves the current price and the unrealized P&L of a
      revalued record and nothing else. */
  lemma PriceMovesOnlyPnl(pos: Position, price1: real, price2: real, contractValue: real,
                          feeRate: real, maintenanceMarginRate: real)
    requires !pos.closed
    ensures var r1 := PositionValues(pos, price1, contractValue, feeRate, maintenanceMarginRate);
      var r2 := PositionValues(pos, price2, contractValue, feeRate, maintenanceMarginRate);
      r2 == r1.(currentPrice := price2, unrealizedPnl := r2.unrealizedPnl)
  {
  }

  /** calculateAllDEX of this version drops every `closed` record: what is left
      is one record per open input, none of them closed. */
  lemma AllDexDropsClosed(positions: seq<Position>, currentBalance: real)
    ensures var r := CalculationUtils.AllDex(ClosedFlag, positions, currentBalance);
      |r| == CountOpen(ClosedFlag, positions)
      && forall i :: 0 <= i < |r| ==> !r[i].closed
  {
    ActiveLength(ClosedFlag, positions);
    var r := CalculationUtils.AllDex(ClosedFlag, positions, currentBalance);
    var active := Active(ClosedFlag, positions);
    forall i | 0 <= i < |r| ensures !r[i].closed {
      assert active[i] in active;
    }
  }

  /** With this version's valuation, the liquidation price is the entry price
      moved against the position by dex per unit of exposure. */
  lemma EntryLiquidation(pos: Position, currentPrice: real, contractValue: real,
                         feeRate: real, maintenanceMarginRate: real, dex: real)
    requires !pos.closed && pos.quantity * contractValue != 0.0
    ensures var valued := PositionValues(pos, currentPrice, contractValue, feeRate, maintenanceMarginRate);
      var liq := CalculationUtils.LiquidationPrice(valued.(dex := Some(dex)), contractValue);
      liq.Some?
      && (pos.direction == Long ==> liq.value == pos.entryPrice - dex / (pos.quantity * contractValue))
      && (pos.direction == Short ==> liq.value == pos.entryPrice + dex / (pos.quantity * contractValue))
  {
    EntryLiquidationScaled(pos, currentPrice, contractValue, feeRate, maintenanceMarginRate, dex);
    var liq := CalculationUtils.LiquidationPrice(
      PositionValues(pos, currentPrice, contractValue, feeRate, maintenanceMarginRate).(dex := Some(dex)),
      contractValue);
    var e := pos.quantity * contractValue;
    if pos.direction == Long {
      SolveForPrice(liq.value, e, pos.entryPrice, -dex);
      assert pos.entryPrice + -dex / e == pos.entryPrice - dex / e;
    } else {
      SolveForPrice(liq.value, e, pos.entryPrice, dex);
    }
  }

  /** The same statement multiplied out by the exposure qty·cv. */
  lemma EntryLiquidationScaled(pos: Position, currentPrice: real, contractValue: real,
                               feeRate: real, maintenanceMarginRate: real, dex: real)
    requires !pos.closed && pos.quantity * contractValue != 0.0
    ensures var valued := PositionValues(pos, currentPrice, contractValue, feeRate, maintenanceMarginRate);
      var liq := CalculationUtils.LiquidationPrice(valued.(dex := Some(dex)), contractValue);
      var e := pos.quantity * contractValue;
      liq.Some?
      && liq.value * e == (if pos.direction == Long then e * pos.entryPrice - dex else e * pos.entryPrice + dex)
  {
    var valued := PositionValues(pos, currentPrice, contractValue, feeRate, maintenanceMarginRate);
    assert valued.(dex := Some(dex)).positionValue == pos.quantity * contractValue * pos.entryPrice;
  }

  /** The price x with x·e = e·entry + d is entry + d/e. */
  lemma SolveForPrice(x: real, e: real, entry: real, d: real)
    requires e != 0.0 && x * e == e * entry + d
    ensures x == entry + d / e
  {
    assert (entry + d / e) * e == e * entry + d;
  }

  /** A long's liquidation price lies below its entry exactly when its dex is
      positive (and above it for a short). */
  lemma LiquidationBelowEntryIffPositiveDex(pos: Position, currentPrice: real, contractValue: real,
                                            feeRate: real, maintenanceMarginRate: real, dex: real)
    requires !pos.closed && pos.quantity * contractValue > 0.0
    ensures var valued := PositionValues(pos, currentPrice, contractValue, feeRate, maintenanceMarginRate);
      var liq := CalculationUtils.LiquidationPrice(valued.(dex := Some(dex)), contractValue);
      liq.Some?
      && (pos.direction == Long ==> (liq.value < pos.entryPrice <==> dex > 0.0))
      && (pos.direction == Short ==> (liq.value > pos.entryPrice <==> dex > 0.0))
  {
    EntryLiquidation(pos, currentPrice, contractValue, feeRate, maintenanceMarginRate, dex);
    var e := pos.quantity * contractValue;
    assert dex > 0.0 <==> dex / e > 0.0;
  }

  /** calculateAccountInfo: every unit of margin in use belongs to an open
      record, and every unit of realized P&L to a closed one. */
  lemma {:induction false} MarginOpenRealizedClosed(positions: seq<Position>, initialBalance: real, currentBalance: real)
    ensures var all := CalculationUtils.CalculateAccountInfo(positions, initialBalance, currentBalance);
      var open := CalculationUtils.CalculateAccountInfo(Active(ClosedFlag, positions), initialBalance, currentBalance);
      all.totalMargin == open.totalMargin
      && all.availableBalance == open.availableBalance
      && open.totalRealizedPnl == 0.0
      && open.totalCloseFee == 0.0
  {
    if positions != [] {
      MarginOpenRealizedClosed(positions[1..], initialBalance, currentBalance);
    }
  }
}
