/**
 * PositionHandlers_Version25.js: opening a position, closing one against the
 * account balance, and the recalculation pipeline (valuation, then DEX, then
 * liquidation prices).
 *
 * The file imports its utilities from CalculationUtils.js, so the pipeline
 * as shipped is Recalculate(Base, ...); the same pipeline over
 * CalculationUtils_Version25.js is Recalculate(V25, ...). With v = Base it is
 * also the recalculateAllPositions of CalculationUtils.js, whose calculation
 * path is the same three steps.
 */
module PositionHandlers {
  import opened Positions
  import CalculationUtils
  import CalculationUtils25

  /** createNewPosition: a fresh open record valued at its entry price, with
      no close data, its unrealized P&L taken at `currentPrice`. */
  function CreateNewPosition(symbol: string, direction: Direction, entryPrice: real, quantity: real,
                             currentPrice: real, leverage: real, marginType: MarginType,
                             contractValue: real, feeRate: real, maintenanceMarginRate: real): (r: Position)
    ensures r.symbol == symbol && r.direction == direction && r.marginType == marginType
    ensures r.entryPrice == entryPrice && r.quantity == quantity
    ensures r.currentPrice == currentPrice && r.leverage == leverage
    ensures r.positionValue == quantity * contractValue * entryPrice
    ensures leverage != 0.0 ==> r.margin * leverage == r.positionValue
    ensures r.openFee == r.positionValue * feeRate
    ensures r.maintenanceMargin == r.positionValue * maintenanceMarginRate
    ensures r.unrealizedPnl == CalculationUtils25.UnrealizedPnL(r, contractValue)
    ensures !r.closed && !r.statusClosed && r.closeFee == 0.0
    ensures r.realizedPnl.None? && r.closePrice.None? && r.dex.None? && r.liquidationPrice.None?
    ensures !r.isMerged && r.mergeInfo.None?
  {
    var positionValue := quantity * contractValue * entryPrice;
    var margin := Quotient(positionValue, leverage);
    var openFee := positionValue * feeRate;
    var maintenanceMargin := quantity * entryPrice * contractValue * maintenanceMarginRate;
    var delta := Delta(direction, entryPrice, currentPrice);
    Position(symbol, direction, marginType, entryPrice, quantity, currentPrice, leverage,
             false, false, positionValue, margin, openFee, 0.0, maintenanceMargin,
             delta * quantity * contractValue, None, None, None, None, false, None)
  }

  /** A new record is exactly what the entry-price valuation makes of it. */
  lemma NewPositionIsEntryValued(symbol: string, direction: Direction, entryPrice: real, quantity: real,
                                 currentPrice: real, leverage: real, marginType: MarginType,
                                 contractValue: real, feeRate: real, maintenanceMarginRate: real)
    ensures var p := CreateNewPosition(symbol, direction, entryPrice, quantity, currentPrice, leverage,
                                       marginType, contractValue, feeRate, maintenanceMarginRate);
      CalculationUtils25.PositionValues(p, currentPrice, contractValue, feeRate, maintenanceMarginRate) == p
  {
    var p := CreateNewPosition(symbol, direction, entryPrice, quantity, currentPrice, leverage,
                               marginType, contractValue, feeRate, maintenanceMarginRate);
    assert p.maintenanceMargin == quantity * entryPrice * contractValue * maintenanceMarginRate;
  }

  /** While the mark is the entry price, a new record is also what the
      mark-price valuation makes of it. */
  lemma NewPositionIsMarkValuedAtEntry(symbol: string, direction: Direction, entryPrice: real, quantity: real,
                                       leverage: real, marginType: MarginType,
                                       contractValue: real, feeRate: real, maintenanceMarginRate: real)
    ensures var p := CreateNewPosition(symbol, direction, entryPrice, quantity, entryPrice, leverage,
                                       marginType, contractValue, feeRate, maintenanceMarginRate);
      CalculationUtils.PositionValues(p, entryPrice, contractValue, feeRate, maintenanceMarginRate) == p
  {
    var p := CreateNewPosition(symbol, direction, entryPrice, quantity, entryPrice, leverage,
                               marginType, contractValue, feeRate, maintenanceMarginRate);
    assert p.maintenanceMargin == quantity * entryPrice * contractValue * maintenanceMarginRate;
  }

  /** At open, the unrealized P&L is zero while the price is the entry price. */
  lemma NewPositionFlatAtEntry(symbol: string, direction: Direction, entryPrice: real, quantity: real,
                               leverage: real, marginType: MarginType,
                               contractValue: real, feeRate: real, maintenanceMarginRate: real)
    ensures CreateNewPosition(symbol, direction, entryPrice, quantity, entryPrice, leverage, marginType,
                              contractValue, feeRate, maintenanceMarginRate).unrealizedPnl == 0.0
  {
  }

  /** The application's default parameters (src/ContractFormulaCalculator_Version26.jsx:13-18):
      10 contracts at 20000 with contract value 0.0001, leverage 10, fee rate
      0.0004 and maintenance rate 0.005. */
  lemma DefaultContractExample(symbol: string, direction: Direction, marginType: MarginType)
    ensures var p := CreateNewPosition(symbol, direction, 20000.0, 10.0, 20000.0, 10.0, marginType,
                                       0.0001, 0.0004, 0.005);
      p.positionValue == 20.0 && p.margin == 2.0 && p.openFee == 0.008
      && p.maintenanceMargin == 0.1 && p.unrealizedPnl == 0.0
  {
  }

  /** The P&L closing at `closePrice` realizes: the favourable price move
      times quantity times contract value. */
  function RealizedPnl(pos: Position, closePrice: real, contractValue: real): real {
    Delta(pos.direction, pos.entryPrice, closePrice) * pos.quantity * contractValue
  }

  /** The fee charged on the position's value at the close price. */
  function ClosingFee(pos: Position, closePrice: real, contractValue: real, feeRate: real): real {
    pos.quantity * contractValue * closePrice * feeRate
  }

  /** The record after closePosition has frozen it. */
  function CloseRecord(pos: Position, closePrice: real, contractValue: real, feeRate: real): Position {
    pos.(closed := true, closePrice := Some(closePrice),
         realizedPnl := Some(RealizedPnl(pos, closePrice, contractValue)),
         unrealizedPnl := 0.0, closeFee := ClosingFee(pos, closePrice, contractValue, feeRate))
  }

  /** The balance after the close: P&L in, open and close fee out. */
  function BalanceAfterClose(balance: real, pos: Position, closePrice: real, contractValue: real,
                             feeRate: real): real {
    balance + RealizedPnl(pos, closePrice, contractValue) - pos.openFee
      - ClosingFee(pos, closePrice, contractValue, feeRate)
  }

  /** What closing realizes is what the open record showed as unrealized at
      the close price, and the same P&L with the direction flipped is its
      negative. */
  lemma RealizedIsUnrealizedAtClose(pos: Position, closePrice: real, contractValue: real)
    requires !pos.closed
    ensures RealizedPnl(pos, closePrice, contractValue)
         == CalculationUtils25.UnrealizedPnL(pos.(currentPrice := closePrice), contractValue)
    ensures RealizedPnl(pos.(direction := Long), closePrice, contractValue)
         == -RealizedPnl(pos.(direction := Short), closePrice, contractValue)
  {
  }

  /** Closing an open record settles it in the account summary: its margin
      and unrealized P&L leave the totals, its P&L joins the realized total,
      its closing fee joins the fees, and the balance moves by the realized
      P&L less both fees. */
  lemma CloseSettlesAccount(positions: seq<Position>, index: nat, closePrice: real, contractValue: real,
                            feeRate: real, initialBalance: real, balance: real)
    requires index < |positions| && !positions[index].closed
    ensures var pos := positions[index];
      var before := CalculationUtils.CalculateAccountInfo(positions, initialBalance, balance);
      var newBalance := BalanceAfterClose(balance, pos, closePrice, contractValue, feeRate);
      var after := CalculationUtils.CalculateAccountInfo(
        positions[index := CloseRecord(pos, closePrice, contractValue, feeRate)], initialBalance, newBalance);
      && after.totalMargin == before.totalMargin - pos.margin
      && after.totalUnrealizedPnl == before.totalUnrealizedPnl - pos.unrealizedPnl
      && after.totalRealizedPnl == before.totalRealizedPnl + RealizedPnl(pos, closePrice, contractValue)
      && after.totalOpenFee == before.totalOpenFee
      && after.totalCloseFee == before.totalCloseFee + ClosingFee(pos, closePrice, contractValue, feeRate)
      && newBalance - balance
         == (after.totalRealizedPnl - before.totalRealizedPnl) - pos.openFee
            - (after.totalCloseFee - before.totalCloseFee)
  {
    var q := CloseRecord(positions[index], closePrice, contractValue, feeRate);
    SumByUpdate(positions, index, q, CalculationUtils.OpenCrossMarginOf);
    SumByUpdate(positions, index, q, CalculationUtils.OpenIsolatedMarginOf);
    SumByUpdate(positions, index, q, CalculationUtils.OpenUnrealizedOf);
    SumByUpdate(positions, index, q, CalculationUtils.RealizedOf);
    SumByUpdate(positions, index, q, CalculationUtils.OpenFeeOf);
    SumByUpdate(positions, index, q, CalculationUtils.CloseFeeOf);
  }

  /** A closed record is frozen: neither valuation, the liquidation step nor
      the entry-price DEX step carries it forward changed. */
  lemma ClosedRecordFrozen(pos: Position, closePrice: real, contractValue: real, feeRate: real,
                           currentPrice: real, maintenanceMarginRate: real, balance: real)
    ensures var c := CloseRecord(pos, closePrice, contractValue, feeRate);
      && CalculationUtils.PositionValues(c, currentPrice, contractValue, feeRate, maintenanceMarginRate) == c
      && CalculationUtils25.PositionValues(c, currentPrice, contractValue, feeRate, maintenanceMarginRate) == c
      && CalculationUtils.LiquidationPrices([c], contractValue) == [c]
      && CalculationUtils.AllDex(ClosedFlag, [c], balance) == []
  {
    var c := CloseRecord(pos, closePrice, contractValue, feeRate);
    assert [c][1..] == [];
  }

  /** Under the `status` test of CalculationUtils.js a record closed by
      closePosition stays in the DEX filter; under the `closed` test of the
      other version it leaves. */
  lemma {:induction false} CloseKeepsStatusDexCount(positions: seq<Position>, index: nat, closePrice: real,
                                                     contractValue: real, feeRate: real)
    requires index < |positions| && !positions[index].closed
    ensures var after := positions[index := CloseRecord(positions[index], closePrice, contractValue, feeRate)];
      && CountOpen(StatusField, after) == CountOpen(StatusField, positions)
      && CountOpen(ClosedFlag, after) == CountOpen(ClosedFlag, positions) - 1
  {
    var after := positions[index := CloseRecord(positions[index], closePrice, contractValue, feeRate)];
    if index > 0 {
      assert after[1..] == positions[1..][index - 1 := CloseRecord(positions[index], closePrice, contractValue, feeRate)];
      CloseKeepsStatusDexCount(positions[1..], index - 1, closePrice, contractValue, feeRate);
    } else {
      assert after[1..] == positions[1..];
    }
  }

  /** Under the `status` test the closed record's maintenance margin, open
      fee and isolated margin stay in the account pool: closing moves the pool
      by its unrealized P&L only (nothing, if its `status` already drops it). */
  lemma CloseShiftsStatusPool(positions: seq<Position>, index: nat, closePrice: real, contractValue: real,
                              feeRate: real, currentBalance: real)
    requires index < |positions|
    ensures var pos := positions[index];
      var after := positions[index := CloseRecord(pos, closePrice, contractValue, feeRate)];
      CalculationUtils.DexPool(Active(StatusField, after), currentBalance)
        == CalculationUtils.DexPool(Active(StatusField, positions), currentBalance)
           - (if pos.statusClosed then 0.0 else pos.unrealizedPnl)
  {
    var q := CloseRecord(positions[index], closePrice, contractValue, feeRate);
    ActiveSumUpdate(StatusField, positions, index, q, CalculationUtils.MaintenanceOf);
    ActiveSumUpdate(StatusField, positions, index, q, CalculationUtils.OpenFeeOf);
    ActiveSumUpdate(StatusField, positions, index, q, CalculationUtils.IsolatedMarginOf);
    ActiveSumUpdate(StatusField, positions, index, q, CalculationUtils.UnrealizedOf);
  }

  /** The account behind closePosition: the position list, held in place,
      and the current balance. */
  class Ledger {
    const positions: array<Position>
    var balance: real

    constructor(initial: seq<Position>, initialBalance: real)
      ensures fresh(positions) && positions[..] == initial && balance == initialBalance
    {
      positions := new Position[|initial|](i requires 0 <= i < |initial| => initial[i]);
      balance := initialBalance;
    }

    /** closePosition: freeze the record at `index` in place and settle the
        balance. Only that element changes, and in it only the close fields.
        An index outside the list (where the source fails on the missing
        record) changes nothing and answers false. */
    method ClosePosition(index: int, closePrice: real, contractValue: real, feeRate: real)
      returns (ok: bool)
      modifies positions, this
      ensures ok <==> 0 <= index < positions.Length
      ensures ok ==> positions[..] == old(positions[..])[index := CloseRecord(old(positions[index]),
                                                           closePrice, contractValue, feeRate)]
      ensures ok ==> balance == BalanceAfterClose(old(balance), old(positions[index]), closePrice,
                                                  contractValue, feeRate)
      ensures !ok ==> positions[..] == old(positions[..]) && balance == old(balance)
    {
      if !(0 <= index < positions.Length) {
        return false;
      }
      var pos := positions[index];
      var delta := Delta(pos.direction, pos.entryPrice, closePrice);
      var pnl := delta * pos.quantity * contractValue;
      var closingFee := pos.quantity * contractValue * closePrice * feeRate;
      var openFee := pos.openFee;
      var newBalance := balance + pnl - openFee - closingFee;
      assert pnl == RealizedPnl(pos, closePrice, contractValue);
      assert closingFee == ClosingFee(pos, closePrice, contractValue, feeRate);
      ghost var closed := CloseRecord(pos, closePrice, contractValue, feeRate);

      pos := pos.(closed := true);
      pos := pos.(closePrice := Some(closePrice));
      pos := pos.(realizedPnl := Some(pnl));
      pos := pos.(unrealizedPnl := 0.0);
      pos := pos.(closeFee := closingFee);
      assert pos == closed;
      positions[index] := pos;
      balance := newBalance;
      ok := true;
    }
  }

  /** The valuation step of a utilities version. */
  function Valuation(v: Version, pos: Position, currentPrice: real, contractValue: real,
                     feeRate: real, maintenanceMarginRate: real): Position {
    match v
    case Base => CalculationUtils.PositionValues(pos, currentPrice, contractValue, feeRate, maintenanceMarginRate)
    case V25 => CalculationUtils25.PositionValues(pos, currentPrice, contractValue, feeRate, maintenanceMarginRate)
  }

  /** The `positions.map` that revalues every open record and passes closed
      ones through. */
  function ValueAll(v: Version, positions: seq<Position>, currentPrice: real, contractValue: real,
                    feeRate: real, maintenanceMarginRate: real): (r: seq<Position>)
    ensures |r| == |positions|
    ensures forall i :: 0 <= i < |r| && positions[i].closed ==> r[i] == positions[i]
    ensures forall i :: 0 <= i < |r| ==>
      r[i] == Valuation(v, positions[i], currentPrice, contractValue, feeRate, maintenanceMarginRate)
  {
    seq(|positions|, i requires 0 <= i < |positions| =>
      if positions[i].closed then positions[i]
      else Valuation(v, positions[i], currentPrice, contractValue, feeRate, maintenanceMarginRate))
  }

  /** recalculateAllPositions: value, then DEX over the records the version's
      test finds open, then liquidation prices from that output. One record
      comes out per open input, and dex plus own unrealized P&L is the same
      for all of them. */
  function Recalculate(v: Version, positions: seq<Position>, currentPrice: real, contractValue: real,
                       feeRate: real, maintenanceMarginRate: real, currentBalance: real): (r: seq<Position>)
    ensures |r| == CountOpen(DexTest(v), positions)
    ensures forall i :: 0 <= i < |r| ==> r[i].dex.Some? && !IsClosed(DexTest(v), r[i])
    ensures forall i, j :: 0 <= i < |r| && 0 <= j < |r| ==>
      r[i].dex.value + r[i].unrealizedPnl == r[j].dex.value + r[j].unrealizedPnl
  {
    var valued := ValueAll(v, positions, currentPrice, contractValue, feeRate, maintenanceMarginRate);
    var withDex := CalculationUtils.AllDex(DexTest(v), valued, currentBalance);
    ValueAllCountOpen(v, positions, currentPrice, contractValue, feeRate, maintenanceMarginRate);
    ActiveLength(DexTest(v), valued);
    CalculationUtils.LiquidationPrices(withDex, contractValue)
  }

  /** Valuation changes no field either closed test reads. */
  lemma {:induction false} ValueAllCountOpen(v: Version, positions: seq<Position>, currentPrice: real,
                                             contractValue: real, feeRate: real, maintenanceMarginRate: real)
    ensures CountOpen(DexTest(v), ValueAll(v, positions, currentPrice, contractValue, feeRate, maintenanceMarginRate))
         == CountOpen(DexTest(v), positions)
  {
    var valued := ValueAll(v, positions, currentPrice, contractValue, feeRate, maintenanceMarginRate);
    if positions != [] {
      ValueAllCountOpen(v, positions[1..], currentPrice, contractValue, feeRate, maintenanceMarginRate);
      assert valued[1..] == ValueAll(v, positions[1..], currentPrice, contractValue, feeRate, maintenanceMarginRate);
    }
  }

  /** Every open record leaves the pipeline with the liquidation price its
      own final dex and position value give. */
  lemma RecalculateLiquidationConsistent(v: Version, positions: seq<Position>, currentPrice: real,
                                         contractValue: real, feeRate: real, maintenanceMarginRate: real,
                                         currentBalance: real)
    ensures var r := Recalculate(v, positions, currentPrice, contractValue, feeRate, maintenanceMarginRate,
                                 currentBalance);
      forall i :: 0 <= i < |r| && !r[i].closed ==>
        r[i].liquidationPrice == CalculationUtils.LiquidationPrice(r[i], contractValue)
  {
    var valued := ValueAll(v, positions, currentPrice, contractValue, feeRate, maintenanceMarginRate);
    var withDex := CalculationUtils.AllDex(DexTest(v), valued, currentBalance);
    var r := CalculationUtils.LiquidationPrices(withDex, contractValue);
    forall i | 0 <= i < |r| && !r[i].closed
      ensures r[i].liquidationPrice == CalculationUtils.LiquidationPrice(r[i], contractValue)
    {
      assert r[i] == withDex[i].(liquidationPrice := r[i].liquidationPrice);
      CalculationUtils.LiquidationPriceIgnoresItself(withDex[i], r[i].liquidationPrice, contractValue);
    }
  }

  /** A record that valuation has produced: closed, or unchanged by it. */
  predicate IsValued(v: Version, p: Position, currentPrice: real, contractValue: real,
                     feeRate: real, maintenanceMarginRate: real) {
    p.closed || Valuation(v, p, currentPrice, contractValue, feeRate, maintenanceMarginRate) == p
  }

  /** Valuation neither reads nor writes the dex and liquidation fields. */
  lemma ValuationIgnoresDex(v: Version, p: Position, dex: Option<real>, liquidationPrice: Option<real>,
                            currentPrice: real, contractValue: real, feeRate: real, maintenanceMarginRate: real)
    ensures Valuation(v, p.(dex := dex, liquidationPrice := liquidationPrice), currentPrice, contractValue,
                      feeRate, maintenanceMarginRate)
         == Valuation(v, p, currentPrice, contractValue, feeRate, maintenanceMarginRate)
              .(dex := dex, liquidationPrice := liquidationPrice)
  {
    match v
    case Base =>
      CalculationUtils.PositionValuesIgnoresDex(p, dex, liquidationPrice, currentPrice, contractValue,
                                                feeRate, maintenanceMarginRate);
    case V25 =>
      CalculationUtils25.PositionValuesIgnoresDex(p, dex, liquidationPrice, currentPrice, contractValue,
                                                  feeRate, maintenanceMarginRate);
  }

  /** Revaluing at the same prices produces valued records. */
  lemma ValueAllValued(v: Version, positions: seq<Position>, currentPrice: real, contractValue: real,
                       feeRate: real, maintenanceMarginRate: real)
    ensures var valued := ValueAll(v, positions, currentPrice, contractValue, feeRate, maintenanceMarginRate);
      forall i :: 0 <= i < |valued| ==> IsValued(v, valued[i], currentPrice, contractValue, feeRate, maintenanceMarginRate)
  {
    var valued := ValueAll(v, positions, currentPrice, contractValue, feeRate, maintenanceMarginRate);
    forall i | 0 <= i < |valued|
      ensures IsValued(v, valued[i], currentPrice, contractValue, feeRate, maintenanceMarginRate)
    {
      if !positions[i].closed && v == Base {
        CalculationUtils.PositionValuesIdempotent(positions[i], currentPrice, contractValue, feeRate, maintenanceMarginRate);
      }
    }
  }

  /** The pipeline's output is its kept records with only dex and liquidation
      price set. */
  lemma OutputIsKeptRecords(v: Version, positions: seq<Position>, currentPrice: real, contractValue: real,
                            feeRate: real, maintenanceMarginRate: real, currentBalance: real)
    ensures var active := Active(DexTest(v), ValueAll(v, positions, currentPrice, contractValue, feeRate,
                                                      maintenanceMarginRate));
      var r := Recalculate(v, positions, currentPrice, contractValue, feeRate, maintenanceMarginRate,
                           currentBalance);
      |r| == |active|
      && forall i :: 0 <= i < |r| ==> r[i] == active[i].(dex := r[i].dex, liquidationPrice := r[i].liquidationPrice)
  {
    var valued := ValueAll(v, positions, currentPrice, contractValue, feeRate, maintenanceMarginRate);
    var active := Active(DexTest(v), valued);
    var withDex := CalculationUtils.AllDex(DexTest(v), valued, currentBalance);
    var r := CalculationUtils.LiquidationPrices(withDex, contractValue);
    forall i | 0 <= i < |r|
      ensures r[i] == active[i].(dex := r[i].dex, liquidationPrice := r[i].liquidationPrice)
    {
      assert withDex[i] == active[i].(dex := withDex[i].dex);
    }
  }

  /** The records the DEX filter keeps from a revalued list are valued. */
  lemma ActiveValued(v: Version, positions: seq<Position>, currentPrice: real, contractValue: real,
                     feeRate: real, maintenanceMarginRate: real)
    ensures var active := Active(DexTest(v), ValueAll(v, positions, currentPrice, contractValue, feeRate,
                                                      maintenanceMarginRate));
      forall i :: 0 <= i < |active| ==>
        IsValued(v, active[i], currentPrice, contractValue, feeRate, maintenanceMarginRate)
  {
    var valued := ValueAll(v, positions, currentPrice, contractValue, feeRate, maintenanceMarginRate);
    var active := Active(DexTest(v), valued);
    ValueAllValued(v, positions, currentPrice, contractValue, feeRate, maintenanceMarginRate);
    ActiveMembers(DexTest(v), valued);
    forall i | 0 <= i < |active|
      ensures IsValued(v, active[i], currentPrice, contractValue, feeRate, maintenanceMarginRate)
    {
      assert active[i] in active;
    }
  }

  /** Revaluing the pipeline's output at the same prices changes nothing. */
  lemma OutputRevaluesToItself(v: Version, positions: seq<Position>, currentPrice: real, contractValue: real,
                               feeRate: real, maintenanceMarginRate: real, currentBalance: real)
    ensures var r := Recalculate(v, positions, currentPrice, contractValue, feeRate, maintenanceMarginRate,
                                 currentBalance);
      ValueAll(v, r, currentPrice, contractValue, feeRate, maintenanceMarginRate) == r
  {
    var valued := ValueAll(v, positions, currentPrice, contractValue, feeRate, maintenanceMarginRate);
    var active := Active(DexTest(v), valued);
    var r := Recalculate(v, positions, currentPrice, contractValue, feeRate, maintenanceMarginRate,
                         currentBalance);
    OutputIsKeptRecords(v, positions, currentPrice, contractValue, feeRate, maintenanceMarginRate, currentBalance);
    ActiveValued(v, positions, currentPrice, contractValue, feeRate, maintenanceMarginRate);
    var revalued := ValueAll(v, r, currentPrice, contractValue, feeRate, maintenanceMarginRate);
    forall i | 0 <= i < |r| ensures revalued[i] == r[i] {
      if !r[i].closed {
        ValuationIgnoresDex(v, active[i], r[i].dex, r[i].liquidationPrice, currentPrice, contractValue,
                            feeRate, maintenanceMarginRate);
      }
    }
  }

  /** Records that already carry the dex the pool of `active` gives them,
      and differ from `active` in nothing the pool reads, come through the DEX
      step unchanged. */
  lemma DexStable(test: ClosedTest, active: seq<Position>, r: seq<Position>, currentBalance: real)
    requires |r| == |active|
    requires forall i :: 0 <= i < |r| ==> !IsClosed(test, r[i])
    requires forall i :: 0 <= i < |r| ==>
      r[i] == active[i].(dex := r[i].dex, liquidationPrice := r[i].liquidationPrice)
    requires forall i :: 0 <= i < |r| ==>
      r[i].dex == Some(CalculationUtils.DexPool(active, currentBalance) - r[i].unrealizedPnl)
    ensures CalculationUtils.AllDex(test, r, currentBalance) == r
  {
    ActiveOfOpen(test, r);
    DexPoolIgnoresDex(active, r, currentBalance);
    var again := CalculationUtils.AllDex(test, r, currentBalance);
    forall i | 0 <= i < |r| ensures again[i] == r[i] {
      assert again[i] == r[i].(dex := again[i].dex);
    }
  }

  /** The pool reads no record's dex or liquidation price. */
  lemma DexPoolIgnoresDex(a: seq<Position>, b: seq<Position>, currentBalance: real)
    requires |a| == |b|
    requires forall i :: 0 <= i < |b| ==> b[i] == a[i].(dex := b[i].dex, liquidationPrice := b[i].liquidationPrice)
    ensures CalculationUtils.DexPool(a, currentBalance) == CalculationUtils.DexPool(b, currentBalance)
  {
    SumByCongruent(a, b, CalculationUtils.MaintenanceOf);
    SumByCongruent(a, b, CalculationUtils.OpenFeeOf);
    SumByCongruent(a, b, CalculationUtils.IsolatedMarginOf);
    SumByCongruent(a, b, CalculationUtils.UnrealizedOf);
  }

  /** The DEX step keeps every record of the pipeline's output and gives each
      the dex it already has. */
  lemma OutputDexIsItself(v: Version, positions: seq<Position>, currentPrice: real, contractValue: real,
                          feeRate: real, maintenanceMarginRate: real, currentBalance: real)
    ensures var r := Recalculate(v, positions, currentPrice, contractValue, feeRate, maintenanceMarginRate,
                                 currentBalance);
      CalculationUtils.AllDex(DexTest(v), r, currentBalance) == r
  {
    var valued := ValueAll(v, positions, currentPrice, contractValue, feeRate, maintenanceMarginRate);
    var active := Active(DexTest(v), valued);
    var withDex := CalculationUtils.AllDex(DexTest(v), valued, currentBalance);
    var r := CalculationUtils.LiquidationPrices(withDex, contractValue);
    OutputIsKeptRecords(v, positions, currentPrice, contractValue, feeRate, maintenanceMarginRate, currentBalance);
    forall i | 0 <= i < |r|
      ensures r[i].dex == Some(CalculationUtils.DexPool(active, currentBalance) - r[i].unrealizedPnl)
    {
      assert r[i].dex == withDex[i].dex && r[i].unrealizedPnl == withDex[i].unrealizedPnl;
    }
    DexStable(DexTest(v), active, r, currentBalance);
  }

  /** A second recalculation at the same market and balance changes nothing:
      the pipeline's output is its own fixed point. */
  lemma RecalculateIdempotent(v: Version, positions: seq<Position>, currentPrice: real, contractValue: real,
                              feeRate: real, maintenanceMarginRate: real, currentBalance: real)
    ensures var once := Recalculate(v, positions, currentPrice, contractValue, feeRate, maintenanceMarginRate,
                                    currentBalance);
      Recalculate(v, once, currentPrice, contractValue, feeRate, maintenanceMarginRate, currentBalance) == once
  {
    var valued := ValueAll(v, positions, currentPrice, contractValue, feeRate, maintenanceMarginRate);
    var withDex := CalculationUtils.AllDex(DexTest(v), valued, currentBalance);
    OutputRevaluesToItself(v, positions, currentPrice, contractValue, feeRate, maintenanceMarginRate, currentBalance);
    OutputDexIsItself(v, positions, currentPrice, contractValue, feeRate, maintenanceMarginRate, currentBalance);
    CalculationUtils.LiquidationPricesIdempotent(withDex, contractValue);
  }

  /** As shipped (v = Base) the DEX step filters on the `status` field, which
      closePosition never sets: a closed record stays in the output, frozen. */
  lemma BaseKeepsClosedRecord(positions: seq<Position>, currentPrice: real, contractValue: real,
                              feeRate: real, maintenanceMarginRate: real, currentBalance: real)
    requires forall i :: 0 <= i < |positions| ==> !positions[i].statusClosed
    ensures var r := Recalculate(Base, positions, currentPrice, contractValue, feeRate,
                                 maintenanceMarginRate, currentBalance);
      |r| == |positions|
      && forall i :: 0 <= i < |r| && positions[i].closed ==> r[i] == positions[i].(dex := r[i].dex)
  {
    var valued := ValueAll(Base, positions, currentPrice, contractValue, feeRate, maintenanceMarginRate);
    forall i | 0 <= i < |valued| ensures !IsClosed(StatusField, valued[i]) {
    }
    ActiveOfOpen(StatusField, valued);
  }

  /** The pipeline on one isolated long with the default parameters and a
      balance of 1000, with either utilities file: the pool is the whole
      balance less the position's maintenance margin, open fee and isolated
      margin, 997.892, and the liquidation price is (20 − 997.892) / 0.001 =
      −977892, far below zero. */
  lemma SingleIsolatedExample(symbol: string)
    ensures var p := CreateNewPosition(symbol, Long, 20000.0, 10.0, 20000.0, 10.0, Isolated,
                                       0.0001, 0.0004, 0.005);
      var r := Recalculate(Base, [p], 20000.0, 0.0001, 0.0004, 0.005, 1000.0);
      |r| == 1 && r[0].dex == Some(997.892) && r[0].liquidationPrice == Some(-977892.0)
    ensures var p := CreateNewPosition(symbol, Long, 20000.0, 10.0, 20000.0, 10.0, Isolated,
                                       0.0001, 0.0004, 0.005);
      var r := Recalculate(V25, [p], 20000.0, 0.0001, 0.0004, 0.005, 1000.0);
      |r| == 1 && r[0].dex == Some(997.892) && r[0].liquidationPrice == Some(-977892.0)
  {
    var p := CreateNewPosition(symbol, Long, 20000.0, 10.0, 20000.0, 10.0, Isolated, 0.0001, 0.0004, 0.005);
    NewPositionIsEntryValued(symbol, Long, 20000.0, 10.0, 20000.0, 10.0, Isolated, 0.0001, 0.0004, 0.005);
    NewPositionIsMarkValuedAtEntry(symbol, Long, 20000.0, 10.0, 10.0, Isolated, 0.0001, 0.0004, 0.005);
    assert ValueAll(V25, [p], 20000.0, 0.0001, 0.0004, 0.005) == [p];
    assert ValueAll(Base, [p], 20000.0, 0.0001, 0.0004, 0.005) == [p];
    assert [p][1..] == [];
    assert Active(ClosedFlag, [p]) == [p];
    assert Active(StatusField, [p]) == [p];
    DefaultContractExample(symbol, Long, Isolated);
    assert p.margin == 2.0 && p.maintenanceMargin == 0.1 && p.openFee == 0.008 && p.unrealizedPnl == 0.0;
    assert SumBy([p], CalculationUtils.MaintenanceOf) == 0.1;
    assert SumBy([p], CalculationUtils.OpenFeeOf) == 0.008;
    assert SumBy([p], CalculationUtils.IsolatedMarginOf) == 2.0;
    assert SumExcept([p], 0, CalculationUtils.UnrealizedOf) == 0.0;
    assert CalculationUtils.AllDex(ClosedFlag, [p], 1000.0)[0].dex == Some(997.892);
    assert CalculationUtils.AllDex(StatusField, [p], 1000.0)[0].dex == Some(997.892);
  }
}
