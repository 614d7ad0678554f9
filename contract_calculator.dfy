/**
 * ContractFormulaCalculator.js: the stand-alone P&L / ROE calculator. Its
 * `calculate` closure parses four inputs, refuses any that is missing, zero
 * or not a number, and otherwise reports P&L, return on equity and initial
 * margin.
 *
 * An input that parses to NaN is None here; its parsed value otherwise.
 */
module ContractFormulaCalculator {
  import opened Positions

  datatype CalcResult =
    | IncompleteInput
    | Figures(pnl: real, roe: real, margin: real)

  /** The `!e || !m || !s || !l` guard: an input that is NaN or 0 is missing. */
  predicate Missing(x: Option<real>) {
    x.None? || x.value == 0.0
  }

  /** calculate: P&L is the favourable price move times size, the initial
      margin is entry times size over leverage, and ROE is P&L as a
      percentage of that margin. */
  function Calculate(entryPrice: Option<real>, markPrice: Option<real>, positionSize: Option<real>,
                     leverage: Option<real>, direction: Direction): (r: CalcResult)
    ensures r.IncompleteInput? <==>
      Missing(entryPrice) || Missing(markPrice) || Missing(positionSize) || Missing(leverage)
    ensures r.Figures? ==>
      var e, m, s, l := entryPrice.value, markPrice.value, positionSize.value, leverage.value;
      && r.pnl == Delta(direction, e, m) * s
      && r.margin != 0.0 && r.margin * l == e * s
      && r.roe * r.margin == r.pnl * 100.0
  {
    if Missing(entryPrice) || Missing(markPrice) || Missing(positionSize) || Missing(leverage) then
      IncompleteInput
    else
      var e, m, s, l := entryPrice.value, markPrice.value, positionSize.value, leverage.value;
      var pnl := if direction == Long then (m - e) * s else (e - m) * s;
      var initialMargin := (e * s) / l;
      assert initialMargin * l == e * s;
      Figures(pnl, (pnl / initialMargin) * 100.0, initialMargin)
  }

  /** At the same prices and size, a long's P&L and ROE are the negatives of
      a short's. */
  lemma LongShortOpposite(entryPrice: Option<real>, markPrice: Option<real>, positionSize: Option<real>,
                          leverage: Option<real>)
    ensures var long := Calculate(entryPrice, markPrice, positionSize, leverage, Long);
      var short := Calculate(entryPrice, markPrice, positionSize, leverage, Short);
      long.Figures? ==> long.pnl == -short.pnl && long.roe == -short.roe && long.margin == short.margin
  {
    var long := Calculate(entryPrice, markPrice, positionSize, leverage, Long);
    var short := Calculate(entryPrice, markPrice, positionSize, leverage, Short);
    if long.Figures? {
      assert long.pnl == -short.pnl;
      assert long.roe == (long.pnl / long.margin) * 100.0;
      assert short.roe == (-long.pnl / long.margin) * 100.0;
    }
  }

  /** For a long, ROE is the relative price move times the leverage, in
      percent: ((m − e) / e) · l · 100. */
  lemma LongRoeIsLeveragedMove(entryPrice: Option<real>, markPrice: Option<real>, positionSize: Option<real>,
                               leverage: Option<real>)
    ensures var r := Calculate(entryPrice, markPrice, positionSize, leverage, Long);
      r.Figures? ==>
        r.roe == (markPrice.value - entryPrice.value) / entryPrice.value * leverage.value * 100.0
  {
    var r := Calculate(entryPrice, markPrice, positionSize, leverage, Long);
    if r.Figures? {
      var e, m, s, l := entryPrice.value, markPrice.value, positionSize.value, leverage.value;
      var move := (m - e) / e;
      assert r.pnl == move * e * s;
      assert r.margin * l == e * s;
      ScaledRatio(move, e * s, l, r.margin);
      assert r.pnl / r.margin == move * l;
    }
  }

  /** (x·a) / g = x·l whenever g·l = a and g ≠ 0. */
  lemma ScaledRatio(x: real, a: real, l: real, g: real)
    requires g != 0.0 && g * l == a
    ensures (x * a) / g == x * l
  {
    assert x * a == (x * l) * g;
  }
}
