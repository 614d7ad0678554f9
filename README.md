# Margin and liquidation engine of a futures account simulator

This project models the engine behind a leveraged-futures account simulator.
The engine works on a list of position records plus a cash balance. Every
valuation step runs on exact reals:

- **Valuation of one position.** Position value, margin, opening fee,
  maintenance margin and unrealized P&L. There are two versions:
  `CalculationUtils.js` values at the mark price and keeps the opening fee;
  `CalculationUtils_Version25.js` values at the entry price and recomputes
  the fee.
- **Same-symbol cross netting** (`mergePositionsBySymbol`). The open cross
  positions of each symbol collapse into one net long or short record at a
  weighted entry price. A group that nets to zero disappears.
- **The free-margin pool, "DEX"** (`calculateAllDEX`). There is one pool for
  the whole account: the balance, less every kept record's maintenance margin
  and opening fee and every isolated margin, plus every other record's
  unrealized P&L.
- **Liquidation prices**, computed from each record's DEX.
- **The account summary** (`calculateAccountInfo`).
- **Ledger transitions.** Opening a position creates a record. Closing one
  realizes its P&L, charges both fees to the balance and freezes the record
  in place.
- **The stand-alone P&L / ROE calculator.**

The two versions are modelled as written, not unified.

Modules:

| Dafny file | module | models |
|---|---|---|
| `positions.dfy` | `Positions` | the position record, the two closed tests, the folds |
| `calculation_utils.dfy` | `CalculationUtils` | `src/CalculationUtils.js` |
| `calculation_utils_v25.dfy` | `CalculationUtils25` | `src/CalculationUtils_Version25.js` |
| `merge.dfy` | `PositionMerge` | `mergePositionsBySymbol` of `src/CalculationUtils.js` |
| `position_handlers.dfy` | `PositionHandlers` | `src/PositionHandlers_Version25.js` and the pipeline of both utilities files |
| `contract_calculator.dfy` | `ContractFormulaCalculator` | `src/ContractFormulaCalculator.js` |

Modelling decisions:

- **Two closed fields.** A record carries the boolean `closed` and, as
  `statusClosed`, whether its `status` field is `'closed'`.
  - `isPositionClosed`, every valuation step and the liquidation step test
    `closed`. So does the `calculateAllDEX` of the Version25 file.
  - The `calculateAllDEX` and `calculateUnrealizedPnL` of
    `CalculationUtils.js` test `status`.
  - `ClosedTest` names the test in use, and `DexTest(v)` gives the one each
    version's DEX step applies.
- **The pipeline.** `PositionHandlers.Recalculate(v, ...)` takes the
  utilities version as a parameter.
  - `PositionHandlers_Version25.js` imports `./CalculationUtils`. The
    shipped pipeline is therefore `Recalculate(Base, ...)`.
  - `Recalculate(Base, ...)` is also the calculation path of the
    `recalculateAllPositions` in `CalculationUtils.js`.
- **Base keeps closed records.** No routine ever sets `status`. In the Base
  pipeline a record closed by `closePosition` therefore stays in the DEX sums
  and in the output, frozen. `BaseKeepsClosedRecord` and
  `CloseKeepsStatusDexCount` state this.
- **The whole-account pool.** `calculateAllDEX` uses this single pool for
  isolated and cross positions alike. `SingleIsolatedExample` works this out
  for one isolated long under the default parameters. The pool is 997.892,
  and the liquidation price is −977892, far below zero.
- **Object identity.** The source compares objects with `p !== pos`. The
  model uses the index in the list instead.
- **Netting multiplies by the entry price only.** The code nets quantities
  and quantity × entry price, without the contract value. The model follows
  the code.
- **Netting is not in the pipeline.** `calculateAllDEX` never calls
  `mergePositionsBySymbol`. Netting is therefore modelled as an operation of
  its own.
- **Netting as loops.** `PositionMerge.MergePositionsBySymbol` runs the
  source's two loops over a dictionary and its key order. It is proved equal
  to the functional `MergedView`, and the netting properties are proved
  about `MergedView`.
- **`closePosition` works in place.** It writes into the record it finds at
  `index`. It is therefore a method on `Ledger`, a class holding the
  position array and the balance.

## Model

| member | source | states |
|---|---|---|
| CalculationUtils.UnrealizedPnL | src/CalculationUtils.js:12-20 | 0 when `status` is closed. Otherwise, with positive exposure, positive exactly when the price moved in the position's favour. |
| CalculationUtils.LongShortOpposite | src/CalculationUtils.js:15-19 | At the same prices, a long's and a short's unrealized P&L are negatives. |
| CalculationUtils.PositionValues | src/CalculationUtils.js:26-54 | A `closed` record comes back unchanged. An open one gets the mark price, value q·cv·mark, margin·leverage = value, maintenance = value·rate and the directional P&L. Every other field, the opening fee included, stays as it was. |
| CalculationUtils.PositionValuesIdempotent | src/CalculationUtils.js:26-51 | Revaluing at the same prices changes nothing more. |
| CalculationUtils.PositionValuesIgnoresDex | src/CalculationUtils.js:43-50 | Valuation neither reads nor writes dex or the liquidation price. |
| CalculationUtils.OthersPlusOwn | src/CalculationUtils.js:176-181 | The other records' P&L plus a record's own P&L is the total P&L. |
| CalculationUtils.AllDex | src/CalculationUtils.js:160-191 | The output is the records the test keeps, in order, changed only in dex. Each dex is the account pool less that record's own unrealized P&L. |
| CalculationUtils.DexPool | src/CalculationUtils.js:165-184 | The account pool: balance less total maintenance, opening fees and isolated margin, plus total unrealized P&L. Its properties are AllDex, DexPlusOwnPnlConstant and PositionHandlers.CloseShiftsStatusPool. |
| CalculationUtils.DexPlusOwnPnlConstant | src/CalculationUtils.js:174-184 | dex + own unrealized P&L is the same for every output record. |
| CalculationUtils.AllDexFromOpen | src/CalculationUtils.js:162-189 | Every output record is an input record the test finds open, with its dex set. |
| CalculationUtils.AllDexKeepsOpen | src/CalculationUtils.js:162-189 | Every input record the test finds open appears in the output with its dex set. |
| CalculationUtils.LiquidationPrice | src/CalculationUtils.js:204-212 | Without a dex there is no price. Otherwise price · q·cv is the value less dex for a long, or the value plus dex for a short. |
| CalculationUtils.LiquidationPrices | src/CalculationUtils.js:199-219 | Length and order are kept and closed records are unchanged. An open record changes only in its liquidation price, which is LiquidationPrice of that record. |
| CalculationUtils.LiquidationPricesIdempotent | src/CalculationUtils.js:199-219 | A second liquidation pass changes nothing. |
| CalculationUtils.CalculateAccountInfo | src/CalculationUtils.js:291-317 | totalMargin = open cross + open isolated margin, and available = balance − totalMargin. totalFee = every opening fee + the closing fees of closed records. Unrealized P&L counts open records only, realized P&L closed ones only. |
| CalculationUtils.ClosedRecordsHoldNoMargin | src/CalculationUtils.js:292-304 | Adding a closed record leaves margin, available balance and unrealized P&L unchanged. |
| CalculationUtils25.UnrealizedPnL | src/CalculationUtils_Version25.js:11-19 | 0 when `closed`. Otherwise, with positive exposure, positive exactly when the price moved in the position's favour. |
| CalculationUtils25.LongShortOpposite | src/CalculationUtils_Version25.js:14-18 | At the same prices, a long's and a short's unrealized P&L are negatives. |
| CalculationUtils25.PositionValues | src/CalculationUtils_Version25.js:79-100 | A `closed` record comes back unchanged. An open one gets value q·cv·entry (margin, fee and maintenance follow from it), the new current price and the directional P&L. Nothing else changes. |
| CalculationUtils25.PositionValuesIgnoresDex | src/CalculationUtils_Version25.js:91-99 | Valuation neither reads nor writes dex or the liquidation price. |
| CalculationUtils25.PriceMovesOnlyPnl | src/CalculationUtils_Version25.js:79-100 | Two valuations at different prices differ only in current price and unrealized P&L. |
| CalculationUtils25.AllDexDropsClosed | src/CalculationUtils_Version25.js:22-52 | Exactly one output record per open input, and none of them is closed. |
| CalculationUtils25.EntryLiquidationScaled | src/CalculationUtils_Version25.js:61-69 | With this valuation, liquidation price · q·cv = q·cv·entry ∓ dex. |
| CalculationUtils25.EntryLiquidation | src/CalculationUtils_Version25.js:56-82 | A long liquidates at entry − dex/(q·cv) and a short at entry + dex/(q·cv). |
| CalculationUtils25.LiquidationBelowEntryIffPositiveDex | src/CalculationUtils_Version25.js:56-82 | A long's liquidation price is below entry if and only if dex > 0. A short's is above entry if and only if dex > 0. |
| CalculationUtils25.MarginOpenRealizedClosed | src/CalculationUtils_Version25.js:103-126 | The summary of the open records alone has the same margin and available balance as the full one, and no realized P&L or closing fee. |
| Positions.IsPositionClosed | src/CalculationUtils.js:52-54 | The `closed === true` test. Its properties are those of IsClosed under ClosedFlag, used by ClosedRecordFrozen and the valuation contracts. |
| Positions.ActiveSumUpdate | src/CalculationUtils.js:162-171 | Replacing one record by another the test judges alike moves a sum over the kept records by the difference of the two, and not at all when both are closed. |
| Positions.ActiveMembers | src/CalculationUtils.js:162 | The filter keeps exactly the input records the test finds open. |
| Positions.SumExceptPlusOwn | src/CalculationUtils.js:176-181 | The sum over all records but one, plus that one, is the sum over all. |
| PositionMerge.CrossOpenOthersMembers | src/CalculationUtils.js:62-63 | Each record goes to exactly one side: open cross, or the rest. |
| PositionMerge.GroupBySymbol | src/CalculationUtils.js:66-72 | The loop's dictionary has exactly the symbols in first-appearance order as keys. Each key maps to that symbol's records, in order. |
| PositionMerge.SymbolOrderKeys | src/CalculationUtils.js:66-78 | The key order covers every symbol, names each once, and every key has a non-empty group. |
| PositionMerge.GroupMembers | src/CalculationUtils.js:67-71 | A group holds exactly the records with its symbol. |
| PositionMerge.AccumulateGroup | src/CalculationUtils.js:88-101 | The loop's four totals are the long and short sums of quantity and of quantity × entry. |
| PositionMerge.AverageEntryNets | src/CalculationUtils.js:112-121 | Net quantity × average entry = long value − short value. |
| PositionMerge.NetRecordNets | src/CalculationUtils.js:104-142 | A merged record has quantity \|net\| > 0. It is long if and only if net > 0. Its signed quantity is net, and signed quantity × entry = long value − short value. |
| PositionMerge.MergeGroup | src/CalculationUtils.js:79-150 | A group of one passes through. A larger group yields nothing exactly when \|net\| < 0.00001. |
| PositionMerge.MergedRecordBookkeeping | src/CalculationUtils.js:125-150 | margin = the group's total margin and leverage·margin = value. The record is flagged merged and carries the group and its totals. Every other field is the first record's. |
| PositionMerge.MergeSymbolGroup | src/CalculationUtils.js:79-153 | The per-group body returns MergeGroup of the group. |
| PositionMerge.MergePositionsBySymbol | src/CalculationUtils.js:60-157 | The two-loop procedure returns MergedView of its input. |
| PositionMerge.MergeKeepsNetExposure | src/CalculationUtils.js:88-142 | The merged record's signed quantity and signed value are the sums of its members'. |
| PositionMerge.OffsettingPairVanishes | src/CalculationUtils.js:104-109 | An equal long and short, both open cross on one symbol, merge to nothing. |
| PositionMerge.NoCrossUnchanged | src/CalculationUtils.js:62-75 | Without open cross records the output is the input. |
| PositionMerge.ContributionsShape | src/CalculationUtils.js:78-153 | Walking the keys in order, one record is pushed per contributing key, and the j-th record pushed is the merge of the j-th contributing key's group. |
| PositionMerge.KeyIndicesShape | src/CalculationUtils.js:78-153 | A key contributes a record if and only if its group's merge is not empty; the contributing keys are listed in key order, with no repeats. |
| PositionMerge.ViewShape | src/CalculationUtils.js:60-157 | Over keys without repeats, the untouched records stay in front and the pushed records correspond one to one, in order, with the keys whose merge is not empty; no two come from the same key. |
| PositionMerge.MergedViewPrefix | src/CalculationUtils.js:60-157 | The records left alone (isolated or closed) come first, in their order, followed by exactly one record per contributing symbol of the open cross records. |
| PositionMerge.MergedViewRecords | src/CalculationUtils.js:78-153 | In first-appearance order of the symbols, the j-th record after the untouched ones is the merge of the j-th contributing symbol's group. |
| PositionMerge.MergedViewDistinctSymbols | src/CalculationUtils.js:66-78 | No two merged records come from the same symbol. |
| PositionMerge.MergedViewContributors | src/CalculationUtils.js:104-153 | A symbol contributes a record if and only if its group's merge is not empty, so a group that nets flat contributes nothing. |
| PositionMerge.MergedView | src/CalculationUtils.js:60-157 | The output of mergePositionsBySymbol as a function. Its properties are the lemmas MergedViewPrefix, MergedViewRecords, MergedViewDistinctSymbols, MergedViewContributors, MergedViewNoLonger, MergeKeepsNetExposure, OffsettingPairVanishes and NoCrossUnchanged. |
| PositionMerge.MergedViewNoLonger | src/CalculationUtils.js:60-157 | Netting never lengthens the list. |
| PositionMerge.NetRecord | src/CalculationUtils.js:112-150 | The merged record's construction. Its properties are the lemmas NetRecordNets and MergedRecordBookkeeping. |
| PositionMerge.SymbolOrderLength | src/CalculationUtils.js:66-78 | There are no more keys than records. |
| PositionMerge.FilterLengths | src/CalculationUtils.js:62-63 | The two filters split the list: their lengths add up to its length. |
| PositionMerge.SignedSplits | src/CalculationUtils.js:88-101 | Signed quantity and signed value split into the long part less the short part. |
| PositionHandlers.CreateNewPosition | src/PositionHandlers_Version25.js:8-70 | The identity fields are as given. value = q·cv·entry, margin·leverage = value, fee = value·rate and maintenance = value·rate. The P&L is taken at the current price. The record is open, with no close data, no dex and no merge flag. |
| PositionHandlers.NewPositionIsEntryValued | src/PositionHandlers_Version25.js:15-64 | A new record is a fixed point of the entry-price valuation. |
| PositionHandlers.NewPositionIsMarkValuedAtEntry | src/PositionHandlers_Version25.js:15-64 | Opened at the mark price, a new record is a fixed point of the mark-price valuation. |
| PositionHandlers.NewPositionFlatAtEntry | src/PositionHandlers_Version25.js:41-42 | Unrealized P&L is 0 when the current price is the entry price. |
| PositionHandlers.DefaultContractExample | src/PositionHandlers_Version25.js:23-42 | With the default contract, value is 20, margin 2, fee 0.008, maintenance 0.1 and P&L 0. |
| PositionHandlers.RealizedIsUnrealizedAtClose | src/PositionHandlers_Version25.js:83-84 | Realized P&L equals the unrealized P&L at the close price. Long and short are opposite. |
| PositionHandlers.CloseSettlesAccount | src/PositionHandlers_Version25.js:83-122 | Closing removes the record's margin and unrealized P&L from the totals and adds its P&L to the realized total and its closing fee to the fees. The balance moves by realized P&L − opening fee − closing fee. |
| PositionHandlers.ClosedRecordFrozen | src/PositionHandlers_Version25.js:117-121 | A closed record is unchanged by both valuations and the liquidation step, and is dropped by the `closed`-test DEX step. |
| PositionHandlers.CloseRecord | src/PositionHandlers_Version25.js:117-121 | The record as closePosition leaves it. Its properties are the lemmas RealizedIsUnrealizedAtClose, ClosedRecordFrozen and CloseSettlesAccount. |
| PositionHandlers.BalanceAfterClose | src/PositionHandlers_Version25.js:89-91 | The balance after a close. It is stated by CloseSettlesAccount and Ledger.ClosePosition. |
| PositionHandlers.CloseShiftsStatusPool | src/PositionHandlers_Version25.js:117-121 | Under the `status` test the account pool drops by exactly the closed record's unrealized P&L, and is unchanged when the record was already `status`-closed. |
| PositionHandlers.CloseKeepsStatusDexCount | src/PositionHandlers_Version25.js:117-121 | Closing leaves the number of records kept by the `status` test unchanged. It lowers the number kept by the `closed` test by one. |
| PositionHandlers.Ledger.ClosePosition | src/PositionHandlers_Version25.js:73-127 | In range, exactly the element at `index` becomes the closed record and the balance is settled. Out of range, nothing changes and the answer is false. |
| PositionHandlers.ValueAll | src/PositionHandlers_Version25.js:144-150 | Same length. Closed records pass through, and every element is the version's valuation of its input. |
| PositionHandlers.Recalculate | src/PositionHandlers_Version25.js:130-183 | One output per record the version's DEX test finds open, each with a dex, none closed under that test. dex + own P&L is the same for all. |
| PositionHandlers.RecalculateLiquidationConsistent | src/PositionHandlers_Version25.js:157-164 | Each open output record's liquidation price is the one its own final dex and value give. |
| PositionHandlers.OutputIsKeptRecords | src/PositionHandlers_Version25.js:144-164 | The output is the kept valued records, changed only in dex and liquidation price. |
| PositionHandlers.OutputRevaluesToItself | src/PositionHandlers_Version25.js:144-150 | Revaluing the output at the same prices changes nothing. |
| PositionHandlers.OutputDexIsItself | src/PositionHandlers_Version25.js:157 | The DEX step on the output gives back the output. |
| PositionHandlers.RecalculateIdempotent | src/CalculationUtils.js:220-287 | A second recalculation at the same market and balance gives back the first one's output. |
| PositionHandlers.BaseKeepsClosedRecord | src/PositionHandlers_Version25.js:5-164 | As shipped, with no `status` set, no record is dropped, and a closed record comes out unchanged apart from its dex. |
| PositionHandlers.SingleIsolatedExample | src/PositionHandlers_Version25.js:144-164 | One default isolated long with balance 1000 gets dex 997.892 and liquidation price −977892, through the shipped Base pipeline and through the V25 one alike. |
| ContractFormulaCalculator.Calculate | src/ContractFormulaCalculator.js:11-37 | No figures if and only if an input is missing or zero. Otherwise P&L = directional move × size, margin·leverage = entry·size with margin ≠ 0, and ROE·margin = 100·P&L. |
| ContractFormulaCalculator.LongShortOpposite | src/ContractFormulaCalculator.js:22-30 | A long's P&L and ROE are the negatives of a short's, and the margin is the same. |
| ContractFormulaCalculator.LongRoeIsLeveragedMove | src/ContractFormulaCalculator.js:29-30 | A long's ROE = (mark − entry)/entry · leverage · 100. |

## Left out

- Logging is not modelled. The `addToLog` narration is output only, and in `src/PositionHandlers_Version25.js` the `isAutoRefresh` switch only guards log lines. For `src/CalculationUtils.js`, where the same switch also guards a failing call, see the next line.
- The call to the undefined `logMergedPositionCalculation` at `src/CalculationUtils.js:254` is not modelled. With the default `isAutoRefresh = false` (line 224), any symbol with two or more open cross records makes it throw a ReferenceError, so the `recalculateAllPositions` of that file returns nothing at all. The model covers only the calculation path that runs when this call is not reached.
- The `createdAt` and `closedAt` timestamps are not modelled, because they read the clock.
- `toFixed` / `parseFloat` rounding to strings is not modelled. All figures are exact reals, so the model has no display rounding and no IEEE rounding.
- `JSON`-style truthiness defaults (`p.margin || 0`, `p.closeFee &&`) are not modelled. Every numeric field is a number here; an optional one is an `Option`.
- CalculationUtils.LiquidationPrice: a record without a dex gets no price (`None`), where the source computes NaN from the missing field. The pipeline always sets dex before this step, so it never reaches that case.
- Positions.Quotient: where the source divides by zero and gets Infinity or NaN, the model gives 0. This affects margin at zero leverage (PositionHandlers.CreateNewPosition, CalculationUtils.PositionValues, CalculationUtils25.PositionValues), the merged leverage at zero total margin (PositionMerge.MergeGroup) and the liquidation price at zero exposure (CalculationUtils.LiquidationPrice).
- PositionMerge.MergePositionsBySymbol: `Object.keys` lists integer-like keys first, in numeric order. The model takes every symbol in first-appearance order.
- PositionHandlers.Ledger.ClosePosition: when `index` is out of range, the source fails reading the missing record; the model changes nothing and answers false.
- PositionHandlers.Ledger.ClosePosition: the source returns the new balance and a shallow copy of the list whose element it mutated, so the caller's own list changes too. The ledger holds a single array and the balance instead. Aliasing with other holders of the record is not modelled.
- PositionHandlers.Ledger.ClosePosition: closing a record that is already closed is not refused. It is recomputed as written, as in the source.
- The unused parameter `contractValue` of calculateAllDEX is dropped: CalculationUtils.AllDex has no such parameter. The unused `feeRate` of the Base calculatePositionValues and `initialBalance` of calculateAccountInfo are kept but not used. The `position` parameter of closePosition is not modelled.
- ContractFormulaCalculator.Calculate: an input that parses to NaN is `None`. A direction other than `'long'` counts as short, so it is `Short`. Handing the result to the React state is not modelled.
- `translateDirection` and `translateMarginType` are not modelled, because they are display labels.
- Behaviour the code does not have is not added: an isolated-only DEX formula, a per-symbol DEX pool, netting inside the DEX step, and broadcasting merged results back to group members.
- Not modelled, because they are I/O and UI: the React components, the WebSocket market feed, `LoggingUtils.js`, `App.js` and the upload handlers.
