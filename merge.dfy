/**
 * mergePositionsBySymbol (CalculationUtils.js): collapse the open cross
 * records of each symbol into one net record.
 *
 * The source builds its symbol-to-group dictionary in place and pushes the
 * results into an output array; MergePositionsBySymbol does the same with a
 * map, the dictionary's key order and two loops, and is proved equal to the
 * specification MergedView. Note that the values the source nets are
 * quantity times entry price, without the contract value.
 */
module PositionMerge {
  import opened Positions

  /** Nets smaller than this (in quantity) count as flat. */
  const NetEpsilon: real := 0.00001

  predicate IsOpenCross(p: Position) {
    p.marginType == Cross && !IsPositionClosed(p)
  }

  /** The open cross records, in order. */
  function CrossOpen(ps: seq<Position>): seq<Position> {
    if ps == [] then []
    else (if IsOpenCross(ps[0]) then [ps[0]] else []) + CrossOpen(ps[1..])
  }

  /** Every other record (isolated, or closed), in order. */
  function Others(ps: seq<Position>): seq<Position> {
    if ps == [] then []
    else (if IsOpenCross(ps[0]) then [] else [ps[0]]) + Others(ps[1..])
  }

  /** The symbols of `ps` in order of first appearance: the key order of the
      source's `symbolGroups` dictionary. */
  function SymbolOrder(ps: seq<Position>): seq<string> {
    if ps == [] then []
    else
      var order := SymbolOrder(ps[..|ps| - 1]);
      if ps[|ps| - 1].symbol in order then order else order + [ps[|ps| - 1].symbol]
  }

  /** The records of `ps` with the given symbol, in order. */
  function Group(ps: seq<Position>, symbol: string): seq<Position> {
    if ps == [] then []
    else Group(ps[..|ps| - 1], symbol) + (if ps[|ps| - 1].symbol == symbol then [ps[|ps| - 1]] else [])
  }

  /** Every record passes exactly one of the two filters. */
  lemma {:induction false} CrossOpenOthersMembers(ps: seq<Position>)
    ensures forall p :: p in CrossOpen(ps) <==> p in ps && IsOpenCross(p)
    ensures forall p :: p in Others(ps) <==> p in ps && !IsOpenCross(p)
  {
    if ps != [] {
      CrossOpenOthersMembers(ps[1..]);
      assert ps == [ps[0]] + ps[1..];
    }
  }

  /** The key order names each symbol of the input once and nothing else. */
  lemma {:induction false} SymbolOrderKeys(ps: seq<Position>)
    ensures forall i :: 0 <= i < |ps| ==> ps[i].symbol in SymbolOrder(ps)
    ensures forall s :: s in SymbolOrder(ps) ==> Group(ps, s) != []
    ensures forall i, j :: 0 <= i < j < |SymbolOrder(ps)| ==> SymbolOrder(ps)[i] != SymbolOrder(ps)[j]
  {
    if ps != [] {
      var init := ps[..|ps| - 1];
      SymbolOrderKeys(init);
      assert forall i :: 0 <= i < |init| ==> init[i] == ps[i];
    }
  }

  /** A group holds exactly the input's records with that symbol. */
  lemma {:induction false} GroupMembers(ps: seq<Position>, symbol: string)
    ensures forall p :: p in Group(ps, symbol) <==> p in ps && p.symbol == symbol
  {
    if ps != [] {
      var init := ps[..|ps| - 1];
      GroupMembers(init, symbol);
      assert ps == init + [ps[|ps| - 1]];
    }
  }

  /** A symbol outside the key order has an empty group. */
  lemma {:induction false} GroupOffOrder(ps: seq<Position>, symbol: string)
    requires symbol !in SymbolOrder(ps)
    ensures Group(ps, symbol) == []
  {
    if ps != [] {
      GroupOffOrder(ps[..|ps| - 1], symbol);
    }
  }

  // The per-record terms the netting accumulates.
  function LongQuantityOf(p: Position): real { if p.direction == Long then p.quantity else 0.0 }
  function LongValueOf(p: Position): real { if p.direction == Long then p.quantity * p.entryPrice else 0.0 }
  function ShortQuantityOf(p: Position): real { if p.direction == Long then 0.0 else p.quantity }
  function ShortValueOf(p: Position): real { if p.direction == Long then 0.0 else p.quantity * p.entryPrice }
  function MarginOf(p: Position): real { p.margin }

  /** Quantity with the sign of the direction: positive long, negative short. */
  function SignedQuantity(p: Position): real { if p.direction == Long then p.quantity else -p.quantity }
  function SignedValue(p: Position): real { SignedQuantity(p) * p.entryPrice }

  function NetQuantity(g: seq<Position>): real {
    SumBy(g, LongQuantityOf) - SumBy(g, ShortQuantityOf)
  }

  /** The entry price of a merged record: net value over net quantity, both
      taken in the net direction. */
  function AverageEntry(longValue: real, shortValue: real, netQuantity: real): real
    requires netQuantity != 0.0
  {
    if netQuantity > 0.0 then (longValue - shortValue) / netQuantity
    else (shortValue - longValue) / Abs(netQuantity)
  }

  /** The net quantity at the average price carries exactly the net value. */
  lemma AverageEntryNets(longValue: real, shortValue: real, netQuantity: real)
    requires netQuantity != 0.0
    ensures netQuantity * AverageEntry(longValue, shortValue, netQuantity) == longValue - shortValue
  {
    if netQuantity < 0.0 {
      var avg := (shortValue - longValue) / -netQuantity;
      assert -netQuantity * avg == shortValue - longValue;
    }
  }

  /** The merged record built on a group's first record: the net direction
      and quantity, the average entry, the value of the net at that price, the
      group's total margin and the leverage that margin implies; flagged as
      merged and carrying the group and its totals. */
  function NetRecord(first: Position, group: seq<Position>, longQuantity: real, longValue: real,
                     shortQuantity: real, shortValue: real, totalMargin: real): Position
    requires longQuantity - shortQuantity != 0.0
  {
    var netQuantity := longQuantity - shortQuantity;
    var direction := if netQuantity > 0.0 then Long else Short;
    var avgEntryPrice := AverageEntry(longValue, shortValue, netQuantity);
    var positionValue := Abs(netQuantity) * avgEntryPrice;
    first.(direction := direction, quantity := Abs(netQuantity), entryPrice := avgEntryPrice,
           isMerged := true,
           mergeInfo := Some(MergeInfo(longQuantity, longValue, shortQuantity, shortValue,
                                       netQuantity, group)),
           positionValue := positionValue, margin := totalMargin,
           leverage := Quotient(positionValue, totalMargin))
  }

  /** A merged record nets its totals: its quantity is the absolute net and
      positive, it is long exactly when the net is, and its signed quantity
      at its entry price is the long value less the short value. */
  lemma NetRecordNets(first: Position, group: seq<Position>, longQuantity: real, longValue: real,
                      shortQuantity: real, shortValue: real, totalMargin: real)
    requires longQuantity - shortQuantity != 0.0
    ensures var m := NetRecord(first, group, longQuantity, longValue, shortQuantity, shortValue, totalMargin);
      var net := longQuantity - shortQuantity;
      && m.quantity == Abs(net) && m.quantity > 0.0
      && (m.direction == Long <==> net > 0.0)
      && SignedQuantity(m) == net
      && SignedQuantity(m) * m.entryPrice == longValue - shortValue
      && m.positionValue == m.quantity * m.entryPrice
  {
    var net := longQuantity - shortQuantity;
    var m := NetRecord(first, group, longQuantity, longValue, shortQuantity, shortValue, totalMargin);
    AverageEntryNets(longValue, shortValue, net);
    assert SignedQuantity(m) == net;
  }

  /** One symbol group's contribution to the output: a group of one passes
      through; a group that nets (within NetEpsilon) to nothing contributes
      nothing; otherwise the group's NetRecord. */
  function MergeGroup(g: seq<Position>): (r: Option<Position>)
    ensures |g| == 1 ==> r == Some(g[0])
    ensures |g| != 1 ==> (r.None? <==> Abs(NetQuantity(g)) < NetEpsilon)
  {
    if |g| == 1 then Some(g[0])
    else
      var longQuantity := SumBy(g, LongQuantityOf);
      var shortQuantity := SumBy(g, ShortQuantityOf);
      if Abs(longQuantity - shortQuantity) < NetEpsilon then None
      else Some(NetRecord(g[0], g, longQuantity, SumBy(g, LongValueOf), shortQuantity,
                          SumBy(g, ShortValueOf), SumBy(g, MarginOf)))
  }

  /** The merged record's margin is the group's total margin and its leverage
      the value that margin carries; it is flagged merged, carries the group
      and its totals, and in every other field is the group's first record. */
  lemma MergedRecordBookkeeping(g: seq<Position>)
    requires |g| != 1 && MergeGroup(g).Some?
    ensures var m := MergeGroup(g).value;
      && m.margin == SumBy(g, MarginOf)
      && (m.margin != 0.0 ==> m.leverage * m.margin == m.positionValue)
      && m.isMerged
      && m.mergeInfo == Some(MergeInfo(SumBy(g, LongQuantityOf), SumBy(g, LongValueOf),
                                       SumBy(g, ShortQuantityOf), SumBy(g, ShortValueOf),
                                       NetQuantity(g), g))
      && m.(direction := g[0].direction, quantity := g[0].quantity, entryPrice := g[0].entryPrice,
            positionValue := g[0].positionValue, margin := g[0].margin, leverage := g[0].leverage,
            isMerged := g[0].isMerged, mergeInfo := g[0].mergeInfo) == g[0]
  {
  }

  function OptionToSeq(o: Option<Position>): (r: seq<Position>)
    ensures |r| <= 1
  {
    match o
    case None => []
    case Some(p) => [p]
  }

  /** What one symbol contributes: the merge of its group among `cross`. */
  function Contribution(cross: seq<Position>): string -> Option<Position> {
    symbol => MergeGroup(Group(cross, symbol))
  }

  /** What the keys contribute, in key order. */
  function Contributions(contribution: string -> Option<Position>, keys: seq<string>): seq<Position> {
    if keys == [] then []
    else Contributions(contribution, keys[..|keys| - 1]) + OptionToSeq(contribution(keys[|keys| - 1]))
  }

  /** The indices of `keys` that contribute a record, in order. */
  function KeyIndices(contribution: string -> Option<Position>, keys: seq<string>): seq<int> {
    if keys == [] then []
    else KeyIndices(contribution, keys[..|keys| - 1])
         + (if contribution(keys[|keys| - 1]).Some? then [|keys| - 1] else [])
  }

  /** What mergePositionsBySymbol returns: the records it leaves alone first,
      then at most one entry per symbol group, in first-appearance order. */
  function MergedView(positions: seq<Position>): seq<Position> {
    var cross := CrossOpen(positions);
    Others(positions) + Contributions(Contribution(cross), SymbolOrder(cross))
  }

  /** Merging never lengthens the list. */
  lemma MergedViewNoLonger(positions: seq<Position>)
    ensures |MergedView(positions)| <= |positions|
  {
    var cross := CrossOpen(positions);
    ContributionsShape(Contribution(cross), SymbolOrder(cross));
    KeyIndicesShape(Contribution(cross), SymbolOrder(cross));
    SymbolOrderLength(cross);
    FilterLengths(positions);
  }

  /** There are no more keys than records. */
  lemma {:induction false} SymbolOrderLength(ps: seq<Position>)
    ensures |SymbolOrder(ps)| <= |ps|
  {
    if ps != [] {
      SymbolOrderLength(ps[..|ps| - 1]);
    }
  }

  /** The two filters split the input. */
  lemma {:induction false} FilterLengths(ps: seq<Position>)
    ensures |CrossOpen(ps)| + |Others(ps)| == |ps|
  {
    if ps != [] {
      FilterLengths(ps[1..]);
    }
  }

  /** The `forEach` over one group that accumulates long and short quantity
      and value (quantity times entry price). */
  method AccumulateGroup(positions: seq<Position>)
    returns (longQuantity: real, longValue: real, shortQuantity: real, shortValue: real)
    ensures longQuantity == SumBy(positions, LongQuantityOf)
    ensures longValue == SumBy(positions, LongValueOf)
    ensures shortQuantity == SumBy(positions, ShortQuantityOf)
    ensures shortValue == SumBy(positions, ShortValueOf)
  {
    longQuantity, longValue, shortQuantity, shortValue := 0.0, 0.0, 0.0, 0.0;
    var i := 0;
    while i < |positions|
      invariant 0 <= i <= |positions|
      invariant longQuantity == SumBy(positions[..i], LongQuantityOf)
      invariant longValue == SumBy(positions[..i], LongValueOf)
      invariant shortQuantity == SumBy(positions[..i], ShortQuantityOf)
      invariant shortValue == SumBy(positions[..i], ShortValueOf)
    {
      var pos := positions[i];
      if pos.direction == Long {
        longQuantity := longQuantity + pos.quantity;
        longValue := longValue + pos.quantity * pos.entryPrice;
      } else {
        shortQuantity := shortQuantity + pos.quantity;
        shortValue := shortValue + pos.quantity * pos.entryPrice;
      }
      assert positions[..i + 1] == positions[..i] + [pos];
      SumByAppend(positions[..i], pos, LongQuantityOf);
      SumByAppend(positions[..i], pos, LongValueOf);
      SumByAppend(positions[..i], pos, ShortQuantityOf);
      SumByAppend(positions[..i], pos, ShortValueOf);
      i := i + 1;
    }
    assert positions[..|positions|] == positions;
  }

  /** The body the source runs for each symbol group: pass a single record
      through, drop a flat group, or build the merged record on the group's
      first record and then set its value, margin and leverage. */
  method MergeSymbolGroup(positions: seq<Position>) returns (r: Option<Position>)
    ensures r == MergeGroup(positions)
  {
    if |positions| == 1 {
      return Some(positions[0]);
    }
    var longQuantity, longValue, shortQuantity, shortValue := AccumulateGroup(positions);
    var netQuantity := longQuantity - shortQuantity;
    if Abs(netQuantity) < NetEpsilon {
      return None;
    }
    var direction := if netQuantity > 0.0 then Long else Short;
    var avgEntryPrice: real;
    if direction == Long {
      avgEntryPrice := (longValue - shortValue) / netQuantity;
    } else {
      avgEntryPrice := (shortValue - longValue) / Abs(netQuantity);
    }
    assert MergeGroup(positions).value.entryPrice == avgEntryPrice;
    var mergedPosition := positions[0].(
      direction := direction, quantity := Abs(netQuantity), entryPrice := avgEntryPrice,
      isMerged := true,
      mergeInfo := Some(MergeInfo(longQuantity, longValue, shortQuantity, shortValue,
                                  netQuantity, positions)));
    var positionValue := Abs(netQuantity) * avgEntryPrice;
    mergedPosition := mergedPosition.(positionValue := positionValue);
    var totalMargin := SumBy(positions, MarginOf);
    mergedPosition := mergedPosition.(margin := totalMargin);
    mergedPosition := mergedPosition.(leverage := Quotient(positionValue, totalMargin));
    assert MergeGroup(positions).value.positionValue == positionValue;
    r := Some(mergedPosition);
  }

  /** Applying a symbol's contribution merges its group. */
  lemma ContributionAt(cross: seq<Position>, symbol: string)
    ensures Contribution(cross)(symbol) == MergeGroup(Group(cross, symbol))
  {
  }

  /** One more key appends its contribution. */
  lemma ContributionsStep(contribution: string -> Option<Position>, keys: seq<string>, k: nat)
    requires k < |keys|
    ensures Contributions(contribution, keys[..k + 1])
         == Contributions(contribution, keys[..k]) + OptionToSeq(contribution(keys[k]))
  {
    assert keys[..k + 1][..k] == keys[..k];
  }

  /** The first `forEach`: build the symbol-to-group dictionary in place,
      recording its keys in insertion order. */
  method GroupBySymbol(crossPositions: seq<Position>)
    returns (symbolGroups: map<string, seq<Position>>, keys: seq<string>)
    ensures keys == SymbolOrder(crossPositions)
    ensures forall s :: s in symbolGroups <==> s in keys
    ensures forall s :: s in symbolGroups ==> symbolGroups[s] == Group(crossPositions, s)
  {
    symbolGroups := map[];
    keys := [];
    var i := 0;
    while i < |crossPositions|
      invariant 0 <= i <= |crossPositions|
      invariant keys == SymbolOrder(crossPositions[..i])
      invariant forall s :: s in symbolGroups <==> s in keys
      invariant forall s :: s in symbolGroups ==> symbolGroups[s] == Group(crossPositions[..i], s)
    {
      var pos := crossPositions[i];
      ghost var prefix := crossPositions[..i];
      ghost var next := crossPositions[..i + 1];
      assert next[..|next| - 1] == prefix && next[|next| - 1] == pos;
      if pos.symbol !in symbolGroups {
        GroupOffOrder(prefix, pos.symbol);
        symbolGroups := symbolGroups[pos.symbol := []];
        keys := keys + [pos.symbol];
      }
      symbolGroups := symbolGroups[pos.symbol := symbolGroups[pos.symbol] + [pos]];
      i := i + 1;
    }
    assert crossPositions[..i] == crossPositions;
  }

  /** mergePositionsBySymbol: the records it leaves alone, then what each
      symbol group contributes, pushed in the dictionary's key order. */
  method MergePositionsBySymbol(positions: seq<Position>) returns (mergedPositions: seq<Position>)
    ensures mergedPositions == MergedView(positions)
  {
    var crossPositions := CrossOpen(positions);
    var otherPositions := Others(positions);
    var symbolGroups, keys := GroupBySymbol(crossPositions);
    ghost var contribution := Contribution(crossPositions);

    mergedPositions := otherPositions;
    var k := 0;
    while k < |keys|
      invariant 0 <= k <= |keys|
      invariant mergedPositions == otherPositions + Contributions(contribution, keys[..k])
    {
      var merged := MergeSymbolGroup(symbolGroups[keys[k]]);
      ContributionAt(crossPositions, keys[k]);
      ContributionsStep(contribution, keys, k);
      mergedPositions := mergedPositions + OptionToSeq(merged);
      k := k + 1;
    }
    assert keys[..k] == keys;
  }

  /** Netting keeps the group's signed exposure: the merged record's signed
      quantity and signed value are the sums of its members'. */
  lemma MergeKeepsNetExposure(g: seq<Position>)
    requires |g| != 1 && MergeGroup(g).Some?
    ensures SignedQuantity(MergeGroup(g).value) == SumBy(g, SignedQuantity)
    ensures SignedValue(MergeGroup(g).value) == SumBy(g, SignedValue)
  {
    var lq, lv := SumBy(g, LongQuantityOf), SumBy(g, LongValueOf);
    var sq, sv := SumBy(g, ShortQuantityOf), SumBy(g, ShortValueOf);
    assert MergeGroup(g) == Some(NetRecord(g[0], g, lq, lv, sq, sv, SumBy(g, MarginOf)));
    NetRecordNets(g[0], g, lq, lv, sq, sv, SumBy(g, MarginOf));
    SignedSplits();
    SumByDifference(g, LongQuantityOf, ShortQuantityOf, SignedQuantity);
    SumByDifference(g, LongValueOf, ShortValueOf, SignedValue);
  }

  /** A record's signed quantity and value are its long part less its short part. */
  lemma SignedSplits()
    ensures forall p :: SignedQuantity(p) == LongQuantityOf(p) - ShortQuantityOf(p)
    ensures forall p :: SignedValue(p) == LongValueOf(p) - ShortValueOf(p)
  {
    forall p ensures SignedValue(p) == LongValueOf(p) - ShortValueOf(p) {
      if p.direction == Short {
        assert -p.quantity * p.entryPrice == -(p.quantity * p.entryPrice);
      }
    }
  }

  /** A long and a short of the same size on one symbol cancel: the merged
      view of the pair is empty. */
  lemma OffsettingPairVanishes(a: Position, b: Position)
    requires IsOpenCross(a) && IsOpenCross(b) && a.symbol == b.symbol
    requires a.direction == Long && b.direction == Short && a.quantity == b.quantity
    ensures MergedView([a, b]) == []
  {
    var ps := [a, b];
    assert ps[1..] == [b] && [b][1..] == [];
    assert CrossOpen([b]) == [b] && Others([b]) == [];
    assert CrossOpen(ps) == ps;
    assert Others(ps) == [];
    assert ps[..1] == [a] && [a][..0] == [];
    assert SymbolOrder([a]) == [a.symbol];
    assert SymbolOrder(ps) == [a.symbol];
    assert Group([a], a.symbol) == [a];
    assert Group(ps, a.symbol) == ps;
    assert SumBy([b], LongQuantityOf) == 0.0 + SumBy([], LongQuantityOf);
    assert SumBy([b], ShortQuantityOf) == b.quantity + SumBy([], ShortQuantityOf);
    assert SumBy(ps, LongQuantityOf) == a.quantity + SumBy([b], LongQuantityOf);
    assert SumBy(ps, ShortQuantityOf) == 0.0 + SumBy([b], ShortQuantityOf);
    assert NetQuantity(ps) == 0.0;
    assert MergeGroup(ps) == None;
    assert [a.symbol][..0] == [];
    assert Contribution(ps)(a.symbol) == None;
    assert Contributions(Contribution(ps), [a.symbol]) == Contributions(Contribution(ps), []) + [];
  }

  /** Without open cross records the view is the input itself. */
  lemma {:induction false} NoCrossUnchanged(ps: seq<Position>)
    requires forall i :: 0 <= i < |ps| ==> !IsOpenCross(ps[i])
    ensures MergedView(ps) == ps
  {
    NoCrossFilters(ps);
  }

  lemma {:induction false} NoCrossFilters(ps: seq<Position>)
    requires forall i :: 0 <= i < |ps| ==> !IsOpenCross(ps[i])
    ensures CrossOpen(ps) == [] && Others(ps) == ps
  {
    if ps != [] {
      NoCrossFilters(ps[1..]);
    }
  }

  /** The contributing key indices lie within `keys`, increase, and name
      exactly the keys that contribute a record. */
  lemma {:induction false} KeyIndicesShape(contribution: string -> Option<Position>, keys: seq<string>)
    ensures var ks := KeyIndices(contribution, keys);
      && |ks| <= |keys|
      && (forall j :: 0 <= j < |ks| ==> 0 <= ks[j] < |keys|)
      && (forall j1, j2 :: 0 <= j1 < j2 < |ks| ==> ks[j1] < ks[j2])
      && (forall k :: 0 <= k < |keys| ==> (contribution(keys[k]).Some? <==> k in ks))
  {
    if keys != [] {
      var n := |keys|;
      var init := keys[..n - 1];
      KeyIndicesShape(contribution, init);
      var ksPrev := KeyIndices(contribution, init);
      var ks := KeyIndices(contribution, keys);
      assert ks == ksPrev + (if contribution(keys[n - 1]).Some? then [n - 1] else []);
      forall k | 0 <= k < n ensures contribution(keys[k]).Some? <==> k in ks {
        if k < n - 1 {
          assert keys[k] == init[k];
          assert k in ks <==> k in ksPrev;
        }
      }
    }
  }

  /** The j-th contributed record is what key KeyIndices[j] contributes. */
  lemma {:induction false} ContributionsShape(contribution: string -> Option<Position>, keys: seq<string>)
    ensures var r := Contributions(contribution, keys);
      var ks := KeyIndices(contribution, keys);
      && |r| == |ks|
      && (forall j :: 0 <= j < |ks| ==> 0 <= ks[j] < |keys| && contribution(keys[ks[j]]) == Some(r[j]))
  {
    if keys != [] {
      var n := |keys|;
      var init := keys[..n - 1];
      ContributionsShape(contribution, init);
      var prev := Contributions(contribution, init);
      var ksPrev := KeyIndices(contribution, init);
      var r := Contributions(contribution, keys);
      var ks := KeyIndices(contribution, keys);
      var last := contribution(keys[n - 1]);
      assert r == prev + OptionToSeq(last);
      assert ks == ksPrev + (if last.Some? then [n - 1] else []);
      forall j | 0 <= j < |ks|
        ensures 0 <= ks[j] < n && contribution(keys[ks[j]]) == Some(r[j])
      {
        if j < |ksPrev| {
          assert ks[j] == ksPrev[j] && r[j] == prev[j];
          assert keys[ks[j]] == init[ksPrev[j]];
        }
      }
    }
  }

  /** Increasing picks from a list without repeats pick different elements. */
  lemma DistinctPicks(keys: seq<string>, ks: seq<int>)
    requires forall i, j :: 0 <= i < j < |keys| ==> keys[i] != keys[j]
    requires forall j :: 0 <= j < |ks| ==> 0 <= ks[j] < |keys|
    requires forall j1, j2 :: 0 <= j1 < j2 < |ks| ==> ks[j1] < ks[j2]
    ensures forall j1, j2 :: 0 <= j1 < j2 < |ks| ==> keys[ks[j1]] != keys[ks[j2]]
  {
    forall j1, j2 | 0 <= j1 < j2 < |ks| ensures keys[ks[j1]] != keys[ks[j2]] {
      assert ks[j1] < ks[j2];
    }
  }

  /** The records left alone, then the contributions of keys without
      repeats: the contributing keys' merges, in key order, no two alike. */
  lemma ViewShape(others: seq<Position>, cross: seq<Position>, keys: seq<string>)
    requires forall i, j :: 0 <= i < j < |keys| ==> keys[i] != keys[j]
    ensures var ks := KeyIndices(Contribution(cross), keys);
      var r := others + Contributions(Contribution(cross), keys);
      && |r| == |others| + |ks| && |ks| <= |keys|
      && r[..|others|] == others
      && (forall j :: 0 <= j < |ks| ==>
            0 <= ks[j] < |keys| && MergeGroup(Group(cross, keys[ks[j]])) == Some(r[|others| + j]))
      && (forall j1, j2 :: 0 <= j1 < j2 < |ks| ==> keys[ks[j1]] != keys[ks[j2]])
      && (forall k :: 0 <= k < |keys| ==> (MergeGroup(Group(cross, keys[k])).Some? <==> k in ks))
  {
    var ks := KeyIndices(Contribution(cross), keys);
    var tail := Contributions(Contribution(cross), keys);
    ContributionsShape(Contribution(cross), keys);
    KeyIndicesShape(Contribution(cross), keys);
    DistinctPicks(keys, ks);
    forall j | 0 <= j < |ks|
      ensures MergeGroup(Group(cross, keys[ks[j]])) == Some((others + tail)[|others| + j])
    {
      assert (others + tail)[|others| + j] == tail[j];
    }
  }

  // mergePositionsBySymbol's output, MergedView: the records it leaves alone,
  // in their order, then one record for each symbol of the open cross records
  // whose group does not net flat, in first-appearance order, each the merge
  // of that symbol's group, and no two from the same symbol. `ks` below lists
  // the positions, in the key order, of the symbols that contribute.

  /** The records left alone come first, and one record follows per
      contributing symbol. */
  lemma MergedViewPrefix(positions: seq<Position>)
    ensures var ks := KeyIndices(Contribution(CrossOpen(positions)), SymbolOrder(CrossOpen(positions)));
      && |MergedView(positions)| == |Others(positions)| + |ks|
      && |ks| <= |SymbolOrder(CrossOpen(positions))|
    ensures MergedView(positions)[..|Others(positions)|] == Others(positions)
  {
    var cross := CrossOpen(positions);
    SymbolOrderDistinct(cross);
    ViewShape(Others(positions), cross, SymbolOrder(cross));
    assert MergedView(positions) == Others(positions) + Contributions(Contribution(cross), SymbolOrder(cross));
  }

  /** The j-th record after them is the merge of the j-th contributing
      symbol's group. */
  lemma MergedViewRecords(positions: seq<Position>)
    ensures var cross := CrossOpen(positions);
      var keys := SymbolOrder(cross);
      var ks := KeyIndices(Contribution(cross), keys);
      forall j :: 0 <= j < |ks| ==>
        && 0 <= ks[j] < |keys|
        && |Others(positions)| + j < |MergedView(positions)|
        && MergeGroup(Group(cross, keys[ks[j]])) == Some(MergedView(positions)[|Others(positions)| + j])
  {
    var cross := CrossOpen(positions);
    SymbolOrderDistinct(cross);
    ViewShape(Others(positions), cross, SymbolOrder(cross));
    assert MergedView(positions) == Others(positions) + Contributions(Contribution(cross), SymbolOrder(cross));
  }

  /** No two merged records come from the same symbol. */
  lemma MergedViewDistinctSymbols(positions: seq<Position>)
    ensures var cross := CrossOpen(positions);
      var keys := SymbolOrder(cross);
      var ks := KeyIndices(Contribution(cross), keys);
      forall j1, j2 :: 0 <= j1 < j2 < |ks| ==> 0 <= ks[j1] < |keys| && 0 <= ks[j2] < |keys| && keys[ks[j1]] != keys[ks[j2]]
  {
    var cross := CrossOpen(positions);
    SymbolOrderDistinct(cross);
    ViewShape(Others(positions), cross, SymbolOrder(cross));
  }

  /** A symbol contributes exactly when its group's merge is not empty. */
  lemma MergedViewContributors(positions: seq<Position>)
    ensures var cross := CrossOpen(positions);
      var keys := SymbolOrder(cross);
      forall k :: 0 <= k < |keys| ==>
        (MergeGroup(Group(cross, keys[k])).Some? <==> k in KeyIndices(Contribution(cross), keys))
  {
    var cross := CrossOpen(positions);
    SymbolOrderDistinct(cross);
    ViewShape(Others(positions), cross, SymbolOrder(cross));
  }

  lemma SymbolOrderDistinct(ps: seq<Position>)
    ensures forall i, j :: 0 <= i < j < |SymbolOrder(ps)| ==> SymbolOrder(ps)[i] != SymbolOrder(ps)[j]
  {
    SymbolOrderKeys(ps);
  }
}
