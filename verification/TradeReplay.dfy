/** The trades table and the replay that recalculates realized P&L from it. */
module TradeReplay {
  import opened Base
  import opened PositionMath

  /** A row of the trades table. A side, quantity or price that does not parse is `None`. */
  datatype Trade = Trade(
    clientOrderId: string,
    strategyId: string,
    symbol: string,
    side: Option<Side>,
    qty: Option<real>,
    price: Option<real>,
    executedAt: int,
    realizedPnl: real,
    source: Option<string>,
    synthetic: bool,
    superseded: bool)

  type Trades = map<string, Trade>

  /** The state the replay carries: decimal quantity and average price. */
  datatype Running = Running(qty: real, avg: real)

  const EMPTY := Running(0.0, 0.0)

  function AbsReal(x: real): real {
    if x < 0.0 then -x else x
  }

  function ClosedPnlDecimal(before: Running, price: real, side: Side, qtyClosed: real): real {
    if side == Sell && before.qty > 0.0 then (price - before.avg) * qtyClosed
    else if side == Buy && before.qty < 0.0 then (before.avg - price) * qtyClosed
    else 0.0
  }

  function AverageCostDecimal(avg: real, held: real, price: real, added: real, total: real): real
    requires total != 0.0
  {
    (avg * held + price * added) / total
  }

  predicate CrossesFlatDecimal(before: real, after: real) {
    before * after < 0.0
  }

  /** The decimal twin of the position update; it returns the realized delta, not the total. */
  function CalculatePositionUpdateDecimal(before: Running, fillQty: real, price: real, side: Side): (Running, real) {
    var signed := if side == Buy then fillQty else -fillQty;
    var newQty := before.qty + signed;
    var adding := (before.qty > 0.0 && side == Buy) || (before.qty < 0.0 && side == Sell);
    if newQty == 0.0 then
      (Running(0.0, 0.0), ClosedPnlDecimal(before, price, side, AbsReal(signed)))
    else if before.qty == 0.0 then
      (Running(newQty, price), 0.0)
    else if adding then
      (Running(newQty, AverageCostDecimal(before.avg, AbsReal(before.qty), price, AbsReal(signed), AbsReal(newQty))),
       0.0)
    else if CrossesFlatDecimal(before.qty, newQty) then
      (Running(newQty, price), ClosedPnlDecimal(before, price, side, AbsReal(before.qty)))
    else
      (Running(newQty, before.avg), ClosedPnlDecimal(before, price, side, AbsReal(signed)))
  }

  /** Rows the replay uses; it skips the others. */
  predicate Usable(t: Trade) {
    t.side.Some? && t.qty.Some? && t.price.Some? && t.qty.value > 0.0 && t.price.value > 0.0
  }

  /** State after replaying the rows in order. */
  ghost function Replay(ts: seq<Trade>): Running
    decreases |ts|
  {
    if ts == [] then EMPTY
    else if Usable(ts[|ts| - 1]) then Step(ts).0
    else Replay(ts[..|ts| - 1])
  }

  /** The last row applied to the replay of the rows before it. */
  ghost function Step(ts: seq<Trade>): (Running, real)
    requires ts != [] && Usable(ts[|ts| - 1])
    decreases |ts|, 0
  {
    var t := ts[|ts| - 1];
    CalculatePositionUpdateDecimal(Replay(ts[..|ts| - 1]), t.qty.value, t.price.value, t.side.value)
  }

  /** Realized P&L of row `i`; a skipped row has none. */
  ghost function Delta(ts: seq<Trade>, i: nat): real
    requires i < |ts|
  {
    if Usable(ts[i]) then Step(ts[..i + 1]).1 else 0.0
  }

  ghost function SumOfDeltas(ts: seq<Trade>): real
    decreases |ts|
  {
    if ts == [] then 0.0 else SumOfDeltas(ts[..|ts| - 1]) + Delta(ts, |ts| - 1)
  }

  // ---------------------------------------------------------------------------
  // The replay refines the incremental position
  // ---------------------------------------------------------------------------

  /** Usable rows carry whole shares, as the positions table does. */
  predicate WholeShares(t: Trade) {
    Usable(t) ==> t.qty.value.Floor as real == t.qty.value
  }

  /** The fills the usable rows record. */
  function FillsOf(ts: seq<Trade>): seq<Fill>
    decreases |ts|
  {
    if ts == [] then []
    else
      var t := ts[|ts| - 1];
      FillsOf(ts[..|ts| - 1]) +
      if Usable(t) then [Fill(t.qty.value.Floor, t.price.value, t.side.value)] else []
  }

  lemma SameClosedPnl(p: Position, price: real, side: Side, n: nat)
    ensures ClosedPnlDecimal(Running(p.qty as real, p.avg), price, side, n as real) == ClosedPnl(p, price, side, n)
  {
  }

  lemma SameAverageCost(avg: real, held: nat, price: real, added: nat, total: nat)
    requires total > 0
    ensures AverageCostDecimal(avg, held as real, price, added as real, total as real)
         == AverageCost(avg, held, price, added, total)
  {
  }

  lemma DecimalTwinAgrees(p: Position, x: nat, price: real, side: Side)
    ensures var (next, delta) := CalculatePositionUpdateDecimal(Running(p.qty as real, p.avg), x as real, price, side);
            var whole := CalculatePositionUpdate(p, x, price, side);
            next == Running(whole.qty as real, whole.avg) && delta == whole.realized - p.realized
  {
    hide CrossesFlat, CrossesFlatDecimal, ClosedPnl, ClosedPnlDecimal, AverageCost, AverageCostDecimal;
    var newQty := p.qty + SignedQty(x, side);
    CrossingSigns(p.qty, newQty);
    DecimalCrossingSigns(p.qty as real, newQty as real);
    SameClosedPnl(p, price, side, x);
    SameClosedPnl(p, price, side, Abs(p.qty));
    if Abs(newQty) > 0 {
      SameAverageCost(p.avg, Abs(p.qty), price, x, Abs(newQty));
    }
    assert AbsReal(p.qty as real) == Abs(p.qty) as real && AbsReal(newQty as real) == Abs(newQty) as real;
  }

  lemma DecimalCrossingSigns(a: real, b: real)
    ensures CrossesFlatDecimal(a, b) <==> (a > 0.0 && b < 0.0) || (a < 0.0 && b > 0.0)
  {
  }

  /** Replaying the usable rows ends at the quantity and average price of the incremental position,
      and the realized deltas sum to its realized P&L. */
  lemma {:induction false} ReplayRefinesPosition(ts: seq<Trade>)
    requires forall t :: t in ts ==> WholeShares(t)
    ensures var p := ApplyFills(FLAT, FillsOf(ts));
            Replay(ts) == Running(p.qty as real, p.avg) && SumOfDeltas(ts) == p.realized
    decreases |ts|
  {
    hide CalculatePositionUpdate, CalculatePositionUpdateDecimal;
    if ts != [] {
      var rest, t := ts[..|ts| - 1], ts[|ts| - 1];
      assert t in ts;
      ReplayRefinesPosition(rest);
      assert ts[..|rest| + 1] == ts;
      if Usable(t) {
        var f := Fill(t.qty.value.Floor, t.price.value, t.side.value);
        ApplyFillsConcat(FLAT, FillsOf(rest), [f]);
        var p := ApplyFills(FLAT, FillsOf(rest));
        assert [f][1..] == [] && ApplyFills(p, [f]) == ApplyFill(p, f);
        DecimalTwinAgrees(p, f.qty, f.price, f.side);
      } else {
        assert FillsOf(ts) == FillsOf(rest);
      }
    }
  }

  // ---------------------------------------------------------------------------
  // The recalculation
  // ---------------------------------------------------------------------------

  /** `rows` lists the trade ids that the SELECT returns: the strategy's trades in the symbol that
      are not superseded, oldest first. */
  ghost predicate Selected(trades: Trades, strategyId: string, symbol: string, rows: seq<string>) {
    && (forall id :: id in rows <==> id in trades && trades[id].strategyId == strategyId
                                     && trades[id].symbol == symbol && !trades[id].superseded)
    && (forall i, j :: 0 <= i < j < |rows| ==>
          rows[i] != rows[j] && trades[rows[i]].executedAt <= trades[rows[j]].executedAt)
  }

  ghost function RowsOf(trades: Trades, rows: seq<string>): (ts: seq<Trade>)
    requires forall i :: 0 <= i < |rows| ==> rows[i] in trades
  {
    seq(|rows|, i requires 0 <= i < |rows| => trades[rows[i]])
  }

  predicate ShouldUpdate(t: Trade, updateAll: bool, updateSources: set<string>) {
    Usable(t) && (updateAll || t.synthetic || (t.source.Some? && t.source.value in updateSources))
  }

  ghost function UpdateCount(ts: seq<Trade>, updateAll: bool, updateSources: set<string>): nat
    decreases |ts|
  {
    if ts == [] then 0
    else UpdateCount(ts[..|ts| - 1], updateAll, updateSources)
         + if ShouldUpdate(ts[|ts| - 1], updateAll, updateSources) then 1 else 0
  }

  lemma NothingReplayed(updateAll: bool, updateSources: set<string>)
    ensures Replay([]) == EMPTY && UpdateCount([], updateAll, updateSources) == 0
  {
  }

  lemma OneMoreRow(ts: seq<Trade>, k: nat, updateAll: bool, updateSources: set<string>)
    requires k < |ts|
    ensures Usable(ts[k]) ==>
      (Replay(ts[..k + 1]), Delta(ts, k))
        == CalculatePositionUpdateDecimal(Replay(ts[..k]), ts[k].qty.value, ts[k].price.value, ts[k].side.value)
    ensures !Usable(ts[k]) ==> Replay(ts[..k + 1]) == Replay(ts[..k])
    ensures UpdateCount(ts[..k + 1], updateAll, updateSources)
         == UpdateCount(ts[..k], updateAll, updateSources) +
            if ShouldUpdate(ts[k], updateAll, updateSources) then 1 else 0
  {
    hide CalculatePositionUpdateDecimal;
    assert ts[..k + 1][..k] == ts[..k] && ts[..k + 1][k] == ts[k];
  }

  /** The replay loop: which rows get a new realized P&L, and which value. */
  method ReplayRows(ts: seq<Trade>, updateAll: bool, updateSources: set<string>) returns (updates: map<int, real>)
    ensures forall i :: i in updates <==> 0 <= i < |ts| && ShouldUpdate(ts[i], updateAll, updateSources)
    ensures forall i :: i in updates ==> updates[i] == Delta(ts, i)
    ensures |updates| == UpdateCount(ts, updateAll, updateSources)
  {
    hide Replay, Delta, Step, UpdateCount, CalculatePositionUpdateDecimal;
    NothingReplayed(updateAll, updateSources);
    assert ts[..0] == [] && ts[..|ts|] == ts;
    var running := EMPTY;
    updates := map[];
    for k := 0 to |ts|
      invariant running == Replay(ts[..k])
      invariant |updates| == UpdateCount(ts[..k], updateAll, updateSources)
      invariant forall i :: i in updates <==> 0 <= i < k && ShouldUpdate(ts[i], updateAll, updateSources)
      invariant forall i :: i in updates ==> updates[i] == Delta(ts, i)
    {
      OneMoreRow(ts, k, updateAll, updateSources);
      if Usable(ts[k]) {
        var (next, delta) :=
          CalculatePositionUpdateDecimal(running, ts[k].qty.value, ts[k].price.value, ts[k].side.value);
        running := next;
        if ShouldUpdate(ts[k], updateAll, updateSources) {
          updates := updates[k := delta];
        }
      }
    }
  }

  /** UPDATE trades SET realized_pnl, once per updated row. */
  method WriteRealized(trades: Trades, rows: seq<string>, updates: map<int, real>) returns (written: Trades)
    requires forall i :: 0 <= i < |rows| ==> rows[i] in trades
    requires forall i, j :: 0 <= i < j < |rows| ==> rows[i] != rows[j]
    ensures written.Keys == trades.Keys
    ensures forall i :: 0 <= i < |rows| ==>
      written[rows[i]] == if i in updates then trades[rows[i]].(realizedPnl := updates[i]) else trades[rows[i]]
    ensures forall id :: id in trades && id !in rows ==> written[id] == trades[id]
  {
    written := trades;
    for k := 0 to |rows|
      invariant written.Keys == trades.Keys
      invariant forall i :: 0 <= i < k ==>
        written[rows[i]] == if i in updates then trades[rows[i]].(realizedPnl := updates[i]) else trades[rows[i]]
      invariant forall i :: k <= i < |rows| ==> written[rows[i]] == trades[rows[i]]
      invariant forall id :: id in trades && id !in rows ==> written[id] == trades[id]
    {
      if k in updates {
        written := written[rows[k] := written[rows[k]].(realizedPnl := updates[k])];
      }
    }
  }

  ghost function SumOfRealized(ts: seq<Trade>): real
    decreases |ts|
  {
    if ts == [] then 0.0
    else SumOfRealized(ts[..|ts| - 1]) + if Usable(ts[|ts| - 1]) then ts[|ts| - 1].realizedPnl else 0.0
  }

  /** Which rows a recalculation updates: the usable ones, all of them or else the synthetic ones and those of
      the named sources; and their number is what it reports. */
  lemma UpdatedRowsIff(ts: seq<Trade>, updateAll: bool, updateSources: set<string>)
    ensures forall t :: ShouldUpdate(t, updateAll, updateSources) <==>
              && t.side.Some? && t.qty.Some? && t.price.Some? && t.qty.value > 0.0 && t.price.value > 0.0
              && (updateAll || t.synthetic || exists s :: s in updateSources && t.source == Some(s))
    ensures UpdateCount(ts, updateAll, updateSources) ==
            |set i | 0 <= i < |ts| && ShouldUpdate(ts[i], updateAll, updateSources)|
  {
    CountUpdates(ts, |ts|, updateAll, updateSources);
    assert ts[..|ts|] == ts;
  }

  lemma {:induction false} CountUpdates(ts: seq<Trade>, n: nat, updateAll: bool, updateSources: set<string>)
    requires n <= |ts|
    ensures UpdateCount(ts[..n], updateAll, updateSources) ==
            |set i | 0 <= i < n && ShouldUpdate(ts[i], updateAll, updateSources)|
  {
    hide ShouldUpdate;
    if n > 0 {
      CountUpdates(ts, n - 1, updateAll, updateSources);
      assert ts[..n][..n - 1] == ts[..n - 1];
      var before := set i | 0 <= i < n - 1 && ShouldUpdate(ts[i], updateAll, updateSources);
      assert (set i | 0 <= i < n && ShouldUpdate(ts[i], updateAll, updateSources)) ==
             if ShouldUpdate(ts[n - 1], updateAll, updateSources) then before + {n - 1} else before;
    }
  }

  /** `after` is what a recalculation of every usable row stores. */
  ghost predicate RecalculatedAll(before: seq<Trade>, after: seq<Trade>) {
    |before| == |after| &&
    forall i :: 0 <= i < |before| ==>
      after[i] == if Usable(before[i]) then before[i].(realizedPnl := Delta(before, i)) else before[i]
  }

  lemma {:induction false} UpdatedRowsSumToDeltas(before: seq<Trade>, after: seq<Trade>)
    requires RecalculatedAll(before, after)
    ensures SumOfRealized(after) == SumOfDeltas(before)
    decreases |before|
  {
    if before != [] {
      var n := |before| - 1;
      forall i | 0 <= i < n ensures Delta(before[..n], i) == Delta(before, i) {
        assert before[..n][..i + 1] == before[..i + 1];
      }
      UpdatedRowsSumToDeltas(before[..n], after[..n]);
    }
  }

  /** After a recalculation of all rows, the stored P&L of the usable trades sums to the realized
      P&L of the position built from those trades. */
  lemma RecalculatedPnlIsPositionPnl(before: seq<Trade>, after: seq<Trade>)
    requires RecalculatedAll(before, after)
    requires forall t :: t in before ==> WholeShares(t)
    ensures SumOfRealized(after) == ApplyFills(FLAT, FillsOf(before)).realized
  {
    UpdatedRowsSumToDeltas(before, after);
    ReplayRefinesPosition(before);
  }

  class TradesTable {
    var trades: Trades

    constructor (trades: Trades)
      ensures this.trades == trades
    {
      this.trades := trades;
    }

    method RecalculateTradeRealizedPnl(strategyId: string, symbol: string, rows: seq<string>,
                                       updateAll: bool, updateSources: set<string>)
      returns (total: nat, updated: nat)
      requires Selected(trades, strategyId, symbol, rows)
      modifies this
      ensures total == |rows|
      ensures updated == UpdateCount(RowsOf(old(trades), rows), updateAll, updateSources)
      ensures trades.Keys == old(trades).Keys
      ensures forall i :: 0 <= i < |rows| ==>
        trades[rows[i]] ==
          if ShouldUpdate(old(trades)[rows[i]], updateAll, updateSources)
          then old(trades)[rows[i]].(realizedPnl := Delta(RowsOf(old(trades), rows), i))
          else old(trades)[rows[i]]
      ensures forall i :: 0 <= i < |rows| && trades[rows[i]] != old(trades)[rows[i]] ==>
                var t := old(trades)[rows[i]];
                updateAll || t.synthetic || (t.source.Some? && t.source.value in updateSources)
      ensures forall id :: id in trades && id !in rows ==> trades[id] == old(trades)[id]
      ensures (forall id :: id in rows ==> id in trades) &&
        (updateAll ==> RecalculatedAll(RowsOf(old(trades), rows), RowsOf(trades, rows)))
    {
      hide Delta, Usable;
      assert forall i :: 0 <= i < |rows| ==> rows[i] in rows;
      var ts := seq(|rows|, i requires 0 <= i < |rows| && rows[i] in trades reads this => trades[rows[i]]);
      assert ts == RowsOf(trades, rows);
      var updates := ReplayRows(ts, updateAll, updateSources);
      trades := WriteRealized(trades, rows, updates);
      total, updated := |rows|, |updates|;
    }
  }
}
