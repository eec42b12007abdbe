/** The fills kept in each order's metadata and the trades table that mirrors them. */
module FillLedger {
  import opened Base
  import opened SqlLike
  import opened TradeReplay

  /** One fill record. A quantity or price that does not parse is `None`. */
  datatype FillData = FillData(
    fillId: string,
    qty: Option<real>,
    price: Option<real>,
    realizedPl: real,
    executedAt: int,
    source: Option<string>,
    synthetic: bool,
    superseded: bool)

  datatype OrderLedger = OrderLedger(
    strategyId: string, symbol: string, side: Side, fills: seq<FillData>, totalRealizedPl: real)

  /** The two tables one append writes. */
  datatype Store = Store(ledgers: map<string, OrderLedger>, trades: Trades)

  predicate IsSpace(c: char) {
    c in {' ', '\t', '\n', '\r'}
  }

  /** str.strip */
  function Strip(s: string): string
    decreases |s|
  {
    if s == "" then ""
    else if IsSpace(s[0]) then Strip(s[1..])
    else if IsSpace(s[|s| - 1]) then Strip(s[..|s| - 1])
    else s
  }

  predicate MatchesReconciliation(tradeId: string) {
    Like("%_recon_%", tradeId) || Like("%_recon_db_%", tradeId)
  }

  predicate HasFill(fills: seq<FillData>, fillId: string) {
    exists i :: 0 <= i < |fills| && fills[i].fillId == fillId
  }

  /** A real fill marks every synthetic fill superseded. */
  function SupersedeSynthetic(fills: seq<FillData>): (marked: seq<FillData>)
    ensures |marked| == |fills|
    ensures forall i :: 0 <= i < |fills| ==>
      marked[i] == if fills[i].synthetic then fills[i].(superseded := true) else fills[i]
  {
    seq(|fills|, i requires 0 <= i < |fills| =>
      if fills[i].synthetic then fills[i].(superseded := true) else fills[i])
  }

  /** Whether the append goes through: a non-empty id, a known order, and an id not seen on it. */
  predicate Appends(st: Store, orderId: string, fill: FillData) {
    fill.fillId != "" && orderId in st.ledgers && !HasFill(st.ledgers[orderId].fills, fill.fillId)
  }

  function AppendToLedger(ledger: OrderLedger, fill: FillData): OrderLedger {
    var fills := ledger.fills + [fill];
    ledger.(fills := if fill.synthetic then fills else SupersedeSynthetic(fills),
            totalRealizedPl := ledger.totalRealizedPl + fill.realizedPl)
  }

  predicate Insertable(fill: FillData) {
    Strip(fill.fillId) != "" && fill.qty.Some? && fill.price.Some? && fill.qty.value > 0.0 && fill.price.value > 0.0
  }

  function TradeOf(orderId: string, ledger: OrderLedger, fill: FillData): Trade {
    Trade(orderId, ledger.strategyId, ledger.symbol, Some(ledger.side), fill.qty, fill.price, fill.executedAt,
          fill.realizedPl, fill.source, fill.synthetic, fill.superseded)
  }

  /** INSERT ... ON CONFLICT DO NOTHING, then the UPDATE that a real fill triggers. */
  function InsertTrade(trades: Trades, orderId: string, ledger: OrderLedger, fill: FillData): Trades {
    if !Insertable(fill) then trades
    else
      var id := Strip(fill.fillId);
      var inserted := if id in trades then trades else trades[id := TradeOf(orderId, ledger, fill)];
      if fill.synthetic then inserted else SupersedeTrades(inserted, orderId)
  }

  function SupersedeTrades(trades: Trades, orderId: string): Trades {
    map t | t in trades :: SupersedeTrade(trades[t], t, orderId)
  }

  function SupersedeTrade(trade: Trade, id: string, orderId: string): Trade {
    if trade.clientOrderId == orderId && (trade.synthetic || MatchesReconciliation(id))
    then trade.(superseded := true) else trade
  }

  function AppendFill(st: Store, orderId: string, fill: FillData): Store {
    if !Appends(st, orderId, fill) then st
    else
      Store(st.ledgers[orderId := AppendToLedger(st.ledgers[orderId], fill)],
            InsertTrade(st.trades, orderId, st.ledgers[orderId], fill))
  }

  class FillTables {
    var ledgers: map<string, OrderLedger>
    var trades: Trades

    function State(): Store
      reads this
    {
      Store(ledgers, trades)
    }

    constructor (ledgers: map<string, OrderLedger>)
      ensures State() == Store(ledgers, map[])
    {
      this.ledgers, this.trades := ledgers, map[];
    }

    method AppendFillToOrderMetadata(orderId: string, fill: FillData) returns (updated: Option<OrderLedger>)
      modifies this
      ensures State() == AppendFill(old(State()), orderId, fill)
      ensures updated.Some? <==> old(Appends(State(), orderId, fill))
      ensures updated.Some? ==> orderId in ledgers && updated.value == ledgers[orderId]
    {
      if fill.fillId == "" || orderId !in ledgers {
        return None;
      }
      var ledger := ledgers[orderId];
      if HasFill(ledger.fills, fill.fillId) {
        return None;
      }
      var fills := ledger.fills + [fill];
      if !fill.synthetic {
        fills := SupersedeSynthetic(fills);
      }
      var row := ledger.(fills := fills, totalRealizedPl := ledger.totalRealizedPl + fill.realizedPl);
      ledgers := ledgers[orderId := row];
      InsertTradeFromFill(orderId, ledger, fill);
      return Some(row);
    }

    method InsertTradeFromFill(orderId: string, order: OrderLedger, fill: FillData)
      modifies this`trades
      ensures trades == InsertTrade(old(trades), orderId, order, fill)
    {
      var id := Strip(fill.fillId);
      if id == "" || fill.qty.None? || fill.price.None? || fill.qty.value <= 0.0 || fill.price.value <= 0.0 {
        return;
      }
      if id !in trades {
        trades := trades[id := TradeOf(orderId, order, fill)];
      }
      if !fill.synthetic {
        trades := SupersedeTrades(trades, orderId);
      }
    }
  }

  // ---------------------------------------------------------------------------
  // The ledger over every sequence of appends
  // ---------------------------------------------------------------------------

  datatype Append = Append(orderId: string, fill: FillData)

  ghost function AppendAll(st: Store, appends: seq<Append>): Store
    decreases |appends|
  {
    if appends == [] then st
    else AppendAll(AppendFill(st, appends[0].orderId, appends[0].fill), appends[1..])
  }

  function SumOfPl(fills: seq<FillData>): real
    decreases |fills|
  {
    if fills == [] then 0.0 else SumOfPl(fills[..|fills| - 1]) + fills[|fills| - 1].realizedPl
  }

  ghost predicate LedgerInv(ledger: OrderLedger) {
    && (forall i :: 0 <= i < |ledger.fills| ==> ledger.fills[i].fillId != "")
    && (forall i, j :: 0 <= i < j < |ledger.fills| ==> ledger.fills[i].fillId != ledger.fills[j].fillId)
    && ledger.totalRealizedPl == SumOfPl(ledger.fills)
    && (forall i, j :: 0 <= i < j < |ledger.fills| && ledger.fills[i].synthetic && !ledger.fills[j].synthetic
          ==> ledger.fills[i].superseded)
  }

  lemma {:induction false} SupersedingKeepsPl(fills: seq<FillData>)
    ensures SumOfPl(SupersedeSynthetic(fills)) == SumOfPl(fills)
    decreases |fills|
  {
    if fills != [] {
      var n := |fills| - 1;
      assert SupersedeSynthetic(fills)[..n] == SupersedeSynthetic(fills[..n]);
      SupersedingKeepsPl(fills[..n]);
    }
  }

  lemma AppendKeepsLedgerInv(ledger: OrderLedger, fill: FillData)
    requires LedgerInv(ledger) && fill.fillId != "" && !HasFill(ledger.fills, fill.fillId)
    ensures LedgerInv(AppendToLedger(ledger, fill))
  {
    var fills := ledger.fills + [fill];
    assert fills[..|ledger.fills|] == ledger.fills;
    SupersedingKeepsPl(fills);
    var marked := AppendToLedger(ledger, fill).fills;
    assert forall i :: 0 <= i < |marked| ==>
             marked[i].fillId == fills[i].fillId && marked[i].synthetic == fills[i].synthetic;
    assert forall i :: 0 <= i < |ledger.fills| ==> fills[i].fillId != fill.fillId;
  }

  /** Over all append sequences: ids are unique on an order, the realized total is the sum over every
      fill ever appended, superseded ones included, and every synthetic fill that precedes a real
      one is superseded. */
  lemma {:induction false} LedgerInvariant(st: Store, appends: seq<Append>)
    requires forall o :: o in st.ledgers ==> LedgerInv(st.ledgers[o])
    ensures forall o :: o in AppendAll(st, appends).ledgers ==> LedgerInv(AppendAll(st, appends).ledgers[o])
    decreases |appends|
  {
    if appends != [] {
      var a := appends[0];
      if Appends(st, a.orderId, a.fill) {
        AppendKeepsLedgerInv(st.ledgers[a.orderId], a.fill);
      }
      LedgerInvariant(AppendFill(st, a.orderId, a.fill), appends[1..]);
    }
  }

  // ---------------------------------------------------------------------------
  // The realized total against the live fills
  // ---------------------------------------------------------------------------

  /** P&L of the fills that are superseded, or of those that are not. */
  function PlWhere(fills: seq<FillData>, superseded: bool): real
    decreases |fills|
  {
    if fills == [] then 0.0
    else
      var last := fills[|fills| - 1];
      PlWhere(fills[..|fills| - 1], superseded) + if last.superseded == superseded then last.realizedPl else 0.0
  }

  function LivePl(fills: seq<FillData>): real {
    PlWhere(fills, false)
  }

  /** A synthetic fill that a real fill followed. */
  predicate Replaced(fills: seq<FillData>, i: nat)
    requires i < |fills|
  {
    fills[i].synthetic && exists j :: i < j < |fills| && !fills[j].synthetic
  }

  /** P&L of the replaced fills among the first `n`. */
  function ReplacedPl(fills: seq<FillData>, n: nat): real
    requires n <= |fills|
  {
    if n == 0 then 0.0 else ReplacedPl(fills, n - 1) + if Replaced(fills, n - 1) then fills[n - 1].realizedPl else 0.0
  }

  ghost predicate SupersededIffReplaced(fills: seq<FillData>) {
    forall i :: 0 <= i < |fills| ==> (fills[i].superseded <==> Replaced(fills, i))
  }

  lemma {:induction false} TotalSplits(fills: seq<FillData>)
    ensures SumOfPl(fills) == LivePl(fills) + PlWhere(fills, true)
    decreases |fills|
  {
    if fills != [] {
      TotalSplits(fills[..|fills| - 1]);
    }
  }

  lemma {:induction false} ReplacedPlIsSupersededPl(fills: seq<FillData>, n: nat)
    requires n <= |fills| && SupersededIffReplaced(fills)
    ensures ReplacedPl(fills, n) == PlWhere(fills[..n], true)
  {
    hide Replaced;
    if n > 0 {
      ReplacedPlIsSupersededPl(fills, n - 1);
      assert fills[..n][..n - 1] == fills[..n - 1] && fills[..n][n - 1] == fills[n - 1];
    }
  }

  lemma AppendKeepsReplaced(ledger: OrderLedger, fill: FillData)
    requires SupersededIffReplaced(ledger.fills) && !fill.superseded
    ensures SupersededIffReplaced(AppendToLedger(ledger, fill).fills)
  {
    var before, after := ledger.fills, AppendToLedger(ledger, fill).fills;
    var n := |before|;
    assert after[n].synthetic == fill.synthetic && !after[n].superseded;
    forall i | 0 <= i < n ensures after[i].superseded <==> Replaced(after, i) {
      assert before[i].superseded <==> Replaced(before, i);
      assert forall j :: 0 <= j < n ==> after[j].synthetic == before[j].synthetic;
      if Replaced(before, i) {
        var j :| i < j < n && !before[j].synthetic;
        assert !after[j].synthetic;
      }
    }
  }

  lemma {:induction false} AppendsKeepReplaced(st: Store, appends: seq<Append>)
    requires forall o :: o in st.ledgers ==> SupersededIffReplaced(st.ledgers[o].fills)
    requires forall k :: 0 <= k < |appends| ==> !appends[k].fill.superseded
    ensures forall o :: o in AppendAll(st, appends).ledgers ==>
              SupersededIffReplaced(AppendAll(st, appends).ledgers[o].fills)
    decreases |appends|
  {
    hide SupersededIffReplaced, InsertTrade, AppendToLedger, HasFill;
    if appends != [] {
      var a := appends[0];
      if Appends(st, a.orderId, a.fill) {
        AppendKeepsReplaced(st.ledgers[a.orderId], a.fill);
      }
      AppendsKeepReplaced(AppendFill(st, a.orderId, a.fill), appends[1..]);
    }
  }

  /** Starting empty, after any appends of fills not superseded on arrival, the realized total is the
      P&L of the live fills exactly when the synthetic fills that a real one followed sum to nothing. */
  lemma TotalIsLivePlIff(st: Store, appends: seq<Append>, orderId: string)
    requires forall o :: o in st.ledgers ==> st.ledgers[o].fills == [] && st.ledgers[o].totalRealizedPl == 0.0
    requires forall k :: 0 <= k < |appends| ==> !appends[k].fill.superseded
    requires orderId in st.ledgers
    ensures orderId in AppendAll(st, appends).ledgers
    ensures var final := AppendAll(st, appends).ledgers[orderId];
            final.totalRealizedPl == LivePl(final.fills) <==> ReplacedPl(final.fills, |final.fills|) == 0.0
  {
    LedgerInvariant(st, appends);
    AppendsKeepReplaced(st, appends);
    FillsAreKept(st, appends, orderId, "");
    var fills := AppendAll(st, appends).ledgers[orderId].fills;
    TotalSplits(fills);
    ReplacedPlIsSupersededPl(fills, |fills|);
    assert fills[..|fills|] == fills;
  }

  /** Reconciliation's synthetic fills carry no P&L. */
  ghost predicate SyntheticCarryNothing(fills: seq<FillData>) {
    forall i :: 0 <= i < |fills| && fills[i].synthetic ==> fills[i].realizedPl == 0.0
  }

  lemma {:induction false} AppendsCarryNothing(st: Store, appends: seq<Append>)
    requires forall o :: o in st.ledgers ==> SyntheticCarryNothing(st.ledgers[o].fills)
    requires forall k :: 0 <= k < |appends| && appends[k].fill.synthetic ==> appends[k].fill.realizedPl == 0.0
    ensures forall o :: o in AppendAll(st, appends).ledgers ==>
              SyntheticCarryNothing(AppendAll(st, appends).ledgers[o].fills)
    decreases |appends|
  {
    hide InsertTrade, HasFill;
    if appends != [] {
      AppendsCarryNothing(AppendFill(st, appends[0].orderId, appends[0].fill), appends[1..]);
    }
  }

  lemma {:induction false} NothingReplaced(fills: seq<FillData>, n: nat)
    requires n <= |fills| && SyntheticCarryNothing(fills)
    ensures ReplacedPl(fills, n) == 0.0
  {
    if n > 0 {
      NothingReplaced(fills, n - 1);
    }
  }

  /** So with the gateway's own writers the total never differs from the P&L of the live fills. */
  lemma TotalStaysLivePl(st: Store, appends: seq<Append>, orderId: string)
    requires forall o :: o in st.ledgers ==> st.ledgers[o].fills == [] && st.ledgers[o].totalRealizedPl == 0.0
    requires forall k :: 0 <= k < |appends| ==> !appends[k].fill.superseded
    requires forall k :: 0 <= k < |appends| && appends[k].fill.synthetic ==> appends[k].fill.realizedPl == 0.0
    requires orderId in st.ledgers
    ensures orderId in AppendAll(st, appends).ledgers
    ensures var final := AppendAll(st, appends).ledgers[orderId];
            final.totalRealizedPl == LivePl(final.fills)
  {
    TotalIsLivePlIff(st, appends, orderId);
    AppendsCarryNothing(st, appends);
    var fills := AppendAll(st, appends).ledgers[orderId].fills;
    NothingReplaced(fills, |fills|);
  }

  /** A synthetic fill that carried P&L keeps it in the total after a real fill has replaced it. */
  lemma SupersededPlStaysInTotal(ledger: OrderLedger, synthetic: FillData, realFill: FillData)
    requires ledger.fills == [] && ledger.totalRealizedPl == 0.0
    requires synthetic.synthetic && synthetic.realizedPl == 5.0
    requires !realFill.synthetic && !realFill.superseded && realFill.realizedPl == 2.0
    ensures var after := AppendToLedger(AppendToLedger(ledger, synthetic), realFill);
            after.totalRealizedPl == 7.0 && LivePl(after.fills) == 2.0
  {
    var gone := synthetic.(superseded := true);
    assert AppendToLedger(AppendToLedger(ledger, synthetic), realFill).fills == [gone, realFill];
    assert [gone, realFill][..1] == [gone] && [gone][..0] == [];
    assert PlWhere([gone], false) == 0.0;
  }

  /** Appending a fill whose id the order already has changes neither table, however many other
      appends came between. */
  lemma {:induction false} ReappendIsIgnored(st: Store, a: Append, between: seq<Append>, again: FillData)
    requires again.fillId == a.fill.fillId
    ensures var later := AppendAll(AppendFill(st, a.orderId, a.fill), between);
            AppendFill(later, a.orderId, again) == later
    decreases |between|
  {
    var first := AppendFill(st, a.orderId, a.fill);
    if between == [] {
      if Appends(st, a.orderId, a.fill) {
        var n := |st.ledgers[a.orderId].fills|;
        assert first.ledgers[a.orderId].fills[n].fillId == a.fill.fillId;
      }
    } else {
      var later := AppendAll(first, between);
      FillsAreKept(first, between, a.orderId, a.fill.fillId);
      if Appends(st, a.orderId, a.fill) {
        var n := |st.ledgers[a.orderId].fills|;
        assert first.ledgers[a.orderId].fills[n].fillId == a.fill.fillId;
      }
    }
  }

  lemma {:induction false} FillsAreKept(st: Store, appends: seq<Append>, orderId: string, fillId: string)
    ensures AppendAll(st, appends).ledgers.Keys == st.ledgers.Keys
    ensures orderId in st.ledgers && HasFill(st.ledgers[orderId].fills, fillId)
            ==> HasFill(AppendAll(st, appends).ledgers[orderId].fills, fillId)
    decreases |appends|
  {
    if appends != [] {
      var a := appends[0];
      var next := AppendFill(st, a.orderId, a.fill);
      if orderId in st.ledgers && HasFill(st.ledgers[orderId].fills, fillId) {
        var i :| 0 <= i < |st.ledgers[orderId].fills| && st.ledgers[orderId].fills[i].fillId == fillId;
        assert next.ledgers[orderId].fills[i].fillId == fillId;
      }
      FillsAreKept(next, appends[1..], orderId, fillId);
    }
  }

  // ---------------------------------------------------------------------------
  // The trades table against the ledger
  // ---------------------------------------------------------------------------

  /** The reconciliation patterns: their underscores are wildcards, so the second adds nothing. */
  lemma ReconciliationPatternsMeanReconInside(id: string)
    ensures MatchesReconciliation(id) <==> StrictlyInside("recon", id)
  {
    hide Like;
    assert "%_recon_%" == "%" + ("_" + ("recon" + "_%"));
    UnderscoresAreWildcards("recon", id);
    if Like("%_recon_db_%", id) {
      assert "%_recon_db_%" == "%" + "_recon_db_%";
      LeadingPercent("_recon_db_%", id);
      var k :| 0 <= k <= |id| && Like("_recon_db_%", id[k..]);
      assert "_recon_db_%" == "_" + ("recon" + "_db_%");
      LeadingUnderscore("recon" + "_db_%", id[k..]);
      var after := id[k..][1..];
      LiteralPrefix("recon", "_db_%", after);
      assert "_db_%" == "_" + "db_%";
      LeadingUnderscore("db_%", after[5..]);
      assert after == id[k + 1..] && after[..5] == id[k + 1..k + 6];
      assert OccursAt("recon", id, k + 1);
    }
  }

  /** What the mirror relies on: insertable fills whose ids carry no outer spaces. */
  predicate CleanFill(fill: FillData) {
    Insertable(fill) && Strip(fill.fillId) == fill.fillId
  }

  /** Ids are unique across orders: one id names fills of one order only. */
  ghost predicate IdsNameOneOrder(appends: seq<Append>) {
    forall i, j :: 0 <= i < |appends| && 0 <= j < |appends| && appends[i].fill.fillId == appends[j].fill.fillId
                   ==> appends[i].orderId == appends[j].orderId
  }

  /** The fill has a trade, superseded when the fill is, or when it is real and its id matches. */
  predicate MirrorsFill(trades: Trades, orderId: string, f: FillData) {
    && f.fillId in trades
    && trades[f.fillId].clientOrderId == orderId
    && trades[f.fillId].synthetic == f.synthetic
    && trades[f.fillId].superseded == (f.superseded || (!f.synthetic && MatchesReconciliation(f.fillId)))
  }

  ghost predicate Mirrors(trades: Trades, orderId: string, fills: seq<FillData>) {
    && (forall i :: 0 <= i < |fills| ==> MirrorsFill(trades, orderId, fills[i]))
    && (forall t :: t in trades && trades[t].clientOrderId == orderId ==> HasFill(fills, t))
  }

  ghost predicate MirrorInv(st: Store) {
    && (forall o :: o in st.ledgers ==> Mirrors(st.trades, o, st.ledgers[o].fills))
    && (forall t :: t in st.trades ==> st.trades[t].clientOrderId in st.ledgers)
    && (forall o :: o in st.ledgers ==> LedgerInv(st.ledgers[o]))
  }

  /** The fill of this append is not recorded as a trade of another order. */
  predicate IdFree(st: Store, orderId: string, fill: FillData) {
    fill.fillId in st.trades ==> st.trades[fill.fillId].clientOrderId == orderId
  }

  /** A new fill's trade, and what the insert does to the trades already there. */
  lemma InsertedTrades(trades: Trades, orderId: string, ledger: OrderLedger, fill: FillData)
    requires CleanFill(fill) && fill.fillId !in trades
    ensures var next := InsertTrade(trades, orderId, ledger, fill);
      && next.Keys == trades.Keys + {fill.fillId}
      && MirrorsFill(next, orderId, fill)
      && (forall t :: t in trades ==>
            next[t] == if fill.synthetic then trades[t] else SupersedeTrade(trades[t], t, orderId))
  {
  }

  lemma AppendKeepsOwnMirror(trades: Trades, orderId: string, ledger: OrderLedger, fill: FillData)
    requires Mirrors(trades, orderId, ledger.fills) && CleanFill(fill) && fill.fillId !in trades
    ensures Mirrors(InsertTrade(trades, orderId, ledger, fill), orderId, AppendToLedger(ledger, fill).fills)
  {
    hide Strip, MatchesReconciliation, InsertTrade, CleanFill, HasFill;
    InsertedTrades(trades, orderId, ledger, fill);
    var before, after := ledger.fills, AppendToLedger(ledger, fill).fills;
    var next := InsertTrade(trades, orderId, ledger, fill);
    forall i | 0 <= i < |after| ensures MirrorsFill(next, orderId, after[i]) {
      if i < |before| {
        assert MirrorsFill(trades, orderId, before[i]);
      }
    }
    forall t | t in next && next[t].clientOrderId == orderId ensures HasFill(after, t) {
      if t == fill.fillId {
        HasFillAt(after, |before|);
      } else {
        assert HasFill(before, t);
        IdsAreKept(ledger, fill, t);
      }
    }
  }

  lemma HasFillAt(fills: seq<FillData>, i: nat)
    requires i < |fills|
    ensures HasFill(fills, fills[i].fillId)
  {
  }

  lemma IdsAreKept(ledger: OrderLedger, fill: FillData, id: string)
    requires HasFill(ledger.fills, id)
    ensures HasFill(AppendToLedger(ledger, fill).fills, id)
  {
    var i :| 0 <= i < |ledger.fills| && ledger.fills[i].fillId == id;
    assert AppendToLedger(ledger, fill).fills[i].fillId == id;
  }

  lemma AppendKeepsOtherMirror(trades: Trades, orderId: string, ledger: OrderLedger, fill: FillData,
                               other: string, fills: seq<FillData>)
    requires Mirrors(trades, other, fills) && other != orderId && CleanFill(fill) && fill.fillId !in trades
    ensures Mirrors(InsertTrade(trades, orderId, ledger, fill), other, fills)
  {
  }

  ghost predicate RecordedIdsFrom(st: Store, appends: seq<Append>) {
    forall t, i :: t in st.trades && 0 <= i < |appends| && appends[i].fill.fillId == t
                   ==> st.trades[t].clientOrderId == appends[i].orderId
  }

  lemma AppendKeepsMirrorInv(st: Store, orderId: string, fill: FillData)
    requires MirrorInv(st) && CleanFill(fill) && IdFree(st, orderId, fill) && Appends(st, orderId, fill)
    ensures MirrorInv(AppendFill(st, orderId, fill))
    ensures AppendFill(st, orderId, fill).trades.Keys == st.trades.Keys + {fill.fillId}
    ensures forall t :: t in st.trades ==>
      AppendFill(st, orderId, fill).trades[t].clientOrderId == st.trades[t].clientOrderId
    ensures AppendFill(st, orderId, fill).trades[fill.fillId].clientOrderId == orderId
  {
    hide Strip, MatchesReconciliation, InsertTrade, CleanFill, HasFill, AppendToLedger, LedgerInv;
    var ledger, next := st.ledgers[orderId], AppendFill(st, orderId, fill);
    assert fill.fillId !in st.trades;
    InsertedTrades(st.trades, orderId, ledger, fill);
    AppendKeepsOwnMirror(st.trades, orderId, ledger, fill);
    AppendKeepsLedgerInv(ledger, fill);
    forall o | o in next.ledgers ensures Mirrors(next.trades, o, next.ledgers[o].fills) {
      if o != orderId {
        AppendKeepsOtherMirror(st.trades, orderId, ledger, fill, o, st.ledgers[o].fills);
      }
    }
  }

  lemma {:induction false} AppendsKeepMirrorInv(st: Store, appends: seq<Append>)
    requires MirrorInv(st) && RecordedIdsFrom(st, appends) && IdsNameOneOrder(appends)
    requires forall a :: a in appends ==> CleanFill(a.fill)
    ensures MirrorInv(AppendAll(st, appends))
    decreases |appends|
  {
    hide CleanFill, MirrorInv, Appends;
    if appends != [] {
      var a := appends[0];
      assert a in appends;
      if Appends(st, a.orderId, a.fill) {
        AppendKeepsMirrorInv(st, a.orderId, a.fill);
      }
      AppendsKeepMirrorInv(AppendFill(st, a.orderId, a.fill), appends[1..]);
    }
  }

  // ---------------------------------------------------------------------------
  // What a mirrored trade says
  // ---------------------------------------------------------------------------

  /** The trade carries the fill's quantity, price, time, P&L and source, and the order's own columns. */
  predicate TradeShows(trade: Trade, orderId: string, ledger: OrderLedger, f: FillData) {
    && trade.qty == f.qty && trade.price == f.price && trade.executedAt == f.executedAt
    && trade.realizedPnl == f.realizedPl && trade.source == f.source && trade.synthetic == f.synthetic
    && trade.clientOrderId == orderId && trade.strategyId == ledger.strategyId
    && trade.symbol == ledger.symbol && trade.side == Some(ledger.side)
  }

  ghost predicate ShowsFills(trades: Trades, orderId: string, ledger: OrderLedger) {
    forall i :: 0 <= i < |ledger.fills| ==>
      ledger.fills[i].fillId in trades && TradeShows(trades[ledger.fills[i].fillId], orderId, ledger, ledger.fills[i])
  }

  ghost predicate ShowsAllFills(st: Store) {
    forall o :: o in st.ledgers ==> ShowsFills(st.trades, o, st.ledgers[o])
  }

  /** A fill is mirrored exactly when its trimmed id is not empty and quantity and price are positive; an
      id already among the trades keeps its trade. */
  lemma MirroredIff(trades: Trades, orderId: string, ledger: OrderLedger, fill: FillData)
    ensures var next, id := InsertTrade(trades, orderId, ledger, fill), Strip(fill.fillId);
            var usable := id != "" && fill.qty.Some? && fill.price.Some? &&
                          fill.qty.value > 0.0 && fill.price.value > 0.0;
      && (usable ==> next.Keys == trades.Keys + {id})
      && (!usable ==> next == trades)
      && (usable && id !in trades ==> TradeShows(next[id], orderId, ledger, fill))
      && (forall t :: t in trades ==> next[t].(superseded := trades[t].superseded) == trades[t])
  {
    hide Strip, MatchesReconciliation;
  }

  /** Trimming drops white space at both ends and nothing else. */
  lemma {:induction false} StripTrims(s: string) returns (a: nat, b: nat)
    ensures a <= b <= |s| && Strip(s) == s[a..b]
    ensures (forall i :: 0 <= i < a ==> IsSpace(s[i])) && (forall i :: b <= i < |s| ==> IsSpace(s[i]))
    ensures Strip(s) != "" ==> !IsSpace(s[a]) && !IsSpace(s[b - 1])
    decreases |s|
  {
    if s == "" {
      a, b := 0, 0;
    } else if IsSpace(s[0]) {
      a, b := StripTrims(s[1..]);
      a, b := a + 1, b + 1;
    } else if IsSpace(s[|s| - 1]) {
      a, b := StripTrims(s[..|s| - 1]);
    } else {
      a, b := 0, |s|;
    }
  }

  lemma AppendKeepsShows(st: Store, orderId: string, fill: FillData)
    requires MirrorInv(st) && ShowsAllFills(st)
    requires CleanFill(fill) && IdFree(st, orderId, fill) && Appends(st, orderId, fill)
    ensures ShowsAllFills(AppendFill(st, orderId, fill))
  {
    hide Strip, MatchesReconciliation, InsertTrade, CleanFill, HasFill, LedgerInv;
    var ledger, next := st.ledgers[orderId], AppendFill(st, orderId, fill);
    NewIdIsNoTrade(st, orderId, fill);
    MirroredIff(st.trades, orderId, ledger, fill);
    CleanIsUsable(fill);
    forall o | o in next.ledgers ensures ShowsFills(next.trades, o, next.ledgers[o]) {
      assert ShowsFills(st.trades, o, st.ledgers[o]);
    }
  }

  lemma CleanIsUsable(fill: FillData)
    requires CleanFill(fill)
    ensures Strip(fill.fillId) == fill.fillId != "" && fill.qty.Some? && fill.price.Some?
    ensures fill.qty.value > 0.0 && fill.price.value > 0.0
  {
  }

  lemma NewIdIsNoTrade(st: Store, orderId: string, fill: FillData)
    requires MirrorInv(st) && IdFree(st, orderId, fill) && Appends(st, orderId, fill)
    ensures fill.fillId !in st.trades
  {
    hide MirrorsFill, LedgerInv;
    assert Mirrors(st.trades, orderId, st.ledgers[orderId].fills);
  }

  lemma {:induction false} AppendsKeepShows(st: Store, appends: seq<Append>)
    requires MirrorInv(st) && RecordedIdsFrom(st, appends) && IdsNameOneOrder(appends) && ShowsAllFills(st)
    requires forall a :: a in appends ==> CleanFill(a.fill)
    ensures ShowsAllFills(AppendAll(st, appends))
    decreases |appends|
  {
    hide CleanFill, MirrorInv, Appends, ShowsAllFills;
    if appends != [] {
      var a := appends[0];
      assert a in appends;
      if Appends(st, a.orderId, a.fill) {
        AppendKeepsMirrorInv(st, a.orderId, a.fill);
        AppendKeepsShows(st, a.orderId, a.fill);
      }
      AppendsKeepShows(AppendFill(st, a.orderId, a.fill), appends[1..]);
    }
  }

  lemma {:induction false} OrderColumnsStay(st: Store, appends: seq<Append>, orderId: string)
    requires orderId in st.ledgers
    ensures orderId in AppendAll(st, appends).ledgers
    ensures var before, after := st.ledgers[orderId], AppendAll(st, appends).ledgers[orderId];
            after.strategyId == before.strategyId && after.symbol == before.symbol && after.side == before.side
    decreases |appends|
  {
    hide HasFill, InsertTrade;
    if appends != [] {
      OrderColumnsStay(AppendFill(st, appends[0].orderId, appends[0].fill), appends[1..], orderId);
    }
  }

  /** Starting empty, after any clean appends with globally unique ids, every fill of every order has a
      trade of the same quantity, price, time, P&L and source, with the order's strategy, symbol and side. */
  lemma TradesShowTheFills(st: Store, appends: seq<Append>, orderId: string)
    requires st.trades == map[]
    requires forall o :: o in st.ledgers ==> st.ledgers[o].fills == [] && st.ledgers[o].totalRealizedPl == 0.0
    requires (forall a :: a in appends ==> CleanFill(a.fill)) && IdsNameOneOrder(appends) && orderId in st.ledgers
    ensures var final, own := AppendAll(st, appends), st.ledgers[orderId];
      && orderId in final.ledgers
      && forall i :: 0 <= i < |final.ledgers[orderId].fills| ==>
           var f := final.ledgers[orderId].fills[i];
           f.fillId in final.trades && TradeShows(final.trades[f.fillId], orderId, own, f)
  {
    hide Strip, InsertTrade, CleanFill;
    AppendsKeepShows(st, appends);
    OrderColumnsStay(st, appends, orderId);
    assert ShowsFills(AppendAll(st, appends).trades, orderId, AppendAll(st, appends).ledgers[orderId]);
  }

  function LiveTrades(st: Store, orderId: string): set<string> {
    set t | t in st.trades && st.trades[t].clientOrderId == orderId && !st.trades[t].superseded
  }

  function LiveFills(st: Store, orderId: string): set<string>
    requires orderId in st.ledgers
  {
    set f | f in st.ledgers[orderId].fills && !f.superseded :: f.fillId
  }

  /** A recorded fill that the supersede UPDATE mistakes for a synthetic one. */
  ghost predicate MistakenFill(fill: FillData) {
    !fill.synthetic && !fill.superseded && StrictlyInside("recon", fill.fillId)
  }

  /** A fill is live among the trades when it is live and not mistaken. */
  lemma LiveTradeOfFill(st: Store, orderId: string, i: nat)
    requires MirrorInv(st) && orderId in st.ledgers && i < |st.ledgers[orderId].fills|
    ensures var f := st.ledgers[orderId].fills[i];
            f.fillId in LiveTrades(st, orderId) <==> !f.superseded && !MistakenFill(f)
  {
    hide MatchesReconciliation, LedgerInv;
    var fills := st.ledgers[orderId].fills;
    assert Mirrors(st.trades, orderId, fills);
    assert MirrorsFill(st.trades, orderId, fills[i]);
    ReconciliationPatternsMeanReconInside(fills[i].fillId);
  }

  lemma LiveTradeIsFill(st: Store, orderId: string, t: string) returns (i: nat)
    requires MirrorInv(st) && orderId in st.ledgers && t in LiveTrades(st, orderId)
    ensures i < |st.ledgers[orderId].fills| && st.ledgers[orderId].fills[i].fillId == t
  {
    hide MirrorsFill, LedgerInv;
    var fills := st.ledgers[orderId].fills;
    assert Mirrors(st.trades, orderId, fills);
    assert HasFill(fills, t);
    i :| 0 <= i < |fills| && fills[i].fillId == t;
  }

  lemma MirrorAgreesUnlessMistaken(st: Store, orderId: string)
    requires MirrorInv(st) && orderId in st.ledgers
    ensures LiveTrades(st, orderId) == LiveFills(st, orderId)
       <==> forall f :: f in st.ledgers[orderId].fills ==> !MistakenFill(f)
  {
    hide Mirrors, LedgerInv, StrictlyInside;
    var fills := st.ledgers[orderId].fills;
    if f :| f in fills && MistakenFill(f) {
      var i :| 0 <= i < |fills| && fills[i] == f;
      LiveTradeOfFill(st, orderId, i);
      assert f.fillId in LiveFills(st, orderId);
    } else {
      forall t ensures t in LiveTrades(st, orderId) <==> t in LiveFills(st, orderId) {
        if t in LiveTrades(st, orderId) {
          var i := LiveTradeIsFill(st, orderId, t);
          LiveTradeOfFill(st, orderId, i);
          assert fills[i] in fills;
        } else if t in LiveFills(st, orderId) {
          var f :| f in fills && !f.superseded && f.fillId == t;
          var i :| 0 <= i < |fills| && fills[i] == f;
          LiveTradeOfFill(st, orderId, i);
        }
      }
    }
  }

  /** Starting empty, after any clean appends with globally unique ids, the trades that are not
      superseded are exactly the fills that are not superseded, unless and only unless a recorded
      real fill has `recon` strictly inside its id. */
  lemma TradesAgreeWithLedger(st: Store, appends: seq<Append>, orderId: string)
    requires st.trades == map[] && forall o :: o in st.ledgers ==>
             st.ledgers[o].fills == [] && st.ledgers[o].totalRealizedPl == 0.0
    requires forall a :: a in appends ==> CleanFill(a.fill)
    requires IdsNameOneOrder(appends) && orderId in st.ledgers
    ensures orderId in AppendAll(st, appends).ledgers
    ensures var final := AppendAll(st, appends);
            LiveTrades(final, orderId) == LiveFills(final, orderId)
            <==> forall f :: f in final.ledgers[orderId].fills ==> !MistakenFill(f)
  {
    AppendsKeepMirrorInv(st, appends);
    FillsAreKept(st, appends, orderId, "");
    MirrorAgreesUnlessMistaken(AppendAll(st, appends), orderId);
  }

  /** An order id with `recon` after its first character makes every webhook fill of that order a
      mistaken one: the fill id is the order id with a suffix. */
  lemma OrderIdWithReconIsMistaken(orderId: string, suffix: string, fill: FillData)
    requires exists i :: 1 <= i && OccursAt("recon", orderId, i)
    requires suffix != "" && fill.fillId == orderId + suffix && !fill.synthetic && !fill.superseded
    ensures MistakenFill(fill)
  {
    var i :| 1 <= i && OccursAt("recon", orderId, i);
    assert (orderId + suffix)[i..i + 5] == orderId[i..i + 5];
    assert OccursAt("recon", fill.fillId, i);
  }
}
