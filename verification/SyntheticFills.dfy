/** The synthetic fill that reconciliation appends when recorded fills fall short of the broker. */
module SyntheticFills {
  import opened Base
  import opened FillLedger
  import opened OrderIds

  function Counted(f: FillData): real {
    if f.superseded || f.qty.None? then 0.0 else f.qty.value
  }

  /** Quantity of the fills that are not superseded. */
  function LiveQty(fills: seq<FillData>): real
    decreases |fills|
  {
    if fills == [] then 0.0 else LiveQty(fills[..|fills| - 1]) + Counted(fills[|fills| - 1])
  }

  lemma LiveQtySnoc(fills: seq<FillData>, f: FillData)
    ensures LiveQty(fills + [f]) == LiveQty(fills) + Counted(f)
  {
    assert (fills + [f])[..|fills|] == fills;
  }

  function LiveQtyOf(fills: seq<FillData>, synthetic: bool): real
    decreases |fills|
  {
    if fills == [] then 0.0
    else LiveQtyOf(fills[..|fills| - 1], synthetic)
         + if fills[|fills| - 1].synthetic == synthetic then Counted(fills[|fills| - 1]) else 0.0
  }

  lemma {:induction false} LiveIsRealPlusSynthetic(fills: seq<FillData>)
    ensures LiveQty(fills) == LiveQtyOf(fills, false) + LiveQtyOf(fills, true)
    decreases |fills|
  {
    if fills != [] {
      LiveIsRealPlusSynthetic(fills[..|fills| - 1]);
    }
  }

  /** The two reconciliation paths, from the broker's order and from the database row. */
  datatype Path = FromBroker | FromRow

  function IdPrefix(path: Path): string {
    if path == FromBroker then "recon" else "recon_db"
  }

  function StoredSource(path: Path): string {
    if path == FromBroker then "reconciliation_backfill" else "reconciliation_db_backfill"
  }

  /** A quantity as text; how a fractional one is written is a parameter. */
  function QtyText(qty: real, fraction: real -> string): string {
    if qty == qty.Floor as real then IntText(qty.Floor) else fraction(qty)
  }

  /** The id of a synthetic fill: nothing but the order, the path, the broker's quantity and the gap. */
  function SyntheticId(orderId: string, path: Path, filledQty: real, missing: real, fraction: real -> string): string {
    orderId + "_" + IdPrefix(path) + "_" + QtyText(filledQty, fraction) + "_" + QtyText(missing, fraction)
  }

  /** What reconciliation knows about an order: the path it takes and the broker's fill. */
  datatype Filled = Filled(path: Path, qty: real, avgPrice: real, at: int)

  function SyntheticFill(orderId: string, r: Filled, missing: real, fraction: real -> string): FillData {
    FillData(SyntheticId(orderId, r.path, r.qty, missing, fraction), Some(missing), Some(r.avgPrice), 0.0, r.at,
             Some(StoredSource(r.path)), true, false)
  }

  /** What the recorded fills leave open, if anything. */
  function Gap(fills: seq<FillData>, filledQty: real): Option<real> {
    if LiveQtyOf(fills, false) >= filledQty || LiveQty(fills) >= filledQty then None
    else Some(filledQty - LiveQty(fills))
  }

  method CalculateSyntheticFill(orderId: string, r: Filled, existing: seq<FillData>, fraction: real -> string)
    returns (fill: Option<FillData>)
    ensures fill.None? <==> LiveQtyOf(existing, false) >= r.qty || LiveQty(existing) >= r.qty
    ensures fill.Some? ==>
      && fill.value.qty.Some? && fill.value.qty.value > 0.0 && LiveQty(existing) + fill.value.qty.value == r.qty
      && fill.value == SyntheticFill(orderId, r, fill.value.qty.value, fraction)
      && fill.value.price == Some(r.avgPrice) && fill.value.executedAt == r.at && fill.value.realizedPl == 0.0
      && fill.value.synthetic && !fill.value.superseded
      && fill.value.source ==
         Some(if r.path == FromBroker then "reconciliation_backfill" else "reconciliation_db_backfill")
      && fill.value.fillId ==
         orderId + "_" + (if r.path == FromBroker then "recon" else "recon_db") + "_" + QtyText(r.qty, fraction) +
         "_" + QtyText(fill.value.qty.value, fraction)
  {
    var realQty, syntheticQty := 0.0, 0.0;
    for k := 0 to |existing|
      invariant realQty == LiveQtyOf(existing[..k], false)
      invariant syntheticQty == LiveQtyOf(existing[..k], true)
    {
      assert existing[..k + 1][..k] == existing[..k];
      var f := existing[k];
      if !f.superseded && f.qty.Some? {
        if f.synthetic {
          syntheticQty := syntheticQty + f.qty.value;
        } else {
          realQty := realQty + f.qty.value;
        }
      }
    }
    assert existing[..|existing|] == existing;
    LiveIsRealPlusSynthetic(existing);
    if r.qty <= realQty {
      return None;
    }
    var missing := r.qty - realQty - syntheticQty;
    if missing <= 0.0 {
      return None;
    }
    fill := Some(SyntheticFill(orderId, r, missing, fraction));
  }

  /** One backfill of an order. */
  function Reconcile(st: Store, orderId: string, r: Filled, fraction: real -> string): Store {
    if orderId !in st.ledgers then st
    else
      match Gap(st.ledgers[orderId].fills, r.qty)
      case None => st
      case Some(missing) => AppendFill(st, orderId, SyntheticFill(orderId, r, missing, fraction))
  }

  class Reconciler {
    const tables: FillTables

    constructor (tables: FillTables)
      ensures this.tables == tables
    {
      this.tables := tables;
    }

    /** The locked read, the calculation and the append. */
    method BackfillFillMetadata(orderId: string, r: Filled, fraction: real -> string) returns (injected: bool)
      modifies tables
      ensures tables.State() == Reconcile(old(tables.State()), orderId, r, fraction)
      ensures injected <==> orderId in old(tables.ledgers) && Gap(old(tables.ledgers)[orderId].fills, r.qty).Some?
    {
      hide SyntheticFill, AppendFill, LiveQty, LiveQtyOf;
      if orderId !in tables.ledgers {
        return false;
      }
      var fill := CalculateSyntheticFill(orderId, r, tables.ledgers[orderId].fills, fraction);
      if fill.None? {
        return false;
      }
      var _ := tables.AppendFillToOrderMetadata(orderId, fill.value);
      return true;
    }
  }

  // ---------------------------------------------------------------------------
  // When a gap stays open
  // ---------------------------------------------------------------------------

  /** Some append carried this id to this order. */
  ghost predicate AppendedBefore(appends: seq<Append>, orderId: string, fillId: string) {
    exists a :: a in appends && a.orderId == orderId && a.fill.fillId == fillId
  }

  /** An id is on the order exactly when it was there or was appended: no append with a known order and
      a new id is ever dropped. */
  lemma {:induction false} IdIsThereIff(st: Store, appends: seq<Append>, orderId: string, fillId: string)
    requires orderId in st.ledgers && fillId != ""
    ensures orderId in AppendAll(st, appends).ledgers
    ensures HasFill(AppendAll(st, appends).ledgers[orderId].fills, fillId) <==>
      HasFill(st.ledgers[orderId].fills, fillId) || AppendedBefore(appends, orderId, fillId)
    decreases |appends|
  {
    hide HasFill, InsertTrade;
    if appends != [] {
      var a := appends[0];
      var next := AppendFill(st, a.orderId, a.fill);
      OneAppend(st, a, orderId, fillId);
      IdIsThereIff(next, appends[1..], orderId, fillId);
      assert AppendedBefore(appends, orderId, fillId) <==>
        (a.orderId == orderId && a.fill.fillId == fillId) || AppendedBefore(appends[1..], orderId, fillId);
    }
  }

  lemma OneAppend(st: Store, a: Append, orderId: string, fillId: string)
    requires orderId in st.ledgers && fillId != ""
    ensures var next := AppendFill(st, a.orderId, a.fill);
      && orderId in next.ledgers
      && (HasFill(next.ledgers[orderId].fills, fillId) <==>
            HasFill(st.ledgers[orderId].fills, fillId) || (a.orderId == orderId && a.fill.fillId == fillId))
  {
    hide InsertTrade;
    var next := AppendFill(st, a.orderId, a.fill);
    if a.orderId == orderId && Appends(st, orderId, a.fill) {
      var before, after := st.ledgers[orderId].fills, next.ledgers[orderId].fills;
      assert forall i :: 0 <= i < |before| ==> after[i].fillId == before[i].fillId;
      assert |after| == |before| + 1 && after[|before|].fillId == a.fill.fillId;
      if HasFill(before, fillId) {
        var i :| 0 <= i < |before| && before[i].fillId == fillId;
        assert after[i].fillId == fillId;
      }
    }
  }

  lemma SyntheticIdIsNotEmpty(orderId: string, path: Path, filledQty: real, missing: real, fraction: real -> string)
    ensures SyntheticId(orderId, path, filledQty, missing, fraction) != ""
  {
  }

  /** After any appends to an order without fills, reconciliation leaves a gap open if and only if a
      fill with the very id it computes was appended to the order before. */
  lemma GapStaysOpenIff(st: Store, appends: seq<Append>, orderId: string, r: Filled, fraction: real -> string)
    requires orderId in st.ledgers && st.ledgers[orderId].fills == []
    ensures orderId in AppendAll(st, appends).ledgers
    ensures var now := AppendAll(st, appends);
      var after := Reconcile(now, orderId, r, fraction);
      var gap := Gap(now.ledgers[orderId].fills, r.qty);
      && orderId in after.ledgers
      && (Gap(after.ledgers[orderId].fills, r.qty).Some? <==>
            gap.Some? && AppendedBefore(appends, orderId, SyntheticId(orderId, r.path, r.qty, gap.value, fraction)))
      && (gap.Some? && Gap(after.ledgers[orderId].fills, r.qty).None? ==>
            LiveQty(after.ledgers[orderId].fills) == r.qty)
  {
    hide SyntheticId, InsertTrade, AppendAll, LiveQty, LiveQtyOf, HasFill;
    IdIsThereIff(st, appends, orderId, "x");
    var now := AppendAll(st, appends);
    var fills := now.ledgers[orderId].fills;
    var gap := Gap(fills, r.qty);
    if gap.Some? {
      var fill := SyntheticFill(orderId, r, gap.value, fraction);
      SyntheticIdIsNotEmpty(orderId, r.path, r.qty, gap.value, fraction);
      IdIsThereIff(st, appends, orderId, fill.fillId);
      assert !HasFill([], fill.fillId) by { NoFills(fill.fillId); }
      LiveQtySnoc(fills, fill);
    }
  }

  lemma NoFills(fillId: string)
    ensures !HasFill([], fillId)
  {
  }

  // ---------------------------------------------------------------------------
  // A gap that returns
  // ---------------------------------------------------------------------------

  lemma QtyTexts(fraction: real -> string)
    ensures QtyText(3.0, fraction) == "3" && QtyText(7.0, fraction) == "7" && QtyText(10.0, fraction) == "10"
  {
    assert Digits(3) == "3" && Digits(7) == "7" && Digits(10) == "10";
  }

  lemma Joined(s: string, a: string, b: string, c: string)
    ensures s + "_" + a + "_" + b + "_" + c == s + ("_" + a + "_" + b + "_" + c)
  {
  }

  /** The ids of the run below, written out. */
  lemma IdsOfTheRun(orderId: string, fraction: real -> string)
    ensures SyntheticId(orderId, FromBroker, 3.0, 3.0, fraction) == orderId + "_recon_3_3"
    ensures SyntheticId(orderId, FromBroker, 10.0, 7.0, fraction) == orderId + "_recon_10_7"
    ensures SyntheticId(orderId, FromRow, 10.0, 7.0, fraction) == orderId + "_recon_db_10_7"
  {
    hide QtyText;
    QtyTexts(fraction);
    Joined(orderId, "recon", "3", "3");
    Joined(orderId, "recon", "10", "7");
    Joined(orderId, "recon_db", "10", "7");
    assert "_" + "recon" + "_" + "3" + "_" + "3" == "_recon_3_3";
    assert "_" + "recon" + "_" + "10" + "_" + "7" == "_recon_10_7";
    assert "_" + "recon_db" + "_" + "10" + "_" + "7" == "_recon_db_10_7";
  }

  lemma IdsDiffer(orderId: string)
    ensures var a, b := orderId + "_recon_3_3", orderId + "_recon_10_7";
            var c, d := orderId + "_recon_db_10_7", orderId + "_3";
            a != b && a != c && a != d && b != c && b != d && c != d
  {
    var n := |orderId|;
    assert (orderId + "_recon_3_3")[n + 7] == '3' && (orderId + "_recon_10_7")[n + 7] == '1';
    assert (orderId + "_recon_db_10_7")[n + 7] == 'd' && |orderId + "_3"| == n + 2;
  }

  lemma LiveOfOne(a: FillData)
    ensures LiveQty([a]) == Counted(a) && LiveQtyOf([a], false) == if a.synthetic then 0.0 else Counted(a)
  {
    assert [a][..0] == [];
    assert LiveQty([]) == 0.0 && LiveQtyOf([], false) == 0.0;
  }

  lemma LiveOfOneMore(fills: seq<FillData>, a: FillData)
    ensures LiveQty(fills + [a]) == LiveQty(fills) + Counted(a)
    ensures LiveQtyOf(fills + [a], false) == LiveQtyOf(fills, false) + if a.synthetic then 0.0 else Counted(a)
  {
    assert (fills + [a])[..|fills|] == fills;
  }

  /** Reconciliation sees 3 shares, then 10, both from the broker, and then a real fill of 3 arrives. */
  ghost function TheRun(st: Store, orderId: string, r3: Filled, r10: Filled, realFill: FillData,
                        fraction: real -> string): Store {
    AppendFill(Reconcile(Reconcile(st, orderId, r3, fraction), orderId, r10, fraction), orderId, realFill)
  }

  predicate StartsTheRun(st: Store, orderId: string, r3: Filled, r10: Filled, realFill: FillData) {
    && orderId in st.ledgers && st.ledgers[orderId].fills == []
    && r3.path == r10.path == FromBroker && r3.qty == 3.0 && r10.qty == 10.0
    && realFill.fillId == orderId + "_3" && realFill.qty == Some(3.0) && !realFill.synthetic && !realFill.superseded
  }

  lemma FillsOfTheRun(st: Store, orderId: string, r3: Filled, r10: Filled, realFill: FillData, fraction: real -> string)
    requires StartsTheRun(st, orderId, r3, r10, realFill)
    ensures var x, y := SyntheticFill(orderId, r3, 3.0, fraction), SyntheticFill(orderId, r10, 7.0, fraction);
            var twice := Reconcile(Reconcile(st, orderId, r3, fraction), orderId, r10, fraction);
            var after := TheRun(st, orderId, r3, r10, realFill, fraction);
      && orderId in twice.ledgers && twice.ledgers[orderId].fills == [x] + [y]
      && LiveQty(twice.ledgers[orderId].fills) == 10.0
      && orderId in after.ledgers
      && after.ledgers[orderId].fills == [x.(superseded := true)] + [y.(superseded := true)] + [realFill]
      && Gap(after.ledgers[orderId].fills, 10.0) == Some(7.0)
      && HasFill(after.ledgers[orderId].fills, y.fillId)
  {
    hide SyntheticId, InsertTrade, HasFill, LiveQty, LiveQtyOf;
    IdsOfTheRun(orderId, fraction);
    IdsDiffer(orderId);
    var x, y := SyntheticFill(orderId, r3, 3.0, fraction), SyntheticFill(orderId, r10, 7.0, fraction);
    Counts(x, y, realFill);
    IdsAmong(x, y, realFill);
    var once := Reconcile(st, orderId, r3, fraction);
    assert once.ledgers[orderId].fills == [] + [x] == [x];
    var twice := Reconcile(once, orderId, r10, fraction);
    assert twice.ledgers[orderId].fills == [x] + [y];
  }

  /** The real fill supersedes both synthetic ones; the gap of 7 under 10 is back, its computed id was
      used, and no further pass over the broker's order closes it. */
  lemma ReturningGapStaysOpen(st: Store, orderId: string, r3: Filled, r10: Filled, realFill: FillData,
                              fraction: real -> string)
    requires StartsTheRun(st, orderId, r3, r10, realFill)
    ensures var twice := Reconcile(Reconcile(st, orderId, r3, fraction), orderId, r10, fraction);
            var after := TheRun(st, orderId, r3, r10, realFill, fraction);
      && orderId in twice.ledgers && orderId in after.ledgers
      && LiveQty(twice.ledgers[orderId].fills) == 10.0
      && Gap(after.ledgers[orderId].fills, 10.0) == Some(7.0)
      && Reconcile(after, orderId, r10, fraction) == after
  {
    hide SyntheticId, InsertTrade, HasFill, LiveQty, LiveQtyOf;
    FillsOfTheRun(st, orderId, r3, r10, realFill, fraction);
  }

  /** A pass over the database row computes an id of its own and closes it. */
  lemma DatabasePassClosesTheGap(st: Store, orderId: string, r3: Filled, r10: Filled, realFill: FillData,
                                 fromRow: Filled, fraction: real -> string)
    requires StartsTheRun(st, orderId, r3, r10, realFill)
    requires fromRow.path == FromRow && fromRow.qty == 10.0
    ensures var closed := Reconcile(TheRun(st, orderId, r3, r10, realFill, fraction), orderId, fromRow, fraction);
      orderId in closed.ledgers && LiveQty(closed.ledgers[orderId].fills) == 10.0
  {
    hide SyntheticId, InsertTrade, HasFill, LiveQty, LiveQtyOf;
    IdsOfTheRun(orderId, fraction);
    IdsDiffer(orderId);
    FillsOfTheRun(st, orderId, r3, r10, realFill, fraction);
    var x, y := SyntheticFill(orderId, r3, 3.0, fraction), SyntheticFill(orderId, r10, 7.0, fraction);
    var fill := SyntheticFill(orderId, fromRow, 7.0, fraction);
    var fills := [x.(superseded := true)] + [y.(superseded := true)] + [realFill];
    NotAmong(x, y, realFill, fill.fillId);
    LiveQtySnoc(fills, fill);
  }

  lemma NotAmong(x: FillData, y: FillData, z: FillData, id: string)
    requires id != x.fillId && id != y.fillId && id != z.fillId
    ensures !HasFill([x.(superseded := true)] + [y.(superseded := true)] + [z], id)
  {
  }

  lemma Counts(x: FillData, y: FillData, z: FillData)
    requires x.synthetic && y.synthetic && !z.synthetic && !x.superseded && !y.superseded && !z.superseded
    requires x.qty == Some(3.0) && y.qty == Some(7.0) && z.qty == Some(3.0)
    ensures Gap([], 3.0) == Some(3.0) && Gap([x], 10.0) == Some(7.0) && LiveQty([x] + [y]) == 10.0
    ensures Gap([x.(superseded := true)] + [y.(superseded := true)] + [z], 10.0) == Some(7.0)
  {
    LiveOfOne(x);
    LiveOfOneMore([x], y);
    var a, b := x.(superseded := true), y.(superseded := true);
    LiveOfOne(a);
    LiveOfOneMore([a], b);
    LiveOfOneMore([a] + [b], z);
    assert LiveQty([]) == 0.0 && LiveQtyOf([], false) == 0.0;
  }

  lemma IdsAmong(x: FillData, y: FillData, z: FillData)
    requires x.fillId != y.fillId && z.fillId != x.fillId && z.fillId != y.fillId
    ensures !HasFill([], x.fillId) && !HasFill([x], y.fillId) && !HasFill([x] + [y], z.fillId)
    ensures HasFill([x.(superseded := true)] + [y.(superseded := true)] + [z], y.fillId)
  {
    assert ([x.(superseded := true)] + [y.(superseded := true)] + [z])[1].fillId == y.fillId;
  }
}
