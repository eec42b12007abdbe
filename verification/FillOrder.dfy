/** Exactly when the realized P&L of a list of fills does not depend on their order. */
module FillOrder {
  import opened Base
  import opened PositionMath

  ghost predicate Positive(fills: seq<Fill>) {
    forall f :: f in fills ==> f.qty > 0
  }

  ghost predicate AllOn(fills: seq<Fill>, side: Side) {
    forall f :: f in fills ==> f.side == side
  }

  ghost predicate OnePriceOn(fills: seq<Fill>, side: Side) {
    forall f, g :: f in fills && g in fills && f.side == g.side == side ==> f.price == g.price
  }

  /** The side that outweighs the other. */
  function Surviving(fills: seq<Fill>): Side {
    if NetQty(fills) > 0 then Buy else Sell
  }

  ghost predicate RealizedIgnoresOrder(fills: seq<Fill>) {
    forall b :: multiset(b) == multiset(fills) ==> ApplyFills(FLAT, b).realized == ApplyFills(FLAT, fills).realized
  }

  // ---------------------------------------------------------------------------
  // The order does not matter
  // ---------------------------------------------------------------------------

  lemma SameElements(a: seq<Fill>, b: seq<Fill>)
    requires multiset(a) == multiset(b)
    ensures forall f :: f in a <==> f in b
  {
    forall f ensures f in a <==> f in b {
      assert f in a <==> f in multiset(a);
      assert f in b <==> f in multiset(b);
    }
  }

  predicate Leans(p: Position, side: Side) {
    if side == Buy then p.qty >= 0 else p.qty <= 0
  }

  lemma {:induction false} OneSideRealizesNothing(p: Position, fills: seq<Fill>, side: Side)
    requires AllOn(fills, side) && Leans(p, side)
    ensures ApplyFills(p, fills).realized == p.realized && Leans(ApplyFills(p, fills), side)
    decreases |fills|
  {
    hide CalculatePositionUpdate, AverageCost;
    if fills != [] {
      var f := fills[0];
      assert f in fills;
      if p.qty == 0 {
        OpenCase(p, f.qty, f.price, f.side);
      } else {
        AddCase(p, f.qty, f.price, f.side);
      }
      OneSideRealizesNothing(ApplyFill(p, f), fills[1..], side);
    }
  }

  predicate Holds(p: Position, side: Side) {
    if side == Buy then p.qty > 0 else p.qty < 0
  }

  lemma AverageOfSame(price: real, held: nat, added: nat)
    requires held > 0
    ensures AverageCost(price, held, price, added, held + added) == price
  {
    SamePriceAverage(price, held, added);
  }

  /** A position on the side whose fills have one price has that average. */
  lemma {:induction false} OnePriceIsTheAverage(p: Position, fills: seq<Fill>, side: Side, price: real)
    requires Positive(fills) && forall f :: f in fills && f.side == side ==> f.price == price
    requires Holds(p, side) ==> p.avg == price
    ensures Holds(ApplyFills(p, fills), side) ==> ApplyFills(p, fills).avg == price
    decreases |fills|
  {
    hide CalculatePositionUpdate, AverageCost, ClosedPnl;
    if fills != [] {
      var f := fills[0];
      assert f in fills;
      if p.qty == 0 {
        OpenCase(p, f.qty, f.price, f.side);
      } else if Adds(p, f.side) {
        AddCase(p, f.qty, f.price, f.side);
        if Holds(p, side) {
          AverageOfSame(price, Abs(p.qty), f.qty);
        }
      } else if f.qty < Abs(p.qty) {
        PartialCloseCase(p, f.qty, f.price, f.side);
      } else if f.qty == Abs(p.qty) {
        FullCloseCase(p, f.qty, f.price, f.side);
      } else {
        FlipCase(p, f.qty, f.price, f.side);
      }
      OnePriceIsTheAverage(ApplyFill(p, f), fills[1..], side, price);
    }
  }

  /** When the surviving side has one price, every order ends with that average, and so with one
      realized P&L. */
  lemma OnePriceIgnoresOrder(a: seq<Fill>, b: seq<Fill>)
    requires multiset(a) == multiset(b) && Positive(a) && NetQty(a) != 0 && OnePriceOn(a, Surviving(a))
    ensures ApplyFills(FLAT, a).realized == ApplyFills(FLAT, b).realized
  {
    hide ApplyFills, Equity;
    SameElements(a, b);
    var side := Surviving(a);
    var price := 0.0;
    if f :| f in a && f.side == side {
      price := f.price;
    }
    AccountingIdentity(FLAT, a, price);
    FillOrderKeepsEquity(FLAT, a, b, price);
    OnePriceIsTheAverage(FLAT, a, side, price);
    OnePriceIsTheAverage(FLAT, b, side, price);
    EquityAtAverage(ApplyFills(FLAT, a));
    EquityAtAverage(ApplyFills(FLAT, b));
  }

  lemma EquityAtAverage(p: Position)
    ensures Equity(p, p.avg) == p.realized
  {
  }

  // ---------------------------------------------------------------------------
  // The order matters: more is bought than sold, at several prices
  // ---------------------------------------------------------------------------

  function Select(fills: seq<Fill>, keep: Fill -> bool): seq<Fill> {
    if fills == [] then [] else (if keep(fills[0]) then [fills[0]] else []) + Select(fills[1..], keep)
  }

  lemma {:induction false} SelectKeeps(fills: seq<Fill>, keep: Fill -> bool)
    ensures forall f :: f in Select(fills, keep) <==> f in fills && keep(f)
    ensures multiset(Select(fills, keep)) + multiset(Select(fills, f => !keep(f))) == multiset(fills)
    decreases |fills|
  {
    if fills != [] {
      SelectKeeps(fills[1..], keep);
      assert fills == [fills[0]] + fills[1..];
    }
  }

  /** P&L taken so far, an open short marked at `mark`. */
  function Taken(p: Position, mark: real): real {
    if p.qty <= 0 then Equity(p, mark) else p.realized
  }

  /** A buy at or below the mark takes no less, and strictly more when it covers a short below the mark. */
  lemma BuyTakes(p: Position, f: Fill, mark: real)
    requires f.side == Buy && f.qty > 0
    ensures f.price <= mark ==> Taken(ApplyFill(p, f), mark) >= Taken(p, mark)
    ensures f.price < mark && p.qty < 0 ==> Taken(ApplyFill(p, f), mark) > Taken(p, mark)
    ensures p.qty >= 0 ==> Taken(ApplyFill(p, f), mark) == Taken(p, mark)
    ensures ApplyFill(p, f).qty == p.qty + f.qty
  {
    hide CalculatePositionUpdate, AverageCost;
    if p.qty == 0 {
      OpenCase(p, f.qty, f.price, Buy);
    } else if p.qty > 0 {
      AddCase(p, f.qty, f.price, Buy);
    } else {
      CoverTakes(p, f, mark);
    }
  }

  function Covered(p: Position, f: Fill): nat {
    if f.qty < Abs(p.qty) then f.qty else Abs(p.qty)
  }

  function Times(n: nat, margin: real): real {
    n as real * margin
  }

  /** What covering a short takes, at the mark. */
  lemma CoverIs(p: Position, f: Fill, mark: real)
    requires f.side == Buy && f.qty > 0 && p.qty < 0
    ensures Taken(ApplyFill(p, f), mark) == Equity(p, mark) + Times(Covered(p, f), mark - f.price)
    ensures ApplyFill(p, f).qty == p.qty + f.qty
  {
    hide CalculatePositionUpdate, Equity, ClosedPnl;
    var c := Covered(p, f);
    var after := ApplyFill(p, f);
    CoverPnl(p, f.price, c);
    CoverValue(p, c, f.price, mark);
    EquityIs(after, mark);
    if f.qty < Abs(p.qty) {
      PartialCloseCase(p, f.qty, f.price, Buy);
      assert Taken(after, mark) == Equity(after, mark);
    } else if f.qty == Abs(p.qty) {
      FullCloseCase(p, f.qty, f.price, Buy);
      assert Taken(after, mark) == after.realized;
    } else {
      FlipCase(p, f.qty, f.price, Buy);
      assert Taken(after, mark) == after.realized;
    }
  }

  lemma CoverPnl(p: Position, price: real, c: nat)
    requires p.qty < 0
    ensures ClosedPnl(p, price, Buy, c) == (p.avg - price) * c as real
  {
  }

  lemma CoverTakes(p: Position, f: Fill, mark: real)
    requires f.side == Buy && f.qty > 0 && p.qty < 0
    ensures f.price <= mark ==> Taken(ApplyFill(p, f), mark) >= Taken(p, mark)
    ensures f.price < mark ==> Taken(ApplyFill(p, f), mark) > Taken(p, mark)
    ensures ApplyFill(p, f).qty == p.qty + f.qty
  {
    hide ApplyFill, Equity, Times;
    CoverIs(p, f, mark);
    Gain(Covered(p, f), mark - f.price);
    ShortIsMarked(p, mark);
  }

  lemma EquityIs(p: Position, mark: real)
    ensures Equity(p, mark) == p.realized + p.qty as real * (mark - p.avg)
    ensures p.qty == 0 ==> Equity(p, mark) == p.realized
  {
  }

  lemma CoverValue(p: Position, c: nat, price: real, mark: real)
    ensures p.realized + (p.avg - price) * c as real + (p.qty + c) as real * (mark - p.avg)
         == Equity(p, mark) + c as real * (mark - price)
    ensures p.qty + c == 0 ==> p.realized + (p.avg - price) * c as real == Equity(p, mark) + c as real * (mark - price)
  {
    hide Equity;
    EquityIs(p, mark);
    var rest := (p.qty + c) as real;
    CoverAlgebra(p.qty as real, c as real, rest, p.avg, price, mark);
    if p.qty + c == 0 {
      NothingLeft(rest, mark - p.avg);
    }
  }

  lemma CoverAlgebra(q: real, c: real, rest: real, avg: real, price: real, mark: real)
    requires rest == q + c
    ensures (avg - price) * c + rest * (mark - avg) == q * (mark - avg) + c * (mark - price)
  {
  }

  lemma NothingLeft(x: real, y: real)
    requires x == 0.0
    ensures x * y == 0.0
  {
  }

  lemma Gain(c: nat, margin: real)
    ensures margin >= 0.0 ==> Times(c, margin) >= 0.0
    ensures margin > 0.0 && c > 0 ==> Times(c, margin) > 0.0
  {
  }

  lemma {:induction false} BuysTake(p: Position, fills: seq<Fill>, mark: real)
    requires AllOn(fills, Buy) && Positive(fills)
    requires p.qty >= 0 || forall f :: f in fills ==> f.price <= mark
    ensures Taken(ApplyFills(p, fills), mark) >= Taken(p, mark)
    ensures p.qty >= 0 ==> Taken(ApplyFills(p, fills), mark) == Taken(p, mark)
    ensures ApplyFills(p, fills).qty == p.qty + NetQty(fills) && NetQty(fills) >= 0
    decreases |fills|
  {
    hide ApplyFill, Taken;
    if fills != [] {
      var f := fills[0];
      assert f in fills;
      BuyTakes(p, f, mark);
      BuysTake(ApplyFill(p, f), fills[1..], mark);
    }
  }

  /** Buys above the mark leave a long position with an average above the mark. */
  lemma {:induction false} DearBuysAverageAbove(p: Position, fills: seq<Fill>, mark: real)
    requires AllOn(fills, Buy) && Positive(fills) && forall f :: f in fills ==> f.price > mark
    requires p.qty > 0 ==> p.avg > mark
    ensures ApplyFills(p, fills).qty > 0 ==> ApplyFills(p, fills).avg > mark
    decreases |fills|
  {
    hide CalculatePositionUpdate, AverageCost, ClosedPnl;
    if fills != [] {
      var f := fills[0];
      assert f in fills;
      if p.qty == 0 {
        OpenCase(p, f.qty, f.price, Buy);
      } else if p.qty > 0 {
        AddCase(p, f.qty, f.price, Buy);
        var lo := if p.avg < f.price then p.avg else f.price;
        var hi := if p.avg < f.price then f.price else p.avg;
        MeanWithin(p.avg, Abs(p.qty), f.price, f.qty, lo, hi);
      } else if f.qty < Abs(p.qty) {
        PartialCloseCase(p, f.qty, f.price, Buy);
      } else if f.qty == Abs(p.qty) {
        FullCloseCase(p, f.qty, f.price, Buy);
      } else {
        FlipCase(p, f.qty, f.price, Buy);
      }
      DearBuysAverageAbove(ApplyFill(p, f), fills[1..], mark);
    }
  }

  /** Sells that do not close a long position keep its average. */
  lemma {:induction false} SellsKeepAverage(p: Position, fills: seq<Fill>)
    requires AllOn(fills, Sell) && p.qty + NetQty(fills) > 0
    ensures ApplyFills(p, fills).avg == p.avg && NetQty(fills) <= 0
    decreases |fills|
  {
    hide CalculatePositionUpdate, ClosedPnl;
    if fills != [] {
      var f := fills[0];
      assert f in fills;
      NetOfSells(fills[1..]);
      PartialCloseCase(p, f.qty, f.price, Sell);
      SellsKeepAverage(ApplyFill(p, f), fills[1..]);
    }
  }

  lemma NetOfSells(fills: seq<Fill>)
    requires AllOn(fills, Sell)
    ensures NetQty(fills) <= 0 && (fills != [] && Positive(fills) ==> NetQty(fills) < 0)
  {
    if fills != [] {
      assert fills[0] in fills;
      NetOfSells(fills[1..]);
    }
  }

  lemma FlowAbove(f: Fill, mark: real)
    requires f.side == Buy && f.qty > 0 && f.price >= mark
    ensures Flow(f, mark) <= 0.0 && (f.price > mark ==> Flow(f, mark) < 0.0)
  {
    Gain(f.qty, f.price - mark);
    Opposite(f.qty as real, mark, f.price);
  }

  /** Fills at prices no better than the mark, worth nothing in sum, are all at the mark. */
  lemma {:induction false} NoneBelow(fills: seq<Fill>, mark: real)
    requires AllOn(fills, Buy) && Positive(fills) && forall f :: f in fills ==> f.price >= mark
    ensures MarkedFlow(fills, mark) <= 0.0
    ensures MarkedFlow(fills, mark) == 0.0 ==> forall f :: f in fills ==> f.price == mark
    decreases |fills|
  {
    if fills != [] {
      var f := fills[0];
      assert f in fills;
      NoneBelow(fills[1..], mark);
      FlowAbove(f, mark);
      hide Flow;
      assert MarkedFlow(fills, mark) == Flow(f, mark) + MarkedFlow(fills[1..], mark);
      forall g | g in fills && MarkedFlow(fills, mark) == 0.0 ensures g.price == mark {
        assert g == f || g in fills[1..];
      }
    }
  }

  /** After all the buys, the average is a mark at which they are worth nothing in sum; the sells keep it. */
  lemma BuysThenSells(buys: seq<Fill>, sells: seq<Fill>) returns (mark: real)
    requires AllOn(buys, Buy) && AllOn(sells, Sell) && Positive(buys) && Positive(sells)
    requires NetQty(buys) + NetQty(sells) > 0
    ensures MarkedFlow(buys, mark) == 0.0
    ensures ApplyFills(FLAT, buys + sells).realized == MarkedFlow(sells, mark)
  {
    hide ApplyFill, Flow;
    NetOfSells(sells);
    var held := ApplyFills(FLAT, buys);
    mark := held.avg;
    OneSideRealizesNothing(FLAT, buys, Buy);
    AccountingIdentity(FLAT, buys, mark);
    ApplyFillsConcat(FLAT, buys, sells);
    SellsKeepAverage(held, sells);
    AccountingIdentity(held, sells, mark);
  }

  /** Sells first, then the buys below the mark, at it and above it: more is taken. */
  lemma SellsThenBuysTakeMore(sells: seq<Fill>, low: seq<Fill>, mid: seq<Fill>, high: seq<Fill>, mark: real)
    requires AllOn(sells, Sell) && AllOn(low, Buy) && AllOn(mid, Buy) && AllOn(high, Buy)
    requires Positive(sells) && Positive(low) && Positive(mid) && Positive(high)
    requires sells != [] && low != []
    requires forall f :: f in low ==> f.price < mark
    requires forall f :: f in mid ==> f.price <= mark
    requires forall f :: f in high ==> f.price > mark
    requires var all := sells + (low + (mid + high));
             NetQty(all) > 0 && MarkedFlow(all, mark) == MarkedFlow(sells, mark)
    ensures ApplyFills(FLAT, sells + (low + (mid + high))).realized > MarkedFlow(sells, mark)
  {
    hide ApplyFill, Flow, Taken, ApplyFills, MarkedFlow, NetQty;
    var p1 := ApplyFills(FLAT, sells);
    AccountingIdentity(FLAT, sells, mark);
    NetOfSells(sells);
    ShortIsMarked(p1, mark);
    var p2 := ApplyFills(p1, low);
    LowBuysTakeMore(p1, low, mark);
    var p3 := ApplyFills(p2, mid);
    BuysTake(p2, mid, mark);
    var p4 := ApplyFills(p3, high);
    var all := sells + (low + (mid + high));
    ApplyFillsConcat(FLAT, sells, low + (mid + high));
    ApplyFillsConcat(p1, low, mid + high);
    ApplyFillsConcat(p2, mid, high);
    AccountingIdentity(FLAT, all, mark);
    if p3.qty >= 0 {
      BuysTake(p3, high, mark);
      LongIsTaken(p4, mark);
    } else {
      DearBuysAverageAbove(p3, high, mark);
      Premium(p4, mark);
    }
  }

  lemma ShortIsMarked(p: Position, mark: real)
    ensures p.qty <= 0 ==> Taken(p, mark) == Equity(p, mark)
  {
  }

  lemma LongIsTaken(p: Position, mark: real)
    ensures p.qty > 0 ==> Taken(p, mark) == p.realized
  {
  }

  lemma Premium(p: Position, mark: real)
    requires p.qty > 0 && p.avg > mark
    ensures p.realized > Equity(p, mark)
  {
    hide Equity;
    EquityIs(p, mark);
    Gain(p.qty, p.avg - mark);
    Opposite(p.qty as real, mark, p.avg);
  }

  lemma Opposite(x: real, a: real, b: real)
    ensures x * (a - b) == 0.0 - x * (b - a)
  {
  }

  lemma LowBuysTakeMore(p: Position, low: seq<Fill>, mark: real)
    requires AllOn(low, Buy) && Positive(low) && low != [] && p.qty < 0
    requires forall f :: f in low ==> f.price < mark
    ensures Taken(ApplyFills(p, low), mark) > Taken(p, mark)
  {
    hide ApplyFill, Taken;
    assert low[0] in low;
    BuyTakes(p, low[0], mark);
    BuysTake(ApplyFill(p, low[0]), low[1..], mark);
  }

  lemma SplitBySide(fills: seq<Fill>) returns (buys: seq<Fill>, sells: seq<Fill>)
    ensures multiset(buys) + multiset(sells) == multiset(fills)
    ensures forall f :: f in buys <==> f in fills && f.side == Buy
    ensures forall f :: f in sells <==> f in fills && f.side == Sell
  {
    var isBuy := (f: Fill) => f.side == Buy;
    SelectKeeps(fills, isBuy);
    SelectKeeps(fills, f => !isBuy(f));
    buys, sells := Select(fills, isBuy), Select(fills, f => !isBuy(f));
  }

  lemma SplitByMark(fills: seq<Fill>, mark: real) returns (low: seq<Fill>, mid: seq<Fill>, high: seq<Fill>)
    ensures multiset(low) + multiset(mid) + multiset(high) == multiset(fills)
    ensures forall f :: f in low <==> f in fills && f.price < mark
    ensures forall f :: f in mid ==> f in fills && f.price <= mark
    ensures forall f :: f in high ==> f in fills && f.price > mark
  {
    var below, atMost := (f: Fill) => f.price < mark, (f: Fill) => f.price <= mark;
    SelectKeeps(fills, below);
    SelectKeeps(fills, f => !below(f));
    low := Select(fills, below);
    var rest := Select(fills, f => !below(f));
    SelectKeeps(rest, atMost);
    SelectKeeps(rest, f => !atMost(f));
    mid, high := Select(rest, atMost), Select(rest, f => !atMost(f));
  }

  /** Two orders of the fills that realize differently. */
  lemma NetLongOrdersDiffer(fills: seq<Fill>)
    requires Positive(fills) && NetQty(fills) > 0
    requires !AllOn(fills, Buy) && !OnePriceOn(fills, Buy)
    ensures !RealizedIgnoresOrder(fills)
  {
    hide ApplyFills, NetQty, MarkedFlow, OnePriceOn;
    var buys, sells := SplitBySide(fills);
    assert sells != [] by { var f :| f in fills && f.side != Buy; assert f in sells; }
    var first := buys + sells;
    FlowIgnoresOrder(first, fills, 0.0);
    FlowConcat(buys, sells, 0.0);
    var mark := BuysThenSells(buys, sells);
    var low, mid, high := SplitByMark(buys, mark);
    SomeBelow(fills, buys, low, mark);
    var second := sells + (low + (mid + high));
    assert multiset(second) == multiset(fills) == multiset(first);
    FlowIgnoresOrder(second, fills, mark);
    FlowIgnoresOrder(first, fills, mark);
    FlowConcat(buys, sells, mark);
    SellsThenBuysTakeMore(sells, low, mid, high, mark);
  }

  lemma SomeBelow(fills: seq<Fill>, buys: seq<Fill>, low: seq<Fill>, mark: real)
    requires AllOn(buys, Buy) && Positive(buys) && MarkedFlow(buys, mark) == 0.0
    requires forall f :: f in buys <==> f in fills && f.side == Buy
    requires forall f :: f in low <==> f in buys && f.price < mark
    requires !OnePriceOn(fills, Buy)
    ensures low != []
  {
    if low == [] {
      assert forall f :: f in buys ==> f.price >= mark by {
        forall f | f in buys ensures f.price >= mark {
          assert f !in low;
        }
      }
      NoneBelow(buys, mark);
    }
  }

  // ---------------------------------------------------------------------------
  // The mirror image: more is sold than bought
  // ---------------------------------------------------------------------------

  function Other(side: Side): Side {
    if side == Buy then Sell else Buy
  }

  /** Sides swapped and prices negated: what was long is short, and gains stay gains. */
  function Mirror(f: Fill): Fill {
    Fill(f.qty, 0.0 - f.price, Other(f.side))
  }

  function MirrorAll(fills: seq<Fill>): (m: seq<Fill>)
    ensures |m| == |fills| && forall i :: 0 <= i < |m| ==> m[i] == Mirror(fills[i])
  {
    seq(|fills|, i requires 0 <= i < |fills| => Mirror(fills[i]))
  }

  function MirrorPosition(p: Position): Position {
    Position(0 - p.qty, 0.0 - p.avg, p.realized)
  }

  lemma AverageMirrors(avg: real, held: nat, price: real, added: nat)
    requires held > 0
    ensures AverageCost(0.0 - avg, held, 0.0 - price, added, held + added) ==
            0.0 - AverageCost(avg, held, price, added, held + added)
  {
  }

  lemma ClosedMirrors(p: Position, price: real, side: Side, n: nat)
    ensures ClosedPnl(MirrorPosition(p), 0.0 - price, Other(side), n) == ClosedPnl(p, price, side, n)
  {
  }

  lemma FillMirrors(p: Position, f: Fill)
    requires f.qty > 0
    ensures ApplyFill(MirrorPosition(p), Mirror(f)) == MirrorPosition(ApplyFill(p, f))
  {
    hide CalculatePositionUpdate, AverageCost, ClosedPnl;
    var q, g := MirrorPosition(p), Mirror(f);
    ClosedMirrors(p, f.price, f.side, f.qty);
    ClosedMirrors(p, f.price, f.side, Abs(p.qty));
    if p.qty == 0 {
      OpenCase(p, f.qty, f.price, f.side);
      OpenCase(q, g.qty, g.price, g.side);
    } else if Adds(p, f.side) {
      AddCase(p, f.qty, f.price, f.side);
      AddCase(q, g.qty, g.price, g.side);
      AverageMirrors(p.avg, Abs(p.qty), f.price, f.qty);
    } else if f.qty < Abs(p.qty) {
      PartialCloseCase(p, f.qty, f.price, f.side);
      PartialCloseCase(q, g.qty, g.price, g.side);
    } else if f.qty == Abs(p.qty) {
      FullCloseCase(p, f.qty, f.price, f.side);
      FullCloseCase(q, g.qty, g.price, g.side);
    } else {
      FlipCase(p, f.qty, f.price, f.side);
      FlipCase(q, g.qty, g.price, g.side);
    }
  }

  lemma {:induction false} FillsMirror(p: Position, fills: seq<Fill>)
    requires Positive(fills)
    ensures ApplyFills(MirrorPosition(p), MirrorAll(fills)) == MirrorPosition(ApplyFills(p, fills))
    decreases |fills|
  {
    hide ApplyFill, Mirror, MirrorPosition;
    if fills != [] {
      assert fills[0] in fills;
      FillMirrors(p, fills[0]);
      assert MirrorAll(fills)[1..] == MirrorAll(fills[1..]);
      FillsMirror(ApplyFill(p, fills[0]), fills[1..]);
    }
  }

  lemma MirrorTwice(fills: seq<Fill>)
    ensures MirrorAll(MirrorAll(fills)) == fills
    ensures forall f :: f in MirrorAll(fills) <==> Mirror(f) in fills
  {
    var m := MirrorAll(fills);
    forall f ensures f in m <==> Mirror(f) in fills {
      if f in m {
        var i :| 0 <= i < |m| && m[i] == f;
        assert Mirror(f) == fills[i];
      }
      if Mirror(f) in fills {
        var i :| 0 <= i < |fills| && fills[i] == Mirror(f);
        assert m[i] == f;
      }
    }
  }

  lemma {:induction false} MirrorNegatesNet(fills: seq<Fill>)
    ensures NetQty(MirrorAll(fills)) == 0 - NetQty(fills)
    decreases |fills|
  {
    if fills != [] {
      assert MirrorAll(fills)[1..] == MirrorAll(fills[1..]);
      MirrorNegatesNet(fills[1..]);
    }
  }

  lemma MirrorRemoves(b: seq<Fill>, i: nat)
    requires i < |b|
    ensures MirrorAll(b[..i] + b[i + 1..]) == MirrorAll(b)[..i] + MirrorAll(b)[i + 1..]
  {
  }

  lemma {:induction false} MirrorKeepsMultisets(a: seq<Fill>, b: seq<Fill>)
    requires multiset(a) == multiset(b)
    ensures multiset(MirrorAll(a)) == multiset(MirrorAll(b))
    decreases |a|
  {
    if a == [] {
      assert |multiset(b)| == |b|;
    } else {
      var i := RemoveSame(a, b);
      MirrorKeepsMultisets(a[1..], b[..i] + b[i + 1..]);
      MirrorRemoves(b, i);
      var m := MirrorAll(b);
      assert m == m[..i] + [m[i]] + m[i + 1..];
      assert multiset(m) == multiset(m[..i] + m[i + 1..]) + multiset{m[i]};
      assert MirrorAll(a) == [Mirror(a[0])] + MirrorAll(a[1..]);
    }
  }

  lemma MirrorKeepsPositive(fills: seq<Fill>)
    requires Positive(fills)
    ensures Positive(MirrorAll(fills))
  {
    MirrorTwice(fills);
    forall f | f in MirrorAll(fills) ensures f.qty > 0 {
      assert Mirror(f) in fills;
    }
  }

  lemma MirrorIgnoresOrder(fills: seq<Fill>)
    requires Positive(fills) && RealizedIgnoresOrder(fills)
    ensures RealizedIgnoresOrder(MirrorAll(fills))
  {
    hide ApplyFills, MirrorAll, Positive;
    var m := MirrorAll(fills);
    forall b | multiset(b) == multiset(m)
      ensures ApplyFills(FLAT, b).realized == ApplyFills(FLAT, m).realized
    {
      MirrorKeepsMultisets(b, m);
      MirrorTwice(fills);
      MirrorTwice(b);
      MirroredRealized(fills);
      SameElements(MirrorAll(b), fills);
      assert Positive(MirrorAll(b)) by { SamePositive(fills, MirrorAll(b)); }
      MirroredRealized(MirrorAll(b));
    }
  }

  lemma SamePositive(a: seq<Fill>, b: seq<Fill>)
    requires Positive(a) && forall f :: f in b <==> f in a
    ensures Positive(b)
  {
  }

  lemma MirroredRealized(fills: seq<Fill>)
    requires Positive(fills)
    ensures ApplyFills(FLAT, MirrorAll(fills)).realized == ApplyFills(FLAT, fills).realized
  {
    hide ApplyFills, MirrorAll, Positive;
    FlatMirrors();
    FillsMirror(FLAT, fills);
  }

  lemma FlatMirrors()
    ensures MirrorPosition(FLAT) == FLAT
  {
  }

  lemma NetShortOrdersDiffer(fills: seq<Fill>)
    requires Positive(fills) && NetQty(fills) < 0
    requires !AllOn(fills, Sell) && !OnePriceOn(fills, Sell)
    ensures !RealizedIgnoresOrder(fills)
  {
    hide NetQty, RealizedIgnoresOrder, MirrorAll;
    if RealizedIgnoresOrder(fills) {
      MirrorIgnoresOrder(fills);
      MirrorKeepsPositive(fills);
      MirrorNegatesNet(fills);
      MirrorKeepsVariety(fills);
      NetLongOrdersDiffer(MirrorAll(fills));
    }
  }

  lemma MirrorKeepsVariety(fills: seq<Fill>)
    requires !AllOn(fills, Sell) && !OnePriceOn(fills, Sell)
    ensures !AllOn(MirrorAll(fills), Buy) && !OnePriceOn(MirrorAll(fills), Buy)
  {
    hide MirrorAll;
    var m := MirrorAll(fills);
    MirrorTwice(fills);
    var f, g :| f in fills && g in fills && f.side == g.side == Sell && f.price != g.price;
    assert Mirror(Mirror(f)) == f && Mirror(Mirror(g)) == g;
    assert Mirror(f) in m && Mirror(g) in m;
    var h :| h in fills && h.side != Sell;
    assert Mirror(Mirror(h)) == h && Mirror(h) in m;
  }

  /** From flat, every order of a list of fills realizes the same P&L if and only if the fills net to
      zero, or lie on one side, or all those of the side that outweighs the other have one price. */
  lemma RealizedIgnoresOrderIff(fills: seq<Fill>)
    requires Positive(fills)
    ensures RealizedIgnoresOrder(fills) <==>
      || NetQty(fills) == 0
      || AllOn(fills, Buy) || AllOn(fills, Sell)
      || OnePriceOn(fills, Surviving(fills))
  {
    hide ApplyFills;
    if NetQty(fills) == 0 || AllOn(fills, Buy) || AllOn(fills, Sell) || OnePriceOn(fills, Surviving(fills)) {
      forall b | multiset(b) == multiset(fills)
        ensures ApplyFills(FLAT, b).realized == ApplyFills(FLAT, fills).realized
      {
        SameElements(b, fills);
        FillOrderKeepsEquity(FLAT, fills, b, 0.0);
        AccountingIdentity(FLAT, fills, 0.0);
        if AllOn(fills, Buy) {
          OneSideRealizesNothing(FLAT, fills, Buy);
          OneSideRealizesNothing(FLAT, b, Buy);
        } else if AllOn(fills, Sell) {
          OneSideRealizesNothing(FLAT, fills, Sell);
          OneSideRealizesNothing(FLAT, b, Sell);
        } else if NetQty(fills) != 0 {
          OnePriceIgnoresOrder(fills, b);
        }
      }
    } else if NetQty(fills) > 0 {
      NetLongOrdersDiffer(fills);
    } else {
      NetShortOrdersDiffer(fills);
    }
  }
}
