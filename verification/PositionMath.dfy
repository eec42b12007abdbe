/** Position and P&L arithmetic. Decimals are reals, so the identities below are exact. */
module PositionMath {
  import opened Base

  /** Positive quantity is long, negative is short. */
  datatype Position = Position(qty: int, avg: real, realized: real)

  const FLAT := Position(0, 0.0, 0.0)

  datatype Fill = Fill(qty: nat, price: real, side: Side)

  function Abs(x: int): nat {
    if x < 0 then -x else x
  }

  function SignedQty(qty: int, side: Side): int {
    if side == Buy then qty else -qty
  }

  /** P&L on the part of the position a fill closes. */
  function ClosedPnl(before: Position, price: real, side: Side, qtyClosed: nat): real {
    if side == Sell && before.qty > 0 then (price - before.avg) * qtyClosed as real
    else if side == Buy && before.qty < 0 then (before.avg - price) * qtyClosed as real
    else 0.0
  }

  function AverageCost(avg: real, held: nat, price: real, added: nat, total: nat): real
    requires total > 0
  {
    (avg * held as real + price * added as real) / total as real
  }

  predicate CrossesFlat(before: int, after: int) {
    before * after < 0
  }

  /** The position after one fill: close, open, add, flip or partly close. */
  function CalculatePositionUpdate(before: Position, fillQty: int, price: real, side: Side): Position {
    var signed := SignedQty(fillQty, side);
    var newQty := before.qty + signed;
    var adding := (before.qty > 0 && side == Buy) || (before.qty < 0 && side == Sell);
    if newQty == 0 then
      Position(0, 0.0, before.realized + ClosedPnl(before, price, side, Abs(signed)))
    else if before.qty == 0 then
      Position(newQty, price, before.realized)
    else if adding then
      Position(newQty, AverageCost(before.avg, Abs(before.qty), price, Abs(signed), Abs(newQty)), before.realized)
    else if CrossesFlat(before.qty, newQty) then
      Position(newQty, price, before.realized + ClosedPnl(before, price, side, Abs(before.qty)))
    else
      Position(newQty, before.avg, before.realized + ClosedPnl(before, price, side, Abs(signed)))
  }

  function ApplyFill(p: Position, f: Fill): Position {
    CalculatePositionUpdate(p, f.qty, f.price, f.side)
  }

  function ApplyFills(p: Position, fills: seq<Fill>): Position
    decreases |fills|
  {
    if fills == [] then p else ApplyFills(ApplyFill(p, fills[0]), fills[1..])
  }

  lemma {:induction false} ApplyFillsConcat(p: Position, a: seq<Fill>, b: seq<Fill>)
    ensures ApplyFills(p, a + b) == ApplyFills(ApplyFills(p, a), b)
    decreases |a|
  {
    if a == [] {
      assert a + b == b;
    } else {
      assert (a + b)[0] == a[0] && (a + b)[1..] == a[1..] + b;
      ApplyFillsConcat(ApplyFill(p, a[0]), a[1..], b);
    }
  }

  // ---------------------------------------------------------------------------
  // Accounting identity
  // ---------------------------------------------------------------------------

  /** Realized plus unrealized P&L when the market is at `mark`. */
  function Equity(p: Position, mark: real): real {
    p.realized + p.qty as real * (mark - p.avg)
  }

  /** What one fill is worth at `mark`: its signed quantity times the distance from its price. */
  function Flow(f: Fill, mark: real): real {
    SignedQty(f.qty, f.side) as real * (mark - f.price)
  }

  /** What buying at the fill prices and marking at `mark` is worth, summed fill by fill. */
  function MarkedFlow(fills: seq<Fill>, mark: real): real {
    if fills == [] then 0.0 else Flow(fills[0], mark) + MarkedFlow(fills[1..], mark)
  }

  function NetQty(fills: seq<Fill>): int {
    if fills == [] then 0 else SignedQty(fills[0].qty, fills[0].side) + NetQty(fills[1..])
  }

  predicate Adds(p: Position, side: Side) {
    (p.qty > 0 && side == Buy) || (p.qty < 0 && side == Sell)
  }

  predicate Reduces(p: Position, side: Side) {
    (p.qty > 0 && side == Sell) || (p.qty < 0 && side == Buy)
  }

  lemma CrossingSigns(a: int, b: int)
    ensures CrossesFlat(a, b) <==> (a > 0 && b < 0) || (a < 0 && b > 0)
  {
  }

  // The branches of the update, told apart by signs and sizes.

  lemma OpenCase(p: Position, x: nat, price: real, side: Side)
    requires p.qty == 0
    ensures CalculatePositionUpdate(p, x, price, side)
         == Position(SignedQty(x, side), if x == 0 then 0.0 else price, p.realized)
  {
  }

  lemma AddCase(p: Position, x: nat, price: real, side: Side)
    requires Adds(p, side)
    ensures CalculatePositionUpdate(p, x, price, side)
         == Position(p.qty + SignedQty(x, side), AverageCost(p.avg, Abs(p.qty), price, x, Abs(p.qty) + x), p.realized)
  {
  }

  lemma PartialCloseCase(p: Position, x: nat, price: real, side: Side)
    requires Reduces(p, side) && x < Abs(p.qty)
    ensures CalculatePositionUpdate(p, x, price, side)
         == Position(p.qty + SignedQty(x, side), p.avg, p.realized + ClosedPnl(p, price, side, x))
  {
  }

  lemma FullCloseCase(p: Position, x: nat, price: real, side: Side)
    requires Reduces(p, side) && x == Abs(p.qty)
    ensures CalculatePositionUpdate(p, x, price, side)
         == Position(0, 0.0, p.realized + ClosedPnl(p, price, side, x))
  {
  }

  lemma FlipCase(p: Position, x: nat, price: real, side: Side)
    requires Reduces(p, side) && x > Abs(p.qty)
    ensures CalculatePositionUpdate(p, x, price, side)
         == Position(p.qty + SignedQty(x, side), price, p.realized + ClosedPnl(p, price, side, Abs(p.qty)))
  {
    hide AverageCost, CrossesFlat, ClosedPnl;
    CrossingSigns(p.qty, p.qty + SignedQty(x, side));
  }

  // The same branches on the equity. `q` is the signed quantity, `c` what is sold (bought if negative).

  lemma AddMovesEquity(p: Position, x: nat, price: real, side: Side, mark: real)
    requires Adds(p, side)
    ensures Equity(CalculatePositionUpdate(p, x, price, side), mark) ==
            Equity(p, mark) + Flow(Fill(x, price, side), mark)
  {
  }

  lemma PartialCloseMovesEquity(p: Position, x: nat, price: real, side: Side, mark: real)
    requires Reduces(p, side) && x < Abs(p.qty)
    ensures Equity(CalculatePositionUpdate(p, x, price, side), mark) ==
            Equity(p, mark) + Flow(Fill(x, price, side), mark)
  {
  }

  lemma CrossMovesEquity(p: Position, x: nat, price: real, side: Side, mark: real)
    requires Reduces(p, side) && x >= Abs(p.qty)
    ensures Equity(CalculatePositionUpdate(p, x, price, side), mark) ==
            Equity(p, mark) + Flow(Fill(x, price, side), mark)
  {
  }

  lemma OpenMovesEquity(p: Position, x: nat, price: real, side: Side, mark: real)
    requires p.qty == 0
    ensures Equity(CalculatePositionUpdate(p, x, price, side), mark) ==
            Equity(p, mark) + Flow(Fill(x, price, side), mark)
  {
  }

  lemma FillMovesQty(p: Position, f: Fill)
    ensures ApplyFill(p, f).qty == p.qty + SignedQty(f.qty, f.side)
  {
  }

  lemma FillMovesEquity(p: Position, f: Fill, mark: real)
    ensures Equity(ApplyFill(p, f), mark) == Equity(p, mark) + Flow(f, mark)
  {
    hide Equity, Flow, CalculatePositionUpdate;
    if Adds(p, f.side) {
      AddMovesEquity(p, f.qty, f.price, f.side, mark);
    } else if Reduces(p, f.side) {
      if f.qty < Abs(p.qty) {
        PartialCloseMovesEquity(p, f.qty, f.price, f.side, mark);
      } else {
        CrossMovesEquity(p, f.qty, f.price, f.side, mark);
      }
    } else {
      OpenMovesEquity(p, f.qty, f.price, f.side, mark);
    }
  }

  /** For every mark price, realized P&L plus the open position's value is the marked flow of all
      the fills, through opens, adds, partial closes, full closes and flips. */
  lemma {:induction false} AccountingIdentity(p: Position, fills: seq<Fill>, mark: real)
    ensures Equity(ApplyFills(p, fills), mark) == Equity(p, mark) + MarkedFlow(fills, mark)
    ensures ApplyFills(p, fills).qty == p.qty + NetQty(fills)
    decreases |fills|
  {
    hide ApplyFill, Equity, Flow;
    if fills != [] {
      FillMovesEquity(p, fills[0], mark);
      FillMovesQty(p, fills[0]);
      AccountingIdentity(ApplyFill(p, fills[0]), fills[1..], mark);
    }
  }

  // ---------------------------------------------------------------------------
  // Order of fills
  // ---------------------------------------------------------------------------

  lemma {:induction false} FlowConcat(a: seq<Fill>, b: seq<Fill>, mark: real)
    ensures MarkedFlow(a + b, mark) == MarkedFlow(a, mark) + MarkedFlow(b, mark)
    ensures NetQty(a + b) == NetQty(a) + NetQty(b)
    decreases |a|
  {
    hide Flow;
    if a == [] {
      assert a + b == b;
    } else {
      assert (a + b)[0] == a[0] && (a + b)[1..] == a[1..] + b;
      FlowConcat(a[1..], b, mark);
    }
  }

  lemma FlowWithout(b: seq<Fill>, i: nat, mark: real)
    requires i < |b|
    ensures MarkedFlow(b, mark) == Flow(b[i], mark) + MarkedFlow(b[..i] + b[i + 1..], mark)
    ensures NetQty(b) == SignedQty(b[i].qty, b[i].side) + NetQty(b[..i] + b[i + 1..])
  {
    hide Flow, SignedQty;
    assert b == b[..i] + b[i..];
    FlowConcat(b[..i], b[i..], mark);
    assert b[i..][1..] == b[i + 1..];
    FlowConcat(b[..i], b[i + 1..], mark);
  }

  lemma RemoveSame(a: seq<Fill>, b: seq<Fill>) returns (i: nat)
    requires multiset(a) == multiset(b) && a != []
    ensures i < |b| && b[i] == a[0]
    ensures multiset(a[1..]) == multiset(b[..i] + b[i + 1..])
  {
    assert a[0] in multiset(b);
    i :| 0 <= i < |b| && b[i] == a[0];
    assert a == [a[0]] + a[1..] && b == b[..i] + [b[i]] + b[i + 1..];
    assert multiset(a) == multiset{a[0]} + multiset(a[1..]);
    assert multiset(b) == multiset(b[..i]) + multiset{b[i]} + multiset(b[i + 1..]);
    assert multiset(b[..i] + b[i + 1..]) == multiset(b) - multiset{b[i]};
  }

  lemma {:induction false} FlowIgnoresOrder(a: seq<Fill>, b: seq<Fill>, mark: real)
    requires multiset(a) == multiset(b)
    ensures MarkedFlow(a, mark) == MarkedFlow(b, mark) && NetQty(a) == NetQty(b)
    decreases |a|
  {
    hide Flow, SignedQty;
    if a == [] {
      assert |multiset(b)| == |b|;
    } else {
      var i := RemoveSame(a, b);
      FlowWithout(b, i, mark);
      FlowIgnoresOrder(a[1..], b[..i] + b[i + 1..], mark);
    }
  }

  /** The same fills in any order give the same quantity and the same equity at every mark; when
      they end flat they give the same realized P&L. */
  lemma FillOrderKeepsEquity(p: Position, a: seq<Fill>, b: seq<Fill>, mark: real)
    requires multiset(a) == multiset(b)
    ensures ApplyFills(p, a).qty == ApplyFills(p, b).qty
    ensures Equity(ApplyFills(p, a), mark) == Equity(ApplyFills(p, b), mark)
    ensures ApplyFills(p, a).qty == 0 ==> ApplyFills(p, a).realized == ApplyFills(p, b).realized
  {
    AccountingIdentity(p, a, mark);
    AccountingIdentity(p, b, mark);
    FlowIgnoresOrder(a, b, mark);
  }

  /** While the position stays open the split between realized P&L and average price can depend on the
      order: here two buys have different prices. */
  lemma RealizedDependsOnOrder(buy: Fill, sell: Fill, dear: Fill)
    requires buy == Fill(10, 10.0, Buy) && sell == Fill(10, 20.0, Sell) && dear == Fill(10, 30.0, Buy)
    ensures ApplyFill(ApplyFill(ApplyFill(FLAT, buy), sell), dear) == Position(10, 30.0, 100.0)
    ensures ApplyFill(ApplyFill(ApplyFill(FLAT, buy), dear), sell) == Position(10, 20.0, 0.0)
  {
  }

  // ---------------------------------------------------------------------------
  // Splitting a fill
  // ---------------------------------------------------------------------------

  lemma TwoStepAverage(avg: real, held: nat, price: real, x: nat, y: nat)
    requires held + x > 0
    ensures AverageCost(AverageCost(avg, held, price, x, held + x), held + x, price, y, held + x + y)
         == AverageCost(avg, held, price, x + y, held + (x + y))
  {
  }

  lemma SamePriceAverage(price: real, x: nat, y: nat)
    requires x + y > 0
    ensures AverageCost(price, x, price, y, x + y) == price
  {
  }

  lemma ClosedInTwo(p: Position, price: real, side: Side, x: nat, y: nat)
    ensures ClosedPnl(p, price, side, x + y) == ClosedPnl(p, price, side, x) + ClosedPnl(p, price, side, y)
  {
  }

  /** What a close gains depends on the position only through its direction and average price. */
  lemma SameGain(p: Position, mid: Position, price: real, side: Side, n: nat)
    requires Reduces(p, side) && Reduces(mid, side) && p.avg == mid.avg
    ensures ClosedPnl(p, price, side, n) == ClosedPnl(mid, price, side, n)
  {
  }

  ghost predicate Splits(p: Position, x: nat, y: nat, price: real, side: Side) {
    CalculatePositionUpdate(CalculatePositionUpdate(p, x, price, side), y, price, side)
      == CalculatePositionUpdate(p, x + y, price, side)
  }

  lemma SplitAdd(p: Position, x: nat, y: nat, price: real, side: Side)
    requires Adds(p, side)
    ensures Splits(p, x, y, price, side)
  {
    hide CalculatePositionUpdate, AverageCost;
    AddCase(p, x, price, side);
    AddCase(CalculatePositionUpdate(p, x, price, side), y, price, side);
    AddCase(p, x + y, price, side);
    TwoStepAverage(p.avg, Abs(p.qty), price, x, y);
  }

  lemma SplitOpen(p: Position, x: nat, y: nat, price: real, side: Side)
    requires p.qty == 0
    ensures Splits(p, x, y, price, side)
  {
    hide CalculatePositionUpdate, AverageCost;
    OpenCase(p, x, price, side);
    OpenCase(p, x + y, price, side);
    if x == 0 {
      OpenCase(CalculatePositionUpdate(p, x, price, side), y, price, side);
    } else {
      AddCase(CalculatePositionUpdate(p, x, price, side), y, price, side);
      SamePriceAverage(price, x, y);
    }
  }

  /** The first piece leaves part of the position open. */
  lemma SplitPartialClose(p: Position, x: nat, y: nat, price: real, side: Side)
    requires Reduces(p, side) && x < Abs(p.qty)
    ensures Splits(p, x, y, price, side)
  {
    hide CalculatePositionUpdate, ClosedPnl;
    PartialCloseCase(p, x, price, side);
    var mid := CalculatePositionUpdate(p, x, price, side);
    var second := if x + y <= Abs(p.qty) then y else Abs(p.qty) - x;
    SameGain(p, mid, price, side, second);
    ClosedInTwo(p, price, side, x, second);
    if x + y < Abs(p.qty) {
      PartialCloseCase(mid, y, price, side);
      PartialCloseCase(p, x + y, price, side);
    } else if x + y == Abs(p.qty) {
      FullCloseCase(mid, y, price, side);
      FullCloseCase(p, x + y, price, side);
    } else {
      FlipCase(mid, y, price, side);
      FlipCase(p, x + y, price, side);
    }
  }

  /** The first piece closes the position or crosses zero. */
  lemma SplitCross(p: Position, x: nat, y: nat, price: real, side: Side)
    requires Reduces(p, side) && x >= Abs(p.qty)
    ensures Splits(p, x, y, price, side)
  {
    hide CalculatePositionUpdate, ClosedPnl, AverageCost;
    var mid := CalculatePositionUpdate(p, x, price, side);
    if x == Abs(p.qty) {
      FullCloseCase(p, x, price, side);
      OpenCase(mid, y, price, side);
    } else {
      FlipCase(p, x, price, side);
      AddCase(mid, y, price, side);
      SamePriceAverage(price, Abs(mid.qty), y);
    }
    if x + y > Abs(p.qty) {
      FlipCase(p, x + y, price, side);
    }
  }

  /** Two fills at one price and side are one fill of their total, also when the split lands on or
      crosses zero. */
  lemma SplitFill(p: Position, x: nat, y: nat, price: real, side: Side)
    ensures CalculatePositionUpdate(CalculatePositionUpdate(p, x, price, side), y, price, side)
         == CalculatePositionUpdate(p, x + y, price, side)
  {
    hide CalculatePositionUpdate;
    if Adds(p, side) {
      SplitAdd(p, x, y, price, side);
    } else if Reduces(p, side) {
      if x < Abs(p.qty) {
        SplitPartialClose(p, x, y, price, side);
      } else {
        SplitCross(p, x, y, price, side);
      }
    } else {
      SplitOpen(p, x, y, price, side);
    }
  }

  function PiecesAt(pieces: seq<nat>, price: real, side: Side): (fills: seq<Fill>)
    ensures |fills| == |pieces|
    ensures forall i :: 0 <= i < |pieces| ==> fills[i] == Fill(pieces[i], price, side)
  {
    seq(|pieces|, i requires 0 <= i < |pieces| => Fill(pieces[i], price, side))
  }

  function Total(pieces: seq<nat>): nat {
    if pieces == [] then 0 else pieces[0] + Total(pieces[1..])
  }

  /** A broker may report one execution in any pieces: the position does not change. */
  lemma {:induction false} PiecesMakeOneFill(p: Position, pieces: seq<nat>, price: real, side: Side)
    requires pieces != []
    ensures ApplyFills(p, PiecesAt(pieces, price, side))
         == CalculatePositionUpdate(p, Total(pieces), price, side)
    decreases |pieces|
  {
    hide CalculatePositionUpdate;
    var fills := PiecesAt(pieces, price, side);
    if |pieces| == 1 {
      assert fills[1..] == [];
    } else {
      assert fills[1..] == PiecesAt(pieces[1..], price, side);
      PiecesMakeOneFill(ApplyFill(p, fills[0]), pieces[1..], price, side);
      SplitFill(p, pieces[0], Total(pieces[1..]), price, side);
    }
  }

  // ---------------------------------------------------------------------------
  // The average price
  // ---------------------------------------------------------------------------

  predicate AverageWithin(p: Position, lo: real, hi: real) {
    if p.qty == 0 then p.avg == 0.0 else lo <= p.avg <= hi
  }

  lemma QuotientWithin(n: real, d: real, lo: real, hi: real)
    requires d > 0.0 && lo * d <= n <= hi * d
    ensures lo <= n / d <= hi
  {
  }

  lemma MeanAbove(a: real, b: real, x: real, y: real, lo: real)
    requires x >= 0.0 && y >= 0.0 && lo <= a && lo <= b
    ensures lo * (x + y) <= a * x + b * y
  {
  }

  lemma MeanBelow(a: real, b: real, x: real, y: real, hi: real)
    requires x >= 0.0 && y >= 0.0 && a <= hi && b <= hi
    ensures a * x + b * y <= hi * (x + y)
  {
  }

  lemma MeanWithin(a: real, held: nat, b: real, x: nat, lo: real, hi: real)
    requires held > 0 && lo <= a <= hi && lo <= b <= hi
    ensures lo <= AverageCost(a, held, b, x, held + x) <= hi
  {
    MeanAbove(a, b, held as real, x as real, lo);
    MeanBelow(a, b, held as real, x as real, hi);
    QuotientWithin(a * held as real + b * x as real, (held + x) as real, lo, hi);
  }

  lemma FillKeepsAverageWithin(p: Position, f: Fill, lo: real, hi: real)
    requires AverageWithin(p, lo, hi) && lo <= f.price <= hi
    ensures AverageWithin(ApplyFill(p, f), lo, hi)
  {
    hide CalculatePositionUpdate, AverageCost, ClosedPnl;
    if Adds(p, f.side) {
      AddCase(p, f.qty, f.price, f.side);
      MeanWithin(p.avg, Abs(p.qty), f.price, f.qty, lo, hi);
    } else if p.qty == 0 {
      OpenCase(p, f.qty, f.price, f.side);
    } else if f.qty < Abs(p.qty) {
      PartialCloseCase(p, f.qty, f.price, f.side);
    } else if f.qty == Abs(p.qty) {
      FullCloseCase(p, f.qty, f.price, f.side);
    } else {
      FlipCase(p, f.qty, f.price, f.side);
    }
  }

  /** The average entry price of an open position lies between the lowest and the highest fill
      price; a flat position has average price zero. */
  lemma {:induction false} AverageStaysWithinFillPrices(p: Position, fills: seq<Fill>, lo: real, hi: real)
    requires AverageWithin(p, lo, hi)
    requires forall f :: f in fills ==> lo <= f.price <= hi
    ensures AverageWithin(ApplyFills(p, fills), lo, hi)
    decreases |fills|
  {
    hide ApplyFill;
    if fills != [] {
      var f := fills[0];
      assert f in fills;
      FillKeepsAverageWithin(p, f, lo, hi);
      AverageStaysWithinFillPrices(ApplyFill(p, f), fills[1..], lo, hi);
    }
  }
}
