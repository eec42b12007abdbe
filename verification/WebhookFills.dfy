/** The webhook transaction: order row, position, and the fills recorded for the order. */
module WebhookFills {
  import opened Base
  import opened OrderStatus
  import opened OrderStore
  import opened PositionMath
  import opened FillLedger
  import opened CasOrdering
  import opened OrderIds

  datatype Order = Order(id: string, side: Side)

  /** A fill event carries the cumulative filled quantity and a price; a status event takes the
      fast path that only writes the order row. */
  datatype Event =
    | FillEvent(update: CasUpdate, price: real, executedAt: int)
    | StatusEvent(update: CasUpdate)

  /** `booked` are the fills this order has put into the position so far; `tables` the metadata and
      trades that record them. */
  datatype State = State(row: OrderRow, position: Position, booked: seq<Fill>, tables: Store)

  /** int() of a decimal: the fraction is dropped, towards zero. */
  function WholeShares(qty: real): (whole: int)
    ensures qty >= 0.0 ==> 0 <= whole && whole as real <= qty < whole as real + 1.0
    ensures qty <= 0.0 ==> whole <= 0 && whole as real - 1.0 < qty <= whole as real
  {
    if qty >= 0.0 then qty.Floor else -((-qty).Floor)
  }

  /** Whole shares an event reports as filled so far. */
  function Reported(e: Event): int {
    WholeShares(NewFilled(e.update))
  }

  /** Shares the event adds to what the row already counts; not positive means none. */
  function Increment(row: OrderRow, u: CasUpdate): nat {
    var more := WholeShares(NewFilled(u)) - WholeShares(row.filledQty);
    if more > 0 then more else 0
  }

  function FillId(o: Order, whole: int): string {
    o.id + "_" + IntText(whole)
  }

  function FillRecord(o: Order, e: Event, f: Fill, realizedDelta: real): FillData
    requires e.FillEvent?
  {
    FillData(FillId(o, Reported(e)), Some(f.qty as real), Some(f.price), realizedDelta, e.executedAt, None, false,
             false)
  }

  /** The position and the records after a fill of `increment` shares. */
  function Book(st: State, o: Order, e: Event, row: OrderRow): State
    requires e.FillEvent?
  {
    var f := Fill(Increment(st.row, e.update), e.price, o.side);
    var position := ApplyFill(st.position, f);
    State(row, position, st.booked + [f],
          AppendFill(st.tables, o.id, FillRecord(o, e, f, position.realized - st.position.realized)))
  }

  function Process(st: State, o: Order, e: Event): State {
    if st.row.status == Replaced then st
    else
      var row := Cas(st.row, e.update);
      if e.FillEvent? && Increment(st.row, e.update) > 0 then Book(st, o, e, row) else st.(row := row)
  }

  function ProcessAll(st: State, o: Order, events: seq<Event>): State
    decreases |events|
  {
    if events == [] then st else ProcessAll(Process(st, o, events[0]), o, events[1..])
  }

  class OrderWebhook {
    const order: Order
    const tables: FillTables
    var row: OrderRow
    var position: Position
    ghost var booked: seq<Fill>

    constructor (order: Order, row: OrderRow, position: Position, tables: FillTables)
      ensures this.order == order && this.tables == tables
      ensures Now() == State(row, position, [], tables.State())
    {
      this.order, this.tables := order, tables;
      this.row, this.position, this.booked := row, position, [];
    }

    ghost function Now(): State
      reads this, tables
    {
      State(row, position, booked, tables.State())
    }

    method HandleOrderWebhook(e: Event)
      modifies this, tables
      ensures Now() == Process(old(Now()), order, e)
    {
      hide ApplyFill, AppendFill, FillRecord, CasAccepts, CasWrite;
      if row.status == Replaced {
        return;
      }
      if e.FillEvent? {
        var increment := WholeShares(NewFilled(e.update)) - WholeShares(row.filledQty);
        if increment > 0 {
          var f := Fill(increment, e.price, order.side);
          var oldRealized := position.realized;
          position := ApplyFill(position, f);
          booked := booked + [f];
          var _ := tables.AppendFillToOrderMetadata(order.id, FillRecord(order, e, f, position.realized - oldRealized));
        }
      }
      if CasAccepts(row, e.update) {
        row := CasWrite(row, e.update);
      }
    }
  }

  // ---------------------------------------------------------------------------
  // Drift between the position and the order row
  // ---------------------------------------------------------------------------

  function Shares(fills: seq<Fill>): nat
    decreases |fills|
  {
    if fills == [] then 0 else Shares(fills[..|fills| - 1]) + fills[|fills| - 1].qty
  }

  lemma SharesSnoc(fills: seq<Fill>, f: Fill)
    ensures Shares(fills + [f]) == Shares(fills) + f.qty
  {
    assert (fills + [f])[..|fills|] == fills;
  }

  /** Shares in the position beyond the whole shares the row counts. */
  function Drift(st: State): int {
    Shares(st.booked) - WholeShares(st.row.filledQty)
  }

  /** What one event does to the drift: a fill whose write is rejected adds its increment, a status
      event whose write is accepted subtracts the shares it made the row count. */
  function DriftOf(st: State, e: Event): int {
    if st.row.status == Replaced then 0
    else if e.FillEvent? && !CasAccepts(st.row, e.update) then Increment(st.row, e.update)
    else if e.StatusEvent? && CasAccepts(st.row, e.update) then 0 - Increment(st.row, e.update)
    else 0
  }

  function SumOfDrifts(st: State, o: Order, events: seq<Event>): int
    decreases |events|
  {
    if events == [] then 0
    else DriftOf(st, events[0]) + SumOfDrifts(Process(st, o, events[0]), o, events[1..])
  }

  lemma FloorOfMax(a: real, b: real)
    ensures WholeShares(Max(a, b)) ==
            if WholeShares(a) < WholeShares(b) then WholeShares(b) else WholeShares(a)
  {
    if a < b {
      FloorMonotone(a, b);
    } else {
      FloorMonotone(b, a);
    }
  }

  lemma FloorMonotone(a: real, b: real)
    requires a <= b
    ensures WholeShares(a) <= WholeShares(b)
  {
  }

  lemma ProcessDrift(st: State, o: Order, e: Event)
    ensures Drift(Process(st, o, e)) == Drift(st) + DriftOf(st, e)
  {
    hide ApplyFill, CasAccepts, AppendFill, FillRecord;
    FloorOfMax(st.row.filledQty, NewFilled(e.update));
    var next := Process(st, o, e);
    if next.booked != st.booked {
      SharesSnoc(st.booked, next.booked[|st.booked|]);
    }
  }

  /** The exact drift after any events in any order. */
  lemma {:induction false} DriftIsTheSumOfItsCauses(st: State, o: Order, events: seq<Event>)
    ensures Drift(ProcessAll(st, o, events)) == Drift(st) + SumOfDrifts(st, o, events)
    decreases |events|
  {
    hide Process, Drift, DriftOf;
    if events != [] {
      ProcessDrift(st, o, events[0]);
      DriftIsTheSumOfItsCauses(Process(st, o, events[0]), o, events[1..]);
    }
  }

  // ---------------------------------------------------------------------------
  // When a broker history is booked in full
  // ---------------------------------------------------------------------------

  /** No status event reports more whole shares than every event before it, of which `most` is the largest. */
  ghost predicate NoEarlyReport(most: int, events: seq<Event>)
    decreases |events|
  {
    events != [] ==>
      && (events[0].StatusEvent? ==> Reported(events[0]) <= most)
      && NoEarlyReport(if most < Reported(events[0]) then Reported(events[0]) else most, events[1..])
  }

  lemma RejectedAddsNothing(row: OrderRow, u: CasUpdate, batch: set<CasUpdate>)
    requires BrokerHistory(batch) && NonNegativeFills(batch) && u in batch
    requires Fresh(row) || Explained(row, batch)
    requires !CasAccepts(row, u)
    ensures NewFilled(u) <= row.filledQty
  {
  }

  /** A replaced order had its last word: nothing in its history reports more. */
  lemma ReplacedCountsAll(row: OrderRow, u: CasUpdate, batch: set<CasUpdate>)
    requires BrokerHistory(batch) && NonNegativeFills(batch) && u in batch
    requires Explained(row, batch) && row.status == Replaced
    ensures NewFilled(u) <= row.filledQty
  {
  }

  /** One event of a broker history moves the row's count to the largest report so far, and undercounts
      exactly when it is a status event that reports more. */
  lemma HistoryStep(st: State, o: Order, e: Event, batch: set<CasUpdate>)
    requires BrokerHistory(batch) && NonNegativeFills(batch) && e.update in batch
    requires Explained(st.row, batch) || (Fresh(st.row) && st.row.status != Replaced)
    ensures Explained(Process(st, o, e).row, batch)
    ensures WholeShares(Process(st, o, e).row.filledQty)
         == if WholeShares(st.row.filledQty) < Reported(e) then Reported(e) else WholeShares(st.row.filledQty)
    ensures DriftOf(st, e) == if e.StatusEvent? then 0 - Increment(st.row, e.update) else 0
  {
    hide ApplyFill, AppendFill, FillRecord, BrokerHistory, Explained, Cas, CasAccepts;
    CasKeepsExplained(st.row, e.update, batch);
    FloorOfMax(st.row.filledQty, NewFilled(e.update));
    if st.row.status == Replaced {
      ReplacedCountsAll(st.row, e.update, batch);
      FloorMonotone(NewFilled(e.update), st.row.filledQty);
    } else {
      if !CasAccepts(st.row, e.update) {
        RejectedAddsNothing(st.row, e.update, batch);
        FloorMonotone(NewFilled(e.update), st.row.filledQty);
      }
      FilledAfter(st.row, e.update);
    }
  }

  lemma FilledAfter(row: OrderRow, u: CasUpdate)
    ensures Cas(row, u).filledQty == if CasAccepts(row, u) then Max(row.filledQty, NewFilled(u)) else row.filledQty
  {
    hide CasAccepts;
  }

  lemma {:induction false} HistoryDrift(st: State, o: Order, events: seq<Event>, batch: set<CasUpdate>)
    requires BrokerHistory(batch) && NonNegativeFills(batch)
    requires forall e :: e in events ==> e.update in batch
    requires Explained(st.row, batch) || (Fresh(st.row) && st.row.status != Replaced)
    ensures SumOfDrifts(st, o, events) <= 0
    ensures SumOfDrifts(st, o, events) == 0 <==> NoEarlyReport(WholeShares(st.row.filledQty), events)
    decreases |events|
  {
    hide BrokerHistory, Explained, Process, DriftOf;
    if events != [] {
      assert events[0] in events;
      HistoryStep(st, o, events[0], batch);
      HistoryDrift(Process(st, o, events[0]), o, events[1..], batch);
    }
  }

  /** However a broker history is delivered to a fresh order, the position never holds more shares of
      it than the row counts; it holds exactly as many if and only if no status event reported more
      whole shares than every event before it. */
  lemma BrokerHistoryIsBookedInFullIff(st: State, o: Order, events: seq<Event>, batch: set<CasUpdate>)
    requires Fresh(st.row) && st.row.status != Replaced && st.booked == []
    requires BrokerHistory(batch) && NonNegativeFills(batch)
    requires forall e :: e in events ==> e.update in batch
    ensures var final := ProcessAll(st, o, events);
      && Shares(final.booked) <= WholeShares(final.row.filledQty)
      && (Shares(final.booked) == WholeShares(final.row.filledQty) <==> NoEarlyReport(0, events))
  {
    DriftIsTheSumOfItsCauses(st, o, events);
    HistoryDrift(st, o, events, batch);
  }

  /** Events that report no more than the row counts book nothing. */
  lemma {:induction false} NothingToBook(st: State, o: Order, events: seq<Event>)
    requires forall e :: e in events ==> Reported(e) <= WholeShares(st.row.filledQty)
    ensures var final := ProcessAll(st, o, events);
      final.booked == st.booked && final.position == st.position && final.tables == st.tables
    decreases |events|
  {
    hide CasAccepts;
    if events != [] {
      var e := events[0];
      assert e in events;
      FilledAfter(st.row, e.update);
      FloorOfMax(st.row.filledQty, NewFilled(e.update));
      NothingToBook(Process(st, o, e), o, events[1..]);
    }
  }

  /** Shares that a status event reports first are never booked: whatever follows, until more is
      reported, the position and the records stay as they were. */
  lemma EarlyReportIsNeverBooked(st: State, o: Order, early: CasUpdate, events: seq<Event>)
    requires Fresh(st.row) && st.row.status != Replaced
    requires forall e :: e in events ==> Reported(e) <= WholeShares(NewFilled(early))
    ensures var final := ProcessAll(st, o, [StatusEvent(early)] + events);
      final.booked == st.booked && final.position == st.position && final.tables == st.tables
  {
    assert ([StatusEvent(early)] + events)[1..] == events;
    FloorOfMax(st.row.filledQty, NewFilled(early));
    NothingToBook(Process(st, o, StatusEvent(early)), o, events);
  }

  // ---------------------------------------------------------------------------
  // When nothing is booked twice
  // ---------------------------------------------------------------------------

  /** `e` can stand in the row when fill `f` comes, so that the write of `f` is refused. */
  predicate CanShadow(e: Event, f: Event) {
    e.update.status != Replaced && (Locks(e.update.status) || EarlierSlot(f.update, e.update))
  }

  /** No event can shadow a fill that reports more whole shares than it does. */
  ghost predicate ReportsInOrder(events: set<Event>) {
    forall e, f :: e in events && f in events && f.FillEvent? && CanShadow(e, f) ==> Reported(f) <= Reported(e)
  }

  ghost predicate NonNegativeReports(events: set<Event>) {
    forall e :: e in events ==> NewFilled(e.update) >= 0.0
  }

  ghost predicate From(sent: seq<Event>, events: set<Event>) {
    forall e :: e in sent ==> e in events
  }

  /** The row shows the status and stamp of a delivered event, and counts at least what it reported. */
  ghost predicate ShownBy(row: OrderRow, events: set<Event>) {
    exists e :: e in events && Shows(row, e.update) && row.filledQty >= NewFilled(e.update)
  }

  lemma ProcessKeepsShown(st: State, o: Order, e: Event, events: set<Event>)
    requires e in events && (ShownBy(st.row, events) || Fresh(st.row)) && st.row.status != Replaced
    ensures ShownBy(Process(st, o, e).row, events)
  {
    hide ApplyFill, AppendFill, FillRecord, CasAccepts;
    var next := Process(st, o, e).row;
    if CasAccepts(st.row, e.update) {
      assert Shows(next, e.update) && next.filledQty >= NewFilled(e.update);
    } else {
      FreshAccepts(st.row, e.update);
    }
  }

  lemma FreshAccepts(row: OrderRow, u: CasUpdate)
    ensures Fresh(row) ==> CasAccepts(row, u)
  {
  }

  /** A refused fill adds nothing when the reports are in order. */
  lemma RefusedFillAddsNothing(row: OrderRow, f: Event, events: set<Event>)
    requires ReportsInOrder(events) && f in events && f.FillEvent?
    requires row.status != Replaced && (ShownBy(row, events) || Fresh(row)) && !CasAccepts(row, f.update)
    ensures Increment(row, f.update) == 0
  {
    var e :| e in events && Shows(row, e.update) && row.filledQty >= NewFilled(e.update);
    FloorMonotone(NewFilled(e.update), row.filledQty);
    if CanShadow(e, f) {
      assert Reported(f) <= Reported(e);
    } else {
      FloorMonotone(NewFilled(f.update), row.filledQty);
    }
  }

  lemma {:induction false} InOrderDrift(st: State, o: Order, sent: seq<Event>, events: set<Event>)
    requires ReportsInOrder(events) && From(sent, events)
    requires ShownBy(st.row, events) || Fresh(st.row)
    ensures SumOfDrifts(st, o, sent) <= 0
    decreases |sent|
  {
    hide ReportsInOrder, ShownBy, Process, Cas, CasAccepts, Increment;
    if sent != [] {
      var e := sent[0];
      assert e in sent;
      if st.row.status == Replaced {
        ReplacedIsSilent(st, o, e);
      } else {
        if e.FillEvent? && !CasAccepts(st.row, e.update) {
          RefusedFillAddsNothing(st.row, e, events);
        }
        ProcessKeepsShown(st, o, e, events);
      }
      InOrderDrift(Process(st, o, e), o, sent[1..], events);
    }
  }

  lemma ReplacedIsSilent(st: State, o: Order, e: Event)
    requires st.row.status == Replaced
    ensures Process(st, o, e) == st
  {
  }

  function Repeat(e: Event, n: nat): seq<Event> {
    if n == 0 then [] else [e] + Repeat(e, n - 1)
  }

  /** The first delivery stamps a fresh row; a fill it shadows is then refused, and changes no row. */
  lemma ShadowedFillIsRefused(st: State, o: Order, e: Event, f: Event)
    requires Fresh(st.row) && st.row.status != Replaced && CanShadow(e, f) && f.FillEvent?
    requires NewFilled(e.update) >= 0.0 && Reported(f) > Reported(e)
    ensures var row := Process(st, o, e).row;
      && !CasAccepts(row, f.update) && row.status != Replaced && row.filledQty == NewFilled(e.update)
      && Increment(row, f.update) == Reported(f) - Reported(e)
  {
    hide ApplyFill, AppendFill, FillRecord;
  }

  /** Every redelivery of a refused fill is booked again. */
  lemma {:induction false} RefusedFillIsBookedEachTime(st: State, o: Order, f: Event, n: nat)
    requires f.FillEvent? && !CasAccepts(st.row, f.update) && st.row.status != Replaced &&
             Increment(st.row, f.update) > 0
    ensures var final := ProcessAll(st, o, Repeat(f, n));
      final.row == st.row && Shares(final.booked) == Shares(st.booked) + n * Increment(st.row, f.update)
    decreases n
  {
    hide ApplyFill, CasAccepts, AppendFill, FillRecord, Increment;
    if n > 0 {
      var next := Process(st, o, f);
      SharesSnoc(st.booked, Fill(Increment(st.row, f.update), f.price, o.side));
      assert Repeat(f, n)[1..] == Repeat(f, n - 1);
      RefusedFillIsBookedEachTime(next, o, f, n - 1);
      assert n * Increment(st.row, f.update) == (n - 1) * Increment(st.row, f.update) + Increment(st.row, f.update);
    }
  }

  lemma EnoughRedeliveries(shares: nat, whole: int, step: nat) returns (n: nat)
    requires step > 0
    ensures shares + n * step > whole
  {
    n := if whole < 0 then 0 else whole + 1;
    assert n * step >= n;
  }

  /** A fill shadowed by an event that reports less drives the position past the row. */
  lemma ShadowedFillOvercounts(st: State, o: Order, e: Event, f: Event) returns (sent: seq<Event>)
    requires Fresh(st.row) && st.row.status != Replaced && CanShadow(e, f) && f.FillEvent?
    requires NewFilled(e.update) >= 0.0 && Reported(f) > Reported(e)
    ensures forall x :: x in sent ==> x == e || x == f
    ensures var final := ProcessAll(st, o, sent); Shares(final.booked) > WholeShares(final.row.filledQty)
  {
    hide Process, Increment;
    ShadowedFillIsRefused(st, o, e, f);
    var first := Process(st, o, e);
    var n := EnoughRedeliveries(Shares(first.booked), WholeShares(first.row.filledQty), Increment(first.row, f.update));
    RefusedFillIsBookedEachTime(first, o, f, n);
    RepeatsOnly(f, n);
    sent := [e] + Repeat(f, n);
    assert sent[1..] == Repeat(f, n);
  }

  lemma RepeatsOnly(e: Event, n: nat)
    ensures forall x :: x in Repeat(e, n) ==> x == e
  {
  }

  /** Over all deliveries with repetitions of a set of events to a fresh order, the position never
      holds more shares of it than the row counts if and only if the reports are in order. */
  lemma NeverOvercountsIff(st: State, o: Order, events: set<Event>)
    requires Fresh(st.row) && st.row.status != Replaced && st.booked == [] && NonNegativeReports(events)
    ensures ReportsInOrder(events) <==>
      forall sent :: From(sent, events) ==>
        var final := ProcessAll(st, o, sent); Shares(final.booked) <= WholeShares(final.row.filledQty)
  {
    hide ProcessAll, Process;
    if ReportsInOrder(events) {
      forall sent | From(sent, events)
        ensures var final := ProcessAll(st, o, sent); Shares(final.booked) <= WholeShares(final.row.filledQty)
      {
        DriftIsTheSumOfItsCauses(st, o, sent);
        InOrderDrift(st, o, sent, events);
      }
    } else {
      var e, f :| e in events && f in events && f.FillEvent? && CanShadow(e, f) && Reported(f) > Reported(e);
      var sent := ShadowedFillOvercounts(st, o, e, f);
      assert From(sent, events);
    }
  }

  // ---------------------------------------------------------------------------
  // The records against the position
  // ---------------------------------------------------------------------------

  /** What the order's metadata says was filled. */
  function RecordedFills(fills: seq<FillData>, side: Side): seq<Fill> {
    seq(|fills|, i requires 0 <= i < |fills| =>
      Fill(if fills[i].qty.Some? && fills[i].qty.value >= 0.0 then WholeShares(fills[i].qty.value) else 0,
           if fills[i].price.Some? then fills[i].price.value else 0.0, side))
  }

  predicate Known(st: State, o: Order) {
    o.id in st.tables.ledgers
  }

  function Recorded(st: State, o: Order): seq<Fill>
    requires Known(st, o)
  {
    RecordedFills(st.tables.ledgers[o.id].fills, o.side)
  }

  /** Every fill id of the order names a whole quantity that its row already counts. */
  ghost predicate IdsCounted(st: State, o: Order)
    requires Known(st, o)
  {
    && st.row.filledQty >= 0.0
    && forall r :: r in st.tables.ledgers[o.id].fills ==>
         !r.synthetic && exists k: nat :: k <= WholeShares(st.row.filledQty) && r.fillId == FillId(o, k)
  }

  lemma FillIdReadsBack(o: Order, a: nat, b: nat)
    requires FillId(o, a) == FillId(o, b)
    ensures a == b
  {
    hide Digits, Value;
    var prefix := o.id + "_";
    assert Digits(a) == FillId(o, a)[|prefix|..] == FillId(o, b)[|prefix|..] == Digits(b);
    DigitsReadBack(a);
    DigitsReadBack(b);
  }

  lemma FillIdIsNotEmpty(o: Order, whole: int)
    ensures FillId(o, whole) != ""
  {
  }

  /** A whole quantity beyond the row's count names a new fill. */
  lemma LargerReportIsNew(st: State, o: Order, whole: nat)
    requires Known(st, o) && IdsCounted(st, o) && whole > WholeShares(st.row.filledQty)
    ensures !HasFill(st.tables.ledgers[o.id].fills, FillId(o, whole))
  {
    hide FillId;
    var fills := st.tables.ledgers[o.id].fills;
    forall i | 0 <= i < |fills| ensures fills[i].fillId != FillId(o, whole) {
      assert fills[i] in fills;
      var k: nat :| k <= WholeShares(st.row.filledQty) && fills[i].fillId == FillId(o, k);
      if FillId(o, k) == FillId(o, whole) {
        FillIdReadsBack(o, k, whole);
      }
    }
  }

  /** A booked fill whose id is new is recorded as it was booked. */
  lemma NewFillIsRecorded(st: State, o: Order, e: Event, row: OrderRow)
    requires e.FillEvent? && Known(st, o) && Reported(e) >= 0
    requires forall r :: r in st.tables.ledgers[o.id].fills ==> !r.synthetic
    requires !HasFill(st.tables.ledgers[o.id].fills, FillId(o, Reported(e)))
    ensures var next := Book(st, o, e, row);
      && Known(next, o)
      && next.tables.ledgers[o.id].fills == st.tables.ledgers[o.id].fills + [FillRecord(o, e, next.booked[|st.booked|],
                                              next.position.realized - st.position.realized)]
      && Recorded(next, o) == Recorded(st, o) + [next.booked[|st.booked|]]
  {
    hide ApplyFill, FillId, InsertTrade;
    FillIdIsNotEmpty(o, Reported(e));
    var fills := st.tables.ledgers[o.id].fills;
    var f := Fill(Increment(st.row, e.update), e.price, o.side);
    var next := Book(st, o, e, row);
    var r := FillRecord(o, e, f, next.position.realized - st.position.realized);
    assert SupersedeSynthetic(fills + [r]) == fills + [r];
    assert WholeShares(f.qty as real) == f.qty;
  }

  /** A booked fill whose id is known is not recorded. */
  lemma KnownFillIsNotRecorded(st: State, o: Order, e: Event, row: OrderRow)
    requires e.FillEvent? && Known(st, o) && HasFill(st.tables.ledgers[o.id].fills, FillId(o, Reported(e)))
    ensures Book(st, o, e, row).tables == st.tables
  {
    hide ApplyFill, FillId, InsertTrade;
  }

  lemma InOrderStepRecords(st: State, o: Order, e: Event, events: set<Event>)
    requires ReportsInOrder(events) && e in events && Known(st, o) && IdsCounted(st, o)
    requires ShownBy(st.row, events) || Fresh(st.row)
    requires Recorded(st, o) == st.booked
    ensures var next := Process(st, o, e); Known(next, o) && IdsCounted(next, o) && Recorded(next, o) == next.booked
  {
    hide ReportsInOrder, ShownBy, CasAccepts, ApplyFill, FillId, AppendFill, RecordedFills, FillRecord, Fresh;
    if st.row.status != Replaced {
      FilledAfter(st.row, e.update);
      FloorOfMax(st.row.filledQty, NewFilled(e.update));
      var row := Cas(st.row, e.update);
      if e.FillEvent? && Increment(st.row, e.update) > 0 {
        if !CasAccepts(st.row, e.update) {
          RefusedFillAddsNothing(st.row, e, events);
        }
        BookingRecords(st, o, e, row);
      } else {
        CountedIdsStay(st, o, row);
      }
    }
  }

  lemma CountedIdsStay(st: State, o: Order, row: OrderRow)
    requires Known(st, o) && IdsCounted(st, o) && row.filledQty >= st.row.filledQty
    ensures IdsCounted(st.(row := row), o)
  {
    hide FillId;
    FloorMonotone(st.row.filledQty, row.filledQty);
    forall r | r in st.tables.ledgers[o.id].fills
      ensures exists k: nat :: k <= WholeShares(row.filledQty) && r.fillId == FillId(o, k)
    {
      var k: nat :| k <= WholeShares(st.row.filledQty) && r.fillId == FillId(o, k);
      assert k <= WholeShares(row.filledQty);
    }
  }

  lemma BookingRecords(st: State, o: Order, e: Event, row: OrderRow)
    requires e.FillEvent? && Known(st, o) && IdsCounted(st, o) && Recorded(st, o) == st.booked
    requires Increment(st.row, e.update) > 0 && row.filledQty >= st.row.filledQty &&
             row.filledQty >= NewFilled(e.update)
    ensures var next := Book(st, o, e, row); Known(next, o) && IdsCounted(next, o) && Recorded(next, o) == next.booked
  {
    hide ApplyFill, FillId, AppendFill, RecordedFills;
    FloorMonotone(0.0, st.row.filledQty);
    FloorMonotone(NewFilled(e.update), row.filledQty);
    LargerReportIsNew(st, o, Reported(e));
    NewFillIsRecorded(st, o, e, row);
    CountedIdsStay(st, o, row);
    var next := Book(st, o, e, row);
    forall r | r in next.tables.ledgers[o.id].fills
      ensures !r.synthetic && exists k: nat :: k <= WholeShares(row.filledQty) && r.fillId == FillId(o, k)
    {
      if r in st.tables.ledgers[o.id].fills {
        assert r in st.(row := row).tables.ledgers[o.id].fills;
      } else {
        var k: nat := Reported(e);
        assert k <= WholeShares(row.filledQty) && r.fillId == FillId(o, k);
      }
    }
  }

  lemma {:induction false} InOrderRecords(st: State, o: Order, sent: seq<Event>, events: set<Event>)
    requires ReportsInOrder(events) && From(sent, events) && Known(st, o) && IdsCounted(st, o)
    requires ShownBy(st.row, events) || Fresh(st.row)
    requires Recorded(st, o) == st.booked
    ensures var final := ProcessAll(st, o, sent); Known(final, o) && Recorded(final, o) == final.booked
    decreases |sent|
  {
    hide ReportsInOrder, ShownBy, Process, Known, IdsCounted, Recorded, Fresh;
    if sent != [] {
      var e := sent[0];
      assert e in sent;
      InOrderStepRecords(st, o, e, events);
      if st.row.status == Replaced {
        ReplacedIsSilent(st, o, e);
      } else {
        ProcessKeepsShown(st, o, e, events);
      }
      InOrderRecords(Process(st, o, e), o, sent[1..], events);
    }
  }

  lemma {:induction false} PositionIsTheFoldOfBooked(st: State, start: Position, o: Order, events: seq<Event>)
    requires st.position == ApplyFills(start, st.booked)
    ensures ProcessAll(st, o, events).position == ApplyFills(start, ProcessAll(st, o, events).booked)
    decreases |events|
  {
    hide ApplyFill, Cas, Increment, AppendFill, FillRecord;
    if events != [] {
      var next := Process(st, o, events[0]);
      if next.booked != st.booked {
        var f := next.booked[|st.booked|];
        ApplyFillsConcat(start, st.booked, [f]);
        assert [f][1..] == [] && ApplyFills(st.position, [f]) == ApplyFill(st.position, f);
      }
      PositionIsTheFoldOfBooked(next, start, o, events[1..]);
    }
  }

  /** A fresh order: nothing booked, nothing recorded. */
  ghost predicate FreshOrder(st: State, o: Order) {
    && Fresh(st.row) && st.row.status != Replaced && st.booked == []
    && Known(st, o) && st.tables.ledgers[o.id].fills == []
  }

  /** Records and position tell the same story. */
  ghost predicate Agrees(st: State, start: Position, o: Order) {
    Known(st, o) && st.position == ApplyFills(start, Recorded(st, o))
  }

  /** The second booking of a refused fill reaches the position but not the records. */
  lemma RefusedFillLeavesTheRecords(st: State, o: Order, f: Event, start: Position)
    requires f.FillEvent? && !CasAccepts(st.row, f.update) && st.row.status != Replaced &&
             Increment(st.row, f.update) > 0
    requires Known(st, o)
    ensures var once := Process(st, o, f); !Agrees(once, start, o) || !Agrees(Process(once, o, f), start, o)
  {
    hide ApplyFill, CasAccepts, ApplyFills, RecordedFills;
    var once := Process(st, o, f);
    AppendLeavesTheId(st.tables, o.id,
                      FillRecord(o, f, once.booked[|st.booked|], once.position.realized - st.position.realized));
    FillIdIsNotEmpty(o, Reported(f));
    KnownFillIsNotRecorded(once, o, f, once.row);
    FillMovesQty(once.position, Fill(Increment(st.row, f.update), f.price, o.side));
  }

  lemma AppendLeavesTheId(tables: Store, id: string, r: FillData)
    requires id in tables.ledgers && r.fillId != ""
    ensures var after := AppendFill(tables, id, r); id in after.ledgers && HasFill(after.ledgers[id].fills, r.fillId)
  {
    hide InsertTrade;
    if !HasFill(tables.ledgers[id].fills, r.fillId) {
      var n := |tables.ledgers[id].fills|;
      assert AppendToLedger(tables.ledgers[id], r).fills[n].fillId == r.fillId;
    }
  }

  /** Over all deliveries with repetitions of a set of events to a fresh order, the position is what
      the fills recorded in the metadata imply if and only if the reports are in order: the append is
      idempotent by id, the position update is not. */
  lemma PositionMatchesRecordsIff(st: State, start: Position, o: Order, events: set<Event>)
    requires FreshOrder(st, o) && st.position == start && NonNegativeReports(events)
    ensures ReportsInOrder(events) <==>
      forall sent :: From(sent, events) ==> Agrees(ProcessAll(st, o, sent), start, o)
  {
    hide ProcessAll, Process, Agrees, Recorded;
    assert Recorded(st, o) == [] by { NothingRecorded(st, o); }
    if ReportsInOrder(events) {
      forall sent | From(sent, events)
        ensures Agrees(ProcessAll(st, o, sent), start, o)
      {
        InOrderRecords(st, o, sent, events);
        PositionIsTheFoldOfBooked(st, start, o, sent);
        SameFold(ProcessAll(st, o, sent), start, o);
      }
    } else {
      var e, f :| e in events && f in events && f.FillEvent? && CanShadow(e, f) && Reported(f) > Reported(e);
      ShadowedFillIsRefused(st, o, e, f);
      TwoOrThree(st, o, e, f);
      KnownStays(st, o, e);
      RefusedFillLeavesTheRecords(Process(st, o, e), o, f, start);
      assert From([e, f], events) && From([e, f, f], events);
    }
  }

  lemma NothingRecorded(st: State, o: Order)
    requires Known(st, o) && st.tables.ledgers[o.id].fills == []
    ensures Recorded(st, o) == []
  {
  }

  lemma SameFold(st: State, start: Position, o: Order)
    requires Known(st, o) && Recorded(st, o) == st.booked && st.position == ApplyFills(start, st.booked)
    ensures Agrees(st, start, o)
  {
  }

  lemma KnownStays(st: State, o: Order, e: Event)
    requires Known(st, o)
    ensures Known(Process(st, o, e), o)
  {
    hide ApplyFill, Cas, InsertTrade, AppendToLedger;
  }

  lemma TwoOrThree(st: State, o: Order, e: Event, f: Event)
    ensures ProcessAll(st, o, [e, f]) == Process(Process(st, o, e), o, f)
    ensures ProcessAll(st, o, [e, f, f]) == Process(Process(Process(st, o, e), o, f), o, f)
  {
    hide Process;
    assert [e, f][1..] == [f] && [f][1..] == [] && [e, f, f][1..] == [f, f] && [f, f][1..] == [f];
    var a := Process(st, o, e);
    assert ProcessAll(a, o, [f]) == Process(a, o, f);
    assert ProcessAll(Process(a, o, f), o, [f]) == Process(Process(a, o, f), o, f);
  }
}
