/** What the webhook books and records of the events it is sent, price by price. */
module WebhookRecords {
  import opened Base
  import opened OrderStatus
  import opened OrderStore
  import opened PositionMath
  import opened FillLedger
  import opened CasOrdering
  import opened OrderIds
  import opened WebhookFills

  // ---------------------------------------------------------------------------
  // The fills that a broker history books
  // ---------------------------------------------------------------------------

  /** The whole shares by which each fill event exceeds everything reported before it, at its own price. */
  function Increments(most: int, events: seq<Event>, side: Side): seq<Fill>
    decreases |events|
  {
    if events == [] then []
    else
      var e := events[0];
      if Reported(e) <= most then Increments(most, events[1..], side)
      else (if e.FillEvent? then [Fill(Reported(e) - most, e.price, side)] else [])
           + Increments(Reported(e), events[1..], side)
  }

  lemma StepBooks(st: State, o: Order, e: Event, batch: set<CasUpdate>)
    requires BrokerHistory(batch) && NonNegativeFills(batch) && e.update in batch
    requires Explained(st.row, batch) || (Fresh(st.row) && st.row.status != Replaced)
    ensures var most := WholeShares(st.row.filledQty);
            Process(st, o, e).booked ==
            st.booked + if e.FillEvent? && Reported(e) > most then [Fill(Reported(e) - most, e.price, o.side)] else []
  {
    hide ApplyFill, AppendFill, FillRecord, BrokerHistory, Explained, Cas;
    if st.row.status == Replaced {
      ReplacedCountsAll(st.row, e.update, batch);
      FloorMonotone(NewFilled(e.update), st.row.filledQty);
    }
  }

  lemma {:induction false} HistoryBooks(st: State, o: Order, events: seq<Event>, batch: set<CasUpdate>)
    requires BrokerHistory(batch) && NonNegativeFills(batch)
    requires forall e :: e in events ==> e.update in batch
    requires Explained(st.row, batch) || (Fresh(st.row) && st.row.status != Replaced)
    ensures ProcessAll(st, o, events).booked ==
            st.booked + Increments(WholeShares(st.row.filledQty), events, o.side)
    decreases |events|
  {
    hide BrokerHistory, Explained, Process, Fresh, Reported;
    if events != [] {
      var e, most := events[0], WholeShares(st.row.filledQty);
      assert e in events;
      StepBooks(st, o, e, batch);
      HistoryStep(st, o, e, batch);
      HistoryBooks(Process(st, o, e), o, events[1..], batch);
    }
  }

  /** However a broker history reaches a fresh order, the position moves by exactly the increments of the
      fill events over all that was reported before them, each at the price of its own event. */
  lemma HistoryMovesThePosition(st: State, o: Order, events: seq<Event>, batch: set<CasUpdate>)
    requires Fresh(st.row) && st.row.status != Replaced && st.booked == []
    requires BrokerHistory(batch) && NonNegativeFills(batch)
    requires forall e :: e in events ==> e.update in batch
    ensures ProcessAll(st, o, events).position == ApplyFills(st.position, Increments(0, events, o.side))
  {
    hide ApplyFills, Increments, ProcessAll, BrokerHistory;
    HistoryBooks(st, o, events, batch);
    assert st.position == ApplyFills(st.position, []) by { NothingApplied(st.position); }
    PositionIsTheFoldOfBooked(st, st.position, o, events);
    assert [] + Increments(0, events, o.side) == Increments(0, events, o.side);
  }

  lemma NothingApplied(p: Position)
    ensures ApplyFills(p, []) == p
  {
  }

  // ---------------------------------------------------------------------------
  // What the metadata records
  // ---------------------------------------------------------------------------

  /** A record that tells the fill event it comes from; quantity and P&L depend on what came before. */
  predicate TellsEvent(r: FillData, o: Order, e: Event) {
    && e.FillEvent? && r.fillId == o.id + "_" + IntText(Reported(e))
    && r.price == Some(e.price) && r.executedAt == e.executedAt
    && r.source == None && !r.synthetic && !r.superseded
  }

  ghost predicate TellsSome(r: FillData, o: Order, events: seq<Event>) {
    exists e :: e in events && TellsEvent(r, o, e)
  }

  lemma StepRecords(st: State, o: Order, e: Event)
    requires Known(st, o) && forall r :: r in st.tables.ledgers[o.id].fills ==> !r.synthetic
    ensures Known(Process(st, o, e), o)
    ensures forall r :: r in Process(st, o, e).tables.ledgers[o.id].fills ==>
              r in st.tables.ledgers[o.id].fills || TellsEvent(r, o, e)
  {
    hide ApplyFill, InsertTrade, Cas, HasFill, IntText;
    KnownStays(st, o, e);
    var fills := st.tables.ledgers[o.id].fills;
    forall r: FillData | !r.synthetic ensures SupersedeSynthetic(fills + [r]) == fills + [r] {
    }
  }

  /** Whatever the webhook is sent, each recorded fill tells one of the fill events: its id names the
      shares that event reported, and price and time are the event's. */
  lemma {:induction false} RecordsTellEvents(st: State, o: Order, events: seq<Event>)
    requires Known(st, o) && st.tables.ledgers[o.id].fills == []
    ensures Known(ProcessAll(st, o, events), o)
    ensures forall r :: r in ProcessAll(st, o, events).tables.ledgers[o.id].fills ==> TellsSome(r, o, events)
  {
    RecordsTell(st, o, [], events);
  }

  lemma {:induction false} RecordsTell(st: State, o: Order, before: seq<Event>, events: seq<Event>)
    requires Known(st, o) && forall r :: r in st.tables.ledgers[o.id].fills ==> TellsSome(r, o, before)
    ensures Known(ProcessAll(st, o, events), o)
    ensures forall r :: r in ProcessAll(st, o, events).tables.ledgers[o.id].fills ==> TellsSome(r, o, before + events)
    decreases |events|
  {
    hide Process, TellsEvent;
    if events == [] {
      assert before + events == before;
    } else {
      var e := events[0];
      TellingIsReal(st, o, before);
      StepRecords(st, o, e);
      forall r | r in Process(st, o, e).tables.ledgers[o.id].fills ensures TellsSome(r, o, before + [e]) {
        if r in st.tables.ledgers[o.id].fills {
          var x :| x in before && TellsEvent(r, o, x);
          assert x in before + [e];
        } else {
          assert e in before + [e];
        }
      }
      RecordsTell(Process(st, o, e), o, before + [e], events[1..]);
      assert before + [e] + events[1..] == before + events;
    }
  }

  lemma TellingIsReal(st: State, o: Order, before: seq<Event>)
    requires Known(st, o) && forall r :: r in st.tables.ledgers[o.id].fills ==> TellsSome(r, o, before)
    ensures forall r :: r in st.tables.ledgers[o.id].fills ==> !r.synthetic
  {
  }

  /** The order's realized total is what its fills moved the position's realized P&L by. */
  ghost predicate RealizedAgrees(st: State, start: Position, o: Order) {
    Known(st, o) && st.tables.ledgers[o.id].totalRealizedPl == st.position.realized - start.realized
  }

  lemma StepRealizes(st: State, start: Position, o: Order, e: Event, events: set<Event>)
    requires ReportsInOrder(events) && e in events && Known(st, o) && IdsCounted(st, o)
    requires ShownBy(st.row, events) || Fresh(st.row)
    requires RealizedAgrees(st, start, o)
    ensures RealizedAgrees(Process(st, o, e), start, o)
  {
    hide ReportsInOrder, ShownBy, CasAccepts, ApplyFill, FillId, InsertTrade, HasFill, Fresh, IdsCounted, Cas;
    KnownStays(st, o, e);
    if st.row.status != Replaced && e.FillEvent? && Increment(st.row, e.update) > 0 {
      NotCountedYet(st, o);
      LargerReportIsNew(st, o, Reported(e));
      FillIdIsNotEmpty(o, Reported(e));
    }
  }

  lemma NotCountedYet(st: State, o: Order)
    requires Known(st, o) && IdsCounted(st, o)
    ensures WholeShares(st.row.filledQty) >= 0
  {
    FloorMonotone(0.0, st.row.filledQty);
  }

  /** While reports are in order, an order's realized total is exactly the realized P&L that its fills
      brought the position, over all deliveries with repetitions. */
  lemma RealizedTotalIsThePositions(st: State, o: Order, sent: seq<Event>, events: set<Event>)
    requires FreshOrder(st, o) && st.tables.ledgers[o.id].totalRealizedPl == 0.0
    requires ReportsInOrder(events) && From(sent, events)
    ensures RealizedAgrees(ProcessAll(st, o, sent), st.position, o)
  {
    hide ProcessAll;
    NothingRecorded(st, o);
    InOrderRealizes(st, st.position, o, sent, events);
  }

  lemma {:induction false} InOrderRealizes(st: State, start: Position, o: Order, sent: seq<Event>, events: set<Event>)
    requires ReportsInOrder(events) && From(sent, events) && Known(st, o) && IdsCounted(st, o)
    requires ShownBy(st.row, events) || Fresh(st.row)
    requires Recorded(st, o) == st.booked && RealizedAgrees(st, start, o)
    ensures RealizedAgrees(ProcessAll(st, o, sent), start, o)
    decreases |sent|
  {
    hide ReportsInOrder, ShownBy, Process, Known, IdsCounted, Recorded, Fresh, RealizedAgrees;
    if sent != [] {
      var e := sent[0];
      assert e in sent;
      InOrderStepRecords(st, o, e, events);
      StepRealizes(st, start, o, e, events);
      if st.row.status == Replaced {
        ReplacedIsSilent(st, o, e);
      } else {
        ProcessKeepsShown(st, o, e, events);
      }
      InOrderRealizes(Process(st, o, e), start, o, sent[1..], events);
    }
  }
}
