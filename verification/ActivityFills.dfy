/** Fills read from the broker's account activities, beside those the webhook and reconciliation record. */
module ActivityFills {
  import opened Base
  import opened OrderStatus
  import opened OrderStore
  import opened PositionMath
  import opened FillLedger
  import opened CasOrdering
  import opened OrderIds
  import opened WebhookFills
  import opened SyntheticFills

  /** A FILL activity; an absent id is the empty text. */
  datatype Activity = Activity(id: string, brokerOrderId: string, qty: Option<real>, price: Option<real>, at: int)

  /** `generated` is the hash of the activity's fields that stands in for an absent id. */
  function ActivityFillId(a: Activity, generated: Activity -> string): string {
    if Strip(a.id) != "" then Strip(a.id) else generated(a)
  }

  /** Recorded as a real fill, without P&L. */
  function ActivityFill(a: Activity, generated: Activity -> string): FillData {
    FillData(ActivityFillId(a, generated), a.qty, a.price, 0.0, a.at, Some("alpaca_activity"), false, false)
  }

  // ---------------------------------------------------------------------------
  // One backfill
  // ---------------------------------------------------------------------------

  predicate Matches(a: Activity, orders: map<string, string>) {
    a.brokerOrderId != "" && a.brokerOrderId in orders
  }

  /** The fills of the activities that belong to a known order, in the order listed. */
  function Matched(listed: seq<Activity>, orders: map<string, string>, generated: Activity -> string): seq<Append>
    decreases |listed|
  {
    if listed == [] then []
    else
      var a := listed[|listed| - 1];
      Matched(listed[..|listed| - 1], orders, generated)
      + if Matches(a, orders) then [Append(orders[a.brokerOrderId], ActivityFill(a, generated))] else []
  }

  /** The fill that an activity's append carries: its quantity, price and time, no P&L, and its own id, or a
      generated one when that is blank. */
  predicate TellsActivity(x: Append, a: Activity, orders: map<string, string>, generated: Activity -> string) {
    && a.brokerOrderId != "" && a.brokerOrderId in orders && x.orderId == orders[a.brokerOrderId]
    && x.fill.qty == a.qty && x.fill.price == a.price && x.fill.executedAt == a.at
    && x.fill.realizedPl == 0.0 && x.fill.source == Some("alpaca_activity")
    && !x.fill.synthetic && !x.fill.superseded
    && x.fill.fillId == if Strip(a.id) == "" then generated(a) else Strip(a.id)
  }

  /** Every append tells a listed activity, and every listed activity of a known order has its append. */
  lemma {:induction false} MatchedTellsActivities(listed: seq<Activity>, orders: map<string, string>,
                                                  generated: Activity -> string)
    ensures forall x :: x in Matched(listed, orders, generated) ==>
              exists a :: a in listed && TellsActivity(x, a, orders, generated)
    ensures forall a :: a in listed && a.brokerOrderId != "" && a.brokerOrderId in orders ==>
              exists x :: x in Matched(listed, orders, generated) && TellsActivity(x, a, orders, generated)
    decreases |listed|
  {
    hide Strip;
    if listed != [] {
      var n := |listed| - 1;
      var rest, a := listed[..n], listed[n];
      MatchedTellsActivities(rest, orders, generated);
      assert listed == rest + [a];
      if Matches(a, orders) {
        var x := Append(orders[a.brokerOrderId], ActivityFill(a, generated));
        assert TellsActivity(x, a, orders, generated) && x in Matched(listed, orders, generated);
      }
    }
  }

  function FillsOf(appends: seq<Append>, orderId: string): seq<FillData>
    decreases |appends|
  {
    if appends == [] then []
    else (if appends[0].orderId == orderId then [appends[0].fill] else []) + FillsOf(appends[1..], orderId)
  }

  function ToOrder(orderId: string, fills: seq<FillData>): seq<Append> {
    seq(|fills|, i requires 0 <= i < |fills| => Append(orderId, fills[i]))
  }

  /** The orders in the order of their first fill. */
  function FirstSeen(appends: seq<Append>): seq<string>
    decreases |appends|
  {
    if appends == [] then []
    else
      var before, o := FirstSeen(appends[..|appends| - 1]), appends[|appends| - 1].orderId;
      if o in before then before else before + [o]
  }

  function Grouped(appends: seq<Append>, orders: seq<string>): seq<Append>
    decreases |orders|
  {
    if orders == [] then []
    else
      var last := orders[|orders| - 1];
      Grouped(appends, orders[..|orders| - 1]) + ToOrder(last, FillsOf(appends, last))
  }

  /** How many of the appends go through. */
  ghost function Inserted(st: Store, appends: seq<Append>): nat
    decreases |appends|
  {
    if appends == [] then 0
    else
      var a := appends[0];
      (if Appends(st, a.orderId, a.fill) then 1 else 0) + Inserted(AppendFill(st, a.orderId, a.fill), appends[1..])
  }

  lemma {:induction false} AppendAllConcat(st: Store, first: seq<Append>, second: seq<Append>)
    ensures AppendAll(st, first + second) == AppendAll(AppendAll(st, first), second)
    ensures Inserted(st, first + second) == Inserted(st, first) + Inserted(AppendAll(st, first), second)
    decreases |first|
  {
    hide AppendFill, Appends;
    if first == [] {
      assert first + second == second;
    } else {
      assert (first + second)[1..] == first[1..] + second;
      AppendAllConcat(AppendFill(st, first[0].orderId, first[0].fill), first[1..], second);
    }
  }

  lemma {:induction false} FillsOfConcat(first: seq<Append>, second: seq<Append>, orderId: string)
    ensures FillsOf(first + second, orderId) == FillsOf(first, orderId) + FillsOf(second, orderId)
    decreases |first|
  {
    if first == [] {
      assert first + second == second;
    } else {
      var all, head := first + second, if first[0].orderId == orderId then [first[0].fill] else [];
      assert all[0] == first[0] && all[1..] == first[1..] + second;
      FillsOfConcat(first[1..], second, orderId);
      var a, b := FillsOf(first[1..], orderId), FillsOf(second, orderId);
      assert FillsOf(all, orderId) == head + (a + b) == (head + a) + b;
    }
  }

  lemma NothingAppended(st: Store)
    ensures AppendAll(st, []) == st && Inserted(st, []) == 0
  {
  }

  lemma OneAppendAll(st: Store, a: Append)
    ensures AppendAll(st, [a]) == AppendFill(st, a.orderId, a.fill)
    ensures Inserted(st, [a]) == if Appends(st, a.orderId, a.fill) then 1 else 0
  {
    hide AppendFill, Appends;
    var next := AppendFill(st, a.orderId, a.fill);
    assert [a][1..] == [] && AppendAll(next, []) == next;
  }

  lemma FirstSeenAppend(appends: seq<Append>, a: Append)
    ensures FirstSeen(appends + [a]) ==
            if a.orderId in FirstSeen(appends) then FirstSeen(appends) else FirstSeen(appends) + [a.orderId]
    ensures forall o :: FillsOf(appends + [a], o) == FillsOf(appends, o) + if a.orderId == o then [a.fill] else []
  {
    assert (appends + [a])[..|appends|] == appends;
    forall o ensures FillsOf(appends + [a], o) == FillsOf(appends, o) + if a.orderId == o then [a.fill] else [] {
      FillsOfConcat(appends, [a], o);
      assert FillsOf([a][1..], o) == [];
    }
  }

  lemma NothingMatched(orders: map<string, string>, generated: Activity -> string)
    ensures Matched([], orders, generated) == [] && FirstSeen([]) == [] && forall o :: FillsOf([], o) == []
  {
  }

  lemma MatchedStep(listed: seq<Activity>, k: nat, orders: map<string, string>, generated: Activity -> string)
    requires k < |listed|
    ensures Matched(listed[..k + 1], orders, generated) ==
            Matched(listed[..k], orders, generated) +
            if Matches(listed[k], orders)
            then [Append(orders[listed[k].brokerOrderId], ActivityFill(listed[k], generated))]
            else []
  {
    assert listed[..k + 1][..k] == listed[..k];
  }

  class ActivityBackfill {
    const tables: FillTables

    constructor (tables: FillTables)
      ensures this.tables == tables
    {
      this.tables := tables;
    }

    /** Matches the listed activities to orders, groups their fills by order, and appends them. */
    method BackfillAlpacaFills(listed: seq<Activity>, orders: map<string, string>, generated: Activity -> string)
      returns (inserted: nat, unmatched: nat)
      modifies tables
      ensures var matched := Matched(listed, orders, generated);
        && tables.State() == AppendAll(old(tables.State()), Grouped(matched, FirstSeen(matched)))
        && inserted == Inserted(old(tables.State()), Grouped(matched, FirstSeen(matched)))
        && unmatched == |listed| - |matched|
    {
      hide AppendFill, Appends, ActivityFill, Matched, FirstSeen, FillsOf, ToOrder, AppendAll, Inserted;
      var clients, byClient, unmatchedCount := GroupByOrder(listed, orders, generated);
      unmatched := unmatchedCount;
      ghost var matched, start := Matched(listed, orders, generated), tables.State();
      NothingAppended(start);
      inserted := 0;
      for c := 0 to |clients|
        invariant tables.State() == AppendAll(start, Grouped(matched, clients[..c]))
        invariant inserted == Inserted(start, Grouped(matched, clients[..c]))
      {
        assert clients[..c + 1][..c] == clients[..c] && clients[c] in clients;
        var count := AppendItems(clients[c], byClient[clients[c]]);
        AppendAllConcat(start, Grouped(matched, clients[..c]), ToOrder(clients[c], byClient[clients[c]]));
        inserted := inserted + count;
      }
      assert clients[..|clients|] == clients;
    }

    /** The dictionary of fills by order, with its keys in insertion order. */
    method GroupByOrder(listed: seq<Activity>, orders: map<string, string>, generated: Activity -> string)
      returns (clients: seq<string>, byClient: map<string, seq<FillData>>, unmatched: nat)
      ensures var matched := Matched(listed, orders, generated);
        && clients == FirstSeen(matched) && unmatched == |listed| - |matched|
        && forall o :: o in clients ==> o in byClient && byClient[o] == FillsOf(matched, o)
    {
      hide ActivityFill, Matched, FirstSeen, FillsOf;
      clients, byClient, unmatched := [], map[], 0;
      ghost var matched: seq<Append> := [];
      NothingMatched(orders, generated);
      for k := 0 to |listed|
        invariant matched == Matched(listed[..k], orders, generated)
        invariant unmatched == k - |matched|
        invariant clients == FirstSeen(matched)
        invariant forall o :: o in clients <==> o in byClient
        invariant forall o :: o in byClient ==> byClient[o] == FillsOf(matched, o)
        invariant forall o :: o !in byClient ==> FillsOf(matched, o) == []
      {
        MatchedStep(listed, k, orders, generated);
        var a := listed[k];
        if a.brokerOrderId == "" || a.brokerOrderId !in orders {
          unmatched := unmatched + 1;
        } else {
          var client, fill := orders[a.brokerOrderId], ActivityFill(a, generated);
          FirstSeenAppend(matched, Append(client, fill));
          matched := matched + [Append(client, fill)];
          if client !in byClient {
            clients := clients + [client];
            byClient := byClient[client := []];
          }
          byClient := byClient[client := byClient[client] + [fill]];
        }
      }
      assert listed[..|listed|] == listed;
    }

    method AppendItems(client: string, items: seq<FillData>) returns (inserted: nat)
      modifies tables
      ensures tables.State() == AppendAll(old(tables.State()), ToOrder(client, items))
      ensures inserted == Inserted(old(tables.State()), ToOrder(client, items))
    {
      hide AppendFill, Appends, AppendAll, Inserted;
      ghost var start := tables.State();
      inserted := 0;
      NothingAppended(start);
      assert ToOrder(client, items[..0]) == [];
      for i := 0 to |items|
        invariant tables.State() == AppendAll(start, ToOrder(client, items[..i]))
        invariant inserted == Inserted(start, ToOrder(client, items[..i]))
      {
        ghost var done, next := ToOrder(client, items[..i]), Append(client, items[i]);
        assert ToOrder(client, items[..i + 1]) == done + [next];
        AppendAllConcat(start, done, [next]);
        OneAppendAll(tables.State(), next);
        var updated := tables.AppendFillToOrderMetadata(client, items[i]);
        if updated.Some? {
          inserted := inserted + 1;
        }
      }
      assert items[..|items|] == items;
    }
  }

  // ---------------------------------------------------------------------------
  // The ledgers do not notice the grouping
  // ---------------------------------------------------------------------------

  function LedgerAfter(ledger: OrderLedger, fills: seq<FillData>): OrderLedger
    decreases |fills|
  {
    if fills == [] then ledger
    else
      LedgerAfter(if fills[0].fillId == "" || HasFill(ledger.fills, fills[0].fillId) then ledger
                  else AppendToLedger(ledger, fills[0]), fills[1..])
  }

  /** An order's ledger depends on its own appends only. */
  lemma {:induction false} OwnAppendsDecide(st: Store, appends: seq<Append>, orderId: string)
    requires orderId in st.ledgers
    ensures orderId in AppendAll(st, appends).ledgers
    ensures AppendAll(st, appends).ledgers[orderId] == LedgerAfter(st.ledgers[orderId], FillsOf(appends, orderId))
    decreases |appends|
  {
    hide HasFill, AppendToLedger, InsertTrade;
    if appends != [] {
      var a, rest := appends[0], FillsOf(appends[1..], orderId);
      OwnAppendsDecide(AppendFill(st, a.orderId, a.fill), appends[1..], orderId);
      assert ([a.fill] + rest)[1..] == rest && [] + rest == rest;
    }
  }

  lemma {:induction false} FillsOfToOrder(orderId: string, fills: seq<FillData>, o: string)
    ensures FillsOf(ToOrder(orderId, fills), o) == if o == orderId then fills else []
    decreases |fills|
  {
    if fills != [] {
      assert ToOrder(orderId, fills)[1..] == ToOrder(orderId, fills[1..]);
      FillsOfToOrder(orderId, fills[1..], o);
    }
  }

  lemma {:induction false} FillsOfGrouped(appends: seq<Append>, orders: seq<string>, o: string)
    requires forall i, j :: 0 <= i < j < |orders| ==> orders[i] != orders[j]
    ensures FillsOf(Grouped(appends, orders), o) == if o in orders then FillsOf(appends, o) else []
    decreases |orders|
  {
    if orders != [] {
      var n := |orders| - 1;
      var rest, last := orders[..n], orders[n];
      assert orders == rest + [last];
      FillsOfGrouped(appends, rest, o);
      FillsOfConcat(Grouped(appends, rest), ToOrder(last, FillsOf(appends, last)), o);
      FillsOfToOrder(last, FillsOf(appends, last), o);
    }
  }

  lemma {:induction false} FirstSeenIsASet(appends: seq<Append>)
    ensures forall i, j :: 0 <= i < j < |FirstSeen(appends)| ==> FirstSeen(appends)[i] != FirstSeen(appends)[j]
    ensures forall o :: o !in FirstSeen(appends) ==> FillsOf(appends, o) == []
    decreases |appends|
  {
    if appends != [] {
      var n := |appends| - 1;
      assert appends == appends[..n] + [appends[n]];
      FirstSeenIsASet(appends[..n]);
      FirstSeenAppend(appends[..n], appends[n]);
    }
  }

  /** Grouping by order leaves every ledger as if the fills had been appended in the order listed. */
  lemma GroupingKeepsLedgers(st: Store, appends: seq<Append>, orderId: string)
    requires orderId in st.ledgers
    ensures var grouped := AppendAll(st, Grouped(appends, FirstSeen(appends)));
            orderId in grouped.ledgers && orderId in AppendAll(st, appends).ledgers &&
            grouped.ledgers[orderId] == AppendAll(st, appends).ledgers[orderId]
  {
    FirstSeenIsASet(appends);
    FillsOfGrouped(appends, FirstSeen(appends), orderId);
    OwnAppendsDecide(st, appends, orderId);
    OwnAppendsDecide(st, Grouped(appends, FirstSeen(appends)), orderId);
  }

  // ---------------------------------------------------------------------------
  // Three writers of one order's fills
  // ---------------------------------------------------------------------------

  datatype Deed = Hook(event: Event) | FromActivity(activity: Activity) | Reconciled(filled: Filled)

  /** An order with the hash of id-less activities and the text of fractions. */
  datatype Sources = Sources(order: Order, generated: Activity -> string, fraction: real -> string)
  {
    function Do(st: State, d: Deed): State {
      match d
      case Hook(e) => Process(st, order, e)
      case FromActivity(a) => st.(tables := AppendFill(st.tables, order.id, ActivityFill(a, generated)))
      case Reconciled(r) => st.(tables := Reconcile(st.tables, order.id, r, fraction))
    }

    ghost function Run(st: State, deeds: seq<Deed>): State
      decreases |deeds|
    {
      if deeds == [] then st else Run(Do(st, deeds[0]), deeds[1..])
    }

    /** Quantity of the activities, each id once. */
    ghost function ActivityQty(deeds: seq<Deed>, seen: set<string>): real
      decreases |deeds|
    {
      if deeds == [] then 0.0
      else if !deeds[0].FromActivity? then ActivityQty(deeds[1..], seen)
      else
        var fill := ActivityFill(deeds[0].activity, generated);
        (if fill.fillId in seen then 0.0 else Counted(fill)) + ActivityQty(deeds[1..], seen + {fill.fillId})
    }

    /** Ids that neither the webhook nor reconciliation gives to a fill of this order. */
    ghost predicate Foreign(id: string) {
      id != "" && !OfReconciliation(order.id, id) && forall k: nat :: id != FillId(order, k)
    }

    ghost predicate ForeignActivities(deeds: seq<Deed>) {
      forall k :: 0 <= k < |deeds| && deeds[k].FromActivity? ==>
        Foreign(ActivityFillId(deeds[k].activity, generated))
    }

    ghost predicate HooksFrom(deeds: seq<Deed>, events: set<Event>) {
      forall k :: 0 <= k < |deeds| && deeds[k].Hook? ==> deeds[k].event in events
    }

    /** Every id on the order is an activity's, reconciliation's, or names whole shares the row counts. */
    ghost predicate IdsExplained(st: State, seen: set<string>) {
      && Known(st, order) && st.row.filledQty >= 0.0
      && (forall id :: id in seen ==> Foreign(id))
      && seen <= Ids(st.tables.ledgers[order.id].fills)
      && forall id :: id in Ids(st.tables.ledgers[order.id].fills) ==>
           id in seen || OfReconciliation(order.id, id) || NamesCounted(st.row, id)
    }

    ghost predicate NamesCounted(row: OrderRow, id: string) {
      exists k: nat :: k <= WholeShares(row.filledQty) && id == FillId(order, k)
    }
  }

  predicate OfReconciliation(orderId: string, id: string) {
    |id| > |orderId| + 1 && id[|orderId| + 1] == 'r'
  }

  function Ids(fills: seq<FillData>): set<string> {
    set f | f in fills :: f.fillId
  }

  /** Live shares that real fills record. */
  function RealQty(st: State, o: Order): real
    requires Known(st, o)
  {
    LiveQtyOf(st.tables.ledgers[o.id].fills, false)
  }

  lemma {:induction false} SupersedingKeepsReal(fills: seq<FillData>)
    ensures LiveQtyOf(SupersedeSynthetic(fills), false) == LiveQtyOf(fills, false)
    decreases |fills|
  {
    if fills != [] {
      var n := |fills| - 1;
      assert SupersedeSynthetic(fills)[..n] == SupersedeSynthetic(fills[..n]);
      SupersedingKeepsReal(fills[..n]);
    }
  }

  lemma SameIds(fills: seq<FillData>)
    ensures Ids(SupersedeSynthetic(fills)) == Ids(fills)
  {
    var marked := SupersedeSynthetic(fills);
    forall f | f in fills ensures f.fillId in Ids(marked) {
      var i :| 0 <= i < |fills| && fills[i] == f;
      assert marked[i] in marked;
    }
  }

  lemma HasFillIffId(fills: seq<FillData>, id: string)
    ensures HasFill(fills, id) <==> id in Ids(fills)
  {
    if id in Ids(fills) {
      var g :| g in fills && g.fillId == id;
      var i :| 0 <= i < |fills| && fills[i] == g;
    }
  }

  /** One append: dropped when the id is there, otherwise the fill's id and its real shares are added. */
  lemma AppendOutcome(st: Store, orderId: string, f: FillData)
    requires orderId in st.ledgers && f.fillId != ""
    ensures var before, next := st.ledgers[orderId].fills, AppendFill(st, orderId, f);
      && orderId in next.ledgers
      && (f.fillId in Ids(before) ==> next == st)
      && Ids(next.ledgers[orderId].fills) == Ids(before) + {f.fillId}
      && LiveQtyOf(next.ledgers[orderId].fills, false) ==
         LiveQtyOf(before, false) + if f.synthetic || f.fillId in Ids(before) then 0.0 else Counted(f)
  {
    hide InsertTrade;
    var fills := st.ledgers[orderId].fills;
    HasFillIffId(fills, f.fillId);
    SupersedingKeepsReal(fills + [f]);
    SameIds(fills + [f]);
    hide HasFill, LiveQtyOf, LiveQty, SupersedeSynthetic;
    assert Ids(fills + [f]) == Ids(fills) + {f.fillId};
    LiveOfOneMore(fills, f);
  }

  lemma FillIdsAreTheirOwn(o: Order, k: nat)
    ensures FillId(o, k) != "" && !OfReconciliation(o.id, FillId(o, k))
  {
    hide Digits, Value;
    DigitsReadBack(k);
    assert FillId(o, k)[|o.id| + 1] == Digits(k)[0] && Digits(k)[0] in Digits(k);
  }

  lemma SyntheticIdsAreTheirOwn(orderId: string, r: Filled, missing: real, fraction: real -> string)
    ensures var id := SyntheticId(orderId, r.path, r.qty, missing, fraction); id != "" && OfReconciliation(orderId, id)
  {
    hide QtyText;
    assert SyntheticId(orderId, r.path, r.qty, missing, fraction)[|orderId| + 1] == IdPrefix(r.path)[0];
  }

  lemma NamesStay(s: Sources, row: OrderRow, next: OrderRow)
    requires row.filledQty <= next.filledQty
    ensures forall id :: s.NamesCounted(row, id) ==> s.NamesCounted(next, id)
  {
    hide FillId;
    FloorMonotone(row.filledQty, next.filledQty);
  }

  /** A fill beyond the row's count is new to the metadata, so it is recorded as it is booked. */
  lemma BookingAdds(s: Sources, st: State, e: Event, row: OrderRow, seen: set<string>)
    requires e.FillEvent? && s.IdsExplained(st, seen) && Increment(st.row, e.update) > 0
    requires row.filledQty >= st.row.filledQty && row.filledQty >= NewFilled(e.update)
    ensures var next := Book(st, s.order, e, row);
      && s.IdsExplained(next, seen)
      && RealQty(next, s.order) - Shares(next.booked) as real == RealQty(st, s.order) - Shares(st.booked) as real
  {
    hide FillId, ApplyFill, AppendFill, LiveQtyOf, Ids, OfReconciliation;
    FloorMonotone(0.0, st.row.filledQty);
    FloorMonotone(NewFilled(e.update), row.filledQty);
    var whole: nat := Reported(e);
    FillIdsAreTheirOwn(s.order, whole);
    var next := Book(st, s.order, e, row);
    var f := Fill(Increment(st.row, e.update), e.price, s.order.side);
    var r := FillRecord(s.order, e, f, next.position.realized - st.position.realized);
    SharesSnoc(st.booked, f);
    AppendOutcome(st.tables, s.order.id, r);
    if s.NamesCounted(st.row, r.fillId) {
      var k: nat :| k <= WholeShares(st.row.filledQty) && r.fillId == FillId(s.order, k);
      FillIdReadsBack(s.order, k, whole);
    }
    NamesStay(s, st.row, row);
    assert s.NamesCounted(row, r.fillId);
  }

  lemma HookStep(s: Sources, st: State, e: Event, events: set<Event>, seen: set<string>)
    requires ReportsInOrder(events) && e in events && (ShownBy(st.row, events) || Fresh(st.row))
    requires s.IdsExplained(st, seen)
    ensures var next := Process(st, s.order, e);
      && s.IdsExplained(next, seen)
      && RealQty(next, s.order) - Shares(next.booked) as real == RealQty(st, s.order) - Shares(st.booked) as real
  {
    hide ReportsInOrder, ShownBy, CasAccepts, ApplyFill, AppendFill, FillRecord, Fresh, RealQty, Ids, Book;
    if st.row.status != Replaced {
      FilledAfter(st.row, e.update);
      var row := Cas(st.row, e.update);
      if e.FillEvent? && Increment(st.row, e.update) > 0 {
        if !CasAccepts(st.row, e.update) {
          RefusedFillAddsNothing(st.row, e, events);
        }
        BookingAdds(s, st, e, row, seen);
      } else {
        NamesStay(s, st.row, row);
        SameTables(s, st, row);
      }
    }
  }

  lemma SameTables(s: Sources, st: State, row: OrderRow)
    requires Known(st, s.order)
    ensures Known(st.(row := row), s.order) && RealQty(st.(row := row), s.order) == RealQty(st, s.order)
  {
  }

  /** An activity adds its shares unless its id is on the order. */
  lemma ActivityStep(s: Sources, st: State, a: Activity, seen: set<string>)
    requires s.IdsExplained(st, seen) && s.Foreign(ActivityFillId(a, s.generated))
    ensures var next, fill := s.Do(st, FromActivity(a)), ActivityFill(a, s.generated);
      && s.IdsExplained(next, seen + {fill.fillId})
      && RealQty(next, s.order) == RealQty(st, s.order) + if fill.fillId in seen then 0.0 else Counted(fill)
  {
    hide AppendFill, LiveQtyOf, Ids, FillId, OfReconciliation;
    AppendOutcome(st.tables, s.order.id, ActivityFill(a, s.generated));
  }

  lemma ReconciledStep(s: Sources, st: State, r: Filled, seen: set<string>)
    requires s.IdsExplained(st, seen)
    ensures var next := s.Do(st, Reconciled(r));
      s.IdsExplained(next, seen) && RealQty(next, s.order) == RealQty(st, s.order)
  {
    hide AppendFill, LiveQtyOf, LiveQty, Ids, FillId, SyntheticId, OfReconciliation;
    var gap := Gap(st.tables.ledgers[s.order.id].fills, r.qty);
    if gap.Some? {
      SyntheticIdsAreTheirOwn(s.order.id, r, gap.value, s.fraction);
      AppendOutcome(st.tables, s.order.id, SyntheticFill(s.order.id, r, gap.value, s.fraction));
    }
  }

  lemma {:induction false} RunAddsActivities(s: Sources, st: State, deeds: seq<Deed>, events: set<Event>,
                                             seen: set<string>)
    requires ReportsInOrder(events) && s.HooksFrom(deeds, events) && s.ForeignActivities(deeds)
    requires ShownBy(st.row, events) || Fresh(st.row)
    requires s.IdsExplained(st, seen)
    ensures var final := s.Run(st, deeds);
      && Known(final, s.order)
      && RealQty(final, s.order) - Shares(final.booked) as real ==
         RealQty(st, s.order) - Shares(st.booked) as real + s.ActivityQty(deeds, seen)
    decreases |deeds|
  {
    hide ReportsInOrder, ShownBy, Fresh, Process, RealQty, Sources.IdsExplained, Sources.Foreign, AppendFill, Reconcile;
    if deeds == [] {
      ExplainedIsKnown(s, st, seen);
    } else {
      var next := s.Do(st, deeds[0]);
      var seenNext := seen;
      match deeds[0] {
        case Hook(e) =>
          HookStep(s, st, e, events, seen);
          if st.row.status == Replaced {
            ReplacedIsSilent(st, s.order, e);
          } else {
            ProcessKeepsShown(st, s.order, e, events);
          }
        case FromActivity(a) =>
          ActivityStep(s, st, a, seen);
          seenNext := seen + {ActivityFillId(a, s.generated)};
        case Reconciled(r) =>
          ReconciledStep(s, st, r, seen);
      }
      RunAddsActivities(s, next, deeds[1..], events, seenNext);
    }
  }

  lemma ExplainedIsKnown(s: Sources, st: State, seen: set<string>)
    requires s.IdsExplained(st, seen)
    ensures Known(st, s.order)
  {
  }

  /** Over every interleaving of webhook events, activity backfills and reconciliation of a fresh order,
      the live real shares are those the webhook booked and those of the activities, each id once. */
  lemma RealQtyIsBothSources(s: Sources, st: State, deeds: seq<Deed>, events: set<Event>)
    requires FreshOrder(st, s.order) && ReportsInOrder(events)
    requires s.HooksFrom(deeds, events) && s.ForeignActivities(deeds)
    ensures var final := s.Run(st, deeds);
      && Known(final, s.order)
      && RealQty(final, s.order) == Shares(final.booked) as real + s.ActivityQty(deeds, {})
  {
    RunAddsActivities(s, st, deeds, events, {});
  }

  // ---------------------------------------------------------------------------
  // Against the broker's executions
  // ---------------------------------------------------------------------------

  /** What the broker executed, in order; the id is that of its activity. */
  datatype Execution = Execution(id: string, qty: real)

  ghost predicate DistinctIds(xs: seq<Execution>) {
    forall i, j :: 0 <= i < j < |xs| ==> xs[i].id != xs[j].id
  }

  /** What the broker counts as filled after `n` executions. */
  function Total(xs: seq<Execution>, n: nat): real
    requires n <= |xs|
  {
    if n == 0 then 0.0 else Total(xs, n - 1) + xs[n - 1].qty
  }

  /** Quantity of the executions from `m` up to `n` whose ids are, or are not, among `ids`. */
  function QtyAmong(xs: seq<Execution>, m: nat, n: nat, ids: set<string>, among: bool): real
    requires m <= n <= |xs|
    decreases n
  {
    if n == m then 0.0
    else QtyAmong(xs, m, n - 1, ids, among) + if (xs[n - 1].id in ids) == among then xs[n - 1].qty else 0.0
  }

  ghost predicate OfExecution(a: Activity, generated: Activity -> string, xs: seq<Execution>) {
    exists i :: 0 <= i < |xs| && xs[i].id == ActivityFillId(a, generated) && a.qty == Some(xs[i].qty)
  }

  ghost predicate OfExecutions(s: Sources, deeds: seq<Deed>, xs: seq<Execution>) {
    forall k :: 0 <= k < |deeds| && deeds[k].FromActivity? ==> OfExecution(deeds[k].activity, s.generated, xs)
  }

  function ActivityIds(s: Sources, deeds: seq<Deed>): set<string> {
    set d | d in deeds && d.FromActivity? :: ActivityFillId(d.activity, s.generated)
  }

  lemma {:induction false} OneMoreId(xs: seq<Execution>, n: nat, ids: set<string>, i: nat)
    requires n <= |xs| && i < |xs| && DistinctIds(xs) && xs[i].id !in ids
    ensures QtyAmong(xs, 0, n, ids + {xs[i].id}, true) ==
            QtyAmong(xs, 0, n, ids, true) + if i < n then xs[i].qty else 0.0
    decreases n
  {
    if n > 0 {
      OneMoreId(xs, n - 1, ids, i);
    }
  }

  lemma {:induction false} NoIds(xs: seq<Execution>, n: nat)
    requires n <= |xs|
    ensures QtyAmong(xs, 0, n, {}, true) == 0.0
    decreases n
  {
    if n > 0 {
      NoIds(xs, n - 1);
    }
  }

  lemma {:induction false} ActivityQtyIsThatOfExecutions(s: Sources, deeds: seq<Deed>, xs: seq<Execution>,
                                                         seen: set<string>)
    requires DistinctIds(xs) && OfExecutions(s, deeds, xs)
    ensures s.ActivityQty(deeds, seen) == QtyAmong(xs, 0, |xs|, ActivityIds(s, deeds) - seen, true)
    decreases |deeds|
  {
    hide DistinctIds, QtyAmong;
    var ids := ActivityIds(s, deeds);
    if deeds == [] {
      assert ids - seen == {};
      NoIds(xs, |xs|);
    } else {
      var rest := deeds[1..];
      if deeds[0].FromActivity? {
        var a := deeds[0].activity;
        var id := ActivityFillId(a, s.generated);
        assert OfExecution(a, s.generated, xs);
        assert ids == ActivityIds(s, rest) + {id};
        ActivityQtyIsThatOfExecutions(s, rest, xs, seen + {id});
        var left := ActivityIds(s, rest) - (seen + {id});
        if id in seen {
          assert ids - seen == left;
        } else {
          var i :| 0 <= i < |xs| && xs[i].id == id && a.qty == Some(xs[i].qty);
          assert ids - seen == left + {id};
          OneMoreId(xs, |xs|, left, i);
        }
      } else {
        ActivityQtyIsThatOfExecutions(s, rest, xs, seen);
        assert ids == ActivityIds(s, rest);
      }
    }
  }

  lemma {:induction false} AmongSplits(xs: seq<Execution>, m: nat, n: nat, ids: set<string>)
    requires m <= n <= |xs|
    ensures QtyAmong(xs, 0, n, ids, true) == QtyAmong(xs, 0, m, ids, true) + QtyAmong(xs, m, n, ids, true)
    ensures QtyAmong(xs, m, n, ids, true) + QtyAmong(xs, m, n, ids, false) == Total(xs, n) - Total(xs, m)
    decreases n
  {
    if n > m {
      AmongSplits(xs, m, n - 1, ids);
    }
  }

  lemma {:induction false} AmongIsZeroIff(xs: seq<Execution>, m: nat, n: nat, ids: set<string>, among: bool)
    requires m <= n <= |xs| && forall i :: 0 <= i < |xs| ==> xs[i].qty > 0.0
    ensures QtyAmong(xs, m, n, ids, among) >= 0.0
    ensures QtyAmong(xs, m, n, ids, among) == 0.0 <==> forall i :: m <= i < n ==> (xs[i].id in ids) != among
    decreases n
  {
    if n > m {
      AmongIsZeroIff(xs, m, n - 1, ids, among);
    }
  }

  /** With the first `m` executions booked through the webhook, in whole shares, and some executions read
      back as activities, the live real shares are the broker's if and only if the executions recorded
      twice weigh as much as those recorded by neither and the fraction the webhook drops. */
  lemma SourcesAgreeIff(s: Sources, st: State, deeds: seq<Deed>, events: set<Event>, xs: seq<Execution>, m: nat)
    requires FreshOrder(st, s.order) && ReportsInOrder(events)
    requires s.HooksFrom(deeds, events) && s.ForeignActivities(deeds)
    requires DistinctIds(xs) && OfExecutions(s, deeds, xs)
    requires m <= |xs| && Shares(s.Run(st, deeds).booked) == Total(xs, m).Floor
    ensures var final, ids := s.Run(st, deeds), ActivityIds(s, deeds);
      && Known(final, s.order)
      && (RealQty(final, s.order) == Total(xs, |xs|) <==>
          QtyAmong(xs, 0, m, ids, true) ==
          QtyAmong(xs, m, |xs|, ids, false) + (Total(xs, m) - Total(xs, m).Floor as real))
  {
    hide ReportsInOrder, FreshOrder, RealQty, QtyAmong, Total, DistinctIds, OfExecutions, Sources.Run,
         Sources.ActivityQty;
    hide Sources.HooksFrom, Sources.ForeignActivities, Known, Shares;
    var ids := ActivityIds(s, deeds);
    RealQtyIsBothSources(s, st, deeds, events);
    ActivityQtyIsThatOfExecutions(s, deeds, xs, {});
    assert ids - {} == ids;
    AmongSplits(xs, m, |xs|, ids);
  }

  /** Whole shares and nothing missed: the broker's quantity if and only if no execution is recorded
      by both. */
  lemma EachRecordedOnceIff(s: Sources, st: State, deeds: seq<Deed>, events: set<Event>, xs: seq<Execution>, m: nat)
    requires FreshOrder(st, s.order) && ReportsInOrder(events)
    requires s.HooksFrom(deeds, events) && s.ForeignActivities(deeds)
    requires DistinctIds(xs) && OfExecutions(s, deeds, xs) && forall i :: 0 <= i < |xs| ==> xs[i].qty > 0.0
    requires m <= |xs| && Shares(s.Run(st, deeds).booked) as real == Total(xs, m)
    requires forall i :: m <= i < |xs| ==> xs[i].id in ActivityIds(s, deeds)
    ensures var final := s.Run(st, deeds);
      && Known(final, s.order)
      && RealQty(final, s.order) >= Total(xs, |xs|)
      && (RealQty(final, s.order) == Total(xs, |xs|) <==>
          forall i :: 0 <= i < m ==> xs[i].id !in ActivityIds(s, deeds))
  {
    hide ReportsInOrder, FreshOrder, RealQty, QtyAmong, Total, DistinctIds, OfExecutions, Sources.Run,
         Sources.ActivityQty;
    hide Sources.HooksFrom, Sources.ForeignActivities, Known, Shares;
    var ids := ActivityIds(s, deeds);
    RealQtyIsBothSources(s, st, deeds, events);
    ActivityQtyIsThatOfExecutions(s, deeds, xs, {});
    assert ids - {} == ids;
    AmongSplits(xs, m, |xs|, ids);
    AmongIsZeroIff(xs, 0, m, ids, true);
    AmongIsZeroIff(xs, m, |xs|, ids, false);
  }

  /** Ten shares that the webhook recorded and an activity records again. */
  lemma ExecutionIsLiveTwice(s: Sources, st: State, e: Event, a: Activity)
    requires FreshOrder(st, s.order) && e.FillEvent? && NewFilled(e.update) == 10.0
    requires a.qty == Some(10.0) && s.Foreign(ActivityFillId(a, s.generated))
    ensures var final := s.Run(st, [Hook(e), FromActivity(a)]);
      && Known(final, s.order)
      && Shares(final.booked) == 10 && RealQty(final, s.order) == 20.0
  {
    hide Sources.Foreign, ApplyFill, AppendFill, RealQty, Cas, FillId, WholeShares, Known;
    TenShares();
    var deeds := [Hook(e), FromActivity(a)];
    RealQtyIsBothSources(s, st, deeds, {e});
    assert deeds[1..] == [FromActivity(a)] && [FromActivity(a)][1..] == [];
    assert s.ActivityQty(deeds, {}) == s.ActivityQty([FromActivity(a)], {}) ==
           10.0 + s.ActivityQty([], {ActivityFillId(a, s.generated)});
    var once := Process(st, s.order, e);
    SharesSnoc([], Fill(10, e.price, s.order.side));
    assert once.booked == [Fill(10, e.price, s.order.side)];
    assert s.Run(st, deeds) == s.Run(once, [FromActivity(a)]) == s.Do(once, FromActivity(a));
  }

  lemma TenShares()
    ensures WholeShares(10.0) == 10 && WholeShares(0.0) == 0
  {
  }

  /** What was recorded too often stays so: no later deed takes real shares away, and reconciliation
      finds no gap. */
  lemma {:induction false} OvercountStays(s: Sources, st: State, deeds: seq<Deed>, filled: real)
    requires Known(st, s.order) && RealQty(st, s.order) > filled
    requires forall k :: 0 <= k < |deeds| && deeds[k].FromActivity? ==>
               Counted(ActivityFill(deeds[k].activity, s.generated)) >= 0.0
    ensures var final := s.Run(st, deeds);
      && Known(final, s.order) && RealQty(final, s.order) > filled
      && forall r: Filled :: r.qty <= filled ==> Reconcile(final.tables, s.order.id, r, s.fraction) == final.tables
    decreases |deeds|
  {
    hide Reconcile, ActivityFill, Sources.Do;
    if deeds == [] {
      NoGap(s, st, filled);
    } else {
      DeedAddsReal(s, st, deeds[0]);
      OvercountStays(s, s.Do(st, deeds[0]), deeds[1..], filled);
    }
  }

  lemma NoGap(s: Sources, st: State, filled: real)
    requires Known(st, s.order) && RealQty(st, s.order) > filled
    ensures forall r: Filled :: r.qty <= filled ==> Reconcile(st.tables, s.order.id, r, s.fraction) == st.tables
  {
    hide LiveQtyOf, LiveQty, AppendFill;
  }

  lemma DeedAddsReal(s: Sources, st: State, d: Deed)
    requires Known(st, s.order)
    requires d.FromActivity? ==> Counted(ActivityFill(d.activity, s.generated)) >= 0.0
    ensures Known(s.Do(st, d), s.order) && RealQty(s.Do(st, d), s.order) >= RealQty(st, s.order)
  {
    hide AppendFill, LiveQtyOf, LiveQty, Ids, FillId, ApplyFill, Cas, SyntheticId;
    match d {
      case Hook(e) =>
        var row := Cas(st.row, e.update);
        if st.row.status != Replaced && e.FillEvent? && Increment(st.row, e.update) > 0 {
          var f := Fill(Increment(st.row, e.update), e.price, s.order.side);
          var next := Book(st, s.order, e, row);
          FillIdIsNotEmpty(s.order, Reported(e));
          AppendOutcome(st.tables, s.order.id,
                        FillRecord(s.order, e, f, next.position.realized - st.position.realized));
        }
      case FromActivity(a) =>
        var fill := ActivityFill(a, s.generated);
        if fill.fillId == "" {
          EmptyIdIsRefused(st.tables, s.order.id, fill);
        } else {
          AppendOutcome(st.tables, s.order.id, fill);
        }
      case Reconciled(r) =>
        var gap := Gap(st.tables.ledgers[s.order.id].fills, r.qty);
        if gap.Some? {
          SyntheticIdsAreTheirOwn(s.order.id, r, gap.value, s.fraction);
          AppendOutcome(st.tables, s.order.id, SyntheticFill(s.order.id, r, gap.value, s.fraction));
        }
    }
  }

  lemma EmptyIdIsRefused(st: Store, orderId: string, f: FillData)
    requires f.fillId == ""
    ensures AppendFill(st, orderId, f) == st
  {
  }
}
