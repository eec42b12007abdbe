/** What the compare-and-set write guarantees over every sequence of deliveries. */
module CasOrdering {
  import opened Base
  import opened OrderStatus
  import opened OrderStore

  /** Applies a sequence of deliveries to a row, first delivery first. */
  ghost function Deliver(row: OrderRow, us: seq<CasUpdate>): OrderRow
    decreases |us|
  {
    if us == [] then row else Deliver(Cas(row, us[0]), us[1..])
  }

  lemma {:induction false} DeliverConcat(row: OrderRow, us: seq<CasUpdate>, vs: seq<CasUpdate>)
    ensures Deliver(row, us + vs) == Deliver(Deliver(row, us), vs)
    decreases |us|
  {
    if us == [] {
      assert us + vs == vs;
    } else {
      assert (us + vs)[0] == us[0] && (us + vs)[1..] == us[1..] + vs;
      DeliverConcat(Cas(row, us[0]), us[1..], vs);
    }
  }

  // ---------------------------------------------------------------------------
  // Progress
  // ---------------------------------------------------------------------------

  /** The conflict-resolution key. Lower priority numbers win. */
  datatype Key = Key(at: int, rank: int, filled: real, priority: int)

  predicate KeyLess(a: Key, b: Key) {
    || a.at < b.at
    || (a.at == b.at && a.rank < b.rank)
    || (a.at == b.at && a.rank == b.rank && a.filled < b.filled)
    || (a.at == b.at && a.rank == b.rank && a.filled == b.filled && a.priority > b.priority)
  }

  /** A row that some writer has stamped; both columns are set together. */
  predicate Stamped(row: OrderRow) {
    row.lastUpdatedAt.Some? && row.statusRank.Some?
  }

  function KeyOf(row: OrderRow): Key
    requires Stamped(row)
  {
    Key(row.lastUpdatedAt.value, row.statusRank.value, row.filledQty, row.sourcePriority)
  }

  /** Over any deliveries a row either stays exactly as it was or its key has strictly risen,
      and the filled quantity never falls. */
  lemma {:induction false} DeliveriesRaiseTheKey(row: OrderRow, us: seq<CasUpdate>)
    requires Stamped(row)
    ensures Stamped(Deliver(row, us))
    ensures Deliver(row, us) == row || KeyLess(KeyOf(row), KeyOf(Deliver(row, us)))
    ensures Deliver(row, us).filledQty >= row.filledQty
    decreases |us|
  {
    if us != [] {
      DeliveriesRaiseTheKey(Cas(row, us[0]), us[1..]);
    }
  }

  /** A redelivered update changes nothing, whatever arrived between the two copies. */
  lemma {:induction false} RedeliveryIsIgnored(row: OrderRow, u: CasUpdate, between: seq<CasUpdate>)
    requires Stamped(row) || row.lastUpdatedAt.None?
    ensures Deliver(row, [u] + between + [u]) == Deliver(row, [u] + between)
  {
    var first := Cas(row, u);
    var middle := Deliver(first, between);
    assert ([u] + between)[1..] == between;
    DeliverConcat(row, [u] + between, [u]);
    if Locked(row) {
      LockedRowIsFrozen(row, between);
    } else {
      DeliveriesRaiseTheKey(first, between);
      if middle == first {
      } else {
        assert KeyLess(KeyOf(first), KeyOf(middle));
      }
      assert !CasAccepts(middle, u);
    }
  }

  /** A row takes an update exactly when it is not locked and was never stamped or has a smaller key. */
  lemma TakesIff(row: OrderRow, u: CasUpdate)
    requires Stamped(row) || row.lastUpdatedAt.None?
    ensures CasAccepts(row, u) <==>
            !Locked(row) && (row.lastUpdatedAt.None? || KeyLess(KeyOf(row), ClaimKey(u)))
  {
  }

  // ---------------------------------------------------------------------------
  // What the row shows
  // ---------------------------------------------------------------------------

  /** The deliveries that the row takes, in order. */
  ghost function Taken(row: OrderRow, us: seq<CasUpdate>): seq<CasUpdate>
    decreases |us|
  {
    if us == [] then []
    else (if CasAccepts(row, us[0]) then [us[0]] else []) + Taken(Cas(row, us[0]), us[1..])
  }

  /** The last value given, or the row's own when none is. */
  predicate LastGiven<T(==)>(given: seq<Option<T>>, own: Option<T>, shown: Option<T>) {
    || (given == [] && shown == own)
    || (given != [] && given[|given| - 1].Some? && shown == given[|given| - 1])
    || (given != [] && given[|given| - 1].None? && LastGiven(given[..|given| - 1], own, shown))
  }

  lemma {:induction false} GivenFirst<T>(first: Option<T>, rest: seq<Option<T>>, own: Option<T>, shown: Option<T>)
    requires LastGiven(rest, if first.Some? then first else own, shown)
    ensures LastGiven([first] + rest, own, shown)
    decreases |rest|
  {
    var all := [first] + rest;
    if rest == [] {
      assert all[..0] == [];
      assert LastGiven(all[..0], own, own);
    } else if rest[|rest| - 1].None? {
      GivenFirst(first, rest[..|rest| - 1], own, shown);
      assert all[..|all| - 1] == [first] + rest[..|rest| - 1];
    }
  }

  function AvgPrices(us: seq<CasUpdate>): seq<Option<real>> {
    seq(|us|, i requires 0 <= i < |us| => us[i].filledAvgPrice)
  }

  function FilledAts(us: seq<CasUpdate>): seq<Option<int>> {
    seq(|us|, i requires 0 <= i < |us| => us[i].filledAt)
  }

  function BrokerOrderIds(us: seq<CasUpdate>): seq<Option<string>> {
    seq(|us|, i requires 0 <= i < |us| => us[i].brokerOrderId)
  }

  function BrokerEventIds(us: seq<CasUpdate>): seq<Option<string>> {
    seq(|us|, i requires 0 <= i < |us| => us[i].brokerEventId)
  }

  /** Columns that keep their value until an update gives a new one. */
  predicate ShowsLastGiven(row: OrderRow, taken: seq<CasUpdate>, final: OrderRow) {
    && LastGiven(AvgPrices(taken), row.filledAvgPrice, final.filledAvgPrice)
    && LastGiven(FilledAts(taken), row.filledAt, final.filledAt)
    && LastGiven(BrokerOrderIds(taken), row.brokerOrderId, final.brokerOrderId)
    && LastGiven(BrokerEventIds(taken), row.brokerEventId, final.brokerEventId)
  }

  lemma ShowsFirst(row: OrderRow, u: CasUpdate, rest: seq<CasUpdate>, final: OrderRow)
    requires CasAccepts(row, u) && ShowsLastGiven(Cas(row, u), rest, final)
    ensures ShowsLastGiven(row, [u] + rest, final)
  {
    hide LastGiven, CasAccepts;
    GivenFirst(u.filledAvgPrice, AvgPrices(rest), row.filledAvgPrice, final.filledAvgPrice);
    GivenFirst(u.filledAt, FilledAts(rest), row.filledAt, final.filledAt);
    GivenFirst(u.brokerOrderId, BrokerOrderIds(rest), row.brokerOrderId, final.brokerOrderId);
    GivenFirst(u.brokerEventId, BrokerEventIds(rest), row.brokerEventId, final.brokerEventId);
    assert AvgPrices([u] + rest) == [u.filledAvgPrice] + AvgPrices(rest);
    assert FilledAts([u] + rest) == [u.filledAt] + FilledAts(rest);
    assert BrokerOrderIds([u] + rest) == [u.brokerOrderId] + BrokerOrderIds(rest);
    assert BrokerEventIds([u] + rest) == [u.brokerEventId] + BrokerEventIds(rest);
  }

  /** Over any deliveries every column is told by the updates the row took: status, stamp, rank, priority,
      error message and terminal flag by the last one, the filled quantity by the largest, average price,
      fill time and broker ids by the last that gave one; the slice columns never change. */
  lemma {:induction false} ColumnsOfDeliveries(row: OrderRow, us: seq<CasUpdate>)
    ensures var taken, final := Taken(row, us), Deliver(row, us);
      && (taken == [] ==> final == row)
      && (taken != [] ==>
            var last := taken[|taken| - 1];
            && final.status == last.status && final.lastUpdatedAt == Some(last.brokerUpdatedAt)
            && final.statusRank == Some(last.statusRank) && final.sourcePriority == last.sourcePriority
            && final.errorMessage == last.errorMessage && (final.isTerminal <==> IsTerminalStatus(last.status)))
      && final.filledQty >= row.filledQty && (forall u :: u in taken ==> final.filledQty >= NewFilled(u))
      && (final.filledQty == row.filledQty || exists u :: u in taken && final.filledQty == NewFilled(u))
      && ShowsLastGiven(row, taken, final)
      && final.parentOrderId == row.parentOrderId && final.sliceNum == row.sliceNum
      && final.scheduledTime == row.scheduledTime
    decreases |us|
  {
    hide ShowsLastGiven, CasAccepts;
    if us == [] {
      NothingGiven(row);
    } else {
      var u := us[0];
      ColumnsOfDeliveries(Cas(row, u), us[1..]);
      if CasAccepts(row, u) {
        ShowsFirst(row, u, Taken(Cas(row, u), us[1..]), Deliver(row, us));
      } else {
        assert [] + Taken(row, us[1..]) == Taken(row, us[1..]);
      }
    }
  }

  lemma NothingGiven(row: OrderRow)
    ensures ShowsLastGiven(row, [], row)
  {
  }

  // ---------------------------------------------------------------------------
  // The terminal lock
  // ---------------------------------------------------------------------------

  predicate Locked(row: OrderRow) {
    row.isTerminal && row.status != Filled
  }

  lemma {:induction false} LockedRowIsFrozen(row: OrderRow, us: seq<CasUpdate>)
    requires Locked(row)
    ensures Deliver(row, us) == row
    decreases |us|
  {
    if us != [] {
      LockedRowIsFrozen(row, us[1..]);
    }
  }

  /** Every caller passes the table rank of the status it writes. */
  predicate WellRanked(u: CasUpdate) {
    u.statusRank == StatusRankFor(u.status)
  }

  predicate FilledRow(row: OrderRow) {
    row.status == Filled && row.lastUpdatedAt.Some? && row.statusRank == Some(5)
  }

  /** The row is filled before and after every one of the deliveries. */
  ghost predicate StaysFilled(row: OrderRow, us: seq<CasUpdate>)
    decreases |us|
  {
    row.status == Filled && (us != [] ==> StaysFilled(Cas(row, us[0]), us[1..]))
  }

  /** No update with another status is stamped after `stamp` and after every fill delivered before it. */
  ghost predicate NoLaterReversal(stamp: int, us: seq<CasUpdate>)
    decreases |us|
  {
    us != [] ==>
      var u := us[0];
      if u.status == Filled
      then NoLaterReversal(if stamp < u.brokerUpdatedAt then u.brokerUpdatedAt else stamp, us[1..])
      else u.brokerUpdatedAt <= stamp && NoLaterReversal(stamp, us[1..])
  }

  /** A filled row stops being filled exactly when a later-stamped update with another status comes. */
  lemma {:induction false} FilledIsLeftExactlyByALaterStamp(row: OrderRow, us: seq<CasUpdate>)
    requires FilledRow(row) && forall u :: u in us ==> WellRanked(u)
    ensures StaysFilled(row, us) <==> NoLaterReversal(row.lastUpdatedAt.value, us)
    decreases |us|
  {
    if us != [] {
      var u := us[0];
      assert u in us;
      if u.status == Filled || u.brokerUpdatedAt <= row.lastUpdatedAt.value {
        FilledIsLeftExactlyByALaterStamp(Cas(row, u), us[1..]);
      } else {
        assert !StaysFilled(Cas(row, u), us[1..]);
      }
    }
  }

  // ---------------------------------------------------------------------------
  // Delivery order
  // ---------------------------------------------------------------------------

  /** An order row as inserted: never stamped, not terminal, nothing filled. */
  predicate Fresh(row: OrderRow) {
    row.lastUpdatedAt.None? && !row.isTerminal && row.filledQty == 0.0
  }

  predicate NonNegativeFills(batch: set<CasUpdate>) {
    forall u :: u in batch ==> NewFilled(u) >= 0.0
  }

  /** The columns conflict resolution decides. */
  datatype Verdict = Verdict(status: Status, at: Option<int>, rank: Option<int>, filled: real, priority: int)

  function VerdictOf(row: OrderRow): Verdict {
    Verdict(row.status, row.lastUpdatedAt, row.statusRank, row.filledQty, row.sourcePriority)
  }

  /** What the row shows when `u` alone has decided it. */
  function Claim(u: CasUpdate): Verdict {
    Verdict(u.status, Some(u.brokerUpdatedAt), Some(u.statusRank), NewFilled(u), u.sourcePriority)
  }

  predicate SameSlot(u: CasUpdate, w: CasUpdate) {
    u.brokerUpdatedAt == w.brokerUpdatedAt && u.statusRank == w.statusRank
  }

  predicate EarlierSlot(u: CasUpdate, w: CasUpdate) {
    || u.brokerUpdatedAt < w.brokerUpdatedAt
    || (u.brokerUpdatedAt == w.brokerUpdatedAt && u.statusRank < w.statusRank)
  }

  /** `us` delivers exactly the updates of the batch, in some order, each at least once. */
  ghost predicate Delivers(us: seq<CasUpdate>, batch: set<CasUpdate>) {
    forall u :: u in us <==> u in batch
  }

  ghost predicate OrderIndependent(row: OrderRow, batch: set<CasUpdate>) {
    forall us, vs :: Delivers(us, batch) && Delivers(vs, batch)
                     ==> VerdictOf(Deliver(row, us)) == VerdictOf(Deliver(row, vs))
  }

  /** `w` wins against `u` alone. */
  predicate BeatsOrAgrees(w: CasUpdate, u: CasUpdate) {
    && (Locks(u.status) ==> Claim(u) == Claim(w))
    && (EarlierSlot(u, w) || SameSlot(u, w))
    && (EarlierSlot(u, w) ==> NewFilled(u) <= NewFilled(w))
    && (SameSlot(u, w) ==>
          || Claim(u) == Claim(w)
          || NewFilled(u) < NewFilled(w)
          || (NewFilled(u) == NewFilled(w) && u.sourcePriority > w.sourcePriority))
  }

  /** An earlier `v` that already carries the winner's filled quantity lets a smaller update `u` of
      the winner's slot pose as the winner; then `u` must lose on priority or say the same. */
  predicate NoImpostor(w: CasUpdate, u: CasUpdate, v: CasUpdate) {
    EarlierSlot(v, w) && NewFilled(v) == NewFilled(w) && SameSlot(u, w) && NewFilled(u) < NewFilled(w)
    ==> || u.sourcePriority > w.sourcePriority
        || (u.sourcePriority == w.sourcePriority && u.status == w.status)
  }

  ghost predicate Dominates(w: CasUpdate, batch: set<CasUpdate>) {
    && w in batch
    && (forall u :: u in batch ==> BeatsOrAgrees(w, u))
    && (forall u, v :: u in batch && v in batch ==> NoImpostor(w, u, v))
  }

  ghost predicate Consistent(batch: set<CasUpdate>) {
    exists w :: Dominates(w, batch)
  }

  /** `row` shows update `u`, possibly with a larger filled quantity left by an earlier slot. */
  predicate Shows(row: OrderRow, u: CasUpdate) {
    && row.status == u.status
    && row.lastUpdatedAt == Some(u.brokerUpdatedAt)
    && row.statusRank == Some(u.statusRank)
    && row.sourcePriority == u.sourcePriority
    && row.isTerminal == IsTerminalStatus(u.status)
  }

  ghost predicate Explained(row: OrderRow, batch: set<CasUpdate>) {
    exists u, v :: u in batch && v in batch && Shows(row, u)
                   && row.filledQty == NewFilled(v) >= NewFilled(u)
                   && (v == u || EarlierSlot(v, u))
  }

  lemma CasKeepsExplained(row: OrderRow, x: CasUpdate, batch: set<CasUpdate>)
    requires x in batch && NonNegativeFills(batch)
    requires Fresh(row) || Explained(row, batch)
    ensures Explained(Cas(row, x), batch)
  {
  }

  /** Once the winner's verdict is in the row, nothing of the batch changes it. */
  lemma WinnerStays(row: OrderRow, x: CasUpdate, w: CasUpdate, batch: set<CasUpdate>)
    requires Dominates(w, batch) && x in batch
    requires Explained(row, batch) && VerdictOf(row) == Claim(w)
    ensures Cas(row, x) == row
  {
  }

  /** Delivering the winner puts its verdict in the row. */
  lemma WinnerArrives(row: OrderRow, w: CasUpdate, batch: set<CasUpdate>)
    requires Dominates(w, batch) && NonNegativeFills(batch)
    requires Fresh(row) || Explained(row, batch)
    ensures VerdictOf(Cas(row, w)) == Claim(w)
  {
  }

  lemma {:induction false} WinnerDecides(row: OrderRow, us: seq<CasUpdate>, w: CasUpdate, batch: set<CasUpdate>)
    requires Dominates(w, batch) && NonNegativeFills(batch)
    requires forall u :: u in us ==> u in batch
    requires Fresh(row) || Explained(row, batch)
    requires w in us || (Explained(row, batch) && VerdictOf(row) == Claim(w))
    ensures VerdictOf(Deliver(row, us)) == Claim(w)
    decreases |us|
  {
    if us != [] {
      var x := us[0];
      assert x in us;
      CasKeepsExplained(row, x, batch);
      if x == w {
        WinnerArrives(row, w, batch);
      } else if !Fresh(row) && VerdictOf(row) == Claim(w) {
        WinnerStays(row, x, w, batch);
      } else {
        assert w in us[1..];
      }
      WinnerDecides(Cas(row, x), us[1..], w, batch);
    }
  }

  // --- the other direction ----------------------------------------------------

  function ClaimKey(u: CasUpdate): Key {
    Key(u.brokerUpdatedAt, u.statusRank, NewFilled(u), u.sourcePriority)
  }

  lemma {:induction false} GreatestKey(batch: set<CasUpdate>) returns (w: CasUpdate)
    requires batch != {}
    ensures w in batch && forall u :: u in batch ==> !KeyLess(ClaimKey(w), ClaimKey(u))
    decreases |batch|
  {
    var x :| x in batch;
    if batch == {x} {
      w := x;
    } else {
      var y := GreatestKey(batch - {x});
      w := if KeyLess(ClaimKey(y), ClaimKey(x)) then x else y;
    }
  }

  /** A row whose key no delivery exceeds never changes. */
  lemma {:induction false} TopKeyStays(row: OrderRow, us: seq<CasUpdate>)
    requires Stamped(row)
    requires forall u :: u in us ==> !KeyLess(KeyOf(row), ClaimKey(u))
    ensures Deliver(row, us) == row
    decreases |us|
  {
    if us != [] {
      assert us[0] in us;
      TopKeyStays(row, us[1..]);
    }
  }

  lemma TopFirst(row: OrderRow, w: CasUpdate, all: seq<CasUpdate>, batch: set<CasUpdate>)
    requires Fresh(row) && w in batch && Delivers(all, batch) && NonNegativeFills(batch)
    requires forall u :: u in batch ==> !KeyLess(ClaimKey(w), ClaimKey(u))
    ensures Delivers([w] + all, batch) && VerdictOf(Deliver(row, [w] + all)) == Claim(w)
  {
    assert ([w] + all)[1..] == all;
    TopKeyStays(Cas(row, w), all);
  }

  lemma LockFirst(row: OrderRow, u: CasUpdate, all: seq<CasUpdate>, batch: set<CasUpdate>)
    requires Fresh(row) && u in batch && Delivers(all, batch) && NonNegativeFills(batch)
    requires Locks(u.status)
    ensures Delivers([u] + all, batch) && VerdictOf(Deliver(row, [u] + all)) == Claim(u)
  {
    assert ([u] + all)[1..] == all;
    LockedRowIsFrozen(Cas(row, u), all);
  }

  lemma WinnerBeats(row: OrderRow, w: CasUpdate, u: CasUpdate, all: seq<CasUpdate>, batch: set<CasUpdate>)
    requires Fresh(row) && OrderIndependent(row, batch) && NonNegativeFills(batch) && Delivers(all, batch)
    requires w in batch && u in batch
    requires forall x :: x in batch ==> !KeyLess(ClaimKey(w), ClaimKey(x))
    ensures BeatsOrAgrees(w, u)
  {
    TopFirst(row, w, all, batch);
    if Locks(u.status) {
      LockFirst(row, u, all, batch);
    } else if EarlierSlot(u, w) {
      var row1 := Cas(row, u);
      DeliveriesRaiseTheKey(row1, all);
      assert ([u] + all)[1..] == all;
      assert Delivers([u] + all, batch);
      assert VerdictOf(Deliver(row, [u] + all)) == Claim(w);
    } else if ClaimKey(u) == ClaimKey(w) {
      TopFirst(row, u, all, batch);
    }
  }

  /** After `v` and then `u` the row shows the winner's slot and quantity with `u`'s priority. */
  lemma ImpostorRow(row: OrderRow, w: CasUpdate, u: CasUpdate, v: CasUpdate)
    requires Fresh(row) && NewFilled(u) >= 0.0
    requires EarlierSlot(v, w) && NewFilled(v) == NewFilled(w) && SameSlot(u, w) && NewFilled(u) < NewFilled(w)
    requires !Locks(v.status)
    ensures VerdictOf(Cas(Cas(row, v), u)) == Claim(w).(status := u.status, priority := u.sourcePriority)
  {
  }

  lemma WinnerHasNoImpostor(row: OrderRow, w: CasUpdate, u: CasUpdate, v: CasUpdate,
                            all: seq<CasUpdate>, batch: set<CasUpdate>)
    requires Fresh(row) && OrderIndependent(row, batch) && NonNegativeFills(batch) && Delivers(all, batch)
    requires w in batch && u in batch && v in batch
    requires forall x :: x in batch ==> !KeyLess(ClaimKey(w), ClaimKey(x))
    requires BeatsOrAgrees(w, u) && BeatsOrAgrees(w, v)
    ensures NoImpostor(w, u, v)
  {
    if EarlierSlot(v, w) && NewFilled(v) == NewFilled(w) && SameSlot(u, w) && NewFilled(u) < NewFilled(w) {
      TopFirst(row, w, all, batch);
      ImpostorRow(row, w, u, v);
      var row2 := Cas(Cas(row, v), u);
      DeliverConcat(row, [v] + [u], all);
      DeliverConcat(row, [v], [u]);
      assert VerdictOf(Deliver(row2, all)) == Claim(w) by {
        assert Delivers([v] + [u] + all, batch);
      }
      DeliveriesRaiseTheKey(row2, all);
      if u.sourcePriority == w.sourcePriority {
        TopKeyStays(row2, all);
      }
    }
  }

  lemma HeadIsDelivered(us: seq<CasUpdate>, batch: set<CasUpdate>)
    requires Delivers(us, batch)
    ensures us == [] || us[0] in batch
  {
  }

  /** Delivery-order independence, exactly: every order of deliveries (repeats allowed) leaves a
      fresh row with the same status, stamp, rank, filled quantity and priority if and only if one
      update of the batch dominates it. */
  lemma OrderIndependentIffConsistent(row: OrderRow, batch: set<CasUpdate>)
    requires Fresh(row) && NonNegativeFills(batch)
    ensures OrderIndependent(row, batch) <==> batch == {} || Consistent(batch)
  {
    if batch == {} {
      forall us, vs | Delivers(us, batch) && Delivers(vs, batch) ensures us == vs {
        HeadIsDelivered(us, batch);
        HeadIsDelivered(vs, batch);
      }
    }
    if Consistent(batch) {
      var w :| Dominates(w, batch);
      forall us, vs | Delivers(us, batch) && Delivers(vs, batch)
        ensures VerdictOf(Deliver(row, us)) == VerdictOf(Deliver(row, vs))
      {
        WinnerDecides(row, us, w, batch);
        WinnerDecides(row, vs, w, batch);
      }
    }
    if batch != {} && OrderIndependent(row, batch) {
      var w := GreatestKey(batch);
      var all := ListOf(batch);
      forall u | u in batch ensures BeatsOrAgrees(w, u) {
        WinnerBeats(row, w, u, all, batch);
      }
      forall u, v | u in batch && v in batch ensures NoImpostor(w, u, v) {
        WinnerHasNoImpostor(row, w, u, v, all, batch);
      }
      assert Dominates(w, batch);
    }
  }

  /** A broker's own history: filled quantities do not fall from slot to slot, one slot has one
      status, and a lock comes only from an update with the greatest key. */
  ghost predicate BrokerHistory(batch: set<CasUpdate>) {
    forall u, v :: u in batch && v in batch ==>
      && (EarlierSlot(u, v) ==> NewFilled(u) <= NewFilled(v))
      && (SameSlot(u, v) ==> u.status == v.status)
      && (Locks(u.status) ==> !KeyLess(ClaimKey(u), ClaimKey(v)))
  }

  /** Every broker history converges to its greatest key, however it is delivered. */
  lemma BrokerHistoryConverges(row: OrderRow, batch: set<CasUpdate>, us: seq<CasUpdate>) returns (w: CasUpdate)
    requires Fresh(row) && NonNegativeFills(batch) && batch != {}
    requires BrokerHistory(batch) && Delivers(us, batch)
    ensures w in batch && forall u :: u in batch ==> !KeyLess(ClaimKey(w), ClaimKey(u))
    ensures VerdictOf(Deliver(row, us)) == Claim(w)
  {
    w := GreatestKey(batch);
    forall u | u in batch ensures BeatsOrAgrees(w, u) {
    }
    assert Dominates(w, batch);
    WinnerDecides(row, us, w, batch);
  }

  // ---------------------------------------------------------------------------
  // Where the store is weaker than its description
  // ---------------------------------------------------------------------------

  function Plain(status: Status, at: int, filled: real): CasUpdate {
    CasUpdate(status, at, StatusRankFor(status), 3, Some(filled), None, None, None, None, None)
  }

  /** A later-stamped active status replaces filled and clears the terminal flag. */
  lemma FilledCanBeReverted(row: OrderRow)
    requires Fresh(row)
    ensures
      var final := Deliver(row, [Plain(Filled, 1, 10.0), Plain(Accepted, 2, 10.0)]);
      final.status == Accepted && !final.isTerminal
  {
  }

  /** A cancel that the broker stamped before a fill: whichever arrives first decides. */
  lemma EarlyCancelIsOrderDependent(row: OrderRow)
    requires Fresh(row)
    ensures !OrderIndependent(row, {Plain(Canceled, 1, 0.0), Plain(Filled, 2, 10.0)})
  {
    var c, f := Plain(Canceled, 1, 0.0), Plain(Filled, 2, 10.0);
    assert Delivers([c, f], {c, f}) && Delivers([f, c], {c, f});
    assert [c, f][1..] == [f] && [f, c][1..] == [c] && [f][1..] == [] && [c][1..] == [];
    assert Deliver(Cas(row, c), [f]) == Cas(Cas(row, c), f);
    assert Deliver(Cas(row, f), [c]) == Cas(Cas(row, f), c);
  }

  /** cancel_pending_slices leaves the lock open: a later write still replaces `canceled` exactly when
      it would have replaced `pending_new`. */
  lemma CanceledSliceIsNotLocked(rows: Rows, id: string, parentOrderId: string, u: CasUpdate)
    requires id in rows && IsPendingSliceOf(rows[id], parentOrderId)
    ensures var canceled := CancelPending(rows, parentOrderId)[id];
      && canceled.status == Canceled
      && (Cas(canceled, u).status == u.status <==> CasAccepts(rows[id], u) || u.status == Canceled)
  {
  }
}
