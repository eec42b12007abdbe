/** The orders table and the UPDATE statements that write it. */
module OrderStore {
  import opened Base
  import opened OrderStatus

  /** The columns of one order row that the gateway's writers read or write.
      Timestamps are integers; filledQty is never negative (a CHECK on the column). */
  datatype OrderRow = OrderRow(
    status: Status,
    lastUpdatedAt: Option<int>,
    statusRank: Option<int>,
    sourcePriority: int,
    filledQty: real,
    filledAvgPrice: Option<real>,
    filledAt: Option<int>,
    brokerOrderId: Option<string>,
    brokerEventId: Option<string>,
    errorMessage: Option<string>,
    isTerminal: bool,
    parentOrderId: Option<string>,
    sliceNum: Option<nat>,
    scheduledTime: Option<int>)

  /** The gateway's own writes outrank reconciliation (2) and webhooks (3) on a tie. */
  const SOURCE_PRIORITY_MANUAL := 1

  /** The arguments of one compare-and-set write. */
  datatype CasUpdate = CasUpdate(
    status: Status,
    brokerUpdatedAt: int,
    statusRank: int,
    sourcePriority: int,
    filledQty: Option<real>,
    filledAvgPrice: Option<real>,
    filledAt: Option<int>,
    brokerOrderId: Option<string>,
    brokerEventId: Option<string>,
    errorMessage: Option<string>)

  function NewFilled(u: CasUpdate): real {
    if u.filledQty.Some? then u.filledQty.value else 0.0
  }

  /** The WHERE clause. A comparison with a NULL rank is not true. */
  predicate CasAccepts(row: OrderRow, u: CasUpdate) {
    && (!row.isTerminal || row.status == Filled)
    && (|| row.lastUpdatedAt.None?
        || row.lastUpdatedAt.value < u.brokerUpdatedAt
        || (row.lastUpdatedAt.value == u.brokerUpdatedAt && row.statusRank.Some? &&
            (|| row.statusRank.value < u.statusRank
             || (row.statusRank.value == u.statusRank && row.filledQty < NewFilled(u))
             || (row.statusRank.value == u.statusRank && row.filledQty == NewFilled(u)
                 && row.sourcePriority > u.sourcePriority))))
  }

  /** The SET list. */
  function CasWrite(row: OrderRow, u: CasUpdate): OrderRow {
    row.(status := u.status,
         lastUpdatedAt := Some(u.brokerUpdatedAt),
         statusRank := Some(u.statusRank),
         sourcePriority := u.sourcePriority,
         brokerEventId := Coalesce(u.brokerEventId, row.brokerEventId),
         brokerOrderId := Coalesce(u.brokerOrderId, row.brokerOrderId),
         filledQty := Max(row.filledQty, NewFilled(u)),
         filledAvgPrice := Coalesce(u.filledAvgPrice, row.filledAvgPrice),
         filledAt := Coalesce(u.filledAt, row.filledAt),
         errorMessage := u.errorMessage,
         isTerminal := IsTerminalStatus(u.status))
  }

  function Cas(row: OrderRow, u: CasUpdate): OrderRow {
    if CasAccepts(row, u) then CasWrite(row, u) else row
  }

  type Rows = map<string, OrderRow>

  predicate IsPendingSliceOf(row: OrderRow, parentOrderId: string) {
    row.parentOrderId == Some(parentOrderId) && row.status == PendingNew
  }

  function PendingSlicesOf(rows: Rows, parentOrderId: string): set<string> {
    set id | id in rows && IsPendingSliceOf(rows[id], parentOrderId)
  }

  /** Only the status column changes: is_terminal, status_rank and the stamp stay. */
  function CancelPending(rows: Rows, parentOrderId: string): Rows {
    map id | id in rows ::
      if IsPendingSliceOf(rows[id], parentOrderId) then rows[id].(status := Canceled) else rows[id]
  }

  function LiveChildren(rows: Rows, parentOrderId: string): set<string> {
    set id | id in rows && rows[id].parentOrderId == Some(parentOrderId) && !rows[id].isTerminal
  }

  class OrdersTable {
    var rows: Rows

    constructor (rows: Rows)
      ensures this.rows == rows
    {
      this.rows := rows;
    }

    method UpdateOrderStatusCas(id: string, u: CasUpdate) returns (updated: Option<OrderRow>)
      modifies this
      ensures id in old(rows) ==> rows == old(rows)[id := Cas(old(rows)[id], u)]
      ensures id !in old(rows) ==> rows == old(rows)
      ensures updated.Some? <==> id in old(rows) && CasAccepts(old(rows)[id], u)
      ensures updated.Some? ==> updated.value == rows[id]
    {
      updated := None;
      if id in rows && CasAccepts(rows[id], u) {
        rows := rows[id := CasWrite(rows[id], u)];
        updated := Some(rows[id]);
      }
    }

    method CancelPendingSlices(parentOrderId: string) returns (canceled: nat)
      modifies this
      ensures rows == CancelPending(old(rows), parentOrderId)
      ensures rows.Keys == old(rows).Keys
      ensures forall id :: id in rows ==>
                rows[id] == if old(rows)[id].parentOrderId == Some(parentOrderId) && old(rows)[id].status == PendingNew
                            then old(rows)[id].(status := Canceled) else old(rows)[id]
      ensures canceled == |PendingSlicesOf(old(rows), parentOrderId)|
      ensures PendingSlicesOf(rows, parentOrderId) == {}
    {
      canceled := |PendingSlicesOf(rows, parentOrderId)|;
      rows := CancelPending(rows, parentOrderId);
    }

    method CountNonTerminalChildren(parentOrderId: string) returns (count: nat)
      ensures count == |LiveChildren(rows, parentOrderId)|
    {
      count := 0;
      var todo := rows.Keys;
      ghost var seen: set<string> := {};
      while todo != {}
        invariant seen + todo == rows.Keys && seen !! todo
        invariant count == |LiveChildren(rows, parentOrderId) * seen|
      {
        var id :| id in todo;
        var child := rows[id];
        ghost var live := LiveChildren(rows, parentOrderId);
        if child.parentOrderId == Some(parentOrderId) && !child.isTerminal {
          count := count + 1;
          assert live * (seen + {id}) == live * seen + {id};
        } else {
          assert live * (seen + {id}) == live * seen;
        }
        todo, seen := todo - {id}, seen + {id};
      }
      assert LiveChildren(rows, parentOrderId) * seen == LiveChildren(rows, parentOrderId);
    }

    method UpdateOrderScheduledTime(id: string, scheduledTime: int)
      modifies this
      ensures id in old(rows) ==>
        rows == old(rows)[id := old(rows)[id].(scheduledTime := Some(scheduledTime))]
      ensures id !in old(rows) ==> rows == old(rows)
    {
      if id in rows {
        rows := rows[id := rows[id].(scheduledTime := Some(scheduledTime))];
      }
    }
  }
}
