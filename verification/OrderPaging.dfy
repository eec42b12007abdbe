/** Fetching the broker's order list page by page. */
module OrderPaging {
  import opened Base

  datatype BrokerOrder = BrokerOrder(id: string, createdAt: int)

  datatype PagingError = LimitMustBePositive

  /** Whether the broker reads "after" as at-or-after. Its documentation says it does not; the code
      guards against both. */
  datatype Bound = Exclusive | Inclusive

  /** Ascending by creation time, ties allowed; ids are unique. */
  ghost predicate BrokerList(all: seq<BrokerOrder>) {
    && (forall i, j :: 0 <= i < j < |all| ==> all[i].createdAt <= all[j].createdAt)
    && (forall i, j :: 0 <= i < j < |all| ==> all[i].id != all[j].id)
  }

  predicate IsAfter(t: int, cursor: Option<int>, bound: Bound) {
    cursor.None? || t > cursor.value || (bound == Inclusive && t == cursor.value)
  }

  /** Index of the first order after the cursor. */
  function Start(all: seq<BrokerOrder>, cursor: Option<int>, bound: Bound): (s: nat)
    ensures s <= |all|
  {
    if all == [] || IsAfter(all[0].createdAt, cursor, bound) then 0 else 1 + Start(all[1..], cursor, bound)
  }

  function Matching(all: seq<BrokerOrder>, cursor: Option<int>, bound: Bound): seq<BrokerOrder> {
    all[Start(all, cursor, bound)..]
  }

  /** One answer of the broker. */
  function Page(all: seq<BrokerOrder>, cursor: Option<int>, bound: Bound, limit: nat): seq<BrokerOrder> {
    var orders := Matching(all, cursor, bound);
    if |orders| <= limit then orders else orders[..limit]
  }

  predicate AtBoundary(i: nat, limit: nat)
    requires limit > 0
  {
    i % limit == 0
  }

  /** No two orders of one creation time lie on both sides of a page boundary. */
  ghost predicate NoTieAcrossPages(orders: seq<BrokerOrder>, limit: nat)
    requires limit > 0
  {
    forall i :: 0 < i < |orders| && AtBoundary(i, limit) ==> orders[i - 1].createdAt < orders[i].createdAt
  }

  /** No more than `limit` orders share a creation time. */
  ghost predicate TiesFitAPage(orders: seq<BrokerOrder>, limit: nat) {
    forall i :: 0 <= i < |orders| - limit ==> orders[i].createdAt < orders[i + limit].createdAt
  }

  ghost predicate NoDuplicates(orders: seq<BrokerOrder>) {
    forall i, j :: 0 <= i < j < |orders| ==> orders[i].id != orders[j].id
  }

  lemma {:induction false} AfterStart(all: seq<BrokerOrder>, cursor: Option<int>, bound: Bound)
    requires BrokerList(all)
    ensures forall i :: 0 <= i < |all| ==>
              (IsAfter(all[i].createdAt, cursor, bound) <==> Start(all, cursor, bound) <= i)
    decreases |all|
  {
    if all != [] && !IsAfter(all[0].createdAt, cursor, bound) {
      AfterStart(all[1..], cursor, bound);
      assert forall i :: 0 < i < |all| ==> all[i] == all[1..][i - 1];
    }
  }

  function Ids(orders: seq<BrokerOrder>): set<string> {
    set o | o in orders :: o.id
  }

  /** The first `known` orders of the page have been seen, the others have not. */
  ghost predicate KnownUpTo(orders: seq<BrokerOrder>, seenIds: set<string>, known: nat) {
    && NoDuplicates(orders) && known <= |orders|
    && forall i :: 0 <= i < |orders| ==> (orders[i].id in seenIds <==> i < known)
  }

  /** The page's orders not seen before: all but the first `known`. */
  method AddNew(orders: seq<BrokerOrder>, results: seq<BrokerOrder>, seenIds: set<string>, ghost known: nat)
    returns (all: seq<BrokerOrder>, seen: set<string>, added: nat)
    requires seenIds == Ids(results) && KnownUpTo(orders, seenIds, known)
    ensures all == results + orders[known..] && seen == Ids(all) && added == |orders| - known
  {
    all, seen, added := results, seenIds, 0;
    for j := 0 to |orders|
      invariant seen == Ids(all)
      invariant all == results + (if known <= j then orders[known..j] else [])
      invariant added == if known <= j then j - known else 0
    {
      KnownSoFar(orders, results, known, j, all);
      if orders[j].id !in seen {
        seen := seen + {orders[j].id};
        added := added + 1;
        all := all + [orders[j]];
      }
    }
  }

  lemma KnownSoFar(orders: seq<BrokerOrder>, results: seq<BrokerOrder>, known: nat, j: nat, all: seq<BrokerOrder>)
    requires KnownUpTo(orders, Ids(results), known) && j < |orders|
    requires all == results + (if known <= j then orders[known..j] else [])
    ensures orders[j].id in Ids(all) <==> j < known
    ensures Ids(all + [orders[j]]) == Ids(all) + {orders[j].id}
    ensures known <= j ==> all + [orders[j]] == results + orders[known..j + 1]
  {
  }

  /** Complete answers come back exactly under this condition. */
  ghost predicate PagesAreComplete(orders: seq<BrokerOrder>, limit: nat, bound: Bound)
    requires limit > 0
  {
    if bound == Exclusive then NoTieAcrossPages(orders, limit) else TiesFitAPage(orders, limit)
  }

  /** Creation times ascend. */
  ghost predicate Chronological(orders: seq<BrokerOrder>) {
    forall i, j :: 0 <= i < j < |orders| ==> orders[i].createdAt <= orders[j].createdAt
  }

  /** Some order of this creation time is among the results. */
  ghost predicate TimeShown(results: seq<BrokerOrder>, t: int) {
    exists o :: o in results && o.createdAt == t
  }

  /** An order that is not among the results ties with one that is. */
  ghost predicate LosesOnlyTies(orders: seq<BrokerOrder>, results: seq<BrokerOrder>) {
    forall o :: o in orders ==> TimeShown(results, o.createdAt)
  }

  /** What has been collected when the cursor stands before index s: of the orders from s on, those
      before k; of the earlier ones, all from `first` unless some were missed, and then some of their time. */
  ghost predicate Collected(all: seq<BrokerOrder>, first: nat, s: nat, k: nat, results: seq<BrokerOrder>,
                            missed: bool) {
    && first <= s <= k <= |all|
    && (forall i :: s <= i < |all| ==> (all[i].id in Ids(results) <==> i < k))
    && (forall o :: o in results ==> o in all[first..k])
    && NoDuplicates(results) && Chronological(results)
    && (!missed ==> results == all[first..k])
    && (missed ==> exists w :: first <= w < s && all[w] !in results)
    && (forall i :: first <= i < k ==> TimeShown(results, all[i].createdAt))
  }

  /** The condition, as far as the pages before index s decide it. */
  ghost predicate Decided(all: seq<BrokerOrder>, first: nat, s: nat, limit: nat, bound: Bound, missed: bool)
    requires limit > 0 && first <= s <= |all|
  {
    if missed then !PagesAreComplete(all[first..], limit, bound)
    else if bound == Exclusive then
      && AtBoundary(s - first, limit)
      && (forall i :: first < i <= s && i < |all| && AtBoundary(i - first, limit) ==>
            all[i - 1].createdAt < all[i].createdAt)
    else forall i :: first <= i < s && i + limit < |all| ==> all[i].createdAt < all[i + limit].createdAt
  }

  function Min(a: int, b: int): int {
    if a < b then a else b
  }

  /** Taking in the page at s. */
  lemma TakePage(all: seq<BrokerOrder>, first: nat, s: nat, k: nat, results: seq<BrokerOrder>, missed: bool, limit: nat)
    requires BrokerList(all) && Collected(all, first, s, k, results, missed) && k <= s + limit
    ensures k <= Min(s + limit, |all|)
    ensures Collected(all, first, s, Min(s + limit, |all|), results + all[k..Min(s + limit, |all|)], missed)
  {
    hide Ids, NoDuplicates, Chronological, TimeShown;
    var end := Min(s + limit, |all|);
    var more := results + all[k..end];
    forall i | first <= i < end ensures TimeShown(more, all[i].createdAt) {
      TimeStaysShown(results, all, k, end, i);
    }
    forall i | s <= i < |all|
      ensures all[i].id in Ids(more) <==> i < end
    {
      IdsOfMore(all, k, end, results, i);
    }
    assert all[first..k] + all[k..end] == all[first..end];
    StillInOrder(all, first, k, end, results);
    if missed {
      var w :| first <= w < s && all[w] !in results;
      assert all[w] !in more by {
        hide Collected;
        DistinctOrders(all, w, k, end);
      }
    }
  }

  lemma TimeStaysShown(results: seq<BrokerOrder>, all: seq<BrokerOrder>, k: nat, end: nat, i: nat)
    requires k <= end <= |all| && i < end && (i < k ==> TimeShown(results, all[i].createdAt))
    ensures TimeShown(results + all[k..end], all[i].createdAt)
  {
    if i < k {
      var o :| o in results && o.createdAt == all[i].createdAt;
      assert o in results + all[k..end];
    } else {
      assert all[k..end][i - k] == all[i] && all[i] in results + all[k..end];
    }
  }

  lemma DistinctOrders(all: seq<BrokerOrder>, w: nat, k: nat, end: nat)
    requires BrokerList(all) && w < k <= end <= |all|
    ensures all[w] !in all[k..end]
  {
  }

  lemma IdsOfMore(all: seq<BrokerOrder>, k: nat, end: nat, results: seq<BrokerOrder>, i: nat)
    requires BrokerList(all) && k <= end <= |all| && i < |all|
    requires all[i].id in Ids(results) <==> i < k
    ensures all[i].id in Ids(results + all[k..end]) <==> i < end
  {
  }

  lemma StillInOrder(all: seq<BrokerOrder>, first: nat, k: nat, end: nat, results: seq<BrokerOrder>)
    requires BrokerList(all) && first <= k <= end <= |all|
    requires NoDuplicates(results) && Chronological(results) && forall o :: o in results ==> o in all[first..k]
    ensures NoDuplicates(results + all[k..end]) && Chronological(results + all[k..end])
  {
    var more := results + all[k..end];
    forall i, j | 0 <= i < j < |more|
      ensures more[i].id != more[j].id && more[i].createdAt <= more[j].createdAt
    {
      if i < |results| <= j {
        assert results[i] in all[first..k];
      }
    }
  }

  /** Boundaries are a page apart. */
  lemma NextBoundary(a: nat, b: nat, limit: nat)
    requires limit > 0 && AtBoundary(a, limit)
    ensures b == a + limit ==> AtBoundary(b, limit)
    ensures a < b < a + limit ==> !AtBoundary(b, limit)
  {
    var q := a / limit;
    assert a == limit * q + 0;
    if b == a + limit {
      RemainderIs(b, q + 1, 0, limit);
    } else if a < b < a + limit {
      RemainderIs(b, q, b - a, limit);
    }
  }

  lemma RemainderIs(x: nat, q: nat, r: nat, limit: nat)
    requires r < limit && x == limit * q + r
    ensures x % limit == r
  {
    var q', r' := x / limit, x % limit;
    assert limit * q + r == limit * q' + r';
    if q < q' {
      Stretch(limit, q, q');
    } else if q' < q {
      Stretch(limit, q', q);
    }
  }

  lemma Stretch(limit: nat, a: nat, b: nat)
    requires a < b
    ensures limit * a + limit <= limit * b
  {
    assert limit * (b - a - 1) >= 0;
  }

  /** Orders from `end` to `next` can no longer be reached. */
  lemma JumpOver(all: seq<BrokerOrder>, first: nat, s: nat, end: nat, next: nat, results: seq<BrokerOrder>,
                 missed: bool)
    requires Collected(all, first, s, end, results, missed) && first < end <= next <= |all|
    requires forall i :: end <= i < next ==> all[i].createdAt == all[end - 1].createdAt
    ensures Collected(all, first, next, next, results, missed || next > end)
  {
    hide Ids, NoDuplicates, Chronological, TimeShown;
    if !missed && next > end {
      LostAt(all, first, s, end, results);
    }
    forall o | o in results
      ensures o in all[first..next]
    {
      assert o in all[first..end];
      var i :| 0 <= i < end - first && all[first..end][i] == o;
      assert all[first..next][i] == o;
    }
  }

  /** Moving an exclusive cursor past a full page: the orders that tie with its last one are lost. */
  lemma MoveExclusive(all: seq<BrokerOrder>, first: nat, s: nat, limit: nat, results: seq<BrokerOrder>, missed: bool,
                      next: nat)
    requires BrokerList(all) && limit > 0 && s + limit <= |all|
    requires Collected(all, first, s, s + limit, results, missed) && Decided(all, first, s, limit, Exclusive, missed)
    requires next == Start(all, Some(all[s + limit - 1].createdAt), Exclusive)
    ensures next >= s + limit && Collected(all, first, next, next, results, missed || next > s + limit)
    ensures Decided(all, first, next, limit, Exclusive, missed || next > s + limit)
  {
    hide Collected, Start, BrokerList, NoTieAcrossPages;
    var end := s + limit;
    CollectedBounds(all, first, s, end, results, missed);
    AfterStart(all, Some(all[end - 1].createdAt), Exclusive);
    AscendingTo(all, end);
    TiesFrom(all, end, next);
    JumpOver(all, first, s, end, next, results, missed);
    if !missed {
      DecideExclusive(all, first, s, limit, next);
    }
  }

  lemma CollectedBounds(all: seq<BrokerOrder>, first: nat, s: nat, k: nat, results: seq<BrokerOrder>, missed: bool)
    requires Collected(all, first, s, k, results, missed)
    ensures first <= s <= k <= |all|
  {
  }

  lemma TiesFrom(all: seq<BrokerOrder>, end: nat, next: nat)
    requires BrokerList(all) && 0 < end <= next <= |all|
    requires forall i :: end <= i < next ==> all[i].createdAt <= all[end - 1].createdAt
    ensures forall i :: end <= i < next ==> all[i].createdAt == all[end - 1].createdAt
  {
  }

  lemma AscendingTo(all: seq<BrokerOrder>, end: nat)
    requires BrokerList(all) && 0 < end <= |all|
    ensures forall i :: 0 <= i < end ==> all[i].createdAt <= all[end - 1].createdAt
  {
  }

  lemma DecideExclusive(all: seq<BrokerOrder>, first: nat, s: nat, limit: nat, next: nat)
    requires BrokerList(all) && limit > 0 && first <= s && s + limit <= |all| && s + limit <= next
    requires Decided(all, first, s, limit, Exclusive, false)
    requires next == Start(all, Some(all[s + limit - 1].createdAt), Exclusive)
    ensures Decided(all, first, next, limit, Exclusive, next > s + limit)
  {
    hide Start, AtBoundary;
    var end := s + limit;
    AfterStart(all, Some(all[end - 1].createdAt), Exclusive);
    NextBoundary(s - first, end - first, limit);
    if next > end {
      TieIsSplit(all, first, end, limit);
    } else {
      NoTieIsSplit(all, first, s, limit);
    }
  }

  lemma TieIsSplit(all: seq<BrokerOrder>, first: nat, end: nat, limit: nat)
    requires limit > 0 && first < end < |all| && AtBoundary(end - first, limit)
    requires all[end - 1].createdAt >= all[end].createdAt
    ensures !NoTieAcrossPages(all[first..], limit)
  {
  }

  lemma NoTieIsSplit(all: seq<BrokerOrder>, first: nat, s: nat, limit: nat)
    requires limit > 0 && first <= s && s + limit <= |all| && Decided(all, first, s, limit, Exclusive, false)
    requires s + limit < |all| ==> all[s + limit - 1].createdAt < all[s + limit].createdAt
    ensures Decided(all, first, s + limit, limit, Exclusive, false)
  {
    hide AtBoundary;
    NextBoundary(s - first, s + limit - first, limit);
    forall i | first < i <= s + limit && i < |all| && AtBoundary(i - first, limit)
      ensures all[i - 1].createdAt < all[i].createdAt
    {
      NextBoundary(s - first, i - first, limit);
    }
  }

  lemma LostAt(all: seq<BrokerOrder>, first: nat, s: nat, end: nat, results: seq<BrokerOrder>)
    requires Collected(all, first, s, end, results, false) && end < |all|
    ensures all[end] !in results
  {
  }

  /** An inclusive cursor moves to the last creation time of a full page, and no order is lost. */
  lemma MoveInclusive(all: seq<BrokerOrder>, first: nat, s: nat, limit: nat, cursor: Option<int>,
                      results: seq<BrokerOrder>, missed: bool, next: nat)
    requires BrokerList(all) && limit > 0 && s + limit <= |all| && s == Start(all, cursor, Inclusive)
    requires Collected(all, first, s, s + limit, results, missed) && Decided(all, first, s, limit, Inclusive, missed)
    requires cursor.None? || all[s + limit - 1].createdAt > cursor.value
    requires next == Start(all, Some(all[s + limit - 1].createdAt), Inclusive)
    ensures s <= next < s + limit && Collected(all, first, next, s + limit, results, missed)
    ensures Decided(all, first, next, limit, Inclusive, missed)
  {
    hide Collected, Start, TiesFitAPage;
    var end := s + limit;
    var t := all[end - 1].createdAt;
    CollectedBounds(all, first, s, end, results, missed);
    AfterStart(all, Some(t), Inclusive);
    AfterStart(all, cursor, Inclusive);
    assert next < end by { assert IsAfter(all[end - 1].createdAt, Some(t), Inclusive); }
    assert IsAfter(all[next].createdAt, cursor, Inclusive);
    StepInside(all, first, s, end, next, results, missed);
  }

  lemma StepInside(all: seq<BrokerOrder>, first: nat, s: nat, end: nat, next: nat, results: seq<BrokerOrder>,
                   missed: bool)
    requires Collected(all, first, s, end, results, missed) && s <= next <= end
    ensures Collected(all, first, next, end, results, missed)
  {
  }

  /** A page of one creation time brought nothing new: the rest of that time is lost. */
  lemma Nudge(all: seq<BrokerOrder>, first: nat, s: nat, limit: nat, t: int, results: seq<BrokerOrder>, missed: bool,
              next: nat)
    requires BrokerList(all) && limit > 0 && s + limit <= |all| && s == Start(all, Some(t), Inclusive)
    requires Collected(all, first, s, s + limit, results, missed) && Decided(all, first, s, limit, Inclusive, missed)
    requires all[s + limit - 1].createdAt <= t && next == Start(all, Some(t + 1), Inclusive)
    ensures next >= s + limit && Collected(all, first, next, next, results, missed || next > s + limit)
    ensures Decided(all, first, next, limit, Inclusive, missed || next > s + limit)
  {
    hide Collected, Start;
    var end := s + limit;
    CollectedBounds(all, first, s, end, results, missed);
    AfterStart(all, Some(t), Inclusive);
    AfterStart(all, Some(t + 1), Inclusive);
    assert all[s].createdAt == t;
    JumpOver(all, first, s, end, next, results, missed);
    if !missed && next > end {
      assert all[end].createdAt == t;
      assert all[first..][s - first] == all[s] && all[first..][s - first + limit] == all[end];
    }
  }

  /** Where the loop stands when it asks for a page. */
  ghost predicate AtHead(all: seq<BrokerOrder>, first: nat, limit: nat, bound: Bound, cursor: Option<int>,
                         k: nat, results: seq<BrokerOrder>, missed: bool)
    requires limit > 0
  {
    var s := Start(all, cursor, bound);
    && Collected(all, first, s, k, results, missed) && k <= s + limit
    && (bound == Exclusive ==> k == s)
    && Decided(all, first, s, limit, bound, missed)
  }

  /** Where it stands when it has taken in the page. */
  ghost predicate AtTail(all: seq<BrokerOrder>, first: nat, limit: nat, bound: Bound, cursor: Option<int>,
                         results: seq<BrokerOrder>, missed: bool)
    requires limit > 0
  {
    var s := Start(all, cursor, bound);
    && Collected(all, first, s, Min(s + limit, |all|), results, missed)
    && Decided(all, first, s, limit, bound, missed)
  }

  lemma Forward(all: seq<BrokerOrder>, first: nat, limit: nat, bound: Bound, cursor: Option<int>,
                results: seq<BrokerOrder>, missed: bool, t: int) returns (k: nat, lost: bool)
    requires BrokerList(all) && limit > 0 && AtTail(all, first, limit, bound, cursor, results, missed)
    requires Start(all, cursor, bound) + limit <= |all| && t == all[Start(all, cursor, bound) + limit - 1].createdAt
    requires cursor.None? || t > cursor.value
    ensures AtHead(all, first, limit, bound, Some(t), k, results, lost) && k <= |all|
  {
    hide Collected, Decided, Start, BrokerList;
    var s, next := Start(all, cursor, bound), Start(all, Some(t), bound);
    if bound == Exclusive {
      MoveExclusive(all, first, s, limit, results, missed, next);
      k, lost := next, missed || next > s + limit;
    } else {
      MoveInclusive(all, first, s, limit, cursor, results, missed, next);
      k, lost := s + limit, missed;
    }
  }

  lemma Nudged(all: seq<BrokerOrder>, first: nat, limit: nat, bound: Bound, cursor: int,
               results: seq<BrokerOrder>, missed: bool) returns (k: nat, lost: bool)
    requires BrokerList(all) && limit > 0 && bound == Inclusive &&
             AtTail(all, first, limit, bound, Some(cursor), results, missed)
    requires Start(all, Some(cursor), bound) + limit <= |all|
    requires all[Start(all, Some(cursor), bound) + limit - 1].createdAt <= cursor
    ensures AtHead(all, first, limit, bound, Some(cursor + 1), k, results, lost) && k <= |all|
  {
    hide Collected, Decided, Start, BrokerList;
    var s, next := Start(all, Some(cursor), bound), Start(all, Some(cursor + 1), bound);
    Nudge(all, first, s, limit, cursor, results, missed, next);
    k, lost := next, missed || next > s + limit;
  }

  /** A short page ends the loop; the answer is complete exactly under the condition. */
  lemma LastPage(all: seq<BrokerOrder>, first: nat, s: nat, limit: nat, bound: Bound, results: seq<BrokerOrder>,
                 missed: bool)
    requires BrokerList(all) && limit > 0 && |all| < s + limit
    requires Collected(all, first, s, |all|, results, missed) && Decided(all, first, s, limit, bound, missed)
    ensures results == all[first..] <==> PagesAreComplete(all[first..], limit, bound)
  {
    hide Ids, AtBoundary;
    if missed {
      var w :| first <= w < s && all[w] !in results;
      assert all[first..][w - first] == all[w];
    } else {
      assert all[first..|all|] == all[first..];
      var m := all[first..];
      if bound == Exclusive {
        forall i | 0 < i < |m| && AtBoundary(i, limit)
          ensures m[i - 1].createdAt < m[i].createdAt
        {
          NextBoundary(s - first, i, limit);
          assert m[i - 1] == all[first + i - 1] && m[i] == all[first + i];
        }
      } else {
        forall i | 0 <= i < |m| - limit
          ensures m[i].createdAt < m[i + limit].createdAt
        {
          assert m[i] == all[first + i] && m[i + limit] == all[first + i + limit];
        }
      }
    }
  }

  /** The page's orders from `known` on are the new ones, and taking them in completes it. */
  lemma TakeIn(all: seq<BrokerOrder>, first: nat, limit: nat, bound: Bound, cursor: Option<int>,
               k: nat, results: seq<BrokerOrder>, missed: bool)
    requires BrokerList(all) && limit > 0 && AtHead(all, first, limit, bound, cursor, k, results, missed)
    ensures Start(all, cursor, bound) <= k
    ensures KnownUpTo(Page(all, cursor, bound, limit), Ids(results), k - Start(all, cursor, bound))
    ensures AtTail(all, first, limit, bound, cursor,
                   results + Page(all, cursor, bound, limit)[k - Start(all, cursor, bound)..], missed)
  {
    hide Decided, Start, Collected, Page, KnownUpTo;
    var s := Start(all, cursor, bound);
    CollectedBounds(all, first, s, k, results, missed);
    PageAt(all, cursor, bound, limit);
    TakePage(all, first, s, k, results, missed, limit);
    PageIsKnownUpTo(all, first, s, k, limit, results, missed);
  }

  lemma PageIsKnownUpTo(all: seq<BrokerOrder>, first: nat, s: nat, k: nat, limit: nat, results: seq<BrokerOrder>,
                        missed: bool)
    requires BrokerList(all) && Collected(all, first, s, k, results, missed) && k <= s + limit
    ensures KnownUpTo(all[s..Min(s + limit, |all|)], Ids(results), k - s)
    ensures all[s..Min(s + limit, |all|)][k - s..] == all[k..Min(s + limit, |all|)]
  {
  }

  lemma LoopBegins(all: seq<BrokerOrder>, limit: nat, bound: Bound, after: Option<int>)
    requires BrokerList(all) && limit > 0
    ensures var first := Start(all, after, bound); AtHead(all, first, limit, bound, after, first, [], false)
  {
  }

  lemma NothingSeen()
    ensures Ids([]) == {}
  {
  }

  lemma SamePage(all: seq<BrokerOrder>, first: nat, limit: nat, bound: Bound, cursor: Option<int>,
                 results: seq<BrokerOrder>, missed: bool)
    requires limit > 0 && bound == Inclusive && AtTail(all, first, limit, bound, cursor, results, missed)
    requires Start(all, cursor, bound) + limit <= |all|
    ensures AtHead(all, first, limit, bound, cursor, Start(all, cursor, bound) + limit, results, missed)
  {
  }

  lemma Finished(all: seq<BrokerOrder>, limit: nat, bound: Bound, after: Option<int>, cursor: Option<int>,
                 results: seq<BrokerOrder>, missed: bool)
    requires BrokerList(all) && limit > 0 && |all| < Start(all, cursor, bound) + limit
    requires AtTail(all, Start(all, after, bound), limit, bound, cursor, results, missed)
    ensures NoDuplicates(results) && Chronological(results)
    ensures forall o :: o in results ==> o in Matching(all, after, bound)
    ensures LosesOnlyTies(Matching(all, after, bound), results)
    ensures results == Matching(all, after, bound) <==> PagesAreComplete(Matching(all, after, bound), limit, bound)
  {
    hide Collected, Decided, Start, BrokerList, PagesAreComplete, NoDuplicates, Chronological, TimeShown;
    var first, s := Start(all, after, bound), Start(all, cursor, bound);
    LastPage(all, first, s, limit, bound, results, missed);
    Contained(all, first, s, |all|, results, missed);
    assert all[first..|all|] == all[first..];
  }

  lemma Contained(all: seq<BrokerOrder>, first: nat, s: nat, k: nat, results: seq<BrokerOrder>, missed: bool)
    requires Collected(all, first, s, k, results, missed)
    ensures NoDuplicates(results) && Chronological(results)
    ensures forall o :: o in results ==> o in all[first..]
    ensures forall o :: o in all[first..k] ==> TimeShown(results, o.createdAt)
  {
    hide TimeShown;
  }

  /** How far the cursor can still travel. */
  function Distance(all: seq<BrokerOrder>, cursor: Option<int>): nat {
    if all == [] || cursor.None? || cursor.value > all[|all| - 1].createdAt then 0
    else all[|all| - 1].createdAt - cursor.value + 1
  }

  lemma PageAt(all: seq<BrokerOrder>, cursor: Option<int>, bound: Bound, limit: nat)
    ensures var s := Start(all, cursor, bound);
      Page(all, cursor, bound, limit) == all[s..Min(s + limit, |all|)]
  {
  }

  /** A page is short exactly when the list ends within it. */
  lemma PageLength(all: seq<BrokerOrder>, cursor: Option<int>, bound: Bound, limit: nat)
    ensures var s := Start(all, cursor, bound); var orders := Page(all, cursor, bound, limit);
      && (|orders| < limit <==> |all| < s + limit)
      && (|orders| >= limit ==> |orders| == limit && |all| >= s + limit)
      && (|orders| >= limit > 0 ==> orders[|orders| - 1] == all[s + limit - 1])
  {
  }

  /** The creation time of an order after the cursor brings the cursor closer to the end. */
  lemma Travel(all: seq<BrokerOrder>, cursor: Option<int>, bound: Bound, t: int, i: nat)
    requires BrokerList(all) && Start(all, cursor, bound) <= i < |all| && all[i].createdAt == t
    ensures IsAfter(t, cursor, bound)
    ensures cursor.Some? && t > cursor.value ==> Distance(all, Some(t)) < Distance(all, cursor)
    ensures cursor.Some? && t >= cursor.value ==> Distance(all, Some(cursor.value + 1)) < Distance(all, cursor)
  {
    AfterStart(all, cursor, bound);
    assert t <= all[|all| - 1].createdAt;
  }

  /** After a full page the cursor comes closer to the end, or stays and the frontier advances. */
  lemma Turn(all: seq<BrokerOrder>, first: nat, limit: nat, bound: Bound, cursor: Option<int>, k: nat,
             results: seq<BrokerOrder>, missed: bool, t: int, added: nat) returns (k': nat, lost: bool)
    requires BrokerList(all) && limit > 0 && AtTail(all, first, limit, bound, cursor, results, missed)
    requires Start(all, cursor, bound) + limit <= |all| && t == all[Start(all, cursor, bound) + limit - 1].createdAt
    requires added == Start(all, cursor, bound) + limit - k
    ensures k' <= |all|
    ensures cursor.None? || t > cursor.value ==>
      && AtHead(all, first, limit, bound, Some(t), k', results, lost)
      && (cursor.Some? ==> Distance(all, Some(t)) < Distance(all, cursor))
    ensures cursor.Some? && t <= cursor.value && added > 0 ==>
      AtHead(all, first, limit, bound, cursor, k', results, lost) && k < k'
    ensures cursor.Some? && t <= cursor.value && added == 0 ==>
      && AtHead(all, first, limit, bound, Some(cursor.value + 1), k', results, lost)
      && Distance(all, Some(cursor.value + 1)) < Distance(all, cursor)
  {
    hide AtHead, AtTail, BrokerList, Start, Distance;
    Travel(all, cursor, bound, t, Start(all, cursor, bound) + limit - 1);
    if cursor.None? || t > cursor.value {
      k', lost := Forward(all, first, limit, bound, cursor, results, missed, t);
    } else if added > 0 {
      SamePage(all, first, limit, bound, cursor, results, missed);
      k', lost := Start(all, cursor, bound) + limit, missed;
    } else {
      k', lost := Nudged(all, first, limit, bound, cursor.value, results, missed);
    }
  }

  /** One request and the orders it adds. */
  method TakeNextPage(all: seq<BrokerOrder>, limit: nat, cursor: Option<int>, bound: Bound,
                      results: seq<BrokerOrder>, seenIds: set<string>, ghost first: nat, ghost k: nat,
                      ghost missed: bool)
    returns (orders: seq<BrokerOrder>, more: seq<BrokerOrder>, seen: set<string>, added: nat)
    requires BrokerList(all) && limit > 0 && seenIds == Ids(results)
    requires AtHead(all, first, limit, bound, cursor, k, results, missed)
    ensures orders == Page(all, cursor, bound, limit) && seen == Ids(more)
    ensures AtTail(all, first, limit, bound, cursor, more, missed)
    ensures |orders| < limit <==> |all| < Start(all, cursor, bound) + limit
    ensures |orders| >= limit ==>
      && Start(all, cursor, bound) + limit <= |all| && added == Start(all, cursor, bound) + limit - k
      && |orders| == limit && orders[limit - 1] == all[Start(all, cursor, bound) + limit - 1]
  {
    hide AtHead, AtTail, KnownUpTo, Ids, Page, BrokerList, Start;
    orders := Page(all, cursor, bound, limit);
    TakeIn(all, first, limit, bound, cursor, k, results, missed);
    more, seen, added := AddNew(orders, results, seenIds, k - Start(all, cursor, bound));
    PageLength(all, cursor, bound, limit);
  }

  /** Terminates on every finite list, never returns a duplicate, stays in order, and returns every
      order after the start cursor exactly when no page boundary cuts through a tie (when the bound
      is exclusive), or no tie is larger than a page (when it is inclusive). An order that is lost ties
      with a returned one in any case. */
  method GetOrders(all: seq<BrokerOrder>, limit: int, after: Option<int>, bound: Bound)
    returns (r: Result<seq<BrokerOrder>, PagingError>)
    requires BrokerList(all)
    ensures r.Err? <==> limit <= 0
    ensures r.Ok? ==> NoDuplicates(r.value) && Chronological(r.value)
    ensures r.Ok? ==> forall o :: o in r.value ==> o in Matching(all, after, bound)
    ensures r.Ok? ==> LosesOnlyTies(Matching(all, after, bound), r.value)
    ensures r.Ok? ==>
              (r.value == Matching(all, after, bound) <==> PagesAreComplete(Matching(all, after, bound), limit, bound))
  {
    if limit <= 0 {
      return Err(LimitMustBePositive);
    }
    var pageSize: nat := limit;
    hide AtHead, AtTail, KnownUpTo, PagesAreComplete, NoDuplicates, Chronological, Ids, Page, BrokerList, Distance,
         Matching, Start, Collected, Decided, LosesOnlyTies;
    var results: seq<BrokerOrder>, seenIds: set<string> := [], {};
    var cursor := after;
    ghost var first := Start(all, after, bound);
    ghost var k: nat, missed := first, false;
    LoopBegins(all, pageSize, bound, after);
    NothingSeen();
    while true
      invariant seenIds == Ids(results) && k <= |all|
      invariant AtHead(all, first, pageSize, bound, cursor, k, results, missed)
      decreases cursor.None?, Distance(all, cursor), |all| - k
    {
      var orders, newOrdersAdded;
      orders, results, seenIds, newOrdersAdded :=
        TakeNextPage(all, pageSize, cursor, bound, results, seenIds, first, k, missed);
      if orders == [] || |orders| < pageSize {
        break;
      }
      var lastCreatedAt := orders[|orders| - 1].createdAt;
      k, missed := Turn(all, first, pageSize, bound, cursor, k, results, missed, lastCreatedAt, newOrdersAdded);
      if cursor.None? || lastCreatedAt > cursor.value {
        cursor := Some(lastCreatedAt);
        continue;
      }
      if newOrdersAdded > 0 {
        continue;
      }
      cursor := Some(cursor.value + 1);
    }
    Finished(all, pageSize, bound, after, cursor, results, missed);
    r := Ok(results);
  }

  /** With distinct creation times every page limit returns everything, whichever way the broker
      reads "after". */
  lemma DistinctTimesAreComplete(all: seq<BrokerOrder>, after: Option<int>, limit: nat, bound: Bound)
    requires BrokerList(all) && limit > 0
    requires forall i, j :: 0 <= i < j < |all| ==> all[i].createdAt != all[j].createdAt
    ensures PagesAreComplete(Matching(all, after, bound), limit, bound)
  {
  }

  /** With an exclusive bound two tied orders are enough to lose one; an inclusive bound needs more
      than a page of them. */
  lemma TiesCanBeLost(t: int)
    ensures var all := [BrokerOrder("a", t), BrokerOrder("b", t)];
      && BrokerList(all) && Matching(all, None, Exclusive) == all
      && !PagesAreComplete(all, 1, Exclusive) && PagesAreComplete(all, 2, Inclusive)
  {
    var all := [BrokerOrder("a", t), BrokerOrder("b", t)];
    assert all[1 - 1].createdAt == all[1].createdAt;
  }
}
