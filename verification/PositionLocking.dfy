/** Fill transactions on the positions table, interleaved step by step. */
module PositionLocking {
  import opened PositionMath

  /** `Serialised` transactions take the symbol's advisory lock before they read;
      `Unserialised` ones read and upsert without it. */
  datatype Route = Serialised | Unserialised

  datatype Stage =
    | Idle
    | HoldsLock
    | HasRead(seen: Position)
    | HasWritten(next: Position)
    | Committed
    | RolledBack

  /** One webhook transaction: one fill on one symbol. */
  datatype Txn = Txn(symbol: string, fill: Fill, route: Route, stage: Stage)

  /** Committed positions, lock holders, transactions, and the ids of the committed ones in order. */
  datatype World = World(positions: map<string, Position>, locks: map<string, nat>,
                         txns: map<nat, Txn>, log: seq<nat>)

  function Current(w: World, symbol: string): Position {
    if symbol in w.positions then w.positions[symbol] else FLAT
  }

  function Move(w: World, t: nat, stage: Stage): map<nat, Txn>
    requires t in w.txns
  {
    w.txns[t := w.txns[t].(stage := stage)]
  }

  /** pg_advisory_xact_lock: waits until the symbol is free. */
  predicate Acquire(w: World, next: World, t: nat) {
    && t in w.txns && w.txns[t].stage == Idle && w.txns[t].route == Serialised
    && w.txns[t].symbol !in w.locks
    && next == w.(locks := w.locks[w.txns[t].symbol := t], txns := Move(w, t, HoldsLock))
  }

  /** SELECT of the committed row. */
  predicate Read(w: World, next: World, t: nat) {
    && t in w.txns
    && (w.txns[t].stage == HoldsLock || (w.txns[t].stage == Idle && w.txns[t].route == Unserialised))
    && next == w.(txns := Move(w, t, HasRead(Current(w, w.txns[t].symbol))))
  }

  /** The upsert, visible to others only after the commit. */
  predicate Write(w: World, next: World, t: nat) {
    && t in w.txns && w.txns[t].stage.HasRead?
    && next == w.(txns := Move(w, t, HasWritten(ApplyFill(w.txns[t].stage.seen, w.txns[t].fill))))
  }

  function Release(w: World, t: nat): map<string, nat>
    requires t in w.txns
  {
    if w.txns[t].symbol in w.locks && w.locks[w.txns[t].symbol] == t
    then w.locks - {w.txns[t].symbol} else w.locks
  }

  predicate Commit(w: World, next: World, t: nat) {
    && t in w.txns && w.txns[t].stage.HasWritten?
    && next == World(w.positions[w.txns[t].symbol := w.txns[t].stage.next], Release(w, t),
                     Move(w, t, Committed), w.log + [t])
  }

  predicate Rollback(w: World, next: World, t: nat) {
    && t in w.txns && !w.txns[t].stage.Committed? && !w.txns[t].stage.RolledBack?
    && next == w.(locks := Release(w, t), txns := Move(w, t, RolledBack))
  }

  predicate StepOf(w: World, next: World, t: nat) {
    Acquire(w, next, t) || Read(w, next, t) || Write(w, next, t) || Commit(w, next, t) || Rollback(w, next, t)
  }

  ghost predicate Next(w: World, next: World) {
    exists t :: StepOf(w, next, t)
  }

  predicate Init(w: World) {
    w.positions == map[] && w.locks == map[] && w.log == [] && forall t :: t in w.txns ==> w.txns[t].stage == Idle
  }

  ghost predicate Run(ws: seq<World>) {
    ws != [] && Init(ws[0]) && forall i :: 0 <= i < |ws| - 1 ==> Next(ws[i], ws[i + 1])
  }

  /** Fills of the committed transactions on the symbol, in commit order. */
  function CommittedFills(w: World, symbol: string, log: seq<nat>): seq<Fill>
    requires forall t :: t in log ==> t in w.txns
    decreases |log|
  {
    if log == [] then []
    else
      var t := log[|log| - 1];
      CommittedFills(w, symbol, log[..|log| - 1]) +
      if w.txns[t].symbol == symbol then [w.txns[t].fill] else []
  }

  predicate On(w: World, symbol: string, t: nat) {
    t in w.txns && w.txns[t].symbol == symbol
  }

  /** Of any two transactions on the symbol both take the lock. */
  ghost predicate Exclusive(w: World, symbol: string) {
    forall a, b :: On(w, symbol, a) && On(w, symbol, b) && a != b ==> w.txns[a].route == w.txns[b].route == Serialised
  }

  /** The log lists every committed transaction once. */
  ghost predicate LogIsCommitted(w: World) {
    && (forall t :: t in w.log <==> t in w.txns && w.txns[t].stage == Committed)
    && (forall i, j :: 0 <= i < j < |w.log| ==> w.log[i] != w.log[j])
  }

  /** Past the lock means holding it; what was read or computed is still what the table implies. */
  predicate InOrder(w: World, txn: Txn, t: nat) {
    && (txn.stage.HoldsLock? || (txn.route == Serialised && (txn.stage.HasRead? || txn.stage.HasWritten?)) ==>
          txn.symbol in w.locks && w.locks[txn.symbol] == t)
    && (txn.stage.HasRead? ==> txn.stage.seen == Current(w, txn.symbol))
    && (txn.stage.HasWritten? ==> txn.stage.next == ApplyFill(Current(w, txn.symbol), txn.fill))
  }

  ghost predicate AllInOrder(w: World, symbol: string) {
    forall t :: t in w.txns && w.txns[t].symbol == symbol ==> InOrder(w, w.txns[t], t)
  }

  ghost predicate FoldOfLog(w: World, symbol: string)
    requires LogIsCommitted(w)
  {
    Current(w, symbol) == ApplyFills(FLAT, CommittedFills(w, symbol, w.log))
  }

  ghost predicate Inv(w: World, symbol: string) {
    Exclusive(w, symbol) && AllInOrder(w, symbol) && LogIsCommitted(w) && FoldOfLog(w, symbol)
  }

  /** Moving a transaction through its stages keeps its symbol and fill. */
  lemma {:induction false} SameFills(w: World, next: World, symbol: string, log: seq<nat>)
    requires forall t :: t in log ==> t in w.txns && t in next.txns
    requires forall t :: t in log ==> next.txns[t].symbol == w.txns[t].symbol && next.txns[t].fill == w.txns[t].fill
    ensures CommittedFills(next, symbol, log) == CommittedFills(w, symbol, log)
    decreases |log|
  {
    if log != [] {
      assert log[|log| - 1] in log;
      SameFills(w, next, symbol, log[..|log| - 1]);
    }
  }

  lemma StepKeepsOrder(w: World, next: World, symbol: string, t: nat, x: nat)
    requires StepOf(w, next, t) && Exclusive(w, symbol) && AllInOrder(w, symbol)
    requires x in next.txns && next.txns[x].symbol == symbol
    ensures InOrder(next, next.txns[x], x)
  {
    hide ApplyFill;
    assert InOrder(w, w.txns[x], x);
    if w.txns[t].symbol == symbol {
      assert InOrder(w, w.txns[t], t);
      assert On(w, symbol, t) && On(w, symbol, x);
    }
  }

  lemma CommitKeepsLog(w: World, next: World, t: nat)
    requires Commit(w, next, t) && LogIsCommitted(w)
    ensures LogIsCommitted(next)
  {
    hide ApplyFill, Release;
    assert t !in w.log;
    forall x ensures x in next.log <==> x in next.txns && next.txns[x].stage == Committed {
      assert x in next.log <==> x in w.log || x == t;
    }
  }

  lemma StepKeepsLog(w: World, next: World, t: nat)
    requires StepOf(w, next, t) && LogIsCommitted(w)
    ensures LogIsCommitted(next)
  {
    hide ApplyFill, Release, Commit;
    if Commit(w, next, t) {
      CommitKeepsLog(w, next, t);
    } else {
      assert next.log == w.log;
    }
  }

  lemma CommittedOneMore(w: World, next: World, symbol: string, t: nat)
    requires Commit(w, next, t) && LogIsCommitted(w) && LogIsCommitted(next)
    ensures CommittedFills(next, symbol, next.log)
         == CommittedFills(w, symbol, w.log) + if w.txns[t].symbol == symbol then [w.txns[t].fill] else []
  {
    hide ApplyFill, Release;
    assert next.log[..|w.log|] == w.log;
    SameFills(w, next, symbol, w.log);
  }

  lemma CommitKeepsFold(w: World, next: World, symbol: string, t: nat)
    requires Commit(w, next, t) && Inv(w, symbol) && LogIsCommitted(next)
    ensures FoldOfLog(next, symbol)
  {
    hide ApplyFill, Release, CommittedFills, Exclusive;
    CommittedOneMore(w, next, symbol, t);
    var fills, f := CommittedFills(w, symbol, w.log), w.txns[t].fill;
    if w.txns[t].symbol == symbol {
      assert InOrder(w, w.txns[t], t);
      ApplyFillsConcat(FLAT, fills, [f]);
      assert [f][1..] == [];
      assert ApplyFills(ApplyFills(FLAT, fills), [f]) == ApplyFill(ApplyFills(FLAT, fills), f);
    } else {
      assert fills + [] == fills;
    }
  }

  lemma OtherStepsKeepFold(w: World, next: World, symbol: string, t: nat)
    requires StepOf(w, next, t) && !Commit(w, next, t) && Inv(w, symbol) && LogIsCommitted(next)
    ensures FoldOfLog(next, symbol)
  {
    hide ApplyFill, ApplyFills, InOrder;
    SameFills(w, next, symbol, w.log);
  }

  lemma StepKeepsProgram(w: World, next: World, t: nat, x: nat)
    requires StepOf(w, next, t)
    ensures x in next.txns <==> x in w.txns
    ensures x in w.txns ==>
      next.txns[x].symbol == w.txns[x].symbol && next.txns[x].route == w.txns[x].route &&
      next.txns[x].fill == w.txns[x].fill
  {
    hide ApplyFill;
  }

  lemma StepKeepsRoutes(w: World, next: World, symbol: string, t: nat)
    requires StepOf(w, next, t) && Exclusive(w, symbol)
    ensures Exclusive(next, symbol)
  {
    hide StepOf;
    forall a, b | On(next, symbol, a) && On(next, symbol, b) && a != b
      ensures next.txns[a].route == next.txns[b].route == Serialised
    {
      StepKeepsProgram(w, next, t, a);
      StepKeepsProgram(w, next, t, b);
      assert On(w, symbol, a) && On(w, symbol, b);
    }
  }

  lemma StepKeepsInv(w: World, next: World, symbol: string, t: nat)
    requires Inv(w, symbol) && StepOf(w, next, t)
    ensures Inv(next, symbol)
  {
    hide ApplyFill, ApplyFills, InOrder, FoldOfLog, StepOf, Exclusive, LogIsCommitted;
    StepKeepsRoutes(w, next, symbol, t);
    forall x | x in next.txns && next.txns[x].symbol == symbol ensures InOrder(next, next.txns[x], x) {
      StepKeepsOrder(w, next, symbol, t, x);
    }
    StepKeepsLog(w, next, t);
    if Commit(w, next, t) {
      CommitKeepsFold(w, next, symbol, t);
    } else {
      OtherStepsKeepFold(w, next, symbol, t);
    }
  }

  lemma {:induction false} RunKeepsInv(ws: seq<World>, n: nat, symbol: string)
    requires Run(ws) && n < |ws| && Exclusive(ws[0], symbol)
    ensures Inv(ws[n], symbol)
  {
    if n > 0 {
      RunKeepsInv(ws, n - 1, symbol);
      assert Next(ws[n - 1], ws[n - 1 + 1]);
      var t :| StepOf(ws[n - 1], ws[n], t);
      StepKeepsInv(ws[n - 1], ws[n], symbol, t);
    }
  }

  /** No lost fills: at every point of every interleaving the committed position of a symbol whose
      transactions all take the lock is the fold of its committed fills, each exactly once, in
      commit order. A transaction alone on its symbol needs no lock. */
  lemma NoLostFills(ws: seq<World>, n: nat, symbol: string)
    requires Run(ws) && n < |ws| && Exclusive(ws[0], symbol)
    ensures LogIsCommitted(ws[n])
    ensures Current(ws[n], symbol) == ApplyFills(FLAT, CommittedFills(ws[n], symbol, ws[n].log))
  {
    RunKeepsInv(ws, n, symbol);
  }

  lemma {:induction false} FillsConcat(w: World, symbol: string, a: seq<nat>, b: seq<nat>)
    requires forall t :: t in a + b ==> t in w.txns
    ensures (forall t :: t in a ==> t in w.txns) && (forall t :: t in b ==> t in w.txns)
    ensures CommittedFills(w, symbol, a + b) == CommittedFills(w, symbol, a) + CommittedFills(w, symbol, b)
    decreases |b|
  {
    assert forall t :: t in a ==> t in a + b;
    assert forall t :: t in b ==> t in a + b;
    if b == [] {
      assert a + b == a;
    } else {
      var n := |b| - 1;
      assert (a + b)[..|a| + n] == a + b[..n];
      FillsConcat(w, symbol, a, b[..n]);
    }
  }

  lemma FillsWithout(w: World, symbol: string, b: seq<nat>, i: nat)
    requires i < |b| && forall t :: t in b ==> t in w.txns
    ensures forall t :: t in b[..i] + b[i + 1..] ==> t in w.txns
    ensures multiset(CommittedFills(w, symbol, b))
         == multiset(CommittedFills(w, symbol, b[..i] + b[i + 1..])) + multiset(CommittedFills(w, symbol, [b[i]]))
  {
    assert b == (b[..i] + [b[i]]) + b[i + 1..];
    FillsConcat(w, symbol, b[..i] + [b[i]], b[i + 1..]);
    FillsConcat(w, symbol, b[..i], [b[i]]);
    FillsConcat(w, symbol, b[..i], b[i + 1..]);
  }

  /** The fills of one log, as a multiset, are those of any other log of the same transactions. */
  lemma {:induction false} SameTransactionsSameFills(w: World, symbol: string, a: seq<nat>, b: seq<nat>)
    requires forall t :: t in a ==> t in w.txns
    requires forall t :: t in b ==> t in w.txns
    requires multiset(a) == multiset(b)
    ensures multiset(CommittedFills(w, symbol, a)) == multiset(CommittedFills(w, symbol, b))
    decreases |a|
  {
    hide CommittedFills;
    if a == [] {
      assert |multiset(b)| == |b|;
    } else {
      var n := |a| - 1;
      var i := FindSame(a, b);
      FillsWithout(w, symbol, b, i);
      SameTransactionsSameFills(w, symbol, a[..n], b[..i] + b[i + 1..]);
      FillsWithout(w, symbol, a, n);
      assert a[..n] + a[n + 1..] == a[..n];
    }
  }

  lemma FindSame(a: seq<nat>, b: seq<nat>) returns (i: nat)
    requires multiset(a) == multiset(b) && a != []
    ensures i < |b| && b[i] == a[|a| - 1]
    ensures multiset(a[..|a| - 1]) == multiset(b[..i] + b[i + 1..])
  {
    var n := |a| - 1;
    assert a[n] in multiset(a);
    assert a[n] in b;
    i :| 0 <= i < |b| && b[i] == a[n];
    WithoutOne(a, n);
    WithoutOne(b, i);
    assert a[..n] + a[n + 1..] == a[..n];
  }

  lemma WithoutOne(s: seq<nat>, i: nat)
    requires i < |s|
    ensures multiset(s[..i] + s[i + 1..]) == multiset(s) - multiset{s[i]}
  {
    assert s == s[..i] + [s[i]] + s[i + 1..];
  }

  /** Two interleavings that commit the same transactions agree on the quantity and on the equity
      at every mark price, so on realized - qty * avg. */
  lemma InterleavingDoesNotMatter(us: seq<World>, m: nat, vs: seq<World>, n: nat, symbol: string, mark: real)
    requires Run(us) && m < |us| && Run(vs) && n < |vs| && us[0] == vs[0] && Exclusive(us[0], symbol)
    requires forall t :: t in us[m].log <==> t in vs[n].log
    ensures Current(us[m], symbol).qty == Current(vs[n], symbol).qty
    ensures Equity(Current(us[m], symbol), mark) == Equity(Current(vs[n], symbol), mark)
  {
    NoLostFills(us, m, symbol);
    NoLostFills(vs, n, symbol);
    SameProgram(us, m);
    SameProgram(vs, n);
    var a, b := us[m].log, vs[n].log;
    DistinctListsSameMultiset(a, b);
    SameFills(us[m], vs[n], symbol, b);
    SameTransactionsSameFills(us[m], symbol, a, b);
    FillOrderKeepsEquity(FLAT, CommittedFills(us[m], symbol, a), CommittedFills(vs[n], symbol, b), mark);
  }

  /** A run never changes what a transaction is to do. */
  lemma {:induction false} SameProgram(ws: seq<World>, n: nat)
    requires Run(ws) && n < |ws|
    ensures ws[n].txns.Keys == ws[0].txns.Keys
    ensures forall t :: t in ws[n].txns ==>
      ws[n].txns[t].symbol == ws[0].txns[t].symbol && ws[n].txns[t].fill == ws[0].txns[t].fill
  {
    if n > 0 {
      SameProgram(ws, n - 1);
      assert Next(ws[n - 1], ws[n - 1 + 1]);
    }
  }

  lemma DistinctListsSameMultiset(a: seq<nat>, b: seq<nat>)
    requires forall i, j :: 0 <= i < j < |a| ==> a[i] != a[j]
    requires forall i, j :: 0 <= i < j < |b| ==> b[i] != b[j]
    requires forall t :: t in a <==> t in b
    ensures multiset(a) == multiset(b)
  {
    forall t ensures multiset(a)[t] == multiset(b)[t] {
      AtMostOnce(a, t);
      AtMostOnce(b, t);
    }
  }

  lemma {:induction false} AtMostOnce(a: seq<nat>, t: nat)
    requires forall i, j :: 0 <= i < j < |a| ==> a[i] != a[j]
    ensures multiset(a)[t] == if t in a then 1 else 0
    decreases |a|
  {
    if a != [] {
      var n := |a| - 1;
      assert a == a[..n] + [a[n]];
      AtMostOnce(a[..n], t);
    }
  }

  // ---------------------------------------------------------------------------
  // Exactly when a fill can be lost
  // ---------------------------------------------------------------------------

  /** Transaction `b` can overwrite the fill of `a`: it moves the position, and not both take the lock. */
  predicate CanOverwrite(w: World, symbol: string, a: nat, b: nat) {
    && On(w, symbol, a) && On(w, symbol, b) && a != b
    && w.txns[a].fill.qty > 0
    && (w.txns[a].route == Unserialised || w.txns[b].route == Unserialised)
  }

  ghost predicate NoOverwrites(w: World, symbol: string) {
    forall a, b :: !CanOverwrite(w, symbol, a, b)
  }

  /** The stored position is the fold of the committed fills, each exactly once. */
  ghost predicate KeepsFills(w: World, symbol: string) {
    LogIsCommitted(w) && FoldOfLog(w, symbol)
  }

  /** No fill on the symbol moves the position. */
  ghost predicate AllZero(w: World, symbol: string) {
    forall t :: On(w, symbol, t) ==> w.txns[t].fill.qty == 0
  }

  lemma ExclusiveOrZero(w: World, symbol: string)
    requires NoOverwrites(w, symbol)
    ensures Exclusive(w, symbol) || AllZero(w, symbol)
  {
    if !Exclusive(w, symbol) && !AllZero(w, symbol) {
      var a, b :| On(w, symbol, a) && On(w, symbol, b) && a != b && !(w.txns[a].route == w.txns[b].route == Serialised);
      var t :| On(w, symbol, t) && w.txns[t].fill.qty > 0;
      var u := if w.txns[a].route == Unserialised then a else b;
      var other := if t == u then (if a == u then b else a) else u;
      assert CanOverwrite(w, symbol, t, other);
    }
  }

  lemma ZeroFill(f: Fill)
    requires f.qty == 0
    ensures ApplyFill(FLAT, f) == FLAT
  {
  }

  /** While no fill moves the position, everything read, computed and stored is flat. */
  ghost predicate StaysFlat(w: World, symbol: string) {
    && AllZero(w, symbol) && Current(w, symbol) == FLAT
    && forall t :: On(w, symbol, t) ==>
         && (w.txns[t].stage.HasRead? ==> w.txns[t].stage.seen == FLAT)
         && (w.txns[t].stage.HasWritten? ==> w.txns[t].stage.next == FLAT)
  }

  lemma StepStaysFlat(w: World, next: World, symbol: string, t: nat)
    requires StepOf(w, next, t) && StaysFlat(w, symbol)
    ensures StaysFlat(next, symbol)
  {
    hide ApplyFill;
    if On(w, symbol, t) {
      ZeroFill(w.txns[t].fill);
    }
    forall x | On(next, symbol, x)
      ensures next.txns[x].fill.qty == 0
      ensures next.txns[x].stage.HasRead? ==> next.txns[x].stage.seen == FLAT
      ensures next.txns[x].stage.HasWritten? ==> next.txns[x].stage.next == FLAT
    {
      assert On(w, symbol, x);
    }
  }

  lemma {:induction false} ZeroFillsFoldFlat(w: World, symbol: string, log: seq<nat>)
    requires AllZero(w, symbol) && forall t :: t in log ==> t in w.txns
    ensures ApplyFills(FLAT, CommittedFills(w, symbol, log)) == FLAT
    decreases |log|
  {
    hide ApplyFill;
    if log != [] {
      var t := log[|log| - 1];
      ZeroFillsFoldFlat(w, symbol, log[..|log| - 1]);
      if w.txns[t].symbol == symbol {
        assert On(w, symbol, t);
        var f := w.txns[t].fill;
        ZeroFill(f);
        ApplyFillsConcat(FLAT, CommittedFills(w, symbol, log[..|log| - 1]), [f]);
        assert [f][1..] == [] && ApplyFills(FLAT, [f]) == ApplyFill(FLAT, f);
      } else {
        assert CommittedFills(w, symbol, log) == CommittedFills(w, symbol, log[..|log| - 1]);
      }
    }
  }

  lemma {:induction false} RunStaysFlat(ws: seq<World>, n: nat, symbol: string)
    requires Run(ws) && n < |ws| && AllZero(ws[0], symbol)
    ensures StaysFlat(ws[n], symbol) && LogIsCommitted(ws[n])
  {
    if n > 0 {
      RunStaysFlat(ws, n - 1, symbol);
      assert Next(ws[n - 1], ws[n - 1 + 1]);
      var t :| StepOf(ws[n - 1], ws[n], t);
      StepStaysFlat(ws[n - 1], ws[n], symbol, t);
      StepKeepsLog(ws[n - 1], ws[n], t);
    }
  }

  lemma OneMoreStep(ws: seq<World>, next: World, t: nat)
    requires Run(ws) && StepOf(ws[|ws| - 1], next, t)
    ensures Run(ws + [next])
  {
    hide StepOf;
    var longer := ws + [next];
    forall i | 0 <= i < |longer| - 1 ensures Next(longer[i], longer[i + 1]) {
      if i < |ws| - 1 {
        assert Next(ws[i], ws[i + 1]);
      }
    }
  }

  /** A transaction reads: at once, or after taking the free lock. */
  lemma ReadsNow(ws: seq<World>, t: nat) returns (longer: seq<World>)
    requires Run(ws)
    requires var w := ws[|ws| - 1];
      t in w.txns && w.txns[t].stage == Idle && (w.txns[t].route == Serialised ==> w.txns[t].symbol !in w.locks)
    ensures Run(longer) && longer[0] == ws[0]
    ensures var w, last := ws[|ws| - 1], longer[|longer| - 1];
      && last.txns == Move(w, t, HasRead(Current(w, w.txns[t].symbol)))
      && last.positions == w.positions && last.log == w.log
      && last.locks == if w.txns[t].route == Serialised then w.locks[w.txns[t].symbol := t] else w.locks
  {
    hide Next, Init;
    var w := ws[|ws| - 1];
    longer := ws;
    var ready := w;
    if w.txns[t].route == Serialised {
      ready := w.(locks := w.locks[w.txns[t].symbol := t], txns := Move(w, t, HoldsLock));
      assert Acquire(w, ready, t);
      OneMoreStep(ws, ready, t);
      longer := ws + [ready];
    }
    var next := ready.(txns := Move(ready, t, HasRead(Current(ready, ready.txns[t].symbol))));
    assert Read(ready, next, t);
    OneMoreStep(longer, next, t);
    longer := longer + [next];
  }

  /** A transaction that has read computes, writes and commits. */
  lemma CommitsNow(ws: seq<World>, t: nat) returns (longer: seq<World>)
    requires Run(ws)
    requires var w := ws[|ws| - 1]; t in w.txns && w.txns[t].stage.HasRead?
    ensures Run(longer) && longer[0] == ws[0]
    ensures var w, last := ws[|ws| - 1], longer[|longer| - 1];
      && last == World(w.positions[w.txns[t].symbol := ApplyFill(w.txns[t].stage.seen, w.txns[t].fill)],
                       Release(w, t), Move(w, t, Committed), w.log + [t])
  {
    hide Next, Init, ApplyFill;
    var w := ws[|ws| - 1];
    var w1 := w.(txns := Move(w, t, HasWritten(ApplyFill(w.txns[t].stage.seen, w.txns[t].fill))));
    assert Write(w, w1, t);
    OneMoreStep(ws, w1, t);
    var w2 := World(w1.positions[w1.txns[t].symbol := w1.txns[t].stage.next], Release(w1, t), Move(w1, t, Committed),
                    w1.log + [t]);
    assert Commit(w1, w2, t);
    OneMoreStep(ws + [w1], w2, t);
    longer := ws + [w1] + [w2];
    assert Move(w1, t, Committed) == Move(w, t, Committed);
  }

  /** Such a pair has a run that loses the fill of `a`: `b` reads, `a` runs to its commit, and `b`
      commits what it computed from what it read before. */
  lemma OverwriteLosesTheFill(w: World, symbol: string, a: nat, b: nat) returns (ws: seq<World>)
    requires Init(w) && CanOverwrite(w, symbol, a, b)
    ensures ws != [] && Run(ws) && ws[0] == w
    ensures var last := ws[|ws| - 1];
      && last.log == [a, b] && Current(last, symbol) == ApplyFill(FLAT, w.txns[b].fill)
      && !KeepsFills(last, symbol)
  {
    hide Next, ApplyFill, LogIsCommitted;
    assert Run([w]) by { RunOfOne(w); }
    ws := ReadsNow([w], b);
    ws := ReadsNow(ws, a);
    ws := CommitsNow(ws, a);
    ws := CommitsNow(ws, b);
    var last := ws[|ws| - 1];
    FoldOfTwo(last, symbol, a, b);
  }

  lemma RunOfOne(w: World)
    requires Init(w)
    ensures Run([w])
  {
  }

  lemma TwoFillsMoveTwice(f: Fill, g: Fill)
    ensures ApplyFills(FLAT, [f, g]).qty == SignedQty(f.qty, f.side) + SignedQty(g.qty, g.side)
    ensures ApplyFill(FLAT, g).qty == SignedQty(g.qty, g.side)
  {
    hide ApplyFill;
    AccountingIdentity(FLAT, [f, g], 0.0);
    assert [f, g][1..] == [g] && [g][1..] == [];
    assert NetQty([g]) == SignedQty(g.qty, g.side) + NetQty([]);
    FillMovesQty(FLAT, g);
  }

  lemma FoldOfTwo(w: World, symbol: string, a: nat, b: nat)
    requires On(w, symbol, a) && On(w, symbol, b) && w.log == [a, b] && w.txns[a].fill.qty > 0
    requires Current(w, symbol) == ApplyFill(FLAT, w.txns[b].fill)
    ensures !KeepsFills(w, symbol)
  {
    hide ApplyFill, ApplyFills;
    var f, g := w.txns[a].fill, w.txns[b].fill;
    assert [a, b][..1] == [a] && [a][..0] == [];
    assert CommittedFills(w, symbol, [a]) == [] + [f] == [f];
    assert CommittedFills(w, symbol, [a, b]) == [f] + [g] == [f, g];
    TwoFillsMoveTwice(f, g);
  }

  /** No run from this start loses a fill on the symbol. */
  ghost predicate NothingIsLost(w: World, symbol: string) {
    forall ws, n: nat :: n < |ws| && Run(ws) && ws[0] == w ==> KeepsFills(ws[n], symbol)
  }

  lemma SafeRunKeepsFills(ws: seq<World>, n: nat, symbol: string)
    requires n < |ws| && Run(ws) && NoOverwrites(ws[0], symbol)
    ensures KeepsFills(ws[n], symbol)
  {
    hide NoOverwrites, Run;
    ExclusiveOrZero(ws[0], symbol);
    if Exclusive(ws[0], symbol) {
      RunKeepsInv(ws, n, symbol);
    } else {
      RunStaysFlat(ws, n, symbol);
      FlatIsTheFold(ws[n], symbol);
    }
  }

  /** Over every run from a start, no fill on the symbol is lost if and only if no transaction on it can
      overwrite another's: each fill that moves the position takes the lock, and so does every other
      transaction on the symbol, those with a zero fill included. */
  lemma NoFillIsLostIff(w: World, symbol: string)
    requires Init(w)
    ensures NothingIsLost(w, symbol) <==> NoOverwrites(w, symbol)
  {
    hide Run, KeepsFills, NoOverwrites;
    if NoOverwrites(w, symbol) {
      forall ws, n: nat | n < |ws| && Run(ws) && ws[0] == w
        ensures KeepsFills(ws[n], symbol)
      {
        SafeRunKeepsFills(ws, n, symbol);
      }
    } else {
      var a, b := OverwritingPair(w, symbol);
      var ws := OverwriteLosesTheFill(w, symbol, a, b);
      var n := |ws| - 1;
      assert n < |ws| && Run(ws) && ws[0] == w && !KeepsFills(ws[n], symbol);
    }
  }

  lemma OverwritingPair(w: World, symbol: string) returns (a: nat, b: nat)
    requires !NoOverwrites(w, symbol)
    ensures CanOverwrite(w, symbol, a, b)
  {
    a, b :| CanOverwrite(w, symbol, a, b);
  }

  lemma FlatIsTheFold(w: World, symbol: string)
    requires StaysFlat(w, symbol) && LogIsCommitted(w)
    ensures FoldOfLog(w, symbol)
  {
    ZeroFillsFoldFlat(w, symbol, w.log);
  }

  // ---------------------------------------------------------------------------
  // No transaction is shut out
  // ---------------------------------------------------------------------------

  predicate Unfinished(stage: Stage) {
    stage != Committed && stage != RolledBack
  }

  /** Past its lock, and not at its end. */
  predicate PastLock(txn: Txn) {
    txn.route == Serialised && txn.stage != Idle && Unfinished(txn.stage)
  }

  /** A lock is held by a transaction on its symbol that has moved past it and not ended. */
  ghost predicate LocksAreHeld(w: World) {
    forall s :: s in w.locks ==> On(w, s, w.locks[s]) && PastLock(w.txns[w.locks[s]])
  }

  /** And one that has moved past it holds it. */
  ghost predicate HoldersHold(w: World) {
    forall t :: t in w.txns && PastLock(w.txns[t]) ==> Holds(w, t)
  }

  predicate Holds(w: World, t: nat)
    requires t in w.txns
  {
    w.txns[t].symbol in w.locks && w.locks[w.txns[t].symbol] == t
  }

  /** What a step does to locks and stages. */
  lemma StepEffect(w: World, next: World, t: nat)
    requires StepOf(w, next, t)
    ensures t in w.txns && next.txns.Keys == w.txns.Keys && Unfinished(w.txns[t].stage)
    ensures next.txns[t].symbol == w.txns[t].symbol && next.txns[t].route == w.txns[t].route
    ensures forall x :: x in w.txns && x != t ==> next.txns[x] == w.txns[x]
    ensures || (next.locks == w.locks && PastLock(next.txns[t]) == PastLock(w.txns[t]))
            || (w.txns[t].symbol !in w.locks && next.locks == w.locks[w.txns[t].symbol := t] && PastLock(next.txns[t]))
            || (next.locks == Release(w, t) && !PastLock(next.txns[t]))
  {
    hide ApplyFill, Release;
  }

  lemma StepKeepsHolders(w: World, next: World, t: nat)
    requires StepOf(w, next, t) && LocksAreHeld(w) && HoldersHold(w)
    ensures LocksAreHeld(next) && HoldersHold(next)
  {
    StepEffect(w, next, t);
    hide StepOf, PastLock;
    forall x | x in next.txns && PastLock(next.txns[x]) ensures Holds(next, x) {
      if x != t {
        assert Holds(w, x);
      }
    }
  }

  lemma {:induction false} RunKeepsHolders(ws: seq<World>, n: nat)
    requires Run(ws) && n < |ws|
    ensures LocksAreHeld(ws[n]) && HoldersHold(ws[n])
  {
    hide LocksAreHeld, HoldersHold, StepOf;
    if n == 0 {
      NoLocksYet(ws[0]);
    } else {
      RunKeepsHolders(ws, n - 1);
      assert Next(ws[n - 1], ws[n]);
      var t :| StepOf(ws[n - 1], ws[n], t);
      StepKeepsHolders(ws[n - 1], ws[n], t);
    }
  }

  lemma NoLocksYet(w: World)
    requires Init(w)
    ensures LocksAreHeld(w) && HoldersHold(w)
  {
  }

  /** Of two transactions on a symbol that take the lock, one is past it at a time. */
  lemma OnePastTheLock(ws: seq<World>, n: nat, a: nat, b: nat)
    requires Run(ws) && n < |ws| && a in ws[n].txns && b in ws[n].txns && a != b
    requires ws[n].txns[a].symbol == ws[n].txns[b].symbol
    requires PastLock(ws[n].txns[a])
    ensures !PastLock(ws[n].txns[b])
  {
    RunKeepsHolders(ws, n);
  }

  lemma ExtendRun(ws: seq<World>, next: World, t: nat)
    requires Run(ws) && StepOf(ws[|ws| - 1], next, t)
    ensures Run(ws + [next])
  {
    hide StepOf;
    var all := ws + [next];
    forall i | 0 <= i < |all| - 1 ensures Next(all[i], all[i + 1]) {
      if i < |ws| - 1 {
        assert Next(ws[i], ws[i + 1]);
      }
    }
  }

  /** Past its lock, a transaction reads, writes and commits by its own steps. */
  lemma GoesOnToCommit(ws: seq<World>, t: nat) returns (all: seq<World>)
    requires Run(ws) && t in ws[|ws| - 1].txns
    requires var txn := ws[|ws| - 1].txns[t];
             Unfinished(txn.stage) && (txn.route == Serialised ==> txn.stage != Idle)
    ensures Run(all) && ws <= all && t in all[|all| - 1].txns && all[|all| - 1].txns[t].stage == Committed
  {
    hide ApplyFill, Run;
    all := ws;
    RunsAreNotEmpty(ws);
    var w := ws[|ws| - 1];
    if w.txns[t].stage == Idle || w.txns[t].stage == HoldsLock {
      var next := w.(txns := Move(w, t, HasRead(Current(w, w.txns[t].symbol))));
      assert Read(w, next, t);
      ExtendRun(all, next, t);
      all, w := all + [next], next;
    }
    if w.txns[t].stage.HasRead? {
      var next := w.(txns := Move(w, t, HasWritten(ApplyFill(w.txns[t].stage.seen, w.txns[t].fill))));
      assert Write(w, next, t);
      ExtendRun(all, next, t);
      all, w := all + [next], next;
    }
    var next := World(w.positions[w.txns[t].symbol := w.txns[t].stage.next], Release(w, t), Move(w, t, Committed),
                      w.log + [t]);
    assert Commit(w, next, t);
    ExtendRun(all, next, t);
    all := all + [next];
  }

  lemma RunsAreNotEmpty(ws: seq<World>)
    requires Run(ws)
    ensures ws != []
  {
  }

  /** From every reachable state every unfinished transaction can still commit: whoever holds its lock ends
      and releases it. */
  lemma AnyTransactionCanCommit(ws: seq<World>, t: nat) returns (all: seq<World>)
    requires Run(ws) && t in ws[|ws| - 1].txns && Unfinished(ws[|ws| - 1].txns[t].stage)
    ensures Run(all) && ws <= all && t in all[|all| - 1].txns && all[|all| - 1].txns[t].stage == Committed
  {
    hide Run, StepOf, LocksAreHeld, HoldersHold;
    RunsAreNotEmpty(ws);
    var w := ws[|ws| - 1];
    var symbol := w.txns[t].symbol;
    if w.txns[t].route == Unserialised || w.txns[t].stage != Idle {
      all := GoesOnToCommit(ws, t);
    } else {
      all := ws;
      if symbol in w.locks {
        RunKeepsHolders(ws, |ws| - 1);
        var holder := w.locks[symbol];
        HolderIsUnfinished(w, symbol);
        var freed := RollsBack(ws, holder);
        all := ws + [freed];
        w := freed;
      }
      var next := w.(locks := w.locks[symbol := t], txns := Move(w, t, HoldsLock));
      CanAcquire(w, next, t);
      ExtendRun(all, next, t);
      all := GoesOnToCommit(all + [next], t);
    }
  }

  lemma HolderIsUnfinished(w: World, symbol: string)
    requires LocksAreHeld(w) && symbol in w.locks
    ensures On(w, symbol, w.locks[symbol]) && w.txns[w.locks[symbol]].stage != Idle
    ensures Unfinished(w.txns[w.locks[symbol]].stage)
  {
  }

  /** A holder that rolls back frees its symbol and touches nothing else. */
  lemma RollsBack(ws: seq<World>, t: nat) returns (next: World)
    requires Run(ws) && ws != [] && t in ws[|ws| - 1].txns && Unfinished(ws[|ws| - 1].txns[t].stage)
    requires var w := ws[|ws| - 1]; w.txns[t].symbol in w.locks && w.locks[w.txns[t].symbol] == t
    ensures var w := ws[|ws| - 1];
      && Run(ws + [next]) && next.positions == w.positions && next.log == w.log
      && w.txns[t].symbol !in next.locks && next.txns == Move(w, t, RolledBack)
  {
    hide Run;
    var w := ws[|ws| - 1];
    next := w.(locks := Release(w, t), txns := Move(w, t, RolledBack));
    assert Rollback(w, next, t);
    ExtendRun(ws, next, t);
  }

  lemma CanAcquire(w: World, next: World, t: nat)
    requires t in w.txns && w.txns[t].stage == Idle && w.txns[t].route == Serialised && w.txns[t].symbol !in w.locks
    requires next == w.(locks := w.locks[w.txns[t].symbol := t], txns := Move(w, t, HoldsLock))
    ensures StepOf(w, next, t)
  {
  }
}
