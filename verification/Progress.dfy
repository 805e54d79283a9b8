/** No deadlock, and every run comes to an end. */
module Progress {
  import opened Base
  import opened Protocol
  import opened Invariant
  import opened Steps

  // ---------- Waiting ----------

  /** Call c cannot take its next successful step before call d gives something back. */
  predicate WaitsFor(s: State, c: CallId, d: CallId) {
    && c in s.calls && d in s.calls
    && match Wants(s.calls[c].pc)
       case NoWait => false
       case WantConn => |s.conns| >= s.pool && d in s.conns
       case WantRow(a) => a in s.locks && s.locks[a] == d
       case WantKey(k) => k in s.keys && s.keys[k] == d
       case WantRev(t) => t in s.revs && s.revs[t] == d
  }

  /** The one order in which resources are taken: a connection, then account rows by
      ascending id, then the idempotency key, then the reversed transaction. */
  function Level(pc: Pc): nat {
    if !pc.InTx? then 0
    else
      match pc.stage
      case Scan => 1
      case Locking(_) => 1
      case Check => 2
      case DebitUpdate => 2
      case CreditUpdate => 2
      case InsertKey => 3
      case InsertReverses => 4
      case _ => 5
  }

  function NextRow(pc: Pc): nat {
    if pc.InTx? && pc.stage.Locking? && pc.stage.todo != [] then pc.stage.todo[0] else 0
  }

  predicate Before(p: Pc, q: Pc) {
    Level(p) < Level(q) || (Level(p) == Level(q) && NextRow(p) < NextRow(q))
  }

  lemma RowUpward(s: State, c: CallId, d: CallId, a: AccountId)
    requires CallOkAt(s, c) && CallOkAt(s, d) && HoldsRow(s, d, a) && Wants(s.calls[c].pc) == WantRow(a)
    ensures Before(s.calls[c].pc, s.calls[d].pc)
  {
  }

  lemma KeyUpward(s: State, c: CallId, d: CallId, k: string)
    requires CallOkAt(s, d) && c in s.calls && HoldsKey(s, d, k) && Wants(s.calls[c].pc) == WantKey(k)
    ensures Before(s.calls[c].pc, s.calls[d].pc)
  {
  }

  lemma RevUpward(s: State, c: CallId, d: CallId, t: TxId)
    requires CallOkAt(s, d) && c in s.calls && HoldsRev(s, d, t) && Wants(s.calls[c].pc) == WantRev(t)
    ensures Before(s.calls[c].pc, s.calls[d].pc)
  {
  }

  ghost predicate CallOkAt(s: State, c: CallId) {
    c in s.calls && CallOk(s, c)
  }

  /** Whoever is waited for is further along that order. */
  lemma WaitsUpward(s: State, c: CallId, d: CallId)
    requires Inv(s) && WaitsFor(s, c, d)
    ensures Before(s.calls[c].pc, s.calls[d].pc) && s.calls[d].pc.InTx?
  {
    assert CallOkAt(s, c) && CallOkAt(s, d);
    match Wants(s.calls[c].pc)
    case WantConn =>
    case WantRow(a) => RowUpward(s, c, d, a);
    case WantKey(k) => KeyUpward(s, c, d, k);
    case WantRev(t) => RevUpward(s, c, d, t);
  }

  predicate WaitPath(s: State, p: seq<CallId>) {
    forall i :: 0 <= i < |p| - 1 ==> WaitsFor(s, p[i], p[i + 1])
  }

  /** Every wait goes up the order. */
  ghost predicate Rising(s: State) {
    forall c, d :: WaitsFor(s, c, d) ==> Before(s.calls[c].pc, s.calls[d].pc)
  }

  lemma {:induction false} PathUpward(s: State, p: seq<CallId>)
    requires Rising(s) && WaitPath(s, p) && |p| >= 2
    ensures p[0] in s.calls && p[|p| - 1] in s.calls
    ensures Before(s.calls[p[0]].pc, s.calls[p[|p| - 1]].pc)
  {
    var n := |p| - 1;
    assert WaitsFor(s, p[n - 1], p[n]);
    if n > 1 {
      PathUpward(s, p[..n]);
    }
  }

  /** Deadlock freedom: in every reachable state the wait-for graph has no cycle. */
  lemma NoWaitCycle(pool: nat, evs: seq<Event>, s: State, p: seq<CallId>)
    requires Reaches(Init(pool), evs, s)
    requires WaitPath(s, p) && |p| >= 2
    ensures p[0] != p[|p| - 1]
  {
    InvRun(pool, evs, s);
    forall c, d | WaitsFor(s, c, d) ensures Before(s.calls[c].pc, s.calls[d].pc) {
      WaitsUpward(s, c, d);
    }
    PathUpward(s, p);
  }

  // ---------- Someone can always move ----------

  predicate Unfinished(s: State, c: CallId) {
    c in s.calls && !s.calls[c].pc.Returned?
  }

  lemma {:induction false} Furthest(s: State, cs: set<CallId>) returns (c: CallId)
    requires cs != {} && cs <= s.calls.Keys
    ensures c in cs && forall d :: d in cs ==> !Before(s.calls[c].pc, s.calls[d].pc)
    decreases |cs|
  {
    c :| c in cs;
    if cs != {c} {
      var b := Furthest(s, cs - {c});
      if Before(s.calls[c].pc, s.calls[b].pc) { c := b; }
    }
  }

  lemma {:induction false} UnusedId(ids: set<TxId>) returns (id: TxId)
    ensures id !in ids && forall i :: i in ids ==> i < id
    decreases |ids|
  {
    if ids == {} {
      id := 0;
    } else {
      var a :| a in ids;
      var b := UnusedId(ids - {a});
      id := if a < b then b else a + 1;
      assert ids == ids - {a} + {a};
    }
  }

  /** A blocked call waits for some call; with an empty pool of connections that needs a
      connection to exist at all. */
  lemma BlockedWaits(s: State, c: CallId) returns (d: CallId)
    requires Inv(s) && s.pool >= 1 && c in s.calls && !Available(s, Wants(s.calls[c].pc))
    ensures WaitsFor(s, c, d)
  {
    match Wants(s.calls[c].pc)
    case WantConn => assert s.conns != {}; d :| d in s.conns;
    case WantRow(a) => d := s.locks[a]; assert HoldsRow(s, d, a);
    case WantKey(k) => d := s.keys[k]; assert HoldsKey(s, d, k);
    case WantRev(t) => d := s.revs[t]; assert HoldsRev(s, d, t);
  }

  /** While any call is unfinished, some call can take a successful step. */
  lemma SomeoneMoves(s: State, c: CallId) returns (ev: Event)
    requires Inv(s) && s.pool >= 1 && Unfinished(s, c)
    ensures ev.Run? && ev.ok && Enabled(s, ev)
  {
    var cs := set d | d in s.calls && Unfinished(s, d);
    assert c in cs;
    var b := Furthest(s, cs);
    var id := UnusedId(s.ids.Keys);
    ev := Run(b, true, id);
    if !Available(s, Wants(s.calls[b].pc)) {
      var d := BlockedWaits(s, b);
      WaitsUpward(s, b, d);
      assert false;
    }
  }

  // ---------- Every step is progress ----------

  function StepsLeft(pc: Pc): nat {
    match pc
    case Validate => 24
    case ReplayHeader => 23
    case ReplayEntries(_) => 22
    case FetchHeader => 21
    case FetchEntries(_) => 20
    case NewId(_) => 19
    case Begin(_, _) => 18
    case InTx(_, stage) => (
      match stage
      case Scan => 17
      case Locking(todo) => 12 + |todo|
      case Check => 11
      case DebitUpdate => 10
      case CreditUpdate => 9
      case InsertKey => 8
      case InsertReverses => 7
      case InsertLegs => 6
      case Commit => 5
      case Rollback(_) => 4)
    case RefetchHeader(_) => 3
    case RefetchEntries(_, _) => 2
    case AuditFailure(_, _) => 1
    case AuditSuccess(_) => 1
    case CreateRow => 1
    case Returned(_) => 0
  }

  lemma TxStepProgress(l: Ledger, c: CallId, tx: Tx, stage: Stage, ok: bool)
    ensures StepsLeft(TxStep(l, c, tx, stage, ok).pc) < StepsLeft(InTx(tx, stage))
  {
    match stage
    case Scan => assert |Visible(l, Targets(tx.move))| <= 2;
    case Locking(todo) =>
    case Rollback(_) =>
    case _ =>
  }

  lemma StepProgress(l: Ledger, c: CallId, call: Call, ok: bool, newId: TxId)
    requires !call.pc.Returned?
    ensures StepsLeft(Decide(l, c, call, ok, newId).pc) < StepsLeft(call.pc)
  {
    if call.pc.InTx? { TxStepProgress(l, c, call.pc.tx, call.pc.stage, ok); }
  }

  /** The steps all calls together may still take. */
  ghost function Work(calls: map<CallId, Call>): nat {
    if calls == map[] then 0
    else
      var c :| c in calls;
      StepsLeft(calls[c].pc) + Work(calls - {c})
  }

  lemma {:induction false} WorkRemove(calls: map<CallId, Call>, c: CallId)
    requires c in calls
    ensures Work(calls) == StepsLeft(calls[c].pc) + Work(calls - {c})
    decreases |calls|
  {
    var b :| b in calls && Work(calls) == StepsLeft(calls[b].pc) + Work(calls - {b});
    if b != c {
      WorkRemove(calls - {b}, c);
      WorkRemove(calls - {c}, b);
      assert calls - {b} - {c} == calls - {c} - {b};
    }
  }

  lemma WorkShrinks(s: State, ev: Event)
    requires ev.Run? && Enabled(s, ev)
    ensures Work(Next(s, ev).calls) < Work(s.calls)
  {
    var c, t := ev.call, Next(s, ev);
    StepProgress(s.ledger, c, s.calls[c], ev.ok, ev.newId);
    WorkRemove(s.calls, c);
    WorkRemove(t.calls, c);
    assert t.calls - {c} == s.calls - {c};
  }

  predicate NoArrivals(evs: seq<Event>) {
    forall i :: 0 <= i < |evs| ==> evs[i].Run?
  }

  /** Without new arrivals no run, failing steps included, is longer than the work left. */
  lemma {:induction false} RunsAreBounded(s: State, evs: seq<Event>, t: State)
    requires Reaches(s, evs, t) && NoArrivals(evs)
    ensures |evs| + Work(t.calls) <= Work(s.calls)
  {
    if evs != [] {
      var u := Exec(s, evs[..|evs| - 1]).value;
      RunsAreBounded(s, evs[..|evs| - 1], u);
      WorkShrinks(u, evs[|evs| - 1]);
    }
  }

  // ---------- Completion ----------

  predicate Quiet(s: State) {
    && (forall c :: c in s.calls ==> s.calls[c].pc.Returned?)
    && s.locks == map[] && s.keys == map[] && s.revs == map[] && s.conns == {}
  }

  lemma HoldersAreUnfinished(s: State)
    requires SharedOk(s)
    ensures forall a :: a in s.locks ==> Unfinished(s, s.locks[a])
    ensures forall k :: k in s.keys ==> Unfinished(s, s.keys[k])
    ensures forall t :: t in s.revs ==> Unfinished(s, s.revs[t])
    ensures forall c :: c in s.conns ==> Unfinished(s, c)
  {
  }

  lemma AllReturnedIsQuiet(s: State)
    requires Inv(s) && forall c :: c in s.calls ==> !Unfinished(s, c)
    ensures Quiet(s)
  {
    HoldersAreUnfinished(s);
  }

  lemma {:induction false} PoolConstant(s: State, evs: seq<Event>, t: State)
    requires Reaches(s, evs, t)
    ensures t.pool == s.pool
  {
    if evs != [] {
      PoolConstant(s, evs[..|evs| - 1], Exec(s, evs[..|evs| - 1]).value);
    }
  }

  /** A maximal run is a finished one: when no call can take a successful step, all calls
      have returned, every lock, index entry and connection is free, nothing is pending. */
  lemma StuckIsFinished(pool: nat, evs: seq<Event>, s: State)
    requires pool >= 1 && Reaches(Init(pool), evs, s)
    requires forall ev: Event :: ev.Run? && ev.ok ==> !Enabled(s, ev)
    ensures Quiet(s)
  {
    InvRun(pool, evs, s);
    PoolConstant(Init(pool), evs, s);
    forall c | c in s.calls ensures !Unfinished(s, c) {
      if Unfinished(s, c) {
        var ev := SomeoneMoves(s, c);
        assert false;
      }
    }
    AllReturnedIsQuiet(s);
  }

  lemma ExecCons(s: State, ev: Event, rest: seq<Event>)
    requires Enabled(s, ev)
    ensures Exec(s, [ev] + rest) == Exec(Next(s, ev), rest)
  {
    assert [ev][..0] == [];
    assert Exec(s, []) == Some(s);
    ExecConcat(s, [ev], Next(s, ev), rest);
  }

  lemma StepTowards(s: State, c: CallId) returns (ev: Event, n: State)
    requires Inv(s) && s.pool >= 1 && Unfinished(s, c)
    ensures ev.Run? && ev.ok && Enabled(s, ev) && n == Next(s, ev)
    ensures Inv(n) && n.pool >= 1 && Work(n.calls) < Work(s.calls)
  {
    ev := SomeoneMoves(s, c);
    n := Next(s, ev);
    InvStep(s, ev);
    WorkShrinks(s, ev);
  }

  /** No store call of anybody fails. */
  predicate AllOk(evs: seq<Event>) {
    forall i :: 0 <= i < |evs| && evs[i].Run? ==> evs[i].ok
  }

  /** No arrivals and no store failures. */
  predicate Clean(evs: seq<Event>) {
    forall i :: 0 <= i < |evs| ==> evs[i].Run? && evs[i].ok
  }

  lemma RunCons(s: State, ev: Event, n: State, rest: seq<Event>, t: State)
    requires ev.Run? && ev.ok && Enabled(s, ev) && n == Next(s, ev) && Reaches(n, rest, t) && Clean(rest)
    ensures Reaches(s, [ev] + rest, t) && Clean([ev] + rest)
  {
    ExecCons(s, ev, rest);
  }

  lemma {:induction false} FinishFrom(s: State) returns (more: seq<Event>, t: State)
    requires Inv(s) && s.pool >= 1
    ensures Clean(more) && Reaches(s, more, t) && Quiet(t)
    decreases Work(s.calls)
  {
    if c :| Unfinished(s, c) {
      var ev, n := StepTowards(s, c);
      var rest;
      rest, t := FinishFrom(n);
      more := [ev] + rest;
      RunCons(s, ev, n, rest, t);
    } else {
      more, t := [], s;
      assert forall c :: c in s.calls ==> !Unfinished(s, c);
      AllReturnedIsQuiet(s);
    }
  }

  /** Completion: from every reachable state some schedule without a single store failure
      brings every call to its return and frees everything. */
  lemma CanComplete(pool: nat, evs: seq<Event>, s: State) returns (more: seq<Event>, t: State)
    requires pool >= 1 && Reaches(Init(pool), evs, s)
    ensures Clean(more)
    ensures Reaches(Init(pool), evs + more, t) && Quiet(t)
  {
    InvRun(pool, evs, s);
    PoolConstant(Init(pool), evs, s);
    more, t := FinishFrom(s);
    ExecConcat(Init(pool), evs, s, more);
  }
}
