/** Failure atomicity: a call that does not commit leaves no trace.  Deleting its events from
    the run gives a run of the other calls that ends in the same ledger. */
module Erasure {
  import opened Base
  import opened Protocol
  import opened Steps
  import opened Serializability

  function OtherRows(rows: seq<AuditRow>, c: CallId): seq<AuditRow> {
    if rows == [] then []
    else OtherRows(rows[..|rows| - 1], c) + if rows[|rows| - 1].writer == c then [] else [rows[|rows| - 1]]
  }

  function OtherIds(ids: map<TxId, Option<CallId>>, c: CallId): map<TxId, Option<CallId>> {
    map i | i in ids && ids[i] != Some(c) :: ids[i]
  }

  /** The state as if call c had never arrived. */
  function Without(s: State, c: CallId): State {
    State(s.ledger, OtherRows(s.audit, c), s.calls - {c},
          Drop(s.locks, c), Drop(s.keys, c), Drop(s.revs, c),
          s.conns - {c}, s.pool, OtherIds(s.ids, c), s.log)
  }

  function Erase(evs: seq<Event>, c: CallId): seq<Event> {
    if evs == [] then []
    else Erase(evs[..|evs| - 1], c) + if evs[|evs| - 1].call == c then [] else [evs[|evs| - 1]]
  }

  predicate Logged(log: seq<LogEntry>, c: CallId) {
    exists i :: 0 <= i < |log| && log[i].call == c
  }

  // ---------- Steps of the others ----------

  lemma OtherRowsAppend(rows: seq<AuditRow>, row: AuditRow, c: CallId)
    ensures OtherRows(rows + [row], c) == OtherRows(rows, c) + if row.writer == c then [] else [row]
  {
    assert (rows + [row])[..|rows|] == rows;
  }

  lemma HeldWithout<K>(m: map<K, CallId>, c: CallId, d: CallId, conn: Conn, taken: Option<K>)
    requires c != d
    ensures Held(Drop(m, c), d, conn, taken) == Drop(Held(m, d, conn, taken), c)
  {
  }

  lemma HeldOwn<K>(m: map<K, CallId>, c: CallId, conn: Conn, taken: Option<K>)
    requires taken.Some? ==> taken.value !in m
    ensures Drop(Held(m, c, conn, taken), c) == Drop(m, c)
  {
  }

  lemma DecideWriter(l: Ledger, c: CallId, call: Call, ok: bool, newId: TxId)
    requires !call.pc.Returned?
    ensures var row := Decide(l, c, call, ok, newId).audit; row.Some? ==> row.value.writer == c
  {
  }

  lemma ConnsShrink(a: set<CallId>, c: CallId)
    ensures |a - {c}| <= |a|
  {
    if c in a { assert a == a - {c} + {c}; } else { assert a - {c} == a; }
  }

  lemma EnabledWithout(s: State, ev: Event, c: CallId)
    requires Enabled(s, ev) && ev.call != c
    ensures Enabled(Without(s, c), ev)
  {
    ConnsShrink(s.conns, c);
  }

  lemma ApplyWithout(s: State, d: CallId, e: Effect, c: CallId)
    requires d in s.calls && d != c && (e.audit.Some? ==> e.audit.value.writer == d)
    ensures Apply(Without(s, c), d, e) == Without(Apply(s, d, e), c)
  {
    HeldWithout(s.locks, c, d, e.conn, e.lock);
    HeldWithout(s.keys, c, d, e.conn, e.key);
    HeldWithout(s.revs, c, d, e.conn, e.rev);
    if e.audit.Some? {
      OtherRowsAppend(s.audit, e.audit.value, c);
    } else {
      assert s.audit + [] == s.audit;
    }
    assert s.calls[d := Call(s.calls[d].req, e.pc)] - {c} == (s.calls - {c})[d := Call(s.calls[d].req, e.pc)];
    if e.id.Some? {
      assert OtherIds(s.ids[e.id.value := Some(d)], c) == OtherIds(s.ids, c)[e.id.value := Some(d)];
    }
  }

  lemma OtherStep(s: State, ev: Event, c: CallId)
    requires Enabled(s, ev) && ev.call != c
    ensures Enabled(Without(s, c), ev) && Next(Without(s, c), ev) == Without(Next(s, ev), c)
  {
    EnabledWithout(s, ev, c);
    if ev.Run? {
      DecideWriter(s.ledger, ev.call, s.calls[ev.call], ev.ok, ev.newId);
      ApplyWithout(s, ev.call, EffectOf(s, ev), c);
    }
  }

  // ---------- Steps of the erased call ----------

  lemma OwnIds(ids: map<TxId, Option<CallId>>, c: CallId, id: Option<TxId>)
    requires id.Some? ==> id.value !in ids
    ensures OtherIds(if id.Some? then ids[id.value := Some(c)] else ids, c) == OtherIds(ids, c)
  {
  }

  lemma OwnCall(calls: map<CallId, Call>, c: CallId, call: Call)
    ensures calls[c := call] - {c} == calls - {c}
  {
  }

  lemma OwnConns(conns: set<CallId>, c: CallId, conn: Conn)
    ensures (match conn case Keep => conns case Take => conns + {c} case Release => conns - {c}) - {c} == conns - {c}
  {
  }

  lemma OwnRows(rows: seq<AuditRow>, c: CallId, row: Option<AuditRow>)
    requires row.Some? ==> row.value.writer == c
    ensures OtherRows(rows + (if row.Some? then [row.value] else []), c) == OtherRows(rows, c)
  {
    if row.Some? { OtherRowsAppend(rows, row.value, c); } else { assert rows + [] == rows; }
  }

  lemma ApplyOwn(s: State, c: CallId, e: Effect)
    requires c in s.calls && e.write == Nothing
    requires e.lock.Some? ==> e.lock.value !in s.locks
    requires e.key.Some? ==> e.key.value !in s.keys
    requires e.rev.Some? ==> e.rev.value !in s.revs
    requires e.id.Some? ==> e.id.value !in s.ids
    requires e.audit.Some? ==> e.audit.value.writer == c
    ensures Without(Apply(s, c, e), c) == Without(s, c)
  {
    HeldOwn(s.locks, c, e.conn, e.lock);
    HeldOwn(s.keys, c, e.conn, e.key);
    HeldOwn(s.revs, c, e.conn, e.rev);
    OwnRows(s.audit, c, e.audit);
    OwnIds(s.ids, c, e.id);
    OwnCall(s.calls, c, Call(s.calls[c].req, e.pc));
    OwnConns(s.conns, c, e.conn);
  }

  lemma WritesAreLogged(s: State, c: CallId, e: Effect)
    requires c in s.calls
    ensures e.write != Nothing ==> Logged(Apply(s, c, e).log, c)
  {
    if e.write != Nothing { assert Apply(s, c, e).log[|s.log|].call == c; }
  }

  lemma OwnStepErased(s: State, ev: Event)
    requires Enabled(s, ev) && !Logged(Next(s, ev).log, ev.call)
    ensures Without(Next(s, ev), ev.call) == Without(s, ev.call)
  {
    if ev.Run? {
      var c, e := ev.call, EffectOf(s, ev);
      StepDisciplined(s, ev);
      DecideWriter(s.ledger, c, s.calls[c], ev.ok, ev.newId);
      WritesAreLogged(s, c, e);
      ApplyOwn(s, c, e);
    }
  }

  // ---------- Whole runs ----------

  lemma LoggedStays(s: State, ev: Event, c: CallId)
    requires Enabled(s, ev) && Logged(s.log, c)
    ensures Logged(Next(s, ev).log, c)
  {
    var i :| 0 <= i < |s.log| && s.log[i].call == c;
    assert Next(s, ev).log[i] == s.log[i];
  }

  /** Deleting the events of a call that has not committed leaves a run of the others, in
      which everything but that call is as it was. */
  lemma {:induction false} EraseRun(pool: nat, evs: seq<Event>, s: State, c: CallId)
    requires Reaches(Init(pool), evs, s) && !Logged(s.log, c)
    ensures Reaches(Init(pool), Erase(evs, c), Without(s, c))
  {
    if evs == [] {
      assert Without(Init(pool), c) == Init(pool);
    } else {
      var n := |evs| - 1;
      var t, ev := Exec(Init(pool), evs[..n]).value, evs[n];
      if Logged(t.log, c) { LoggedStays(t, ev, c); }
      EraseRun(pool, evs[..n], t, c);
      if ev.call == c {
        OwnStepErased(t, ev);
        assert Erase(evs, c) == Erase(evs[..n], c);
      } else {
        OtherStep(t, ev, c);
        assert Erase(evs, c)[..|Erase(evs, c)| - 1] == Erase(evs[..n], c);
      }
    }
  }

  /** Failure atomicity: a call that returned an error is not in the commit log, and the run
      without it ends in the same accounts, transactions and entries, the same commit log,
      and the same state of every other call. */
  lemma FailedCallsLeaveNoTrace(pool: nat, evs: seq<Event>, s: State, c: CallId)
    requires Reaches(Init(pool), evs, s)
    requires c in s.calls && s.calls[c].pc.Returned? && s.calls[c].pc.outcome.Err?
    ensures !Logged(s.log, c)
    ensures Exec(Init(pool), Erase(evs, c)).Some?
    ensures var t := Exec(Init(pool), Erase(evs, c)).value;
            t.ledger == s.ledger && t.log == s.log && t.calls == s.calls - {c} && t.audit == OtherRows(s.audit, c)
  {
    SerializedRun(pool, evs, s);
    forall i: nat | i < |s.log| ensures s.log[i].call != c {
      assert EntryOk(s, i);
    }
    EraseRun(pool, evs, s, c);
  }
}
