/** The converse of serializability: a call that runs alone does what the atomic
    specification says, however it is scheduled, so calls that run one after the other are
    the atomic calls one after the other, and every sequence of calls can be run so. */
module Alone {
  import opened Base
  import opened Serial
  import opened Protocol
  import opened Invariant
  import opened Steps
  import opened Serializability
  import opened Guarantees
  import opened Progress
  import opened Races
  import opened Linearization

  // ---------- Nobody else moves ----------

  predicate OthersReturned(s: State, c: CallId) {
    forall d :: d in s.calls && d != c ==> s.calls[d].pc.Returned?
  }

  /** Only call c can have moved from s to t. */
  predicate OnlyMoved(s: State, t: State, c: CallId) {
    && t.calls.Keys == s.calls.Keys
    && (forall d :: d in s.calls && d != c ==> t.calls[d] == s.calls[d])
    && s.log <= t.log && (forall k :: |s.log| <= k < |t.log| ==> t.log[k].call == c)
  }

  lemma {:induction false} AloneRun(s: State, evs: seq<Event>, t: State, c: CallId)
    requires OthersReturned(s, c) && c in s.calls && Reaches(s, evs, t) && NoArrivals(evs)
    ensures OnlyMoved(s, t, c)
  {
    if evs != [] {
      var n := |evs| - 1;
      var u := Exec(s, evs[..n]).value;
      AloneRun(s, evs[..n], u, c);
      AloneStep(s, u, evs[n], c);
    }
  }

  lemma AloneStep(s: State, u: State, ev: Event, c: CallId)
    requires OthersReturned(s, c) && c in s.calls && OnlyMoved(s, u, c) && ev.Run? && Enabled(u, ev)
    ensures OnlyMoved(s, Next(u, ev), c)
  {
  }

  // ---------- The log along a run ----------

  lemma LogBetween(start: State, evs: seq<Event>, i: nat, u: State, t: State)
    requires i <= |evs| && Reaches(start, evs[..i], u) && Reaches(start, evs, t)
    ensures u.log <= t.log && u.calls.Keys <= t.calls.Keys
  {
    ExecConcat(start, evs[..i], u, evs[i..]);
    assert evs[..i] + evs[i..] == evs;
    LogGrows(u, evs[i..], t);
  }

  /** Between two states with the same log the ledger is the same too. */
  lemma LedgerBetween(pool: nat, evs: seq<Event>, i: nat, s: State, j: nat, u: State, t: State)
    requires i <= j <= |evs| && Reaches(Init(pool), evs[..i], s) && Reaches(Init(pool), evs[..j], u)
    requires Reaches(Init(pool), evs, t) && t.log == s.log
    ensures u.ledger == s.ledger
  {
    assert evs[..j][..i] == evs[..i];
    LogBetween(Init(pool), evs[..j], i, s, u);
    LogBetween(Init(pool), evs, j, u, t);
    assert u.log == s.log;
    LedgerOfLog(pool, evs[..i], s);
    LedgerOfLog(pool, evs[..j], u);
  }

  lemma LedgerOfLog(pool: nat, evs: seq<Event>, s: State)
    requires Reaches(Init(pool), evs, s)
    ensures s.ledger == SerialLedger(s.log)
  {
    Serializable(pool, evs, s);
  }

  /** A call that was not there after i events is there only later. */
  lemma ArrivesLater(start: State, evs: seq<Event>, i: nat, s: State, j: nat, u: State, c: CallId)
    requires i <= |evs| && j <= |evs| && Reaches(start, evs[..i], s) && Reaches(start, evs[..j], u)
    requires c !in s.calls && c in u.calls
    ensures i < j
  {
    if j <= i {
      assert evs[..i][..j] == evs[..j];
      LogBetween(start, evs[..i], j, u, s);
    }
  }

  // ---------- What a call alone returns ----------

  lemma ErrorsKeep(l: Ledger, r: Request, id: TxId)
    ensures Atomic(l, r, id).1.Err? ==> Atomic(l, r, id).0 == l
  {
  }

  lemma ReplaysKeep(l: Ledger, r: Request, id: TxId)
    requires !r.CreateReq? && FindKey(l.headers, Key(r)).Some?
    ensures Atomic(l, r, id).0 == l
  {
  }

  /** A call alone that did not commit returns what the atomic call returns. */
  lemma UncommittedAlone(pool: nat, evs: seq<Event>, i: nat, s: State, t: State, c: CallId)
    requires i <= |evs| && Reaches(Init(pool), evs[..i], s) && c !in s.calls && Reaches(Init(pool), evs, t)
    requires c in t.calls && t.calls[c].pc.Returned? && NoFaults(evs, c)
    requires t.log == s.log
    ensures Explains(s.ledger, t.calls[c].req, t.calls[c].pc.outcome)
  {
    var j, u := Linearizes(pool, evs, t, c);
    ArrivesLater(Init(pool), evs, i, s, j, u, c);
    LedgerBetween(pool, evs, i, s, j, u, t);
    var r, o := t.calls[c].req, t.calls[c].pc.outcome;
    if !Explains(u.ledger, r, o) {
      var k: nat, v: State :| k <= j && Moment(pool, evs, k, v, c) && FindKey(v.ledger.headers, Key(r)).None?;
      ArrivesLater(Init(pool), evs, i, s, k, v, c);
      LedgerBetween(pool, evs, i, s, k, v, t);
    }
  }

  predicate InLog(log: seq<LogEntry>, c: CallId) {
    exists k :: 0 <= k < |log| && log[k].call == c
  }

  /** A call that has opened an account is in the commit log. */
  lemma {:induction false} CreatedIsLogged(start: State, evs: seq<Event>, s: State, c: CallId)
    requires start.calls == map[] && Reaches(start, evs, s) && c in s.calls
    requires s.calls[c].pc.Returned? && s.calls[c].pc.outcome.Created?
    ensures InLog(s.log, c)
  {
    var n := |evs| - 1;
    var u, ev := Exec(start, evs[..n]).value, evs[n];
    if c in u.calls && u.calls[c] == s.calls[c] {
      CreatedIsLogged(start, evs[..n], u, c);
      var k :| 0 <= k < |u.log| && u.log[k].call == c;
      assert s.log[k].call == c;
    } else {
      CreatedStep(u, ev, c);
    }
  }

  lemma CreatedStep(s: State, ev: Event, c: CallId)
    requires Enabled(s, ev) && c in Next(s, ev).calls && !(c in s.calls && s.calls[c] == Next(s, ev).calls[c])
    requires Next(s, ev).calls[c].pc.Returned? && Next(s, ev).calls[c].pc.outcome.Created?
    ensures InLog(Next(s, ev).log, c)
  {
    CreatesWrite(s.ledger, c, s.calls[c], ev.ok, ev.newId);
    assert Next(s, ev).log[|s.log|].call == c;
  }

  lemma CreatesWrite(l: Ledger, c: CallId, call: Call, ok: bool, newId: TxId)
    requires !call.pc.Returned?
    ensures var e := Decide(l, c, call, ok, newId); e.pc.Returned? && e.pc.outcome.Created? ==> e.write.OpenAccount?
  {
  }

  /** So one that arrived later and is not in the log has not. */
  lemma NotCreated(pool: nat, evs: seq<Event>, s: State, more: seq<Event>, t: State, c: CallId)
    requires Reaches(Init(pool), evs, s) && c !in s.calls && Reaches(Init(pool), more, t) && t.log == s.log
    requires c in t.calls && t.calls[c].pc.Returned?
    ensures !t.calls[c].pc.outcome.Created?
  {
    if t.calls[c].pc.outcome.Created? {
      CreatedIsLogged(Init(pool), more, t, c);
      Serializable(pool, evs, s);
      assert false;
    }
  }

  lemma UncommittedIsAtomic(pool: nat, evs: seq<Event>, i: nat, s: State, t: State, c: CallId) returns (id: TxId)
    requires i <= |evs| && Reaches(Init(pool), evs[..i], s) && c !in s.calls && Reaches(Init(pool), evs, t)
    requires c in t.calls && t.calls[c].pc.Returned? && NoFaults(evs, c)
    requires t.log == s.log
    ensures Atomic(s.ledger, t.calls[c].req, id) == (t.ledger, t.calls[c].pc.outcome)
  {
    var r, o := t.calls[c].req, t.calls[c].pc.outcome;
    id := IdOf(o);
    UncommittedAlone(pool, evs, i, s, t, c);
    NotCreated(pool, evs[..i], s, evs, t, c);
    assert evs[..|evs|] == evs;
    LedgerBetween(pool, evs, i, s, |evs|, t, t);
    ErrorsKeep(s.ledger, r, id);
    if o.Ok? {
      InvRun(pool, evs, t);
      assert CallOk(t, c);
      RecordedReads(t.ledger, o.header, o.legs);
      ReplaysKeep(s.ledger, r, id);
    }
  }

  predicate Distinct(log: seq<LogEntry>) {
    forall i, j :: 0 <= i < j < |log| ==> log[i].call != log[j].call
  }

  lemma TwoSame(log: seq<LogEntry>, k: nat, c: CallId)
    requires k + 1 < |log| && log[k].call == log[k + 1].call == c
    ensures !Distinct(log)
  {
  }

  lemma OneEntry(s: State, t: State, c: CallId)
    requires OnlyMoved(s, t, c)
    ensures Distinct(t.log) ==> |t.log| <= |s.log| + 1
  {
    if |t.log| > |s.log| + 1 { TwoSame(t.log, |s.log|, c); }
  }

  /** The last logged call, and its serial outcome. */
  lemma LastEntry(pool: nat, evs: seq<Event>, t: State, l: Ledger)
    requires Reaches(Init(pool), evs, t) && t.log != [] && l == SerialLedger(t.log[..|t.log| - 1])
    ensures var e := t.log[|t.log| - 1];
            && e.call in t.calls && t.calls[e.call].req == e.req
            && t.ledger == Atomic(l, e.req, e.id).0 && Decided(t.calls[e.call].pc) == Some(Atomic(l, e.req, e.id).1)
    ensures Distinct(t.log)
  {
    Serializable(pool, evs, t);
    assert SerialOutcome(t.log, |t.log| - 1) == Atomic(l, t.log[|t.log| - 1].req, t.log[|t.log| - 1].id).1;
  }

  lemma CommittedIsAtomic(pool: nat, evs: seq<Event>, s: State, more: seq<Event>, t: State, c: CallId)
    returns (id: TxId)
    requires Reaches(Init(pool), evs, s) && Reaches(Init(pool), more, t)
    requires c in t.calls && t.calls[c].pc.Returned? && OnlyMoved(s, t, c) && t.log != s.log
    ensures Atomic(s.ledger, t.calls[c].req, id) == (t.ledger, t.calls[c].pc.outcome)
  {
    LedgerOfLog(pool, evs, s);
    var k := |t.log| - 1;
    LastEntry(pool, more, t, SerialLedger(t.log[..k]));
    OneEntry(s, t, c);
    assert t.log[..k] == s.log;
    id := t.log[k].id;
  }

  lemma {:induction false} NotHereYet(start: State, evs: seq<Event>, s: State, c: CallId)
    requires Reaches(start, evs, s) && c !in s.calls
    ensures forall i :: 0 <= i < |evs| ==> evs[i].call != c
  {
    if evs != [] {
      var n := |evs| - 1;
      NotHereYet(start, evs[..n], Exec(start, evs[..n]).value, c);
    }
  }

  lemma Arrival(pool: nat, evs: seq<Event>, s: State, c: CallId, r: Request) returns (a: State)
    requires Reaches(Init(pool), evs, s) && Quiet(s) && c !in s.calls
    ensures Reaches(Init(pool), evs + [Arrive(c, r)], a) && Inv(a) && a.pool == s.pool
    ensures a.log == s.log && a.ledger == s.ledger && a.calls == s.calls[c := Call(r, Validate)] && OthersReturned(a, c)
  {
    a := Next(s, Arrive(c, r));
    ExecOneMore(Init(pool), evs, s, Arrive(c, r));
    InvRun(pool, evs + [Arrive(c, r)], a);
  }

  lemma OnlyCallChanged(calls: map<CallId, Call>, a: State, t: State, c: CallId, r: Request)
    requires a.calls == calls[c := Call(r, Validate)] && OnlyMoved(a, t, c) && t.calls[c].req == r
    ensures t.calls == calls[c := Call(r, t.calls[c].pc)]
  {
  }

  lemma NoFaultsAlone(evs: seq<Event>, c: CallId, r: Request, more: seq<Event>)
    requires (forall i :: 0 <= i < |evs| ==> evs[i].call != c) && Clean(more)
    ensures NoFaults(evs + [Arrive(c, r)] + more, c)
  {
  }

  lemma AloneRest(pool: nat, evs: seq<Event>, s: State, c: CallId, r: Request, more: seq<Event>, t: State)
    returns (a: State)
    requires Reaches(Init(pool), evs, s) && Quiet(s) && c !in s.calls
    requires Reaches(Init(pool), evs + [Arrive(c, r)] + more, t) && Clean(more)
    ensures Reaches(Init(pool), evs + [Arrive(c, r)], a) && a.log == s.log && a.ledger == s.ledger
    ensures OnlyMoved(a, t, c) && c in t.calls && t.calls == s.calls[c := Call(r, t.calls[c].pc)]
  {
    a := Arrival(pool, evs, s, c, r);
    ExecConcat(Init(pool), evs + [Arrive(c, r)], a, more);
    AloneRun(a, more, t, c);
    SameRequest(a, more, t, c);
    OnlyCallChanged(s.calls, a, t, c, r);
  }

  /** Every run of a call alone: it arrives when everything is quiet, nobody else arrives, no
      store call fails, and when it has returned the tables and its result are the atomic
      call's and everything is quiet again. */
  lemma EveryRunAlone(pool: nat, evs: seq<Event>, s: State, c: CallId, r: Request, more: seq<Event>, t: State)
    returns (id: TxId)
    requires Reaches(Init(pool), evs, s) && Quiet(s) && c !in s.calls
    requires Reaches(Init(pool), evs + [Arrive(c, r)] + more, t) && Clean(more)
    requires c in t.calls && t.calls[c].pc.Returned?
    ensures t.ledger == Atomic(s.ledger, r, id).0
    ensures t.calls == s.calls[c := Call(r, Returned(Atomic(s.ledger, r, id).1))] && Quiet(t)
  {
    var all := evs + [Arrive(c, r)] + more;
    var a := AloneRest(pool, evs, s, c, r, more, t);
    InvRun(pool, all, t);
    AllReturnedIsQuiet(t);
    if t.log == s.log {
      NotHereYet(Init(pool), evs, s, c);
      NoFaultsAlone(evs, c, r, more);
      assert all[..|evs|] == evs;
      id := UncommittedIsAtomic(pool, all, |evs|, s, t, c);
    } else {
      id := CommittedIsAtomic(pool, evs + [Arrive(c, r)], a, all, t, c);
    }
  }

  /** And there is such a run, after any run that ends quietly. */
  lemma AloneIsAtomic(pool: nat, evs: seq<Event>, s: State, c: CallId, r: Request)
    returns (more: seq<Event>, t: State, id: TxId)
    requires pool >= 1 && Reaches(Init(pool), evs, s) && Quiet(s) && c !in s.calls
    ensures Reaches(Init(pool), evs + [Arrive(c, r)] + more, t) && Clean(more) && Quiet(t)
    ensures t.ledger == Atomic(s.ledger, r, id).0
    ensures t.calls == s.calls[c := Call(r, Returned(Atomic(s.ledger, r, id).1))]
  {
    var a := Arrival(pool, evs, s, c, r);
    PoolConstant(Init(pool), evs, s);
    more, t := FinishFrom(a);
    ExecConcat(Init(pool), evs + [Arrive(c, r)], a, more);
    SameRequest(a, more, t, c);
    id := EveryRunAlone(pool, evs, s, c, r, more, t);
  }

  // ---------- Serial histories ----------

  /** The ledger after the first k requests, run atomically in turn from the seed. */
  function LedgerAfter(rs: seq<Request>, ids: seq<TxId>, k: nat): Ledger
    requires k <= |rs| && k <= |ids|
  {
    if k == 0 then Seed() else Atomic(LedgerAfter(rs, ids, k - 1), rs[k - 1], ids[k - 1]).0
  }

  function OutcomeAt(rs: seq<Request>, ids: seq<TxId>, k: nat): Outcome
    requires k < |rs| && k < |ids|
  {
    Atomic(LedgerAfter(rs, ids, k), rs[k], ids[k]).1
  }

  lemma {:induction false} LedgerAfterPrefix(rs: seq<Request>, ids: seq<TxId>, more: seq<Request>,
                                             moreIds: seq<TxId>, k: nat)
    requires k <= |rs| && k <= |ids|
    ensures LedgerAfter(rs + more, ids + moreIds, k) == LedgerAfter(rs, ids, k)
  {
    if k > 0 { LedgerAfterPrefix(rs, ids, more, moreIds, k - 1); }
  }

  /** Call k has returned what the k-th request returns in the serial history. */
  ghost predicate Plays(s: State, rs: seq<Request>, ids: seq<TxId>) {
    && |ids| == |rs| && s.ledger == LedgerAfter(rs, ids, |rs|)
    && (forall k :: k in s.calls ==> k < |rs|)
    && AllPlayed(s, rs, ids)
  }

  ghost predicate Played(s: State, rs: seq<Request>, ids: seq<TxId>, k: nat) {
    k < |rs| && k < |ids| && k in s.calls && s.calls[k] == Call(rs[k], Returned(OutcomeAt(rs, ids, k)))
  }

  lemma OutcomeAtPrefix(rs: seq<Request>, ids: seq<TxId>, r: Request, id: TxId, k: nat)
    requires k <= |rs| == |ids|
    ensures OutcomeAt(rs + [r], ids + [id], k) ==
            if k < |rs| then OutcomeAt(rs, ids, k) else Atomic(LedgerAfter(rs, ids, k), r, id).1
  {
    LedgerAfterPrefix(rs, ids, [r], [id], k);
  }

  lemma LedgerOneMore(rs: seq<Request>, ids: seq<TxId>, r: Request, id: TxId, n: Ledger)
    requires |rs| == |ids| && Atomic(LedgerAfter(rs, ids, |rs|), r, id).0 == n
    ensures LedgerAfter(rs + [r], ids + [id], |rs + [r]|) == n
  {
    LedgerAfterPrefix(rs, ids, [r], [id], |rs|);
  }

  lemma PlayedOneMore(s: State, rs: seq<Request>, ids: seq<TxId>, r: Request, id: TxId, t: State, o: Outcome, k: nat)
    requires |rs| == |ids| && k <= |rs| && (k < |rs| ==> Played(s, rs, ids, k))
    requires t.calls == s.calls[|rs| := Call(r, Returned(o))] && o == Atomic(LedgerAfter(rs, ids, |rs|), r, id).1
    ensures Played(t, rs + [r], ids + [id], k)
  {
    OutcomeAtPrefix(rs, ids, r, id, k);
  }

  ghost predicate AllPlayed(s: State, rs: seq<Request>, ids: seq<TxId>) {
    forall k: nat :: k < |rs| ==> Played(s, rs, ids, k)
  }

  lemma AllPlayedOneMore(s: State, rs: seq<Request>, ids: seq<TxId>, r: Request, id: TxId, t: State, o: Outcome)
    requires |rs| == |ids| && AllPlayed(s, rs, ids)
    requires t.calls == s.calls[|rs| := Call(r, Returned(o))] && o == Atomic(LedgerAfter(rs, ids, |rs|), r, id).1
    ensures AllPlayed(t, rs + [r], ids + [id])
  {
    forall k: nat | k < |rs + [r]| ensures Played(t, rs + [r], ids + [id], k) {
      PlayedOneMore(s, rs, ids, r, id, t, o, k);
    }
  }

  lemma PlaysOneMore(s: State, rs: seq<Request>, ids: seq<TxId>, r: Request, id: TxId, t: State, o: Outcome)
    requires Plays(s, rs, ids) && t.ledger == Atomic(s.ledger, r, id).0 && o == Atomic(s.ledger, r, id).1
    requires t.calls == s.calls[|rs| := Call(r, Returned(o))]
    ensures Plays(t, rs + [r], ids + [id])
  {
    LedgerOneMore(rs, ids, r, id, t.ledger);
    AllPlayedOneMore(s, rs, ids, r, id, t, o);
  }

  /** Everything is quiet after the first m events. */
  predicate QuietAt(pool: nat, evs: seq<Event>, m: nat) {
    m <= |evs| && Exec(Init(pool), evs[..m]).Some? && Quiet(Exec(Init(pool), evs[..m]).value)
  }

  /** Request k arrives as call k at the k-th cut and runs, with no other arrival and no store
      failure, up to the next cut, where everything is quiet. */
  predicate HasTurn(pool: nat, rs: seq<Request>, evs: seq<Event>, cuts: seq<nat>, k: nat) {
    && k < |rs| && k + 1 < |cuts| && cuts[k] < cuts[k + 1] <= |evs|
    && evs[cuts[k]] == Arrive(k, rs[k]) && Clean(evs[cuts[k] + 1..cuts[k + 1]])
    && QuietAt(pool, evs, cuts[k + 1])
  }

  /** The events run the requests one after the other. */
  ghost predicate InTurn(pool: nat, rs: seq<Request>, evs: seq<Event>, cuts: seq<nat>) {
    && |cuts| == |rs| + 1 && cuts[0] == 0 && cuts[|rs|] == |evs|
    && forall k: nat :: k < |rs| ==> HasTurn(pool, rs, evs, cuts, k)
  }

  lemma NothingPlayed(pool: nat)
    ensures Quiet(Init(pool)) && Plays(Init(pool), [], [])
  {
  }

  /** The turns before the last. */
  lemma TurnsBefore(pool: nat, rs: seq<Request>, evs: seq<Event>, cuts: seq<nat>, n: nat)
    requires InTurn(pool, rs, evs, cuts) && n + 1 == |rs|
    ensures cuts[n] <= |evs| && InTurn(pool, rs[..n], evs[..cuts[n]], cuts[..n + 1])
  {
    assert HasTurn(pool, rs, evs, cuts, n);
    Ascends(pool, rs, evs, cuts, n);
    var first, upTo, ends := rs[..n], evs[..cuts[n]], cuts[..n + 1];
    forall k: nat | k < n ensures HasTurn(pool, first, upTo, ends, k) {
      assert HasTurn(pool, rs, evs, cuts, k) && cuts[k + 1] <= cuts[n];
      assert evs[..cuts[n]][..cuts[k + 1]] == evs[..cuts[k + 1]];
      assert evs[..cuts[n]][cuts[k] + 1..cuts[k + 1]] == evs[cuts[k] + 1..cuts[k + 1]];
    }
  }

  lemma {:induction false} Ascends(pool: nat, rs: seq<Request>, evs: seq<Event>, cuts: seq<nat>, n: nat)
    requires InTurn(pool, rs, evs, cuts) && n <= |rs|
    ensures forall k: nat :: k <= n ==> cuts[k] <= cuts[n]
  {
    if n > 0 {
      Ascends(pool, rs, evs, cuts, n - 1);
      assert HasTurn(pool, rs, evs, cuts, n - 1);
    }
  }

  /** Calls that run one after the other, however each is scheduled, are the atomic calls one
      after the other: the same ledger and the same results. */
  lemma {:induction false} SerialRunsAreAtomic(pool: nat, rs: seq<Request>, evs: seq<Event>, cuts: seq<nat>, s: State)
    returns (ids: seq<TxId>)
    requires InTurn(pool, rs, evs, cuts) && Reaches(Init(pool), evs, s)
    ensures Quiet(s) && Plays(s, rs, ids)
  {
    if rs == [] {
      ids := [];
      NothingPlayed(pool);
    } else {
      var n := |rs| - 1;
      TurnsBefore(pool, rs, evs, cuts, n);
      var u := PrefixReaches(Init(pool), evs, s, cuts[n]);
      ids := SerialRunsAreAtomic(pool, rs[..n], evs[..cuts[n]], cuts[..n + 1], u);
      var id := LastTurn(pool, rs, evs, cuts, s, n, u, ids);
      ids := ids + [id];
    }
  }

  lemma CutAt<T>(s: seq<T>, m: nat)
    requires m < |s|
    ensures s == s[..m] + [s[m]] + s[m + 1..|s|]
  {
  }

  lemma LastTurn(pool: nat, rs: seq<Request>, evs: seq<Event>, cuts: seq<nat>, s: State, n: nat, u: State,
                 ids: seq<TxId>) returns (id: TxId)
    requires HasTurn(pool, rs, evs, cuts, n) && n + 1 == |rs| && cuts[n + 1] == |evs| && Reaches(Init(pool), evs, s)
    requires Reaches(Init(pool), evs[..cuts[n]], u) && Quiet(u) && Plays(u, rs[..n], ids)
    ensures Quiet(s) && Plays(s, rs, ids + [id])
  {
    CutAt(evs, cuts[n]);
    CutAt(rs, n);
    assert rs == rs[..n] + [rs[n]] && evs[..|evs|] == evs;
    id := TurnPlays(pool, rs[..n], rs[n], evs[..cuts[n]], u, ids, evs[cuts[n] + 1..|evs|], s);
  }

  lemma TurnPlays(pool: nat, rs: seq<Request>, r: Request, evs: seq<Event>, u: State, ids: seq<TxId>,
                  more: seq<Event>, s: State) returns (id: TxId)
    requires Reaches(Init(pool), evs, u) && Quiet(u) && Plays(u, rs, ids) && Clean(more)
    requires Reaches(Init(pool), evs + [Arrive(|rs|, r)] + more, s) && Quiet(s)
    ensures Plays(s, rs + [r], ids + [id])
  {
    Returns(pool, evs, u, |rs|, r, more, s);
    id := EveryRunAlone(pool, evs, u, |rs|, r, more, s);
    PlaysOneMore(u, rs, ids, r, id, s, Atomic(u.ledger, r, id).1);
  }

  lemma Returns(pool: nat, evs: seq<Event>, u: State, c: CallId, r: Request, more: seq<Event>, s: State)
    requires Reaches(Init(pool), evs, u) && c !in u.calls
    requires Reaches(Init(pool), evs + [Arrive(c, r)] + more, s) && Quiet(s)
    ensures c in s.calls && s.calls[c].pc.Returned?
  {
    ExecOneMore(Init(pool), evs, u, Arrive(c, r));
    ExecConcat(Init(pool), evs + [Arrive(c, r)], Next(u, Arrive(c, r)), more);
    SameRequest(Next(u, Arrive(c, r)), more, s, c);
  }

  /** Every sequence of requests can be run in this way. */
  lemma {:induction false} EverySerialHistory(pool: nat, rs: seq<Request>)
    returns (evs: seq<Event>, cuts: seq<nat>, s: State, ids: seq<TxId>)
    requires pool >= 1
    ensures InTurn(pool, rs, evs, cuts) && Reaches(Init(pool), evs, s) && Quiet(s) && Plays(s, rs, ids)
  {
    if rs == [] {
      evs, cuts, s, ids := [], [0], Init(pool), [];
      NothingPlayed(pool);
    } else {
      var n := |rs| - 1;
      var before, u, more, id;
      before, cuts, u, ids := EverySerialHistory(pool, rs[..n]);
      more, s, id := AloneIsAtomic(pool, before, u, n, rs[n]);
      evs := before + [Arrive(n, rs[n])] + more;
      PlaysOneMore(u, rs[..n], ids, rs[n], id, s, Atomic(u.ledger, rs[n], id).1);
      OneMoreTurn(pool, rs, before, cuts, more, s, n);
      assert rs == rs[..n] + [rs[n]];
      cuts, ids := cuts + [|evs|], ids + [id];
    }
  }

  lemma OneMoreTurn(pool: nat, rs: seq<Request>, before: seq<Event>, cuts: seq<nat>, more: seq<Event>, s: State, n: nat)
    requires n + 1 == |rs| && InTurn(pool, rs[..n], before, cuts) && Clean(more) && Quiet(s)
    requires Reaches(Init(pool), before + [Arrive(n, rs[n])] + more, s)
    ensures var evs := before + [Arrive(n, rs[n])] + more; InTurn(pool, rs, evs, cuts + [|evs|])
  {
    var evs := before + [Arrive(n, rs[n])] + more;
    forall k: nat | k < n ensures HasTurn(pool, rs, evs, cuts + [|evs|], k) {
      assert HasTurn(pool, rs[..n], before, cuts, k);
      assert evs[..cuts[k + 1]] == before[..cuts[k + 1]];
      assert evs[cuts[k] + 1..cuts[k + 1]] == before[cuts[k] + 1..cuts[k + 1]];
    }
    assert evs[..|evs|] == evs && evs[cuts[n] + 1..|evs|] == more;
    assert HasTurn(pool, rs, evs, cuts + [|evs|], n);
  }
}
