/** One order over all calls.  The calls that committed, and all others none of whose store
    calls failed, can be put in one line, in the order in which their outcomes became
    certain: running them atomically in that line gives every one its outcome and the whole
    its ledger, and a call that returned before another arrived stands before it. */
module TotalOrder {
  import opened Base
  import opened Serial
  import opened Protocol
  import opened Invariant
  import opened Steps
  import opened Serializability
  import opened Races
  import opened Linearization
  import opened Alone

  // ---------- The line ----------

  /** This step makes its call's outcome certain, the ledger of the moment explains it, and it
      stands: no store call of the call fails in the whole run, or it commits here. */
  predicate Decides(u: State, ev: Event, evs: seq<Event>)
    requires Enabled(u, ev)
  {
    && ev.Run?
    && var call, e := u.calls[ev.call], EffectOf(u, ev);
       && Verdict(call.pc).None? && Verdict(e.pc).Some? && Explains(u.ledger, call.req, Verdict(e.pc).value)
       && (NoFaults(evs, ev.call) || e.write != Nothing)
  }

  function EntryFor(u: State, ev: Event): LogEntry
    requires Enabled(u, ev) && ev.Run? && Verdict(EffectOf(u, ev).pc).Some?
  {
    LogEntry(ev.call, u.calls[ev.call].req, IdOf(Verdict(EffectOf(u, ev).pc).value))
  }

  /** What one event adds to the line. */
  function Added(u: State, ev: Event, evs: seq<Event>): seq<LogEntry>
    requires Enabled(u, ev)
  {
    if Decides(u, ev, evs) then [EntryFor(u, ev)] else []
  }

  /** The calls decided by the first n events of the run, in the order they were. */
  function Line(pool: nat, evs: seq<Event>, n: nat): seq<LogEntry> {
    if n == 0 || n > |evs| then []
    else
      match Exec(Init(pool), evs[..n - 1])
      case None => []
      case Some(u) => Line(pool, evs, n - 1) + if Enabled(u, evs[n - 1]) then Added(u, evs[n - 1], evs) else []
  }

  /** line(n) is the line after n events. */
  ghost predicate IsLine(pool: nat, evs: seq<Event>, line: nat -> seq<LogEntry>) {
    line(0) == [] && forall n: nat :: n < |evs| ==> Adds(pool, evs, line, n)
  }

  ghost predicate Adds(pool: nat, evs: seq<Event>, line: nat -> seq<LogEntry>, n: nat)
    requires n < |evs|
  {
    forall u :: Reaches(Init(pool), evs[..n], u) && Enabled(u, evs[n]) ==>
      line(n + 1) == line(n) + Added(u, evs[n], evs)
  }

  /** The call's outcome cannot change any more. */
  predicate Stands(u: State, evs: seq<Event>, c: CallId) {
    c in u.calls && (NoFaults(evs, c) || u.calls[c].pc.AuditSuccess? || u.calls[c].pc.Returned?)
  }

  /** The i-th call in the line returns, or will return, what it returns when the line is run
      atomically. */
  predicate Placed(u: State, line: seq<LogEntry>, i: nat) {
    && i < |line| && line[i].call in u.calls
    && u.calls[line[i].call].req == line[i].req
    && Verdict(u.calls[line[i].call].pc) == Some(SerialOutcome(line, i))
  }

  ghost predicate LineOk(u: State, evs: seq<Event>, line: seq<LogEntry>) {
    && SerialLedger(line) == u.ledger && Distinct(line)
    && (forall i: nat :: i < |line| ==> Placed(u, line, i) && Stands(u, evs, line[i].call))
    && (forall e :: e in u.log ==> e in line)
  }

  // ---------- What a deciding step does ----------

  lemma TxSuccessWrites(l: Ledger, c: CallId, tx: Tx, stage: Stage, ok: bool)
    requires Verdict(InTx(tx, stage)).None?
    ensures var e := TxStep(l, c, tx, stage, ok);
            Verdict(e.pc).Some? && !Verdict(e.pc).value.Err? ==> e.write != Nothing
  {
  }

  lemma SuccessReplaysOrWrites(l: Ledger, c: CallId, call: Call, ok: bool, newId: TxId)
    requires Verdict(call.pc).None? && !call.pc.Returned?
    ensures var e := Decide(l, c, call, ok, newId);
            Verdict(e.pc).Some? && !Verdict(e.pc).value.Err? && e.write == Nothing ==>
              call.pc.ReplayEntries? || call.pc.RefetchEntries?
  {
    if call.pc.InTx? { TxSuccessWrites(l, c, call.pc.tx, call.pc.stage, ok); }
  }

  lemma KeyHeld(s: State, c: CallId)
    requires Inv(s) && c in s.calls && (s.calls[c].pc.ReplayEntries? || s.calls[c].pc.RefetchEntries?)
    ensures !s.calls[c].req.CreateReq? && FindKey(s.ledger.headers, Key(s.calls[c].req)).Some?
  {
    assert CallOk(s, c);
  }

  /** Without a write the atomic call would not have changed the ledger either. */
  lemma QuietDecision(u: State, ev: Event, v: Outcome)
    requires Inv(u) && ev.Run? && Enabled(u, ev) && EffectOf(u, ev).write == Nothing
    requires Verdict(u.calls[ev.call].pc).None? && Verdict(EffectOf(u, ev).pc) == Some(v)
    ensures Atomic(u.ledger, u.calls[ev.call].req, IdOf(v)).1 == v ==>
              Atomic(u.ledger, u.calls[ev.call].req, IdOf(v)).0 == u.ledger
  {
    var call := u.calls[ev.call];
    ErrorsKeep(u.ledger, call.req, IdOf(v));
    SuccessReplaysOrWrites(u.ledger, ev.call, call, ev.ok, ev.newId);
    if !v.Err? {
      KeyHeld(u, ev.call);
      ReplaysKeep(u.ledger, call.req, IdOf(v));
    }
  }

  lemma SuccessVerdict(tx: Tx, h: Header, legs: seq<Entry>)
    requires tx.header == Some(h) && tx.legs == legs
    ensures Verdict(AuditSuccess(tx)) == Some(Ok(h, legs)) && IdOf(Ok(h, legs)) == h.id
  {
  }

  lemma PostingDecision(u: State, c: CallId, tx: Tx)
    requires Inv(u) && c in u.calls && u.calls[c].pc == InTx(tx, Commit)
    ensures Verdict(AuditSuccess(tx)).Some? && IdOf(Verdict(AuditSuccess(tx)).value) == tx.id
    ensures Atomic(u.ledger, u.calls[c].req, tx.id) ==
            (WriteLedger(u.ledger, PostTx(tx)), Verdict(AuditSuccess(tx)).value)
  {
    CommitIsAtomic(u, c, tx);
    SuccessVerdict(tx, HeaderOf(tx.move, tx.id), LegsOf(tx.move, tx.id));
  }

  lemma OpeningDecision(u: State, c: CallId, a: AccountId)
    requires Inv(u) && c in u.calls && u.calls[c].pc.CreateRow?
    ensures Atomic(u.ledger, u.calls[c].req, a) == (WriteLedger(u.ledger, OpenAccount(a)), Created(a))
  {
    assert CallOk(u, c);
  }

  /** Every write decides its call, and the atomic call would have written the same. */
  lemma WriteDecides(u: State, ev: Event)
    requires Inv(u) && ev.Run? && Enabled(u, ev) && EffectOf(u, ev).write != Nothing
    ensures var call, e := u.calls[ev.call], EffectOf(u, ev);
            && Verdict(call.pc).None? && Verdict(e.pc).Some? && (e.pc.AuditSuccess? || e.pc.Returned?)
            && Atomic(u.ledger, call.req, IdOf(Verdict(e.pc).value)) ==
               (WriteLedger(u.ledger, e.write), Verdict(e.pc).value)
            && WriteLog(u.log, ev.call, call.req, e.write) == u.log + [EntryFor(u, ev)]
  {
    StepDisciplined(u, ev);
    match EffectOf(u, ev).write
    case PostTx(tx) => PostingDecision(u, ev.call, tx);
    case OpenAccount(a) => OpeningDecision(u, ev.call, a);
  }

  // ---------- Keeping the line ----------

  lemma {:induction false} Grown(u: State, t: State, evs: seq<Event>, line: seq<LogEntry>, entry: LogEntry, v: Outcome)
    requires LineOk(u, evs, line) && entry.call in u.calls && Verdict(u.calls[entry.call].pc).None?
    requires entry.call in t.calls && t.calls == u.calls[entry.call := Call(entry.req, t.calls[entry.call].pc)]
    requires Verdict(t.calls[entry.call].pc) == Some(v) && Stands(t, evs, entry.call)
    requires Atomic(u.ledger, entry.req, entry.id).0 == t.ledger && Atomic(u.ledger, entry.req, entry.id).1 == v
    requires t.log == u.log || t.log == u.log + [entry]
    ensures LineOk(t, evs, line + [entry])
  {
    var all := line + [entry];
    assert all[..|line|] == line;
    forall i: nat | i < |line| ensures line[i].call != entry.call { assert Placed(u, line, i); }
    forall i: nat | i < |all| ensures Placed(t, all, i) && Stands(t, evs, all[i].call) {
      if i < |line| {
        assert all[..i] == line[..i] && Placed(u, line, i) && Stands(u, evs, line[i].call);
      }
    }
  }

  lemma Kept(u: State, t: State, evs: seq<Event>, line: seq<LogEntry>, c: CallId)
    requires LineOk(u, evs, line) && t.ledger == u.ledger && t.log == u.log
    requires forall d :: d in u.calls ==> d in t.calls && t.calls[d].req == u.calls[d].req
    requires forall d :: d in u.calls && d != c ==> t.calls[d] == u.calls[d]
    requires Stands(u, evs, c) && Verdict(u.calls[c].pc).Some? ==>
               Stands(t, evs, c) && Verdict(t.calls[c].pc) == Verdict(u.calls[c].pc)
    ensures LineOk(t, evs, line)
  {
    forall i: nat | i < |line| ensures Placed(t, line, i) && Stands(t, evs, line[i].call) {
      assert Placed(u, line, i) && Stands(u, evs, line[i].call);
    }
  }

  /** A certain outcome that stands keeps standing. */
  lemma StandsStays(u: State, ev: Event, evs: seq<Event>)
    requires Inv(u) && ev.Run? && Enabled(u, ev) && (NoFaults(evs, ev.call) ==> ev.ok)
    requires Stands(u, evs, ev.call) && Verdict(u.calls[ev.call].pc).Some?
    ensures Stands(Next(u, ev), evs, ev.call) && Verdict(EffectOf(u, ev).pc) == Verdict(u.calls[ev.call].pc)
  {
    if NoFaults(evs, ev.call) { VerdictStays(u, ev); }
  }

  lemma DecidedGrows(u: State, ev: Event, evs: seq<Event>, line: seq<LogEntry>)
    requires Inv(u) && LineOk(u, evs, line) && Enabled(u, ev) && Decides(u, ev, evs)
    ensures LineOk(Next(u, ev), evs, line + [EntryFor(u, ev)])
  {
    var e := EffectOf(u, ev);
    var v := Verdict(e.pc).value;
    if e.write == Nothing { QuietDecision(u, ev, v); } else { WriteDecides(u, ev); }
    Grown(u, Next(u, ev), evs, line, EntryFor(u, ev), v);
  }

  lemma UndecidedKeeps(u: State, ev: Event, evs: seq<Event>, line: seq<LogEntry>)
    requires Inv(u) && LineOk(u, evs, line) && Enabled(u, ev) && !Decides(u, ev, evs)
    requires ev.Run? && NoFaults(evs, ev.call) ==> ev.ok
    ensures LineOk(Next(u, ev), evs, line)
  {
    if ev.Run? {
      if EffectOf(u, ev).write != Nothing { WriteDecides(u, ev); }
      if Stands(u, evs, ev.call) && Verdict(u.calls[ev.call].pc).Some? { StandsStays(u, ev, evs); }
    }
    Kept(u, Next(u, ev), evs, line, ev.call);
  }

  lemma LineStart(pool: nat, evs: seq<Event>)
    ensures LineOk(Init(pool), evs, [])
  {
  }

  lemma LineNext(pool: nat, evs: seq<Event>, line: nat -> seq<LogEntry>, n: nat, u: State)
    requires IsLine(pool, evs, line) && n < |evs| && Reaches(Init(pool), evs[..n], u) && Enabled(u, evs[n])
    ensures line(n + 1) == line(n) + Added(u, evs[n], evs)
  {
    assert Adds(pool, evs, line, n);
  }

  lemma LastEvent(start: State, evs: seq<Event>, n: nat, u: State) returns (v: State)
    requires 0 < n <= |evs| && Reaches(start, evs[..n], u)
    ensures Reaches(start, evs[..n - 1], v) && Enabled(v, evs[n - 1]) && u == Next(v, evs[n - 1])
  {
    assert evs[..n][..n - 1] == evs[..n - 1];
    v := Exec(start, evs[..n - 1]).value;
  }

  lemma LineStep(v: State, ev: Event, evs: seq<Event>, line: seq<LogEntry>, more: seq<LogEntry>)
    requires Inv(v) && LineOk(v, evs, line) && Enabled(v, ev) && (ev.Run? && NoFaults(evs, ev.call) ==> ev.ok)
    requires more == line + Added(v, ev, evs)
    ensures LineOk(Next(v, ev), evs, more)
  {
    if Decides(v, ev, evs) {
      DecidedGrows(v, ev, evs, line);
    } else {
      UndecidedKeeps(v, ev, evs, line);
      assert more == line;
    }
  }

  lemma {:induction false} LineRun(pool: nat, evs: seq<Event>, line: nat -> seq<LogEntry>, n: nat, u: State)
    requires IsLine(pool, evs, line) && n <= |evs| && Reaches(Init(pool), evs[..n], u)
    ensures LineOk(u, evs, line(n))
  {
    if n == 0 {
      LineStart(pool, evs);
    } else {
      var v := LastEvent(Init(pool), evs, n, u);
      LineRun(pool, evs, line, n - 1, v);
      LineRunStep(pool, evs, line, n, v, u);
    }
  }

  lemma LineRunStep(pool: nat, evs: seq<Event>, line: nat -> seq<LogEntry>, k: nat, v: State, u: State)
    requires IsLine(pool, evs, line) && 0 < k <= |evs| && Reaches(Init(pool), evs[..k - 1], v)
    requires Enabled(v, evs[k - 1]) && u == Next(v, evs[k - 1]) && LineOk(v, evs, line(k - 1))
    ensures LineOk(u, evs, line(k))
  {
    var n := k - 1;
    InvRun(pool, evs[..n], v);
    LineNext(pool, evs, line, n, v);
    LineStep(v, evs[n], evs, line(n), line(n + 1));
  }

  // ---------- Who is in it ----------

  /** Call c, asking r and returning o, was overtaken: its key was free when it looked, and
      committed when a guard stopped it with that error. */
  ghost predicate WasOvertaken(pool: nat, evs: seq<Event>, c: CallId, r: Request, o: Outcome) {
    exists i: nat, u: State, j: nat, v: State ::
      && Moment(pool, evs, i, u, c) && Overtaken(u.ledger, r, o)
      && Moment(pool, evs, j, v, c) && j <= i && FindKey(v.ledger.headers, Key(r)).None?
  }

  lemma OvertakenHere(pool: nat, evs: seq<Event>, n: nat, u: State, c: CallId, o: Outcome)
    requires n <= |evs| && Reaches(Init(pool), evs[..n], u) && c in u.calls && NoFaults(evs, c)
    requires Underway(u.calls[c].pc) && Overtaken(u.ledger, u.calls[c].req, o)
    ensures WasOvertaken(pool, evs, c, u.calls[c].req, o)
  {
    NoFaultsPrefix(evs, n, c);
    var j, v := LookupMoment(pool, evs[..n], u, c);
    MomentOfPrefix(pool, evs, n, j, v, c);
    assert Moment(pool, evs, n, u, c);
  }

  lemma StaysIn(before: seq<LogEntry>, more: seq<LogEntry>, c: CallId)
    requires InLog(before, c)
    ensures InLog(before + more, c)
  {
    var k :| 0 <= k < |before| && before[k].call == c;
    assert (before + more)[k].call == c;
  }

  /** The step that makes the outcome certain puts the call in the line, or it is overtaken. */
  lemma DecidedNow(pool: nat, evs: seq<Event>, n: nat, v: State, c: CallId)
    requires n < |evs| && Reaches(Init(pool), evs[..n], v) && Enabled(v, evs[n]) && evs[n].Run? && evs[n].call == c
    requires NoFaults(evs, c) && Verdict(v.calls[c].pc).None? && Verdict(EffectOf(v, evs[n]).pc).Some?
    ensures Decides(v, evs[n], evs)
         || WasOvertaken(pool, evs, c, v.calls[c].req, Verdict(EffectOf(v, evs[n]).pc).value)
  {
    InvRun(pool, evs[..n], v);
    ConflictedRun(pool, evs[..n], v, c);
    OwnSettles(v, evs[n]);
    if !Decides(v, evs[n], evs) {
      OvertakenHere(pool, evs, n, v, c, Verdict(EffectOf(v, evs[n]).pc).value);
    }
  }

  lemma JustAdded(before: seq<LogEntry>, v: State, ev: Event, evs: seq<Event>)
    requires Enabled(v, ev) && Decides(v, ev, evs)
    ensures InLog(before + Added(v, ev, evs), ev.call)
  {
    assert (before + Added(v, ev, evs))[|before|].call == ev.call;
  }

  lemma {:induction false} InLineOrOvertaken(pool: nat, evs: seq<Event>, line: nat -> seq<LogEntry>, n: nat, u: State,
                                             c: CallId)
    requires IsLine(pool, evs, line) && n <= |evs| && Reaches(Init(pool), evs[..n], u)
    requires c in u.calls && NoFaults(evs, c) && Verdict(u.calls[c].pc).Some?
    ensures InLog(line(n), c) || WasOvertaken(pool, evs, c, u.calls[c].req, Verdict(u.calls[c].pc).value)
  {
    if n > 0 {
      var v := LastEvent(Init(pool), evs, n, u);
      var ev := evs[n - 1];
      LineNext(pool, evs, line, n - 1, v);
      if ev.call != c || (ev.Run? && Verdict(v.calls[c].pc).Some?) {
        SameVerdict(pool, evs, n, v, c);
        InLineOrOvertaken(pool, evs, line, n - 1, v, c);
        if InLog(line(n - 1), c) { StaysIn(line(n - 1), Added(v, ev, evs), c); }
      } else {
        NewInLine(pool, evs, n - 1, v, c, line(n - 1));
      }
    }
  }

  lemma NewInLine(pool: nat, evs: seq<Event>, n: nat, v: State, c: CallId, before: seq<LogEntry>)
    requires n < |evs| && Reaches(Init(pool), evs[..n], v) && Enabled(v, evs[n]) && evs[n].call == c && NoFaults(evs, c)
    requires !(evs[n].Run? && Verdict(v.calls[c].pc).Some?) && Verdict(Next(v, evs[n]).calls[c].pc).Some?
    ensures var call := Next(v, evs[n]).calls[c];
            || InLog(before + Added(v, evs[n], evs), c)
            || WasOvertaken(pool, evs, c, call.req, Verdict(call.pc).value)
  {
    DecidedNow(pool, evs, n, v, c);
    if Decides(v, evs[n], evs) { JustAdded(before, v, evs[n], evs); }
  }

  lemma SameVerdict(pool: nat, evs: seq<Event>, n: nat, v: State, c: CallId)
    requires 0 < n <= |evs| && Reaches(Init(pool), evs[..n - 1], v) && Enabled(v, evs[n - 1]) && NoFaults(evs, c)
    requires c in Next(v, evs[n - 1]).calls
    requires evs[n - 1].call != c || (evs[n - 1].Run? && Verdict(v.calls[c].pc).Some?)
    ensures c in v.calls && v.calls[c].req == Next(v, evs[n - 1]).calls[c].req
    ensures Verdict(Next(v, evs[n - 1]).calls[c].pc) == Verdict(v.calls[c].pc)
  {
    if evs[n - 1].call == c {
      InvRun(pool, evs[..n - 1], v);
      VerdictStays(v, evs[n - 1]);
    }
  }

  // ---------- Real time ----------

  lemma {:induction false} ReturnedStays(start: State, evs: seq<Event>, k: nat, v: State, n: nat, u: State, c: CallId)
    requires k <= n <= |evs| && Reaches(start, evs[..k], v) && Reaches(start, evs[..n], u)
    requires c in v.calls && v.calls[c].pc.Returned?
    ensures c in u.calls && u.calls[c] == v.calls[c]
  {
    if n > k {
      var w := LastEvent(start, evs, n, u);
      ReturnedStays(start, evs, k, v, n - 1, w, c);
    }
  }

  lemma NotAddedAgain(v: State, ev: Event, evs: seq<Event>, c: CallId)
    requires Enabled(v, ev) && c in v.calls && v.calls[c].pc.Returned?
    ensures forall e :: e in Added(v, ev, evs) ==> e.call != c
  {
  }

  lemma FoundBefore(before: seq<LogEntry>, more: seq<LogEntry>, i: nat, c: CallId)
    requires i < |before + more| && (before + more)[i].call == c && forall e :: e in more ==> e.call != c
    ensures i < |before|
  {
    forall k | 0 <= k < |more| ensures more[k].call != c { assert more[k] in more; }
  }

  /** Whoever had returned after k events was put in the line by them. */
  lemma {:induction false} PlacedBefore(pool: nat, evs: seq<Event>, line: nat -> seq<LogEntry>, k: nat, v: State,
                                        n: nat, u: State, i: nat)
    requires IsLine(pool, evs, line) && k <= n <= |evs|
    requires Reaches(Init(pool), evs[..k], v) && Reaches(Init(pool), evs[..n], u)
    requires i < |line(n)| && line(n)[i].call in v.calls && v.calls[line(n)[i].call].pc.Returned?
    ensures i < |line(k)|
  {
    if n > k {
      var w := NotInLast(pool, evs, line, k, v, n, u, i);
      PlacedBefore(pool, evs, line, k, v, n - 1, w, i);
    }
  }

  lemma NotInLast(pool: nat, evs: seq<Event>, line: nat -> seq<LogEntry>, k: nat, v: State, n: nat, u: State, i: nat)
    returns (w: State)
    requires IsLine(pool, evs, line) && k < n <= |evs|
    requires Reaches(Init(pool), evs[..k], v) && Reaches(Init(pool), evs[..n], u)
    requires i < |line(n)| && line(n)[i].call in v.calls && v.calls[line(n)[i].call].pc.Returned?
    ensures Reaches(Init(pool), evs[..n - 1], w) && i < |line(n - 1)| && line(n - 1)[i] == line(n)[i]
  {
    w := LastEvent(Init(pool), evs, n, u);
    var c := line(n)[i].call;
    LineNext(pool, evs, line, n - 1, w);
    ReturnedStays(Init(pool), evs, k, v, n - 1, w, c);
    NotAddedAgain(w, evs[n - 1], evs, c);
    FoundBefore(line(n - 1), Added(w, evs[n - 1], evs), i, c);
  }

  lemma LineGrows(pool: nat, evs: seq<Event>, line: nat -> seq<LogEntry>, s: State, n: nat)
    requires IsLine(pool, evs, line) && Reaches(Init(pool), evs, s) && n < |evs|
    ensures line(n) <= line(n + 1)
  {
    var u := PrefixReaches(Init(pool), evs, s, n + 1);
    var v := LastEvent(Init(pool), evs, n + 1, u);
    LineNext(pool, evs, line, n, v);
  }

  lemma {:induction false} Chain<T>(f: nat -> seq<T>, k: nat, n: nat)
    requires k <= n && forall m: nat :: k <= m < n ==> f(m) <= f(m + 1)
    ensures f(k) <= f(n)
  {
    if n > k {
      Chain(f, k, n - 1);
      assert f(n - 1) <= f(n - 1 + 1);
    }
  }

  lemma LinePrefix(pool: nat, evs: seq<Event>, line: nat -> seq<LogEntry>, s: State, k: nat)
    requires IsLine(pool, evs, line) && Reaches(Init(pool), evs, s) && k <= |evs|
    ensures line(k) <= line(|evs|)
  {
    forall m: nat | k <= m < |evs| ensures line(m) <= line(m + 1) { LineGrows(pool, evs, line, s, m); }
    Chain(line, k, |evs|);
  }

  /** After some k events call c had returned and call d had not arrived. */
  ghost predicate Before(pool: nat, evs: seq<Event>, c: CallId, d: CallId) {
    exists k: nat, v: State ::
      k <= |evs| && Reaches(Init(pool), evs[..k], v) && c in v.calls && v.calls[c].pc.Returned? && d !in v.calls
  }

  lemma RealTime(pool: nat, evs: seq<Event>, line: nat -> seq<LogEntry>, s: State, i: nat, j: nat)
    requires IsLine(pool, evs, line) && Reaches(Init(pool), evs, s) && i < |line(|evs|)| && j < |line(|evs|)|
    requires Before(pool, evs, line(|evs|)[i].call, line(|evs|)[j].call)
    ensures i < j
  {
    var c, d := line(|evs|)[i].call, line(|evs|)[j].call;
    var k: nat, v: State :|
      k <= |evs| && Reaches(Init(pool), evs[..k], v) && c in v.calls && v.calls[c].pc.Returned? && d !in v.calls;
    assert evs[..|evs|] == evs;
    PlacedBefore(pool, evs, line, k, v, |evs|, s, i);
    LineRun(pool, evs, line, k, v);
    LinePrefix(pool, evs, line, s, k);
    forall m: nat | m < |line(k)| ensures line(k)[m].call in v.calls {
      assert Placed(v, line(k), m);
    }
  }

  // ---------- Main result ----------

  lemma LineIsLine(pool: nat, evs: seq<Event>, n: nat, u: State)
    requires n < |evs| && Reaches(Init(pool), evs[..n], u) && Enabled(u, evs[n])
    ensures Line(pool, evs, n + 1) == Line(pool, evs, n) + Added(u, evs[n], evs)
  {
  }

  lemma TheLine(pool: nat, evs: seq<Event>) returns (line: nat -> seq<LogEntry>)
    ensures IsLine(pool, evs, line)
  {
    line := (n: nat) => Line(pool, evs, n);
    forall n: nat | n < |evs| ensures Adds(pool, evs, line, n) {
      forall u | Reaches(Init(pool), evs[..n], u) && Enabled(u, evs[n])
        ensures line(n + 1) == line(n) + Added(u, evs[n], evs)
      {
        LineIsLine(pool, evs, n, u);
      }
    }
  }

  /** One order: for every run there is a line of calls, each at most once, such that running
      them atomically one after the other from the seed leaves the committed ledger and gives
      each call in it the outcome it returns.  Every committed call is in it, as logged; so is
      every call that returned and none of whose store calls failed, unless it was overtaken
      on its key.  A call that returned before another arrived stands before it. */
  lemma OneOrder(pool: nat, evs: seq<Event>, s: State) returns (line: seq<LogEntry>)
    requires Reaches(Init(pool), evs, s)
    ensures SerialLedger(line) == s.ledger && Distinct(line)
    ensures forall i: nat :: i < |line| ==> Placed(s, line, i)
    ensures forall e :: e in s.log ==> e in line
    ensures forall c :: c in s.calls && s.calls[c].pc.Returned? && NoFaults(evs, c) ==>
              InLog(line, c) || WasOvertaken(pool, evs, c, s.calls[c].req, s.calls[c].pc.outcome)
    ensures forall i: nat, j: nat :: i < |line| && j < |line| && Before(pool, evs, line[i].call, line[j].call) ==> i < j
  {
    var lines := TheLine(pool, evs);
    line := lines(|evs|);
    assert evs[..|evs|] == evs;
    LineRun(pool, evs, lines, |evs|, s);
    forall c | c in s.calls && s.calls[c].pc.Returned? && NoFaults(evs, c)
      ensures InLog(line, c) || WasOvertaken(pool, evs, c, s.calls[c].req, s.calls[c].pc.outcome)
    {
      InLineOrOvertaken(pool, evs, lines, |evs|, s, c);
    }
    forall i: nat, j: nat | i < |line| && j < |line| && Before(pool, evs, line[i].call, line[j].call) ensures i < j {
      RealTime(pool, evs, lines, s, i, j);
    }
  }
}
