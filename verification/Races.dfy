/** What a call that is past its replay lookup returns.  The code looks for the key's holder
    only when it inserts the header, so every guard it meets before that can stop it even
    though somebody has committed its key meanwhile. */
module Races {
  import opened Base
  import opened Serial
  import opened LedgerInvariant
  import opened Protocol
  import opened Invariant
  import opened Steps
  import opened Guarantees

  // ---------- The guards ----------

  /** Past the replay lookup and not turned back: fetching the original, or anywhere inside
      the transaction before a rollback. */
  predicate Underway(pc: Pc) {
    match pc
    case FetchHeader => true
    case FetchEntries(_) => true
    case NewId(_) => true
    case Begin(_, _) => true
    case InTx(_, stage) => !stage.Rollback?
    case _ => false
  }

  function BalanceIn(l: Ledger, a: AccountId): int {
    if a in l.accounts then l.accounts[a].balance else 0
  }

  /** The guard inside the transaction that stops the next step on ledger l: a row missing
      from the snapshot or from the locked rows, too little on the payer, no room on
      EXTERNAL, an original reversed before. */
  function TxGuard(l: Ledger, tx: Tx, stage: Stage): Option<Error> {
    var m := tx.move;
    match stage
    case Scan =>
      if m.debit !in l.accounts || m.credit !in l.accounts then Some(AccountNotFound) else None
    case Check =>
      if m.debit !in tx.read || m.credit !in tx.read then Some(AccountNotFound)
      else if m.kind != Deposit && BalanceIn(l, m.debit) < m.amount then Some(InsufficientFunds)
      else None
    case DebitUpdate =>
      if !Fits(BalanceIn(l, m.debit) - m.amount) then Some(NumericOverflow) else None
    case InsertReverses =>
      if m.reverses.Some? && Reversed(l.headers, m.reverses.value) then Some(AlreadyReversed) else None
    case _ => None
  }

  /** The guard that stops the call's next step on the committed ledger l, and its error. */
  function Guard(l: Ledger, call: Call): (r: Option<Error>)
    ensures r != Some(StoreFailure) && r != Some(IdempotencyConflict)
  {
    match call.pc
    case FetchHeader =>
      if call.req.ReverseReq? && FindId(l.headers, call.req.original).None? then Some(TransactionNotFound) else None
    case FetchEntries(h) =>
      if h.kind != Transfer then Some(NotReversible) else None
    case InTx(tx, stage) => TxGuard(l, tx, stage)
    case _ => None
  }

  /** Event i is a step of call c that its guard stops with e. */
  predicate StopsAt(s: State, evs: seq<Event>, i: nat, c: CallId, e: Error) {
    && i < |evs| && evs[i].Run? && evs[i].call == c
    && Exec(s, evs[..i]).Some?
    && var u := Exec(s, evs[..i]).value;
       c in u.calls && Guard(u.ledger, u.calls[c]) == Some(e)
  }

  ghost predicate NeverStopped(s: State, evs: seq<Event>, c: CallId) {
    forall i: nat, e: Error :: !StopsAt(s, evs, i, c, e)
  }

  /** No store call of c fails along these events. */
  predicate NoFaults(evs: seq<Event>, c: CallId) {
    forall i :: 0 <= i < |evs| && evs[i].Run? && evs[i].call == c ==> evs[i].ok
  }

  // ---------- Two courses ----------

  /** On its way to a success: its own, or the one the key's holder committed. */
  predicate Winning(l: Ledger, call: Call) {
    match call.pc
    case InTx(_, stage) => stage == Rollback(IdempotencyConflict) && FindKey(l.headers, Key(call.req)).Some?
    case RefetchHeader(_) => FindKey(l.headers, Key(call.req)).Some?
    case RefetchEntries(_, _) => true
    case AuditSuccess(_) => true
    case Returned(o) => o.Ok?
    case _ => false
  }

  predicate Going(l: Ledger, call: Call) {
    Underway(call.pc) || Winning(l, call)
  }

  /** A target that will not be locked. */
  predicate Missing(m: Move, rows: set<AccountId>) {
    m.debit !in rows || m.credit !in rows
  }

  /** On its way to returning e. */
  predicate Doomed(pc: Pc, e: Error) {
    match pc
    case InTx(tx, Locking(todo)) => e == AccountNotFound && Missing(tx.move, tx.read.Keys + set a | a in todo)
    case InTx(tx, Check) => e == AccountNotFound && Missing(tx.move, tx.read.Keys)
    case InTx(tx, Rollback(x)) => x == e
    case AuditFailure(x, _) => x == e
    case Returned(o) => o == Err(e)
    case _ => false
  }

  // ---------- One step ----------

  lemma KeyStays(l: Ledger, n: Ledger, k: string)
    requires Extends(l, n) && FindKey(l.headers, k).Some?
    ensures FindKey(n.headers, k).Some?
  {
    var h := FindKey(l.headers, k).value;
    assert h in n.headers;
  }

  /** The step from this stage: the guard stops the call, or it goes on. */
  predicate Turns(l: Ledger, c: CallId, r: Request, tx: Tx, stage: Stage) {
    var p := TxStep(l, c, tx, stage, true).pc;
    match TxGuard(l, tx, stage)
    case Some(e) => Doomed(p, e)
    case None => Going(l, Call(r, p))
  }

  lemma UpdatesGo(s: State, c: CallId, tx: Tx, stage: Stage)
    requires AtStage(s, c, tx, stage) && LedgerOk(s.ledger) && (stage.DebitUpdate? || stage.CreditUpdate?)
    ensures Turns(s.ledger, c, s.calls[c].req, tx, stage)
  {
    UpdateStep(s, c, s.calls[c].req, tx);
  }

  lemma LegsGo(s: State, c: CallId, tx: Tx)
    requires AtStage(s, c, tx, InsertLegs) && LedgerOk(s.ledger)
    ensures Turns(s.ledger, c, s.calls[c].req, tx, InsertLegs)
  {
    UpdateStep(s, c, s.calls[c].req, tx);
  }

  lemma ReversesGo(s: State, c: CallId, tx: Tx)
    requires AtStage(s, c, tx, InsertReverses) && LedgerOk(s.ledger)
    ensures Turns(s.ledger, c, s.calls[c].req, tx, InsertReverses)
  {
    OriginalFound(s.ledger, s.calls[c].req, tx.move);
  }

  lemma KeyGoes(s: State, c: CallId, tx: Tx)
    requires AtStage(s, c, tx, InsertKey)
    ensures Turns(s.ledger, c, s.calls[c].req, tx, InsertKey)
  {
    SettledSound(s.ledger, s.calls[c].req, tx.move);
  }

  lemma CheckGoes(s: State, c: CallId, tx: Tx)
    requires AtStage(s, c, tx, Check)
    ensures Turns(s.ledger, c, s.calls[c].req, tx, Check)
  {
    TwoKeys(tx.read, tx.move.debit, tx.move.credit);
  }

  lemma ScanGoes(l: Ledger, c: CallId, r: Request, tx: Tx)
    requires tx.read == map[]
    ensures Turns(l, c, r, tx, Scan)
  {
    var found := Visible(l, Targets(tx.move));
    assert forall a :: a in Targets(tx.move) <==> a == tx.move.debit || a == tx.move.credit;
    if TxGuard(l, tx, Scan).Some? && found != [] {
      assert Missing(tx.move, tx.read.Keys + set a | a in found);
    }
  }

  /** Locking the next row moves it from the rows to come to the rows held. */
  lemma LockGoes(l: Ledger, c: CallId, tx: Tx, todo: seq<AccountId>)
    requires todo != [] && todo[0] in l.accounts
    ensures var p := TxStep(l, c, tx, Locking(todo), true).pc;
            Underway(p) && forall e :: Doomed(InTx(tx, Locking(todo)), e) ==> Doomed(p, e)
  {
    var read := tx.read[todo[0] := l.accounts[todo[0]].balance];
    assert forall a :: a in todo <==> a == todo[0] || a in todo[1..];
    assert read.Keys + (set a | a in todo[1..]) == tx.read.Keys + set a | a in todo;
    if todo[1..] == [] { assert read.Keys == tx.read.Keys + set a | a in todo; }
  }

  lemma LockTurns(s: State, c: CallId, tx: Tx, todo: seq<AccountId>)
    requires AtStage(s, c, tx, Locking(todo))
    ensures Turns(s.ledger, c, s.calls[c].req, tx, Locking(todo))
  {
    LockGoes(s.ledger, c, tx, todo);
  }

  lemma CommitTurns(s: State, c: CallId, tx: Tx)
    requires AtStage(s, c, tx, Commit) && LedgerOk(s.ledger)
    ensures Turns(s.ledger, c, s.calls[c].req, tx, Commit)
  {
    CommitGoes(s, c, tx);
  }

  lemma TxCourse(s: State, c: CallId, tx: Tx, stage: Stage)
    requires AtStage(s, c, tx, stage) && LedgerOk(s.ledger) && !stage.Rollback?
    ensures Turns(s.ledger, c, s.calls[c].req, tx, stage)
  {
    match stage
    case Scan => ScanGoes(s.ledger, c, s.calls[c].req, tx);
    case Locking(todo) => LockTurns(s, c, tx, todo);
    case Check => CheckGoes(s, c, tx);
    case DebitUpdate => UpdatesGo(s, c, tx, stage);
    case CreditUpdate => UpdatesGo(s, c, tx, stage);
    case InsertKey => KeyGoes(s, c, tx);
    case InsertReverses => ReversesGo(s, c, tx);
    case InsertLegs => LegsGo(s, c, tx);
    case Commit => CommitTurns(s, c, tx);
  }

  /** Fetching, and opening the transaction. */
  lemma PlainCourse(l: Ledger, c: CallId, call: Call, newId: TxId)
    requires Underway(call.pc) && !call.pc.InTx?
    requires call.pc.FetchHeader? || call.pc.FetchEntries? ==> call.req.ReverseReq?
    ensures var p := Decide(l, c, call, true, newId).pc;
            match Guard(l, call)
            case Some(e) => Doomed(p, e)
            case None => Underway(p)
  {
  }

  lemma WinningCourse(l: Ledger, c: CallId, call: Call, newId: TxId)
    requires Winning(l, call) && !call.pc.Returned? && (call.pc.AuditSuccess? ==> call.pc.tx.header.Some?)
    ensures Winning(l, Call(call.req, Decide(l, c, call, true, newId).pc)) && Guard(l, call).None?
  {
  }

  /** One step of a call on its way: its guard stops it, or it goes on. */
  lemma GoingStep(s: State, ev: Event)
    requires Inv(s) && ev.Run? && ev.ok && Enabled(s, ev) && Going(s.ledger, s.calls[ev.call])
    ensures var p := EffectOf(s, ev).pc;
            match Guard(s.ledger, s.calls[ev.call])
            case Some(e) => Doomed(p, e)
            case None => Going(s.ledger, Call(s.calls[ev.call].req, p))
  {
    var c, call := ev.call, s.calls[ev.call];
    assert CallOk(s, c);
    if Winning(s.ledger, call) {
      WinningCourse(s.ledger, c, call, ev.newId);
    } else if call.pc.InTx? {
      AtItsStage(s, c);
      TxCourse(s, c, call.pc.tx, call.pc.stage);
    } else {
      PlainCourse(s.ledger, c, call, ev.newId);
    }
  }

  lemma DoomedInTx(s: State, c: CallId, tx: Tx, stage: Stage, e: Error)
    requires AtStage(s, c, tx, stage) && Doomed(InTx(tx, stage), e) && e != IdempotencyConflict
    ensures Doomed(TxStep(s.ledger, c, tx, stage, true).pc, e)
    ensures var g := TxGuard(s.ledger, tx, stage); g.None? || g == Some(e)
  {
    match stage
    case Locking(todo) => LockGoes(s.ledger, c, tx, todo);
    case Check => TwoKeys(tx.read, tx.move.debit, tx.move.credit);
    case _ =>
  }

  /** One step of a call that has been stopped. */
  lemma DoomedStep(s: State, ev: Event, e: Error)
    requires Inv(s) && ev.Run? && ev.ok && Enabled(s, ev) && Doomed(s.calls[ev.call].pc, e) && e != IdempotencyConflict
    ensures Doomed(EffectOf(s, ev).pc, e)
    ensures var g := Guard(s.ledger, s.calls[ev.call]); g.None? || g == Some(e)
  {
    var c, pc := ev.call, s.calls[ev.call].pc;
    if pc.InTx? {
      AtItsStage(s, c);
      DoomedInTx(s, c, pc.tx, pc.stage, e);
    }
  }

  // ---------- Whole runs ----------

  lemma {:induction false} PrefixStops(s: State, evs: seq<Event>, n: nat, c: CallId)
    requires n <= |evs|
    ensures forall i: nat, e: Error :: i < n ==> (StopsAt(s, evs[..n], i, c, e) <==> StopsAt(s, evs, i, c, e))
  {
    forall i: nat, e: Error | i < n ensures StopsAt(s, evs[..n], i, c, e) <==> StopsAt(s, evs, i, c, e) {
      assert evs[..n][..i] == evs[..i];
    }
  }

  /** Where call c stands after a run: still on its way if no guard stopped it, otherwise on
      its way to the error of every guard that did. */
  ghost predicate OnCourse(s: State, evs: seq<Event>, t: State, c: CallId) {
    && c in t.calls
    && (NeverStopped(s, evs, c) ==> Going(t.ledger, t.calls[c]))
    && (forall i: nat, e: Error :: StopsAt(s, evs, i, c, e) ==> Doomed(t.calls[c].pc, e))
  }

  lemma OthersStep(s: State, ev: Event, c: CallId)
    requires Inv(s) && Enabled(s, ev) && c in s.calls && ev.call != c
    ensures Next(s, ev).calls[c] == s.calls[c]
    ensures Going(s.ledger, s.calls[c]) ==> Going(Next(s, ev).ledger, s.calls[c])
  {
    LedgerStep(s, ev);
    if FindKey(s.ledger.headers, Key(s.calls[c].req)).Some? {
      KeyStays(s.ledger, Next(s, ev).ledger, Key(s.calls[c].req));
    }
  }

  lemma OwnStep(s: State, ev: Event)
    requires Inv(s) && ev.Run? && ev.ok && Enabled(s, ev)
    ensures var call, t := s.calls[ev.call], Next(s, ev);
            && (Going(s.ledger, call) && Guard(s.ledger, call).None? ==> Going(t.ledger, t.calls[ev.call]))
            && (Going(s.ledger, call) && Guard(s.ledger, call).Some? ==>
                  Doomed(t.calls[ev.call].pc, Guard(s.ledger, call).value))
  {
    LedgerStep(s, ev);
    if Going(s.ledger, s.calls[ev.call]) {
      GoingStep(s, ev);
      if FindKey(s.ledger.headers, Key(s.calls[ev.call].req)).Some? {
        KeyStays(s.ledger, Next(s, ev).ledger, Key(s.calls[ev.call].req));
      }
    }
  }

  /** A guard met at the last step: the call was not stopped before, or by the same guard. */
  lemma StoppedNow(s: State, evs: seq<Event>, u: State, ev: Event, e: Error)
    requires Inv(u) && OnCourse(s, evs, u, ev.call) && ev.Run? && ev.ok && Enabled(u, ev)
    requires Guard(u.ledger, u.calls[ev.call]) == Some(e)
    ensures Doomed(Next(u, ev).calls[ev.call].pc, e)
  {
    if i: nat, x: Error :| StopsAt(s, evs, i, ev.call, x) {
      NotAConflict(s, evs, i, ev.call, x);
      DoomedStep(u, ev, x);
    } else {
      OwnStep(u, ev);
    }
  }

  lemma NotAConflict(s: State, evs: seq<Event>, i: nat, c: CallId, e: Error)
    requires StopsAt(s, evs, i, c, e)
    ensures e != IdempotencyConflict && e != StoreFailure
  {
    var u := Exec(s, evs[..i]).value;
    assert Guard(u.ledger, u.calls[c]) == Some(e);
  }

  /** The stops of a run and one more event of c: those before, and the guard met now. */
  lemma StopsOneMore(s: State, evs: seq<Event>, u: State, ev: Event)
    requires Reaches(s, evs, u) && ev.Run? && ev.call in u.calls
    ensures forall i: nat, e: Error :: StopsAt(s, evs + [ev], i, ev.call, e) <==>
              StopsAt(s, evs, i, ev.call, e) || (i == |evs| && Guard(u.ledger, u.calls[ev.call]) == Some(e))
  {
    var all, n, c := evs + [ev], |evs|, ev.call;
    assert all[..n] == evs;
    PrefixStops(s, all, n, c);
    forall i: nat, e: Error
      ensures StopsAt(s, all, i, c, e) <==>
                StopsAt(s, evs, i, c, e) || (i == n && Guard(u.ledger, u.calls[c]) == Some(e))
    {
      assert i < n ==> (StopsAt(s, evs, i, c, e) <==> StopsAt(s, all, i, c, e));
    }
  }

  lemma OwnGoing(s: State, evs: seq<Event>, u: State, ev: Event)
    requires Reaches(s, evs, u) && Inv(u) && OnCourse(s, evs, u, ev.call)
    requires ev.Run? && ev.ok && Enabled(u, ev) && NeverStopped(s, evs + [ev], ev.call)
    ensures Going(Next(u, ev).ledger, Next(u, ev).calls[ev.call])
  {
    StopsOneMore(s, evs, u, ev);
    forall i: nat, e: Error ensures !StopsAt(s, evs, i, ev.call, e) {
      assert !StopsAt(s, evs + [ev], i, ev.call, e);
    }
    forall e: Error ensures Guard(u.ledger, u.calls[ev.call]) != Some(e) {
      assert !StopsAt(s, evs + [ev], |evs|, ev.call, e);
    }
    OwnStep(u, ev);
  }

  lemma OwnDoomed(s: State, evs: seq<Event>, u: State, ev: Event, i: nat, e: Error)
    requires Reaches(s, evs, u) && Inv(u) && OnCourse(s, evs, u, ev.call)
    requires ev.Run? && ev.ok && Enabled(u, ev) && StopsAt(s, evs + [ev], i, ev.call, e)
    ensures Doomed(Next(u, ev).calls[ev.call].pc, e)
  {
    StopsOneMore(s, evs, u, ev);
    if StopsAt(s, evs, i, ev.call, e) {
      NotAConflict(s, evs, i, ev.call, e);
      DoomedStep(u, ev, e);
    } else {
      StoppedNow(s, evs, u, ev, e);
    }
  }

  lemma OwnCourse(s: State, evs: seq<Event>, u: State, ev: Event)
    requires Reaches(s, evs, u) && Inv(u) && OnCourse(s, evs, u, ev.call)
    requires ev.Run? && ev.ok && Enabled(u, ev)
    ensures OnCourse(s, evs + [ev], Next(u, ev), ev.call)
  {
    if NeverStopped(s, evs + [ev], ev.call) { OwnGoing(s, evs, u, ev); }
    forall i: nat, e: Error | StopsAt(s, evs + [ev], i, ev.call, e) ensures Doomed(Next(u, ev).calls[ev.call].pc, e) {
      OwnDoomed(s, evs, u, ev, i, e);
    }
  }

  lemma OthersCourse(s: State, evs: seq<Event>, u: State, ev: Event, c: CallId)
    requires Reaches(s, evs, u) && Inv(u) && OnCourse(s, evs, u, c) && ev.call != c && Enabled(u, ev)
    ensures OnCourse(s, evs + [ev], Next(u, ev), c)
  {
    var all, n := evs + [ev], |evs|;
    assert all[..n] == evs;
    PrefixStops(s, all, n, c);
    OthersStep(u, ev, c);
    forall i: nat, e: Error ensures StopsAt(s, all, i, c, e) <==> StopsAt(s, evs, i, c, e) {
      assert i < n ==> (StopsAt(s, evs, i, c, e) <==> StopsAt(s, all, i, c, e));
    }
  }

  lemma CourseStart(s: State, c: CallId)
    requires c in s.calls && Going(s.ledger, s.calls[c])
    ensures OnCourse(s, [], s, c)
  {
  }

  lemma NoFaultsPrefix(evs: seq<Event>, n: nat, c: CallId)
    requires NoFaults(evs, c) && n <= |evs|
    ensures NoFaults(evs[..n], c)
  {
  }

  lemma {:induction false} Course(s: State, evs: seq<Event>, t: State, c: CallId)
    requires Inv(s) && Reaches(s, evs, t) && NoFaults(evs, c)
    requires c in s.calls && Going(s.ledger, s.calls[c])
    ensures Inv(t) && OnCourse(s, evs, t, c)
  {
    if evs == [] {
      CourseStart(s, c);
    } else {
      var n := |evs| - 1;
      var u := Exec(s, evs[..n]).value;
      NoFaultsPrefix(evs, n, c);
      Course(s, evs[..n], u, c);
      CourseLast(s, evs, u, t, c);
    }
  }

  lemma CourseLast(s: State, evs: seq<Event>, u: State, t: State, c: CallId)
    requires evs != [] && Reaches(s, evs[..|evs| - 1], u) && Reaches(s, evs, t) && NoFaults(evs, c)
    requires Inv(u) && OnCourse(s, evs[..|evs| - 1], u, c)
    ensures Inv(t) && OnCourse(s, evs, t, c)
  {
    var n := |evs| - 1;
    assert evs == evs[..n] + [evs[n]];
    CourseStep(s, evs[..n], u, evs[n], c, evs);
  }

  lemma CourseStep(s: State, evs: seq<Event>, u: State, ev: Event, c: CallId, all: seq<Event>)
    requires all == evs + [ev]
    requires Reaches(s, evs, u) && Inv(u) && OnCourse(s, evs, u, c) && Enabled(u, ev)
    requires ev.Run? && ev.call == c ==> ev.ok
    ensures Inv(Next(u, ev)) && OnCourse(s, all, Next(u, ev), c)
  {
    InvStep(u, ev);
    if ev.call == c { OwnCourse(s, evs, u, ev); } else { OthersCourse(s, evs, u, ev, c); }
  }

  // ---------- Main results ----------

  /** A call past its replay lookup, whose store calls do not fail from there on, returns
      success if and only if no guard stops it, and then the one transaction committed under
      its key; otherwise it returns the error of the guard that stopped it. */
  lemma OutcomeExactly(pool: nat, evs: seq<Event>, s: State, c: CallId, more: seq<Event>, t: State)
    requires Reaches(Init(pool), evs, s) && c in s.calls && Underway(s.calls[c].pc)
    requires Reaches(s, more, t) && NoFaults(more, c) && c in t.calls && t.calls[c].pc.Returned?
    ensures var o := t.calls[c].pc.outcome;
            && (o.Ok? <==> NeverStopped(s, more, c))
            && (forall i: nat, e: Error :: StopsAt(s, more, i, c, e) ==> o == Err(e))
            && (o.Ok? ==> o.header in t.ledger.headers && o.header.key == Key(t.calls[c].req)
                          && o.legs == EntriesOf(t.ledger.entries, o.header.id))
  {
    InvRun(pool, evs, s);
    Course(s, more, t, c);
    assert CallOk(t, c);
    var o := t.calls[c].pc.outcome;
    if o.Ok? { RecordedUnique(t.ledger, o.header, o.legs); }
  }

  /** The race for a key, exactly.  Whoever commits h under the call's key, and whenever: the
      call returns h if and only if none of its guards stops it, that is, the original exists
      and is a transfer, both rows are there, the payer (for a deposit, EXTERNAL's column) can
      take the amount, the original is not reversed before.  Otherwise it returns that
      guard's error. */
  lemma LoserReplaysExactly(pool: nat, evs: seq<Event>, s: State, c: CallId, more: seq<Event>, t: State, h: Header)
    requires Reaches(Init(pool), evs, s) && c in s.calls && Underway(s.calls[c].pc)
    requires Reaches(s, more, t) && NoFaults(more, c) && c in t.calls && t.calls[c].pc.Returned?
    requires h in t.ledger.headers && h.key == Key(t.calls[c].req)
    ensures t.calls[c].pc.outcome == Ok(h, EntriesOf(t.ledger.entries, h.id)) <==> NeverStopped(s, more, c)
    ensures forall i: nat, e: Error :: StopsAt(s, more, i, c, e) ==> t.calls[c].pc.outcome == Err(e)
  {
    OutcomeExactly(pool, evs, s, c, more, t);
    InvRun(pool, evs, s);
    LedgerGrows(s, more, t);
    if t.calls[c].pc.outcome.Ok? { SameKeySameHeader(t.ledger, h, t.calls[c].pc.outcome.header); }
  }

  /** The store error of a failed replay lookup is ignored: a call none of whose other store
      calls fails never returns a store failure, and what it returns is decided by its guards
      alone.  A call whose key was committed already returns that transaction if and only if
      no guard stops it. */
  lemma FailedLookupIsIgnored(pool: nat, evs: seq<Event>, s: State, c: CallId, newId: TxId, more: seq<Event>, t: State)
    requires Reaches(Init(pool), evs, s) && c in s.calls
    requires s.calls[c].pc.ReplayHeader? || s.calls[c].pc.ReplayEntries?
    requires Enabled(s, Run(c, false, newId)) && Reaches(Next(s, Run(c, false, newId)), more, t)
    requires NoFaults(more, c) && c in t.calls && t.calls[c].pc.Returned?
    ensures var o, n := t.calls[c].pc.outcome, Next(s, Run(c, false, newId));
            && o != Err(StoreFailure)
            && (o.Ok? <==> NeverStopped(n, more, c))
            && (forall i: nat, e: Error :: StopsAt(n, more, i, c, e) ==> o == Err(e))
            && (forall h :: h in s.ledger.headers && h.key == Key(s.calls[c].req) ==>
                  (o == Ok(h, EntriesOf(t.ledger.entries, h.id)) <==> NeverStopped(n, more, c)))
  {
    var ev := Run(c, false, newId);
    var n, o := Next(s, ev), t.calls[c].pc.outcome;
    InvRun(pool, evs, s);
    ExecOneMore(Init(pool), evs, s, ev);
    LookupGoesOn(s, c, newId);
    OutcomeExactly(pool, evs + [ev], n, c, more, t);
    SameRequest(n, more, t, c);
    if !o.Ok? {
      var i: nat, e: Error :| StopsAt(n, more, i, c, e);
      NotAConflict(n, more, i, c, e);
    }
    forall h | h in s.ledger.headers && h.key == Key(s.calls[c].req)
      ensures o == Ok(h, EntriesOf(t.ledger.entries, h.id)) <==> NeverStopped(n, more, c)
    {
      InvStep(s, ev);
      LedgerStep(s, ev);
      LedgerGrows(n, more, t);
      LoserReplaysExactly(pool, evs + [ev], n, c, more, t, h);
    }
  }

  lemma LookupGoesOn(s: State, c: CallId, newId: TxId)
    requires Inv(s) && Enabled(s, Run(c, false, newId)) && (s.calls[c].pc.ReplayHeader? || s.calls[c].pc.ReplayEntries?)
    ensures var n := Next(s, Run(c, false, newId));
            c in n.calls && Underway(n.calls[c].pc) && n.calls[c].req == s.calls[c].req
  {
    assert CallOk(s, c);
  }

  lemma ExecOneMore(start: State, evs: seq<Event>, s: State, ev: Event)
    requires Reaches(start, evs, s) && Enabled(s, ev)
    ensures Reaches(start, evs + [ev], Next(s, ev))
  {
    assert (evs + [ev])[..|evs|] == evs;
  }

  lemma {:induction false} SameRequest(s: State, evs: seq<Event>, t: State, c: CallId)
    requires Reaches(s, evs, t) && c in s.calls
    ensures c in t.calls && t.calls[c].req == s.calls[c].req
  {
    if evs != [] { SameRequest(s, evs[..|evs| - 1], Exec(s, evs[..|evs| - 1]).value, c); }
  }

  // ---------- A second reversal ----------

  /** The payee of the original no longer holds the amount. */
  predicate PayeeShort(l: Ledger, original: TxId) {
    var o := ScanLegs(EntriesOf(l.entries, original));
    BalanceIn(l, o.dst) < o.amount
  }

  /** Event i is call c's funds check, and the original's payee is short then. */
  predicate ShortAt(s: State, evs: seq<Event>, i: nat, c: CallId, original: TxId) {
    && i < |evs| && evs[i].Run? && evs[i].call == c
    && Exec(s, evs[..i]).Some?
    && var u := Exec(s, evs[..i]).value;
       && c in u.calls && u.calls[c].pc.InTx? && u.calls[c].pc.stage == Check
       && PayeeShort(u.ledger, original)
  }

  lemma ReversedIsTransfer(l: Ledger, original: TxId, h: Header)
    requires HistoryOk(l) && Reversed(l.headers, original)
    ensures FindId(l.headers, original).Some?
    ensures h in l.headers && h.id == original ==> h.kind == Transfer
  {
    var g :| g in l.headers && g.reverses == Some(original);
    var i: nat :| i < |l.headers| && l.headers[i] == g;
    assert TxnOk(l, i);
    var j: nat :| Undoes(l, i, j);
    assert l.headers[j] in l.headers;
    if h in l.headers && h.id == original {
      var k: nat :| k < |l.headers| && l.headers[k] == h;
      assert k == j;
    }
  }

  lemma ReversalInTx(s: State, c: CallId, tx: Tx, stage: Stage)
    requires AtStage(s, c, tx, stage) && LedgerOk(s.ledger) && s.calls[c].req.ReverseReq?
    ensures var g := TxGuard(s.ledger, tx, stage);
            && (g.None? || g == Some(AlreadyReversed) || g == Some(InsufficientFunds))
            && (g == Some(InsufficientFunds) <==> stage == Check && BalanceIn(s.ledger, tx.move.debit) < tx.move.amount)
  {
    SettledSound(s.ledger, s.calls[c].req, tx.move);
    SoundFacts(s.ledger, tx.move);
    if stage.DebitUpdate? { UpdateStep(s, c, s.calls[c].req, tx); }
  }

  lemma ShortPayee(s: State, c: CallId, tx: Tx, stage: Stage)
    requires AtStage(s, c, tx, stage) && LedgerOk(s.ledger) && s.calls[c].req.ReverseReq?
    ensures PayeeShort(s.ledger, s.calls[c].req.original) <==> BalanceIn(s.ledger, tx.move.debit) < tx.move.amount
  {
    MirrorIsCurrent(s.ledger, tx.move, s.calls[c].req.original);
  }

  /** The guards a reversal of an already reversed transfer can meet. */
  lemma ReversalGuards(s: State, c: CallId)
    requires Inv(s) && c in s.calls && s.calls[c].req.ReverseReq? && Reversed(s.ledger.headers, s.calls[c].req.original)
    ensures var g, pc := Guard(s.ledger, s.calls[c]), s.calls[c].pc;
            && (g.None? || g == Some(AlreadyReversed) || g == Some(InsufficientFunds))
            && (g == Some(InsufficientFunds) <==>
                  pc.InTx? && pc.stage == Check && PayeeShort(s.ledger, s.calls[c].req.original))
  {
    var pc := s.calls[c].pc;
    assert CallOk(s, c);
    if pc.InTx? {
      AtItsStage(s, c);
      ReversalInTx(s, c, pc.tx, pc.stage);
      ShortPayee(s, c, pc.tx, pc.stage);
    } else {
      var found := if pc.FetchEntries? then pc.found else Header(0, Transfer, "", None);
      ReversedIsTransfer(s.ledger, s.calls[c].req.original, found);
    }
  }

  /** What its stops can be along a run. */
  lemma ReversalStops(s: State, evs: seq<Event>, c: CallId, i: nat, e: Error)
    requires Inv(s) && c in s.calls && s.calls[c].req.ReverseReq? && Reversed(s.ledger.headers, s.calls[c].req.original)
    requires StopsAt(s, evs, i, c, e)
    ensures e == AlreadyReversed || e == InsufficientFunds
    ensures e == InsufficientFunds <==> ShortAt(s, evs, i, c, s.calls[c].req.original)
  {
    var u := Exec(s, evs[..i]).value;
    LedgerGrows(s, evs[..i], u);
    SameRequest(s, evs[..i], u, c);
    StaysReversed(s.ledger, u.ledger, s.calls[c].req.original);
    ReversalGuards(u, c);
  }

  lemma ShortIsStop(s: State, evs: seq<Event>, c: CallId, i: nat)
    requires Inv(s) && c in s.calls && s.calls[c].req.ReverseReq? && Reversed(s.ledger.headers, s.calls[c].req.original)
    requires ShortAt(s, evs, i, c, s.calls[c].req.original)
    ensures StopsAt(s, evs, i, c, InsufficientFunds)
  {
    var u := Exec(s, evs[..i]).value;
    LedgerGrows(s, evs[..i], u);
    SameRequest(s, evs[..i], u, c);
    StaysReversed(s.ledger, u.ledger, s.calls[c].req.original);
    ReversalGuards(u, c);
  }

  lemma StaysReversed(l: Ledger, n: Ledger, original: TxId)
    requires Extends(l, n) && Reversed(l.headers, original)
    ensures Reversed(n.headers, original)
  {
    var h :| h in l.headers && h.reverses == Some(original);
    assert h in n.headers;
  }

  /** Reversing a transfer again, under a key nobody commits, is refused as already reversed
      if and only if the original's payee still holds the amount when it is checked; otherwise
      it is refused for insufficient funds. */
  lemma SecondReversal(pool: nat, evs: seq<Event>, s: State, c: CallId, more: seq<Event>, t: State)
    requires Reaches(Init(pool), evs, s) && c in s.calls && Underway(s.calls[c].pc)
    requires s.calls[c].req.ReverseReq? && Reversed(s.ledger.headers, s.calls[c].req.original)
    requires Reaches(s, more, t) && NoFaults(more, c) && c in t.calls && t.calls[c].pc.Returned?
    requires FindKey(t.ledger.headers, s.calls[c].req.key).None?
    ensures var o, short := t.calls[c].pc.outcome, exists i: nat :: ShortAt(s, more, i, c, s.calls[c].req.original);
            o == if short then Err(InsufficientFunds) else Err(AlreadyReversed)
  {
    OutcomeExactly(pool, evs, s, c, more, t);
    InvRun(pool, evs, s);
    SameRequest(s, more, t, c);
    var i: nat, e: Error :| StopsAt(s, more, i, c, e);
    ReversalStops(s, more, c, i, e);
    if k: nat :| ShortAt(s, more, k, c, s.calls[c].req.original) { ShortIsStop(s, more, c, k); }
  }
}
