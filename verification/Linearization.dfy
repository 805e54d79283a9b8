/** Every call, whether it commits, replays or is refused, returns what it would return if it
    ran alone at one moment between its arrival and its return; the one exception is a call
    that is overtaken on its key and stopped by a guard. */
module Linearization {
  import opened Base
  import opened Serial
  import opened LedgerInvariant
  import opened Protocol
  import opened Invariant
  import opened Steps
  import opened Serializability
  import opened Races

  /** The id an atomic call would have to be given to return this. */
  function IdOf(o: Outcome): TxId {
    match o
    case Ok(h, _) => h.id
    case Created(a) => a
    case Err(_) => 0
  }

  /** Request r, run alone on ledger l, returns o. */
  predicate Explains(l: Ledger, r: Request, o: Outcome) {
    Atomic(l, r, IdOf(o)).1 == o
  }

  /** What stops r on ledger l before it looks at its key. */
  function BeforeKey(l: Ledger, r: Request): Option<Error> {
    match r
    case TransferReq(_, _, _, _) => BalanceObstacle(l, Asked(r).value)
    case DepositReq(_, _, _) => BalanceObstacle(l, Asked(r).value)
    case ReverseReq(original, key) => (
      match FindId(l.headers, original)
      case None => Some(TransactionNotFound)
      case Some(h) =>
        if h.kind != Transfer then Some(NotReversible)
        else BalanceObstacle(l, ReversalMove(original, key, EntriesOf(l.entries, h.id))))
    case CreateReq => None
  }

  /** Request r is overtaken: its key is committed in l, yet l stops it before its key. */
  predicate Overtaken(l: Ledger, r: Request, o: Outcome) {
    && !r.CreateReq? && FindKey(l.headers, Key(r)).Some?
    && o.Err? && BeforeKey(l, r) == Some(o.error)
  }

  /** What a call will return, once that is certain. */
  function Verdict(pc: Pc): Option<Outcome> {
    match pc
    case InTx(tx, Locking(todo)) =>
      if Missing(tx.move, tx.read.Keys + set a | a in todo) then Some(Err(AccountNotFound)) else None
    case InTx(tx, Check) => if Missing(tx.move, tx.read.Keys) then Some(Err(AccountNotFound)) else None
    case InTx(tx, Rollback(e)) => if e != IdempotencyConflict then Some(Err(e)) else None
    case AuditFailure(e, _) => Some(Err(e))
    case AuditSuccess(tx) => if tx.header.Some? then Some(Ok(tx.header.value, tx.legs)) else None
    case Returned(o) => Some(o)
    case _ => None
  }

  /** The step from pc to next makes the outcome certain, and ledger l accounts for it. */
  predicate Settles(l: Ledger, r: Request, pc: Pc, next: Pc) {
    Verdict(pc).None? && Verdict(next).Some? ==>
      Explains(l, r, Verdict(next).value) || (Overtaken(l, r, Verdict(next).value) && Underway(pc))
  }

  // ---------- The deciding steps ----------

  lemma StoppedBeforeKey(l: Ledger, r: Request, e: Error)
    requires Validated(r) && BeforeKey(l, r) == Some(e)
    ensures Explains(l, r, Err(e)) || Overtaken(l, r, Err(e))
  {
  }

  lemma SettledBeforeKey(l: Ledger, r: Request, m: Move)
    requires LedgerOk(l) && Settled(l, r, m)
    ensures BeforeKey(l, r) == BalanceObstacle(l, m)
    ensures FindKey(l.headers, Key(r)).None? ==> forall id :: Atomic(l, r, id) == Post(l, m, id)
  {
    if r.ReverseReq? {
      MirrorIsCurrent(l, m, r.original);
      var h := FindId(l.headers, r.original).value;
      assert ReversalMove(r.original, r.key, EntriesOf(l.entries, h.id)) == m;
    }
  }

  lemma KeyHolder(l: Ledger, r: Request, h: Header)
    requires HistoryOk(l) && Validated(r) && h in l.headers && h.key == Key(r)
    ensures Explains(l, r, Ok(h, EntriesOf(l.entries, h.id)))
  {
    SameKeySameHeader(l, h, FindKey(l.headers, h.key).value);
  }

  lemma ScanSettles(s: State, c: CallId, tx: Tx)
    requires AtStage(s, c, tx, Scan) && LedgerOk(s.ledger)
    ensures Settles(s.ledger, s.calls[c].req, InTx(tx, Scan), TxStep(s.ledger, c, tx, Scan, true).pc)
  {
    var l, r, m := s.ledger, s.calls[c].req, tx.move;
    assert forall a :: a in Targets(m) <==> a == m.debit || a == m.credit;
    SettledBeforeKey(l, r, m);
    if m.debit !in l.accounts || m.credit !in l.accounts { StoppedBeforeKey(l, r, AccountNotFound); }
  }

  lemma LockSettles(l: Ledger, c: CallId, r: Request, tx: Tx, todo: seq<AccountId>)
    requires todo != [] && todo[0] in l.accounts
    ensures Settles(l, r, InTx(tx, Locking(todo)), TxStep(l, c, tx, Locking(todo), true).pc)
  {
    var read := tx.read[todo[0] := l.accounts[todo[0]].balance];
    assert forall a :: a in todo <==> a == todo[0] || a in todo[1..];
    assert read.Keys + (set a | a in todo[1..]) == tx.read.Keys + set a | a in todo;
    if todo[1..] == [] { assert read.Keys == tx.read.Keys + set a | a in todo; }
  }

  lemma CheckSettles(s: State, c: CallId, tx: Tx)
    requires AtStage(s, c, tx, Check) && LedgerOk(s.ledger)
    ensures Settles(s.ledger, s.calls[c].req, InTx(tx, Check), TxStep(s.ledger, c, tx, Check, true).pc)
  {
    var l, r, m := s.ledger, s.calls[c].req, tx.move;
    TwoKeys(tx.read, m.debit, m.credit);
    if !Missing(m, tx.read.Keys) && m.kind != Deposit && ReadOf(tx, m.debit) < m.amount { ShortSettles(s, c, tx); }
    CheckPc(l, c, r, tx);
  }

  lemma ShortSettles(s: State, c: CallId, tx: Tx)
    requires AtStage(s, c, tx, Check) && LedgerOk(s.ledger) && !Missing(tx.move, tx.read.Keys)
    requires tx.move.kind != Deposit && ReadOf(tx, tx.move.debit) < tx.move.amount
    ensures var l, r, o := s.ledger, s.calls[c].req, Err(InsufficientFunds); Explains(l, r, o) || Overtaken(l, r, o)
  {
    SettledBeforeKey(s.ledger, s.calls[c].req, tx.move);
    StoppedBeforeKey(s.ledger, s.calls[c].req, InsufficientFunds);
  }

  lemma CheckPc(l: Ledger, c: CallId, r: Request, tx: Tx)
    requires |tx.read| == 2 <==> !Missing(tx.move, tx.read.Keys)
    requires !Missing(tx.move, tx.read.Keys) && tx.move.kind != Deposit
             && ReadOf(tx, tx.move.debit) < tx.move.amount ==>
               Explains(l, r, Err(InsufficientFunds)) || Overtaken(l, r, Err(InsufficientFunds))
    ensures Settles(l, r, InTx(tx, Check), TxStep(l, c, tx, Check, true).pc)
  {
  }

  lemma DebitSettles(s: State, c: CallId, tx: Tx)
    requires AtStage(s, c, tx, DebitUpdate) && LedgerOk(s.ledger)
    ensures Settles(s.ledger, s.calls[c].req, InTx(tx, DebitUpdate), TxStep(s.ledger, c, tx, DebitUpdate, true).pc)
  {
    var l, r, m := s.ledger, s.calls[c].req, tx.move;
    UpdateStep(s, c, r, tx);
    if !Fits(ReadOf(tx, m.debit) - m.amount) {
      SettledBeforeKey(l, r, m);
      StoppedBeforeKey(l, r, NumericOverflow);
    }
  }

  lemma CreditSettles(s: State, c: CallId, tx: Tx)
    requires AtStage(s, c, tx, CreditUpdate) && LedgerOk(s.ledger)
    ensures Settles(s.ledger, s.calls[c].req, InTx(tx, CreditUpdate), TxStep(s.ledger, c, tx, CreditUpdate, true).pc)
  {
    CreditGoes(s, c, tx);
  }

  lemma ReversedExplains(l: Ledger, r: Request, m: Move)
    requires LedgerOk(l) && Settled(l, r, m) && FindKey(l.headers, Key(r)).None?
    requires BalanceObstacle(l, m).None? && m.reverses.Some? && Reversed(l.headers, m.reverses.value)
    ensures Explains(l, r, Err(AlreadyReversed))
  {
    SettledBeforeKey(l, r, m);
    assert Atomic(l, r, 0) == Post(l, m, 0);
  }

  /** Once both balances are written, nothing on the ledger stops the movement before its key. */
  lemma CreditedIsFree(s: State, c: CallId, r: Request, tx: Tx)
    requires LedgerOk(s.ledger) && TxOk(s, c, r, tx) && Credited(tx)
    ensures BalanceObstacle(s.ledger, tx.move).None?
  {
    UpdateStep(s, c, r, tx);
  }

  lemma ReversesSettles(s: State, c: CallId, tx: Tx)
    requires AtStage(s, c, tx, InsertReverses) && LedgerOk(s.ledger)
    ensures var next := TxStep(s.ledger, c, tx, InsertReverses, true).pc;
            Settles(s.ledger, s.calls[c].req, InTx(tx, InsertReverses), next)
  {
    var l, r, m := s.ledger, s.calls[c].req, tx.move;
    OriginalFound(l, r, m);
    SettledSound(l, r, m);
    CreditedIsFree(s, c, r, tx);
    if Reversed(l.headers, m.reverses.value) { ReversedExplains(l, r, m); }
    ReversesPc(l, c, r, tx);
  }

  lemma ReversesPc(l: Ledger, c: CallId, r: Request, tx: Tx)
    requires tx.move.reverses.Some? && FindId(l.headers, tx.move.reverses.value).Some?
    requires Reversed(l.headers, tx.move.reverses.value) ==> Explains(l, r, Err(AlreadyReversed))
    ensures Settles(l, r, InTx(tx, InsertReverses), TxStep(l, c, tx, InsertReverses, true).pc)
  {
  }

  lemma LegsSettles(s: State, c: CallId, tx: Tx)
    requires AtStage(s, c, tx, InsertLegs) && LedgerOk(s.ledger)
    ensures Settles(s.ledger, s.calls[c].req, InTx(tx, InsertLegs), TxStep(s.ledger, c, tx, InsertLegs, true).pc)
  {
    UpdateStep(s, c, s.calls[c].req, tx);
  }

  lemma CommitSettles(s: State, c: CallId, tx: Tx)
    requires Inv(s) && AtStage(s, c, tx, Commit)
    ensures Settles(s.ledger, s.calls[c].req, InTx(tx, Commit), TxStep(s.ledger, c, tx, Commit, true).pc)
  {
    CommitExplains(s, c, tx);
    CommitGoes(s, c, tx);
    assert TxStep(s.ledger, c, tx, Commit, true).pc == AuditSuccess(tx);
    SuccessSettles(s.ledger, s.calls[c].req, InTx(tx, Commit), tx);
  }

  lemma CommitExplains(s: State, c: CallId, tx: Tx)
    requires Inv(s) && AtStage(s, c, tx, Commit)
    ensures tx.header.Some? && Explains(s.ledger, s.calls[c].req, Ok(tx.header.value, tx.legs))
  {
    CommitIsAtomic(s, c, tx);
  }

  lemma SuccessSettles(l: Ledger, r: Request, pc: Pc, tx: Tx)
    requires tx.header.Some? && Explains(l, r, Ok(tx.header.value, tx.legs))
    ensures Settles(l, r, pc, AuditSuccess(tx))
  {
  }

  lemma RestSettles(l: Ledger, c: CallId, r: Request, tx: Tx, stage: Stage)
    requires stage.InsertKey? || stage == Rollback(IdempotencyConflict)
    ensures Settles(l, r, InTx(tx, stage), TxStep(l, c, tx, stage, true).pc)
  {
  }

  lemma TxSettles(s: State, c: CallId, tx: Tx, stage: Stage)
    requires Inv(s) && AtStage(s, c, tx, stage) && Verdict(InTx(tx, stage)).None?
    ensures Settles(s.ledger, s.calls[c].req, InTx(tx, stage), TxStep(s.ledger, c, tx, stage, true).pc)
  {
    match stage
    case Scan => ScanSettles(s, c, tx);
    case Locking(todo) => LockSettles(s.ledger, c, s.calls[c].req, tx, todo);
    case Check => CheckSettles(s, c, tx);
    case DebitUpdate => DebitSettles(s, c, tx);
    case CreditUpdate => CreditSettles(s, c, tx);
    case InsertReverses => ReversesSettles(s, c, tx);
    case InsertLegs => LegsSettles(s, c, tx);
    case Commit => CommitSettles(s, c, tx);
    case _ => RestSettles(s.ledger, c, s.calls[c].req, tx, stage);
  }

  /** Turned back by its key, whose holder is committed. */
  predicate Conflicted(l: Ledger, call: Call) {
    var turned := (call.pc.InTx? && call.pc.stage == Rollback(IdempotencyConflict)) || call.pc.RefetchHeader?;
    turned ==> FindKey(l.headers, Key(call.req)).Some?
  }

  lemma FetchSettles(s: State, c: CallId, newId: TxId)
    requires Inv(s) && c in s.calls && (s.calls[c].pc.FetchHeader? || s.calls[c].pc.FetchEntries?)
    ensures Settles(s.ledger, s.calls[c].req, s.calls[c].pc, Decide(s.ledger, c, s.calls[c], true, newId).pc)
  {
    var l, r, pc := s.ledger, s.calls[c].req, s.calls[c].pc;
    assert CallOk(s, c);
    if pc.FetchEntries? { SameKeySameHeader(l, pc.found, FindId(l.headers, pc.found.id).value); }
    if BeforeKey(l, r).Some? { StoppedBeforeKey(l, r, BeforeKey(l, r).value); }
  }

  lemma PlainSettles(s: State, c: CallId, newId: TxId)
    requires Inv(s) && c in s.calls && Conflicted(s.ledger, s.calls[c])
    requires !s.calls[c].pc.InTx? && Verdict(s.calls[c].pc).None?
    ensures Settles(s.ledger, s.calls[c].req, s.calls[c].pc, Decide(s.ledger, c, s.calls[c], true, newId).pc)
  {
    var l, r, pc := s.ledger, s.calls[c].req, s.calls[c].pc;
    assert CallOk(s, c);
    match pc
    case ReplayEntries(h) => KeyHolder(l, r, h);
    case RefetchEntries(_, h) => KeyHolder(l, r, h);
    case FetchHeader => FetchSettles(s, c, newId);
    case FetchEntries(_) => FetchSettles(s, c, newId);
    case _ =>
  }

  lemma OwnSettles(s: State, ev: Event)
    requires Inv(s) && ev.Run? && ev.ok && Enabled(s, ev)
    requires Conflicted(s.ledger, s.calls[ev.call]) && Verdict(s.calls[ev.call].pc).None?
    ensures Settles(s.ledger, s.calls[ev.call].req, s.calls[ev.call].pc, EffectOf(s, ev).pc)
  {
    var c, pc := ev.call, s.calls[ev.call].pc;
    if pc.InTx? {
      AtItsStage(s, c);
      TxSettles(s, c, pc.tx, pc.stage);
    } else {
      PlainSettles(s, c, ev.newId);
    }
  }

  lemma DoomedVerdict(pc: Pc, e: Error)
    requires e != IdempotencyConflict || !pc.InTx?
    ensures Verdict(pc) == Some(Err(e)) <==> Doomed(pc, e)
  {
  }

  lemma VerdictStays(s: State, ev: Event)
    requires Inv(s) && ev.Run? && ev.ok && Enabled(s, ev) && Verdict(s.calls[ev.call].pc).Some?
    ensures Verdict(EffectOf(s, ev).pc) == Verdict(s.calls[ev.call].pc)
  {
    var pc := s.calls[ev.call].pc;
    var o := Verdict(pc).value;
    if pc.InTx? {
      DoomedVerdict(pc, o.error);
      DoomedStep(s, ev, o.error);
      VerdictOfDoomed(EffectOf(s, ev).pc, o.error);
    }
  }

  lemma VerdictOfDoomed(pc: Pc, e: Error)
    requires Doomed(pc, e) && e != IdempotencyConflict
    ensures Verdict(pc) == Some(Err(e))
  {
  }

  // ---------- Whole runs ----------

  lemma ConflictedStep(s: State, ev: Event)
    requires Inv(s) && ev.Run? && Enabled(s, ev) && Conflicted(s.ledger, s.calls[ev.call])
    ensures Conflicted(s.ledger, Call(s.calls[ev.call].req, EffectOf(s, ev).pc))
  {
    var c, pc := ev.call, s.calls[ev.call].pc;
    if pc.InTx? {
      AtItsStage(s, c);
      ConflictedInTx(s, c, pc.tx, pc.stage, ev.ok);
    }
  }

  lemma ConflictedInTx(s: State, c: CallId, tx: Tx, stage: Stage, ok: bool)
    requires AtStage(s, c, tx, stage) && Conflicted(s.ledger, s.calls[c])
    ensures Conflicted(s.ledger, Call(s.calls[c].req, TxStep(s.ledger, c, tx, stage, ok).pc))
  {
    SettledSound(s.ledger, s.calls[c].req, tx.move);
    ConflictsArise(s.ledger, c, tx, stage, ok);
  }

  /** A call is turned back by its key only where it inserts it, or if it was before. */
  lemma ConflictsArise(l: Ledger, c: CallId, tx: Tx, stage: Stage, ok: bool)
    ensures var p := TxStep(l, c, tx, stage, ok).pc;
            (p.InTx? && p.stage == Rollback(IdempotencyConflict)) || p.RefetchHeader? ==>
              stage == Rollback(IdempotencyConflict) || FindKey(l.headers, tx.move.key).Some?
  {
  }

  lemma ConflictedKept(s: State, ev: Event, c: CallId)
    requires Inv(s) && Enabled(s, ev) && c in s.calls && Conflicted(s.ledger, s.calls[c])
    ensures Conflicted(Next(s, ev).ledger, Next(s, ev).calls[c])
  {
    LedgerStep(s, ev);
    if ev.call == c { ConflictedStep(s, ev); }
    if FindKey(s.ledger.headers, Key(s.calls[c].req)).Some? {
      KeyStays(s.ledger, Next(s, ev).ledger, Key(s.calls[c].req));
    }
  }

  lemma {:induction false} ConflictedRun(pool: nat, evs: seq<Event>, s: State, c: CallId)
    requires Reaches(Init(pool), evs, s) && c in s.calls
    ensures Conflicted(s.ledger, s.calls[c])
  {
    if evs != [] {
      var n := |evs| - 1;
      var u := Exec(Init(pool), evs[..n]).value;
      if c in u.calls {
        ConflictedRun(pool, evs[..n], u, c);
        InvRun(pool, evs[..n], u);
        ConflictedKept(u, evs[n], c);
      }
    }
  }

  /** State u is where the run stands after i events, and call c is under way there. */
  ghost predicate Moment(pool: nat, evs: seq<Event>, i: nat, u: State, c: CallId) {
    i <= |evs| && Reaches(Init(pool), evs[..i], u) && c in u.calls && !u.calls[c].pc.Returned?
  }

  lemma MomentOfPrefix(pool: nat, evs: seq<Event>, n: nat, i: nat, u: State, c: CallId)
    requires n <= |evs| && Moment(pool, evs[..n], i, u, c)
    ensures Moment(pool, evs, i, u, c)
  {
    assert evs[..n][..i] == evs[..i];
  }

  /** The step that made a call's outcome certain, and the ledger it was taken on. */
  lemma {:induction false} DecidingMoment(pool: nat, evs: seq<Event>, s: State, c: CallId) returns (i: nat, u: State)
    requires Reaches(Init(pool), evs, s) && c in s.calls && NoFaults(evs, c) && Verdict(s.calls[c].pc).Some?
    ensures Moment(pool, evs, i, u, c) && u.calls[c].req == s.calls[c].req && Verdict(u.calls[c].pc).None?
    ensures var r, o := s.calls[c].req, Verdict(s.calls[c].pc).value;
            Explains(u.ledger, r, o) || (Overtaken(u.ledger, r, o) && Underway(u.calls[c].pc))
  {
    var n := |evs| - 1;
    u := Exec(Init(pool), evs[..n]).value;
    var ev := evs[n];
    NoFaultsPrefix(evs, n, c);
    InvRun(pool, evs[..n], u);
    if ev.call != c {
      i, u := DecidingMoment(pool, evs[..n], u, c);
      MomentOfPrefix(pool, evs, n, i, u, c);
    } else if Verdict(u.calls[c].pc).Some? {
      VerdictStays(u, ev);
      i, u := DecidingMoment(pool, evs[..n], u, c);
      MomentOfPrefix(pool, evs, n, i, u, c);
    } else {
      ConflictedRun(pool, evs[..n], u, c);
      OwnSettles(u, ev);
      i := n;
    }
  }

  /** A call past its replay lookup made that lookup when nobody had committed its key. */
  lemma {:induction false} LookupMoment(pool: nat, evs: seq<Event>, s: State, c: CallId) returns (i: nat, u: State)
    requires Reaches(Init(pool), evs, s) && c in s.calls && NoFaults(evs, c) && Underway(s.calls[c].pc)
    ensures Moment(pool, evs, i, u, c) && FindKey(u.ledger.headers, Key(s.calls[c].req)).None?
  {
    var n := |evs| - 1;
    u := Exec(Init(pool), evs[..n]).value;
    var ev := evs[n];
    NoFaultsPrefix(evs, n, c);
    if c in u.calls && Underway(u.calls[c].pc) {
      i, u := LookupMoment(pool, evs[..n], u, c);
      MomentOfPrefix(pool, evs, n, i, u, c);
    } else {
      LookupStep(u, ev, c);
      i := n;
    }
  }

  lemma RollbackEnds(l: Ledger, c: CallId, tx: Tx, e: Error)
    ensures !Underway(TxStep(l, c, tx, Rollback(e), true).pc)
  {
  }

  lemma Entering(l: Ledger, c: CallId, call: Call, newId: TxId)
    requires !call.pc.Returned? && !call.pc.InTx? && !Underway(call.pc)
    ensures Underway(Decide(l, c, call, true, newId).pc) ==>
              call.pc.ReplayHeader? && FindKey(l.headers, Key(call.req)).None?
  {
  }

  lemma LookupStep(s: State, ev: Event, c: CallId)
    requires Enabled(s, ev) && (ev.Run? && ev.call == c ==> ev.ok)
    requires c in Next(s, ev).calls && Underway(Next(s, ev).calls[c].pc) && !(c in s.calls && Underway(s.calls[c].pc))
    ensures c in s.calls && s.calls[c].pc.ReplayHeader? && FindKey(s.ledger.headers, Key(s.calls[c].req)).None?
    ensures Next(s, ev).calls[c].req == s.calls[c].req
  {
    if ev.Run? && ev.call == c {
      var call := s.calls[c];
      if call.pc.InTx? { RollbackEnds(s.ledger, c, call.pc.tx, call.pc.stage.error); }
      else { Entering(s.ledger, c, call, ev.newId); }
    }
  }

  // ---------- Main result ----------

  /** Linearization: a call none of whose store calls failed returns what it returns when run
      alone on the ledger committed at some moment between its arrival and its return.  The
      one exception is a call overtaken on its key: when it looked its key up nobody had
      committed it, when a guard stopped it somebody had, and it returns that guard's error. */
  lemma Linearizes(pool: nat, evs: seq<Event>, s: State, c: CallId) returns (i: nat, u: State)
    requires Reaches(Init(pool), evs, s) && c in s.calls && s.calls[c].pc.Returned? && NoFaults(evs, c)
    ensures Moment(pool, evs, i, u, c) && Verdict(u.calls[c].pc).None?
    ensures var r, o := s.calls[c].req, s.calls[c].pc.outcome;
            || Explains(u.ledger, r, o)
            || (Overtaken(u.ledger, r, o)
                && exists j: nat, v: State ::
                     j <= i && Moment(pool, evs, j, v, c) && FindKey(v.ledger.headers, Key(r)).None?)
  {
    i, u := DecidingMoment(pool, evs, s, c);
    if !Explains(u.ledger, s.calls[c].req, s.calls[c].pc.outcome) {
      NoFaultsPrefix(evs, i, c);
      var j, v := LookupMoment(pool, evs[..i], u, c);
      MomentOfPrefix(pool, evs, i, j, v, c);
    }
  }
}
