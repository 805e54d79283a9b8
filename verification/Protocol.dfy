/** The service as a concurrent state machine.  Any number of calls are in flight; each
    advances by one store step at a time over the shared database, in any interleaving, and
    any store step may fail. */
module Protocol {
  import opened Base
  import opened Serial

  type CallId = nat

  // ---------- One call ----------

  /** An open database transaction: what it read under lock and what it has not yet
      committed.  hasKey and hasRev say which unique-index entries it has inserted. */
  datatype Tx = Tx(move: Move, id: TxId, read: map<AccountId, int>, writes: map<AccountId, int>,
                   header: Option<Header>, legs: seq<Entry>, hasKey: bool, hasRev: bool)

  /** Where a call is inside its transaction. */
  datatype Stage =
    | Scan                          // SELECT ... FOR UPDATE takes its snapshot
    | Locking(todo: seq<AccountId>) // rows still to lock, in order
    | Check                         // two rows? enough funds?
    | DebitUpdate | CreditUpdate    // the two UpdateBalance calls
    | InsertKey | InsertReverses    // the header row, one unique index at a time
    | InsertLegs
    | Commit
    | Rollback(error: Error)

  datatype Pc =
    | Validate
    | ReplayHeader | ReplayEntries(found: Header)
    | FetchHeader | FetchEntries(found: Header)
    | NewId(move: Move)
    | Begin(move: Move, id: TxId)
    | InTx(tx: Tx, stage: Stage)
    | RefetchHeader(move: Move) | RefetchEntries(move: Move, found: Header)
    | AuditFailure(error: Error, about: Option<Move>)
    | AuditSuccess(tx: Tx)
    | CreateRow
    | Returned(outcome: Outcome)

  datatype Call = Call(req: Request, pc: Pc)

  // ---------- Shared state ----------

  datatype AuditResult = Succeeded(id: TxId) | Failed(error: Error)

  /** `writer` is the call that wrote the row. */
  datatype AuditRow = AuditRow(writer: CallId, op: Kind, payer: Option<AccountId>, payee: Option<AccountId>,
                               amount: Option<int>, result: AuditResult)

  /** One committed call; the log is in commit order. */
  datatype LogEntry = LogEntry(call: CallId, req: Request, id: TxId)

  /** ledger and audit are the committed tables.  locks, keys and revs name the open
      transaction that holds a row lock or an uncommitted unique-index entry; conns are the
      calls holding a pooled connection across steps; ids says which call was given an id
      (None for the seed); log is the commit order. */
  datatype State = State(ledger: Ledger, audit: seq<AuditRow>, calls: map<CallId, Call>,
                         locks: map<AccountId, CallId>, keys: map<string, CallId>, revs: map<TxId, CallId>,
                         conns: set<CallId>, pool: nat, ids: map<TxId, Option<CallId>>, log: seq<LogEntry>)

  function Init(pool: nat): State {
    State(Seed(), [], map[], map[], map[], map[], {}, pool,
          map[0 := None, EXTERNAL := None, 2 := None, 3 := None, 4 := None,
              SEED_TX + 1 := None, SEED_TX + 2 := None, SEED_TX + 3 := None], [])
  }

  // ---------- What one step does ----------

  datatype Conn = Keep | Take | Release

  datatype Write = Nothing | PostTx(tx: Tx) | OpenAccount(account: AccountId)

  /** The effect of one step of one call.  Release gives back the connection together with
      every lock and unique-index entry, as COMMIT and ROLLBACK do. */
  datatype Effect = Effect(pc: Pc, lock: Option<AccountId>, key: Option<string>, rev: Option<TxId>,
                           conn: Conn, id: Option<TxId>, write: Write, audit: Option<AuditRow>)

  function Goto(pc: Pc): Effect {
    Effect(pc, None, None, None, Keep, None, Nothing, None)
  }

  /** The rows to lock, each once, in ascending id order. */
  function Targets(m: Move): seq<AccountId> {
    if m.debit == m.credit then [m.debit]
    else if m.debit < m.credit then [m.debit, m.credit]
    else [m.credit, m.debit]
  }

  /** The targets that exist in the snapshot of the locking query. */
  function Visible(l: Ledger, ids: seq<AccountId>): (r: seq<AccountId>)
    ensures forall a :: a in r <==> a in ids && a in l.accounts
    ensures |r| <= |ids|
  {
    if ids == [] then []
    else (if ids[0] in l.accounts then [ids[0]] else []) + Visible(l, ids[1..])
  }

  /** An account variable left at its zero value reads as balance 0. */
  function ReadOf(tx: Tx, a: AccountId): int {
    if a in tx.read then tx.read[a] else 0
  }

  function LockNext(todo: seq<AccountId>): Stage {
    if todo == [] then Check else Locking(todo)
  }

  function KindOf(r: Request): Option<Kind> {
    match r
    case TransferReq(_, _, _, _) => Some(Transfer)
    case ReverseReq(_, _) => Some(Reversal)
    case DepositReq(_, _, _) => Some(Deposit)
    case CreateReq => None
  }

  /** The movement a refused request would have made, for its audit row. */
  function Asked(r: Request): Option<Move> {
    match r
    case TransferReq(src, dst, amount, key) => Some(Move(Transfer, src, dst, amount, key, None))
    case DepositReq(dst, amount, key) => Some(Move(Deposit, EXTERNAL, dst, amount, key, None))
    case _ => None
  }

  /** Where a call goes once the replay lookup has found nothing. */
  function AfterReplay(r: Request): Pc {
    match Asked(r)
    case Some(m) => NewId(m)
    case None => FetchHeader
  }

  function Row(c: CallId, op: Kind, about: Option<Move>, result: AuditResult): AuditRow {
    match about
    case Some(m) => AuditRow(c, op, Some(m.debit), Some(m.credit), Some(m.amount), result)
    case None => AuditRow(c, op, None, None, None, result)
  }

  /** Only the service's operations are audited; opening an account is not one. */
  function Rows(c: CallId, op: Option<Kind>, about: Option<Move>, result: AuditResult): Option<AuditRow> {
    match op
    case Some(k) => Some(Row(c, k, about, result))
    case None => None
  }

  /** UPDATE accounts SET balance: the column type and the CHECK, then the pending write. */
  function Update(l: Ledger, tx: Tx, a: AccountId, balance: int, next: Stage): Pc {
    if !Fits(balance) then InTx(tx, Rollback(NumericOverflow))
    else if a in l.accounts && !Allowed(l.accounts[a], balance) then InTx(tx, Rollback(CheckViolation))
    else InTx(tx.(writes := tx.writes[a := balance]), next)
  }

  /** One step inside the transaction.  ok is false when the store call itself fails. */
  function TxStep(l: Ledger, c: CallId, tx: Tx, stage: Stage, ok: bool): Effect {
    var m := tx.move;
    if stage.Rollback? then
      Goto(if stage.error == IdempotencyConflict then RefetchHeader(m) else AuditFailure(stage.error, Some(m)))
        .(conn := Release)
    else if !ok then Goto(InTx(tx, Rollback(StoreFailure)))
    else
      match stage
      case Scan =>
        Goto(InTx(tx, LockNext(Visible(l, Targets(m)))))
      case Locking(todo) =>
        if todo == [] || todo[0] !in l.accounts then Goto(InTx(tx, Check))
        else
          Goto(InTx(tx.(read := tx.read[todo[0] := l.accounts[todo[0]].balance]), LockNext(todo[1..])))
            .(lock := Some(todo[0]))
      case Check =>
        if |tx.read| != 2 then Goto(InTx(tx, Rollback(AccountNotFound)))
        else if m.kind != Deposit && ReadOf(tx, m.debit) < m.amount then Goto(InTx(tx, Rollback(InsufficientFunds)))
        else Goto(InTx(tx, DebitUpdate))
      case DebitUpdate =>
        Goto(Update(l, tx, m.debit, ReadOf(tx, m.debit) - m.amount, CreditUpdate))
      case CreditUpdate =>
        Goto(Update(l, tx, m.credit, ReadOf(tx, m.credit) + m.amount, InsertKey))
      case InsertKey =>
        if FindKey(l.headers, m.key).Some? then Goto(InTx(tx, Rollback(IdempotencyConflict)))
        else if m.reverses.Some? then
          Goto(InTx(tx.(hasKey := true), InsertReverses)).(key := Some(m.key))
        else
          Goto(InTx(tx.(hasKey := true, header := Some(HeaderOf(m, tx.id))), InsertLegs)).(key := Some(m.key))
      case InsertReverses =>
        if m.reverses.None? then Goto(InTx(tx, InsertLegs))
        else if Reversed(l.headers, m.reverses.value) then Goto(InTx(tx, Rollback(AlreadyReversed)))
        else if FindId(l.headers, m.reverses.value).None? then Goto(InTx(tx, Rollback(ForeignKeyViolation)))
        else
          Goto(InTx(tx.(hasRev := true, header := Some(HeaderOf(m, tx.id))), InsertLegs))
            .(rev := Some(m.reverses.value))
      case InsertLegs =>
        if m.amount <= 0 then Goto(InTx(tx, Rollback(InvalidAmount)))
        else if !Fits(m.amount) then Goto(InTx(tx, Rollback(NumericOverflow)))
        else if m.debit !in l.accounts || m.credit !in l.accounts then Goto(InTx(tx, Rollback(ForeignKeyViolation)))
        else Goto(InTx(tx.(legs := LegsOf(m, tx.id)), Commit))
      case Commit =>
        if !TriggerAccepts(l.entries + tx.legs, tx.legs) then Goto(InTx(tx, Rollback(UnbalancedEntries)))
        else Goto(AuditSuccess(tx)).(conn := Release, write := PostTx(tx))
  }

  /** The deferred trigger: every inserted row's transaction must sum to zero. */
  predicate TriggerAccepts(table: seq<Entry>, inserted: seq<Entry>) {
    forall e :: e in inserted ==> Signed(EntriesOf(table, e.txId)) == 0
  }

  /** One step of call c.  It reads nothing but the committed ledger and the call itself;
      `newId` is the fresh id handed out by a step that needs one. */
  function Decide(l: Ledger, c: CallId, call: Call, ok: bool, newId: TxId): Effect
    requires !call.pc.Returned?
  {
    var r := call.req;
    match call.pc
    case Validate =>
      if r.CreateReq? then Goto(CreateRow)
      else if Refusal(r).Some? then Goto(AuditFailure(Refusal(r).value, Asked(r)))
      else Goto(ReplayHeader)
    case ReplayHeader =>
      var found := FindKey(l.headers, Key(r));
      if ok && found.Some? then Goto(ReplayEntries(found.value)) else Goto(AfterReplay(r))
    case ReplayEntries(h) =>
      if ok then Goto(Returned(Ok(h, EntriesOf(l.entries, h.id)))) else Goto(AfterReplay(r))
    case FetchHeader =>
      if !ok || !r.ReverseReq? then Goto(AuditFailure(StoreFailure, None))
      else
        var found := FindId(l.headers, r.original);
        if found.None? then Goto(AuditFailure(TransactionNotFound, None)) else Goto(FetchEntries(found.value))
    case FetchEntries(h) =>
      if !ok || !r.ReverseReq? then Goto(AuditFailure(StoreFailure, None))
      else if h.kind != Transfer then Goto(AuditFailure(NotReversible, None))
      else Goto(NewId(ReversalMove(r.original, r.key, EntriesOf(l.entries, h.id))))
    case NewId(m) =>
      Goto(Begin(m, newId)).(id := Some(newId))
    case Begin(m, id) =>
      if ok then Goto(InTx(Tx(m, id, map[], map[], None, [], false, false), Scan)).(conn := Take)
      else Goto(AuditFailure(StoreFailure, Some(m)))
    case InTx(tx, stage) =>
      TxStep(l, c, tx, stage, ok)
    case RefetchHeader(m) =>
      var found := FindKey(l.headers, Key(r));
      if ok && found.Some? then Goto(RefetchEntries(m, found.value))
      else Goto(AuditFailure(IdempotencyConflict, Some(m)))
    case RefetchEntries(m, h) =>
      if ok then Goto(Returned(Ok(h, EntriesOf(l.entries, h.id))))
      else Goto(AuditFailure(IdempotencyConflict, Some(m)))
    case AuditFailure(e, about) =>
      Goto(Returned(Err(e))).(audit := if ok then Rows(c, KindOf(r), about, Failed(e)) else None)
    case AuditSuccess(tx) =>
      if tx.header.None? then Goto(Returned(Err(StoreFailure)))
      else
        Goto(Returned(Ok(tx.header.value, tx.legs)))
          .(audit := if ok then Rows(c, KindOf(r), Some(tx.move), Succeeded(tx.id)) else None)
    case CreateRow =>
      if ok then Goto(Returned(Created(newId))).(id := Some(newId), write := OpenAccount(newId))
      else Goto(Returned(Err(StoreFailure)))
  }

  // ---------- Applying it ----------

  function Drop<K>(m: map<K, CallId>, c: CallId): map<K, CallId> {
    map k | k in m && m[k] != c :: m[k]
  }

  /** Rows or index entries held by open transactions, after call c's step. */
  function Held<K>(m: map<K, CallId>, c: CallId, conn: Conn, taken: Option<K>): map<K, CallId> {
    var m := if taken.Some? then m[taken.value := c] else m;
    if conn == Release then Drop(m, c) else m
  }

  function WriteAccounts(accounts: map<AccountId, Account>, writes: map<AccountId, int>): map<AccountId, Account> {
    map a | a in accounts ::
      if a in writes then accounts[a].(balance := writes[a]) else accounts[a]
  }

  function WriteLedger(l: Ledger, w: Write): Ledger {
    match w
    case Nothing => l
    case PostTx(tx) =>
      Ledger(WriteAccounts(l.accounts, tx.writes),
             l.headers + (if tx.header.Some? then [tx.header.value] else []),
             l.entries + tx.legs)
    case OpenAccount(a) => l.(accounts := l.accounts[a := Account(0, false)])
  }

  function WriteLog(log: seq<LogEntry>, c: CallId, r: Request, w: Write): seq<LogEntry> {
    match w
    case Nothing => log
    case PostTx(tx) => log + [LogEntry(c, r, tx.id)]
    case OpenAccount(a) => log + [LogEntry(c, r, a)]
  }

  function Apply(s: State, c: CallId, e: Effect): State
    requires c in s.calls
  {
    State(WriteLedger(s.ledger, e.write),
          s.audit + (if e.audit.Some? then [e.audit.value] else []),
          s.calls[c := Call(s.calls[c].req, e.pc)],
          Held(s.locks, c, e.conn, e.lock), Held(s.keys, c, e.conn, e.key), Held(s.revs, c, e.conn, e.rev),
          (match e.conn case Keep => s.conns case Take => s.conns + {c} case Release => s.conns - {c}),
          s.pool,
          (if e.id.Some? then s.ids[e.id.value := Some(c)] else s.ids),
          WriteLog(s.log, c, s.calls[c].req, e.write))
  }

  // ---------- Scheduling ----------

  /** Steps that run one query on a pooled connection of their own, or open a transaction. */
  predicate NeedsConnection(pc: Pc) {
    match pc
    case Validate => false
    case NewId(_) => false
    case InTx(_, _) => false
    case Returned(_) => false
    case _ => true
  }

  predicate NeedsId(pc: Pc) {
    pc.NewId? || pc.CreateRow?
  }

  /** The resource a call inside its transaction must wait for, if any. */
  datatype Wanted = NoWait | WantConn | WantRow(row: AccountId) | WantKey(key: string) | WantRev(original: TxId)

  function Wants(pc: Pc): Wanted {
    if NeedsConnection(pc) then WantConn
    else if pc.InTx? then
      match pc.stage
      case Locking(todo) => if todo == [] then NoWait else WantRow(todo[0])
      case InsertKey => WantKey(pc.tx.move.key)
      case InsertReverses => if pc.tx.move.reverses.Some? then WantRev(pc.tx.move.reverses.value) else NoWait
      case _ => NoWait
    else NoWait
  }

  predicate Available(s: State, w: Wanted) {
    match w
    case NoWait => true
    case WantConn => |s.conns| < s.pool
    case WantRow(a) => a !in s.locks
    case WantKey(k) => k !in s.keys
    case WantRev(t) => t !in s.revs
  }

  datatype Event = Arrive(call: CallId, req: Request) | Run(call: CallId, ok: bool, newId: TxId)

  /** A failing step needs no resource: a wait may be cancelled at any time. */
  predicate Enabled(s: State, ev: Event) {
    match ev
    case Arrive(c, _) => c !in s.calls
    case Run(c, ok, newId) =>
      && c in s.calls && !s.calls[c].pc.Returned?
      && (ok ==> Available(s, Wants(s.calls[c].pc)))
      && (NeedsId(s.calls[c].pc) ==> newId !in s.ids)
  }

  function Next(s: State, ev: Event): State
    requires Enabled(s, ev)
  {
    match ev
    case Arrive(c, r) => s.(calls := s.calls[c := Call(r, Validate)])
    case Run(c, ok, newId) => Apply(s, c, Decide(s.ledger, c, s.calls[c], ok, newId))
  }

  // ---------- Runs ----------

  /** The state after the events, or None when one of them was not enabled. */
  function Exec(s: State, evs: seq<Event>): Option<State> {
    if evs == [] then Some(s)
    else
      match Exec(s, evs[..|evs| - 1])
      case None => None
      case Some(t) => if Enabled(t, evs[|evs| - 1]) then Some(Next(t, evs[|evs| - 1])) else None
  }

  predicate Reaches(s: State, evs: seq<Event>, t: State) {
    Exec(s, evs) == Some(t)
  }

  /** Running two stretches of events is running their concatenation. */
  lemma {:induction false} ExecConcat(s: State, evs: seq<Event>, t: State, more: seq<Event>)
    requires Reaches(s, evs, t)
    ensures Exec(s, evs + more) == Exec(t, more)
  {
    if more == [] {
      assert evs + more == evs;
    } else {
      assert (evs + more)[..|evs + more| - 1] == evs + more[..|more| - 1];
      ExecConcat(s, evs, t, more[..|more| - 1]);
    }
  }

  /** A run passes through a state after every number of its events. */
  lemma {:induction false} PrefixReaches(start: State, evs: seq<Event>, s: State, m: nat) returns (u: State)
    requires Reaches(start, evs, s) && m <= |evs|
    ensures Reaches(start, evs[..m], u)
  {
    if m == |evs| {
      assert evs[..m] == evs;
      u := s;
    } else {
      var n := |evs| - 1;
      u := PrefixReaches(start, evs[..n], Exec(start, evs[..n]).value, m);
      assert evs[..n][..m] == evs[..m];
    }
  }
}
