/** Two concrete runs: the loser of a key race that does not replay, and a call whose replay
    lookup fails and that moves the money all the same.  Both send 6000.0000 from an account
    holding 10000.0000. */
module RaceWitness {
  import opened Base
  import opened Serial
  import opened Protocol
  import opened Invariant
  import opened Steps
  import opened Guarantees
  import opened Progress
  import opened Races

  const AMOUNT: int := 60_000_000

  function Ask(k: string): Request { TransferReq(2, 3, AMOUNT, k) }

  function Sent(k: string): Move { Move(Transfer, 2, 3, AMOUNT, k, None) }

  /** What is known of a state in which only call `who` is moving: its key and program
      counter, the tables, and where the other calls stand. */
  datatype View = View(who: CallId, k: string, pc: Pc, l: Ledger, log: seq<LogEntry>, audit: seq<AuditRow>,
                       rest: map<CallId, Call>)

  function RowsOf(pc: Pc): set<AccountId> { if pc.InTx? then pc.tx.read.Keys else {} }

  predicate KeyOf(pc: Pc) { pc.InTx? && pc.tx.hasKey }

  predicate Tables(s: State, v: View) {
    && s.ledger == v.l && s.log == v.log && s.audit == v.audit && s.pool >= 1
    && v.who !in v.rest && s.calls == v.rest[v.who := Call(Ask(v.k), v.pc)]
  }

  /** Only `who` may hold anything, and it holds what its program counter says. */
  predicate Holds(s: State, who: CallId, k: string, pc: Pc) {
    && s.conns == (if pc.InTx? then {who} else {})
    && s.locks.Keys == RowsOf(pc) && s.keys.Keys == (if KeyOf(pc) then {k} else {})
    && (forall a :: a in s.locks ==> s.locks[a] == who)
    && (forall x :: x in s.keys ==> s.keys[x] == who)
  }

  predicate Scene(s: State, v: View) {
    Tables(s, v) && Holds(s, v.who, v.k, v.pc)
  }

  // ---------- One step ----------

  /** Nothing that `who` holds itself stands in its way. */
  predicate CanStep(l: Ledger, k: string, pc: Pc) {
    && !pc.Returned? && !pc.CreateRow?
    && (pc.InTx? ==>
          && pc.tx.move == Sent(k)
          && match pc.stage
             case Locking(todo) => todo != [] && todo[0] !in pc.tx.read && todo[0] in l.accounts
             case InsertKey => !pc.tx.hasKey
             case InsertReverses => false
             case _ => true)
    && (pc.Begin? ==> pc.move == Sent(k))
  }

  /** What the effect takes and gives back is what the new program counter says is held. */
  predicate Tidy(k: string, pc: Pc, e: Effect) {
    && (e.conn == Release <==> pc.InTx? && !e.pc.InTx?)
    && (e.conn == Take <==> !pc.InTx? && e.pc.InTx?)
    && (e.lock.Some? || e.key.Some? ==> pc.InTx? && e.pc.InTx?)
    && (e.pc.InTx? ==> RowsOf(e.pc) == RowsOf(pc) + (if e.lock.Some? then {e.lock.value} else {}))
    && (e.pc.InTx? ==> (KeyOf(e.pc) <==> KeyOf(pc) || e.key.Some?))
    && (e.key.Some? ==> e.key.value == k)
  }

  lemma LockTidy(l: Ledger, c: CallId, k: string, tx: Tx, todo: seq<AccountId>)
    requires CanStep(l, k, InTx(tx, Locking(todo)))
    ensures Tidy(k, InTx(tx, Locking(todo)), TxStep(l, c, tx, Locking(todo), true))
  {
  }

  lemma InsertTidy(l: Ledger, c: CallId, k: string, tx: Tx, stage: Stage)
    requires CanStep(l, k, InTx(tx, stage)) && (stage.InsertKey? || stage.InsertLegs?)
    ensures Tidy(k, InTx(tx, stage), TxStep(l, c, tx, stage, true))
  {
  }

  lemma UpdateTidy(l: Ledger, c: CallId, k: string, tx: Tx, stage: Stage)
    requires CanStep(l, k, InTx(tx, stage)) && (stage.DebitUpdate? || stage.CreditUpdate?)
    ensures Tidy(k, InTx(tx, stage), TxStep(l, c, tx, stage, true))
  {
  }

  lemma EndTidy(l: Ledger, c: CallId, k: string, tx: Tx, stage: Stage)
    requires CanStep(l, k, InTx(tx, stage)) && (stage.Commit? || stage.Rollback?)
    ensures Tidy(k, InTx(tx, stage), TxStep(l, c, tx, stage, true))
  {
  }

  lemma GotoTidy(k: string, tx: Tx, stage: Stage, next: Stage)
    ensures Tidy(k, InTx(tx, stage), Goto(InTx(tx, next)))
  {
  }

  lemma ReadTidy(l: Ledger, c: CallId, k: string, tx: Tx, stage: Stage)
    requires CanStep(l, k, InTx(tx, stage)) && (stage.Scan? || stage.Check?)
    ensures Tidy(k, InTx(tx, stage), TxStep(l, c, tx, stage, true))
  {
    var next := if stage.Scan? then LockNext(Visible(l, Targets(tx.move))) else TxStep(l, c, tx, stage, true).pc.stage;
    assert TxStep(l, c, tx, stage, true) == Goto(InTx(tx, next));
    GotoTidy(k, tx, stage, next);
  }

  lemma TxTidy(l: Ledger, c: CallId, k: string, tx: Tx, stage: Stage)
    requires CanStep(l, k, InTx(tx, stage))
    ensures Tidy(k, InTx(tx, stage), TxStep(l, c, tx, stage, true))
  {
    match stage
    case Locking(todo) => LockTidy(l, c, k, tx, todo);
    case InsertKey => InsertTidy(l, c, k, tx, stage);
    case InsertLegs => InsertTidy(l, c, k, tx, stage);
    case DebitUpdate => UpdateTidy(l, c, k, tx, stage);
    case CreditUpdate => UpdateTidy(l, c, k, tx, stage);
    case Scan => ReadTidy(l, c, k, tx, stage);
    case Check => ReadTidy(l, c, k, tx, stage);
    case _ => EndTidy(l, c, k, tx, stage);
  }

  lemma DecideTidy(l: Ledger, c: CallId, k: string, pc: Pc, newId: TxId)
    requires CanStep(l, k, pc)
    ensures Tidy(k, pc, Decide(l, c, Call(Ask(k), pc), true, newId))
  {
    if pc.InTx? { TxTidy(l, c, k, pc.tx, pc.stage); }
  }

  lemma HeldByOne<K>(m: map<K, CallId>, who: CallId, conn: Conn, taken: Option<K>)
    requires forall x :: x in m ==> m[x] == who
    ensures var n := Held(m, who, conn, taken);
            && n.Keys == (if conn == Release then {} else if taken.Some? then m.Keys + {taken.value} else m.Keys)
            && forall x :: x in n ==> n[x] == who
  {
  }

  lemma ApplyHolds(s: State, who: CallId, k: string, pc: Pc, e: Effect)
    requires who in s.calls && Holds(s, who, k, pc) && Tidy(k, pc, e)
    ensures Holds(Apply(s, who, e), who, k, e.pc)
  {
    HeldByOne(s.locks, who, e.conn, e.lock);
    HeldByOne(s.keys, who, e.conn, e.key);
  }

  function Advance(v: View, e: Effect): View {
    v.(pc := e.pc, l := WriteLedger(v.l, e.write), log := WriteLog(v.log, v.who, Ask(v.k), e.write),
       audit := v.audit + if e.audit.Some? then [e.audit.value] else [])
  }

  lemma ApplyTables(s: State, v: View, e: Effect)
    requires Tables(s, v)
    ensures v.who in s.calls && Tables(Apply(s, v.who, e), Advance(v, e))
  {
  }

  /** The next step of `who`, when it succeeds, leads from v to w. */
  predicate Leads(v: View, newId: TxId, w: View) {
    CanStep(v.l, v.k, v.pc) && w == Advance(v, Decide(v.l, v.who, Call(Ask(v.k), v.pc), true, newId))
  }

  lemma SceneStep(s: State, v: View, newId: TxId, w: View)
    requires Scene(s, v) && Leads(v, newId, w) && (NeedsId(v.pc) ==> newId !in s.ids)
    ensures Enabled(s, Run(v.who, true, newId)) && Scene(Next(s, Run(v.who, true, newId)), w)
  {
    var e := Decide(v.l, v.who, Call(Ask(v.k), v.pc), true, newId);
    DecideTidy(v.l, v.who, v.k, v.pc, newId);
    ApplyTables(s, v, e);
    ApplyHolds(s, v.who, v.k, v.pc, e);
    SceneEnabled(s, v, newId);
  }

  lemma SceneEnabled(s: State, v: View, newId: TxId)
    requires Scene(s, v) && CanStep(v.l, v.k, v.pc) && (NeedsId(v.pc) ==> newId !in s.ids)
    ensures Enabled(s, Run(v.who, true, newId))
  {
  }

  // ---------- Runs ----------

  /** The events, none of them a failure, lead from start to s, which looks like v. */
  predicate Got(start: State, evs: seq<Event>, s: State, v: View) {
    Reaches(start, evs, s) && AllOk(evs) && Scene(s, v)
  }

  lemma Step(start: State, evs: seq<Event>, s: State, v: View, newId: TxId, w: View)
    returns (more: seq<Event>, t: State)
    requires Got(start, evs, s, v) && Leads(v, newId, w) && (NeedsId(v.pc) ==> newId !in s.ids)
    ensures Got(start, more, t, w)
  {
    SceneStep(s, v, newId, w);
    more, t := evs + [Run(v.who, true, newId)], Next(s, Run(v.who, true, newId));
    ExecOneMore(start, evs, s, Run(v.who, true, newId));
  }

  /** The turn passes between two calls that hold nothing. */
  lemma Turn(start: State, evs: seq<Event>, s: State, v: View, w: View)
    requires Got(start, evs, s, v) && !v.pc.InTx? && !w.pc.InTx? && v.who != w.who && v.k == w.k
    requires v.rest == map[w.who := Call(Ask(w.k), w.pc)] && w.rest == map[v.who := Call(Ask(v.k), v.pc)]
    requires v.l == w.l && v.log == w.log && v.audit == w.audit
    ensures Got(start, evs, s, w)
  {
    assert s.calls == w.rest[w.who := Call(Ask(w.k), w.pc)];
  }

  // ---------- Before the transaction ----------

  lemma LookupLeads(v: View)
    requires v.pc == Validate && FindKey(v.l.headers, v.k).None?
    ensures Leads(v, 0, v.(pc := ReplayHeader)) && Leads(v.(pc := ReplayHeader), 0, v.(pc := NewId(Sent(v.k))))
  {
    assert v.audit + [] == v.audit;
  }

  lemma IdLeads(v: View, id: TxId)
    requires v.pc == NewId(Sent(v.k))
    ensures Leads(v, id, v.(pc := Begin(Sent(v.k), id)))
    ensures Leads(v.(pc := Begin(Sent(v.k), id)), 0, v.(pc := InTx(Opened(v.k, id, map[]), Scan)))
  {
    assert v.audit + [] == v.audit;
  }

  lemma TakeId(start: State, evs: seq<Event>, s: State, v: View) returns (more: seq<Event>, t: State, id: TxId)
    requires Got(start, evs, s, v) && v.pc == NewId(Sent(v.k))
    ensures Got(start, more, t, v.(pc := Begin(Sent(v.k), id)))
  {
    id := UnusedId(s.ids.Keys);
    IdLeads(v, id);
    more, t := Step(start, evs, s, v, id, v.(pc := Begin(Sent(v.k), id)));
  }

  /** Validation, a replay lookup that finds nothing, and an id. */
  lemma ToBegin(start: State, evs: seq<Event>, s: State, v: View) returns (more: seq<Event>, t: State, id: TxId)
    requires Got(start, evs, s, v) && v.pc == Validate && FindKey(v.l.headers, v.k).None?
    ensures Got(start, more, t, v.(pc := Begin(Sent(v.k), id)))
  {
    LookupLeads(v);
    more, t := Step(start, evs, s, v, 0, v.(pc := ReplayHeader));
    more, t := Step(start, more, t, v.(pc := ReplayHeader), 0, v.(pc := NewId(Sent(v.k))));
    more, t, id := TakeId(start, more, t, v.(pc := NewId(Sent(v.k))));
  }

  // ---------- Inside the transaction ----------

  function Opened(k: string, id: TxId, read: map<AccountId, int>): Tx {
    Tx(Sent(k), id, read, map[], None, [], false, false)
  }

  /** Both accounts exist, the payer can pay and the payee's column has room. */
  predicate CanPay(l: Ledger) {
    && 2 in l.accounts && 3 in l.accounts
    && AMOUNT <= l.accounts[2].balance < LIMIT && 0 <= l.accounts[3].balance < LIMIT - AMOUNT
  }

  function Read(l: Ledger): map<AccountId, int>
    requires 2 in l.accounts && 3 in l.accounts
  {
    map[2 := l.accounts[2].balance, 3 := l.accounts[3].balance]
  }

  function Taken(l: Ledger, k: string, id: TxId): Tx
    requires CanPay(l)
  {
    Opened(k, id, Read(l)).(writes := map[2 := l.accounts[2].balance - AMOUNT])
  }

  function Moved(l: Ledger, k: string, id: TxId): Tx
    requires CanPay(l)
  {
    Opened(k, id, Read(l))
      .(writes := map[2 := l.accounts[2].balance - AMOUNT, 3 := l.accounts[3].balance + AMOUNT])
  }

  function Written(l: Ledger, k: string, id: TxId): Tx
    requires CanPay(l)
  {
    Moved(l, k, id).(header := Some(HeaderOf(Sent(k), id)), legs := LegsOf(Sent(k), id), hasKey := true)
  }

  /** The step from this stage leads to the next one without writing anything. */
  predicate TxLeads(l: Ledger, c: CallId, tx: Tx, stage: Stage, next: Pc) {
    var e := TxStep(l, c, tx, stage, true);
    e.pc == next && e.write == Nothing && e.audit == None
  }

  lemma TxLeadsOn(v: View, tx: Tx, stage: Stage, next: Pc)
    requires v.pc == InTx(tx, stage) && CanStep(v.l, v.k, v.pc) && TxLeads(v.l, v.who, tx, stage, next)
    ensures Leads(v, 0, v.(pc := next))
  {
    assert v.audit + [] == v.audit;
  }

  lemma Go(start: State, evs: seq<Event>, s: State, v: View, tx: Tx, stage: Stage, next: Pc)
    returns (more: seq<Event>, t: State)
    requires Got(start, evs, s, v) && v.pc == InTx(tx, stage)
    requires CanStep(v.l, v.k, v.pc) && TxLeads(v.l, v.who, tx, stage, next)
    ensures Got(start, more, t, v.(pc := next))
  {
    TxLeadsOn(v, tx, stage, next);
    more, t := Step(start, evs, s, v, 0, v.(pc := next));
  }

  lemma LockLeads(l: Ledger, c: CallId, tx: Tx, a: AccountId, rest: seq<AccountId>)
    requires a in l.accounts
    ensures TxLeads(l, c, tx, Locking([a] + rest),
                    InTx(tx.(read := tx.read[a := l.accounts[a].balance]), LockNext(rest)))
  {
    assert ([a] + rest)[1..] == rest;
  }

  /** The snapshot and both row locks, at the balances committed by then. */
  lemma LocksLead(l: Ledger, c: CallId, k: string, id: TxId)
    requires 2 in l.accounts && 3 in l.accounts
    ensures var one := Opened(k, id, map[2 := l.accounts[2].balance]);
            && TxLeads(l, c, Opened(k, id, map[]), Scan, InTx(Opened(k, id, map[]), Locking([2, 3])))
            && TxLeads(l, c, Opened(k, id, map[]), Locking([2, 3]), InTx(one, Locking([3])))
            && TxLeads(l, c, one, Locking([3]), InTx(Opened(k, id, Read(l)), Check))
  {
    VisibleTwo(l, 2, 3);
    var tx := Opened(k, id, map[]);
    LockLeads(l, c, tx, 2, [3]);
    assert tx.read[2 := l.accounts[2].balance] == map[2 := l.accounts[2].balance];
    LockLeads(l, c, Opened(k, id, map[2 := l.accounts[2].balance]), 3, []);
    assert Read(l) == map[2 := l.accounts[2].balance][3 := l.accounts[3].balance];
  }

  lemma CheckLeads(l: Ledger, c: CallId, k: string, tx: Tx)
    requires tx.move == Sent(k) && |tx.read| == 2
    ensures TxLeads(l, c, tx, Check,
                    InTx(tx, if ReadOf(tx, 2) < AMOUNT then Rollback(InsufficientFunds) else DebitUpdate))
  {
  }

  lemma DebitLeads(l: Ledger, c: CallId, k: string, tx: Tx)
    requires tx.move == Sent(k) && AMOUNT <= ReadOf(tx, 2) < LIMIT
    ensures TxLeads(l, c, tx, DebitUpdate, InTx(tx.(writes := tx.writes[2 := ReadOf(tx, 2) - AMOUNT]), CreditUpdate))
  {
  }

  lemma CreditLeads(l: Ledger, c: CallId, k: string, tx: Tx)
    requires tx.move == Sent(k) && 0 <= ReadOf(tx, 3) < LIMIT - AMOUNT
    ensures TxLeads(l, c, tx, CreditUpdate, InTx(tx.(writes := tx.writes[3 := ReadOf(tx, 3) + AMOUNT]), InsertKey))
  {
  }

  lemma MovesLead(l: Ledger, c: CallId, k: string, id: TxId)
    requires CanPay(l)
    ensures TxLeads(l, c, Opened(k, id, Read(l)), DebitUpdate, InTx(Taken(l, k, id), CreditUpdate))
    ensures TxLeads(l, c, Taken(l, k, id), CreditUpdate, InTx(Moved(l, k, id), InsertKey))
  {
    var tx, half := Opened(k, id, Read(l)), Taken(l, k, id);
    DebitLeads(l, c, k, tx);
    assert half.writes == tx.writes[2 := ReadOf(tx, 2) - AMOUNT];
    CreditLeads(l, c, k, half);
    assert Moved(l, k, id).writes == half.writes[3 := ReadOf(half, 3) + AMOUNT];
  }

  lemma KeyLeads(l: Ledger, c: CallId, k: string, tx: Tx)
    requires tx.move == Sent(k) && FindKey(l.headers, k).None?
    ensures TxLeads(l, c, tx, InsertKey,
                    InTx(tx.(hasKey := true, header := Some(HeaderOf(Sent(k), tx.id))), InsertLegs))
  {
  }

  lemma LegsLeads(l: Ledger, c: CallId, k: string, tx: Tx)
    requires tx.move == Sent(k) && 2 in l.accounts && 3 in l.accounts
    ensures TxLeads(l, c, tx, InsertLegs, InTx(tx.(legs := LegsOf(Sent(k), tx.id)), Commit))
  {
  }

  lemma RollbackLeads(l: Ledger, c: CallId, k: string, tx: Tx, e: Error)
    requires tx.move == Sent(k) && e != IdempotencyConflict
    ensures TxLeads(l, c, tx, Rollback(e), AuditFailure(e, Some(Sent(k))))
  {
  }

  /** BEGIN and both row locks. */
  lemma ToCheck(start: State, evs: seq<Event>, s: State, v: View, id: TxId) returns (more: seq<Event>, t: State)
    requires Got(start, evs, s, v) && v.pc == Begin(Sent(v.k), id) && 2 in v.l.accounts && 3 in v.l.accounts
    ensures Got(start, more, t, v.(pc := InTx(Opened(v.k, id, Read(v.l)), Check)))
  {
    var none, one := Opened(v.k, id, map[]), Opened(v.k, id, map[2 := v.l.accounts[2].balance]);
    IdLeads(v.(pc := NewId(Sent(v.k))), id);
    LocksLead(v.l, v.who, v.k, id);
    more, t := Step(start, evs, s, v, 0, v.(pc := InTx(none, Scan)));
    more, t := Go(start, more, t, v.(pc := InTx(none, Scan)), none, Scan, InTx(none, Locking([2, 3])));
    more, t := Go(start, more, t, v.(pc := InTx(none, Locking([2, 3]))), none, Locking([2, 3]),
                  InTx(one, Locking([3])));
    more, t := Go(start, more, t, v.(pc := InTx(one, Locking([3]))), one, Locking([3]),
                  InTx(Opened(v.k, id, Read(v.l)), Check));
  }

  /** The funds check and both balance updates. */
  lemma ToInsert(start: State, evs: seq<Event>, s: State, v: View, id: TxId) returns (more: seq<Event>, t: State)
    requires CanPay(v.l) && Got(start, evs, s, v) && v.pc == InTx(Opened(v.k, id, Read(v.l)), Check)
    ensures Got(start, more, t, v.(pc := InTx(Moved(v.l, v.k, id), InsertKey)))
  {
    var tx, half := Opened(v.k, id, Read(v.l)), Taken(v.l, v.k, id);
    CheckLeads(v.l, v.who, v.k, tx);
    MovesLead(v.l, v.who, v.k, id);
    more, t := Go(start, evs, s, v, tx, Check, InTx(tx, DebitUpdate));
    more, t := Go(start, more, t, v.(pc := InTx(tx, DebitUpdate)), tx, DebitUpdate, InTx(half, CreditUpdate));
    more, t := Go(start, more, t, v.(pc := InTx(half, CreditUpdate)), half, CreditUpdate,
                  InTx(Moved(v.l, v.k, id), InsertKey));
  }

  /** The header under a key nobody holds, and the two legs. */
  lemma ToCommit(start: State, evs: seq<Event>, s: State, v: View, id: TxId) returns (more: seq<Event>, t: State)
    requires CanPay(v.l) && Got(start, evs, s, v) && v.pc == InTx(Moved(v.l, v.k, id), InsertKey)
    requires FindKey(v.l.headers, v.k).None?
    ensures Got(start, more, t, v.(pc := InTx(Written(v.l, v.k, id), Commit)))
  {
    var tx := Moved(v.l, v.k, id);
    var keyed := tx.(hasKey := true, header := Some(HeaderOf(Sent(v.k), id)));
    KeyLeads(v.l, v.who, v.k, tx);
    LegsLeads(v.l, v.who, v.k, keyed);
    more, t := Go(start, evs, s, v, tx, InsertKey, InTx(keyed, InsertLegs));
    more, t := Go(start, more, t, v.(pc := InTx(keyed, InsertLegs)), keyed, InsertLegs,
                  InTx(Written(v.l, v.k, id), Commit));
  }

  lemma StageLegs(s: State, c: CallId, tx: Tx)
    requires AtStage(s, c, tx, Commit)
    ensures tx.legs == LegsOf(tx.move, tx.id) && FindId(s.ledger.headers, tx.id).None?
  {
  }

  lemma CommitAccepted(s: State, who: CallId, tx: Tx)
    requires Inv(s) && who in s.calls && s.calls[who].pc == InTx(tx, Commit)
    ensures TriggerAccepts(s.ledger.entries + tx.legs, tx.legs)
  {
    AtItsStage(s, who);
    StageLegs(s, who, tx);
    LegsBalanced(s.ledger, tx.move, tx.id);
  }

  lemma CommitTaken(start: State, evs: seq<Event>, s: State, who: CallId, tx: Tx)
    requires Inv(start) && Reaches(start, evs, s) && who in s.calls && s.calls[who].pc == InTx(tx, Commit)
    ensures TriggerAccepts(s.ledger.entries + tx.legs, tx.legs)
  {
    LedgerGrows(start, evs, s);
    CommitAccepted(s, who, tx);
  }

  /** The tables once `who` has committed tx. */
  function Won(v: View, tx: Tx): View {
    v.(pc := AuditSuccess(tx), l := WriteLedger(v.l, PostTx(tx)), log := v.log + [LogEntry(v.who, Ask(v.k), tx.id)])
  }

  lemma CommitLeads(v: View, tx: Tx)
    requires v.pc == InTx(tx, Commit) && tx.move == Sent(v.k) && TriggerAccepts(v.l.entries + tx.legs, tx.legs)
    ensures Leads(v, 0, Won(v, tx))
  {
    assert v.audit + [] == v.audit;
  }

  lemma GoCommit(start: State, evs: seq<Event>, s: State, v: View, tx: Tx) returns (more: seq<Event>, t: State)
    requires Inv(start) && Got(start, evs, s, v) && v.pc == InTx(tx, Commit) && tx.move == Sent(v.k)
    ensures Got(start, more, t, Won(v, tx))
  {
    CommitTaken(start, evs, s, v.who, tx);
    CommitLeads(v, tx);
    more, t := Step(start, evs, s, v, 0, Won(v, tx));
  }

  /** Call `who` from its BEGIN to its COMMIT, alone. */
  lemma ToCommitted(start: State, evs: seq<Event>, s: State, v: View, id: TxId) returns (more: seq<Event>, t: State)
    requires Inv(start) && Got(start, evs, s, v) && v.pc == Begin(Sent(v.k), id)
    requires CanPay(v.l) && FindKey(v.l.headers, v.k).None?
    ensures Got(start, more, t, Won(v, Written(v.l, v.k, id)))
  {
    more, t := ToCheck(start, evs, s, v, id);
    more, t := ToInsert(start, more, t, v.(pc := InTx(Opened(v.k, id, Read(v.l)), Check)), id);
    more, t := ToCommit(start, more, t, v.(pc := InTx(Moved(v.l, v.k, id), InsertKey)), id);
    more, t := GoCommit(start, more, t, v.(pc := InTx(Written(v.l, v.k, id), Commit)), Written(v.l, v.k, id));
  }

  // ---------- The seeded ledger ----------

  /** It can pay once, and afterwards not again. */
  lemma PaysOnce(k: string, id: TxId)
    requires k == "k"
    ensures CanPay(Seed()) && FindKey(Seed().headers, k).None?
    ensures var l := WriteLedger(Seed(), PostTx(Written(Seed(), k, id)));
            && 2 in l.accounts && 3 in l.accounts && l.accounts[2].balance == 40_000_000
            && HeaderOf(Sent(k), id) in l.headers
  {
    assert HeaderOf(Sent(k), id) == WriteLedger(Seed(), PostTx(Written(Seed(), k, id))).headers[3];
  }

  /** The view after the first of two calls has won. */
  function Beaten(k: string, id: TxId, pc: Pc): View
    requires CanPay(Seed())
  {
    var tx := Written(Seed(), k, id);
    View(1, k, pc, WriteLedger(Seed(), PostTx(tx)), [LogEntry(0, Ask(k), id)], [],
         map[0 := Call(Ask(k), AuditSuccess(tx))])
  }

  // ---------- A race lost without a replay ----------

  function Pair(who: CallId, k: string, pc: Pc, other: CallId, pc': Pc): View {
    View(who, k, pc, Seed(), [], [], map[other := Call(Ask(k), pc')])
  }

  lemma ArriveTwice(k: string) returns (s: State)
    ensures Reaches(Init(1), [Arrive(0, Ask(k)), Arrive(1, Ask(k))], s) && Scene(s, Pair(1, k, Validate, 0, Validate))
  {
    var first, second := Arrive(0, Ask(k)), Arrive(1, Ask(k));
    s := Next(Init(1), first);
    ExecOneMore(Init(1), [], Init(1), first);
    ExecOneMore(Init(1), [] + [first], s, second);
    assert [] + [first] + [second] == [first, second];
    s := Next(s, second);
  }

  /** Call 1 passes its replay lookup; call 0's turn. */
  lemma ToOvertaking(k: string) returns (evs: seq<Event>, s: State, late: TxId)
    requires FindKey(Seed().headers, k).None?
    ensures Got(Init(1), evs, s, Pair(0, k, Validate, 1, Begin(Sent(k), late)))
  {
    s := ArriveTwice(k);
    evs := [Arrive(0, Ask(k)), Arrive(1, Ask(k))];
    evs, s, late := ToBegin(Init(1), evs, s, Pair(1, k, Validate, 0, Validate));
    Turn(Init(1), evs, s, Pair(1, k, Begin(Sent(k), late), 0, Validate), Pair(0, k, Validate, 1, Begin(Sent(k), late)));
  }

  /** Call 0 commits; call 1's turn. */
  lemma ToOvertaken(k: string) returns (evs: seq<Event>, s: State, id: TxId, late: TxId)
    requires CanPay(Seed()) && FindKey(Seed().headers, k).None?
    ensures Got(Init(1), evs, s, Beaten(k, id, Begin(Sent(k), late)))
  {
    evs, s, late := ToOvertaking(k);
    evs, s, id := ToBegin(Init(1), evs, s, Pair(0, k, Validate, 1, Begin(Sent(k), late)));
    evs, s := WinnerCommits(k, evs, s, id, late);
  }

  lemma WinnerCommits(k: string, evs: seq<Event>, s: State, id: TxId, late: TxId) returns (more: seq<Event>, t: State)
    requires CanPay(Seed()) && FindKey(Seed().headers, k).None?
    requires Got(Init(1), evs, s, Pair(0, k, Begin(Sent(k), id), 1, Begin(Sent(k), late)))
    ensures Got(Init(1), more, t, Beaten(k, id, Begin(Sent(k), late)))
  {
    var v := Pair(0, k, Begin(Sent(k), id), 1, Begin(Sent(k), late));
    InvInit(1);
    more, t := ToCommitted(Init(1), evs, s, v, id);
    Turn(Init(1), more, t, Won(v, Written(Seed(), k, id)), Beaten(k, id, Begin(Sent(k), late)));
  }

  /** Too little left: roll back, audit, return. */
  lemma ToRefused(s: State, v: View, tx: Tx) returns (more: seq<Event>, t: State)
    requires Scene(s, v) && v.pc == InTx(tx, Check)
    requires tx.move == Sent(v.k) && |tx.read| == 2 && ReadOf(tx, 2) < AMOUNT
    ensures Reaches(s, more, t) && AllOk(more)
    ensures t.calls == v.rest[v.who := Call(Ask(v.k), Returned(Err(InsufficientFunds)))]
  {
    var e, about := InsufficientFunds, Some(Sent(v.k));
    CheckLeads(v.l, v.who, v.k, tx);
    RollbackLeads(v.l, v.who, v.k, tx, e);
    more, t := Go(s, [], s, v, tx, Check, InTx(tx, Rollback(e)));
    more, t := Go(s, more, t, v.(pc := InTx(tx, Rollback(e))), tx, Rollback(e), AuditFailure(e, about));
    FailureLeads(v.(pc := AuditFailure(e, about)), e, about);
    more, t := Step(s, more, t, v.(pc := AuditFailure(e, about)), 0,
                    v.(pc := Returned(Err(e)), audit := v.audit + [Row(v.who, Transfer, about, Failed(e))]));
  }

  lemma FailureLeads(v: View, e: Error, about: Option<Move>)
    requires v.pc == AuditFailure(e, about)
    ensures Leads(v, 0, v.(pc := Returned(Err(e)), audit := v.audit + [Row(v.who, Transfer, about, Failed(e))]))
  {
  }

  lemma SuccessLeads(v: View, tx: Tx)
    requires v.pc == AuditSuccess(tx) && tx.header.Some? && tx.move == Sent(v.k)
    ensures Leads(v, 0, v.(pc := Returned(Ok(tx.header.value, tx.legs)),
                           audit := v.audit + [Row(v.who, Transfer, Some(tx.move), Succeeded(tx.id))]))
  {
  }

  /** Call 1 reaches its funds check. */
  lemma ToRace(k: string) returns (evs: seq<Event>, s: State, id: TxId, tx: Tx)
    requires k == "k"
    ensures CanPay(Seed()) && Got(Init(1), evs, s, Beaten(k, id, InTx(tx, Check)))
    ensures tx.move == Sent(k) && |tx.read| == 2 && ReadOf(tx, 2) < AMOUNT
  {
    PaysOnce(k, 0);
    var late;
    evs, s, id, late := ToOvertaken(k);
    PaysOnce(k, id);
    var v := Beaten(k, id, Begin(Sent(k), late));
    evs, s, tx := LoserChecks(evs, s, v, late);
    assert Beaten(k, id, InTx(tx, Check)) == v.(pc := InTx(tx, Check));
  }

  lemma LoserChecks(evs: seq<Event>, s: State, v: View, late: TxId) returns (more: seq<Event>, t: State, tx: Tx)
    requires Got(Init(1), evs, s, v) && v.pc == Begin(Sent(v.k), late)
    requires 2 in v.l.accounts && 3 in v.l.accounts && v.l.accounts[2].balance == 40_000_000
    ensures Got(Init(1), more, t, v.(pc := InTx(tx, Check)))
    ensures tx.move == Sent(v.k) && |tx.read| == 2 && ReadOf(tx, 2) < AMOUNT
  {
    more, t := ToCheck(Init(1), evs, s, v, late);
    tx := Opened(v.k, late, Read(v.l));
    TwoKeys(tx.read, 2, 3);
  }

  /** The documented promise fails: two calls with the same request and key, call 0 commits
      under that key, no store call of anybody fails, and call 1 is told that the funds do
      not suffice. */
  lemma LoserCanFail() returns (evs: seq<Event>, s: State, h: Header, more: seq<Event>, t: State)
    ensures Reaches(Init(1), evs, s) && AllOk(evs) && Reaches(s, more, t) && AllOk(more)
    ensures s.log == [LogEntry(0, Ask("k"), h.id)] && h in s.ledger.headers && h.key == "k"
    ensures 1 in s.calls && Underway(s.calls[1].pc)
    ensures 0 in t.calls && 1 in t.calls && t.calls[0].req == t.calls[1].req == Ask("k")
    ensures t.calls[1].pc == Returned(Err(InsufficientFunds))
  {
    var id, tx;
    evs, s, id, tx := ToRace("k");
    PaysOnce("k", id);
    h := HeaderOf(Sent("k"), id);
    more, t := ToRefused(s, Beaten("k", id, InTx(tx, Check)), tx);
  }

  // ---------- A failed lookup that stops nothing ----------

  lemma OneArrives(k: string) returns (evs: seq<Event>, s: State)
    ensures Got(Init(1), evs, s, View(0, k, ReplayHeader, Seed(), [], [], map[]))
  {
    s := ArriveOnce(k);
    var v := View(0, k, Validate, Seed(), [], [], map[]);
    ValidLeads(v);
    evs, s := Step(Init(1), [Arrive(0, Ask(k))], s, v, 0, v.(pc := ReplayHeader));
  }

  lemma ArriveOnce(k: string) returns (s: State)
    ensures Reaches(Init(1), [Arrive(0, Ask(k))], s) && Scene(s, View(0, k, Validate, Seed(), [], [], map[]))
  {
    s := Next(Init(1), Arrive(0, Ask(k)));
    ExecOneMore(Init(1), [], Init(1), Arrive(0, Ask(k)));
    assert [] + [Arrive(0, Ask(k))] == [Arrive(0, Ask(k))];
  }

  lemma ValidLeads(v: View)
    requires v.pc == Validate
    ensures Leads(v, 0, v.(pc := ReplayHeader))
  {
    assert v.audit + [] == v.audit;
  }

  lemma LookupFails(s: State, v: View) returns (n: State)
    requires Inv(s) && Scene(s, v) && v.pc == ReplayHeader
    ensures Enabled(s, Run(v.who, false, 0)) && n == Next(s, Run(v.who, false, 0)) && Inv(n)
    ensures Scene(n, v.(pc := NewId(Sent(v.k))))
  {
    n := Next(s, Run(v.who, false, 0));
    InvStep(s, Run(v.who, false, 0));
    assert v.audit + [] == v.audit;
    ApplyTables(s, v, Goto(NewId(Sent(v.k))));
    ApplyHolds(s, v.who, v.k, v.pc, Goto(NewId(Sent(v.k))));
  }

  /** From the failed lookup to the return. */
  lemma ToPaid(n: State, v: View) returns (more: seq<Event>, t: State, id: TxId)
    requires Inv(n) && Scene(n, v) && v.pc == NewId(Sent(v.k)) && CanPay(v.l) && FindKey(v.l.headers, v.k).None?
    ensures Reaches(n, more, t) && AllOk(more)
    ensures t.ledger == WriteLedger(v.l, PostTx(Written(v.l, v.k, id)))
    ensures t.calls == v.rest[v.who := Call(Ask(v.k), Returned(Ok(HeaderOf(Sent(v.k), id), LegsOf(Sent(v.k), id))))]
    ensures t.audit == v.audit + [Row(v.who, Transfer, Some(Sent(v.k)), Succeeded(id))]
  {
    more, t, id := TakeId(n, [], n, v);
    var w := v.(pc := Begin(Sent(v.k), id));
    more, t := ToCommitted(n, more, t, w, id);
    var tx := Written(v.l, v.k, id);
    SuccessLeads(Won(w, tx), tx);
    more, t := Step(n, more, t, Won(w, tx), 0,
                    Won(w, tx).(pc := Returned(Ok(HeaderOf(Sent(v.k), id), LegsOf(Sent(v.k), id))),
                                audit := v.audit + [Row(v.who, Transfer, Some(Sent(v.k)), Succeeded(id))]));
  }

  /** The documented promise fails: the replay lookup of call 0 fails, no other store call
      does, and the call neither returns nor audits that failure; it moves the money. */
  lemma FailedLookupMovesMoney() returns (evs: seq<Event>, s: State, more: seq<Event>, t: State, id: TxId)
    ensures Reaches(Init(1), evs, s) && AllOk(evs) && 0 in s.calls && s.calls[0] == Call(Ask("k"), ReplayHeader)
    ensures Enabled(s, Run(0, false, 0)) && Reaches(Next(s, Run(0, false, 0)), more, t) && AllOk(more)
    ensures 0 in t.calls && t.calls[0].pc == Returned(Ok(HeaderOf(Sent("k"), id), LegsOf(Sent("k"), id)))
    ensures t.audit == [Row(0, Transfer, Some(Sent("k")), Succeeded(id))]
    ensures 2 in t.ledger.accounts && t.ledger.accounts[2].balance == 40_000_000
  {
    PaysOnce("k", 0);
    evs, s := OneArrives("k");
    InvRun(1, evs, s);
    var v := View(0, "k", ReplayHeader, Seed(), [], [], map[]);
    var n := LookupFails(s, v);
    more, t, id := ToPaid(n, v.(pc := NewId(Sent("k"))));
    PaysOnce("k", id);
  }
}
