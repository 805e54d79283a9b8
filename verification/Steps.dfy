/** Every step of every call keeps the invariant. */
module Steps {
  import opened Base
  import opened Serial
  import opened LedgerInvariant
  import opened Protocol
  import opened Invariant

  function EffectOf(s: State, ev: Event): Effect
    requires ev.Run? && Enabled(s, ev)
  {
    Decide(s.ledger, ev.call, s.calls[ev.call], ev.ok, ev.newId)
  }

  // ---------- What a step may do ----------

  /** A step takes only what is free, writes only at commit or when opening an account, and
      gives everything back with its connection. */
  predicate Disciplined(s: State, c: CallId, e: Effect, newId: TxId)
    requires c in s.calls
  {
    var pc := s.calls[c].pc;
    && (e.lock.Some? ==> pc.InTx? && pc.stage.Locking? && e.lock.value !in s.locks)
    && (e.key.Some? ==> pc.InTx? && pc.stage.InsertKey? && e.key.value == pc.tx.move.key && e.key.value !in s.keys)
    && (e.rev.Some? ==> pc.InTx? && pc.stage.InsertReverses? && pc.tx.move.reverses == e.rev && e.rev.value !in s.revs)
    && (e.id.Some? ==> e.id.value == newId && newId !in s.ids)
    && (e.conn.Take? ==> pc.Begin? && |s.conns| < s.pool)
    && (e.conn.Release? <==> pc.InTx? && !e.pc.InTx?)
    && (e.conn.Keep? ==> pc.InTx? == e.pc.InTx?)
    && (e.conn.Take? ==> e.pc.InTx?)
    && (pc.InTx? && e.pc.InTx? ==> e.pc.tx.id == pc.tx.id && e.pc.tx.move == pc.tx.move)
    && match e.write
       case Nothing => true
       case PostTx(tx) => pc == InTx(tx, Commit) && e.pc == AuditSuccess(tx) && e.conn.Release?
       case OpenAccount(a) => pc.CreateRow? && e.id == Some(a) && e.pc == Returned(Created(a))
  }

  lemma TxStepDisciplined(s: State, c: CallId, ok: bool, newId: TxId)
    requires c in s.calls && s.calls[c].pc.InTx? && Enabled(s, Run(c, ok, newId))
    ensures Disciplined(s, c, TxStep(s.ledger, c, s.calls[c].pc.tx, s.calls[c].pc.stage, ok), newId)
  {
    var tx, stage := s.calls[c].pc.tx, s.calls[c].pc.stage;
    if ok && stage.Locking? {
    } else if ok && stage.InsertKey? {
    } else if ok && stage.InsertReverses? {
    } else if ok && stage.Commit? {
    } else {
    }
  }

  lemma StepDisciplined(s: State, ev: Event)
    requires ev.Run? && Enabled(s, ev)
    ensures Disciplined(s, ev.call, EffectOf(s, ev), ev.newId)
  {
    if s.calls[ev.call].pc.InTx? {
      TxStepDisciplined(s, ev.call, ev.ok, ev.newId);
    }
  }

  // ---------- The ledger ----------

  lemma CreditedIsPosted(l: Ledger, tx: Tx)
    requires Credited(tx) && tx.move.debit != tx.move.credit
    requires tx.header == Some(HeaderOf(tx.move, tx.id)) && tx.legs == LegsOf(tx.move, tx.id)
    requires forall a :: a in tx.read ==> a in l.accounts && l.accounts[a].balance == tx.read[a]
    ensures tx.move.debit in l.accounts && tx.move.credit in l.accounts
    ensures WriteLedger(l, PostTx(tx)) == Posted(l, tx.move, tx.id)
  {
    assert tx.move.debit in tx.read && tx.move.credit in tx.read;
    assert WriteAccounts(l.accounts, tx.writes) == Posted(l, tx.move, tx.id).accounts;
  }

  /** The writes, header and legs a transaction commits are exactly its movement, posted to
      the ledger as it is at that moment. */
  lemma CommitIsPost(s: State, c: CallId, tx: Tx)
    requires AtStage(s, c, tx, Commit) && LedgerOk(s.ledger)
    ensures Postable(s.ledger, tx.move, tx.id)
    ensures WriteLedger(s.ledger, PostTx(tx)) == Posted(s.ledger, tx.move, tx.id)
  {
    SettledSound(s.ledger, s.calls[c].req, tx.move);
    CreditedIsPosted(s.ledger, tx);
    assert tx.move.debit in tx.read;
  }

  lemma LedgerStep(s: State, ev: Event)
    requires Inv(s) && Enabled(s, ev)
    ensures LedgerOk(Next(s, ev).ledger)
    ensures Extends(s.ledger, Next(s, ev).ledger)
  {
    if ev.Run? {
      StepDisciplined(s, ev);
      match EffectOf(s, ev).write
      case Nothing =>
      case PostTx(tx) =>
        AtItsStage(s, ev.call);
        CommitIsPost(s, ev.call, tx);
        PostedLedger(s.ledger, tx.move, tx.id);
      case OpenAccount(a) =>
        OpenedLedger(s.ledger, a);
    }
  }

  // ---------- Guarantee ----------

  lemma HeldKeeps<K>(m: map<K, CallId>, c: CallId, conn: Conn, taken: Option<K>, d: CallId)
    requires taken.Some? ==> taken.value !in m
    requires d != c
    ensures forall k :: k in m && m[k] == d ==> k in Held(m, c, conn, taken) && Held(m, c, conn, taken)[k] == d
  {
  }

  /** The header being committed belongs to call c: its id, key and reversed id do. */
  predicate HeldHeader(s: State, c: CallId, h: Header) {
    && h.id in s.ids && s.ids[h.id] == Some(c)
    && h.key in s.keys && s.keys[h.key] == c
    && (h.reverses.Some? ==> h.reverses.value in s.revs && s.revs[h.reverses.value] == c)
  }

  lemma CommitHeld(s: State, c: CallId, tx: Tx)
    requires Inv(s) && c in s.calls && s.calls[c].pc == InTx(tx, Commit)
    ensures tx.header.Some? && HeldHeader(s, c, tx.header.value)
    ensures forall a :: a in tx.writes ==> a in s.locks && s.locks[a] == c
  {
    assert CallOk(s, c);
    assert TxOk(s, c, s.calls[c].req, tx) && StageOk(s.ledger, s.calls[c].req, tx, Commit);
    assert tx.writes.Keys == tx.read.Keys;
  }

  lemma HeadersElsewhere(s: State, c: CallId, h: Header, d: CallId)
    requires HeldHeader(s, c, h) && d != c
    ensures var hs, hs' := s.ledger.headers, s.ledger.headers + [h];
            && (forall k :: k in s.keys && s.keys[k] == d && FindKey(hs, k).None? ==> FindKey(hs', k).None?)
            && (forall x :: x in s.revs && s.revs[x] == d && !Reversed(hs, x) ==> !Reversed(hs', x))
            && (forall i :: i in s.ids && s.ids[i] == Some(d) && FindId(hs, i).None? ==> FindId(hs', i).None?)
  {
    var hs, hs' := s.ledger.headers, s.ledger.headers + [h];
    assert forall g :: g in hs' ==> g in hs || g == h;
  }

  /** Ledger n spares what call d relies on in s. */
  predicate Spares(s: State, n: Ledger, d: CallId) {
    && (forall a :: a in s.locks && s.locks[a] == d && a in s.ledger.accounts ==>
          a in n.accounts && n.accounts[a] == s.ledger.accounts[a])
    && (forall k :: k in s.keys && s.keys[k] == d && FindKey(s.ledger.headers, k).None? ==> FindKey(n.headers, k).None?)
    && (forall x :: x in s.revs && s.revs[x] == d && !Reversed(s.ledger.headers, x) ==> !Reversed(n.headers, x))
    && (forall i :: i in s.ids && s.ids[i] == Some(d) && FindId(s.ledger.headers, i).None? ==>
       FindId(n.headers, i).None?)
  }

  /** A commit touches no row locked, key inserted or id owned by another call. */
  lemma CommitElsewhere(s: State, c: CallId, tx: Tx, d: CallId)
    requires Inv(s) && c in s.calls && s.calls[c].pc == InTx(tx, Commit) && d != c
    ensures Spares(s, WriteLedger(s.ledger, PostTx(tx)), d)
  {
    CommitHeld(s, c, tx);
    HeadersElsewhere(s, c, tx.header.value, d);
  }

  lemma WriteElsewhere(s: State, ev: Event, d: CallId)
    requires Inv(s) && Enabled(s, ev) && d != ev.call
    ensures Spares(s, Next(s, ev).ledger, d)
  {
    if ev.Run? {
      var w := EffectOf(s, ev).write;
      StepDisciplined(s, ev);
      if w.PostTx? { CommitElsewhere(s, ev.call, w.tx, d); } else { OtherWrites(s, w, d); }
    }
  }

  lemma OtherWrites(s: State, w: Write, d: CallId)
    requires SharedOk(s) && !w.PostTx? && (w.OpenAccount? ==> w.account !in s.ids)
    ensures Spares(s, WriteLedger(s.ledger, w), d)
  {
  }

  lemma ApplyElsewhere(s: State, c: CallId, e: Effect, newId: TxId, d: CallId)
    requires c in s.calls && d in s.calls && d != c && Disciplined(s, c, e, newId)
    ensures var t := Apply(s, c, e);
            && d in t.calls && t.calls[d] == s.calls[d]
            && (forall a :: a in s.locks && s.locks[a] == d ==> a in t.locks && t.locks[a] == d)
            && (forall k :: k in s.keys && s.keys[k] == d ==> k in t.keys && t.keys[k] == d)
            && (forall x :: x in s.revs && s.revs[x] == d ==> x in t.revs && t.revs[x] == d)
            && (forall i :: i in s.ids ==> i in t.ids && t.ids[i] == s.ids[i])
  {
    HeldKeeps(s.locks, c, e.conn, e.lock, d);
    HeldKeeps(s.keys, c, e.conn, e.key, d);
    HeldKeeps(s.revs, c, e.conn, e.rev, d);
  }

  /** Guarantee: a step of one call leaves every other call's footing alone. */
  lemma Guarantee(s: State, ev: Event, d: CallId)
    requires Inv(s) && Enabled(s, ev) && d != ev.call && d in s.calls
    ensures Stable(s, Next(s, ev), d)
  {
    LedgerStep(s, ev);
    WriteElsewhere(s, ev, d);
    if ev.Run? {
      StepDisciplined(s, ev);
      ApplyElsewhere(s, ev.call, EffectOf(s, ev), ev.newId, d);
    }
  }

  // ---------- The call's own step ----------

  lemma VisibleTwo(l: Ledger, a: AccountId, b: AccountId)
    ensures Visible(l, [a, b]) == (if a in l.accounts then [a] else []) + (if b in l.accounts then [b] else [])
  {
    assert [a, b][1..] == [b];
    assert [b][1..] == [];
  }

  lemma ScanStep(l: Ledger, r: Request, tx: Tx)
    requires LedgerOk(l) && Settled(l, r, tx.move) && StageOk(l, r, tx, Scan)
    ensures StageOk(l, r, tx, LockNext(Visible(l, Targets(tx.move))))
  {
    var m := tx.move;
    SettledSound(l, r, m);
    SoundFacts(l, m);
    VisibleTwo(l, m.debit, m.credit);
    VisibleTwo(l, m.credit, m.debit);
  }

  lemma LockStep(l: Ledger, r: Request, tx: Tx, todo: seq<AccountId>)
    requires Blank(tx) && LockingOk(l, tx, todo)
    ensures StageOk(l, r, tx.(read := tx.read[todo[0] := l.accounts[todo[0]].balance]), LockNext(todo[1..]))
  {
    if |todo| == 2 { assert todo[1..] == [todo[1]]; }
  }

  /** The two balance updates and the entry rows of a settled movement always fit and
      satisfy the CHECK; only a deposit's update of EXTERNAL can overflow. */
  lemma UpdateStep(s: State, c: CallId, r: Request, tx: Tx)
    requires LedgerOk(s.ledger) && TxOk(s, c, r, tx) && Funded(tx)
    ensures var l, m := s.ledger, tx.move;
            && m.debit in l.accounts && m.credit in l.accounts && m.debit != m.credit && m.amount > 0
            && (m.kind == Deposit <==> r.DepositReq?)
            && Allowed(l.accounts[m.debit], ReadOf(tx, m.debit) - m.amount)
            && Allowed(l.accounts[m.credit], ReadOf(tx, m.credit) + m.amount)
            && (m.kind != Deposit ==> Fits(ReadOf(tx, m.debit) - m.amount))
            && (Fits(ReadOf(tx, m.debit) - m.amount) ==> Fits(ReadOf(tx, m.credit) + m.amount) && Fits(m.amount))
  {
    assert tx.move.debit in tx.read && tx.move.credit in tx.read;
    SettledSound(s.ledger, r, tx.move);
    SoundFacts(s.ledger, tx.move);
    OnlyDepositsOverflow(s.ledger, tx.move);
  }

  lemma TwoKeys(m: map<AccountId, int>, a: AccountId, b: AccountId)
    requires m.Keys <= {a, b} && a != b
    ensures |m| == 2 <==> m.Keys == {a, b}
  {
    assert |m| == |m.Keys|;
    if |m| == 2 && m.Keys != {a, b} {
      assert m.Keys < {a, b};
      assert m.Keys <= {a} || m.Keys <= {b};
      if m.Keys <= {a} { SubsetSize(m.Keys, {a}); } else { SubsetSize(m.Keys, {b}); }
    }
  }

  /** Moving on inside the transaction without touching shared state. */
  lemma GotoInTx(s: State, c: CallId, tx: Tx, tx': Tx, stage': Stage)
    requires c in s.calls && TxOk(s, c, s.calls[c].req, tx) && StageOk(s.ledger, s.calls[c].req, tx', stage')
    requires tx' == tx.(writes := tx'.writes, header := tx'.header, legs := tx'.legs)
    ensures CallOk(Apply(s, c, Goto(InTx(tx', stage'))), c)
  {
  }

  /** Moving on with a row lock or a unique-index entry just taken. */
  lemma TakeInTx(s: State, c: CallId, e: Effect, tx': Tx, stage': Stage)
    requires c in s.calls && e.pc == InTx(tx', stage') && e.conn == Keep && e.write == Nothing && e.id == None
    requires e.lock.Some? ==> e.lock.value !in s.locks
    requires e.key.Some? ==> e.key.value !in s.keys
    requires e.rev.Some? ==> e.rev.value !in s.revs
    requires TxOk(Apply(s, c, e), c, s.calls[c].req, tx') && StageOk(s.ledger, s.calls[c].req, tx', stage')
    ensures CallOk(Apply(s, c, e), c)
  {
  }

  lemma TwoLegsBalance(d: Entry, c: Entry)
    requires d.direction == Debit && c.direction == Credit && d.amount == c.amount
    ensures Signed([d, c]) == 0
  {
    assert [d, c][..1] == [d];
    assert [d][..0] == [];
    assert Signed([d]) == -d.amount;
  }

  lemma OnlyLegs(l: Ledger, m: Move, id: TxId)
    requires HistoryOk(l) && FindId(l.headers, id).None?
    ensures EntriesOf(l.entries + LegsOf(m, id), id) == LegsOf(m, id)
  {
    forall k | 0 <= k < |l.entries| ensures l.entries[k].txId != id {
      RowOwner(l, k);
      assert l.headers[k / 2] in l.headers;
    }
    EntriesOfMiddle(l.entries, LegsOf(m, id), [], id);
    assert l.entries + [] == l.entries;
    assert l.entries + LegsOf(m, id) + [] == l.entries + LegsOf(m, id);
  }

  /** The deferred trigger accepts the legs of every movement posted under a fresh id. */
  lemma LegsBalanced(l: Ledger, m: Move, id: TxId)
    requires HistoryOk(l) && FindId(l.headers, id).None?
    ensures TriggerAccepts(l.entries + LegsOf(m, id), LegsOf(m, id))
  {
    var legs := LegsOf(m, id);
    OnlyLegs(l, m, id);
    TwoLegsBalance(legs[0], legs[1]);
    assert forall e :: e in legs ==> e.txId == id;
  }

  // One lemma a stage: the call's own knowledge after its step.

  ghost predicate AtStage(s: State, c: CallId, tx: Tx, stage: Stage) {
    && c in s.calls && s.calls[c].pc == InTx(tx, stage)
    && TxOk(s, c, s.calls[c].req, tx) && StageOk(s.ledger, s.calls[c].req, tx, stage)
    && tx.move.debit != tx.move.credit && Some(tx.move.kind) == KindOf(s.calls[c].req)
  }

  function After(s: State, c: CallId): State
    requires c in s.calls && s.calls[c].pc.InTx?
  {
    Apply(s, c, TxStep(s.ledger, c, s.calls[c].pc.tx, s.calls[c].pc.stage, true))
  }

  lemma AtItsStage(s: State, c: CallId)
    requires Inv(s) && c in s.calls && s.calls[c].pc.InTx?
    ensures AtStage(s, c, s.calls[c].pc.tx, s.calls[c].pc.stage)
  {
    var tx := s.calls[c].pc.tx;
    assert CallOk(s, c);
    SettledSound(s.ledger, s.calls[c].req, tx.move);
    SoundFacts(s.ledger, tx.move);
  }

  lemma AfterScan(s: State, c: CallId, tx: Tx)
    requires AtStage(s, c, tx, Scan) && LedgerOk(s.ledger)
    ensures CallOk(After(s, c), c)
  {
    ScanStep(s.ledger, s.calls[c].req, tx);
    GotoInTx(s, c, tx, tx, LockNext(Visible(s.ledger, Targets(tx.move))));
  }

  lemma AfterLocking(s: State, c: CallId, tx: Tx, todo: seq<AccountId>)
    requires AtStage(s, c, tx, Locking(todo)) && todo != [] && todo[0] !in s.locks
    ensures CallOk(After(s, c), c)
  {
    var r := s.calls[c].req;
    LockStep(s.ledger, r, tx, todo);
    var e := TxStep(s.ledger, c, tx, Locking(todo), true);
    assert TxOk(Apply(s, c, e), c, r, e.pc.tx);
    TakeInTx(s, c, e, e.pc.tx, e.pc.stage);
  }

  lemma AfterCheck(s: State, c: CallId, tx: Tx)
    requires AtStage(s, c, tx, Check)
    ensures CallOk(After(s, c), c)
  {
    TwoKeys(tx.read, tx.move.debit, tx.move.credit);
    var e := TxStep(s.ledger, c, tx, Check, true);
    assert StageOk(s.ledger, s.calls[c].req, tx, e.pc.stage);
    GotoInTx(s, c, tx, tx, e.pc.stage);
  }

  lemma AfterDebit(s: State, c: CallId, tx: Tx)
    requires AtStage(s, c, tx, DebitUpdate) && LedgerOk(s.ledger)
    ensures CallOk(After(s, c), c)
  {
    UpdateStep(s, c, s.calls[c].req, tx);
    var e := TxStep(s.ledger, c, tx, DebitUpdate, true);
    assert StageOk(s.ledger, s.calls[c].req, e.pc.tx, e.pc.stage);
    GotoInTx(s, c, tx, e.pc.tx, e.pc.stage);
  }

  function WithCredit(tx: Tx): Tx {
    tx.(writes := tx.writes[tx.move.credit := ReadOf(tx, tx.move.credit) + tx.move.amount])
  }

  lemma CreditGoes(s: State, c: CallId, tx: Tx)
    requires AtStage(s, c, tx, CreditUpdate) && LedgerOk(s.ledger)
    ensures TxStep(s.ledger, c, tx, CreditUpdate, true) == Goto(InTx(WithCredit(tx), InsertKey))
    ensures StageOk(s.ledger, s.calls[c].req, WithCredit(tx), InsertKey)
  {
    UpdateStep(s, c, s.calls[c].req, tx);
  }

  lemma AfterCredit(s: State, c: CallId, tx: Tx)
    requires AtStage(s, c, tx, CreditUpdate) && LedgerOk(s.ledger)
    ensures CallOk(After(s, c), c)
  {
    CreditGoes(s, c, tx);
    GotoInTx(s, c, tx, WithCredit(tx), InsertKey);
  }

  lemma KeyTaken(s: State, c: CallId, tx: Tx, e: Effect)
    requires AtStage(s, c, tx, InsertKey) && tx.move.key !in s.keys && FindKey(s.ledger.headers, tx.move.key).None?
    requires e == TxStep(s.ledger, c, tx, InsertKey, true)
    ensures TxOk(Apply(s, c, e), c, s.calls[c].req, e.pc.tx) && StageOk(s.ledger, s.calls[c].req, e.pc.tx, e.pc.stage)
  {
  }

  lemma AfterInsertKey(s: State, c: CallId, tx: Tx)
    requires AtStage(s, c, tx, InsertKey) && tx.move.key !in s.keys
    ensures CallOk(After(s, c), c)
  {
    var e := TxStep(s.ledger, c, tx, InsertKey, true);
    if FindKey(s.ledger.headers, tx.move.key).Some? {
      assert e == Goto(InTx(tx, Rollback(IdempotencyConflict)));
      GotoInTx(s, c, tx, tx, Rollback(IdempotencyConflict));
    } else {
      KeyTaken(s, c, tx, e);
      TakeInTx(s, c, e, e.pc.tx, e.pc.stage);
    }
  }

  lemma OriginalFound(l: Ledger, r: Request, m: Move)
    requires Settled(l, r, m) && m.reverses.Some?
    ensures r.ReverseReq? && FindId(l.headers, m.reverses.value).Some?
  {
    var j: nat :| Mirrors(l, m, m.reverses.value, j);
    assert l.headers[j] in l.headers;
  }

  lemma ReversesTaken(s: State, c: CallId, tx: Tx, e: Effect)
    requires AtStage(s, c, tx, InsertReverses) && tx.move.reverses.Some? && tx.move.reverses.value !in s.revs
    requires !Reversed(s.ledger.headers, tx.move.reverses.value)
    requires FindId(s.ledger.headers, tx.move.reverses.value).Some?
             && e == TxStep(s.ledger, c, tx, InsertReverses, true)
    ensures TxOk(Apply(s, c, e), c, s.calls[c].req, e.pc.tx) && StageOk(s.ledger, s.calls[c].req, e.pc.tx, e.pc.stage)
  {
  }

  lemma AfterInsertReverses(s: State, c: CallId, tx: Tx)
    requires AtStage(s, c, tx, InsertReverses) && tx.move.reverses.Some? && tx.move.reverses.value !in s.revs
    ensures CallOk(After(s, c), c)
  {
    OriginalFound(s.ledger, s.calls[c].req, tx.move);
    var e := TxStep(s.ledger, c, tx, InsertReverses, true);
    if Reversed(s.ledger.headers, tx.move.reverses.value) {
      assert e == Goto(InTx(tx, Rollback(AlreadyReversed)));
      GotoInTx(s, c, tx, tx, Rollback(AlreadyReversed));
    } else {
      ReversesTaken(s, c, tx, e);
      TakeInTx(s, c, e, e.pc.tx, e.pc.stage);
    }
  }

  lemma AfterInsertLegs(s: State, c: CallId, tx: Tx)
    requires AtStage(s, c, tx, InsertLegs) && LedgerOk(s.ledger)
    ensures CallOk(After(s, c), c)
  {
    UpdateStep(s, c, s.calls[c].req, tx);
    var e := TxStep(s.ledger, c, tx, InsertLegs, true);
    assert StageOk(s.ledger, s.calls[c].req, e.pc.tx, e.pc.stage);
    GotoInTx(s, c, tx, e.pc.tx, e.pc.stage);
  }

  lemma PostedRecorded(l: Ledger, m: Move, id: TxId)
    requires LedgerOk(l) && Postable(l, m, id)
    ensures Recorded(Posted(l, m, id), HeaderOf(m, id), LegsOf(m, id))
  {
    var n, k := Posted(l, m, id), |l.headers|;
    PostedHistory(l, m, id);
    assert TxnOk(n, k);
    assert n.entries[2 * k] == LegsOf(m, id)[0] && n.entries[2 * k + 1] == LegsOf(m, id)[1];
    assert RecordedAt(n, HeaderOf(m, id), LegsOf(m, id), k);
  }

  lemma CommitGoes(s: State, c: CallId, tx: Tx)
    requires AtStage(s, c, tx, Commit) && LedgerOk(s.ledger)
    ensures TxStep(s.ledger, c, tx, Commit, true) == Goto(AuditSuccess(tx)).(conn := Release, write := PostTx(tx))
  {
    LegsBalanced(s.ledger, tx.move, tx.id);
  }

  lemma AfterCommit(s: State, c: CallId, tx: Tx)
    requires AtStage(s, c, tx, Commit) && LedgerOk(s.ledger)
    ensures CallOk(After(s, c), c)
  {
    var l, m, r := s.ledger, tx.move, s.calls[c].req;
    CommitGoes(s, c, tx);
    CommitIsPost(s, c, tx);
    PostedRecorded(l, m, tx.id);
    PostedLedger(l, m, tx.id);
    SettledStable(l, Posted(l, m, tx.id), r, m);
  }

  lemma AfterOk(s: State, c: CallId)
    requires c in s.calls && s.calls[c].pc.InTx? && LedgerOk(s.ledger)
    requires AtStage(s, c, s.calls[c].pc.tx, s.calls[c].pc.stage) && !s.calls[c].pc.stage.Rollback?
    requires Available(s, Wants(s.calls[c].pc))
    ensures CallOk(After(s, c), c)
  {
    var tx := s.calls[c].pc.tx;
    match s.calls[c].pc.stage
    case Scan => AfterScan(s, c, tx);
    case Locking(todo) => AfterLocking(s, c, tx, todo);
    case Check => AfterCheck(s, c, tx);
    case DebitUpdate => AfterDebit(s, c, tx);
    case CreditUpdate => AfterCredit(s, c, tx);
    case InsertKey => AfterInsertKey(s, c, tx);
    case InsertReverses => AfterInsertReverses(s, c, tx);
    case InsertLegs => AfterInsertLegs(s, c, tx);
    case Commit => AfterCommit(s, c, tx);
  }

  lemma AfterRollback(s: State, c: CallId, tx: Tx, e: Error, ok: bool)
    requires AtStage(s, c, tx, Rollback(e))
    ensures CallOk(Apply(s, c, TxStep(s.ledger, c, tx, Rollback(e), ok)), c)
  {
  }

  lemma AfterFailure(s: State, c: CallId, tx: Tx, stage: Stage)
    requires AtStage(s, c, tx, stage) && !stage.Rollback?
    ensures CallOk(Apply(s, c, TxStep(s.ledger, c, tx, stage, false)), c)
  {
    GotoInTx(s, c, tx, tx, Rollback(StoreFailure));
  }

  lemma AfterAny(s: State, c: CallId, ok: bool)
    requires c in s.calls && s.calls[c].pc.InTx? && LedgerOk(s.ledger)
    requires AtStage(s, c, s.calls[c].pc.tx, s.calls[c].pc.stage)
    requires ok ==> Available(s, Wants(s.calls[c].pc))
    ensures CallOk(Apply(s, c, TxStep(s.ledger, c, s.calls[c].pc.tx, s.calls[c].pc.stage, ok)), c)
  {
    var tx, stage := s.calls[c].pc.tx, s.calls[c].pc.stage;
    if stage.Rollback? {
      AfterRollback(s, c, tx, stage.error, ok);
    } else if ok {
      AfterOk(s, c);
    } else {
      AfterFailure(s, c, tx, stage);
    }
  }

  /** Every step inside the transaction. */
  lemma OwnTxStep(s: State, ev: Event)
    requires Inv(s) && ev.Run? && Enabled(s, ev) && s.calls[ev.call].pc.InTx?
    ensures CallOk(Next(s, ev), ev.call)
  {
    AtItsStage(s, ev.call);
    NextAtStage(s, ev, s.calls[ev.call].pc.tx, s.calls[ev.call].pc.stage);
  }

  lemma NextAtStage(s: State, ev: Event, tx: Tx, stage: Stage)
    requires ev.Run? && Enabled(s, ev) && AtStage(s, ev.call, tx, stage) && LedgerOk(s.ledger)
    ensures CallOk(Next(s, ev), ev.call)
  {
    AfterAny(s, ev.call, ev.ok);
    assert Next(s, ev) == Apply(s, ev.call, TxStep(s.ledger, ev.call, tx, stage, ev.ok));
  }

  lemma FetchedSettled(l: Ledger, r: Request, h: Header)
    requires LedgerOk(l) && r.ReverseReq? && h in l.headers && h.id == r.original && h.kind == Transfer
    ensures Settled(l, r, ReversalMove(r.original, r.key, EntriesOf(l.entries, h.id)))
  {
    var i: nat :| i < |l.headers| && l.headers[i] == h;
    EntriesOfTxn(l, i);
    assert TxnOk(l, i);
    TwoLegs(l.entries[2 * i], l.entries[2 * i + 1]);
    assert Mirrors(l, ReversalMove(r.original, r.key, EntriesOf(l.entries, h.id)), r.original, i);
  }

  lemma AfterReplayOk(s: State, c: CallId)
    requires c in s.calls && Validated(s.calls[c].req)
    ensures CallOk(Apply(s, c, Goto(AfterReplay(s.calls[c].req))), c)
  {
  }

  lemma ReturnFound(s: State, c: CallId, h: Header)
    requires c in s.calls && HistoryOk(s.ledger) && h in s.ledger.headers
    requires Validated(s.calls[c].req) && h.key == Key(s.calls[c].req)
    ensures CallOk(Apply(s, c, Goto(Returned(Ok(h, EntriesOf(s.ledger.entries, h.id))))), c)
  {
    ReadBack(s.ledger, h);
  }

  predicate Looking(pc: Pc) {
    pc.Validate? || pc.ReplayHeader? || pc.ReplayEntries? || pc.RefetchHeader? || pc.RefetchEntries?
  }

  lemma OwnLookStep(s: State, ev: Event)
    requires ev.Run? && Enabled(s, ev) && CallOk(s, ev.call) && HistoryOk(s.ledger)
    requires Looking(s.calls[ev.call].pc)
    ensures CallOk(Next(s, ev), ev.call)
  {
    var c, pc := ev.call, s.calls[ev.call].pc;
    match pc
    case Validate =>
    case ReplayHeader => AfterReplayOk(s, c);
    case ReplayEntries(h) => AfterReplayOk(s, c); ReturnFound(s, c, h);
    case RefetchHeader(m) =>
    case RefetchEntries(m, h) => ReturnFound(s, c, h);
  }

  lemma OwnFetchStep(s: State, ev: Event)
    requires ev.Run? && Enabled(s, ev) && CallOk(s, ev.call) && LedgerOk(s.ledger)
    requires s.calls[ev.call].pc.FetchHeader? || s.calls[ev.call].pc.FetchEntries?
    ensures CallOk(Next(s, ev), ev.call)
  {
    var pc := s.calls[ev.call].pc;
    if pc.FetchEntries? && ev.ok && pc.found.kind == Transfer {
      FetchedSettled(s.ledger, s.calls[ev.call].req, pc.found);
    }
  }

  lemma OwnOtherStep(s: State, ev: Event)
    requires ev.Run? && Enabled(s, ev) && CallOk(s, ev.call) && SharedOk(s)
    requires var pc := s.calls[ev.call].pc; !Looking(pc) && !pc.FetchHeader? && !pc.FetchEntries? && !pc.InTx?
    ensures CallOk(Next(s, ev), ev.call)
  {
    if s.calls[ev.call].pc.NewId? { SharedIds(s, ev.newId); }
  }

  /** Every step outside it. */
  lemma OwnPlainStep(s: State, ev: Event)
    requires Inv(s) && ev.Run? && Enabled(s, ev) && !s.calls[ev.call].pc.InTx?
    ensures CallOk(Next(s, ev), ev.call)
  {
    var pc := s.calls[ev.call].pc;
    assert CallOk(s, ev.call);
    if Looking(pc) {
      OwnLookStep(s, ev);
    } else if pc.FetchHeader? || pc.FetchEntries? {
      OwnFetchStep(s, ev);
    } else {
      OwnOtherStep(s, ev);
    }
  }

  /** An id never handed out is no committed transaction's. */
  lemma SharedIds(s: State, id: TxId)
    requires SharedOk(s) && id !in s.ids
    ensures FindId(s.ledger.headers, id).None?
  {
  }

  // ---------- Shared tables ----------

  /** What a call still holds after a step that does not release: what it held, and what it took. */
  predicate KeepsHeld(pc: Pc, e: Effect) {
    pc.InTx? && e.pc.InTx? ==>
      && (forall a :: a in pc.tx.read ==> a in e.pc.tx.read)
      && (e.lock.Some? ==> e.lock.value in e.pc.tx.read)
      && (pc.tx.hasKey || e.key.Some? ==> e.pc.tx.hasKey)
      && (pc.tx.hasRev || e.rev.Some? ==> e.pc.tx.hasRev)
  }

  lemma TxStepKeepsHeld(l: Ledger, c: CallId, tx: Tx, stage: Stage, ok: bool)
    ensures KeepsHeld(InTx(tx, stage), TxStep(l, c, tx, stage, ok))
  {
    match stage
    case Locking(_) =>
    case InsertKey =>
    case InsertReverses =>
    case _ =>
  }

  lemma ApplyRows(s: State, c: CallId, e: Effect, newId: TxId)
    requires c in s.calls && Disciplined(s, c, e, newId) && KeepsHeld(s.calls[c].pc, e)
    requires forall a :: a in s.locks ==> HoldsRow(s, s.locks[a], a)
    ensures var t := Apply(s, c, e); forall a :: a in t.locks ==> HoldsRow(t, t.locks[a], a)
  {
  }

  lemma ApplyKeys(s: State, c: CallId, e: Effect, newId: TxId)
    requires c in s.calls && Disciplined(s, c, e, newId) && KeepsHeld(s.calls[c].pc, e)
    requires forall k :: k in s.keys ==> HoldsKey(s, s.keys[k], k)
    ensures var t := Apply(s, c, e); forall k :: k in t.keys ==> HoldsKey(t, t.keys[k], k)
  {
  }

  lemma ApplyRevs(s: State, c: CallId, e: Effect, newId: TxId)
    requires c in s.calls && Disciplined(s, c, e, newId) && KeepsHeld(s.calls[c].pc, e)
    requires forall x :: x in s.revs ==> HoldsRev(s, s.revs[x], x)
    ensures var t := Apply(s, c, e); forall x :: x in t.revs ==> HoldsRev(t, t.revs[x], x)
  {
  }

  lemma ApplyConns(s: State, c: CallId, e: Effect, newId: TxId)
    requires c in s.calls && Disciplined(s, c, e, newId) && SharedOk(s)
    ensures var t := Apply(s, c, e);
            && (forall d :: d in t.conns <==> d in t.calls && t.calls[d].pc.InTx?)
            && |t.conns| <= t.pool
  {
  }

  lemma ApplyIds(s: State, c: CallId, e: Effect, newId: TxId)
    requires c in s.calls && Disciplined(s, c, e, newId) && SharedOk(s)
    requires e.write.PostTx? ==> e.write.tx.header.Some? && e.write.tx.header.value.id in s.ids
    ensures var t := Apply(s, c, e);
            && (forall h :: h in t.ledger.headers ==> h.id in t.ids)
            && (forall a :: a in t.ledger.accounts ==> a in t.ids)
  {
  }

  lemma ApplyShared(s: State, c: CallId, e: Effect, newId: TxId)
    requires c in s.calls && Disciplined(s, c, e, newId) && KeepsHeld(s.calls[c].pc, e) && SharedOk(s)
    requires e.write.PostTx? ==> e.write.tx.header.Some? && e.write.tx.header.value.id in s.ids
    ensures SharedOk(Apply(s, c, e))
  {
    ApplyRows(s, c, e, newId);
    ApplyKeys(s, c, e, newId);
    ApplyRevs(s, c, e, newId);
    ApplyConns(s, c, e, newId);
    ApplyIds(s, c, e, newId);
  }

  lemma EffectKeepsHeld(s: State, ev: Event)
    requires ev.Run? && Enabled(s, ev)
    ensures KeepsHeld(s.calls[ev.call].pc, EffectOf(s, ev))
  {
    var pc := s.calls[ev.call].pc;
    if pc.InTx? { TxStepKeepsHeld(s.ledger, ev.call, pc.tx, pc.stage, ev.ok); }
  }

  lemma EffectPosts(s: State, ev: Event)
    requires Inv(s) && ev.Run? && Enabled(s, ev)
    ensures var w := EffectOf(s, ev).write; w.PostTx? ==> w.tx.header.Some? && w.tx.header.value.id in s.ids
  {
    var w := EffectOf(s, ev).write;
    StepDisciplined(s, ev);
    if w.PostTx? { CommitHeld(s, ev.call, w.tx); }
  }

  lemma SharedStep(s: State, ev: Event)
    requires Inv(s) && Enabled(s, ev)
    ensures SharedOk(Next(s, ev))
  {
    if ev.Run? {
      StepDisciplined(s, ev);
      EffectKeepsHeld(s, ev);
      EffectPosts(s, ev);
      ApplyShared(s, ev.call, EffectOf(s, ev), ev.newId);
    }
  }

  // ---------- The invariant ----------

  lemma InvStep(s: State, ev: Event)
    requires Inv(s) && Enabled(s, ev)
    ensures Inv(Next(s, ev))
  {
    var t := Next(s, ev);
    LedgerStep(s, ev);
    SharedStep(s, ev);
    forall d | d in t.calls ensures CallOk(t, d) {
      if d != ev.call {
        Guarantee(s, ev, d);
        CallStable(s, t, d);
      } else if ev.Run? {
        if s.calls[d].pc.InTx? { OwnTxStep(s, ev); } else { OwnPlainStep(s, ev); }
      }
    }
  }

  lemma InvInit(pool: nat)
    ensures Inv(Init(pool))
  {
    SeedOk();
  }

  /** The invariant holds in every state of every run. */
  lemma {:induction false} InvRun(pool: nat, evs: seq<Event>, s: State)
    requires Reaches(Init(pool), evs, s)
    ensures Inv(s)
  {
    if evs == [] {
      InvInit(pool);
    } else {
      var t := Exec(Init(pool), evs[..|evs| - 1]).value;
      InvRun(pool, evs[..|evs| - 1], t);
      InvStep(t, evs[|evs| - 1]);
    }
  }
}
