/** Why a call returned the error it returned, in every run, whichever store calls fail: each
    error is traced to the request's own fields, to a failed store call of its own, or to a
    step of its own at which the committed ledger gave the reason. */
module Reasons {
  import opened Base
  import opened Serial
  import opened LedgerInvariant
  import opened Protocol
  import opened Invariant
  import opened Steps
  import opened Races
  import opened Linearization
  import opened Requests

  // ---------- The three kinds of reason ----------

  /** The request is refused for its own fields, in the order they are checked. */
  predicate Invalid(r: Request, e: Error) {
    match r
    case TransferReq(src, dst, amount, _) =>
      || (e == InvalidAmount && amount <= 0)
      || (e == SelfTransfer && amount > 0 && src == dst)
      || (e == SystemAccount && amount > 0 && src != dst && (src == EXTERNAL || dst == EXTERNAL))
    case DepositReq(dst, amount, _) =>
      || (e == InvalidAmount && amount <= 0)
      || (e == SystemAccount && amount > 0 && dst == EXTERNAL)
    case _ => false
  }

  /** The error a failed store call ends in.  Failed replay lookups, rollbacks and audit
      writes are ignored. */
  function FailureAt(pc: Pc): Option<Error> {
    match pc
    case FetchHeader => Some(StoreFailure)
    case FetchEntries(_) => Some(StoreFailure)
    case Begin(_, _) => Some(StoreFailure)
    case InTx(_, stage) => if stage.Rollback? then None else Some(StoreFailure)
    case CreateRow => Some(StoreFailure)
    case RefetchHeader(_) => Some(IdempotencyConflict)
    case RefetchEntries(_, _) => Some(IdempotencyConflict)
    case _ => None
  }

  /** The ledger's reason for turning the request down with e. */
  ghost predicate Ground(l: Ledger, r: Request, e: Error) {
    match r
    case TransferReq(src, dst, amount, _) =>
      || (e == AccountNotFound && (src !in l.accounts || dst !in l.accounts))
      || (e == InsufficientFunds && src in l.accounts && dst in l.accounts && l.accounts[src].balance < amount)
    case DepositReq(dst, amount, _) =>
      || (e == AccountNotFound && dst !in l.accounts)
      || (e == NumericOverflow && EXTERNAL in l.accounts && l.accounts[EXTERNAL].balance - amount <= -LIMIT)
    case ReverseReq(original, _) =>
      || (e == TransactionNotFound && forall h :: h in l.headers ==> h.id != original)
      || (e == NotReversible && exists h :: h in l.headers && h.id == original && h.kind != Transfer)
      || (e == InsufficientFunds && exists src, dst, amount :: Short(l, original, src, dst, amount))
      || (e == AlreadyReversed && exists h :: h in l.headers && h.reverses == Some(original))
    case CreateReq => false
  }

  predicate Short(l: Ledger, original: TxId, src: AccountId, dst: AccountId, amount: int) {
    Legs(l, original, src, dst, amount) && dst in l.accounts && l.accounts[dst].balance < amount
  }

  /** The step at which each of those errors is found. */
  predicate FoundAt(pc: Pc, e: Error) {
    match e
    case TransactionNotFound => pc.FetchHeader?
    case NotReversible => pc.FetchEntries?
    case AccountNotFound => pc.InTx? && pc.stage == Scan
    case InsufficientFunds => pc.InTx? && pc.stage == Check
    case NumericOverflow => pc.InTx? && pc.stage == DebitUpdate
    case AlreadyReversed => pc.InTx? && pc.stage == InsertReverses
    case _ => false
  }

  // ---------- The ledger's reasons ----------

  lemma AtomicGround(l: Ledger, r: Request, e: Error)
    requires LedgerOk(l) && Validated(r) && Atomic(l, r, 0).1 == Err(e)
    ensures Ground(l, r, e)
  {
    match r
    case TransferReq(src, dst, amount, key) => TransferDoes(l, src, dst, amount, key, 0);
    case DepositReq(dst, amount, key) => DepositDoes(l, dst, amount, key, 0);
    case ReverseReq(original, key) => ReversalGround(l, original, key, e);
  }

  lemma ReversalGround(l: Ledger, original: TxId, key: string, e: Error)
    requires LedgerOk(l) && Atomic(l, ReverseReq(original, key), 0).1 == Err(e)
    ensures Ground(l, ReverseReq(original, key), e)
  {
    ReversalDoes(l, original, key, 0);
    var res, h := Atomic(l, ReverseReq(original, key), 0), Header(0, Reversal, key, Some(original));
    if src, dst, amount :| Undoing(l, res, h, src, dst, amount) {
      if e == InsufficientFunds { assert Short(l, original, src, dst, amount); }
    }
  }

  lemma BeforeKeyGround(l: Ledger, r: Request, e: Error)
    requires LedgerOk(l) && Validated(r) && BeforeKey(l, r) == Some(e)
    ensures Ground(l, r, e)
  {
    if r.ReverseReq? {
      var found := FindId(l.headers, r.original);
      if found.Some? && found.value.kind == Transfer {
        var m := ReversalMove(r.original, r.key, EntriesOf(l.entries, found.value.id));
        FetchedSettled(l, r, found.value);
        SettledSound(l, r, m);
        BalanceGround(l, m, e);
        var src, dst, amount := TransferLegs(l, found.value);
        assert Short(l, r.original, src, dst, amount);
      }
    } else {
      BalanceGround(l, Asked(r).value, e);
    }
  }

  /** What stops a sound movement's balance updates. */
  lemma BalanceGround(l: Ledger, m: Move, e: Error)
    requires LedgerOk(l) && Sound(l, m) && BalanceObstacle(l, m) == Some(e)
    ensures || (e == AccountNotFound && m.kind != Reversal && (m.debit !in l.accounts || m.credit !in l.accounts))
            || (e == InsufficientFunds && m.kind != Deposit && m.debit in l.accounts && m.credit in l.accounts
                && l.accounts[m.debit].balance < m.amount)
            || (e == NumericOverflow && m.kind == Deposit && l.accounts[EXTERNAL].balance - m.amount <= -LIMIT)
  {
    SoundFacts(l, m);
    assert AccountOk(l, EXTERNAL);
    if m.debit in l.accounts && m.credit in l.accounts
       && (m.kind == Deposit || l.accounts[m.debit].balance >= m.amount) {
      OnlyDepositsOverflow(l, m);
    }
  }

  /** The step of this stage makes no error certain but where that error is found. */
  ghost predicate Finds(l: Ledger, c: CallId, tx: Tx, stage: Stage) {
    forall e :: Verdict(TxStep(l, c, tx, stage, true).pc) == Some(Err(e)) ==> FoundAt(InTx(tx, stage), e)
  }

  lemma PlainFinds(l: Ledger, c: CallId, tx: Tx, stage: Stage)
    requires stage.Scan? || stage.InsertKey? || stage == Rollback(IdempotencyConflict)
    ensures Finds(l, c, tx, stage)
  {
  }

  lemma CheckFinds(l: Ledger, c: CallId, tx: Tx)
    requires tx.read.Keys <= {tx.move.debit, tx.move.credit} && tx.move.debit != tx.move.credit
    requires !Missing(tx.move, tx.read.Keys)
    ensures Finds(l, c, tx, Check)
  {
    TwoKeys(tx.read, tx.move.debit, tx.move.credit);
  }

  lemma DebitFinds(s: State, c: CallId, tx: Tx)
    requires AtStage(s, c, tx, DebitUpdate) && LedgerOk(s.ledger)
    ensures Finds(s.ledger, c, tx, DebitUpdate)
  {
    UpdateStep(s, c, s.calls[c].req, tx);
  }

  lemma CreditFinds(s: State, c: CallId, tx: Tx)
    requires AtStage(s, c, tx, CreditUpdate) && LedgerOk(s.ledger)
    ensures Finds(s.ledger, c, tx, CreditUpdate)
  {
    CreditGoes(s, c, tx);
  }

  lemma ReversesFinds(l: Ledger, c: CallId, r: Request, tx: Tx)
    requires LedgerOk(l) && Settled(l, r, tx.move) && tx.move.reverses.Some?
    ensures Finds(l, c, tx, InsertReverses)
  {
    OriginalFound(l, r, tx.move);
  }

  lemma LegsFinds(s: State, c: CallId, tx: Tx)
    requires AtStage(s, c, tx, InsertLegs) && LedgerOk(s.ledger)
    ensures Finds(s.ledger, c, tx, InsertLegs)
  {
    UpdateStep(s, c, s.calls[c].req, tx);
  }

  lemma CommitFinds(s: State, c: CallId, tx: Tx)
    requires AtStage(s, c, tx, Commit) && LedgerOk(s.ledger)
    ensures Finds(s.ledger, c, tx, Commit)
  {
    CommitGoes(s, c, tx);
    SuccessFinds(s.ledger, c, tx, TxStep(s.ledger, c, tx, Commit, true));
  }

  lemma SuccessFinds(l: Ledger, c: CallId, tx: Tx, e: Effect)
    requires e == TxStep(l, c, tx, Commit, true) && e.pc == AuditSuccess(tx)
    ensures Finds(l, c, tx, Commit)
  {
  }

  lemma TxFinds(s: State, c: CallId, tx: Tx, stage: Stage)
    requires Inv(s) && AtStage(s, c, tx, stage) && Verdict(InTx(tx, stage)).None?
    ensures Finds(s.ledger, c, tx, stage)
  {
    match stage
    case Locking(todo) => LockKeeps(s.ledger, c, tx, todo);
    case Check => CheckFinds(s.ledger, c, tx);
    case DebitUpdate => DebitFinds(s, c, tx);
    case CreditUpdate => CreditFinds(s, c, tx);
    case InsertReverses => ReversesFinds(s.ledger, c, s.calls[c].req, tx);
    case InsertLegs => LegsFinds(s, c, tx);
    case Commit => CommitFinds(s, c, tx);
    case _ => PlainFinds(s.ledger, c, tx, stage);
  }

  lemma LockKeeps(l: Ledger, c: CallId, tx: Tx, todo: seq<AccountId>)
    requires todo != [] && todo[0] in l.accounts && Verdict(InTx(tx, Locking(todo))).None?
    ensures Verdict(TxStep(l, c, tx, Locking(todo), true).pc).None?
  {
    LockSettles(l, c, CreateReq, tx, todo);
  }

  // ---------- Failed store calls ----------

  /** A failed step makes StoreFailure or IdempotencyConflict certain, or changes nothing. */
  lemma FailedStep(l: Ledger, c: CallId, call: Call, newId: TxId, e: Error)
    requires !call.pc.Returned? && !call.pc.Validate?
    requires Verdict(Decide(l, c, call, false, newId).pc) == Some(Err(e))
    requires e != StoreFailure && e != IdempotencyConflict
    ensures Verdict(call.pc) == Some(Err(e))
  {
  }

  predicate OfFailure(e: Error) {
    e == StoreFailure || e == IdempotencyConflict
  }

  /** A failed store call ends in its own error, and nothing else does. */
  lemma FailedEnds(l: Ledger, c: CallId, call: Call, newId: TxId, e: Error)
    requires !call.pc.Returned? && OfFailure(e) && (call.pc.AuditSuccess? ==> call.pc.tx.header.Some?)
    ensures Verdict(Decide(l, c, call, false, newId).pc) == Some(Err(e)) <==>
              Verdict(call.pc) == Some(Err(e)) || FailureAt(call.pc) == Some(e)
  {
  }

  /** A store call that succeeds does not make either error certain. */
  lemma PlainEnds(l: Ledger, c: CallId, call: Call, newId: TxId, e: Error)
    requires OfFailure(e) && !call.pc.InTx? && Verdict(call.pc).None? && Conflicted(l, call)
    requires (call.pc.FetchHeader? || call.pc.FetchEntries? ==> call.req.ReverseReq?)
             && (call.pc.AuditSuccess? ==> call.pc.tx.header.Some?)
    ensures Verdict(Decide(l, c, call, true, newId).pc) != Some(Err(e))
  {
  }

  lemma FindsEnds(l: Ledger, c: CallId, tx: Tx, stage: Stage, e: Error)
    requires Finds(l, c, tx, stage) && OfFailure(e)
    ensures Verdict(TxStep(l, c, tx, stage, true).pc) != Some(Err(e))
  {
  }

  lemma TxEnds(s: State, c: CallId, tx: Tx, stage: Stage, e: Error)
    requires Inv(s) && AtStage(s, c, tx, stage) && Verdict(InTx(tx, stage)).None? && OfFailure(e)
    ensures Verdict(TxStep(s.ledger, c, tx, stage, true).pc) != Some(Err(e))
  {
    TxFinds(s, c, tx, stage);
    FindsEnds(s.ledger, c, tx, stage, e);
  }

  lemma UndecidedEnds(s: State, ev: Event, e: Error)
    requires Inv(s) && ev.Run? && ev.ok && Enabled(s, ev) && Conflicted(s.ledger, s.calls[ev.call]) && OfFailure(e)
    requires Verdict(s.calls[ev.call].pc).None?
    ensures Verdict(EffectOf(s, ev).pc) != Some(Err(e))
  {
    var c, pc := ev.call, s.calls[ev.call].pc;
    if pc.InTx? {
      AtItsStage(s, c);
      TxEnds(s, c, pc.tx, pc.stage, e);
    } else {
      assert CallOk(s, c);
      PlainEnds(s.ledger, c, s.calls[c], ev.newId, e);
    }
  }

  lemma OkEnds(s: State, ev: Event, e: Error)
    requires Inv(s) && ev.Run? && ev.ok && Enabled(s, ev) && Conflicted(s.ledger, s.calls[ev.call]) && OfFailure(e)
    ensures Verdict(EffectOf(s, ev).pc) == Some(Err(e)) <==> Verdict(s.calls[ev.call].pc) == Some(Err(e))
  {
    if Verdict(s.calls[ev.call].pc).Some? { VerdictStays(s, ev); } else { UndecidedEnds(s, ev, e); }
  }

  lemma OwnEnds(s: State, ev: Event, e: Error)
    requires Inv(s) && ev.Run? && Enabled(s, ev) && Conflicted(s.ledger, s.calls[ev.call]) && OfFailure(e)
    ensures Verdict(EffectOf(s, ev).pc) == Some(Err(e)) <==>
              Verdict(s.calls[ev.call].pc) == Some(Err(e)) || (!ev.ok && FailureAt(s.calls[ev.call].pc) == Some(e))
  {
    assert CallOk(s, ev.call);
    if ev.ok { OkEnds(s, ev, e); } else { FailedEnds(s.ledger, ev.call, s.calls[ev.call], ev.newId, e); }
  }

  // ---------- Whole runs ----------

  /** Event i is a step of call c, succeeding or failing as `ok` says, taken in state u. */
  ghost predicate StepAt(start: State, evs: seq<Event>, i: nat, u: State, c: CallId, ok: bool) {
    && i < |evs| && evs[i].Run? && evs[i].call == c && evs[i].ok == ok
    && Reaches(start, evs[..i], u) && c in u.calls
  }

  /** Event i is a failed store call of call c, and e the error it ends in. */
  ghost predicate FailsAt(start: State, evs: seq<Event>, i: nat, c: CallId, e: Error) {
    exists u :: StepAt(start, evs, i, u, c, false) && FailureAt(u.calls[c].pc) == Some(e)
  }

  /** Event i is a step of call c at which e is found, and the committed ledger is why. */
  ghost predicate TurnedDownAt(start: State, evs: seq<Event>, i: nat, c: CallId, e: Error) {
    exists u ::
      StepAt(start, evs, i, u, c, true) && FoundAt(u.calls[c].pc, e) && Ground(u.ledger, u.calls[c].req, e)
  }

  lemma StepAtPrefix(start: State, evs: seq<Event>, n: nat, i: nat, u: State, c: CallId, ok: bool)
    requires n <= |evs| && i < n
    ensures StepAt(start, evs[..n], i, u, c, ok) <==> StepAt(start, evs, i, u, c, ok)
  {
    assert evs[..n][..i] == evs[..i];
  }

  /** Some store call of call c fails and ends in e. */
  ghost predicate Fails(start: State, evs: seq<Event>, c: CallId, e: Error) {
    exists i: nat :: FailsAt(start, evs, i, c, e)
  }

  lemma FailsPrefix(start: State, evs: seq<Event>, n: nat, i: nat, c: CallId, e: Error)
    requires n <= |evs| && i < n
    ensures FailsAt(start, evs[..n], i, c, e) <==> FailsAt(start, evs, i, c, e)
  {
    forall u: State ensures StepAt(start, evs[..n], i, u, c, false) <==> StepAt(start, evs, i, u, c, false) {
      StepAtPrefix(start, evs, n, i, u, c, false);
    }
  }

  /** The last event is a failed call of c that ends in e. */
  predicate FailsNow(u: State, ev: Event, c: CallId, e: Error) {
    ev.Run? && ev.call == c && !ev.ok && c in u.calls && FailureAt(u.calls[c].pc) == Some(e)
  }

  lemma FailsLast(start: State, evs: seq<Event>, u: State, c: CallId, e: Error)
    requires evs != [] && Reaches(start, evs[..|evs| - 1], u)
    ensures FailsAt(start, evs, |evs| - 1, c, e) <==> FailsNow(u, evs[|evs| - 1], c, e)
  {
    if FailsNow(u, evs[|evs| - 1], c, e) { assert StepAt(start, evs, |evs| - 1, u, c, false); }
  }

  lemma FailsLater(start: State, evs: seq<Event>, n: nat, c: CallId, e: Error)
    requires n <= |evs| && Fails(start, evs[..n], c, e)
    ensures Fails(start, evs, c, e)
  {
    var i: nat :| FailsAt(start, evs[..n], i, c, e);
    FailsPrefix(start, evs, n, i, c, e);
  }

  lemma FailsSooner(start: State, evs: seq<Event>, n: nat, i: nat, c: CallId, e: Error)
    requires i < n <= |evs| && FailsAt(start, evs, i, c, e)
    ensures Fails(start, evs[..n], c, e)
  {
    FailsPrefix(start, evs, n, i, c, e);
  }

  lemma FailsOneMore(start: State, evs: seq<Event>, u: State, c: CallId, e: Error)
    requires evs != [] && Reaches(start, evs[..|evs| - 1], u)
    ensures Fails(start, evs, c, e) <==> Fails(start, evs[..|evs| - 1], c, e) || FailsNow(u, evs[|evs| - 1], c, e)
  {
    var n := |evs| - 1;
    FailsLast(start, evs, u, c, e);
    if Fails(start, evs[..n], c, e) { FailsLater(start, evs, n, c, e); }
    if Fails(start, evs, c, e) {
      var i: nat :| FailsAt(start, evs, i, c, e);
      if i < n { FailsSooner(start, evs, n, i, c, e); }
    }
  }

  lemma {:induction false} FailuresDecide(pool: nat, evs: seq<Event>, s: State, c: CallId, e: Error)
    requires Reaches(Init(pool), evs, s) && OfFailure(e)
    ensures (c in s.calls && Verdict(s.calls[c].pc) == Some(Err(e))) <==> Fails(Init(pool), evs, c, e)
  {
    if evs == [] {
      assert forall i: nat :: !FailsAt(Init(pool), evs, i, c, e);
    } else {
      var n := |evs| - 1;
      var u, ev := Exec(Init(pool), evs[..n]).value, evs[n];
      FailsOneMore(Init(pool), evs, u, c, e);
      FailuresDecide(pool, evs[..n], u, c, e);
      if ev.Run? && ev.call == c {
        InvRun(pool, evs[..n], u);
        ConflictedRun(pool, evs[..n], u, c);
        OwnEnds(u, ev, e);
      }
    }
  }

  /** A call returns StoreFailure if and only if one of its store calls failed while it
      fetched its original, opened its transaction or was inside it (or inserted its account);
      IdempotencyConflict, if and only if the lookup of a lost key race failed. */
  lemma FailuresExactly(pool: nat, evs: seq<Event>, s: State, c: CallId, e: Error)
    requires Reaches(Init(pool), evs, s) && c in s.calls && s.calls[c].pc.Returned? && OfFailure(e)
    ensures s.calls[c].pc.outcome == Err(e) <==> Fails(Init(pool), evs, c, e)
  {
    FailuresDecide(pool, evs, s, c, e);
  }

  /** In particular, whatever store call fails inside its transaction. */
  lemma FailedInTransaction(pool: nat, evs: seq<Event>, s: State, c: CallId, i: nat, u: State)
    requires Reaches(Init(pool), evs, s) && c in s.calls && s.calls[c].pc.Returned?
    requires StepAt(Init(pool), evs, i, u, c, false) && u.calls[c].pc.InTx? && !u.calls[c].pc.stage.Rollback?
    ensures s.calls[c].pc.outcome == Err(StoreFailure)
  {
    assert FailsAt(Init(pool), evs, i, c, StoreFailure);
    FailuresExactly(pool, evs, s, c, StoreFailure);
  }

  // ---------- Every other error ----------

  lemma InvalidExactly(r: Request, e: Error)
    ensures Invalid(r, e) <==> Refusal(r) == Some(e)
    ensures Invalid(r, e) ==> !OfFailure(e)
  {
  }

  lemma ExplainedGround(l: Ledger, r: Request, e: Error)
    requires LedgerOk(l) && Validated(r) && (Explains(l, r, Err(e)) || Overtaken(l, r, Err(e)))
    ensures Ground(l, r, e)
  {
    if Explains(l, r, Err(e)) { AtomicGround(l, r, e); } else { BeforeKeyGround(l, r, e); }
  }

  lemma PlainFound(l: Ledger, c: CallId, call: Call, newId: TxId, e: Error)
    requires !call.pc.InTx? && Verdict(call.pc).None? && !call.pc.Validate? && Conflicted(l, call) && !OfFailure(e)
    requires call.pc.AuditSuccess? ==> call.pc.tx.header.Some?
    requires Verdict(Decide(l, c, call, true, newId).pc) == Some(Err(e))
    ensures FoundAt(call.pc, e) && (call.pc.FetchHeader? || call.pc.FetchEntries?)
  {
  }

  lemma OkFound(s: State, ev: Event, e: Error)
    requires Inv(s) && ev.Run? && ev.ok && Enabled(s, ev) && Conflicted(s.ledger, s.calls[ev.call]) && !OfFailure(e)
    requires Verdict(s.calls[ev.call].pc).None? && !s.calls[ev.call].pc.Validate?
    requires Verdict(EffectOf(s, ev).pc) == Some(Err(e))
    ensures FoundAt(s.calls[ev.call].pc, e) && Validated(s.calls[ev.call].req)
  {
    var c, pc := ev.call, s.calls[ev.call].pc;
    assert CallOk(s, c);
    if pc.InTx? {
      AtItsStage(s, c);
      TxFinds(s, c, pc.tx, pc.stage);
    } else {
      PlainFound(s.ledger, c, s.calls[c], ev.newId, e);
    }
  }

  lemma SettledGround(l: Ledger, r: Request, pc: Pc, next: Pc, e: Error)
    requires LedgerOk(l) && Validated(r) && Settles(l, r, pc, next)
    requires Verdict(pc).None? && Verdict(next) == Some(Err(e))
    ensures Ground(l, r, e)
  {
    ExplainedGround(l, r, e);
  }

  lemma OkReason(s: State, ev: Event, e: Error)
    requires Inv(s) && ev.Run? && ev.ok && Enabled(s, ev) && Conflicted(s.ledger, s.calls[ev.call]) && !OfFailure(e)
    requires Verdict(s.calls[ev.call].pc).None? && !s.calls[ev.call].pc.Validate?
    requires Verdict(EffectOf(s, ev).pc) == Some(Err(e))
    ensures FoundAt(s.calls[ev.call].pc, e) && Ground(s.ledger, s.calls[ev.call].req, e)
  {
    OkFound(s, ev, e);
    OwnSettles(s, ev);
    SettledGround(s.ledger, s.calls[ev.call].req, s.calls[ev.call].pc, EffectOf(s, ev).pc, e);
  }

  /** A step of a call after which e is certain: it was before, or here is why. */
  lemma OwnReason(s: State, ev: Event, e: Error)
    requires Inv(s) && ev.Run? && Enabled(s, ev) && Conflicted(s.ledger, s.calls[ev.call]) && !OfFailure(e)
    requires Verdict(EffectOf(s, ev).pc) == Some(Err(e))
    ensures var call := s.calls[ev.call];
            || Verdict(call.pc) == Some(Err(e)) || Invalid(call.req, e)
            || (ev.ok && FoundAt(call.pc, e) && Ground(s.ledger, call.req, e))
  {
    var call := s.calls[ev.call];
    assert CallOk(s, ev.call);
    InvalidExactly(call.req, e);
    if call.pc.Validate? {
    } else if !ev.ok {
      FailedStep(s.ledger, ev.call, call, ev.newId, e);
    } else if Verdict(call.pc).Some? {
      VerdictStays(s, ev);
    } else {
      OkReason(s, ev, e);
    }
  }

  ghost predicate TurnedDown(start: State, evs: seq<Event>, c: CallId, e: Error) {
    exists i: nat :: TurnedDownAt(start, evs, i, c, e)
  }

  lemma TurnedDownPrefix(start: State, evs: seq<Event>, n: nat, c: CallId, e: Error)
    requires n <= |evs| && TurnedDown(start, evs[..n], c, e)
    ensures TurnedDown(start, evs, c, e)
  {
    var i: nat :| TurnedDownAt(start, evs[..n], i, c, e);
    var u :| StepAt(start, evs[..n], i, u, c, true) && FoundAt(u.calls[c].pc, e) && Ground(u.ledger, u.calls[c].req, e);
    StepAtPrefix(start, evs, n, i, u, c, true);
    assert TurnedDownAt(start, evs, i, c, e);
  }

  lemma TurnedDownNow(start: State, evs: seq<Event>, u: State, c: CallId, e: Error)
    requires evs != [] && Reaches(start, evs[..|evs| - 1], u)
    requires evs[|evs| - 1].Run? && evs[|evs| - 1].call == c && evs[|evs| - 1].ok && c in u.calls
    requires FoundAt(u.calls[c].pc, e) && Ground(u.ledger, u.calls[c].req, e)
    ensures TurnedDown(start, evs, c, e)
  {
    assert StepAt(start, evs, |evs| - 1, u, c, true);
    assert TurnedDownAt(start, evs, |evs| - 1, c, e);
  }

  lemma {:induction false} ReasonRun(pool: nat, evs: seq<Event>, s: State, c: CallId, e: Error)
    requires Reaches(Init(pool), evs, s) && c in s.calls && !OfFailure(e) && Verdict(s.calls[c].pc) == Some(Err(e))
    ensures Invalid(s.calls[c].req, e) || TurnedDown(Init(pool), evs, c, e)
  {
    var n := |evs| - 1;
    var u, ev := Exec(Init(pool), evs[..n]).value, evs[n];
    InvRun(pool, evs[..n], u);
    if ev.call == c {
      ConflictedRun(pool, evs[..n], u, c);
      OwnReason(u, ev, e);
      if ev.ok && FoundAt(u.calls[c].pc, e) && Ground(u.ledger, u.calls[c].req, e) {
        TurnedDownNow(Init(pool), evs, u, c, e);
      }
    }
    if Verdict(u.calls[c].pc) == Some(Err(e)) {
      ReasonRun(pool, evs[..n], u, c, e);
      if TurnedDown(Init(pool), evs[..n], c, e) { TurnedDownPrefix(Init(pool), evs, n, c, e); }
    }
  }

  // ---------- Main results ----------

  /** In every run, failures included, a call that returned an error other than the two a
      failed store call ends in was refused for its own fields, or took a step that
      succeeded, at the point of its code where that error is found, on a committed ledger
      that gives the reason: a missing account, a payer short of the amount, a missing or
      unsuitable or already reversed original, EXTERNAL out of room. */
  lemma EveryErrorHasAReason(pool: nat, evs: seq<Event>, s: State, c: CallId)
    requires Reaches(Init(pool), evs, s) && c in s.calls && s.calls[c].pc.Returned? && s.calls[c].pc.outcome.Err?
    ensures var r, e := s.calls[c].req, s.calls[c].pc.outcome.error;
            || Invalid(r, e)
            || Fails(Init(pool), evs, c, e)
            || TurnedDown(Init(pool), evs, c, e)
  {
    var e := s.calls[c].pc.outcome.error;
    if OfFailure(e) { FailuresExactly(pool, evs, s, c, e); } else { ReasonRun(pool, evs, s, c, e); }
  }

  /** A call returns one of the three refusals if and only if its fields call for it. */
  lemma RefusalsExactly(pool: nat, evs: seq<Event>, s: State, c: CallId, e: Error)
    requires Reaches(Init(pool), evs, s) && c in s.calls && s.calls[c].pc.Returned?
    requires e in {InvalidAmount, SelfTransfer, SystemAccount}
    ensures s.calls[c].pc.outcome == Err(e) <==> Invalid(s.calls[c].req, e)
  {
    InvRun(pool, evs, s);
    assert CallOk(s, c);
    InvalidExactly(s.calls[c].req, e);
  }
}
